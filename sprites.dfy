/** Model of the image-sprite bookkeeping in app.module.js: the per-frame
    update of one sprite record (timers, heading, speed cap, facing and spin),
    the spawn-placement retry loop, and one step of the pairwise resolve pass.

    Numbers are reals. Every `Math.random()` draw is an input in [0, 1), and
    the elementary functions (`Math.sqrt`, `Math.sin`, `Math.cos`,
    `Math.atan2`) are a `MathLib` value constrained only by the laws the
    proofs use. The steering sum (ring keeping, pursuit, separation, angular
    lanes) is an input vector. */
module Sprites {

  /** One sprite record: mesh position and yaw, velocity on the ground plane,
      and the behaviour state the frame loop keeps on the record. */
  datatype Sprite = Sprite(
    x: real, y: real, z: real, yaw: real,
    vx: real, vz: real,
    targetTimer: real, spinCooldown: real, randomMoveTimer: real,
    wanderAngle: real, baseHeight: real, radius: real, height: real,
    faceTimer: real, faceUser: bool)

  /** The elementary functions the frame loop calls. */
  datatype MathLib = MathLib(
    sqrt: real -> real, sin: real -> real, cos: real -> real, atan2: (real, real) -> real)

  function Sq(a: real): real
  {
    a * a
  }

  /** Squared length of a ground-plane vector (`lengthSq`). */
  function Norm2(x: real, z: real): real
  {
    Sq(x) + Sq(z)
  }

  /** The laws of the real functions that the properties rely on. */
  ghost predicate MathLaws(m: MathLib)
  {
    && (forall a :: 0.0 <= a ==> 0.0 <= m.sqrt(a) && Sq(m.sqrt(a)) == a)
    && (forall a :: -1.0 <= m.sin(a) <= 1.0)
    && (forall a :: Sq(m.cos(a)) + Sq(m.sin(a)) == 1.0)
  }

  /** A `Math.random()` result. */
  predicate Unit(r: real)
  {
    0.0 <= r < 1.0
  }

  const MaxDt: real := 0.05
  const MaxSpeed: real := 6.2
  const TurnRate: real := 4.0
  const SpinRate: real := 8.0
  const CrazySpinRate: real := 12.0
  const SwayAmplitude: real := 0.12
  const Pi: real := 3.141592653589793

  /** The frame step: elapsed milliseconds in seconds, capped at 0.05. */
  function FrameDt(elapsedMs: real): (dt: real)
    ensures dt <= MaxDt
    ensures elapsedMs >= 0.0 ==> 0.0 <= dt
    ensures dt == MaxDt || dt == elapsedMs / 1000.0
    ensures elapsedMs <= 50.0 ==> dt == elapsedMs / 1000.0
  {
    if elapsedMs / 1000.0 < MaxDt then elapsedMs / 1000.0 else MaxDt
  }

  // ---------------------------------------------------------------------------
  // Vector helpers on the ground plane

  /** `Vector3.normalize`: divide by the length, or by 1 when it is 0. */
  function Normalize(m: MathLib, x: real, z: real): (real, real)
  {
    var l := m.sqrt(Norm2(x, z));
    if l == 0.0 then (x, z) else (x / l, z / l)
  }

  /** `atan2(sin d, cos d)`: the angle difference wrapped to one turn. */
  function Wrap(m: MathLib, d: real): real
  {
    m.atan2(m.sin(d), m.cos(d))
  }

  /** `THREE.MathUtils.clamp`. */
  function Clamp(v: real, lo: real, hi: real): (c: real)
    requires lo <= hi
    ensures lo <= c <= hi
    ensures lo <= v <= hi ==> c == v
  {
    if v < lo then lo else if v > hi then hi else v
  }

  /** A non-zero vector normalized has length 1. */
  lemma NormalizeUnit(m: MathLib, x: real, z: real)
    requires MathLaws(m) && Norm2(x, z) > 0.0
    ensures var u := Normalize(m, x, z); Norm2(u.0, u.1) == 1.0
  {
    var q := Norm2(x, z);
    var l := m.sqrt(q);
    assert Sq(l) == q;
    SqNonZero(l);
    SqQuotient(x, l);
    SqQuotient(z, l);
    var n := Norm2(x / l, z / l);
    assert n * Sq(l) == Sq(x / l) * Sq(l) + Sq(z / l) * Sq(l);
    Cancel(n, Sq(l), q);
  }

  /** `setLength(6.2)` applied when the speed exceeds 6.2 brings the speed to
      exactly 6.2; otherwise the speed is at most 6.2 already. */
  lemma SpeedCap(m: MathLib, vx: real, vz: real)
    requires MathLaws(m)
    ensures var q := Norm2(vx, vz);
            var u := Normalize(m, vx, vz);
            if m.sqrt(q) > MaxSpeed
            then Norm2(u.0 * MaxSpeed, u.1 * MaxSpeed) == Sq(MaxSpeed)
            else q <= Sq(MaxSpeed)
  {
    var q := Norm2(vx, vz);
    var l := m.sqrt(q);
    assert Sq(l) == q && l >= 0.0;
    if l > MaxSpeed {
      NormalizeUnit(m, vx, vz);
      var u := Normalize(m, vx, vz);
      Norm2Scale(u.0, u.1, MaxSpeed);
    } else {
      SqMonotone(l, MaxSpeed);
    }
  }

  lemma SqNonZero(l: real)
    requires Sq(l) != 0.0
    ensures l != 0.0
  {
  }

  lemma SqQuotient(x: real, l: real)
    requires l != 0.0
    ensures Sq(x / l) * Sq(l) == Sq(x)
  {
    assert (x / l) * l == x;
  }

  lemma SqMonotone(a: real, b: real)
    requires 0.0 <= a <= b
    ensures Sq(a) <= Sq(b)
  {
    assert a * a <= a * b <= b * b;
  }

  /** Scaling a vector by `k` scales its squared length by `k * k`. */
  lemma Norm2Scale(x: real, z: real, k: real)
    ensures Norm2(x * k, z * k) == Sq(k) * Norm2(x, z)
  {
    assert Sq(x * k) == Sq(k) * Sq(x);
    assert Sq(z * k) == Sq(k) * Sq(z);
  }

  lemma Cancel(n: real, s: real, q: real)
    requires n * s == q && s == q && q != 0.0
    ensures n == 1.0
  {
    assert (n - 1.0) * q == 0.0;
  }

  lemma ScaledBound(a: real, b: real, c: real)
    requires -c <= a <= c && 0.0 <= b
    ensures -c * b <= a * b <= c * b
  {
  }

  /** Decaying by `dt` times a factor in [1.2, 2.0) within one frame. */
  lemma DecayBounds(c: real, dt: real, factor: real, after: real)
    requires 0.0 <= dt <= MaxDt && 1.2 <= factor < 2.0 && after == c - dt * factor
    ensures c - 2.0 * dt <= after <= c - 1.2 * dt
    ensures c - 0.1 <= after <= c
  {
    assert dt * 1.2 <= dt * factor <= dt * 2.0;
  }

  // ---------------------------------------------------------------------------
  // The per-frame update (the body of `sprites.forEach` in `animate`)

  /** The random draws one sprite's update may consume; a branch not taken
      leaves its draws unused. */
  datatype Draws = Draws(
    follow: real, offsetX: real, offsetZ: real, speed: real, wander: real, target: real,
    burstX: real, burstZ: real, burst: real,
    faceChoice: real, face: real,
    endSpin: real, spinLength: real, decay: real, startSpin: real)

  predicate DrawsValid(r: Draws)
  {
    && Unit(r.follow) && Unit(r.offsetX) && Unit(r.offsetZ) && Unit(r.speed) && Unit(r.wander)
    && Unit(r.target) && Unit(r.burstX) && Unit(r.burstZ) && Unit(r.burst)
    && Unit(r.faceChoice) && Unit(r.face)
    && Unit(r.endSpin) && Unit(r.spinLength) && Unit(r.decay) && Unit(r.startSpin)
  }

  /** A countdown timer: it runs down by `dt`, and only once it has reached
      zero is it re-armed, to a value in [lo, hi). */
  predicate TimerRule(before: real, dt: real, after: real, lo: real, hi: real)
  {
    if before - dt > 0.0 then after == before - dt else lo <= after < hi
  }

  predicate TimerRules(s: Sprite, t: Sprite, dt: real)
  {
    && TimerRule(s.targetTimer, dt, t.targetTimer, 1.2, 3.7)
    && TimerRule(s.randomMoveTimer, dt, t.randomMoveTimer, 2.0, 6.0)
    && TimerRule(s.faceTimer, dt, t.faceTimer, 0.7, 1.8)
    && (s.faceTimer - dt > 0.0 ==> t.faceUser == s.faceUser)
  }

  /** `spinCooldown`: in crazy mode it only runs down by `dt`. Otherwise a
      positive value (after the frame's `dt`) decays by `dt` times a factor in
      [1.2, 2.0); a non-positive one (a spin in progress) stays, becomes -1,
      or the spin ends with a fresh cooldown in [0.7, 3.3). */
  predicate CooldownRule(s: Sprite, t: Sprite, dt: real, crazy: bool)
  {
    var c := s.spinCooldown - dt;
    if crazy then t.spinCooldown == c
    else if c > 0.0 then c - 2.0 * dt <= t.spinCooldown <= c - 1.2 * dt
    else t.spinCooldown == c || t.spinCooldown == -1.0 || 0.7 <= t.spinCooldown < 3.3
  }

  /** Yaw: the facing turn moves it by at most 4 rad/s; a spinning sprite
      then adds exactly 8 rad/s (12 in crazy mode), a resting one a sway of at
      most 0.12 rad/s. */
  predicate YawRule(s: Sprite, t: Sprite, dt: real, crazy: bool)
  {
    var d := t.yaw - s.yaw;
    if s.spinCooldown - dt <= 0.0 || crazy then
      var rate := if crazy then CrazySpinRate else SpinRate;
      (rate - TurnRate) * dt <= d <= (rate + TurnRate) * dt
    else
      -(TurnRate + SwayAmplitude) * dt <= d <= (TurnRate + SwayAmplitude) * dt
  }

  /** Motion: the speed never exceeds 6.2, the sprite moves by its new
      velocity, it sits at its base height, and its shape is unchanged. */
  predicate MotionRule(s: Sprite, t: Sprite, dt: real)
  {
    && Norm2(t.vx, t.vz) <= Sq(MaxSpeed)
    && t.x == s.x + t.vx * dt && t.z == s.z + t.vz * dt
    && t.y == t.baseHeight
    && t.baseHeight == s.baseHeight && t.radius == s.radius && t.height == s.height
    && (s.targetTimer - dt > 0.0 ==> t.wanderAngle == s.wanderAngle)
    && -0.3 <= t.wanderAngle - s.wanderAngle <= 0.3
  }

  ghost predicate FrameRules(s: Sprite, t: Sprite, dt: real, crazy: bool)
  {
    TimerRules(s, t, dt) && CooldownRule(s, t, dt, crazy) && YawRule(s, t, dt, crazy) && MotionRule(s, t, dt)
  }

  /** Heading: when the heading timer has run out, follow the player (70%)
      with speed in [3.2, 5.7), or wander at a gently changed angle with speed
      in [1, 2); then re-arm the timer. */
  method Retarget(s: Sprite, dt: real, px: real, pz: real, r: Draws, m: MathLib)
    returns (vx: real, vz: real, wanderAngle: real, targetTimer: real)
    requires DrawsValid(r)
    ensures TimerRule(s.targetTimer, dt, targetTimer, 1.2, 3.7)
    ensures s.targetTimer - dt > 0.0 ==> vx == s.vx && vz == s.vz && wanderAngle == s.wanderAngle
    ensures -0.3 <= wanderAngle - s.wanderAngle <= 0.3
  {
    vx, vz, wanderAngle := s.vx, s.vz, s.wanderAngle;
    targetTimer := s.targetTimer - dt;
    if targetTimer <= 0.0 {
      var tx, tz := px - s.x, pz - s.z;
      if r.follow < 0.7 {
        if Norm2(tx, tz) > 0.0001 {
          var (nx, nz) := Normalize(m, tx, tz);
          var (fx, fz) := Normalize(m, nx + (r.offsetX * 2.0 - 1.0) * 0.4, nz + (r.offsetZ * 2.0 - 1.0) * 0.4);
          var speed := 3.2 + r.speed * 2.5;
          vx, vz := fx * speed, fz * speed;
        }
      } else {
        wanderAngle := wanderAngle + (r.wander * 2.0 - 1.0) * 0.3;
        var speed := 1.0 + r.speed * 1.0;
        vx, vz := m.cos(wanderAngle) * speed, m.sin(wanderAngle) * speed;
      }
      targetTimer := 1.2 + r.target * 2.5;
    }
  }

  /** Facing: when the face timer has run out, face the player 60% of the
      time; turn toward the target yaw by at most 4 rad/s; then spin (8 rad/s,
      12 in crazy mode) or sway, and update the spin cooldown. */
  method Turn(s: Sprite, idx: nat, dt: real, crazy: bool, now: real, px: real, pz: real,
              x: real, z: real, vx: real, vz: real, r: Draws, m: MathLib)
    returns (yaw: real, spinCooldown: real, faceTimer: real, faceUser: bool)
    requires 0.0 <= dt <= MaxDt && DrawsValid(r) && MathLaws(m)
    ensures TimerRule(s.faceTimer, dt, faceTimer, 0.7, 1.8)
    ensures s.faceTimer - dt > 0.0 ==> faceUser == s.faceUser
    ensures CooldownRule(s, s.(spinCooldown := spinCooldown), dt, crazy)
    ensures YawRule(s, s.(yaw := yaw), dt, crazy)
  {
    faceTimer := s.faceTimer - dt;
    faceUser := s.faceUser;
    if faceTimer <= 0.0 {
      faceUser := r.faceChoice < 0.6;
      faceTimer := 0.7 + r.face * 1.1;
    }
    var targetYaw := if faceUser then m.atan2(px - x, pz - z) else m.atan2(vx, vz);
    var step := Clamp(Wrap(m, targetYaw - s.yaw), -TurnRate * dt, TurnRate * dt);
    yaw := s.yaw + step;
    spinCooldown := s.spinCooldown - dt;
    if spinCooldown <= 0.0 || crazy {
      yaw := yaw + (if crazy then CrazySpinRate else SpinRate) * dt;
      if !crazy && r.endSpin < 0.15 {
        spinCooldown := 0.8 + r.spinLength * 2.5;
      }
    } else {
      var sway := m.sin(now * 0.0004 + idx as real);
      var amplitude := SwayAmplitude * dt;
      ScaledBound(sway, amplitude, 1.0);
      assert -amplitude <= sway * amplitude <= amplitude;
      yaw := yaw + sway * amplitude;
      assert -TurnRate * dt - amplitude <= yaw - s.yaw <= TurnRate * dt + amplitude;
    }
    if !crazy {
      if spinCooldown > 0.0 {
        var factor := r.decay * 0.8 + 1.2;
        var decayed := spinCooldown - dt * factor;
        DecayBounds(spinCooldown, dt, factor, decayed);
        spinCooldown := decayed;
      } else if r.startSpin < 0.02 {
        spinCooldown := -1.0;
      }
    }
  }

  /** Velocity after retargeting: a random burst when the burst timer runs
      out (re-armed to [2, 6)), the frame's steering, then `setLength(6.2)`
      when the speed exceeds 6.2. */
  method Accelerate(s: Sprite, vx0: real, vz0: real, dt: real, steerX: real, steerZ: real,
                    r: Draws, m: MathLib)
    returns (vx: real, vz: real, randomMoveTimer: real)
    requires DrawsValid(r) && MathLaws(m)
    ensures TimerRule(s.randomMoveTimer, dt, randomMoveTimer, 2.0, 6.0)
    ensures Norm2(vx, vz) <= Sq(MaxSpeed)
  {
    vx, vz := vx0, vz0;
    randomMoveTimer := s.randomMoveTimer - dt;
    if randomMoveTimer <= 0.0 {
      vx, vz := vx + (r.burstX * 2.0 - 1.0) * 1.0, vz + (r.burstZ * 2.0 - 1.0) * 1.0;
      randomMoveTimer := 2.0 + r.burst * 4.0;
    }
    vx, vz := vx + steerX * dt, vz + steerZ * dt;
    SpeedCap(m, vx, vz);
    if m.sqrt(Norm2(vx, vz)) > MaxSpeed {
      var (ux, uz) := Normalize(m, vx, vz);
      vx, vz := ux * MaxSpeed, uz * MaxSpeed;
    }
  }

  /** One sprite's frame: count the timers down, retarget, apply a random
      burst when its timer runs out, add the steering, cap the speed at 6.2,
      move, pin the height, then face and spin. */
  method UpdateSprite(s: Sprite, idx: nat, dt: real, crazy: bool, now: real,
                      px: real, pz: real, steerX: real, steerZ: real, r: Draws, m: MathLib)
    returns (t: Sprite)
    requires 0.0 <= dt <= MaxDt && DrawsValid(r) && MathLaws(m)
    ensures FrameRules(s, t, dt, crazy)
  {
    var vx, vz, wanderAngle, targetTimer := Retarget(s, dt, px, pz, r, m);
    var randomMoveTimer;
    vx, vz, randomMoveTimer := Accelerate(s, vx, vz, dt, steerX, steerZ, r, m);
    var x := s.x + vx * dt;
    var z := s.z + vz * dt;
    var yaw, spinCooldown, faceTimer, faceUser := Turn(s, idx, dt, crazy, now, px, pz, x, z, vx, vz, r, m);
    t := s.(x := x, y := s.baseHeight, z := z, yaw := yaw, vx := vx, vz := vz,
            targetTimer := targetTimer, spinCooldown := spinCooldown,
            randomMoveTimer := randomMoveTimer, wanderAngle := wanderAngle,
            faceTimer := faceTimer, faceUser := faceUser);
  }

  // ---------------------------------------------------------------------------
  // Spawn placement (in `loadCharacters`)

  const MaxAttempts: nat := 50
  const MapSize: real := 20.0
  const MinSpawnDist: real := 0.3

  /** The point one attempt draws: uniform over a 20 x 20 square around the origin. */
  function Candidate(d: (real, real)): (p: (real, real))
    ensures Unit(d.0) && Unit(d.1) ==> -10.0 <= p.0 < 10.0 && -10.0 <= p.1 < 10.0
  {
    ((d.0 - 0.5) * MapSize, (d.1 - 0.5) * MapSize)
  }

  /** At least 1 from the origin and at least 0.3 from every existing sprite;
      distances are compared squared (`sqrt(a) < b` exactly when `a < b * b`). */
  predicate Acceptable(p: (real, real), existing: seq<Sprite>)
  {
    && Norm2(p.0, p.1) >= 1.0
    && forall k :: 0 <= k < |existing| ==> Clear(p, existing[k])
  }

  predicate Clear(p: (real, real), o: Sprite)
  {
    Norm2(p.0 - o.x, p.1 - o.z) >= Sq(MinSpawnDist)
  }

  /** The fallback spot: on a circle of radius `1 + 0.3 n`, at the fraction
      `n / max(1, images)` of a turn, for the `n`-th sprite. */
  function FallbackAngle(n: nat, imageCount: nat): real
  {
    (n as real / (if imageCount < 1 then 1 else imageCount) as real) * Pi * 2.0
  }

  function FallbackRadius(n: nat): (r: real)
    ensures r >= 1.0 && Sq(r) >= 1.0
  {
    1.0 + n as real * 0.3
  }

  /** The retry loop: up to 50 candidates, each rejected when too close to
      the origin or to an existing sprite; the first accepted one is used,
      otherwise the fallback spot on the circle. */
  method SpawnPoint(existing: seq<Sprite>, imageCount: nat, draws: seq<(real, real)>, m: MathLib)
    returns (x: real, z: real, valid: bool, attempts: nat)
    requires |draws| >= MaxAttempts
    requires MathLaws(m)
    ensures attempts <= MaxAttempts
    ensures forall k :: 0 <= k < attempts - 1 ==> !Acceptable(Candidate(draws[k]), existing)
    ensures valid ==> 1 <= attempts && (x, z) == Candidate(draws[attempts - 1])
    ensures valid ==> Acceptable((x, z), existing)
    ensures !valid ==> attempts == MaxAttempts && !Acceptable(Candidate(draws[MaxAttempts - 1]), existing)
    ensures !valid ==> Norm2(x, z) == Sq(FallbackRadius(|existing|))
  {
    x, z, valid, attempts := 0.0, 0.0, false, 0;
    while !valid && attempts < MaxAttempts
      invariant attempts <= MaxAttempts
      invariant forall k :: 0 <= k < attempts - 1 ==> !Acceptable(Candidate(draws[k]), existing)
      invariant attempts >= 1 ==> (x, z) == Candidate(draws[attempts - 1])
      invariant valid <==> attempts >= 1 && Acceptable((x, z), existing)
      decreases MaxAttempts - attempts, if valid then 0 else 1
    {
      var p := Candidate(draws[attempts]);
      x, z := p.0, p.1;
      if Norm2(x, z) < 1.0 {
        attempts := attempts + 1;
        continue;
      }
      valid := true;
      var j := 0;
      while j < |existing|
        invariant 0 <= j <= |existing|
        invariant valid <==> forall k :: 0 <= k < j ==> Clear(p, existing[k])
        decreases |existing| - j, if valid then 1 else 0
      {
        var o := existing[j];
        if Norm2(x - o.x, z - o.z) < Sq(MinSpawnDist) {
          valid := false;
          j := j + 1;
          break;
        }
        j := j + 1;
      }
      attempts := attempts + 1;
    }
    if !valid {
      var n := |existing|;
      var angle := FallbackAngle(n, imageCount);
      var radius := FallbackRadius(n);
      x, z := m.cos(angle) * radius, m.sin(angle) * radius;
      Norm2Scale(m.cos(angle), m.sin(angle), radius);
    }
  }

  /** The record `loadCharacters` pushes for an image of aspect ratio
      `aspect` at spawn point (x, z). */
  function NewSprite(x: real, z: real, aspect: real, d: InitDraws): (s: Sprite)
    ensures s.x == x && s.z == z && s.y == s.baseHeight
  {
    var height := SpriteHeight;
    var width := height * aspect;
    var baseHeight := GroundY + height * 0.5;
    Sprite(x, baseHeight, z, 0.0,
           (d.vx * 2.0 - 1.0) * 1.5, (d.vz * 2.0 - 1.0) * 1.5,
           1.0 + d.target * 2.0, 1.0 + d.cooldown * 3.0, 1.0 + d.burst * 3.0,
           d.wander * Pi * 2.0, baseHeight,
           (if width > height then width else height) * 0.4, height,
           0.4 + d.face * 0.8, d.faceChoice < 0.4)
  }

  const GroundY: real := -1.5
  const SpriteHeight: real := 24.0 * 0.8

  datatype InitDraws = InitDraws(vx: real, vz: real, target: real, cooldown: real, burst: real,
                                 wander: real, face: real, faceChoice: real)

  predicate InitDrawsValid(d: InitDraws)
  {
    && Unit(d.vx) && Unit(d.vz) && Unit(d.target) && Unit(d.cooldown) && Unit(d.burst)
    && Unit(d.wander) && Unit(d.face) && Unit(d.faceChoice)
  }

  /** A new sprite stands on the ground at half its 19.2 height, with its
      spin cooldown in [1, 4), its radius 0.4 of its larger side, and speed at
      most 1.5 along each axis. */
  lemma NewSpriteShape(x: real, z: real, aspect: real, d: InitDraws)
    requires InitDrawsValid(d)
    ensures var s := NewSprite(x, z, aspect, d);
            && s.x == x && s.z == z && s.y == s.baseHeight == 8.1
            && 1.0 <= s.spinCooldown < 4.0 && 1.0 <= s.targetTimer < 3.0
            && 1.0 <= s.randomMoveTimer < 4.0 && 0.4 <= s.faceTimer < 1.2
            && -1.5 <= s.vx < 1.5 && -1.5 <= s.vz < 1.5
            && s.radius >= SpriteHeight * 0.4 && s.radius > 0.0
  {
  }

  // ---------------------------------------------------------------------------
  // The pairwise resolve pass

  const MinBearing: real := 0.5

  /** The distance push between `a` and `b`: along their offset, half the
      overlap with `6 (ra + rb)`, when they are closer than that but not on
      top of each other. */
  function DistancePush(a: Sprite, b: Sprite, m: MathLib): (p: (real, real))
    requires MathLaws(m)
    ensures p.0 * (a.z - b.z) == p.1 * (a.x - b.x)
    ensures a.radius + b.radius >= 0.0 ==> p.0 * (a.x - b.x) + p.1 * (a.z - b.z) >= 0.0
    ensures p != (0.0, 0.0) ==>
              0.000001 < Norm2(a.x - b.x, a.z - b.z) < Sq((a.radius + b.radius) * 6.0)
  {
    var dx, dz := a.x - b.x, a.z - b.z;
    var desired := (a.radius + b.radius) * 6.0;
    var distSq := Norm2(dx, dz);
    if distSq > 0.000001 && distSq < Sq(desired) then
      var dist := m.sqrt(distSq);
      SqNonZero(dist);
      var k := ((desired - dist) / dist) * 0.5;
      PushAlong(dx, dz, dist, desired);
      (dx * k, dz * k)
    else (0.0, 0.0)
  }

  /** The bearing push: when `a` and `b` are within 0.5 rad of each other as
      seen from the player, move them apart along the tangent at `a`. */
  function BearingPush(a: Sprite, b: Sprite, px: real, pz: real, m: MathLib): (p: (real, real))
    ensures p.0 * (px - a.x) + p.1 * (pz - a.z) == 0.0
    ensures p != (0.0, 0.0) ==>
              Norm2(px - a.x, pz - a.z) > 0.000001 && Norm2(px - b.x, pz - b.z) > 0.000001
  {
    var ax, az := px - a.x, pz - a.z;
    var bx, bz := px - b.x, pz - b.z;
    if Norm2(ax, az) > 0.000001 && Norm2(bx, bz) > 0.000001 then
      var dAng := Wrap(m, m.atan2(ax, az) - m.atan2(bx, bz));
      var mag := if dAng >= 0.0 then dAng else -dAng;
      if mag < MinBearing then
        var (tx, tz) := Normalize(m, -az, ax);
        var sign := if dAng >= 0.0 then 1.0 else -1.0;
        var k := sign * (MinBearing - mag) * 1.2;
        TangentOrthogonal(m, ax, az, k);
        (tx * k, tz * k)
      else (0.0, 0.0)
    else (0.0, 0.0)
  }

  /** The distance push scales the offset by a factor that is non-negative
      when the desired gap is. */
  lemma PushAlong(dx: real, dz: real, dist: real, desired: real)
    requires dist > 0.0 && Sq(dist) < Sq(desired)
    ensures var k := ((desired - dist) / dist) * 0.5;
            && (dx * k) * dz == (dz * k) * dx
            && (desired >= 0.0 ==> (dx * k) * dx + (dz * k) * dz >= 0.0)
  {
    var k := ((desired - dist) / dist) * 0.5;
    if desired >= 0.0 {
      if desired <= dist {
        SqMonotone(desired, dist);
      }
      assert k >= 0.0;
      assert (dx * k) * dx + (dz * k) * dz == k * Norm2(dx, dz);
    }
  }

  /** The tangent `(-az, ax)`, normalized and scaled, is orthogonal to `(ax, az)`. */
  lemma TangentOrthogonal(m: MathLib, ax: real, az: real, k: real)
    ensures var t := Normalize(m, -az, ax);
            (t.0 * k) * ax + (t.1 * k) * az == 0.0
  {
    var l := m.sqrt(Norm2(-az, ax));
    if l != 0.0 {
      assert (-az / l) * ax + (ax / l) * az == 0.0 by {
        assert (-az / l) * ax == -(az * ax) / l;
        assert (ax / l) * az == (ax * az) / l;
      }
      var t := Normalize(m, -az, ax);
      assert (t.0 * k) * ax + (t.1 * k) * az == k * ((-az / l) * ax + (ax / l) * az);
    }
  }

  function Shift(s: Sprite, ux: real, uz: real): Sprite
  {
    s.(x := s.x + ux, z := s.z + uz)
  }

  /** Only the ground position differs. */
  predicate SamePose(s: Sprite, t: Sprite)
  {
    t == s.(x := t.x, z := t.z)
  }

  /** One `(i, j)` step of the pass: the distance push, then the bearing push
      computed from the pushed positions, each added to sprite `i` and
      subtracted from sprite `j`. */
  function PairStep(s: seq<Sprite>, i: int, j: int, px: real, pz: real, m: MathLib): (r: seq<Sprite>)
    requires 0 <= i < j < |s| && MathLaws(m)
    ensures |r| == |s|
    ensures forall k :: 0 <= k < |s| && k != i && k != j ==> r[k] == s[k]
    ensures SamePose(s[i], r[i]) && SamePose(s[j], r[j])
    ensures r[i].x - s[i].x == s[j].x - r[j].x && r[i].z - s[i].z == s[j].z - r[j].z
  {
    var (ux, uz) := DistancePush(s[i], s[j], m);
    var a, b := Shift(s[i], ux, uz), Shift(s[j], -ux, -uz);
    var (lx, lz) := BearingPush(a, b, px, pz, m);
    s[i := Shift(a, lx, lz)][j := Shift(b, -lx, -lz)]
  }

  /** Pairs `(i, j), (i, j + 1), ..., (i, n - 1)` in order. */
  function ResolveRow(s: seq<Sprite>, i: int, j: int, px: real, pz: real, m: MathLib): (r: seq<Sprite>)
    requires 0 <= i < j <= |s| && MathLaws(m)
    ensures |r| == |s|
    decreases |s| - j
  {
    if j == |s| then s else ResolveRow(PairStep(s, i, j, px, pz, m), i, j + 1, px, pz, m)
  }

  /** Rows `i, i + 1, ..., n - 1`: the whole pass is `ResolveFrom(s, 0, ...)`. */
  function ResolveFrom(s: seq<Sprite>, i: int, px: real, pz: real, m: MathLib): (r: seq<Sprite>)
    requires 0 <= i <= |s| && MathLaws(m)
    ensures |r| == |s|
    decreases |s| - i
  {
    if i + 1 >= |s| then s else ResolveFrom(ResolveRow(s, i, i + 1, px, pz, m), i + 1, px, pz, m)
  }

  /** One step of a row: the pair `(i, j)`, then the rest of the row. */
  lemma RowStep(s: seq<Sprite>, i: int, j: int, px: real, pz: real, m: MathLib)
    requires 0 <= i < j < |s| && MathLaws(m)
    ensures ResolveRow(s, i, j, px, pz, m) == ResolveRow(PairStep(s, i, j, px, pz, m), i, j + 1, px, pz, m)
  {
  }

  /** One row of the pass, then the rows after it (nothing is left for the
      last sprite). */
  lemma FromStep(s: seq<Sprite>, i: int, px: real, pz: real, m: MathLib)
    requires 0 <= i < |s| && MathLaws(m)
    ensures ResolveFrom(s, i, px, pz, m) == ResolveFrom(ResolveRow(s, i, i + 1, px, pz, m), i + 1, px, pz, m)
  {
  }

  function SumX(s: seq<Sprite>): real
  {
    if s == [] then 0.0 else SumX(s[..|s| - 1]) + s[|s| - 1].x
  }

  function SumZ(s: seq<Sprite>): real
  {
    if s == [] then 0.0 else SumZ(s[..|s| - 1]) + s[|s| - 1].z
  }

  /** Replacing one record changes the sums by that record's change. */
  lemma {:induction false} SumUpdate(s: seq<Sprite>, k: int, v: Sprite)
    requires 0 <= k < |s|
    ensures SumX(s[k := v]) == SumX(s) - s[k].x + v.x
    ensures SumZ(s[k := v]) == SumZ(s) - s[k].z + v.z
    decreases |s|
  {
    var n := |s| - 1;
    var t := s[k := v];
    assert t[..n] == if k == n then s[..n] else s[..n][k := v];
    if k < n {
      SumUpdate(s[..n], k, v);
    }
  }

  /** Every step pushes equal and opposite amounts: the sums of the x and z
      coordinates do not change, nor does anything but the positions. */
  lemma PairStepConserves(s: seq<Sprite>, i: int, j: int, px: real, pz: real, m: MathLib)
    requires 0 <= i < j < |s| && MathLaws(m)
    ensures var r := PairStep(s, i, j, px, pz, m);
            SumX(r) == SumX(s) && SumZ(r) == SumZ(s) && SameShape(s, r)
  {
    TwoUpdates(s, PairStep(s, i, j, px, pz, m), i, j);
  }

  /** Changing only records `i` and `j` changes the sums by their changes. */
  lemma TwoUpdates(s: seq<Sprite>, r: seq<Sprite>, i: int, j: int)
    requires 0 <= i < j < |s| == |r|
    requires forall k :: 0 <= k < |s| && k != i && k != j ==> r[k] == s[k]
    ensures SumX(r) == SumX(s) - s[i].x + r[i].x - s[j].x + r[j].x
    ensures SumZ(r) == SumZ(s) - s[i].z + r[i].z - s[j].z + r[j].z
  {
    var mid := s[i := r[i]];
    SumUpdate(s, i, r[i]);
    SumUpdate(mid, j, r[j]);
    assert mid[j := r[j]] == r;
  }

  /** Same records except for their ground positions. */
  predicate SameShape(s: seq<Sprite>, t: seq<Sprite>)
  {
    |s| == |t| && forall k :: 0 <= k < |s| ==> SamePose(s[k], t[k])
  }

  lemma {:induction false} ResolveRowConserves(s: seq<Sprite>, i: int, j: int, px: real, pz: real, m: MathLib)
    requires 0 <= i < j <= |s| && MathLaws(m)
    ensures var r := ResolveRow(s, i, j, px, pz, m);
            SumX(r) == SumX(s) && SumZ(r) == SumZ(s) && SameShape(s, r)
    decreases |s| - j
  {
    if j < |s| {
      var t := PairStep(s, i, j, px, pz, m);
      assert ResolveRow(s, i, j, px, pz, m) == ResolveRow(t, i, j + 1, px, pz, m);
      PairStepConserves(s, i, j, px, pz, m);
      ResolveRowConserves(t, i, j + 1, px, pz, m);
      SameShapeTrans(s, t, ResolveRow(t, i, j + 1, px, pz, m));
    }
  }

  lemma SameShapeTrans(a: seq<Sprite>, b: seq<Sprite>, c: seq<Sprite>)
    requires SameShape(a, b) && SameShape(b, c)
    ensures SameShape(a, c)
  {
  }

  /** The resolve pass preserves the sums of all sprites' x and z
      coordinates and changes nothing but positions. */
  lemma {:induction false} ResolveConserves(s: seq<Sprite>, i: int, px: real, pz: real, m: MathLib)
    requires 0 <= i <= |s| && MathLaws(m)
    ensures var r := ResolveFrom(s, i, px, pz, m);
            SumX(r) == SumX(s) && SumZ(r) == SumZ(s) && SameShape(s, r)
    decreases |s| - i
  {
    if i + 1 < |s| {
      var t := ResolveRow(s, i, i + 1, px, pz, m);
      ResolveRowConserves(s, i, i + 1, px, pz, m);
      ResolveConserves(t, i + 1, px, pz, m);
      SameShapeTrans(s, t, ResolveFrom(t, i + 1, px, pz, m));
    }
  }
}
