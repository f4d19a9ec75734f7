/** The scene state of app.module.js that the sprite logic mutates: the
    `sprites` array of records and the `crazyMode` flag, with the operations
    that rewrite them in place: `toggleCrazyMode`, the character push in
    `loadCharacters`, and the per-frame sprite work in `animate`. */
module SceneModel {
  import opened Sprites

  /** Enabling crazy mode: the sprite is forced into a spin. */
  function ForceSpin(s: Sprite): (t: Sprite)
    ensures t.spinCooldown == -1.0 && OnlyCooldown(s, t)
  {
    s.(spinCooldown := -1.0)
  }

  /** Disabling crazy mode: a spinning sprite (negative cooldown) gets a fresh
      cooldown `1 + 3 r`; any other sprite is left alone. */
  function ReleaseSpin(s: Sprite, r: real): (t: Sprite)
    ensures OnlyCooldown(s, t)
    ensures s.spinCooldown >= 0.0 ==> t == s
    ensures s.spinCooldown < 0.0 && Unit(r) ==> 1.0 <= t.spinCooldown < 4.0
  {
    if s.spinCooldown < 0.0 then s.(spinCooldown := 1.0 + r * 3.0) else s
  }

  function ForceAll(s: seq<Sprite>): (r: seq<Sprite>)
    ensures |r| == |s|
  {
    seq(|s|, k requires 0 <= k < |s| => ForceSpin(s[k]))
  }

  function ReleaseAll(s: seq<Sprite>, draws: seq<real>): (r: seq<Sprite>)
    requires |draws| == |s|
    ensures |r| == |s|
  {
    seq(|s|, k requires 0 <= k < |s| => ReleaseSpin(s[k], draws[k]))
  }

  /** Only the spin cooldown may differ. */
  predicate OnlyCooldown(s: Sprite, t: Sprite)
  {
    t == s.(spinCooldown := t.spinCooldown)
  }

  /** Enabling sets every cooldown to exactly -1 and touches nothing else. */
  lemma ForceAllSpec(s: seq<Sprite>)
    ensures forall k :: 0 <= k < |s| ==>
              ForceAll(s)[k].spinCooldown == -1.0 && OnlyCooldown(s[k], ForceAll(s)[k])
  {
  }

  /** Disabling changes only sprites with a negative cooldown, each to a value
      in [1, 4), and nothing but the cooldown. */
  lemma ReleaseAllSpec(s: seq<Sprite>, draws: seq<real>)
    requires |draws| == |s| && forall k :: 0 <= k < |draws| ==> Unit(draws[k])
    ensures forall k :: 0 <= k < |s| ==>
              && OnlyCooldown(s[k], ReleaseAll(s, draws)[k])
              && (s[k].spinCooldown < 0.0 ==> 1.0 <= ReleaseAll(s, draws)[k].spinCooldown < 4.0)
              && (s[k].spinCooldown >= 0.0 ==> ReleaseAll(s, draws)[k] == s[k])
  {
  }

  /** Enabling and then disabling leaves every sprite with a cooldown in
      [1, 4) and otherwise as it was. */
  lemma EnableThenDisable(s: seq<Sprite>, draws: seq<real>)
    requires |draws| == |s| && forall k :: 0 <= k < |draws| ==> Unit(draws[k])
    ensures var r := ReleaseAll(ForceAll(s), draws);
            forall k :: 0 <= k < |s| ==> 1.0 <= r[k].spinCooldown < 4.0 && OnlyCooldown(s[k], r[k])
  {
    ForceAllSpec(s);
    ReleaseAllSpec(ForceAll(s), draws);
    var f := ForceAll(s);
    var r := ReleaseAll(f, draws);
    forall k | 0 <= k < |s| ensures 1.0 <= r[k].spinCooldown < 4.0 && OnlyCooldown(s[k], r[k]) {
      assert f[k].spinCooldown < 0.0;
    }
  }

  class Scene {
    var sprites: seq<Sprite>
    var crazyMode: bool

    /** Every sprite sits at its base height. */
    ghost predicate Grounded()
      reads this
    {
      forall k :: 0 <= k < |sprites| ==> sprites[k].y == sprites[k].baseHeight
    }

    constructor ()
      ensures sprites == [] && !crazyMode && Grounded()
    {
      sprites := [];
      crazyMode := false;
    }

    /** `toggleCrazyMode`: flip the flag, then force every sprite to spin
        (enable) or release the spinning ones with fresh cooldowns (disable);
        `draws[k]` is the draw for sprite `k`. */
    method ToggleCrazyMode(draws: seq<real>)
      requires |draws| == |sprites|
      modifies this
      ensures crazyMode == !old(crazyMode)
      ensures crazyMode ==> sprites == ForceAll(old(sprites))
      ensures !crazyMode ==> sprites == ReleaseAll(old(sprites), draws)
      ensures old(Grounded()) ==> Grounded()
    {
      crazyMode := !crazyMode;
      ghost var before := sprites;
      if crazyMode {
        for k := 0 to |sprites|
          invariant crazyMode && |sprites| == |before|
          invariant forall i :: 0 <= i < k ==> sprites[i] == ForceSpin(before[i])
          invariant forall i :: k <= i < |sprites| ==> sprites[i] == before[i]
        {
          sprites := sprites[k := sprites[k].(spinCooldown := -1.0)];
        }
      } else {
        for k := 0 to |sprites|
          invariant !crazyMode && |sprites| == |before|
          invariant forall i :: 0 <= i < k ==> sprites[i] == ReleaseSpin(before[i], draws[i])
          invariant forall i :: k <= i < |sprites| ==> sprites[i] == before[i]
        {
          if sprites[k].spinCooldown < 0.0 {
            sprites := sprites[k := sprites[k].(spinCooldown := 1.0 + draws[k] * 3.0)];
          }
        }
      }
    }

    /** The texture-load callback of `loadCharacters`: place the new sprite
        (see `SpawnPoint`) and push its record. */
    method LoadCharacter(imageCount: nat, aspect: real, spawnDraws: seq<(real, real)>,
                         init: InitDraws, m: MathLib)
      returns (valid: bool, attempts: nat)
      requires |spawnDraws| >= MaxAttempts && MathLaws(m)
      modifies this
      ensures crazyMode == old(crazyMode)
      ensures attempts <= MaxAttempts
      ensures forall k :: 0 <= k < attempts - 1 ==> !Acceptable(Candidate(spawnDraws[k]), old(sprites))
      ensures |sprites| == |old(sprites)| + 1 && sprites[..|old(sprites)|] == old(sprites)
      ensures var n := sprites[|old(sprites)|];
              && n == NewSprite(n.x, n.z, aspect, init)
              && (valid ==> 1 <= attempts && (n.x, n.z) == Candidate(spawnDraws[attempts - 1]))
              && (valid ==> Acceptable((n.x, n.z), old(sprites)))
              && (!valid ==> attempts == MaxAttempts)
              && (!valid ==> Norm2(n.x, n.z) == Sq(FallbackRadius(|old(sprites)|)))
      ensures old(Grounded()) ==> Grounded()
    {
      var x, z;
      x, z, valid, attempts := SpawnPoint(sprites, imageCount, spawnDraws, m);
      sprites := sprites + [NewSprite(x, z, aspect, init)];
    }

    /** The hard resolve pass: every pair `i < j` in order, each step pushing
        the two sprites apart by equal and opposite amounts. */
    method ResolvePass(px: real, pz: real, m: MathLib)
      requires MathLaws(m)
      modifies this
      ensures sprites == ResolveFrom(old(sprites), 0, px, pz, m)
      ensures crazyMode == old(crazyMode)
    {
      ghost var target := ResolveFrom(sprites, 0, px, pz, m);
      var n := |sprites|;
      for i := 0 to n
        invariant |sprites| == n && crazyMode == old(crazyMode)
        invariant ResolveFrom(sprites, i, px, pz, m) == target
      {
        FromStep(sprites, i, px, pz, m);
        for j := i + 1 to n
          invariant |sprites| == n && crazyMode == old(crazyMode)
          invariant ResolveFrom(ResolveRow(sprites, i, j, px, pz, m), i + 1, px, pz, m) == target
        {
          RowStep(sprites, i, j, px, pz, m);
          sprites := PairStep(sprites, i, j, px, pz, m);
        }
      }
    }

    /** The sprite part of one `animate` frame: update every sprite in order
        (`steer[k]` is sprite `k`'s steering sum, `draws[k]` its random draws),
        then run the resolve pass. `updated` is the state between the two. */
    method Animate(elapsedMs: real, now: real, px: real, pz: real,
                   steer: seq<(real, real)>, draws: seq<Draws>, m: MathLib)
      returns (dt: real, ghost updated: seq<Sprite>)
      requires elapsedMs >= 0.0 && MathLaws(m)
      requires |steer| == |sprites| && |draws| == |sprites|
      requires forall k :: 0 <= k < |draws| ==> DrawsValid(draws[k])
      modifies this
      ensures dt == FrameDt(elapsedMs) && 0.0 <= dt <= MaxDt
      ensures crazyMode == old(crazyMode)
      ensures |updated| == |old(sprites)|
      ensures forall k :: 0 <= k < |updated| ==> FrameRules(old(sprites)[k], updated[k], dt, crazyMode)
      ensures sprites == ResolveFrom(updated, 0, px, pz, m)
      ensures SumX(sprites) == SumX(updated) && SumZ(sprites) == SumZ(updated)
      ensures SameShape(updated, sprites)
      ensures Grounded()
    {
      dt := FrameDt(elapsedMs);
      ghost var before := sprites;
      for idx := 0 to |sprites|
        invariant |sprites| == |before| && crazyMode == old(crazyMode)
        invariant forall k :: 0 <= k < idx ==> FrameRules(before[k], sprites[k], dt, crazyMode)
        invariant forall k :: idx <= k < |sprites| ==> sprites[k] == before[k]
      {
        var t := UpdateSprite(sprites[idx], idx, dt, crazyMode, now, px, pz, steer[idx].0, steer[idx].1, draws[idx], m);
        sprites := sprites[idx := t];
      }
      updated := sprites;
      ResolvePass(px, pz, m);
      ResolveConserves(updated, 0, px, pz, m);
      assert forall k :: 0 <= k < |updated| ==> updated[k].y == updated[k].baseHeight;
    }
  }
}
