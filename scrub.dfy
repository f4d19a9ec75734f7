/** Model of `safeStringify` and its inner `scrub` (server.js, inside `broadcastLog`).

    A JavaScript object graph is a heap: a map from object identities to nodes
    (arrays, plain objects with their own keys in `Object.keys` order, and
    functions). Because nodes refer to each other by identity, the heap can hold
    cycles and shared references. `scrub` threads a set of visited identities
    (the `WeakSet` called `seen`) through its recursion; the set is never
    cleared and survives an exception, so it is threaded through every result. */
module LogScrub {

  type Id = nat

  /** A JavaScript value as `scrub` inspects it. */
  datatype Value =
    | Null
    | Undefined
    | Bool(b: bool)
    | Num(n: real)
    | Str(s: string)
    | Other(shown: string)  // a bigint or a symbol; `shown` is what `String(v)` gives
    | Ref(id: Id)           // an object: array, plain object or function

  /** Reading one element or own property: the value read, or the message
      (`e && e.message`) of the exception its getter throws. */
  datatype Slot = Holds(v: Value) | Throws(message: string)

  datatype Prop = Prop(key: string, slot: Slot)

  datatype Node =
    | ArrayNode(items: seq<Slot>)
    | ObjectNode(props: seq<Prop>)  // own enumerable keys, in `Object.keys` order
    | FunctionNode(name: string)    // `name` is "" for an anonymous function

  type Heap = map<Id, Node>

  /** The JSON-safe tree that `scrub` builds and `JSON.stringify` prints. */
  datatype Json =
    | JNull
    | JBool(b: bool)
    | JNum(n: real)
    | JStr(s: string)
    | JArr(items: seq<Json>)
    | JObj(fields: seq<Field>)

  datatype Field = Field(key: string, value: Json)

  /** A computation that returns a value or throws. */
  datatype Outcome<T> = Done(value: T) | Thrown(message: string)

  const CircularText := "[Circular]"
  const ArrayCutText := "[Array]"
  const ObjectCutText := "[Object]"

  /** The key that a plain-object assignment `out[key] = ...` never creates as an
      own property: it invokes the inherited prototype setter instead. */
  const ProtoKey := "__proto__"

  /** The depth `broadcastLog` passes to `safeStringify`. */
  const LogDepth := 3

  function FunctionText(name: string): string
  {
    "[Function: " + (if name == "" then "anonymous" else name) + "]"
  }

  function UnserializableText(message: string): string
  {
    "[Unserializable: " + message + "]"
  }

  // ---------------------------------------------------------------------------
  // Well-formed heaps: every reference resolves (JavaScript has no dangling ones)

  predicate ValueIn(h: Heap, v: Value)
  {
    v.Ref? ==> v.id in h
  }

  predicate SlotIn(h: Heap, s: Slot)
  {
    s.Holds? ==> ValueIn(h, s.v)
  }

  predicate NodeIn(h: Heap, n: Node)
  {
    match n
    case ArrayNode(items) => forall k :: 0 <= k < |items| ==> SlotIn(h, items[k])
    case ObjectNode(props) => forall k :: 0 <= k < |props| ==> SlotIn(h, props[k].slot)
    case FunctionNode(_) => true
  }

  predicate Closed(h: Heap)
  {
    forall id :: id in h ==> NodeIn(h, h[id])
  }

  // ---------------------------------------------------------------------------
  // Measures of the output tree

  /** Nesting depth of arrays and objects. */
  function Height(j: Json): nat
  {
    match j
    case JArr(items) => 1 + MaxHeight(items)
    case JObj(fields) => 1 + MaxFieldHeight(fields)
    case _ => 0
  }

  function MaxHeight(js: seq<Json>): nat
  {
    if js == [] then 0
    else
      var a, b := Height(js[0]), MaxHeight(js[1..]);
      if a < b then b else a
  }

  function MaxFieldHeight(fs: seq<Field>): nat
  {
    if fs == [] then 0
    else
      var a, b := Height(fs[0].value), MaxFieldHeight(fs[1..]);
      if a < b then b else a
  }

  /** Number of arrays and objects in the tree (each one an expanded input object). */
  function Containers(j: Json): nat
  {
    match j
    case JArr(items) => 1 + SumContainers(items)
    case JObj(fields) => 1 + SumFieldContainers(fields)
    case _ => 0
  }

  function SumContainers(js: seq<Json>): nat
  {
    if js == [] then 0 else Containers(js[0]) + SumContainers(js[1..])
  }

  function SumFieldContainers(fs: seq<Field>): nat
  {
    if fs == [] then 0 else Containers(fs[0].value) + SumFieldContainers(fs[1..])
  }

  function FieldKeys(fs: seq<Field>): seq<string>
  {
    if fs == [] then [] else [fs[0].key] + FieldKeys(fs[1..])
  }

  /** The keys that survive assignment into a fresh plain object, in order. */
  function KeptKeys(props: seq<Prop>): seq<string>
  {
    if props == [] then []
    else (if props[0].key == ProtoKey then [] else [props[0].key]) + KeptKeys(props[1..])
  }

  function Budget(d: int): nat
  {
    if d < 0 then 0 else d
  }

  // ---------------------------------------------------------------------------
  // scrub

  /** `scrub(v, d)` with the visited set `seen`; returns the outcome and the
      visited set afterwards. Terminates because it recurses only below an
      object with `d > 0`, always at `d - 1`. */
  function Scrub(h: Heap, v: Value, d: int, seen: set<Id>): (r: (Outcome<Json>, set<Id>))
    requires Closed(h) && ValueIn(h, v)
    ensures seen <= r.1 <= seen + h.Keys
    ensures r.0.Done? ==> Height(r.0.value) <= Budget(d)
    decreases d, 1, 0
  {
    match v
    case Null => (Done(JNull), seen)
    case Num(n) => (Done(JNum(n)), seen)
    case Bool(b) => (Done(JBool(b)), seen)
    case Str(s) => (Done(JStr(s)), seen)
    case Undefined => (Done(JStr("undefined")), seen)
    case Other(shown) => (Done(JStr(shown)), seen)
    case Ref(id) =>
      match h[id]
      case FunctionNode(name) => (Done(JStr(FunctionText(name))), seen)
      case ArrayNode(items) =>
        if id in seen then (Done(JStr(CircularText)), seen)
        else if d <= 0 then (Done(JStr(ArrayCutText)), seen)
        else
          var (o, after) := ScrubItems(h, items, d, seen + {id});
          (match o
           case Done(js) => (Done(JArr(js)), after)
           case Thrown(m) => (Thrown(m), after))
      case ObjectNode(props) =>
        if id in seen then (Done(JStr(CircularText)), seen)
        else if d <= 0 then (Done(JStr(ObjectCutText)), seen)
        else
          var (fs, after) := ScrubProps(h, props, d, seen + {id});
          (Done(JObj(fs)), after)
  }

  /** `v.map(item => scrub(item, d - 1))` for an array expanded at depth `d`:
      elements are read and scrubbed in order, and the first read that throws
      aborts the whole map. */
  function ScrubItems(h: Heap, items: seq<Slot>, d: int, seen: set<Id>): (r: (Outcome<seq<Json>>, set<Id>))
    requires Closed(h) && d > 0
    requires forall k :: 0 <= k < |items| ==> SlotIn(h, items[k])
    ensures seen <= r.1 <= seen + h.Keys
    ensures r.0.Done? ==> |r.0.value| == |items|
    ensures r.0.Done? ==> MaxHeight(r.0.value) < d
    decreases d, 0, |items|
  {
    if items == [] then (Done([]), seen)
    else
      assert SlotIn(h, items[0]);
      match items[0]
      case Throws(m) => (Thrown(m), seen)
      case Holds(v) =>
        var (o, mid) := Scrub(h, v, d - 1, seen);
        match o
        case Thrown(m) => (Thrown(m), mid)
        case Done(j) =>
          var (rest, after) := ScrubItems(h, items[1..], d, mid);
          (match rest
           case Thrown(m) => (Thrown(m), after)
           case Done(js) => (Done([j] + js), after))
  }

  /** One iteration's `try { out[key] = scrub(v[key], d - 1) } catch (e) { ... }`:
      the value stored for the key, and the visited set afterwards. */
  function ScrubPropValue(h: Heap, slot: Slot, d: int, seen: set<Id>): (r: (Json, set<Id>))
    requires Closed(h) && d > 0 && SlotIn(h, slot)
    ensures seen <= r.1 <= seen + h.Keys
    ensures Height(r.0) < d
    decreases d, 0, 0
  {
    match slot
    case Throws(m) => (JStr(UnserializableText(m)), seen)
    case Holds(v) =>
      var sr := Scrub(h, v, d - 1, seen);
      (if sr.0.Done? then sr.0.value else JStr(UnserializableText(sr.0.message)), sr.1)
  }

  /** The `for (const key of Object.keys(v))` loop for an object expanded at
      depth `d`: each key's read and scrub has its own try/catch, so the loop
      never throws. */
  function ScrubProps(h: Heap, props: seq<Prop>, d: int, seen: set<Id>): (r: (seq<Field>, set<Id>))
    requires Closed(h) && d > 0
    requires forall k :: 0 <= k < |props| ==> SlotIn(h, props[k].slot)
    ensures seen <= r.1 <= seen + h.Keys
    ensures FieldKeys(r.0) == KeptKeys(props)
    ensures MaxFieldHeight(r.0) < d
    decreases d, 0, |props|
  {
    if props == [] then ([], seen)
    else
      assert SlotIn(h, props[0].slot);
      var (value, mid) := ScrubPropValue(h, props[0].slot, d, seen);
      var (rest, after) := ScrubProps(h, props[1..], d, mid);
      if props[0].key == ProtoKey then (rest, after)
      else ([Field(props[0].key, value)] + rest, after)
  }

  /** `safeStringify(value, 3)` before the final `JSON.stringify`: a fresh,
      empty visited set for every call. */
  function SafeScrub(h: Heap, v: Value): (o: Outcome<Json>)
    requires Closed(h) && ValueIn(h, v)
    ensures o.Done? ==> Height(o.value) <= LogDepth
  {
    Scrub(h, v, LogDepth, {}).0
  }

  // ---------------------------------------------------------------------------
  // Properties

  /** null, numbers, booleans and strings come back unchanged; the visited set
      is untouched. */
  lemma PrimitivesPassThrough(h: Heap, v: Value, d: int, seen: set<Id>)
    requires Closed(h)
    requires v.Null? || v.Num? || v.Bool? || v.Str?
    ensures Scrub(h, v, d, seen).1 == seen
    ensures Scrub(h, v, d, seen).0 == Done(
              match v
              case Null => JNull
              case Num(n) => JNum(n)
              case Bool(b) => JBool(b)
              case Str(s) => JStr(s))
  {
  }

  /** A function becomes `[Function: <name>]`, or `[Function: anonymous]`
      without a name, whether or not it was seen and at any depth; any other
      non-object becomes `String(v)`. */
  lemma NonObjectsBecomeText(h: Heap, v: Value, d: int, seen: set<Id>)
    requires Closed(h) && ValueIn(h, v)
    requires v.Undefined? || v.Other? || (v.Ref? && h[v.id].FunctionNode?)
    ensures Scrub(h, v, d, seen).1 == seen
    ensures v.Undefined? ==> Scrub(h, v, d, seen).0 == Done(JStr("undefined"))
    ensures v.Other? ==> Scrub(h, v, d, seen).0 == Done(JStr(v.shown))
    ensures v.Ref? ==> Scrub(h, v, d, seen).0 == Done(JStr(FunctionText(h[v.id].name)))
  {
  }

  /** An array or object already visited yields exactly `[Circular]`; one not
      yet visited at depth `d <= 0` is cut off by kind. Neither touches the
      visited set. */
  lemma VisitedOrTooDeep(h: Heap, v: Value, d: int, seen: set<Id>)
    requires Closed(h) && ValueIn(h, v)
    requires v.Ref? && !h[v.id].FunctionNode?
    requires v.id in seen || d <= 0
    ensures Scrub(h, v, d, seen).1 == seen
    ensures v.id in seen ==> Scrub(h, v, d, seen).0 == Done(JStr(CircularText))
    ensures v.id !in seen && h[v.id].ArrayNode? ==> Scrub(h, v, d, seen).0 == Done(JStr(ArrayCutText))
    ensures v.id !in seen && h[v.id].ObjectNode? ==> Scrub(h, v, d, seen).0 == Done(JStr(ObjectCutText))
  {
  }

  /** Expanding an object never throws (every key has its own try/catch); its
      output has exactly the input's own keys, in order, except `__proto__`. */
  lemma ObjectKeysKept(h: Heap, id: Id, d: int, seen: set<Id>)
    requires Closed(h) && id in h && h[id].ObjectNode?
    requires id !in seen && d > 0
    ensures Scrub(h, Ref(id), d, seen).0.Done?
    ensures Scrub(h, Ref(id), d, seen).0.value.JObj?
    ensures FieldKeys(Scrub(h, Ref(id), d, seen).0.value.fields) == KeptKeys(h[id].props)
    ensures id in Scrub(h, Ref(id), d, seen).1
  {
  }

  /** Every object's output is a finished tree: scrubbing an object reference
      at any depth never throws. */
  lemma ObjectNeverThrows(h: Heap, id: Id, d: int, seen: set<Id>)
    requires Closed(h) && id in h && h[id].ObjectNode?
    ensures Scrub(h, Ref(id), d, seen).0.Done?
  {
  }

  /** The visited set left by scrubbing the first `k` elements of an array. */
  function SeenBefore(h: Heap, items: seq<Slot>, d: int, seen: set<Id>, k: nat): set<Id>
    requires Closed(h) && d > 0 && k <= |items|
    requires forall i :: 0 <= i < |items| ==> SlotIn(h, items[i])
  {
    ScrubItems(h, items[..k], d, seen).1
  }

  /** An array is mapped element-wise: when the map finishes, the `k`-th output
      is the `k`-th element scrubbed at `d - 1` under the visited set the first
      `k` elements left, so length and order are preserved. */
  lemma {:induction false} ItemsElementwise(h: Heap, items: seq<Slot>, d: int, seen: set<Id>, k: nat)
    requires Closed(h) && d > 0 && k < |items|
    requires forall i :: 0 <= i < |items| ==> SlotIn(h, items[i])
    requires ScrubItems(h, items, d, seen).0.Done?
    ensures items[k].Holds?
    ensures ScrubItems(h, items[..k], d, seen).0.Done?
    ensures Scrub(h, items[k].v, d - 1, SeenBefore(h, items, d, seen, k)).0
            == Done(ScrubItems(h, items, d, seen).0.value[k])
    decreases k
  {
    ItemsFirst(h, items, d, seen);
    var mid := Scrub(h, items[0].v, d - 1, seen).1;
    if k == 0 {
      assert items[..0] == [];
    } else {
      ItemsElementwise(h, items[1..], d, mid, k - 1);
      var prefix := items[..k];
      assert prefix[0] == items[0];
      assert prefix[1..] == items[1..][..k - 1];
      ItemsCons(h, prefix, d, seen);
      assert items[1..][k - 1] == items[k];
    }
  }

  /** One step of the element-wise map, when the whole map finishes. */
  lemma ItemsFirst(h: Heap, items: seq<Slot>, d: int, seen: set<Id>)
    requires Closed(h) && d > 0 && |items| > 0
    requires forall i :: 0 <= i < |items| ==> SlotIn(h, items[i])
    requires ScrubItems(h, items, d, seen).0.Done?
    ensures items[0].Holds? && Scrub(h, items[0].v, d - 1, seen).0.Done?
    ensures ItemsStep(h, items, d, seen)
  {
    assert SlotIn(h, items[0]);
  }

  /** One step of the element-wise map, when the first element and the rest finish. */
  lemma ItemsCons(h: Heap, items: seq<Slot>, d: int, seen: set<Id>)
    requires Closed(h) && d > 0 && |items| > 0
    requires forall i :: 0 <= i < |items| ==> SlotIn(h, items[i])
    requires items[0].Holds? && SlotIn(h, items[0]) && Scrub(h, items[0].v, d - 1, seen).0.Done?
    requires ScrubItems(h, items[1..], d, Scrub(h, items[0].v, d - 1, seen).1).0.Done?
    ensures ItemsStep(h, items, d, seen)
  {
    assert SlotIn(h, items[0]);
  }

  ghost predicate ItemsStep(h: Heap, items: seq<Slot>, d: int, seen: set<Id>)
    requires Closed(h) && d > 0 && |items| > 0
    requires forall i :: 0 <= i < |items| ==> SlotIn(h, items[i])
    requires items[0].Holds?
  {
    assert SlotIn(h, items[0]);
    var (o, mid) := Scrub(h, items[0].v, d - 1, seen);
    var (rest, after) := ScrubItems(h, items[1..], d, mid);
    && o.Done? && rest.Done?
    && ScrubItems(h, items, d, seen) == (Done([o.value] + rest.value), after)
  }

  /** An array element whose read throws, after elements that all finished,
      makes the whole array throw that message: `map` has no try/catch. */
  lemma {:induction false} ArrayReadThrowPropagates(h: Heap, items: seq<Slot>, d: int, seen: set<Id>, k: nat)
    requires Closed(h) && d > 0 && k < |items|
    requires forall i :: 0 <= i < |items| ==> SlotIn(h, items[i])
    requires items[k].Throws?
    requires ScrubItems(h, items[..k], d, seen).0.Done?
    ensures ScrubItems(h, items, d, seen).0 == Thrown(items[k].message)
    decreases k
  {
    if k > 0 {
      assert items[..k][0] == items[0];
      assert items[..k][1..] == items[1..][..k - 1];
      var mid := Scrub(h, items[0].v, d - 1, seen).1;
      ArrayReadThrowPropagates(h, items[1..], d, mid, k - 1);
    }
  }

  /** A property whose read throws yields `[Unserializable: <message>]` for that
      key only: the output is exactly what it would be if the read had returned
      that string, so the other keys and the visited set are unaffected. */
  lemma {:induction false} ThrowingReadIsolated(h: Heap, props: seq<Prop>, d: int, seen: set<Id>, k: nat)
    requires Closed(h) && d > 0 && k < |props|
    requires forall i :: 0 <= i < |props| ==> SlotIn(h, props[i].slot)
    requires props[k].slot.Throws?
    ensures ScrubProps(h, props, d, seen)
         == ScrubProps(h, props[k := Prop(props[k].key, Holds(Str(UnserializableText(props[k].slot.message))))], d, seen)
    decreases k
  {
    var props' := props[k := Prop(props[k].key, Holds(Str(UnserializableText(props[k].slot.message))))];
    assert props'[0].key == props[0].key;
    if k > 0 {
      assert props'[0] == props[0];
      assert props'[1..] == props[1..][k - 1 := props'[k]];
      var mid := ScrubPropValue(h, props[0].slot, d, seen).1;
      ThrowingReadIsolated(h, props[1..], d, mid, k - 1);
    } else {
      assert props'[1..] == props[1..];
    }
    PropsCongruence(h, props, props', d, seen);
  }

  /** Two key lists with the same first key, the same value for it, and tails
      that scrub alike give the same output. */
  lemma PropsCongruence(h: Heap, p: seq<Prop>, q: seq<Prop>, d: int, seen: set<Id>)
    requires Closed(h) && d > 0 && |p| > 0 && |q| > 0
    requires forall i :: 0 <= i < |p| ==> SlotIn(h, p[i].slot)
    requires forall i :: 0 <= i < |q| ==> SlotIn(h, q[i].slot)
    requires p[0].key == q[0].key
    requires SlotIn(h, p[0].slot) && SlotIn(h, q[0].slot)
    requires ScrubPropValue(h, p[0].slot, d, seen) == ScrubPropValue(h, q[0].slot, d, seen)
    requires var mid := ScrubPropValue(h, p[0].slot, d, seen).1;
             ScrubProps(h, p[1..], d, mid) == ScrubProps(h, q[1..], d, mid)
    ensures ScrubProps(h, p, d, seen) == ScrubProps(h, q, d, seen)
  {
    PropsCons(h, p, d, seen);
    PropsCons(h, q, d, seen);
  }

  /** One iteration of the key loop: the first key's value, then the rest under
      the visited set it left. */
  lemma PropsCons(h: Heap, props: seq<Prop>, d: int, seen: set<Id>)
    requires Closed(h) && d > 0 && |props| > 0
    requires forall i :: 0 <= i < |props| ==> SlotIn(h, props[i].slot)
    ensures SlotIn(h, props[0].slot)
    ensures var (value, mid) := ScrubPropValue(h, props[0].slot, d, seen);
            var (rest, after) := ScrubProps(h, props[1..], d, mid);
            ScrubProps(h, props, d, seen)
            == (if props[0].key == ProtoKey then rest else [Field(props[0].key, value)] + rest, after)
  {
    assert SlotIn(h, props[0].slot);
  }

  /** Each kept key's output field: key `k` sits after the kept keys before
      it, and its value is that key's own try/catch step, run under the
      visited set the earlier keys left. */
  lemma {:induction false} PropsElementwise(h: Heap, props: seq<Prop>, d: int, seen: set<Id>, k: nat)
    requires Closed(h) && d > 0 && k < |props|
    requires forall i :: 0 <= i < |props| ==> SlotIn(h, props[i].slot)
    requires props[k].key != ProtoKey
    ensures |KeptKeys(props[..k])| < |ScrubProps(h, props, d, seen).0|
    ensures SlotIn(h, props[k].slot)
    ensures ScrubProps(h, props, d, seen).0[|KeptKeys(props[..k])|]
            == Field(props[k].key, ScrubPropValue(h, props[k].slot, d, ScrubProps(h, props[..k], d, seen).1).0)
    decreases k
  {
    PropsHeadSplit(h, props, d, seen);
    var pv := ScrubPropValue(h, props[0].slot, d, seen);
    if k == 0 {
      assert props[..0] == [];
    } else {
      var tail := props[1..];
      PropsElementwise(h, tail, d, pv.1, k - 1);
      PropsPrefixCons(h, props, d, seen, k);
      assert tail[k - 1] == props[k];
      var f := Field(props[k].key, ScrubPropValue(h, props[k].slot, d, ScrubProps(h, props[..k], d, seen).1).0);
      ConsIndex(FieldHead(props[0], pv.0), ScrubProps(h, tail, d, pv.1).0,
                KeyHead(props[0]), KeptKeys(tail[..k - 1]), f);
    }
  }

  /** The output fields `out[key] = ...` adds for one key: none for `__proto__`. */
  function FieldHead(p: Prop, value: Json): seq<Field>
  {
    if p.key == ProtoKey then [] else [Field(p.key, value)]
  }

  function KeyHead(p: Prop): (r: seq<string>)
    ensures forall value :: |r| == |FieldHead(p, value)|
  {
    if p.key == ProtoKey then [] else [p.key]
  }

  lemma ConsIndex<T>(head: seq<T>, rest: seq<T>, hk: seq<string>, rk: seq<string>, f: T)
    requires |hk| == |head| && |rk| < |rest| && rest[|rk|] == f
    ensures |hk + rk| < |head + rest| && (head + rest)[|hk + rk|] == f
  {
  }

  /** The key loop as the first key's fields followed by the rest's. */
  lemma PropsHeadSplit(h: Heap, props: seq<Prop>, d: int, seen: set<Id>)
    requires Closed(h) && d > 0 && |props| > 0
    requires forall i :: 0 <= i < |props| ==> SlotIn(h, props[i].slot)
    ensures SlotIn(h, props[0].slot)
    ensures var pv := ScrubPropValue(h, props[0].slot, d, seen);
            ScrubProps(h, props, d, seen).0 == FieldHead(props[0], pv.0) + ScrubProps(h, props[1..], d, pv.1).0
  {
    PropsCons(h, props, d, seen);
    var pv := ScrubPropValue(h, props[0].slot, d, seen);
    var rest := ScrubProps(h, props[1..], d, pv.1).0;
    assert [] + rest == rest;
  }

  /** The first `k > 0` keys: the first key, then the next `k - 1` keys under
      the visited set it left. */
  lemma PropsPrefixCons(h: Heap, props: seq<Prop>, d: int, seen: set<Id>, k: nat)
    requires Closed(h) && d > 0 && 0 < k <= |props|
    requires forall i :: 0 <= i < |props| ==> SlotIn(h, props[i].slot)
    ensures SlotIn(h, props[0].slot)
    ensures var mid := ScrubPropValue(h, props[0].slot, d, seen).1;
            ScrubProps(h, props[..k], d, seen).1 == ScrubProps(h, props[1..][..k - 1], d, mid).1
    ensures KeptKeys(props[..k]) == KeyHead(props[0]) + KeptKeys(props[1..][..k - 1])
  {
    var prefix := props[..k];
    assert prefix[0] == props[0];
    assert prefix[1..] == props[1..][..k - 1];
    PropsCons(h, prefix, d, seen);
    var rest := KeptKeys(prefix[1..]);
    assert [] + rest == rest;
  }

  lemma {:induction false} SubsetCard(a: set<Id>, b: set<Id>)
    requires a <= b
    ensures |a| <= |b|
    decreases b
  {
    if a != {} {
      var x :| x in a;
      SubsetCard(a - {x}, b - {x});
    }
  }

  /** What reaches the log clients nests at most three levels deep, and expands
      each heap object at most once, so cyclic graphs are printed finitely. */
  lemma SafeScrubBounded(h: Heap, v: Value)
    requires Closed(h) && ValueIn(h, v)
    requires SafeScrub(h, v).Done?
    ensures Height(SafeScrub(h, v).value) <= LogDepth
    ensures Containers(SafeScrub(h, v).value) <= |h.Keys|
  {
    var r := Scrub(h, v, LogDepth, {});
    ScrubCounted(h, v, LogDepth, {});
    SubsetCard(r.1, h.Keys);
  }

  /** Every array or object in the output stands for a distinct heap object
      added to the visited set on the way: the output's containers never
      outnumber the objects visited. */
  lemma {:induction false} ScrubCounted(h: Heap, v: Value, d: int, seen: set<Id>)
    requires Closed(h) && ValueIn(h, v)
    ensures var r := Scrub(h, v, d, seen);
            r.0.Done? ==> Containers(r.0.value) + |seen| <= |r.1|
    decreases d, 1, 0
  {
    if v.Ref? && v.id !in seen && d > 0 && h[v.id].ArrayNode? {
      var id := v.id;
      assert |seen + {id}| == |seen| + 1;
      ArrayExpands(h, id, d, seen);
      ItemsCounted(h, h[id].items, d, seen + {id});
    } else if v.Ref? && v.id !in seen && d > 0 && h[v.id].ObjectNode? {
      var id := v.id;
      assert |seen + {id}| == |seen| + 1;
      ObjectExpands(h, id, d, seen);
      PropsCounted(h, h[id].props, d, seen + {id});
    } else {
      LeafCounted(h, v, d, seen);
    }
  }

  /** A value that is not expanded leaves no container and no visit. */
  lemma LeafCounted(h: Heap, v: Value, d: int, seen: set<Id>)
    requires Closed(h) && ValueIn(h, v)
    requires !(v.Ref? && v.id !in seen && d > 0 && !h[v.id].FunctionNode?)
    ensures Scrub(h, v, d, seen).1 == seen
    ensures Scrub(h, v, d, seen).0.Done? && Containers(Scrub(h, v, d, seen).0.value) == 0
  {
  }

  /** Expanding an array not yet visited, below the depth limit. */
  lemma ArrayExpands(h: Heap, id: Id, d: int, seen: set<Id>)
    requires Closed(h) && id in h && h[id].ArrayNode? && id !in seen && d > 0
    ensures NodeIn(h, h[id])
    ensures var (o, after) := ScrubItems(h, h[id].items, d, seen + {id});
            Scrub(h, Ref(id), d, seen) == (if o.Done? then Done(JArr(o.value)) else Thrown(o.message), after)
  {
  }

  lemma {:induction false} ItemsCounted(h: Heap, items: seq<Slot>, d: int, seen: set<Id>)
    requires Closed(h) && d > 0
    requires forall k :: 0 <= k < |items| ==> SlotIn(h, items[k])
    ensures var r := ScrubItems(h, items, d, seen);
            r.0.Done? ==> SumContainers(r.0.value) + |seen| <= |r.1|
    decreases d, 0, |items|, 1
  {
    var r := ScrubItems(h, items, d, seen);
    if items == [] {
      assert r == (Done([]), seen);
    } else if r.0.Done? {
      ItemsCountedCons(h, items, d, seen);
    }
  }

  /** The counting bound for a map that finishes: the first element's bound
      plus the rest's. */
  lemma {:induction false} ItemsCountedCons(h: Heap, items: seq<Slot>, d: int, seen: set<Id>)
    requires Closed(h) && d > 0 && |items| > 0
    requires forall k :: 0 <= k < |items| ==> SlotIn(h, items[k])
    requires ScrubItems(h, items, d, seen).0.Done?
    ensures var r := ScrubItems(h, items, d, seen);
            SumContainers(r.0.value) + |seen| <= |r.1|
    decreases d, 0, |items|, 0
  {
    ItemsFirst(h, items, d, seen);
    ItemsTailIn(h, items);
    var sr := Scrub(h, items[0].v, d - 1, seen);
    ScrubCounted(h, items[0].v, d - 1, seen);
    ItemsCounted(h, items[1..], d, sr.1);
    var rest := ScrubItems(h, items[1..], d, sr.1);
    assert ScrubItems(h, items, d, seen) == (Done([sr.0.value] + rest.0.value), rest.1);
    SumContainersCons(sr.0.value, rest.0.value);
  }

  lemma ItemsTailIn(h: Heap, items: seq<Slot>)
    requires |items| > 0 && forall k :: 0 <= k < |items| ==> SlotIn(h, items[k])
    ensures SlotIn(h, items[0]) && forall k :: 0 <= k < |items[1..]| ==> SlotIn(h, items[1..][k])
  {
    assert SlotIn(h, items[0]);
  }

  lemma SumContainersCons(j: Json, js: seq<Json>)
    ensures SumContainers([j] + js) == Containers(j) + SumContainers(js)
  {
    assert ([j] + js)[1..] == js;
  }

  lemma {:induction false} PropValueCounted(h: Heap, slot: Slot, d: int, seen: set<Id>)
    requires Closed(h) && d > 0 && SlotIn(h, slot)
    ensures var r := ScrubPropValue(h, slot, d, seen);
            Containers(r.0) + |seen| <= |r.1|
    decreases d, 0, 1
  {
    if slot.Throws? {
      ThrownSlotCounted(h, slot, d, seen);
    } else {
      assert slot == Holds(slot.v);
      HeldValueCounted(h, slot.v, d, seen);
    }
  }

  /** A read that throws stores text and visits nothing. */
  lemma ThrownSlotCounted(h: Heap, slot: Slot, d: int, seen: set<Id>)
    requires Closed(h) && d > 0 && slot.Throws?
    ensures ScrubPropValue(h, slot, d, seen).1 == seen
    ensures Containers(ScrubPropValue(h, slot, d, seen).0) == 0
  {
  }

  /** A held value stored for a key: its scrub, or the text of what it threw
      (no container) after the visits made before the throw. */
  lemma {:induction false} HeldValueCounted(h: Heap, v: Value, d: int, seen: set<Id>)
    requires Closed(h) && d > 0 && ValueIn(h, v)
    ensures var r := ScrubPropValue(h, Holds(v), d, seen);
            Containers(r.0) + |seen| <= |r.1|
    decreases d, 0, 0
  {
    var sr := Scrub(h, v, d - 1, seen);
    if sr.0.Done? {
      ScrubCounted(h, v, d - 1, seen);
    } else {
      SubsetCard(seen, sr.1);
    }
  }

  lemma {:induction false} PropsCounted(h: Heap, props: seq<Prop>, d: int, seen: set<Id>)
    requires Closed(h) && d > 0
    requires forall k :: 0 <= k < |props| ==> SlotIn(h, props[k].slot)
    ensures var r := ScrubProps(h, props, d, seen);
            SumFieldContainers(r.0) + |seen| <= |r.1|
    decreases d, 0, |props| + 1
  {
    if props != [] {
      assert SlotIn(h, props[0].slot);
      PropValueCounted(h, props[0].slot, d, seen);
      var mid := ScrubPropValue(h, props[0].slot, d, seen).1;
      PropsCounted(h, props[1..], d, mid);
    }
  }

  // ---------------------------------------------------------------------------
  // Worked cases

  /** Expanding an object not yet visited, below the depth limit. */
  lemma ObjectExpands(h: Heap, id: Id, d: int, seen: set<Id>)
    requires Closed(h) && id in h && h[id].ObjectNode? && id !in seen && d > 0
    ensures NodeIn(h, h[id])
    ensures var (fs, after) := ScrubProps(h, h[id].props, d, seen + {id});
            Scrub(h, Ref(id), d, seen) == (Done(JObj(fs)), after)
  {
  }

  /** An object holding itself prints that key as `[Circular]` instead of
      recursing (the self-referential log payload). */
  lemma SelfReferenceIsCircular(h: Heap, id: Id, key: string)
    requires Closed(h) && id in h && h[id] == ObjectNode([Prop(key, Holds(Ref(id)))])
    requires key != ProtoKey
    ensures SafeScrub(h, Ref(id)) == Done(JObj([Field(key, JStr(CircularText))]))
  {
    var props := h[id].props;
    var none: set<Id> := {};
    assert none + {id} == {id};
    ObjectExpands(h, id, LogDepth, none);
    PropsCons(h, props, LogDepth, {id});
    assert props[1..] == [];
    assert Scrub(h, Ref(id), LogDepth - 1, {id}) == (Done(JStr(CircularText)), {id});
    assert ScrubPropValue(h, props[0].slot, LogDepth, {id}) == (JStr(CircularText), {id});
    assert ScrubProps(h, props[1..], LogDepth, {id}) == ([], {id});
    assert [Field(key, JStr(CircularText))] + [] == [Field(key, JStr(CircularText))];
    assert ScrubProps(h, props, LogDepth, {id}) == ([Field(key, JStr(CircularText))], {id});
    assert Scrub(h, Ref(id), LogDepth, none) == (Done(JObj([Field(key, JStr(CircularText))])), {id});
  }

  /** The visited set is never cleared: an object reachable twice without any
      cycle is expanded at its first visit and printed `[Circular]` at its
      second. */
  lemma SharedReferenceIsCircular(h: Heap, outer: Id, inner: Id, first: string, second: string)
    requires Closed(h) && outer in h && inner in h && outer != inner
    requires h[outer] == ObjectNode([Prop(first, Holds(Ref(inner))), Prop(second, Holds(Ref(inner)))])
    requires h[inner] == ObjectNode([])
    requires first != ProtoKey && second != ProtoKey
    ensures SafeScrub(h, Ref(outer)) == Done(JObj([Field(first, JObj([])), Field(second, JStr(CircularText))]))
  {
    var props := h[outer].props;
    var none: set<Id> := {};
    assert none + {outer} == {outer};
    ObjectExpands(h, outer, LogDepth, none);
    ObjectExpands(h, inner, LogDepth - 1, {outer});
    var both := {outer} + {inner};
    assert ScrubProps(h, [], LogDepth - 1, both) == ([], both);
    assert Scrub(h, Ref(inner), LogDepth - 1, {outer}) == (Done(JObj([])), both);
    assert ScrubPropValue(h, props[0].slot, LogDepth, {outer}) == (JObj([]), both);
    PropsCons(h, props, LogDepth, {outer});
    assert Scrub(h, Ref(inner), LogDepth - 1, both) == (Done(JStr(CircularText)), both);
    assert ScrubPropValue(h, props[1..][0].slot, LogDepth, both) == (JStr(CircularText), both);
    PropsCons(h, props[1..], LogDepth, both);
    assert props[1..][1..] == [];
    assert ScrubProps(h, [], LogDepth, both) == ([], both);
    assert [Field(second, JStr(CircularText))] + [] == [Field(second, JStr(CircularText))];
    assert ScrubProps(h, props[1..], LogDepth, both) == ([Field(second, JStr(CircularText))], both);
    assert [Field(first, JObj([]))] + [Field(second, JStr(CircularText))]
        == [Field(first, JObj([])), Field(second, JStr(CircularText))];
  }

  /** A `__proto__` own key (as `JSON.parse` creates one for a request body)
      never reaches the output, whatever its value; the next key does. */
  lemma ProtoKeyDropped(h: Heap, id: Id, proto: Slot, key: string, b: bool)
    requires Closed(h) && id in h && h[id] == ObjectNode([Prop(ProtoKey, proto), Prop(key, Holds(Bool(b)))])
    requires key != ProtoKey
    ensures SafeScrub(h, Ref(id)) == Done(JObj([Field(key, JBool(b))]))
  {
    var props := h[id].props;
    var none: set<Id> := {};
    assert none + {id} == {id};
    ObjectExpands(h, id, LogDepth, none);
    PropsCons(h, props, LogDepth, {id});
    var mid := ScrubPropValue(h, proto, LogDepth, {id}).1;
    PropsCons(h, props[1..], LogDepth, mid);
    assert props[1..][1..] == [];
    assert ScrubPropValue(h, props[1..][0].slot, LogDepth, mid) == (JBool(b), mid);
    assert ScrubProps(h, [], LogDepth, mid) == ([], mid);
    assert [Field(key, JBool(b))] + [] == [Field(key, JBool(b))];
  }

  // ---------------------------------------------------------------------------
  // The walk as server.js performs it: one visited set, updated in place

  /** One `safeStringify` call: the `WeakSet` it allocates, and `scrub` as a
      recursive walk that adds each expanded object to it before visiting the
      children and fills an object's output key by key. */
  class Scrubber {
    var seen: set<Id>

    constructor ()
      ensures seen == {}
    {
      seen := {};
    }

    /** `scrub(v, d)`: its outcome, with the visited set advanced exactly as
        `Scrub` threads it. */
    method Walk(h: Heap, v: Value, d: int) returns (o: Outcome<Json>)
      requires Closed(h) && ValueIn(h, v)
      modifies this
      ensures (o, seen) == Scrub(h, v, d, old(seen))
      decreases d, 1, 0
    {
      match v {
        case Null => o := Done(JNull);
        case Num(n) => o := Done(JNum(n));
        case Bool(b) => o := Done(JBool(b));
        case Str(s) => o := Done(JStr(s));
        case Undefined => o := Done(JStr("undefined"));
        case Other(shown) => o := Done(JStr(shown));
        case Ref(id) =>
          match h[id] {
            case FunctionNode(name) => o := Done(JStr(FunctionText(name)));
            case ArrayNode(items) =>
              if id in seen {
                o := Done(JStr(CircularText));
              } else if d <= 0 {
                o := Done(JStr(ArrayCutText));
              } else {
                seen := seen + {id};
                var mapped := WalkItems(h, items, d);
                match mapped {
                  case Done(js) => o := Done(JArr(js));
                  case Thrown(m) => o := Thrown(m);
                }
              }
            case ObjectNode(props) =>
              if id in seen {
                o := Done(JStr(CircularText));
              } else if d <= 0 {
                o := Done(JStr(ObjectCutText));
              } else {
                seen := seen + {id};
                var fs := WalkProps(h, props, d);
                o := Done(JObj(fs));
              }
          }
      }
    }

    /** `v.map(item => scrub(item, d - 1))`: elements in order, and the
        first element whose read or scrub throws ends the map with that
        exception. */
    method WalkItems(h: Heap, items: seq<Slot>, d: int) returns (o: Outcome<seq<Json>>)
      requires Closed(h) && d > 0
      requires forall k :: 0 <= k < |items| ==> SlotIn(h, items[k])
      modifies this
      ensures (o, seen) == ScrubItems(h, items, d, old(seen))
      decreases d, 0, |items|
    {
      if items == [] {
        return Done([]);
      }
      ItemsUnfold(h, items, d, seen);
      match items[0] {
        case Throws(m) =>
          o := Thrown(m);
        case Holds(v) =>
          ghost var sv := Scrub(h, v, d - 1, seen);
          var r := Walk(h, v, d - 1);
          assert r == sv.0 && seen == sv.1;
          if r.Thrown? {
            o := Thrown(r.message);
          } else {
            ghost var restSpec := ScrubItems(h, items[1..], d, seen);
            var rest := WalkItems(h, items[1..], d);
            assert rest == restSpec.0 && seen == restSpec.1;
            match rest {
              case Done(js) => o := Done([r.value] + js);
              case Thrown(m) => o := Thrown(m);
            }
          }
      }
    }

    /** One key's `try { out[key] = scrub(v[key], d - 1) } catch (e) { ... }`:
        the scrubbed value, or `[Unserializable: ...]` when the read or the
        scrub throws. */
    method WalkProp(h: Heap, slot: Slot, d: int) returns (value: Json)
      requires Closed(h) && d > 0 && SlotIn(h, slot)
      modifies this
      ensures (value, seen) == ScrubPropValue(h, slot, d, old(seen))
      decreases d, 0, 0
    {
      match slot {
        case Throws(m) =>
          value := JStr(UnserializableText(m));
        case Holds(v) =>
          var r := Walk(h, v, d - 1);
          value := if r.Done? then r.value else JStr(UnserializableText(r.message));
      }
    }

    /** The `for (const key of Object.keys(v))` loop: each key's read and
        scrub is caught on its own and stored as `[Unserializable: ...]`. */
    method WalkProps(h: Heap, props: seq<Prop>, d: int) returns (fs: seq<Field>)
      requires Closed(h) && d > 0
      requires forall k :: 0 <= k < |props| ==> SlotIn(h, props[k].slot)
      modifies this
      ensures (fs, seen) == ScrubProps(h, props, d, old(seen))
      decreases d, 0, 1
    {
      ghost var target := ScrubProps(h, props, d, seen);
      fs := [];
      assert props[0..] == props;
      for k := 0 to |props|
        invariant fs + ScrubProps(h, props[k..], d, seen).0 == target.0
        invariant ScrubProps(h, props[k..], d, seen).1 == target.1
      {
        ghost var before, done := seen, fs;
        PropsSuffixSplit(h, props, d, before, k);
        var value := WalkProp(h, props[k].slot, d);
        if props[k].key != ProtoKey {
          fs := fs + [Field(props[k].key, value)];
        }
        ghost var rest := ScrubProps(h, props[k + 1..], d, seen);
        assert fs == done + FieldHead(props[k], value);
        AppendAssoc(done, FieldHead(props[k], value), rest.0);
      }
      assert props[|props|..] == [];
      assert fs + [] == fs;
    }
  }

  /** The suffix from key `k` on: key `k`'s fields, then the suffix after it. */
  lemma PropsSuffixSplit(h: Heap, props: seq<Prop>, d: int, seen: set<Id>, k: nat)
    requires Closed(h) && d > 0 && k < |props|
    requires forall i :: 0 <= i < |props| ==> SlotIn(h, props[i].slot)
    ensures SlotIn(h, props[k].slot)
    ensures var pv := ScrubPropValue(h, props[k].slot, d, seen);
            var rest := ScrubProps(h, props[k + 1..], d, pv.1);
            ScrubProps(h, props[k..], d, seen) == (FieldHead(props[k], pv.0) + rest.0, rest.1)
  {
    PropsSuffix(h, props, d, seen, k);
    var pv := ScrubPropValue(h, props[k].slot, d, seen);
    var rest := ScrubProps(h, props[k + 1..], d, pv.1).0;
    assert [] + rest == rest;
  }

  lemma AppendAssoc<T>(a: seq<T>, b: seq<T>, c: seq<T>)
    ensures a + (b + c) == (a + b) + c
  {
  }

  /** `ScrubItems` one element at a time: a throwing read or scrub ends the
      map with that exception, a finished one is put in front of the rest. */
  lemma ItemsUnfold(h: Heap, items: seq<Slot>, d: int, seen: set<Id>)
    requires Closed(h) && d > 0 && |items| > 0
    requires forall i :: 0 <= i < |items| ==> SlotIn(h, items[i])
    ensures SlotIn(h, items[0])
    ensures items[0].Throws? ==> ScrubItems(h, items, d, seen) == (Thrown(items[0].message), seen)
    ensures items[0].Holds? ==>
              var sv := Scrub(h, items[0].v, d - 1, seen);
              && (sv.0.Thrown? ==> ScrubItems(h, items, d, seen) == (Thrown(sv.0.message), sv.1))
              && (sv.0.Done? ==>
                    var rest := ScrubItems(h, items[1..], d, sv.1);
                    ScrubItems(h, items, d, seen)
                    == (if rest.0.Done? then Done([sv.0.value] + rest.0.value) else Thrown(rest.0.message), rest.1))
  {
    assert SlotIn(h, items[0]);
  }

  /** One iteration of the key loop, on the keys from `k` on: the `k`-th key's
      value (dropped for `__proto__`) followed by the rest under the visited
      set that value left. */
  lemma PropsSuffix(h: Heap, props: seq<Prop>, d: int, seen: set<Id>, k: nat)
    requires Closed(h) && d > 0 && k < |props|
    requires forall i :: 0 <= i < |props| ==> SlotIn(h, props[i].slot)
    ensures SlotIn(h, props[k].slot)
    ensures var pv := ScrubPropValue(h, props[k].slot, d, seen);
            var rest := ScrubProps(h, props[k + 1..], d, pv.1);
            ScrubProps(h, props[k..], d, seen)
            == (if props[k].key == ProtoKey then rest.0 else [Field(props[k].key, pv.0)] + rest.0, rest.1)
  {
    var tail := props[k..];
    assert tail[0] == props[k] && tail[1..] == props[k + 1..];
    forall i | 0 <= i < |tail| ensures SlotIn(h, tail[i].slot) {
      assert tail[i] == props[k + i];
    }
    PropsCons(h, tail, d, seen);
  }

  /** `safeStringify(value, 3)` up to the final `JSON.stringify`: a fresh
      visited set, then the walk; the same outcome as `SafeScrub`. */
  method SafeStringify(h: Heap, v: Value) returns (o: Outcome<Json>)
    requires Closed(h) && ValueIn(h, v)
    ensures o == SafeScrub(h, v)
  {
    var walker := new Scrubber();
    o := walker.Walk(h, v, LogDepth);
  }
}
