/** Model of `broadcastLog` and the `/log` route (server.js).

    The connected event-stream responses form an insertion-ordered `Set`; here
    a duplicate-free sequence of client identities. Writing to a client either
    succeeds or throws; which one is an input (`writeOk`), since it depends on
    the network. `JSON.stringify(tree, null, 2)` is an input too (`stringify`):
    the model keeps the scrubbed tree, not its text layout. */
module LogBroadcast {
  import opened LogScrub

  /** A connected `/events` response. */
  type Client = nat

  /** One `res.write(...)` attempt. */
  datatype Write = Write(client: Client, text: string)

  /** The payload sent when stringifying throws: a JSON string literal. */
  const UnserializableData := "\"[Unserializable]\""

  /** The status `/log` always answers with. */
  const NoContent := 204

  /** The client `Set` holds each stream at most once. */
  predicate DistinctClients(s: seq<Client>)
  {
    forall i, j :: 0 <= i < j < |s| ==> s[i] != s[j]
  }

  /** `data`: the printed tree, or the fallback literal when `safeStringify` threw. */
  function Data(o: Outcome<Json>, stringify: Json -> string): (data: string)
    ensures o.Thrown? ==> data == UnserializableData
    ensures o.Done? ==> data == stringify(o.value)
  {
    match o
    case Done(j) => stringify(j)
    case Thrown(_) => UnserializableData
  }

  /** One server-sent event carrying `data`. */
  function Frame(data: string): (text: string)
    ensures |text| == |data| + 8
    ensures text[..6] == "data: " && text[|text| - 2..] == "\n\n"
    ensures text[6..|text| - 2] == data
  {
    "data: " + data + "\n\n"
  }

  /** The same text written to each client, in order. */
  function Attempts(clients: seq<Client>, text: string): (ws: seq<Write>)
  {
    seq(|clients|, k requires 0 <= k < |clients| => Write(clients[k], text))
  }

  /** The clients whose write did not throw, in their original order. */
  function Survivors(clients: seq<Client>, writeOk: Client -> bool): seq<Client>
  {
    if clients == [] then []
    else
      var last := clients[|clients| - 1];
      Survivors(clients[..|clients| - 1], writeOk) + (if writeOk(last) then [last] else [])
  }

  /** `clients.delete(c)`. */
  function Without(s: seq<Client>, c: Client): (r: seq<Client>)
  {
    if s == [] then []
    else (if s[0] == c then [] else [s[0]]) + Without(s[1..], c)
  }

  // ---------------------------------------------------------------------------
  // Properties of the fan-out

  /** A client survives exactly when it was connected and its own write
      succeeded: no other client's failure affects it. */
  lemma {:induction false} SurvivorsMembers(clients: seq<Client>, writeOk: Client -> bool, c: Client)
    ensures c in Survivors(clients, writeOk) <==> c in clients && writeOk(c)
    decreases |clients|
  {
    if clients != [] {
      var init := clients[..|clients| - 1];
      SurvivorsMembers(init, writeOk, c);
      assert clients == init + [clients[|clients| - 1]];
    }
  }

  /** Removing dead clients keeps the rest in order: the survivors of a
      concatenation are the survivors of each part. */
  lemma {:induction false} SurvivorsAppend(a: seq<Client>, b: seq<Client>, writeOk: Client -> bool)
    ensures Survivors(a + b, writeOk) == Survivors(a, writeOk) + Survivors(b, writeOk)
    decreases |b|
  {
    if b == [] {
      assert a + b == a;
    } else {
      var init := b[..|b| - 1];
      SurvivorsAppend(a, init, writeOk);
      assert (a + b)[..|a + b| - 1] == a + init;
    }
  }

  /** The surviving clients still form a set. */
  lemma {:induction false} SurvivorsNoDuplicates(clients: seq<Client>, writeOk: Client -> bool)
    requires DistinctClients(clients)
    ensures DistinctClients(Survivors(clients, writeOk))
    decreases |clients|
  {
    if clients != [] {
      var init := clients[..|clients| - 1];
      var last := clients[|clients| - 1];
      SurvivorsNoDuplicates(init, writeOk);
      SurvivorsMembers(init, writeOk, last);
    }
  }

  /** Deleting a client that occurs once removes exactly that occurrence. */
  lemma {:induction false} WithoutSplit(a: seq<Client>, c: Client, b: seq<Client>)
    requires c !in a && c !in b
    ensures Without(a + [c] + b, c) == a + b
    decreases |a|
  {
    if a == [] {
      assert [c] + b == a + [c] + b;
      WithoutAbsent(b, c);
    } else {
      WithoutSplit(a[1..], c, b);
      assert (a + [c] + b)[1..] == a[1..] + [c] + b;
      assert a + b == [a[0]] + (a[1..] + b);
    }
  }

  lemma {:induction false} WithoutAbsent(s: seq<Client>, c: Client)
    requires c !in s
    ensures Without(s, c) == s
    decreases |s|
  {
    if s != [] {
      WithoutAbsent(s[1..], c);
    }
  }

  // ---------------------------------------------------------------------------
  // The `/log` envelope

  /** Truthiness of `req.body` in `req.body || {}`. */
  predicate Falsy(v: Value)
    ensures Falsy(v) ==> !v.Ref?
  {
    match v
    case Null => true
    case Undefined => true
    case Bool(b) => !b
    case Num(n) => n == 0.0
    case Str(s) => s == ""
    case Other(shown) => shown == "0"  // the bigint 0n; no symbol prints as "0"
    case Ref(_) => false
  }

  /** `{from: 'client', payload}`. */
  function Envelope(payload: Value): (n: Node)
    ensures n.ObjectNode? && KeptKeys(n.props) == ["from", "payload"]
  {
    var props := [Prop("from", Holds(Str("client"))), Prop("payload", Holds(payload))];
    assert props[1..][1..] == [];
    assert KeptKeys(props[1..]) == ["payload"];
    ObjectNode(props)
  }

  /** The heap after `/log` allocates `payload` (a fresh `{}` for a falsy body)
      and the envelope around it. */
  function LogHeap(h: Heap, body: Value, envelope: Id, fallback: Id): Heap
  {
    var h' := if Falsy(body) then h[fallback := ObjectNode([])] else h;
    h'[envelope := Envelope(if Falsy(body) then Ref(fallback) else body)]
  }

  function LogPayload(body: Value, fallback: Id): Value
  {
    if Falsy(body) then Ref(fallback) else body
  }

  lemma {:induction false} NodeInGrows(h: Heap, h': Heap, n: Node)
    requires h.Keys <= h'.Keys && NodeIn(h, n)
    ensures NodeIn(h', n)
  {
    match n
    case ArrayNode(items) =>
      forall k | 0 <= k < |items| ensures SlotIn(h', items[k]) { assert SlotIn(h, items[k]); }
    case ObjectNode(props) =>
      forall k | 0 <= k < |props| ensures SlotIn(h', props[k].slot) { assert SlotIn(h, props[k].slot); }
    case FunctionNode(_) =>
  }

  /** Allocating a node whose references resolve keeps the heap closed. */
  lemma {:induction false} ClosedGrows(h: Heap, id: Id, n: Node)
    requires Closed(h) && id !in h && NodeIn(h[id := n], n)
    ensures Closed(h[id := n])
  {
    var h' := h[id := n];
    forall i | i in h' ensures NodeIn(h', h'[i]) {
      if i != id {
        NodeInGrows(h, h', h[i]);
      }
    }
  }

  lemma LogHeapClosed(h: Heap, body: Value, envelope: Id, fallback: Id)
    requires Closed(h) && ValueIn(h, body) && envelope !in h && fallback !in h && envelope != fallback
    ensures Closed(LogHeap(h, body, envelope, fallback))
    ensures envelope in LogHeap(h, body, envelope, fallback)
    ensures ValueIn(LogHeap(h, body, envelope, fallback), LogPayload(body, fallback))
  {
    var h' := if Falsy(body) then h[fallback := ObjectNode([])] else h;
    if Falsy(body) {
      ClosedGrows(h, fallback, ObjectNode([]));
    }
    var e := Envelope(LogPayload(body, fallback));
    assert NodeIn(h'[envelope := e], e) by {
      assert SlotIn(h'[envelope := e], e.props[0].slot);
      assert SlotIn(h'[envelope := e], e.props[1].slot);
    }
    ClosedGrows(h', envelope, e);
  }

  /** What `/log` broadcasts: an object with keys `from` and `payload`, the
      payload scrubbed one level down (depth 2), so a client body shows at most
      two levels of nesting; expanding the envelope never throws, so the
      `[Unserializable]` fallback is never sent for a `/log` call. */
  lemma LogEnvelopeScrub(h: Heap, body: Value, envelope: Id, fallback: Id)
    requires Closed(h) && ValueIn(h, body) && envelope !in h && fallback !in h && envelope != fallback
    ensures Closed(LogHeap(h, body, envelope, fallback))
    ensures ValueIn(LogHeap(h, body, envelope, fallback), LogPayload(body, fallback))
    ensures var lh := LogHeap(h, body, envelope, fallback);
            var p := ScrubPropValue(lh, Holds(LogPayload(body, fallback)), LogDepth, {envelope}).0;
            && SafeScrub(lh, Ref(envelope)) == Done(JObj([Field("from", JStr("client")), Field("payload", p)]))
            && Height(p) <= LogDepth - 1
  {
    LogHeapClosed(h, body, envelope, fallback);
    var lh := LogHeap(h, body, envelope, fallback);
    var props := lh[envelope].props;
    assert props == [Prop("from", Holds(Str("client"))), Prop("payload", Holds(LogPayload(body, fallback)))];
    assert "from" != ProtoKey && "payload" != ProtoKey;
    var none: set<Id> := {};
    assert none + {envelope} == {envelope};
    ObjectExpands(lh, envelope, LogDepth, none);
    PropsCons(lh, props, LogDepth, {envelope});
    assert ScrubPropValue(lh, props[0].slot, LogDepth, {envelope}) == (JStr("client"), {envelope});
    var (p, mid) := ScrubPropValue(lh, props[1].slot, LogDepth, {envelope});
    assert props[1..][0] == props[1];
    PropsCons(lh, props[1..], LogDepth, {envelope});
    assert props[1..][1..] == [];
    assert ScrubProps(lh, [], LogDepth, mid) == ([], mid);
    assert ScrubProps(lh, props[1..], LogDepth, {envelope}) == ([Field("payload", p)] + [], mid);
    assert props[1].slot == Holds(LogPayload(body, fallback));
    assert Height(p) < LogDepth;
    var fields := [Field("from", JStr("client"))] + ([Field("payload", p)] + []);
    assert fields == [Field("from", JStr("client")), Field("payload", p)];
    assert ScrubProps(lh, props, LogDepth, {envelope}) == (fields, mid);
    assert Scrub(lh, Ref(envelope), LogDepth, none) == (Done(JObj(fields)), mid);
    assert [Field("payload", p)] + [] == [Field("payload", p)];
  }

  // ---------------------------------------------------------------------------
  // The server's client set

  class LogHub {
    /** `clients`, in insertion (iteration) order. */
    var clients: seq<Client>

    ghost predicate Valid()
      reads this
    {
      DistinctClients(clients)
    }

    constructor ()
      ensures Valid() && clients == []
    {
      clients := [];
    }

    /** `clients.add(res)` when an `/events` stream opens. */
    method Subscribe(c: Client)
      requires Valid()
      modifies this
      ensures Valid()
      ensures clients == if c in old(clients) then old(clients) else old(clients) + [c]
    {
      if c !in clients {
        clients := clients + [c];
      }
    }

    /** `clients.delete(res)` when an `/events` stream closes. */
    method Disconnect(c: Client)
      requires Valid()
      modifies this
      ensures Valid()
      ensures forall x :: x in clients <==> x in old(clients) && x != c
      ensures clients == Without(old(clients), c)
    {
      clients := Without(clients, c);
      WithoutMembers(old(clients), c);
    }

    /** `broadcastLog(obj)`: scrub once, then write the same event to every
        client in order, deleting each client whose write throws. */
    method BroadcastLog(h: Heap, obj: Value, stringify: Json -> string, writeOk: Client -> bool)
      returns (writes: seq<Write>)
      requires Valid() && Closed(h) && ValueIn(h, obj)
      modifies this
      ensures Valid()
      ensures writes == Attempts(old(clients), Frame(Data(SafeScrub(h, obj), stringify)))
      ensures clients == Survivors(old(clients), writeOk)
    {
      var scrubbed := SafeStringify(h, obj);
      var data := Data(scrubbed, stringify);
      var text := Frame(data);
      var snapshot := clients;
      writes := [];
      for i := 0 to |snapshot|
        invariant clients == Survivors(snapshot[..i], writeOk) + snapshot[i..]
        invariant writes == Attempts(snapshot[..i], text)
      {
        var c := snapshot[i];
        BroadcastStep(snapshot, i, writeOk, text);
        writes := writes + [Write(c, text)];
        if !writeOk(c) {
          clients := Without(clients, c);
        }
      }
      assert snapshot[..|snapshot|] == snapshot;
      SurvivorsNoDuplicates(snapshot, writeOk);
    }

    /** `POST /log`: wrap the body (or `{}` when it is falsy) as
        `{from: 'client', payload}`, broadcast it, answer 204 in every case. */
    method PostLog(h: Heap, body: Value, envelope: Id, fallback: Id,
                   stringify: Json -> string, writeOk: Client -> bool)
      returns (status: int, writes: seq<Write>)
      requires Valid() && Closed(h) && ValueIn(h, body)
      requires envelope !in h && fallback !in h && envelope != fallback
      modifies this
      ensures Valid()
      ensures status == NoContent
      ensures clients == Survivors(old(clients), writeOk)
      ensures var lh := LogHeap(h, body, envelope, fallback);
              writes == Attempts(old(clients), Frame(Data(SafeScrub(lh, Ref(envelope)), stringify)))
    {
      LogHeapClosed(h, body, envelope, fallback);
      var lh := LogHeap(h, body, envelope, fallback);
      writes := BroadcastLog(lh, Ref(envelope), stringify, writeOk);
      status := NoContent;
    }
  }

  lemma {:induction false} WithoutMembers(s: seq<Client>, c: Client)
    ensures forall x :: x in Without(s, c) <==> x in s && x != c
    ensures DistinctClients(s) ==> DistinctClients(Without(s, c))
    decreases |s|
  {
    if s != [] {
      var r := Without(s[1..], c);
      WithoutMembers(s[1..], c);
      assert s == [s[0]] + s[1..];
      if DistinctClients(s) && s[0] != c {
        assert s[0] !in r by {
          forall k | 0 <= k < |s[1..]| ensures s[1..][k] != s[0] { assert s[1..][k] == s[k + 1]; }
        }
        assert DistinctClients(s[1..]) by {
          forall i, j | 0 <= i < j < |s[1..]| ensures s[1..][i] != s[1..][j] {
            assert s[1..][i] == s[i + 1] && s[1..][j] == s[j + 1];
          }
        }
        var w := [s[0]] + r;
        forall i, j | 0 <= i < j < |w| ensures w[i] != w[j] {
          assert w[j] == r[j - 1];
          if i > 0 {
            assert w[i] == r[i - 1];
          }
        }
      } else if DistinctClients(s) {
        assert DistinctClients(s[1..]) by {
          forall i, j | 0 <= i < j < |s[1..]| ensures s[1..][i] != s[1..][j] {
            assert s[1..][i] == s[i + 1] && s[1..][j] == s[j + 1];
          }
        }
      }
    }
  }

  /** One iteration of the fan-out: the write is recorded, and a client whose
      write failed is the only one deleted. */
  lemma BroadcastStep(snapshot: seq<Client>, i: int, writeOk: Client -> bool, text: string)
    requires DistinctClients(snapshot) && 0 <= i < |snapshot|
    ensures var c := snapshot[i];
            var cur := Survivors(snapshot[..i], writeOk) + snapshot[i..];
            (if writeOk(c) then cur else Without(cur, c))
            == Survivors(snapshot[..i + 1], writeOk) + snapshot[i + 1..]
    ensures Attempts(snapshot[..i + 1], text) == Attempts(snapshot[..i], text) + [Write(snapshot[i], text)]
  {
    var c := snapshot[i];
    var done := Survivors(snapshot[..i], writeOk);
    assert snapshot[..i + 1][..i] == snapshot[..i];
    assert snapshot[i..] == [c] + snapshot[i + 1..];
    if !writeOk(c) {
      assert c !in snapshot[..i];
      SurvivorsMembers(snapshot[..i], writeOk, c);
      assert c !in snapshot[i + 1..];
      WithoutSplit(done, c, snapshot[i + 1..]);
      assert done + snapshot[i..] == done + [c] + snapshot[i + 1..];
    } else {
      assert done + snapshot[i..] == (done + [c]) + snapshot[i + 1..];
    }
  }
}
