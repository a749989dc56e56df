/** The application above a node: committed entries become commits, commits become the key-value map. */
module Apply {
  import opened RaftTypes
  import opened TwoPartLog
  import opened NodeLoop
  import Wire
  import ConfEntry
  import RoundTrip
  import Varint
  import WireCode

  /** What is left open: the fields that a failing Unmarshal leaves behind, and the encoding of a key and value. */
  datatype Codec = Codec(partial: Option<seq<byte>> -> Wire.ConfChange, keyValue: seq<byte> -> (string, string))

  /** The change that the application reads from an entry; it ignores an error of Unmarshal. */
  function ReadChange(data: Option<seq<byte>>, codec: Codec): Wire.ConfChange {
    match Wire.DecodeWire(ConfEntry.Bytes(data), 0, Wire.ChangeW(Wire.NO_CHANGE))
    case Ok(w) => w.h
    case Err(_) => codec.partial(data)
  }

  /** A change that was marshalled into the entry is the one that is applied. */
  lemma ProposedChangeIsApplied(data: Option<seq<byte>>, h: Wire.ConfChange, codec: Codec)
    requires RoundTrip.WfChange(h) && |Wire.EncodeChange(h)| < Varint.I63 && ConfEntry.Bytes(data) == Wire.EncodeChange(h)
    ensures ReadChange(data, codec) == h
  {
    RoundTrip.ChangeBack(h);
  }

  // ---------------------------------------------------------------------
  // What the committed log means.

  /** The payload of a normal entry that has one. */
  function Payload(e: Entry): seq<seq<byte>> {
    if e.etype == EntryNormal && e.data.Some? && |e.data.value| > 0 then [e.data.value] else []
  }

  function Payloads(ents: seq<Entry>): seq<seq<byte>> {
    if ents == [] then [] else Payloads(ents[..|ents| - 1]) + Payload(ents[|ents| - 1])
  }

  function Changes(ents: seq<Entry>, codec: Codec): seq<Wire.ConfChange> {
    if ents == [] then []
    else
      var e := ents[|ents| - 1];
      Changes(ents[..|ents| - 1], codec) + if e.etype == EntryConfChange then [ReadChange(e.data, codec)] else []
  }

  function Join(commits: seq<seq<seq<byte>>>): seq<seq<byte>> {
    if commits == [] then [] else Join(commits[..|commits| - 1]) + commits[|commits| - 1]
  }

  /** The map after every payload has been assigned in turn. */
  function Fold(data: map<string, string>, payloads: seq<seq<byte>>, codec: Codec): map<string, string> {
    if payloads == [] then data
    else
      var (k, v) := codec.keyValue(payloads[|payloads| - 1]);
      Fold(data, payloads[..|payloads| - 1], codec)[k := v]
  }

  lemma {:induction false} PayloadsJoin(a: seq<Entry>, b: seq<Entry>)
    ensures Payloads(a + b) == Payloads(a) + Payloads(b)
    decreases |b|
  {
    if b == [] {
      assert a + b == a;
    } else {
      assert (a + b)[..|a + b| - 1] == a + b[..|b| - 1];
      PayloadsJoin(a, b[..|b| - 1]);
    }
  }

  lemma {:induction false} ChangesJoin(a: seq<Entry>, b: seq<Entry>, codec: Codec)
    ensures Changes(a + b, codec) == Changes(a, codec) + Changes(b, codec)
    decreases |b|
  {
    if b == [] {
      assert a + b == a;
    } else {
      assert (a + b)[..|a + b| - 1] == a + b[..|b| - 1];
      ChangesJoin(a, b[..|b| - 1], codec);
    }
  }

  lemma {:induction false} FoldJoins(data: map<string, string>, a: seq<seq<byte>>, b: seq<seq<byte>>, codec: Codec)
    ensures Fold(data, a + b, codec) == Fold(Fold(data, a, codec), b, codec)
    decreases |b|
  {
    if b == [] {
      assert a + b == a;
    } else {
      assert (a + b)[..|a + b| - 1] == a + b[..|b| - 1];
      FoldJoins(data, a, b[..|b| - 1], codec);
    }
  }

  /** The value of the last payload for a key, or what the map held before. */
  ghost predicate HoldsLast(data: map<string, string>, payloads: seq<seq<byte>>, codec: Codec, r: map<string, string>, key: string) {
    if exists k :: 0 <= k < |payloads| && codec.keyValue(payloads[k]).0 == key
    then exists k: nat :: LastFor(payloads, codec, key, k) && key in r && r[key] == codec.keyValue(payloads[k]).1
    else (key in r <==> key in data) && (key in data ==> r[key] == data[key])
  }

  ghost predicate LastFor(payloads: seq<seq<byte>>, codec: Codec, key: string, k: nat) {
    && k < |payloads| && codec.keyValue(payloads[k]).0 == key
    && forall j :: k < j < |payloads| ==> codec.keyValue(payloads[j]).0 != key
  }

  lemma {:induction false} FoldHoldsLast(data: map<string, string>, payloads: seq<seq<byte>>, codec: Codec, key: string)
    ensures HoldsLast(data, payloads, codec, Fold(data, payloads, codec), key)
  {
    if payloads != [] {
      var n := |payloads| - 1;
      var init := payloads[..n];
      FoldHoldsLast(data, init, codec, key);
      if codec.keyValue(payloads[n]).0 == key {
        assert LastFor(payloads, codec, key, n);
      } else if exists k :: 0 <= k < |init| && codec.keyValue(init[k]).0 == key {
        var k: nat :| LastFor(init, codec, key, k) && key in Fold(data, init, codec)
                      && Fold(data, init, codec)[key] == codec.keyValue(init[k]).1;
        assert LastFor(payloads, codec, key, k) && payloads[k] == init[k];
      } else {
        forall k | 0 <= k < |payloads| ensures codec.keyValue(payloads[k]).0 != key {
          assert k < n ==> payloads[k] == init[k];
        }
      }
    }
  }

  /** A normal entry with data in it. */
  ghost predicate Carries(e: Entry) { e.etype == EntryNormal && e.data.Some? && e.data.value != [] }

  /** `at` are the places of exactly the entries that carry data, and `data` is what they carry. */
  ghost predicate CarriedAt(ents: seq<Entry>, at: seq<nat>, data: seq<seq<byte>>) {
    && |at| == |data|
    && (forall j :: 0 <= j < |at| ==> at[j] < |ents| && Carries(ents[at[j]]) && ents[at[j]].data.value == data[j])
    && (forall i, j :: 0 <= i < j < |at| ==> at[i] < at[j])
    && forall k :: 0 <= k < |ents| && Carries(ents[k]) ==> k in at
  }

  lemma CarriesMore(ents: seq<Entry>, e: Entry, at: seq<nat>, data: seq<seq<byte>>)
    requires CarriedAt(ents, at, data)
    ensures CarriedAt(ents + [e], if Carries(e) then at + [|ents|] else at,
                      if Carries(e) then data + [e.data.value] else data)
  {
    var all, at1 := ents + [e], if Carries(e) then at + [|ents|] else at;
    forall k | 0 <= k < |all| && Carries(all[k]) ensures k in at1 {
      if k == |ents| {
        assert at1[|at|] == k;
      } else {
        assert k in at;
      }
    }
  }

  /** The payloads are the data of exactly those entries, in their order. */
  lemma {:induction false} PayloadsAreData(ents: seq<Entry>) returns (at: seq<nat>)
    ensures CarriedAt(ents, at, Payloads(ents))
  {
    hide CarriedAt;
    at := [];
    if ents == [] {
      NothingCarried();
    } else {
      var n := |ents| - 1;
      at := PayloadsAreData(ents[..n]);
      CarriesMore(ents[..n], ents[n], at, Payloads(ents[..n]));
      assert ents[..n] + [ents[n]] == ents;
      assert Payloads(ents) == Payloads(ents[..n]) + Payload(ents[n]);
      assert Carries(ents[n]) ==> Payload(ents[n]) == [ents[n].data.value];
      assert !Carries(ents[n]) ==> Payloads(ents) == Payloads(ents[..n]);
      if Carries(ents[n]) {
        at := at + [n];
      }
    }
  }

  lemma NothingCarried()
    ensures CarriedAt([], [], [])
  {
  }

  /** The changes are those read from exactly the entries of type ConfChange. */
  lemma {:induction false} ChangesAreRead(ents: seq<Entry>, codec: Codec) returns (at: seq<nat>)
    ensures |at| == |Changes(ents, codec)|
    ensures forall j :: 0 <= j < |at| ==> at[j] < |ents| && ents[at[j]].etype == EntryConfChange
                                          && ReadChange(ents[at[j]].data, codec) == Changes(ents, codec)[j]
    ensures forall i, j :: 0 <= i < j < |at| ==> at[i] < at[j]
    ensures forall k :: 0 <= k < |ents| && ents[k].etype == EntryConfChange ==> k in at
  {
    at := [];
    if ents != [] {
      var n := |ents| - 1;
      at := ChangesAreRead(ents[..n], codec);
      if ents[n].etype == EntryConfChange {
        at := at + [n];
      }
    }
  }

  // ---------------------------------------------------------------------
  // The Ready branch as a function.

  /** `commits` went to the store, `changes` to the node; `stopped` after removal or shutdown. */
  datatype App = App(applied: nat, commits: seq<seq<seq<byte>>>, changes: seq<Wire.ConfChange>, stopped: bool)

  /** A change that removes this very node. */
  predicate RemovesSelf(e: Entry, id: nat, codec: Codec) {
    && e.etype == EntryConfChange
    && ReadChange(e.data, codec).ctype == REMOVE_NODE && ReadChange(e.data, codec).nodeID == id
  }

  /** Number of entries before the first that removes this node. */
  function Survives(ents: seq<Entry>, id: nat, codec: Codec): (n: nat)
    ensures n <= |ents|
    ensures forall k :: 0 <= k < n ==> !RemovesSelf(ents[k], id, codec)
    ensures n < |ents| ==> RemovesSelf(ents[n], id, codec)
  {
    if ents == [] || RemovesSelf(ents[0], id, codec) then 0 else 1 + Survives(ents[1..], id, codec)
  }

  /** entriesToApply: drop what is applied already; None where the source exits on a gap. */
  function ToApply(applied: nat, ents: seq<Entry>): Option<seq<Entry>> {
    if ents == [] then Some([])
    else if ents[0].index > applied + 1 then None
    else
      var done := applied + 1 - ents[0].index;
      Some(if done < |ents| then ents[done..] else [])
  }

  /** publishEntries; `stopNow` says that the stop channel wins the race for the commit channel. */
  function Publish(a: App, ents: seq<Entry>, id: nat, codec: Codec, stopNow: bool): App {
    var n := Survives(ents, id, codec);
    if ents == [] then a
    else if n < |ents| then a.(changes := a.changes + Changes(ents[..n + 1], codec), stopped := true)
    else if Payloads(ents) != [] && stopNow then a.(changes := a.changes + Changes(ents, codec), stopped := true)
    else App(ents[|ents| - 1].index,
             if Payloads(ents) == [] then a.commits else a.commits + [Payloads(ents)],
             a.changes + Changes(ents, codec), false)
  }

  lemma ThenOne<T>(a: seq<T>, b: seq<T>, c: seq<T>)
    ensures (a + b) + c == a + (b + c)
  {
  }

  lemma NoRoutes(peers: map<nat, seq<byte>>, id: nat)
    ensures Routes(peers, [], id) == peers
  {
  }

  lemma NoneYet(codec: Codec)
    ensures Payloads([]) == [] && Changes([], codec) == []
  {
  }

  lemma OneMore(ents: seq<Entry>, i: nat, codec: Codec)
    requires i < |ents|
    ensures Payloads(ents[..i + 1]) == Payloads(ents[..i]) + Payload(ents[i])
    ensures Changes(ents[..i + 1], codec) == Changes(ents[..i], codec) + Changes([ents[i]], codec)
  {
    assert ents[..i + 1] == ents[..i] + [ents[i]];
    ChangesJoin(ents[..i], [ents[i]], codec);
    PayloadsJoin(ents[..i], [ents[i]]);
    assert [ents[i]][..0] == [];
  }

  // ---------------------------------------------------------------------
  // The transport's peers.

  /** The peers that the transport knows after the changes; a node never drops itself. */
  function Routes(peers: map<nat, seq<byte>>, ccs: seq<Wire.ConfChange>, id: nat): map<nat, seq<byte>> {
    if ccs == [] then peers
    else
      var (before, cc) := (Routes(peers, ccs[..|ccs| - 1], id), ccs[|ccs| - 1]);
      if cc.ctype == ADD_NODE && cc.context.Some? && cc.context.value != [] then before[cc.nodeID := cc.context.value]
      else if cc.ctype == REMOVE_NODE && cc.nodeID != id then before - {cc.nodeID}
      else before
  }

  lemma {:induction false} RoutesJoin(peers: map<nat, seq<byte>>, a: seq<Wire.ConfChange>, b: seq<Wire.ConfChange>, id: nat)
    ensures Routes(peers, a + b, id) == Routes(Routes(peers, a, id), b, id)
    decreases |b|
  {
    if b == [] {
      assert a + b == a;
    } else {
      assert (a + b)[..|a + b| - 1] == a + b[..|b| - 1];
      RoutesJoin(peers, a, b[..|b| - 1], id);
    }
  }

  /** The change says something about the route to `v`. */
  ghost predicate Reroutes(cc: Wire.ConfChange, v: nat, id: nat) {
    && cc.nodeID == v
    && ((cc.ctype == ADD_NODE && cc.context.Some? && cc.context.value != []) || (cc.ctype == REMOVE_NODE && v != id))
  }

  ghost predicate LastReroute(ccs: seq<Wire.ConfChange>, v: nat, id: nat, k: nat) {
    k < |ccs| && Reroutes(ccs[k], v, id) && forall j :: k < j < |ccs| ==> !Reroutes(ccs[j], v, id)
  }

  /** The last change about a peer decides: its address, or that there is none. */
  lemma {:induction false} RoutesAreLast(peers: map<nat, seq<byte>>, ccs: seq<Wire.ConfChange>, id: nat, v: nat)
    ensures var r := Routes(peers, ccs, id);
            && (forall k: nat {:trigger LastReroute(ccs, v, id, k)} :: LastReroute(ccs, v, id, k) ==>
                  if ccs[k].ctype == ADD_NODE then v in r && Some(r[v]) == ccs[k].context else v !in r)
            && ((forall k :: 0 <= k < |ccs| ==> !Reroutes(ccs[k], v, id)) ==>
                  (v in r <==> v in peers) && (v in peers ==> r[v] == peers[v]))
  {
    if ccs != [] {
      var n := |ccs| - 1;
      var init := ccs[..n];
      RoutesAreLast(peers, init, id, v);
      if Reroutes(ccs[n], v, id) {
        forall k: nat | LastReroute(ccs, v, id, k) ensures k == n {
        }
      } else {
        forall k: nat | LastReroute(ccs, v, id, k) ensures LastReroute(init, v, id, k) && init[k] == ccs[k] {
        }
        assert forall k :: 0 <= k < |init| ==> init[k] == ccs[k];
      }
    }
  }

  // ---------------------------------------------------------------------
  // The objects.

  class KvNode {
    const id: nat
    const codec: Codec
    const storage: MemoryStorage
    var appliedIndex: nat
    var commits: seq<seq<seq<byte>>>
    var changes: seq<Wire.ConfChange>
    var peers: map<nat, seq<byte>>
    var sent: seq<Message>
    var stopped: bool

    ghost function View(): App reads this { App(appliedIndex, commits, changes, stopped) }

    constructor (id: nat, codec: Codec, storage: MemoryStorage)
      ensures View() == App(0, [], [], false) && peers == map[] && sent == []
      ensures this.id == id && this.codec == codec && this.storage == storage
    {
      this.id, this.codec, this.storage := id, codec, storage;
      appliedIndex, commits, changes, peers, sent, stopped := 0, [], [], map[], [], false;
    }

    /** The unsigned arithmetic of the source: the offset wraps around twice when nothing is applied twice. */
    method EntriesToApply(ents: seq<Entry>) returns (nents: Option<seq<Entry>>)
      requires appliedIndex + 1 < U64 && forall k :: 0 <= k < |ents| ==> ents[k].index < U64
      requires |ents| < U64
      ensures nents == ToApply(appliedIndex, ents)
    {
      if |ents| == 0 {
        return Some(ents);
      }
      var firstIdx := ents[0].index;
      if firstIdx > (appliedIndex + 1) % U64 {
        return None;
      }
      var offset := (appliedIndex - firstIdx + 1) % U64;
      nents := Some([]);
      if offset < |ents| {
        nents := Some(ents[offset..]);
      }
    }

    method UnmarshalChange(data: Option<seq<byte>>) returns (cc: Wire.ConfChange)
      ensures cc == ReadChange(data, codec)
    {
      var r := WireCode.Unmarshal(ConfEntry.Bytes(data), Wire.ChangeW(Wire.NO_CHANGE));
      match r {
        case Ok(w) => cc := w.h;
        case Err(_) => cc := codec.partial(data);
      }
    }

    /** One turn of the loop in publishEntries; false when this node has been removed. */
    method PublishEntry(e: Entry) returns (data: seq<seq<byte>>, ok: bool)
      modifies this`changes, this`peers
      ensures data == Payload(e) && ok == !RemovesSelf(e, id, codec)
      ensures changes == old(changes) + Changes([e], codec) && peers == Routes(old(peers), Changes([e], codec), id)
    {
      assert [e][..0] == [];
      assert Changes([e], codec) == if e.etype == EntryConfChange then [ReadChange(e.data, codec)] else [];
      assert Changes([e], codec) != [] ==> Changes([e], codec)[..0] == [];
      data, ok := [], true;
      if e.etype == EntryNormal {
        if e.data.Some? && |e.data.value| > 0 {
          data := [e.data.value];
        }
      } else if e.etype == EntryConfChange {
        var cc := UnmarshalChange(e.data);
        changes := changes + [cc];
        if cc.ctype == ADD_NODE {
          if |ConfEntry.Bytes(cc.context)| > 0 {
            peers := peers[cc.nodeID := cc.context.value];
          }
        } else if cc.ctype == REMOVE_NODE {
          if cc.nodeID == id {
            return [], false;
          }
          peers := peers - {cc.nodeID};
        }
      }
    }

    method CollectData(ents: seq<Entry>) returns (data: seq<seq<byte>>, ok: bool)
      modifies this`changes, this`peers
      ensures var n := Survives(ents, id, codec);
              && ok == (n == |ents|)
              && (ok ==> data == Payloads(ents) && changes == old(changes) + Changes(ents, codec))
              && (!ok ==> changes == old(changes) + Changes(ents[..n + 1], codec))
      ensures old(changes) <= changes && peers == Routes(old(peers), changes[|old(changes)|..], id)
    {
      hide Survives, Payload, RemovesSelf, ReadChange, Payloads, Changes, Routes;
      data := [];
      var i := 0;
      NoneYet(codec);
      NoRoutes(peers, id);
      while i < |ents|
        invariant 0 <= i <= Survives(ents, id, codec)
        invariant data == Payloads(ents[..i]) && changes == old(changes) + Changes(ents[..i], codec)
        invariant peers == Routes(old(peers), Changes(ents[..i], codec), id)
      {
        OneMore(ents, i, codec);
        RoutesJoin(old(peers), Changes(ents[..i], codec), Changes([ents[i]], codec), id);
        var payload, survives := PublishEntry(ents[i]);
        ThenOne(old(changes), Changes(ents[..i], codec), Changes([ents[i]], codec));
        if !survives {
          return [], false;
        }
        data := data + payload;
        i := i + 1;
      }
      assert ents[..i] == ents;
      ok := true;
    }

    method PublishEntries(ents: seq<Entry>, stopNow: bool) returns (ok: bool)
      requires !stopped
      modifies this
      ensures View() == Publish(old(View()), ents, id, codec, stopNow) && ok == !stopped
      ensures sent == old(sent)
      ensures old(changes) <= changes && peers == Routes(old(peers), changes[|old(changes)|..], id)
    {
      NoRoutes(peers, id);
      if |ents| == 0 {
        return true;
      }
      var data, survives := CollectData(ents);
      if !survives {
        stopped := true;
        return false;
      }
      if |data| > 0 {
        if stopNow {
          stopped := true;
          return false;
        }
        commits := commits + [data];
      }
      appliedIndex := ents[|ents| - 1].index;
      return true;
    }

    /** The Ready branch of serveChannels; `gap` is the exit of entriesToApply. */
    method HandleReady(rd: Ready, stopNow: bool) returns (ok: bool, gap: bool)
      requires !stopped && storage.Valid() && Contiguous(rd.entries, 1)
      requires appliedIndex + 1 < U64 && forall k :: 0 <= k < |rd.committed| ==> rd.committed[k].index < U64
      requires |rd.committed| < U64
      modifies this, storage
      ensures storage.Valid() && sent == old(sent) + rd.messages
      ensures storage.ents == if rd.entries == [] then old(storage.ents) else [DUMMY] + rd.entries
      ensures gap <==> ToApply(old(appliedIndex), rd.committed) == None
      ensures gap ==> View() == old(View())
      ensures !gap ==>
                && View() == Publish(old(View()), ToApply(old(appliedIndex), rd.committed).value, id, codec, stopNow)
                && ok == !stopped
      ensures old(changes) <= changes && peers == Routes(old(peers), changes[|old(changes)|..], id)
    {
      NoRoutes(peers, id);
      AppendCapturesLog(storage.ents, rd.entries);
      storage.Append(rd.entries);
      sent := sent + rd.messages;
      var nents := EntriesToApply(rd.committed);
      if nents.None? {
        return false, true;
      }
      gap := false;
      ok := PublishEntries(nents.value, stopNow);
    }
  }

  class Kvstore {
    var data: map<string, string>

    constructor ()
      ensures data == map[]
    {
      data := map[];
    }

    /** One commit of readCommits. */
    method ReadCommit(commit: seq<seq<byte>>, codec: Codec)
      modifies this
      ensures data == Fold(old(data), commit, codec)
    {
      var i := 0;
      while i < |commit|
        invariant 0 <= i <= |commit|
        invariant data == Fold(old(data), commit[..i], codec)
      {
        assert commit[..i + 1][..i] == commit[..i];
        var (k, v) := codec.keyValue(commit[i]);
        data := data[k := v];
        i := i + 1;
      }
      assert commit[..i] == commit;
    }

    /** readCommits: every commit that came over the channel. */
    method ReadCommits(commits: seq<seq<seq<byte>>>, codec: Codec)
      modifies this
      ensures data == Fold(old(data), Join(commits), codec)
    {
      var i := 0;
      while i < |commits|
        invariant 0 <= i <= |commits|
        invariant data == Fold(old(data), Join(commits[..i]), codec)
      {
        assert commits[..i + 1][..i] == commits[..i];
        FoldJoins(old(data), Join(commits[..i]), commits[i], codec);
        ReadCommit(commits[i], codec);
        i := i + 1;
      }
      assert commits[..i] == commits;
    }
  }

  // ---------------------------------------------------------------------
  // Exactly once, in order.

  /** One Ready's committed entries: `log[lo..hi]`, and whether the stop channel wins its race. */
  datatype Batch = Batch(lo: nat, hi: nat, stopNow: bool)

  /** The Ready branch on a run of the log; a stopped application handles nothing more. */
  function Handle(a: App, log: seq<Entry>, b: Batch, id: nat, codec: Codec): App
    requires b.lo <= b.hi <= |log|
  {
    var es := ToApply(a.applied, log[b.lo..b.hi]);
    if a.stopped || es.None? then a else Publish(a, es.value, id, codec, b.stopNow)
  }

  ghost predicate InRange(log: seq<Entry>, batches: seq<Batch>) {
    forall k :: 0 <= k < |batches| ==> batches[k].lo <= batches[k].hi <= |log|
  }

  function HandleAll(a: App, log: seq<Entry>, batches: seq<Batch>, id: nat, codec: Codec): App
    requires InRange(log, batches)
  {
    if batches == [] then a
    else
      Handle(HandleAll(a, log, batches[..|batches| - 1], id, codec), log, batches[|batches| - 1], id, codec)
  }

  /** Exactly the entries up to `applied` have been published, in order. */
  ghost predicate Published(a: App, log: seq<Entry>, codec: Codec) {
    && a.applied <= |log|
    && Join(a.commits) == Payloads(log[..a.applied])
    && (!a.stopped ==> a.changes == Changes(log[..a.applied], codec))
  }

  /** What is new in a re-delivered run starts right after the applied index. */
  lemma NewPart(log: seq<Entry>, applied: nat, lo: nat, hi: nat)
    requires Contiguous(log, 1) && lo <= hi <= |log| && applied <= |log|
    ensures var es := ToApply(applied, log[lo..hi]);
            && (es.None? <==> lo < hi && lo > applied)
            && (es.Some? ==> es.value == if applied < hi && lo < hi then log[applied..hi] else [])
  {
    var ents := log[lo..hi];
    if ents != [] && lo <= applied {
      assert ents[0].index == lo + 1;
      if applied - lo < |ents| {
        assert ents[applied - lo..] == log[applied..hi];
      }
    }
  }

  lemma PublishAdvances(a: App, log: seq<Entry>, hi: nat, id: nat, codec: Codec, stopNow: bool)
    requires Contiguous(log, 1) && Published(a, log, codec) && !a.stopped && a.applied < hi <= |log|
    ensures var r := Publish(a, log[a.applied..hi], id, codec, stopNow);
            && Published(r, log, codec)
            && r.applied == (if r.stopped then a.applied else hi)
  {
    var es := log[a.applied..hi];
    var r := Publish(a, es, id, codec, stopNow);
    assert es[|es| - 1].index == hi;
    if !r.stopped {
      GoesOn(a, r, log, es, hi, codec);
    }
  }

  lemma GoesOn(a: App, r: App, log: seq<Entry>, es: seq<Entry>, hi: nat, codec: Codec)
    requires Published(a, log, codec) && !a.stopped && a.applied < hi <= |log| && es == log[a.applied..hi]
    requires r == App(hi, if Payloads(es) == [] then a.commits else a.commits + [Payloads(es)],
                      a.changes + Changes(es, codec), false)
    ensures Published(r, log, codec)
  {
    SplitLog(log, a.applied, hi);
    ChangesJoin(log[..a.applied], es, codec);
    PayloadsGoOn(a.commits, log[..a.applied], es);
  }

  lemma SplitLog(log: seq<Entry>, lo: nat, hi: nat)
    requires lo <= hi <= |log|
    ensures log[..lo] + log[lo..hi] == log[..hi]
  {
  }

  lemma PayloadsGoOn(commits: seq<seq<seq<byte>>>, done: seq<Entry>, es: seq<Entry>)
    requires Join(commits) == Payloads(done)
    ensures Join(if Payloads(es) == [] then commits else commits + [Payloads(es)]) == Payloads(done + es)
  {
    PayloadsJoin(done, es);
    JoinOne(commits, Payloads(es));
  }

  lemma JoinOne(commits: seq<seq<seq<byte>>>, data: seq<seq<byte>>)
    ensures Join(commits + [data]) == Join(commits) + data
    ensures data == [] ==> Join(commits) == Join(commits) + data
  {
    assert (commits + [data])[..|commits|] == commits;
  }

  lemma HandleKeeps(a: App, log: seq<Entry>, b: Batch, id: nat, codec: Codec)
    requires Contiguous(log, 1) && Published(a, log, codec) && b.lo <= b.hi <= |log|
    ensures Published(Handle(a, log, b, id, codec), log, codec)
    ensures Handle(a, log, b, id, codec).applied >= a.applied
  {
    NewPart(log, a.applied, b.lo, b.hi);
    if !a.stopped && a.applied < b.hi && b.lo < b.hi && b.lo <= a.applied {
      PublishAdvances(a, log, b.hi, id, codec, b.stopNow);
    }
  }

  /**
   * Over any sequence of Readys that deliver runs of the committed log, again and overlapping, the
   * published payloads are those of the entries 1 to `applied`, each once and in order.
   */
  lemma {:induction false} ExactlyOnce(log: seq<Entry>, batches: seq<Batch>, id: nat, codec: Codec)
    requires Contiguous(log, 1) && InRange(log, batches)
    ensures Published(HandleAll(App(0, [], [], false), log, batches, id, codec), log, codec)
  {
    if batches != [] {
      ExactlyOnce(log, batches[..|batches| - 1], id, codec);
      HandleKeeps(HandleAll(App(0, [], [], false), log, batches[..|batches| - 1], id, codec),
                  log, batches[|batches| - 1], id, codec);
    }
  }

  /** The store that reads those commits holds the fold of the applied prefix of the log. */
  lemma StoreIsFold(log: seq<Entry>, batches: seq<Batch>, id: nat, codec: Codec)
    requires Contiguous(log, 1) && InRange(log, batches)
    ensures var a := HandleAll(App(0, [], [], false), log, batches, id, codec);
            && a.applied <= |log|
            && Fold(map[], Join(a.commits), codec) == Fold(map[], Payloads(log[..a.applied]), codec)
  {
    ExactlyOnce(log, batches, id, codec);
  }

  /** A Ready that starts without a gap and is not interrupted brings the application up to its end. */
  lemma ReadyCatchesUp(a: App, log: seq<Entry>, b: Batch, id: nat, codec: Codec)
    requires Contiguous(log, 1) && Published(a, log, codec) && !a.stopped
    requires b.lo <= a.applied && b.lo < b.hi <= |log| && a.applied < b.hi
    ensures var r := Handle(a, log, b, id, codec);
            r.applied == b.hi <==>
              (forall k :: a.applied <= k < b.hi ==> !RemovesSelf(log[k], id, codec))
              && !(b.stopNow && Payloads(log[a.applied..b.hi]) != [])
  {
    NewPart(log, a.applied, b.lo, b.hi);
    var es := log[a.applied..b.hi];
    PublishAdvances(a, log, b.hi, id, codec, b.stopNow);
    AllSurvive(log, a.applied, b.hi, id, codec);
    assert Handle(a, log, b, id, codec) == Publish(a, es, id, codec, b.stopNow);
    assert Publish(a, es, id, codec, b.stopNow).stopped
           <==> Survives(es, id, codec) < |es| || (Payloads(es) != [] && b.stopNow);
  }

  lemma AllSurvive(log: seq<Entry>, lo: nat, hi: nat, id: nat, codec: Codec)
    requires lo <= hi <= |log|
    ensures Survives(log[lo..hi], id, codec) == hi - lo <==>
              forall k :: lo <= k < hi ==> !RemovesSelf(log[k], id, codec)
  {
    var es := log[lo..hi];
    var n := Survives(es, id, codec);
    if n < |es| {
      assert es[n] == log[lo + n];
    } else {
      forall k | lo <= k < hi ensures !RemovesSelf(log[k], id, codec) {
        assert log[k] == es[k - lo];
      }
    }
  }
}
