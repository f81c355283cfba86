/**
 * The swarm registry of net/peer.js: one record per joined project,
 * holding the discovery key and the ids of the peers connected through it.
 * Joining is idempotent per discovery key, a peer id connected in any swarm
 * is refused everywhere, leaving removes the one matching record and
 * `countPeers` sums the per-swarm counts.
 *
 * The registry functions below describe the registry as the code evidently
 * intends it (the record's own peer set is the one the `peer` and `end`
 * handlers update); `AcceptAsWritten` models the handler as written, where
 * those updates go to the swarm library's object instead, whose Array has no
 * `add`.
 */
module Peer {

  datatype SwarmRecord = SwarmRecord(discoveryKey: string, peers: set<string>)

  /** `swarms.findIndex(...)` on the discovery key: the first matching record, or -1. */
  function FindIndex(swarms: seq<SwarmRecord>, discoveryKey: string): (i: int)
    ensures -1 <= i < |swarms|
    ensures i >= 0 ==> swarms[i].discoveryKey == discoveryKey
    ensures i >= 0 ==> forall j :: 0 <= j < i ==> swarms[j].discoveryKey != discoveryKey
    ensures i == -1 <==> forall j :: 0 <= j < |swarms| ==> swarms[j].discoveryKey != discoveryKey
  {
    if swarms == [] then -1
    else if swarms[0].discoveryKey == discoveryKey then 0
    else
      var i := FindIndex(swarms[1..], discoveryKey);
      if i == -1 then -1 else i + 1
  }

  /** `swarms.some(swarm => swarm.peers.has(id))`. */
  predicate Connected(swarms: seq<SwarmRecord>, id: string) {
    exists j :: 0 <= j < |swarms| && id in swarms[j].peers
  }

  /** One record per discovery key, and no peer id in two records. */
  ghost predicate Wellformed(swarms: seq<SwarmRecord>) {
    && (forall i, j :: 0 <= i < j < |swarms| ==> swarms[i].discoveryKey != swarms[j].discoveryKey)
    && (forall i, j :: 0 <= i < j < |swarms| ==> swarms[i].peers !! swarms[j].peers)
  }

  /** `joinSwarm`: nothing when the key is already joined, otherwise a new record with no peers. */
  function Join(swarms: seq<SwarmRecord>, discoveryKey: string): seq<SwarmRecord> {
    if FindIndex(swarms, discoveryKey) != -1 then swarms else swarms + [SwarmRecord(discoveryKey, {})]
  }

  /** The `peer` handler of the swarm joined under `discoveryKey`: refuse an id connected anywhere, else record it. */
  function Accept(swarms: seq<SwarmRecord>, discoveryKey: string, id: string): seq<SwarmRecord> {
    var i := FindIndex(swarms, discoveryKey);
    if Connected(swarms, id) || i == -1 then swarms
    else swarms[i := swarms[i].(peers := swarms[i].peers + {id})]
  }

  /** The `end` handler of a replication stream: forget the id in its swarm. */
  function End(swarms: seq<SwarmRecord>, discoveryKey: string, id: string): seq<SwarmRecord> {
    var i := FindIndex(swarms, discoveryKey);
    if i == -1 then swarms else swarms[i := swarms[i].(peers := swarms[i].peers - {id})]
  }

  /** `leaveSwarm`: splice out the first record with the key, if there is one. */
  function Leave(swarms: seq<SwarmRecord>, discoveryKey: string): seq<SwarmRecord> {
    var i := FindIndex(swarms, discoveryKey);
    if i == -1 then swarms else swarms[..i] + swarms[i + 1..]
  }

  /** `countPeers`: the sum of the per-swarm peer counts. */
  function CountPeers(swarms: seq<SwarmRecord>): nat {
    if swarms == [] then 0 else |swarms[0].peers| + CountPeers(swarms[1..])
  }

  /** Every record whose key is not `discoveryKey`, in order. */
  ghost function Without(swarms: seq<SwarmRecord>, discoveryKey: string): seq<SwarmRecord> {
    if swarms == [] then []
    else if swarms[0].discoveryKey == discoveryKey then Without(swarms[1..], discoveryKey)
    else [swarms[0]] + Without(swarms[1..], discoveryKey)
  }

  /** The ids connected through any swarm. */
  ghost function AllPeers(swarms: seq<SwarmRecord>): set<string> {
    if swarms == [] then {} else swarms[0].peers + AllPeers(swarms[1..])
  }

  // ----- joinSwarm -----

  /** Joining twice is joining once; afterwards the key has a record, and the registry stays well formed. */
  lemma JoinSpec(swarms: seq<SwarmRecord>, discoveryKey: string)
    requires Wellformed(swarms)
    ensures Join(Join(swarms, discoveryKey), discoveryKey) == Join(swarms, discoveryKey)
    ensures FindIndex(Join(swarms, discoveryKey), discoveryKey) != -1
    ensures Wellformed(Join(swarms, discoveryKey))
    ensures CountPeers(Join(swarms, discoveryKey)) == CountPeers(swarms)
  {
    var r := Join(swarms, discoveryKey);
    if FindIndex(swarms, discoveryKey) == -1 {
      assert r[|swarms|].discoveryKey == discoveryKey;
      CountConcat(swarms, [SwarmRecord(discoveryKey, {})]);
      assert CountPeers([SwarmRecord(discoveryKey, {})]) == 0 by {
        assert [SwarmRecord(discoveryKey, {})][1..] == [];
      }
    }
  }

  // ----- the peer handler -----

  /** A peer id already connected through any swarm, whatever its key, is refused. */
  lemma AcceptRefusesConnected(swarms: seq<SwarmRecord>, discoveryKey: string, id: string, j: nat)
    requires j < |swarms| && id in swarms[j].peers
    ensures Accept(swarms, discoveryKey, id) == swarms
  {
  }

  /**
   * Accepting a new id on a joined swarm puts it in exactly that record,
   * keeps the registry well formed and raises the count by one.
   */
  lemma AcceptSpec(swarms: seq<SwarmRecord>, discoveryKey: string, id: string)
    requires Wellformed(swarms)
    requires !Connected(swarms, id) && FindIndex(swarms, discoveryKey) != -1
    ensures var r := Accept(swarms, discoveryKey, id);
      && Wellformed(r)
      && |r| == |swarms|
      && (forall j :: 0 <= j < |r| ==> r[j].discoveryKey == swarms[j].discoveryKey)
      && (forall j :: 0 <= j < |r| ==> (id in r[j].peers <==> r[j].discoveryKey == discoveryKey))
      && CountPeers(r) == CountPeers(swarms) + 1
  {
    var i := FindIndex(swarms, discoveryKey);
    var r := Accept(swarms, discoveryKey, id);
    assert id !in swarms[i].peers;
    CountUpdate(swarms, i, swarms[i].peers + {id});
  }

  /** A replication stream that ends removes what its acceptance added. */
  lemma {:induction false} AcceptThenEnd(swarms: seq<SwarmRecord>, discoveryKey: string, id: string)
    requires !Connected(swarms, id)
    ensures End(Accept(swarms, discoveryKey, id), discoveryKey, id) == swarms
  {
    var i := FindIndex(swarms, discoveryKey);
    if i != -1 {
      var r := Accept(swarms, discoveryKey, id);
      assert FindIndex(r, discoveryKey) == i by {
        assert forall j :: 0 <= j < |r| ==> r[j].discoveryKey == swarms[j].discoveryKey;
      }
      assert id !in swarms[i].peers;
      assert swarms[i].peers + {id} - {id} == swarms[i].peers;
    }
  }

  /** After its stream ends, an id accepted in a well-formed registry is connected nowhere. */
  lemma EndDisconnects(swarms: seq<SwarmRecord>, discoveryKey: string, id: string)
    requires Wellformed(swarms)
    requires var i := FindIndex(swarms, discoveryKey); i != -1 && id in swarms[i].peers
    ensures Wellformed(End(swarms, discoveryKey, id))
    ensures !Connected(End(swarms, discoveryKey, id), id)
  {
    var i := FindIndex(swarms, discoveryKey);
    var r := End(swarms, discoveryKey, id);
    forall j | 0 <= j < |r|
      ensures id !in r[j].peers
    {
      if j != i {
        assert swarms[i].peers !! swarms[j].peers by {
          if j < i {} else {}
        }
      }
    }
  }

  // ----- leaveSwarm -----

  /** In a well-formed registry, leaving removes the record of that key and keeps every other in order. */
  lemma LeaveSpec(swarms: seq<SwarmRecord>, discoveryKey: string)
    requires Wellformed(swarms)
    ensures Leave(swarms, discoveryKey) == Without(swarms, discoveryKey)
    ensures Wellformed(Leave(swarms, discoveryKey))
  {
    var i := FindIndex(swarms, discoveryKey);
    if i == -1 {
      WithoutAbsent(swarms, discoveryKey);
    } else {
      WithoutSplit(swarms, i, discoveryKey);
      KeyOnlyOnce(swarms, i, swarms[i + 1..]);
      WithoutAbsent(swarms[i + 1..], discoveryKey);
      WithoutAbsent(swarms[..i], discoveryKey);
      RemoveKeepsWellformed(swarms, i);
    }
  }

  /** In a well-formed registry no record after one with a key has that key again. */
  lemma KeyOnlyOnce(swarms: seq<SwarmRecord>, i: nat, after: seq<SwarmRecord>)
    requires Wellformed(swarms) && i < |swarms| && after == swarms[i + 1..]
    ensures forall j :: 0 <= j < |after| ==> after[j].discoveryKey != swarms[i].discoveryKey
  {
    forall j | 0 <= j < |after|
      ensures after[j].discoveryKey != swarms[i].discoveryKey
    {
      assert after[j] == swarms[i + 1 + j];
    }
  }

  lemma RemoveKeepsWellformed(swarms: seq<SwarmRecord>, i: nat)
    requires Wellformed(swarms) && i < |swarms|
    ensures Wellformed(swarms[..i] + swarms[i + 1..])
  {
    var r := swarms[..i] + swarms[i + 1..];
    assert forall j :: 0 <= j < |r| ==> r[j] == swarms[if j < i then j else j + 1];
  }

  /** Leaving a key that has no record changes nothing. */
  lemma {:induction false} WithoutAbsent(swarms: seq<SwarmRecord>, discoveryKey: string)
    requires forall j :: 0 <= j < |swarms| ==> swarms[j].discoveryKey != discoveryKey
    ensures Without(swarms, discoveryKey) == swarms
  {
    if swarms != [] {
      WithoutAbsent(swarms[1..], discoveryKey);
    }
  }

  lemma {:induction false} WithoutSplit(swarms: seq<SwarmRecord>, i: nat, discoveryKey: string)
    requires i < |swarms| && swarms[i].discoveryKey == discoveryKey
    ensures Without(swarms, discoveryKey) ==
      Without(swarms[..i], discoveryKey) + Without(swarms[i + 1..], discoveryKey)
  {
    if i > 0 {
      WithoutSplit(swarms[1..], i - 1, discoveryKey);
      assert swarms[1..][..i - 1] == swarms[..i][1..];
      assert swarms[1..][i..] == swarms[i + 1..];
    } else {
      assert swarms[..0] == [];
    }
  }

  // ----- countPeers -----

  lemma {:induction false} CountConcat(a: seq<SwarmRecord>, b: seq<SwarmRecord>)
    ensures CountPeers(a + b) == CountPeers(a) + CountPeers(b)
  {
    if a == [] {
      assert a + b == b;
    } else {
      assert (a + b)[1..] == a[1..] + b;
      CountConcat(a[1..], b);
    }
  }

  /** Replacing one record's peers changes the count by the difference of the two sizes. */
  lemma CountUpdate(swarms: seq<SwarmRecord>, i: nat, peers: set<string>)
    requires i < |swarms|
    ensures CountPeers(swarms[i := swarms[i].(peers := peers)]) == CountPeers(swarms) - |swarms[i].peers| + |peers|
  {
    var r := swarms[i := swarms[i].(peers := peers)];
    assert swarms == swarms[..i] + [swarms[i]] + swarms[i + 1..];
    assert r == swarms[..i] + [r[i]] + swarms[i + 1..];
    CountConcat(swarms[..i] + [swarms[i]], swarms[i + 1..]);
    CountConcat(swarms[..i], [swarms[i]]);
    CountConcat(swarms[..i] + [r[i]], swarms[i + 1..]);
    CountConcat(swarms[..i], [r[i]]);
    assert [swarms[i]][1..] == [] && [r[i]][1..] == [];
  }

  /** With no id in two records, the count is the number of distinct connected peers; an empty registry counts 0. */
  lemma {:induction false} CountIsConnectedPeers(swarms: seq<SwarmRecord>)
    requires Wellformed(swarms)
    ensures CountPeers(swarms) == |AllPeers(swarms)|
    ensures forall id :: id in AllPeers(swarms) <==> Connected(swarms, id)
  {
    if swarms != [] {
      var rest := swarms[1..];
      assert Wellformed(rest) by {
        assert forall i, j :: 0 <= i < j < |rest| ==> rest[i] == swarms[i + 1] && rest[j] == swarms[j + 1];
      }
      CountIsConnectedPeers(rest);
      forall id | id in AllPeers(rest)
        ensures id !in swarms[0].peers
      {
        var j :| 0 <= j < |rest| && id in rest[j].peers;
        assert swarms[0].peers !! swarms[j + 1].peers;
      }
      forall id | Connected(swarms, id)
        ensures id in AllPeers(swarms)
      {
        var j :| 0 <= j < |swarms| && id in swarms[j].peers;
        if j > 0 {
          assert id in rest[j - 1].peers;
        }
      }
      forall id | id in AllPeers(rest)
        ensures Connected(swarms, id)
      {
        var j :| 0 <= j < |rest| && id in rest[j].peers;
        assert id in swarms[j + 1].peers;
      }
    }
  }

  // ----- the registry as an object -----

  /** The module-level `swarms` array. */
  class SwarmRegistry {
    var swarms: seq<SwarmRecord>

    ghost predicate Valid()
      reads this
    {
      Wellformed(swarms)
    }

    constructor ()
      ensures Valid() && swarms == []
    {
      swarms := [];
    }

    /** `joinSwarm`, with the library calls completed before the next call starts. */
    method JoinSwarm(discoveryKey: string)
      requires Valid()
      modifies this
      ensures Valid()
      ensures swarms == Join(old(swarms), discoveryKey)
    {
      JoinSpec(swarms, discoveryKey);
      var alreadyJoined := FindIndex(swarms, discoveryKey) != -1;
      if alreadyJoined {
        return;
      }
      swarms := swarms + [SwarmRecord(discoveryKey, {})];
    }

    /** The `peer` handler; `accepted` says whether a replication stream is started for the peer. */
    method AcceptPeer(discoveryKey: string, id: string) returns (accepted: bool)
      requires Valid()
      modifies this
      ensures Valid()
      ensures accepted == !Connected(old(swarms), id)
      ensures swarms == Accept(old(swarms), discoveryKey, id)
    {
      if Connected(swarms, id) {
        return false;
      }
      var i := FindIndex(swarms, discoveryKey);
      if i != -1 {
        AcceptSpec(swarms, discoveryKey, id);
        swarms := swarms[i := swarms[i].(peers := swarms[i].peers + {id})];
      }
      accepted := true;
    }

    /** The `end` handler of the peer's replication stream. */
    method EndPeer(discoveryKey: string, id: string)
      requires Valid()
      modifies this
      ensures Valid()
      ensures swarms == End(old(swarms), discoveryKey, id)
    {
      var i := FindIndex(swarms, discoveryKey);
      if i != -1 {
        swarms := swarms[i := swarms[i].(peers := swarms[i].peers - {id})];
        assert forall j :: 0 <= j < |swarms| ==> swarms[j].peers <= old(swarms)[j].peers;
      }
    }

    /** `leaveSwarm`. */
    method LeaveSwarm(discoveryKey: string)
      requires Valid()
      modifies this
      ensures Valid()
      ensures swarms == Leave(old(swarms), discoveryKey)
    {
      LeaveSpec(swarms, discoveryKey);
      var index := FindIndex(swarms, discoveryKey);
      if index != -1 {
        swarms := swarms[..index] + swarms[index + 1..];
      }
    }
  }

  // ----- the peer handler as written -----

  /**
   * A registry record as net/peer.js builds it, with its own `peers` Set,
   * which the dedup check reads.  The swarm library's object is not part of
   * this model; its `peers` collection is taken to be the Array that
   * `countPeers` reads `.length` of, so it has no `add` method.
   */
  datatype WrittenRecord = WrittenRecord(discoveryKey: string, peers: set<string>)

  /** A replication stream piped to a peer, through the swarm of record `swarm`. */
  datatype Stream = Stream(swarm: nat, id: string)

  /** The records and the replication streams started so far. */
  datatype WrittenState = WrittenState(records: seq<WrittenRecord>, streams: seq<Stream>)

  /** What one run of the `peer` handler leaves, and whether it ended in a TypeError. */
  datatype WrittenOutcome = WrittenOutcome(state: WrittenState, threw: bool)

  /**
   * The `peer` handler of record `i` as written: dedup on the records' Sets;
   * otherwise start and pipe a replication stream, then throw a TypeError
   * calling `add` on the library's Array.  The records are never written.
   */
  function AcceptAsWritten(s: WrittenState, i: nat, id: string): (r: WrittenOutcome)
    requires i < |s.records|
    ensures r.state.records == s.records
    ensures r.threw <==> r.state.streams != s.streams
  {
    if exists j :: 0 <= j < |s.records| && id in s.records[j].peers then WrittenOutcome(s, false)
    else WrittenOutcome(WrittenState(s.records, s.streams + [Stream(i, id)]), true)
  }

  /** The records' own Sets start empty and the handler never fills them, so the dedup check never refuses. */
  lemma AsWrittenNeverDeduplicates(s: WrittenState, i: nat, id: string)
    requires i < |s.records|
    requires forall j :: 0 <= j < |s.records| ==> s.records[j].peers == {}
    ensures var r := AcceptAsWritten(s, i, id);
      && r.threw
      && r.state.streams == s.streams + [Stream(i, id)]
      && (forall j :: 0 <= j < |r.state.records| ==> r.state.records[j].peers == {})
  {
  }

  /** The same peer id gets a replication stream from two swarms, and each handler then throws. */
  lemma AsWrittenAcceptsTwice()
    ensures var start := WrittenState([WrittenRecord("a", {}), WrittenRecord("b", {})], []);
      var first := AcceptAsWritten(start, 0, "p");
      var second := AcceptAsWritten(first.state, 1, "p");
      && first.threw && second.threw
      && second.state.streams == [Stream(0, "p"), Stream(1, "p")]
  {
    var start := WrittenState([WrittenRecord("a", {}), WrittenRecord("b", {})], []);
    AsWrittenNeverDeduplicates(start, 0, "p");
    AsWrittenNeverDeduplicates(AcceptAsWritten(start, 0, "p").state, 1, "p");
  }
}
