/**
 * The per-writer log store of one project database (db/project.js): an
 * IndexedDB `logs` object store keyed by `logEntryKey(publicKey, index)`,
 * an `identities` store, and the update streams that every completed write
 * is reported to.  The object stores are in-memory maps whose operations
 * are atomic; signing, hashing and the canonical `stringify` are
 * uninterpreted functions fixed when the project is opened.
 */
module ProjectLog {
  import opened Wrappers
  import opened EntryKey

  /** A log message; `_log` sets `index`, a remote envelope claims one. */
  datatype Message = Message(project: string, body: string, index: int)

  /** `{message, publicKey, signature}`: what `getEnvelope` hands out. */
  datatype Envelope = Envelope(message: Message, publicKey: string, signature: string)

  /** What the `logs` store holds: the envelope with the digest attached for indexing. */
  datatype Stored = Stored(envelope: Envelope, digest: string)

  datatype Identity = Identity(publicKey: string, secretKey: string)

  /** Values of the `identities` store: identities under their public keys, and the default public key under `'default'`. */
  datatype IdentityValue = IdentityRecord(identity: Identity) | DefaultKey(publicKey: string)

  /** `{publicKey, index}` as written to offer streams; `index` is undefined for the head of an empty range. */
  datatype HeadUpdate = HeadUpdate(publicKey: string, index: Option<int>)

  /**
   * `ConstraintError` for a rejected `add`, `TypeError` for reading a property
   * of `undefined`, `DataError` for an invalid key, `WriteError` for the error
   * an update stream's `write` reports.
   */
  datatype StoreError = ConstraintError | TypeError | DataError | WriteError(message: string)

  /** The first argument of `_log`: the `COMPUTE_DIGEST` token or a mark key. */
  datatype LogKey = ComputeDigest | MarkKey(key: string)

  const DEFAULT_IDENTITY: string := "default"

  // ----- the log head -----

  /** The keys `count(IDBKeyRange.bound(lower, upper))` counts for a writer. */
  function KeysInRange(logs: map<string, Stored>, publicKey: string): set<string> {
    set k | k in logs && InKeyRange(publicKey, k)
  }

  function Count(logs: map<string, Stored>, publicKey: string): nat {
    |KeysInRange(logs, publicKey)|
  }

  /** `getLogHead`: undefined for no entries, otherwise count - 1. */
  function Head(logs: map<string, Stored>, publicKey: string): Option<int> {
    var count := Count(logs, publicKey);
    if count == 0 then None else Some(count - 1)
  }

  /** The head with undefined read as -1, as a replicating peer reads it. */
  function HeadOrMinusOne(logs: map<string, Stored>, publicKey: string): int {
    match Head(logs, publicKey)
    case None => -1
    case Some(h) => h
  }

  /** The keys of entries 0 .. n-1 of a writer's log. */
  ghost function KeysBelow(publicKey: string, n: nat): set<string> {
    set j: int | 0 <= j < n :: LogEntryKey(publicKey, j)
  }

  /** A writer's counted keys are exactly the keys of entries 0 .. count-1: no gaps, nothing else. */
  ghost predicate GapFree(logs: map<string, Stored>, publicKey: string) {
    KeysInRange(logs, publicKey) == KeysBelow(publicKey, Count(logs, publicKey))
  }

  predicate DigestTaken(logs: map<string, Stored>, digest: string) {
    exists k :: k in logs && logs[k].digest == digest
  }

  /**
   * `objectStore('logs').add(value, key)`: refused when the key is present
   * (no overwrite) or when the unique `digest` index already holds the digest.
   */
  function Add(logs: map<string, Stored>, key: string, value: Stored): Result<map<string, Stored>, StoreError> {
    if key in logs || DigestTaken(logs, value.digest) then Failure(ConstraintError)
    else Success(logs[key := value])
  }

  /** Each registered stream with one more update written to it. */
  function Notified(streams: seq<seq<HeadUpdate>>, update: HeadUpdate): (r: seq<seq<HeadUpdate>>)
    ensures |r| == |streams|
    ensures forall i :: 0 <= i < |r| ==> r[i] == streams[i] + [update]
  {
    seq(|streams|, i requires 0 <= i < |streams| => streams[i] + [update])
  }

  /** The public keys the `publicKey` index lists. */
  function PublicKeys(logs: map<string, Stored>): set<string> {
    set k | k in logs :: logs[k].envelope.publicKey
  }

  /** `heads` holds one `{publicKey, head}` pair for every public key in the store, and nothing else. */
  ghost predicate IsCurrentHeads(logs: map<string, Stored>, heads: seq<HeadUpdate>) {
    && (forall i :: 0 <= i < |heads| ==>
          heads[i].publicKey in PublicKeys(logs) && heads[i].index == Head(logs, heads[i].publicKey))
    && (forall pk :: pk in PublicKeys(logs) ==> exists i :: 0 <= i < |heads| && heads[i].publicKey == pk)
    && (forall i, j :: 0 <= i < j < |heads| ==> heads[i].publicKey != heads[j].publicKey)
  }

  // ----- properties of the log head -----

  /** Entries 0 .. head are all present in a gap-free log, and no entry after the head up to `MAX_INDEX` is. */
  lemma GapFreeHead(logs: map<string, Stored>, publicKey: string, i: int)
    requires GapFree(logs, publicKey)
    requires MIN_INDEX <= i <= MAX_INDEX
    ensures LogEntryKey(publicKey, i) in logs <==> i <= HeadOrMinusOne(logs, publicKey)
  {
    var key := LogEntryKey(publicKey, i);
    var count := Count(logs, publicKey);
    if i < count {
      assert key in KeysBelow(publicKey, count);
    } else if key in logs {
      LogEntryKeyInRange(publicKey, i);
      assert key in KeysBelow(publicKey, count);
      var j: int :| 0 <= j < count && key == LogEntryKey(publicKey, j);
      LogEntryKeyInjective(publicKey, i, j);
    }
  }

  /** Adding a key that lies in a writer's range and is not yet stored adds just that key to the counted ones. */
  lemma AddInRange(logs: map<string, Stored>, publicKey: string, key: string, value: Stored)
    requires InKeyRange(publicKey, key) && key !in logs
    ensures KeysInRange(logs[key := value], publicKey) == KeysInRange(logs, publicKey) + {key}
    ensures Count(logs[key := value], publicKey) == Count(logs, publicKey) + 1
  {
    assert KeysInRange(logs[key := value], publicKey) == KeysInRange(logs, publicKey) + {key};
  }

  lemma KeysBelowStep(publicKey: string, n: nat)
    ensures KeysBelow(publicKey, n + 1) == KeysBelow(publicKey, n) + {LogEntryKey(publicKey, n)}
  {
    assert LogEntryKey(publicKey, n) in KeysBelow(publicKey, n + 1);
  }

  /** In a gap-free log, the key of the counted index is not yet stored. */
  lemma NextKeyFree(logs: map<string, Stored>, publicKey: string)
    requires GapFree(logs, publicKey)
    requires Count(logs, publicKey) <= MAX_INDEX
    ensures LogEntryKey(publicKey, Count(logs, publicKey)) !in logs
  {
    GapFreeHead(logs, publicKey, Count(logs, publicKey));
  }

  /**
   * A local append stores at head + 1: on a gap-free log with room below
   * `MAX_INDEX` and a fresh digest, `add` at the counted index succeeds, the
   * log stays gap-free, and the head rises by one.
   */
  lemma AppendKeepsGapFree(logs: map<string, Stored>, publicKey: string, value: Stored)
    requires GapFree(logs, publicKey)
    requires Count(logs, publicKey) <= MAX_INDEX
    requires !DigestTaken(logs, value.digest)
    ensures var key := LogEntryKey(publicKey, Count(logs, publicKey));
      && key !in logs
      && Add(logs, key, value) == Success(logs[key := value])
      && GapFree(logs[key := value], publicKey)
      && Head(logs[key := value], publicKey) == Some(HeadOrMinusOne(logs, publicKey) + 1)
  {
    var count := Count(logs, publicKey);
    var key := LogEntryKey(publicKey, count);
    NextKeyFree(logs, publicKey);
    LogEntryKeyInRange(publicKey, count);
    AddInRange(logs, publicKey, key, value);
    KeysBelowStep(publicKey, count);
  }

  /**
   * A remote put stores under the index the envelope claims, without looking
   * at the head: an entry claimed beyond head + 1 is accepted and leaves the
   * log with a gap.
   */
  lemma PutBeyondHeadOpensGap(logs: map<string, Stored>, publicKey: string, i: int, value: Stored)
    requires GapFree(logs, publicKey)
    requires Count(logs, publicKey) < i <= MAX_INDEX
    requires !DigestTaken(logs, value.digest)
    ensures var key := LogEntryKey(publicKey, i);
      && Add(logs, key, value) == Success(logs[key := value])
      && !GapFree(logs[key := value], publicKey)
  {
    var count := Count(logs, publicKey);
    var key := LogEntryKey(publicKey, i);
    var logs' := logs[key := value];
    GapFreeHead(logs, publicKey, i);
    LogEntryKeyInRange(publicKey, i);
    AddInRange(logs, publicKey, key, value);
    if GapFree(logs', publicKey) {
      assert key in KeysInRange(logs', publicKey);
      assert key in KeysBelow(publicKey, count + 1);
      var j: int :| 0 <= j < count + 1 && key == LogEntryKey(publicKey, j);
      LogEntryKeyInjective(publicKey, i, j);
      assert false;
    }
  }

  /**
   * A second `add` under a key already written is refused, whatever it
   * carries, and the stored value stays: a re-delivered or conflicting
   * envelope yields an error rather than a silent no-op or overwrite.
   */
  lemma SecondAddRefused(logs: map<string, Stored>, key: string, first: Stored, second: Stored)
    requires Add(logs, key, first).Success?
    ensures var logs' := Add(logs, key, first).value;
      && logs'[key] == first
      && Add(logs', key, second) == Failure(ConstraintError)
  {
  }

  /** Writing the same message twice under two keys is refused by the unique digest index. */
  lemma SameDigestRefused(logs: map<string, Stored>, key: string, otherKey: string, value: Stored)
    requires Add(logs, key, value).Success?
    ensures Add(Add(logs, key, value).value, otherKey, value) == Failure(ConstraintError)
  {
    assert Add(logs, key, value).value[key].digest == value.digest;
  }

  /** `getDefaultIdentity` on the `identities` store. */
  function DefaultIdentity(identities: map<string, IdentityValue>): Result<Option<IdentityValue>, StoreError> {
    if DEFAULT_IDENTITY !in identities then Success(None)
    else match identities[DEFAULT_IDENTITY]
      case DefaultKey(publicKey) =>
        Success(if publicKey in identities then Some(identities[publicKey]) else None)
      case IdentityRecord(_) => Failure(DataError)
  }

  /** The `identities` store after `createIdentity(setDefault)` stored `identity`. */
  function WithIdentity(identities: map<string, IdentityValue>, identity: Identity, setDefault: bool): map<string, IdentityValue> {
    var stored := identities[identity.publicKey := IdentityRecord(identity)];
    if setDefault then stored[DEFAULT_IDENTITY := DefaultKey(identity.publicKey)] else stored
  }

  /** After `createIdentity(true)`, `getDefaultIdentity` returns that identity. */
  lemma CreateDefaultThenGet(identities: map<string, IdentityValue>, identity: Identity)
    requires identity.publicKey != DEFAULT_IDENTITY
    ensures DefaultIdentity(WithIdentity(identities, identity, true)) == Success(Some(IdentityRecord(identity)))
  {
  }

  /** With no default recorded, `getDefaultIdentity` returns nothing. */
  lemma NoDefaultGetsNothing(identities: map<string, IdentityValue>)
    requires DEFAULT_IDENTITY !in identities
    ensures DefaultIdentity(identities) == Success(None)
  {
  }

  class Project {
    const stringify: Message -> string
    const hash: string -> string
    const sign: (string, string) -> string

    var logs: map<string, Stored>
    var identities: map<string, IdentityValue>
    /** What has been written to each stream in `_updateStreams`, in registration order. */
    var updateStreams: seq<seq<HeadUpdate>>

    constructor (stringify: Message -> string, hash: string -> string, sign: (string, string) -> string)
      ensures this.stringify == stringify && this.hash == hash && this.sign == sign
      ensures logs == map[] && identities == map[] && updateStreams == []
    {
      this.stringify, this.hash, this.sign := stringify, hash, sign;
      logs, identities, updateStreams := map[], map[], [];
    }

    /** The entry `_log` builds at `index`: signed and digested after the index is set. */
    function Signed(message: Message, identity: Identity, index: int): (s: Stored)
      ensures s.envelope.message == message.(index := index)
      ensures s.envelope.publicKey == identity.publicKey
      ensures s.envelope.signature == sign(stringify(s.envelope.message), identity.secretKey)
      ensures s.digest == hash(stringify(s.envelope.message))
    {
      var indexed := message.(index := index);
      Stored(Envelope(indexed, identity.publicKey, sign(stringify(indexed), identity.secretKey)), hash(stringify(indexed)))
    }

    /** `createIdentity`: stores the identity under its public key, and as the default when asked. */
    method CreateIdentity(setDefault: bool, identity: Identity) returns (created: Identity)
      modifies this
      ensures created == identity
      ensures identities == WithIdentity(old(identities), identity, setDefault)
      ensures logs == old(logs) && updateStreams == old(updateStreams)
    {
      identities := identities[identity.publicKey := IdentityRecord(identity)];
      if setDefault {
        identities := identities[DEFAULT_IDENTITY := DefaultKey(identity.publicKey)];
      }
      created := identity;
    }

    method GetDefaultIdentity() returns (r: Result<Option<IdentityValue>, StoreError>)
      ensures r == DefaultIdentity(identities)
    {
      if DEFAULT_IDENTITY !in identities {
        return Success(None);
      }
      match identities[DEFAULT_IDENTITY]
      case DefaultKey(publicKey) =>
        r := Success(if publicKey in identities then Some(identities[publicKey]) else None);
      case IdentityRecord(_) =>
        r := Failure(DataError);
    }

    method GetLogHead(publicKey: string) returns (head: Option<int>)
      ensures head == Head(logs, publicKey)
      ensures head.None? <==> forall k :: k in logs ==> !InKeyRange(publicKey, k)
    {
      var count := |KeysInRange(logs, publicKey)|;
      if count == 0 {
        head := None;
        forall k | k in logs
          ensures !InKeyRange(publicKey, k)
        {
          assert k !in KeysInRange(logs, publicKey);
        }
      } else {
        head := Some(count - 1);
        assert KeysInRange(logs, publicKey) != {};
        ghost var k :| k in KeysInRange(logs, publicKey);
      }
    }

    /**
     * `_streamUpdate`: writes `{publicKey, index}` to every registered update
     * stream, all of them in parallel, and reports the error a write gives
     * back (`writeError`, the one `runParallel` passes on), if any.  With no
     * stream registered there is no write, so no error.
     */
    method StreamUpdate(publicKey: string, index: int, writeError: Option<string>) returns (r: Outcome<StoreError>)
      modifies this
      ensures updateStreams == Notified(old(updateStreams), HeadUpdate(publicKey, Some(index)))
      ensures logs == old(logs) && identities == old(identities)
      ensures r == if writeError.Some? && |old(updateStreams)| > 0 then Fail(WriteError(writeError.value)) else Pass
    {
      var update := HeadUpdate(publicKey, Some(index));
      var i := 0;
      while i < |updateStreams|
        invariant 0 <= i <= |updateStreams| == |old(updateStreams)|
        invariant forall j :: 0 <= j < i ==> updateStreams[j] == old(updateStreams)[j] + [update]
        invariant forall j :: i <= j < |updateStreams| ==> updateStreams[j] == old(updateStreams)[j]
        invariant logs == old(logs) && identities == old(identities)
      {
        updateStreams := updateStreams[i := updateStreams[i] + [update]];
        i := i + 1;
      }
      r := if writeError.Some? && |updateStreams| > 0 then Fail(WriteError(writeError.value)) else Pass;
    }

    /**
     * `_log`: in one transaction, count the writer's entries, set
     * `message.index` to that count, sign, attach the digest and `add` under
     * `logEntryKey(publicKey, count)`; once the transaction completes, report
     * the new entry to every update stream.  `key` is not used.  A stream
     * write error is reported although the entry is already committed.
     */
    method Log(key: LogKey, message: Message, identity: Identity, writeError: Option<string>)
      returns (r: Result<Stored, StoreError>)
      modifies this
      ensures var count := Count(old(logs), identity.publicKey);
        var entry := Signed(message, identity, count);
        match Add(old(logs), LogEntryKey(identity.publicKey, count), entry)
        case Failure(e) =>
          r == Failure(e) && logs == old(logs) && updateStreams == old(updateStreams)
        case Success(logs') =>
          && r == (if writeError.Some? && |old(updateStreams)| > 0 then Failure(WriteError(writeError.value))
                   else Success(entry))
          && logs == logs'
          && updateStreams == Notified(old(updateStreams), HeadUpdate(identity.publicKey, Some(count)))
      ensures identities == old(identities)
      ensures GapFree(old(logs), identity.publicKey) && Count(old(logs), identity.publicKey) <= MAX_INDEX ==>
        GapFree(logs, identity.publicKey)
    {
      var publicKey := identity.publicKey;
      var count := |KeysInRange(logs, publicKey)|;
      var entry := Signed(message, identity, count);
      var added := Add(logs, LogEntryKey(publicKey, count), entry);
      match added
      case Failure(e) =>
        r := Failure(e);
      case Success(logs') =>
        if GapFree(logs, publicKey) && count <= MAX_INDEX {
          AppendKeepsGapFree(logs, publicKey, entry);
        }
        logs := logs';
        var written := StreamUpdate(publicKey, count, writeError);
        r := if written.Fail? then Failure(written.error) else Success(entry);
    }

    /**
     * `putEnvelope`: attach the digest and `add` under the index the
     * envelope's message claims, with no comparison against the head; once
     * the transaction completes, report it to every update stream, passing
     * on a stream write error although the entry is already committed.
     */
    method PutEnvelope(envelope: Envelope, writeError: Option<string>) returns (r: Outcome<StoreError>)
      modifies this
      ensures var entry := Stored(envelope, hash(stringify(envelope.message)));
        var index := envelope.message.index;
        match Add(old(logs), LogEntryKey(envelope.publicKey, index), entry)
        case Failure(e) =>
          r == Fail(e) && logs == old(logs) && updateStreams == old(updateStreams)
        case Success(logs') =>
          && r == (if writeError.Some? && |old(updateStreams)| > 0 then Fail(WriteError(writeError.value)) else Pass)
          && logs == logs'
          && updateStreams == Notified(old(updateStreams), HeadUpdate(envelope.publicKey, Some(index)))
      ensures identities == old(identities)
    {
      var entry := Stored(envelope, hash(stringify(envelope.message)));
      var index := envelope.message.index;
      var added := Add(logs, LogEntryKey(envelope.publicKey, index), entry);
      match added
      case Failure(e) =>
        r := Fail(e);
      case Success(logs') =>
        logs := logs';
        r := StreamUpdate(envelope.publicKey, index, writeError);
    }

    /** `getEnvelope`: the stored envelope without its digest; a missing entry fails reading `message` of undefined. */
    method GetEnvelope(publicKey: string, index: int) returns (r: Result<Envelope, StoreError>)
      ensures var key := LogEntryKey(publicKey, index);
        if key in logs then r == Success(logs[key].envelope) else r == Failure(TypeError)
    {
      var key := LogEntryKey(publicKey, index);
      if key in logs {
        r := Success(logs[key].envelope);
      } else {
        r := Failure(TypeError);
      }
    }

    /** The `currentHeads` half of the offer stream. */
    static method CurrentHeads(logs: map<string, Stored>) returns (heads: seq<HeadUpdate>)
      ensures IsCurrentHeads(logs, heads)
      ensures |heads| == |PublicKeys(logs)|
    {
      var remaining := PublicKeys(logs);
      heads := [];
      while remaining != {}
        invariant remaining <= PublicKeys(logs)
        invariant |heads| + |remaining| == |PublicKeys(logs)|
        invariant forall i :: 0 <= i < |heads| ==>
          heads[i].publicKey in PublicKeys(logs) - remaining && heads[i].index == Head(logs, heads[i].publicKey)
        invariant forall pk :: pk in PublicKeys(logs) - remaining ==>
          exists i :: 0 <= i < |heads| && heads[i].publicKey == pk
        invariant forall i, j :: 0 <= i < j < |heads| ==> heads[i].publicKey != heads[j].publicKey
        decreases remaining
      {
        var pk :| pk in remaining;
        ghost var before, remaining0 := heads, remaining;
        heads := heads + [HeadUpdate(pk, Head(logs, pk))];
        remaining := remaining - {pk};
        forall q | q in PublicKeys(logs) - remaining
          ensures exists i :: 0 <= i < |heads| && heads[i].publicKey == q
        {
          if q == pk {
            assert heads[|before|].publicKey == q;
          } else {
            assert q in PublicKeys(logs) - remaining0;
            var i :| 0 <= i < |before| && before[i].publicKey == q;
            assert heads[i].publicKey == q;
          }
        }
      }
      assert PublicKeys(logs) - remaining == PublicKeys(logs);
    }

    /**
     * `createOfferStream`: the current head of every log, followed by what
     * is later written to a newly registered update stream (the stream's
     * position in `updateStreams` is returned).
     */
    method CreateOfferStream() returns (heads: seq<HeadUpdate>, stream: nat)
      modifies this
      ensures IsCurrentHeads(logs, heads)
      ensures stream == |old(updateStreams)| && updateStreams == old(updateStreams) + [[]]
      ensures logs == old(logs) && identities == old(identities)
    {
      heads := CurrentHeads(logs);
      stream := |updateStreams|;
      updateStreams := updateStreams + [[]];
    }
  }
}
