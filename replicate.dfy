/**
 * One replication session (client/net/replicate.js): a handshake is sent
 * when the session is created; the first handshake received subscribes the
 * session to local envelope notifications and offers the head of every
 * local log; an offer from the peer is answered with requests for every
 * index after the local head up to the offered one; a request is answered
 * with the stored envelope, or not at all; a received envelope is stored
 * only when it validates.
 *
 * The database, the page bus and the protocol encoder are collaborators the
 * session calls: their answers are parameters of the handlers, and what the
 * session sends, stores or unsubscribes is recorded in fields.
 */
module Replicate {
  import opened Wrappers

  /** An outer envelope as it travels between peers. */
  datatype WireEnvelope = WireEnvelope(logPublicKey: string, index: int, ciphertext: string, nonce: string)

  /** What the session writes to the protocol, in order. */
  datatype Wire =
    | Handshake
    | Offer(logPublicKey: string, head: Option<int>)
    | Request(logPublicKey: string, index: int)
    | SendEnvelope(envelope: WireEnvelope)

  /** One answer of `database.getLogHead` during the handshake listing. */
  datatype HeadAnswer = HeadAnswer(logPublicKey: string, head: Result<Option<int>, string>)

  /** An `envelope` event of the page bus. */
  datatype Notice = Notice(discoveryKey: string, logPublicKey: string, index: Option<int>)

  /** A database entry as `getEntry` yields it. */
  datatype Entry = Entry(envelope: WireEnvelope)

  // ----- inclusiveRange -----

  /** The integers `low, low + 1, ..., high`; empty when `low > high`. */
  function Interval(low: int, high: int): (r: seq<int>)
    ensures low > high <==> r == []
    decreases high - low
  {
    if low > high then [] else [low] + Interval(low + 1, high)
  }

  lemma {:induction false} IntervalShape(low: int, high: int)
    requires low <= high
    ensures |Interval(low, high)| == high - low + 1
    ensures forall k :: 0 <= k < |Interval(low, high)| ==> Interval(low, high)[k] == low + k
    decreases high - low
  {
    if low < high {
      IntervalShape(low + 1, high);
    }
  }

  /** The interval holds exactly the integers between its bounds, in ascending order. */
  lemma IntervalMembers(low: int, high: int)
    ensures forall x :: x in Interval(low, high) <==> low <= x <= high
    ensures forall i, j :: 0 <= i < j < |Interval(low, high)| ==> Interval(low, high)[i] < Interval(low, high)[j]
  {
    if low <= high {
      IntervalShape(low, high);
      forall x | low <= x <= high
        ensures x in Interval(low, high)
      {
        assert Interval(low, high)[x - low] == x;
      }
    }
  }

  /** `inclusiveRange`: an early answer for `low > high` and `low == high`, otherwise a counting loop. */
  method InclusiveRange(low: int, high: int) returns (r: seq<int>)
    ensures r == Interval(low, high)
    ensures low > high ==> r == []
    ensures low <= high ==> |r| == high - low + 1 && forall k :: 0 <= k < |r| ==> r[k] == low + k
  {
    if low > high {
      return [];
    }
    IntervalShape(low, high);
    if low == high {
      return [low];
    }
    r := [];
    var index := low;
    while index <= high
      invariant low <= index <= high + 1
      invariant |r| == index - low
      invariant forall k :: 0 <= k < |r| ==> r[k] == low + k
    {
      r := r + [index];
      index := index + 1;
    }
  }

  // ----- the offer handler's arithmetic -----

  /**
   * The indexes requested for an offer: from the local head plus one (a
   * missing head counts as -1) up to the offered index; an offer without
   * an index compares false with everything and yields nothing.
   */
  function OfferedIndexes(head: Option<int>, offered: Option<int>): seq<int> {
    var low := if head.None? then 0 else head.value + 1;
    match offered
    case None => []
    case Some(high) => Interval(low, high)
  }

  /** Exactly the entries after the head up to the offered index are requested, ascending, and none once the head reaches the offer. */
  lemma OfferedIndexesSpec(head: Option<int>, offered: int)
    ensures var h := if head.None? then -1 else head.value;
      var r := OfferedIndexes(head, Some(offered));
      && (h >= offered <==> r == [])
      && (h < offered ==> |r| == offered - h && forall k :: 0 <= k < |r| ==> r[k] == h + 1 + k)
  {
    var h := if head.None? then -1 else head.value;
    if h < offered {
      IntervalShape(h + 1, offered);
    }
  }

  function Requests(logPublicKey: string, indexes: seq<int>): (r: seq<Wire>)
    ensures |r| == |indexes| && forall k :: 0 <= k < |r| ==> r[k] == Request(logPublicKey, indexes[k])
  {
    seq(|indexes|, k requires 0 <= k < |indexes| => Request(logPublicKey, indexes[k]))
  }

  /** The offers made for the handshake listing: one per head that was read, in listing order. */
  function HeadOffers(answers: seq<HeadAnswer>): (r: seq<Wire>)
    ensures |r| <= |answers|
    ensures forall k :: 0 <= k < |r| ==> r[k].Offer?
  {
    if answers == [] then []
    else
      var rest := HeadOffers(answers[1..]);
      match answers[0].head
      case Failure(_) => rest
      case Success(h) => [Offer(answers[0].logPublicKey, h)] + rest
  }

  /** When every head was read, every listed log is offered in order with its head. */
  lemma {:induction false} HeadOffersAllRead(answers: seq<HeadAnswer>)
    requires forall k :: 0 <= k < |answers| ==> answers[k].head.Success?
    ensures |HeadOffers(answers)| == |answers|
    ensures forall k :: 0 <= k < |answers| ==>
      HeadOffers(answers)[k] == Offer(answers[k].logPublicKey, answers[k].head.value)
  {
    if answers != [] {
      HeadOffersAllRead(answers[1..]);
    }
  }

  /** A log whose head could not be read is not offered. */
  lemma {:induction false} HeadOffersSkipFailures(answers: seq<HeadAnswer>, k: nat)
    requires k < |answers| && answers[k].head.Failure?
    requires forall j :: 0 <= j < |answers| && j != k ==> answers[j].logPublicKey != answers[k].logPublicKey
    ensures forall m :: m in HeadOffers(answers) ==> m.Offer? && m.logPublicKey != answers[k].logPublicKey
  {
    if k > 0 {
      HeadOffersSkipFailures(answers[1..], k - 1);
    } else {
      HeadOffersFrom(answers[1..], answers[0].logPublicKey);
    }
  }

  lemma {:induction false} HeadOffersFrom(answers: seq<HeadAnswer>, publicKey: string)
    requires forall j :: 0 <= j < |answers| ==> answers[j].logPublicKey != publicKey
    ensures forall m :: m in HeadOffers(answers) ==> m.Offer? && m.logPublicKey != publicKey
  {
    if answers != [] {
      HeadOffersFrom(answers[1..], publicKey);
    }
  }

  /** What the handshake handler offers for the result of `listLogs`. */
  function ListingOffers(listing: Result<seq<HeadAnswer>, string>): seq<Wire> {
    match listing
    case Failure(_) => []
    case Success(answers) => HeadOffers(answers)
  }

  predicate NoOffers(sent: seq<Wire>) {
    forall i :: 0 <= i < |sent| ==> !sent[i].Offer?
  }

  class Session {
    /** The project's discovery key, compared with every page-bus notice. */
    const discoveryKey: string
    /** `crypto.validateEnvelope` with the session's project key and encryption key: the list of errors. */
    const validate: WireEnvelope -> seq<string>
    /** `crypto.decryptJSON` with the session's encryption key. */
    const decrypt: (string, string) -> string

    var handshakeReceived: bool
    /** The page-bus `envelope` listener is registered. */
    var subscribed: bool
    var listeningToDatabase: bool
    /** Everything written to the protocol. */
    var sent: seq<Wire>
    /** The `(envelope, entry)` pairs passed to `database.putEnvelope`. */
    var puts: seq<(WireEnvelope, string)>
    /** Calls of `database.removeListener('envelope', onEnvelope)`. */
    var unsubscribeCalls: nat

    /**
     * A handshake was sent first and never again; subscription happens
     * exactly when the handshake has been received, and no offer precedes it.
     */
    ghost predicate Valid()
      reads this
    {
      && |sent| > 0 && sent[0] == Handshake
      && (forall i :: 0 < i < |sent| ==> sent[i] != Handshake)
      && subscribed == handshakeReceived
      && listeningToDatabase == handshakeReceived
      && (!handshakeReceived ==> NoOffers(sent))
    }

    /** Set up the handlers, then extend the handshake. */
    constructor (discoveryKey: string, validate: WireEnvelope -> seq<string>, decrypt: (string, string) -> string)
      ensures Valid()
      ensures this.discoveryKey == discoveryKey && this.validate == validate && this.decrypt == decrypt
      ensures !handshakeReceived && !subscribed && !listeningToDatabase
      ensures sent == [Handshake] && puts == [] && unsubscribeCalls == 0
    {
      this.discoveryKey := discoveryKey;
      this.validate := validate;
      this.decrypt := decrypt;
      handshakeReceived := false;
      subscribed := false;
      listeningToDatabase := false;
      sent := [Handshake];
      puts := [];
      unsubscribeCalls := 0;
    }

    /**
     * The `handshake` handler, registered with `once`: the first handshake
     * subscribes to the page bus and offers every head `listLogs` and
     * `getLogHead` produce; later handshakes do nothing.
     */
    method OnHandshake(listing: Result<seq<HeadAnswer>, string>)
      requires Valid()
      modifies this
      ensures Valid()
      ensures old(handshakeReceived) ==>
        sent == old(sent) && subscribed == old(subscribed) && listeningToDatabase == old(listeningToDatabase)
      ensures !old(handshakeReceived) ==>
        handshakeReceived && subscribed && listeningToDatabase && sent == old(sent) + ListingOffers(listing)
      ensures handshakeReceived && puts == old(puts) && unsubscribeCalls == old(unsubscribeCalls)
    {
      if handshakeReceived {
        return;
      }
      handshakeReceived := true;
      subscribed := true;
      listeningToDatabase := true;
      var offers := ListingOffers(listing);
      assert forall k :: 0 <= k < |offers| ==> offers[k].Offer?;
      sent := sent + offers;
    }

    /** `onEnvelope`: offer a locally stored envelope, but only one of this session's project. */
    method OnNotice(notice: Notice)
      requires Valid()
      modifies this
      ensures Valid()
      ensures subscribed && notice.discoveryKey == discoveryKey ==>
        sent == old(sent) + [Offer(notice.logPublicKey, notice.index)]
      ensures !subscribed || notice.discoveryKey != discoveryKey ==> sent == old(sent)
      ensures handshakeReceived == old(handshakeReceived) && subscribed == old(subscribed)
      ensures listeningToDatabase == old(listeningToDatabase)
      ensures puts == old(puts) && unsubscribeCalls == old(unsubscribeCalls)
    {
      if !subscribed || notice.discoveryKey != discoveryKey {
        return;
      }
      sent := sent + [Offer(notice.logPublicKey, notice.index)];
    }

    /** The `request` handler: send the stored envelope; a failed read or a missing entry gets no reply. */
    method OnRequest(logPublicKey: string, index: int, answer: Result<Option<Entry>, string>)
      requires Valid()
      modifies this
      ensures Valid()
      ensures answer.Success? && answer.value.Some? ==>
        sent == old(sent) + [SendEnvelope(answer.value.value.envelope)]
      ensures answer.Failure? || answer.value.None? ==> sent == old(sent)
      ensures handshakeReceived == old(handshakeReceived) && subscribed == old(subscribed)
      ensures listeningToDatabase == old(listeningToDatabase)
      ensures puts == old(puts) && unsubscribeCalls == old(unsubscribeCalls)
    {
      match answer
      case Failure(_) =>
      case Success(entry) =>
        match entry
        case None =>
        case Some(e) =>
          sent := sent + [SendEnvelope(e.envelope)];
    }

    /**
     * The `offer` handler: read the local head, then request every index
     * after it up to the offered one, one request after the other.
     */
    method OnOffer(logPublicKey: string, offered: Option<int>, head: Result<Option<int>, string>)
      requires Valid()
      modifies this
      ensures Valid()
      ensures head.Failure? ==> sent == old(sent)
      ensures head.Success? ==>
        sent == old(sent) + Requests(logPublicKey, OfferedIndexes(head.value, offered))
      ensures handshakeReceived == old(handshakeReceived) && subscribed == old(subscribed)
      ensures listeningToDatabase == old(listeningToDatabase)
      ensures puts == old(puts) && unsubscribeCalls == old(unsubscribeCalls)
    {
      match head
      case Failure(_) =>
      case Success(h) =>
        var low := if h.None? then 0 else h.value + 1;
        var indexes: seq<int> := [];
        match offered
        case None =>
        case Some(high) =>
          indexes := InclusiveRange(low, high);
        var i := 0;
        while i < |indexes|
          invariant 0 <= i <= |indexes|
          invariant sent == old(sent) + Requests(logPublicKey, indexes[..i])
          invariant handshakeReceived == old(handshakeReceived)
          invariant subscribed == old(subscribed) && listeningToDatabase == old(listeningToDatabase)
          invariant puts == old(puts) && unsubscribeCalls == old(unsubscribeCalls)
        {
          assert Requests(logPublicKey, indexes[..i + 1]) == Requests(logPublicKey, indexes[..i]) + [Request(logPublicKey, indexes[i])];
          sent := sent + [Request(logPublicKey, indexes[i])];
          i := i + 1;
        }
        assert indexes[..i] == indexes;
    }

    /**
     * The `envelope` handler: an envelope with validation errors throws
     * before anything is decrypted or stored; a valid one is decrypted and
     * passed to `putEnvelope`.
     */
    method OnEnvelope(envelope: WireEnvelope) returns (r: Outcome<string>)
      requires Valid()
      modifies this
      ensures Valid()
      ensures |validate(envelope)| != 0 ==> r == Fail("Failed to validate envelope.") && puts == old(puts)
      ensures |validate(envelope)| == 0 ==>
        r == Pass && puts == old(puts) + [(envelope, decrypt(envelope.ciphertext, envelope.nonce))]
      ensures sent == old(sent) && handshakeReceived == old(handshakeReceived)
      ensures subscribed == old(subscribed) && listeningToDatabase == old(listeningToDatabase)
      ensures unsubscribeCalls == old(unsubscribeCalls)
    {
      var errors := validate(envelope);
      if |errors| != 0 {
        return Fail("Failed to validate envelope.");
      }
      var entry := decrypt(envelope.ciphertext, envelope.nonce);
      puts := puts + [(envelope, entry)];
      r := Pass;
    }

    /**
     * The `error` handler: once listening, it removes `onEnvelope` from the
     * database, which is not where it was registered, so the page-bus
     * subscription stays.
     */
    method OnError()
      requires Valid()
      modifies this
      ensures Valid()
      ensures unsubscribeCalls == old(unsubscribeCalls) + (if listeningToDatabase then 1 else 0)
      ensures subscribed == old(subscribed) && listeningToDatabase == old(listeningToDatabase)
      ensures sent == old(sent) && puts == old(puts) && handshakeReceived == old(handshakeReceived)
    {
      if listeningToDatabase {
        unsubscribeCalls := unsubscribeCalls + 1;
      }
    }
  }
}
