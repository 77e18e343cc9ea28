/** The tracked-address store of data.js: the feed's `message` handler adds a
    message's `mint` to a set, and each poll cycle lists the set's members. */
module AddressStore {
  import opened Wrappers

  /** A parsed feed message; only its `mint` field is read. */
  datatype FeedMessage = FeedMessage(mint: Option<string>)

  /** The store's reply to a list-all request: the members, or a failure. */
  datatype StoreReply = Members(mints: seq<string>) | StoreError

  /** JavaScript truthiness of a string field: present and non-empty. */
  predicate Truthy(mint: Option<string>) {
    mint.Some? && mint.value != ""
  }

  /** Every stored address is non-empty. */
  ghost predicate ValidStore(store: set<string>) {
    forall a :: a in store ==> a != ""
  }

  /** The `message` handler: `address && sadd(address)`. Exactly the message's
      address is added when it is truthy; otherwise nothing changes. */
  function OnMessage(store: set<string>, msg: FeedMessage): (r: set<string>)
    ensures forall a :: a in r <==> a in store || (Truthy(msg.mint) && a == msg.mint.value)
    ensures ValidStore(store) ==> ValidStore(r)
  {
    if Truthy(msg.mint) then store + {msg.mint.value} else store
  }

  /** Adding an address already stored leaves the store unchanged, so a
      repeated message is a no-op. */
  lemma OnMessageIdempotent(store: set<string>, msg: FeedMessage)
    ensures OnMessage(OnMessage(store, msg), msg) == OnMessage(store, msg)
    ensures Truthy(msg.mint) && msg.mint.value in store ==> OnMessage(store, msg) == store
  {
  }

  /** The handler applied to every message of a feed, in arrival order. */
  function Ingest(store: set<string>, msgs: seq<FeedMessage>): set<string>
    decreases |msgs|
  {
    if |msgs| == 0 then store else Ingest(OnMessage(store, msgs[0]), msgs[1..])
  }

  /** The truthy addresses carried by a sequence of messages. */
  function MintsOf(msgs: seq<FeedMessage>): set<string> {
    set i | 0 <= i < |msgs| && Truthy(msgs[i].mint) :: msgs[i].mint.value
  }

  /** Splitting off the first message splits the collected addresses. */
  lemma MintsOfCons(msgs: seq<FeedMessage>)
    requires |msgs| > 0
    ensures MintsOf(msgs) == MintsOf(msgs[..1]) + MintsOf(msgs[1..])
  {
  }

  /** After a feed, the store holds exactly what it held before plus every
      truthy address the feed carried: nothing is removed, nothing else added. */
  lemma {:induction false} IngestCollectsMints(store: set<string>, msgs: seq<FeedMessage>)
    ensures Ingest(store, msgs) == store + MintsOf(msgs)
    decreases |msgs|
  {
    if |msgs| > 0 {
      IngestCollectsMints(OnMessage(store, msgs[0]), msgs[1..]);
      MintsOfCons(msgs);
      assert MintsOf(msgs[..1]) == if Truthy(msgs[0].mint) then {msgs[0].mint.value} else {};
    }
  }

  /** Replaying a feed a second time changes nothing. */
  lemma {:induction false} IngestReplayIdempotent(store: set<string>, msgs: seq<FeedMessage>)
    ensures Ingest(Ingest(store, msgs), msgs) == Ingest(store, msgs)
  {
    IngestCollectsMints(store, msgs);
    IngestCollectsMints(Ingest(store, msgs), msgs);
  }

  /** Ingesting a feed keeps every stored address non-empty. */
  lemma {:induction false} IngestPreservesValid(store: set<string>, msgs: seq<FeedMessage>)
    requires ValidStore(store)
    ensures ValidStore(Ingest(store, msgs))
  {
    IngestCollectsMints(store, msgs);
  }

  /** `getTrackedMemeCoins`: the stored members, or the empty list when the
      store call fails. */
  function TrackedMints(reply: StoreReply): (r: seq<string>)
    ensures reply.StoreError? ==> r == []
    ensures reply.Members? ==> r == reply.mints
  {
    match reply
    case Members(m) => m
    case StoreError => []
  }

  /** `reply` is a successful listing of exactly the addresses in `store`. */
  ghost predicate Lists(reply: StoreReply, store: set<string>) {
    reply.Members? && forall a :: a in reply.mints <==> a in store
  }

  /** Listing a store fed by the handler yields exactly its old addresses
      plus the feed's non-empty ones, and no empty address. */
  lemma {:induction false} ListingAfterFeed(store: set<string>, msgs: seq<FeedMessage>, reply: StoreReply)
    requires ValidStore(store) && Lists(reply, Ingest(store, msgs))
    ensures forall a :: a in TrackedMints(reply) <==> a in store || a in MintsOf(msgs)
    ensures forall i :: 0 <= i < |TrackedMints(reply)| ==> TrackedMints(reply)[i] != ""
  {
    IngestCollectsMints(store, msgs);
    IngestPreservesValid(store, msgs);
    forall i | 0 <= i < |TrackedMints(reply)|
      ensures TrackedMints(reply)[i] != ""
    {
      assert TrackedMints(reply)[i] in Ingest(store, msgs);
    }
  }
}
