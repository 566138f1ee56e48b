/**
 * Properties of the replay: the three apply rules over runs of events, the
 * filtering of failed transactions and unknown message types, the order in
 * which messages are applied, and where a fatal error stops processing.
 */
module ReplayProperties {
  import opened Wrappers
  import opened AuctionTypes
  import opened Classifier
  import opened Engine

  lemma {:induction false} ApplyEventsSnoc(s: State, evs: seq<Event>, e: Event)
    ensures ApplyEvents(s, evs + [e]) == ApplyEvent(ApplyEvents(s, evs), e)
    decreases |evs|
  {
    if evs == [] {
      assert evs + [e] == [e];
    } else {
      assert (evs + [e])[0] == evs[0] && (evs + [e])[1..] == evs[1..] + [e];
      ApplyEventsSnoc(ApplyEvent(s, evs[0]), evs[1..], e);
    }
  }

  /** The events of a sequence of well-formed messages, in order. */
  function EventsOf(msgs: seq<Fields>): (evs: seq<Event>)
    requires forall i | 0 <= i < |msgs| :: Classify(msgs[i]).Success?
    ensures |evs| == |msgs|
    ensures forall i | 0 <= i < |msgs| :: evs[i] == Classify(msgs[i]).value
  {
    seq(|msgs|, i requires 0 <= i < |msgs| => Classify(msgs[i]).value)
  }

  /**
   * Replaying well-formed messages is replaying their events: every
   * property proved below of `ApplyEvents` holds of the replay the listener
   * performs, message by message.
   */
  lemma {:induction false} ApplyMessagesOfEvents(s: State, msgs: seq<Fields>)
    requires forall i | 0 <= i < |msgs| :: Classify(msgs[i]).Success?
    ensures ApplyMessages(s, msgs) == Running(ApplyEvents(s, EventsOf(msgs)))
    decreases |msgs|
  {
    if msgs != [] {
      var evs := EventsOf(msgs);
      assert evs[1..] == EventsOf(msgs[1..]);
      ApplyMessagesOfEvents(ApplyEvent(s, evs[0]), msgs[1..]);
    }
  }

  // ----- Place bid: last write wins -----

  /**
   * A run of bids on one auction leaves exactly the last of them recorded,
   * whatever the prices; nothing else in the state changes.
   */
  lemma {:induction false} LastBidWins(s: State, id: U64, evs: seq<Event>)
    requires evs != []
    requires forall i | 0 <= i < |evs| :: evs[i].PlaceBid? && evs[i].auctionId == id
    ensures var last := evs[|evs| - 1];
      ApplyEvents(s, evs) == s.(highestBids := s.highestBids[id := BidOf(last.creator, id, last.bidPrice)])
    decreases |evs|
  {
    var n := |evs|;
    var init, last := evs[..n - 1], evs[n - 1];
    assert evs == init + [last];
    ApplyEventsSnoc(s, init, last);
    if init != [] {
      LastBidWins(s, id, init);
    }
  }

  /**
   * The same law for the messages a transaction carries: after a run of
   * well-formed place-bid messages on one auction, the bid of the last one
   * is recorded and nothing else has changed.
   */
  lemma LastBidMessageWins(s: State, id: U64, msgs: seq<Fields>)
    requires msgs != []
    requires forall i | 0 <= i < |msgs| ::
      Classify(msgs[i]).Success? && Classify(msgs[i]).value.PlaceBid? && Classify(msgs[i]).value.auctionId == id
    ensures var last := Classify(msgs[|msgs| - 1]).value;
      ApplyMessages(s, msgs) == Running(s.(highestBids := s.highestBids[id := BidOf(last.creator, id, last.bidPrice)]))
  {
    ApplyMessagesOfEvents(s, msgs);
    LastBidWins(s, id, EventsOf(msgs));
  }

  /** The last bid or finalize event on `id` in `evs`, if any. */
  function LastTouch(evs: seq<Event>, id: U64): Option<Event>
    decreases |evs|
  {
    if evs == [] then None
    else
      var e := evs[|evs| - 1];
      if (e.PlaceBid? || e.FinalizeAuction?) && e.auctionId == id then Some(e)
      else LastTouch(evs[..|evs| - 1], id)
  }

  /**
   * Whatever else happens in between, the bid entry of an auction after a
   * run of events is decided by the last bid or finalize event on it: the
   * bid it carries, no entry, or the entry from before the run.
   */
  lemma {:induction false} HighestBidFollowsLastTouch(s: State, evs: seq<Event>, id: U64)
    ensures var r := ApplyEvents(s, evs);
      match LastTouch(evs, id)
      case None => (id in r.highestBids <==> id in s.highestBids)
                   && (id in s.highestBids ==> r.highestBids[id] == s.highestBids[id])
      case Some(e) =>
        if e.PlaceBid? then id in r.highestBids && r.highestBids[id] == BidOf(e.creator, id, e.bidPrice)
        else id !in r.highestBids
    decreases |evs|
  {
    if evs != [] {
      var n := |evs|;
      var init, last := evs[..n - 1], evs[n - 1];
      assert evs == init + [last];
      ApplyEventsSnoc(s, init, last);
      HighestBidFollowsLastTouch(s, init, id);
    }
  }

  // ----- Create auction: consecutive ids -----

  /** The i-th id handed out from counter value k: uint64 addition. */
  function Slot(k: U64, i: nat): U64 {
    (k + i) % U64_MODULUS
  }

  /** `key` is one of the first n ids handed out from k. */
  ghost predicate InWindow(key: U64, k: U64, n: nat) {
    exists i | 0 <= i < n :: Slot(k, i) == key
  }

  lemma SlotsDistinct(k: U64, i: nat, j: nat)
    requires i < j < U64_MODULUS
    ensures Slot(k, i) != Slot(k, j)
  {
  }

  lemma SlotNext(k: U64, i: nat)
    ensures Succ(Slot(k, i)) == Slot(k, i + 1)
  {
  }

  /**
   * N consecutive creates starting at counter k store their auctions, with
   * `ended` false and their own id, at k, k+1, ..., k+N-1 (modulo 2^64),
   * advance the counter by N, leave every other auction key as it was and
   * leave the bid map alone. (Beyond 2^64 creates the ids would repeat.)
   */
  lemma {:induction false} ConsecutiveCreates(s: State, evs: seq<Event>)
    requires |evs| <= U64_MODULUS
    requires forall i | 0 <= i < |evs| :: evs[i].CreateAuction?
    ensures var r := ApplyEvents(s, evs);
      && r.nextId == Slot(s.nextId, |evs|)
      && r.highestBids == s.highestBids
      && (forall i | 0 <= i < |evs| ::
            && Slot(s.nextId, i) in r.auctions
            && r.auctions[Slot(s.nextId, i)] ==
               NewAuction(Slot(s.nextId, i), evs[i].creator, evs[i].name, evs[i].startPrice, evs[i].duration)
            && !r.auctions[Slot(s.nextId, i)].ended)
      && (forall key | !InWindow(key, s.nextId, |evs|) ::
            (key in r.auctions <==> key in s.auctions)
            && (key in s.auctions ==> r.auctions[key] == s.auctions[key]))
    decreases |evs|
  {
    var k := s.nextId;
    if evs == [] {
      assert ApplyEvents(s, evs) == s;
    } else {
      var n := |evs|;
      var init, last := evs[..n - 1], evs[n - 1];
      assert evs == init + [last];
      ApplyEventsSnoc(s, init, last);
      ConsecutiveCreates(s, init);
      var t := ApplyEvents(s, init);
      var r := ApplyEvents(s, evs);
      SlotNext(k, n - 1);
      assert r.auctions == t.auctions[Slot(k, n - 1) :=
        NewAuction(Slot(k, n - 1), last.creator, last.name, last.startPrice, last.duration)];
      forall i | 0 <= i < n
        ensures Slot(k, i) in r.auctions
        ensures r.auctions[Slot(k, i)] ==
          NewAuction(Slot(k, i), evs[i].creator, evs[i].name, evs[i].startPrice, evs[i].duration)
      {
        if i < n - 1 {
          SlotsDistinct(k, i, n - 1);
          assert evs[i] == init[i];
        }
      }
      forall key | !InWindow(key, k, n)
        ensures (key in r.auctions <==> key in s.auctions)
        ensures key in s.auctions ==> r.auctions[key] == s.auctions[key]
      {
        assert key != Slot(k, n - 1);
        assert !InWindow(key, k, n - 1);
      }
    }
  }

  // ----- Finalize: idempotent removal -----

  /** A finalize message applied twice in a row has the effect of applying it once. */
  lemma FinalizeIdempotent(s: State, m: Fields)
    requires Field(m, TypeKey) == FinalizeAuctionType
    ensures ApplyMessages(s, [m, m]) == ApplyMessage(s, m)
    ensures ApplyMessage(s, m).state.auctions == s.auctions
    ensures ApplyMessage(s, m).state.nextId == s.nextId
  {
    assert [m, m][1..] == [m] && [m][1..] == [];
    match ApplyMessage(s, m)
    case Halted(_, _) =>
    case Running(t) =>
      assert ApplyMessage(t, m) == Running(t);
      assert ApplyMessages(t, [m]) == Running(t);
  }

  // ----- Filtering -----

  /** A message of any type other than the three recognized ones changes nothing. */
  lemma UnknownTypeIsNoOp(s: State, m: Fields)
    requires !IsKnownType(Field(m, TypeKey))
    ensures ApplyMessage(s, m) == Running(s)
  {
  }

  /** The transactions of a block whose result code is zero. */
  function Succeeded(txs: seq<Tx>): (r: seq<Tx>)
    ensures forall i | 0 <= i < |r| :: r[i].code == 0
    ensures forall tx :: tx in r <==> tx in txs && tx.code == 0
    ensures |r| <= |txs|
    ensures (forall i | 0 <= i < |txs| :: txs[i].code == 0) ==> r == txs
    decreases |txs|
  {
    if txs == [] then []
    else if txs[0].code != 0 then Succeeded(txs[1..])
    else [txs[0]] + Succeeded(txs[1..])
  }

  /**
   * The filter keeps the block order: the successful transactions of `a + b`
   * are those of `a` followed by those of `b`.
   */
  lemma {:induction false} SucceededAppend(a: seq<Tx>, b: seq<Tx>)
    ensures Succeeded(a + b) == Succeeded(a) + Succeeded(b)
    decreases |a|
  {
    if a == [] {
      assert a + b == b;
    } else {
      assert (a + b)[0] == a[0] && (a + b)[1..] == a[1..] + b;
      SucceededAppend(a[1..], b);
    }
  }

  /**
   * Failed transactions contribute nothing: replaying a block's
   * transactions is replaying only those with result code zero.
   */
  lemma {:induction false} FailedTxsAreInvisible(s: State, txs: seq<Tx>)
    ensures ApplyTxs(s, txs) == ApplyTxs(s, Succeeded(txs))
    decreases |txs|
  {
    if txs != [] {
      if txs[0].code != 0 {
        FailedTxsAreInvisible(s, txs[1..]);
      } else {
        var rest := Succeeded(txs[1..]);
        assert ([txs[0]] + rest)[0] == txs[0] && ([txs[0]] + rest)[1..] == rest;
        match ApplyTx(s, txs[0])
        case Halted(_, _) =>
        case Running(t) => FailedTxsAreInvisible(t, txs[1..]);
      }
    }
  }

  // ----- Order of application -----

  /** Every successful transaction of the list has had its messages fetched. */
  predicate AllFetched(txs: seq<Tx>) {
    forall i | 0 <= i < |txs| :: txs[i].code == 0 ==> txs[i].body.Some?
  }

  /** The messages of the successful transactions, in transaction order then message order. */
  function MessagesOf(txs: seq<Tx>): seq<Fields>
    requires AllFetched(txs)
    decreases |txs|
  {
    if txs == [] then []
    else if txs[0].code != 0 then MessagesOf(txs[1..])
    else txs[0].body.value + MessagesOf(txs[1..])
  }

  /**
   * Replaying a block's transactions is replaying one flat sequence of
   * messages: those of the successful transactions, in transaction order and
   * in message order within each transaction.
   */
  lemma {:induction false} TxsReplayMessagesInOrder(s: State, txs: seq<Tx>)
    requires AllFetched(txs)
    ensures ApplyTxs(s, txs) == ApplyMessages(s, MessagesOf(txs))
    decreases |txs|
  {
    if txs != [] {
      assert AllFetched(txs[1..]) by {
        forall i | 0 <= i < |txs[1..]| ensures txs[1..][i].code == 0 ==> txs[1..][i].body.Some? {
          assert txs[1..][i] == txs[i + 1];
        }
      }
      if txs[0].code != 0 {
        TxsReplayMessagesInOrder(s, txs[1..]);
      } else {
        assert txs[0].body.Some?;
        ApplyMessagesAppend(s, txs[0].body.value, MessagesOf(txs[1..]));
        match ApplyTx(s, txs[0])
        case Halted(_, _) =>
        case Running(t) => TxsReplayMessagesInOrder(t, txs[1..]);
      }
    }
  }

  /**
   * A malformed message stops processing before it changes anything: the
   * state reached is the one after the messages before it, and none after
   * it is applied.
   */
  lemma StopsAtMalformedMessage(s: State, msgs: seq<Fields>, k: nat, t: State)
    requires k < |msgs| && ApplyMessages(s, msgs[..k]) == Running(t)
    requires Classify(msgs[k]).Failure?
    ensures ApplyMessages(s, msgs) == Halted(t, MalformedMessage(Classify(msgs[k]).error))
  {
    ApplyMessagesAppend(s, msgs[..k], msgs[k..]);
    assert msgs[..k] + msgs[k..] == msgs;
    assert msgs[k..][0] == msgs[k];
  }

  // ----- Auction ids -----

  /** Auction records are never deleted by any event. */
  lemma {:induction false} AuctionsNeverDeleted(s: State, evs: seq<Event>)
    ensures s.auctions.Keys <= ApplyEvents(s, evs).auctions.Keys
    decreases |evs|
  {
    if evs != [] {
      AuctionsNeverDeleted(ApplyEvent(s, evs[0]), evs[1..]);
    }
  }

  /**
   * No replay deletes an auction record: the state reached by messages,
   * transactions or blocks, whether processing completed or stopped, keeps
   * every auction id of the state it started from.
   */
  lemma {:induction false} MessagesNeverDeleteAuctions(s: State, msgs: seq<Fields>)
    ensures s.auctions.Keys <= ApplyMessages(s, msgs).state.auctions.Keys
    decreases |msgs|
  {
    if msgs != [] {
      match ApplyMessage(s, msgs[0])
      case Halted(_, _) =>
      case Running(t) =>
        AuctionsNeverDeleted(s, [Classify(msgs[0]).value]);
        MessagesNeverDeleteAuctions(t, msgs[1..]);
    }
  }

  lemma {:induction false} TxsNeverDeleteAuctions(s: State, txs: seq<Tx>)
    ensures s.auctions.Keys <= ApplyTxs(s, txs).state.auctions.Keys
    decreases |txs|
  {
    if txs != [] {
      if txs[0].code == 0 && txs[0].body.Some? {
        MessagesNeverDeleteAuctions(s, txs[0].body.value);
      }
      match ApplyTx(s, txs[0])
      case Halted(_, _) =>
      case Running(t) => TxsNeverDeleteAuctions(t, txs[1..]);
    }
  }

  lemma {:induction false} BlocksNeverDeleteAuctions(s: State, blocks: seq<Block>)
    ensures s.auctions.Keys <= ApplyBlocks(s, blocks).state.auctions.Keys
    decreases |blocks|
  {
    if blocks != [] {
      TxsNeverDeleteAuctions(s, blocks[0].txs);
      match ApplyTxs(s, blocks[0].txs)
      case Halted(_, _) =>
      case Running(t) => BlocksNeverDeleteAuctions(t, blocks[1..]);
    }
  }

  /** The auction ids are exactly 0 .. nextId-1. */
  ghost predicate DenseIds(s: State) {
    forall id: U64 :: id in s.auctions <==> id < s.nextId
  }

  /**
   * While the ids are dense and the counter has not reached its maximum, a
   * create uses an id no auction has yet, and every event keeps the ids
   * dense.
   */
  lemma DenseIdsPreserved(s: State, e: Event)
    requires DenseIds(s)
    requires e.CreateAuction? ==> s.nextId < MAX_U64
    ensures e.CreateAuction? ==> s.nextId !in s.auctions
    ensures DenseIds(ApplyEvent(s, e))
  {
  }
}
