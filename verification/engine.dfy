/**
 * The reconciliation engine as a specification over values: the state the
 * listener keeps, the three apply rules, the replay of messages,
 * transactions and blocks in order, the seeding from a snapshot, and the
 * periodic summary. The `StateStore` class is proved against these
 * functions.
 */
module Engine {
  import opened Wrappers
  import opened AuctionTypes
  import opened Classifier

  /**
   * `auctionMap`, `currentMaxBid` and `auctionMaxId`: every auction by id,
   * the latest recorded bid of each auction not yet finalized, and the id
   * the next created auction receives.
   */
  datatype State = State(auctions: map<U64, Auction>, highestBids: map<U64, Bid>, nextId: U64)

  /** Why processing stopped; the listener terminates on each of these. */
  datatype Fatal =
    | MalformedMessage(reason: ClassifyError)
    | TxFetchFailed
    | BidIndexOutOfRange(index: U64)

  /**
   * The outcome of processing a sequence of inputs: all of it applied, or
   * processing stopped at a fatal error, with the state reached just before
   * the input that caused it.
   */
  datatype Progress = Running(state: State) | Halted(state: State, error: Fatal)

  /** A transaction of a block: its result code and its messages, absent when they could not be fetched. */
  datatype Tx = Tx(code: nat, body: Option<seq<Fields>>)

  /** A block: its height and its transactions in block order. */
  datatype Block = Block(height: int, txs: seq<Tx>)

  /** The bid a place-bid message records; its id is always 0. */
  function BidOf(creator: string, auctionId: U64, bidPrice: string): Bid {
    Bid(0, creator, auctionId, bidPrice)
  }

  /** The auction a create-auction message records under id `id`. */
  function NewAuction(id: U64, creator: string, name: string, startPrice: string, duration: U64): Auction {
    Auction(id, creator, name, startPrice, duration, false, false, 0)
  }

  /** The three apply rules; an ignored message changes nothing. */
  function ApplyEvent(s: State, e: Event): State {
    match e
    case PlaceBid(creator, id, price) =>
      s.(highestBids := s.highestBids[id := BidOf(creator, id, price)])
    case CreateAuction(creator, name, price, duration) =>
      s.(auctions := s.auctions[s.nextId := NewAuction(s.nextId, creator, name, price, duration)],
         nextId := Succ(s.nextId))
    case FinalizeAuction(_, id) =>
      s.(highestBids := s.highestBids - {id})
    case Ignored => s
  }

  /** Events applied left to right. */
  function ApplyEvents(s: State, evs: seq<Event>): State
    decreases |evs|
  {
    if evs == [] then s else ApplyEvents(ApplyEvent(s, evs[0]), evs[1..])
  }

  /** One message: classified, then applied; a malformed one stops processing. */
  function ApplyMessage(s: State, m: Fields): Progress {
    match Classify(m)
    case Failure(e) => Halted(s, MalformedMessage(e))
    case Success(ev) => Running(ApplyEvent(s, ev))
  }

  /** The messages of one transaction, in order. */
  function ApplyMessages(s: State, msgs: seq<Fields>): Progress
    decreases |msgs|
  {
    if msgs == [] then Running(s)
    else match ApplyMessage(s, msgs[0])
      case Halted(t, e) => Halted(t, e)
      case Running(t) => ApplyMessages(t, msgs[1..])
  }

  /** Continues a replay with more messages unless it has stopped. */
  function ThenMessages(p: Progress, msgs: seq<Fields>): Progress {
    if p.Halted? then p else ApplyMessages(p.state, msgs)
  }

  /**
   * One transaction: a failed one (non-zero result code) is skipped without
   * being fetched; otherwise a failed fetch stops processing, and the
   * fetched messages are applied in order.
   */
  function ApplyTx(s: State, tx: Tx): Progress {
    if tx.code != 0 then Running(s)
    else match tx.body
      case None => Halted(s, TxFetchFailed)
      case Some(msgs) => ApplyMessages(s, msgs)
  }

  /** The transactions of a block, in block order. */
  function ApplyTxs(s: State, txs: seq<Tx>): Progress
    decreases |txs|
  {
    if txs == [] then Running(s)
    else match ApplyTx(s, txs[0])
      case Halted(t, e) => Halted(t, e)
      case Running(t) => ApplyTxs(t, txs[1..])
  }

  function ThenTxs(p: Progress, txs: seq<Tx>): Progress {
    if p.Halted? then p else ApplyTxs(p.state, txs)
  }

  /** A sequence of blocks, in height order; the summaries change no state. */
  function ApplyBlocks(s: State, blocks: seq<Block>): Progress
    decreases |blocks|
  {
    if blocks == [] then Running(s)
    else match ApplyTxs(s, blocks[0].txs)
      case Halted(t, e) => Halted(t, e)
      case Running(t) => ApplyBlocks(t, blocks[1..])
  }

  function ThenBlocks(p: Progress, blocks: seq<Block>): Progress {
    if p.Halted? then p else ApplyBlocks(p.state, blocks)
  }

  /**
   * One snapshot auction: stored under its own id and, when it has a
   * highest bid, that bid (looked up by position in the snapshot's bid
   * list) recorded under the same id. A position outside the list stops
   * the listener after the auction itself was stored.
   */
  function SeedAuction(s: State, a: Auction, bids: seq<Bid>): Progress {
    var s1 := s.(auctions := s.auctions[a.id := a]);
    if !a.highestBidExists then Running(s1)
    else if a.currentHighestBidId < |bids| then
      Running(s1.(highestBids := s1.highestBids[a.id := bids[a.currentHighestBidId]]))
    else Halted(s1, BidIndexOutOfRange(a.currentHighestBidId))
  }

  /** The snapshot auctions, in snapshot order. */
  function SeedAuctions(s: State, auctions: seq<Auction>, bids: seq<Bid>): Progress
    decreases |auctions|
  {
    if auctions == [] then Running(s)
    else match SeedAuction(s, auctions[0], bids)
      case Halted(t, e) => Halted(t, e)
      case Running(t) => SeedAuctions(t, auctions[1..], bids)
  }

  /** The initial state: empty maps, the counter at the number of snapshot auctions. */
  function LoadSnapshot(auctions: seq<Auction>, bids: seq<Bid>): Progress
    requires |auctions| < U64_MODULUS
  {
    SeedAuctions(State(map[], map[], |auctions|), auctions, bids)
  }

  /** One line of the periodic summary. */
  datatype SummaryLine = SummaryLine(height: int, auctionId: U64, bidPrice: string, creator: string)

  /** A summary is emitted after blocks whose height is a multiple of this. */
  const SummaryPeriod: int := 100

  /**
   * `lines` lists every entry of `bids` exactly once, in some order (Go's
   * map iteration order is unspecified).
   */
  ghost predicate IsSummary(height: int, lines: seq<SummaryLine>, bids: map<U64, Bid>) {
    && |lines| == |bids|
    && (forall i | 0 <= i < |lines| ::
          && lines[i].auctionId in bids
          && lines[i] == SummaryLine(height, lines[i].auctionId, bids[lines[i].auctionId].bidPrice,
                                     bids[lines[i].auctionId].creator))
    && (forall i, j | 0 <= i < j < |lines| :: lines[i].auctionId != lines[j].auctionId)
    && (forall id | id in bids :: exists i | 0 <= i < |lines| :: lines[i].auctionId == id)
  }

  /** What a block at `height` reports: a full summary on the period, nothing otherwise. */
  ghost predicate SummaryFor(height: int, lines: seq<SummaryLine>, bids: map<U64, Bid>) {
    if height % SummaryPeriod == 0 then IsSummary(height, lines, bids) else lines == []
  }

  /** `lines` is what block `k` of `blocks` reports, replayed from `s0`: the block and all before it applied. */
  ghost predicate ReportedAfter(s0: State, blocks: seq<Block>, k: nat, lines: seq<SummaryLine>)
    requires k < |blocks|
  {
    var p := ApplyBlocks(s0, blocks[..k + 1]);
    p.Running? && SummaryFor(blocks[k].height, lines, p.state.highestBids)
  }

  /** What finalizing an auction reports, read before the bid entry is removed. */
  datatype FinalizeReport = FinalizeReport(name: string, startPrice: string, finalPrice: string, winner: string)

  /** Missing entries read as Go's zero values, here empty strings. */
  function ReportOf(s: State, id: U64): FinalizeReport {
    FinalizeReport(
      if id in s.auctions then s.auctions[id].name else "",
      if id in s.auctions then s.auctions[id].startPrice else "",
      if id in s.highestBids then s.highestBids[id].bidPrice else "",
      if id in s.highestBids then s.highestBids[id].creator else "")
  }

  /** Replaying `a + b` is replaying `a`, then `b` unless `a` stopped. */
  lemma {:induction false} ApplyMessagesAppend(s: State, a: seq<Fields>, b: seq<Fields>)
    ensures ApplyMessages(s, a + b) == ThenMessages(ApplyMessages(s, a), b)
    decreases |a|
  {
    if a == [] {
      assert a + b == b;
    } else {
      assert (a + b)[0] == a[0] && (a + b)[1..] == a[1..] + b;
      match ApplyMessage(s, a[0])
      case Halted(_, _) =>
      case Running(t) => ApplyMessagesAppend(t, a[1..], b);
    }
  }

  lemma {:induction false} ApplyTxsAppend(s: State, a: seq<Tx>, b: seq<Tx>)
    ensures ApplyTxs(s, a + b) == ThenTxs(ApplyTxs(s, a), b)
    decreases |a|
  {
    if a == [] {
      assert a + b == b;
    } else {
      assert (a + b)[0] == a[0] && (a + b)[1..] == a[1..] + b;
      match ApplyTx(s, a[0])
      case Halted(_, _) =>
      case Running(t) => ApplyTxsAppend(t, a[1..], b);
    }
  }

  lemma {:induction false} ApplyBlocksAppend(s: State, a: seq<Block>, b: seq<Block>)
    ensures ApplyBlocks(s, a + b) == ThenBlocks(ApplyBlocks(s, a), b)
    decreases |a|
  {
    if a == [] {
      assert a + b == b;
    } else {
      assert (a + b)[0] == a[0] && (a + b)[1..] == a[1..] + b;
      match ApplyTxs(s, a[0].txs)
      case Halted(_, _) =>
      case Running(t) => ApplyBlocksAppend(t, a[1..], b);
    }
  }
}
