/**
 * The listener's in-memory state as an object whose maps and counter the
 * reconciliation loop updates in place. Every method is proved against the
 * replay functions of `Engine`: the new state is the specification's state,
 * and an error is reported exactly when the specification halts.
 */
module Store {
  import opened Wrappers
  import opened AuctionTypes
  import opened Classifier
  import opened Engine

  /** A method's new state and error, read as the `Progress` the specification predicts. */
  function Outcome(s: State, err: Option<Fatal>): Progress {
    if err.None? then Running(s) else Halted(s, err.value)
  }

  class StateStore {
    var auctions: map<U64, Auction>
    var highestBids: map<U64, Bid>
    var nextId: U64

    function Current(): State
      reads this
    {
      State(auctions, highestBids, nextId)
    }

    constructor ()
      ensures Current() == State(map[], map[], 0)
    {
      auctions := map[];
      highestBids := map[];
      nextId := 0;
    }

    /**
     * Seeds the state from a snapshot: fresh maps, the counter set to the
     * number of snapshot auctions, then every auction and its highest bid.
     */
    method Seed(allAuctions: seq<Auction>, allBids: seq<Bid>) returns (err: Option<Fatal>)
      requires |allAuctions| < U64_MODULUS
      modifies this
      ensures Outcome(Current(), err) == LoadSnapshot(allAuctions, allBids)
    {
      highestBids := map[];
      auctions := map[];
      nextId := |allAuctions|;
      var i := 0;
      while i < |allAuctions|
        invariant 0 <= i <= |allAuctions|
        invariant LoadSnapshot(allAuctions, allBids) == SeedAuctions(Current(), allAuctions[i..], allBids)
      {
        var a := allAuctions[i];
        assert allAuctions[i..][0] == a && allAuctions[i..][1..] == allAuctions[i + 1..];
        auctions := auctions[a.id := a];
        if a.highestBidExists {
          if a.currentHighestBidId >= |allBids| {
            return Some(BidIndexOutOfRange(a.currentHighestBidId));
          }
          highestBids := highestBids[a.id := allBids[a.currentHighestBidId]];
        }
        i := i + 1;
      }
      err := None;
    }

    /** Last write wins: the bid replaces whatever was recorded, whatever its price. */
    method ApplyPlaceBid(creator: string, auctionId: U64, bidPrice: string)
      modifies this
      ensures highestBids == old(highestBids)[auctionId := BidOf(creator, auctionId, bidPrice)]
      ensures auctions == old(auctions) && nextId == old(nextId)
    {
      highestBids := highestBids[auctionId := BidOf(creator, auctionId, bidPrice)];
    }

    /** Stores a new auction under the counter, then advances the counter. */
    method ApplyCreateAuction(creator: string, name: string, startPrice: string, duration: U64)
      modifies this
      ensures auctions == old(auctions)[old(nextId) := NewAuction(old(nextId), creator, name, startPrice, duration)]
      ensures nextId == Succ(old(nextId))
      ensures highestBids == old(highestBids)
    {
      auctions := auctions[nextId := NewAuction(nextId, creator, name, startPrice, duration)];
      nextId := (nextId + 1) % U64_MODULUS;  // uint64 increment wraps
    }

    /** Drops the auction's bid entry, if any; the auction record stays. */
    method ApplyFinalizeAuction(auctionId: U64) returns (report: FinalizeReport)
      modifies this
      ensures report == ReportOf(old(Current()), auctionId)
      ensures highestBids == old(highestBids) - {auctionId}
      ensures auctions == old(auctions) && nextId == old(nextId)
    {
      report := ReportOf(Current(), auctionId);
      highestBids := highestBids - {auctionId};
    }

    /** Classifies one message and applies it. */
    method HandleMessage(m: Fields) returns (err: Option<Fatal>)
      modifies this
      ensures Outcome(Current(), err) == Engine.ApplyMessage(old(Current()), m)
    {
      err := None;
      match Classify(m)
      case Failure(e) =>
        err := Some(MalformedMessage(e));
      case Success(ev) =>
        match ev
        case PlaceBid(creator, id, price) =>
          ApplyPlaceBid(creator, id, price);
        case CreateAuction(creator, name, price, duration) =>
          ApplyCreateAuction(creator, name, price, duration);
        case FinalizeAuction(_, id) =>
          var _ := ApplyFinalizeAuction(id);
        case Ignored =>
    }

    /** Skips a failed transaction; otherwise applies its messages in order. */
    method HandleTx(tx: Tx) returns (err: Option<Fatal>)
      modifies this
      ensures Outcome(Current(), err) == ApplyTx(old(Current()), tx)
    {
      if tx.code != 0 {
        return None;
      }
      if tx.body.None? {
        return Some(TxFetchFailed);
      }
      var msgs := tx.body.value;
      var i := 0;
      while i < |msgs|
        invariant 0 <= i <= |msgs|
        invariant ApplyTx(old(Current()), tx) == ApplyMessages(Current(), msgs[i..])
      {
        assert msgs[i..][0] == msgs[i] && msgs[i..][1..] == msgs[i + 1..];
        err := HandleMessage(msgs[i]);
        if err.Some? {
          return;
        }
        i := i + 1;
      }
      err := None;
    }

    /**
     * Applies a block's transactions in order and, when the block's height
     * is a multiple of the summary period, reports every recorded bid.
     */
    method HandleBlock(block: Block) returns (err: Option<Fatal>, summary: seq<SummaryLine>)
      modifies this
      ensures Outcome(Current(), err) == ApplyTxs(old(Current()), block.txs)
      ensures err.None? ==> SummaryFor(block.height, summary, highestBids)
      ensures err.Some? ==> summary == []
    {
      summary := [];
      var i := 0;
      while i < |block.txs|
        invariant 0 <= i <= |block.txs|
        invariant ApplyTxs(old(Current()), block.txs) == ApplyTxs(Current(), block.txs[i..])
      {
        assert block.txs[i..][0] == block.txs[i] && block.txs[i..][1..] == block.txs[i + 1..];
        err := HandleTx(block.txs[i]);
        if err.Some? {
          return;
        }
        i := i + 1;
      }
      err := None;
      if block.height % SummaryPeriod == 0 {
        summary := Summarize(block.height);
      }
    }

    /** The periodic summary: one line per recorded bid; the state is only read. */
    method Summarize(height: int) returns (lines: seq<SummaryLine>)
      ensures IsSummary(height, lines, highestBids)
    {
      lines := [];
      var pending := highestBids.Keys;
      while pending != {}
        invariant pending <= highestBids.Keys
        invariant |lines| + |pending| == |highestBids|
        invariant forall i | 0 <= i < |lines| ::
          && lines[i].auctionId in highestBids && lines[i].auctionId !in pending
          && lines[i] == SummaryLine(height, lines[i].auctionId, highestBids[lines[i].auctionId].bidPrice,
                                     highestBids[lines[i].auctionId].creator)
        invariant forall i, j | 0 <= i < j < |lines| :: lines[i].auctionId != lines[j].auctionId
        invariant forall id | id in highestBids && id !in pending :: exists i | 0 <= i < |lines| :: lines[i].auctionId == id
        decreases pending
      {
        var id :| id in pending;
        var bid := highestBids[id];
        ghost var done := lines;
        lines := lines + [SummaryLine(height, id, bid.bidPrice, bid.creator)];
        pending := pending - {id};
        forall k | k in highestBids && k !in pending
          ensures exists i | 0 <= i < |lines| :: lines[i].auctionId == k
        {
          if k == id {
            assert lines[|done|].auctionId == k;
          } else {
            var i :| 0 <= i < |done| && done[i].auctionId == k;
            assert lines[i].auctionId == k;
          }
        }
      }
    }

    /**
     * The reconciliation loop over a finite run of blocks: each block is
     * applied in turn; the summary of block k is taken from the state after
     * block k; processing stops at the first fatal error.
     */
    method Run(blocks: seq<Block>) returns (err: Option<Fatal>, summaries: seq<seq<SummaryLine>>)
      modifies this
      ensures Outcome(Current(), err) == ApplyBlocks(old(Current()), blocks)
      ensures |summaries| <= |blocks| && (err.None? ==> |summaries| == |blocks|)
      ensures ApplyBlocks(old(Current()), blocks[..|summaries|]).Running?
      ensures err.Some? ==> |summaries| < |blocks| && ApplyBlocks(old(Current()), blocks[..|summaries| + 1]).Halted?
      ensures forall k | 0 <= k < |summaries| :: ReportedAfter(old(Current()), blocks, k, summaries[k])
    {
      summaries := [];
      ghost var s0 := Current();
      var i := 0;
      while i < |blocks|
        invariant 0 <= i <= |blocks| && |summaries| == i
        invariant ApplyBlocks(s0, blocks[..i]) == Running(Current())
        invariant forall k | 0 <= k < i :: ReportedAfter(s0, blocks, k, summaries[k])
      {
        ghost var before := Current();
        var summary;
        err, summary := HandleBlock(blocks[i]);
        ApplyBlocksAppend(s0, blocks[..i], [blocks[i]]);
        assert blocks[..i] + [blocks[i]] == blocks[..i + 1];
        assert ApplyBlocks(before, [blocks[i]]) == ApplyTxs(before, blocks[i].txs) by {
          assert [blocks[i]][1..] == [];
        }
        if err.Some? {
          assert ApplyBlocks(s0, blocks[..i + 1]).Halted?;
          ApplyBlocksAppend(s0, blocks[..i + 1], blocks[i + 1..]);
          assert blocks[..i + 1] + blocks[i + 1..] == blocks;
          return;
        }
        assert ApplyBlocks(s0, blocks[..i + 1]) == Running(Current());
        summaries := summaries + [summary];
        i := i + 1;
      }
      assert blocks[..i] == blocks;
      err := None;
    }
  }
}
