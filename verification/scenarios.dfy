/**
 * Concrete runs of the listener: a create, bid and finalize across three
 * blocks from an empty snapshot; a bid on top of a seeded snapshot; a
 * malformed or failed message; and what the id counter does when the
 * snapshot's ids are not 0 .. n-1.
 */
module Scenarios {
  import opened Wrappers
  import opened AuctionTypes
  import opened Strconv
  import opened Classifier
  import opened Engine

  const Vase := Auction(0, "alice", "Vase", "10", 100, false, false, 0)

  function CreateVase(): Fields {
    map[TypeKey := CreateAuctionType, "creator" := "alice", "name" := "Vase",
        "startPrice" := "10", "duration" := "100"]
  }

  function BidOnVase(): Fields {
    map[TypeKey := PlaceBidType, "creator" := "bob", "auctionId" := "0", "bidPrice" := "15"]
  }

  function FinalizeVase(): Fields {
    map[TypeKey := FinalizeAuctionType, "creator" := "alice", "auctionId" := "0"]
  }

  function VaseBlocks(): seq<Block> {
    [ Block(10, [Tx(0, Some([CreateVase()]))]),
      Block(11, [Tx(0, Some([BidOnVase()]))]),
      Block(12, [Tx(0, Some([FinalizeVase()]))]) ]
  }

  /**
   * From an empty snapshot: block 10 creates auction 0 and moves the counter
   * to 1; block 11 records a bid of 15 on it; block 12 finalizes it, which
   * empties the bid map and keeps the auction.
   */
  lemma VaseLifecycle()
    ensures LoadSnapshot([], []) == Running(State(map[], map[], 0))
    ensures ApplyBlocks(State(map[], map[], 0), VaseBlocks()[..1]) == Running(State(map[0 := Vase], map[], 1))
    ensures ApplyBlocks(State(map[], map[], 0), VaseBlocks()[..2]) ==
      Running(State(map[0 := Vase], map[0 := Bid(0, "bob", 0, "15")], 1))
    ensures ApplyBlocks(State(map[], map[], 0), VaseBlocks()) == Running(State(map[0 := Vase], map[], 1))
  {
  }

  /**
   * A snapshot with auction 1 (no bids) and auction 2 (highest bid B2 at
   * position 0), then a block with one bid on auction 1: both auctions have
   * a bid entry, and the auction map is as the snapshot left it.
   */
  lemma SnapshotThenBid()
    ensures var a1 := Auction(1, "carol", "Lamp", "5", 50, false, false, 0);
      var a2 := Auction(2, "dave", "Clock", "7", 60, false, true, 0);
      var b2 := Bid(9, "erin", 2, "8");
      var bid := map[TypeKey := PlaceBidType, "creator" := "frank", "auctionId" := "1", "bidPrice" := "6"];
      var p := LoadSnapshot([a1, a2], [b2]);
      && p == Running(State(map[1 := a1, 2 := a2], map[2 := b2], 2))
      && ApplyBlocks(p.state, [Block(13, [Tx(0, Some([bid]))])]) ==
         Running(State(map[1 := a1, 2 := a2], map[1 := Bid(0, "frank", 1, "6"), 2 := b2], 2))
  {
    var a1 := Auction(1, "carol", "Lamp", "5", 50, false, false, 0);
    var a2 := Auction(2, "dave", "Clock", "7", 60, false, true, 0);
    var b2 := Bid(9, "erin", 2, "8");
    var bid := map[TypeKey := PlaceBidType, "creator" := "frank", "auctionId" := "1", "bidPrice" := "6"];
    var seeded := State(map[1 := a1, 2 := a2], map[2 := b2], 2);
    assert SeedAuction(State(map[], map[], 2), a1, [b2]) == Running(State(map[1 := a1], map[], 2));
    assert SeedAuction(State(map[1 := a1], map[], 2), a2, [b2]) == Running(seeded);
    assert [a1, a2][1..] == [a2] && [a2][1..] == [];
    assert SeedAuctions(seeded, [], [b2]) == Running(seeded);
    assert SeedAuctions(State(map[1 := a1], map[], 2), [a2], [b2]) == Running(seeded);
    assert LoadSnapshot([a1, a2], [b2]) == Running(seeded);
    assert FormatUint(1) == "1";
    ParseUintOfFormatUint(1);
    assert Classify(bid) == Success(PlaceBid("frank", 1, "6"));
    var after := State(map[1 := a1, 2 := a2], map[1 := Bid(0, "frank", 1, "6"), 2 := b2], 2);
    assert ApplyMessages(seeded, [bid]) == Running(after);
    assert ApplyTxs(seeded, [Tx(0, Some([bid]))]) == Running(after);
  }

  /** A bid whose auction id is signed is fatal, and nothing is applied. */
  lemma SignedIdIsFatal(s: State)
    ensures var m := map[TypeKey := PlaceBidType, "creator" := "bob", "auctionId" := "-1", "bidPrice" := "3"];
      ApplyMessage(s, m) == Halted(s, MalformedMessage(BadAuctionId(ErrSyntax)))
  {
  }

  /** A create whose duration is 2^64, written in decimal, overflows: fatal, and the counter does not move. */
  lemma OverflowingDurationIsFatal(s: State)
    ensures var m := map[TypeKey := CreateAuctionType, "creator" := "bob", "name" := "Rug",
                          "startPrice" := "1", "duration" := FormatUint(U64_MODULUS)];
      ApplyMessage(s, m) == Halted(s, MalformedMessage(BadDuration(ErrRange)))
  {
    ParseUintOfLargeFormat(U64_MODULUS);
  }

  /** A failed transaction carrying a well-formed create neither stores an auction nor moves the counter. */
  lemma FailedCreateIsIgnored(s: State)
    ensures ApplyTxs(s, [Tx(5, Some([CreateVase()]))]) == Running(s)
  {
  }

  /**
   * The counter assumes snapshot ids 0 .. n-1. A snapshot holding only
   * auction 1 sets the counter to 1, so the next create stores its auction
   * under id 1 and the snapshot's auction 1 is overwritten.
   */
  lemma SparseSnapshotCreateOverwrites()
    ensures var a1 := Auction(1, "carol", "Lamp", "5", 50, false, false, 0);
      var p := LoadSnapshot([a1], []);
      && p == Running(State(map[1 := a1], map[], 1))
      && ApplyMessage(p.state, CreateVase()) ==
         Running(State(map[1 := Vase.(id := 1)], map[], 2))
  {
  }
}
