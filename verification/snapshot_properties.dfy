/**
 * What seeding from a snapshot establishes: the counter equals the number
 * of snapshot auctions, every auction is stored under its own id (a later
 * auction with the same id replacing an earlier one), and exactly the
 * auctions flagged with a highest bid get a bid entry, taken by position
 * from the snapshot's bid list. Seeding stops exactly when such a position
 * lies outside the list.
 */
module SnapshotProperties {
  import opened AuctionTypes
  import opened Engine
  import opened ReplayProperties

  function Ids(auctions: seq<Auction>): set<U64> {
    set i | 0 <= i < |auctions| :: auctions[i].id
  }

  function FlaggedIds(auctions: seq<Auction>): set<U64> {
    set i | 0 <= i < |auctions| && auctions[i].highestBidExists :: auctions[i].id
  }

  /** Every flagged auction's highest-bid position lies inside the bid list. */
  predicate BidIndicesInRange(auctions: seq<Auction>, bids: seq<Bid>) {
    forall i | 0 <= i < |auctions| && auctions[i].highestBidExists :: auctions[i].currentHighestBidId < |bids|
  }

  /** No later snapshot auction has the same id as auction `i`. */
  ghost predicate LastWithId(auctions: seq<Auction>, i: nat)
    requires i < |auctions|
  {
    forall j | i < j < |auctions| :: auctions[j].id != auctions[i].id
  }

  /** No later flagged snapshot auction has the same id as auction `i`. */
  ghost predicate LastFlaggedWithId(auctions: seq<Auction>, i: nat)
    requires i < |auctions|
  {
    forall j | i < j < |auctions| && auctions[j].highestBidExists :: auctions[j].id != auctions[i].id
  }

  lemma IdsOfCons(auctions: seq<Auction>)
    requires auctions != []
    ensures Ids(auctions) == {auctions[0].id} + Ids(auctions[1..])
    ensures FlaggedIds(auctions) ==
      (if auctions[0].highestBidExists then {auctions[0].id} else {}) + FlaggedIds(auctions[1..])
  {
    var rest := auctions[1..];
    forall k | k in Ids(auctions) ensures k in {auctions[0].id} + Ids(rest) {
      var i :| 0 <= i < |auctions| && auctions[i].id == k;
      if i > 0 { assert rest[i - 1].id == k; }
    }
    forall k | k in Ids(rest) ensures k in Ids(auctions) {
      var i :| 0 <= i < |rest| && rest[i].id == k;
      assert auctions[i + 1].id == k;
    }
    forall k | k in FlaggedIds(auctions)
      ensures k in (if auctions[0].highestBidExists then {auctions[0].id} else {}) + FlaggedIds(rest)
    {
      var i :| 0 <= i < |auctions| && auctions[i].highestBidExists && auctions[i].id == k;
      if i > 0 { assert rest[i - 1].id == k && rest[i - 1].highestBidExists; }
    }
    forall k | k in FlaggedIds(rest) ensures k in FlaggedIds(auctions) {
      var i :| 0 <= i < |rest| && rest[i].highestBidExists && rest[i].id == k;
      assert auctions[i + 1].id == k && auctions[i + 1].highestBidExists;
    }
  }

  /** Seeding never touches the counter, whether or not it completes. */
  lemma {:induction false} SeedKeepsCounter(s: State, auctions: seq<Auction>, bids: seq<Bid>)
    ensures SeedAuctions(s, auctions, bids).state.nextId == s.nextId
    decreases |auctions|
  {
    if auctions != [] {
      match SeedAuction(s, auctions[0], bids)
      case Halted(_, _) =>
      case Running(t) => SeedKeepsCounter(t, auctions[1..], bids);
    }
  }

  /** Seeding stops exactly when some flagged auction points outside the bid list. */
  lemma {:induction false} SeedHaltsIff(s: State, auctions: seq<Auction>, bids: seq<Bid>)
    ensures SeedAuctions(s, auctions, bids).Halted? <==> !BidIndicesInRange(auctions, bids)
    decreases |auctions|
  {
    if auctions != [] {
      var rest := auctions[1..];
      assert BidIndicesInRange(auctions, bids) <==>
        (auctions[0].highestBidExists ==> auctions[0].currentHighestBidId < |bids|) && BidIndicesInRange(rest, bids)
      by {
        if BidIndicesInRange(rest, bids) && (auctions[0].highestBidExists ==> auctions[0].currentHighestBidId < |bids|) {
          forall i | 0 <= i < |auctions| && auctions[i].highestBidExists
            ensures auctions[i].currentHighestBidId < |bids|
          {
            if i > 0 { assert rest[i - 1] == auctions[i]; }
          }
        }
      }
      match SeedAuction(s, auctions[0], bids)
      case Halted(_, _) =>
      case Running(t) => SeedHaltsIff(t, rest, bids);
    }
  }

  /** Seeding with every flagged bid position in range completes. */
  lemma {:induction false} SeedCompletes(s: State, auctions: seq<Auction>, bids: seq<Bid>)
    requires BidIndicesInRange(auctions, bids)
    ensures SeedAuctions(s, auctions, bids).Running?
  {
    SeedHaltsIff(s, auctions, bids);
  }

  lemma InRangeRest(auctions: seq<Auction>, bids: seq<Bid>)
    requires auctions != [] && BidIndicesInRange(auctions, bids)
    ensures BidIndicesInRange(auctions[1..], bids)
    ensures auctions[0].highestBidExists ==> auctions[0].currentHighestBidId < |bids|
  {
    var rest := auctions[1..];
    forall i | 0 <= i < |rest| && rest[i].highestBidExists ensures rest[i].currentHighestBidId < |bids| {
      assert rest[i] == auctions[i + 1];
    }
  }

  lemma LastWithIdRest(auctions: seq<Auction>, i: nat)
    requires 0 < i < |auctions| && LastWithId(auctions, i)
    ensures LastWithId(auctions[1..], i - 1)
  {
    var rest := auctions[1..];
    forall j | i - 1 < j < |rest| ensures rest[j].id != rest[i - 1].id {
      assert rest[j] == auctions[j + 1];
    }
  }

  lemma LastFlaggedWithIdRest(auctions: seq<Auction>, i: nat)
    requires 0 < i < |auctions| && LastFlaggedWithId(auctions, i)
    ensures LastFlaggedWithId(auctions[1..], i - 1)
  {
    var rest := auctions[1..];
    forall j | i - 1 < j < |rest| && rest[j].highestBidExists ensures rest[j].id != rest[i - 1].id {
      assert rest[j] == auctions[j + 1];
    }
  }

  /**
   * A completed seeding, auction side: the auction map gains exactly the
   * snapshot ids, each holding the last snapshot auction with that id, and
   * every other key keeps its entry.
   */
  lemma {:induction false} SeedAuctionMap(s: State, auctions: seq<Auction>, bids: seq<Bid>)
    requires BidIndicesInRange(auctions, bids)
    ensures SeedAuctions(s, auctions, bids).Running?
    ensures var r := SeedAuctions(s, auctions, bids).state;
      && r.auctions.Keys == s.auctions.Keys + Ids(auctions)
      && (forall i | 0 <= i < |auctions| && LastWithId(auctions, i) :: r.auctions[auctions[i].id] == auctions[i])
      && (forall k | k in s.auctions && k !in Ids(auctions) :: r.auctions[k] == s.auctions[k])
    decreases |auctions|
  {
    SeedCompletes(s, auctions, bids);
    if auctions == [] {
      assert Ids(auctions) == {};
    } else {
      var a, rest := auctions[0], auctions[1..];
      InRangeRest(auctions, bids);
      var t := SeedAuction(s, a, bids).state;
      assert t.auctions == s.auctions[a.id := a];
      SeedAuctionMap(t, rest, bids);
      IdsOfCons(auctions);
      var r := SeedAuctions(t, rest, bids).state;
      assert SeedAuctions(s, auctions, bids).state == r;
      forall i | 0 <= i < |auctions| && LastWithId(auctions, i)
        ensures r.auctions[auctions[i].id] == auctions[i]
      {
        if i == 0 {
          assert a.id !in Ids(rest);
        } else {
          LastWithIdRest(auctions, i);
          assert rest[i - 1] == auctions[i];
        }
      }
    }
  }

  /**
   * A completed seeding, bid side: the bid map gains exactly the flagged
   * ids, each holding the bid of the last flagged auction with that id, and
   * every other key keeps its entry.
   */
  lemma {:induction false} SeedBidMap(s: State, auctions: seq<Auction>, bids: seq<Bid>)
    requires BidIndicesInRange(auctions, bids)
    ensures SeedAuctions(s, auctions, bids).Running?
    ensures var r := SeedAuctions(s, auctions, bids).state;
      && r.highestBids.Keys == s.highestBids.Keys + FlaggedIds(auctions)
      && (forall i | 0 <= i < |auctions| && auctions[i].highestBidExists && LastFlaggedWithId(auctions, i) ::
            r.highestBids[auctions[i].id] == bids[auctions[i].currentHighestBidId])
      && (forall k | k in s.highestBids && k !in FlaggedIds(auctions) :: r.highestBids[k] == s.highestBids[k])
    decreases |auctions|
  {
    SeedCompletes(s, auctions, bids);
    if auctions == [] {
      assert FlaggedIds(auctions) == {};
    } else {
      var a, rest := auctions[0], auctions[1..];
      InRangeRest(auctions, bids);
      var t := SeedAuction(s, a, bids).state;
      assert t.highestBids == if a.highestBidExists then s.highestBids[a.id := bids[a.currentHighestBidId]] else s.highestBids;
      SeedBidMap(t, rest, bids);
      IdsOfCons(auctions);
      var r := SeedAuctions(t, rest, bids).state;
      assert SeedAuctions(s, auctions, bids).state == r;
      forall i | 0 <= i < |auctions| && auctions[i].highestBidExists && LastFlaggedWithId(auctions, i)
        ensures r.highestBids[auctions[i].id] == bids[auctions[i].currentHighestBidId]
      {
        if i == 0 {
          assert a.id !in FlaggedIds(rest);
        } else {
          LastFlaggedWithIdRest(auctions, i);
          assert rest[i - 1] == auctions[i];
        }
      }
    }
  }

  /**
   * Loading a snapshot: the counter is the number of snapshot auctions; if
   * every flagged bid position is in range, the auction map holds exactly
   * the snapshot ids and the bid map exactly the flagged ids, with the
   * values above; otherwise loading stops.
   */
  lemma LoadSnapshotFacts(auctions: seq<Auction>, bids: seq<Bid>)
    requires |auctions| < U64_MODULUS
    ensures var p := LoadSnapshot(auctions, bids);
      && p.state.nextId == |auctions|
      && (p.Running? <==> BidIndicesInRange(auctions, bids))
      && (p.Running? ==>
            && p.state.auctions.Keys == Ids(auctions)
            && (forall i | 0 <= i < |auctions| && LastWithId(auctions, i) :: p.state.auctions[auctions[i].id] == auctions[i])
            && p.state.highestBids.Keys == FlaggedIds(auctions)
            && (forall i | 0 <= i < |auctions| && auctions[i].highestBidExists && LastFlaggedWithId(auctions, i) ::
                  p.state.highestBids[auctions[i].id] == bids[auctions[i].currentHighestBidId]))
  {
    var s0 := State(map[], map[], |auctions|);
    SeedKeepsCounter(s0, auctions, bids);
    SeedHaltsIff(s0, auctions, bids);
    if BidIndicesInRange(auctions, bids) {
      SeedAuctionMap(s0, auctions, bids);
      SeedBidMap(s0, auctions, bids);
    }
  }

  /**
   * With distinct snapshot ids (as the chain keeps them), every snapshot
   * auction is stored under its own id and every flagged one has its bid.
   */
  lemma LoadDistinctSnapshot(auctions: seq<Auction>, bids: seq<Bid>)
    requires |auctions| < U64_MODULUS && BidIndicesInRange(auctions, bids)
    requires forall i, j | 0 <= i < j < |auctions| :: auctions[i].id != auctions[j].id
    ensures var p := LoadSnapshot(auctions, bids);
      && p.Running?
      && (forall i | 0 <= i < |auctions| ::
            auctions[i].id in p.state.auctions && p.state.auctions[auctions[i].id] == auctions[i])
      && (forall i | 0 <= i < |auctions| && auctions[i].highestBidExists ::
            auctions[i].id in p.state.highestBids && p.state.highestBids[auctions[i].id] == bids[auctions[i].currentHighestBidId])
  {
    LoadSnapshotFacts(auctions, bids);
    var p := LoadSnapshot(auctions, bids);
    forall i | 0 <= i < |auctions|
      ensures auctions[i].id in p.state.auctions && p.state.auctions[auctions[i].id] == auctions[i]
    {
      assert auctions[i].id in Ids(auctions);
      assert LastWithId(auctions, i);
    }
    forall i | 0 <= i < |auctions| && auctions[i].highestBidExists
      ensures auctions[i].id in p.state.highestBids && p.state.highestBids[auctions[i].id] == bids[auctions[i].currentHighestBidId]
    {
      assert auctions[i].id in FlaggedIds(auctions);
      assert LastFlaggedWithId(auctions, i);
    }
  }

  /**
   * A snapshot that lists auctions 0 .. n-1 in id order leaves the ids
   * dense, so (by `DenseIdsPreserved`) later creates never overwrite an
   * existing auction.
   */
  lemma OrderedSnapshotGivesDenseIds(auctions: seq<Auction>, bids: seq<Bid>)
    requires |auctions| < U64_MODULUS && BidIndicesInRange(auctions, bids)
    requires forall i | 0 <= i < |auctions| :: auctions[i].id == i
    ensures LoadSnapshot(auctions, bids).Running?
    ensures DenseIds(LoadSnapshot(auctions, bids).state)
  {
    LoadSnapshotFacts(auctions, bids);
    var r := LoadSnapshot(auctions, bids).state;
    forall id: U64 ensures id in r.auctions <==> id < r.nextId {
      if id < |auctions| {
        assert auctions[id].id == id;
      }
    }
  }
}
