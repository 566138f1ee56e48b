# Auction listener: state reconciliation engine in Dafny

The auction listener rebuilds the live state of an on-chain auction
marketplace by replaying finalized blocks. It keeps three pieces of state in
memory:

- `auctionMap`: auction id to auction;
- `currentMaxBid`: auction id to the latest bid recorded for it;
- `auctionMaxId`: the id the next created auction receives.

It seeds them from a snapshot of all auctions and bids. It then replays each
block's successful transactions, message by message. A message is
classified by its `@type` field:

- place-bid overwrites the bid entry (last write wins);
- create-auction stores a new auction under the counter and increments it;
- finalize-auction deletes the bid entry and keeps the auction;
- any other type is ignored.

After each processed block whose height is a multiple of 100, the listener
reports every recorded bid. Heights can be skipped, because the listener
waits for a new block and then reads the latest height.

The model has these modules:

- `AuctionTypes` (`auction_types.dfy`): the `Auction` and `Bid` records and
  the uint64 type `U64`, with the wrapping increment `Succ`.
- `Strconv` (`strconv.dfy`): Go's `strconv.ParseUint(s, 10, 64)`, written
  as the library scans digits, proved equal to "a non-empty digit string
  whose value fits in 64 bits". Also `FormatUint`, its inverse.
- `Classifier` (`classifier.dfy`): a message is a `map<string, string>`; a
  missing key reads as `""`, as in Go. `Classify` turns it into an `Event`
  or a parse error.
- `Engine` (`engine.dfy`): the specification over values. It holds the
  `State`, the apply rules, and the replay of messages, transactions and
  blocks as left folds that return `Progress`. `Progress` is either
  `Running(state)` or `Halted(state, error)`, where the state is the one
  reached before the input that failed. It also holds snapshot seeding and
  the summary predicate.
- `Store` (`store.dfy`): the class `StateStore`, whose fields are the two
  maps and the counter. Its methods update them in place with the source's
  loops. Each method is proved to produce exactly the state (and error) the
  `Engine` functions predict.
- `SnapshotProperties`, `ReplayProperties`, `Scenarios`: lemmas about the
  specification, and concrete runs.

Three behaviours of the code that a reader might expect otherwise:

- The snapshot's highest bid is looked up by POSITION in the bid list
  (`allBids[auction.CurrentHighestBidId]`), not by bid id. A position
  outside the list is a runtime panic; here it is the error
  `BidIndexOutOfRange`.
- The counter is a uint64. `auctionMaxId++` wraps to 0 after 2^64 - 1, so
  the counter is not strictly increasing without bound.
- A finalize message's `creator` is carried but never needed. Only
  `auctionId` is parsed.

## Model

| member | source | states |
|---|---|---|
| `AuctionTypes.Succ` | main.go:162 | `auctionMaxId++` on a uint64: one more, or 0 after the maximum |
| `Strconv.ParseUintSpec` | main.go:127-130 | `ParseUint` succeeds exactly on non-empty all-digit strings whose value is at most 2^64-1 and returns that value; such a string that is too large gives a range error; an empty string, or one whose first character is not a digit, gives a syntax error |
| `Strconv.OverflowTests` | main.go:149 | the library's two overflow tests (cutoff, then wrap-around of the sum) hold exactly when `n*10+d` exceeds 2^64-1 |
| `Strconv.ParseUintOfFormatUint` | main.go:164 | round trip: parsing the decimal rendering of any uint64 gives it back |
| `Strconv.ParseUintOfLargeFormat` | main.go:149-152 | the decimal rendering of a number above 2^64-1 is a range error, never a wrapped value |
| `Classifier.Classify` | main.go:117-167 | a message is ignored exactly when its `@type` is none of the three tags; it is an error exactly when its type is known and its numeric field (`duration` for create, `auctionId` otherwise) does not parse, and the error names that field and the parse error; for each known tag whose number parses, the event is of that tag's kind and carries the message's `creator`, the parsed number and the tag's other fields (`bidPrice`; `name` and `startPrice`), whatever other keys or leading zeros the message has |
| `Classifier.ClassifyEncode` | main.go:118-167 | round trip: a place-bid, create or finalize event encoded as the chain's message is classified back to the same event |
| `Classifier.MalformedNumberIsError` | main.go:127-167 | for a known type, an empty, signed or non-numeric numeric field is a syntax error, and a too-large one a range error |
| `Engine.ApplyMessagesAppend` | main.go:117-181 | messages are applied in order: replaying `a + b` is replaying `a`, then `b` unless `a` stopped |
| `Engine.ApplyTxsAppend` | main.go:107-182 | transactions are applied in order, with the same composition law |
| `Engine.ApplyBlocksAppend` | main.go:94-195 | blocks are applied in order, with the same composition law |
| `Store.StateStore.constructor` | main.go:81-82 | a new store has two empty maps and counter 0 |
| `Store.StateStore.Seed` | main.go:81-90 | seeding resets the maps, sets the counter to the number of snapshot auctions, and inserts every auction and its bid; the new state and error are exactly those of `LoadSnapshot` |
| `Store.StateStore.ApplyPlaceBid` | main.go:132-137 | the bid map entry for the id becomes `Bid{creator, 0, id, price}`; the auction map and counter are unchanged |
| `Store.StateStore.ApplyCreateAuction` | main.go:154-162 | the auction map gains, under the old counter, an auction with that id and `ended` false; the counter is incremented (wrapping); the bid map is unchanged |
| `Store.StateStore.ApplyFinalizeAuction` | main.go:169-179 | reports name, start price, final price and winner read before the delete (empty when absent); the id is removed from the bid map; the auctions and counter are unchanged |
| `Store.StateStore.HandleMessage` | main.go:117-180 | classifies and dispatches one message; the new state and error are those of `Engine.ApplyMessage` |
| `Store.StateStore.HandleTx` | main.go:107-181 | a transaction with a non-zero code is skipped; an unfetchable one is fatal; otherwise its messages are applied in order, stopping at the first error, as `Engine.ApplyTx` says |
| `Store.StateStore.HandleBlock` | main.go:107-194 | applies the block's transactions in order as `Engine.ApplyTxs` says; when it completes, the summary is a full summary if the height is a multiple of 100 and empty otherwise |
| `Store.StateStore.Summarize` | main.go:184-193 | the summary lists each bid map entry exactly once (auction id, price, bidder, height), in no particular order, and changes no state |
| `Store.StateStore.Run` | main.go:94-195 | the loop over a finite run of blocks: the final state and error are those of `Engine.ApplyBlocks`; the summary of block k is taken from the state after blocks 0..k; one summary is produced for every block that completed, and on a fatal error exactly for the blocks before the failing one (the blocks up to and including it halt) |
| `SnapshotProperties.SeedKeepsCounter` | main.go:83-90 | seeding never changes the counter, so after loading it equals the number of snapshot auctions |
| `SnapshotProperties.SeedHaltsIff` | main.go:87-89 | seeding stops exactly when some flagged auction's bid position lies outside the bid list |
| `SnapshotProperties.SeedAuctionMap` | main.go:85-86 | a completed seeding adds exactly the snapshot ids to the auction map, each holding the last snapshot auction with that id, and keeps every other key |
| `SnapshotProperties.SeedBidMap` | main.go:87-89 | a completed seeding adds exactly the flagged ids to the bid map, each holding `bids[currentHighestBidId]` of the last flagged auction with that id, and keeps every other key |
| `SnapshotProperties.LoadSnapshotFacts` | main.go:81-90 | loading a snapshot: the counter is the number of auctions; loading completes if and only if every flagged position is in range; the auction map's keys are exactly the snapshot ids and the bid map's keys exactly the flagged ids |
| `SnapshotProperties.LoadDistinctSnapshot` | main.go:85-89 | with distinct ids, every snapshot auction is stored under its own id, and every flagged one has `bids[currentHighestBidId]` |
| `SnapshotProperties.OrderedSnapshotGivesDenseIds` | main.go:83-86 | a snapshot listing auctions 0..n-1 in order leaves exactly the ids below the counter in use |
| `ReplayProperties.ApplyMessagesOfEvents` | main.go:117-180 | replaying well-formed messages is replaying their classified events in the same order, so the event laws below hold of the message replay |
| `ReplayProperties.LastBidMessageWins` | main.go:117-137 | a run of well-formed place-bid messages on one auction completes and leaves exactly the last one's bid recorded, with nothing else changed |
| `ReplayProperties.LastBidWins` | main.go:132-137 | a run of bids on one auction leaves exactly the last bid recorded, whatever the prices, and changes nothing else |
| `ReplayProperties.HighestBidFollowsLastTouch` | main.go:132-179 | after any run of events, an auction's bid entry is decided by the last bid or finalize event on it: that bid, absent, or the entry from before |
| `ReplayProperties.ConsecutiveCreates` | main.go:154-162 | N creates (N at most 2^64) starting at counter k store their auctions, each with its own id and `ended` false, at k..k+N-1 modulo 2^64; they advance the counter by N and leave every other auction key and the bid map as they were |
| `ReplayProperties.FinalizeIdempotent` | main.go:164-179 | a finalize message applied twice in a row has the effect of applying it once, and it keeps the auctions and counter |
| `ReplayProperties.UnknownTypeIsNoOp` | main.go:118-180 | a message with an unrecognized `@type` leaves the state unchanged and is not an error |
| `ReplayProperties.Succeeded` | main.go:108-110 | the filter keeps exactly the transactions with code 0 (both directions of membership), never lengthens the list, and keeps a list of only successful transactions whole |
| `ReplayProperties.SucceededAppend` | main.go:107-110 | the filter keeps block order: filtering `a + b` is filtering `a`, then `b` |
| `ReplayProperties.FailedTxsAreInvisible` | main.go:108-110 | replaying a block's transactions is the same as replaying only those with result code 0 |
| `ReplayProperties.TxsReplayMessagesInOrder` | main.go:107-117 | replaying transactions is replaying the concatenation of the successful ones' messages, in transaction order then message order |
| `ReplayProperties.StopsAtMalformedMessage` | main.go:127-130 | a malformed message halts processing with the state reached by the messages before it; no later message is applied |
| `ReplayProperties.AuctionsNeverDeleted` | main.go:154-179 | no sequence of events removes an auction record |
| `ReplayProperties.MessagesNeverDeleteAuctions` | main.go:117-180 | replaying messages, whether it completes or stops at a malformed one, keeps every auction id |
| `ReplayProperties.TxsNeverDeleteAuctions` | main.go:107-181 | replaying transactions, completed or stopped, keeps every auction id |
| `ReplayProperties.BlocksNeverDeleteAuctions` | main.go:94-195 | replaying blocks, completed or stopped, keeps every auction id |
| `ReplayProperties.DenseIdsPreserved` | main.go:154-162 | while the ids in use are exactly those below the counter (and the counter is below its maximum), a create uses an unused id and every event keeps this property |
| `Scenarios.VaseLifecycle` | main.go:107-179 | empty snapshot; create "Vase" in block 10, bid 15 in block 11, finalize in block 12: the states after each block are as expected, ending with the auction kept and no bid entry |
| `Scenarios.SnapshotThenBid` | main.go:85-137 | snapshot {auction 1 without bids, auction 2 with bid B2}, then a bid on 1: both have entries and the auctions are unchanged |
| `Scenarios.SignedIdIsFatal` | main.go:127-130 | a bid on auction "-1" halts with a syntax error and no state change |
| `Scenarios.OverflowingDurationIsFatal` | main.go:149-152 | a create with duration 2^64 halts with a range error and no state change |
| `Scenarios.FailedCreateIsIgnored` | main.go:108-110 | a failed transaction holding a well-formed create changes nothing |
| `Scenarios.SparseSnapshotCreateOverwrites` | main.go:83-162 | with snapshot ids that are not 0..n-1, a create can reuse a snapshot id and overwrite that auction |

## Left out

- `getTx` (main.go:30-54), the HTTP request and JSON decoding: a
  transaction is given as its result code and, when the fetch succeeded,
  its decoded messages. A failed fetch (`Tx.body == None`) is the error
  `TxFetchFailed`.
- Client creation and the snapshot queries (main.go:58-76): the snapshot is
  given as two sequences. Failures of these queries at startup are not
  modelled.
- `WaitForNextBlock`, `LatestBlockHeight` and `GetBlockTXs` (main.go:95-105):
  blocks are given as a finite sequence of (height, transactions). Their
  fetch errors are not modelled.
- The unbounded `for {}` loop: `Run` processes a finite sequence of blocks.
- `log.Printf` text: only the data of the finalize report and of the summary
  lines is modelled. The place-bid and create lines only echo message fields
  and are left out.
- `log.Fatal` and panics: they are an error result, and processing stops.
  The model does not say anything about the state after that, because the
  process exits.
- Go's randomized map iteration order: `Summarize` returns the entries in
  some order, and its contract does not fix it.
- Nil pointers in the snapshot slices: the snapshot holds values, not
  pointers.
- The block height is Go's `int64` and the model uses `int`. Go's truncated
  `%` and Dafny's Euclidean `%` agree on whether `height % 100` is zero.
