/**
 * The records the auction chain module stores, as the listener sees them:
 * `Auction` and `Bid`, with their 64-bit unsigned identifiers.
 */
module AuctionTypes {

  /** 2^64: uint64 arithmetic is taken modulo this value. */
  const U64_MODULUS: int := 0x1_0000_0000_0000_0000

  /** The largest uint64. */
  const MAX_U64: int := 0xFFFF_FFFF_FFFF_FFFF

  /** A Go `uint64`. */
  type U64 = x: int | 0 <= x < U64_MODULUS

  /** `x++` on a uint64: wraps around to 0 after MAX_U64. */
  function Succ(x: U64): (r: U64)
    ensures x < MAX_U64 ==> r == x + 1
    ensures x == MAX_U64 ==> r == 0
  {
    (x + 1) % U64_MODULUS
  }

  /**
   * An auction record. Prices are decimal strings that the listener
   * stores and prints but never parses.
   */
  datatype Auction = Auction(
    id: U64,
    creator: string,
    name: string,
    startPrice: string,
    duration: U64,
    ended: bool,
    highestBidExists: bool,
    currentHighestBidId: U64)

  /** A bid record; bids derived from live events always carry id 0. */
  datatype Bid = Bid(
    id: U64,
    creator: string,
    auctionId: U64,
    bidPrice: string)
}
