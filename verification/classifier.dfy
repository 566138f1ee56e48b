/**
 * The message classifier: a decoded transaction message is a flat mapping
 * from field name to string; its `@type` field decides which of the three
 * auction-lifecycle events it is, and the numeric fields are parsed with
 * `ParseUint`. Unknown types are ignored, a malformed number is an error.
 */
module Classifier {
  import opened Wrappers
  import opened AuctionTypes
  import opened Strconv

  /** A decoded message: field name to string value. */
  type Fields = map<string, string>

  /** A Go map lookup: a missing key reads as the empty string. */
  function Field(m: Fields, key: string): string {
    if key in m then m[key] else ""
  }

  const TypeKey: string := "@type"
  const PlaceBidType: string := "/auction.auction.MsgPlaceBid"
  const CreateAuctionType: string := "/auction.auction.MsgCreateAuction"
  const FinalizeAuctionType: string := "/auction.auction.MsgFinalizeAuction"

  predicate IsKnownType(tag: string) {
    tag == PlaceBidType || tag == CreateAuctionType || tag == FinalizeAuctionType
  }

  /** A classified message with its typed fields. */
  datatype Event =
    | PlaceBid(creator: string, auctionId: U64, bidPrice: string)
    | CreateAuction(creator: string, name: string, startPrice: string, duration: U64)
    | FinalizeAuction(creator: string, auctionId: U64)
    | Ignored

  /** Which numeric field failed to parse, and how. */
  datatype ClassifyError = BadAuctionId(cause: ParseError) | BadDuration(cause: ParseError)

  /** The numeric field a message of a known type must carry. */
  function NumericField(tag: string): string {
    if tag == CreateAuctionType then "duration" else "auctionId"
  }

  function Classify(m: Fields): (r: Result<Event, ClassifyError>)
    ensures r.Success? && r.value.Ignored? <==> !IsKnownType(Field(m, TypeKey))
    ensures r.Failure? <==> IsKnownType(Field(m, TypeKey)) && ParseUint(Field(m, NumericField(Field(m, TypeKey)))).Failure?
    ensures var id := ParseUint(Field(m, "auctionId"));
      Field(m, TypeKey) == PlaceBidType && id.Success? ==>
        r == Success(PlaceBid(Field(m, "creator"), id.value, Field(m, "bidPrice")))
    ensures var d := ParseUint(Field(m, "duration"));
      Field(m, TypeKey) == CreateAuctionType && d.Success? ==>
        r == Success(CreateAuction(Field(m, "creator"), Field(m, "name"), Field(m, "startPrice"), d.value))
    ensures var id := ParseUint(Field(m, "auctionId"));
      Field(m, TypeKey) == FinalizeAuctionType && id.Success? ==>
        r == Success(FinalizeAuction(Field(m, "creator"), id.value))
    ensures var tag := Field(m, TypeKey);
      r.Failure? ==> r.error == (if tag == CreateAuctionType then BadDuration(ParseUint(Field(m, "duration")).error)
                                 else BadAuctionId(ParseUint(Field(m, "auctionId")).error))
  {
    var tag := Field(m, TypeKey);
    if tag == PlaceBidType then
      match ParseUint(Field(m, "auctionId"))
      case Failure(e) => Failure(BadAuctionId(e))
      case Success(id) => Success(PlaceBid(Field(m, "creator"), id, Field(m, "bidPrice")))
    else if tag == CreateAuctionType then
      match ParseUint(Field(m, "duration"))
      case Failure(e) => Failure(BadDuration(e))
      case Success(d) => Success(CreateAuction(Field(m, "creator"), Field(m, "name"), Field(m, "startPrice"), d))
    else if tag == FinalizeAuctionType then
      match ParseUint(Field(m, "auctionId"))
      case Failure(e) => Failure(BadAuctionId(e))
      case Success(id) => Success(FinalizeAuction(Field(m, "creator"), id))
    else
      Success(Ignored)
  }

  /** The message the chain emits for an event, numbers in decimal. */
  function Encode(e: Event): Fields
    requires !e.Ignored?
  {
    match e
    case PlaceBid(creator, id, price) =>
      map[TypeKey := PlaceBidType, "creator" := creator, "auctionId" := FormatUint(id), "bidPrice" := price]
    case CreateAuction(creator, name, price, d) =>
      map[TypeKey := CreateAuctionType, "creator" := creator, "name" := name,
          "startPrice" := price, "duration" := FormatUint(d)]
    case FinalizeAuction(creator, id) =>
      map[TypeKey := FinalizeAuctionType, "creator" := creator, "auctionId" := FormatUint(id)]
  }

  /** Round trip: classifying the encoding of an event gives the event back. */
  lemma ClassifyEncode(e: Event)
    requires !e.Ignored?
    ensures Classify(Encode(e)) == Success(e)
  {
    match e
    case PlaceBid(_, id, _) => ParseUintOfFormatUint(id);
    case CreateAuction(_, _, _, d) => ParseUintOfFormatUint(d);
    case FinalizeAuction(_, id) => ParseUintOfFormatUint(id);
  }

  /**
   * A message of a known type whose numeric field is empty, signed or not a
   * number at all is a syntax error; one whose digits overflow a uint64 is a
   * range error.
   */
  lemma MalformedNumberIsError(m: Fields)
    requires IsKnownType(Field(m, TypeKey))
    ensures var f := Field(m, NumericField(Field(m, TypeKey)));
      && (f == "" || !IsDigit(f[0]) ==> Classify(m).Failure? && Classify(m).error.cause == ErrSyntax)
      && (f != "" && AllDigits(f) && Value(f) > MAX_U64 ==> Classify(m).Failure? && Classify(m).error.cause == ErrRange)
  {
    ParseUintSpec(Field(m, NumericField(Field(m, TypeKey))));
  }
}
