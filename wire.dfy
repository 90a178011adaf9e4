/** Wire messages exchanged between the browser and the relay, the auction
    record the browser lists, and the small Option type used throughout the
    model. Money is in integer cents, instants in integer milliseconds. */
module Wire {

  datatype Option<+T> = None | Some(value: T)

  /** What calling a context hook yields: the provider's value, or the
      error it throws when no provider is present. */
  datatype Lookup<T> = Found(value: T) | Throws(message: string)

  /** A context hook (`useWebSocket`, `useToast`): the provider's value,
      or the hook's own error message when no provider is present. */
  function UseContext<T>(context: Option<T>, missing: string): (r: Lookup<T>)
    ensures r.Throws? <==> context.None?
    ensures context.Some? ==> r == Found(context.value)
    ensures r.Throws? ==> r.message == missing
  {
    if context.None? then Throws(missing) else Found(context.value)
  }

  /** Messages a browser sends to the relay. Message fields that are absent
      or empty in the JSON object are represented by the empty string, which
      is falsy in the source just as an absent field is. A payload that is
      not valid JSON is `Garbled`; a `type` the relay does not know is
      `UnknownType`. */
  datatype ClientMsg =
    | Auth(userId: Option<string>)
    | Subscribe(auctionId: string)
    | Unsubscribe(auctionId: string)
    | Ping
    | UnknownType(kind: string)
    | Garbled

  /** Messages the relay sends to browsers. `Other` stands for any other
      JSON object posted to the ingress endpoint, with its `auctionId`
      field ("" when absent). */
  datatype ServerMsg =
    | Connected
    | Pong
    | BidPlaced(auctionId: string, newPrice: int, bidderId: string)
    | AuctionUpdated(auctionId: string)
    | AuctionClosed(auctionId: string)
    | AuctionCreated(auctionId: string)
    | Other(kind: string, auctionId: string)

  /** The `auctionId` field of a message, "" when it has none. */
  function AuctionIdOf(m: ServerMsg): string
  {
    match m
    case BidPlaced(a, _, _) => a
    case AuctionUpdated(a) => a
    case AuctionClosed(a) => a
    case AuctionCreated(a) => a
    case Other(_, a) => a
    case _ => ""
  }

  /** An auction as the listing page holds it. */
  datatype Auction = Auction(
    id: string,
    title: string,
    description: string,
    currentPrice: int,
    endsAt: int)
}
