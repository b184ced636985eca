/** Values shared by the model of the live bot: options, sides, exit reasons and what a
    broker can answer. */
module BotTypes {
  datatype Option<+T> = None | Some(value: T)

  datatype Side = Long | Short

  function Opposite(s: Side): Side {
    if s == Long then Short else Long
  }

  /** Why a position was closed (the journal's reason column). */
  datatype Reason = StopLoss | TrailingStop | TimeStop | Signal | External | RegimeFlip

  /** The three exits that need no signal. */
  predicate IsPriceExit(r: Reason) {
    r == StopLoss || r == TrailingStop || r == TimeStop
  }

  /** One row of the broker's position list. */
  datatype Position = Position(symbol: string, side: Side, qty: real, avgEntry: real)

  datatype OrderSide = Buy | Sell
  datatype OrderKind = Stop | StopLimit | TrailStop | OtherKind

  /** One row of the broker's closed orders.  Any of its fields may be missing. */
  datatype Order = Order(id: int, side: OrderSide, kind: OrderKind, avgPrice: Option<real>,
                         filledAt: Option<real>, qty: real)

  /** What a broker call gives back: the list, or an exception. */
  datatype Reply = Unavailable | Ok(positions: seq<Position>)
  datatype FillReply = NoFills | Fills(orders: seq<Order>)
  datatype CloseReply = Refused | Accepted(id: int)
  datatype EntryReply = NotEntered | Filled(price: real)

  /** Python's truth value of an optional number: missing and zero are both false. */
  predicate Truthy(x: Option<real>) {
    x.Some? && x.value != 0.0
  }
}
