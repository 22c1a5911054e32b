/** The data model of the order book page: raw orders as the exchange
    contract returns them, and the direction-neutral orders the table shows. */
module Orders {

  /** Which of the contract's two order lists an order comes from. */
  datatype Direction =
    | A4B   // "Green for Orange": the order sells Green and buys Orange
    | B4A   // "Orange for Green": the order sells Orange and buys Green

  /** The type tag of a displayed order; it names the asset the order sells. */
  datatype OrderType = Green | Orange

  /** An order as read from the contract. The two amounts are relative to the
      order's own selling side; this model takes them as text to be converted. */
  datatype RawOrder = RawOrder(
    trader: string,
    sellingAmount: string,
    buyingAmount: string,
    orderFilled: bool)

  /** An order as the table shows it. `id` is the order's position among the
      open orders of its own list; `orderType` is the source's `type` field. */
  datatype DisplayOrder = DisplayOrder(
    id: nat,
    orderType: OrderType,
    trader: string,
    greenAmount: int,
    orangeAmount: int,
    isFilled: bool)

  /** The type tag each list carries: Green for A4B, Orange for B4A. */
  function TypeOf(dir: Direction): OrderType {
    match dir
    case A4B => Green
    case B4A => Orange
  }
}
