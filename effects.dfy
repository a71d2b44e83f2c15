/**
 * The effect vocabulary a strategy yields to the execution host. What the
 * host does with an effect (placing or cancelling orders) is outside the
 * model: an effect is only a value.
 */
module Effects {

  /** Order type of a plain entry order; the strategies only use market orders. */
  datatype OrderType = Market

  /** Payload of `buy(...)` and `sell(...)`. */
  datatype OrderSpec = OrderSpec(quantity: real, orderType: OrderType)

  /** One safety order of a DCA trade (the strategies never place any). */
  datatype SafetyOrder = SafetyOrder(relativePrice: real, quantity: real)

  /** Payload of `useDca(...)`; `tpPercent` is a fraction (2% is 0.02). */
  datatype DcaSpec = DcaSpec(quantity: real, tpPercent: real, safetyOrders: seq<SafetyOrder>)

  datatype Effect =
    | Buy(order: OrderSpec)
    | Sell(order: OrderSpec)
    | CancelSmartTrade
    | UseDca(dca: DcaSpec)
  {
    /** True for the effects that open a position. */
    predicate IsEntry() {
      Buy? || Sell? || UseDca?
    }
  }
}
