/** Orders and executed trades (src/models/order.py). */
module Orders {
  import opened Wrappers

  datatype OrderSide = Buy | Sell
  datatype OrderType = Market | Limit

  /** An order; the timestamp is a number and the optional signal id a string. */
  datatype Order = Order(
    symbol: string,
    side: OrderSide,
    orderType: OrderType,
    quantity: int,
    price: Option<real>,
    timestamp: int,
    signalId: Option<string>)

  /** The validator's constraints: positive quantity, a non-negative limit price if present. */
  predicate ValidOrder(o: Order) {
    && o.quantity > 0
    && (o.price.Some? ==> o.price.value >= 0.0)
  }

  function IsBuy(o: Order): (r: bool)
    ensures r <==> o.side == Buy
    ensures !r <==> o.side == Sell
  {
    o.side == Buy
  }

  function IsMarketOrder(o: Order): (r: bool)
    ensures r <==> o.orderType == Market
    ensures !r <==> o.orderType == Limit
  {
    o.orderType == Market
  }

  /** A fill of an order. */
  datatype Trade = Trade(
    order: Order,
    executedPrice: real,
    executedQuantity: int,
    commission: real,
    timestamp: int)

  predicate ValidTrade(t: Trade) {
    && ValidOrder(t.order)
    && t.executedPrice >= 0.0
    && t.executedQuantity > 0
    && t.commission >= 0.0
  }

  /** Value of the fill before commission. */
  function GrossValue(t: Trade): (r: real)
    ensures ValidTrade(t) ==> r >= 0.0
    ensures ValidTrade(t) ==> (r == 0.0 <==> t.executedPrice == 0.0)
  {
    t.executedPrice * t.executedQuantity as real
  }

  /** Cash effect of the fill: a buy pays the commission on top, a sell has it deducted. */
  function NetValue(t: Trade): (r: real)
    ensures IsBuy(t.order) ==> r - GrossValue(t) == t.commission
    ensures !IsBuy(t.order) ==> GrossValue(t) - r == t.commission
    ensures ValidTrade(t) ==> (if IsBuy(t.order) then r >= GrossValue(t) else r <= GrossValue(t))
  {
    if IsBuy(t.order) then GrossValue(t) + t.commission
    else GrossValue(t) - t.commission
  }

  /** The same fill booked as a buy costs exactly twice the commission more than as a sell,
      so a buy's net is at least its gross, which is at least the sell's net. */
  lemma BuyNetExceedsSellNet(t: Trade)
    requires ValidTrade(t)
    ensures var b := t.(order := t.order.(side := Buy));
            var s := t.(order := t.order.(side := Sell));
            && NetValue(b) - NetValue(s) == 2.0 * t.commission
            && NetValue(b) >= GrossValue(b) == GrossValue(s) >= NetValue(s)
  {
  }
}
