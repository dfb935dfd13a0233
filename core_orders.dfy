/** The REST order manager (OrderManager in core/orders.py): parameter
    validation and the construction of the order body for market, limit,
    stop and stop-limit orders. The HTTP client is the oracle `submit`.
    Quantities and prices are Python floats; they are reals here, and the
    order body holds them as numbers where the source holds str(x). */
module CoreOrders {
  import opened Base

  datatype OrderSide = Buy | Sell

  function SideValue(s: OrderSide): string {
    match s
    case Buy => "buy"
    case Sell => "sell"
  }

  datatype TimeInForce = Day | Gtc | Opg | Cls | Ioc | Fok

  function TimeInForceValue(t: TimeInForce): string {
    match t
    case Day => "day"
    case Gtc => "gtc"
    case Opg => "opg"
    case Cls => "cls"
    case Ioc => "ioc"
    case Fok => "fok"
  }

  /** A value of the order body: a string, str() of a float, or True. */
  datatype Value = Text(text: string) | Amount(amount: real) | Flag(flag: bool)

  type Order = map<string, Value>

  /** The order kinds, with the prices each one takes (None stands for a
      price argument that is None). */
  datatype Kind =
    | Market(extendedHours: bool)
    | Limit(limitPrice: Option<real>, extendedHours: bool)
    | Stop(stopPrice: Option<real>)
    | StopLimit(stopPrice: Option<real>, limitPrice: Option<real>)

  /** The message each check prints before the order is abandoned. */
  datatype Reject =
    | SymbolRequired
    | QtyXorNotional
    | QtyNotPositive
    | NotionalNotPositive
    | StopNotPositive
    | LimitNotPositive

  /** What an order method did: it stopped at a failed check and submitted
      nothing (the source returns None), or it submitted `order` and
      returned what the client answered. */
  datatype Submission = Rejected(reason: Reject) | Submitted(order: Order, response: Option<Order>)

  /** The same body before its type-specific entries. */
  datatype Draft = Refused(reason: Reject) | Drafted(order: Order)

  // ---------------------------------------------------------------------
  // Validation

  /** The parameters the source accepts. */
  predicate ValidParameters(symbol: string, qty: Option<real>, notional: Option<real>) {
    && symbol != []
    && qty.Some? != notional.Some?
    && (qty.Some? ==> qty.value > 0.0)
    && (notional.Some? ==> notional.value > 0.0)
  }

  /** validate_order_parameters: the first failing check, or None when
      the order may go ahead. */
  function ParameterError(symbol: string, qty: Option<real>, notional: Option<real>): (r: Option<Reject>)
    ensures r.None? <==> ValidParameters(symbol, qty, notional)
    ensures symbol == [] ==> r == Some(SymbolRequired)
    ensures r == Some(QtyXorNotional) <==> symbol != [] && qty.Some? == notional.Some?
  {
    if symbol == [] then Some(SymbolRequired)
    else if (qty.None? && notional.None?) || (qty.Some? && notional.Some?) then Some(QtyXorNotional)
    else if qty.Some? && qty.value <= 0.0 then Some(QtyNotPositive)
    else if notional.Some? && notional.value <= 0.0 then Some(NotionalNotPositive)
    else None
  }

  /** `not price or float(price) <= 0`: None and 0.0 are falsy. */
  predicate PriceRejected(price: Option<real>) {
    price.None? || price.value <= 0.0
  }

  /** The first check an order of this kind fails, in the source's order:
      the shared parameters, then the stop price, then the limit price. */
  function FirstRejection(k: Kind, symbol: string, qty: Option<real>, notional: Option<real>): (r: Option<Reject>)
    ensures r.None? <==> ValidParameters(symbol, qty, notional) && PricesAccepted(k)
  {
    var base := ParameterError(symbol, qty, notional);
    if base.Some? then base
    else match k
      case Market(_) => None
      case Limit(limit, _) => if PriceRejected(limit) then Some(LimitNotPositive) else None
      case Stop(stop) => if PriceRejected(stop) then Some(StopNotPositive) else None
      case StopLimit(stop, limit) =>
        if PriceRejected(stop) then Some(StopNotPositive)
        else if PriceRejected(limit) then Some(LimitNotPositive)
        else None
  }

  /** Every price the kind takes is truthy and positive. */
  predicate PricesAccepted(k: Kind) {
    match k
    case Market(_) => true
    case Limit(limit, _) => !PriceRejected(limit)
    case Stop(stop) => !PriceRejected(stop)
    case StopLimit(stop, limit) => !PriceRejected(stop) && !PriceRejected(limit)
  }

  // ---------------------------------------------------------------------
  // The order body

  /** o holds key, with value v. */
  predicate Holds(o: Order, key: string, v: Value) {
    key in o && o[key] == v
  }

  /** The keys _prepare_order_base writes. */
  function BaseKeys(qty: Option<real>): set<string> {
    {"symbol", "side", "time_in_force", if qty.Some? then "qty" else "notional"}
  }

  /** The entries _prepare_order_base writes: the upper-cased symbol, the
      side and time in force as their string values, and whichever of qty
      and notional was given. */
  predicate IsBaseOrder(o: Order, symbol: string, side: OrderSide, qty: Option<real>,
                        notional: Option<real>, tif: TimeInForce)
  {
    && Holds(o, "symbol", Text(Upper(symbol)))
    && Holds(o, "side", Text(SideValue(side)))
    && Holds(o, "time_in_force", Text(TimeInForceValue(tif)))
    && (qty.Some? ==> Holds(o, "qty", Amount(qty.value)))
    && (qty.None? ==> notional.Some? && Holds(o, "notional", Amount(notional.value)))
  }

  /** The keys the order of kind k carries on top of the base ones. */
  function KindKeys(k: Kind): set<string> {
    match k
    case Market(ext) => {"type"} + (if ext then {"extended_hours"} else {})
    case Limit(_, ext) => {"type", "limit_price"} + (if ext then {"extended_hours"} else {})
    case Stop(_) => {"type", "stop_price"}
    case StopLimit(_, _) => {"type", "stop_price", "limit_price"}
  }

  function TypeValue(k: Kind): string {
    match k
    case Market(_) => "market"
    case Limit(_, _) => "limit"
    case Stop(_) => "stop"
    case StopLimit(_, _) => "stop_limit"
  }

  /** The type-specific entries of an accepted order of kind k. */
  predicate HasKindEntries(o: Order, k: Kind)
    requires PricesAccepted(k)
  {
    && Holds(o, "type", Text(TypeValue(k)))
    && (k.Limit? || k.StopLimit? ==> Holds(o, "limit_price", Amount(k.limitPrice.value)))
    && (k.Stop? || k.StopLimit? ==> Holds(o, "stop_price", Amount(k.stopPrice.value)))
    && ((k.Market? || k.Limit?) && k.extendedHours ==> Holds(o, "extended_hours", Flag(true)))
  }

  // ---------------------------------------------------------------------
  // Operations

  /** _prepare_order_base: validates, then builds the base body. */
  method PrepareOrderBase(symbol: string, side: OrderSide, qty: Option<real>,
                          notional: Option<real>, tif: TimeInForce)
    returns (d: Draft)
    ensures d.Refused? <==> !ValidParameters(symbol, qty, notional)
    ensures d.Refused? ==> Some(d.reason) == ParameterError(symbol, qty, notional)
    ensures d.Drafted? ==> IsBaseOrder(d.order, symbol, side, qty, notional, tif)
    ensures d.Drafted? ==> d.order.Keys == BaseKeys(qty)
  {
    var error := ParameterError(symbol, qty, notional);
    if error.Some? {
      return Refused(error.value);
    }
    var order: Order := map[];
    order := order["symbol" := Text(Upper(symbol))];
    order := order["side" := Text(SideValue(side))];
    order := order["time_in_force" := Text(TimeInForceValue(tif))];
    if qty.Some? {
      order := order["qty" := Amount(qty.value)];
    } else {
      order := order["notional" := Amount(notional.value)];
    }
    return Drafted(order);
  }

  /** What market_order, limit_order, stop_order and stop_limit_order
      promise: the first failed check in the source's order stops the order
      and nothing is submitted; otherwise the body holds the base entries and
      the entries of its kind, no other key, and is submitted once. */
  predicate PlacedAs(s: Submission, k: Kind, symbol: string, side: OrderSide, qty: Option<real>,
                     notional: Option<real>, tif: TimeInForce, submit: Order -> Option<Order>)
  {
    && (s.Rejected? <==> !(ValidParameters(symbol, qty, notional) && PricesAccepted(k)))
    && (s.Rejected? ==> Some(s.reason) == FirstRejection(k, symbol, qty, notional))
    && (s.Submitted? ==>
          && PricesAccepted(k)
          && IsBaseOrder(s.order, symbol, side, qty, notional, tif)
          && HasKindEntries(s.order, k)
          && s.order.Keys == BaseKeys(qty) + KindKeys(k)
          && s.response == submit(s.order))
  }

  /** market_order. */
  method MarketOrder(symbol: string, side: OrderSide, qty: Option<real>, notional: Option<real>,
                     tif: TimeInForce, extendedHours: bool, submit: Order -> Option<Order>)
    returns (s: Submission)
    ensures PlacedAs(s, Market(extendedHours), symbol, side, qty, notional, tif, submit)
  {
    var d := PrepareOrderBase(symbol, side, qty, notional, tif);
    if d.Refused? {
      return Rejected(d.reason);
    }
    var order := d.order;
    order := order["type" := Text("market")];
    if extendedHours {
      order := order["extended_hours" := Flag(true)];
    }
    var response := submit(order);
    return Submitted(order, response);
  }

  /** limit_order. */
  method LimitOrder(symbol: string, side: OrderSide, limitPrice: Option<real>, qty: Option<real>,
                    notional: Option<real>, tif: TimeInForce, extendedHours: bool,
                    submit: Order -> Option<Order>)
    returns (s: Submission)
    ensures PlacedAs(s, Limit(limitPrice, extendedHours), symbol, side, qty, notional, tif, submit)
  {
    var d := PrepareOrderBase(symbol, side, qty, notional, tif);
    if d.Refused? {
      return Rejected(d.reason);
    }
    var order := d.order;
    if PriceRejected(limitPrice) {
      return Rejected(LimitNotPositive);
    }
    order := order["type" := Text("limit")];
    order := order["limit_price" := Amount(limitPrice.value)];
    if extendedHours {
      order := order["extended_hours" := Flag(true)];
    }
    var response := submit(order);
    return Submitted(order, response);
  }

  /** stop_order. */
  method StopOrder(symbol: string, side: OrderSide, stopPrice: Option<real>, qty: Option<real>,
                   notional: Option<real>, tif: TimeInForce, submit: Order -> Option<Order>)
    returns (s: Submission)
    ensures PlacedAs(s, Stop(stopPrice), symbol, side, qty, notional, tif, submit)
  {
    var d := PrepareOrderBase(symbol, side, qty, notional, tif);
    if d.Refused? {
      return Rejected(d.reason);
    }
    var order := d.order;
    if PriceRejected(stopPrice) {
      return Rejected(StopNotPositive);
    }
    order := order["type" := Text("stop")];
    order := order["stop_price" := Amount(stopPrice.value)];
    var response := submit(order);
    return Submitted(order, response);
  }

  /** stop_limit_order: the stop price is checked before the limit price. */
  method StopLimitOrder(symbol: string, side: OrderSide, stopPrice: Option<real>, limitPrice: Option<real>,
                        qty: Option<real>, notional: Option<real>, tif: TimeInForce,
                        submit: Order -> Option<Order>)
    returns (s: Submission)
    ensures PlacedAs(s, StopLimit(stopPrice, limitPrice), symbol, side, qty, notional, tif, submit)
  {
    var d := PrepareOrderBase(symbol, side, qty, notional, tif);
    if d.Refused? {
      return Rejected(d.reason);
    }
    var order := d.order;
    if PriceRejected(stopPrice) {
      return Rejected(StopNotPositive);
    }
    if PriceRejected(limitPrice) {
      return Rejected(LimitNotPositive);
    }
    order := order["type" := Text("stop_limit")];
    order := order["stop_price" := Amount(stopPrice.value)];
    order := order["limit_price" := Amount(limitPrice.value)];
    var response := submit(order);
    return Submitted(order, response);
  }

  // ---------------------------------------------------------------------
  // Properties

  /** extended_hours is carried only by market and limit orders that asked
      for it; stop and stop-limit orders never carry it. */
  lemma ExtendedHoursOnlyWhenAsked(k: Kind, qty: Option<real>)
    ensures "extended_hours" in BaseKeys(qty) + KindKeys(k)
      <==> (k.Market? || k.Limit?) && k.extendedHours
  {
  }

  /** Exactly one of qty and notional is in an order body. */
  lemma QtyXorNotionalKey(k: Kind, qty: Option<real>)
    ensures ("qty" in BaseKeys(qty) + KindKeys(k)) <==> qty.Some?
    ensures ("notional" in BaseKeys(qty) + KindKeys(k)) <==> qty.None?
  {
  }

  /** A stop-limit order with a bad stop price reports the stop price,
      whatever the limit price. */
  lemma StopCheckedBeforeLimit(stop: Option<real>, limit: Option<real>, symbol: string,
                               qty: Option<real>, notional: Option<real>)
    requires ValidParameters(symbol, qty, notional)
    requires PriceRejected(stop)
    ensures FirstRejection(StopLimit(stop, limit), symbol, qty, notional) == Some(StopNotPositive)
  {
  }

  /** A bad symbol or amount is reported before any price. */
  lemma ParametersCheckedBeforePrices(k: Kind, symbol: string, qty: Option<real>, notional: Option<real>)
    requires !ValidParameters(symbol, qty, notional)
    ensures FirstRejection(k, symbol, qty, notional) == ParameterError(symbol, qty, notional)
    ensures FirstRejection(k, symbol, qty, notional) != Some(StopNotPositive)
    ensures FirstRejection(k, symbol, qty, notional) != Some(LimitNotPositive)
  {
  }
}
