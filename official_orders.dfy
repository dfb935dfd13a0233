/** The SDK order manager (OfficialOrderManager in official/orders.py):
    parameter checks, the order request each order method builds, the
    conversion of the SDK's order object into a dictionary, and the
    cancel-everything loop. The trading client is a bundle of oracles. */
module OfficialOrders {
  import opened Base
  import CoreOrders

  type OrderSide = CoreOrders.OrderSide
  type TimeInForce = CoreOrders.TimeInForce
  type Kind = CoreOrders.Kind

  /** The side argument: a string, or already an OrderSide. */
  datatype SideArg = SideText(text: string) | SideEnum(side: OrderSide)

  /** A value of an order request or of an order dictionary. */
  datatype Field =
    | Str(s: string)
    | Num(x: real)
    | Bool(b: bool)
    | SideField(side: OrderSide)
    | TifField(tif: TimeInForce)
    | Null

  type Dict = map<string, Field>

  /** An order request: the request class (one per kind) and its keyword arguments. */
  datatype OrderRequest = OrderRequest(kind: Kind, data: Dict)

  /** The SDK's order object, with enum attributes already read as their
      `.value` and timestamps as their isoformat(). */
  datatype SdkOrder = SdkOrder(
    id: string, clientOrderId: string, symbol: string, side: string, orderType: string,
    timeInForce: string, status: string, submittedAt: Option<string>, filledAt: Option<string>,
    filledQty: Option<real>, filledAvgPrice: Option<real>, extendedHours: bool,
    qty: Option<real>, notional: Option<real>, limitPrice: Option<real>, stopPrice: Option<real>)

  /** The trading client: submit_order (None when building or submitting the
      request raises), get_orders (None when it raises) and cancel_order_by_id
      (false when it raises). */
  datatype TradingClient = TradingClient(
    submit: OrderRequest -> Option<SdkOrder>,
    openOrders: Option<seq<string>>,
    cancel: string -> bool)

  datatype Refusal = SymbolRequired | QtyXorNotional | InvalidSide | StopNotPositive | LimitNotPositive

  datatype Validated = Invalid(reason: Refusal) | Valid(side: OrderSide)

  /** What an order method did: nothing without a client, nothing after a
      failed check, otherwise one request submitted, and the order's
      dictionary when the client answered (None when it raised). */
  datatype Placement = NotReady | Refused(reason: Refusal) | Sent(request: OrderRequest, info: Option<Dict>)

  // ---------------------------------------------------------------------
  // Validation

  /** _validate_basic_params: a non-empty symbol, exactly one of qty and
      notional (their sign is not looked at), and a side that is an
      OrderSide or a string equal to "buy" or "sell" ignoring case. */
  function ValidateBasicParams(symbol: string, side: SideArg, qty: Option<real>, notional: Option<real>)
    : (r: Validated)
    ensures r.Valid? <==> symbol != [] && qty.Some? != notional.Some?
                          && (side.SideText? ==> Lower(side.text) in {"buy", "sell"})
    ensures r.Valid? && side.SideEnum? ==> r.side == side.side
    ensures r.Valid? && side.SideText? ==> (r.side == CoreOrders.Buy <==> Lower(side.text) == "buy")
    ensures symbol == [] ==> r == Invalid(SymbolRequired)
  {
    if symbol == [] then Invalid(SymbolRequired)
    else if (qty.None? && notional.None?) || (qty.Some? && notional.Some?) then Invalid(QtyXorNotional)
    else match side
      case SideEnum(s) => Valid(s)
      case SideText(t) =>
        if Lower(t) == "buy" then Valid(CoreOrders.Buy)
        else if Lower(t) == "sell" then Valid(CoreOrders.Sell)
        else Invalid(InvalidSide)
  }

  /** The first check an order of kind k fails: the basic parameters, then
      the stop price, then the limit price. */
  function FirstRefusal(k: Kind, symbol: string, side: SideArg, qty: Option<real>, notional: Option<real>)
    : (r: Option<Refusal>)
    ensures r.None? <==> ValidateBasicParams(symbol, side, qty, notional).Valid? && CoreOrders.PricesAccepted(k)
  {
    var v := ValidateBasicParams(symbol, side, qty, notional);
    if v.Invalid? then Some(v.reason)
    else match k
      case Market(_) => None
      case Limit(limit, _) => if CoreOrders.PriceRejected(limit) then Some(LimitNotPositive) else None
      case Stop(stop) => if CoreOrders.PriceRejected(stop) then Some(StopNotPositive) else None
      case StopLimit(stop, limit) =>
        if CoreOrders.PriceRejected(stop) then Some(StopNotPositive)
        else if CoreOrders.PriceRejected(limit) then Some(LimitNotPositive)
        else None
  }

  // ---------------------------------------------------------------------
  // Order requests

  predicate Holds(d: Dict, key: string, v: Field) {
    key in d && d[key] == v
  }

  /** The keys of the request of kind k: the shared ones, one of qty and
      notional, and the kind's own. extended_hours is passed, True or
      False, to market and limit requests only. */
  function RequestKeys(k: Kind, qty: Option<real>): set<string> {
    {"symbol", "side", "time_in_force", if qty.Some? then "qty" else "notional"}
    + match k
      case Market(_) => {"extended_hours"}
      case Limit(_, _) => {"limit_price", "extended_hours"}
      case Stop(_) => {"stop_price"}
      case StopLimit(_, _) => {"stop_price", "limit_price"}
  }

  /** r is the request of kind k for these parameters, once they passed. */
  predicate IsRequest(r: OrderRequest, k: Kind, symbol: string, side: OrderSide, qty: Option<real>,
                      notional: Option<real>, tif: TimeInForce)
    requires CoreOrders.PricesAccepted(k)
  {
    && r.kind == k
    && r.data.Keys == RequestKeys(k, qty)
    && Holds(r.data, "symbol", Str(Upper(symbol)))
    && Holds(r.data, "side", SideField(side))
    && Holds(r.data, "time_in_force", TifField(tif))
    && (qty.Some? ==> Holds(r.data, "qty", Num(qty.value)))
    && (qty.None? ==> notional.Some? && Holds(r.data, "notional", Num(notional.value)))
    && (k.Market? || k.Limit? ==> Holds(r.data, "extended_hours", Bool(k.extendedHours)))
    && (k.Limit? || k.StopLimit? ==> Holds(r.data, "limit_price", Num(k.limitPrice.value)))
    && (k.Stop? || k.StopLimit? ==> Holds(r.data, "stop_price", Num(k.stopPrice.value)))
  }

  // ---------------------------------------------------------------------
  // Order dictionaries

  predicate TruthyAmount(x: Option<real>) {
    x.Some? && x.value != 0.0
  }

  function OptionalText(x: Option<string>): Field {
    if x.Some? then Str(x.value) else Null
  }

  function OptionalNum(x: Option<real>): Field {
    if x.Some? then Num(x.value) else Null
  }

  const ALWAYS_KEYS: set<string> := {
    "id", "client_order_id", "symbol", "side", "type", "time_in_force", "status",
    "submitted_at", "filled_at", "filled_qty", "filled_avg_price", "extended_hours"
  }

  /** The twelve attributes _order_to_dict always copies. */
  predicate HasAlwaysEntries(d: Dict, o: SdkOrder) {
    && Holds(d, "id", Str(o.id))
    && Holds(d, "client_order_id", Str(o.clientOrderId))
    && Holds(d, "symbol", Str(o.symbol))
    && Holds(d, "side", Str(o.side))
    && Holds(d, "type", Str(o.orderType))
    && Holds(d, "time_in_force", Str(o.timeInForce))
    && Holds(d, "status", Str(o.status))
    && Holds(d, "submitted_at", OptionalText(o.submittedAt))
    && Holds(d, "filled_at", OptionalText(o.filledAt))
    && Holds(d, "filled_qty", OptionalNum(o.filledQty))
    && Holds(d, "filled_avg_price", OptionalNum(o.filledAvgPrice))
    && Holds(d, "extended_hours", Bool(o.extendedHours))
  }

  /** The keys of _order_to_dict(o): qty, notional, limit_price and
      stop_price appear exactly when the attribute is truthy. */
  function OrderDictKeys(o: SdkOrder): set<string> {
    ALWAYS_KEYS
    + (if TruthyAmount(o.qty) then {"qty"} else {})
    + (if TruthyAmount(o.notional) then {"notional"} else {})
    + (if TruthyAmount(o.limitPrice) then {"limit_price"} else {})
    + (if TruthyAmount(o.stopPrice) then {"stop_price"} else {})
  }

  /** d is _order_to_dict(o). */
  predicate DescribesOrder(d: Dict, o: SdkOrder) {
    && d.Keys == OrderDictKeys(o)
    && HasAlwaysEntries(d, o)
    && (TruthyAmount(o.qty) ==> Holds(d, "qty", Num(o.qty.value)))
    && (TruthyAmount(o.notional) ==> Holds(d, "notional", Num(o.notional.value)))
    && (TruthyAmount(o.limitPrice) ==> Holds(d, "limit_price", Num(o.limitPrice.value)))
    && (TruthyAmount(o.stopPrice) ==> Holds(d, "stop_price", Num(o.stopPrice.value)))
  }

  /** The dictionary literal at the head of _order_to_dict. */
  method AlwaysEntries(o: SdkOrder) returns (d: Dict)
    ensures d.Keys == ALWAYS_KEYS
    ensures HasAlwaysEntries(d, o)
  {
    d := map[
      "id" := Str(o.id),
      "client_order_id" := Str(o.clientOrderId),
      "symbol" := Str(o.symbol),
      "side" := Str(o.side),
      "type" := Str(o.orderType),
      "time_in_force" := Str(o.timeInForce),
      "status" := Str(o.status),
      "submitted_at" := OptionalText(o.submittedAt),
      "filled_at" := OptionalText(o.filledAt),
      "filled_qty" := OptionalNum(o.filledQty),
      "filled_avg_price" := OptionalNum(o.filledAvgPrice),
      "extended_hours" := Bool(o.extendedHours)
    ];
  }

  /** The four conditional entries of _order_to_dict, added one by one. */
  method OptionalEntries(o: SdkOrder) returns (d: Dict)
    ensures d.Keys == OrderDictKeys(o) - ALWAYS_KEYS
    ensures TruthyAmount(o.qty) ==> Holds(d, "qty", Num(o.qty.value))
    ensures TruthyAmount(o.notional) ==> Holds(d, "notional", Num(o.notional.value))
    ensures TruthyAmount(o.limitPrice) ==> Holds(d, "limit_price", Num(o.limitPrice.value))
    ensures TruthyAmount(o.stopPrice) ==> Holds(d, "stop_price", Num(o.stopPrice.value))
  {
    d := map[];
    if TruthyAmount(o.qty) {
      d := d["qty" := Num(o.qty.value)];
    }
    if TruthyAmount(o.notional) {
      d := d["notional" := Num(o.notional.value)];
    }
    if TruthyAmount(o.limitPrice) {
      d := d["limit_price" := Num(o.limitPrice.value)];
    }
    if TruthyAmount(o.stopPrice) {
      d := d["stop_price" := Num(o.stopPrice.value)];
    }
  }

  /** _order_to_dict: the twelve entries, then the truthy optional ones. */
  method OrderToDict(o: SdkOrder) returns (d: Dict)
    ensures DescribesOrder(d, o)
  {
    var always := AlwaysEntries(o);
    var optional := OptionalEntries(o);
    d := always + optional;
  }

  // ---------------------------------------------------------------------
  // Placing orders

  /** What market_order, limit_order, stop_order and stop_limit_order
      promise: without a client nothing happens; the first failed check
      stops the order before anything is sent; otherwise the request of the
      kind is submitted once and the answer, if any, is converted. */
  predicate PlacedAs(p: Placement, k: Kind, client: Option<TradingClient>, symbol: string, side: SideArg,
                     qty: Option<real>, notional: Option<real>, tif: TimeInForce)
  {
    && (client.None? <==> p.NotReady?)
    && (client.Some? ==>
          && (p.Refused? <==> FirstRefusal(k, symbol, side, qty, notional).Some?)
          && (p.Refused? ==> Some(p.reason) == FirstRefusal(k, symbol, side, qty, notional)))
    && (p.Sent? ==>
          && client.Some?
          && ValidateBasicParams(symbol, side, qty, notional).Valid?
          && CoreOrders.PricesAccepted(k)
          && IsRequest(p.request, k, symbol, ValidateBasicParams(symbol, side, qty, notional).side,
                       qty, notional, tif)
          && (p.info.Some? <==> client.value.submit(p.request).Some?)
          && (p.info.Some? ==> DescribesOrder(p.info.value, client.value.submit(p.request).value)))
  }

  /** The request body shared by the four order methods. */
  method BaseRequestData(symbol: string, side: OrderSide, qty: Option<real>, notional: Option<real>,
                         tif: TimeInForce)
    returns (data: Dict)
    requires qty.Some? != notional.Some?
    ensures data.Keys == {"symbol", "side", "time_in_force", if qty.Some? then "qty" else "notional"}
    ensures Holds(data, "symbol", Str(Upper(symbol)))
    ensures Holds(data, "side", SideField(side))
    ensures Holds(data, "time_in_force", TifField(tif))
    ensures qty.Some? ==> Holds(data, "qty", Num(qty.value))
    ensures qty.None? ==> Holds(data, "notional", Num(notional.value))
  {
    data := map["symbol" := Str(Upper(symbol)), "side" := SideField(side), "time_in_force" := TifField(tif)];
    if qty.Some? {
      data := data["qty" := Num(qty.value)];
    } else {
      data := data["notional" := Num(notional.value)];
    }
  }

  /** The request each order method builds once its checks have passed. */
  method RequestFor(k: Kind, symbol: string, side: OrderSide, qty: Option<real>, notional: Option<real>,
                    tif: TimeInForce)
    returns (r: OrderRequest)
    requires CoreOrders.PricesAccepted(k)
    requires qty.Some? != notional.Some?
    ensures IsRequest(r, k, symbol, side, qty, notional, tif)
  {
    var data := BaseRequestData(symbol, side, qty, notional, tif);
    match k {
      case Market(ext) =>
        data := data["extended_hours" := Bool(ext)];
      case Limit(limit, ext) =>
        data := data["limit_price" := Num(limit.value)];
        data := data["extended_hours" := Bool(ext)];
      case Stop(stop) =>
        data := data["stop_price" := Num(stop.value)];
      case StopLimit(stop, limit) =>
        data := data["stop_price" := Num(stop.value)];
        data := data["limit_price" := Num(limit.value)];
    }
    return OrderRequest(k, data);
  }

  /** Submits the request and converts the answer. */
  method Submit(client: TradingClient, request: OrderRequest) returns (info: Option<Dict>)
    ensures info.Some? <==> client.submit(request).Some?
    ensures info.Some? ==> DescribesOrder(info.value, client.submit(request).value)
  {
    var answer := client.submit(request);
    if answer.None? {
      return None;
    }
    var d := OrderToDict(answer.value);
    return Some(d);
  }

  /** market_order. */
  method MarketOrder(client: Option<TradingClient>, symbol: string, side: SideArg, qty: Option<real>,
                     notional: Option<real>, tif: TimeInForce, extendedHours: bool)
    returns (p: Placement)
    ensures PlacedAs(p, CoreOrders.Market(extendedHours), client, symbol, side, qty, notional, tif)
  {
    if client.None? {
      return NotReady;
    }
    var v := ValidateBasicParams(symbol, side, qty, notional);
    if v.Invalid? {
      return Refused(v.reason);
    }
    var request := RequestFor(CoreOrders.Market(extendedHours), symbol, v.side, qty, notional, tif);
    var info := Submit(client.value, request);
    return Sent(request, info);
  }

  /** limit_order. */
  method LimitOrder(client: Option<TradingClient>, symbol: string, side: SideArg, limitPrice: Option<real>,
                    qty: Option<real>, notional: Option<real>, tif: TimeInForce, extendedHours: bool)
    returns (p: Placement)
    ensures PlacedAs(p, CoreOrders.Limit(limitPrice, extendedHours), client, symbol, side, qty, notional, tif)
  {
    if client.None? {
      return NotReady;
    }
    var v := ValidateBasicParams(symbol, side, qty, notional);
    if v.Invalid? {
      return Refused(v.reason);
    }
    if CoreOrders.PriceRejected(limitPrice) {
      return Refused(LimitNotPositive);
    }
    var request := RequestFor(CoreOrders.Limit(limitPrice, extendedHours), symbol, v.side, qty, notional, tif);
    var info := Submit(client.value, request);
    return Sent(request, info);
  }

  /** stop_order. */
  method StopOrder(client: Option<TradingClient>, symbol: string, side: SideArg, stopPrice: Option<real>,
                   qty: Option<real>, notional: Option<real>, tif: TimeInForce)
    returns (p: Placement)
    ensures PlacedAs(p, CoreOrders.Stop(stopPrice), client, symbol, side, qty, notional, tif)
  {
    if client.None? {
      return NotReady;
    }
    var v := ValidateBasicParams(symbol, side, qty, notional);
    if v.Invalid? {
      return Refused(v.reason);
    }
    if CoreOrders.PriceRejected(stopPrice) {
      return Refused(StopNotPositive);
    }
    var request := RequestFor(CoreOrders.Stop(stopPrice), symbol, v.side, qty, notional, tif);
    var info := Submit(client.value, request);
    return Sent(request, info);
  }

  /** stop_limit_order: the stop price is checked before the limit price. */
  method StopLimitOrder(client: Option<TradingClient>, symbol: string, side: SideArg,
                        stopPrice: Option<real>, limitPrice: Option<real>,
                        qty: Option<real>, notional: Option<real>, tif: TimeInForce)
    returns (p: Placement)
    ensures PlacedAs(p, CoreOrders.StopLimit(stopPrice, limitPrice), client, symbol, side, qty, notional, tif)
  {
    if client.None? {
      return NotReady;
    }
    var v := ValidateBasicParams(symbol, side, qty, notional);
    if v.Invalid? {
      return Refused(v.reason);
    }
    if CoreOrders.PriceRejected(stopPrice) {
      return Refused(StopNotPositive);
    }
    if CoreOrders.PriceRejected(limitPrice) {
      return Refused(LimitNotPositive);
    }
    var request := RequestFor(CoreOrders.StopLimit(stopPrice, limitPrice), symbol, v.side, qty, notional, tif);
    var info := Submit(client.value, request);
    return Sent(request, info);
  }

  // ---------------------------------------------------------------------
  // Cancelling

  /** cancel_order: False without a client, otherwise whether the client's
      cancel went through. */
  method CancelOrder(client: Option<TradingClient>, orderId: string) returns (ok: bool)
    ensures ok <==> client.Some? && client.value.cancel(orderId)
  {
    if client.None? {
      return false;
    }
    ok := client.value.cancel(orderId);
  }

  /** The number of ids whose cancel goes through. */
  function CountCancelled(cancel: string -> bool, ids: seq<string>): (n: nat)
    ensures n <= |ids|
  {
    if ids == [] then 0
    else CountCancelled(cancel, ids[..|ids| - 1]) + (if cancel(ids[|ids| - 1]) then 1 else 0)
  }

  /** Every cancel went through exactly when the count reaches the number of orders. */
  lemma {:induction false} CountCancelledAll(cancel: string -> bool, ids: seq<string>)
    ensures CountCancelled(cancel, ids) == |ids| <==> forall i :: 0 <= i < |ids| ==> cancel(ids[i])
  {
    if ids != [] {
      var front := ids[..|ids| - 1];
      CountCancelledAll(cancel, front);
      assert forall i :: 0 <= i < |front| ==> front[i] == ids[i];
    }
  }

  /** cancel_all_orders: False without a client or when the open orders
      cannot be read; True when there are none; otherwise every open order
      is tried in turn, a failure does not stop the next one, and the result
      is True exactly when all of them were cancelled. `attempted` lists the
      ids handed to the client, in order. */
  method CancelAllOrders(client: Option<TradingClient>) returns (ok: bool, attempted: seq<string>)
    ensures client.None? || client.value.openOrders.None? ==> !ok && attempted == []
    ensures client.Some? && client.value.openOrders.Some? ==>
              attempted == client.value.openOrders.value
              && (ok <==> forall i :: 0 <= i < |attempted| ==> client.value.cancel(attempted[i]))
  {
    attempted := [];
    if client.None? {
      return false, [];
    }
    var c := client.value;
    if c.openOrders.None? {
      return false, [];
    }
    var orders := c.openOrders.value;
    if orders == [] {
      return true, [];
    }
    var cancelled := 0;
    var i := 0;
    while i < |orders|
      invariant 0 <= i <= |orders|
      invariant attempted == orders[..i]
      invariant cancelled == CountCancelled(c.cancel, orders[..i])
    {
      if c.cancel(orders[i]) {
        cancelled := cancelled + 1;
      }
      attempted := attempted + [orders[i]];
      assert orders[..i + 1][..i] == orders[..i];
      i := i + 1;
    }
    assert orders[..i] == orders;
    CountCancelledAll(c.cancel, orders);
    ok := cancelled == |orders|;
  }

  // ---------------------------------------------------------------------
  // Properties

  /** The side string is matched ignoring case. */
  lemma SideIgnoresCase(symbol: string, t: string, qty: Option<real>, notional: Option<real>)
    requires symbol != [] && qty.Some? != notional.Some?
    ensures ValidateBasicParams(symbol, SideText(t), qty, notional)
         == ValidateBasicParams(symbol, SideText(Lower(t)), qty, notional)
  {
    LowerIdempotent(t);
  }

  /** Unlike the REST manager, a negative or zero amount passes. */
  lemma NoSignCheck(symbol: string, side: OrderSide, q: real)
    requires symbol != []
    ensures ValidateBasicParams(symbol, SideEnum(side), Some(q), None) == Valid(side)
    ensures ValidateBasicParams(symbol, SideEnum(side), None, Some(q)) == Valid(side)
  {
  }

  /** A stop-limit order with a bad stop price reports the stop price first. */
  lemma StopCheckedBeforeLimit(symbol: string, side: SideArg, stop: Option<real>, limit: Option<real>,
                               qty: Option<real>, notional: Option<real>)
    requires ValidateBasicParams(symbol, side, qty, notional).Valid?
    requires CoreOrders.PriceRejected(stop)
    ensures FirstRefusal(CoreOrders.StopLimit(stop, limit), symbol, side, qty, notional) == Some(StopNotPositive)
  {
  }
}
