/** AIBroker.execute_actions and the input checks of AIBroker.buy_stock.

    Every action gets exactly one entry in the results dict, under a key made
    of its name and its zero-based position. The brokerage behind buy_stock,
    get_stock_price and get_account_info is an oracle `respond(i, call)`: the
    answer to the call made while executing action i. Those three methods
    catch their own exceptions, so an oracle answer is always a reply. */
module ActionDispatch {
  import opened Base
  import opened ActionExtraction

  /** A request made to the brokerage. */
  datatype Call =
    | MarketBuy(symbol: string, qty: int)   // MarketOrderRequest(symbol, qty, side=BUY, time_in_force=DAY)
    | PriceQuery(symbol: string)
    | AccountQuery

  /** What the brokerage side returned: its dict's "status" entry and the
      rest. The entry is "success" or "error" for buy_stock and
      get_stock_price; get_account_info's dict literal repeats the key, so
      there the later entry, the account's own status, is what is kept. */
  datatype Answer = Answer(status: string, detail: string)

  /** Why reading an action's params raised an exception. */
  datatype Fault =
    | SymbolNotText               // params["symbol"].strip() on a non-string
    | QuantityNotInteger(text: string)  // int(params["quantity"]) on a malformed string

  /** The value stored under a result key. */
  datatype Reply =
    | Rejected(message: string)           // {"status": "error", "message": message}, built locally
    | Raised(action: string, fault: Fault) // {"status": "error", "message": f"Error executing {action}: {e}"}
    | Answered(call: Call, answer: Answer) // what the brokerage returned for call

  // ---------------------------------------------------------------------
  // buy_stock

  /** buy_stock(symbol, quantity): reject an empty symbol, then a quantity that
      is 0 or negative; otherwise submit a DAY market buy of the upper-cased
      symbol and return what the brokerage answers. */
  function BuyStock(symbol: string, quantity: int, submit: Call -> Answer): (r: Reply)
    ensures r.Answered? <==> symbol != [] && quantity > 0
    ensures symbol == [] ==> r == Rejected("Symbol is required")
    ensures symbol != [] && quantity <= 0 ==> r == Rejected("Quantity must be positive")
    ensures r.Answered? ==> (r.call.MarketBuy? && r.call.symbol == Upper(symbol) && r.call.qty == quantity
      && r.answer == submit(r.call))
  {
    if symbol == [] then Rejected("Symbol is required")
    else if quantity <= 0 then Rejected("Quantity must be positive")
    else
      var call := MarketBuy(Upper(symbol), quantity);
      Answered(call, submit(call))
  }

  /** The call buy_stock makes, if any. */
  function BuyStockCall(symbol: string, quantity: int): (c: Option<Call>)
    ensures c.Some? <==> symbol != [] && quantity > 0
  {
    if symbol != [] && quantity > 0 then Some(MarketBuy(Upper(symbol), quantity)) else None
  }

  /** get_stock_price(symbol): normalizes the symbol again and asks the brokerage. */
  function PriceCall(symbol: string): Call {
    PriceQuery(Upper(Strip(symbol)))
  }

  // ---------------------------------------------------------------------
  // Reading params

  /** params.get("symbol", "").strip().upper(); None when that raises. */
  function SymbolParam(params: map<string, Param>): (r: Option<string>)
    ensures r.Some? ==> IsUpperCase(r.value)
    ensures r.None? <==> "symbol" in params && params["symbol"].Int?
  {
    if "symbol" !in params then Some([])
    else match params["symbol"]
      case Text(s) => Some(Upper(Strip(s)))
      case Int(_) => None
  }

  /** int(params.get("quantity", 0)); None when that raises. */
  function QuantityParam(params: map<string, Param>): (r: Option<int>)
    ensures "quantity" !in params ==> r == Some(0)
    ensures "quantity" in params && params["quantity"].Int? ==> r == Some(params["quantity"].n)
    ensures r.None? ==> "quantity" in params && params["quantity"].Text?
  {
    if "quantity" !in params then Some(0)
    else match params["quantity"]
      case Int(n) => Some(n)
      case Text(s) => ParseInt(s)
  }

  // ---------------------------------------------------------------------
  // One action

  /** What execute_actions decides for one action before any brokerage call. */
  datatype Plan =
    | Refuse(message: string)
    | Fail(fault: Fault)
    | Unknown
    | PerformBuy(symbol: string, quantity: int)
    | PerformPrice(symbol: string)
    | PerformAccount

  /** The branches of the loop body, in the source's order. */
  function PlanFor(a: Action): Plan {
    if a.name == BUY_STOCK then
      match SymbolParam(a.params)
      case None => Fail(SymbolNotText)
      case Some(symbol) =>
        match QuantityParam(a.params)
        case None => Fail(QuantityNotInteger(a.params["quantity"].s))
        case Some(q) =>
          if symbol == [] then Refuse("Missing or invalid symbol")
          else if q <= 0 then Refuse("Quantity must be positive")
          else PerformBuy(symbol, q)
    else if a.name == GET_STOCK_PRICE then
      match SymbolParam(a.params)
      case None => Fail(SymbolNotText)
      case Some(symbol) =>
        if symbol == [] then Refuse("Missing or invalid symbol") else PerformPrice(symbol)
    else if a.name == GET_ACCOUNT_INFO then PerformAccount
    else Unknown
  }

  /** The three forms of result key. */
  datatype KeyShape = Plain | ErrorKey | UnknownKey

  /** f"{name}_{i}", f"{name}_{i}_error" or f"unknown_action_{i}". */
  function MakeKey(shape: KeyShape, name: string, i: nat): string {
    match shape
    case Plain => name + "_" + NatToString(i)
    case ErrorKey => name + "_" + NatToString(i) + "_error"
    case UnknownKey => "unknown_action_" + NatToString(i)
  }

  /** The result key of action a at position i. */
  function EntryKey(a: Action, i: nat): string {
    MakeKey(ShapeOf(a), a.name, i)
  }

  /** Which form of key action a gets. */
  function ShapeOf(a: Action): KeyShape {
    match PlanFor(a)
    case Fail(_) => ErrorKey
    case Unknown => UnknownKey
    case _ => Plain
  }

  /** The result stored for action a at position i. */
  function EntryReply(a: Action, i: nat, respond: (nat, Call) -> Answer): Reply {
    match PlanFor(a)
    case Refuse(m) => Rejected(m)
    case Fail(f) => Raised(a.name, f)
    case Unknown => Rejected("Unknown action: " + a.name)
    case PerformBuy(symbol, q) => BuyStock(symbol, q, c => respond(i, c))
    case PerformPrice(symbol) => var c := PriceCall(symbol); Answered(c, respond(i, c))
    case PerformAccount => Answered(AccountQuery, respond(i, AccountQuery))
  }

  /** The brokerage call action a leads to, if any. */
  function CallFor(a: Action): Option<Call> {
    match PlanFor(a)
    case PerformBuy(symbol, q) => BuyStockCall(symbol, q)
    case PerformPrice(symbol) => Some(PriceCall(symbol))
    case PerformAccount => Some(AccountQuery)
    case _ => None
  }

  // ---------------------------------------------------------------------
  // All actions

  /** The (key, value) assignments the loop makes, one per action, in order. */
  function Entries(actions: seq<Action>, respond: (nat, Call) -> Answer): (r: seq<(string, Reply)>)
    ensures |r| == |actions|
  {
    seq(|actions|, i requires 0 <= i < |actions| => (EntryKey(actions[i], i), EntryReply(actions[i], i, respond)))
  }

  /** The results dict execute_actions returns. */
  function ResultsOf(actions: seq<Action>, respond: (nat, Call) -> Answer): map<string, Reply> {
    ToMap(Entries(actions, respond))
  }

  /** The brokerage calls made, in order. */
  function CallsOf(actions: seq<Action>): seq<Call> {
    FlatMap(CallFn(), actions)
  }

  function CallFn(): Action -> seq<Call> {
    a => OptionToSeq(CallFor(a))
  }

  /** execute_actions: one iteration per action; a failing action is recorded
      and the loop goes on. Returns the results dict and the calls made. */
  method ExecuteActions(actions: seq<Action>, respond: (nat, Call) -> Answer)
    returns (results: map<string, Reply>, calls: seq<Call>)
    ensures results == ResultsOf(actions, respond)
    ensures calls == CallsOf(actions)
  {
    ghost var entries := Entries(actions, respond);
    results := map[];
    calls := [];
    var i := 0;
    while i < |actions|
      invariant 0 <= i <= |actions|
      invariant results == ToMap(entries[..i])
      invariant calls == CallsOf(actions[..i])
    {
      var a := actions[i];
      assert actions[..i + 1][..i] == actions[..i];
      assert entries[..i + 1][..i] == entries[..i];
      results := results[EntryKey(a, i) := EntryReply(a, i, respond)];
      calls := calls + OptionToSeq(CallFor(a));
      i := i + 1;
    }
    assert actions[..|actions|] == actions;
    assert entries[..|entries|] == entries;
  }

  // ---------------------------------------------------------------------
  // Keys

  const ERROR_SUFFIX: string := "_error"

  /** The position a result key was made from: drop a trailing "_error",
      then read the trailing digits. */
  function KeyIndex(key: string): nat {
    var body := if |key| >= |ERROR_SUFFIX| && key[|key| - |ERROR_SUFFIX|..] == ERROR_SUFFIX
      then key[..|key| - |ERROR_SUFFIX|] else key;
    DigitsValue(TrailingDigits(body))
  }

  /** A key ending in a digit has no "_error" suffix to drop. */
  lemma DigitEndedKeyIndex(key: string)
    requires key != [] && IsDigit(key[|key| - 1])
    ensures KeyIndex(key) == DigitsValue(TrailingDigits(key))
  {
    if |key| >= |ERROR_SUFFIX| {
      var tail := key[|key| - |ERROR_SUFFIX|..];
      assert tail[|ERROR_SUFFIX| - 1] == key[|key| - 1];
      assert ERROR_SUFFIX[|ERROR_SUFFIX| - 1] == 'r';
      assert tail != ERROR_SUFFIX;
    }
  }

  lemma {:induction false} KeyIndexPlain(pre: string, i: nat)
    requires pre != [] && pre[|pre| - 1] == '_'
    ensures KeyIndex(pre + NatToString(i)) == i
  {
    var d := NatToString(i);
    var key := pre + d;
    assert key[|key| - 1] == d[|d| - 1];
    DigitEndedKeyIndex(key);
    TrailingDigitsAfter(pre, d);
    NatToStringValue(i);
  }

  lemma {:induction false} KeyIndexError(pre: string, i: nat)
    requires pre != [] && pre[|pre| - 1] == '_'
    ensures KeyIndex(pre + NatToString(i) + ERROR_SUFFIX) == i
  {
    var d := NatToString(i);
    var key := pre + d + ERROR_SUFFIX;
    assert key[|key| - |ERROR_SUFFIX|..] == ERROR_SUFFIX;
    assert key[..|key| - |ERROR_SUFFIX|] == pre + d;
    TrailingDigitsAfter(pre, d);
    NatToStringValue(i);
  }

  /** Every form of key records the position it was made for. */
  lemma MakeKeyIndex(shape: KeyShape, name: string, i: nat)
    ensures KeyIndex(MakeKey(shape, name, i)) == i
  {
    match shape
    case Plain =>
      KeyIndexPlain(name + "_", i);
    case ErrorKey =>
      KeyIndexError(name + "_", i);
    case UnknownKey =>
      KeyIndexPlain("unknown_action_", i);
  }

  /** Keys made for different positions differ, whatever their names and forms. */
  lemma KeysDistinct(s1: KeyShape, name1: string, i: nat, s2: KeyShape, name2: string, j: nat)
    requires i != j
    ensures MakeKey(s1, name1, i) != MakeKey(s2, name2, j)
  {
    MakeKeyIndex(s1, name1, i);
    MakeKeyIndex(s2, name2, j);
  }

  lemma EntryKeysDistinct(actions: seq<Action>, respond: (nat, Call) -> Answer)
    ensures var entries := Entries(actions, respond);
      forall i, j :: 0 <= i < j < |entries| ==> entries[i].0 != entries[j].0
  {
    var entries := Entries(actions, respond);
    forall i, j | 0 <= i < j < |entries|
      ensures entries[i].0 != entries[j].0
    {
      KeysDistinct(ShapeOf(actions[i]), actions[i].name, i, ShapeOf(actions[j]), actions[j].name, j);
    }
  }

  /** Exactly one entry per action: the results dict has |actions| keys, the
      entry of action i is its own reply whatever the other actions did, and
      there is no other key. */
  lemma OneEntryPerAction(actions: seq<Action>, respond: (nat, Call) -> Answer)
    ensures var results := ResultsOf(actions, respond);
      && |results| == |actions|
      && (forall i :: 0 <= i < |actions| ==>
            EntryKey(actions[i], i) in results && results[EntryKey(actions[i], i)] == EntryReply(actions[i], i, respond))
      && (forall k :: k in results ==> exists i :: 0 <= i < |actions| && k == EntryKey(actions[i], i))
  {
    var entries := Entries(actions, respond);
    EntryKeysDistinct(actions, respond);
    ToMapDistinct(entries);
    var results := ToMap(entries);
    forall i | 0 <= i < |actions|
      ensures EntryKey(actions[i], i) in results && results[EntryKey(actions[i], i)] == EntryReply(actions[i], i, respond)
    {
      assert entries[i] == (EntryKey(actions[i], i), EntryReply(actions[i], i, respond));
    }
    forall k | k in results
      ensures exists i :: 0 <= i < |actions| && k == EntryKey(actions[i], i)
    {
      var i :| 0 <= i < |entries| && entries[i].0 == k;
      assert entries[i].0 == EntryKey(actions[i], i);
    }
  }

  // ---------------------------------------------------------------------
  // Properties of single actions

  /** A buy action with an empty symbol or a quantity <= 0 is refused without a call. */
  lemma InvalidBuyIsRefused(a: Action, symbol: string, q: int)
    requires a.name == BUY_STOCK
    requires SymbolParam(a.params) == Some(symbol) && QuantityParam(a.params) == Some(q)
    requires symbol == [] || q <= 0
    ensures forall i: nat, respond: (nat, Call) -> Answer :: EntryReply(a, i, respond).Rejected?
    ensures CallFor(a) == None
  {
  }

  /** When execute_actions hands a buy to buy_stock, buy_stock's own checks
      pass: the order is submitted with the upper-cased symbol and the quantity. */
  lemma DispatchedBuyIsSubmitted(a: Action, i: nat, respond: (nat, Call) -> Answer)
    requires PlanFor(a).PerformBuy?
    ensures var p := PlanFor(a);
      && EntryReply(a, i, respond) == Answered(MarketBuy(p.symbol, p.quantity), respond(i, MarketBuy(p.symbol, p.quantity)))
      && CallFor(a) == Some(MarketBuy(p.symbol, p.quantity))
  {
    var p := PlanFor(a);
    PerformBuyIsNormalized(a);
    assert EntryReply(a, i, respond) == BuyStock(p.symbol, p.quantity, c => respond(i, c));
    assert CallFor(a) == BuyStockCall(p.symbol, p.quantity);
  }

  /** The buy the loop performs is already upper-cased, non-empty and positive. */
  lemma PerformBuyIsNormalized(a: Action)
    requires PlanFor(a).PerformBuy?
    ensures Upper(PlanFor(a).symbol) == PlanFor(a).symbol
    ensures PlanFor(a).symbol != [] && PlanFor(a).quantity > 0
  {
    UpperIdempotent(Strip(a.params["symbol"].s));
  }

  /** Every order the loop submits has a non-empty upper-case symbol and a positive quantity. */
  lemma {:induction false} SubmittedBuysAreValid(actions: seq<Action>)
    ensures forall c :: c in CallsOf(actions) && c.MarketBuy? ==>
      c.symbol != [] && IsUpperCase(c.symbol) && c.qty > 0
  {
    var f := CallFn();
    forall c | c in CallsOf(actions) && c.MarketBuy?
      ensures c.symbol != [] && IsUpperCase(c.symbol) && c.qty > 0
    {
      FlatMapMember(f, actions, c);
      var i :| 0 <= i < |actions| && c in f(actions[i]);
    }
  }

  /** The calls follow the order of the actions; they do not depend on the
      brokerage's answers, so an error for one action never stops the calls
      of later ones. */
  lemma CallsOfAppend(actions: seq<Action>, extra: seq<Action>)
    ensures CallsOf(actions + extra) == CallsOf(actions) + CallsOf(extra)
  {
    FlatMapAppend(CallFn(), actions, extra);
  }
}
