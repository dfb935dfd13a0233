/** AIBroker.extract_action_from_response: turning the model's reply into a
    list of {action, params} records.

    The reply's <actions_taken> block is cut into lines; on each non-blank line
    the buy patterns 0-4 are tried in order (the first that matches and parses
    decides), then the price patterns 5-6 (the first that matches decides),
    then, independently, the get_account_info() pattern.

    Patterns 0-6 are regular expressions in the source. Here each is a
    recognizer: a function from a line to the capture groups of
    re.search(pattern, line, re.IGNORECASE), or None when it finds nothing.
    Pattern 7, `get_account_info\(\s*\)`, and the block search are written out. */
module ActionExtraction {
  import opened Base

  /** A value in an action's params dict. */
  datatype Param = Text(s: string) | Int(n: int)

  /** The dict {"action": name, "params": params}. */
  datatype Action = Action(name: string, params: map<string, Param>)

  const BUY_STOCK: string := "buy_stock"
  const GET_STOCK_PRICE: string := "get_stock_price"
  const GET_ACCOUNT_INFO: string := "get_account_info"

  function BuyAction(symbol: string, quantity: int): Action {
    Action(BUY_STOCK, map["symbol" := Text(symbol), "quantity" := Int(quantity)])
  }

  function PriceAction(symbol: string): Action {
    Action(GET_STOCK_PRICE, map["symbol" := Text(symbol)])
  }

  function AccountAction(): Action {
    Action(GET_ACCOUNT_INFO, map[])
  }

  /** group(1) and group(2) of a buy pattern's match. */
  type Groups = (string, string)

  /** The recognizers for action_patterns[0..7]: five buy patterns, each with
      two groups, and two price patterns, each with one group. */
  datatype Patterns = Patterns(buy: seq<string -> Option<Groups>>, price: seq<string -> Option<string>>)

  function NoGroups(line: string): Option<Groups> { None }
  function NoSymbol(line: string): Option<string> { None }

  /** action_patterns[0..7] as the source lists them: five buy and two price patterns. */
  type PatternSet = p: Patterns | |p.buy| == 5 && |p.price| == 2
    witness Patterns([NoGroups, NoGroups, NoGroups, NoGroups, NoGroups], [NoSymbol, NoSymbol])

  /** What one pattern makes of a line: no match; a match whose quantity
      group int() rejects (the source's `continue` to the next pattern); or
      a match that ends the search for this line, with or without an action. */
  datatype Outcome = NoMatch | Unparsable | Decided(action: Option<Action>)

  /** Symbol of the function-call patterns: strip(), strip('"\''), upper(). */
  function CallSymbol(group: string): string {
    Upper(StripQuotes(Strip(group)))
  }

  /** Symbol of the "buy N shares of S" / "buy S N shares" patterns: strip(), upper(). */
  function WordSymbol(group: string): string {
    Upper(Strip(group))
  }

  /** Is a a buy_stock action with a non-empty upper-case symbol and a positive quantity? */
  predicate IsValidBuy(a: Action) {
    && a.name == BUY_STOCK
    && a.params.Keys == {"symbol", "quantity"}
    && a.params["symbol"].Text? && a.params["symbol"].s != [] && IsUpperCase(a.params["symbol"].s)
    && a.params["quantity"].Int? && a.params["quantity"].n > 0
  }

  /** Is a a get_stock_price action with a non-empty upper-case symbol? */
  predicate IsValidPrice(a: Action) {
    && a.name == GET_STOCK_PRICE
    && a.params.Keys == {"symbol"}
    && a.params["symbol"].Text? && a.params["symbol"].s != [] && IsUpperCase(a.params["symbol"].s)
  }

  /** Buy pattern k on a line: groups (symbol, quantity) for k <= 2 and k == 4,
      (quantity, symbol) for k == 3; kept only with a symbol and a quantity > 0. */
  function BuyAt(p: PatternSet, k: nat, line: string): (r: Outcome)
    requires k < 5
    ensures r == NoMatch <==> p.buy[k](line).None?
  {
    match p.buy[k](line)
    case None => NoMatch
    case Some(g) =>
      var symbol := BuySymbol(k, g);
      match ParseInt(if k == 3 then g.0 else g.1)
      case None => Unparsable
      case Some(q) =>
        if symbol != [] && q > 0 then
          Decided(Some(BuyAction(symbol, q)))
        else Decided(None)
  }

  /** The symbol group of buy pattern k, cleaned as the source cleans it. */
  function BuySymbol(k: nat, g: Groups): (s: string)
    ensures IsUpperCase(s)
  {
    if k <= 2 then CallSymbol(g.0) else if k == 3 then WordSymbol(g.1) else WordSymbol(g.0)
  }

  /** A buy pattern only ever decides on a well-formed buy_stock action. */
  lemma BuyAtValid(p: PatternSet, k: nat, line: string)
    requires k < 5
    ensures var r := BuyAt(p, k, line); r.Decided? && r.action.Some? ==> IsValidBuy(r.action.value)
  {
  }

  /** A price pattern only ever decides on a well-formed get_stock_price action. */
  lemma PriceAtValid(p: PatternSet, k: nat, line: string)
    requires k < 2
    ensures var r := PriceAt(p, k, line); r.Decided? && r.action.Some? ==> IsValidPrice(r.action.value)
  {
  }

  /** Price pattern k on a line; a match always decides. */
  function PriceAt(p: PatternSet, k: nat, line: string): (r: Outcome)
    requires k < 2
    ensures r == NoMatch <==> p.price[k](line).None?
    ensures r != Unparsable
  {
    match p.price[k](line)
    case None => NoMatch
    case Some(g) =>
      var symbol := CallSymbol(g);
      if symbol != [] then
        Decided(Some(PriceAction(symbol)))
      else Decided(None)
  }

  /** The outcome of the first decisive pattern in a list of outcomes, tried in
      order; None when no pattern decides. This is the source's `for
      pattern_index in ...: ... break` shape. */
  function FirstDecisive(outs: seq<Outcome>): Option<Action>
    decreases |outs|
  {
    if outs == [] then None
    else if outs[0].Decided? then outs[0].action
    else FirstDecisive(outs[1..])
  }

  /** What buy patterns 0-4 make of a line. */
  function BuyOutcomes(p: PatternSet, line: string): (r: seq<Outcome>)
    ensures |r| == 5
  {
    seq(5, k requires 0 <= k < 5 => BuyAt(p, k, line))
  }

  /** What price patterns 5-6 make of a line. */
  function PriceOutcomes(p: PatternSet, line: string): (r: seq<Outcome>)
    ensures |r| == 2
  {
    seq(2, k requires 0 <= k < 2 => PriceAt(p, k, line))
  }

  /** The buy action of a line. */
  function FirstBuy(p: PatternSet, line: string): Option<Action> {
    FirstDecisive(BuyOutcomes(p, line))
  }

  /** The price action of a line. */
  function FirstPrice(p: PatternSet, line: string): Option<Action> {
    FirstDecisive(PriceOutcomes(p, line))
  }

  // ---------------------------------------------------------------------
  // Pattern 7: get_account_info\(\s*\) under re.IGNORECASE

  const ACCOUNT_CALL: string := "get_account_info("

  /** From position j: optional whitespace, then ')'. */
  predicate ClosesAfterSpaces(line: string, j: int) {
    exists k | j <= k < |line| :: 0 <= j && line[k] == ')' && forall m | j <= m < k :: IsSpace(line[m])
  }

  /** Under re.IGNORECASE, c matches the pattern's lower-case character p:
      c folds to p, and the dotless ı (U+0131) and dotted İ (U+0130) also
      match i. */
  predicate IgnoreCaseMatches(c: char, p: char) {
    LowerChar(c) == p || (p == 'i' && (c == '\U{131}' || c == '\U{130}'))
  }

  /** pat occurs at position i of line, ignoring the case of line's letters. */
  predicate LowerMatchAt(line: string, i: int, pat: string) {
    0 <= i && i + |pat| <= |line| && forall m :: 0 <= m < |pat| ==> IgnoreCaseMatches(line[i + m], pat[m])
  }

  /** The pattern matches starting at position i. */
  predicate AccountCallAt(line: string, i: int) {
    LowerMatchAt(line, i, ACCOUNT_CALL) && ClosesAfterSpaces(line, i + |ACCOUNT_CALL|)
  }

  /** Decides LowerMatchAt character by character. */
  function MatchesLower(line: string, i: nat, pat: string): (r: bool)
    requires i + |pat| <= |line|
    ensures r <==> LowerMatchAt(line, i, pat)
    decreases |pat|
  {
    if pat == [] then true
    else if !IgnoreCaseMatches(line[i], pat[0]) then false
    else
      var r := MatchesLower(line, i + 1, pat[1..]);
      assert r <==> forall m :: 1 <= m < |pat| ==> IgnoreCaseMatches(line[i + m], pat[m]) by {
        assert forall m :: 1 <= m < |pat| ==> pat[1..][m - 1] == pat[m];
        assert forall m :: 0 <= m < |pat| - 1 ==> pat[1..][m] == pat[m + 1];
      }
      r
  }

  function SpacesThenClose(line: string, j: nat): (r: bool)
    ensures r <==> ClosesAfterSpaces(line, j)
    decreases |line| - j
  {
    if j >= |line| then false
    else if line[j] == ')' then true
    else if IsSpace(line[j]) then SpacesThenClose(line, j + 1)
    else false
  }

  /** re.search(pattern 7, line[i..]): some match starts at or after i. */
  function SearchAccountCall(line: string, i: nat): (found: bool)
    ensures found <==> exists j | i <= j <= |line| :: AccountCallAt(line, j)
    decreases |line| - i
  {
    if i + |ACCOUNT_CALL| > |line| then false
    else if MatchesLower(line, i, ACCOUNT_CALL) && SpacesThenClose(line, i + |ACCOUNT_CALL|) then
      assert AccountCallAt(line, i);
      true
    else
      var r := SearchAccountCall(line, i + 1);
      assert !AccountCallAt(line, i);
      r
  }

  /** The search ignores case the way Python's does for this pattern: a
      dotless ı in place of the i still finds the call. */
  lemma DotlessAccountCallFound()
    ensures SearchAccountCall("get_account_\U{131}nfo()", 0)
  {
    var line := "get_account_\U{131}nfo()";
    assert AccountCallAt(line, 0) by {
      assert forall m :: 0 <= m < |ACCOUNT_CALL| ==> IgnoreCaseMatches(line[m], ACCOUNT_CALL[m]);
      assert line[|ACCOUNT_CALL|] == ')';
    }
  }

  // ---------------------------------------------------------------------
  // The whole reply

  const OPEN_TAG: string := "<actions_taken>"
  const CLOSE_TAG: string := "</actions_taken>"

  /** re.search(r'<actions_taken>(.*?)</actions_taken>', response, re.DOTALL).group(1):
      the text between the first opening tag and the first closing tag after it. */
  function ActionsBlock(response: string): (r: Option<string>)
    ensures r.Some? ==> exists i, j ::
      && OccursAt(response, OPEN_TAG, i) && i + |OPEN_TAG| <= j && OccursAt(response, CLOSE_TAG, j)
      && r.value == response[i + |OPEN_TAG|..j]
      && (forall i' :: 0 <= i' < i ==> !OccursAt(response, OPEN_TAG, i'))
      && (forall j' :: i + |OPEN_TAG| <= j' < j ==> !OccursAt(response, CLOSE_TAG, j'))
  {
    match FindFrom(response, OPEN_TAG, 0)
    case None => None
    case Some(i) =>
      match FindFrom(response, CLOSE_TAG, i + |OPEN_TAG|)
      case None => None
      case Some(j) => Some(response[i + |OPEN_TAG|..j])
  }

  /** The actions one line of the block contributes, in the order buy, price, account. */
  function LineActions(p: PatternSet, line: string): seq<Action>
  {
    var l := Strip(line);
    if l == [] then [] else LineOf(FirstBuy(p, l), FirstPrice(p, l), SearchAccountCall(l, 0))
  }

  /** A line's actions from its three findings, in the source's order. */
  function LineOf(buy: Option<Action>, price: Option<Action>, account: bool): seq<Action> {
    OptionToSeq(buy) + OptionToSeq(price) + (if account then [AccountAction()] else [])
  }

  /** The actions of a sequence of lines, line by line. */
  function ActionsOfLines(p: PatternSet, lines: seq<string>): seq<Action> {
    FlatMap(LineFn(p), lines)
  }

  /** LineActions for the patterns p, as a function value. */
  function LineFn(p: PatternSet): string -> seq<Action> {
    line => LineActions(p, line)
  }

  /** What extract_action_from_response returns for a reply. */
  function ExtractedActions(p: PatternSet, response: string): seq<Action> {
    match ActionsBlock(response)
    case None => []
    case Some(block) => ActionsOfLines(p, Split(Strip(block), '\n'))
  }

  /** The source's `for pattern_index in [0, 1, 2, 3, 4]` loop on a stripped
      line: stop at the first match that parses. */
  method FindBuy(p: PatternSet, l: string) returns (buy: Option<Action>)
    ensures buy == FirstBuy(p, l)
  {
    ghost var outs := BuyOutcomes(p, l);
    var k := 0;
    while k < 5
      invariant 0 <= k <= 5
      invariant FirstDecisive(outs) == FirstDecisive(outs[k..])
    {
      var outcome := BuyAt(p, k, l);
      assert outcome == outs[k];
      assert outs[k..][1..] == outs[k + 1..];
      if outcome.Decided? {
        return outcome.action;
      }
      k := k + 1;
    }
    return None;
  }

  /** The source's `for pattern_index in [5, 6]` loop: stop at the first match. */
  method FindPrice(p: PatternSet, l: string) returns (price: Option<Action>)
    ensures price == FirstPrice(p, l)
  {
    ghost var outs := PriceOutcomes(p, l);
    var k := 0;
    while k < 2
      invariant 0 <= k <= 2
      invariant FirstDecisive(outs) == FirstDecisive(outs[k..])
    {
      var outcome := PriceAt(p, k, l);
      assert outcome == outs[k];
      assert outs[k..][1..] == outs[k + 1..];
      if outcome.Decided? {
        return outcome.action;
      }
      k := k + 1;
    }
    return None;
  }

  /** The body of the source's loop over lines: skip a blank line, otherwise
      the buy patterns, the price patterns and the account pattern in turn. */
  method ExtractFromLine(p: PatternSet, line: string) returns (acts: seq<Action>)
    ensures acts == LineActions(p, line)
  {
    var l := Strip(line);
    if l == [] {
      return [];
    }
    var buy := FindBuy(p, l);
    var price := FindPrice(p, l);
    acts := OptionToSeq(buy) + OptionToSeq(price);
    if SearchAccountCall(l, 0) {
      acts := acts + [AccountAction()];
    }
  }

  /** The source's loop over the lines of the block. `lineFn` stands for
      LineActions(p, _), so that the loop's proof need not look inside it. */
  method ExtractFromLines(p: PatternSet, lines: seq<string>, ghost lineFn: string -> seq<Action>)
    returns (actions: seq<Action>)
    requires forall l {:trigger LineActions(p, l)} :: lineFn(l) == LineActions(p, l)
    ensures actions == FlatMap(lineFn, lines)
  {
    actions := [];
    var n := 0;
    while n < |lines|
      invariant 0 <= n <= |lines|
      invariant actions == FlatMap(lineFn, lines[..n])
    {
      var acts := ExtractFromLine(p, lines[n]);
      assert lines[..n + 1][..n] == lines[..n];
      actions := actions + acts;
      n := n + 1;
    }
    assert lines[..|lines|] == lines;
  }

  /** extract_action_from_response: no block, no actions; otherwise the
      actions of the block's lines. */
  method ExtractActionFromResponse(p: PatternSet, response: string) returns (actions: seq<Action>)
    ensures actions == ExtractedActions(p, response)
  {
    var block := ActionsBlock(response);
    if block.None? {
      return [];
    }
    actions := ExtractFromLines(p, Split(Strip(block.value), '\n'), LineFn(p));
  }

  // ---------------------------------------------------------------------
  // Properties

  /** One more line appends that line's actions. */
  lemma ActionsOfLinesSnoc(p: PatternSet, lines: seq<string>, line: string)
    ensures ActionsOfLines(p, lines + [line]) == ActionsOfLines(p, lines) + LineActions(p, line)
  {
    assert (lines + [line])[..|lines|] == lines;
  }

  /** The symbol of a function-call pattern never keeps a quote at either end. */
  lemma CallSymbolUnquoted(group: string)
    ensures var s := CallSymbol(group); s == [] || (!IsQuote(s[0]) && !IsQuote(s[|s| - 1]))
  {
    var t := StripQuotes(Strip(group));
    assert t == [] || (!IsQuote(t[0]) && !IsQuote(t[|t| - 1]));
  }

  /** There is a block exactly when an opening tag is followed by a closing tag. */
  lemma BlockIffTags(response: string)
    ensures ActionsBlock(response).Some? <==>
      exists i, j :: OccursAt(response, OPEN_TAG, i) && i + |OPEN_TAG| <= j && OccursAt(response, CLOSE_TAG, j)
  {
    if exists i, j :: OccursAt(response, OPEN_TAG, i) && i + |OPEN_TAG| <= j && OccursAt(response, CLOSE_TAG, j) {
      var i, j :| OccursAt(response, OPEN_TAG, i) && i + |OPEN_TAG| <= j && OccursAt(response, CLOSE_TAG, j);
      var first := FindFrom(response, OPEN_TAG, 0);
      assert first.Some? && first.value <= i;
      var close := FindFrom(response, CLOSE_TAG, first.value + |OPEN_TAG|);
      assert close.Some?;
    }
  }

  /** Without an <actions_taken>...</actions_taken> block there are no actions. */
  lemma NoBlockNoActions(p: PatternSet, response: string)
    requires !exists i, j :: OccursAt(response, OPEN_TAG, i) && i + |OPEN_TAG| <= j && OccursAt(response, CLOSE_TAG, j)
    ensures ExtractedActions(p, response) == []
  {
    BlockIffTags(response);
  }

  /** Actions follow the order of the lines: the lines' contributions are concatenated. */
  lemma ActionsOfLinesAppend(p: PatternSet, a: seq<string>, b: seq<string>)
    ensures ActionsOfLines(p, a + b) == ActionsOfLines(p, a) + ActionsOfLines(p, b)
  {
    FlatMapAppend(LineFn(p), a, b);
  }

  /** A blank line contributes nothing. */
  lemma BlankLineContributesNothing(p: PatternSet, line: string)
    requires forall i :: 0 <= i < |line| ==> IsSpace(line[i])
    ensures LineActions(p, line) == []
  {
    StripEmptyIffBlank(line);
  }

  /** Inserting a blank line anywhere leaves the actions unchanged. */
  lemma BlankLinesAreIgnored(p: PatternSet, a: seq<string>, blank: string, b: seq<string>)
    requires forall i :: 0 <= i < |blank| ==> IsSpace(blank[i])
    ensures ActionsOfLines(p, a + [blank] + b) == ActionsOfLines(p, a + b)
  {
    BlankLineContributesNothing(p, blank);
    FlatMapSkip(LineFn(p), a, blank, b);
  }

  /** The first decisive outcome wins, whatever the outcomes after it. */
  lemma {:induction false} FirstDecisiveWins(outs: seq<Outcome>, k: nat)
    requires k < |outs| && outs[k].Decided?
    requires forall j :: 0 <= j < k ==> !outs[j].Decided?
    ensures FirstDecisive(outs) == outs[k].action
    decreases k
  {
    if k > 0 {
      assert !outs[0].Decided?;
      assert outs[1..][k - 1] == outs[k];
      FirstDecisiveWins(outs[1..], k - 1);
    }
  }

  /** Conversely, an action found comes from a decisive outcome with no
      decisive outcome before it. */
  lemma {:induction false} FirstDecisiveFrom(outs: seq<Outcome>)
    requires FirstDecisive(outs).Some?
    ensures exists m :: (0 <= m < |outs| && outs[m] == Decided(FirstDecisive(outs))
      && forall j :: 0 <= j < m ==> !outs[j].Decided?)
    decreases |outs|
  {
    if !outs[0].Decided? {
      var rest := outs[1..];
      FirstDecisiveFrom(rest);
      var m :| 0 <= m < |rest| && rest[m] == Decided(FirstDecisive(rest))
        && forall j :: 0 <= j < m ==> !rest[j].Decided?;
      assert outs[m + 1] == rest[m];
      assert forall j :: 1 <= j < m + 1 ==> outs[j] == rest[j - 1];
    }
  }

  /** If every decisive outcome carries an action with property P (or none),
      so does the first one. */
  lemma {:induction false} FirstDecisiveHolds(outs: seq<Outcome>, P: Action -> bool)
    requires forall j :: 0 <= j < |outs| && outs[j].Decided? && outs[j].action.Some? ==> P(outs[j].action.value)
    ensures FirstDecisive(outs).Some? ==> P(FirstDecisive(outs).value)
    decreases |outs|
  {
    if outs != [] && !outs[0].Decided? {
      assert forall j :: 0 <= j < |outs| - 1 ==> outs[1..][j] == outs[j + 1];
      FirstDecisiveHolds(outs[1..], P);
    }
  }

  /** A buy match whose quantity is 0 (or whose symbol is empty) ends the
      search: the line gets no buy action, however later patterns would have matched. */
  lemma RejectedMatchStopsSearch(p: PatternSet, line: string, k: nat)
    requires k < 5
    requires BuyAt(p, k, line) == Decided(None)
    requires forall j :: 0 <= j < k ==> !BuyAt(p, j, line).Decided?
    ensures FirstBuy(p, line) == None
  {
    var outs := BuyOutcomes(p, line);
    assert forall j :: 0 <= j < 5 ==> outs[j] == BuyAt(p, j, line);
    FirstDecisiveWins(outs, k);
  }

  /** Outcomes that do not decide are passed over: the search goes on with
      what follows them. */
  lemma {:induction false} FirstDecisiveSkips(outs: seq<Outcome>, k: nat)
    requires k < |outs|
    requires forall j :: 0 <= j <= k ==> !outs[j].Decided?
    ensures FirstDecisive(outs) == FirstDecisive(outs[k + 1..])
    decreases k
  {
    assert !outs[0].Decided?;
    if k > 0 {
      assert forall j :: 0 <= j <= k - 1 ==> outs[1..][j] == outs[j + 1];
      FirstDecisiveSkips(outs[1..], k - 1);
      assert outs[1..][k..] == outs[k + 1..];
    }
  }

  /** A match that fails to parse (int() raising) does not stop the search:
      when buy pattern k is the first to match and its quantity does not
      parse, the line's buy action is what the patterns after k decide. */
  lemma UnparsableMatchIsSkipped(p: PatternSet, line: string, k: nat)
    requires k < 5
    requires BuyAt(p, k, line) == Unparsable
    requires forall j :: 0 <= j < k ==> !BuyAt(p, j, line).Decided?
    ensures FirstBuy(p, line) == FirstDecisive(BuyOutcomes(p, line)[k + 1..])
  {
    var outs := BuyOutcomes(p, line);
    assert forall j :: 0 <= j < 5 ==> outs[j] == BuyAt(p, j, line);
    FirstDecisiveSkips(outs, k);
  }

  function Rank(name: string): nat {
    if name == BUY_STOCK then 0 else if name == GET_STOCK_PRICE then 1 else 2
  }

  /** The buy action of a line, if any, is well formed. */
  lemma FirstBuyValid(p: PatternSet, line: string)
    ensures FirstBuy(p, line).Some? ==> IsValidBuy(FirstBuy(p, line).value)
  {
    var outs := BuyOutcomes(p, line);
    forall j | 0 <= j < 5
      ensures outs[j].Decided? && outs[j].action.Some? ==> IsValidBuy(outs[j].action.value)
    {
      BuyAtValid(p, j, line);
    }
    FirstDecisiveHolds(outs, IsValidBuy);
  }

  /** The price action of a line, if any, is well formed. */
  lemma FirstPriceValid(p: PatternSet, line: string)
    ensures FirstPrice(p, line).Some? ==> IsValidPrice(FirstPrice(p, line).value)
  {
    var outs := PriceOutcomes(p, line);
    forall j | 0 <= j < 2
      ensures outs[j].Decided? && outs[j].action.Some? ==> IsValidPrice(outs[j].action.value)
    {
      PriceAtValid(p, j, line);
    }
    FirstDecisiveHolds(outs, IsValidPrice);
  }

  /** At most three actions, strictly in the order buy, price, account, each
      of them well formed. */
  predicate LineShaped(acts: seq<Action>) {
    && |acts| <= 3
    && (forall i, j :: 0 <= i < j < |acts| ==> Rank(acts[i].name) < Rank(acts[j].name))
    && (forall a :: a in acts ==> IsValidBuy(a) || IsValidPrice(a) || a == AccountAction())
  }

  /** What one line yields: at most one action of each kind, in the order buy,
      price, account, each of them well formed. */
  lemma LineShape(p: PatternSet, line: string)
    ensures LineShaped(LineActions(p, line))
  {
    var l := Strip(line);
    if l != [] {
      var buy, price, account := FirstBuy(p, l), FirstPrice(p, l), SearchAccountCall(l, 0);
      assert LineActions(p, line) == LineOf(buy, price, account);
      FirstBuyValid(p, l);
      FirstPriceValid(p, l);
      LineOfShape(buy, price, account);
    }
  }

  lemma LineOfShape(buy: Option<Action>, price: Option<Action>, account: bool)
    requires buy.Some? ==> IsValidBuy(buy.value)
    requires price.Some? ==> IsValidPrice(price.value)
    ensures LineShaped(LineOf(buy, price, account))
  {
  }

  /** Every extracted action is a valid buy, a valid price query or the account query. */
  lemma ExtractedActionsWellFormed(p: PatternSet, lines: seq<string>)
    ensures forall a :: a in ActionsOfLines(p, lines) ==>
      IsValidBuy(a) || IsValidPrice(a) || a == AccountAction()
  {
    var f := LineFn(p);
    forall a | a in ActionsOfLines(p, lines)
      ensures IsValidBuy(a) || IsValidPrice(a) || a == AccountAction()
    {
      FlatMapMember(f, lines, a);
      var i :| 0 <= i < |lines| && a in f(lines[i]);
      LineShape(p, lines[i]);
      assert a in LineActions(p, lines[i]);
    }
  }
}
