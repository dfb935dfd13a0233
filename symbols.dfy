/** The ticker candidates AIBroker.process_instruction collects from the
    user's text before asking for market data: the 1-5 letter words of the
    upper-cased text, the $-prefixed tickers, and the tickers of the company
    names it contains, with the common English words taken out. */
module SymbolCandidates {
  import opened Base

  /** company_to_symbol, in the source's order. */
  const COMPANIES: seq<(string, string)> := [
    ("APPLE", "AAPL"),
    ("MICROSOFT", "MSFT"),
    ("AMAZON", "AMZN"),
    ("GOOGLE", "GOOGL"),
    ("ALPHABET", "GOOGL"),
    ("TESLA", "TSLA"),
    ("NVIDIA", "NVDA"),
    ("META", "META"),
    ("FACEBOOK", "META"),
    ("NETFLIX", "NFLX"),
    ("ANALOG DEVICES", "ADI"),
    ("INTEL", "INTC"),
    ("AMD", "AMD"),
    ("ADVANCED MICRO DEVICES", "AMD"),
    ("COCA COLA", "KO"),
    ("COCA-COLA", "KO"),
    ("DISNEY", "DIS"),
    ("WALT DISNEY", "DIS"),
    ("JPMORGAN", "JPM"),
    ("JP MORGAN", "JPM"),
    ("BANK OF AMERICA", "BAC"),
    ("GOLDMAN SACHS", "GS"),
    ("JOHNSON & JOHNSON", "JNJ"),
    ("JOHNSON AND JOHNSON", "JNJ"),
    ("VISA", "V"),
    ("MASTERCARD", "MA"),
    ("WALMART", "WMT"),
    ("TARGET", "TGT"),
    ("COSTCO", "COST"),
    ("HOME DEPOT", "HD"),
    ("NIKE", "NKE"),
    ("MCDONALDS", "MCD"),
    ("MCDONALD'S", "MCD"),
    ("STARBUCKS", "SBUX"),
    ("PFIZER", "PFE"),
    ("MODERNA", "MRNA"),
    ("EXXON", "XOM"),
    ("EXXONMOBIL", "XOM"),
    ("EXXON MOBIL", "XOM"),
    ("CHEVRON", "CVX"),
    ("BOEING", "BA"),
    ("AMERICAN AIRLINES", "AAL"),
    ("DELTA", "DAL"),
    ("DELTA AIR LINES", "DAL")
  ]

  /** common_words: never reported as a ticker. */
  const STOPWORDS: set<string> := {
    "I", "A", "AN", "THE", "AND", "OR", "FOR", "TO", "IN", "OF", "AT", "BY", "AS",
    "IS", "ARE", "AM", "BE", "BEEN", "BEING", "WAS", "WERE", "HAS", "HAVE", "HAD",
    "DO", "DOES", "DID", "CAN", "COULD", "WILL", "WOULD", "SHALL", "SHOULD", "MAY",
    "MIGHT", "MUST", "THAT", "WHICH", "WHO", "WHOM", "WHOSE", "WHAT", "PRICE"
  }

  /** A regex word boundary \b at position i, next to a word character. */
  predicate WordStartsAt(u: string, i: int) {
    0 <= i <= |u| && (i == 0 || !IsWordChar(u[i - 1]))
  }

  predicate WordEndsAt(u: string, j: int) {
    0 <= j <= |u| && (j == |u| || !IsWordChar(u[j]))
  }

  predicate AllUpperLetters(s: string) {
    forall k :: 0 <= k < |s| ==> IsUpperLetter(s[k])
  }

  /** `\b[A-Z]{1,5}\b` matches u[i..j]. */
  predicate BareTokenAt(u: string, i: int, j: int) {
    0 <= i < j <= |u| && j - i <= 5 && AllUpperLetters(u[i..j])
    && WordStartsAt(u, i) && WordEndsAt(u, j)
  }

  /** `\$([A-Z]{1,5})\b` matches u[i-1..j], with group 1 u[i..j]. */
  predicate DollarTokenAt(u: string, i: int, j: int) {
    1 <= i < j <= |u| && j - i <= 5 && u[i - 1] == '$' && AllUpperLetters(u[i..j])
    && WordEndsAt(u, j)
  }

  /** set(re.findall(r'\b[A-Z]{1,5}\b', u)). */
  function BareTokens(u: string): set<string> {
    set i, j | 0 <= i < j <= |u| && BareTokenAt(u, i, j) :: u[i..j]
  }

  /** set(re.findall(r'\$([A-Z]{1,5})\b', u)). */
  function DollarTokens(u: string): set<string> {
    set i, j | 1 <= i < j <= |u| && DollarTokenAt(u, i, j) :: u[i..j]
  }

  /** The tickers of the first n entries of table whose company name occurs in u. */
  function NamedAmong(u: string, table: seq<(string, string)>, n: nat): set<string>
    requires n <= |table|
  {
    set k | 0 <= k < n && Contains(u, table[k].0) :: table[k].1
  }

  /** The tickers of the company names that occur in u. */
  function NamedSymbols(u: string): set<string> {
    NamedAmong(u, COMPANIES, |COMPANIES|)
  }

  /** Looking at one more company adds its ticker exactly when its name occurs. */
  lemma NamedAmongStep(u: string, table: seq<(string, string)>, n: nat)
    requires n < |table|
    ensures NamedAmong(u, table, n + 1)
      == NamedAmong(u, table, n) + (if Contains(u, table[n].0) then {table[n].1} else {})
  {
  }

  /** The candidate set, as a set: every source, minus the common words. */
  function Candidates(userInput: string): set<string> {
    var u := Upper(userInput);
    (BareTokens(u) + DollarTokens(u) + NamedSymbols(u)) - STOPWORDS
  }

  /** Lines 681-701 of process_instruction. The list the source builds is
      deduplicated twice through set(), so only its set of elements is kept
      here; the order of the final list is that of a Python set. */
  method ExtractSymbols(userInput: string) returns (symbols: set<string>)
    ensures symbols == Candidates(userInput)
    ensures symbols !! STOPWORDS
  {
    var u := Upper(userInput);
    symbols := BareTokens(u);
    symbols := symbols + DollarTokens(u);
    symbols := AddNamedSymbols(u, COMPANIES, symbols);
    symbols := symbols - STOPWORDS;
  }

  /** The loop over company_to_symbol: adds the ticker of every company
      named in u that is not yet present. */
  method AddNamedSymbols(u: string, table: seq<(string, string)>, found: set<string>)
    returns (symbols: set<string>)
    ensures symbols == found + NamedAmong(u, table, |table|)
  {
    symbols := found;
    var k := 0;
    while k < |table|
      invariant 0 <= k <= |table|
      invariant symbols == found + NamedAmong(u, table, k)
    {
      var (company, symbol) := table[k];
      NamedAmongStep(u, table, k);
      if Contains(u, company) && symbol !in symbols {
        symbols := symbols + {symbol};
      }
      k := k + 1;
    }
  }

  // ---------------------------------------------------------------------
  // Properties

  /** A $-ticker is always a bare token as well: '$' is not a word character,
      so the word boundary before the letters holds. The $ pass adds nothing. */
  lemma DollarTokensAreBare(u: string)
    ensures DollarTokens(u) <= BareTokens(u)
  {
    forall t | t in DollarTokens(u)
      ensures t in BareTokens(u)
    {
      var i, j :| 1 <= i < j <= |u| && DollarTokenAt(u, i, j) && t == u[i..j];
      assert BareTokenAt(u, i, j);
    }
  }

  /** Hence the candidates are the bare tokens and the named tickers. */
  lemma CandidatesWithoutDollar(userInput: string)
    ensures var u := Upper(userInput);
      Candidates(userInput) == (BareTokens(u) + NamedSymbols(u)) - STOPWORDS
  {
    DollarTokensAreBare(Upper(userInput));
  }

  /** Every candidate is a 1-5 letter token of the text or a ticker of the table. */
  lemma CandidateShape(userInput: string, s: string)
    requires s in Candidates(userInput)
    ensures s !in STOPWORDS
    ensures (1 <= |s| <= 5 && AllUpperLetters(s)) || exists k :: 0 <= k < |COMPANIES| && COMPANIES[k].1 == s
  {
    var u := Upper(userInput);
    DollarTokensAreBare(u);
    if s in BareTokens(u) {
      var i, j :| 0 <= i < j <= |u| && BareTokenAt(u, i, j) && s == u[i..j];
    }
  }

  /** A company name in the text brings in its ticker. */
  lemma CompanyNameBringsTicker(userInput: string, k: nat)
    requires k < |COMPANIES|
    requires Contains(Upper(userInput), COMPANIES[k].0)
    ensures COMPANIES[k].1 in Candidates(userInput)
  {
    var t := COMPANIES[k].1;
    assert t in NamedSymbols(Upper(userInput));
    NoTickerIsStopword(k);
  }

  /** No ticker of the table is a common word. */
  lemma NoTickerIsStopword(k: nat)
    requires k < |COMPANIES|
    ensures COMPANIES[k].1 !in STOPWORDS
  {
    if k < 6 {
      NoTickerIsStopword0(k);
    } else if k < 12 {
      NoTickerIsStopword6(k);
    } else if k < 18 {
      NoTickerIsStopword12(k);
    } else if k < 24 {
      NoTickerIsStopword18(k);
    } else if k < 30 {
      NoTickerIsStopword24(k);
    } else if k < 36 {
      NoTickerIsStopword30(k);
    } else if k < 42 {
      NoTickerIsStopword36(k);
    } else {
      NoTickerIsStopword42(k);
    }
  }

  lemma NoTickerIsStopword0(k: nat) requires k < 6 ensures COMPANIES[k].1 !in STOPWORDS {}
  lemma NoTickerIsStopword6(k: nat) requires 6 <= k < 12 ensures COMPANIES[k].1 !in STOPWORDS {}
  lemma NoTickerIsStopword12(k: nat) requires 12 <= k < 18 ensures COMPANIES[k].1 !in STOPWORDS {}
  lemma NoTickerIsStopword18(k: nat) requires 18 <= k < 24 ensures COMPANIES[k].1 !in STOPWORDS {}
  lemma NoTickerIsStopword24(k: nat) requires 24 <= k < 30 ensures COMPANIES[k].1 !in STOPWORDS {}
  lemma NoTickerIsStopword30(k: nat) requires 30 <= k < 36 ensures COMPANIES[k].1 !in STOPWORDS {}
  lemma NoTickerIsStopword36(k: nat) requires 36 <= k < 42 ensures COMPANIES[k].1 !in STOPWORDS {}
  lemma NoTickerIsStopword42(k: nat) requires 42 <= k < 44 ensures COMPANIES[k].1 !in STOPWORDS {}

  /** "Buy 10 shares of Apple": APPLE occurs at index 17 of the upper-cased text. */
  lemma AppleExample()
    ensures "AAPL" in Candidates("Buy 10 shares of Apple")
    ensures "OF" !in Candidates("Buy 10 shares of Apple")
  {
    var u := Upper("Buy 10 shares of Apple");
    assert u == "BUY 10 SHARES OF APPLE";
    assert OccursAt(u, "APPLE", 17);
    CompanyNameBringsTicker("Buy 10 shares of Apple", 0);
  }
}
