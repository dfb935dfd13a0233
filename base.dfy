/** Text primitives shared by the model: Python's str.upper / str.lower /
    str.strip / str.split / substring search and decimal integers, stated on
    seq<char>. Case mapping is ASCII only (see README, "Left out"). */
module Base {

  datatype Option<T> = None | Some(value: T)

  /** Python truthiness of an optional string: None and "" are falsy. */
  predicate Truthy(s: Option<string>) {
    s.Some? && s.value != []
  }

  // ---------------------------------------------------------------------
  // Characters

  /** The characters Python's str.isspace() and the regex class \s accept. */
  predicate IsSpace(c: char) {
    var n := c as int;
    (9 <= n <= 13) || (28 <= n <= 32) || n == 0x85 || n == 0xA0 || n == 0x1680
    || (0x2000 <= n <= 0x200A) || n == 0x2028 || n == 0x2029 || n == 0x202F
    || n == 0x205F || n == 0x3000
  }

  predicate IsQuote(c: char) {
    c == '"' || c == '\''
  }

  predicate IsDigit(c: char) {
    '0' <= c <= '9'
  }

  predicate IsUpperLetter(c: char) {
    'A' <= c <= 'Z'
  }

  predicate IsLowerLetter(c: char) {
    'a' <= c <= 'z'
  }

  /** The regex class \w, on ASCII. */
  predicate IsWordChar(c: char) {
    IsUpperLetter(c) || IsLowerLetter(c) || IsDigit(c) || c == '_'
  }

  function UpperChar(c: char): (r: char)
    ensures !IsLowerLetter(r)
    ensures IsLowerLetter(c) ==> r as int == c as int - 32
    ensures !IsLowerLetter(c) ==> r == c
  {
    if IsLowerLetter(c) then (c as int - 32) as char else c
  }

  function LowerChar(c: char): (r: char)
    ensures !IsUpperLetter(r)
    ensures IsUpperLetter(c) ==> r as int == c as int + 32
    ensures !IsUpperLetter(c) ==> r == c
  {
    if IsUpperLetter(c) then (c as int + 32) as char else c
  }

  // ---------------------------------------------------------------------
  // Case mapping

  /** No lower-case ASCII letter occurs in s. */
  predicate IsUpperCase(s: string) {
    forall i :: 0 <= i < |s| ==> !IsLowerLetter(s[i])
  }

  /** Python's s.upper(), on ASCII letters. */
  function Upper(s: string): (r: string)
    ensures |r| == |s|
    ensures IsUpperCase(r)
  {
    seq(|s|, i requires 0 <= i < |s| => UpperChar(s[i]))
  }

  /** Python's s.lower(), on ASCII letters. */
  function Lower(s: string): (r: string)
    ensures |r| == |s|
  {
    seq(|s|, i requires 0 <= i < |s| => LowerChar(s[i]))
  }

  lemma UpperIdempotent(s: string)
    ensures Upper(Upper(s)) == Upper(s)
  {
    assert forall i :: 0 <= i < |s| ==> UpperChar(UpperChar(s[i])) == UpperChar(s[i]);
  }

  lemma LowerIdempotent(s: string)
    ensures Lower(Lower(s)) == Lower(s)
  {
    assert forall i :: 0 <= i < |s| ==> LowerChar(LowerChar(s[i])) == LowerChar(s[i]);
  }

  // ---------------------------------------------------------------------
  // Stripping

  /** Python's s.lstrip(chars) for the character class `drop`. */
  function StripLeading(s: string, drop: char -> bool): (r: string)
    ensures |r| <= |s| && r == s[|s| - |r|..]
    ensures r == [] || !drop(r[0])
    decreases |s|
  {
    if s != [] && drop(s[0]) then StripLeading(s[1..], drop) else s
  }

  /** Python's s.rstrip(chars) for the character class `drop`. */
  function StripTrailing(s: string, drop: char -> bool): (r: string)
    ensures |r| <= |s| && r == s[..|r|]
    ensures r == [] || !drop(r[|r| - 1])
    decreases |s|
  {
    if s != [] && drop(s[|s| - 1]) then StripTrailing(s[..|s| - 1], drop) else s
  }

  /** lstrip removes only characters of the class. */
  lemma {:induction false} StripLeadingDropped(s: string, drop: char -> bool)
    ensures forall i :: 0 <= i < |s| - |StripLeading(s, drop)| ==> drop(s[i])
    decreases |s|
  {
    if s != [] && drop(s[0]) {
      StripLeadingDropped(s[1..], drop);
    }
  }

  /** rstrip removes only characters of the class. */
  lemma {:induction false} StripTrailingDropped(s: string, drop: char -> bool)
    ensures forall i :: |StripTrailing(s, drop)| <= i < |s| ==> drop(s[i])
    decreases |s|
  {
    if s != [] && drop(s[|s| - 1]) {
      StripTrailingDropped(s[..|s| - 1], drop);
    }
  }

  /** Python's s.strip(chars): both ends. */
  function StripBy(s: string, drop: char -> bool): (r: string)
    ensures r == [] || (!drop(r[0]) && !drop(r[|r| - 1]))
  {
    StripTrailing(StripLeading(s, drop), drop)
  }

  /** Python's s.strip(): surrounding whitespace removed. */
  function Strip(s: string): (r: string)
    ensures r == [] || (!IsSpace(r[0]) && !IsSpace(r[|r| - 1]))
  {
    StripBy(s, IsSpace)
  }

  /** Python's s.strip('"\''): surrounding quote characters removed. */
  function StripQuotes(s: string): (r: string)
    ensures r == [] || (!IsQuote(r[0]) && !IsQuote(r[|r| - 1]))
  {
    StripBy(s, IsQuote)
  }

  /** Python's str.strip() leaves nothing exactly when the string is all whitespace. */
  lemma {:induction false} StripEmptyIffBlank(s: string)
    ensures Strip(s) == [] <==> forall i :: 0 <= i < |s| ==> IsSpace(s[i])
  {
    var l := StripLeading(s, IsSpace);
    var r := StripTrailing(l, IsSpace);
    StripLeadingDropped(s, IsSpace);
    StripTrailingDropped(l, IsSpace);
    if r == [] {
      forall i | 0 <= i < |s| ensures IsSpace(s[i]) {
        if i >= |s| - |l| {
          assert l[i - (|s| - |l|)] == s[i];
        }
      }
    } else {
      assert !IsSpace(r[0]);
      assert r[0] == s[|s| - |l|];
    }
  }

  // ---------------------------------------------------------------------
  // Substrings

  predicate OccursAt(s: string, pat: string, i: int) {
    0 <= i && i + |pat| <= |s| && s[i..i + |pat|] == pat
  }

  /** Python's `pat in s`. */
  predicate Contains(s: string, pat: string) {
    exists i | 0 <= i <= |s| :: OccursAt(s, pat, i)
  }

  /** Python's s.find(pat, from), with None for -1: the first occurrence at or after `from`. */
  function FindFrom(s: string, pat: string, from: nat): (r: Option<nat>)
    ensures r.Some? ==> from <= r.value && OccursAt(s, pat, r.value)
    ensures r.Some? ==> forall j :: from <= j < r.value ==> !OccursAt(s, pat, j)
    ensures r.None? ==> forall j :: from <= j ==> !OccursAt(s, pat, j)
    decreases |s| - from
  {
    if from + |pat| > |s| then None
    else if s[from..from + |pat|] == pat then Some(from)
    else FindFrom(s, pat, from + 1)
  }

  /** Searching from 0 decides Python's `in`. */
  lemma FindDecidesContains(s: string, pat: string)
    ensures FindFrom(s, pat, 0).Some? <==> Contains(s, pat)
  {
    if Contains(s, pat) {
      var i :| OccursAt(s, pat, i);
    }
  }

  // ---------------------------------------------------------------------
  // Splitting

  /** Python's s.split(sep) for a one-character separator. */
  function Split(s: string, sep: char): (r: seq<string>)
    ensures |r| >= 1
    ensures forall k :: 0 <= k < |r| ==> sep !in r[k]
    decreases |s|
  {
    if sep in s then
      var i := IndexOfChar(s, sep);
      [s[..i]] + Split(s[i + 1..], sep)
    else [s]
  }

  function IndexOfChar(s: string, c: char): (i: nat)
    requires c in s
    ensures i < |s| && s[i] == c && c !in s[..i]
  {
    if s[0] == c then 0 else
      var j := IndexOfChar(s[1..], c);
      assert s[1..][..j] == s[1..j + 1];
      1 + j
  }

  /** Python's sep.join(parts). */
  function Join(parts: seq<string>, sep: char): string
    decreases |parts|
  {
    if parts == [] then []
    else if |parts| == 1 then parts[0]
    else parts[0] + [sep] + Join(parts[1..], sep)
  }

  /** Joining a first piece in front of at least one more. */
  lemma JoinCons(first: string, rest: seq<string>, sep: char)
    requires rest != []
    ensures Join([first] + rest, sep) == first + [sep] + Join(rest, sep)
  {
    var parts := [first] + rest;
    assert |parts| > 1 && parts[0] == first && parts[1..] == rest;
  }

  /** Splitting loses nothing: joining the pieces gives the text back. */
  lemma {:induction false} JoinSplit(s: string, sep: char)
    ensures Join(Split(s, sep), sep) == s
    decreases |s|
  {
    if sep in s {
      var i := IndexOfChar(s, sep);
      var head, tail := s[..i], s[i + 1..];
      var rest := Split(tail, sep);
      calc {
        Join(Split(s, sep), sep);
        { assert Split(s, sep) == [head] + rest; }
        Join([head] + rest, sep);
        { JoinCons(head, rest, sep); }
        head + [sep] + Join(rest, sep);
        { JoinSplit(tail, sep); }
        head + [sep] + tail;
        { assert s[i] == sep; }
        s;
      }
    }
  }

  // ---------------------------------------------------------------------
  // Decimal integers

  predicate AllDigits(s: string) {
    forall i :: 0 <= i < |s| ==> IsDigit(s[i])
  }

  function DigitValue(c: char): nat
    requires IsDigit(c)
  {
    c as int - '0' as int
  }

  function DigitChar(d: nat): (c: char)
    requires d < 10
    ensures IsDigit(c) && DigitValue(c) == d
  {
    ('0' as int + d) as char
  }

  /** The value of a non-empty run of decimal digits, most significant first. */
  function DigitsValue(s: string): nat
    requires AllDigits(s)
    decreases |s|
  {
    if s == [] then 0 else DigitsValue(s[..|s| - 1]) * 10 + DigitValue(s[|s| - 1])
  }

  /** Python's str(n) for a natural number. */
  function NatToString(n: nat): (r: string)
    ensures r != [] && AllDigits(r)
    decreases n
  {
    if n < 10 then [DigitChar(n)] else NatToString(n / 10) + [DigitChar(n % 10)]
  }

  lemma {:induction false} NatToStringValue(n: nat)
    ensures DigitsValue(NatToString(n)) == n
    decreases n
  {
    var r := NatToString(n);
    if n >= 10 {
      NatToStringValue(n / 10);
      assert r[..|r| - 1] == NatToString(n / 10);
    }
  }

  /** strip() leaves a non-empty run of digits as it is. */
  lemma DigitsAreNotStripped(s: string)
    requires AllDigits(s) && s != []
    ensures Strip(s) == s
  {
    assert IsDigit(s[0]) && IsDigit(s[|s| - 1]);
    assert StripLeading(s, IsSpace) == s;
  }

  /** CPython's default limit on the number of digits int() converts from
      a string (sys.get_int_max_str_digits()); longer strings raise. */
  const MAX_STR_DIGITS: nat := 4300

  /** int() of an already stripped string: an optional sign, then one to
      MAX_STR_DIGITS digits. */
  function ParseStripped(t: string): (r: Option<int>)
    ensures AllDigits(t) && t != [] && |t| <= MAX_STR_DIGITS ==> r == Some(DigitsValue(t))
    ensures AllDigits(t) && |t| > MAX_STR_DIGITS ==> r.None?
  {
    if t != [] && (t[0] == '-' || t[0] == '+') then
      var body := t[1..];
      if body != [] && AllDigits(body) && |body| <= MAX_STR_DIGITS then
        var v: int := DigitsValue(body);
        Some(if t[0] == '-' then -v else v)
      else None
    else if t != [] && AllDigits(t) && |t| <= MAX_STR_DIGITS then Some(DigitsValue(t))
    else None
  }

  /** int(s) for a string: surrounding whitespace, an optional sign, then
      one to MAX_STR_DIGITS digits; None where int() raises ValueError. */
  function ParseInt(s: string): (r: Option<int>)
    ensures AllDigits(s) && s != [] && |s| <= MAX_STR_DIGITS ==> r == Some(DigitsValue(s))
    ensures AllDigits(s) && |s| > MAX_STR_DIGITS ==> r.None?
  {
    var t := Strip(s);
    assert AllDigits(s) && s != [] ==> t == s by {
      if AllDigits(s) && s != [] {
        DigitsAreNotStripped(s);
      }
    }
    ParseStripped(t)
  }

  /** A decimal numeral longer than the limit is refused, whatever its value. */
  lemma {:induction false} LongNumeralRefused()
    ensures ParseInt(seq(MAX_STR_DIGITS + 1, _ => '1')).None?
  {
    var s := seq(MAX_STR_DIGITS + 1, _ => '1');
    assert AllDigits(s);
  }

  // ---------------------------------------------------------------------
  // Mapping a function over a sequence and concatenating the results

  function FlatMap<A, B>(f: A -> seq<B>, xs: seq<A>): seq<B>
    decreases |xs|
  {
    if xs == [] then [] else FlatMap(f, xs[..|xs| - 1]) + f(xs[|xs| - 1])
  }

  lemma {:induction false} FlatMapAppend<A, B>(f: A -> seq<B>, a: seq<A>, b: seq<A>)
    ensures FlatMap(f, a + b) == FlatMap(f, a) + FlatMap(f, b)
    decreases |b|
  {
    if b == [] {
      assert a + b == a;
    } else {
      assert (a + b)[..|a + b| - 1] == a + b[..|b| - 1];
      FlatMapAppend(f, a, b[..|b| - 1]);
    }
  }

  lemma {:induction false} FlatMapMember<A, B>(f: A -> seq<B>, xs: seq<A>, y: B)
    requires y in FlatMap(f, xs)
    ensures exists i :: 0 <= i < |xs| && y in f(xs[i])
    decreases |xs|
  {
    var front := xs[..|xs| - 1];
    if y !in f(xs[|xs| - 1]) {
      FlatMapMember(f, front, y);
      var i :| 0 <= i < |front| && y in f(front[i]);
      assert front[i] == xs[i];
    }
  }

  /** An element mapped to nothing can be dropped. */
  lemma FlatMapSkip<A, B>(f: A -> seq<B>, a: seq<A>, x: A, b: seq<A>)
    requires f(x) == []
    ensures FlatMap(f, a + [x] + b) == FlatMap(f, a + b)
  {
    FlatMapAppend(f, a + [x], b);
    FlatMapAppend(f, a, b);
    assert (a + [x])[..|a + [x]| - 1] == a;
  }

  function OptionToSeq<T>(o: Option<T>): (r: seq<T>)
    ensures o.Some? ==> r == [o.value]
    ensures o.None? ==> r == []
  {
    if o.Some? then [o.value] else []
  }

  // ---------------------------------------------------------------------
  // Trailing digits

  /** The longest run of decimal digits at the end of s. */
  function TrailingDigits(s: string): (r: string)
    ensures AllDigits(r) && |r| <= |s| && r == s[|s| - |r|..]
    decreases |s|
  {
    if s != [] && IsDigit(s[|s| - 1]) then TrailingDigits(s[..|s| - 1]) + [s[|s| - 1]] else []
  }

  /** Digits written after a non-digit are exactly the trailing digits. */
  lemma {:induction false} TrailingDigitsAfter(pre: string, d: string)
    requires AllDigits(d)
    requires pre != [] && !IsDigit(pre[|pre| - 1])
    ensures TrailingDigits(pre + d) == d
    decreases |d|
  {
    if d != [] {
      var d' := d[..|d| - 1];
      assert (pre + d)[..|pre + d| - 1] == pre + d';
      TrailingDigitsAfter(pre, d');
    } else {
      assert pre + d == pre;
    }
  }

  // ---------------------------------------------------------------------
  // Building a dict by successive assignments

  /** The dict after `d[k] = v` for each (k, v) of entries, in order. */
  function ToMap<K, V>(entries: seq<(K, V)>): map<K, V>
    decreases |entries|
  {
    if entries == [] then map[]
    else
      var n := |entries| - 1;
      ToMap(entries[..n])[entries[n].0 := entries[n].1]
  }

  /** With pairwise different keys, no assignment overwrites another: one
      entry per pair, holding that pair's value. */
  lemma {:induction false} ToMapDistinct<K, V>(entries: seq<(K, V)>)
    requires forall i, j :: 0 <= i < j < |entries| ==> entries[i].0 != entries[j].0
    ensures |ToMap(entries)| == |entries|
    ensures forall i :: 0 <= i < |entries| ==>
      entries[i].0 in ToMap(entries) && ToMap(entries)[entries[i].0] == entries[i].1
    ensures forall k :: k in ToMap(entries) ==> exists i :: 0 <= i < |entries| && entries[i].0 == k
    decreases |entries|
  {
    if entries != [] {
      var n := |entries| - 1;
      var front := entries[..n];
      assert forall i :: 0 <= i < n ==> front[i] == entries[i];
      ToMapDistinct(front);
      assert entries[n].0 !in ToMap(front);
    }
  }
}
