/** The JavaScript built-ins the dashboard relies on, on the inputs it gives them:
    decimal rendering of numbers (`String(n)`, template literals), `Number` and
    `parseInt` on decimal text, `split` on one character, `join`, `trim`, the
    digit filter `replace(/[^0-9]/g, '')` and `find`/`findIndex`. */
module JsBuiltins {
  import opened Wrappers

  // ---------------------------------------------------------------- decimal text

  predicate IsDigit(c: char) {
    '0' <= c <= '9'
  }

  predicate AllDigits(s: string) {
    forall i | 0 <= i < |s| :: IsDigit(s[i])
  }

  /** Text of a numeric input field after the `replace(/[^0-9]/g, '')` filter. */
  type DigitText = s: string | AllDigits(s)

  function DigitValue(c: char): nat
    requires IsDigit(c)
  {
    c as int - '0' as int
  }

  function DigitChar(d: nat): (c: char)
    requires d < 10
    ensures IsDigit(c) && DigitValue(c) == d
  {
    ('0' as int + d) as char
  }

  /** Value of decimal text, most significant digit first (empty text is 0). */
  function DigitsValue(s: string): nat
    requires AllDigits(s)
  {
    if s == [] then 0 else 10 * DigitsValue(s[..|s| - 1]) + DigitValue(s[|s| - 1])
  }

  /** `String(n)` for a natural number: its shortest decimal rendering. */
  function NatToString(n: nat): (s: string)
    ensures |s| > 0 && AllDigits(s)
  {
    if n < 10 then [DigitChar(n)] else NatToString(n / 10) + [DigitChar(n % 10)]
  }

  lemma {:induction false} NatToStringRoundTrip(n: nat)
    ensures DigitsValue(NatToString(n)) == n
  {
    var s := NatToString(n);
    if n < 10 {
      assert s[..|s| - 1] == [];
    } else {
      NatToStringRoundTrip(n / 10);
      assert s[..|s| - 1] == NatToString(n / 10);
    }
  }

  /** `String(n)` and `${n}` for an integer. */
  function IntToString(n: int): (s: string)
    ensures |s| > 0
  {
    if n < 0 then "-" + NatToString(-n) else NatToString(n)
  }

  /** Rendered integers never contain the separators used in keys and addresses. */
  lemma IntToStringHasNoSeparator(n: int)
    ensures ':' !in IntToString(n) && '.' !in IntToString(n)
  {
    var d := NatToString(if n < 0 then -n else n);
    assert forall i | 0 <= i < |d| :: d[i] != ':' && d[i] != '.';
  }

  /** A JavaScript number as far as this model needs one: an integer, or NaN. */
  datatype JsNumber = Finite(value: int) | NaN

  /** `parseInt(s, 10)` on text that is a run of decimal digits with an optional
      leading '+' or '-'; any other text is NaN in this model. */
  function ParseInt(s: string): JsNumber {
    if |s| > 0 && AllDigits(s) then Finite(DigitsValue(s))
    else if |s| > 1 && s[0] == '-' && AllDigits(s[1..]) then Finite(-(DigitsValue(s[1..]) as int))
    else if |s| > 1 && s[0] == '+' && AllDigits(s[1..]) then Finite(DigitsValue(s[1..]))
    else NaN
  }

  /** `Number(s)`: as `parseInt`, except that empty text is 0. */
  function ToNumber(s: string): JsNumber {
    if s == "" then Finite(0) else ParseInt(s)
  }

  /** `${x}` for a number. */
  function NumberToString(x: JsNumber): string {
    match x
    case Finite(n) => IntToString(n)
    case NaN => "NaN"
  }

  /** Reading back a rendered integer gives the integer. */
  lemma IntToStringRoundTrip(n: int)
    ensures ParseInt(IntToString(n)) == Finite(n)
    ensures ToNumber(IntToString(n)) == Finite(n)
  {
    var m: nat := if n < 0 then -n else n;
    NatToStringRoundTrip(m);
    if n < 0 {
      var s := IntToString(n);
      assert s[1..] == NatToString(m);
      assert !IsDigit(s[0]);
    }
  }

  lemma IntToStringInjective(a: int, b: int)
    ensures IntToString(a) == IntToString(b) <==> a == b
  {
    IntToStringRoundTrip(a);
    IntToStringRoundTrip(b);
  }

  // ---------------------------------------------------------------- split and join

  /** Index of the first occurrence of `c` in `s`. */
  function IndexOf(s: string, c: char): (i: nat)
    requires c in s
    ensures i < |s| && s[i] == c && c !in s[..i]
  {
    if s[0] == c then 0
    else
      var j := IndexOf(s[1..], c);
      assert s[..j + 1] == [s[0]] + s[1..][..j];
      j + 1
  }

  /** `s.split(sep)` for a one-character separator. The first part is the text
      before the first separator (all of `s` when there is none). */
  function Split(s: string, sep: char): (parts: seq<string>)
    ensures |parts| > 0
    ensures forall k | 0 <= k < |parts| :: sep !in parts[k]
    ensures |parts[0]| <= |s| && parts[0] == s[..|parts[0]|]
    ensures |parts[0]| < |s| ==> s[|parts[0]|] == sep
    ensures |parts| == 1 <==> sep !in s
    decreases |s|
  {
    if sep !in s then [s]
    else
      var i := IndexOf(s, sep);
      [s[..i]] + Split(s[i + 1..], sep)
  }

  /** `parts.join(sep)`. */
  function Join(parts: seq<string>, sep: char): string
    requires |parts| > 0
  {
    if |parts| == 1 then parts[0] else parts[0] + [sep] + Join(parts[1..], sep)
  }

  lemma {:induction false} IndexOfFirstSeparator(a: string, sep: char, b: string)
    requires sep !in a
    ensures sep in a + [sep] + b && IndexOf(a + [sep] + b, sep) == |a|
  {
    var s := a + [sep] + b;
    assert s[|a|] == sep;
    if a != [] {
      assert s[1..] == a[1..] + [sep] + b;
      IndexOfFirstSeparator(a[1..], sep, b);
    }
  }

  /** A field, the separator and more text split into the field followed by
      the parts of the rest. */
  lemma SplitAtFirst(a: string, sep: char, b: string)
    requires sep !in a
    ensures Split(a + [sep] + b, sep) == [a] + Split(b, sep)
  {
    var s := a + [sep] + b;
    IndexOfFirstSeparator(a, sep, b);
    assert s[..|a|] == a;
    assert s[|a| + 1..] == b;
  }

  lemma JoinCons(head: string, tail: seq<string>, sep: char)
    requires |tail| > 0
    ensures Join([head] + tail, sep) == head + [sep] + Join(tail, sep)
  {
    assert ([head] + tail)[1..] == tail;
  }

  /** Splitting text built by `join` gives back the parts, provided no part
      contains the separator. */
  lemma {:induction false} SplitJoin(parts: seq<string>, sep: char)
    requires |parts| > 0
    requires forall k | 0 <= k < |parts| :: sep !in parts[k]
    ensures Split(Join(parts, sep), sep) == parts
  {
    if |parts| > 1 {
      var tail := parts[1..];
      assert parts == [parts[0]] + tail;
      JoinCons(parts[0], tail, sep);
      assert sep !in parts[0];
      SplitAtFirst(parts[0], sep, Join(tail, sep));
      SplitJoin(tail, sep);
    } else {
      assert Join(parts, sep) == parts[0];
    }
  }

  /** Joining the parts of a split gives back the text. */
  lemma {:induction false} JoinSplit(s: string, sep: char)
    ensures Join(Split(s, sep), sep) == s
    decreases |s|
  {
    if sep in s {
      var i := IndexOf(s, sep);
      var a, b := s[..i], s[i + 1..];
      assert s == a + [sep] + b;
      assert Split(s, sep) == [a] + Split(b, sep);
      JoinCons(a, Split(b, sep), sep);
      JoinSplit(b, sep);
    }
  }

  /** Text ending in `sep` followed by a separator-free field splits there in
      one way only. */
  lemma LastSeparatorSplits(a: string, b: string, c: string, d: string, sep: char)
    requires sep !in b && sep !in d
    requires a + [sep] + b == c + [sep] + d
    ensures a == c && b == d
  {
    var s := a + [sep] + b;
    // the last separator of s sits right before b, and also right before d
    assert s[|s| - 1 - |b|] == sep && s[|s| - 1 - |d|] == sep;
    assert s[|s| - |d|..] == d && s[|s| - |b|..] == b;
    assert |b| == |d|;
    assert b == s[|s| - |b|..] == d;
    assert a == s[..|a|] == c;
  }

  // ---------------------------------------------------------------- trim

  /** The characters `String.prototype.trim` removes: white space and line terminators. */
  const SpaceChars: set<char> := {
    ' ', '\t', '\n', '\r', '\U{000B}', '\U{000C}', '\U{00A0}', '\U{1680}',
    '\U{2000}', '\U{2001}', '\U{2002}', '\U{2003}', '\U{2004}', '\U{2005}', '\U{2006}',
    '\U{2007}', '\U{2008}', '\U{2009}', '\U{200A}',
    '\U{2028}', '\U{2029}', '\U{202F}', '\U{205F}', '\U{3000}', '\U{FEFF}'
  }

  predicate IsSpace(c: char) {
    c in SpaceChars
  }

  function LeadingSpaces(s: string): (n: nat)
    ensures n <= |s|
    ensures forall i | 0 <= i < n :: IsSpace(s[i])
    ensures n < |s| ==> !IsSpace(s[n])
  {
    if s != [] && IsSpace(s[0]) then 1 + LeadingSpaces(s[1..]) else 0
  }

  function TrailingSpaces(s: string): (n: nat)
    ensures n <= |s|
    ensures forall i | |s| - n <= i < |s| :: IsSpace(s[i])
    ensures n < |s| ==> !IsSpace(s[|s| - 1 - n])
  {
    if s != [] && IsSpace(s[|s| - 1]) then 1 + TrailingSpaces(s[..|s| - 1]) else 0
  }

  /** `s.trim()`: the text between the leading and the trailing white space. */
  function Trim(s: string): (r: string)
    ensures LeadingSpaces(s) + |r| <= |s|
    ensures r == s[LeadingSpaces(s)..LeadingSpaces(s) + |r|]
    ensures forall i | LeadingSpaces(s) + |r| <= i < |s| :: IsSpace(s[i])
  {
    var a := LeadingSpaces(s);
    var t := s[a..];
    var r := t[..|t| - TrailingSpaces(t)];
    assert forall i | a + |r| <= i < |s| :: s[i] == t[i - a];
    r
  }

  /** The trimmed text neither starts nor ends with white space, and it is
      empty exactly when the text is all white space. */
  lemma TrimEnds(s: string)
    ensures Trim(s) != "" ==> !IsSpace(Trim(s)[0]) && !IsSpace(Trim(s)[|Trim(s)| - 1])
    ensures Trim(s) == "" <==> forall i | 0 <= i < |s| :: IsSpace(s[i])
  {
    var a := LeadingSpaces(s);
    var t := s[a..];
    var n := TrailingSpaces(t);
    if Trim(s) != "" {
      assert t[|t| - 1 - n] == s[|s| - 1 - n];
      assert !IsSpace(s[a]);
    }
  }

  // ---------------------------------------------------------------- digit filter

  /** `raw.replace(/[^0-9]/g, '')`: the digits of `raw`, in order. */
  function KeepDigits(raw: string): (r: DigitText)
    ensures |r| <= |raw|
    ensures AllDigits(raw) ==> r == raw
    ensures forall c | c in raw && IsDigit(c) :: c in r
  {
    if raw == [] then []
    else
      var rest := KeepDigits(raw[1..]);
      assert forall c | c in raw[1..] && IsDigit(c) :: c in rest;
      if IsDigit(raw[0]) then [raw[0]] + rest else rest
  }

  /** The filter works character by character and keeps the order: a digit
      stays, any other character goes, and filtering a concatenation is
      concatenating the filtered halves. */
  lemma {:induction false} KeepDigitsFilters(a: string, b: string)
    ensures |a| == 1 ==> KeepDigits(a) == if IsDigit(a[0]) then a else ""
    ensures KeepDigits(a + b) == KeepDigits(a) + KeepDigits(b)
    decreases |a|
  {
    if a != [] {
      assert (a + b)[1..] == a[1..] + b;
      KeepDigitsFilters(a[1..], b);
    } else {
      assert a + b == b;
    }
  }

  // ---------------------------------------------------------------- arrays

  /** `xs.findIndex(p)`, with "not found" as `None`. */
  function FindFirst<T>(xs: seq<T>, p: T -> bool): (r: Option<nat>)
    ensures r.Some? ==> r.value < |xs| && p(xs[r.value])
    ensures r.Some? ==> forall j | 0 <= j < r.value :: !p(xs[j])
    ensures r.None? <==> forall j | 0 <= j < |xs| :: !p(xs[j])
  {
    if xs == [] then None
    else if p(xs[0]) then Some(0)
    else
      match FindFirst(xs[1..], p)
      case None => None
      case Some(k) => Some(k + 1)
  }

  /** Two sequences on which the predicate agrees position by position have the
      same first match. */
  lemma {:induction false} FindFirstAgrees<T>(xs: seq<T>, ys: seq<T>, p: T -> bool)
    requires |xs| == |ys| && forall j | 0 <= j < |xs| :: p(ys[j]) == p(xs[j])
    ensures FindFirst(ys, p) == FindFirst(xs, p)
  {
    if xs != [] {
      FindFirstAgrees(xs[1..], ys[1..], p);
    }
  }
}
