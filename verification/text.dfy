/** String helpers used by the output layout: repeated characters,
    JavaScript's `Array.prototype.join`, decimal rendering of counters
    (the template literal `${n}` for a non-negative integer) and line
    splitting. */
module Text {
  import opened Wrappers

  /** `n` copies of the character `c`. */
  function Repeat(c: char, n: nat): (s: string)
    ensures |s| == n
    ensures forall i :: 0 <= i < n ==> s[i] == c
  {
    if n == 0 then "" else Repeat(c, n - 1) + [c]
  }

  /** `items.join(sep)`: the items in order with `sep` between neighbours. */
  function Join(items: seq<string>, sep: string): string
  {
    if |items| == 0 then ""
    else if |items| == 1 then items[0]
    else Join(items[..|items| - 1], sep) + sep + items[|items| - 1]
  }

  predicate IsDigit(c: char) {
    '0' <= c <= '9'
  }

  function DigitChar(d: nat): (c: char)
    requires d < 10
    ensures IsDigit(c)
  {
    "0123456789"[d]
  }

  function DigitValue(c: char): (d: nat)
    requires IsDigit(c)
    ensures d < 10
  {
    (c as int - '0' as int) as nat
  }

  /** Decimal rendering of a non-negative integer, most significant digit
      first, with no leading zeros. */
  function Decimal(n: nat): (s: string)
    ensures 0 < |s|
    ensures forall i :: 0 <= i < |s| ==> IsDigit(s[i])
    ensures |s| > 1 ==> s[0] != '0'
  {
    if n < 10 then [DigitChar(n)] else Decimal(n / 10) + [DigitChar(n % 10)]
  }

  /** The value of a string of decimal digits. */
  function DigitsValue(s: string): nat
    requires forall i :: 0 <= i < |s| ==> IsDigit(s[i])
  {
    if |s| == 0 then 0 else 10 * DigitsValue(s[..|s| - 1]) + DigitValue(s[|s| - 1])
  }

  /** Reads a decimal numeral back; `None` unless `s` is a non-empty run of
      digits. */
  function ParseDecimal(s: string): (r: Option<nat>)
    ensures r.Some? <==> 0 < |s| && forall i :: 0 <= i < |s| ==> IsDigit(s[i])
  {
    if 0 < |s| && forall i :: 0 <= i < |s| ==> IsDigit(s[i]) then Some(DigitsValue(s)) else None
  }

  /** Reading a digit character gives back the digit it renders. */
  lemma DigitCharValue(d: nat)
    requires d < 10
    ensures DigitValue(DigitChar(d)) == d
  {
  }

  /** The count printed in the summary reads back as the same number. */
  lemma {:induction false} DecimalRoundTrip(n: nat)
    ensures ParseDecimal(Decimal(n)) == Some(n)
  {
    DecimalValue(n);
  }

  lemma {:induction false} DecimalValue(n: nat)
    ensures DigitsValue(Decimal(n)) == n
  {
    if n < 10 {
      DigitCharValue(n);
      assert Decimal(n)[..0] == "";
    } else {
      var s := Decimal(n);
      assert s[..|s| - 1] == Decimal(n / 10);
      DecimalValue(n / 10);
      DigitCharValue(n % 10);
    }
  }

  /** Index of the first line feed in `s`, if any. */
  function FirstNewline(s: string): (r: Option<nat>)
    ensures r.Some? ==> r.value < |s| && s[r.value] == '\n'
    ensures r.Some? ==> forall i :: 0 <= i < r.value ==> s[i] != '\n'
    ensures r.None? ==> forall i :: 0 <= i < |s| ==> s[i] != '\n'
  {
    if |s| == 0 then None
    else if s[0] == '\n' then Some(0)
    else match FirstNewline(s[1..])
      case None => None
      case Some(k) => Some(k + 1)
  }

  predicate NoNewline(s: string) {
    forall i :: 0 <= i < |s| ==> s[i] != '\n'
  }

  /** A line without a line feed, followed by one, is found exactly. */
  lemma FirstNewlineAfterLine(a: string, b: string)
    requires NoNewline(a)
    requires 0 < |b| && b[0] == '\n'
    ensures FirstNewline(a + b) == Some(|a|)
  {
    var s := a + b;
    assert s[|a|] == '\n';
    assert forall i :: 0 <= i < |a| ==> s[i] == a[i];
  }

  /** Dropping a prefix leaves the rest; taking it gives it back. */
  lemma SplitAt<T>(a: seq<T>, b: seq<T>)
    ensures (a + b)[|a|..] == b
    ensures (a + b)[..|a|] == a
    ensures a <= a + b
  {
  }

  /** Each line followed by a line feed, in order. */
  function Lines(ls: seq<string>): string
  {
    if |ls| == 0 then "" else ls[0] + "\n" + Lines(ls[1..])
  }

  /** Text that follows a run of lines comes after the first one. */
  lemma LinesThen(ls: seq<string>, rest: string)
    requires 0 < |ls|
    ensures Lines(ls) + rest == ls[0] + "\n" + (Lines(ls[1..]) + rest)
  {
  }

  /** The text of the first line (without its line feed), if `s` has one. */
  function FirstLine(s: string): (r: Option<string>)
    ensures r.Some? ==> NoNewline(r.value) && r.value + "\n" <= s
  {
    match FirstNewline(s)
    case None => None
    case Some(k) => Some(s[..k])
  }

  /** Whatever follows the first line feed, if `s` has one. */
  function AfterFirstLine(s: string): (r: Option<string>)
    ensures r.Some? ==> |r.value| < |s| && s[|s| - |r.value|..] == r.value
  {
    match FirstNewline(s)
    case None => None
    case Some(k) => Some(s[k + 1..])
  }

  /** Splitting `a + "\n" + b` at its first line feed gives back `a` and `b`. */
  lemma LineRoundTrip(a: string, b: string)
    requires NoNewline(a)
    ensures FirstLine(a + "\n" + b) == Some(a)
    ensures AfterFirstLine(a + "\n" + b) == Some(b)
  {
    FirstNewlineAfterLine(a, "\n" + b);
    var s := a + "\n" + b;
    assert s == a + ("\n" + b);
    assert s[..|a|] == a;
    assert s[|a| + 1..] == b;
  }
}
