/**
 * The `caller` field's text: `fmt.Sprintf("%s:%d", file, line)` for the
 * call site `runtime.Caller(2)` reports, and the split that recovers file
 * and line from it.
 */
module Callers {
  import opened Wrappers

  /** A resolved call site: source file and line number. */
  datatype CallSite = CallSite(file: string, line: int)

  predicate IsDigit(c: char) { '0' <= c <= '9' }

  /** `%d` of a natural number: its decimal digits, most significant first. */
  function Digits(n: nat): (s: string)
    ensures |s| > 0
    ensures forall i :: 0 <= i < |s| ==> IsDigit(s[i])
    decreases n
  {
    var d := ['0' + (n % 10) as char];
    if n < 10 then d else Digits(n / 10) + d
  }

  /** `%d` of an integer: a minus sign before the digits of a negative one. */
  function Decimal(n: int): (s: string)
    ensures |s| > 0 && ':' !in s
  {
    if n < 0 then "-" + Digits(-n) else Digits(n)
  }

  /** The value of a string of decimal digits. */
  function DigitsValue(s: string): nat
  {
    if s == [] then 0 else DigitsValue(s[..|s| - 1]) * 10 + (s[|s| - 1] as int - '0' as int) % 10
  }

  /** The value of `Decimal`'s output: an optional minus sign, then digits. */
  function DecimalValue(s: string): int
  {
    if |s| > 0 && s[0] == '-' then 0 - DigitsValue(s[1..]) as int else DigitsValue(s)
  }

  lemma {:induction false} DigitsRoundTrip(n: nat)
    ensures DigitsValue(Digits(n)) == n
    decreases n
  {
    var s := Digits(n);
    if n >= 10 {
      DigitsRoundTrip(n / 10);
      assert s[..|s| - 1] == Digits(n / 10);
    }
  }

  /** Reading `Decimal`'s text back gives the line number it printed. */
  lemma DecimalRoundTrip(n: int)
    ensures DecimalValue(Decimal(n)) == n
  {
    var s := Decimal(n);
    if n < 0 {
      assert s[1..] == Digits(-n);
      DigitsRoundTrip(-n);
    } else {
      assert IsDigit(s[0]);
      DigitsRoundTrip(n);
    }
  }

  /** The text of the `caller` field. */
  function CallerText(site: CallSite): string
  {
    site.file + ":" + Decimal(site.line)
  }

  /** The position of the last colon in a string, if any. */
  function LastColon(s: string): (r: Option<nat>)
    ensures r.Some? ==> r.value < |s| && s[r.value] == ':' && ':' !in s[r.value + 1..]
    ensures r.None? ==> ':' !in s
  {
    if s == [] then None
    else if s[|s| - 1] == ':' then Some(|s| - 1)
    else LastColon(s[..|s| - 1])
  }

  /** Recovers file and line from a `caller` text by splitting at its last colon. */
  function SplitCaller(text: string): Option<CallSite>
  {
    match LastColon(text)
    case None => None
    case Some(i) => Some(CallSite(text[..i], DecimalValue(text[i + 1..])))
  }

  /**
   * The `caller` text determines the call site: file names may themselves
   * contain colons, but the line number never does.
   */
  lemma CallerTextRoundTrip(site: CallSite)
    ensures SplitCaller(CallerText(site)) == Some(site)
  {
    var text := CallerText(site);
    var n := |site.file|;
    assert text[n] == ':';
    assert text[n + 1..] == Decimal(site.line);
    LastColonOfSuffix(text, n);
    assert text[..n] == site.file;
    DecimalRoundTrip(site.line);
  }

  lemma {:induction false} LastColonOfSuffix(s: string, n: nat)
    requires n < |s| && s[n] == ':' && ':' !in s[n + 1..]
    ensures LastColon(s) == Some(n)
    decreases |s|
  {
    if s[|s| - 1] != ':' {
      assert |s| - 1 != n;
      assert s[..|s| - 1][n + 1..] == s[n + 1..|s| - 1];
      LastColonOfSuffix(s[..|s| - 1], n);
    }
  }
}
