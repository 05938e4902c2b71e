/**
 * The part of Semantic Versioning 2.0.0 that the release gate relies on:
 * a `MAJOR.MINOR.PATCH` string of decimal numbers, and precedence by
 * comparing the three numbers left to right (section 11 of that standard).
 */
module SemVer {
  import opened Wrappers

  datatype Version = Version(major: nat, minor: nat, patch: nat)

  predicate IsDigit(c: char) { '0' <= c <= '9' }

  predicate AllDigits(s: string) { forall i :: 0 <= i < |s| ==> IsDigit(s[i]) }

  /** Value of a string of decimal digits, most significant first. */
  function DecimalValue(s: string): nat
    requires AllDigits(s)
  {
    if s == [] then 0
    else DecimalValue(s[..|s| - 1]) * 10 + (s[|s| - 1] as int - '0' as int)
  }

  /** Canonical decimal spelling of `n` (no leading zeros). */
  function DecimalString(n: nat): (r: string)
    ensures r != [] && AllDigits(r)
  {
    if n < 10 then [('0' as int + n) as char]
    else DecimalString(n / 10) + [('0' as int + n % 10) as char]
  }

  lemma {:induction false} DecimalRoundTrip(n: nat)
    ensures DecimalValue(DecimalString(n)) == n
  {
    var s := DecimalString(n);
    if n >= 10 {
      DecimalRoundTrip(n / 10);
      assert s[..|s| - 1] == DecimalString(n / 10);
    }
  }

  /** Pieces of `s` between the dots, left to right. */
  function SplitOnDots(s: string): (r: seq<string>)
    ensures |r| >= 1
  {
    if s == [] then [[]]
    else if s[0] == '.' then [[]] + SplitOnDots(s[1..])
    else var rest := SplitOnDots(s[1..]); [[s[0]] + rest[0]] + rest[1..]
  }

  /** A number component: non-empty, decimal digits only. */
  function ParseNumber(s: string): Option<nat>
  {
    if s != [] && AllDigits(s) then Some(DecimalValue(s)) else None
  }

  /** Parses `MAJOR.MINOR.PATCH`; anything else is a parse error. */
  function Parse(s: string): Option<Version>
  {
    var parts := SplitOnDots(s);
    if |parts| != 3 then None
    else match (ParseNumber(parts[0]), ParseNumber(parts[1]), ParseNumber(parts[2]))
      case (Some(a), Some(b), Some(c)) => Some(Version(a, b, c))
      case _ => None
  }

  function Format(v: Version): string
  {
    DecimalString(v.major) + "." + DecimalString(v.minor) + "." + DecimalString(v.patch)
  }

  lemma {:induction false} SplitPrefix(a: string, b: string)
    requires AllDigits(a)
    ensures SplitOnDots(a + "." + b) == [a] + SplitOnDots(b)
    decreases |a|
  {
    if a == [] {
      assert a + "." + b == ['.'] + b;
      assert (['.'] + b)[1..] == b;
    } else {
      assert (a + "." + b)[1..] == a[1..] + "." + b;
      SplitPrefix(a[1..], b);
      assert [a[0]] + a[1..] == a;
    }
  }

  lemma {:induction false} SplitDigits(a: string)
    requires AllDigits(a)
    ensures SplitOnDots(a) == [a]
    decreases |a|
  {
    if a != [] {
      SplitDigits(a[1..]);
      assert [a[0]] + a[1..] == a;
    }
  }

  /** Parsing a formatted version gives the version back. */
  lemma ParseFormat(v: Version)
    ensures Parse(Format(v)) == Some(v)
  {
    var a, b, c := DecimalString(v.major), DecimalString(v.minor), DecimalString(v.patch);
    SplitDigits(c);
    SplitPrefix(b, c);
    assert a + "." + b + "." + c == a + "." + (b + "." + c);
    SplitPrefix(a, b + "." + c);
    DecimalRoundTrip(v.major);
    DecimalRoundTrip(v.minor);
    DecimalRoundTrip(v.patch);
  }

  /** Precedence: the three numbers compared left to right. */
  predicate GreaterThanEqual(a: Version, b: Version)
  {
    a.major > b.major
    || (a.major == b.major && a.minor > b.minor)
    || (a.major == b.major && a.minor == b.minor && a.patch >= b.patch)
  }

  /** Precedence is a total order. */
  lemma GreaterThanEqualIsTotalOrder(a: Version, b: Version, c: Version)
    ensures GreaterThanEqual(a, a)
    ensures GreaterThanEqual(a, b) || GreaterThanEqual(b, a)
    ensures GreaterThanEqual(a, b) && GreaterThanEqual(b, a) ==> a == b
    ensures GreaterThanEqual(a, b) && GreaterThanEqual(b, c) ==> GreaterThanEqual(a, c)
  {
  }
}
