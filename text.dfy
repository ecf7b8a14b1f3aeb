/** String helpers shared by the model: decimal digits, '/'-splitting, joining. */
module Text {

  predicate IsDigit(c: char) {
    '0' <= c <= '9'
  }

  predicate AllDigits(s: string) {
    forall i :: 0 <= i < |s| ==> IsDigit(s[i])
  }

  predicate HasDigit(s: string) {
    exists i :: 0 <= i < |s| && IsDigit(s[i])
  }

  predicate StartsWith(s: string, prefix: string) {
    |prefix| <= |s| && s[..|prefix|] == prefix
  }

  function Min(a: int, b: int): int { if a <= b then a else b }

  function Max(a: int, b: int): int { if a >= b then a else b }

  /** Math.ceil(n / d) for non-negative n and positive d. */
  function CeilDiv(n: nat, d: nat): nat
    requires d > 0
  {
    (n + d - 1) / d
  }

  /** CeilDiv(n, d) is the least q with q * d >= n. */
  lemma CeilDivBounds(n: nat, d: nat)
    requires d > 0
    ensures CeilDiv(n, d) * d >= n
    ensures CeilDiv(n, d) == 0 || (CeilDiv(n, d) - 1) * d < n
  {
    var q, r := (n + d - 1) / d, (n + d - 1) % d;
    assert n + d - 1 == q * d + r && 0 <= r < d;
    assert (q - 1) * d == q * d - d;
  }

  /** Any q bounded like a ceiling is CeilDiv(n, d). */
  lemma CeilDivUnique(n: nat, d: nat, q: nat)
    requires d > 0 && q * d >= n && (q == 0 || (q - 1) * d < n)
    ensures q == CeilDiv(n, d)
  {
    CeilDivBounds(n, d);
  }

  function DigitChar(d: nat): (c: char)
    requires d < 10
    ensures IsDigit(c) && c as int - '0' as int == d
  {
    (d + '0' as int) as char
  }

  /** The value of a string of decimal digits, most significant first. */
  function DigitsValue(s: string): nat
    requires AllDigits(s)
  {
    if s == [] then 0
    else DigitsValue(s[..|s| - 1]) * 10 + (s[|s| - 1] as int - '0' as int)
  }

  /** The shortest decimal rendering of n, as JavaScript's String(n) writes an integer. */
  function Decimal(n: nat): (s: string)
    ensures |s| >= 1 && AllDigits(s)
    ensures s[0] == '0' ==> n == 0
  {
    if n < 10 then [DigitChar(n)]
    else Decimal(n / 10) + [DigitChar(n % 10)]
  }

  /** String(i) for an integer i. */
  function IntToString(i: int): (s: string)
    ensures |s| >= 1
  {
    if i < 0 then "-" + Decimal(-i) else Decimal(i)
  }

  lemma {:induction false} DecimalRoundTrip(n: nat)
    ensures DigitsValue(Decimal(n)) == n
  {
    var s := Decimal(n);
    if n >= 10 {
      DecimalRoundTrip(n / 10);
      assert s[..|s| - 1] == Decimal(n / 10);
    }
  }

  /** Leading zeros do not change the value of a digit string. */
  lemma {:induction false} LeadingZero(s: string)
    requires AllDigits(s)
    ensures AllDigits("0" + s) && DigitsValue("0" + s) == DigitsValue(s)
  {
    var z := "0" + s;
    if s != [] {
      assert z[..|z| - 1] == "0" + s[..|s| - 1];
      LeadingZero(s[..|s| - 1]);
    }
  }

  /** Array.prototype.join with a separator; an empty array joins to "". */
  function Join(parts: seq<string>, sep: string): string
  {
    if parts == [] then ""
    else if |parts| == 1 then parts[0]
    else parts[0] + sep + Join(parts[1..], sep)
  }

  function Concat(parts: seq<string>): string
  {
    if parts == [] then [] else parts[0] + Concat(parts[1..])
  }

  /** String.prototype.split('/'): the pieces between slashes, empty ones included. */
  function SplitSlash(s: string): (parts: seq<string>)
    ensures |parts| >= 1
    ensures forall i :: 0 <= i < |parts| ==> '/' !in parts[i]
  {
    if s == [] then [""]
    else
      var rest := SplitSlash(s[1..]);
      if s[0] == '/' then [""] + rest
      else [[s[0]] + rest[0]] + rest[1..]
  }

  /** Joining the pieces with '/' gives back the original string. */
  lemma {:induction false} SplitJoinRoundTrip(s: string)
    ensures Join(SplitSlash(s), "/") == s
  {
    if s != [] {
      var rest := SplitSlash(s[1..]);
      SplitJoinRoundTrip(s[1..]);
      if s[0] != '/' {
        if |rest| == 1 {
        } else {
          assert Join(rest, "/") == rest[0] + "/" + Join(rest[1..], "/");
          assert ([[s[0]] + rest[0]] + rest[1..])[1..] == rest[1..];
        }
      }
    }
  }

  /** `.filter(Boolean)` on an array of strings: the non-empty ones, in order. */
  function NonEmpty(parts: seq<string>): (r: seq<string>)
    ensures |r| <= |parts|
    ensures forall i :: 0 <= i < |r| ==> r[i] != "" && r[i] in parts
  {
    if parts == [] then []
    else if parts[0] == "" then NonEmpty(parts[1..])
    else [parts[0]] + NonEmpty(parts[1..])
  }

  /** Dropping empty pieces does not change their concatenation. */
  lemma {:induction false} NonEmptyConcat(parts: seq<string>)
    ensures Concat(NonEmpty(parts)) == Concat(parts)
  {
    if parts != [] {
      NonEmptyConcat(parts[1..]);
    }
  }
}
