/** Decimal text: Number.prototype.toString on a non-negative integer,
    parseInt(s) in base 10, and the digits-only input fields. */
module Decimal {
  import opened Types
  import opened Seqs

  predicate IsDigit(c: char) {
    '0' <= c <= '9'
  }

  predicate IsSpace(c: char) {
    c == ' ' || c == '\t' || c == '\n' || c == '\r'
  }

  function DigitChar(d: nat): (c: char)
    requires d < 10
    ensures IsDigit(c) && DigitOf(c) == d
  {
    ('0' as int + d) as char
  }

  /** The shortest decimal numeral of `n` (no leading zeros; "0" for zero). */
  function NatToString(n: nat): (s: string)
    ensures |s| > 0
    ensures forall i :: 0 <= i < |s| ==> IsDigit(s[i])
    ensures |s| > 1 ==> s[0] != '0'
  {
    if n < 10 then [DigitChar(n)] else NatToString(n / 10) + [DigitChar(n % 10)]
  }

  function DigitOf(c: char): (d: int)
    requires IsDigit(c)
    ensures 0 <= d < 10
  {
    c as int - '0' as int
  }

  /** The value of a string of digits, read left to right. */
  function DigitsValue(d: string): (v: int)
    requires forall i :: 0 <= i < |d| ==> IsDigit(d[i])
    ensures v >= 0
  {
    if d == [] then 0
    else DigitsValue(d[..|d| - 1]) * 10 + DigitOf(d[|d| - 1])
  }

  /** The longest prefix of `s` made of digits. */
  function LeadingDigits(s: string): (d: string)
    ensures |d| <= |s| && d == s[..|d|]
    ensures forall i :: 0 <= i < |d| ==> IsDigit(s[i])
    ensures |d| < |s| ==> !IsDigit(s[|d|])
  {
    if s == [] || !IsDigit(s[0]) then [] else [s[0]] + LeadingDigits(s[1..])
  }

  /** Drops the leading white space, and only that. */
  function TrimStart(s: string): (t: string)
    ensures |t| <= |s| && t == s[|s| - |t|..]
    ensures forall i :: 0 <= i < |s| - |t| ==> IsSpace(s[i])
    ensures t != [] ==> !IsSpace(t[0])
  {
    if s != [] && IsSpace(s[0]) then
      var t := TrimStart(s[1..]);
      assert forall i :: 1 <= i < |s| - |t| ==> s[i] == s[1..][i - 1];
      t
    else s
  }

  /** The text after an optional leading sign. */
  function Unsigned(t: string): string {
    if t != [] && (t[0] == '-' || t[0] == '+') then t[1..] else t
  }

  /** The sign a leading '-' gives. */
  function SignOf(t: string): int {
    if t != [] && t[0] == '-' then -1 else 1
  }

  /** parseInt(s, 10): skip leading white space, read an optional sign and
      then as many digits as follow; no digit at all gives NaN (None). */
  function ParseInt(s: string): (r: Option<int>)
    ensures r.None? <==> LeadingDigits(Unsigned(TrimStart(s))) == []
    ensures r.Some? ==> r.value == SignOf(TrimStart(s)) * DigitsValue(LeadingDigits(Unsigned(TrimStart(s))))
  {
    var t := TrimStart(s);
    var digits := LeadingDigits(Unsigned(t));
    if digits == [] then None else Some(SignOf(t) * DigitsValue(digits))
  }

  lemma {:induction false} DigitsValueOfNatToString(n: nat)
    ensures DigitsValue(NatToString(n)) == n
  {
    if n >= 10 {
      DigitsValueOfNatToString(n / 10);
      var s := NatToString(n / 10) + [DigitChar(n % 10)];
      assert s[..|s| - 1] == NatToString(n / 10);
    }
  }

  lemma {:induction false} LeadingDigitsOfDigits(s: string)
    requires forall i :: 0 <= i < |s| ==> IsDigit(s[i])
    ensures LeadingDigits(s) == s
  {
    if s != [] {
      LeadingDigitsOfDigits(s[1..]);
    }
  }

  /** Writing a timestamp with toString and reading it back with parseInt
      gives the timestamp again. */
  lemma ParseIntOfNatToString(n: nat)
    ensures ParseInt(NatToString(n)) == Some(n)
  {
    var s := NatToString(n);
    assert !IsSpace(s[0]);
    assert TrimStart(s) == s;
    assert s[0] != '-' && s[0] != '+';
    LeadingDigitsOfDigits(s);
    assert LeadingDigits(s) == s;
    DigitsValueOfNatToString(n);
    assert DigitsValue(s) == n;
  }

  /** parseInt ignores white space in front of the number. */
  lemma ParseIntSkipsSpace(c: char, s: string)
    requires IsSpace(c)
    ensures ParseInt([c] + s) == ParseInt(s)
  {
    assert ([c] + s)[1..] == s;
    assert TrimStart([c] + s) == TrimStart(s);
  }

  /** A minus sign in front of a numeral negates it. */
  lemma ParseIntOfNegative(n: nat)
    ensures ParseInt("-" + NatToString(n)) == Some(-(n as int))
  {
    var s := NatToString(n);
    var t := "-" + s;
    assert TrimStart(t) == t;
    assert Unsigned(t) == s;
    LeadingDigitsOfDigits(s);
    DigitsValueOfNatToString(n);
  }

  /** String.prototype.slice(-k): the last `k` characters, or all of `s` when
      k is 0 (since -0 is 0) or when
      it is shorter. */
  function LastChars(s: string, k: nat): (r: string)
    ensures |r| == if k == 0 || |s| < k then |s| else k
    ensures r == s[|s| - |r|..]
  {
    if k == 0 || |s| <= k then s else s[|s| - k..]
  }

  /** `raw.replace(/\D/g, '')`: the digits of `raw`, in order. */
  function DigitsOnly(raw: string): (d: string)
    ensures |d| <= |raw|
    ensures forall i :: 0 <= i < |d| ==> IsDigit(d[i])
    ensures IsSubsequence(d, raw)
    ensures forall c :: multiset(d)[c] == if IsDigit(c) then multiset(raw)[c] else 0
  {
    FilterIsSubsequence(raw, IsDigit);
    FilterCounts(raw, IsDigit);
    Filter(raw, IsDigit)
  }

  /** The input handler of a numeric field: `raw.replace(/\D/g, '').slice(0, max)`. */
  function Sanitize(raw: string, max: nat): (d: string)
    ensures |d| <= max
    ensures forall i :: 0 <= i < |d| ==> IsDigit(d[i])
    ensures |d| == if |DigitsOnly(raw)| < max then |DigitsOnly(raw)| else max
    ensures d == DigitsOnly(raw)[..|d|]
  {
    var digits := DigitsOnly(raw);
    if |digits| <= max then digits else digits[..max]
  }

  /** Text that already is at most `max` digits passes unchanged. */
  lemma SanitizeKeepsDigits(raw: string, max: nat)
    requires |raw| <= max
    requires forall i :: 0 <= i < |raw| ==> IsDigit(raw[i])
    ensures Sanitize(raw, max) == raw
  {
    FilterKeepsAll(raw, IsDigit);
  }

  /** Sanitising twice is sanitising once. */
  lemma SanitizeIdempotent(raw: string, max: nat)
    ensures Sanitize(Sanitize(raw, max), max) == Sanitize(raw, max)
  {
    SanitizeKeepsDigits(Sanitize(raw, max), max);
  }
}
