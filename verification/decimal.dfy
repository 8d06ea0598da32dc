/** Decimal text for integers: `std::to_string` for the integer timestamps and
    object-path suffixes, and `std::stoll` for reading a timestamp back. */
module Decimal {
  import opened Values

  predicate IsDigit(c: char) {
    '0' <= c <= '9'
  }

  /** The characters C's `isspace` accepts in the "C" locale. */
  predicate IsSpace(c: char) {
    c == ' ' || c == '\t' || c == '\n' || c == '\r' || c as int == 11 || c as int == 12
  }

  predicate AllDigits(s: string) {
    forall i :: 0 <= i < |s| ==> IsDigit(s[i])
  }

  function DigitChar(d: nat): (c: char)
    requires d < 10
    ensures IsDigit(c)
  {
    (('0' as int) + d) as char
  }

  function DigitValue(c: char): (d: nat)
    requires IsDigit(c)
    ensures d < 10
  {
    (c as int) - ('0' as int)
  }

  /** The number a run of digits denotes, most significant digit first. */
  function DigitsValue(ds: string): nat
    requires AllDigits(ds)
  {
    if |ds| == 0 then 0 else DigitsValue(ds[..|ds| - 1]) * 10 + DigitValue(ds[|ds| - 1])
  }

  /** `std::to_string` of a non-negative integer: the shortest decimal
      spelling, without sign or leading zeros. */
  function NatToString(n: nat): (s: string)
    ensures |s| > 0 && AllDigits(s)
    ensures s[0] == '0' ==> n == 0 && |s| == 1
  {
    if n < 10 then [DigitChar(n)] else NatToString(n / 10) + [DigitChar(n % 10)]
  }

  /** `std::to_string(int)`: a minus sign for negative values. */
  function IntToString(i: int): (s: string)
    ensures |s| > 0
    ensures s[0] == '-' <==> i < 0
  {
    if i < 0 then "-" + NatToString(-i) else NatToString(i)
  }

  /** Length of the longest prefix of `s` whose characters satisfy IsSpace. */
  function LeadingSpaces(s: string): (n: nat)
    ensures n <= |s|
    ensures forall i :: 0 <= i < n ==> IsSpace(s[i])
    ensures n < |s| ==> !IsSpace(s[n])
  {
    if |s| > 0 && IsSpace(s[0]) then 1 + LeadingSpaces(s[1..]) else 0
  }

  /** Length of the longest prefix of `s` made of decimal digits. */
  function LeadingDigits(s: string): (n: nat)
    ensures n <= |s|
    ensures AllDigits(s[..n])
    ensures n < |s| ==> !IsDigit(s[n])
  {
    if |s| > 0 && IsDigit(s[0]) then
      var k := LeadingDigits(s[1..]);
      assert s[..1 + k] == [s[0]] + s[1..][..k];
      1 + k
    else 0
  }

  /** The value of the digit run `body` starts with; `None` when it does not
      start with a digit. */
  function DigitRun(body: string): (r: Option<nat>)
    ensures r.Some? <==> |body| > 0 && IsDigit(body[0])
  {
    var n := LeadingDigits(body);
    if n == 0 then None else Some(DigitsValue(body[..n]))
  }

  /** `std::stoll(s)` in base 10: leading white space is skipped, one optional
      sign is read, then the longest run of digits; trailing text is ignored.
      `None` stands for the exception `stoll` throws: no digit at all
      (`invalid_argument`) or a value outside `long long` (`out_of_range`). */
  function ParseLongLong(s: string): (r: Option<int>)
    ensures r.Some? ==> InInt64(r.value)
    ensures r.Some? ==> exists k :: 0 <= k < |s| && IsDigit(s[k])
  {
    var start := LeadingSpaces(s);
    var r := ParseSigned(s[start..]);
    assert r.Some? ==> IsDigit(s[start + SignLength(s[start..])]);
    r
  }

  /** 1 when the text starts with a sign character, 0 otherwise. */
  function SignLength(rest: string): nat {
    if |rest| > 0 && (rest[0] == '-' || rest[0] == '+') then 1 else 0
  }

  /** What `stoll` does once the white space is skipped. */
  function ParseSigned(rest: string): (r: Option<int>)
    ensures r.Some? ==> InInt64(r.value)
    ensures r.Some? ==> SignLength(rest) < |rest| && IsDigit(rest[SignLength(rest)])
  {
    var signed := SignLength(rest) == 1;
    var body := if signed then rest[1..] else rest;
    match DigitRun(body)
    case None => None
    case Some(magnitude) =>
      var v: int := if signed && rest[0] == '-' then -(magnitude as int) else magnitude;
      if InInt64(v) then Some(v) else None
  }

  /** A digit run followed by a tail that does not continue it is read as
      the run's value. */
  lemma DigitRunOfDigits(digits: string, tail: string)
    requires |digits| > 0 && AllDigits(digits)
    requires |tail| == 0 || !IsDigit(tail[0])
    ensures DigitRun(digits + tail) == Some(DigitsValue(digits))
  {
    LeadingDigitsOfDigits(digits, tail);
    assert (digits + tail)[..|digits|] == digits;
  }

  lemma {:induction false} NatToStringValue(n: nat)
    ensures DigitsValue(NatToString(n)) == n
  {
    var s := NatToString(n);
    if n < 10 {
      assert s[..0] == [];
    } else {
      assert s[..|s| - 1] == NatToString(n / 10);
      NatToStringValue(n / 10);
    }
  }

  /** `to_string` is injective on naturals, so distinct ids give distinct paths. */
  lemma NatToStringInjective(a: nat, b: nat)
    requires NatToString(a) == NatToString(b)
    ensures a == b
  {
    NatToStringValue(a);
    NatToStringValue(b);
  }

  /** Reading back what `to_string` wrote, followed by any text that does not
      continue the number, gives the integer back. */
  lemma ParseAfterToString(i: int, tail: string)
    requires InInt64(i)
    requires |tail| == 0 || !IsDigit(tail[0])
    ensures ParseLongLong(IntToString(i) + tail) == Some(i)
  {
    if i < 0 {
      ParseNegativeText(i, tail);
    } else {
      ParseUnsigned(i, tail);
      SkipNoSpace(NatToString(i) + tail);
    }
  }

  /** The negative half of ParseAfterToString. */
  lemma ParseNegativeText(i: int, tail: string)
    requires Int64Min <= i < 0
    requires |tail| == 0 || !IsDigit(tail[0])
    ensures ParseLongLong(IntToString(i) + tail) == Some(i)
  {
    var n: nat := -i;
    var s := "-" + (NatToString(n) + tail);
    assert IntToString(i) + tail == s;
    ParseNegative(n, tail);
    SkipNoSpace(s);
  }

  /** Text that does not start with white space is parsed as it stands. */
  lemma SkipNoSpace(s: string)
    requires |s| > 0 && !IsSpace(s[0])
    ensures ParseLongLong(s) == ParseSigned(s)
  {
    assert s[LeadingSpaces(s)..] == s;
  }

  /** `to_string(n)` followed by a tail that does not continue it: `stoll`
      reads `n`. */
  lemma ParseUnsigned(n: nat, tail: string)
    requires n <= Int64Max
    requires |tail| == 0 || !IsDigit(tail[0])
    ensures ParseSigned(NatToString(n) + tail) == Some(n)
    ensures !IsSpace((NatToString(n) + tail)[0])
  {
    assert IsDigit((NatToString(n) + tail)[0]);
    NatToStringValue(n);
    DigitRunOfDigits(NatToString(n), tail);
  }

  /** The same after a minus sign: `stoll` reads `-n`. */
  lemma ParseNegative(n: nat, tail: string)
    requires InInt64(-(n as int))
    requires |tail| == 0 || !IsDigit(tail[0])
    ensures ParseSigned("-" + (NatToString(n) + tail)) == Some(-(n as int))
  {
    var rest := "-" + (NatToString(n) + tail);
    assert rest[1..] == NatToString(n) + tail;
    NatToStringValue(n);
    DigitRunOfDigits(NatToString(n), tail);
    ParseMinus(rest, n);
  }

  /** A minus sign before a digit run of value `m` yields `-m`. */
  lemma ParseMinus(rest: string, m: nat)
    requires |rest| > 0 && rest[0] == '-'
    requires DigitRun(rest[1..]) == Some(m)
    requires InInt64(-(m as int))
    ensures ParseSigned(rest) == Some(-(m as int))
  {
  }

  /** The digit run of `digits + tail` is exactly `digits`. */
  lemma {:induction false} LeadingDigitsOfDigits(digits: string, tail: string)
    requires AllDigits(digits)
    requires |tail| == 0 || !IsDigit(tail[0])
    ensures LeadingDigits(digits + tail) == |digits|
  {
    if |digits| > 0 {
      assert (digits + tail)[1..] == digits[1..] + tail;
      LeadingDigitsOfDigits(digits[1..], tail);
    } else {
      assert digits + tail == tail;
    }
  }

  /** The round trip the daemon relies on: `stoll(to_string(t)) == t`. */
  lemma ParseToString(i: int)
    requires InInt64(i)
    ensures ParseLongLong(IntToString(i)) == Some(i)
  {
    ParseAfterToString(i, "");
    assert IntToString(i) + "" == IntToString(i);
  }

  /** Text without any digit makes `stoll` throw. */
  lemma ParseWithoutDigits(s: string)
    requires forall k :: 0 <= k < |s| ==> !IsDigit(s[k])
    ensures ParseLongLong(s) == None
  {
  }
}
