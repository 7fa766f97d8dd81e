/** The number conversions the controller relies on for environment values: strconv.Itoa, and
    strconv.Atoi with its error ignored. */
module Decimal {

  const MAX_UINT64 := 0xFFFF_FFFF_FFFF_FFFF
  const MAX_INT64 := 0x7FFF_FFFF_FFFF_FFFF

  predicate IsInt64(n: int) { -MAX_INT64 - 1 <= n <= MAX_INT64 }

  function Digit(d: nat): (c: char)
    requires d < 10
    ensures '0' <= c <= '9' && c as int - '0' as int == d
  {
    '0' + d as char
  }

  function Digits(n: nat): (s: string)
    ensures s != [] && forall i :: 0 <= i < |s| ==> '0' <= s[i] <= '9'
  {
    if n < 10 then [Digit(n)] else Digits(n / 10) + [Digit(n % 10)]
  }

  function Itoa(n: int): string {
    if n < 0 then "-" + Digits(-n) else Digits(n)
  }

  /** The result of reading digits into an unsigned 64-bit number: a bad character or an overflow,
      whichever comes first, ends it. */
  datatype Parsed = Number(n: nat) | BadSyntax | OutOfRange

  function ParseDigits(s: string): Parsed {
    if s == [] then Number(0)
    else
      var last := |s| - 1;
      match ParseDigits(s[..last])
      case Number(n) =>
        if !('0' <= s[last] <= '9') then BadSyntax
        else if n * 10 + (s[last] as int - '0' as int) > MAX_UINT64 then OutOfRange
        else Number(n * 10 + (s[last] as int - '0' as int))
      case error => error
  }

  /** Without the error: 0 for bad syntax, the nearest 64-bit integer when out of range. */
  function Atoi(s: string): int {
    var negative := s != [] && s[0] == '-';
    var digits := if s != [] && (s[0] == '-' || s[0] == '+') then s[1..] else s;
    if digits == [] then 0
    else
      match ParseDigits(digits)
      case BadSyntax => 0
      case OutOfRange => if negative then -MAX_INT64 - 1 else MAX_INT64
      case Number(k) =>
        var n: int := k;
        if negative then (if n > MAX_INT64 + 1 then -MAX_INT64 - 1 else -n)
        else if n > MAX_INT64 then MAX_INT64 else n
  }

  // ----- what the conversions mean -----

  predicate AllDigits(s: string) {
    forall i :: 0 <= i < |s| ==> '0' <= s[i] <= '9'
  }

  function Power10(k: nat): nat {
    if k == 0 then 1 else 10 * Power10(k - 1)
  }

  /** The number a string of digits writes in decimal: each digit times its power of ten. */
  function DecimalValue(s: string): nat
    requires AllDigits(s)
  {
    if s == [] then 0 else (s[0] as int - '0' as int) * Power10(|s| - 1) + DecimalValue(s[1..])
  }

  lemma TenTimes(d: int, p: int, v: int, c: int)
    ensures d * (10 * p) + (10 * v + c) == 10 * (d * p + v) + c
  {
  }

  /** One more digit at the end. */
  lemma {:induction false} ValueSnoc(s: string, c: char)
    requires AllDigits(s) && '0' <= c <= '9'
    ensures AllDigits(s + [c]) && DecimalValue(s + [c]) == 10 * DecimalValue(s) + (c as int - '0' as int)
  {
    if s == [] {
      assert ([] + [c])[1..] == [];
      assert DecimalValue([c]) == (c as int - '0' as int) * Power10(0) + DecimalValue([c][1..]);
    } else {
      ValueSnoc(s[1..], c);
      assert (s + [c])[1..] == s[1..] + [c];
      TenTimes(s[0] as int - '0' as int, Power10(|s| - 1), DecimalValue(s[1..]), c as int - '0' as int);
    }
  }

  /** Reading digits gives the number they write, if that fits 64 bits unsigned. */
  lemma {:induction false} ParseIsValue(s: string)
    requires AllDigits(s)
    ensures ParseDigits(s) == if DecimalValue(s) <= MAX_UINT64 then Number(DecimalValue(s)) else OutOfRange
  {
    if s != [] {
      var last := |s| - 1;
      ParseIsValue(s[..last]);
      ValueSnoc(s[..last], s[last]);
      assert s == s[..last] + [s[last]];
    }
  }

  function Clamped(n: int): int {
    if n > MAX_INT64 then MAX_INT64 else if n < -MAX_INT64 - 1 then -MAX_INT64 - 1 else n
  }

  /** Digits with or without a sign read as the number they write, or as the nearest 64-bit integer. */
  lemma AtoiReads(sign: string, digits: string)
    requires (sign == "" || sign == "+" || sign == "-") && digits != [] && AllDigits(digits)
    ensures Atoi(sign + digits)
         == Clamped(if sign == "-" then -(DecimalValue(digits) as int) else DecimalValue(digits))
  {
    hide ParseDigits, DecimalValue;
    ParseIsValue(digits);
    var s := sign + digits;
    assert sign != "" ==> s[1..] == digits;
    assert sign == "" ==> s == digits && '0' <= s[0] <= '9';
  }

  lemma {:induction false} BadDigit(s: string, i: nat)
    requires i < |s| && AllDigits(s[..i]) && !('0' <= s[i] <= '9') && DecimalValue(s[..i]) <= MAX_UINT64
    ensures ParseDigits(s) == BadSyntax
  {
    var last := |s| - 1;
    if i < last {
      assert s[..last][..i] == s[..i];
      BadDigit(s[..last], i);
    } else {
      ParseIsValue(s[..i]);
    }
  }

  /** Anything else reads as 0: a sign alone or nothing, and a character that is no digit, unless the digits
      before it are already too many for 64 bits. */
  lemma AtoiRejects(sign: string, rest: string, i: nat)
    requires sign == "" || sign == "+" || sign == "-"
    requires sign == "" && rest != [] ==> rest[0] != '+' && rest[0] != '-'
    requires rest == [] || (i < |rest| && AllDigits(rest[..i]) && !('0' <= rest[i] <= '9')
                            && DecimalValue(rest[..i]) <= MAX_UINT64)
    ensures Atoi(sign + rest) == 0
  {
    hide ParseDigits, DecimalValue;
    if rest != [] {
      BadDigit(rest, i);
    }
    var s := sign + rest;
    assert sign != "" ==> s[1..] == rest;
    assert sign == "" ==> s == rest;
  }

  /** A number is written in decimal, without leading zeros, and with a sign only if it is negative. */
  lemma {:induction false} DigitsAreDecimal(n: nat)
    ensures AllDigits(Digits(n)) && DecimalValue(Digits(n)) == n && (n > 0 ==> Digits(n)[0] != '0')
    ensures n == 0 ==> Digits(n) == "0"
  {
    if n < 10 {
      assert Digits(n) == [] + [Digit(n)];
      ValueSnoc([], Digit(n));
    } else {
      DigitsAreDecimal(n / 10);
      ValueSnoc(Digits(n / 10), Digit(n % 10));
    }
  }

  lemma ItoaIsDecimal(n: int)
    ensures n < 0 ==> Itoa(n) == "-" + Itoa(-n)
    ensures n >= 0 ==> AllDigits(Itoa(n)) && DecimalValue(Itoa(n)) == n && (n > 0 ==> Itoa(n)[0] != '0')
    ensures n == 0 ==> Itoa(n) == "0"
  {
    if n >= 0 {
      DigitsAreDecimal(n);
    }
  }

  /** Writing a 64-bit integer and reading it back gives the same number. */
  lemma RoundTrip(n: int)
    requires IsInt64(n)
    ensures Atoi(Itoa(n)) == n
  {
    hide Digits, Atoi, DecimalValue;
    if n < 0 {
      DigitsAreDecimal(-n);
      AtoiReads("-", Digits(-n));
    } else {
      DigitsAreDecimal(n);
      assert "" + Digits(n) == Digits(n);
      AtoiReads("", Digits(n));
    }
  }
}
