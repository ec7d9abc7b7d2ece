/**
 * The few pieces of the Java platform whose exact behaviour the step relies on:
 * 64-bit `long` arithmetic, `String.trim`, `Long.parseLong` and `Long.toString`.
 */
module JavaLang {
  import opened Wrappers

  const LongMin: int := -0x8000_0000_0000_0000
  const LongMax: int := 0x7FFF_FFFF_FFFF_FFFF
  const LongModulus: int := 0x1_0000_0000_0000_0000

  /** A Java `long`. */
  type Long = x: int | LongMin <= x <= LongMax

  /** The value a `long` operation yields when its exact result is `x`: two's-complement wrap-around. */
  function WrapLong(x: int): (r: Long)
    ensures (r - x) % LongModulus == 0
    ensures LongMin <= x <= LongMax ==> r == x
  {
    (x - LongMin) % LongModulus + LongMin
  }

  // ---------------------------------------------------------------------------
  // String.length
  // ---------------------------------------------------------------------------

  /** A character a single UTF-16 code unit holds: one of the Basic Multilingual Plane. */
  predicate IsBmp(c: char) {
    c as int < 0x1_0000
  }

  /** `String.length()`: UTF-16 code units, two for a character outside the Basic Multilingual Plane. */
  function Utf16Length(s: string): (n: nat)
    ensures |s| <= n <= 2 * |s|
  {
    if s == [] then 0
    else Utf16Length(s[..|s| - 1]) + (if IsBmp(s[|s| - 1]) then 1 else 2)
  }

  /** Java sees a string of length one exactly when it is a single Basic Multilingual Plane character. */
  lemma Utf16LengthOne(s: string)
    ensures Utf16Length(s) == 1 <==> |s| == 1 && IsBmp(s[0])
  {
    if |s| == 1 {
      assert s[..0] == [];
    }
  }

  // ---------------------------------------------------------------------------
  // String.trim
  // ---------------------------------------------------------------------------

  /** `String.trim` strips every character whose code is at most U+0020. */
  predicate IsTrimmable(c: char) {
    c <= ' '
  }

  /** True when `trim()` leaves nothing of `s`. */
  predicate IsBlank(s: string) {
    forall i :: 0 <= i < |s| ==> IsTrimmable(s[i])
  }

  /** Number of trimmable characters at the start of `s`. */
  function LeadingTrimmable(s: string): (n: nat)
    ensures n <= |s|
    ensures forall i :: 0 <= i < n ==> IsTrimmable(s[i])
    ensures n < |s| ==> !IsTrimmable(s[n])
  {
    if s != [] && IsTrimmable(s[0]) then 1 + LeadingTrimmable(s[1..]) else 0
  }

  /** Number of trimmable characters at the end of `s`. */
  function TrailingTrimmable(s: string): (n: nat)
    ensures n <= |s|
    ensures forall i :: |s| - n <= i < |s| ==> IsTrimmable(s[i])
    ensures n < |s| ==> !IsTrimmable(s[|s| - 1 - n])
  {
    if s != [] && IsTrimmable(s[|s| - 1]) then 1 + TrailingTrimmable(s[..|s| - 1]) else 0
  }

  /** `String.trim()`: the longest slice of `s` that neither starts nor ends with a trimmable character. */
  function Trim(s: string): (r: string)
    ensures r == [] <==> IsBlank(s)
    ensures r != [] ==> !IsTrimmable(r[0]) && !IsTrimmable(r[|r| - 1])
    ensures LeadingTrimmable(s) + |r| <= |s|
    ensures r == s[LeadingTrimmable(s)..LeadingTrimmable(s) + |r|]
    ensures forall i :: LeadingTrimmable(s) + |r| <= i < |s| ==> IsTrimmable(s[i])
  {
    var a := LeadingTrimmable(s);
    if a == |s| then [] else s[a..|s| - TrailingTrimmable(s)]
  }

  // ---------------------------------------------------------------------------
  // Decimal digits
  // ---------------------------------------------------------------------------

  predicate IsDigit(c: char) {
    '0' <= c <= '9'
  }

  predicate AllDigits(s: string) {
    forall i :: 0 <= i < |s| ==> IsDigit(s[i])
  }

  function DigitChar(d: nat): (c: char)
    requires d < 10
    ensures IsDigit(c)
  {
    ('0' as int + d) as char
  }

  /** The number a string of decimal digits denotes, most significant digit first. */
  function DigitsValue(s: string): nat
    requires AllDigits(s)
  {
    if s == [] then 0 else DigitsValue(s[..|s| - 1]) * 10 + (s[|s| - 1] as int - '0' as int)
  }

  /** The decimal notation of `n` without leading zeros (`Long.toString` on a non-negative value). */
  function NatToString(n: nat): (s: string)
    ensures |s| > 0 && AllDigits(s)
    ensures s[0] == '0' ==> n == 0
  {
    if n < 10 then [DigitChar(n)] else NatToString(n / 10) + [DigitChar(n % 10)]
  }

  /** `Long.toString(n)`. */
  function LongToString(n: Long): string {
    if n < 0 then "-" + NatToString(-(n as int)) else NatToString(n)
  }

  lemma {:induction false} DigitsOfNatToString(n: nat)
    ensures DigitsValue(NatToString(n)) == n
  {
    var s := NatToString(n);
    if n >= 10 {
      DigitsOfNatToString(n / 10);
      assert s[..|s| - 1] == NatToString(n / 10);
    }
  }

  /** Decimal notation is injective on naturals. */
  lemma NatToStringInjective(m: nat, n: nat)
    requires NatToString(m) == NatToString(n)
    ensures m == n
  {
    DigitsOfNatToString(m);
    DigitsOfNatToString(n);
  }

  // ---------------------------------------------------------------------------
  // Long.parseLong (radix 10)
  // ---------------------------------------------------------------------------

  /** `NumberFormatException` for the given input. */
  datatype NumberFormatError = NumberFormatError(input: string)

  /**
   * `Long.parseLong(s)`: an optional sign followed by at least one digit, whose
   * value fits in a `long`. Nothing is trimmed: any other character, a lone
   * sign, the empty string and an out-of-range value all fail.
   */
  function ParseLong(s: string): (r: Result<Long, NumberFormatError>)
    ensures r.Failure? ==> r.error == NumberFormatError(s)
    ensures r.Success? ==> s != [] && AllDigits(s[1..]) && (IsDigit(s[0]) || s[0] == '-' || s[0] == '+')
    ensures r.Success? && r.value < 0 ==> s[0] == '-'
  {
    if s == [] then Failure(NumberFormatError(s))
    else
      var signed := s[0] == '-' || s[0] == '+';
      var digits := if signed then s[1..] else s;
      if digits == [] || !AllDigits(digits) then Failure(NumberFormatError(s))
      else
        var magnitude := DigitsValue(digits);
        var v: int := if s[0] == '-' then -(magnitude as int) else magnitude;
        if LongMin <= v <= LongMax then Success(v) else Failure(NumberFormatError(s))
  }

  /** Parsing reads back every `long` that `Long.toString` writes. */
  lemma ParseLongToString(n: Long)
    ensures ParseLong(LongToString(n)) == Success(n)
  {
    var s := LongToString(n);
    if n < 0 {
      var m: nat := -(n as int);
      DigitsOfNatToString(m);
      assert s == "-" + NatToString(m);
      assert s[1..] == NatToString(m);
    } else {
      DigitsOfNatToString(n);
    }
  }

  /** A string holding any trimmable character is never a `long` (the parse does not trim). */
  lemma ParseLongRejectsTrimmable(s: string, i: nat)
    requires i < |s| && IsTrimmable(s[i])
    ensures ParseLong(s).Failure?
  {
  }
}
