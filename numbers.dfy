/** Decimal integers as `strconv.Atoi` reads them and `fmt`'s `%d` writes
    them, for Go's 64-bit `int`. */
module Numbers {
  import opened Errors

  const MaxUint64: int := 0xFFFF_FFFF_FFFF_FFFF
  const MaxInt64: int := 0x7FFF_FFFF_FFFF_FFFF
  const MinInt64: int := -0x8000_0000_0000_0000

  predicate IsDigit(c: char)
  {
    '0' <= c <= '9'
  }

  predicate AllDigits(s: string)
  {
    forall i :: 0 <= i < |s| ==> IsDigit(s[i])
  }

  function DigitValue(c: char): nat
    requires IsDigit(c)
  {
    c as int - '0' as int
  }

  function DigitChar(d: nat): (c: char)
    requires d < 10
    ensures IsDigit(c) && DigitValue(c) == d
  {
    ('0' as int + d) as char
  }

  /** The number a string of decimal digits denotes, most significant digit first. */
  function Value(s: string): nat
    requires AllDigits(s)
  {
    if s == [] then 0 else Value(s[..|s| - 1]) * 10 + DigitValue(s[|s| - 1])
  }

  /** How `strconv.ParseUint` ends its left-to-right scan. */
  datatype Scan = Scanned(n: nat) | SyntaxError | RangeError

  /** `strconv.ParseUint(s, 10, 64)` continued from the value `acc` of the
      digits already read: the first non-digit is a syntax error, a value
      beyond 2^64 - 1 a range error, whichever the scan meets first. */
  function ScanFrom(s: string, acc: nat): Scan
  {
    if s == [] then Scanned(acc)
    else if !IsDigit(s[0]) then SyntaxError
    else
      var n := acc * 10 + DigitValue(s[0]);
      if n > MaxUint64 then RangeError else ScanFrom(s[1..], n)
  }

  /** The digits after an optional leading sign. */
  function Unsigned(s: string): string
  {
    if s != [] && (s[0] == '+' || s[0] == '-') then s[1..] else s
  }

  /** What `Atoi` accepts as syntax: an optional sign, then one or more digits. */
  predicate WellFormed(s: string)
  {
    Unsigned(s) != [] && AllDigits(Unsigned(s))
  }

  /** The integer a well-formed decimal denotes. */
  function Signed(s: string): int
    requires WellFormed(s)
  {
    var magnitude: int := Value(Unsigned(s));
    if s[0] == '-' then -magnitude else magnitude
  }

  /** The `*strconv.NumError` `Atoi` returns (its quoting of `s` simplified to plain quotes). */
  function NumError(s: string, reason: string): Error
  {
    Leaf("strconv.Atoi: parsing \"" + s + "\": " + reason)
  }

  /** `strconv.Atoi`: a decimal integer with an optional sign that fits in 64 bits. */
  function Atoi(s: string): (r: Result<int>)
    ensures r.Ok? <==> WellFormed(s) && MinInt64 <= Signed(s) <= MaxInt64
    ensures r.Ok? ==> r.value == Signed(s)
  {
    var digits := Unsigned(s);
    var negative := s != [] && s[0] == '-';
    if digits == [] then Fail(NumError(s, "invalid syntax"))
    else
      ScanValue(digits, 0);
      ScanComplete(digits, 0);
      match ScanFrom(digits, 0)
      case SyntaxError => Fail(NumError(s, "invalid syntax"))
      case RangeError => Fail(NumError(s, "value out of range"))
      case Scanned(u) =>
        if !negative && u > MaxInt64 then Fail(NumError(s, "value out of range"))
        else if negative && u > MaxInt64 + 1 then Fail(NumError(s, "value out of range"))
        else
          var magnitude: int := u;
          Ok(if negative then -magnitude else magnitude)
  }

  /** A completed scan read digits only, and their value. */
  lemma {:induction false} ScanValue(s: string, k: nat)
    requires k <= |s| && AllDigits(s[..k])
    ensures ScanFrom(s[k..], Value(s[..k])).Scanned? ==>
              AllDigits(s) && ScanFrom(s[k..], Value(s[..k])).n == Value(s)
    decreases |s| - k
  {
    if k < |s| && IsDigit(s[k]) {
      assert s[..k + 1][..k] == s[..k];
      assert s[k..][1..] == s[k + 1..];
      if Value(s[..k]) * 10 + DigitValue(s[k]) <= MaxUint64 {
        ScanValue(s, k + 1);
      }
    } else if k == |s| {
      assert s[..k] == s;
    }
  }

  /** A digit string is never worth less than any of its prefixes. */
  lemma {:induction false} PrefixValue(s: string, k: nat)
    requires k <= |s| && AllDigits(s)
    ensures AllDigits(s[..k]) && Value(s[..k]) <= Value(s)
    decreases |s| - k
  {
    if k < |s| {
      PrefixValue(s, k + 1);
      assert s[..k + 1][..k] == s[..k];
    } else {
      assert s[..k] == s;
    }
  }

  /** The scan of a digit string that fits in 64 bits runs to the end. */
  lemma {:induction false} ScanComplete(s: string, k: nat)
    requires k <= |s| && AllDigits(s[..k])
    ensures AllDigits(s) && Value(s) <= MaxUint64 ==> ScanFrom(s[k..], Value(s[..k])) == Scanned(Value(s))
    decreases |s| - k
  {
    if AllDigits(s) && Value(s) <= MaxUint64 {
      if k < |s| {
        PrefixValue(s, k + 1);
        assert s[..k + 1][..k] == s[..k];
        assert s[k..][1..] == s[k + 1..];
        ScanComplete(s, k + 1);
      } else {
        assert s[..k] == s;
      }
    }
  }

  /** The decimal digits of `m`, without leading zeros. */
  function NatDigits(m: nat): (s: string)
    ensures s != [] && AllDigits(s)
  {
    if m < 10 then [DigitChar(m)] else NatDigits(m / 10) + [DigitChar(m % 10)]
  }

  /** `fmt`'s `%d`: a minus sign for negative numbers, then the digits. */
  function Itoa(n: int): string
  {
    if n < 0 then "-" + NatDigits(-n) else NatDigits(n)
  }

  lemma {:induction false} NatDigitsValue(m: nat)
    ensures Value(NatDigits(m)) == m
  {
    if m >= 10 {
      NatDigitsValue(m / 10);
      var s := NatDigits(m);
      assert s[..|s| - 1] == NatDigits(m / 10);
    }
  }

  /** Reading back what `%d` printed gives the same number, for every 64-bit integer. */
  lemma AtoiItoa(n: int)
    requires MinInt64 <= n <= MaxInt64
    ensures Atoi(Itoa(n)) == Ok(n)
  {
    var s := Itoa(n);
    if n < 0 {
      assert Unsigned(s) == NatDigits(-n);
      NatDigitsValue(-n);
    } else {
      assert Unsigned(s) == NatDigits(n);
      NatDigitsValue(n);
    }
  }
}
