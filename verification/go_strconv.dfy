/** Go's `strconv.Atoi` on a 64-bit platform, and the `int32(p)` conversion
    that `point` applies to its result. Go integers are fixed-width; here the
    widths are written out. */
module GoStrconv {
  import opened Results

  const MinInt64: int := -0x8000_0000_0000_0000
  const MaxInt64: int := 0x7fff_ffff_ffff_ffff

  /** Go's `int32`. */
  newtype int32 = x: int | -0x8000_0000 <= x < 0x8000_0000

  /** The two kinds of `*strconv.NumError`. */
  datatype NumError = ErrSyntax | ErrRange

  predicate IsDigit(c: char) {
    '0' <= c <= '9'
  }

  predicate AllDigits(s: string) {
    forall i :: 0 <= i < |s| ==> IsDigit(s[i])
  }

  function DigitValue(c: char): (d: nat)
    requires IsDigit(c)
    ensures d < 10
  {
    (c as int) - ('0' as int)
  }

  function DigitChar(d: nat): (c: char)
    requires d < 10
    ensures IsDigit(c) && DigitValue(c) == d
  {
    ('0' as int + d) as char
  }

  /** Value of a decimal numeral, most significant digit first. */
  function DecimalValue(s: string): nat
    requires AllDigits(s)
  {
    if |s| == 0 then 0
    else DecimalValue(s[..|s| - 1]) * 10 + DigitValue(s[|s| - 1])
  }

  const MaxUint64: int := 0xffff_ffff_ffff_ffff

  /** Length of the optional leading `+` or `-`. */
  function SignLength(s: string): (n: nat)
    ensures n <= 1 && n <= |s|
    ensures n == 1 <==> |s| > 0 && (s[0] == '-' || s[0] == '+')
  {
    if |s| > 0 && (s[0] == '-' || s[0] == '+') then 1 else 0
  }

  /** A numeral as `strconv.Atoi` accepts it: an optional sign, then one or
      more ASCII digits and nothing else. */
  predicate IsNumeral(s: string) {
    |s| > SignLength(s) && AllDigits(s[SignLength(s)..])
  }

  /** The value a numeral denotes, before any range check. */
  function NumeralValue(s: string): int
    requires IsNumeral(s)
  {
    var m: int := DecimalValue(s[SignLength(s)..]);
    if s[0] == '-' then 0 - m else m
  }

  /** Length of the longest all-digit prefix of `s`. */
  function DigitRun(s: string): (k: nat)
    ensures k <= |s| && AllDigits(s[..k])
    ensures k < |s| ==> !IsDigit(s[k])
  {
    if |s| == 0 || !IsDigit(s[0]) then 0
    else
      var k := 1 + DigitRun(s[1..]);
      assert s[..k] == [s[0]] + s[1..][..k - 1];
      k
  }

  /** `strconv.Atoi` on a 64-bit platform. After the optional sign,
      `strconv.ParseUint` reads digits left to right and fails with
      `ErrRange` as soon as the value read so far passes 2^64 - 1, before it
      would reach a later non-digit; otherwise a missing or non-digit
      character is `ErrSyntax`, and a numeral outside the 64-bit signed range
      is `ErrRange`. */
  function Atoi(s: string): (r: Result<int, NumError>)
    ensures r.Ok? <==> IsNumeral(s) && MinInt64 <= NumeralValue(s) <= MaxInt64
    ensures r.Ok? ==> r.value == NumeralValue(s)
    ensures IsNumeral(s) && r.Err? ==> r.error == ErrRange
    ensures |s| == SignLength(s) ==> r == Err(ErrSyntax)
  {
    if |s| == 0 then Err(ErrSyntax)
    else
      var digits := s[SignLength(s)..];
      var k := DigitRun(digits);
      if DecimalValue(digits[..k]) > MaxUint64 then
        assert k == |digits| ==> digits[..k] == digits;
        Err(ErrRange)
      else if k == 0 || k < |digits| then Err(ErrSyntax)
      else
        assert digits[..k] == digits;
        var n: int := if s[0] == '-' then 0 - DecimalValue(digits) as int else DecimalValue(digits);
        if n < MinInt64 || MaxInt64 < n then Err(ErrRange) else Ok(n)
  }

  /** `strconv.Itoa` restricted to naturals: the shortest decimal numeral. */
  function FormatNat(n: nat): (s: string)
    ensures |s| > 0 && AllDigits(s)
    ensures |s| > 1 ==> s[0] != '0'
  {
    if n < 10 then [DigitChar(n)]
    else FormatNat(n / 10) + [DigitChar(n % 10)]
  }

  /** `strconv.Itoa`: a minus sign for negatives, then the shortest numeral. */
  function FormatInt(n: int): string
  {
    if n < 0 then "-" + FormatNat(-n) else FormatNat(n)
  }

  lemma {:induction false} DecimalValueOfFormat(n: nat)
    ensures DecimalValue(FormatNat(n)) == n
  {
    if n >= 10 {
      DecimalValueOfFormat(n / 10);
      var s := FormatNat(n);
      assert s[..|s| - 1] == FormatNat(n / 10);
    }
  }

  /** `Atoi` reads back every 64-bit integer that `Itoa` writes. */
  lemma AtoiFormatInt(n: int)
    requires MinInt64 <= n <= MaxInt64
    ensures Atoi(FormatInt(n)) == Ok(n)
  {
    var s := FormatInt(n);
    var m := if n < 0 then -n else n;
    DecimalValueOfFormat(m);
    assert s[SignLength(s)..] == FormatNat(m);
    assert IsNumeral(s) && NumeralValue(s) == n;
  }

  /** A value of zero is written with zeros only. */
  lemma {:induction false} ZeroValueIsZeros(d: string)
    requires AllDigits(d) && DecimalValue(d) == 0
    ensures forall i :: 0 <= i < |d| ==> d[i] == '0'
  {
    if |d| > 0 {
      var front := d[..|d| - 1];
      ZeroValueIsZeros(front);
      assert forall i :: 0 <= i < |d| - 1 ==> d[i] == front[i];
    }
  }

  /** Every string of digits is the shortest numeral of its value with
      leading zeros in front. */
  lemma {:induction false} DigitsArePaddedFormat(d: string)
    requires |d| > 0 && AllDigits(d)
    ensures var f := FormatNat(DecimalValue(d));
      |f| <= |d| && d[|d| - |f|..] == f &&
      forall i :: 0 <= i < |d| - |f| ==> d[i] == '0'
  {
    var front := d[..|d| - 1];
    var last := d[|d| - 1];
    var v := DecimalValue(d);
    var f := FormatNat(v);
    if v < 10 {
      ZeroValueIsZeros(front);
      assert DigitChar(DigitValue(last)) == last;
      assert f == [last];
      assert forall i :: 0 <= i < |d| - 1 ==> d[i] == front[i];
    } else {
      DigitsArePaddedFormat(front);
      var g := FormatNat(DecimalValue(front));
      assert v / 10 == DecimalValue(front) && v % 10 == DigitValue(last);
      assert DigitChar(DigitValue(last)) == last;
      assert f == g + [last];
      assert d[|d| - |f|..] == front[|front| - |g|..] + [last];
      assert forall i :: 0 <= i < |d| - |f| ==> d[i] == front[i];
    }
  }

  /** Everything `Atoi` accepts is an optional sign, then leading zeros, then
      the shortest numeral of the magnitude it returns; the other direction of
      `AtoiFormatInt`. */
  lemma AtoiAcceptsPaddedFormat(s: string)
    requires Atoi(s).Ok?
    ensures var n := Atoi(s).value;
      var f := FormatNat(if n < 0 then -n else n);
      SignLength(s) + |f| <= |s| && s[|s| - |f|..] == f &&
      forall i :: SignLength(s) <= i < |s| - |f| ==> s[i] == '0'
  {
    var k := SignLength(s);
    var d := s[k..];
    assert IsNumeral(s);
    DigitsArePaddedFormat(d);
    var f := FormatNat(DecimalValue(d));
    assert Atoi(s).value == NumeralValue(s);
    assert s[|s| - |f|..] == d[|d| - |f|..];
    assert forall i :: k <= i < |s| - |f| ==> s[i] == d[i - k];
  }

  /** A prefix of a string of digits never has a larger value. */
  lemma {:induction false} DecimalValuePrefix(d: string, j: nat)
    requires AllDigits(d) && j <= |d|
    ensures DecimalValue(d[..j]) <= DecimalValue(d)
    decreases |d| - j
  {
    if j == |d| {
      assert d[..j] == d;
    } else {
      var front := d[..|d| - 1];
      DecimalValuePrefix(front, j);
      assert front[..j] == d[..j];
    }
  }

  /** A non-digit after the sign is a syntax error, provided the digits read
      before it, `s[SignLength(s)..j]`, still fit in 64 unsigned bits. */
  lemma AtoiRejectsNonDigit(s: string, j: nat)
    requires SignLength(s) <= j < |s| && !IsDigit(s[j])
    requires AllDigits(s[SignLength(s)..j]) && DecimalValue(s[SignLength(s)..j]) <= MaxUint64
    ensures Atoi(s) == Err(ErrSyntax)
  {
    var digits := s[SignLength(s)..];
    var k := j - SignLength(s);
    assert digits[..k] == s[SignLength(s)..j];
    DigitRunStops(digits, k);
  }

  /** The digit run ends at the first non-digit. */
  lemma {:induction false} DigitRunStops(t: string, j: nat)
    requires j < |t| && AllDigits(t[..j]) && !IsDigit(t[j])
    ensures DigitRun(t) == j
  {
    if j > 0 {
      assert t[1..][..j - 1] == t[1..j];
      DigitRunStops(t[1..], j - 1);
    }
  }

  /** The digit run reaches at least as far as any all-digit prefix. */
  lemma {:induction false} DigitRunCovers(t: string, j: nat)
    requires j <= |t| && AllDigits(t[..j])
    ensures DigitRun(t) >= j
  {
    if j > 0 {
      assert t[1..][..j - 1] == t[1..j];
      DigitRunCovers(t[1..], j - 1);
    }
  }

  /** Digits after the sign, `s[SignLength(s)..j]`, whose value passes
      2^64 - 1 make a range error whatever follows them, as in
      `strconv.ParseUint`, which stops at the digit that overflows. */
  lemma AtoiRangeBeforeSyntax(s: string, j: nat)
    requires SignLength(s) <= j <= |s|
    requires AllDigits(s[SignLength(s)..j]) && DecimalValue(s[SignLength(s)..j]) > MaxUint64
    ensures Atoi(s) == Err(ErrRange)
  {
    var digits := s[SignLength(s)..];
    var k := j - SignLength(s);
    assert digits[..k] == s[SignLength(s)..j];
    DigitRunCovers(digits, k);
    var run := DigitRun(digits);
    DecimalValuePrefix(digits[..run], k);
    assert digits[..run][..k] == digits[..k];
  }

  /** `int32(p)`: keep the low 32 bits, read them as two's complement. The
      result is the one `int32` congruent to `n` modulo 2^32. */
  function WrapInt32(n: int): (r: int32)
    ensures (r as int - n) % 0x1_0000_0000 == 0
    ensures -0x8000_0000 <= n < 0x8000_0000 ==> r as int == n
  {
    ((n + 0x8000_0000) % 0x1_0000_0000 - 0x8000_0000) as int32
  }
}
