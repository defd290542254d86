/** Go's `strconv.ParseInt(s, 10, 64)`, which turns the `bytes` field of an
    event into the value of the `bytes` gauge, with `strconv.FormatInt(n, 10)`
    as its inverse. Go's conversion is a digit-by-digit scan; `ParseIntSpec`
    states the same result on the whole string, and `ParseIntMatchesSpec`
    proves the two agree. */
module Strconv {

  const MaxInt64: int := 0x7fff_ffff_ffff_ffff
  const MinInt64: int := -0x8000_0000_0000_0000
  const MaxUint64: int := 0xffff_ffff_ffff_ffff

  /** Go's `int64`. */
  type int64 = x: int | -0x8000_0000_0000_0000 <= x <= 0x7fff_ffff_ffff_ffff

  /** The `Err` of the `*strconv.NumError` a conversion reports, or none. */
  datatype NumError = NoError | ErrSyntax | ErrRange

  /** The `(value, err)` pair a conversion returns. */
  datatype Parsed = Parsed(value: int, err: NumError)

  predicate IsDigit(c: char)
  {
    '0' <= c <= '9'
  }

  predicate AllDigits(s: string)
  {
    forall i :: 0 <= i < |s| ==> IsDigit(s[i])
  }

  function DigitValue(c: char): (d: nat)
    requires IsDigit(c)
    ensures d <= 9
  {
    c as int - '0' as int
  }

  function Digit(d: nat): (c: char)
    requires d <= 9
    ensures IsDigit(c) && DigitValue(c) == d
  {
    ('0' as int + d) as char
  }

  /** The value of a string of decimal digits, most significant first. */
  function Decimal(ds: string): (n: nat)
    requires AllDigits(ds)
  {
    if ds == [] then 0 else Decimal(ds[..|ds| - 1]) * 10 + DigitValue(ds[|ds| - 1])
  }

  /** The length of the longest prefix of `s` that is made of digits. */
  function DigitRun(s: string): (k: nat)
    ensures k <= |s| && AllDigits(s[..k])
    ensures k < |s| ==> !IsDigit(s[k])
  {
    if s == [] || !IsDigit(s[0]) then 0
    else
      var k' := DigitRun(s[1..]);
      assert s[..k' + 1] == [s[0]] + s[1..][..k'];
      k' + 1
  }

  /** The digit loop of `strconv.ParseUint(s, 10, 64)`, where `n` is the value
      accumulated from the digits already read. A non-digit ends it with a
      syntax error and 0; a digit that would take the value past the largest
      uint64 ends it with a range error and that largest value. (Go tests the
      overflow in two steps, `n >= cutoff` and `n1 > maxVal` after a wrapping
      add; together they say exactly that `n * 10 + d` exceeds the maximum.) */
  function ScanUint(s: string, n: nat): (p: Parsed)
    requires n <= MaxUint64
    ensures 0 <= p.value <= MaxUint64
    ensures p.err == ErrSyntax ==> p.value == 0
    ensures p.err == ErrRange ==> p.value == MaxUint64
    decreases |s|
  {
    if s == [] then Parsed(n, NoError)
    else if !IsDigit(s[0]) then Parsed(0, ErrSyntax)
    else if n * 10 + DigitValue(s[0]) > MaxUint64 then Parsed(MaxUint64, ErrRange)
    else ScanUint(s[1..], n * 10 + DigitValue(s[0]))
  }

  /** `strconv.ParseUint(s, 10, 64)`: the empty string is a syntax error. */
  function ParseUint(s: string): (p: Parsed)
  {
    if s == [] then Parsed(0, ErrSyntax) else ScanUint(s, 0)
  }

  /** `s` without the one leading sign ParseInt accepts. */
  function Unsigned(s: string): (body: string)
  {
    if |s| > 0 && (s[0] == '+' || s[0] == '-') then s[1..] else s
  }

  predicate Negative(s: string)
  {
    |s| > 0 && s[0] == '-'
  }

  /** `strconv.ParseInt(s, 10, 64)`: an optional sign, then ParseUint on the
      rest; a syntax error gives 0, a magnitude out of the int64 range gives the
      int64 bound on that side and a range error. */
  function ParseInt(s: string): (p: Parsed)
    ensures MinInt64 <= p.value <= MaxInt64
    ensures p.err == ErrSyntax ==> p.value == 0
  {
    if s == [] then Parsed(0, ErrSyntax)
    else
      var u := ParseUint(Unsigned(s));
      if u.err == ErrSyntax then Parsed(0, ErrSyntax)
      else if !Negative(s) && u.value >= 0x8000_0000_0000_0000 then Parsed(MaxInt64, ErrRange)
      else if Negative(s) && u.value > 0x8000_0000_0000_0000 then Parsed(MinInt64, ErrRange)
      else Parsed(if Negative(s) then -u.value else u.value, NoError)
  }

  /** The result of ParseInt described on the whole string: look at the digits
      that follow the optional sign up to the first non-digit. If there are
      none and nothing else, or a non-digit follows them, it is a syntax error,
      except that a run of digits already too large for a uint64 gives a range
      error first. Otherwise the signed value is returned, clamped to the int64
      range with a range error when it lies outside. */
  function ParseIntSpec(s: string): (p: Parsed)
  {
    var body := Unsigned(s);
    var k := DigitRun(body);
    var u := Decimal(body[..k]);
    if body == [] then Parsed(0, ErrSyntax)
    else if u > MaxUint64 then Parsed(if Negative(s) then MinInt64 else MaxInt64, ErrRange)
    else if k < |body| then Parsed(0, ErrSyntax)
    else
      var v: int := if Negative(s) then -(u as int) else u;
      if v > MaxInt64 then Parsed(MaxInt64, ErrRange)
      else if v < MinInt64 then Parsed(MinInt64, ErrRange)
      else Parsed(v, NoError)
  }

  /** Appending digits never makes a decimal value smaller. */
  lemma {:induction false} DecimalGrows(p: string, q: string)
    requires AllDigits(p) && AllDigits(q)
    ensures AllDigits(p + q) && Decimal(p + q) >= Decimal(p)
    decreases |q|
  {
    assert AllDigits(p + q) by {
      forall i | 0 <= i < |p + q| ensures IsDigit((p + q)[i]) {
        if i >= |p| { assert (p + q)[i] == q[i - |p|]; }
      }
    }
    if q != [] {
      var q' := q[..|q| - 1];
      DecimalGrows(p, q');
      assert (p + q)[..|p + q| - 1] == p + q';
    } else {
      assert p + q == p;
    }
  }

  /** The scan, started after the digits `p`, ends as ParseIntSpec says: with
      a range error if the digits before the first non-digit overflow, with a
      syntax error if a non-digit comes, and with the value otherwise. */
  lemma {:induction false} ScanFrom(p: string, q: string)
    requires AllDigits(p) && Decimal(p) <= MaxUint64
    ensures var k := DigitRun(q);
      && AllDigits(p + q[..k])
      && ScanUint(q, Decimal(p)) ==
           if Decimal(p + q[..k]) > MaxUint64 then Parsed(MaxUint64, ErrRange)
           else if k < |q| then Parsed(0, ErrSyntax)
           else Parsed(Decimal(p + q[..k]), NoError)
    decreases |q|
  {
    var k := DigitRun(q);
    DecimalGrows(p, q[..k]);
    if q == [] || !IsDigit(q[0]) {
      assert p + q[..k] == p;
    } else {
      var p' := p + [q[0]];
      assert AllDigits(p') by { DecimalGrows(p, [q[0]]); }
      assert p'[..|p'| - 1] == p;
      assert Decimal(p') == Decimal(p) * 10 + DigitValue(q[0]);
      var k' := DigitRun(q[1..]);
      assert k == k' + 1;
      assert p + q[..k] == p' + q[1..][..k'] by {
        assert q[..k] == [q[0]] + q[1..][..k'];
      }
      if Decimal(p') > MaxUint64 {
        DecimalGrows(p', q[1..][..k']);
      } else {
        ScanFrom(p', q[1..]);
      }
    }
  }

  /** The scan and the whole-string description agree on every string. */
  lemma ParseIntMatchesSpec(s: string)
    ensures ParseInt(s) == ParseIntSpec(s)
  {
    var body := Unsigned(s);
    if body != [] {
      ScanFrom([], body);
      assert [] + body[..DigitRun(body)] == body[..DigitRun(body)];
      assert body[..|body|] == body;
    }
  }

  /** `strconv.FormatUint(n, 10)`: the decimal digits of `n`. */
  function FormatNat(n: nat): (s: string)
    ensures |s| >= 1 && AllDigits(s) && Decimal(s) == n
  {
    if n < 10 then [Digit(n)]
    else
      var s := FormatNat(n / 10) + [Digit(n % 10)];
      assert s[..|s| - 1] == FormatNat(n / 10);
      s
  }

  /** `strconv.FormatInt(n, 10)`. */
  function FormatInt(n: int): (s: string)
  {
    if n < 0 then "-" + FormatNat(-n) else FormatNat(n)
  }

  /** Every int64 survives formatting and parsing: a `bytes` field that holds
      a decimal int64 yields exactly that value, without error. */
  lemma FormatThenParse(n: int64)
    ensures ParseInt(FormatInt(n)) == Parsed(n, NoError)
  {
    var s := FormatInt(n);
    ParseIntMatchesSpec(s);
    var m: nat := if n < 0 then -(n as int) else n;
    var digits := FormatNat(m);
    assert Unsigned(s) == digits && (Negative(s) <==> n < 0) by {
      if n < 0 { assert s[1..] == digits; } else { assert IsDigit(s[0]); }
    }
    var k := DigitRun(digits);
    assert k == |digits|;
    assert digits[..k] == digits;
    assert Decimal(digits[..k]) == m;
  }

  /** Text with no digit at all parses to 0 with a syntax error. */
  lemma NonNumericIsZero(s: string)
    requires forall i :: 0 <= i < |s| ==> !IsDigit(s[i])
    ensures ParseInt(s) == Parsed(0, ErrSyntax)
  {
    ParseIntMatchesSpec(s);
  }
}
