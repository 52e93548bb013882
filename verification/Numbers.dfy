/** Machine integers and decimal digit strings. */
module Numbers {
  import opened Basics

  const MIN_INT64: int := -0x8000_0000_0000_0000
  const MAX_INT64: int := 0x7FFF_FFFF_FFFF_FFFF
  const TWO_64: int := 0x1_0000_0000_0000_0000

  predicate IsInt64(x: int) {
    MIN_INT64 <= x <= MAX_INT64
  }

  /** Go's `int` on a 64-bit platform. */
  type Int64 = x: int | -0x8000_0000_0000_0000 <= x <= 0x7FFF_FFFF_FFFF_FFFF

  /** The value a 64-bit signed result keeps of `x`. */
  function Wrap64(x: int): (r: Int64)
    ensures IsInt64(x) ==> r == x
  {
    var low := x % TWO_64;
    if low > MAX_INT64 then low - TWO_64 else low
  }

  /** Division of integers that truncates toward zero. */
  function TruncDiv(a: int, b: int): int
    requires b != 0
  {
    if a >= 0 then a / b else -((-a) / b)
  }

  function Pow10(n: nat): (p: nat)
    ensures p > 0
  {
    if n == 0 then 1 else 10 * Pow10(n - 1)
  }

  lemma {:induction false} Pow10Sum(a: nat, b: nat)
    ensures Pow10(a + b) == Pow10(a) * Pow10(b)
  {
    if a != 0 {
      Pow10Sum(a - 1, b);
    }
  }

  // ---------- Digit strings ----------

  predicate IsDigit(c: char) {
    '0' <= c <= '9'
  }

  predicate AllDigits(s: string) {
    forall i :: 0 <= i < |s| ==> IsDigit(s[i])
  }

  function DigitOf(d: nat): (c: char)
    requires d < 10
    ensures IsDigit(c) && ValueOf(c) == d
  {
    '0' + d as char
  }

  function ValueOf(c: char): nat
    requires IsDigit(c)
  {
    c as int - '0' as int
  }

  /** `n` in base ten. */
  function FormatNat(n: nat): (s: string)
    ensures s != [] && AllDigits(s)
  {
    if n < 10 then [DigitOf(n)] else FormatNat(n / 10) + [DigitOf(n % 10)]
  }

  function NatValue(s: string): nat
    requires AllDigits(s)
  {
    if s == [] then 0 else 10 * NatValue(Init(s)) + ValueOf(Last(s))
  }

  /** No leading zero but in "0" itself. */
  predicate Canonical(s: string) {
    AllDigits(s) && s != [] && (s[0] == '0' ==> |s| == 1)
  }

  lemma {:induction false} ParseFormatted(n: nat)
    ensures NatValue(FormatNat(n)) == n && Canonical(FormatNat(n))
    ensures n > 0 ==> FormatNat(n)[0] != '0'
  {
    if n < 10 {
      assert Init([DigitOf(n)]) == [];
      assert NatValue([]) == 0;
    } else {
      ParseFormatted(n / 10);
      assert Init(FormatNat(n)) == FormatNat(n / 10);
    }
  }

  lemma {:induction false} FormatParsed(s: string)
    requires Canonical(s)
    ensures FormatNat(NatValue(s)) == s
  {
    var init := Init(s);
    if init == [] {
      assert NatValue(init) == 0;
      assert s == [Last(s)];
    } else {
      assert init[0] == s[0];
      FormatParsed(init);
      LeadingDigit(init);
      AppendDigit(NatValue(init), Last(s));
    }
  }

  lemma AppendDigit(v: nat, c: char)
    requires v > 0 && IsDigit(c)
    ensures FormatNat(10 * v + ValueOf(c)) == FormatNat(v) + [c]
  {
    var n := 10 * v + ValueOf(c);
    assert n / 10 == v && n % 10 == ValueOf(c);
    assert DigitOf(ValueOf(c)) == c;
  }

  lemma {:induction false} LeadingDigit(s: string)
    requires AllDigits(s) && s != [] && s[0] != '0'
    ensures NatValue(s) > 0
  {
    if Init(s) == [] {
      assert NatValue(Init(s)) == 0;
    } else {
      LeadingDigit(Init(s));
    }
  }

  lemma {:induction false} ValueOfConcat(a: string, b: string)
    requires AllDigits(a) && AllDigits(b)
    ensures AllDigits(a + b)
    ensures NatValue(a + b) == NatValue(a) * Pow10(|b|) + NatValue(b)
  {
    if b == [] {
      assert a + b == a;
    } else {
      ValueOfConcat(a, Init(b));
      assert Init(a + b) == a + Init(b) && Last(a + b) == Last(b);
      ConcatStep(NatValue(a), Pow10(|b| - 1), NatValue(Init(b)), ValueOf(Last(b)));
      assert Pow10(|b|) == 10 * Pow10(|b| - 1);
    }
  }

  lemma ConcatStep(a: int, p: int, b: int, d: int)
    ensures 10 * (a * p + b) + d == a * (10 * p) + (10 * b + d)
  {
    Shift(a, p);
  }

  lemma Shift(a: int, p: int)
    ensures 10 * (a * p) == a * (10 * p)
  {
  }

  lemma {:induction false} ValueBound(s: string)
    requires AllDigits(s)
    ensures NatValue(s) < Pow10(|s|)
  {
    if s != [] {
      ValueBound(Init(s));
    }
  }

  // ---------- Fixed-width parsing and printing ----------

  /** `strconv.Atoi` on a 64-bit platform: an optional sign, digits, a value in range. */
  function Atoi(s: string): Option<Int64> {
    var negative := s != [] && s[0] == '-';
    var digits := if s != [] && (s[0] == '-' || s[0] == '+') then s[1..] else s;
    if digits == [] || !AllDigits(digits) then None
    else
      var magnitude: int := NatValue(digits);
      var value := if negative then -magnitude else magnitude;
      if IsInt64(value) then Some(value) else None
  }

  /** What `strconv.FormatUint` prints, `Atoi` reads back unless it exceeds an int. */
  lemma AtoiFormatted(n: nat)
    ensures Atoi(FormatNat(n)) == if n <= MAX_INT64 then Some(n) else None
  {
    ParseFormatted(n);
    var s := FormatNat(n);
    assert IsDigit(s[0]);
  }

  // ---------- Products ----------

  lemma Assoc(a: int, b: int, c: int)
    ensures (a * b) * c == a * (b * c)
  {
  }

  /** `n` with `e` zeros after it: `n` times ten to the `e`. */
  function Shifted(n: nat, e: nat): nat {
    if e == 0 then n else 10 * Shifted(n, e - 1)
  }

  lemma {:induction false} ShiftedProduct(n: nat, e: nat)
    ensures Shifted(n, e) == n * Pow10(e)
  {
    if e != 0 {
      ShiftedProduct(n, e - 1);
      assert 10 * (n * Pow10(e - 1)) == n * (10 * Pow10(e - 1)) by { Shift(n, Pow10(e - 1)); }
    }
  }

  lemma {:induction false} ShiftedTwice(n: nat, a: nat, b: nat)
    ensures Shifted(Shifted(n, a), b) == Shifted(n, a + b)
  {
    if b != 0 {
      ShiftedTwice(n, a, b - 1);
    }
  }

  lemma {:induction false} ShiftedInjective(n: nat, m: nat, e: nat)
    ensures Shifted(n, e) == Shifted(m, e) <==> n == m
  {
    if e != 0 {
      ShiftedInjective(n, m, e - 1);
    }
  }
}
