/**
 Exact decimal amounts (codecs/money.go, codecs/scalars.go, models/money.go):
 parsing a decimal at a scale without rounding, and printing a scaled integer
 as a decimal in canonical form.
 */
module Decimals {
  import opened Basics
  import opened Numbers

  const MAX_SCALE: int := 36
  const PRICE_SCALE: int := 9

  datatype AmountError =
    | NegativeScale
    | ScaleTooLarge
    | NotADecimal
    | TooManyPlaces
    | OutOfRange
    | NotPositive
    | NotExact

  function ScaleError(scale: int): Option<AmountError> {
    if scale < 0 then Some(NegativeScale) else if scale > MAX_SCALE then Some(ScaleTooLarge) else None
  }

  // ---------- Strings ----------

  predicate IsSpace(c: char) {
    var n := c as int;
    || 9 <= n <= 13 || n == 32 || n == 0x85 || n == 0xA0 || n == 0x1680 || 0x2000 <= n <= 0x200A
    || n == 0x2028 || n == 0x2029 || n == 0x202F || n == 0x205F || n == 0x3000
  }

  /** `strings.TrimSpace`. */
  function TrimSpace(s: string): (r: string)
    ensures |r| <= |s|
    ensures s != [] && !IsSpace(s[0]) && !IsSpace(Last(s)) ==> r == s
  {
    if s == [] then s
    else if IsSpace(s[0]) then TrimSpace(s[1..])
    else if IsSpace(Last(s)) then TrimSpace(Init(s))
    else s
  }

  function Zeros(n: nat): (s: string)
    ensures |s| == n && AllDigits(s) && forall i :: 0 <= i < n ==> s[i] == '0'
  {
    seq(n, _ => '0')
  }

  function TrimLeftZeros(s: string): string {
    if s != [] && s[0] == '0' then TrimLeftZeros(s[1..]) else s
  }

  function TrimRightZeros(s: string): (r: string)
    ensures |r| <= |s|
  {
    if s != [] && Last(s) == '0' then TrimRightZeros(Init(s)) else s
  }

  lemma {:induction false} TrimLeftSpec(s: string)
    ensures var r := TrimLeftZeros(s); |r| <= |s| && s == Zeros(|s| - |r|) + r && (r != [] ==> r[0] != '0')
  {
    if s != [] && s[0] == '0' {
      TrimLeftSpec(s[1..]);
      assert s == [s[0]] + s[1..];
    }
  }

  lemma {:induction false} TrimRightSpec(s: string)
    ensures var r := TrimRightZeros(s); s == r + Zeros(|s| - |r|) && (r != [] ==> Last(r) != '0')
  {
    if s != [] && Last(s) == '0' {
      TrimRightSpec(Init(s));
      assert s == Init(s) + [Last(s)];
    }
  }

  /** Whole and fractional digits of a text, and whether it has a point: `strings.Cut` at the first one. */
  datatype Parts = Parts(whole: string, frac: string, point: bool)

  function Cut(s: string): (p: Parts)
    ensures s == p.whole + if p.point then "." + p.frac else ""
    ensures !p.point ==> p.frac == ""
    ensures '.' !in p.whole
  {
    if s == [] then Parts("", "", false)
    else if s[0] == '.' then Parts("", s[1..], true)
    else
      var rest := Cut(s[1..]);
      Parts([s[0]] + rest.whole, rest.frac, rest.point)
  }

  /** The strict decimal syntax: digits, then optionally a point and digits. */
  predicate StrictDecimal(s: string) {
    var p := Cut(s);
    p.whole != "" && AllDigits(p.whole) && (p.point ==> p.frac != "" && AllDigits(p.frac))
  }

  // ---------- Parsing ----------

  function TrimFrac(s: string): string {
    var p := Cut(s);
    if !p.point then s
    else
      var frac := TrimRightZeros(p.frac);
      if frac == "" then (if p.whole == "" then "0" else p.whole) else p.whole + "." + frac
  }

  /** A decimal as an integer at `scale`, or an error: it never rounds. */
  function DecimalToScaled(raw: string, scale: int): Result<nat, AmountError> {
    if ScaleError(scale).Some? then Err(ScaleError(scale).value)
    else if !StrictDecimal(TrimSpace(raw)) then Err(NotADecimal)
    else StrictToScaled(TrimSpace(raw), scale)
  }

  function StrictToScaled(text: string, scale: nat): Result<nat, AmountError> {
    var p := Cut(TrimFrac(text));
    if |p.frac| > scale then Err(TooManyPlaces)
    else
      var digits := p.whole + p.frac + Zeros(scale - |p.frac|);
      if digits == "" || !AllDigits(digits) then Err(NotADecimal) else Ok(NatValue(digits))
  }

  // ---------- Printing ----------

  function Padded(digits: string, width: nat): (r: string)
    ensures |r| >= width && (AllDigits(digits) ==> AllDigits(r))
  {
    if |digits| >= width then digits else Zeros(width - |digits|) + digits
  }

  /** Digits with a point before the last `scale` of them, superfluous zeros dropped. */
  function Pointed(digits: string, scale: nat): string
    requires |digits| > scale
  {
    var head := TrimLeftZeros(digits[..|digits| - scale]);
    var tail := TrimRightZeros(digits[|digits| - scale..]);
    (if head == "" then "0" else head) + (if tail == "" then "" else "." + tail)
  }

  /** A non-negative integer at `scale` as a decimal. */
  function FormatScaled(n: nat, scale: nat): string {
    if scale == 0 then FormatNat(n) else Pointed(Padded(FormatNat(n), scale + 1), scale)
  }

  // ---------- What a decimal says ----------

  /** Every digit of a strict decimal. */
  function Digits(p: Parts): string {
    p.whole + p.frac
  }

  /** `n` at `scale` is exactly the decimal `p`. */
  predicate SameAmount(p: Parts, n: nat, scale: nat)
    requires AllDigits(Digits(p))
  {
    Shifted(n, |p.frac|) == Shifted(NatValue(Digits(p)), scale)
  }

  /** The canonical form of a decimal: no superfluous zero on either side. */
  function Canon(p: Parts): string {
    var tail := TrimRightZeros(p.frac);
    Head(p.whole) + (if tail == "" then "" else "." + tail)
  }

  lemma {:induction false} ZerosValue(n: nat)
    ensures NatValue(Zeros(n)) == 0
  {
    if n > 0 {
      assert Init(Zeros(n)) == Zeros(n - 1);
      ZerosValue(n - 1);
    }
  }

  /** Appending zeros multiplies. */
  lemma {:induction false} ValueShifted(s: string, n: nat)
    requires AllDigits(s)
    ensures AllDigits(s + Zeros(n)) && NatValue(s + Zeros(n)) == Shifted(NatValue(s), n)
  {
    if n == 0 {
      assert s + Zeros(0) == s;
    } else {
      ValueShifted(s, n - 1);
      assert Init(s + Zeros(n)) == s + Zeros(n - 1);
    }
  }

  lemma {:induction false} OnlyZeros(s: string)
    requires AllDigits(s) && NatValue(s) == 0
    ensures s == Zeros(|s|)
  {
    if s != "" {
      OnlyZeros(Init(s));
    }
  }

  lemma {:induction false} SameDigits(a: string, b: string)
    requires AllDigits(a) && AllDigits(b) && |a| == |b| && NatValue(a) == NatValue(b)
    ensures a == b
  {
    if a != "" {
      LastDigit(NatValue(Init(a)), ValueOf(Last(a)), NatValue(Init(b)), ValueOf(Last(b)));
      SameDigits(Init(a), Init(b));
      assert a == Init(a) + [Last(a)] && b == Init(b) + [Last(b)];
    }
  }

  lemma LastDigit(x: int, d: int, y: int, e: int)
    requires 0 <= d < 10 && 0 <= e < 10 && 10 * x + d == 10 * y + e
    ensures x == y && d == e
  {
  }

  /** Digit strings of one value differ in leading zeros only. */
  lemma SameValue(a: string, b: string)
    requires AllDigits(a) && AllDigits(b) && |a| <= |b| && NatValue(a) == NatValue(b)
    ensures b == Zeros(|b| - |a|) + a
  {
    var front, back := b[..|b| - |a|], b[|b| - |a|..];
    assert b == front + back;
    ValueOfConcat(front, back);
    ValueBound(a);
    ValueBound(back);
    Quotient(NatValue(front), Pow10(|a|), NatValue(back), NatValue(a));
    OnlyZeros(front);
    SameDigits(a, back);
  }

  lemma Quotient(q: nat, p: nat, r: nat, v: nat)
    requires q * p + r == v && v < p && r < p
    ensures q == 0 && r == v
  {
    assert q >= 1 ==> q * p >= p;
  }

  lemma TrimLeftPadded(n: nat, s: string)
    ensures TrimLeftZeros(Zeros(n) + s) == TrimLeftZeros(s)
  {
    if n > 0 {
      assert (Zeros(n) + s)[1..] == Zeros(n - 1) + s;
      TrimLeftPadded(n - 1, s);
    } else {
      assert Zeros(0) + s == s;
    }
  }

  lemma TrimRightPadded(s: string, n: nat)
    ensures TrimRightZeros(s + Zeros(n)) == TrimRightZeros(s)
  {
    if n > 0 {
      assert Init(s + Zeros(n)) == s + Zeros(n - 1);
      TrimRightPadded(s, n - 1);
    } else {
      assert s + Zeros(0) == s;
    }
  }

  /** Leading zeros do not show. */
  lemma PointedPadded(digits: string, n: nat, scale: nat)
    requires |digits| > scale
    ensures Pointed(Zeros(n) + digits, scale) == Pointed(digits, scale)
  {
    var long := Zeros(n) + digits;
    assert long[..|long| - scale] == Zeros(n) + digits[..|digits| - scale];
    assert long[|long| - scale..] == digits[|digits| - scale..];
    TrimLeftPadded(n, digits[..|digits| - scale]);
  }

  // ---------- The parts of a decimal ----------

  lemma {:induction false} CutJoined(whole: string, frac: string)
    requires '.' !in whole
    ensures Cut(whole + "." + frac) == Parts(whole, frac, true)
    ensures Cut(whole) == Parts(whole, "", false)
    decreases |whole|
  {
    if whole == "" {
      assert whole + "." + frac == "." + frac;
      assert ("." + frac)[1..] == frac;
    } else {
      CutJoined(whole[1..], frac);
      assert (whole + "." + frac)[1..] == whole[1..] + "." + frac;
    }
  }

  lemma NoPoint(s: string)
    requires AllDigits(s)
    ensures '.' !in s
  {
  }

  /** Trailing zeros of the fraction are all that `TrimFrac` takes away. */
  lemma TrimmedParts(t: string)
    requires StrictDecimal(t)
    ensures var p, q := Cut(t), Cut(TrimFrac(t)); q.whole == p.whole && q.frac == TrimRightZeros(p.frac)
  {
    var p := Cut(t);
    NoPoint(p.whole);
    CutJoined(p.whole, TrimRightZeros(p.frac));
    CutJoined(p.whole, "");
  }

  /** The value of a decimal without its trailing zeros. */
  lemma TrimmedValue(p: Parts)
    requires AllDigits(Digits(p))
    ensures var tail := TrimRightZeros(p.frac);
      AllDigits(p.whole + tail) && NatValue(Digits(p)) == Shifted(NatValue(p.whole + tail), |p.frac| - |tail|)
  {
    hide NatValue, TrimRightZeros, ValueOf;
    var tail := TrimRightZeros(p.frac);
    var z := |p.frac| - |tail|;
    TrimRightSpec(p.frac);
    assert Digits(p) == p.whole + tail + Zeros(z);
    assert AllDigits(p.whole + tail) by {
      forall i | 0 <= i < |p.whole + tail|
        ensures IsDigit((p.whole + tail)[i]) { assert (p.whole + tail)[i] == Digits(p)[i]; }
    }
    ValueShifted(p.whole + tail, z);
  }

  lemma FewPlaces(n: nat, v: nat, a: nat, t: nat, z: nat, scale: nat)
    requires v == Shifted(a, z) && t <= scale
    ensures Shifted(n, t + z) == Shifted(v, scale) <==> n == Shifted(a, scale - t)
  {
    ShiftedTwice(a, z, scale);
    ShiftedTwice(a, scale - t, t + z);
    ShiftedInjective(n, Shifted(a, scale - t), t + z);
  }

  lemma ManyPlaces(n: nat, v: nat, a: nat, t: nat, z: nat, scale: nat)
    requires v == Shifted(a, z) && t > scale && a % 10 != 0
    ensures Shifted(n, t + z) != Shifted(v, scale)
  {
    ShiftedTwice(a, z, scale);
    ShiftedTwice(n, t - scale, z + scale);
    ShiftedInjective(Shifted(n, t - scale), a, z + scale);
    assert Shifted(n, t - scale) == 10 * Shifted(n, t - scale - 1);
  }

  /** An amount with few enough places is exactly its digits followed by zeros. */
  lemma AmountFits(p: Parts, n: nat, scale: nat)
    requires AllDigits(Digits(p)) && |TrimRightZeros(p.frac)| <= scale
    ensures var tail := TrimRightZeros(p.frac);
      AllDigits(p.whole + tail) && (SameAmount(p, n, scale) <==> n == Shifted(NatValue(p.whole + tail), scale - |tail|))
  {
    var tail := TrimRightZeros(p.frac);
    TrimmedValue(p);
    FewPlaces(n, NatValue(Digits(p)), NatValue(p.whole + tail), |tail|, |p.frac| - |tail|, scale);
  }

  /** An amount with more places than the scale is no integer at that scale. */
  lemma AmountTooFine(p: Parts, n: nat, scale: nat)
    requires AllDigits(Digits(p)) && |TrimRightZeros(p.frac)| > scale
    ensures !SameAmount(p, n, scale)
  {
    hide TrimRightZeros;
    var tail := TrimRightZeros(p.frac);
    TrimmedValue(p);
    TrimRightSpec(p.frac);
    assert Last(p.whole + tail) == Last(tail);
    ManyPlaces(n, NatValue(Digits(p)), NatValue(p.whole + tail), |tail|, |p.frac| - |tail|, scale);
  }

  // ---------- Parsing is exact ----------

  lemma StrictParses(t: string, scale: nat)
    requires StrictDecimal(t)
    ensures var p := Cut(t); var tail := TrimRightZeros(p.frac);
      && AllDigits(p.whole + tail)
      && StrictToScaled(t, scale) == if |tail| > scale then Err(TooManyPlaces)
        else Ok(Shifted(NatValue(p.whole + tail), scale - |tail|))
  {
    var p := Cut(t);
    var tail := TrimRightZeros(p.frac);
    TrimmedParts(t);
    TrimmedValue(p);
    if |tail| <= scale { ValueShifted(p.whole + tail, scale - |tail|); }
  }

  lemma StrictDigits(t: string)
    requires StrictDecimal(t)
    ensures AllDigits(Digits(Cut(t)))
  {
    hide NatValue;
  }

  /** A strict decimal parses exactly when it is an integer at the scale, and gives that integer. */
  lemma StrictExactly(t: string, scale: nat)
    requires StrictDecimal(t)
    ensures StrictToScaled(t, scale).Ok? ==> SameAmount(Cut(t), StrictToScaled(t, scale).value, scale)
    ensures StrictToScaled(t, scale).Err? ==> forall n: nat :: !SameAmount(Cut(t), n, scale)
  {
    hide NatValue, SameAmount, StrictToScaled, StrictDecimal;
    StrictDigits(t);
    var p := Cut(t);
    StrictParses(t, scale);
    if |TrimRightZeros(p.frac)| <= scale {
      AmountFits(p, StrictToScaled(t, scale).value, scale);
    } else {
      forall n: nat ensures !SameAmount(p, n, scale) { AmountTooFine(p, n, scale); }
    }
  }

  /** Parsing succeeds exactly on strict decimals that are an integer at the scale, and gives that integer. */
  lemma ParsesExactly(raw: string, scale: int)
    ensures DecimalToScaled(raw, scale).Ok? <==>
      ScaleError(scale).None? && StrictDecimal(TrimSpace(raw))
        && exists n: nat :: SameAmount(Cut(TrimSpace(raw)), n, scale)
    ensures DecimalToScaled(raw, scale).Ok? ==>
      SameAmount(Cut(TrimSpace(raw)), DecimalToScaled(raw, scale).value, scale)
  {
    hide NatValue, SameAmount, StrictToScaled, Cut, StrictDecimal, TrimSpace;
    if ScaleError(scale).None? && StrictDecimal(TrimSpace(raw)) {
      var text := TrimSpace(raw);
      StrictDigits(text);
      StrictExactly(text, scale);
      if DecimalToScaled(raw, scale).Ok? {
        var n: nat := DecimalToScaled(raw, scale).value;
        assert SameAmount(Cut(text), n, scale);
      }
    }
  }

  // ---------- Printing is canonical ----------

  lemma {:induction false} ShortestForm(n: nat, d: string)
    requires AllDigits(d) && d != "" && NatValue(d) == n
    ensures |FormatNat(n)| <= |d|
  {
    if n >= 10 {
      assert NatValue("") == 0;
      assert n / 10 == NatValue(Init(d));
      ShortestForm(n / 10, Init(d));
    }
  }

  /** Every integer that is the decimal at some scale prints as the decimal's canonical form. */
  lemma PrintsCanonical(t: string, n: nat, scale: nat)
    requires StrictDecimal(t) && SameAmount(Cut(t), n, scale)
    ensures FormatScaled(n, scale) == Canon(Cut(t))
  {
    var p := Cut(t);
    TailFits(p, n, scale);
    AmountDigits(p, n, scale);
    var frac := TrimRightZeros(p.frac) + Zeros(scale - |TrimRightZeros(p.frac)|);
    PrintsDigits(p.whole, frac, n, scale);
    SameTail(p, scale);
  }

  lemma TailFits(p: Parts, n: nat, scale: nat)
    requires AllDigits(Digits(p)) && SameAmount(p, n, scale)
    ensures |TrimRightZeros(p.frac)| <= scale
  {
    if |TrimRightZeros(p.frac)| > scale { AmountTooFine(p, n, scale); }
  }

  /** The amount, written out with exactly `scale` places. */
  lemma AmountDigits(p: Parts, n: nat, scale: nat)
    requires AllDigits(Digits(p)) && SameAmount(p, n, scale) && |TrimRightZeros(p.frac)| <= scale
    ensures var all := p.whole + (TrimRightZeros(p.frac) + Zeros(scale - |TrimRightZeros(p.frac)|));
      AllDigits(all) && NatValue(all) == n
  {
    hide NatValue, SameAmount, TrimRightZeros;
    var tail := TrimRightZeros(p.frac);
    AmountFits(p, n, scale);
    ValueShifted(p.whole + tail, scale - |tail|);
    assert p.whole + (tail + Zeros(scale - |tail|)) == p.whole + tail + Zeros(scale - |tail|);
  }

  lemma SameTail(p: Parts, scale: nat)
    requires |TrimRightZeros(p.frac)| <= scale
    ensures Canon(Parts(p.whole, TrimRightZeros(p.frac) + Zeros(scale - |TrimRightZeros(p.frac)|), true)) == Canon(p)
  {
    TrimTwice(p.frac, scale - |TrimRightZeros(p.frac)|);
  }

  lemma TrimTwice(frac: string, n: nat)
    ensures TrimRightZeros(TrimRightZeros(frac) + Zeros(n)) == TrimRightZeros(frac)
  {
    var tail := TrimRightZeros(frac);
    TrimRightSpec(frac);
    TrimRightPadded(tail, n);
    TrimRightPadded(tail, |frac| - |tail|);
  }

  lemma PrintsDigits(whole: string, frac: string, n: nat, scale: nat)
    requires AllDigits(whole + frac) && whole != "" && |frac| == scale && NatValue(whole + frac) == n
    ensures FormatScaled(n, scale) == Canon(Parts(whole, frac, true))
  {
    if scale == 0 {
      assert whole + frac == whole;
      PrintsWhole(whole, n);
    } else {
      PrintsPointed(whole, frac, n, scale);
    }
  }

  lemma PrintsWhole(whole: string, n: nat)
    requires AllDigits(whole) && whole != "" && NatValue(whole) == n
    ensures FormatNat(n) == Head(whole)
  {
    hide NatValue;
    ShortestForm(n, whole);
    ParseFormatted(n);
    SameValue(FormatNat(n), whole);
    TrimLeftPadded(|whole| - |FormatNat(n)|, FormatNat(n));
    if n == 0 {
      assert FormatNat(0) == "0";
      assert "0"[1..] == "";
    }
  }

  lemma PrintsPointed(whole: string, frac: string, n: nat, scale: nat)
    requires AllDigits(whole + frac) && whole != "" && |frac| == scale > 0 && NatValue(whole + frac) == n
    ensures FormatScaled(n, scale) == Canon(Parts(whole, frac, true))
  {
    var d := whole + frac;
    ShortestForm(n, d);
    ZeroPadding(FormatNat(n), scale + 1);
    ParseFormatted(n);
    var padded := Padded(FormatNat(n), scale + 1);
    assert |padded| <= |d|;
    SameValue(padded, d);
    PointedPadded(padded, |d| - |padded|, scale);
    assert d[..|d| - scale] == whole && d[|d| - scale..] == frac;
  }

  lemma ValueAfterZeros(n: nat, digits: string)
    requires AllDigits(digits)
    ensures NatValue(Zeros(n) + digits) == NatValue(digits)
  {
    ValueOfConcat(Zeros(n), digits);
    ZerosValue(n);
    NoProduct(NatValue(Zeros(n)), Pow10(|digits|));
  }

  lemma NoProduct(a: int, b: int)
    requires a == 0
    ensures a * b == 0
  {
  }

  lemma ZeroPadding(digits: string, width: nat)
    requires AllDigits(digits)
    ensures NatValue(Padded(digits, width)) == NatValue(digits)
  {
    hide NatValue, FormatNat;
    if |digits| < width {
      ValueAfterZeros(width - |digits|, digits);
    }
  }

  function Head(whole: string): string {
    if TrimLeftZeros(whole) == "" then "0" else TrimLeftZeros(whole)
  }

  lemma NoSpace(s: string)
    requires AllDigits(s) && s != ""
    ensures !IsSpace(s[0]) && !IsSpace(Last(s))
  {
  }

  lemma JoinedDecimal(head: string, tail: string)
    requires AllDigits(head) && head != "" && AllDigits(tail)
    ensures var text := head + (if tail == "" then "" else "." + tail);
      && Cut(text) == Parts(head, tail, tail != "") && StrictDecimal(text) && TrimSpace(text) == text
  {
    hide NatValue, IsSpace, TrimSpace;
    NoPoint(head);
    NoSpace(head);
    if tail != "" { NoSpace(tail); }
    CutJoined(head, tail);
    assert head + "." + tail == head + ("." + tail);
    assert head + "" == head;
  }

  /** The canonical form is a strict decimal of the same value. */
  lemma CanonParts(p: Parts)
    requires AllDigits(Digits(p)) && p.whole != ""
    ensures StrictDecimal(Canon(p)) && TrimSpace(Canon(p)) == Canon(p)
    ensures var q := Cut(Canon(p));
      && q.whole == Head(p.whole) && q.frac == TrimRightZeros(p.frac) && AllDigits(Digits(q))
      && Shifted(NatValue(Digits(q)), |p.frac| - |q.frac|) == NatValue(Digits(p))
  {
    hide NatValue, TrimLeftZeros, TrimRightZeros;
    var tail := TrimRightZeros(p.frac);
    TrimmedValue(p);
    DigitsOfParts(p);
    TrimRightSpec(p.frac);
    assert AllDigits(tail) by { forall i | 0 <= i < |tail| ensures IsDigit(tail[i]) { assert tail[i] == p.frac[i]; } }
    HeadDigits(p.whole);
    HeadValue(p.whole, tail);
    JoinedDecimal(Head(p.whole), tail);
  }

  lemma DigitsOfParts(p: Parts)
    requires AllDigits(Digits(p))
    ensures AllDigits(p.whole) && AllDigits(p.frac)
  {
    forall i | 0 <= i < |p.whole| ensures IsDigit(p.whole[i]) { assert p.whole[i] == Digits(p)[i]; }
    forall i | 0 <= i < |p.frac| ensures IsDigit(p.frac[i]) { assert p.frac[i] == Digits(p)[|p.whole| + i]; }
  }

  lemma HeadDigits(whole: string)
    requires AllDigits(whole)
    ensures AllDigits(TrimLeftZeros(whole))
    ensures TrimLeftZeros(TrimLeftZeros(whole)) == TrimLeftZeros(whole)
  {
    var head := TrimLeftZeros(whole);
    TrimLeftSpec(whole);
    forall i | 0 <= i < |head| ensures IsDigit(head[i]) { assert head[i] == whole[|whole| - |head| + i]; }
  }

  lemma HeadValue(whole: string, tail: string)
    requires AllDigits(whole) && AllDigits(tail) && whole != ""
    ensures AllDigits(Head(whole) + tail) && AllDigits(whole + tail)
      && NatValue(Head(whole) + tail) == NatValue(whole + tail)
  {
    var trimmed := TrimLeftZeros(whole);
    TrimLeftSpec(whole);
    HeadDigits(whole);
    var z := |whole| - |trimmed|;
    var head := Head(whole);
    ValueAfterZeros(z, trimmed);
    ZerosValue(1);
    assert "0" == Zeros(1);
    assert NatValue(head) == NatValue(whole);
    ValueOfConcat(head, tail);
    ValueOfConcat(whole, tail);
  }

  // ---------- Round trips ----------

  /** Parsing what was printed gives the integer back, at every scale. */
  lemma ParseFormat(n: nat, scale: nat)
    requires scale <= MAX_SCALE
    ensures DecimalToScaled(FormatScaled(n, scale), scale) == Ok(n)
  {
    var p := PrintedParts(n, scale);
    ParseCanon(p, n);
  }

  lemma ParseCanon(p: Parts, n: nat)
    requires AllDigits(Digits(p)) && p.whole != "" && |p.frac| <= MAX_SCALE && NatValue(Digits(p)) == n
    ensures DecimalToScaled(Canon(p), |p.frac|) == Ok(n)
  {
    hide NatValue, Canon, SameAmount, Cut, TrimSpace, StrictDecimal;
    CanonParts(p);
    SameAmountScaled(Cut(Canon(p)), p, n, |p.frac|);
    ParsesExactly(Canon(p), |p.frac|);
    AmountUnique(Cut(Canon(p)), DecimalToScaled(Canon(p), |p.frac|).value, n, |p.frac|);
  }

  /** The digits that are printed, with exactly `scale` places. */
  lemma PrintedParts(n: nat, scale: nat) returns (p: Parts)
    ensures AllDigits(Digits(p)) && p.whole != "" && |p.frac| == scale && NatValue(Digits(p)) == n
    ensures FormatScaled(n, scale) == Canon(p)
  {
    hide NatValue, FormatNat, FormatScaled, Canon;
    var padded := Padded(FormatNat(n), scale + 1);
    ParseFormatted(n);
    ZeroPadding(FormatNat(n), scale + 1);
    p := Parts(padded[..|padded| - scale], padded[|padded| - scale..], true);
    assert Digits(p) == padded;
    PrintsDigits(p.whole, p.frac, n, scale);
  }

  lemma SameAmountScaled(q: Parts, p: Parts, n: nat, scale: nat)
    requires AllDigits(Digits(q)) && AllDigits(Digits(p)) && |p.frac| == scale && |q.frac| <= scale
      && NatValue(Digits(p)) == n
    requires Shifted(NatValue(Digits(q)), |p.frac| - |q.frac|) == NatValue(Digits(p))
    ensures SameAmount(q, n, scale)
  {
    ShiftedTwice(NatValue(Digits(q)), scale - |q.frac|, |q.frac|);
  }

  lemma AmountUnique(p: Parts, n: nat, m: nat, scale: nat)
    requires AllDigits(Digits(p)) && SameAmount(p, n, scale) && SameAmount(p, m, scale)
    ensures n == m
  {
    ShiftedInjective(n, m, |p.frac|);
  }

  /** Printing what was parsed gives the canonical form of the text. */
  lemma FormatParse(raw: string, scale: int)
    requires DecimalToScaled(raw, scale).Ok?
    ensures scale >= 0 && FormatScaled(DecimalToScaled(raw, scale).value, scale) == Canon(Cut(TrimSpace(raw)))
  {
    ParsesExactly(raw, scale);
    PrintsCanonical(TrimSpace(raw), DecimalToScaled(raw, scale).value, scale);
  }
}
