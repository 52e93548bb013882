/**
 Prices, quantities and ledger amounts (codecs/scalars.go, codecs/money.go,
 codecs/withdraw.go, codecs/proto_helpers.go, codecs/ledger.go): parsing and
 printing at a scale, rescaling without rounding, and the 128-bit wire form.
 */
module Money {
  import opened Basics
  import opened Numbers
  import opened Decimals

  const MAX_UINT64: int := 0xFFFF_FFFF_FFFF_FFFF
  const TWO_128: int := 0x1_0000_0000_0000_0000_0000_0000_0000_0000
  const LEDGER_SCALE: int := 18

  // ---------- Prices and quantities ----------

  function FormatInt(n: Int64): string {
    if n < 0 then "-" + FormatNat(-(n as int)) else FormatNat(n)
  }

  /** A signed 64-bit value at `scale`; negating the least value wraps, as in Go. */
  function FormatFixed(n: Int64, scale: nat): string {
    if scale == 0 then FormatInt(n)
    else if n < 0 then "-" + Pointed(Padded(FormatInt(Wrap64(0 - n)), scale + 1), scale)
    else Pointed(Padded(FormatInt(n), scale + 1), scale)
  }

  function FormatPriceTicks(ticks: Int64): string {
    FormatFixed(ticks, PRICE_SCALE)
  }

  function FormatQtyScaled(qty: Int64, scale: int): Result<string, AmountError> {
    if ScaleError(scale).Some? then Err(ScaleError(scale).value) else Ok(FormatFixed(qty, scale))
  }

  function ParsePriceTicks(raw: string): Result<nat, AmountError> {
    match DecimalToScaled(raw, PRICE_SCALE)
    case Err(e) => Err(e)
    case Ok(n) => if n > MAX_UINT64 || n > MAX_INT64 then Err(OutOfRange) else Ok(n)
  }

  function ParseQtyScaled(raw: string, scale: int): Result<nat, AmountError> {
    match DecimalToScaled(raw, scale)
    case Err(e) => Err(e)
    case Ok(n) =>
      if n == 0 then Err(NotPositive)
      else if scale != 18 && n > MAX_INT64 then Err(OutOfRange)
      else if n > MAX_UINT64 then Err(OutOfRange)
      else Ok(n)
  }

  /** Printing a negative value is a minus and the printed magnitude, but for the least one. */
  lemma FormatFixedSigns(n: Int64, scale: nat)
    ensures n >= 0 ==> FormatFixed(n, scale) == FormatScaled(n, scale)
    ensures MIN_INT64 < n < 0 ==> FormatFixed(n, scale) == "-" + FormatScaled(0 - n, scale)
  {
    hide FormatNat, Padded, Pointed;
  }

  /** Parse after format is the identity on non-negative ticks. */
  lemma PriceRoundTrip(ticks: Int64)
    requires ticks >= 0
    ensures ParsePriceTicks(FormatPriceTicks(ticks)) == Ok(ticks)
  {
    FormatFixedSigns(ticks, PRICE_SCALE);
    ParseFormat(ticks, PRICE_SCALE);
  }

  /** Format after parse is the canonical form of the text. */
  lemma PriceCanonical(raw: string)
    requires ParsePriceTicks(raw).Ok?
    ensures ParsePriceTicks(raw).value <= MAX_INT64
    ensures FormatPriceTicks(ParsePriceTicks(raw).value) == Canon(Cut(TrimSpace(raw)))
  {
    FormatFixedSigns(ParsePriceTicks(raw).value, PRICE_SCALE);
    FormatParse(raw, PRICE_SCALE);
  }

  /** Parse after format is the identity on positive quantities at every scale. */
  lemma QtyRoundTrip(qty: Int64, scale: nat)
    requires qty > 0 && scale <= MAX_SCALE
    ensures FormatQtyScaled(qty, scale).Ok? && ParseQtyScaled(FormatQtyScaled(qty, scale).value, scale) == Ok(qty)
  {
    FormatFixedSigns(qty, scale);
    ParseFormat(qty, scale);
  }

  lemma QtyCanonical(raw: string, scale: int)
    requires ParseQtyScaled(raw, scale).Ok? && ParseQtyScaled(raw, scale).value <= MAX_INT64
    ensures FormatQtyScaled(ParseQtyScaled(raw, scale).value, scale) == Ok(Canon(Cut(TrimSpace(raw))))
  {
    assert ScaleError(scale).None?;
    hide DecimalToScaled, Canon, Cut, TrimSpace, FormatScaled, FormatFixed;
    FormatParse(raw, scale);
    FormatFixedSigns(ParseQtyScaled(raw, scale).value, scale);
  }

  /** A text denotes `n` at `scale`: it is a plain decimal, and that is its amount. */
  predicate Denotes(raw: string, n: nat, scale: nat) {
    StrictDecimal(TrimSpace(raw)) && DenotesDigits(raw) && SameAmount(Cut(TrimSpace(raw)), n, scale)
  }

  predicate DenotesDigits(raw: string) {
    AllDigits(Digits(Cut(TrimSpace(raw))))
  }

  /** Reading a decimal at a scale gives `n` exactly when the text denotes it. */
  lemma ReadsExactly(raw: string, scale: int, n: nat)
    ensures DecimalToScaled(raw, scale) == Ok(n) <==> 0 <= scale <= 36 && Denotes(raw, n, scale)
  {
    ParsesExactly(raw, scale);
    if StrictDecimal(TrimSpace(raw)) { StrictDigits(TrimSpace(raw)); }
    hide StrictDecimal, TrimSpace, Cut, SameAmount, DecimalToScaled;
    if DecimalToScaled(raw, scale).Ok? && 0 <= scale && Denotes(raw, n, scale) {
      AmountUnique(Cut(TrimSpace(raw)), n, DecimalToScaled(raw, scale).value, scale);
    }
  }

  /** Exactly the texts that denote a number of ticks of 1e-9 within 63 bits are prices. */
  lemma PriceReads(raw: string, ticks: nat)
    ensures ParsePriceTicks(raw) == Ok(ticks) <==> Denotes(raw, ticks, 9) && ticks <= 0x7FFF_FFFF_FFFF_FFFF
  {
    ReadsExactly(raw, PRICE_SCALE, ticks);
    hide Denotes, DecimalToScaled;
  }

  /**
   Exactly the texts that denote a positive quantity at the scale are quantities: within 64 bits at scale 18,
   63 at others.
   */
  lemma QtyReads(raw: string, scale: int, qty: nat)
    ensures ParseQtyScaled(raw, scale) == Ok(qty) <==>
      && 0 <= scale <= 36 && Denotes(raw, qty, scale) && qty > 0
      && qty <= if scale == 18 then 0xFFFF_FFFF_FFFF_FFFF else 0x7FFF_FFFF_FFFF_FFFF
  {
    ReadsExactly(raw, scale, qty);
    hide Denotes, DecimalToScaled;
  }

  // ---------- Rescaling ----------

  predicate Fits128(n: nat) {
    n < TWO_128
  }

  /** A non-negative value at one scale, at another: exactly, within 128 bits, or not at all. */
  function RescaleExact(value: nat, source: int, target: nat): Result<nat, AmountError> {
    if ScaleError(source).Some? then Err(ScaleError(source).value)
    else if source == target then (if Fits128(value) then Ok(value) else Err(OutOfRange))
    else if source < target then
      var out := value * Pow10(target - source);
      if Fits128(out) then Ok(out) else Err(OutOfRange)
    else
      var divisor := Pow10(source - target);
      if value % divisor != 0 then Err(NotExact)
      else if Fits128(value / divisor) then Ok(value / divisor)
      else Err(OutOfRange)
  }

  /** `out` at the target scale is `value` at the source scale. */
  predicate SameValueAt(out: nat, target: nat, value: nat, source: nat) {
    Shifted(out, source) == Shifted(value, target)
  }

  lemma SameValueShift(out: nat, target: nat, value: nat, source: nat)
    ensures source <= target ==> (SameValueAt(out, target, value, source) <==> out == Shifted(value, target - source))
    ensures source >= target ==> (SameValueAt(out, target, value, source) <==> Shifted(out, source - target) == value)
  {
    if source <= target {
      ShiftedTwice(value, target - source, source);
      ShiftedInjective(out, Shifted(value, target - source), source);
    }
    if source >= target {
      ShiftedTwice(out, source - target, target);
      ShiftedInjective(Shifted(out, source - target), value, target);
    }
  }

  lemma DividesShifted(value: nat, d: nat, q: nat)
    ensures Shifted(q, d) == value <==> value % Pow10(d) == 0 && value / Pow10(d) == q
  {
    ShiftedProduct(q, d);
    DivMod(value, Pow10(d), q);
  }

  lemma DivMod(v: nat, p: nat, q: nat)
    requires p > 0
    ensures q * p == v <==> v % p == 0 && v / p == q
  {
    var d, r := v / p, v % p;
    assert v == d * p + r;
    if q > d { Ahead(q, d, p); }
    if q < d { Ahead(d, q, p); }
  }

  /** Rescaling succeeds exactly when the value is representable at the target scale in 128 bits, and never rounds. */
  lemma RescalesExactly(value: nat, source: int, target: nat)
    ensures RescaleExact(value, source, target).Ok? <==>
      ScaleError(source).None? && exists out: nat :: SameValueAt(out, target, value, source) && Fits128(out)
    ensures RescaleExact(value, source, target).Ok? ==>
      SameValueAt(RescaleExact(value, source, target).value, target, value, source)
  {
    if ScaleError(source).None? {
      var r := RescaleExact(value, source, target);
      if source <= target {
        ShiftedProduct(value, target - source);
        forall out: nat ensures SameValueAt(out, target, value, source) <==> out == Shifted(value, target - source) {
          SameValueShift(out, target, value, source);
        }
      } else {
        forall out: nat
          ensures SameValueAt(out, target, value, source) <==>
            value % Pow10(source - target) == 0 && value / Pow10(source - target) == out
        {
          SameValueShift(out, target, value, source);
          DividesShifted(value, source - target, out);
        }
      }
    }
  }

  // ---------- Amounts ----------

  /** A decimal amount at the target scale, read at its own scale when one is given. */
  function ResolveDecimal(dec: string, inputScale: Option<int>, target: int, ledger: bool): Result<nat, AmountError> {
    if ScaleError(target).Some? then Err(ScaleError(target).value)
    else
      var source := if inputScale.Some? then inputScale.value else target;
      match DecimalToScaled(dec, source)
      case Err(e) => Err(e)
      case Ok(n) =>
        if n == 0 then Err(NotPositive)
        else match RescaleExact(n, source, target)
          case Err(e) => Err(e)
          case Ok(out) => if !ledger && out > MAX_INT64 then Err(OutOfRange) else Ok(out)
  }

  /** What is resolved is the decimal, exactly. */
  lemma ResolvesExactly(dec: string, inputScale: Option<int>, target: int, ledger: bool)
    requires ResolveDecimal(dec, inputScale, target, ledger).Ok?
    ensures var out := ResolveDecimal(dec, inputScale, target, ledger).value;
      && target >= 0 && StrictDecimal(TrimSpace(dec)) && SameAmount(Cut(TrimSpace(dec)), out, target)
      && 0 < out < TWO_128
  {
    var source := if inputScale.Some? then inputScale.value else target;
    var n := DecimalToScaled(dec, source).value;
    var out := RescaleExact(n, source, target).value;
    ParsesExactly(dec, source);
    RescalesExactly(n, source, target);
    AmountCarries(Cut(TrimSpace(dec)), n, source, out, target);
    if out == 0 { ShiftedZero(source); ShiftedInjective(n, 0, target); ShiftedZero(target); }
  }

  lemma {:induction false} ShiftedZero(e: nat)
    ensures Shifted(0, e) == 0
  {
    if e != 0 { ShiftedZero(e - 1); }
  }

  lemma AmountCarries(p: Parts, n: nat, source: nat, out: nat, target: nat)
    requires AllDigits(Digits(p)) && SameAmount(p, n, source) && SameValueAt(out, target, n, source)
    ensures SameAmount(p, out, target)
  {
    var f, v := |p.frac|, NatValue(Digits(p));
    ShiftedTwice(out, f, source);
    ShiftedTwice(out, source, f);
    ShiftedTwice(n, target, f);
    ShiftedTwice(n, f, target);
    ShiftedTwice(v, source, target);
    ShiftedTwice(v, target, source);
    ShiftedInjective(Shifted(out, f), Shifted(v, target), source);
  }

  /**
   When an amount is resolved: exactly when the text denotes it at the target scale, and something at the scale
   it is to be read at, and it is positive, within 128 bits, and within 63 unless it is for the ledger.
   */
  lemma ResolvesWhen(dec: string, inputScale: Option<int>, target: int, ledger: bool, out: nat)
    ensures ResolveDecimal(dec, inputScale, target, ledger) == Ok(out) <==>
      && 0 <= target <= 36 && Denotes(dec, out, target) && 0 < out < TWO_128
      && (ledger || out <= 0x7FFF_FFFF_FFFF_FFFF)
      && (inputScale.Some? ==> 0 <= inputScale.value <= 36 && exists n: nat :: Denotes(dec, n, inputScale.value))
  {
    hide ResolveDecimal, Denotes;
    var source := if inputScale.Some? then inputScale.value else target;
    if ResolveDecimal(dec, inputScale, target, ledger) == Ok(out) {
      ResolvedDenotes(dec, inputScale, target, ledger, source);
    }
    if 0 <= target <= 36 && Denotes(dec, out, target) && 0 < out < TWO_128 && 0 <= source <= 36 {
      if n: nat :| Denotes(dec, n, source) {
        DenotedResolves(dec, inputScale, target, ledger, source, out, n);
      }
    }
  }

  lemma DenotedResolves(dec: string, inputScale: Option<int>, target: int, ledger: bool, source: int, out: nat, n: nat)
    requires source == if inputScale.Some? then inputScale.value else target
    requires 0 <= target <= 36 && 0 <= source <= 36 && Denotes(dec, out, target) && Denotes(dec, n, source)
    requires 0 < out < TWO_128
    ensures ResolveDecimal(dec, inputScale, target, ledger) ==
      if !ledger && out > MAX_INT64 then Err(OutOfRange) else Ok(out)
  {
    hide Denotes, DecimalToScaled, RescaleExact;
    ReadsExactly(dec, source, n);
    RescalesDenoted(dec, n, source, out, target);
  }

  lemma ResolvedDenotes(dec: string, inputScale: Option<int>, target: int, ledger: bool, source: int)
    requires ResolveDecimal(dec, inputScale, target, ledger).Ok?
    requires source == if inputScale.Some? then inputScale.value else target
    ensures var out := ResolveDecimal(dec, inputScale, target, ledger).value;
      && 0 <= target <= 36 && Denotes(dec, out, target) && 0 < out < TWO_128 && (ledger || out <= MAX_INT64)
      && 0 <= source <= 36 && exists n: nat :: Denotes(dec, n, source)
  {
    ResolvesExactly(dec, inputScale, target, ledger);
    StrictDigits(TrimSpace(dec));
    ReadsExactly(dec, source, DecimalToScaled(dec, source).value);
  }

  lemma RescalesDenoted(dec: string, n: nat, source: nat, out: nat, target: nat)
    requires source <= 36 && target <= 36 && Denotes(dec, n, source) && Denotes(dec, out, target) && Fits128(out)
    ensures RescaleExact(n, source, target) == Ok(out) && (out > 0 ==> n > 0)
  {
    var p := Cut(TrimSpace(dec));
    SameValueOf(p, n, source, out, target);
    RescalesExactly(n, source, target);
    var r := RescaleExact(n, source, target).value;
    SameValueShift(out, target, n, source);
    SameValueShift(r, target, n, source);
    hide Denotes, Cut, RescaleExact, SameAmount;
    if source >= target { ShiftedInjective(out, r, source - target); }
    if n == 0 { ShiftedZero(target); ShiftedZero(source); ShiftedInjective(out, 0, source); }
  }

  lemma SameValueOf(p: Parts, n: nat, source: nat, out: nat, target: nat)
    requires AllDigits(Digits(p)) && SameAmount(p, n, source) && SameAmount(p, out, target)
    ensures SameValueAt(out, target, n, source)
  {
    var f, v := |p.frac|, NatValue(Digits(p));
    ShiftedTwice(out, f, source);
    ShiftedTwice(out, source, f);
    ShiftedTwice(n, target, f);
    ShiftedTwice(n, f, target);
    ShiftedTwice(v, source, target);
    ShiftedTwice(v, target, source);
    ShiftedInjective(Shifted(out, source), Shifted(n, target), f);
  }

  // ---------- 128 bits on the wire ----------

  datatype U128 = U128(hi: nat, lo: nat)

  function SplitU128(n: int): U128 {
    if n <= 0 then U128(0, 0) else U128(n / TWO_64 % TWO_64, n % TWO_64)
  }

  function JoinU128(u: U128): nat {
    u.hi * TWO_64 + u.lo
  }

  /** The two halves keep exactly the values of 128 bits. */
  lemma SplitJoin(n: int)
    ensures JoinU128(SplitU128(n)) == n <==> 0 <= n < TWO_128
    ensures SplitU128(n).hi < TWO_64 && SplitU128(n).lo < TWO_64
  {
  }

  // ---------- Ledger balances ----------

  /** The decimal text of the greatest 128-bit value. */
  const MAX_U128_TEXT: string := FormatNat(340282366920938463463374607431768211455)

  /** Text order of two digit strings of one length. */
  predicate TextGreater(a: string, b: string)
    requires |a| == |b|
  {
    a != [] && (a[0] > b[0] || (a[0] == b[0] && TextGreater(a[1..], b[1..])))
  }

  function FormatLedgerU128(raw: string, scale: int): Result<string, AmountError> {
    if ScaleError(scale).Some? then Err(ScaleError(scale).value)
    else
      var text := if TrimSpace(raw) == "" then "0" else TrimSpace(raw);
      if !AllDigits(text) then Err(NotADecimal)
      else
        var digits := Head(text);
        if |digits| > |MAX_U128_TEXT| || (|digits| == |MAX_U128_TEXT| && TextGreater(digits, MAX_U128_TEXT)) then
          Err(OutOfRange)
        else if scale == 0 then Ok(digits)
        else Ok(Pointed(Padded(digits, scale + 1), scale))
  }

  lemma {:induction false} TextOrder(a: string, b: string)
    requires AllDigits(a) && AllDigits(b) && |a| == |b|
    ensures TextGreater(a, b) <==> NatValue(a) > NatValue(b)
    decreases |a|
  {
    if a != [] {
      FirstDigit(a);
      FirstDigit(b);
      ValueBound(a[1..]);
      ValueBound(b[1..]);
      TextOrder(a[1..], b[1..]);
      DigitOrder(ValueOf(a[0]), ValueOf(b[0]), Pow10(|a| - 1), NatValue(a[1..]), NatValue(b[1..]));
    }
  }

  lemma OneDigit(c: char)
    requires IsDigit(c)
    ensures AllDigits([c]) && NatValue([c]) == ValueOf(c)
  {
    assert Init([c]) == [];
    assert NatValue([]) == 0;
  }

  lemma FirstDigit(a: string)
    requires AllDigits(a) && a != []
    ensures AllDigits(a[1..]) && NatValue(a) == ValueOf(a[0]) * Pow10(|a| - 1) + NatValue(a[1..])
  {
    hide NatValue, Pow10;
    OneDigit(a[0]);
    ValueOfConcat([a[0]], a[1..]);
    assert a == [a[0]] + a[1..];
  }

  lemma DigitOrder(d: nat, e: nat, p: nat, x: nat, y: nat)
    requires x < p && y < p
    ensures d > e ==> d * p + x > e * p + y
    ensures d < e ==> d * p + x < e * p + y
    ensures d == e ==> (d * p + x > e * p + y <==> x > y)
  {
    if d > e { Ahead(d, e, p); }
    if d < e { Ahead(e, d, p); }
  }

  lemma Ahead(d: nat, e: nat, p: nat)
    requires d > e
    ensures d * p >= e * p + p
  {
    assert d * p == (d - e - 1) * p + (e + 1) * p;
  }

  lemma {:induction false} Pow10Grows(a: nat, b: nat)
    requires a <= b
    ensures Pow10(a) <= Pow10(b)
    decreases b
  {
    if a < b { Pow10Grows(a, b - 1); }
  }

  lemma LeastOfLength(s: string)
    requires AllDigits(s) && s != "" && s[0] != '0'
    ensures NatValue(s) >= Pow10(|s| - 1)
  {
    FirstDigit(s);
    Ahead(ValueOf(s[0]), 0, Pow10(|s| - 1));
  }

  lemma SmallPowersOfTen()
    ensures Pow10(6) == 1000000 && Pow10(8) == 100000000
  {
    assert Pow10(1) == 10 && Pow10(2) == 100;
    Pow10Sum(2, 2);
    hide Pow10;
    Pow10Sum(4, 4);
    Pow10Sum(4, 2);
  }

  lemma PowersOfTen()
    ensures Pow10(38) == 100000000000000000000000000000000000000 && Pow10(39) == 10 * Pow10(38)
  {
    assert Pow10(39) == 10 * Pow10(38);
    SmallPowersOfTen();
    hide Pow10;
    Pow10Sum(8, 8);
    Pow10Sum(16, 16);
    Pow10Sum(32, 6);
  }

  lemma MaxText()
    ensures AllDigits(MAX_U128_TEXT) && |MAX_U128_TEXT| == 39 && NatValue(MAX_U128_TEXT) == TWO_128 - 1
    ensures Pow10(38) < TWO_128 <= Pow10(39)
  {
    var max := 340282366920938463463374607431768211455;
    PowersOfTen();
    ParseFormatted(max);
    ValueBound(FormatNat(max));
    LeastOfLength(FormatNat(max));
    if |FormatNat(max)| > 39 { Pow10Grows(39, |FormatNat(max)| - 1); }
    if |FormatNat(max)| < 39 { Pow10Grows(|FormatNat(max)|, 38); }
  }

  /** The text comparison is the 128-bit range check. */
  lemma TextRange(digits: string)
    requires Canonical(digits)
    ensures NatValue(digits) < TWO_128 <==>
      !(|digits| > |MAX_U128_TEXT| || (|digits| == |MAX_U128_TEXT| && TextGreater(digits, MAX_U128_TEXT)))
  {
    MaxText();
    if |digits| > 39 {
      LeastOfLength(digits);
      Pow10Grows(39, |digits| - 1);
    } else if |digits| < 39 {
      ValueBound(digits);
      Pow10Grows(|digits|, 38);
    } else {
      TextOrder(digits, MAX_U128_TEXT);
    }
  }

  function LedgerText(raw: string): string {
    if TrimSpace(raw) == "" then "0" else TrimSpace(raw)
  }

  /** A ledger value prints exactly when it is digits within 128 bits, as the integer it is. */
  lemma LedgerPrints(raw: string, scale: int)
    ensures FormatLedgerU128(raw, scale).Ok? <==>
      ScaleError(scale).None? && AllDigits(LedgerText(raw)) && NatValue(LedgerText(raw)) < TWO_128
    ensures FormatLedgerU128(raw, scale).Ok? ==>
      FormatLedgerU128(raw, scale).value == FormatScaled(NatValue(LedgerText(raw)), scale)
  {
    var text := LedgerText(raw);
    if ScaleError(scale).None? && AllDigits(text) {
      PrintsWhole(text, NatValue(text));
      ParseFormatted(NatValue(text));
      TextRange(Head(text));
    }
  }

  /**
   A decimal that resolves to the 18-decimal ledger scale, split in two halves
   for the wire, joined again and printed, is the decimal's canonical form.
   */
  lemma AmountPipeline(dec: string, inputScale: Option<int>)
    requires ResolveDecimal(dec, inputScale, LEDGER_SCALE, true).Ok?
    ensures var n := ResolveDecimal(dec, inputScale, LEDGER_SCALE, true).value;
      FormatLedgerU128(FormatNat(JoinU128(SplitU128(n))), LEDGER_SCALE) == Ok(Canon(Cut(TrimSpace(dec))))
  {
    var n := ResolveDecimal(dec, inputScale, LEDGER_SCALE, true).value;
    ResolvesExactly(dec, inputScale, LEDGER_SCALE, true);
    SplitJoin(n);
    ParseFormatted(n);
    NoSpaces(FormatNat(n));
    LedgerPrints(FormatNat(n), LEDGER_SCALE);
    PrintsCanonical(TrimSpace(dec), n, LEDGER_SCALE);
  }

  lemma NoSpaces(s: string)
    requires AllDigits(s) && s != ""
    ensures TrimSpace(s) == s
  {
  }
}
