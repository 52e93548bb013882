/**
 Order totals (models/order_totals.go, models/money.go): the quote an order
 used and the part of its budget it did not, as exact decimals.
 */
module OrderTotals {
  import opened Basics
  import opened Numbers
  import opened Decimals

  const FEE_SCALE: int := 18

  datatype FeeTotal = FeeTotal(amountE18: string, isRebate: bool, qty: int)

  datatype Order = Order(
    cumQty: int,
    cumNotional: string,
    feeAsset: string,
    feeTotal: Option<FeeTotal>,
    submittedMaxQuoteDebit: string)

  /** An integer at a scale. */
  datatype Scaled = Scaled(value: int, scale: nat)

  // ---------- Reading integers ----------

  /** `big.Int.SetString` in base ten: an optional sign and digits. */
  function ParseInteger(s: string): Option<int> {
    var digits := if s != "" && (s[0] == '-' || s[0] == '+') then s[1..] else s;
    if digits == "" || !AllDigits(digits) then None
    else if s[0] == '-' then Some(0 - NatValue(digits))
    else Some(NatValue(digits))
  }

  function ParseUnsigned(raw: string): Option<nat> {
    var text := TrimSpace(raw);
    if text == "" then None
    else match ParseInteger(text)
      case None => None
      case Some(n) => if n < 0 then None else Some(n)
  }

  function OrZero(n: Option<nat>): nat {
    match n case Some(v) => v case None => 0
  }

  function LowerChar(c: char): char {
    if 'A' <= c <= 'Z' then c - 'A' + 'a' else c
  }

  function Lower(s: string): string {
    seq(|s|, i requires 0 <= i < |s| => LowerChar(s[i]))
  }

  // ---------- Printing integers ----------

  /** A signed integer at `scale` as a decimal; no scale beyond 36 is printed. */
  function FormatFixedBig(n: int, scale: int): Option<string> {
    if scale < 0 || scale > MAX_SCALE then None
    else if n < 0 then Some("-" + FormatScaled(0 - n, scale))
    else Some(FormatScaled(n, scale))
  }

  // ---------- Totals ----------

  function Rescale(value: int, from: nat, to: nat): int
    requires from <= to
  {
    value * Pow10(to - from)
  }

  /** The quote used, once the fee total covers every fill: the notional, plus a quote fee, minus a quote rebate. */
  function UsedQuote(o: Order, baseScale: int): Option<Scaled> {
    if baseScale < 0 || o.feeTotal.None? || o.feeTotal.value.qty != o.cumQty then None
    else
      var notional := OrZero(ParseUnsigned(o.cumNotional));
      var fee := OrZero(ParseUnsigned(o.feeTotal.value.amountE18));
      var notionalScale := PRICE_SCALE + baseScale;
      var scale := if notionalScale > FEE_SCALE then notionalScale else FEE_SCALE;
      var used := Rescale(notional, notionalScale, scale);
      var asset := Lower(o.feeAsset);
      if asset == "quote" then
        var scaledFee := Rescale(fee, FEE_SCALE, scale);
        Some(Scaled(if o.feeTotal.value.isRebate then used - scaledFee else used + scaledFee, scale))
      else if asset == "base" || fee == 0 then Some(Scaled(used, scale))
      else None
  }

  function QuoteUsed(o: Order, baseScale: int): Option<string> {
    match UsedQuote(o, baseScale)
    case None => None
    case Some(used) => FormatFixedBig(used.value, used.scale)
  }

  function QuoteUnspent(o: Order, baseScale: int, quoteScale: int): Option<string> {
    match ParseUnsigned(o.submittedMaxQuoteDebit)
    case None => None
    case Some(budget) =>
      if quoteScale < 0 then None
      else match UsedQuote(o, baseScale)
        case None => None
        case Some(used) =>
          var scale := if quoteScale > used.scale then quoteScale else used.scale;
          FormatFixedBig(Rescale(budget, quoteScale, scale) - Rescale(used.value, used.scale, scale), scale)
  }

  // ---------- Decimals as rationals ----------

  /** The rational a printed decimal denotes. */
  ghost function ValueOfDecimal(s: string): real
    requires SignedDecimal(s)
  {
    if s[0] == '-' then 0.0 - PartsValue(Cut(s[1..])) else PartsValue(Cut(s))
  }

  predicate SignedDecimal(s: string) {
    s != "" && StrictDecimal(if s[0] == '-' then s[1..] else s)
  }

  ghost function PartsValue(p: Parts): real
    requires AllDigits(Digits(p))
  {
    NatValue(Digits(p)) as real / Pow10(|p.frac|) as real
  }

  /** `n` at `scale` as a rational. */
  ghost function At(n: int, scale: nat): real {
    n as real / Pow10(scale) as real
  }

  lemma CrossMultiplied(a: int, b: int, c: int, d: int)
    requires b > 0 && d > 0 && a * d == c * b
    ensures a as real / b as real == c as real / d as real
  {
    var x, y := a as real / b as real, c as real / d as real;
    assert x * b as real == a as real && y * d as real == c as real;
    assert (a * d) as real == (a as real) * (d as real) && (c * b) as real == (c as real) * (b as real);
    assert x * b as real * d as real == y * d as real * b as real;
    assert (x - y) * (b as real * d as real) == 0.0;
    assert b as real * d as real > 0.0;
    SameReal(x, y, b as real * d as real);
  }

  lemma SameReal(x: real, y: real, k: real)
    requires k > 0.0 && (x - y) * k == 0.0
    ensures x == y
  {
    assert x > y ==> (x - y) * k > 0.0;
    assert x < y ==> (y - x) * k > 0.0;
  }

  /** What is printed denotes exactly the scaled integer. */
  lemma PrintedValue(n: nat, scale: nat)
    requires scale <= MAX_SCALE
    ensures var s := FormatScaled(n, scale);
      s != "" && s[0] != '-' && StrictDecimal(s) && PartsValue(Cut(s)) == At(n, scale)
  {
    var p := PrintedParts(n, scale);
    CanonParts(p);
    var s := FormatScaled(n, scale);
    var q := Cut(s);
    SameAmountScaled(q, p, n, scale);
    ShiftedProduct(n, |q.frac|);
    ShiftedProduct(NatValue(Digits(q)), scale);
    CrossMultiplied(NatValue(Digits(q)), Pow10(|q.frac|), n, Pow10(scale));
    assert IsDigit(s[0]) by { assert q.whole != "" && s[0] == q.whole[0]; }
  }

  lemma MinusSign(s: string)
    requires StrictDecimal(s)
    ensures SignedDecimal("-" + s) && ValueOfDecimal("-" + s) == 0.0 - PartsValue(Cut(s))
  {
    assert ("-" + s)[1..] == s;
  }

  lemma PlainSign(s: string)
    requires s != "" && s[0] != '-' && StrictDecimal(s)
    ensures SignedDecimal(s) && ValueOfDecimal(s) == PartsValue(Cut(s))
  {
  }

  lemma FormatCases(n: int, scale: int)
    requires FormatFixedBig(n, scale).Some?
    ensures 0 <= scale <= MAX_SCALE
    ensures FormatFixedBig(n, scale).value == if n < 0 then "-" + FormatScaled(0 - n, scale) else FormatScaled(n, scale)
  {
    hide FormatScaled;
  }

  lemma FormattedValue(n: int, scale: int)
    requires FormatFixedBig(n, scale).Some?
    ensures 0 <= scale <= MAX_SCALE
    ensures SignedDecimal(FormatFixedBig(n, scale).value)
      && ValueOfDecimal(FormatFixedBig(n, scale).value) == At(n, scale)
  {
    hide *;
    FormatCases(n, scale);
    if n < 0 {
      FormattedNegative(0 - n, scale);
    } else {
      PrintedValue(n, scale);
      PlainSign(FormatScaled(n, scale));
    }
  }

  lemma FormattedNegative(m: nat, scale: nat)
    requires scale <= MAX_SCALE
    ensures var s := "-" + FormatScaled(m, scale); SignedDecimal(s) && ValueOfDecimal(s) == At(0 - m, scale)
  {
    hide FormatScaled, Cut, NatValue, StrictDecimal;
    PrintedValue(m, scale);
    MinusSign(FormatScaled(m, scale));
    Negated(m as real, Pow10(scale) as real);
  }

  lemma Negated(a: real, d: real)
    requires d > 0.0
    ensures 0.0 - a / d == (0.0 - a) / d
  {
    var x := a / d;
    assert x * d == a;
    assert (0.0 - x) * d == 0.0 - a;
  }

  /** Rescaling changes the integer, not the rational. */
  lemma RescaledValue(n: int, from: nat, to: nat)
    requires from <= to
    ensures At(Rescale(n, from, to), to) == At(n, from)
  {
    Pow10Sum(to - from, from);
    Assoc(n, Pow10(to - from), Pow10(from));
    CrossMultiplied(Rescale(n, from, to), Pow10(to), n, Pow10(from));
  }

  lemma SumAt(a: int, b: int, scale: nat)
    ensures At(a, scale) + At(b, scale) == At(a + b, scale)
  {
    SumOfQuotients(a as real, b as real, Pow10(scale) as real);
  }

  lemma SumOfQuotients(a: real, b: real, d: real)
    requires d > 0.0
    ensures a / d + b / d == (a + b) / d
  {
    var x, y := a / d, b / d;
    assert x * d == a && y * d == b;
    assert (x + y) * d == a + b;
  }

  /**
   Whenever the unspent amount is known, so is the used one, and read as exact
   rationals the two add up to the submitted budget: for a fee, a rebate or a
   base fee, and whichever of the two scales is the finer.
   */
  lemma BudgetConserved(o: Order, baseScale: int, quoteScale: int)
    requires QuoteUnspent(o, baseScale, quoteScale).Some?
    ensures QuoteUsed(o, baseScale).Some?
    ensures var used, unspent := QuoteUsed(o, baseScale).value, QuoteUnspent(o, baseScale, quoteScale).value;
      && SignedDecimal(used) && SignedDecimal(unspent) && quoteScale >= 0
        && ParseUnsigned(o.submittedMaxQuoteDebit).Some?
      && ValueOfDecimal(used) + ValueOfDecimal(unspent) == At(ParseUnsigned(o.submittedMaxQuoteDebit).value, quoteScale)
  {
    hide *;
    BudgetCases(o, baseScale, quoteScale);
    var budget := ParseUnsigned(o.submittedMaxQuoteDebit).value;
    var used := UsedQuote(o, baseScale).value;
    var scale := if quoteScale > used.scale then quoteScale else used.scale;
    var b, u := Rescale(budget, quoteScale, scale), Rescale(used.value, used.scale, scale);
    FormattedValue(b - u, scale);
    FormattedValue(used.value, used.scale);
    RescaledValue(budget, quoteScale, scale);
    RescaledValue(used.value, used.scale, scale);
    SumAt(u, b - u, scale);
  }

  lemma BudgetCases(o: Order, baseScale: int, quoteScale: int)
    requires QuoteUnspent(o, baseScale, quoteScale).Some?
    ensures quoteScale >= 0 && ParseUnsigned(o.submittedMaxQuoteDebit).Some? && UsedQuote(o, baseScale).Some?
    ensures var budget, used := ParseUnsigned(o.submittedMaxQuoteDebit).value, UsedQuote(o, baseScale).value;
      var scale := if quoteScale > used.scale then quoteScale else used.scale;
      && QuoteUsed(o, baseScale) == FormatFixedBig(used.value, used.scale) && QuoteUsed(o, baseScale).Some?
      && QuoteUnspent(o, baseScale, quoteScale) ==
         FormatFixedBig(Rescale(budget, quoteScale, scale) - Rescale(used.value, used.scale, scale), scale)
  {
    hide ParseUnsigned, UsedQuote, Rescale, FormatScaled;
  }

  /** A quote fee costs what a rebate of the same amount gives back; a base fee costs no quote. */
  lemma FeeSides(o: Order, baseScale: int, asset: string)
    requires baseScale >= 0 && o.feeTotal.Some? && o.feeTotal.value.qty == o.cumQty && Lower(o.feeAsset) == "quote"
    requires Lower(asset) == "base"
    ensures var fee := o.(feeTotal := Some(o.feeTotal.value.(isRebate := false)));
      var rebate := o.(feeTotal := Some(o.feeTotal.value.(isRebate := true)));
      var base := o.(feeAsset := asset);
      && UsedQuote(fee, baseScale).Some? && UsedQuote(rebate, baseScale).Some? && UsedQuote(base, baseScale).Some?
      && UsedQuote(fee, baseScale).value.scale == UsedQuote(rebate, baseScale).value.scale ==
        UsedQuote(base, baseScale).value.scale
      && UsedQuote(fee, baseScale).value.value + UsedQuote(rebate, baseScale).value.value ==
        2 * UsedQuote(base, baseScale).value.value
      && At(UsedQuote(base, baseScale).value.value, UsedQuote(base, baseScale).value.scale) ==
        At(OrZero(ParseUnsigned(o.cumNotional)), PRICE_SCALE + baseScale)
      && At(UsedQuote(fee, baseScale).value.value - UsedQuote(base, baseScale).value.value,
        UsedQuote(fee, baseScale).value.scale)
         == At(OrZero(ParseUnsigned(o.feeTotal.value.amountE18)), FEE_SCALE)
  {
    var fee := o.(feeTotal := Some(o.feeTotal.value.(isRebate := false)));
    var rebate := o.(feeTotal := Some(o.feeTotal.value.(isRebate := true)));
    var base := o.(feeAsset := asset);
    assert Fee(fee) == Fee(rebate) == Fee(base) == Fee(o) == OrZero(ParseUnsigned(o.feeTotal.value.amountE18));
    assert FeesKnown(fee) && FeesKnown(rebate) && FeesKnown(base);
    hide *;
    UsedCases(fee, baseScale);
    UsedCases(rebate, baseScale);
    UsedCases(base, baseScale);
    var scale := UsedQuote(fee, baseScale).value.scale;
    RescaledValue(OrZero(ParseUnsigned(o.cumNotional)), PRICE_SCALE + baseScale, scale);
    RescaledValue(OrZero(ParseUnsigned(o.feeTotal.value.amountE18)), FEE_SCALE, scale);
  }

  // ---------- When the totals are known ----------

  /** The fee total covers every fill, and any fee is paid in one of the order's two assets. */
  predicate FeesKnown(o: Order) {
    && o.feeTotal.Some? && o.feeTotal.value.qty == o.cumQty
    && (Lower(o.feeAsset) in {"quote", "base"} || Fee(o) == 0)
  }

  /** The fee in units of 1e-18; nothing readable counts as no fee. */
  function Fee(o: Order): nat {
    if o.feeTotal.None? then 0 else OrZero(ParseUnsigned(o.feeTotal.value.amountE18))
  }

  /** What the fee does to the quote used, as a rational: a quote fee adds to it, a quote rebate takes from it. */
  ghost function FeeEffect(o: Order): real
    requires o.feeTotal.Some?
  {
    if Lower(o.feeAsset) != "quote" then 0.0
    else if o.feeTotal.value.isRebate then 0.0 - At(Fee(o), 18)
    else At(Fee(o), 18)
  }

  lemma DifferenceAt(a: int, b: int, scale: nat)
    ensures At(a - b, scale) == At(a, scale) - At(b, scale)
  {
    SumAt(a - b, b, scale);
  }

  lemma ZeroAt(scale: nat)
    ensures At(0, scale) == 0.0
  {
  }

  /** Exactly when the quote used is known, and exactly how much it is: the notional and the effect of the fee. */
  lemma UsedKnown(o: Order, baseScale: int)
    ensures UsedQuote(o, baseScale).Some? <==> baseScale >= 0 && FeesKnown(o)
    ensures UsedQuote(o, baseScale).Some? ==>
      var used := UsedQuote(o, baseScale).value;
      && used.scale == (if 9 + baseScale > 18 then 9 + baseScale else 18)
      && At(used.value, used.scale) == At(OrZero(ParseUnsigned(o.cumNotional)), 9 + baseScale) + FeeEffect(o)
  {
    hide *;
    UsedCases(o, baseScale);
    if UsedQuote(o, baseScale).Some? {
      var notional := OrZero(ParseUnsigned(o.cumNotional));
      var scale := UsedQuote(o, baseScale).value.scale;
      EffectCases(o);
      RescaledValue(notional, 9 + baseScale, scale);
      RescaledValue(Fee(o), 18, scale);
      var a, b := Rescale(notional, 9 + baseScale, scale), Rescale(Fee(o), 18, scale);
      if Lower(o.feeAsset) == "quote" {
        if o.feeTotal.value.isRebate { DifferenceAt(a, b, scale); } else { SumAt(a, b, scale); }
      }
    }
  }

  lemma EffectCases(o: Order)
    requires o.feeTotal.Some?
    ensures FeeEffect(o) == if Lower(o.feeAsset) != "quote" then 0.0
      else if o.feeTotal.value.isRebate then 0.0 - At(Fee(o), 18) else At(Fee(o), 18)
  {
  }

  lemma UsedCases(o: Order, baseScale: int)
    ensures UsedQuote(o, baseScale).Some? <==> baseScale >= 0 && FeesKnown(o)
    ensures UsedQuote(o, baseScale).Some? ==>
      var used := UsedQuote(o, baseScale).value;
      && o.feeTotal.Some? && used.scale == (if 9 + baseScale > 18 then 9 + baseScale else 18)
      && var a := Rescale(OrZero(ParseUnsigned(o.cumNotional)), 9 + baseScale, used.scale);
         var b := Rescale(Fee(o), 18, used.scale);
         used.value == if Lower(o.feeAsset) != "quote" then a else if o.feeTotal.value.isRebate then a - b else a + b
  {
    hide Rescale, ParseUnsigned, Lower;
  }

  /** What is printed for the quote used, and when: within the scales that are printed. */
  lemma QuoteUsedKnown(o: Order, baseScale: int)
    ensures QuoteUsed(o, baseScale).Some? <==> 0 <= baseScale <= 27 && FeesKnown(o)
    ensures QuoteUsed(o, baseScale).Some? ==>
      && SignedDecimal(QuoteUsed(o, baseScale).value)
      && ValueOfDecimal(QuoteUsed(o, baseScale).value) ==
         At(OrZero(ParseUnsigned(o.cumNotional)), 9 + baseScale) + FeeEffect(o)
  {
    UsedKnown(o, baseScale);
    if QuoteUsed(o, baseScale).Some? {
      var used := UsedQuote(o, baseScale).value;
      FormattedValue(used.value, used.scale);
    }
  }

  /**
   The part of the budget left is known exactly for an order with a budget whose quote used is known, at scales
   that are printed.
   */
  lemma QuoteUnspentKnown(o: Order, baseScale: int, quoteScale: int)
    ensures QuoteUnspent(o, baseScale, quoteScale).Some? <==>
      ParseUnsigned(o.submittedMaxQuoteDebit).Some? && 0 <= quoteScale <= 36 && 0 <= baseScale <= 27 && FeesKnown(o)
  {
    UsedKnown(o, baseScale);
  }
}
