/**
 * The pricing engine of the calculator screen: the 24-karat baseline, the
 * manufacturing-fee lookup, the sell and buy formulas, the net weight after
 * stone deduction, and the small display rules around them. Every constant
 * is a decimal fraction, so the arithmetic is exact over `real`.
 */
module Pricing {
  import opened Common
  import opened FeeSchedule
  import opened ManufacturingDefaults

  datatype Mode = Sell | Buy

  /** Per-gram 24-karat baseline: `(spot * 121.5) / 1000`. */
  function Price24K(spot: real): real {
    spot * 121.5 / 1000.0
  }

  /** Per-gram value of the selected karat's gold. */
  function GoldValuePerGram(spot: real, k: Karat): real {
    Price24K(spot) * KaratMultiplier(k)
  }

  /** 1.15 (15% VAT) except on 24 karat, which is sold without tax. */
  function TaxRate(k: Karat): real {
    if k == K24 then 1.0 else 1.15
  }

  // ---------------------------------------------------------------------
  // Manufacturing fee
  // ---------------------------------------------------------------------

  /** `range.design === design && weight >= range.from && weight <= range.to`;
      a `null` design matches nothing. */
  predicate Matches(r: FeeRange, design: Option<string>, w: real) {
    design == Some(r.design) && r.from <= w <= r.to
  }

  /** The `for (const range of ranges)` search: the first matching position,
      in list order, or none. */
  function FirstMatch(ranges: seq<FeeRange>, design: Option<string>, w: real): (m: Option<nat>)
    ensures m.Some? ==> m.value < |ranges| && Matches(ranges[m.value], design, w)
    ensures m.Some? ==> forall k :: 0 <= k < m.value ==> !Matches(ranges[k], design, w)
    ensures m.None? ==> forall k :: 0 <= k < |ranges| ==> !Matches(ranges[k], design, w)
  {
    if ranges == [] then None
    else if Matches(ranges[0], design, w) then Some(0)
    else match FirstMatch(ranges[1..], design, w)
      case Some(i) => Some(i + 1)
      case None => None
  }

  /** The ranges of the selected design; none when no design is selected. */
  function OwnRanges(ranges: seq<FeeRange>, design: Option<string>): seq<FeeRange> {
    if design.Some? then DesignRanges(ranges, design.value) else []
  }

  /** `getManufacturingFee`: under 1 g the configured fixed fee; otherwise the
      first matching range's fee, else the fee of the design's last range,
      else 0. */
  function ManufacturingFee(ranges: seq<FeeRange>, design: Option<string>, w: real, fixedFee: real): real {
    if w < 1.0 then fixedFee
    else match FirstMatch(ranges, design, w)
      case Some(i) => ranges[i].fee
      case None =>
        var own := OwnRanges(ranges, design);
        if own == [] then 0.0 else own[|own| - 1].fee
  }

  /** Below 1 g the fee is the fixed fee, whatever the schedule or design. */
  lemma SubGramFeeIsFixed(ranges: seq<FeeRange>, design: Option<string>, w: real, fixedFee: real)
    requires w < 1.0
    ensures ManufacturingFee(ranges, design, w, fixedFee) == fixedFee
  {
  }

  /** From 1 g on, a range of the design that contains the weight decides the
      fee, when the ranges are ordered within designs (the match is unique). */
  lemma MatchingRangeDecidesFee(ranges: seq<FeeRange>, d: string, w: real, fixedFee: real, i: nat)
    requires OrderedWithinDesigns(ranges)
    requires w >= 1.0 && i < |ranges| && Matches(ranges[i], Some(d), w)
    ensures ManufacturingFee(ranges, Some(d), w, fixedFee) == ranges[i].fee
  {
    var m := FirstMatch(ranges, Some(d), w);
    assert m.Some?;
    AtMostOneMatch(ranges, m.value, i, w);
  }

  /** From 1 g on, a weight that no range of the design contains (a gap
      between brackets, or past the last one) is charged the fee of the
      design's last range. */
  lemma UnmatchedWeightTakesLastFee(ranges: seq<FeeRange>, d: string, w: real, fixedFee: real)
    requires w >= 1.0
    requires forall k :: 0 <= k < |ranges| ==> !Matches(ranges[k], Some(d), w)
    requires DesignRanges(ranges, d) != []
    ensures var own := DesignRanges(ranges, d);
      ManufacturingFee(ranges, Some(d), w, fixedFee) == own[|own| - 1].fee
  {
    assert FirstMatch(ranges, Some(d), w).None?;
  }

  /** From 1 g on, a design with no ranges, or no design at all, costs no
      manufacturing fee. */
  lemma DesignWithoutRangesIsFree(ranges: seq<FeeRange>, design: Option<string>, w: real, fixedFee: real)
    requires w >= 1.0
    requires design.None? || DesignRanges(ranges, design.value) == []
    ensures ManufacturingFee(ranges, design, w, fixedFee) == 0.0
  {
    if design.Some? {
      DesignRangesEmptyIffAbsent(ranges, design.value);
      forall k | 0 <= k < |ranges| ensures !Matches(ranges[k], design, w) {
        assert DesignsOf(ranges)[k] == ranges[k].design;
      }
    }
  }

  // ---------------------------------------------------------------------
  // Sell and buy prices
  // ---------------------------------------------------------------------

  /** `calculateSellPrice`: the pre-tax cost (`PreTaxCost`, where the fee
      is added once under 1 g and charged per gram from 1 g on) times the
      karat's tax rate. */
  function SellPrice(spot: real, k: Karat, w: real, fee: real): real {
    PreTaxCost(spot, k, w, fee) * TaxRate(k)
  }

  /** `calculateBuyPrice`: `(gv - discount) * w`, no fee and no tax. */
  function BuyPrice(spot: real, k: Karat, w: real, discount: real): real {
    (GoldValuePerGram(spot, k) - discount) * w
  }

  /** Under 1 g a change of fee moves the price by the taxed fee change alone,
      independent of the weight: the fee is a flat add-on. */
  lemma SubGramFeeIsFlat(spot: real, k: Karat, w: real, fee1: real, fee2: real)
    requires w < 1.0
    ensures SellPrice(spot, k, w, fee2) - SellPrice(spot, k, w, fee1) == (fee2 - fee1) * TaxRate(k)
  {
  }

  /** From 1 g on a change of fee is multiplied by the weight. */
  lemma FeeIsPerGramFromOneGram(spot: real, k: Karat, w: real, fee1: real, fee2: real)
    requires w >= 1.0
    ensures SellPrice(spot, k, w, fee2) - SellPrice(spot, k, w, fee1) == (fee2 - fee1) * w * TaxRate(k)
  {
    assert (GoldValuePerGram(spot, k) + fee2) * w - (GoldValuePerGram(spot, k) + fee1) * w == (fee2 - fee1) * w;
  }

  /** 24 karat is sold at its pre-tax cost; the other karats at 15% above it. */
  lemma SellPriceTax(spot: real, k: Karat, w: real, fee: real)
    ensures k == K24 ==> SellPrice(spot, k, w, fee) == PreTaxCost(spot, k, w, fee)
    ensures k != K24 ==> SellPrice(spot, k, w, fee) - PreTaxCost(spot, k, w, fee) == PreTaxCost(spot, k, w, fee) * 15.0 / 100.0
  {
  }

  /** The shop never buys above its selling price: with a non-negative
      spot, weight, fee and discount, the buy price is at most the sell
      price, for every karat and on both sides of 1 g. */
  lemma BuyNeverAboveSell(spot: real, k: Karat, w: real, fee: real, discount: real)
    requires spot >= 0.0 && w >= 0.0 && fee >= 0.0 && discount >= 0.0
    ensures BuyPrice(spot, k, w, discount) <= SellPrice(spot, k, w, fee)
  {
    var gv := GoldValuePerGram(spot, k);
    var t := TaxRate(k);
    NonNegProduct(spot, 121.5 / 1000.0 * KaratMultiplier(k));
    assert gv >= 0.0;
    NonNegProduct(discount, w);
    assert BuyPrice(spot, k, w, discount) == gv * w - discount * w;
    NonNegProduct(gv, w);
    var cost := if w < 1.0 then gv * w + fee else (gv + fee) * w;
    if w >= 1.0 {
      NonNegProduct(fee, w);
      assert cost == gv * w + fee * w;
    }
    assert gv * w <= cost;
    AtMostScaled(cost, t);
    assert SellPrice(spot, k, w, fee) == cost * t;
  }

  lemma NonNegProduct(a: real, b: real)
    requires a >= 0.0 && b >= 0.0
    ensures a * b >= 0.0
  {
  }

  /** Scaling a non-negative amount by a rate of at least 1 does not lower it. */
  lemma AtMostScaled(x: real, t: real)
    requires x >= 0.0 && t >= 1.0
    ensures x <= x * t
  {
    NonNegProduct(x, t - 1.0);
    assert x * t == x + x * (t - 1.0);
  }

  /** A fraction below 1 of a non-negative amount lies between 0 and it. */
  lemma FractionOf(r: real, x: real)
    requires 0.0 <= r <= 1.0
    ensures x >= 0.0 ==> 0.0 <= r * x <= x
  {
    if x >= 0.0 {
      NonNegProduct(r, x);
      NonNegProduct(1.0 - r, x);
      assert x - r * x == (1.0 - r) * x;
    }
  }

  /** The buy price is the metal's value less the per-gram discount: it is
      the same for a given gold value whatever the fee schedule or tax. */
  lemma BuyPriceIsMetalLessDiscount(spot: real, k: Karat, w: real, discount: real)
    ensures BuyPrice(spot, k, w, discount) == Price24K(spot) * KaratMultiplier(k) * w - discount * w
    ensures discount >= 0.0 && w >= 0.0 ==> BuyPrice(spot, k, w, discount) <= GoldValuePerGram(spot, k) * w
  {
  }

  // ---------------------------------------------------------------------
  // Weights
  // ---------------------------------------------------------------------

  /** `shouldShowStoneDeduction`: buy mode on 18 or 21 karat. */
  predicate StoneDeductionApplies(mode: Mode, k: Karat) {
    mode == Buy && (k == K18 || k == K21)
  }

  /** `getEffectiveWeight`: the manual weight when set, else the live reading. */
  function BaseWeight(manualWeight: Option<real>, currentWeight: real): real {
    manualWeight.GetOr(currentWeight)
  }

  /** `getNetGoldWeight` */
  function NetGoldWeight(mode: Mode, k: Karat, manualWeight: Option<real>, currentWeight: real, deduction: real): real {
    var base := BaseWeight(manualWeight, currentWeight);
    if StoneDeductionApplies(mode, k) then Max(0.0, base - deduction) else base
  }

  /** Stones are deducted in buy mode on 18 and 21 karat and nowhere else:
      there the net weight is the base less the deduction (never below 0);
      in sell mode and on 24 karat it is the base weight itself, manual
      when set, whatever deduction is recorded. */
  lemma DeductionOnlyInBuyMode(mode: Mode, k: Karat, manualWeight: Option<real>, currentWeight: real, deduction: real)
    ensures var base := BaseWeight(manualWeight, currentWeight);
      var w := NetGoldWeight(mode, k, manualWeight, currentWeight, deduction);
      && (mode == Sell || k == K24 ==> w == base)
      && (mode == Buy && k != K24 && deduction <= base ==> w == base - deduction)
      && (mode == Buy && k != K24 && deduction > base ==> w == 0.0)
      && (manualWeight.Some? ==> base == manualWeight.value)
      && (manualWeight.None? ==> base == currentWeight)
  {
  }

  /** With a non-negative base weight and deduction, the net weight lies
      between 0 and the base weight. */
  lemma NetWeightBounds(mode: Mode, k: Karat, manualWeight: Option<real>, currentWeight: real, deduction: real)
    requires BaseWeight(manualWeight, currentWeight) >= 0.0 && deduction >= 0.0
    ensures 0.0 <= NetGoldWeight(mode, k, manualWeight, currentWeight, deduction) <= BaseWeight(manualWeight, currentWeight)
  {
  }

  /** The stone-deduction save handler: `Math.max(0, parseFloat(v) || 0)`,
      capped at the base weight. */
  function SavedDeduction(parsed: JsNumber, base: real): (sd: real)
    ensures sd <= base
    ensures base >= 0.0 ==> 0.0 <= sd
    ensures sd == base || sd == Max(0.0, OrZero(parsed))
    ensures Max(0.0, OrZero(parsed)) <= base ==> sd == Max(0.0, OrZero(parsed))
  {
    var v := Max(0.0, OrZero(parsed));
    if v > base then base else v
  }

  /** After a saved deduction the net weight in buy mode is exactly the base
      weight less the deduction: the clamp at 0 is never needed. */
  lemma SavedDeductionGivesExactNetWeight(k: Karat, manualWeight: Option<real>, currentWeight: real, parsed: JsNumber)
    requires k == K18 || k == K21
    requires BaseWeight(manualWeight, currentWeight) >= 0.0
    ensures var base := BaseWeight(manualWeight, currentWeight);
      var sd := SavedDeduction(parsed, base);
      && NetGoldWeight(Buy, k, manualWeight, currentWeight, sd) == base - sd
      && 0.0 <= base - sd <= base
  {
  }

  // ---------------------------------------------------------------------
  // Display rules
  // ---------------------------------------------------------------------

  datatype Arrow = Up | Down | Level

  /** `updatePriceDisplay`: compares against the previous price plus 0.001. */
  function PriceArrow(finalPrice: real, previousPrice: real): (a: Arrow)
    ensures a == Up <==> finalPrice > previousPrice + 0.001
    ensures a == Down <==> finalPrice < previousPrice + 0.001
    ensures a == Level <==> finalPrice == previousPrice + 0.001
  {
    var difference := finalPrice - (previousPrice + 0.001);
    if difference < 0.0 then Down else if difference > 0.0 then Up else Level
  }

  /** A price equal to the previous one shows the falling arrow, and only a
      rise of more than 0.001 shows the rising one. */
  lemma UnchangedPriceShowsDown(p: real)
    ensures PriceArrow(p, p) == Down
    ensures PriceArrow(p + 0.001, p) == Level
  {
  }

  /** `addFluctuation(basePrice, range)` with `Math.random()` given as `r`:
      the displayed spot price stays within `range` of the real one. */
  function AddFluctuation(basePrice: real, range: real, r: real): (p: real)
    requires 0.0 <= r < 1.0
    ensures range >= 0.0 ==> basePrice - range <= p <= basePrice + range
    ensures range > 0.0 ==> p < basePrice + range
  {
    FractionOf(r, range);
    basePrice + (r * range * 2.0 - range)
  }

  /** The tax contained in the sell price: what the details row ought to show
      as VAT. */
  function DetailsVat(spot: real, k: Karat, w: real, fee: real): (vat: real)
    ensures SellPrice(spot, k, w, fee) == PreTaxCost(spot, k, w, fee) + vat
    ensures k == K24 ==> vat == 0.0
  {
    if k == K24 then 0.0 else PreTaxCost(spot, k, w, fee) * 0.15
  }

  /** The cost before tax that the sell price is built on: under 1 g
      `gv*w + fee`, from 1 g on `(gv + fee) * w`. */
  function PreTaxCost(spot: real, k: Karat, w: real, fee: real): real {
    var gv := GoldValuePerGram(spot, k);
    if w < 1.0 then gv * w + fee else (gv + fee) * w
  }

  /** `updateDetailsRow`'s VAT figure as the source computes it: always the
      per-gram formula `(gv + fee) * w * 0.15`, even under 1 g. */
  function DetailsVatAsWritten(spot: real, k: Karat, w: real, fee: real): real {
    var totalBeforeTax := (GoldValuePerGram(spot, k) + fee) * w;
    if k == K24 then 0.0 else totalBeforeTax * 0.15
  }

  /** From 1 g on the details VAT as written is the tax in the sell price. */
  lemma DetailsVatAsWrittenFromOneGram(spot: real, k: Karat, w: real, fee: real)
    requires w >= 1.0
    ensures DetailsVatAsWritten(spot, k, w, fee) == DetailsVat(spot, k, w, fee)
  {
  }

  /** Under 1 g it is not: spot 3400, 18 karat, 0.5 g, fixed fee 500 shows a
      VAT of 60.736875 while the price contains 98.236875 of tax. */
  lemma DetailsVatAsWrittenDisagreesUnderOneGram()
    ensures DetailsVatAsWritten(3400.0, K18, 0.5, 500.0) == 60.736875
    ensures DetailsVat(3400.0, K18, 0.5, 500.0) == 98.236875
  {
  }

  // ---------------------------------------------------------------------
  // Worked examples on the default schedule
  // ---------------------------------------------------------------------

  /** 8 g of 18-karat Italian at spot 3400: fee 100, total 3770.39. */
  lemma ExampleSellItalian18()
    ensures ManufacturingFee(RANGES_18, Some(ITALIAN), 8.0, 500.0) == 100.0
    ensures SellPrice(3400.0, K18, 8.0, 100.0) == 3770.39
  {
    Ranges18Ordered();
    assert Matches(RANGES_18[4], Some(ITALIAN), 8.0);
    MatchingRangeDecidesFee(RANGES_18, ITALIAN, 8.0, 500.0, 4);
  }

  /** 3 g of 24-karat local at spot 3400: fee 80, total 1479.3. */
  lemma ExampleSellLocal24()
    ensures ManufacturingFee(RANGES_24, Some(LOCAL), 3.0, 500.0) == 80.0
    ensures SellPrice(3400.0, K24, 3.0, 80.0) == 1479.3
  {
    Ranges24Ordered();
    assert Matches(RANGES_24[1], Some(LOCAL), 3.0);
    MatchingRangeDecidesFee(RANGES_24, LOCAL, 3.0, 500.0, 1);
  }

  /** Buying 21 karat at spot 3400, base 10 g less 2 g of stones, discount 20:
      total 2731.7. */
  lemma ExampleBuy21()
    ensures NetGoldWeight(Buy, K21, None, 10.0, 2.0) == 8.0
    ensures BuyPrice(3400.0, K21, 8.0, 20.0) == 2731.7
  {
  }

  /** 2.005 g of 18-karat Italian falls in the gap between the first two
      brackets and is charged the design's last fee, 100. */
  lemma ExampleGapItalian18()
    ensures ManufacturingFee(RANGES_18, Some(ITALIAN), 2.005, 500.0) == 100.0
  {
    DistinctDesignNames();
    forall k | 0 <= k < |RANGES_18| ensures !Matches(RANGES_18[k], Some(ITALIAN), 2.005) {
      if k < 5 {
        assert RANGES_18[k] == ITALIAN_18[k];
      } else {
        assert RANGES_18[k] == LOCAL_18[k - 5];
      }
    }
    assert DesignRanges(ITALIAN_18, ITALIAN) == ITALIAN_18 by {
      DesignRangesOfOneDesign(ITALIAN_18, ITALIAN);
    }
    assert DesignRanges(LOCAL_18, ITALIAN) == [] by {
      DesignRangesOfOtherDesign(LOCAL_18, ITALIAN);
    }
    DesignRangesAppend(ITALIAN_18, LOCAL_18, ITALIAN);
    UnmatchedWeightTakesLastFee(RANGES_18, ITALIAN, 2.005, 500.0);
  }

  lemma {:induction false} DesignRangesOfOneDesign(rs: seq<FeeRange>, d: string)
    requires forall k :: 0 <= k < |rs| ==> rs[k].design == d
    ensures DesignRanges(rs, d) == rs
  {
    if rs != [] { DesignRangesOfOneDesign(rs[1..], d); }
  }

  lemma {:induction false} DesignRangesOfOtherDesign(rs: seq<FeeRange>, d: string)
    requires forall k :: 0 <= k < |rs| ==> rs[k].design != d
    ensures DesignRanges(rs, d) == []
  {
    if rs != [] { DesignRangesOfOtherDesign(rs[1..], d); }
  }
}
