/**
 * The calculator screen's state: the module-level variables of the main
 * script, and the handlers that reassign them (karat and design selection,
 * mode switch, manual weight, stone deduction, scale and price updates,
 * and the main price display).
 */
module Calculator {
  import opened Common
  import opened FeeSchedule
  import opened ManufacturingDefaults
  import opened Pricing

  /** What the main price element shows: the `--.--` placeholder, or an
      amount with its direction arrow. */
  datatype PriceDisplay = Placeholder | Priced(amount: real, arrow: Arrow)

  /** The two stored settings every price update reads afresh. */
  datatype StoredRates = StoredRates(buyDiscount: real, fixedFee: real)

  /** The design rule of `selectKarat`: keep the current design when it is
      set, not empty, and listed for the karat; otherwise take the karat's
      default design if listed, else the first listed design, else none. */
  function ChooseDesign(current: Option<string>, designs: seq<string>, default: string): (r: Option<string>)
    ensures current.Some? && current.value != "" && current.value in designs ==> r == current
    ensures !(current.Some? && current.value != "" && current.value in designs) && default != "" && default in designs ==>
      r == Some(default)
    ensures !(current.Some? && current.value != "" && current.value in designs) && !(default != "" && default in designs) && designs != [] ==>
      r == Some(designs[0])
    ensures r.Some? ==> r.value in designs
    ensures r.None? <==> designs == []
  {
    if current.Some? && current.value != "" && current.value in designs then current
    else if default != "" && default in designs then Some(default)
    else if designs != [] then Some(designs[0])
    else None
  }

  /** Selecting the same karat again keeps the design the first selection
      chose. */
  lemma ChooseDesignIdempotent(current: Option<string>, designs: seq<string>, default: string)
    ensures ChooseDesign(ChooseDesign(current, designs, default), designs, default) == ChooseDesign(current, designs, default)
  {
  }

  /** With the built-in schedule and no design selected, every karat gets
      its default design. */
  lemma DefaultScheduleSelectsDefaultDesign(k: Karat)
    ensures ChooseDesign(None, DesignsForKarat(DEFAULT_MANUFACTURING_SETTINGS, k), DefaultDesignForKarat(k))
      == Some(DefaultDesignForKarat(k))
  {
    DefaultDesignIsListed(k);
  }

  /** The figure shown at start-up: 10 g of 18-karat Italian at spot 3400,
      in the [5.01, 10] bracket with fee 100, sells for 4712.9875. */
  lemma StartupQuote()
    ensures ManufacturingFee(RANGES_18, Some(ITALIAN), 10.0, 500.0) == 100.0
    ensures SellPrice(3400.0, K18, 10.0, 100.0) == 4712.9875
  {
    Ranges18Ordered();
    assert Matches(RANGES_18[4], Some(ITALIAN), 10.0);
    MatchingRangeDecidesFee(RANGES_18, ITALIAN, 10.0, 500.0, 4);
  }

  class App {
    var selectedKarat: Karat
    var currentWeight: real
    var currentGoldPrice: real
    var selectedDesign: Option<string>
    var goldMode: Mode
    var previousPrice: real
    var isFluctuationEnabled: bool
    var manualWeight: Option<real>
    var stoneDeduction: real
    var manufacturingSettings: Settings
    var display: PriceDisplay

    /** A stone deduction survives only while it applies: every full UI
        update resets it otherwise. */
    predicate Valid()
      reads this
    {
      !StoneDeductionApplies(goldMode, selectedKarat) ==> stoneDeduction == 0.0
    }

    /** The initial values of the script's state; the schedule is the one
        loaded from the store. */
    constructor (settings: Settings)
      ensures selectedKarat == K18 && currentWeight == 10.0 && currentGoldPrice == 3400.0
      ensures selectedDesign == None && goldMode == Sell && previousPrice == 1.0
      ensures isFluctuationEnabled && manualWeight == None && stoneDeduction == 0.0
      ensures manufacturingSettings == settings && display == Placeholder
      ensures Valid()
    {
      selectedKarat := K18;
      currentWeight := 10.0;
      currentGoldPrice := 3400.0;
      selectedDesign := None;
      goldMode := Sell;
      previousPrice := 1.0;
      isFluctuationEnabled := true;
      manualWeight := None;
      stoneDeduction := 0.0;
      manufacturingSettings := settings;
      display := Placeholder;
    }

    /** `getEffectiveWeight` */
    function EffectiveWeight(): real
      reads this
    {
      BaseWeight(manualWeight, currentWeight)
    }

    /** `getNetGoldWeight` */
    function NetWeight(): real
      reads this
    {
      NetGoldWeight(goldMode, selectedKarat, manualWeight, currentWeight, stoneDeduction)
    }

    /** The manufacturing fee `getManufacturingFee` looks up for a weight. */
    function Fee(w: real, rates: StoredRates): real
      reads this
    {
      ManufacturingFee(RangesFor(manufacturingSettings, selectedKarat), selectedDesign, w, rates.fixedFee)
    }

    /** A price is quoted only for a positive net weight and spot price. */
    predicate Quotable()
      reads this
    {
      NetWeight() > 0.0 && currentGoldPrice > 0.0
    }

    /** The quoted price in the current mode, on the net weight. */
    function FinalPrice(rates: StoredRates): real
      reads this
    {
      var w := NetWeight();
      match goldMode
      case Sell => SellPrice(currentGoldPrice, selectedKarat, w, Fee(w, rates))
      case Buy => BuyPrice(currentGoldPrice, selectedKarat, w, rates.buyDiscount)
    }

    /** The VAT figure of the details row as the code computes it, on the
        gross (effective) weight and with the per-gram formula for every
        weight (see `Pricing.DetailsVatAsWritten`). */
    function ShownVat(rates: StoredRates): real
      reads this
    {
      var w := EffectiveWeight();
      DetailsVatAsWritten(currentGoldPrice, selectedKarat, w, Fee(w, rates))
    }

    /** In sell mode the gross and net weights agree, so from one gram on
        the details row's VAT is exactly the tax in the quoted price. */
    lemma ShownVatIsTaxOfQuote(rates: StoredRates)
      requires goldMode == Sell && NetWeight() >= 1.0
      ensures FinalPrice(rates) == PreTaxCost(currentGoldPrice, selectedKarat, NetWeight(), Fee(NetWeight(), rates)) + ShownVat(rates)
    {
      assert NetWeight() == EffectiveWeight();
      DetailsVatAsWrittenFromOneGram(currentGoldPrice, selectedKarat, NetWeight(), Fee(NetWeight(), rates));
    }

    /** In buy mode the karat decides whether stones are deducted: the
        quote is on the net weight for 18 and 21 karat, and on the gross
        weight for 24. */
    lemma BuyQuoteWeight(rates: StoredRates)
      requires goldMode == Buy
      ensures selectedKarat == K24 ==> FinalPrice(rates) == BuyPrice(currentGoldPrice, K24, EffectiveWeight(), rates.buyDiscount)
      ensures selectedKarat != K24 ==> FinalPrice(rates) == BuyPrice(currentGoldPrice, selectedKarat, Max(0.0, EffectiveWeight() - stoneDeduction), rates.buyDiscount)
    {
    }

    /** `updateMainPriceDisplay` with `updatePriceDisplay`: the quoted price
        and its arrow against the previous price, which it then replaces;
        the placeholder, with the previous price kept, when no price can
        be quoted. */
    method UpdateMainPriceDisplay(rates: StoredRates)
      modifies this`previousPrice, this`display
      ensures Quotable() ==> display == Priced(FinalPrice(rates), PriceArrow(FinalPrice(rates), old(previousPrice)))
      ensures Quotable() ==> previousPrice == FinalPrice(rates)
      ensures !Quotable() ==> display == Placeholder && previousPrice == old(previousPrice)
    {
      var weightToUse := NetGoldWeight(goldMode, selectedKarat, manualWeight, currentWeight, stoneDeduction);
      if weightToUse > 0.0 && currentGoldPrice > 0.0 {
        var finalPrice := 0.0;
        var manufacturingFee := ManufacturingFee(RangesFor(manufacturingSettings, selectedKarat), selectedDesign, weightToUse, rates.fixedFee);
        if goldMode == Sell {
          finalPrice := SellPrice(currentGoldPrice, selectedKarat, weightToUse, manufacturingFee);
        } else {
          finalPrice := BuyPrice(currentGoldPrice, selectedKarat, weightToUse, rates.buyDiscount);
        }
        display := Priced(finalPrice, PriceArrow(finalPrice, previousPrice));
        previousPrice := finalPrice;
      } else {
        display := Placeholder;
      }
    }

    /** `updateStoneDeductionUI`: outside buy mode on 18/21 karat the
        deduction is reset to 0. */
    method UpdateStoneDeductionUI()
      modifies this`stoneDeduction
      ensures stoneDeduction == (if StoneDeductionApplies(goldMode, selectedKarat) then old(stoneDeduction) else 0.0)
      ensures Valid()
    {
      if !StoneDeductionApplies(goldMode, selectedKarat) {
        stoneDeduction := 0.0;
      }
    }

    /** `updateAllUI`: the price is computed before the deduction reset,
        which cannot change it (a deduction that is reset does not apply). */
    method UpdateAllUI(rates: StoredRates)
      modifies this`previousPrice, this`display, this`stoneDeduction
      ensures Quotable() ==> display == Priced(FinalPrice(rates), PriceArrow(FinalPrice(rates), old(previousPrice)))
      ensures Quotable() ==> previousPrice == FinalPrice(rates)
      ensures !Quotable() ==> display == Placeholder && previousPrice == old(previousPrice)
      ensures stoneDeduction == (if StoneDeductionApplies(goldMode, selectedKarat) then old(stoneDeduction) else 0.0)
      ensures Valid()
    {
      UpdateMainPriceDisplay(rates);
      ghost var quoted := FinalPrice(rates);
      ghost var quotable := Quotable();
      UpdateStoneDeductionUI();
      assert NetWeight() == old(NetGoldWeight(goldMode, selectedKarat, manualWeight, currentWeight, stoneDeduction));
      assert quotable == Quotable() && quoted == FinalPrice(rates);
    }

    /** `selectKarat`: sets the karat, applies the design rule, refreshes. */
    method SelectKarat(k: Karat, rates: StoredRates)
      modifies this`selectedKarat, this`selectedDesign, this`previousPrice, this`display, this`stoneDeduction
      ensures selectedKarat == k
      ensures selectedDesign == ChooseDesign(old(selectedDesign), DesignsForKarat(manufacturingSettings, k), DefaultDesignForKarat(k))
      ensures Quotable() ==> previousPrice == FinalPrice(rates) && display == Priced(FinalPrice(rates), PriceArrow(FinalPrice(rates), old(previousPrice)))
      ensures !Quotable() ==> display == Placeholder && previousPrice == old(previousPrice)
      ensures stoneDeduction == (if StoneDeductionApplies(goldMode, k) then old(stoneDeduction) else 0.0)
      ensures Valid()
    {
      selectedKarat := k;
      var designs := DesignsForKarat(manufacturingSettings, selectedKarat);
      selectedDesign := ChooseDesign(selectedDesign, designs, DefaultDesignForKarat(selectedKarat));
      UpdateAllUI(rates);
    }

    /** A design button's click handler: selects that design and refreshes. */
    method SelectDesign(d: string, rates: StoredRates)
      modifies this`selectedDesign, this`previousPrice, this`display, this`stoneDeduction
      ensures selectedDesign == Some(d)
      ensures Quotable() ==> previousPrice == FinalPrice(rates) && display == Priced(FinalPrice(rates), PriceArrow(FinalPrice(rates), old(previousPrice)))
      ensures !Quotable() ==> display == Placeholder && previousPrice == old(previousPrice)
      ensures stoneDeduction == (if StoneDeductionApplies(goldMode, selectedKarat) then old(stoneDeduction) else 0.0)
      ensures Valid()
    {
      selectedDesign := Some(d);
      UpdateAllUI(rates);
    }

    /** `setGoldMode`: only "buy" and "sell" are accepted; anything else
        changes nothing. */
    method SetGoldMode(mode: string, rates: StoredRates)
      requires Valid()
      modifies this`goldMode, this`previousPrice, this`display, this`stoneDeduction
      ensures mode != "buy" && mode != "sell" ==>
        goldMode == old(goldMode) && previousPrice == old(previousPrice) && display == old(display) && stoneDeduction == old(stoneDeduction)
      ensures mode == "buy" ==> goldMode == Buy
      ensures mode == "sell" ==> goldMode == Sell && stoneDeduction == 0.0
      ensures (mode == "buy" || mode == "sell") && Quotable() ==>
        previousPrice == FinalPrice(rates) && display == Priced(FinalPrice(rates), PriceArrow(FinalPrice(rates), old(previousPrice)))
      ensures (mode == "buy" || mode == "sell") && !Quotable() ==> display == Placeholder && previousPrice == old(previousPrice)
      ensures mode == "buy" ==> stoneDeduction == (if StoneDeductionApplies(Buy, selectedKarat) then old(stoneDeduction) else 0.0)
      ensures Valid()
    {
      if mode == "buy" || mode == "sell" {
        goldMode := if mode == "buy" then Buy else Sell;
        UpdateAllUI(rates);
      }
    }

    /** The mode toggle: switches sell to buy and buy to sell. */
    method ToggleMode(rates: StoredRates)
      requires Valid()
      modifies this`goldMode, this`previousPrice, this`display, this`stoneDeduction
      ensures goldMode == (if old(goldMode) == Sell then Buy else Sell)
      ensures Quotable() ==> previousPrice == FinalPrice(rates) && display == Priced(FinalPrice(rates), PriceArrow(FinalPrice(rates), old(previousPrice)))
      ensures !Quotable() ==> display == Placeholder && previousPrice == old(previousPrice)
      ensures stoneDeduction == (if StoneDeductionApplies(goldMode, selectedKarat) then old(stoneDeduction) else 0.0)
      ensures Valid()
    {
      if goldMode == Sell {
        SetGoldMode("buy", rates);
      } else {
        SetGoldMode("sell", rates);
      }
    }

    /** The manual-weight button: in manual mode it returns to the live
        reading; otherwise it only opens the entry dialog (`dialogOpened`). */
    method ManualWeightButton(rates: StoredRates) returns (dialogOpened: bool)
      requires Valid()
      modifies this`manualWeight, this`previousPrice, this`display, this`stoneDeduction
      ensures dialogOpened <==> old(manualWeight).None?
      ensures manualWeight == None
      ensures dialogOpened ==> previousPrice == old(previousPrice) && display == old(display) && stoneDeduction == old(stoneDeduction)
      ensures !dialogOpened && Quotable() ==> previousPrice == FinalPrice(rates) && display == Priced(FinalPrice(rates), PriceArrow(FinalPrice(rates), old(previousPrice)))
      ensures !dialogOpened && !Quotable() ==> display == Placeholder && previousPrice == old(previousPrice)
      ensures !dialogOpened ==> stoneDeduction == (if StoneDeductionApplies(goldMode, selectedKarat) then old(stoneDeduction) else 0.0)
      ensures Valid()
    {
      if manualWeight.Some? {
        manualWeight := None;
        UpdateAllUI(rates);
        dialogOpened := false;
      } else {
        dialogOpened := true;
      }
    }

    /** The manual-weight dialog's save: a parsed, non-negative number
        becomes the manual weight; anything else is ignored. */
    method SaveManualWeight(parsed: JsNumber, rates: StoredRates)
      requires Valid()
      modifies this`manualWeight, this`previousPrice, this`display, this`stoneDeduction
      ensures parsed.Finite? && parsed.value >= 0.0 ==> manualWeight == Some(parsed.value)
      ensures parsed.Finite? && parsed.value >= 0.0 && Quotable() ==>
        previousPrice == FinalPrice(rates) && display == Priced(FinalPrice(rates), PriceArrow(FinalPrice(rates), old(previousPrice)))
      ensures parsed.Finite? && parsed.value >= 0.0 && !Quotable() ==> display == Placeholder && previousPrice == old(previousPrice)
      ensures parsed.Finite? && parsed.value >= 0.0 ==>
        stoneDeduction == (if StoneDeductionApplies(goldMode, selectedKarat) then old(stoneDeduction) else 0.0)
      ensures !(parsed.Finite? && parsed.value >= 0.0) ==>
        manualWeight == old(manualWeight) && previousPrice == old(previousPrice) && display == old(display) && stoneDeduction == old(stoneDeduction)
      ensures Valid()
    {
      if parsed.Finite? && parsed.value >= 0.0 {
        manualWeight := Some(parsed.value);
        UpdateAllUI(rates);
      }
    }

    /** The stone-deduction dialog's save: stores the clamped deduction
        (`Pricing.SavedDeduction`) against the current base weight. */
    method SaveStoneDeduction(parsed: JsNumber, rates: StoredRates)
      modifies this`previousPrice, this`display, this`stoneDeduction
      ensures StoneDeductionApplies(goldMode, selectedKarat) ==> stoneDeduction == SavedDeduction(parsed, EffectiveWeight())
      ensures !StoneDeductionApplies(goldMode, selectedKarat) ==> stoneDeduction == 0.0
      ensures EffectiveWeight() >= 0.0 ==> 0.0 <= stoneDeduction <= EffectiveWeight()
      ensures Quotable() ==> previousPrice == FinalPrice(rates) && display == Priced(FinalPrice(rates), PriceArrow(FinalPrice(rates), old(previousPrice)))
      ensures !Quotable() ==> display == Placeholder && previousPrice == old(previousPrice)
      ensures Valid()
    {
      var val := SavedDeduction(parsed, BaseWeight(manualWeight, currentWeight));
      stoneDeduction := val;
      UpdateAllUI(rates);
    }

    /** The scale's `onWeightUpdate` callback: a new live reading. */
    method OnWeightUpdate(weight: real, rates: StoredRates)
      modifies this`currentWeight, this`previousPrice, this`display, this`stoneDeduction
      ensures currentWeight == weight
      ensures Quotable() ==> previousPrice == FinalPrice(rates) && display == Priced(FinalPrice(rates), PriceArrow(FinalPrice(rates), old(previousPrice)))
      ensures !Quotable() ==> display == Placeholder && previousPrice == old(previousPrice)
      ensures stoneDeduction == (if StoneDeductionApplies(goldMode, selectedKarat) then old(stoneDeduction) else 0.0)
      ensures Valid()
    {
      currentWeight := weight;
      UpdateAllUI(rates);
    }

    /** The weight field's change handler: a non-negative number becomes the
        manual weight, an empty or unparsable entry returns to the live
        reading, and a negative number is ignored. */
    method OnWeightInputChange(text: string, parsed: JsNumber, rates: StoredRates)
      requires Valid()
      modifies this`manualWeight, this`previousPrice, this`display, this`stoneDeduction
      ensures parsed.Finite? && parsed.value >= 0.0 ==> manualWeight == Some(parsed.value)
      ensures !(parsed.Finite? && parsed.value >= 0.0) && (text == "" || parsed.NaN?) ==> manualWeight == None
      ensures parsed.Finite? && parsed.value < 0.0 && text != "" ==>
        manualWeight == old(manualWeight) && previousPrice == old(previousPrice) && display == old(display) && stoneDeduction == old(stoneDeduction)
      ensures !(parsed.Finite? && parsed.value < 0.0 && text != "") && Quotable() ==>
        previousPrice == FinalPrice(rates) && display == Priced(FinalPrice(rates), PriceArrow(FinalPrice(rates), old(previousPrice)))
      ensures !(parsed.Finite? && parsed.value < 0.0 && text != "") && !Quotable() ==> display == Placeholder && previousPrice == old(previousPrice)
      ensures !(parsed.Finite? && parsed.value < 0.0 && text != "") ==>
        stoneDeduction == (if StoneDeductionApplies(goldMode, selectedKarat) then old(stoneDeduction) else 0.0)
      ensures Valid()
    {
      if parsed.Finite? && parsed.value >= 0.0 {
        manualWeight := Some(parsed.value);
        UpdateAllUI(rates);
      } else if text == "" || parsed.NaN? {
        manualWeight := None;
        UpdateAllUI(rates);
      }
    }

    /** The weight label's click: leaves manual mode, or enters it with the
        field's value (`parseFloat(value) || 0`). */
    method OnWeightLabelClick(parsed: JsNumber, rates: StoredRates)
      modifies this`manualWeight, this`previousPrice, this`display, this`stoneDeduction
      ensures manualWeight == (if old(manualWeight).Some? then None else Some(OrZero(parsed)))
      ensures Quotable() ==> previousPrice == FinalPrice(rates) && display == Priced(FinalPrice(rates), PriceArrow(FinalPrice(rates), old(previousPrice)))
      ensures !Quotable() ==> display == Placeholder && previousPrice == old(previousPrice)
      ensures stoneDeduction == (if StoneDeductionApplies(goldMode, selectedKarat) then old(stoneDeduction) else 0.0)
      ensures Valid()
    {
      if manualWeight.Some? {
        manualWeight := None;
      } else {
        manualWeight := Some(OrZero(parsed));
      }
      UpdateAllUI(rates);
    }

    /** The price feed's `onPriceUpdate` callback, with `Math.random()` as
        `r` and the stored fluctuation range: the spot price is the feed's
        price, moved by at most the range when fluctuation is on. */
    method OnPriceUpdate(realPrice: real, range: real, r: real, rates: StoredRates)
      requires 0.0 <= r < 1.0 && Valid()
      modifies this`currentGoldPrice, this`previousPrice, this`display
      ensures currentGoldPrice == (if isFluctuationEnabled then AddFluctuation(realPrice, range, r) else realPrice)
      ensures range >= 0.0 ==> realPrice - range <= currentGoldPrice <= realPrice + range
      ensures Quotable() ==> previousPrice == FinalPrice(rates) && display == Priced(FinalPrice(rates), PriceArrow(FinalPrice(rates), old(previousPrice)))
      ensures !Quotable() ==> display == Placeholder && previousPrice == old(previousPrice)
      ensures Valid()
    {
      currentGoldPrice := if isFluctuationEnabled then AddFluctuation(realPrice, range, r) else realPrice;
      UpdateMainPriceDisplay(rates);
    }
  }
}
