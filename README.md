# Gold price calculator — verified model

This project models the logic of a gold shop's price calculator written in
JavaScript:

- **Pricing engine.** The calculator derives a per-gram 24-karat baseline from
  the live spot price, `spot * 121.5 / 1000`, and scales it by the karat's
  purity (18 → 0.75, 21 → 0.875, 24 → 1).
- **Sell price.** The manufacturing fee is looked up in a per-karat table of
  `{design, from, to, fee}` weight brackets, with a fixed fee below 1 g. The
  fee and 15% VAT are added; 24 karat is untaxed.
- **Buy price.** The buy price subtracts a per-gram discount. In buy mode on
  18 and 21 karat a stone deduction is taken off the weight first.
- **Fee-schedule editor.** A settings page edits the fee table in place.
- **Configuration store.** The settings live in a string-to-string key/value
  store.
- **Feeds.** Two socket feeds, the live price and the scale, report status,
  deliver readings and reconnect on timers.

Every constant is a decimal fraction, so all arithmetic is over `real` and
exact. For example, spot 3400 gives a baseline of exactly 413.1 per gram.
At that spot price the model's worked figures are:
- 3770.39 for 8 g of 18-karat Italian;
- 1479.3 for 3 g of 24-karat local;
- 2731.7 for buying 21 karat, 10 g less 2 g of stones, discount 20.

The modules follow the source files:

| module | file | source |
|---|---|---|
| `Common` | common.dfy | `null` versus a value, and numbers that may be NaN |
| `JsText` | js_text.dfy | `String.prototype.trim` |
| `FeeSchedule` | fee_schedule.dfy | the range record, per-design filtering, the identity-based `indexOf` as "the i-th range of a design", and the unique design list |
| `ManufacturingDefaults` | manufacturing_defaults.dfy | js/manufacturingDefaults.js, plus proofs that the default table is ordered |
| `Pricing` | pricing.dfy | the pure functions of js/main.js |
| `Calculator` | calculator.dfy | the module-level state of js/main.js as the class `App`, whose methods are its handlers |
| `SettingsPage` | settings_page.dfy | js/settings.js, with the editor as the class `FeeScheduleEditor` |
| `StorageUtils` | storage_utils.dfy | js/storageUtils.js, with the store as the class `Store` |
| `FeedEffects` | feed_effects.dfy | the record of a feed's observable effects |
| `LivePriceConnection` | live_price_connection.dfy | js/livePriceConnection.js |
| `ScaleConnection` | scale_connection.dfy | js/scaleConnection.js |

Blocking dialogs, parsers, randomness and failures become parameters:
- `prompt`, `confirm` and `Math.random()`;
- `parseFloat`, `parseInt`, `JSON.parse` and `JSON.stringify`;
- whether a store access or a socket construction throws.

A socket is abstract. Its events are method calls, and each feed records what
it does in an `effects` sequence.

A JavaScript exception becomes an outcome that changes nothing. This covers
pushing to a karat with no range list, and reading `tokens.cst` without tokens.

Three behaviours of the code worth noting:
- **Session expiry.** The price feed calls `onSessionExpired` on every close,
  including the close of a superseded socket and the close `close()` causes.
  It never inspects an `errorCode`.
- **Equal prices.** The price arrow compares against the previous price plus
  0.001, so an unchanged price shows the falling arrow.
- **Tokens.** The price feed is connected at js/main.js:204-215 without
  tokens, so on open it reports "connected" and then throws before sending a
  subscription.

## Model

| member | source | states |
|---|---|---|
| `Common.OrZero` | js/settings.js:328-331 | `x \|\| 0` on a parsed number: NaN becomes 0, any other number is kept |
| `JsText.SkipLeading` | js/settings.js:250-251 | the first position from a start that holds no whitespace, with only whitespace before it |
| `JsText.SkipTrailing` | js/settings.js:250-251 | the end of the text once trailing whitespace is dropped, with only whitespace after it |
| `JsText.TrimStart` | js/settings.js:250-251 | the result is the suffix left after a run of leading JS whitespace, and starts with a non-whitespace character |
| `JsText.TrimEnd` | js/settings.js:250-251 | the result is the prefix before a run of trailing JS whitespace, and ends with a non-whitespace character |
| `JsText.Trim` | js/settings.js:250-251 | a trimmed name is empty or starts and ends with non-whitespace |
| `JsText.TrimEmptyIffBlank` | js/settings.js:250 | a name trims to empty exactly when it is all whitespace (the "blank name" test of `addDesign`) |
| `JsText.TrimIdempotent` | js/settings.js:250-251 | trimming a trimmed name changes nothing |
| `FeeSchedule.RangesFor` | js/main.js:433 | `manufacturingSettings[karat] \|\| []`: the karat's list when present, else empty |
| `FeeSchedule.DesignRanges` | js/settings.js:323 | `ranges.filter(r => r.design === design)`: no longer than the list; that it holds exactly the design's ranges in list order is `DesignRangesAreOfDesign`, `DesignRangesAppend` and `DesignRangesEmptyIffAbsent` |
| `FeeSchedule.DesignRangesAreOfDesign` | js/settings.js:323 | every range `ranges.filter(r => r.design === design)` keeps is of that design |
| `FeeSchedule.DesignRangesAppend` | js/settings.js:323 | filtering distributes over concatenation, so the filter keeps the list's order |
| `FeeSchedule.WithoutDesign` | js/settings.js:280-281 | `ranges.filter(r => r.design !== design)`: no longer than the list; that it drops exactly that design's ranges and keeps every other design's in order is `WithoutDesignHasNone`, `WithoutDesignKeepsOthers` and `SettingsPage.RemovedDesignIsUnlisted` |
| `FeeSchedule.WithoutDesignHasNone` | js/settings.js:280-281 | no range `filter(r => r.design !== design)` keeps is of the removed design |
| `FeeSchedule.NthPosition` | js/settings.js:326 | `ranges.indexOf(designRanges[index])`: a position in the whole list holding exactly the index-th range of the design |
| `FeeSchedule.NthPositionSplits` | js/settings.js:323-326 | the ranges of the design before that position are its first `index`, those after it the rest |
| `FeeSchedule.RemoveNth` | js/settings.js:347-348 | splicing out that position removes exactly the index-th range of the design: one fewer, the design's other ranges in order, other designs untouched |
| `FeeSchedule.ReplaceNth` | js/settings.js:326-331 | overwriting that position changes exactly the index-th range of the design and no other design's ranges |
| `FeeSchedule.WithoutDesignKeepsOthers` | js/settings.js:280-281 | removing a design leaves none of its ranges, every other design's ranges in their order, and shrinks the list by exactly its ranges |
| `FeeSchedule.FirstIndex` | js/main.js:435 | the first position at which a design occurs, the list's length when it does not |
| `FeeSchedule.FirstIndexFound` | js/main.js:435 | a design occurs in the list exactly when its first position lies inside it |
| `FeeSchedule.FirstIndexOfAppend` | js/main.js:435 | appending a range leaves an occurring design's first position alone and puts a new design's at the appended range |
| `FeeSchedule.UniqueDesigns` | js/main.js:432-436 | `[...new Set(ranges.map(r => r.design))]`: exactly the designs present, each once, in first-occurrence order; empty only for an empty list |
| `FeeSchedule.DesignsForKarat` | js/main.js:432-436 | the karat's designs: exactly those present in its ranges, each once |
| `FeeSchedule.DesignRangesEmptyIffAbsent` | js/main.js:472-473 | a design has no ranges exactly when it does not occur in the list |
| `FeeSchedule.AtMostOneMatch` | js/manufacturingDefaults.js:16-59 | in a list ordered within designs, two ranges of one design cannot both contain a weight |
| `ManufacturingDefaults.KaratMultiplier` | js/manufacturingDefaults.js:76-80 | the purity multiplier is k/24 (24 → 1, 21 → 0.875, 18 → 0.75) and lies in (0, 1] |
| `ManufacturingDefaults.ChainIsOrdered` | js/manufacturingDefaults.js:18-29 | a list of one design where each range is proper, below the next and no cheaper, is ordered and non-increasing pairwise |
| `ManufacturingDefaults.Ranges18Ordered` | js/manufacturingDefaults.js:16-30 | the 18-karat defaults: every range proper, each design's ranges ascending and disjoint, fees non-increasing |
| `ManufacturingDefaults.Ranges21Ordered` | js/manufacturingDefaults.js:32-49 | the same for the 21-karat defaults, bracelets included |
| `ManufacturingDefaults.Ranges24Ordered` | js/manufacturingDefaults.js:51-59 | the same for the 24-karat defaults |
| `ManufacturingDefaults.DefaultsAreOrdered` | js/manufacturingDefaults.js:15-60 | the default table has exactly the keys 18, 21 and 24, and each karat's list is well ordered |
| `ManufacturingDefaults.DefaultDesignForKarat` | js/manufacturingDefaults.js:66-70 | `DEFAULT_DESIGN_FOR_KARAT`: Italian for 18 karat, local for 21 and 24 (no ensures; `DefaultDesignIsListed` and `Calculator.DefaultScheduleSelectsDefaultDesign` prove it is a design of the default table that the karat selection keeps) |
| `ManufacturingDefaults.DefaultDesignIsListed` | js/manufacturingDefaults.js:66-70 | each karat's default design occurs in that karat's default ranges and in its design list |
| `Pricing.Price24K` | js/main.js:277 | the 24-karat price per gram, spot × 121.5 / 1000 (no ensures; fixed by `ExampleSellItalian18`, `ExampleSellLocal24` and `ExampleBuy21`) |
| `Pricing.GoldValuePerGram` | js/main.js:277-279 | the karat's metal value per gram, the 24-karat price times the purity multiplier (no ensures; `BuyPriceIsMetalLessDiscount` and `BuyNeverAboveSell` state the prices against it) |
| `Pricing.TaxRate` | js/main.js:280 | 1 for 24 karat, 1.15 otherwise (no ensures; `SellPriceTax` states what it does to the sell price) |
| `Pricing.ManufacturingFee` | js/main.js:459-474 | `getManufacturingFee`: the fixed fee below 1 g; from 1 g the fee of the first range of the design that holds the weight, else the design's last fee, else 0 (no ensures; proved by `SubGramFeeIsFixed`, `MatchingRangeDecidesFee`, `UnmatchedWeightTakesLastFee`, `DesignWithoutRangesIsFree` and `ExampleGapItalian18`) |
| `Pricing.FirstMatch` | js/main.js:465-470 | the fee search: the first position, in list order, whose range is of the design and contains the weight; none when no range does |
| `Pricing.SubGramFeeIsFixed` | js/main.js:459-463 | below 1 g the fee is the configured fixed fee, whatever the karat, design or schedule |
| `Pricing.MatchingRangeDecidesFee` | js/main.js:465-470 | from 1 g on, in an ordered schedule, any range of the design containing the weight gives the fee |
| `Pricing.UnmatchedWeightTakesLastFee` | js/main.js:471-473 | from 1 g on, a weight no range of the design contains costs the fee of that design's last range |
| `Pricing.DesignWithoutRangesIsFree` | js/main.js:471-473 | from 1 g on, a design with no ranges, or no design, costs no fee |
| `Pricing.SellPrice` | js/main.js:276-292 | the pre-tax cost times the tax rate: `(gv·w + fee) · taxRate` below 1 g, `(gv + fee) · w · taxRate` from 1 g (no ensures; proved by `SubGramFeeIsFlat`, `FeeIsPerGramFromOneGram`, `SellPriceTax`, `BuyNeverAboveSell` and the two sell examples) |
| `Pricing.BuyPrice` | js/main.js:300-306 | `(gv − discount) · w`, with no tax (no ensures; proved by `BuyPriceIsMetalLessDiscount`, `BuyNeverAboveSell` and `ExampleBuy21`) |
| `Pricing.SubGramFeeIsFlat` | js/main.js:282-284 | below 1 g a fee change moves the price by the taxed change alone, not scaled by weight |
| `Pricing.FeeIsPerGramFromOneGram` | js/main.js:285-288 | from 1 g on a fee change is multiplied by the weight and the tax |
| `Pricing.SellPriceTax` | js/main.js:280-291 | 24 karat sells at its pre-tax cost; other karats add 15% of it |
| `Pricing.BuyNeverAboveSell` | js/main.js:276-306 | with non-negative spot, weight, fee and discount the buy price never exceeds the sell price |
| `Pricing.BuyPriceIsMetalLessDiscount` | js/main.js:300-306 | the buy price is the karat's metal value less discount per gram, with no fee or tax, and at most the metal value |
| `Pricing.StoneDeductionApplies` | js/main.js:92-94 | `shouldShowStoneDeduction`: buy mode and 18 or 21 karat (no ensures; `DeductionOnlyInBuyMode` and `Calculator.App.BuyQuoteWeight` state its effect on the weight) |
| `Pricing.BaseWeight` | js/main.js:101 | the manual weight when set, else the live reading (no ensures; `NetWeightBounds` and `DeductionOnlyInBuyMode` state the net weight against it) |
| `Pricing.NetGoldWeight` | js/main.js:100-106 | `getNetGoldWeight`: `max(0, base − deduction)` when the deduction applies, else the base weight (no ensures; proved by `DeductionOnlyInBuyMode`, `NetWeightBounds` and `SavedDeductionGivesExactNetWeight`) |
| `Pricing.DeductionOnlyInBuyMode` | js/main.js:92-106 | net weight is `max(0, base − deduction)` in buy mode on 18/21 karat and the base weight otherwise; the base is the manual weight when set, else the live reading |
| `Pricing.NetWeightBounds` | js/main.js:100-106 | with non-negative base and deduction, 0 ≤ net weight ≤ base |
| `Pricing.SavedDeduction` | js/main.js:582-586 | the saved deduction is `max(0, parsed \|\| 0)` unless that exceeds the base, then the base: never above the base, never negative for a non-negative base |
| `Pricing.SavedDeductionGivesExactNetWeight` | js/main.js:581-590 | after saving, the buy-mode net weight on 18/21 karat is exactly base − deduction and lies in [0, base] |
| `Pricing.PriceArrow` | js/main.js:312-334 | up exactly above previous + 0.001, down exactly below it, level exactly at it |
| `Pricing.UnchangedPriceShowsDown` | js/main.js:313-334 | an unchanged price shows the falling arrow; only previous + 0.001 shows level |
| `Pricing.AddFluctuation` | js/main.js:230-233 | with `r` in [0, 1) and a non-negative range the result stays within the range of the base price |
| `Pricing.PreTaxCost` | js/main.js:283-289 | the sell price before tax: `gv·w + fee` below 1 g, `(gv + fee) · w` from 1 g (no ensures; `SubGramFeeIsFlat` and `FeeIsPerGramFromOneGram` state the split through `SellPrice`; `DetailsVat` and `Calculator.App.ShownVatIsTaxOfQuote` add the VAT to it to give the quoted price) |
| `Pricing.DetailsVatAsWritten` | js/main.js:163-165 | (as written) 0 for 24 karat, else `(gv + fee) · w · 0.15` at every weight (no ensures; `DetailsVatAsWrittenFromOneGram` proves it is the tax from 1 g on, `DetailsVatAsWrittenDisagreesUnderOneGram` that it is not below 1 g) |
| `Pricing.DetailsVat` | js/main.js:155-165 | (corrected) the VAT shown is the tax in the sell price: pre-tax cost + VAT = sell price; 0 on 24 karat |
| `Pricing.DetailsVatAsWrittenFromOneGram` | js/main.js:160-165 | from 1 g on the VAT figure as written equals the tax in the sell price |
| `Pricing.DetailsVatAsWrittenDisagreesUnderOneGram` | js/main.js:160-165 | (as written) at 0.5 g, 18 karat, spot 3400, fixed fee 500 the figure is 60.736875 while the price holds 98.236875 of tax |
| `Pricing.ExampleSellItalian18` | js/manufacturingDefaults.js:22 | 8 g of 18-karat Italian at spot 3400: fee 100, price 3770.39 |
| `Pricing.ExampleSellLocal24` | js/manufacturingDefaults.js:54 | 3 g of 24-karat local at spot 3400: fee 80, price 1479.3 |
| `Pricing.ExampleBuy21` | js/main.js:300-306 | buying 21 karat, 10 g less 2 g, discount 20, spot 3400: 2731.7 |
| `Pricing.ExampleGapItalian18` | js/manufacturingDefaults.js:18-22 | 2.005 g of 18-karat Italian lies in the gap between brackets and pays the last fee, 100 |
| `Calculator.ChooseDesign` | js/main.js:368-373 | keep the current design when set, non-empty and listed; otherwise the karat's default design when it is non-empty and listed; otherwise the first listed design; never an unlisted design; none only for an empty list |
| `Calculator.ChooseDesignIdempotent` | js/main.js:368-373 | selecting the same karat again keeps the design chosen |
| `Calculator.DefaultScheduleSelectsDefaultDesign` | js/main.js:368-373 | with the default table and no design selected, each karat selects its default design |
| `Calculator.StartupQuote` | js/main.js:23-26 | the initial state (18 karat, 10 g, spot 3400, Italian) prices at 4712.9875 with fee 100 |
| `Calculator.App.constructor` | js/main.js:23-39 | the initial values of the state variables |
| `Calculator.App.EffectiveWeight` | js/main.js:615-617 | `getEffectiveWeight`: the manual weight when set, else the live reading (no ensures; used by `BuyQuoteWeight` and `SaveStoneDeduction`) |
| `Calculator.App.NetWeight` | js/main.js:100-106 | `getNetGoldWeight` on the current state (no ensures; `BuyQuoteWeight` states it per karat in buy mode) |
| `Calculator.App.Fee` | js/main.js:459-474 | the fee `getManufacturingFee` gives for the selected karat and design at a weight, with the stored fixed fee (no ensures; see `Pricing.ManufacturingFee`) |
| `Calculator.App.FinalPrice` | js/main.js:255-259 | the sell price on the net weight with that weight's fee in sell mode, the buy price with the stored discount in buy mode (no ensures; `ShownVatIsTaxOfQuote`, `BuyQuoteWeight` and `UpdateMainPriceDisplay` state it) |
| `Calculator.App.ShownVat` | js/main.js:157-165 | the details row's VAT as written, on the gross weight and its fee (no ensures; `ShownVatIsTaxOfQuote` proves it is the tax in the quote in sell mode from 1 g) |
| `Calculator.App.ShownVatIsTaxOfQuote` | js/main.js:155-165 | in sell mode from 1 g on, the details VAT as the code computes it plus the pre-tax cost is the quoted price |
| `Calculator.App.BuyQuoteWeight` | js/main.js:245-262 | in buy mode the quote is on the gross weight for 24 karat and on the deducted weight for 18/21 |
| `Calculator.App.UpdateMainPriceDisplay` | js/main.js:245-268 | with positive net weight and spot it shows the mode's price and its arrow against the previous price, then stores it as previous; otherwise the placeholder, previous price kept |
| `Calculator.App.UpdateStoneDeductionUI` | js/main.js:111-119 | the deduction is reset to 0 whenever it does not apply, and kept otherwise |
| `Calculator.App.UpdateAllUI` | js/main.js:652-659 | price display as above, then the deduction reset; the reset never changes the quoted price |
| `Calculator.App.SelectKarat` | js/main.js:358-377 | sets the karat, applies the design rule to the karat's design list, refreshes |
| `Calculator.App.SelectDesign` | js/main.js:450-454 | a design button selects its design and refreshes |
| `Calculator.App.SetGoldMode` | js/main.js:387-393 | only "buy" and "sell" change the mode (and refresh); switching to sell clears the deduction |
| `Calculator.App.ToggleMode` | js/main.js:806-812 | the mode toggle flips sell and buy |
| `Calculator.App.ManualWeightButton` | js/main.js:536-551 | in manual mode returns to the live reading and refreshes; otherwise only opens the dialog |
| `Calculator.App.SaveManualWeight` | js/main.js:557-566 | a parsed non-negative number becomes the manual weight; anything else changes nothing |
| `Calculator.App.SaveStoneDeduction` | js/main.js:581-590 | stores the clamped deduction, so 0 ≤ deduction ≤ base for a non-negative base; reset to 0 where it does not apply |
| `Calculator.App.OnWeightUpdate` | js/main.js:742-746 | a scale reading becomes the live weight and refreshes |
| `Calculator.App.OnWeightInputChange` | js/main.js:778-789 | a non-negative number sets the manual weight, empty or NaN clears it, a negative number is ignored |
| `Calculator.App.OnWeightLabelClick` | js/main.js:795-803 | leaves manual mode, or enters it with `parseFloat(value) \|\| 0` |
| `Calculator.App.OnPriceUpdate` | js/main.js:205-211 | the spot price becomes the feed's price, within the fluctuation range of it when fluctuation is on, and the display refreshes |
| `SettingsPage.AllDesignsForKarat` | js/settings.js:52-59 | the karat's design list when it has ranges, the five fallback names when it has none; never empty |
| `SettingsPage.AllDesignsForKaratLists` | js/settings.js:52-59 | for a karat with ranges, exactly the designs of its ranges, in first-occurrence order; never a repeat |
| `SettingsPage.FallbackDistinct` | js/settings.js:56 | the five fallback names are distinct |
| `SettingsPage.NewRange` | js/settings.js:261-266 | the range `{design, from: 1, to: 2, fee: 100}` that a new design and `addRange` (js/settings.js:303-308) push (no ensures; `AddedDesignIsListedLast`, `FeeScheduleEditor.AppendDesign` and `FeeScheduleEditor.AddRange` state where it lands) |
| `SettingsPage.AppendNewDesign` | js/settings.js:261-266 | appending a range of a new design gives that design exactly that range, lists it last, and leaves other designs alone |
| `SettingsPage.AppendRangeOfDesign` | js/settings.js:303-308 | appending a range puts it after its design's ranges and leaves other designs alone |
| `SettingsPage.RemovedDesignIsUnlisted` | js/settings.js:280-281 | after removal the design list is the old one without that design |
| `SettingsPage.AddedDesignIsListedLast` | js/settings.js:261-268 | a new design pushed onto a karat's list has exactly its one range, is listed last, and is a tab the next render keeps |
| `SettingsPage.RemovedDesignIsUnselectable` | js/settings.js:280-283 | after the removal the design is not listed, unless the karat is left with no ranges and the fallback names show |
| `SettingsPage.RemovingItalianSelectsLocal` | js/settings.js:278-283 | on the built-in schedule, removing the 18-karat Italian design leaves Local as the first listed design, so it becomes the selected tab |
| `SettingsPage.FeeScheduleEditor.constructor` | js/settings.js:19-22 | the loaded schedule; `renderSettings` on load then selects each karat's first listed design |
| `SettingsPage.FeeScheduleEditor.RenderDesignTabs` | js/settings.js:115-124 | a selected tab that is set, non-empty and listed is kept and nothing changes; otherwise the first listed design is selected; afterwards the tab is always a listed design |
| `SettingsPage.FeeScheduleEditor.SelectTab` | js/settings.js:150-153 | a click selects the clicked design when it is non-empty and listed, otherwise the first listed design |
| `SettingsPage.FeeScheduleEditor.AddDesign` | js/settings.js:248-271 | blank: nothing; listed (fallback names included): nothing; no list for the karat: nothing; else one range `{name, 1, 2, 100}` appended, the design listed last and selected, and the re-render keeps it selected |
| `SettingsPage.FeeScheduleEditor.AppendDesign` | js/settings.js:261-269 | the push, the tab selection and the re-render of `addDesign`: the new design is listed last and stays selected |
| `SettingsPage.FeeScheduleEditor.RemoveDesign` | js/settings.js:278-285 | on confirm, every range of the design goes, others stay in order, and the re-render selects the first design still listed, never the removed one while ranges remain; without confirmation nothing changes |
| `SettingsPage.FeeScheduleEditor.AddRange` | js/settings.js:295-311 | with a selected design, appends `{design, 1, 2, 100}` to that karat's list only; with none, nothing |
| `SettingsPage.FeeScheduleEditor.UpdateRangeByDesign` | js/settings.js:321-334 | only the chosen field of the index-th range of the design changes (`parseFloat \|\| 0` or `parseInt \|\| 0`); bad index or field: nothing |
| `SettingsPage.FeeScheduleEditor.RemoveRangeByDesign` | js/settings.js:342-351 | exactly the index-th range of the design is deleted, the list shrinks by one, the rest keep their order; bad index: nothing |
| `StorageUtils.GetStorageValue` | js/storageUtils.js:15-33 | the default when the read throws or the key is absent; otherwise either the default or a value of the requested type |
| `StorageUtils.SetThenGet` | js/storageUtils.js:41-48 | a written value reads back unchanged with its type, when the parser inverts the serializer (always for strings) |
| `StorageUtils.UnparsableNumberIsNaN` | js/storageUtils.js:21-22 | a stored number that does not parse reads as NaN, not the default |
| `StorageUtils.WriteKeepsOtherKeys` | js/storageUtils.js:41-48 | writing one key leaves every read of another key unchanged |
| `StorageUtils.KeysDistinct` | js/storageUtils.js:51-58 | the six setting keys are pairwise different |
| `StorageUtils.Store.GetManufacturingSettings` | js/storageUtils.js:72-73 | the stored schedule when present and parsable, else the given default |
| `StorageUtils.Store.GetBuyDiscount` | js/storageUtils.js:79-80 | the buy-discount key read as a number, default 20 (no ensures; proved by `EmptyStoreDefaults`, `GettersReadOwnKeys` and `SetBuyDiscount`) |
| `StorageUtils.Store.GetFluctuationRange` | js/storageUtils.js:86-87 | the fluctuation-range key read as a number, default 1 (no ensures; the same three members) |
| `StorageUtils.Store.GetFixedManufacturingFee` | js/storageUtils.js:93-94 | the fixed-fee key read as a number, default 500 (no ensures; the same three members) |
| `StorageUtils.Store.GetCRNumber` | js/storageUtils.js:100-101 | the CR key read as text, default "2053175911" (no ensures; `EmptyStoreDefaults`, `GettersReadOwnKeys` and `SetCRNumber`) |
| `StorageUtils.Store.GetVATNumber` | js/storageUtils.js:107-108 | the VAT key read as text, default "2053175911" (no ensures; `EmptyStoreDefaults`, `GettersReadOwnKeys` and `SetVATNumber`) |
| `StorageUtils.Store.EmptyStoreDefaults` | js/storageUtils.js:61-67 | on an empty or unreadable store the getters return 20, 1, 500, "2053175911", "2053175911" and the given schedule |
| `StorageUtils.Store.GettersReadOwnKeys` | js/storageUtils.js:79-111 | each getter reads its own key |
| `StorageUtils.Store.SetStorageValue` | js/storageUtils.js:41-48 | stores the serialized value under the key alone; a throwing write is swallowed and stores nothing |
| `StorageUtils.Store.SetManufacturingSettings` | js/storageUtils.js:75-76 | stores `JSON.stringify(settings)`; read back it is the same schedule when parsing inverts it |
| `StorageUtils.Store.SetBuyDiscount` | js/storageUtils.js:82-83 | stores the text of the form field `saveSettings` passes, unchanged, under only the buy-discount key; a successful write reads back as that text parsed |
| `StorageUtils.Store.SetFluctuationRange` | js/storageUtils.js:89-90 | the same for the fluctuation-range key |
| `StorageUtils.Store.SetFixedManufacturingFee` | js/storageUtils.js:96-97 | the same for the fixed-fee key |
| `StorageUtils.Store.SetCRNumber` | js/storageUtils.js:103-104 | writes only the CR key, and reads back the value written |
| `StorageUtils.Store.SetVATNumber` | js/storageUtils.js:110-111 | writes only the VAT key, and reads back the value written |
| `FeedEffects.Report` | js/livePriceConnection.js:31-33 | `updateConnectionStatus` (also js/scaleConnection.js:6-8): one status report when a status callback was given, nothing otherwise (no ensures; the effects named in the feeds' method contracts) |
| `LivePriceConnection.CreateSession` | js/livePriceConnection.js:2-27 | tokens exactly when the response is ok and both headers are non-empty; reports the attempt then its success or failure; never throws |
| `LivePriceConnection.NoTokensNoSubscription` | js/livePriceConnection.js:16-19 | a failed, not-ok or header-less response yields no tokens |
| `LivePriceConnection.SubscribeMessage` | js/livePriceConnection.js:41-47 | destination `marketData.subscribe`, correlationId `gold-price-subscription`, both tokens, epics `["GOLD"]` |
| `LivePriceConnection.QuoteBid` | js/livePriceConnection.js:49-61 | a bid is delivered exactly for status "OK", destination "quote", a payload and a numeric bid |
| `LivePriceConnection.NoSessionOpenSendsNothing` | js/livePriceConnection.js:39-48 | a feed given the tokens of a failed, not-ok or header-less session response sends nothing: after its socket opens, no effect is a `send` |
| `LivePriceConnection.OnlyOkQuotesDeliver` | js/livePriceConnection.js:52-56 | any other status, destination, missing payload or bid, or unparsable frame delivers nothing |
| `LivePriceConnection.PriceFeed.constructor` | js/livePriceConnection.js:29-38 | connecting runs `startConnection` once: a connecting report, then a socket or a failure report and a 5000 ms retry |
| `LivePriceConnection.PriceFeed.StartConnection` | js/livePriceConnection.js:34-76 | reports connecting, closes the current socket if any, then creates one; on failure reports it and retries after 5000 ms; every older socket has been closed |
| `LivePriceConnection.PriceFeed.OnOpen` | js/livePriceConnection.js:39-48 | reports connected and sends exactly one subscription on the current socket, or nothing without tokens |
| `LivePriceConnection.PriceFeed.OnMessage` | js/livePriceConnection.js:49-61 | calls `onPriceUpdate` with the bid of a valid quote; drops every other frame |
| `LivePriceConnection.PriceFeed.OnClose` | js/livePriceConnection.js:62-66 | reports disconnected, calls `onSessionExpired` if given, reconnects after 3000 ms |
| `LivePriceConnection.PriceFeed.OnError` | js/livePriceConnection.js:67-70 | only reports an error; no reconnect |
| `LivePriceConnection.PriceFeed.Close` | js/livePriceConnection.js:78-80 | closes the current socket; nothing when there is none |
| `LivePriceConnection.RestartClosesOldSocket` | js/livePriceConnection.js:35-38 | a second start closes socket 0 and makes socket 1 current |
| `LivePriceConnection.CloseThenCloseEventReconnects` | js/livePriceConnection.js:62-80 | `close()` followed by its close event still calls `onSessionExpired` and schedules a reconnect |
| `ScaleConnection.WeightOf` | js/scaleConnection.js:16-21 | a frame yields a reading exactly when it parses as a number |
| `ScaleConnection.WeightFeed.constructor` | js/scaleConnection.js:1-36 | connecting runs `startConnection` once |
| `ScaleConnection.WeightFeed.StartConnection` | js/scaleConnection.js:9-35 | reports connecting and creates a socket without closing the current one; on failure reports an error and retries after 99999 ms |
| `ScaleConnection.WeightFeed.OnOpen` | js/scaleConnection.js:13-15 | reports connected and sends nothing |
| `ScaleConnection.WeightFeed.OnMessage` | js/scaleConnection.js:16-21 | calls `onWeightUpdate` with a numeric reading; drops the rest |
| `ScaleConnection.WeightFeed.OnClose` | js/scaleConnection.js:22-25 | reports disconnected and reconnects after 99999 ms |
| `ScaleConnection.WeightFeed.OnError` | js/scaleConnection.js:26-29 | only reports an error; no reconnect |
| `ScaleConnection.WeightFeed.Close` | js/scaleConnection.js:37-39 | closes the current socket; nothing when there is none |
| `ScaleConnection.RestartLeavesOldSocketOpen` | js/scaleConnection.js:10-12 | after two starts both sockets exist and none was closed |

## Left out

- DOM work is left out: element text, `toFixed`/`toLocaleString` formatting, colours, modals, the details and cost-per-gram boxes, the design selector rendering and the theme. This is presentation, not state. The details row is modelled only through its VAT figure.
- `initializePriceConnection` (js/main.js:177-228) and the subscription and MAC lookups are left out. They call `fetchTokensFromSupabase`, `checkGoldMarketStatus` and `checkSubscription`, which are not part of this model, and the expired-session branch recurses without bound. The price callback it installs is `Calculator.App.OnPriceUpdate`.
- Real timers are left out. A feed records `ReconnectScheduled(ms)`, and the timer firing is a later `StartConnection` call by the caller.
- Calculator.App.UpdateMainPriceDisplay: the stored buy discount and fixed fee enter as `real`. A NaN read from the store, which JavaScript would carry into the price, is not modelled.
- The same holds for the fluctuation range given to `Calculator.App.OnPriceUpdate`.
- IEEE-754 rounding, infinities and the exact grammars of `parseFloat`, `parseInt` and `JSON.parse` are abstract. They are parameters, or `JsNumber`/`Option` values.
- A stored schedule that is valid JSON but not a schedule is not representable.
- The fee table is a value. The page's shallow copy `{...DEFAULT_MANUFACTURING_SETTINGS}` shares its arrays with the defaults, so in-place edits there also alter the in-memory defaults. The model does not capture that aliasing.
- SettingsPage.FeeScheduleEditor.UpdateRangeByDesign: the index is an integer. A non-integral index, which JavaScript also treats as no range, is not modelled.
- The same holds for `SettingsPage.FeeScheduleEditor.RemoveRangeByDesign`.
- SettingsPage.FeeScheduleEditor.RenderDesignTabs: the early return when the page has no tab container for the karat (js/settings.js:117) is not modelled; the settings page always has the three containers.
- `addRange` and `removeRangeByDesign` re-render only the range list, not the tabs, so they do not re-select a tab; the model follows that. Removing a design's last range therefore leaves its tab selected until the next render.
- `selectedDesign` being `undefined` (an empty design list) and `null` are both `None`. The source treats them alike.
- Karat keys are the three values 18, 21 and 24. The source builds them with `karat.toString()`.
- An exception thrown by a callback (`onPriceUpdate`, `onWeightUpdate`, `onStatusChange`) is not modelled.
- Which socket an event comes from is not modelled: apart from `onopen`'s send, no handler depends on it. `onopen` sends on whatever socket is current, which the model records.
- Logging (`console.*`) and `printRiyadhTime` are left out.

## Findings

| source | as written | input that shows it | evidently intended | confidence | as-written member | corrected member |
|---|---|---|---|---|---|---|
| js/main.js:160-165 | the details row computes VAT as `(goldValue + fee) * weight * 0.15` for every weight | 0.5 g of 18 karat, spot 3400, fixed fee 500: shows 60.736875, while the price `(gv*w + fee)*1.15` holds 98.236875 of tax | below 1 g the VAT shown should be the tax in the sub-gram price, `(gv*w + fee) * 0.15` | medium, not executed | `Pricing.DetailsVatAsWrittenDisagreesUnderOneGram` | `Pricing.DetailsVat` |
