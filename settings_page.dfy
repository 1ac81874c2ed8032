/**
 * The settings page's fee-schedule editor: the per-karat range lists it
 * edits in place, the design tab selected per karat, and the design list it
 * shows (with a fixed fallback when a karat has no ranges). The blocking
 * `prompt`/`confirm` dialogs and the field parsers are parameters.
 */
module SettingsPage {
  import opened Common
  import opened FeeSchedule
  import opened JsText
  import opened ManufacturingDefaults

  /** Shown, and treated as existing, when a karat has no ranges. */
  const FALLBACK_DESIGNS: seq<string> := ["محلي", "ايطالي", "هندي", "غوايش", "سويسري"]

  /** The range every new design or `addRange` starts with. */
  function NewRange(d: string): FeeRange {
    FeeRange(d, 1.0, 2.0, 100.0)
  }

  /** `getAllDesignsForKarat`: the karat's distinct designs in
      first-occurrence order, or the five fallback names when it has no
      ranges. */
  function AllDesignsForKarat(settings: Settings, k: Karat): (ds: seq<string>)
    ensures RangesFor(settings, k) == [] ==> ds == FALLBACK_DESIGNS
    ensures RangesFor(settings, k) != [] ==> ds == DesignsForKarat(settings, k)
    ensures ds != []
  {
    var u := UniqueDesigns(RangesFor(settings, k));
    if |u| == 0 then FALLBACK_DESIGNS else u
  }

  /** The designs shown for a karat with ranges are exactly the designs of
      its ranges, in first-occurrence order; in every case none repeats. */
  lemma AllDesignsForKaratLists(settings: Settings, k: Karat)
    ensures var ds := AllDesignsForKarat(settings, k);
      && (RangesFor(settings, k) != [] ==>
            && (forall d :: d in ds <==> d in DesignsOf(RangesFor(settings, k)))
            && (forall i, j :: 0 <= i < j < |ds| ==> FirstIndex(RangesFor(settings, k), ds[i]) < FirstIndex(RangesFor(settings, k), ds[j])))
      && (forall i, j :: 0 <= i < j < |ds| ==> ds[i] != ds[j])
  {
    FallbackDistinct();
  }

  /** A tab `renderDesignTabs` keeps: set, not empty, and listed. */
  predicate KeptTab(tab: Option<string>, designs: seq<string>) {
    tab.Some? && tab.value != "" && tab.value in designs
  }

  lemma FallbackDistinct()
    ensures forall i, j :: 0 <= i < j < |FALLBACK_DESIGNS| ==> FALLBACK_DESIGNS[i] != FALLBACK_DESIGNS[j]
  {
    var f := FALLBACK_DESIGNS;
    assert f[0][0] != f[1][0] && f[0][0] != f[2][0] && f[0][0] != f[3][0] && f[0][0] != f[4][0];
    assert f[1][0] != f[2][0] && f[1][0] != f[3][0] && f[1][0] != f[4][0];
    assert f[2][0] != f[3][0] && f[2][0] != f[4][0];
    assert f[3][0] != f[4][0];
  }

  /** Appending a range of a design the list does not have adds that design
      with exactly that one range, and leaves every other design's ranges
      as they were. */
  lemma {:induction false} AppendNewDesign(ranges: seq<FeeRange>, x: FeeRange, e: string)
    requires x.design !in DesignsOf(ranges)
    ensures DesignRanges(ranges + [x], x.design) == [x]
    ensures e != x.design ==> DesignRanges(ranges + [x], e) == DesignRanges(ranges, e)
    ensures UniqueDesigns(ranges + [x]) == UniqueDesigns(ranges) + [x.design]
  {
    DesignRangesEmptyIffAbsent(ranges, x.design);
    DesignRangesAppend(ranges, [x], x.design);
    DesignRangesAppend(ranges, [x], e);
    assert (ranges + [x])[..|ranges|] == ranges;
  }

  /** What `addDesign` does to a karat's list that lacks the design: the
      design gets that one new range, and it is listed last. */
  lemma AddedDesignIsListedLast(settings: Settings, k: Karat, name: string)
    requires k in settings && name != "" && name !in AllDesignsForKarat(settings, k)
    ensures var added := settings[k := settings[k] + [NewRange(name)]];
      && DesignRanges(RangesFor(added, k), name) == [NewRange(name)]
      && DesignsForKarat(added, k) == DesignsForKarat(settings, k) + [name]
      && KeptTab(Some(name), AllDesignsForKarat(added, k))
  {
    var ranges := settings[k];
    var added := settings[k := ranges + [NewRange(name)]];
    AllDesignsForKaratLists(settings, k);
    assert name !in DesignsOf(ranges) by {
      if ranges == [] {
        assert DesignsOf(ranges) == [];
      }
    }
    AppendNewDesign(ranges, NewRange(name), name);
    assert RangesFor(added, k) == ranges + [NewRange(name)];
    var u := UniqueDesigns(ranges + [NewRange(name)]);
    assert u == DesignsForKarat(settings, k) + [name];
    assert AllDesignsForKarat(added, k) == u by {
      assert |u| != 0;
    }
    assert u[|u| - 1] == name;
  }

  /** After `removeDesign`, the design is no longer listed unless the
      karat is left with no ranges (the fallback names are then shown). */
  lemma RemovedDesignIsUnselectable(settings: Settings, k: Karat, d: string)
    requires k in settings
    ensures var removed := settings[k := WithoutDesign(settings[k], d)];
      RangesFor(removed, k) != [] ==> d !in AllDesignsForKarat(removed, k)
  {
    var removed := settings[k := WithoutDesign(settings[k], d)];
    assert RangesFor(removed, k) == WithoutDesign(settings[k], d);
    WithoutDesignKeepsOthers(settings[k], d, d);
    DesignRangesEmptyIffAbsent(WithoutDesign(settings[k], d), d);
    AllDesignsForKaratLists(removed, k);
  }

  /** Appending a range of a design puts it after that design's other
      ranges and leaves every other design's ranges as they were. */
  lemma {:induction false} AppendRangeOfDesign(ranges: seq<FeeRange>, x: FeeRange, e: string)
    ensures DesignRanges(ranges + [x], x.design) == DesignRanges(ranges, x.design) + [x]
    ensures e != x.design ==> DesignRanges(ranges + [x], e) == DesignRanges(ranges, e)
  {
    DesignRangesAppend(ranges, [x], x.design);
    DesignRangesAppend(ranges, [x], e);
  }

  /** After removing a design, the listed designs are the old ones without
      it. */
  lemma RemovedDesignIsUnlisted(ranges: seq<FeeRange>, d: string)
    ensures forall e :: e in UniqueDesigns(WithoutDesign(ranges, d)) <==> e in UniqueDesigns(ranges) && e != d
  {
    forall e ensures e in DesignsOf(WithoutDesign(ranges, d)) <==> e in DesignsOf(ranges) && e != d {
      WithoutDesignKeepsOthers(ranges, d, e);
      DesignRangesEmptyIffAbsent(WithoutDesign(ranges, d), e);
      DesignRangesEmptyIffAbsent(ranges, e);
    }
  }

  /** On the built-in schedule, removing the Italian 18-karat design
      leaves the Local design selected, so a following `addRange` appends a
      Local range. */
  lemma RemovingItalianSelectsLocal()
    ensures var removed := DEFAULT_MANUFACTURING_SETTINGS[K18 := WithoutDesign(DEFAULT_MANUFACTURING_SETTINGS[K18], ITALIAN)];
      AllDesignsForKarat(removed, K18)[0] == LOCAL
  {
    var removed := DEFAULT_MANUFACTURING_SETTINGS[K18 := WithoutDesign(DEFAULT_MANUFACTURING_SETTINGS[K18], ITALIAN)];
    var w := WithoutDesign(RANGES_18, ITALIAN);
    assert RangesFor(removed, K18) == w;
    RemovedDesignIsUnlisted(RANGES_18, ITALIAN);
    Ranges18Designs();
    var u := UniqueDesigns(w);
    assert LOCAL in u;
    assert AllDesignsForKarat(removed, K18) == u;
    assert u[0] in UniqueDesigns(RANGES_18) && u[0] != ITALIAN;
  }

  /** The 18-karat defaults have exactly the Italian and Local designs. */
  lemma Ranges18Designs()
    ensures LOCAL in DesignsOf(RANGES_18)
    ensures forall e :: e in DesignsOf(RANGES_18) ==> e == ITALIAN || e == LOCAL
  {
    assert RANGES_18 == ITALIAN_18 + LOCAL_18;
    assert DesignsOf(RANGES_18)[5] == LOCAL;
    forall i | 0 <= i < |RANGES_18| ensures DesignsOf(RANGES_18)[i] in [ITALIAN, LOCAL] {
    }
  }

  /** The outcome of `addDesign`, which otherwise shows only alerts. */
  datatype AddDesignResult =
    | Blank          // cancelled, or a name of only whitespace
    | Duplicate      // the trimmed name is already listed (alert)
    | NoRangeList    // the karat has no list to push to: a TypeError escapes
    | Added(name: string)

  class FeeScheduleEditor {
    var manufacturingSettings: Settings
    var selectedDesignTab: map<Karat, Option<string>>

    /** The schedule loaded from the store and no design tab selected, then
        `renderSettings` on load: every karat's tab is its first listed
        design. */
    constructor (settings: Settings)
      ensures manufacturingSettings == settings
      ensures selectedDesignTab.Keys == {K18, K21, K24}
      ensures SelectedTab(K18) == Some(AllDesignsForKarat(settings, K18)[0])
      ensures SelectedTab(K21) == Some(AllDesignsForKarat(settings, K21)[0])
      ensures SelectedTab(K24) == Some(AllDesignsForKarat(settings, K24)[0])
    {
      manufacturingSettings := settings;
      selectedDesignTab := map[K18 := None, K21 := None, K24 := None];
      new;
      RenderDesignTabs(K18);
      RenderDesignTabs(K21);
      RenderDesignTabs(K24);
    }

    /** The selected design tab of a karat (`null` when none). */
    function SelectedTab(k: Karat): Option<string>
      reads this
    {
      if k in selectedDesignTab then selectedDesignTab[k] else None
    }

    /** `renderDesignTabs`: keeps the karat's tab while it is set, not
        empty and listed, and otherwise selects the first listed design, so
        afterwards some listed design is always selected. */
    method RenderDesignTabs(k: Karat)
      modifies this`selectedDesignTab
      ensures KeptTab(old(SelectedTab(k)), AllDesignsForKarat(manufacturingSettings, k)) ==>
        selectedDesignTab == old(selectedDesignTab)
      ensures !KeptTab(old(SelectedTab(k)), AllDesignsForKarat(manufacturingSettings, k)) ==>
        selectedDesignTab == old(selectedDesignTab)[k := Some(AllDesignsForKarat(manufacturingSettings, k)[0])]
      ensures SelectedTab(k).Some? && SelectedTab(k).value in AllDesignsForKarat(manufacturingSettings, k)
    {
      var designs := AllDesignsForKarat(manufacturingSettings, k);
      if !KeptTab(SelectedTab(k), designs) {
        selectedDesignTab := selectedDesignTab[k := Some(designs[0])];
      }
    }

    /** A click on a design tab: selects that design and renders the tabs
        again; a listed, non-empty design stays selected. */
    method SelectTab(k: Karat, design: string)
      modifies this`selectedDesignTab
      ensures KeptTab(Some(design), AllDesignsForKarat(manufacturingSettings, k)) ==>
        selectedDesignTab == old(selectedDesignTab)[k := Some(design)]
      ensures !KeptTab(Some(design), AllDesignsForKarat(manufacturingSettings, k)) ==>
        selectedDesignTab == old(selectedDesignTab)[k := Some(AllDesignsForKarat(manufacturingSettings, k)[0])]
      ensures SelectedTab(k).Some? && SelectedTab(k).value in AllDesignsForKarat(manufacturingSettings, k)
    {
      ghost var before := selectedDesignTab;
      selectedDesignTab := selectedDesignTab[k := Some(design)];
      RenderDesignTabs(k);
      assert !KeptTab(Some(design), AllDesignsForKarat(manufacturingSettings, k)) ==>
        selectedDesignTab == before[k := Some(design)][k := Some(AllDesignsForKarat(manufacturingSettings, k)[0])];
    }

    /** `addDesign`, with the `prompt` answer as `answer` (`None` when
        cancelled). */
    method AddDesign(k: Karat, answer: Option<string>) returns (result: AddDesignResult)
      modifies this
      ensures answer.None? || Trim(answer.value) == [] ==> result == Blank
      ensures answer.Some? && Trim(answer.value) != [] && Trim(answer.value) in AllDesignsForKarat(old(manufacturingSettings), k)
        ==> result == Duplicate
      ensures answer.Some? && Trim(answer.value) != [] && Trim(answer.value) !in AllDesignsForKarat(old(manufacturingSettings), k)
        ==> result == (if k in old(manufacturingSettings) then Added(Trim(answer.value)) else NoRangeList)
      ensures !result.Added? ==>
        manufacturingSettings == old(manufacturingSettings) && selectedDesignTab == old(selectedDesignTab)
      ensures result.Added? ==>
        && manufacturingSettings == old(manufacturingSettings)[k := old(manufacturingSettings)[k] + [NewRange(result.name)]]
        && selectedDesignTab == old(selectedDesignTab)[k := Some(result.name)]
        && result.name in AllDesignsForKarat(manufacturingSettings, k)
      ensures result.Added? ==>
        && DesignRanges(RangesFor(manufacturingSettings, k), result.name) == [NewRange(result.name)]
        && DesignsForKarat(manufacturingSettings, k) == DesignsForKarat(old(manufacturingSettings), k) + [result.name]
    {
      if answer.None? || Trim(answer.value) == [] {
        return Blank;
      }
      var trimmed := Trim(answer.value);
      var existingDesigns := AllDesignsForKarat(manufacturingSettings, k);
      if trimmed in existingDesigns {
        return Duplicate;
      }
      if k !in manufacturingSettings {
        return NoRangeList;
      }
      AppendDesign(k, trimmed);
      result := Added(trimmed);
    }

    /** The edit `addDesign` makes once the name has passed its checks:
        appends the design's first range, selects its tab, and renders the
        tabs again, which keeps that tab. */
    method AppendDesign(k: Karat, name: string)
      requires k in manufacturingSettings && name != "" && name !in AllDesignsForKarat(manufacturingSettings, k)
      modifies this
      ensures manufacturingSettings == old(manufacturingSettings)[k := old(manufacturingSettings)[k] + [NewRange(name)]]
      ensures selectedDesignTab == old(selectedDesignTab)[k := Some(name)]
      ensures KeptTab(Some(name), AllDesignsForKarat(manufacturingSettings, k))
      ensures DesignRanges(RangesFor(manufacturingSettings, k), name) == [NewRange(name)]
      ensures DesignsForKarat(manufacturingSettings, k) == DesignsForKarat(old(manufacturingSettings), k) + [name]
    {
      AddedDesignIsListedLast(manufacturingSettings, k, name);
      manufacturingSettings := manufacturingSettings[k := manufacturingSettings[k] + [NewRange(name)]];
      selectedDesignTab := selectedDesignTab[k := Some(name)];
      RenderDesignTabs(k);
    }

    /** `removeDesign`, with the `confirm` answer as `confirmed`: removes
        every range of the design, clears the karat's tab and renders the
        tabs again, which selects the first design still listed. Returns
        whether it did (a karat with no list raises a TypeError). */
    method RemoveDesign(k: Karat, d: string, confirmed: bool) returns (removed: bool)
      modifies this
      ensures removed <==> confirmed && k in old(manufacturingSettings)
      ensures !removed ==> manufacturingSettings == old(manufacturingSettings) && selectedDesignTab == old(selectedDesignTab)
      ensures removed ==>
        && manufacturingSettings == old(manufacturingSettings)[k := WithoutDesign(old(manufacturingSettings)[k], d)]
        && selectedDesignTab == old(selectedDesignTab)[k := Some(AllDesignsForKarat(manufacturingSettings, k)[0])]
      ensures removed && RangesFor(manufacturingSettings, k) != [] ==> SelectedTab(k).value != d
      ensures removed ==>
        && DesignRanges(manufacturingSettings[k], d) == []
        && (forall e :: e != d ==> DesignRanges(manufacturingSettings[k], e) == DesignRanges(old(manufacturingSettings)[k], e))
        && (forall e :: e in DesignsForKarat(manufacturingSettings, k) <==> e in DesignsForKarat(old(manufacturingSettings), k) && e != d)
    {
      if !confirmed || k !in manufacturingSettings {
        return false;
      }
      var ranges := manufacturingSettings[k];
      forall e | e != d ensures DesignRanges(WithoutDesign(ranges, d), e) == DesignRanges(ranges, e) {
        WithoutDesignKeepsOthers(ranges, d, e);
      }
      WithoutDesignKeepsOthers(ranges, d, d);
      RemovedDesignIsUnlisted(ranges, d);
      RemovedDesignIsUnselectable(manufacturingSettings, k, d);
      manufacturingSettings := manufacturingSettings[k := WithoutDesign(ranges, d)];
      selectedDesignTab := selectedDesignTab[k := None];
      RenderDesignTabs(k);
      removed := true;
    }

    /** `addRange`: appends a new range to the selected design; with no
        design selected (alert) or no list for the karat (TypeError)
        nothing changes. */
    method AddRange(k: Karat) returns (added: bool)
      modifies this`manufacturingSettings
      ensures added <==> SelectedTab(k).Some? && SelectedTab(k).value != "" && k in old(manufacturingSettings)
      ensures !added ==> manufacturingSettings == old(manufacturingSettings)
      ensures added ==>
        manufacturingSettings == old(manufacturingSettings)[k := old(manufacturingSettings)[k] + [NewRange(SelectedTab(k).value)]]
      ensures added ==>
        && DesignRanges(manufacturingSettings[k], SelectedTab(k).value)
             == DesignRanges(old(manufacturingSettings)[k], SelectedTab(k).value) + [NewRange(SelectedTab(k).value)]
        && (forall e :: e != SelectedTab(k).value ==> DesignRanges(manufacturingSettings[k], e) == DesignRanges(old(manufacturingSettings)[k], e))
    {
      var design := SelectedTab(k);
      if design.None? || design.value == "" || k !in manufacturingSettings {
        return false;
      }
      var ranges := manufacturingSettings[k];
      forall e ensures e != design.value ==> DesignRanges(ranges + [NewRange(design.value)], e) == DesignRanges(ranges, e) {
        AppendRangeOfDesign(ranges, NewRange(design.value), e);
      }
      AppendRangeOfDesign(ranges, NewRange(design.value), design.value);
      manufacturingSettings := manufacturingSettings[k := ranges + [NewRange(design.value)]];
      added := true;
    }

    /** `updateRangeByDesign`: sets one field of the `index`-th range of the
        design, counting within the design, with `parseFloat(value) || 0`
        (`parsedFloat`) for "from"/"to" and `parseInt(value) || 0`
        (`parsedInt`, `None` for NaN) for "fee". An index outside the
        design's ranges, or any other field name, changes nothing. */
    method UpdateRangeByDesign(k: Karat, d: string, index: int, field: string, parsedFloat: JsNumber, parsedInt: Option<int>)
      modifies this`manufacturingSettings
      ensures var dr := DesignRanges(RangesFor(old(manufacturingSettings), k), d);
        !(0 <= index < |dr| && field in ["from", "to", "fee"]) ==> manufacturingSettings == old(manufacturingSettings)
      ensures var ranges := RangesFor(old(manufacturingSettings), k);
        var dr := DesignRanges(ranges, d);
        0 <= index < |dr| && field in ["from", "to", "fee"] ==>
          var r := dr[index];
          var x := if field == "from" then r.(from := OrZero(parsedFloat))
                   else if field == "to" then r.(to := OrZero(parsedFloat))
                   else r.(fee := if parsedInt.Some? then parsedInt.value as real else 0.0);
          && manufacturingSettings == old(manufacturingSettings)[k := ranges[NthPosition(ranges, d, index) := x]]
          && DesignRanges(manufacturingSettings[k], d) == dr[index := x]
          && (forall e :: e != d ==> DesignRanges(manufacturingSettings[k], e) == DesignRanges(ranges, e))
    {
      var ranges := RangesFor(manufacturingSettings, k);
      var designRanges := DesignRanges(ranges, d);
      if 0 <= index < |designRanges| {
        var originalIndex := NthPosition(ranges, d, index);
        var r := ranges[originalIndex];
        var x := r;
        if field == "from" {
          x := r.(from := OrZero(parsedFloat));
        } else if field == "to" {
          x := r.(to := OrZero(parsedFloat));
        } else if field == "fee" {
          x := r.(fee := if parsedInt.Some? then parsedInt.value as real else 0.0);
        } else {
          return;
        }
        forall e | e != d ensures DesignRanges(ranges[originalIndex := x], e) == DesignRanges(ranges, e) {
          ReplaceNth(ranges, d, index, x, e);
        }
        ReplaceNth(ranges, d, index, x, d);
        manufacturingSettings := manufacturingSettings[k := ranges[originalIndex := x]];
      }
    }

    /** `removeRangeByDesign`: deletes the `index`-th range of the design,
        counting within the design; an index outside them changes
        nothing. */
    method RemoveRangeByDesign(k: Karat, d: string, index: int)
      modifies this`manufacturingSettings
      ensures var dr := DesignRanges(RangesFor(old(manufacturingSettings), k), d);
        !(0 <= index < |dr|) ==> manufacturingSettings == old(manufacturingSettings)
      ensures var ranges := RangesFor(old(manufacturingSettings), k);
        var dr := DesignRanges(ranges, d);
        0 <= index < |dr| ==>
          var p := NthPosition(ranges, d, index);
          && manufacturingSettings == old(manufacturingSettings)[k := ranges[..p] + ranges[p + 1..]]
          && |manufacturingSettings[k]| == |ranges| - 1
          && DesignRanges(manufacturingSettings[k], d) == dr[..index] + dr[index + 1..]
          && (forall e :: e != d ==> DesignRanges(manufacturingSettings[k], e) == DesignRanges(ranges, e))
    {
      var ranges := RangesFor(manufacturingSettings, k);
      var designRanges := DesignRanges(ranges, d);
      if 0 <= index < |designRanges| {
        var originalIndex := NthPosition(ranges, d, index);
        forall e | e != d ensures DesignRanges(ranges[..originalIndex] + ranges[originalIndex + 1..], e) == DesignRanges(ranges, e) {
          RemoveNth(ranges, d, index, e);
        }
        RemoveNth(ranges, d, index, d);
        manufacturingSettings := manufacturingSettings[k := ranges[..originalIndex] + ranges[originalIndex + 1..]];
      }
    }
  }
}
