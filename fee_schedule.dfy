/**
 * The manufacturing-fee schedule that the pricing screen reads and the
 * settings page edits: per karat, a list of `{design, from, to, fee}`
 * records. The list operations here are shared by both screens.
 */
module FeeSchedule {
  import opened Common

  /** The three karats the calculator offers. */
  datatype Karat = K18 | K21 | K24

  /** One weight bracket of a design: `from` and `to` are inclusive bounds in
      grams, `fee` is the manufacturing fee per gram. */
  datatype FeeRange = FeeRange(design: string, from: real, to: real, fee: real)

  /** `manufacturingSettings`: karat key to its list of ranges. A key may be
      missing when the stored object lacks it. */
  type Settings = map<Karat, seq<FeeRange>>

  /** `manufacturingSettings[karat.toString()] || []` */
  function RangesFor(settings: Settings, k: Karat): (r: seq<FeeRange>)
    ensures k in settings ==> r == settings[k]
    ensures k !in settings ==> r == []
  {
    if k in settings then settings[k] else []
  }

  /** `ranges.map(r => r.design)` */
  function DesignsOf(ranges: seq<FeeRange>): (ds: seq<string>)
    ensures |ds| == |ranges|
    ensures forall k :: 0 <= k < |ranges| ==> ds[k] == ranges[k].design
  {
    seq(|ranges|, k requires 0 <= k < |ranges| => ranges[k].design)
  }

  /** `ranges.filter(r => r.design === design)` */
  function DesignRanges(ranges: seq<FeeRange>, d: string): (r: seq<FeeRange>)
    ensures |r| <= |ranges|
  {
    if ranges == [] then []
    else (if ranges[0].design == d then [ranges[0]] else []) + DesignRanges(ranges[1..], d)
  }

  /** Every range the filter keeps is of the design. */
  lemma {:induction false} DesignRangesAreOfDesign(ranges: seq<FeeRange>, d: string)
    ensures forall k :: 0 <= k < |DesignRanges(ranges, d)| ==> DesignRanges(ranges, d)[k].design == d
  {
    if ranges != [] {
      DesignRangesAreOfDesign(ranges[1..], d);
    }
  }

  /** `ranges.filter(r => r.design !== design)` */
  function WithoutDesign(ranges: seq<FeeRange>, d: string): (r: seq<FeeRange>)
    ensures |r| <= |ranges|
  {
    if ranges == [] then []
    else (if ranges[0].design != d then [ranges[0]] else []) + WithoutDesign(ranges[1..], d)
  }

  /** No range the removal keeps is of the removed design. */
  lemma {:induction false} WithoutDesignHasNone(ranges: seq<FeeRange>, d: string)
    ensures forall k :: 0 <= k < |WithoutDesign(ranges, d)| ==> WithoutDesign(ranges, d)[k].design != d
  {
    if ranges != [] {
      WithoutDesignHasNone(ranges[1..], d);
    }
  }

  lemma {:induction false} DesignRangesAppend(a: seq<FeeRange>, b: seq<FeeRange>, d: string)
    ensures DesignRanges(a + b, d) == DesignRanges(a, d) + DesignRanges(b, d)
  {
    if a == [] {
      assert a + b == b;
    } else {
      var h := if a[0].design == d then [a[0]] else [];
      assert (a + b)[0] == a[0];
      assert (a + b)[1..] == a[1..] + b;
      DesignRangesAppend(a[1..], b, d);
      calc {
        DesignRanges(a + b, d);
        h + DesignRanges(a[1..] + b, d);
        h + (DesignRanges(a[1..], d) + DesignRanges(b, d));
        (h + DesignRanges(a[1..], d)) + DesignRanges(b, d);
      }
    }
  }

  lemma {:induction false} WithoutDesignAppend(a: seq<FeeRange>, b: seq<FeeRange>, d: string)
    ensures WithoutDesign(a + b, d) == WithoutDesign(a, d) + WithoutDesign(b, d)
  {
    if a == [] {
      assert a + b == b;
    } else {
      var h := if a[0].design != d then [a[0]] else [];
      assert (a + b)[0] == a[0];
      assert (a + b)[1..] == a[1..] + b;
      WithoutDesignAppend(a[1..], b, d);
      calc {
        WithoutDesign(a + b, d);
        h + WithoutDesign(a[1..] + b, d);
        h + (WithoutDesign(a[1..], d) + WithoutDesign(b, d));
        (h + WithoutDesign(a[1..], d)) + WithoutDesign(b, d);
      }
    }
  }

  /**
   * The position in the whole list of the `i`-th range of design `d`, as
   * `ranges.indexOf(designRanges[index])` finds it (by object identity, so
   * an equal-valued range elsewhere does not confuse it).
   */
  function NthPosition(ranges: seq<FeeRange>, d: string, i: nat): (p: nat)
    requires i < |DesignRanges(ranges, d)|
    ensures p < |ranges| && ranges[p].design == d
    ensures ranges[p] == DesignRanges(ranges, d)[i]
  {
    if ranges[0].design == d then
      if i == 0 then 0 else 1 + NthPosition(ranges[1..], d, i - 1)
    else 1 + NthPosition(ranges[1..], d, i)
  }

  /** Exactly `i` ranges of `d` come before `NthPosition(ranges, d, i)`. */
  lemma {:induction false} NthPositionCount(ranges: seq<FeeRange>, d: string, i: nat)
    requires i < |DesignRanges(ranges, d)|
    ensures |DesignRanges(ranges[..NthPosition(ranges, d, i)], d)| == i
  {
    if ranges[0].design == d && i == 0 {
      assert ranges[..0] == [];
    } else {
      var j := if ranges[0].design == d then i - 1 else i;
      NthPositionCount(ranges[1..], d, j);
      var q := NthPosition(ranges[1..], d, j);
      PrefixAfterHead(ranges, q + 1, d);
    }
  }

  /** Filtering a non-empty prefix looks at its first range, then at the rest
      of the prefix. */
  lemma PrefixAfterHead(ranges: seq<FeeRange>, n: nat, d: string)
    requires 0 < n <= |ranges|
    ensures DesignRanges(ranges[..n], d)
      == (if ranges[0].design == d then [ranges[0]] else []) + DesignRanges(ranges[1..][..n - 1], d)
  {
    assert ranges[..n][0] == ranges[0];
    assert ranges[..n][1..] == ranges[1..][..n - 1];
  }

  /** A list is the part before a position, the element there and the part
      after it. */
  lemma SplitAt<T>(s: seq<T>, p: nat)
    requires p < |s|
    ensures s == s[..p] + [s[p]] + s[p + 1..]
  {
  }

  /** The pieces of `a + [x] + b`, and what replacing the middle gives. */
  lemma Pieces<T>(a: seq<T>, x: T, b: seq<T>, z: T)
    ensures var s := a + [x] + b;
      && |s| == |a| + 1 + |b| && s[|a|] == x
      && s[..|a|] == a && s[|a| + 1..] == b
      && s[|a| := z] == a + [z] + b
  {
    var s := a + [x] + b;
    assert s[..|a|] == a;
    assert s[|a| + 1..] == b;
    assert s[|a| := z] == a + [z] + b;
  }

  /** The ranges of `d` before `NthPosition(ranges, d, i)` are its first
      `i`, and those after it the rest. */
  lemma NthPositionSplits(ranges: seq<FeeRange>, d: string, i: nat)
    requires i < |DesignRanges(ranges, d)|
    ensures var p := NthPosition(ranges, d, i);
      && DesignRanges(ranges[..p], d) == DesignRanges(ranges, d)[..i]
      && DesignRanges(ranges[p + 1..], d) == DesignRanges(ranges, d)[i + 1..]
  {
    var p := NthPosition(ranges, d, i);
    var pre, y, post := ranges[..p], ranges[p], ranges[p + 1..];
    SplitAt(ranges, p);
    DesignRangesAround(pre, y, post, d);
    NthPositionCount(ranges, d, i);
    Pieces(DesignRanges(pre, d), y, DesignRanges(post, d), y);
  }

  lemma DesignRangesSingle(y: FeeRange, d: string)
    ensures DesignRanges([y], d) == if y.design == d then [y] else []
  {
    assert [y][1..] == [];
  }

  /** Filtering a list with one range singled out. */
  lemma DesignRangesAround(pre: seq<FeeRange>, y: FeeRange, post: seq<FeeRange>, d: string)
    ensures DesignRanges(pre + [y] + post, d) == DesignRanges(pre, d) + (if y.design == d then [y] else []) + DesignRanges(post, d)
  {
    DesignRangesAppend(pre + [y], post, d);
    DesignRangesAppend(pre, [y], d);
    DesignRangesSingle(y, d);
  }

  /** Removing the range at `NthPosition(ranges, d, i)` removes exactly the
      `i`-th range of `d`: one range fewer, the other ranges of `d` in their
      order, every other design's ranges untouched. */
  lemma RemoveNth(ranges: seq<FeeRange>, d: string, i: nat, e: string)
    requires i < |DesignRanges(ranges, d)|
    ensures var p := NthPosition(ranges, d, i);
      var rest := ranges[..p] + ranges[p + 1..];
      && |rest| == |ranges| - 1
      && DesignRanges(rest, d) == DesignRanges(ranges, d)[..i] + DesignRanges(ranges, d)[i + 1..]
      && (e != d ==> DesignRanges(rest, e) == DesignRanges(ranges, e))
  {
    var p := NthPosition(ranges, d, i);
    var pre, y, post := ranges[..p], ranges[p], ranges[p + 1..];
    SplitAt(ranges, p);
    NthPositionSplits(ranges, d, i);
    DesignRangesAppend(pre, post, d);
    DesignRangesAppend(pre, post, e);
    DesignRangesAround(pre, y, post, e);
  }

  /** Replacing the range at `NthPosition(ranges, d, i)` by one of the same
      design replaces exactly the `i`-th range of `d`; other designs are
      untouched. */
  lemma ReplaceNth(ranges: seq<FeeRange>, d: string, i: nat, x: FeeRange, e: string)
    requires i < |DesignRanges(ranges, d)|
    requires x.design == d
    ensures var p := NthPosition(ranges, d, i);
      && DesignRanges(ranges[p := x], d) == DesignRanges(ranges, d)[i := x]
      && (e != d ==> DesignRanges(ranges[p := x], e) == DesignRanges(ranges, e))
  {
    var p := NthPosition(ranges, d, i);
    var pre, y, post := ranges[..p], ranges[p], ranges[p + 1..];
    SplitAt(ranges, p);
    Pieces(pre, y, post, x);
    DesignRangesAround(pre, y, post, d);
    DesignRangesAround(pre, x, post, d);
    NthPositionCount(ranges, d, i);
    Pieces(DesignRanges(pre, d), y, DesignRanges(post, d), x);
    DesignRangesAround(pre, y, post, e);
    DesignRangesAround(pre, x, post, e);
  }

  /** Filtering out design `d` keeps every other design's ranges, in order,
      and removes exactly the ranges of `d`. */
  lemma {:induction false} WithoutDesignKeepsOthers(ranges: seq<FeeRange>, d: string, e: string)
    ensures DesignRanges(WithoutDesign(ranges, d), d) == []
    ensures e != d ==> DesignRanges(WithoutDesign(ranges, d), e) == DesignRanges(ranges, e)
    ensures |WithoutDesign(ranges, d)| == |ranges| - |DesignRanges(ranges, d)|
  {
    if ranges != [] {
      WithoutDesignKeepsOthers(ranges[1..], d, e);
      var head := if ranges[0].design != d then [ranges[0]] else [];
      DesignRangesAppend(head, WithoutDesign(ranges[1..], d), d);
      DesignRangesAppend(head, WithoutDesign(ranges[1..], d), e);
    }
  }

  /** The first position of a design in the list, or the list's length
      when the design does not occur. */
  function FirstIndex(ranges: seq<FeeRange>, d: string): (p: nat)
    ensures p <= |ranges|
    ensures p < |ranges| ==> ranges[p].design == d
    ensures forall k :: 0 <= k < p ==> ranges[k].design != d
  {
    if ranges == [] then 0
    else if ranges[0].design == d then 0
    else 1 + FirstIndex(ranges[1..], d)
  }

  /** A design occurs exactly when its first position is inside the list. */
  lemma FirstIndexFound(ranges: seq<FeeRange>, d: string)
    ensures d in DesignsOf(ranges) <==> FirstIndex(ranges, d) < |ranges|
  {
    var p := FirstIndex(ranges, d);
    if p < |ranges| {
      assert DesignsOf(ranges)[p] == d;
    }
  }

  /** Appending a range does not move the first position of a design that
      already occurs, and a new design first occurs at the appended range. */
  lemma FirstIndexOfAppend(init: seq<FeeRange>, r: FeeRange, d: string)
    ensures FirstIndex(init, d) < |init| ==> FirstIndex(init + [r], d) == FirstIndex(init, d)
    ensures FirstIndex(init, d) == |init| && r.design == d ==> FirstIndex(init + [r], d) == |init|
  {
    var p := FirstIndex(init, d);
    if p < |init| {
      assert (init + [r])[p] == init[p];
      assert forall k :: 0 <= k < p ==> (init + [r])[k] == init[k];
    } else if r.design == d {
      assert (init + [r])[|init|] == r;
      assert forall k :: 0 <= k < |init| ==> (init + [r])[k] == init[k];
    }
  }

  /**
   * `[...new Set(ranges.map(r => r.design))]`: each design once, in the order
   * of its first appearance. Written as the Set's insertions, front to back.
   */
  function UniqueDesigns(ranges: seq<FeeRange>): (u: seq<string>)
    ensures forall d :: d in u <==> d in DesignsOf(ranges)
    ensures forall i, j :: 0 <= i < j < |u| ==> u[i] != u[j]
    ensures forall i, j :: 0 <= i < j < |u| ==> FirstIndex(ranges, u[i]) < FirstIndex(ranges, u[j])
    ensures |u| == 0 <==> ranges == []
  {
    if ranges == [] then []
    else
      var n := |ranges| - 1;
      var init := ranges[..n];
      var u := UniqueDesigns(init);
      UniqueDesignsMembers(ranges, u);
      UniqueDesignsOrder(ranges, u);
      if ranges[n].design in u then u else u + [ranges[n].design]
  }

  /** Inserting the design of the last range into the Set of the earlier
      ones' designs: the designs are those of the whole list, each once. */
  lemma UniqueDesignsMembers(ranges: seq<FeeRange>, u: seq<string>)
    requires ranges != []
    requires forall d :: d in u <==> d in DesignsOf(ranges[..|ranges| - 1])
    requires forall i, j :: 0 <= i < j < |u| ==> u[i] != u[j]
    ensures var d := ranges[|ranges| - 1].design;
      var v := if d in u then u else u + [d];
      && (forall e :: e in v <==> e in DesignsOf(ranges))
      && (forall i, j :: 0 <= i < j < |v| ==> v[i] != v[j])
  {
    var n := |ranges| - 1;
    assert ranges == ranges[..n] + [ranges[n]];
    assert DesignsOf(ranges) == DesignsOf(ranges[..n]) + [ranges[n].design];
  }

  /** The insertion keeps the designs in first-occurrence order: an old
      design first occurs where it did, a new one at the end. */
  lemma UniqueDesignsOrder(ranges: seq<FeeRange>, u: seq<string>)
    requires ranges != []
    requires forall d :: d in u <==> d in DesignsOf(ranges[..|ranges| - 1])
    requires forall i, j :: 0 <= i < j < |u| ==> FirstIndex(ranges[..|ranges| - 1], u[i]) < FirstIndex(ranges[..|ranges| - 1], u[j])
    ensures var d := ranges[|ranges| - 1].design;
      var v := if d in u then u else u + [d];
      forall i, j :: 0 <= i < j < |v| ==> FirstIndex(ranges, v[i]) < FirstIndex(ranges, v[j])
  {
    var n := |ranges| - 1;
    var init, r := ranges[..n], ranges[n];
    assert ranges == init + [r];
    AppendKeepsOrder(init, r, u);
    var v := if r.design in u then u else u + [r.design];
    forall i, j | 0 <= i < j < |v| ensures FirstIndex(ranges, v[i]) < FirstIndex(ranges, v[j]) {
      assert FirstIndex(init + [r], v[i]) < FirstIndex(init + [r], v[j]);
    }
  }

  lemma AppendKeepsOrder(init: seq<FeeRange>, r: FeeRange, u: seq<string>)
    requires forall d :: d in u <==> d in DesignsOf(init)
    requires forall i, j :: 0 <= i < j < |u| ==> FirstIndex(init, u[i]) < FirstIndex(init, u[j])
    ensures var v := if r.design in u then u else u + [r.design];
      forall i, j :: 0 <= i < j < |v| ==> FirstIndex(init + [r], v[i]) < FirstIndex(init + [r], v[j])
  {
    forall e | e in u ensures FirstIndex(init, e) < |init| && FirstIndex(init + [r], e) == FirstIndex(init, e) {
      FirstIndexFound(init, e);
      FirstIndexOfAppend(init, r, e);
    }
    if r.design !in u {
      FirstIndexFound(init, r.design);
      FirstIndexOfAppend(init, r, r.design);
    }
  }

  /** The designs the pricing screen lists for a karat (`getDesignsForKarat`). */
  function DesignsForKarat(settings: Settings, k: Karat): (u: seq<string>)
    ensures forall d :: d in u <==> d in DesignsOf(RangesFor(settings, k))
    ensures forall i, j :: 0 <= i < j < |u| ==> u[i] != u[j]
  {
    UniqueDesigns(RangesFor(settings, k))
  }

  /** A design has ranges exactly when it is among the listed designs. */
  lemma {:induction false} DesignRangesEmptyIffAbsent(ranges: seq<FeeRange>, d: string)
    ensures DesignRanges(ranges, d) == [] <==> d !in DesignsOf(ranges)
  {
    if ranges != [] {
      DesignRangesEmptyIffAbsent(ranges[1..], d);
      assert DesignsOf(ranges) == [ranges[0].design] + DesignsOf(ranges[1..]);
    }
  }

  /**
   * Within each design, the ranges are listed in ascending order with
   * pairwise-disjoint intervals: an earlier range of a design lies wholly
   * below every later range of the same design.
   */
  ghost predicate OrderedWithinDesigns(ranges: seq<FeeRange>) {
    forall i, j :: 0 <= i < j < |ranges| && ranges[i].design == ranges[j].design ==>
      ranges[i].to < ranges[j].from
  }

  /** Within each design, fees do not increase as the ranges ascend. */
  ghost predicate FeesNonIncreasing(ranges: seq<FeeRange>) {
    forall i, j :: 0 <= i < j < |ranges| && ranges[i].design == ranges[j].design ==>
      ranges[i].fee >= ranges[j].fee
  }

  /** Every range is a proper interval. */
  ghost predicate Proper(ranges: seq<FeeRange>) {
    forall k :: 0 <= k < |ranges| ==> ranges[k].from <= ranges[k].to
  }

  /** A weight falls in at most one range of a design when the schedule is
      ordered within designs. */
  lemma AtMostOneMatch(ranges: seq<FeeRange>, i: nat, j: nat, w: real)
    requires OrderedWithinDesigns(ranges)
    requires i < |ranges| && j < |ranges| && ranges[i].design == ranges[j].design
    requires ranges[i].from <= w <= ranges[i].to && ranges[j].from <= w <= ranges[j].to
    ensures i == j
  {
  }
}
