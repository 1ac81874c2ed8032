/**
 * The built-in fee schedule, the default design per karat and the karat
 * purity multipliers, with the invariants the schedule keeps.
 */
module ManufacturingDefaults {
  import opened FeeSchedule

  const ITALIAN: string := "ايطالي"
  const LOCAL: string := "محلي"
  const BRACELETS: string := "غوايش"
  const SWISS: string := "سويسري"

  const ITALIAN_18: seq<FeeRange> := [
    FeeRange(ITALIAN, 1.00, 2.00, 200.0),
    FeeRange(ITALIAN, 2.01, 3.00, 175.0),
    FeeRange(ITALIAN, 3.01, 4.00, 150.0),
    FeeRange(ITALIAN, 4.01, 5.00, 125.0),
    FeeRange(ITALIAN, 5.01, 10.00, 100.0)
  ]
  const LOCAL_18: seq<FeeRange> := [
    FeeRange(LOCAL, 1.00, 2.00, 180.0),
    FeeRange(LOCAL, 2.01, 3.00, 160.0),
    FeeRange(LOCAL, 3.01, 4.00, 130.0),
    FeeRange(LOCAL, 4.01, 5.00, 100.0),
    FeeRange(LOCAL, 5.01, 10.00, 80.0)
  ]
  /** Karat 21 repeats the karat-18 brackets for both designs and adds one
      bracelet bracket. */
  const ITALIAN_21: seq<FeeRange> := ITALIAN_18
  const LOCAL_21: seq<FeeRange> := LOCAL_18
  const BRACELETS_21: seq<FeeRange> := [
    FeeRange(BRACELETS, 0.00, 100.00, 40.0)
  ]
  const LOCAL_24: seq<FeeRange> := [
    FeeRange(LOCAL, 0.98, 2.50, 100.0),
    FeeRange(LOCAL, 2.51, 5.00, 80.0)
  ]
  const SWISS_24: seq<FeeRange> := [
    FeeRange(SWISS, 0.98, 2.50, 150.0),
    FeeRange(SWISS, 2.51, 5.00, 130.0)
  ]

  const RANGES_18: seq<FeeRange> := ITALIAN_18 + LOCAL_18
  const RANGES_21: seq<FeeRange> := ITALIAN_21 + LOCAL_21 + BRACELETS_21
  const RANGES_24: seq<FeeRange> := LOCAL_24 + SWISS_24

  /** `DEFAULT_MANUFACTURING_SETTINGS` */
  const DEFAULT_MANUFACTURING_SETTINGS: Settings := map[K18 := RANGES_18, K21 := RANGES_21, K24 := RANGES_24]

  /** `DEFAULT_DESIGN_FOR_KARAT` */
  function DefaultDesignForKarat(k: Karat): string {
    match k
    case K18 => ITALIAN
    case K21 => LOCAL
    case K24 => LOCAL
  }

  /** `KARAT_MULTIPLIERS`: the gold fraction of each karat, k/24. */
  function KaratMultiplier(k: Karat): (m: real)
    ensures 0.0 < m <= 1.0
    ensures m == (match k case K18 => 18.0 case K21 => 21.0 case K24 => 24.0) / 24.0
  {
    match k
    case K24 => 1.0
    case K21 => 0.875
    case K18 => 0.75
  }

  /** One design's brackets, each proper, each wholly below the next and
      charging no more than the one before. */
  predicate Chain(rs: seq<FeeRange>, d: string) {
    if rs == [] then true
    else
      && rs[0].design == d
      && rs[0].from <= rs[0].to
      && (|rs| > 1 ==> rs[0].to < rs[1].from && rs[0].fee >= rs[1].fee)
      && Chain(rs[1..], d)
  }

  /** A chain is ordered and non-increasing pairwise, not just neighbour to
      neighbour. */
  lemma {:induction false} ChainIsOrdered(rs: seq<FeeRange>, d: string)
    requires Chain(rs, d)
    ensures forall k :: 0 <= k < |rs| ==> rs[k].design == d
    ensures Proper(rs) && OrderedWithinDesigns(rs) && FeesNonIncreasing(rs)
  {
    if rs != [] {
      var tail := rs[1..];
      ChainIsOrdered(tail, d);
      if |rs| > 1 {
        assert tail[0] == rs[1];
        forall j | 1 <= j < |rs|
          ensures rs[0].to < rs[j].from && rs[0].fee >= rs[j].fee
        {
          assert rs[j] == tail[j - 1];
          if j > 1 {
            assert tail[0].to < tail[j - 1].from && tail[0].fee >= tail[j - 1].fee;
          }
        }
      }
      forall i, j | 0 <= i < j < |rs|
        ensures rs[i].to < rs[j].from && rs[i].fee >= rs[j].fee
      {
        if i > 0 {
          assert rs[i] == tail[i - 1] && rs[j] == tail[j - 1];
        }
      }
    }
  }

  /** Two schedules of different designs stay ordered when listed one after
      the other. */
  lemma JoinDesigns(a: seq<FeeRange>, da: string, b: seq<FeeRange>, db: string)
    requires da != db
    requires forall k :: 0 <= k < |a| ==> a[k].design == da
    requires forall k :: 0 <= k < |b| ==> b[k].design != da
    requires Proper(a) && OrderedWithinDesigns(a) && FeesNonIncreasing(a)
    requires Proper(b) && OrderedWithinDesigns(b) && FeesNonIncreasing(b)
    ensures Proper(a + b) && OrderedWithinDesigns(a + b) && FeesNonIncreasing(a + b)
  {
    var ab := a + b;
    forall i, j | 0 <= i < j < |ab| && ab[i].design == ab[j].design
      ensures ab[i].to < ab[j].from && ab[i].fee >= ab[j].fee
    {
      if j < |a| {
        assert ab[i] == a[i] && ab[j] == a[j];
      } else if i >= |a| {
        assert ab[i] == b[i - |a|] && ab[j] == b[j - |a|];
      }
    }
    forall k | 0 <= k < |ab| ensures ab[k].from <= ab[k].to {
      if k < |a| { assert ab[k] == a[k]; } else { assert ab[k] == b[k - |a|]; }
    }
  }

  /** Unrolls `Chain` over a five-bracket literal, from its last bracket. */
  lemma FiveChain(rs: seq<FeeRange>, d: string)
    requires |rs| == 5
    requires forall k :: 0 <= k < 5 ==> rs[k].design == d && rs[k].from <= rs[k].to
    requires forall k :: 0 <= k < 4 ==> rs[k].to < rs[k + 1].from && rs[k].fee >= rs[k + 1].fee
    ensures Chain(rs, d)
  {
    assert rs[4..][1..] == [];
    assert Chain(rs[4..], d);
    assert rs[3..][1..] == rs[4..];
    assert Chain(rs[3..], d);
    assert rs[2..][1..] == rs[3..];
    assert Chain(rs[2..], d);
    assert rs[1..][1..] == rs[2..];
    assert Chain(rs[1..], d);
  }

  lemma DistinctDesignNames()
    ensures ITALIAN != LOCAL && ITALIAN != BRACELETS && ITALIAN != SWISS
    ensures LOCAL != BRACELETS && LOCAL != SWISS && BRACELETS != SWISS
  {
    assert ITALIAN[0] != LOCAL[0] && ITALIAN[0] != BRACELETS[0] && ITALIAN[0] != SWISS[0];
    assert LOCAL[0] != BRACELETS[0] && LOCAL[0] != SWISS[0] && BRACELETS[0] != SWISS[0];
  }

  /** Properness, ordering and non-increasing fees of one karat's list. */
  ghost predicate WellOrdered(rs: seq<FeeRange>) {
    Proper(rs) && OrderedWithinDesigns(rs) && FeesNonIncreasing(rs)
  }

  lemma Ranges18Ordered()
    ensures WellOrdered(RANGES_18)
  {
    DistinctDesignNames();
    FiveChain(ITALIAN_18, ITALIAN);
    FiveChain(LOCAL_18, LOCAL);
    ChainIsOrdered(ITALIAN_18, ITALIAN);
    ChainIsOrdered(LOCAL_18, LOCAL);
    JoinDesigns(ITALIAN_18, ITALIAN, LOCAL_18, LOCAL);
  }

  lemma Ranges21Ordered()
    ensures WellOrdered(RANGES_21)
  {
    DistinctDesignNames();
    FiveChain(ITALIAN_21, ITALIAN);
    FiveChain(LOCAL_21, LOCAL);
    assert Chain(BRACELETS_21, BRACELETS);
    ChainIsOrdered(ITALIAN_21, ITALIAN);
    ChainIsOrdered(LOCAL_21, LOCAL);
    ChainIsOrdered(BRACELETS_21, BRACELETS);
    JoinDesigns(LOCAL_21, LOCAL, BRACELETS_21, BRACELETS);
    JoinDesigns(ITALIAN_21, ITALIAN, LOCAL_21 + BRACELETS_21, LOCAL);
    assert RANGES_21 == ITALIAN_21 + (LOCAL_21 + BRACELETS_21);
  }

  lemma Ranges24Ordered()
    ensures WellOrdered(RANGES_24)
  {
    DistinctDesignNames();
    assert LOCAL_24[1..][1..] == [];
    assert SWISS_24[1..][1..] == [];
    assert Chain(LOCAL_24, LOCAL);
    assert Chain(SWISS_24, SWISS);
    ChainIsOrdered(LOCAL_24, LOCAL);
    ChainIsOrdered(SWISS_24, SWISS);
    JoinDesigns(LOCAL_24, LOCAL, SWISS_24, SWISS);
  }

  /**
   * The default table has exactly the three karat keys; every range is
   * proper, and within each karat and design the ranges ascend with
   * disjoint intervals and non-increasing fees, so at most one range
   * matches any weight.
   */
  lemma DefaultsAreOrdered(k: Karat)
    ensures DEFAULT_MANUFACTURING_SETTINGS.Keys == {K18, K21, K24}
    ensures WellOrdered(RangesFor(DEFAULT_MANUFACTURING_SETTINGS, k))
  {
    match k
    case K18 => Ranges18Ordered();
    case K21 => Ranges21Ordered();
    case K24 => Ranges24Ordered();
  }

  /** Each karat's default design has ranges in that karat's default list. */
  lemma DefaultDesignIsListed(k: Karat)
    ensures DefaultDesignForKarat(k) in DesignsOf(RangesFor(DEFAULT_MANUFACTURING_SETTINGS, k))
    ensures DefaultDesignForKarat(k) in DesignsForKarat(DEFAULT_MANUFACTURING_SETTINGS, k)
  {
    var ds := DesignsOf(RangesFor(DEFAULT_MANUFACTURING_SETTINGS, k));
    match k
    case K18 => assert ds[0] == ITALIAN;
    case K21 => assert ds[5] == LOCAL;
    case K24 => assert ds[0] == LOCAL;
  }
}
