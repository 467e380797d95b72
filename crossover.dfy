/**
 * The crossover detector of the "/" handler in index.js: a buy pass and then a
 * sell pass over the two average series, each arming and firing on one flag
 * that the two passes share.
 */
module Crossover {
  import opened Values

  /** JavaScript's `<` on two entries of an average series: false as soon as either side is NaN. */
  predicate Less(x: Option<real>, y: Option<real>)
  {
    x.Some? && y.Some? && x.value < y.value
  }

  /** Entry i of a series, or the sentinel past its end (where the source reads `undefined`). */
  function At(m: seq<Option<real>>, i: nat): Option<real>
  {
    if i < |m| then m[i] else None
  }

  /** The comparison that sets the flag: the long average below the short one for Buy, above it for Sell. */
  predicate Rearms(d: Direction, m5: seq<Option<real>>, m20: seq<Option<real>>, i: nat)
    requires i < |m20|
  {
    match d
    case Buy => Less(m20[i], At(m5, i))
    case Sell => Less(At(m5, i), m20[i])
  }

  /** The comparison that records index i when the flag is set: the mirror of Rearms. */
  predicate Fires(d: Direction, m5: seq<Option<real>>, m20: seq<Option<real>>, i: nat)
    requires i < |m20|
  {
    match d
    case Buy => Less(At(m5, i), m20[i])
    case Sell => Less(m20[i], At(m5, i))
  }

  /** What a pass has built so far: the recorded indices and the flag. */
  datatype PassState = PassState(points: seq<nat>, armed: bool)

  /** One iteration of a pass at index i. */
  function Step(d: Direction, m5: seq<Option<real>>, m20: seq<Option<real>>, i: nat, st: PassState): PassState
    requires i < |m20|
  {
    if m20[i].None? then st
    else
      var armed := st.armed || Rearms(d, m5, m20, i);
      if armed && Fires(d, m5, m20, i) then PassState(st.points + [i], false)
      else PassState(st.points, armed)
  }

  /** The first n iterations of a pass started with the flag at armed0. */
  function Pass(d: Direction, m5: seq<Option<real>>, m20: seq<Option<real>>, n: nat, armed0: bool): PassState
    requires n <= |m20|
  {
    if n == 0 then PassState([], armed0)
    else Step(d, m5, m20, n - 1, Pass(d, m5, m20, n - 1, armed0))
  }

  /**
   * Both passes as the source runs them, appending to the point lists. The
   * flag is declared once: the sell pass starts with whatever value the buy
   * pass left in it.
   */
  method DetectCrossovers(m5: seq<Option<real>>, m20: seq<Option<real>>)
    returns (buyPoints: seq<nat>, sellPoints: seq<nat>)
    ensures buyPoints == Pass(Buy, m5, m20, |m20|, true).points
    ensures sellPoints == Pass(Sell, m5, m20, |m20|, Pass(Buy, m5, m20, |m20|, true).armed).points
  {
    buyPoints := [];
    var shouldAdd := true;
    for i := 0 to |m20|
      invariant PassState(buyPoints, shouldAdd) == Pass(Buy, m5, m20, i, true)
    {
      if m20[i].None? {
        continue;
      }
      if Less(m20[i], At(m5, i)) {
        shouldAdd := true;
      }
      if shouldAdd && Less(At(m5, i), m20[i]) {
        buyPoints := buyPoints + [i];
        shouldAdd := false;
      }
    }
    ghost var afterBuy := shouldAdd;
    sellPoints := [];
    for i := 0 to |m20|
      invariant PassState(sellPoints, shouldAdd) == Pass(Sell, m5, m20, i, afterBuy)
    {
      if m20[i].None? {
        continue;
      }
      if Less(At(m5, i), m20[i]) {
        shouldAdd := true;
      }
      if shouldAdd && Less(m20[i], At(m5, i)) {
        sellPoints := sellPoints + [i];
        shouldAdd := false;
      }
    }
  }

  /** Some index strictly between lo and hi sets the flag of pass d. */
  ghost predicate RearmBetween(d: Direction, m5: seq<Option<real>>, m20: seq<Option<real>>, lo: int, hi: int)
    requires hi <= |m20|
  {
    exists j: nat :: lo < j < hi && Rearms(d, m5, m20, j)
  }

  /** Every recorded index lies below n and fires. */
  ghost predicate PointsFire(d: Direction, m5: seq<Option<real>>, m20: seq<Option<real>>, pts: seq<nat>, n: nat)
    requires n <= |m20|
  {
    forall k :: 0 <= k < |pts| ==> pts[k] < n && Fires(d, m5, m20, pts[k])
  }

  /** Recorded indices increase, and an arming index lies strictly between two consecutive ones. */
  ghost predicate PointsSpaced(d: Direction, m5: seq<Option<real>>, m20: seq<Option<real>>, pts: seq<nat>, n: nat)
    requires n <= |m20|
    requires PointsFire(d, m5, m20, pts, n)
  {
    forall k :: 0 < k < |pts| ==> pts[k - 1] < pts[k] && RearmBetween(d, m5, m20, pts[k - 1], pts[k])
  }

  /** The first recorded index was reached armed: by the initial flag or an arming index before it. */
  ghost predicate FirstArmed(d: Direction, m5: seq<Option<real>>, m20: seq<Option<real>>, armed0: bool, pts: seq<nat>, n: nat)
    requires n <= |m20|
    requires PointsFire(d, m5, m20, pts, n)
  {
    |pts| > 0 ==> armed0 || RearmBetween(d, m5, m20, -1, pts[0])
  }

  /** No firing index before the first recorded one was reached armed. */
  ghost predicate NoneMissedBefore(d: Direction, m5: seq<Option<real>>, m20: seq<Option<real>>, armed0: bool, pts: seq<nat>, n: nat)
    requires n <= |m20|
  {
    forall i: nat :: i < n && (pts == [] || i < pts[0]) && Fires(d, m5, m20, i) ==>
      !armed0 && !RearmBetween(d, m5, m20, -1, i)
  }

  /** No firing index after a recorded one and before the next was reached armed. */
  ghost predicate NoneMissedAfter(d: Direction, m5: seq<Option<real>>, m20: seq<Option<real>>, pts: seq<nat>, n: nat)
    requires n <= |m20|
  {
    forall k, i: nat :: 0 <= k < |pts| && pts[k] < i < n && (k + 1 == |pts| || i < pts[k + 1]) && Fires(d, m5, m20, i) ==>
      !RearmBetween(d, m5, m20, pts[k], i)
  }

  /** The flag after n indices: set exactly when an arming index follows the last recorded one (or the start). */
  ghost predicate FlagRule(d: Direction, m5: seq<Option<real>>, m20: seq<Option<real>>, armed0: bool, pts: seq<nat>, armed: bool, n: nat)
    requires n <= |m20|
    requires PointsFire(d, m5, m20, pts, n)
  {
    armed <==> if pts == [] then armed0 || RearmBetween(d, m5, m20, -1, n)
               else RearmBetween(d, m5, m20, pts[|pts| - 1], n)
  }

  /**
   * An arm/fire reading of a pass over the first n indices that ended in
   * state st, stated without running the pass.
   */
  ghost predicate ArmFire(d: Direction, m5: seq<Option<real>>, m20: seq<Option<real>>, armed0: bool, n: nat, st: PassState)
    requires n <= |m20|
  {
    PointsFire(d, m5, m20, st.points, n) &&
    PointsSpaced(d, m5, m20, st.points, n) &&
    FirstArmed(d, m5, m20, armed0, st.points, n) &&
    NoneMissedBefore(d, m5, m20, armed0, st.points, n) &&
    NoneMissedAfter(d, m5, m20, st.points, n) &&
    FlagRule(d, m5, m20, armed0, st.points, st.armed, n)
  }

  lemma RearmExtend(d: Direction, m5: seq<Option<real>>, m20: seq<Option<real>>, lo: int, n: nat)
    requires 0 < n <= |m20| && lo < n - 1
    ensures RearmBetween(d, m5, m20, lo, n) <==> RearmBetween(d, m5, m20, lo, n - 1) || Rearms(d, m5, m20, n - 1)
  {
    if Rearms(d, m5, m20, n - 1) {
      assert lo < n - 1 < n;
    }
    if RearmBetween(d, m5, m20, lo, n) && !Rearms(d, m5, m20, n - 1) {
      var j: nat :| lo < j < n && Rearms(d, m5, m20, j);
      assert j < n - 1;
    }
  }

  /** An iteration that records nothing keeps the arm/fire reading. */
  lemma KeepCase(d: Direction, m5: seq<Option<real>>, m20: seq<Option<real>>, armed0: bool, n: nat,
                 pts: seq<nat>, a: bool, a': bool)
    requires 0 < n <= |m20|
    requires ArmFire(d, m5, m20, armed0, n - 1, PassState(pts, a))
    requires a' == (a || Rearms(d, m5, m20, n - 1)) && !(a' && Fires(d, m5, m20, n - 1))
    ensures ArmFire(d, m5, m20, armed0, n, PassState(pts, a'))
  {
    var i := n - 1;
    assert PointsFire(d, m5, m20, pts, n);
    assert PointsSpaced(d, m5, m20, pts, n);
    assert FirstArmed(d, m5, m20, armed0, pts, n);
    if pts == [] {
      RearmExtend(d, m5, m20, -1, n);
    } else {
      RearmExtend(d, m5, m20, pts[|pts| - 1], n);
    }
    forall j: nat | j < n && (pts == [] || j < pts[0]) && Fires(d, m5, m20, j)
      ensures !armed0 && !RearmBetween(d, m5, m20, -1, j)
    {
      if j == i {
        assert pts == [];
      }
    }
    forall k, j: nat | 0 <= k < |pts| && pts[k] < j < n && (k + 1 == |pts| || j < pts[k + 1]) && Fires(d, m5, m20, j)
      ensures !RearmBetween(d, m5, m20, pts[k], j)
    {
      if j == i {
        assert k + 1 == |pts|;
      }
    }
  }

  /** An iteration that records index n - 1 keeps the arm/fire reading. */
  lemma FireCase(d: Direction, m5: seq<Option<real>>, m20: seq<Option<real>>, armed0: bool, n: nat,
                 pts: seq<nat>, a: bool)
    requires 0 < n <= |m20|
    requires ArmFire(d, m5, m20, armed0, n - 1, PassState(pts, a))
    requires (a || Rearms(d, m5, m20, n - 1)) && Fires(d, m5, m20, n - 1)
    ensures ArmFire(d, m5, m20, armed0, n, PassState(pts + [n - 1], false))
  {
    var i := n - 1;
    var pts' := pts + [i];
    assert !Rearms(d, m5, m20, i);
    assert a;
    assert forall k :: 0 <= k < |pts| ==> pts'[k] == pts[k];
    assert PointsFire(d, m5, m20, pts', n);
    assert PointsSpaced(d, m5, m20, pts', n) by {
      forall k | 0 < k < |pts'| ensures pts'[k - 1] < pts'[k] && RearmBetween(d, m5, m20, pts'[k - 1], pts'[k]) {
        if k == |pts| {
          assert pts'[k - 1] == pts[|pts| - 1];
        }
      }
    }
    assert FirstArmed(d, m5, m20, armed0, pts', n);
    assert NoneMissedBefore(d, m5, m20, armed0, pts', n) by {
      forall j: nat | j < n && (pts' == [] || j < pts'[0]) && Fires(d, m5, m20, j)
        ensures !armed0 && !RearmBetween(d, m5, m20, -1, j)
      {
        assert j < n - 1;
      }
    }
    assert NoneMissedAfter(d, m5, m20, pts', n) by {
      forall k, j: nat | 0 <= k < |pts'| && pts'[k] < j < n && (k + 1 == |pts'| || j < pts'[k + 1]) && Fires(d, m5, m20, j)
        ensures !RearmBetween(d, m5, m20, pts'[k], j)
      {
        assert k < |pts|;
        assert pts'[k] == pts[k];
        assert j < i;
        assert k + 1 == |pts| || j < pts[k + 1];
      }
    }
    assert !RearmBetween(d, m5, m20, i, n);
  }

  /** Every pass, from either initial flag, satisfies the arm/fire reading. */
  lemma {:induction false} PassMeetsArmFire(d: Direction, m5: seq<Option<real>>, m20: seq<Option<real>>, armed0: bool, n: nat)
    requires n <= |m20|
    ensures ArmFire(d, m5, m20, armed0, n, Pass(d, m5, m20, n, armed0))
  {
    if n == 0 {
      assert !RearmBetween(d, m5, m20, -1, 0);
    } else {
      PassMeetsArmFire(d, m5, m20, armed0, n - 1);
      var st := Pass(d, m5, m20, n - 1, armed0);
      var i := n - 1;
      if m20[i].None? {
        assert !Rearms(d, m5, m20, i) && !Fires(d, m5, m20, i);
        KeepCase(d, m5, m20, armed0, n, st.points, st.armed, st.armed);
      } else if (st.armed || Rearms(d, m5, m20, i)) && Fires(d, m5, m20, i) {
        FireCase(d, m5, m20, armed0, n, st.points, st.armed);
      } else {
        KeepCase(d, m5, m20, armed0, n, st.points, st.armed, st.armed || Rearms(d, m5, m20, i));
      }
    }
  }

  /**
   * The sell pass starts armed exactly when the buy pass recorded nothing or
   * the long average fell below the short one after the last buy point.
   */
  lemma SellStartFlag(m5: seq<Option<real>>, m20: seq<Option<real>>)
    ensures var buy := Pass(Buy, m5, m20, |m20|, true);
      buy.armed <==> buy.points == [] || RearmBetween(Buy, m5, m20, buy.points[|buy.points| - 1], |m20|)
  {
    PassMeetsArmFire(Buy, m5, m20, true, |m20|);
  }

  /** While the long average is still NaN a pass records nothing and keeps its flag. */
  lemma {:induction false} WarmUpIsInert(d: Direction, m5: seq<Option<real>>, m20: seq<Option<real>>, n: nat, armed0: bool)
    requires n <= |m20|
    requires forall j :: 0 <= j < n ==> m20[j].None?
    ensures Pass(d, m5, m20, n, armed0) == PassState([], armed0)
  {
    if n > 0 {
      WarmUpIsInert(d, m5, m20, n - 1, armed0);
    }
  }

  /**
   * The shared flag costs a sell point: when the long average is first below
   * and then above the short one, the buy pass fires at index 1 and leaves the
   * flag cleared, so the sell pass does not record index 0, which a pass
   * started armed would.
   */
  lemma SharedFlagMissesSell()
    ensures var m5 := [Some(2.0), Some(1.0)];
      var m20 := [Some(1.0), Some(2.0)];
      var buy := Pass(Buy, m5, m20, 2, true);
      buy == PassState([1], false) &&
      Pass(Sell, m5, m20, 2, buy.armed).points == [] &&
      Pass(Sell, m5, m20, 2, true).points == [0]
  {
  }
}
