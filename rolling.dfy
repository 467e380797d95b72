/**
 * The rolling average `roll` of index.js: for every index of the series either
 * the NaN sentinel (before the warm-up period) or the mean, rounded to one
 * decimal, of the current value and a backward run of earlier values.
 */
module Rolling {
  import opened Values

  /** JavaScript truthiness of a price: the only falsy number in a series of reals is zero. */
  predicate Truthy(v: real)
  {
    v != 0.0
  }

  /**
   * Rounding to one decimal as the source does it: scale by ten, apply
   * JavaScript's Math.round (the floor of y + 0.5, so that halves go up,
   * towards plus infinity), scale back.
   */
  function RoundTenth(x: real): (r: real)
    ensures x - 0.05 < r <= x + 0.05
    ensures (r * 10.0).Floor as real == r * 10.0
  {
    ((x * 10.0 + 0.5).Floor as real) / 10.0
  }

  /**
   * The backward scan: at most n values a[i], a[i-1], ..., stopping before the
   * first falsy value or before running off the front of the series (where the
   * source reads `undefined`, which is falsy too).
   */
  function BackRun(a: seq<real>, i: int, n: int): seq<real>
    requires i < |a|
    decreases i + 1
  {
    if n <= 0 || i < 0 || !Truthy(a[i]) then [] else [a[i]] + BackRun(a, i - 1, n - 1)
  }

  /** The values averaged at index k: a[k] itself, then the backward run of at most window - 1 values. */
  function Sample(a: seq<real>, k: nat, window: int): seq<real>
    requires k < |a|
  {
    [a[k]] + BackRun(a, k - 1, window - 1)
  }

  function Sum(s: seq<real>): real
  {
    if s == [] then 0.0 else s[0] + Sum(s[1..])
  }

  function Mean(s: seq<real>): real
    requires |s| > 0
  {
    Sum(s) / (|s| as real)
  }

  /** The entry that `roll` produces at index k. */
  function RollAt(a: seq<real>, window: int, minPeriod: int, k: nat): Option<real>
    requires k < |a|
  {
    if k < minPeriod - 1 then None else Some(RoundTenth(Mean(Sample(a, k, window))))
  }

  /** The whole array that `roll` produces. */
  function Rolled(a: seq<real>, window: int, minPeriod: int): seq<Option<real>>
  {
    seq(|a|, k requires 0 <= k < |a| => RollAt(a, window, minPeriod, k))
  }

  /**
   * `roll` as the source runs it: one pass over the series appending to an
   * accumulator, with an inner loop that collects the sample and leaves it at
   * the first falsy value.
   */
  method Roll(a: seq<real>, window: int, minPeriod: int) returns (acc: seq<Option<real>>)
    ensures acc == Rolled(a, window, minPeriod)
    ensures |acc| == |a|
    ensures forall k :: 0 <= k < |a| ==> (acc[k].None? <==> k < minPeriod - 1)
  {
    var formattedMinPeriod := minPeriod - 1;
    var formattedWindow := window - 1;
    acc := [];
    var index := 0;
    while index < |a|
      invariant 0 <= index <= |a|
      invariant |acc| == index
      invariant forall k :: 0 <= k < index ==> acc[k] == RollAt(a, window, minPeriod, k)
    {
      if index < formattedMinPeriod {
        acc := acc + [None];
      } else {
        var temp := [a[index]];
        var i := index - 1;
        while i >= index - formattedWindow
          invariant i < index
          invariant |temp| >= 1
          invariant temp + BackRun(a, i, i - (index - formattedWindow) + 1) == Sample(a, index, window)
        {
          if i < 0 || !Truthy(a[i]) {
            assert temp == Sample(a, index, window);
            break;
          }
          temp := temp + [a[i]];
          i := i - 1;
        }
        assert temp == Sample(a, index, window);
        acc := acc + [Some(RoundTenth(Mean(temp)))];
      }
      index := index + 1;
    }
  }

  /** Value j of the backward scan from i is the truthy value a[i - j]. */
  lemma {:induction false} BackRunAt(a: seq<real>, i: int, n: int, j: nat)
    requires i < |a| && j < |BackRun(a, i, n)|
    ensures 0 <= i - j && BackRun(a, i, n)[j] == a[i - j] && Truthy(a[i - j])
    decreases j
  {
    var r := BackRun(a, i, n);
    assert r == [a[i]] + BackRun(a, i - 1, n - 1);
    if j > 0 {
      BackRunAt(a, i - 1, n - 1, j - 1);
      assert r[j] == BackRun(a, i - 1, n - 1)[j - 1];
    }
  }

  lemma {:induction false} BackRunShape(a: seq<real>, i: int, n: int)
    requires -1 <= i < |a|
    ensures |BackRun(a, i, n)| <= i + 1
    ensures n <= 0 ==> BackRun(a, i, n) == []
    ensures n > 0 ==> |BackRun(a, i, n)| <= n
    ensures forall j :: 0 <= j < |BackRun(a, i, n)| ==> BackRun(a, i, n)[j] == a[i - j] && Truthy(a[i - j])
    ensures |BackRun(a, i, n)| >= n || i - |BackRun(a, i, n)| < 0 || !Truthy(a[i - |BackRun(a, i, n)|])
    decreases i + 1
  {
    if n <= 0 || i < 0 || !Truthy(a[i]) {
    } else {
      BackRunShape(a, i - 1, n - 1);
      assert BackRun(a, i, n) == [a[i]] + BackRun(a, i - 1, n - 1);
    }
    var r := BackRun(a, i, n);
    forall j | 0 <= j < |r| ensures r[j] == a[i - j] && Truthy(a[i - j]) {
      BackRunAt(a, i, n, j);
    }
  }

  /**
   * The sample averaged at index k is a[k] followed by the maximal backward run
   * of truthy values a[k-1], a[k-2], ...: it ends after window - 1 extra values,
   * at the front of the series or before a falsy value. Hence it holds
   * between one and `window` values.
   */
  lemma SampleShape(a: seq<real>, k: nat, window: int)
    requires k < |a|
    ensures 1 <= |Sample(a, k, window)| <= k + 1
    ensures |Sample(a, k, window)| <= (if window >= 1 then window else 1)
    ensures Sample(a, k, window)[0] == a[k]
    ensures forall j :: 1 <= j < |Sample(a, k, window)| ==> Sample(a, k, window)[j] == a[k - j] && Truthy(a[k - j])
    ensures |Sample(a, k, window)| >= window || k - |Sample(a, k, window)| < 0 || !Truthy(a[k - |Sample(a, k, window)|])
  {
    BackRunShape(a, k - 1, window - 1);
    var s := Sample(a, k, window);
    var t := BackRun(a, k - 1, window - 1);
    assert s == [a[k]] + t;
    forall j | 1 <= j < |s| ensures s[j] == a[k - j] && Truthy(a[k - j]) {
      BackRunAt(a, k - 1, window - 1, j - 1);
      assert s[j] == t[j - 1];
    }
  }

  lemma {:induction false} SumBounds(s: seq<real>, lo: real, hi: real)
    requires forall j :: 0 <= j < |s| ==> lo <= s[j] <= hi
    ensures (|s| as real) * lo <= Sum(s) <= (|s| as real) * hi
  {
    if s != [] {
      SumBounds(s[1..], lo, hi);
    }
  }

  /** A run of n equal truthy values is taken whole by the backward scan. */
  lemma {:induction false} BackRunFlat(a: seq<real>, i: int, n: nat, c: real)
    requires Truthy(c) && n <= i + 1 && i < |a|
    requires forall j :: i - n < j <= i ==> a[j] == c
    ensures BackRun(a, i, n) == seq(n, _ => c)
    decreases n
  {
    if n > 0 {
      BackRunFlat(a, i - 1, n - 1, c);
      assert [c] + seq(n - 1, _ => c) == seq(n, _ => c);
    }
  }

  lemma {:induction false} SumFlat(n: nat, c: real)
    ensures Sum(seq(n, _ => c)) == n as real * c
  {
    if n > 0 {
      var f := seq(n, _ => c);
      assert f[1..] == seq(n - 1, _ => c);
      SumFlat(n - 1, c);
      assert f == [c] + f[1..];
      assert Sum(f) == c + Sum(f[1..]);
      assert c + (n - 1) as real * c == n as real * c;
    }
  }

  lemma SumCons(x: real, t: seq<real>)
    ensures Sum([x] + t) == x + Sum(t)
  {
    assert ([x] + t)[1..] == t;
  }

  lemma MeanBounds(s: seq<real>, lo: real, hi: real)
    requires |s| > 0
    requires forall j :: 0 <= j < |s| ==> lo <= s[j] <= hi
    ensures lo <= Mean(s) <= hi
  {
    SumBounds(s, lo, hi);
    var n := |s| as real;
    var m := Mean(s);
    assert m * n == Sum(s);
    assert lo * n <= m * n <= hi * n;
  }

  /**
   * Every average lies within a twentieth of the range of the series: when all
   * values are between lo and hi, every entry that is not the sentinel is in
   * (lo - 0.05, hi + 0.05].
   */
  lemma RollBounded(a: seq<real>, window: int, minPeriod: int, lo: real, hi: real)
    requires forall j :: 0 <= j < |a| ==> lo <= a[j] <= hi
    ensures forall k :: 0 <= k < |a| && Rolled(a, window, minPeriod)[k].Some? ==>
      lo - 0.05 < Rolled(a, window, minPeriod)[k].value <= hi + 0.05
  {
    forall k | 0 <= k < |a| && Rolled(a, window, minPeriod)[k].Some?
      ensures lo - 0.05 < Rolled(a, window, minPeriod)[k].value <= hi + 0.05
    {
      var s := Sample(a, k, window);
      SampleShape(a, k, window);
      forall j | 0 <= j < |s| ensures lo <= s[j] <= hi {
        if j > 0 {
          assert s[j] == a[k - j];
        }
      }
      MeanBounds(s, lo, hi);
    }
  }

  /** The series 10, 20, 30, 40, 50 with window and warm-up 3 gives two sentinels, then 20, 30, 40. */
  lemma RollExample()
    ensures Rolled([10.0, 20.0, 30.0, 40.0, 50.0], 3, 3) == [None, None, Some(20.0), Some(30.0), Some(40.0)]
  {
    var a := [10.0, 20.0, 30.0, 40.0, 50.0];
    assert Sample(a, 2, 3) == [30.0, 20.0, 10.0];
    assert Sample(a, 3, 3) == [40.0, 30.0, 20.0];
    assert Sample(a, 4, 3) == [50.0, 40.0, 30.0];
  }

  /**
   * A zero stops the backward scan: in 10, 0, 30, 40 with window 3 the sample
   * at index 2 is only [30] and the one at index 3 is [40, 30].
   */
  lemma RollStopsAtFalsy()
    ensures Rolled([10.0, 0.0, 30.0, 40.0], 3, 3) == [None, None, Some(30.0), Some(35.0)]
  {
    var a := [10.0, 0.0, 30.0, 40.0];
    assert Sample(a, 2, 3) == [30.0];
    assert Sample(a, 3, 3) == [40.0, 30.0];
  }

  /** Halves round up: the tenth just above wins. */
  lemma RoundHalfUp(n: int)
    ensures RoundTenth((n as real + 0.5) / 10.0) == (n + 1) as real / 10.0
  {
    var y := (n as real + 0.5) / 10.0;
    assert y * 10.0 == n as real + 0.5;
    assert y * 10.0 + 0.5 == (n + 1) as real;
    assert ((n + 1) as real).Floor == n + 1;
  }

  /** A value that already has one decimal is kept. */
  lemma RoundKeepsTenths(n: int)
    ensures RoundTenth(n as real / 10.0) == n as real / 10.0
  {
    var y := n as real / 10.0;
    assert y * 10.0 + 0.5 == n as real + 0.5;
    assert (n as real + 0.5).Floor == n;
  }

  /** Rounding is towards plus infinity at a half, not away from zero: -0.25 becomes -0.2, 0.25 becomes 0.3. */
  lemma RoundHalfExamples()
    ensures RoundTenth(-0.25) == -0.2 && RoundTenth(0.25) == 0.3
  {
    RoundHalfUp(-3);
    RoundHalfUp(2);
  }
}
