/**
 * One poll of the "/" handler of index.js, from the price history onwards:
 * the 5- and 20-period averages of the close prices, the two crossover
 * passes and the notify-and-store decision.
 */
module Signal {
  import opened Values
  import opened Rolling
  import opened Crossover
  import opened Dedup

  /** The short average series, m5. */
  function M5(data: seq<Point>): seq<Option<real>>
  {
    Rolled(Closes(data), 5, 5)
  }

  /** The long average series, m20. */
  function M20(data: seq<Point>): seq<Option<real>>
  {
    Rolled(Closes(data), 20, 20)
  }

  /** The buy points of the poll: a pass started armed. */
  function BuyPointsOf(data: seq<Point>): seq<nat>
  {
    Pass(Buy, M5(data), M20(data), |data|, true).points
  }

  /** The sell points of the poll: a pass started with the flag the buy pass left. */
  function SellPointsOf(data: seq<Point>): seq<nat>
  {
    Pass(Sell, M5(data), M20(data), |data|, Pass(Buy, M5(data), M20(data), |data|, true).armed).points
  }

  /** getM5: the close prices averaged over 5 values with a warm-up of 5. */
  method GetM5(data: seq<Point>) returns (m5: seq<Option<real>>)
    ensures m5 == M5(data)
    ensures |m5| == |data|
    ensures forall k :: 0 <= k < |data| ==> (m5[k].Some? <==> k >= 4)
  {
    m5 := Roll(Closes(data), 5, 5);
  }

  /** getM20: the close prices averaged over 20 values with a warm-up of 20. */
  method GetM20(data: seq<Point>) returns (m20: seq<Option<real>>)
    ensures m20 == M20(data)
    ensures |m20| == |data|
    ensures forall k :: 0 <= k < |data| ==> (m20[k].Some? <==> k >= 19)
  {
    m20 := Roll(Closes(data), 20, 20);
  }

  /** Every buy and sell point of a poll indexes the price history. */
  lemma PointsInRange(data: seq<Point>)
    ensures forall k :: 0 <= k < |BuyPointsOf(data)| ==> BuyPointsOf(data)[k] < |data|
    ensures forall k :: 0 <= k < |SellPointsOf(data)| ==> SellPointsOf(data)[k] < |data|
  {
    var m5, m20 := M5(data), M20(data);
    PassMeetsArmFire(Buy, m5, m20, true, |data|);
    PassMeetsArmFire(Sell, m5, m20, Pass(Buy, m5, m20, |data|, true).armed, |data|);
  }

  /**
   * One poll on a fetched price history against the stored pair: what it
   * notifies and writes. Since every point indexes the history, the poll
   * fails exactly when one of the two passes recorded nothing.
   */
  method Cycle(data: seq<Point>, stored: Pair) returns (o: Outcome)
    ensures o == Decide(data, BuyPointsOf(data), SellPointsOf(data), stored)
    ensures o.Threw? <==> BuyPointsOf(data) == [] || SellPointsOf(data) == []
  {
    var m5 := GetM5(data);
    var m20 := GetM20(data);
    var buyPoints, sellPoints := DetectCrossovers(m5, m20);
    PointsInRange(data);
    o := Decide(data, buyPoints, sellPoints, stored);
  }

  /** Close prices of a series that is flat at 10 and then rises: 17 tens, then 12, 15, 20, 25. */
  const RisingCloses: seq<real> :=
    [10.0, 10.0, 10.0, 10.0, 10.0, 10.0, 10.0, 10.0, 10.0, 10.0,
     10.0, 10.0, 10.0, 10.0, 10.0, 10.0, 10.0, 12.0, 15.0, 20.0, 25.0]

  /** The long average at index 19: twenty values summing to 217, a mean of 10.85, rounded up to 10.9. */
  lemma RisingLong19()
    ensures RollAt(RisingCloses, 20, 20, 19) == Some(10.9)
  {
    var c := RisingCloses;
    var f := seq(17, _ => 10.0);
    BackRunFlat(c, 16, 17, 10.0);
    var s := Sample(c, 19, 20);
    assert s == [20.0] + ([15.0] + ([12.0] + f));
    SumFlat(17, 10.0);
    SumCons(12.0, f);
    SumCons(15.0, [12.0] + f);
    SumCons(20.0, [15.0] + ([12.0] + f));
    assert Mean(s) == 10.85;
  }

  /** The long average at index 20: the twenty values from index 1 sum to 232, a mean of 11.6. */
  lemma RisingLong20()
    ensures RollAt(RisingCloses, 20, 20, 20) == Some(11.6)
  {
    var c := RisingCloses;
    var f := seq(16, _ => 10.0);
    BackRunFlat(c, 16, 16, 10.0);
    var s := Sample(c, 20, 20);
    assert s == [25.0] + ([20.0] + ([15.0] + ([12.0] + f)));
    SumFlat(16, 10.0);
    SumCons(12.0, f);
    SumCons(15.0, [12.0] + f);
    SumCons(20.0, [15.0] + ([12.0] + f));
    SumCons(25.0, [20.0] + ([15.0] + ([12.0] + f)));
    assert Mean(s) == 11.6;
  }

  /** The short averages at indices 19 and 20: 67 / 5 and 82 / 5. */
  lemma RisingShort()
    ensures RollAt(RisingCloses, 5, 5, 19) == Some(13.4)
    ensures RollAt(RisingCloses, 5, 5, 20) == Some(16.4)
  {
    assert Sample(RisingCloses, 19, 5) == [20.0, 15.0, 12.0, 10.0, 10.0];
    assert Sample(RisingCloses, 20, 5) == [25.0, 20.0, 15.0, 12.0, 10.0];
  }

  /** The two passes over series shaped like the rising series' averages. */
  lemma RisingPasses(m5: seq<Option<real>>, m20: seq<Option<real>>)
    requires |m5| == |m20| == 21
    requires forall j :: 0 <= j < 19 ==> m20[j].None?
    requires m20[19] == Some(10.9) && m5[19] == Some(13.4)
    requires m20[20] == Some(11.6) && m5[20] == Some(16.4)
    ensures Pass(Buy, m5, m20, 21, true) == PassState([], true)
    ensures Pass(Sell, m5, m20, 21, true) == PassState([19], false)
  {
    WarmUpIsInert(Buy, m5, m20, 19, true);
    WarmUpIsInert(Sell, m5, m20, 19, true);
    assert Pass(Buy, m5, m20, 20, true) == PassState([], true);
    assert Pass(Sell, m5, m20, 20, true) == PassState([19], false);
  }

  /**
   * On the rising series the long average stays below the short one wherever
   * it exists (10.9 against 13.4 at index 19, 11.6 against 16.4 at index 20):
   * the buy pass records nothing, the sell pass records index 19, and the poll
   * fails on the missing buy point before it notifies anyone.
   */
  lemma RisingSeriesThrows(data: seq<Point>, stored: Pair)
    requires Closes(data) == RisingCloses
    ensures M20(data)[19] == Some(10.9) && M5(data)[19] == Some(13.4)
    ensures M20(data)[20] == Some(11.6) && M5(data)[20] == Some(16.4)
    ensures BuyPointsOf(data) == [] && SellPointsOf(data) == [19]
    ensures Decide(data, BuyPointsOf(data), SellPointsOf(data), stored) == Threw([])
  {
    assert |data| == 21;
    RisingLong19();
    RisingLong20();
    RisingShort();
    var m5, m20 := M5(data), M20(data);
    assert forall j :: 0 <= j < 19 ==> m20[j].None?;
    RisingPasses(m5, m20);
  }
}
