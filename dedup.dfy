/**
 * The notify-and-store decision at the end of the "/" handler in index.js:
 * compare the dates of the last buy and sell points with the stored pair,
 * notify on a strictly newer date, and decide whether to rewrite the pair.
 */
module Dedup {
  import opened Values

  /** The stored pair [lastStoredBuyPoint, lastStoredSellPoint] of dates. */
  datatype Pair = Pair(buy: int, sell: int)

  /** A message to all subscribers: its direction and the close price of the point. */
  datatype Notification = Notification(direction: Direction, price: real)

  /**
   * What the decision does. Completed: the notifications sent and the pair
   * written to the store, if any. Threw: looking up a missing point raised a
   * TypeError, after the notifications already sent.
   */
  datatype Outcome =
    | Completed(notifications: seq<Notification>, written: Option<Pair>)
    | Threw(notifications: seq<Notification>)

  /**
   * The record of the last index in points, or None where the source reads
   * `undefined` (no points at all, or an index past the data) and then fails
   * on its `.date`.
   */
  function LastPoint(data: seq<Point>, points: seq<nat>): Option<Point>
  {
    if |points| == 0 || points[|points| - 1] >= |data| then None else Some(data[points[|points| - 1]])
  }

  /** Some notification in ns has direction d. */
  predicate Notifies(ns: seq<Notification>, d: Direction)
  {
    exists k :: 0 <= k < |ns| && ns[k].direction == d
  }

  /**
   * The decision, in the order the source takes its steps: the buy point is
   * looked up and possibly notified before the sell point is looked up, and
   * the stored values are replaced by the newer dates before the write test.
   */
  function Decide(data: seq<Point>, buyPoints: seq<nat>, sellPoints: seq<nat>, stored: Pair): (o: Outcome)
    // it fails exactly when a point list is empty or ends past the data
    ensures o.Threw? <==> LastPoint(data, buyPoints).None? || LastPoint(data, sellPoints).None?
    // a Buy notification exactly when the last buy date is strictly newer than the stored one
    ensures Notifies(o.notifications, Buy) <==>
      LastPoint(data, buyPoints).Some? && LastPoint(data, buyPoints).value.date > stored.buy
    // a Sell notification exactly when both lookups succeed and the last sell date is strictly newer
    ensures Notifies(o.notifications, Sell) <==>
      LastPoint(data, buyPoints).Some? && LastPoint(data, sellPoints).Some? &&
      LastPoint(data, sellPoints).value.date > stored.sell
    // at most one notification per direction, Buy first, each with the close of its point
    ensures forall i, j :: 0 <= i < j < |o.notifications| ==>
      o.notifications[i].direction == Buy && o.notifications[j].direction == Sell
    ensures forall k :: 0 <= k < |o.notifications| ==>
      var p := LastPoint(data, if o.notifications[k].direction == Buy then buyPoints else sellPoints);
      p.Some? && o.notifications[k].price == p.value.close
    // the write: exactly when a last date is at least its stored value, and always the pair of last dates
    ensures o.Completed? ==>
      var b := LastPoint(data, buyPoints).value;
      var s := LastPoint(data, sellPoints).value;
      (o.written.Some? <==> b.date >= stored.buy || s.date >= stored.sell) &&
      (o.written.Some? ==> o.written.value == Pair(b.date, s.date))
  {
    match LastPoint(data, buyPoints)
    case None => Threw([])
    case Some(b) =>
      var buyNote := if b.date > stored.buy then [Notification(Buy, b.close)] else [];
      var storedBuy := if b.date > stored.buy then b.date else stored.buy;
      match LastPoint(data, sellPoints)
      case None =>
        assert buyNote != [] ==> buyNote[0].direction == Buy;
        Threw(buyNote)
      case Some(s) =>
        var sellNote := if s.date > stored.sell then [Notification(Sell, s.close)] else [];
        var storedSell := if s.date > stored.sell then s.date else stored.sell;
        var notes := buyNote + sellNote;
        assert buyNote != [] ==> notes[0].direction == Buy;
        assert sellNote != [] ==> notes[|buyNote|].direction == Sell;
        Completed(notes,
                  if b.date == storedBuy || s.date == storedSell then Some(Pair(b.date, s.date)) else None)
  }

  /**
   * Repeating a poll on unchanged data against the pair it wrote sends no
   * notification and writes the same pair again.
   */
  lemma SecondPollIsQuiet(data: seq<Point>, buyPoints: seq<nat>, sellPoints: seq<nat>, stored: Pair)
    requires Decide(data, buyPoints, sellPoints, stored).Completed?
    requires Decide(data, buyPoints, sellPoints, stored).written.Some?
    ensures var p := Decide(data, buyPoints, sellPoints, stored).written.value;
      Decide(data, buyPoints, sellPoints, p) == Completed([], Some(p))
  {
  }

  /**
   * A poll whose last dates are both older than the stored ones changes
   * nothing: no notification, no write.
   */
  lemma OlderPointsChangeNothing(data: seq<Point>, buyPoints: seq<nat>, sellPoints: seq<nat>, stored: Pair)
    requires LastPoint(data, buyPoints).Some? && LastPoint(data, sellPoints).Some?
    requires LastPoint(data, buyPoints).value.date < stored.buy
    requires LastPoint(data, sellPoints).value.date < stored.sell
    ensures Decide(data, buyPoints, sellPoints, stored) == Completed([], None)
  {
  }

  /**
   * The write is not monotone: a buy date equal to the stored one triggers the
   * write, and the older sell date then replaces the stored sell date.
   */
  lemma WriteCanMoveBackwards()
    ensures var data := [Point(100, 1.0), Point(150, 2.0)];
      Decide(data, [0], [1], Pair(100, 200)) == Completed([], Some(Pair(100, 150)))
  {
  }

  /**
   * Without a buy point the lookup fails before anything is sent; without a
   * sell point it fails after the buy notification has gone out.
   */
  lemma MissingPointThrows(data: seq<Point>)
    requires |data| == 1 && data[0].date > 0
    ensures Decide(data, [], [0], Pair(0, 0)) == Threw([])
    ensures Decide(data, [0], [], Pair(0, 0)) == Threw([Notification(Buy, data[0].close)])
  {
  }
}
