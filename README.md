# Signal engine of the crypto notificator

The crypto notificator polls a 15-minute BTC-USD price history and computes two
rolling averages of the close prices: `m5` (window 5) and `m20` (window 20). It
runs a buy pass and then a sell pass over the two series. Each pass arms and
fires on a single flag, `shouldAdd`, which the two passes share. It compares the
dates of the last buy and last sell points with a stored pair of dates, sends a
Buy and/or Sell notification when a date is strictly newer, and decides whether
to rewrite the stored pair.

This project models that engine in Dafny and proves what it does:

- `values.dfy` (module `Values`): the shared types. A price point is
  `(date, close)`. `Option` stands for the NaN sentinel of an average series.
  `Direction` is Buy or Sell.
- `rolling.dfy` (module `Rolling`): `roll`. It is an imperative method `Roll`
  with the outer accumulating loop and the inner backward scan ending at the
  first falsy value. The method is proved equal to the specification `Rolled`.
  Lemmas about the specification cover the shape of each sample, the rounding,
  bounds, and concrete series.
- `crossover.dfy` (module `Crossover`): the two arm/fire loops, as the method
  `DetectCrossovers`. It is proved equal to the step function `Pass`. That
  function is proved to satisfy a reading stated without running the loop
  (`ArmFire`): recorded indices fire, no firing index reached while armed is
  skipped, and the final flag value is characterised.
- `dedup.dfy` (module `Dedup`): the notify-and-write decision, as the function
  `Decide`. Its contract gives both directions of every test. It also covers the
  failing lookup of a missing point.
- `signal.dfy` (module `Signal`): `getM5`, `getM20`, and one poll of the `"/"`
  handler from the fetched history onwards (`Cycle`). It also works through the
  rising-price series in full.

Numbers are Dafny `real`. `Math.round(avg * 10) / 10` is written out as
`floor(10 * avg + 0.5) / 10`, since JavaScript's `Math.round` rounds halves up,
towards plus infinity. The entries before the warm-up period are `None`. A
comparison with `None` on either side is false, as in JavaScript.

Several behaviours of the code differ from what a reader of the system's purpose might expect. The model follows the code:

- Rounding: one might expect halves to round away from zero. The code rounds
  them up (`RoundHalfExamples`: -0.25 becomes -0.2).
- Crossover passes: one might expect two independent passes, each starting
  armed. The code shares one flag, so the sell pass starts with the buy pass's
  final value (`SellStartFlag`). This can hide a sell point
  (`SharedFlagMissesSell`).
- No crossover: one might expect a direction without a crossover to mean "no
  event". The code reads `data[undefined].date` and throws. The buy lookup comes
  first, so a missing sell point throws after the buy notification has gone out
  (`MissingPointThrows`).
- Write condition: one might expect the pair to be saved only when a date
  advanced, and only forwards. The code writes whenever a last date equals its
  stored value after the update, which means at least the stored value. It
  writes the pair of last dates, which can move a stored date backwards
  (`WriteCanMoveBackwards`).
- Rising-price scenario: one might expect one buy point near the tail of
  the series of 17 tens followed by 12, 15, 20, 25 (21 values, not 20). In the
  code the long average stays below the short one wherever both exist. So there
  is no buy point, there is one sell point at index 19, and the poll throws
  (`RisingSeriesThrows`).

## Model

| member | source | states |
|---|---|---|
| `Rolling.Roll` | index.js:127-152 | the loop's array equals `Rolled`: the same length as the input, the sentinel exactly at the indices before `minPeriod - 1`, and elsewhere the rounded mean of the sample |
| `Rolling.RoundTenth` | index.js:149 | the rounded value lies in (x - 0.05, x + 0.05] and is a whole number of tenths |
| `Rolling.RoundHalfUp` | index.js:149 | a value exactly halfway between two tenths rounds to the upper one |
| `Rolling.RoundKeepsTenths` | index.js:149 | a value that is already a whole number of tenths is unchanged |
| `Rolling.RoundHalfExamples` | index.js:149 | -0.25 rounds to -0.2 and 0.25 to 0.3: halves go towards plus infinity, not away from zero |
| `Rolling.BackRunAt` | index.js:142-145 | value j of the backward scan from i is the truthy value `a[i - j]` |
| `Rolling.BackRunShape` | index.js:142-145 | the backward scan from i holds at most n values, each a truthy `a[i - j]`, and it stops only when n is used up, at the front of the series, or before a falsy value |
| `Rolling.SampleShape` | index.js:138-146 | the sample at index k is `a[k]` followed by the maximal truthy run `a[k-1], a[k-2], ...` of at most `window - 1` values, so its size lies in [1, window] |
| `Rolling.BackRunFlat` | index.js:142-145 | a run of n equal truthy values is taken whole |
| `Rolling.SumFlat` | index.js:147 | the sum of n copies of c is n times c |
| `Rolling.MeanBounds` | index.js:147 | the mean of values between lo and hi lies between lo and hi |
| `Rolling.RollBounded` | index.js:132-151 | if every input is in [lo, hi], every average is in (lo - 0.05, hi + 0.05] |
| `Rolling.RollExample` | index.js:127-152 | 10, 20, 30, 40, 50 with window and warm-up 3 give NaN, NaN, 20, 30, 40 |
| `Rolling.RollStopsAtFalsy` | index.js:142-145 | a zero ends the backward scan: 10, 0, 30, 40 give NaN, NaN, 30, 35 |
| `Signal.GetM5` | index.js:169-174 | the short series is `roll` of the closes with window and warm-up 5: one entry per point, the sentinel exactly at the first four |
| `Signal.GetM20` | index.js:176-181 | the long series is `roll` of the closes with window and warm-up 20: one entry per point, the sentinel exactly at the first nineteen |
| `Crossover.DetectCrossovers` | index.js:66-94 | the buy points are the armed pass from a set flag; the sell points are the mirror pass started from the flag the buy pass left |
| `Crossover.PassMeetsArmFire` | index.js:68-94 | every pass, from either flag value, gives points that are below n, fire, and strictly increase with an arming index between each two consecutive points; the first point needs the initial flag or an earlier arming index; every firing index reached while armed is recorded; the final flag is set exactly when an arming index follows the last point (or the start) |
| `Crossover.SellStartFlag` | index.js:68-94 | the sell pass starts armed exactly when the buy pass recorded nothing, or the long average fell below the short one after the last buy point |
| `Crossover.WarmUpIsInert` | index.js:69-70 | while the long average is NaN a pass records nothing and keeps its flag |
| `Crossover.SharedFlagMissesSell` | index.js:66-94 | with the long average first below, then above the short one, the shared flag suppresses the sell at index 0 that a pass started armed records |
| `Dedup.Decide` | index.js:96-113 | it throws exactly when a last point is missing (the helper `LastPoint` reads the last index of a list and its record, index.js:98-101 and 106; `None` stands for `undefined`). Buy is notified exactly when the last buy date > the stored buy date. Sell likewise, once both lookups succeed. There is at most one notification per direction, Buy first, each carrying its point's close. The pair is written exactly when a last date is >= its stored value, and it is always (last buy date, last sell date) |
| `Dedup.SecondPollIsQuiet` | index.js:101-112 | polling again with the pair just written sends nothing and writes the same pair |
| `Dedup.OlderPointsChangeNothing` | index.js:101-113 | when both last dates are older than the stored ones, nothing is sent and nothing is written |
| `Dedup.WriteCanMoveBackwards` | index.js:111-112 | with stored (100, 200), a buy date of 100 and a sell date of 150, nothing is sent and (100, 150) is written, so the stored sell date goes backwards |
| `Dedup.MissingPointThrows` | index.js:98-107 | with no buy point the poll throws before sending anything; with no sell point it throws after sending the Buy notification |
| `Signal.PointsInRange` | index.js:66-99 | every buy and sell point of a poll indexes the price history |
| `Signal.Cycle` | index.js:61-113 | one poll is `Decide` applied to the points of the two passes over `getM5`/`getM20`, and it throws exactly when one of the passes recorded nothing |
| `Signal.RisingLong19` | index.js:142-149 | on the rising series, m20 at index 19 is 10.9 (217 / 20 = 10.85 rounded up) |
| `Signal.RisingLong20` | index.js:142-149 | on the rising series, m20 at index 20 is 11.6 |
| `Signal.RisingShort` | index.js:142-149 | on the rising series, m5 is 13.4 at index 19 and 16.4 at index 20 |
| `Signal.RisingPasses` | index.js:66-94 | on averages shaped like the rising series' (NaN up to index 18, long below short at 19 and 20), the buy pass records nothing and stays armed, and the sell pass records 19 |
| `Signal.RisingSeriesThrows` | index.js:61-113 | on the rising series there are no buy points and one sell point at 19, and the poll throws on the missing buy point before sending anything |

## Left out

- HTTP plumbing: the Express routes, CORS and body-parser set-up, and
  `app.listen` (index.js:8-15, 28-59, 116).
- Subscribe and unsubscribe: the MySQL pool and its queries
  (`hashInDB`, `addSubscription`, `removeSubsciption`, `getAllSubscriptions`),
  as database I/O. The handlers test a pending Promise for truthiness, so their
  error branches can never run.
- The SHA-256 `hash`, a foreign crypto call. The `web-push` set-up.
- `notifySubscribers`: it is not defined in index.js, and delivery is I/O. A
  notification is an output value (direction and close price). The model does
  not capture the ReferenceError that the missing definition would raise.
- `getData`: it is a network fetch. The price history is an input
  (`seq<Point>`) instead. Its mapping of every field from `item.open` is not
  modelled.
- Reading and writing `lastStoredPoints.json`: file I/O. The stored pair is a
  parameter and the written pair is a result. Node's `require` cache returns
  the pair loaded at start-up on every later poll of the same process. So
  `SecondPollIsQuiet` describes a poll that re-reads the file, such as the first
  poll after a restart. Within one process, the same notifications repeat.
- A missing or malformed store file: the code has no fallback.
- The asynchronous handler: it never sends a response, and a throw becomes a
  rejected promise. The model records the throw as `Threw`, keeping the
  notifications issued before it.
- IEEE-754 arithmetic: sums, divisions and the `* 10` rounding are exact reals.
- NaN, `null` or `undefined` close values in the input: closes are reals, and
  zero is the only falsy value.
- Windows and warm-up periods that are not integers: they are `int`. The source
  only ever passes 5 and 20.
- `public/index.js` and `public/sw.js`: browser DOM, service-worker and push
  glue, not part of this model.
