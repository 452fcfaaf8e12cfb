/** The backtester `KL8PredictorTester`. Each trial takes one of the
    most recent draws of the table, trains a predictor on the draws strictly
    older than it, asks it five times for ten numbers and counts the hits;
    the report tallies the hit counts. The table is the tester's own, sorted
    newest first; the randomness of every prediction and the calendar that
    gives the day after the newest training draw are parameters. */
module Backtest {
  import opened Common
  import opened Draws
  import opened Prediction
  import PredictionFacts

  /** `Timestamp.dayofweek`: Monday is 0. */
  type Weekday = w: int | 0 <= w < 7

  /** What one call of `predict_next_numbers` draws at random: the lengths
      that stand for the potential combinations, the 80 jitter factors and
      the permutation `np.random.choice` samples from. */
  datatype Randomness = Randomness(combinations: seq<seq<nat>>, jitter: seq<real>, order: seq<int>)

  predicate Usable(r: Randomness) {
    |r.jitter| == 80
  }

  /** The randomness of one call, as `predict_next_numbers` consumes it. */
  type Call = r: Randomness | Usable(r) witness Randomness([], seq(80, i => 0.0), seq(20, i => i))

  /** The randomness of the five calls of one trial. */
  type TrialCalls = cs: seq<Call> | |cs| == 5
    witness var c: Call := Randomness([], seq(80, i => 0.0), seq(20, i => i)); [c, c, c, c, c]

  /** A predictor trained on a table, asked for numbers for a target day of
      the month and weekday, with the randomness of the call. */
  type Predictor = (seq<Draw>, int, int, Call) -> Result<seq<int>>

  /** `KL8Predictor` with `df` replaced by the training table, and
      `predict_next_numbers(10)`. */
  function KL8(training: seq<Draw>, targetDay: int, targetWeekday: int, call: Call): Result<seq<int>> {
    // The sample `np.random.choice(top_20_numbers, ..., replace=False)`
    // takes is a permutation of the 20 positions; an `order` that is none
    // stands for a sample numpy cannot return and answers `ValueError`.
    if IsOrder(call.order, 20) then
      Predict(training, targetDay, targetWeekday, call.combinations, call.jitter, call.order, 10)
    else Err(ValueError)
  }

  /** Every answer of the predictor is ten distinct numbers, ascending. */
  ghost predicate TenAscending(predict: Predictor) {
    forall training, targetDay, targetWeekday, call :: predict(training, targetDay, targetWeekday, call).Ok? ==>
      |predict(training, targetDay, targetWeekday, call).value| == 10
      && StrictlyAscending(predict(training, targetDay, targetWeekday, call).value)
  }

  /** `predict_next_numbers(10)` answers ten distinct numbers, ascending. */
  lemma KL8TenAscending()
    ensures TenAscending(KL8)
  {
    forall training, targetDay, targetWeekday, call: Call | KL8(training, targetDay, targetWeekday, call).Ok?
      ensures |KL8(training, targetDay, targetWeekday, call).value| == 10
      ensures StrictlyAscending(KL8(training, targetDay, targetWeekday, call).value)
    {
      PredictionFacts.PredictionMeaning(training, targetDay, targetWeekday, call.combinations, call.jitter,
                                        call.order, 10);
    }
  }

  /** The dictionary `test_single_draw` returns. */
  datatype Trial = Trial(date: int, actual: seq<int>, predictions: seq<seq<int>>, hitCounts: seq<nat>,
                         maxHits: int, avgHits: real)

  // ---------------------------------------------------------------------
  // One trial.

  /** `len(set(predicted) & actual_numbers_set)`. */
  function HitCount(predicted: seq<int>, actual: seq<int>): nat {
    |SetOf(predicted) * SetOf(actual)|
  }

  /** A hit count never exceeds the length of either list. */
  lemma HitCountBounds(predicted: seq<int>, actual: seq<int>)
    ensures HitCount(predicted, actual) <= |predicted| && HitCount(predicted, actual) <= |actual|
  {
    SetOfSize(predicted);
    SetOfSize(actual);
    SubsetSize(SetOf(predicted) * SetOf(actual), SetOf(predicted));
    SubsetSize(SetOf(predicted) * SetOf(actual), SetOf(actual));
  }

  lemma SubsetSize(a: set<int>, b: set<int>)
    requires a <= b
    ensures |a| <= |b|
  {
    assert b == a + (b - a);
  }

  /** A number counts as a hit exactly when it is predicted and drawn. */
  lemma HitCountMeaning(predicted: seq<int>, actual: seq<int>, x: int)
    ensures x in SetOf(predicted) * SetOf(actual) <==> x in predicted && x in actual
  {
  }

  /** The first `k` of the five predictions; the first call that raises ends the trial. */
  function Predictions(predict: Predictor, training: seq<Draw>, targetDay: int, targetWeekday: int,
                       calls: seq<Call>, k: nat): (r: Result<seq<seq<int>>>)
    requires k <= |calls|
    ensures r.Ok? ==> |r.value| == k
    decreases k
  {
    if k == 0 then Ok([])
    else
      match Predictions(predict, training, targetDay, targetWeekday, calls, k - 1)
      case Err(e) => Err(e)
      case Ok(ps) =>
        match predict(training, targetDay, targetWeekday, calls[k - 1])
        case Err(e) => Err(e)
        case Ok(p) => Ok(ps + [p])
  }

  /** `sum(s) / len(s)`. */
  function Mean(s: seq<nat>): real
    requires s != []
  {
    (Sum(s) as real) / (|s| as real)
  }

  /** The hit count of every prediction. */
  function HitCounts(ps: seq<seq<int>>, actual: seq<int>): (r: seq<nat>)
    ensures |r| == |ps|
    decreases |ps|
  {
    if ps == [] then [] else HitCounts(ps[..|ps| - 1], actual) + [HitCount(ps[|ps| - 1], actual)]
  }

  /** `test_single_draw(test_date, predictor)` with the predictor trained on
      `training`. The actual numbers are those of the first row of the
      tester's table with that date; no such row raises `IndexError`. */
  function SingleDraw(predict: Predictor, h: seq<Draw>, testDate: int, training: seq<Draw>, targetDay: int,
                      targetWeekday: int, calls: TrialCalls): Result<Trial>
  {
    var rows := OnDate(h, testDate);
    if rows == [] then Err(IndexError)
    else
      var actual := rows[0].numbers;
      match Predictions(predict, training, targetDay, targetWeekday, calls, |calls|)
      case Err(e) => Err(e)
      case Ok(ps) =>
        var hits := HitCounts(ps, actual);
        Ok(Trial(testDate, actual, ps, hits, MaxOf(hits), Mean(hits)))
  }

  /** `test_single_draw(test_date, predictor)`: five calls of the predictor
      and the hit count of each. */
  method TestSingleDraw(h: seq<Draw>, testDate: int, training: seq<Draw>, targetDay: int, targetWeekday: Weekday,
                        predict: Predictor, calls: TrialCalls) returns (r: Result<Trial>)
    ensures r == SingleDraw(predict, h, testDate, training, targetDay, targetWeekday, calls)
  {
    var rows := OnDate(h, testDate);
    if rows == [] {
      return Err(IndexError);
    }
    var actualNumbers := rows[0].numbers;
    var predictions: seq<seq<int>> := [];
    var hitCounts: seq<nat> := [];
    var i := 0;
    while i < 5
      invariant 0 <= i <= 5
      invariant Predictions(predict, training, targetDay, targetWeekday, calls, i) == Ok(predictions)
      invariant hitCounts == HitCounts(predictions, actualNumbers)
    {
      var predicted := predict(training, targetDay, targetWeekday, calls[i]);
      if predicted.Err? {
        return Err(predicted.error);
      }
      HitCountsSnoc(predictions, predicted.value, actualNumbers);
      predictions := predictions + [predicted.value];
      var hits := |SetOf(predicted.value) * SetOf(actualNumbers)|;
      hitCounts := hitCounts + [hits];
      i := i + 1;
    }
    r := Ok(Trial(testDate, actualNumbers, predictions, hitCounts, MaxOf(hitCounts), Mean(hitCounts)));
  }

  lemma HitCountsSnoc(ps: seq<seq<int>>, p: seq<int>, actual: seq<int>)
    ensures HitCounts(ps + [p], actual) == HitCounts(ps, actual) + [HitCount(p, actual)]
  {
    assert (ps + [p])[..|ps|] == ps;
  }

  /** An item of `HitCounts` is the hit count of its prediction. */
  lemma {:induction false} HitCountsAt(ps: seq<seq<int>>, actual: seq<int>, j: int)
    requires 0 <= j < |ps|
    ensures HitCounts(ps, actual)[j] == HitCount(ps[j], actual)
    decreases |ps|
  {
    if j < |ps| - 1 {
      var init := ps[..|ps| - 1];
      HitCountsAt(init, actual, j);
      assert init[j] == ps[j];
    }
  }

  /** Each prediction of an `Ok` list is the answer of its own call. */
  lemma {:induction false} PredictionsAt(predict: Predictor, training: seq<Draw>, targetDay: int, targetWeekday: int,
                                          calls: seq<Call>, k: nat, j: int)
    requires k <= |calls| && 0 <= j < k
    requires Predictions(predict, training, targetDay, targetWeekday, calls, k).Ok?
    ensures predict(training, targetDay, targetWeekday, calls[j]).Ok?
    ensures Predictions(predict, training, targetDay, targetWeekday, calls, k).value[j]
      == predict(training, targetDay, targetWeekday, calls[j]).value
    decreases k
  {
    if j < k - 1 {
      PredictionsAt(predict, training, targetDay, targetWeekday, calls, k - 1, j);
    }
  }

  /** A trial whose five predictions were made holds five ascending lists of
      ten distinct numbers, the hit count of each, their maximum and mean. */
  predicate WellCounted(t: Trial) {
    && |t.predictions| == 5 && |t.hitCounts| == 5
    && (forall j :: 0 <= j < 5 ==>
          |t.predictions[j]| == 10 && StrictlyAscending(t.predictions[j])
          && t.hitCounts[j] == HitCount(t.predictions[j], t.actual) && t.hitCounts[j] <= 10)
    && t.maxHits in t.hitCounts && (forall j :: 0 <= j < 5 ==> t.hitCounts[j] <= t.maxHits)
    && t.avgHits == Mean(t.hitCounts)
  }

  /** `test_single_draw`: the actual numbers are the first row with the test
      date; a trial that succeeds is `WellCounted`; no row with the date
      raises `IndexError`. */
  lemma SingleDrawMeaning(predict: Predictor, h: seq<Draw>, testDate: int, training: seq<Draw>, targetDay: int,
                          targetWeekday: int, calls: TrialCalls)
    requires TenAscending(predict)
    ensures OnDate(h, testDate) == [] ==>
      SingleDraw(predict, h, testDate, training, targetDay, targetWeekday, calls) == Err(IndexError)
    ensures SingleDraw(predict, h, testDate, training, targetDay, targetWeekday, calls).Ok? ==>
      var t := SingleDraw(predict, h, testDate, training, targetDay, targetWeekday, calls).value;
      && OnDate(h, testDate) != [] && t.date == testDate && t.actual == OnDate(h, testDate)[0].numbers
      && WellCounted(t)
  {
    var ps := Predictions(predict, training, targetDay, targetWeekday, calls, |calls|);
    if OnDate(h, testDate) != [] && ps.Ok? {
      PredictionsTen(predict, training, targetDay, targetWeekday, calls, |calls|);
      CountedTrial(testDate, OnDate(h, testDate)[0].numbers, ps.value);
    }
  }

  /** Each answer of a predictor that answers ten ascending numbers is ten ascending numbers. */
  lemma {:induction false} PredictionsTen(predict: Predictor, training: seq<Draw>, targetDay: int, targetWeekday: int,
                                          calls: seq<Call>, k: nat)
    requires k <= |calls| && TenAscending(predict)
    requires Predictions(predict, training, targetDay, targetWeekday, calls, k).Ok?
    ensures forall j :: 0 <= j < k ==>
      var p := Predictions(predict, training, targetDay, targetWeekday, calls, k).value[j];
      |p| == 10 && StrictlyAscending(p)
    decreases k
  {
    if k > 0 {
      PredictionsTen(predict, training, targetDay, targetWeekday, calls, k - 1);
      var ps := Predictions(predict, training, targetDay, targetWeekday, calls, k - 1).value;
      var p := predict(training, targetDay, targetWeekday, calls[k - 1]).value;
      assert Predictions(predict, training, targetDay, targetWeekday, calls, k).value == ps + [p];
    }
  }

  /** Five predictions of ten ascending numbers make a `WellCounted` trial. */
  lemma CountedTrial(testDate: int, actual: seq<int>, ps: seq<seq<int>>)
    requires |ps| == 5 && forall j :: 0 <= j < 5 ==> |ps[j]| == 10 && StrictlyAscending(ps[j])
    ensures var hits := HitCounts(ps, actual);
      WellCounted(Trial(testDate, actual, ps, hits, MaxOf(hits), Mean(hits)))
  {
    var hits := HitCounts(ps, actual);
    forall j | 0 <= j < 5
      ensures hits[j] == HitCount(ps[j], actual) && hits[j] <= 10
    {
      HitCountsAt(ps, actual, j);
      HitCountBounds(ps[j], actual);
    }
  }

  // ---------------------------------------------------------------------
  // The trials.

  /** `min(num_draws, len(self.original_df) - 1)`, and `range` of a negative
      bound is empty. */
  function TrialCount(h: seq<Draw>, numDraws: int): (n: nat)
    ensures n <= numDraws || n == 0
    ensures n < |h| || n == 0
    ensures n == Min(numDraws, |h| - 1) || (n == 0 && Min(numDraws, |h| - 1) < 0)
  {
    var totalDates := Min(numDraws, |h| - 1);
    if totalDates < 0 then 0 else totalDates
  }

  /** `test_df = self.original_df[self.original_df['开奖日期'] < test_date]`. */
  function Training(h: seq<Draw>, testDate: int): seq<Draw> {
    Before(h, testDate)
  }

  /** One pass of the loop of `test_multiple_draws` for the test date:
      `None` when the training set is empty and the trial is skipped. The
      predictor's target is the day after its newest training draw. */
  function Attempt(predict: Predictor, h: seq<Draw>, calendar: int -> (int, Weekday), calls: TrialCalls,
                   testDate: int): Result<Option<Trial>>
  {
    var training := Training(h, testDate);
    if training == [] then Ok(None)
    else
      var target := calendar(MaxDate(training) + 1);
      Taken(SingleDraw(predict, h, testDate, training, target.0, target.1, calls))
  }

  /** A trial that was made is appended; an exception propagates. */
  function Taken(single: Result<Trial>): Result<Option<Trial>> {
    match single
    case Err(e) => Err(e)
    case Ok(t) => Ok(Some(t))
  }

  /** What a pass of the loop makes of its randomness and its test date. */
  type Pass = (TrialCalls, int) -> Result<Option<Trial>>

  /** The passes of `test_multiple_draws` on the tester's table. */
  function PassOf(predict: Predictor, h: seq<Draw>, calendar: int -> (int, Weekday)): Pass {
    (calls: TrialCalls, testDate: int) => Attempt(predict, h, calendar, calls, testDate)
  }

  /** `results.append(result)` after a pass; an exception ends the run. */
  function Extend(results: Result<seq<Trial>>, attempt: Result<Option<Trial>>): Result<seq<Trial>> {
    match results
    case Err(e) => Err(e)
    case Ok(rs) =>
      match attempt
      case Err(e) => Err(e)
      case Ok(None) => Ok(rs)
      case Ok(Some(t)) => Ok(rs + [t])
  }

  /** The first `n` passes of `test_multiple_draws`: pass `i` tests the date
      of row `i`. */
  function Trials(pass: Pass, h: seq<Draw>, calls: seq<TrialCalls>, n: nat): (r: Result<seq<Trial>>)
    requires n <= |h| && n <= |calls|
    ensures r.Ok? ==> |r.value| <= n
    decreases n
  {
    if n == 0 then Ok([])
    else Extend(Trials(pass, h, calls, n - 1), pass(calls[n - 1], h[n - 1].date))
  }

  /** `test_multiple_draws(num_draws)`: the trials and then the report. The
      tester trains `KL8Predictor` on each training set; `predict` stands for
      that class, and `KL8` is the one the tester uses. */
  method TestMultipleDraws(h: seq<Draw>, numDraws: int, calendar: int -> (int, Weekday), predict: Predictor,
                           calls: seq<TrialCalls>)
    returns (results: Result<seq<Trial>>, report: Result<Report>)
    requires TrialCount(h, numDraws) <= |calls|
    ensures results == Trials(PassOf(predict, h, calendar), h, calls, TrialCount(h, numDraws))
    ensures report == if results.Ok? then TestReport(results.value) else Err(results.error)
  {
    var found: seq<Trial> := [];
    var totalDates := Min(numDraws, |h| - 1);
    ghost var pass := PassOf(predict, h, calendar);
    var i := 0;
    while i < totalDates
      invariant 0 <= i <= TrialCount(h, numDraws)
      invariant Trials(pass, h, calls, i) == Ok(found)
    {
      var attempt := RunPass(h, h[i].date, calendar, predict, calls[i]);
      PassStep(predict, h, calendar, calls, i, found, attempt);
      match attempt {
        case Err(e) =>
          assert Trials(pass, h, calls, i + 1) == Err(e);
          TrialsStayFailed(pass, h, calls, i + 1, TrialCount(h, numDraws));
          return Err(e), Err(e);
        case Ok(None) =>
        case Ok(Some(t)) =>
          found := found + [t];
      }
      i := i + 1;
    }
    assert i == TrialCount(h, numDraws);
    results := Ok(found);
    report := GenerateTestReport(found);
  }

  /** One pass of the loop: the training set of the test date, skipped when
      empty, and otherwise `test_single_draw` with a predictor trained on it
      for the day after its newest draw. */
  method RunPass(h: seq<Draw>, testDate: int, calendar: int -> (int, Weekday), predict: Predictor,
                 calls: TrialCalls) returns (r: Result<Option<Trial>>)
    ensures r == Attempt(predict, h, calendar, calls, testDate)
  {
    var testDf := Training(h, testDate);
    if |testDf| == 0 {
      return Ok(None);
    }
    var target := calendar(MaxDate(testDf) + 1);
    var result := TestSingleDraw(h, testDate, testDf, target.0, target.1, predict, calls);
    if result.Err? {
      return Err(result.error);
    }
    r := Ok(Some(result.value));
  }

  lemma PassStep(predict: Predictor, h: seq<Draw>, calendar: int -> (int, Weekday), calls: seq<TrialCalls>,
                 i: nat, found: seq<Trial>, attempt: Result<Option<Trial>>)
    requires i < |h| && i < |calls|
    requires Trials(PassOf(predict, h, calendar), h, calls, i) == Ok(found)
    requires attempt == Attempt(predict, h, calendar, calls[i], h[i].date)
    ensures Trials(PassOf(predict, h, calendar), h, calls, i + 1) == Extend(Ok(found), attempt)
  {
    TrialsStep(PassOf(predict, h, calendar), h, calls, i);
  }

  lemma TrialsStep(pass: Pass, h: seq<Draw>, calls: seq<TrialCalls>, i: nat)
    requires i < |h| && i < |calls|
    ensures Trials(pass, h, calls, i + 1) == Extend(Trials(pass, h, calls, i), pass(calls[i], h[i].date))
  {
  }

  /** An exception ends the run: no later pass changes a failed run. */
  lemma {:induction false} TrialsStayFailed(pass: Pass, h: seq<Draw>, calls: seq<TrialCalls>, k: nat, n: nat)
    requires k <= n <= |h| && n <= |calls|
    requires Trials(pass, h, calls, k).Err?
    ensures Trials(pass, h, calls, n) == Trials(pass, h, calls, k)
    decreases n
  {
    if n > k {
      TrialsStayFailed(pass, h, calls, k, n - 1);
    }
  }

  /** With no older draw, a pass is skipped. */
  lemma AttemptSkips(predict: Predictor, h: seq<Draw>, calendar: int -> (int, Weekday), calls: TrialCalls,
                     testDate: int)
    requires Training(h, testDate) == []
    ensures Attempt(predict, h, calendar, calls, testDate) == Ok(None)
  {
  }

  /** Causality: a training set holds every draw of the table that is strictly
      older than the test date and nothing else, so never the draw under test. */
  lemma TrainingCausal(h: seq<Draw>, testDate: int)
    ensures forall d :: d in Training(h, testDate) <==> d in h && d.date < testDate
    ensures forall d :: d in h && d.date == testDate ==> d !in Training(h, testDate)
  {
    BeforeMembers(h, testDate);
  }

  /** A pass skips exactly the test dates that no draw of the table is older
      than, and otherwise tests its own date. */
  ghost predicate TestsOwnDate(pass: Pass, h: seq<Draw>) {
    forall calls, testDate ::
      && (Training(h, testDate) == [] ==> pass(calls, testDate) == Ok(None))
      && (pass(calls, testDate).Ok? && Training(h, testDate) != [] ==>
            pass(calls, testDate).value.Some? && pass(calls, testDate).value.value.date == testDate)
  }

  /** Every trial a pass makes has the property `P`. */
  ghost predicate Keeps(pass: Pass, P: Trial -> bool) {
    forall calls, testDate :: pass(calls, testDate).Ok? && pass(calls, testDate).value.Some? ==>
      P(pass(calls, testDate).value.value)
  }

  /** With a training set, a pass is the trial of `test_single_draw`. */
  lemma AttemptRuns(predict: Predictor, h: seq<Draw>, calendar: int -> (int, Weekday), calls: TrialCalls,
                    testDate: int)
    requires Training(h, testDate) != []
    ensures var target := calendar(MaxDate(Training(h, testDate)) + 1);
      Attempt(predict, h, calendar, calls, testDate)
        == Taken(SingleDraw(predict, h, testDate, Training(h, testDate), target.0, target.1, calls))
  {
  }

  /** A pass of `test_multiple_draws` skips only an empty training set and
      otherwise tests its own date. */
  lemma AttemptDate(predict: Predictor, h: seq<Draw>, calendar: int -> (int, Weekday), calls: TrialCalls,
                    testDate: int)
    ensures Training(h, testDate) == [] ==> Attempt(predict, h, calendar, calls, testDate) == Ok(None)
    ensures Attempt(predict, h, calendar, calls, testDate).Ok? && Training(h, testDate) != [] ==>
      Attempt(predict, h, calendar, calls, testDate).value.Some?
      && Attempt(predict, h, calendar, calls, testDate).value.value.date == testDate
  {
    if Training(h, testDate) == [] {
      AttemptSkips(predict, h, calendar, calls, testDate);
    } else {
      AttemptRuns(predict, h, calendar, calls, testDate);
    }
  }

  /** With a predictor that answers ten ascending numbers, a trial a pass
      makes is `WellCounted`. */
  lemma AttemptCounted(predict: Predictor, h: seq<Draw>, calendar: int -> (int, Weekday), calls: TrialCalls,
                       testDate: int)
    requires TenAscending(predict)
    ensures var a := Attempt(predict, h, calendar, calls, testDate);
      a.Ok? && a.value.Some? ==> WellCounted(a.value.value)
  {
    var training := Training(h, testDate);
    if training == [] {
      AttemptSkips(predict, h, calendar, calls, testDate);
    } else {
      var target := calendar(MaxDate(training) + 1);
      var single := SingleDraw(predict, h, testDate, training, target.0, target.1, calls);
      AttemptRuns(predict, h, calendar, calls, testDate);
      SingleDrawMeaning(predict, h, testDate, training, target.0, target.1, calls);
      TrialTaken(single, Attempt(predict, h, calendar, calls, testDate));
    }
  }

  lemma TrialTaken(single: Result<Trial>, attempt: Result<Option<Trial>>)
    requires single.Ok? ==> WellCounted(single.value) && attempt == Ok(Some(single.value))
    requires single.Err? ==> attempt.Err?
    ensures attempt.Ok? ==> attempt.value.Some? && WellCounted(attempt.value.value)
  {
  }

  /** The passes of `test_multiple_draws` test their own dates, and with a
      predictor that answers ten ascending numbers they count well. */
  lemma PassOfMeaning(predict: Predictor, h: seq<Draw>, calendar: int -> (int, Weekday))
    ensures TestsOwnDate(PassOf(predict, h, calendar), h)
    ensures TenAscending(predict) ==> Keeps(PassOf(predict, h, calendar), WellCounted)
  {
    forall calls, testDate
      ensures Training(h, testDate) == [] ==> PassOf(predict, h, calendar)(calls, testDate) == Ok(None)
      ensures PassOf(predict, h, calendar)(calls, testDate).Ok? && Training(h, testDate) != [] ==>
        PassOf(predict, h, calendar)(calls, testDate).value.Some?
        && PassOf(predict, h, calendar)(calls, testDate).value.value.date == testDate
    {
      AttemptDate(predict, h, calendar, calls, testDate);
    }
    if TenAscending(predict) {
      forall calls, testDate | PassOf(predict, h, calendar)(calls, testDate).Ok?
        && PassOf(predict, h, calendar)(calls, testDate).value.Some?
        ensures WellCounted(PassOf(predict, h, calendar)(calls, testDate).value.value)
      {
        AttemptCounted(predict, h, calendar, calls, testDate);
      }
    }
  }

  /** Dates strictly decrease down the table: the tester's sorted table when
      no two draws share a date. */
  predicate StrictlyNewestFirst(h: seq<Draw>) {
    forall i, j :: 0 <= i < j < |h| ==> h[i].date > h[j].date
  }

  /** With distinct dates, the draw after row `i` is older than it. */
  lemma TrainingHasNext(h: seq<Draw>, i: int)
    requires StrictlyNewestFirst(h) && 0 <= i < |h| - 1
    ensures Training(h, h[i].date) != []
  {
    BeforeMembers(h, h[i].date);
    assert h[i + 1] in Training(h, h[i].date);
  }

  /** The skip rule never fires when the dates are distinct: each trial has
      the next row in its training set, so a run that succeeds has one result
      per trial, the `i`-th testing row `i`. */
  lemma {:induction false} NoSkips(pass: Pass, h: seq<Draw>, calls: seq<TrialCalls>, n: nat)
    requires TestsOwnDate(pass, h) && StrictlyNewestFirst(h) && n < |h| && n <= |calls|
    requires Trials(pass, h, calls, n).Ok?
    ensures |Trials(pass, h, calls, n).value| == n
    ensures forall i :: 0 <= i < n ==> Trials(pass, h, calls, n).value[i].date == h[i].date
    decreases n
  {
    if n > 0 {
      NoSkips(pass, h, calls, n - 1);
      TrainingHasNext(h, n - 1);
    }
  }

  /** Every result of a run has a property that every trial of a pass has. */
  lemma {:induction false} TrialsKeep(pass: Pass, h: seq<Draw>, calls: seq<TrialCalls>, n: nat, P: Trial -> bool)
    requires n <= |h| && n <= |calls|
    requires Keeps(pass, P) && Trials(pass, h, calls, n).Ok?
    ensures forall j :: 0 <= j < |Trials(pass, h, calls, n).value| ==> P(Trials(pass, h, calls, n).value[j])
    decreases n
  {
    if n > 0 {
      TrialsKeep(pass, h, calls, n - 1, P);
    }
  }

  // ---------------------------------------------------------------------
  // The report.

  /** The numbers `generate_test_report` computes. */
  datatype Report = Report(trials: nat, totalPredictions: nat, totalMaxHits: int, totalAvgHits: real,
                           distribution: seq<nat>, hitFivePlus: int, hitFivePlusRate: real)

  /** `{i: 0 for i in range(11)}`. */
  function NoHits(): (r: seq<nat>)
    ensures |r| == 11 && forall v :: 0 <= v < 11 ==> r[v] == 0
  {
    seq(11, v => 0)
  }

  /** `hit_distribution[hits] += 1` for every item of `hits`; an item outside
      the keys is left to `HitsAtMost`. */
  function Bump(dist: seq<nat>, hits: seq<nat>): (r: seq<nat>)
    ensures |r| == |dist|
    decreases |hits|
  {
    if hits == [] then dist
    else
      var prev := Bump(dist, hits[..|hits| - 1]);
      var v := hits[|hits| - 1];
      if v < |prev| then prev[v := prev[v] + 1] else prev
  }

  predicate HitsAtMost(hits: seq<nat>, m: int) {
    forall j :: 0 <= j < |hits| ==> hits[j] <= m
  }

  /** Every hit count is a key of `hit_distribution`. */
  predicate HitsInRange(results: seq<Trial>) {
    forall i :: 0 <= i < |results| ==> HitsAtMost(results[i].hitCounts, 10)
  }

  /** The loop over `results` and their `hit_counts`. */
  function Distribution(results: seq<Trial>): (r: seq<nat>)
    ensures |r| == 11
    decreases |results|
  {
    if results == [] then NoHits()
    else Bump(Distribution(results[..|results| - 1]), results[|results| - 1].hitCounts)
  }

  function SumMaxHits(results: seq<Trial>): int
    decreases |results|
  {
    if results == [] then 0 else SumMaxHits(results[..|results| - 1]) + results[|results| - 1].maxHits
  }

  function SumAvgHits(results: seq<Trial>): real
    decreases |results|
  {
    if results == [] then 0.0 else SumAvgHits(results[..|results| - 1]) + results[|results| - 1].avgHits
  }

  /** `generate_test_report(results)`: the mean at line 86 raises
      `ZeroDivisionError` on no results; a hit count that is not a key of
      the distribution raises `KeyError`. */
  function TestReport(results: seq<Trial>): Result<Report> {
    if results == [] then Err(ZeroDivision)
    else if !HitsInRange(results) then Err(KeyError)
    else
      var totalPredictions := |results| * 5;
      var dist := Distribution(results);
      var fivePlus := Sum(dist[5..]);
      Ok(Report(|results|, totalPredictions, SumMaxHits(results), SumAvgHits(results) / (|results| as real),
                dist, fivePlus, (fivePlus as real) / (totalPredictions as real) * 100.0))
  }

  method GenerateTestReport(results: seq<Trial>) returns (r: Result<Report>)
    ensures r == TestReport(results)
  {
    var totalPredictions := |results| * 5;
    var totalMaxHits := SumMaxHits(results);
    if |results| == 0 {
      return Err(ZeroDivision);
    }
    var totalAvgHits := SumAvgHits(results) / (|results| as real);
    var hitDistribution := NoHits();
    var i := 0;
    while i < |results|
      invariant 0 <= i <= |results|
      invariant HitsInRange(results[..i])
      invariant hitDistribution == Distribution(results[..i])
    {
      assert results[..i + 1][..i] == results[..i];
      var next := AddHits(hitDistribution, results[i].hitCounts);
      if next.Err? {
        return Err(KeyError);
      }
      hitDistribution := next.value;
      i := i + 1;
    }
    assert results[..i] == results;
    var hit5Plus := Sum(hitDistribution[5..]);
    r := Ok(Report(|results|, totalPredictions, totalMaxHits, totalAvgHits, hitDistribution, hit5Plus,
                   (hit5Plus as real) / (totalPredictions as real) * 100.0));
  }

  /** The inner loop over one trial's `hit_counts`. */
  method AddHits(dist: seq<nat>, hits: seq<nat>) returns (r: Result<seq<nat>>)
    requires |dist| == 11
    ensures HitsAtMost(hits, 10) ==> r == Ok(Bump(dist, hits))
    ensures !HitsAtMost(hits, 10) ==> r == Err(KeyError)
  {
    var d := dist;
    var j := 0;
    while j < |hits|
      invariant 0 <= j <= |hits|
      invariant HitsAtMost(hits[..j], 10)
      invariant d == Bump(dist, hits[..j])
    {
      assert hits[..j + 1][..j] == hits[..j];
      var v := hits[j];
      if v > 10 {
        return Err(KeyError);
      }
      d := d[v := d[v] + 1];
      j := j + 1;
    }
    assert hits[..j] == hits;
    r := Ok(d);
  }

  // ---------------------------------------------------------------------
  // What the report means.

  /** Every hit count of every trial, in order. */
  function AllHits(results: seq<Trial>): seq<nat>
    decreases |results|
  {
    if results == [] then [] else AllHits(results[..|results| - 1]) + results[|results| - 1].hitCounts
  }

  /** How many items of `s` are at least `k`. */
  function CountAtLeast(s: seq<nat>, k: nat): nat
    decreases |s|
  {
    if s == [] then 0 else CountAtLeast(s[..|s| - 1], k) + (if s[|s| - 1] >= k then 1 else 0)
  }

  lemma {:induction false} CountAtLeastBound(s: seq<nat>, k: nat)
    ensures CountAtLeast(s, k) <= |s|
    decreases |s|
  {
    if s != [] {
      CountAtLeastBound(s[..|s| - 1], k);
    }
  }

  lemma {:induction false} CountAtLeastConcat(a: seq<nat>, b: seq<nat>, k: nat)
    ensures CountAtLeast(a + b, k) == CountAtLeast(a, k) + CountAtLeast(b, k)
    decreases |b|
  {
    if b != [] {
      var init := b[..|b| - 1];
      CountAtLeastConcat(a, init, k);
      assert (a + b)[..|a + b| - 1] == a + init;
    } else {
      assert a + b == a;
    }
  }

  /** Bumping adds to the bucket of `v` the number of times `v` occurs. */
  lemma {:induction false} BumpCounts(dist: seq<nat>, hits: seq<nat>, v: int)
    requires 0 <= v < |dist|
    ensures Bump(dist, hits)[v] == dist[v] + Occurrences(hits, v)
    decreases |hits|
  {
    if hits != [] {
      BumpCounts(dist, hits[..|hits| - 1], v);
    }
  }

  /** Bumping in-range hit counts adds one to the total per hit count. */
  lemma {:induction false} BumpTotal(dist: seq<nat>, hits: seq<nat>)
    requires HitsAtMost(hits, |dist| - 1)
    ensures Sum(Bump(dist, hits)) == Sum(dist) + |hits|
    decreases |hits|
  {
    if hits != [] {
      var init := hits[..|hits| - 1];
      assert HitsAtMost(init, |dist| - 1);
      BumpTotal(dist, init);
      var prev := Bump(dist, init);
      SumUpdate(prev, hits[|hits| - 1], 1);
    }
  }

  /** Bumping in-range hit counts adds one to the buckets from 5 up per hit
      count of at least 5. */
  lemma {:induction false} BumpFivePlus(dist: seq<nat>, hits: seq<nat>)
    requires |dist| == 11 && HitsAtMost(hits, 10)
    ensures Sum(Bump(dist, hits)[5..]) == Sum(dist[5..]) + CountAtLeast(hits, 5)
    decreases |hits|
  {
    if hits != [] {
      var init := hits[..|hits| - 1];
      assert HitsAtMost(init, 10);
      BumpFivePlus(dist, init);
      var prev := Bump(dist, init);
      var v := hits[|hits| - 1];
      SuffixUpdate(prev, v, 5);
      if v >= 5 {
        SumUpdate(prev[5..], v - 5, 1);
      }
    }
  }

  /** Adding one to item `v` adds one to item `v - k` of the suffix from `k`
      when `v` is in it, and leaves the suffix alone otherwise. */
  lemma SuffixUpdate(s: seq<int>, v: int, k: int)
    requires 0 <= k <= |s| && 0 <= v < |s|
    ensures v >= k ==> s[v := s[v] + 1][k..] == s[k..][v - k := s[k..][v - k] + 1]
    ensures v < k ==> s[v := s[v] + 1][k..] == s[k..]
  {
  }

  /** Bucket `v` of the distribution counts the hit counts equal to `v`. */
  lemma {:induction false} DistributionCounts(results: seq<Trial>, v: int)
    requires 0 <= v < 11
    ensures Distribution(results)[v] == Occurrences(AllHits(results), v)
    decreases |results|
  {
    if results != [] {
      var init := results[..|results| - 1];
      DistributionCounts(init, v);
      BumpCounts(Distribution(init), results[|results| - 1].hitCounts, v);
      OccurrencesConcat(AllHits(init), results[|results| - 1].hitCounts, v);
    }
  }

  /** With every hit count a key, the buckets add up to the number of hit
      counts, and those from 5 up to the number of hit counts of at least 5. */
  lemma {:induction false} DistributionSums(results: seq<Trial>)
    requires HitsInRange(results)
    ensures Sum(Distribution(results)) == |AllHits(results)|
    ensures Sum(Distribution(results)[5..]) == CountAtLeast(AllHits(results), 5)
    decreases |results|
  {
    if results == [] {
      SumZero(NoHits());
      SumZero(NoHits()[5..]);
    } else {
      var init := results[..|results| - 1];
      assert HitsInRange(init) by {
        forall i | 0 <= i < |init| ensures HitsAtMost(init[i].hitCounts, 10) {
          assert init[i] == results[i];
        }
      }
      DistributionSums(init);
      BumpTotal(Distribution(init), results[|results| - 1].hitCounts);
      BumpFivePlus(Distribution(init), results[|results| - 1].hitCounts);
      CountAtLeastConcat(AllHits(init), results[|results| - 1].hitCounts, 5);
    }
  }

  /** Five hit counts per trial. */
  lemma {:induction false} AllHitsLength(results: seq<Trial>)
    requires forall i :: 0 <= i < |results| ==> |results[i].hitCounts| == 5
    ensures |AllHits(results)| == 5 * |results|
    decreases |results|
  {
    if results != [] {
      var init := results[..|results| - 1];
      assert forall i :: 0 <= i < |init| ==> init[i] == results[i];
      AllHitsLength(init);
    }
  }

  /** `generate_test_report`: no results raise `ZeroDivisionError`, a hit
      count that is not a key raises `KeyError`; otherwise the report counts
      the trials and five predictions each, bucket `v` counts the hit counts
      equal to `v`, the buckets add up to the number of hit counts, and
      `hit_5_plus` counts the hit counts of at least 5. */
  lemma ReportMeaning(results: seq<Trial>)
    ensures TestReport(results) == Err(ZeroDivision) <==> results == []
    ensures TestReport(results) == Err(KeyError) <==> results != [] && !HitsInRange(results)
    ensures TestReport(results).Ok? ==>
      var r := TestReport(results).value;
      && r.trials == |results| && r.totalPredictions == 5 * |results|
      && r.totalMaxHits == SumMaxHits(results)
      && |r.distribution| == 11
      && (forall v: int :: 0 <= v < 11 ==> r.distribution[v] == Occurrences(AllHits(results), v))
      && Sum(r.distribution) == |AllHits(results)|
      && r.hitFivePlus == CountAtLeast(AllHits(results), 5)
  {
    if TestReport(results).Ok? {
      forall v: int | 0 <= v < 11 ensures Distribution(results)[v] == Occurrences(AllHits(results), v) {
        DistributionCounts(results, v);
      }
      DistributionSums(results);
    }
  }

  lemma RateBound(part: nat, whole: nat)
    requires 0 < whole && part <= whole
    ensures 0.0 <= (part as real) / (whole as real) * 100.0 <= 100.0
  {
    var q := (part as real) / (whole as real);
    assert q * (whole as real) == part as real;
  }

  /** A report on `WellCounted` trials: every hit count is a key, the
      buckets add up to the number of predictions, and the share of
      predictions with five hits or more is a percentage. */
  lemma CountedReport(results: seq<Trial>)
    requires results != [] && forall i :: 0 <= i < |results| ==> WellCounted(results[i])
    ensures TestReport(results).Ok?
    ensures var r := TestReport(results).value;
      && Sum(r.distribution) == r.totalPredictions
      && 0 <= r.hitFivePlus <= r.totalPredictions
      && 0.0 <= r.hitFivePlusRate <= 100.0
  {
    assert HitsInRange(results);
    ReportMeaning(results);
    AllHitsLength(results);
    DistributionSums(results);
    CountAtLeastBound(AllHits(results), 5);
    var r := TestReport(results).value;
    RateBound(r.hitFivePlus, r.totalPredictions);
  }

  /** A run of the tester over a table of distinct dates with a predictor
      that answers ten ascending numbers (as `KL8TenAscending` shows of
      `KL8`): one trial per test date, the `i`-th testing row `i`, every
      trial `WellCounted`, and a report exactly when there was a date to
      test, whose buckets add up to the number of predictions. */
  lemma RunMeaning(predict: Predictor, h: seq<Draw>, numDraws: int, calendar: int -> (int, Weekday),
                   calls: seq<TrialCalls>)
    requires TenAscending(predict) && StrictlyNewestFirst(h) && TrialCount(h, numDraws) <= |calls|
    ensures var results := Trials(PassOf(predict, h, calendar), h, calls, TrialCount(h, numDraws));
      results.Ok? ==>
        && |results.value| == TrialCount(h, numDraws)
        && (forall i :: 0 <= i < |results.value| ==> results.value[i].date == h[i].date)
        && (forall i :: 0 <= i < |results.value| ==> WellCounted(results.value[i]))
        && (TestReport(results.value).Ok? <==> TrialCount(h, numDraws) > 0)
        && (TestReport(results.value).Ok? ==>
              && Sum(TestReport(results.value).value.distribution) == TestReport(results.value).value.totalPredictions
              && TestReport(results.value).value.hitFivePlus <= TestReport(results.value).value.totalPredictions)
  {
    var pass := PassOf(predict, h, calendar);
    var n := TrialCount(h, numDraws);
    PassOfMeaning(predict, h, calendar);
    if Trials(pass, h, calls, n).Ok? {
      TrialsKeep(pass, h, calls, n, WellCounted);
      var results := Trials(pass, h, calls, n).value;
      ReportMeaning(results);
      if n > 0 {
        NoSkips(pass, h, calls, n);
        CountedReport(results);
      }
    }
  }
}
