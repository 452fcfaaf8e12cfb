/** The draw record of the history table and the row selections the
    predictor and the tester make on it. A date is a day ordinal; the
    calendar columns `day_of_month` and `day_of_week` that the predictor
    derives from it are given with the record. */
module Draws {
  import opened Common

  /** The numbers of the game are 1..Numbers; named so that the verifier does
      not unroll the loops over them 80 times wherever they occur. */
  const Numbers: int := 80

  datatype Draw = Draw(issue: int, date: int, dayOfMonth: int, weekday: int, numbers: seq<int>)

  /** A well-formed Happy-8 draw: 20 distinct numbers from 1..80. */
  predicate ValidDraw(d: Draw) {
    |d.numbers| == 20 && Distinct(d.numbers) && AllIn(d.numbers, 1, 80)
  }

  predicate AllValid(h: seq<Draw>) {
    forall i :: 0 <= i < |h| ==> ValidDraw(h[i])
  }

  /** The order the predictor puts its table in: newest date first. */
  predicate NewestFirst(h: seq<Draw>) {
    forall i, j :: 0 <= i < j < |h| ==> h[i].date >= h[j].date
  }

  /** `df['开奖日期'].max()`. */
  function MaxDate(h: seq<Draw>): (m: int)
    requires h != []
    ensures forall i :: 0 <= i < |h| ==> h[i].date <= m
    ensures exists i :: 0 <= i < |h| && h[i].date == m
    decreases |h|
  {
    if |h| == 1 then h[0].date
    else
      var rest := MaxDate(h[1..]);
      assert forall i :: 1 <= i < |h| ==> h[i] == h[1..][i - 1];
      if h[0].date >= rest then h[0].date else rest
  }

  /** Rows dated on or after `cutoff`: `df[df['开奖日期'] >= cutoff]`. */
  function OnOrAfter(h: seq<Draw>, cutoff: int): seq<Draw>
    decreases |h|
  {
    if h == [] then []
    else
      var last := h[|h| - 1];
      OnOrAfter(h[..|h| - 1], cutoff) + (if last.date >= cutoff then [last] else [])
  }

  lemma {:induction false} OnOrAfterMembers(h: seq<Draw>, cutoff: int)
    ensures forall d :: d in OnOrAfter(h, cutoff) <==> d in h && d.date >= cutoff
    ensures |OnOrAfter(h, cutoff)| <= |h|
    decreases |h|
  {
    if h != [] {
      var last := h[|h| - 1];
      assert h == h[..|h| - 1] + [last];
      OnOrAfterMembers(h[..|h| - 1], cutoff);
    }
  }

  /** Rows dated strictly before `t`: `df[df['开奖日期'] < t]`. */
  function Before(h: seq<Draw>, t: int): seq<Draw>
    decreases |h|
  {
    if h == [] then []
    else
      var last := h[|h| - 1];
      Before(h[..|h| - 1], t) + (if last.date < t then [last] else [])
  }

  lemma {:induction false} BeforeMembers(h: seq<Draw>, t: int)
    ensures forall d :: d in Before(h, t) <==> d in h && d.date < t
    ensures |Before(h, t)| <= |h|
    decreases |h|
  {
    if h != [] {
      var last := h[|h| - 1];
      assert h == h[..|h| - 1] + [last];
      BeforeMembers(h[..|h| - 1], t);
    }
  }

  /** Rows dated exactly `t`: `df[df['开奖日期'] == t]`. */
  function OnDate(h: seq<Draw>, t: int): seq<Draw>
    decreases |h|
  {
    if h == [] then []
    else
      var last := h[|h| - 1];
      OnDate(h[..|h| - 1], t) + (if last.date == t then [last] else [])
  }

  lemma {:induction false} OnDateMembers(h: seq<Draw>, t: int)
    ensures forall d :: d in OnDate(h, t) <==> d in h && d.date == t
    ensures |OnDate(h, t)| <= |h|
    decreases |h|
  {
    if h != [] {
      var last := h[|h| - 1];
      assert h == h[..|h| - 1] + [last];
      OnDateMembers(h[..|h| - 1], t);
    }
  }

  /** Rows with the given day of the month: `df[df['day_of_month'] == day]`. */
  function SameDayOfMonth(h: seq<Draw>, day: int): seq<Draw>
    decreases |h|
  {
    if h == [] then []
    else
      var last := h[|h| - 1];
      SameDayOfMonth(h[..|h| - 1], day) + (if last.dayOfMonth == day then [last] else [])
  }

  lemma {:induction false} SameDayOfMonthMembers(h: seq<Draw>, day: int)
    ensures forall d :: d in SameDayOfMonth(h, day) <==> d in h && d.dayOfMonth == day
    ensures |SameDayOfMonth(h, day)| <= |h|
    decreases |h|
  {
    if h != [] {
      var last := h[|h| - 1];
      assert h == h[..|h| - 1] + [last];
      SameDayOfMonthMembers(h[..|h| - 1], day);
    }
  }

  /** Rows with the given weekday: `df[df['day_of_week'] == weekday]`. */
  function SameWeekday(h: seq<Draw>, weekday: int): seq<Draw>
    decreases |h|
  {
    if h == [] then []
    else
      var last := h[|h| - 1];
      SameWeekday(h[..|h| - 1], weekday) + (if last.weekday == weekday then [last] else [])
  }

  lemma {:induction false} SameWeekdayMembers(h: seq<Draw>, weekday: int)
    ensures forall d :: d in SameWeekday(h, weekday) <==> d in h && d.weekday == weekday
    ensures |SameWeekday(h, weekday)| <= |h|
    decreases |h|
  {
    if h != [] {
      var last := h[|h| - 1];
      assert h == h[..|h| - 1] + [last];
      SameWeekdayMembers(h[..|h| - 1], weekday);
    }
  }

  /** The rows `analyze_frequency(days)` reads: everything when `days` is falsy
      (0 stands for both `None` and `0`), else the rows dated on or after
      `max date - days`. */
  function Window(h: seq<Draw>, days: int): seq<Draw> {
    if days == 0 then h
    else if h == [] then []
    else OnOrAfter(h, MaxDate(h) - days)
  }

  lemma WindowMembers(h: seq<Draw>, days: int)
    ensures forall d :: d in Window(h, days) ==> d in h
  {
    if days != 0 && h != [] {
      OnOrAfterMembers(h, MaxDate(h) - days);
    }
  }

  /** A window of a non-negative number of days keeps the newest row, so its
      newest date is the history's newest date. */
  lemma WindowKeepsNewest(h: seq<Draw>, days: int)
    requires h != []
    requires days >= 0
    ensures Window(h, days) != []
    ensures MaxDate(Window(h, days)) == MaxDate(h)
  {
    if days != 0 {
      var i :| 0 <= i < |h| && h[i].date == MaxDate(h);
      NewestKept(h, MaxDate(h) - days, h[i]);
      SameNewest(h, OnOrAfter(h, MaxDate(h) - days), h[i]);
    }
  }

  lemma NewestKept(h: seq<Draw>, cutoff: int, d: Draw)
    requires d in h && d.date >= cutoff
    ensures d in OnOrAfter(h, cutoff)
    ensures forall x :: x in OnOrAfter(h, cutoff) ==> x in h
  {
    OnOrAfterMembers(h, cutoff);
  }

  /** A selection of rows that keeps a newest row has the same newest date. */
  lemma SameNewest(h: seq<Draw>, w: seq<Draw>, d: Draw)
    requires h != [] && (forall x :: x in w ==> x in h) && d in w && d.date == MaxDate(h)
    ensures w != [] && MaxDate(w) == MaxDate(h)
  {
    var j :| 0 <= j < |w| && w[j] == d;
    assert w[j].date <= MaxDate(w);
    var k :| 0 <= k < |w| && w[k].date == MaxDate(w);
    assert w[k] in h;
  }
}
