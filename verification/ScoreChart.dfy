// The score-evolution chart: one row for every time at which some team solved
// something, a zero row five minutes before the first, and in each row every
// team's score so far. Times are in milliseconds, scores are real numbers.
module ScoreChart {
  datatype Solve = Solve(time: int, value: real)
  datatype Team = Team(name: string, solves: seq<Solve>)
  datatype Field = Text(text: string) | Number(number: real)

  // A row, as an object whose fields are looked up by name.
  type Point = map<string, Field>

  const LEAD: int := 5 * 60 * 1000

  // ---- scores ----

  function UpTo(solves: seq<Solve>, t: int): seq<Solve> {
    if solves == [] then []
    else
      var last := solves[|solves| - 1];
      var kept := UpTo(solves[..|solves| - 1], t);
      if last.time <= t then kept + [last] else kept
  }

  function Sum(solves: seq<Solve>): real {
    if solves == [] then 0.0 else Sum(solves[..|solves| - 1]) + solves[|solves| - 1].value
  }

  function Score(solves: seq<Solve>, t: int): real {
    Sum(UpTo(solves, t))
  }

  function Scores(teams: seq<Team>, t: int): seq<real> {
    seq(|teams|, i requires 0 <= i < |teams| => Score(teams[i].solves, t))
  }

  function Zeros(teams: seq<Team>): seq<real> {
    seq(|teams|, i => 0.0)
  }

  // ---- times ----

  function SolveTimes(solves: seq<Solve>): seq<int> {
    seq(|solves|, i requires 0 <= i < |solves| => solves[i].time)
  }

  function AllTimes(teams: seq<Team>): seq<int> {
    if teams == [] then [] else SolveTimes(teams[0].solves) + AllTimes(teams[1..])
  }

  predicate HasTime(teams: seq<Team>, t: int) {
    exists i, j :: 0 <= i < |teams| && 0 <= j < |teams[i].solves| && teams[i].solves[j].time == t
  }

  predicate Increasing(ts: seq<int>) {
    forall i, j :: 0 <= i < j < |ts| ==> ts[i] < ts[j]
  }

  // First occurrences, in order.
  function Distinct(ts: seq<int>): (r: seq<int>)
    ensures forall t :: t in r <==> t in ts
    ensures forall i, j :: 0 <= i < j < |r| ==> r[i] != r[j]
  {
    if ts == [] then []
    else
      var last := ts[|ts| - 1];
      var r := Distinct(ts[..|ts| - 1]);
      assert ts == ts[..|ts| - 1] + [last];
      if last in r then r else r + [last]
  }

  function InsertTime(t: int, ts: seq<int>): seq<int> {
    if ts == [] || t <= ts[0] then [t] + ts else [ts[0]] + InsertTime(t, ts[1..])
  }

  function SortTimes(ts: seq<int>): seq<int> {
    if ts == [] then [] else InsertTime(ts[0], SortTimes(ts[1..]))
  }

  function Dates(teams: seq<Team>): seq<int> {
    SortTimes(Distinct(AllTimes(teams)))
  }

  lemma {:induction false} AllTimesMembers(teams: seq<Team>, t: int)
    ensures t in AllTimes(teams) <==> HasTime(teams, t)
    decreases teams
  {
    if teams != [] {
      var first, rest := teams[0].solves, teams[1..];
      AllTimesMembers(rest, t);
      assert t in SolveTimes(first) <==> exists j :: 0 <= j < |first| && first[j].time == t by {
        if j :| 0 <= j < |first| && first[j].time == t {
          assert SolveTimes(first)[j] == t;
        }
      }
      assert forall i :: 0 < i < |teams| ==> teams[i] == rest[i - 1];
      if HasTime(teams, t) {
        var i, j :| 0 <= i < |teams| && 0 <= j < |teams[i].solves| && teams[i].solves[j].time == t;
        assert i > 0 ==> rest[i - 1] == teams[i];
      }
      if HasTime(rest, t) {
        var i, j :| 0 <= i < |rest| && 0 <= j < |rest[i].solves| && rest[i].solves[j].time == t;
        assert teams[i + 1] == rest[i];
      }
    }
  }

  lemma {:induction false} InsertTimeSorts(t: int, ts: seq<int>)
    requires Increasing(ts) && t !in ts
    ensures Increasing(InsertTime(t, ts))
    ensures forall u :: u in InsertTime(t, ts) <==> u == t || u in ts
    decreases ts
  {
    if ts != [] && t > ts[0] {
      InsertTimeSorts(t, ts[1..]);
      var tail := InsertTime(t, ts[1..]);
      assert forall i :: 0 <= i < |tail| ==> tail[i] in tail;
      assert forall u :: u in ts <==> u == ts[0] || u in ts[1..];
    }
  }

  lemma {:induction false} SortTimesSorts(ts: seq<int>)
    requires forall i, j :: 0 <= i < j < |ts| ==> ts[i] != ts[j]
    ensures Increasing(SortTimes(ts))
    ensures forall t :: t in SortTimes(ts) <==> t in ts
    decreases ts
  {
    if ts != [] {
      SortTimesSorts(ts[1..]);
      InsertTimeSorts(ts[0], SortTimes(ts[1..]));
      assert forall t :: t in ts <==> t == ts[0] || t in ts[1..];
    }
  }

  // The rows' times: exactly the solve times, each once, in order.
  lemma DatesAreSolveTimes(teams: seq<Team>)
    ensures Increasing(Dates(teams))
    ensures forall t :: t in Dates(teams) <==> HasTime(teams, t)
  {
    SortTimesSorts(Distinct(AllTimes(teams)));
    forall t
      ensures t in Dates(teams) <==> HasTime(teams, t)
    {
      AllTimesMembers(teams, t);
    }
  }

  lemma {:induction false} IncreasingIsDetermined(a: seq<int>, b: seq<int>)
    requires Increasing(a) && Increasing(b) && forall t :: t in a <==> t in b
    ensures a == b
    decreases a
  {
    assert a != [] ==> a[0] in a && a[0] in b;
    assert b != [] ==> b[0] in b && b[0] in a;
    if a != [] {
      assert a[0] == b[0];
      assert forall t :: t in a[1..] <==> t in a && t != a[0];
      assert forall t :: t in b[1..] <==> t in b && t != b[0];
      IncreasingIsDetermined(a[1..], b[1..]);
    }
  }

  // The order of teams and of their solves does not matter to the times.
  lemma DatesIgnoreOrder(teams: seq<Team>, others: seq<Team>)
    requires forall t :: HasTime(teams, t) <==> HasTime(others, t)
    ensures Dates(teams) == Dates(others)
  {
    DatesAreSolveTimes(teams);
    DatesAreSolveTimes(others);
    IncreasingIsDetermined(Dates(teams), Dates(others));
  }

  // ---- a column against a running total ----

  function InsertSolve(s: Solve, solves: seq<Solve>): seq<Solve> {
    if solves == [] || s.time <= solves[0].time then [s] + solves
    else [solves[0]] + InsertSolve(s, solves[1..])
  }

  function ByTime(solves: seq<Solve>): seq<Solve> {
    if solves == [] then [] else InsertSolve(solves[0], ByTime(solves[1..]))
  }

  predicate Sorted(solves: seq<Solve>) {
    forall i, j :: 0 <= i < j < |solves| ==> solves[i].time <= solves[j].time
  }

  predicate SortedTimes(ts: seq<int>) {
    forall i, j :: 0 <= i < j < |ts| ==> ts[i] <= ts[j]
  }

  // One walk over the solves by time, reporting the running total at each date.
  function RunningTotals(solves: seq<Solve>, dates: seq<int>, total: real): seq<real>
    decreases |solves| + |dates|
  {
    if dates == [] then []
    else if solves != [] && solves[0].time <= dates[0] then
      RunningTotals(solves[1..], dates, total + solves[0].value)
    else [total] + RunningTotals(solves, dates[1..], total)
  }

  lemma {:induction false} ScoreFirst(solves: seq<Solve>, t: int)
    requires solves != []
    ensures Score(solves, t) == (if solves[0].time <= t then solves[0].value else 0.0) + Score(solves[1..], t)
    decreases solves
  {
    var n := |solves| - 1;
    if n == 0 {
      assert UpTo(solves[..0], t) == [] && UpTo(solves[1..], t) == [];
    } else {
      ScoreFirst(solves[..n], t);
      assert solves[..n][1..] == solves[1..][..n - 1] && solves[1..][n - 1] == solves[n];
      ScoreLast(solves, t);
      ScoreLast(solves[1..], t);
    }
  }

  lemma ScoreLast(solves: seq<Solve>, t: int)
    requires solves != []
    ensures var n := |solves| - 1;
      Score(solves, t) == Score(solves[..n], t) + if solves[n].time <= t then solves[n].value else 0.0
  {
    var n := |solves| - 1;
    var kept := UpTo(solves[..n], t);
    assert (kept + [solves[n]])[..|kept|] == kept;
  }

  lemma {:induction false} InsertKeepsScore(s: Solve, solves: seq<Solve>, t: int)
    ensures Score(InsertSolve(s, solves), t) == Score([s] + solves, t)
    decreases solves
  {
    if solves != [] && s.time > solves[0].time {
      var tail := InsertSolve(s, solves[1..]);
      InsertKeepsScore(s, solves[1..], t);
      ScoreFirst([solves[0]] + tail, t);
      ScoreFirst([s] + solves[1..], t);
      ScoreFirst([s] + solves, t);
      ScoreFirst(solves, t);
      assert ([solves[0]] + tail)[1..] == tail;
      assert ([s] + solves[1..])[1..] == solves[1..] && ([s] + solves)[1..] == solves;
    }
  }

  lemma {:induction false} InsertSorts(s: Solve, solves: seq<Solve>)
    requires Sorted(solves)
    ensures Sorted(InsertSolve(s, solves))
    ensures forall u :: u in InsertSolve(s, solves) <==> u == s || u in solves
    decreases solves
  {
    if solves != [] && s.time > solves[0].time {
      InsertSorts(s, solves[1..]);
      var tail := InsertSolve(s, solves[1..]);
      assert forall i :: 0 <= i < |tail| ==> tail[i] in tail;
      assert forall u :: u in solves <==> u == solves[0] || u in solves[1..];
    }
  }

  lemma {:induction false} ByTimeSorts(solves: seq<Solve>, t: int)
    ensures Sorted(ByTime(solves)) && Score(ByTime(solves), t) == Score(solves, t)
    decreases solves
  {
    if solves != [] {
      var rest := ByTime(solves[1..]);
      ByTimeSorts(solves[1..], t);
      InsertSorts(solves[0], rest);
      InsertKeepsScore(solves[0], rest, t);
      ScoreFirst([solves[0]] + rest, t);
      ScoreFirst(solves, t);
      assert ([solves[0]] + rest)[1..] == rest;
    }
  }

  lemma {:induction false} NothingYet(solves: seq<Solve>, t: int)
    requires Sorted(solves) && (solves != [] ==> t < solves[0].time)
    ensures Score(solves, t) == 0.0
    decreases solves
  {
    if solves != [] {
      ScoreFirst(solves, t);
      NothingYet(solves[1..], t);
    }
  }

  lemma {:induction false} RunningTotalsAt(solves: seq<Solve>, dates: seq<int>, total: real)
    requires Sorted(solves) && SortedTimes(dates)
    ensures |RunningTotals(solves, dates, total)| == |dates|
    ensures forall k :: 0 <= k < |dates| ==> RunningTotals(solves, dates, total)[k] == total + Score(solves, dates[k])
    decreases |solves| + |dates|
  {
    if dates != [] {
      if solves != [] && solves[0].time <= dates[0] {
        RunningTotalsAt(solves[1..], dates, total + solves[0].value);
        forall k | 0 <= k < |dates|
          ensures RunningTotals(solves, dates, total)[k] == total + Score(solves, dates[k])
        {
          ScoreFirst(solves, dates[k]);
        }
      } else {
        NothingYet(solves, dates[0]);
        RunningTotalsAt(solves, dates[1..], total);
        assert forall k :: 0 < k < |dates| ==> dates[k] == dates[1..][k - 1];
      }
    }
  }

  // The filtered sums are what one pass over the team's solves by time reports.
  lemma ColumnIsRunningTotal(solves: seq<Solve>, dates: seq<int>)
    requires Increasing(dates)
    ensures RunningTotals(ByTime(solves), dates, 0.0)
         == seq(|dates|, k requires 0 <= k < |dates| => Score(solves, dates[k]))
  {
    ByTimeSorts(solves, 0);
    RunningTotalsAt(ByTime(solves), dates, 0.0);
    forall k | 0 <= k < |dates|
      ensures RunningTotals(ByTime(solves), dates, 0.0)[k] == Score(solves, dates[k])
    {
      ByTimeSorts(solves, dates[k]);
    }
  }

  // ---- steps of a column ----

  // What the solves at exactly time t are worth.
  function WorthAt(solves: seq<Solve>, t: int): real {
    if solves == [] then 0.0
    else WorthAt(solves[1..], t) + if solves[0].time == t then solves[0].value else 0.0
  }

  lemma {:induction false} ScoreSteps(solves: seq<Solve>, before: int, t: int)
    requires before < t
    requires forall i :: 0 <= i < |solves| ==> solves[i].time <= before || t <= solves[i].time
    ensures Score(solves, t) == Score(solves, before) + WorthAt(solves, t)
    decreases solves
  {
    if solves != [] {
      ScoreSteps(solves[1..], before, t);
      ScoreFirst(solves, before);
      ScoreFirst(solves, t);
    }
  }

  lemma {:induction false} ScoreEnds(solves: seq<Solve>, t: int)
    requires forall i :: 0 <= i < |solves| ==> solves[i].time <= t
    ensures Score(solves, t) == Sum(solves)
    decreases solves
  {
    if solves != [] {
      ScoreEnds(solves[..|solves| - 1], t);
      ScoreLast(solves, t);
    }
  }

  lemma {:induction false} ScoreBefore(solves: seq<Solve>, t: int)
    requires forall i :: 0 <= i < |solves| ==> t < solves[i].time
    ensures Score(solves, t) == 0.0
    decreases solves
  {
    if solves != [] {
      ScoreBefore(solves[1..], t);
      ScoreFirst(solves, t);
    }
  }

  // ---- the rows ----

  // Among the first n teams.
  predicate LastOfName(teams: seq<Team>, n: nat, i: nat)
    requires i < n <= |teams|
  {
    forall j :: i < j < n ==> teams[j].name != teams[i].name
  }

  predicate Named(teams: seq<Team>, n: nat, name: string)
    requires n <= |teams|
  {
    exists i :: 0 <= i < n && teams[i].name == name
  }

  // point is the row for time t and the first n teams: each name shows the last
  // team that bears it, the two fixed fields show only where no team took their
  // name, and there is nothing else.
  ghost predicate IsPoint(point: Point, text: string, t: int, teams: seq<Team>, scores: seq<real>, n: nat)
    requires n <= |teams| == |scores|
  {
    (forall name :: name in point <==> name == "time" || name == "timestamp" || Named(teams, n, name)) &&
    (forall i {:trigger LastOfName(teams, n, i)} ::
      0 <= i < n && LastOfName(teams, n, i) ==> point[teams[i].name] == Number(scores[i])) &&
    (!Named(teams, n, "time") ==> point["time"] == Text(text)) &&
    (!Named(teams, n, "timestamp") ==> point["timestamp"] == Number(t as real))
  }

  ghost predicate AreRows(points: seq<Point>, format: int -> string, teams: seq<Team>, dates: seq<int>) {
    |points| == |dates| && forall k :: 0 <= k < |dates| ==> IsScoreRow(points[k], format, teams, dates[k])
  }

  ghost predicate IsScoreRow(point: Point, format: int -> string, teams: seq<Team>, t: int) {
    IsPoint(point, format(t), t, teams, Scores(teams, t), |teams|)
  }

  ghost predicate IsStartRow(point: Point, format: int -> string, teams: seq<Team>, t: int) {
    IsPoint(point, format(t), t, teams, Zeros(teams), |teams|)
  }

  ghost predicate IsChart(rows: seq<Point>, format: int -> string, teams: seq<Team>) {
    var dates := Dates(teams);
    if dates == [] then rows == []
    else rows != [] && IsStartRow(rows[0], format, teams, dates[0] - LEAD) && AreRows(rows[1..], format, teams, dates)
  }

  lemma NamedSnoc(teams: seq<Team>, n: nat, name: string)
    requires n < |teams|
    ensures Named(teams, n + 1, name) <==> name == teams[n].name || Named(teams, n, name)
  {
    if name == teams[n].name {
      assert Named(teams, n + 1, name);
    }
    if Named(teams, n, name) {
      var i :| 0 <= i < n && teams[i].name == name;
      assert Named(teams, n + 1, name);
    }
  }

  lemma ScoresSnoc(point: Point, teams: seq<Team>, scores: seq<real>, n: nat)
    requires n < |teams| == |scores|
    requires forall i :: 0 <= i < n ==> teams[i].name in point
    requires forall i {:trigger LastOfName(teams, n, i)} ::
      0 <= i < n && LastOfName(teams, n, i) ==> point[teams[i].name] == Number(scores[i])
    ensures var point' := point[teams[n].name := Number(scores[n])];
      (forall i :: 0 <= i < n + 1 ==> teams[i].name in point') &&
      (forall i {:trigger LastOfName(teams, n + 1, i)} ::
        0 <= i < n + 1 && LastOfName(teams, n + 1, i) ==> point'[teams[i].name] == Number(scores[i]))
  {
    forall i: nat | i < n && LastOfName(teams, n + 1, i)
      ensures LastOfName(teams, n, i) && teams[n].name != teams[i].name
    {
    }
  }

  lemma OneMoreTeam(point: Point, text: string, t: int, teams: seq<Team>, scores: seq<real>, n: nat)
    requires n < |teams| == |scores|
    requires IsPoint(point, text, t, teams, scores, n)
    ensures IsPoint(point[teams[n].name := Number(scores[n])], text, t, teams, scores, n + 1)
  {
    forall name
      ensures Named(teams, n + 1, name) <==> name == teams[n].name || Named(teams, n, name)
    {
      NamedSnoc(teams, n, name);
    }
    ScoresSnoc(point, teams, scores, n);
  }

  method FillPoint(text: string, t: int, teams: seq<Team>, scores: seq<real>) returns (point: Point)
    requires |scores| == |teams|
    ensures IsPoint(point, text, t, teams, scores, |teams|)
  {
    point := map["time" := Text(text), "timestamp" := Number(t as real)];
    for i := 0 to |teams|
      invariant IsPoint(point, text, t, teams, scores, i)
    {
      OneMoreTeam(point, text, t, teams, scores, i);
      point := point[teams[i].name := Number(scores[i])];
    }
  }

  method DataPoints(teams: seq<Team>, dates: seq<int>, format: int -> string) returns (points: seq<Point>)
    ensures AreRows(points, format, teams, dates)
  {
    points := [];
    for k := 0 to |dates|
      invariant |points| == k && forall i :: 0 <= i < k ==> IsScoreRow(points[i], format, teams, dates[i])
    {
      var point := FillPoint(format(dates[k]), dates[k], teams, Scores(teams, dates[k]));
      points := points + [point];
    }
  }

  method ChartData(teams: seq<Team>, format: int -> string) returns (rows: seq<Point>)
    ensures IsChart(rows, format, teams)
  {
    var allDates := Dates(teams);
    var startingPoints := [];
    if |allDates| > 0 {
      var startTime := allDates[0] - LEAD;
      var startPoint := FillPoint(format(startTime), startTime, teams, Zeros(teams));
      startingPoints := [startPoint];
    }
    var dataPoints := DataPoints(teams, allDates, format);
    rows := startingPoints + dataPoints;
    assert allDates != [] ==> rows[1..] == dataPoints;
  }

  // ---- what the chart shows ----

  predicate ProperNames(teams: seq<Team>) {
    (forall i, j :: 0 <= i < j < |teams| ==> teams[i].name != teams[j].name) &&
    !Named(teams, |teams|, "time") && !Named(teams, |teams|, "timestamp")
  }

  predicate HasColumn(rows: seq<Point>, name: string) {
    forall k :: 0 <= k < |rows| ==> name in rows[k] && rows[k][name].Number?
  }

  // The chart's numbers under a name, row by row.
  function Column(rows: seq<Point>, name: string): (c: seq<real>)
    requires HasColumn(rows, name)
    ensures |c| == |rows|
  {
    seq(|rows|, k requires 0 <= k < |rows| => rows[k][name].number)
  }

  lemma TeamCell(point: Point, text: string, t: int, teams: seq<Team>, scores: seq<real>, i: nat)
    requires |scores| == |teams| && ProperNames(teams) && i < |teams|
    requires IsPoint(point, text, t, teams, scores, |teams|)
    ensures teams[i].name in point && point[teams[i].name] == Number(scores[i])
  {
    assert LastOfName(teams, |teams|, i);
  }

  // Zero, then the score at each date.
  function ScoresAlong(solves: seq<Solve>, dates: seq<int>): seq<real> {
    [0.0] + seq(|dates|, k requires 0 <= k < |dates| => Score(solves, dates[k]))
  }

  lemma RowCell(rows: seq<Point>, format: int -> string, teams: seq<Team>, i: nat, k: nat)
    requires IsChart(rows, format, teams) && ProperNames(teams) && i < |teams| && k < |rows|
    ensures |rows| == |Dates(teams)| + 1 && teams[i].name in rows[k]
    ensures rows[k][teams[i].name] == Number(ScoresAlong(teams[i].solves, Dates(teams))[k])
  {
    var dates := Dates(teams);
    if k == 0 {
      TeamCell(rows[0], format(dates[0] - LEAD), dates[0] - LEAD, teams, Zeros(teams), i);
    } else {
      var t := dates[k - 1];
      assert IsScoreRow(rows[1..][k - 1], format, teams, t);
      TeamCell(rows[k], format(t), t, teams, Scores(teams, t), i);
    }
  }

  lemma ColumnIsScores(rows: seq<Point>, format: int -> string, teams: seq<Team>, i: nat)
    requires IsChart(rows, format, teams) && ProperNames(teams) && i < |teams|
    ensures HasColumn(rows, teams[i].name)
    ensures rows != [] ==>
      |rows| == |Dates(teams)| + 1 > 1 && Column(rows, teams[i].name) == ScoresAlong(teams[i].solves, Dates(teams))
  {
    forall k | 0 <= k < |rows|
      ensures teams[i].name in rows[k] && |rows| == |Dates(teams)| + 1
      ensures rows[k][teams[i].name] == Number(ScoresAlong(teams[i].solves, Dates(teams))[k])
    {
      RowCell(rows, format, teams, i, k);
    }
  }

  // Five minutes before the first solve, then the solve times.
  function RowTimes(dates: seq<int>): seq<int>
    requires dates != []
  {
    [dates[0] - LEAD] + dates
  }

  predicate HasTimes(rows: seq<Point>, ts: seq<int>) {
    |rows| == |ts| && forall k :: 0 <= k < |ts| ==>
      "timestamp" in rows[k] && rows[k]["timestamp"] == Number(ts[k] as real)
  }

  lemma TimeCell(point: Point, text: string, t: int, teams: seq<Team>, scores: seq<real>)
    requires |scores| == |teams| && !Named(teams, |teams|, "timestamp")
    requires IsPoint(point, text, t, teams, scores, |teams|)
    ensures "timestamp" in point && point["timestamp"] == Number(t as real)
  {
  }

  lemma ChartHasTimes(rows: seq<Point>, format: int -> string, teams: seq<Team>)
    requires IsChart(rows, format, teams) && !Named(teams, |teams|, "timestamp") && rows != []
    ensures HasTimes(rows, RowTimes(Dates(teams)))
  {
    var dates := Dates(teams);
    TimeCell(rows[0], format(dates[0] - LEAD), dates[0] - LEAD, teams, Zeros(teams));
    forall k | 0 < k < |rows|
      ensures "timestamp" in rows[k] && rows[k]["timestamp"] == Number(dates[k - 1] as real)
    {
      var t := dates[k - 1];
      assert IsScoreRow(rows[1..][k - 1], format, teams, t);
      TimeCell(rows[k], format(t), t, teams, Scores(teams, t));
    }
  }

  // The timestamps rise strictly, start five minutes before the first solve and
  // go on with the solve times.
  lemma TimestampsAreSolveTimes(rows: seq<Point>, format: int -> string, teams: seq<Team>)
    requires IsChart(rows, format, teams) && !Named(teams, |teams|, "timestamp") && rows != []
    ensures exists ts :: HasTimes(rows, ts) && LeadsInto(ts, teams)
  {
    var ts := RowTimes(Dates(teams));
    ChartHasTimes(rows, format, teams);
    DatesLeadInto(teams);
  }

  ghost predicate LeadsInto(ts: seq<int>, teams: seq<Team>) {
    |ts| > 1 && Increasing(ts) && ts[0] == ts[1] - 300000 && forall t :: t in ts[1..] <==> HasTime(teams, t)
  }

  lemma DatesLeadInto(teams: seq<Team>)
    requires Dates(teams) != []
    ensures LeadsInto(RowTimes(Dates(teams)), teams)
  {
    DatesAreSolveTimes(teams);
    assert RowTimes(Dates(teams))[1..] == Dates(teams);
  }

  // A team's column is the running total of its solves taken by time.
  lemma ColumnRunsOverSolves(rows: seq<Point>, format: int -> string, teams: seq<Team>, i: nat)
    requires IsChart(rows, format, teams) && ProperNames(teams) && i < |teams| && rows != []
    ensures HasColumn(rows, teams[i].name)
    ensures Column(rows, teams[i].name) == [0.0] + RunningTotals(ByTime(teams[i].solves), Dates(teams), 0.0)
  {
    DatesAreSolveTimes(teams);
    ColumnIsScores(rows, format, teams, i);
    ColumnIsRunningTotal(teams[i].solves, Dates(teams));
  }

  lemma SolvesHaveDates(teams: seq<Team>, i: nat, j: nat)
    requires i < |teams| && j < |teams[i].solves|
    ensures teams[i].solves[j].time in Dates(teams)
  {
    DatesAreSolveTimes(teams);
    assert HasTime(teams, teams[i].solves[j].time);
  }

  lemma ScoresAlongStep(teams: seq<Team>, i: nat, k: nat)
    requires i < |teams| && k < |Dates(teams)|
    ensures var along := ScoresAlong(teams[i].solves, Dates(teams));
      along[k + 1] == along[k] + WorthAt(teams[i].solves, Dates(teams)[k])
  {
    var dates, solves := Dates(teams), teams[i].solves;
    DatesAreSolveTimes(teams);
    var before := if k == 0 then dates[0] - 1 else dates[k - 1];
    forall j | 0 <= j < |solves|
      ensures solves[j].time <= before || dates[k] <= solves[j].time
      ensures k == 0 ==> before < solves[j].time
    {
      SolvesHaveDates(teams, i, j);
      var m :| 0 <= m < |dates| && dates[m] == solves[j].time;
    }
    ScoreSteps(solves, before, dates[k]);
    if k == 0 {
      ScoreBefore(solves, before);
    }
  }

  // From one row to the next a team gains what its solves at the later row's
  // time are worth; nothing falls between the rows.
  lemma ColumnSteps(rows: seq<Point>, format: int -> string, teams: seq<Team>, i: nat, k: nat)
    requires IsChart(rows, format, teams) && ProperNames(teams) && i < |teams| && k < |rows| - 1
    ensures HasColumn(rows, teams[i].name)
    ensures var c := Column(rows, teams[i].name);
      c[k + 1] == c[k] + WorthAt(teams[i].solves, Dates(teams)[k])
  {
    ColumnIsScores(rows, format, teams, i);
    ScoresAlongStep(teams, i, k);
  }

  lemma LastDateEnds(teams: seq<Team>, i: nat)
    requires i < |teams| && Dates(teams) != []
    ensures ScoresAlong(teams[i].solves, Dates(teams))[|Dates(teams)|] == Sum(teams[i].solves)
  {
    var dates, solves := Dates(teams), teams[i].solves;
    DatesAreSolveTimes(teams);
    forall j | 0 <= j < |solves|
      ensures solves[j].time <= dates[|dates| - 1]
    {
      SolvesHaveDates(teams, i, j);
      var m :| 0 <= m < |dates| && dates[m] == solves[j].time;
    }
    ScoreEnds(solves, dates[|dates| - 1]);
  }

  // The last row shows every team's full score.
  lemma ColumnEndsAtSum(rows: seq<Point>, format: int -> string, teams: seq<Team>, i: nat)
    requires IsChart(rows, format, teams) && ProperNames(teams) && i < |teams| && rows != []
    ensures HasColumn(rows, teams[i].name)
    ensures Column(rows, teams[i].name)[|rows| - 1] == Sum(teams[i].solves)
  {
    ColumnIsScores(rows, format, teams, i);
    LastDateEnds(teams, i);
  }

  predicate NeverFalls(c: seq<real>) {
    forall k :: 0 <= k < |c| - 1 ==> c[k] <= c[k + 1]
  }

  lemma WorthOnlyAtDates(teams: seq<Team>, i: nat, t: int)
    requires i < |teams|
    ensures WorthAt(teams[i].solves, t) == 0.0 || t in Dates(teams)
  {
    var solves := teams[i].solves;
    WorthOnlyAtSolves(solves, t);
    if j :| 0 <= j < |solves| && solves[j].time == t {
      SolvesHaveDates(teams, i, j);
    }
  }

  lemma {:induction false} WorthOnlyAtSolves(solves: seq<Solve>, t: int)
    ensures WorthAt(solves, t) == 0.0 || exists j :: 0 <= j < |solves| && solves[j].time == t
    decreases solves
  {
    if solves != [] && solves[0].time != t {
      WorthOnlyAtSolves(solves[1..], t);
      if j :| 0 <= j < |solves| - 1 && solves[1..][j].time == t {
        assert solves[j + 1].time == t;
      }
    }
  }

  lemma StepsDecideFalls(c: seq<real>, dates: seq<int>, solves: seq<Solve>)
    requires |c| == |dates| + 1
    requires forall k :: 0 <= k < |dates| ==> c[k + 1] == c[k] + WorthAt(solves, dates[k])
    requires forall t :: WorthAt(solves, t) == 0.0 || t in dates
    ensures NeverFalls(c) <==> forall t :: WorthAt(solves, t) >= 0.0
  {
    if NeverFalls(c) {
      forall t
        ensures WorthAt(solves, t) >= 0.0
      {
        if k :| 0 <= k < |dates| && dates[k] == t {
          assert c[k] <= c[k + 1];
        }
      }
    } else {
      var k :| 0 <= k < |c| - 1 && c[k] > c[k + 1];
      assert WorthAt(solves, dates[k]) < 0.0;
    }
  }

  // A column never falls exactly when the team's solves at each time are
  // together worth at least nothing.
  lemma NeverFallsIff(rows: seq<Point>, format: int -> string, teams: seq<Team>, i: nat)
    requires IsChart(rows, format, teams) && ProperNames(teams) && i < |teams| && rows != []
    ensures HasColumn(rows, teams[i].name)
    ensures NeverFalls(Column(rows, teams[i].name)) <==> forall t :: WorthAt(teams[i].solves, t) >= 0.0
  {
    var dates, solves := Dates(teams), teams[i].solves;
    var along := ScoresAlong(solves, dates);
    ColumnIsScores(rows, format, teams, i);
    forall k | 0 <= k < |dates|
      ensures along[k + 1] == along[k] + WorthAt(solves, dates[k])
    {
      ScoresAlongStep(teams, i, k);
    }
    forall t
      ensures WorthAt(solves, t) == 0.0 || t in dates
    {
      WorthOnlyAtDates(teams, i, t);
    }
    StepsDecideFalls(along, dates, solves);
  }

  lemma {:induction false} WorthOfGains(solves: seq<Solve>, t: int)
    requires forall i :: 0 <= i < |solves| ==> solves[i].value >= 0.0
    ensures WorthAt(solves, t) >= 0.0
    decreases solves
  {
    if solves != [] {
      WorthOfGains(solves[1..], t);
    }
  }

  // In particular no column of gains only falls.
  lemma GainsNeverFall(rows: seq<Point>, format: int -> string, teams: seq<Team>, i: nat)
    requires IsChart(rows, format, teams) && ProperNames(teams) && i < |teams| && rows != []
    requires forall j :: 0 <= j < |teams[i].solves| ==> teams[i].solves[j].value >= 0.0
    ensures HasColumn(rows, teams[i].name) && NeverFalls(Column(rows, teams[i].name))
  {
    forall t
      ensures WorthAt(teams[i].solves, t) >= 0.0
    {
      WorthOfGains(teams[i].solves, t);
    }
    NeverFallsIff(rows, format, teams, i);
  }
}
