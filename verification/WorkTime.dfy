/**
 Work time per repository from usage events: the grouping loop over the query's rows, its flush, and the two
 measures per repository (internal/store/worktime.go:88-156).
 */
module WorkTimes {
  import opened Ingest
  import opened Spans

  /** Whose session a row belongs to: the grouping columns of the query. */
  datatype Key = Key(device: string, repo: string, session: string)

  datatype Row = Row(key: Key, point: Point)

  /** Consecutive rows of one key, flushed together. */
  datatype Run = Run(key: Key, points: seq<Point>)

  /** The maps that flush accumulates into. */
  datatype Totals = Totals(
    repoSpans: map<string, seq<Span>>, repoSum: map<string, int>, repoSessions: map<string, nat>,
    deviceSpans: map<(string, string), seq<Span>>)

  datatype RepoWork = RepoWork(unionSeconds: int, sumSeconds: int, sessions: nat)

  // ---------------------------------------------------------------- specification

  function AddRow(runs: seq<Run>, row: Row): seq<Run> {
    if runs != [] && runs[|runs| - 1].key == row.key then
      runs[..|runs| - 1] + [Run(row.key, runs[|runs| - 1].points + [row.point])]
    else runs + [Run(row.key, [row.point])]
  }

  function RunsOf(rows: seq<Row>): seq<Run> {
    if rows == [] then [] else AddRow(RunsOf(rows[..|rows| - 1]), rows[|rows| - 1])
  }

  /** The bridged spans of every run filed under a repository. */
  function RepoSpans(runs: seq<Run>, repo: string, idle: int): seq<Span> {
    if runs == [] then []
    else
      var last := runs[|runs| - 1];
      RepoSpans(runs[..|runs| - 1], repo, idle) + if last.key.repo == repo then Bridged(last.points, idle) else []
  }

  function DeviceSpans(runs: seq<Run>, device: string, repo: string, idle: int): seq<Span> {
    if runs == [] then []
    else
      var last := runs[|runs| - 1];
      DeviceSpans(runs[..|runs| - 1], device, repo, idle)
      + if last.key.repo == repo && last.key.device == device then Bridged(last.points, idle) else []
  }

  function Sessions(runs: seq<Run>, repo: string): nat {
    if runs == [] then 0
    else Sessions(runs[..|runs| - 1], repo) + if runs[|runs| - 1].key.repo == repo then 1 else 0
  }

  predicate HasRepo(runs: seq<Run>, repo: string) {
    exists r :: r in runs && r.key.repo == repo
  }

  predicate HasDevice(runs: seq<Run>, device: string, repo: string) {
    exists r :: r in runs && r.key.repo == repo && r.key.device == device
  }

  // ---------------------------------------------------------------- the loop

  ghost predicate RepoTotal(t: Totals, runs: seq<Run>, repo: string, idle: int) {
    && (repo in t.repoSpans <==> HasRepo(runs, repo))
    && (repo in t.repoSum <==> HasRepo(runs, repo)) && (repo in t.repoSessions <==> HasRepo(runs, repo))
    && (HasRepo(runs, repo) ==>
          t.repoSpans[repo] == RepoSpans(runs, repo, idle)
          && t.repoSum[repo] == Sum(RepoSpans(runs, repo, idle)) && t.repoSessions[repo] == Sessions(runs, repo))
  }

  ghost predicate DeviceTotal(t: Totals, runs: seq<Run>, device: string, repo: string, idle: int) {
    && ((device, repo) in t.deviceSpans <==> HasDevice(runs, device, repo))
    && (HasDevice(runs, device, repo) ==> t.deviceSpans[(device, repo)] == DeviceSpans(runs, device, repo, idle))
  }

  ghost predicate TotalsOf(t: Totals, runs: seq<Run>, idle: int) {
    && (forall repo :: RepoTotal(t, runs, repo, idle))
    && (forall device, repo :: DeviceTotal(t, runs, device, repo, idle))
  }

  lemma {:induction false} NoRunNoTotals(runs: seq<Run>, device: string, repo: string, idle: int)
    ensures !HasRepo(runs, repo) ==> RepoSpans(runs, repo, idle) == [] && Sessions(runs, repo) == 0
    ensures !HasDevice(runs, device, repo) ==> DeviceSpans(runs, device, repo, idle) == []
  {
    if runs != [] {
      var init, last := runs[..|runs| - 1], runs[|runs| - 1];
      assert last in runs;
      assert forall r :: r in init ==> r in runs;
      NoRunNoTotals(init, device, repo, idle);
    }
  }

  lemma {:induction false} SumConcat(a: seq<Span>, b: seq<Span>)
    ensures Sum(a + b) == Sum(a) + Sum(b)
  {
    if b == [] {
      assert a + b == a;
    } else {
      SumConcat(a, b[..|b| - 1]);
      assert (a + b)[..|a + b| - 1] == a + b[..|b| - 1];
    }
  }

  lemma HasSnoc(runs: seq<Run>, run: Run, device: string, repo: string)
    ensures HasRepo(runs + [run], repo) <==> HasRepo(runs, repo) || run.key.repo == repo
    ensures HasDevice(runs + [run], device, repo) <==> HasDevice(runs, device, repo) || (run.key.repo == repo && run.key.device == device)
  {
    assert forall r :: r in runs + [run] <==> r in runs || r == run;
  }

  /** flush of a non-empty run. */
  method Flush(t: Totals, ghost runs: seq<Run>, key: Key, points: seq<Point>, idle: int) returns (flushed: Totals)
    requires TotalsOf(t, runs, idle)
    ensures TotalsOf(flushed, runs + [Run(key, points)], idle)
  {
    var spans := BridgeSpans(points, idle);
    var sum := SumMS(spans);
    var repo, pair := key.repo, (key.device, key.repo);
    flushed := Totals(
      t.repoSpans[repo := (if repo in t.repoSpans then t.repoSpans[repo] else []) + spans],
      t.repoSum[repo := (if repo in t.repoSum then t.repoSum[repo] else 0) + sum],
      t.repoSessions[repo := (if repo in t.repoSessions then t.repoSessions[repo] else 0) + 1],
      t.deviceSpans[pair := (if pair in t.deviceSpans then t.deviceSpans[pair] else []) + spans]);
    forall r ensures RepoTotal(flushed, runs + [Run(key, points)], r, idle) {
      RepoFlushed(t, flushed, runs, Run(key, points), r, idle);
    }
    forall d, r ensures DeviceTotal(flushed, runs + [Run(key, points)], d, r, idle) {
      DeviceFlushed(t, flushed, runs, Run(key, points), d, r, idle);
    }
  }

  lemma RepoFlushed(t: Totals, flushed: Totals, runs: seq<Run>, run: Run, repo: string, idle: int)
    requires RepoTotal(t, runs, repo, idle)
    requires repo != run.key.repo ==>
      (repo in flushed.repoSpans <==> repo in t.repoSpans) && (repo in flushed.repoSum <==> repo in t.repoSum)
      && (repo in flushed.repoSessions <==> repo in t.repoSessions)
      && (repo in t.repoSpans ==> flushed.repoSpans[repo] == t.repoSpans[repo])
      && (repo in t.repoSum ==> flushed.repoSum[repo] == t.repoSum[repo])
      && (repo in t.repoSessions ==> flushed.repoSessions[repo] == t.repoSessions[repo])
    requires repo == run.key.repo ==>
      repo in flushed.repoSpans && repo in flushed.repoSum && repo in flushed.repoSessions
      && flushed.repoSpans[repo] == (if repo in t.repoSpans then t.repoSpans[repo] else []) + Bridged(run.points, idle)
      && flushed.repoSum[repo] == (if repo in t.repoSum then t.repoSum[repo] else 0) + Sum(Bridged(run.points, idle))
      && flushed.repoSessions[repo] == (if repo in t.repoSessions then t.repoSessions[repo] else 0) + 1
    ensures RepoTotal(flushed, runs + [run], repo, idle)
  {
    HasSnoc(runs, run, "", repo);
    NoRunNoTotals(runs, "", repo, idle);
    assert (runs + [run])[..|runs|] == runs;
    SumConcat(RepoSpans(runs, repo, idle), Bridged(run.points, idle));
    assert RepoSpans(runs, repo, idle) + [] == RepoSpans(runs, repo, idle);
  }

  lemma DeviceFlushed(t: Totals, flushed: Totals, runs: seq<Run>, run: Run, device: string, repo: string, idle: int)
    requires DeviceTotal(t, runs, device, repo, idle)
    requires (device, repo) != (run.key.device, run.key.repo) ==>
      ((device, repo) in flushed.deviceSpans <==> (device, repo) in t.deviceSpans)
      && ((device, repo) in t.deviceSpans ==> flushed.deviceSpans[(device, repo)] == t.deviceSpans[(device, repo)])
    requires (device, repo) == (run.key.device, run.key.repo) ==>
      (device, repo) in flushed.deviceSpans
      && flushed.deviceSpans[(device, repo)] ==
         (if (device, repo) in t.deviceSpans then t.deviceSpans[(device, repo)] else []) + Bridged(run.points, idle)
    ensures DeviceTotal(flushed, runs + [run], device, repo, idle)
  {
    HasSnoc(runs, run, device, repo);
    NoRunNoTotals(runs, device, repo, idle);
    assert (runs + [run])[..|runs|] == runs;
    assert DeviceSpans(runs, device, repo, idle) + [] == DeviceSpans(runs, device, repo, idle);
  }

  /** What the loop holds after some rows: the run being gathered, unless it has just begun. */
  ghost predicate Gathering(first: bool, key: Key, points: seq<Point>, done: seq<Run>, rows: seq<Row>) {
    && (first <==> rows == []) && (points == [] <==> rows == [])
    && (if rows == [] then done == [] else RunsOf(rows) == done + [Run(key, points)])
  }

  lemma GatherSame(key: Key, points: seq<Point>, done: seq<Run>, rows: seq<Row>, row: Row)
    requires rows != [] && Gathering(false, key, points, done, rows) && row.key == key
    ensures Gathering(false, key, points + [row.point], done, rows + [row])
  {
    assert (rows + [row])[..|rows|] == rows;
    assert (done + [Run(key, points)])[..|done|] == done;
  }

  lemma GatherNext(first: bool, key: Key, points: seq<Point>, done: seq<Run>, rows: seq<Row>, row: Row)
    requires Gathering(first, key, points, done, rows) && (first || row.key != key)
    ensures Gathering(false, row.key, [row.point], if rows == [] then [] else done + [Run(key, points)], rows + [row])
  {
    assert (rows + [row])[..|rows|] == rows;
  }

  /** The loop over the query's rows. */
  method Accumulate(rows: seq<Row>, idle: int) returns (t: Totals)
    ensures TotalsOf(t, RunsOf(rows), idle)
  {
    t := Totals(map[], map[], map[], map[]);
    var key, points := Key("", "", ""), [];
    var first := true;
    ghost var done: seq<Run> := [];
    for i := 0 to |rows|
      invariant Gathering(first, key, points, done, rows[..i])
      invariant TotalsOf(t, done, idle)
    {
      var row := rows[i];
      assert rows[..i + 1] == rows[..i] + [row];
      if first || row.key != key {
        GatherNext(first, key, points, done, rows[..i], row);
        if |points| > 0 {
          t := Flush(t, done, key, points, idle);
          done := done + [Run(key, points)];
        }
        key, points, first := row.key, [row.point], false;
      } else {
        GatherSame(key, points, done, rows[..i], row);
        points := points + [row.point];
      }
    }
    assert rows[..|rows|] == rows;
    if |points| > 0 {
      t := Flush(t, done, key, points, idle);
    }
  }

  // ---------------------------------------------------------------- the two measures

  /** No event lasts a negative time. */
  predicate Timed(rows: seq<Row>) {
    forall r :: r in rows ==> r.point.dur >= 0
  }

  /** A repository's figures: the measure of its union, its sessions added up, and how many sessions there were. */
  ghost predicate WorkOn(w: RepoWork, runs: seq<Run>, repo: string, idle: int) {
    && w.unionSeconds == |Cells(RepoSpans(runs, repo, idle))| / 1000
    && w.sumSeconds == Sum(RepoSpans(runs, repo, idle)) / 1000 && w.sessions == Sessions(runs, repo)
  }

  method WorkTime(rows: seq<Row>, idle: int)
    returns (repos: map<string, RepoWork>, matrix: map<(string, string), int>)
    requires Timed(rows)
    ensures forall repo :: repo in repos <==> HasRepo(RunsOf(rows), repo)
    ensures forall repo :: repo in repos ==> WorkOn(repos[repo], RunsOf(rows), repo, idle)
    ensures forall k :: k in matrix <==> HasDevice(RunsOf(rows), k.0, k.1)
    ensures forall k :: k in matrix ==> matrix[k] == |Cells(DeviceSpans(RunsOf(rows), k.0, k.1, idle))| / 1000
  {
    var t := Accumulate(rows, idle);
    ghost var runs := RunsOf(rows);
    RunsTimed(rows);
    repos, matrix := map[], map[];
    var left := t.repoSpans.Keys;
    while left != {}
      invariant left <= t.repoSpans.Keys
      invariant repos.Keys == t.repoSpans.Keys - left
      invariant forall repo :: repo in repos ==> WorkOn(repos[repo], runs, repo, idle)
    {
      var repo :| repo in left;
      assert RepoTotal(t, runs, repo, idle);
      SpansProper(runs, "", repo, idle);
      var union := UnionMS(t.repoSpans[repo]);
      repos := repos[repo := RepoWork(union / 1000, t.repoSum[repo] / 1000, t.repoSessions[repo])];
      left := left - {repo};
    }
    var pairs := t.deviceSpans.Keys;
    while pairs != {}
      invariant pairs <= t.deviceSpans.Keys
      invariant matrix.Keys == t.deviceSpans.Keys - pairs
      invariant forall k :: k in matrix ==> matrix[k] == |Cells(DeviceSpans(runs, k.0, k.1, idle))| / 1000
    {
      var k :| k in pairs;
      assert DeviceTotal(t, runs, k.0, k.1, idle);
      SpansProper(runs, k.0, k.1, idle);
      var union := UnionMS(t.deviceSpans[k]);
      matrix := matrix[k := union / 1000];
      pairs := pairs - {k};
    }
    forall repo ensures repo in repos <==> HasRepo(runs, repo) { assert RepoTotal(t, runs, repo, idle); }
    forall k ensures k in matrix <==> HasDevice(runs, k.0, k.1) { assert DeviceTotal(t, runs, k.0, k.1, idle); }
  }

  predicate RunTimed(run: Run) {
    forall p :: p in run.points ==> p.dur >= 0
  }

  lemma {:induction false} RunsTimed(rows: seq<Row>)
    requires Timed(rows)
    ensures forall run :: run in RunsOf(rows) ==> RunTimed(run)
  {
    if rows != [] {
      assert rows[|rows| - 1] in rows;
      RunsTimed(rows[..|rows| - 1]);
      var before := RunsOf(rows[..|rows| - 1]);
      if before != [] { assert RunTimed(before[|before| - 1]); }
    }
  }

  lemma {:induction false} BridgedProper(points: seq<Point>, idle: int)
    requires forall p :: p in points ==> p.dur >= 0
    ensures Proper(Bridged(points, idle))
  {
    if points != [] {
      assert points[|points| - 1] in points;
      BridgedProper(points[..|points| - 1], idle);
      var out := Bridged(points[..|points| - 1], idle);
      if out != [] { assert out[|out| - 1] in out; }
    }
  }

  lemma {:induction false} SpansProper(runs: seq<Run>, device: string, repo: string, idle: int)
    requires forall run :: run in runs ==> RunTimed(run)
    ensures Proper(RepoSpans(runs, repo, idle)) && Proper(DeviceSpans(runs, device, repo, idle))
  {
    if runs != [] {
      var last := runs[|runs| - 1];
      assert RunTimed(last);
      SpansProper(runs[..|runs| - 1], device, repo, idle);
      BridgedProper(last.points, idle);
    }
  }

  lemma {:induction false} CellsConcat(a: seq<Span>, b: seq<Span>)
    ensures Cells(a + b) == Cells(a) + Cells(b)
  {
    if b == [] {
      assert a + b == a;
    } else {
      CellsConcat(a, b[..|b| - 1]);
      assert (a + b)[..|a + b| - 1] == a + b[..|b| - 1];
    }
  }

  lemma {:induction false} DeviceWithinRepo(runs: seq<Run>, device: string, repo: string, idle: int)
    ensures Cells(DeviceSpans(runs, device, repo, idle)) <= Cells(RepoSpans(runs, repo, idle))
  {
    if runs != [] {
      var init, last := runs[..|runs| - 1], runs[|runs| - 1];
      DeviceWithinRepo(init, device, repo, idle);
      CellsConcat(DeviceSpans(init, device, repo, idle), Bridged(last.points, idle));
      CellsConcat(RepoSpans(init, repo, idle), Bridged(last.points, idle));
      assert DeviceSpans(init, device, repo, idle) + [] == DeviceSpans(init, device, repo, idle);
      assert RepoSpans(init, repo, idle) + [] == RepoSpans(init, repo, idle);
    }
  }

  /**
   In whole seconds as in milliseconds: no device worked longer on a repository than the fleet did, and the fleet
   no longer than its sessions' activity added up.
   */
  lemma UnionBetweenDeviceAndSum(rows: seq<Row>, device: string, repo: string, idle: int)
    requires Timed(rows)
    ensures var runs := RunsOf(rows);
            var d, u, s := |Cells(DeviceSpans(runs, device, repo, idle))|, |Cells(RepoSpans(runs, repo, idle))|,
                           Sum(RepoSpans(runs, repo, idle));
            d <= u <= s && d / 1000 <= u / 1000 <= s / 1000
  {
    var runs := RunsOf(rows);
    RunsTimed(rows);
    SpansProper(runs, device, repo, idle);
    DeviceWithinRepo(runs, device, repo, idle);
    SubsetSize(Cells(DeviceSpans(runs, device, repo, idle)), Cells(RepoSpans(runs, repo, idle)));
    UnionIsAtMostSum(RepoSpans(runs, repo, idle));
  }

  // ---------------------------------------------------------------- sessions are bridged whole

  /** What ORDER BY device, repo, session_id, ts delivers: rows of one session are adjacent and in time order. */
  predicate InQueryOrder(rows: seq<Row>) {
    && (forall i, j, k :: 0 <= i < j < k < |rows| && rows[i].key == rows[k].key ==> rows[j].key == rows[i].key)
    && (forall i, j :: 0 <= i < j < |rows| && rows[i].key == rows[j].key ==> rows[i].point.ts <= rows[j].point.ts)
  }

  /** A session's events, in row order. */
  function PointsOf(rows: seq<Row>, key: Key): seq<Point> {
    if rows == [] then []
    else
      var last := rows[|rows| - 1];
      PointsOf(rows[..|rows| - 1], key) + if last.key == key then [last.point] else []
  }

  predicate OneRunEach(runs: seq<Run>) {
    forall i, j :: 0 <= i < j < |runs| ==> runs[i].key != runs[j].key
  }

  predicate Whole(run: Run, rows: seq<Row>) {
    run.points == PointsOf(rows, run.key) != []
  }

  predicate HasRun(runs: seq<Run>, key: Key) {
    exists run :: run in runs && run.key == key
  }

  /** One run per session, and in it all the session's rows. */
  predicate WholeSessions(runs: seq<Run>, rows: seq<Row>) {
    && OneRunEach(runs)
    && (forall run :: run in runs ==> Whole(run, rows))
    && (forall row :: row in rows ==> HasRun(runs, row.key))
    && (if rows == [] then runs == [] else runs != [] && runs[|runs| - 1].key == rows[|rows| - 1].key)
  }

  lemma {:induction false} AbsentHasNoPoints(rows: seq<Row>, key: Key)
    requires forall r :: r in rows ==> r.key != key
    ensures PointsOf(rows, key) == []
  {
    if rows != [] {
      assert rows[|rows| - 1] in rows;
      AbsentHasNoPoints(rows[..|rows| - 1], key);
    }
  }

  lemma PointsSnoc(rows: seq<Row>, row: Row, key: Key)
    ensures PointsOf(rows + [row], key) == PointsOf(rows, key) + if row.key == key then [row.point] else []
  {
    assert (rows + [row])[..|rows|] == rows;
  }

  /** In query order a key that is not the latest row's has not occurred before. */
  lemma KeyIsNew(rows: seq<Row>, row: Row)
    requires InQueryOrder(rows + [row]) && (rows == [] || rows[|rows| - 1].key != row.key)
    ensures forall r :: r in rows ==> r.key != row.key
  {
    var longer := rows + [row];
    forall r | r in rows ensures r.key != row.key {
      var i :| 0 <= i < |rows| && rows[i] == r;
      assert longer[i] == r && longer[|rows|] == row && longer[|rows| - 1] == rows[|rows| - 1];
    }
  }

  lemma NewRun(runs: seq<Run>, rows: seq<Row>, row: Row)
    requires WholeSessions(runs, rows) && forall r :: r in rows ==> r.key != row.key
    ensures WholeSessions(runs + [Run(row.key, [row.point])], rows + [row])
  {
    var run := Run(row.key, [row.point]);
    AbsentHasNoPoints(rows, row.key);
    forall r | r in runs ensures r.key != row.key && Whole(r, rows + [row]) {
      assert Whole(r, rows);
      PointsSnoc(rows, row, r.key);
    }
    PointsSnoc(rows, row, row.key);
    assert Whole(run, rows + [row]);
    HasRunSnoc(runs, run, rows, row);
  }

  lemma HasRunSnoc(runs: seq<Run>, run: Run, rows: seq<Row>, row: Row)
    requires (forall r :: r in rows ==> HasRun(runs, r.key) || r.key == run.key) && run.key == row.key
    ensures forall r :: r in rows + [row] ==> HasRun(runs + [run], r.key)
  {
    assert run in runs + [run];
    forall r | r in rows + [row] ensures HasRun(runs + [run], r.key) {
      if r in rows && HasRun(runs, r.key) {
        var x :| x in runs && x.key == r.key;
        assert x in runs + [run];
      }
    }
  }

  lemma LongerRun(init: seq<Run>, last: Run, rows: seq<Row>, row: Row)
    requires WholeSessions(init + [last], rows) && last.key == row.key
    ensures WholeSessions(init + [Run(row.key, last.points + [row.point])], rows + [row])
  {
    var runs := init + [last];
    var run := Run(row.key, last.points + [row.point]);
    assert runs[|init|] == last && last in runs;
    forall r | r in init ensures Whole(r, rows + [row]) && r.key != row.key {
      var i :| 0 <= i < |init| && init[i] == r;
      assert runs[i] == r && r in runs;
      PointsSnoc(rows, row, r.key);
    }
    assert Whole(last, rows);
    PointsSnoc(rows, row, row.key);
    assert Whole(run, rows + [row]);
    forall r | r in rows ensures HasRun(init, r.key) || r.key == run.key {
      var x :| x in runs && x.key == r.key;
    }
    HasRunSnoc(init, run, rows, row);
    assert OneRunEach(init + [run]) by {
      assert forall i :: 0 <= i < |runs| ==> (init + [run])[i].key == runs[i].key;
    }
  }

  lemma InQueryOrderInit(rows: seq<Row>)
    requires InQueryOrder(rows) && rows != []
    ensures InQueryOrder(rows[..|rows| - 1])
  {
  }

  lemma AddRowKeepsWhole(runs: seq<Run>, rows: seq<Row>, row: Row)
    requires WholeSessions(runs, rows) && InQueryOrder(rows + [row])
    ensures WholeSessions(AddRow(runs, row), rows + [row])
  {
    if runs != [] && runs[|runs| - 1].key == row.key {
      assert runs == runs[..|runs| - 1] + [runs[|runs| - 1]];
      LongerRun(runs[..|runs| - 1], runs[|runs| - 1], rows, row);
    } else {
      KeyIsNew(rows, row);
      NewRun(runs, rows, row);
    }
  }

  /** In query order each session is bridged once and whole. */
  lemma {:induction false} SessionsAreBridgedWhole(rows: seq<Row>)
    requires InQueryOrder(rows)
    ensures WholeSessions(RunsOf(rows), rows)
  {
    if rows != [] {
      var init, last := rows[..|rows| - 1], rows[|rows| - 1];
      InQueryOrderInit(rows);
      SessionsAreBridgedWhole(init);
      assert rows == init + [last];
      AddRowKeepsWhole(RunsOf(init), init, last);
    }
  }

  // ---------------------------------------------------------------- the sum is one union per session

  lemma {:induction false} PointsAreRows(rows: seq<Row>, key: Key, p: Point)
    requires p in PointsOf(rows, key)
    ensures exists i :: 0 <= i < |rows| && rows[i] == Row(key, p)
  {
    var init, last := rows[..|rows| - 1], rows[|rows| - 1];
    if p in PointsOf(init, key) {
      PointsAreRows(init, key, p);
      var i :| 0 <= i < |init| && init[i] == Row(key, p);
      assert rows[i] == Row(key, p);
    } else {
      assert rows[|init|] == Row(key, p);
    }
  }

  /** A session's events come in time order. */
  lemma {:induction false} PointsInOrder(rows: seq<Row>, key: Key)
    requires InQueryOrder(rows) && Timed(rows)
    ensures Chronological(PointsOf(rows, key))
  {
    if rows != [] {
      var init, last := rows[..|rows| - 1], rows[|rows| - 1];
      InQueryOrderInit(rows);
      assert last in rows && forall r :: r in init ==> r in rows;
      PointsInOrder(init, key);
      if last.key == key {
        var before := PointsOf(init, key);
        forall i | 0 <= i < |before| ensures before[i].ts <= last.point.ts {
          PointsAreRows(init, key, before[i]);
          var j :| 0 <= j < |init| && init[j] == Row(key, before[i]);
          assert rows[j] == init[j];
        }
      }
    }
  }

  /** Each session's active time on its own, added up over a repository's sessions. */
  function ActivePerSession(runs: seq<Run>, rows: seq<Row>, repo: string, idle: int): int {
    if runs == [] then 0
    else
      var last := runs[|runs| - 1];
      ActivePerSession(runs[..|runs| - 1], rows, repo, idle)
      + if last.key.repo == repo then |Cells(Bridged(PointsOf(rows, last.key), idle))| else 0
  }

  lemma {:induction false} SumPerRun(runs: seq<Run>, rows: seq<Row>, repo: string, idle: int)
    requires InQueryOrder(rows) && Timed(rows) && idle >= 0 && forall run :: run in runs ==> Whole(run, rows)
    ensures Sum(RepoSpans(runs, repo, idle)) == ActivePerSession(runs, rows, repo, idle)
  {
    if runs != [] {
      var init, last := runs[..|runs| - 1], runs[|runs| - 1];
      assert Whole(last, rows);
      SumPerRun(init, rows, repo, idle);
      PointsInOrder(rows, last.key);
      BridgedIsCanonical(last.points, idle);
      SumConcat(RepoSpans(init, repo, idle), Bridged(last.points, idle));
      assert RepoSpans(init, repo, idle) + [] == RepoSpans(init, repo, idle);
    }
  }

  /** In query order a repository's sum counts every session's active time once: sessions overlap each other, never themselves. */
  lemma SumIsActivePerSession(rows: seq<Row>, repo: string, idle: int)
    requires InQueryOrder(rows) && Timed(rows) && idle >= 0
    ensures Sum(RepoSpans(RunsOf(rows), repo, idle)) == ActivePerSession(RunsOf(rows), rows, repo, idle)
    ensures OneRunEach(RunsOf(rows))
  {
    SessionsAreBridgedWhole(rows);
    SumPerRun(RunsOf(rows), rows, repo, idle);
  }

  // ---------------------------------------------------------------- what the runs add up to

  /** A moment is a repository's exactly when one of its sessions was active then, and a device's share likewise. */
  ghost predicate ActiveIn(runs: seq<Run>, device: Option<string>, repo: string, idle: int, c: int) {
    exists r :: r in runs && r.key.repo == repo && (device.Some? ==> r.key.device == device.value) && c in Cells(Bridged(r.points, idle))
  }

  lemma ActiveSnoc(init: seq<Run>, last: Run, device: Option<string>, repo: string, idle: int, c: int)
    ensures ActiveIn(init + [last], device, repo, idle, c) <==>
            || ActiveIn(init, device, repo, idle, c)
            || (last.key.repo == repo && (device.Some? ==> last.key.device == device.value) && c in Cells(Bridged(last.points, idle)))
  {
    assert forall r :: r in init + [last] <==> r in init || r == last;
  }

  lemma {:induction false} CellsOfRepo(runs: seq<Run>, repo: string, idle: int, c: int)
    ensures c in Cells(RepoSpans(runs, repo, idle)) <==> ActiveIn(runs, None, repo, idle, c)
  {
    if runs != [] {
      var init, last := runs[..|runs| - 1], runs[|runs| - 1];
      CellsOfRepo(init, repo, idle, c);
      ActiveSnoc(init, last, None, repo, idle, c);
      assert runs == init + [last];
      CellsConcat(RepoSpans(init, repo, idle), Bridged(last.points, idle));
      assert RepoSpans(init, repo, idle) + [] == RepoSpans(init, repo, idle);
    }
  }

  lemma {:induction false} CellsOfDevice(runs: seq<Run>, device: string, repo: string, idle: int, c: int)
    ensures c in Cells(DeviceSpans(runs, device, repo, idle)) <==> ActiveIn(runs, Some(device), repo, idle, c)
  {
    if runs != [] {
      var init, last := runs[..|runs| - 1], runs[|runs| - 1];
      CellsOfDevice(init, device, repo, idle, c);
      ActiveSnoc(init, last, Some(device), repo, idle, c);
      assert runs == init + [last];
      CellsConcat(DeviceSpans(init, device, repo, idle), Bridged(last.points, idle));
      assert DeviceSpans(init, device, repo, idle) + [] == DeviceSpans(init, device, repo, idle);
    }
  }

  lemma CellsOfRuns(runs: seq<Run>, device: string, repo: string, idle: int, c: int)
    ensures c in Cells(RepoSpans(runs, repo, idle)) <==>
            exists r :: r in runs && r.key.repo == repo && c in Cells(Bridged(r.points, idle))
    ensures c in Cells(DeviceSpans(runs, device, repo, idle)) <==>
            exists r :: r in runs && r.key.repo == repo && r.key.device == device && c in Cells(Bridged(r.points, idle))
  {
    CellsOfRepo(runs, repo, idle, c);
    CellsOfDevice(runs, device, repo, idle, c);
  }

  ghost function KeysIn(runs: seq<Run>, repo: string): set<Key> {
    set r | r in runs && r.key.repo == repo :: r.key
  }

  lemma {:induction false} SessionsAreKeys(runs: seq<Run>, repo: string)
    requires OneRunEach(runs)
    ensures Sessions(runs, repo) == |KeysIn(runs, repo)|
  {
    if runs != [] {
      var init, last := runs[..|runs| - 1], runs[|runs| - 1];
      SessionsAreKeys(init, repo);
      assert runs == init + [last];
      assert last.key !in KeysIn(init, repo);
      if last.key.repo == repo {
        assert KeysIn(runs, repo) == KeysIn(init, repo) + {last.key};
      } else {
        assert KeysIn(runs, repo) == KeysIn(init, repo);
      }
    }
  }

  /** The sessions a repository had: the distinct keys of its rows. */
  ghost function SessionKeys(rows: seq<Row>, repo: string): set<Key> {
    set r | r in rows && r.key.repo == repo :: r.key
  }

  /** In query order the session count is that of the distinct sessions, and a repository is listed if it has any. */
  lemma SessionsAreCounted(rows: seq<Row>, repo: string)
    requires InQueryOrder(rows)
    ensures Sessions(RunsOf(rows), repo) == |SessionKeys(rows, repo)|
    ensures HasRepo(RunsOf(rows), repo) <==> exists r :: r in rows && r.key.repo == repo
  {
    var runs := RunsOf(rows);
    SessionsAreBridgedWhole(rows);
    SessionsAreKeys(runs, repo);
    forall k | k in KeysIn(runs, repo) ensures k in SessionKeys(rows, repo) {
      var run :| run in runs && run.key == k;
      assert Whole(run, rows) && run.points[0] in PointsOf(rows, k);
      PointsAreRows(rows, k, run.points[0]);
    }
    forall k | k in SessionKeys(rows, repo) ensures k in KeysIn(runs, repo) {
      var r :| r in rows && r.key == k;
      assert HasRun(runs, k);
    }
    assert KeysIn(runs, repo) == SessionKeys(rows, repo);
    if r :| r in runs && r.key.repo == repo { assert r.key in KeysIn(runs, repo); }
    if r :| r in rows && r.key.repo == repo { assert r.key in SessionKeys(rows, repo); }
  }
}
