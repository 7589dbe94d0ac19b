/**
 Device identity merge: an irreversible re-filing of every row of one device under another, in one transaction
 (internal/store/devicemerge.go). A table is the sequence of its rows.
 */
module DeviceMerges {
  import opened Ingest

  /** A row and the device it is filed under; `data` is every other column. */
  datatype Row<T> = Row(device: string, data: T)

  datatype EventData = EventData(id: string, deviceOrigin: string, ts: int, tokens: int, other: string)

  /** The primary key of quota_snapshots without its device. */
  datatype Slot = Slot(source: string, limitID: string, scope: string, windowMinutes: int, observedAt: int)

  datatype QuotaData = QuotaData(slot: Slot, usedPercent: int, resetsAt: int)

  datatype SessionData = SessionData(pid: int, source: string)

  /** A JSON document among the settings; an absent one reads as empty. */
  datatype Document<T> = Unreadable | Readable(value: T)

  datatype Record = Record(
    from: string, to: string, at: int, actor: string,
    events: nat, quotaSnapshots: nat, quotaDropped: nat, liveRowsDropped: nat)

  datatype Tables = Tables(
    events: seq<Row<EventData>>, quotas: seq<Row<QuotaData>>,
    sessions: seq<Row<SessionData>>, reports: seq<Row<int>>,
    labels: Document<map<string, string>>, history: Document<seq<Record>>)

  datatype Stats = Stats(device: string, events: nat, totalTokens: int, firstTS: int, lastTS: int, quotaSnapshots: nat, liveRows: nat)

  datatype Plan = Plan(
    from: Stats, to: Stats, eventsMoved: nat, quotaMoved: int, quotaDropped: nat, liveRowsDropped: nat, labelMoved: bool)

  datatype Error = UnknownIdentity(device: string) | SameIdentity | LabelsUnreadable | HistoryUnreadable | ConstraintFailed | Aborted

  // ---------------------------------------------------------------- rows

  /** What is filed under a device, in row order. */
  function Filed<T>(rows: seq<Row<T>>, device: string): seq<T> {
    if rows == [] then []
    else
      var last := rows[|rows| - 1];
      Filed(rows[..|rows| - 1], device) + if last.device == device then [last.data] else []
  }

  predicate Known<T(==)>(rows: seq<Row<T>>, device: string) {
    exists r :: r in rows && r.device == device
  }

  function MoveTo(device: string, from: string, to: string): string {
    if device == from then to else device
  }

  /** UPDATE ... SET device = to WHERE device = from. */
  function Refiled<T>(rows: seq<Row<T>>, from: string, to: string): (r: seq<Row<T>>)
    ensures |r| == |rows|
    ensures forall i :: 0 <= i < |rows| ==> r[i] == Row(MoveTo(rows[i].device, from, to), rows[i].data)
  {
    seq(|rows|, i requires 0 <= i < |rows| => Row(MoveTo(rows[i].device, from, to), rows[i].data))
  }

  /** DELETE ... WHERE device = ?. */
  function Without<T>(rows: seq<Row<T>>, device: string): seq<Row<T>> {
    if rows == [] then []
    else
      var last := rows[|rows| - 1];
      Without(rows[..|rows| - 1], device) + if last.device == device then [] else [last]
  }

  predicate Taken(rows: seq<Row<QuotaData>>, device: string, slot: Slot) {
    exists r :: r in rows && r.device == device && r.data.slot == slot
  }

  predicate Collides(r: Row<QuotaData>, table: seq<Row<QuotaData>>, from: string, to: string) {
    r.device == from && Taken(table, to, r.data.slot)
  }

  /** The rows that the collision DELETE leaves. */
  function Kept(rows: seq<Row<QuotaData>>, table: seq<Row<QuotaData>>, from: string, to: string): seq<Row<QuotaData>> {
    if rows == [] then []
    else
      var last := rows[|rows| - 1];
      Kept(rows[..|rows| - 1], table, from, to) + if Collides(last, table, from, to) then [] else [last]
  }

  /** quotaCollisionCount. */
  function Collisions(rows: seq<Row<QuotaData>>, table: seq<Row<QuotaData>>, from: string, to: string): nat {
    if rows == [] then 0
    else
      Collisions(rows[..|rows| - 1], table, from, to) + if Collides(rows[|rows| - 1], table, from, to) then 1 else 0
  }

  /** The primary key of quota_snapshots. */
  predicate KeysUnique(rows: seq<Row<QuotaData>>) {
    forall i, j :: 0 <= i < j < |rows| ==> rows[i].device != rows[j].device || rows[i].data.slot != rows[j].data.slot
  }

  // ---------------------------------------------------------------- plan

  function Tokens(events: seq<EventData>): int {
    if events == [] then 0 else Tokens(events[..|events| - 1]) + events[|events| - 1].tokens
  }

  /** COALESCE(MIN(ts), 0). */
  function FirstTS(events: seq<EventData>): int {
    if events == [] then 0
    else
      var init, last := events[..|events| - 1], events[|events| - 1].ts;
      if init == [] || last < FirstTS(init) then last else FirstTS(init)
  }

  /** COALESCE(MAX(ts), 0). */
  function LastTS(events: seq<EventData>): int {
    if events == [] then 0
    else
      var init, last := events[..|events| - 1], events[|events| - 1].ts;
      if init == [] || last > LastTS(init) then last else LastTS(init)
  }

  function StatsOf(t: Tables, device: string): Stats {
    var events := Filed(t.events, device);
    Stats(device, |events|, Tokens(events), FirstTS(events), LastTS(events), |Filed(t.quotas, device)|,
          |Filed(t.sessions, device)| + |Filed(t.reports, device)|)
  }

  predicate Exists(t: Tables, device: string) {
    Known(t.events, device) || Known(t.quotas, device) || Known(t.sessions, device) || Known(t.reports, device)
  }

  function PlanMerge(t: Tables, from: string, to: string): Result<Plan, Error> {
    if from == "" || to == "" then Err(UnknownIdentity(""))
    else if from == to then Err(SameIdentity)
    else if !Exists(t, from) then Err(UnknownIdentity(from))
    else if !Exists(t, to) then Err(UnknownIdentity(to))
    else if t.labels.Unreadable? then Err(LabelsUnreadable)
    else
      var f := StatsOf(t, from);
      var dropped := Collisions(t.quotas, t.quotas, from, to);
      Ok(Plan(f, StatsOf(t, to), f.events, f.quotaSnapshots - dropped, dropped, f.liveRows,
              from in t.labels.value && to !in t.labels.value))
  }

  // ---------------------------------------------------------------- specification of the merge

  function MergedLabels(labels: map<string, string>, from: string, to: string): map<string, string> {
    if from !in labels then labels
    else if to in labels - {from} then labels - {from}
    else (labels - {from})[to := labels[from]]
  }

  /** The tables after the statements, the settings not yet rewritten. */
  function Executed(t: Tables, from: string, to: string): Tables {
    Tables(Refiled(t.events, from, to), Refiled(Kept(t.quotas, t.quotas, from, to), from, to),
           Without(t.sessions, from), Without(t.reports, from), t.labels, t.history)
  }

  /** The tables after a merge that is not refused. */
  function Merged(t: Tables, plan: Plan, from: string, to: string, actor: string, at: int): Tables
    requires t.labels.Readable? && t.history.Readable? && plan.quotaMoved >= 0
  {
    var record := Record(from, to, at, actor, plan.eventsMoved, plan.quotaMoved, plan.quotaDropped, plan.liveRowsDropped);
    Executed(t, from, to).(
      labels := Readable(MergedLabels(t.labels.value, from, to)),
      history := Readable(t.history.value + [record]))
  }

  predicate RecordOk(r: Record) {
    r.from != "" && r.to != "" && r.from != r.to
  }

  /** What the stored tables always satisfy. */
  predicate Valid(t: Tables) {
    KeysUnique(t.quotas) && (t.history.Readable? ==> forall r :: r in t.history.value ==> RecordOk(r))
  }

  // ---------------------------------------------------------------- the plan is what runs

  lemma FiledSnoc<T>(rows: seq<Row<T>>, r: Row<T>, device: string)
    ensures Filed(rows + [r], device) == Filed(rows, device) + if r.device == device then [r.data] else []
  {
    assert (rows + [r])[..|rows|] == rows;
  }

  lemma {:induction false} KeptCounts(rows: seq<Row<QuotaData>>, table: seq<Row<QuotaData>>, from: string, to: string)
    ensures |Filed(Kept(rows, table, from, to), from)| + Collisions(rows, table, from, to) == |Filed(rows, from)|
    ensures |Kept(rows, table, from, to)| + Collisions(rows, table, from, to) == |rows|
  {
    if rows != [] {
      var init, last := rows[..|rows| - 1], rows[|rows| - 1];
      KeptCounts(init, table, from, to);
      if Collides(last, table, from, to) {
        assert Kept(rows, table, from, to) == Kept(init, table, from, to);
      } else {
        FiledSnoc(Kept(init, table, from, to), last, from);
      }
    }
  }

  lemma {:induction false} KeptMember(rows: seq<Row<QuotaData>>, table: seq<Row<QuotaData>>, from: string, to: string, r: Row<QuotaData>)
    ensures r in Kept(rows, table, from, to) <==> r in rows && !Collides(r, table, from, to)
  {
    if rows != [] {
      var init, last := rows[..|rows| - 1], rows[|rows| - 1];
      KeptMember(init, table, from, to, r);
      assert rows == init + [last];
    }
  }

  lemma {:induction false} KeptUnique(rows: seq<Row<QuotaData>>, table: seq<Row<QuotaData>>, from: string, to: string)
    requires KeysUnique(rows)
    ensures KeysUnique(Kept(rows, table, from, to))
  {
    if rows != [] {
      var init, last := rows[..|rows| - 1], rows[|rows| - 1];
      KeptUnique(init, table, from, to);
      forall r | r in Kept(init, table, from, to) ensures r.device != last.device || r.data.slot != last.data.slot {
        KeptMember(init, table, from, to, r);
      }
    }
  }

  /** Once the collisions are gone, moving the rest under the target cannot break the primary key. */
  lemma MoveKeepsKeys(table: seq<Row<QuotaData>>, from: string, to: string)
    requires KeysUnique(table)
    ensures KeysUnique(Refiled(Kept(table, table, from, to), from, to))
  {
    var kept := Kept(table, table, from, to);
    KeptUnique(table, table, from, to);
    forall i, j | 0 <= i < j < |kept|
      ensures MoveTo(kept[i].device, from, to) != MoveTo(kept[j].device, from, to) || kept[i].data.slot != kept[j].data.slot
    {
      KeptMember(table, table, from, to, kept[i]);
      KeptMember(table, table, from, to, kept[j]);
    }
  }

  /** Each planned count is the number of rows its statement touches, and the move meets no taken key. */
  lemma PlanMatches(t: Tables, plan: Plan, from: string, to: string)
    requires PlanMerge(t, from, to) == Ok(plan) && KeysUnique(t.quotas)
    ensures from != "" && to != "" && from != to && t.labels.Readable?
    ensures plan.eventsMoved == |Filed(t.events, from)|
    ensures plan.quotaDropped == Collisions(t.quotas, t.quotas, from, to)
    ensures plan.quotaMoved == |Filed(Kept(t.quotas, t.quotas, from, to), from)| >= 0
    ensures plan.liveRowsDropped == |Filed(t.sessions, from)| + |Filed(t.reports, from)|
    ensures KeysUnique(Refiled(Kept(t.quotas, t.quotas, from, to), from, to))
  {
    KeptCounts(t.quotas, t.quotas, from, to);
    MoveKeepsKeys(t.quotas, from, to);
  }

  lemma MergedValid(t: Tables, plan: Plan, from: string, to: string, actor: string, at: int)
    requires Valid(t) && PlanMerge(t, from, to) == Ok(plan) && t.history.Readable? && plan.quotaMoved >= 0
    ensures t.labels.Readable?
    ensures Valid(Merged(t, plan, from, to, actor, at))
  {
    MoveKeepsKeys(t.quotas, from, to);
  }

  // ---------------------------------------------------------------- the statements

  method UpdateDevice<T>(rows: seq<Row<T>>, from: string, to: string) returns (updated: seq<Row<T>>, affected: nat)
    ensures updated == Refiled(rows, from, to)
    ensures affected == |Filed(rows, from)|
  {
    updated, affected := [], 0;
    for i := 0 to |rows|
      invariant |updated| == i
      invariant forall k :: 0 <= k < i ==> updated[k] == Row(MoveTo(rows[k].device, from, to), rows[k].data)
      invariant affected == |Filed(rows[..i], from)|
    {
      assert rows[..i + 1][..i] == rows[..i];
      if rows[i].device == from {
        updated, affected := updated + [Row(to, rows[i].data)], affected + 1;
      } else {
        updated := updated + [rows[i]];
      }
    }
    assert rows[..|rows|] == rows;
  }

  method DeleteDevice<T>(rows: seq<Row<T>>, device: string) returns (left: seq<Row<T>>, affected: nat)
    ensures left == Without(rows, device)
    ensures affected == |Filed(rows, device)|
  {
    left, affected := [], 0;
    for i := 0 to |rows|
      invariant left == Without(rows[..i], device)
      invariant affected == |Filed(rows[..i], device)|
    {
      assert rows[..i + 1][..i] == rows[..i];
      if rows[i].device == device {
        affected := affected + 1;
      } else {
        left := left + [rows[i]];
      }
    }
    assert rows[..|rows|] == rows;
  }

  method DeleteCollisions(rows: seq<Row<QuotaData>>, from: string, to: string) returns (left: seq<Row<QuotaData>>, affected: nat)
    ensures left == Kept(rows, rows, from, to)
    ensures affected == Collisions(rows, rows, from, to)
  {
    left, affected := [], 0;
    for i := 0 to |rows|
      invariant left == Kept(rows[..i], rows, from, to)
      invariant affected == Collisions(rows[..i], rows, from, to)
    {
      assert rows[..i + 1][..i] == rows[..i];
      if Collides(rows[i], rows, from, to) {
        affected := affected + 1;
      } else {
        left := left + [rows[i]];
      }
    }
    assert rows[..|rows|] == rows;
  }

  datatype Touched = Touched(events: nat, quotas: int, dropped: nat, liveRows: nat)

  /** What stops the transaction after its statements: a violated key, a count that is not the plan's, a lost audit log. */
  function Verdict(next: Tables, plan: Plan, touched: Touched): Result<Plan, Error> {
    if !KeysUnique(next.quotas) then Err(ConstraintFailed)
    else if touched != Touched(plan.eventsMoved, plan.quotaMoved, plan.quotaDropped, plan.liveRowsDropped) then Err(Aborted)
    else if next.history.Unreadable? then Err(HistoryUnreadable)
    else Ok(plan)
  }

  /** What a merge answers. */
  function Outcome(t: Tables, from: string, to: string): Result<Plan, Error> {
    var plan := PlanMerge(t, from, to);
    if plan.Ok? && t.history.Unreadable? then Err(HistoryUnreadable) else plan
  }

  function TouchedBy(t: Tables, from: string, to: string): Touched {
    Touched(|Filed(t.events, from)|, |Filed(Kept(t.quotas, t.quotas, from, to), from)|,
            Collisions(t.quotas, t.quotas, from, to), |Filed(t.sessions, from)| + |Filed(t.reports, from)|)
  }

  /** Running what was planned meets no taken key and touches exactly the planned rows. */
  lemma PlanIsWhatRuns(t: Tables, plan: Plan, from: string, to: string)
    requires PlanMerge(t, from, to) == Ok(plan) && KeysUnique(t.quotas)
    ensures plan.quotaMoved >= 0
    ensures Verdict(Executed(t, from, to), plan, TouchedBy(t, from, to)) == Outcome(t, from, to)
  {
    PlanMatches(t, plan, from, to);
    VerdictIsOutcome(Executed(t, from, to), plan, TouchedBy(t, from, to));
  }

  /** Where the plan's counts are what was touched and no key is taken, only an unreadable audit log stops the merge. */
  lemma VerdictIsOutcome(next: Tables, plan: Plan, touched: Touched)
    requires KeysUnique(next.quotas)
    requires touched == Touched(plan.eventsMoved, plan.quotaMoved, plan.quotaDropped, plan.liveRowsDropped)
    ensures Verdict(next, plan, touched) == if next.history.Unreadable? then Err(HistoryUnreadable) else Ok(plan)
  {
  }

  /** Some row of some table is filed under the device. */
  ghost predicate FiledAnywhere(t: Tables, device: string) {
    || (exists r :: r in t.events && r.device == device) || (exists r :: r in t.quotas && r.device == device)
    || (exists r :: r in t.sessions && r.device == device) || (exists r :: r in t.reports && r.device == device)
  }

  /** A merge is refused only for a missing or equal name, a name with nothing filed under it, or an unreadable setting. */
  lemma MergedIff(t: Tables, from: string, to: string)
    ensures Outcome(t, from, to).Ok? <==>
            && from != "" && to != "" && from != to && FiledAnywhere(t, from) && FiledAnywhere(t, to)
            && t.labels.Readable? && t.history.Readable?
    ensures from != "" && from == to ==> Outcome(t, from, to) == Err(SameIdentity)
    ensures from != "" && to != "" && from != to && !FiledAnywhere(t, from) ==> Outcome(t, from, to) == Err(UnknownIdentity(from))
    ensures from != "" && to != "" && from != to && FiledAnywhere(t, from) && !FiledAnywhere(t, to) ==>
              Outcome(t, from, to) == Err(UnknownIdentity(to))
  {
  }

  class Database {
    var events: seq<Row<EventData>>
    var quotas: seq<Row<QuotaData>>
    var sessions: seq<Row<SessionData>>
    var reports: seq<Row<int>>
    var labels: Document<map<string, string>>
    var history: Document<seq<Record>>

    ghost function Contents(): Tables
      reads this
    {
      Tables(events, quotas, sessions, reports, labels, history)
    }

    constructor ()
      ensures Valid(Contents())
    {
      events, quotas, sessions, reports := [], [], [], [];
      labels, history := Readable(map[]), Readable([]);
    }

    method PlanDeviceMerge(from: string, to: string) returns (r: Result<Plan, Error>)
      ensures r == PlanMerge(Contents(), from, to)
    {
      r := PlanMerge(Tables(events, quotas, sessions, reports, labels, history), from, to);
    }

    /** Returns the labels document to write back. */
    static method MergeDeviceLabel(labels: map<string, string>, from: string, to: string) returns (merged: map<string, string>)
      ensures merged == MergedLabels(labels, from, to)
    {
      merged := labels;
      if from in labels {
        merged := merged - {from};
        if to !in merged {
          merged := merged[to := labels[from]];
        }
      }
    }

    /** The statements of the transaction in their order: `next` keeps the settings, `touched` the rows each affected. */
    method Execute(from: string, to: string) returns (next: Tables, touched: Touched)
      ensures next == Executed(Contents(), from, to)
      ensures touched == TouchedBy(Contents(), from, to)
    {
      var kept, dropped := DeleteCollisions(quotas, from, to);
      var movedQuotas, quotaMoved := UpdateDevice(kept, from, to);
      var leftSessions, droppedSessions := DeleteDevice(sessions, from);
      var leftReports, droppedReports := DeleteDevice(reports, from);
      var movedEvents, eventsMoved := UpdateDevice(events, from, to);
      next := Tables(movedEvents, movedQuotas, leftSessions, leftReports, labels, history);
      touched := Touched(eventsMoved, quotaMoved, dropped, droppedSessions + droppedReports);
    }

    /** The settings are rewritten with the moved rows, then everything is committed. */
    method Commit(next: Tables, from: string, to: string, record: Record)
      requires next.labels.Readable? && next.history.Readable?
      modifies this
      ensures Contents() == next.(labels := Readable(MergedLabels(next.labels.value, from, to)),
                                  history := Readable(next.history.value + [record]))
    {
      var merged := MergeDeviceLabel(next.labels.value, from, to);
      events, quotas, sessions, reports := next.events, next.quotas, next.sessions, next.reports;
      labels, history := Readable(merged), Readable(next.history.value + [record]);
    }

    /** Neither the abort branch nor the primary key of quota_snapshots can stop a merge whose plan was made. */
    method MergeDeviceIdentity(from: string, to: string, actor: string, at: int) returns (r: Result<Plan, Error>)
      requires Valid(Contents())
      modifies this
      ensures r == Outcome(old(Contents()), from, to)
      ensures r.Err? ==> Contents() == old(Contents())
      ensures r.Ok? ==> r.value.quotaMoved >= 0 && Contents() == Merged(old(Contents()), r.value, from, to, actor, at)
      ensures Valid(Contents())
    {
      ghost var before := Contents();
      r := PlanDeviceMerge(from, to);
      if r.Err? {
        return;
      }
      var plan := r.value;
      PlanIsWhatRuns(before, plan, from, to);
      var next, touched := Execute(from, to);
      r := Verdict(next, plan, touched);
      if r.Ok? {
        MergedValid(before, plan, from, to, actor, at);
        var record := Record(from, to, at, actor, plan.eventsMoved, plan.quotaMoved, plan.quotaDropped, plan.liveRowsDropped);
        Commit(next, from, to, record);
      }
    }
  }

  // ---------------------------------------------------------------- what a merge keeps

  lemma {:induction false} RefiledFiles<T>(rows: seq<Row<T>>, from: string, to: string, device: string)
    requires from != to
    ensures device == from ==> Filed(Refiled(rows, from, to), device) == []
    ensures device != from && device != to ==> Filed(Refiled(rows, from, to), device) == Filed(rows, device)
    ensures device == to ==>
      multiset(Filed(Refiled(rows, from, to), device)) == multiset(Filed(rows, from)) + multiset(Filed(rows, to))
  {
    if rows != [] {
      var init, last := rows[..|rows| - 1], rows[|rows| - 1];
      RefiledFiles(init, from, to, device);
      assert Refiled(rows, from, to)[..|rows| - 1] == Refiled(init, from, to);
    }
  }

  /** No event is lost, and no column of any event but its device changes; its origin stays. */
  lemma EventsOnlyChangeDevice(t: Tables, plan: Plan, from: string, to: string, actor: string, at: int, i: nat)
    requires PlanMerge(t, from, to) == Ok(plan) && t.history.Readable? && plan.quotaMoved >= 0 && i < |t.events|
    ensures var m := Merged(t, plan, from, to, actor, at);
            |m.events| == |t.events| && m.events[i].data == t.events[i].data
            && m.events[i].device == MoveTo(t.events[i].device, from, to)
  {
  }

  /** Adding up, earliest and latest over one list that shares out the events of two. */
  ghost predicate AddsUp(m: seq<EventData>, f: seq<EventData>, g: seq<EventData>) {
    && |m| == |f| + |g| && Tokens(m) == Tokens(f) + Tokens(g)
    && FirstTS(m) == (if f == [] then FirstTS(g) else if g == [] then FirstTS(f) else Min(FirstTS(f), FirstTS(g)))
    && LastTS(m) == (if f == [] then LastTS(g) else if g == [] then LastTS(f) else Max(LastTS(f), LastTS(g)))
  }

  lemma AddsUpFrom(m: seq<EventData>, f: seq<EventData>, g: seq<EventData>, e: EventData)
    requires AddsUp(m, f, g)
    ensures AddsUp(m + [e], f + [e], g)
  {
    Snoc(m, e);
    Snoc(f, e);
  }

  lemma AddsUpTo(m: seq<EventData>, f: seq<EventData>, g: seq<EventData>, e: EventData)
    requires AddsUp(m, f, g)
    ensures AddsUp(m + [e], f, g + [e])
  {
    Snoc(m, e);
    Snoc(g, e);
  }

  lemma {:induction false} Totals(rows: seq<Row<EventData>>, from: string, to: string)
    requires from != to
    ensures AddsUp(Filed(Refiled(rows, from, to), to), Filed(rows, from), Filed(rows, to))
  {
    if rows != [] {
      var init, last := rows[..|rows| - 1], rows[|rows| - 1];
      Totals(init, from, to);
      var m, f, g := Filed(Refiled(init, from, to), to), Filed(init, from), Filed(init, to);
      assert Refiled(rows, from, to) == Refiled(init, from, to) + [Row(MoveTo(last.device, from, to), last.data)];
      FiledSnoc(Refiled(init, from, to), Row(MoveTo(last.device, from, to), last.data), to);
      AddsUpFrom(m, f, g, last.data);
      AddsUpTo(m, f, g, last.data);
      assert f + [] == f && g + [] == g && m + [] == m;
    }
  }

  lemma Snoc(events: seq<EventData>, e: EventData)
    ensures Tokens(events + [e]) == Tokens(events) + e.tokens
    ensures FirstTS(events + [e]) == if events == [] then e.ts else Min(FirstTS(events), e.ts)
    ensures LastTS(events + [e]) == if events == [] then e.ts else Max(LastTS(events), e.ts)
  {
    assert (events + [e])[..|events|] == events;
  }

  function Min(a: int, b: int): int { if b < a then b else a }

  function Max(a: int, b: int): int { if b > a then b else a }

  lemma {:induction false} WithoutFiles<T>(rows: seq<Row<T>>, device: string, other: string)
    ensures Filed(Without(rows, device), other) == if other == device then [] else Filed(rows, other)
  {
    if rows != [] {
      var init, last := rows[..|rows| - 1], rows[|rows| - 1];
      WithoutFiles(init, device, other);
      if last.device == device {
        assert Without(rows, device) == Without(init, device);
      } else {
        FiledSnoc(Without(init, device), last, other);
      }
    }
  }

  lemma {:induction false} KeptFiles(rows: seq<Row<QuotaData>>, table: seq<Row<QuotaData>>, from: string, to: string, device: string)
    requires device != from
    ensures Filed(Kept(rows, table, from, to), device) == Filed(rows, device)
  {
    if rows != [] {
      var init, last := rows[..|rows| - 1], rows[|rows| - 1];
      KeptFiles(init, table, from, to, device);
      if Collides(last, table, from, to) {
        assert Kept(rows, table, from, to) == Kept(init, table, from, to);
      } else {
        FiledSnoc(Kept(init, table, from, to), last, device);
      }
    }
  }

  /** The merged device's figures are the two devices' figures put together, counted as the plan said. */
  lemma StatsAddUp(t: Tables, plan: Plan, from: string, to: string, actor: string, at: int)
    requires PlanMerge(t, from, to) == Ok(plan) && t.history.Readable? && plan.quotaMoved >= 0
    ensures var s := StatsOf(Merged(t, plan, from, to, actor, at), to);
            && s.events == plan.from.events + plan.to.events
            && s.totalTokens == plan.from.totalTokens + plan.to.totalTokens
            && (plan.from.events > 0 && plan.to.events > 0 ==>
                  s.firstTS == Min(plan.from.firstTS, plan.to.firstTS) && s.lastTS == Max(plan.from.lastTS, plan.to.lastTS))
            && s.quotaSnapshots == plan.to.quotaSnapshots + plan.quotaMoved
            && s.liveRows == plan.to.liveRows
  {
    Totals(t.events, from, to);
    var kept := Kept(t.quotas, t.quotas, from, to);
    RefiledFiles(kept, from, to, to);
    assert |multiset(Filed(Refiled(kept, from, to), to))| == |multiset(Filed(kept, from))| + |multiset(Filed(kept, to))|;
    KeptFiles(t.quotas, t.quotas, from, to, to);
    KeptCounts(t.quotas, t.quotas, from, to);
    WithoutFiles(t.sessions, from, to);
    WithoutFiles(t.reports, from, to);
  }

  /** A device that takes no part keeps exactly what is filed under it. */
  lemma BystandersUntouched(t: Tables, from: string, to: string, device: string)
    requires from != to && device != from && device != to
    ensures var m := Executed(t, from, to);
            && Filed(m.events, device) == Filed(t.events, device) && Filed(m.quotas, device) == Filed(t.quotas, device)
            && Filed(m.sessions, device) == Filed(t.sessions, device) && Filed(m.reports, device) == Filed(t.reports, device)
  {
    RefiledFiles(t.events, from, to, device);
    RefiledFiles(Kept(t.quotas, t.quotas, from, to), from, to, device);
    KeptFiles(t.quotas, t.quotas, from, to, device);
    WithoutFiles(t.sessions, from, device);
    WithoutFiles(t.reports, from, device);
  }

  /** The display name moves only to a target that has none; every other name stays and the source's is gone. */
  lemma LabelFollowsUnlessTaken(labels: map<string, string>, from: string, to: string, device: string)
    requires from != to
    ensures var m := MergedLabels(labels, from, to);
            && from !in m
            && (device != from && device != to ==> (device in m <==> device in labels))
            && (device != from && device in labels ==> device in m && m[device] == labels[device])
            && (from in labels && to !in labels ==> to in m && m[to] == labels[from])
            && (to in m ==> to in labels || from in labels)
  {
  }

  /**
   A quota reading is under the target afterwards exactly when it was there before, or was the source's and its
   slot was free: the target's row wins each collision and no slot of either is left empty.
   */
  lemma TargetWinsCollisions(t: Tables, plan: Plan, from: string, to: string, actor: string, at: int, q: QuotaData)
    requires PlanMerge(t, from, to) == Ok(plan) && t.history.Readable? && plan.quotaMoved >= 0
    ensures Row(to, q) in Merged(t, plan, from, to, actor, at).quotas <==>
            Row(to, q) in t.quotas || (Row(from, q) in t.quotas && !Taken(t.quotas, to, q.slot))
  {
    var kept := Kept(t.quotas, t.quotas, from, to);
    var moved := Refiled(kept, from, to);
    KeptMember(t.quotas, t.quotas, from, to, Row(to, q));
    KeptMember(t.quotas, t.quotas, from, to, Row(from, q));
    if Row(to, q) in moved {
      var i :| 0 <= i < |moved| && moved[i] == Row(to, q);
      assert kept[i] in kept && kept[i] == Row(kept[i].device, q);
    }
    if Row(to, q) in kept {
      var i :| 0 <= i < |kept| && kept[i] == Row(to, q);
      assert moved[i] == Row(to, q);
    }
    if Row(from, q) in kept {
      var i :| 0 <= i < |kept| && kept[i] == Row(from, q);
      assert moved[i] == Row(to, q);
    }
  }

  /** The target's slots afterwards are the union of both devices' slots. */
  lemma TargetSlotsAreTheUnion(t: Tables, plan: Plan, from: string, to: string, actor: string, at: int, slot: Slot)
    requires PlanMerge(t, from, to) == Ok(plan) && t.history.Readable? && plan.quotaMoved >= 0
    ensures Taken(Merged(t, plan, from, to, actor, at).quotas, to, slot) <==> Taken(t.quotas, from, slot) || Taken(t.quotas, to, slot)
  {
    var m := Merged(t, plan, from, to, actor, at).quotas;
    if Taken(m, to, slot) {
      var r :| r in m && r.device == to && r.data.slot == slot;
      TargetWinsCollisions(t, plan, from, to, actor, at, r.data);
      assert r == Row(to, r.data);
    }
    if Taken(t.quotas, to, slot) {
      var r :| r in t.quotas && r.device == to && r.data.slot == slot;
      TargetWinsCollisions(t, plan, from, to, actor, at, r.data);
      assert r == Row(to, r.data);
    } else if Taken(t.quotas, from, slot) {
      var r :| r in t.quotas && r.device == from && r.data.slot == slot;
      TargetWinsCollisions(t, plan, from, to, actor, at, r.data);
      assert r == Row(from, r.data);
    }
  }

  lemma {:induction false} FiledIffKnown<T>(rows: seq<Row<T>>, device: string)
    ensures Known(rows, device) <==> Filed(rows, device) != []
  {
    if rows != [] {
      var init, last := rows[..|rows| - 1], rows[|rows| - 1];
      FiledIffKnown(init, device);
      assert rows == init + [last];
      assert last in rows;
    }
  }

  /** Nothing is filed under the source any more, so merging it again is refused as an unknown name. */
  lemma MergedAwayIsUnknown(t: Tables, plan: Plan, from: string, to: string, actor: string, at: int, other: string)
    requires PlanMerge(t, from, to) == Ok(plan) && t.history.Readable? && plan.quotaMoved >= 0
    requires other != "" && other != from
    ensures var m := Merged(t, plan, from, to, actor, at);
            !Exists(m, from) && PlanMerge(m, from, other) == Err(UnknownIdentity(from)) && from !in m.labels.value
  {
    var m := Merged(t, plan, from, to, actor, at);
    RefiledFiles(t.events, from, to, from);
    RefiledFiles(Kept(t.quotas, t.quotas, from, to), from, to, from);
    WithoutFiles(t.sessions, from, from);
    WithoutFiles(t.reports, from, from);
    FiledIffKnown(m.events, from);
    FiledIffKnown(m.quotas, from);
    FiledIffKnown(m.sessions, from);
    FiledIffKnown(m.reports, from);
  }
}
