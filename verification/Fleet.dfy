/**
 The fleet list hides a revoked device that an administrator has merged away, by an alias map folded from the merge
 log (internal/server/fleetdevices.go).
 */
module Fleets {
  import DeviceMerges
  import Ingest

  type Record = DeviceMerges.Record
  type EventRow = DeviceMerges.Row<DeviceMerges.EventData>

  datatype DeviceRecord = DeviceRecord(deviceID: string, revokedAt: int)

  // ---------------------------------------------------------------- what the log did

  /** The device that what is filed under `device` ends up filed under, when the log is replayed in order. */
  function Follow(log: seq<Record>, device: string): string {
    if log == [] then device
    else
      var last := log[|log| - 1];
      DeviceMerges.MoveTo(Follow(log[..|log| - 1], device), last.from, last.to)
  }

  predicate IsSource(log: seq<Record>, device: string) {
    exists m :: m in log && m.from == device
  }

  /** The position of the latest merge of this source. */
  function LastMerge(log: seq<Record>, device: string): (i: nat)
    requires IsSource(log, device)
    ensures i < |log| && log[i].from == device
    ensures forall j :: i < j < |log| ==> log[j].from != device
  {
    if log[|log| - 1].from == device then |log| - 1
    else
      assert log == log[..|log| - 1] + [log[|log| - 1]];
      LastMerge(log[..|log| - 1], device)
  }

  /** The log replayed on one source from its latest merge on. */
  function Replayed(log: seq<Record>, device: string): string
    requires IsSource(log, device)
  {
    Follow(log[LastMerge(log, device)..], device)
  }

  /** The events table after every merge of the log has been executed on it. */
  function AfterMerges(rows: seq<EventRow>, log: seq<Record>): (r: seq<EventRow>)
    ensures |r| == |rows|
    decreases |log|
  {
    if log == [] then rows
    else
      var last := log[|log| - 1];
      DeviceMerges.Refiled(AfterMerges(rows, log[..|log| - 1]), last.from, last.to)
  }

  /** Following the log is what the merges themselves did to each stored event. */
  lemma {:induction false} FollowIsWhatMergesDid(rows: seq<EventRow>, log: seq<Record>, k: nat)
    requires k < |rows|
    ensures AfterMerges(rows, log)[k] == DeviceMerges.Row(Follow(log, rows[k].device), rows[k].data)
    decreases |log|
  {
    if log != [] { FollowIsWhatMergesDid(rows, log[..|log| - 1], k); }
  }

  lemma SourceSnoc(log: seq<Record>, m: Record, device: string)
    ensures IsSource(log + [m], device) <==> IsSource(log, device) || m.from == device
    ensures device == m.from ==> Replayed(log + [m], device) == m.to
    ensures device != m.from && IsSource(log, device) ==>
      Replayed(log + [m], device) == DeviceMerges.MoveTo(Replayed(log, device), m.from, m.to)
  {
    var longer := log + [m];
    assert m in longer && longer[|log|] == m && longer[..|log|] == log;
    assert forall x :: x in longer <==> x in log || x == m;
    if device == m.from {
      assert longer[|log|..] == [m];
      assert Follow([m], device) == DeviceMerges.MoveTo(Follow([m][..0], device), m.from, m.to);
    } else if IsSource(log, device) {
      var i := LastMerge(log, device);
      assert LastMerge(longer, device) == i;
      assert longer[i..] == log[i..] + [m];
      assert (log[i..] + [m])[..|log[i..]|] == log[i..];
    }
  }

  // ---------------------------------------------------------------- the alias map

  ghost predicate AliasAt(aliases: map<string, string>, log: seq<Record>, x: string) {
    (x in aliases <==> IsSource(log, x)) && (x in aliases ==> aliases[x] == Replayed(log, x))
  }

  /** The inner loop: whoever pointed at the merged name now points at its target. */
  method Redirect(aliases: map<string, string>, merge: Record) returns (redirected: map<string, string>)
    ensures redirected.Keys == aliases.Keys
    ensures forall x :: x in aliases ==> redirected[x] == DeviceMerges.MoveTo(aliases[x], merge.from, merge.to)
  {
    redirected := aliases;
    var left := aliases.Keys;
    while left != {}
      invariant left <= aliases.Keys == redirected.Keys
      invariant forall x :: x in left ==> redirected[x] == aliases[x]
      invariant forall x :: x in aliases && x !in left ==> redirected[x] == DeviceMerges.MoveTo(aliases[x], merge.from, merge.to)
    {
      var source :| source in left;
      if redirected[source] == merge.from {
        redirected := redirected[source := merge.to];
      }
      left := left - {source};
    }
  }

  /** Whatever the log, cycles and re-used names included, each alias is the replay from its source's latest merge. */
  method BuildAliases(log: seq<Record>) returns (aliases: map<string, string>)
    ensures forall x :: AliasAt(aliases, log, x)
  {
    aliases := map[];
    for i := 0 to |log|
      invariant forall x :: AliasAt(aliases, log[..i], x)
    {
      var redirected := Redirect(aliases, log[i]);
      assert log[..i + 1] == log[..i] + [log[i]];
      ghost var before, longer := aliases, log[..i + 1];
      aliases := redirected[log[i].from := log[i].to];
      forall x ensures AliasAt(aliases, longer, x) {
        AliasSnoc(before, redirected, log[..i], log[i], x);
      }
    }
    assert log[..|log|] == log;
  }

  lemma AliasSnoc(aliases: map<string, string>, redirected: map<string, string>, log: seq<Record>, m: Record, x: string)
    requires AliasAt(aliases, log, x)
    requires x in redirected <==> x in aliases
    requires x in aliases ==> redirected[x] == DeviceMerges.MoveTo(aliases[x], m.from, m.to)
    ensures AliasAt(redirected[m.from := m.to], log + [m], x)
  {
    SourceSnoc(log, m, x);
  }

  /** Every event that a source held when it was last merged is now filed under that source's alias. */
  lemma AliasHoldsTheMovedEvents(rows: seq<EventRow>, log: seq<Record>, source: string, k: nat)
    requires IsSource(log, source) && k < |rows|
    requires AfterMerges(rows, log[..LastMerge(log, source)])[k].device == source
    ensures AfterMerges(rows, log)[k].device == Replayed(log, source)
  {
    var i := LastMerge(log, source);
    FollowIsWhatMergesDid(rows, log[..i], k);
    FollowIsWhatMergesDid(rows, log, k);
    FollowSplit(log[..i], log[i..], rows[k].device);
    assert log == log[..i] + log[i..];
  }

  lemma {:induction false} FollowSplit(a: seq<Record>, b: seq<Record>, device: string)
    ensures Follow(a + b, device) == Follow(b, Follow(a, device))
    decreases |b|
  {
    if b == [] {
      assert a + b == a;
    } else {
      FollowSplit(a, b[..|b| - 1], device);
      assert (a + b)[..|a + b| - 1] == a + b[..|b| - 1];
    }
  }

  // ---------------------------------------------------------------- the log is what the merges did

  /** How many rows lie under another device than before; rows keep their places. */
  function Moved(before: seq<EventRow>, after: seq<EventRow>): nat
    requires |before| == |after|
  {
    if before == [] then 0
    else
      var n := |before| - 1;
      Moved(before[..n], after[..n]) + if before[n].device != after[n].device then 1 else 0
  }

  lemma {:induction false} MovedIsFiled(rows: seq<EventRow>, from: string, to: string)
    requires from != to
    ensures Moved(rows, DeviceMerges.Refiled(rows, from, to)) == |DeviceMerges.Filed(rows, from)|
  {
    if rows != [] {
      var n := |rows| - 1;
      MovedIsFiled(rows[..n], from, to);
      assert DeviceMerges.Refiled(rows, from, to)[..n] == DeviceMerges.Refiled(rows[..n], from, to);
    }
  }

  /** What one record says happened between two states of the tables. */
  ghost predicate Tells(r: Record, t: DeviceMerges.Tables, t': DeviceMerges.Tables) {
    && |t'.events| == |t.events|
    && (forall k :: 0 <= k < |t.events| ==>
          t'.events[k].data == t.events[k].data && t'.events[k].device == Follow([r], t.events[k].device))
    && r.events == Moved(t.events, t'.events)
    && r.quotaDropped == |t.quotas| - |t'.quotas|
    && r.quotaSnapshots == |DeviceMerges.Filed(t'.quotas, r.to)| - |DeviceMerges.Filed(t.quotas, r.to)|
    && DeviceMerges.Filed(t'.quotas, r.from) == []
    && r.liveRowsDropped == |t.sessions| - |t'.sessions| + |t.reports| - |t'.reports|
  }

  lemma {:induction false} WithoutCounts<T>(rows: seq<DeviceMerges.Row<T>>, device: string)
    ensures |DeviceMerges.Without(rows, device)| + |DeviceMerges.Filed(rows, device)| == |rows|
  {
    if rows != [] { WithoutCounts(rows[..|rows| - 1], device); }
  }

  lemma MergeTells(t: DeviceMerges.Tables, plan: DeviceMerges.Plan, from: string, to: string, actor: string, at: int)
    requires DeviceMerges.Valid(t) && DeviceMerges.PlanMerge(t, from, to) == Ingest.Ok(plan) && t.history.Readable? && plan.quotaMoved >= 0
    ensures var t' := DeviceMerges.Merged(t, plan, from, to, actor, at);
            && t'.history.Readable? && |t'.history.value| == |t.history.value| + 1 && t.history.value <= t'.history.value
            && var r := t'.history.value[|t.history.value|];
               r.from == from && r.to == to && r.actor == actor && r.at == at && Tells(r, t, t')
  {
    var t' := DeviceMerges.Merged(t, plan, from, to, actor, at);
    var r := t'.history.value[|t.history.value|];
    DeviceMerges.PlanMatches(t, plan, from, to);
    MovedIsFiled(t.events, from, to);
    WithoutCounts(t.sessions, from);
    WithoutCounts(t.reports, from);
    QuotasTold(t, plan, from, to, actor, at);
    assert forall d :: Follow([r], d) == DeviceMerges.MoveTo(Follow([r][..0], d), r.from, r.to);
  }

  lemma QuotasTold(t: DeviceMerges.Tables, plan: DeviceMerges.Plan, from: string, to: string, actor: string, at: int)
    requires DeviceMerges.PlanMerge(t, from, to) == Ingest.Ok(plan) && t.history.Readable? && plan.quotaMoved >= 0
    ensures var quotas := DeviceMerges.Merged(t, plan, from, to, actor, at).quotas;
            && |t.quotas| - |quotas| == plan.quotaDropped
            && |DeviceMerges.Filed(quotas, to)| - |DeviceMerges.Filed(t.quotas, to)| == plan.quotaMoved
            && DeviceMerges.Filed(quotas, from) == []
  {
    DeviceMerges.KeptCounts(t.quotas, t.quotas, from, to);
    DeviceMerges.StatsAddUp(t, plan, from, to, actor, at);
    DeviceMerges.RefiledFiles(DeviceMerges.Kept(t.quotas, t.quotas, from, to), from, to, from);
  }

  /** One request to merge, as MergeDeviceIdentity runs it. */
  datatype Request = Request(from: string, to: string, actor: string, at: int)

  /** The tables after a request: merged, or as they were when it is refused. */
  function Requested(t: DeviceMerges.Tables, q: Request): (t': DeviceMerges.Tables)
    requires DeviceMerges.Valid(t)
    ensures DeviceMerges.Valid(t')
  {
    var outcome := DeviceMerges.Outcome(t, q.from, q.to);
    if outcome.Err? then t
    else
      DeviceMerges.PlanMatches(t, outcome.value, q.from, q.to);
      DeviceMerges.MergedValid(t, outcome.value, q.from, q.to, q.actor, q.at);
      DeviceMerges.Merged(t, outcome.value, q.from, q.to, q.actor, q.at)
  }

  function AllRequested(t: DeviceMerges.Tables, qs: seq<Request>): (t': DeviceMerges.Tables)
    requires DeviceMerges.Valid(t)
    ensures DeviceMerges.Valid(t')
  {
    if qs == [] then t else Requested(AllRequested(t, qs[..|qs| - 1]), qs[|qs| - 1])
  }

  /** Requests are carried out one after the other. */
  lemma RequestsInOrder(t: DeviceMerges.Tables, qs: seq<Request>, q: Request)
    requires DeviceMerges.Valid(t)
    ensures AllRequested(t, []) == t && AllRequested(t, qs + [q]) == Requested(AllRequested(t, qs), q)
  {
    assert (qs + [q])[..|qs|] == qs;
  }

  /** Between two states the log has only grown, and what it gained is what became of every event. */
  ghost predicate Logged(t: DeviceMerges.Tables, t': DeviceMerges.Tables) {
    && t.history.Readable? && t'.history.Readable? && t.history.value <= t'.history.value
    && t'.events == AfterMerges(t.events, t'.history.value[|t.history.value|..])
  }

  lemma OneRequest(t: DeviceMerges.Tables, q: Request)
    requires DeviceMerges.Valid(t) && t.history.Readable?
    ensures DeviceMerges.Outcome(t, q.from, q.to).Err? ==> Requested(t, q) == t
    ensures DeviceMerges.Outcome(t, q.from, q.to).Ok? ==> (
      && Requested(t, q).history.Readable? && |Requested(t, q).history.value| == |t.history.value| + 1
      && t.history.value <= Requested(t, q).history.value
      && var r := Requested(t, q).history.value[|t.history.value|];
         r.from == q.from && r.to == q.to && r.actor == q.actor && r.at == q.at && Tells(r, t, Requested(t, q)))
  {
    var outcome := DeviceMerges.Outcome(t, q.from, q.to);
    if outcome.Ok? {
      DeviceMerges.PlanMatches(t, outcome.value, q.from, q.to);
      MergeTells(t, outcome.value, q.from, q.to, q.actor, q.at);
    }
  }

  /** A record that tells what happened extends the log by just that. */
  lemma LoggedStep(t0: DeviceMerges.Tables, t: DeviceMerges.Tables, t': DeviceMerges.Tables)
    requires Logged(t0, t) && t'.history.Readable? && |t'.history.value| == |t.history.value| + 1 && t.history.value <= t'.history.value
    requires Tells(t'.history.value[|t.history.value|], t, t')
    ensures Logged(t0, t')
  {
    var n, r := |t0.history.value|, t'.history.value[|t.history.value|];
    var log, longer := t.history.value[n..], t'.history.value[n..];
    assert longer == log + [r] && longer[..|log|] == log;
    forall k | 0 <= k < |t'.events| ensures t'.events[k] == AfterMerges(t0.events, longer)[k] {
      FollowIsWhatMergesDid(t.events, [r], k);
      assert Follow([r], t.events[k].device) == DeviceMerges.MoveTo(Follow([r][..0], t.events[k].device), r.from, r.to);
    }
  }

  /** Whatever merges are requested and refused, the stored log is what was done to every event since. */
  lemma {:induction false} TheLogIsWhatRan(t: DeviceMerges.Tables, qs: seq<Request>)
    requires DeviceMerges.Valid(t) && t.history.Readable?
    ensures Logged(t, AllRequested(t, qs))
  {
    if qs == [] {
      assert t.history.value[|t.history.value|..] == [];
    } else {
      var mid := AllRequested(t, qs[..|qs| - 1]);
      TheLogIsWhatRan(t, qs[..|qs| - 1]);
      OneRequest(mid, qs[|qs| - 1]);
      if Requested(mid, qs[|qs| - 1]) != mid {
        LoggedStep(t, mid, Requested(mid, qs[|qs| - 1]));
      }
    }
  }

  /**
   So from an empty log the alias map built from what is stored is right about what is stored: what a source held when
   it was last merged is now filed under its alias.
   */
  lemma StoredAliasesAreRight(t: DeviceMerges.Tables, qs: seq<Request>, source: string, k: nat)
    requires DeviceMerges.Valid(t) && t.history == DeviceMerges.Readable([]) && k < |t.events|
    ensures AllRequested(t, qs).history.Readable?
    ensures var t', log := AllRequested(t, qs), AllRequested(t, qs).history.value;
            && |t'.events| == |t.events|
            && (IsSource(log, source) && AfterMerges(t.events, log[..LastMerge(log, source)])[k].device == source ==>
                 t'.events[k].device == Replayed(log, source))
  {
    TheLogIsWhatRan(t, qs);
    var log := AllRequested(t, qs).history.value;
    assert log[0..] == log;
    if IsSource(log, source) && AfterMerges(t.events, log[..LastMerge(log, source)])[k].device == source {
      AliasHoldsTheMovedEvents(t.events, log, source, k);
    }
  }

  // ---------------------------------------------------------------- the list

  /** Whether the list omits this record. */
  predicate Hidden(r: DeviceRecord, records: seq<DeviceRecord>, log: seq<Record>) {
    r.revokedAt > 0 && IsSource(log, r.deviceID)
    && var target := Replayed(log, r.deviceID);
       target != "" && target != r.deviceID && exists t :: t in records && t.deviceID == target
  }

  function Listed(records: seq<DeviceRecord>, all: seq<DeviceRecord>, log: seq<Record>): seq<DeviceRecord> {
    if records == [] then []
    else
      var last := records[|records| - 1];
      Listed(records[..|records| - 1], all, log) + if Hidden(last, all, log) then [] else [last]
  }

  lemma HiddenByAlias(aliases: map<string, string>, r: DeviceRecord, records: seq<DeviceRecord>, log: seq<Record>)
    requires AliasAt(aliases, log, r.deviceID)
    ensures Hidden(r, records, log) <==>
            r.revokedAt > 0 && r.deviceID in aliases && aliases[r.deviceID] != "" && aliases[r.deviceID] != r.deviceID
            && aliases[r.deviceID] in (set t | t in records :: t.deviceID)
  {
  }

  method FleetDevices(records: seq<DeviceRecord>, log: seq<Record>) returns (out: seq<DeviceRecord>)
    ensures out == Listed(records, records, log)
  {
    var aliases := BuildAliases(log);
    var present := set r | r in records :: r.deviceID;
    out := [];
    for i := 0 to |records|
      invariant out == Listed(records[..i], records, log)
    {
      var record := records[i];
      assert records[..i + 1][..i] == records[..i];
      HiddenByAlias(aliases, record, records, log);
      var target := if record.deviceID in aliases then aliases[record.deviceID] else "";
      var hidden := record.revokedAt > 0 && target != "" && target != record.deviceID && target in present;
      assert hidden == Hidden(record, records, log);
      if !hidden {
        out := out + [record];
      }
    }
    assert records[..|records|] == records;
  }

  lemma {:induction false} ListedMember(records: seq<DeviceRecord>, all: seq<DeviceRecord>, log: seq<Record>, r: DeviceRecord)
    ensures r in Listed(records, all, log) <==> r in records && !Hidden(r, all, log)
  {
    if records != [] {
      var init, last := records[..|records| - 1], records[|records| - 1];
      ListedMember(init, all, log, r);
      assert records == init + [last];
    }
  }

  /** The list omits a device exactly when it is revoked and the log leads from it to another device of the registry. */
  lemma OmittedIff(records: seq<DeviceRecord>, log: seq<Record>, r: DeviceRecord)
    requires r in records && Audited(log)
    ensures r !in Listed(records, records, log) <==>
            && r.revokedAt > 0 && IsSource(log, r.deviceID)
            && exists t :: t in records && t.deviceID == Replayed(log, r.deviceID) != r.deviceID
  {
    ListedMember(records, records, log, r);
    if IsSource(log, r.deviceID) { ReplayedNamed(log, r.deviceID); }
  }

  /** What is listed is listed once for each time it is registered, in the registry's order. */
  lemma {:induction false} ListedInOrder(records: seq<DeviceRecord>, all: seq<DeviceRecord>, log: seq<Record>, r: DeviceRecord)
    ensures multiset(Listed(records, all, log))[r] == if Hidden(r, all, log) then 0 else multiset(records)[r]
  {
    if records != [] {
      var init, last := records[..|records| - 1], records[|records| - 1];
      ListedInOrder(init, all, log, r);
      assert records == init + [last];
    }
  }

  // ---------------------------------------------------------------- is a hidden device still represented?

  /** Every omitted device's alias is itself on the list. */
  ghost predicate Represented(records: seq<DeviceRecord>, log: seq<Record>) {
    forall r :: r in records && Hidden(r, records, log) ==>
      exists t :: t in Listed(records, records, log) && t.deviceID == Replayed(log, r.deviceID)
  }

  /** No alias points at a name that has an alias elsewhere. */
  predicate Settled(log: seq<Record>) {
    forall m :: m in log && Replayed(log, m.from) != m.from && IsSource(log, Replayed(log, m.from)) ==>
      Replayed(log, Replayed(log, m.from)) == Replayed(log, m.from)
  }

  predicate Audited(log: seq<Record>) {
    forall m :: m in log ==> DeviceMerges.RecordOk(m)
  }

  lemma {:induction false} FollowNamed(log: seq<Record>, device: string)
    requires Audited(log) && device != ""
    ensures Follow(log, device) != ""
  {
    if log != [] {
      assert log[|log| - 1] in log;
      FollowNamed(log[..|log| - 1], device);
    }
  }

  lemma ReplayedNamed(log: seq<Record>, device: string)
    requires Audited(log) && IsSource(log, device)
    ensures device != "" && Replayed(log, device) != ""
  {
    FollowNamed(log[LastMerge(log, device)..], device);
  }

  /** The list stands for every omitted device, whatever the registry, exactly when the log is settled. */
  lemma RepresentedIffSettled(log: seq<Record>)
    requires Audited(log)
    ensures (forall records :: Represented(records, log)) <==> Settled(log)
  {
    if Settled(log) {
      forall records ensures Represented(records, log) {
        SettledRepresents(records, log);
      }
    } else {
      var m :| m in log && Replayed(log, m.from) != m.from && IsSource(log, Replayed(log, m.from))
        && Replayed(log, Replayed(log, m.from)) != Replayed(log, m.from);
      var records := Unrepresented(log, m.from);
    }
  }

  /** The registry in which an alias that is itself merged away leaves a device unrepresented. */
  lemma Unrepresented(log: seq<Record>, source: string) returns (records: seq<DeviceRecord>)
    requires Audited(log) && IsSource(log, source) && Replayed(log, source) != source
    requires IsSource(log, Replayed(log, source)) && Replayed(log, Replayed(log, source)) != Replayed(log, source)
    ensures !Represented(records, log)
  {
    var t := Replayed(log, source);
    var u := Replayed(log, t);
    records := [DeviceRecord(source, 1), DeviceRecord(t, 1), DeviceRecord(u, 0)];
    ReplayedNamed(log, source);
    ReplayedNamed(log, t);
    HiddenIn(records, log, 0, 1);
    forall r | r in Listed(records, records, log) ensures r.deviceID != t {
      ListedMember(records, records, log, r);
      HiddenIn(records, log, 1, 2);
    }
  }

  lemma HiddenIn(records: seq<DeviceRecord>, log: seq<Record>, i: nat, j: nat)
    requires i < |records| && j < |records| && records[i].revokedAt > 0
    requires IsSource(log, records[i].deviceID) && Replayed(log, records[i].deviceID) == records[j].deviceID
    requires records[j].deviceID != "" && records[j].deviceID != records[i].deviceID
    ensures Hidden(records[i], records, log)
  {
    assert records[j] in records;
  }

  lemma SettledRepresents(records: seq<DeviceRecord>, log: seq<Record>)
    requires Settled(log)
    ensures Represented(records, log)
  {
    forall r | r in records && Hidden(r, records, log)
      ensures exists t :: t in Listed(records, records, log) && t.deviceID == Replayed(log, r.deviceID)
    {
      var m :| m in log && m.from == r.deviceID;
      var t :| t in records && t.deviceID == Replayed(log, r.deviceID);
      ListedMember(records, records, log, t);
    }
  }

  /** Retired names stay retired: no merge targets a name that was merged away before. */
  predicate NamesNotReused(log: seq<Record>) {
    forall i, j :: 0 <= i < j < |log| ==> log[j].to != log[i].from
  }

  lemma {:induction false} AliasIsNeverRetired(log: seq<Record>, device: string)
    requires Audited(log) && NamesNotReused(log) && IsSource(log, device)
    ensures !IsSource(log, Replayed(log, device))
    decreases |log|
  {
    var init, last := log[..|log| - 1], log[|log| - 1];
    LogInit(log);
    SourceSnoc(init, last, device);
    TargetIsNew(log);
    if device != last.from {
      AliasIsNeverRetired(init, device);
      SourceSnoc(init, last, Replayed(init, device));
    }
  }

  lemma LogInit(log: seq<Record>)
    requires Audited(log) && NamesNotReused(log) && log != []
    ensures log == log[..|log| - 1] + [log[|log| - 1]]
    ensures Audited(log[..|log| - 1]) && NamesNotReused(log[..|log| - 1])
  {
    assert forall m :: m in log[..|log| - 1] ==> m in log;
  }

  lemma TargetIsNew(log: seq<Record>)
    requires Audited(log) && NamesNotReused(log) && log != []
    ensures !IsSource(log, log[|log| - 1].to)
  {
    var last := log[|log| - 1];
    forall m | m in log ensures m.from != last.to {
      var i :| 0 <= i < |log| && log[i] == m;
      if i == |log| - 1 { assert DeviceMerges.RecordOk(m); }
    }
  }

  /** Never re-using a name settles the log. */
  lemma NotReusedIsSettled(log: seq<Record>)
    requires Audited(log) && NamesNotReused(log)
    ensures Settled(log)
  {
    forall m | m in log ensures !IsSource(log, Replayed(log, m.from)) {
      AliasIsNeverRetired(log, m.from);
    }
  }

  /** A name taken into use again: what was merged into it is listed nowhere, since the list omits it as retired. */
  lemma ReusedNameHidesItsTarget()
    ensures var log := [DeviceMerges.Record("t", "u", 0, "", 0, 0, 0, 0), DeviceMerges.Record("x", "t", 1, "", 0, 0, 0, 0)];
            Audited(log) && !Settled(log) && exists records :: !Represented(records, log)
  {
    var a := DeviceMerges.Record("t", "u", 0, "", 0, 0, 0, 0);
    var b := DeviceMerges.Record("x", "t", 1, "", 0, 0, 0, 0);
    assert [] + [a] == [a] && [a] + [b] == [a, b] && b in [a, b];
    SourceSnoc([], a, "t");
    SourceSnoc([a], b, "t");
    SourceSnoc([a], b, "x");
    RepresentedIffSettled([a, b]);
  }
}
