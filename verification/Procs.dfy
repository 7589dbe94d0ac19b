/**
 Live process state: each report replaces its device's rows (internal/store/procs.go, ApplyProcReport;
 internal/store/ingestv2.go, applyProcReportTx has the same statements).
 */
module Procs {
  import opened Ingest

  datatype Key = Key(device: string, pid: int)

  datatype Session = Session(source: string, startedAt: int, observedAt: int)

  /** The live_sessions and live_reports tables. */
  datatype Live = Live(sessions: map<Key, Session>, reports: map<string, int>)

  datatype Applied = Applied(live: Live, changed: bool)

  const NO_LIVE := Live(map[], map[])

  // ---------------------------------------------------------------- specification

  /** What a report lists, by primary key; a repeated pid keeps its last listing. */
  function Listing(device: string, observedAt: int, sessions: seq<ProcSession>): map<Key, Session> {
    if sessions == [] then map[]
    else
      var s := sessions[|sessions| - 1];
      Listing(device, observedAt, sessions[..|sessions| - 1])[Key(device, s.pid) := Session(s.source, s.startedAt, observedAt)]
  }

  function Listed(r: ProcReport): map<Key, Session> {
    Listing(r.device, r.observedAt, r.sessions)
  }

  function RowsOf(l: Live, device: string): map<Key, Session> {
    map k | k in l.sessions && k.device == device :: l.sessions[k]
  }

  function LastReport(l: Live, device: string): int {
    if device in l.reports then l.reports[device] else 0
  }

  predicate Accepted(l: Live, r: ProcReport) {
    r.device != "" && r.observedAt != 0 && LastReport(l, r.device) <= r.observedAt
  }

  function KnownPids(l: Live, device: string): set<int> {
    set k | k in l.sessions && k.device == device :: k.pid
  }

  predicate ListsNew(known: set<int>, sessions: seq<ProcSession>) {
    exists s :: s in sessions && s.pid !in known
  }

  predicate Changes(known: set<int>, sessions: seq<ProcSession>) {
    |known| != |sessions| || ListsNew(known, sessions)
  }

  lemma ListingSnoc(table: map<Key, Session>, r: ProcReport, i: nat)
    requires i < |r.sessions|
    ensures table + Listing(r.device, r.observedAt, r.sessions[..i + 1])
         == (table + Listing(r.device, r.observedAt, r.sessions[..i]))[
              Key(r.device, r.sessions[i].pid) := Session(r.sessions[i].source, r.sessions[i].startedAt, r.observedAt)]
  {
    assert r.sessions[..i + 1][..i] == r.sessions[..i];
  }

  lemma ListsNewSnoc(known: set<int>, sessions: seq<ProcSession>, s: ProcSession)
    ensures ListsNew(known, sessions + [s]) <==> ListsNew(known, sessions) || s.pid !in known
  {
    assert forall x :: x in sessions + [s] <==> x in sessions || x == s;
  }

  function ApplyReport(l: Live, r: ProcReport): Applied {
    if !Accepted(l, r) then Applied(l, false)
    else
      var upserted := l.sessions + Listed(r);
      Applied(
        Live(map k | k in upserted && !(k.device == r.device && upserted[k].observedAt < r.observedAt) :: upserted[k],
             l.reports[r.device := r.observedAt]),
        Changes(KnownPids(l, r.device), r.sessions))
  }

  // ---------------------------------------------------------------- implementation

  class LiveTables {
    var sessions: map<Key, Session>
    var reports: map<string, int>

    function Contents(): Live
      reads this
    {
      Live(sessions, reports)
    }

    constructor ()
      ensures Contents() == NO_LIVE
    {
      sessions, reports := map[], map[];
    }

    method Apply(r: ProcReport) returns (changed: bool)
      modifies this
      ensures Applied(Contents(), changed) == ApplyReport(old(Contents()), r)
    {
      if r.device == "" || r.observedAt == 0 {
        return false;
      }
      var prev := if r.device in reports then reports[r.device] else 0;
      if prev > r.observedAt {
        return false;
      }
      changed := Upsert(r);
      sessions := map k | k in sessions && !(k.device == r.device && sessions[k].observedAt < r.observedAt) :: sessions[k];
      reports := reports[r.device := r.observedAt];
    }

    /** INSERT OR REPLACE of one listed process. */
    method UpsertOne(r: ProcReport, i: nat)
      requires i < |r.sessions|
      modifies this`sessions
      ensures sessions == old(sessions)[Key(r.device, r.sessions[i].pid)
                          := Session(r.sessions[i].source, r.sessions[i].startedAt, r.observedAt)]
    {
      var s := r.sessions[i];
      sessions := sessions[Key(r.device, s.pid) := Session(s.source, s.startedAt, r.observedAt)];
    }

    /** Every listed process is upserted, each pid compared with the ones known before. */
    method Upsert(r: ProcReport) returns (changed: bool)
      modifies this
      ensures reports == old(reports) && sessions == old(sessions) + Listed(r)
      ensures changed == Changes(KnownPids(old(Contents()), r.device), r.sessions)
    {
      var known := KnownPids(Contents(), r.device);
      changed := |known| != |r.sessions|;
      for i := 0 to |r.sessions|
        invariant reports == old(reports)
        invariant sessions == old(sessions) + Listing(r.device, r.observedAt, r.sessions[..i])
        invariant changed <==> |known| != |r.sessions| || ListsNew(known, r.sessions[..i])
      {
        ListsNewSnoc(known, r.sessions[..i], r.sessions[i]);
        ListingSnoc(old(sessions), r, i);
        assert r.sessions[..i + 1] == r.sessions[..i] + [r.sessions[i]];
        if r.sessions[i].pid !in known {
          changed := true;
        }
        UpsertOne(r, i);
      }
      assert r.sessions[..|r.sessions|] == r.sessions;
    }
  }

  // ---------------------------------------------------------------- one report

  predicate DistinctPids(sessions: seq<ProcSession>) {
    forall i, j :: 0 <= i < j < |sessions| ==> sessions[i].pid != sessions[j].pid
  }

  lemma {:induction false} ListingKeys(device: string, observedAt: int, sessions: seq<ProcSession>)
    ensures forall k :: k in Listing(device, observedAt, sessions) <==>
              k.device == device && exists s :: s in sessions && s.pid == k.pid
    ensures forall k :: k in Listing(device, observedAt, sessions) ==>
              Listing(device, observedAt, sessions)[k].observedAt == observedAt
  {
    if sessions != [] {
      ListingKeys(device, observedAt, sessions[..|sessions| - 1]);
      assert sessions == sessions[..|sessions| - 1] + [sessions[|sessions| - 1]];
    }
  }

  /** The last listing of a process. */
  ghost predicate LastListed(sessions: seq<ProcSession>, i: nat) {
    i < |sessions| && forall j :: i < j < |sessions| ==> sessions[j].pid != sessions[i].pid
  }

  /** A listed process is stored with the source and start its last listing gives, as of the report. */
  lemma {:induction false} ListingSays(device: string, observedAt: int, sessions: seq<ProcSession>, i: nat)
    requires LastListed(sessions, i)
    ensures Key(device, sessions[i].pid) in Listing(device, observedAt, sessions)
    ensures var stored := Listing(device, observedAt, sessions)[Key(device, sessions[i].pid)];
            stored.source == sessions[i].source && stored.startedAt == sessions[i].startedAt && stored.observedAt == observedAt
  {
    var init := sessions[..|sessions| - 1];
    if i < |init| {
      assert LastListed(init, i);
      ListingSays(device, observedAt, init, i);
    }
  }

  /** After an accepted report each listed process is stored with what the report says of it. */
  lemma ReportSays(l: Live, r: ProcReport, i: nat)
    requires r.device != "" && r.observedAt > 0 && (r.device in l.reports ==> l.reports[r.device] <= r.observedAt)
    requires LastListed(r.sessions, i)
    ensures var l' := ApplyReport(l, r).live;
            && Key(r.device, r.sessions[i].pid) in l'.sessions
            && var stored := l'.sessions[Key(r.device, r.sessions[i].pid)];
               stored.source == r.sessions[i].source && stored.startedAt == r.sessions[i].startedAt && stored.observedAt == r.observedAt
    ensures ApplyReport(l, r).live.reports == l.reports[r.device := r.observedAt]
  {
    ListingSays(r.device, r.observedAt, r.sessions, i);
  }

  /** A report without a device or a time, or older than the last one, changes nothing. */
  lemma RefusedChangesNothing(l: Live, r: ProcReport)
    requires r.device == "" || r.observedAt == 0 || (r.device in l.reports && r.observedAt < l.reports[r.device])
    ensures ApplyReport(l, r) == Applied(l, false)
  {
  }

  /** Applying a report leaves every other device's rows and report alone. */
  lemma OthersUntouched(l: Live, r: ProcReport, device: string)
    requires device != r.device
    ensures var l' := ApplyReport(l, r).live;
            RowsOf(l', device) == RowsOf(l, device) && LastReport(l', device) == LastReport(l, device)
  {
    ListingKeys(r.device, r.observedAt, r.sessions);
  }

  /**
   After an accepted report the device's rows are exactly its listing if and only if every stored row the
   report does not list was observed strictly earlier.
   */
  lemma SnapshotIff(l: Live, r: ProcReport)
    requires Accepted(l, r)
    ensures RowsOf(ApplyReport(l, r).live, r.device) == Listed(r) <==>
            forall k :: k in RowsOf(l, r.device) && k !in Listed(r) ==> l.sessions[k].observedAt < r.observedAt
  {
    ListingKeys(r.device, r.observedAt, r.sessions);
    var l' := ApplyReport(l, r).live;
    var rows := RowsOf(l', r.device);
    assert forall k :: k in Listed(r) ==> k in rows && rows[k] == Listed(r)[k];
    if forall k :: k in RowsOf(l, r.device) && k !in Listed(r) ==> l.sessions[k].observedAt < r.observedAt {
      assert forall k :: k in rows ==> k in Listed(r) || k in RowsOf(l, r.device);
      assert rows == Listed(r);
    } else {
      var k :| k in RowsOf(l, r.device) && k !in Listed(r) && l.sessions[k].observedAt >= r.observedAt;
      assert k in rows;
    }
  }

  lemma FirstReport(r: ProcReport)
    requires r.device != "" && r.observedAt > 0
    ensures Accepted(NO_LIVE, r) && ApplyReport(NO_LIVE, r).live == Live(Listed(r), map[r.device := r.observedAt])
  {
    ListingKeys(r.device, r.observedAt, r.sessions);
    assert NO_LIVE.sessions + Listed(r) == Listed(r);
  }

  /**
   Two accepted reports of one device at one instant leave the processes of both: the second is a snapshot
   only if it lists everything the first did.
   */
  lemma SameInstantKeepsBoth(a: ProcReport, b: ProcReport)
    requires a.device == b.device != "" && a.observedAt == b.observedAt > 0
    ensures var l1 := ApplyReport(NO_LIVE, a).live;
            var l2 := ApplyReport(l1, b).live;
            && Accepted(NO_LIVE, a) && Accepted(l1, b)
            && RowsOf(l2, b.device) == Listed(a) + Listed(b)
            && (RowsOf(l2, b.device) == Listed(b) <==> forall s :: s in a.sessions ==> exists s' :: s' in b.sessions && s'.pid == s.pid)
  {
    FirstReport(a);
    ListingKeys(a.device, a.observedAt, a.sessions);
    ListingKeys(b.device, b.observedAt, b.sessions);
    var l1 := ApplyReport(NO_LIVE, a).live;
    SameInstantRows(l1, a, b);
    forall s | s in a.sessions ensures Key(a.device, s.pid) in Listed(a) + Listed(b) {
    }
    assert Listed(a) + Listed(b) == Listed(b) <==> Listed(a).Keys <= Listed(b).Keys;
  }

  lemma SameInstantRows(l1: Live, a: ProcReport, b: ProcReport)
    requires a.device == b.device != "" && a.observedAt == b.observedAt > 0
    requires l1 == Live(Listed(a), map[a.device := a.observedAt])
    ensures RowsOf(ApplyReport(l1, b).live, b.device) == Listed(a) + Listed(b)
  {
    ListingKeys(a.device, a.observedAt, a.sessions);
    ListingKeys(b.device, b.observedAt, b.sessions);
  }

  ghost function PidSet(sessions: seq<ProcSession>): set<int> {
    set s | s in sessions :: s.pid
  }

  lemma {:induction false} PidCount(sessions: seq<ProcSession>)
    requires DistinctPids(sessions)
    ensures |PidSet(sessions)| == |sessions|
  {
    if sessions != [] {
      var n := |sessions| - 1;
      PidCount(sessions[..n]);
      assert sessions == sessions[..n] + [sessions[n]];
      assert PidSet(sessions) == PidSet(sessions[..n]) + {sessions[n].pid};
      assert sessions[n].pid !in PidSet(sessions[..n]);
    }
  }

  lemma SubsetOfSameSize(a: set<int>, b: set<int>)
    requires a <= b && |a| == |b|
    ensures a == b
  {
    assert |b - a| == |b| - |a|;
  }

  ghost predicate Running(r: ProcReport, pid: int) {
    exists s :: s in r.sessions && s.pid == pid
  }

  lemma PidsDifferIff(l: Live, r: ProcReport)
    ensures KnownPids(l, r.device) != PidSet(r.sessions) <==> exists pid :: Running(r, pid) != (Key(r.device, pid) in l.sessions)
  {
    forall pid ensures pid in KnownPids(l, r.device) <==> Key(r.device, pid) in l.sessions {
      if Key(r.device, pid) in l.sessions { assert Key(r.device, pid).pid == pid; }
    }
    forall pid ensures pid in PidSet(r.sessions) <==> Running(r, pid) {
    }
    if KnownPids(l, r.device) != PidSet(r.sessions) {
      assert exists pid :: (pid in KnownPids(l, r.device)) != (pid in PidSet(r.sessions));
    }
  }

  /** The broadcast flag is raised exactly when the set of running pids differs from the stored one. */
  lemma ChangedIffPidSetDiffers(l: Live, r: ProcReport)
    requires Accepted(l, r) && DistinctPids(r.sessions)
    ensures ApplyReport(l, r).changed <==> exists pid :: Running(r, pid) != (Key(r.device, pid) in l.sessions)
  {
    PidsDifferIff(l, r);
    PidCount(r.sessions);
    var known := KnownPids(l, r.device);
    if !Changes(known, r.sessions) {
      assert PidSet(r.sessions) <= known;
      SubsetOfSameSize(PidSet(r.sessions), known);
    } else {
      assert forall s :: s in r.sessions ==> s.pid in PidSet(r.sessions);
    }
  }

  // ---------------------------------------------------------------- any history of reports

  function ApplyReports(l: Live, h: seq<ProcReport>): Live {
    if h == [] then l else ApplyReport(ApplyReports(l, h[..|h| - 1]), h[|h| - 1]).live
  }

  predicate Usable(r: ProcReport) {
    r.device != "" && r.observedAt > 0
  }

  /** Observation times identify a device's reports. */
  predicate TimesIdentify(h: seq<ProcReport>) {
    forall a, b :: a in h && b in h && a.device == b.device && a.observedAt == b.observedAt ==> a == b
  }

  predicate Newest(h: seq<ProcReport>, r: ProcReport) {
    r in h && forall x :: x in h && x.device == r.device ==> x.observedAt <= r.observedAt
  }

  predicate Mentions(h: seq<ProcReport>, device: string) {
    exists r :: r in h && r.device == device
  }

  /** The device's rows and report time are those of r. */
  predicate Shows(l: Live, r: ProcReport) {
    RowsOf(l, r.device) == Listed(r) && r.device in l.reports && l.reports[r.device] == r.observedAt
  }

  /**
   Reports may arrive in any order and any number of times: a device's rows end as exactly the newest
   report, and a device never reported has none.
   */
  lemma {:induction false} NewestWins(h: seq<ProcReport>)
    requires (forall r :: r in h ==> Usable(r)) && TimesIdentify(h)
    ensures forall r :: Newest(h, r) ==> Shows(ApplyReports(NO_LIVE, h), r)
    ensures forall device :: !Mentions(h, device) ==>
      RowsOf(ApplyReports(NO_LIVE, h), device) == map[] && device !in ApplyReports(NO_LIVE, h).reports
  {
    if h != [] {
      var init, last := h[..|h| - 1], h[|h| - 1];
      assert h == init + [last];
      NewestWins(init);
      var l := ApplyReports(NO_LIVE, init);
      forall r | Newest(h, r)
        ensures Shows(ApplyReport(l, last).live, r)
      {
        NewestStep(init, last, l, r);
      }
      forall device | !Mentions(h, device)
        ensures RowsOf(ApplyReport(l, last).live, device) == map[] && device !in ApplyReport(l, last).live.reports
      {
        assert !Mentions(init, device);
        assert last in h;
        OthersUntouched(l, last, device);
      }
    }
  }

  lemma LatestOf(h: seq<ProcReport>, device: string) returns (r: ProcReport)
    requires Mentions(h, device)
    ensures Newest(h, r) && r.device == device
  {
    r :| r in h && r.device == device;
    for i := 0 to |h|
      invariant r in h && r.device == device
      invariant forall j :: 0 <= j < i && h[j].device == device ==> h[j].observedAt <= r.observedAt
    {
      if h[i].device == device && h[i].observedAt > r.observedAt { r := h[i]; }
    }
  }

  lemma NewestStep(init: seq<ProcReport>, last: ProcReport, l: Live, r: ProcReport)
    requires Usable(last) && TimesIdentify(init + [last]) && Newest(init + [last], r)
    requires forall x :: Newest(init, x) ==> Shows(l, x)
    requires forall device :: !Mentions(init, device) ==> RowsOf(l, device) == map[] && device !in l.reports
    ensures Shows(ApplyReport(l, last).live, r)
  {
    var h := init + [last];
    assert last in h && forall x :: x in init ==> x in h;
    if r.device != last.device {
      assert Newest(init, r);
      OthersUntouched(l, last, r.device);
    } else if r == last {
      if Mentions(init, r.device) {
        var p := LatestOf(init, r.device);
        assert Shows(l, p);
        ListingKeys(p.device, p.observedAt, p.sessions);
        if p.observedAt == last.observedAt { assert p == last; }
      }
      SnapshotIff(l, last);
    } else {
      assert Newest(init, r);
      assert !Accepted(l, last);
    }
  }
}
