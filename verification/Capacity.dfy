/**
 Capacity calibration: one peak-keeping sample per quota window, its backfill from history, and the blended estimate
 (internal/store/capacity.go). Percentages are real numbers; what the events table sums to is a parameter.
 */
module Capacities {

  datatype Key = Key(source: string, scope: string, windowMinutes: int, windowID: int)

  datatype Sample = Sample(peak: real, tokens: int, updatedAt: int)

  datatype Observation = Observation(source: string, scope: string, windowMinutes: int, resetsAt: int, pct: real, tokens: int)

  datatype Quota = Quota(source: string, scope: string, windowMinutes: int, resetsAt: int, pct: real, observedAt: int)

  type Table = map<Key, Sample>

  /** What a source's subscription traffic from one instant to another adds up to. */
  type Traffic = (string, int, int) -> int

  const MIN_PEAK := 30.0
  const MIN_SAMPLES := 3

  // ---------------------------------------------------------------- one window keeps its peak

  function KeyOf(o: Observation): Key {
    Key(o.source, o.scope, o.windowMinutes, o.resetsAt / 60000)
  }

  predicate Usable(o: Observation) {
    o.resetsAt > 0 && o.pct > 0.0 && o.tokens > 0 && o.windowMinutes > 0
  }

  /** The upsert: only a higher percentage replaces what a window holds. */
  function Observe(t: Table, o: Observation, now: int): Table {
    if Usable(o) && (KeyOf(o) in t ==> o.pct > t[KeyOf(o)].peak) then t[KeyOf(o) := Sample(o.pct, o.tokens, now)] else t
  }

  function Replay(t: Table, os: seq<Observation>, now: int): Table {
    if os == [] then t else Observe(Replay(t, os[..|os| - 1], now), os[|os| - 1], now)
  }

  predicate ReadingOf(o: Observation, k: Key) {
    Usable(o) && KeyOf(o) == k
  }

  /** The first reading of this window that reached the highest percentage any reading of it reached. */
  ghost predicate FirstAtPeak(os: seq<Observation>, k: Key, i: nat) {
    && i < |os| && ReadingOf(os[i], k)
    && (forall j :: 0 <= j < |os| && ReadingOf(os[j], k) ==> os[j].pct <= os[i].pct)
    && (forall j :: 0 <= j < i && ReadingOf(os[j], k) ==> os[j].pct < os[i].pct)
  }

  /** After any readings, a window holds its highest percentage and the tokens of the first reading to reach it. */
  lemma {:induction false} WindowKeepsItsPeak(os: seq<Observation>, k: Key, now: int) returns (i: nat)
    ensures k in Replay(map[], os, now) <==> exists o :: o in os && ReadingOf(o, k)
    ensures k in Replay(map[], os, now) ==>
      FirstAtPeak(os, k, i) && Replay(map[], os, now)[k] == Sample(os[i].pct, os[i].tokens, now)
  {
    i := 0;
    if os != [] {
      var init, last := os[..|os| - 1], os[|os| - 1];
      i := WindowKeepsItsPeak(init, k, now);
      assert os == init + [last];
      assert forall o :: o in os <==> o in init || o == last;
      var before := Replay(map[], init, now);
      if ReadingOf(last, k) && (k in before ==> last.pct > before[k].peak) { i := |os| - 1; }
    }
  }

  lemma {:induction false} PeaksNeverFall(t: Table, os: seq<Observation>, k: Key, now: int)
    requires k in t
    ensures k in Replay(t, os, now) && Replay(t, os, now)[k].peak >= t[k].peak
  {
    if os != [] { PeaksNeverFall(t, os[..|os| - 1], k, now); }
  }

  /** The table already knows at least as much as the observation says. */
  predicate Absorbs(t: Table, o: Observation) {
    Usable(o) ==> KeyOf(o) in t && o.pct <= t[KeyOf(o)].peak
  }

  lemma {:induction false} ReplayAbsorbs(t: Table, os: seq<Observation>, o: Observation, now: int)
    requires o in os
    ensures Absorbs(Replay(t, os, now), o)
  {
    var init, last := os[..|os| - 1], os[|os| - 1];
    if o != last {
      assert os == init + [last];
      ReplayAbsorbs(t, init, o, now);
    }
  }

  lemma {:induction false} AbsorbedIsNoOp(t: Table, os: seq<Observation>, now: int)
    requires forall o :: o in os ==> Absorbs(t, o)
    ensures Replay(t, os, now) == t
  {
    if os != [] {
      assert os[|os| - 1] in os;
      AbsorbedIsNoOp(t, os[..|os| - 1], now);
    }
  }

  /** Observing readings again, in any order and at any later time, changes nothing. */
  lemma ObservingAgainIsNoOp(t: Table, os: seq<Observation>, again: seq<Observation>, now: int, later: int)
    requires forall o :: o in again ==> o in os
    ensures Replay(Replay(t, os, now), again, later) == Replay(t, os, now)
  {
    forall o | o in again ensures Absorbs(Replay(t, os, now), o) {
      ReplayAbsorbs(t, os, o, now);
    }
    AbsorbedIsNoOp(Replay(t, os, now), again, later);
  }

  // ---------------------------------------------------------------- from quota snapshots

  function FromQuota(q: Quota, tokens: int): Observation {
    Observation(q.source, q.scope, q.windowMinutes, q.resetsAt, q.pct, tokens)
  }

  function TrafficOf(q: Quota, until: int, traffic: Traffic): int {
    traffic(q.source, q.resetsAt - q.windowMinutes * 60000, until)
  }

  /** A snapshot of history as the observation it would have made when it arrived. */
  function Reading(q: Quota, traffic: Traffic): Observation {
    FromQuota(q, TrafficOf(q, q.observedAt, traffic))
  }

  function QuotaKey(q: Quota): Key {
    Key(q.source, q.scope, q.windowMinutes, q.resetsAt / 60000)
  }

  /** The rows the backfill query reads. */
  predicate Recent(q: Quota, since: int) {
    q.observedAt >= since && q.resetsAt > 0 && q.pct >= MIN_PEAK
  }

  /** The row the query ranks first in its window: highest percentage, then earliest. */
  predicate Better(a: Quota, b: Quota) {
    a.pct > b.pct || (a.pct == b.pct && a.observedAt < b.observedAt)
  }

  function Keep(best: map<Key, Quota>, q: Quota, since: int): map<Key, Quota> {
    if Recent(q, since) && (QuotaKey(q) in best ==> Better(q, best[QuotaKey(q)])) then best[QuotaKey(q) := q] else best
  }

  function Best(quotas: seq<Quota>, since: int): map<Key, Quota> {
    if quotas == [] then map[] else Keep(Best(quotas[..|quotas| - 1], since), quotas[|quotas| - 1], since)
  }

  lemma {:induction false} BestIsOfItsWindow(quotas: seq<Quota>, since: int, k: Key)
    ensures k in Best(quotas, since) ==> Best(quotas, since)[k] in quotas && QuotaKey(Best(quotas, since)[k]) == k
  {
    if quotas != [] {
      BestIsOfItsWindow(quotas[..|quotas| - 1], since, k);
      assert quotas[|quotas| - 1] in quotas;
    }
  }

  predicate FilledFrom(o: Observation, best: map<Key, Quota>, keys: set<Key>, traffic: Traffic) {
    KeyOf(o) in keys && KeyOf(o) in best && o == Reading(best[KeyOf(o)], traffic) && o.tokens != 0
  }

  predicate OneEach(os: seq<Observation>) {
    forall i, j :: 0 <= i < j < |os| ==> KeyOf(os[i]) != KeyOf(os[j])
  }

  /** One observation for each of these windows, unless its events have aged out of the log. */
  ghost predicate Fillings(os: seq<Observation>, best: map<Key, Quota>, keys: set<Key>, traffic: Traffic) {
    OneEach(os) && forall o :: o in os <==> FilledFrom(o, best, keys, traffic)
  }

  lemma FillingsSnoc(os: seq<Observation>, best: map<Key, Quota>, keys: set<Key>, traffic: Traffic, k: Key)
    requires Fillings(os, best, keys, traffic) && k in best && k !in keys && QuotaKey(best[k]) == k
    ensures Fillings(if Reading(best[k], traffic).tokens != 0 then os + [Reading(best[k], traffic)] else os,
                     best, keys + {k}, traffic)
  {
    var r := Reading(best[k], traffic);
    assert KeyOf(r) == k;
    forall i | 0 <= i < |os| ensures KeyOf(os[i]) != k {
      assert os[i] in os;
    }
    forall o ensures FilledFrom(o, best, keys + {k}, traffic) <==> o in os || (o == r && r.tokens != 0) {
      assert o in os <==> FilledFrom(o, best, keys, traffic);
    }
  }

  class Calibration {
    var samples: Table

    constructor ()
      ensures samples == map[]
    {
      samples := map[];
    }

    method ObserveCapacity(o: Observation, now: int)
      modifies this
      ensures samples == Observe(old(samples), o, now)
    {
      if o.resetsAt <= 0 || o.pct <= 0.0 || o.tokens <= 0 || o.windowMinutes <= 0 {
        return;
      }
      var k := Key(o.source, o.scope, o.windowMinutes, o.resetsAt / 60000);
      if k !in samples || o.pct > samples[k].peak {
        samples := samples[k := Sample(o.pct, o.tokens, now)];
      }
    }

    /** The early exit, which spares the scan of the window's events, never changes what is stored. */
    method ObserveCapacityFromQuota(q: Quota, until: int, traffic: Traffic, now: int)
      modifies this
      ensures samples == Observe(old(samples), FromQuota(q, TrafficOf(q, until, traffic)), now)
    {
      if q.resetsAt <= 0 || q.pct <= 0.0 || q.windowMinutes <= 0 {
        return;
      }
      var k := Key(q.source, q.scope, q.windowMinutes, q.resetsAt / 60000);
      if k in samples && q.pct <= samples[k].peak {
        return;
      }
      var start := q.resetsAt - q.windowMinutes * 60000;
      ObserveCapacity(FromQuota(q, traffic(q.source, start, until)), now);
    }

    method ResetCapacity(source: string) returns (n: nat)
      modifies this
      ensures forall k :: k in samples <==> k in old(samples) && k.source != source
      ensures forall k :: k in samples ==> samples[k] == old(samples)[k]
      ensures n == |old(samples)| - |samples|
    {
      var left := map k | k in samples && k.source != source :: samples[k];
      assert left.Keys <= samples.Keys;
      SmallerKeys(left.Keys, samples.Keys);
      n := |samples| - |left|;
      samples := left;
    }

    /** Each window of history contributes its ranked row, in whatever order the rows come. */
    method BackfillCapacity(quotas: seq<Quota>, since: int, traffic: Traffic, now: int)
      returns (filled: nat, ghost os: seq<Observation>)
      modifies this
      ensures samples == Replay(old(samples), os, now)
      ensures Fillings(os, Best(quotas, since), Best(quotas, since).Keys, traffic) && filled == |os|
    {
      var peaks := SelectPeaks(quotas, since);
      var left := peaks.Keys;
      filled, os := 0, [];
      while left != {}
        invariant left <= peaks.Keys
        invariant samples == Replay(old(samples), os, now) && filled == |os|
        invariant Fillings(os, peaks, peaks.Keys - left, traffic)
      {
        var k :| k in left;
        var p := peaks[k];
        BestIsOfItsWindow(quotas, since, k);
        FillingsSnoc(os, peaks, peaks.Keys - left, traffic, k);
        assert peaks.Keys - left + {k} == peaks.Keys - (left - {k});
        var tokens := traffic(p.source, p.resetsAt - p.windowMinutes * 60000, p.observedAt);
        if tokens != 0 {
          ObserveCapacity(FromQuota(p, tokens), now);
          ghost var longer := os + [Reading(p, traffic)];
          assert longer[..|os|] == os;
          filled, os := filled + 1, longer;
        }
        left := left - {k};
      }
      assert peaks.Keys - {} == peaks.Keys;
    }
  }

  lemma SmallerKeys(a: set<Key>, b: set<Key>)
    requires a <= b
    ensures |a| <= |b|
  {
    if |a| > 0 {
      var x :| x in a;
      SmallerKeys(a - {x}, b - {x});
    }
  }

  /** The query with its window function, as a scan. */
  method SelectPeaks(quotas: seq<Quota>, since: int) returns (peaks: map<Key, Quota>)
    ensures peaks == Best(quotas, since)
  {
    peaks := map[];
    for i := 0 to |quotas|
      invariant peaks == Best(quotas[..i], since)
    {
      assert quotas[..i + 1][..i] == quotas[..i];
      var q := quotas[i];
      if q.observedAt >= since && q.resetsAt > 0 && q.pct >= MIN_PEAK {
        var k := Key(q.source, q.scope, q.windowMinutes, q.resetsAt / 60000);
        if k !in peaks || Better(q, peaks[k]) { peaks := peaks[k := q]; }
      }
    }
    assert quotas[..|quotas|] == quotas;
  }

  /** Running the backfill again over unchanged history and traffic changes nothing. */
  lemma BackfillTwice(t: Table, best: map<Key, Quota>, traffic: Traffic, first: seq<Observation>, second: seq<Observation>, now: int, later: int)
    requires Fillings(first, best, best.Keys, traffic) && Fillings(second, best, best.Keys, traffic)
    ensures Replay(Replay(t, first, now), second, later) == Replay(t, first, now)
  {
    forall o | o in second ensures o in first {
      assert FilledFrom(o, best, best.Keys, traffic);
    }
    ObservingAgainIsNoOp(t, first, second, now, later);
  }

  // ---------------------------------------------------------------- backfill against live calibration

  /**
   A snapshot as it was stored, and what its window's traffic summed to then: up to the clock of that moment, over
   the events that had arrived by that moment.
   */
  datatype Arrival = Arrival(quota: Quota, tokens: int)

  /** What live calibration observed: every stored snapshot, whatever its percentage. */
  function Observed(arrivals: seq<Arrival>): (os: seq<Observation>)
    ensures |os| == |arrivals| && forall i :: 0 <= i < |os| ==> os[i] == FromQuota(arrivals[i].quota, arrivals[i].tokens)
  {
    seq(|arrivals|, i requires 0 <= i < |arrivals| => FromQuota(arrivals[i].quota, arrivals[i].tokens))
  }

  function Stored(arrivals: seq<Arrival>): (qs: seq<Quota>)
    ensures |qs| == |arrivals| && forall i :: 0 <= i < |qs| ==> qs[i] == arrivals[i].quota
  {
    seq(|arrivals|, i requires 0 <= i < |arrivals| => arrivals[i].quota)
  }

  /** Both tables hold the same figures for a window, or neither holds any. */
  predicate SameFigures(a: Table, b: Table, k: Key) {
    (k in a <==> k in b) && (k in a && k in b ==> a[k].peak == b[k].peak && a[k].tokens == b[k].tokens)
  }

  /** The ranked row of a window, if it has one that calibrates. */
  predicate Ranks(best: map<Key, Quota>, k: Key, traffic: Traffic) {
    k in best && Usable(Reading(best[k], traffic))
  }

  /** The window was calibrated live exactly if its ranked row calibrates, and the first arrival at its peak says the same. */
  ghost predicate LiveMatches(os: seq<Observation>, best: map<Key, Quota>, k: Key, traffic: Traffic) {
    && (Ranks(best, k, traffic) <==> exists o :: o in os && ReadingOf(o, k))
    && (forall i: nat :: FirstAtPeak(os, k, i) && Ranks(best, k, traffic) ==>
          os[i].pct == best[k].pct && os[i].tokens == Reading(best[k], traffic).tokens)
  }

  lemma {:induction false} OneReadingIsKept(os: seq<Observation>, o: Observation, now: int)
    requires OneEach(os) && o in os && Usable(o)
    ensures KeyOf(o) in Replay(map[], os, now) && Replay(map[], os, now)[KeyOf(o)] == Sample(o.pct, o.tokens, now)
  {
    var i := WindowKeepsItsPeak(os, KeyOf(o), now);
    var j :| 0 <= j < |os| && os[j] == o;
    assert ReadingOf(o, KeyOf(o));
    assert KeyOf(os[i]) == KeyOf(os[j]);
    assert i == j;
  }

  /** What the backfill leaves in an empty table: each window's ranked row, if it calibrates. */
  lemma BackfilledWindow(os: seq<Observation>, best: map<Key, Quota>, traffic: Traffic, now: int, k: Key)
    requires Fillings(os, best, best.Keys, traffic) && (k in best ==> QuotaKey(best[k]) == k)
    ensures k in Replay(map[], os, now) <==> Ranks(best, k, traffic)
    ensures Ranks(best, k, traffic) ==> Replay(map[], os, now)[k] == Sample(best[k].pct, Reading(best[k], traffic).tokens, now)
  {
    var i := WindowKeepsItsPeak(os, k, now);
    forall o | o in os && ReadingOf(o, k) ensures Ranks(best, k, traffic) {
      assert FilledFrom(o, best, best.Keys, traffic);
    }
    if Ranks(best, k, traffic) {
      var r := Reading(best[k], traffic);
      assert FilledFrom(r, best, best.Keys, traffic);
      OneReadingIsKept(os, r, now);
    }
  }

  lemma PeakIsOne(os: seq<Observation>, k: Key, i: nat, j: nat)
    requires FirstAtPeak(os, k, i) && FirstAtPeak(os, k, j)
    ensures i == j
  {
  }

  /** For any arrivals and any later events table: the backfill rebuilds a window's live sample exactly when the two match. */
  lemma BackfillIsTheLiveCalibrationIff(arrivals: seq<Arrival>, since: int, traffic: Traffic, now: int, later: int, k: Key, os: seq<Observation>)
    requires var best := Best(Stored(arrivals), since); Fillings(os, best, best.Keys, traffic)
    ensures SameFigures(Replay(map[], Observed(arrivals), now), Replay(map[], os, later), k) <==>
            LiveMatches(Observed(arrivals), Best(Stored(arrivals), since), k, traffic)
  {
    var best, seen := Best(Stored(arrivals), since), Observed(arrivals);
    BestIsOfItsWindow(Stored(arrivals), since, k);
    BackfilledWindow(os, best, traffic, later, k);
    var i := WindowKeepsItsPeak(seen, k, now);
    forall j: nat | FirstAtPeak(seen, k, j) && k in Replay(map[], seen, now) ensures j == i {
      PeakIsOne(seen, k, i, j);
    }
    if LiveMatches(seen, best, k, traffic) && Ranks(best, k, traffic) {
      assert FirstAtPeak(seen, k, i);
    }
  }

  predicate InArrivalOrder(arrivals: seq<Arrival>) {
    forall i, j :: 0 <= i < j < |arrivals| ==> arrivals[i].quota.observedAt <= arrivals[j].quota.observedAt
  }

  /** The traffic up to the snapshot, and no more, had arrived with it; none is older than the backfill looks. */
  predicate OnTime(arrivals: seq<Arrival>, since: int, traffic: Traffic, k: Key) {
    forall a :: a in arrivals && QuotaKey(a.quota) == k ==>
      a.quota.observedAt >= since && a.tokens == Reading(a.quota, traffic).tokens
  }

  /** The window's live sample against its ranked row: below what is ranked, or never ahead of it, and equal when it calibrates. */
  ghost predicate Agrees(live: Table, best: map<Key, Quota>, k: Key, traffic: Traffic) {
    && (k in best ==> best[k].pct >= MIN_PEAK)
    && (k in live ==> live[k].peak < MIN_PEAK || (k in best && live[k].peak <= best[k].pct))
    && (Ranks(best, k, traffic) ==> k in live && live[k].peak == best[k].pct && live[k].tokens == Reading(best[k], traffic).tokens)
  }

  lemma AgreesStep(live: Table, best: map<Key, Quota>, k: Key, a: Arrival, since: int, traffic: Traffic, now: int)
    requires Agrees(live, best, k, traffic) && OnTime([a], since, traffic, k)
    requires k in best ==> best[k].observedAt <= a.quota.observedAt
    ensures Agrees(Observe(live, FromQuota(a.quota, a.tokens), now), Keep(best, a.quota, since), k, traffic)
  {
    assert a in [a];
    assert KeyOf(FromQuota(a.quota, a.tokens)) == QuotaKey(a.quota);
  }

  lemma ArrivalsInit(arrivals: seq<Arrival>, since: int, traffic: Traffic, k: Key)
    requires arrivals != [] && InArrivalOrder(arrivals) && OnTime(arrivals, since, traffic, k)
    ensures var init, a := arrivals[..|arrivals| - 1], arrivals[|arrivals| - 1];
            && InArrivalOrder(init) && OnTime(init, since, traffic, k) && OnTime([a], since, traffic, k)
            && Observed(arrivals) == Observed(init) + [FromQuota(a.quota, a.tokens)] && Stored(arrivals) == Stored(init) + [a.quota]
            && forall q :: q in Stored(init) ==> q.observedAt <= a.quota.observedAt
  {
    assert arrivals[|arrivals| - 1] in arrivals;
  }

  lemma ReplaySnoc(os: seq<Observation>, o: Observation, now: int)
    ensures Replay(map[], os + [o], now) == Observe(Replay(map[], os, now), o, now)
  {
    assert (os + [o])[..|os|] == os;
  }

  lemma BestSnoc(quotas: seq<Quota>, q: Quota, since: int)
    ensures Best(quotas + [q], since) == Keep(Best(quotas, since), q, since)
  {
    assert (quotas + [q])[..|quotas|] == quotas;
  }

  lemma {:induction false} LiveAgrees(arrivals: seq<Arrival>, since: int, traffic: Traffic, now: int, k: Key)
    requires InArrivalOrder(arrivals) && OnTime(arrivals, since, traffic, k)
    ensures Agrees(Replay(map[], Observed(arrivals), now), Best(Stored(arrivals), since), k, traffic)
  {
    if arrivals != [] {
      var init, a := arrivals[..|arrivals| - 1], arrivals[|arrivals| - 1];
      ArrivalsInit(arrivals, since, traffic, k);
      LiveAgrees(init, since, traffic, now, k);
      BestIsOfItsWindow(Stored(init), since, k);
      ReplaySnoc(Observed(init), FromQuota(a.quota, a.tokens), now);
      BestSnoc(Stored(init), a.quota, since);
      AgreesStep(Replay(map[], Observed(init), now), Best(Stored(init), since), k, a, since, traffic, now);
    }
  }

  /**
   Where events and snapshots arrive in time order, ranking each window's rows once gives the sample that observing
   every snapshot as it arrived left, for every window whose ranked row still has its traffic.
   */
  lemma BackfillIsTheLiveCalibration(arrivals: seq<Arrival>, since: int, traffic: Traffic, now: int, later: int, k: Key, os: seq<Observation>)
    requires var best := Best(Stored(arrivals), since); Fillings(os, best, best.Keys, traffic) && Ranks(best, k, traffic)
    requires InArrivalOrder(arrivals) && OnTime(arrivals, since, traffic, k)
    ensures SameFigures(Replay(map[], Observed(arrivals), now), Replay(map[], os, later), k) && k in Replay(map[], os, later)
  {
    LiveAgrees(arrivals, since, traffic, now, k);
    BestIsOfItsWindow(Stored(arrivals), since, k);
    BackfilledWindow(os, Best(Stored(arrivals), since), traffic, later, k);
  }

  // ---------------------------------------------------------------- the estimate across windows

  /** Go's conversion to an integer. */
  function Trunc(x: real): int {
    if x >= 0.0 then x.Floor else -((-x).Floor)
  }

  /** The tokens a sample implies the whole window holds. */
  function Capacity(s: Sample): int {
    if s.peak <= 0.0 then 0 else Trunc(s.tokens as real / s.peak * 100.0)
  }

  predicate Ascending(xs: seq<int>) {
    forall i, j :: 0 <= i < j < |xs| ==> xs[i] <= xs[j]
  }

  /** How many are at most `x`. */
  function AtMost(xs: seq<int>, x: int): nat {
    if xs == [] then 0 else AtMost(xs[..|xs| - 1], x) + if xs[|xs| - 1] <= x then 1 else 0
  }

  /** How many are below `x`. */
  function Below(xs: seq<int>, x: int): nat {
    if xs == [] then 0 else Below(xs[..|xs| - 1], x) + if xs[|xs| - 1] < x then 1 else 0
  }

  lemma {:induction false} CountsInsert(a: seq<int>, y: int, b: seq<int>, x: int)
    ensures AtMost(a + [y] + b, x) == AtMost(a + b, x) + if y <= x then 1 else 0
    ensures Below(a + [y] + b, x) == Below(a + b, x) + if y < x then 1 else 0
  {
    if b == [] {
      assert a + [y] + b == a + [y] && a + b == a && (a + [y])[..|a|] == a;
    } else {
      var init := b[..|b| - 1];
      CountsInsert(a, y, init, x);
      assert (a + [y] + b)[..|a| + |b|] == a + [y] + init && (a + b)[..|a| + |b| - 1] == a + init;
    }
  }

  /** Stands for the library sort; counting is how its callers' results are stated. */
  method SortAscending(xs: seq<int>) returns (sorted: seq<int>)
    ensures Ascending(sorted) && |sorted| == |xs|
    ensures forall x :: AtMost(sorted, x) == AtMost(xs, x) && Below(sorted, x) == Below(xs, x)
  {
    sorted := [];
    for i := 0 to |xs|
      invariant Ascending(sorted) && |sorted| == i
      invariant forall x :: AtMost(sorted, x) == AtMost(xs[..i], x) && Below(sorted, x) == Below(xs[..i], x)
    {
      ghost var init := xs[..i];
      assert xs[..i + 1][..i] == init;
      sorted := InsertAscending(sorted, xs[i]);
    }
    assert xs[..|xs|] == xs;
  }

  lemma AscendingInsert(a: seq<int>, y: int, b: seq<int>)
    requires Ascending(a + b) && (forall x :: x in a ==> x <= y) && (b != [] ==> b[0] >= y)
    ensures Ascending(a + [y] + b)
  {
    forall j | 0 <= j < |b| ensures b[j] >= y {
      assert b[0] == (a + b)[|a|] && b[j] == (a + b)[|a| + j];
    }
    forall i, j | 0 <= i < j < |a + [y] + b| ensures (a + [y] + b)[i] <= (a + [y] + b)[j] {
      var i', j' := if i < |a| then i else i - 1, if j < |a| then j else j - 1;
      if i != |a| && j != |a| { assert (a + b)[i'] <= (a + b)[j']; }
      if i < |a| && j == |a| { assert a[i] in a; }
    }
  }

  method InsertAscending(sorted: seq<int>, y: int) returns (longer: seq<int>)
    requires Ascending(sorted)
    ensures Ascending(longer) && |longer| == |sorted| + 1
    ensures forall x :: AtMost(longer, x) == AtMost(sorted, x) + if y <= x then 1 else 0
    ensures forall x :: Below(longer, x) == Below(sorted, x) + if y < x then 1 else 0
  {
    var k := 0;
    while k < |sorted| && sorted[k] <= y
      invariant k <= |sorted| && forall x :: x in sorted[..k] ==> x <= y
    {
      k := k + 1;
    }
    ghost var a, b := sorted[..k], sorted[k..];
    assert sorted == a + b;
    AscendingInsert(a, y, b);
    longer := sorted[..k] + [y] + sorted[k..];
    forall x ensures AtMost(longer, x) == AtMost(sorted, x) + if y <= x then 1 else 0 {
      CountsInsert(a, y, b, x);
    }
    forall x ensures Below(longer, x) == Below(sorted, x) + if y < x then 1 else 0 {
      CountsInsert(a, y, b, x);
    }
  }

  function Implied(samples: seq<Sample>): seq<int> {
    if samples == [] then []
    else
      var v := Capacity(samples[|samples| - 1]);
      Implied(samples[..|samples| - 1]) + if v > 0 then [v] else []
  }

  lemma {:induction false} RankOfTheElement(sorted: seq<int>, i: nat)
    requires Ascending(sorted) && i < |sorted|
    ensures Below(sorted, sorted[i]) <= i < AtMost(sorted, sorted[i])
  {
    RankIn(sorted, sorted[i], i);
  }

  lemma {:induction false} RankIn(sorted: seq<int>, x: int, i: nat)
    requires i < |sorted|
    requires (forall j :: 0 <= j <= i ==> sorted[j] <= x) && (forall j :: i <= j < |sorted| ==> sorted[j] >= x)
    ensures Below(sorted, x) <= i < AtMost(sorted, x)
  {
    var init := sorted[..|sorted| - 1];
    if i < |init| {
      RankIn(init, x, i);
    } else {
      AllCounted(init, x);
    }
  }

  lemma {:induction false} AllCounted(xs: seq<int>, x: int)
    requires forall j :: 0 <= j < |xs| ==> xs[j] <= x
    ensures Below(xs, x) <= |xs| == AtMost(xs, x)
  {
    if xs != [] { AllCounted(xs[..|xs| - 1], x); }
  }

  /**
   The estimate over the recent samples: no answer below three usable ones, and otherwise the lower quartile. At
   most a quarter of the windows held less than it, and more than a quarter held no more.
   */
  method CapacityEstimate(samples: seq<Sample>) returns (estimate: int, ok: bool)
    ensures ok <==> |samples| >= MIN_SAMPLES && |Implied(samples)| >= MIN_SAMPLES
    ensures ok ==> Below(Implied(samples), estimate) <= |Implied(samples)| / 4 < AtMost(Implied(samples), estimate)
    ensures ok ==> AtMost(Implied(samples), estimate - 1) <= |Implied(samples)| / 4
    ensures !ok ==> estimate == 0
  {
    if |samples| < MIN_SAMPLES {
      return 0, false;
    }
    var caps := [];
    for i := 0 to |samples|
      invariant caps == Implied(samples[..i])
    {
      assert samples[..i + 1][..i] == samples[..i];
      var v := Capacity(samples[i]);
      if v > 0 { caps := caps + [v]; }
    }
    assert samples[..|samples|] == samples;
    if |caps| < MIN_SAMPLES {
      return 0, false;
    }
    var sorted := SortAscending(caps);
    RankOfTheElement(sorted, |sorted| / 4);
    BelowIsAtMostBefore(caps, sorted[|sorted| / 4]);
    return sorted[|sorted| / 4], true;
  }

  lemma {:induction false} BelowIsAtMostBefore(xs: seq<int>, x: int)
    ensures Below(xs, x) == AtMost(xs, x - 1)
  {
    if xs != [] { BelowIsAtMostBefore(xs[..|xs| - 1], x); }
  }

  // ---------------------------------------------------------------- the window in front of you

  const PRIOR_CV := 0.26
  const QUANTUM := 0.5
  const LIVE_ONLY_MIN_PERCENT := 10.0

  /** The live reading's own capacity. */
  function Live(tokens: int, pct: real): real
    requires pct > 0.0
  {
    tokens as real / pct * 100.0
  }

  /** The inverse-variance weight of the live reading. */
  function Weight(pct: real): real
    requires pct > 0.0
  {
    SquareGrows(0.0, pct);
    Square(pct) / (Square(pct) + Square(QUANTUM / PRIOR_CV))
  }

  function Square(x: real): real {
    x * x
  }

  lemma SquareGrows(x: real, y: real)
    requires 0.0 <= x < y
    ensures 0.0 <= Square(x) < Square(y)
  {
    var d := y - x;
    Product(d, y);
    MulAtMost(d, 0.0, x);
    MulAtMost(x, 0.0, x);
    assert Square(y) - Square(x) == d * x + d * y;
  }

  lemma MulAtMost(c: real, a: real, b: real)
    requires a <= b && c >= 0.0
    ensures c * a <= c * b
  {
  }

  lemma MulBelow(c: real, a: real, b: real)
    requires a < b && c > 0.0
    ensures c * a < c * b
  {
  }

  lemma Product(a: real, b: real)
    requires a > 0.0 && b > 0.0
    ensures a * b > 0.0
  {
  }

  lemma Fraction(p: real, c: real)
    requires p > 0.0 && c > 0.0
    ensures 0.0 < p / (p + c) < 1.0
  {
    var q, d := p / (p + c), p + c;
    assert d * q == p;
    if q <= 0.0 { MulAtMost(d, q, 0.0); }
    if q >= 1.0 { MulAtMost(d, 1.0, q); }
  }

  lemma FractionGrows(p: real, q: real, c: real)
    requires 0.0 < p < q && c > 0.0
    ensures p / (p + c) < q / (q + c)
  {
    var x, y := p + c, q + c;
    var u, v := c / x, c / y;
    Complement(p, c);
    Complement(q, c);
    assert x * u == c && y * v == c;
    Positive(c, y);
    MulBelow(v, x, y);
    if u <= v { MulAtMost(x, u, v); }
  }

  lemma Distribute(x: real, a: real, b: real)
    ensures x * (a + b) == x * a + x * b
  {
  }

  lemma Complement(p: real, c: real)
    requires p > 0.0 && c > 0.0
    ensures p / (p + c) == 1.0 - c / (p + c)
  {
    var x := p + c;
    var r := p / x + c / x;
    assert x * (p / x) == p && x * (c / x) == c;
    Distribute(x, p / x, c / x);
    if r < 1.0 { MulBelow(x, r, 1.0); }
    if r > 1.0 { MulBelow(x, 1.0, r); }
  }

  lemma Positive(a: real, b: real)
    requires a > 0.0 && b > 0.0
    ensures a / b > 0.0
  {
  }

  /** The live reading gains weight with every step of the percentage, and never has all or none of it. */
  lemma WeightGrows(p: real, q: real)
    requires 0.0 < p < q
    ensures 0.0 < Weight(p) < Weight(q) < 1.0
  {
    var k := QUANTUM / PRIOR_CV;
    SquareGrows(0.0, k);
    SquareGrows(0.0, p);
    SquareGrows(p, q);
    FractionGrows(Square(p), Square(q), Square(k));
    Fraction(Square(p), Square(k));
    Fraction(Square(q), Square(k));
  }

  function Blend(w: real, live: real, prior: real): real {
    w * live + (1.0 - w) * prior
  }

  function CapacityForWindow(prior: int, priorOK: bool, tokens: int, pct: real): (int, bool) {
    if tokens <= 0 || pct <= 0.0 then (prior, priorOK && prior > 0)
    else if !priorOK || prior <= 0 then
      if pct < LIVE_ONLY_MIN_PERCENT then (0, false) else (Trunc(Live(tokens, pct)), true)
    else (Trunc(Blend(Weight(pct), Live(tokens, pct), prior as real)), true)
  }

  lemma BlendBetween(w: real, live: real, prior: real)
    requires 0.0 < w < 1.0
    ensures live <= prior ==> live <= Blend(w, live, prior) <= prior
    ensures prior <= live ==> prior <= Blend(w, live, prior) <= live
  {
    var d := prior - live;
    assert Blend(w, live, prior) == live + (1.0 - w) * d && Blend(w, live, prior) == prior - w * d;
    if d >= 0.0 {
      MulAtMost(d, 0.0, w);
      MulAtMost(d, 0.0, 1.0 - w);
    } else {
      MulAtMost(-d, 0.0, w);
      MulAtMost(-d, 0.0, 1.0 - w);
    }
  }

  /** With a prior and a usable reading, the answer lies between what each says, up to truncation. */
  lemma EstimateBetweenPriorAndLive(prior: int, tokens: int, pct: real)
    requires prior > 0 && tokens > 0 && pct > 0.0
    ensures var (r, ok) := CapacityForWindow(prior, true, tokens, pct);
            var live := Trunc(Live(tokens, pct));
            ok && (if live <= prior then live <= r <= prior else prior <= r <= live)
  {
    WeightGrows(pct / 2.0, pct);
    var live, p := Live(tokens, pct), prior as real;
    BlendBetween(Weight(pct), live, p);
    var blend := Blend(Weight(pct), live, p);
    assert live > 0.0;
    assert p.Floor == prior;
    TruncMonotone(live, blend);
    TruncMonotone(blend, live);
    TruncMonotone(p, blend);
    TruncMonotone(blend, p);
  }

  lemma TruncMonotone(x: real, y: real)
    ensures x <= y ==> Trunc(x) <= Trunc(y)
  {
  }

  lemma CloserToLive(live: real, prior: real, p: real, q: real)
    requires 0.0 < p < q && live != prior
    ensures var a, b := Blend(Weight(p), live, prior) - live, Blend(Weight(q), live, prior) - live;
            if live < prior then 0.0 < b < a else a < b < 0.0
  {
    WeightGrows(p, q);
    var d := prior - live;
    assert Blend(Weight(p), live, prior) - live == (1.0 - Weight(p)) * d;
    assert Blend(Weight(q), live, prior) - live == (1.0 - Weight(q)) * d;
    if d > 0.0 {
      MulBelow(d, 1.0 - Weight(q), 1.0 - Weight(p));
      MulBelow(d, 0.0, 1.0 - Weight(q));
    } else {
      MulBelow(-d, 1.0 - Weight(q), 1.0 - Weight(p));
      MulBelow(-d, 0.0, 1.0 - Weight(q));
    }
  }

  /** There is an answer exactly when past windows taught something or this one is full enough to divide by. */
  lemma AnswersIff(prior: int, priorOK: bool, tokens: int, pct: real)
    ensures CapacityForWindow(prior, priorOK, tokens, pct).1 <==>
            (priorOK && prior > 0) || (tokens > 0 && pct >= LIVE_ONLY_MIN_PERCENT)
  {
  }

  // ---------------------------------------------------------------- what the numbers are

  lemma Divided(n: real, d: real)
    requires d > 0.0
    ensures n / d * d == n
  {
  }

  /** A truncated non-negative quotient is the quotient rounded down. */
  lemma TruncOfQuotient(n: real, d: real)
    requires d > 0.0 && n >= 0.0
    ensures Trunc(n / d) >= 0 && Trunc(n / d) as real * d <= n < (Trunc(n / d) as real + 1.0) * d
  {
    var q := n / d;
    Divided(n, d);
    Commutes(d, q);
    if q < 0.0 { MulBelow(d, q, 0.0); }
    TruncBounds(q);
    var t := Trunc(q) as real;
    AtMostProduct(t, q, d, n);
    BelowProduct(t + 1.0, q, d, n);
  }

  lemma Minus(a: real, b: real, d: real)
    ensures (a - b) * d == a * d - b * d
  {
  }

  lemma AtMostProduct(t: real, q: real, d: real, n: real)
    requires d > 0.0 && t <= q && q * d == n
    ensures t * d <= n
  {
    if t < q {
      Product(q - t, d);
      Minus(q, t, d);
    }
  }

  lemma BelowProduct(u: real, q: real, d: real, n: real)
    requires d > 0.0 && q < u && q * d == n
    ensures n < u * d
  {
    Product(u - q, d);
    Minus(u, q, d);
  }

  lemma TruncBounds(q: real)
    requires q >= 0.0
    ensures Trunc(q) >= 0 && Trunc(q) as real <= q < Trunc(q) as real + 1.0
  {
  }

  lemma Commutes(a: real, b: real)
    ensures a * b == b * a
  {
  }

  lemma Scaled(tokens: real, pct: real)
    requires pct > 0.0
    ensures tokens / pct * 100.0 == tokens * 100.0 / pct
  {
    Divided(tokens, pct);
    Divided(tokens * 100.0, pct);
    var a, b := tokens / pct * 100.0, tokens * 100.0 / pct;
    assert a * pct == b * pct;
    if a < b { MulBelow(pct, a, b); }
    if b < a { MulBelow(pct, b, a); }
  }

  /** A sample implies its tokens scaled from its percentage to the whole window, rounded down. */
  lemma CapacityIsScaled(s: Sample)
    requires s.peak > 0.0 && s.tokens >= 0
    ensures Capacity(s) as real * s.peak <= s.tokens as real * 100.0 < (Capacity(s) as real + 1.0) * s.peak
  {
    Scaled(s.tokens as real, s.peak);
    TruncOfQuotient(s.tokens as real * 100.0, s.peak);
  }

  /** Without a prior, a window at ten percent or more speaks for itself, and one below has no answer. */
  lemma LiveAloneIsScaled(prior: int, priorOK: bool, tokens: int, pct: real)
    requires (!priorOK || prior <= 0) && tokens > 0 && pct > 0.0
    ensures var (r, ok) := CapacityForWindow(prior, priorOK, tokens, pct);
            && ok == (pct >= LIVE_ONLY_MIN_PERCENT)
            && (ok ==> r as real * pct <= tokens as real * 100.0 < (r as real + 1.0) * pct)
            && (!ok ==> r == 0)
  {
    Scaled(tokens as real, pct);
    TruncOfQuotient(tokens as real * 100.0, pct);
  }

  /** Without a reading the prior stands. */
  lemma PriorAloneStands(prior: int, priorOK: bool, tokens: int, pct: real)
    requires tokens <= 0 || pct <= 0.0
    ensures CapacityForWindow(prior, priorOK, tokens, pct) == (prior, priorOK && prior > 0)
  {
  }

  /** 0.5 / 0.26, squared. */
  const NOISE := QUANTUM / PRIOR_CV * (QUANTUM / PRIOR_CV)

  lemma BlendIsWeighted(live: real, prior: real, pct: real)
    requires pct > 0.0
    ensures Blend(Weight(pct), live, prior) * (pct * pct + NOISE) == pct * pct * live + NOISE * prior
  {
    SquareGrows(0.0, pct);
    SquareGrows(0.0, QUANTUM / PRIOR_CV);
    var p, d := Square(pct), Square(pct) + NOISE;
    var w := Weight(pct);
    assert w == p / d;
    Divided(p, d);
    WeightedSum(w, d, p, live, prior);
  }

  lemma WeightedSum(w: real, d: real, p: real, live: real, prior: real)
    requires w * d == p
    ensures (w * live + (1.0 - w) * prior) * d == p * live + (d - p) * prior
  {
    assert w * live * d == p * live;
    assert (1.0 - w) * prior * d == (d - w * d) * prior;
  }

  /** The estimate is the inverse-variance mean of reading and prior, rounded down: weights percent squared and (0.5/0.26) squared. */
  lemma EstimateIsWeighted(prior: int, tokens: int, pct: real)
    requires prior > 0 && tokens > 0 && pct > 0.0
    ensures var r := CapacityForWindow(prior, true, tokens, pct).0 as real;
            var d := pct * pct + NOISE;
            d > 0.0 && r * d <= pct * (tokens as real * 100.0) + NOISE * prior as real < (r + 1.0) * d
  {
    var live, p, d := Live(tokens, pct), prior as real, pct * pct + NOISE;
    SquareGrows(0.0, pct);
    SquareGrows(0.0, QUANTUM / PRIOR_CV);
    assert Square(pct) == pct * pct && Square(QUANTUM / PRIOR_CV) == NOISE;
    BlendIsWeighted(live, p, pct);
    LivePart(tokens as real, pct);
    var n := pct * (tokens as real * 100.0) + NOISE * p;
    Product(pct, tokens as real * 100.0);
    Product(NOISE, p);
    var blend := Blend(Weight(pct), live, p);
    assert blend * d == n;
    Divided(n, d);
    if blend < n / d { MulBelow(d, blend, n / d); }
    if blend > n / d { MulBelow(d, n / d, blend); }
    TruncOfQuotient(n, d);
  }

  lemma LivePart(tokens: real, pct: real)
    requires pct > 0.0
    ensures pct * pct * (tokens / pct * 100.0) == pct * (tokens * 100.0)
  {
    Divided(tokens, pct);
    assert pct * (tokens / pct * 100.0) == tokens / pct * pct * 100.0;
    assert pct * pct * (tokens / pct * 100.0) == pct * (pct * (tokens / pct * 100.0));
  }

  lemma TruncTowardZero(x: real)
    ensures x >= 0.0 ==> Trunc(x) as real <= x < Trunc(x) as real + 1.0
    ensures x < 0.0 ==> x <= Trunc(x) as real < x + 1.0
  {
  }

  // ---------------------------------------------------------------- what counts as a reading

  /** A reading without a boundary, a percentage, tokens or a window is ignored. */
  lemma UnusableIsIgnored(t: Table, o: Observation, now: int)
    requires o.resetsAt <= 0 || o.pct <= 0.0 || o.tokens <= 0 || o.windowMinutes <= 0
    ensures Observe(t, o, now) == t
  {
  }

  /** Any other is kept unless its window already holds as high a percentage; other windows keep what they hold. */
  lemma UsableIsKept(t: Table, o: Observation, now: int)
    requires o.resetsAt > 0 && o.pct > 0.0 && o.tokens > 0 && o.windowMinutes > 0
    ensures var k, t' := Key(o.source, o.scope, o.windowMinutes, o.resetsAt / 60000), Observe(t, o, now);
            && k in t' && (forall x :: x != k ==> (x in t' <==> x in t) && (x in t ==> t'[x] == t[x]))
            && (if k in t && t[k].peak >= o.pct then t'[k] == t[k]
                else t'[k].peak == o.pct && t'[k].tokens == o.tokens && t'[k].updatedAt == now)
  {
  }

  /** q can be ranked: it is recent, names a boundary and reached thirty percent. */
  predicate Rankable(q: Quota, since: int, k: Key) {
    && q.observedAt >= since && q.resetsAt > 0 && q.pct >= 30.0
    && k == Key(q.source, q.scope, q.windowMinutes, q.resetsAt / 60000)
  }

  /** Each window's ranked row has its highest percentage, and is the earliest to have it. */
  lemma {:induction false} BestIsTheEarliestPeak(quotas: seq<Quota>, since: int, k: Key)
    ensures k in Best(quotas, since) ==>
      Best(quotas, since)[k] in quotas && EarliestPeak(quotas, since, k, Best(quotas, since)[k])
    ensures k !in Best(quotas, since) ==> forall q :: q in quotas ==> !Rankable(q, since, k)
  {
    if quotas != [] {
      var init, last := quotas[..|quotas| - 1], quotas[|quotas| - 1];
      BestIsTheEarliestPeak(init, since, k);
      assert quotas == init + [last];
      assert forall q :: q in quotas <==> q in init || q == last;
      assert Best(quotas, since) == Keep(Best(init, since), last, since);
      assert Rankable(last, since, k) <==> Recent(last, since) && QuotaKey(last) == k;
    }
  }

  predicate EarliestPeak(quotas: seq<Quota>, since: int, k: Key, b: Quota) {
    Rankable(b, since, k)
    && forall q :: q in quotas && Rankable(q, since, k) ==> q.pct < b.pct || (q.pct == b.pct && q.observedAt >= b.observedAt)
  }

  /** Only positive capacities are ranked, each sample's own. */
  lemma {:induction false} ImpliedAreThePositive(samples: seq<Sample>, v: int)
    ensures multiset(Implied(samples))[v] == if v > 0 then CapacitiesOf(samples, v) else 0
  {
    if samples != [] {
      var init, c := samples[..|samples| - 1], Capacity(samples[|samples| - 1]);
      ImpliedAreThePositive(init, v);
      if c > 0 {
        assert multiset(Implied(init) + [c]) == multiset(Implied(init)) + multiset{c};
      } else {
        assert Implied(samples) == Implied(init);
      }
    }
  }

  /** How many samples imply just this capacity. */
  function CapacitiesOf(samples: seq<Sample>, v: int): nat {
    if samples == [] then 0
    else CapacitiesOf(samples[..|samples| - 1], v) + if Capacity(samples[|samples| - 1]) == v then 1 else 0
  }

  // ---------------------------------------------------------------- the traffic of a window

  /** One stored event, as the token query sees it: whether its provider is a subscription channel. */
  datatype UsageEvent = UsageEvent(source: string, ts: int, tokens: int, subscription: bool)

  /** subscriptionTokens. */
  function SubscriptionTokens(events: seq<UsageEvent>, source: string, from: int, to: int): int {
    if events == [] then 0
    else
      var e := events[|events| - 1];
      SubscriptionTokens(events[..|events| - 1], source, from, to)
      + if e.source == source && from <= e.ts <= to && e.subscription then e.tokens else 0
  }

  /** A snapshot's traffic grows by one more event's tokens exactly if that is subscription traffic of its source within its window. */
  lemma TrafficIsTheWindows(q: Quota, until: int, events: seq<UsageEvent>, e: UsageEvent)
    ensures var before: Traffic := (s, a, b) => SubscriptionTokens(events, s, a, b);
            var after: Traffic := (s, a, b) => SubscriptionTokens(events + [e], s, a, b);
            TrafficOf(q, until, after) - TrafficOf(q, until, before) ==
              if e.subscription && e.source == q.source && q.resetsAt - q.windowMinutes * 60000 <= e.ts && e.ts <= until then e.tokens else 0
  {
    assert (events + [e])[..|events|] == events;
  }
}
