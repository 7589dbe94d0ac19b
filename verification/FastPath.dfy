/**
 insertEventsFromTx over a whole batch, with and without its one pre-load, and exactly when skipping
 probes on the pre-loaded rows changes nothing (internal/store/store.go:459-462, 660-800).
 */
module FastPaths {
  import opened Ingest
  import opened EventRows
  import opened EventStore

  lemma UngatedIsMerged(r: Row, e: Event, origin: Origin)
    ensures GatedMerged(r, None, e, origin) == Merged(r, e, origin)
  {
  }

  function Lookup(prior: map<string, Row>, id: string): Option<Row> {
    if id in prior then Some(prior[id]) else None
  }

  /** insertEventsFromTx as it runs: one pre-load, then the gated body per event. */
  function ApplyAll(t: Table, prior: map<string, Row>, events: seq<Event>, origin: Origin): (s: Step)
    requires Indexed(t)
    ensures Indexed(s.table)
  {
    if events == [] then Step(t, NOTHING)
    else
      var init := ApplyAll(t, prior, events[..|events| - 1], origin);
      var e := events[|events| - 1];
      ApplyIndexed(init.table, Lookup(prior, e.id), e, origin);
      var s := Apply(init.table, Lookup(prior, e.id), e, origin);
      Step(s.table, Plus(init.tally, s.tally))
  }

  lemma ApplyAllSnoc(t: Table, prior: map<string, Row>, events: seq<Event>, e: Event, origin: Origin)
    requires Indexed(t)
    ensures var init := ApplyAll(t, prior, events, origin);
            var s := Apply(init.table, Lookup(prior, e.id), e, origin);
            ApplyAll(t, prior, events + [e], origin) == Step(s.table, Plus(init.tally, s.tally))
  {
    assert (events + [e])[..|events|] == events;
  }

  function Batch(t: Table, events: seq<Event>, origin: Origin): (s: Step)
    requires Indexed(t)
    ensures Indexed(s.table)
  {
    ApplyAll(t, t.rows, events, origin)
  }

  /** The simple form: every probe of every event run against the current row. */
  function ObserveAll(t: Table, events: seq<Event>, origin: Origin): (s: Step)
    requires Indexed(t)
    ensures Indexed(s.table)
  {
    ApplyAll(t, map[], events, origin)
  }

  lemma ObserveAllSnoc(t: Table, events: seq<Event>, e: Event, origin: Origin, init: Step, s: Step)
    requires Indexed(t) && Indexed(init.table)
    requires ObserveAll(t, events, origin) == init && Observe(init.table, e, origin) == s
    ensures ObserveAll(t, events + [e], origin) == Step(s.table, Plus(init.tally, s.tally))
  {
    var none: map<string, Row> := map[];
    assert Lookup(none, e.id) == None;
    ApplyAllSnoc(t, none, events, e, origin);
  }

  // ---------------------------------------------------------------- one row

  /** Which guarded updates a row calls for: each SQL guard on the stored row, each gate on the pre-loaded one. */
  datatype Probes = Probes(key: bool, provider: bool, device: bool, numbers: bool, text: bool, source: bool, duration: bool)

  function Needs(r: Row, e: Event, origin: Origin): Probes {
    Probes(
      e.dedupKey != "" && r.dedupKey == "",
      !e.provider.NoLabel? && Rank(e.provider) > Rank(r.provider),
      Reattributes(r, e, origin),
      (r.genMS == 0 && e.genMS > 0) || (r.ttftMS == 0 && e.ttftMS > 0),
      TextFillNeeded(r.context, e.context),
      FromLog(e) && r.source.Proxy?,
      FromLog(e) && e.durationMS > 0 && r.durationMS == 0)
  }

  /** Whatever the first calls for, the second does. */
  predicate Within(a: Probes, b: Probes) {
    && (a.key ==> b.key) && (a.provider ==> b.provider) && (a.device ==> b.device) && (a.numbers ==> b.numbers)
    && (a.text ==> b.text) && (a.source ==> b.source) && (a.duration ==> b.duration)
  }

  lemma FillsIff(r: Context, seen: Context)
    ensures FillContext(r, seen) == r <==> !TextFillNeeded(r, seen)
  {
  }

  /** Gating on p leaves out an update of r exactly when r calls for one that p does not. */
  lemma GatedIff(p: Row, r: Row, e: Event, origin: Origin)
    ensures GatedMerged(r, Some(p), e, origin) == Merged(r, e, origin)
      <==> Within(Needs(r, e, origin).(key := false), Needs(p, e, origin))
  {
    FillsIff(r.context, e.context);
    FillsIff(p.context, e.context);
  }

  lemma MergeAgreesIff(t: Table, p: Row, e: Event, origin: Origin)
    requires e.id in t.rows
    ensures MergeInto(t, Some(p), e, origin) == MergeInto(t, None, e, origin)
      <==> Within(Needs(t.rows[e.id], e, origin), Needs(p, e, origin))
  {
    var r := t.rows[e.id];
    UngatedIsMerged(r, e, origin);
    GatedIff(p, r, e, origin);
    MergedRows(t, p, e, origin);
  }

  lemma MergedRows(t: Table, p: Row, e: Event, origin: Origin)
    requires e.id in t.rows
    ensures var r, fast, plain := t.rows[e.id], MergeInto(t, Some(p), e, origin), MergeInto(t, None, e, origin);
            (fast == plain <==>
              && GatedMerged(r, Some(p), e, origin) == GatedMerged(r, None, e, origin)
              && (Needs(r, e, origin).key ==> Needs(p, e, origin).key))
  {
    var r, fast, plain := t.rows[e.id], MergeInto(t, Some(p), e, origin), MergeInto(t, None, e, origin);
    assert fast.table.rows[e.id].dedupKey == plain.table.rows[e.id].dedupKey <==>
      (Needs(r, e, origin).key ==> Needs(p, e, origin).key);
    assert fast.table.rows[e.id].(dedupKey := r.dedupKey) == GatedMerged(r, Some(p), e, origin);
    assert plain.table.rows[e.id].(dedupKey := r.dedupKey) == GatedMerged(r, None, e, origin);
  }

  /** A later state of a row calls for no more than the earlier one did. */
  lemma GrownNeedsLess(p: Row, r: Row, e: Event, origin: Origin)
    requires Grown(p, r)
    ensures Within(Needs(r, e, origin), Needs(p, e, origin))
  {
  }

  // ---------------------------------------------------------------- one event

  predicate OwnerIsEarlier(t: Table, e: Event)
    requires Contested(t, e) && t.owner[e.dedupKey] in t.rows
  {
    var o := t.owner[e.dedupKey];
    Earlier(t.rows[o].ts, o, e.ts, e.id)
  }

  /** The guard: what the pre-loaded row of e must leave to the probes, given the table as the event finds it. */
  predicate SkipsAreSound(t: Table, known: Option<Row>, e: Event, origin: Origin)
    requires Indexed(t)
  {
    if known.None? || e.id == "" then true
    else
      var p := known.value;
      if e.id !in t.rows then Contested(t, e) && (p.dedupKey == e.dedupKey ==> OwnerIsEarlier(t, e))
      else if Contested(t, e) && p.dedupKey == e.dedupKey then false
      else (Contested(t, e) && OwnerIsEarlier(t, e)) || Within(Needs(t.rows[e.id], e, origin), Needs(p, e, origin))
  }

  lemma AbsentAgreesIff(t: Table, p: Row, e: Event, origin: Origin)
    requires Indexed(t) && e.id != "" && e.id !in t.rows
    ensures Apply(t, Some(p), e, origin) == Observe(t, e, origin) <==> SkipsAreSound(t, Some(p), e, origin)
  {
  }

  lemma OwnedElsewhereDiffers(t: Table, p: Row, e: Event, origin: Origin)
    requires Indexed(t) && e.id != "" && e.id in t.rows && Contested(t, e) && p.dedupKey == e.dedupKey
    ensures Apply(t, Some(p), e, origin) != Observe(t, e, origin)
  {
    var o := t.owner[e.dedupKey];
    assert o in Apply(t, Some(p), e, origin).table.rows && e.id in Apply(t, Some(p), e, origin).table.rows;
    assert o !in Observe(t, e, origin).table.rows || e.id !in Observe(t, e, origin).table.rows;
  }

  lemma ContestAgreesIff(t: Table, p: Row, e: Event, origin: Origin)
    requires Indexed(t) && e.id != "" && e.id in t.rows && Contested(t, e) && p.dedupKey != e.dedupKey
    ensures Apply(t, Some(p), e, origin) == Observe(t, e, origin) <==> SkipsAreSound(t, Some(p), e, origin)
  {
    var t1 := Dropped(t, t.owner[e.dedupKey]);
    assert t1.rows[e.id] == t.rows[e.id];
    MergeAgreesIff(t1, p, e, origin);
  }

  /** One event is handled alike with and without the pre-loaded row exactly when the guard holds. */
  lemma StepAgreesIff(t: Table, known: Option<Row>, e: Event, origin: Origin)
    requires Indexed(t)
    ensures Apply(t, known, e, origin) == Observe(t, e, origin) <==> SkipsAreSound(t, known, e, origin)
  {
    if known.Some? && e.id != "" {
      var p := known.value;
      if e.id !in t.rows {
        AbsentAgreesIff(t, p, e, origin);
      } else if !Contested(t, e) {
        MergeAgreesIff(t, p, e, origin);
      } else if p.dedupKey == e.dedupKey {
        OwnedElsewhereDiffers(t, p, e, origin);
      } else {
        ContestAgreesIff(t, p, e, origin);
      }
    }
  }

  // ---------------------------------------------------------------- whole batches

  ghost predicate StepIsSoundAt(t: Table, events: seq<Event>, origin: Origin, i: nat)
    requires Indexed(t) && i < |events|
  {
    SkipsAreSound(ObserveAll(t, events[..i], origin).table, Lookup(t.rows, events[i].id), events[i], origin)
  }

  ghost predicate PrefixAgrees(t: Table, events: seq<Event>, origin: Origin, n: nat)
    requires Indexed(t) && n <= |events|
  {
    Batch(t, events[..n], origin) == ObserveAll(t, events[..n], origin)
  }

  lemma SameTally(a: Tally, x: Step, y: Step)
    ensures Step(x.table, Plus(a, x.tally)) == Step(y.table, Plus(a, y.tally)) <==> x == y
  {
  }

  lemma PrefixStep(t: Table, events: seq<Event>, origin: Origin, n: nat)
    requires Indexed(t) && n < |events| && PrefixAgrees(t, events, origin, n)
    ensures PrefixAgrees(t, events, origin, n + 1) <==> StepIsSoundAt(t, events, origin, n)
  {
    var mid, e := ObserveAll(t, events[..n], origin), events[n];
    assert events[..n + 1] == events[..n] + [e];
    ApplyAllSnoc(t, t.rows, events[..n], e, origin);
    ObserveAllSnoc(t, events[..n], e, origin, mid, Observe(mid.table, e, origin));
    SameTally(mid.tally, Apply(mid.table, Lookup(t.rows, e.id), e, origin), Observe(mid.table, e, origin));
    StepAgreesIff(mid.table, Lookup(t.rows, e.id), e, origin);
  }

  lemma {:induction false} SoundPrefixesAgree(t: Table, events: seq<Event>, origin: Origin, n: nat)
    requires Indexed(t) && n <= |events| && forall i :: 0 <= i < n ==> StepIsSoundAt(t, events, origin, i)
    ensures PrefixAgrees(t, events, origin, n)
  {
    if n > 0 {
      SoundPrefixesAgree(t, events, origin, n - 1);
      PrefixStep(t, events, origin, n - 1);
    }
  }

  /**
   The fast path does what the plain statements do after every event of a batch exactly when the guard holds
   at every event, on the table as the plain statements leave it; and then the whole batch agrees.
   */
  lemma FastPathExactlyWhen(t: Table, events: seq<Event>, origin: Origin)
    requires Indexed(t)
    ensures (forall n :: 0 <= n <= |events| ==> PrefixAgrees(t, events, origin, n))
      <==> (forall i :: 0 <= i < |events| ==> StepIsSoundAt(t, events, origin, i))
    ensures (forall i :: 0 <= i < |events| ==> StepIsSoundAt(t, events, origin, i))
      ==> Batch(t, events, origin) == ObserveAll(t, events, origin)
  {
    if forall i :: 0 <= i < |events| ==> StepIsSoundAt(t, events, origin, i) {
      forall n | 0 <= n <= |events| ensures PrefixAgrees(t, events, origin, n) {
        SoundPrefixesAgree(t, events, origin, n);
      }
      assert events[..|events|] == events && PrefixAgrees(t, events, origin, |events|);
    }
    if forall n :: 0 <= n <= |events| ==> PrefixAgrees(t, events, origin, n) {
      forall i | 0 <= i < |events| ensures StepIsSoundAt(t, events, origin, i) {
        assert PrefixAgrees(t, events, origin, i) && PrefixAgrees(t, events, origin, i + 1);
        PrefixStep(t, events, origin, i);
      }
    }
  }

  // ---------------------------------------------------------------- keyless batches

  ghost predicate RowsKept(t: Table, t': Table) {
    forall id :: id in t.rows ==> id in t'.rows && Grown(t.rows[id], t'.rows[id])
  }

  lemma KeylessObserve(t: Table, e: Event, origin: Origin)
    requires Indexed(t) && e.dedupKey == ""
    ensures var t' := Observe(t, e, origin).table;
            && t.rows.Keys <= t'.rows.Keys
            && forall id :: id in t.rows ==>
                 t'.rows[id] == if id == e.id && id != "" then Merged(t.rows[id], e, origin) else t.rows[id]
  {
    if e.id in t.rows { UngatedIsMerged(t.rows[e.id], e, origin); }
  }

  lemma KeylessStepKeeps(t0: Table, t: Table, e: Event, origin: Origin)
    requires Indexed(t) && RowsKept(t0, t) && e.dedupKey == ""
    ensures RowsKept(t0, Observe(t, e, origin).table)
  {
    KeylessObserve(t, e, origin);
    if e.id in t0.rows {
      MergedGrows(t.rows[e.id], e, origin);
      GrownTransitive(t0.rows[e.id], t.rows[e.id], Merged(t.rows[e.id], e, origin));
    }
  }

  lemma {:induction false} KeylessKeeps(t: Table, events: seq<Event>, origin: Origin)
    requires Indexed(t) && forall e :: e in events ==> e.dedupKey == ""
    ensures RowsKept(t, ObserveAll(t, events, origin).table)
  {
    if events != [] {
      var n := |events| - 1;
      KeylessKeeps(t, events[..n], origin);
      KeylessStepKeeps(t, ObserveAll(t, events[..n], origin).table, events[n], origin);
    }
  }

  /** Events without dedup keys - every log but the forking ones - need no assumption: whatever their ids and times. */
  lemma KeylessFastPath(t: Table, events: seq<Event>, origin: Origin)
    requires Indexed(t) && forall e :: e in events ==> e.dedupKey == ""
    ensures Batch(t, events, origin) == ObserveAll(t, events, origin)
    ensures RowsKept(t, Batch(t, events, origin).table)
  {
    forall i | 0 <= i < |events| ensures StepIsSoundAt(t, events, origin, i) {
      var mid, e := ObserveAll(t, events[..i], origin).table, events[i];
      KeylessKeeps(t, events[..i], origin);
      if e.id in t.rows {
        GrownNeedsLess(t.rows[e.id], mid.rows[e.id], e, origin);
      }
    }
    FastPathExactlyWhen(t, events, origin);
    KeylessKeeps(t, events, origin);
  }

  // ---------------------------------------------------------------- a batch the skips do change

  /** The original supersedes the stored copy c, which is then re-sent without its key. */
  lemma BareCopy(e: Event, c: Event, t1: Table, origin: Origin)
    requires e.id != "" && c.id != "" && e.id != c.id && e.dedupKey == c.dedupKey != "" && e.ts < c.ts
    requires t1 == Inserted(Table(map[], map[]), e, origin)
    ensures var bare := c.(dedupKey := "");
            && Indexed(t1)
            && c.id !in Apply(t1, Some(RowOf(c, origin)), bare, origin).table.rows
            && c.id in Apply(t1, None, bare, origin).table.rows
  {
  }

  lemma OriginalReplacesCopy(e: Event, c: Event, origin: Origin)
    requires e.id != "" && c.id != "" && e.id != c.id && e.dedupKey == c.dedupKey != "" && e.ts < c.ts
    ensures var t := Inserted(Table(map[], map[]), c, origin);
            Indexed(t) && Apply(t, None, e, origin).table == Inserted(Table(map[], map[]), e, origin)
  {
    var t := Inserted(Table(map[], map[]), c, origin);
    assert t.rows == map[c.id := RowOf(c, origin)] && t.owner == map[c.dedupKey := c.id];
    assert Dropped(t, c.id) == Table(map[], map[]);
  }

  lemma TwoEvents(t: Table, prior: map<string, Row>, e: Event, f: Event, origin: Origin)
    requires Indexed(t)
    ensures var t1 := Apply(t, Lookup(prior, e.id), e, origin).table;
            && Indexed(t1)
            && ApplyAll(t, prior, [e, f], origin).table == Apply(t1, Lookup(prior, f.id), f, origin).table
  {
    ApplyIndexed(t, Lookup(prior, e.id), e, origin);
    assert [] + [e] == [e] && [e] + [f] == [e, f];
    ApplyAllSnoc(t, prior, [], e, origin);
    ApplyAllSnoc(t, prior, [e], f, origin);
  }

  /**
   The contract is needed: when a stored copy is re-sent without its dedup key in the batch that also
   carries the original, the two forms disagree (the plain statements would count the generation twice).
   */
  lemma FastPathNeedsStableKeys(e: Event, c: Event, origin: Origin)
    requires e.id != "" && c.id != "" && e.id != c.id && e.dedupKey == c.dedupKey != "" && e.ts < c.ts
    ensures var t := Inserted(Table(map[], map[]), c, origin);
            var bare := c.(dedupKey := "");
            && Indexed(t)
            && c.id !in Batch(t, [e, bare], origin).table.rows
            && c.id in ObserveAll(t, [e, bare], origin).table.rows
  {
    var t := Inserted(Table(map[], map[]), c, origin);
    OriginalReplacesCopy(e, c, origin);
    TwoEvents(t, t.rows, e, c.(dedupKey := ""), origin);
    TwoEvents(t, map[], e, c.(dedupKey := ""), origin);
    BareCopy(e, c, Inserted(Table(map[], map[]), e, origin), origin);
  }
}
