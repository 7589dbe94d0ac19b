/**
 What any history of batches does to the event table: the fast path refines the plain statements wherever
 ids name generations, stored rows never lose or change a count, replays are no-ops, and the surviving rows do not depend
 on arrival order (internal/store/store.go, insertEventsFromTx).
 */
module EventHistory {
  import opened Ingest
  import opened EventRows
  import opened EventStore
  import opened FastPaths
  import opened TextOrder

  /** Which generation each id names, and the instant of a keyed one; a keyless id may be seen at any instants. */
  datatype Identity = Identity(ts: string -> int, key: string -> string)

  predicate TimeIs(idy: Identity, id: string, ts: int) {
    idy.key(id) != "" ==> ts == idy.ts(id)
  }

  predicate Faithful(idy: Identity, e: Event) {
    e.id != "" ==> e.dedupKey == idy.key(e.id) && TimeIs(idy, e.id, e.ts)
  }

  predicate AllFaithful(idy: Identity, events: seq<Event>) {
    forall e :: e in events ==> Faithful(idy, e)
  }

  /** Stored rows agree with the identity; a row written before dedup keys existed may carry none. */
  ghost predicate Agrees(idy: Identity, t: Table) {
    forall id :: id in t.rows ==>
      TimeIs(idy, id, t.rows[id].ts) && (t.rows[id].dedupKey == "" || t.rows[id].dedupKey == idy.key(id))
  }

  predicate Before(idy: Identity, a: string, b: string) {
    Earlier(idy.ts(a), a, idy.ts(b), b)
  }

  /** id's generation is held by an earlier copy. */
  ghost predicate Superseded(idy: Identity, t: Table, id: string) {
    idy.key(id) != "" && idy.key(id) in t.owner && Before(idy, t.owner[idy.key(id)], id)
  }

  /** Nothing already stored is lost or recounted, and nothing superseded comes back. */
  ghost predicate Advances(idy: Identity, t: Table, t': Table) {
    && (forall id :: id in t.rows ==>
         if id in t'.rows then Grown(t.rows[id], t'.rows[id]) else Superseded(idy, t', id))
    && (forall id :: id !in t.rows && Superseded(idy, t, id) ==> id !in t'.rows && Superseded(idy, t', id))
  }

  // ---------------------------------------------------------------- the order on copies

  lemma BeforeTransitive(idy: Identity, a: string, b: string, c: string)
    requires Before(idy, a, b) && Before(idy, b, c)
    ensures Before(idy, a, c)
  {
    if idy.ts(a) == idy.ts(b) == idy.ts(c) { BelowTransitive(a, b, c); }
  }

  lemma BeforeTotal(idy: Identity, a: string, b: string)
    requires a != b
    ensures Before(idy, a, b) != Before(idy, b, a)
  {
    BelowTotal(a, b);
    if Below(a, b) { BelowAsymmetric(a, b); } else { BelowAsymmetric(b, a); }
  }

  // ---------------------------------------------------------------- one observation

  lemma InsertAgrees(idy: Identity, t: Table, e: Event, origin: Origin)
    requires Agrees(idy, t) && Faithful(idy, e) && e.id != "" && !Refused(t, e)
    ensures Agrees(idy, Inserted(t, e, origin))
  {
  }

  lemma InsertAdvances(idy: Identity, t: Table, e: Event, origin: Origin)
    requires Faithful(idy, e) && e.id != "" && !Refused(t, e)
    ensures Advances(idy, t, Inserted(t, e, origin))
  {
    forall id | id in t.rows ensures Grown(t.rows[id], Inserted(t, e, origin).rows[id]) {
      GrownSame(t.rows[id]);
    }
  }

  /** What merging an observation into its row does to the table. */
  ghost predicate MergedOnto(t: Table, t': Table, e: Event) {
    && e.id in t.rows && t'.rows.Keys == t.rows.Keys && Grown(t.rows[e.id], t'.rows[e.id])
    && (t'.rows[e.id].dedupKey == t.rows[e.id].dedupKey || t'.rows[e.id].dedupKey == e.dedupKey)
    && (forall id :: id in t.rows && id != e.id ==> t'.rows[id] == t.rows[id])
    && (t'.owner == t.owner || (e.dedupKey !in t.owner && t'.owner == t.owner[e.dedupKey := e.id]))
  }

  lemma MergeOutcome(idy: Identity, t: Table, e: Event, origin: Origin)
    requires Indexed(t) && Agrees(idy, t) && Faithful(idy, e) && e.id in t.rows && e.id != "" && !Contested(t, e)
    ensures MergedOnto(t, MergeInto(t, None, e, origin).table, e)
  {
    UngatedIsMerged(t.rows[e.id], e, origin);
    MergedGrows(t.rows[e.id], e, origin);
  }

  lemma MergedAgrees(idy: Identity, t: Table, t': Table, e: Event)
    requires Agrees(idy, t) && Faithful(idy, e) && e.id != "" && MergedOnto(t, t', e)
    ensures Agrees(idy, t')
  {
  }

  lemma MergedAdvances(idy: Identity, t: Table, t': Table, e: Event)
    requires Faithful(idy, e) && e.id != "" && MergedOnto(t, t', e)
    ensures Advances(idy, t, t')
  {
    forall id | id in t.rows ensures Grown(t.rows[id], t'.rows[id]) {
      if id != e.id { GrownSame(t.rows[id]); }
    }
  }

  lemma AdvancesMerge(idy: Identity, t: Table, e: Event, origin: Origin)
    requires Indexed(t) && Agrees(idy, t) && Faithful(idy, e) && e.id in t.rows && e.id != "" && !Contested(t, e)
    ensures var t' := MergeInto(t, None, e, origin).table; Agrees(idy, t') && Advances(idy, t, t')
  {
    var t' := MergeInto(t, None, e, origin).table;
    MergeOutcome(idy, t, e, origin);
    MergedAgrees(idy, t, t', e);
    MergedAdvances(idy, t, t', e);
  }

  /** e is the later copy: any row an earlier scan wrote for it goes. */
  lemma AdvancesDropCopy(idy: Identity, t: Table, e: Event)
    requires Indexed(t) && Agrees(idy, t) && Faithful(idy, e) && e.id != "" && Contested(t, e)
    requires Before(idy, t.owner[e.dedupKey], e.id)
    ensures var t' := Dropped(t, e.id); Agrees(idy, t') && Advances(idy, t, t')
  {
  }

  /** What taking over a generation does to the table: the stored copy o goes and e is stored under its key. */
  ghost predicate TookOver(t: Table, t': Table, e: Event, o: string) {
    && e.id in t'.rows && t'.rows[e.id].dedupKey == e.dedupKey && t'.rows[e.id].ts == e.ts
    && t'.owner == t.owner[e.dedupKey := e.id]
    && t'.rows.Keys == t.rows.Keys - {o} + {e.id}
    && (forall id :: id in t'.rows && id != e.id ==> t'.rows[id] == t.rows[id])
    && (e.id in t.rows ==> Grown(t.rows[e.id], t'.rows[e.id]))
  }

  lemma DroppedOwner(t: Table, e: Event)
    requires Indexed(t) && Contested(t, e)
    ensures var o := t.owner[e.dedupKey];
            Dropped(t, o) == Table(t.rows - {o}, t.owner - {e.dedupKey}) && o != e.id
  {
  }

  lemma NewTakesOver(t: Table, e: Event, origin: Origin)
    requires Indexed(t) && e.id !in t.rows && Contested(t, e)
    ensures var t1 := Dropped(t, t.owner[e.dedupKey]);
            !Refused(t1, e) && TookOver(t, Inserted(t1, e, origin), e, t.owner[e.dedupKey])
  {
    DroppedOwner(t, e);
  }

  lemma KnownTakesOver(idy: Identity, t: Table, e: Event, origin: Origin)
    requires Indexed(t) && Agrees(idy, t) && Faithful(idy, e) && e.id in t.rows && e.id != "" && Contested(t, e)
    ensures var t1 := Dropped(t, t.owner[e.dedupKey]);
            Refused(t1, e) && TookOver(t, MergeInto(t1, None, e, origin).table, e, t.owner[e.dedupKey])
  {
    DroppedOwner(t, e);
    UngatedIsMerged(t.rows[e.id], e, origin);
    MergedGrows(t.rows[e.id], e, origin);
  }

  /** e is the original: the stored copy goes and e takes its generation. */
  lemma OriginalTakesOver(idy: Identity, t: Table, e: Event, origin: Origin)
    requires Indexed(t) && Agrees(idy, t) && Faithful(idy, e) && e.id != "" && Contested(t, e)
    requires Before(idy, e.id, t.owner[e.dedupKey])
    ensures var t' := Contest(t, None, e, origin).table;
            TookOver(t, t', e, t.owner[e.dedupKey]) && (e.id !in t.rows ==> t'.rows[e.id] == RowOf(e, origin))
  {
    BeforeTotal(idy, e.id, t.owner[e.dedupKey]);
    if e.id in t.rows {
      KnownTakesOver(idy, t, e, origin);
    } else {
      NewTakesOver(t, e, origin);
    }
  }

  lemma TakeOverAgrees(idy: Identity, t: Table, t': Table, e: Event, o: string)
    requires Agrees(idy, t) && Faithful(idy, e) && e.id != "" && TookOver(t, t', e, o)
    ensures Agrees(idy, t')
  {
  }

  lemma TakeOverKeepsRows(idy: Identity, t: Table, t': Table, e: Event, o: string)
    requires Faithful(idy, e) && e.id != "" && TookOver(t, t', e, o) && e.dedupKey != ""
    requires Before(idy, e.id, o) && o in t.rows && idy.key(o) == e.dedupKey
    ensures forall id :: id in t.rows ==>
              if id in t'.rows then Grown(t.rows[id], t'.rows[id]) else Superseded(idy, t', id)
  {
    forall id | id in t.rows
      ensures if id in t'.rows then Grown(t.rows[id], t'.rows[id]) else Superseded(idy, t', id)
    {
      if id in t'.rows && id != e.id { GrownSame(t.rows[id]); }
    }
  }

  lemma GrownSame(r: Row)
    ensures Grown(r, r)
  {
  }

  lemma TakeOverKeepsSuperseded(idy: Identity, t: Table, t': Table, e: Event, o: string, id: string)
    requires Faithful(idy, e) && e.id != "" && TookOver(t, t', e, o)
    requires e.dedupKey in t.owner && t.owner[e.dedupKey] == o && o in t.rows && Before(idy, e.id, o)
    requires id !in t.rows && Superseded(idy, t, id)
    ensures id !in t'.rows && Superseded(idy, t', id)
  {
    if idy.key(id) == e.dedupKey {
      BeforeTransitive(idy, e.id, o, id);
      BeforeTotal(idy, o, id);
    }
  }

  lemma AdvancesTakeOver(idy: Identity, t: Table, e: Event, origin: Origin)
    requires Indexed(t) && Agrees(idy, t) && Faithful(idy, e) && e.id != "" && Contested(t, e)
    requires Before(idy, e.id, t.owner[e.dedupKey])
    ensures var t' := Contest(t, None, e, origin).table; Agrees(idy, t') && Advances(idy, t, t')
  {
    var t' := Contest(t, None, e, origin).table;
    var o := t.owner[e.dedupKey];
    OriginalTakesOver(idy, t, e, origin);
    assert o in t.rows && t.rows[o].dedupKey == e.dedupKey;
    TakeOverAgrees(idy, t, t', e, o);
    TakeOverKeepsRows(idy, t, t', e, o);
    forall id | id !in t.rows && Superseded(idy, t, id)
      ensures id !in t'.rows && Superseded(idy, t', id)
    {
      TakeOverKeepsSuperseded(idy, t, t', e, o, id);
    }
  }

  /** One observation keeps the table consistent and never loses, recounts or resurrects a row. */
  lemma ObserveAdvances(idy: Identity, t: Table, e: Event, origin: Origin)
    requires Indexed(t) && Agrees(idy, t) && Faithful(idy, e)
    ensures var t' := Observe(t, e, origin).table; Indexed(t') && Agrees(idy, t') && Advances(idy, t, t')
  {
    ApplyIndexed(t, None, e, origin);
    if e.id == "" {
      AdvancesReflexive(idy, t);
    } else if !Refused(t, e) {
      InsertAgrees(idy, t, e, origin);
      InsertAdvances(idy, t, e, origin);
    } else if Contested(t, e) {
      BeforeTotal(idy, e.id, t.owner[e.dedupKey]);
      if Before(idy, t.owner[e.dedupKey], e.id) {
        AdvancesDropCopy(idy, t, e);
      } else {
        AdvancesTakeOver(idy, t, e, origin);
      }
    } else {
      AdvancesMerge(idy, t, e, origin);
    }
  }

  lemma AdvancesReflexive(idy: Identity, t: Table)
    ensures Advances(idy, t, t)
  {
  }

  lemma AdvancesTransitive(idy: Identity, a: Table, b: Table, c: Table)
    requires Advances(idy, a, b) && Advances(idy, b, c)
    ensures Advances(idy, a, c)
  {
    forall id | id in a.rows
      ensures if id in c.rows then Grown(a.rows[id], c.rows[id]) else Superseded(idy, c, id)
    {
      if id in b.rows && id in c.rows {
        GrownTransitive(a.rows[id], b.rows[id], c.rows[id]);
      }
    }
  }

  // ---------------------------------------------------------------- batches

  /** A known id whose row is gone was superseded, and the plain statements refuse it too. */
  lemma SupersededIsRefused(idy: Identity, t: Table, e: Event, origin: Origin)
    requires Indexed(t) && Agrees(idy, t) && Faithful(idy, e) && e.id != "" && e.id !in t.rows
    requires Superseded(idy, t, e.id)
    ensures Contested(t, e) && OwnerIsEarlier(t, e)
    ensures Observe(t, e, origin) == Step(t, NOTHING)
  {
    BeforeTotal(idy, t.owner[e.dedupKey], e.id);
  }

  /** A pre-loaded row has only grown since, or was superseded: either way the guard holds. */
  lemma StepIsSound(idy: Identity, t0: Table, t: Table, e: Event, origin: Origin)
    requires Indexed(t) && Agrees(idy, t) && Advances(idy, t0, t) && Faithful(idy, e)
    ensures SkipsAreSound(t, Lookup(t0.rows, e.id), e, origin)
  {
    if e.id != "" && e.id in t0.rows {
      if e.id !in t.rows {
        SupersededIsRefused(idy, t, e, origin);
      } else {
        GrownNeedsLess(t0.rows[e.id], t.rows[e.id], e, origin);
      }
    }
  }

  lemma {:induction false} ObserveAllAdvances(idy: Identity, t: Table, events: seq<Event>, origin: Origin)
    requires Indexed(t) && Agrees(idy, t) && AllFaithful(idy, events)
    ensures var t' := ObserveAll(t, events, origin).table; Agrees(idy, t') && Advances(idy, t, t')
  {
    if events == [] {
      AdvancesReflexive(idy, t);
    } else {
      var n := |events| - 1;
      ObserveAllAdvances(idy, t, events[..n], origin);
      var mid := ObserveAll(t, events[..n], origin).table;
      ObserveAdvances(idy, mid, events[n], origin);
      AdvancesTransitive(idy, t, mid, Observe(mid, events[n], origin).table);
    }
  }

  /** Skipping probes on pre-loaded evidence changes neither the table nor a single counter. */
  lemma FastPathRefinesPlain(idy: Identity, t: Table, events: seq<Event>, origin: Origin)
    requires Indexed(t) && Agrees(idy, t) && AllFaithful(idy, events)
    ensures Batch(t, events, origin) == ObserveAll(t, events, origin)
    ensures var t' := Batch(t, events, origin).table; Agrees(idy, t') && Advances(idy, t, t')
  {
    forall i | 0 <= i < |events| ensures StepIsSoundAt(t, events, origin, i) {
      ObserveAllAdvances(idy, t, events[..i], origin);
      StepIsSound(idy, t, ObserveAll(t, events[..i], origin).table, events[i], origin);
    }
    FastPathExactlyWhen(t, events, origin);
    ObserveAllAdvances(idy, t, events, origin);
  }

  // ---------------------------------------------------------------- replay

  /** e has nothing left to contribute to t. */
  ghost predicate Absorbed(idy: Identity, t: Table, e: Event, origin: Origin) {
    || e.id == ""
    || (e.id in t.rows && t.rows[e.id].dedupKey == e.dedupKey && Merged(t.rows[e.id], e, origin) == t.rows[e.id])
    || (e.id !in t.rows && Superseded(idy, t, e.id))
  }

  lemma AbsorbedIsNoOp(idy: Identity, t: Table, e: Event, origin: Origin)
    requires Indexed(t) && Agrees(idy, t) && Faithful(idy, e) && Absorbed(idy, t, e, origin)
    ensures Observe(t, e, origin) == Step(t, NOTHING)
  {
    if e.id != "" {
      if e.id in t.rows {
        UngatedIsMerged(t.rows[e.id], e, origin);
        assert t.rows[e.id := t.rows[e.id]] == t.rows;
      } else {
        SupersededIsRefused(idy, t, e, origin);
      }
    }
  }

  lemma ObserveAbsorbs(idy: Identity, t: Table, e: Event, origin: Origin)
    requires Indexed(t) && Agrees(idy, t) && Faithful(idy, e)
    ensures Absorbed(idy, Observe(t, e, origin).table, e, origin)
  {
    if e.id != "" {
      if e.id in t.rows {
        UngatedIsMerged(t.rows[e.id], e, origin);
        MergedTwice(t.rows[e.id], e, origin);
      }
      if !Refused(t, e) {
        assert Merged(RowOf(e, origin), e, origin) == RowOf(e, origin);
      } else if Contested(t, e) {
        BeforeTotal(idy, e.id, t.owner[e.dedupKey]);
        if Before(idy, e.id, t.owner[e.dedupKey]) {
          TakeOverAbsorbs(idy, t, e, origin);
        }
      }
    }
  }

  lemma TakeOverAbsorbs(idy: Identity, t: Table, e: Event, origin: Origin)
    requires Indexed(t) && Agrees(idy, t) && Faithful(idy, e) && e.id != "" && Contested(t, e)
    requires Before(idy, e.id, t.owner[e.dedupKey])
    ensures Absorbed(idy, Contest(t, None, e, origin).table, e, origin)
  {
    OriginalTakesOver(idy, t, e, origin);
    var t1 := Dropped(t, t.owner[e.dedupKey]);
    BeforeTotal(idy, e.id, t.owner[e.dedupKey]);
    if e.id in t.rows {
      assert t1.rows[e.id] == t.rows[e.id];
      UngatedIsMerged(t.rows[e.id], e, origin);
      MergedTwice(t.rows[e.id], e, origin);
    }
  }

  /** A row other than the observed one is either untouched or was dropped. */
  lemma OtherRowsUntouched(idy: Identity, t: Table, f: Event, origin: Origin, id: string)
    requires Indexed(t) && Agrees(idy, t) && Faithful(idy, f) && id in t.rows && id != f.id
    ensures var t' := Observe(t, f, origin).table; id in t'.rows ==> t'.rows[id] == t.rows[id]
  {
  }

  lemma SameRowMerged(idy: Identity, t: Table, f: Event, origin: Origin)
    requires Indexed(t) && Agrees(idy, t) && Faithful(idy, f) && f.id in t.rows && f.id != ""
    requires t.rows[f.id].dedupKey == f.dedupKey
    ensures var t' := Observe(t, f, origin).table;
            f.id in t'.rows && t'.rows[f.id] == Merged(t.rows[f.id], f, origin)
  {
    UngatedIsMerged(t.rows[f.id], f, origin);
  }

  lemma AbsorbedStays(idy: Identity, t: Table, e: Event, oe: Origin, f: Event, of: Origin)
    requires Indexed(t) && Agrees(idy, t) && Faithful(idy, e) && Faithful(idy, f) && Absorbed(idy, t, e, oe)
    ensures Absorbed(idy, Observe(t, f, of).table, e, oe)
  {
    ObserveAdvances(idy, t, f, of);
    if e.id != "" && e.id in t.rows {
      if e.id == f.id {
        SameRowMerged(idy, t, f, of);
        MergedStaysAbsorbed(t.rows[e.id], e, oe, f, of);
      } else {
        OtherRowsUntouched(idy, t, f, of, e.id);
      }
    }
  }

  lemma {:induction false} BatchAbsorbs(idy: Identity, t: Table, events: seq<Event>, origin: Origin)
    requires Indexed(t) && Agrees(idy, t) && AllFaithful(idy, events)
    ensures var t' := ObserveAll(t, events, origin).table;
            Agrees(idy, t') && forall e :: e in events ==> Absorbed(idy, t', e, origin)
  {
    if events != [] {
      var n := |events| - 1;
      var mid := ObserveAll(t, events[..n], origin).table;
      BatchAbsorbs(idy, t, events[..n], origin);
      ObserveAdvances(idy, mid, events[n], origin);
      ObserveAbsorbs(idy, mid, events[n], origin);
      forall e | e in events
        ensures Absorbed(idy, Observe(mid, events[n], origin).table, e, origin)
      {
        if e in events[..n] {
          AbsorbedStays(idy, mid, e, origin, events[n], origin);
        }
      }
    }
  }

  lemma {:induction false} AbsorbedBatchIsNoOp(idy: Identity, t: Table, events: seq<Event>, origin: Origin)
    requires Indexed(t) && Agrees(idy, t) && AllFaithful(idy, events)
    requires forall e :: e in events ==> Absorbed(idy, t, e, origin)
    ensures ObserveAll(t, events, origin) == Step(t, NOTHING)
  {
    if events != [] {
      var n := |events| - 1;
      AbsorbedBatchIsNoOp(idy, t, events[..n], origin);
      assert events == events[..n] + [events[n]];
      AbsorbedIsNoOp(idy, t, events[n], origin);
      ObserveAllSnoc(t, events[..n], events[n], origin, Step(t, NOTHING), Step(t, NOTHING));
      PlusNothing(NOTHING);
    }
  }

  /** Re-sending a whole batch inserts nothing, fills nothing and reports no mutation. */
  lemma ReplayIsNoOp(idy: Identity, t: Table, events: seq<Event>, origin: Origin)
    requires Indexed(t) && Agrees(idy, t) && AllFaithful(idy, events)
    ensures var t' := Batch(t, events, origin).table;
            && Batch(t', events, origin) == Step(t', NOTHING)
            && !Mutated(Batch(t', events, origin).tally)
  {
    FastPathRefinesPlain(idy, t, events, origin);
    BatchAbsorbs(idy, t, events, origin);
    var t' := Batch(t, events, origin).table;
    FastPathRefinesPlain(idy, t', events, origin);
    AbsorbedBatchIsNoOp(idy, t', events, origin);
  }

  // ---------------------------------------------------------------- whole histories

  datatype Delivery = Delivery(events: seq<Event>, origin: Origin)

  predicate FaithfulHistory(idy: Identity, h: seq<Delivery>) {
    forall d :: d in h ==> AllFaithful(idy, d.events)
  }

  function Replay(t: Table, h: seq<Delivery>): (t': Table)
    requires Indexed(t)
    ensures Indexed(t')
  {
    if h == [] then t
    else Batch(Replay(t, h[..|h| - 1]), h[|h| - 1].events, h[|h| - 1].origin).table
  }

  /** Rows carry exactly the identity's key: no row predates the dedup key. */
  ghost predicate Exact(idy: Identity, t: Table) {
    forall id :: id in t.rows ==> TimeIs(idy, id, t.rows[id].ts) && t.rows[id].dedupKey == idy.key(id)
  }

  /** id is the earliest copy of its generation among the ids ever seen. */
  ghost predicate Survives(idy: Identity, seen: set<string>, id: string) {
    id in seen && (idy.key(id) == "" || forall y :: y in seen && idy.key(y) == idy.key(id) ==> y == id || Before(idy, id, y))
  }

  /** The table holds exactly the survivors of what was ever observed. */
  ghost predicate Settled(idy: Identity, t: Table, seen: set<string>) {
    && Indexed(t) && Exact(idy, t)
    && forall id :: id in t.rows <==> Survives(idy, seen, id)
  }

  /** In a settled table every observed generation has an owner no later than any observed copy. */
  lemma OwnerOfSeen(idy: Identity, t: Table, seen: set<string>, id: string)
    requires Settled(idy, t, seen) && id in seen && idy.key(id) != ""
    ensures idy.key(id) in t.owner
    ensures t.owner[idy.key(id)] == id || Before(idy, t.owner[idy.key(id)], id)
    decreases seen
  {
    var m := EarliestCopy(idy, seen, id);
    assert Survives(idy, seen, m);
    assert t.rows[m].dedupKey == idy.key(id);
  }

  lemma EarliestCopy(idy: Identity, seen: set<string>, id: string) returns (m: string)
    requires id in seen
    ensures m in seen && idy.key(m) == idy.key(id)
    ensures m == id || Before(idy, m, id)
    ensures forall y :: y in seen && idy.key(y) == idy.key(id) ==> y == m || Before(idy, m, y)
  {
    m := id;
    var rest := seen;
    while rest != {}
      invariant rest <= seen
      invariant m in seen && idy.key(m) == idy.key(id)
      invariant m == id || Before(idy, m, id)
      invariant forall y :: y in seen - rest && idy.key(y) == idy.key(id) ==> y == m || Before(idy, m, y)
      decreases rest
    {
      var x :| x in rest;
      if idy.key(x) == idy.key(id) && x != m {
        BeforeTotal(idy, x, m);
        if Before(idy, x, m) {
          forall y | y in seen - rest && idy.key(y) == idy.key(id)
            ensures Before(idy, x, y)
          {
            if y != m { BeforeTransitive(idy, x, m, y); }
          }
          if m != id { BeforeTransitive(idy, x, m, id); }
          m := x;
        }
      }
      rest := rest - {x};
    }
  }

  lemma ObserveSettles(idy: Identity, t: Table, e: Event, origin: Origin, seen: set<string>)
    requires Settled(idy, t, seen) && Faithful(idy, e) && e.id != ""
    ensures Settled(idy, Observe(t, e, origin).table, seen + {e.id})
  {
    var t' := Observe(t, e, origin).table;
    ApplyIndexed(t, None, e, origin);
    if !Refused(t, e) {
      SettlesInsert(idy, t, e, origin, seen);
    } else if Contested(t, e) {
      var o := t.owner[e.dedupKey];
      BeforeTotal(idy, e.id, o);
      assert Survives(idy, seen, o);
      if Before(idy, o, e.id) {
        SettlesCopy(idy, t, e, seen);
      } else {
        SettlesTakeOver(idy, t, e, origin, seen);
      }
    } else {
      UngatedIsMerged(t.rows[e.id], e, origin);
      assert Survives(idy, seen, e.id);
      assert seen + {e.id} == seen;
    }
  }

  lemma SettlesInsert(idy: Identity, t: Table, e: Event, origin: Origin, seen: set<string>)
    requires Settled(idy, t, seen) && Faithful(idy, e) && e.id != "" && !Refused(t, e)
    ensures Settled(idy, Inserted(t, e, origin), seen + {e.id})
  {
    InsertedIndexed(t, e, origin);
    forall y | y in seen && idy.key(y) == e.dedupKey && e.dedupKey != ""
      ensures false
    {
      OwnerOfSeen(idy, t, seen, y);
    }
    forall id
      ensures id in Inserted(t, e, origin).rows <==> Survives(idy, seen + {e.id}, id)
    {
      if id != e.id { assert Survives(idy, seen, id) <==> Survives(idy, seen + {e.id}, id); }
    }
  }

  lemma SettlesCopy(idy: Identity, t: Table, e: Event, seen: set<string>)
    requires Settled(idy, t, seen) && Faithful(idy, e) && e.id != "" && Contested(t, e)
    requires Before(idy, t.owner[e.dedupKey], e.id)
    ensures Settled(idy, Dropped(t, e.id), seen + {e.id})
  {
    var o := t.owner[e.dedupKey];
    assert e.id !in t.rows;
    assert Survives(idy, seen, o);
    BeforeTotal(idy, o, e.id);
    forall id
      ensures Survives(idy, seen, id) <==> Survives(idy, seen + {e.id}, id)
    {
      if Survives(idy, seen, id) && idy.key(id) == e.dedupKey { assert id in t.rows; }
    }
  }

  lemma SettlesTakeOver(idy: Identity, t: Table, e: Event, origin: Origin, seen: set<string>)
    requires Settled(idy, t, seen) && Faithful(idy, e) && e.id != "" && Contested(t, e)
    requires Before(idy, e.id, t.owner[e.dedupKey])
    ensures Settled(idy, Contest(t, None, e, origin).table, seen + {e.id})
  {
    var o := t.owner[e.dedupKey];
    var t' := Contest(t, None, e, origin).table;
    ContestIndexed(t, None, e, origin);
    OriginalTakesOver(idy, t, e, origin);
    assert Survives(idy, seen, o);
    BeforeTotal(idy, o, e.id);
    forall y | y in seen && idy.key(y) == e.dedupKey && y != e.id
      ensures Before(idy, e.id, y)
    {
      if y != o { BeforeTransitive(idy, e.id, o, y); }
    }
    forall id
      ensures id in t'.rows <==> Survives(idy, seen + {e.id}, id)
    {
      if id != e.id && id != o {
        assert Survives(idy, seen, id) <==> Survives(idy, seen + {e.id}, id) by {
          if idy.key(id) == e.dedupKey && id in seen { BeforeTotal(idy, id, e.id); BeforeTotal(idy, id, o); }
        }
      }
    }
  }

  ghost function IdsOf(events: seq<Event>): set<string> {
    set e | e in events && e.id != "" :: e.id
  }

  ghost function SeenIds(h: seq<Delivery>): set<string> {
    if h == [] then {} else SeenIds(h[..|h| - 1]) + IdsOf(h[|h| - 1].events)
  }

  lemma ExactAgrees(idy: Identity, t: Table)
    requires Exact(idy, t)
    ensures Agrees(idy, t)
  {
  }

  lemma {:induction false} BatchSettles(idy: Identity, t: Table, events: seq<Event>, origin: Origin, seen: set<string>)
    requires Settled(idy, t, seen) && AllFaithful(idy, events)
    ensures Settled(idy, ObserveAll(t, events, origin).table, seen + IdsOf(events))
  {
    if events == [] {
      assert seen + IdsOf(events) == seen;
    } else {
      var n := |events| - 1;
      BatchSettles(idy, t, events[..n], origin, seen);
      var mid := ObserveAll(t, events[..n], origin).table;
      var e := events[n];
      assert events == events[..n] + [e];
      if e.id == "" {
        assert IdsOf(events) == IdsOf(events[..n]);
      } else {
        ObserveSettles(idy, mid, e, origin, seen + IdsOf(events[..n]));
        assert seen + IdsOf(events) == seen + IdsOf(events[..n]) + {e.id};
      }
    }
  }

  /**
   For every history of deliveries, in any order and with any repetition, the stored ids are exactly
   the observed ids that are the earliest copy of their generation.
   */
  lemma {:induction false} StoredAreSurvivors(idy: Identity, h: seq<Delivery>)
    requires FaithfulHistory(idy, h)
    ensures Settled(idy, Replay(Table(map[], map[]), h), SeenIds(h))
  {
    if h != [] {
      var n := |h| - 1;
      StoredAreSurvivors(idy, h[..n]);
      var t := Replay(Table(map[], map[]), h[..n]);
      ExactAgrees(idy, t);
      FastPathRefinesPlain(idy, t, h[n].events, h[n].origin);
      BatchSettles(idy, t, h[n].events, h[n].origin, SeenIds(h[..n]));
    }
  }

  /** Two histories that observed the same ids store the same ids, whatever the order or the batching. */
  lemma ArrivalOrderIrrelevant(idy: Identity, h1: seq<Delivery>, h2: seq<Delivery>)
    requires FaithfulHistory(idy, h1) && FaithfulHistory(idy, h2) && SeenIds(h1) == SeenIds(h2)
    ensures Replay(Table(map[], map[]), h1).rows.Keys == Replay(Table(map[], map[]), h2).rows.Keys
  {
    StoredAreSurvivors(idy, h1);
    StoredAreSurvivors(idy, h2);
    var t1, t2 := Replay(Table(map[], map[]), h1), Replay(Table(map[], map[]), h2);
    assert forall id :: id in t1.rows <==> id in t2.rows;
  }

  /** Over any history, a row once stored keeps its counts for ever, or an earlier copy holds its generation for ever. */
  lemma {:induction false} CountsArePermanent(idy: Identity, t: Table, h: seq<Delivery>)
    requires Indexed(t) && Agrees(idy, t) && FaithfulHistory(idy, h)
    ensures var t' := Replay(t, h);
            && Agrees(idy, t') && Advances(idy, t, t')
            && forall id :: id in t.rows && id in t'.rows ==> t'.rows[id].counts == t.rows[id].counts
  {
    if h == [] {
      AdvancesReflexive(idy, t);
    } else {
      var n := |h| - 1;
      CountsArePermanent(idy, t, h[..n]);
      var mid := Replay(t, h[..n]);
      FastPathRefinesPlain(idy, mid, h[n].events, h[n].origin);
      AdvancesTransitive(idy, t, mid, Replay(t, h));
    }
  }
}
