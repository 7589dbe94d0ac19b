/**
 Where every value in the event table comes from: after any history of batches, each column of a stored row is
 one that some delivered event with that id carried, its counts, model and time all from one and the same
 event; and where ids name generations, a column stays empty only if no delivered event could fill it
 (internal/store/store.go:463-488, 522-800).
 */
module EventOrigins {
  import opened Ingest
  import opened EventRows
  import opened EventStore
  import opened FastPaths
  import opened EventHistory

  /** One delivered event, and whether its own device sent it. */
  datatype Sighting = Sighting(event: Event, origin: Origin)

  ghost function SightingsOf(events: seq<Event>, origin: Origin): set<Sighting> {
    set e | e in events :: Sighting(e, origin)
  }

  ghost function Sightings(h: seq<Delivery>): set<Sighting> {
    if h == [] then {} else Sightings(h[..|h| - 1]) + SightingsOf(h[|h| - 1].events, h[|h| - 1].origin)
  }

  ghost function Of(seen: set<Sighting>, id: string): set<Sighting> {
    set s | s in seen && s.event.id == id
  }

  // ---------------------------------------------------------------- no value is invented

  /** What is drawn from one event at a time: what is counted, and when, comes from a single event, and so on. */
  datatype Column =
    | Measure | Owner | SourceName | Label | Generation | Duration | GenTime | FirstToken
    | SessionID | CWD | RepoName | Branch | AppVersion

  /** The row has this column's value from this event. */
  predicate Shows(r: Row, c: Column, s: Sighting) {
    var e := s.event;
    match c
    case Measure => r.counts == e.counts && r.model == e.model && r.ts == e.ts
    case Owner => r.device == e.device && r.origin == s.origin
    case SourceName => r.source == e.source
    case Label => r.provider == e.provider
    case Generation => r.dedupKey == e.dedupKey
    case Duration => r.durationMS == e.durationMS
    case GenTime => r.genMS == e.genMS
    case FirstToken => r.ttftMS == e.ttftMS
    case SessionID => r.context.sessionID == e.context.sessionID
    case CWD => r.context.cwd == e.context.cwd
    case RepoName => r.context.repo == e.context.repo
    case Branch => r.context.gitBranch == e.context.gitBranch
    case AppVersion => r.context.appVersion == e.context.appVersion
  }

  ghost predicate ColumnDrawn(r: Row, c: Column, mine: set<Sighting>) {
    exists s :: s in mine && Shows(r, c, s)
  }

  ghost predicate RowDrawn(r: Row, mine: set<Sighting>) {
    forall c :: ColumnDrawn(r, c, mine)
  }

  ghost predicate Drawn(t: Table, seen: set<Sighting>) {
    forall id :: id in t.rows ==> RowDrawn(t.rows[id], Of(seen, id))
  }

  lemma DrawnFromMore(r: Row, mine: set<Sighting>, more: set<Sighting>)
    requires RowDrawn(r, mine) && mine <= more
    ensures RowDrawn(r, more)
  {
    forall c ensures ColumnDrawn(r, c, more) { assert ColumnDrawn(r, c, mine); }
  }

  lemma NewRowDrawn(s: Sighting, mine: set<Sighting>)
    requires s in mine
    ensures RowDrawn(RowOf(s.event, s.origin), mine)
  {
    forall c ensures ColumnDrawn(RowOf(s.event, s.origin), c, mine) { assert Shows(RowOf(s.event, s.origin), c, s); }
  }

  /** A merge leaves a column as it was or takes it from the event merged. */
  lemma MergedShows(r: Row, known: Option<Row>, s: Sighting, c: Column, x: Sighting)
    requires Shows(r, c, x)
    ensures var m := GatedMerged(r, known, s.event, s.origin); Shows(m, c, s) || Shows(m, c, x)
  {
  }

  lemma MergedDrawn(r: Row, known: Option<Row>, s: Sighting, mine: set<Sighting>)
    requires RowDrawn(r, mine) && s in mine
    ensures RowDrawn(GatedMerged(r, known, s.event, s.origin), mine)
  {
    forall c ensures ColumnDrawn(GatedMerged(r, known, s.event, s.origin), c, mine) {
      assert ColumnDrawn(r, c, mine);
      var x :| x in mine && Shows(r, c, x);
      MergedShows(r, known, s, c, x);
    }
  }

  lemma KeyDrawn(r: Row, s: Sighting, mine: set<Sighting>)
    requires RowDrawn(r, mine) && s in mine
    ensures RowDrawn(r.(dedupKey := s.event.dedupKey), mine)
  {
    forall c ensures ColumnDrawn(r.(dedupKey := s.event.dedupKey), c, mine) {
      assert ColumnDrawn(r, c, mine);
      var x :| x in mine && Shows(r, c, x);
      assert Shows(r.(dedupKey := s.event.dedupKey), c, if c.Generation? then s else x);
    }
  }

  /** Changing one row leaves the others as they were. */
  lemma ReplacedDraws(t: Table, t': Table, id: string, seen: set<Sighting>)
    requires Drawn(t, seen) && id in t.rows && t'.rows.Keys == t.rows.Keys
    requires forall x :: x in t.rows && x != id ==> t'.rows[x] == t.rows[x]
    requires RowDrawn(t'.rows[id], Of(seen, id))
    ensures Drawn(t', seen)
  {
    forall x | x in t'.rows ensures RowDrawn(t'.rows[x], Of(seen, x)) {
      if x != id { assert RowDrawn(t.rows[x], Of(seen, x)); }
    }
  }

  lemma MergeIntoDraws(t: Table, known: Option<Row>, s: Sighting, seen: set<Sighting>)
    requires Drawn(t, seen) && s in seen
    ensures Drawn(MergeInto(t, known, s.event, s.origin).table, seen)
  {
    var id, t' := s.event.id, MergeInto(t, known, s.event, s.origin).table;
    if id in t.rows {
      MergedRowDraws(t.rows[id], t, known, s, Of(seen, id));
      ReplacedDraws(t, t', id, seen);
    } else {
      SameDraws(t', t, seen);
    }
  }

  lemma MergedRowDraws(r: Row, t: Table, known: Option<Row>, s: Sighting, mine: set<Sighting>)
    requires s.event.id in t.rows && r == t.rows[s.event.id] && RowDrawn(r, mine) && s in mine
    ensures RowDrawn(MergeInto(t, known, s.event, s.origin).table.rows[s.event.id], mine)
  {
    MergedDrawn(r, known, s, mine);
    KeyDrawn(GatedMerged(r, known, s.event, s.origin), s, mine);
  }

  lemma InsertedDraws(t: Table, s: Sighting, seen: set<Sighting>)
    requires Drawn(t, seen) && s in seen
    ensures Drawn(Inserted(t, s.event, s.origin), seen)
  {
    NewRowDrawn(s, Of(seen, s.event.id));
  }

  lemma DroppedDraws(t: Table, id: string, seen: set<Sighting>)
    requires Drawn(t, seen)
    ensures Drawn(Dropped(t, id), seen)
  {
  }

  /** One event, with or without its pre-loaded row, adds no value that was not delivered. */
  lemma ApplyDraws(t: Table, known: Option<Row>, s: Sighting, seen: set<Sighting>)
    requires Indexed(t) && Drawn(t, seen) && s in seen
    ensures Drawn(Apply(t, known, s.event, s.origin).table, seen)
  {
    var e, t' := s.event, Apply(t, known, s.event, s.origin).table;
    if e.id == "" {
      SameDraws(t', t, seen);
    } else if known.None? && !Refused(t, e) {
      InsertedDraws(t, s, seen);
      SameDraws(t', Inserted(t, e, s.origin), seen);
    } else if Contested(t, e) && !(known.Some? && known.value.dedupKey == e.dedupKey) {
      ContestDraws(t, known, s, seen);
      SameDraws(t', Contest(t, known, e, s.origin).table, seen);
    } else {
      MergeIntoDraws(t, known, s, seen);
      SameDraws(t', MergeInto(t, known, e, s.origin).table, seen);
    }
  }

  lemma ContestDraws(t: Table, known: Option<Row>, s: Sighting, seen: set<Sighting>)
    requires Contested(t, s.event) && t.owner[s.event.dedupKey] in t.rows && Drawn(t, seen) && s in seen
    ensures Drawn(Contest(t, known, s.event, s.origin).table, seen)
  {
    var o := t.owner[s.event.dedupKey];
    var t', t1 := Contest(t, known, s.event, s.origin).table, Dropped(t, o);
    if Earlier(t.rows[o].ts, o, s.event.ts, s.event.id) {
      DroppedDraws(t, s.event.id, seen);
      SameDraws(t', Dropped(t, s.event.id), seen);
    } else if Refused(t1, s.event) {
      DroppedDraws(t, o, seen);
      MergeIntoDraws(t1, known, s, seen);
      SameDraws(t', MergeInto(t1, known, s.event, s.origin).table, seen);
    } else {
      DroppedDraws(t, o, seen);
      InsertedDraws(t1, s, seen);
      SameDraws(t', Inserted(t1, s.event, s.origin), seen);
    }
  }

  lemma SameDraws(t: Table, t': Table, seen: set<Sighting>)
    requires t == t' && Drawn(t', seen)
    ensures Drawn(t, seen)
  {
  }

  lemma {:induction false} ApplyAllDraws(t: Table, prior: map<string, Row>, events: seq<Event>, origin: Origin, seen: set<Sighting>)
    requires Indexed(t) && Drawn(t, seen) && SightingsOf(events, origin) <= seen
    ensures Drawn(ApplyAll(t, prior, events, origin).table, seen)
  {
    if events != [] {
      var n := |events| - 1;
      var mid, e := ApplyAll(t, prior, events[..n], origin).table, events[n];
      assert Sighting(e, origin) in SightingsOf(events, origin);
      forall s | s in SightingsOf(events[..n], origin) ensures s in seen {
        assert s in SightingsOf(events, origin);
      }
      ApplyAllDraws(t, prior, events[..n], origin, seen);
      ApplyDraws(mid, Lookup(prior, e.id), Sighting(e, origin), seen);
    }
  }

  lemma DrawnMore(t: Table, seen: set<Sighting>, more: set<Sighting>)
    requires Drawn(t, seen) && seen <= more
    ensures Drawn(t, more)
  {
    forall id | id in t.rows ensures RowDrawn(t.rows[id], Of(more, id)) {
      DrawnFromMore(t.rows[id], Of(seen, id), Of(more, id));
    }
  }

  /**
   Over every history, in any order and with any repetition, batching and forking, and whatever the ids name:
   every value of a stored row was delivered with its id, and its counts, model and time in one event.
   */
  lemma {:induction false} StoredValuesWereDelivered(h: seq<Delivery>)
    ensures Drawn(Replay(Table(map[], map[]), h), Sightings(h))
  {
    if h != [] {
      var init, last := h[..|h| - 1], h[|h| - 1];
      var t := Replay(Table(map[], map[]), init);
      StoredValuesWereDelivered(init);
      DrawnMore(t, Sightings(init), Sightings(h));
      ApplyAllDraws(t, t.rows, last.events, last.origin, Sightings(h));
    }
  }

  lemma ShowsWhole(r: Row, s: Sighting)
    requires forall c :: Shows(r, c, s)
    ensures var e := s.event;
            && r.ts == e.ts && r.counts == e.counts && r.model == e.model
            && r.device == e.device && r.origin == s.origin && r.source == e.source && r.provider == e.provider
            && r.dedupKey == e.dedupKey && r.context == e.context
            && r.durationMS == e.durationMS && r.genMS == e.genMS && r.ttftMS == e.ttftMS
  {
    assert Shows(r, Measure, s) && Shows(r, Owner, s) && Shows(r, SourceName, s) && Shows(r, Label, s) && Shows(r, Generation, s);
    assert Shows(r, Duration, s) && Shows(r, GenTime, s) && Shows(r, FirstToken, s);
    assert Shows(r, SessionID, s) && Shows(r, CWD, s) && Shows(r, RepoName, s) && Shows(r, Branch, s) && Shows(r, AppVersion, s);
  }

  /** An id delivered as one event only is stored as that event, column by column. */
  lemma OneSightingIsStoredWhole(h: seq<Delivery>, s: Sighting)
    requires s in Sightings(h) && s.event.id in Replay(Table(map[], map[]), h).rows
    requires forall x :: x in Sightings(h) && x.event.id == s.event.id ==> x == s
    ensures var r, e := Replay(Table(map[], map[]), h).rows[s.event.id], s.event;
            && r.ts == e.ts && r.counts == e.counts && r.model == e.model
            && r.device == e.device && r.origin == s.origin && r.source == e.source && r.provider == e.provider
            && r.dedupKey == e.dedupKey && r.context == e.context
            && r.durationMS == e.durationMS && r.genMS == e.genMS && r.ttftMS == e.ttftMS
  {
    StoredValuesWereDelivered(h);
    var r := Replay(Table(map[], map[]), h).rows[s.event.id];
    assert RowDrawn(r, Of(Sightings(h), s.event.id));
    forall c ensures Shows(r, c, s) {
      assert ColumnDrawn(r, c, Of(Sightings(h), s.event.id));
      var x :| x in Of(Sightings(h), s.event.id) && Shows(r, c, x);
    }
    ShowsWhole(r, s);
  }

  // ---------------------------------------------------------------- nothing that was delivered is left out

  /** The row has taken in everything this event could add. */
  predicate TakenIn(r: Row, s: Sighting) {
    var e := s.event;
    && (e.genMS > 0 ==> r.genMS != 0) && (e.ttftMS > 0 ==> r.ttftMS != 0)
    && (FromLog(e) && e.durationMS > 0 ==> r.durationMS != 0)
    && (FromLog(e) ==> !r.source.Proxy?)
    && (e.context.sessionID != "" ==> r.context.sessionID != "") && (e.context.cwd != "" ==> r.context.cwd != "")
    && (e.context.repo != "" ==> r.context.repo != "") && (e.context.gitBranch != "" ==> r.context.gitBranch != "")
    && (e.context.appVersion != "" ==> r.context.appVersion != "")
    && (!e.provider.NoLabel? ==> Rank(e.provider) <= Rank(r.provider))
    && (s.origin.Self? && e.device != "" ==> r.origin.Self?)
    && r.dedupKey == e.dedupKey
  }

  lemma AbsorbedIsTakenIn(r: Row, s: Sighting)
    requires Merged(r, s.event, s.origin) == r && r.dedupKey == s.event.dedupKey
    ensures TakenIn(r, s)
  {
  }

  lemma {:induction false} BatchKeepsAbsorbed(idy: Identity, t: Table, events: seq<Event>, origin: Origin, s: Sighting)
    requires Indexed(t) && Agrees(idy, t) && AllFaithful(idy, events) && Faithful(idy, s.event) && Absorbed(idy, t, s.event, s.origin)
    ensures Absorbed(idy, ObserveAll(t, events, origin).table, s.event, s.origin)
  {
    if events != [] {
      var n := |events| - 1;
      BatchKeepsAbsorbed(idy, t, events[..n], origin, s);
      ObserveAllAdvances(idy, t, events[..n], origin);
      AbsorbedStays(idy, ObserveAll(t, events[..n], origin).table, s.event, s.origin, events[n], origin);
    }
  }

  lemma SightingsFaithful(idy: Identity, h: seq<Delivery>)
    requires FaithfulHistory(idy, h)
    ensures forall s :: s in Sightings(h) ==> Faithful(idy, s.event)
    decreases |h|
  {
    if h != [] {
      SightingsFaithful(idy, h[..|h| - 1]);
      assert h[|h| - 1] in h;
    }
  }

  lemma {:induction false} HistoryAbsorbs(idy: Identity, h: seq<Delivery>, s: Sighting)
    requires FaithfulHistory(idy, h) && s in Sightings(h)
    ensures Absorbed(idy, Replay(Table(map[], map[]), h), s.event, s.origin)
  {
    var init, last := h[..|h| - 1], h[|h| - 1];
    var t := Replay(Table(map[], map[]), init);
    assert FaithfulHistory(idy, init) && AllFaithful(idy, last.events);
    CountsArePermanent(idy, Table(map[], map[]), init);
    FastPathRefinesPlain(idy, t, last.events, last.origin);
    if s in SightingsOf(last.events, last.origin) {
      BatchAbsorbs(idy, t, last.events, last.origin);
    } else {
      HistoryAbsorbs(idy, init, s);
      SightingsFaithful(idy, init);
      BatchKeepsAbsorbed(idy, t, last.events, last.origin, s);
    }
  }

  /** Where ids name generations, a stored row has taken in every event ever delivered with its id. */
  lemma EverySightingIsTakenIn(idy: Identity, h: seq<Delivery>, s: Sighting)
    requires FaithfulHistory(idy, h) && s in Sightings(h) && s.event.id != ""
    requires s.event.id in Replay(Table(map[], map[]), h).rows
    ensures TakenIn(Replay(Table(map[], map[]), h).rows[s.event.id], s)
  {
    HistoryAbsorbs(idy, h, s);
    AbsorbedIsTakenIn(Replay(Table(map[], map[]), h).rows[s.event.id], s);
  }
}
