/**
 The single-flight response cache as an interleaving of its atomic sections: lookup under the lock, publish
 under the lock, close of the channel, wake of a waiter, and clear, which may run in the middle of a compute
 (internal/server/respcache.go; internal/server/pricingrefresh.go clears it after new prices are set).
 */
module RespCaches {

  /**
   A cacheEntry, plus what only the proof looks at: when and under which generation it was created, the price
   version its compute began under and read, and when it was published.
   */
  datatype Entry = Entry(
    key: string, body: int, failed: bool, expires: int, inFlight: bool, closed: bool,
    epoch: nat, began: nat, read: nat, ttl: nat, publishedAt: int, publishedStep: nat)

  /** What the proof remembers of a request's arrival. */
  datatype Arrival = Arrival(epoch: nat, floor: nat, step: nat)

  datatype Thread =
    | Idle
    | Computing(entry: nat, arrival: Arrival)
    | Closing(entry: nat, arrival: Arrival)
    | Waiting(entry: nat, arrival: Arrival)

  datatype How = Hit | Computed | Joined

  /** One answered request. */
  datatype Served = Served(how: How, entry: nat, body: int, failed: bool, at: int, arrival: Arrival)

  /**
   `m` is the map under the lock. `price` is the current price table's version, `floor` its version at the
   latest clear, `epoch` the number of clears, `steps` the number of steps taken.
   */
  datatype World = World(
    m: map<string, nat>, entries: map<nat, Entry>, threads: map<nat, Thread>, nextEntry: nat,
    now: int, price: nat, floor: nat, epoch: nat, steps: nat, served: seq<Served>)

  const START := World(map[], map[], map[], 0, 0, 0, 0, 0, 0, [])

  datatype Step =
    | Lookup(t: nat, key: string, ttl: nat)
    | Publish(t: nat, failed: bool, body: int, read: nat)
    | Close(t: nat)
    | Wake(t: nat)
    | Tick(elapsed: nat)
    | SetPrices
    | Clear

  function ThreadOf(w: World, t: nat): Thread {
    if t in w.threads then w.threads[t] else Idle
  }

  function Now(w: World): Arrival {
    Arrival(w.epoch, w.floor, w.steps)
  }

  predicate Enabled(w: World, s: Step) {
    match s
    case Lookup(t, _, _) => ThreadOf(w, t).Idle?
    case Publish(t, _, _, read) =>
      && ThreadOf(w, t).Computing? && ThreadOf(w, t).entry in w.entries
      && w.entries[ThreadOf(w, t).entry].began <= read <= w.price
    case Close(t) => ThreadOf(w, t).Closing? && ThreadOf(w, t).entry in w.entries
    case Wake(t) => ThreadOf(w, t).Waiting? && ThreadOf(w, t).entry in w.entries && w.entries[ThreadOf(w, t).entry].closed
    case Tick(_) => true
    case SetPrices => true
    case Clear => true
  }

  /** The first critical section of bytes. */
  function LookupNext(w: World, t: nat, key: string, ttl: nat): World {
    if key in w.m && w.m[key] in w.entries && w.entries[w.m[key]].inFlight then
      w.(threads := w.threads[t := Waiting(w.m[key], Now(w))])
    else if key in w.m && w.m[key] in w.entries && w.now < w.entries[w.m[key]].expires then
      w.(served := w.served + [Served(Hit, w.m[key], w.entries[w.m[key]].body, false, w.now, Now(w))])
    else
      w.(m := w.m[key := w.nextEntry],
         entries := w.entries[w.nextEntry := Entry(key, 0, false, 0, true, false, w.epoch, w.price, w.price, ttl, 0, 0)],
         threads := w.threads[t := Computing(w.nextEntry, Now(w))],
         nextEntry := w.nextEntry + 1)
  }

  /** The second critical section. */
  function PublishNext(w: World, t: nat, failed: bool, body: int, read: nat): World
    requires Enabled(w, Publish(t, failed, body, read))
  {
    var i := ThreadOf(w, t).entry;
    var e := w.entries[i];
    w.(m := if failed && e.key in w.m && w.m[e.key] == i then w.m - {e.key} else w.m,
       entries := w.entries[i := e.(body := body, failed := failed, read := read, inFlight := false,
                                    expires := if failed then e.expires else w.now + e.ttl,
                                    publishedAt := w.now, publishedStep := w.steps)],
       threads := w.threads[t := Closing(i, ThreadOf(w, t).arrival)])
  }

  function Answer(w: World, t: nat, how: How, i: nat, arrival: Arrival): World
    requires i in w.entries
  {
    w.(threads := w.threads[t := Idle],
       served := w.served + [Served(how, i, w.entries[i].body, w.entries[i].failed, w.now, arrival)])
  }

  function Act(w: World, s: Step): World
    requires Enabled(w, s)
  {
    match s
    case Lookup(t, key, ttl) => LookupNext(w, t, key, ttl)
    case Publish(t, failed, body, read) => PublishNext(w, t, failed, body, read)
    case Close(t) =>
      var i := ThreadOf(w, t).entry;
      Answer(w.(entries := w.entries[i := w.entries[i].(closed := true)]), t, Computed, i, ThreadOf(w, t).arrival)
    case Wake(t) => Answer(w, t, Joined, ThreadOf(w, t).entry, ThreadOf(w, t).arrival)
    case Tick(elapsed) => w.(now := w.now + elapsed)
    case SetPrices => w.(price := w.price + 1)
    case Clear => w.(m := map[], epoch := w.epoch + 1, floor := w.price)
  }

  function Next(w: World, s: Step): World
    requires Enabled(w, s)
  {
    Act(w, s).(steps := w.steps + 1)
  }

  // ---------------------------------------------------------------- invariant

  /** Everything reachable under the lock was created since the last clear, and is fresh, in flight or a success. */
  predicate MapOk(w: World) {
    forall k :: k in w.m ==>
      && w.m[k] in w.entries
      && w.entries[w.m[k]].key == k && w.entries[w.m[k]].epoch == w.epoch && w.entries[w.m[k]].began >= w.floor
      && (!w.entries[w.m[k]].inFlight ==> !w.entries[w.m[k]].failed)
  }

  predicate EntryOk(w: World, i: nat)
    requires i in w.entries
  {
    var e := w.entries[i];
    && i < w.nextEntry && e.epoch <= w.epoch && e.began <= w.price
    && (e.inFlight ==> !e.closed)
    && (!e.inFlight ==> e.began <= e.read && e.publishedAt <= w.now && e.publishedStep < w.steps)
    && (!e.inFlight && !e.failed ==> e.expires == e.publishedAt + e.ttl)
    && (e.inFlight && e.epoch == w.epoch ==> e.key in w.m && w.m[e.key] == i)
  }

  predicate EntriesOk(w: World) {
    w.floor <= w.price && forall i :: i in w.entries ==> EntryOk(w, i)
  }

  /** At most one compute per key and generation. */
  predicate SingleFlight(entries: map<nat, Entry>) {
    forall i, j ::
      (i in entries && j in entries && entries[i].inFlight && entries[j].inFlight
       && entries[i].key == entries[j].key && entries[i].epoch == entries[j].epoch) ==> i == j
  }

  predicate ArrivalOk(w: World, i: nat, a: Arrival)
    requires i in w.entries
  {
    var e := w.entries[i];
    && a.step < w.steps && a.epoch <= e.epoch && a.floor <= e.began
    && (!e.inFlight ==> a.step < e.publishedStep)
  }

  predicate ThreadOk(w: World, th: Thread) {
    match th
    case Idle => true
    case Computing(i, a) => i in w.entries && w.entries[i].inFlight && ArrivalOk(w, i, a)
    case Closing(i, a) => i in w.entries && !w.entries[i].inFlight && ArrivalOk(w, i, a)
    case Waiting(i, a) => i in w.entries && ArrivalOk(w, i, a)
  }

  /** Each compute belongs to one thread. */
  predicate ThreadsOk(w: World) {
    && (forall t :: t in w.threads ==> ThreadOk(w, w.threads[t]))
    && (forall t, u ::
          (t in w.threads && u in w.threads && w.threads[t].Computing? && w.threads[u].Computing?
           && w.threads[t].entry == w.threads[u].entry) ==> t == u)
  }

  /** What every answer satisfies, at the moment it is given and for ever after. */
  predicate ServedOk(entries: map<nat, Entry>, s: Served) {
    && s.entry in entries
    && var e := entries[s.entry];
       && !e.inFlight && s.body == e.body && s.failed == e.failed
       && s.arrival.epoch <= e.epoch && s.arrival.floor <= e.began <= e.read
       && (s.how.Hit? ==> !s.failed && e.publishedAt <= s.at < e.publishedAt + e.ttl)
       && (s.failed ==> s.arrival.step < e.publishedStep)
  }

  predicate LogOk(entries: map<nat, Entry>, served: seq<Served>) {
    forall s :: s in served ==> ServedOk(entries, s)
  }

  predicate Inv(w: World) {
    MapOk(w) && EntriesOk(w) && SingleFlight(w.entries) && ThreadsOk(w) && LogOk(w.entries, w.served)
  }

  // ---------------------------------------------------------------- steps

  lemma LookupJoin(w: World, t: nat, key: string, ttl: nat)
    requires Inv(w) && ThreadOf(w, t).Idle? && key in w.m && w.entries[w.m[key]].inFlight
    ensures Inv(Next(w, Lookup(t, key, ttl)))
  {
  }

  lemma LookupHit(w: World, t: nat, key: string, ttl: nat)
    requires Inv(w) && ThreadOf(w, t).Idle? && key in w.m && !w.entries[w.m[key]].inFlight && w.now < w.entries[w.m[key]].expires
    ensures Inv(Next(w, Lookup(t, key, ttl)))
  {
    assert EntryOk(w, w.m[key]);
  }

  lemma LookupMiss(w: World, t: nat, key: string, ttl: nat)
    requires Inv(w) && ThreadOf(w, t).Idle?
    requires key in w.m ==> !w.entries[w.m[key]].inFlight && w.now >= w.entries[w.m[key]].expires
    ensures Inv(Next(w, Lookup(t, key, ttl)))
  {
    assert forall i :: i in w.entries ==> EntryOk(w, i);
    assert w.nextEntry !in w.entries;
    EntriesMiss(w, t, key, ttl);
    ThreadsMiss(w, t, key, ttl);
  }

  lemma EntriesMiss(w: World, t: nat, key: string, ttl: nat)
    requires MapOk(w) && EntriesOk(w) && SingleFlight(w.entries) && ThreadOf(w, t).Idle? && w.nextEntry !in w.entries
    requires key in w.m ==> !w.entries[w.m[key]].inFlight && w.now >= w.entries[w.m[key]].expires
    ensures EntriesOk(Next(w, Lookup(t, key, ttl)))
    ensures SingleFlight(Next(w, Lookup(t, key, ttl)).entries)
  {
    var w' := Next(w, Lookup(t, key, ttl));
    forall i | i in w'.entries ensures EntryOk(w', i) {
      if i != w.nextEntry { assert EntryOk(w, i); }
    }
    forall i | i in w.entries && w.entries[i].inFlight && w.entries[i].key == key ensures w.entries[i].epoch != w.epoch {
      assert EntryOk(w, i);
    }
  }

  lemma ThreadsMiss(w: World, t: nat, key: string, ttl: nat)
    requires ThreadsOk(w) && EntriesOk(w) && w.nextEntry !in w.entries && ThreadOf(w, t).Idle?
    requires key in w.m && w.m[key] in w.entries ==> !w.entries[w.m[key]].inFlight && w.now >= w.entries[w.m[key]].expires
    ensures ThreadsOk(Next(w, Lookup(t, key, ttl)))
  {
    var w' := Next(w, Lookup(t, key, ttl));
    forall u | u in w'.threads ensures ThreadOk(w', w'.threads[u]) {
      if u != t { assert ThreadOk(w, w.threads[u]); }
    }
  }

  lemma PublishThreads(w: World, t: nat, failed: bool, body: int, read: nat)
    requires Inv(w) && Enabled(w, Publish(t, failed, body, read))
    ensures ThreadsOk(Next(w, Publish(t, failed, body, read)))
  {
    var w' := Next(w, Publish(t, failed, body, read));
    assert ThreadOk(w, w.threads[t]);
    forall u | u in w'.threads ensures ThreadOk(w', w'.threads[u]) {
      assert ThreadOk(w, w.threads[u]);
    }
  }

  lemma PublishEntries(w: World, t: nat, failed: bool, body: int, read: nat)
    requires Inv(w) && Enabled(w, Publish(t, failed, body, read))
    ensures var w' := Next(w, Publish(t, failed, body, read)); EntriesOk(w') && SingleFlight(w'.entries)
  {
    var w' := Next(w, Publish(t, failed, body, read));
    assert ThreadOk(w, w.threads[t]) && EntryOk(w, ThreadOf(w, t).entry);
    forall j | j in w'.entries ensures EntryOk(w', j) {
      assert EntryOk(w, j);
    }
  }

  lemma PublishMap(w: World, t: nat, failed: bool, body: int, read: nat)
    requires Inv(w) && Enabled(w, Publish(t, failed, body, read))
    ensures MapOk(Next(w, Publish(t, failed, body, read)))
  {
    assert ThreadOk(w, w.threads[t]) && EntryOk(w, ThreadOf(w, t).entry);
  }

  lemma PublishKeeps(w: World, t: nat, failed: bool, body: int, read: nat)
    requires Inv(w) && Enabled(w, Publish(t, failed, body, read))
    ensures Inv(Next(w, Publish(t, failed, body, read)))
  {
    var i := ThreadOf(w, t).entry;
    PublishThreads(w, t, failed, body, read);
    PublishEntries(w, t, failed, body, read);
    PublishMap(w, t, failed, body, read);
    assert ThreadOk(w, w.threads[t]);
    PublishedLog(w, i, Next(w, Publish(t, failed, body, read)).entries[i]);
  }

  /** Answers already given rest on published entries, which nothing changes again. */
  lemma PublishedLog(w: World, i: nat, e: Entry)
    requires LogOk(w.entries, w.served) && i in w.entries && w.entries[i].inFlight
    ensures LogOk(w.entries[i := e], w.served)
  {
    forall s | s in w.served ensures ServedOk(w.entries[i := e], s) {
      assert ServedOk(w.entries, s);
    }
  }

  lemma CloseThreads(w: World, t: nat)
    requires Inv(w) && Enabled(w, Close(t))
    ensures ThreadsOk(Next(w, Close(t)))
  {
    var w' := Next(w, Close(t));
    assert ThreadOk(w, w.threads[t]);
    forall u | u in w'.threads ensures ThreadOk(w', w'.threads[u]) {
      assert ThreadOk(w, w.threads[u]);
    }
  }

  lemma CloseEntries(w: World, t: nat)
    requires Inv(w) && Enabled(w, Close(t))
    ensures var w' := Next(w, Close(t)); EntriesOk(w') && SingleFlight(w'.entries) && MapOk(w')
  {
    var w' := Next(w, Close(t));
    assert ThreadOk(w, w.threads[t]) && EntryOk(w, ThreadOf(w, t).entry);
    forall j | j in w'.entries ensures EntryOk(w', j) {
      assert EntryOk(w, j);
    }
  }

  lemma CloseKeeps(w: World, t: nat)
    requires Inv(w) && Enabled(w, Close(t))
    ensures Inv(Next(w, Close(t)))
  {
    var w' := Next(w, Close(t));
    CloseThreads(w, t);
    CloseEntries(w, t);
    assert ThreadOk(w, w.threads[t]) && EntryOk(w, ThreadOf(w, t).entry);
    forall s | s in w'.served ensures ServedOk(w'.entries, s) {
      if s in w.served { assert ServedOk(w.entries, s); }
    }
  }

  lemma WakeKeeps(w: World, t: nat)
    requires Inv(w) && Enabled(w, Wake(t))
    ensures Inv(Next(w, Wake(t)))
  {
    var i := ThreadOf(w, t).entry;
    assert ThreadOk(w, w.threads[t]) && EntryOk(w, i);
  }

  lemma ClearKeeps(w: World)
    requires Inv(w)
    ensures Inv(Next(w, Clear))
  {
    forall j | j in w.entries ensures EntryOk(Next(w, Clear), j) {
      assert EntryOk(w, j);
    }
  }

  lemma StepKeeps(w: World, s: Step)
    requires Inv(w) && Enabled(w, s)
    ensures Inv(Next(w, s))
  {
    match s
    case Lookup(t, key, ttl) =>
      if key in w.m && w.entries[w.m[key]].inFlight { LookupJoin(w, t, key, ttl); }
      else if key in w.m && w.now < w.entries[w.m[key]].expires { LookupHit(w, t, key, ttl); }
      else { LookupMiss(w, t, key, ttl); }
    case Publish(t, failed, body, read) => PublishKeeps(w, t, failed, body, read);
    case Close(t) => CloseKeeps(w, t);
    case Wake(t) => WakeKeeps(w, t);
    case Tick(_) =>
    case SetPrices =>
    case Clear => ClearKeeps(w);
  }

  // ---------------------------------------------------------------- every interleaving

  ghost predicate Run(steps: seq<Step>, w: World)
    decreases |steps|
  {
    if steps == [] then w == START
    else
      var last := steps[|steps| - 1];
      exists mid :: Run(steps[..|steps| - 1], mid) && Enabled(mid, last) && w == Next(mid, last)
  }

  lemma {:induction false} RunInv(steps: seq<Step>, w: World)
    requires Run(steps, w)
    ensures Inv(w)
    decreases |steps|
  {
    if steps != [] {
      var last := steps[|steps| - 1];
      var mid :| Run(steps[..|steps| - 1], mid) && Enabled(mid, last) && w == Next(mid, last);
      RunInv(steps[..|steps| - 1], mid);
      StepKeeps(mid, last);
    }
  }

  /**
   In every interleaving, a request that entered after a clear is answered by a compute begun after it, from
   prices no older than those set before the clear.
   */
  lemma NothingStaleAfterClear(steps: seq<Step>, w: World, s: Served)
    requires Run(steps, w) && s in w.served
    ensures s.entry in w.entries
    ensures w.entries[s.entry].epoch >= s.arrival.epoch
    ensures s.arrival.floor <= w.entries[s.entry].began <= w.entries[s.entry].read
  {
    RunInv(steps, w);
  }

  /** A hit is a success and is younger than the time to live it was published with. */
  lemma HitsAreFreshSuccesses(steps: seq<Step>, w: World, s: Served)
    requires Run(steps, w) && s in w.served && s.how.Hit?
    ensures !s.failed && s.entry in w.entries
    ensures 0 <= s.at - w.entries[s.entry].publishedAt < w.entries[s.entry].ttl
  {
    RunInv(steps, w);
  }

  /** A failure reaches only its own caller and those who were already waiting when it was published. */
  lemma FailuresAreNotCached(steps: seq<Step>, w: World, s: Served)
    requires Run(steps, w) && s in w.served && s.failed
    ensures !s.how.Hit? && s.entry in w.entries && s.arrival.step < w.entries[s.entry].publishedStep
  {
    RunInv(steps, w);
  }

  /** All who are answered from one compute get the same result. */
  lemma SharersAgree(steps: seq<Step>, w: World, a: Served, b: Served)
    requires Run(steps, w) && a in w.served && b in w.served && a.entry == b.entry
    ensures a.body == b.body && a.failed == b.failed
  {
    RunInv(steps, w);
  }

  /** At any moment at most one thread computes a key within one generation. */
  lemma OneComputePerKey(steps: seq<Step>, w: World, t: nat, u: nat)
    requires Run(steps, w) && ThreadOf(w, t).Computing? && ThreadOf(w, u).Computing?
    ensures var i, j := ThreadOf(w, t).entry, ThreadOf(w, u).entry;
            && i in w.entries && j in w.entries
            && (w.entries[i].key == w.entries[j].key && w.entries[i].epoch == w.entries[j].epoch ==> t == u)
  {
    RunInv(steps, w);
    assert ThreadOk(w, w.threads[t]) && ThreadOk(w, w.threads[u]);
  }

  // ---------------------------------------------------------------- what an answer is

  /** Entry i was created by the lookup at one step of the run, and if it is published, by the publish at another. */
  ghost predicate EntryFrom(steps: seq<Step>, e: Entry) {
    !e.inFlight ==>
      e.publishedStep < |steps| && steps[e.publishedStep].Publish?
      && steps[e.publishedStep].failed == e.failed && steps[e.publishedStep].body == e.body && steps[e.publishedStep].read == e.read
  }

  /** This arrival is a lookup of this key. */
  ghost predicate AskedFor(steps: seq<Step>, a: Arrival, key: string) {
    a.step < |steps| && steps[a.step].Lookup? && steps[a.step].key == key
  }

  ghost predicate ThreadFrom(steps: seq<Step>, w: World, t: nat) {
    ThreadOf(w, t).Idle? ||
      (ThreadOf(w, t).entry in w.entries && AskedFor(steps, ThreadOf(w, t).arrival, w.entries[ThreadOf(w, t).entry].key)
       && steps[ThreadOf(w, t).arrival.step].t == t)
  }

  ghost predicate Faithful(steps: seq<Step>, w: World) {
    && w.steps == |steps|
    && (forall i :: i in w.entries ==> EntryFrom(steps, w.entries[i]))
    && (forall t: nat :: ThreadFrom(steps, w, t))
    && (forall s :: s in w.served ==> s.entry in w.entries && AskedFor(steps, s.arrival, w.entries[s.entry].key))
  }

  lemma EntryKept(steps: seq<Step>, s: Step, e: Entry, e': Entry)
    requires EntryFrom(steps, e) && e'.(closed := e.closed) == e
    ensures EntryFrom(steps + [s], e')
  {
    assert forall i :: 0 <= i < |steps| ==> (steps + [s])[i] == steps[i];
  }

  /** No entry is ever removed or renamed, and only a publish changes what it holds. */
  ghost predicate EntriesStay(w: World, w': World) {
    forall i :: i in w.entries ==> i in w'.entries && w'.entries[i].(closed := w.entries[i].closed) == w.entries[i]
  }

  lemma QuietStepStays(w: World, s: Step)
    requires Enabled(w, s) && !s.Publish? && w.nextEntry !in w.entries
    ensures EntriesStay(w, Next(w, s))
    ensures forall i :: i in Next(w, s).entries && i !in w.entries ==> Next(w, s).entries[i].inFlight
  {
  }

  lemma QuietEntriesFrom(steps: seq<Step>, w: World, s: Step)
    requires Enabled(w, s) && !s.Publish? && w.nextEntry !in w.entries
    requires forall i :: i in w.entries ==> EntryFrom(steps, w.entries[i])
    ensures forall i :: i in Next(w, s).entries ==> EntryFrom(steps + [s], Next(w, s).entries[i])
  {
    var w' := Next(w, s);
    QuietStepStays(w, s);
    forall i | i in w'.entries ensures EntryFrom(steps + [s], w'.entries[i]) {
      if i in w.entries { EntryKept(steps, s, w.entries[i], w'.entries[i]); }
    }
  }

  lemma PublishEntriesFrom(steps: seq<Step>, w: World, s: Step)
    requires Enabled(w, s) && s.Publish? && w.steps == |steps|
    requires forall i :: i in w.entries ==> EntryFrom(steps, w.entries[i])
    ensures forall i :: i in Next(w, s).entries ==> EntryFrom(steps + [s], Next(w, s).entries[i])
  {
    var w', longer := Next(w, s), steps + [s];
    assert longer[|steps|] == s;
    forall i | i in w'.entries ensures EntryFrom(longer, w'.entries[i]) {
      if i != ThreadOf(w, s.t).entry { EntryKept(steps, s, w.entries[i], w'.entries[i]); }
    }
  }

  /** What every step does to the keys of entries. */
  ghost predicate KeysStay(w: World, w': World) {
    forall i :: i in w.entries ==> i in w'.entries && w'.entries[i].key == w.entries[i].key
  }

  lemma StepKeysStay(w: World, s: Step)
    requires Enabled(w, s) && w.nextEntry !in w.entries
    ensures KeysStay(w, Next(w, s))
  {
    if !s.Publish? { QuietStepStays(w, s); }
  }

  lemma AskedLonger(steps: seq<Step>, s: Step, a: Arrival, key: string)
    requires AskedFor(steps, a, key)
    ensures AskedFor(steps + [s], a, key) && (steps + [s])[a.step] == steps[a.step]
  {
  }

  /** The step of a thread: what it waits for or computes is what it asked for. */
  lemma ThreadStep(steps: seq<Step>, w: World, s: Step, t: nat)
    requires Inv(w) && Enabled(w, s) && ThreadFrom(steps, w, t) && w.steps == |steps| && w.nextEntry !in w.entries
    ensures ThreadFrom(steps + [s], Next(w, s), t)
  {
    var w', longer := Next(w, s), steps + [s];
    StepKeysStay(w, s);
    assert longer[|steps|] == s;
    if !ThreadOf(w, t).Idle? {
      AskedLonger(steps, s, ThreadOf(w, t).arrival, w.entries[ThreadOf(w, t).entry].key);
    }
    if s.Lookup? && s.t == t { LookupAsks(steps, w, s); }
  }

  lemma LookupAsks(steps: seq<Step>, w: World, s: Step)
    requires Inv(w) && Enabled(w, s) && s.Lookup? && w.steps == |steps| && w.nextEntry !in w.entries
    ensures ThreadFrom(steps + [s], Next(w, s), s.t)
    ensures |Next(w, s).served| > |w.served| ==>
      var x := Next(w, s).served[|w.served|]; x.entry in w.entries && AskedFor(steps + [s], x.arrival, w.entries[x.entry].key)
  {
    assert (steps + [s])[|steps|] == s;
  }

  lemma ServedStep(steps: seq<Step>, w: World, s: Step, x: Served)
    requires Inv(w) && Enabled(w, s) && Faithful(steps, w) && w.nextEntry !in w.entries && x in Next(w, s).served
    ensures x.entry in Next(w, s).entries && AskedFor(steps + [s], x.arrival, Next(w, s).entries[x.entry].key)
  {
    StepKeysStay(w, s);
    if x in w.served {
      AskedLonger(steps, s, x.arrival, w.entries[x.entry].key);
    } else if s.Lookup? {
      LookupAsks(steps, w, s);
    } else {
      assert s.Close? || s.Wake?;
      assert ThreadFrom(steps, w, s.t);
      AskedLonger(steps, s, ThreadOf(w, s.t).arrival, w.entries[ThreadOf(w, s.t).entry].key);
    }
  }

  lemma FaithfulStep(steps: seq<Step>, w: World, s: Step)
    requires Inv(w) && Faithful(steps, w) && Enabled(w, s) && w.nextEntry !in w.entries
    ensures Faithful(steps + [s], Next(w, s))
  {
    if s.Publish? { PublishEntriesFrom(steps, w, s); } else { QuietEntriesFrom(steps, w, s); }
    forall t: nat ensures ThreadFrom(steps + [s], Next(w, s), t) {
      assert ThreadFrom(steps, w, t);
      ThreadStep(steps, w, s, t);
    }
    forall x | x in Next(w, s).served
      ensures x.entry in Next(w, s).entries && AskedFor(steps + [s], x.arrival, Next(w, s).entries[x.entry].key)
    {
      ServedStep(steps, w, s, x);
    }
  }

  lemma NextIsNew(w: World)
    requires EntriesOk(w)
    ensures w.nextEntry !in w.entries
  {
    assert forall i :: i in w.entries ==> EntryOk(w, i);
  }

  lemma {:induction false} RunFaithful(steps: seq<Step>, w: World)
    requires Run(steps, w)
    ensures Faithful(steps, w)
    decreases |steps|
  {
    if steps != [] {
      var init, last := steps[..|steps| - 1], steps[|steps| - 1];
      var mid :| Run(init, mid) && Enabled(mid, last) && w == Next(mid, last);
      RunInv(init, mid);
      RunFaithful(init, mid);
      NextIsNew(mid);
      FaithfulStep(init, mid, last);
      assert steps == init + [last];
    }
  }

  /**
   In every interleaving each answer is exactly what one compute returned - its body and whether it failed - and
   that compute was for the key the request asked for.
   */
  lemma AnswersAreWhatWasComputed(steps: seq<Step>, w: World, s: Served)
    requires Run(steps, w) && s in w.served
    ensures s.entry in w.entries
    ensures var p := w.entries[s.entry].publishedStep;
            p < |steps| && steps[p].Publish? && steps[p].failed == s.failed && steps[p].body == s.body
    ensures AskedFor(steps, s.arrival, w.entries[s.entry].key)
  {
    RunInv(steps, w);
    RunFaithful(steps, w);
    assert ServedOk(w.entries, s);
    assert EntryFrom(steps, w.entries[s.entry]);
  }

  // ---------------------------------------------------------------- the same in the run's own terms

  function Elapsed(steps: seq<Step>): int {
    if steps == [] then 0
    else Elapsed(steps[..|steps| - 1]) + if steps[|steps| - 1].Tick? then steps[|steps| - 1].elapsed else 0
  }

  function Clears(steps: seq<Step>): nat {
    if steps == [] then 0 else Clears(steps[..|steps| - 1]) + if steps[|steps| - 1].Clear? then 1 else 0
  }

  /** How often prices were set. */
  function Settings(steps: seq<Step>): nat {
    if steps == [] then 0 else Settings(steps[..|steps| - 1]) + if steps[|steps| - 1].SetPrices? then 1 else 0
  }

  /** The step of the lookup that began the compute of e. */
  ghost predicate BegunAt(steps: seq<Step>, e: Entry, c: nat) {
    && c < |steps| && steps[c].Lookup? && steps[c].key == e.key && steps[c].ttl == e.ttl
    && e.epoch == Clears(steps[..c]) && e.began == Settings(steps[..c])
  }

  ghost predicate Dated(steps: seq<Step>, e: Entry) {
    && (exists c :: BegunAt(steps, e, c))
    && (!e.inFlight ==> e.publishedStep <= |steps| && e.publishedAt == Elapsed(steps[..e.publishedStep]))
  }

  ghost predicate ArrivalDated(steps: seq<Step>, a: Arrival) {
    a.step <= |steps| && a.epoch == Clears(steps[..a.step])
  }

  ghost predicate Clocked(steps: seq<Step>, w: World) {
    && w.steps == |steps| && w.now == Elapsed(steps) && w.price == Settings(steps) && w.epoch == Clears(steps)
    && (forall i :: i in w.entries ==> Dated(steps, w.entries[i]))
    && (forall t: nat :: ThreadOf(w, t).Idle? || ArrivalDated(steps, ThreadOf(w, t).arrival))
    && (forall s :: s in w.served ==> ArrivalDated(steps, s.arrival))
    && (forall s :: s in w.served && s.how.Hit? ==> s.at == Elapsed(steps[..s.arrival.step]))
  }

  lemma PrefixOfLonger(steps: seq<Step>, s: Step, k: nat)
    requires k <= |steps|
    ensures (steps + [s])[..k] == steps[..k]
  {
  }

  lemma ClocksSnoc(steps: seq<Step>, s: Step)
    ensures Elapsed(steps + [s]) == Elapsed(steps) + if s.Tick? then s.elapsed else 0
    ensures Clears(steps + [s]) == Clears(steps) + if s.Clear? then 1 else 0
    ensures Settings(steps + [s]) == Settings(steps) + if s.SetPrices? then 1 else 0
  {
    PrefixOfLonger(steps, s, |steps|);
    assert steps[..|steps|] == steps;
  }

  lemma DatedLonger(steps: seq<Step>, s: Step, e: Entry, e': Entry)
    requires Dated(steps, e) && e'.(closed := e.closed) == e
    ensures Dated(steps + [s], e')
  {
    var c :| BegunAt(steps, e, c);
    PrefixOfLonger(steps, s, c);
    assert BegunAt(steps + [s], e', c);
    if !e.inFlight { PrefixOfLonger(steps, s, e.publishedStep); }
  }

  lemma ArrivalDatedLonger(steps: seq<Step>, s: Step, a: Arrival)
    requires ArrivalDated(steps, a)
    ensures ArrivalDated(steps + [s], a) && (steps + [s])[..a.step] == steps[..a.step]
  {
    PrefixOfLonger(steps, s, a.step);
  }

  lemma PublishedDated(steps: seq<Step>, w: World, s: Step)
    requires Enabled(w, s) && s.Publish? && Clocked(steps, w)
    ensures var i := ThreadOf(w, s.t).entry; i in w.entries && Dated(steps + [s], Next(w, s).entries[i])
  {
    var e := w.entries[ThreadOf(w, s.t).entry];
    assert Dated(steps, e);
    var c :| BegunAt(steps, e, c);
    PrefixOfLonger(steps, s, c);
    PrefixOfLonger(steps, s, |steps|);
    assert steps[..|steps|] == steps;
    assert BegunAt(steps + [s], Next(w, s).entries[ThreadOf(w, s.t).entry], c);
  }

  lemma BegunDated(steps: seq<Step>, w: World, s: Step, i: nat)
    requires Enabled(w, s) && !s.Publish? && Clocked(steps, w) && i in Next(w, s).entries && i !in w.entries
    ensures Dated(steps + [s], Next(w, s).entries[i])
  {
    PrefixOfLonger(steps, s, |steps|);
    assert steps[..|steps|] == steps && (steps + [s])[|steps|] == s;
    assert BegunAt(steps + [s], Next(w, s).entries[i], |steps|);
  }

  lemma EntriesDated(steps: seq<Step>, w: World, s: Step)
    requires Enabled(w, s) && Clocked(steps, w) && w.nextEntry !in w.entries
    ensures forall i :: i in Next(w, s).entries ==> Dated(steps + [s], Next(w, s).entries[i])
  {
    if !s.Publish? { QuietStepStays(w, s); }
    forall i | i in Next(w, s).entries ensures Dated(steps + [s], Next(w, s).entries[i]) {
      if s.Publish? && i == ThreadOf(w, s.t).entry {
        PublishedDated(steps, w, s);
      } else if i in w.entries {
        DatedLonger(steps, s, w.entries[i], Next(w, s).entries[i]);
      } else {
        BegunDated(steps, w, s, i);
      }
    }
  }

  /** An arrival is dated by the step that made it. */
  lemma NowDated(steps: seq<Step>, w: World, s: Step)
    requires Clocked(steps, w)
    ensures ArrivalDated(steps + [s], Now(w)) && w.now == Elapsed((steps + [s])[..Now(w).step])
  {
    PrefixOfLonger(steps, s, |steps|);
    assert steps[..|steps|] == steps;
  }

  lemma ThreadsDated(steps: seq<Step>, w: World, s: Step, t: nat)
    requires Enabled(w, s) && Clocked(steps, w)
    ensures ThreadOf(Next(w, s), t).Idle? || ArrivalDated(steps + [s], ThreadOf(Next(w, s), t).arrival)
  {
    NowDated(steps, w, s);
    if !ThreadOf(w, t).Idle? { ArrivalDatedLonger(steps, s, ThreadOf(w, t).arrival); }
  }

  lemma ServedDated(steps: seq<Step>, w: World, s: Step, x: Served)
    requires Enabled(w, s) && Clocked(steps, w) && x in Next(w, s).served
    ensures ArrivalDated(steps + [s], x.arrival)
    ensures x.how.Hit? ==> x.at == Elapsed((steps + [s])[..x.arrival.step])
  {
    NowDated(steps, w, s);
    if x in w.served {
      ArrivalDatedLonger(steps, s, x.arrival);
    } else if !s.Lookup? {
      assert s.Close? || s.Wake?;
      ArrivalDatedLonger(steps, s, ThreadOf(w, s.t).arrival);
    }
  }

  lemma ClockedStep(steps: seq<Step>, w: World, s: Step)
    requires Enabled(w, s) && Clocked(steps, w) && w.nextEntry !in w.entries
    ensures Clocked(steps + [s], Next(w, s))
  {
    ClocksSnoc(steps, s);
    EntriesDated(steps, w, s);
    forall t: nat ensures ThreadOf(Next(w, s), t).Idle? || ArrivalDated(steps + [s], ThreadOf(Next(w, s), t).arrival) {
      ThreadsDated(steps, w, s, t);
    }
    forall x | x in Next(w, s).served
      ensures ArrivalDated(steps + [s], x.arrival) && (x.how.Hit? ==> x.at == Elapsed((steps + [s])[..x.arrival.step]))
    {
      ServedDated(steps, w, s, x);
    }
  }

  lemma {:induction false} RunClocked(steps: seq<Step>, w: World)
    requires Run(steps, w)
    ensures Clocked(steps, w)
    decreases |steps|
  {
    if steps != [] {
      var init, last := steps[..|steps| - 1], steps[|steps| - 1];
      var mid :| Run(init, mid) && Enabled(mid, last) && w == Next(mid, last);
      RunInv(init, mid);
      RunClocked(init, mid);
      NextIsNew(mid);
      ClockedStep(init, mid, last);
      assert steps == init + [last];
    }
  }

  lemma {:induction false} NoClearBetween(steps: seq<Step>, a: nat, b: nat, k: nat)
    requires a <= k < b <= |steps| && Clears(steps[..b]) <= Clears(steps[..a])
    ensures !steps[k].Clear?
    decreases b
  {
    var init := steps[..b - 1];
    assert steps[..b][..b - 1] == init && steps[..b][b - 1] == steps[b - 1];
    ClearsGrow(steps, a, b - 1);
    if k < b - 1 { NoClearBetween(steps, a, b - 1, k); }
  }

  lemma {:induction false} ClearsGrow(steps: seq<Step>, a: nat, b: nat)
    requires a <= b <= |steps|
    ensures Clears(steps[..a]) <= Clears(steps[..b])
    decreases b
  {
    if a < b {
      assert steps[..b][..b - 1] == steps[..b - 1];
      ClearsGrow(steps, a, b - 1);
    }
  }

  /**
   Between the lookup that began the compute behind an answer and the request answered there is no clear; and a hit
   was published for less than the time to live that lookup asked for before the request came.
   */
  lemma AnswersAreNeverOutlived(steps: seq<Step>, w: World, s: Served) returns (c: nat)
    requires Run(steps, w) && s in w.served
    ensures c < |steps| && steps[c].Lookup? && s.arrival.step < |steps| && steps[s.arrival.step].Lookup?
    ensures steps[c].key == steps[s.arrival.step].key
    ensures forall k :: c <= k < s.arrival.step ==> !steps[k].Clear?
    ensures s.entry in w.entries && w.entries[s.entry].publishedStep < |steps|
    ensures s.how.Hit? ==>
      Elapsed(steps[..s.arrival.step]) - Elapsed(steps[..w.entries[s.entry].publishedStep]) < steps[c].ttl
  {
    RunInv(steps, w);
    RunFaithful(steps, w);
    RunClocked(steps, w);
    assert ServedOk(w.entries, s) && EntryFrom(steps, w.entries[s.entry]);
    assert Dated(steps, w.entries[s.entry]) && ArrivalDated(steps, s.arrival);
    c :| BegunAt(steps, w.entries[s.entry], c);
    forall k | c <= k < s.arrival.step ensures !steps[k].Clear? {
      NoClearBetween(steps, c, s.arrival.step, k);
    }
  }

  // ---------------------------------------------------------------- every request can be answered

  /** Everyone but thread t is where they were. */
  predicate OthersStay(w: World, w': World, t: nat) {
    forall u: nat :: u in w.threads.Keys + w'.threads.Keys && u != t ==> ThreadOf(w', u) == ThreadOf(w, u)
  }

  /** A lookup either answers at once or leaves its caller computing or waiting; a close or a wake answers its caller. */
  lemma RequestsAreAnswered(w: World, s: Step)
    requires Inv(w) && Enabled(w, s)
    ensures var w' := Next(w, s);
            match s
            case Lookup(t, key, _) => OthersStay(w, w', t) &&
              if ThreadOf(w', t).Idle? then
                |w'.served| == |w.served| + 1 && w'.served[..|w.served|] == w.served
                && w'.served[|w.served|].how.Hit? && w'.served[|w.served|].arrival.step == w.steps
              else
                w'.served == w.served && ThreadOf(w', t).entry in w'.entries && w'.entries[ThreadOf(w', t).entry].key == key
                && (ThreadOf(w', t).Computing? || ThreadOf(w', t).Waiting?)
            case Publish(t, _, _, _) => OthersStay(w, w', t) && w'.served == w.served && ThreadOf(w', t).Closing?
            case Close(t) => OthersStay(w, w', t) && Answered(w, w', t)
            case Wake(t) => OthersStay(w, w', t) && Answered(w, w', t)
            case _ => w'.served == w.served && w'.threads == w.threads
  {
    if s.Lookup? && s.key in w.m { assert w.m[s.key] in w.entries; }
  }

  /** The thread is done, and its request has one more answer: what its entry holds. */
  predicate Answered(w: World, w': World, t: nat)
    requires !ThreadOf(w, t).Idle? && ThreadOf(w, t).entry in w.entries
  {
    var e := w.entries[ThreadOf(w, t).entry];
    && ThreadOf(w', t).Idle? && |w'.served| == |w.served| + 1 && w'.served[..|w.served|] == w.served
    && var s := w'.served[|w.served|];
       s.body == e.body && s.failed == e.failed && s.entry == ThreadOf(w, t).entry && s.arrival == ThreadOf(w, t).arrival
  }

  /** Somebody is computing or about to close every entry that is not closed. */
  ghost predicate Tended(w: World) {
    forall i :: i in w.entries && !w.entries[i].closed ==> exists t: nat :: Tends(w, t, i)
  }

  ghost predicate Tends(w: World, t: nat, i: nat) {
    (ThreadOf(w, t).Computing? || ThreadOf(w, t).Closing?) && ThreadOf(w, t).entry == i
  }

  lemma TendedStep(w: World, s: Step)
    requires Inv(w) && Enabled(w, s) && Tended(w) && w.nextEntry !in w.entries
    ensures Tended(Next(w, s))
  {
    var w' := Next(w, s);
    forall i | i in w'.entries && !w'.entries[i].closed ensures exists t: nat :: Tends(w', t, i) {
      if i in w.entries {
        assert !w.entries[i].closed;
        var t: nat :| Tends(w, t, i);
        assert Tends(w', t, i);
      } else {
        assert Tends(w', s.t, i);
      }
    }
  }

  lemma {:induction false} RunTended(steps: seq<Step>, w: World)
    requires Run(steps, w)
    ensures Tended(w)
    decreases |steps|
  {
    if steps != [] {
      var init, last := steps[..|steps| - 1], steps[|steps| - 1];
      var mid :| Run(init, mid) && Enabled(mid, last) && w == Next(mid, last);
      RunInv(init, mid);
      RunTended(init, mid);
      NextIsNew(mid);
      TendedStep(mid, last);
    }
  }

  /**
   In every interleaving nobody is stuck: a thread that computes can publish whatever comes of it, one that has
   published can close, and one that waits can wake or waits for a thread that can do one of these.
   */
  lemma NobodyIsStuck(steps: seq<Step>, w: World, t: nat, failed: bool, body: int, read: nat)
    requires Run(steps, w) && !ThreadOf(w, t).Idle?
    ensures ThreadOf(w, t).entry in w.entries
    ensures var e := w.entries[ThreadOf(w, t).entry];
            && (ThreadOf(w, t).Computing? && e.began <= read <= w.price ==> Enabled(w, Publish(t, failed, body, read)))
            && (ThreadOf(w, t).Closing? ==> Enabled(w, Close(t)))
            && (ThreadOf(w, t).Waiting? ==> Enabled(w, Wake(t)) || exists u: nat :: Tends(w, u, ThreadOf(w, t).entry))
  {
    RunInv(steps, w);
    RunTended(steps, w);
    assert ThreadOk(w, w.threads[t]);
  }

  /** A lookup joins a compute in flight, takes a success still fresh, and computes only otherwise. */
  lemma LookupUsesTheCache(w: World, t: nat, key: string, ttl: nat)
    requires Inv(w) && Enabled(w, Lookup(t, key, ttl))
    ensures var w' := Next(w, Lookup(t, key, ttl));
            if key !in w.m then ThreadOf(w', t).Computing?
            else
              w.m[key] in w.entries
              && var e := w.entries[w.m[key]];
                 if e.inFlight then ThreadOf(w', t).Waiting? && ThreadOf(w', t).entry == w.m[key]
                 else if w.now < e.publishedAt + e.ttl then
                   ThreadOf(w', t).Idle? && |w'.served| > |w.served| && w'.served[|w.served|].entry == w.m[key]
                   && w'.served[|w.served|].body == e.body && !w'.served[|w.served|].failed
                 else ThreadOf(w', t).Computing?
  {
    if key in w.m { assert EntryOk(w, w.m[key]); }
  }

  /** What a compute of the current generation returned is what the map holds for its key - or nothing, if it failed. */
  lemma PublishSettlesTheMap(w: World, t: nat, failed: bool, body: int, read: nat)
    requires Inv(w) && Enabled(w, Publish(t, failed, body, read))
    ensures var i := ThreadOf(w, t).entry;
            var e, w' := w.entries[i], Next(w, Publish(t, failed, body, read));
            && (forall k :: k != e.key ==> (k in w'.m <==> k in w.m) && (k in w.m ==> w'.m[k] == w.m[k]))
            && (e.epoch == w.epoch ==> if failed then e.key !in w'.m else e.key in w'.m && w'.m[e.key] == i)
            && (e.epoch != w.epoch ==> w'.m == w.m)
  {
    assert ThreadOk(w, w.threads[t]) && EntryOk(w, ThreadOf(w, t).entry);
  }
}
