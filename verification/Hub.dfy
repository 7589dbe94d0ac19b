/**
 The hub's side of one delivery: payload and receipt in a single transaction, replays answered from the
 receipt (internal/store/ingestv2.go).
 */
module Hubs {
  import opened Ingest
  import EventRows
  import EventStore
  import EventHistory
  import EventTallies
  import FastPaths
  import EventTables
  import Procs

  /** The primary key of quota_snapshots. */
  datatype QuotaKey = QuotaKey(device: string, source: string, limitID: string, scope: string, windowMinutes: int, observedAt: int)

  datatype Hub = Hub(
    events: EventStore.Table,
    quotas: map<QuotaKey, QuotaSnapshot>,
    live: Procs.Live,
    receipts: map<string, Ack>)

  const NEW_HUB := Hub(EventStore.Table(map[], map[]), map[], Procs.NO_LIVE, map[])

  datatype Error = ReceiptConflict | NoProcPayload | UnsupportedKind | StorageFailure

  datatype Reply = Reply(ack: Ack, replay: bool, mutated: bool)

  datatype Outcome = Outcome(hub: Hub, reply: Reply)

  function KeyOf(q: QuotaSnapshot): QuotaKey {
    QuotaKey(q.device, q.source, q.limitID, q.scope, q.windowMinutes, q.observedAt)
  }

  /** Two snapshots are one reading when device, source, limit, scope, window and time all agree. */
  lemma OneReadingIff(a: QuotaSnapshot, b: QuotaSnapshot)
    ensures KeyOf(a) == KeyOf(b) <==>
            && a.device == b.device && a.source == b.source && a.limitID == b.limitID && a.scope == b.scope
            && a.windowMinutes == b.windowMinutes && a.observedAt == b.observedAt
  {
  }

  datatype QuotaInsert = QuotaInsert(table: map<QuotaKey, QuotaSnapshot>, inserted: nat)

  /** INSERT OR IGNORE of each snapshot in turn. */
  function InsertQuotas(table: map<QuotaKey, QuotaSnapshot>, quotas: seq<QuotaSnapshot>): QuotaInsert {
    if quotas == [] then QuotaInsert(table, 0)
    else
      var init := InsertQuotas(table, quotas[..|quotas| - 1]);
      var q := quotas[|quotas| - 1];
      if KeyOf(q) in init.table then init else QuotaInsert(init.table[KeyOf(q) := q], init.inserted + 1)
  }

  ghost function KeysOf(quotas: seq<QuotaSnapshot>): set<QuotaKey> {
    if quotas == [] then {} else KeysOf(quotas[..|quotas| - 1]) + {KeyOf(quotas[|quotas| - 1])}
  }

  lemma KeysSnoc(quotas: seq<QuotaSnapshot>, q: QuotaSnapshot)
    ensures KeysOf(quotas + [q]) == KeysOf(quotas) + {KeyOf(q)}
  {
    assert (quotas + [q])[..|quotas|] == quotas;
  }

  lemma NewKeyCounts(keys: set<QuotaKey>, stored: set<QuotaKey>, k: QuotaKey)
    ensures |(keys + {k}) - stored| == |keys - stored| + if k in stored + keys then 0 else 1
  {
    if k in stored + keys {
      assert (keys + {k}) - stored == keys - stored;
    } else {
      assert (keys + {k}) - stored == (keys - stored) + {k};
    }
  }

  lemma {:induction false} QuotaKeysPresent(table: map<QuotaKey, QuotaSnapshot>, quotas: seq<QuotaSnapshot>)
    ensures InsertQuotas(table, quotas).table.Keys == table.Keys + KeysOf(quotas)
  {
    if quotas != [] {
      var n := |quotas| - 1;
      QuotaKeysPresent(table, quotas[..n]);
      assert quotas == quotas[..n] + [quotas[n]];
      KeysSnoc(quotas[..n], quotas[n]);
    }
  }

  lemma {:induction false} QuotaRowsKept(table: map<QuotaKey, QuotaSnapshot>, quotas: seq<QuotaSnapshot>)
    ensures forall k :: k in table ==>
      k in InsertQuotas(table, quotas).table && InsertQuotas(table, quotas).table[k] == table[k]
  {
    if quotas != [] {
      QuotaRowsKept(table, quotas[..|quotas| - 1]);
    }
  }

  ghost predicate CountIsRight(table: map<QuotaKey, QuotaSnapshot>, quotas: seq<QuotaSnapshot>) {
    InsertQuotas(table, quotas).inserted == |KeysOf(quotas) - table.Keys|
  }

  lemma {:induction false} QuotaCount(table: map<QuotaKey, QuotaSnapshot>, quotas: seq<QuotaSnapshot>)
    ensures CountIsRight(table, quotas)
  {
    if quotas == [] {
      NothingCounted(table);
    } else {
      var init, q := quotas[..|quotas| - 1], quotas[|quotas| - 1];
      QuotaCount(table, init);
      QuotaCountOne(table, init, q);
      assert init + [q] == quotas;
    }
  }

  lemma NothingCounted(table: map<QuotaKey, QuotaSnapshot>)
    ensures CountIsRight(table, [])
  {
    assert KeysOf([]) - table.Keys == {};
  }

  lemma InsertedOne(table: map<QuotaKey, QuotaSnapshot>, init: seq<QuotaSnapshot>, q: QuotaSnapshot)
    ensures InsertQuotas(table, init + [q]).inserted
         == InsertQuotas(table, init).inserted + if KeyOf(q) in table.Keys + KeysOf(init) then 0 else 1
  {
    assert (init + [q])[..|init|] == init;
    QuotaKeysPresent(table, init);
    assert KeyOf(q) in InsertQuotas(table, init).table <==> KeyOf(q) in table.Keys + KeysOf(init);
  }

  lemma CountOne(was: nat, now: nat, keys: set<QuotaKey>, more: set<QuotaKey>, stored: set<QuotaKey>, k: QuotaKey)
    requires was == |keys - stored| && more == keys + {k}
    requires now == was + if k in stored + keys then 0 else 1
    ensures now == |more - stored|
  {
    NewKeyCounts(keys, stored, k);
  }

  lemma QuotaCountOne(table: map<QuotaKey, QuotaSnapshot>, init: seq<QuotaSnapshot>, q: QuotaSnapshot)
    requires CountIsRight(table, init)
    ensures CountIsRight(table, init + [q])
  {
    InsertedOne(table, init, q);
    KeysSnoc(init, q);
    CountOne(InsertQuotas(table, init).inserted, InsertQuotas(table, init + [q]).inserted,
             KeysOf(init), KeysOf(init + [q]), table.Keys, KeyOf(q));
  }

  /** A stored snapshot is never overwritten, every key ends up present, and the count is that of the new keys. */
  lemma QuotasInsertIfAbsent(table: map<QuotaKey, QuotaSnapshot>, quotas: seq<QuotaSnapshot>)
    ensures var r := InsertQuotas(table, quotas);
            && r.table.Keys == table.Keys + KeysOf(quotas)
            && (forall k :: k in table ==> r.table[k] == table[k])
            && r.inserted == |KeysOf(quotas) - table.Keys|
  {
    QuotaKeysPresent(table, quotas);
    QuotaRowsKept(table, quotas);
    QuotaCount(table, quotas);
  }

  /** What a new key holds is the first snapshot sent under it. */
  ghost predicate FirstUnder(quotas: seq<QuotaSnapshot>, k: QuotaKey, q: QuotaSnapshot) {
    exists i :: 0 <= i < |quotas| && quotas[i] == q && KeyOf(q) == k && forall j :: 0 <= j < i ==> KeyOf(quotas[j]) != k
  }

  lemma {:induction false} QuotaRowsWereSent(table: map<QuotaKey, QuotaSnapshot>, quotas: seq<QuotaSnapshot>, k: QuotaKey)
    requires k in InsertQuotas(table, quotas).table && k !in table
    ensures FirstUnder(quotas, k, InsertQuotas(table, quotas).table[k])
  {
    var init, last := quotas[..|quotas| - 1], quotas[|quotas| - 1];
    var before := InsertQuotas(table, init).table;
    if k in before {
      QuotaRowsWereSent(table, init, k);
      var i :| 0 <= i < |init| && init[i] == before[k] && KeyOf(before[k]) == k && forall j :: 0 <= j < i ==> KeyOf(init[j]) != k;
      assert quotas[i] == before[k] && forall j :: 0 <= j < i ==> quotas[j] == init[j];
    } else {
      QuotaKeysPresent(table, init);
      forall j | 0 <= j < |init| ensures KeyOf(init[j]) != k { KeyListed(init, j); }
      assert quotas[|init|] == last && forall j :: 0 <= j < |init| ==> quotas[j] == init[j];
    }
  }

  lemma {:induction false} KeyListed(quotas: seq<QuotaSnapshot>, i: nat)
    requires i < |quotas|
    ensures KeyOf(quotas[i]) in KeysOf(quotas)
  {
    if i < |quotas| - 1 { KeyListed(quotas[..|quotas| - 1], i); }
  }

  ghost predicate Valid(h: Hub) {
    EventStore.Indexed(h.events) && forall b :: b in h.receipts ==> h.receipts[b].batchID == b
  }

  function FreshAck(env: Envelope, receivedAt: int, accepted: int, duplicates: int): Ack {
    Ack(env.protocolVersion, env.deviceID, env.batchID, env.sequence, accepted, duplicates, receivedAt)
  }

  /** The payload half of the transaction: new tables, accepted, duplicates, mutated. */
  datatype Payload = Payload(hub: Hub, accepted: int, duplicates: int, mutated: bool)

  datatype Counted = Counted(accepted: int, duplicates: int, mutated: bool)

  function CountsOf(p: Payload): Counted {
    Counted(p.accepted, p.duplicates, p.mutated)
  }

  function EventsPayload(h: Hub, env: Envelope): Payload
    requires Valid(h)
  {
    var s := FastPaths.Batch(h.events, env.events, EventRows.Self);
    Payload(h.(events := s.table), s.tally.inserted, |env.events| - s.tally.inserted, EventStore.Mutated(s.tally))
  }

  function QuotasPayload(h: Hub, env: Envelope): Payload {
    var q := InsertQuotas(h.quotas, env.quotas);
    Payload(h.(quotas := q.table), q.inserted, |env.quotas| - q.inserted, q.inserted > 0)
  }

  function ProcsPayload(h: Hub, report: ProcReport): Payload {
    var a := Procs.ApplyReport(h.live, report);
    Payload(h.(live := a.live), 1, 0, a.changed)
  }

  function ApplyPayload(h: Hub, env: Envelope): Result<Payload, Error>
    requires Valid(h)
  {
    match env.kind
    case Events => Ok(EventsPayload(h, env))
    case Quotas => Ok(QuotasPayload(h, env))
    case Procs => if env.procs.None? then Err(NoProcPayload) else Ok(ProcsPayload(h, env.procs.value))
    case OtherKind(_) => Err(UnsupportedKind)
  }

  function Apply(h: Hub, env: Envelope, receivedAt: int): Result<Outcome, Error>
    requires Valid(h)
  {
    if env.batchID in h.receipts then
      var receipt := h.receipts[env.batchID];
      if receipt.deviceID != env.deviceID then Err(ReceiptConflict)
      else Ok(Outcome(h, Reply(receipt, true, false)))
    else
      var p := ApplyPayload(h, env);
      if p.Err? then Err(p.error)
      else
        var ack := FreshAck(env, receivedAt, p.value.accepted, p.value.duplicates);
        Ok(Outcome(p.value.hub.(receipts := h.receipts[env.batchID := ack]), Reply(ack, false, p.value.mutated)))
  }

  lemma ApplyKeepsValid(h: Hub, env: Envelope, receivedAt: int)
    requires Valid(h) && Apply(h, env, receivedAt).Ok?
    ensures Valid(Apply(h, env, receivedAt).value.hub)
  {
  }

  /** A well-formed envelope is refused only over another device's receipt. */
  lemma WellFormedIsApplied(h: Hub, env: Envelope, receivedAt: int)
    requires Valid(h) && WellFormed(env)
    ensures Apply(h, env, receivedAt).Ok? <==>
            (env.batchID in h.receipts ==> h.receipts[env.batchID].deviceID == env.deviceID)
    ensures Apply(h, env, receivedAt).Err? ==> Apply(h, env, receivedAt).error == ReceiptConflict
  {
  }

  /** Re-sending a batch any number of times returns the first acknowledgement and touches no table. */
  lemma ReplayIsIdentical(h: Hub, env: Envelope, first: int, again: int)
    requires Valid(h) && Apply(h, env, first).Ok?
    ensures var o := Apply(h, env, first).value;
            && Valid(o.hub)
            && Apply(o.hub, env, again) == Ok(Outcome(o.hub, Reply(o.reply.ack, true, false)))
  {
    ApplyKeepsValid(h, env, first);
  }

  /** Which counts an acknowledgement carries: what was new and what was not, and together all that was sent. */
  ghost predicate CountsSay(h: Hub, env: Envelope, h': Hub, accepted: int, duplicates: int) {
    match env.kind
    case Events =>
      && accepted + duplicates == |env.events| && 0 <= accepted <= |env.events|
      && |h'.events.rows.Keys| <= |h.events.rows.Keys| + accepted
      && ((forall e :: e in env.events ==> e.dedupKey == "") ==>
           accepted == |EventHistory.IdsOf(env.events) - h.events.rows.Keys|)
    case Quotas => accepted + duplicates == |env.quotas| && accepted == |KeysOf(env.quotas) - h.quotas.Keys|
    case Procs => accepted == 1 && duplicates == 0
    case OtherKind(_) => false
  }

  /** A payload touches its own table only. */
  predicate OwnTableOnly(h: Hub, env: Envelope, h': Hub) {
    && (!env.kind.Events? ==> h'.events == h.events) && (!env.kind.Quotas? ==> h'.quotas == h.quotas)
    && (!env.kind.Procs? ==> h'.live == h.live)
  }

  /** A first acknowledgement names its envelope and counts what the payload did; without a mutation no table changed. */
  lemma AckSaysWhatHappened(h: Hub, env: Envelope, receivedAt: int)
    requires Valid(h) && env.batchID !in h.receipts && Apply(h, env, receivedAt).Ok?
    ensures var o := Apply(h, env, receivedAt).value;
            var ack := o.reply.ack;
            && ack.protocolVersion == env.protocolVersion && ack.deviceID == env.deviceID && ack.batchID == env.batchID
            && ack.ackSequence == env.sequence && ack.serverTime == receivedAt && !o.reply.replay
            && o.hub.receipts == h.receipts[env.batchID := ack]
            && CountsSay(h, env, o.hub, ack.accepted, ack.duplicates) && OwnTableOnly(h, env, o.hub)
            && (env.kind.Events? && !o.reply.mutated ==> o.hub.events == h.events)
            && (env.kind.Quotas? ==> (o.reply.mutated <==> ack.accepted > 0))
  {
    if env.kind.Events? {
      EventTallies.BatchTally(h.events, h.events.rows, env.events, EventRows.Self);
      if forall e :: e in env.events ==> e.dedupKey == "" {
        EventTallies.KeylessBatchInserts(h.events, env.events, EventRows.Self);
      }
      if !Apply(h, env, receivedAt).value.reply.mutated {
        EventTallies.QuietBatchChangesNothing(h.events, h.events.rows, env.events, EventRows.Self);
      }
    } else if env.kind.Quotas? {
      QuotaCount(h.quotas, env.quotas);
    }
  }

  class HubStore {
    const events: EventTables.EventTable
    const live: Procs.LiveTables
    var quotas: map<QuotaKey, QuotaSnapshot>
    var receipts: map<string, Ack>

    ghost function Contents(): Hub
      reads this, events, live
    {
      Hub(events.Contents(), quotas, live.Contents(), receipts)
    }

    constructor ()
      ensures Contents() == NEW_HUB && fresh(events) && fresh(live)
    {
      events := new EventTables.EventTable();
      live := new Procs.LiveTables();
      quotas, receipts := map[], map[];
    }

    method InsertQuotaRows(batch: seq<QuotaSnapshot>) returns (inserted: nat)
      modifies this`quotas
      ensures QuotaInsert(quotas, inserted) == InsertQuotas(old(quotas), batch)
    {
      inserted := 0;
      for i := 0 to |batch|
        invariant QuotaInsert(quotas, inserted) == InsertQuotas(old(quotas), batch[..i])
      {
        assert batch[..i + 1][..i] == batch[..i];
        var q := batch[i];
        if KeyOf(q) !in quotas {
          quotas := quotas[KeyOf(q) := q];
          inserted := inserted + 1;
        }
      }
      assert batch[..|batch|] == batch;
    }

    /** ApplyIngestV2. `commits` is false when the storage fails at any statement of the transaction. */
    method ApplyIngestV2(env: Envelope, receivedAt: int, commits: bool) returns (r: Result<Reply, Error>)
      requires Valid(Contents())
      modifies this, events, live
      ensures Valid(Contents())
      ensures r.Err? ==> Contents() == old(Contents())
      ensures r.Ok? ==> Apply(old(Contents()), env, receivedAt) == Ok(Outcome(Contents(), r.value))
      ensures commits ==> match Apply(old(Contents()), env, receivedAt)
                          case Ok(_) => r.Ok?
                          case Err(e) => r == Err(e)
    {
      if !commits {
        return Err(StorageFailure);
      }
      if env.batchID in receipts {
        var receipt := receipts[env.batchID];
        if receipt.deviceID != env.deviceID {
          return Err(ReceiptConflict);
        }
        return Ok(Reply(receipt, true, false));
      }
      var p := ApplyPayloadTx(env);
      if p.Err? {
        return Err(p.error);
      }
      var ack := FreshAck(env, receivedAt, p.value.accepted, p.value.duplicates);
      receipts := receipts[env.batchID := ack];
      return Ok(Reply(ack, false, p.value.mutated));
    }

    /** The switch on the payload kind. */
    method ApplyPayloadTx(env: Envelope) returns (r: Result<Counted, Error>)
      requires Valid(Contents())
      modifies this`quotas, events, live
      ensures match ApplyPayload(old(Contents()), env)
              case Ok(p) => r == Ok(CountsOf(p)) && Contents() == p.hub
              case Err(e) => r == Err(e) && Contents() == old(Contents())
    {
      match env.kind {
        case Events =>
          var counted := EventsTx(env);
          return Ok(counted);
        case Quotas =>
          var inserted := InsertQuotaRows(env.quotas);
          return Ok(Counted(inserted, |env.quotas| - inserted, inserted > 0));
        case Procs =>
          if env.procs.None? {
            return Err(NoProcPayload);
          }
          var counted := ProcsTx(env.procs.value);
          return Ok(counted);
        case OtherKind(_) =>
          return Err(UnsupportedKind);
      }
    }

    method EventsTx(env: Envelope) returns (counted: Counted)
      requires Valid(Contents())
      modifies events
      ensures var p := EventsPayload(old(Contents()), env); counted == CountsOf(p) && Contents() == p.hub
    {
      var tally := events.InsertEvents(env.events, EventRows.Self);
      return Counted(tally.inserted, |env.events| - tally.inserted, EventStore.Mutated(tally));
    }

    method ProcsTx(report: ProcReport) returns (counted: Counted)
      modifies live
      ensures var p := ProcsPayload(old(Contents()), report); counted == CountsOf(p) && Contents() == p.hub
    {
      var changed := live.Apply(report);
      return Counted(1, 0, changed);
    }
  }
}
