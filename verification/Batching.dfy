/**
 Turning one logical delivery of events into protocol-sized envelopes
 (internal/agent/agent.go, collapseRepeatedEventIDs, partitionEventEnvelopes, prepareEnvelope).
 */
module Batching {
  import opened Ingest

  /** What prepareEnvelope draws from the outside world on one call. */
  datatype Stamp = NoEntropy | Stamp(batchID: string, capturedAt: int)

  /**
   The agent's configuration and the parts of the JSON encoding that are not fixed here: `header` is the
   encoded length of everything but the sequence digits and the events array, `eventBytes` that of one event.
   */
  datatype Producer = Producer(
    deviceID: string,
    bootID: string,
    header: Envelope -> nat,
    eventBytes: Event -> nat,
    stamp: nat -> Stamp)

  datatype PartitionError = EntropyFailure | TooLarge

  // ---------------------------------------------------------------- encoded length

  function Digits(n: nat): nat {
    if n < 10 then 1 else 1 + Digits(n / 10)
  }

  function SumBytes(bytes: Event -> nat, events: seq<Event>): nat {
    if events == [] then 0 else SumBytes(bytes, events[..|events| - 1]) + bytes(events[|events| - 1])
  }

  /** The omitempty `"events":[e,...],` field. */
  function EventsBytes(bytes: Event -> nat, events: seq<Event>): nat {
    if events == [] then 0 else 12 + SumBytes(bytes, events) + |events| - 1
  }

  function EncodedBytes(p: Producer, env: Envelope): nat {
    p.header(env.(sequence := 0, events := [])) + Digits(env.sequence) + EventsBytes(p.eventBytes, env.events)
  }

  lemma {:induction false} DigitsMonotone(a: nat, b: nat)
    requires a <= b
    ensures Digits(a) <= Digits(b)
  {
    if 10 <= a {
      DigitsMonotone(a / 10, b / 10);
    }
  }

  /** An envelope sized with the widest sequence number fits whatever sequence it is given later. */
  lemma SequenceNeverGrows(p: Producer, env: Envelope, sequence: nat)
    requires sequence <= MAX_UINT64
    ensures EncodedBytes(p, env.(sequence := sequence)) <= EncodedBytes(p, env.(sequence := MAX_UINT64))
  {
    DigitsMonotone(sequence, MAX_UINT64);
    assert env.(sequence := sequence).(sequence := 0, events := [])
        == env.(sequence := MAX_UINT64).(sequence := 0, events := []);
  }

  lemma {:induction false} SumBytesSplit(bytes: Event -> nat, a: seq<Event>, b: seq<Event>)
    ensures SumBytes(bytes, a + b) == SumBytes(bytes, a) + SumBytes(bytes, b)
  {
    if b == [] {
      assert a + b == a;
    } else {
      var n := |b| - 1;
      assert (a + b)[..|a + b| - 1] == a + b[..n];
      SumBytesSplit(bytes, a, b[..n]);
    }
  }

  lemma SumBytesContains(bytes: Event -> nat, events: seq<Event>, e: Event)
    requires e in events
    ensures bytes(e) <= SumBytes(bytes, events)
  {
    var i :| 0 <= i < |events| && events[i] == e;
    assert events == events[..i] + ([e] + events[i + 1..]);
    SumBytesSplit(bytes, events[..i], [e] + events[i + 1..]);
    SumBytesSplit(bytes, [e], events[i + 1..]);
    assert SumBytes(bytes, [e]) == bytes(e);
  }

  // ---------------------------------------------------------------- repeated ids

  /** The first observation of each event id, in order. */
  function FirstWins(events: seq<Event>): seq<Event> {
    if events == [] then []
    else
      var init := FirstWins(events[..|events| - 1]);
      var last := events[|events| - 1];
      if exists e :: e in init && e.id == last.id then init else init + [last]
  }

  method CollapseRepeatedEventIDs(events: seq<Event>) returns (collapsed: seq<Event>)
    ensures collapsed == FirstWins(events)
  {
    var seen: set<string> := {};
    collapsed := [];
    for i := 0 to |events|
      invariant collapsed == FirstWins(events[..i])
      invariant forall id :: id in seen <==> exists e :: e in collapsed && e.id == id
    {
      assert events[..i + 1][..i] == events[..i];
      if events[i].id !in seen {
        seen := seen + {events[i].id};
        collapsed := collapsed + [events[i]];
      }
    }
    assert events[..|events|] == events;
  }

  /** kept is the subsequence of events at `positions`, each of them the first to carry its id. */
  ghost predicate Picks(events: seq<Event>, kept: seq<Event>, positions: seq<nat>) {
    && |positions| == |kept|
    && (forall k :: 0 <= k < |kept| ==>
         positions[k] < |events| && kept[k] == events[positions[k]] && !SeenBefore(events, positions[k]))
    && (forall j, k :: 0 <= j < k < |kept| ==> positions[j] < positions[k])
  }

  lemma {:induction false} CollapseKeepsIds(events: seq<Event>)
    ensures forall e :: e in events ==> exists k :: k in FirstWins(events) && k.id == e.id
    ensures |FirstWins(events)| <= |events|
    ensures events != [] ==> FirstWins(events) != []
  {
    if events != [] {
      var n := |events| - 1;
      CollapseKeepsIds(events[..n]);
      var init, last := FirstWins(events[..n]), events[n];
      forall e | e in events
        ensures exists k :: k in FirstWins(events) && k.id == e.id
      {
        if e in events[..n] {
          var k :| k in init && k.id == e.id;
          assert k in FirstWins(events);
        } else if !exists k :: k in init && k.id == last.id {
          assert last in FirstWins(events);
        }
      }
    }
  }

  lemma PicksExtend(init: seq<Event>, last: Event, kept: seq<Event>, positions: seq<nat>)
    requires Picks(init, kept, positions)
    ensures Picks(init + [last], kept, positions)
    ensures (forall e :: e in init ==> e.id != last.id) ==> Picks(init + [last], kept + [last], positions + [|init|])
  {
    var events := init + [last];
    forall k | 0 <= k < |kept|
      ensures kept[k] == events[positions[k]] && !SeenBefore(events, positions[k])
    {
      assert !SeenBefore(init, positions[k]);
    }
  }

  lemma {:induction false} CollapsePicks(events: seq<Event>) returns (positions: seq<nat>)
    ensures Picks(events, FirstWins(events), positions)
  {
    positions := [];
    if events != [] {
      var n := |events| - 1;
      var init, last := events[..n], events[n];
      assert events == init + [last];
      positions := CollapsePicks(init);
      CollapseKeepsIds(init);
      PicksExtend(init, last, FirstWins(init), positions);
      if FirstWins(events) != FirstWins(init) {
        positions := positions + [n];
      }
    }
  }

  lemma {:induction false} CollapseDistinct(events: seq<Event>)
    ensures DistinctIds(FirstWins(events))
  {
    if events != [] {
      CollapseDistinct(events[..|events| - 1]);
    }
  }

  /** Collapsing keeps, in order, exactly the first event of each id: every id once and no id lost. */
  lemma CollapseIsFirstWins(events: seq<Event>)
    ensures var kept := FirstWins(events);
            && DistinctIds(kept)
            && (exists positions :: Picks(events, kept, positions))
            && (forall e :: e in events ==> exists k :: k in kept && k.id == e.id)
  {
    CollapseDistinct(events);
    var positions := CollapsePicks(events);
    CollapseKeepsIds(events);
  }

  /** A delivery with no repeated id passes through unchanged. */
  lemma {:induction false} CollapseIdentity(events: seq<Event>)
    requires DistinctIds(events)
    ensures FirstWins(events) == events
  {
    if events != [] {
      CollapseIdentity(events[..|events| - 1]);
    }
  }

  // ---------------------------------------------------------------- partition

  function Prepared(p: Producer, events: seq<Event>, s: Stamp): Envelope
    requires s.Stamp?
  {
    Envelope(PROTOCOL_V2, p.deviceID, p.bootID, s.batchID, 0, s.capturedAt, Events, events, [], None)
  }

  /** The events encode within the limit under this stamp, even with the widest sequence. */
  predicate Fits(p: Producer, events: seq<Event>, s: Stamp)
    requires s.Stamp?
  {
    EncodedBytes(p, Prepared(p, events, s).(sequence := MAX_UINT64)) <= MAX_ENVELOPE_BYTES
  }

  datatype Parts = Parts(result: Result<seq<Envelope>, PartitionError>, next: nat)

  /** partitionEventEnvelopes, drawing one stamp per call starting with number `tick`. */
  function Partition(p: Producer, events: seq<Event>, tick: nat): (parts: Parts)
    ensures parts.next > tick
    decreases |events|
  {
    var s := p.stamp(tick);
    if s.NoEntropy? then Parts(Err(EntropyFailure), tick + 1)
    else if Fits(p, events, s) then Parts(Ok([Prepared(p, events, s)]), tick + 1)
    else if |events| <= 1 then Parts(Err(TooLarge), tick + 1)
    else
      var middle := |events| / 2;
      var left := Partition(p, events[..middle], tick + 1);
      if left.result.Err? then left
      else
        var right := Partition(p, events[middle..], left.next);
        if right.result.Err? then right
        else Parts(Ok(left.result.value + right.result.value), right.next)
  }

  function Joined(envs: seq<Envelope>): seq<Event> {
    if envs == [] then [] else Joined(envs[..|envs| - 1]) + envs[|envs| - 1].events
  }

  lemma {:induction false} JoinedSplit(a: seq<Envelope>, b: seq<Envelope>)
    ensures Joined(a + b) == Joined(a) + Joined(b)
  {
    if b == [] {
      assert a + b == a;
    } else {
      assert (a + b)[..|a + b| - 1] == a + b[..|b| - 1];
      JoinedSplit(a, b[..|b| - 1]);
    }
  }

  /** env was prepared with stamp number t and fits under any sequence. */
  predicate Chunk(p: Producer, env: Envelope, t: nat) {
    p.stamp(t).Stamp? && env == Prepared(p, env.events, p.stamp(t)) && Fits(p, env.events, p.stamp(t))
  }

  /** The chunks rejoin to the delivery, are non-empty, and each used a stamp of its own. */
  ghost predicate Splits(p: Producer, events: seq<Event>, envs: seq<Envelope>, from: nat, to: nat) {
    && Joined(envs) == events
    && (events != [] ==> forall env :: env in envs ==> env.events != [])
    && exists ticks: seq<nat> :: Ticks(p, envs, ticks, from, to)
  }

  ghost predicate Ticks(p: Producer, envs: seq<Envelope>, ticks: seq<nat>, from: nat, to: nat) {
    && |ticks| == |envs|
    && (forall i :: 0 <= i < |envs| ==> from <= ticks[i] < to && Chunk(p, envs[i], ticks[i]))
    && (forall i, j :: 0 <= i < j < |ticks| ==> ticks[i] < ticks[j])
  }

  lemma TicksJoin(p: Producer, a: seq<Envelope>, ta: seq<nat>, b: seq<Envelope>, tb: seq<nat>, from: nat, mid: nat, to: nat)
    requires Ticks(p, a, ta, from, mid) && Ticks(p, b, tb, mid, to) && from <= mid <= to
    ensures Ticks(p, a + b, ta + tb, from, to)
  {
    var envs, ticks := a + b, ta + tb;
    forall i | 0 <= i < |envs| ensures from <= ticks[i] < to && Chunk(p, envs[i], ticks[i]) {
      if i < |a| { assert ticks[i] == ta[i] && envs[i] == a[i]; } else { assert ticks[i] == tb[i - |a|] && envs[i] == b[i - |a|]; }
    }
    forall i, j | 0 <= i < j < |ticks| ensures ticks[i] < ticks[j] {
      if j < |a| { assert ta[i] < ta[j]; } else if i >= |a| { assert tb[i - |a|] < tb[j - |a|]; }
    }
  }

  lemma SplitsLeaf(p: Producer, events: seq<Event>, tick: nat)
    requires p.stamp(tick).Stamp? && Fits(p, events, p.stamp(tick))
    ensures Splits(p, events, [Prepared(p, events, p.stamp(tick))], tick, tick + 1)
  {
    var env := Prepared(p, events, p.stamp(tick));
    assert [env][..0] == [];
    assert Joined([env]) == events;
    assert Ticks(p, [env], [tick], tick, tick + 1);
  }

  lemma SplitsJoin(p: Producer, x: seq<Event>, a: seq<Envelope>, y: seq<Event>, b: seq<Envelope>, from: nat, mid: nat, to: nat)
    requires Splits(p, x, a, from, mid) && Splits(p, y, b, mid, to) && from <= mid <= to
    requires x != [] && y != []
    ensures Splits(p, x + y, a + b, from, to)
  {
    JoinedSplit(a, b);
    var ta :| Ticks(p, a, ta, from, mid);
    var tb :| Ticks(p, b, tb, mid, to);
    TicksJoin(p, a, ta, b, tb, from, mid, to);
  }

  lemma StepBack(p: Producer, events: seq<Event>, envs: seq<Envelope>, from: nat, to: nat)
    requires Splits(p, events, envs, from + 1, to)
    ensures Splits(p, events, envs, from, to)
  {
    var ticks :| Ticks(p, envs, ticks, from + 1, to);
    assert Ticks(p, envs, ticks, from, to);
  }

  lemma SplitsHalves(p: Producer, events: seq<Event>, middle: nat, a: seq<Envelope>, b: seq<Envelope>, tick: nat, mid: nat, to: nat)
    requires 0 < middle < |events| && tick < mid <= to
    requires Splits(p, events[..middle], a, tick + 1, mid) && Splits(p, events[middle..], b, mid, to)
    ensures Splits(p, events, a + b, tick, to)
  {
    SplitsJoin(p, events[..middle], a, events[middle..], b, tick + 1, mid, to);
    HalvesJoin(events, middle);
    StepBack(p, events, a + b, tick, to);
  }

  lemma HalvesJoin(events: seq<Event>, middle: nat)
    requires middle <= |events|
    ensures events[..middle] + events[middle..] == events
  {
  }

  /** Whatever the partition returns is the same delivery in chunks that fit. */
  lemma {:induction false} PartitionSound(p: Producer, events: seq<Event>, tick: nat)
    ensures var parts := Partition(p, events, tick);
            parts.result.Ok? ==> Splits(p, events, parts.result.value, tick, parts.next)
    decreases |events|
  {
    var s := p.stamp(tick);
    if s.Stamp? && Fits(p, events, s) {
      SplitsLeaf(p, events, tick);
    } else if s.Stamp? && |events| > 1 {
      var middle := |events| / 2;
      var left := Partition(p, events[..middle], tick + 1);
      PartitionSound(p, events[..middle], tick + 1);
      PartitionSound(p, events[middle..], left.next);
      if Partition(p, events, tick).result.Ok? {
        var right := Partition(p, events[middle..], left.next);
        SplitsHalves(p, events, middle, left.result.value, right.result.value, tick, left.next, right.next);
      }
    }
  }

  predicate TooLargeAlone(p: Producer, e: Event, t: nat) {
    p.stamp(t).Stamp? && !Fits(p, [e], p.stamp(t))
  }

  /** Fewer events never encode longer. */
  lemma ContainedFits(p: Producer, events: seq<Event>, e: Event, s: Stamp)
    requires s.Stamp? && e in events && Fits(p, events, s)
    ensures Fits(p, [e], s)
  {
    SumBytesContains(p.eventBytes, events, e);
    assert Prepared(p, events, s).(sequence := MAX_UINT64).(sequence := 0, events := [])
        == Prepared(p, [e], s).(sequence := MAX_UINT64).(sequence := 0, events := []);
    assert [e][..0] == [];
    assert SumBytes(p.eventBytes, [e]) == p.eventBytes(e);
    assert EventsBytes(p.eventBytes, [e]) <= EventsBytes(p.eventBytes, events);
  }

  /** Splitting gives up only on an event that is too large alone. */
  lemma {:induction false} TooLargeNamesAnEvent(p: Producer, events: seq<Event>, tick: nat)
    requires events != [] && Partition(p, events, tick).result == Err(TooLarge)
    ensures exists e, t: nat :: e in events && TooLargeAlone(p, e, t)
    decreases |events|
  {
    var s := p.stamp(tick);
    if |events| == 1 {
      assert events == [events[0]];
      assert TooLargeAlone(p, events[0], tick);
    } else {
      var middle := |events| / 2;
      var left := Partition(p, events[..middle], tick + 1);
      if left.result.Err? {
        TooLargeNamesAnEvent(p, events[..middle], tick + 1);
      } else {
        TooLargeNamesAnEvent(p, events[middle..], left.next);
      }
    }
  }

  /** One event that never fits alone fails the whole delivery, wherever it stands. */
  lemma {:induction false} OversizedEventFailsAll(p: Producer, events: seq<Event>, tick: nat, e: Event)
    requires e in events
    requires forall t: nat :: p.stamp(t).Stamp? ==> TooLargeAlone(p, e, t)
    ensures Partition(p, events, tick).result.Err?
    decreases |events|
  {
    var s := p.stamp(tick);
    if s.Stamp? {
      if Fits(p, events, s) { ContainedFits(p, events, e, s); }
      if |events| > 1 {
        var middle := |events| / 2;
        assert events == events[..middle] + events[middle..];
        if e in events[..middle] {
          OversizedEventFailsAll(p, events[..middle], tick + 1, e);
        } else {
          OversizedEventFailsAll(p, events[middle..], Partition(p, events[..middle], tick + 1).next, e);
        }
      }
    }
  }

  /** Entropy never fails and the length of the encoding does not depend on which stamp is drawn. */
  ghost predicate UniformStamps(p: Producer) {
    && (forall t: nat :: p.stamp(t).Stamp?)
    && forall e, t: nat :: TooLargeAlone(p, e, t) == TooLargeAlone(p, e, 0)
  }

  /** What the encoded length is: a header, the digits of the sequence, and the events with a comma between two. */
  lemma EventsEncode(bytes: Event -> nat, events: seq<Event>, e: Event)
    ensures EventsBytes(bytes, []) == 0
    ensures EventsBytes(bytes, events + [e]) == EventsBytes(bytes, events) + bytes(e) + if events == [] then 12 else 1
  {
    assert (events + [e])[..|events|] == events;
  }

  function PowerOfTen(k: nat): nat {
    if k == 0 then 1 else 10 * PowerOfTen(k - 1)
  }

  lemma {:induction false} DigitsAreDecimal(n: nat)
    ensures Digits(n) > 0 && n < PowerOfTen(Digits(n))
    ensures n > 0 ==> PowerOfTen(Digits(n) - 1) <= n
  {
    if n >= 10 { DigitsAreDecimal(n / 10); }
  }

  /** A delivery that fits is sent as one envelope, with everything in it; it is divided only when it must be. */
  lemma OneEnvelopeWhenItFits(p: Producer, events: seq<Event>, tick: nat)
    requires p.stamp(tick).Stamp?
    ensures var s := p.stamp(tick);
            var env := Envelope(PROTOCOL_V2, p.deviceID, p.bootID, s.batchID, 0, s.capturedAt, Events, events, [], None);
            EncodedBytes(p, env.(sequence := MAX_UINT64)) <= MAX_ENVELOPE_BYTES <==>
              Partition(p, events, tick).result == Ok([env])
  {
    if Partition(p, events, tick).result.Ok? { PartitionSound(p, events, tick); }
    var s := p.stamp(tick);
    if !Fits(p, events, s) && |events| > 1 {
      TwoHalvesAreTwo(p, events, tick);
    }
  }

  lemma {:induction false} SomeEnvelope(p: Producer, events: seq<Event>, tick: nat)
    requires Partition(p, events, tick).result.Ok?
    ensures |Partition(p, events, tick).result.value| >= 1
    decreases |events|
  {
    var s := p.stamp(tick);
    if !Fits(p, events, s) {
      var middle := |events| / 2;
      SomeEnvelope(p, events[..middle], tick + 1);
    }
  }

  lemma TwoHalvesAreTwo(p: Producer, events: seq<Event>, tick: nat)
    requires p.stamp(tick).Stamp? && !Fits(p, events, p.stamp(tick)) && |events| > 1
    ensures Partition(p, events, tick).result.Ok? ==> |Partition(p, events, tick).result.value| >= 2
  {
    if Partition(p, events, tick).result.Ok? {
      var middle := |events| / 2;
      SomeEnvelope(p, events[..middle], tick + 1);
      SomeEnvelope(p, events[middle..], Partition(p, events[..middle], tick + 1).next);
    }
  }

  /** With uniform stamps, the partition fails exactly when some event cannot fit alone. */
  lemma PartitionFailsIffOversized(p: Producer, events: seq<Event>, tick: nat)
    requires UniformStamps(p) && events != []
    ensures Partition(p, events, tick).result.Err? <==> exists e :: e in events && TooLargeAlone(p, e, 0)
  {
    if Partition(p, events, tick).result.Err? {
      OversizedEvent(p, events, tick);
    }
    if e :| e in events && TooLargeAlone(p, e, 0) {
      OversizedEventFailsAll(p, events, tick, e);
    }
  }

  lemma OversizedEvent(p: Producer, events: seq<Event>, tick: nat)
    requires UniformStamps(p) && events != [] && Partition(p, events, tick).result.Err?
    ensures exists e :: e in events && TooLargeAlone(p, e, 0)
  {
    NeverEntropyFailure(p, events, tick);
    match Partition(p, events, tick).result.error
    case EntropyFailure => assert false;
    case TooLarge =>
    TooLargeNamesAnEvent(p, events, tick);
    var e, t: nat :| e in events && TooLargeAlone(p, e, t);
    assert TooLargeAlone(p, e, 0);
  }

  lemma {:induction false} NeverEntropyFailure(p: Producer, events: seq<Event>, tick: nat)
    requires forall t: nat :: p.stamp(t).Stamp?
    ensures Partition(p, events, tick).result != Err(EntropyFailure)
    decreases |events|
  {
    if |events| > 1 {
      var middle := |events| / 2;
      NeverEntropyFailure(p, events[..middle], tick + 1);
      NeverEntropyFailure(p, events[middle..], Partition(p, events[..middle], tick + 1).next);
    }
  }

  // ---------------------------------------------------------------- every chunk is acceptable to the hub

  predicate GoodStamp(s: Stamp) {
    s.Stamp? && IsUUID(s.batchID) && 0 < s.capturedAt <= MAX_CAPTURED_AT
  }

  lemma {:induction false} JoinedContains(envs: seq<Envelope>)
    ensures forall env, e :: env in envs && e in env.events ==> e in Joined(envs)
    ensures forall e :: e in Joined(envs) ==> exists env :: env in envs && e in env.events
    ensures forall env :: env in envs ==> |env.events| <= |Joined(envs)|
    ensures DistinctIds(Joined(envs)) ==> forall env :: env in envs ==> DistinctIds(env.events)
  {
    if envs != [] {
      JoinedContains(envs[..|envs| - 1]);
      if DistinctIds(Joined(envs)) {
        JoinedDistinct(Joined(envs[..|envs| - 1]), envs[|envs| - 1].events);
      }
      assert envs == envs[..|envs| - 1] + [envs[|envs| - 1]];
    }
  }

  lemma JoinedDistinct(a: seq<Event>, b: seq<Event>)
    requires DistinctIds(a + b)
    ensures DistinctIds(a) && DistinctIds(b)
  {
    forall i, j | 0 <= i < j < |a| ensures a[i].id != a[j].id {
      assert (a + b)[i] == a[i] && (a + b)[j] == a[j];
    }
    forall i, j | 0 <= i < j < |b| ensures b[i].id != b[j].id {
      assert (a + b)[|a| + i] == b[i] && (a + b)[|a| + j] == b[j];
    }
  }

  lemma StampOf(p: Producer, events: seq<Event>, envs: seq<Envelope>, from: nat, to: nat, env: Envelope) returns (t: nat)
    requires Splits(p, events, envs, from, to) && env in envs
    ensures Chunk(p, env, t)
  {
    var ticks :| Ticks(p, envs, ticks, from, to);
    var i :| 0 <= i < |envs| && envs[i] == env;
    t := ticks[i];
  }

  lemma ChunkWellFormed(p: Producer, env: Envelope, t: nat)
    requires IsUUID(p.deviceID) && IsUUID(p.bootID) && GoodStamp(p.stamp(t)) && Chunk(p, env, t)
    requires 0 < |env.events| <= MAX_BATCH_EVENTS && DistinctIds(env.events)
    ensures WellFormed(env) <==> forall e :: e in env.events ==> e.id != "" && e.device == p.deviceID
  {
  }

  /**
   A collapsed non-empty delivery of at most 2000 events: all its chunks are well formed for the hub
   exactly when every event carries an id and names the enrolled device.
   */
  lemma ChunksWellFormed(p: Producer, events: seq<Event>, tick: nat)
    requires IsUUID(p.deviceID) && IsUUID(p.bootID) && forall t: nat :: GoodStamp(p.stamp(t))
    requires 0 < |events| <= MAX_BATCH_EVENTS && Partition(p, FirstWins(events), tick).result.Ok?
    ensures (forall env :: env in Partition(p, FirstWins(events), tick).result.value ==> WellFormed(env)) <==>
            (forall e :: e in FirstWins(events) ==> e.id != "" && e.device == p.deviceID)
  {
    var kept := FirstWins(events);
    var parts := Partition(p, kept, tick);
    var envs := parts.result.value;
    CollapseDistinct(events);
    CollapseKeepsIds(events);
    PartitionSound(p, kept, tick);
    JoinedContains(envs);
    forall env | env in envs
      ensures WellFormed(env) <==> forall e :: e in env.events ==> e.id != "" && e.device == p.deviceID
    {
      var t := StampOf(p, kept, envs, tick, parts.next, env);
      ChunkWellFormed(p, env, t);
    }
    if forall env :: env in envs ==> WellFormed(env) {
      forall e | e in kept
        ensures e.id != "" && e.device == p.deviceID
      {
        var env :| env in envs && e in env.events;
      }
    }
  }

  /** Distinct stamps give the chunks distinct batch ids. */
  lemma ChunksDistinct(p: Producer, events: seq<Event>, tick: nat)
    requires forall t: nat, u: nat :: t != u && p.stamp(t).Stamp? && p.stamp(u).Stamp? ==> p.stamp(t).batchID != p.stamp(u).batchID
    requires Partition(p, events, tick).result.Ok?
    ensures var envs := Partition(p, events, tick).result.value;
            forall i, j :: 0 <= i < j < |envs| ==> envs[i].batchID != envs[j].batchID
  {
    PartitionSound(p, events, tick);
    var parts := Partition(p, events, tick);
    var ticks :| Ticks(p, parts.result.value, ticks, tick, parts.next);
  }
}
