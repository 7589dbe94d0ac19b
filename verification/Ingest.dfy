/**
 Wire types of the v2 ingest protocol and the validator that agent and hub share
 (internal/model/ingest.go, internal/model/event.go, internal/model/procs.go, internal/model/quota.go).
 */
module Ingest {

  datatype Option<+T> = None | Some(value: T)

  datatype Result<+T, +E> = Ok(value: T) | Err(error: E)

  const PROTOCOL_V2: int := 2
  const MAX_BATCH_EVENTS: nat := 2000
  const MAX_ENVELOPE_BYTES: nat := 16777216
  const MAX_CAPTURED_AT: int := 253402300799999
  const MAX_UINT64: nat := 0xFFFF_FFFF_FFFF_FFFF

  /** Billing evidence (internal/model/provider.go): the known labels, and any other self-declared name. */
  datatype Provider =
    | NoLabel | Unknown | Bedrock | Vertex | Anthropic | OpenAI
    | AnthropicOAuth | AnthropicAPI | OpenAIChatGPT | OpenAIAPI | Relay | Declared(name: string)

  datatype Source = NoSource | Proxy | ClaudeCode | Codex | Dsh | OtherSource(name: string)

  /** The columns that are summed into usage totals; nothing may rewrite them once stored. */
  datatype Counts = Counts(input: int, output: int, cacheRead: int, cacheCreation: int, cache1h: int, cache5m: int)

  /** The text columns only a log line can supply. */
  datatype Context = Context(sessionID: string, cwd: string, repo: string, gitBranch: string, appVersion: string)

  datatype Event = Event(
    id: string,
    dedupKey: string,
    ts: int,
    device: string,
    source: Source,
    model: string,
    provider: Provider,
    counts: Counts,
    durationMS: int,
    genMS: int,
    ttftMS: int,
    context: Context)

  datatype QuotaSnapshot = QuotaSnapshot(
    device: string,
    source: string,
    limitID: string,
    scope: string,
    windowMinutes: int,
    observedAt: int,
    usedPercent: real,
    resetsAt: int,
    planType: string)

  datatype ProcSession = ProcSession(pid: int, source: string, startedAt: int)

  datatype ProcReport = ProcReport(device: string, observedAt: int, sessions: seq<ProcSession>)

  datatype Kind = Events | Quotas | Procs | OtherKind(name: string)

  datatype Envelope = Envelope(
    protocolVersion: int,
    deviceID: string,
    bootID: string,
    batchID: string,
    sequence: nat,
    capturedAt: int,
    kind: Kind,
    events: seq<Event>,
    quotas: seq<QuotaSnapshot>,
    procs: Option<ProcReport>)

  datatype Ack = Ack(
    protocolVersion: int,
    deviceID: string,
    batchID: string,
    ackSequence: nat,
    accepted: int,
    duplicates: int,
    serverTime: int)

  datatype Code =
    | ProtocolVersion | BatchID | DeviceID | BootID | CapturedAt | BatchTooLarge
    | EventID | DuplicateEventID | EventDeviceMismatch | InvalidKind
    | MissingEvents | MissingQuotas | MissingProcs
    | UnexpectedEvents | UnexpectedQuotas | UnexpectedProcs
    | QuotaDeviceMismatch | ProcDeviceMismatch | ProcObservedAt

  datatype Rejection = Rejection(code: Code, index: Option<nat>, eventID: string)

  // ---------------------------------------------------------------- identifiers

  predicate HexDigit(c: char) {
    '0' <= c <= '9' || 'a' <= c <= 'f'
  }

  predicate DashAt(i: int) {
    i == 8 || i == 13 || i == 18 || i == 23
  }

  /** The nil UUID: every hexadecimal digit is zero. */
  predicate AllZero(value: string) {
    forall i :: 0 <= i < |value| && !DashAt(i) ==> value[i] == '0'
  }

  /** The lowercase text form of section 4 of RFC 9562, excluding the nil UUID. */
  predicate IsUUID(value: string) {
    && |value| == 36
    && (forall i :: 0 <= i < 36 ==> if DashAt(i) then value[i] == '-' else HexDigit(value[i]))
    && !AllZero(value)
  }

  const HYPHENS: set<int> := {8, 13, 18, 23}
  const LOWER_HEX: string := "0123456789abcdef"

  /** Thirty-six characters: hyphens at the four places, lower-case hexadecimal digits elsewhere, and not all of them zero. */
  lemma UUIDIff(value: string)
    ensures IsUUID(value) <==>
            && |value| == 36
            && (forall i :: 0 <= i < 36 ==> if i in HYPHENS then value[i] == '-' else value[i] in LOWER_HEX)
            && exists i :: 0 <= i < 36 && i !in HYPHENS && value[i] != '0'
  {
    if |value| == 36 {
      forall i | 0 <= i < 36 ensures HexDigit(value[i]) <==> value[i] in LOWER_HEX { LowerHex(value[i]); }
      forall i | 0 <= i < 36 ensures DashAt(i) <==> i in HYPHENS { }
    }
  }

  lemma LowerHex(c: char)
    ensures HexDigit(c) <==> c in LOWER_HEX
  {
    assert LOWER_HEX == ['0', '1', '2', '3', '4', '5', '6', '7', '8', '9', 'a', 'b', 'c', 'd', 'e', 'f'];
  }

  method ValidUUID(value: string) returns (valid: bool)
    ensures valid <==> IsUUID(value)
  {
    if |value| != 36 {
      return false;
    }
    var i := 0;
    while i < |value|
      invariant 0 <= i <= 36
      invariant forall j :: 0 <= j < i ==> if DashAt(j) then value[j] == '-' else HexDigit(value[j])
    {
      if DashAt(i) {
        if value[i] != '-' { return false; }
      } else if !HexDigit(value[i]) {
        return false;
      }
      i := i + 1;
    }
    return !AllZero(value);
  }

  // ---------------------------------------------------------------- validation

  function Plain(code: Code): Rejection {
    Rejection(code, None, "")
  }

  function When(b: bool, r: Rejection): seq<Rejection> {
    if b then [r] else []
  }

  predicate SeenBefore(events: seq<Event>, i: nat)
    requires i < |events|
  {
    exists j :: 0 <= j < i && events[j].id == events[i].id
  }

  /** What the validator reports about the event at position i. */
  function RecordRejections(env: Envelope, i: nat): seq<Rejection>
    requires i < |env.events|
  {
    var e := env.events[i];
    When(e.id == "", Rejection(EventID, Some(i), "")) +
    When(e.id != "" && SeenBefore(env.events, i), Rejection(DuplicateEventID, Some(i), e.id)) +
    When(IsUUID(env.deviceID) && e.device != env.deviceID, Rejection(EventDeviceMismatch, Some(i), e.id))
  }

  function Joined(parts: seq<seq<Rejection>>): seq<Rejection> {
    if parts == [] then [] else Joined(parts[..|parts| - 1]) + parts[|parts| - 1]
  }

  function EventParts(env: Envelope): (parts: seq<seq<Rejection>>)
    ensures |parts| == |env.events|
    ensures forall i :: 0 <= i < |parts| ==> parts[i] == RecordRejections(env, i)
  {
    seq(|env.events|, i requires 0 <= i < |env.events| => RecordRejections(env, i))
  }

  function QuotaParts(env: Envelope): (parts: seq<seq<Rejection>>)
    ensures |parts| == |env.quotas|
    ensures forall i :: 0 <= i < |parts| ==>
      parts[i] == When(env.quotas[i].device != env.deviceID, Rejection(QuotaDeviceMismatch, Some(i), ""))
  {
    seq(|env.quotas|, i requires 0 <= i < |env.quotas| =>
      When(env.quotas[i].device != env.deviceID, Rejection(QuotaDeviceMismatch, Some(i), "")))
  }

  function HeaderRejections(env: Envelope): seq<Rejection> {
    When(env.protocolVersion != PROTOCOL_V2, Plain(ProtocolVersion)) +
    When(!IsUUID(env.deviceID), Plain(DeviceID)) +
    When(!IsUUID(env.bootID), Plain(BootID)) +
    When(!IsUUID(env.batchID), Plain(BatchID)) +
    When(env.capturedAt <= 0 || env.capturedAt > MAX_CAPTURED_AT, Plain(CapturedAt))
  }

  function PayloadRejections(env: Envelope): seq<Rejection> {
    match env.kind
    case Events =>
      When(|env.events| == 0, Plain(MissingEvents)) +
      When(|env.quotas| > 0, Plain(UnexpectedQuotas)) +
      When(env.procs.Some?, Plain(UnexpectedProcs)) +
      When(|env.events| > MAX_BATCH_EVENTS, Plain(BatchTooLarge)) +
      Joined(EventParts(env))
    case Quotas =>
      When(|env.quotas| == 0, Plain(MissingQuotas)) +
      When(|env.events| > 0, Plain(UnexpectedEvents)) +
      When(env.procs.Some?, Plain(UnexpectedProcs)) +
      (if IsUUID(env.deviceID) then Joined(QuotaParts(env)) else [])
    case Procs =>
      When(env.procs.None?, Plain(MissingProcs)) +
      When(|env.events| > 0, Plain(UnexpectedEvents)) +
      When(|env.quotas| > 0, Plain(UnexpectedQuotas)) +
      When(IsUUID(env.deviceID) && env.procs.Some? && env.procs.value.device != env.deviceID, Plain(ProcDeviceMismatch)) +
      When(env.procs.Some? && env.procs.value.observedAt <= 0, Plain(ProcObservedAt))
    case OtherKind(_) => [Plain(InvalidKind)]
  }

  /** Every rejection, in envelope-then-event order. */
  function Rejections(env: Envelope): seq<Rejection> {
    HeaderRejections(env) + PayloadRejections(env)
  }

  lemma JoinedSnoc(parts: seq<seq<Rejection>>, more: seq<seq<Rejection>>, last: seq<Rejection>)
    requires more == parts + [last]
    ensures Joined(more) == Joined(parts) + last
  {
    assert more[..|more| - 1] == parts;
  }

  /** ValidateIngestEnvelope: the `seen` map and the growing rejection list, against the positional specification. */
  method ValidateIngestEnvelope(env: Envelope) returns (rejected: seq<Rejection>)
    ensures rejected == Rejections(env)
  {
    var header, deviceValid := ValidateHeader(env);
    var payload;
    match env.kind {
      case Events =>
        payload := ValidateEvents(env, deviceValid);
      case Quotas =>
        payload := ValidateQuotas(env, deviceValid);
      case Procs =>
        payload := When(env.procs.None?, Plain(MissingProcs)) +
        When(|env.events| > 0, Plain(UnexpectedEvents)) +
        When(|env.quotas| > 0, Plain(UnexpectedQuotas)) +
        When(deviceValid && env.procs.Some? && env.procs.value.device != env.deviceID, Plain(ProcDeviceMismatch)) +
        When(env.procs.Some? && env.procs.value.observedAt <= 0, Plain(ProcObservedAt));
      case OtherKind(_) =>
        payload := [Plain(InvalidKind)];
    }
    rejected := header + payload;
  }

  method ValidateHeader(env: Envelope) returns (rejected: seq<Rejection>, deviceValid: bool)
    ensures rejected == HeaderRejections(env)
    ensures deviceValid == IsUUID(env.deviceID)
  {
    deviceValid := ValidUUID(env.deviceID);
    var bootValid := ValidUUID(env.bootID);
    var batchValid := ValidUUID(env.batchID);
    rejected := When(env.protocolVersion != PROTOCOL_V2, Plain(ProtocolVersion)) +
    When(!deviceValid, Plain(DeviceID)) +
    When(!bootValid, Plain(BootID)) +
    When(!batchValid, Plain(BatchID)) +
    When(env.capturedAt <= 0 || env.capturedAt > MAX_CAPTURED_AT, Plain(CapturedAt));
  }

  method ValidateQuotas(env: Envelope, deviceValid: bool) returns (rejected: seq<Rejection>)
    requires env.kind.Quotas? && deviceValid == IsUUID(env.deviceID)
    ensures rejected == PayloadRejections(env)
  {
    rejected := When(|env.quotas| == 0, Plain(MissingQuotas)) +
    When(|env.events| > 0, Plain(UnexpectedEvents)) +
    When(env.procs.Some?, Plain(UnexpectedProcs));
    if deviceValid {
      var records := QuotaRecords(env);
      rejected := rejected + records;
    }
  }

  method QuotaRecords(env: Envelope) returns (records: seq<Rejection>)
    ensures records == Joined(QuotaParts(env))
  {
    records := [];
    ghost var parts := QuotaParts(env);
    for i := 0 to |env.quotas|
      invariant records == Joined(parts[..i])
    {
      var here := [];
      if env.quotas[i].device != env.deviceID {
        here := [Rejection(QuotaDeviceMismatch, Some(i), "")];
      }
      assert here == parts[i];
      assert parts[..i + 1][..i] == parts[..i];
      records := records + here;
    }
    assert parts[..|parts|] == parts;
  }

  method ValidateEvents(env: Envelope, deviceValid: bool) returns (rejected: seq<Rejection>)
    requires env.kind.Events? && deviceValid == IsUUID(env.deviceID)
    ensures rejected == PayloadRejections(env)
  {
    var records := EventRecords(env, deviceValid);
    rejected := When(|env.events| == 0, Plain(MissingEvents)) +
    When(|env.quotas| > 0, Plain(UnexpectedQuotas)) +
    When(env.procs.Some?, Plain(UnexpectedProcs)) +
    When(|env.events| > MAX_BATCH_EVENTS, Plain(BatchTooLarge)) +
    records;
  }

  /** The non-empty event ids of the first n events: the validator's `seen` map. */
  ghost function IdsBefore(events: seq<Event>, n: nat): set<string>
    requires n <= |events|
  {
    set j | 0 <= j < n && events[j].id != "" :: events[j].id
  }

  method MarkSeen(events: seq<Event>, i: nat, seen: set<string>) returns (marked: set<string>)
    requires i < |events| && seen == IdsBefore(events, i)
    ensures marked == IdsBefore(events, i + 1)
  {
    marked := if events[i].id == "" then seen else seen + {events[i].id};
  }

  method EventRecords(env: Envelope, deviceValid: bool) returns (records: seq<Rejection>)
    requires deviceValid == IsUUID(env.deviceID)
    ensures records == Joined(EventParts(env))
  {
    var seen: set<string> := {};
    records := [];
    for i := 0 to |env.events|
      invariant records == Joined(EventParts(env)[..i])
      invariant seen == IdsBefore(env.events, i)
    {
      records := RecordCheck(env, deviceValid, i, seen, records);
      seen := MarkSeen(env.events, i, seen);
    }
    assert EventParts(env)[..|env.events|] == EventParts(env);
  }

  /** One event of the loop: `records` grows by exactly that event's rejections. */
  method RecordCheck(env: Envelope, deviceValid: bool, i: nat, seen: set<string>, records: seq<Rejection>)
    returns (extended: seq<Rejection>)
    requires i < |env.events| && deviceValid == IsUUID(env.deviceID)
    requires seen == IdsBefore(env.events, i)
    requires records == Joined(EventParts(env)[..i])
    ensures extended == Joined(EventParts(env)[..i + 1])
  {
    var e := env.events[i];
    var here := [];
    if e.id == "" {
      here := [Rejection(EventID, Some(i), "")];
    } else if e.id in seen {
      here := [Rejection(DuplicateEventID, Some(i), e.id)];
    }
    if deviceValid && e.device != env.deviceID {
      here := here + [Rejection(EventDeviceMismatch, Some(i), e.id)];
    }
    assert here == RecordRejections(env, i);
    JoinedSnoc(EventParts(env)[..i], EventParts(env)[..i + 1], here);
    extended := records + here;
  }

  // ---------------------------------------------------------------- what acceptance means

  predicate DistinctIds(events: seq<Event>) {
    forall i, j :: 0 <= i < j < |events| ==> events[i].id != events[j].id
  }

  predicate GoodHeader(env: Envelope) {
    && env.protocolVersion == PROTOCOL_V2
    && IsUUID(env.deviceID) && IsUUID(env.bootID) && IsUUID(env.batchID)
    && 0 < env.capturedAt <= MAX_CAPTURED_AT
  }

  /** Envelope well-formedness stated without the order or positions of the checks. */
  predicate WellFormed(env: Envelope) {
    && GoodHeader(env)
    && match env.kind
       case Events =>
         && 0 < |env.events| <= MAX_BATCH_EVENTS && env.quotas == [] && env.procs.None?
         && DistinctIds(env.events)
         && forall e :: e in env.events ==> e.id != "" && e.device == env.deviceID
       case Quotas =>
         && 0 < |env.quotas| && env.events == [] && env.procs.None?
         && forall q :: q in env.quotas ==> q.device == env.deviceID
       case Procs =>
         && env.procs.Some? && env.events == [] && env.quotas == []
         && env.procs.value.device == env.deviceID && env.procs.value.observedAt > 0
       case OtherKind(_) => false
  }

  lemma {:induction false} JoinedEmpty(parts: seq<seq<Rejection>>)
    ensures Joined(parts) == [] <==> forall i :: 0 <= i < |parts| ==> parts[i] == []
  {
    if parts != [] {
      JoinedEmpty(parts[..|parts| - 1]);
    }
  }

  lemma RecordClean(env: Envelope, i: nat)
    requires i < |env.events| && IsUUID(env.deviceID)
    ensures RecordRejections(env, i) == [] <==>
            env.events[i].id != "" && env.events[i].device == env.deviceID && !SeenBefore(env.events, i)
  {
  }

  lemma EventsClean(env: Envelope)
    requires IsUUID(env.deviceID)
    ensures Joined(EventParts(env)) == [] <==>
            (DistinctIds(env.events) && forall e :: e in env.events ==> e.id != "" && e.device == env.deviceID)
  {
    var n := |env.events|;
    JoinedEmpty(EventParts(env));
    forall i | 0 <= i < n
      ensures RecordRejections(env, i) == [] <==>
              env.events[i].id != "" && env.events[i].device == env.deviceID && !SeenBefore(env.events, i)
    {
      RecordClean(env, i);
    }
  }

  lemma QuotasClean(env: Envelope)
    ensures Joined(QuotaParts(env)) == [] <==> forall q :: q in env.quotas ==> q.device == env.deviceID
  {
    JoinedEmpty(QuotaParts(env));
    assert forall i :: 0 <= i < |env.quotas| ==> (QuotaParts(env)[i] == [] <==> env.quotas[i].device == env.deviceID);
  }

  lemma HeaderClean(env: Envelope)
    ensures HeaderRejections(env) == [] <==> GoodHeader(env)
  {
  }

  /** An envelope passes the validator exactly when it is well formed. */
  lemma AcceptedIffWellFormed(env: Envelope)
    ensures Rejections(env) == [] <==> WellFormed(env)
  {
    HeaderClean(env);
    if GoodHeader(env) {
      PayloadClean(env);
    }
  }

  lemma PayloadClean(env: Envelope)
    requires GoodHeader(env)
    ensures PayloadRejections(env) == [] <==> WellFormed(env)
  {
    match env.kind
    case Events => EventsClean(env);
    case Quotas => QuotasClean(env);
    case Procs =>
    case OtherKind(_) =>
  }
}
