/**
 One stored event row and what a second observation of the same event may do to it
 (internal/store/store.go, insertEventsFromTx's guarded updates; internal/model/provider.go).
 */
module EventRows {
  import opened Ingest

  /** How a row's device value was obtained. */
  datatype Origin = Observed | Self

  datatype Row = Row(
    ts: int,
    device: string,
    origin: Origin,
    source: Source,
    model: string,
    provider: Provider,
    counts: Counts,
    durationMS: int,
    genMS: int,
    ttftMS: int,
    context: Context,
    dedupKey: string)

  function RowOf(e: Event, origin: Origin): Row {
    Row(e.ts, e.device, origin, e.source, e.model, e.provider, e.counts,
        e.durationMS, e.genMS, e.ttftMS, e.context, e.dedupKey)
  }

  /** Evidence strength of a provider label. */
  function Rank(p: Provider): nat {
    match p
    case Relay => 4
    case Declared(_) => 4
    case AnthropicOAuth => 3
    case AnthropicAPI => 3
    case OpenAIChatGPT => 3
    case OpenAIAPI => 3
    case Anthropic => 2
    case OpenAI => 2
    case Unknown => 1
    case NoLabel => 1
    case Bedrock => 0
    case Vertex => 0
  }

  function FillText(stored: string, seen: string): string {
    if stored == "" then seen else stored
  }

  function FillNumber(stored: int, seen: int): int {
    if stored == 0 && seen > 0 then seen else stored
  }

  function FillContext(stored: Context, seen: Context): Context {
    Context(
      FillText(stored.sessionID, seen.sessionID),
      FillText(stored.cwd, seen.cwd),
      FillText(stored.repo, seen.repo),
      FillText(stored.gitBranch, seen.gitBranch),
      FillText(stored.appVersion, seen.appVersion))
  }

  predicate FromLog(e: Event) {
    !e.source.NoSource? && !e.source.Proxy?
  }

  function Reclassified(stored: Provider, seen: Provider): Provider {
    if !seen.NoLabel? && Rank(seen) > Rank(stored) then seen else stored
  }

  predicate Reattributes(r: Row, e: Event, origin: Origin) {
    origin.Self? && e.device != "" && r.origin.Observed?
  }

  /** Every guarded update run unconditionally, except the dedup key's. */
  function Merged(r: Row, e: Event, origin: Origin): Row {
    r.(
      provider := Reclassified(r.provider, e.provider),
      device := if Reattributes(r, e, origin) then e.device else r.device,
      origin := if Reattributes(r, e, origin) then Self else r.origin,
      genMS := FillNumber(r.genMS, e.genMS),
      ttftMS := FillNumber(r.ttftMS, e.ttftMS),
      context := FillContext(r.context, e.context),
      source := if FromLog(e) && r.source.Proxy? then e.source else r.source,
      durationMS := if FromLog(e) then FillNumber(r.durationMS, e.durationMS) else r.durationMS
    )
  }

  /** The columns whose change is reported as a fill. */
  predicate FilledColumns(before: Row, after: Row) {
    || before.genMS != after.genMS || before.ttftMS != after.ttftMS
    || before.context != after.context
    || before.source != after.source || before.durationMS != after.durationMS
  }

  // ---------------------------------------------------------------- the pre-loaded fast path

  /** textFillNeeded: the exact guard of the text update, read from the pre-loaded row. */
  predicate TextFillNeeded(known: Context, seen: Context) {
    || (known.sessionID == "" && seen.sessionID != "")
    || (known.cwd == "" && seen.cwd != "")
    || (known.repo == "" && seen.repo != "")
    || (known.gitBranch == "" && seen.gitBranch != "")
    || (known.appVersion == "" && seen.appVersion != "")
  }

  /** The same updates, each behind the gate that consults the row as it was when the batch began. */
  function GatedMerged(r: Row, known: Option<Row>, e: Event, origin: Origin): Row {
    var relabel := !e.provider.NoLabel? && (known.None? || Rank(e.provider) > Rank(known.value.provider));
    var reattribute := origin.Self? && e.device != "" && (known.None? || known.value.origin.Observed?);
    var numbers := (e.genMS > 0 || e.ttftMS > 0) &&
      (known.None? || (known.value.genMS == 0 && e.genMS > 0) || (known.value.ttftMS == 0 && e.ttftMS > 0));
    var text := known.None? || TextFillNeeded(known.value.context, e.context);
    var promote := FromLog(e) && (known.None? || known.value.source.Proxy?);
    var duration := FromLog(e) && e.durationMS > 0 && (known.None? || known.value.durationMS == 0);
    r.(
      provider := if relabel then Reclassified(r.provider, e.provider) else r.provider,
      device := if reattribute && Reattributes(r, e, origin) then e.device else r.device,
      origin := if reattribute && Reattributes(r, e, origin) then Self else r.origin,
      genMS := if numbers then FillNumber(r.genMS, e.genMS) else r.genMS,
      ttftMS := if numbers then FillNumber(r.ttftMS, e.ttftMS) else r.ttftMS,
      context := if text then FillContext(r.context, e.context) else r.context,
      source := if promote && r.source.Proxy? then e.source else r.source,
      durationMS := if duration then FillNumber(r.durationMS, e.durationMS) else r.durationMS
    )
  }

  predicate TextGrown(p: string, r: string) {
    p != "" ==> r != ""
  }

  /** r is a later state of p: every column p had settled is still settled, and no count moved. */
  predicate Grown(p: Row, r: Row) {
    && r.ts == p.ts && r.model == p.model && r.counts == p.counts
    && Rank(p.provider) <= Rank(r.provider)
    && (p.origin.Self? ==> r.origin.Self?)
    && (p.genMS != 0 ==> r.genMS != 0) && (p.ttftMS != 0 ==> r.ttftMS != 0)
    && (p.durationMS != 0 ==> r.durationMS != 0)
    && TextGrown(p.context.sessionID, r.context.sessionID) && TextGrown(p.context.cwd, r.context.cwd)
    && TextGrown(p.context.repo, r.context.repo) && TextGrown(p.context.gitBranch, r.context.gitBranch)
    && TextGrown(p.context.appVersion, r.context.appVersion)
    && (!p.source.Proxy? ==> !r.source.Proxy?)
    && (p.dedupKey != "" ==> r.dedupKey == p.dedupKey)
  }

  lemma MergedGrows(r: Row, e: Event, origin: Origin)
    ensures Grown(r, Merged(r, e, origin))
  {
  }

  lemma GrownTransitive(a: Row, b: Row, c: Row)
    requires Grown(a, b) && Grown(b, c)
    ensures Grown(a, c)
  {
  }

  lemma TextGateIsNoOp(p: Context, r: Context, seen: Context)
    requires TextGrown(p.sessionID, r.sessionID) && TextGrown(p.cwd, r.cwd) && TextGrown(p.repo, r.repo)
    requires TextGrown(p.gitBranch, r.gitBranch) && TextGrown(p.appVersion, r.appVersion)
    requires !TextFillNeeded(p, seen)
    ensures FillContext(r, seen) == r
  {
  }

  /** A closed gate is a proof that its update would have changed nothing, however stale the pre-loaded row is. */
  lemma GatesAreNoOps(p: Row, r: Row, e: Event, origin: Origin)
    requires Grown(p, r)
    ensures GatedMerged(r, Some(p), e, origin) == Merged(r, e, origin)
  {
    if !TextFillNeeded(p.context, e.context) {
      TextGateIsNoOp(p.context, r.context, e.context);
    }
  }

  // ---------------------------------------------------------------- idempotence of a merge

  lemma MergedTwice(r: Row, e: Event, origin: Origin)
    ensures Merged(Merged(r, e, origin), e, origin) == Merged(r, e, origin)
  {
  }

  /** An observation with nothing left to add stays that way whatever else is observed. */
  lemma MergedStaysAbsorbed(r: Row, e: Event, oe: Origin, f: Event, of: Origin)
    requires Merged(r, e, oe) == r
    ensures Merged(Merged(r, f, of), e, oe) == Merged(r, f, of)
  {
    FillContextStays(r.context, e.context, f.context);
  }

  lemma FillContextStays(r: Context, e: Context, f: Context)
    requires FillContext(r, e) == r
    ensures FillContext(FillContext(r, f), e) == FillContext(r, f)
  {
  }

  // ---------------------------------------------------------------- provider evidence

  /** The provider column of a row created by the first label of `labels` and then observed with the rest. */
  function Settle(labels: seq<Provider>): Provider
    requires labels != []
  {
    if |labels| == 1 then labels[0]
    else Reclassified(Settle(labels[..|labels| - 1]), labels[|labels| - 1])
  }

  /** L beats every other label: it is the only one, or it carries a label and strictly outranks the rest. */
  predicate Decisive(labels: seq<Provider>, l: Provider) {
    && l in labels
    && ((forall x :: x in labels ==> x == l) || (!l.NoLabel? && forall x :: x in labels ==> x == l || Rank(x) < Rank(l)))
  }

  predicate SamePool(a: seq<Provider>, b: seq<Provider>) {
    multiset(a) == multiset(b)
  }

  ghost predicate OrderIndependent(labels: seq<Provider>)
    requires labels != []
  {
    forall other: seq<Provider> :: SamePool(labels, other) && other != [] ==> Settle(other) == Settle(labels)
  }

  lemma {:induction false} SettleIsEvidence(labels: seq<Provider>)
    requires labels != []
    ensures Settle(labels) in labels
    ensures Rank(labels[0]) <= Rank(Settle(labels))
    ensures labels[0].NoLabel? || !Settle(labels).NoLabel?
    ensures (forall x :: x in labels ==> Rank(x) <= Rank(labels[0])) ==> Settle(labels) == labels[0]
  {
    if |labels| > 1 {
      SettleIsEvidence(labels[..|labels| - 1]);
    }
  }

  /** The rank the column settles on is that of the strongest labelled evidence. */
  lemma {:induction false} SettledRankIsMaximal(labels: seq<Provider>)
    requires labels != []
    ensures forall x :: x in labels && !x.NoLabel? ==> Rank(x) <= Rank(Settle(labels))
  {
    if |labels| > 1 {
      var init := labels[..|labels| - 1];
      SettledRankIsMaximal(init);
      assert labels == init + [labels[|labels| - 1]];
    }
  }

  lemma DecisiveSettles(labels: seq<Provider>, l: Provider)
    requires labels != [] && Decisive(labels, l)
    ensures Settle(labels) == l
  {
    SettleIsEvidence(labels);
    SettledRankIsMaximal(labels);
  }

  function ToFront(labels: seq<Provider>, i: nat): seq<Provider>
    requires i < |labels|
  {
    [labels[i]] + labels[..i] + labels[i + 1..]
  }

  lemma ToFrontSamePool(labels: seq<Provider>, i: nat)
    requires i < |labels|
    ensures SamePool(labels, ToFront(labels, i))
    ensures forall x :: x in labels <==> x in ToFront(labels, i)
  {
    assert labels == labels[..i] + [labels[i]] + labels[i + 1..];
    forall x
      ensures x in labels <==> x in ToFront(labels, i)
    {
      assert x in labels <==> x in multiset(labels);
      assert x in ToFront(labels, i) <==> x in multiset(ToFront(labels, i));
    }
  }

  lemma Strongest(labels: seq<Provider>) returns (k: nat)
    requires labels != []
    ensures k < |labels| && forall x :: x in labels ==> Rank(x) <= Rank(labels[k])
  {
    k := 0;
    for i := 1 to |labels|
      invariant k < |labels|
      invariant forall j :: 0 <= j < i ==> Rank(labels[j]) <= Rank(labels[k])
    {
      if Rank(labels[k]) < Rank(labels[i]) { k := i; }
    }
  }

  /** An order that begins with a label of greatest rank settles on that label. */
  lemma SettledFront(labels: seq<Provider>, i: nat) returns (a: seq<Provider>)
    requires i < |labels| && forall x :: x in labels ==> Rank(x) <= Rank(labels[i])
    ensures SamePool(labels, a) && a != [] && Settle(a) == labels[i]
  {
    a := ToFront(labels, i);
    ToFrontSamePool(labels, i);
    SettleIsEvidence(a);
  }

  /** An order that begins with a label never settles on having none. */
  lemma LabelledFront(labels: seq<Provider>, i: nat) returns (a: seq<Provider>)
    requires i < |labels| && !labels[i].NoLabel?
    ensures SamePool(labels, a) && a != [] && !Settle(a).NoLabel?
  {
    a := ToFront(labels, i);
    ToFrontSamePool(labels, i);
    SettleIsEvidence(a);
  }

  lemma Rival(labels: seq<Provider>, k: nat) returns (j: nat)
    requires k < |labels| && !Decisive(labels, labels[k])
    ensures j < |labels| && labels[j] != labels[k] && (labels[k].NoLabel? || Rank(labels[j]) >= Rank(labels[k]))
  {
    var x :| x in labels && x != labels[k] && (labels[k].NoLabel? || Rank(x) >= Rank(labels[k]));
    j :| 0 <= j < |labels| && labels[j] == x;
  }

  /** Two arrival orders that disagree, whenever no label is decisive. */
  lemma DisagreeingOrders(labels: seq<Provider>) returns (a: seq<Provider>, b: seq<Provider>)
    requires labels != [] && forall l :: l in labels ==> !Decisive(labels, l)
    ensures SamePool(labels, a) && SamePool(labels, b) && a != [] && b != [] && Settle(a) != Settle(b)
  {
    var k := Strongest(labels);
    var j := Rival(labels, k);
    a := SettledFront(labels, k);
    if labels[k].NoLabel? {
      b := LabelledFront(labels, j);
    } else {
      b := SettledFront(labels, j);
    }
  }

  /** "The column settles on the same value in any order" holds exactly when one label is decisive. */
  lemma ProviderOrderIndependence(labels: seq<Provider>)
    requires labels != []
    ensures OrderIndependent(labels) <==> exists l :: Decisive(labels, l)
  {
    if l :| Decisive(labels, l) {
      forall other: seq<Provider> | SamePool(labels, other) && other != []
        ensures Settle(other) == Settle(labels)
      {
        assert forall x :: x in labels <==> x in multiset(labels);
        assert forall x :: x in other <==> x in multiset(other);
        DecisiveSettles(labels, l);
        DecisiveSettles(other, l);
      }
    } else {
      var a, b := DisagreeingOrders(labels);
    }
  }
}
