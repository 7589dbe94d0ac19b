/**
 Generation speed over a live window: clipping and allocating tokens, four breakdowns, and the in-place session
 sort (internal/store/livespeed.go). Rates are real numbers; a model's canonical name is a parameter.
 */
module LiveSpeeds {
  import opened Spans
  import TextOrder

  datatype Row = Row(session: string, device: string, repo: string, model: string, source: string, output: int, gen: int, ts: int)

  /** One selected event's share of the window. */
  datatype Entry = Entry(row: Row, tokens: int, span: Span)

  /** What a breakdown groups by. */
  datatype Dimension = BySession | BySource | ByDevice | ByModel

  datatype Group = Group(tokens: int, spans: seq<Span>)

  datatype Contribution = Contribution(key: string, tokens: int, active: int, contribution: real, native: real)

  datatype Session = Session(
    sessionID: string, device: string, repo: string, source: string, model: string, lastTS: int,
    tokens: int, active: int, native: real, contribution: real, spans: seq<Span>)

  // ---------------------------------------------------------------- clipping

  /** The query's WHERE clause; an empty device means every device. */
  predicate Selected(r: Row, from: int, to: int, device: string) {
    from <= r.ts <= to && r.gen > 0 && r.output > 0 && (device == "" || r.device == device)
  }

  /** The generation interval cut to the window. */
  function Clip(r: Row, from: int, to: int): Span {
    Span(if r.ts - r.gen < from then from else r.ts - r.gen, if r.ts > to then to else r.ts)
  }

  /** The share of the output that falls inside the clipped interval, rounded down. */
  function Share(r: Row, s: Span): int
    requires r.gen > 0
  {
    r.output * (s.end - s.start) / r.gen
  }

  function Entered(entries: seq<Entry>, r: Row, from: int, to: int, device: string): seq<Entry> {
    if !Selected(r, from, to, device) || Clip(r, from, to).end <= Clip(r, from, to).start then entries
    else entries + [Entry(r, Share(r, Clip(r, from, to)), Clip(r, from, to))]
  }

  function Entries(rows: seq<Row>, from: int, to: int, device: string): seq<Entry> {
    if rows == [] then [] else Entered(Entries(rows[..|rows| - 1], from, to, device), rows[|rows| - 1], from, to, device)
  }

  lemma MulAtMost(a: int, b: int, c: int)
    requires a <= b && c >= 0
    ensures a * c <= b * c
  {
  }

  lemma QuotientAtMost(n: int, d: int, m: int)
    requires d > 0 && n <= m * d
    ensures n / d <= m
  {
    if n / d > m { MulAtMost(m + 1, n / d, d); }
  }

  lemma QuotientAtLeast(n: int, d: int, m: int)
    requires d > 0 && m * d <= n
    ensures m <= n / d
  {
    if n / d < m { MulAtMost(n / d + 1, m, d); }
  }

  lemma ShareBounds(output: int, part: int, whole: int)
    requires output >= 0 && 0 <= part <= whole && whole > 0
    ensures 0 <= output * part / whole <= output
    ensures part == whole ==> output * part / whole == output
  {
    MulAtMost(0, output, part);
    MulAtMost(part, whole, output);
    QuotientAtMost(output * part, whole, output);
    QuotientAtLeast(output * part, whole, 0);
    if part == whole { QuotientAtLeast(output * part, whole, output); }
  }

  predicate EntryOk(e: Entry, from: int, to: int) {
    && from <= e.span.start < e.span.end <= to && e.span.end == e.row.ts
    && 0 <= e.tokens <= e.row.output
    && (e.row.ts - e.row.gen >= from ==> e.tokens == e.row.output)
  }

  /**
   Every share lies inside the window and between nothing and its event's output, and is the whole output when
   the generation began inside. The end is never cut: the query has already dropped events that end later.
   */
  lemma {:induction false} SharesAreProper(rows: seq<Row>, from: int, to: int, device: string)
    ensures forall e :: e in Entries(rows, from, to, device) ==> EntryOk(e, from, to)
  {
    if rows != [] {
      var r := rows[|rows| - 1];
      SharesAreProper(rows[..|rows| - 1], from, to, device);
      if Selected(r, from, to, device) {
        var s := Clip(r, from, to);
        if s.start < s.end { ShareBounds(r.output, s.end - s.start, r.gen); }
      }
    }
  }

  /** Division rounds down. */
  lemma QuotientIs(n: int, d: int)
    requires d > 0
    ensures n / d * d <= n < (n / d + 1) * d
  {
  }

  /** Each share is the output spread evenly over the generation, taken for the part inside the window, rounded down. */
  ghost predicate EvenShare(e: Entry) {
    && e.row.gen > 0
    && e.tokens * e.row.gen <= e.row.output * (e.span.end - e.span.start) < (e.tokens + 1) * e.row.gen
  }

  lemma {:induction false} SharesAreEven(rows: seq<Row>, from: int, to: int, device: string)
    ensures forall e :: e in Entries(rows, from, to, device) ==> EvenShare(e)
  {
    if rows != [] {
      var r := rows[|rows| - 1];
      SharesAreEven(rows[..|rows| - 1], from, to, device);
      if r.gen > 0 {
        var s := Clip(r, from, to);
        QuotientIs(r.output * (s.end - s.start), r.gen);
      }
    }
  }

  /** The row counts in the window: a measured event of the device whose generation and the window share time. */
  predicate Counts(r: Row, from: int, to: int, device: string) {
    && from <= r.ts <= to && r.gen > 0 && r.output > 0 && (device == "" || r.device == device)
    && r.ts > from && r.ts - r.gen < to
  }

  /** The rows that count, in order, each with the time it shares with the window. */
  ghost predicate EntriesOf(entries: seq<Entry>, rows: seq<Row>, from: int, to: int, device: string) {
    && (forall e :: e in entries ==> Counts(e.row, from, to, device))
    && (forall e :: e in entries ==> e.span == Span(if e.row.ts - e.row.gen < from then from else e.row.ts - e.row.gen, e.row.ts))
    && (forall r :: multiset(RowsOf(entries))[r] == if Counts(r, from, to, device) then multiset(rows)[r] else 0)
  }

  function RowsOf(entries: seq<Entry>): (rows: seq<Row>)
    ensures |rows| == |entries| && forall i :: 0 <= i < |rows| ==> rows[i] == entries[i].row
  {
    seq(|entries|, i requires 0 <= i < |entries| => entries[i].row)
  }

  /** The live window counts exactly the rows that share time with it, each as often as it is stored. */
  lemma {:induction false} EntriesAreTheRowsThatCount(rows: seq<Row>, from: int, to: int, device: string)
    ensures EntriesOf(Entries(rows, from, to, device), rows, from, to, device)
  {
    if rows != [] {
      var init, r := rows[..|rows| - 1], rows[|rows| - 1];
      var before := Entries(init, from, to, device);
      EntriesAreTheRowsThatCount(init, from, to, device);
      assert rows == init + [r];
      if Counts(r, from, to, device) {
        var e := Entry(r, Share(r, Clip(r, from, to)), Clip(r, from, to));
        assert Entries(rows, from, to, device) == before + [e];
        assert RowsOf(before + [e]) == RowsOf(before) + [r];
      } else {
        assert Entries(rows, from, to, device) == before;
      }
    }
  }

  // ---------------------------------------------------------------- groups

  /** speedSourceKey. */
  function SourceKey(source: string): string {
    if source == "claude-code" || source == "codex" || source == "dsh" then source else "api"
  }

  /** Three agents are sources of their own; every other source is the API. */
  lemma SourcesAreThreeOrTheApi(source: string)
    ensures SourceKey("claude-code") == "claude-code" && SourceKey("codex") == "codex" && SourceKey("dsh") == "dsh"
    ensures source !in {"claude-code", "codex", "dsh"} ==> SourceKey(source) == "api"
  {
  }

  function KeyOf(dim: Dimension, e: Entry): string {
    match dim
    case BySession => e.row.device + "\0" + e.row.session
    case BySource => SourceKey(e.row.source)
    case ByDevice => e.row.device
    case ByModel => e.row.model
  }

  predicate NoZero(s: string) {
    forall i :: 0 <= i < |s| ==> s[i] != '\0'
  }

  lemma FirstZero(a: string, x: string)
    requires NoZero(a)
    ensures var u := a + "\0" + x;
            |u| > |a| && u[|a|] == '\0' && (forall i :: 0 <= i < |a| ==> u[i] != '\0') && u[..|a|] == a && u[|a| + 1..] == x
  {
  }

  lemma JoinedAtTheZero(a: string, x: string, b: string, y: string)
    requires NoZero(a) && NoZero(b) && a + "\0" + x == b + "\0" + y
    ensures a == b && x == y
  {
    FirstZero(a, x);
    FirstZero(b, y);
  }

  /** What groups two entries together: their session on one device, their source, their device, or their model. */
  lemma GroupedTogetherIff(e: Entry, f: Entry)
    ensures NoZero(e.row.device) && NoZero(f.row.device) ==>
      (KeyOf(BySession, e) == KeyOf(BySession, f) <==> e.row.device == f.row.device && e.row.session == f.row.session)
    ensures KeyOf(BySource, e) == SourceKey(e.row.source) && KeyOf(ByDevice, e) == e.row.device && KeyOf(ByModel, e) == e.row.model
  {
    if NoZero(e.row.device) && NoZero(f.row.device) && KeyOf(BySession, e) == KeyOf(BySession, f) {
      JoinedAtTheZero(e.row.device, e.row.session, f.row.device, f.row.session);
    }
  }

  function Total(entries: seq<Entry>): int {
    if entries == [] then 0 else Total(entries[..|entries| - 1]) + entries[|entries| - 1].tokens
  }

  function All(entries: seq<Entry>): seq<Span> {
    if entries == [] then [] else All(entries[..|entries| - 1]) + [entries[|entries| - 1].span]
  }

  predicate Occurs(entries: seq<Entry>, dim: Dimension, key: string) {
    exists e :: e in entries && KeyOf(dim, e) == key
  }

  /** The entries of one group, in order. */
  function Of(entries: seq<Entry>, dim: Dimension, key: string): seq<Entry> {
    if entries == [] then []
    else
      var last := entries[|entries| - 1];
      Of(entries[..|entries| - 1], dim, key) + if KeyOf(dim, last) == key then [last] else []
  }

  function Rate(tokens: int, active: int): real {
    if active > 0 then tokens as real * 1000.0 / active as real else 0.0
  }

  /** The rate times the active time is the tokens, a thousandfold, for milliseconds; without active time it is nothing. */
  lemma RateIsTokensPerSecond(tokens: int, active: int)
    ensures active > 0 ==> Rate(tokens, active) * active as real == tokens as real * 1000.0
    ensures active <= 0 ==> Rate(tokens, active) == 0.0
  {
    if active > 0 {
      var n, d := tokens as real * 1000.0, active as real;
      assert n / d * d == n;
    }
  }

  /** One row of a breakdown. */
  function RowFor(entries: seq<Entry>, dim: Dimension, key: string, globalActive: int): Contribution {
    var tokens, active := Total(Of(entries, dim, key)), |Cells(All(Of(entries, dim, key)))|;
    Contribution(key, tokens, active, Rate(tokens, globalActive), Rate(tokens, active))
  }

  // ---------------------------------------------------------------- accumulation

  ghost predicate GroupsOf(groups: map<string, Group>, entries: seq<Entry>, dim: Dimension) {
    forall key :: GroupAt(groups, entries, dim, key)
  }

  ghost predicate GroupAt(groups: map<string, Group>, entries: seq<Entry>, dim: Dimension, key: string) {
    && (key in groups <==> Occurs(entries, dim, key))
    && (key in groups ==> groups[key] == Group(Total(Of(entries, dim, key)), All(Of(entries, dim, key))))
  }

  lemma Snoc(entries: seq<Entry>, e: Entry, dim: Dimension, key: string)
    ensures Total(entries + [e]) == Total(entries) + e.tokens
    ensures All(entries + [e]) == All(entries) + [e.span]
    ensures Of(entries + [e], dim, key) == Of(entries, dim, key) + if KeyOf(dim, e) == key then [e] else []
    ensures Occurs(entries + [e], dim, key) <==> Occurs(entries, dim, key) || KeyOf(dim, e) == key
  {
    assert (entries + [e])[..|entries|] == entries;
    assert forall x :: x in entries + [e] <==> x in entries || x == e;
  }

  lemma {:induction false} AbsentIsEmpty(entries: seq<Entry>, dim: Dimension, key: string)
    ensures Of(entries, dim, key) == [] <==> !Occurs(entries, dim, key)
  {
    if entries != [] {
      var init, last := entries[..|entries| - 1], entries[|entries| - 1];
      AbsentIsEmpty(init, dim, key);
      Snoc(init, last, dim, key);
      assert entries == init + [last];
    }
  }

  function GroupIn(groups: map<string, Group>, key: string): Group {
    if key in groups then groups[key] else Group(0, [])
  }

  lemma TokensGrow(entries: seq<Entry>, e: Entry, dim: Dimension, key: string)
    ensures Total(Of(entries + [e], dim, key)) == Total(Of(entries, dim, key)) + if KeyOf(dim, e) == key then e.tokens else 0
  {
    Snoc(entries, e, dim, key);
    Snoc(Of(entries, dim, key), e, dim, key);
    assert Of(entries, dim, key) + [] == Of(entries, dim, key);
  }

  lemma SpansGrow(entries: seq<Entry>, e: Entry, dim: Dimension, key: string)
    ensures All(Of(entries + [e], dim, key)) ==
            if KeyOf(dim, e) == key then All(Of(entries, dim, key)) + [e.span] else All(Of(entries, dim, key))
  {
    Snoc(entries, e, dim, key);
    Snoc(Of(entries, dim, key), e, dim, key);
    assert Of(entries, dim, key) + [] == Of(entries, dim, key);
  }

  lemma GroupAdded(groups: map<string, Group>, entries: seq<Entry>, e: Entry, dim: Dimension, key: string, own: string)
    requires GroupAt(groups, entries, dim, key) && own == KeyOf(dim, e)
    ensures GroupAt(groups[own := Group(GroupIn(groups, own).tokens + e.tokens, GroupIn(groups, own).spans + [e.span])],
                    entries + [e], dim, key)
  {
    assert Occurs(entries + [e], dim, key) <==> Occurs(entries, dim, key) || own == key by { Snoc(entries, e, dim, key); }
    AbsentIsEmpty(entries, dim, key);
    TokensGrow(entries, e, dim, key);
    SpansGrow(entries, e, dim, key);
  }

  /** addSpeedContribution. */
  method AddSpeedContribution(groups: map<string, Group>, ghost entries: seq<Entry>, e: Entry, dim: Dimension)
    returns (added: map<string, Group>)
    requires GroupsOf(groups, entries, dim)
    ensures GroupsOf(added, entries + [e], dim)
  {
    var key := KeyOf(dim, e);
    var group := if key in groups then groups[key] else Group(0, []);
    added := groups[key := Group(group.tokens + e.tokens, group.spans + [e.span])];
    ghost var longer := entries + [e];
    forall k ensures GroupAt(added, longer, dim, k) {
      GroupAdded(groups, entries, e, dim, k, key);
    }
  }

  // ---------------------------------------------------------------- breakdowns

  predicate Distinct(keys: seq<string>) {
    forall i, j :: 0 <= i < j < |keys| ==> keys[i] != keys[j]
  }

  lemma DistinctInit(keys: seq<string>)
    requires Distinct(keys) && keys != []
    ensures Distinct(keys[..|keys| - 1])
  {
  }

  /** The groups' tokens over a list of keys. */
  function SumOver(keys: seq<string>, entries: seq<Entry>, dim: Dimension): int {
    if keys == [] then 0 else SumOver(keys[..|keys| - 1], entries, dim) + Total(Of(entries, dim, keys[|keys| - 1]))
  }

  lemma {:induction false} SumOverSnoc(keys: seq<string>, entries: seq<Entry>, e: Entry, dim: Dimension)
    requires Distinct(keys)
    ensures SumOver(keys, entries + [e], dim) == SumOver(keys, entries, dim) + if KeyOf(dim, e) in keys then e.tokens else 0
  {
    if keys != [] {
      var init, last := keys[..|keys| - 1], keys[|keys| - 1];
      DistinctInit(keys);
      SumOverSnoc(init, entries, e, dim);
      TokensGrow(entries, e, dim, last);
      LastIsNew(keys, KeyOf(dim, e));
    }
  }

  lemma LastIsNew(keys: seq<string>, key: string)
    requires Distinct(keys) && keys != []
    ensures var init, last := keys[..|keys| - 1], keys[|keys| - 1];
            last !in init && (key in keys <==> key in init || key == last)
  {
    assert keys == keys[..|keys| - 1] + [keys[|keys| - 1]];
  }

  /** A list that names each key once shares out the total exactly. */
  lemma {:induction false} SharedOutExactly(keys: seq<string>, entries: seq<Entry>, dim: Dimension)
    requires Distinct(keys) && forall e :: e in entries ==> KeyOf(dim, e) in keys
    ensures SumOver(keys, entries, dim) == Total(entries)
  {
    if entries == [] {
      SumOfNothing(keys, dim);
    } else {
      var init, last := entries[..|entries| - 1], entries[|entries| - 1];
      assert entries == init + [last] && last in entries;
      SharedOutExactly(keys, init, dim);
      SumOverSnoc(keys, init, last, dim);
    }
  }

  lemma {:induction false} SumOfNothing(keys: seq<string>, dim: Dimension)
    ensures SumOver(keys, [], dim) == 0
  {
    if keys != [] { SumOfNothing(keys[..|keys| - 1], dim); }
  }

  /** The order of a breakdown: larger contribution first, then by key. */
  predicate Before(a: Contribution, b: Contribution) {
    a.contribution > b.contribution || (a.contribution == b.contribution && TextOrder.Below(a.key, b.key))
  }

  lemma BeforeTotal(a: Contribution, b: Contribution)
    requires a.key != b.key
    ensures Before(a, b) || Before(b, a)
  {
    TextOrder.BelowTotal(a.key, b.key);
  }

  lemma BeforeTransitive(a: Contribution, b: Contribution, c: Contribution)
    requires Before(a, b) && Before(b, c)
    ensures Before(a, c)
  {
    if a.contribution == b.contribution == c.contribution { TextOrder.BelowTransitive(a.key, b.key, c.key); }
  }

  predicate Ordered(rows: seq<Contribution>) {
    forall i, j :: 0 <= i < j < |rows| ==> Before(rows[i], rows[j])
  }

  function Keys(rows: seq<Contribution>): (keys: seq<string>)
    ensures |keys| == |rows| && forall i :: 0 <= i < |rows| ==> keys[i] == rows[i].key
  {
    seq(|rows|, i requires 0 <= i < |rows| => rows[i].key)
  }

  lemma PlaceInOrder(a: seq<Contribution>, row: Contribution, b: seq<Contribution>)
    requires Ordered(a + b) && (forall r :: r in a ==> Before(r, row)) && (forall r :: r in b ==> Before(row, r))
    ensures Ordered(a + [row] + b)
  {
    var rows := a + [row] + b;
    forall i, j | 0 <= i < j < |rows| ensures Before(rows[i], rows[j]) {
      if i < |a| && j == |a| { assert a[i] in a; }
      if i == |a| { assert b[j - |a| - 1] in b; }
      if i != |a| && j != |a| {
        assert Before((a + b)[if i < |a| then i else i - 1], (a + b)[if j < |a| then j else j - 1]);
      }
    }
  }

  lemma RestComesAfter(b: seq<Contribution>, row: Contribution)
    requires Ordered(b) && (b != [] ==> !Before(b[0], row) && b[0].key != row.key)
    ensures forall r :: r in b ==> Before(row, r)
  {
    if b != [] {
      BeforeTotal(b[0], row);
      forall r | r in b ensures Before(row, r) {
        var j :| 0 <= j < |b| && b[j] == r;
        if j > 0 { BeforeTransitive(row, b[0], b[j]); }
      }
    }
  }

  /** The place of one more row in the order. */
  method InsertRow(rows: seq<Contribution>, row: Contribution) returns (longer: seq<Contribution>, ghost k: nat)
    requires Ordered(rows) && row.key !in Keys(rows)
    ensures k <= |rows| && longer == rows[..k] + [row] + rows[k..] && Ordered(longer)
  {
    var n := 0;
    while n < |rows| && Before(rows[n], row)
      invariant n <= |rows|
      invariant forall r :: r in rows[..n] ==> Before(r, row)
    {
      n := n + 1;
    }
    ghost var a, b := rows[..n], rows[n..];
    assert rows == a + b;
    if n < |rows| { assert Keys(rows)[n] == b[0].key; }
    RestComesAfter(b, row);
    PlaceInOrder(a, row, b);
    longer := rows[..n] + [row] + rows[n..];
    k := n;
  }

  /** Each row holds its own group's figures. */
  ghost predicate OwnFigures(rows: seq<Contribution>, entries: seq<Entry>, dim: Dimension, globalActive: int) {
    forall r :: r in rows ==> r == RowFor(entries, dim, r.key, globalActive)
  }

  /** A breakdown: each key once, in order, each row its own group's figures. */
  ghost predicate Breakdown(rows: seq<Contribution>, entries: seq<Entry>, dim: Dimension, globalActive: int) {
    && Ordered(rows) && Distinct(Keys(rows))
    && (forall key :: key in Keys(rows) <==> Occurs(entries, dim, key))
    && OwnFigures(rows, entries, dim, globalActive)
  }

  method MakeRow(group: Group, ghost entries: seq<Entry>, dim: Dimension, key: string, globalActive: int)
    returns (row: Contribution)
    requires Proper(All(entries))
    requires group == Group(Total(Of(entries, dim, key)), All(Of(entries, dim, key)))
    ensures row == RowFor(entries, dim, key, globalActive)
  {
    ProperPart(entries, dim, key);
    var active := UnionMS(group.spans);
    row := Contribution(key, group.tokens, active, Rate(group.tokens, globalActive), Rate(group.tokens, active));
  }

  method AddOwnRow(rows: seq<Contribution>, group: Group, ghost entries: seq<Entry>, dim: Dimension, key: string, globalActive: int)
    returns (longer: seq<Contribution>)
    requires Proper(All(entries)) && key !in Keys(rows) && Ordered(rows) && Distinct(Keys(rows))
    requires group == Group(Total(Of(entries, dim, key)), All(Of(entries, dim, key)))
    requires OwnFigures(rows, entries, dim, globalActive)
    ensures Ordered(longer) && Distinct(Keys(longer)) && OwnFigures(longer, entries, dim, globalActive)
    ensures forall k :: k in Keys(longer) <==> k in Keys(rows) || k == key
  {
    var row := MakeRow(group, entries, dim, key, globalActive);
    longer := PlaceRow(rows, row);
  }

  method BuildSpeedContributions(groups: map<string, Group>, ghost entries: seq<Entry>, dim: Dimension, globalActive: int)
    returns (rows: seq<Contribution>)
    requires GroupsOf(groups, entries, dim) && Proper(All(entries))
    ensures Breakdown(rows, entries, dim, globalActive)
  {
    rows := [];
    var left := groups.Keys;
    while left != {}
      invariant left <= groups.Keys
      invariant Ordered(rows) && Distinct(Keys(rows))
      invariant forall key :: key in Keys(rows) <==> key in groups.Keys - left
      invariant OwnFigures(rows, entries, dim, globalActive)
    {
      var key :| key in left;
      assert GroupAt(groups, entries, dim, key);
      rows := AddOwnRow(rows, groups[key], entries, dim, key, globalActive);
      left := left - {key};
    }
    forall key ensures key in Keys(rows) <==> Occurs(entries, dim, key) {
      assert GroupAt(groups, entries, dim, key);
    }
  }

  lemma DistinctPlaced(a: seq<string>, key: string, b: seq<string>)
    requires Distinct(a + b) && key !in a + b
    ensures Distinct(a + [key] + b)
  {
    var keys := a + [key] + b;
    forall i, j | 0 <= i < j < |keys| ensures keys[i] != keys[j] {
      var i', j' := if i < |a| then i else i - 1, if j < |a| then j else j - 1;
      if i != |a| && j != |a| { assert (a + b)[i'] != (a + b)[j']; }
      if i == |a| { assert (a + b)[j'] in a + b; }
      if j == |a| { assert (a + b)[i'] in a + b; }
    }
  }

  lemma KeysPlaced(a: seq<Contribution>, row: Contribution, b: seq<Contribution>)
    requires Distinct(Keys(a + b)) && row.key !in Keys(a + b)
    ensures Distinct(Keys(a + [row] + b))
    ensures forall key :: key in Keys(a + [row] + b) <==> key in Keys(a + b) || key == row.key
  {
    assert Keys(a + [row] + b) == Keys(a) + [row.key] + Keys(b);
    assert Keys(a + b) == Keys(a) + Keys(b);
    DistinctPlaced(Keys(a), row.key, Keys(b));
  }

  method PlaceRow(rows: seq<Contribution>, row: Contribution) returns (longer: seq<Contribution>)
    requires Ordered(rows) && Distinct(Keys(rows)) && row.key !in Keys(rows)
    ensures Ordered(longer) && Distinct(Keys(longer))
    ensures forall r :: r in longer <==> r in rows || r == row
    ensures forall key :: key in Keys(longer) <==> key in Keys(rows) || key == row.key
  {
    ghost var k: nat;
    longer, k := InsertRow(rows, row);
    assert rows == rows[..k] + rows[k..];
    KeysPlaced(rows[..k], row, rows[k..]);
  }

  lemma {:induction false} ProperPart(entries: seq<Entry>, dim: Dimension, key: string)
    requires Proper(All(entries))
    ensures Proper(All(Of(entries, dim, key)))
  {
    if entries != [] {
      var init, last := entries[..|entries| - 1], entries[|entries| - 1];
      assert entries == init + [last];
      Snoc(init, last, dim, key);
      SpansGrow(init, last, dim, key);
      assert last.span in All(entries);
      ProperPart(init, dim, key);
    }
  }

  // ---------------------------------------------------------------- what the breakdowns add up to

  function SumTokens(rows: seq<Contribution>): int {
    if rows == [] then 0 else SumTokens(rows[..|rows| - 1]) + rows[|rows| - 1].tokens
  }

  function SumContributions(rows: seq<Contribution>): real {
    if rows == [] then 0.0 else SumContributions(rows[..|rows| - 1]) + rows[|rows| - 1].contribution
  }

  lemma RateAdds(a: int, b: int, active: int)
    ensures Rate(a + b, active) == Rate(a, active) + Rate(b, active)
  {
    if active > 0 {
      var d := active as real;
      assert (a as real * 1000.0) / d + (b as real * 1000.0) / d == (a as real * 1000.0 + b as real * 1000.0) / d;
    }
  }

  lemma {:induction false} TokensOfRows(rows: seq<Contribution>, entries: seq<Entry>, dim: Dimension, globalActive: int)
    requires OwnFigures(rows, entries, dim, globalActive)
    ensures SumTokens(rows) == SumOver(Keys(rows), entries, dim)
  {
    if rows != [] {
      assert rows[|rows| - 1] in rows;
      TokensOfRows(rows[..|rows| - 1], entries, dim, globalActive);
      assert Keys(rows)[..|rows| - 1] == Keys(rows[..|rows| - 1]);
    }
  }

  lemma {:induction false} RatesOfRows(rows: seq<Contribution>, globalActive: int)
    requires forall r :: r in rows ==> r.contribution == Rate(r.tokens, globalActive)
    ensures SumContributions(rows) == Rate(SumTokens(rows), globalActive)
  {
    if rows != [] {
      var init, last := rows[..|rows| - 1], rows[|rows| - 1];
      assert last in rows;
      RatesOfRows(init, globalActive);
      RateAdds(SumTokens(init), last.tokens, globalActive);
    }
  }

  /** Every breakdown shares out exactly the tokens of the window, and its contributions add up to the aggregate rate. */
  lemma BreakdownReconciles(rows: seq<Contribution>, entries: seq<Entry>, dim: Dimension, globalActive: int)
    requires Breakdown(rows, entries, dim, globalActive)
    ensures SumTokens(rows) == Total(entries)
    ensures SumContributions(rows) == Rate(Total(entries), globalActive)
  {
    TokensOfRows(rows, entries, dim, globalActive);
    RatesOfRows(rows, globalActive);
    forall e | e in entries ensures KeyOf(dim, e) in Keys(rows) {
      assert Occurs(entries, dim, KeyOf(dim, e));
    }
    SharedOutExactly(Keys(rows), entries, dim);
  }

  lemma {:induction false} GroupWithinAll(entries: seq<Entry>, dim: Dimension, key: string)
    ensures Cells(All(Of(entries, dim, key))) <= Cells(All(entries))
  {
    if entries != [] {
      var init, last := entries[..|entries| - 1], entries[|entries| - 1];
      assert entries == init + [last];
      GroupWithinAll(init, dim, key);
      SpansGrow(init, last, dim, key);
      Snoc(init, last, dim, key);
      CellsSnoc(All(init), last.span);
      CellsSnoc(All(Of(init, dim, key)), last.span);
    }
  }

  lemma CellsSnoc(spans: seq<Span>, s: Span)
    ensures Cells(spans + [s]) == Cells(spans) + Range(s.start, s.end)
  {
    assert (spans + [s])[..|spans|] == spans;
  }

  lemma {:induction false} AllInWindow(entries: seq<Entry>, from: int, to: int)
    requires forall e :: e in entries ==> EntryOk(e, from, to)
    ensures Proper(All(entries)) && Cells(All(entries)) <= Range(from, to)
    ensures Total(entries) >= 0 && (entries != [] ==> Cells(All(entries)) != {} && from <= to)
  {
    if entries != [] {
      var init, last := entries[..|entries| - 1], entries[|entries| - 1];
      assert EntryOk(last, from, to);
      AllInWindow(init, from, to);
      CellsSnoc(All(init), last.span);
      assert last.span.start in Cells(All(entries));
    }
  }

  lemma RateFalls(tokens: int, active: int, longer: int)
    requires tokens >= 0 && 0 < active <= longer
    ensures Rate(tokens, active) >= Rate(tokens, longer)
  {
    var x, a, b := tokens as real * 1000.0, active as real, longer as real;
    var q := x / b;
    assert q * b == x && q >= 0.0;
    assert q * a <= q * b;
    assert x / a >= q;
  }

  /**
   A group is active no longer than the fleet, the fleet no longer than the window, so a group's own speed is
   never below its contribution; and a listed group was active.
   */
  lemma NativeAtLeastContribution(rows: seq<Row>, from: int, to: int, device: string, dim: Dimension, key: string)
    requires Occurs(Entries(rows, from, to, device), dim, key)
    ensures var es := Entries(rows, from, to, device);
            var active := |Cells(All(es))|;
            var r := RowFor(es, dim, key, active);
            0 < r.active <= active <= to - from && r.native >= r.contribution && r.tokens >= 0
  {
    var es := Entries(rows, from, to, device);
    SharesAreProper(rows, from, to, device);
    AllInWindow(es, from, to);
    AbsentIsEmpty(es, dim, key);
    OfMembers(es, dim, key);
    AllInWindow(Of(es, dim, key), from, to);
    GroupWithinAll(es, dim, key);
    SubsetSize(Cells(All(Of(es, dim, key))), Cells(All(es)));
    SubsetSize(Cells(All(es)), Range(from, to));
    RangeSize(from, to);
    RateFalls(Total(Of(es, dim, key)), |Cells(All(Of(es, dim, key)))|, |Cells(All(es))|);
  }

  lemma {:induction false} OfMembers(entries: seq<Entry>, dim: Dimension, key: string)
    ensures forall e :: e in Of(entries, dim, key) ==> e in entries
  {
    if entries != [] {
      OfMembers(entries[..|entries| - 1], dim, key);
    }
  }

  // ---------------------------------------------------------------- the in-place session sort

  /** One more session let down from the end past those with fewer tokens. */
  function Insert(sorted: seq<Session>, s: Session): seq<Session> {
    if sorted == [] || s.tokens <= sorted[|sorted| - 1].tokens then sorted + [s]
    else Insert(sorted[..|sorted| - 1], s) + [sorted[|sorted| - 1]]
  }

  function SortedByTokens(ss: seq<Session>): seq<Session> {
    if ss == [] then [] else Insert(SortedByTokens(ss[..|ss| - 1]), ss[|ss| - 1])
  }

  lemma MiddleAndLast(ss: seq<Session>, j: nat)
    requires j < |ss|
    ensures ss[..|ss| - 1][j..] + [ss[|ss| - 1]] == ss[j..] && ss[..|ss| - 1][..j] == ss[..j]
  {
  }

  lemma {:induction false} InsertedAt(sorted: seq<Session>, s: Session, j: nat)
    requires j <= |sorted| && (forall k :: j <= k < |sorted| ==> s.tokens > sorted[k].tokens)
    requires j > 0 ==> s.tokens <= sorted[j - 1].tokens
    ensures Insert(sorted, s) == sorted[..j] + [s] + sorted[j..]
  {
    if j < |sorted| {
      InsertedAt(sorted[..|sorted| - 1], s, j);
      MiddleAndLast(sorted, j);
    }
  }

  lemma LetDownIs(was: seq<Session>, now: seq<Session>, i: nat, j: nat)
    requires |was| == |now| && j <= i < |was| && now[j] == was[i]
    requires forall k :: 0 <= k < j || i < k < |was| ==> now[k] == was[k]
    requires forall k :: j <= k < i ==> now[k + 1] == was[k] && was[i].tokens > was[k].tokens
    requires j > 0 ==> was[i].tokens <= was[j - 1].tokens
    ensures now[..i + 1] == Insert(was[..i], was[i]) && now[i + 1..] == was[i + 1..]
  {
    InsertedAt(was[..i], was[i], j);
    assert now[..i + 1] == was[..i][..j] + [was[i]] + was[..i][j..];
  }

  /** The inner loop: the session at `i` is swapped down to `j`, past those with fewer tokens. */
  method SwapDown(ss: array<Session>, i: nat) returns (j: nat)
    requires i < ss.Length
    modifies ss
    ensures j <= i && ss[j] == old(ss[i])
    ensures forall k :: 0 <= k < j || i < k < ss.Length ==> ss[k] == old(ss[k])
    ensures forall k :: j <= k < i ==> ss[k + 1] == old(ss[k]) && old(ss[i].tokens) > old(ss[k].tokens)
    ensures j > 0 ==> old(ss[i].tokens) <= old(ss[j - 1].tokens)
  {
    j := i;
    while j > 0 && ss[j].tokens > ss[j - 1].tokens
      invariant j <= i
      invariant ss[j] == old(ss[i])
      invariant forall k :: 0 <= k < j || i < k < ss.Length ==> ss[k] == old(ss[k])
      invariant forall k :: j <= k < i ==> ss[k + 1] == old(ss[k])
      invariant forall k :: j <= k < i ==> old(ss[i].tokens) > old(ss[k].tokens)
    {
      assert ss[j - 1] == old(ss[j - 1]);
      ss[j], ss[j - 1] := ss[j - 1], ss[j];
      j := j - 1;
    }
  }

  method LetDown(ss: array<Session>, i: nat)
    requires i < ss.Length
    modifies ss
    ensures ss[..][..i + 1] == Insert(old(ss[..])[..i], old(ss[..])[i])
    ensures ss[..][i + 1..] == old(ss[..])[i + 1..]
  {
    ghost var was := ss[..];
    var j := SwapDown(ss, i);
    LetDownIs(was, ss[..], i, j);
  }

  method SortSessionsByTokens(ss: array<Session>)
    modifies ss
    ensures ss[..] == SortedByTokens(old(ss[..]))
  {
    ghost var was := ss[..];
    if ss.Length == 0 {
      return;
    }
    assert was[..1][..0] == [];
    for i := 1 to ss.Length
      invariant ss[..][..i] == SortedByTokens(was[..i])
      invariant ss[..][i..] == was[i..]
    {
      assert ss[..][i] == ss[..][i..][0] == was[i..][0] == was[i];
      assert ss[..][i + 1..] == ss[..][i..][1..] == was[i + 1..];
      LetDown(ss, i);
      assert was[..i + 1][..i] == was[..i];
    }
    assert ss[..][..ss.Length] == ss[..] && was[..ss.Length] == was;
  }

  predicate Descending(ss: seq<Session>) {
    forall i, j :: 0 <= i < j < |ss| ==> ss[i].tokens >= ss[j].tokens
  }

  lemma {:induction false} InsertAdds(sorted: seq<Session>, s: Session)
    ensures multiset(Insert(sorted, s)) == multiset(sorted) + multiset{s}
  {
    if sorted != [] && s.tokens > sorted[|sorted| - 1].tokens {
      InsertAdds(sorted[..|sorted| - 1], s);
      assert sorted == sorted[..|sorted| - 1] + [sorted[|sorted| - 1]];
    }
  }

  predicate AllAtLeast(ss: seq<Session>, tokens: int) {
    forall i :: 0 <= i < |ss| ==> ss[i].tokens >= tokens
  }

  lemma {:induction false} InsertKeeps(sorted: seq<Session>, s: Session, low: int)
    requires Descending(sorted) && AllAtLeast(sorted, low) && s.tokens >= low
    ensures Descending(Insert(sorted, s)) && AllAtLeast(Insert(sorted, s), low)
  {
    if sorted != [] && s.tokens > sorted[|sorted| - 1].tokens {
      InsertKeeps(sorted[..|sorted| - 1], s, sorted[|sorted| - 1].tokens);
    }
  }

  lemma {:induction false} SortIsDescending(ss: seq<Session>)
    ensures Descending(SortedByTokens(ss))
  {
    if ss != [] {
      var before := SortedByTokens(ss[..|ss| - 1]);
      SortIsDescending(ss[..|ss| - 1]);
      InsertKeeps(before, ss[|ss| - 1], if before == [] || ss[|ss| - 1].tokens < before[|before| - 1].tokens then ss[|ss| - 1].tokens else before[|before| - 1].tokens);
    }
  }

  lemma {:induction false} SortKeepsAll(ss: seq<Session>)
    ensures multiset(SortedByTokens(ss)) == multiset(ss)
  {
    if ss != [] {
      var init, last := ss[..|ss| - 1], ss[|ss| - 1];
      SortKeepsAll(init);
      InsertAdds(SortedByTokens(init), last);
      assert ss == init + [last];
    }
  }

  /** The sort orders by falling tokens and keeps exactly the sessions it was given. */
  lemma SortIsPermutation(ss: seq<Session>)
    ensures Descending(SortedByTokens(ss)) && multiset(SortedByTokens(ss)) == multiset(ss)
  {
    SortIsDescending(ss);
    SortKeepsAll(ss);
  }

  /** The sessions with just these many tokens, in order. */
  function Tied(ss: seq<Session>, tokens: int): seq<Session> {
    if ss == [] then [] else Tied(ss[..|ss| - 1], tokens) + if ss[|ss| - 1].tokens == tokens then [ss[|ss| - 1]] else []
  }

  lemma TiedSnoc(ss: seq<Session>, s: Session, tokens: int)
    ensures Tied(ss + [s], tokens) == Tied(ss, tokens) + if s.tokens == tokens then [s] else []
  {
    assert (ss + [s])[..|ss|] == ss;
  }

  lemma {:induction false} InsertIsStable(sorted: seq<Session>, s: Session, tokens: int)
    requires Descending(sorted)
    ensures Tied(Insert(sorted, s), tokens) == Tied(sorted, tokens) + if s.tokens == tokens then [s] else []
  {
    if sorted == [] || s.tokens <= sorted[|sorted| - 1].tokens {
      TiedSnoc(sorted, s, tokens);
    } else {
      var init, last := sorted[..|sorted| - 1], sorted[|sorted| - 1];
      InsertIsStable(init, s, tokens);
      TiedSnoc(Insert(init, s), last, tokens);
      if last.tokens == tokens { assert Tied(sorted, tokens) == Tied(init, tokens) + [last]; }
    }
  }

  /** Sessions with equal tokens keep their order. */
  lemma {:induction false} SortIsStable(ss: seq<Session>, tokens: int)
    ensures Tied(SortedByTokens(ss), tokens) == Tied(ss, tokens)
  {
    if ss != [] {
      SortIsStable(ss[..|ss| - 1], tokens);
      SortIsDescending(ss[..|ss| - 1]);
      InsertIsStable(SortedByTokens(ss[..|ss| - 1]), ss[|ss| - 1], tokens);
    }
  }

  // ---------------------------------------------------------------- sessions

  /** The session map's value: its first row, its running figures, and the model of its latest event so far. */
  datatype Stream = Stream(first: Row, tokens: int, spans: seq<Span>, lastTS: int, model: string)

  function LatestTS(es: seq<Entry>): int {
    if es == [] then 0
    else
      var init, last := LatestTS(es[..|es| - 1]), es[|es| - 1].row.ts;
      if last >= init then last else init
  }

  function LatestModel(es: seq<Entry>): string {
    if es == [] then ""
    else if es[|es| - 1].row.ts >= LatestTS(es[..|es| - 1]) then es[|es| - 1].row.model
    else LatestModel(es[..|es| - 1])
  }

  /** The model shown is that of the latest event, the later one winning a tie. */
  lemma {:induction false} LatestIsTheLast(es: seq<Entry>) returns (i: nat)
    requires es != [] && forall e :: e in es ==> e.row.ts >= 0
    ensures i < |es| && LatestTS(es) == es[i].row.ts && LatestModel(es) == es[i].row.model
    ensures forall j :: 0 <= j < |es| ==> if j <= i then es[j].row.ts <= es[i].row.ts else es[j].row.ts < es[i].row.ts
  {
    var init, last := es[..|es| - 1], es[|es| - 1];
    assert last in es;
    if init == [] {
      i := 0;
    } else {
      i := LatestIsTheLast(init);
      if last.row.ts >= LatestTS(init) { i := |es| - 1; }
    }
  }

  ghost predicate StreamIs(x: Stream, es: seq<Entry>) {
    es != [] && x == Stream(es[0].row, Total(es), All(es), LatestTS(es), LatestModel(es))
  }

  ghost predicate StreamAt(streams: map<string, Stream>, entries: seq<Entry>, key: string) {
    && (key in streams <==> Of(entries, BySession, key) != [])
    && (key in streams ==> StreamIs(streams[key], Of(entries, BySession, key)))
  }

  ghost predicate StreamsOf(streams: map<string, Stream>, entries: seq<Entry>) {
    forall key :: StreamAt(streams, entries, key)
  }

  function StreamOne(was: Stream, e: Entry): Stream {
    var latest := e.row.ts >= was.lastTS;
    Stream(was.first, was.tokens + e.tokens, was.spans + [e.span],
           if latest then e.row.ts else was.lastTS, if latest then e.row.model else was.model)
  }

  lemma StreamGrows(x: Stream, es: seq<Entry>, e: Entry)
    requires StreamIs(x, es)
    ensures StreamIs(StreamOne(x, e), es + [e])
  {
    assert (es + [e])[..|es|] == es;
  }

  lemma StreamStarts(e: Entry)
    ensures StreamIs(StreamOne(Stream(e.row, 0, [], 0, ""), e), [e])
  {
    assert [e][..0] == [];
  }

  lemma OfSnoc(entries: seq<Entry>, e: Entry, dim: Dimension, key: string)
    ensures Of(entries + [e], dim, key) == if KeyOf(dim, e) == key then Of(entries, dim, key) + [e] else Of(entries, dim, key)
  {
    assert (entries + [e])[..|entries|] == entries;
  }

  lemma StreamAdded(streams: map<string, Stream>, entries: seq<Entry>, e: Entry, key: string, own: string)
    requires StreamAt(streams, entries, key) && own == KeyOf(BySession, e)
    ensures StreamAt(streams[own := StreamOne(if own in streams then streams[own] else Stream(e.row, 0, [], 0, ""), e)],
                     entries + [e], key)
  {
    OfSnoc(entries, e, BySession, key);
    if key == own {
      if key in streams {
        StreamGrows(streams[key], Of(entries, BySession, key), e);
      } else {
        StreamStarts(e);
        assert [] + [e] == [e];
      }
    }
  }

  method AddToStream(streams: map<string, Stream>, ghost entries: seq<Entry>, e: Entry) returns (added: map<string, Stream>)
    requires StreamsOf(streams, entries)
    ensures StreamsOf(added, entries + [e])
  {
    var key := e.row.device + "\0" + e.row.session;
    assert key == KeyOf(BySession, e);
    var a := if key in streams then streams[key] else Stream(e.row, 0, [], 0, "");
    added := streams[key := StreamOne(a, e)];
    ghost var longer := entries + [e];
    forall k ensures StreamAt(added, longer, k) {
      StreamAdded(streams, entries, e, k, key);
    }
  }

  /** Merged spans with their total length. */
  method Measure(spans: seq<Span>) returns (merged: seq<Span>, active: int)
    requires Proper(spans)
    ensures Canonical(merged) && SameCover(merged, spans) && active == |Cells(spans)|
  {
    merged := MergeSpans(spans);
    active := SumMS(merged);
    SeparatedSum(merged);
    SameCoverSameCells(merged, spans);
  }

  /** What a session's row says of its entries. */
  ghost predicate SessionOf(s: Session, es: seq<Entry>, globalActive: int)
    requires es != []
  {
    var first := es[0].row;
    && s.sessionID == first.session && s.device == first.device && s.repo == first.repo && s.source == first.source
    && s.model == LatestModel(es) && s.lastTS == LatestTS(es)
    && s.tokens == Total(es) && s.active == |Cells(All(es))|
    && s.native == Rate(s.tokens, s.active) && s.contribution == Rate(s.tokens, globalActive)
    && Canonical(s.spans) && SameCover(s.spans, All(es))
  }

  ghost predicate SessionAt(s: Session, key: string, entries: seq<Entry>, globalActive: int) {
    Of(entries, BySession, key) != [] && SessionOf(s, Of(entries, BySession, key), globalActive)
  }

  /** One row per session, in the order of `keys`. */
  ghost predicate SessionRows(rows: seq<Session>, keys: seq<string>, entries: seq<Entry>, globalActive: int) {
    && |rows| == |keys| && Distinct(keys)
    && forall i :: 0 <= i < |rows| ==> SessionAt(rows[i], keys[i], entries, globalActive)
  }

  method MakeSession(a: Stream, ghost es: seq<Entry>, globalActive: int) returns (s: Session)
    requires StreamIs(a, es) && Proper(All(es))
    ensures SessionOf(s, es, globalActive)
  {
    var merged, active := Measure(a.spans);
    s := Session(a.first.session, a.first.device, a.first.repo, a.first.source, a.model, a.lastTS, a.tokens, active,
                 Rate(a.tokens, active), Rate(a.tokens, globalActive), merged);
  }

  lemma SessionRowsSnoc(rows: seq<Session>, keys: seq<string>, entries: seq<Entry>, globalActive: int, s: Session, key: string)
    requires SessionRows(rows, keys, entries, globalActive) && key !in keys
    requires SessionAt(s, key, entries, globalActive)
    ensures SessionRows(rows + [s], keys + [key], entries, globalActive)
  {
  }

  method BuildSessions(streams: map<string, Stream>, ghost entries: seq<Entry>, globalActive: int)
    returns (rows: seq<Session>, ghost keys: seq<string>)
    requires StreamsOf(streams, entries) && Proper(All(entries))
    ensures SessionRows(rows, keys, entries, globalActive)
    ensures forall key :: key in keys <==> Occurs(entries, BySession, key)
  {
    rows, keys := [], [];
    var left := streams.Keys;
    while left != {}
      invariant left <= streams.Keys
      invariant SessionRows(rows, keys, entries, globalActive)
      invariant forall key :: key in keys <==> key in streams.Keys - left
    {
      var key :| key in left;
      assert StreamAt(streams, entries, key);
      ProperPart(entries, BySession, key);
      var s := MakeSession(streams[key], Of(entries, BySession, key), globalActive);
      SessionRowsSnoc(rows, keys, entries, globalActive, s, key);
      rows, keys := rows + [s], keys + [key];
      left := left - {key};
    }
    forall key ensures key in keys <==> Occurs(entries, BySession, key) {
      assert StreamAt(streams, entries, key);
      AbsentIsEmpty(entries, BySession, key);
    }
  }

  function SumSessions(ss: seq<Session>): int {
    if ss == [] then 0 else SumSessions(ss[..|ss| - 1]) + ss[|ss| - 1].tokens
  }

  lemma {:induction false} InsertKeepsSum(sorted: seq<Session>, s: Session)
    ensures SumSessions(Insert(sorted, s)) == SumSessions(sorted) + s.tokens
  {
    if sorted == [] || s.tokens <= sorted[|sorted| - 1].tokens {
      assert (sorted + [s])[..|sorted|] == sorted;
    } else {
      InsertKeepsSum(sorted[..|sorted| - 1], s);
      var inserted := Insert(sorted[..|sorted| - 1], s);
      assert (inserted + [sorted[|sorted| - 1]])[..|inserted|] == inserted;
    }
  }

  lemma {:induction false} SortKeepsSum(ss: seq<Session>)
    ensures SumSessions(SortedByTokens(ss)) == SumSessions(ss)
  {
    if ss != [] {
      SortKeepsSum(ss[..|ss| - 1]);
      InsertKeepsSum(SortedByTokens(ss[..|ss| - 1]), ss[|ss| - 1]);
    }
  }

  lemma SessionRowsInit(rows: seq<Session>, keys: seq<string>, entries: seq<Entry>, globalActive: int)
    requires SessionRows(rows, keys, entries, globalActive) && rows != []
    ensures SessionRows(rows[..|rows| - 1], keys[..|keys| - 1], entries, globalActive)
    ensures rows[|rows| - 1].tokens == Total(Of(entries, BySession, keys[|keys| - 1]))
  {
    LastSession(rows, keys, entries, globalActive);
    DistinctInit(keys);
    var front, names := rows[..|rows| - 1], keys[..|keys| - 1];
    forall i | 0 <= i < |front| ensures SessionAt(front[i], names[i], entries, globalActive) {
      assert SessionAt(rows[i], keys[i], entries, globalActive);
    }
  }

  lemma LastSession(rows: seq<Session>, keys: seq<string>, entries: seq<Entry>, globalActive: int)
    requires SessionRows(rows, keys, entries, globalActive) && rows != []
    ensures rows[|rows| - 1].tokens == Total(Of(entries, BySession, keys[|keys| - 1]))
  {
    assert SessionAt(rows[|rows| - 1], keys[|keys| - 1], entries, globalActive);
  }

  lemma {:induction false} SumOfSessionRows(rows: seq<Session>, keys: seq<string>, entries: seq<Entry>, globalActive: int)
    requires SessionRows(rows, keys, entries, globalActive)
    ensures SumSessions(rows) == SumOver(keys, entries, BySession)
  {
    if rows != [] {
      SessionRowsInit(rows, keys, entries, globalActive);
      SumOfSessionRows(rows[..|rows| - 1], keys[..|keys| - 1], entries, globalActive);
    }
  }

  /** The listed sessions share out exactly the window's tokens, as the three other breakdowns do. */
  lemma SessionsReconcile(rows: seq<Session>, keys: seq<string>, entries: seq<Entry>, globalActive: int)
    requires SessionRows(rows, keys, entries, globalActive)
    requires forall key :: key in keys <==> Occurs(entries, BySession, key)
    ensures SumSessions(SortedByTokens(rows)) == Total(entries)
  {
    SortKeepsSum(rows);
    SumOfSessionRows(rows, keys, entries, globalActive);
    forall e | e in entries ensures KeyOf(BySession, e) in keys {
      assert Occurs(entries, BySession, KeyOf(BySession, e));
    }
    SharedOutExactly(keys, entries, BySession);
  }

  function SumSessionContributions(ss: seq<Session>): real {
    if ss == [] then 0.0 else SumSessionContributions(ss[..|ss| - 1]) + ss[|ss| - 1].contribution
  }

  /** Every session's contribution is its tokens over the aggregate's active time. */
  predicate SharesOfRate(ss: seq<Session>, globalActive: int) {
    forall s :: s in ss ==> s.contribution == Rate(s.tokens, globalActive)
  }

  lemma SortKeepsShares(ss: seq<Session>, globalActive: int)
    requires SharesOfRate(ss, globalActive)
    ensures SharesOfRate(SortedByTokens(ss), globalActive)
  {
    SortKeepsAll(ss);
    forall s | s in SortedByTokens(ss) ensures s.contribution == Rate(s.tokens, globalActive) {
      assert s in multiset(SortedByTokens(ss)) && s in multiset(ss);
    }
  }

  lemma {:induction false} SharesAddUp(ss: seq<Session>, globalActive: int)
    requires SharesOfRate(ss, globalActive)
    ensures SumSessionContributions(ss) == Rate(SumSessions(ss), globalActive)
  {
    if ss != [] {
      var init, last := ss[..|ss| - 1], ss[|ss| - 1];
      assert last in ss;
      SharesAddUp(init, globalActive);
      RateAdds(SumSessions(init), last.tokens, globalActive);
    }
  }

  /** The contributions of the listed sessions add up to the aggregate rate. */
  lemma SessionRatesReconcile(rows: seq<Session>, keys: seq<string>, entries: seq<Entry>, globalActive: int)
    requires SessionRows(rows, keys, entries, globalActive)
    requires forall key :: key in keys <==> Occurs(entries, BySession, key)
    ensures SumSessionContributions(SortedByTokens(rows)) == Rate(Total(entries), globalActive)
  {
    forall s | s in rows ensures s.contribution == Rate(s.tokens, globalActive) {
      var i :| 0 <= i < |rows| && rows[i] == s;
      assert SessionAt(rows[i], keys[i], entries, globalActive);
    }
    SortKeepsShares(rows, globalActive);
    SharesAddUp(SortedByTokens(rows), globalActive);
    SessionsReconcile(rows, keys, entries, globalActive);
  }

  // ---------------------------------------------------------------- the whole answer

  datatype Report = Report(
    tokens: int, active: int, rate: real, spans: seq<Span>,
    sessions: seq<Session>, sources: seq<Contribution>, devices: seq<Contribution>, models: seq<Contribution>)

  datatype Sums = Sums(
    streams: map<string, Stream>, sources: map<string, Group>, devices: map<string, Group>, models: map<string, Group>,
    tokens: int, all: seq<Span>)

  ghost predicate SumsOf(a: Sums, entries: seq<Entry>) {
    && StreamsOf(a.streams, entries) && GroupsOf(a.sources, entries, BySource) && GroupsOf(a.devices, entries, ByDevice)
    && GroupsOf(a.models, entries, ByModel) && a.tokens == Total(entries) && a.all == All(entries)
  }

  method AddEntry(a: Sums, ghost entries: seq<Entry>, e: Entry) returns (b: Sums)
    requires SumsOf(a, entries)
    ensures SumsOf(b, entries + [e])
  {
    var streams := AddToStream(a.streams, entries, e);
    var sources := AddSpeedContribution(a.sources, entries, e, BySource);
    var devices := AddSpeedContribution(a.devices, entries, e, ByDevice);
    var models := AddSpeedContribution(a.models, entries, e, ByModel);
    Snoc(entries, e, BySession, "");
    b := Sums(streams, sources, devices, models, a.tokens + e.tokens, a.all + [e.span]);
  }

  /** One row of the query: selected, cut to the window, and added to every sum. */
  method ScanRow(a: Sums, ghost entries: seq<Entry>, r: Row, from: int, to: int, device: string) returns (b: Sums)
    requires SumsOf(a, entries)
    ensures SumsOf(b, Entered(entries, r, from, to, device))
  {
    b := a;
    if Selected(r, from, to, device) {
      var eventStart, eventEnd := r.ts - r.gen, r.ts;
      var start, end := eventStart, eventEnd;
      if start < from { start := from; }
      if end > to { end := to; }
      if end > start {
        var share := r.output * (end - start) / (eventEnd - eventStart);
        b := AddEntry(a, entries, Entry(r, share, Span(start, end)));
      }
    }
  }

  method Scan(rows: seq<Row>, from: int, to: int, device: string) returns (a: Sums)
    ensures SumsOf(a, Entries(rows, from, to, device))
  {
    a := Sums(map[], map[], map[], map[], 0, []);
    NothingSummed(a);
    for i := 0 to |rows|
      invariant SumsOf(a, Entries(rows[..i], from, to, device))
    {
      assert rows[..i + 1][..i] == rows[..i];
      a := ScanRow(a, Entries(rows[..i], from, to, device), rows[i], from, to, device);
    }
    assert rows[..|rows|] == rows;
  }

  lemma NothingSummed(a: Sums)
    requires a == Sums(map[], map[], map[], map[], 0, [])
    ensures SumsOf(a, [])
  {
  }

  ghost predicate SpeedOf(tokens: int, active: int, rate: real, spans: seq<Span>, es: seq<Entry>) {
    && tokens == Total(es) && active == |Cells(All(es))| && rate == Rate(tokens, active)
    && Canonical(spans) && SameCover(spans, All(es))
  }

  ghost predicate SessionsOf(sessions: seq<Session>, unsorted: seq<Session>, keys: seq<string>, es: seq<Entry>, active: int) {
    && SessionRows(unsorted, keys, es, active) && sessions == SortedByTokens(unsorted)
    && (forall key :: key in keys <==> Occurs(es, BySession, key))
  }

  /** The four breakdowns and the aggregate over one list of entries. */
  ghost predicate ReportOf(r: Report, unsorted: seq<Session>, keys: seq<string>, es: seq<Entry>) {
    && SpeedOf(r.tokens, r.active, r.rate, r.spans, es)
    && Breakdown(r.sources, es, BySource, r.active) && Breakdown(r.devices, es, ByDevice, r.active)
    && Breakdown(r.models, es, ByModel, r.active)
    && SessionsOf(r.sessions, unsorted, keys, es, r.active)
  }

  /** Sessions come out of a map in any order before they are sorted. */
  method ListSessions(streams: map<string, Stream>, ghost es: seq<Entry>, active: int)
    returns (sorted: seq<Session>, ghost unsorted: seq<Session>, ghost keys: seq<string>)
    requires StreamsOf(streams, es) && Proper(All(es))
    ensures SessionsOf(sorted, unsorted, keys, es, active)
  {
    var rows, k := BuildSessions(streams, es, active);
    var sessions := new Session[|rows|](i requires 0 <= i < |rows| => rows[i]);
    assert sessions[..] == rows;
    SortSessionsByTokens(sessions);
    sorted, unsorted, keys := sessions[..], rows, k;
  }

  method MakeSpeed(tokens: int, all: seq<Span>, ghost es: seq<Entry>) returns (active: int, rate: real, spans: seq<Span>)
    requires tokens == Total(es) && all == All(es) && Proper(All(es))
    ensures SpeedOf(tokens, active, rate, spans, es)
  {
    spans, active := Measure(all);
    rate := Rate(tokens, active);
  }

  method MakeReport(a: Sums, ghost es: seq<Entry>) returns (r: Report, ghost unsorted: seq<Session>, ghost keys: seq<string>)
    requires SumsOf(a, es) && Proper(All(es))
    ensures ReportOf(r, unsorted, keys, es)
  {
    var active, rate, spans := MakeSpeed(a.tokens, a.all, es);
    var sessions, u, k := ListSessions(a.streams, es, active);
    var sources := BuildSpeedContributions(a.sources, es, BySource, active);
    var devices := BuildSpeedContributions(a.devices, es, ByDevice, active);
    var models := BuildSpeedContributions(a.models, es, ByModel, active);
    r := Report(a.tokens, active, rate, spans, sessions, sources, devices, models);
    unsorted, keys := u, k;
  }

  method LiveSpeedSince(rows: seq<Row>, from: int, to: int, device: string)
    returns (r: Report, ghost unsorted: seq<Session>, ghost keys: seq<string>)
    ensures var es := Entries(rows, from, to, device);
            SpeedOf(r.tokens, r.active, r.rate, r.spans, es) && Breakdown(r.sources, es, BySource, r.active)
            && Breakdown(r.devices, es, ByDevice, r.active) && Breakdown(r.models, es, ByModel, r.active)
    ensures SessionsOf(r.sessions, unsorted, keys, Entries(rows, from, to, device), r.active)
  {
    var a := Scan(rows, from, to, device);
    SharesAreProper(rows, from, to, device);
    AllInWindow(Entries(rows, from, to, device), from, to);
    r, unsorted, keys := MakeReport(a, Entries(rows, from, to, device));
  }

  /** All four breakdowns of one report share out its tokens exactly, and their contributions its rate. */
  lemma ReportReconciles(r: Report, unsorted: seq<Session>, keys: seq<string>, es: seq<Entry>)
    requires ReportOf(r, unsorted, keys, es)
    ensures SumTokens(r.sources) == SumTokens(r.devices) == SumTokens(r.models) == SumSessions(r.sessions) == r.tokens
    ensures SumContributions(r.sources) == SumContributions(r.devices) == SumContributions(r.models) == r.rate
    ensures SumSessionContributions(r.sessions) == r.rate
  {
    BreakdownReconciles(r.sources, es, BySource, r.active);
    BreakdownReconciles(r.devices, es, ByDevice, r.active);
    BreakdownReconciles(r.models, es, ByModel, r.active);
    SessionsReconcile(unsorted, keys, es, r.active);
    SessionRatesReconcile(unsorted, keys, es, r.active);
  }
}
