/**
 Newline-delimited parsers meet the contract the pipeline relies on: whatever is made of each line, whole
 lines are consumed and pieces add up (internal/parser/claudecode/parser.go, Parse's loop).
 */
module LineParsers {
  import opened Ingest
  import opened Scans
  import opened EventHistory
  import opened Pipeline
  import opened EndToEnd

  const NEWLINE: bv8 := 10

  /** The length of the complete lines at the front. */
  function Complete(b: Bytes): (n: nat)
    ensures n <= |b|
    ensures n == 0 || b[n - 1] == NEWLINE
    ensures forall i :: n <= i < |b| ==> b[i] != NEWLINE
  {
    if b == [] then 0 else if b[|b| - 1] == NEWLINE then |b| else Complete(b[..|b| - 1])
  }

  /** The usage event of one line, given the turn in flight; `measure` may use the turn only for durations. */
  datatype LineFormat = LineFormat(event: Bytes -> Option<Event>, measure: (Event, int) -> int, turn: (Bytes, int) -> int)

  function LineEvents(f: LineFormat, line: Bytes, turn: int): seq<Event> {
    var e := f.event(line);
    if e.None? then [] else [e.value.(genMS := f.measure(e.value, turn))]
  }

  /** Where the last complete line starts. */
  function LastLine(b: Bytes): (n: nat)
    requires b != []
    ensures n < |b|
  {
    Complete(b[..|b| - 1])
  }

  /** The turn in flight after the complete lines of b. */
  function TurnAfter(f: LineFormat, b: Bytes, turn: int): int
    decreases |b|
  {
    var n := Complete(b);
    if n == 0 then turn else f.turn(b[LastLine(b[..n])..n], TurnAfter(f, b[..LastLine(b[..n])], turn))
  }

  function EventsOf(f: LineFormat, b: Bytes, turn: int): seq<Event>
    decreases |b|
  {
    var n := Complete(b);
    if n == 0 then []
    else
      var start := LastLine(b[..n]);
      EventsOf(f, b[..start], turn) + LineEvents(f, b[start..n], TurnAfter(f, b[..start], turn))
  }

  function ParserOf(f: LineFormat): Parser {
    Parser(b => Complete(b), (b, t) => EventsOf(f, b, t), (b, t) => [], (b, t) => TurnAfter(f, b, t))
  }

  function SpecOf(f: LineFormat): SourceSpec {
    SourceSpec(ParserOf(f), false)
  }

  lemma CompleteIs(b: Bytes, n: nat)
    requires n <= |b| && (n == 0 || b[n - 1] == NEWLINE) && forall i :: n <= i < |b| ==> b[i] != NEWLINE
    ensures Complete(b) == n
  {
  }

  lemma CompletePrefix(b: Bytes)
    ensures Complete(b[..Complete(b)]) == Complete(b)
  {
    CompleteIs(b[..Complete(b)], Complete(b));
  }

  lemma CompleteAppend(x: Bytes, y: Bytes)
    requires Complete(x) == |x|
    ensures Complete(x + y) == |x| + Complete(y)
  {
    CompleteIs(x + y, |x| + Complete(y));
  }

  ghost function LineStamps(f: LineFormat, b: Bytes): set<Stamp> {
    StampsOf(EventsOf(f, b, 0))
  }

  lemma StampsAppend(a: seq<Event>, b: seq<Event>)
    ensures StampsOf(a + b) == StampsOf(a) + StampsOf(b)
  {
    assert forall e :: e in a + b <==> e in a || e in b;
  }

  lemma LineStampsIgnoreTurn(f: LineFormat, line: Bytes, t: int, u: int)
    ensures StampsOf(LineEvents(f, line, t)) == StampsOf(LineEvents(f, line, u))
  {
    var e := f.event(line);
    if e.Some? && e.value.id != "" {
      assert e.value.(genMS := f.measure(e.value, t)) in LineEvents(f, line, t);
      assert e.value.(genMS := f.measure(e.value, u)) in LineEvents(f, line, u);
      assert StampsOf(LineEvents(f, line, t)) == {StampOf(e.value)} == StampsOf(LineEvents(f, line, u));
    }
  }

  lemma LastLineIs(w: Bytes, front: Bytes)
    requires w != [] && w[..|w| - 1] == front
    ensures LastLine(w) == Complete(front)
  {
  }

  lemma LastLineWhole(y: Bytes, n: nat)
    requires Complete(y) == n > 0
    ensures n <= |y| && Complete(y[..LastLine(y[..n])]) == LastLine(y[..n]) < n
  {
    FrontOfFront(y, n);
    LastLineIs(y[..n], y[..n - 1]);
    var start := Complete(y[..n - 1]);
    CompletePrefix(y[..n - 1]);
    PrefixOfPrefix(y, n - 1, start);
  }

  lemma FrontOfFront(b: Bytes, n: nat)
    requires 0 < n <= |b|
    ensures b[..n][..n - 1] == b[..n - 1]
  {
  }

  lemma PrefixOfPrefix(b: Bytes, n: nat, start: nat)
    requires start <= n <= |b|
    ensures b[..n][..start] == b[..start] && b[..n][start..n] == b[start..n]
  {
  }

  /** b's last complete line is `last`, after `front`. */
  predicate LastLineAt(b: Bytes, front: Bytes, last: Bytes) {
    var n := Complete(b);
    n > 0 && front == b[..LastLine(b[..n])] && last == b[LastLine(b[..n])..n]
  }

  lemma LastLineAtIs(b: Bytes, n: nat, start: nat)
    requires n == Complete(b) > 0 && start == LastLine(b[..n])
    ensures start < n <= |b| && LastLineAt(b, b[..start], b[start..n])
  {
  }

  /** A trailing partial line does not change which line is last. */
  lemma SameLastLine(b: Bytes, n: nat, start: nat)
    requires n == Complete(b) > 0 && start == LastLine(b[..n])
    ensures n <= |b| && start < n && LastLineAt(b, b[..start], b[start..n]) && LastLineAt(b[..n], b[..start], b[start..n])
    ensures Complete(b[..start]) == start
  {
    CompletePrefix(b);
    LastLineWhole(b, n);
    LastLineAtIs(b, n, start);
    PrefixOfPrefix(b, n, n);
    PrefixOfPrefix(b, n, start);
    LastLineAtIs(b[..n], n, start);
  }

  /** The stamps of the complete lines are those of all but the last, and those of the last. */
  lemma StampsStep(f: LineFormat, b: Bytes, front: Bytes, last: Bytes, turn: int)
    requires LastLineAt(b, front, last)
    ensures StampsOf(EventsOf(f, b, turn)) == StampsOf(EventsOf(f, front, turn)) + StampsOf(LineEvents(f, last, 0))
  {
    StampsAppend(EventsOf(f, front, turn), LineEvents(f, last, TurnAfter(f, front, turn)));
    LineStampsIgnoreTurn(f, last, TurnAfter(f, front, turn), 0);
  }

  /** Ids and times depend on the complete lines only, not on the turn or on a trailing partial line. */
  lemma {:induction false} StampsOfLines(f: LineFormat, b: Bytes, turn: int)
    ensures StampsOf(EventsOf(f, b, turn)) == LineStamps(f, b[..Complete(b)])
    decreases |b|
  {
    var n := Complete(b);
    CompletePrefix(b);
    if n > 0 {
      var start := LastLine(b[..n]);
      var front, last := b[..start], b[start..n];
      SameLastLine(b, n, start);
      StampsOfLines(f, front, turn);
      assert front[..|front|] == front;
      StampsStep(f, b, front, last, turn);
      StampsStep(f, b[..n], front, last, 0);
    }
  }

  lemma FrontOfAppend(x: Bytes, y: Bytes, n: nat)
    requires 0 < n <= |y|
    ensures (x + y)[..|x| + n][..|x| + n - 1] == x + y[..n - 1]
    ensures y[..n][..n - 1] == y[..n - 1]
  {
  }

  lemma LastLineMoves(x: Bytes, y: Bytes, n: nat)
    requires Complete(x) == |x| && 0 < n <= |y|
    ensures LastLine((x + y)[..|x| + n]) == |x| + LastLine(y[..n])
  {
    FrontOfAppend(x, y, n);
    LastLineIs((x + y)[..|x| + n], x + y[..n - 1]);
    LastLineIs(y[..n], y[..n - 1]);
    CompleteAppend(x, y[..n - 1]);
  }

  lemma SliceAppend(x: Bytes, y: Bytes, start: nat, n: nat)
    requires start <= n <= |y|
    ensures (x + y)[..|x| + start] == x + y[..start] && (x + y)[|x| + start..|x| + n] == y[start..n]
  {
  }

  /** The last line of x followed by y is the last line of y. */
  lemma AppendedLastLine(x: Bytes, y: Bytes, n: nat, start: nat)
    requires Complete(x) == |x| && n == Complete(y) > 0 && start == LastLine(y[..n])
    ensures start < n <= |y| && LastLineAt(x + y, (x + y)[..|x| + start], (x + y)[|x| + start..|x| + n])
  {
    CompleteAppend(x, y);
    LastLineMoves(x, y, n);
    LastLineAtIs(x + y, |x| + n, |x| + start);
  }

  lemma {:induction false} LineStampsAppend(f: LineFormat, x: Bytes, y: Bytes)
    requires Complete(x) == |x| && Complete(y) == |y|
    ensures LineStamps(f, x + y) == LineStamps(f, x) + LineStamps(f, y)
    decreases |y|
  {
    if y == [] {
      assert x + y == x;
      assert LineStamps(f, y) == {};
    } else {
      var init, last := SplitLastLine(x, y);
      LineStampsAppend(f, x, init);
      StampsStep(f, x + y, x + init, last, 0);
      StampsStep(f, y, init, last, 0);
      Regroup(LineStamps(f, x + y), LineStamps(f, x), LineStamps(f, init), StampsOf(LineEvents(f, last, 0)), LineStamps(f, y));
    }
  }

  /** b is whole lines: init followed by its last line. */
  predicate EndsWith(b: Bytes, init: Bytes, last: Bytes) {
    Complete(b) == |b| && LastLineAt(b, init, last)
  }

  lemma SplitLastLine(x: Bytes, y: Bytes) returns (init: Bytes, last: Bytes)
    requires Complete(x) == |x| && Complete(y) == |y| > 0
    ensures EndsWith(y, init, last) && EndsWith(x + y, x + init, last)
    ensures Complete(init) == |init| < |y|
  {
    var start := LastLine(y[..|y|]);
    CompleteAppend(x, y);
    AppendedLastLine(x, y, |y|, start);
    SameLastLine(y, |y|, start);
    SliceAppend(x, y, start, |y|);
    init, last := y[..start], y[start..|y|];
  }

  lemma Regroup(all: set<Stamp>, x: set<Stamp>, init: set<Stamp>, last: set<Stamp>, y: set<Stamp>)
    requires all == (x + init) + last && y == init + last
    ensures all == x + y
  {
  }

  /** Every newline-delimited format is a good incremental parser, whatever ids and times its lines carry. */
  lemma LineParserIsGood(f: LineFormat)
    ensures GoodParser(SpecOf(f))
  {
    var spec := SpecOf(f);
    forall b ensures Consumes(spec, b) { CompletePrefix(b); }
    forall b, t ensures ReadsWholeLines(spec, b, t) {
      StampsOfLines(f, b, t);
    }
    forall x, y | Whole(spec, x) ensures Appends(spec, x, y) {
      CompleteAppend(x, y);
      if Whole(spec, y) { LineStampsAppend(f, x, y); }
    }
  }

  /** So the end-to-end theorems speak of every agent whose sources are all of this kind. */
  lemma LineSetupsAreGood(s: Setup, formats: string -> LineFormat)
    requires s.producer.deviceID == s.cfg.device
    requires forall path :: s.sources(path) == SpecOf(formats(path))
    ensures GoodSetup(s)
  {
    forall path ensures GoodParser(s.sources(path)) {
      LineParserIsGood(formats(path));
    }
  }

  // ---------------------------------------------------------------- identities, line by line

  /** A stretch of bytes between line ends of b. */
  predicate LineOf(b: Bytes, i: nat, j: nat) {
    i < j <= |b| && b[j - 1] == NEWLINE && (i == 0 || b[i - 1] == NEWLINE) && forall k :: i <= k < j - 1 ==> b[k] != NEWLINE
  }

  /** Each line of this one log names its generation by its id. */
  ghost predicate FaithfulLines(idy: Identity, f: LineFormat, b: Bytes) {
    forall i: nat, j: nat {:trigger b[i..j]} :: LineOf(b, i, j) && f.event(b[i..j]).Some? ==> Faithful(idy, f.event(b[i..j]).value)
  }

  lemma SliceOfSlice(b: Bytes, i: nat, j: nat, p: nat, q: nat)
    requires i <= j <= |b| && p <= q <= j - i
    ensures b[i + p..i + q] == b[i..j][p..q]
  {
    forall k | 0 <= k < q - p ensures b[i + p..i + q][k] == b[i..j][p..q][k] {
      assert b[i..j][p + k] == b[i + p + k];
    }
  }

  lemma LineInside(b: Bytes, i: nat, j: nat, p: nat, q: nat)
    requires i <= j <= |b| && (i == 0 || b[i - 1] == NEWLINE) && LineOf(b[i..j], p, q)
    ensures LineOf(b, i + p, i + q) && b[i + p..i + q] == b[i..j][p..q]
  {
    var part := b[i..j];
    assert part[q - 1] == b[i + q - 1] && (p > 0 ==> part[p - 1] == b[i + p - 1]);
    forall k | i + p <= k < i + q - 1 ensures b[k] != NEWLINE { assert part[k - i] == b[k]; }
    SliceOfSlice(b, i, j, p, q);
  }

  lemma LineAfter(b: Bytes, n: nat)
    requires 0 < n <= |b| && b[n - 1] == NEWLINE
    ensures LineOf(b, Complete(b[..n - 1]), n)
  {
    var front := b[..n - 1];
    var start := Complete(front);
    assert start > 0 ==> front[start - 1] == b[start - 1];
    forall k | start <= k < n - 1 ensures b[k] != NEWLINE { assert front[k] == b[k]; }
  }

  /** The last complete line is a line. */
  lemma LastIsLine(b: Bytes)
    requires Complete(b) > 0
    ensures LineOf(b, LastLine(b[..Complete(b)]), Complete(b))
  {
    var n := Complete(b);
    LineAfter(b, n);
    FrontOfFront(b, n);
    LastLineIs(b[..n], b[..n - 1]);
  }

  lemma FaithfulPrefix(idy: Identity, f: LineFormat, b: Bytes, n: nat)
    requires FaithfulLines(idy, f, b) && n <= |b|
    ensures FaithfulLines(idy, f, b[..n])
  {
    FaithfulStretch(idy, f, b, 0, n);
    assert b[0..n] == b[..n];
  }

  lemma FaithfulStretch(idy: Identity, f: LineFormat, b: Bytes, i: nat, j: nat)
    requires FaithfulLines(idy, f, b) && i <= j <= |b| && (i == 0 || b[i - 1] == NEWLINE)
    ensures FaithfulLines(idy, f, b[i..j])
  {
    forall p: nat, q: nat | LineOf(b[i..j], p, q) && f.event(b[i..j][p..q]).Some?
      ensures Faithful(idy, f.event(b[i..j][p..q]).value)
    {
      LineInside(b, i, j, p, q);
    }
  }

  lemma {:induction false} EventsFaithful(idy: Identity, f: LineFormat, b: Bytes, turn: int)
    requires FaithfulLines(idy, f, b)
    ensures AllFaithful(idy, EventsOf(f, b, turn))
    decreases |b|
  {
    var n := Complete(b);
    if n > 0 {
      var start := LastLine(b[..n]);
      LastIsLine(b);
      FaithfulPrefix(idy, f, b, start);
      EventsFaithful(idy, f, b[..start], turn);
      assert f.event(b[start..n]).Some? ==> Faithful(idy, f.event(b[start..n]).value);
    }
  }

  /** The identity premise of a newline-delimited log comes down to its lines. */
  lemma FaithfulLinesSuffice(idy: Identity, f: LineFormat, b: Bytes)
    requires FaithfulLines(idy, f, b)
    ensures LogFaithful(idy, SpecOf(f), b)
  {
    var spec := SpecOf(f);
    forall i, j, t | 0 <= i <= j <= |b| && Whole(spec, b[..i])
      ensures AllFaithful(idy, spec.parser.events(b[i..j], t))
    {
      assert i > 0 ==> b[..i][i - 1] == b[i - 1];
      FaithfulStretch(idy, f, b, i, j);
      EventsFaithful(idy, f, b[i..j], t);
    }
  }

  // ---------------------------------------------------------------- one id on many lines

  /** The event of this line, if any, has no dedup key: so it is with every line of Claude Code's logs. */
  predicate KeylessLines(f: LineFormat, line: Bytes) {
    f.event(line).Some? ==> f.event(line).value.dedupKey == ""
  }

  /** No two lines need agree on the time of an id: keyless formats meet the premise for every log. */
  lemma KeylessFormatsAreFaithful(f: LineFormat)
    requires forall line :: KeylessLines(f, line)
    ensures KeylessSource(SpecOf(f))
    ensures forall b :: LogFaithful(KEYLESS, SpecOf(f), b)
  {
    forall b ensures FaithfulLines(KEYLESS, f, b) {
      forall i: nat, j: nat | LineOf(b, i, j) && f.event(b[i..j]).Some?
        ensures Faithful(KEYLESS, f.event(b[i..j]).value)
      {
        assert KeylessLines(f, b[i..j]);
      }
    }
    forall b, t ensures AllFaithful(KEYLESS, SpecOf(f).parser.events(b, t)) { EventsFaithful(KEYLESS, f, b, t); }
    forall b ensures LogFaithful(KEYLESS, SpecOf(f), b) { FaithfulLinesSuffice(KEYLESS, f, b); }
  }

  /** An agent that reads only such formats: the drained hub holds exactly what its logs and the other devices say. */
  lemma KeylessAgentCountsOnce(s: Setup, formats: string -> LineFormat, steps: seq<Step>, w: World)
    requires s.producer.deviceID == s.cfg.device
    requires forall path :: s.sources(path) == SpecOf(formats(path))
    requires forall path, line :: KeylessLines(formats(path), line)
    requires FaithfulEnvelopes(KEYLESS, Others(s.cfg.device, w.net.arrivals))
    requires Run(s, steps, w) && Drained(w)
    ensures w.net.hub.events.rows.Keys == Observed(s, w)
  {
    LineSetupsAreGood(s, formats);
    forall path ensures KeylessSource(s.sources(path)) {
      KeylessFormatsAreFaithful(formats(path));
    }
    KeylessHubEqualsLogs(s, steps, w);
  }

  /** Every line is the same event at a time of its own. */
  function SameEvent(e: Event): LineFormat {
    LineFormat(line => Some(e.(ts := |line|)), (x, t) => 0, (line, t) => t)
  }

  lemma OneLine(f: LineFormat, line: Bytes)
    requires Complete(line) == |line| > 0 && Complete(line[..|line| - 1]) == 0
    ensures EventsOf(f, line, 0) == LineEvents(f, line, 0)
  {
    var none: Bytes := [];
    assert line[..|line|] == line && line[0..|line|] == line && line[..0] == none;
    assert EventsOf(f, none, 0) == [];
  }

  const SHORT: Bytes := [NEWLINE]
  const LONG: Bytes := [0, NEWLINE]

  lemma OneLineStamp(e: Event, line: Bytes)
    requires e.id != "" && Complete(line) == |line| > 0 && Complete(line[..|line| - 1]) == 0
    ensures LineStamps(SameEvent(e), line) == {StampOf(e).(ts := |line|)}
  {
    var f := SameEvent(e);
    OneLine(f, line);
    assert LineEvents(f, line, 0) == [e.(ts := |line|, genMS := 0)];
    assert e.(ts := |line|, genMS := 0) in LineEvents(f, line, 0);
  }

  lemma TwoTimes(e: Event)
    requires e.id != ""
    ensures LineStamps(SameEvent(e), SHORT + LONG) == {StampOf(e).(ts := 1), StampOf(e).(ts := 2)}
  {
    CompleteIs([0], 0);
    assert LONG[..1] == [0] && Complete(SHORT) == 1 && Complete(LONG) == 2;
    OneLineStamp(e, SHORT);
    OneLineStamp(e, LONG);
    LineStampsAppend(SameEvent(e), SHORT, LONG);
  }

  /** One id at two times in one log: a log such as this is within the end-to-end theorems. */
  lemma RepeatedIdIsFaithful(e: Event)
    requires e.id != "" && e.dedupKey == ""
    ensures var spec := SpecOf(SameEvent(e));
            && GoodParser(spec) && KeylessSource(spec)
            && Stamps(spec, SHORT + LONG) == {StampOf(e).(ts := 1), StampOf(e).(ts := 2)}
  {
    var f := SameEvent(e);
    LineParserIsGood(f);
    assert forall line :: KeylessLines(f, line);
    KeylessFormatsAreFaithful(f);
    TwoTimes(e);
  }

  /** The carry never falls back to zero, so leaving a zero carry unsaved at commit loses nothing. */
  lemma {:induction false} CarryNeverLost(f: LineFormat, b: Bytes, turn: int)
    requires turn > 0 && forall line, t :: t > 0 ==> f.turn(line, t) > 0
    ensures TurnAfter(f, b, turn) > 0
    decreases |b|
  {
    var n := Complete(b);
    if n > 0 {
      CarryNeverLost(f, b[..LastLine(b[..n])], turn);
    }
  }

  /** Scanning in pieces carries the turn exactly as one scan of the whole would. */
  lemma {:induction false} CarryComposes(f: LineFormat, x: Bytes, y: Bytes, turn: int)
    requires Complete(x) == |x|
    ensures TurnAfter(f, x + y, turn) == TurnAfter(f, y, TurnAfter(f, x, turn))
    decreases |y|
  {
    var n := Complete(y);
    if n == 0 {
      CarryUnfinished(f, x, y, turn);
    } else {
      LastLineWhole(y, n);
      CarryComposes(f, x, y[..LastLine(y[..n])], turn);
      CarryLast(f, x, y, n, LastLine(y[..n]), turn);
    }
  }

  lemma CarryLast(f: LineFormat, x: Bytes, y: Bytes, n: nat, start: nat, turn: int)
    requires Complete(x) == |x| && n == Complete(y) > 0 && start == LastLine(y[..n])
    requires TurnAfter(f, x + y[..start], turn) == TurnAfter(f, y[..start], TurnAfter(f, x, turn))
    ensures TurnAfter(f, x + y, turn) == TurnAfter(f, y, TurnAfter(f, x, turn))
  {
    AppendedLastLine(x, y, n, start);
    LastLineAtIs(y, n, start);
    SliceAppend(x, y, start, n);
    TurnStep(f, x + y, x + y[..start], y[start..n], turn);
    TurnStep(f, y, y[..start], y[start..n], TurnAfter(f, x, turn));
  }

  lemma CarryUnfinished(f: LineFormat, x: Bytes, y: Bytes, turn: int)
    requires Complete(x) == |x| && Complete(y) == 0
    ensures TurnAfter(f, x + y, turn) == TurnAfter(f, x, turn)
  {
    CompleteAppend(x, y);
    assert (x + y)[..|x|] == x;
    TurnOfWhole(f, x + y, turn);
  }

  lemma TurnStep(f: LineFormat, b: Bytes, front: Bytes, last: Bytes, turn: int)
    requires LastLineAt(b, front, last)
    ensures TurnAfter(f, b, turn) == f.turn(last, TurnAfter(f, front, turn))
  {
  }

  lemma TurnOfWhole(f: LineFormat, b: Bytes, turn: int)
    ensures TurnAfter(f, b, turn) == TurnAfter(f, b[..Complete(b)], turn)
  {
    var n := Complete(b);
    CompletePrefix(b);
    if n > 0 {
      var start := LastLine(b[..n]);
      assert b[..n][..n] == b[..n] && b[..n][..start] == b[..start] && b[..n][start..n] == b[start..n];
    }
  }
}
