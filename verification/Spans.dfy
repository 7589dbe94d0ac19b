/**
 Time spans in whole milliseconds: merging, measure and idle bridging (internal/store/worktime.go:27-86).
 A span stands for every instant from its start to its end, both included; instants are real numbers.
 */
module Spans {

  datatype Span = Span(start: int, end: int)

  /** An event that ended at `ts` after `dur` milliseconds. */
  datatype Point = Point(ts: int, dur: int)

  /** The invariant of the span type. */
  predicate Proper(spans: seq<Span>) {
    forall s :: s in spans ==> s.start <= s.end
  }

  predicate Holds(s: Span, t: real) {
    s.start as real <= t <= s.end as real
  }

  ghost predicate Covers(spans: seq<Span>, t: real) {
    exists s :: s in spans && Holds(s, t)
  }

  /** Ordered, with time strictly between any two neighbours. */
  predicate Separated(spans: seq<Span>) {
    forall i, j :: 0 <= i < j < |spans| ==> spans[i].end < spans[j].start
  }

  predicate Canonical(spans: seq<Span>) {
    Proper(spans) && Separated(spans)
  }

  // ---------------------------------------------------------------- measure

  /** The unit cells [c, c + 1) inside a span. */
  function Range(start: int, end: int): (r: set<int>)
    ensures forall c :: c in r <==> start <= c < end
    decreases end - start
  {
    if start >= end then {} else Range(start, end - 1) + {end - 1}
  }

  function Cells(spans: seq<Span>): set<int> {
    if spans == [] then {}
    else
      var last := spans[|spans| - 1];
      Cells(spans[..|spans| - 1]) + Range(last.start, last.end)
  }

  /** sumMS. */
  function Sum(spans: seq<Span>): int {
    if spans == [] then 0
    else
      var last := spans[|spans| - 1];
      Sum(spans[..|spans| - 1]) + (last.end - last.start)
  }

  lemma {:induction false} RangeSize(start: int, end: int)
    requires start <= end
    ensures |Range(start, end)| == end - start
    decreases end - start
  {
    if start < end { RangeSize(start, end - 1); }
  }

  lemma {:induction false} CellMember(spans: seq<Span>, c: int)
    ensures c in Cells(spans) <==> exists s :: s in spans && s.start <= c < s.end
  {
    if spans != [] {
      var init, last := spans[..|spans| - 1], spans[|spans| - 1];
      CellMember(init, c);
      assert spans == init + [last];
      assert last in spans;
    }
  }

  /** A cell is inside the spans exactly when its midpoint is covered. */
  lemma CellIffMidpoint(spans: seq<Span>, c: int)
    ensures c in Cells(spans) <==> Covers(spans, c as real + 0.5)
  {
    CellMember(spans, c);
    if s :| s in spans && s.start <= c < s.end {
      assert Holds(s, c as real + 0.5);
    }
    if Covers(spans, c as real + 0.5) {
      var s :| s in spans && Holds(s, c as real + 0.5);
      assert s.start <= c < s.end;
    }
  }

  /** Spans that cover the same instants measure the same. */
  lemma SameCoverSameCells(a: seq<Span>, b: seq<Span>)
    requires forall t :: Covers(a, t) <==> Covers(b, t)
    ensures Cells(a) == Cells(b)
  {
    forall c ensures c in Cells(a) <==> c in Cells(b) {
      CellIffMidpoint(a, c);
      CellIffMidpoint(b, c);
    }
  }

  lemma {:induction false} SeparatedSum(spans: seq<Span>)
    requires Canonical(spans)
    ensures Sum(spans) == |Cells(spans)|
  {
    if spans != [] {
      var init, last := spans[..|spans| - 1], spans[|spans| - 1];
      SeparatedSum(init);
      assert last in spans;
      RangeSize(last.start, last.end);
      forall c | c in Cells(init) ensures c !in Range(last.start, last.end) {
        CellMember(init, c);
      }
      assert Cells(init) !! Range(last.start, last.end);
    }
  }

  lemma {:induction false} UnionIsAtMostSum(spans: seq<Span>)
    requires Proper(spans)
    ensures |Cells(spans)| <= Sum(spans)
  {
    if spans != [] {
      var init, last := spans[..|spans| - 1], spans[|spans| - 1];
      UnionIsAtMostSum(init);
      assert spans == init + [last] && last in spans;
      CellsStep(init, last);
    }
  }

  lemma OverlapSize(a: set<int>, b: set<int>)
    ensures |a + b| == |a| + |b| - |a * b|
  {
  }

  lemma SubsetSize(a: set<int>, b: set<int>)
    requires a <= b
    ensures |a| <= |b|
  {
    assert b == a + (b - a);
    OverlapSize(a, b - a);
  }

  predicate Disjoint(spans: seq<Span>) {
    forall i, j :: 0 <= i < j < |spans| ==> Range(spans[i].start, spans[i].end) !! Range(spans[j].start, spans[j].end)
  }

  lemma CellsStep(init: seq<Span>, last: Span)
    requires last.start <= last.end
    ensures |Cells(init + [last])| == |Cells(init)| + (last.end - last.start) - |Cells(init) * Range(last.start, last.end)|
    ensures Sum(init + [last]) == Sum(init) + (last.end - last.start)
  {
    assert (init + [last])[..|init|] == init;
    RangeSize(last.start, last.end);
    OverlapSize(Cells(init), Range(last.start, last.end));
  }

  lemma DisjointStep(init: seq<Span>, last: Span)
    ensures Disjoint(init + [last]) <==> Disjoint(init) && Cells(init) * Range(last.start, last.end) == {}
  {
    var spans := init + [last];
    LastDisjoint(init, last);
    if Disjoint(spans) {
      forall i, j | 0 <= i < j < |init| ensures Range(init[i].start, init[i].end) !! Range(init[j].start, init[j].end) {
        assert spans[i] == init[i] && spans[j] == init[j];
      }
      forall i | 0 <= i < |init| ensures Range(init[i].start, init[i].end) !! Range(last.start, last.end) {
        assert spans[i] == init[i] && spans[|init|] == last;
      }
    }
  }

  /** The parallelism factor is one exactly when no two spans share time. */
  lemma {:induction false} SumIsUnionIffNoOverlap(spans: seq<Span>)
    requires Proper(spans)
    ensures |Cells(spans)| == Sum(spans) <==> Disjoint(spans)
  {
    if spans != [] {
      var init, last := spans[..|spans| - 1], spans[|spans| - 1];
      assert spans == init + [last] && last in spans;
      SumIsUnionIffNoOverlap(init);
      UnionIsAtMostSum(init);
      CellsStep(init, last);
      DisjointStep(init, last);
    }
  }

  lemma LastDisjoint(init: seq<Span>, last: Span)
    ensures Cells(init) * Range(last.start, last.end) == {} <==>
            forall i :: 0 <= i < |init| ==> Range(init[i].start, init[i].end) !! Range(last.start, last.end)
  {
    var r := Range(last.start, last.end);
    if Cells(init) * r == {} {
      forall i | 0 <= i < |init| ensures Range(init[i].start, init[i].end) !! r {
        forall c | c in Range(init[i].start, init[i].end) ensures c !in r {
          CellMember(init, c);
          assert init[i] in init;
          assert c !in Cells(init) * r;
        }
      }
    } else {
      var c :| c in Cells(init) * r;
      CellMember(init, c);
      var s :| s in init && s.start <= c < s.end;
      var i :| 0 <= i < |init| && init[i] == s;
      assert c in Range(init[i].start, init[i].end);
    }
  }

  // ---------------------------------------------------------------- merging

  predicate ByStart(spans: seq<Span>) {
    forall i, j :: 0 <= i < j < |spans| ==> spans[i].start <= spans[j].start
  }

  method InsertByStart(sorted: seq<Span>, s: Span) returns (longer: seq<Span>)
    requires ByStart(sorted)
    ensures ByStart(longer) && multiset(longer) == multiset(sorted) + multiset{s}
  {
    var k := 0;
    while k < |sorted| && sorted[k].start <= s.start
      invariant k <= |sorted|
      invariant forall j :: 0 <= j < k ==> sorted[j].start <= s.start
    {
      k := k + 1;
    }
    longer := sorted[..k] + [s] + sorted[k..];
    assert sorted == sorted[..k] + sorted[k..];
  }

  /** Stands for the library sort: nothing more than order by start is promised, ties may fall anyhow. */
  method SortByStart(spans: seq<Span>) returns (sorted: seq<Span>)
    ensures ByStart(sorted) && multiset(sorted) == multiset(spans)
  {
    sorted := [];
    for i := 0 to |spans|
      invariant ByStart(sorted) && multiset(sorted) == multiset(spans[..i])
    {
      sorted := InsertByStart(sorted, spans[i]);
      assert spans[..i + 1] == spans[..i] + [spans[i]];
    }
    assert spans[..|spans|] == spans;
  }

  ghost predicate SameCover(a: seq<Span>, b: seq<Span>) {
    forall t :: Covers(a, t) <==> Covers(b, t)
  }

  lemma CoversSnoc(spans: seq<Span>, s: Span, t: real)
    ensures Covers(spans + [s], t) <==> Covers(spans, t) || Holds(s, t)
  {
    if Holds(s, t) { assert s in spans + [s]; }
    if Covers(spans, t) {
      var x :| x in spans && Holds(x, t);
      assert x in spans + [s];
    }
  }

  lemma CoversPermuted(a: seq<Span>, b: seq<Span>)
    requires multiset(a) == multiset(b)
    ensures SameCover(a, b) && (Proper(a) <==> Proper(b))
  {
    assert forall s :: s in a <==> s in multiset(a);
    assert forall s :: s in b <==> s in multiset(b);
  }

  /** One more span, by order of start: it opens a new merged span or lengthens the last. */
  function MergeOne(out: seq<Span>, s: Span): seq<Span> {
    if out == [] || s.start > out[|out| - 1].end then out + [s]
    else if s.end > out[|out| - 1].end then out[..|out| - 1] + [Span(out[|out| - 1].start, s.end)]
    else out
  }

  lemma MergeOneKeeps(out: seq<Span>, s: Span)
    requires Canonical(out) && s.start <= s.end
    requires out != [] ==> out[|out| - 1].start <= s.start
    ensures Canonical(MergeOne(out, s))
    ensures MergeOne(out, s) != [] && MergeOne(out, s)[|MergeOne(out, s)| - 1].start <= s.start
    ensures SameCover(MergeOne(out, s), out + [s])
  {
    MergeOneCovers(out, s);
  }

  lemma MergeOneCovers(out: seq<Span>, s: Span)
    requires Proper(out) && s.start <= s.end
    requires out != [] ==> out[|out| - 1].start <= s.start
    ensures SameCover(MergeOne(out, s), out + [s])
  {
    forall t ensures Covers(MergeOne(out, s), t) <==> Covers(out + [s], t) {
      CoversSnoc(out, s, t);
      if out != [] {
        var init, last := out[..|out| - 1], out[|out| - 1];
        assert out == init + [last];
        CoversSnoc(init, last, t);
        CoversSnoc(init, Span(last.start, s.end), t);
      }
    }
  }

  /** mergeSpans: whatever the order given, the canonical spans of the same instants. */
  method MergeSpans(spans: seq<Span>) returns (out: seq<Span>)
    requires Proper(spans)
    ensures Canonical(out)
    ensures forall t :: Covers(out, t) <==> Covers(spans, t)
  {
    if spans == [] {
      return [];
    }
    var sorted := SortByStart(spans);
    CoversPermuted(sorted, spans);
    assert |sorted| > 0 by { assert |multiset(sorted)| == |multiset(spans)|; }
    assert sorted[..1] == [sorted[0]];
    out := [sorted[0]];
    for i := 1 to |sorted|
      invariant Canonical(out) && out != [] && out[|out| - 1].start <= sorted[i - 1].start
      invariant SameCover(out, sorted[..i])
    {
      ghost var before := out;
      var s := sorted[i];
      MergeOneKeeps(before, s);
      var last := out[|out| - 1];
      if s.start > last.end {
        out := out + [s];
      } else if s.end > last.end {
        out := out[..|out| - 1] + [Span(last.start, s.end)];
      }
      assert out == MergeOne(before, s);
      SameCoverSnoc(before, sorted[..i], s);
      assert sorted[..i + 1] == sorted[..i] + [s];
    }
    assert sorted[..|sorted|] == sorted;
  }

  lemma SameCoverSnoc(a: seq<Span>, b: seq<Span>, s: Span)
    requires SameCover(a, b)
    ensures SameCover(a + [s], b + [s])
  {
    forall t ensures Covers(a + [s], t) <==> Covers(b + [s], t) {
      CoversSnoc(a, s, t);
      CoversSnoc(b, s, t);
    }
  }

  /** unionMS: the measure of the union, each shared millisecond once. */
  method UnionMS(spans: seq<Span>) returns (total: int)
    requires Proper(spans)
    ensures total == |Cells(spans)|
  {
    var merged := MergeSpans(spans);
    total := 0;
    for i := 0 to |merged|
      invariant total == Sum(merged[..i])
    {
      assert merged[..i + 1][..i] == merged[..i];
      total := total + (merged[i].end - merged[i].start);
    }
    assert merged[..|merged|] == merged;
    SeparatedSum(merged);
    SameCoverSameCells(merged, spans);
  }

  method SumMS(spans: seq<Span>) returns (t: int)
    ensures t == Sum(spans)
  {
    t := 0;
    for i := 0 to |spans|
      invariant t == Sum(spans[..i])
    {
      assert spans[..i + 1][..i] == spans[..i];
      t := t + (spans[i].end - spans[i].start);
    }
    assert spans[..|spans|] == spans;
  }

  // ---------------------------------------------------------------- the merged form is unique

  lemma {:induction false} FirstInstant(a: seq<Span>, t: real)
    requires Canonical(a) && a != [] && Covers(a, t)
    ensures a[0].start as real <= t
    ensures t <= a[0].end as real || (|a| > 1 && a[1].start as real <= t)
  {
    var s :| s in a && Holds(s, t);
    var i :| 0 <= i < |a| && a[i] == s;
    assert a[0] in a;
    if i > 1 { assert a[1] in a; }
  }

  /** Where the first spans of two canonical lists end at different instants, some instant tells the lists apart. */
  lemma FirstEndsAgree(a: seq<Span>, b: seq<Span>)
    requires Canonical(a) && Canonical(b) && a != [] && b != [] && SameCover(a, b) && a[0].start == b[0].start
    ensures a[0].end >= b[0].end
  {
    if a[0].end < b[0].end {
      var high := if |a| > 1 && a[1].start < b[0].end then a[1].start else b[0].end;
      var t := (a[0].end as real + high as real) / 2.0;
      assert a[0] in a && b[0] in b;
      assert Holds(b[0], t);
      assert Covers(b, t);
      FirstInstant(a, t);
      assert false;
    }
  }

  lemma FirstStartsAgree(a: seq<Span>, b: seq<Span>)
    requires Canonical(a) && Canonical(b) && a != [] && SameCover(a, b)
    ensures b != [] && b[0].start <= a[0].start
  {
    var t := a[0].start as real;
    assert a[0] in a && Holds(a[0], t);
    assert Covers(a, t);
    assert Covers(b, t);
    FirstInstant(b, t);
  }

  lemma TailCover(a: seq<Span>, t: real)
    requires Canonical(a) && a != []
    ensures Covers(a[1..], t) <==> Covers(a, t) && t > a[0].end as real
  {
    assert a[0] in a;
    if Covers(a[1..], t) {
      var s :| s in a[1..] && Holds(s, t);
      var i :| 0 <= i < |a| - 1 && a[1..][i] == s;
      assert a[i + 1] == s && s in a;
    }
    if Covers(a, t) && t > a[0].end as real {
      var s :| s in a && Holds(s, t);
      var i :| 0 <= i < |a| && a[i] == s;
      assert a[1..][i - 1] == s;
    }
  }

  /** Two canonical lists of the same instants are the same list, so merging does not depend on the order given. */
  lemma {:induction false} CanonicalIsUnique(a: seq<Span>, b: seq<Span>)
    requires Canonical(a) && Canonical(b) && SameCover(a, b)
    ensures a == b
    decreases |a|
  {
    if a == [] {
      if b != [] { FirstStartsAgree(b, a); }
    } else {
      FirstStartsAgree(a, b);
      FirstStartsAgree(b, a);
      FirstEndsAgree(a, b);
      FirstEndsAgree(b, a);
      forall t ensures Covers(a[1..], t) <==> Covers(b[1..], t) {
        TailCover(a, t);
        TailCover(b, t);
      }
      CanonicalIsUnique(a[1..], b[1..]);
      assert a == [a[0]] + a[1..] && b == [b[0]] + b[1..];
    }
  }

  // ---------------------------------------------------------------- bridging

  /** bridgeSpans on one more event. */
  function BridgeOne(out: seq<Span>, p: Point, idle: int): seq<Span> {
    if out != [] && p.ts - p.dur - out[|out| - 1].end <= idle then
      if p.ts > out[|out| - 1].end then out[..|out| - 1] + [Span(out[|out| - 1].start, p.ts)] else out
    else out + [Span(p.ts - p.dur, p.ts)]
  }

  function Bridged(points: seq<Point>, idle: int): seq<Span> {
    if points == [] then [] else BridgeOne(Bridged(points[..|points| - 1], idle), points[|points| - 1], idle)
  }

  method BridgeSpans(points: seq<Point>, idle: int) returns (out: seq<Span>)
    ensures out == Bridged(points, idle)
  {
    out := [];
    for i := 0 to |points|
      invariant out == Bridged(points[..i], idle)
    {
      assert points[..i + 1][..i] == points[..i];
      var start, end := points[i].ts - points[i].dur, points[i].ts;
      if |out| > 0 && start - out[|out| - 1].end <= idle {
        if end > out[|out| - 1].end {
          out := out[..|out| - 1] + [Span(out[|out| - 1].start, end)];
        }
      } else {
        out := out + [Span(start, end)];
      }
    }
    assert points[..|points|] == points;
  }

  /** Events in the order the query delivers them. */
  predicate Chronological(points: seq<Point>) {
    && (forall p :: p in points ==> p.dur >= 0)
    && (forall i, j :: 0 <= i < j < |points| ==> points[i].ts <= points[j].ts)
  }

  /** Neighbouring spans are more than the idle time apart. */
  ghost predicate Apart(spans: seq<Span>, idle: int) {
    forall i, j :: 0 <= i < j < |spans| && j == i + 1 ==> spans[j].start - spans[i].end > idle
  }

  predicate HoldsTs(spans: seq<Span>, p: Point) {
    exists s :: s in spans && s.start <= p.ts <= s.end
  }

  lemma BridgeOneKeeps(out: seq<Span>, p: Point, idle: int)
    requires p.dur >= 0 && Proper(out) && Apart(out, idle)
    requires out != [] ==> out[|out| - 1].end <= p.ts
    ensures var b := BridgeOne(out, p, idle);
            Proper(b) && Apart(b, idle) && b != [] && b[|b| - 1].end == p.ts && b[|b| - 1].start <= p.ts
  {
    BridgeOneLast(out, p, idle);
    BridgeOneApart(out, p, idle);
    if out != [] { assert out[|out| - 1] in out; }
    forall s | s in BridgeOne(out, p, idle) ensures s.start <= s.end {
      var last := BridgeOne(out, p, idle)[|BridgeOne(out, p, idle)| - 1];
      assert s in out || s == last;
    }
  }

  lemma BridgeOneLast(out: seq<Span>, p: Point, idle: int)
    requires p.dur >= 0 && Proper(out) && (out != [] ==> out[|out| - 1].end <= p.ts)
    ensures var b := BridgeOne(out, p, idle);
            b != [] && b[|b| - 1].end == p.ts && b[|b| - 1].start <= p.ts
  {
    if out != [] { assert out[|out| - 1] in out; }
  }

  lemma BridgeOneApart(out: seq<Span>, p: Point, idle: int)
    requires Apart(out, idle)
    ensures Apart(BridgeOne(out, p, idle), idle)
  {
  }

  lemma BridgeOneHolds(out: seq<Span>, p: Point, idle: int, q: Point)
    requires p.dur >= 0 && Proper(out) && (out != [] ==> out[|out| - 1].end <= p.ts)
    requires HoldsTs(out, q) || q == p
    ensures HoldsTs(BridgeOne(out, p, idle), q)
  {
    var b := BridgeOne(out, p, idle);
    assert b[|b| - 1] in b;
    if q == p {
      if out != [] { assert out[|out| - 1] in out; }
    } else {
      var s :| s in out && s.start <= q.ts <= s.end;
      var i :| 0 <= i < |out| && out[i] == s;
      assert b[i] in b && b[i].start == s.start && b[i].end >= s.end;
    }
  }

  lemma ChronologicalInit(points: seq<Point>)
    requires Chronological(points) && points != []
    ensures Chronological(points[..|points| - 1])
    ensures points[|points| - 1].dur >= 0
    ensures |points| > 1 ==> points[|points| - 2].ts <= points[|points| - 1].ts
  {
    assert points[|points| - 1] in points;
    assert forall p :: p in points[..|points| - 1] ==> p in points;
  }

  /** How the spans built so far stand to the latest event. */
  ghost predicate UpTo(out: seq<Span>, points: seq<Point>, idle: int) {
    && Proper(out) && Apart(out, idle)
    && (if points == [] then out == [] else out != [] && out[|out| - 1].end == points[|points| - 1].ts)
  }

  lemma UpToStep(out: seq<Span>, init: seq<Point>, p: Point, idle: int)
    requires UpTo(out, init, idle) && p.dur >= 0
    requires init != [] ==> init[|init| - 1].ts <= p.ts
    ensures UpTo(BridgeOne(out, p, idle), init + [p], idle)
  {
    BridgeOneKeeps(out, p, idle);
  }

  lemma {:induction false} BridgedUpTo(points: seq<Point>, idle: int)
    requires Chronological(points)
    ensures UpTo(Bridged(points, idle), points, idle)
  {
    if points != [] {
      var init, last := points[..|points| - 1], points[|points| - 1];
      ChronologicalInit(points);
      BridgedUpTo(init, idle);
      UpToStep(Bridged(init, idle), init, last, idle);
      assert points == init + [last];
    }
  }

  /** Bridged spans are proper and more than idle apart, and the last ends with the last event. */
  lemma BridgedIsApart(points: seq<Point>, idle: int)
    requires Chronological(points)
    ensures Proper(Bridged(points, idle)) && Apart(Bridged(points, idle), idle)
    ensures points != [] ==> var b := Bridged(points, idle); b != [] && b[|b| - 1].end == points[|points| - 1].ts
    ensures points == [] ==> Bridged(points, idle) == []
  {
    BridgedUpTo(points, idle);
  }

  /** The instant of every event lies in a bridged span. */
  lemma {:induction false} BridgingKeepsEveryEvent(points: seq<Point>, idle: int, p: Point)
    requires Chronological(points) && p in points
    ensures HoldsTs(Bridged(points, idle), p)
  {
    var init, last := points[..|points| - 1], points[|points| - 1];
    var before := Bridged(init, idle);
    ChronologicalInit(points);
    BridgedUpTo(init, idle);
    if p != last {
      assert points == init + [last];
      BridgingKeepsEveryEvent(init, idle, p);
    }
    BridgeOneHolds(before, last, idle, p);
  }

  /** A session's own spans never overlap, so its sum is its union. */
  lemma BridgedIsCanonical(points: seq<Point>, idle: int)
    requires Chronological(points) && idle >= 0
    ensures Canonical(Bridged(points, idle))
    ensures Sum(Bridged(points, idle)) == |Cells(Bridged(points, idle))|
  {
    BridgedIsApart(points, idle);
    ApartIsSeparated(Bridged(points, idle), idle);
    SeparatedSum(Bridged(points, idle));
  }

  lemma ApartIsSeparated(spans: seq<Span>, idle: int)
    requires Proper(spans) && Apart(spans, idle) && idle >= 0
    ensures Separated(spans)
  {
    forall i, j | 0 <= i < j < |spans| ensures spans[i].end < spans[j].start {
      ApartPair(spans, idle, i, j);
    }
  }

  lemma {:induction false} ApartPair(spans: seq<Span>, idle: int, i: nat, j: nat)
    requires Proper(spans) && Apart(spans, idle) && idle >= 0 && i < j < |spans|
    ensures spans[i].end < spans[j].start
    decreases j - i
  {
    assert spans[i + 1].start - spans[i].end > idle;
    if i + 1 < j {
      ApartPair(spans, idle, i + 1, j);
      assert spans[i + 1] in spans;
    }
  }

  // ---------------------------------------------------------------- are whole intervals covered?

  /** The event is bridged into a span that starts after the event did; bridging does not move that start. */
  predicate ReachesBack(out: seq<Span>, p: Point, idle: int) {
    out != [] && p.ts - p.dur - out[|out| - 1].end <= idle && p.ts - p.dur < out[|out| - 1].start
  }

  predicate NeverReachesBack(points: seq<Point>, idle: int) {
    points == []
    || var init := points[..|points| - 1];
       NeverReachesBack(init, idle) && !ReachesBack(Bridged(init, idle), points[|points| - 1], idle)
  }

  predicate During(p: Point, t: real) {
    (p.ts - p.dur) as real <= t <= p.ts as real
  }

  ghost predicate CoversInterval(spans: seq<Span>, p: Point) {
    forall t :: During(p, t) ==> Covers(spans, t)
  }

  lemma BridgeOneGrows(out: seq<Span>, p: Point, idle: int, t: real)
    requires Covers(out, t)
    ensures Covers(BridgeOne(out, p, idle), t)
  {
    var b := BridgeOne(out, p, idle);
    var s :| s in out && Holds(s, t);
    var i :| 0 <= i < |out| && out[i] == s;
    assert b[i] in b && Holds(b[i], t);
  }

  lemma NotBackIsCovered(out: seq<Span>, p: Point, idle: int)
    requires p.dur >= 0 && (out != [] ==> out[|out| - 1].end <= p.ts) && !ReachesBack(out, p, idle)
    ensures CoversInterval(BridgeOne(out, p, idle), p)
  {
    var b := BridgeOne(out, p, idle);
    var last := b[|b| - 1];
    assert last in b;
    forall t | During(p, t) ensures Covers(b, t) {
      assert Holds(last, t);
    }
  }

  /** An uncovered instant before the last span: no later event can cover it. */
  ghost predicate Hole(out: seq<Span>, t: real) {
    out != [] && t < out[|out| - 1].start as real && !Covers(out, t)
  }

  lemma HoleStays(out: seq<Span>, p: Point, idle: int, t: real)
    requires Hole(out, t) && Proper(out) && idle >= 0
    ensures Hole(BridgeOne(out, p, idle), t)
  {
    var init, last := out[..|out| - 1], out[|out| - 1];
    assert last in out && out == init + [last];
    CoversSnoc(init, last, t);
    CoversSnoc(init, Span(last.start, p.ts), t);
    CoversSnoc(out, Span(p.ts - p.dur, p.ts), t);
  }

  lemma HoleOpens(out: seq<Span>, p: Point, idle: int) returns (t: real)
    requires Canonical(out) && idle >= 0 && ReachesBack(out, p, idle) && out[|out| - 1].end <= p.ts
    ensures During(p, t) && Hole(out, t)
  {
    var last := out[|out| - 1];
    var start := p.ts - p.dur;
    assert last in out;
    if |out| == 1 {
      t := start as real;
    } else {
      var prev := out[|out| - 2].end;
      var low := if prev > start then prev else start;
      t := (low as real + last.start as real) / 2.0;
      assert out[|out| - 2].end < last.start;
    }
    forall s | s in out ensures !Holds(s, t) {
      var i :| 0 <= i < |out| && out[i] == s;
      if i < |out| - 2 {
        assert out[|out| - 2] in out;
        assert out[i].end < out[|out| - 2].start;
      }
    }
  }

  lemma {:induction false} HoleIn(points: seq<Point>, idle: int) returns (p: Point, t: real)
    requires Chronological(points) && idle >= 0 && !NeverReachesBack(points, idle)
    ensures p in points && During(p, t) && Hole(Bridged(points, idle), t)
  {
    var init, last := points[..|points| - 1], points[|points| - 1];
    ChronologicalInit(points);
    BridgedIsApart(init, idle);
    ApartIsSeparated(Bridged(init, idle), idle);
    if NeverReachesBack(init, idle) {
      p := last;
      t := HoleOpens(Bridged(init, idle), last, idle);
    } else {
      p, t := HoleIn(init, idle);
    }
    HoleStays(Bridged(init, idle), last, idle, t);
  }

  lemma {:induction false} CoveredUnlessBack(points: seq<Point>, idle: int, p: Point)
    requires Chronological(points) && NeverReachesBack(points, idle) && p in points
    ensures CoversInterval(Bridged(points, idle), p)
  {
    var init, last := points[..|points| - 1], points[|points| - 1];
    ChronologicalInit(points);
    BridgedIsApart(init, idle);
    if p == last {
      NotBackIsCovered(Bridged(init, idle), last, idle);
    } else {
      assert points == init + [last];
      CoveredUnlessBack(init, idle, p);
      forall t | During(p, t) ensures Covers(Bridged(points, idle), t) {
        BridgeOneGrows(Bridged(init, idle), last, idle, t);
      }
    }
  }

  // ---------------------------------------------------------------- the same condition on the events alone

  function Start(p: Point): int { p.ts - p.dur }

  /** The event began no later than the idle time after its predecessor ended. */
  predicate Connected(points: seq<Point>, idle: int, k: nat)
    requires k < |points|
  {
    k > 0 && Start(points[k]) - points[k - 1].ts <= idle
  }

  /** The first event of the unbroken run of connected events that k belongs to. */
  function RunStart(points: seq<Point>, idle: int, k: nat): (r: nat)
    requires k < |points|
    ensures r <= k && !Connected(points, idle, r) && forall i :: r < i <= k ==> Connected(points, idle, i)
  {
    if Connected(points, idle, k) then RunStart(points, idle, k - 1) else k
  }

  /** No event began before the first event of its run did. */
  predicate NoneBeforeItsRun(points: seq<Point>, idle: int) {
    forall k :: 0 <= k < |points| ==> Start(points[RunStart(points, idle, k)]) <= Start(points[k])
  }

  lemma {:induction false} RunStartOfPrefix(points: seq<Point>, idle: int, n: nat, k: nat)
    requires k < n <= |points|
    ensures RunStart(points[..n], idle, k) == RunStart(points, idle, k)
  {
    if k > 0 { RunStartOfPrefix(points, idle, n, k - 1); }
  }

  lemma RunStartSnoc(points: seq<Point>, idle: int)
    requires |points| > 1
    ensures var n := |points| - 1;
            RunStart(points, idle, n) ==
              if Start(points[n]) - points[n - 1].ts <= idle then RunStart(points[..n], idle, n - 1) else n
  {
    RunStartOfPrefix(points, idle, |points| - 1, |points| - 2);
  }

  lemma BridgeOneStart(out: seq<Span>, p: Point, idle: int, first: int, end: int)
    requires out != [] && out[|out| - 1] == Span(first, end)
    ensures var b := BridgeOne(out, p, idle);
            b != [] && b[|b| - 1].start == if Start(p) - end <= idle then first else Start(p)
    ensures ReachesBack(out, p, idle) <==> Start(p) - end <= idle && Start(p) < first
  {
  }

  /** The latest span began with the first event of the latest event's run, and ends with that event. */
  lemma {:induction false} LastSpan(points: seq<Point>, idle: int)
    requires Chronological(points) && points != []
    ensures var b, n := Bridged(points, idle), |points| - 1;
            b != [] && b[|b| - 1] == Span(Start(points[RunStart(points, idle, n)]), points[n].ts)
  {
    var n := |points| - 1;
    BridgedIsApart(points, idle);
    if n > 0 {
      ChronologicalInit(points);
      LastSpan(points[..n], idle);
      RunStartSnoc(points, idle);
      BridgeOneStart(Bridged(points[..n], idle), points[n], idle, Start(points[RunStart(points[..n], idle, n - 1)]), points[n - 1].ts);
    }
  }

  lemma ReachesBackIff(points: seq<Point>, idle: int)
    requires Chronological(points) && points != []
    ensures var n := |points| - 1;
            ReachesBack(Bridged(points[..n], idle), points[n], idle) <==> Start(points[n]) < Start(points[RunStart(points, idle, n)])
  {
    var n := |points| - 1;
    if n > 0 {
      ChronologicalInit(points);
      LastSpan(points[..n], idle);
      RunStartSnoc(points, idle);
      BridgeOneStart(Bridged(points[..n], idle), points[n], idle, Start(points[RunStart(points[..n], idle, n - 1)]), points[n - 1].ts);
    }
  }

  lemma NoneBeforeSnoc(points: seq<Point>, idle: int)
    requires points != []
    ensures var n := |points| - 1;
            NoneBeforeItsRun(points, idle) <==>
              NoneBeforeItsRun(points[..n], idle) && Start(points[RunStart(points, idle, n)]) <= Start(points[n])
  {
    var n := |points| - 1;
    forall k | 0 <= k < n
      ensures Start(points[..n][RunStart(points[..n], idle, k)]) == Start(points[RunStart(points, idle, k)])
      ensures Start(points[..n][k]) == Start(points[k])
    {
      RunStartOfPrefix(points, idle, n, k);
    }
    if NoneBeforeItsRun(points, idle) {
      forall k | 0 <= k < n ensures Start(points[..n][RunStart(points[..n], idle, k)]) <= Start(points[..n][k]) {
        assert Start(points[RunStart(points, idle, k)]) <= Start(points[k]);
      }
    }
    if NoneBeforeItsRun(points[..n], idle) && Start(points[RunStart(points, idle, n)]) <= Start(points[n]) {
      forall k | 0 <= k < |points| ensures Start(points[RunStart(points, idle, k)]) <= Start(points[k]) {
        if k < n { assert Start(points[..n][RunStart(points[..n], idle, k)]) <= Start(points[..n][k]); }
      }
    }
  }

  lemma {:induction false} NeverReachesBackIff(points: seq<Point>, idle: int)
    requires Chronological(points)
    ensures NeverReachesBack(points, idle) <==> NoneBeforeItsRun(points, idle)
  {
    if points != [] {
      ChronologicalInit(points);
      NeverReachesBackIff(points[..|points| - 1], idle);
      ReachesBackIff(points, idle);
      NoneBeforeSnoc(points, idle);
    }
  }

  /** Every event's whole interval is active time exactly when no event began before the first of its run. */
  lemma IntervalsCoveredIff(points: seq<Point>, idle: int)
    requires Chronological(points) && idle >= 0
    ensures (forall p :: p in points ==> CoversInterval(Bridged(points, idle), p)) <==> NoneBeforeItsRun(points, idle)
  {
    NeverReachesBackIff(points, idle);
    if NeverReachesBack(points, idle) {
      forall p | p in points ensures CoversInterval(Bridged(points, idle), p) {
        CoveredUnlessBack(points, idle, p);
      }
    } else {
      var p, t := HoleIn(points, idle);
      assert During(p, t) && !Covers(Bridged(points, idle), t);
    }
  }

  /** When the events also start in order, whole intervals are covered. */
  lemma OrderedStartsAreCovered(points: seq<Point>, idle: int, p: Point)
    requires Chronological(points) && idle >= 0 && p in points
    requires forall i, j :: 0 <= i < j < |points| ==> Start(points[i]) <= Start(points[j])
    ensures CoversInterval(Bridged(points, idle), p)
  {
    forall k | 0 <= k < |points| ensures Start(points[RunStart(points, idle, k)]) <= Start(points[k]) {
      var r := RunStart(points, idle, k);
      assert r < k ==> Start(points[r]) <= Start(points[k]);
    }
    IntervalsCoveredIff(points, idle);
  }

  /** Ten milliseconds that end second but start first: seven of them are not counted. */
  lemma LongEventReachesBack()
    ensures var points := [Point(10, 1), Point(12, 10)];
            && Chronological(points) && !NoneBeforeItsRun(points, 5) && Bridged(points, 5) == [Span(9, 12)]
            && !CoversInterval(Bridged(points, 5), points[1])
  {
    var points := [Point(10, 1), Point(12, 10)];
    assert points[..1] == [Point(10, 1)];
    OnePointBridged(Point(10, 1), 5);
    assert RunStart(points, 5, 1) == RunStart(points, 5, 0) == 0;
    assert During(points[1], 2.0) && !Covers([Span(9, 12)], 2.0);
  }

  lemma OnePointBridged(p: Point, idle: int)
    ensures Bridged([p], idle) == [Span(p.ts - p.dur, p.ts)]
  {
    assert [p][..0] == [];
  }
}
