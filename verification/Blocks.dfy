/** Five-hour billing blocks folded from chronological usage entries (internal/store/blocks.go:12-60). */
module Blocks {
  import opened Ingest

  const HOUR := 3600000

  datatype Entry = Entry(ts: int, tokens: int, out: int)

  datatype Block = Block(start: int, end: int, last: int, tokens: int, out: int, events: nat, active: bool)

  /** Go's remainder takes the sign of the dividend. */
  function GoRem(a: int, b: int): int
    requires b > 0
  {
    if a >= 0 then a % b else -((-a) % b)
  }

  function FloorToHour(ms: int): int {
    ms - GoRem(ms, HOUR)
  }

  // ---------------------------------------------------------------- specification

  /** The entry is past the block's window, or came too long after the block's last entry. */
  predicate Closes(b: Block, e: Entry, dur: int) {
    e.ts - b.start > dur || e.ts - b.last > dur
  }

  function Opened(e: Entry, dur: int): Block {
    Block(FloorToHour(e.ts), FloorToHour(e.ts) + dur, 0, 0, 0, 0, false)
  }

  function Charged(b: Block, e: Entry): Block {
    b.(last := e.ts, tokens := b.tokens + e.tokens, out := b.out + e.out, events := b.events + 1)
  }

  function AddEntry(blocks: seq<Block>, e: Entry, dur: int): (r: seq<Block>)
    ensures r != []
  {
    if blocks == [] || Closes(blocks[|blocks| - 1], e, dur) then blocks + [Charged(Opened(e, dur), e)]
    else blocks[..|blocks| - 1] + [Charged(blocks[|blocks| - 1], e)]
  }

  function Fold(entries: seq<Entry>, dur: int): seq<Block> {
    if entries == [] then [] else AddEntry(Fold(entries[..|entries| - 1], dur), entries[|entries| - 1], dur)
  }

  predicate StillActive(b: Block, dur: int, now: int) {
    now < b.end && now - b.last <= dur
  }

  function Marked(blocks: seq<Block>, dur: int, now: int): seq<Block> {
    if blocks != [] && StillActive(blocks[|blocks| - 1], dur, now) then
      blocks[..|blocks| - 1] + [blocks[|blocks| - 1].(active := true)]
    else blocks
  }

  /** The loop body: `cur` is the last block, or none before the first entry and after a block closes. */
  method Enter(blocks: seq<Block>, e: Entry, dur: int) returns (entered: seq<Block>)
    ensures entered == AddEntry(blocks, e, dur)
  {
    var front, cur := [], None;
    if |blocks| > 0 {
      front, cur := blocks[..|blocks| - 1], Some(blocks[|blocks| - 1]);
      assert blocks == front + [cur.value];
    }
    if cur.Some? && (e.ts - cur.value.start > dur || e.ts - cur.value.last > dur) {
      front, cur := blocks, None;
    }
    if cur.None? {
      var start := FloorToHour(e.ts);
      cur := Some(Block(start, start + dur, 0, 0, 0, 0, false));
    }
    var b := cur.value;
    entered := front + [Block(b.start, b.end, e.ts, b.tokens + e.tokens, b.out + e.out, b.events + 1, b.active)];
  }

  method IdentifyBlocks(entries: seq<Entry>, dur: int, now: int) returns (blocks: seq<Block>)
    ensures blocks == Marked(Fold(entries, dur), dur, now)
  {
    blocks := [];
    for i := 0 to |entries|
      invariant blocks == Fold(entries[..i], dur)
    {
      assert entries[..i + 1][..i] == entries[..i];
      blocks := Enter(blocks, entries[i], dur);
    }
    assert entries[..|entries|] == entries;
    if |blocks| > 0 && now < blocks[|blocks| - 1].end && now - blocks[|blocks| - 1].last <= dur {
      blocks := blocks[..|blocks| - 1] + [blocks[|blocks| - 1].(active := true)];
    }
  }

  // ---------------------------------------------------------------- what the blocks keep

  /** What the query delivers: entries in time order, after 1970. */
  predicate Chronological(entries: seq<Entry>) {
    && (forall e :: e in entries ==> e.ts >= 0)
    && (forall i, j :: 0 <= i < j < |entries| ==> entries[i].ts <= entries[j].ts)
  }

  lemma FloorBounds(ms: int)
    requires ms >= 0
    ensures FloorToHour(ms) <= ms < FloorToHour(ms) + HOUR && FloorToHour(ms) % HOUR == 0 && FloorToHour(ms) >= 0
  {
  }

  /** The figures of a block charged with consecutive entries. */
  function Charge(b: Block, entries: seq<Entry>): Block {
    if entries == [] then b else Charged(Charge(b, entries[..|entries| - 1]), entries[|entries| - 1])
  }

  /** Where one more entry goes among the pieces. */
  function AddPiece(blocks: seq<Block>, pieces: seq<seq<Entry>>, e: Entry, dur: int): (r: seq<seq<Entry>>)
    requires |pieces| == |blocks|
    ensures |r| == |AddEntry(blocks, e, dur)|
  {
    if blocks == [] || Closes(blocks[|blocks| - 1], e, dur) then pieces + [[e]]
    else pieces[..|pieces| - 1] + [pieces[|pieces| - 1] + [e]]
  }

  /** The entries each block was charged with. */
  function Pieces(entries: seq<Entry>, dur: int): (pieces: seq<seq<Entry>>)
    ensures |pieces| == |Fold(entries, dur)|
  {
    if entries == [] then []
    else
      AddPiece(Fold(entries[..|entries| - 1], dur), Pieces(entries[..|entries| - 1], dur), entries[|entries| - 1], dur)
  }

  function Flatten(pieces: seq<seq<Entry>>): seq<Entry> {
    if pieces == [] then [] else Flatten(pieces[..|pieces| - 1]) + pieces[|pieces| - 1]
  }

  lemma ChargeSnoc(b: Block, piece: seq<Entry>, e: Entry)
    ensures Charge(b, piece + [e]) == Charged(Charge(b, piece), e)
  {
    assert (piece + [e])[..|piece|] == piece;
  }

  lemma FlattenSnoc(pieces: seq<seq<Entry>>, piece: seq<Entry>)
    ensures Flatten(pieces + [piece]) == Flatten(pieces) + piece
  {
    assert (pieces + [piece])[..|pieces|] == pieces;
  }

  lemma FlattenLonger(front: seq<seq<Entry>>, last: seq<Entry>, e: Entry)
    ensures Flatten(front + [last + [e]]) == Flatten(front + [last]) + [e]
  {
    FlattenSnoc(front, last);
    FlattenSnoc(front, last + [e]);
    assert Flatten(front) + (last + [e]) == Flatten(front) + last + [e];
  }

  lemma FlattenAdds(blocks: seq<Block>, pieces: seq<seq<Entry>>, e: Entry, dur: int)
    requires |pieces| == |blocks|
    ensures Flatten(AddPiece(blocks, pieces, e, dur)) == Flatten(pieces) + [e]
  {
    if blocks == [] || Closes(blocks[|blocks| - 1], e, dur) {
      FlattenSnoc(pieces, [e]);
    } else {
      FlattenLonger(pieces[..|pieces| - 1], pieces[|pieces| - 1], e);
      FrontAndLast(pieces);
    }
  }

  lemma FrontAndLast<T>(xs: seq<T>)
    requires xs != []
    ensures xs[..|xs| - 1] + [xs[|xs| - 1]] == xs
  {
  }

  /** Whatever the entries and the duration, the pieces in order are the entries: none is lost or counted twice. */
  lemma {:induction false} PiecesAreTheEntries(entries: seq<Entry>, dur: int)
    ensures Flatten(Pieces(entries, dur)) == entries
  {
    if entries != [] {
      var init, e := entries[..|entries| - 1], entries[|entries| - 1];
      PiecesAreTheEntries(init, dur);
      FlattenAdds(Fold(init, dur), Pieces(init, dur), e, dur);
      FrontAndLast(entries);
    }
  }

  /** A block opened by the first entry of its piece and charged with the whole piece. */
  predicate ChargedWith(b: Block, piece: seq<Entry>, dur: int) {
    piece != [] && b == Charge(Opened(piece[0], dur), piece)
  }

  lemma {:induction false} BlocksAreTheirPieces(entries: seq<Entry>, dur: int, i: nat)
    requires i < |Fold(entries, dur)|
    ensures ChargedWith(Fold(entries, dur)[i], Pieces(entries, dur)[i], dur)
  {
    var init, e := entries[..|entries| - 1], entries[|entries| - 1];
    var blocks, before := Fold(init, dur), Pieces(init, dur);
    if i < |blocks| { BlocksAreTheirPieces(init, dur, i); }
    if blocks == [] || Closes(blocks[|blocks| - 1], e, dur) {
      ChargeSnoc(Opened(e, dur), [], e);
      assert [] + [e] == [e];
    } else {
      var last := before[|before| - 1];
      if i == |blocks| - 1 {
        ChargeSnoc(Opened(last[0], dur), last, e);
        assert (last + [e])[0] == last[0];
      }
    }
  }

  predicate Within(b: Block, piece: seq<Entry>) {
    forall e :: e in piece ==> b.start <= e.ts <= b.end
  }

  lemma WithinOpened(e: Entry, dur: int)
    requires e.ts >= 0 && dur >= HOUR
    ensures Within(Charged(Opened(e, dur), e), [e])
  {
    FloorBounds(e.ts);
  }

  lemma WithinCharged(b: Block, piece: seq<Entry>, e: Entry, dur: int)
    requires Within(b, piece) && BlockOk(b, dur) && b.last <= e.ts && !Closes(b, e, dur)
    ensures Within(Charged(b, e), piece + [e])
  {
  }

  /** Every entry lies in the window of the block it was charged to. */
  lemma {:induction false} EntriesLieInTheirBlocks(entries: seq<Entry>, dur: int, i: nat)
    requires Chronological(entries) && dur >= HOUR && dur % HOUR == 0 && i < |Fold(entries, dur)|
    ensures Within(Fold(entries, dur)[i], Pieces(entries, dur)[i])
  {
    var init, e := entries[..|entries| - 1], entries[|entries| - 1];
    ChronologicalInit(entries);
    FoldKeepsBlocks(init, dur);
    if i < |Fold(init, dur)| { EntriesLieInTheirBlocks(init, dur, i); }
    WithinAdded(Fold(init, dur), Pieces(init, dur), e, dur, i);
  }

  /** One more entry, wherever it goes, lies in its block, and the other blocks keep theirs. */
  lemma WithinAdded(blocks: seq<Block>, pieces: seq<seq<Entry>>, e: Entry, dur: int, i: nat)
    requires |pieces| == |blocks| && i < |AddEntry(blocks, e, dur)| && e.ts >= 0 && dur >= HOUR
    requires i < |blocks| ==> Within(blocks[i], pieces[i])
    requires blocks != [] ==> BlockOk(blocks[|blocks| - 1], dur) && blocks[|blocks| - 1].last <= e.ts
    ensures |AddPiece(blocks, pieces, e, dur)| == |AddEntry(blocks, e, dur)|
    ensures Within(AddEntry(blocks, e, dur)[i], AddPiece(blocks, pieces, e, dur)[i])
  {
    if blocks == [] || Closes(blocks[|blocks| - 1], e, dur) {
      WithinOpened(e, dur);
    } else if i == |blocks| - 1 {
      WithinCharged(blocks[i], pieces[i], e, dur);
    }
  }

  lemma ChronologicalInit(entries: seq<Entry>)
    requires Chronological(entries) && entries != []
    ensures Chronological(entries[..|entries| - 1]) && entries[|entries| - 1].ts >= 0
    ensures |entries| > 1 ==> entries[|entries| - 2].ts <= entries[|entries| - 1].ts
  {
    assert entries[|entries| - 1] in entries;
    assert forall x :: x in entries[..|entries| - 1] ==> x in entries;
  }

  /** Rounding to the hour is downward exactly for instants after 1970 and for hour marks. */
  lemma FloorIsDownwardIff(ms: int)
    ensures FloorToHour(ms) <= ms <==> ms >= 0 || ms % HOUR == 0
  {
  }

  function EntryTokens(entries: seq<Entry>): int {
    if entries == [] then 0 else EntryTokens(entries[..|entries| - 1]) + entries[|entries| - 1].tokens
  }

  function EntryOut(entries: seq<Entry>): int {
    if entries == [] then 0 else EntryOut(entries[..|entries| - 1]) + entries[|entries| - 1].out
  }

  lemma {:induction false} ChargeCounts(b: Block, piece: seq<Entry>)
    ensures var c := Charge(b, piece);
            c.tokens == b.tokens + EntryTokens(piece) && c.out == b.out + EntryOut(piece) && c.events == b.events + |piece|
            && c.start == b.start && c.end == b.end && c.active == b.active
            && (piece != [] ==> c.last == piece[|piece| - 1].ts)
  {
    if piece != [] { ChargeCounts(b, piece[..|piece| - 1]); }
  }

  function BlockTokens(blocks: seq<Block>): int {
    if blocks == [] then 0 else BlockTokens(blocks[..|blocks| - 1]) + blocks[|blocks| - 1].tokens
  }

  function BlockOut(blocks: seq<Block>): int {
    if blocks == [] then 0 else BlockOut(blocks[..|blocks| - 1]) + blocks[|blocks| - 1].out
  }

  function BlockEvents(blocks: seq<Block>): int {
    if blocks == [] then 0 else BlockEvents(blocks[..|blocks| - 1]) + blocks[|blocks| - 1].events
  }

  lemma BlockSums(blocks: seq<Block>, b: Block)
    ensures BlockTokens(blocks + [b]) == BlockTokens(blocks) + b.tokens
    ensures BlockOut(blocks + [b]) == BlockOut(blocks) + b.out
    ensures BlockEvents(blocks + [b]) == BlockEvents(blocks) + b.events
  {
    assert (blocks + [b])[..|blocks|] == blocks;
  }

  /** Tokens, output tokens and events are conserved, and marking the last block active changes no figure. */
  lemma {:induction false} FiguresConserved(entries: seq<Entry>, dur: int, now: int)
    ensures var blocks := Marked(Fold(entries, dur), dur, now);
            BlockTokens(blocks) == EntryTokens(entries) && BlockOut(blocks) == EntryOut(entries) && BlockEvents(blocks) == |entries|
  {
    FoldConserves(entries, dur);
    var blocks := Fold(entries, dur);
    if blocks != [] {
      var init, last := blocks[..|blocks| - 1], blocks[|blocks| - 1];
      BlockSums(init, last.(active := true));
    }
  }

  lemma {:induction false} FoldConserves(entries: seq<Entry>, dur: int)
    ensures var blocks := Fold(entries, dur);
            BlockTokens(blocks) == EntryTokens(entries) && BlockOut(blocks) == EntryOut(entries) && BlockEvents(blocks) == |entries|
  {
    if entries != [] {
      var init, e := entries[..|entries| - 1], entries[|entries| - 1];
      FoldConserves(init, dur);
      var blocks := Fold(init, dur);
      if blocks == [] || Closes(blocks[|blocks| - 1], e, dur) {
        BlockSums(blocks, Charged(Opened(e, dur), e));
      } else {
        BlockSums(blocks[..|blocks| - 1], Charged(blocks[|blocks| - 1], e));
      }
    }
  }

  /** A block of whole hours from an hour mark, holding its last entry. */
  predicate BlockOk(b: Block, dur: int) {
    && b.start % HOUR == 0 && 0 <= b.start <= b.last <= b.end == b.start + dur && !b.active
  }

  ghost predicate BlocksOk(blocks: seq<Block>, dur: int) {
    && (forall i :: 0 <= i < |blocks| ==> BlockOk(blocks[i], dur))
    && (forall i, j :: 0 <= i < j < |blocks| ==> blocks[i].end <= blocks[j].start)
  }

  /** Past the window by a millisecond, the next hour mark at or before the entry is no earlier than the window's end. */
  lemma NextHourIsPastTheWindow(start: int, dur: int, ts: int)
    requires start % HOUR == 0 && dur % HOUR == 0 && ts >= 0 && ts - start > dur
    ensures start + dur <= FloorToHour(ts)
  {
    FloorBounds(ts);
    var k, d, f := start / HOUR, dur / HOUR, FloorToHour(ts) / HOUR;
    assert start == k * HOUR && dur == d * HOUR && FloorToHour(ts) == f * HOUR;
    assert k + d < f + 1;
  }

  lemma {:induction false} FoldKeepsBlocks(entries: seq<Entry>, dur: int)
    requires Chronological(entries) && dur >= HOUR && dur % HOUR == 0
    ensures BlocksOk(Fold(entries, dur), dur)
    ensures entries == [] <==> Fold(entries, dur) == []
    ensures entries != [] ==> Fold(entries, dur)[|Fold(entries, dur)| - 1].last == entries[|entries| - 1].ts
  {
    if entries != [] {
      var init, e := entries[..|entries| - 1], entries[|entries| - 1];
      assert e in entries;
      assert forall x :: x in init ==> x in entries;
      FoldKeepsBlocks(init, dur);
      AddKeepsBlocks(Fold(init, dur), e, dur);
    }
  }

  lemma AddKeepsBlocks(blocks: seq<Block>, e: Entry, dur: int)
    requires BlocksOk(blocks, dur) && e.ts >= 0 && dur >= HOUR && dur % HOUR == 0
    requires blocks != [] ==> blocks[|blocks| - 1].last <= e.ts
    ensures BlocksOk(AddEntry(blocks, e, dur), dur)
  {
    FloorBounds(e.ts);
    if blocks != [] {
      var last := blocks[|blocks| - 1];
      assert BlockOk(last, dur);
      if Closes(last, e, dur) {
        NextHourIsPastTheWindow(last.start, dur, e.ts);
        forall i | 0 <= i < |blocks| ensures blocks[i].end <= FloorToHour(e.ts) {
          assert BlockOk(blocks[i], dur);
          if i < |blocks| - 1 { assert blocks[i].end <= last.start; }
        }
      }
    }
  }

  /**
   Whole-hour windows over entries in time order: every block holds its entries within its window, and rounding
   the start down to the hour never makes a block overlap the one before.
   */
  lemma BlocksNeverOverlap(entries: seq<Entry>, dur: int, i: nat, j: nat)
    requires Chronological(entries) && dur >= HOUR && dur % HOUR == 0 && i < j < |Fold(entries, dur)|
    ensures Fold(entries, dur)[i].end <= Fold(entries, dur)[j].start
  {
    FoldKeepsBlocks(entries, dur);
  }

  /** A whole-hour window outlasts the rounding, so the gap since the last entry never closes a block on its own. */
  lemma IdleGapIsImplied(entries: seq<Entry>, dur: int, e: Entry)
    requires Chronological(entries) && dur >= HOUR && dur % HOUR == 0 && entries != []
    ensures var b := Fold(entries, dur)[|Fold(entries, dur)| - 1];
            Closes(b, e, dur) <==> e.ts - b.start > dur
  {
    FoldKeepsBlocks(entries, dur);
    assert BlockOk(Fold(entries, dur)[|Fold(entries, dur)| - 1], dur);
  }

  lemma {:induction false} FoldIsInactive(entries: seq<Entry>, dur: int)
    ensures forall i :: 0 <= i < |Fold(entries, dur)| ==> !Fold(entries, dur)[i].active
  {
    if entries != [] { FoldIsInactive(entries[..|entries| - 1], dur); }
  }

  /** Only the last block can be active: while its window is open and its last entry no longer ago than the duration. */
  lemma OnlyTheLastIsActive(entries: seq<Entry>, dur: int, now: int, i: nat)
    requires i < |Marked(Fold(entries, dur), dur, now)|
    ensures var blocks := Fold(entries, dur);
            && |Marked(blocks, dur, now)| == |blocks|
            && (Marked(blocks, dur, now)[i].active <==> i == |blocks| - 1 && now < blocks[i].end && now - blocks[i].last <= dur)
            && Marked(blocks, dur, now)[i].(active := false) == blocks[i]
  {
    FoldIsInactive(entries, dur);
  }

  /** What a block says of its own entries: the hour it opened at, its window, its latest entry and its sums. */
  lemma BlockSaysItsEntries(entries: seq<Entry>, dur: int, i: nat)
    requires (forall e :: e in entries ==> e.ts >= 0) && i < |Fold(entries, dur)|
    ensures var b, piece := Fold(entries, dur)[i], Pieces(entries, dur)[i];
            && piece != []
            && b.start % HOUR == 0 && b.start <= piece[0].ts < b.start + HOUR && b.end == b.start + dur
            && b.last == piece[|piece| - 1].ts && b.tokens == EntryTokens(piece) && b.out == EntryOut(piece) && b.events == |piece|
  {
    BlocksAreTheirPieces(entries, dur, i);
    var piece := Pieces(entries, dur)[i];
    PiecesFromEntries(entries, dur, i);
    assert piece[0] in piece;
    FloorBounds(piece[0].ts);
    ChargeCounts(Opened(piece[0], dur), piece);
  }

  lemma {:induction false} PiecesFromEntries(entries: seq<Entry>, dur: int, i: nat)
    requires i < |Fold(entries, dur)|
    ensures forall e :: e in Pieces(entries, dur)[i] ==> e in entries
  {
    var init, e := entries[..|entries| - 1], entries[|entries| - 1];
    assert entries == init + [e];
    if i < |Fold(init, dur)| { PiecesFromEntries(init, dur, i); }
  }

  // ---------------------------------------------------------------- where blocks break

  /** The entry came within the duration of the block's start and of the entry before it. */
  predicate Follows(start: int, before: Entry, e: Entry, dur: int) {
    e.ts - start <= dur && e.ts - before.ts <= dur
  }

  ghost predicate RunsOn(b: Block, piece: seq<Entry>, dur: int) {
    piece != [] && forall j, k :: 0 <= j < k < |piece| && k == j + 1 ==> Follows(b.start, piece[j], piece[k], dur)
  }

  predicate BreaksAt(b: Block, piece: seq<Entry>, next: seq<Entry>, dur: int) {
    piece != [] && next != [] && !Follows(b.start, piece[|piece| - 1], next[0], dur)
  }

  /** Inside a piece every entry follows the one before it; the first entry of the next piece does not. */
  ghost predicate BrokenRightly(blocks: seq<Block>, pieces: seq<seq<Entry>>, dur: int) {
    && |pieces| == |blocks|
    && (forall i :: 0 <= i < |pieces| ==> RunsOn(blocks[i], pieces[i], dur))
    && (forall i, j :: 0 <= i < j < |pieces| && j == i + 1 ==> BreaksAt(blocks[i], pieces[i], pieces[j], dur))
  }

  lemma {:induction false} BlocksBreakWhereTheyMust(entries: seq<Entry>, dur: int)
    ensures BrokenRightly(Fold(entries, dur), Pieces(entries, dur), dur)
  {
    if entries != [] {
      var init, e := entries[..|entries| - 1], entries[|entries| - 1];
      BlocksBreakWhereTheyMust(init, dur);
      if init != [] {
        FoldNotEmpty(init, dur);
        LastIsLatest(init, dur);
        assert RunsOn(Fold(init, dur)[|Fold(init, dur)| - 1], Pieces(init, dur)[|Pieces(init, dur)| - 1], dur);
      }
      BrokenStep(Fold(init, dur), Pieces(init, dur), e, dur);
    }
  }

  lemma FoldNotEmpty(entries: seq<Entry>, dur: int)
    requires entries != []
    ensures Fold(entries, dur) != []
  {
  }

  lemma LastIsLatest(entries: seq<Entry>, dur: int)
    requires entries != []
    ensures var b, p := Fold(entries, dur), Pieces(entries, dur);
            b != [] && p[|p| - 1] != [] && b[|b| - 1].last == p[|p| - 1][|p[|p| - 1]| - 1].ts
  {
    var b, p := Fold(entries, dur), Pieces(entries, dur);
    BlocksAreTheirPieces(entries, dur, |b| - 1);
    ChargeCounts(Opened(p[|p| - 1][0], dur), p[|p| - 1]);
  }

  lemma BrokenStep(blocks: seq<Block>, pieces: seq<seq<Entry>>, e: Entry, dur: int)
    requires BrokenRightly(blocks, pieces, dur)
    requires blocks != [] ==> RunsOn(blocks[|blocks| - 1], pieces[|pieces| - 1], dur)
    requires blocks != [] ==> blocks[|blocks| - 1].last == pieces[|pieces| - 1][|pieces[|pieces| - 1]| - 1].ts
    ensures BrokenRightly(AddEntry(blocks, e, dur), AddPiece(blocks, pieces, e, dur), dur)
  {
    var n := |blocks| - 1;
    if blocks == [] || Closes(blocks[n], e, dur) {
      assert RunsOn(Charged(Opened(e, dur), e), [e], dur);
      if blocks != [] { assert BreaksAt(blocks[n], pieces[n], [e], dur); }
    } else {
      RunsLonger(blocks[n], pieces[n], e, dur);
      if n > 0 { assert BreaksAt(blocks[n - 1], pieces[n - 1], pieces[n] + [e], dur); }
    }
  }

  lemma RunsLonger(b: Block, piece: seq<Entry>, e: Entry, dur: int)
    requires RunsOn(b, piece, dur) && b.last == piece[|piece| - 1].ts && !Closes(b, e, dur)
    ensures RunsOn(Charged(b, e), piece + [e], dur)
  {
  }
}
