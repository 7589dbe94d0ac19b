/**
 The proxy's response observer and its retry ring (internal/proxy/proxy.go:380-560). JSON decoding of one payload
 is a parameter.
 */
module Proxies {
  import opened Ingest

  type Bytes = seq<bv8>

  const NEWLINE: bv8 := 10
  const RETURN: bv8 := 13
  const DATA: Bytes := [100, 97, 116, 97, 58]
  const DONE: Bytes := [91, 68, 79, 78, 69, 93]
  const CAPTURE_MAX := 4194304
  const RING_CAP := 1000

  datatype Tokens = Tokens(input: int, output: int, cacheRead: int, cacheCreate: int)

  /** proxyWireUsage; `cached` is the nested detail when present. */
  datatype Usage = Usage(
    input: int, output: int, cacheRead: int, cacheCreate: int, prompt: int, completion: int, cached: Option<int>)

  datatype Message = Message(id: string, model: string, usage: Option<Usage>)

  datatype WireEvent = WireEvent(model: string, message: Option<Message>, usage: Option<Usage>)

  /** A non-stream response body. */
  datatype WireBody = WireBody(id: string, model: string, usage: Option<Usage>)

  /** What the observer has learned. */
  datatype Seen = Seen(acc: Tokens, model: string, msgID: string)

  /** json.Unmarshal of a trimmed payload and of a whole body. */
  datatype Decoder = Decoder(event: Bytes -> Option<WireEvent>, body: Bytes -> Option<WireBody>)

  const NOTHING := Seen(Tokens(0, 0, 0, 0), "", "")

  // ---------------------------------------------------------------- one usage payload

  predicate OpenAI(u: Usage) {
    u.prompt > 0 || u.completion > 0 || u.cached.Some?
  }

  function Cached(u: Usage): int {
    if u.cached.None? then 0 else if u.cached.value < u.prompt then u.cached.value else u.prompt
  }

  function Or(value: int, otherwise: int): int {
    if value > 0 then value else otherwise
  }

  function Merged(acc: Tokens, u: Usage): Tokens {
    if OpenAI(u) then Tokens(u.prompt - Cached(u), u.completion, Cached(u), acc.cacheCreate)
    else Tokens(Or(u.input, acc.input), Or(u.output, acc.output), Or(u.cacheRead, acc.cacheRead), Or(u.cacheCreate, acc.cacheCreate))
  }

  function MergedAll(acc: Tokens, us: seq<Usage>): Tokens {
    if us == [] then acc else Merged(MergedAll(acc, us[..|us| - 1]), us[|us| - 1])
  }

  /**
   An OpenAI usage is split, not counted twice, and replaces what was seen but for the cache creation it never
   mentions; only a negative prompt without details can leave a negative input.
   */
  lemma PromptIsSplit(acc: Tokens, u: Usage)
    requires u.prompt > 0 || u.completion > 0 || u.cached.Some?
    ensures var m := Merged(acc, u);
            && m.input + m.cacheRead == u.prompt && m.output == u.completion && m.cacheCreate == acc.cacheCreate
            && m.cacheRead <= (if u.cached.Some? then u.cached.value else 0)
            && (u.cached.Some? && u.cached.value <= u.prompt ==> m.cacheRead == u.cached.value)
            && (u.cached.None? ==> m.cacheRead == 0)
    ensures Merged(acc, u).input < 0 <==> u.cached.None? && u.prompt < 0
  {
  }

  datatype Part = Input | Output | CacheRead | CacheCreate

  function PartOf(t: Tokens, p: Part): int {
    match p
    case Input => t.input
    case Output => t.output
    case CacheRead => t.cacheRead
    case CacheCreate => t.cacheCreate
  }

  function PartSent(u: Usage, p: Part): int {
    match p
    case Input => u.input
    case Output => u.output
    case CacheRead => u.cacheRead
    case CacheCreate => u.cacheCreate
  }

  /**
   The Anthropic dialect: each of the four components ends as the last positive value sent, so the placeholder output
   of the first payload gives way to the final count and is never added to it.
   */
  lemma {:induction false} LastPositiveWins(acc: Tokens, us: seq<Usage>, p: Part, i: nat)
    requires forall u :: u in us ==> u.prompt <= 0 && u.completion <= 0 && u.cached.None?
    requires i < |us| && PartSent(us[i], p) > 0 && forall j :: i < j < |us| ==> PartSent(us[j], p) <= 0
    ensures PartOf(MergedAll(acc, us), p) == PartSent(us[i], p)
  {
    assert us[|us| - 1] in us;
    if i < |us| - 1 { LastPositiveWins(acc, us[..|us| - 1], p, i); }
  }

  /** A component of which nothing positive was sent stays as it was. */
  lemma {:induction false} NothingPositiveKeeps(acc: Tokens, us: seq<Usage>, p: Part)
    requires forall u :: u in us ==> u.prompt <= 0 && u.completion <= 0 && u.cached.None? && PartSent(u, p) <= 0
    ensures PartOf(MergedAll(acc, us), p) == PartOf(acc, p)
  {
    if us != [] {
      assert us[|us| - 1] in us;
      NothingPositiveKeeps(acc, us[..|us| - 1], p);
    }
  }

  // ---------------------------------------------------------------- one line

  function Set(value: string, otherwise: string): string {
    if value != "" then value else otherwise
  }

  function MergedIf(acc: Tokens, u: Option<Usage>): Tokens {
    if u.None? then acc else Merged(acc, u.value)
  }

  function ApplyEvent(s: Seen, ev: WireEvent): Seen {
    var m := Set(ev.model, s.model);
    var inner := if ev.message.None? then Seen(s.acc, m, s.msgID)
                 else Seen(MergedIf(s.acc, ev.message.value.usage), Set(ev.message.value.model, m), Set(ev.message.value.id, s.msgID));
    inner.(acc := MergedIf(inner.acc, ev.usage))
  }

  function TrimReturns(line: Bytes): Bytes {
    if line != [] && line[|line| - 1] == RETURN then TrimReturns(line[..|line| - 1]) else line
  }

  predicate IsSpace(b: bv8) {
    b == 32 || 9 <= b <= 13
  }

  function TrimLeft(b: Bytes): Bytes {
    if b != [] && IsSpace(b[0]) then TrimLeft(b[1..]) else b
  }

  function TrimRight(b: Bytes): Bytes {
    if b != [] && IsSpace(b[|b| - 1]) then TrimRight(b[..|b| - 1]) else b
  }

  function ApplyLine(d: Decoder, s: Seen, line: Bytes): Seen {
    if !(DATA <= line) then s
    else
      var payload := TrimRight(TrimLeft(line[|DATA|..]));
      if payload == [] || payload == DONE || d.event(payload).None? then s else ApplyEvent(s, d.event(payload).value)
  }

  // ---------------------------------------------------------------- what a line says

  /** The usages one payload carries, in the order they are merged. */
  function UsagesIn(ev: WireEvent): seq<Usage> {
    (if ev.message.Some? && ev.message.value.usage.Some? then [ev.message.value.usage.value] else [])
    + if ev.usage.Some? then [ev.usage.value] else []
  }

  /** The later of two names, unless it is empty. */
  predicate Latest(name: string, first: string, second: string, third: string) {
    name == if third != "" then third else if second != "" then second else first
  }

  lemma MergedPair(acc: Tokens, a: Usage, b: Usage)
    ensures MergedAll(acc, [a]) == Merged(acc, a) && MergedAll(acc, [a, b]) == Merged(Merged(acc, a), b)
  {
    assert [a][..0] == [] && [a, b][..1] == [a];
  }

  /** A payload's usages are merged in order, and its names replace older ones unless they are empty. */
  lemma EventSays(s: Seen, ev: WireEvent)
    ensures var a := ApplyEvent(s, ev);
            && a.acc == MergedAll(s.acc, UsagesIn(ev))
            && Latest(a.model, s.model, ev.model, if ev.message.Some? then ev.message.value.model else "")
            && Latest(a.msgID, s.msgID, "", if ev.message.Some? then ev.message.value.id else "")
  {
    if ev.usage.Some? {
      MergedPair(s.acc, ev.usage.value, ev.usage.value);
      if ev.message.Some? && ev.message.value.usage.Some? {
        var u := ev.message.value.usage.value;
        MergedPair(s.acc, u, ev.usage.value);
        assert UsagesIn(ev) == [u, ev.usage.value];
      }
    } else if ev.message.Some? && ev.message.value.usage.Some? {
      MergedPair(s.acc, ev.message.value.usage.value, ev.message.value.usage.value);
    }
  }

  /** Space, tab, line feed, vertical tab, form feed and carriage return. */
  const SPACES: set<bv8> := {32, 9, 10, 11, 12, 13}

  predicate Blank(b: Bytes) {
    forall i :: 0 <= i < |b| ==> b[i] in SPACES
  }

  /** Neither end of the payload is white space. */
  predicate Tight(payload: Bytes) {
    payload != [] && payload[0] !in SPACES && payload[|payload| - 1] !in SPACES
  }

  lemma SpacesAre(b: bv8)
    ensures IsSpace(b) <==> b in SPACES
  {
  }

  lemma {:induction false} LeftTrimmed(pad: Bytes, rest: Bytes)
    requires Blank(pad) && (rest == [] || rest[0] !in SPACES)
    ensures TrimLeft(pad + rest) == rest
  {
    if pad == [] {
      assert pad + rest == rest;
      if rest != [] { SpacesAre(rest[0]); }
    } else {
      SpacesAre(pad[0]);
      assert (pad + rest)[1..] == pad[1..] + rest;
      LeftTrimmed(pad[1..], rest);
    }
  }

  lemma {:induction false} RightTrimmed(rest: Bytes, pad: Bytes)
    requires Blank(pad) && (rest == [] || rest[|rest| - 1] !in SPACES)
    ensures TrimRight(rest + pad) == rest
  {
    if pad == [] {
      assert rest + pad == rest;
      if rest != [] { SpacesAre(rest[|rest| - 1]); }
    } else {
      SpacesAre(pad[|pad| - 1]);
      assert (rest + pad)[..|rest + pad| - 1] == rest + pad[..|pad| - 1];
      RightTrimmed(rest, pad[..|pad| - 1]);
    }
  }

  /** Trimming carriage returns shortens the white space at the end and nothing else. */
  lemma {:induction false} ReturnsTrimmed(rest: Bytes, pad: Bytes) returns (left: Bytes)
    requires Blank(pad) && rest != [] && rest[|rest| - 1] != RETURN
    ensures Blank(left) && left <= pad && TrimReturns(rest + pad) == rest + left
    decreases |pad|
  {
    if pad == [] || pad[|pad| - 1] != RETURN {
      left := pad;
      if pad == [] { assert rest + pad == rest; }
    } else {
      assert (rest + pad)[..|rest + pad| - 1] == rest + pad[..|pad| - 1];
      left := ReturnsTrimmed(rest, pad[..|pad| - 1]);
    }
  }

  /** A data line says exactly what its payload decodes to, whatever white space surrounds it. */
  lemma LineSays(d: Decoder, s: Seen, pad: Bytes, payload: Bytes, after: Bytes)
    requires Blank(pad) && Blank(after) && Tight(payload)
    ensures ApplyLine(d, s, TrimReturns(DATA + pad + payload + after)) ==
            if payload == DONE || d.event(payload).None? then s else ApplyEvent(s, d.event(payload).value)
  {
    var rest := DATA + pad + payload;
    assert rest[|rest| - 1] == payload[|payload| - 1];
    var left := ReturnsTrimmed(rest, after);
    var line := rest + left;
    assert line[|DATA|..] == pad + (payload + left);
    LeftTrimmed(pad, payload + left);
    RightTrimmed(payload, left);
    assert DATA <= line;
  }

  /** A line of another field, or one with nothing in it, says nothing. */
  lemma OtherLinesSayNothing(d: Decoder, s: Seen, line: Bytes)
    requires !(DATA <= line) || Blank(line[|DATA|..])
    ensures ApplyLine(d, s, line) == s
  {
    if DATA <= line {
      var pad := line[|DATA|..];
      assert pad + [] == pad && [] + pad == pad;
      LeftTrimmed(pad, []);
    }
  }

  // ---------------------------------------------------------------- the stream, byte by byte

  /** An observer of a stream: the unfinished line and what the finished ones said. */
  datatype Stream = Stream(line: Bytes, seen: Seen)

  function FeedByte(d: Decoder, o: Stream, b: bv8): Stream {
    if b == NEWLINE then Stream([], ApplyLine(d, o.seen, TrimReturns(o.line))) else o.(line := o.line + [b])
  }

  function FeedBytes(d: Decoder, o: Stream, bytes: Bytes): Stream {
    if bytes == [] then o else FeedByte(d, FeedBytes(d, o, bytes[..|bytes| - 1]), bytes[|bytes| - 1])
  }

  predicate OneLine(line: Bytes) {
    forall i :: 0 <= i < |line| ==> line[i] != NEWLINE
  }

  lemma {:induction false} FeedSplit(d: Decoder, o: Stream, a: Bytes, b: Bytes)
    ensures FeedBytes(d, o, a + b) == FeedBytes(d, FeedBytes(d, o, a), b)
  {
    if b == [] {
      assert a + b == a;
    } else {
      FeedSplit(d, o, a, b[..|b| - 1]);
      assert (a + b)[..|a + b| - 1] == a + b[..|b| - 1];
    }
  }

  lemma {:induction false} FeedOpenLine(d: Decoder, o: Stream, bytes: Bytes)
    requires OneLine(bytes)
    ensures FeedBytes(d, o, bytes) == Stream(o.line + bytes, o.seen)
  {
    if bytes == [] {
      assert o.line + bytes == o.line;
    } else {
      FeedOpenLine(d, o, bytes[..|bytes| - 1]);
      assert o.line + bytes[..|bytes| - 1] + [bytes[|bytes| - 1]] == o.line + bytes;
    }
  }

  /** Taking the first whole line off the buffer is feeding its bytes one at a time. */
  lemma TakeLine(d: Decoder, seen: Seen, buffer: Bytes, i: nat)
    requires i < |buffer| && buffer[i] == NEWLINE && OneLine(buffer[..i])
    ensures FeedBytes(d, Stream([], seen), buffer)
         == FeedBytes(d, Stream([], ApplyLine(d, seen, TrimReturns(buffer[..i]))), buffer[i + 1..])
  {
    assert buffer == buffer[..i + 1] + buffer[i + 1..];
    FeedSplit(d, Stream([], seen), buffer[..i + 1], buffer[i + 1..]);
    assert buffer[..i + 1] == buffer[..i] + [NEWLINE];
    FeedSplit(d, Stream([], seen), buffer[..i], [NEWLINE]);
    FeedOpenLine(d, Stream([], seen), buffer[..i]);
    assert [NEWLINE][..0] == [];
    assert [] + buffer[..i] == buffer[..i];
  }

  // ---------------------------------------------------------------- the observer

  method IndexByte(data: Bytes) returns (i: int)
    ensures if i < 0 then OneLine(data) else i < |data| && data[i] == NEWLINE && OneLine(data[..i])
  {
    for k := 0 to |data|
      invariant OneLine(data[..k])
    {
      if data[k] == NEWLINE { return k; }
    }
    return -1;
  }

  class UsageObserver {
    const decoder: Decoder
    const sse: bool
    var raw: Bytes
    var line: Bytes
    var seen: Seen

    ghost predicate Valid()
      reads this
    {
      OneLine(line)
    }

    constructor (decoder: Decoder, sse: bool)
      ensures Valid() && this.decoder == decoder && this.sse == sse && raw == [] && line == [] && seen == NOTHING
    {
      this.decoder, this.sse := decoder, sse;
      raw, line, seen := [], [], NOTHING;
    }

    method Merge(u: Usage)
      modifies this`seen
      ensures seen == old(seen).(acc := Merged(old(seen).acc, u))
    {
      var acc := seen.acc;
      if u.prompt > 0 || u.completion > 0 || u.cached.Some? {
        var cached := 0;
        if u.cached.Some? { cached := if u.cached.value < u.prompt then u.cached.value else u.prompt; }
        seen := seen.(acc := Tokens(u.prompt - cached, u.completion, cached, acc.cacheCreate));
        return;
      }
      if u.input > 0 { acc := acc.(input := u.input); }
      if u.output > 0 { acc := acc.(output := u.output); }
      if u.cacheRead > 0 { acc := acc.(cacheRead := u.cacheRead); }
      if u.cacheCreate > 0 { acc := acc.(cacheCreate := u.cacheCreate); }
      seen := seen.(acc := acc);
    }

    method SseLine(text: Bytes)
      modifies this`seen
      ensures seen == ApplyLine(decoder, old(seen), text)
    {
      if !(DATA <= text) {
        return;
      }
      var payload := TrimRight(TrimLeft(text[|DATA|..]));
      if payload == [] || payload == DONE {
        return;
      }
      var ev := decoder.event(payload);
      if ev.None? {
        return;
      }
      if ev.value.model != "" { seen := seen.(model := ev.value.model); }
      if ev.value.message.Some? {
        var m := ev.value.message.value;
        if m.id != "" { seen := seen.(msgID := m.id); }
        if m.model != "" { seen := seen.(model := m.model); }
        if m.usage.Some? { Merge(m.usage.value); }
      }
      if ev.value.usage.Some? { Merge(ev.value.usage.value); }
    }

    /** Every whole line in the buffer is read, the first one first. */
    method Drain()
      modifies this`line, this`seen
      ensures Valid()
      ensures Stream(line, seen) == FeedBytes(decoder, Stream([], old(seen)), old(line))
    {
      ghost var end := FeedBytes(decoder, Stream([], seen), line);
      while true
        invariant FeedBytes(decoder, Stream([], seen), line) == end
        decreases |line|
      {
        var i := IndexByte(line);
        if i < 0 {
          FeedOpenLine(decoder, Stream([], seen), line);
          assert [] + line == line;
          return;
        }
        TakeLine(decoder, seen, line, i);
        var whole := line[..i];
        line := line[i + 1..];
        SseLine(TrimReturns(whole));
      }
    }

    /** A chunk of a stream does exactly what its bytes do one at a time. */
    method Feed(b: Bytes)
      requires Valid()
      modifies this
      ensures Valid()
      ensures sse ==> raw == old(raw) && Stream(line, seen) == FeedBytes(decoder, Stream(old(line), old(seen)), b)
      ensures !sse ==> line == old(line) && seen == old(seen) && raw == if |old(raw)| < CAPTURE_MAX then old(raw) + b else old(raw)
    {
      if !sse {
        if |raw| < CAPTURE_MAX { raw := raw + b; }
        return;
      }
      FeedOpenLine(decoder, Stream([], seen), line);
      FeedSplit(decoder, Stream([], seen), line, b);
      assert [] + line == line;
      line := line + b;
      Drain();
    }

    method GetResult() returns (answer: Seen)
      modifies this`seen
      ensures answer == seen == Answer(decoder, sse, old(raw), old(seen))
    {
      if !sse && |raw| > 0 {
        var v := decoder.body(raw);
        if v.Some? {
          if v.value.id != "" { seen := seen.(msgID := v.value.id); }
          if v.value.model != "" { seen := seen.(model := v.value.model); }
          if v.value.usage.Some? { Merge(v.value.usage.value); }
        }
      }
      answer := seen;
    }
  }

  /** result. */
  function Answer(d: Decoder, sse: bool, raw: Bytes, s: Seen): Seen {
    if sse || raw == [] || d.body(raw).None? then s
    else
      var v := d.body(raw).value;
      Seen(MergedIf(s.acc, v.usage), Set(v.model, s.model), Set(v.id, s.msgID))
  }

  // ---------------------------------------------------------------- chunking

  function Flatten(chunks: seq<Bytes>): Bytes {
    if chunks == [] then [] else Flatten(chunks[..|chunks| - 1]) + chunks[|chunks| - 1]
  }

  function FeedChunks(d: Decoder, o: Stream, chunks: seq<Bytes>): Stream {
    if chunks == [] then o else FeedBytes(d, FeedChunks(d, o, chunks[..|chunks| - 1]), chunks[|chunks| - 1])
  }

  /** However a stream is cut into chunks, the observer ends in the same state. */
  lemma {:induction false} ChunkingIsInvisible(d: Decoder, o: Stream, chunks: seq<Bytes>)
    ensures FeedChunks(d, o, chunks) == FeedBytes(d, o, Flatten(chunks))
  {
    if chunks != [] {
      ChunkingIsInvisible(d, o, chunks[..|chunks| - 1]);
      FeedSplit(d, o, Flatten(chunks[..|chunks| - 1]), chunks[|chunks| - 1]);
    }
  }

  /** Where the line in progress starts. */
  function OpenLine(bytes: Bytes): (n: nat)
    ensures n <= |bytes| && OneLine(bytes[n..]) && (n > 0 ==> bytes[n - 1] == NEWLINE)
  {
    if bytes == [] then 0 else if bytes[|bytes| - 1] == NEWLINE then |bytes| else OpenLine(bytes[..|bytes| - 1])
  }

  /** What is buffered is only the line in progress, and a stream that ends inside a line leaves that line unread. */
  lemma OnlyWholeLinesCount(d: Decoder, seen: Seen, bytes: Bytes)
    ensures var n := OpenLine(bytes);
            FeedBytes(d, Stream([], seen), bytes) == Stream(bytes[n..], FeedBytes(d, Stream([], seen), bytes[..n]).seen)
  {
    var n := OpenLine(bytes);
    assert bytes == bytes[..n] + bytes[n..];
    FeedSplit(d, Stream([], seen), bytes[..n], bytes[n..]);
    FeedOpenLine(d, FeedBytes(d, Stream([], seen), bytes[..n]), bytes[n..]);
    NothingOpen(d, seen, bytes[..n]);
    assert [] + bytes[n..] == bytes[n..];
  }

  lemma NothingOpen(d: Decoder, seen: Seen, bytes: Bytes)
    requires bytes == [] || bytes[|bytes| - 1] == NEWLINE
    ensures FeedBytes(d, Stream([], seen), bytes).line == []
  {
  }

  /** Lines as a stream sends them, each ended. */
  function Sent(lines: seq<Bytes>): Bytes {
    if lines == [] then [] else Sent(lines[..|lines| - 1]) + lines[|lines| - 1] + [NEWLINE]
  }

  function ReadLines(d: Decoder, s: Seen, lines: seq<Bytes>): Seen {
    if lines == [] then s else ApplyLine(d, ReadLines(d, s, lines[..|lines| - 1]), TrimReturns(lines[|lines| - 1]))
  }

  /** A stream of lines is read line by line, in order, each once. */
  lemma {:induction false} StreamIsItsLines(d: Decoder, s: Seen, lines: seq<Bytes>)
    requires forall i :: 0 <= i < |lines| ==> OneLine(lines[i])
    ensures FeedBytes(d, Stream([], s), Sent(lines)) == Stream([], ReadLines(d, s, lines))
  {
    if lines != [] {
      var init, last := lines[..|lines| - 1], lines[|lines| - 1];
      StreamIsItsLines(d, s, init);
      var o := Stream([], ReadLines(d, s, init));
      assert OneLine(last) && OneLine(lines[|lines| - 1]);
      FeedSplit(d, Stream([], s), Sent(init) + last, [NEWLINE]);
      FeedSplit(d, Stream([], s), Sent(init), last);
      FeedOpenLine(d, o, last);
      assert [] + last == last && [NEWLINE][..0] == [];
    }
  }

  /** A whole body says what it decodes to; one that does not decode, and any stream's, says nothing more. */
  lemma BodySays(d: Decoder, raw: Bytes, s: Seen)
    ensures Answer(d, true, raw, s) == s && Answer(d, false, [], s) == s
    ensures raw != [] && d.body(raw).None? ==> Answer(d, false, raw, s) == s
    ensures raw != [] && d.body(raw).Some? ==>
      var v, a := d.body(raw).value, Answer(d, false, raw, s);
      && a.acc == (if v.usage.Some? then Merged(s.acc, v.usage.value) else s.acc)
      && a.model == (if v.model != "" then v.model else s.model) && a.msgID == (if v.id != "" then v.id else s.msgID)
  {
  }

  /** The captured body of a non-stream response. */
  function Captured(chunks: seq<Bytes>): Bytes {
    if chunks == [] then []
    else
      var raw := Captured(chunks[..|chunks| - 1]);
      if |raw| < CAPTURE_MAX then raw + chunks[|chunks| - 1] else raw
  }

  /** Every chunk with something in it starts before the cap. */
  ghost predicate StartsBeforeCap(chunks: seq<Bytes>) {
    forall i :: 0 <= i < |chunks| && chunks[i] != [] ==> |Flatten(chunks[..i])| < CAPTURE_MAX
  }

  lemma {:induction false} CaptureIsPrefix(chunks: seq<Bytes>)
    ensures Captured(chunks) <= Flatten(chunks)
    ensures Captured(chunks) != Flatten(chunks) ==> |Captured(chunks)| >= CAPTURE_MAX
  {
    if chunks != [] { CaptureIsPrefix(chunks[..|chunks| - 1]); }
  }

  /** A body is captured whole exactly when every non-empty chunk of it starts before the cap. */
  lemma {:induction false} CapturedWholeIff(chunks: seq<Bytes>)
    ensures Captured(chunks) == Flatten(chunks) <==> StartsBeforeCap(chunks)
  {
    if chunks != [] {
      var init, last := chunks[..|chunks| - 1], chunks[|chunks| - 1];
      CapturedWholeIff(init);
      CaptureIsPrefix(init);
      CapturedInit(init, last);
      assert StartsBeforeCap(chunks) <==> StartsBeforeCap(init) && (last != [] ==> |Flatten(init)| < CAPTURE_MAX) by {
        assert forall i :: 0 <= i < |init| ==> chunks[i] == init[i] && chunks[..i] == init[..i];
        assert chunks[..|init|] == init;
      }
    }
  }

  lemma CapturedInit(init: seq<Bytes>, last: Bytes)
    requires Captured(init) <= Flatten(init)
    requires Captured(init) != Flatten(init) ==> |Captured(init)| >= CAPTURE_MAX
    ensures Captured(init + [last]) == Flatten(init + [last]) <==>
            Captured(init) == Flatten(init) && (last != [] ==> |Flatten(init)| < CAPTURE_MAX)
  {
    assert (init + [last])[..|init|] == init;
    var raw, all := Captured(init), Flatten(init);
    if raw == all {
      if |raw| >= CAPTURE_MAX && last != [] { assert |all + last| > |all|; }
      if last == [] { assert all + last == all; }
    } else {
      assert all[..|all|] == all;
      assert |raw| < |all|;
    }
  }

  /** What is captured does not depend on the chunking exactly when the body is no longer than the cap. */
  lemma CaptureIgnoresChunkingIff(body: Bytes)
    ensures (forall chunks :: Flatten(chunks) == body ==> Captured(chunks) == body) <==> |body| <= CAPTURE_MAX
  {
    if |body| <= CAPTURE_MAX {
      forall chunks | Flatten(chunks) == body ensures Captured(chunks) == body {
        ShortIsWhole(chunks);
      }
    } else {
      var chunks := [body[..CAPTURE_MAX], body[CAPTURE_MAX..]];
      assert chunks[..1] == [body[..CAPTURE_MAX]] && chunks[..1][..0] == [];
      assert [] + body[..CAPTURE_MAX] == body[..CAPTURE_MAX];
      assert Flatten(chunks[..1]) == body[..CAPTURE_MAX];
      assert body[..CAPTURE_MAX] + body[CAPTURE_MAX..] == body;
      assert Flatten(chunks) == body;
      assert Captured(chunks[..1]) == body[..CAPTURE_MAX];
      assert |Captured(chunks)| == CAPTURE_MAX;
    }
  }

  lemma {:induction false} ShortIsWhole(chunks: seq<Bytes>)
    requires |Flatten(chunks)| <= CAPTURE_MAX
    ensures Captured(chunks) == Flatten(chunks)
  {
    if chunks != [] {
      ShortIsWhole(chunks[..|chunks| - 1]);
      var all, last := Flatten(chunks[..|chunks| - 1]), chunks[|chunks| - 1];
      if |all| == CAPTURE_MAX { assert last == [] && all + last == all; }
    }
  }

  // ---------------------------------------------------------------- the retry ring

  function Newest<T>(buf: seq<T>): (r: seq<T>)
    ensures |r| <= RING_CAP
  {
    if |buf| > RING_CAP then buf[|buf| - RING_CAP..] else buf
  }

  /** One emit: its event, and whether the sink took the batch. */
  datatype Call<T> = Call(event: T, taken: bool)

  class ProxyEmitter<T> {
    var buf: seq<T>

    constructor ()
      ensures buf == []
    {
      buf := [];
    }

    /** `taken` is the sink's answer to the batch. */
    method Emit(ev: T, taken: bool) returns (batch: seq<T>)
      requires |buf| <= RING_CAP
      modifies this
      ensures batch == Newest(old(buf) + [ev])
      ensures buf == Buffered(old(buf), Call(ev, taken)) && |buf| <= RING_CAP
    {
      buf := buf + [ev];
      if |buf| > RING_CAP {
        buf := buf[|buf| - RING_CAP..];
      }
      batch := buf;
      if taken {
        buf := [];
      }
    }
  }

  function Buffered<T>(buf: seq<T>, c: Call<T>): seq<T> {
    if c.taken then [] else Newest(buf + [c.event])
  }

  /** The ring after these calls. */
  function Ring<T>(calls: seq<Call<T>>): seq<T> {
    if calls == [] then [] else Buffered(Ring(calls[..|calls| - 1]), calls[|calls| - 1])
  }

  /** The position after the latest taken call. */
  function SinceTaken<T>(calls: seq<Call<T>>): (n: nat)
    ensures n <= |calls|
    ensures n > 0 ==> calls[n - 1].taken
    ensures forall i :: n <= i < |calls| ==> !calls[i].taken
  {
    if calls == [] then 0 else if calls[|calls| - 1].taken then |calls| else SinceTaken(calls[..|calls| - 1])
  }

  function Max(a: int, b: int): int { if a < b then b else a }

  /** The oldest call whose event the ring still holds. */
  function RingStart<T>(calls: seq<Call<T>>): (n: nat)
    ensures n <= |calls|
  {
    Max(SinceTaken(calls), |calls| - RING_CAP)
  }

  function EventsOf<T>(calls: seq<Call<T>>): (es: seq<T>)
    ensures |es| == |calls| && forall i :: 0 <= i < |calls| ==> es[i] == calls[i].event
  {
    seq(|calls|, i requires 0 <= i < |calls| => calls[i].event)
  }

  /** The ring is always the newest thousand, at most, of the events since the last taken batch, in order. */
  lemma {:induction false} RingHoldsTheRecent<T>(calls: seq<Call<T>>)
    ensures Ring(calls) == EventsOf(calls[RingStart(calls)..])
  {
    if calls != [] {
      var init, last := calls[..|calls| - 1], calls[|calls| - 1];
      RingHoldsTheRecent(init);
      if !last.taken {
        var buf := EventsOf(init[RingStart(init)..]);
        assert buf + [last.event] == EventsOf(calls[RingStart(init)..]);
        if |buf| + 1 > RING_CAP {
          assert EventsOf(calls[RingStart(init)..])[|buf| + 1 - RING_CAP..] == EventsOf(calls[RingStart(calls)..]);
        }
      }
    }
  }

  /** The batch of call j, by the positions of its events. */
  predicate Sends<T>(calls: seq<Call<T>>, j: nat, i: nat)
    requires j < |calls|
  {
    Max(SinceTaken(calls[..j]), j + 1 - RING_CAP) <= i <= j
  }

  lemma BatchIsWhatIsSent<T>(calls: seq<Call<T>>, j: nat)
    requires j < |calls|
    ensures Newest(Ring(calls[..j]) + [calls[j].event]) ==
            EventsOf(calls[Max(SinceTaken(calls[..j]), j + 1 - RING_CAP)..j + 1])
  {
    var init := calls[..j];
    RingHoldsTheRecent(init);
    var buf := EventsOf(init[RingStart(init)..]);
    assert buf + [calls[j].event] == EventsOf(calls[RingStart(init)..j + 1]);
  }

  predicate Delivered<T>(calls: seq<Call<T>>, i: nat) {
    exists j :: i <= j < |calls| && calls[j].taken && Sends(calls, j, i)
  }

  /** An event reaches the sink exactly when its own call or one of the next 999 is taken. */
  lemma DeliveredIff<T>(calls: seq<Call<T>>, i: nat)
    requires i < |calls|
    ensures Delivered(calls, i) <==> exists j :: i <= j < |calls| && j < i + RING_CAP && calls[j].taken
  {
    if j :| i <= j < |calls| && j < i + RING_CAP && calls[j].taken {
      var k := FirstTaken(calls, i, j);
      assert SinceTaken(calls[..k]) <= i;
      assert Sends(calls, k, i);
    }
  }

  lemma {:induction false} FirstTaken<T>(calls: seq<Call<T>>, i: nat, j: nat) returns (k: nat)
    requires i <= j < |calls| && calls[j].taken
    ensures i <= k <= j && calls[k].taken && forall m :: i <= m < k ==> !calls[m].taken
    decreases j - i
  {
    if calls[i].taken {
      k := i;
    } else {
      k := FirstTaken(calls, i + 1, j);
    }
  }

  /** It reaches the sink at most once. */
  lemma DeliveredOnce<T>(calls: seq<Call<T>>, i: nat, j: nat, k: nat)
    requires i <= j < k < |calls| && calls[j].taken && Sends(calls, j, i)
    ensures !Sends(calls, k, i)
  {
    assert calls[..k][j].taken;
  }

  /**
   It is lost exactly when its own call and the next 999 all failed and yet another event came; otherwise it was
   delivered or is still held.
   */
  lemma LostIff<T>(calls: seq<Call<T>>, i: nat)
    requires i < |calls|
    ensures !Delivered(calls, i) && !(RingStart(calls) <= i) <==>
            |calls| > i + RING_CAP && forall j :: i <= j < i + RING_CAP ==> !calls[j].taken
  {
    DeliveredIff(calls, i);
    var n := SinceTaken(calls);
    if n > i { assert calls[n - 1].taken; }
  }
}
