/**
 The agent's durable FIFO (internal/agent/outbox.go). Rows stand in insertion (AUTOINCREMENT) order; a
 transaction's effects become visible only at its commit, which may fail.
 */
module Outboxes {
  import opened Ingest

  const DEFAULT_MAX_BYTES: nat := 67108864

  datatype Row = Row(envelope: Envelope, bytes: nat)

  datatype Queue = Queue(rows: seq<Row>, lastSequence: nat)

  datatype Error =
    | Empty | Full | DuplicateBatch | EnvelopeTooLarge | InvalidEnvelope
    | InvalidAcknowledgement | SequenceExhausted | StorageFailure

  const NEW_QUEUE := Queue([], 0)

  function TotalBytes(rows: seq<Row>): nat {
    if rows == [] then 0 else TotalBytes(rows[..|rows| - 1]) + rows[|rows| - 1].bytes
  }

  lemma {:induction false} TotalBytesSplit(a: seq<Row>, b: seq<Row>)
    ensures TotalBytes(a + b) == TotalBytes(a) + TotalBytes(b)
  {
    if b == [] {
      assert a + b == a;
    } else {
      assert (a + b)[..|a + b| - 1] == a + b[..|b| - 1];
      TotalBytesSplit(a, b[..|b| - 1]);
    }
  }

  lemma TotalBytesSnoc(a: seq<Row>, r: Row)
    ensures TotalBytes(a + [r]) == TotalBytes(a) + r.bytes
  {
    assert (a + [r])[..|a|] == a;
  }

  // ---------------------------------------------------------------- specification

  function Numbered(envs: seq<Envelope>, last: nat): (numbered: seq<Envelope>)
    ensures |numbered| == |envs|
    ensures forall i :: 0 <= i < |envs| ==> numbered[i] == envs[i].(sequence := last + 1 + i)
  {
    seq(|envs|, i requires 0 <= i < |envs| => envs[i].(sequence := last + 1 + i))
  }

  function Encoded(encode: Envelope -> nat, envs: seq<Envelope>): (rows: seq<Row>)
    ensures |rows| == |envs|
    ensures forall i :: 0 <= i < |envs| ==> rows[i] == Row(envs[i], encode(envs[i]))
  {
    seq(|envs|, i requires 0 <= i < |envs| => Row(envs[i], encode(envs[i])))
  }

  /** encodeOutboxEnvelope's verdict. */
  function EncodeError(encode: Envelope -> nat, env: Envelope): Option<Error> {
    if !WellFormed(env) then Some(InvalidEnvelope)
    else if encode(env) > MAX_ENVELOPE_BYTES then Some(EnvelopeTooLarge)
    else None
  }

  /** The verdict of each iteration of the numbering loop. */
  function Verdicts(encode: Envelope -> nat, envs: seq<Envelope>, last: nat): (verdicts: seq<Option<Error>>)
    ensures |verdicts| == |envs|
    ensures forall i :: 0 <= i < |envs| ==>
      verdicts[i] == if last + i == MAX_UINT64 then Some(SequenceExhausted)
                     else EncodeError(encode, Numbered(envs, last)[i])
  {
    seq(|envs|, i requires 0 <= i < |envs| =>
      if last + i == MAX_UINT64 then Some(SequenceExhausted) else EncodeError(encode, Numbered(envs, last)[i]))
  }

  function FirstSome(verdicts: seq<Option<Error>>): Option<Error> {
    if verdicts == [] then None else if verdicts[0].Some? then verdicts[0] else FirstSome(verdicts[1..])
  }

  /** The UNIQUE constraint on batch_id. */
  predicate UniqueBatches(rows: seq<Row>) {
    forall i, j :: 0 <= i < j < |rows| ==> rows[i].envelope.batchID != rows[j].envelope.batchID
  }

  /** What becomes of `count` encoded rows, once none of them was bad. */
  function Admitted(q: Queue, maxBytes: nat, rows: seq<Row>, count: nat): Result<Queue, Error> {
    if TotalBytes(rows) > maxBytes - TotalBytes(q.rows) then Err(Full)
    else if !UniqueBatches(q.rows + rows) then Err(DuplicateBatch)
    else Ok(Queue(q.rows + rows, q.lastSequence + count))
  }

  function Enqueue(q: Queue, maxBytes: nat, encode: Envelope -> nat, envs: seq<Envelope>): Result<Queue, Error> {
    if envs == [] then Ok(q)
    else
      var bad := FirstSome(Verdicts(encode, envs, q.lastSequence));
      if bad.Some? then Err(bad.value)
      else Admitted(q, maxBytes, Encoded(encode, Numbered(envs, q.lastSequence)), |envs|)
  }

  predicate Acknowledges(ack: Ack, env: Envelope) {
    && ack.protocolVersion == env.protocolVersion
    && ack.deviceID == env.deviceID
    && ack.batchID == env.batchID
    && ack.ackSequence == env.sequence
  }

  function Acknowledge(q: Queue, ack: Ack): Result<Queue, Error> {
    if q.rows == [] then Err(Empty)
    else if !Acknowledges(ack, q.rows[0].envelope) then Err(InvalidAcknowledgement)
    else Ok(q.(rows := q.rows[1..]))
  }

  // ---------------------------------------------------------------- what every queue satisfies

  /** The number of batches acknowledged so far. */
  function Released(q: Queue): int {
    q.lastSequence - |q.rows|
  }

  predicate Consecutive(q: Queue) {
    && |q.rows| <= q.lastSequence <= MAX_UINT64
    && forall i :: 0 <= i < |q.rows| ==> q.rows[i].envelope.sequence == Released(q) + 1 + i
  }

  predicate RowOk(encode: Envelope -> nat, r: Row) {
    WellFormed(r.envelope) && r.bytes == encode(r.envelope) <= MAX_ENVELOPE_BYTES
  }

  predicate Valid(q: Queue, maxBytes: nat, encode: Envelope -> nat) {
    && Consecutive(q)
    && TotalBytes(q.rows) <= maxBytes
    && UniqueBatches(q.rows)
    && forall r :: r in q.rows ==> RowOk(encode, r)
  }

  lemma OneMoreRow(rows: seq<Row>, i: nat)
    requires i < |rows|
    ensures rows[..i] + [rows[i]] == rows[..i + 1] && TotalBytes(rows[..i + 1]) == TotalBytes(rows[..i]) + rows[i].bytes
  {
    assert rows[..i] + [rows[i]] == rows[..i + 1];
    TotalBytesSnoc(rows[..i], rows[i]);
  }

  predicate NoneYet(verdicts: seq<Option<Error>>, n: nat) {
    n <= |verdicts| && forall i :: 0 <= i < n ==> verdicts[i].None?
  }

  lemma {:induction false} FirstSomeAt(verdicts: seq<Option<Error>>, n: nat)
    requires NoneYet(verdicts, n)
    ensures n < |verdicts| && verdicts[n].Some? ==> FirstSome(verdicts) == verdicts[n]
    ensures n == |verdicts| ==> FirstSome(verdicts).None?
  {
    if n > 0 {
      FirstSomeAt(verdicts[1..], n - 1);
    }
  }

  lemma {:induction false} FirstSomeNone(verdicts: seq<Option<Error>>)
    ensures FirstSome(verdicts).None? <==> forall i :: 0 <= i < |verdicts| ==> verdicts[i].None?
  {
    if verdicts != [] {
      FirstSomeNone(verdicts[1..]);
      assert FirstSome(verdicts).None? <==> verdicts[0].None? && forall i :: 0 <= i < |verdicts[1..]| ==> verdicts[1..][i].None?;
      assert forall i :: 0 < i < |verdicts| ==> verdicts[i] == verdicts[1..][i - 1];
    }
  }

  lemma NoErrorIff(encode: Envelope -> nat, envs: seq<Envelope>, last: nat)
    requires last <= MAX_UINT64
    ensures FirstSome(Verdicts(encode, envs, last)).None? <==>
            && last + |envs| <= MAX_UINT64
            && forall i :: 0 <= i < |envs| ==> EncodeError(encode, Numbered(envs, last)[i]).None?
  {
    var verdicts := Verdicts(encode, envs, last);
    FirstSomeNone(verdicts);
    if last + |envs| > MAX_UINT64 {
      assert verdicts[MAX_UINT64 - last].Some?;
    }
  }

  /** A logical delivery is accepted exactly when every chunk is valid and small enough and there is room for all. */
  lemma EnqueueAcceptsIff(q: Queue, maxBytes: nat, encode: Envelope -> nat, envs: seq<Envelope>)
    requires Valid(q, maxBytes, encode) && envs != []
    ensures var numbered := Numbered(envs, q.lastSequence);
            Enqueue(q, maxBytes, encode, envs).Ok? <==>
              && q.lastSequence + |envs| <= MAX_UINT64
              && (forall i :: 0 <= i < |envs| ==> WellFormed(numbered[i]) && encode(numbered[i]) <= MAX_ENVELOPE_BYTES)
              && TotalBytes(q.rows) + TotalBytes(Encoded(encode, numbered)) <= maxBytes
              && UniqueBatches(q.rows + Encoded(encode, numbered))
  {
    var numbered := Numbered(envs, q.lastSequence);
    NoErrorIff(encode, envs, q.lastSequence);
  }

  lemma NumberedConsecutive(q: Queue, encode: Envelope -> nat, envs: seq<Envelope>)
    requires Consecutive(q) && q.lastSequence + |envs| <= MAX_UINT64
    ensures Consecutive(Queue(q.rows + Encoded(encode, Numbered(envs, q.lastSequence)), q.lastSequence + |envs|))
  {
    var rows := Encoded(encode, Numbered(envs, q.lastSequence));
    forall i | 0 <= i < |q.rows + rows|
      ensures (q.rows + rows)[i].envelope.sequence == Released(q) + 1 + i
    {
      if i >= |q.rows| {
        assert (q.rows + rows)[i] == rows[i - |q.rows|];
      }
    }
  }

  lemma NumberedOk(encode: Envelope -> nat, envs: seq<Envelope>, last: nat)
    requires forall i :: 0 <= i < |envs| ==> EncodeError(encode, Numbered(envs, last)[i]).None?
    ensures forall r :: r in Encoded(encode, Numbered(envs, last)) ==> RowOk(encode, r)
  {
    var rows := Encoded(encode, Numbered(envs, last));
    forall r | r in rows
      ensures RowOk(encode, r)
    {
      var i :| 0 <= i < |rows| && rows[i] == r;
      assert EncodeError(encode, Numbered(envs, last)[i]).None?;
    }
  }

  lemma JoinedRowsOk(encode: Envelope -> nat, a: seq<Row>, b: seq<Row>)
    requires (forall r :: r in a ==> RowOk(encode, r)) && (forall r :: r in b ==> RowOk(encode, r))
    ensures forall r :: r in a + b ==> RowOk(encode, r)
  {
    assert forall r :: r in a + b <==> r in a || r in b;
  }

  /** What is accepted was numbered without error and admitted. */
  lemma EnqueuedRows(q: Queue, maxBytes: nat, encode: Envelope -> nat, envs: seq<Envelope>)
    requires q.lastSequence <= MAX_UINT64 && envs != [] && Enqueue(q, maxBytes, encode, envs).Ok?
    ensures var rows := Encoded(encode, Numbered(envs, q.lastSequence));
            && Enqueue(q, maxBytes, encode, envs).value == Queue(q.rows + rows, q.lastSequence + |envs|)
            && TotalBytes(q.rows) + TotalBytes(rows) <= maxBytes && UniqueBatches(q.rows + rows)
            && q.lastSequence + |envs| <= MAX_UINT64
            && forall r :: r in rows ==> RowOk(encode, r)
  {
    NoErrorIff(encode, envs, q.lastSequence);
    NumberedOk(encode, envs, q.lastSequence);
  }

  /** Enqueueing is all or nothing: consecutive sequences after the last one, within capacity. */
  lemma EnqueueKeepsValid(q: Queue, maxBytes: nat, encode: Envelope -> nat, envs: seq<Envelope>)
    requires Valid(q, maxBytes, encode) && Enqueue(q, maxBytes, encode, envs).Ok?
    ensures var q' := Enqueue(q, maxBytes, encode, envs).value;
            && Valid(q', maxBytes, encode)
            && q'.rows == q.rows + Encoded(encode, Numbered(envs, q.lastSequence))
            && Released(q') == Released(q)
  {
    var rows := Encoded(encode, Numbered(envs, q.lastSequence));
    if envs != [] {
      EnqueuedRows(q, maxBytes, encode, envs);
      NumberedConsecutive(q, encode, envs);
      TotalBytesSplit(q.rows, rows);
      JoinedRowsOk(encode, q.rows, rows);
    }
  }

  /** The head is released exactly by an acknowledgement of its version, device, batch and sequence; nothing else changes. */
  lemma AcknowledgeIff(q: Queue, ack: Ack)
    ensures q.rows == [] ==> Acknowledge(q, ack).Err?
    ensures q.rows != [] ==>
      var head := q.rows[0].envelope;
      if ack.protocolVersion == head.protocolVersion && ack.deviceID == head.deviceID && ack.batchID == head.batchID
         && ack.ackSequence == head.sequence
      then Acknowledge(q, ack) == Ok(Queue(q.rows[1..], q.lastSequence))
      else Acknowledge(q, ack).Err?
  {
  }

  lemma AcknowledgeKeepsValid(q: Queue, maxBytes: nat, encode: Envelope -> nat, ack: Ack)
    requires Valid(q, maxBytes, encode) && Acknowledge(q, ack).Ok?
    ensures var q' := Acknowledge(q, ack).value;
            && Valid(q', maxBytes, encode)
            && q.rows == [q.rows[0]] + q'.rows
            && Released(q') == Released(q) + 1 == q.rows[0].envelope.sequence
            && Acknowledges(ack, q.rows[0].envelope)
  {
    assert q.rows == [q.rows[0]] + q.rows[1..];
    TotalBytesSplit([q.rows[0]], q.rows[1..]);
  }

  // ---------------------------------------------------------------- implementation

  class Outbox {
    const maxBytes: nat
    const encode: Envelope -> nat
    var rows: seq<Row>
    var lastSequence: nat

    function Contents(): Queue
      reads this
    {
      Queue(rows, lastSequence)
    }

    predicate Ready()
      reads this
    {
      Valid(Contents(), maxBytes, encode)
    }

    constructor Open(maxBytes: int, encode: Envelope -> nat)
      ensures Ready() && Contents() == NEW_QUEUE && this.encode == encode
      ensures this.maxBytes == if maxBytes <= 0 then DEFAULT_MAX_BYTES else maxBytes
    {
      this.maxBytes := if maxBytes <= 0 then DEFAULT_MAX_BYTES else maxBytes;
      this.encode := encode;
      rows, lastSequence := [], 0;
    }

    method EncodeOutboxEnvelope(env: Envelope) returns (r: Result<nat, Error>)
      ensures r == match EncodeError(encode, env) case Some(e) => Err(e) case None => Ok(encode(env))
    {
      var rejected := ValidateIngestEnvelope(env);
      AcceptedIffWellFormed(env);
      if rejected != [] {
        return Err(InvalidEnvelope);
      }
      var bytes := encode(env);
      if bytes > MAX_ENVELOPE_BYTES {
        return Err(EnvelopeTooLarge);
      }
      return Ok(bytes);
    }

    /** One envelope of the numbering loop: the sequence it gets and its encoded size, or its error. */
    method NumberOne(envs: seq<Envelope>, i: nat) returns (r: Result<Row, Error>)
      requires i < |envs|
      ensures var verdict := Verdicts(encode, envs, lastSequence)[i];
              r == if verdict.Some? then Err(verdict.value) else Ok(Encoded(encode, Numbered(envs, lastSequence))[i])
    {
      var current := lastSequence + i;
      if current == MAX_UINT64 {
        return Err(SequenceExhausted);
      }
      var env := envs[i].(sequence := current + 1);
      var payload := EncodeOutboxEnvelope(env);
      if payload.Err? {
        return Err(payload.error);
      }
      return Ok(Row(env, payload.value));
    }

    /** The numbering loop: consecutive sequences and encoded sizes, or the first error. */
    method NumberAll(envs: seq<Envelope>) returns (error: Option<Error>, numbered: seq<Row>, addedBytes: nat)
      ensures error == FirstSome(Verdicts(encode, envs, lastSequence))
      ensures error.None? ==>
        numbered == Encoded(encode, Numbered(envs, lastSequence)) && addedBytes == TotalBytes(numbered)
    {
      numbered, addedBytes := [], 0;
      ghost var verdicts := Verdicts(encode, envs, lastSequence);
      ghost var all := Encoded(encode, Numbered(envs, lastSequence));
      for i := 0 to |envs|
        invariant NoneYet(verdicts, i)
        invariant numbered == all[..i] && addedBytes == TotalBytes(numbered)
      {
        var one := NumberOne(envs, i);
        if one.Err? {
          FirstSomeAt(verdicts, i);
          return Some(one.error), [], 0;
        }
        OneMoreRow(all, i);
        numbered := numbered + [one.value];
        addedBytes := addedBytes + one.value.bytes;
      }
      FirstSomeAt(verdicts, |envs|);
      assert all[..|envs|] == all;
      return None, numbered, addedBytes;
    }

    /** Inserting stops at the first batch id already present; the caller then rolls back. */
    method InsertAll(numbered: seq<Row>) returns (inserted: Option<seq<Row>>)
      requires UniqueBatches(rows)
      ensures inserted == if UniqueBatches(rows + numbered) then Some(rows + numbered) else None
    {
      var table := rows;
      for i := 0 to |numbered|
        invariant table == rows + numbered[..i] && UniqueBatches(table)
      {
        if exists r :: r in table && r.envelope.batchID == numbered[i].envelope.batchID {
          var r :| r in table && r.envelope.batchID == numbered[i].envelope.batchID;
          ghost var k :| 0 <= k < |table| && table[k] == r;
          assert (rows + numbered)[k] == r && (rows + numbered)[|rows| + i] == numbered[i];
          return None;
        }
        table := table + [numbered[i]];
      }
      assert numbered[..|numbered|] == numbered;
      return Some(table);
    }

    method Insert(numbered: seq<Row>, addedBytes: nat, count: nat) returns (r: Result<Queue, Error>)
      requires UniqueBatches(rows) && addedBytes == TotalBytes(numbered)
      ensures r == Admitted(Contents(), maxBytes, numbered, count)
    {
      var queued := QueuedBytes();
      if addedBytes > maxBytes - queued {
        return Err(Full);
      }
      var inserted := InsertAll(numbered);
      if inserted.None? {
        return Err(DuplicateBatch);
      }
      return Ok(Queue(inserted.value, lastSequence + count));
    }

    /** The transaction's statements, in order, on a non-empty call; nothing is committed yet. */
    method Admit(envs: seq<Envelope>) returns (r: Result<Queue, Error>)
      requires UniqueBatches(rows) && envs != []
      ensures r == Enqueue(Contents(), maxBytes, encode, envs)
    {
      var error, numbered, addedBytes := NumberAll(envs);
      if error.Some? {
        return Err(error.value);
      }
      r := Insert(numbered, addedBytes, |envs|);
    }

    /** EnqueueManyNext. `commits` is false when the storage fails at any statement of the transaction. */
    method EnqueueManyNext(envs: seq<Envelope>, commits: bool) returns (r: Result<seq<Envelope>, Error>)
      requires Ready()
      modifies this
      ensures Ready()
      ensures r.Err? ==> Contents() == old(Contents())
      ensures r.Ok? ==> Enqueue(old(Contents()), maxBytes, encode, envs) == Ok(Contents())
      ensures r.Ok? ==> r.value == Numbered(envs, old(lastSequence))
      ensures commits ==> match Enqueue(old(Contents()), maxBytes, encode, envs)
                          case Ok(_) => r.Ok?
                          case Err(e) => r == Err(e)
    {
      if envs == [] {
        return Ok([]);
      }
      if !commits {
        return Err(StorageFailure);
      }
      var admitted := Admit(envs);
      if admitted.Err? {
        return Err(admitted.error);
      }
      EnqueueKeepsValid(Contents(), maxBytes, encode, envs);
      r := Ok(Numbered(envs, lastSequence));
      rows, lastSequence := admitted.value.rows, admitted.value.lastSequence;
    }

    method QueuedBytes() returns (total: nat)
      ensures total == TotalBytes(rows)
    {
      total := 0;
      for i := 0 to |rows|
        invariant total == TotalBytes(rows[..i])
      {
        assert rows[..i + 1][..i] == rows[..i];
        total := total + rows[i].bytes;
      }
      assert rows[..|rows|] == rows;
    }

    method PeekBatch() returns (r: Result<Envelope, Error>)
      ensures r == if rows == [] then Err(Empty) else Ok(rows[0].envelope)
    {
      if rows == [] {
        return Err(Empty);
      }
      return Ok(rows[0].envelope);
    }

    /** Acknowledge: only the exact identity of the oldest batch deletes it. */
    method AcknowledgeOldest(ack: Ack, commits: bool) returns (r: Result<(), Error>)
      requires Ready()
      modifies this
      ensures Ready()
      ensures r.Err? ==> Contents() == old(Contents())
      ensures r.Ok? ==> Acknowledge(old(Contents()), ack) == Ok(Contents())
      ensures commits ==> match Acknowledge(old(Contents()), ack)
                          case Ok(_) => r.Ok?
                          case Err(e) => r == Err(e)
      ensures !commits ==> r == Err(StorageFailure)
    {
      if !commits {
        return Err(StorageFailure);
      }
      if rows == [] {
        return Err(Empty);
      }
      var env := rows[0].envelope;
      if ack.protocolVersion != env.protocolVersion || ack.deviceID != env.deviceID
         || ack.batchID != env.batchID || ack.ackSequence != env.sequence {
        return Err(InvalidAcknowledgement);
      }
      AcknowledgeKeepsValid(Contents(), maxBytes, encode, ack);
      rows := rows[1..];
      return Ok(());
    }
  }
}
