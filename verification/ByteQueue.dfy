/** The queue shape used twice in the Holder: whole chunks, an offset into the front one,
    and a running byte count (crates/persist-holder/src/connection.rs, runtime.rs). */
module ByteQueues {
  import opened Bytes

  datatype ByteQueue = ByteQueue(chunks: seq<seq<byte>>, offset: nat, size: nat)

  const EMPTY := ByteQueue([], 0, 0)

  /** The bytes still to be written, in order. */
  function Pending(q: ByteQueue): (s: seq<byte>)
    requires q.offset <= |Concat(q.chunks)|
  {
    Concat(q.chunks)[q.offset..]
  }

  ghost predicate Sound(q: ByteQueue)
  {
    && (if q.chunks == [] then q.offset == 0 else q.offset == 0 || q.offset < |q.chunks[0]|)
    && q.offset <= |Concat(q.chunks)|
    && q.size == |Pending(q)|
  }

  /** No chunk is empty, so a write of the front chunk always has something to offer. */
  ghost predicate Full(q: ByteQueue)
  {
    forall i :: 0 <= i < |q.chunks| ==> q.chunks[i] != []
  }

  function Push(q: ByteQueue, data: seq<byte>): ByteQueue
  {
    q.(chunks := q.chunks + [data], size := q.size + |data|)
  }

  lemma PushAppends(q: ByteQueue, data: seq<byte>)
    requires Sound(q)
    ensures Sound(Push(q, data)) && Pending(Push(q, data)) == Pending(q) + data
  {
    ConcatSnoc(q.chunks, data);
    if q.chunks != [] {
      assert (q.chunks + [data])[0] == q.chunks[0];
    }
  }

  /** One outcome of a write system call; a script of them stands for the kernel. */
  datatype WriteResult = Wrote(count: nat) | WouldBlock | Failed

  /** Why a flush loop stopped. */
  datatype Stop = Emptied | Blocked | Zero | Broken

  datatype Drained = Drained(queue: ByteQueue, written: seq<byte>, stop: Stop)

  /** `count` bytes of the front chunk are gone; a finished chunk is popped. */
  function Advance(q: ByteQueue, count: nat): ByteQueue
    requires q.chunks != [] && q.offset + count <= |q.chunks[0]| && count <= q.size
  {
    if q.offset + count == |q.chunks[0]| then ByteQueue(q.chunks[1..], 0, q.size - count)
    else q.(offset := q.offset + count, size := q.size - count)
  }

  function Front(q: ByteQueue): (s: seq<byte>)
    requires q.chunks != [] && q.offset <= |q.chunks[0]|
  {
    q.chunks[0][q.offset..]
  }

  lemma AdvanceWrites(q: ByteQueue, count: nat)
    requires Sound(q) && q.chunks != [] && 0 < count <= |q.chunks[0]| - q.offset
    ensures count <= q.size
    ensures Sound(Advance(q, count))
    ensures Pending(q) == Front(q)[..count] + Pending(Advance(q, count))
  {
    var rest := Concat(q.chunks[1..]);
    assert Concat(q.chunks) == q.chunks[0] + rest;
    assert Pending(q) == Front(q) + rest;
    var after := Advance(q, count);
    if q.offset + count == |q.chunks[0]| {
      assert Front(q)[..count] == Front(q);
      assert Pending(after) == rest;
    } else {
      assert Front(q) == Front(q)[..count] + q.chunks[0][q.offset + count..];
      assert Pending(after) == q.chunks[0][q.offset + count..] + rest;
    }
  }

  /** What the kernel makes of one write of the front chunk: some bytes taken, or the loop ends.
      A result larger than the buffer cannot happen and is read as "all of it". */
  datatype Attempt = Take(count: nat) | Halt(stop: Stop)

  function Answer(q: ByteQueue, script: seq<WriteResult>, i: nat): (a: Attempt)
    requires q.chunks != [] && q.offset <= |q.chunks[0]|
    ensures a.Take? ==> i < |script| && 0 < a.count <= |Front(q)|
  {
    if i >= |script| || script[i].WouldBlock? then Halt(Blocked)
    else if script[i].Failed? then Halt(Broken)
    else
      var count := Min(script[i].count, |Front(q)|);
      if count == 0 then Halt(Zero) else Take(count)
  }

  /** What a flush loop does against a given kernel. */
  ghost function Drain(q: ByteQueue, script: seq<WriteResult>): Drained
    requires Sound(q)
    ensures Sound(Drain(q, script).queue)
    ensures Pending(q) == Drain(q, script).written + Pending(Drain(q, script).queue)
    decreases |script|
  {
    if q.chunks == [] then Drained(q, [], Emptied)
    else match Answer(q, script, 0)
      case Halt(stop) => Drained(q, [], stop)
      case Take(count) =>
        AdvanceWrites(q, count);
        var rest := Drain(Advance(q, count), script[1..]);
        Associate(Front(q)[..count], rest.written, Pending(rest.queue));
        rest.(written := Front(q)[..count] + rest.written)
  }

  /** A flush loop is through with `script[..i]` and stands at `q`: what lies ahead of it. */
  ghost function Ahead(q: ByteQueue, script: seq<WriteResult>, i: nat): Drained
    requires Sound(q) && i <= |script|
  {
    Drain(q, script[i..])
  }

  lemma AheadStep(q: ByteQueue, script: seq<WriteResult>, i: nat)
    requires Sound(q) && i <= |script| && q.chunks != []
    ensures q.offset <= |q.chunks[0]|
    ensures match Answer(q, script, i)
            case Halt(stop) => Ahead(q, script, i) == Drained(q, [], stop)
            case Take(count) =>
              && q.offset + count <= |q.chunks[0]| && count <= q.size && Sound(Advance(q, count))
              && var rest := Ahead(Advance(q, count), script, i + 1);
                 Ahead(q, script, i) == rest.(written := Front(q)[..count] + rest.written)
  {
    if i < |script| {
      assert script[i..][0] == script[i] && script[i..][1..] == script[i + 1..];
    }
    assert Answer(q, script[i..], 0) == Answer(q, script, i);
    if Answer(q, script, i).Take? {
      AdvanceWrites(q, Answer(q, script, i).count);
    }
  }

  lemma AheadAtStart(q: ByteQueue, script: seq<WriteResult>)
    requires Sound(q)
    ensures Ahead(q, script, 0) == Drain(q, script)
  {
    assert script[0..] == script;
  }

  // ---- How a flush loop ends ------------------------------------------------------------

  lemma {:induction false} DrainStops(q: ByteQueue, script: seq<WriteResult>)
    requires Sound(q)
    ensures Drain(q, script).stop == Emptied <==> Drain(q, script).queue.chunks == []
    decreases |script|
  {
    if q.chunks != [] && Answer(q, script, 0).Take? {
      var count := Answer(q, script, 0).count;
      AdvanceWrites(q, count);
      DrainStops(Advance(q, count), script[1..]);
    }
  }

  /** The `i`th answer is the first that takes nothing. */
  predicate StopsAt(script: seq<WriteResult>, i: nat, last: WriteResult)
  {
    && i < |script| && script[i] == last
    && forall j :: 0 <= j < i ==> script[j].Wrote? && script[j].count > 0
  }

  /** The kernel's answers up to the first failure all took something. */
  predicate FailsAt(script: seq<WriteResult>, i: nat)
  {
    StopsAt(script, i, Failed)
  }

  /** How much of the queue the answers before the `i`th take. */
  ghost function TakenBefore(q: ByteQueue, script: seq<WriteResult>, i: nat): nat
    requires Sound(q) && i <= |script|
  {
    |Drain(q, script[..i]).written|
  }

  /** This answer comes while something is still pending. */
  ghost predicate CutOff(q: ByteQueue, script: seq<WriteResult>, last: WriteResult)
    requires Sound(q)
  {
    exists i: nat :: StopsAt(script, i, last) && TakenBefore(q, script, i) < |Pending(q)|
  }

  /** A write fails outright while something is still pending. */
  ghost predicate BreaksOff(q: ByteQueue, script: seq<WriteResult>)
    requires Sound(q)
  {
    CutOff(q, script, Failed)
  }

  /** A write takes nothing while something is still pending: the other side has closed. */
  ghost predicate HangsUp(q: ByteQueue, script: seq<WriteResult>)
    requires Sound(q)
  {
    CutOff(q, script, Wrote(0))
  }

  lemma CutAfter(q: ByteQueue, script: seq<WriteResult>, i: nat, count: nat)
    requires Sound(q) && q.chunks != [] && q.offset <= |q.chunks[0]|
    requires script != [] && Answer(q, script, 0) == Take(count) && 0 < i <= |script|
    ensures count <= q.size && q.offset + count <= |q.chunks[0]| && Sound(Advance(q, count))
    ensures TakenBefore(q, script, i) == count + TakenBefore(Advance(q, count), script[1..], i - 1)
    ensures |Pending(q)| == count + |Pending(Advance(q, count))|
  {
    AdvanceWrites(q, count);
    assert script[..i][1..] == script[1..][..i - 1];
    assert script[..i][0] == script[0];
    assert Answer(q, script[..i], 0) == Answer(q, script, 0);
    assert |Front(q)[..count]| == count;
    hide Sound, Pending, Advance;
  }

  lemma StopsLater(script: seq<WriteResult>, i: nat, last: WriteResult)
    requires script != [] && script[0].Wrote? && script[0].count > 0 && !TakesSome(last)
    ensures StopsAt(script, i, last) <==> i > 0 && StopsAt(script[1..], i - 1, last)
  {
    var rest := script[1..];
    if i > 0 && StopsAt(rest, i - 1, last) {
      forall j | 0 <= j < i ensures script[j].Wrote? && script[j].count > 0 {
        if j > 0 { assert script[j] == rest[j - 1]; }
      }
    }
  }

  predicate TakesSome(answer: WriteResult)
  {
    answer.Wrote? && answer.count > 0
  }

  lemma CutStep(q: ByteQueue, script: seq<WriteResult>, count: nat, last: WriteResult)
    requires Sound(q) && q.chunks != [] && q.offset <= |q.chunks[0]| && Answer(q, script, 0) == Take(count)
    requires !TakesSome(last)
    ensures count <= q.size && q.offset + count <= |q.chunks[0]| && Sound(Advance(q, count))
    ensures CutOff(q, script, last) <==> CutOff(Advance(q, count), script[1..], last)
  {
    AdvanceWrites(q, count);
    if CutOff(q, script, last) {
      var i: nat :| StopsAt(script, i, last) && TakenBefore(q, script, i) < |Pending(q)|;
      CutAt(q, script, count, i, last);
    }
    hide Sound, Pending, Advance, TakenBefore, StopsAt, Answer, Drain;
    if CutOff(Advance(q, count), script[1..], last) {
      var i: nat :| StopsAt(script[1..], i, last)
                    && TakenBefore(Advance(q, count), script[1..], i) < |Pending(Advance(q, count))|;
      CutAt(q, script, count, i + 1, last);
    }
  }

  lemma CutAt(q: ByteQueue, script: seq<WriteResult>, count: nat, i: nat, last: WriteResult)
    requires Sound(q) && q.chunks != [] && q.offset <= |q.chunks[0]| && Answer(q, script, 0) == Take(count)
    requires !TakesSome(last)
    ensures count <= q.size && q.offset + count <= |q.chunks[0]| && Sound(Advance(q, count))
    ensures (StopsAt(script, i, last) && TakenBefore(q, script, i) < |Pending(q)|)
        <==> (i > 0 && StopsAt(script[1..], i - 1, last)
              && TakenBefore(Advance(q, count), script[1..], i - 1) < |Pending(Advance(q, count))|)
  {
    AdvanceWrites(q, count);
    StopsLater(script, i, last);
    if 0 < i <= |script| { CutAfter(q, script, i, count); }
    hide Sound, Pending, Advance, TakenBefore, Drain;
  }

  /** A flush loop gives up exactly when a write fails outright before everything has been taken, and
      finds the other side gone exactly when a write takes nothing before that. */
  lemma {:induction false} FlushBreaks(q: ByteQueue, script: seq<WriteResult>)
    requires Sound(q) && Full(q)
    ensures Drain(q, script).stop == Broken <==> BreaksOff(q, script)
    ensures Drain(q, script).stop == Zero <==> HangsUp(q, script)
    decreases |script|
  {
    if q.chunks == [] {
      assert Pending(q) == [];
      return;
    }
    hide Sound, Pending, Advance, CutOff, StopsAt;
    FrontFits(q);
    var answer := Answer(q, script, 0);
    if answer.Halt? {
      HaltBreaks(q, script);
      return;
    }
    CutStep(q, script, answer.count, Failed);
    CutStep(q, script, answer.count, Wrote(0));
    assert Full(Advance(q, answer.count)) by { AdvanceStaysFull(q, answer.count); }
    FlushBreaks(Advance(q, answer.count), script[1..]);
    DrainSteps(q, script, answer.count);
  }

  lemma AdvanceStaysFull(q: ByteQueue, count: nat)
    requires Full(q) && q.chunks != [] && q.offset + count <= |q.chunks[0]| && count <= q.size
    ensures Full(Advance(q, count))
  {
  }

  lemma FrontFits(q: ByteQueue)
    requires Sound(q) && q.chunks != []
    ensures q.offset <= |q.chunks[0]|
  {
  }

  lemma SizeIsPending(q: ByteQueue)
    requires Sound(q) && Full(q) && q.chunks != []
    ensures |Pending(q)| == q.size > 0
    ensures q.offset < |q.chunks[0]|
  {
    assert Concat(q.chunks) == q.chunks[0] + Concat(q.chunks[1..]);
    assert q.offset < |q.chunks[0]|;
  }

  lemma DrainShrinks(q: ByteQueue, script: seq<WriteResult>)
    requires Sound(q)
    ensures Drain(q, script).queue.size <= q.size
  {
    hide Drain;
  }

  lemma {:induction false} DrainStaysFull(q: ByteQueue, script: seq<WriteResult>)
    requires Sound(q) && Full(q)
    ensures Full(Drain(q, script).queue)
    decreases |script|
  {
    if q.chunks != [] && Answer(q, script, 0).Take? {
      var count := Answer(q, script, 0).count;
      AdvanceWrites(q, count);
      DrainStaysFull(Advance(q, count), script[1..]);
    }
  }

  lemma DrainSteps(q: ByteQueue, script: seq<WriteResult>, count: nat)
    requires Sound(q) && q.chunks != [] && q.offset <= |q.chunks[0]| && Answer(q, script, 0) == Take(count)
    ensures count <= q.size && q.offset + count <= |q.chunks[0]| && Sound(Advance(q, count))
    ensures Drain(q, script).stop == Drain(Advance(q, count), script[1..]).stop
  {
    AdvanceWrites(q, count);
  }

  lemma HaltBreaks(q: ByteQueue, script: seq<WriteResult>)
    requires Sound(q) && Full(q) && q.chunks != [] && q.offset <= |q.chunks[0]| && Answer(q, script, 0).Halt?
    ensures Drain(q, script).stop == Broken <==> BreaksOff(q, script)
    ensures Drain(q, script).stop == Zero <==> HangsUp(q, script)
  {
    SizeIsPending(q);
    var none: seq<WriteResult> := [];
    assert script[..0] == none;
    assert Drain(q, none).written == [];
    assert TakenBefore(q, script, 0) == 0;
    if script != [] && !TakesSome(script[0]) {
      assert StopsAt(script, 0, script[0]);
    }
    assert forall i: nat, last: WriteResult :: StopsAt(script, i, last) ==> i == 0;
  }

  /** A flush loop comes to an end without anything left exactly if the answers take all there was. */
  lemma EmptiedIsAllTaken(q: ByteQueue, script: seq<WriteResult>)
    requires Sound(q) && Full(q)
    ensures Drain(q, script).stop == Emptied <==> TakenBefore(q, script, |script|) == |Pending(q)|
    ensures Drain(q, script).queue.chunks == [] <==> TakenBefore(q, script, |script|) == |Pending(q)|
  {
    assert script[..|script|] == script;
    DrainStops(q, script);
    DrainStaysFull(q, script);
    var rest := Drain(q, script).queue;
    hide Drain, Full;
    if rest.chunks != [] {
      SizeIsPending(rest);
    } else {
      assert Pending(rest) == [];
    }
  }

  /** What has been taken is the beginning of what was pending, and what is left the rest. */
  lemma TakenAndLeft(q: ByteQueue, script: seq<WriteResult>)
    requires Sound(q)
    ensures var taken := TakenBefore(q, script, |script|);
            var d := Drain(q, script);
            && taken <= |Pending(q)| && d.written == Pending(q)[..taken] && Pending(d.queue) == Pending(q)[taken..]
  {
    assert script[..|script|] == script;
    hide Drain, Sound, Pending;
  }

  /** An answer that says it took something has taken at least a byte, as long as there was one: so
      many such answers take at least so many bytes, or everything. */
  lemma {:induction false} TakingGoesOn(q: ByteQueue, script: seq<WriteResult>, i: nat)
    requires Sound(q) && Full(q) && i <= |script| && forall j :: 0 <= j < i ==> TakesSome(script[j])
    ensures TakenBefore(q, script, i) >= Min(i, |Pending(q)|)
    decreases i
  {
    if q.chunks == [] {
      assert Pending(q) == [];
    } else if i > 0 {
      SizeIsPending(q);
      var count := Answer(q, script, 0).count;
      CutAfter(q, script, i, count);
      AdvanceStaysFull(q, count);
      var rest := script[1..];
      assert forall j :: 0 <= j < i - 1 ==> rest[j] == script[j + 1];
      hide Sound, Full, Pending, Advance, TakenBefore;
      TakingGoesOn(Advance(q, count), rest, i - 1);
    }
  }

  /** What is left when `i` answers have been dealt with. */
  ghost function LeftAfter(q: ByteQueue, script: seq<WriteResult>, i: nat): ByteQueue
    requires Sound(q) && i <= |script|
  {
    Drain(q, script[..i]).queue
  }

  lemma LeftAfterFirst(q: ByteQueue, script: seq<WriteResult>, i: nat, count: nat)
    requires Sound(q) && q.chunks != [] && q.offset <= |q.chunks[0]|
    requires script != [] && Answer(q, script, 0) == Take(count) && 0 < i <= |script|
    ensures count <= q.size && q.offset + count <= |q.chunks[0]| && Sound(Advance(q, count))
    ensures LeftAfter(q, script, i) == LeftAfter(Advance(q, count), script[1..], i - 1)
  {
    AdvanceWrites(q, count);
    assert script[..i][1..] == script[1..][..i - 1];
    assert script[..i][0] == script[0];
    assert Answer(q, script[..i], 0) == Answer(q, script, 0);
    hide Sound, Advance;
  }

  /** Each answer that takes something takes just what it says, as far as the front chunk goes. */
  lemma {:induction false} EachAnswerCounts(q: ByteQueue, script: seq<WriteResult>, i: nat)
    requires Sound(q) && Full(q) && i < |script| && TakesSome(script[i])
    requires forall j :: 0 <= j < i ==> TakesSome(script[j])
    ensures var left := LeftAfter(q, script, i);
            left.chunks != [] ==>
              && left.offset <= |left.chunks[0]|
              && TakenBefore(q, script, i + 1)
                 == TakenBefore(q, script, i) + Min(script[i].count, |left.chunks[0]| - left.offset)
    decreases i
  {
    hide Sound, Full, Pending, Advance, TakenBefore, LeftAfter, Drain, Front;
    if i == 0 {
      FirstAnswerCounts(q, script);
    } else if q.chunks == [] {
      NothingLeft(q, script, i);
    } else {
      SizeIsPending(q);
      var count := Min(script[0].count, |q.chunks[0]| - q.offset);
      FirstTakes(q, script);
      CutAfter(q, script, i + 1, count);
      CutAfter(q, script, i, count);
      LeftAfterFirst(q, script, i, count);
      AdvanceStaysFull(q, count);
      var rest := script[1..];
      assert rest[i - 1] == script[i] && forall j :: 0 <= j < i - 1 ==> rest[j] == script[j + 1];
      EachAnswerCounts(Advance(q, count), rest, i - 1);
    }
  }

  lemma NothingLeft(q: ByteQueue, script: seq<WriteResult>, i: nat)
    requires Sound(q) && q.chunks == [] && i <= |script|
    ensures LeftAfter(q, script, i).chunks == []
  {
  }

  lemma FirstTakes(q: ByteQueue, script: seq<WriteResult>)
    requires q.chunks != [] && q.offset < |q.chunks[0]| && script != [] && TakesSome(script[0])
    ensures Answer(q, script, 0) == Take(Min(script[0].count, |q.chunks[0]| - q.offset))
  {
  }

  lemma FirstAnswerCounts(q: ByteQueue, script: seq<WriteResult>)
    requires Sound(q) && Full(q) && script != [] && TakesSome(script[0])
    ensures LeftAfter(q, script, 0) == q && TakenBefore(q, script, 0) == 0
    ensures q.chunks != [] ==>
              && q.offset <= |q.chunks[0]|
              && TakenBefore(q, script, 1) == Min(script[0].count, |q.chunks[0]| - q.offset)
  {
    assert script[..0] == [];
    if q.chunks != [] {
      SizeIsPending(q);
      FirstTakes(q, script);
      var count := Min(script[0].count, |q.chunks[0]| - q.offset);
      CutAfter(q, script, 1, count);
      hide Sound, Full, Pending;
      assert script[1..][..0] == [];
      assert TakenBefore(Advance(q, count), script[1..], 0) == 0;
    }
  }

  /** The bytes the first `i` answers say they took. */
  function Reported(script: seq<WriteResult>, i: nat): nat
    requires i <= |script|
  {
    if i == 0 then 0 else Reported(script, i - 1) + if script[i - 1].Wrote? then script[i - 1].count else 0
  }

  lemma {:induction false} ReportedFirst(script: seq<WriteResult>, i: nat)
    requires 0 < i <= |script|
    ensures Reported(script, i) == (if script[0].Wrote? then script[0].count else 0) + Reported(script[1..], i - 1)
  {
    if i > 1 { ReportedFirst(script, i - 1); }
  }

  /** No write takes more than it says. */
  lemma {:induction false} TakenIsReported(q: ByteQueue, script: seq<WriteResult>, i: nat)
    requires Sound(q) && i <= |script|
    ensures TakenBefore(q, script, i) <= Reported(script, i)
    decreases i
  {
    if i > 0 && q.chunks != [] && Answer(q, script[..i], 0).Take? {
      var count := Answer(q, script[..i], 0).count;
      assert script[..i][0] == script[0];
      assert Answer(q, script, 0) == Take(count);
      CutAfter(q, script, i, count);
      ReportedFirst(script, i);
      TakenIsReported(Advance(q, count), script[1..], i - 1);
    }
  }

  lemma OneFailure(script: seq<WriteResult>, i: nat, j: nat)
    requires FailsAt(script, i) && FailsAt(script, j)
    ensures i == j
  {
  }

  /** In terms of the answers alone, when every write takes what it says: the loop gives up exactly
      if the writes before the first failure add up to less than was pending. */
  lemma BreaksByCount(q: ByteQueue, script: seq<WriteResult>, i: nat)
    requires Sound(q) && Full(q) && FailsAt(script, i) && TakenBefore(q, script, i) == Reported(script, i)
    ensures Drain(q, script).stop == Broken <==> Reported(script, i) < |Pending(q)|
  {
    hide Sound, Full, Pending, Drain, TakenBefore, StopsAt;
    FlushBreaks(q, script);
    forall j: nat | StopsAt(script, j, Failed) ensures j == i { OneFailure(script, i, j); }
  }
}
