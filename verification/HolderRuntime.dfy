/** The Holder's session table (crates/persist-holder/src/runtime.rs). */
module HolderRuntimes {
  import opened Bytes
  import opened ByteQueues
  import opened HolderFrames

  datatype LogState = Healthy | Degraded | Disabled

  /** A session's fields, then its history: every input byte accepted, every byte its
      terminal took, and whether a terminal write ever failed outright. */
  datatype Session = Session(
    pty: Option<Fd>,
    ring: seq<byte>,
    ringCapacity: nat,
    logged: bool,
    logState: LogState,
    exitCode: Option<int>,
    context: ExitContext,
    input: ByteQueue,
    closing: bool,
    accepted: seq<byte>,
    delivered: seq<byte>,
    stuck: bool)

  /** `bumps` counts the generation changes. */
  datatype RuntimeState = RuntimeState(
    sessions: map<SessionId, Session>,
    ptys: map<Fd, SessionId>,
    generation: nat,
    bumps: nat)

  const NO_SESSIONS := RuntimeState(map[], map[], 0, 0)

  // ---- What is kept --------------------------------------------------------

  /** The terminal has taken a prefix of the accepted input, the queue holds exactly the rest,
      and a session has an exit code precisely when its terminal is gone. */
  ghost predicate SessionSound(s: Session)
  {
    && s.ringCapacity > 0
    && |s.ring| <= s.ringCapacity
    && Sound(s.input) && Full(s.input)
    && s.input.size <= MAX_PENDING_INPUT
    && s.accepted == s.delivered + Pending(s.input)
    && (s.exitCode.Some? <==> s.pty.None?)
  }

  /** The terminal table and the sessions holding a terminal are in bijection. */
  ghost predicate RuntimeSound(r: RuntimeState)
  {
    && (forall id :: id in r.sessions ==> SessionSound(r.sessions[id]))
    && (forall id :: id in r.sessions && r.sessions[id].pty.Some? ==>
          r.sessions[id].pty.value in r.ptys && r.ptys[r.sessions[id].pty.value] == id)
    && (forall fd :: fd in r.ptys ==>
          r.ptys[fd] in r.sessions && r.sessions[r.ptys[fd]].pty == Some(fd))
    && (r.bumps < U64 ==> r.generation == r.bumps)
  }

  /** What an inventory reports about a session, apart from timestamps. */
  datatype Entry = Entry(exitCode: Option<int>, logState: LogState)

  function Inventory(r: RuntimeState): map<SessionId, Entry>
  {
    map id | id in r.sessions :: Entry(r.sessions[id].exitCode, r.sessions[id].logState)
  }

  /** Generations only move forward, and the inventory cannot change without one moving. */
  ghost predicate Tracks(before: RuntimeState, after: RuntimeState)
  {
    && before.bumps <= after.bumps
    && (before.bumps == after.bumps ==> Inventory(before) == Inventory(after))
  }

  function NextGeneration(g: nat): nat
  {
    Max((g + 1) % U64, 1)
  }

  function Bump(r: RuntimeState): RuntimeState
  {
    r.(generation := NextGeneration(r.generation), bumps := r.bumps + 1)
  }

  predicate IsRunning(r: RuntimeState, id: SessionId)
  {
    id in r.sessions && r.sessions[id].exitCode.None?
  }

  lemma PutKeeps(r: RuntimeState, id: SessionId, s: Session)
    requires RuntimeSound(r) && id in r.sessions && SessionSound(s) && s.pty == r.sessions[id].pty
    ensures RuntimeSound(r.(sessions := r.sessions[id := s]))
    ensures s.exitCode == r.sessions[id].exitCode && s.logState == r.sessions[id].logState
            ==> Tracks(r, r.(sessions := r.sessions[id := s]))
  {
    var r' := r.(sessions := r.sessions[id := s]);
    assert RuntimeSound(r') by { hide SessionSound; }
    hide RuntimeSound, SessionSound;
    if s.exitCode == r.sessions[id].exitCode && s.logState == r.sessions[id].logState {
      assert Inventory(r') == Inventory(r);
    }
  }

  lemma BumpKeeps(r: RuntimeState)
    requires RuntimeSound(r)
    ensures RuntimeSound(Bump(r))
  {
  }

  lemma BumpTracks(r: RuntimeState, r1: RuntimeState)
    requires r1.bumps == r.bumps
    ensures Tracks(r, Bump(r1))
  {
    hide Inventory;
  }

  // ---- Creation --------------------------------------------------------------

  function FreshSession(fd: Fd, ringCapacity: nat, logged: bool): Session
  {
    Session(Some(fd), [], ringCapacity, logged, if logged then Healthy else Disabled, None,
            ExitContext(None, None), EMPTY, false, [], [], false)
  }

  function Created(r: RuntimeState, id: SessionId, fd: Fd, ringCapacity: nat, logged: bool): RuntimeState
  {
    Bump(r.(sessions := r.sessions[id := FreshSession(fd, ringCapacity, logged)], ptys := r.ptys[fd := id]))
  }

  lemma CreatedKeeps(r: RuntimeState, id: SessionId, fd: Fd, ringCapacity: nat, logged: bool)
    requires RuntimeSound(r) && id !in r.sessions && fd !in r.ptys && ringCapacity > 0
    ensures RuntimeSound(Created(r, id, fd, ringCapacity, logged))
    ensures Tracks(r, Created(r, id, fd, ringCapacity, logged))
  {
    hide RuntimeSound, SessionSound, FreshSession;
    var s := FreshSession(fd, ringCapacity, logged);
    FreshIsSound(fd, ringCapacity, logged);
    InsertKeeps(r, id, fd, s);
    var r1 := r.(sessions := r.sessions[id := s], ptys := r.ptys[fd := id]);
    BumpKeeps(r1);
    BumpTracks(r, r1);
  }

  lemma FreshIsSound(fd: Fd, ringCapacity: nat, logged: bool)
    requires ringCapacity > 0
    ensures SessionSound(FreshSession(fd, ringCapacity, logged))
            && FreshSession(fd, ringCapacity, logged).pty == Some(fd)
  {
    assert Concat<byte>([]) == [];
  }

  lemma InsertKeeps(r: RuntimeState, id: SessionId, fd: Fd, s: Session)
    requires RuntimeSound(r) && id !in r.sessions && fd !in r.ptys && SessionSound(s) && s.pty == Some(fd)
    ensures RuntimeSound(r.(sessions := r.sessions[id := s], ptys := r.ptys[fd := id]))
  {
    hide SessionSound;
  }

  // ---- Output ------------------------------------------------------------------

  /** One read from the terminal; an empty read ends the loop. `logAccepted` is the log
      worker's answer to the chunk. */
  datatype ReadResult = Data(bytes: seq<byte>, logAccepted: bool) | EndOfTerminal | ReadFailed

  datatype DrainedOutput = DrainedOutput(session: Session, chunks: seq<seq<byte>>, dropped: nat, ok: bool)

  function Absorb(s: Session, bytes: seq<byte>): Session
  {
    s.(ring := LastN(s.ring + bytes, s.ringCapacity))
  }

  function DrainSession(s: Session, feed: seq<ReadResult>): (d: DrainedOutput)
    requires s.pty.Some?
    ensures d.session == s.(ring := d.session.ring)
    decreases |feed|
  {
    if feed == [] || feed[0].EndOfTerminal? then DrainedOutput(s, [], 0, true)
    else if feed[0].ReadFailed? then DrainedOutput(s, [], 0, false)
    else if feed[0].bytes == [] then DrainedOutput(s, [], 0, true)
    else
      var rest := DrainSession(Absorb(s, feed[0].bytes), feed[1..]);
      var lost := if s.logged && !feed[0].logAccepted then |feed[0].bytes| else 0;
      rest.(chunks := [feed[0].bytes] + rest.chunks, dropped := lost + rest.dropped)
  }

  /** The replay ring takes in exactly the chunks that will be published. */
  lemma {:induction false} DrainFillsRing(s: Session, feed: seq<ReadResult>)
    requires s.pty.Some? && |s.ring| <= s.ringCapacity
    ensures DrainSession(s, feed).session.ring
         == LastN(s.ring + Concat(DrainSession(s, feed).chunks), s.ringCapacity)
    decreases |feed|
  {
    var d := DrainSession(s, feed);
    if d.chunks == [] {
      assert s.ring + Concat(d.chunks) == s.ring;
    } else {
      var first := feed[0].bytes;
      var later := Concat(d.chunks[1..]);
      assert Concat(d.chunks) == first + later;
      DrainFillsRing(Absorb(s, first), feed[1..]);
      hide Concat, LastN;
      LastNAbsorbs(s.ring + first, later, s.ringCapacity);
      Associate(s.ring, first, later);
    }
  }

  function AfterDrain(r: RuntimeState, fd: Fd, feed: seq<ReadResult>): (d: (RuntimeState, DrainedOutput))
    requires fd in r.ptys && r.ptys[fd] in r.sessions && r.sessions[r.ptys[fd]].pty.Some?
  {
    var id := r.ptys[fd];
    var d := DrainSession(r.sessions[id], feed);
    if d.dropped > 0 && d.session.logState != Degraded then
      (Bump(r.(sessions := r.sessions[id := d.session.(logState := Degraded)])), d)
    else
      (r.(sessions := r.sessions[id := d.session]), d)
  }

  lemma DrainOutputKeeps(r: RuntimeState, fd: Fd, feed: seq<ReadResult>)
    requires RuntimeSound(r) && fd in r.ptys
    ensures RuntimeSound(AfterDrain(r, fd, feed).0) && Tracks(r, AfterDrain(r, fd, feed).0)
  {
    var id := r.ptys[fd];
    var d := DrainSession(r.sessions[id], feed);
    DrainFillsRing(r.sessions[id], feed);
    PutKeeps(r, id, d.session);
    if d.dropped > 0 && d.session.logState != Degraded {
      var r1 := r.(sessions := r.sessions[id := d.session.(logState := Degraded)]);
      PutKeeps(r, id, d.session.(logState := Degraded));
      BumpKeeps(r1);
    }
  }

  // ---- Input -------------------------------------------------------------------

  datatype InputResult = InputPending(pending: bool) | InputRefused

  /** The flush loop of one session; without a terminal nothing moves. */
  ghost function FlushSession(s: Session, script: seq<WriteResult>): (Session, InputResult)
    requires Sound(s.input)
  {
    if s.pty.None? then (s, InputPending(s.input.chunks != []))
    else
      var d := Drain(s.input, script);
      (s.(input := d.queue, delivered := s.delivered + d.written, stuck := s.stuck || d.stop == Broken),
       if d.stop == Broken then InputRefused else InputPending(d.queue.chunks != []))
  }

  lemma FlushSessionKeeps(s: Session, script: seq<WriteResult>)
    requires SessionSound(s)
    ensures SessionSound(FlushSession(s, script).0)
    ensures s.delivered <= FlushSession(s, script).0.delivered <= s.accepted
  {
    var d := Drain(s.input, script);
    DrainStaysFull(s.input, script);
    DrainShrinks(s.input, script);
    hide Drain, Sound, Full, Pending;
    Associate(s.delivered, d.written, Pending(d.queue));
  }

  ghost function AfterFlushInput(r: RuntimeState, id: SessionId, script: seq<WriteResult>): (RuntimeState, InputResult)
    requires id in r.sessions && Sound(r.sessions[id].input)
  {
    var (s, res) := FlushSession(r.sessions[id], script);
    (r.(sessions := r.sessions[id := s]), res)
  }

  predicate AcceptsInput(r: RuntimeState, id: SessionId, data: seq<byte>)
  {
    && IsRunning(r, id)
    && data != []
    && r.sessions[id].input.size + |data| <= MAX_PENDING_INPUT
  }

  function WithInput(s: Session, data: seq<byte>): Session
  {
    s.(input := Push(s.input, data), accepted := s.accepted + data)
  }

  ghost function AfterQueueInput(r: RuntimeState, id: SessionId, data: seq<byte>,
      script: seq<WriteResult>): (RuntimeState, InputResult)
    requires id in r.sessions ==> Sound(r.sessions[id].input)
  {
    if !AcceptsInput(r, id, data) then (r, InputRefused)
    else
      PushAppends(r.sessions[id].input, data);
      AfterFlushInput(r.(sessions := r.sessions[id := WithInput(r.sessions[id], data)]), id, script)
  }

  lemma WithInputKeeps(s: Session, data: seq<byte>)
    requires SessionSound(s) && data != [] && s.input.size + |data| <= MAX_PENDING_INPUT
    ensures SessionSound(WithInput(s, data))
  {
    PushAppends(s.input, data);
    assert s.delivered + Pending(s.input) + data == s.delivered + (Pending(s.input) + data);
  }

  lemma FlushInputKeeps(r: RuntimeState, id: SessionId, script: seq<WriteResult>)
    requires RuntimeSound(r) && id in r.sessions
    ensures RuntimeSound(AfterFlushInput(r, id, script).0) && Tracks(r, AfterFlushInput(r, id, script).0)
  {
    FlushSessionKeeps(r.sessions[id], script);
    PutKeeps(r, id, FlushSession(r.sessions[id], script).0);
  }

  lemma QueueInputKeeps(r: RuntimeState, id: SessionId, data: seq<byte>, script: seq<WriteResult>)
    requires RuntimeSound(r)
    ensures RuntimeSound(AfterQueueInput(r, id, data, script).0) && Tracks(r, AfterQueueInput(r, id, data, script).0)
  {
    if AcceptsInput(r, id, data) {
      WithInputKeeps(r.sessions[id], data);
      var r1 := r.(sessions := r.sessions[id := WithInput(r.sessions[id], data)]);
      PutKeeps(r, id, WithInput(r.sessions[id], data));
      FlushInputKeeps(r1, id, script);
      TracksTrans(r, r1, AfterQueueInput(r, id, data, script).0);
    }
  }

  /** The bytes handed to a terminal are always a prefix of the input accepted for that
      session, in order; one accepted payload extends the accepted stream and nothing else. */
  lemma InputIsOrderedAndBounded(r: RuntimeState, id: SessionId, data: seq<byte>, script: seq<WriteResult>)
    requires RuntimeSound(r) && id in r.sessions
    ensures
      var s := r.sessions[id];
      var s' := AfterQueueInput(r, id, data, script).0.sessions[id];
      && s'.accepted == (if AcceptsInput(r, id, data) then s.accepted + data else s.accepted)
      && s.delivered <= s'.delivered <= s'.accepted
      && s'.input.size == |s'.accepted| - |s'.delivered| <= MAX_PENDING_INPUT
  {
    var s := r.sessions[id];
    if AcceptsInput(r, id, data) {
      WithInputKeeps(s, data);
      FlushSessionKeeps(WithInput(s, data), script);
    }
  }

  // ---- Closing, reaping, retiring ------------------------------------------------

  function Close(r: RuntimeState, id: SessionId): RuntimeState
  {
    if IsRunning(r, id) && r.sessions[id].pty.Some?
    then r.(sessions := r.sessions[id := r.sessions[id].(closing := true)])
    else r
  }

  /** A child found dead, with the shell state captured for it, if any. */
  datatype Reap = Reap(session: SessionId, code: int, captured: Option<ExitContext>)

  function Exited(s: Session, e: Reap): Session
  {
    s.(exitCode := Some(e.code), pty := None, context := if e.captured.Some? then e.captured.value else s.context)
  }

  function ReapOne(r: RuntimeState, e: Reap): RuntimeState
  {
    if e.session in r.sessions && r.sessions[e.session].pty.Some? then
      var s := r.sessions[e.session];
      Bump(r.(sessions := r.sessions[e.session := Exited(s, e)], ptys := r.ptys - {s.pty.value}))
    else r
  }

  lemma ReapOneKeeps(r: RuntimeState, e: Reap)
    requires RuntimeSound(r)
    ensures RuntimeSound(ReapOne(r, e)) && Tracks(r, ReapOne(r, e))
  {
    if e.session in r.sessions && r.sessions[e.session].pty.Some? {
      var s := r.sessions[e.session];
      var r1 := r.(sessions := r.sessions[e.session := Exited(s, e)], ptys := r.ptys - {s.pty.value});
      assert SessionSound(Exited(s, e));
      assert RuntimeSound(r1) by { hide SessionSound,
             Exited; assert Exited(s, e).pty == None by { ExitedShape(s, e); } }
      hide RuntimeSound, SessionSound, Exited;
      BumpKeeps(r1);
      BumpTracks(r, r1);
    }
  }

  lemma ExitedShape(s: Session, e: Reap)
    ensures Exited(s, e).pty == None
  {
  }

  /** Every session named is running, and none is named twice. */
  ghost predicate Reapable(r: RuntimeState, reaps: seq<Reap>)
  {
    && (forall i :: 0 <= i < |reaps| ==> IsRunning(r, reaps[i].session))
    && (forall i, j :: 0 <= i < j < |reaps| ==> reaps[i].session != reaps[j].session)
  }

  function ReapAll(r: RuntimeState, reaps: seq<Reap>): RuntimeState
  {
    if reaps == [] then r else ReapOne(ReapAll(r, reaps[..|reaps| - 1]), reaps[|reaps| - 1])
  }

  lemma {:induction false} ReapAllKeeps(r: RuntimeState, reaps: seq<Reap>)
    requires RuntimeSound(r)
    ensures RuntimeSound(ReapAll(r, reaps)) && Tracks(r, ReapAll(r, reaps))
  {
    if reaps != [] {
      var r1 := ReapAll(r, reaps[..|reaps| - 1]);
      ReapAllKeeps(r, reaps[..|reaps| - 1]);
      ReapOneKeeps(r1, reaps[|reaps| - 1]);
      TracksTrans(r, r1, ReapAll(r, reaps));
    }
  }

  predicate Named(reaps: seq<Reap>, id: SessionId)
  {
    exists i :: 0 <= i < |reaps| && reaps[i].session == id
  }

  /** A session not named is untouched. */
  lemma {:induction false} ReapAllOther(r: RuntimeState, reaps: seq<Reap>, id: SessionId)
    requires !Named(reaps, id)
    ensures id in ReapAll(r, reaps).sessions <==> id in r.sessions
    ensures id in r.sessions ==> ReapAll(r, reaps).sessions[id] == r.sessions[id]
  {
    if reaps != [] {
      var init := reaps[..|reaps| - 1];
      assert forall i :: 0 <= i < |init| ==> init[i] == reaps[i];
      ReapAllOther(r, init, id);
    }
  }

  /** A running session named once gets its own exit code. */
  lemma {:induction false} ReapAllNamed(r: RuntimeState, reaps: seq<Reap>, k: nat)
    requires RuntimeSound(r) && Reapable(r, reaps) && k < |reaps|
    ensures reaps[k].session in ReapAll(r, reaps).sessions
    ensures ReapAll(r, reaps).sessions[reaps[k].session] == Exited(r.sessions[reaps[k].session], reaps[k])
    decreases |reaps|
  {
    var last := |reaps| - 1;
    var init := reaps[..last];
    if k == last {
      ReapAllOther(r, init, reaps[k].session);
    } else {
      ReapAllNamed(r, init, k);
      assert init[k] == reaps[k];
    }
  }

  /** The next child is as it was when the batch began. */
  lemma ReapNext(r: RuntimeState, reaps: seq<Reap>, i: nat)
    requires RuntimeSound(r) && Reapable(r, reaps) && i < |reaps|
    ensures var done := ReapAll(r, reaps[..i]);
            && reaps[i].session in r.sessions && r.sessions[reaps[i].session].pty.Some?
            && reaps[i].session in done.sessions && done.sessions[reaps[i].session] == r.sessions[reaps[i].session]
            && ReapAll(r, reaps[..i + 1]) == ReapOne(done, reaps[i])
            && Report(done, reaps[i]) == Report(r, reaps[i])
  {
    assert reaps[..i + 1][..i] == reaps[..i];
    assert IsRunning(r, reaps[i].session);
    ReapAllOther(r, reaps[..i], reaps[i].session);
    hide ReapOne;
  }

  function Retire(r: RuntimeState, id: SessionId, cleaned: bool): (RuntimeState, OperationStatus)
  {
    if id !in r.sessions then (r, NotFound)
    else if r.sessions[id].exitCode.None? then (r, Conflict)
    else if !cleaned then (r, Internal)
    else (Bump(r.(sessions := r.sessions - {id})), OpOk)
  }

  lemma RetireKeeps(r: RuntimeState, id: SessionId, cleaned: bool)
    requires RuntimeSound(r)
    ensures RuntimeSound(Retire(r, id, cleaned).0) && Tracks(r, Retire(r, id, cleaned).0)
  {
  }

  function LogFailed(r: RuntimeState, id: SessionId): RuntimeState
  {
    if id in r.sessions && r.sessions[id].logState != Degraded
    then Bump(r.(sessions := r.sessions[id := r.sessions[id].(logState := Degraded)]))
    else r
  }

  lemma LogFailedKeeps(r: RuntimeState, id: SessionId)
    requires RuntimeSound(r)
    ensures RuntimeSound(LogFailed(r, id)) && Tracks(r, LogFailed(r, id))
  {
  }

  lemma TracksTrans(a: RuntimeState, b: RuntimeState, c: RuntimeState)
    requires Tracks(a, b) && Tracks(b, c)
    ensures Tracks(a, c)
  {
  }

  // ---- The object ------------------------------------------------------------------

  datatype ExitedSession = ExitedSession(session: SessionId, code: int, context: ExitContext, pty: Fd, closing: bool)

  /** What the server is told about a reaped session. */
  function Report(r: RuntimeState, e: Reap): ExitedSession
    requires e.session in r.sessions && r.sessions[e.session].pty.Some?
  {
    var s := r.sessions[e.session];
    ExitedSession(e.session, e.code, Exited(s, e).context, s.pty.value, s.closing)
  }

  /** One successful write of the front chunk to the terminal. */
  function Fed(s: Session, count: nat): Session
    requires s.input.chunks != [] && s.input.offset + count <= |s.input.chunks[0]| && count <= s.input.size
  {
    s.(input := Advance(s.input, count), delivered := s.delivered + Front(s.input)[..count])
  }

  /** A flush that is through with `script[..i]` and stands at `now` will end as one from `start`. */
  ghost predicate Feeding(start: Session, now: Session, script: seq<WriteResult>, i: nat)
  {
    && i <= |script| && Sound(start.input) && Sound(now.input)
    && var rest := Ahead(now.input, script, i);
       var d := Drain(start.input, script);
       && start.(input := d.queue, delivered := start.delivered + d.written)
          == now.(input := rest.queue, delivered := now.delivered + rest.written)
       && d.stop == rest.stop
  }

  lemma FeedStarts(s: Session, script: seq<WriteResult>)
    requires Sound(s.input)
    ensures Feeding(s, s, script, 0)
  {
    AheadAtStart(s.input, script);
  }

  lemma FeedReady(start: Session, now: Session, script: seq<WriteResult>, i: nat)
    requires Feeding(start, now, script, i) && now.input.chunks != []
    ensures i <= |script| && now.input.offset <= |now.input.chunks[0]|
  {
    hide Ahead, Drain, Pending;
  }

  lemma FeedStep(start: Session, now: Session, script: seq<WriteResult>, i: nat, count: nat)
    requires Feeding(start, now, script, i) && now.input.chunks != []
    requires now.input.offset <= |now.input.chunks[0]| && Answer(now.input, script, i) == Take(count)
    ensures i < |script| && now.input.offset + count <= |now.input.chunks[0]| && count <= now.input.size
    ensures Feeding(start, Fed(now, count), script, i + 1)
  {
    AheadStep(now.input, script, i);
    hide Ahead, Drain, Sound, Advance, Front;
    var rest := Ahead(Advance(now.input, count), script, i + 1);
    Associate(now.delivered, Front(now.input)[..count], rest.written);
  }

  lemma FeedEnds(start: Session, now: Session, script: seq<WriteResult>, i: nat, stop: Stop)
    requires start.pty.Some? && Feeding(start, now, script, i)
    requires if now.input.chunks == [] then stop == Emptied
             else now.input.offset <= |now.input.chunks[0]| && Answer(now.input, script, i) == Halt(stop)
    ensures Sound(start.input)
    ensures FlushSession(start, script) == (now.(stuck := now.stuck || stop == Broken),
              if stop == Broken then InputRefused else InputPending(now.input.chunks != []))
  {
    if now.input.chunks != [] {
      AheadStep(now.input, script, i);
    }
    assert now.delivered + [] == now.delivered;
  }

  /** Writes queued input until it runs out or the terminal stops taking it. */
  method FlushSessionInput(start: Session, script: seq<WriteResult>) returns (session: Session, res: InputResult)
    requires Sound(start.input)
    ensures session == FlushSession(start, script).0
    ensures res == FlushSession(start, script).1
  {
    session := start;
    if session.pty.None? {
      return session, InputPending(session.input.chunks != []);
    }
    var i := 0;
    var stop := Emptied;
    FeedStarts(start, script);
    hide Feeding, Answer, Fed, Sound, FlushSession;
    while session.input.chunks != []
      invariant Feeding(start, session, script, i)
      invariant stop == Emptied
      decreases |script| - i
    {
      FeedReady(start, session, script, i);
      var answer := Answer(session.input, script, i);
      if answer.Halt? {
        stop := answer.stop;
        break;
      }
      FeedStep(start, session, script, i, answer.count);
      session := Fed(session, answer.count);
      i := i + 1;
    }
    FeedEnds(start, session, script, i, stop);
    session := session.(stuck := session.stuck || stop == Broken);
    res := if stop == Broken then InputRefused else InputPending(session.input.chunks != []);
  }

  /** A drain that is through with `feed[..i]` and stands at `now` will end as one from `start`. */
  ghost predicate Draining(start: Session, feed: seq<ReadResult>, now: Session, chunks: seq<seq<byte>>, dropped: nat,
      i: nat)
  {
    && i <= |feed| && start.pty.Some? && now.pty.Some?
    && var rest := DrainSession(now, feed[i..]);
       DrainSession(start, feed) == rest.(chunks := chunks + rest.chunks, dropped := dropped + rest.dropped)
  }

  lemma DrainStarts(s: Session, feed: seq<ReadResult>)
    requires s.pty.Some?
    ensures Draining(s, feed, s, [], 0, 0)
  {
    assert feed[0..] == feed;
    assert [] + DrainSession(s, feed).chunks == DrainSession(s, feed).chunks;
  }

  lemma DrainStep(start: Session, feed: seq<ReadResult>, now: Session, chunks: seq<seq<byte>>, dropped: nat, i: nat)
    requires Draining(start, feed, now, chunks, dropped, i)
    requires i < |feed| && feed[i].Data? && feed[i].bytes != []
    ensures Draining(start, feed, Absorb(now, feed[i].bytes), chunks + [feed[i].bytes],
                     dropped + (if now.logged && !feed[i].logAccepted then |feed[i].bytes| else 0), i + 1)
  {
    assert feed[i..][0] == feed[i] && feed[i..][1..] == feed[i + 1..];
    var rest := DrainSession(Absorb(now, feed[i].bytes), feed[i + 1..]);
    Associate(chunks, [feed[i].bytes], rest.chunks);
  }

  lemma DrainEnds(start: Session, feed: seq<ReadResult>, now: Session, chunks: seq<seq<byte>>, dropped: nat, i: nat)
    requires Draining(start, feed, now, chunks, dropped, i)
    requires i < |feed| && feed[i].Data? ==> feed[i].bytes == []
    ensures start.pty.Some?
    ensures i < |feed| && feed[i].ReadFailed? ==> !DrainSession(start, feed).ok
    ensures i == |feed| || !feed[i].ReadFailed? ==>
              DrainSession(start, feed) == DrainedOutput(now, chunks, dropped, true)
  {
    if i < |feed| {
      assert feed[i..][0] == feed[i];
    }
    assert chunks + [] == chunks;
  }

  class Runtime {
    var sessions: map<SessionId, Session>
    var ptyToSession: map<Fd, SessionId>
    var generation: nat
    ghost var bumps: nat

    ghost function State(): RuntimeState
      reads this
    {
      RuntimeState(sessions, ptyToSession, generation, bumps)
    }

    constructor ()
      ensures State() == NO_SESSIONS
    {
      sessions := map[];
      ptyToSession := map[];
      generation := 0;
      bumps := 0;
    }

    method BumpGeneration()
      modifies this`generation, this`bumps
      ensures State() == Bump(old(State()))
    {
      generation := Max((generation + 1) % U64, 1);
      bumps := bumps + 1;
    }

    /** The part of `create` that runs once the shell has been started. */
    method Install(id: SessionId, fd: Fd, ringCapacity: nat, logged: bool)
      modifies this
      ensures State() == Created(old(State()), id, fd, ringCapacity, logged)
    {
      var session := Session(Some(fd), [], ringCapacity, logged, if logged then Healthy else Disabled, None,
                             ExitContext(None, None), EMPTY, false, [], [], false);
      sessions := sessions[id := session];
      ptyToSession := ptyToSession[fd := id];
      BumpGeneration();
    }

    method DrainOutput(fd: Fd, feed: seq<ReadResult>)
        returns (id: SessionId, chunks: seq<seq<byte>>, dropped: nat, ok: bool)
      requires RuntimeSound(State()) && fd in ptyToSession
      modifies this
      ensures var (r, d) := AfterDrain(old(State()), fd, feed);
              && ok == d.ok
              && (ok ==> State() == r && id == old(ptyToSession[fd]) && chunks == d.chunks && dropped == d.dropped)
    {
      id := ptyToSession[fd];
      var session := sessions[id];
      ghost var start := session;
      chunks, dropped, ok := [], 0, true;
      var i := 0;
      DrainStarts(session, feed);
      hide Draining, Absorb, DrainSession;
      while i < |feed| && feed[i].Data? && feed[i].bytes != []
        invariant Draining(start, feed, session, chunks, dropped, i)
        invariant i <= |feed| && State() == old(State())
      {
        DrainStep(start, feed, session, chunks, dropped, i);
        if session.logged && !feed[i].logAccepted {
          dropped := dropped + |feed[i].bytes|;
        }
        session := Absorb(session, feed[i].bytes);
        chunks := chunks + [feed[i].bytes];
        i := i + 1;
      }
      DrainEnds(start, feed, session, chunks, dropped, i);
      if i < |feed| && feed[i].ReadFailed? {
        ok := false;
        return;
      }
      assert AfterDrain(old(State()), fd, feed).1 == DrainedOutput(session, chunks, dropped, true);
      StoreDrained(id, session, dropped);
    }

    /** Losing log data degrades the session, once. */
    method StoreDrained(id: SessionId, drained: Session, dropped: nat)
      modifies this
      ensures State() == if dropped > 0 && drained.logState != Degraded
                         then Bump(old(State()).(
                                     sessions := old(State()).sessions[id := drained.(logState := Degraded)]))
                         else old(State()).(sessions := old(State()).sessions[id := drained])
    {
      var session := drained;
      var newlyDegraded := dropped > 0 && session.logState != Degraded;
      if newlyDegraded {
        session := session.(logState := Degraded);
      }
      sessions := sessions[id := session];
      if newlyDegraded {
        BumpGeneration();
      }
    }

    method FlushInput(id: SessionId, script: seq<WriteResult>) returns (res: InputResult)
      requires id in sessions && Sound(sessions[id].input)
      modifies this`sessions
      ensures State() == AfterFlushInput(old(State()), id, script).0
      ensures res == AfterFlushInput(old(State()), id, script).1
    {
      var session;
      session, res := FlushSessionInput(sessions[id], script);
      sessions := sessions[id := session];
    }

    method QueueInput(id: SessionId, data: seq<byte>, script: seq<WriteResult>) returns (res: InputResult)
      requires RuntimeSound(State())
      modifies this`sessions
      ensures State() == AfterQueueInput(old(State()), id, data, script).0
      ensures res == AfterQueueInput(old(State()), id, data, script).1
    {
      if id !in sessions {
        return InputRefused;
      }
      var session := sessions[id];
      if session.exitCode.Some? || data == [] {
        return InputRefused;
      }
      var newSize := session.input.size + |data|;
      if newSize > MAX_PENDING_INPUT {
        return InputRefused;
      }
      PushAppends(session.input, data);
      sessions := sessions[id := session.(input := Push(session.input, data), accepted := session.accepted + data)];
      res := FlushInput(id, script);
    }

    method CloseSession(id: SessionId) returns (status: OperationStatus)
      modifies this`sessions
      ensures State() == Close(old(State()), id)
      ensures status == if id in old(sessions) then OpOk else NotFound
    {
      if id in sessions && sessions[id].exitCode.Some? {
        return OpOk;
      }
      if id !in sessions {
        return NotFound;
      }
      if sessions[id].pty.Some? {
        sessions := sessions[id := sessions[id].(closing := true)];
      }
      status := OpOk;
    }

    method ReapExited(reaps: seq<Reap>) returns (exited: seq<ExitedSession>)
      requires RuntimeSound(State()) && Reapable(State(), reaps)
      modifies this
      ensures State() == ReapAll(old(State()), reaps)
      ensures |exited| == |reaps|
      ensures forall i :: 0 <= i < |reaps| ==> exited[i] == Report(old(State()), reaps[i])
    {
      exited := [];
      ghost var start := State();
      for i := 0 to |reaps|
        invariant State() == ReapAll(start, reaps[..i])
        invariant |exited| == i
        invariant forall j :: 0 <= j < i ==> exited[j] == Report(start, reaps[j])
      {
        var e := reaps[i];
        ReapNext(start, reaps, i);
        hide ReapAll, ReapOne, Reapable, RuntimeSound;
        var one := ReapChild(e);
        exited := exited + [one];
      }
      assert reaps[..|reaps|] == reaps;
    }

    method ReapChild(e: Reap) returns (exited: ExitedSession)
      requires e.session in sessions && sessions[e.session].pty.Some?
      modifies this
      ensures State() == ReapOne(old(State()), e)
      ensures exited == Report(old(State()), e)
    {
      var session := sessions[e.session];
      var fd := session.pty.value;
      if e.captured.Some? {
        session := session.(context := e.captured.value);
      }
      session := session.(exitCode := Some(e.code));
      exited := ExitedSession(e.session, e.code, session.context, fd, session.closing);
      ptyToSession := ptyToSession - {fd};
      session := session.(pty := None);
      sessions := sessions[e.session := session];
      BumpGeneration();
    }

    method RetireExited(id: SessionId, cleaned: bool) returns (status: OperationStatus)
      modifies this
      ensures State() == Retire(old(State()), id, cleaned).0
      ensures status == Retire(old(State()), id, cleaned).1
    {
      if id !in sessions {
        return NotFound;
      }
      if sessions[id].exitCode.None? {
        return Conflict;
      }
      if !cleaned {
        return Internal;
      }
      sessions := sessions - {id};
      BumpGeneration();
      status := OpOk;
    }

    method MarkLogFailed(id: SessionId)
      modifies this
      ensures State() == LogFailed(old(State()), id)
    {
      if id in sessions {
        var newlyDegraded := sessions[id].logState != Degraded;
        if newlyDegraded {
          sessions := sessions[id := sessions[id].(logState := Degraded)];
          BumpGeneration();
        }
      }
    }
  }
}
