/** A concrete run, so that what holds in every reachable state is not said of nothing: a
    controller and a data peer connect, a session is started and the data peer writes to it. */
module HolderExamples {
  import opened Bytes
  import opened ByteQueues
  import opened HolderFrames
  import opened Connections
  import opened Reactors
  import opened HolderRuntimes
  import opened HolderStates
  import opened HolderInvariants
  import opened HolderSteps
  import opened HolderKeeps
  import opened HolderData
  import opened HolderRuns
  import opened HolderTheorems

  const CONTROL: Fd := 3
  const PEER: Fd := 4
  const TERMINAL: Fd := 5
  const OWNER: nat := 7
  const NONCE: nat := 11
  const SESSION: SessionId := 1

  function Plain(f: Frame, minor: nat): Option<seq<byte>>
  {
    Some([0])
  }

  lemma {:induction false} ExecMore(s: Server, es: seq<HolderEvent>, e: HolderEvent)
    requires Good(s, {}) && Exec(s, es).Some?
    ensures Exec(s, es + [e]) == Step(Exec(s, es).value, e)
    decreases |es|
  {
    hide Good, Step, Advances;
    if es == [] {
      assert es + [e] == [e];
      assert [e][1..] == [];
    } else {
      assert (es + [e])[0] == es[0] && (es + [e])[1..] == es[1..] + [e];
      ExecMore(Step(s, es[0]).value, es[1..], e);
    }
  }

  lemma OneMore(s: Server, e: HolderEvent, codec: Codec, instance: nat, listener: Fd, signals: Fd, logs: Fd,
      es: seq<HolderEvent>)
    requires ReachedBy(s, codec, instance, listener, signals, logs, es) && Good(s, {}) && Step(s, e).Some?
    ensures ReachedBy(Step(s, e).value, codec, instance, listener, signals, logs, es + [e])
  {
    hide Good, Exec, Step, Initial;
    InitialGood(codec, instance, listener, signals, logs);
    var s0 := Initial(codec, instance, listener, signals, logs);
    assert Exec(s0, es) == Some(s);
    ExecMore(s0, es, e);
  }

  /** Whatever an event makes of a reachable state is reachable. */
  lemma Onward(s: Server, e: HolderEvent)
    requires Reachable(s)
    ensures Good(s, {})
    ensures Step(s, e).Some? ==> Reachable(Step(s, e).value)
  {
    hide Good, ReachedBy, Step;
    EveryRunKeepsTheInvariant(s);
    if Step(s, e).Some? {
      var codec, instance, listener, signals, logs, es :| ReachedBy(s, codec, instance, listener, signals, logs, es);
      OneMore(s, e, codec, instance, listener, signals, logs, es);
    }
  }

  function Sends(fd: Fd, f: InFrame): HolderEvent
  {
    Peer(fd, false, Received([f], false), None)
  }

  lemma OneFrameRead(s: Server, fd: Fd, f: InFrame)
    requires Good(s, {}) && fd in s.conns && RuntimeSound(s.runtime) && ProcessFrame(s, fd, f).1
    ensures ProcessFrames(s, fd, [f]) == (ProcessFrame(s, fd, f).0, true)
  {
    hide ProcessFrame, Advances, RuntimeSound, Good;
    FrameKeeps(s, fd, f);
    assert [f][0] == f && [f][1..] == [];
  }

  /** One accepted frame is a whole turn of its connection. */
  lemma OneFrame(s: Server, fd: Fd, f: InFrame)
    requires Good(s, {}) && fd in s.conns
    ensures RuntimeSound(s.runtime)
    ensures ProcessFrame(s, fd, f).1 ==> Step(s, Sends(fd, f)) == Some(ProcessFrame(s, fd, f).0)
  {
    hide Good, ProcessFrame, Advances, RuntimeSound, ProcessFrames;
    GoodRuntime(s);
    if ProcessFrame(s, fd, f).1 {
      OneFrameRead(s, fd, f);
      assert ReadHalf(s, fd, false, Received([f], false)) == (ProcessFrame(s, fd, f).0, true);
    }
  }

  /** A refused frame costs the connection. */
  lemma RefusedFrame(s: Server, fd: Fd, f: InFrame)
    requires Good(s, {}) && fd in s.conns
    ensures RuntimeSound(s.runtime)
    ensures !ProcessFrame(s, fd, f).1 ==> Step(s, Sends(fd, f)) == Some(Disconnect(ProcessFrame(s, fd, f).0, fd))
  {
    hide Good, ProcessFrame, Advances, RuntimeSound, Disconnect;
    GoodRuntime(s);
    if !ProcessFrame(s, fd, f).1 {
      assert ProcessFrames(s, fd, [f]) == (ProcessFrame(s, fd, f).0, false) by { FrameKeeps(s, fd, f); }
      hide ProcessFrames;
      assert ReadHalf(s, fd, false, Received([f], false)) == (Disconnect(ProcessFrame(s, fd, f).0, fd), false);
    }
  }

  /** A connection with room for the handful of frames of this run. */
  predicate Client(s: Server, fd: Fd, role: Role, pending: nat)
  {
    && fd in s.conns && s.conns[fd].role == role && s.conns[fd].output.size == pending
    && s.conns[fd].pid == OWNER && s.conns[fd].uid == 0 && s.conns[fd].minor == BASELINE_MINOR
    && s.conns[fd].attached == None
  }

  ghost predicate Setting(s: Server, adds: nat, fds: set<Fd>)
  {
    s.codec == Plain && s.instance == 0 && s.reactor.adds == adds && s.reactor.tokens.Keys == fds && s.writers == map[]
    && s.events == map[]
  }

  const HOST := Some(Controller(CONTROL, OWNER, NONCE, BASELINE_MINOR))

  function Hello(): InFrame
  {
    InFrame(BASELINE_MINOR, 1, ControlHello(Some(ControlHelloRequest(0, OWNER, NONCE)), false))
  }

  function Join(): InFrame
  {
    InFrame(BASELINE_MINOR, 1, DataHello(Some(DataHelloRequest(OWNER, 0, NONCE))))
  }

  function Begin(): InFrame
  {
    InFrame(BASELINE_MINOR, 2, Create(Some(CreateRequest(SESSION, 1, false)), Spawned(TERMINAL)))
  }

  function Write(): InFrame
  {
    InFrame(BASELINE_MINOR, 2, Attach(Some(AttachRequest(SESSION, true, 0))))
  }

  lemma Accepted1(s: Server)
    requires Setting(s, 3, {0, 1, 2}) && s.controller == None && s.runtime == NO_SESSIONS && s.conns == map[]
    ensures var s' := AcceptConn(s, CONTROL, OWNER, 0);
            Setting(s', 4, {0, 1, 2, CONTROL}) && s'.controller == None && s'.runtime == NO_SESSIONS
            && Client(s', CONTROL, Pending, 0) && s'.conns.Keys == {CONTROL}
  {
  }

  lemma Greeted(s: Server)
    requires Setting(s, 4, {0, 1, 2, CONTROL}) && s.controller == None && s.runtime == NO_SESSIONS
    requires Client(s, CONTROL, Pending, 0) && s.conns.Keys == {CONTROL}
    ensures var (s', ok) := ProcessFrame(s, CONTROL, Hello());
            ok && Setting(s', 4, {0, 1, 2, CONTROL}) && s'.controller == HOST && s'.runtime == NO_SESSIONS
            && Client(s', CONTROL, Control, 1) && s'.conns.Keys == {CONTROL}
  {
  }

  lemma Accepted2(s: Server)
    requires Setting(s, 4, {0, 1, 2, CONTROL}) && s.controller == HOST && s.runtime == NO_SESSIONS
    requires Client(s, CONTROL, Control, 1) && s.conns.Keys == {CONTROL}
    ensures var s' := AcceptConn(s, PEER, OWNER, 0);
            Setting(s', 5, {0, 1, 2, CONTROL, PEER}) && s'.controller == HOST && s'.runtime == NO_SESSIONS
            && Client(s', CONTROL, Control, 1) && Client(s', PEER, Pending, 0)
  {
  }

  lemma Joined(s: Server)
    requires Setting(s, 5, {0, 1, 2, CONTROL, PEER}) && s.controller == HOST && s.runtime == NO_SESSIONS
    requires Client(s, CONTROL, Control, 1) && Client(s, PEER, Pending, 0)
    ensures var (s', ok) := ProcessFrame(s, PEER, Join());
            ok && Setting(s', 5, {0, 1, 2, CONTROL, PEER}) && s'.controller == HOST && s'.runtime == NO_SESSIONS
            && Client(s', CONTROL, Control, 1) && Client(s', PEER, Role.Data, 1)
  {
  }

  predicate Ready(r: RuntimeState)
  {
    r.ptys == map[TERMINAL := SESSION] && r.sessions == map[SESSION := FreshSession(TERMINAL, 1, false)]
  }

  lemma Started(s: Server)
    requires Setting(s, 5, {0, 1, 2, CONTROL, PEER}) && s.controller == HOST && s.runtime == NO_SESSIONS
    requires Client(s, CONTROL, Control, 1) && Client(s, PEER, Role.Data, 1)
    ensures var (s', ok) := ProcessFrame(s, CONTROL, Begin());
            ok && s'.codec == Plain && s'.writers == map[] && s'.events == map[] && Client(s', PEER, Role.Data, 1)
              && Ready(s'.runtime)
  {
  }

  lemma QueueTwo(s: Server, fd: Fd, a: Frame, b: Frame)
    requires s.codec == Plain && fd in s.conns && s.conns[fd].output.size == 1
    ensures var (s', ok) := QueueAll(s, fd, [a, b]);
            && ok && fd in s'.conns && s'.codec == Plain && s'.conns[fd].output.size == 3
            && s'.conns[fd].attached == s.conns[fd].attached && s'.conns[fd].from == s.conns[fd].from
            && s'.conns[fd].replay == s.conns[fd].replay
            && s'.conns[fd].role == s.conns[fd].role && s'.conns[fd].minor == s.conns[fd].minor
            && s'.writers == s.writers && s'.runtime == s.runtime && s'.events == s.events
  {
    assert [a, b][..1] == [a] && [a][..0] == [];
    assert QueueAll(s, fd, []) == (s, true);
    assert QueueAll(s, fd, [a]) == (QueueFrame(s, fd, a), true);
  }

  lemma TakenOver(s: Server, request: AttachRequest)
    requires s.writers == map[] && s.events == map[] && PEER in s.conns && s.conns[PEER].attached == None
    requires request == AttachRequest(SESSION, true, 0)
    requires SESSION in s.runtime.sessions && s.runtime.sessions[SESSION].ring == []
    ensures var s' := TakeOver(DetachConnection(s, PEER), PEER, request);
            && s'.codec == s.codec && s'.runtime == s.runtime && s'.writers == map[SESSION := PEER] && PEER in s'.conns
            && s'.conns[PEER].attached == Some(SESSION) && s'.conns[PEER].from == 0 && s'.conns[PEER].replay == []
            && s'.conns[PEER].output == s.conns[PEER].output && s'.events == map[]
            && s'.conns[PEER].role == s.conns[PEER].role && s'.conns[PEER].minor == s.conns[PEER].minor
  {
  }

  ghost predicate Watching(s: Server)
  {
    && s.codec == Plain && s.events == map[] && Ready(s.runtime) && s.writers == map[SESSION := PEER]
    && PEER in s.conns && s.conns[PEER].attached == Some(SESSION) && s.conns[PEER].from == 0
    && s.conns[PEER].replay == [] && s.conns[PEER].output.size == 3
    && s.conns[PEER].role == Role.Data && s.conns[PEER].minor == BASELINE_MINOR
  }

  lemma Welcomed(s: Server)
    requires s.codec == Plain && s.writers == map[] && s.events == map[] && Client(s, PEER, Role.Data, 1)
    requires Ready(s.runtime) && RuntimeSound(s.runtime)
    ensures var (s', ok) := ProcessFrame(s, PEER, Write());
            ok && Watching(s')
  {
    hide RuntimeSound, TakeOver, QueueAll;
    var request := AttachRequest(SESSION, true, 0);
    TakenOver(s, request);
    var s1 := TakeOver(DetachConnection(s, PEER), PEER, request);
    var reply := Reply(s1, Write(), OperationResp(AttachResp, SESSION, OpOk));
    var grant := Event(s1, WriteGranted(SESSION));
    assert Welcome(s1, PEER, Write(), request) == [reply, grant];
    QueueTwo(s1, PEER, reply, grant);
  }


  lemma Arrives(s: Server, fd: Fd, pid: nat, uid: nat)
    requires Reachable(s)
    ensures Reachable(AcceptConn(s, fd, pid, uid))
  {
    hide Reachable, Good, AcceptConn;
    Onward(s, Accept(fd, pid, uid));
    assert Step(s, Accept(fd, pid, uid)) == Some(AcceptConn(s, fd, pid, uid));
  }

  lemma IsServed(s: Server, fd: Fd, f: InFrame)
    requires Reachable(s) && fd in s.conns
    ensures RuntimeSound(s.runtime)
    ensures ProcessFrame(s, fd, f).1 ==> Reachable(ProcessFrame(s, fd, f).0)
  {
    hide Reachable, Good, Step, ProcessFrame, RuntimeSound;
    Onward(s, Sends(fd, f));
    OneFrame(s, fd, f);
  }

  lemma StartIsReachable()
    ensures var s := Initial(Plain, 0, 0, 1, 2);
            Reachable(s) && Setting(s, 3, {0, 1, 2}) && s.controller == None && s.runtime == NO_SESSIONS
              && s.conns == map[]
  {
    StartIsReached();
    StartSetting();
    hide ReachedBy, Initial, Setting;
  }

  lemma StartSetting()
    ensures var s := Initial(Plain, 0, 0, 1, 2);
            Setting(s, 3, {0, 1, 2}) && s.controller == None && s.runtime == NO_SESSIONS && s.conns == map[]
  {
    var r1 := Register(NO_REGISTRATIONS, 0, false);
    RegisterKeys(NO_REGISTRATIONS, 0, false);
    RegisterKeys(r1, 1, false);
    RegisterKeys(Register(r1, 1, false), 2, false);
    hide Register;
  }

  lemma StartIsReached()
    ensures ReachedBy(Initial(Plain, 0, 0, 1, 2), Plain, 0, 0, 1, 2, [])
  {
    hide Initial, Good, Step;
    InitialGood(Plain, 0, 0, 1, 2);
  }

  lemma OneRead(s: Session, data: seq<byte>)
    requires s.pty.Some? && data != []
    ensures var d := DrainSession(s, [ReadResult.Data(data, true)]);
            d.chunks == [data] && d.dropped == 0 && d.ok
  {
    var feed := [ReadResult.Data(data, true)];
    assert feed[1..] == [];
    assert DrainSession(Absorb(s, data), []).chunks == [];
    assert [data] + [] == [data];
    hide Absorb;
  }

  lemma Published(s: Server, data: seq<byte>)
    requires Watching(s) && data != []
    ensures var s' := DrainPty(s, TERMINAL, [ReadResult.Data(data, true)]);
            && TERMINAL in s.runtime.ptys && s'.Some? && PEER in s'.value.conns
                 && s'.value.conns[PEER].attached == Some(SESSION)
            && s'.value.conns[PEER].from == 0 && s'.value.conns[PEER].replay == []
            && s'.value.events == map[SESSION := [Chunk(data)]] && s'.value.writers == map[SESSION := PEER]
  {
    var feed := [ReadResult.Data(data, true)];
    OneRead(s.runtime.sessions[SESSION], data);
    var (r, d) := AfterDrain(s.runtime, TERMINAL, feed);
    assert d.chunks == [data] && d.dropped == 0 && d.ok;
    var s1 := s.(runtime := r);
    hide AfterDrain, DrainSession, Unregister;
    assert [data][..0] == [];
    assert Publish(s1, SESSION, []) == s1;
    var s2 := Broadcast(s1, Attached(s1, SESSION), CastOutput(data));
    assert History(s2, SESSION) + [Chunk(data)] == [Chunk(data)];
    assert Publish(s1, SESSION, [data]) == Emit(s2, SESSION, Chunk(data));
  }

  lemma Prints(s: Server, data: seq<byte>)
    requires Reachable(s) && DrainPty(s, TERMINAL, [ReadResult.Data(data, true)]).Some? && TERMINAL in s.runtime.ptys
    ensures Reachable(DrainPty(s, TERMINAL, [ReadResult.Data(data, true)]).value)
  {
    hide Reachable, Good, DrainPty;
    Onward(s, Terminal(TERMINAL, Some([ReadResult.Data(data, true)]), None));
  }

  /** A run that leads to an attached writer. */
  lemma Attaches() returns (s: Server)
    ensures Reachable(s) && Watching(s)
  {
    hide *;
    var s0 := Initial(Plain, 0, 0, 1, 2);
    StartIsReachable();
    Accepted1(s0);
    Arrives(s0, CONTROL, OWNER, 0);
    var s1 := AcceptConn(s0, CONTROL, OWNER, 0);
    IsServed(s1, CONTROL, Hello());
    Greeted(s1);
    var s2 := ProcessFrame(s1, CONTROL, Hello()).0;
    Accepted2(s2);
    Arrives(s2, PEER, OWNER, 0);
    var s3 := AcceptConn(s2, PEER, OWNER, 0);
    IsServed(s3, PEER, Join());
    Joined(s3);
    var s4 := ProcessFrame(s3, PEER, Join()).0;
    IsServed(s4, CONTROL, Begin());
    Started(s4);
    var s5 := ProcessFrame(s4, CONTROL, Begin()).0;
    IsServed(s5, PEER, Write());
    Welcomed(s5);
    s := ProcessFrame(s5, PEER, Write()).0;
  }

  /** The session prints: its writer has been sent exactly that. */
  lemma AnAttachedWriterIsReachable(data: seq<byte>)
    requires data != []
    ensures exists s :: Reachable(s) && s.writers == map[SESSION := PEER] && HasSeen(s, data)
  {
    hide *;
    var s := Attaches();
    Published(s, data);
    Prints(s, data);
    var s' := DrainPty(s, TERMINAL, [ReadResult.Data(data, true)]).value;
    Delivered(s', data);
    assert Reachable(s') && s'.writers == map[SESSION := PEER] && HasSeen(s', data);
  }

  ghost predicate LostWakeup(s: Server)
  {
    && SESSION in s.runtime.sessions && s.runtime.sessions[SESSION].pty == Some(TERMINAL)
    && s.runtime.sessions[SESSION].input.chunks != []
    && TERMINAL in s.reactor.writable && !s.reactor.writable[TERMINAL]
  }

  function Types(data: seq<byte>): InFrame
  {
    InFrame(BASELINE_MINOR, 3, Input(data, [WriteResult.Failed]))
  }

  lemma TypedInVain(s: Server, data: seq<byte>)
    requires RuntimeSound(s.runtime) && Watching(s) && 0 < |data| <= MAX_PENDING_INPUT
    requires TERMINAL in s.reactor.writable && !s.reactor.writable[TERMINAL]
    ensures var (s', ok) := ProcessFrame(s, PEER, Types(data));
            !ok && LostWakeup(s')
  {
    hide RuntimeSound, Drain;
    var script := [WriteResult.Failed];
    assert s.runtime.sessions[SESSION] == FreshSession(TERMINAL, 1, false);
    assert AcceptsInput(s.runtime, SESSION, data);
    QueueOutcome(s.runtime, SESSION, TERMINAL, data, script);
    hide AfterQueueInput, AcceptsInput, FreshSession;
    assert RequireWriter(s, PEER) == Some(SESSION);
    OneFailedWrite(data, script);
  }

  lemma OneFailedWrite(data: seq<byte>, script: seq<WriteResult>)
    requires data != [] && script == [WriteResult.Failed]
    ensures Sound(Push(EMPTY, data)) && Drain(Push(EMPTY, data), script).stop == Broken
    ensures Drain(Push(EMPTY, data), script).queue.chunks == [data]
  {
    PushAppends(EMPTY, data);
  }

  lemma TerminalIsIdle(s: Server)
    requires Good(s, {}) && Watching(s)
    ensures TERMINAL in s.reactor.writable && !s.reactor.writable[TERMINAL]
  {
    hide Good;
    TerminalFacts(s, SESSION, TERMINAL);
  }

  /** Output is taken, input is not: a session can be left with input pending and nothing armed. */
  lemma LostWakeupIsReachable(data: seq<byte>)
    requires 0 < |data| <= MAX_PENDING_INPUT
    ensures exists s :: Reachable(s) && LostWakeup(s)
  {
    hide *;
    var s := Attaches();
    var e := Sends(PEER, Types(data));
    assert PEER in s.conns by { PeerIsThere(s); }
    Onward(s, e);
    RefusedFrame(s, PEER, Types(data));
    TerminalIsIdle(s);
    TypedInVain(s, data);
    var s1 := ProcessFrame(s, PEER, Types(data)).0;
    var s' := Disconnect(s1, PEER);
    Onward(s', e);
    StaysLost(s1, s');
    assert Reachable(s') && LostWakeup(s');
  }

  lemma PeerIsThere(s: Server)
    requires Watching(s)
    ensures PEER in s.conns
  {
  }

  lemma StaysLost(s: Server, s': Server)
    requires LostWakeup(s) && s' == Disconnect(s, PEER) && Good(s', {})
    ensures LostWakeup(s')
  {
    hide Good, WithoutWriters, Casualties;
    TerminalFacts(s', SESSION, TERMINAL);
  }

  ghost predicate HasSeen(s: Server, data: seq<byte>)
  {
    && PEER in s.conns && s.conns[PEER].attached == Some(SESSION) && s.conns[PEER].mark <= |s.conns[PEER].log|
    && StreamBytes(Deliveries(Since(s.conns[PEER]))) == data
  }

  /** Gap-free delivery leaves no other possibility. */
  lemma Delivered(s: Server, data: seq<byte>)
    requires Reachable(s) && PEER in s.conns && s.conns[PEER].attached == Some(SESSION)
    requires s.conns[PEER].from == 0 && s.conns[PEER].replay == [] && s.events == map[SESSION := [Chunk(data)]]
    ensures HasSeen(s, data)
  {
    hide Reachable;
    GapFreeDelivery(s, PEER);
    var history := History(s, SESSION);
    assert history == [Chunk(data)] && history[0..] == history && history[..0] == [];
    assert StreamBytes(history) == data;
  }
}
