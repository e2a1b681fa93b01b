/** Whole runs of the Holder: every event keeps the invariant, so every reachable state has it. */
module HolderRuns {
  import opened Bytes
  import opened ByteQueues
  import opened HolderFrames
  import opened Connections
  import opened Reactors
  import opened HolderRuntimes
  import opened HolderStates
  import opened HolderInvariants
  import opened HolderSteps
  import opened HolderKeeps
  import opened HolderData

  // ---- A peer's turn -----------------------------------------------------------------

  lemma GoodRuntime(s: Server)
    requires Good(s, {})
    ensures RuntimeSound(s.runtime)
  {
    hide Core, ViewSound, StreamSound;
    RuntimeIsSound(s, {});
  }

  lemma GoodOutput(s: Server, fd: Fd)
    requires Good(s, {}) && fd in s.conns
    ensures ConnSound(s.codec, s.conns[fd])
  {
    hide Ownership, Armed, ViewSound, StreamSound, ConnSound, RuntimeSound, RegistrySound;
  }

  /** Frames are handled in order until one is refused. A frame handled well leaves its sender
      connected, so the next one finds it. */
  ghost function ProcessFrames(s: Server, fd: Fd, frames: seq<InFrame>): (res: (Server, bool))
    requires Good(s, {}) && fd in s.conns
    ensures Handled(s, fd, res)
    decreases |frames|
  {
    if frames == [] then
      AdvancesRefl(s);
      GoodWeakens(s, {fd});
      (s, true)
    else
      GoodRuntime(s);
      FrameKeeps(s, fd, frames[0]);
      var (s1, ok) := ProcessFrame(s, fd, frames[0]);
      if !ok then (s1, false)
      else
        var res := ProcessFrames(s1, fd, frames[1..]);
        AdvancesTrans(s, s1, res.0);
        res
  }

  lemma FlushConnGood(s: Server, fd: Fd, script: seq<WriteResult>)
    requires Good(s, {}) && fd in s.conns && Sound(s.conns[fd].output)
    requires FlushConn(s, fd, script).Some?
    ensures Good(FlushConn(s, fd, script).value, {})
    ensures Advances(s, FlushConn(s, fd, script).value)
  {
    var c := AfterFlush(s.conns[fd], script);
    var armed := c.output.chunks != [];
    var s1 := SetConn(s, fd, c).(reactor := Rearm(s.reactor, fd, armed));
    GoodOutput(s, fd);
    FlushKeeps(s.codec, s.conns[fd], script);
    assert Good(s1, {}) && Advances(s, s1) by {
      hide ViewSound, StreamSound, ConnSound, AfterFlush;
      assert c == s.conns[fd].(output := c.output, sent := c.sent) by { FlushShape(s.conns[fd], script); }
      SetConnKeeps(s, fd, c, armed, {});
      hide Core, Advances;
      FlushViews(s, s1, fd, c);
      StreamsCarryOver(s, s1, {});
    }
    if FlushResult(s.conns[fd], script) == Finished {
      hide Good, Advances, Sound, ConnSound;
      var s2 := SetConn(s, fd, c);
      DisconnectGood(s1, fd, {});
      assert {} - {fd} == {};
      ForgetsInterest(s2, fd, armed);
      AdvancesTrans(s, s1, Disconnect(s1, fd));
    } else {
      hide Good, Advances;
    }
  }

  lemma FlushShape(c: Conn, script: seq<WriteResult>)
    requires Sound(c.output)
    ensures AfterFlush(c, script) == c.(output := AfterFlush(c, script).output, sent := AfterFlush(c, script).sent)
  {
  }

  lemma FlushViews(s: Server, s1: Server, fd: Fd, c: Conn)
    requires Views(s, {}) && fd in s.conns && c == s.conns[fd].(output := c.output, sent := c.sent)
    requires s1.conns == s.conns[fd := c] && s1.writers == s.writers && s1.events == s.events
    ensures Views(s1, {})
  {
    hide Faithful;
    forall g | g in s1.conns && g !in {} ensures ViewSound(s1, g) {
      assert ViewSound(s, g);
      FaithfulIgnoresFlags(s.conns[fd], c);
    }
  }

  /** Whether a descriptor was armed makes no difference once it is dropped. */
  lemma ForgetsInterest(s: Server, fd: Fd, armed: bool)
    ensures Disconnect(s.(reactor := Rearm(s.reactor, fd, armed)), fd) == Disconnect(s, fd)
  {
    var gone := Casualties(s, fd);
    assert s.reactor.writable[fd := armed] - gone == s.reactor.writable - gone;
  }

  /** Rearming a connection to what its queue calls for changes nothing in a good state. */
  lemma AlreadyArmed(s: Server, fd: Fd)
    requires Good(s, {}) && fd in s.conns
    ensures Rearm(s.reactor, fd, s.conns[fd].output.chunks != []) == s.reactor
  {
    PeerIsNotTerminal(s, fd, {});
    assert fd in s.reactor.writable by { hide Ownership, Armed, ViewSound, StreamSound, ConnSound, RuntimeSound; }
    hide Ownership, Tables, ViewSound, StreamSound;
    var w := s.reactor.writable;
    assert w[fd := w[fd]] == w;
  }

  /** The write half of a connection's event. */
  ghost function Settle(s: Server, fd: Fd, writable: Option<seq<WriteResult>>): (res: Option<Server>)
    requires Good(s, {}) && fd in s.conns
    ensures res.Some? ==> Good(res.value, {}) && Advances(s, res.value)
  {
    AdvancesRefl(s);
    if writable.None? then Some(s)
    else
      GoodOutput(s, fd);
      var flushed := FlushConn(s, fd, writable.value);
      if flushed.Some? then
        FlushConnGood(s, fd, writable.value);
        flushed
      else None
  }

  /** The read half: every frame that has arrived, then a hang-up if there was one. The flag says
      whether the connection is still there for the write half. */
  ghost function ReadHalf(s: Server, fd: Fd, hangup: bool, inbound: Inbound): (res: (Server, bool))
    requires Good(s, {}) && fd in s.conns
    ensures Good(res.0, {}) && Advances(s, res.0)
    ensures res.1 ==> fd in res.0.conns
  {
    if inbound.ReadError? then
      DisconnectGood(s, fd, {});
      assert {} - {fd} == {};
      (Disconnect(s, fd), false)
    else
      var frames := if inbound.Received? then inbound.frames else [];
      var closed := hangup || (inbound.Received? && inbound.peerClosed);
      var (s1, ok) := ProcessFrames(s, fd, frames);
      if !ok || closed then
        DisconnectGood(s1, fd, {fd});
        assert {fd} - {fd} == {};
        AdvancesTrans(s, s1, Disconnect(s1, fd));
        (Disconnect(s1, fd), false)
      else (s1, true)
  }

  ghost function HandlePeer(s: Server, fd: Fd, hangup: bool, inbound: Inbound,
      writable: Option<seq<WriteResult>>): (res: Option<Server>)
    requires Good(s, {}) && fd in s.conns
    ensures res.Some? ==> Good(res.value, {}) && Advances(s, res.value)
  {
    var (s1, open) := ReadHalf(s, fd, hangup, inbound);
    if !open then Some(s1)
    else
      var settled := Settle(s1, fd, writable);
      if settled.Some? then
        AdvancesTrans(s, s1, settled.value);
        settled
      else None
  }

  // ---- A terminal's turn ----------------------------------------------------------------

  lemma DrainRuntimeEffect(r: RuntimeState, fd: Fd, feed: seq<ReadResult>)
    requires RuntimeSound(r) && fd in r.ptys
    ensures var (r', d) := AfterDrain(r, fd, feed);
            var id := r.ptys[fd];
            var was := r.sessions[id];
            && r'.ptys == r.ptys && r'.sessions.Keys == r.sessions.Keys
            && (forall other :: other in r.sessions && other != id ==> r'.sessions[other] == r.sessions[other])
            && r'.sessions[id] == was.(ring := r'.sessions[id].ring, logState := r'.sessions[id].logState)
            && r'.sessions[id].ring == LastN(was.ring + Concat(d.chunks), was.ringCapacity)
  {
    TerminalHasSession(r, fd);
    assert SessionSound(r.sessions[r.ptys[fd]]);
    DrainFillsRing(r.sessions[r.ptys[fd]], feed);
    hide RuntimeSound, SessionSound, DrainSession, LastN, Concat;
  }

  lemma DrainArmed(s: Server, fd: Fd, feed: seq<ReadResult>)
    requires Armed(s) && RuntimeSound(s.runtime) && fd in s.runtime.ptys
    ensures Armed(s.(runtime := AfterDrain(s.runtime, fd, feed).0))
  {
    DrainRuntimeEffect(s.runtime, fd, feed);
    hide AfterDrain, RuntimeSound, LastN;
  }

  lemma DrainTables(s: Server, r: RuntimeState)
    requires Tables(s, {}) && RuntimeSound(r) && r.ptys == s.runtime.ptys
    ensures Tables(s.(runtime := r), {})
  {
    hide RuntimeSound, RegistrySound, ConnSound;
  }

  lemma DrainOwnership(s: Server, r: RuntimeState)
    requires Ownership(s)
    ensures Ownership(s.(runtime := r))
  {
  }

  lemma DrainCore(s: Server, fd: Fd, feed: seq<ReadResult>)
    requires Core(s, {}) && RuntimeSound(s.runtime) && fd in s.runtime.ptys
    ensures var s0 := s.(runtime := AfterDrain(s.runtime, fd, feed).0);
            Core(s0, {}) && Advances(s, s0)
  {
    TerminalHasSession(s.runtime, fd);
    hide *;
    var r := AfterDrain(s.runtime, fd, feed).0;
    CoreOwns(s, {});
    CoreTables(s, {});
    DrainOutputKeeps(s.runtime, fd, feed);
    DrainRuntimeEffect(s.runtime, fd, feed);
    DrainArmed(s, fd, feed);
    DrainOwnership(s, r);
    DrainTables(s, r);
    CoreParts(s.(runtime := r), {});
    RuntimeAdvances(s, r);
  }

  lemma RuntimeAdvances(s: Server, r: RuntimeState)
    requires Tracks(s.runtime, r)
    ensures Advances(s, s.(runtime := r))
  {
    hide Tracks;
  }

  /** Once its chunks have been published, the ring is again a tail of the stream. */
  lemma DrainStreams(s: Server, s1: Server, fd: Fd, feed: seq<ReadResult>)
    requires Streams(s, {}) && RuntimeSound(s.runtime) && fd in s.runtime.ptys
    requires var id := s.runtime.ptys[fd];
             var (r, d) := AfterDrain(s.runtime, fd, feed);
             && s1.runtime == r && s1.starts == s.starts
             && History(s1, id) == History(s, id) + Chunks(d.chunks)
             && forall other: SessionId :: other != id ==> History(s1, other) == History(s, other)
    ensures Streams(s1, {})
  {
    var id := s.runtime.ptys[fd];
    var d := AfterDrain(s.runtime, fd, feed).1;
    var was := s.runtime.sessions[id];
    DrainRuntimeEffect(s.runtime, fd, feed);
    assert was.pty == Some(fd) && SessionSound(was);
    hide AfterDrain, RuntimeSound, SessionSound;
    forall other: SessionId | other !in {} ensures StreamSound(s1, other) {
      assert StreamSound(s, other);
      if other == id {
        StreamGrows(s, s1, id, d.chunks);
      }
    }
  }

  lemma StreamGrows(s: Server, s1: Server, id: SessionId, chunks: seq<seq<byte>>)
    requires StreamSound(s, id) && id in s.runtime.sessions && id in s1.runtime.sessions
    requires s.runtime.sessions[id].exitCode.None? && s1.runtime.sessions[id].exitCode.None?
    requires var was := s.runtime.sessions[id];
             && s1.runtime.sessions[id].ring == LastN(was.ring + Concat(chunks), was.ringCapacity)
             && s1.runtime.sessions[id].ringCapacity == was.ringCapacity
    requires History(s1, id) == History(s, id) + Chunks(chunks) && s1.starts == s.starts
    ensures StreamSound(s1, id)
  {
    var was := s.runtime.sessions[id];
    var h := History(s, id);
    ChunksAreTheirBytes(chunks);
    assert Windowed(was.ring, was.ringCapacity, h, Begin(s, id));
    assert ExitCount(h) + 1 == Starts(s, id);
    hide StreamSound, Windowed, LastN, Concat, StreamBytes, Chunks, ExitCount;
    StreamBytesAppend(h, Chunks(chunks));
    WindowGrows(was.ring, was.ringCapacity, h, Begin(s, id), Chunks(chunks));
    StreamFrom(s1, id);
  }

  lemma StreamFrom(s: Server, id: SessionId)
    requires IsRunning(s.runtime, id)
    requires Windowed(s.runtime.sessions[id].ring, s.runtime.sessions[id].ringCapacity, History(s, id), Begin(s, id))
    requires ExitCount(History(s, id)) + 1 == Starts(s, id)
    ensures StreamSound(s, id)
  {
    hide Windowed, StreamBytes, ExitCount;
  }

  lemma TerminalHasSession(r: RuntimeState, fd: Fd)
    requires RuntimeSound(r) && fd in r.ptys
    ensures r.ptys[fd] in r.sessions && r.sessions[r.ptys[fd]].pty == Some(fd)
  {
  }

  lemma DrainAndPublish(s: Server, fd: Fd, feed: seq<ReadResult>)
    requires Good(s, {}) && RuntimeSound(s.runtime) && fd in s.runtime.ptys
    ensures var (r, d) := AfterDrain(s.runtime, fd, feed);
            var s1 := Publish(s.(runtime := r), s.runtime.ptys[fd], d.chunks);
            Good(s1, {}) && Advances(s, s1)
  {
    hide Core, ViewSound, StreamSound, RuntimeSound, AfterDrain, Publish, Advances;
    var id := s.runtime.ptys[fd];
    TerminalHasSession(s.runtime, fd);
    var (r, d) := AfterDrain(s.runtime, fd, feed);
    var s0 := s.(runtime := r);
    var s1 := Publish(s0, id, d.chunks);
    DrainCore(s, fd, feed);
    ViewsCarryOver(s, s0, {});
    PublishKeeps(s0, id, d.chunks, {});
    DrainStreams(s, s1, fd, feed);
    AdvancesTrans(s, s0, s1);
  }

  lemma DrainPtyGood(s: Server, fd: Fd, feed: seq<ReadResult>)
    requires Good(s, {}) && DrainPty(s, fd, feed).Some?
    ensures Good(DrainPty(s, fd, feed).value, {})
    ensures Advances(s, DrainPty(s, fd, feed).value)
  {
    GoodRuntime(s);
    if fd !in s.runtime.ptys {
      hide Good, RuntimeSound;
      AdvancesRefl(s);
      return;
    }
    TerminalHasSession(s.runtime, fd);
    hide Good, RuntimeSound, AfterDrain, Publish, Advances, SendControl;
    DrainAndPublish(s, fd, feed);
    var id := s.runtime.ptys[fd];
    var (r, d) := AfterDrain(s.runtime, fd, feed);
    var s1 := Publish(s.(runtime := r), id, d.chunks);
    if d.dropped > 0 {
      SendControlGood(s1, LogDegraded(id, d.dropped));
      AdvancesTrans(s, s1, SendControl(s1, LogDegraded(id, d.dropped)));
    }
  }

  lemma SendControlGood(s: Server, m: Message)
    requires Good(s, {})
    ensures Good(SendControl(s, m), {}) && Advances(s, SendControl(s, m))
    ensures SendControl(s, m).runtime == s.runtime
  {
    hide Core, ViewSound, StreamSound, Advances;
    SendControlKeeps(s, m, {}, {});
    StreamsCarryOver(s, SendControl(s, m), {});
  }

  ghost function HandleTerminal(s: Server, fd: Fd, readable: Option<seq<ReadResult>>,
      writable: Option<seq<WriteResult>>): (res: Option<Server>)
    requires Good(s, {})
    ensures res.Some? ==> Good(res.value, {}) && Advances(s, res.value)
  {
    AdvancesRefl(s);
    var drained := if readable.Some? then DrainPty(s, fd, readable.value) else Some(s);
    if drained.None? then None
    else
      var s1 := drained.value;
      assert Good(s1, {}) && Advances(s, s1) by {
        if readable.Some? { DrainPtyGood(s, fd, readable.value); }
      }
      if writable.Some? && fd in s1.runtime.ptys then
        GoodRuntime(s1);
        var flushed := FlushPty(s1, fd, writable.value);
        if flushed.Some? then
          FlushPtyKeeps(s1, fd, writable.value);
          AdvancesTrans(s, s1, flushed.value);
          flushed
        else None
      else Some(s1)
  }

  // ---- Children ---------------------------------------------------------------------------

  lemma {:induction false} DrainAllGood(s: Server, turns: seq<TerminalRead>)
    requires Good(s, {}) && DrainAll(s, turns).Some?
    ensures Good(DrainAll(s, turns).value, {}) && Advances(s, DrainAll(s, turns).value)
    decreases |turns|
  {
    if turns == [] {
      hide Good;
      AdvancesRefl(s);
    } else {
      var init := DrainAll(s, turns[..|turns| - 1]);
      var last := turns[|turns| - 1];
      DrainAllGood(s, turns[..|turns| - 1]);
      DrainPtyGood(init.value, last.fd, last.feed);
      hide Good, Advances, DrainPty;
      AdvancesTrans(s, init.value, DrainAll(s, turns).value);
    }
  }

  lemma UnregisterTerminal(s: Server, pty: Fd, lingering: set<Fd>)
    requires Core(s, lingering) && pty in lingering
    ensures var s1 := s.(reactor := Unregister(s.reactor, {pty}));
            Core(s1, lingering - {pty}) && Advances(s, s1)
  {
    hide *;
    CoreOwns(s, lingering);
    CoreTables(s, lingering);
    UnregisterTables(s, pty, lingering);
    UnregisterShape(s, pty);
    CoreParts(s.(reactor := Unregister(s.reactor, {pty})), lingering - {pty});
  }

  lemma UnregisterTables(s: Server, pty: Fd, lingering: set<Fd>)
    requires Tables(s, lingering) && pty in lingering
    ensures Tables(s.(reactor := Unregister(s.reactor, {pty})), lingering - {pty})
    ensures Evolves(s.reactor, Unregister(s.reactor, {pty}))
  {
    hide RuntimeSound, RegistrySound, ConnSound, Evolves;
    UnregisterKeeps(s.reactor, {pty});
  }

  lemma UnregisterShape(s: Server, pty: Fd)
    requires Ownership(s) && Armed(s) && Evolves(s.reactor, Unregister(s.reactor, {pty}))
    ensures var s1 := s.(reactor := Unregister(s.reactor, {pty}));
            Ownership(s1) && Armed(s1) && Advances(s, s1)
  {
    hide Evolves;
  }

  /** Announcing one exit records it, once, for everybody still attached. */
  lemma AnnounceKeeps(s: Server, e: ExitedSession, lingering: set<Fd>)
    requires Core(s, lingering) && e.pty in lingering && Views(s, {})
    ensures var s' := AnnounceExit(s, e);
            && Core(s', lingering - {e.pty}) && Views(s', {}) && Advances(s, s')
            && s'.runtime == s.runtime && s'.starts == s.starts
            && History(s', e.session) == History(s, e.session) + [Exit(e.code)]
            && forall other: SessionId :: other != e.session ==> History(s', other) == History(s, other)
  {
    var id := e.session;
    var rest := lingering - {e.pty};
    var s0 := s.(reactor := Unregister(s.reactor, {e.pty}));
    hide Core, ViewSound, Advances, ReleaseWriter, Broadcast, DetachSession, SendControl;
    UnregisterTerminal(s, e.pty, lingering);
    ViewsCarryOver(s, s0, {});
    ReleaseWriterKeeps(s0, id, rest);
    var s1 := ReleaseWriter(s0, id);
    ReleaseFrame(s0, id);
    AdvancesTrans(s, s0, s1);
    var cast := CastExit(id, e.code, e.context);
    CastKeeps(s1, id, cast, rest);
    var s2 := Emit(Broadcast(s1, Attached(s1, id), cast), id, Exit(e.code));
    AdvancesTrans(s, s1, s2);
    var s3 := if e.closing then DetachSession(s2, id) else s2;
    if e.closing {
      DetachSessionKeeps(s2, id, rest);
      DetachFrame(s2, id);
      AdvancesTrans(s, s2, s3);
    }
    if s3.controller.Some? {
      var m := SessionExited(id, e.code, e.context, s3.controller.value.minor == CURRENT_MINOR);
      SendControlKeeps(s3, m, rest, {});
      ControlFrame(s3, m);
      AdvancesTrans(s, s3, SendControl(s3, m));
    }
  }

  lemma ReleaseFrame(s: Server, id: SessionId)
    ensures var s' := ReleaseWriter(s, id);
            s'.runtime == s.runtime && s'.starts == s.starts && s'.events == s.events
  {
  }

  lemma DetachFrame(s: Server, id: SessionId)
    ensures var s' := DetachSession(s, id);
            s'.runtime == s.runtime && s'.starts == s.starts && s'.events == s.events
  {
  }

  lemma ControlFrame(s: Server, m: Message)
    ensures var s' := SendControl(s, m);
            s'.runtime == s.runtime && s'.starts == s.starts && s'.events == s.events
  {
  }

  ghost function Ptys(es: seq<ExitedSession>): set<Fd>
  {
    set i | 0 <= i < |es| :: es[i].pty
  }

  ghost predicate DistinctExits(es: seq<ExitedSession>)
  {
    forall i, j :: 0 <= i < j < |es| ==> es[i].pty != es[j].pty && es[i].session != es[j].session
  }

  function CodesOf(es: seq<ExitedSession>, id: SessionId): seq<StreamEvent>
  {
    if es == [] then []
    else CodesOf(es[..|es| - 1], id) + if es[|es| - 1].session == id then [Exit(es[|es| - 1].code)] else []
  }

  /** `s'` is `s` after the exits `es` have been announced and their terminals unregistered. */
  ghost predicate Announced(s: Server, s': Server, es: seq<ExitedSession>, lingering: set<Fd>)
  {
    && Core(s', lingering) && Views(s', {}) && Advances(s, s')
    && s'.runtime == s.runtime && s'.starts == s.starts
    && Recorded(s, s', es)
  }

  lemma AnnouncedOneMore(s: Server, s1: Server, es: seq<ExitedSession>, lingering: set<Fd>)
    requires es != [] && es[|es| - 1].pty in lingering
    requires Announced(s, s1, es[..|es| - 1], lingering)
    ensures Announced(s, AnnounceExit(s1, es[|es| - 1]), es, lingering - {es[|es| - 1].pty})
  {
    hide Core, Views, Advances, AnnounceExit, History, Recorded;
    var last := es[|es| - 1];
    AnnounceKeeps(s1, last, lingering);
    AdvancesTrans(s, s1, AnnounceExit(s1, last));
    RecordedOneMore(s, s1, AnnounceExit(s1, last), es);
  }

  lemma LastIsDistinct(es: seq<ExitedSession>)
    requires DistinctExits(es) && es != []
    ensures var init := es[..|es| - 1];
            var last := es[|es| - 1];
            DistinctExits(init) && last.pty !in Ptys(init) && Ptys(es) == Ptys(init) + {last.pty}
  {
    var init := es[..|es| - 1];
    assert init + [es[|es| - 1]] == es;
    PtysSnoc(init, es[|es| - 1]);
  }

  /** Announcing a batch of exits: each session's history grows by its own exit code only. */
  lemma {:induction false} AnnounceAllKeeps(s: Server, es: seq<ExitedSession>, lingering: set<Fd>)
    requires Core(s, lingering) && Views(s, {}) && DistinctExits(es) && Ptys(es) <= lingering
    ensures Announced(s, AnnounceAll(s, es), es, lingering - Ptys(es))
    decreases |es|
  {
    if es == [] {
      hide Core, ViewSound;
      AdvancesRefl(s);
      assert lingering - Ptys(es) == lingering;
    } else {
      hide Core, Views, AnnounceExit, Announced, Ptys, DistinctExits;
      var init := es[..|es| - 1];
      var last := es[|es| - 1];
      LastIsDistinct(es);
      AnnounceAllKeeps(s, init, lingering);
      AnnouncedOneMore(s, AnnounceAll(s, init), es, lingering - Ptys(init));
      assert lingering - Ptys(init) - {last.pty} == lingering - Ptys(es);
    }
  }

  ghost predicate Recorded(s: Server, s': Server, es: seq<ExitedSession>)
  {
    forall id: SessionId :: History(s', id) == History(s, id) + CodesOf(es, id)
  }

  lemma RecordedOneMore(s: Server, s1: Server, s2: Server, es: seq<ExitedSession>)
    requires es != [] && Recorded(s, s1, es[..|es| - 1])
    requires var last := es[|es| - 1];
             && History(s2, last.session) == History(s1, last.session) + [Exit(last.code)]
             && forall other: SessionId :: other != last.session ==> History(s2, other) == History(s1, other)
    ensures Recorded(s, s2, es)
  {
    hide History;
    var init := es[..|es| - 1];
    var last := es[|es| - 1];
    forall id: SessionId ensures History(s2, id) == History(s, id) + CodesOf(es, id) {
      assert History(s1, id) == History(s, id) + CodesOf(init, id);
      if id == last.session {
        assert History(s, id) + CodesOf(init, id) + [Exit(last.code)]
               == History(s, id) + (CodesOf(init, id) + [Exit(last.code)]);
      } else {
        assert CodesOf(init, id) + [] == CodesOf(init, id);
      }
    }
  }

  lemma {:induction false} CodesOfReports(r: RuntimeState, reaps: seq<Reap>, id: SessionId)
    requires RuntimeSound(r) && Reapable(r, reaps)
    ensures !Named(reaps, id) ==> CodesOf(Reports(r, reaps), id) == []
    ensures forall k ::
              0 <= k < |reaps| && reaps[k].session == id ==> CodesOf(Reports(r, reaps), id) == [Exit(reaps[k].code)]
    decreases |reaps|
  {
    if reaps != [] {
      var init := reaps[..|reaps| - 1];
      var last := reaps[|reaps| - 1];
      ReportsSnoc(r, reaps);
      hide RuntimeSound, Reports;
      CodesOfReports(r, init, id);
      assert forall i :: 0 <= i < |init| ==> init[i] == reaps[i];
      if last.session == id {
        assert !Named(init, id);
      }
    }
  }

  lemma ReportsSnoc(r: RuntimeState, reaps: seq<Reap>)
    requires RuntimeSound(r) && Reapable(r, reaps) && reaps != []
    ensures var init := reaps[..|reaps| - 1];
            var last := reaps[|reaps| - 1];
            && Reapable(r, init)
            && Reports(r, reaps)[..|reaps| - 1] == Reports(r, init)
            && Reports(r, reaps)[|reaps| - 1].session == last.session
                 && Reports(r, reaps)[|reaps| - 1].code == last.code
  {
    var init := reaps[..|reaps| - 1];
    assert forall i :: 0 <= i < |init| ==> init[i] == reaps[i];
  }

  lemma {:induction false} ReapAllPtys(r: RuntimeState, reaps: seq<Reap>)
    requires RuntimeSound(r) && Reapable(r, reaps)
    ensures ReapAll(r, reaps).ptys.Keys == r.ptys.Keys - Ptys(Reports(r, reaps))
    ensures Ptys(Reports(r, reaps)) <= r.ptys.Keys
    decreases |reaps|
  {
    if reaps == [] {
      assert Ptys(Reports(r, reaps)) == {};
    } else {
      var init := reaps[..|reaps| - 1];
      var last := reaps[|reaps| - 1];
      ReapAllPtys(r, init);
      assert !Named(init, last.session);
      ReapAllOther(r, init, last.session);
      assert r.sessions[last.session].pty.value in r.ptys;
      hide RuntimeSound;
      assert Reports(r, reaps) == Reports(r, init) + [Report(r, last)];
      assert Ptys(Reports(r, reaps)) == Ptys(Reports(r, init)) + {Report(r, last).pty} by {
        PtysSnoc(Reports(r, init), Report(r, last));
      }
    }
  }

  lemma PtysSnoc(es: seq<ExitedSession>, e: ExitedSession)
    ensures Ptys(es + [e]) == Ptys(es) + {e.pty}
  {
    var all := es + [e];
    forall fd | fd in Ptys(es) ensures fd in Ptys(all) {
      var i :| 0 <= i < |es| && es[i].pty == fd;
      assert all[i].pty == fd;
    }
    assert all[|es|].pty == e.pty;
  }

  lemma ReportsAreDistinct(r: RuntimeState, reaps: seq<Reap>)
    requires RuntimeSound(r) && Reapable(r, reaps)
    ensures DistinctExits(Reports(r, reaps))
  {
  }

  lemma ReapTables(s: Server, r: RuntimeState, lingering: set<Fd>)
    requires Tables(s, {}) && RuntimeSound(r)
    requires r.ptys.Keys == s.runtime.ptys.Keys - lingering && lingering <= s.runtime.ptys.Keys
    ensures Tables(s.(runtime := r), lingering)
  {
    hide RuntimeSound, RegistrySound, ConnSound;
  }

  lemma ReapArmed(s: Server, reaps: seq<Reap>)
    requires Armed(s)
    ensures Armed(s.(runtime := ReapAll(s.runtime, reaps)))
  {
    ReapAllShape(s.runtime, reaps);
    hide ReapAll;
  }

  lemma ReapCore(s: Server, reaps: seq<Reap>)
    requires Core(s, {}) && RuntimeSound(s.runtime) && Reapable(s.runtime, reaps)
    ensures var s1 := s.(runtime := ReapAll(s.runtime, reaps));
            var lingering := Ptys(Reports(s.runtime, reaps));
            Core(s1, lingering) && Advances(s, s1)
  {
    hide Ownership, Tables, Armed, RuntimeSound, Tracks, ReapAll, Reports, Ptys, Reapable;
    var r := ReapAll(s.runtime, reaps);
    ReapAllKeeps(s.runtime, reaps);
    ReapAllPtys(s.runtime, reaps);
    DrainOwnership(s, r);
    ReapTables(s, r, Ptys(Reports(s.runtime, reaps)));
    ReapArmed(s, reaps);
  }

  /** Reaping leaves the surviving terminals and every input queue where they were. */
  lemma {:induction false} ReapAllShape(r: RuntimeState, reaps: seq<Reap>)
    ensures var r' := ReapAll(r, reaps);
            && (forall fd :: fd in r'.ptys ==> fd in r.ptys && r'.ptys[fd] == r.ptys[fd])
            && r'.sessions.Keys == r.sessions.Keys
            && (forall id :: id in r.sessions ==>
                  (r'.sessions[id].input == r.sessions[id].input
                   && r'.sessions[id].stuck == r.sessions[id].stuck
                   && r'.sessions[id].ring == r.sessions[id].ring))
  {
    if reaps != [] {
      ReapAllShape(r, reaps[..|reaps| - 1]);
    }
  }

  lemma ReapStreamsOf(s: Server, s2: Server, reaps: seq<Reap>, id: SessionId)
    requires StreamSound(s, id) && RuntimeSound(s.runtime) && Reapable(s.runtime, reaps)
    requires s2.runtime == ReapAll(s.runtime, reaps) && s2.starts == s.starts
    requires History(s2, id) == History(s, id) + CodesOf(Reports(s.runtime, reaps), id)
    ensures StreamSound(s2, id)
  {
    CodesOfReports(s.runtime, reaps, id);
    if Named(reaps, id) {
      var k :| 0 <= k < |reaps| && reaps[k].session == id;
      assert IsRunning(s.runtime, id);
      ReapAllNamed(s.runtime, reaps, k);
      hide CodesOf, Named, Reports, Reapable, RuntimeSound, ReapAll, StreamSound;
      ExitSettles(s, s2, id, reaps[k]);
    } else {
      ReapAllOther(s.runtime, reaps, id);
      hide CodesOf, Named, Reports, Reapable, RuntimeSound, ReapAll, StreamSound;
      assert History(s, id) + [] == History(s, id);
      SameStream(s, s2, id);
    }
  }

  lemma SameStream(s: Server, s2: Server, id: SessionId)
    requires StreamSound(s, id) && s2.starts == s.starts && History(s2, id) == History(s, id)
    requires id in s2.runtime.sessions <==> id in s.runtime.sessions
    requires id in s.runtime.sessions ==> s2.runtime.sessions[id] == s.runtime.sessions[id]
    ensures StreamSound(s2, id)
  {
    hide Windowed, ExitCount;
  }

  /** Recording exactly the exits that happened settles every session's account. */
  lemma ReapStreams(s: Server, s1: Server, s2: Server, reaps: seq<Reap>)
    requires Streams(s, {}) && RuntimeSound(s.runtime) && Reapable(s.runtime, reaps)
    requires s1 == s.(runtime := ReapAll(s.runtime, reaps))
    requires s2.runtime == s1.runtime && s2.starts == s1.starts && Recorded(s1, s2, Reports(s.runtime, reaps))
    ensures Streams(s2, {})
  {
    hide RuntimeSound, ReapAll, CodesOf, Reapable, StreamSound, Reports;
    forall id: SessionId | id !in {} ensures StreamSound(s2, id) {
      assert History(s2, id) == History(s1, id) + CodesOf(Reports(s.runtime, reaps), id);
      assert History(s1, id) == History(s, id);
      ReapStreamsOf(s, s2, reaps, id);
    }
  }

  lemma ExitSettles(s: Server, s2: Server, id: SessionId, e: Reap)
    requires StreamSound(s, id) && IsRunning(s.runtime, id) && id in s2.runtime.sessions
    requires s2.runtime.sessions[id] == Exited(s.runtime.sessions[id], e)
    requires History(s2, id) == History(s, id) + [Exit(e.code)] && s2.starts == s.starts
    ensures StreamSound(s2, id)
  {
    var h := History(s, id);
    var was := s.runtime.sessions[id];
    assert (h + [Exit(e.code)])[..|h|] == h;
    assert ExitCount(h + [Exit(e.code)]) == ExitCount(h) + 1;
    hide ExitCount, StreamBytes, Windowed;
    ExitPrintsNothing(was.ring, was.ringCapacity, h, Begin(s, id), e.code);
  }

  lemma ExitPrintsNothing(ring: seq<byte>, capacity: nat, history: seq<StreamEvent>, begin: nat, code: int)
    requires Windowed(ring, capacity, history, begin)
    ensures Windowed(ring, capacity, history + [Exit(code)], begin)
  {
    assert [Exit(code)][..0] == [] && StreamBytes([Exit(code)]) == [];
    assert |ring| <= capacity && ring + [] == ring;
    WindowGrows(ring, capacity, history, begin, [Exit(code)]);
    hide StreamBytes, Windowed;
  }

  lemma ChildrenGood(s: Server, reaps: seq<Reap>)
    requires Good(s, {}) && RuntimeSound(s.runtime) && Reapable(s.runtime, reaps)
    ensures var s1 := s.(runtime := ReapAll(s.runtime, reaps));
            var s2 := AnnounceAll(s1, Reports(s.runtime, reaps));
            Good(s2, {}) && Advances(s, s2)
  {
    hide Core, ViewSound, StreamSound, Advances, RuntimeSound, ReapAll, AnnounceAll, Recorded;
    var s1 := s.(runtime := ReapAll(s.runtime, reaps));
    var es := Reports(s.runtime, reaps);
    var s2 := AnnounceAll(s1, es);
    ReapCore(s, reaps);
    ViewsCarryOver(s, s1, {});
    ReportsAreDistinct(s.runtime, reaps);
    hide Reports, DistinctExits, Ptys;
    AnnounceAllKeeps(s1, es, Ptys(es));
    assert Ptys(es) - Ptys(es) == {};
    ReapStreams(s, s1, s2, reaps);
    AdvancesTrans(s, s1, s2);
  }

  lemma HandleChildrenGood(s: Server, turns: seq<TerminalRead>, reaps: seq<Reap>)
    requires Good(s, {}) && HandleChildren(s, turns, reaps).Some?
    ensures Good(HandleChildren(s, turns, reaps).value, {})
    ensures Advances(s, HandleChildren(s, turns, reaps).value)
  {
    hide Good, Advances, RuntimeSound, DrainAll, ReapAll, AnnounceAll, Reports, Reapable;
    DrainAllGood(s, turns);
    var s1 := DrainAll(s, turns).value;
    if RuntimeSound(s1.runtime) && Reapable(s1.runtime, reaps) {
      ChildrenGood(s1, reaps);
      AdvancesTrans(s, s1, HandleChildren(s, turns, reaps).value);
    }
  }

  // ---- Log failures and new peers ------------------------------------------------------------

  lemma LogFailedArmed(s: Server, id: SessionId)
    requires Armed(s)
    ensures Armed(s.(runtime := LogFailed(s.runtime, id)))
  {
  }

  lemma LogFailedShape(s: Server, id: SessionId)
    ensures SameStreams(s, s.(runtime := LogFailed(s.runtime, id)))
    ensures LogFailed(s.runtime, id).ptys == s.runtime.ptys
  {
  }

  lemma LogFailedGood(s: Server, id: SessionId)
    requires Good(s, {})
    ensures var s1 := s.(runtime := LogFailed(s.runtime, id));
            Good(s1, {}) && Advances(s, s1)
  {
    hide Ownership, Tables, Armed, ViewSound, StreamSound, RuntimeSound, Tracks, SameStreams, LogFailed;
    var r := LogFailed(s.runtime, id);
    var s1 := s.(runtime := r);
    GoodRuntime(s);
    LogFailedKeeps(s.runtime, id);
    LogFailedShape(s, id);
    DrainOwnership(s, r);
    DrainTables(s, r);
    LogFailedArmed(s, id);
    ViewsCarryOver(s, s1, {});
    StreamsCarryOver(s, s1, {});
  }

  lemma {:induction false} LogTroubleGood(s: Server, failures: seq<Failure>)
    requires Good(s, {})
    ensures Good(HandleLogFailures(s, failures), {}) && Advances(s, HandleLogFailures(s, failures))
    decreases |failures|
  {
    if failures == [] {
      hide Good;
      AdvancesRefl(s);
    } else {
      hide Good, Advances, SendControl, LogFailed;
      var last := failures[|failures| - 1];
      LogTroubleGood(s, failures[..|failures| - 1]);
      var s1 := HandleLogFailures(s, failures[..|failures| - 1]);
      LogFailedGood(s1, last.session);
      var s2 := s1.(runtime := LogFailed(s1.runtime, last.session));
      SendControlGood(s2, LogDegraded(last.session, last.dropped));
      AdvancesTrans(s, s1, s2);
      AdvancesTrans(s, s2, HandleLogFailures(s, failures));
    }
  }

  lemma AcceptTables(s: Server, fd: Fd, pid: nat, uid: nat)
    requires Tables(s, {}) && CanOpen(s, fd)
    ensures Tables(AcceptConn(s, fd, pid, uid), {})
    ensures Evolves(s.reactor, AcceptConn(s, fd, pid, uid).reactor)
  {
    assert ConnSound(s.codec, FreshConn(pid, uid));
    assert RegistrySound(s.reactor) by { hide RegistrySound, RuntimeSound, ConnSound; }
    hide Tables, RuntimeSound, RegistrySound, ConnSound, Evolves, FreshConn, Register;
    RegisterKeeps(s.reactor, fd, false);
    RegisterKeys(s.reactor, fd, false);
    OneMorePeer(s, AcceptConn(s, fd, pid, uid), fd);
  }

  lemma AcceptOwnership(s: Server, fd: Fd, pid: nat, uid: nat)
    requires Ownership(s) && fd !in s.conns
    ensures Ownership(AcceptConn(s, fd, pid, uid))
  {
  }

  lemma AcceptArmed(s: Server, fd: Fd, pid: nat, uid: nat)
    requires Armed(s) && fd !in s.conns && fd !in s.runtime.ptys
    ensures Armed(AcceptConn(s, fd, pid, uid))
  {
  }

  lemma AcceptViews(s: Server, fd: Fd, pid: nat, uid: nat)
    requires Views(s, {}) && fd !in s.conns
    ensures Views(AcceptConn(s, fd, pid, uid), {})
  {
    hide Faithful;
    var s1 := AcceptConn(s, fd, pid, uid);
    forall g | g in s1.conns && g !in {} ensures ViewSound(s1, g) {
      if g in s.conns {
        assert ViewSound(s, g);
      }
    }
  }

  lemma AcceptShape(s: Server, fd: Fd, pid: nat, uid: nat)
    requires Evolves(s.reactor, AcceptConn(s, fd, pid, uid).reactor)
    ensures Advances(s, AcceptConn(s, fd, pid, uid)) && SameStreams(s, AcceptConn(s, fd, pid, uid))
  {
    hide Evolves, Register;
  }

  lemma AcceptGood(s: Server, fd: Fd, pid: nat, uid: nat)
    requires Good(s, {})
    ensures Good(AcceptConn(s, fd, pid, uid), {}) && Advances(s, AcceptConn(s, fd, pid, uid))
  {
    if CanOpen(s, fd) {
      hide *;
      GoodParts(s, {});
      CoreOwns(s, {});
      CoreTables(s, {});
      OpeningIsNew(s, fd);
      AcceptTables(s, fd, pid, uid);
      AcceptOwnership(s, fd, pid, uid);
      AcceptArmed(s, fd, pid, uid);
      AcceptViews(s, fd, pid, uid);
      AcceptShape(s, fd, pid, uid);
      CoreParts(AcceptConn(s, fd, pid, uid), {});
      StreamsCarryOver(s, AcceptConn(s, fd, pid, uid), {});
      MakeGood(AcceptConn(s, fd, pid, uid), {});
    } else {
      hide Good;
      AdvancesRefl(s);
    }
  }

  // ---- Steps and runs -------------------------------------------------------------------------

  /** One event. `None`: the Holder has stopped on an I/O error. Events for descriptors that are
      no longer what they were are dropped by the dispatcher. */
  ghost function Step(s: Server, e: HolderEvent): (res: Option<Server>)
    requires Good(s, {})
    ensures res.Some? ==> Good(res.value, {}) && Advances(s, res.value)
  {
    AdvancesRefl(s);
    match e
    case Accept(fd, pid, uid) =>
      AcceptGood(s, fd, pid, uid);
      Some(AcceptConn(s, fd, pid, uid))
    case Terminal(fd, readable, writable) =>
      if fd in s.runtime.ptys then HandleTerminal(s, fd, readable, writable) else Some(s)
    case Peer(fd, hangup, inbound, writable) =>
      if fd in s.conns then HandlePeer(s, fd, hangup, inbound, writable) else Some(s)
    case Children(turns, reaps) =>
      var res := HandleChildren(s, turns, reaps);
      assert res.Some? ==> Good(res.value, {}) && Advances(s, res.value) by {
        if res.Some? { HandleChildrenGood(s, turns, reaps); }
      }
      res
    case LogTrouble(failures) =>
      LogTroubleGood(s, failures);
      Some(HandleLogFailures(s, failures))
  }

  /** A run of events from `s`, or `None` if the Holder stopped on the way. */
  ghost function Exec(s: Server, es: seq<HolderEvent>): (res: Option<Server>)
    requires Good(s, {})
    ensures res.Some? ==> Good(res.value, {}) && Advances(s, res.value)
    decreases |es|
  {
    if es == [] then
      AdvancesRefl(s);
      Some(s)
    else
      var next := Step(s, es[0]);
      if next.None? then None
      else
        var rest := Exec(next.value, es[1..]);
        if rest.Some? then
          AdvancesTrans(s, next.value, rest.value);
          rest
        else None
  }
}
