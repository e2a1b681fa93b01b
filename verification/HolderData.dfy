/** Data requests, terminals and children keep the invariant of HolderInvariants. */
module HolderData {
  import opened Bytes
  import opened ByteQueues
  import opened HolderFrames
  import opened Connections
  import opened Reactors
  import opened HolderRuntimes
  import opened HolderStates
  import opened HolderInvariants
  import opened HolderSteps
  import opened HolderKeeps

  // ---- Terminal input ---------------------------------------------------------------

  /** What input handling may do to the runtime: one session's queue moves, nothing else. */
  ghost predicate OnlyInput(r: RuntimeState, r': RuntimeState, id: SessionId)
  {
    && id in r.sessions
    && (exists session: Session :: r' == r.(sessions := r.sessions[id := session])
          && session == r.sessions[id].(input := session.input, accepted := session.accepted,
                                        delivered := session.delivered, stuck := session.stuck))
  }

  /** Whether a terminal's write interest matches its queue. */
  predicate InterestFits(session: Session, armed: bool)
  {
    && (armed ==> session.input.chunks != [])
    && (!session.stuck && session.input.chunks != [] ==> armed)
  }

  lemma FlushEffect(r: RuntimeState, id: SessionId, script: seq<WriteResult>, armed: bool)
    requires id in r.sessions && Sound(r.sessions[id].input) && r.sessions[id].pty.Some?
    requires armed ==> r.sessions[id].input.chunks != []
    ensures var (r', res) := AfterFlushInput(r, id, script);
            && OnlyInput(r, r', id)
            && InterestFits(r'.sessions[id], if res.InputPending? then res.pending else armed)
  {
    var (r', res) := AfterFlushInput(r, id, script);
    DrainStops(r.sessions[id].input, script);
    var session := r'.sessions[id];
    assert r' == r.(sessions := r.sessions[id := session]);
  }

  lemma QueueEffect(r: RuntimeState, id: SessionId, data: seq<byte>, script: seq<WriteResult>, armed: bool)
    requires id in r.sessions && SessionSound(r.sessions[id]) && InterestFits(r.sessions[id], armed)
    ensures var (r', res) := AfterQueueInput(r, id, data, script);
            && OnlyInput(r, r', id)
            && (r.sessions[id].pty.Some? ==>
                  InterestFits(r'.sessions[id], if res.InputPending? then res.pending else armed))
            && (res.InputPending? ==> r.sessions[id].pty.Some?)
  {
    var (r', res) := AfterQueueInput(r, id, data, script);
    if AcceptsInput(r, id, data) {
      PushAppends(r.sessions[id].input, data);
      var r1 := r.(sessions := r.sessions[id := WithInput(r.sessions[id], data)]);
      FlushEffect(r1, id, script, armed);
      var session := r'.sessions[id];
      assert r' == r.(sessions := r.sessions[id := session]);
    } else {
      assert r' == r.(sessions := r.sessions[id := r.sessions[id]]);
    }
  }

  lemma InputArmed(s: Server, r: RuntimeState, id: SessionId, pty: Fd, armed: bool)
    requires Armed(s) && OnlyInput(s.runtime, r, id) && r.sessions[id].pty == Some(pty)
    requires pty !in s.conns && InterestFits(r.sessions[id], armed)
    requires forall fd :: fd in s.runtime.ptys ==> (s.runtime.ptys[fd] == id <==> fd == pty)
    ensures Armed(s.(runtime := r, reactor := Rearm(s.reactor, pty, armed)))
  {
  }

  lemma InputTables(s: Server, r: RuntimeState, pty: Fd, armed: bool)
    requires Tables(s, {}) && RuntimeSound(r) && r.ptys == s.runtime.ptys && pty in r.ptys
    ensures Tables(s.(runtime := r, reactor := Rearm(s.reactor, pty, armed)), {})
    ensures Evolves(s.reactor, Rearm(s.reactor, pty, armed))
  {
    hide RuntimeSound, ConnSound;
    assert pty in s.reactor.tokens;
  }

  lemma InputOwnership(s: Server, r: RuntimeState, pty: Fd, armed: bool)
    requires Ownership(s)
    ensures Ownership(s.(runtime := r, reactor := Rearm(s.reactor, pty, armed)))
  {
  }

  lemma TerminalIsItsOwn(s: Server, id: SessionId, pty: Fd)
    requires Core(s, {}) && id in s.runtime.sessions && s.runtime.sessions[id].pty == Some(pty)
    ensures pty in s.runtime.ptys && pty !in s.conns
    ensures forall fd :: fd in s.runtime.ptys ==> (s.runtime.ptys[fd] == id <==> fd == pty)
  {
    RuntimeIsSound(s, {});
    assert pty in s.runtime.ptys && forall fd :: fd in s.runtime.ptys ==> (s.runtime.ptys[fd] == id <==> fd == pty) by {
      hide Core, SessionSound;
    }
    hide Ownership, Armed, RuntimeSound, RegistrySound, ConnSound;
  }

  lemma InputCore(s: Server, r: RuntimeState, id: SessionId, pty: Fd, armed: bool)
    requires Core(s, {}) && RuntimeSound(r)
    requires OnlyInput(s.runtime, r, id) && r.sessions[id].pty == Some(pty)
    requires InterestFits(r.sessions[id], armed)
    ensures Core(s.(runtime := r, reactor := Rearm(s.reactor, pty, armed)), {})
    ensures Evolves(s.reactor, Rearm(s.reactor, pty, armed))
  {
    OnlyInputPtys(s.runtime, r, id);
    TerminalIsItsOwn(s, id, pty);
    hide RuntimeSound, OnlyInput, InterestFits, Ownership, Tables, Armed, Evolves;
    InputOwnership(s, r, pty, armed);
    InputTables(s, r, pty, armed);
    InputArmed(s, r, id, pty, armed);
  }

  /** A terminal's queue and its write interest move together. */
  lemma InputGood(s: Server, r: RuntimeState, id: SessionId, pty: Fd, armed: bool)
    requires Good(s, {}) && RuntimeSound(r) && Tracks(s.runtime, r)
    requires OnlyInput(s.runtime, r, id) && r.sessions[id].pty == Some(pty)
    requires InterestFits(r.sessions[id], armed)
    ensures var s' := s.(runtime := r, reactor := Rearm(s.reactor, pty, armed));
            Good(s', {}) && Advances(s, s')
  {
    var s' := s.(runtime := r, reactor := Rearm(s.reactor, pty, armed));
    hide Core, ViewSound, StreamSound, RuntimeSound, InterestFits, Tracks, Evolves;
    OnlyInputPtys(s.runtime, r, id);
    assert SameStreams(s, s');
    hide OnlyInput, SameStreams;
    InputCore(s, r, id, pty, armed);
    ViewsCarryOver(s, s', {});
    StreamsCarryOver(s, s', {});
  }

  lemma OnlyInputPtys(r: RuntimeState, r': RuntimeState, id: SessionId)
    requires OnlyInput(r, r', id)
    ensures r'.ptys == r.ptys && id in r'.sessions && r'.sessions[id].pty == r.sessions[id].pty
  {
  }

  /** In a good state a terminal is registered, and its interest matches its queue. */
  lemma TerminalFacts(s: Server, id: SessionId, pty: Fd)
    requires Good(s, {}) && id in s.runtime.sessions && s.runtime.sessions[id].pty == Some(pty)
    ensures RuntimeSound(s.runtime) && pty in s.runtime.ptys && pty in s.reactor.writable
    ensures InterestFits(s.runtime.sessions[id], s.reactor.writable[pty])
    ensures Rearm(s.reactor, pty, s.reactor.writable[pty]) == s.reactor
  {
    RuntimeIsSound(s, {});
    assert pty in s.runtime.ptys && s.runtime.ptys[pty] == id by { hide Core, ViewSound, StreamSound, SessionSound; }
    assert pty in s.reactor.writable by { hide Ownership, Armed, ViewSound, StreamSound, RuntimeSound, ConnSound; }
    hide Ownership, Tables, ViewSound, StreamSound, RuntimeSound;
    var w := s.reactor.writable;
    assert w[pty := w[pty]] == w;
  }

  lemma InputMoves(s: Server, id: SessionId, pty: Fd, data: seq<byte>, script: seq<WriteResult>)
    requires Good(s, {}) && id in s.runtime.sessions && s.runtime.sessions[id].pty == Some(pty)
    ensures RuntimeSound(s.runtime) && pty in s.reactor.writable
    ensures var (r, res) := AfterQueueInput(s.runtime, id, data, script);
            var s' := s.(runtime := r, reactor := Rearm(s.reactor, pty, if res.InputPending? then res.pending
              else s.reactor.writable[pty]));
            && id in r.sessions && r.sessions[id].pty == Some(pty)
            && Good(s', {}) && Advances(s, s')
            && (res.InputRefused? ==> s' == s.(runtime := r))
  {
    TerminalFacts(s, id, pty);
    var was := s.reactor.writable[pty];
    assert SessionSound(s.runtime.sessions[id]) by { hide Good, SessionSound; }
    hide Good, Advances, SessionSound, InterestFits, AfterQueueInput, Tracks;
    QueueEffect(s.runtime, id, data, script, was);
    hide RuntimeSound;
    QueueInputKeeps(s.runtime, id, data, script);
    var (r, res) := AfterQueueInput(s.runtime, id, data, script);
    OnlyInputPtys(s.runtime, r, id);
    hide OnlyInput;
    InputGood(s, r, id, pty, if res.InputPending? then res.pending else was);
  }

  lemma InputKeeps(s: Server, fd: Fd, data: seq<byte>, script: seq<WriteResult>)
    requires Good(s, {}) && fd in s.conns && RuntimeSound(s.runtime)
    ensures Handled(s, fd, HandleInput(s, fd, data, script))
  {
    AdvancesRefl(s);
    hide Good, Advances;
    var writer := RequireWriter(s, fd);
    if writer.None? {
      RefusedHandled(s, s, fd);
      return;
    }
    var id := writer.value;
    assert s.runtime.sessions[id].pty.Some?;
    hide RuntimeSound, AfterQueueInput;
    InputMoves(s, id, s.runtime.sessions[id].pty.value, data, script);
    GoodWeakens(HandleInput(s, fd, data, script).0, {fd});
  }

  lemma FlushPtyKeeps(s: Server, fd: Fd, script: seq<WriteResult>)
    requires Good(s, {}) && RuntimeSound(s.runtime) && fd in s.runtime.ptys
    requires FlushPty(s, fd, script).Some?
    ensures Good(FlushPty(s, fd, script).value, {})
    ensures Advances(s, FlushPty(s, fd, script).value)
  {
    var id := s.runtime.ptys[fd];
    assert s.runtime.sessions[id].pty == Some(fd) by { hide Good; }
    TerminalFacts(s, id, fd);
    FlushEffect(s.runtime, id, script, s.reactor.writable[fd]);
    FlushInputKeeps(s.runtime, id, script);
    var (r, res) := AfterFlushInput(s.runtime, id, script);
    hide Good, RuntimeSound, Tracks, AfterFlushInput, InterestFits;
    assert r.sessions[id].pty == Some(fd);
    hide OnlyInput;
    InputGood(s, r, id, fd, res.pending);
  }

  // ---- Attaching -----------------------------------------------------------------------

  function EventsOf(frames: seq<Frame>): seq<StreamEvent>
  {
    if frames == [] then [] else EventsOf(frames[..|frames| - 1]) + EventOf(frames[|frames| - 1].message)
  }

  function WordOf(frames: seq<Frame>, start: WriterView): WriterView
  {
    if frames == [] then start
    else match frames[|frames| - 1].message
      case WriteGranted(_) => Granted
      case WriteRevoked(_) => Revoked
      case _ => WordOf(frames[..|frames| - 1], start)
  }

  lemma {:induction false} EventsOfAppend(a: seq<Frame>, b: seq<Frame>, start: WriterView)
    ensures EventsOf(a + b) == EventsOf(a) + EventsOf(b)
    ensures WordOf(a + b, start) == WordOf(b, WordOf(a, start))
  {
    if b == [] {
      assert a + b == a;
    } else {
      hide EventsOf, WordOf, EventOf;
      EventsOfAppend(a, b[..|b| - 1], start);
      InitOfAppend(a, b);
      EventsOfLast(a + b, start);
      EventsOfLast(b, WordOf(a, start));
      Associate(EventsOf(a), EventsOf(b[..|b| - 1]), EventOf(b[|b| - 1].message));
    }
  }

  lemma {:induction false} OutputsRead(s: Server, parts: seq<seq<byte>>, start: WriterView)
    ensures EventsOf(Events(s, Outputs(parts))) == Chunks(parts)
    ensures WordOf(Events(s, Outputs(parts)), start) == start
  {
    if parts != [] {
      var init := parts[..|parts| - 1];
      OutputsRead(s, init, start);
      OutputsSnoc(s, parts);
      hide Events, Outputs;
    }
  }

  lemma OutputsSnoc(s: Server, parts: seq<seq<byte>>)
    requires parts != []
    ensures var fs := Events(s, Outputs(parts));
            && |fs| == |parts| && fs[|fs| - 1] == Event(s, Output(parts[|parts| - 1]))
            && fs[..|fs| - 1] == Events(s, Outputs(parts[..|parts| - 1]))
  {
  }

  lemma EventsOfOne(f: Frame, start: WriterView)
    ensures EventsOf([f]) == EventOf(f.message)
    ensures WordOf([f], start) == match f.message
                                  case WriteGranted(_) => Granted
                                  case WriteRevoked(_) => Revoked
                                  case _ => start
  {
    assert [f][..0] == [];
  }

  /** A newly attached client is sent its replay, and told whether it may write. */
  lemma WelcomeReads(s: Server, fd: Fd, f: InFrame, request: AttachRequest)
    requires fd in s.conns
    ensures EventsOf(Welcome(s, fd, f, request)) == Chunks(s.conns[fd].replay)
    ensures WordOf(Welcome(s, fd, f, request), Silent) == if request.readWrite then Granted else Silent
  {
    hide EventsOf, WordOf, Outputs, Events, Chunks;
    var ack := Reply(s, f, OperationResp(AttachResp, request.session, OpOk));
    var outputs := Events(s, Outputs(s.conns[fd].replay));
    var grant := Event(s, WriteGranted(request.session));
    EventsOfOne(ack, Silent);
    OutputsRead(s, s.conns[fd].replay, Silent);
    EventsOfAppend([ack], outputs, Silent);
    if request.readWrite {
      EventsOfOne(grant, Silent);
      EventsOfAppend([ack] + outputs, [grant], Silent);
    } else {
      assert [ack] + outputs + [] == [ack] + outputs;
    }
  }

  lemma {:induction false} QueueAllGood(s: Server, fd: Fd, frames: seq<Frame>)
    requires Good(s, {fd}) && fd in s.conns
    ensures var s' := QueueAll(s, fd, frames).0;
            && Good(s', {fd}) && Advances(s, s') && fd in s'.conns
            && s'.writers == s.writers && s'.events == s.events && s'.runtime == s.runtime
    decreases |frames|
  {
    if frames == [] {
      hide Good;
      AdvancesRefl(s);
    } else {
      var init := frames[..|frames| - 1];
      var f := frames[|frames| - 1];
      QueueAllGood(s, fd, init);
      var (s1, ok) := QueueAll(s, fd, init);
      if ok && CanQueue(s1, fd, f) {
        QueueOneGood(s1, fd, f);
        hide Good, Advances;
        AdvancesTrans(s, s1, QueueFrame(s1, fd, f));
      }
    }
  }

  /** `d` is `c` after `frames` have been queued to it. */
  ghost predicate HasRead(c: Conn, d: Conn, frames: seq<Frame>)
  {
    && d == c.(log := d.log, output := d.output)
    && c.mark <= |c.log| && d.mark <= |d.log|
    && Deliveries(Since(d)) == Deliveries(Since(c)) + EventsOf(frames)
    && LastWord(Since(d)) == WordOf(frames, LastWord(Since(c)))
  }

  lemma EventsOfLast(frames: seq<Frame>, start: WriterView)
    requires frames != []
    ensures EventsOf(frames) == EventsOf(frames[..|frames| - 1]) + EventOf(frames[|frames| - 1].message)
    ensures WordOf(frames, start) == match frames[|frames| - 1].message
                                     case WriteGranted(_) => Granted
                                     case WriteRevoked(_) => Revoked
                                     case _ => WordOf(frames[..|frames| - 1], start)
  {
  }

  lemma ReadOneMore(codec: Codec, c: Conn, d: Conn, frames: seq<Frame>)
    requires frames != [] && HasRead(c, d, frames[..|frames| - 1]) && Fits(codec, d, frames[|frames| - 1])
    ensures HasRead(c, Enqueue(codec, d, frames[|frames| - 1]), frames)
  {
    hide Deliveries, LastWord, EventsOf, WordOf, Fits, Push;
    var f := frames[|frames| - 1];
    var q := Queued(f, d.minor);
    var e := Enqueue(codec, d, f);
    assert Since(e) == Since(d) + [q];
    EventsOfLast(frames, LastWord(Since(c)));
    AppendReads(Since(d), q);
  }

  lemma {:induction false} QueueAllReads(s: Server, fd: Fd, frames: seq<Frame>)
    requires fd in s.conns && s.conns[fd].mark <= |s.conns[fd].log|
    ensures var (s', ok) := QueueAll(s, fd, frames);
            fd in s'.conns && (ok ==> HasRead(s.conns[fd], s'.conns[fd], frames))
    decreases |frames|
  {
    if frames == [] {
    } else {
      hide HasRead;
      var init := frames[..|frames| - 1];
      QueueAllReads(s, fd, init);
      var (s1, ok) := QueueAll(s, fd, init);
      if ok && CanQueue(s1, fd, frames[|frames| - 1]) {
        ReadOneMore(s1.codec, s.conns[fd], s1.conns[fd], frames);
        QueueAllCodec(s, fd, init);
      }
    }
  }

  lemma {:induction false} QueueAllCodec(s: Server, fd: Fd, frames: seq<Frame>)
    ensures QueueAll(s, fd, frames).0.codec == s.codec
    decreases |frames|
  {
    if frames != [] {
      QueueAllCodec(s, fd, frames[..|frames| - 1]);
    }
  }

  lemma QueueOneGood(s: Server, fd: Fd, f: Frame)
    requires Good(s, {fd}) && CanQueue(s, fd, f)
    ensures Good(QueueFrame(s, fd, f), {fd}) && Advances(s, QueueFrame(s, fd, f))
  {
    QueueFrameKeeps(s, fd, f, {});
    hide Core, ViewSound, StreamSound, Advances;
    QuietKeepsViews(s, fd, f, {fd});
    StreamsCarryOver(s, QueueFrame(s, fd, f), {});
  }

  lemma JoinTables(s: Server, fd: Fd, c: Conn)
    requires Tables(s, {}) && fd in s.conns
    requires ConnSound(s.codec, c)
    ensures Tables(SetConn(s, fd, c), {})
  {
    hide RuntimeSound, RegistrySound, ConnSound;
  }

  lemma JoinOwnership(s: Server, fd: Fd, c: Conn)
    requires Ownership(s) && fd in s.conns && s.conns[fd].role.Data? && c.role.Data? && c.pid == s.conns[fd].pid
    requires s.conns[fd].attached.None?
    ensures Ownership(SetConn(s, fd, c))
  {
  }

  lemma JoinArmed(s: Server, fd: Fd, c: Conn)
    requires Armed(s) && fd in s.conns && c.output == s.conns[fd].output
    ensures Armed(SetConn(s, fd, c))
  {
  }

  lemma JoinCore(s: Server, fd: Fd, request: AttachRequest)
    requires Core(s, {}) && fd in s.conns && s.conns[fd].role.Data? && s.conns[fd].attached.None?
    requires request.session in s.runtime.sessions
    ensures Core(SetConn(s, fd, Joined(s, s.conns[fd], request)), {})
  {
    var c := Joined(s, s.conns[fd], request);
    assert ConnSound(s.codec, c) by { hide Ownership, Armed, RuntimeSound, RegistrySound, Sound, Split; }
    hide Ownership, Tables, Armed, Split, ConnSound;
    JoinTables(s, fd, c);
    JoinOwnership(s, fd, c);
    JoinArmed(s, fd, c);
  }

  /** Joining touches nobody else. */
  lemma JoinViews(s: Server, fd: Fd, request: AttachRequest)
    requires Views(s, {}) && fd in s.conns && request.session in s.runtime.sessions
    ensures Views(SetConn(s, fd, Joined(s, s.conns[fd], request)), {fd})
  {
    hide Faithful, Joined;
    var s1 := SetConn(s, fd, Joined(s, s.conns[fd], request));
    forall g | g in s1.conns && g !in {fd} ensures ViewSound(s1, g) {
      assert ViewSound(s, g);
    }
  }

  lemma AdvancesByConn(s: Server, fd: Fd, c: Conn)
    ensures Advances(s, SetConn(s, fd, c))
  {
  }

  lemma JoinGood(s: Server, fd: Fd, request: AttachRequest)
    requires Good(s, {}) && fd in s.conns && s.conns[fd].role.Data? && s.conns[fd].attached.None?
    requires request.session in s.runtime.sessions
    ensures var s1 := SetConn(s, fd, Joined(s, s.conns[fd], request));
            Good(s1, {fd}) && Advances(s, s1)
  {
    var s1 := SetConn(s, fd, Joined(s, s.conns[fd], request));
    hide Core, ViewSound, StreamSound, Joined;
    JoinCore(s, fd, request);
    JoinViews(s, fd, request);
    AdvancesByConn(s, fd, s1.conns[fd]);
    hide Advances;
    StreamsCarryOver(s, s1, {});
  }

  lemma GrantCore(s: Server, fd: Fd, id: SessionId)
    requires Core(s, {}) && fd in s.conns && s.conns[fd].attached == Some(id)
    ensures Core(s.(writers := s.writers[id := fd]), {})
  {
    hide ConnSound, RuntimeSound, RegistrySound;
  }

  /** Recording a new writer makes only the old one's last word out of date. */
  lemma GrantViews(s: Server, fd: Fd, id: SessionId, except: set<Fd>)
    requires Ownership(s) && Views(s, {fd}) && fd in s.conns && s.conns[fd].attached == Some(id)
    requires except == {fd} + if id in s.writers then {s.writers[id]} else {}
    ensures Views(s.(writers := s.writers[id := fd]), except)
    ensures id in s.writers && s.writers[id] != fd ==>
              var was := s.writers[id];
              was in s.conns && s.conns[was].attached == Some(id) && s.conns[was].role.Data?
              && Faithful(s.conns[was], History(s, id), true)
  {
    hide Faithful;
    var s2 := s.(writers := s.writers[id := fd]);
    forall g | g in s2.conns && g !in except ensures ViewSound(s2, g) {
      assert ViewSound(s, g);
    }
    if id in s.writers && s.writers[id] != fd {
      assert ViewSound(s, s.writers[id]);
    }
  }

  lemma DroppingAnother(s: Server, was: Fd, f: Frame, fd: Fd)
    requires Ownership(s) && fd in s.conns && was in s.conns && fd != was && s.conns[was].role.Data?
    ensures var s' := QueueOrDisconnect(s, was, f);
            fd in s'.conns && s'.conns[fd] == s.conns[fd] && s'.runtime == s.runtime
            && s'.events == s.events && s'.starts == s.starts
            && forall id :: Owns(s, id, fd) ==> Owns(s', id, fd)
  {
    WithoutWritersByFd(s, {was});
    hide Fits, Unregister, WithoutWriters;
    assert !IsController(s, was);
    assert Casualties(s, was) == {was};
  }

  /** Handing the session over to `fd`, which has just joined it. */
  lemma HandOverGood(s: Server, fd: Fd, id: SessionId)
    requires Good(s, {fd}) && fd in s.conns && s.conns[fd].attached == Some(id) && !Owns(s, id, fd)
    ensures var s2 := s.(writers := s.writers[id := fd]);
            var s3 := if id in s.writers then QueueOrDisconnect(s2, s.writers[id], Event(s2, WriteRevoked(id))) else s2;
            && Good(s3, {fd}) && Advances(s, s3) && fd in s3.conns
            && s3.conns[fd] == s.conns[fd] && s3.events == s.events && Owns(s3, id, fd)
  {
    hide *;
    var s2 := s.(writers := s.writers[id := fd]);
    GoodParts(s, {fd});
    GrantCore(s, fd, id);
    CoreOwns(s, {});
    CoreOwns(s2, {});
    var except := {fd} + if id in s.writers then {s.writers[id]} else {};
    GrantShape(s, fd, id);
    GrantViews(s, fd, id, except);
    StreamsCarryOver(s, s2, {});
    if id in s.writers {
      var was := s.writers[id];
      var s3 := QueueOrDisconnect(s2, was, Event(s2, WriteRevoked(id)));
      assert except == {fd} + {was};
      RevokeKeeps(s2, id, was, {}, {fd});
      DroppingAnother(s2, was, Event(s2, WriteRevoked(id)), fd);
      DroppedStreams(s2, s3);
      StreamsCarryOver(s2, s3, {});
      AdvancesTrans(s, s2, s3);
      MakeGood(s3, {fd});
    } else {
      assert except == {fd};
      MakeGood(s2, {fd});
    }
  }

  lemma GrantShape(s: Server, fd: Fd, id: SessionId)
    ensures var s2 := s.(writers := s.writers[id := fd]);
            && Advances(s, s2) && SameStreams(s, s2) && Owns(s2, id, fd)
            && (forall g: Fd :: g != fd ==> !Owns(s2, id, g))
            && History(s2, id) == History(s, id)
    ensures id in s.writers && !Owns(s, id, fd) ==> s.writers[id] != fd
  {
  }

  lemma DroppedStreams(s: Server, s': Server)
    requires s'.runtime == s.runtime && s'.events == s.events && s'.starts == s.starts
    ensures SameStreams(s, s')
  {
  }

  lemma TakeOverGood(s: Server, fd: Fd, request: AttachRequest)
    requires Good(s, {}) && fd in s.conns && s.conns[fd].role.Data? && s.conns[fd].attached.None?
    requires request.session in s.runtime.sessions
    ensures var s' := TakeOver(s, fd, request);
            && Good(s', {fd}) && Advances(s, s') && fd in s'.conns
            && s'.conns[fd] == Joined(s, s.conns[fd], request)
            && s'.events == s.events
            && (Owns(s', request.session, fd) <==> request.readWrite)
  {
    var id := request.session;
    assert !Owns(s, id, fd) by { hide Tables, Armed, ViewSound, StreamSound; }
    hide Good, Advances, QueueOrDisconnect;
    JoinGood(s, fd, request);
    var s1 := SetConn(s, fd, Joined(s, s.conns[fd], request));
    assert s1.conns[fd].attached == Some(id);
    hide Joined;
    if request.readWrite {
      HandOverGood(s1, fd, id);
      AdvancesTrans(s, s1, TakeOver(s, fd, request));
    }
  }

  /** A fresh attachment that has been welcomed in full sees exactly its replay. */
  lemma WelcomedIsFaithful(c: Conn, d: Conn, history: seq<StreamEvent>, ring: seq<byte>, request: AttachRequest)
    requires c.mark == |c.log| && c.from == |history|
    requires c.replay == Split(LastN(ring, request.replayBytes), MAX_IO_FRAME)
    requires Windowed(ring, c.origin.capacity, history, c.origin.begin) && c.origin.asked == request.replayBytes
    requires d == c.(log := d.log, output := d.output) && d.mark <= |d.log|
    requires Deliveries(Since(d)) == Deliveries(Since(c)) + Chunks(c.replay)
    requires LastWord(Since(d)) == if request.readWrite then Granted else Silent
    ensures Faithful(d, history, request.readWrite)
  {
    assert Since(c) == [] && Deliveries([]) == [];
    assert history[c.from..] == [];
    assert Chunks(c.replay) + [] == Chunks(c.replay) == [] + Chunks(c.replay);
    hide Deliveries, LastWord, Chunks, StreamBytes, LastN, Split;
    OwedAtOnce(c, history, ring, request);
    hide Windowed, Concat;
  }

  /** What has just been taken from the ring is what the client was owed. */
  lemma OwedAtOnce(c: Conn, history: seq<StreamEvent>, ring: seq<byte>, request: AttachRequest)
    requires c.from == |history| && c.replay == Split(LastN(ring, request.replayBytes), MAX_IO_FRAME)
    requires Windowed(ring, c.origin.capacity, history, c.origin.begin) && c.origin.asked == request.replayBytes
    ensures Owed(c, history)
  {
    hide StreamBytes, Split, LastN;
    assert history[c.origin.begin..c.from] == history[c.origin.begin..];
    LastNOfLastN(StreamBytes(history[c.origin.begin..]), c.origin.capacity, c.origin.asked);
  }

  lemma AttachKeeps(s: Server, fd: Fd, f: InFrame)
    requires Good(s, {}) && fd in s.conns && s.conns[fd].role.Data? && f.request.Attach?
    ensures Handled(s, fd, HandleAttach(s, fd, f))
  {
    AdvancesRefl(s);
    hide Good, Advances, TakeOver, QueueAll, Welcome, Respond, DetachConnection;
    if f.request.attach.None? {
      RefusedHandled(s, s, fd);
      return;
    }
    var request := f.request.attach.value;
    if request.session !in s.runtime.sessions {
      RespondHandled(s, s, fd, f, OperationResp(AttachResp, request.session, NotFound));
      return;
    }
    DetachGood(s, fd);
    var s0 := DetachConnection(s, fd);
    TakeOverGood(s0, fd, request);
    var s1 := TakeOver(s0, fd, request);
    AdvancesTrans(s, s0, s1);
    var frames := Welcome(s1, fd, f, request);
    var c := s1.conns[fd];
    QueueAllGood(s1, fd, frames);
    QueueAllReads(s1, fd, frames);
    var (s2, ok) := QueueAll(s1, fd, frames);
    AdvancesTrans(s, s1, s2);
    if ok {
      var d := s2.conns[fd];
      var id := request.session;
      var ring := s0.runtime.sessions[id].ring;
      WelcomeReads(s1, fd, f, request);
      RingIsWindow(s0, id);
      assert Since(c) == [];
      assert LastWord(Since(c)) == Silent;
      assert c.replay == Split(LastN(ring, request.replayBytes), MAX_IO_FRAME);
      WelcomedIsFaithful(c, d, History(s0, id), ring, request);
      ViewCompletes(s2, fd, id);
    }
  }

  lemma RingIsWindow(s: Server, id: SessionId)
    requires Good(s, {}) && id in s.runtime.sessions
    ensures Windowed(s.runtime.sessions[id].ring, s.runtime.sessions[id].ringCapacity, History(s, id), Begin(s, id))
  {
    hide Core, ViewSound;
    assert StreamSound(s, id);
  }

  lemma ViewCompletes(s: Server, fd: Fd, id: SessionId)
    requires Good(s, {fd}) && fd in s.conns && s.conns[fd].attached == Some(id)
    requires Faithful(s.conns[fd], History(s, id), Owns(s, id, fd))
    ensures Good(s, {})
  {
    hide Core, StreamSound, Faithful;
    forall g | g in s.conns && g !in {} ensures ViewSound(s, g) {
      if g != fd {
        assert g !in {fd};
      }
    }
  }

  lemma DetachGood(s: Server, fd: Fd)
    requires Good(s, {}) && fd in s.conns
    ensures var s0 := DetachConnection(s, fd);
            && Good(s0, {}) && Advances(s, s0)
            && fd in s0.conns && s0.conns[fd] == s.conns[fd].(attached := None)
            && s0.runtime == s.runtime
  {
    hide Core, ViewSound, StreamSound, Advances;
    DetachConnectionKeeps(s, fd, {}, {});
    StreamsCarryOver(s, DetachConnection(s, fd), {});
  }

  lemma DataKeeps(s: Server, fd: Fd, f: InFrame)
    requires Good(s, {}) && fd in s.conns && s.conns[fd].role.Data? && RuntimeSound(s.runtime)
    ensures Handled(s, fd, HandleData(s, fd, f))
  {
    AdvancesRefl(s);
    hide Good, Advances, HandleAttach, HandleInput, DetachConnection, RuntimeSound;
    match f.request {
      case Attach(_) => AttachKeeps(s, fd, f);
      case Detach(empty) =>
        if empty {
          DetachGood(s, fd);
          GoodWeakens(DetachConnection(s, fd), {fd});
        } else {
          RefusedHandled(s, s, fd);
        }
      case Input(data, script) => InputKeeps(s, fd, data, script);
      case Resize(_, _) => RefusedHandled(s, s, fd);
      case Signal(_, _) => RefusedHandled(s, s, fd);
      case _ => RefusedHandled(s, s, fd);
    }
  }

  lemma FrameKeeps(s: Server, fd: Fd, f: InFrame)
    requires Good(s, {}) && fd in s.conns && RuntimeSound(s.runtime)
    ensures Handled(s, fd, ProcessFrame(s, fd, f))
  {
    AdvancesRefl(s);
    hide Good, Advances, HandleControlHello, HandleDataHello, HandleControl, HandleData, RuntimeSound;
    match s.conns[fd].role {
      case Pending =>
        if f.request.ControlHello? {
          ControlHelloKeeps(s, fd, f);
        } else if f.request.DataHello? {
          DataHelloKeeps(s, fd, f);
        } else {
          RefusedHandled(s, s, fd);
        }
      case Control => ControlKeeps(s, fd, f);
      case Data =>
        if f.minor != s.conns[fd].minor {
          RefusedHandled(s, s, fd);
        } else {
          DataKeeps(s, fd, f);
        }
    }
  }
}
