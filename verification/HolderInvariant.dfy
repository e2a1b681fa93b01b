/** What every Holder event keeps, and the proofs that the primitive moves keep it. */
module HolderInvariants {
  import opened Bytes
  import opened ByteQueues
  import opened HolderFrames
  import opened Connections
  import opened Reactors
  import opened HolderRuntimes
  import opened HolderStates

  // ---- The invariant -----------------------------------------------------------

  /** Every recorded writer is a live data connection attached to that very session; the one
      control connection is the controller; data connections exist only under a controller, and
      belong to the controller's own process. */
  ghost predicate Ownership(s: Server)
  {
    && (forall id :: id in s.writers ==>
          s.writers[id] in s.conns && s.conns[s.writers[id]].attached == Some(id))
    && (s.controller.Some? ==> s.controller.value.fd in s.conns
                               && s.conns[s.controller.value.fd].pid == s.controller.value.pid)
    && (forall fd :: fd in s.conns ==> (s.conns[fd].role.Control? <==> IsController(s, fd)))
    && (forall fd :: fd in s.conns && s.conns[fd].role.Data? ==>
          s.controller.Some? && s.conns[fd].pid == s.controller.value.pid)
    && (forall fd :: fd in s.conns && s.conns[fd].attached.Some? ==> s.conns[fd].role.Data?)
  }

  /** Exactly the open descriptors are registered (`lingering` ones are terminals already
      closed but not yet unregistered), no descriptor plays two parts, and every queue is sound. */
  ghost predicate Tables(s: Server, lingering: set<Fd>)
  {
    && RegistrySound(s.reactor)
    && RuntimeSound(s.runtime)
    && s.reactor.tokens.Keys == s.statics + lingering + s.conns.Keys + s.runtime.ptys.Keys
    && s.statics !! lingering !! s.conns.Keys !! s.runtime.ptys.Keys
    && (forall fd :: fd in s.conns ==> ConnSound(s.codec, s.conns[fd]))
  }

  /** Write interest is armed exactly while output is pending; for a terminal the same holds
      unless a write to it once failed outright, when pending input may sit unarmed. */
  ghost predicate Armed(s: Server)
  {
    && (forall fd :: fd in s.conns && fd in s.reactor.writable ==>
          (s.reactor.writable[fd] <==> s.conns[fd].output.chunks != []))
    && (forall fd :: fd in s.runtime.ptys && fd in s.reactor.writable && s.runtime.ptys[fd] in s.runtime.sessions ==>
          var session := s.runtime.sessions[s.runtime.ptys[fd]];
          && (s.reactor.writable[fd] ==> session.input.chunks != [])
          && (!session.stuck && session.input.chunks != [] ==> s.reactor.writable[fd]))
  }

  ghost predicate Core(s: Server, lingering: set<Fd>)
  {
    Ownership(s) && Tables(s, lingering) && Armed(s)
  }

  predicate Owns(s: Server, id: SessionId, fd: Fd)
  {
    id in s.writers && s.writers[id] == fd
  }

  /** The replay is the last `min(asked, capacity)` bytes of what its session had printed when the
      client joined. */
  ghost predicate Owed(c: Conn, history: seq<StreamEvent>)
  {
    && c.origin.begin <= c.from <= |history|
    && Concat(c.replay) == LastN(StreamBytes(history[c.origin.begin..c.from]), Min(c.origin.asked, c.origin.capacity))
  }

  /** What a client has been sent since it attached is exactly its replay followed by everything
      the session has emitted since, and what it was last told about writing is true. */
  ghost predicate Faithful(c: Conn, history: seq<StreamEvent>, owner: bool)
  {
    && c.mark <= |c.log|
    && c.from <= |history|
    && Deliveries(Since(c)) == Chunks(c.replay) + history[c.from..]
    && Owed(c, history)
    && (LastWord(Since(c)) == Granted <==> owner)
  }

  ghost predicate ViewSound(s: Server, fd: Fd)
    requires fd in s.conns
  {
    var c := s.conns[fd];
    c.attached.Some? ==> Faithful(c, History(s, c.attached.value), Owns(s, c.attached.value, fd))
  }

  ghost predicate Views(s: Server, except: set<Fd>)
  {
    forall fd :: fd in s.conns && fd !in except ==> ViewSound(s, fd)
  }

  /** The replay ring holds the end of what was printed since the session began. */
  ghost predicate Windowed(ring: seq<byte>, capacity: nat, history: seq<StreamEvent>, begin: nat)
  {
    begin <= |history| && ring == LastN(StreamBytes(history[begin..]), capacity)
  }

  lemma WindowGrows(ring: seq<byte>, capacity: nat, history: seq<StreamEvent>, begin: nat, more: seq<StreamEvent>)
    requires Windowed(ring, capacity, history, begin)
    ensures Windowed(LastN(ring + StreamBytes(more), capacity), capacity, history + more, begin)
  {
    assert (history + more)[begin..] == history[begin..] + more;
    hide StreamBytes, LastN;
    StreamBytesAppend(history[begin..], more);
    LastNAbsorbs(StreamBytes(history[begin..]), StreamBytes(more), capacity);
  }

  lemma OwedIsSuffix(c: Conn, history: seq<StreamEvent>)
    requires Owed(c, history)
    ensures IsSuffix(Concat(c.replay), StreamBytes(history[..c.from]))
  {
    var before := history[..c.origin.begin];
    var since := history[c.origin.begin..c.from];
    assert before + since == history[..c.from];
    hide StreamBytes, Concat;
    StreamBytesAppend(before, since);
    LastNIsSuffix(StreamBytes(since), Min(c.origin.asked, c.origin.capacity));
    SuffixTrans(Concat(c.replay), StreamBytes(since), StreamBytes(before) + StreamBytes(since));
  }

  /** The replay ring is the end of what its session printed; a dead session's stream ends with
      its exit code; with nothing running the last thing emitted was an exit; and every session
      started under an id has exited once or is still running. */
  ghost predicate StreamSound(s: Server, id: SessionId)
  {
    && (id in s.runtime.sessions ==>
          && Windowed(s.runtime.sessions[id].ring, s.runtime.sessions[id].ringCapacity, History(s, id), Begin(s, id))
          && (s.runtime.sessions[id].exitCode.Some? ==>
                History(s, id) != [] && History(s, id)[|History(s, id)| - 1]
                  == Exit(s.runtime.sessions[id].exitCode.value)))
    && (!IsRunning(s.runtime, id) && History(s, id) != [] ==> History(s, id)[|History(s, id)| - 1].Exit?)
    && ExitCount(History(s, id)) + (if IsRunning(s.runtime, id) then 1 else 0) == Starts(s, id)
  }

  ghost predicate Streams(s: Server, except: set<SessionId>)
  {
    forall id: SessionId :: id !in except ==> StreamSound(s, id)
  }

  /** How later states relate to earlier ones, across any number of events. */
  ghost predicate Advances(before: Server, after: Server)
  {
    && Evolves(before.reactor, after.reactor)
    && Tracks(before.runtime, after.runtime)
    && (forall id: SessionId :: History(before, id) <= History(after, id))
    && (forall id: SessionId :: Starts(before, id) <= Starts(after, id))
    && before.codec == after.codec && before.instance == after.instance && before.statics == after.statics
  }

  lemma AdvancesTrans(a: Server, b: Server, c: Server)
    requires Advances(a, b) && Advances(b, c)
    ensures Advances(a, c)
  {
    forall t | t in c.reactor.fds && t <= a.reactor.adds
      ensures t in a.reactor.fds && a.reactor.fds[t] == c.reactor.fds[t]
    {
      assert t in b.reactor.fds;
    }
    forall id: SessionId
      ensures History(a, id) <= History(c, id)
      ensures Starts(a, id) <= Starts(c, id)
    {
      assert History(a, id) <= History(b, id) <= History(c, id);
      assert Starts(a, id) <= Starts(b, id) <= Starts(c, id);
    }
  }

  // ---- One client's view --------------------------------------------------------------

  /** `d` is `c` with one more frame behind it. */
  ghost predicate OneMore(c: Conn, d: Conn, q: Queued)
  {
    d.log == c.log + [q] && d.mark == c.mark && d.from == c.from && d.origin == c.origin && d.replay == c.replay
  }

  /** A frame that is neither session output nor about writing changes nobody's view. */
  predicate Quiet(m: Message)
  {
    !m.Output? && !m.SessionExited? && !m.WriteGranted? && !m.WriteRevoked?
  }

  lemma QuietStaysFaithful(c: Conn, d: Conn, q: Queued, history: seq<StreamEvent>, owner: bool)
    requires Faithful(c, history, owner) && OneMore(c, d, q) && Quiet(q.frame.message)
    ensures Faithful(d, history, owner)
  {
    assert Since(d) == Since(c) + [q];
    AppendReads(Since(c), q);
  }

  lemma EventStaysFaithful(c: Conn, d: Conn, q: Queued, history: seq<StreamEvent>, owner: bool, e: StreamEvent)
    requires Faithful(c, history, owner) && OneMore(c, d, q) && EventOf(q.frame.message) == [e]
    ensures Faithful(d, history + [e], owner)
  {
    assert Since(d) == Since(c) + [q];
    AppendReads(Since(c), q);
    hide Deliveries, LastWord, Chunks, StreamBytes, Concat, LastN;
    EventLater(history, e, c.from);
    EventOwed(c, d, history, e);
    hide Owed;
    Associate(Chunks(c.replay), history[c.from..], [e]);
  }

  lemma EventLater(history: seq<StreamEvent>, e: StreamEvent, from: nat)
    requires from <= |history|
    ensures (history + [e])[from..] == history[from..] + [e]
  {
  }

  /** What was owed when the client joined does not change. */
  lemma EventOwed(c: Conn, d: Conn, history: seq<StreamEvent>, e: StreamEvent)
    requires Owed(c, history) && d.from == c.from && d.origin == c.origin && d.replay == c.replay
    ensures Owed(d, history + [e])
  {
    assert (history + [e])[c.origin.begin..c.from] == history[c.origin.begin..c.from];
  }

  lemma RevokedStaysFaithful(c: Conn, d: Conn, q: Queued, history: seq<StreamEvent>, owner: bool)
    requires Faithful(c, history, owner) && OneMore(c, d, q) && q.frame.message.WriteRevoked?
    ensures Faithful(d, history, false)
  {
    assert Since(d) == Since(c) + [q];
    AppendReads(Since(c), q);
  }

  // ---- Consequences of ownership ---------------------------------------------------

  /** Without a controller nobody owns a session. */
  lemma NoControllerNoWriters(s: Server)
    requires Ownership(s) && s.controller.None?
    ensures s.writers == map[] && DataFds(s) == {}
  {
    forall fd | fd in s.conns ensures !s.conns[fd].role.Data? && s.conns[fd].attached.None? {
    }
    forall id ensures id !in s.writers {
      if id in s.writers {
        assert false;
      }
    }
    assert s.writers.Keys == {};
  }

  lemma CoreOwns(s: Server, lingering: set<Fd>)
    requires Core(s, lingering)
    ensures Ownership(s)
  {
    hide Ownership, Tables, Armed;
  }

  lemma WithoutWritersByFd(s: Server, gone: set<Fd>)
    requires Ownership(s)
    ensures WithoutWriters(s, gone) == map id | id in s.writers && s.writers[id] !in gone :: s.writers[id]
  {
  }

  // ---- Changing one connection in place ------------------------------------------------

  lemma SetConnOwnership(s: Server, fd: Fd, c: Conn)
    requires Ownership(s) && fd in s.conns
    requires c.role == s.conns[fd].role && c.attached == s.conns[fd].attached && c.pid == s.conns[fd].pid
    ensures Ownership(SetConn(s, fd, c))
  {
  }

  lemma SetConnTables(s: Server, fd: Fd, c: Conn, armed: bool, lingering: set<Fd>)
    requires Tables(s, lingering) && fd in s.conns && ConnSound(s.codec, c)
    ensures Tables(SetConn(s, fd, c).(reactor := Rearm(s.reactor, fd, armed)), lingering)
    ensures Evolves(s.reactor, Rearm(s.reactor, fd, armed))
  {
    hide ConnSound, RuntimeSound;
    assert fd in s.reactor.tokens;
  }

  lemma SetConnArmed(s: Server, fd: Fd, c: Conn, armed: bool)
    requires Armed(s) && fd in s.conns && fd !in s.runtime.ptys
    requires armed <==> c.output.chunks != []
    ensures Armed(SetConn(s, fd, c).(reactor := Rearm(s.reactor, fd, armed)))
  {
  }

  /** A new terminal has its own registration. */
  lemma OneMoreTerminal(s: Server, s': Server, pty: Fd)
    requires Tables(s, {}) && pty !in s.reactor.tokens.Keys
    requires RegistrySound(s'.reactor) && RuntimeSound(s'.runtime)
    requires s'.reactor.tokens.Keys == s.reactor.tokens.Keys + {pty}
    requires s'.runtime.ptys.Keys == s.runtime.ptys.Keys + {pty}
    requires s'.conns == s.conns && s'.statics == s.statics && s'.codec == s.codec
    ensures Tables(s', {})
  {
    hide RegistrySound, RuntimeSound, ConnSound;
  }

  /** And so has a new peer. */
  lemma OneMorePeer(s: Server, s': Server, fd: Fd)
    requires Tables(s, {}) && fd !in s.reactor.tokens.Keys
    requires RegistrySound(s'.reactor) && s'.runtime == s.runtime && s'.statics == s.statics && s'.codec == s.codec
    requires s'.reactor.tokens.Keys == s.reactor.tokens.Keys + {fd}
    requires s'.conns.Keys == s.conns.Keys + {fd} && ConnSound(s.codec, s'.conns[fd])
    requires forall g :: g in s.conns ==> s'.conns[g] == s.conns[g]
    ensures Tables(s', {})
  {
    hide RegistrySound, RuntimeSound, ConnSound;
  }

  lemma CoreParts(s: Server, lingering: set<Fd>)
    requires Ownership(s) && Tables(s, lingering) && Armed(s)
    ensures Core(s, lingering)
  {
    hide Ownership, Tables, Armed;
  }

  lemma CoreTables(s: Server, lingering: set<Fd>)
    requires Core(s, lingering)
    ensures Tables(s, lingering) && Armed(s)
  {
    hide Ownership, Tables, Armed;
  }

  lemma TablesDisjoint(s: Server, lingering: set<Fd>)
    requires Tables(s, lingering)
    ensures s.statics + lingering !! s.conns.Keys !! s.runtime.ptys.Keys
  {
    hide RuntimeSound, RegistrySound, ConnSound;
  }

  lemma SetConnAdvances(s: Server, fd: Fd, c: Conn, armed: bool)
    requires Evolves(s.reactor, Rearm(s.reactor, fd, armed))
    ensures Advances(s, SetConn(s, fd, c).(reactor := Rearm(s.reactor, fd, armed)))
  {
    hide Evolves;
  }

  lemma SetConnRearmed(s: Server, fd: Fd, c: Conn, armed: bool)
    requires Ownership(SetConn(s, fd, c))
    ensures Ownership(SetConn(s, fd, c).(reactor := Rearm(s.reactor, fd, armed)))
  {
  }

  /** A connection may be replaced by one with the same part to play. */
  lemma SetConnKeeps(s: Server, fd: Fd, c: Conn, armed: bool, lingering: set<Fd>)
    requires Core(s, lingering) && fd in s.conns && ConnSound(s.codec, c)
    requires c.role == s.conns[fd].role && c.attached == s.conns[fd].attached && c.pid == s.conns[fd].pid
    requires armed <==> c.output.chunks != []
    ensures Core(SetConn(s, fd, c).(reactor := Rearm(s.reactor, fd, armed)), lingering)
    ensures Advances(s, SetConn(s, fd, c).(reactor := Rearm(s.reactor, fd, armed)))
  {
    hide *;
    CoreOwns(s, lingering);
    CoreTables(s, lingering);
    TablesDisjoint(s, lingering);
    SetConnOwnership(s, fd, c);
    SetConnRearmed(s, fd, c, armed);
    SetConnTables(s, fd, c, armed, lingering);
    SetConnArmed(s, fd, c, armed);
    SetConnAdvances(s, fd, c, armed);
    CoreParts(SetConn(s, fd, c).(reactor := Rearm(s.reactor, fd, armed)), lingering);
  }

  lemma QueueFrameKeeps(s: Server, fd: Fd, f: Frame, lingering: set<Fd>)
    requires Core(s, lingering) && CanQueue(s, fd, f)
    ensures Core(QueueFrame(s, fd, f), lingering)
    ensures Advances(s, QueueFrame(s, fd, f))
    ensures OneMore(s.conns[fd], QueueFrame(s, fd, f).conns[fd], Queued(f, s.conns[fd].minor))
  {
    hide Ownership, Armed, RuntimeSound, RegistrySound, Sound, Evolves, Tracks;
    EnqueueKeeps(s.codec, s.conns[fd], f);
    SetConnKeeps(s, fd, Enqueue(s.codec, s.conns[fd], f), true, lingering);
  }

  lemma QuietKeepsViews(s: Server, fd: Fd, f: Frame, except: set<Fd>)
    requires CanQueue(s, fd, f) && Views(s, except)
    requires Quiet(f.message) || fd in except || s.conns[fd].attached.None?
    ensures Views(QueueFrame(s, fd, f), except)
  {
    hide Faithful;
    var s' := QueueFrame(s, fd, f);
    forall g | g in s'.conns && g !in except ensures ViewSound(s', g) {
      assert ViewSound(s, g);
      var c := s.conns[g];
      if g == fd && c.attached.Some? {
        QuietStaysFaithful(c, s'.conns[g], Queued(f, c.minor), History(s, c.attached.value),
          Owns(s, c.attached.value, g));
      }
    }
  }

  // ---- Removing connections ------------------------------------------------------------

  /** If the controller goes, so do all data connections. */
  ghost predicate Cascades(s: Server, gone: set<Fd>)
  {
    s.controller.Some? && s.controller.value.fd in gone ==> DataFds(s) <= gone
  }

  lemma RemoveAllOwnership(s: Server, gone: set<Fd>)
    requires Ownership(s) && Cascades(s, gone)
    ensures Ownership(RemoveAll(s, gone))
  {
    WithoutWritersByFd(s, gone);
  }

  lemma RemoveAllTables(s: Server, gone: set<Fd>, lingering: set<Fd>)
    requires Tables(s, lingering) && gone !! s.statics + lingering + s.runtime.ptys.Keys
    ensures Tables(RemoveAll(s, gone), lingering)
    ensures Evolves(s.reactor, RemoveAll(s, gone).reactor)
  {
    hide RuntimeSound, RegistrySound, ConnSound, WithoutWriters, Evolves;
    UnregisterKeeps(s.reactor, gone);
  }

  lemma RemoveAllViews(s: Server, gone: set<Fd>, except: set<Fd>)
    requires Ownership(s) && Views(s, except)
    ensures Views(RemoveAll(s, gone), except)
  {
    hide Faithful, Unregister;
    var s' := RemoveAll(s, gone);
    WithoutWritersByFd(s, gone);
    forall fd | fd in s'.conns && fd !in except ensures ViewSound(s', fd) {
      assert ViewSound(s, fd);
    }
  }

  lemma RemoveAllKeeps(s: Server, gone: set<Fd>, lingering: set<Fd>)
    requires Core(s, lingering) && Cascades(s, gone)
    requires gone !! s.statics + lingering + s.runtime.ptys.Keys
    ensures Core(RemoveAll(s, gone), lingering)
    ensures Advances(s, RemoveAll(s, gone))
  {
    hide *;
    CoreOwns(s, lingering);
    CoreTables(s, lingering);
    RemoveAllOwnership(s, gone);
    RemoveAllTables(s, gone, lingering);
    RemoveAllArmed(s, gone);
    CoreParts(RemoveAll(s, gone), lingering);
    RemoveAllAdvances(s, gone);
  }

  lemma RemoveAllArmed(s: Server, gone: set<Fd>)
    requires Armed(s)
    ensures Armed(RemoveAll(s, gone))
  {
    hide WithoutWriters;
  }

  lemma RemoveAllAdvances(s: Server, gone: set<Fd>)
    requires Evolves(s.reactor, RemoveAll(s, gone).reactor)
    ensures Advances(s, RemoveAll(s, gone))
  {
    hide WithoutWriters, Unregister, Evolves;
  }

  lemma CasualtiesCascade(s: Server, fd: Fd, lingering: set<Fd>)
    requires Core(s, lingering) && fd !in s.statics + lingering + s.runtime.ptys.Keys
    ensures Cascades(s, Casualties(s, fd))
    ensures Casualties(s, fd) !! s.statics + lingering + s.runtime.ptys.Keys
  {
    hide Armed, RuntimeSound, RegistrySound, ConnSound;
  }

  lemma DisconnectKeeps(s: Server, fd: Fd, lingering: set<Fd>, except: set<Fd>)
    requires Core(s, lingering) && fd !in s.statics + lingering + s.runtime.ptys.Keys
    requires Views(s, except)
    ensures Core(Disconnect(s, fd), lingering)
    ensures Views(Disconnect(s, fd), except - {fd})
    ensures Advances(s, Disconnect(s, fd))
  {
    CasualtiesCascade(s, fd, lingering);
    RemoveAllKeeps(s, Casualties(s, fd), lingering);
    RemoveAllViews(s, Casualties(s, fd), except);
    hide Core, ViewSound, Advances;
  }

  lemma QueueOrDisconnectKeeps(s: Server, fd: Fd, f: Frame, lingering: set<Fd>, except: set<Fd>)
    requires Core(s, lingering) && fd in s.conns && Views(s, except)
    requires Quiet(f.message) || s.conns[fd].attached.None? || fd in except
    ensures Core(QueueOrDisconnect(s, fd, f), lingering)
    ensures Views(QueueOrDisconnect(s, fd, f), except)
    ensures Advances(s, QueueOrDisconnect(s, fd, f))
  {
    assert fd !in s.statics + lingering + s.runtime.ptys.Keys by { hide Ownership, Armed, RuntimeSound, RegistrySound,
           ConnSound; }
    hide Core, ViewSound, Advances, RemoveAll;
    if CanQueue(s, fd, f) {
      QueueFrameKeeps(s, fd, f, lingering);
      QuietKeepsViews(s, fd, f, except);
    } else {
      DisconnectKeeps(s, fd, lingering, except);
    }
  }

  lemma SendControlKeeps(s: Server, m: Message, lingering: set<Fd>, except: set<Fd>)
    requires Core(s, lingering) && Views(s, except)
    ensures Core(SendControl(s, m), lingering)
    ensures Views(SendControl(s, m), except)
    ensures Advances(s, SendControl(s, m))
  {
    if s.controller.Some? {
      var fd := s.controller.value.fd;
      assert fd in s.conns && s.conns[fd].attached.None? by { hide Tables, Armed, ViewSound; }
      hide Core, ViewSound, Advances, QueueOrDisconnect;
      QueueOrDisconnectKeeps(s, fd, Event(s, m), lingering, except);
    } else {
      hide Core, ViewSound;
    }
  }

  lemma DetachConnectionTables(s: Server, fd: Fd, lingering: set<Fd>)
    requires Tables(s, lingering)
    ensures Tables(DetachConnection(s, fd), lingering)
  {
    hide RuntimeSound, RegistrySound, Sound, WithoutWriters;
  }

  lemma DetachConnectionOwnership(s: Server, fd: Fd)
    requires Ownership(s)
    ensures Ownership(DetachConnection(s, fd))
  {
    WithoutWritersByFd(s, {fd});
    hide WithoutWriters;
  }

  lemma DetachConnectionViews(s: Server, fd: Fd, except: set<Fd>)
    requires Ownership(s) && Views(s, except)
    ensures Ownership(DetachConnection(s, fd))
    ensures Views(DetachConnection(s, fd), except)
  {
    hide Faithful;
    WithoutWritersByFd(s, {fd});
    hide WithoutWriters;
    DetachConnectionOwnership(s, fd);
    var s' := DetachConnection(s, fd);
    hide Ownership;
    forall g | g in s'.conns && g !in except ensures ViewSound(s', g) {
      assert ViewSound(s, g);
    }
  }

  lemma DetachConnectionKeeps(s: Server, fd: Fd, lingering: set<Fd>, except: set<Fd>)
    requires Core(s, lingering) && Views(s, except)
    ensures Core(DetachConnection(s, fd), lingering)
    ensures Views(DetachConnection(s, fd), except)
    ensures Advances(s, DetachConnection(s, fd))
  {
    hide *;
    CoreOwns(s, lingering);
    CoreTables(s, lingering);
    DetachConnectionTables(s, fd, lingering);
    DetachConnectionViews(s, fd, except);
    DetachConnectionShape(s, fd);
    CoreParts(DetachConnection(s, fd), lingering);
  }

  lemma DetachConnectionShape(s: Server, fd: Fd)
    requires Armed(s)
    ensures Armed(DetachConnection(s, fd)) && Advances(s, DetachConnection(s, fd))
  {
    hide WithoutWriters;
  }

  // ---- Fan-out ---------------------------------------------------------------------------

  function CastEvent(cast: Cast): StreamEvent
  {
    match cast
    case CastOutput(data) => Chunk(data)
    case CastExit(_, code, _) => Exit(code)
  }

  lemma TargetsAreNotTerminals(s: Server, id: SessionId, cast: Cast, lingering: set<Fd>)
    requires Core(s, lingering)
    ensures var gone := Overflowing(s, Attached(s, id), cast);
            Cascades(s, gone) && gone !! s.statics + lingering + s.runtime.ptys.Keys
  {
    hide Armed, RuntimeSound, RegistrySound, ConnSound, Fits;
  }

  lemma BroadcastOwnership(s: Server, targets: set<Fd>, cast: Cast)
    requires Ownership(RemoveAll(s, Overflowing(s, targets, cast)))
    ensures Ownership(Broadcast(s, targets, cast))
  {
    hide WithoutWriters;
    var r := RemoveAll(s, Overflowing(s, targets, cast));
    var s' := Broadcast(s, targets, cast);
    forall fd
      ensures fd in s'.conns <==> fd in r.conns
      ensures fd in r.conns ==> s'.conns[fd].role == r.conns[fd].role && s'.conns[fd].attached == r.conns[fd].attached
    {
    }
  }

  lemma BroadcastQueues(s: Server, targets: set<Fd>, cast: Cast)
    requires forall fd :: fd in s.conns ==> ConnSound(s.codec, s.conns[fd])
    ensures var s' := Broadcast(s, targets, cast);
            forall fd :: fd in s'.conns ==> ConnSound(s'.codec, s'.conns[fd])
  {
    hide ConnSound, WithoutWriters, Unregister;
    var s' := Broadcast(s, targets, cast);
    forall fd | fd in s'.conns ensures ConnSound(s'.codec, s'.conns[fd]) {
      assert ConnSound(s.codec, s.conns[fd]);
      if fd in targets {
        EnqueueKeeps(s.codec, s.conns[fd], CastFrame(s, fd, cast));
      }
    }
  }

  lemma BroadcastTables(s: Server, targets: set<Fd>, cast: Cast, lingering: set<Fd>)
    requires Tables(s, lingering) && Tables(RemoveAll(s, Overflowing(s, targets, cast)), lingering)
    ensures Tables(Broadcast(s, targets, cast), lingering)
  {
    hide RuntimeSound, ConnSound, Fits, WithoutWriters;
    BroadcastQueues(s, targets, cast);
    var s' := Broadcast(s, targets, cast);
    assert s'.reactor.writable.Keys == s'.reactor.tokens.Keys;
    assert s'.conns.Keys == RemoveAll(s, Overflowing(s, targets, cast)).conns.Keys;
  }

  lemma BroadcastArmed(s: Server, targets: set<Fd>, cast: Cast)
    requires Armed(s) && targets <= s.conns.Keys && s.conns.Keys !! s.runtime.ptys.Keys
    ensures Armed(Broadcast(s, targets, cast))
  {
    hide Fits, WithoutWriters;
  }

  lemma BroadcastCore(s: Server, id: SessionId, cast: Cast, lingering: set<Fd>)
    requires Core(s, lingering)
    ensures Core(Broadcast(s, Attached(s, id), cast), lingering)
    ensures Advances(s, Broadcast(s, Attached(s, id), cast))
  {
    var targets := Attached(s, id);
    assert targets <= s.conns.Keys;
    hide *;
    var gone := Overflowing(s, targets, cast);
    TargetsAreNotTerminals(s, id, cast, lingering);
    RemoveAllKeeps(s, gone, lingering);
    CoreTables(s, lingering);
    CoreOwns(RemoveAll(s, gone), lingering);
    CoreTables(RemoveAll(s, gone), lingering);
    BroadcastOwnership(s, targets, cast);
    BroadcastTables(s, targets, cast, lingering);
    TablesDisjoint(s, lingering);
    BroadcastArmed(s, targets, cast);
    BroadcastAdvances(s, targets, cast);
    CoreParts(Broadcast(s, targets, cast), lingering);
  }

  lemma BroadcastAdvances(s: Server, targets: set<Fd>, cast: Cast)
    requires Advances(s, RemoveAll(s, Overflowing(s, targets, cast)))
    ensures Advances(s, Broadcast(s, targets, cast))
  {
    hide Tracks, WithoutWriters, Overflowing, Fits;
  }

  /** Broadcasting an event and recording it keep every attached client's view complete. */
  lemma BroadcastKeepsViews(s: Server, id: SessionId, cast: Cast, except: set<Fd>)
    requires Ownership(s) && Views(s, except)
    requires except !! Attached(s, id)
    ensures Views(Emit(Broadcast(s, Attached(s, id), cast), id, CastEvent(cast)), except)
  {
    hide Faithful, ViewSound, Ownership, Overflowing, WithoutWriters, Unregister;
    var s' := Emit(Broadcast(s, Attached(s, id), cast), id, CastEvent(cast));
    forall fd | fd in s'.conns && fd !in except ensures ViewSound(s', fd) {
      BroadcastView(s, id, cast, fd);
    }
  }

  /** A target's connection after the broadcast, if it has had room. */
  lemma BroadcastConn(s: Server, id: SessionId, cast: Cast, fd: Fd)
    requires fd in s.conns
    requires fd in Broadcast(s, Attached(s, id), cast).conns
    ensures var d := Broadcast(s, Attached(s, id), cast).conns[fd];
            if s.conns[fd].attached != Some(id) then d == s.conns[fd]
            else OneMore(s.conns[fd], d, Queued(CastFrame(s, fd, cast), s.conns[fd].minor)) && d.attached == Some(id)
  {
    hide WithoutWriters, Unregister;
  }

  /** Nobody who is still there has lost or gained a session. */
  lemma BroadcastOwns(s: Server, id: SessionId, cast: Cast, fd: Fd, other: SessionId)
    requires Ownership(s) && fd in Broadcast(s, Attached(s, id), cast).conns
    ensures fd in s.conns && (Owns(Broadcast(s, Attached(s, id), cast), other, fd) <==> Owns(s, other, fd))
  {
    var gone := Overflowing(s, Attached(s, id), cast);
    WithoutWritersByFd(s, gone);
    hide WithoutWriters, Unregister, Fits;
  }

  lemma BroadcastView(s: Server, id: SessionId, cast: Cast, fd: Fd)
    requires Ownership(s) && fd in Broadcast(s, Attached(s, id), cast).conns && fd in s.conns && ViewSound(s, fd)
    ensures ViewSound(Emit(Broadcast(s, Attached(s, id), cast), id, CastEvent(cast)), fd)
  {
    var b := Broadcast(s, Attached(s, id), cast);
    var c := s.conns[fd];
    var e := CastEvent(cast);
    BroadcastConn(s, id, cast, fd);
    assert b.events == s.events;
    hide Broadcast, Faithful, Owns, Attached, CastEvent, CastFrame, Ownership;
    if c.attached.Some? {
      var other := c.attached.value;
      BroadcastOwns(s, id, cast, fd, other);
      EmitFrame(b, id, e, other, fd);
      assert Faithful(c, History(s, other), Owns(s, other, fd));
      assert History(b, other) == History(s, other);
      hide History, Emit;
      if other != id {
        assert History(s, other) + [] == History(s, other);
      } else {
        CastCarriesEvent(s, fd, cast);
        EventStaysFaithful(c, b.conns[fd], Queued(CastFrame(s, fd, cast), c.minor), History(s, id), Owns(s, id, fd), e);
      }
    }
  }

  lemma CastCarriesEvent(s: Server, fd: Fd, cast: Cast)
    requires fd in s.conns
    ensures EventOf(CastFrame(s, fd, cast).message) == [CastEvent(cast)]
  {
  }

  lemma EmitFrame(s: Server, id: SessionId, e: StreamEvent, other: SessionId, fd: Fd)
    ensures Emit(s, id, e).conns == s.conns
    ensures Owns(Emit(s, id, e), other, fd) == Owns(s, other, fd)
    ensures History(Emit(s, id, e), other) == History(s, other) + if other == id then [e] else []
  {
    assert History(s, other) + [] == History(s, other);
  }

  lemma EmitKeeps(s: Server, id: SessionId, e: StreamEvent, lingering: set<Fd>)
    requires Core(s, lingering)
    ensures Core(Emit(s, id, e), lingering) && Advances(s, Emit(s, id, e))
    ensures Emit(s, id, e).runtime == s.runtime && Emit(s, id, e).starts == s.starts
    ensures Emit(s, id, e).controller == s.controller
    ensures History(Emit(s, id, e), id) == History(s, id) + [e]
    ensures forall other: SessionId :: other != id ==> History(Emit(s, id, e), other) == History(s, other)
  {
    EmitCore(s, id, e, lingering);
    hide Core;
  }

  lemma EmitCore(s: Server, id: SessionId, e: StreamEvent, lingering: set<Fd>)
    requires Core(s, lingering)
    ensures Core(Emit(s, id, e), lingering)
  {
    hide RuntimeSound, RegistrySound, ConnSound, History;
  }

  /** `s'` is `s` after a session has emitted `events` and everybody attached has been served. */
  ghost predicate Published(s: Server, s': Server, id: SessionId, events: seq<StreamEvent>, lingering: set<Fd>)
  {
    && Core(s', lingering) && Views(s', {}) && Advances(s, s')
    && s'.runtime == s.runtime && s'.starts == s.starts
    && History(s', id) == History(s, id) + events
    && forall other: SessionId :: other != id ==> History(s', other) == History(s, other)
  }

  /** One broadcast, recorded. */
  lemma CastKeeps(s: Server, id: SessionId, cast: Cast, lingering: set<Fd>)
    requires Core(s, lingering) && Views(s, {})
    ensures var s' := Emit(Broadcast(s, Attached(s, id), cast), id, CastEvent(cast));
            Published(s, s', id, [CastEvent(cast)], lingering) && s'.controller == s.controller
  {
    hide Core, Views, Advances, History, Broadcast, Attached, Emit, Ownership, CastEvent;
    var b := Broadcast(s, Attached(s, id), cast);
    CoreOwns(s, lingering);
    BroadcastCore(s, id, cast, lingering);
    BroadcastKeepsViews(s, id, cast, {});
    EmitKeeps(b, id, CastEvent(cast), lingering);
    AdvancesTrans(s, b, Emit(b, id, CastEvent(cast)));
    BroadcastFrame(s, id, cast);
  }

  /** The controller is nobody's audience. */
  lemma BroadcastFrame(s: Server, id: SessionId, cast: Cast)
    requires Ownership(s)
    ensures var b := Broadcast(s, Attached(s, id), cast);
            && b.controller == s.controller && b.runtime == s.runtime && b.starts == s.starts
            && forall other: SessionId :: History(b, other) == History(s, other)
  {
    hide WithoutWriters, Unregister, Fits;
  }

  lemma ChunksSnoc(parts: seq<seq<byte>>)
    requires parts != []
    ensures Chunks(parts) == Chunks(parts[..|parts| - 1]) + [Chunk(parts[|parts| - 1])]
  {
  }

  lemma PublishSnoc(s: Server, id: SessionId, chunks: seq<seq<byte>>)
    requires chunks != []
    ensures var init := Publish(s, id, chunks[..|chunks| - 1]);
            var cast := CastOutput(chunks[|chunks| - 1]);
            && Publish(s, id, chunks) == Emit(Broadcast(init, Attached(init, id), cast), id, CastEvent(cast))
            && CastEvent(cast) == Chunk(chunks[|chunks| - 1])
  {
    hide Broadcast, Emit, Attached;
  }

  lemma PublishedOneMore(s: Server, s1: Server, s2: Server, id: SessionId, events: seq<StreamEvent>, e: StreamEvent,
      lingering: set<Fd>)
    requires Published(s, s1, id, events, lingering) && Published(s1, s2, id, [e], lingering)
    ensures Published(s, s2, id, events + [e], lingering)
  {
    hide Core, Views, Advances, History;
    AdvancesTrans(s, s1, s2);
    assert History(s, id) + events + [e] == History(s, id) + (events + [e]);
  }

  lemma NothingPublished(s: Server, id: SessionId, lingering: set<Fd>)
    requires Core(s, lingering) && Views(s, {})
    ensures Published(s, s, id, [], lingering)
  {
    hide Core, Views;
    assert History(s, id) + [] == History(s, id);
  }

  lemma {:induction false} PublishKeeps(s: Server, id: SessionId, chunks: seq<seq<byte>>, lingering: set<Fd>)
    requires Core(s, lingering) && Views(s, {})
    ensures Published(s, Publish(s, id, chunks), id, Chunks(chunks), lingering)
    decreases |chunks|
  {
    if chunks == [] {
      hide Core, Views, Published;
      NothingPublished(s, id, lingering);
    } else {
      var init := Publish(s, id, chunks[..|chunks| - 1]);
      var chunk := chunks[|chunks| - 1];
      PublishSnoc(s, id, chunks);
      ChunksSnoc(chunks);
      hide Core, Views, Advances, History, Publish, Chunks, Broadcast, Emit, Attached, CastEvent;
      PublishKeeps(s, id, chunks[..|chunks| - 1], lingering);
      CastKeeps(init, id, CastOutput(chunk), lingering);
      PublishedOneMore(s, init, Publish(s, id, chunks), id, Chunks(chunks[..|chunks| - 1]), Chunk(chunk), lingering);
    }
  }

  // ---- Writer hand-over -----------------------------------------------------------------

  /** Revoking: whoever stops being the recorded writer is told, or is dropped. */
  lemma RevokeViews(s: Server, id: SessionId, was: Fd, except: set<Fd>)
    requires was in s.conns && s.conns[was].attached == Some(id)
    requires !Owns(s, id, was) && Faithful(s.conns[was], History(s, id), true)
    requires was !in except
    requires var s' := QueueOrDisconnect(s, was, Event(s, WriteRevoked(id)));
             Views(s', except + {was})
    ensures Views(QueueOrDisconnect(s, was, Event(s, WriteRevoked(id))), except)
  {
    hide Faithful;
    var f := Event(s, WriteRevoked(id));
    var s' := QueueOrDisconnect(s, was, f);
    if CanQueue(s, was, f) {
      RevokedStaysFaithful(s.conns[was], s'.conns[was], Queued(f, s.conns[was].minor), History(s, id), true);
      assert ViewSound(s', was);
    } else {
      hide ViewSound, Unregister, WithoutWriters;
    }
  }

  lemma RevokeKeeps(s: Server, id: SessionId, was: Fd, lingering: set<Fd>, except: set<Fd>)
    requires Core(s, lingering) && was in s.conns && s.conns[was].attached == Some(id)
    requires !Owns(s, id, was) && Faithful(s.conns[was], History(s, id), true)
    requires Views(s, except + {was}) && was !in except
    ensures var s' := QueueOrDisconnect(s, was, Event(s, WriteRevoked(id)));
            Core(s', lingering) && Views(s', except) && Advances(s, s')
  {
    hide Core, Faithful, ViewSound, Advances, QueueOrDisconnect;
    QueueOrDisconnectKeeps(s, was, Event(s, WriteRevoked(id)), lingering, except + {was});
    RevokeViews(s, id, was, except);
  }

  lemma DropWriterCore(s: Server, id: SessionId, lingering: set<Fd>)
    requires Core(s, lingering)
    ensures var s1 := s.(writers := s.writers - {id});
            Core(s1, lingering) && Advances(s, s1)
  {
    hide ConnSound, RuntimeSound, RegistrySound;
  }

  lemma DropWriterViews(s: Server, id: SessionId)
    requires Ownership(s) && Views(s, {}) && id in s.writers
    ensures var s1 := s.(writers := s.writers - {id});
            var was := s.writers[id];
            && Views(s1, {was})
            && was in s.conns && s.conns[was].attached == Some(id)
            && Faithful(s.conns[was], History(s, id), true)
  {
    hide Faithful;
    var was := s.writers[id];
    var s1 := s.(writers := s.writers - {id});
    assert ViewSound(s, was);
    forall fd | fd in s1.conns && fd != was ensures ViewSound(s1, fd) {
      assert ViewSound(s, fd);
    }
  }

  lemma ReleaseWriterKeeps(s: Server, id: SessionId, lingering: set<Fd>)
    requires Core(s, lingering) && Views(s, {})
    ensures Core(ReleaseWriter(s, id), lingering) && Views(ReleaseWriter(s, id), {})
    ensures Advances(s, ReleaseWriter(s, id))
  {
    if id in s.writers {
      hide Core, Faithful, ViewSound, QueueOrDisconnect, Advances;
      var s1 := s.(writers := s.writers - {id});
      DropWriterCore(s, id, lingering);
      CoreOwns(s, lingering);
      DropWriterViews(s, id);
      RevokeKeeps(s1, id, s.writers[id], lingering, {});
      AdvancesTrans(s, s1, ReleaseWriter(s, id));
    } else {
      hide Core, ViewSound;
    }
  }

  lemma DetachSessionTables(s: Server, id: SessionId, lingering: set<Fd>)
    requires Tables(s, lingering)
    ensures Tables(DetachSession(s, id), lingering)
  {
    hide RuntimeSound, RegistrySound, Sound;
  }

  lemma DetachSessionViews(s: Server, id: SessionId)
    requires Ownership(s) && Views(s, {})
    ensures Ownership(DetachSession(s, id)) && Views(DetachSession(s, id), {})
  {
    hide Faithful;
    var s' := DetachSession(s, id);
    forall fd | fd in s'.conns ensures ViewSound(s', fd) {
      assert ViewSound(s, fd);
    }
  }

  lemma DetachSessionKeeps(s: Server, id: SessionId, lingering: set<Fd>)
    requires Core(s, lingering) && Views(s, {})
    ensures Core(DetachSession(s, id), lingering) && Views(DetachSession(s, id), {})
    ensures Advances(s, DetachSession(s, id))
  {
    hide *;
    CoreOwns(s, lingering);
    CoreTables(s, lingering);
    DetachSessionTables(s, id, lingering);
    DetachSessionViews(s, id);
    DetachSessionShape(s, id);
    CoreParts(DetachSession(s, id), lingering);
  }

  lemma DetachSessionShape(s: Server, id: SessionId)
    requires Armed(s)
    ensures Armed(DetachSession(s, id)) && Advances(s, DetachSession(s, id))
  {
  }
}
