/** What clients, the daemon and the terminals can rely on in every reachable Holder state. */
module HolderTheorems {
  import opened Bytes
  import opened ByteQueues
  import opened HolderFrames
  import opened Connections
  import opened Reactors
  import opened HolderRuntimes
  import opened HolderStates
  import opened HolderInvariants
  import opened HolderSteps
  import opened HolderKeeps
  import opened HolderData
  import opened HolderRuns

  function Initial(codec: Codec, instance: nat, listener: Fd, signals: Fd, logs: Fd): Server
  {
    var r := Register(Register(Register(NO_REGISTRATIONS, listener, false), signals, false), logs, false);
    Server(codec, instance, {listener, signals, logs}, r, NO_SESSIONS, map[], map[], None, None, map[], map[])
  }

  lemma InitialTables(codec: Codec, instance: nat, listener: Fd, signals: Fd, logs: Fd)
    requires listener != signals && signals != logs && listener != logs
    ensures Tables(Initial(codec, instance, listener, signals, logs), {})
  {
    NothingIsSound();
    hide RegistrySound, Register, RuntimeSound;
    var r1 := Register(NO_REGISTRATIONS, listener, false);
    var r2 := Register(r1, signals, false);
    RegisterKeys(NO_REGISTRATIONS, listener, false);
    RegisterKeeps(NO_REGISTRATIONS, listener, false);
    RegisterKeys(r1, signals, false);
    RegisterKeeps(r1, signals, false);
    RegisterKeys(r2, logs, false);
    RegisterKeeps(r2, logs, false);
    assert Initial(codec, instance, listener, signals, logs).reactor.tokens.Keys == {listener, signals, logs};
  }

  lemma NothingIsSound()
    ensures RegistrySound(NO_REGISTRATIONS) && NO_REGISTRATIONS.tokens.Keys == {} && NO_REGISTRATIONS.adds == 0
    ensures RuntimeSound(NO_SESSIONS)
  {
  }

  lemma InitialGood(codec: Codec, instance: nat, listener: Fd, signals: Fd, logs: Fd)
    requires listener != signals && signals != logs && listener != logs
    ensures Good(Initial(codec, instance, listener, signals, logs), {})
  {
    InitialTables(codec, instance, listener, signals, logs);
    hide Register, Tables, StreamBytes;
  }

  /** A state some run of events leads to. */
  ghost predicate Reachable(s: Server)
  {
    exists codec: Codec, instance: nat, listener: Fd, signals: Fd, logs: Fd, es: seq<HolderEvent> ::
      ReachedBy(s, codec, instance, listener, signals, logs, es)
  }

  ghost predicate ReachedBy(s: Server, codec: Codec, instance: nat, listener: Fd, signals: Fd, logs: Fd,
      es: seq<HolderEvent>)
  {
    && listener != signals && signals != logs && listener != logs
    && var s0 := Initial(codec, instance, listener, signals, logs);
       (assert Good(s0, {}) by { InitialGood(codec, instance, listener, signals, logs); }
        Exec(s0, es) == Some(s))
  }

  /** Whatever the peers, terminals and children do, and in whatever order. */
  lemma EveryRunKeepsTheInvariant(s: Server)
    requires Reachable(s)
    ensures Good(s, {})
  {
    var codec, instance, listener, signals, logs, es :| ReachedBy(s, codec, instance, listener, signals, logs, es);
    InitialGood(codec, instance, listener, signals, logs);
    var s0 := Initial(codec, instance, listener, signals, logs);
    hide Good, Exec;
    assert Exec(s0, es) == Some(s);
  }

  // ---- Ownership --------------------------------------------------------------------

  lemma GoodOwns(s: Server)
    requires Good(s, {})
    ensures Ownership(s)
  {
    hide Ownership, Tables, Armed, ViewSound, StreamSound;
  }

  lemma GoodView(s: Server, fd: Fd)
    requires Good(s, {}) && fd in s.conns
    ensures ViewSound(s, fd)
  {
    hide Core, ViewSound, StreamSound;
  }

  lemma GoodStream(s: Server, id: SessionId)
    requires Good(s, {})
    ensures StreamSound(s, id)
  {
    hide Core, ViewSound, StreamSound;
  }

  /** Every recorded writer is a live data connection attached to that session; there is at most
      one control connection, the controller; with no controller there are neither data
      connections nor writers. */
  lemma WritersAreLive(s: Server)
    requires Reachable(s)
    ensures forall id :: id in s.writers ==>
              (s.writers[id] in s.conns && s.conns[s.writers[id]].role.Data?
                && s.conns[s.writers[id]].attached == Some(id))
    ensures forall fd :: fd in s.conns && s.conns[fd].role.Control? ==> IsController(s, fd)
    ensures s.controller.None? ==> s.writers == map[] && DataFds(s) == {}
  {
    EveryRunKeepsTheInvariant(s);
    GoodOwns(s);
    hide Reachable, Good, Ownership;
    OwnershipFacts(s);
  }

  lemma OwnershipFacts(s: Server)
    requires Ownership(s)
    ensures forall id :: id in s.writers ==>
              (s.writers[id] in s.conns && s.conns[s.writers[id]].role.Data?
                && s.conns[s.writers[id]].attached == Some(id))
    ensures forall fd :: fd in s.conns && s.conns[fd].role.Control? ==> IsController(s, fd)
    ensures s.controller.None? ==> s.writers == map[] && DataFds(s) == {}
  {
    forall id | id in s.writers
      ensures s.writers[id] in s.conns && s.conns[s.writers[id]].role.Data?
              && s.conns[s.writers[id]].attached == Some(id)
    {
      var fd := s.writers[id];
      assert fd in s.conns;
      assert s.conns[fd].attached == Some(id);
      assert s.conns[fd].role.Data?;
    }
    assert s.controller.None? ==> s.writers == map[] && DataFds(s) == {} by {
      if s.controller.None? {
        NoControllerNoWriters(s);
      }
    }
  }

  /** Every data connection belongs to the very process that is the controller, and so does the
      controller's own connection. */
  lemma DataPeersAreTheController(s: Server, fd: Fd)
    requires Reachable(s) && fd in s.conns && (s.conns[fd].role.Data? || s.conns[fd].role.Control?)
    ensures s.controller.Some? && s.conns[fd].pid == s.controller.value.pid
  {
    EveryRunKeepsTheInvariant(s);
    GoodOwns(s);
    hide Reachable, Good;
  }

  /** No descriptor is at once a static, a peer and a terminal, and exactly those are registered. */
  lemma DescriptorsPlayOnePart(s: Server)
    requires Reachable(s)
    ensures s.statics !! s.conns.Keys !! s.runtime.ptys.Keys
    ensures s.reactor.tokens.Keys == s.statics + s.conns.Keys + s.runtime.ptys.Keys
    ensures RegistrySound(s.reactor)
  {
    hide *;
    EveryRunKeepsTheInvariant(s);
    GoodParts(s, {});
    CoreTables(s, {});
    TablesFacts(s);
  }

  lemma TablesFacts(s: Server)
    requires Tables(s, {})
    ensures s.statics !! s.conns.Keys !! s.runtime.ptys.Keys
    ensures s.reactor.tokens.Keys == s.statics + s.conns.Keys + s.runtime.ptys.Keys
    ensures RegistrySound(s.reactor)
  {
    hide RegistrySound, RuntimeSound, ConnSound;
  }

  /** A token taken from the kernel before some events and still resolving after them has meant
      the same descriptor throughout, even if descriptor numbers were closed and reused. */
  lemma StaleEventsAreDropped(s0: Server, before: seq<HolderEvent>, after: seq<HolderEvent>, token: nat)
    requires Good(s0, {}) && Exec(s0, before).Some?
    requires Exec(Exec(s0, before).value, after).Some?
    requires token in s0.reactor.fds
    requires token in Exec(Exec(s0, before).value, after).value.reactor.fds
    ensures var s1 := Exec(s0, before).value;
            var s2 := Exec(s1, after).value;
            && s2.reactor.fds[token] == s0.reactor.fds[token]
            && token in s1.reactor.fds && s1.reactor.fds[token] == s0.reactor.fds[token]
  {
    var s1 := Exec(s0, before).value;
    var s2 := Exec(s1, after).value;
    hide Ownership, Armed, ViewSound, StreamSound, RegistrySound, RuntimeSound, ConnSound, Exec, Tracks, Evolves;
    ResolvesOnlyIfContinuous(s0.reactor, s1.reactor, s2.reactor, token);
  }

  // ---- Delivery ------------------------------------------------------------------------

  /** The bytes an attached client has been sent since it attached are, gap-free, the tail of the
      session id's whole stream: everything emitted since it joined, and before that the last
      `min(replay bytes asked for, bytes in the ring)` bytes its session had printed by then. */
  lemma GapFreeDelivery(s: Server, fd: Fd)
    requires Reachable(s) && fd in s.conns && s.conns[fd].attached.Some?
    ensures var c := s.conns[fd];
            c.mark <= |c.log| && c.origin.begin <= c.from <= |History(s, c.attached.value)|
            && Continuous(StreamBytes(Deliveries(Since(c))), c, History(s, c.attached.value))
  {
    EveryRunKeepsTheInvariant(s);
    GoodView(s, fd);
    hide Reachable, Faithful, Good, Continuous;
    var c := s.conns[fd];
    DeliveredTail(c, History(s, c.attached.value), Owns(s, c.attached.value, fd));
  }

  /** `delivered` is a suffix of the stream and starts exactly the replay's length before the
      point where the connection joined; and the replay was as long as it could be. */
  ghost predicate Continuous(delivered: seq<byte>, c: Conn, history: seq<StreamEvent>)
    requires c.origin.begin <= c.from <= |history|
  {
    && IsSuffix(delivered, StreamBytes(history))
    && |delivered| == |Concat(c.replay)| + |StreamBytes(history[c.from..])|
    && |Concat(c.replay)|
       == Min(c.origin.asked, Min(c.origin.capacity, |StreamBytes(history[c.origin.begin..c.from])|))
  }

  lemma DeliveredTail(c: Conn, history: seq<StreamEvent>, owner: bool)
    requires Faithful(c, history, owner)
    ensures c.mark <= |c.log| && c.origin.begin <= c.from <= |history|
    ensures Continuous(StreamBytes(Deliveries(Since(c))), c, history)
  {
    var seen := history[..c.from];
    var later := history[c.from..];
    assert seen + later == history;
    hide Deliveries, LastWord, StreamBytes, Chunks, Concat;
    StreamBytesAppend(seen, later);
    StreamBytesAppend(Chunks(c.replay), later);
    ChunksAreTheirBytes(c.replay);
    OwedIsSuffix(c, history);
    SuffixAppend(Concat(c.replay), StreamBytes(seen), StreamBytes(later));
  }

  /** The replay ring of a session holds the end of everything it has printed since it began. */
  lemma RingHoldsTheTail(s: Server, id: SessionId)
    requires Reachable(s) && id in s.runtime.sessions
    ensures Begin(s, id) <= |History(s, id)|
    ensures s.runtime.sessions[id].ring
         == LastN(StreamBytes(History(s, id)[Begin(s, id)..]), s.runtime.sessions[id].ringCapacity)
  {
    hide Good, Reachable;
    EveryRunKeepsTheInvariant(s);
    GoodStream(s, id);
  }

  /** What a socket has taken is always a prefix of the frames queued to it, and what it has not
      taken yet is queued, counted and bounded. */
  lemma SocketsTakeAPrefix(s: Server, fd: Fd)
    requires Reachable(s) && fd in s.conns
    ensures var c := s.conns[fd];
            Encodable(s.codec, c.log) && c.sent <= Wire(s.codec, c.log)
            && |Wire(s.codec, c.log)| - |c.sent| == c.output.size <= MAX_PENDING_OUTPUT
  {
    EveryRunKeepsTheInvariant(s);
    GoodOutput(s, fd);
    hide Reachable, Good;
  }

  /** A successful attach joins the stream where it stands, and replays exactly the last
      `min(replayBytes, ring length)` bytes of it, in frames of at most 64 KiB. */
  lemma AttachReplaysTheTail(s: Server, fd: Fd, f: InFrame)
    requires Good(s, {}) && fd in s.conns && s.conns[fd].role.Data? && f.request.Attach?
    requires f.request.attach.Some? && f.request.attach.value.session in s.runtime.sessions
    requires HandleAttach(s, fd, f).1
    ensures var request := f.request.attach.value;
            var s' := HandleAttach(s, fd, f).0;
            var ring := s.runtime.sessions[request.session].ring;
            && fd in s'.conns
            && s'.conns[fd].attached == Some(request.session)
            && s'.conns[fd].from == |History(s, request.session)|
            && s'.conns[fd].origin == Origin(Begin(s, request.session),
                 s.runtime.sessions[request.session].ringCapacity, request.replayBytes)
            && Concat(s'.conns[fd].replay) == LastN(ring, request.replayBytes)
            && |Concat(s'.conns[fd].replay)| == Min(request.replayBytes, |ring|)
            && (forall i :: 0 <= i < |s'.conns[fd].replay| ==> |s'.conns[fd].replay[i]| <= MAX_IO_FRAME)
            && (request.readWrite <==> Owns(s', request.session, fd))
  {
    hide Good, DetachConnection, Advances, TakeOver, QueueAll, Welcome, Split, LastN, Concat, Begin;
    var request := f.request.attach.value;
    DetachGood(s, fd);
    var s0 := DetachConnection(s, fd);
    TakeOverGood(s0, fd, request);
    var s1 := TakeOver(s0, fd, request);
    assert Begin(s0, request.session) == Begin(s, request.session) by { DetachHistory(s, fd, request.session); }
    QueueAllGood(s1, fd, Welcome(s1, fd, f, request));
    QueueAllReads(s1, fd, Welcome(s1, fd, f, request));
    assert History(s0, request.session) == History(s, request.session) by { DetachHistory(s, fd, request.session); }
  }

  lemma DetachHistory(s: Server, fd: Fd, id: SessionId)
    ensures History(DetachConnection(s, fd), id) == History(s, id)
    ensures Begin(DetachConnection(s, fd), id) == Begin(s, id)
  {
  }

  /** What an attached client was last told about writing is the truth. */
  lemma ClientsKnowWhetherTheyMayWrite(s: Server, fd: Fd)
    requires Reachable(s) && fd in s.conns && s.conns[fd].attached.Some?
    ensures s.conns[fd].mark <= |s.conns[fd].log|
    ensures LastWord(Since(s.conns[fd])) == Granted <==> Owns(s, s.conns[fd].attached.value, fd)
  {
    EveryRunKeepsTheInvariant(s);
    hide Reachable, Core, StreamSound;
    assert ViewSound(s, fd);
  }

  /** Pending output is always armed for writing, and nothing else is. */
  lemma NoLostOutputWakeups(s: Server, fd: Fd)
    requires Reachable(s) && fd in s.conns
    ensures fd in s.reactor.writable
    ensures s.reactor.writable[fd] <==> s.conns[fd].output.chunks != []
  {
    EveryRunKeepsTheInvariant(s);
    hide Reachable;
    PeerIsNotTerminal(s, fd, {});
    assert fd in s.reactor.writable by { hide Ownership, Armed, ViewSound, StreamSound, ConnSound, RuntimeSound; }
    hide Ownership, Tables, ViewSound, StreamSound;
  }

  // ---- Exits -----------------------------------------------------------------------------

  /** Each session started under an id either still runs or has had its exit recorded, once. */
  lemma ExactlyOneExitEach(s: Server, id: SessionId)
    requires Reachable(s)
    ensures ExitCount(History(s, id)) + (if IsRunning(s.runtime, id) then 1 else 0) == Starts(s, id)
  {
    hide *;
    EveryRunKeepsTheInvariant(s);
    GoodStream(s, id);
    StreamFacts(s, id);
  }

  lemma StreamFacts(s: Server, id: SessionId)
    requires StreamSound(s, id)
    ensures !IsRunning(s.runtime, id) && History(s, id) != [] ==> History(s, id)[|History(s, id)| - 1].Exit?
    ensures ExitCount(History(s, id)) + (if IsRunning(s.runtime, id) then 1 else 0) == Starts(s, id)
  {
  }

  /** While an exited session is listed, every client that joined it before its exit has been
      told the exit code, as the last thing. */
  lemma ExitIsTheLastWord(s: Server, id: SessionId, fd: Fd)
    requires Reachable(s) && id in s.runtime.sessions && s.runtime.sessions[id].exitCode.Some?
    requires fd in s.conns && s.conns[fd].attached == Some(id) && s.conns[fd].from < |History(s, id)|
    ensures s.conns[fd].mark <= |s.conns[fd].log|
    ensures var d := Deliveries(Since(s.conns[fd]));
            d != [] && d[|d| - 1] == Exit(s.runtime.sessions[id].exitCode.value)
  {
    hide Reachable, Good, Faithful, IsSuffix, StreamBytes, ExitCount, Deliveries;
    EveryRunKeepsTheInvariant(s);
    GoodStream(s, id);
    GoodView(s, fd);
    LastIsDelivered(s.conns[fd], History(s, id), Owns(s, id, fd));
  }

  lemma LastIsDelivered(c: Conn, history: seq<StreamEvent>, owner: bool)
    requires Faithful(c, history, owner) && c.from < |history|
    ensures c.mark <= |c.log|
    ensures var d := Deliveries(Since(c)); d != [] && d[|d| - 1] == history[|history| - 1]
  {
    hide Deliveries, StreamBytes, LastWord;
  }

  /** An attached client has had one exit notice for each exit since it joined, no more, no less. */
  lemma ExitNoticesMatchExits(s: Server, fd: Fd)
    requires Reachable(s) && fd in s.conns && s.conns[fd].attached.Some?
    ensures s.conns[fd].mark <= |s.conns[fd].log|
    ensures s.conns[fd].from <= |History(s, s.conns[fd].attached.value)|
    ensures ExitCount(Deliveries(Since(s.conns[fd])))
         == ExitCount(History(s, s.conns[fd].attached.value)[s.conns[fd].from..])
  {
    hide Reachable, Good, LastWord, Concat, StreamBytes, Deliveries, ExitCount, Chunks, Owed;
    EveryRunKeepsTheInvariant(s);
    GoodView(s, fd);
    var c := s.conns[fd];
    StreamBytesAppend(Chunks(c.replay), History(s, c.attached.value)[c.from..]);
    ChunksAreTheirBytes(c.replay);
  }

  /** What the daemon is told when it asks how a session ended: the exit code, exactly if the session
      is held and has exited, and then the one its clients were told; otherwise why not. */
  lemma DaemonLearnsTheExit(s: Server, id: SessionId, v2: bool)
    requires Reachable(s)
    ensures var m := ExitContextMessage(s, id, v2);
            var history := History(s, id);
            && m.ExitContextResp? && m.session == id
            && (m.opStatus == NotFound <==> id !in s.runtime.sessions)
            && (m.opStatus == Conflict <==> IsRunning(s.runtime, id))
            && (m.opStatus == OpOk <==> m.exitCode.Some?)
            && (m.exitCode.Some? <==> id in s.runtime.sessions && !IsRunning(s.runtime, id))
            && (m.exitCode.Some? ==> history != [] && history[|history| - 1] == Exit(m.exitCode.value))
            && (!v2 ==> m.context.environment == None)
  {
    hide Reachable, Good;
    EveryRunKeepsTheInvariant(s);
    GoodStream(s, id);
    hide StreamBytes, ExitCount;
  }

  /** Once an id has nothing running, nothing more is emitted under it until a new session is
      started: no output follows an exit. */
  lemma SilentUntilRestarted(s: Server, es: seq<HolderEvent>, id: SessionId)
    requires Good(s, {}) && !IsRunning(s.runtime, id) && Exec(s, es).Some?
    requires Starts(Exec(s, es).value, id) == Starts(s, id)
    ensures History(Exec(s, es).value, id) == History(s, id)
    ensures !IsRunning(Exec(s, es).value.runtime, id)
  {
    hide *;
    var s' := Exec(s, es).value;
    AdvancesHistory(s, s', id);
    GoodStream(s, id);
    GoodStream(s', id);
    StreamFacts(s, id);
    StreamFacts(s', id);
    NothingMore(History(s, id), History(s', id), IsRunning(s'.runtime, id));
  }

  lemma AdvancesHistory(s: Server, s': Server, id: SessionId)
    requires Advances(s, s')
    ensures History(s, id) <= History(s', id)
  {
    hide Evolves, Tracks;
  }

  /** An exit is the last thing in a settled history, so a longer one would count another exit. */
  lemma NothingMore(h: seq<StreamEvent>, h': seq<StreamEvent>, running: bool)
    requires h <= h'
    requires !running && h' != [] ==> h'[|h'| - 1].Exit?
    requires ExitCount(h') + (if running then 1 else 0) == ExitCount(h)
    ensures h' == h && !running
  {
    var more := h'[|h|..];
    assert h' == h + more;
    StreamBytesAppend(h, more);
    if more != [] {
      LastOfTail(h, more);
    }
  }

  lemma LastOfTail(h: seq<StreamEvent>, more: seq<StreamEvent>)
    requires more != []
    ensures (h + more)[|h + more| - 1].Exit? ==> ExitCount(more) > 0
  {
  }

  /** The frames one exit announcement adds to an attached client that survives it: a revocation
      if it was the writer, then exactly one notice, in the form its protocol minor calls for. */
  lemma AnnouncementInOrder(s: Server, e: ExitedSession, lingering: set<Fd>, fd: Fd)
    requires Core(s, lingering) && e.pty in lingering && Views(s, {})
    requires fd in s.conns && s.conns[fd].attached == Some(e.session)
    requires fd in AnnounceExit(s, e).conns
    ensures var c := s.conns[fd];
            var notice := Event(s, SessionExited(e.session, e.code, e.context, c.minor == CURRENT_MINOR));
            var revoked := if Owns(s, e.session, fd) then [Queued(Event(s, WriteRevoked(e.session)), c.minor)] else [];
            AnnounceExit(s, e).conns[fd].log == c.log + revoked + [Queued(notice, c.minor)]
    ensures e.session !in AnnounceExit(s, e).writers
    ensures AnnounceExit(s, e).conns[fd].attached == if e.closing then None else Some(e.session)
  {
    var id := e.session;
    var s0 := s.(reactor := Unregister(s.reactor, {e.pty}));
    hide Core, ViewSound, Advances, ReleaseWriter, Broadcast, DetachSession, SendControl, Attached;
    UnregisterTerminal(s, e.pty, lingering);
    var rest := lingering - {e.pty};
    CoreOwns(s0, rest);
    var s1 := ReleaseWriter(s0, id);
    ReleaseEffect(s0, id, fd);
    ViewsCarryOver(s, s0, {});
    ReleaseWriterKeeps(s0, id, rest);
    var cast := CastExit(id, e.code, e.context);
    var s2 := Emit(Broadcast(s1, Attached(s1, id), cast), id, Exit(e.code));
    CastKeeps(s1, id, cast, rest);
    BroadcastEffect(s1, id, cast, fd);
    BroadcastWriters(s1, id, cast);
    var s3 := if e.closing then DetachSession(s2, id) else s2;
    DetachEffect(s2, id, fd);
    NotTheController(s, e, lingering, fd);
    if s3.controller.Some? {
      var m := SessionExited(id, e.code, e.context, s3.controller.value.minor == CURRENT_MINOR);
      ControlEffect(s3, m, fd);
    }
  }

  /** The attached connection is a data connection, so telling the controller does not reach it. */
  lemma NotTheController(s: Server, e: ExitedSession, lingering: set<Fd>, fd: Fd)
    requires Core(s, lingering) && fd in s.conns && s.conns[fd].attached == Some(e.session)
    ensures s.controller.Some? ==> s.controller.value.fd != fd
  {
    hide Tables, Armed;
  }

  lemma DetachEffect(s: Server, id: SessionId, fd: Fd)
    ensures var s1 := DetachSession(s, id);
            && s1.conns.Keys == s.conns.Keys && id !in s1.writers
            && s1.controller == s.controller && s1.runtime == s.runtime
            && (fd in s.conns ==>
                  && s1.conns[fd].log == s.conns[fd].log
                  && s1.conns[fd].attached == if s.conns[fd].attached == Some(id) then None else s.conns[fd].attached)
  {
  }

  lemma ReleaseEffect(s: Server, id: SessionId, fd: Fd)
    requires Ownership(s) && fd in s.conns && s.conns[fd].attached == Some(id)
    ensures var s1 := ReleaseWriter(s, id);
            && id !in s1.writers && s1.controller == s.controller && s1.runtime == s.runtime && s1.codec == s.codec
            && (fd in s1.conns ==>
                  && s1.conns[fd].log == s.conns[fd].log
                     + (if Owns(s, id, fd) then [Queued(Event(s, WriteRevoked(id)), s.conns[fd].minor)] else [])
                  && s1.conns[fd].minor == s.conns[fd].minor
                  && s1.conns[fd].attached == Some(id))
  {
    hide Fits, Unregister, Push;
  }

  lemma BroadcastEffect(s: Server, id: SessionId, cast: Cast, fd: Fd)
    ensures var s1 := Broadcast(s, Attached(s, id), cast);
            && (fd in s1.conns ==> fd in s.conns)
            && (fd in s1.conns && s.conns[fd].attached == Some(id) ==>
                  && s1.conns[fd].log == s.conns[fd].log + [Queued(CastFrame(s, fd, cast), s.conns[fd].minor)]
                  && s1.conns[fd].attached == Some(id))
  {
    hide Unregister, Push, WithoutWriters;
  }

  lemma BroadcastWriters(s: Server, id: SessionId, cast: Cast)
    ensures Broadcast(s, Attached(s, id), cast).writers.Keys <= s.writers.Keys
    ensures Broadcast(s, Attached(s, id), cast).runtime == s.runtime
  {
    hide Unregister, Push, Fits;
  }

  /** Telling the controller reaches no data connection, except by dropping them all. */
  lemma ControlEffect(s: Server, m: Message, fd: Fd)
    requires s.controller.Some? && (fd in s.conns ==> s.controller.value.fd != fd)
    ensures var s1 := SendControl(s, m);
            && (fd in s1.conns ==> fd in s.conns && s1.conns[fd] == s.conns[fd])
            && s1.writers.Keys <= s.writers.Keys
  {
    hide Fits, Unregister, Push;
  }

  // ---- Generations and input ------------------------------------------------------------------

  /** Two states of one run with the same generation report the same inventory. */
  lemma EqualGenerationEqualInventory(s: Server, es: seq<HolderEvent>)
    requires Good(s, {}) && Exec(s, es).Some?
    requires Exec(s, es).value.runtime.bumps < U64
    requires Exec(s, es).value.runtime.generation == s.runtime.generation
    ensures HolderRuntimes.Inventory(Exec(s, es).value.runtime) == HolderRuntimes.Inventory(s.runtime)
  {
    GoodRuntime(s);
    GoodRuntime(Exec(s, es).value);
    hide Good, Exec, Evolves;
  }

  /** Terminals and running sessions are in bijection, and what a terminal has taken is a prefix
      of the input accepted for its session; the rest is queued, counted and bounded. */
  lemma TerminalsTakeAPrefix(s: Server, id: SessionId)
    requires Reachable(s) && id in s.runtime.sessions
    ensures var session := s.runtime.sessions[id];
            && session.delivered <= session.accepted
            && |session.accepted| - |session.delivered| == session.input.size <= MAX_PENDING_INPUT
            && (session.exitCode.Some? <==> session.pty.None?)
            && (forall fd :: session.pty == Some(fd) <==> fd in s.runtime.ptys && s.runtime.ptys[fd] == id)
  {
    hide Good, Reachable;
    EveryRunKeepsTheInvariant(s);
    GoodRuntime(s);
  }

  /** A terminal whose writes have never failed is armed exactly while input is pending. */
  lemma PendingInputIsArmed(s: Server, id: SessionId, pty: Fd)
    requires Reachable(s) && id in s.runtime.sessions && s.runtime.sessions[id].pty == Some(pty)
    ensures pty in s.reactor.writable
    ensures s.reactor.writable[pty] ==> s.runtime.sessions[id].input.chunks != []
    ensures !s.runtime.sessions[id].stuck ==>
              (s.reactor.writable[pty] <==> s.runtime.sessions[id].input.chunks != [])
  {
    hide Good, Reachable, RuntimeSound;
    EveryRunKeepsTheInvariant(s);
    TerminalFacts(s, id, pty);
  }

  lemma QueueOutcome(r: RuntimeState, id: SessionId, pty: Fd, data: seq<byte>, script: seq<WriteResult>)
    requires AcceptsInput(r, id, data) && Sound(r.sessions[id].input) && r.sessions[id].pty == Some(pty)
    ensures Sound(Push(r.sessions[id].input, data))
    ensures Full(r.sessions[id].input) ==> Full(Push(r.sessions[id].input, data))
    ensures var d := Drain(Push(r.sessions[id].input, data), script);
            var (r', res) := AfterQueueInput(r, id, data, script);
            && id in r'.sessions && r'.sessions[id].pty == Some(pty) && r'.sessions[id].input == d.queue
            && res == (if d.stop == Broken then InputRefused else InputPending(d.queue.chunks != []))
  {
    PushAppends(r.sessions[id].input, data);
    hide Drain, Sound, Push;
  }

  lemma InputIsSound(r: RuntimeState, id: SessionId)
    requires RuntimeSound(r) && id in r.sessions
    ensures Sound(r.sessions[id].input)
  {
    hide Sound;
  }

  /** The exception is real: accepted input ends pending on an unarmed terminal exactly when the
      terminal was not armed before and one of the writes fails outright while something is still
      pending, because the handler then gives up before arming. */
  lemma FailedWriteLosesTheWakeup(s: Server, fd: Fd, id: SessionId, pty: Fd, data: seq<byte>, script: seq<WriteResult>)
    requires Good(s, {}) && RuntimeSound(s.runtime) && fd in s.conns && RequireWriter(s, fd) == Some(id)
    requires AcceptsInput(s.runtime, id, data) && s.runtime.sessions[id].pty == Some(pty)
    ensures var s' := HandleInput(s, fd, data, script).0;
            && pty in s.reactor.writable && id in s'.runtime.sessions && pty in s'.reactor.writable
            && Sound(Push(s.runtime.sessions[id].input, data))
            && (s'.runtime.sessions[id].input.chunks != [] && !s'.reactor.writable[pty]
                <==> !s.reactor.writable[pty] && BreaksOff(Push(s.runtime.sessions[id].input, data), script))
  {
    assert Full(s.runtime.sessions[id].input) by { hide Good; }
    hide Good, RuntimeSound, Drain, Sound, Full, Push, AfterQueueInput, AcceptsInput, BreaksOff;
    TerminalFacts(s, id, pty);
    InputIsSound(s.runtime, id);
    QueueOutcome(s.runtime, id, pty, data, script);
    DrainStops(Push(s.runtime.sessions[id].input, data), script);
    FlushBreaks(Push(s.runtime.sessions[id].input, data), script);
  }

  /** A peer's frame adds to a session's accepted input only if it is an `Input` from the recorded
      writer of that session while it runs, and then adds exactly its payload. */
  lemma OnlyTheWriterIsHeard(s: Server, fd: Fd, f: InFrame, id: SessionId)
    requires Good(s, {}) && fd in s.conns && RuntimeSound(s.runtime)
    requires id in s.runtime.sessions && id in ProcessFrame(s, fd, f).0.runtime.sessions
    ensures var was := s.runtime.sessions[id];
            var now := ProcessFrame(s, fd, f).0.runtime.sessions[id];
            || now.accepted == was.accepted
            || (f.request.Input? && Owns(s, id, fd) && IsRunning(s.runtime, id)
                && now.accepted == was.accepted + f.request.data)
  {
    var was := RequireWriter(s, fd);
    FrameRuntime(s, fd, f);
    if f.request.Input? && was.Some? {
      GoodRuntime(s);
      hide Good, ProcessFrame;
      if was.value != id { OthersUnheard(s.runtime, was.value, f.request.data, f.request.script, id); }
      else { InputIsOrderedAndBounded(s.runtime, id, f.request.data, f.request.script); }
    }
  }

  lemma OthersUnheard(r: RuntimeState, id: SessionId, data: seq<byte>, script: seq<WriteResult>, other: SessionId)
    requires RuntimeSound(r) && other != id && other in r.sessions
    ensures var r' := AfterQueueInput(r, id, data, script).0;
            other in r'.sessions && r'.sessions[other] == r.sessions[other]
  {
    hide Drain;
    if AcceptsInput(r, id, data) {
      PushAppends(r.sessions[id].input, data);
    }
  }

  ghost predicate SameAccepted(r: RuntimeState, r': RuntimeState)
  {
    forall id :: id in r.sessions && id in r'.sessions ==> r'.sessions[id].accepted == r.sessions[id].accepted
  }

  /** What a frame can do to the session table. */
  lemma FrameRuntime(s: Server, fd: Fd, f: InFrame)
    requires fd in s.conns && RuntimeSound(s.runtime)
    ensures var r' := ProcessFrame(s, fd, f).0.runtime;
            || SameAccepted(s.runtime, r')
            || (f.request.Input? && RequireWriter(s, fd).Some?
                && r' == AfterQueueInput(s.runtime, RequireWriter(s, fd).value, f.request.data, f.request.script).0)
  {
    hide RuntimeSound;
    match s.conns[fd].role {
      case Pending => HelloRuntime(s, fd, f);
      case Control => hide SameAccepted; ControlRuntime(s, fd, f);
      case Data =>
        hide SameAccepted, AfterQueueInput;
        Unchanged(s.runtime);
        if f.request.Attach? {
          AttachRuntime(s, fd, f);
        }
    }
  }

  lemma Unchanged(r: RuntimeState)
    ensures SameAccepted(r, r)
  {
  }

  lemma HelloRuntime(s: Server, fd: Fd, f: InFrame)
    requires fd in s.conns
    ensures f.request.ControlHello? ==> HandleControlHello(s, fd, f).0.runtime == s.runtime
    ensures f.request.DataHello? ==> HandleDataHello(s, fd, f).0.runtime == s.runtime
  {
    hide Respond, Disconnect;
    forall s1: Server, m: Message ensures Respond(s1, fd, f, m).0.runtime == s1.runtime {
      RespondFrame(s1, fd, f, m);
    }
    if s.controller.Some? {
      DisconnectFrame(s, s.controller.value.fd);
    }
  }

  lemma DisconnectFrame(s: Server, fd: Fd)
    ensures Disconnect(s, fd).runtime == s.runtime
  {
  }

  /** An answer leaves the sessions alone. */
  lemma RespondFrame(s: Server, fd: Fd, f: InFrame, m: Message)
    ensures Respond(s, fd, f, m).0.runtime == s.runtime
  {
    hide Fits, Push, Rearm;
  }

  lemma ControlRuntime(s: Server, fd: Fd, f: InFrame)
    requires fd in s.conns
    ensures SameAccepted(s.runtime, HandleControl(s, fd, f).0.runtime)
  {
    var r' := HandleControl(s, fd, f).0.runtime;
    assert || r' == s.runtime
           || (f.request.Create? && f.request.create.Some? && f.request.create.value.session !in s.runtime.sessions
               && f.request.spawn.Spawned?
               && r' == Created(s.runtime, f.request.create.value.session, f.request.spawn.fd,
                                f.request.create.value.ringCapacity, f.request.create.value.logged))
           || (f.request.CloseSession? && f.request.target.Some? && r' == Close(s.runtime, f.request.target.value))
           || (f.request.RetireExited? && f.request.target.Some?
               && r' == Retire(s.runtime, f.request.target.value, f.request.cleaned).0) by {
      hide Respond, Register, ExitContextMessage, Close, Retire, Created, SameAccepted;
      forall s1: Server, m: Message ensures Respond(s1, fd, f, m).0.runtime == s1.runtime {
        RespondFrame(s1, fd, f, m);
      }
    }
    hide HandleControl;
  }

  lemma {:induction false} QueueAllRuntime(s: Server, fd: Fd, frames: seq<Frame>)
    ensures QueueAll(s, fd, frames).0.runtime == s.runtime
    decreases |frames|
  {
    if frames != [] {
      QueueAllRuntime(s, fd, frames[..|frames| - 1]);
    }
  }

  lemma TakeOverRuntime(s: Server, fd: Fd, request: AttachRequest)
    requires fd in s.conns && request.session in s.runtime.sessions
    ensures TakeOver(s, fd, request).runtime == s.runtime
  {
    hide Joined, Unregister, WithoutWriters, Fits, Push;
  }

  lemma AttachRuntime(s: Server, fd: Fd, f: InFrame)
    requires fd in s.conns && f.request.Attach?
    ensures HandleAttach(s, fd, f).0.runtime == s.runtime
  {
    if f.request.attach.Some? && f.request.attach.value.session in s.runtime.sessions {
      hide QueueAll, TakeOver, Welcome, WithoutWriters;
      var request := f.request.attach.value;
      var s0 := DetachConnection(s, fd);
      var s1 := TakeOver(s0, fd, request);
      TakeOverRuntime(s0, fd, request);
      if fd in s1.conns {
        QueueAllRuntime(s1, fd, Welcome(s1, fd, f, request));
      }
    }
  }
}
