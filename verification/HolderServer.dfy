/** The Holder server object: its methods change the tables in place, in the source's order, and
    each is proved to do what the corresponding function of HolderStates or HolderSteps says
    (crates/persist-holder/src/server.rs, server_handlers.rs). */
module HolderServers {
  import opened Bytes
  import opened ByteQueues
  import opened HolderFrames
  import opened Connections
  import opened Reactors
  import opened HolderRuntimes
  import opened HolderStates
  import opened HolderInvariants
  import opened HolderSteps
  import opened HolderKeeps
  import opened HolderData
  import opened HolderRuns
  import opened HolderMoves
  import opened HolderTheorems
  import LogQueues

  class HolderServer {
    const codec: Codec
    const instance: nat
    const listener: Fd
    const signals: Fd
    const logs: Fd
    const reactor: Reactor
    const runtime: Runtime
    var connections: map<Fd, Connection>
    var writers: map<SessionId, Fd>
    var controller: Option<Controller>
    var shutdownFd: Option<Fd>
    ghost var events: map<SessionId, seq<StreamEvent>>
    ghost var starts: map<SessionId, Life>

    ghost function Peers(): set<Connection>
      reads this`connections
    {
      set fd | fd in connections :: connections[fd]
    }

    ghost function Conns(): map<Fd, Conn>
      reads this`connections, Peers()
    {
      map fd | fd in connections :: connections[fd].State()
    }

    ghost function State(): Server
      reads this, reactor, runtime, Peers()
    {
      Server(codec, instance, {listener, signals, logs}, reactor.State(), runtime.State(),
             Conns(), writers, controller, shutdownFd, events, starts)
    }

    /** No two descriptors share a connection object. */
    ghost predicate Distinct()
      reads this`connections, Peers()
    {
      && (forall fd :: fd in connections ==> connections[fd].codec == codec)
      && (forall f, g :: f in connections && g in connections && connections[f] == connections[g] ==> f == g)
    }

    ghost predicate Valid()
      reads this, reactor, runtime, Peers()
    {
      Distinct() && Wired(State())
    }

    constructor (codec: Codec, instance: nat, listener: Fd, signals: Fd, logs: Fd)
      requires listener != signals && signals != logs && listener != logs
      ensures Valid() && fresh(reactor) && fresh(runtime)
      ensures State() == Initial(codec, instance, listener, signals, logs)
      ensures Good(State(), {})
    {
      this.codec := codec;
      this.instance := instance;
      this.listener := listener;
      this.signals := signals;
      this.logs := logs;
      reactor := new Reactor();
      runtime := new Runtime();
      connections := map[];
      writers := map[];
      controller := None;
      shutdownFd := None;
      events := map[];
      starts := map[];
      new;
      hide *;
      RegisterStatics(reactor, listener, signals, logs);
      InitialGood(codec, instance, listener, signals, logs);
      StartsAs(codec, instance, listener, signals, logs);
    }

    lemma StartsAs(codec: Codec, instance: nat, listener: Fd, signals: Fd, logs: Fd)
      requires this.codec == codec && this.instance == instance
      requires this.listener == listener && this.signals == signals && this.logs == logs
      requires connections == map[] && writers == map[] && controller.None? && shutdownFd.None?
      requires events == map[] && starts == map[]
      requires runtime.State() == NO_SESSIONS
      requires reactor.State() == Register(Register(Register(NO_REGISTRATIONS, listener, false), signals, false), logs,
               false)
      requires Good(Initial(codec, instance, listener, signals, logs), {})
      ensures State() == Initial(codec, instance, listener, signals, logs) && Valid()
    {
      var s := Initial(codec, instance, listener, signals, logs);
      hide Register, Ownership, Armed, Views, Streams, RegistrySound, RuntimeSound, ConnSound;
      assert Conns() == map[];
      assert State() == s;
    }

    /** Touching one connection object changes one entry of the table. */
    twostate lemma OneChanged(fd: Fd)
      requires old(Distinct()) && fd in old(connections) && connections == old(connections)
      requires forall c :: c in Peers() && c != connections[fd] ==> unchanged(c)
      ensures Conns() == old(Conns())[fd := connections[fd].State()]
    {
      forall g | g in connections && g != fd ensures connections[g].State() == old(connections[g].State()) {
        assert connections[g] != connections[fd];
        assert connections[g] in Peers();
      }
    }

    /** The state, field by field. */
    lemma Fields()
      ensures var s := State();
              && s.codec == codec && s.instance == instance && s.statics == {listener, signals, logs}
              && s.reactor == reactor.State() && s.runtime == runtime.State() && s.conns == Conns()
              && s.writers == writers && s.controller == controller && s.shutdownFd == shutdownFd
              && s.events == events && s.starts == starts
      ensures State().conns.Keys == connections.Keys
    {
    }

    /** The table's entry for one descriptor. */
    lemma Entry(fd: Fd)
      ensures fd in connections <==> fd in State().conns
      ensures fd in connections ==> State().conns[fd] == connections[fd].State()
      ensures fd in connections && Distinct() ==> connections[fd].codec == State().codec
    {
    }

    /** No connection has been touched since. */
    twostate lemma NobodyMoved()
      requires connections == old(connections) && forall c :: c in Peers() ==> unchanged(c)
      ensures State() == old(State()).(reactor := reactor.State(), runtime := runtime.State(), writers := writers,
                                       controller := controller, shutdownFd := shutdownFd, events := events,
                                         starts := starts)
      ensures var s := old(State());
              && s.reactor == old(reactor.State()) && s.runtime == old(runtime.State()) && s.writers == old(writers)
              && s.controller == old(controller) && s.shutdownFd == old(shutdownFd)
              && s.events == old(events) && s.starts == old(starts)
      ensures old(Distinct()) ==> Distinct()
    {
      forall fd | fd in connections ensures connections[fd].State() == old(connections[fd].State()) {
        assert connections[fd] in Peers();
      }
      assert Conns() == old(Conns());
    }

    /** Only this connection has been touched since. */
    twostate lemma OneMoved(fd: Fd)
      requires old(Distinct()) && fd in old(connections) && connections == old(connections)
      requires forall c :: c in Peers() && c != connections[fd] ==> unchanged(c)
      ensures State() == old(State()).(conns := old(State()).conns[fd := connections[fd].State()],
                                       reactor := reactor.State(), runtime := runtime.State(), writers := writers,
                                       controller := controller, shutdownFd := shutdownFd, events := events,
                                         starts := starts)
      ensures var s := old(State());
              && s.reactor == old(reactor.State()) && s.runtime == old(runtime.State()) && s.writers == old(writers)
              && s.controller == old(controller) && s.shutdownFd == old(shutdownFd)
              && s.events == old(events) && s.starts == old(starts)
              && fd in s.conns && s.conns[fd] == old(connections[fd].State())
      ensures Distinct()
    {
      OneChanged(fd);
      hide Distinct;
    }

    // ---- One connection ------------------------------------------------------------

    method QueueFrame(fd: Fd, frame: Frame) returns (ok: bool)
      requires Valid()
      modifies reactor, Peers()
      ensures Valid() && connections == old(connections)
      ensures ok == CanQueue(old(State()), fd, frame)
      ensures State() == if ok then HolderStates.QueueFrame(old(State()), fd, frame) else old(State())
    {
      hide State, Conns, Distinct, Wired, Fits, Enqueue, Rearm;
      ghost var before := State();
      Entry(fd);
      if fd !in connections {
        return false;
      }
      ok := connections[fd].Queue(frame);
      OneMoved(fd);
      assert before.conns[fd := before.conns[fd]] == before.conns;
      if ok {
        WiredTokens(before, fd);
        label Queued:
        ok := reactor.Modify(fd, true, true);
        NobodyMoved@Queued();
        QueueWired(before, fd, frame);
      }
    }

    method DetachConnection(fd: Fd)
      requires Distinct()
      modifies this`writers, Peers()
      ensures Distinct()
      ensures State() == HolderStates.DetachConnection(old(State()), fd)
    {
      hide State, Conns, Distinct, WithoutWriters;
      ghost var before := State();
      Entry(fd);
      Fields();
      if fd !in connections {
        return;
      }
      var session := connections[fd].attachedSession;
      connections[fd].attachedSession := None;
      OneMoved(fd);
      WritersLeft(before, fd);
      label Detached:
      if session.Some? && session.value in writers && writers[session.value] == fd {
        writers := writers - {session.value};
      }
      NobodyMoved@Detached();
    }

    /** Unregistered and detached, but still in the table. */
    method Unhook(fd: Fd)
      requires Valid()
      modifies this`writers, reactor, Peers()
      ensures Distinct() && connections == old(connections) && controller == old(controller)
      ensures State() == HolderStates.DetachConnection(old(State()),
              fd).(reactor := Unregister(old(State()).reactor, {fd}))
    {
      ghost var before := State();
      WiredRegistry(before);
      hide State, Conns, Wired, Distinct, Unregister, RegistrySound, HolderStates.DetachConnection;
      Fields();
      reactor.Remove(fd);
      NobodyMoved();
      DetachConnection(fd);
      DetachIgnoresTokens(before, fd);
    }

    /** Takes one connection out of every table. */
    method Drop(fd: Fd)
      requires Valid()
      modifies this`connections, this`writers, this`controller, reactor, Peers()
      ensures Valid() && Peers() <= old(Peers())
      ensures State() == RemoveAll(old(State()), {fd})
    {
      hide State, Conns, Wired, Distinct, WithoutWriters, Unregister, HolderStates.DetachConnection;
      ghost var before := State();
      Fields();
      Unhook(fd);
      ghost var d := HolderStates.DetachConnection(before, fd);
      label Detached:
      connections := connections - {fd};
      OneRemoved@Detached(fd);
      label Removed:
      Fields();
      if controller.Some? && controller.value.fd == fd {
        controller := None;
      }
      NobodyMoved@Removed();
      DetachThenDrop(before, fd);
      RemoveWired(before, {fd});
    }

    twostate lemma OneRemoved(fd: Fd)
      requires old(Distinct()) && connections == old(connections) - {fd}
      requires forall c :: c in Peers() ==> unchanged(c)
      ensures State() == old(State()).(conns := old(State()).conns - {fd}, reactor := reactor.State(),
              runtime := runtime.State(),
                                       writers := writers, controller := controller, shutdownFd := shutdownFd,
                                       events := events, starts := starts)
      ensures var s := old(State());
              && s.reactor == old(reactor.State()) && s.runtime == old(runtime.State()) && s.writers == old(writers)
              && s.controller == old(controller) && s.shutdownFd == old(shutdownFd)
              && s.events == old(events) && s.starts == old(starts)
      ensures Distinct() && Peers() <= old(Peers())
    {
      forall g | g in connections ensures connections[g].State() == old(connections[g].State()) {
        assert connections[g] in Peers();
      }
      assert Conns() == old(Conns()) - {fd};
    }

    /** Losing the controller drops every data connection, one recursive call each. */
    method Disconnect(fd: Fd)
      requires Valid()
      modifies this`connections, this`writers, this`controller, reactor, Peers()
      ensures Valid() && Peers() <= old(Peers())
      ensures State() == HolderStates.Disconnect(old(State()), fd)
      decreases IsController(State(), fd)
    {
      ghost var before := State();
      hide Wired, Distinct, Conns, RemoveAll, HolderStates.DataFds, Casualties;
      var cascade := controller.Some? && controller.value.fd == fd;
      Drop(fd);
      if cascade {
        ghost var mid := State();
        CascadeAddsUp(before, fd);
        var dataFds := set d | d in connections && connections[d].role.Data?;
        assert dataFds == DataFds(mid) by { DataFdsHere(); }
        ghost var done: set<Fd> := {};
        RemoveNobody(mid);
        while dataFds != {}
          invariant Valid() && Peers() <= old(Peers())
          invariant State() == RemoveAll(mid, done) && controller.None?
          invariant done + dataFds == DataFds(mid)
        {
          SomeMember(dataFds);
          var d: Fd :| d in dataFds;
          DropsOne(mid, done, d);
          Disconnect(d);
          done := done + {d};
          dataFds := dataFds - {d};
        }
        assert done == DataFds(mid);
      } else {
        NoCascade(before, fd);
      }
    }

    lemma DataFdsHere()
      ensures (set d | d in connections && connections[d].role.Data?) == DataFds(State())
    {
      var here := set d | d in connections && connections[d].role.Data?;
      forall d ensures d in here <==> d in DataFds(State()) {
      }
    }

    // ---- Queueing --------------------------------------------------------------------

    method QueueOrDisconnect(fd: Fd, frame: Frame)
      requires Valid()
      modifies this`connections, this`writers, this`controller, reactor, Peers()
      ensures Valid() && Peers() <= old(Peers())
      ensures State() == HolderStates.QueueOrDisconnect(old(State()), fd, frame)
    {
      ghost var before := State();
      hide Wired, Distinct, Conns, HolderStates.Disconnect, HolderStates.QueueFrame, CanQueue;
      var ok := QueueFrame(fd, frame);
      if !ok {
        Disconnect(fd);
      }
    }

    method SendControl(m: Message)
      requires Valid()
      modifies this`connections, this`writers, this`controller, reactor, Peers()
      ensures Valid() && Peers() <= old(Peers())
      ensures State() == HolderStates.SendControl(old(State()), m)
    {
      hide Wired, Distinct, Conns, HolderStates.QueueOrDisconnect;
      if controller.Some? {
        QueueOrDisconnect(controller.value.fd, Frame(0, runtime.generation, m));
      }
    }

    method ReleaseWriter(id: SessionId)
      requires Valid()
      modifies this`connections, this`writers, this`controller, reactor, Peers()
      ensures Valid() && Peers() <= old(Peers())
      ensures State() == HolderStates.ReleaseWriter(old(State()), id)
    {
      hide State, Wired, Distinct, Conns, HolderStates.QueueOrDisconnect;
      Fields();
      ghost var before := State();
      if id in writers {
        var fd := writers[id];
        WritersMayChange(before, writers - {id});
        writers := writers - {id};
        NobodyMoved();
        assert State() == before.(writers := before.writers - {id});
        Fields();
        QueueOrDisconnect(fd, Frame(0, runtime.generation, WriteRevoked(id)));
      }
    }

    method DetachFrom(fd: Fd, id: SessionId)
      requires Distinct() && fd in connections
      modifies Peers()
      ensures Distinct() && connections == old(connections)
      ensures fd in old(State()).conns
      ensures State() == if old(State()).conns[fd].attached == Some(id)
                         then SetConn(old(State()), fd, old(State()).conns[fd].(attached := None)) else old(State())
    {
      hide State, Conns, Distinct;
      Entry(fd);
      if connections[fd].attachedSession == Some(id) {
        connections[fd].attachedSession := None;
        OneMoved(fd);
      }
    }

    method DetachSession(id: SessionId)
      requires Valid()
      modifies this`writers, Peers()
      ensures Valid() && connections == old(connections)
      ensures State() == HolderStates.DetachSession(old(State()), id)
    {
      hide State, Conns, Distinct, Wired, DetachedUpto;
      ghost var before := State();
      Fields();
      writers := writers - {id};
      NobodyMoved();
      var left := connections.Keys;
      DetachBounds(before, id);
      ghost var others := before.(writers := before.writers - {id});
      while left != {}
        invariant connections == old(connections) && left <= connections.Keys == before.conns.Keys
        invariant Distinct() && State() == others.(conns := DetachedUpto(before.conns, id, left))
      {
        SomeMember(left);
        var fd: Fd :| fd in left;
        DetachStep(before.conns, id, left, fd);
        DetachFrom(fd, id);
        left := left - {fd};
      }
      DetachWired(before, id);
    }

    method Respond(fd: Fd, f: InFrame, m: Message) returns (ok: bool)
      requires Valid()
      modifies reactor, Peers()
      ensures Valid() && connections == old(connections)
      ensures (State(), ok) == HolderSteps.Respond(old(State()), fd, f, m)
    {
      hide Wired, Distinct, Conns, CanQueue, HolderStates.QueueFrame;
      ok := QueueFrame(fd, Frame(f.requestId, runtime.generation, m));
    }

    method SetRole(fd: Fd, role: Role)
      requires Valid() && fd in connections
      modifies Peers()
      ensures Valid() && connections == old(connections)
      ensures State() == SetConn(old(State()), fd, old(State()).conns[fd].(role := role))
    {
      hide State, Conns, Distinct, RegistrySound;
      Entry(fd);
      connections[fd].role := role;
      OneMoved(fd);
    }

    method SetProtocolMinor(fd: Fd, minor: nat)
      requires Valid() && fd in connections
      modifies Peers()
      ensures Valid() && connections == old(connections)
      ensures State() == SetConn(old(State()), fd, old(State()).conns[fd].(minor := minor))
    {
      hide State, Conns, Distinct, RegistrySound;
      Entry(fd);
      connections[fd].protocolMinor := minor;
      OneMoved(fd);
    }

    method CloseAfterFlush(fd: Fd)
      requires Valid() && fd in connections
      modifies Peers()
      ensures Valid() && connections == old(connections)
      ensures State() == SetConn(old(State()), fd, old(State()).conns[fd].(closing := true))
    {
      hide State, Conns, Distinct, RegistrySound;
      Entry(fd);
      connections[fd].closeAfterFlush := true;
      OneMoved(fd);
    }

    // ---- Fan-out -----------------------------------------------------------------------

    /** One turn of a fan-out that has already served `done`. */
    method ServeOne(fd: Fd, cast: Cast, ghost before: Server, ghost done: set<Fd>)
      requires Valid() && Wired(before) && State() == Broadcast(before, done, cast)
      requires fd !in done && !IsController(before, fd)
      requires fd in before.reactor.tokens ==> fd in before.conns
      requires cast.CastExit? ==> fd in before.conns
      modifies this`connections, this`writers, this`controller, reactor, Peers()
      ensures Valid() && Peers() <= old(Peers())
      ensures State() == Broadcast(before, done + {fd}, cast)
    {
      BroadcastLeavesOthers(before, done, fd, cast);
      assert fd in before.conns <==> fd in connections;
      hide Wired, Distinct, Broadcast, HolderStates.QueueOrDisconnect;
      var message := match cast
        case CastOutput(data) => Output(data)
        case CastExit(id, code, context) => SessionExited(id, code, context,
          connections[fd].protocolMinor == CURRENT_MINOR);
      ghost var now := State();
      var frame := Frame(0, runtime.generation, message);
      if fd in before.conns {
        assert now.conns[fd] == connections[fd].State();
        assert frame == CastFrame(before, fd, cast);
        BroadcastOneMore(before, done, fd, cast);
      } else {
        BroadcastAbsent(before, done, fd, cast);
        BroadcastController(before, done, cast);
        DropNobodyHere(now, fd, frame);
      }
      QueueOrDisconnect(fd, frame);
    }

    /** Serves every target, in whatever order the table yields them. */
    method Cast(targets: set<Fd>, cast: Cast)
      requires Valid()
      requires forall fd :: fd in targets ==> !IsController(State(), fd)
      requires forall fd :: fd in targets && fd in State().reactor.tokens ==> fd in State().conns
      requires cast.CastExit? ==> targets <= State().conns.Keys
      modifies this`connections, this`writers, this`controller, reactor, Peers()
      ensures Valid() && Peers() <= old(Peers())
      ensures State() == Broadcast(old(State()), targets, cast)
    {
      hide State, Wired, Distinct, Broadcast, Conns, IsController;
      ghost var before := State();
      ghost var done: set<Fd> := {};
      var left := targets;
      BroadcastNobody(before, cast);
      assert forall fd ::
               fd in targets ==> !IsController(before, fd) && (fd in before.reactor.tokens ==> fd in before.conns);
      assert cast.CastExit? ==> targets <= before.conns.Keys;
      while left != {}
        invariant Valid() && Peers() <= old(Peers())
        invariant done !! left && done + left == targets
        invariant State() == Broadcast(before, done, cast)
      {
        SomeMember(left);
        var fd: Fd :| fd in left;
        ServeOne(fd, cast, before, done);
        done := done + {fd};
        left := left - {fd};
      }
      assert done == targets;
    }

    // ---- Output and exits ----------------------------------------------------------------

    lemma AttachedHere(id: SessionId)
      ensures (set fd | fd in connections && connections[fd].attachedSession == Some(id)) == Attached(State(), id)
      ensures connections.Keys == State().conns.Keys
    {
      var here := set fd | fd in connections && connections[fd].attachedSession == Some(id);
      forall fd ensures fd in here <==> fd in Attached(State(), id) {
      }
    }

    /** One event of a session, to everybody in its audience still there. */
    method Tell(targets: set<Fd>, id: SessionId, cast: Cast)
      requires Valid() && Audience(State(), targets, id)
      requires cast.CastExit? ==> targets <= State().conns.Keys
      modifies this`connections, this`writers, this`controller, this`events, reactor, Peers()
      ensures Valid() && Peers() <= old(Peers())
      ensures State() == Emit(Broadcast(old(State()), Attached(old(State()), id), cast), id, CastEvent(cast))
      ensures Audience(State(), targets, id)
    {
      hide State, Wired, Distinct, Conns, Audience, Broadcast, Attached, Emit, History, CastEvent;
      ghost var before := State();
      AudienceFacts(before, targets, id);
      Cast(targets, cast);
      AudienceStays(before, targets, id, cast);
      EmitWired(State(), id, CastEvent(cast));
      label Served:
      events := Emit(State(), id, CastEvent(cast)).events;
      NobodyMoved@Served();
    }

    /** The targets are looked up once; one that is dropped over an early chunk is passed over
        for the later ones. */
    method PublishOutput(id: SessionId, chunks: seq<seq<byte>>)
      requires Valid() && Ownership(State())
      modifies this`connections, this`writers, this`controller, this`events, reactor, Peers()
      ensures Valid() && Peers() <= old(Peers())
      ensures State() == Publish(old(State()), id, chunks)
    {
      hide State, Conns, Distinct, Wired;
      ghost var before := State();
      var targets := set fd | fd in connections && connections[fd].attachedSession == Some(id);
      AttachedHere(id);
      AudienceStarts(before, id);
      PublishNothing(before, id, chunks);
      hide *;
      for k := 0 to |chunks|
        invariant Valid() && Peers() <= old(Peers())
        invariant State() == Publish(before, id, chunks[..k])
        invariant Audience(State(), targets, id)
      {
        PublishNext(before, id, chunks, k);
        Tell(targets, id, CastOutput(chunks[k]));
      }
    }

    /** One exit notice each, in the form its protocol minor calls for. */
    method TellExit(e: ExitedSession)
      requires Valid() && Ownership(State())
      modifies this`connections, this`writers, this`controller, this`events, reactor, Peers()
      ensures Valid() && Peers() <= old(Peers())
      ensures State() == Emit(Broadcast(old(State()), Attached(old(State()), e.session),
              CastExit(e.session, e.code, e.context)),
                              e.session, Exit(e.code))
    {
      ghost var before := State();
      var targets := set fd | fd in connections && connections[fd].attachedSession == Some(e.session);
      AttachedHere(e.session);
      AudienceStarts(before, e.session);
      AttachedIsOpen(before, e.session);
      var cast := CastExit(e.session, e.code, e.context);
      assert CastEvent(cast) == Exit(e.code);
      hide *;
      Tell(targets, e.session, cast);
    }

    method DropTerminal(pty: Fd, ghost lingering: set<Fd>)
      requires Valid() && Core(State(), lingering) && pty in lingering
      modifies reactor
      ensures Valid() && connections == old(connections)
      ensures State() == old(State()).(reactor := Unregister(old(State()).reactor, {pty}))
    {
      hide State, Conns, Distinct, Wired, Core, Advances, RegistrySound, Unregister;
      ghost var before := State();
      Fields();
      WiredRegistry(before);
      UnregisterTerminal(before, pty, lingering);
      reactor.Remove(pty);
      NobodyMoved();
      assert State() == before.(reactor := Unregister(before.reactor, {pty}));
      CoreWired(State(), lingering - {pty});
    }

    method AnnounceExit(e: ExitedSession, ghost lingering: set<Fd>)
      requires Valid() && Core(State(), lingering) && Views(State(), {}) && e.pty in lingering
      modifies this`connections, this`writers, this`controller, this`events, reactor, Peers()
      ensures Valid() && Peers() <= old(Peers())
      ensures State() == HolderSteps.AnnounceExit(old(State()), e)
    {
      hide Wired, Distinct, Conns, Ownership, Core, Views, Broadcast, Attached, Advances, Emit, Valid,
        HolderStates.ReleaseWriter, HolderStates.DetachSession, HolderStates.SendControl, RegistrySound, Unregister;
      ghost var before := State();
      UnregisterTerminal(before, e.pty, lingering);
      DropTerminal(e.pty, lingering);
      ghost var s0 := State();
      ViewsCarryOver(before, s0, {});
      ReleaseWriterKeeps(s0, e.session, lingering - {e.pty});
      ReleaseWriter(e.session);
      CoreOwns(State(), lingering - {e.pty});
      TellExit(e);
      if e.closing {
        DetachSession(e.session);
      }
      if controller.Some? {
        SendControl(SessionExited(e.session, e.code, e.context, controller.value.minor == CURRENT_MINOR));
      }
    }

    // ---- Terminals, children, log failures and new peers ------------------------------------

    method ReadTerminal(fd: Fd, feed: seq<ReadResult>)
        returns (id: SessionId, chunks: seq<seq<byte>>, dropped: nat, ok: bool)
      requires Valid() && RuntimeSound(runtime.State()) && Ownership(State()) && fd in runtime.ptyToSession
      modifies runtime
      ensures var (r, d) := AfterDrain(old(runtime.State()), fd, feed);
              && ok == d.ok
              && (ok ==> Valid() && Ownership(State()) && State() == old(State()).(runtime := r)
                         && id == old(runtime.ptyToSession[fd]) && chunks == d.chunks && dropped == d.dropped)
    {
      hide State, Distinct, Conns, Wired, Ownership, RuntimeSound, AfterDrain;
      ghost var before := State();
      id, chunks, dropped, ok := runtime.DrainOutput(fd, feed);
      if ok {
        NobodyMoved();
        RuntimeIsApart(before, runtime.State());
      }
    }

    method DrainTerminal(fd: Fd, feed: seq<ReadResult>) returns (ok: bool)
      requires Valid() && RuntimeSound(runtime.State()) && Ownership(State()) && fd in runtime.ptyToSession
      modifies this`connections, this`writers, this`controller, this`events, reactor, runtime, Peers()
      ensures ok == DrainPty(old(State()), fd, feed).Some?
      ensures ok ==> Valid() && Peers() <= old(Peers()) && State() == DrainPty(old(State()), fd, feed).value
    {
      ghost var before := State();
      TerminalHasSession(before.runtime, fd);
      hide State, Distinct, Conns, Wired, Ownership, RuntimeSound, Publish, HolderStates.SendControl, AfterDrain;
      Fields();
      var id, chunks, dropped, drained := ReadTerminal(fd, feed);
      if !drained {
        return false;
      }
      PublishOutput(id, chunks);
      if dropped > 0 {
        SendControl(LogDegraded(id, dropped));
      }
      ok := true;
    }

    method FlushTerminal(fd: Fd, script: seq<WriteResult>) returns (ok: bool)
      requires Valid() && Good(State(), {}) && RuntimeSound(runtime.State()) && fd in runtime.ptyToSession
      modifies reactor, runtime
      ensures ok == FlushPty(old(State()), fd, script).Some?
      ensures ok ==> Valid() && State() == FlushPty(old(State()), fd, script).value
    {
      hide State, Conns, Distinct, Good, RuntimeSound, Wired, AfterFlushInput, Sound;
      ghost var before := State();
      Fields();
      TerminalIsRegistered(before, fd);
      var id := runtime.ptyToSession[fd];
      var res := runtime.FlushInput(id, script);
      if res.InputRefused? {
        return false;
      }
      ok := reactor.Modify(fd, res.pending, true);
      NobodyMoved();
      assert State() == FlushPty(before, fd, script).value;
      RearmWired(before, fd, res.pending);
      RuntimeWired(before.(reactor := Rearm(before.reactor, fd, res.pending)), State().runtime);
    }

    method HandlePty(fd: Fd, readable: Option<seq<ReadResult>>, writable: Option<seq<WriteResult>>) returns (ok: bool)
      requires Valid() && Good(State(), {}) && fd in runtime.ptyToSession
      modifies this`connections, this`writers, this`controller, this`events, reactor, runtime, Peers()
      ensures ok == Step(old(State()), Terminal(fd, readable, writable)).Some?
      ensures ok ==> Valid() && Peers() <= old(Peers())
                     && State() == Step(old(State()), Terminal(fd, readable, writable)).value
    {
      hide Distinct, Conns, Ownership, RuntimeSound, Good, Advances, DrainPty, FlushPty, Wired;
      ghost var before := State();
      GoodRuntime(before);
      GoodOwns(before);
      ok := true;
      if readable.Some? {
        ok := DrainTerminal(fd, readable.value);
        if !ok {
          return;
        }
        DrainPtyGood(before, fd, readable.value);
        DrainKeepsTerminals(before, fd, readable.value);
      }
      ghost var mid := State();
      assert Good(mid, {}) && mid.runtime.ptys == before.runtime.ptys;
      GoodRuntime(mid);
      if writable.Some? {
        ok := FlushTerminal(fd, writable.value);
      }
    }

    method DrainTerminals(turns: seq<TerminalRead>) returns (ok: bool)
      requires Valid() && Good(State(), {})
      modifies this`connections, this`writers, this`controller, this`events, reactor, runtime, Peers()
      ensures ok == DrainAll(old(State()), turns).Some?
      ensures ok ==> Valid() && Peers() <= old(Peers()) && State() == DrainAll(old(State()), turns).value
      ensures ok ==> Good(State(), {})
    {
      ghost var before := State();
      DrainAllBounds(before, turns);
      hide Distinct, Conns, Ownership, RuntimeSound, Good, Advances, DrainPty, DrainAll, Wired;
      ok := true;
      for k := 0 to |turns|
        invariant ok && Valid() && Peers() <= old(Peers())
        invariant DrainAll(before, turns[..k]) == Some(State()) && Good(State(), {})
      {
        DrainAllNext(before, turns, k);
        ghost var mid := State();
        GoodRuntime(mid);
        GoodOwns(mid);
        if turns[k].fd in runtime.ptyToSession {
          ok := DrainTerminal(turns[k].fd, turns[k].feed);
        } else {
          NotATerminal(mid, turns[k].fd, turns[k].feed);
        }
        if !ok {
          DrainAllStops(before, turns, k + 1);
          return;
        }
        DrainPtyGood(mid, turns[k].fd, turns[k].feed);
      }
    }

    method AnnounceExits(es: seq<ExitedSession>)
      requires Valid() && Core(State(), Ptys(es)) && Views(State(), {}) && DistinctExits(es)
      modifies this`connections, this`writers, this`controller, this`events, reactor, Peers()
      ensures Valid() && Peers() <= old(Peers())
      ensures State() == AnnounceAll(old(State()), es)
    {
      ghost var before := State();
      AnnounceBounds(before, es);
      hide Distinct, Conns, Wired, Core, Views, Announced, AnnounceAll, DistinctExits, Ptys, HolderSteps.AnnounceExit;
      for k := 0 to |es|
        invariant Valid() && Peers() <= old(Peers())
        invariant State() == AnnounceAll(before, es[..k])
      {
        AnnounceNext(before, es, k);
        AnnounceExit(es[k], Ptys(es) - Ptys(es[..k]));
      }
    }

    /** SIGCHLD: drain every terminal, collect the dead, announce them. */
    method HandleChildren(turns: seq<TerminalRead>, reaps: seq<Reap>) returns (ok: bool)
      requires Valid() && Good(State(), {})
      requires DrainAll(State(), turns).Some? ==>
                 (RuntimeSound(DrainAll(State(), turns).value.runtime)
                   && Reapable(DrainAll(State(), turns).value.runtime, reaps))
      modifies this`connections, this`writers, this`controller, this`events, reactor, runtime, Peers()
      ensures ok == Step(old(State()), Children(turns, reaps)).Some?
      ensures ok ==> Valid() && Peers() <= old(Peers()) && State() == Step(old(State()), Children(turns, reaps)).value
    {
      hide Distinct, Conns, Wired, Core, Views, RuntimeSound, Good, Advances, DrainAll, AnnounceAll, ReapAll,
        DistinctExits, Ptys, Reapable;
      ok := DrainTerminals(turns);
      if !ok {
        return;
      }
      ghost var mid := State();
      GoodParts(mid, {});
      ReapCore(mid, reaps);
      ReportsAreDistinct(mid.runtime, reaps);
      var exited := runtime.ReapExited(reaps);
      assert exited == Reports(mid.runtime, reaps);
      ghost var s1 := mid.(runtime := ReapAll(mid.runtime, reaps));
      assert State() == s1;
      CoreWired(s1, Ptys(exited));
      ViewsCarryOver(mid, s1, {});
      AnnounceExits(exited);
    }

    /** Everything the log worker has reported, each report once. */
    method HandleLogFailures(queue: LogQueues.SharedQueue)
      requires Valid() && Good(State(), {})
      modifies this`connections, this`writers, this`controller, reactor, runtime, Peers(), queue
      ensures Valid() && Peers() <= old(Peers()) && queue.failures == []
      ensures Step(old(State()), LogTrouble(Notices(old(queue.failures)))) == Some(State())
    {
      hide State, Conns, Distinct, Wired, Good, Step;
      var taken := queue.TakeFailures();
      NobodyMoved();
      NoteLogFailures(Notices(taken));
    }

    method NoteLogFailures(failures: seq<Failure>)
      requires Valid() && Good(State(), {})
      modifies this`connections, this`writers, this`controller, reactor, runtime, Peers()
      ensures Valid() && Peers() <= old(Peers())
      ensures Step(old(State()), LogTrouble(failures)) == Some(State())
    {
      hide Distinct, Conns, Wired, Good, Advances, LogFailed, HolderStates.SendControl, HolderSteps.HandleLogFailures;
      ghost var before := State();
      LogBounds(before, failures);
      for k := 0 to |failures|
        invariant Valid() && Peers() <= old(Peers())
        invariant State() == HolderSteps.HandleLogFailures(before, failures[..k])
      {
        LogNext(before, failures, k);
        NoteLogFailure(failures[k]);
      }
    }

    method NoteLogFailure(f: Failure)
      requires Valid()
      modifies this`connections, this`writers, this`controller, reactor, runtime, Peers()
      ensures Valid() && Peers() <= old(Peers())
      ensures State() == HolderStates.SendControl(
                old(State()).(runtime := LogFailed(old(State()).runtime, f.session)), LogDegraded(f.session, f.dropped))
    {
      hide State, Conns, Distinct, Wired, LogFailed, HolderStates.SendControl;
      ghost var before := State();
      runtime.MarkLogFailed(f.session);
      ghost var r := LogFailed(before.runtime, f.session);
      NobodyMoved();
      assert State() == before.(runtime := r);
      RuntimeWired(before, r);
      SendControl(LogDegraded(f.session, f.dropped));
    }

    method Adopt(fd: Fd, pid: nat, uid: nat)
      requires Distinct() && fd !in connections
      modifies this`connections
      ensures Distinct() && fresh(Peers() - old(Peers()))
      ensures State() == old(State()).(conns := old(State()).conns[fd := FreshConn(pid, uid)])
    {
      ghost var before := Conns();
      var c := new Connection(codec, pid, uid);
      connections := connections[fd := c];
      assert Conns() == before[fd := FreshConn(pid, uid)];
    }

    method AcceptConnection(fd: Fd, pid: nat, uid: nat)
      requires Valid() && Good(State(), {}) && CanOpen(State(), fd)
      modifies this`connections, reactor
      ensures Valid() && fresh(Peers() - old(Peers()))
      ensures Step(old(State()), Accept(fd, pid, uid)) == Some(State())
    {
      hide State, Conns, Distinct, Good, Wired, Advances, Register, AcceptConn;
      ghost var before := State();
      AcceptGood(before, fd, pid, uid);
      AcceptWired(before, fd, pid, uid);
      var _ := reactor.Add(fd, false, true);
      NobodyMoved();
      Entry(fd);
      Adopt(fd, pid, uid);
      AcceptIs(before, State(), fd, pid, uid);
    }

    // ---- Frames from peers -----------------------------------------------------------------

    /** A controller that has hung up makes way for a new one; the newcomer stays. */
    method DropGoneController(fd: Fd, gone: bool)
      requires Valid() && Good(State(), {}) && fd in connections && connections[fd].role.Pending?
      modifies this`connections, this`writers, this`controller, reactor, Peers()
      ensures Valid() && Peers() <= old(Peers())
      ensures var s := old(State());
              && State() == (if s.controller.Some? && s.controller.value.fd in s.conns && gone
                             then HolderStates.Disconnect(s, s.controller.value.fd) else s)
              && fd in connections && connections[fd].State() == State().conns[fd] == s.conns[fd]
    {
      hide State, Conns, Wired, Distinct, Good, Advances, HolderStates.Disconnect;
      ghost var before := State();
      Entry(fd);
      Fields();
      if controller.Some? && controller.value.fd in connections && gone {
        DropPrior(before, fd);
        Disconnect(controller.value.fd);
        Entry(fd);
      }
    }

    method Promote(fd: Fd, c: Controller)
      requires Valid() && fd in connections
      modifies this`controller, Peers()
      ensures Valid() && connections == old(connections)
      ensures State() == SetConn(old(State()), fd, old(State()).conns[fd].(role := Control)).(controller := Some(c))
    {
      hide State, Conns, Wired, Distinct;
      ghost var before := State();
      Entry(fd);
      SetRole(fd, Control);
      ControllerIsApart(State(), Some(c));
      label Promoted:
      controller := Some(c);
      NobodyMoved@Promoted();
    }

    method HandleControlHello(fd: Fd, f: InFrame) returns (ok: bool)
      requires Valid() && Good(State(), {}) && fd in connections
      requires connections[fd].role.Pending? && f.request.ControlHello?
      modifies this`connections, this`writers, this`controller, reactor, Peers()
      ensures Valid() && Peers() <= old(Peers())
      ensures (State(), ok) == HolderSteps.HandleControlHello(old(State()), fd, f)
    {
      hide State, Conns, Wired, Distinct, Good, Advances, HolderStates.Disconnect, HolderSteps.Respond;
      if f.minor != BASELINE_MINOR {
        return false;
      }
      DropGoneController(fd, f.request.controllerGone);
      if f.request.hello.None? {
        return false;
      }
      var hello := f.request.hello.value;
      Entry(fd);
      Fields();
      var status :=
        if hello.uid != connections[fd].uid || hello.pid != connections[fd].pid then PermissionDenied
        else if controller.Some? then Busy
        else Accepted;
      ok := Respond(fd, f, ControlHelloAck(hello.nonce, status));
      if !ok {
        return;
      }
      Entry(fd);
      if status == Accepted {
        Promote(fd, Controller(fd, hello.pid, hello.nonce, BASELINE_MINOR));
      } else {
        CloseAfterFlush(fd);
      }
    }

    method HandleDataHello(fd: Fd, f: InFrame) returns (ok: bool)
      requires Valid() && fd in connections && f.request.DataHello?
      modifies reactor, Peers()
      ensures Valid() && Peers() <= old(Peers())
      ensures (State(), ok) == HolderSteps.HandleDataHello(old(State()), fd, f)
    {
      hide State, Conns, Wired, Distinct, HolderSteps.Respond;
      Entry(fd);
      Fields();
      if f.request.dataHello.None? {
        return false;
      }
      var hello := f.request.dataHello.value;
      var accepted :=
        && controller.Some?
        && hello.pid == connections[fd].pid
        && hello.pid == controller.value.pid
        && hello.instance == instance
        && hello.nonce == controller.value.nonce
        && f.minor == controller.value.minor;
      if accepted {
        SetProtocolMinor(fd, f.minor);
      }
      ok := Respond(fd, f, DataHelloAck(hello.nonce, if accepted then Accepted else PermissionDenied));
      if !ok {
        return;
      }
      Entry(fd);
      if accepted {
        SetRole(fd, Role.Data);
      } else {
        CloseAfterFlush(fd);
      }
    }

    method HandleCapability(fd: Fd, f: InFrame) returns (ok: bool)
      requires Valid() && fd in connections && f.request.Capability?
      modifies this`controller, reactor, Peers()
      ensures Valid() && Peers() <= old(Peers())
      ensures (State(), ok) == HolderSteps.HandleCapability(old(State()), fd, f)
    {
      hide State, Conns, Wired, Distinct, HolderSteps.Respond;
      Entry(fd);
      Fields();
      if f.minor != CURRENT_MINOR || connections[fd].protocolMinor != BASELINE_MINOR || f.request.capability.None? {
        return false;
      }
      var request := f.request.capability.value;
      if request.maxMinor != CURRENT_MINOR || !(controller.Some? && controller.value.fd == fd)
         || request.instance != instance || request.nonce != controller.value.nonce {
        return false;
      }
      ControllerIsApart(State(), Some(controller.value.(minor := CURRENT_MINOR)));
      controller := Some(controller.value.(minor := CURRENT_MINOR));
      NobodyMoved();
      SetProtocolMinor(fd, CURRENT_MINOR);
      ok := Respond(fd, f, CapabilityResp(request.nonce));
    }

    method Start(id: SessionId, pty: Fd, ringCapacity: nat, logged: bool)
      requires Valid() && CanOpen(State(), pty)
      modifies this`starts, reactor, runtime
      ensures Valid()
      ensures State() == StartSession(old(State()), id, pty, ringCapacity, logged)
    {
      hide State, Conns, Distinct, Wired, Created, Register, StartSession;
      ghost var before := State();
      StartWired(before, id, pty, ringCapacity, logged);
      runtime.Install(id, pty, ringCapacity, logged);
      var _ := reactor.Add(pty, false, true);
      starts := starts[id := Life(Starts(before, id) + 1, |History(before, id)|)];
      NobodyMoved();
      StartIs(before, State(), id, pty, ringCapacity, logged);
    }

    method HandleCreate(fd: Fd, f: InFrame) returns (ok: bool)
      requires Valid() && f.request.Create?
      modifies this`starts, reactor, runtime, Peers()
      ensures Valid() && Peers() <= old(Peers())
      ensures (State(), ok) == HolderSteps.HandleCreate(old(State()), fd, f)
    {
      hide State, Conns, Distinct, Wired, HolderSteps.Respond, StartSession;
      Fields();
      if f.request.create.None? || f.request.create.value.ringCapacity == 0 {
        return false;
      }
      var request := f.request.create.value;
      var id := request.session;
      if id in runtime.sessions {
        ok := Respond(fd, f, OperationResp(CreateResp, id, Conflict));
        return;
      }
      match f.request.spawn {
        case BadIdentity => ok := Respond(fd, f, OperationResp(CreateResp, id, Rejected));
        case SpawnFailed => ok := false;
        case Spawned(pty) =>
          assert reactor.State().nextToken == reactor.State().adds + 1 by { WiredAdds(State()); }
          if pty in reactor.tokens || reactor.nextToken >= U64 - 1 {
            return false;
          }
          Start(id, pty, request.ringCapacity, request.logged);
          ok := Respond(fd, f, OperationResp(CreateResp, id, OpOk));
      }
    }

    method ExitContextFor(id: SessionId, v2: bool) returns (m: Message)
      ensures m == ExitContextMessage(State(), id, v2)
    {
      if id !in runtime.sessions {
        return ExitContextResp(id, NotFound, None, ExitContext(None, None), v2);
      }
      var session := runtime.sessions[id];
      var environment := if v2 then session.context.environment else None;
      if session.exitCode.None? {
        return ExitContextResp(id, Conflict, None, ExitContext(None, environment), v2);
      }
      m := ExitContextResp(id, OpOk, session.exitCode, ExitContext(session.context.cwd, environment), v2);
    }

    method CloseOne(id: SessionId) returns (status: OperationStatus)
      requires Valid()
      modifies runtime
      ensures Valid() && State() == old(State()).(runtime := Close(old(State()).runtime, id))
      ensures status == if id in old(State()).runtime.sessions then OpOk else NotFound
    {
      ghost var before := State();
      hide State, Conns, Distinct, Wired, Close;
      status := runtime.CloseSession(id);
      NobodyMoved();
      assert State() == before.(runtime := Close(before.runtime, id));
      RuntimeWired(before, State().runtime);
    }

    method RetireOne(id: SessionId, cleaned: bool) returns (status: OperationStatus)
      requires Valid()
      modifies runtime
      ensures Valid() && State() == old(State()).(runtime := Retire(old(State()).runtime, id, cleaned).0)
      ensures status == Retire(old(State()).runtime, id, cleaned).1
    {
      ghost var before := State();
      hide State, Conns, Distinct, Wired, Retire;
      status := runtime.RetireExited(id, cleaned);
      NobodyMoved();
      assert State() == before.(runtime := Retire(before.runtime, id, cleaned).0);
      RuntimeWired(before, State().runtime);
    }

    method HandleInventory(fd: Fd, f: InFrame, page: Option<(nat, nat)>) returns (ok: bool)
      requires Valid()
      modifies reactor, Peers()
      ensures Valid() && connections == old(connections)
      ensures (State(), ok) == HolderSteps.HandleInventory(old(State()), fd, f, page)
    {
      hide State, Conns, Wired, Distinct, HolderSteps.Respond;
      if page.None? {
        return false;
      }
      ok := Respond(fd, f, InventoryResp(page.value.0, page.value.1));
    }

    method HandleClose(fd: Fd, f: InFrame, target: Option<SessionId>) returns (ok: bool)
      requires Valid()
      modifies reactor, runtime, Peers()
      ensures Valid() && connections == old(connections)
      ensures (State(), ok) == HolderSteps.HandleClose(old(State()), fd, f, target)
    {
      hide State, Conns, Wired, Distinct, HolderSteps.Respond, Close;
      if target.None? {
        return false;
      }
      var status := CloseOne(target.value);
      ok := Respond(fd, f, OperationResp(CloseResp, target.value, status));
    }

    method HandleKill(fd: Fd, f: InFrame, target: Option<SessionId>, signalled: bool) returns (ok: bool)
      requires Valid()
      modifies reactor, Peers()
      ensures Valid() && connections == old(connections)
      ensures (State(), ok) == HolderSteps.HandleKill(old(State()), fd, f, target, signalled)
    {
      hide State, Conns, Wired, Distinct, HolderSteps.Respond;
      if target.None? {
        return false;
      }
      Fields();
      var id := target.value;
      var status :=
        if id !in runtime.sessions then NotFound
        else if runtime.sessions[id].pty.Some? && !signalled then Internal
        else OpOk;
      ok := Respond(fd, f, OperationResp(KillResp, id, status));
    }

    method HandleGetExitContext(fd: Fd, f: InFrame, target: Option<SessionId>) returns (ok: bool)
      requires Valid()
      modifies reactor, Peers()
      ensures Valid() && connections == old(connections)
      ensures (State(), ok) == HolderSteps.HandleGetExitContext(old(State()), fd, f, target)
    {
      hide State, Conns, Wired, Distinct, HolderSteps.Respond, ExitContextMessage;
      if target.None? {
        return false;
      }
      var m := ExitContextFor(target.value, f.minor == CURRENT_MINOR);
      ok := Respond(fd, f, m);
    }

    method HandleRetireExited(fd: Fd, f: InFrame, target: Option<SessionId>, cleaned: bool) returns (ok: bool)
      requires Valid()
      modifies reactor, runtime, Peers()
      ensures Valid() && connections == old(connections)
      ensures (State(), ok) == HolderSteps.HandleRetireExited(old(State()), fd, f, target, cleaned)
    {
      hide State, Conns, Wired, Distinct, HolderSteps.Respond, Retire;
      if target.None? {
        return false;
      }
      var status := RetireOne(target.value, cleaned);
      ok := Respond(fd, f, OperationResp(RetireExitedResp, target.value, status));
    }

    /** A shutdown is remembered only once its answer is queued. */
    method HandleShutdownAll(fd: Fd, f: InFrame, empty: bool) returns (ok: bool)
      requires Valid()
      modifies this`shutdownFd, reactor, Peers()
      ensures Valid() && connections == old(connections)
      ensures (State(), ok) == HolderSteps.HandleShutdownAll(old(State()), fd, f, empty)
    {
      hide State, Conns, Wired, Distinct, HolderSteps.Respond;
      if !empty {
        return false;
      }
      ok := Respond(fd, f, ShutdownAllResp);
      if ok {
        ShutdownIsApart(State(), fd);
        label Answered:
        shutdownFd := Some(fd);
        NobodyMoved@Answered();
      }
    }

    method HandleControl(fd: Fd, f: InFrame) returns (ok: bool)
      requires Valid() && fd in connections
      modifies this`controller, this`shutdownFd, this`starts, reactor, runtime, Peers()
      ensures Valid() && Peers() <= old(Peers())
      ensures (State(), ok) == HolderSteps.HandleControl(old(State()), fd, f)
    {
      hide State, Conns, Wired, Distinct, HolderSteps.HandleInventory, HolderSteps.HandleCreate,
        HolderSteps.HandleClose,
        HolderSteps.HandleKill, HolderSteps.HandleGetExitContext, HolderSteps.HandleRetireExited,
        HolderSteps.HandleShutdownAll, HolderSteps.HandleCapability;
      Entry(fd);
      if f.request.Capability? {
        ok := HandleCapability(fd, f);
        return;
      }
      if f.minor != connections[fd].protocolMinor {
        return false;
      }
      match f.request {
        case Inventory(page) => ok := HandleInventory(fd, f, page);
        case Create(_, _) => ok := HandleCreate(fd, f);
        case CloseSession(target) => ok := HandleClose(fd, f, target);
        case Kill(target, signalled) => ok := HandleKill(fd, f, target, signalled);
        case GetExitContext(target) => ok := HandleGetExitContext(fd, f, target);
        case RetireExited(target, cleaned) => ok := HandleRetireExited(fd, f, target, cleaned);
        case ShutdownAll(empty) => ok := HandleShutdownAll(fd, f, empty);
        case _ => ok := false;
      }
    }

    function RequireWriter(fd: Fd): (writer: Option<SessionId>)
      requires fd in connections
      reads this, reactor, runtime, Peers()
      ensures fd in State().conns && writer == HolderSteps.RequireWriter(State(), fd)
    {
      var attached := connections[fd].attachedSession;
      if attached.Some? && attached.value in writers && writers[attached.value] == fd
         && attached.value in runtime.sessions && runtime.sessions[attached.value].exitCode.None?
      then attached else None
    }

    method HandleInput(fd: Fd, data: seq<byte>, script: seq<WriteResult>) returns (ok: bool)
      requires Valid() && Good(State(), {}) && RuntimeSound(runtime.State()) && fd in connections
      modifies reactor, runtime
      ensures Valid()
      ensures (State(), ok) == HolderSteps.HandleInput(old(State()), fd, data, script)
    {
      hide State, Conns, Distinct, Wired, Good, RuntimeSound, AfterQueueInput;
      ghost var before := State();
      Entry(fd);
      Fields();
      var writer := RequireWriter(fd);
      if writer.None? {
        return false;
      }
      var id := writer.value;
      RunningHasTerminal(before, id);
      TerminalFacts(before, id, before.runtime.sessions[id].pty.value);
      QueueKeepsTerminal(before.runtime, id, data, script);
      var res := runtime.QueueInput(id, data, script);
      ghost var r := runtime.State();
      NobodyMoved();
      assert State() == before.(runtime := r);
      Fields();
      RuntimeWired(before, r);
      if res.InputRefused? {
        return false;
      }
      if id in runtime.sessions && runtime.sessions[id].pty.Some? {
        var pty := runtime.sessions[id].pty.value;
        WritableIsRegistered(before, pty);
        RearmWired(before.(runtime := r), pty, res.pending);
        ok := reactor.Modify(pty, res.pending, true);
        NobodyMoved();
      }
      ok := true;
    }

    // ---- Attaching ----------------------------------------------------------------------------

    /** The connection object is marked as attached, and remembers where it joined. */
    method Join(fd: Fd, request: AttachRequest)
      requires Valid() && fd in connections && request.session in runtime.sessions
      modifies Peers()
      ensures Valid() && connections == old(connections)
      ensures fd in old(State()).conns
      ensures State() == SetConn(old(State()), fd, Joined(old(State()), old(State()).conns[fd], request))
    {
      hide State, Conns, Distinct, Split, RegistrySound, LastN, Joined;
      Entry(fd);
      Fields();
      JoinedIs(State(), State().conns[fd], request);
      ghost var joined := Joined(State(), State().conns[fd], request);
      connections[fd].AttachTo(request.session, joined.from, joined.origin, joined.replay);
      OneMoved(fd);
    }

    method RecordWriter(id: SessionId, fd: Fd)
      requires Valid()
      modifies this`writers
      ensures Valid() && State() == old(State()).(writers := old(State()).writers[id := fd])
    {
      hide State, Conns, Wired, Distinct;
      Fields();
      WritersMayChange(State(), writers[id := fd]);
      writers := writers[id := fd];
      NobodyMoved();
    }

    /** The writer table first, then the previous writer. */
    method HandOver(fd: Fd, request: AttachRequest)
      requires Valid()
      modifies this`connections, this`writers, this`controller, reactor, Peers()
      ensures Valid() && Peers() <= old(Peers())
      ensures State() == HandedOver(old(State()), fd, request)
    {
      hide State, Conns, Wired, Distinct, HolderStates.QueueOrDisconnect, HandedOver;
      ghost var before := State();
      Fields();
      HandedOverIs(before, fd, request);
      if request.readWrite {
        var id := request.session;
        if id in writers {
          var previous := writers[id];
          RecordWriter(id, fd);
          Fields();
          QueueOrDisconnect(previous, Frame(0, runtime.generation, WriteRevoked(id)));
        } else {
          RecordWriter(id, fd);
        }
      }
    }

    /** The source's order: the writer table first, then the previous writer, and only then the
        connection itself. */
    method TakeOver(fd: Fd, request: AttachRequest)
      requires Valid() && Ownership(State()) && fd in connections && connections[fd].role.Data?
      requires connections[fd].attachedSession.None? && request.session in runtime.sessions
      modifies this`connections, this`writers, this`controller, reactor, Peers()
      ensures Valid() && Peers() <= old(Peers()) && fd in connections
      ensures State() == HolderSteps.TakeOver(old(State()), fd, request)
    {
      ghost var before := State();
      JoinOrder(before, fd, request);
      hide State, Conns, Wired, Distinct, Ownership, Joined, HolderSteps.TakeOver, HandedOver;
      Fields();
      HandOver(fd, request);
      Entry(fd);
      Fields();
      Join(fd, request);
    }

    /** Queues frames until one does not fit. */
    method QueueEach(fd: Fd, frames: seq<Frame>) returns (ok: bool)
      requires Valid()
      modifies reactor, Peers()
      ensures Valid() && connections == old(connections)
      ensures (State(), ok) == QueueAll(old(State()), fd, frames)
    {
      ghost var before := State();
      QueueAllBounds(before, fd, frames);
      hide Wired, Distinct, Conns, QueueAll, HolderStates.QueueFrame, CanQueue;
      ok := true;
      for k := 0 to |frames|
        invariant Valid() && connections == old(connections) && ok
        invariant (State(), true) == QueueAll(before, fd, frames[..k])
      {
        QueueAllNext(before, fd, frames, k);
        ok := QueueFrame(fd, frames[k]);
        if !ok {
          QueueAllStops(before, fd, frames, k + 1);
          return;
        }
      }
    }

    method Attach(fd: Fd, f: InFrame) returns (ok: bool)
      requires Valid() && Good(State(), {}) && fd in connections && connections[fd].role.Data? && f.request.Attach?
      modifies this`connections, this`writers, this`controller, reactor, Peers()
      ensures Valid() && Peers() <= old(Peers())
      ensures (State(), ok) == HandleAttach(old(State()), fd, f)
    {
      hide State, Conns, Distinct, Wired, Good, HolderStates.DetachConnection, HolderSteps.TakeOver, QueueAll,
        HolderSteps.Respond, Split;
      if f.request.attach.None? {
        return false;
      }
      var request := f.request.attach.value;
      Entry(fd);
      Fields();
      if request.session !in runtime.sessions {
        ok := Respond(fd, f, OperationResp(AttachResp, request.session, NotFound));
        return;
      }
      var replay := Enter(fd, request);
      ghost var s1 := State();
      Fields();
      var frames := WelcomeFrames(f, request, replay);
      WelcomeIs(s1, fd, f, request, replay);
      hide WelcomeFrames, Welcome;
      ok := QueueEach(fd, frames);
    }

    /** Leaves the old session and takes over the new one; what is to be replayed. */
    method Enter(fd: Fd, request: AttachRequest) returns (replay: seq<seq<byte>>)
      requires Valid() && Good(State(), {}) && fd in connections && connections[fd].role.Data?
      requires request.session in runtime.sessions
      modifies this`connections, this`writers, this`controller, reactor, Peers()
      ensures Valid() && Peers() <= old(Peers()) && fd in State().conns && fd in old(State()).conns
      ensures State() == HolderSteps.TakeOver(HolderStates.DetachConnection(old(State()), fd), fd, request)
      ensures replay == State().conns[fd].replay
    {
      hide State, Conns, Distinct, Wired, Good, HolderStates.DetachConnection, HolderSteps.TakeOver, Split, Advances,
        Ownership;
      ghost var before := State();
      Entry(fd);
      Fields();
      ghost var s0 := HolderStates.DetachConnection(before, fd);
      DetachGood(before, fd);
      GoodOwns(s0);
      Leave(fd);
      Entry(fd);
      Fields();
      TakeOverGood(s0, fd, request);
      TakeOver(fd, request);
      Fields();
      replay := Split(LastN(runtime.sessions[request.session].ring, request.replayBytes), MAX_IO_FRAME);
    }

    /** The answer, the replay in pieces, and the grant if one was asked for. */
    function WelcomeFrames(f: InFrame, request: AttachRequest, replay: seq<seq<byte>>): seq<Frame>
      reads runtime
    {
      var now := runtime.generation;
      [Frame(f.requestId, now, OperationResp(AttachResp, request.session, OpOk))]
      + seq(|replay|, i requires 0 <= i < |replay| => Frame(0, now, Output(replay[i])))
      + if request.readWrite then [Frame(0, now, WriteGranted(request.session))] else []
    }

    lemma WelcomeIs(s: Server, fd: Fd, f: InFrame, request: AttachRequest, replay: seq<seq<byte>>)
      requires fd in s.conns && replay == s.conns[fd].replay && s.runtime.generation == runtime.generation
      ensures WelcomeFrames(f, request, replay) == Welcome(s, fd, f, request)
    {
    }

    method Leave(fd: Fd)
      requires Valid()
      modifies this`writers, Peers()
      ensures Valid() && connections == old(connections)
      ensures State() == HolderStates.DetachConnection(old(State()), fd)
    {
      LeaveWired(State(), fd);
      hide Wired, HolderStates.DetachConnection;
      DetachConnection(fd);
    }

    // ---- A connection's turn -------------------------------------------------------------------

    method HandleData(fd: Fd, f: InFrame) returns (ok: bool)
      requires Valid() && Good(State(), {}) && RuntimeSound(runtime.State())
      requires fd in connections && connections[fd].role.Data?
      modifies this`connections, this`writers, this`controller, reactor, runtime, Peers()
      ensures Valid() && Peers() <= old(Peers())
      ensures (State(), ok) == HolderSteps.HandleData(old(State()), fd, f)
    {
      hide State, Conns, Wired, Distinct, Good, RuntimeSound, HandleAttach, HolderSteps.HandleInput,
        HolderStates.DetachConnection, HolderSteps.RequireWriter;
      Entry(fd);
      match f.request {
        case Attach(_) => ok := Attach(fd, f);
        case Detach(empty) =>
          if empty {
            Leave(fd);
          }
          ok := empty;
        case Input(data, script) => ok := HandleInput(fd, data, script);
        case Resize(valid, applied) => ok := RequireWriter(fd).Some? && valid && applied;
        case Signal(valid, applied) => ok := RequireWriter(fd).Some? && valid && applied;
        case _ => ok := false;
      }
    }

    method ProcessFrame(fd: Fd, f: InFrame) returns (ok: bool)
      requires Valid() && Good(State(), {}) && RuntimeSound(runtime.State()) && fd in connections
      modifies this`connections, this`writers, this`controller, this`shutdownFd, this`starts, reactor, runtime, Peers()
      ensures Valid() && Peers() <= old(Peers())
      ensures (State(), ok) == HolderSteps.ProcessFrame(old(State()), fd, f)
    {
      hide Wired, Distinct, Good, RuntimeSound, HolderSteps.HandleControlHello, HolderSteps.HandleDataHello,
        HolderSteps.HandleControl, HolderSteps.HandleData;
      match connections[fd].role {
        case Pending =>
          if f.request.ControlHello? {
            ok := HandleControlHello(fd, f);
          } else if f.request.DataHello? {
            ok := HandleDataHello(fd, f);
          } else {
            ok := false;
          }
        case Control => ok := HandleControl(fd, f);
        case Data =>
          if f.minor != connections[fd].protocolMinor {
            return false;
          }
          ok := HandleData(fd, f);
      }
    }

    /** Frames in order, until one is refused. The sender is found again for every frame. */
    method ProcessFrames(fd: Fd, frames: seq<InFrame>) returns (ok: bool)
      requires Valid() && Good(State(), {}) && fd in connections
      modifies this`connections, this`writers, this`controller, this`shutdownFd, this`starts, reactor, runtime, Peers()
      ensures Valid() && Peers() <= old(Peers())
      ensures fd in old(State()).conns
      ensures (State(), ok) == HolderRuns.ProcessFrames(old(State()), fd, frames)
    {
      hide Wired, Distinct, Good, RuntimeSound, Handled, HolderSteps.ProcessFrame;
      ghost var before := State();
      assert frames[0..] == frames;
      ok := true;
      for k := 0 to |frames|
        invariant Valid() && Peers() <= old(Peers()) && ok && fd in connections
        invariant Good(State(), {})
        invariant HolderRuns.ProcessFrames(before, fd, frames) == HolderRuns.ProcessFrames(State(), fd, frames[k..])
      {
        ghost var mid := State();
        assert frames[k..][0] == frames[k] && frames[k..][1..] == frames[k + 1..];
        GoodRuntime(mid);
        FrameKeeps(mid, fd, frames[k]);
        ok := ProcessFrame(fd, frames[k]);
        if !ok {
          return;
        }
        HandledFacts(mid, fd, (State(), true));
      }
    }

    /** Writes what the socket takes. */
    method FlushConnection(fd: Fd, script: seq<WriteResult>) returns (ok: bool)
      requires Valid() && fd in connections && Sound(connections[fd].State().output)
      modifies this`connections, this`writers, this`controller, reactor, Peers()
      ensures Valid() && Peers() <= old(Peers()) && fd in old(State()).conns
      ensures ok == FlushConn(old(State()), fd, script).Some?
      ensures ok ==> State() == FlushConn(old(State()), fd, script).value
    {
      hide State, Conns, Distinct, Wired, HolderStates.Disconnect, AfterFlush, FlushResult, Sound;
      ghost var before := State();
      Entry(fd);
      var outcome := connections[fd].Flush(script);
      OneMoved(fd);
      Entry(fd);
      ghost var s1 := SetConn(before, fd, AfterFlush(before.conns[fd], script));
      assert State() == s1;
      FlushWired(before, fd, AfterFlush(before.conns[fd], script));
      label Flushed:
      match outcome {
        case Died => ok := false;
        case Finished =>
          Disconnect(fd);
          ok := true;
        case Alive =>
          var pending := connections[fd].WantsWrite();
          Fields();
          RearmWired(s1, fd, pending);
          ok := reactor.Modify(fd, pending, true);
          NobodyMoved@Flushed();
      }
    }

    /** Returns whether the connection is still there for the write half. */
    method ReadHalf(fd: Fd, hangup: bool, inbound: Inbound) returns (stays: bool)
      requires Valid() && Good(State(), {}) && fd in connections
      modifies this`connections, this`writers, this`controller, this`shutdownFd, this`starts, reactor, runtime, Peers()
      ensures Valid() && Peers() <= old(Peers()) && fd in old(State()).conns
      ensures (State(), stays) == HolderRuns.ReadHalf(old(State()), fd, hangup, inbound)
    {
      hide Wired, Distinct, Good, Handled, HolderRuns.ProcessFrames, HolderStates.Disconnect, Advances;
      if inbound.ReadError? {
        Disconnect(fd);
        return false;
      }
      var closed := hangup;
      var frames := [];
      if inbound.Received? {
        closed := closed || inbound.peerClosed;
        frames := inbound.frames;
      }
      var accepted := ProcessFrames(fd, frames);
      if !accepted || closed {
        Disconnect(fd);
        return false;
      }
      stays := true;
    }

    method HandleConnection(fd: Fd, hangup: bool, inbound: Inbound, writable: Option<seq<WriteResult>>)
        returns (ok: bool)
      requires Valid() && Good(State(), {}) && fd in connections
      modifies this`connections, this`writers, this`controller, this`shutdownFd, this`starts, reactor, runtime, Peers()
      ensures Valid() && Peers() <= old(Peers())
      ensures ok == Step(old(State()), Peer(fd, hangup, inbound, writable)).Some?
      ensures ok ==> State() == Step(old(State()), Peer(fd, hangup, inbound, writable)).value
    {
      hide State, Conns, Wired, Distinct, Good, HolderRuns.ReadHalf, HolderRuns.Settle, Advances;
      Entry(fd);
      var stays := ReadHalf(fd, hangup, inbound);
      ok := true;
      if stays {
        ok := Settle(fd, writable);
      }
    }

    /** One event of a batch. The token decides what it is about: a registration dropped earlier in
        the batch no longer resolves, and the event is passed over. */
    method Dispatch(token: nat, readable: Option<seq<ReadResult>>, hangup: bool, inbound: Inbound,
        writable: Option<seq<WriteResult>>)
      returns (ok: bool)
      requires Valid() && Good(State(), {})
      modifies this`connections, this`writers, this`controller, this`shutdownFd, this`starts, this`events, reactor,
        runtime, Peers()
      ensures Valid() || !ok
      ensures ok ==> Peers() <= old(Peers())
      ensures var s := old(State());
              var event := Resolve(s, token, readable, hangup, inbound, writable);
              if event.None? then ok && State() == s
              else ok == Step(s, event.value).Some? && (ok ==> State() == Step(s, event.value).value)
    {
      hide Wired, Distinct, Good, Advances, Step;
      ok := true;
      var found := reactor.FdForToken(token);
      if found.None? {
        return;
      }
      var fd := found.value;
      if fd in runtime.ptyToSession {
        ok := HandlePty(fd, readable, writable);
      } else if fd in connections {
        ok := HandleConnection(fd, hangup, inbound, writable);
      }
    }

    /** The write half of a connection's event; its write interest is set afterwards either way. */
    method Settle(fd: Fd, writable: Option<seq<WriteResult>>) returns (ok: bool)
      requires Valid() && Good(State(), {}) && fd in State().conns
      modifies this`connections, this`writers, this`controller, reactor, Peers()
      ensures Valid() && Peers() <= old(Peers())
      ensures ok == HolderRuns.Settle(old(State()), fd, writable).Some?
      ensures ok ==> State() == HolderRuns.Settle(old(State()), fd, writable).value
    {
      hide Wired, Distinct, Good, FlushConn, Advances, ConnSound, Sound;
      ghost var s1 := State();
      assert fd in connections && connections[fd].State() == s1.conns[fd];
      GoodOutput(s1, fd);
      OutputIsSound(s1.codec, s1.conns[fd]);
      if writable.Some? {
        ok := FlushConnection(fd, writable.value);
      } else {
        var pending := connections[fd].WantsWrite();
        AlreadyArmed(s1, fd);
        assert fd in reactor.tokens by { WiredTokens(s1, fd); }
        ok := reactor.Modify(fd, pending, true);
        assert State() == s1;
      }
    }
  }

  /** What an event carrying this token is about, if anything: a terminal before a connection. */
  function Resolve(s: Server, token: nat, readable: Option<seq<ReadResult>>, hangup: bool, inbound: Inbound,
      writable: Option<seq<WriteResult>>): Option<HolderEvent>
  {
    if token !in s.reactor.fds then None
    else
      var fd := s.reactor.fds[token];
      if fd in s.runtime.ptys then Some(Terminal(fd, readable, writable))
      else if fd in s.conns then Some(Peer(fd, hangup, inbound, writable))
      else None
  }

  lemma HandledFacts(s: Server, fd: Fd, res: (Server, bool))
    requires Handled(s, fd, res) && res.1
    ensures fd in res.0.conns && Good(res.0, {}) && Advances(s, res.0)
  {
    hide Good, Advances;
  }

  lemma FlushWired(s: Server, fd: Fd, c: Conn)
    requires Wired(s) && fd in s.conns
    ensures Wired(SetConn(s, fd, c)) && fd in s.reactor.tokens
  {
    hide RegistrySound;
  }

  lemma OutputIsSound(codec: Codec, c: Conn)
    requires ConnSound(codec, c)
    ensures Sound(c.output)
  {
  }

  /** The tables just before the connection is marked as attached. */
  function HandedOver(s: Server, fd: Fd, request: AttachRequest): Server
  {
    if !request.readWrite then s
    else
      var id := request.session;
      var s1 := s.(writers := s.writers[id := fd]);
      if id in s.writers then HolderStates.QueueOrDisconnect(s1, s.writers[id], Event(s1, WriteRevoked(id))) else s1
  }

  /** Telling the previous writer before or after marking the new one as attached comes to the
      same: the two are different connections, and dropping one does not reach the other. */
  lemma JoinOrder(s: Server, fd: Fd, request: AttachRequest)
    requires Ownership(s) && fd in s.conns && s.conns[fd].role.Data? && s.conns[fd].attached.None?
    requires request.session in s.runtime.sessions
    ensures var s1 := HandedOver(s, fd, request);
            && fd in s1.conns && s1.runtime == s.runtime
            && SetConn(s1, fd, Joined(s1, s1.conns[fd], request)) == HolderSteps.TakeOver(s, fd, request)
  {
    hide Split;
    var id := request.session;
    if request.readWrite && id in s.writers {
      var was := s.writers[id];
      assert was != fd && !IsController(s, was);
      hide Ownership;
      var s1 := s.(writers := s.writers[id := fd]);
      var c := Joined(s, s.conns[fd], request);
      var f := Event(s1, WriteRevoked(id));
      if CanQueue(s1, was, f) {
        QueueCommutes(s1, was, f, fd, c);
      } else {
        DisconnectCommutes(s1, was, fd, c);
      }
    }
  }

  lemma QueueCommutes(s: Server, was: Fd, f: Frame, fd: Fd, c: Conn)
    requires CanQueue(s, was, f) && fd != was && fd in s.conns
    ensures var s' := HolderStates.QueueFrame(s, was, f);
            && fd in s'.conns && s'.conns[fd] == s.conns[fd] && s'.runtime == s.runtime && s'.events == s.events
            && CanQueue(SetConn(s, fd, c), was, f)
            && SetConn(s', fd, c) == HolderStates.QueueFrame(SetConn(s, fd, c), was, f)
  {
    hide Fits;
    var e := Enqueue(s.codec, s.conns[was], f);
    assert s.conns[was := e][fd := c] == s.conns[fd := c][was := e];
  }

  lemma DisconnectCommutes(s: Server, was: Fd, fd: Fd, c: Conn)
    requires fd != was && fd in s.conns && !IsController(s, was)
    ensures var s' := HolderStates.Disconnect(s, was);
            && fd in s'.conns && s'.conns[fd] == s.conns[fd] && s'.runtime == s.runtime && s'.events == s.events
            && SetConn(s', fd, c) == HolderStates.Disconnect(SetConn(s, fd, c), was)
  {
    hide Unregister;
    assert Casualties(s, was) == {was} == Casualties(SetConn(s, fd, c), was);
    assert (s.conns - {was})[fd := c] == s.conns[fd := c] - {was};
    assert WithoutWriters(s, {was}) == WithoutWriters(SetConn(s, fd, c), {was});
  }

  lemma QueueAllBounds(s: Server, fd: Fd, frames: seq<Frame>)
    ensures QueueAll(s, fd, frames[..0]) == (s, true) && frames[..|frames|] == frames
  {
  }

  lemma QueueAllNext(s: Server, fd: Fd, frames: seq<Frame>, k: nat)
    requires k < |frames|
    ensures var (s1, ok) := QueueAll(s, fd, frames[..k]);
            QueueAll(s, fd, frames[..k + 1])
            == if ok && CanQueue(s1, fd, frames[k]) then (HolderStates.QueueFrame(s1, fd, frames[k]), true)
              else (s1, false)
  {
    assert frames[..k + 1][..k] == frames[..k];
    hide CanQueue, HolderStates.QueueFrame;
  }

  lemma {:induction false} QueueAllStops(s: Server, fd: Fd, frames: seq<Frame>, k: nat)
    requires k <= |frames| && !QueueAll(s, fd, frames[..k]).1
    ensures QueueAll(s, fd, frames) == QueueAll(s, fd, frames[..k])
    decreases |frames|
  {
    if k == |frames| {
      assert frames[..k] == frames;
    } else {
      assert frames[..|frames| - 1][..k] == frames[..k];
      hide CanQueue, HolderStates.QueueFrame;
      QueueAllStops(s, fd, frames[..|frames| - 1], k);
    }
  }

  lemma LeaveWired(s: Server, fd: Fd)
    requires Wired(s)
    ensures Wired(HolderStates.DetachConnection(s, fd))
  {
    hide RegistrySound, WithoutWriters;
  }

  lemma ShutdownIsApart(s: Server, fd: Fd)
    requires Wired(s)
    ensures Wired(s.(shutdownFd := Some(fd)))
  {
    hide RegistrySound;
  }

  lemma RunningHasTerminal(s: Server, id: SessionId)
    requires RuntimeSound(s.runtime) && IsRunning(s.runtime, id)
    ensures s.runtime.sessions[id].pty.Some?
  {
  }

  lemma WritableIsRegistered(s: Server, fd: Fd)
    requires Wired(s) && fd in s.reactor.writable
    ensures fd in s.reactor.tokens
  {
  }

  lemma QueueKeepsTerminal(r: RuntimeState, id: SessionId, data: seq<byte>, script: seq<WriteResult>)
    requires RuntimeSound(r) && id in r.sessions
    ensures var r' := AfterQueueInput(r, id, data, script).0;
            id in r'.sessions && r'.sessions[id].pty == r.sessions[id].pty
  {
    if AcceptsInput(r, id, data) {
      PushAppends(r.sessions[id].input, data);
    }
    hide Drain;
  }

  lemma ControllerIsApart(s: Server, c: Option<Controller>)
    requires Wired(s)
    ensures Wired(s.(controller := c))
  {
    hide RegistrySound;
  }

  lemma StartWired(s: Server, id: SessionId, pty: Fd, ringCapacity: nat, logged: bool)
    requires Wired(s) && CanOpen(s, pty)
    ensures Wired(StartSession(s, id, pty, ringCapacity, logged))
  {
    RegisterKeeps(s.reactor, pty, false);
  }

  lemma StartIs(s: Server, s': Server, id: SessionId, pty: Fd, ringCapacity: nat, logged: bool)
    requires s' == s.(runtime := Created(s.runtime, id, pty, ringCapacity, logged),
             reactor := Register(s.reactor, pty, false),
                      starts := s.starts[id := Life(Starts(s, id) + 1, |History(s, id)|)])
    ensures s' == StartSession(s, id, pty, ringCapacity, logged)
  {
  }

  lemma AcceptIs(s: Server, s': Server, fd: Fd, pid: nat, uid: nat)
    requires CanOpen(s, fd)
    requires s' == s.(reactor := Register(s.reactor, fd, false), conns := s.conns[fd := FreshConn(pid, uid)])
    ensures s' == AcceptConn(s, fd, pid, uid)
  {
  }

  lemma JoinedIs(s: Server, c: Conn, request: AttachRequest)
    requires request.session in s.runtime.sessions
    ensures var j := Joined(s, c, request);
            j == c.(attached := Some(request.session), mark := |c.log|, from := j.from, origin := j.origin,
              replay := j.replay)
  {
    hide Split;
  }

  lemma HandedOverIs(s: Server, fd: Fd, request: AttachRequest)
    ensures !request.readWrite ==> HandedOver(s, fd, request) == s
    ensures request.readWrite ==>
              var id := request.session;
              var s1 := s.(writers := s.writers[id := fd]);
              HandedOver(s, fd, request)
              == if id in s.writers then HolderStates.QueueOrDisconnect(s1, s.writers[id], Event(s1, WriteRevoked(id)))
                else s1
  {
    hide HolderStates.QueueOrDisconnect;
  }

  lemma WiredAdds(s: Server)
    requires Wired(s)
    ensures s.reactor.nextToken == s.reactor.adds + 1
  {
  }

  lemma DrainAllBounds(s: Server, turns: seq<TerminalRead>)
    ensures DrainAll(s, turns[..0]) == Some(s) && turns[..|turns|] == turns
  {
  }

  lemma DrainAllNext(s: Server, turns: seq<TerminalRead>, k: nat)
    requires k < |turns| && DrainAll(s, turns[..k]).Some?
    ensures DrainAll(s, turns[..k + 1]) == DrainPty(DrainAll(s, turns[..k]).value, turns[k].fd, turns[k].feed)
  {
    assert turns[..k + 1][..k] == turns[..k];
    hide DrainPty;
  }

  lemma {:induction false} DrainAllStops(s: Server, turns: seq<TerminalRead>, k: nat)
    requires k <= |turns| && DrainAll(s, turns[..k]).None?
    ensures DrainAll(s, turns).None?
    decreases |turns|
  {
    if k == |turns| {
      assert turns[..k] == turns;
    } else {
      assert turns[..|turns| - 1][..k] == turns[..k];
      DrainAllStops(s, turns[..|turns| - 1], k);
    }
  }

  lemma NotATerminal(s: Server, fd: Fd, feed: seq<ReadResult>)
    requires fd !in s.runtime.ptys
    ensures DrainPty(s, fd, feed) == Some(s)
  {
  }

  lemma AnnounceBounds(s: Server, es: seq<ExitedSession>)
    ensures AnnounceAll(s, es[..0]) == s && es[..|es|] == es
  {
  }

  lemma AnnounceNext(s: Server, es: seq<ExitedSession>, k: nat)
    requires k < |es| && Core(s, Ptys(es)) && Views(s, {}) && DistinctExits(es)
    ensures AnnounceAll(s, es[..k + 1]) == HolderSteps.AnnounceExit(AnnounceAll(s, es[..k]), es[k])
    ensures Core(AnnounceAll(s, es[..k]), Ptys(es) - Ptys(es[..k])) && Views(AnnounceAll(s, es[..k]), {})
    ensures es[k].pty in Ptys(es) - Ptys(es[..k])
  {
    hide Core, Views, HolderSteps.AnnounceExit, DistinctExits, Ptys;
    assert es[..k + 1][..k] == es[..k];
    PrefixPtys(es, k);
    AnnounceAllKeeps(s, es[..k], Ptys(es));
  }

  lemma PrefixPtys(es: seq<ExitedSession>, k: nat)
    requires k < |es| && DistinctExits(es)
    ensures DistinctExits(es[..k]) && Ptys(es[..k]) <= Ptys(es) && es[k].pty in Ptys(es) - Ptys(es[..k])
  {
    assert forall i :: 0 <= i < k ==> es[..k][i] == es[i];
  }

  lemma LogBounds(s: Server, failures: seq<Failure>)
    ensures HolderSteps.HandleLogFailures(s, failures[..0]) == s && failures[..|failures|] == failures
  {
  }

  lemma LogNext(s: Server, failures: seq<Failure>, k: nat)
    requires k < |failures|
    ensures var mid := HolderSteps.HandleLogFailures(s, failures[..k]);
            HolderSteps.HandleLogFailures(s, failures[..k + 1])
            == HolderStates.SendControl(mid.(runtime := LogFailed(mid.runtime, failures[k].session)),
                                        LogDegraded(failures[k].session, failures[k].dropped))
  {
    assert failures[..k + 1][..k] == failures[..k];
    hide LogFailed, HolderStates.SendControl;
  }

  lemma AcceptWired(s: Server, fd: Fd, pid: nat, uid: nat)
    requires Wired(s) && CanOpen(s, fd)
    ensures Wired(AcceptConn(s, fd, pid, uid)) && fd !in s.conns
  {
    RegisterKeeps(s.reactor, fd, false);
  }

  lemma RuntimeIsApart(s: Server, r: RuntimeState)
    requires Wired(s) && Ownership(s)
    ensures Wired(s.(runtime := r)) && Ownership(s.(runtime := r))
  {
    hide RegistrySound;
  }

  lemma RuntimeWired(s: Server, r: RuntimeState)
    requires Wired(s)
    ensures Wired(s.(runtime := r))
  {
    hide RegistrySound;
  }

  lemma RearmWired(s: Server, fd: Fd, armed: bool)
    requires Wired(s) && fd in s.reactor.tokens
    ensures Wired(s.(reactor := Rearm(s.reactor, fd, armed)))
  {
    assert s.reactor.writable[fd := armed].Keys == s.reactor.writable.Keys;
  }

  lemma TerminalIsRegistered(s: Server, fd: Fd)
    requires Good(s, {}) && RuntimeSound(s.runtime) && fd in s.runtime.ptys
    ensures fd in s.reactor.tokens
    ensures s.runtime.ptys[fd] in s.runtime.sessions && Sound(s.runtime.sessions[s.runtime.ptys[fd]].input)
  {
    GoodParts(s, {});
    CoreTables(s, {});
    TablesFacts(s);
    TerminalHasSession(s.runtime, fd);
    hide Good, Core, Tables, Sound;
  }

  /** Draining a terminal does not close it, so the write half of its event still finds it. */
  lemma DrainKeepsTerminals(s: Server, fd: Fd, feed: seq<ReadResult>)
    requires RuntimeSound(s.runtime) && DrainPty(s, fd, feed).Some?
    ensures DrainPty(s, fd, feed).value.runtime.ptys == s.runtime.ptys
  {
    if fd in s.runtime.ptys {
      TerminalHasSession(s.runtime, fd);
      var id := s.runtime.ptys[fd];
      var (r, d) := AfterDrain(s.runtime, fd, feed);
      DrainRuntimeEffect(s.runtime, fd, feed);
      hide AfterDrain, RuntimeSound;
      PublishRuntime(s.(runtime := r), id, d.chunks);
      hide Publish, Disconnect;
    }
  }

  lemma {:induction false} PublishRuntime(s: Server, id: SessionId, chunks: seq<seq<byte>>)
    ensures Publish(s, id, chunks).runtime == s.runtime
    decreases |chunks|
  {
    if chunks != [] {
      PublishRuntime(s, id, chunks[..|chunks| - 1]);
      hide Overflowing, Unregister, WithoutWriters;
    }
  }

  /** The audience of a session: nobody in it is the controller, whoever left is unregistered, and
      everybody attached is in it. */
  ghost predicate Audience(s: Server, targets: set<Fd>, id: SessionId)
  {
    && (forall fd :: fd in targets ==> !IsController(s, fd))
    && (forall fd :: fd in targets && fd in s.reactor.tokens ==> fd in s.conns)
    && (forall fd :: fd in s.conns ==> (fd in targets <==> s.conns[fd].attached == Some(id)))
  }

  lemma AudienceStarts(s: Server, id: SessionId)
    requires Ownership(s)
    ensures Audience(s, Attached(s, id), id)
  {
  }

  lemma PublishNothing(s: Server, id: SessionId, chunks: seq<seq<byte>>)
    ensures Publish(s, id, chunks[..0]) == s
    ensures chunks[..|chunks|] == chunks
  {
  }

  lemma PublishNext(s: Server, id: SessionId, chunks: seq<seq<byte>>, k: nat)
    requires k < |chunks|
    ensures var init := Publish(s, id, chunks[..k]);
            Publish(s, id, chunks[..k + 1])
            == Emit(Broadcast(init, Attached(init, id), CastOutput(chunks[k])), id, CastEvent(CastOutput(chunks[k])))
  {
    assert chunks[..k + 1][..k] == chunks[..k];
  }

  lemma AudienceFacts(s: Server, targets: set<Fd>, id: SessionId)
    requires Audience(s, targets, id)
    ensures forall fd :: fd in targets ==> !IsController(s, fd)
    ensures forall fd :: fd in targets && fd in s.reactor.tokens ==> fd in s.conns
  {
  }

  lemma AttachedIsOpen(s: Server, id: SessionId)
    ensures Attached(s, id) <= s.conns.Keys
  {
  }

  lemma AudienceStays(s: Server, targets: set<Fd>, id: SessionId, cast: Cast)
    requires Audience(s, targets, id)
    ensures Broadcast(s, targets, cast) == Broadcast(s, Attached(s, id), cast)
    ensures Audience(Emit(Broadcast(s, targets, cast), id, CastEvent(cast)), targets, id)
  {
    BroadcastToPresent(s, targets, id, cast);
    hide Fits, WithoutWriters;
  }

  lemma EmitWired(s: Server, id: SessionId, e: StreamEvent)
    requires Wired(s)
    ensures Wired(Emit(s, id, e)) && Emit(s, id, e) == s.(events := Emit(s, id, e).events)
  {
    hide RegistrySound;
  }

  lemma CoreWired(s: Server, lingering: set<Fd>)
    requires Core(s, lingering)
    ensures Wired(s)
  {
    hide Ownership, Armed, RegistrySound, RuntimeSound, ConnSound;
  }

  /** The connections after all but `left` have been looked at. */
  function DetachedUpto(conns: map<Fd, Conn>, id: SessionId, left: set<Fd>): map<Fd, Conn>
  {
    map fd | fd in conns ::
      if fd !in left && conns[fd].attached == Some(id) then conns[fd].(attached := None) else conns[fd]
  }

  lemma DetachStep(conns: map<Fd, Conn>, id: SessionId, left: set<Fd>, fd: Fd)
    requires fd in left && fd in conns
    ensures var m := DetachedUpto(conns, id, left);
            && fd in m && m[fd] == conns[fd]
            && DetachedUpto(conns, id, left - {fd})
               == if conns[fd].attached == Some(id) then m[fd := m[fd].(attached := None)] else m
  {
  }

  lemma DetachBounds(s: Server, id: SessionId)
    ensures DetachedUpto(s.conns, id, s.conns.Keys) == s.conns
    ensures DetachedUpto(s.conns, id, {}) == HolderStates.DetachSession(s, id).conns
  {
  }

  lemma DetachWired(s: Server, id: SessionId)
    requires Wired(s)
    ensures Wired(HolderStates.DetachSession(s, id))
  {
  }

  lemma WritersMayChange(s: Server, w: map<SessionId, Fd>)
    requires Wired(s)
    ensures Wired(s.(writers := w))
  {
  }

  lemma BroadcastController(s: Server, done: set<Fd>, cast: Cast)
    ensures var c := Broadcast(s, done, cast).controller; c.None? || c == s.controller
  {
    hide Fits, Unregister, WithoutWriters;
  }

  lemma DropNobodyHere(s: Server, fd: Fd, f: Frame)
    requires Wired(s) && fd !in s.reactor.tokens && fd !in s.conns && !IsController(s, fd)
    ensures HolderStates.QueueOrDisconnect(s, fd, f) == s
  {
    hide Disconnect;
    DropNobody(s, fd);
  }

  lemma SomeMember(s: set<Fd>)
    requires s != {}
    ensures exists fd: Fd :: fd in s
  {
    assert (forall fd: Fd :: fd !in s) ==> s == {};
  }

  lemma WiredRegistry(s: Server)
    requires Wired(s)
    ensures RegistrySound(s.reactor)
  {
  }

  lemma DetachIgnoresTokens(s: Server, fd: Fd)
    ensures var r := Unregister(s.reactor, {fd});
            HolderStates.DetachConnection(s.(reactor := r), fd) == HolderStates.DetachConnection(s, fd).(reactor := r)
    ensures HolderStates.DetachConnection(s, fd).controller == s.controller
  {
    hide Unregister;
    assert WithoutWriters(s.(reactor := Unregister(s.reactor, {fd})), {fd}) == WithoutWriters(s, {fd});
  }

  lemma NoCascade(s: Server, fd: Fd)
    requires !IsController(s, fd)
    ensures HolderStates.Disconnect(s, fd) == RemoveAll(s, {fd})
  {
    assert Casualties(s, fd) == {fd};
  }

  lemma RemoveNobody(s: Server)
    ensures RemoveAll(s, {}) == s
  {
    assert s.conns - {} == s.conns && s.reactor.tokens - {} == s.reactor.tokens
           && s.reactor.writable - {} == s.reactor.writable;
    assert WithoutWriters(s, {}) == s.writers;
    assert Unregister(s.reactor, {}).fds == s.reactor.fds;
  }

  lemma DropsOne(s: Server, done: set<Fd>, fd: Fd)
    requires s.controller.None?
    ensures HolderStates.Disconnect(RemoveAll(s, done), fd) == RemoveAll(s, done + {fd})
    ensures RemoveAll(s, done + {fd}).controller.None?
  {
    RemoveTwice(s, done, {fd});
    hide Unregister, WithoutWriters;
    assert Casualties(RemoveAll(s, done), fd) == {fd};
  }

  lemma CascadeAddsUp(s: Server, fd: Fd)
    requires IsController(s, fd)
    ensures var mid := RemoveAll(s, {fd});
            mid.controller.None? && RemoveAll(mid, DataFds(mid)) == HolderStates.Disconnect(s, fd)
  {
    var mid := RemoveAll(s, {fd});
    RemoveTwice(s, {fd}, DataFds(mid));
    hide Unregister, WithoutWriters;
    assert {fd} + DataFds(mid) == Casualties(s, fd);
  }

  lemma WiredTokens(s: Server, fd: Fd)
    requires Wired(s) && fd in s.conns
    ensures fd in s.reactor.tokens
  {
  }

  /** The worker's reports as the Holder passes them on. */
  function Notices(losses: seq<LogQueues.Loss>): (failures: seq<Failure>)
    ensures |failures| == |losses|
  {
    seq(|losses|, i requires 0 <= i < |losses| => Failure(losses[i].session, losses[i].bytes))
  }

  method RegisterStatics(reactor: Reactor, listener: Fd, signals: Fd, logs: Fd)
    modifies reactor
    ensures reactor.State() == Register(Register(Register(old(reactor.State()), listener, false), signals, false),
            logs, false)
  {
    hide Register;
    var _ := reactor.Add(listener, false, true);
    var _ := reactor.Add(signals, false, true);
    var _ := reactor.Add(logs, false, true);
  }
}
