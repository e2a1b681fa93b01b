/** Every Holder handler keeps the invariant of HolderInvariants. */
module HolderKeeps {
  import opened Bytes
  import opened ByteQueues
  import opened HolderFrames
  import opened Connections
  import opened Reactors
  import opened HolderRuntimes
  import opened HolderStates
  import opened HolderInvariants
  import opened HolderSteps

  /** The invariant, except that nothing is claimed about what the connections in `except`
      have been told. */
  ghost predicate Good(s: Server, except: set<Fd>)
  {
    Core(s, {}) && Views(s, except) && Streams(s, {})
  }

  /** Outcome of handling a frame from `fd`: it is still connected, whoever else was dropped on the
      way; on success everything holds, on failure only its own view may be off, and it is about
      to be dropped. */
  ghost predicate Handled(s: Server, fd: Fd, res: (Server, bool))
  {
    && Advances(s, res.0)
    && fd in res.0.conns
    && Good(res.0, {fd})
    && (res.1 ==> Good(res.0, {}))
  }

  ghost predicate SameStreams(s: Server, s': Server)
  {
    && s'.events == s.events && s'.starts == s.starts
    && s'.runtime.sessions.Keys == s.runtime.sessions.Keys
    && forall id :: id in s.runtime.sessions ==>
         s'.runtime.sessions[id].ring == s.runtime.sessions[id].ring
         && s'.runtime.sessions[id].ringCapacity == s.runtime.sessions[id].ringCapacity
         && s'.runtime.sessions[id].exitCode == s.runtime.sessions[id].exitCode
  }

  lemma StreamsCarryOver(s: Server, s': Server, except: set<SessionId>)
    requires Streams(s, except) && SameStreams(s, s')
    ensures Streams(s', except)
  {
    forall id: SessionId | id !in except ensures StreamSound(s', id) {
      assert StreamSound(s, id);
    }
  }

  lemma GoodParts(s: Server, except: set<Fd>)
    requires Good(s, except)
    ensures Core(s, {}) && Views(s, except) && Streams(s, {})
  {
    hide Core, Views, Streams;
  }

  lemma MakeGood(s: Server, except: set<Fd>)
    requires Core(s, {}) && Views(s, except) && Streams(s, {})
    ensures Good(s, except)
  {
    hide Core, Views, Streams;
  }

  lemma GoodWeakens(s: Server, except: set<Fd>)
    requires Good(s, {})
    ensures Good(s, except)
  {
    hide Core, ViewSound, StreamSound;
  }

  // ---- Building blocks ------------------------------------------------------------

  lemma PeerIsNotTerminal(s: Server, fd: Fd, lingering: set<Fd>)
    requires Core(s, lingering) && fd in s.conns
    ensures fd !in s.statics + lingering + s.runtime.ptys.Keys && fd in s.reactor.tokens
  {
    hide Ownership, Armed, RuntimeSound, RegistrySound, ConnSound;
  }

  lemma DisconnectGood(s: Server, fd: Fd, except: set<Fd>)
    requires Good(s, except) && fd in s.conns
    ensures Good(Disconnect(s, fd), except - {fd}) && Advances(s, Disconnect(s, fd))
    ensures fd !in Disconnect(s, fd).conns
  {
    PeerIsNotTerminal(s, fd, {});
    hide Core, ViewSound, StreamSound, Advances;
    DisconnectKeeps(s, fd, {}, except);
    StreamsCarryOver(s, Disconnect(s, fd), {});
  }

  lemma RespondGood(s: Server, fd: Fd, f: InFrame, m: Message, except: set<Fd>)
    requires Good(s, except) && fd in s.conns && Quiet(m)
    ensures var (s', ok) := Respond(s, fd, f, m);
            && Good(s', except) && Advances(s, s')
            && s'.conns.Keys == s.conns.Keys && s'.controller == s.controller && s'.runtime == s.runtime
            && s'.conns[fd].role == s.conns[fd].role && s'.conns[fd].attached == s.conns[fd].attached
            && s'.conns[fd].pid == s.conns[fd].pid
  {
    var frame := Reply(s, f, m);
    if CanQueue(s, fd, frame) {
      QueueFrameKeeps(s, fd, frame, {});
      hide Core, ViewSound, StreamSound, Advances;
      QuietKeepsViews(s, fd, frame, except);
      StreamsCarryOver(s, QueueFrame(s, fd, frame), {});
    } else {
      assert Advances(s, s) by { hide Core, ViewSound, StreamSound; }
      hide Core, ViewSound, StreamSound, Advances;
    }
  }

  lemma RespondHandled(s: Server, s1: Server, fd: Fd, f: InFrame, m: Message)
    requires Advances(s, s1) && Good(s1, {}) && fd in s1.conns && Quiet(m)
    ensures Handled(s, fd, Respond(s1, fd, f, m))
  {
    hide Core, ViewSound, StreamSound, Advances, Respond;
    RespondGood(s1, fd, f, m, {});
    GoodWeakens(Respond(s1, fd, f, m).0, {fd});
    AdvancesTrans(s, s1, Respond(s1, fd, f, m).0);
  }

  lemma RefusedHandled(s: Server, s1: Server, fd: Fd)
    requires Advances(s, s1) && Good(s1, {}) && fd in s1.conns
    ensures Handled(s, fd, (s1, false))
  {
    GoodWeakens(s1, {fd});
    hide Good, Advances;
  }

  lemma AdvancesRefl(s: Server)
    ensures Advances(s, s)
  {
  }

  lemma AmendTables(s: Server, fd: Fd, c: Conn)
    requires Tables(s, {}) && fd in s.conns
    requires c == s.conns[fd].(minor := c.minor, closing := c.closing)
    ensures Tables(SetConn(s, fd, c), {})
  {
    hide RuntimeSound, RegistrySound, Sound;
  }

  lemma AmendShape(s: Server, fd: Fd, c: Conn)
    requires Armed(s) && fd in s.conns && c == s.conns[fd].(minor := c.minor, closing := c.closing)
    ensures Armed(SetConn(s, fd, c)) && Advances(s, SetConn(s, fd, c)) && SameStreams(s, SetConn(s, fd, c))
  {
  }

  lemma AmendViews(s: Server, fd: Fd, c: Conn, except: set<Fd>)
    requires Views(s, except) && fd in s.conns
    requires c == s.conns[fd].(minor := c.minor, closing := c.closing)
    ensures Views(SetConn(s, fd, c), except)
  {
    hide Faithful;
    var s' := SetConn(s, fd, c);
    forall g | g in s'.conns && g !in except ensures ViewSound(s', g) {
      assert ViewSound(s, g);
      FaithfulIgnoresFlags(s.conns[fd], c);
    }
  }

  /** A connection's flags may change as long as its part, its queue and its log do not. */
  lemma AmendGood(s: Server, fd: Fd, c: Conn, except: set<Fd>)
    requires Good(s, except) && fd in s.conns
    requires c == s.conns[fd].(minor := c.minor, closing := c.closing)
    ensures Good(SetConn(s, fd, c), except) && Advances(s, SetConn(s, fd, c))
  {
    hide *;
    GoodParts(s, except);
    CoreOwns(s, {});
    CoreTables(s, {});
    SetConnOwnership(s, fd, c);
    AmendTables(s, fd, c);
    AmendShape(s, fd, c);
    CoreParts(SetConn(s, fd, c), {});
    AmendViews(s, fd, c, except);
    StreamsCarryOver(s, SetConn(s, fd, c), {});
    MakeGood(SetConn(s, fd, c), except);
  }

  /** The same clients, writers and histories make the same views. */
  lemma ViewsCarryOver(s: Server, s': Server, except: set<Fd>)
    requires Views(s, except)
    requires s'.conns == s.conns && s'.writers == s.writers && s'.events == s.events
    ensures Views(s', except)
  {
    hide Faithful;
    forall g | g in s'.conns && g !in except ensures ViewSound(s', g) {
      assert ViewSound(s, g);
    }
  }

  lemma FaithfulIgnoresFlags(c: Conn, d: Conn)
    requires d == c.(minor := d.minor, closing := d.closing, role := d.role, output := d.output, sent := d.sent)
    ensures forall h: seq<StreamEvent>, o: bool :: Faithful(c, h, o) <==> Faithful(d, h, o)
  {
  }

  // ---- Handshake --------------------------------------------------------------------

  lemma PromoteControl(s: Server, fd: Fd, ctl: Controller)
    requires Good(s, {}) && fd in s.conns && s.conns[fd].role.Pending? && s.controller.None?
    requires ctl.fd == fd && ctl.pid == s.conns[fd].pid
    ensures var s' := SetConn(s, fd, s.conns[fd].(role := Control)).(controller := Some(ctl));
            Good(s', {}) && Advances(s, s')
  {
    var s' := SetConn(s, fd, s.conns[fd].(role := Control)).(controller := Some(ctl));
    assert fd in s'.conns && s' == SetConn(s, fd,
           s.conns[fd].(role := s'.conns[fd].role)).(controller := s'.controller);
    hide *;
    GoodParts(s, {});
    CoreOwns(s, {});
    PromotedOwnership(s, fd, Some(ctl), Control);
    RoleChange(s, s', fd);
    CoreParts(s', {});
    MakeGood(s', {});
  }

  lemma PromoteData(s: Server, fd: Fd)
    requires Good(s, {}) && fd in s.conns && s.conns[fd].role.Pending?
    requires s.controller.Some? && s.controller.value.pid == s.conns[fd].pid
    ensures var s' := SetConn(s, fd, s.conns[fd].(role := Role.Data));
            Good(s', {}) && Advances(s, s')
  {
    var s' := SetConn(s, fd, s.conns[fd].(role := Role.Data));
    assert fd in s'.conns && s' == SetConn(s, fd,
           s.conns[fd].(role := s'.conns[fd].role)).(controller := s'.controller);
    assert s' == SetConn(s, fd, s.conns[fd].(role := Role.Data)).(controller := s.controller);
    hide *;
    GoodParts(s, {});
    CoreOwns(s, {});
    PromotedOwnership(s, fd, s.controller, Role.Data);
    RoleChange(s, s', fd);
    CoreParts(s', {});
    MakeGood(s', {});
  }

  lemma PromotedOwnership(s: Server, fd: Fd, controller: Option<Controller>, role: Role)
    requires Ownership(s) && fd in s.conns && s.conns[fd].role.Pending?
    requires controller.Some? && controller.value.pid == s.conns[fd].pid
    requires if role.Control? then s.controller.None? && controller.value.fd == fd
             else role.Data? && controller == s.controller
    ensures Ownership(SetConn(s, fd, s.conns[fd].(role := role)).(controller := controller))
  {
  }

  lemma NewcomerIsDetached(s: Server, fd: Fd)
    requires Ownership(s) && fd in s.conns && s.conns[fd].role.Pending?
    ensures s.conns[fd].attached.None?
  {
  }

  lemma RoleTables(s: Server, s': Server, fd: Fd)
    requires Tables(s, {}) && fd in s.conns && fd in s'.conns
    requires s' == SetConn(s, fd, s.conns[fd].(role := s'.conns[fd].role)).(controller := s'.controller)
    ensures Tables(s', {})
  {
    hide RuntimeSound, RegistrySound, Sound;
  }

  lemma RoleArmed(s: Server, s': Server, fd: Fd)
    requires Armed(s) && fd in s.conns && fd in s'.conns
    requires s' == SetConn(s, fd, s.conns[fd].(role := s'.conns[fd].role)).(controller := s'.controller)
    ensures Armed(s')
  {
  }

  lemma RoleViews(s: Server, s': Server, fd: Fd)
    requires Views(s, {}) && fd in s.conns && s.conns[fd].attached.None? && fd in s'.conns
    requires s' == SetConn(s, fd, s.conns[fd].(role := s'.conns[fd].role)).(controller := s'.controller)
    ensures Views(s', {})
  {
    hide Faithful;
    forall g | g in s'.conns && g !in {} ensures ViewSound(s', g) {
      assert ViewSound(s, g);
    }
  }

  /** Everything but ownership is blind to roles. */
  lemma RoleChange(s: Server, s': Server, fd: Fd)
    requires Good(s, {}) && fd in s.conns && s.conns[fd].role.Pending? && fd in s'.conns
    requires s' == SetConn(s, fd, s.conns[fd].(role := s'.conns[fd].role)).(controller := s'.controller)
    ensures Tables(s', {}) && Armed(s') && Views(s', {}) && Streams(s', {}) && Advances(s, s')
  {
    assert SameStreams(s, s') && Advances(s, s') by { hide Good; }
    hide *;
    GoodParts(s, {});
    CoreOwns(s, {});
    NewcomerIsDetached(s, fd);
    CoreTables(s, {});
    RoleTables(s, s', fd);
    RoleArmed(s, s', fd);
    RoleViews(s, s', fd);
    StreamsCarryOver(s, s', {});
  }

  lemma PriorIsAnother(s: Server, fd: Fd)
    requires Core(s, {}) && fd in s.conns && s.conns[fd].role.Pending? && s.controller.Some?
    ensures s.controller.value.fd in s.conns && s.controller.value.fd != fd
  {
    hide Tables, Armed;
  }

  lemma DropEffect(s: Server, fd: Fd)
    requires fd in s.conns && s.conns[fd].role.Pending? && s.controller.Some? && s.controller.value.fd != fd
    ensures var s1 := Disconnect(s, s.controller.value.fd);
            s1.controller.None? && fd in s1.conns && s1.conns[fd] == s.conns[fd]
  {
    hide Unregister, WithoutWriters;
  }

  /** A controller whose socket has closed is dropped without touching a peer still saying hello. */
  lemma DropPrior(s: Server, fd: Fd)
    requires Good(s, {}) && fd in s.conns && s.conns[fd].role.Pending? && s.controller.Some?
    ensures var s1 := Disconnect(s, s.controller.value.fd);
            && Good(s1, {}) && Advances(s, s1)
            && s1.controller.None? && fd in s1.conns && s1.conns[fd] == s.conns[fd]
  {
    hide *;
    GoodParts(s, {});
    PriorIsAnother(s, fd);
    DropEffect(s, fd);
    DisconnectGood(s, s.controller.value.fd, {});
    assert {} - {s.controller.value.fd} == {};
  }

  lemma ControlHelloKeeps(s: Server, fd: Fd, f: InFrame)
    requires Good(s, {}) && fd in s.conns && s.conns[fd].role.Pending? && f.request.ControlHello?
    ensures Handled(s, fd, HandleControlHello(s, fd, f))
  {
    hide Good, Advances, Disconnect, Respond;
    AdvancesRefl(s);
    if f.minor != BASELINE_MINOR {
      RefusedHandled(s, s, fd);
      return;
    }
    var s1 := if s.controller.Some? && s.controller.value.fd in s.conns && f.request.controllerGone
              then Disconnect(s, s.controller.value.fd) else s;
    if s.controller.Some? && s.controller.value.fd in s.conns && f.request.controllerGone {
      DropPrior(s, fd);
    }
    if f.request.hello.None? {
      RefusedHandled(s, s1, fd);
      return;
    }
    var hello := f.request.hello.value;
    var peer := s.conns[fd];
    var status :=
      if hello.uid != peer.uid || hello.pid != peer.pid then PermissionDenied
      else if s1.controller.Some? then Busy
      else Accepted;
    var m := ControlHelloAck(hello.nonce, status);
    RespondGood(s1, fd, f, m, {});
    var (s2, ok) := Respond(s1, fd, f, m);
    AdvancesTrans(s, s1, s2);
    if !ok {
      RefusedHandled(s, s2, fd);
    } else if status == Accepted {
      var ctl := Controller(fd, hello.pid, hello.nonce, BASELINE_MINOR);
      var s3 := SetConn(s2, fd, s2.conns[fd].(role := Control)).(controller := Some(ctl));
      PromoteControl(s2, fd, ctl);
      AdvancesTrans(s, s2, s3);
      GoodWeakens(s3, {fd});
    } else {
      var s3 := SetConn(s2, fd, s2.conns[fd].(closing := true));
      AmendGood(s2, fd, s2.conns[fd].(closing := true), {});
      AdvancesTrans(s, s2, s3);
      GoodWeakens(s3, {fd});
    }
  }

  lemma DataHelloKeeps(s: Server, fd: Fd, f: InFrame)
    requires Good(s, {}) && fd in s.conns && s.conns[fd].role.Pending? && f.request.DataHello?
    ensures Handled(s, fd, HandleDataHello(s, fd, f))
  {
    AdvancesRefl(s);
    hide Good, Advances, Respond;
    if f.request.dataHello.None? {
      RefusedHandled(s, s, fd);
      return;
    }
    var hello := f.request.dataHello.value;
    var accepted := AcceptsData(s, s.conns[fd], f.minor, hello);
    var s1 := if accepted then SetConn(s, fd, s.conns[fd].(minor := f.minor)) else s;
    if accepted {
      AmendGood(s, fd, s.conns[fd].(minor := f.minor), {});
    }
    var m := DataHelloAck(hello.nonce, if accepted then Accepted else PermissionDenied);
    RespondGood(s1, fd, f, m, {});
    var (s2, ok) := Respond(s1, fd, f, m);
    AdvancesTrans(s, s1, s2);
    if !ok {
      RefusedHandled(s, s2, fd);
    } else if accepted {
      var s3 := SetConn(s2, fd, s2.conns[fd].(role := Role.Data));
      PromoteData(s2, fd);
      AdvancesTrans(s, s2, s3);
      GoodWeakens(s3, {fd});
    } else {
      var s3 := SetConn(s2, fd, s2.conns[fd].(closing := true));
      AmendGood(s2, fd, s2.conns[fd].(closing := true), {});
      AdvancesTrans(s, s2, s3);
      GoodWeakens(s3, {fd});
    }
  }

  // ---- Control requests --------------------------------------------------------------------

  lemma CapabilityKeeps(s: Server, fd: Fd, f: InFrame)
    requires Good(s, {}) && fd in s.conns && f.request.Capability?
    ensures Handled(s, fd, HandleCapability(s, fd, f))
  {
    AdvancesRefl(s);
    hide Good, Advances, Respond;
    if f.request.capability.None? || f.minor != CURRENT_MINOR || s.conns[fd].minor != BASELINE_MINOR
       || f.request.capability.value.maxMinor != CURRENT_MINOR || !IsController(s, fd)
       || f.request.capability.value.instance != s.instance
       || f.request.capability.value.nonce != s.controller.value.nonce {
      RefusedHandled(s, s, fd);
      return;
    }
    var c := s.conns[fd].(minor := CURRENT_MINOR);
    AmendGood(s, fd, c, {});
    var s0 := SetConn(s, fd, c);
    var s1 := s0.(controller := Some(s.controller.value.(minor := CURRENT_MINOR)));
    UpgradeGood(s0, CURRENT_MINOR);
    AdvancesTrans(s, s0, s1);
    RespondHandled(s, s1, fd, f, CapabilityResp(f.request.capability.value.nonce));
  }

  lemma UpgradeGood(s: Server, minor: nat)
    requires Good(s, {}) && s.controller.Some?
    ensures var s1 := s.(controller := Some(s.controller.value.(minor := minor)));
            Good(s1, {}) && Advances(s, s1)
  {
    var s1 := s.(controller := Some(s.controller.value.(minor := minor)));
    UpgradeFrame(s, minor);
    hide *;
    GoodParts(s, {});
    UpgradeCore(s, minor);
    ViewsCarryOver(s, s1, {});
    StreamsCarryOver(s, s1, {});
    MakeGood(s1, {});
  }

  lemma UpgradeFrame(s: Server, minor: nat)
    requires s.controller.Some?
    ensures var s1 := s.(controller := Some(s.controller.value.(minor := minor)));
            SameStreams(s, s1) && Advances(s, s1)
  {
  }

  lemma UpgradeCore(s: Server, minor: nat)
    requires Core(s, {}) && s.controller.Some?
    ensures Core(s.(controller := Some(s.controller.value.(minor := minor))), {})
  {
    hide ConnSound, RuntimeSound, RegistrySound;
  }

  lemma StartTables(s: Server, id: SessionId, pty: Fd, ringCapacity: nat, logged: bool)
    requires Tables(s, {}) && id !in s.runtime.sessions && CanOpen(s, pty) && ringCapacity > 0
    ensures Tables(StartSession(s, id, pty, ringCapacity, logged), {})
    ensures Evolves(s.reactor, StartSession(s, id, pty, ringCapacity, logged).reactor)
    ensures Tracks(s.runtime, StartSession(s, id, pty, ringCapacity, logged).runtime)
  {
    assert RegistrySound(s.reactor) && RuntimeSound(s.runtime) && pty !in s.runtime.ptys by {
      hide RegistrySound, RuntimeSound, ConnSound;
    }
    CreatedPtys(s.runtime, id, pty, ringCapacity, logged);
    hide Tables, RuntimeSound, RegistrySound, Tracks, Evolves, Created, Register;
    CreatedKeeps(s.runtime, id, pty, ringCapacity, logged);
    RegisterKeeps(s.reactor, pty, false);
    RegisterKeys(s.reactor, pty, false);
    OneMoreTerminal(s, StartSession(s, id, pty, ringCapacity, logged), pty);
  }

  lemma CreatedPtys(r: RuntimeState, id: SessionId, pty: Fd, ringCapacity: nat, logged: bool)
    ensures Created(r, id, pty, ringCapacity, logged).ptys.Keys == r.ptys.Keys + {pty}
  {
    hide FreshSession;
  }

  lemma StartArmed(s: Server, id: SessionId, pty: Fd, ringCapacity: nat, logged: bool)
    requires Armed(s) && pty !in s.conns && pty !in s.runtime.ptys
    requires id !in s.runtime.sessions
    requires forall fd :: fd in s.runtime.ptys ==> s.runtime.ptys[fd] in s.runtime.sessions
    ensures Armed(StartSession(s, id, pty, ringCapacity, logged))
  {
  }

  lemma OpeningIsNew(s: Server, pty: Fd)
    requires Tables(s, {}) && CanOpen(s, pty)
    ensures pty !in s.conns && pty !in s.runtime.ptys
    ensures forall fd :: fd in s.runtime.ptys ==> s.runtime.ptys[fd] in s.runtime.sessions
  {
    hide RegistrySound, ConnSound, SessionSound;
  }

  lemma StartOwnership(s: Server, id: SessionId, pty: Fd, ringCapacity: nat, logged: bool)
    requires Ownership(s)
    ensures Ownership(StartSession(s, id, pty, ringCapacity, logged))
  {
  }

  lemma StartCore(s: Server, id: SessionId, pty: Fd, ringCapacity: nat, logged: bool)
    requires Core(s, {}) && id !in s.runtime.sessions && CanOpen(s, pty) && ringCapacity > 0
    ensures Core(StartSession(s, id, pty, ringCapacity, logged), {})
  {
    hide *;
    CoreOwns(s, {});
    CoreTables(s, {});
    StartTables(s, id, pty, ringCapacity, logged);
    OpeningIsNew(s, pty);
    StartOwnership(s, id, pty, ringCapacity, logged);
    StartArmed(s, id, pty, ringCapacity, logged);
    CoreParts(StartSession(s, id, pty, ringCapacity, logged), {});
  }

  lemma StartStreams(s: Server, id: SessionId, pty: Fd, ringCapacity: nat, logged: bool)
    requires Streams(s, {}) && id !in s.runtime.sessions
    ensures Streams(StartSession(s, id, pty, ringCapacity, logged), {})
  {
    var s' := StartSession(s, id, pty, ringCapacity, logged);
    forall other: SessionId ensures StreamSound(s', other) { assert StreamSound(s, other); }
  }

  lemma StartAdvances(s: Server, id: SessionId, pty: Fd, ringCapacity: nat, logged: bool)
    requires var s' := StartSession(s, id, pty, ringCapacity, logged);
             Evolves(s.reactor, s'.reactor) && Tracks(s.runtime, s'.runtime)
    ensures Advances(s, StartSession(s, id, pty, ringCapacity, logged))
    ensures var s' := StartSession(s, id, pty, ringCapacity, logged);
            s'.conns == s.conns && s'.writers == s.writers && s'.events == s.events
  {
    hide Evolves, Tracks, Created, Register;
  }

  lemma StartKeeps(s: Server, id: SessionId, pty: Fd, ringCapacity: nat, logged: bool)
    requires Good(s, {}) && id !in s.runtime.sessions && CanOpen(s, pty) && ringCapacity > 0
    ensures var s' := StartSession(s, id, pty, ringCapacity, logged);
            Good(s', {}) && Advances(s, s')
  {
    hide *;
    var s' := StartSession(s, id, pty, ringCapacity, logged);
    GoodParts(s, {});
    CoreTables(s, {});
    StartTables(s, id, pty, ringCapacity, logged);
    StartCore(s, id, pty, ringCapacity, logged);
    StartAdvances(s, id, pty, ringCapacity, logged);
    ViewsCarryOver(s, s', {});
    StartStreams(s, id, pty, ringCapacity, logged);
    MakeGood(s', {});
  }

  lemma CreateKeeps(s: Server, fd: Fd, f: InFrame)
    requires Good(s, {}) && fd in s.conns && f.request.Create?
    ensures Handled(s, fd, HandleCreate(s, fd, f))
  {
    AdvancesRefl(s);
    hide Good, Advances, Respond;
    if f.request.create.None? || f.request.create.value.ringCapacity == 0 {
      RefusedHandled(s, s, fd);
      return;
    }
    var request := f.request.create.value;
    var id := request.session;
    if id in s.runtime.sessions {
      RespondHandled(s, s, fd, f, OperationResp(CreateResp, id, Conflict));
    } else {
      match f.request.spawn {
        case BadIdentity => RespondHandled(s, s, fd, f, OperationResp(CreateResp, id, Rejected));
        case SpawnFailed => RefusedHandled(s, s, fd);
        case Spawned(pty) =>
          if !CanOpen(s, pty) {
            RefusedHandled(s, s, fd);
          } else {
            StartKeeps(s, id, pty, request.ringCapacity, request.logged);
            RespondHandled(s, StartSession(s, id, pty, request.ringCapacity, request.logged), fd, f,
              OperationResp(CreateResp, id, OpOk));
          }
      }
    }
  }

  /** A session may be replaced by one that looks the same from outside. */
  lemma RuntimeSwap(s: Server, r: RuntimeState)
    requires Good(s, {}) && RuntimeSound(r) && Tracks(s.runtime, r) && r.ptys == s.runtime.ptys
    requires SameStreams(s, s.(runtime := r))
    requires forall id :: id in r.sessions && id in s.runtime.sessions ==>
               (r.sessions[id].input == s.runtime.sessions[id].input
                && r.sessions[id].stuck == s.runtime.sessions[id].stuck)
    ensures Good(s.(runtime := r), {}) && Advances(s, s.(runtime := r))
  {
    var s' := s.(runtime := r);
    assert Core(s', {}) by { hide ViewSound, StreamSound, ConnSound, RuntimeSound, RegistrySound, Tracks; }
    hide Core, ViewSound, StreamSound, Tracks, RuntimeSound;
    ViewsCarryOver(s, s', {});
    StreamsCarryOver(s, s', {});
  }

  lemma RuntimeIsSound(s: Server, lingering: set<Fd>)
    requires Core(s, lingering)
    ensures RuntimeSound(s.runtime)
  {
    hide Ownership, Armed, RegistrySound, ConnSound, RuntimeSound;
  }

  lemma CloseKeeps(r: RuntimeState, id: SessionId)
    requires RuntimeSound(r)
    ensures RuntimeSound(Close(r, id)) && Tracks(r, Close(r, id))
  {
    if Close(r, id) != r {
      var session := r.sessions[id].(closing := true);
      assert SessionSound(session);
      PutKeeps(r, id, session);
    }
  }

  lemma CloseShape(s: Server, id: SessionId)
    ensures SameStreams(s, s.(runtime := Close(s.runtime, id)))
    ensures Close(s.runtime, id).ptys == s.runtime.ptys
    ensures var r := Close(s.runtime, id);
            forall id :: id in r.sessions && id in s.runtime.sessions ==>
              (r.sessions[id].input == s.runtime.sessions[id].input
               && r.sessions[id].stuck == s.runtime.sessions[id].stuck)
  {
  }

  lemma CloseGood(s: Server, id: SessionId)
    requires Good(s, {})
    ensures Good(s.(runtime := Close(s.runtime, id)), {}) && Advances(s, s.(runtime := Close(s.runtime, id)))
  {
    hide *;
    GoodParts(s, {});
    RuntimeIsSound(s, {});
    CloseKeeps(s.runtime, id);
    CloseShape(s, id);
    RuntimeSwap(s, Close(s.runtime, id));
  }

  lemma RetireShape(s: Server, id: SessionId, cleaned: bool)
    requires Ownership(s) && Armed(s)
    ensures var s' := s.(runtime := Retire(s.runtime, id, cleaned).0);
            Ownership(s') && Armed(s') && s'.runtime.ptys == s.runtime.ptys
  {
  }

  lemma RuntimeTables(s: Server, r: RuntimeState, lingering: set<Fd>)
    requires Tables(s, lingering) && RuntimeSound(r) && r.ptys.Keys == s.runtime.ptys.Keys
    ensures Tables(s.(runtime := r), lingering)
  {
    hide RuntimeSound, RegistrySound, ConnSound;
  }

  lemma RetireCore(s: Server, id: SessionId, cleaned: bool)
    requires Core(s, {})
    ensures Core(s.(runtime := Retire(s.runtime, id, cleaned).0), {})
    ensures Tracks(s.runtime, Retire(s.runtime, id, cleaned).0)
  {
    hide *;
    CoreOwns(s, {});
    CoreTables(s, {});
    RuntimeIsSound(s, {});
    RetireKeeps(s.runtime, id, cleaned);
    RetireShape(s, id, cleaned);
    RuntimeTables(s, Retire(s.runtime, id, cleaned).0, {});
    CoreParts(s.(runtime := Retire(s.runtime, id, cleaned).0), {});
  }

  lemma RetireStreams(s: Server, id: SessionId, cleaned: bool)
    requires Streams(s, {})
    ensures Streams(s.(runtime := Retire(s.runtime, id, cleaned).0), {})
  {
    var s' := s.(runtime := Retire(s.runtime, id, cleaned).0);
    forall other: SessionId ensures StreamSound(s', other) { assert StreamSound(s, other); }
  }

  lemma RetireGood(s: Server, id: SessionId, cleaned: bool)
    requires Good(s, {})
    ensures var s' := s.(runtime := Retire(s.runtime, id, cleaned).0);
            Good(s', {}) && Advances(s, s')
  {
    hide Core, ViewSound, StreamSound, Tracks;
    RetireCore(s, id, cleaned);
    ViewsCarryOver(s, s.(runtime := Retire(s.runtime, id, cleaned).0), {});
    RetireStreams(s, id, cleaned);
  }

  lemma ShutdownFrame(s: Server, fd: Fd)
    ensures var s' := s.(shutdownFd := Some(fd)); SameStreams(s, s') && Advances(s, s')
  {
  }

  lemma ShutdownCore(s: Server, fd: Fd)
    requires Core(s, {})
    ensures Core(s.(shutdownFd := Some(fd)), {})
  {
    hide ConnSound, RuntimeSound, RegistrySound;
  }

  lemma ShutdownGood(s: Server, fd: Fd)
    requires Good(s, {})
    ensures Good(s.(shutdownFd := Some(fd)), {}) && Advances(s, s.(shutdownFd := Some(fd)))
  {
    var s' := s.(shutdownFd := Some(fd));
    ShutdownFrame(s, fd);
    hide *;
    GoodParts(s, {});
    ShutdownCore(s, fd);
    ViewsCarryOver(s, s', {});
    StreamsCarryOver(s, s', {});
    MakeGood(s', {});
  }

  lemma ShutdownKeeps(s: Server, fd: Fd, f: InFrame)
    requires Good(s, {}) && fd in s.conns
    ensures var (s1, ok) := Respond(s, fd, f, ShutdownAllResp);
            Handled(s, fd, (if ok then s1.(shutdownFd := Some(fd)) else s1, ok))
  {
    AdvancesRefl(s);
    hide Good, Advances, Respond;
    RespondHandled(s, s, fd, f, ShutdownAllResp);
    var (s1, ok) := Respond(s, fd, f, ShutdownAllResp);
    if ok {
      var s2 := s1.(shutdownFd := Some(fd));
      ShutdownGood(s1, fd);
      AdvancesTrans(s, s1, s2);
      GoodWeakens(s2, {fd});
    }
  }

  lemma ControlKeeps(s: Server, fd: Fd, f: InFrame)
    requires Good(s, {}) && fd in s.conns
    ensures Handled(s, fd, HandleControl(s, fd, f))
  {
    AdvancesRefl(s);
    hide Good, Advances, Handled, Respond, HandleCreate, HandleCapability, Close, Retire, ExitContextMessage;
    if f.request.Capability? {
      CapabilityKeeps(s, fd, f);
    } else if f.minor != s.conns[fd].minor {
      RefusedHandled(s, s, fd);
    } else {
      match f.request {
        case Inventory(page) =>
          if page.Some? { RespondHandled(s, s, fd, f, InventoryResp(page.value.0, page.value.1)); }
        case Create(_, _) => CreateKeeps(s, fd, f);
        case CloseSession(target) =>
          if target.Some? {
            CloseGood(s, target.value);
            RespondHandled(s, s.(runtime := Close(s.runtime, target.value)), fd, f,
                           OperationResp(CloseResp, target.value, if target.value in s.runtime.sessions then OpOk
                             else NotFound));
          }
        case Kill(target, signalled) =>
          if target.Some? {
            var id := target.value;
            RespondHandled(s, s, fd, f, OperationResp(KillResp, id,
              if id !in s.runtime.sessions then NotFound
              else if s.runtime.sessions[id].pty.Some? && !signalled then Internal
              else OpOk));
          }
        case GetExitContext(target) =>
          if target.Some? {
            ExitContextIsQuiet(s, target.value, f.minor == CURRENT_MINOR);
            RespondHandled(s, s, fd, f, ExitContextMessage(s, target.value, f.minor == CURRENT_MINOR));
          }
        case RetireExited(target, cleaned) =>
          if target.Some? {
            RetireGood(s, target.value, cleaned);
            var (r, status) := Retire(s.runtime, target.value, cleaned);
            RespondHandled(s, s.(runtime := r), fd, f, OperationResp(RetireExitedResp, target.value, status));
          }
        case ShutdownAll(empty) => ShutdownKeeps(s, fd, f);
        case _ =>
      }
      RefusedHandled(s, s, fd);
    }
  }

  lemma ExitContextIsQuiet(s: Server, id: SessionId, v2: bool)
    ensures Quiet(ExitContextMessage(s, id, v2))
  {
  }
}
