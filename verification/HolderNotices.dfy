/** The controller hears of every exit, once and in order, as long as it stays
    (crates/persist-holder/src/server.rs). */
module HolderNotices {
  import opened Bytes
  import opened ByteQueues
  import opened HolderFrames
  import opened Connections
  import opened Reactors
  import opened HolderRuntimes
  import opened HolderStates
  import opened HolderInvariants
  import opened HolderSteps
  import opened HolderKeeps
  import opened HolderData
  import opened HolderRuns
  import opened HolderTheorems
  import opened HolderOutcomes
  import opened HolderDeliveries

  datatype ExitNotice = ExitNotice(session: SessionId, code: int, context: ExitContext)

  /** The exits a run of queued frames tells of. */
  function Notices(log: seq<Queued>): seq<ExitNotice>
  {
    if log == [] then []
    else Notices(log[..|log| - 1]) + NoticeOf(log[|log| - 1].frame.message)
  }

  function NoticeOf(m: Message): seq<ExitNotice>
  {
    match m
    case SessionExited(id, code, context, _) => [ExitNotice(id, code, context)]
    case _ => []
  }

  lemma NoticesSnoc(log: seq<Queued>, q: Queued)
    ensures Notices(log + [q]) == Notices(log) + NoticeOf(q.frame.message)
  {
    assert (log + [q])[..|log|] == log;
  }

  /** Nobody new has come. The controller of `s` has gone, or still is the controller and has been told
      of these exits and no others. */
  ghost predicate Heard(s: Server, s': Server, news: seq<ExitNotice>)
  {
    && s'.conns.Keys <= s.conns.Keys
    && (s.controller.Some? ==> HeardBy(s, s', s.controller.value.fd, news))
  }

  ghost predicate HeardBy(s: Server, s': Server, k: Fd, news: seq<ExitNotice>)
  {
    k in s'.conns ==>
      && k in s.conns && s'.controller.Some? && s'.controller.value.fd == k
      && Notices(s'.conns[k].log) == Notices(s.conns[k].log) + news
  }

  lemma HeardTrans(a: Server, b: Server, c: Server, news: seq<ExitNotice>, more: seq<ExitNotice>)
    requires Heard(a, b, news) && Heard(b, c, more)
    ensures Heard(a, c, news + more)
  {
    hide Notices;
    if a.controller.Some? && a.controller.value.fd in c.conns {
      var k := a.controller.value.fd;
      Associate(Notices(a.conns[k].log), news, more);
    }
  }

  lemma HeardTransQuiet(a: Server, b: Server, c: Server)
    requires Heard(a, b, []) && Heard(b, c, [])
    ensures Heard(a, c, [])
  {
    HeardTrans(a, b, c, [], []);
    var none: seq<ExitNotice> := [];
    assert none + none == none;
    hide Heard;
  }

  /** The same connections, as far as their logs go, under the same controller. */
  lemma SameLogs(s: Server, s': Server)
    requires s'.conns.Keys <= s.conns.Keys
    requires s.controller.Some? && s.controller.value.fd in s'.conns ==>
               s'.controller.Some? && s'.controller.value.fd == s.controller.value.fd
    requires forall fd :: fd in s'.conns ==> s'.conns[fd].log == s.conns[fd].log
    ensures Heard(s, s', [])
  {
    hide Notices;
    forall fd | fd in s'.conns ensures Notices(s'.conns[fd].log) == Notices(s.conns[fd].log) + [] {
    }
  }

  // ---- The moves ------------------------------------------------------------------------------------------

  lemma QueueHeard(s: Server, fd: Fd, f: Frame)
    requires CanQueue(s, fd, f) && !f.message.SessionExited?
    ensures Heard(s, QueueFrame(s, fd, f), [])
  {
    NoticesSnoc(s.conns[fd].log, Queued(f, s.conns[fd].minor));
    hide Notices, Fits, Push;
    var none: seq<ExitNotice> := [];
    assert forall g :: g in s.conns ==> Notices(s.conns[g].log) + none == Notices(s.conns[g].log);
    assert Notices(s.conns[fd].log) + none == Notices(s.conns[fd].log);
  }

  lemma RemoveHeard(s: Server, gone: set<Fd>)
    ensures Heard(s, RemoveAll(s, gone), [])
  {
    hide Unregister, WithoutWriters;
    SameLogs(s, RemoveAll(s, gone));
  }

  lemma TellHeard(s: Server, fd: Fd, f: Frame)
    requires !f.message.SessionExited?
    ensures Heard(s, QueueOrDisconnect(s, fd, f), [])
  {
    hide Heard, RemoveAll, QueueFrame;
    if CanQueue(s, fd, f) {
      QueueHeard(s, fd, f);
    } else {
      RemoveHeard(s, Casualties(s, fd));
    }
  }

  lemma RespondHeard(s: Server, fd: Fd, f: InFrame, m: Message)
    requires !m.SessionExited?
    ensures Heard(s, Respond(s, fd, f, m).0, [])
  {
    hide Heard, QueueFrame;
    if CanQueue(s, fd, Reply(s, f, m)) {
      QueueHeard(s, fd, Reply(s, f, m));
    } else {
      SameLogs(s, s);
    }
  }

  lemma {:induction false} QueueAllHeard(s: Server, fd: Fd, frames: seq<Frame>)
    requires forall i :: 0 <= i < |frames| ==> !frames[i].message.SessionExited?
    ensures Heard(s, QueueAll(s, fd, frames).0, [])
    decreases |frames|
  {
    if frames == [] {
      SameLogs(s, s);
    } else {
      hide Heard, QueueFrame;
      var init := frames[..|frames| - 1];
      var (s1, ok) := QueueAll(s, fd, init);
      QueueAllHeard(s, fd, init);
      var f := frames[|frames| - 1];
      if ok && CanQueue(s1, fd, f) {
        QueueHeard(s1, fd, f);
        HeardTransQuiet(s, s1, QueueFrame(s1, fd, f));
      }
    }
  }

  lemma SendControlHeard(s: Server, m: Message)
    requires !m.SessionExited?
    ensures Heard(s, SendControl(s, m), [])
  {
    hide Heard, QueueOrDisconnect;
    if s.controller.Some? {
      TellHeard(s, s.controller.value.fd, Event(s, m));
    } else {
      SameLogs(s, s);
    }
  }

  // ---- Requests ---------------------------------------------------------------------------------------------

  lemma ControlHelloHeard(s: Server, fd: Fd, f: InFrame)
    requires fd in s.conns && f.request.ControlHello?
    ensures Heard(s, HandleControlHello(s, fd, f).0, [])
  {
    hide Heard, Respond, Disconnect, SetConn;
    var drops := s.controller.Some? && s.controller.value.fd in s.conns && f.request.controllerGone;
    var s1 := if drops then Disconnect(s, s.controller.value.fd) else s;
    SameLogs(s, s);
    if drops {
      DisconnectHeard(s, s.controller.value.fd);
    }
    if f.minor == BASELINE_MINOR && f.request.hello.Some? {
      var hello := f.request.hello.value;
      var status :=
        if hello.uid != s.conns[fd].uid || hello.pid != s.conns[fd].pid then PermissionDenied
        else if s1.controller.Some? then Busy
        else Accepted;
      var m := ControlHelloAck(hello.nonce, status);
      RespondHeard(s1, fd, f, m);
      var (s2, ok) := Respond(s1, fd, f, m);
      HeardTransQuiet(s, s1, s2);
      if ok && fd in s2.conns {
        RespondKeepsController(s1, fd, f, m);
        var c := s2.conns[fd];
        FlagsHeard(s2, fd, c.(closing := true));
        NewControllerHeard(s2, fd, c.(role := Control), Controller(fd, hello.pid, hello.nonce, BASELINE_MINOR));
        HeardTransQuiet(s, s2, SetConn(s2, fd, c.(closing := true)));
        if status == Accepted {
          HeardTransQuiet(s, s2, SetConn(s2, fd, c.(role := Control)).(
                                   controller := Some(Controller(fd, hello.pid, hello.nonce, BASELINE_MINOR))));
        }
      }
    }
  }

  lemma DisconnectHeard(s: Server, fd: Fd)
    ensures Heard(s, Disconnect(s, fd), [])
  {
    hide Heard, RemoveAll;
    RemoveHeard(s, Casualties(s, fd));
  }

  lemma RespondKeepsController(s: Server, fd: Fd, f: InFrame, m: Message)
    ensures Respond(s, fd, f, m).0.controller == s.controller
  {
  }

  lemma FlagsHeard(s: Server, fd: Fd, c: Conn)
    requires fd in s.conns && c.log == s.conns[fd].log
    ensures Heard(s, SetConn(s, fd, c), [])
  {
    SameLogs(s, SetConn(s, fd, c));
  }

  /** There was no controller to hear anything. */
  lemma NewControllerHeard(s: Server, fd: Fd, c: Conn, controller: Controller)
    requires fd in s.conns
    ensures s.controller.None? ==> Heard(s, SetConn(s, fd, c).(controller := Some(controller)), [])
  {
  }

  lemma DataHelloHeard(s: Server, fd: Fd, f: InFrame)
    requires fd in s.conns && f.request.DataHello?
    ensures Heard(s, HandleDataHello(s, fd, f).0, [])
  {
    hide Heard, Respond, SetConn, AcceptsData;
    SameLogs(s, s);
    if f.request.dataHello.Some? {
      var hello := f.request.dataHello.value;
      var accepted := AcceptsData(s, s.conns[fd], f.minor, hello);
      var s1 := if accepted then SetConn(s, fd, s.conns[fd].(minor := f.minor)) else s;
      FlagsHeard(s, fd, s.conns[fd].(minor := f.minor));
      var m := DataHelloAck(hello.nonce, if accepted then Accepted else PermissionDenied);
      RespondHeard(s1, fd, f, m);
      var (s2, ok) := Respond(s1, fd, f, m);
      HeardTransQuiet(s, s1, s2);
      if ok && fd in s2.conns {
        var c := s2.conns[fd];
        FlagsHeard(s2, fd, c.(closing := true));
        FlagsHeard(s2, fd, c.(role := Role.Data));
        HeardTransQuiet(s, s2, SetConn(s2, fd, c.(closing := true)));
        HeardTransQuiet(s, s2, SetConn(s2, fd, c.(role := Role.Data)));
      }
    }
  }

  lemma CapabilityHeard(s: Server, fd: Fd, f: InFrame)
    requires fd in s.conns && f.request.Capability?
    ensures Heard(s, HandleCapability(s, fd, f).0, [])
  {
    hide Heard, Respond;
    SameLogs(s, s);
    if f.request.capability.Some? && s.controller.Some? {
      var m := CapabilityResp(f.request.capability.value.nonce);
      var s1 := SetConn(s, fd, s.conns[fd].(minor := CURRENT_MINOR)).(
                  controller := Some(s.controller.value.(minor := CURRENT_MINOR)));
      SameLogs(s, s1);
      RespondHeard(s1, fd, f, m);
      HeardTransQuiet(s, s1, Respond(s1, fd, f, m).0);
    }
  }

  /** A state with the same connections and controller, and then an answer. */
  lemma AnswerHeard(s: Server, s1: Server, fd: Fd, f: InFrame, m: Message)
    requires s1.conns == s.conns && s1.controller == s.controller && !m.SessionExited?
    ensures Heard(s, Respond(s1, fd, f, m).0, [])
  {
    hide Heard, Respond;
    SameLogs(s, s1);
    RespondHeard(s1, fd, f, m);
    HeardTransQuiet(s, s1, Respond(s1, fd, f, m).0);
  }

  lemma CreateHeard(s: Server, fd: Fd, f: InFrame)
    requires f.request.Create?
    ensures Heard(s, HandleCreate(s, fd, f).0, [])
  {
    hide Heard, Respond, StartSession, CanOpen;
    SameLogs(s, s);
    if f.request.create.Some? {
      var request := f.request.create.value;
      var id := request.session;
      RespondHeard(s, fd, f, OperationResp(CreateResp, id, Conflict));
      RespondHeard(s, fd, f, OperationResp(CreateResp, id, Rejected));
      if f.request.spawn.Spawned? {
        var s1 := StartSession(s, id, f.request.spawn.fd, request.ringCapacity, request.logged);
        StartKeepsPeers(s, id, f.request.spawn.fd, request.ringCapacity, request.logged);
        AnswerHeard(s, s1, fd, f, OperationResp(CreateResp, id, OpOk));
      }
    }
  }

  lemma StartKeepsPeers(s: Server, id: SessionId, pty: Fd, ringCapacity: nat, logged: bool)
    ensures var s1 := StartSession(s, id, pty, ringCapacity, logged);
            s1.conns == s.conns && s1.controller == s.controller
  {
  }

  lemma ControlHeard(s: Server, fd: Fd, f: InFrame)
    requires fd in s.conns
    ensures Heard(s, HandleControl(s, fd, f).0, [])
  {
    hide Heard, Respond, HandleCapability, HandleCreate, Retire, Close, ExitContextMessage;
    SameLogs(s, s);
    match f.request {
      case Capability(_) => CapabilityHeard(s, fd, f);
      case Create(_, _) => CreateHeard(s, fd, f);
      case Inventory(page) =>
        if page.Some? { RespondHeard(s, fd, f, InventoryResp(page.value.0, page.value.1)); }
      case CloseSession(target) =>
        if target.Some? {
          var m := OperationResp(CloseResp, target.value,
                                 if target.value in s.runtime.sessions then OpOk else NotFound);
          AnswerHeard(s, s.(runtime := Close(s.runtime, target.value)), fd, f, m);
        }
      case Kill(target, signalled) => KillHeard(s, fd, f, target, signalled);
      case GetExitContext(target) =>
        if target.Some? {
          ContextIsNoNotice(s, target.value, f.minor == CURRENT_MINOR);
          RespondHeard(s, fd, f, ExitContextMessage(s, target.value, f.minor == CURRENT_MINOR));
        }
      case RetireExited(target, cleaned) =>
        if target.Some? {
          var (r, status) := Retire(s.runtime, target.value, cleaned);
          AnswerHeard(s, s.(runtime := r), fd, f, OperationResp(RetireExitedResp, target.value, status));
        }
      case ShutdownAll(empty) => ShutdownHeard(s, fd, f, empty);
      case _ =>
    }
  }

  lemma KillHeard(s: Server, fd: Fd, f: InFrame, target: Option<SessionId>, signalled: bool)
    ensures Heard(s, HandleKill(s, fd, f, target, signalled).0, [])
  {
    hide Heard, Respond;
    SameLogs(s, s);
    forall m: Message | !m.SessionExited? ensures Heard(s, Respond(s, fd, f, m).0, []) {
      RespondHeard(s, fd, f, m);
    }
  }

  lemma ContextIsNoNotice(s: Server, id: SessionId, v2: bool)
    ensures !ExitContextMessage(s, id, v2).SessionExited?
  {
  }

  lemma ShutdownHeard(s: Server, fd: Fd, f: InFrame, empty: bool)
    ensures Heard(s, HandleShutdownAll(s, fd, f, empty).0, [])
  {
    hide Respond, Notices;
    SameLogs(s, s);
    RespondHeard(s, fd, f, ShutdownAllResp);
  }

  lemma AttachHeard(s: Server, fd: Fd, f: InFrame)
    requires fd in s.conns && f.request.Attach?
    ensures Heard(s, HandleAttach(s, fd, f).0, [])
  {
    hide Heard, Respond, DetachConnection, TakeOver, QueueAll, Welcome;
    SameLogs(s, s);
    if f.request.attach.Some? {
      var request := f.request.attach.value;
      if request.session !in s.runtime.sessions {
        RespondHeard(s, fd, f, OperationResp(AttachResp, request.session, NotFound));
      } else {
        var s0 := DetachConnection(s, fd);
        DetachHeard(s, fd);
        DetachShape(s, fd);
        TakeOverHeard(s0, fd, request);
        var s1 := TakeOver(s0, fd, request);
        HeardTransQuiet(s, s0, s1);
        if fd in s1.conns {
          WelcomeIsNoNotice(s1, fd, f, request);
          QueueAllHeard(s1, fd, Welcome(s1, fd, f, request));
          HeardTransQuiet(s, s1, QueueAll(s1, fd, Welcome(s1, fd, f, request)).0);
        }
      }
    }
  }

  lemma DetachHeard(s: Server, fd: Fd)
    ensures Heard(s, DetachConnection(s, fd), [])
  {
    hide WithoutWriters;
    SameLogs(s, DetachConnection(s, fd));
  }

  lemma DetachShape(s: Server, fd: Fd)
    requires fd in s.conns
    ensures fd in DetachConnection(s, fd).conns && DetachConnection(s, fd).runtime == s.runtime
  {
    hide WithoutWriters;
  }

  lemma TakeOverHeard(s: Server, fd: Fd, request: AttachRequest)
    requires fd in s.conns && request.session in s.runtime.sessions
    ensures Heard(s, TakeOver(s, fd, request), [])
  {
    var id := request.session;
    var c := Joined(s, s.conns[fd], request);
    assert c.log == s.conns[fd].log;
    hide Heard, QueueOrDisconnect, Joined;
    FlagsHeard(s, fd, c);
    var s2 := SetConn(s, fd, c).(writers := s.writers[id := fd]);
    SameLogs(s, s2);
    if id in s.writers {
      TellHeard(s2, s.writers[id], Event(s2, WriteRevoked(id)));
      HeardTransQuiet(s, s2, QueueOrDisconnect(s2, s.writers[id], Event(s2, WriteRevoked(id))));
    }
  }

  lemma WelcomeIsNoNotice(s: Server, fd: Fd, f: InFrame, request: AttachRequest)
    requires fd in s.conns
    ensures var frames := Welcome(s, fd, f, request);
            forall i :: 0 <= i < |frames| ==> !frames[i].message.SessionExited?
  {
  }

  lemma DataHeard(s: Server, fd: Fd, f: InFrame)
    requires fd in s.conns && RuntimeSound(s.runtime)
    ensures Heard(s, HandleData(s, fd, f).0, [])
  {
    hide Heard, HandleAttach, DetachConnection, RuntimeSound, HandleInput;
    SameLogs(s, s);
    match f.request {
      case Attach(_) => AttachHeard(s, fd, f);
      case Detach(_) => DetachHeard(s, fd);
      case Input(data, script) =>
        InputKeepsPeers(s, fd, data, script);
        SameLogs(s, HandleInput(s, fd, data, script).0);
      case _ =>
    }
  }

  lemma InputKeepsPeers(s: Server, fd: Fd, data: seq<byte>, script: seq<WriteResult>)
    requires fd in s.conns && RuntimeSound(s.runtime)
    ensures var s' := HandleInput(s, fd, data, script).0; s'.conns == s.conns && s'.controller == s.controller
  {
    hide RuntimeSound, AfterQueueInput;
  }

  lemma FrameHeard(s: Server, fd: Fd, f: InFrame)
    requires fd in s.conns && RuntimeSound(s.runtime)
    ensures Heard(s, ProcessFrame(s, fd, f).0, [])
  {
    hide Heard, RuntimeSound, HandleControlHello, HandleDataHello, HandleControl, HandleData;
    SameLogs(s, s);
    match s.conns[fd].role {
      case Pending =>
        if f.request.ControlHello? { ControlHelloHeard(s, fd, f); }
        if f.request.DataHello? { DataHelloHeard(s, fd, f); }
      case Control => ControlHeard(s, fd, f);
      case Data => DataHeard(s, fd, f);
    }
  }

  lemma {:induction false} FramesHeard(s: Server, fd: Fd, frames: seq<InFrame>)
    requires Good(s, {}) && fd in s.conns
    ensures Heard(s, ProcessFrames(s, fd, frames).0, [])
    decreases |frames|
  {
    hide Good, Heard, ProcessFrame, Advances, RuntimeSound;
    if frames == [] {
      SameLogs(s, s);
    } else {
      GoodRuntime(s);
      FrameHeard(s, fd, frames[0]);
      FrameKeeps(s, fd, frames[0]);
      var (s1, ok) := ProcessFrame(s, fd, frames[0]);
      if ok {
        FramesHeard(s1, fd, frames[1..]);
        HeardTransQuiet(s, s1, ProcessFrames(s1, fd, frames[1..]).0);
      }
    }
  }

  lemma FlushHeard(s: Server, fd: Fd, script: seq<WriteResult>)
    requires fd in s.conns && Sound(s.conns[fd].output) && FlushConn(s, fd, script).Some?
    ensures Heard(s, FlushConn(s, fd, script).value, [])
  {
    hide Heard, AfterFlush, FlushResult, Sound, Disconnect;
    FlushShape(s.conns[fd], script);
    var s1 := SetConn(s, fd, AfterFlush(s.conns[fd], script));
    FlagsHeard(s, fd, AfterFlush(s.conns[fd], script));
    DisconnectHeard(s1, fd);
    HeardTransQuiet(s, s1, Disconnect(s1, fd));
    var c := AfterFlush(s.conns[fd], script);
    SameLogs(s, s1.(reactor := Rearm(s.reactor, fd, c.output.chunks != [])));
  }

  lemma PeerHeard(s: Server, fd: Fd, hangup: bool, inbound: Inbound, writable: Option<seq<WriteResult>>)
    requires Good(s, {}) && fd in s.conns && HandlePeer(s, fd, hangup, inbound, writable).Some?
    ensures Heard(s, HandlePeer(s, fd, hangup, inbound, writable).value, [])
  {
    hide Good, Heard, ReadHalf, Settle, Advances;
    ReadHeard(s, fd, hangup, inbound);
    var (s1, open) := ReadHalf(s, fd, hangup, inbound);
    if open {
      SettleHeard(s1, fd, writable);
      HeardTransQuiet(s, s1, Settle(s1, fd, writable).value);
    }
  }

  lemma ReadHeard(s: Server, fd: Fd, hangup: bool, inbound: Inbound)
    requires Good(s, {}) && fd in s.conns
    ensures Heard(s, ReadHalf(s, fd, hangup, inbound).0, [])
  {
    hide Good, Heard, ProcessFrames, Disconnect, Advances;
    DisconnectHeard(s, fd);
    var frames := if inbound.Received? then inbound.frames else [];
    FramesHeard(s, fd, frames);
    var s1 := ProcessFrames(s, fd, frames).0;
    DisconnectHeard(s1, fd);
    HeardTransQuiet(s, s1, Disconnect(s1, fd));
  }

  lemma SettleHeard(s: Server, fd: Fd, writable: Option<seq<WriteResult>>)
    requires Good(s, {}) && fd in s.conns && Settle(s, fd, writable).Some?
    ensures Heard(s, Settle(s, fd, writable).value, [])
  {
    hide Good, Heard, FlushConn, Advances;
    SameLogs(s, s);
    if writable.Some? {
      SettleIsFlush(s, fd, writable.value);
      FlushHeard(s, fd, writable.value);
    }
  }

  // ---- Sessions -----------------------------------------------------------------------------------------------

  lemma OutputHeard(s: Server, id: SessionId, data: seq<byte>)
    ensures Heard(s, Broadcast(s, Attached(s, id), CastOutput(data)), [])
  {
    var s' := Broadcast(s, Attached(s, id), CastOutput(data));
    hide Notices, Unregister, WithoutWriters, Fits;
    if s.controller.Some? && s.controller.value.fd in s'.conns {
      var k := s.controller.value.fd;
      var none: seq<ExitNotice> := [];
      assert Notices(s.conns[k].log) + none == Notices(s.conns[k].log);
      NoticesSnoc(s.conns[k].log, Queued(CastFrame(s, k, CastOutput(data)), s.conns[k].minor));
    }
  }

  lemma {:induction false} PublishHeard(s: Server, id: SessionId, chunks: seq<seq<byte>>)
    ensures Heard(s, Publish(s, id, chunks), [])
    decreases |chunks|
  {
    if chunks == [] {
      SameLogs(s, s);
    } else {
      hide Heard, Broadcast, Attached;
      var init := Publish(s, id, chunks[..|chunks| - 1]);
      var chunk := chunks[|chunks| - 1];
      PublishHeard(s, id, chunks[..|chunks| - 1]);
      var b := Broadcast(init, Attached(init, id), CastOutput(chunk));
      OutputHeard(init, id, chunk);
      HeardTransQuiet(s, init, b);
      SameLogs(b, Emit(b, id, Chunk(chunk)));
      HeardTransQuiet(s, b, Emit(b, id, Chunk(chunk)));
    }
  }

  lemma DrainHeard(s: Server, fd: Fd, feed: seq<ReadResult>)
    requires DrainPty(s, fd, feed).Some?
    ensures Heard(s, DrainPty(s, fd, feed).value, [])
  {
    hide Heard, Publish, SendControl, AfterDrain;
    SameLogs(s, s);
    if fd in s.runtime.ptys && s.runtime.ptys[fd] in s.runtime.sessions
       && s.runtime.sessions[s.runtime.ptys[fd]].pty.Some? {
      var id := s.runtime.ptys[fd];
      var (r, d) := AfterDrain(s.runtime, fd, feed);
      var s0 := s.(runtime := r);
      SameLogs(s, s0);
      PublishHeard(s0, id, d.chunks);
      var s1 := Publish(s0, id, d.chunks);
      HeardTransQuiet(s, s0, s1);
      SendControlHeard(s1, LogDegraded(id, d.dropped));
      HeardTransQuiet(s, s1, SendControl(s1, LogDegraded(id, d.dropped)));
    }
  }

  lemma {:induction false} DrainAllHeard(s: Server, turns: seq<TerminalRead>)
    requires DrainAll(s, turns).Some?
    ensures Heard(s, DrainAll(s, turns).value, [])
    decreases |turns|
  {
    if turns == [] {
      SameLogs(s, s);
    } else {
      hide Heard, DrainPty;
      var last := turns[|turns| - 1];
      var init := DrainAll(s, turns[..|turns| - 1]).value;
      DrainAllHeard(s, turns[..|turns| - 1]);
      DrainHeard(init, last.fd, last.feed);
      HeardTransQuiet(s, init, DrainPty(init, last.fd, last.feed).value);
    }
  }

  lemma TerminalHeard(s: Server, fd: Fd, readable: Option<seq<ReadResult>>, writable: Option<seq<WriteResult>>)
    requires Good(s, {}) && HandleTerminal(s, fd, readable, writable).Some?
    ensures Heard(s, HandleTerminal(s, fd, readable, writable).value, [])
  {
    hide Good, Heard, DrainPty, FlushPty, Advances, RuntimeSound;
    SameLogs(s, s);
    if readable.Some? { DrainHeard(s, fd, readable.value); }
    var s1 := if readable.Some? then DrainPty(s, fd, readable.value).value else s;
    if writable.Some? && fd in s1.runtime.ptys {
      if readable.Some? { DrainPtyGood(s, fd, readable.value); }
      GoodRuntime(s1);
      FlushPtyKeepsPeers(s1, fd, writable.value);
      SameLogs(s1, FlushPty(s1, fd, writable.value).value);
      HeardTransQuiet(s, s1, FlushPty(s1, fd, writable.value).value);
    }
  }

  lemma FlushPtyKeepsPeers(s: Server, fd: Fd, script: seq<WriteResult>)
    requires RuntimeSound(s.runtime) && fd in s.runtime.ptys && FlushPty(s, fd, script).Some?
    ensures var s' := FlushPty(s, fd, script).value; s'.conns == s.conns && s'.controller == s.controller
  {
    assert s.runtime.ptys[fd] in s.runtime.sessions && SessionSound(s.runtime.sessions[s.runtime.ptys[fd]]);
    hide RuntimeSound, AfterFlushInput;
  }

  lemma {:induction false} LogTroubleHeard(s: Server, failures: seq<Failure>)
    ensures Heard(s, HandleLogFailures(s, failures), [])
    decreases |failures|
  {
    if failures == [] {
      SameLogs(s, s);
    } else {
      hide Heard, SendControl, LogFailed;
      var last := failures[|failures| - 1];
      var s1 := HandleLogFailures(s, failures[..|failures| - 1]);
      LogTroubleHeard(s, failures[..|failures| - 1]);
      var s2 := s1.(runtime := LogFailed(s1.runtime, last.session));
      SameLogs(s1, s2);
      HeardTransQuiet(s, s1, s2);
      SendControlHeard(s2, LogDegraded(last.session, last.dropped));
      HeardTransQuiet(s, s2, SendControl(s2, LogDegraded(last.session, last.dropped)));
    }
  }

  // ---- Exits --------------------------------------------------------------------------------------------------

  /** An announcement tells the controller of that exit, once. */
  lemma AnnounceHeard(s: Server, e: ExitedSession, lingering: set<Fd>)
    requires Core(s, lingering) && e.pty in lingering && Views(s, {})
    ensures Heard(s, AnnounceExit(s, e), [ExitNotice(e.session, e.code, e.context)])
  {
    hide Core, Views, AnnounceExit, Notices, Served, Sound;
    AnnounceShrinks(s, e);
    if s.controller.Some? {
      var k := s.controller.value.fd;
      CoreIsSound(s, lingering);
      ControllerIsNobodysClient(s, e.session);
      hide Ownership, AllSound;
      ExitIsAnnounced(s, e, lingering, k);
      if k in AnnounceExit(s, e).conns {
        var f := Frame(0, s.runtime.generation, ExitMessage(s, e));
        ServedOne(s.conns[k], AnnounceExit(s, e).conns[k], f);
        NoticesSnoc(s.conns[k].log, Queued(f, s.conns[k].minor));
      }
    }
  }

  lemma ServedOne(c: Conn, d: Conn, f: Frame)
    requires Served(c, d, [f])
    ensures d.log == c.log + [Queued(f, c.minor)]
  {
    assert Stamped([f], c.minor) == [Queued(f, c.minor)];
  }

  lemma AnnounceShrinks(s: Server, e: ExitedSession)
    ensures AnnounceExit(s, e).conns.Keys <= s.conns.Keys
  {
    hide ReleaseWriter, Broadcast, Attached, DetachSession, SendControl, Unregister;
    var id := e.session;
    var s0 := s.(reactor := Unregister(s.reactor, {e.pty}));
    ReleaseShrinks(s0, id);
    var s1 := ReleaseWriter(s0, id);
    BroadcastShrinks(s1, id, CastExit(id, e.code, e.context));
    var s2 := Emit(Broadcast(s1, Attached(s1, id), CastExit(id, e.code, e.context)), id, Exit(e.code));
    DetachStays(s2, id);
    var s3 := if e.closing then DetachSession(s2, id) else s2;
    forall m: Message ensures SendControl(s3, m).conns.Keys <= s3.conns.Keys {
      SendShrinks(s3, m);
    }
  }

  lemma ReleaseShrinks(s: Server, id: SessionId)
    ensures ReleaseWriter(s, id).conns.Keys <= s.conns.Keys
  {
    hide Fits, Unregister, WithoutWriters, Push;
  }

  lemma BroadcastShrinks(s: Server, id: SessionId, cast: Cast)
    ensures Broadcast(s, Attached(s, id), cast).conns.Keys <= s.conns.Keys
  {
    hide Fits, Unregister, WithoutWriters, Push;
  }

  lemma SendShrinks(s: Server, m: Message)
    ensures SendControl(s, m).conns.Keys <= s.conns.Keys
  {
    hide Fits, Unregister, WithoutWriters, Push;
  }

  function NewsFrom(es: seq<ExitedSession>): seq<ExitNotice>
  {
    if es == [] then []
    else
      var e := es[|es| - 1];
      NewsFrom(es[..|es| - 1]) + [ExitNotice(e.session, e.code, e.context)]
  }

  lemma {:induction false} AnnounceAllHeard(s: Server, es: seq<ExitedSession>, lingering: set<Fd>)
    requires Core(s, lingering) && Views(s, {}) && DistinctExits(es) && Ptys(es) <= lingering
    ensures Heard(s, AnnounceAll(s, es), NewsFrom(es))
    decreases |es|
  {
    if es == [] {
      SameLogs(s, s);
    } else {
      hide Core, Views, Heard, AnnounceExit, Ptys, DistinctExits, Advances, Recorded;
      var init := es[..|es| - 1];
      var last := es[|es| - 1];
      LastIsDistinct(es);
      AnnounceAllHeard(s, init, lingering);
      AnnounceAllKeeps(s, init, lingering);
      var s1 := AnnounceAll(s, init);
      assert last.pty in lingering - Ptys(init);
      AnnounceHeard(s1, last, lingering - Ptys(init));
      HeardTrans(s, s1, AnnounceExit(s1, last), NewsFrom(init), [ExitNotice(last.session, last.code, last.context)]);
    }
  }

  // ---- Events and runs -----------------------------------------------------------------------------------------

  /** The exits of these children. */
  ghost function Found(r: RuntimeState, reaps: seq<Reap>): (news: seq<ExitNotice>)
    requires forall i :: 0 <= i < |reaps| ==> reaps[i].session in r.sessions
  {
    seq(|reaps|, i requires 0 <= i < |reaps| =>
      ExitNotice(reaps[i].session, reaps[i].code, Left(r.sessions[reaps[i].session], reaps[i])))
  }

  lemma {:induction false} NewsAreFound(r: RuntimeState, es: seq<ExitedSession>, reaps: seq<Reap>)
    requires |es| == |reaps| && forall i :: 0 <= i < |reaps| ==> reaps[i].session in r.sessions
    requires forall i :: 0 <= i < |es| ==>
               && es[i].session == reaps[i].session && es[i].code == reaps[i].code
               && es[i].context == Left(r.sessions[reaps[i].session], reaps[i])
    ensures NewsFrom(es) == Found(r, reaps)
    decreases |es|
  {
    if es == [] {
      assert Found(r, reaps) == [];
    } else {
      var last := |es| - 1;
      NewsAreFound(r, es[..last], reaps[..last]);
      assert Found(r, reaps)
          == Found(r, reaps[..last]) + [ExitNotice(es[last].session, es[last].code, es[last].context)];
    }
  }

  /** The exits an event brings to light: those of the children found dead, in the order in which they
      were found, with the exit codes and what their shells have left. */
  ghost function NewsIn(s: Server, e: HolderEvent): seq<ExitNotice>
  {
    if !e.Children? || DrainAll(s, e.turns).None? then []
    else
      var r := DrainAll(s, e.turns).value.runtime;
      if RuntimeSound(r) && Reapable(r, e.reaps) then Found(r, e.reaps) else []
  }

  lemma ReportsAreFound(r: RuntimeState, reaps: seq<Reap>)
    requires RuntimeSound(r) && Reapable(r, reaps)
    ensures NewsFrom(Reports(r, reaps)) == Found(r, reaps)
  {
    hide SessionSound, NewsFrom, Found;
    NewsAreFound(r, Reports(r, reaps), reaps);
  }

  lemma ReapsHeard(s: Server, reaps: seq<Reap>)
    requires Good(s, {}) && RuntimeSound(s.runtime) && Reapable(s.runtime, reaps)
    ensures var s1 := s.(runtime := ReapAll(s.runtime, reaps));
            Heard(s, AnnounceAll(s1, Reports(s.runtime, reaps)), Found(s.runtime, reaps))
  {
    ReportsAreFound(s.runtime, reaps);
    hide Good, Core, Views, Advances, RuntimeSound, ReapAll, AnnounceAll, Heard, Reapable, NewsFrom, Found;
    var s1 := s.(runtime := ReapAll(s.runtime, reaps));
    var es := Reports(s.runtime, reaps);
    GoodParts(s, {});
    ReapCore(s, reaps);
    ViewsCarryOver(s, s1, {});
    ReportsAreDistinct(s.runtime, reaps);
    hide Reports, DistinctExits, Ptys;
    AnnounceAllHeard(s1, es, Ptys(es));
    SameLogs(s, s1);
    HeardTrans(s, s1, AnnounceAll(s1, es), [], NewsFrom(es));
    assert [] + NewsFrom(es) == NewsFrom(es);
  }

  lemma ChildrenHeard(s: Server, turns: seq<TerminalRead>, reaps: seq<Reap>)
    requires Good(s, {}) && HandleChildren(s, turns, reaps).Some?
    ensures Heard(s, HandleChildren(s, turns, reaps).value, NewsIn(s, Children(turns, reaps)))
  {
    hide Good, Heard, DrainAll, RuntimeSound, ReapAll, AnnounceAll, Reports, Found, Advances;
    DrainAllGood(s, turns);
    DrainAllHeard(s, turns);
    var s1 := DrainAll(s, turns).value;
    if RuntimeSound(s1.runtime) && Reapable(s1.runtime, reaps) {
      ReapsHeard(s1, reaps);
      var news := Found(s1.runtime, reaps);
      HeardTrans(s, s1, AnnounceAll(s1.(runtime := ReapAll(s1.runtime, reaps)), Reports(s1.runtime, reaps)), [], news);
      assert [] + news == news;
    }
  }

  /** One event: a controller that is still the controller after it has been told of exactly the exits
      it has brought to light. */
  lemma StepHeard(s: Server, e: HolderEvent)
    requires Good(s, {}) && Step(s, e).Some? && s.controller.Some?
    ensures var k := s.controller.value.fd;
            var s' := Step(s, e).value;
            s'.controller.Some? && s'.controller.value.fd == k ==>
              && k in s.conns && k in s'.conns
              && Notices(s'.conns[k].log) == Notices(s.conns[k].log) + NewsIn(s, e)
  {
    hide Good, Ownership, Notices, NewsIn, HandleTerminal, HandlePeer, HandleChildren, HandleLogFailures, Advances,
      AcceptConn;
    GoodOwns(s);
    GoodOwns(Step(s, e).value);
    ControllerIsConnected(s);
    ControllerIsConnected(Step(s, e).value);
    NoNews(s, e);
    match e {
      case Accept(fd, pid, uid) => NewcomerHears(s, fd, pid, uid);
      case Terminal(fd, readable, writable) =>
        SameLogs(s, s);
        if fd in s.runtime.ptys { TerminalHeard(s, fd, readable, writable); }
      case Peer(fd, hangup, inbound, writable) =>
        SameLogs(s, s);
        if fd in s.conns { PeerHeard(s, fd, hangup, inbound, writable); }
      case Children(turns, reaps) => ChildrenHeard(s, turns, reaps);
      case LogTrouble(failures) => LogTroubleHeard(s, failures);
    }
  }

  lemma NoNews(s: Server, e: HolderEvent)
    ensures !e.Children? ==> NewsIn(s, e) == []
  {
  }

  lemma ControllerIsConnected(s: Server)
    requires Ownership(s)
    ensures s.controller.Some? ==> s.controller.value.fd in s.conns
  {
  }

  lemma NewcomerHears(s: Server, fd: Fd, pid: nat, uid: nat)
    requires Good(s, {}) && s.controller.Some? && s.controller.value.fd in s.conns
    ensures var k := s.controller.value.fd;
            var s' := AcceptConn(s, fd, pid, uid);
            && k in s'.conns && s'.controller == s.controller
            && Notices(s'.conns[k].log) == Notices(s.conns[k].log) + []
  {
    hide Notices;
    if CanOpen(s, fd) {
      assert s.controller.value.fd in s.reactor.tokens by { GoodServes(s, s.controller.value.fd); }
    }
    hide Good, Register;
  }

  /** All through a run the same connection is the controller's. */
  ghost predicate StaysController(s: Server, es: seq<HolderEvent>, k: Fd)
    requires Good(s, {})
    decreases |es|
  {
    && s.controller.Some? && s.controller.value.fd == k
    && (es != [] && Step(s, es[0]).Some? ==> StaysController(Step(s, es[0]).value, es[1..], k))
  }

  /** All exits a run brings to light. */
  ghost function NewsOver(s: Server, es: seq<HolderEvent>): seq<ExitNotice>
    requires Good(s, {})
    decreases |es|
  {
    if es == [] || Step(s, es[0]).None? then []
    else NewsIn(s, es[0]) + NewsOver(Step(s, es[0]).value, es[1..])
  }

  /** Over any run during which the controller stays, it has been told of exactly the exits that came to
      light, each once and in order. */
  lemma {:induction false} ControllerHearsEveryExit(s: Server, es: seq<HolderEvent>, k: Fd)
    requires Good(s, {}) && Exec(s, es).Some? && StaysController(s, es, k)
    ensures var s' := Exec(s, es).value;
            && k in s.conns && k in s'.conns
            && Notices(s'.conns[k].log) == Notices(s.conns[k].log) + NewsOver(s, es)
    decreases |es|
  {
    hide Good, Notices, NewsIn, Step, Advances, Ownership;
    GoodOwns(s);
    ControllerIsConnected(s);
    if es == [] {
      assert Notices(s.conns[k].log) + [] == Notices(s.conns[k].log);
    } else {
      var s1 := Step(s, es[0]).value;
      StepHeard(s, es[0]);
      ControllerHearsEveryExit(s1, es[1..], k);
      assert s1.controller.Some? && s1.controller.value.fd == k;
      Associate(Notices(s.conns[k].log), NewsIn(s, es[0]), NewsOver(s1, es[1..]));
    }
  }
}
