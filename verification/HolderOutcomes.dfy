/** What each event does to whom: when a connection stays and when it goes, which frames are answered
    and how (crates/persist-holder/src/server.rs, server_handlers.rs). */
module HolderOutcomes {
  import opened Bytes
  import opened ByteQueues
  import opened HolderFrames
  import opened Connections
  import opened Reactors
  import opened HolderRuntimes
  import opened HolderStates
  import opened HolderInvariants
  import opened HolderSteps
  import opened HolderKeeps
  import opened HolderData
  import opened HolderRuns
  import opened HolderTheorems

  // ---- Room ------------------------------------------------------------------------------------

  ghost predicate Encodes(codec: Codec, minor: nat, frames: seq<Frame>)
  {
    forall i :: 0 <= i < |frames| ==> codec(frames[i], minor).Some?
  }

  ghost function Length(codec: Codec, minor: nat, frames: seq<Frame>): nat
    requires Encodes(codec, minor, frames)
  {
    if frames == [] then 0
    else Length(codec, minor, frames[..|frames| - 1]) + |codec(frames[|frames| - 1], minor).value|
  }

  /** All of these can be encoded, and together with what is pending they make at most 1 MiB. */
  ghost predicate HasRoom(codec: Codec, c: Conn, frames: seq<Frame>)
    requires Sound(c.output)
  {
    Encodes(codec, c.minor, frames)
    && |ByteQueues.Pending(c.output)| + Length(codec, c.minor, frames) <= 1048576
  }

  function Stamped(frames: seq<Frame>, minor: nat): (log: seq<Queued>)
    ensures |log| == |frames|
  {
    seq(|frames|, i requires 0 <= i < |frames| => Queued(frames[i], minor))
  }

  lemma RoomForOne(codec: Codec, c: Conn, f: Frame)
    requires Sound(c.output)
    ensures HasRoom(codec, c, [f]) <==> Fits(codec, c, f)
    ensures Stamped([f], c.minor) == [Queued(f, c.minor)]
  {
    var one := [f];
    assert one[..0] == [];
    assert Encodes(codec, c.minor, one) <==> codec(one[0], c.minor).Some?;
    if Encodes(codec, c.minor, one) {
      assert Length(codec, c.minor, one) == |codec(f, c.minor).value|;
    }
  }

  /** These frames, and nothing else, have been queued to this connection. */
  ghost predicate Served(c: Conn, d: Conn, frames: seq<Frame>)
  {
    && d.log == c.log + Stamped(frames, c.minor)
    && d == c.(log := d.log, output := d.output)
  }

  /** Nobody has come or gone, and only this connection is another. */
  predicate OnlyConn(s: Server, s': Server, fd: Fd)
  {
    && s'.conns.Keys == s.conns.Keys && fd in s.conns
    && forall g :: g in s.conns && g != fd ==> s'.conns[g] == s.conns[g]
  }

  /** Only this session is another. */
  ghost predicate OnlySession(r: RuntimeState, r': RuntimeState, id: SessionId)
  {
    && r'.sessions.Keys == r.sessions.Keys && r'.ptys == r.ptys
    && forall other :: other in r.sessions && other != id ==> r'.sessions[other] == r.sessions[other]
  }

  /** Nothing but connections and what is armed for writing has changed. */
  ghost predicate SameTables(s: Server, s': Server)
  {
    && s'.runtime == s.runtime && s'.writers == s.writers && s'.controller == s.controller
    && s'.events == s.events && s'.starts == s.starts && s'.codec == s.codec && s'.instance == s.instance
    && s'.shutdownFd == s.shutdownFd
  }

  lemma QueueingOne(s: Server, fd: Fd, f: Frame)
    requires fd in s.conns && ConnSound(s.codec, s.conns[fd])
    ensures CanQueue(s, fd, f) <==> HasRoom(s.codec, s.conns[fd], [f])
    ensures CanQueue(s, fd, f) ==>
              var s' := QueueFrame(s, fd, f);
              && OnlyConn(s, s', fd) && SameTables(s, s')
              && Served(s.conns[fd], s'.conns[fd], [f]) && ConnSound(s'.codec, s'.conns[fd])
  {
    RoomForOne(s.codec, s.conns[fd], f);
    if CanQueue(s, fd, f) {
      EnqueueKeeps(s.codec, s.conns[fd], f);
    }
    hide ConnSound, HasRoom;
  }

  lemma LengthGrows(codec: Codec, minor: nat, frames: seq<Frame>)
    requires frames != []
    ensures var init := frames[..|frames| - 1];
            && (Encodes(codec, minor, frames) <==>
                  Encodes(codec, minor, init) && codec(frames[|frames| - 1], minor).Some?)
            && (Encodes(codec, minor, frames) ==>
                  Length(codec, minor, frames)
                  == Length(codec, minor, init) + |codec(frames[|frames| - 1], minor).value|)
  {
    var init := frames[..|frames| - 1];
    if Encodes(codec, minor, init) && codec(frames[|frames| - 1], minor).Some? {
      forall i | 0 <= i < |frames| ensures codec(frames[i], minor).Some? {
        if i < |init| { assert frames[i] == init[i]; }
      }
    }
  }

  lemma StampedSnoc(frames: seq<Frame>, minor: nat)
    requires frames != []
    ensures Stamped(frames, minor)
         == Stamped(frames[..|frames| - 1], minor) + [Queued(frames[|frames| - 1], minor)]
  {
  }

  /** A run of frames is queued exactly if there is room for all of it. */
  lemma {:induction false} QueueAllOutcome(s: Server, fd: Fd, frames: seq<Frame>)
    requires fd in s.conns && ConnSound(s.codec, s.conns[fd])
    ensures var (s', ok) := QueueAll(s, fd, frames);
            && OnlyConn(s, s', fd) && SameTables(s, s') && ConnSound(s'.codec, s'.conns[fd])
            && (ok <==> HasRoom(s.codec, s.conns[fd], frames))
            && (ok ==>
                  && Served(s.conns[fd], s'.conns[fd], frames)
                  && s'.conns[fd].output.size == s.conns[fd].output.size + Length(s.codec, s.conns[fd].minor, frames))
    decreases |frames|
  {
    var c := s.conns[fd];
    if frames == [] {
      assert c.log + Stamped(frames, c.minor) == c.log;
    } else {
      var init := frames[..|frames| - 1];
      var last := frames[|frames| - 1];
      var (s1, ok) := QueueAll(s, fd, init);
      QueueAllOutcome(s, fd, init);
      LengthGrows(s.codec, c.minor, frames);
      StampedSnoc(frames, c.minor);
      Associate(c.log, Stamped(init, c.minor), [Queued(last, c.minor)]);
      QueueingOne(s1, fd, last);
      SizeOfPending(s.codec, c);
      if ok {
        RoomForOne(s.codec, s1.conns[fd], last);
      }
      hide ConnSound, Stamped, Length, Encodes;
    }
  }

  lemma SizeOfPending(codec: Codec, c: Conn)
    requires ConnSound(codec, c)
    ensures Sound(c.output) && c.output.size == |ByteQueues.Pending(c.output)| <= 1048576
  {
  }

  // ---- Who goes with whom --------------------------------------------------------------------------

  function GoingWith(s: Server, fd: Fd): set<Fd>
  {
    {fd} + if s.controller.Some? && s.controller.value.fd == fd
           then set g | g in s.conns && s.conns[g].role == Role.Data else {}
  }

  /** A connection has gone, with the data connections if it was the controller's, and whatever any of
      them was the writer of. */
  ghost predicate Dropped(s: Server, s': Server, fd: Fd)
  {
    var gone := GoingWith(s, fd);
    && s'.conns.Keys == s.conns.Keys - gone
    && (forall g :: g in s'.conns ==> s'.conns[g] == s.conns[g])
    && (forall id :: id in s'.writers <==> id in s.writers && s.writers[id] !in gone)
    && (forall id :: id in s'.writers ==> s'.writers[id] == s.writers[id])
    && s'.controller == (if s.controller.Some? && s.controller.value.fd == fd then None else s.controller)
    && s'.runtime == s.runtime && s'.events == s.events && s'.starts == s.starts
  }

  lemma DisconnectDrops(s: Server, fd: Fd)
    requires Ownership(s)
    ensures Dropped(s, Disconnect(s, fd), fd)
  {
    WithoutWritersByFd(s, Casualties(s, fd));
    hide WithoutWriters, Unregister, Ownership;
  }

  /** A data client that writes to nothing is told something, or goes alone. */
  lemma TellOrDrop(s: Server, p: Fd, f: Frame)
    requires p in s.conns && ConnSound(s.codec, s.conns[p]) && !IsController(s, p)
    requires forall id :: id in s.writers && s.writers[id] == p ==> s.conns[p].attached != Some(id)
    ensures Sound(s.conns[p].output)
    ensures var s' := QueueOrDisconnect(s, p, f);
            && (p in s'.conns <==> HasRoom(s.codec, s.conns[p], [f]))
            && (p in s'.conns ==> Served(s.conns[p], s'.conns[p], [f]))
            && (forall g :: g != p ==> (g in s'.conns <==> g in s.conns))
            && (forall g :: g in s'.conns && g != p ==> s'.conns[g] == s.conns[g])
            && s'.writers == s.writers && s'.controller == s.controller && s'.runtime == s.runtime
            && s'.codec == s.codec && s'.events == s.events && s'.starts == s.starts
  {
    QueueingOne(s, p, f);
    SoundOutput(s.codec, s.conns[p]);
    hide ConnSound, HasRoom, Served, QueueFrame, Unregister;
    assert WithoutWriters(s, {p}) == s.writers;
    assert Casualties(s, p) == {p};
  }

  // ---- Writing ------------------------------------------------------------------------------------

  /** The socket has taken this much of what was pending. */
  ghost predicate TookSome(c: Conn, d: Conn, taken: nat)
    requires Sound(c.output) && taken <= |ByteQueues.Pending(c.output)|
  {
    && d == c.(output := d.output, sent := c.sent + ByteQueues.Pending(c.output)[..taken])
    && Sound(d.output) && ByteQueues.Pending(d.output) == ByteQueues.Pending(c.output)[taken..]
  }

  lemma FlushTakes(codec: Codec, c: Conn, script: seq<WriteResult>)
    requires ConnSound(codec, c) && Substantial(codec)
    ensures var taken := TakenBefore(c.output, script, |script|);
            && taken <= |ByteQueues.Pending(c.output)|
            && TookSome(c, AfterFlush(c, script), taken)
            && (FlushResult(c, script) == Died <==> BreaksOff(c.output, script))
            && (FlushResult(c, script) == Finished <==>
                  || HangsUp(c.output, script)
                  || (c.closing && taken == |ByteQueues.Pending(c.output)|))
  {
    hide Drain, CutOff, ByteQueues.Pending, Full, TakenBefore, Sound, ConnSound;
    SoundOutput(codec, c);
    FullOutput(codec, c);
    TakenAndLeft(c.output, script);
    EmptiedIsAllTaken(c.output, script);
    FlushBreaks(c.output, script);
  }

  lemma FullOutput(codec: Codec, c: Conn)
    requires ConnSound(codec, c) && Substantial(codec)
    ensures Full(c.output)
  {
    hide Full, Sound, Substantial;
  }

  /** What the kernel's answers to the writes of a connection make of the Holder: it stops exactly if a
      write fails outright while something is pending; otherwise the connection goes exactly if a write
      takes nothing while something is pending, or if it was marked to close and everything pending has
      been taken. If it stays, the socket has taken what the kernel says it took, and nothing else has
      changed. */
  ghost predicate Written(s: Server, after: Option<Server>, fd: Fd, script: seq<WriteResult>)
    requires fd in s.conns && Sound(s.conns[fd].output)
  {
    var c := s.conns[fd];
    var taken := TakenBefore(c.output, script, |script|);
    && taken <= |ByteQueues.Pending(c.output)|
    && (after.None? <==> BreaksOff(c.output, script))
    && (after.Some? ==>
          && (fd !in after.value.conns <==>
                || HangsUp(c.output, script)
                || (c.closing && taken == |ByteQueues.Pending(c.output)|))
          && (if fd in after.value.conns
              then && OnlyConn(s, after.value, fd) && SameTables(s, after.value)
                   && TookSome(c, after.value.conns[fd], taken)
              else Dropped(s, after.value, fd)))
  }

  lemma FlushConnWrites(s: Server, fd: Fd, script: seq<WriteResult>)
    requires fd in s.conns && ConnSound(s.codec, s.conns[fd]) && Substantial(s.codec) && Ownership(s)
    ensures Sound(s.conns[fd].output)
    ensures Written(s, FlushConn(s, fd, script), fd, script)
  {
    hide AfterFlush, FlushResult, TakenBefore, CutOff, ByteQueues.Pending, Ownership, Disconnect, ConnSound, TookSome,
      Sound, Dropped;
    var c := s.conns[fd];
    SoundOutput(s.codec, c);
    var d := AfterFlush(c, script);
    FlushTakes(s.codec, c, script);
    FlushShape(c, script);
    SetConnOwnership(s, fd, d);
    var s1 := SetConn(s, fd, d);
    DisconnectDrops(s1, fd);
    DroppedIsGone(s1, Disconnect(s1, fd), fd);
    DroppedAnyway(s, d, Disconnect(s1, fd), fd);
  }

  /** What was made of a connection before it went makes no difference. */
  lemma DroppedAnyway(s: Server, d: Conn, s': Server, fd: Fd)
    requires fd in s.conns && d.role == s.conns[fd].role && Dropped(SetConn(s, fd, d), s', fd)
    ensures Dropped(s, s', fd)
  {
    assert GoingWith(SetConn(s, fd, d), fd) == GoingWith(s, fd);
  }

  lemma DroppedIsGone(s: Server, s': Server, fd: Fd)
    requires Dropped(s, s', fd)
    ensures fd !in s'.conns
  {
  }

  /** When the kernel says a connection can be written to. */
  lemma WritableOutcome(s: Server, fd: Fd, script: seq<WriteResult>)
    requires Good(s, {}) && fd in s.conns && Substantial(s.codec)
    ensures Sound(s.conns[fd].output)
    ensures Written(s, Step(s, Peer(fd, false, NotReadable, Some(script))), fd, script)
  {
    hide Good, Step, FlushConn, Written, ConnSound, Ownership;
    GoodOutput(s, fd);
    SoundOutput(s.codec, s.conns[fd]);
    GoodOwns(s);
    WriteHalfOnly(s, fd, script);
    FlushConnWrites(s, fd, script);
  }

  lemma WriteHalfOnly(s: Server, fd: Fd, script: seq<WriteResult>)
    requires Good(s, {}) && fd in s.conns
    ensures Sound(s.conns[fd].output)
    ensures Step(s, Peer(fd, false, NotReadable, Some(script))) == FlushConn(s, fd, script)
  {
    hide Good, FlushConn, ConnSound, Advances, ReadHalf, Settle, Step;
    GoodOutput(s, fd);
    SoundOutput(s.codec, s.conns[fd]);
    StepIsPeer(s, fd, false, NotReadable, Some(script));
    NothingRead(s, fd);
    SettleIsFlush(s, fd, script);
  }

  lemma StepIsPeer(s: Server, fd: Fd, hangup: bool, inbound: Inbound, writable: Option<seq<WriteResult>>)
    requires Good(s, {}) && fd in s.conns
    ensures Step(s, Peer(fd, hangup, inbound, writable)) == HandlePeer(s, fd, hangup, inbound, writable)
  {
    hide Good, HandlePeer, Advances;
  }

  lemma NothingRead(s: Server, fd: Fd)
    requires Good(s, {}) && fd in s.conns
    ensures ReadHalf(s, fd, false, NotReadable) == (s, true)
  {
    hide Good, ProcessFrames, Advances, Disconnect;
    NoFrames(s, fd);
  }

  lemma SettleIsFlush(s: Server, fd: Fd, script: seq<WriteResult>)
    requires Good(s, {}) && fd in s.conns
    ensures Sound(s.conns[fd].output) && Settle(s, fd, Some(script)) == FlushConn(s, fd, script)
  {
    hide Good, FlushConn, ConnSound, Advances;
    assert ConnSound(s.codec, s.conns[fd]) by { GoodOutput(s, fd); }
    SoundOutput(s.codec, s.conns[fd]);
  }

  lemma SoundOutput(codec: Codec, c: Conn)
    requires ConnSound(codec, c)
    ensures Sound(c.output)
  {
  }

  lemma NoFrames(s: Server, fd: Fd)
    requires Good(s, {}) && fd in s.conns
    ensures ProcessFrames(s, fd, []) == (s, true)
  {
    hide Good, ProcessFrame, Advances;
  }

  // ---- Reading ------------------------------------------------------------------------------------

  /** A state in which a connection can be served. */
  ghost predicate Serves(s: Server, fd: Fd)
  {
    && fd in s.conns && ConnSound(s.codec, s.conns[fd]) && Sound(s.conns[fd].output)
    && RuntimeSound(s.runtime) && Ownership(s) && fd in s.reactor.tokens
  }

  lemma GoodServes(s: Server, fd: Fd)
    requires Good(s, {}) && fd in s.conns
    ensures Serves(s, fd)
  {
    hide Good, Ownership, RuntimeSound, ConnSound, Core;
    GoodOutput(s, fd);
    GoodOwns(s);
    GoodRuntime(s);
    GoodParts(s, {});
    PeerIsNotTerminal(s, fd, {});
    SoundOutput(s.codec, s.conns[fd]);
  }

  /** A frame that is refused costs its sender the connection; nothing else happens then but what the
      frame has done before it was refused. */
  lemma OneFrame(s: Server, fd: Fd, f: InFrame)
    requires Good(s, {}) && fd in s.conns
    ensures RuntimeSound(s.runtime)
    ensures var (s1, ok) := ProcessFrame(s, fd, f);
            Step(s, Peer(fd, false, Received([f], false), None)) == Some(if ok then s1 else Disconnect(s1, fd))
  {
    hide Good, Step, HandlePeer, ProcessFrame, Disconnect, RuntimeSound, Advances;
    GoodRuntime(s);
    StepIsPeer(s, fd, false, Received([f], false), None);
    FramesOfOne(s, fd, f);
    ReadsOne(s, fd, f);
  }

  lemma FramesOfOne(s: Server, fd: Fd, f: InFrame)
    requires Good(s, {}) && fd in s.conns && RuntimeSound(s.runtime)
    ensures ProcessFrames(s, fd, [f]) == ProcessFrame(s, fd, f)
  {
    hide Good, ProcessFrame, Advances, RuntimeSound;
    FrameKeeps(s, fd, f);
    var (s1, ok) := ProcessFrame(s, fd, f);
    assert [f][1..] == [];
    if ok {
      NoFrames(s1, fd);
    }
  }

  lemma ReadsOne(s: Server, fd: Fd, f: InFrame)
    requires Good(s, {}) && fd in s.conns && RuntimeSound(s.runtime)
    requires ProcessFrames(s, fd, [f]) == ProcessFrame(s, fd, f)
    ensures var (s1, ok) := ProcessFrame(s, fd, f);
            HandlePeer(s, fd, false, Received([f], false), None) == Some(if ok then s1 else Disconnect(s1, fd))
  {
    hide Good, ProcessFrame, ProcessFrames, Advances, RuntimeSound, Disconnect, FlushConn;
  }

  /** With nothing to write, a connection stays exactly if its reads succeed, it has not been hung up,
      and every frame is accepted. */
  lemma ReadableOutcome(s: Server, fd: Fd, hangup: bool, inbound: Inbound)
    requires Good(s, {}) && fd in s.conns
    ensures var after := Step(s, Peer(fd, hangup, inbound, None));
            && after.Some?
            && (fd in after.value.conns <==>
                  && !hangup && !inbound.ReadError?
                  && (inbound.Received? ==> !inbound.peerClosed && ProcessFrames(s, fd, inbound.frames).1))
  {
    hide Good, Step, ReadHalf, ProcessFrames, Advances;
    StepIsPeer(s, fd, hangup, inbound, None);
    ReadHalfStays(s, fd, hangup, inbound);
  }

  lemma ReadHalfStays(s: Server, fd: Fd, hangup: bool, inbound: Inbound)
    requires Good(s, {}) && fd in s.conns
    ensures var (s1, open) := ReadHalf(s, fd, hangup, inbound);
            && (open <==> fd in s1.conns)
            && (open <==>
                  && !hangup && !inbound.ReadError?
                  && (inbound.Received? ==> !inbound.peerClosed && ProcessFrames(s, fd, inbound.frames).1))
  {
    hide Good, ProcessFrames, Advances;
    if !inbound.Received? { NoFrames(s, fd); }
  }

  /** A new peer is connected and has said nothing; nobody else notices. */
  lemma NewPeerIsConnected(s: Server, fd: Fd, pid: nat, uid: nat)
    requires Good(s, {}) && fd !in s.reactor.tokens && s.reactor.adds < 18446744073709551614
    ensures var after := Step(s, Accept(fd, pid, uid));
            && after.Some? && SameTables(s, after.value) && fd !in s.conns
            && after.value.conns.Keys == s.conns.Keys + {fd}
            && (forall g :: g in s.conns ==> after.value.conns[g] == s.conns[g])
            && SaidNothing(after.value.conns[fd], pid, uid)
            && fd in after.value.reactor.tokens && fd in after.value.reactor.writable
            && !after.value.reactor.writable[fd]
  {
    hide Good, Advances, RuntimeSound;
    StepAccepts(s, fd, pid, uid);
    if fd in s.conns {
      GoodServes(s, fd);
    }
    hide Step;
  }

  predicate SaidNothing(c: Conn, pid: nat, uid: nat)
  {
    && c.role == Role.Pending && c.pid == pid && c.uid == uid && c.minor == 1 && c.attached == None
    && c.output == ByteQueue([], 0, 0) && !c.closing && c.log == [] && c.sent == []
  }

  lemma StepAccepts(s: Server, fd: Fd, pid: nat, uid: nat)
    requires Good(s, {})
    ensures Step(s, Accept(fd, pid, uid)) == Some(AcceptConn(s, fd, pid, uid))
  {
    hide Good, AcceptConn, Advances;
  }

  // ---- Answers ------------------------------------------------------------------------------------

  /** From `s`, the frame is answered with this message and nothing else, if there is room for the
      answer; if not, it is refused. */
  ghost predicate Replied(s: Server, res: (Server, bool), fd: Fd, f: InFrame, m: Message)
    requires fd in s.conns && Sound(s.conns[fd].output)
  {
    var answer := Frame(f.requestId, s.runtime.generation, m);
    && OnlyConn(s, res.0, fd)
    && (res.1 <==> HasRoom(s.codec, s.conns[fd], [answer]))
    && (res.1 ==> Served(s.conns[fd], res.0.conns[fd], [answer]))
  }

  ghost predicate Refused(s: Server, res: (Server, bool))
  {
    !res.1 && res.0 == s
  }

  lemma RespondReplies(s: Server, fd: Fd, f: InFrame, m: Message)
    requires fd in s.conns && ConnSound(s.codec, s.conns[fd])
    ensures Sound(s.conns[fd].output)
    ensures var res := Respond(s, fd, f, m);
            && Replied(s, res, fd, f, m) && SameTables(s, res.0)
            && (res.1 ==> ConnSound(s.codec, res.0.conns[fd])) && (!res.1 ==> res.0 == s)
  {
    hide ConnSound, HasRoom, QueueFrame, Served;
    SoundOutput(s.codec, s.conns[fd]);
    QueueingOne(s, fd, Reply(s, f, m));
  }

  // ---- Handshake ----------------------------------------------------------------------------------

  /** What a control hello is answered. */
  function HelloVerdict(s: Server, peer: Conn, hello: ControlHelloRequest, gone: bool): HelloStatus
  {
    if hello.uid != peer.uid || hello.pid != peer.pid then PermissionDenied
    else if s.controller == None || gone then Accepted
    else Busy
  }

  /** A controller that has hung up makes way, with all data connections; the newcomer becomes the
      controller exactly if there is none then and it is who it says it is, and is told how it went;
      a newcomer that was turned down will be closed. */
  ghost predicate ControlHelloOutcome(s: Server, res: (Server, bool), fd: Fd, f: InFrame, hello: ControlHelloRequest,
      gone: bool)
    requires Serves(s, fd)
  {
    var peer := s.conns[fd];
    var verdict := HelloVerdict(s, peer, hello, gone);
    var answer := Frame(f.requestId, s.runtime.generation, ControlHelloAck(hello.nonce, verdict));
    var leaving := if gone && s.controller.Some? then GoingWith(s, s.controller.value.fd) else {};
    && fd !in leaving && res.0.conns.Keys == s.conns.Keys - leaving
    && (forall g :: g in res.0.conns && g != fd ==> res.0.conns[g] == s.conns[g])
    && (res.1 <==> HasRoom(s.codec, peer, [answer]))
    && (res.1 ==>
          && res.0.conns[fd] == peer.(log := peer.log + Stamped([answer], peer.minor),
                                      output := res.0.conns[fd].output,
                                      role := if verdict == Accepted then Control else peer.role,
                                      closing := peer.closing || verdict != Accepted)
          && res.0.controller == (if verdict == Accepted then Some(Controller(fd, hello.pid, hello.nonce, 1))
                                  else if gone then None
                                  else s.controller))
  }

  lemma ControlHelloIsAnswered(s: Server, fd: Fd, f: InFrame, hello: ControlHelloRequest, gone: bool)
    requires Serves(s, fd) && s.conns[fd].role == Role.Pending && f.request == ControlHello(Some(hello), gone)
    ensures var res := ProcessFrame(s, fd, f);
            if f.minor == 1 then ControlHelloOutcome(s, res, fd, f, hello, gone) else Refused(s, res)
  {
    hide Disconnect, Respond, Served, ConnSound, RuntimeSound, HasRoom, Ownership, GoingWith, Stamped, ProcessFrame,
      HandleControlHello, PriorDropped;
    ControlHelloUnfolds(s, fd, f, hello, gone);
    if f.minor != 1 {
      return;
    }
    var s1 := PriorDropped(s, gone);
    PriorMakesWay(s, fd, gone);
    var answer := Frame(f.requestId, s.runtime.generation,
                        ControlHelloAck(hello.nonce, HelloVerdict(s, s.conns[fd], hello, gone)));
    RespondReplies(s1, fd, f, answer.message);
    ServedShape(s1, Respond(s1, fd, f, answer.message), fd, answer);
  }

  lemma ControlHelloUnfolds(s: Server, fd: Fd, f: InFrame, hello: ControlHelloRequest, gone: bool)
    requires Serves(s, fd) && s.conns[fd].role == Role.Pending && f.request == ControlHello(Some(hello), gone)
    ensures var s1 := PriorDropped(s, gone);
            var verdict := HelloVerdict(s, s.conns[fd], hello, gone);
            var (s2, ok) := Respond(s1, fd, f, ControlHelloAck(hello.nonce, verdict));
            ProcessFrame(s, fd, f)
            == (if f.minor != 1 then (s, false)
                else if !ok || fd !in s2.conns then (s2, false)
                else if verdict == Accepted then
                  (SetConn(s2, fd, s2.conns[fd].(role := Control)).(
                     controller := Some(Controller(fd, hello.pid, hello.nonce, 1))), true)
                else (SetConn(s2, fd, s2.conns[fd].(closing := true)), true))
  {
    PriorMakesWay(s, fd, gone);
    hide Respond, Disconnect, RuntimeSound, ConnSound;
    var s1 := PriorDropped(s, gone);
    assert s1.controller.Some? <==> s.controller.Some? && !gone;
    hide Ownership;
  }

  function PriorDropped(s: Server, gone: bool): Server
  {
    if s.controller.Some? && s.controller.value.fd in s.conns && gone then Disconnect(s, s.controller.value.fd) else s
  }

  lemma PriorMakesWay(s: Server, fd: Fd, gone: bool)
    requires Serves(s, fd) && s.conns[fd].role == Role.Pending
    ensures var s1 := PriorDropped(s, gone);
            var leaving := if gone && s.controller.Some? then GoingWith(s, s.controller.value.fd) else {};
            && fd !in leaving && s1.conns.Keys == s.conns.Keys - leaving
            && (forall g :: g in s1.conns ==> s1.conns[g] == s.conns[g])
            && fd in s1.conns && s1.codec == s.codec && s1.runtime == s.runtime
            && s1.controller == (if gone then None else s.controller)
  {
    hide ConnSound, RuntimeSound;
    if s.controller.Some? && gone {
      DisconnectDrops(s, s.controller.value.fd);
    }
    hide Disconnect;
  }

  lemma ServedShape(s: Server, res: (Server, bool), fd: Fd, answer: Frame)
    requires res.1 && fd in s.conns && fd in res.0.conns ==> Served(s.conns[fd], res.0.conns[fd], [answer])
    ensures res.1 && fd in s.conns && fd in res.0.conns ==>
              res.0.conns[fd] == s.conns[fd].(log := s.conns[fd].log + Stamped([answer], s.conns[fd].minor),
                                              output := res.0.conns[fd].output)
  {
  }

  /** A data hello is accepted exactly if it comes from the controller's own process, which knows the
      instance, the nonce and the minor; a peer that was turned down will be closed. */
  ghost predicate DataHelloOutcome(s: Server, res: (Server, bool), fd: Fd, f: InFrame, hello: DataHelloRequest)
    requires Serves(s, fd)
  {
    var peer := s.conns[fd];
    var accepted := exists c: Controller ::
                      && s.controller == Some(c) && peer.pid == c.pid && hello.pid == c.pid
                      && hello.instance == s.instance && hello.nonce == c.nonce && f.minor == c.minor;
    var minor := if accepted then f.minor else peer.minor;
    var answer := Frame(f.requestId, s.runtime.generation,
                        DataHelloAck(hello.nonce, if accepted then Accepted else PermissionDenied));
    && OnlyConn(s, res.0, fd) && SameTables(s, res.0)
    && (res.1 <==> HasRoom(s.codec, peer.(minor := minor), [answer]))
    && (res.1 ==>
          res.0.conns[fd] == peer.(log := peer.log + Stamped([answer], minor), output := res.0.conns[fd].output,
                                   minor := minor, role := if accepted then Role.Data else peer.role,
                                   closing := peer.closing || !accepted))
  }

  lemma DataHelloIsAnswered(s: Server, fd: Fd, f: InFrame, hello: DataHelloRequest)
    requires Serves(s, fd) && s.conns[fd].role == Role.Pending && f.request == DataHello(Some(hello))
    ensures DataHelloOutcome(s, ProcessFrame(s, fd, f), fd, f, hello)
  {
    hide Respond, Served, RuntimeSound, HasRoom, Ownership, Stamped, ProcessFrame, ConnSound, HandleDataHello,
      AcceptsData, SameTables;
    var peer := s.conns[fd];
    var accepted := AcceptsData(s, peer, f.minor, hello);
    var minor := if accepted then f.minor else peer.minor;
    var s1 := SetConn(s, fd, peer.(minor := minor));
    var answer := Frame(f.requestId, s.runtime.generation,
                        DataHelloAck(hello.nonce, if accepted then Accepted else PermissionDenied));
    DataHelloUnfolds(s, fd, f, hello, accepted);
    MinorIsNothing(s.codec, peer, minor);
    RespondReplies(s1, fd, f, answer.message);
    var r := Respond(s1, fd, f, answer.message);
    ServedShape(s1, r, fd, answer);
    AcceptsDataMeans(s, peer, f.minor, hello);
    assert OnlyConn(s, s1, fd) && SameTables(s, s1) by { SetConnOnly(s, fd, peer.(minor := minor)); }
    var d := r.0.conns[fd];
    SetConnTwice(s, s1, r.0, fd, if accepted then d.(role := Role.Data) else d.(closing := true));
    hide OnlyConn, SetConn;
  }

  lemma SetConnOnly(s: Server, fd: Fd, d: Conn)
    requires fd in s.conns
    ensures var s1 := SetConn(s, fd, d); OnlyConn(s, s1, fd) && SameTables(s, s1) && s1.conns[fd] == d
  {
  }

  lemma AcceptsDataMeans(s: Server, peer: Conn, minor: nat, hello: DataHelloRequest)
    ensures AcceptsData(s, peer, minor, hello)
        <==> exists c: Controller ::
               && s.controller == Some(c) && peer.pid == c.pid && hello.pid == c.pid
               && hello.instance == s.instance && hello.nonce == c.nonce && minor == c.minor
  {
  }

  lemma DataHelloUnfolds(s: Server, fd: Fd, f: InFrame, hello: DataHelloRequest, accepted: bool)
    requires fd in s.conns && s.conns[fd].role == Role.Pending && RuntimeSound(s.runtime)
    requires f.request == DataHello(Some(hello)) && accepted == AcceptsData(s, s.conns[fd], f.minor, hello)
    ensures var s1 := SetConn(s, fd, s.conns[fd].(minor := if accepted then f.minor else s.conns[fd].minor));
            var (s2, ok) := Respond(s1, fd, f, DataHelloAck(hello.nonce, if accepted then Accepted
                                                            else PermissionDenied));
            ProcessFrame(s, fd, f)
            == (if !ok || fd !in s2.conns then (s2, false)
                else if accepted then (SetConn(s2, fd, s2.conns[fd].(role := Role.Data)), true)
                else (SetConn(s2, fd, s2.conns[fd].(closing := true)), true))
  {
    assert s.conns[fd := s.conns[fd]] == s.conns;
    hide Respond, AcceptsData, RuntimeSound;
  }

  /** Changing one connection again and again changes one connection. */
  lemma SetConnTwice(s: Server, s1: Server, s2: Server, fd: Fd, d: Conn)
    requires OnlyConn(s, s1, fd) && SameTables(s, s1) && OnlyConn(s1, s2, fd) && SameTables(s1, s2)
    ensures var s3 := SetConn(s2, fd, d); OnlyConn(s, s3, fd) && SameTables(s, s3) && s3.conns[fd] == d
    ensures OnlyConn(s, s2, fd) && SameTables(s, s2)
  {
  }

  lemma MinorIsNothing(codec: Codec, c: Conn, minor: nat)
    requires ConnSound(codec, c)
    ensures ConnSound(codec, c.(minor := minor))
  {
  }

  /** What does not decode, and anything else than a hello, is refused; only a hung-up controller may
      have made way by then. */
  lemma NoHelloIsRefused(s: Server, fd: Fd, f: InFrame)
    requires Serves(s, fd) && s.conns[fd].role == Role.Pending
    ensures !f.request.ControlHello? && !f.request.DataHello? ==> Refused(s, ProcessFrame(s, fd, f))
    ensures f.request == DataHello(None) ==> Refused(s, ProcessFrame(s, fd, f))
    ensures f.request.ControlHello? && f.request.hello.None? ==> !ProcessFrame(s, fd, f).1
  {
    hide Disconnect, RuntimeSound, ConnSound, Ownership;
  }

  /** A connection marked to close is gone as soon as everything pending has been taken, so a peer that
      was turned down goes once its answer has gone out. */
  lemma TurnedDownIsClosed(s: Server, fd: Fd, script: seq<WriteResult>)
    requires Good(s, {}) && fd in s.conns && s.conns[fd].closing && Substantial(s.codec)
    requires Step(s, Peer(fd, false, NotReadable, Some(script))).Some?
    ensures var s' := Step(s, Peer(fd, false, NotReadable, Some(script))).value;
            && Sound(s.conns[fd].output)
            && (|script| >= |ByteQueues.Pending(s.conns[fd].output)| && AllTakeSome(script) ==> fd !in s'.conns)
            && (fd in s'.conns ==> s'.conns[fd].closing)
  {
    hide Good, Step, TookSome, HangsUp, BreaksOff, TakenBefore, Dropped, SameTables;
    WritableOutcome(s, fd, script);
    GoodOutput(s, fd);
    var q := s.conns[fd].output;
    hide Sound, ByteQueues.Pending;
    if AllTakeSome(script) {
      TakingGoesOn(q, script, |script|);
    }
    hide ConnSound;
    if fd in Step(s, Peer(fd, false, NotReadable, Some(script))).value.conns {
      TookKeepsMark(s.conns[fd], Step(s, Peer(fd, false, NotReadable, Some(script))).value.conns[fd], TakenBefore(q,
        script, |script|));
    }
  }

  predicate AllTakeSome(script: seq<WriteResult>)
  {
    forall i :: 0 <= i < |script| ==> TakesSome(script[i])
  }

  lemma TookKeepsMark(c: Conn, d: Conn, taken: nat)
    requires Sound(c.output) && taken <= |ByteQueues.Pending(c.output)| && TookSome(c, d, taken)
    ensures d.closing == c.closing
  {
  }
}
