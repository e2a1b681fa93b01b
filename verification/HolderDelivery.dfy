/** Who is told what when sessions print, exit or lose log data, and who is dropped for it
    (crates/persist-holder/src/server.rs, runtime.rs). */
module HolderDeliveries {
  import opened Bytes
  import opened ByteQueues
  import opened HolderFrames
  import opened Connections
  import opened Reactors
  import opened HolderRuntimes
  import opened HolderStates
  import opened HolderInvariants
  import opened HolderSteps
  import opened HolderKeeps
  import opened HolderData
  import opened HolderRuns
  import opened HolderTheorems
  import opened HolderOutcomes

  // ---- Reading a terminal ----------------------------------------------------------------------------

  /** Bytes the log worker would not take. */
  function Unlogged(feed: seq<ReadResult>): nat
  {
    if feed == [] then 0
    else
      var last := feed[|feed| - 1];
      Unlogged(feed[..|feed| - 1]) + if last.Data? && !last.logAccepted then |last.bytes| else 0
  }

  lemma {:induction false} UnloggedFirst(feed: seq<ReadResult>)
    requires feed != []
    ensures Unlogged(feed)
         == (if feed[0].Data? && !feed[0].logAccepted then |feed[0].bytes| else 0) + Unlogged(feed[1..])
    decreases |feed|
  {
    if |feed| > 1 {
      var init := feed[..|feed| - 1];
      UnloggedFirst(init);
      assert init[1..] == feed[1..][..|feed| - 2];
    }
  }

  predicate Printed(answer: ReadResult)
  {
    answer.Data? && answer.bytes != []
  }

  /** These are the chunks of all reads up to the first that brings nothing. */
  ghost predicate AllRead(feed: seq<ReadResult>, chunks: seq<seq<byte>>)
  {
    var n := |chunks|;
    && n <= |feed|
    && (forall i :: 0 <= i < n ==> Printed(feed[i]) && feed[i].bytes == chunks[i])
    && (n < |feed| ==> !Printed(feed[n]))
  }

  lemma AllReadFirst(feed: seq<ReadResult>, chunks: seq<seq<byte>>)
    requires feed != [] && Printed(feed[0]) && AllRead(feed[1..], chunks)
    ensures AllRead(feed, [feed[0].bytes] + chunks)
    ensures feed[..|chunks| + 1][1..] == feed[1..][..|chunks|] && feed[..|chunks| + 1][0] == feed[0]
    ensures |chunks| + 1 < |feed| ==> feed[|chunks| + 1] == feed[1..][|chunks|]
  {
    var all := [feed[0].bytes] + chunks;
    forall i | 0 <= i < |all| ensures Printed(feed[i]) && feed[i].bytes == all[i] {
      if i > 0 { assert feed[i] == feed[1..][i - 1] && all[i] == chunks[i - 1]; }
    }
  }

  /** A terminal is read up to the first read that brings nothing; each read before is one chunk. What
      the log worker refused of them is what is dropped, if the session is logged; the reading has
      failed exactly if that last read has. */
  lemma {:induction false} TerminalIsRead(session: Session, feed: seq<ReadResult>)
    requires session.pty.Some?
    ensures var d := DrainSession(session, feed);
            var n := |d.chunks|;
            && AllRead(feed, d.chunks)
            && (d.ok <==> n == |feed| || !feed[n].ReadFailed?)
            && d.dropped == (if session.logged then Unlogged(feed[..n]) else 0)
    decreases |feed|
  {
    hide AllRead, Unlogged, Absorb, DrainSession;
    if feed != [] && Printed(feed[0]) {
      DrainsFirst(session, feed);
      var later := DrainSession(Absorb(session, feed[0].bytes), feed[1..]);
      TerminalIsRead(Absorb(session, feed[0].bytes), feed[1..]);
      AllReadFirst(feed, later.chunks);
      UnloggedFirst(feed[..|later.chunks| + 1]);
    } else {
      DrainsNothing(session, feed);
    }
  }

  lemma DrainsNothing(session: Session, feed: seq<ReadResult>)
    requires session.pty.Some? && (feed != [] ==> !Printed(feed[0]))
    ensures var d := DrainSession(session, feed);
            && d.chunks == [] && AllRead(feed, []) && d.dropped == 0 && Unlogged(feed[..0]) == 0
            && (d.ok <==> feed == [] || !feed[0].ReadFailed?)
  {
  }

  lemma DrainsFirst(session: Session, feed: seq<ReadResult>)
    requires session.pty.Some? && feed != [] && Printed(feed[0])
    ensures var later := Absorb(session, feed[0].bytes);
            && later.pty.Some? && later.logged == session.logged
            && var d := DrainSession(session, feed);
               var rest := DrainSession(later, feed[1..]);
               && d.chunks == [feed[0].bytes] + rest.chunks && d.ok == rest.ok
               && d.dropped == (if session.logged && !feed[0].logAccepted then |feed[0].bytes| else 0) + rest.dropped
  {
    hide LastN;
  }

  // ---- Fan-out ------------------------------------------------------------------------------------------

  /** A client attached to this session stays exactly if it has room for these frames, and then gets
      them and nothing else; another one does not notice. */
  ghost predicate Reached(s: Server, s': Server, id: SessionId, fd: Fd, frames: seq<Frame>)
    requires fd in s.conns && Sound(s.conns[fd].output)
  {
    var c := s.conns[fd];
    if c.attached != Some(id) then fd in s'.conns && s'.conns[fd] == c
    else
      && (fd in s'.conns <==> HasRoom(s.codec, c, frames))
      && (fd in s'.conns ==>
            && Served(c, s'.conns[fd], frames) && ConnSound(s.codec, s'.conns[fd])
            && s'.conns[fd].output.size == c.output.size + Length(s.codec, c.minor, frames))
  }

  /** A broadcast reaches exactly those attached to the session that have room for it; who has not is
      gone, and nobody else notices. */
  lemma BroadcastReaches(s: Server, id: SessionId, cast: Cast, fd: Fd)
    requires fd in s.conns && ConnSound(s.codec, s.conns[fd])
    ensures Sound(s.conns[fd].output)
    ensures var s' := Broadcast(s, Attached(s, id), cast);
            var c := s.conns[fd];
            var f := Frame(0, s.runtime.generation, CastMessage(cast, c.minor));
            && s'.runtime == s.runtime && s'.codec == s.codec
            && Reached(s, s', id, fd, [f])
  {
    var c := s.conns[fd];
    var f := Frame(0, s.runtime.generation, CastMessage(cast, c.minor));
    hide ConnSound, Sound, WithoutWriters, Unregister, HasRoom, Length, Encodes, Fits, Broadcast, Stamped, Push;
    SoundOutput(s.codec, c);
    RoomForOne(s.codec, c, f);
    LengthOfOne(s.codec, c.minor, f);
    if Fits(s.codec, c, f) {
      EnqueueKeeps(s.codec, c, f);
      EnqueueShape(s.codec, c, f);
    }
    BroadcastOne(s, id, cast, fd);
    NobodySpeaks(s, id, cast);
  }

  lemma EnqueueShape(codec: Codec, c: Conn, f: Frame)
    requires Fits(codec, c, f)
    ensures var d := Enqueue(codec, c, f);
            && d == c.(log := c.log + [Queued(f, c.minor)], output := d.output)
            && d.output.size == c.output.size + |codec(f, c.minor).value|
            && codec(f, c.minor).Some?
  {
  }

  lemma BroadcastOne(s: Server, id: SessionId, cast: Cast, fd: Fd)
    requires fd in s.conns
    ensures var s' := Broadcast(s, Attached(s, id), cast);
            var c := s.conns[fd];
            var f := Frame(0, s.runtime.generation, CastMessage(cast, c.minor));
            if c.attached != Some(id) then fd in s'.conns && s'.conns[fd] == c
            else
              && (fd in s'.conns <==> Fits(s.codec, c, f))
              && (fd in s'.conns ==> s'.conns[fd] == Enqueue(s.codec, c, f))
  {
    hide WithoutWriters, Unregister, Push;
  }

  lemma LengthOfOne(codec: Codec, minor: nat, f: Frame)
    ensures Encodes(codec, minor, [f]) <==> codec(f, minor).Some?
    ensures Encodes(codec, minor, [f]) ==> Length(codec, minor, [f]) == |codec(f, minor).value|
  {
    var one := [f];
    assert one[..0] == [];
    assert Encodes(codec, minor, one) <==> codec(one[0], minor).Some?;
  }

  function OutputFrames(generation: nat, chunks: seq<seq<byte>>): (frames: seq<Frame>)
    ensures |frames| == |chunks|
  {
    seq(|chunks|, i requires 0 <= i < |chunks| => Frame(0, generation, Output(chunks[i])))
  }

  /** A client attached to a session that prints stays exactly if it has room for all of it, and then
      gets all of it, in order. Nobody else notices. */
  lemma {:induction false} OutputReaches(s: Server, id: SessionId, chunks: seq<seq<byte>>, fd: Fd)
    requires fd in s.conns && ConnSound(s.codec, s.conns[fd])
    ensures Sound(s.conns[fd].output)
    ensures var s' := Publish(s, id, chunks);
            && s'.runtime == s.runtime && s'.codec == s.codec
            && Reached(s, s', id, fd, OutputFrames(s.runtime.generation, chunks))
    decreases |chunks|
  {
    var c := s.conns[fd];
    SoundOutput(s.codec, c);
    SizeOfPending(s.codec, c);
    if chunks == [] {
      assert c.log + Stamped([], c.minor) == c.log;
      assert OutputFrames(s.runtime.generation, chunks) == [];
    } else {
      hide ConnSound, Broadcast, OutputFrames, Reached, Publish;
      var init := chunks[..|chunks| - 1];
      OutputReaches(s, id, init, fd);
      var s1 := Publish(s, id, init);
      OneMoreChunk(s, s1, id, chunks, fd);
    }
  }

  lemma OutputFramesSnoc(generation: nat, chunks: seq<seq<byte>>)
    requires chunks != []
    ensures OutputFrames(generation, chunks)
         == OutputFrames(generation, chunks[..|chunks| - 1]) + [Frame(0, generation, Output(chunks[|chunks| - 1]))]
  {
  }

  lemma {:induction false} LengthAppend(codec: Codec, minor: nat, a: seq<Frame>, b: seq<Frame>)
    ensures Encodes(codec, minor, a + b) <==> Encodes(codec, minor, a) && Encodes(codec, minor, b)
    ensures Encodes(codec, minor, a + b) ==>
              Length(codec, minor, a + b) == Length(codec, minor, a) + Length(codec, minor, b)
    ensures Stamped(a + b, minor) == Stamped(a, minor) + Stamped(b, minor)
    decreases |b|
  {
    if b == [] {
      assert a + b == a;
    } else {
      var init := b[..|b| - 1];
      LengthAppend(codec, minor, a, init);
      LengthGrows(codec, minor, b);
      LengthGrows(codec, minor, a + b);
      InitOfAppend(a, b);
      hide Encodes, Length;
    }
  }

  /** Reached by one run of frames and then, if still there, by another. */
  lemma ReachedTwice(s: Server, s1: Server, s2: Server, id: SessionId, fd: Fd, a: seq<Frame>, b: seq<Frame>)
    requires fd in s.conns && ConnSound(s.codec, s.conns[fd]) && Sound(s.conns[fd].output) && s1.codec == s.codec
    requires Reached(s, s1, id, fd, a)
    requires fd in s1.conns ==> Sound(s1.conns[fd].output) && Reached(s1, s2, id, fd, b)
    requires fd !in s1.conns ==> fd !in s2.conns
    ensures Reached(s, s2, id, fd, a + b)
  {
    var c := s.conns[fd];
    LengthAppend(s.codec, c.minor, a, b);
    Associate(c.log, Stamped(a, c.minor), Stamped(b, c.minor));
    SizeOfPending(s.codec, c);
    if fd in s1.conns && c.attached == Some(id) {
      SizeOfPending(s.codec, s1.conns[fd]);
    }
    hide ConnSound, Stamped, Length, Encodes, Sound, ByteQueues.Pending;
  }

  lemma OneMoreChunk(s: Server, s1: Server, id: SessionId, chunks: seq<seq<byte>>, fd: Fd)
    requires fd in s.conns && Sound(s.conns[fd].output) && ConnSound(s.codec, s.conns[fd]) && chunks != []
    requires s1 == Publish(s, id, chunks[..|chunks| - 1]) && s1.runtime == s.runtime && s1.codec == s.codec
    requires Reached(s, s1, id, fd, OutputFrames(s.runtime.generation, chunks[..|chunks| - 1]))
    ensures var s' := Publish(s, id, chunks);
            && s'.runtime == s.runtime && s'.codec == s.codec
            && Reached(s, s', id, fd, OutputFrames(s.runtime.generation, chunks))
  {
    var last := chunks[|chunks| - 1];
    var cast := CastOutput(last);
    var s2 := Broadcast(s1, Attached(s1, id), cast);
    assert Publish(s, id, chunks) == Emit(s2, id, Chunk(last));
    hide Publish, OutputFrames, Broadcast, Attached, Reached, ConnSound, Sound;
    OutputFramesSnoc(s.runtime.generation, chunks);
    if fd in s1.conns {
      StillSound(s, s1, id, fd, OutputFrames(s.runtime.generation, chunks[..|chunks| - 1]));
      BroadcastReaches(s1, id, cast, fd);
    } else {
      StaysGone(s1, id, cast, fd);
    }
    var one := [Frame(0, s.runtime.generation, Output(last))];
    ReachedTwice(s, s1, s2, id, fd, OutputFrames(s.runtime.generation, chunks[..|chunks| - 1]), one);
    SameReach(s, s2, Emit(s2, id, Chunk(last)), id, fd, OutputFrames(s.runtime.generation, chunks));
    NobodySpeaks(s1, id, cast);
  }

  lemma NobodySpeaks(s: Server, id: SessionId, cast: Cast)
    ensures var s' := Broadcast(s, Attached(s, id), cast); s'.runtime == s.runtime && s'.codec == s.codec
  {
    hide Unregister, WithoutWriters, Fits;
  }

  lemma StillSound(s: Server, s1: Server, id: SessionId, fd: Fd, frames: seq<Frame>)
    requires fd in s.conns && Sound(s.conns[fd].output) && ConnSound(s.codec, s.conns[fd]) && s1.codec == s.codec
    requires Reached(s, s1, id, fd, frames) && fd in s1.conns
    ensures ConnSound(s1.codec, s1.conns[fd]) && Sound(s1.conns[fd].output)
  {
    SoundOutput(s1.codec, s1.conns[fd]);
    hide ConnSound, Sound;
  }

  lemma SameReach(s: Server, s1: Server, s2: Server, id: SessionId, fd: Fd, frames: seq<Frame>)
    requires fd in s.conns && Sound(s.conns[fd].output) && Reached(s, s1, id, fd, frames) && s2.conns == s1.conns
    ensures Reached(s, s2, id, fd, frames)
  {
  }

  lemma StaysGone(s: Server, id: SessionId, cast: Cast, fd: Fd)
    requires fd !in s.conns
    ensures fd !in Broadcast(s, Attached(s, id), cast).conns
    ensures Broadcast(s, Attached(s, id), cast).runtime == s.runtime
    ensures Broadcast(s, Attached(s, id), cast).codec == s.codec
  {
    hide Unregister, WithoutWriters, Fits;
  }

  // ---- The controller -----------------------------------------------------------------------------------

  /** The controller, if there is one, has been told this and nothing else; or it had no room for it and
      is gone, with every data connection. */
  ghost predicate Informed(s: Server, s': Server, m: Message)
  {
    if s.controller.None? then s' == s
    else
      var k := s.controller.value.fd;
      var word := Frame(0, s.runtime.generation, m);
      && k in s.conns && Sound(s.conns[k].output)
      && (k in s'.conns <==> HasRoom(s.codec, s.conns[k], [word]))
      && (if k in s'.conns
          then OnlyConn(s, s', k) && SameTables(s, s') && Served(s.conns[k], s'.conns[k], [word])
          else Dropped(s, s', k))
  }

  lemma ControllerIsInformed(s: Server, m: Message)
    requires Ownership(s) && AllSound(s)
    ensures Informed(s, SendControl(s, m), m)
  {
    if s.controller.Some? {
      var k := s.controller.value.fd;
      assert k in s.conns && ConnSound(s.codec, s.conns[k]);
      hide Ownership, ConnSound, Sound, HasRoom, Served, QueueFrame, Disconnect, Dropped, SameTables;
      SoundOutput(s.codec, s.conns[k]);
      QueueingOne(s, k, Event(s, m));
      DisconnectDrops(s, k);
      DroppedIsGone(s, Disconnect(s, k), k);
    }
  }

  ghost predicate AllSound(s: Server)
  {
    forall fd :: fd in s.conns ==> ConnSound(s.codec, s.conns[fd])
  }

  lemma CoreIsSound(s: Server, lingering: set<Fd>)
    requires Core(s, lingering)
    ensures Ownership(s) && AllSound(s)
  {
    hide Armed, RuntimeSound, RegistrySound, ConnSound;
  }

  /** The controller has room to be told this. */
  ghost predicate ControllerHasRoom(s: Server, m: Message)
  {
    s.controller.Some? && s.controller.value.fd in s.conns && Sound(s.conns[s.controller.value.fd].output) ==>
      HasRoom(s.codec, s.conns[s.controller.value.fd], [Frame(0, s.runtime.generation, m)])
  }

  /** What has become of a connection that is not the controller's when a session's clients have been
      sent these frames, and then the controller may have been told something: it stays if it had room
      for them, and, being the controller's, if the controller had room as well. */
  ghost predicate Delivered(s: Server, s': Server, id: SessionId, fd: Fd, frames: seq<Frame>, told: bool)
    requires fd in s.conns && Sound(s.conns[fd].output)
  {
    var c := s.conns[fd];
    if c.attached == Some(id) then
      && (fd in s'.conns <==> HasRoom(s.codec, c, frames) && told)
      && (fd in s'.conns ==>
            && s'.conns[fd].log == c.log + Stamped(frames, c.minor)
            && s'.conns[fd] == c.(log := s'.conns[fd].log, output := s'.conns[fd].output,
                                  attached := s'.conns[fd].attached))
    else
      && (fd in s'.conns <==> (c.role == Role.Data ==> told))
      && (fd in s'.conns ==> s'.conns[fd] == c)
  }

  /** First the clients, then the controller. */
  lemma ThenTheController(s: Server, s1: Server, s2: Server, m: Message, id: SessionId, fd: Fd, frames: seq<Frame>)
    requires fd in s.conns && Sound(s.conns[fd].output) && !IsController(s, fd)
    requires Ownership(s) && s1.controller == s.controller && s1.codec == s.codec
    requires s1.runtime.generation == s.runtime.generation
    requires var c := s.conns[fd];
             if c.attached != Some(id) then fd in s1.conns && s1.conns[fd] == c
             else
               && (fd in s1.conns <==> HasRoom(s.codec, c, frames))
               && (fd in s1.conns ==>
                     Served(c, s1.conns[fd].(attached := c.attached), frames))
    requires s.controller.Some? ==>
               s.controller.value.fd in s1.conns && s1.conns[s.controller.value.fd] == s.conns[s.controller.value.fd]
    requires Informed(s1, s2, m)
    ensures Delivered(s, s2, id, fd, frames, ControllerHasRoom(s, m))
    ensures fd in s2.conns ==> fd in s1.conns && s2.conns[fd] == s1.conns[fd]
  {
    hide HasRoom, Stamped;
    var c := s.conns[fd];
    assert c.attached.Some? ==> c.role == Role.Data;
    assert c.role == Role.Data ==> s.controller.Some?;
    hide Ownership;
  }

  // ---- An exit -------------------------------------------------------------------------------------------

  /** What a client is told of an exit: that it may write no longer, if it was the writer, and the
      exit, in the form its minor calls for. */
  function ExitNews(s: Server, e: ExitedSession, fd: Fd): seq<Frame>
    requires fd in s.conns
  {
    var g := s.runtime.generation;
    (if e.session in s.writers && s.writers[e.session] == fd then [Frame(0, g, WriteRevoked(e.session))] else [])
    + [Frame(0, g, SessionExited(e.session, e.code, e.context, s.conns[fd].minor == 2))]
  }

  function ExitMessage(s: Server, e: ExitedSession): Message
  {
    SessionExited(e.session, e.code, e.context, s.controller.Some? && s.controller.value.minor == 2)
  }

  lemma ReleaseReaches(s: Server, id: SessionId, fd: Fd)
    requires Ownership(s) && AllSound(s) && fd in s.conns
    ensures Sound(s.conns[fd].output)
    ensures var s' := ReleaseWriter(s, id);
            && s'.runtime == s.runtime && s'.codec == s.codec && s'.controller == s.controller
            && Reached(s, s', id, fd,
                       if id in s.writers && s.writers[id] == fd then [Frame(0, s.runtime.generation, WriteRevoked(id))]
                       else [])
  {
    var c := s.conns[fd];
    SoundOutput(s.codec, c);
    SizeOfPending(s.codec, c);
    assert c.log + Stamped([], c.minor) == c.log;
    if id in s.writers {
      var p := s.writers[id];
      var s1 := s.(writers := s.writers - {id});
      assert p in s.conns && s.conns[p].attached == Some(id) && !IsController(s1, p);
      hide Ownership;
      TellOrDrop(s1, p, Event(s1, WriteRevoked(id)));
      hide QueueOrDisconnect, ConnSound, Sound, HasRoom, Stamped;
      if fd == p {
        LengthOfOne(s.codec, c.minor, Event(s1, WriteRevoked(id)));
        TellCounts(s1, p, Event(s1, WriteRevoked(id)));
      }
    } else {
      hide Ownership, ConnSound, Sound;
    }
  }

  lemma TellCounts(s: Server, p: Fd, f: Frame)
    requires p in s.conns && ConnSound(s.codec, s.conns[p])
    ensures var s' := QueueOrDisconnect(s, p, f);
            p in s'.conns ==>
              && s.codec(f, s.conns[p].minor).Some?
              && ConnSound(s.codec, s'.conns[p])
              && s'.conns[p].output.size == s.conns[p].output.size + |s.codec(f, s.conns[p].minor).value|
  {
    if CanQueue(s, p, f) {
      EnqueueKeeps(s.codec, s.conns[p], f);
      EnqueueShape(s.codec, s.conns[p], f);
    }
    hide ConnSound, Unregister, WithoutWriters;
  }

  /** An exit is announced to everybody attached to the session, and then to the controller; each of
      them is told or has no room and is gone. */
  ghost predicate ExitOutcome(s: Server, s': Server, e: ExitedSession, fd: Fd)
    requires fd in s.conns && Sound(s.conns[fd].output)
  {
    var told := ControllerHasRoom(s, ExitMessage(s, e));
    if IsController(s, fd) then
      && (fd in s'.conns <==> told)
      && (fd in s'.conns <==> s'.controller == s.controller) && (fd !in s'.conns <==> s'.controller == None)
      && (fd in s'.conns ==>
            Served(s.conns[fd], s'.conns[fd], [Frame(0, s.runtime.generation, ExitMessage(s, e))]))
    else
      && Delivered(s, s', e.session, fd, ExitNews(s, e, fd), told)
      && (fd in s'.conns && s.conns[fd].attached == Some(e.session) ==>
            s'.conns[fd].attached == if e.closing then None else Some(e.session))
  }

  /** The announcement up to the point where it is the controller's turn. */
  function ClientsTold(s: Server, e: ExitedSession): Server
  {
    var id := e.session;
    var s1 := ReleaseWriter(s.(reactor := Unregister(s.reactor, {e.pty})), id);
    var s2 := Emit(Broadcast(s1, Attached(s1, id), CastExit(id, e.code, e.context)), id, Exit(e.code));
    if e.closing then DetachSession(s2, id) else s2
  }

  lemma AnnounceUnfolds(s: Server, e: ExitedSession)
    ensures var s1 := ClientsTold(s, e); AnnounceExit(s, e) == SendControl(s1, ExitMessage(s1, e))
  {
    hide ReleaseWriter, Broadcast, Attached, DetachSession, Emit, Unregister, QueueOrDisconnect;
  }

  lemma ClientsToldKeeps(s: Server, e: ExitedSession, lingering: set<Fd>)
    requires Core(s, lingering) && e.pty in lingering && Views(s, {})
    ensures var s' := ClientsTold(s, e);
            && Core(s', lingering - {e.pty})
            && s'.controller == s.controller && s'.codec == s.codec && s'.runtime == s.runtime
  {
    hide Core, Views, Advances, ReleaseWriter, Broadcast, DetachSession, Emit, Unregister, Attached, History;
    var id := e.session;
    var rest := lingering - {e.pty};
    var s0 := s.(reactor := Unregister(s.reactor, {e.pty}));
    UnregisterTerminal(s, e.pty, lingering);
    ViewsCarryOver(s, s0, {});
    ReleaseWriterKeeps(s0, id, rest);
    ReleaseFrame(s0, id);
    var s1 := ReleaseWriter(s0, id);
    ReleaseStays(s0, id, rest);
    var cast := CastExit(id, e.code, e.context);
    CastKeeps(s1, id, cast, rest);
    NobodySpeaks(s1, id, cast);
    var s2 := Emit(Broadcast(s1, Attached(s1, id), cast), id, Exit(e.code));
    EmitFrames(Broadcast(s1, Attached(s1, id), cast), id, Exit(e.code));
    DetachSessionKeeps(s2, id, rest);
    DetachStays(s2, id);
  }

  lemma ReleaseStays(s: Server, id: SessionId, lingering: set<Fd>)
    requires Core(s, lingering)
    ensures ReleaseWriter(s, id).controller == s.controller && ReleaseWriter(s, id).codec == s.codec
  {
    CoreIsSound(s, lingering);
    hide Core, AllSound, Reached, QueueOrDisconnect;
    if id in s.writers {
      ReleaseReaches(s, id, s.writers[id]);
    }
    hide Ownership;
  }

  lemma EmitFrames(s: Server, id: SessionId, e: StreamEvent)
    ensures var s' := Emit(s, id, e);
            && s'.conns == s.conns && s'.codec == s.codec && s'.runtime == s.runtime && s'.writers == s.writers
  {
  }

  lemma DetachStays(s: Server, id: SessionId)
    ensures var s' := DetachSession(s, id);
            && s'.controller == s.controller && s'.codec == s.codec && s'.runtime == s.runtime
            && s'.conns.Keys == s.conns.Keys
            && forall fd :: fd in s.conns ==>
                 s'.conns[fd] == s.conns[fd].(attached := if s.conns[fd].attached == Some(id) then None
                                                          else s.conns[fd].attached)
  {
  }

  /** The clients' part of an announcement. */
  lemma ClientsAreTold(s: Server, e: ExitedSession, fd: Fd)
    requires Ownership(s) && AllSound(s) && fd in s.conns
    ensures Sound(s.conns[fd].output)
    ensures var s' := ClientsTold(s, e);
            var c := s.conns[fd];
            if c.attached != Some(e.session) then fd in s'.conns && s'.conns[fd] == c
            else
              && (fd in s'.conns <==> HasRoom(s.codec, c, ExitNews(s, e, fd)))
              && (fd in s'.conns ==>
                    && Served(c, s'.conns[fd].(attached := c.attached), ExitNews(s, e, fd))
                    && s'.conns[fd].attached == if e.closing then None else Some(e.session))
  {
    var id := e.session;
    var s0 := s.(reactor := Unregister(s.reactor, {e.pty}));
    assert Ownership(s0) && AllSound(s0);
    hide Ownership, AllSound, ConnSound, Sound, ReleaseWriter, Broadcast, Attached, Emit, Unregister, HasRoom, Stamped,
      DetachSession, CastMessage;
    var c := s.conns[fd];
    ReleaseReaches(s0, id, fd);
    var s1 := ReleaseWriter(s0, id);
    var word :=
      if id in s.writers && s.writers[id] == fd then [Frame(0, s.runtime.generation, WriteRevoked(id))] else [];
    var cast := CastExit(id, e.code, e.context);
    var s2 := Broadcast(s1, Attached(s1, id), cast);
    var notice := Frame(0, s.runtime.generation, CastMessage(cast, c.minor));
    OneIsSound(s, fd);
    assert ExitNews(s, e, fd) == word + [notice] by { CastExitMessage(e, c.minor); }
    hide ExitNews, Reached;
    if fd in s1.conns {
      StillSound(s0, s1, id, fd, word);
      ReachedMinor(s0, s1, id, fd, word);
      BroadcastReaches(s1, id, cast, fd);
    } else {
      StaysGone(s1, id, cast, fd);
    }
    ReachedTwice(s0, s1, s2, id, fd, word, [notice]);
    EmitFrames(s2, id, Exit(e.code));
    DetachStays(Emit(s2, id, Exit(e.code)), id);
    FromReached(s, s0, s2, ClientsTold(s, e), e, fd);
  }

  lemma OneIsSound(s: Server, fd: Fd)
    requires AllSound(s) && fd in s.conns
    ensures ConnSound(s.codec, s.conns[fd]) && Sound(s.conns[fd].output)
  {
    SoundOutput(s.codec, s.conns[fd]);
    hide ConnSound, Sound;
  }

  lemma CastExitMessage(e: ExitedSession, minor: nat)
    ensures CastMessage(CastExit(e.session, e.code, e.context), minor)
         == SessionExited(e.session, e.code, e.context, minor == 2)
  {
  }

  lemma ReachedMinor(s: Server, s1: Server, id: SessionId, fd: Fd, frames: seq<Frame>)
    requires fd in s.conns && Sound(s.conns[fd].output) && Reached(s, s1, id, fd, frames) && fd in s1.conns
    ensures s1.conns[fd].minor == s.conns[fd].minor && s1.conns[fd].attached == s.conns[fd].attached
  {
    hide HasRoom, Stamped;
  }

  lemma FromReached(s: Server, s0: Server, s2: Server, s3: Server, e: ExitedSession, fd: Fd)
    requires fd in s.conns && Sound(s.conns[fd].output) && s0.conns == s.conns && s0.codec == s.codec
    requires Reached(s0, s2, e.session, fd, ExitNews(s, e, fd))
    requires s3.conns.Keys == s2.conns.Keys
    requires fd in s2.conns ==>
               s3.conns[fd] == if e.closing
                               then s2.conns[fd].(attached := if s2.conns[fd].attached == Some(e.session) then None
                                                              else s2.conns[fd].attached)
                               else s2.conns[fd]
    ensures var c := s.conns[fd];
            if c.attached != Some(e.session) then fd in s3.conns && s3.conns[fd] == c
            else
              && (fd in s3.conns <==> HasRoom(s.codec, c, ExitNews(s, e, fd)))
              && (fd in s3.conns ==>
                    && Served(c, s3.conns[fd].(attached := c.attached), ExitNews(s, e, fd))
                    && s3.conns[fd].attached == if e.closing then None else Some(e.session))
  {
    hide HasRoom, Stamped, ExitNews, ConnSound, Sound;
    assert fd in s3.conns <==> fd in s2.conns by { assert fd in s3.conns.Keys <==> fd in s2.conns.Keys; }
  }

  lemma ExitIsAnnounced(s: Server, e: ExitedSession, lingering: set<Fd>, fd: Fd)
    requires Core(s, lingering) && e.pty in lingering && Views(s, {}) && fd in s.conns
    ensures Sound(s.conns[fd].output)
    ensures ExitOutcome(s, AnnounceExit(s, e), e, fd)
  {
    hide Core, Views, ConnSound, Sound, AllSound, Informed, ExitNews, ClientsTold, AnnounceExit, SendControl, Delivered,
      HasRoom, Served;
    CoreIsSound(s, lingering);
    OneIsSound(s, fd);
    var s1 := ClientsTold(s, e);
    ClientsToldKeeps(s, e, lingering);
    CoreIsSound(s1, lingering - {e.pty});
    ControllerIsInformed(s1, ExitMessage(s1, e));
    AnnounceUnfolds(s, e);
    ClientsAreTold(s, e, fd);
    var m := ExitMessage(s, e);
    assert m == ExitMessage(s1, e);
    ControllerIsNobodysClient(s, e.session);
    if s.controller.Some? {
      ClientsAreTold(s, e, s.controller.value.fd);
    }
    if IsController(s, fd) {
      ControllerOutcome(s, s1, AnnounceExit(s, e), m);
    } else {
      ThenTheController(s, s1, AnnounceExit(s, e), m, e.session, fd, ExitNews(s, e, fd));
      StaysAttached(s, s1, AnnounceExit(s, e), e, fd);
    }
  }

  lemma ControllerIsNobodysClient(s: Server, id: SessionId)
    requires Ownership(s)
    ensures s.controller.Some? ==>
              s.controller.value.fd in s.conns && s.conns[s.controller.value.fd].attached != Some(id)
  {
  }

  lemma ControllerOutcome(s: Server, s1: Server, s2: Server, m: Message)
    requires s.controller.Some? && s1.controller == s.controller && s1.codec == s.codec
    requires s1.runtime.generation == s.runtime.generation
    requires var k := s.controller.value.fd; k in s.conns && k in s1.conns && s1.conns[k] == s.conns[k]
    requires Sound(s.conns[s.controller.value.fd].output) && Informed(s1, s2, m)
    ensures var k := s.controller.value.fd;
            && (k in s2.conns <==> ControllerHasRoom(s, m))
            && (k in s2.conns <==> s2.controller == s.controller) && (k !in s2.conns <==> s2.controller == None)
            && (k in s2.conns ==> Served(s.conns[k], s2.conns[k], [Frame(0, s.runtime.generation, m)]))
  {
    hide HasRoom, Stamped, Sound;
  }

  lemma StaysAttached(s: Server, s1: Server, s2: Server, e: ExitedSession, fd: Fd)
    requires fd in s.conns && (fd in s2.conns ==> fd in s1.conns && s2.conns[fd] == s1.conns[fd])
    requires fd in s1.conns && s.conns[fd].attached == Some(e.session) ==>
               s1.conns[fd].attached == if e.closing then None else Some(e.session)
    ensures fd in s2.conns && s.conns[fd].attached == Some(e.session) ==>
              s2.conns[fd].attached == if e.closing then None else Some(e.session)
  {
  }

  function Left(was: Session, reap: Reap): ExitContext
  {
    if reap.captured == None then was.context else reap.captured.value
  }

  /** The session table when one child has been found dead. */
  function AfterReap(r: RuntimeState, reap: Reap): RuntimeState
    requires reap.session in r.sessions && r.sessions[reap.session].pty.Some?
  {
    var was := r.sessions[reap.session];
    RuntimeState(r.sessions[reap.session := was.(exitCode := Some(reap.code), context := Left(was, reap), pty := None)],
                 r.ptys - {was.pty.value}, NextGeneration(r.generation), r.bumps + 1)
  }

  /** And what there is to announce. */
  function NewsOf(r: RuntimeState, reap: Reap): ExitedSession
    requires reap.session in r.sessions && r.sessions[reap.session].pty.Some?
  {
    var was := r.sessions[reap.session];
    ExitedSession(reap.session, reap.code, Left(was, reap), was.pty.value, was.closing)
  }

  /** A child found dead, alone: its session has the code and what was captured, its terminal is gone,
      and its exit is announced as it was asked for. */
  lemma ChildIsReaped(s: Server, reap: Reap)
    requires Good(s, {}) && RuntimeSound(s.runtime) && IsRunning(s.runtime, reap.session)
    ensures s.runtime.sessions[reap.session].pty.Some?
    ensures var s1 := s.(runtime := AfterReap(s.runtime, reap));
            var e := NewsOf(s.runtime, reap);
            && Step(s, Children([], [reap])) == Some(AnnounceExit(s1, e))
            && Core(s1, {e.pty}) && Views(s1, {})
  {
    hide Good, RuntimeSound, AnnounceExit, AnnounceAll, Core, Views, Advances, Reapable, ReapAll, Reports, AfterReap,
      NewsOf, Ptys, Step;
    var reaps := [reap];
    RunningHasPty(s.runtime, reap);
    ReapOfOne(s.runtime, reap);
    ReportOfOne(s.runtime, reap);
    var s1 := s.(runtime := ReapAll(s.runtime, reaps));
    ChildrenStep(s, reaps);
    AnnounceOfOne(s1, NewsOf(s.runtime, reap));
    GoodParts(s, {});
    ReapCore(s, reaps);
    PtysOfOne(NewsOf(s.runtime, reap));
    ViewsCarryOver(s, s1, {});
  }

  lemma RunningHasPty(r: RuntimeState, reap: Reap)
    requires RuntimeSound(r) && IsRunning(r, reap.session)
    ensures r.sessions[reap.session].pty.Some? && Reapable(r, [reap])
  {
    assert SessionSound(r.sessions[reap.session]);
    hide SessionSound;
  }

  lemma ChildrenStep(s: Server, reaps: seq<Reap>)
    requires Good(s, {}) && RuntimeSound(s.runtime) && Reapable(s.runtime, reaps)
    ensures Step(s, Children([], reaps))
         == Some(AnnounceAll(s.(runtime := ReapAll(s.runtime, reaps)), Reports(s.runtime, reaps)))
  {
    hide Good, RuntimeSound, AnnounceAll, ReapAll, Reports, Reapable, Advances;
  }

  lemma ReapOfOne(r: RuntimeState, reap: Reap)
    requires IsRunning(r, reap.session) && r.sessions[reap.session].pty.Some?
    ensures ReapAll(r, [reap]) == AfterReap(r, reap)
  {
    var one := [reap];
    assert one[..0] == [] && ReapAll(r, one) == ReapOne(r, reap);
  }

  lemma ReportOfOne(r: RuntimeState, reap: Reap)
    requires RuntimeSound(r) && Reapable(r, [reap]) && IsRunning(r, reap.session)
    requires r.sessions[reap.session].pty.Some?
    ensures Reports(r, [reap]) == [NewsOf(r, reap)]
  {
    hide RuntimeSound;
    assert Reports(r, [reap])[0] == Report(r, [reap][0]);
  }

  lemma AnnounceOfOne(s: Server, e: ExitedSession)
    ensures AnnounceAll(s, [e]) == AnnounceExit(s, e)
  {
    var one := [e];
    assert one[..0] == [];
    hide AnnounceExit;
  }

  lemma PtysOfOne(e: ExitedSession)
    ensures Ptys([e]) == {e.pty}
  {
    assert [e][0].pty in Ptys([e]);
  }

  /** Whatever the terminals have printed last, then every child found dead leaves its code, and what was
      captured, in its session, and its exit in the history; the Holder stops only if a terminal cannot
      be read. */
  lemma ChildrenAreReaped(s: Server, turns: seq<TerminalRead>, reaps: seq<Reap>)
    requires Good(s, {})
    ensures var after := Step(s, Children(turns, reaps));
            && (after.None? <==> DrainAll(s, turns).None?)
            && (after.Some? && RuntimeSound(DrainAll(s, turns).value.runtime)
                && Reapable(DrainAll(s, turns).value.runtime, reaps) ==>
                  forall k :: 0 <= k < |reaps| ==> Settled(DrainAll(s, turns).value, after.value, reaps[k]))
  {
    hide Good, Settled, DrainAll, RuntimeSound, Reapable, ReapAll, AnnounceAll, Reports, Advances;
    if DrainAll(s, turns).Some? {
      DrainAllGood(s, turns);
      var s1 := DrainAll(s, turns).value;
      if RuntimeSound(s1.runtime) && Reapable(s1.runtime, reaps) {
        forall k | 0 <= k < |reaps|
          ensures Settled(s1, AnnounceAll(s1.(runtime := ReapAll(s1.runtime, reaps)), Reports(s1.runtime, reaps)),
                          reaps[k])
        {
          ChildSettles(s1, reaps, k);
        }
      }
    }
  }

  /** The session of this child has ended with its code, and its history as well. */
  ghost predicate Settled(s: Server, s': Server, reap: Reap)
  {
    var id := reap.session;
    && id in s.runtime.sessions && id in s'.runtime.sessions
    && s'.runtime.sessions[id]
       == s.runtime.sessions[id].(exitCode := Some(reap.code), context := Left(s.runtime.sessions[id], reap),
                                  pty := None)
    && History(s', id) == History(s, id) + [Exit(reap.code)]
  }

  lemma ChildSettles(s: Server, reaps: seq<Reap>, k: nat)
    requires Good(s, {}) && RuntimeSound(s.runtime) && Reapable(s.runtime, reaps) && k < |reaps|
    ensures Settled(s, AnnounceAll(s.(runtime := ReapAll(s.runtime, reaps)), Reports(s.runtime, reaps)), reaps[k])
  {
    hide Good, Core, Views, Advances, RuntimeSound, ReapAll, AnnounceAll, DistinctExits, Ptys, CodesOf, History,
      Reports;
    var s1 := s.(runtime := ReapAll(s.runtime, reaps));
    var es := Reports(s.runtime, reaps);
    assert IsRunning(s.runtime, reaps[k].session);
    ReapAllNamed(s.runtime, reaps, k);
    CodesOfReports(s.runtime, reaps, reaps[k].session);
    ReportsAreDistinct(s.runtime, reaps);
    GoodParts(s, {});
    ReapCore(s, reaps);
    ViewsCarryOver(s, s1, {});
    hide Reapable;
    AnnounceAllKeeps(s1, es, Ptys(es));
    SameHistory(s, s1, reaps[k].session);
  }

  lemma SameHistory(s: Server, s1: Server, id: SessionId)
    requires s1.events == s.events
    ensures History(s1, id) == History(s, id)
  {
  }

  // ---- The log worker's failures ----------------------------------------------------------------------------

  /** The session table when a session is known to have lost log data. */
  function Marked(r: RuntimeState, id: SessionId): RuntimeState
  {
    if id in r.sessions && r.sessions[id].logState != Degraded
    then RuntimeState(r.sessions[id := r.sessions[id].(logState := Degraded)], r.ptys, NextGeneration(r.generation),
                      r.bumps + 1)
    else r
  }

  /** A reported failure degrades its session, once, and the controller is told of it. */
  lemma LogFailureIsTold(s: Server, failure: Failure)
    requires Good(s, {})
    ensures var now := s.(runtime := Marked(s.runtime, failure.session));
            var after := Step(s, LogTrouble([failure]));
            after.Some? && Informed(now, after.value, LogDegraded(failure.session, failure.dropped))
  {
    hide Good, Informed, SendControl, Step, Ownership, AllSound, Core, HandleLogFailures, Advances, LogFailed, Marked,
      Views, Streams;
    LogStep(s, [failure]);
    OneFailure(s, failure);
    LogFailedGood(s, failure.session);
    MarkedIs(s.runtime, failure.session);
    var now := s.(runtime := Marked(s.runtime, failure.session));
    GoodParts(now, {});
    CoreIsSound(now, {});
    ControllerIsInformed(now, LogDegraded(failure.session, failure.dropped));
  }

  lemma MarkedIs(r: RuntimeState, id: SessionId)
    ensures LogFailed(r, id) == Marked(r, id)
  {
  }

  lemma OneFailure(s: Server, failure: Failure)
    ensures HandleLogFailures(s, [failure])
         == SendControl(s.(runtime := LogFailed(s.runtime, failure.session)),
                        LogDegraded(failure.session, failure.dropped))
  {
    var one := [failure];
    assert one[..0] == [] && HandleLogFailures(s, []) == s;
    hide SendControl, LogFailed;
  }

  lemma LogStep(s: Server, failures: seq<Failure>)
    requires Good(s, {})
    ensures Step(s, LogTrouble(failures)) == Some(HandleLogFailures(s, failures))
  {
    hide Good, HandleLogFailures, Advances;
  }

  // ---- What a terminal has printed -----------------------------------------------------------------------

  /** A session has printed `chunks`, and `lost` bytes of it are missing from its log: its ring, log
      state and history are as that makes them, every client has been sent all of it or had no room,
      and the controller has been told what is missing, if anything. */
  ghost predicate OutputOutcome(s: Server, s': Server, id: SessionId, chunks: seq<seq<byte>>, lost: nat)
    requires id in s.runtime.sessions
  {
    var was := s.runtime.sessions[id];
    && OnlySession(s.runtime, s'.runtime, id) && id in s'.runtime.sessions
    && s'.runtime.sessions[id] == was.(ring := LastN(was.ring + Concat(chunks), was.ringCapacity),
                                       logState := if lost > 0 then Degraded else was.logState)
    && s'.runtime.generation == (if lost > 0 && was.logState != Degraded then NextGeneration(s.runtime.generation)
                                 else s.runtime.generation)
    && History(s', id) == History(s, id) + Chunks(chunks)
    && forall fd :: fd in s.conns ==> OutputSeen(s, s', id, fd, chunks, lost)
  }

  ghost predicate OutputSeen(s: Server, s': Server, id: SessionId, fd: Fd, chunks: seq<seq<byte>>, lost: nat)
    requires fd in s.conns
  {
    var now := s.(runtime := s'.runtime);
    var m := LogDegraded(id, lost);
    && Sound(s.conns[fd].output)
    && if IsController(s, fd) then
         if lost == 0 then fd in s'.conns && s'.conns[fd] == s.conns[fd]
         else
           && (fd in s'.conns <==> ControllerHasRoom(now, m))
           && (fd in s'.conns ==> Served(s.conns[fd], s'.conns[fd], [Frame(0, now.runtime.generation, m)]))
       else
         Delivered(s, s', id, fd, OutputFrames(now.runtime.generation, chunks), lost > 0 ==> ControllerHasRoom(now, m))
  }

  /** When the kernel says a terminal can be read from: the Holder stops exactly if a read fails. */
  lemma OutputIsDelivered(s: Server, fd: Fd, feed: seq<ReadResult>, chunks: seq<seq<byte>>)
    requires Good(s, {}) && RuntimeSound(s.runtime) && fd in s.runtime.ptys && AllRead(feed, chunks)
    ensures s.runtime.ptys[fd] in s.runtime.sessions
    ensures var id := s.runtime.ptys[fd];
            var n := |chunks|;
            var lost := if s.runtime.sessions[id].logged then Unlogged(feed[..n]) else 0;
            var after := Step(s, Terminal(fd, Some(feed), None));
            && (after.None? <==> n < |feed| && feed[n].ReadFailed?)
            && (after.Some? ==> OutputOutcome(s, after.value, id, chunks, lost))
  {
    hide Good, RuntimeSound, AllRead, OutputOutcome, DrainPty, DrainSession, Unlogged, Step;
    TerminalHasSession(s.runtime, fd);
    var id := s.runtime.ptys[fd];
    var was := s.runtime.sessions[id];
    var d := DrainSession(was, feed);
    TerminalIsRead(was, feed);
    AllReadOnce(feed, d.chunks, chunks);
    TerminalStep(s, fd, feed);
    PtyDrained(s, fd, feed, id, was, d);
    if d.ok {
      DrainedIsSeen(s, fd, feed, id, was, d);
    }
  }

  lemma AllReadOnce(feed: seq<ReadResult>, a: seq<seq<byte>>, b: seq<seq<byte>>)
    requires AllRead(feed, a) && AllRead(feed, b)
    ensures a == b && |a| <= |feed|
  {
    assert |a| == |b|;
  }

  lemma TerminalStep(s: Server, fd: Fd, feed: seq<ReadResult>)
    requires Good(s, {}) && fd in s.runtime.ptys
    ensures Step(s, Terminal(fd, Some(feed), None)) == DrainPty(s, fd, feed)
  {
    hide Good, DrainPty, Advances;
  }

  /** The state when a terminal has been read and before anybody has been told. */
  function ReadFrom(s: Server, id: SessionId, was: Session, d: DrainedOutput): Server
  {
    var now := d.session.(logState := if d.dropped > 0 then Degraded else was.logState);
    var r := s.runtime.(sessions := s.runtime.sessions[id := now]);
    s.(runtime := if d.dropped > 0 && was.logState != Degraded then Bump(r) else r)
  }

  lemma PtyDrained(s: Server, fd: Fd, feed: seq<ReadResult>, id: SessionId, was: Session, d: DrainedOutput)
    requires fd in s.runtime.ptys && s.runtime.ptys[fd] == id && id in s.runtime.sessions
    requires s.runtime.sessions[id] == was && was.pty.Some? && d == DrainSession(was, feed)
    ensures DrainPty(s, fd, feed)
         == if !d.ok then None
            else
              var s1 := Publish(ReadFrom(s, id, was, d), id, d.chunks);
              Some(if d.dropped > 0 then SendControl(s1, LogDegraded(id, d.dropped)) else s1)
    ensures AfterDrain(s.runtime, fd, feed) == (ReadFrom(s, id, was, d).runtime, d)
  {
    assert d.session == was.(ring := d.session.ring);
    hide Publish, SendControl, DrainSession;
  }

  lemma DrainedIsSeen(s: Server, fd: Fd, feed: seq<ReadResult>, id: SessionId, was: Session, d: DrainedOutput)
    requires Good(s, {}) && RuntimeSound(s.runtime) && fd in s.runtime.ptys && s.runtime.ptys[fd] == id
    requires id in s.runtime.sessions && s.runtime.sessions[id] == was && was.pty.Some?
    requires d == DrainSession(was, feed) && AfterDrain(s.runtime, fd, feed) == (ReadFrom(s, id, was, d).runtime, d)
    ensures var s1 := Publish(ReadFrom(s, id, was, d), id, d.chunks);
            OutputOutcome(s, if d.dropped > 0 then SendControl(s1, LogDegraded(id, d.dropped)) else s1, id, d.chunks,
                          d.dropped)
  {
    hide Good, RuntimeSound, Core, Views, ReadFrom, OutputSeen, Informed, Publish, SendControl, DrainSession,
      AfterDrain, LastN, Concat, Chunks, Published, AllSound, Ownership;
    var s0 := ReadFrom(s, id, was, d);
    var s1 := Publish(s0, id, d.chunks);
    var m := LogDegraded(id, d.dropped);
    var s2 := if d.dropped > 0 then SendControl(s1, m) else s1;
    ReadShape(s, fd, feed, id, was, d);
    DrainAndPublish(s, fd, feed);
    GoodParts(s, {});
    GoodParts(s1, {});
    DrainCore(s, fd, feed);
    CoreIsSound(s, {});
    CoreIsSound(s0, {});
    CoreIsSound(s1, {});
    ViewsCarryOver(s, s0, {});
    PublishKeeps(s0, id, d.chunks, {});
    PublishedFacts(s0, s1, id, Chunks(d.chunks));
    ControllerIsInformed(s1, m);
    ControlFrame(s1, m);
    forall g | g in s.conns ensures OutputSeen(s, s2, id, g, d.chunks, d.dropped) {
      DrainedSeenBy(s, s0, s1, s2, id, g, d.chunks, d.dropped);
    }
  }

  lemma PublishedFacts(s: Server, s': Server, id: SessionId, events: seq<StreamEvent>)
    requires Published(s, s', id, events, {})
    ensures s'.runtime == s.runtime && History(s', id) == History(s, id) + events
  {
    hide Core, Views, Advances;
  }

  lemma ReadShape(s: Server, fd: Fd, feed: seq<ReadResult>, id: SessionId, was: Session, d: DrainedOutput)
    requires RuntimeSound(s.runtime) && id in s.runtime.sessions && s.runtime.sessions[id] == was && was.pty.Some?
    requires d == DrainSession(was, feed)
    ensures var s0 := ReadFrom(s, id, was, d);
            && s0 == s.(runtime := s0.runtime) && OnlySession(s.runtime, s0.runtime, id)
            && id in s0.runtime.sessions
            && s0.runtime.sessions[id] == was.(ring := LastN(was.ring + Concat(d.chunks), was.ringCapacity),
                                               logState := if d.dropped > 0 then Degraded else was.logState)
            && s0.runtime.generation == (if d.dropped > 0 && was.logState != Degraded
                                         then NextGeneration(s.runtime.generation) else s.runtime.generation)
            && History(s0, id) == History(s, id)
  {
    hide RuntimeSound, DrainSession, LastN, Concat;
    RingIsShort(s.runtime, id);
    DrainFillsRing(was, feed);
    assert d.session == was.(ring := d.session.ring);
  }

  lemma RingIsShort(r: RuntimeState, id: SessionId)
    requires RuntimeSound(r) && id in r.sessions
    ensures |r.sessions[id].ring| <= r.sessions[id].ringCapacity
  {
    assert SessionSound(r.sessions[id]);
  }

  /** Publishing does not reach the controller. */
  lemma {:induction false} PublishController(s: Server, id: SessionId, chunks: seq<seq<byte>>)
    requires s.controller.Some? ==>
               var k := s.controller.value.fd;
               k in s.conns && s.conns[k].attached != Some(id) && ConnSound(s.codec, s.conns[k])
    ensures Publish(s, id, chunks).controller == s.controller && Publish(s, id, chunks).codec == s.codec
    decreases |chunks|
  {
    if chunks != [] {
      var init := chunks[..|chunks| - 1];
      var s1 := Publish(s, id, init);
      var cast := CastOutput(chunks[|chunks| - 1]);
      PublishController(s, id, init);
      if s.controller.Some? {
        OutputReaches(s, id, init, s.controller.value.fd);
      }
      BroadcastSpares(s1, id, cast);
      NobodySpeaks(s1, id, cast);
      assert Publish(s, id, chunks)
          == Emit(Broadcast(s1, Attached(s1, id), cast), id, Chunk(chunks[|chunks| - 1]));
      hide Publish, Broadcast, Attached, ConnSound, HasRoom;
    }
  }

  lemma BroadcastSpares(s: Server, id: SessionId, cast: Cast)
    requires s.controller.Some? ==>
               s.controller.value.fd in s.conns && s.conns[s.controller.value.fd].attached != Some(id)
    ensures Broadcast(s, Attached(s, id), cast).controller == s.controller
  {
    hide Unregister, WithoutWriters, Fits;
  }

  lemma DrainedSeenBy(s: Server, s0: Server, s1: Server, s2: Server, id: SessionId, fd: Fd, chunks: seq<seq<byte>>,
      lost: nat)
    requires s0 == s.(runtime := s0.runtime) && Ownership(s0) && AllSound(s0) && fd in s0.conns
    requires s1 == Publish(s0, id, chunks) && s2.runtime == s0.runtime && s1.runtime == s0.runtime
    requires if lost > 0 then Informed(s1, s2, LogDegraded(id, lost)) else s2 == s1
    ensures OutputSeen(s, s2, id, fd, chunks, lost)
  {
    var m := LogDegraded(id, lost);
    ControllerIsNobodysClient(s0, id);
    OneIsSound(s0, fd);
    if s0.controller.Some? {
      OneIsSound(s0, s0.controller.value.fd);
      hide AllSound, ConnSound, Sound, Informed, Publish, OutputFrames, HasRoom, Stamped;
      OutputReaches(s0, id, chunks, s0.controller.value.fd);
    }
    hide AllSound, ConnSound, Sound, Informed, Publish, OutputFrames, HasRoom, Stamped;
    PublishController(s0, id, chunks);
    OutputReaches(s0, id, chunks, fd);
    var frames := OutputFrames(s0.runtime.generation, chunks);
    if IsController(s0, fd) {
      if lost > 0 {
        ControllerOutcome(s0, s1, s2, m);
      }
    } else if lost > 0 {
      ThenTheController(s0, s1, s2, m, id, fd, frames);
    } else {
      hide Ownership;
    }
  }
}
