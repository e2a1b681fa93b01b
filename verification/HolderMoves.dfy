/** How the Holder's loops and recursions, which touch one descriptor at a time, add up to the
    set-wise moves of HolderStates. */
module HolderMoves {
  import opened Bytes
  import opened HolderFrames
  import opened Connections
  import opened Reactors
  import opened HolderRuntimes
  import opened HolderStates
  import opened HolderInvariants

  /** Every open connection is registered. */
  ghost predicate Wired(s: Server)
  {
    RegistrySound(s.reactor) && s.conns.Keys <= s.reactor.tokens.Keys
  }

  lemma QueueWired(s: Server, fd: Fd, f: Frame)
    requires Wired(s) && CanQueue(s, fd, f)
    ensures Wired(QueueFrame(s, fd, f))
  {
    assert fd in s.reactor.tokens;
    assert s.reactor.writable[fd := true].Keys == s.reactor.writable.Keys;
  }

  lemma RemoveWired(s: Server, gone: set<Fd>)
    requires Wired(s)
    ensures Wired(RemoveAll(s, gone))
  {
    UnregisterKeeps(s.reactor, gone);
  }

  /** A connection can be recorded as the writer of the session it is attached to, and of no other. */
  lemma WritersLeft(s: Server, fd: Fd)
    requires fd in s.conns
    ensures var id := s.conns[fd].attached;
            WithoutWriters(s, {fd})
            == if id.Some? && id.value in s.writers && s.writers[id.value] == fd then s.writers - {id.value}
              else s.writers
  {
  }

  lemma UnregisterTwice(r: Registry, a: set<Fd>, b: set<Fd>)
    ensures Unregister(Unregister(r, a), b) == Unregister(r, a + b)
  {
    assert r.tokens - a - b == r.tokens - (a + b);
    assert r.writable - a - b == r.writable - (a + b);
    assert Unregister(Unregister(r, a), b).fds == Unregister(r, a + b).fds;
  }

  lemma WritersTwice(s: Server, a: set<Fd>, b: set<Fd>)
    ensures WithoutWriters(RemoveAll(s, a), b) == WithoutWriters(s, a + b)
  {
    hide Unregister;
  }

  /** Dropping one set of descriptors after another is dropping both. */
  lemma RemoveTwice(s: Server, a: set<Fd>, b: set<Fd>)
    ensures RemoveAll(RemoveAll(s, a), b) == RemoveAll(s, a + b)
  {
    UnregisterTwice(s.reactor, a, b);
    WritersTwice(s, a, b);
    assert s.conns - a - b == s.conns - (a + b);
    hide Unregister, WithoutWriters;
  }

  /** A connection detached just before it is dropped is gone as if it had only been dropped. */
  lemma DetachThenDrop(s: Server, fd: Fd)
    ensures var d := DetachConnection(s, fd);
            RemoveAll(s, {fd}) == d.(
              reactor := Unregister(s.reactor, {fd}),
              conns := d.conns - {fd},
              controller := if IsController(s, fd) then None else s.controller)
  {
    hide Unregister;
    var d := DetachConnection(s, fd);
    assert s.conns - {fd} == d.conns - {fd};
    if fd !in s.conns {
      assert WithoutWriters(s, {fd}) == s.writers;
    }
  }

  /** Dropping a descriptor that is neither open nor registered changes nothing. */
  lemma DropNobody(s: Server, fd: Fd)
    requires Wired(s) && fd !in s.reactor.tokens && !IsController(s, fd)
    ensures Disconnect(s, fd) == s
  {
    UnregisterAbsent(s.reactor, fd);
    assert fd !in s.conns by { hide RegistrySound; }
    hide Wired, RegistrySound;
    assert s.conns - {fd} == s.conns;
    assert WithoutWriters(s, {fd}) == s.writers;
    hide Unregister, WithoutWriters;
  }

  lemma UnregisterAbsent(r: Registry, fd: Fd)
    requires RegistrySound(r) && fd !in r.tokens
    ensures Unregister(r, {fd}) == r
  {
    assert r.tokens - {fd} == r.tokens && r.writable - {fd} == r.writable;
    assert Unregister(r, {fd}).fds == r.fds;
  }

  // ---- Fan-out, one target at a time ------------------------------------------------

  lemma BroadcastNobody(s: Server, cast: Cast)
    requires Wired(s)
    ensures Broadcast(s, {}, cast) == s
  {
    var gone := Overflowing(s, {}, cast);
    assert gone == {};
    assert s.conns - {} == s.conns && s.reactor.tokens - {} == s.reactor.tokens
           && s.reactor.writable - {} == s.reactor.writable;
    assert WithoutWriters(s, {}) == s.writers;
    assert Unregister(s.reactor, {}).fds == s.reactor.fds;
  }

  /** A target that is no longer there is passed over. */
  lemma BroadcastAbsent(s: Server, done: set<Fd>, fd: Fd, cast: Cast)
    requires fd !in s.conns
    ensures Broadcast(s, done + {fd}, cast) == Broadcast(s, done, cast)
  {
    hide Fits, Unregister, WithoutWriters;
    var a := Broadcast(s, done + {fd}, cast);
    var b := Broadcast(s, done, cast);
    assert Overflowing(s, done + {fd}, cast) == Overflowing(s, done, cast);
    assert a.conns == b.conns;
    assert a.reactor.writable == b.reactor.writable;
  }

  lemma BroadcastLeavesOthers(s: Server, done: set<Fd>, fd: Fd, cast: Cast)
    requires fd !in done
    ensures var b := Broadcast(s, done, cast);
            && (fd in b.conns <==> fd in s.conns) && (fd in s.conns ==> b.conns[fd] == s.conns[fd])
            && b.runtime == s.runtime && b.codec == s.codec
            && (fd in b.reactor.tokens <==> fd in s.reactor.tokens)
  {
    hide Fits, WithoutWriters;
  }

  lemma BroadcastServes(s: Server, done: set<Fd>, fd: Fd, cast: Cast)
    requires Wired(s) && fd in s.conns && fd !in done && Fits(s.codec, s.conns[fd], CastFrame(s, fd, cast))
    ensures var b := Broadcast(s, done, cast);
            && CanQueue(b, fd, CastFrame(s, fd, cast))
            && QueueFrame(b, fd, CastFrame(s, fd, cast)) == Broadcast(s, done + {fd}, cast)
  {
    BroadcastLeavesOthers(s, done, fd, cast);
    var f := CastFrame(s, fd, cast);
    var b := Broadcast(s, done, cast);
    var a := Broadcast(s, done + {fd}, cast);
    assert Overflowing(s, done + {fd}, cast) == Overflowing(s, done, cast);
    assert fd in s.reactor.writable;
    hide Fits, Unregister, WithoutWriters, RegistrySound;
    assert a.conns == QueueFrame(b, fd, f).conns;
    assert a.reactor.writable == QueueFrame(b, fd, f).reactor.writable;
  }

  lemma BroadcastDrops(s: Server, done: set<Fd>, fd: Fd, cast: Cast)
    requires fd in s.conns && fd !in done && !Fits(s.codec, s.conns[fd], CastFrame(s, fd, cast)) && !IsController(s, fd)
    ensures Disconnect(Broadcast(s, done, cast), fd) == Broadcast(s, done + {fd}, cast)
  {
    BroadcastLeavesOthers(s, done, fd, cast);
    var gone := Overflowing(s, done, cast);
    var b := Broadcast(s, done, cast);
    var a := Broadcast(s, done + {fd}, cast);
    assert Overflowing(s, done + {fd}, cast) == gone + {fd};
    assert Casualties(b, fd) == {fd};
    BroadcastWriters(s, done, fd, cast);
    hide Fits, WithoutWriters, Casualties;
    BroadcastDropsConns(s, done, fd, cast);
    BroadcastDropsEntries(s, done, fd, cast);
    assert RemoveAll(b, {fd}).controller == a.controller by { hide Unregister; }
    hide Overflowing, Unregister;
  }

  lemma BroadcastDropsConns(s: Server, done: set<Fd>, fd: Fd, cast: Cast)
    requires fd in s.conns && fd !in done
    requires Overflowing(s, done + {fd}, cast) == Overflowing(s, done, cast) + {fd}
    ensures RemoveAll(Broadcast(s, done, cast), {fd}).conns == Broadcast(s, done + {fd}, cast).conns
  {
    hide Fits, WithoutWriters, Unregister, Overflowing;
  }

  lemma BroadcastDropsEntries(s: Server, done: set<Fd>, fd: Fd, cast: Cast)
    requires fd in s.conns && fd !in done
    requires Overflowing(s, done + {fd}, cast) == Overflowing(s, done, cast) + {fd}
    ensures RemoveAll(Broadcast(s, done, cast), {fd}).reactor == Broadcast(s, done + {fd}, cast).reactor
  {
    hide Fits, WithoutWriters, Overflowing;
    var gone := Overflowing(s, done, cast);
    var d := RemoveAll(Broadcast(s, done, cast), {fd}).reactor;
    var a := Broadcast(s, done + {fd}, cast).reactor;
    assert d.tokens == a.tokens && d.writable == a.writable && d.fds == a.fds;
  }

  lemma BroadcastWriters(s: Server, done: set<Fd>, fd: Fd, cast: Cast)
    requires fd in s.conns && fd !in done
    ensures WithoutWriters(Broadcast(s, done, cast), {fd}) == WithoutWriters(s, Overflowing(s, done, cast) + {fd})
  {
    hide Fits, Unregister;
  }

  /** Serving one more target extends the broadcast by that target. */
  lemma BroadcastOneMore(s: Server, done: set<Fd>, fd: Fd, cast: Cast)
    requires Wired(s) && fd in s.conns && fd !in done && !IsController(s, fd)
    ensures var b := Broadcast(s, done, cast);
            QueueOrDisconnect(b, fd, CastFrame(s, fd, cast)) == Broadcast(s, done + {fd}, cast)
  {
    hide Wired, Fits, Broadcast, Disconnect, QueueFrame;
    BroadcastLeavesOthers(s, done, fd, cast);
    if Fits(s.codec, s.conns[fd], CastFrame(s, fd, cast)) {
      BroadcastServes(s, done, fd, cast);
    } else {
      BroadcastDrops(s, done, fd, cast);
    }
  }

  lemma BroadcastToPresent(s: Server, targets: set<Fd>, id: SessionId, cast: Cast)
    requires forall fd :: fd in s.conns ==> (fd in targets <==> s.conns[fd].attached == Some(id))
    ensures Broadcast(s, targets, cast) == Broadcast(s, Attached(s, id), cast)
  {
    hide Fits, Unregister, WithoutWriters;
    var a := Broadcast(s, targets, cast);
    var b := Broadcast(s, Attached(s, id), cast);
    assert Overflowing(s, targets, cast) == Overflowing(s, Attached(s, id), cast);
    assert a.conns == b.conns;
    assert a.reactor.writable == b.reactor.writable;
  }
}
