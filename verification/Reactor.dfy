/** The epoll registration tables (crates/persist-holder/src/reactor.rs). */
module Reactors {
  import opened Bytes
  import opened HolderFrames

  /** `adds` counts the tokens handed out so far. */
  datatype Registry = Registry(
    tokens: map<Fd, nat>,
    fds: map<nat, Fd>,
    nextToken: nat,
    writable: map<Fd, bool>,
    adds: nat)

  const NO_REGISTRATIONS := Registry(map[], map[], 1, map[], 0)

  /** The two tables are inverse to each other and hold only tokens already handed out. */
  ghost predicate RegistrySound(r: Registry)
  {
    && r.nextToken == r.adds + 1 <= U64 - 1
    && (forall fd :: fd in r.tokens ==> r.tokens[fd] in r.fds && r.fds[r.tokens[fd]] == fd)
    && (forall t :: t in r.fds ==> r.fds[t] in r.tokens && r.tokens[r.fds[t]] == t && 1 <= t <= r.adds)
    && r.writable.Keys == r.tokens.Keys
  }

  function Successor(token: nat): nat
  {
    Max((token + 1) % U64, 1)
  }

  /** Registration of a descriptor the kernel accepts. */
  function Register(r: Registry, fd: Fd, writable: bool): Registry
  {
    Registry(r.tokens[fd := r.nextToken], r.fds[r.nextToken := fd], Successor(r.nextToken),
             r.writable[fd := writable], r.adds + 1)
  }

  /** The kernel refuses; the token is used up all the same. */
  function Burn(r: Registry): Registry
  {
    r.(nextToken := Successor(r.nextToken), adds := r.adds + 1)
  }

  function Rearm(r: Registry, fd: Fd, writable: bool): Registry
  {
    r.(writable := r.writable[fd := writable])
  }

  function Unregister(r: Registry, gone: set<Fd>): Registry
  {
    r.(tokens := r.tokens - gone,
       fds := map t | t in r.fds && r.fds[t] !in gone :: r.fds[t],
       writable := r.writable - gone)
  }

  /** Every registration standing in `after` either stood unchanged in `before` or carries a
      token that had not been handed out then. */
  ghost predicate Evolves(before: Registry, after: Registry)
  {
    && before.adds <= after.adds
    && forall t :: t in after.fds && t <= before.adds ==> t in before.fds && before.fds[t] == after.fds[t]
  }

  lemma RegisterKeys(r: Registry, fd: Fd, writable: bool)
    ensures Register(r, fd, writable).tokens.Keys == r.tokens.Keys + {fd}
    ensures Register(r, fd, writable).adds == r.adds + 1
  {
  }

  lemma RegisterKeeps(r: Registry, fd: Fd, writable: bool)
    requires RegistrySound(r) && fd !in r.tokens && r.adds + 1 < U64 - 1
    ensures RegistrySound(Register(r, fd, writable)) && Evolves(r, Register(r, fd, writable))
  {
  }

  lemma BurnKeeps(r: Registry)
    requires RegistrySound(r) && r.adds + 1 < U64 - 1
    ensures RegistrySound(Burn(r)) && Evolves(r, Burn(r))
  {
  }

  lemma UnregisterKeeps(r: Registry, gone: set<Fd>)
    requires RegistrySound(r)
    ensures RegistrySound(Unregister(r, gone)) && Evolves(r, Unregister(r, gone))
    ensures Unregister(r, gone).tokens.Keys == r.tokens.Keys - gone
  {
  }

  /** A token that resolves after any number of steps has named the same descriptor at every
      moment in between: its registration was never dropped, whatever happened to the number. */
  lemma ResolvesOnlyIfContinuous(batch: Registry, between: Registry, dispatch: Registry, token: nat)
    requires RegistrySound(batch) && RegistrySound(between) && RegistrySound(dispatch)
    requires Evolves(batch, between) && Evolves(between, dispatch)
    requires token in batch.fds && token in dispatch.fds
    ensures dispatch.fds[token] == batch.fds[token]
    ensures token in between.fds && between.fds[token] == batch.fds[token]
    ensures var fd := batch.fds[token]; fd in between.tokens && between.tokens[fd] == token
  {
  }

  class Reactor {
    var nextToken: nat
    var tokens: map<Fd, nat>
    var fds: map<nat, Fd>
    /** Kernel-side write interest, and the number of tokens handed out. */
    ghost var writable: map<Fd, bool>
    ghost var adds: nat

    ghost function State(): Registry
      reads this
    {
      Registry(tokens, fds, nextToken, writable, adds)
    }

    constructor ()
      ensures State() == NO_REGISTRATIONS
    {
      nextToken := 1;
      tokens := map[];
      fds := map[];
      writable := map[];
      adds := 0;
    }

    /** `accepted` is the kernel's answer. */
    method Add(fd: Fd, interest: bool, accepted: bool) returns (ok: bool)
      modifies this
      ensures ok == accepted
      ensures State() == if ok then Register(old(State()), fd, interest) else Burn(old(State()))
    {
      var token := nextToken;
      nextToken := Max((token + 1) % U64, 1);
      if !accepted {
        adds := adds + 1;
        return false;
      }
      ok := true;
      tokens := tokens[fd := token];
      fds := fds[token := fd];
      writable := writable[fd := interest];
      adds := adds + 1;
    }

    method Modify(fd: Fd, interest: bool, accepted: bool) returns (ok: bool)
      modifies this`writable
      ensures ok == (fd in tokens && accepted)
      ensures State() == if ok then Rearm(old(State()), fd, interest) else old(State())
    {
      if fd !in tokens || !accepted {
        return false;
      }
      writable := writable[fd := interest];
      ok := true;
    }

    method Remove(fd: Fd)
      requires RegistrySound(State())
      modifies this
      ensures State() == Unregister(old(State()), {fd})
    {
      if fd in tokens {
        var token := tokens[fd];
        tokens := tokens - {fd};
        fds := fds - {token};
      }
      writable := writable - {fd};
      assert fds == Unregister(old(State()), {fd}).fds;
      assert tokens == Unregister(old(State()), {fd}).tokens;
    }

    function FdForToken(token: nat): (fd: Option<Fd>)
      reads this
      ensures fd == if token in State().fds then Some(State().fds[token]) else None
    {
      if token in fds then Some(fds[token]) else None
    }
  }
}
