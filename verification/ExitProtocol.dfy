/** How sessions leave the Holder (crates/persistd/src/server.rs, holder/reconcile.rs): the row is
    closed first, and stays closed, as long as operations on one session keep out of each other's
    way. Crashes may come anywhere. */
module ExitProtocol {
  import opened Bytes
  import opened SessionStore
  import opened DaemonLifecycle

  predicate WasPersisted(r: Retirement)
  {
    r.row.Some? && r.row.value.status.Closed? && r.row.value.exitCode == Some(r.code)
  }

  /** Whenever a session left the Holder, its row was already closed with its exit code. */
  ghost predicate PersistedFirst(w: World)
  {
    forall i :: 0 <= i < |w.retired| ==> WasPersisted(w.retired[i])
  }

  /** And so it stays until the session is started again. */
  ghost predicate StaysOnRecord(w: World)
  {
    forall id :: id in w.ended ==> id !in HolderIds(w) && Records(w.rows, id, w.ended[id])
  }

  // ---- Who is at work on a session ------------------------------------------------------------

  predicate IsRestoring(w: World, t: Thread, id: Id)
  {
    OpOf(w, t) == Some(Restoring(id))
  }

  predicate IsObserved(w: World, t: Thread, id: Id)
  {
    OpOf(w, t).Some? && OpOf(w, t).value.Observed? && OpOf(w, t).value.id == id
  }

  /** The thread has persisted this exit and not got round to retiring the session. */
  predicate IsPending(w: World, t: Thread, id: Id)
  {
    && OpOf(w, t).Some?
    && (OpOf(w, t).value == Persisted(id)
        || ((OpOf(w, t).value.Retiring? || OpOf(w, t).value.Passed?) && id in OpOf(w, t).value.exits))
  }

  ghost predicate BeingCreated(w: World, id: Id)
  {
    exists t :: IsCreating(w, t) && OpOf(w, t).value.id == id
  }

  ghost predicate BeingRestored(w: World, id: Id)
  {
    exists t :: IsRestoring(w, t, id)
  }

  ghost predicate BeingEnded(w: World, id: Id)
  {
    exists t :: IsObserved(w, t, id) || IsPending(w, t, id)
  }

  /** The waiting pass knows this session, as running or not. */
  predicate Snapped(w: World, id: Id)
  {
    Snapshot(w).Some? && id in Snapshot(w).value
  }

  predicate SnappedRunning(w: World, id: Id)
  {
    Snapped(w, id) && Snapshot(w).value[id].None?
  }

  /** A creation of this session was given up, and no pass has found the session since. */
  predicate OutOfSight(w: World, id: Id)
  {
    w.daemon.Some? && id in w.daemon.value.lost
  }

  /** No two operations overlap on one session:
      - no session is closed while it is being created or restored, or while a pass is under way
        that took it for running;
      - no session is restored while it is being closed or is part of a pass;
      - no pass begins while a session that has exited is still being restored.
      And no session is closed that is left over from a creation that was given up, until a pass has
      found it and hidden it. */
  ghost predicate Orderly(w: World, step: Step)
  {
    match step
    case Observe(_, id, _) =>
      !BeingCreated(w, id) && !BeingRestored(w, id) && !SnappedRunning(w, id) && !OutOfSight(w, id)
    case RestoreSession(_, id) => !BeingEnded(w, id) && !Snapped(w, id)
    case TakeSnapshot => forall id :: BeingRestored(w, id) ==> ExitOf(w, id).None?
    case _ => true
  }

  ghost predicate OrderlyRun(w: World, steps: seq<Step>)
    decreases |steps|
  {
    steps == [] || (Orderly(w, steps[0]) && OrderlyRun(Next(w, steps[0]), steps[1..]))
  }

  // ---- What orderly steps keep ------------------------------------------------------------------

  /** In the Holder without a row, and nobody is about to add one. */
  ghost predicate Stray(w: World, id: Id)
  {
    id in HolderIds(w) && id !in w.rows && !BeingCreated(w, id)
  }

  predicate Hidden(w: World, id: Id)
  {
    w.daemon.Some? && (id in w.daemon.value.orphans || id in w.daemon.value.lost)
  }

  /** Strays are hidden from clients, or will be before there are any, unless their creation was given
      up and no pass has found them since. */
  ghost predicate StraysHidden(w: World)
  {
    w.daemon.Some? ==>
      match OpOf(w, MAIN)
      case Some(Snapshotted(entries)) =>
        forall id :: Stray(w, id) ==> (id in entries || id in w.daemon.value.lost) && (Serving(w) ==> Hidden(w, id))
      case Some(Passed(found, _)) =>
        forall id :: Stray(w, id) ==> (id in found || id in w.daemon.value.lost) && (Serving(w) ==> Hidden(w, id))
      case _ => forall id :: Stray(w, id) ==> Hidden(w, id)
  }

  /** What is known of a session somebody is closing: it has a row and has exited. */
  ghost predicate Final(w: World, id: Id)
  {
    && id in w.rows
    && (id in HolderIds(w) ==> ExitOf(w, id).Some?)
    && !SnappedRunning(w, id)
    && forall t :: !IsRestoring(w, t, id)
  }

  predicate Agrees(w: World, id: Id, code: int)
  {
    && (id in HolderIds(w) ==> ExitOf(w, id) == Some(code))
    && (id in w.ended ==> w.ended[id] == code)
  }

  ghost predicate ClosersSound(w: World)
  {
    && (forall t, id :: IsObserved(w, t, id) ==> Final(w, id) && Agrees(w, id, OpOf(w, t).value.code))
    && (forall t, id :: IsPending(w, t, id) ==> Final(w, id) && Recorded(w, id))
  }

  predicate Recorded(w: World, id: Id)
  {
    id in HolderIds(w) && ExitOf(w, id).Some? ==> Records(w.rows, id, ExitOf(w, id).value)
  }

  ghost predicate SnapshotSound(w: World)
  {
    Snapshot(w).Some? ==>
      forall id :: id in Snapshot(w).value ==>
        && id < w.daemon.value.next
        && (if Snapshot(w).value[id].Some?
            then Agrees(w, id, Snapshot(w).value[id].value) && !BeingRestored(w, id)
            else id !in w.ended)
  }

  ghost predicate RestoringSound(w: World)
  {
    forall t, id :: IsRestoring(w, t, id) ==> id in w.rows && id !in w.ended
  }

  ghost predicate Sound(w: World)
  {
    && StraysHidden(w) && ClosersSound(w) && SnapshotSound(w) && RestoringSound(w)
    && StaysOnRecord(w) && PersistedFirst(w)
  }

  /** Nothing changes but that some threads are done with what they did, or further on with it. */
  ghost predicate FewerOps(w: World, w': World)
  {
    && w'.rows == w.rows && w'.holder == w.holder && w'.ended == w.ended && w'.retired == w.retired
    && w'.daemon.Some? && w.daemon.Some? && w'.daemon.value.next == w.daemon.value.next
    && (Snapshot(w').Some? ==> Snapshot(w') == Snapshot(w))
    && forall t, id ::
         && (IsObserved(w', t, id) ==> IsObserved(w, t, id) && OpOf(w', t) == OpOf(w, t))
         && (IsPending(w', t, id) ==> IsPending(w, t, id))
         && (IsRestoring(w', t, id) ==> IsRestoring(w, t, id))
  }

  lemma FewerOpsKeep(w: World, w': World)
    requires Sound(w) && FewerOps(w, w')
    ensures ClosersSound(w') && SnapshotSound(w') && RestoringSound(w') && StaysOnRecord(w') && PersistedFirst(w')
  {
    forall id | Final(w, id) ensures Final(w', id) {
      forall t ensures !IsRestoring(w', t, id) {
        assert !IsRestoring(w, t, id);
      }
    }
    forall t, id | IsPending(w', t, id) ensures Final(w', id) && Recorded(w', id) {
      assert Final(w, id);
    }
    forall t, id | IsObserved(w', t, id) ensures Final(w', id) && Agrees(w', id, OpOf(w', t).value.code) {
      assert Final(w, id);
    }
    forall id | BeingRestored(w', id) ensures BeingRestored(w, id) {
      var t :| IsRestoring(w', t, id);
      assert IsRestoring(w, t, id);
    }
  }

  /** A pending retirement, carried out. */
  lemma RetireKeeps(w: World, t: Thread, id: Id)
    requires Sound(w) && IsPending(w, t, id)
    ensures Sound(Retire(w, id))
  {
    var w' := Retire(w, id);
    if ExitOf(w, id).Some? {
      assert Final(w, id) && Recorded(w, id);
      assert forall u :: OpOf(w', u) == OpOf(w, u);
      assert HolderIds(w') == HolderIds(w) - {id};
      assert forall other :: other in HolderIds(w') ==> ExitOf(w', other) == ExitOf(w, other);
      RetireKeepsClosers(w, t, id);
      forall other | Stray(w', other) ensures Stray(w, other) {
        StillCreated(w, w', other);
      }
      forall other | BeingRestored(w', other) ensures BeingRestored(w, other) {
        var u :| IsRestoring(w', u, other);
        assert IsRestoring(w, u, other);
      }
      forall u, other | IsRestoring(w', u, other) ensures other in w'.rows && other !in w'.ended {
        assert IsRestoring(w, u, other);
      }
      assert SnapshotSound(w');
      hide Final, ClosersSound, SnapshotSound, RestoringSound;
    }
  }

  lemma StillCreated(w: World, w': World, id: Id)
    requires forall t :: IsCreating(w, t) && OpOf(w, t).value.id == id ==> OpOf(w', t) == OpOf(w, t)
    ensures BeingCreated(w, id) ==> BeingCreated(w', id)
  {
    if BeingCreated(w, id) {
      var t :| IsCreating(w, t) && OpOf(w, t).value.id == id;
      assert IsCreating(w', t) && OpOf(w', t).value.id == id;
    }
  }

  lemma RetireKeepsClosers(w: World, t: Thread, id: Id)
    requires Sound(w) && IsPending(w, t, id) && ExitOf(w, id).Some?
    ensures ClosersSound(Retire(w, id))
  {
    var w' := Retire(w, id);
    assert forall u :: OpOf(w', u) == OpOf(w, u);
    forall other | Final(w, other) ensures Final(w', other) {
      forall u ensures !IsRestoring(w', u, other) {
        assert !IsRestoring(w, u, other);
      }
    }
    forall u, other | IsObserved(w', u, other) ensures Final(w', other) && Agrees(w', other, OpOf(w', u).value.code) {
      assert IsObserved(w, u, other);
    }
    forall u, other | IsPending(w', u, other) ensures Final(w', other) && Recorded(w', other) {
      assert IsPending(w, u, other);
    }
  }

  // ---- Step by step -------------------------------------------------------------------------------

  lemma ListedKeeps(w: World, id: Id)
    requires Sound(w)
    ensures Sound(Next(w, RetireListed(id)))
  {
    if OpOf(w, MAIN).Some? && OpOf(w, MAIN).value.Retiring? && id in OpOf(w, MAIN).value.exits {
      var w1 := Retire(w, id);
      var w' := Next(w, RetireListed(id));
      assert IsPending(w, MAIN, id);
      RetireKeeps(w, MAIN, id);
      assert OpOf(w1, MAIN) == OpOf(w, MAIN);
      MainMovesOn(w1, w');
    }
  }

  /** Only the main thread's operation changes, from one that hides strays to another. */
  lemma MainMovesOn(w: World, w': World)
    requires Sound(w) && OpOf(w, MAIN).Some?
    requires w'.rows == w.rows && w'.holder == w.holder && w'.ended == w.ended && w'.retired == w.retired
    requires w'.daemon.Some? && w.daemon.Some? && w'.daemon.value.next == w.daemon.value.next
    requires forall t :: t != MAIN ==> OpOf(w', t) == OpOf(w, t)
    requires !IsCreating(w, MAIN) && Snapshot(w').None?
    requires forall id :: IsPending(w', MAIN, id) ==> IsPending(w, MAIN, id)
    requires OpOf(w', MAIN).None? || OpOf(w', MAIN).value.Retiring?
    requires w.daemon.value.lost <= w'.daemon.value.lost + w'.daemon.value.orphans
    requires match OpOf(w, MAIN).value
             case Passed(found, _) => w'.daemon.value.orphans == found
             case Snapshotted(_) => Serving(w) && w'.daemon.value.orphans == w.daemon.value.orphans
             case _ => w'.daemon.value.orphans == w.daemon.value.orphans
    ensures Sound(w')
  {
    assert FewerOps(w, w');
    FewerOpsKeep(w, w');
    forall id | Stray(w', id) ensures Stray(w, id) {
      StillCreated(w, w', id);
    }
    hide ClosersSound, SnapshotSound, RestoringSound, FewerOps;
  }

  lemma PassEnds(w: World)
    requires Sound(w)
    ensures Sound(Next(w, FinishPass)) && Sound(Next(w, PublishOrphans))
  {
    if OpOf(w, MAIN).Some? && OpOf(w, MAIN).value.Passed? {
      MainMovesOn(w, Next(w, PublishOrphans));
    }
    if OpOf(w, MAIN).Some? && OpOf(w, MAIN).value.Retiring? && (Serving(w) || OpOf(w, MAIN).value.exits == {}) {
      MainMovesOn(w, Next(w, FinishPass));
    }
  }

  /** A client thread drops what it was doing. */
  lemma ThreadLeaves(w: World, t: Thread)
    requires Sound(w) && OpOf(w, t).Some? && (OpOf(w, t).value.Observed? || OpOf(w, t).value.Persisted?
             || OpOf(w, t).value.Restoring?)
    ensures Sound(DropOp(w, t))
  {
    var w' := DropOp(w, t);
    assert forall u :: u != t ==> OpOf(w', u) == OpOf(w, u);
    assert FewerOps(w, w');
    FewerOpsKeep(w, w');
    forall id | Stray(w', id) ensures Stray(w, id) {
      StillCreated(w, w', id);
    }
    hide ClosersSound, SnapshotSound, RestoringSound, FewerOps;
  }

  lemma ObservedKeeps(w: World, t: Thread)
    requires Sound(w)
    ensures Sound(Next(w, RetireObserved(t)))
  {
    if OpOf(w, t).Some? && OpOf(w, t).value.Persisted? {
      var id := OpOf(w, t).value.id;
      assert IsPending(w, t, id);
      RetireKeeps(w, t, id);
      assert OpOf(Retire(w, id), t) == OpOf(w, t);
      hide Sound;
      ThreadLeaves(Retire(w, id), t);
    }
  }

  lemma AbandonKeeps(w: World, t: Thread)
    requires Sound(w)
    ensures Sound(Abandon(w, t))
  {
    hide Sound;
    if OpOf(w, t).Some? {
      match OpOf(w, t).value {
        case Creating(id) => CreatorGivesUp(w, t, id);
        case Observed(_, _, _) => ThreadLeaves(w, t);
        case Persisted(_) => ThreadLeaves(w, t);
        case Restoring(_) => ThreadLeaves(w, t);
        case _ =>
      }
    }
  }

  /** What is left over from a creation is out of sight until the next pass. */
  lemma CreatorGivesUp(w: World, t: Thread, id: Id)
    requires Sound(w) && OpOf(w, t) == Some(Creating(id))
    ensures Sound(DropOp(w.(daemon := Some(w.daemon.value.(lost := w.daemon.value.lost + {id}))), t))
  {
    var w' := DropOp(w.(daemon := Some(w.daemon.value.(lost := w.daemon.value.lost + {id}))), t);
    assert forall u :: u != t ==> OpOf(w', u) == OpOf(w, u);
    assert FewerOps(w, w');
    FewerOpsKeep(w, w');
    forall x | x != id && Stray(w', x) ensures Stray(w, x) {
      StillCreated(w, w', x);
    }
    hide ClosersSound, SnapshotSound, RestoringSound, FewerOps;
  }

  /** Sessions exit, or the Holder is gone. */
  lemma HolderMoves(w: World, w': World)
    requires Sound(w)
    requires w'.rows == w.rows && w'.daemon == w.daemon && w'.ended == w.ended && w'.retired == w.retired
    requires HolderIds(w') <= HolderIds(w)
    requires forall id :: id in HolderIds(w') && ExitOf(w, id).Some? ==> ExitOf(w', id) == ExitOf(w, id)
    ensures Sound(w')
  {
    assert forall t :: OpOf(w', t) == OpOf(w, t);
    forall id | Stray(w', id) ensures Stray(w, id) {
      StillCreated(w, w', id);
    }
    forall id | Final(w, id) ensures Final(w', id) {
      forall t ensures !IsRestoring(w', t, id) {
        assert !IsRestoring(w, t, id);
      }
    }
    forall id | BeingRestored(w', id) ensures BeingRestored(w, id) {
      var t :| IsRestoring(w', t, id);
      assert IsRestoring(w, t, id);
    }
    forall t, id | IsRestoring(w', t, id) ensures id in w'.rows && id !in w'.ended {
      assert IsRestoring(w, t, id);
    }
    HolderMovesClosers(w, w');
    hide ClosersSound, Final, Stray, RestoringSound;
  }

  lemma HolderMovesClosers(w: World, w': World)
    requires ClosersSound(w)
    requires w'.rows == w.rows && w'.ended == w.ended && forall t :: OpOf(w', t) == OpOf(w, t)
    requires HolderIds(w') <= HolderIds(w)
    requires forall id :: id in HolderIds(w') && ExitOf(w, id).Some? ==> ExitOf(w', id) == ExitOf(w, id)
    requires forall id :: Final(w, id) ==> Final(w', id)
    ensures ClosersSound(w')
  {
    forall t, id | IsObserved(w', t, id) ensures Final(w', id) && Agrees(w', id, OpOf(w', t).value.code) {
      assert IsObserved(w, t, id);
      assert Final(w, id);
    }
    forall t, id | IsPending(w', t, id) ensures Final(w', id) && Recorded(w', id) {
      assert IsPending(w, t, id);
      assert Final(w, id);
    }
  }

  lemma CrashesKeep(w: World, id: Id, code: int)
    requires Sound(w)
    ensures Sound(Next(w, SessionExits(id, code))) && Sound(Next(w, HolderDies)) && Sound(Next(w, DaemonCrashes))
  {
    HolderMoves(w, Next(w, HolderDies));
    if id in HolderIds(w) && ExitOf(w, id).None? {
      HolderMoves(w, Next(w, SessionExits(id, code)));
    }
    assert forall t :: OpOf(Next(w, DaemonCrashes), t) == None;
  }

  lemma BootKeeps(w: World, instance: nat, next: nat)
    requires IdsSound(w) && Sound(w)
    ensures Sound(BootDaemon(w, instance, next))
  {
    BootKeepsIds(w, instance, next);
    var w' := BootDaemon(w, instance, next);
    if w' != w {
      assert forall t :: t != MAIN ==> OpOf(w', t) == None;
      assert Snapshot(w').value == w'.holder.value.sessions;
      assert HolderIds(w') == HolderIds(w);
    }
  }

  lemma SnapshotKeeps(w: World)
    requires IdsSound(w) && Sound(w) && Orderly(w, TakeSnapshot)
    ensures Sound(Next(w, TakeSnapshot))
  {
    var w' := Next(w, TakeSnapshot);
    if Free(w, MAIN) && w.holder.Some? {
      assert forall t :: t != MAIN ==> OpOf(w', t) == OpOf(w, t);
      assert RestoringSound(w') by {
        forall t, id | IsRestoring(w', t, id) ensures id in w'.rows && id !in w'.ended {
          assert IsRestoring(w, t, id);
        }
      }
      hide RestoringSound;
      SnapshotKeepsClosers(w);
      SnapshotHidesStrays(w);
      hide ClosersSound, StraysHidden;
      SnapshotIsSound(w);
    }
  }

  lemma SnapshotHidesStrays(w: World)
    requires StraysHidden(w) && Free(w, MAIN) && w.holder.Some?
    ensures StraysHidden(Next(w, TakeSnapshot))
  {
    var w' := Next(w, TakeSnapshot);
    assert Snapshot(w').value == w.holder.value.sessions;
    assert forall t :: t != MAIN ==> OpOf(w', t) == OpOf(w, t);
    forall id | Stray(w', id) ensures Stray(w, id) {
      StillCreated(w, w', id);
    }
  }

  lemma SnapshotIsSound(w: World)
    requires IdsSound(w) && StaysOnRecord(w) && Orderly(w, TakeSnapshot) && Free(w, MAIN) && w.holder.Some?
    ensures SnapshotSound(Next(w, TakeSnapshot))
  {
    var w' := Next(w, TakeSnapshot);
    assert Snapshot(w').value == w.holder.value.sessions;
    assert forall t :: t != MAIN ==> OpOf(w', t) == OpOf(w, t);
    forall id | BeingRestored(w', id) ensures BeingRestored(w, id) {
      var t :| IsRestoring(w', t, id);
      assert IsRestoring(w, t, id);
    }
    assert forall id :: id in w.holder.value.sessions ==> id in HolderIds(w) && id < w.daemon.value.next;
    hide IdsSound, BeingRestored, Next;
    assert w'.ended == w.ended && w'.holder == w.holder;
  }

  lemma SnapshotKeepsClosers(w: World)
    requires ClosersSound(w) && Free(w, MAIN) && w.holder.Some?
    ensures ClosersSound(Next(w, TakeSnapshot))
  {
    var w' := Next(w, TakeSnapshot);
    assert forall t :: t != MAIN ==> OpOf(w', t) == OpOf(w, t);
    forall id | Final(w, id) ensures Final(w', id) {
      forall t ensures !IsRestoring(w', t, id) {
        assert !IsRestoring(w, t, id);
      }
    }
    forall t, id | IsObserved(w', t, id) ensures Final(w', id) && Agrees(w', id, OpOf(w', t).value.code) {
      assert IsObserved(w, t, id);
    }
    forall t, id | IsPending(w', t, id) ensures Final(w', id) && Recorded(w', id) {
      assert IsPending(w, t, id);
    }
  }

  // ---- Steps that write rows ----------------------------------------------------------------------

  /** A pass that got as far as `done` leaves a recorded end on record exactly when its snapshot does
      not say otherwise. */
  lemma PassKeepsRecordIffCurrent(rows: Rows, entries: map<Id, Option<int>>, contexts: map<Id, Context>, instance: nat,
      now: nat, done: set<Id>, id: Id, code: int)
    requires Records(rows, id, code)
    ensures Records(Reconciled(rows, entries, contexts, instance, now, done), id, code) <==>
              (id in done && id in entries && !Conflicts(rows[id], instance) ==> entries[id] == Some(code))
  {
  }

  /** The row changes keep every recorded end that is still of interest. */
  ghost predicate EndsKept(w: World, rows: Rows)
  {
    && w.rows.Keys <= rows.Keys
    && (forall id :: id in w.ended ==> Records(rows, id, w.ended[id]))
    && (forall t, id :: IsPending(w, t, id) && id in HolderIds(w) && ExitOf(w, id).Some? ==>
          Records(rows, id, ExitOf(w, id).value))
  }

  lemma RowsKeep(w: World, rows: Rows)
    requires Sound(w) && EndsKept(w, rows)
    ensures Sound(w.(rows := rows))
  {
    var w' := w.(rows := rows);
    assert forall t :: OpOf(w', t) == OpOf(w, t);
    forall id | Stray(w', id) ensures Stray(w, id) {
      StillCreated(w, w', id);
    }
    forall id | BeingRestored(w', id) ensures BeingRestored(w, id) {
      var t :| IsRestoring(w', t, id);
      assert IsRestoring(w, t, id);
    }
    forall t, id | IsRestoring(w', t, id) ensures id in w'.rows && id !in w'.ended {
      assert IsRestoring(w, t, id);
    }
    RowsKeepClosers(w, rows);
    hide ClosersSound, Stray, RestoringSound;
  }

  lemma RowsKeepClosers(w: World, rows: Rows)
    requires ClosersSound(w) && EndsKept(w, rows)
    ensures ClosersSound(w.(rows := rows))
  {
    var w' := w.(rows := rows);
    assert forall t :: OpOf(w', t) == OpOf(w, t);
    forall id | Final(w, id) ensures Final(w', id) {
      forall t ensures !IsRestoring(w', t, id) {
        assert !IsRestoring(w, t, id);
      }
    }
    forall t, id | IsObserved(w', t, id) ensures Final(w', id) && Agrees(w', id, OpOf(w', t).value.code) {
      assert IsObserved(w, t, id);
    }
    forall t, id | IsPending(w', t, id) ensures Final(w', id) && Recorded(w', id) {
      assert IsPending(w, t, id);
    }
  }

  lemma PassKeepsEnds(w: World, contexts: map<Id, Context>, now: nat, done: set<Id>)
    requires Sound(w) && Snapshot(w).Some?
    ensures EndsKept(w, Reconciled(w.rows, Snapshot(w).value, contexts, w.daemon.value.instance, now, done))
  {
    hide Reconciled, Records, StraysHidden, RestoringSound, PersistedFirst;
    var rows := Reconciled(w.rows, Snapshot(w).value, contexts, w.daemon.value.instance, now, done);
    forall id | id in w.ended ensures Records(rows, id, w.ended[id]) {
      PassKeepsRecordIffCurrent(w.rows, Snapshot(w).value, contexts, w.daemon.value.instance, now, done, id,
        w.ended[id]);
    }
    forall t, id | IsPending(w, t, id) && id in HolderIds(w) && ExitOf(w, id).Some?
      ensures Records(rows, id, ExitOf(w, id).value)
    {
      assert Final(w, id) && Recorded(w, id);
      PassKeepsRecordIffCurrent(w.rows, Snapshot(w).value, contexts, w.daemon.value.instance, now, done, id,
        ExitOf(w, id).value);
    }
    assert rows.Keys == w.rows.Keys by { PassKeys(w, contexts, now, done); }
  }

  lemma PassKeys(w: World, contexts: map<Id, Context>, now: nat, done: set<Id>)
    requires Snapshot(w).Some?
    ensures Reconciled(w.rows, Snapshot(w).value, contexts, w.daemon.value.instance, now, done).Keys == w.rows.Keys
  {
    hide RowAfter;
  }

  /** The exits a pass has just written are pending in good order. */
  lemma ExitsAreRecorded(w: World, contexts: map<Id, Context>, now: nat, id: Id)
    requires Sound(w) && Snapshot(w).Some? && id in Exits(w.rows, Snapshot(w).value, w.daemon.value.instance)
    ensures var rows := Reconciled(w.rows, Snapshot(w).value, contexts, w.daemon.value.instance, now, w.rows.Keys);
            var code := Snapshot(w).value[id];
            code.Some? && Records(rows, id, code.value) && Agrees(w, id, code.value) && !BeingRestored(w, id)
  {
    hide StraysHidden, ClosersSound, RestoringSound, PersistedFirst, StaysOnRecord, BeingRestored;
  }

  lemma PassKeeps(w: World, contexts: map<Id, Context>, now: nat)
    requires Sound(w)
    ensures Sound(WriteTable(w, contexts, now))
  {
    if Snapshot(w).Some? {
      var w' := WriteTable(w, contexts, now);
      var w1 := w.(rows := w'.rows);
      PassKeepsEnds(w, contexts, now, w.rows.Keys);
      RowsKeep(w, w'.rows);
      forall id | id in Exits(w.rows, Snapshot(w).value, w.daemon.value.instance)
        ensures Final(w', id) && Recorded(w', id)
      {
        ExitsAreRecorded(w, contexts, now, id);
        forall t ensures !IsRestoring(w', t, id) {
          assert t != MAIN ==> OpOf(w', t) == OpOf(w, t);
          assert !IsRestoring(w, t, id);
        }
      }
      PassMovesOn(w, w1, w');
    }
  }

  lemma PassMovesOn(w: World, w1: World, w': World)
    requires Sound(w) && Sound(w1) && Snapshot(w).Some? && w1 == w.(rows := w1.rows) && w1.rows.Keys == w.rows.Keys
    requires var entries := Snapshot(w).value;
             var instance := w.daemon.value.instance;
             w' == SetOp(w1, MAIN, Passed(Orphaned(w.rows, entries, instance), Exits(w.rows, entries, instance)))
    requires forall id ::
               id in Exits(w.rows, Snapshot(w).value, w.daemon.value.instance) ==> Final(w', id) && Recorded(w', id)
    ensures Sound(w')
  {
    assert forall t :: OpOf(w1, t) == OpOf(w, t);
    assert forall t :: t != MAIN ==> OpOf(w', t) == OpOf(w1, t);
    forall id | Stray(w', id) ensures Stray(w1, id) {
      StillCreated(w1, w', id);
    }
    forall t, id | IsRestoring(w', t, id) ensures id in w'.rows && id !in w'.ended {
      assert IsRestoring(w1, t, id);
    }
    forall id | Final(w1, id) ensures Final(w', id) {
      forall t ensures !IsRestoring(w', t, id) {
        assert !IsRestoring(w1, t, id);
      }
    }
    forall t, id | IsObserved(w', t, id) ensures Final(w', id) && Agrees(w', id, OpOf(w', t).value.code) {
      assert IsObserved(w1, t, id);
    }
    forall t, id | IsPending(w', t, id) ensures Final(w', id) && Recorded(w', id) {
      if t != MAIN { assert IsPending(w1, t, id); }
    }
    hide Exits, RestoringSound, Final;
  }

  lemma PartKeeps(w: World, contexts: map<Id, Context>, now: nat, done: set<Id>)
    requires Sound(w)
    ensures Sound(WritePart(w, contexts, now, done))
  {
    if Snapshot(w).Some? {
      var w' := WritePart(w, contexts, now, done);
      PassKeepsEnds(w, contexts, now, done);
      RowsKeep(w, w'.rows);
      var w1 := w.(rows := w'.rows);
      hide Sound, Reconciled;
      assert OpOf(w1, MAIN) == OpOf(w, MAIN);
      if Serving(w) { MainMovesOn(w1, w'); } else { CrashesKeep(w1, 0, 0); }
    }
  }

  lemma LostKeeps(w: World)
    requires Sound(w)
    ensures Sound(Next(w, HolderLost))
  {
    hide Sound;
    if Serving(w) && w.holder.None? && (OpOf(w, MAIN).None? || Snapshot(w).Some?) {
      var rows := Reconciled(w.rows, map[], map[], w.daemon.value.instance, 0, w.rows.Keys);
      LostRows(w, rows);
      RowsKeep(w, rows);
      var w1 := w.(rows := rows);
      hide Reconciled, EndsKept;
      assert FewerOps(w1, Next(w, HolderLost));
      LostMovesOn(w1, Next(w, HolderLost));
    }
  }

  /** Marking everything active as lost leaves recorded ends alone. */
  lemma LostRows(w: World, rows: Rows)
    requires Sound(w) && w.holder.None? && w.daemon.Some?
    requires rows == Reconciled(w.rows, map[], map[], w.daemon.value.instance, 0, w.rows.Keys)
    ensures EndsKept(w, rows)
  {
    hide StraysHidden, ClosersSound, SnapshotSound, RestoringSound, PersistedFirst;
  }

  lemma LostMovesOn(w: World, w': World)
    requires Sound(w) && FewerOps(w, w') && HolderIds(w') == {}
    ensures Sound(w')
  {
    FewerOpsKeep(w, w');
    assert forall id :: !Stray(w', id);
    hide FewerOps, ClosersSound, SnapshotSound, RestoringSound, Stray, StaysOnRecord;
  }

  lemma PersistKeeps(w: World, t: Thread, now: nat)
    requires Sound(w)
    ensures Sound(Next(w, PersistExit(t, now)))
  {
    if OpOf(w, t).Some? && OpOf(w, t).value.Observed? {
      var w' := Next(w, PersistExit(t, now));
      var w1 := w.(rows := w'.rows);
      var id := OpOf(w, t).value.id;
      assert IsObserved(w, t, id);
      assert Final(w, id);
      assert w'.rows.Keys == w.rows.Keys;
      forall u, x | IsPending(w, u, x) && x in HolderIds(w) && ExitOf(w, x).Some?
        ensures Records(w'.rows, x, ExitOf(w, x).value)
      {
        assert Recorded(w, x);
      }
      assert EndsKept(w, w'.rows);
      RowsKeep(w, w'.rows);
      hide StraysHidden, SnapshotSound, RestoringSound, PersistedFirst, EndsKept;
      assert Final(w1, id) && Recorded(w1, id) by {
        forall u ensures !IsRestoring(w1, u, id) { assert !IsRestoring(w, u, id); }
      }
      hide Sound;
      assert OpOf(w1, t) == OpOf(w, t);
      ThreadMovesOn(w1, t, Persisted(id));
    }
  }

  /** A client thread goes on to an operation that claims no more than is known. */
  lemma ThreadMovesOn(w: World, t: Thread, op: Op)
    requires Sound(w) && w.daemon.Some? && (op.Observed? || op.Persisted?) && Final(w, op.id)
    requires op.Observed? ==> Agrees(w, op.id, op.code)
    requires op.Persisted? ==> Recorded(w, op.id)
    requires OpOf(w, t).None? || OpOf(w, t).value.Observed?
    requires t == MAIN && OpOf(w, t).None? ==> Serving(w)
    ensures Sound(SetOp(w, t, op))
  {
    var w' := SetOp(w, t, op);
    assert forall u :: u != t ==> OpOf(w', u) == OpOf(w, u);
    forall id | Stray(w', id) ensures Stray(w, id) {
      StillCreated(w, w', id);
    }
    forall id | BeingRestored(w', id) ensures BeingRestored(w, id) {
      var u :| IsRestoring(w', u, id);
      assert IsRestoring(w, u, id);
    }
    forall u, id | IsRestoring(w', u, id) ensures id in w'.rows && id !in w'.ended {
      assert IsRestoring(w, u, id);
    }
    forall id | Final(w, id) ensures Final(w', id) {
      forall u ensures !IsRestoring(w', u, id) { assert !IsRestoring(w, u, id); }
    }
    forall u, id | IsObserved(w', u, id) ensures Final(w', id) && Agrees(w', id, OpOf(w', u).value.code) {
      if u != t { assert IsObserved(w, u, id); }
    }
    forall u, id | IsPending(w', u, id) ensures Final(w', id) && Recorded(w', id) {
      if u != t { assert IsPending(w, u, id); }
    }
    hide Final, Stray, RestoringSound;
  }

  lemma ObserveKeeps(w: World, t: Thread, id: Id, context: Context)
    requires Sound(w) && Orderly(w, Observe(t, id, context))
    ensures Sound(Next(w, Observe(t, id, context)))
  {
    if Free(w, t) && id !in w.daemon.value.orphans && ExitOf(w, id).Some? {
      hide ClosersSound, SnapshotSound, RestoringSound, PersistedFirst;
      assert !Stray(w, id);
      assert id in w.rows;
      assert Final(w, id) by {
        forall u ensures !IsRestoring(w, u, id) {
        }
      }
      assert Agrees(w, id, ExitOf(w, id).value);
      hide Sound;
      ThreadMovesOn(w, t, Observed(id, ExitOf(w, id).value, context));
    }
  }

  lemma ReopenKeeps(w: World, t: Thread)
    requires Sound(w)
    ensures Sound(Next(w, ReopenRow(t)))
  {
    if OpOf(w, t).Some? && OpOf(w, t).value.Restoring? && OpOf(w, t).value.id in w.rows {
      var id := OpOf(w, t).value.id;
      var w' := Next(w, ReopenRow(t));
      var w1 := w.(rows := w'.rows);
      assert IsRestoring(w, t, id);
      forall u, x | IsPending(w, u, x) && x in HolderIds(w) && ExitOf(w, x).Some?
        ensures Records(w'.rows, x, ExitOf(w, x).value)
      {
        assert Final(w, x) && Recorded(w, x);
      }
      assert w.rows.Keys <= w'.rows.Keys;
      assert EndsKept(w, w'.rows);
      RowsKeep(w, w'.rows);
      assert OpOf(w1, t) == OpOf(w, t);
      hide Sound;
      ThreadLeaves(w1, t);
    }
  }

  // ---- Steps that start sessions ------------------------------------------------------------------

  /** A session is started under an id nobody is at work on. */
  lemma HoldKeeps(w: World, t: Thread, id: Id, op: Op)
    requires Sound(w) && Free(w, t) && w.holder.Some? && id !in HolderIds(w) && !BeingEnded(w, id) && !Snapped(w, id)
    requires op == Creating(id) || (op == Restoring(id) && id in w.rows)
    ensures Sound(SetOp(Hold(w, id), t, op))
  {
    var w' := SetOp(Hold(w, id), t, op);
    assert forall u :: u != t ==> OpOf(w', u) == OpOf(w, u);
    assert HolderIds(w') == HolderIds(w) + {id};
    assert forall x :: x in HolderIds(w) ==> ExitOf(w', x) == ExitOf(w, x);
    forall u, x | IsRestoring(w', u, x) ensures x in w'.rows && x !in w'.ended {
      if u != t { assert IsRestoring(w, u, x); }
    }
    assert RestoringSound(w') && StaysOnRecord(w') && PersistedFirst(w');
    HoldKeepsClosers(w, t, id, op);
    HoldKeepsSnapshot(w, t, id, op);
    HoldHidesStrays(w, t, id, op);
    hide ClosersSound, RestoringSound, StraysHidden, SnapshotSound, StaysOnRecord;
  }

  lemma HoldHidesStrays(w: World, t: Thread, id: Id, op: Op)
    requires StraysHidden(w) && Free(w, t) && w.holder.Some? && id !in HolderIds(w)
    requires op == Creating(id) || (op == Restoring(id) && id in w.rows)
    ensures StraysHidden(SetOp(Hold(w, id), t, op))
  {
    var w' := SetOp(Hold(w, id), t, op);
    assert forall u :: u != t ==> OpOf(w', u) == OpOf(w, u);
    assert HolderIds(w') == HolderIds(w) + {id};
    forall x | Stray(w', x) ensures Stray(w, x) {
      StillCreated(w, w', x);
      assert op.Creating? ==> IsCreating(w', t) && OpOf(w', t).value.id == id;
    }
    hide Stray;
  }

  lemma HoldKeepsSnapshot(w: World, t: Thread, id: Id, op: Op)
    requires SnapshotSound(w) && Free(w, t) && w.holder.Some? && id !in HolderIds(w) && !Snapped(w, id)
    requires op == Creating(id) || op == Restoring(id)
    ensures SnapshotSound(SetOp(Hold(w, id), t, op))
  {
    var w' := SetOp(Hold(w, id), t, op);
    assert forall u :: u != t ==> OpOf(w', u) == OpOf(w, u);
    assert HolderIds(w') == HolderIds(w) + {id};
    assert forall x :: x in HolderIds(w) ==> ExitOf(w', x) == ExitOf(w, x);
    assert Snapshot(w').Some? ==> Snapshot(w') == Snapshot(w);
    forall x | x != id && BeingRestored(w', x) ensures BeingRestored(w, x) {
      var u :| IsRestoring(w', u, x);
      assert IsRestoring(w, u, x);
    }
  }

  lemma HoldKeepsClosers(w: World, t: Thread, id: Id, op: Op)
    requires Sound(w) && Free(w, t) && w.holder.Some? && id !in HolderIds(w) && !BeingEnded(w, id) && !Snapped(w, id)
    requires op == Creating(id) || (op == Restoring(id) && id in w.rows)
    ensures ClosersSound(SetOp(Hold(w, id), t, op))
  {
    var w' := SetOp(Hold(w, id), t, op);
    assert forall u :: u != t ==> OpOf(w', u) == OpOf(w, u);
    assert HolderIds(w') == HolderIds(w) + {id};
    assert forall x :: x in HolderIds(w) ==> ExitOf(w', x) == ExitOf(w, x);
    forall x | x != id && Final(w, x) ensures Final(w', x) {
      forall u ensures !IsRestoring(w', u, x) { assert !IsRestoring(w, u, x); }
    }
    forall u, x | IsObserved(w', u, x) ensures Final(w', x) && Agrees(w', x, OpOf(w', u).value.code) {
      assert IsObserved(w, u, x);
    }
    forall u, x | IsPending(w', u, x) ensures Final(w', x) && Recorded(w', x) {
      assert IsPending(w, u, x);
    }
  }

  lemma NextGrows(w: World, next: nat)
    requires Sound(w) && w.daemon.Some? && w.daemon.value.next <= next
    ensures Sound(w.(daemon := Some(w.daemon.value.(next := next))))
  {
    var w' := w.(daemon := Some(w.daemon.value.(next := next)));
    assert forall t :: OpOf(w', t) == OpOf(w, t);
    forall id | Final(w, id) ensures Final(w', id) {
      forall t ensures !IsRestoring(w', t, id) { assert !IsRestoring(w, t, id); }
    }
    HolderMovesClosers(w, w');
    forall id | Stray(w', id) ensures Stray(w, id) {
      StillCreated(w, w', id);
    }
    forall id | BeingRestored(w', id) ensures BeingRestored(w, id) {
      var t :| IsRestoring(w', t, id);
      assert IsRestoring(w, t, id);
    }
    forall t, id | IsRestoring(w', t, id) ensures id in w'.rows && id !in w'.ended {
      assert IsRestoring(w, t, id);
    }
    hide ClosersSound, RestoringSound, Stray;
  }

  lemma CreateKeeps(w: World, t: Thread)
    requires IdsSound(w) && Sound(w)
    ensures Sound(StartCreating(w, t))
  {
    if Free(w, t) && w.daemon.value.next < U32 - 1 {
      var id := w.daemon.value.next;
      var w1 := w.(daemon := Some(w.daemon.value.(next := id + 1)));
      NextGrows(w, id + 1);
      assert OpOf(w1, t) == OpOf(w, t);
      if w.holder.Some? && id !in w.holder.value.sessions {
        assert forall u :: OpOf(w1, u) == OpOf(w, u);
        assert !Snapped(w1, id);
        assert !BeingEnded(w1, id) by {
          forall u ensures !IsObserved(w1, u, id) && !IsPending(w1, u, id) {
            assert IsObserved(w, u, id) ==> Final(w, id);
            assert IsPending(w, u, id) ==> Final(w, id);
          }
        }
        hide Sound, IdsSound;
        HoldKeeps(w1, t, id, Creating(id));
      }
    }
  }

  lemma RestoreKeeps(w: World, t: Thread, id: Id)
    requires Sound(w) && Orderly(w, RestoreSession(t, id))
    ensures Sound(StartRestoring(w, t, id))
  {
    if Free(w, t) && w.holder.Some? && id !in w.holder.value.sessions && id in w.rows && w.rows[id].status.Closed? {
      hide Sound, BeingEnded;
      HoldKeeps(w, t, id, Restoring(id));
      NextGrows(SetOp(Hold(w, id), t, Restoring(id)), Max(w.daemon.value.next, id + 1));
    }
  }

  lemma CommitKeeps(w: World, t: Thread, cwd: Option<Text>, report: bool)
    requires IdsSound(w) && Sound(w)
    ensures Sound(FinishCreating(w, t, cwd, report))
  {
    if OpOf(w, t).Some? && OpOf(w, t).value.Creating? {
      var id := OpOf(w, t).value.id;
      var w' := FinishCreating(w, t, cwd, report);
      var w1 := w.(rows := w'.rows);
      assert IsCreating(w, t);
      assert id !in w.rows;
      forall u, x | IsPending(w, u, x) && x in HolderIds(w) && ExitOf(w, x).Some?
        ensures Records(w'.rows, x, ExitOf(w, x).value)
      {
        assert Final(w, x) && Recorded(w, x);
      }
      assert EndsKept(w, w'.rows);
      RowsKeep(w, w'.rows);
      assert OpOf(w1, t) == OpOf(w, t);
      hide IdsSound, Sound, EndsKept;
      CreatorLeaves(w1, t, w');
    }
  }

  lemma CreatorLeaves(w: World, t: Thread, w': World)
    requires Sound(w) && OpOf(w, t).Some? && OpOf(w, t).value.Creating? && OpOf(w, t).value.id in w.rows
    requires w' == DropOp(w, t).(reported := w'.reported)
    ensures Sound(w')
  {
    assert forall u :: u != t ==> OpOf(w', u) == OpOf(w, u);
    assert FewerOps(w, w');
    FewerOpsKeep(w, w');
    forall id | Stray(w', id) ensures Stray(w, id) {
      StillCreated(w, w', id);
    }
    hide ClosersSound, SnapshotSound, RestoringSound, FewerOps;
  }

  // ---- Runs ---------------------------------------------------------------------------------------

  /** Every orderly step keeps what is known of sessions on their way out. */
  lemma StepKeepsExits(w: World, step: Step)
    requires IdsSound(w) && Sound(w) && Orderly(w, step)
    ensures Sound(Next(w, step))
  {
    hide IdsSound, Sound;
    match step {
      case SessionExits(id, code) => CrashesKeep(w, id, code);
      case HolderDies => CrashesKeep(w, 0, 0);
      case DaemonCrashes => CrashesKeep(w, 0, 0);
      case Boot(instance, next) => BootKeeps(w, instance, next);
      case TakeSnapshot => SnapshotKeeps(w);
      case Reconcile(contexts, now) => PassKeeps(w, contexts, now);
      case ReconcileCut(contexts, now, done) => PartKeeps(w, contexts, now, done);
      case PublishOrphans => PassEnds(w);
      case RetireListed(id) => ListedKeeps(w, id);
      case FinishPass => PassEnds(w);
      case HolderLost => LostKeeps(w);
      case CreateSession(t) => CreateKeeps(w, t);
      case CommitRow(t, cwd, report) => CommitKeeps(w, t, cwd, report);
      case Observe(t, id, context) => ObserveKeeps(w, t, id, context);
      case PersistExit(t, now) => PersistKeeps(w, t, now);
      case RetireObserved(t) => ObservedKeeps(w, t);
      case GiveUp(t) => AbandonKeeps(w, t);
      case RestoreSession(t, id) => RestoreKeeps(w, t, id);
      case ReopenRow(t) => ReopenKeeps(w, t);
    }
  }

  lemma {:induction false} RunKeepsExits(w: World, steps: seq<Step>)
    requires IdsSound(w) && Sound(w) && OrderlyRun(w, steps)
    ensures Sound(Run(w, steps))
    decreases |steps|
  {
    if steps != [] {
      hide IdsSound, Sound, Next, Orderly;
      StepKeepsIds(w, steps[0]);
      StepKeepsExits(w, steps[0]);
      RunKeepsExits(Next(w, steps[0]), steps[1..]);
    }
  }

  /** However often daemon and Holder crash in between: whenever a session has left the Holder, its
      row was already closed with its exit code, and it stays so until the session is started
      again. */
  lemma OrderlyRunsPersistFirst(steps: seq<Step>)
    requires OrderlyRun(NOTHING, steps)
    ensures PersistedFirst(Run(NOTHING, steps)) && StaysOnRecord(Run(NOTHING, steps))
  {
    assert IdsSound(NOTHING);
    assert forall t :: OpOf(NOTHING, t) == None;
    assert Sound(NOTHING);
    RunKeepsExits(NOTHING, steps);
    hide Run, OrderlyRun, StraysHidden, ClosersSound, SnapshotSound, RestoringSound;
  }

  predicate Restarts(step: Step, id: Id)
  {
    step.RestoreSession? && step.id == id
  }

  lemma StaysEnded(w: World, step: Step, id: Id)
    requires IdsSound(w) && StaysOnRecord(w) && id in w.ended && !Restarts(step, id)
    ensures id in Next(w, step).ended && Next(w, step).ended[id] == w.ended[id]
  {
    assert id in w.rows && id !in HolderIds(w);
    hide Reconciled, Exits, Orphaned, FirstFree;
  }

  /** What a session that left the Holder ended with is on record from then on, through any crashes,
      for as long as nobody restores it. */
  lemma {:induction false} OnRecordUntilRestored(w: World, steps: seq<Step>, id: Id)
    requires IdsSound(w) && Sound(w) && OrderlyRun(w, steps) && id in w.ended
    requires forall i :: 0 <= i < |steps| ==> !Restarts(steps[i], id)
    ensures Records(Run(w, steps).rows, id, w.ended[id])
    decreases |steps|
  {
    if steps != [] {
      hide IdsSound, Next, Orderly, Records;
      StaysEnded(w, steps[0], id);
      StepKeepsIds(w, steps[0]);
      StepKeepsExits(w, steps[0]);
      hide Sound;
      OnRecordUntilRestored(Next(w, steps[0]), steps[1..], id);
    }
  }
}
