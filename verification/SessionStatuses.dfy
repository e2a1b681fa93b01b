/** What the sessions table says about every session, statement by statement and run by run
    (crates/persist-metadata/src/store.rs, crates/persistd/src/holder/reconcile.rs, server.rs). */
module SessionStatuses {
  import opened Bytes
  import opened SessionStore
  import opened DaemonLifecycle

  predicate Active(status: Status)
  {
    status == Running || status == Attached || status == Detached
  }

  /** The row belongs to a Holder that is not this one. */
  predicate Foreign(r: Row, instance: nat)
  {
    r.instance != None && r.instance != Some(instance)
  }

  // ---- Passes -------------------------------------------------------------------------------------

  /** What a pass has made of a row that its snapshot shows as `seen`: nothing, running, or exited
      with a code. */
  ghost predicate Reviewed(was: Row, now: Row, seen: Option<Option<int>>, context: Context, instance: nat)
  {
    if seen == None || Foreign(was, instance) then
      if Active(was.status) then
        && now.status == Lost && now.instance == Some(instance)
        && now.exitCode == was.exitCode && now.closedAt == was.closedAt && now.cwd == was.cwd && now.env == was.env
      else now == was
    else if seen == Some(None) then
      && now.status == Running && now.exitCode == None && now.closedAt == None && now.instance == Some(instance)
      && now.cwd == was.cwd && now.env == was.env
    else
      && now.status == Closed && Some(now.exitCode) == seen && now.instance == Some(instance)
      && now.closedAt.Some? && (was.closedAt.Some? ==> now.closedAt == was.closedAt)
      && Captures(was, now, context)
  }

  /** What has been captured replaces what was there; what has not, does not. */
  ghost predicate Captures(was: Row, now: Row, context: Context)
  {
    && now.cwd == (if context.cwd == None then was.cwd else context.cwd)
    && now.env == (if context.env == None then was.env else context.env)
  }

  function Seen(w: World, id: Id): Option<Option<int>>
    requires Snapshot(w).Some?
  {
    if id in Snapshot(w).value then Some(Snapshot(w).value[id]) else None
  }

  function ContextIn(contexts: map<Id, Context>, id: Id): Context
  {
    if id in contexts then contexts[id] else Context(None, None)
  }

  lemma RowIsReviewed(r: Row, id: Id, entries: map<Id, Option<int>>, contexts: map<Id, Context>, instance: nat,
      now: nat)
    ensures Reviewed(r, RowAfter(r, id, entries, contexts, instance, now),
                     if id in entries then Some(entries[id]) else None, ContextIn(contexts, id), instance)
  {
  }

  /** A pass reviews every row, and adds or removes none. */
  lemma PassReviews(w: World, contexts: map<Id, Context>, now: nat, id: Id)
    requires Snapshot(w).Some?
    ensures var w' := Next(w, Reconcile(contexts, now));
            && w'.rows.Keys == w.rows.Keys
            && (id in w.rows ==> Reviewed(w.rows[id], w'.rows[id], Seen(w, id), ContextIn(contexts, id),
                                          w.daemon.value.instance))
  {
    hide Exits, Orphaned, RowAfter, Reviewed, ContextIn, Conflicts;
    if id in w.rows {
      RowIsReviewed(w.rows[id], id, Snapshot(w).value, contexts, w.daemon.value.instance, now);
    }
  }

  /** A pass that fails on the way has reviewed some rows and left the others alone. */
  lemma CutReviews(w: World, contexts: map<Id, Context>, now: nat, done: set<Id>, id: Id)
    requires Snapshot(w).Some?
    ensures var w' := Next(w, ReconcileCut(contexts, now, done));
            && w'.rows.Keys == w.rows.Keys && w'.holder == w.holder && w'.retired == w.retired
            && (if Serving(w) then Free(w', MAIN) else w'.daemon.None?)
            && (id in w.rows && id in done ==>
                  Reviewed(w.rows[id], w'.rows[id], Seen(w, id), ContextIn(contexts, id), w.daemon.value.instance))
            && (id in w.rows && id !in done ==> w'.rows[id] == w.rows[id])
  {
    hide RowAfter, Reviewed, ContextIn, Conflicts;
    if id in w.rows {
      RowIsReviewed(w.rows[id], id, Snapshot(w).value, contexts, w.daemon.value.instance, now);
    }
  }

  /** The rows that are active after a pass are exactly those its snapshot shows as running, and that
      no other Holder owns. */
  lemma ActiveAfterPass(w: World, contexts: map<Id, Context>, now: nat, id: Id)
    requires Snapshot(w).Some? && id in w.rows
    ensures var w' := Next(w, Reconcile(contexts, now));
            && id in w'.rows
            && (Active(w'.rows[id].status)
                <==> Seen(w, id) == Some(None) && !Foreign(w.rows[id], w.daemon.value.instance))
  {
    hide Next;
    PassReviews(w, contexts, now, id);
  }

  /** Once the Holder is known to be lost no session is active; all others keep their row. */
  lemma NothingActiveAfterLoss(w: World)
    requires Serving(w) && w.holder.None? && (OpOf(w, MAIN).None? || Snapshot(w).Some?)
    ensures var w' := Next(w, HolderLost);
            && w'.rows.Keys == w.rows.Keys && Free(w', MAIN) && w'.daemon.value.orphans == {}
            && forall id :: id in w.rows ==>
              && !Active(w'.rows[id].status)
              && (Active(w.rows[id].status) ==> w'.rows[id].status == Lost)
              && (!Active(w.rows[id].status) ==> w'.rows[id] == w.rows[id])
  {
    LossWrites(w);
    hide Next;
  }

  lemma LossWrites(w: World)
    requires Serving(w) && w.holder.None? && (OpOf(w, MAIN).None? || Snapshot(w).Some?)
    ensures var w' := Next(w, HolderLost);
            && Free(w', MAIN) && w'.daemon.value.orphans == {}
            && w'.rows == map id | id in w.rows :: LostRow(w.rows[id], w.daemon.value.instance)
  {
    hide LostRow;
  }

  // ---- Every step -----------------------------------------------------------------------------------

  /** The status a step writes into a session's row, if it writes any. */
  function StatusSaid(w: World, step: Step, id: Id): Option<Status>
  {
    match step
    case CommitRow(t, _, _) =>
      if OpOf(w, t) == Some(Creating(id)) && id !in w.rows then Some(Running) else None
    case PersistExit(t, _) =>
      if id in w.rows && OpOf(w, t).Some? && OpOf(w, t).value.Observed? && OpOf(w, t).value.id == id
      then Some(Closed) else None
    case ReopenRow(t) => if id in w.rows && OpOf(w, t) == Some(Restoring(id)) then Some(Running) else None
    case Reconcile(_, _) => PassStatus(w, id, w.rows.Keys)
    case ReconcileCut(_, _, done) => PassStatus(w, id, done)
    case HolderLost =>
      if Serving(w) && w.holder.None? && (OpOf(w, MAIN).None? || Snapshot(w).Some?)
         && id in w.rows && Active(w.rows[id].status)
      then Some(Lost) else None
    case _ => None
  }

  function PassStatus(w: World, id: Id, done: set<Id>): Option<Status>
  {
    if Snapshot(w).None? || id !in w.rows || id !in done then None
    else if Seen(w, id) == None || Foreign(w.rows[id], w.daemon.value.instance) then
      if Active(w.rows[id].status) then Some(Lost) else None
    else if Seen(w, id) == Some(None) then Some(Running)
    else Some(Closed)
  }

  function StatusOf(w: World, id: Id): Option<Status>
  {
    if id in w.rows then Some(w.rows[id].status) else None
  }

  /** Every step, in every state: it writes that status, or leaves the status as it is. */
  lemma StepStatus(w: World, step: Step, id: Id)
    ensures StatusOf(Next(w, step), id)
         == if StatusSaid(w, step, id).Some? then StatusSaid(w, step, id) else StatusOf(w, id)
  {
    match step {
      case Reconcile(contexts, now) =>
        hide Next;
        if Snapshot(w).Some? { PassReviews(w, contexts, now, id); } else { NoPass(w, step); }
      case ReconcileCut(contexts, now, done) =>
        hide Next;
        if Snapshot(w).Some? { CutReviews(w, contexts, now, done, id); } else { NoPass(w, step); }
      case HolderLost => LossStatus(w, id);
      case _ => PlainStatus(w, step, id);
    }
  }

  lemma LossStatus(w: World, id: Id)
    ensures StatusOf(Next(w, HolderLost), id)
         == if StatusSaid(w, HolderLost, id).Some? then StatusSaid(w, HolderLost, id) else StatusOf(w, id)
  {
    if Serving(w) && w.holder.None? && (OpOf(w, MAIN).None? || Snapshot(w).Some?) {
      NothingActiveAfterLoss(w);
      hide Next;
    } else {
      assert Next(w, HolderLost) == w;
    }
  }

  lemma PlainStatus(w: World, step: Step, id: Id)
    requires !step.Reconcile? && !step.ReconcileCut? && !step.HolderLost?
    ensures StatusOf(Next(w, step), id)
         == if StatusSaid(w, step, id).Some? then StatusSaid(w, step, id) else StatusOf(w, id)
  {
    hide FirstFree, Exits, Orphaned, Reconciled, PassStatus;
  }

  lemma NoPass(w: World, step: Step)
    requires (step.Reconcile? || step.ReconcileCut?) && Snapshot(w).None?
    ensures Next(w, step) == w
  {
  }

  /** The last status a run writes into a row. */
  ghost function LastStatus(w: World, steps: seq<Step>, id: Id): Option<Status>
    decreases |steps|
  {
    if steps == [] then StatusOf(w, id)
    else
      var init := steps[..|steps| - 1];
      var said := StatusSaid(Run(w, init), steps[|steps| - 1], id);
      if said.Some? then said else LastStatus(w, init, id)
  }

  /** In every run from every state the status of a row is the last one written into it. */
  lemma {:induction false} StatusIsTheLastWritten(w: World, steps: seq<Step>, id: Id)
    ensures StatusOf(Run(w, steps), id) == LastStatus(w, steps, id)
    decreases |steps|
  {
    if steps != [] {
      var init := steps[..|steps| - 1];
      var last := steps[|steps| - 1];
      RunSnoc(w, init, last);
      assert init + [last] == steps;
      hide Next, Run, StatusSaid, StatusOf;
      StatusIsTheLastWritten(w, init, id);
      StepStatus(Run(w, init), last, id);
    }
  }

  // ---- Whose sessions these are ---------------------------------------------------------------------

  /** The first pass has written the table. */
  predicate Reviewing(w: World)
  {
    w.daemon.Some? && (w.daemon.value.serving || Snapshot(w).None?)
  }

  /** Every active row belongs to the Holder the daemon is connected to. */
  ghost predicate ActiveAreOurs(w: World)
  {
    Reviewing(w) ==>
      forall id :: id in w.rows && Active(w.rows[id].status) ==> w.rows[id].instance == Some(w.daemon.value.instance)
  }

  /** Before it serves anybody, the daemon is in its first pass. */
  ghost predicate PassComesFirst(w: World)
  {
    w.daemon.Some? && !w.daemon.value.serving ==>
      && OpOf(w, MAIN).Some? && (OpOf(w, MAIN).value.Snapshotted? || OpOf(w, MAIN).value.Passed?
                                 || OpOf(w, MAIN).value.Retiring?)
      && w.daemon.value.ops.Keys == {MAIN}
  }

  lemma StepKeepsOurs(w: World, step: Step)
    requires ActiveAreOurs(w) && PassComesFirst(w)
    ensures ActiveAreOurs(Next(w, step)) && PassComesFirst(Next(w, step))
  {
    hide Next, ActiveAreOurs, PassComesFirst;
    if step.Reconcile? || step.ReconcileCut? {
      OursAfterPass(w, step);
    } else if step.HolderLost? {
      OursAfterLoss(w);
    } else {
      OursAfterPlain(w, step);
    }
  }

  lemma OursAfterLoss(w: World)
    requires ActiveAreOurs(w) && PassComesFirst(w)
    ensures ActiveAreOurs(Next(w, HolderLost)) && PassComesFirst(Next(w, HolderLost))
  {
  }

  lemma OursAfterPlain(w: World, step: Step)
    requires ActiveAreOurs(w) && PassComesFirst(w)
    requires !step.Reconcile? && !step.ReconcileCut? && !step.HolderLost?
    ensures ActiveAreOurs(Next(w, step)) && PassComesFirst(Next(w, step))
  {
    hide ActiveAreOurs, PassComesFirst, Next;
    if step.Boot? || step.CommitRow? || step.PersistExit? || step.ReopenRow? {
      OursAfterWrite(w, step);
    } else {
      OursAfterQuiet(w, step);
    }
  }

  /** Steps that write rows one by one, and the start, which leaves them to the first pass. */
  lemma OursAfterWrite(w: World, step: Step)
    requires ActiveAreOurs(w) && PassComesFirst(w)
    requires step.Boot? || step.CommitRow? || step.PersistExit? || step.ReopenRow?
    ensures ActiveAreOurs(Next(w, step)) && PassComesFirst(Next(w, step))
  {
    hide FirstFree, Coalesce;
    if step.Boot? {
      hide ReopenedRow, NewRow, RunningRow, ClosedRow;
    }
  }

  lemma OursAfterQuiet(w: World, step: Step)
    requires ActiveAreOurs(w) && PassComesFirst(w)
    requires !step.Reconcile? && !step.ReconcileCut? && !step.HolderLost?
    requires !step.Boot? && !step.CommitRow? && !step.PersistExit? && !step.ReopenRow?
    ensures ActiveAreOurs(Next(w, step)) && PassComesFirst(Next(w, step))
  {
    hide Exits, Orphaned, FirstFree, Reconciled, Active;
  }

  lemma OursAfterPass(w: World, step: Step)
    requires ActiveAreOurs(w) && PassComesFirst(w) && (step.Reconcile? || step.ReconcileCut?)
    ensures ActiveAreOurs(Next(w, step)) && PassComesFirst(Next(w, step))
  {
    hide Exits, Orphaned;
  }

  lemma {:induction false} RunKeepsOurs(w: World, steps: seq<Step>)
    requires ActiveAreOurs(w) && PassComesFirst(w)
    ensures ActiveAreOurs(Run(w, steps)) && PassComesFirst(Run(w, steps))
    decreases |steps|
  {
    if steps != [] {
      hide ActiveAreOurs, PassComesFirst, Next;
      StepKeepsOurs(w, steps[0]);
      RunKeepsOurs(Next(w, steps[0]), steps[1..]);
    }
  }

  /** Over any run with any crashes: while clients are served, every row that says a session is alive
      is one of the Holder the daemon is connected to. */
  lemma NoForeignSessionLooksAlive(steps: seq<Step>, id: Id)
    ensures var w := Run(NOTHING, steps);
            Serving(w) && id in w.rows && Active(w.rows[id].status)
            ==> w.rows[id].instance == Some(w.daemon.value.instance)
  {
    RunKeepsOurs(NOTHING, steps);
  }

  // ---- What a close and a creation write -------------------------------------------------------------

  /** A close writes the exit it has seen and what was captured with it, and nothing else. */
  lemma CloseWrites(w: World, t: Thread, now: nat)
    requires OpOf(w, t).Some? && OpOf(w, t).value.Observed?
    ensures var op := OpOf(w, t).value;
            var w' := Next(w, PersistExit(t, now));
            && w'.rows.Keys == w.rows.Keys && OpOf(w', t) == Some(Persisted(op.id))
            && w'.holder == w.holder && w'.retired == w.retired && (Serving(w) ==> Serving(w'))
            && (forall other :: other in w.rows && other != op.id ==> w'.rows[other] == w.rows[other])
            && (op.id in w.rows ==>
                  && w'.rows[op.id].status == Closed && w'.rows[op.id].exitCode == Some(op.code)
                  && w'.rows[op.id].closedAt == Some(now) && w'.rows[op.id].instance == w.rows[op.id].instance
                  && Captures(w.rows[op.id], w'.rows[op.id], op.context))
  {
  }

  /** Closing a session from end to end: whatever was captured when its exit was observed is in its
      row when it leaves the Holder. */
  lemma CloseKeepsWhatWasCaptured(w: World, t: Thread, id: Id, context: Context, now: nat)
    requires Free(w, t) && id !in w.daemon.value.orphans && ExitOf(w, id).Some? && id in w.rows
    ensures var w' := Run(w, [Observe(t, id, context), PersistExit(t, now), RetireObserved(t)]);
            && id in w'.rows && w'.rows[id].status == Closed && w'.rows[id].exitCode == ExitOf(w, id)
            && Captures(w.rows[id], w'.rows[id], context)
            && id !in HolderIds(w') && Free(w', t)
            && w'.retired == w.retired + [Retirement(id, ExitOf(w, id).value, Some(w'.rows[id]))]
  {
    var steps := [Observe(t, id, context), PersistExit(t, now), RetireObserved(t)];
    var w1 := Next(w, steps[0]);
    var w2 := Next(w1, steps[1]);
    RunThree(w, steps[0], steps[1], steps[2]);
    hide Next, Captures, Run;
    ObserveTakes(w, t, id, context);
    CloseWrites(w1, t, now);
    RetireTakes(w2, t, id);
  }

  lemma ObserveTakes(w: World, t: Thread, id: Id, context: Context)
    requires Free(w, t) && id !in w.daemon.value.orphans && ExitOf(w, id).Some?
    ensures Next(w, Observe(t, id, context)) == SetOp(w, t, Observed(id, ExitOf(w, id).value, context))
  {
  }

  lemma RetireTakes(w: World, t: Thread, id: Id)
    requires Serving(w) && OpOf(w, t) == Some(Persisted(id)) && ExitOf(w, id).Some? && id in w.rows
    ensures var w' := Next(w, RetireObserved(t));
            && w'.rows == w.rows && id !in HolderIds(w') && Free(w', t)
            && w'.retired == w.retired + [Retirement(id, ExitOf(w, id).value, Some(w.rows[id]))]
  {
  }

  lemma RunThree(w: World, a: Step, b: Step, c: Step)
    ensures Run(w, [a, b, c]) == Next(Next(Next(w, a), b), c)
  {
    hide Next;
    RunSnoc(w, [], a);
    RunSnoc(w, [a], b);
    RunSnoc(w, [a, b], c);
    assert [] + [a] == [a] && [a] + [b] == [a, b] && [a, b] + [c] == [a, b, c];
  }

  /** Creating a session from end to end: it is running in the Holder under the next id, has a running
      row of this Holder, and the client is told that id. */
  lemma CreationSucceeds(w: World, t: Thread, cwd: Option<Text>)
    requires Free(w, t) && w.holder.Some? && w.daemon.value.next < U32 - 1
    requires w.daemon.value.next !in HolderIds(w) && w.daemon.value.next !in w.rows
    ensures var id := w.daemon.value.next;
            var w' := Run(w, [CreateSession(t), CommitRow(t, cwd, true)]);
            && w'.holder.Some? && id in w'.holder.value.sessions && w'.holder.value.sessions[id] == None
            && w'.rows == w.rows[id := Row(Running, None, None, cwd, None, Some(w.daemon.value.instance))]
            && w'.reported == w.reported + [id] && Free(w', t) && w'.daemon.value.next == id + 1
  {
    RunTwo(w, CreateSession(t), CommitRow(t, cwd, true));
  }

  lemma RunTwo(w: World, a: Step, b: Step)
    ensures Run(w, [a, b]) == Next(Next(w, a), b)
  {
    hide Next;
    RunSnoc(w, [], a);
    RunSnoc(w, [a], b);
    assert [] + [a] == [a] && [a] + [b] == [a, b];
  }

  /** An id is used up whether or not the Holder takes it. */
  lemma IdsAreUsedUp(w: World, t: Thread)
    requires Free(w, t) && w.daemon.value.next < U32 - 1
    ensures var id := w.daemon.value.next;
            var w' := Next(w, CreateSession(t));
            && Serving(w') && w'.daemon.value.next == id + 1 && w'.rows == w.rows && w'.reported == w.reported
            && (if w.holder.Some? && id !in HolderIds(w)
                then OpOf(w', t) == Some(Creating(id)) && HolderIds(w') == HolderIds(w) + {id}
                else OpOf(w', t).None? && w'.holder == w.holder)
  {
  }

  /** A client's operation that is given up leaves the thread free and the table and the Holder as they
      are; a creation given up is remembered as long as no pass has found it. */
  lemma GivingUpFrees(w: World, t: Thread)
    requires OpOf(w, t).Some?
    requires OpOf(w, t).value.Creating? || OpOf(w, t).value.Observed? || OpOf(w, t).value.Persisted?
             || OpOf(w, t).value.Restoring?
    ensures var w' := Next(w, GiveUp(t));
            && OpOf(w', t).None? && w'.rows == w.rows && w'.holder == w.holder && w'.retired == w.retired
            && w'.daemon.Some? && w'.daemon.value.next == w.daemon.value.next
            && w'.daemon.value.lost
               == w.daemon.value.lost + if OpOf(w, t).value.Creating? then {OpOf(w, t).value.id} else {}
  {
  }

  /** A crash forgets whatever the process had in mind, and nothing that is stored. */
  lemma CrashesForget(w: World)
    ensures var w' := Next(w, DaemonCrashes);
            w'.daemon.None? && w'.rows == w.rows && w'.holder == w.holder && w'.reported == w.reported
    ensures var w' := Next(w, HolderDies);
            w'.holder.None? && w'.rows == w.rows && w'.daemon == w.daemon && w'.retired == w.retired
  {
  }

  /** A later pass looks at the Holder as it is. */
  lemma SnapshotIsTaken(w: World)
    requires Free(w, MAIN) && w.holder.Some?
    ensures var w' := Next(w, TakeSnapshot);
            Snapshot(w') == Some(w.holder.value.sessions) && w'.rows == w.rows && w'.holder == w.holder && Serving(w')
  {
  }

  /** Restoring a closed session from end to end: it is running again in the Holder and in its row. */
  lemma RestoreSucceeds(w: World, t: Thread, id: Id)
    requires Free(w, t) && w.holder.Some? && id !in HolderIds(w) && id in w.rows && w.rows[id].status == Closed
    ensures var w' := Run(w, [RestoreSession(t, id), ReopenRow(t)]);
            && w'.holder.Some? && id in w'.holder.value.sessions && w'.holder.value.sessions[id] == None
            && id in w'.rows && w'.rows[id].status == Running && w'.rows[id].exitCode == None
            && w'.rows[id].closedAt == None && w'.rows[id].instance == Some(w.daemon.value.instance)
            && Captures(w.rows[id], w'.rows[id], Context(None, None))
            && Free(w', t) && id < w'.daemon.value.next && id !in w'.ended
  {
    RunTwo(w, RestoreSession(t, id), ReopenRow(t));
    hide Run;
    RestoreStarts(w, t, id);
    var w1 := Next(w, RestoreSession(t, id));
    hide Next, Captures;
    ReopenWrites(w1, t, id);
  }

  lemma RestoreStarts(w: World, t: Thread, id: Id)
    requires Free(w, t) && w.holder.Some? && id !in HolderIds(w) && id in w.rows && w.rows[id].status == Closed
    ensures var w' := Next(w, RestoreSession(t, id));
            && OpOf(w', t) == Some(Restoring(id)) && w'.rows == w.rows && Serving(w') && id !in w'.ended
            && w'.holder.Some? && id in w'.holder.value.sessions && w'.holder.value.sessions[id] == None
            && w'.daemon.value.instance == w.daemon.value.instance && id < w'.daemon.value.next
  {
  }

  /** Reopening clears how the session ended, and nothing else. */
  lemma ReopenWrites(w: World, t: Thread, id: Id)
    requires OpOf(w, t) == Some(Restoring(id)) && id in w.rows
    ensures var w' := Next(w, ReopenRow(t));
            && w'.rows.Keys == w.rows.Keys && OpOf(w', t).None?
            && (forall other :: other in w.rows && other != id ==> w'.rows[other] == w.rows[other])
            && w'.rows[id].status == Running && w'.rows[id].exitCode == None && w'.rows[id].closedAt == None
            && w'.rows[id].instance == Some(w.daemon.value.instance)
            && Captures(w.rows[id], w'.rows[id], Context(None, None))
            && w'.holder == w.holder && w'.ended == w.ended && w'.daemon.value.next == w.daemon.value.next
            && (Serving(w) ==> Serving(w'))
  {
  }

  // ---- A whole pass -----------------------------------------------------------------------------------

  /** A pass lists for retiring exactly the exits it has written, and for hiding exactly the sessions
      that have no row of this Holder. */
  lemma PassListsExactly(w: World, contexts: map<Id, Context>, now: nat)
    requires Snapshot(w).Some?
    ensures var w' := Next(w, Reconcile(contexts, now));
            && OpOf(w', MAIN).Some? && OpOf(w', MAIN).value.Passed?
            && w'.holder == w.holder && w'.retired == w.retired && w'.daemon.Some?
            && w'.daemon.value == w.daemon.value.(ops := w'.daemon.value.ops)
            && forall id ::
              && (id in OpOf(w', MAIN).value.exits <==>
                    && id in w.rows && !Foreign(w.rows[id], w.daemon.value.instance)
                    && Seen(w, id).Some? && Seen(w, id).value.Some?)
              && (id in OpOf(w', MAIN).value.found <==>
                    && Seen(w, id).Some?
                    && (id in w.rows ==> Foreign(w.rows[id], w.daemon.value.instance)))
  {
    hide Reconciled;
  }

  /** Then clients no longer see what it found, */
  lemma PublishingHides(w: World)
    requires OpOf(w, MAIN).Some? && OpOf(w, MAIN).value.Passed?
    ensures var w' := Next(w, PublishOrphans);
            && w'.daemon.Some? && w'.daemon.value.orphans == OpOf(w, MAIN).value.found
            && OpOf(w', MAIN) == Some(Retiring(OpOf(w, MAIN).value.exits))
            && w'.rows == w.rows && w'.holder == w.holder && w'.retired == w.retired
            && w'.daemon.value.instance == w.daemon.value.instance && w'.daemon.value.serving == w.daemon.value.serving
  {
  }

  /** the listed exits leave one by one, */
  lemma ListedLeaves(w: World, id: Id, exits: set<Id>)
    requires OpOf(w, MAIN) == Some(Retiring(exits)) && id in exits
    ensures var w' := Next(w, RetireListed(id));
            && OpOf(w', MAIN) == Some(Retiring(exits - {id})) && w'.rows == w.rows
            && HolderIds(w') == (if ExitOf(w, id).Some? then HolderIds(w) - {id} else HolderIds(w))
            && w'.daemon.value.orphans == w.daemon.value.orphans
            && w'.daemon.value.instance == w.daemon.value.instance && w'.daemon.value.serving == w.daemon.value.serving
            && (ExitOf(w, id).Some? && id in w.rows ==>
                  w'.retired == w.retired + [Retirement(id, ExitOf(w, id).value, Some(w.rows[id]))])
  {
  }

  /** and clients are served. */
  lemma PassFinishes(w: World)
    requires OpOf(w, MAIN) == Some(Retiring({}))
    ensures var w' := Next(w, FinishPass);
            && Free(w', MAIN) && w'.rows == w.rows && w'.holder == w.holder && w'.retired == w.retired
            && w'.daemon.value.orphans == w.daemon.value.orphans
            && w'.daemon.value.instance == w.daemon.value.instance
  {
  }

  lemma BootConnects(w: World, instance: nat, next: nat)
    requires w.daemon.None? && FirstFree(w, next) && next < U32
    ensures var w' := Next(w, Boot(instance, next));
            && w'.holder.Some? && w'.daemon.Some? && w'.daemon.value.next == next && w'.daemon.value.orphans == {}
            && w'.holder == (if w.holder.Some? then w.holder else Some(Holder(instance, map[])))
            && w'.daemon.value.instance == w'.holder.value.instance
            && Snapshot(w') == Some(w'.holder.value.sessions) && !w'.daemon.value.serving
            && w'.rows == w.rows && w'.retired == w.retired
  {
    hide FirstFree;
  }

  /** Starting up with a Holder none of whose sessions has exited: once clients are served, a row is
      active exactly if the Holder runs that session and the row is not another Holder's; everything
      else the Holder runs is hidden. */
  lemma StartUp(w: World, instance: nat, next: nat, contexts: map<Id, Context>, now: nat)
    requires w.daemon.None? && w.holder.Some? && FirstFree(w, next) && next < U32
    requires forall id :: id in w.holder.value.sessions ==> w.holder.value.sessions[id] == None
    ensures var w' := Run(w, [Boot(instance, next), Reconcile(contexts, now), PublishOrphans, FinishPass]);
            && Free(w', MAIN) && w'.rows.Keys == w.rows.Keys && w'.holder == w.holder && w'.retired == w.retired
            && forall id ::
              && (id in w.rows ==>
                    (Active(w'.rows[id].status)
                     <==> id in w.holder.value.sessions && !Foreign(w.rows[id], w.holder.value.instance)))
              && (id in w'.daemon.value.orphans
                  <==> id in w.holder.value.sessions
                       && (id in w.rows ==> Foreign(w.rows[id], w.holder.value.instance)))
  {
    hide Next, Run, FirstFree;
    var w1 := Next(w, Boot(instance, next));
    var w2 := Next(w1, Reconcile(contexts, now));
    var w3 := Next(w2, PublishOrphans);
    RunFour(w, Boot(instance, next), Reconcile(contexts, now), PublishOrphans, FinishPass);
    BootConnects(w, instance, next);
    PassListsExactly(w1, contexts, now);
    hide Snapshot;
    PassKeys(w1, contexts, now);
    assert OpOf(w2, MAIN).value.exits == {};
    PublishingHides(w2);
    PassFinishes(w3);
    forall id | id in w.rows
      ensures Active(w2.rows[id].status)
              <==> id in w.holder.value.sessions && !Foreign(w.rows[id], w.holder.value.instance)
    {
      ActiveAfterPass(w1, contexts, now, id);
    }
  }

  lemma PassKeys(w: World, contexts: map<Id, Context>, now: nat)
    requires Snapshot(w).Some?
    ensures Next(w, Reconcile(contexts, now)).rows.Keys == w.rows.Keys
  {
    hide RowAfter, Exits, Orphaned;
  }

  lemma RunFour(w: World, a: Step, b: Step, c: Step, d: Step)
    ensures Run(w, [a, b, c, d]) == Next(Next(Next(Next(w, a), b), c), d)
  {
    hide Next;
    RunThree(w, a, b, c);
    RunSnoc(w, [a, b, c], d);
    assert [a, b, c] + [d] == [a, b, c, d];
  }
}
