/** Session ids and exits across daemon and Holder crashes (crates/persistd/src/server.rs,
    holder/reconcile.rs). Client threads, reconciliation passes and crashes interleave freely; one
    step is one Holder request or one stretch under one lock. */
module DaemonLifecycle {
  import opened Bytes
  import opened SessionStore

  type Thread = nat

  /** The thread that reconciles. It may also close sessions that have been idle for too long. */
  const MAIN: Thread := 0

  /** A Holder process and the exit code of each session it holds, if it has exited. */
  datatype Holder = Holder(instance: nat, sessions: map<Id, Option<int>>)

  datatype Context = Context(cwd: Option<Text>, env: Option<Text>)

  /** What a thread is in the middle of. A pass takes a snapshot, writes the table, makes the orphans
      it found known, and then retires the exited sessions. */
  datatype Op =
    | Creating(id: Id)
    | Observed(id: Id, code: int, context: Context)
    | Persisted(id: Id)
    | Restoring(id: Id)
    | Snapshotted(entries: map<Id, Option<int>>)
    | Passed(found: set<Id>, exits: set<Id>)
    | Retiring(exits: set<Id>)

  /** Clients are served once the first pass is through. Orphans, sessions in the Holder without a
      row of their own, are treated as absent. `lost` is history: creations that were given up, and
      that no pass has found since. */
  datatype Daemon = Daemon(
    instance: nat,
    next: nat,
    orphans: set<Id>,
    serving: bool,
    ops: map<Thread, Op>,
    lost: set<Id>)

  /** A session leaving the Holder, with its exit code and its row at that moment. */
  datatype Retirement = Retirement(id: Id, code: int, row: Option<Row>)

  /** `reported`, `retired` and `ended` are history: ids told to clients, sessions that left the
      Holder, and the exit codes of those of them that have not been started again. */
  datatype World = World(
    holder: Option<Holder>,
    rows: Rows,
    daemon: Option<Daemon>,
    reported: seq<Id>,
    retired: seq<Retirement>,
    ended: map<Id, int>)

  const NOTHING := World(None, map[], None, [], [], map[])

  datatype Step =
    | SessionExits(id: Id, code: int)
    | HolderDies
    | DaemonCrashes
    | Boot(instance: nat, next: nat)
    | TakeSnapshot
    | Reconcile(contexts: map<Id, Context>, now: nat)
    | ReconcileCut(contexts: map<Id, Context>, now: nat, done: set<Id>)
    | PublishOrphans
    | RetireListed(id: Id)
    | FinishPass
    | HolderLost
    | CreateSession(t: Thread)
    | CommitRow(t: Thread, cwd: Option<Text>, report: bool)
    | Observe(t: Thread, id: Id, context: Context)
    | PersistExit(t: Thread, now: nat)
    | RetireObserved(t: Thread)
    | GiveUp(t: Thread)
    | RestoreSession(t: Thread, id: Id)
    | ReopenRow(t: Thread)

  // ---- Reconciliation ------------------------------------------------------------------

  predicate Conflicts(r: Row, instance: nat)
  {
    r.instance.Some? && r.instance.value != instance
  }

  /** One row after a pass over a Holder snapshot. */
  function RowAfter(r: Row, id: Id, entries: map<Id, Option<int>>, contexts: map<Id, Context>, instance: nat,
      now: nat): Row
  {
    if id !in entries || Conflicts(r, instance) then LostRow(r, instance)
    else if entries[id].None? then RunningRow(r, instance)
    else
      var c := if id in contexts then contexts[id] else Context(None, None);
      ExitedRow(r, entries[id].value, c.cwd, c.env, instance, now)
  }

  /** The table after a pass that got as far as `done`. */
  function Reconciled(rows: Rows, entries: map<Id, Option<int>>, contexts: map<Id, Context>, instance: nat, now: nat,
      done: set<Id>): Rows
  {
    map id | id in rows :: if id in done then RowAfter(rows[id], id, entries, contexts, instance, now) else rows[id]
  }

  /** The exited sessions a pass will retire: those with a row it could write. */
  function Exits(rows: Rows, entries: map<Id, Option<int>>, instance: nat): set<Id>
  {
    set id | id in entries && entries[id].Some? && id in rows && !Conflicts(rows[id], instance)
  }

  /** The sessions a pass will hide from clients: those without a row, or with somebody else's. */
  function Orphaned(rows: Rows, entries: map<Id, Option<int>>, instance: nat): set<Id>
  {
    set id | id in entries && (id !in rows || Conflicts(rows[id], instance))
  }

  // ---- Steps ------------------------------------------------------------------------------

  function HolderIds(w: World): set<Id>
  {
    if w.holder.Some? then w.holder.value.sessions.Keys else {}
  }

  predicate Serving(w: World)
  {
    w.daemon.Some? && w.daemon.value.serving
  }

  function OpOf(w: World, t: Thread): Option<Op>
  {
    if w.daemon.Some? && t in w.daemon.value.ops then Some(w.daemon.value.ops[t]) else None
  }

  predicate Free(w: World, t: Thread)
  {
    Serving(w) && OpOf(w, t).None?
  }

  function SetOp(w: World, t: Thread, op: Op): World
    requires w.daemon.Some?
  {
    w.(daemon := Some(w.daemon.value.(ops := w.daemon.value.ops[t := op])))
  }

  function DropOp(w: World, t: Thread): World
    requires w.daemon.Some?
  {
    w.(daemon := Some(w.daemon.value.(ops := w.daemon.value.ops - {t})))
  }

  function ExitOf(w: World, id: Id): Option<int>
  {
    if w.holder.Some? && id in w.holder.value.sessions then w.holder.value.sessions[id] else None
  }

  /** The Holder lets go of an exited session; a running or unknown one is left alone. */
  function Retire(w: World, id: Id): World
  {
    if ExitOf(w, id).None? then w
    else w.(
      holder := Some(w.holder.value.(sessions := w.holder.value.sessions - {id})),
      retired := w.retired + [Retirement(id, ExitOf(w, id).value, if id in w.rows then Some(w.rows[id]) else None)],
      ended := w.ended[id := ExitOf(w, id).value])
  }

  /** A session is started. */
  function Hold(w: World, id: Id): World
    requires w.holder.Some?
  {
    w.(holder := Some(w.holder.value.(sessions := w.holder.value.sessions[id := None])), ended := w.ended - {id})
  }

  /** The snapshot of a pass that has not yet written. */
  function Snapshot(w: World): Option<map<Id, Option<int>>>
  {
    if OpOf(w, MAIN).Some? && OpOf(w, MAIN).value.Snapshotted? then Some(OpOf(w, MAIN).value.entries) else None
  }

  ghost function Next(w: World, step: Step): World
  {
    match step
    case SessionExits(id, code) =>
      if id in HolderIds(w) && ExitOf(w, id).None?
      then w.(holder := Some(w.holder.value.(sessions := w.holder.value.sessions[id := Some(code)])))
      else w
    case HolderDies => w.(holder := None)
    case DaemonCrashes => w.(daemon := None)
    case Boot(instance, next) => BootDaemon(w, instance, next)
    case TakeSnapshot =>
      if Free(w, MAIN) && w.holder.Some? then SetOp(w, MAIN, Snapshotted(w.holder.value.sessions)) else w
    case Reconcile(contexts, now) => WriteTable(w, contexts, now)
    case ReconcileCut(contexts, now, done) => WritePart(w, contexts, now, done)
    case PublishOrphans =>
      if OpOf(w, MAIN).Some? && OpOf(w, MAIN).value.Passed?
      then
        var found := OpOf(w, MAIN).value.found;
        SetOp(w.(daemon := Some(w.daemon.value.(orphans := found, lost := w.daemon.value.lost - found))),
              MAIN, Retiring(OpOf(w, MAIN).value.exits))
      else w
    case RetireListed(id) =>
      if OpOf(w, MAIN).Some? && OpOf(w, MAIN).value.Retiring? && id in OpOf(w, MAIN).value.exits
      then SetOp(Retire(w, id), MAIN, Retiring(OpOf(w, MAIN).value.exits - {id}))
      else w
    case FinishPass =>
      if OpOf(w, MAIN).Some? && OpOf(w, MAIN).value.Retiring? && (Serving(w) || OpOf(w, MAIN).value.exits == {})
      then DropOp(w.(daemon := Some(w.daemon.value.(serving := true))), MAIN)
      else w
    case HolderLost =>
      if Serving(w) && w.holder.None? && (OpOf(w, MAIN).None? || Snapshot(w).Some?)
      then DropOp(w.(rows := Reconciled(w.rows, map[], map[], w.daemon.value.instance, 0, w.rows.Keys),
                     daemon := Some(w.daemon.value.(orphans := {}))), MAIN)
      else w
    case CreateSession(t) => StartCreating(w, t)
    case CommitRow(t, cwd, report) => FinishCreating(w, t, cwd, report)
    case Observe(t, id, context) =>
      if Free(w, t) && id !in w.daemon.value.orphans && ExitOf(w, id).Some?
      then SetOp(w, t, Observed(id, ExitOf(w, id).value, context))
      else w
    case PersistExit(t, now) =>
      if OpOf(w, t).Some? && OpOf(w, t).value.Observed? then
        var op := OpOf(w, t).value;
        SetOp(w.(rows := CloseWithContext(w.rows, op.id, op.code, op.context.cwd, op.context.env, now)), t,
          Persisted(op.id))
      else w
    case RetireObserved(t) =>
      if OpOf(w, t).Some? && OpOf(w, t).value.Persisted? then DropOp(Retire(w, OpOf(w, t).value.id), t) else w
    case GiveUp(t) => Abandon(w, t)
    case RestoreSession(t, id) => StartRestoring(w, t, id)
    case ReopenRow(t) =>
      if OpOf(w, t).Some? && OpOf(w, t).value.Restoring? && OpOf(w, t).value.id in w.rows then
        var id := OpOf(w, t).value.id;
        DropOp(w.(rows := w.rows[id := RunningRow(ReopenedRow(w.rows[id]), w.daemon.value.instance)]), t)
      else w
  }

  /** Connect to the Holder, or start one; take its snapshot; and hand out ids above everything
      either the metadata or the Holder knows. */
  ghost function BootDaemon(w: World, instance: nat, next: nat): World
  {
    var holder := if w.holder.Some? then w.holder.value else Holder(instance, map[]);
    if w.daemon.None? && FirstFree(w, next) && next < U32
    then w.(holder := Some(holder),
            daemon := Some(Daemon(holder.instance, next, {}, false, map[MAIN := Snapshotted(holder.sessions)], {})))
    else w
  }

  /** The larger of the two successors. */
  ghost predicate FirstFree(w: World, next: nat)
  {
    exists m: nat, h: nat :: IsSuccessor(m, w.rows.Keys) && IsSuccessor(h, HolderIds(w)) && next == Max(m, h)
  }

  lemma OneFirstFree(w: World, m: nat, n: nat)
    requires FirstFree(w, m) && FirstFree(w, n)
    ensures m == n
  {
    var a: nat, b: nat :| IsSuccessor(a, w.rows.Keys) && IsSuccessor(b, HolderIds(w)) && m == Max(a, b);
    var c: nat, d: nat :| IsSuccessor(c, w.rows.Keys) && IsSuccessor(d, HolderIds(w)) && n == Max(c, d);
    SuccessorIsUnique(a, c, w.rows.Keys);
    SuccessorIsUnique(b, d, HolderIds(w));
  }

  function WriteTable(w: World, contexts: map<Id, Context>, now: nat): World
  {
    if Snapshot(w).None? then w
    else
      var entries := Snapshot(w).value;
      var instance := w.daemon.value.instance;
      SetOp(w.(rows := Reconciled(w.rows, entries, contexts, instance, now, w.rows.Keys)),
            MAIN, Passed(Orphaned(w.rows, entries, instance), Exits(w.rows, entries, instance)))
  }

  /** A pass that fails on the way: the end of a daemon that is just starting. */
  function WritePart(w: World, contexts: map<Id, Context>, now: nat, done: set<Id>): World
  {
    if Snapshot(w).None? then w
    else
      var w1 := w.(rows := Reconciled(w.rows, Snapshot(w).value, contexts, w.daemon.value.instance, now, done));
      if Serving(w) then DropOp(w1, MAIN) else w1.(daemon := None)
  }

  function WithNext(w: World, next: nat): World
    requires w.daemon.Some?
  {
    w.(daemon := Some(w.daemon.value.(next := next)))
  }

  /** A client's request fails half way. A session whose creation is given up may be in the Holder
      all the same. */
  function Abandon(w: World, t: Thread): World
  {
    if OpOf(w, t).None? then w
    else match OpOf(w, t).value
      case Creating(id) => DropOp(w.(daemon := Some(w.daemon.value.(lost := w.daemon.value.lost + {id}))), t)
      case Observed(_, _, _) => DropOp(w, t)
      case Persisted(_) => DropOp(w, t)
      case Restoring(_) => DropOp(w, t)
      case _ => w
  }

  /** The id is used up whether or not the Holder accepts it. */
  function StartCreating(w: World, t: Thread): World
  {
    if Free(w, t) && w.daemon.value.next < U32 - 1 then
      var id := w.daemon.value.next;
      var w1 := WithNext(w, id + 1);
      if w.holder.Some? && id !in w.holder.value.sessions then SetOp(Hold(w1, id), t, Creating(id)) else w1
    else w
  }

  /** The client is told the id only after its row has been committed. */
  function FinishCreating(w: World, t: Thread, cwd: Option<Text>, report: bool): World
  {
    if OpOf(w, t).Some? && OpOf(w, t).value.Creating? then
      var id := OpOf(w, t).value.id;
      if id in w.rows then DropOp(w, t)
      else
        var w1 := w.(rows := w.rows[id := RunningRow(NewRow(cwd), w.daemon.value.instance)]);
        DropOp(if report then w1.(reported := w.reported + [id]) else w1, t)
    else w
  }

  /** Orphans look absent here too, so it is the Holder that refuses an id it still holds. */
  function StartRestoring(w: World, t: Thread, id: Id): World
  {
    if Free(w, t) && w.holder.Some? && id !in w.holder.value.sessions && id in w.rows && w.rows[id].status.Closed? then
      var w1 := SetOp(Hold(w, id), t, Restoring(id));
      w1.(daemon := Some(w1.daemon.value.(next := Max(w.daemon.value.next, id + 1))))
    else w
  }

  // ---- Ids --------------------------------------------------------------------------------

  ghost predicate NoDuplicates(ids: seq<Id>)
  {
    forall i, j :: 0 <= i < j < |ids| ==> ids[i] != ids[j]
  }

  predicate IsCreating(w: World, t: Thread)
  {
    w.daemon.Some? && t in w.daemon.value.ops && w.daemon.value.ops[t].Creating?
  }

  /** An id being created has no row yet, and is nobody else's. */
  ghost predicate CreatorsSound(w: World)
    requires w.daemon.Some?
  {
    && (forall t :: IsCreating(w, t) ==>
          w.daemon.value.ops[t].id < w.daemon.value.next && w.daemon.value.ops[t].id !in w.rows)
    && (forall t, u :: IsCreating(w, t) && IsCreating(w, u) && t != u ==>
          w.daemon.value.ops[t].id != w.daemon.value.ops[u].id)
  }

  /** Every id in use anywhere is below the next one, and an id being created is nobody else's. */
  ghost predicate IdsSound(w: World)
  {
    && NoDuplicates(w.reported)
    && (forall i :: 0 <= i < |w.reported| ==> w.reported[i] in w.rows)
    && (w.daemon.Some? ==>
          && (forall id :: id in w.rows ==> id < w.daemon.value.next)
          && (forall id :: id in HolderIds(w) ==> id < w.daemon.value.next)
          && CreatorsSound(w))
  }

  lemma BootKeepsIds(w: World, instance: nat, next: nat)
    requires IdsSound(w)
    ensures IdsSound(BootDaemon(w, instance, next))
  {
  }

  lemma CreateKeepsIds(w: World, t: Thread)
    requires IdsSound(w)
    ensures IdsSound(StartCreating(w, t))
  {
    hide IdsSound, IsCreating, HolderIds, Hold, SetOp;
    if Free(w, t) {
      IdIsTaken(w);
      if w.holder.Some? {
        StartedIsNew(w, t);
      }
    }
  }

  lemma IdIsTaken(w: World)
    requires IdsSound(w) && w.daemon.Some?
    ensures var id := w.daemon.value.next;
            var w1 := WithNext(w, id + 1);
            && IdsSound(w1) && CreatorsSound(w1) && id !in w1.rows
            && forall u :: IsCreating(w1, u) ==> w1.daemon.value.ops[u].id != id
  {
    var w1 := WithNext(w, w.daemon.value.next + 1);
    assert forall u :: IsCreating(w1, u) ==> IsCreating(w, u) && w1.daemon.value.ops[u] == w.daemon.value.ops[u];
  }

  lemma StartedIsNew(w: World, t: Thread)
    requires IdsSound(w) && Free(w, t) && w.holder.Some?
    ensures var id := w.daemon.value.next; IdsSound(SetOp(Hold(WithNext(w, id + 1), id), t, Creating(id)))
  {
    hide IdsSound, CreatorsSound, IsCreating;
    IdIsTaken(w);
    var id := w.daemon.value.next;
    var w1 := WithNext(w, id + 1);
    var w' := SetOp(Hold(w1, id), t, Creating(id));
    OneMoreCreator(w1, w', t, id);
    hide WithNext;
    OneMoreHeld(w1, w', id);
  }

  lemma OneMoreHeld(w: World, w': World, id: Id)
    requires IdsSound(w) && w.daemon.Some? && w'.daemon.Some? && CreatorsSound(w')
    requires w'.reported == w.reported && w'.rows == w.rows && w'.daemon.value.next == w.daemon.value.next
    requires HolderIds(w') <= HolderIds(w) + {id} && id < w.daemon.value.next
    ensures IdsSound(w')
  {
    hide CreatorsSound, NoDuplicates;
  }

  lemma OneMoreCreator(w: World, w': World, t: Thread, id: Id)
    requires w.daemon.Some? && CreatorsSound(w) && id < w.daemon.value.next && id !in w.rows
    requires forall u :: IsCreating(w, u) ==> w.daemon.value.ops[u].id != id
    requires w'.daemon == Some(w.daemon.value.(ops := w.daemon.value.ops[t := Creating(id)])) && w'.rows == w.rows
    ensures CreatorsSound(w')
  {
    assert forall u ::
             u != t && IsCreating(w', u) ==> IsCreating(w, u) && w'.daemon.value.ops[u] == w.daemon.value.ops[u];
  }

  lemma RestoreKeepsIds(w: World, t: Thread, id: Id)
    requires IdsSound(w)
    ensures IdsSound(Next(w, RestoreSession(t, id)))
  {
    var w' := Next(w, RestoreSession(t, id));
    if w'.daemon.Some? {
      forall other | other in HolderIds(w') ensures other < w'.daemon.value.next {
        assert other in HolderIds(w) || other == id;
      }
      forall u | IsCreating(w', u) ensures IsCreating(w, u) {
      }
    }
  }

  /** Steps that neither hand out nor report ids, and only shrink what the Holder holds. */
  lemma QuietKeepsIds(w: World, w': World)
    requires IdsSound(w)
    requires Quiet(w, w')
    ensures IdsSound(w')
  {
  }

  lemma CommitKeepsIds(w: World, t: Thread, cwd: Option<Text>, report: bool)
    requires IdsSound(w)
    ensures IdsSound(FinishCreating(w, t, cwd, report))
  {
    var w' := FinishCreating(w, t, cwd, report);
    if IsCreating(w, t) && w.holder.Some? {
      assert w.daemon.value.ops[t].id !in w.rows;
      assert HolderIds(w') == HolderIds(w);
      forall u | IsCreating(w', u) ensures u != t && IsCreating(w, u)
        && w'.daemon.value.ops[u] == w.daemon.value.ops[u] {
      }
    }
  }

  lemma QuietStep(w: World, step: Step)
    requires !step.Boot? && !step.CreateSession? && !step.CommitRow? && !step.RestoreSession?
    ensures Quiet(w, Next(w, step))
  {
    hide Next, Quiet;
    if step.RetireListed? || step.RetireObserved? {
      QuietRetirement(w, step);
    } else if step.Reconcile? || step.ReconcileCut? || step.HolderLost? {
      QuietPass(w, step);
    } else {
      QuietClose(w, step);
    }
  }

  /** What every quiet step leaves as it was. */
  ghost predicate Quiet(w: World, w': World)
  {
    && w'.reported == w.reported && w'.rows.Keys == w.rows.Keys
    && (w'.daemon.Some? ==> w.daemon.Some? && w'.daemon.value.next == w.daemon.value.next)
    && HolderIds(w') <= HolderIds(w)
    && forall u :: IsCreating(w', u) ==> IsCreating(w, u) && w'.daemon.value.ops[u] == w.daemon.value.ops[u]
  }

  lemma QuietRetirement(w: World, step: Step)
    requires step.RetireListed? || step.RetireObserved?
    ensures Quiet(w, Next(w, step))
  {
    hide BootDaemon, StartCreating, FinishCreating, StartRestoring, WriteTable, WritePart;
  }

  lemma ReconciledKeys(rows: Rows, entries: map<Id, Option<int>>, contexts: map<Id, Context>, instance: nat, now: nat,
      done: set<Id>)
    ensures Reconciled(rows, entries, contexts, instance, now, done).Keys == rows.Keys
  {
    hide RowAfter;
  }

  lemma QuietPass(w: World, step: Step)
    requires step.Reconcile? || step.ReconcileCut? || step.HolderLost?
    ensures Quiet(w, Next(w, step))
  {
    if w.daemon.Some? {
      var instance := w.daemon.value.instance;
      if Snapshot(w).Some? {
        var entries := Snapshot(w).value;
        if step.Reconcile? { ReconciledKeys(w.rows, entries, step.contexts, instance, step.now, w.rows.Keys); }
        if step.ReconcileCut? { ReconciledKeys(w.rows, entries, step.contexts, instance, step.now, step.done); }
      }
      ReconciledKeys(w.rows, map[], map[], instance, 0, w.rows.Keys);
    }
    hide Reconciled, Orphaned, Exits, Retire, BootDaemon, StartCreating, FinishCreating, StartRestoring;
  }

  lemma QuietClose(w: World, step: Step)
    requires !step.Boot? && !step.CreateSession? && !step.CommitRow? && !step.RestoreSession?
    requires !step.RetireListed? && !step.RetireObserved? && !step.Reconcile? && !step.ReconcileCut?
             && !step.HolderLost?
    ensures Quiet(w, Next(w, step))
  {
    hide Reconciled, Orphaned, Exits, Retire, BootDaemon, StartCreating, FinishCreating, StartRestoring, WriteTable,
      WritePart;
  }

  lemma StepKeepsIds(w: World, step: Step)
    requires IdsSound(w)
    ensures IdsSound(Next(w, step))
  {
    hide IdsSound, Quiet;
    match step {
      case Boot(instance, next) => BootKeepsIds(w, instance, next);
      case CreateSession(t) => CreateKeepsIds(w, t);
      case CommitRow(t, cwd, report) => CommitKeepsIds(w, t, cwd, report);
      case RestoreSession(t, id) => RestoreKeepsIds(w, t, id);
      case _ =>
        QuietStep(w, step);
        QuietKeepsIds(w, Next(w, step));
    }
  }

  ghost function Run(w: World, steps: seq<Step>): World
    decreases |steps|
  {
    if steps == [] then w else Run(Next(w, steps[0]), steps[1..])
  }

  lemma {:induction false} RunSnoc(w: World, steps: seq<Step>, e: Step)
    ensures Run(w, steps + [e]) == Next(Run(w, steps), e)
    decreases |steps|
  {
    hide Next;
    if steps == [] {
      assert steps + [e] == [e] && [e][1..] == [];
    } else {
      assert (steps + [e])[0] == steps[0] && (steps + [e])[1..] == steps[1..] + [e];
      RunSnoc(Next(w, steps[0]), steps[1..], e);
    }
  }

  lemma {:induction false} RunAppend(w: World, a: seq<Step>, b: seq<Step>)
    ensures Run(w, a + b) == Run(Run(w, a), b)
    decreases |a|
  {
    hide Next;
    if a == [] {
      assert a + b == b;
    } else {
      assert (a + b)[0] == a[0] && (a + b)[1..] == a[1..] + b;
      RunAppend(Next(w, a[0]), a[1..], b);
    }
  }

  lemma {:induction false} RunKeepsIds(w: World, steps: seq<Step>)
    requires IdsSound(w)
    ensures IdsSound(Run(w, steps))
    decreases |steps|
  {
    if steps != [] {
      StepKeepsIds(w, steps[0]);
      hide IdsSound, Next;
      RunKeepsIds(Next(w, steps[0]), steps[1..]);
    }
  }

  /** Over any run, with any number of daemon and Holder crashes: no two clients are ever given the
      same id; and the next id is neither in the metadata nor held by the Holder, so creating a
      session never collides with one that is still there. */
  lemma ReportedIdsAreDistinct(steps: seq<Step>)
    ensures var w := Run(NOTHING, steps);
            && NoDuplicates(w.reported)
            && (w.daemon.Some? ==> w.daemon.value.next !in w.rows && w.daemon.value.next !in HolderIds(w))
  {
    RunKeepsIds(NOTHING, steps);
    hide Run;
  }
}
