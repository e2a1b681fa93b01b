/** Runs from nothing in which a session leaves the Holder without its exit on record, one for each
    way in which operations on it can get in each other's way (crates/persistd/src/server.rs,
    holder/reconcile.rs). */
module ExitRaces {
  import opened Bytes
  import opened SessionStore
  import opened DaemonLifecycle
  import opened ExitProtocol

  // ---- One session, step by step ------------------------------------------------------------------

  /** The session as the Holder, the table and the clients see it. */
  ghost predicate At(w: World, id: Id, exit: Option<Option<int>>, row: Option<Row>)
  {
    && Serving(w) && w.holder.Some? && id !in w.daemon.value.orphans
    && (if exit.None? then id !in HolderIds(w) else id in HolderIds(w) && ExitOf(w, id) == exit.value)
    && (if row.None? then id !in w.rows else id in w.rows && w.rows[id] == row.value)
  }

  /** Of the threads, only this one has moved. */
  ghost predicate OnlyMoved(w: World, w': World, t: Thread)
  {
    && (forall u :: u != t ==> OpOf(w', u) == OpOf(w, u))
    && w.daemon.Some? && w'.daemon.Some? && w'.daemon.value.instance == w.daemon.value.instance
  }

  lemma Exits1(w: World, id: Id, row: Option<Row>, code: int)
    requires At(w, id, Some(None), row)
    ensures var w' := Next(w, SessionExits(id, code));
            && At(w', id, Some(Some(code)), row) && w'.retired == w.retired
            && w'.daemon == w.daemon && forall t :: OpOf(w', t) == OpOf(w, t)
  {
  }

  lemma Observes(w: World, t: Thread, id: Id, code: int, row: Option<Row>, context: Context)
    requires At(w, id, Some(Some(code)), row) && OpOf(w, t).None?
    ensures var w' := Next(w, Observe(t, id, context));
            && At(w', id, Some(Some(code)), row) && OnlyMoved(w, w', t) && w'.retired == w.retired
            && OpOf(w', t) == Some(Observed(id, code, context))
  {
  }

  function Closed(row: Option<Row>, code: int, context: Context, now: nat): Option<Row>
  {
    if row.None? then None else Some(ClosedRow(row.value, code, context.cwd, context.env, now))
  }

  lemma Persists(w: World, t: Thread, id: Id, exit: Option<Option<int>>, row: Option<Row>, code: int, context: Context,
      now: nat)
    requires At(w, id, exit, row) && OpOf(w, t) == Some(Observed(id, code, context))
    ensures var w' := Next(w, PersistExit(t, now));
            && At(w', id, exit, Closed(row, code, context, now)) && OnlyMoved(w, w', t) && w'.retired == w.retired
            && OpOf(w', t) == Some(Persisted(id))
  {
  }

  lemma Retires(w: World, t: Thread, id: Id, code: int, row: Option<Row>)
    requires At(w, id, Some(Some(code)), row) && OpOf(w, t) == Some(Persisted(id))
    ensures var w' := Next(w, RetireObserved(t));
            && At(w', id, None, row) && OnlyMoved(w, w', t) && OpOf(w', t) == None
            && w'.retired == w.retired + [Retirement(id, code, row)]
  {
  }

  lemma Restores(w: World, t: Thread, id: Id, row: Row)
    requires At(w, id, None, Some(row)) && row.status.Closed? && OpOf(w, t).None?
    ensures var w' := Next(w, RestoreSession(t, id));
            && At(w', id, Some(None), Some(row)) && OnlyMoved(w, w', t) && OpOf(w', t) == Some(Restoring(id))
            && w'.retired == w.retired
  {
  }

  lemma Reopens(w: World, t: Thread, id: Id, exit: Option<Option<int>>, row: Row)
    requires At(w, id, exit, Some(row)) && OpOf(w, t) == Some(Restoring(id))
    ensures var w' := Next(w, ReopenRow(t));
            && At(w', id, exit, Some(RunningRow(ReopenedRow(row), w.daemon.value.instance)))
            && OnlyMoved(w, w', t) && OpOf(w', t) == None && w'.retired == w.retired
  {
  }

  lemma Snaps(w: World, id: Id, exit: Option<int>, row: Option<Row>)
    requires At(w, id, Some(exit), row) && OpOf(w, MAIN).None?
    ensures var w' := Next(w, TakeSnapshot);
            && At(w', id, Some(exit), row) && OnlyMoved(w, w', MAIN) && w'.retired == w.retired
            && Snapped(w', id) && Snapshot(w').value[id] == exit
  {
  }

  /** The pass writes the row from its snapshot, and will retire the session if that says exited. */
  lemma Writes(w: World, id: Id, exit: Option<Option<int>>, row: Row, seen: Option<int>, now: nat)
    requires At(w, id, exit, Some(row)) && Snapped(w, id) && Snapshot(w).value[id] == seen
    requires !Conflicts(row, w.daemon.value.instance)
    ensures var w' := Next(w, Reconcile(map[], now));
            && At(w', id, exit, Some(RowAfter(row, id, map[id := seen], map[], w.daemon.value.instance, now)))
            && OnlyMoved(w, w', MAIN) && w'.retired == w.retired
            && OpOf(w', MAIN).Some? && OpOf(w', MAIN).value.Passed? && id !in OpOf(w', MAIN).value.found
            && (id in OpOf(w', MAIN).value.exits <==> seen.Some?)
  {
  }

  lemma Publishes(w: World, id: Id, exit: Option<Option<int>>, row: Option<Row>)
    requires At(w, id, exit, row) && OpOf(w, MAIN).Some? && OpOf(w, MAIN).value.Passed?
             && id !in OpOf(w, MAIN).value.found
    ensures var w' := Next(w, PublishOrphans);
            && At(w', id, exit, row) && OnlyMoved(w, w', MAIN) && w'.retired == w.retired
            && OpOf(w', MAIN) == Some(Retiring(OpOf(w, MAIN).value.exits))
  {
  }

  lemma ListedRetires(w: World, id: Id, code: int, row: Option<Row>)
    requires At(w, id, Some(Some(code)), row)
    requires OpOf(w, MAIN).Some? && OpOf(w, MAIN).value.Retiring? && id in OpOf(w, MAIN).value.exits
    ensures var w' := Next(w, RetireListed(id));
            && At(w', id, None, row) && OnlyMoved(w, w', MAIN)
            && w'.retired == w.retired + [Retirement(id, code, row)]
  {
  }

  // ---- Runs of a few steps ------------------------------------------------------------------------

  lemma Three(w: World, a: Step, b: Step, c: Step)
    ensures Run(w, [a, b, c]) == Next(Next(Next(w, a), b), c)
  {
    hide Next;
    RunSnoc(w, [], a);
    RunSnoc(w, [a], b);
    RunSnoc(w, [a, b], c);
    assert [] + [a] == [a] && [a] + [b] == [a, b] && [a, b] + [c] == [a, b, c];
  }

  lemma Four(w: World, a: Step, b: Step, c: Step, d: Step)
    ensures Run(w, [a, b, c, d]) == Next(Next(Next(Next(w, a), b), c), d)
  {
    hide Next;
    Three(w, a, b, c);
    RunSnoc(w, [a, b, c], d);
    assert [a, b, c] + [d] == [a, b, c, d];
  }

  lemma Five(w: World, a: Step, b: Step, c: Step, d: Step, e: Step)
    ensures Run(w, [a, b, c, d, e]) == Next(Next(Next(Next(Next(w, a), b), c), d), e)
  {
    hide Next;
    Four(w, a, b, c, d);
    RunSnoc(w, [a, b, c, d], e);
    assert [a, b, c, d] + [e] == [a, b, c, d, e];
  }

  lemma Six(w: World, a: Step, b: Step, c: Step, d: Step, e: Step, f: Step)
    ensures Run(w, [a, b, c, d, e, f]) == Next(Next(Next(Next(Next(Next(w, a), b), c), d), e), f)
  {
    hide Next;
    Five(w, a, b, c, d, e);
    RunSnoc(w, [a, b, c, d, e], f);
    assert [a, b, c, d, e] + [f] == [a, b, c, d, e, f];
  }

  // ---- Ways to leave without a record ---------------------------------------------------------------

  /** One more session has left the Holder, and its exit was not on record. */
  ghost predicate LeftUnrecorded(w: World, w': World)
  {
    |w'.retired| == |w.retired| + 1 && !WasPersisted(w'.retired[|w.retired|])
  }

  lemma CloseLeaves(w: World, t: Thread, id: Id, code: int, row: Option<Row>, context: Context, now: nat)
    requires At(w, id, Some(Some(code)), row) && OpOf(w, t).None?
    ensures var w' := Run(w, [Observe(t, id, context), PersistExit(t, now), RetireObserved(t)]);
            && At(w', id, None, Closed(row, code, context, now)) && OnlyMoved(w, w', t) && OpOf(w', t) == None
            && w'.retired == w.retired + [Retirement(id, code, Closed(row, code, context, now))]
  {
    hide Next, At;
    Three(w, Observe(t, id, context), PersistExit(t, now), RetireObserved(t));
    Observes(w, t, id, code, row, context);
    var w1 := Next(w, Observe(t, id, context));
    Persists(w1, t, id, Some(Some(code)), row, code, context, now);
    Retires(Next(w1, PersistExit(t, now)), t, id, code, Closed(row, code, context, now));
  }

  lemma ReopenBeforeRetiring(w: World, r: Thread, t: Thread, id: Id, code: int, row: Row, context: Context, now: nat)
    requires At(w, id, Some(Some(code)), Some(row)) && OpOf(w, r) == Some(Restoring(id)) && OpOf(w, t).None?
    ensures LeftUnrecorded(w, Run(w, [Observe(t, id, context), PersistExit(t, now), ReopenRow(r), RetireObserved(t)]))
  {
    hide Next, At;
    Four(w, Observe(t, id, context), PersistExit(t, now), ReopenRow(r), RetireObserved(t));
    Observes(w, t, id, code, Some(row), context);
    var w1 := Next(w, Observe(t, id, context));
    var closed := ClosedRow(row, code, context.cwd, context.env, now);
    Persists(w1, t, id, Some(Some(code)), Some(row), code, context, now);
    var w2 := Next(w1, PersistExit(t, now));
    Reopens(w2, r, id, Some(Some(code)), closed);
    Retires(Next(w2, ReopenRow(r)), t, id, code, Some(RunningRow(ReopenedRow(closed), w.daemon.value.instance)));
  }

  lemma StalePassBeforeRetiring(w: World, t: Thread, id: Id, code: int, row: Row, context: Context, now: nat)
    requires At(w, id, Some(Some(code)), Some(row)) && OpOf(w, t).None? && !Conflicts(row, w.daemon.value.instance)
    requires SnappedRunning(w, id)
    ensures LeftUnrecorded(w, Run(w, [Observe(t, id, context), PersistExit(t, now), Reconcile(map[], now),
            RetireObserved(t)]))
    ensures !Records(Run(w, [Observe(t, id, context), PersistExit(t, now), RetireObserved(t),
            Reconcile(map[], now)]).rows, id, code)
  {
    var instance := w.daemon.value.instance;
    var closed := ClosedRow(row, code, context.cwd, context.env, now);
    var after := RowAfter(closed, id, map[id := None], map[], instance, now);
    assert after.status.Running? && !Conflicts(closed, instance);
    hide Next, RowAfter, Conflicts;
    Observes(w, t, id, code, Some(row), context);
    var w1 := Next(w, Observe(t, id, context));
    Persists(w1, t, id, Some(Some(code)), Some(row), code, context, now);
    var w2 := Next(w1, PersistExit(t, now));
    assert Snapshot(w2) == Snapshot(w1) == Snapshot(w);
    Four(w, Observe(t, id, context), PersistExit(t, now), Reconcile(map[], now), RetireObserved(t));
    Writes(w2, id, Some(Some(code)), closed, None, now);
    Retires(Next(w2, Reconcile(map[], now)), t, id, code, Some(after));
    Four(w, Observe(t, id, context), PersistExit(t, now), RetireObserved(t), Reconcile(map[], now));
    Retires(w2, t, id, code, Some(closed));
    Writes(Next(w2, RetireObserved(t)), id, None, closed, None, now);
  }

  lemma RetireTheNext(w: World, r: Thread, t: Thread, id: Id, row: Row, code: int)
    requires At(w, id, None, Some(row)) && row.status.Closed? && OpOf(w, r).None? && OpOf(w, t) == Some(Persisted(id))
    ensures LeftUnrecorded(w, Run(w, [RestoreSession(r, id), ReopenRow(r), SessionExits(id, code), RetireObserved(t)]))
  {
    var open := RunningRow(ReopenedRow(row), w.daemon.value.instance);
    hide Next, At;
    Four(w, RestoreSession(r, id), ReopenRow(r), SessionExits(id, code), RetireObserved(t));
    Restores(w, r, id, row);
    var w1 := Next(w, RestoreSession(r, id));
    Reopens(w1, r, id, Some(None), row);
    var w2 := Next(w1, ReopenRow(r));
    Exits1(w2, id, Some(open), code);
    Retires(Next(w2, SessionExits(id, code)), t, id, code, Some(open));
  }

  lemma WriteTheFirstExit(w: World, r: Thread, t: Thread, id: Id, row: Row, was: int, code: int, context: Context,
      now: nat)
    requires At(w, id, None, Some(row)) && row.status.Closed? && code != was
    requires OpOf(w, r).None? && OpOf(w, t) == Some(Observed(id, was, context))
    ensures LeftUnrecorded(w, Run(w, [RestoreSession(r, id), ReopenRow(r), SessionExits(id, code),
                                      PersistExit(t, now), RetireObserved(t)]))
  {
    var open := RunningRow(ReopenedRow(row), w.daemon.value.instance);
    hide Next, At;
    Five(w, RestoreSession(r, id), ReopenRow(r), SessionExits(id, code), PersistExit(t, now), RetireObserved(t));
    Restores(w, r, id, row);
    var w1 := Next(w, RestoreSession(r, id));
    Reopens(w1, r, id, Some(None), row);
    var w2 := Next(w1, ReopenRow(r));
    Exits1(w2, id, Some(open), code);
    var w3 := Next(w2, SessionExits(id, code));
    Persists(w3, t, id, Some(Some(code)), Some(open), was, context, now);
    Retires(Next(w3, PersistExit(t, now)), t, id, code, Closed(Some(open), was, context, now));
  }

  lemma PassWritesTheOld(w: World, r: Thread, id: Id, row: Row, was: int, code: int, now: nat)
    requires At(w, id, None, Some(row)) && row.status.Closed? && OpOf(w, r).None? && code != was
    requires Snapped(w, id) && Snapshot(w).value[id] == Some(was)
    ensures LeftUnrecorded(w, Run(w, [RestoreSession(r, id), ReopenRow(r), SessionExits(id, code),
                                      Reconcile(map[], now), PublishOrphans, RetireListed(id)]))
  {
    var instance := w.daemon.value.instance;
    var open := RunningRow(ReopenedRow(row), instance);
    var after := RowAfter(open, id, map[id := Some(was)], map[], instance, now);
    assert after.exitCode == Some(was) && !Conflicts(open, instance);
    hide Next, At, RowAfter, Conflicts;
    Six(w, RestoreSession(r, id), ReopenRow(r), SessionExits(id, code), Reconcile(map[], now), PublishOrphans,
      RetireListed(id));
    Restores(w, r, id, row);
    var w1 := Next(w, RestoreSession(r, id));
    Reopens(w1, r, id, Some(None), row);
    var w2 := Next(w1, ReopenRow(r));
    Exits1(w2, id, Some(open), code);
    var w3 := Next(w2, SessionExits(id, code));
    assert Snapshot(w3) == Snapshot(w2) == Snapshot(w1) == Snapshot(w);
    Writes(w3, id, Some(Some(code)), open, Some(was), now);
    var w4 := Next(w3, Reconcile(map[], now));
    Publishes(w4, id, Some(Some(code)), Some(after));
    ListedRetires(Next(w4, PublishOrphans), id, code, Some(after));
  }

  lemma ReopenAfterPass(w: World, r: Thread, id: Id, row: Row, code: int, now: nat)
    requires At(w, id, Some(Some(code)), Some(row)) && !Conflicts(row, w.daemon.value.instance)
    requires OpOf(w, r) == Some(Restoring(id)) && OpOf(w, MAIN).None?
    ensures LeftUnrecorded(w, Run(w, [TakeSnapshot, Reconcile(map[], now), ReopenRow(r), PublishOrphans,
            RetireListed(id)]))
  {
    var instance := w.daemon.value.instance;
    var after := RowAfter(row, id, map[id := Some(code)], map[], instance, now);
    var reopened := RunningRow(ReopenedRow(after), instance);
    assert reopened.status.Running?;
    hide Next, At, RowAfter, Conflicts;
    Five(w, TakeSnapshot, Reconcile(map[], now), ReopenRow(r), PublishOrphans, RetireListed(id));
    Snaps(w, id, Some(code), Some(row));
    var w1 := Next(w, TakeSnapshot);
    Writes(w1, id, Some(Some(code)), row, Some(code), now);
    var w2 := Next(w1, Reconcile(map[], now));
    Reopens(w2, r, id, Some(Some(code)), after);
    var w3 := Next(w2, ReopenRow(r));
    Publishes(w3, id, Some(Some(code)), Some(reopened));
    ListedRetires(Next(w3, PublishOrphans), id, code, Some(reopened));
  }

  // ---- It does happen -------------------------------------------------------------------------------

  const UNKNOWN := Context(None, None)

  /** A daemon starts for the first time and creates a session. */
  const CREATED: seq<Step> := [Boot(9, 1), Reconcile(map[], 0), PublishOrphans, FinishPass, CreateSession(1)]

  /** And then adds its row. */
  const OPEN: seq<Step> := CREATED + [CommitRow(1, None, false)]

  const ROW := RunningRow(NewRow(None), 9)
  const ENDED := ClosedRow(ROW, 7, None, None, 0)

  function Close(t: Thread): seq<Step>
  {
    [Observe(t, 1, UNKNOWN), PersistExit(t, 0), RetireObserved(t)]
  }

  /** The daemon on its way up, and the session in the Holder once it has been created. */
  function Starting(serving: bool, next: nat, ops: map<Thread, Op>, sessions: map<Id, Option<int>>): World
  {
    World(Some(Holder(9, sessions)), map[], Some(Daemon(9, next, {}, serving, ops, {})), [], [], map[])
  }

  lemma FirstBoot()
    ensures Next(NOTHING, Boot(9, 1)) == Starting(false, 1, map[MAIN := Snapshotted(map[])], map[])
  {
    assert IsSuccessor(1, NOTHING.rows.Keys) && IsSuccessor(1, HolderIds(NOTHING)) && 1 == Max(1, 1);
    assert FirstFree(NOTHING, 1);
  }

  lemma FirstPass()
    ensures Next(Starting(false, 1, map[MAIN := Snapshotted(map[])], map[]), Reconcile(map[], 0))
         == Starting(false, 1, map[MAIN := Passed({}, {})], map[])
  {
    var s := map[MAIN := Snapshotted(map[])];
    var w := Starting(false, 1, s, map[]);
    assert s[MAIN := Passed({}, {})] == map[MAIN := Passed({}, {})];
    assert Orphaned(w.rows, map[], 9) == {} && Exits(w.rows, map[], 9) == {};
    assert Reconciled(w.rows, map[], map[], 9, 0, w.rows.Keys) == map[];
    hide Reconciled, Orphaned, Exits;
  }

  lemma FirstPublication()
    ensures Next(Starting(false, 1, map[MAIN := Passed({}, {})], map[]), PublishOrphans)
         == Starting(false, 1, map[MAIN := Retiring({})], map[])
  {
    var none: set<Id> := {};
    assert none - {} == none;
    assert map[MAIN := Passed({}, {})][MAIN := Retiring({})] == map[MAIN := Retiring({})];
  }

  lemma FirstPassEnds()
    ensures Next(Starting(false, 1, map[MAIN := Retiring({})], map[]), FinishPass) == Starting(true, 1, map[], map[])
  {
    assert map[MAIN := Retiring({})] - {MAIN} == map[];
  }

  lemma FirstCreation()
    ensures Next(Starting(true, 1, map[], map[]), CreateSession(1))
            == Starting(true, 2, map[1 := Creating(1)], map[1 := None])
  {
    var none: map<Id, int> := map[];
    assert none - {1} == none;
  }

  lemma Starts()
    ensures var w := Run(NOTHING, CREATED);
            && At(w, 1, Some(None), None) && w.retired == [] && w.daemon.value.instance == 9
            && OpOf(w, 1) == Some(Creating(1)) && forall t :: t != 1 ==> OpOf(w, t) == None
  {
    hide Next, Run;
    FirstBoot();
    FirstPass();
    FirstPublication();
    FirstPassEnds();
    FirstCreation();
    Five(NOTHING, Boot(9, 1), Reconcile(map[], 0), PublishOrphans, FinishPass, CreateSession(1));
    assert Run(NOTHING, CREATED) == Starting(true, 2, map[1 := Creating(1)], map[1 := None]);
  }

  lemma Opens()
    ensures var w := Run(NOTHING, OPEN);
            && At(w, 1, Some(None), Some(ROW)) && w.retired == [] && w.daemon.value.instance == 9
            && forall t :: OpOf(w, t) == None
  {
    Starts();
    RunSnoc(NOTHING, CREATED, CommitRow(1, None, false));
    var w := Run(NOTHING, CREATED);
    hide Run;
    assert forall t :: t != 1 ==> OpOf(Next(w, CommitRow(1, None, false)), t) == OpOf(w, t);
  }

  /** A session is closed while another client is still creating it. */
  lemma ClosedBeforeItsRow()
    ensures Run(NOTHING, CREATED + [SessionExits(1, 7)] + Close(2)).retired == [Retirement(1, 7, None)]
  {
    hide Next, At, Run;
    Starts();
    var w := Run(NOTHING, CREATED);
    RunSnoc(NOTHING, CREATED, SessionExits(1, 7));
    Exits1(w, 1, None, 7);
    RunAppend(NOTHING, CREATED + [SessionExits(1, 7)], Close(2));
    CloseLeaves(Next(w, SessionExits(1, 7)), 2, 1, 7, None, UNKNOWN, 0);
  }

  /** The answer to a creation is lost, and another client closes the session before a pass has found
      it. */
  lemma LostAnswer()
    ensures Run(NOTHING, CREATED + [GiveUp(1)] + [SessionExits(1, 7)] + Close(2)).retired == [Retirement(1, 7, None)]
  {
    hide Next, At, Run;
    Starts();
    var w := Run(NOTHING, CREATED);
    RunSnoc(NOTHING, CREATED, GiveUp(1));
    GivesUp(w, 1, 1);
    var w1 := Next(w, GiveUp(1));
    RunSnoc(NOTHING, CREATED + [GiveUp(1)], SessionExits(1, 7));
    Exits1(w1, 1, None, 7);
    RunAppend(NOTHING, CREATED + [GiveUp(1)] + [SessionExits(1, 7)], Close(2));
    CloseLeaves(Next(w1, SessionExits(1, 7)), 2, 1, 7, None, UNKNOWN, 0);
  }

  lemma GivesUp(w: World, t: Thread, id: Id)
    requires At(w, id, Some(None), None) && OpOf(w, t) == Some(Creating(id))
    ensures var w' := Next(w, GiveUp(t));
            At(w', id, Some(None), None) && OnlyMoved(w, w', t) && w'.retired == w.retired
  {
  }

  /** The session has exited and may be closed by anybody. */
  const OVER := OPEN + [SessionExits(1, 7)]

  lemma Exits7()
    ensures var w := Run(NOTHING, OVER);
            && At(w, 1, Some(Some(7)), Some(ROW)) && w.retired == [] && w.daemon.value.instance == 9
            && forall t :: OpOf(w, t) == None
  {
    hide Next, At, Run;
    Opens();
    RunSnoc(NOTHING, OPEN, SessionExits(1, 7));
    Exits1(Run(NOTHING, OPEN), 1, Some(ROW), 7);
  }

  /** Closed and restored, and exited again before its row has been reopened. */
  const AGAIN := OVER + Close(1) + [RestoreSession(3, 1), SessionExits(1, 8)]

  lemma ExitsAgain()
    ensures var w := Run(NOTHING, AGAIN);
            && At(w, 1, Some(Some(8)), Some(ENDED)) && w.daemon.value.instance == 9
            && OpOf(w, 3) == Some(Restoring(1)) && forall t :: t != 3 ==> OpOf(w, t) == None
  {
    hide Next, At, Run;
    Exits7();
    var w := Run(NOTHING, OVER);
    RunAppend(NOTHING, OVER, Close(1));
    CloseLeaves(w, 1, 1, 7, Some(ROW), UNKNOWN, 0);
    var w1 := Run(w, Close(1));
    Restores(w1, 3, 1, ENDED);
    var w2 := Next(w1, RestoreSession(3, 1));
    Exits1(w2, 1, Some(ENDED), 8);
    Two(w1, RestoreSession(3, 1), SessionExits(1, 8));
    RunAppend(NOTHING, OVER + Close(1), [RestoreSession(3, 1), SessionExits(1, 8)]);
  }

  lemma Two(w: World, a: Step, b: Step)
    ensures Run(w, [a, b]) == Next(Next(w, a), b)
  {
    hide Next;
    RunSnoc(w, [], a);
    RunSnoc(w, [a], b);
    assert [] + [a] == [a] && [a] + [b] == [a, b];
  }

  /** The row is reopened between closing and retiring. */
  lemma ReopenedTooLate()
    ensures !PersistedFirst(Run(NOTHING, AGAIN + [Observe(2, 1, UNKNOWN), PersistExit(2, 0), ReopenRow(3),
            RetireObserved(2)]))
  {
    hide Next, At, Run;
    ExitsAgain();
    var w := Run(NOTHING, AGAIN);
    ReopenBeforeRetiring(w, 3, 2, 1, 8, ENDED, UNKNOWN, 0);
    RunAppend(NOTHING, AGAIN, [Observe(2, 1, UNKNOWN), PersistExit(2, 0), ReopenRow(3), RetireObserved(2)]);
  }

  /** The row is reopened between a pass's writing and its retiring. */
  lemma PassedTooEarly()
    ensures !PersistedFirst(Run(NOTHING, AGAIN + [TakeSnapshot, Reconcile(map[], 0), ReopenRow(3), PublishOrphans,
            RetireListed(1)]))
  {
    hide Next, At, Run;
    ExitsAgain();
    var w := Run(NOTHING, AGAIN);
    assert !Conflicts(ENDED, 9);
    ReopenAfterPass(w, 3, 1, ENDED, 8, 0);
    RunAppend(NOTHING, AGAIN, [TakeSnapshot, Reconcile(map[], 0), ReopenRow(3), PublishOrphans, RetireListed(1)]);
  }

  /** A pass still working from a snapshot taken before the exit writes between closing and
      retiring, or after it. */
  lemma StalePassForgetsTheExit()
    ensures !PersistedFirst(Run(NOTHING, OPEN + [TakeSnapshot, SessionExits(1, 7)]
                                         + [Observe(2, 1, UNKNOWN), PersistExit(2, 0), Reconcile(map[], 0),
                                           RetireObserved(2)]))
    ensures !Records(Run(NOTHING, OPEN + [TakeSnapshot, SessionExits(1, 7)]
                                  + [Observe(2, 1, UNKNOWN), PersistExit(2, 0), RetireObserved(2),
                                    Reconcile(map[], 0)]).rows, 1, 7)
  {
    hide Next, At, Run;
    Opens();
    var w := Run(NOTHING, OPEN);
    Snaps(w, 1, None, Some(ROW));
    var w1 := Next(w, TakeSnapshot);
    Exits1(w1, 1, Some(ROW), 7);
    var w2 := Next(w1, SessionExits(1, 7));
    Two(w, TakeSnapshot, SessionExits(1, 7));
    RunAppend(NOTHING, OPEN, [TakeSnapshot, SessionExits(1, 7)]);
    assert Snapshot(w2) == Snapshot(w1);
    StalePassBeforeRetiring(w2, 2, 1, 7, ROW, UNKNOWN, 0);
    RunAppend(NOTHING, OPEN + [TakeSnapshot, SessionExits(1, 7)],
      [Observe(2, 1, UNKNOWN), PersistExit(2, 0), Reconcile(map[], 0), RetireObserved(2)]);
    RunAppend(NOTHING, OPEN + [TakeSnapshot, SessionExits(1, 7)],
      [Observe(2, 1, UNKNOWN), PersistExit(2, 0), RetireObserved(2), Reconcile(map[], 0)]);
  }

  /** A second client that has written the exit retires what a third has restored since. */
  lemma SecondCloserRetiresTheNext()
    ensures !PersistedFirst(Run(NOTHING, OVER + [Observe(2, 1, UNKNOWN), PersistExit(2, 0)] + Close(1)
                                         + [RestoreSession(3, 1), ReopenRow(3), SessionExits(1, 8), RetireObserved(2)]))
  {
    hide Next, At, Run;
    Exits7();
    var w := Run(NOTHING, OVER);
    Observes(w, 2, 1, 7, Some(ROW), UNKNOWN);
    var w1 := Next(w, Observe(2, 1, UNKNOWN));
    Persists(w1, 2, 1, Some(Some(7)), Some(ROW), 7, UNKNOWN, 0);
    var w2 := Next(w1, PersistExit(2, 0));
    Two(w, Observe(2, 1, UNKNOWN), PersistExit(2, 0));
    RunAppend(NOTHING, OVER, [Observe(2, 1, UNKNOWN), PersistExit(2, 0)]);
    var steps := OVER + [Observe(2, 1, UNKNOWN), PersistExit(2, 0)];
    CloseLeaves(w2, 1, 1, 7, Some(ENDED), UNKNOWN, 0);
    RunAppend(NOTHING, steps, Close(1));
    RetireTheNext(Run(w2, Close(1)), 3, 2, 1, ClosedRow(ENDED, 7, None, None, 0), 8);
    RunAppend(NOTHING, steps + Close(1), [RestoreSession(3, 1), ReopenRow(3), SessionExits(1, 8), RetireObserved(2)]);
  }

  /** A second client that has seen the exit writes it over what a third has restored since. */
  lemma SecondCloserWritesTheFirstExit()
    ensures !PersistedFirst(Run(NOTHING, OVER + [Observe(2, 1, UNKNOWN)] + Close(1)
                                         + [RestoreSession(3, 1), ReopenRow(3), SessionExits(1, 8), PersistExit(2, 0),
                                           RetireObserved(2)]))
  {
    hide Next, At, Run;
    Exits7();
    var w := Run(NOTHING, OVER);
    Observes(w, 2, 1, 7, Some(ROW), UNKNOWN);
    var w1 := Next(w, Observe(2, 1, UNKNOWN));
    RunSnoc(NOTHING, OVER, Observe(2, 1, UNKNOWN));
    var steps := OVER + [Observe(2, 1, UNKNOWN)];
    CloseLeaves(w1, 1, 1, 7, Some(ROW), UNKNOWN, 0);
    RunAppend(NOTHING, steps, Close(1));
    WriteTheFirstExit(Run(w1, Close(1)), 3, 2, 1, ENDED, 7, 8, UNKNOWN, 0);
    RunAppend(NOTHING, steps + Close(1), [RestoreSession(3, 1), ReopenRow(3), SessionExits(1, 8), PersistExit(2, 0),
      RetireObserved(2)]);
  }

  /** A pass that saw the first exit writes it over what has been restored since. */
  lemma PassWritesTheFirstExit()
    ensures !PersistedFirst(Run(NOTHING, OVER + [TakeSnapshot] + Close(1)
                                         + [RestoreSession(3, 1), ReopenRow(3), SessionExits(1, 8),
                                            Reconcile(map[], 0), PublishOrphans, RetireListed(1)]))
  {
    hide Next, At, Run;
    Exits7();
    var w := Run(NOTHING, OVER);
    Snaps(w, 1, Some(7), Some(ROW));
    var w1 := Next(w, TakeSnapshot);
    RunSnoc(NOTHING, OVER, TakeSnapshot);
    var steps := OVER + [TakeSnapshot];
    CloseLeaves(w1, 1, 1, 7, Some(ROW), UNKNOWN, 0);
    RunAppend(NOTHING, steps, Close(1));
    var w2 := Run(w1, Close(1));
    assert Snapshot(w2) == Snapshot(w1);
    PassWritesTheOld(w2, 3, 1, ENDED, 7, 8, 0);
    RunAppend(NOTHING, steps + Close(1), [RestoreSession(3, 1), ReopenRow(3), SessionExits(1, 8),
                                          Reconcile(map[], 0), PublishOrphans, RetireListed(1)]);
  }
}
