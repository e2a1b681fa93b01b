/** Exactly when the end of a session is on record, for every run and every interleaving: the last
    step that wrote the session's row decides (crates/persistd/src/server.rs, holder/reconcile.rs). */
module ExitRecords {
  import opened Bytes
  import opened SessionStore
  import opened DaemonLifecycle
  import opened ExitProtocol

  /** What a pass that gets as far as `done` says in a row: its snapshot's view of the session. A
      session it does not know, or that belongs to another Holder, it can only mark as lost, and that
      leaves a recorded end alone. */
  function PassSays(w: World, id: Id, done: set<Id>): Option<Option<int>>
  {
    if Snapped(w, id) && id in w.rows && id in done && !Conflicts(w.rows[id], w.daemon.value.instance)
    then Some(Snapshot(w).value[id])
    else None
  }

  /** What a step says in a session's row about its end: nothing, that it has not ended, or its exit
      code. */
  function Written(w: World, step: Step, id: Id): Option<Option<int>>
  {
    match step
    case CommitRow(t, _, _) => if OpOf(w, t) == Some(Creating(id)) && id !in w.rows then Some(None) else None
    case PersistExit(t, _) => if IsObserved(w, t, id) && id in w.rows then Some(Some(OpOf(w, t).value.code)) else None
    case ReopenRow(t) => if IsRestoring(w, t, id) && id in w.rows then Some(None) else None
    case Reconcile(_, _) => PassSays(w, id, w.rows.Keys)
    case ReconcileCut(_, _, done) => PassSays(w, id, done)
    case _ => None
  }

  /** The same as a fold over what was on record before. */
  predicate RecordsAfter(said: Option<Option<int>>, code: int, was: bool)
  {
    if said.Some? then said.value == Some(code) else was
  }

  /** Every step, in every state. */
  lemma StepRecords(w: World, step: Step, id: Id, code: int)
    ensures Records(Next(w, step).rows, id, code)
        <==> RecordsAfter(Written(w, step, id), code, Records(w.rows, id, code))
    ensures id in Next(w, step).rows <==> id in w.rows || Written(w, step, id).Some?
  {
    hide Next, Written, Records;
    if step.Reconcile? || step.ReconcileCut? || step.HolderLost? {
      PassRecords(w, step, id, code);
    } else {
      PlainStepRecords(w, step, id, code);
    }
  }

  lemma PassRecords(w: World, step: Step, id: Id, code: int)
    requires step.Reconcile? || step.ReconcileCut? || step.HolderLost?
    ensures Records(Next(w, step).rows, id, code)
        <==> RecordsAfter(Written(w, step, id), code, Records(w.rows, id, code))
    ensures id in Next(w, step).rows <==> id in w.rows || Written(w, step, id).Some?
  {
    hide Exits, Orphaned;
  }

  lemma PlainStepRecords(w: World, step: Step, id: Id, code: int)
    requires !step.Reconcile? && !step.ReconcileCut? && !step.HolderLost?
    ensures Records(Next(w, step).rows, id, code)
        <==> RecordsAfter(Written(w, step, id), code, Records(w.rows, id, code))
    ensures id in Next(w, step).rows <==> id in w.rows || Written(w, step, id).Some?
  {
    hide FirstFree, Exits, Orphaned, Reconciled, PassSays;
  }

  // ---- Runs ---------------------------------------------------------------------------------------

  /** The last thing a run says in the row. */
  ghost function LastWritten(w: World, steps: seq<Step>, id: Id): Option<Option<int>>
    decreases |steps|
  {
    if steps == [] then None
    else
      var init := steps[..|steps| - 1];
      var said := Written(Run(w, init), steps[|steps| - 1], id);
      if said.Some? then said else LastWritten(w, init, id)
  }

  lemma RunLast(w: World, steps: seq<Step>)
    requires steps != []
    ensures Run(w, steps) == Next(Run(w, steps[..|steps| - 1]), steps[|steps| - 1])
  {
    RunSnoc(w, steps[..|steps| - 1], steps[|steps| - 1]);
    hide Next, Run;
    assert steps[..|steps| - 1] + [steps[|steps| - 1]] == steps;
  }

  /** In every run from every state, an exit code is on record exactly if it is the last thing the run
      said in the row, or was there before and the run said nothing. */
  lemma {:induction false} RecordedIffLastWritten(w: World, steps: seq<Step>, id: Id, code: int)
    ensures Records(Run(w, steps).rows, id, code)
        <==> RecordsAfter(LastWritten(w, steps, id), code, Records(w.rows, id, code))
    ensures id in Run(w, steps).rows <==> id in w.rows || LastWritten(w, steps, id).Some?
    decreases |steps|
  {
    if steps != [] {
      hide Next, Written, Records, Run;
      var init := steps[..|steps| - 1];
      RunLast(w, steps);
      StepRecords(Run(w, init), steps[|steps| - 1], id, code);
      RecordedIffLastWritten(w, init, id, code);
    }
  }

  // ---- Sessions leaving the Holder ------------------------------------------------------------------

  /** The session that leaves the Holder in this step, if any. */
  function Leaving(w: World, step: Step): Option<Id>
  {
    match step
    case RetireListed(id) =>
      if OpOf(w, MAIN).Some? && OpOf(w, MAIN).value.Retiring? && id in OpOf(w, MAIN).value.exits && ExitOf(w, id).Some?
      then Some(id)
      else None
    case RetireObserved(t) =>
      if OpOf(w, t).Some? && OpOf(w, t).value.Persisted? && ExitOf(w, OpOf(w, t).value.id).Some?
      then Some(OpOf(w, t).value.id)
      else None
    case _ => None
  }

  /** A step retires at most one session, with its exit code and its row as they are. */
  lemma LeavesAsItIs(w: World, step: Step)
    ensures var left := Leaving(w, step);
            Next(w, step).retired
            == w.retired + if left.None? then []
                           else [Retirement(left.value, ExitOf(w, left.value).value,
                                            if left.value in w.rows then Some(w.rows[left.value]) else None)]
    ensures Leaving(w, step).Some? ==> ExitOf(w, Leaving(w, step).value).Some?
  {
    assert w.retired + [] == w.retired;
    hide FirstFree, Reconciled, Exits, Orphaned;
  }

  /** The exit was on record when the session left. */
  ghost predicate LeftOnRecord(w: World, step: Step)
  {
    var before := |w.retired|;
    before < |Next(w, step).retired| && WasPersisted(Next(w, step).retired[before])
  }

  lemma LeftIffRecorded(w: World, step: Step, id: Id)
    requires Leaving(w, step) == Some(id)
    ensures ExitOf(w, id).Some?
    ensures LeftOnRecord(w, step) <==> Records(w.rows, id, ExitOf(w, id).value)
  {
    hide Next;
    LeavesAsItIs(w, step);
  }

  /** In every run, a session leaves the Holder with its exit on record if and only if that exit is
      the last thing that was said in its row before. */
  lemma RetiredIffLastWritten(steps: seq<Step>, n: nat, id: Id)
    requires n < |steps| && Leaving(Run(NOTHING, steps[..n]), steps[n]) == Some(id)
    ensures var w := Run(NOTHING, steps[..n]);
            && ExitOf(w, id).Some?
            && (LeftOnRecord(w, steps[n]) <==> LastWritten(NOTHING, steps[..n], id) == Some(ExitOf(w, id)))
  {
    hide Leaving, LeftOnRecord, Run, LastWritten;
    var w := Run(NOTHING, steps[..n]);
    LeftIffRecorded(w, steps[n], id);
    RecordedIffLastWritten(NOTHING, steps[..n], id, ExitOf(w, id).value);
  }

  /** If a session leaves in this step, the last thing said in its row was its exit. */
  ghost predicate LeavesWell(before: seq<Step>, step: Step)
  {
    var w := Run(NOTHING, before);
    var left := Leaving(w, step);
    left.Some? ==> LastWritten(NOTHING, before, left.value) == Some(ExitOf(w, left.value))
  }

  ghost predicate AlwaysLeavesWell(steps: seq<Step>)
  {
    forall n :: 0 <= n < |steps| ==> LeavesWell(steps[..n], steps[n])
  }

  lemma WellSoFar(steps: seq<Step>)
    requires steps != []
    ensures var last := |steps| - 1;
            AlwaysLeavesWell(steps) <==> AlwaysLeavesWell(steps[..last]) && LeavesWell(steps[..last], steps[last])
  {
    hide LeavesWell;
    var last := |steps| - 1;
    var init := steps[..last];
    assert forall n :: 0 <= n < last ==> init[..n] == steps[..n] && init[n] == steps[n];
    if AlwaysLeavesWell(init) && LeavesWell(init, steps[last]) {
      forall n | 0 <= n < |steps| ensures LeavesWell(steps[..n], steps[n]) {
        assert n < last ==> LeavesWell(init[..n], init[n]);
      }
    }
    if AlwaysLeavesWell(steps) {
      forall n | 0 <= n < last ensures LeavesWell(init[..n], init[n]) {
        assert LeavesWell(steps[..n], steps[n]);
      }
    }
  }

  /** Nothing that left before is forgotten, and what leaves now is as its row is. */
  lemma OneMoreLeft(before: seq<Step>, step: Step)
    ensures var w := Run(NOTHING, before);
            PersistedFirst(Next(w, step)) <==> PersistedFirst(w) && LeavesWell(before, step)
  {
    hide Run, Next, Leaving, LastWritten, WasPersisted;
    var w := Run(NOTHING, before);
    LeavesAsItIs(w, step);
    assert w.retired + [] == w.retired;
    if Leaving(w, step).Some? {
      var id := Leaving(w, step).value;
      LeftIffRecorded(w, step, id);
      RecordedIffLastWritten(NOTHING, before, id, ExitOf(w, id).value);
      var r := Next(w, step).retired;
      assert forall i :: 0 <= i < |w.retired| ==> r[i] == w.retired[i];
      assert PersistedFirst(Next(w, step)) <==> PersistedFirst(w) && WasPersisted(r[|w.retired|]);
    }
  }

  /** Persist before retire, exactly: it holds of a run if and only if the last thing said in the row
      of each session that left was its exit. */
  lemma {:induction false} PersistedFirstIffLastWritten(steps: seq<Step>)
    ensures PersistedFirst(Run(NOTHING, steps)) <==> AlwaysLeavesWell(steps)
    decreases |steps|
  {
    if steps != [] {
      hide Next, LeavesWell, AlwaysLeavesWell, WasPersisted, PersistedFirst, Run;
      var last := |steps| - 1;
      WellSoFar(steps);
      PersistedFirstIffLastWritten(steps[..last]);
      RunLast(NOTHING, steps);
      OneMoreLeft(steps[..last], steps[last]);
    }
  }

  // ---- Afterwards -----------------------------------------------------------------------------------

  /** What has left the Holder and not been started again is not in it. */
  ghost predicate EndedAreGone(w: World)
  {
    forall id :: id in w.ended ==> id !in HolderIds(w)
  }

  lemma StepKeepsGone(w: World, step: Step)
    requires EndedAreGone(w)
    ensures EndedAreGone(Next(w, step))
  {
    hide FirstFree, Reconciled, Exits, Orphaned;
  }

  lemma {:induction false} RunKeepsGone(w: World, steps: seq<Step>)
    requires EndedAreGone(w)
    ensures EndedAreGone(Run(w, steps))
    decreases |steps|
  {
    if steps != [] {
      hide EndedAreGone, Next;
      StepKeepsGone(w, steps[0]);
      RunKeepsGone(Next(w, steps[0]), steps[1..]);
    }
  }

  /** And it stays on record exactly as long as nothing else is said in the row. */
  lemma StaysIffLastWritten(steps: seq<Step>)
    ensures var w := Run(NOTHING, steps);
            StaysOnRecord(w) <==> forall id ::
              id in w.ended ==> LastWritten(NOTHING, steps, id) == Some(Some(w.ended[id]))
  {
    var w := Run(NOTHING, steps);
    RunKeepsGone(NOTHING, steps);
    hide Run, LastWritten;
    forall id | id in w.ended
      ensures Records(w.rows, id, w.ended[id]) <==> LastWritten(NOTHING, steps, id) == Some(Some(w.ended[id]))
    {
      RecordedIffLastWritten(NOTHING, steps, id, w.ended[id]);
    }
  }

  // ---- Where two operations meet ----------------------------------------------------------------------

  ghost function WrittenAt(w: World, steps: seq<Step>, i: nat, id: Id): Option<Option<int>>
    requires i < |steps|
  {
    Written(Run(w, steps[..i]), steps[i], id)
  }

  /** Of all the steps, at most these two say anything in the row. */
  ghost predicate OnlyWriters(w: World, steps: seq<Step>, id: Id, i: nat, j: nat)
  {
    forall k :: 0 <= k < |steps| && k != i && k != j ==> WrittenAt(w, steps, k, id) == None
  }

  /** What stands in the row after `n` steps if `a` is said at `i` and `b` at `j`. */
  function Later(a: Option<Option<int>>, i: nat, b: Option<Option<int>>, j: nat, n: nat): Option<Option<int>>
  {
    if i < n && a.Some? && !(i < j < n && b.Some?) then a
    else if j < n then b
    else None
  }

  lemma {:induction false} LastOfTwo(w: World, steps: seq<Step>, id: Id, i: nat, j: nat, n: nat)
    requires i < |steps| && j < |steps| && n <= |steps| && OnlyWriters(w, steps, id, i, j)
    ensures LastWritten(w, steps[..n], id)
         == Later(WrittenAt(w, steps, i, id), i, WrittenAt(w, steps, j, id), j, n)
    decreases n
  {
    if n > 0 {
      LastOfTwo(w, steps, id, i, j, n - 1);
      assert steps[..n][..n - 1] == steps[..n - 1] && steps[..n][n - 1] == steps[n - 1];
      assert n - 1 != i && n - 1 != j ==> WrittenAt(w, steps, n - 1, id) == None;
      hide Written, Run;
    }
  }

  /** After `n` steps, the exit code is on record, or not; a session that leaves with that code in the
      next step leaves with its exit on record, or not. */
  ghost predicate OnRecord(w: World, steps: seq<Step>, n: nat, id: Id, code: int, yes: bool)
    requires n <= |steps|
  {
    && (Records(Run(w, steps[..n]).rows, id, code) <==> yes)
    && (n < |steps| && Leaving(Run(w, steps[..n]), steps[n]) == Some(id)
         && ExitOf(Run(w, steps[..n]), id) == Some(code) ==>
          (LeftOnRecord(Run(w, steps[..n]), steps[n]) <==> yes))
  }

  lemma Settles(w: World, steps: seq<Step>, n: nat, id: Id, code: int)
    requires n <= |steps|
    ensures OnRecord(w, steps, n, id, code,
                     RecordsAfter(LastWritten(w, steps[..n], id), code, Records(w.rows, id, code)))
  {
    hide Run, LastWritten, Leaving, LeftOnRecord;
    RecordedIffLastWritten(w, steps[..n], id, code);
    if n < |steps| && Leaving(Run(w, steps[..n]), steps[n]) == Some(id) {
      LeftIffRecorded(Run(w, steps[..n]), steps[n], id);
    }
  }

  /** A close writes the exit it has seen, if there is a row. */
  ghost predicate ClosesAt(w: World, steps: seq<Step>, i: nat, id: Id, code: int)
  {
    && i < |steps| && steps[i].PersistExit?
    && IsObserved(Run(w, steps[..i]), steps[i].t, id) && OpOf(Run(w, steps[..i]), steps[i].t).value.code == code
  }

  ghost predicate CommitsAt(w: World, steps: seq<Step>, j: nat, id: Id)
  {
    j < |steps| && steps[j].CommitRow? && OpOf(Run(w, steps[..j]), steps[j].t) == Some(Creating(id))
  }

  ghost predicate ReopensAt(w: World, steps: seq<Step>, j: nat, id: Id)
  {
    j < |steps| && steps[j].ReopenRow? && IsRestoring(Run(w, steps[..j]), steps[j].t, id)
  }

  ghost predicate PassesAt(w: World, steps: seq<Step>, j: nat, id: Id, seen: Option<int>)
  {
    j < |steps| && (steps[j].Reconcile? || steps[j].ReconcileCut?) && WrittenAt(w, steps, j, id) == Some(seen)
  }

  lemma RowIsThere(w: World, steps: seq<Step>, i: nat, id: Id)
    requires id in w.rows && i <= |steps|
    ensures id in Run(w, steps[..i]).rows
  {
    RecordedIffLastWritten(w, steps[..i], id, 0);
    hide Run, LastWritten;
  }

  /** Closing and creating, with any steps in between: on record exactly once the row was committed
      first and the exit written after it. */
  lemma CloseAndCommit(w: World, steps: seq<Step>, id: Id, code: int, i: nat, j: nat, n: nat, asked: int)
    requires id !in w.rows && ClosesAt(w, steps, i, id, code) && CommitsAt(w, steps, j, id) && n <= |steps|
    requires OnlyWriters(w, steps, id, i, j)
    ensures OnRecord(w, steps, n, id, asked, j < i < n && asked == code)
  {
    hide Run, LastWritten, OnRecord, OnlyWriters;
    LastOfTwo(w, steps, id, i, j, i);
    LastOfTwo(w, steps, id, i, j, j);
    RecordedIffLastWritten(w, steps[..i], id, code);
    RecordedIffLastWritten(w, steps[..j], id, code);
    LastOfTwo(w, steps, id, i, j, n);
    Settles(w, steps, n, id, asked);
  }

  /** Closing and restoring, with any steps in between, and whichever of the two sessions the close
      has seen: on record from the close on, unless or until the row is reopened after it. */
  lemma CloseAndReopen(w: World, steps: seq<Step>, id: Id, code: int, i: nat, j: nat, n: nat, asked: int)
    requires id in w.rows && ClosesAt(w, steps, i, id, code) && ReopensAt(w, steps, j, id) && n <= |steps|
    requires OnlyWriters(w, steps, id, i, j)
    ensures OnRecord(w, steps, n, id, asked,
                     if i < n && !(i < j < n) then asked == code
                     else n <= j && Records(w.rows, id, asked))
  {
    hide Run, LastWritten, OnRecord, OnlyWriters;
    RowIsThere(w, steps, i, id);
    RowIsThere(w, steps, j, id);
    LastOfTwo(w, steps, id, i, j, n);
    Settles(w, steps, n, id, asked);
  }

  /** Closing and a pass, with any steps in between: the later of the two decides, and the pass says
      what its snapshot says. */
  lemma CloseAndPass(w: World, steps: seq<Step>, id: Id, code: int, seen: Option<int>, i: nat, j: nat, n: nat,
      asked: int)
    requires id in w.rows && ClosesAt(w, steps, i, id, code) && PassesAt(w, steps, j, id, seen) && n <= |steps|
    requires OnlyWriters(w, steps, id, i, j)
    ensures OnRecord(w, steps, n, id, asked,
                     if i < n && !(i < j < n) then asked == code
                     else if j < n then seen == Some(asked)
                     else Records(w.rows, id, asked))
  {
    hide Run, LastWritten, OnRecord, OnlyWriters;
    RowIsThere(w, steps, i, id);
    LastOfTwo(w, steps, id, i, j, n);
    Settles(w, steps, n, id, asked);
  }

  /** A pass and restoring, with any steps in between, and whichever of the two sessions the snapshot
      has seen: on record from the pass on if it says so, unless or until the row is reopened after
      it. */
  lemma PassAndReopen(w: World, steps: seq<Step>, id: Id, seen: Option<int>, i: nat, j: nat, n: nat, asked: int)
    requires id in w.rows && PassesAt(w, steps, i, id, seen) && ReopensAt(w, steps, j, id) && n <= |steps|
    requires OnlyWriters(w, steps, id, i, j)
    ensures OnRecord(w, steps, n, id, asked,
                     if i < n && !(i < j < n) then seen == Some(asked)
                     else n <= j && Records(w.rows, id, asked))
  {
    hide Run, LastWritten, OnRecord, OnlyWriters;
    RowIsThere(w, steps, j, id);
    LastOfTwo(w, steps, id, i, j, n);
    Settles(w, steps, n, id, asked);
  }

  /** Restoring what somebody has already closed and not yet retired, with any steps in between: the
      old exit is on record until the row is reopened, and then none. */
  lemma ReopenAlone(w: World, steps: seq<Step>, id: Id, j: nat, n: nat, asked: int)
    requires id in w.rows && ReopensAt(w, steps, j, id) && n <= |steps| && OnlyWriters(w, steps, id, j, j)
    ensures OnRecord(w, steps, n, id, asked, n <= j && Records(w.rows, id, asked))
  {
    hide Run, LastWritten, OnRecord, OnlyWriters;
    RowIsThere(w, steps, j, id);
    LastOfTwo(w, steps, id, j, j, n);
    Settles(w, steps, n, id, asked);
  }
}
