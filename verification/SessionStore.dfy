/** The sessions table of the metadata store (crates/persist-metadata/src/store.rs): each statement
    as an update of a map of rows. */
module SessionStore {
  import opened Bytes

  type Id = nat
  type Text = seq<byte>

  datatype Status = Running | Attached | Detached | Closed | Lost

  datatype Row = Row(
    status: Status,
    closedAt: Option<nat>,
    exitCode: Option<int>,
    cwd: Option<Text>,
    env: Option<Text>,
    instance: Option<nat>)

  type Rows = map<Id, Row>

  datatype Outcome = Done(rows: Rows) | Failed(error: StoreError)

  datatype StoreError = Duplicate | NotFound | Exhausted

  /** COALESCE(new, old) */
  function Coalesce<T>(a: Option<T>, b: Option<T>): Option<T>
  {
    if a.Some? then a else b
  }

  function NewRow(cwd: Option<Text>): Row
  {
    Row(Running, None, None, cwd, None, None)
  }

  function RunningRow(r: Row, instance: nat): Row
  {
    r.(status := Running, closedAt := None, exitCode := None, instance := Some(instance))
  }

  function ExitedRow(r: Row, code: int, cwd: Option<Text>, env: Option<Text>, instance: nat, now: nat): Row
  {
    r.(status := Closed, closedAt := Coalesce(r.closedAt, Some(now)), exitCode := Some(code),
       cwd := Coalesce(cwd, r.cwd), env := Coalesce(env, r.env), instance := Some(instance))
  }

  predicate IsActive(r: Row)
  {
    r.status.Running? || r.status.Attached? || r.status.Detached?
  }

  function LostRow(r: Row, instance: nat): Row
  {
    if IsActive(r) then r.(status := Lost, instance := Some(instance)) else r
  }

  function ClosedRow(r: Row, code: int, cwd: Option<Text>, env: Option<Text>, now: nat): Row
  {
    r.(status := Closed, closedAt := Some(now), exitCode := Some(code),
       cwd := Coalesce(cwd, r.cwd), env := Coalesce(env, r.env))
  }

  function ReopenedRow(r: Row): Row
  {
    r.(status := Running, closedAt := None, exitCode := None)
  }

  /** The row says how the session ended. */
  predicate Records(rows: Rows, id: Id, code: int)
  {
    id in rows && rows[id].status.Closed? && rows[id].exitCode == Some(code)
  }

  // ---- Statements -----------------------------------------------------------------------

  function Insert(rows: Rows, id: Id, cwd: Option<Text>): Outcome
  {
    if id in rows then Failed(Duplicate) else Done(rows[id := NewRow(cwd)])
  }

  function ReconcileRunning(rows: Rows, id: Id, instance: nat): Outcome
  {
    if id in rows then Done(rows[id := RunningRow(rows[id], instance)]) else Failed(NotFound)
  }

  function ReconcileExited(rows: Rows, id: Id, code: int, cwd: Option<Text>, env: Option<Text>, instance: nat,
      now: nat): Outcome
  {
    if id in rows then Done(rows[id := ExitedRow(rows[id], code, cwd, env, instance, now)]) else Failed(NotFound)
  }

  /** Unlike the others, closing a session that has no row is not an error. */
  function CloseWithContext(rows: Rows, id: Id, code: int, cwd: Option<Text>, env: Option<Text>, now: nat): Rows
  {
    if id in rows then rows[id := ClosedRow(rows[id], code, cwd, env, now)] else rows
  }

  function Reopen(rows: Rows, id: Id): Outcome
  {
    if id in rows then Done(rows[id := ReopenedRow(rows[id])]) else Failed(NotFound)
  }

  /** One more than the largest id, or one for none at all. */
  ghost predicate IsSuccessor(n: nat, ids: set<Id>)
  {
    (forall id :: id in ids ==> id < n) && (if ids == {} then n == 1 else n > 0 && n - 1 in ids)
  }

  lemma SuccessorIsUnique(m: nat, n: nat, ids: set<Id>)
    requires IsSuccessor(m, ids) && IsSuccessor(n, ids)
    ensures m == n
  {
  }

  /** Doing the work again after a crash: the exit code stands, and whatever had been captured is
      kept where the second attempt has captured nothing. */
  lemma RedoingIsHarmless(rows: Rows, id: Id, code: int, cwd: Option<Text>, env: Option<Text>, cwd': Option<Text>,
      env': Option<Text>, instance: nat, t: nat, t': nat)
    requires id in rows
    ensures var once := CloseWithContext(rows, id, code, cwd, env, t);
            var again := ReconcileExited(once, id, code, cwd', env', instance, t');
            && again.Done? && Records(again.rows, id, code)
            && again.rows[id].closedAt == Some(t)
            && again.rows[id].cwd == Coalesce(cwd', Coalesce(cwd, rows[id].cwd))
            && again.rows[id].env == Coalesce(env', Coalesce(env, rows[id].env))
            && (cwd'.None? && env'.None? ==> again.rows[id].cwd == once[id].cwd && again.rows[id].env == once[id].env)
    ensures var once := ReconcileExited(rows, id, code, cwd, env, instance, t).rows;
            var again := CloseWithContext(once, id, code, cwd', env', t');
            && Records(again, id, code)
            && again[id].cwd == Coalesce(cwd', once[id].cwd) && again[id].env == Coalesce(env', once[id].env)
    ensures forall other :: other in rows && other != id ==>
              CloseWithContext(rows, id, code, cwd, env, t)[other] == rows[other]
  {
  }

  // ---- The object --------------------------------------------------------------------------

  class MetadataStore {
    var rows: map<Id, Row>

    constructor ()
      ensures rows == map[]
    {
      rows := map[];
    }

    method CreateSession(id: Id, cwd: Option<Text>) returns (error: Option<StoreError>)
      modifies this
      ensures error == if id in old(rows) then Some(Duplicate) else None
      ensures error.None? ==> id in rows && rows[id] == Row(Running, None, None, cwd, None, None)
      ensures forall other :: other in rows && other != id ==> other in old(rows) && rows[other] == old(rows)[other]
      ensures match Insert(old(rows), id, cwd)
              case Done(after) => error == None && rows == after
              case Failed(e) => error == Some(e) && rows == old(rows)
    {
      if id in rows {
        return Some(Duplicate);
      }
      rows := rows[id := NewRow(cwd)];
      error := None;
    }

    /** SELECT COALESCE(MAX(session_id), 0), then a checked increment in 32 bits. */
    method NextSessionId() returns (next: Option<nat>)
      ensures next.Some? ==> IsSuccessor(next.value, rows.Keys) && next.value < U32
      ensures next.None? <==> exists id :: id in rows && id >= U32 - 1
    {
      var highest: nat := 0;
      var left := rows.Keys;
      ghost var seen: set<Id> := {};
      while left != {}
        invariant seen + left == rows.Keys
        invariant forall id :: id in seen ==> id <= highest
        invariant highest in seen || (seen == {} && highest == 0)
      {
        assert (forall id: Id :: id !in left) ==> left == {};
        var id: Id :| id in left;
        if id > highest {
          highest := id;
        }
        seen := seen + {id};
        left := left - {id};
      }
      assert seen == rows.Keys;
      next := if highest >= U32 - 1 then None else Some(highest + 1);
      if rows.Keys == {} {
        assert highest == 0;
      }
    }

    method MarkRunning(id: Id, instance: nat) returns (error: Option<StoreError>)
      modifies this
      ensures error == if id in old(rows) then None else Some(NotFound)
      ensures error.None? ==>
                && id in rows && rows[id].status == Running && rows[id].closedAt.None? && rows[id].exitCode.None?
                && rows[id].instance == Some(instance)
                && rows[id].cwd == old(rows)[id].cwd && rows[id].env == old(rows)[id].env
      ensures forall other :: other in rows && other != id ==> other in old(rows) && rows[other] == old(rows)[other]
      ensures match ReconcileRunning(old(rows), id, instance)
              case Done(after) => error == None && rows == after
              case Failed(e) => error == Some(e) && rows == old(rows)
    {
      if id !in rows {
        return Some(NotFound);
      }
      rows := rows[id := RunningRow(rows[id], instance)];
      error := None;
    }

    method MarkExited(id: Id, code: int, cwd: Option<Text>, env: Option<Text>, instance: nat, now: nat)
        returns (error: Option<StoreError>)
      modifies this
      ensures error == if id in old(rows) then None else Some(NotFound)
      ensures error.None? ==>
                && Records(rows, id, code) && rows[id].instance == Some(instance)
                && rows[id].closedAt == (if old(rows)[id].closedAt.Some? then old(rows)[id].closedAt else Some(now))
                && rows[id].cwd == (if cwd.Some? then cwd else old(rows)[id].cwd)
                && rows[id].env == (if env.Some? then env else old(rows)[id].env)
      ensures forall other :: other in rows && other != id ==> other in old(rows) && rows[other] == old(rows)[other]
      ensures match ReconcileExited(old(rows), id, code, cwd, env, instance, now)
              case Done(after) => error == None && rows == after
              case Failed(e) => error == Some(e) && rows == old(rows)
    {
      if id !in rows {
        return Some(NotFound);
      }
      rows := rows[id := ExitedRow(rows[id], code, cwd, env, instance, now)];
      error := None;
    }

    method MarkLost(id: Id, instance: nat)
      modifies this
      ensures rows.Keys == old(rows).Keys
      ensures forall other :: other in rows && other != id ==> rows[other] == old(rows)[other]
      ensures id in rows ==>
                var status := old(rows)[id].status;
                if status == Running || status == Attached || status == Detached
                then rows[id] == old(rows)[id].(status := Lost, instance := Some(instance))
                else rows[id] == old(rows)[id]
      ensures rows == if id in old(rows) then old(rows)[id := LostRow(old(rows)[id], instance)] else old(rows)
    {
      if id in rows && IsActive(rows[id]) {
        rows := rows[id := rows[id].(status := Lost, instance := Some(instance))];
      } else if id in rows {
        assert rows[id := rows[id]] == rows;
      }
    }

    method CloseSession(id: Id, code: int, cwd: Option<Text>, env: Option<Text>, now: nat)
      modifies this
      ensures rows.Keys == old(rows).Keys
      ensures id in rows ==>
                && Records(rows, id, code) && rows[id].closedAt == Some(now)
                && rows[id].instance == old(rows)[id].instance
                && rows[id].cwd == (if cwd.Some? then cwd else old(rows)[id].cwd)
                && rows[id].env == (if env.Some? then env else old(rows)[id].env)
      ensures forall other :: other in rows && other != id ==> other in old(rows) && rows[other] == old(rows)[other]
      ensures rows == CloseWithContext(old(rows), id, code, cwd, env, now)
    {
      if id in rows {
        rows := rows[id := ClosedRow(rows[id], code, cwd, env, now)];
      }
    }

    method ReopenSession(id: Id) returns (error: Option<StoreError>)
      modifies this
      ensures error == if id in old(rows) then None else Some(NotFound)
      ensures error.None? ==>
                && id in rows && rows[id].status == Running && rows[id].closedAt.None? && rows[id].exitCode.None?
                && rows[id].instance == old(rows)[id].instance
                && rows[id].cwd == old(rows)[id].cwd && rows[id].env == old(rows)[id].env
      ensures forall other :: other in rows && other != id ==> other in old(rows) && rows[other] == old(rows)[other]
      ensures match Reopen(old(rows), id)
              case Done(after) => error == None && rows == after
              case Failed(e) => error == Some(e) && rows == old(rows)
    {
      if id !in rows {
        return Some(NotFound);
      }
      rows := rows[id := ReopenedRow(rows[id])];
      error := None;
    }
  }
}
