/** One session's log: the current file, its numbered predecessors and the worker's cached handle
    (crates/persist-holder/src/log_worker.rs). */
module LogFiles {
  import opened Bytes

  /** `current` is the file at the log's own path, `rotated[n]` the one at `path.n`. `handle` is the
      worker's cached handle with its byte count. `written` is history: every byte ever appended. */
  datatype Log = Log(
    current: Option<seq<byte>>,
    rotated: map<nat, seq<byte>>,
    handle: Option<nat>,
    written: seq<byte>)

  const NO_LOG := Log(None, map[], None, [])

  /** What may go wrong, call by call. A refused open has created the file and then rejected it. */
  datatype OpenResult = Opens | Refuses | CannotOpen

  datatype Faults = Faults(
    open: OpenResult,
    unremovable: bool,
    stuck: set<nat>,
    currentStuck: bool,
    reopen: OpenResult,
    wrote: Option<nat>)

  const NO_FAULTS := Faults(Opens, false, {}, false, Opens, None)

  // ---- The steps as functions -----------------------------------------------------

  function OpenLog(l: Log, result: OpenResult): (Log, bool)
  {
    var contents := if l.current.Some? then l.current.value else [];
    match result
    case CannotOpen => (l.(handle := None), false)
    case Refuses => (l.(current := Some(contents), handle := None), false)
    case Opens => (l.(current := Some(contents), handle := Some(Saturating(|contents|))), true)
  }

  function Renamed(files: map<nat, seq<byte>>, from: nat): map<nat, seq<byte>>
    requires from in files
  {
    (files - {from})[from + 1 := files[from]]
  }

  /** `path.number`, …, `path.1` move up by one each, the highest first; a failure stops the loop. */
  function ShiftUp(files: map<nat, seq<byte>>, number: nat, stuck: set<nat>): (map<nat, seq<byte>>, bool)
    decreases number
  {
    if number == 0 then (files, true)
    else if number !in files then ShiftUp(files, number - 1, stuck)
    else if number in stuck then (files, false)
    else ShiftUp(Renamed(files, number), number - 1, stuck)
  }

  /** Make room, move the current file out of the way, and start a new one. */
  function Rotate(l: Log, maxFiles: nat, faults: Faults): (Log, bool)
    requires l.current.Some?
  {
    var room := if faults.unremovable then l.rotated else l.rotated - {maxFiles};
    if maxFiles == 0 then
      if faults.currentStuck then (l.(rotated := room), false)
      else OpenLog(l.(rotated := room, current := None), faults.reopen)
    else
      var (shifted, ok) := ShiftUp(room, maxFiles - 1, faults.stuck);
      if !ok || faults.currentStuck then (l.(rotated := shifted), false)
      else OpenLog(l.(rotated := shifted[1 := l.current.value], current := None), faults.reopen)
  }

  predicate MustRotate(l: Log, size: nat, maxFileSize: nat)
    requires l.handle.Some?
  {
    Saturating(l.handle.value + size) > maxFileSize
  }

  /** Appending either succeeds in full or stops part way, and then the item has failed. */
  function Append(l: Log, data: seq<byte>, wrote: Option<nat>): (Log, bool)
    requires l.current.Some? && l.handle.Some?
  {
    if wrote.None? then
      (l.(current := Some(l.current.value + data), handle := Some(Saturating(l.handle.value + |data|)),
          written := l.written + data), true)
    else
      var part := data[..Min(wrote.value, |data|)];
      (l.(current := Some(l.current.value + part), written := l.written + part), false)
  }

  /** The handle is only ever open on a file that exists. */
  predicate HandleHasFile(l: Log)
  {
    l.handle.Some? ==> l.current.Some?
  }

  function AttemptItem(l: Log, data: seq<byte>, maxFileSize: nat, maxFiles: nat, faults: Faults): (Log, bool)
    requires HandleHasFile(l)
  {
    var (l1, ready) := if l.handle.Some? then (l, true) else OpenLog(l, faults.open);
    if !ready then (l1, false)
    else
      var (l2, rotated) := if MustRotate(l1, |data|, maxFileSize) then Rotate(l1, maxFiles, faults) else (l1, true);
      if !rotated then (l2, false) else Append(l2, data, faults.wrote)
  }

  /** A failed item also closes the handle, so the next one looks at the file afresh. */
  function AfterItem(l: Log, data: seq<byte>, maxFileSize: nat, maxFiles: nat, faults: Faults): (r: (Log, bool))
    requires HandleHasFile(l)
    ensures HandleHasFile(r.0)
  {
    var (l1, ok) := AttemptItem(l, data, maxFileSize, maxFiles, faults);
    (if ok then l1 else l1.(handle := None), ok)
  }

  // ---- The same steps on the directory, in place --------------------------------------

  class SessionLog {
    const maxFileSize: nat
    const maxFiles: nat
    var current: Option<seq<byte>>
    var rotated: map<nat, seq<byte>>
    var bytesWritten: Option<nat>
    ghost var written: seq<byte>

    ghost function State(): Log
      reads this
    {
      Log(current, rotated, bytesWritten, written)
    }

    constructor (maxFileSize: nat, maxFiles: nat)
      ensures State() == NO_LOG && this.maxFileSize == maxFileSize && this.maxFiles == maxFiles
    {
      this.maxFileSize := maxFileSize;
      this.maxFiles := maxFiles;
      current := None;
      rotated := map[];
      bytesWritten := None;
      written := [];
    }

    method Open(result: OpenResult) returns (ok: bool)
      modifies this
      ensures (State(), ok) == OpenLog(old(State()), result)
    {
      bytesWritten := None;
      if result.CannotOpen? {
        return false;
      }
      if current.None? {
        current := Some([]);
      }
      if result.Refuses? {
        return false;
      }
      bytesWritten := Some(Min(|current.value|, U64 - 1));
      ok := true;
    }

    method RotateLog(faults: Faults) returns (ok: bool)
      requires current.Some?
      modifies this
      ensures (State(), ok) == Rotate(old(State()), maxFiles, faults)
    {
      if !faults.unremovable {
        rotated := rotated - {maxFiles};
      }
      ghost var room := rotated;
      var number: nat := if maxFiles == 0 then 0 else maxFiles - 1;
      while number > 0
        invariant State() == old(State()).(rotated := rotated)
        invariant maxFiles == 0 ==> number == 0 && rotated == room
        invariant maxFiles > 0 ==> ShiftUp(rotated, number, faults.stuck) == ShiftUp(room, maxFiles - 1, faults.stuck)
      {
        if number in rotated {
          if number in faults.stuck {
            return false;
          }
          rotated := (rotated - {number})[number + 1 := rotated[number]];
        }
        number := number - 1;
      }
      if faults.currentStuck {
        return false;
      }
      if maxFiles > 0 {
        rotated := rotated[1 := current.value];
      }
      current := None;
      ok := Open(faults.reopen);
    }

    method WriteItem(data: seq<byte>, faults: Faults) returns (ok: bool)
      requires HandleHasFile(State())
      modifies this
      ensures HandleHasFile(State())
      ensures (State(), ok) == AfterItem(old(State()), data, maxFileSize, maxFiles, faults)
    {
      ok := true;
      if bytesWritten.None? {
        ok := Open(faults.open);
      }
      if ok && Min(bytesWritten.value + |data|, U64 - 1) > maxFileSize {
        ok := RotateLog(faults);
      }
      if ok {
        ok := AppendItem(data, faults.wrote);
      }
      if !ok {
        bytesWritten := None;
      }
    }

    method AppendItem(data: seq<byte>, wrote: Option<nat>) returns (ok: bool)
      requires current.Some? && bytesWritten.Some?
      modifies this
      ensures (State(), ok) == Append(old(State()), data, wrote)
    {
      if wrote.Some? {
        var part := data[..Min(wrote.value, |data|)];
        current := Some(current.value + part);
        written := written + part;
        return false;
      }
      current := Some(current.value + data);
      written := written + data;
      bytesWritten := Some(Min(bytesWritten.value + |data|, U64 - 1));
      ok := true;
    }
  }
}
