/** What the rotated files of a session log still hold, with and without I/O failures. */
module LogRetention {
  import opened Bytes
  import opened LogFiles

  /** The rotated files up to `path.k`, oldest first. */
  function Older(files: map<nat, seq<byte>>, k: nat): seq<byte>
  {
    if k == 0 then [] else (if k in files then files[k] else []) + Older(files, k - 1)
  }

  function Contents(l: Log): seq<byte>
  {
    if l.current.Some? then l.current.value else []
  }

  /** Everything still on disk, oldest byte first. */
  function Retained(l: Log, maxFiles: nat): seq<byte>
  {
    Older(l.rotated, maxFiles) + Contents(l)
  }

  // ---- Order survives every failure -----------------------------------------------------

  lemma {:induction false} OlderAgrees(a: map<nat, seq<byte>>, b: map<nat, seq<byte>>, k: nat)
    requires forall n :: 1 <= n <= k ==> (n in a <==> n in b) && (n in a ==> a[n] == b[n])
    ensures Older(a, k) == Older(b, k)
  {
    if k > 0 {
      OlderAgrees(a, b, k - 1);
    }
  }

  lemma SuffixRefl<T>(s: seq<T>)
    ensures IsSuffix(s, s) && IsSuffix([], s)
  {
  }

  lemma OlderStep(files: map<nat, seq<byte>>, k: nat)
    requires k > 0
    ensures Older(files, k) == (if k in files then files[k] else []) + Older(files, k - 1)
    ensures k !in files ==> Older(files, k) == Older(files, k - 1)
  {
  }

  /** Moving up touches nothing above the first free number. */
  lemma {:induction false} ShiftTop(files: map<nat, seq<byte>>, number: nat, stuck: set<nat>, n: nat)
    requires n == 0 || n > number + 1
    ensures var r := ShiftUp(files, number, stuck).0;
            (n in r <==> n in files) && (n in r ==> r[n] == files[n])
    decreases number
  {
    if number > 0 && number !in files {
      ShiftTop(files, number - 1, stuck, n);
    } else if number > 0 && number !in stuck {
      ShiftTop(Renamed(files, number), number - 1, stuck, n);
    }
  }

  /** A loop that gets through leaves number one free. */
  lemma {:induction false} ShiftFrees(files: map<nat, seq<byte>>, number: nat, stuck: set<nat>)
    ensures var (r, ok) := ShiftUp(files, number, stuck);
            ok && number > 0 ==> 1 !in r
    decreases number
  {
    if number == 1 {
      return;
    }
    if number > 0 && number !in files {
      ShiftFrees(files, number - 1, stuck);
    } else if number > 0 && number !in stuck {
      ShiftFrees(Renamed(files, number), number - 1, stuck);
    }
  }

  /** One turn of the loop. */
  lemma ShiftStep(files: map<nat, seq<byte>>, number: nat, stuck: set<nat>)
    requires number > 0
    ensures number !in files ==> ShiftUp(files, number, stuck) == ShiftUp(files, number - 1, stuck)
    ensures number in files && number in stuck ==> ShiftUp(files, number, stuck).0 == files
    ensures number in files && number !in stuck ==>
              ShiftUp(files, number, stuck) == ShiftUp(Renamed(files, number), number - 1, stuck)
  {
  }

  lemma ShiftNothing(files: map<nat, seq<byte>>, stuck: set<nat>)
    ensures ShiftUp(files, 0, stuck).0 == files
  {
  }

  lemma RenamedFiles(files: map<nat, seq<byte>>, number: nat)
    requires number in files && number > 0
    ensures var moved := Renamed(files, number);
            && number !in moved && number + 1 in moved && moved[number + 1] == files[number]
            && Older(moved, number - 1) == Older(files, number - 1)
  {
    OlderAgrees(Renamed(files, number), files, number - 1);
    hide Older;
  }

  /** With the number above free, nothing is lost, whether or not the loop gets through. */
  lemma {:induction false} ShiftLosesNothing(files: map<nat, seq<byte>>, number: nat, stuck: set<nat>)
    requires number + 1 !in files
    ensures Older(ShiftUp(files, number, stuck).0, number + 1) == Older(files, number)
    decreases number
  {
    OlderStep(files, number + 1);
    if number == 0 {
      return;
    }
    ShiftStep(files, number, stuck);
    hide ShiftUp, Renamed, Older;
    var r := ShiftUp(files, number, stuck).0;
    OlderStep(files, number);
    OlderStep(r, number + 1);
    if number !in files {
      ShiftLosesNothing(files, number - 1, stuck);
      ShiftTop(files, number - 1, stuck, number + 1);
    } else if number !in stuck {
      RenamedFiles(files, number);
      ShiftLosesNothing(Renamed(files, number), number - 1, stuck);
      ShiftTop(Renamed(files, number), number - 1, stuck, number + 1);
    }
  }

  /** Otherwise only the file whose place is taken is lost. */
  lemma ShiftLosesTheOldest(files: map<nat, seq<byte>>, number: nat, stuck: set<nat>)
    ensures IsSuffix(Older(ShiftUp(files, number, stuck).0, number + 1), Older(files, number + 1))
  {
    hide *;
    SuffixRefl(Older(files, number + 1));
    if number == 0 {
      ShiftNothing(files, stuck);
      return;
    }
    ShiftStep(files, number, stuck);
    var r := ShiftUp(files, number, stuck).0;
    OlderStep(files, number);
    OlderStep(files, number + 1);
    OlderStep(r, number + 1);
    if number !in files {
      ShiftLosesNothing(files, number - 1, stuck);
      ShiftTop(files, number - 1, stuck, number + 1);
    } else if number !in stuck {
      assert Older(r, number + 1) == Older(files, number) by {
        RenamedFiles(files, number);
        ShiftLosesNothing(Renamed(files, number), number - 1, stuck);
        ShiftTop(Renamed(files, number), number - 1, stuck, number + 1);
      }
      LaterIsSuffix(if number + 1 in files then files[number + 1] else [], Older(files, number));
    }
  }

  lemma LaterIsSuffix<T>(a: seq<T>, b: seq<T>)
    ensures IsSuffix(b, a + b)
  {
  }

  /** Moving the files up keeps what is in them, in order, whether or not the loop gets through. */
  lemma ShiftKeeps(files: map<nat, seq<byte>>, number: nat, stuck: set<nat>)
    ensures var (r, ok) := ShiftUp(files, number, stuck);
            && (forall n :: n == 0 || n > number + 1 ==> (n in r <==> n in files) && (n in r ==> r[n] == files[n]))
            && IsSuffix(Older(r, number + 1), Older(files, number + 1))
            && (number + 1 !in files ==> Older(r, number + 1) == Older(files, number))
            && (ok && number > 0 ==> 1 !in r)
  {
    hide ShiftUp, Older, IsSuffix;
    var (r, ok) := ShiftUp(files, number, stuck);
    forall n: nat | n == 0 || n > number + 1 ensures (n in r <==> n in files) && (n in r ==> r[n] == files[n]) {
      ShiftTop(files, number, stuck, n);
    }
    ShiftLosesTheOldest(files, number, stuck);
    if number + 1 !in files {
      ShiftLosesNothing(files, number, stuck);
    }
    ShiftFrees(files, number, stuck);
  }

  lemma OpenKeeps(l: Log, result: OpenResult, maxFiles: nat)
    ensures var (l', ok) := OpenLog(l, result);
            && Retained(l', maxFiles) == Retained(l, maxFiles) && l'.written == l.written
            && l'.rotated == l.rotated && Contents(l') == Contents(l)
            && HandleHasFile(l') && (ok ==> l'.handle == Some(Saturating(|Contents(l)|)))
            && (!ok ==> l'.handle.None?)
  {
  }

  /** Dropping a file, or the room made by removing the oldest, takes bytes off the front only. */
  lemma RoomKeeps(files: map<nat, seq<byte>>, maxFiles: nat)
    ensures IsSuffix(Older(files - {maxFiles}, maxFiles), Older(files, maxFiles))
    ensures maxFiles > 0 ==> Older(files - {maxFiles}, maxFiles) == Older(files, maxFiles - 1)
  {
    if maxFiles > 0 {
      OlderAgrees(files - {maxFiles}, files, maxFiles - 1);
    }
  }

  lemma AbandonedRotation(l: Log, files: map<nat, seq<byte>>, maxFiles: nat)
    requires l.current.Some? && IsSuffix(Older(files, maxFiles), Older(l.rotated, maxFiles))
    ensures IsSuffix(Retained(l.(rotated := files), maxFiles), Retained(l, maxFiles))
  {
    hide IsSuffix, Older;
    SuffixAppend(Older(files, maxFiles), Older(l.rotated, maxFiles), l.current.value);
  }

  lemma FinishedRotation(l: Log, files: map<nat, seq<byte>>, maxFiles: nat, reopen: OpenResult)
    requires l.current.Some? && IsSuffix(Older(files, maxFiles), Older(l.rotated, maxFiles) + l.current.value)
    ensures var l' := OpenLog(l.(rotated := files, current := None), reopen).0;
            IsSuffix(Retained(l', maxFiles), Retained(l, maxFiles)) && l'.written == l.written
  {
    hide IsSuffix, Older;
    var closed := l.(rotated := files, current := None);
    OpenKeeps(closed, reopen, maxFiles);
    NoCurrent(closed, maxFiles);
    hide OpenLog;
  }

  lemma FirstKeeps(files: map<nat, seq<byte>>, maxFiles: nat, data: seq<byte>)
    requires maxFiles > 0 && (1 !in files || maxFiles == 1)
    ensures IsSuffix(Older(files[1 := data], maxFiles), Older(files, maxFiles) + data)
  {
    SuffixRefl(Older(files, maxFiles) + data);
    hide IsSuffix, Older;
    if 1 !in files {
      MakeFirst(files, maxFiles, data);
    } else {
      ReplaceFirst(files, data);
    }
  }

  /** Without a place to move it to, the current file goes. */
  lemma RotateWithoutRoom(l: Log, faults: Faults)
    requires l.current.Some?
    ensures var l' := Rotate(l, 0, faults).0;
            IsSuffix(Retained(l', 0), Retained(l, 0)) && l'.written == l.written
  {
    var room := if faults.unremovable then l.rotated else l.rotated - {0};
    NoneOlder(room);
    NoneOlder(l.rotated);
    LaterIsSuffix(l.current.value, []);
    SuffixRefl<byte>([]);
    assert l.current.value + [] == [] + l.current.value;
    hide IsSuffix, Older, Retained, OpenLog;
    AbandonedRotation(l, room, 0);
    FinishedRotation(l, room, 0, faults.reopen);
  }

  lemma RotateWithRoom(l: Log, maxFiles: nat, faults: Faults)
    requires l.current.Some? && maxFiles > 0
    ensures var l' := Rotate(l, maxFiles, faults).0;
            IsSuffix(Retained(l', maxFiles), Retained(l, maxFiles)) && l'.written == l.written
  {
    hide IsSuffix, Older, ShiftUp, Retained, OpenLog;
    var room := if faults.unremovable then l.rotated else l.rotated - {maxFiles};
    var (shifted, ok) := ShiftUp(room, maxFiles - 1, faults.stuck);
    SuffixRefl(Older(l.rotated, maxFiles));
    RoomKeeps(l.rotated, maxFiles);
    ShiftLosesTheOldest(room, maxFiles - 1, faults.stuck);
    SuffixTrans(Older(shifted, maxFiles), Older(room, maxFiles), Older(l.rotated, maxFiles));
    if !ok || faults.currentStuck {
      AbandonedRotation(l, shifted, maxFiles);
    } else {
      var data := l.current.value;
      ShiftFrees(room, maxFiles - 1, faults.stuck);
      FirstKeeps(shifted, maxFiles, data);
      SuffixAppend(Older(shifted, maxFiles), Older(l.rotated, maxFiles), data);
      SuffixTrans(Older(shifted[1 := data], maxFiles), Older(shifted, maxFiles) + data,
        Older(l.rotated, maxFiles) + data);
      FinishedRotation(l, shifted[1 := data], maxFiles, faults.reopen);
    }
  }

  /** A rotation, complete or failing anywhere, only takes bytes off the front. */
  lemma RotateKeeps(l: Log, maxFiles: nat, faults: Faults)
    requires l.current.Some?
    ensures var l' := Rotate(l, maxFiles, faults).0;
            IsSuffix(Retained(l', maxFiles), Retained(l, maxFiles)) && l'.written == l.written
  {
    hide *;
    if maxFiles == 0 {
      RotateWithoutRoom(l, faults);
    } else {
      RotateWithRoom(l, maxFiles, faults);
    }
  }

  lemma NoCurrent(l: Log, maxFiles: nat)
    requires l.current.None?
    ensures Retained(l, maxFiles) == Older(l.rotated, maxFiles)
  {
    hide Older;
  }

  /** The current file becomes number one. */
  lemma {:induction false} MakeFirst(files: map<nat, seq<byte>>, k: nat, data: seq<byte>)
    requires k > 0 && 1 !in files
    ensures Older(files[1 := data], k) == Older(files, k) + data
  {
    OlderStep(files, k);
    OlderStep(files[1 := data], k);
    if k == 1 {
      NoneOlder(files);
      NoneOlder(files[1 := data]);
      hide Older;
      assert data + [] == data && [] + [] + data == data;
    } else {
      hide Older;
      MakeFirst(files, k - 1, data);
      Associate(if k in files then files[k] else [], Older(files, k - 1), data);
    }
  }

  lemma NoneOlder(files: map<nat, seq<byte>>)
    ensures Older(files, 0) == []
  {
  }

  /** With one slot only, it takes the place of whatever was there. */
  lemma ReplaceFirst(files: map<nat, seq<byte>>, data: seq<byte>)
    ensures Older(files[1 := data], 1) == data
    ensures IsSuffix(Older(files[1 := data], 1), Older(files, 1) + data)
  {
    OlderStep(files[1 := data], 1);
    NoneOlder(files[1 := data]);
    hide Older;
    assert data + [] == data;
    LaterIsSuffix(Older(files, 1), data);
  }

  lemma AppendKeeps(l: Log, data: seq<byte>, wrote: Option<nat>, maxFiles: nat)
    requires l.current.Some? && l.handle.Some? && IsSuffix(Retained(l, maxFiles), l.written)
    ensures var l' := Append(l, data, wrote).0;
            IsSuffix(Retained(l', maxFiles), l'.written)
  {
    var part := if wrote.None? then data else data[..Min(wrote.value, |data|)];
    Associate(Older(l.rotated, maxFiles), l.current.value, part);
    SuffixAppend(Retained(l, maxFiles), l.written, part);
  }

  /** Whatever fails and wherever, the files read oldest first are the end of what was written,
      with no byte out of place. */
  lemma ItemKeepsOrder(l: Log, data: seq<byte>, maxFileSize: nat, maxFiles: nat, faults: Faults)
    requires HandleHasFile(l) && IsSuffix(Retained(l, maxFiles), l.written)
    ensures var l' := AfterItem(l, data, maxFileSize, maxFiles, faults).0;
            IsSuffix(Retained(l', maxFiles), l'.written)
  {
    hide IsSuffix, Older, Rotate, Append;
    OpenKeeps(l, faults.open, maxFiles);
    var (l1, ready) := if l.handle.Some? then (l, true) else OpenLog(l, faults.open);
    if ready {
      var (l2, ok) := if MustRotate(l1, |data|, maxFileSize) then Rotate(l1, maxFiles, faults) else (l1, true);
      if MustRotate(l1, |data|, maxFileSize) {
        RotateKeeps(l1, maxFiles, faults);
        SuffixTrans(Retained(l2, maxFiles), Retained(l1, maxFiles), l1.written);
        RotateOpens(l1, maxFiles, faults);
      }
      if ok {
        AppendKeeps(l2, data, faults.wrote, maxFiles);
      }
    }
  }

  lemma RotateOpens(l: Log, maxFiles: nat, faults: Faults)
    requires l.current.Some?
    ensures var (l', ok) := Rotate(l, maxFiles, faults);
            ok ==> l'.current == Some([]) && l'.handle == Some(0)
  {
    hide ShiftUp;
  }

  // ---- Runs --------------------------------------------------------------------------------

  datatype Job = Job(data: seq<byte>, faults: Faults)

  function AfterJobs(l: Log, jobs: seq<Job>, maxFileSize: nat, maxFiles: nat): (r: Log)
    requires HandleHasFile(l)
    ensures HandleHasFile(r)
    decreases |jobs|
  {
    if jobs == [] then l
    else AfterJobs(AfterItem(l, jobs[0].data, maxFileSize, maxFiles, jobs[0].faults).0, jobs[1..], maxFileSize,
      maxFiles)
  }

  lemma {:induction false} FilesAreTheEndOfWhatWasWritten(l: Log, jobs: seq<Job>, maxFileSize: nat, maxFiles: nat)
    requires HandleHasFile(l) && IsSuffix(Retained(l, maxFiles), l.written)
    ensures var l' := AfterJobs(l, jobs, maxFileSize, maxFiles);
            IsSuffix(Retained(l', maxFiles), l'.written)
    decreases |jobs|
  {
    if jobs != [] {
      ItemKeepsOrder(l, jobs[0].data, maxFileSize, maxFiles, jobs[0].faults);
      var l1 := AfterItem(l, jobs[0].data, maxFileSize, maxFiles, jobs[0].faults).0;
      FilesAreTheEndOfWhatWasWritten(l1, jobs[1..], maxFileSize, maxFiles);
    }
  }

  // ---- Without failures: numbering and sizes ------------------------------------------------

  /** The file `n` rotations ago; zero is the current one. */
  function At(l: Log, n: nat): seq<byte>
  {
    if n == 0 then Contents(l) else if n in l.rotated then l.rotated[n] else []
  }

  /** A log with exactly the predecessors `path.1` … `path.k`: no file is oversized unless one item
      is, any two neighbours hold more than one file may, and bytes have been lost only if every
      slot is taken. */
  ghost predicate Tidy(l: Log, k: nat, maxFileSize: nat, maxFiles: nat, largest: nat)
  {
    && l.current.Some? && l.handle == Some(Saturating(|l.current.value|))
    && k <= maxFiles
    && Numbered(l, k) && Small(l, k, Max(maxFileSize, largest)) && Paired(l, k, maxFileSize)
    && (Retained(l, maxFiles) == l.written || k == maxFiles)
  }

  ghost predicate Numbered(l: Log, k: nat)
  {
    forall n :: n in l.rotated <==> 1 <= n <= k
  }

  ghost predicate Small(l: Log, k: nat, bound: nat)
  {
    forall n :: 0 <= n <= k ==> |At(l, n)| <= bound
  }

  ghost predicate Paired(l: Log, k: nat, maxFileSize: nat)
  {
    forall n :: 0 <= n < k ==> |At(l, n)| + |At(l, n + 1)| > maxFileSize
  }

  /** Where the file numbered `n` after a clean shift came from. */
  lemma {:induction false} ShiftMoves(files: map<nat, seq<byte>>, number: nat, n: nat)
    requires number + 1 !in files
    ensures var (r, ok) := ShiftUp(files, number, {});
            && ok
            && if n == 1 then n !in r
               else if 2 <= n <= number + 1 then (n in r <==> n - 1 in files) && (n in r ==> r[n] == files[n - 1])
               else (n in r <==> n in files) && (n in r ==> r[n] == files[n])
    decreases number
  {
    if number > 0 {
      ShiftMoves(if number in files then Renamed(files, number) else files, number - 1, n);
    }
  }

  /** With a slot free, rotation loses nothing. */
  lemma RoomyRotation(l: Log, maxFiles: nat)
    requires l.current.Some? && maxFiles > 0 && maxFiles !in l.rotated
    ensures Retained(Rotate(l, maxFiles, NO_FAULTS).0, maxFiles) == Retained(l, maxFiles)
  {
    var room := l.rotated - {maxFiles};
    var shifted := ShiftUp(room, maxFiles - 1, {}).0;
    assert room == l.rotated;
    ShiftKeeps(room, maxFiles - 1, {});
    ShiftMoves(room, maxFiles - 1, 1);
    hide ShiftUp, IsSuffix;
    MakeFirst(shifted, maxFiles, l.current.value);
    assert Older(l.rotated, maxFiles) == [] + Older(l.rotated, maxFiles - 1);
  }

  /** What a clean rotation does to the numbering. */
  lemma RotationRenumbers(l: Log, k: nat, maxFiles: nat)
    requires l.current.Some? && k <= maxFiles && Numbered(l, k)
    ensures var (l', ok) := Rotate(l, maxFiles, NO_FAULTS);
            && ok && l'.current == Some([]) && l'.handle == Some(0) && l'.written == l.written
            && Numbered(l', Min(k + 1, maxFiles))
            && (forall n :: 1 <= n <= Min(k + 1, maxFiles) ==> At(l', n) == At(l, n - 1))
  {
    var room := l.rotated - {maxFiles};
    if maxFiles > 0 {
      var shifted := ShiftUp(room, maxFiles - 1, {}).0;
      ShiftMoves(room, maxFiles - 1, 1);
      hide ShiftUp;
      forall n: nat
        ensures n in shifted <==> 2 <= n <= Min(k + 1, maxFiles)
        ensures n in shifted ==> shifted[n] == At(l, n - 1)
      {
        ShiftMoves(room, maxFiles - 1, n);
      }
    }
  }

  /** Every file has moved up by one, and `data` is in front. */
  ghost predicate MovedUp(l: Log, l': Log, k': nat, data: seq<byte>)
  {
    At(l', 0) == data && forall n :: 1 <= n <= k' ==> At(l', n) == At(l, n - 1)
  }

  lemma MovedStaysSmall(l: Log, l': Log, k: nat, k': nat, data: seq<byte>, bound: nat)
    requires MovedUp(l, l', k', data) && k' <= k + 1 && |data| <= bound && Small(l, k, bound)
    ensures Small(l', k', bound)
  {
    hide At;
    forall n | 0 <= n <= k' ensures |At(l', n)| <= bound {
      assert n > 0 ==> At(l', n) == At(l, n - 1);
    }
  }

  lemma MovedStaysPaired(l: Log, l': Log, k: nat, k': nat, data: seq<byte>, maxFileSize: nat)
    requires MovedUp(l, l', k', data) && k' <= k + 1 && |At(l, 0)| + |data| > maxFileSize && Paired(l, k, maxFileSize)
    ensures Paired(l', k', maxFileSize)
  {
    hide At;
    forall n | 0 <= n < k' ensures |At(l', n)| + |At(l', n + 1)| > maxFileSize {
      assert At(l', n + 1) == At(l, n);
      if n > 0 {
        assert At(l', n) == At(l, n - 1);
        assert |At(l, n - 1)| + |At(l, n - 1 + 1)| > maxFileSize;
      }
    }
  }

  /** An item that calls for a rotation begins a new file. */
  lemma RotatedItem(l: Log, k: nat, data: seq<byte>, maxFileSize: nat, maxFiles: nat)
    requires l.current.Some? && l.handle.Some? && k <= maxFiles && Numbered(l, k)
    requires MustRotate(l, |data|, maxFileSize)
    ensures var (l', ok) := AfterItem(l, data, maxFileSize, maxFiles, NO_FAULTS);
            && ok && l'.written == l.written + data
            && l'.current == Some(data) && l'.handle == Some(Saturating(|data|))
            && Numbered(l', Min(k + 1, maxFiles)) && MovedUp(l, l', Min(k + 1, maxFiles), data)
            && Retained(l', maxFiles) == Retained(Rotate(l, maxFiles, NO_FAULTS).0, maxFiles) + data
  {
    var l' := AfterItem(l, data, maxFileSize, maxFiles, NO_FAULTS).0;
    RotationRenumbers(l, k, maxFiles);
    hide Rotate;
    var l1 := Rotate(l, maxFiles, NO_FAULTS).0;
    assert l' == Append(l1, data, None).0;
    assert [] + data == data;
    Extends(l1, l', data, maxFiles);
    hide Retained;
    forall n | 1 <= n <= Min(k + 1, maxFiles) ensures At(l', n) == At(l, n - 1) {
      assert At(l1, n) == At(l, n - 1);
    }
  }

  lemma RotatedStaysTidy(l: Log, k: nat, data: seq<byte>, maxFileSize: nat, maxFiles: nat, largest: nat)
    requires maxFileSize < U64 - 1 && |data| <= largest && Tidy(l, k, maxFileSize, maxFiles, largest)
    requires MustRotate(l, |data|, maxFileSize)
    ensures var (l', ok) := AfterItem(l, data, maxFileSize, maxFiles, NO_FAULTS);
            && ok && l'.written == l.written + data
            && Tidy(l', Min(k + 1, maxFiles), maxFileSize, maxFiles, largest)
  {
    var k' := Min(k + 1, maxFiles);
    var l' := AfterItem(l, data, maxFileSize, maxFiles, NO_FAULTS).0;
    RotatedItem(l, k, data, maxFileSize, maxFiles);
    if k < maxFiles {
      assert maxFiles !in l.rotated;
      RoomyRotation(l, maxFiles);
    }
    assert |At(l, 0)| + |data| > maxFileSize;
    hide AfterItem, Rotate, At, MustRotate, Retained, Numbered, MovedUp, Small, Paired;
    MovedStaysSmall(l, l', k, k', data, Max(maxFileSize, largest));
    MovedStaysPaired(l, l', k, k', data, maxFileSize);
  }

  /** Otherwise the current file grows. */
  lemma GrownStaysTidy(l: Log, k: nat, data: seq<byte>, maxFileSize: nat, maxFiles: nat, largest: nat)
    requires maxFileSize < U64 - 1 && |data| <= largest && Tidy(l, k, maxFileSize, maxFiles, largest)
    requires !MustRotate(l, |data|, maxFileSize)
    ensures var (l', ok) := AfterItem(l, data, maxFileSize, maxFiles, NO_FAULTS);
            && ok && l'.written == l.written + data
            && Tidy(l', k, maxFileSize, maxFiles, largest)
  {
    var l' := AfterItem(l, data, maxFileSize, maxFiles, NO_FAULTS).0;
    assert l' == Append(l, data, None).0;
    assert |l.current.value + data| <= Max(maxFileSize, largest);
    Extends(l, l', data, maxFiles);
    hide AfterItem, MustRotate, Retained, Append;
    GrownStaysPaired(l, l', k, data, maxFileSize, Max(maxFileSize, largest));
  }

  lemma GrownStaysPaired(l: Log, l': Log, k: nat, data: seq<byte>, maxFileSize: nat, bound: nat)
    requires l.current.Some? && l'.rotated == l.rotated && l'.current == Some(l.current.value + data)
    requires Small(l, k, bound) && Paired(l, k, maxFileSize) && |l.current.value + data| <= bound
    ensures Small(l', k, bound) && Paired(l', k, maxFileSize)
  {
    assert |At(l', 0)| >= |At(l, 0)|;
    forall n | 1 <= n ensures At(l', n) == At(l, n) {
    }
    hide At;
    forall n | 0 <= n < k ensures |At(l', n)| + |At(l', n + 1)| > maxFileSize {
      assert |At(l, n)| + |At(l, n + 1)| > maxFileSize;
    }
    forall n | 0 <= n <= k ensures |At(l', n)| <= bound {
      assert n > 0 ==> |At(l, n)| <= bound;
    }
  }

  lemma ItemStaysTidy(l: Log, k: nat, data: seq<byte>, maxFileSize: nat, maxFiles: nat, largest: nat) returns (k': nat)
    requires maxFileSize < U64 - 1 && |data| <= largest
    requires Tidy(l, k, maxFileSize, maxFiles, largest)
    ensures var (l', ok) := AfterItem(l, data, maxFileSize, maxFiles, NO_FAULTS);
            && ok && l'.written == l.written + data
            && Tidy(l', k', maxFileSize, maxFiles, largest)
  {
    hide AfterItem, Numbered, Small, Paired, Retained;
    k' := if MustRotate(l, |data|, maxFileSize) then Min(k + 1, maxFiles) else k;
    if MustRotate(l, |data|, maxFileSize) {
      RotatedStaysTidy(l, k, data, maxFileSize, maxFiles, largest);
    } else {
      GrownStaysTidy(l, k, data, maxFileSize, maxFiles, largest);
    }
  }

  lemma Extends(l: Log, l': Log, data: seq<byte>, maxFiles: nat)
    requires l.current.Some? && l'.rotated == l.rotated && l'.current == Some(l.current.value + data)
    ensures Retained(l', maxFiles) == Retained(l, maxFiles) + data
  {
    Associate(Older(l.rotated, maxFiles), l.current.value, data);
  }

  function Clean(items: seq<seq<byte>>): (jobs: seq<Job>)
    ensures |jobs| == |items|
  {
    seq(|items|, i requires 0 <= i < |items| => Job(items[i], NO_FAULTS))
  }

  lemma {:induction false} CleanRunIsTidy(l: Log, k: nat, items: seq<seq<byte>>, maxFileSize: nat, maxFiles: nat,
      largest: nat)
    returns (k': nat)
    requires maxFileSize < U64 - 1 && forall i :: 0 <= i < |items| ==> |items[i]| <= largest
    requires Tidy(l, k, maxFileSize, maxFiles, largest)
    ensures HandleHasFile(l)
    ensures var l' := AfterJobs(l, Clean(items), maxFileSize, maxFiles);
            Tidy(l', k', maxFileSize, maxFiles, largest) && l'.written == l.written + Concat(items)
    decreases |items|
  {
    if items == [] {
      k' := k;
      assert l.written + [] == l.written;
    } else {
      var k1 := ItemStaysTidy(l, k, items[0], maxFileSize, maxFiles, largest);
      var l1 := AfterItem(l, items[0], maxFileSize, maxFiles, NO_FAULTS).0;
      assert Clean(items)[1..] == Clean(items[1..]);
      assert Clean(items)[0] == Job(items[0], NO_FAULTS);
      hide Tidy, AfterItem;
      k' := CleanRunIsTidy(l1, k1, items[1..], maxFileSize, maxFiles, largest);
      Associate(l.written, items[0], Concat(items[1..]));
    }
  }

  /** The first item finds no file, makes one, and leaves the log tidy. */
  lemma FirstItemIsTidy(data: seq<byte>, maxFileSize: nat, maxFiles: nat, largest: nat) returns (k: nat)
    requires maxFileSize < U64 - 1 && |data| <= largest
    ensures var (l, ok) := AfterItem(NO_LOG, data, maxFileSize, maxFiles, NO_FAULTS);
            ok && l.written == data && Tidy(l, k, maxFileSize, maxFiles, largest)
  {
    var l0 := OpenLog(NO_LOG, Opens).0;
    assert l0 == Log(Some([]), map[], Some(0), []);
    NothingRotated(maxFiles);
    assert Retained(l0, maxFiles) == l0.written;
    assert AfterItem(NO_LOG, data, maxFileSize, maxFiles, NO_FAULTS)
           == AfterItem(l0, data, maxFileSize, maxFiles, NO_FAULTS);
    k := ItemStaysTidy(l0, 0, data, maxFileSize, maxFiles, largest);
  }

  lemma {:induction false} NothingRotated(k: nat)
    ensures Older(map[], k) == []
  {
    if k > 0 {
      NothingRotated(k - 1);
    }
  }

  // ---- Retention arithmetic ---------------------------------------------------------------

  /** Bytes in the current file and its first `k` predecessors. */
  function Volume(l: Log, k: nat): nat
  {
    if k == 0 then |Contents(l)| else |At(l, k)| + Volume(l, k - 1)
  }

  lemma {:induction false} VolumeIsLength(l: Log, k: nat)
    ensures |Older(l.rotated, k)| + |Contents(l)| == Volume(l, k)
  {
    if k > 0 {
      VolumeIsLength(l, k - 1);
    }
  }

  /** Neighbours in pairs: each pair holds more than one file may. */
  lemma {:induction false} PairsAreBig(l: Log, k: nat, maxFileSize: nat)
    requires Paired(l, k, maxFileSize)
    ensures Volume(l, k) >= ((k + 1) / 2) * (maxFileSize + 1)
    decreases k
  {
    if k == 0 {
      assert (k + 1) / 2 == 0;
      return;
    }
    assert |At(l, k - 1)| + |At(l, k - 1 + 1)| > maxFileSize;
    assert Volume(l, k) == |At(l, k)| + Volume(l, k - 1);
    HalfOfNext(k);
    OneMorePair((k + 1) / 2 - 1, maxFileSize + 1);
    if k == 1 {
      LastFile(l);
    } else {
      assert Volume(l, k - 1) == |At(l, k - 1)| + Volume(l, k - 2);
      PairsAreBig(l, k - 2, maxFileSize);
    }
    hide At, Volume, Paired;
  }

  lemma HalfOfNext(k: nat)
    requires k > 0
    ensures (k + 1) / 2 > 0 && (k == 1 ==> (k + 1) / 2 - 1 == 0) && (k > 1 ==> (k + 1) / 2 - 1 == (k - 2 + 1) / 2)
  {
  }

  lemma LastFile(l: Log)
    ensures Volume(l, 0) == |At(l, 0)|
  {
  }

  lemma OneMorePair(pairs: nat, size: nat)
    ensures (pairs + 1) * size == pairs * size + size
  {
  }

  lemma {:induction false} FilesAreSmall(l: Log, k: nat, bound: nat)
    requires Small(l, k, bound)
    ensures Volume(l, k) <= (k + 1) * bound
  {
    if k > 0 {
      assert |At(l, k)| <= bound;
      FilesAreSmall(l, k - 1, bound);
      hide At;
      OneMorePair(k, bound);
    }
  }

  lemma {:induction false} VolumeStops(l: Log, k: nat, j: nat)
    requires k <= j && Numbered(l, k)
    ensures Volume(l, j) == Volume(l, k)
    decreases j
  {
    if k < j {
      VolumeStops(l, k, j - 1);
    }
  }

  lemma TidyBounds(l: Log, k: nat, maxFileSize: nat, maxFiles: nat, largest: nat)
    requires Tidy(l, k, maxFileSize, maxFiles, largest)
    ensures |Retained(l, maxFiles)| <= (maxFiles + 1) * Max(maxFileSize, largest)
    ensures maxFiles > 0 && Retained(l, maxFiles) != l.written ==>
              |Retained(l, maxFiles)| > ((maxFiles + 1) / 2) * maxFileSize
  {
    var bound := Max(maxFileSize, largest);
    VolumeStops(l, k, maxFiles);
    FilesAreSmall(l, k, bound);
    PairsAreBig(l, k, maxFileSize);
    hide Tidy, Volume, At, Older, Retained;
    VolumeIsLength(l, maxFiles);
    MoreIsMore(k + 1, maxFiles + 1, bound);
    MoreThanHalf((maxFiles + 1) / 2, maxFileSize);
    RetainedLength(l, maxFiles);
  }

  lemma RetainedLength(l: Log, maxFiles: nat)
    ensures |Retained(l, maxFiles)| == |Older(l.rotated, maxFiles)| + |Contents(l)|
  {
  }

  lemma MoreIsMore(a: nat, b: nat, bound: nat)
    requires a <= b
    ensures a * bound <= b * bound
  {
  }

  lemma MoreThanHalf(pairs: nat, size: nat)
    ensures pairs > 0 ==> pairs * (size + 1) > pairs * size
  {
    assert pairs * (size + 1) == pairs * size + pairs;
  }

  /** From an empty directory and without failures: everything is written; what is kept is the end
      of it, in files numbered without gaps; it never exceeds one full set of files; and once
      anything has been lost, more than half a set is always kept. */
  lemma RetentionOfCleanRuns(items: seq<seq<byte>>, maxFileSize: nat, maxFiles: nat, largest: nat)
    requires maxFileSize < U64 - 1 && forall i :: 0 <= i < |items| ==> |items[i]| <= largest
    ensures var l := AfterJobs(NO_LOG, Clean(items), maxFileSize, maxFiles);
            && l.written == Concat(items) && IsSuffix(Retained(l, maxFiles), l.written)
            && (forall n :: n in l.rotated ==> 1 <= n <= maxFiles && (n > 1 ==> n - 1 in l.rotated))
            && |Retained(l, maxFiles)| <= (maxFiles + 1) * Max(maxFileSize, largest)
            && (maxFiles > 0 && Retained(l, maxFiles) != l.written ==>
                  |Retained(l, maxFiles)| > ((maxFiles + 1) / 2) * maxFileSize)
  {
    FilesAreTheEndOfEverything(items, maxFileSize, maxFiles);
    if items == [] {
      EmptyBounds(maxFileSize, maxFiles, largest);
    } else {
      FirstJob(items, maxFileSize, maxFiles);
      hide AfterItem, AfterJobs, Retained, Tidy, Older, IsSuffix;
      var k1 := FirstItemIsTidy(items[0], maxFileSize, maxFiles, largest);
      var l1 := AfterItem(NO_LOG, items[0], maxFileSize, maxFiles, NO_FAULTS).0;
      var k := CleanRunIsTidy(l1, k1, items[1..], maxFileSize, maxFiles, largest);
      var l := AfterJobs(l1, Clean(items[1..]), maxFileSize, maxFiles);
      TidyBounds(l, k, maxFileSize, maxFiles, largest);
      TidyNumbers(l, k, maxFileSize, maxFiles, largest);
    }
  }

  lemma FilesAreTheEndOfEverything(items: seq<seq<byte>>, maxFileSize: nat, maxFiles: nat)
    ensures var l := AfterJobs(NO_LOG, Clean(items), maxFileSize, maxFiles);
            IsSuffix(Retained(l, maxFiles), l.written)
  {
    NothingRotated(maxFiles);
    FilesAreTheEndOfWhatWasWritten(NO_LOG, Clean(items), maxFileSize, maxFiles);
  }

  lemma EmptyBounds(maxFileSize: nat, maxFiles: nat, largest: nat)
    ensures AfterJobs(NO_LOG, Clean([]), maxFileSize, maxFiles) == NO_LOG
    ensures Retained(NO_LOG, maxFiles) == [] == Concat([])
    ensures 0 <= (maxFiles + 1) * Max(maxFileSize, largest)
  {
    NothingRotated(maxFiles);
  }

  lemma FirstJob(items: seq<seq<byte>>, maxFileSize: nat, maxFiles: nat)
    requires items != []
    ensures var l1 := AfterItem(NO_LOG, items[0], maxFileSize, maxFiles, NO_FAULTS).0;
            && HandleHasFile(l1)
            && AfterJobs(NO_LOG, Clean(items), maxFileSize, maxFiles)
                 == AfterJobs(l1, Clean(items[1..]), maxFileSize, maxFiles)
    ensures Concat(items) == items[0] + Concat(items[1..])
  {
    assert Clean(items)[1..] == Clean(items[1..]);
    hide AfterItem;
  }

  lemma TidyNumbers(l: Log, k: nat, maxFileSize: nat, maxFiles: nat, largest: nat)
    requires Tidy(l, k, maxFileSize, maxFiles, largest)
    ensures forall n :: n in l.rotated ==> 1 <= n <= maxFiles && (n > 1 ==> n - 1 in l.rotated)
  {
    hide Small, Paired, Retained;
  }
}
