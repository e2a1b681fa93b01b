/** What writing one item comes to: when it succeeds, what its file has gained, and where the item is
    then (crates/persist-holder/src/log_worker.rs). */
module LogOutcomes {
  import opened Bytes
  import opened LogFiles

  // ---- Which calls an item needs ------------------------------------------------------------------

  function Contents(l: Log): seq<byte>
  {
    if l.current.Some? then l.current.value else []
  }

  /** The byte count the worker goes by: the one it has kept, or the length of the file it opens. */
  function CountedSize(l: Log): nat
  {
    if l.handle.Some? then l.handle.value else Saturating(|Contents(l)|)
  }

  predicate TooBig(l: Log, data: seq<byte>, maxFileSize: nat)
  {
    Saturating(CountedSize(l) + |data|) > maxFileSize
  }

  /** One of the files to be moved up cannot be moved, or the current one cannot, or the new one
      cannot be opened. */
  ghost predicate RotationFails(l: Log, maxFiles: nat, faults: Faults)
  {
    || (exists n :: 1 <= n < maxFiles && n in l.rotated && n in faults.stuck)
    || faults.currentStuck
    || faults.reopen != Opens
  }

  /** A call fails that comes before the item's own write. */
  ghost predicate NotReady(l: Log, data: seq<byte>, maxFileSize: nat, maxFiles: nat, faults: Faults)
  {
    || (l.handle.None? && faults.open != Opens)
    || (TooBig(l, data, maxFileSize) && RotationFails(l, maxFiles, faults))
  }

  /** A call fails that the item needs. */
  ghost predicate CallFails(l: Log, data: seq<byte>, maxFileSize: nat, maxFiles: nat, faults: Faults)
  {
    NotReady(l, data, maxFileSize, maxFiles, faults) || faults.wrote.Some?
  }

  /** What the item's file has gained. */
  ghost function Gain(l: Log, data: seq<byte>, maxFileSize: nat, maxFiles: nat, faults: Faults): seq<byte>
  {
    if NotReady(l, data, maxFileSize, maxFiles, faults) then []
    else if faults.wrote.Some? then data[..Min(faults.wrote.value, |data|)]
    else data
  }

  // ---- Rotation -------------------------------------------------------------------------------------

  lemma {:induction false} ShiftSucceeds(files: map<nat, seq<byte>>, number: nat, stuck: set<nat>)
    ensures ShiftUp(files, number, stuck).1 <==> !exists n :: 1 <= n <= number && n in files && n in stuck
    decreases number
  {
    if number > 0 {
      if number !in files {
        ShiftSucceeds(files, number - 1, stuck);
      } else if number !in stuck {
        var moved := Renamed(files, number);
        assert forall n :: 1 <= n < number ==> (n in moved <==> n in files);
        ShiftSucceeds(moved, number - 1, stuck);
      }
    }
  }

  /** A rotation succeeds exactly if none of its calls fails, and then the new file is empty. */
  lemma RotationSucceeds(l: Log, maxFiles: nat, faults: Faults)
    requires l.current.Some?
    ensures var (l', ok) := Rotate(l, maxFiles, faults);
            && (ok <==> !RotationFails(l, maxFiles, faults))
            && l'.written == l.written
            && (ok ==> l'.current == Some([]) && l'.handle == Some(0))
  {
    var room := if faults.unremovable then l.rotated else l.rotated - {maxFiles};
    assert forall n :: 1 <= n < maxFiles ==> (n in room <==> n in l.rotated);
    if maxFiles > 0 {
      ShiftSucceeds(room, maxFiles - 1, faults.stuck);
    }
    hide ShiftUp;
  }

  // ---- Items ----------------------------------------------------------------------------------------

  /** An item is reported as written exactly if every call it needed has succeeded. The log has gained
      all of it then, at the end of the current file, which is new if the item was too big for the old
      one; otherwise what was written before a call failed, and nothing is taken for granted about the
      file the next time. */
  lemma ItemOutcome(l: Log, data: seq<byte>, maxFileSize: nat, maxFiles: nat, faults: Faults)
    requires HandleHasFile(l)
    ensures var (l', ok) := AfterItem(l, data, maxFileSize, maxFiles, faults);
            && (ok <==> !CallFails(l, data, maxFileSize, maxFiles, faults))
            && l'.written == l.written + Gain(l, data, maxFileSize, maxFiles, faults)
            && (!ok ==> l'.handle == None)
            && (!NotReady(l, data, maxFileSize, maxFiles, faults) ==>
                  l'.current == Some((if TooBig(l, data, maxFileSize) then [] else Contents(l))
                                     + Gain(l, data, maxFileSize, maxFiles, faults)))
            && (ok ==>
                  l'.handle == Some(Saturating((if TooBig(l, data, maxFileSize) then 0 else CountedSize(l)) + |data|)))
            && (l.handle.None? && faults.open != Opens ==>
                  && l'.rotated == l.rotated
                  && l'.current == (if faults.open == Refuses then Some(Contents(l)) else l.current))
  {
    var (l1, ready) := if l.handle.Some? then (l, true) else OpenLog(l, faults.open);
    assert l.written + [] == l.written;
    if ready && MustRotate(l1, |data|, maxFileSize) {
      RotationSucceeds(l1, maxFiles, faults);
    }
    hide Rotate, RotationFails;
    if ready {
      assert [] + data == data;
      assert l1.rotated == l.rotated && CountedSize(l1) == CountedSize(l) && Contents(l1) == Contents(l);
      assert RotationFails(l1, maxFiles, faults) == RotationFails(l, maxFiles, faults) by {
        SameRotation(l, l1, maxFiles, faults);
      }
    }
  }

  lemma SameRotation(l: Log, l1: Log, maxFiles: nat, faults: Faults)
    requires l1.rotated == l.rotated
    ensures RotationFails(l1, maxFiles, faults) == RotationFails(l, maxFiles, faults)
  {
  }

  /** The log gains all of the item, or only its beginning. */
  lemma GainIsAPrefix(l: Log, data: seq<byte>, maxFileSize: nat, maxFiles: nat, faults: Faults)
    ensures Gain(l, data, maxFileSize, maxFiles, faults) <= data
    ensures !CallFails(l, data, maxFileSize, maxFiles, faults) ==> Gain(l, data, maxFileSize, maxFiles, faults) == data
  {
  }

  /** Without faults every item is written. */
  lemma CleanItemsSucceed(l: Log, data: seq<byte>, maxFileSize: nat, maxFiles: nat)
    ensures !CallFails(l, data, maxFileSize, maxFiles, NO_FAULTS)
  {
  }
}
