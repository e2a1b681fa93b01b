/** Reading a session's history back from its rotated log files
    (crates/persistd/src/attach_history.rs). */
module AttachHistory {
  import opened Bytes
  import opened LogFiles
  import opened LogRetention

  const MAX_ROTATED_FILES: nat := 1024

  datatype ReadError = TooManyFiles | UnsafeDirectory | UnsafeFile

  datatype ReadResult = Read(bytes: seq<byte>) | Failed(error: ReadError)

  /** The log directory as the reader finds it: `suspect` are the files that fail validation. */
  datatype Directory = Absent | Suspect | Listed(log: Log, suspect: set<nat>)

  predicate Present(l: Log, n: nat)
  {
    if n == 0 then l.current.Some? else n in l.rotated
  }

  /** What the newest `count` files hold, oldest byte first. */
  function Newest(l: Log, count: nat): seq<byte>
  {
    if count == 0 then [] else Retained(l, count - 1)
  }

  /** A suspect file stops the reader only if it gets that far. */
  predicate Stumbles(l: Log, suspect: set<nat>, maxBytes: nat, n: nat)
  {
    n in suspect && Present(l, n) && |Newest(l, n)| < maxBytes
  }

  function Reversed<T>(s: seq<T>): (r: seq<T>)
    ensures |r| == |s|
  {
    if s == [] then [] else [s[|s| - 1]] + Reversed(s[..|s| - 1])
  }

  lemma ReversedSnoc<T>(s: seq<T>, x: T)
    ensures Reversed(s + [x]) == [x] + Reversed(s)
  {
    assert (s + [x])[..|s|] == s;
  }

  /** One more, older, file in front. */
  lemma NewestGrows(l: Log, n: nat)
    ensures Newest(l, n + 1) == At(l, n) + Newest(l, n)
  {
    if n == 0 {
      assert Newest(l, 1) == Contents(l);
      assert At(l, 0) + [] == At(l, 0);
    } else {
      Associate(At(l, n), Older(l.rotated, n - 1), Contents(l));
    }
  }

  lemma {:induction false} NewestNests(l: Log, n: nat, m: nat)
    requires n <= m
    ensures IsSuffix(Newest(l, n), Newest(l, m))
    decreases m
  {
    if n < m {
      NewestNests(l, n, m - 1);
      NewestGrows(l, m - 1);
    }
  }

  lemma TailOfLonger(older: seq<byte>, newer: seq<byte>, limit: nat)
    requires |newer| < limit
    ensures LastN(older + newer, limit) == LastN(older, limit - |newer|) + newer
  {
  }

  lemma EnoughIsEnough(a: seq<byte>, b: seq<byte>, limit: nat)
    requires IsSuffix(a, b) && |a| >= limit
    ensures LastN(a, limit) == LastN(b, limit)
  {
    assert b[|b| - limit..] == b[|b| - |a|..][|a| - limit..];
  }

  /** What has been collected after the newest `count` files: newest segment first. */
  ghost predicate Collected(l: Log, segments: seq<seq<byte>>, remaining: nat, maxBytes: nat, count: nat)
  {
    && |Newest(l, count)| + remaining == maxBytes
    && Concat(Reversed(segments)) == Newest(l, count)
  }

  lemma CollectMore(l: Log, segments: seq<seq<byte>>, remaining: nat, maxBytes: nat, n: nat)
    requires Collected(l, segments, remaining, maxBytes, n) && remaining > 0
    ensures var bytes := LastN(At(l, n), remaining);
            && Concat(Reversed(segments + [bytes])) == LastN(Newest(l, n + 1), maxBytes)
            && (|bytes| < remaining ==> Collected(l, segments + [bytes], remaining - |bytes|, maxBytes, n + 1))
            && (|bytes| == remaining ==> |Newest(l, n + 1)| >= maxBytes)
  {
    var bytes := LastN(At(l, n), remaining);
    ReversedSnoc(segments, bytes);
    NewestGrows(l, n);
    TailOfLonger(At(l, n), Newest(l, n), maxBytes);
    assert Concat([bytes] + Reversed(segments)) == bytes + Concat(Reversed(segments));
  }

  lemma CollectNothing(l: Log, segments: seq<seq<byte>>, remaining: nat, maxBytes: nat, n: nat)
    requires Collected(l, segments, remaining, maxBytes, n) && !Present(l, n)
    ensures Collected(l, segments, remaining, maxBytes, n + 1)
  {
    NewestGrows(l, n);
    assert At(l, n) == [];
  }

  /** Newest file first until the limit is reached, then turned round. The result is exactly the
      last `min(maxBytes, retained)` bytes of the retained log; the call fails exactly when the
      rotation count is out of range, or validation fails on something it had to look at. */
  method ReadRotatedTail(directory: Directory, maxFiles: nat, maxBytes: nat) returns (result: ReadResult)
    ensures result.Read? ==>
              result.bytes == if maxBytes > 0 && directory.Listed?
                then LastN(Retained(directory.log, maxFiles), maxBytes) else []
    ensures result.Failed? <==>
              && maxBytes > 0
              && (|| maxFiles > 1024
                  || directory.Suspect?
                  || (directory.Listed? && exists n ::
                        0 <= n <= maxFiles && Stumbles(directory.log, directory.suspect, maxBytes, n)))
  {
    if maxBytes == 0 {
      return Read([]);
    }
    if maxFiles > MAX_ROTATED_FILES {
      return Failed(TooManyFiles);
    }
    match directory {
      case Absent => return Read([]);
      case Suspect => return Failed(UnsafeDirectory);
      case Listed(l, suspect) => result := ReadFiles(l, suspect, maxFiles, maxBytes);
    }
  }

  method ReadFiles(l: Log, suspect: set<nat>, maxFiles: nat, maxBytes: nat) returns (result: ReadResult)
    requires maxBytes > 0
    ensures result.Read? ==> result.bytes == LastN(Retained(l, maxFiles), maxBytes)
    ensures result.Failed? <==> exists n :: 0 <= n <= maxFiles && Stumbles(l, suspect, maxBytes, n)
  {
    var segments: seq<seq<byte>> := [];
    var remaining := maxBytes;
    var rotation := 0;
    NothingCollected(l, maxBytes);
    hide Collected, Newest, Stumbles, Concat, Reversed, Retained, At, LastN;
    while rotation <= maxFiles
      invariant rotation <= maxFiles + 1 && remaining > 0
      invariant Collected(l, segments, remaining, maxBytes, rotation)
      invariant forall n :: 0 <= n < rotation ==> !Stumbles(l, suspect, maxBytes, n)
    {
      if Present(l, rotation) {
        Stumbling(l, suspect, segments, remaining, maxBytes, rotation);
        if rotation in suspect {
          return Failed(UnsafeFile);
        }
        var bytes := LastN(At(l, rotation), remaining);
        assert |bytes| <= remaining;
        CollectMore(l, segments, remaining, maxBytes, rotation);
        segments := segments + [bytes];
        if |bytes| == remaining {
          FullTail(l, suspect, maxBytes, rotation, maxFiles);
          return Read(Concat(Reversed(segments)));
        }
        remaining := remaining - |bytes|;
      } else {
        CollectNothing(l, segments, remaining, maxBytes, rotation);
        Missing(l, suspect, maxBytes, rotation);
      }
      rotation := rotation + 1;
    }
    CollectedAll(l, segments, remaining, maxBytes, maxFiles);
    result := Read(Concat(Reversed(segments)));
  }

  lemma NothingCollected(l: Log, maxBytes: nat)
    ensures Collected(l, [], maxBytes, maxBytes, 0)
  {
  }

  lemma CollectedAll(l: Log, segments: seq<seq<byte>>, remaining: nat, maxBytes: nat, maxFiles: nat)
    requires Collected(l, segments, remaining, maxBytes, maxFiles + 1)
    ensures Concat(Reversed(segments)) == LastN(Retained(l, maxFiles), maxBytes)
  {
    hide Retained, Concat, Reversed;
  }

  lemma Stumbling(l: Log, suspect: set<nat>, segments: seq<seq<byte>>, remaining: nat, maxBytes: nat, n: nat)
    requires Collected(l, segments, remaining, maxBytes, n) && remaining > 0 && Present(l, n)
    ensures Stumbles(l, suspect, maxBytes, n) <==> n in suspect
  {
    hide Newest, Concat, Reversed;
  }

  lemma Missing(l: Log, suspect: set<nat>, maxBytes: nat, n: nat)
    requires !Present(l, n)
    ensures !Stumbles(l, suspect, maxBytes, n)
  {
  }

  /** Once the limit is reached, older files change nothing and are not looked at. */
  lemma FullTail(l: Log, suspect: set<nat>, maxBytes: nat, n: nat, maxFiles: nat)
    requires n <= maxFiles && |Newest(l, n + 1)| >= maxBytes
    ensures LastN(Newest(l, n + 1), maxBytes) == LastN(Retained(l, maxFiles), maxBytes)
    ensures forall m :: n < m <= maxFiles ==> !Stumbles(l, suspect, maxBytes, m)
  {
    NewestNests(l, n + 1, maxFiles + 1);
    EnoughIsEnough(Newest(l, n + 1), Newest(l, maxFiles + 1), maxBytes);
    forall m | n < m <= maxFiles ensures !Stumbles(l, suspect, maxBytes, m) {
      NewestNests(l, n + 1, m);
    }
  }

  /** Writer and reader together, whatever failed while writing: with the same rotation count, the
      reader returns the last `min(maxBytes, retained)` bytes that were ever written. */
  lemma ReaderSeesTheEndOfTheStream(l: Log, jobs: seq<Job>, maxFileSize: nat, maxFiles: nat, maxBytes: nat)
    requires HandleHasFile(l) && IsSuffix(Retained(l, maxFiles), l.written)
    ensures var l' := AfterJobs(l, jobs, maxFileSize, maxFiles);
            LastN(Retained(l', maxFiles), maxBytes) == LastN(l'.written, Min(maxBytes, |Retained(l', maxFiles)|))
  {
    FilesAreTheEndOfWhatWasWritten(l, jobs, maxFileSize, maxFiles);
    var l' := AfterJobs(l, jobs, maxFileSize, maxFiles);
    LastOfSuffix(Retained(l', maxFiles), l'.written, maxBytes);
  }

  /** The reader on the files a writer has left: the last bytes ever written, as many as the files
      hold, unless there is something the reader may not touch. */
  method ReadBack(ghost l: Log, ghost jobs: seq<Job>, ghost maxFileSize: nat, files: Log, suspect: set<nat>,
      maxFiles: nat, maxBytes: nat)
    returns (result: ReadResult)
    requires HandleHasFile(l) && IsSuffix(Retained(l, maxFiles), l.written)
    requires files == AfterJobs(l, jobs, maxFileSize, maxFiles)
    ensures result.Read? ==> result.bytes == LastN(files.written, Min(maxBytes, |Retained(files, maxFiles)|))
    ensures result.Failed? <==>
              && maxBytes > 0
              && (maxFiles > 1024 || exists n ::
                    0 <= n <= maxFiles && Stumbles(files, suspect, maxBytes, n))
  {
    hide AfterJobs, Retained, Stumbles;
    ReaderSeesTheEndOfTheStream(l, jobs, maxFileSize, maxFiles, maxBytes);
    result := ReadRotatedTail(Listed(files, suspect), maxFiles, maxBytes);
  }

  lemma LastOfSuffix(a: seq<byte>, b: seq<byte>, limit: nat)
    requires IsSuffix(a, b)
    ensures LastN(a, limit) == LastN(b, Min(limit, |a|))
  {
    if |a| > limit {
      assert b[|b| - limit..] == b[|b| - |a|..][|a| - limit..];
    }
  }
}
