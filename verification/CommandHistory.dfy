/** Appending to the command history: three branches, one meaning, and what a crash leaves behind
    (crates/persist-core/src/command_history.rs). */
module CommandHistory {
  import opened Bytes
  import opened Text
  import opened HistoryFormat

  /** `data` over the bytes at `at`. */
  function Overwrite(b: seq<byte>, at: nat, data: seq<byte>): (r: seq<byte>)
    requires at + |data| <= |b|
    ensures |r| == |b|
  {
    b[..at] + data + b[at + |data|..]
  }

  /** The in-place append after its first `writes` of three writes: the record behind the end,
      the next sequence number, the record count. */
  function InPlace(b: seq<byte>, r: Record, count: nat, writes: nat): seq<byte>
    requires HEADER_LEN <= |b|
  {
    var b1 := if writes >= 1 then b + EncodeRecord(r) else b;
    var b2 := if writes >= 2 then Overwrite(b1, 8, U64Bytes(Saturating(r.sequence + 1))) else b1;
    if writes >= 3 then Overwrite(b2, 16, U64Bytes(Saturating(count + 1))) else b2
  }

  predicate RoomFor(h: History, r: Record)
  {
    |h.records| < MAX_HISTORY_RECORDS && EstimatedSize(h.records) + RecordSize(r) <= MAX_HISTORY_BYTES
  }

  /** What `append_command` does to the file and answers. */
  function AfterAppend(b: seq<byte>, shell: seq<byte>, command: seq<byte>, now: nat): (seq<byte>, Result<Record>)
  {
    if !Admissible(shell, command) then (b, Err(BadRecord))
    else match Load(b)
      case Err(e) => (b, Err(e))
      case Ok(h) =>
        var r := Record(h.next, now, shell, command);
        if b == [] then (Print(History(Saturating(r.sequence + 1), h.records + [r])), Ok(r))
        else if RoomFor(h, r) && HEADER_LEN <= |b| then (InPlace(b, r, |h.records|, 3), Ok(r))
        else (Print(History(Saturating(h.next + 1), Compacted(h.records + [r]))), Ok(r))
  }

  // ---- The in-place branch ------------------------------------------------------------

  /** The file as header and body. */
  lemma Parts(b: seq<byte>)
    requires HEADER_LEN <= |b| && b[..8] == MAGIC
    ensures FromBigEndian(b[8..16]) < U64 && FromBigEndian(b[16..24]) < U64
    ensures b == Header(FromBigEndian(b[8..16]), FromBigEndian(b[16..24])) + b[HEADER_LEN..]
  {
    Widths();
    BigEndianInverse(b[8..16]);
    BigEndianInverse(b[16..24]);
    hide BigEndian, FromBigEndian, Pow256;
    assert b == b[..8] + b[8..16] + b[16..24] + b[24..];
  }

  /** Each write replaces one part of it. */
  lemma InPlaceParts(next: nat, count: nat, body: seq<byte>, r: Record, have: nat, writes: nat)
    requires 1 <= writes <= 3
    ensures InPlace(Header(next, count) + body, r, have, writes)
         == Header(if writes >= 2 then Saturating(r.sequence + 1) else next,
                   if writes >= 3 then Saturating(have + 1) else count) + (body + EncodeRecord(r))
  {
    hide BigEndian, EncodeRecord;
    var rest := body + EncodeRecord(r);
    var b := Header(next, count) + body;
    var b1 := b + EncodeRecord(r);
    Associate(Header(next, count), body, EncodeRecord(r));
    assert b1 == Header(next, count) + rest;
    NextOver(next, Saturating(r.sequence + 1), count, rest);
    CountOver(Saturating(r.sequence + 1), count, Saturating(have + 1), rest);
  }

  lemma NextOver(next: nat, next': nat, count: nat, rest: seq<byte>)
    ensures Overwrite(Header(next, count) + rest, 8, U64Bytes(next')) == Header(next', count) + rest
  {
    hide BigEndian;
    var b := Header(next, count) + rest;
    assert b[..8] == MAGIC;
    assert b[16..] == U64Bytes(count) + rest;
  }

  lemma CountOver(next: nat, count: nat, count': nat, rest: seq<byte>)
    ensures Overwrite(Header(next, count) + rest, 16, U64Bytes(count')) == Header(next, count') + rest
  {
    hide BigEndian;
    var b := Header(next, count) + rest;
    assert b[..16] == MAGIC + U64Bytes(next);
    assert b[24..] == rest;
  }

  /** A body with one more record behind it. */
  lemma OneMoreRecord(body: seq<byte>, r: Record)
    requires DecodeAll(body).Ok? && ValidRecord(r)
    ensures DecodeAll(body + EncodeRecord(r)) == Ok(DecodeAll(body).value + [r])
    ensures |EncodeRecord(r)| == RecordSize(r)
  {
    assert EncodeAll([r]) == EncodeRecord(r) + [];
    assert EncodeRecord(r) + [] == EncodeRecord(r);
    DecodeEncodedAll([r]);
    DecodeAppend(body, EncodeRecord(r));
    EncodedLength(r, U16Bytes(0));
  }

  ghost predicate NewerThanAll(records: seq<Record>, r: Record)
  {
    records == [] || records[|records| - 1].sequence < r.sequence
  }

  lemma IncreasingOneMore(records: seq<Record>, r: Record)
    requires Increasing(records)
    ensures Increasing(records + [r]) <==> NewerThanAll(records, r)
  {
    var all := records + [r];
    if records != [] {
      assert all[|records| - 1] == records[|records| - 1] && all[|records|] == r;
    }
  }

  /** The stored count of a file that has a header. */
  function StoredCount(b: seq<byte>): nat
    requires HEADER_LEN <= |b|
  {
    FromBigEndian(b[16..24])
  }

  /** What is loaded after 1, 2 or all 3 of the in-place writes: always the state with the new
      record, unless the header was lagging already and the count has not been written. */
  lemma InPlaceLoads(b: seq<byte>, r: Record, writes: nat)
    requires b != [] && Load(b).Ok? && 1 <= writes <= 3
    requires var h := Load(b).value; r.sequence == h.next && ValidRecord(r) && RoomFor(h, r)
    ensures HEADER_LEN <= |b|
    ensures var h := Load(b).value;
            Load(InPlace(b, r, |h.records|, writes))
            == if writes < 3 && StoredCount(b) < |h.records| then Err(CountMismatch)
               else if NewerThanAll(h.records, r) then Ok(History(Saturating(r.sequence + 1), h.records + [r]))
               else Err(BadSequence)
  {
    HeaderFacts(b);
    var h := Load(b).value;
    var next := FromBigEndian(b[8..16]);
    var count := FromBigEndian(b[16..24]);
    var next' := if writes >= 2 then Saturating(r.sequence + 1) else next;
    var count' := if writes >= 3 then Saturating(|h.records| + 1) else count;
    hide Load, DecodeAll, Header, EncodeRecord, FromBigEndian, Increasing, EncodeAll, ValidRecord, InPlace, BodySize,
      AllValid, ParsedNext, Validate, NewerThanAll;
    InPlaceVerdict(h, r, next, count, writes);
    var body := b[HEADER_LEN..];
    InPlaceParts(next, count, body, r, |h.records|, writes);
    OneMoreRecord(body, r);
    LoadOf(next', count', body + EncodeRecord(r));
  }

  /** What the header and the records come to. */
  lemma InPlaceVerdict(h: History, r: Record, next: nat, count: nat, writes: nat)
    requires count <= |h.records| <= count + 1 && next <= h.next == r.sequence < U64
    requires Increasing(h.records) && |h.records| < MAX_HISTORY_RECORDS && 1 <= writes <= 3
    ensures var all := h.records + [r];
            var next' := if writes >= 2 then Saturating(r.sequence + 1) else next;
            var count' := if writes >= 3 then Saturating(|h.records| + 1) else count;
            && Max(next', ParsedNext(all)) == Saturating(r.sequence + 1)
            && Validate(count', all) == if writes < 3 && count < |h.records| then Some(CountMismatch)
                                        else if NewerThanAll(h.records, r) then None
                                        else Some(BadSequence)
  {
    IncreasingOneMore(h.records, r);
    LastParsed(h.records, r);
    hide Increasing, ParsedNext, NewerThanAll;
  }

  /** A file that loads, in parts. */
  lemma HeaderFacts(b: seq<byte>)
    requires b != [] && Load(b).Ok?
    ensures HEADER_LEN <= |b|
    ensures var h := Load(b).value;
            var next := FromBigEndian(b[8..16]);
            var count := FromBigEndian(b[16..24]);
            && next < U64 && count < U64 && next <= h.next && count <= |h.records| <= count + 1
            && b == Header(next, count) + b[HEADER_LEN..] && DecodeAll(b[HEADER_LEN..]) == Ok(h.records)
            && ValidHistory(h) && |b| == EstimatedSize(h.records) && Increasing(h.records)
  {
    LoadedIsValid(b);
    Parts(b);
    hide DecodeAll, Header, FromBigEndian, Increasing, AllValid, BodySize;
  }

  lemma LastParsed(records: seq<Record>, r: Record)
    ensures ParsedNext(records + [r]) == Saturating(r.sequence + 1)
  {
  }

  // ---- All three branches -----------------------------------------------------------------

  /** A sequence number is left: the last stored one is not the largest there is. */
  predicate SequenceLeft(h: History)
  {
    h.records == [] || h.records[|h.records| - 1].sequence < U64 - 1
  }

  lemma NewestIsNewer(h: History, r: Record)
    requires ValidHistory(h) && r.sequence == h.next
    ensures NewerThanAll(h.records, r) <==> SequenceLeft(h)
  {
  }

  /** A printed history that does not increase is refused. */
  lemma PrintedOutOfOrder(next: nat, records: seq<Record>)
    requires AllValid(records) && !Increasing(records) && next < U64 && Fits(records)
    ensures Load(Print(History(next, records))) == Err(BadSequence)
  {
    EncodedSize(records);
    DecodeEncodedAll(records);
    hide EncodeAll, DecodeAll, BodySize, ValidRecord, Increasing;
    LoadOf(next, |records|, EncodeAll(records));
  }

  lemma SuffixIncreasing(init: seq<Record>, last: Record, kept: seq<Record>)
    requires IsSuffix(kept, init + [last]) && |kept| >= Min(2, |init| + 1) && Increasing(init)
    ensures Increasing(kept) <==> NewerThanAll(init, last)
  {
    var all := init + [last];
    var d := |all| - |kept|;
    IncreasingOneMore(init, last);
    assert forall i :: 0 <= i < |kept| ==> kept[i] == all[d + i];
    if Increasing(all) {
      forall i | 0 < i < |kept| ensures kept[i - 1].sequence < kept[i].sequence {
        assert kept[i - 1] == all[d + i - 1] && kept[i] == all[d + i];
      }
    }
    if init != [] {
      var n := |kept|;
      assert kept[n - 2] == all[|all| - 2] == init[|init| - 1] && kept[n - 1] == last;
    }
  }

  lemma SuffixValid(all: seq<Record>, kept: seq<Record>)
    requires IsSuffix(kept, all) && AllValid(all)
    ensures AllValid(kept)
  {
    var d := |all| - |kept|;
    assert forall i :: 0 <= i < |kept| ==> kept[i] == all[d + i];
  }

  /** What compaction keeps of valid records and a new one. */
  lemma KeptFacts(h: History, r: Record)
    requires ValidHistory(h) && ValidRecord(r) && r.sequence == h.next
    ensures var kept := Compacted(h.records + [r]);
            && AllValid(kept) && Fits(kept) && kept != [] && kept[|kept| - 1] == r
            && (Increasing(kept) <==> SequenceLeft(h))
  {
    var all := h.records + [r];
    var kept := Compacted(all);
    assert AllValid(all);
    NewestIsNewer(h, r);
    hide ValidRecord, BodySize, Compacted;
    NewestSurvive(all);
    CompactedIsLongest(all);
    SuffixValid(all, kept);
    assert kept[|kept| - 1] == all[|all| - 1];
    hide AllValid;
    SuffixIncreasing(h.records, r, kept);
  }

  /** One meaning for all three branches: the file `b` has an exact header and the size its records
      call for, at most 4 MiB; the newest record is there; and it loads as the longest suffix of
      the old records plus the new one that satisfies both limits — if and only if a sequence
      number was left. */
  ghost predicate Appended(b: seq<byte>, h: History, r: Record)
  {
    var kept := Compacted(h.records + [r]);
    && HEADER_LEN <= |b| == EstimatedSize(kept) <= MAX_HISTORY_BYTES
    && b[..HEADER_LEN] == Header(Saturating(h.next + 1), |kept|)
    && kept != [] && kept[|kept| - 1] == r
    && Load(b) == if SequenceLeft(h) then Ok(History(Saturating(h.next + 1), kept)) else Err(BadSequence)
  }

  /** The rewriting branch, on any records it may be given. */
  lemma RewriteAppends(h: History, r: Record)
    requires ValidHistory(h) && ValidRecord(r) && r.sequence == h.next
    ensures Appended(Print(History(Saturating(h.next + 1), Compacted(h.records + [r]))), h, r)
  {
    hide ValidHistory, ValidRecord, Compacted, AllValid, EncodeAll, BodySize, Increasing, SequenceLeft, Load, Header,
      Print;
    KeptFacts(h, r);
    var kept := Compacted(h.records + [r]);
    RewriteShape(History(Saturating(h.next + 1), kept), r);
    PrintShape(Saturating(h.next + 1), kept);
  }

  /** The in-place branch. */
  lemma InPlaceAppends(b: seq<byte>, r: Record)
    requires b != [] && Load(b).Ok? && RoomFor(Load(b).value, r) && ValidRecord(r) && r.sequence == Load(b).value.next
    ensures HEADER_LEN <= |b|
    ensures var h := Load(b).value;
            Appended(InPlace(b, r, |h.records|, 3), h, r)
  {
    LoadedIsValid(b);
    var h := Load(b).value;
    hide ValidHistory, ValidRecord, Load, InPlace, EncodeAll, DecodeAll, Header;
    InPlaceLoads(b, r, 3);
    InPlaceShape(b, r);
    RoomMeansNoLoss(h, r);
    NewestIsNewer(h, r);
    hide BodySize, RecordSize, Compacted;
  }

  lemma RewriteShape(h: History, r: Record)
    requires AllValid(h.records) && Fits(h.records) && h.records != [] && h.records[|h.records| - 1] == r
    requires h.next == Saturating(r.sequence + 1)
    ensures Load(Print(h)) == if Increasing(h.records) then Ok(h) else Err(BadSequence)
  {
    if Increasing(h.records) {
      LoadPrinted(h);
    } else {
      PrintedOutOfOrder(h.next, h.records);
    }
  }

  lemma RoomMeansNoLoss(h: History, r: Record)
    requires RoomFor(h, r)
    ensures Compacted(h.records + [r]) == h.records + [r]
  {
    EncodeAppend(h.records, [r]);
    assert BodySize([r]) == RecordSize(r) + BodySize([]);
  }

  /** On any readable history an admissible command is given the next sequence number, and whichever
      branch is taken the outcome is the same. */
  lemma AppendKeepsTheLongestSuffix(b: seq<byte>, shell: seq<byte>, command: seq<byte>, now: nat)
    requires Load(b).Ok? && Admissible(shell, command) && ValidUtf8(shell) && now < U64
    ensures var h := Load(b).value;
            var (b', answer) := AfterAppend(b, shell, command, now);
            var r := Record(h.next, now, shell, command);
            answer == Ok(r) && Appended(b', h, r)
  {
    LoadedIsValid(b);
    var h := Load(b).value;
    var r := Record(h.next, now, shell, command);
    assert ValidRecord(r);
    if b == [] {
      FirstRecord(h, r);
    }
    hide Appended, Compacted, EncodeAll, DecodeAll, BodySize, ValidUtf8, ValidHistory, InPlace, Print, ValidRecord;
    if b != [] && RoomFor(h, r) {
      InPlaceAppends(b, r);
    } else {
      RewriteAppends(h, r);
    }
  }

  lemma FirstRecord(h: History, r: Record)
    requires ValidHistory(h) && ValidRecord(r) && h.records == []
    ensures Compacted(h.records + [r]) == h.records + [r]
  {
    assert h.records + [r] == [r];
    SmallFits([r]);
    hide ValidRecord;
  }

  lemma PrintShape(next: nat, records: seq<Record>)
    ensures |Print(History(next, records))| == EstimatedSize(records) >= HEADER_LEN
    ensures Print(History(next, records))[..HEADER_LEN] == Header(next, |records|)
  {
    EncodedSize(records);
    hide EncodeAll, BodySize;
  }

  lemma InPlaceShape(b: seq<byte>, r: Record)
    requires b != [] && Load(b).Ok? && RoomFor(Load(b).value, r) && ValidRecord(r)
    ensures var h := Load(b).value;
            var b' := InPlace(b, r, |h.records|, 3);
            && HEADER_LEN <= |b| && |b'| == EstimatedSize(h.records + [r])
            && b'[..HEADER_LEN] == Header(Saturating(r.sequence + 1), |h.records| + 1)
            && b'[HEADER_LEN..] == b[HEADER_LEN..] + EncodeRecord(r)
  {
    LoadedIsValid(b);
    Parts(b);
    var h := Load(b).value;
    InPlaceParts(FromBigEndian(b[8..16]), FromBigEndian(b[16..24]), b[HEADER_LEN..], r, |h.records|, 3);
    EncodedLength(r, U16Bytes(0));
    EncodeAppend(h.records, [r]);
    assert BodySize([r]) == RecordSize(r) + BodySize([]);
    hide Load, InPlace, DecodeAll, EncodeRecord, Header, FromBigEndian;
  }

  /** The fast branch leaves exactly the bytes the slow one would have written, if and only if the
      reserved bytes already in the file were zero, as this code always writes them. */
  lemma FastEqualsSlow(b: seq<byte>, r: Record)
    requires b != [] && Load(b).Ok? && RoomFor(Load(b).value, r) && ValidRecord(r) && r.sequence == Load(b).value.next
    ensures HEADER_LEN <= |b| && DecodeAll(b[HEADER_LEN..]).Ok?
    ensures var h := Load(b).value;
            InPlace(b, r, |h.records|, 3) == Print(History(Saturating(h.next + 1), Compacted(h.records + [r])))
            <==> Canonical(b[HEADER_LEN..])
  {
    hide Load, InPlace, DecodeAll, Canonical, Compacted, BodySize, ValidRecord, ValidHistory, Header, RoomFor,
      EncodeAll, EncodeRecord, Print;
    LoadedIsValid(b);
    var h := Load(b).value;
    InPlaceShape(b, r);
    RoomMeansNoLoss(h, r);
    ReprintIffCanonical(b[HEADER_LEN..]);
    PrintedTail(h, r);
    SameTail(InPlace(b, r, |h.records|, 3), Header(Saturating(h.next + 1), |h.records| + 1),
             b[HEADER_LEN..], EncodeAll(h.records), EncodeRecord(r));
  }

  lemma PrintedTail(h: History, r: Record)
    ensures Print(History(Saturating(h.next + 1), h.records + [r]))
         == Header(Saturating(h.next + 1), |h.records| + 1) + (EncodeAll(h.records) + EncodeRecord(r))
  {
    EncodeAppend(h.records, [r]);
    EncodeOne(r);
    hide EncodeAll, EncodeRecord, Header;
  }

  lemma SameTail(fast: seq<byte>, header: seq<byte>, a: seq<byte>, b: seq<byte>, tail: seq<byte>)
    requires |header| <= |fast| && fast[..|header|] == header && fast[|header|..] == a + tail
    ensures fast == header + (b + tail) <==> a == b
  {
    SplitAt(fast, |header|);
    SamePrefix(header, a, b, tail);
  }

  lemma EncodeOne(r: Record)
    ensures EncodeAll([r]) == EncodeRecord(r)
  {
    assert EncodeRecord(r) + [] == EncodeRecord(r);
  }

  lemma SplitAt(b: seq<byte>, n: nat)
    requires n <= |b|
    ensures b == b[..n] + b[n..]
  {
  }

  lemma SamePrefix(header: seq<byte>, a: seq<byte>, b: seq<byte>, tail: seq<byte>)
    ensures header + (a + tail) == header + (b + tail) <==> a == b
  {
    if header + (a + tail) == header + (b + tail) {
      assert (header + (a + tail))[|header|..] == a + tail && (header + (b + tail))[|header|..] == b + tail;
      assert |a| == |b|;
      assert (a + tail)[..|a|] == a && (b + tail)[..|b|] == b;
    }
  }

  // ---- Crashes -------------------------------------------------------------------------------

  /** Stopping an append once its record is in place: the file loads with the new record included,
      if and only if its header had not been left behind by an earlier crash. */
  lemma CrashToleranceIsOneRecord(b: seq<byte>, r: Record, writes: nat)
    requires b != [] && Load(b).Ok? && 1 <= writes <= 2
    requires var h := Load(b).value; r.sequence == h.next && ValidRecord(r) && RoomFor(h, r) && SequenceLeft(h)
    ensures HEADER_LEN <= |b|
    ensures var h := Load(b).value;
            var b' := InPlace(b, r, |h.records|, writes);
            && (Load(b').Ok? <==> StoredCount(b) == |h.records|)
            && (Load(b').Ok? ==> Load(b').value == History(Saturating(r.sequence + 1), h.records + [r]))
  {
    LoadedIsValid(b);
    var h := Load(b).value;
    NewestIsNewer(h, r);
    InPlaceLoads(b, r, writes);
    CountIsClose(b);
    hide Load, InPlace, ValidHistory, ValidRecord;
  }

  lemma CountIsClose(b: seq<byte>)
    requires b != [] && Load(b).Ok? && HEADER_LEN <= |b|
    ensures StoredCount(b) <= |Load(b).value.records| <= StoredCount(b) + 1
  {
    hide DecodeAll, FromBigEndian;
  }

  /** Two appends in a row, both stopped before the count was written, make the file unreadable:
      the slack of one is exactly enough for one crash. */
  lemma SecondCrashIsFatal(b: seq<byte>, r1: Record, r2: Record, writes1: nat, writes2: nat)
    requires b != [] && Load(b).Ok? && 1 <= writes1 <= 2 && 1 <= writes2 <= 2
    requires var h := Load(b).value;
             && HEADER_LEN <= |b| && StoredCount(b) == |h.records|
             && r1.sequence == h.next && ValidRecord(r1) && RoomFor(h, r1) && SequenceLeft(h)
    requires var h1 := History(Saturating(r1.sequence + 1), Load(b).value.records + [r1]);
             && r2.sequence == h1.next && ValidRecord(r2) && RoomFor(h1, r2) && SequenceLeft(h1)
    ensures var h := Load(b).value;
            var b1 := InPlace(b, r1, |h.records|, writes1);
            && Load(b1).Ok? && HEADER_LEN <= |b1|
            && Load(InPlace(b1, r2, |h.records| + 1, writes2)) == Err(CountMismatch)
  {
    var h := Load(b).value;
    var b1 := InPlace(b, r1, |h.records|, writes1);
    CrashToleranceIsOneRecord(b, r1, writes1);
    LoadedIsValid(b1);
    CountUnwritten(b, r1, |h.records|, writes1);
    hide Load, InPlace, ValidRecord, ValidHistory, SequenceLeft;
    InPlaceLoads(b1, r2, writes2);
  }

  function Shortest(sequence: nat): Record
  {
    Record(sequence, 0, [0x73], [0x61])
  }

  lemma SmallHistories()
    ensures ValidHistory(History(2, [Shortest(1)]))
    ensures RoomFor(History(2, [Shortest(1)]), Shortest(2)) && SequenceLeft(History(2, [Shortest(1)]))
    ensures RoomFor(History(3, [Shortest(1), Shortest(2)]), Shortest(3))
            && SequenceLeft(History(3, [Shortest(1), Shortest(2)]))
  {
    OneCommand(1);
    OneCommand(2);
    OneCommand(3);
    assert BodySize([Shortest(1)]) == 26 && BodySize([Shortest(1), Shortest(2)]) == 52 by {
      assert [Shortest(1), Shortest(2)][1..] == [Shortest(2)] && [Shortest(1)][1..] == [] && [Shortest(2)][1..] == [];
    }
    hide BodySize, ValidRecord, RecordSize;
  }

  /** Nothing more is needed than one command and then two crashes. */
  lemma SecondCrashHappens()
    ensures var b := Print(History(2, [Shortest(1)]));
            && Load(b) == Ok(History(2, [Shortest(1)])) && HEADER_LEN <= |b|
                 && HEADER_LEN <= |InPlace(b, Shortest(2), 1, 1)|
            && Load(InPlace(b, Shortest(2), 1, 1)) == Ok(History(3, [Shortest(1), Shortest(2)]))
            && Load(InPlace(InPlace(b, Shortest(2), 1, 1), Shortest(3), 2, 1)) == Err(CountMismatch)
  {
    OneCommand(2);
    OneCommand(3);
    PrintedCount(2, [Shortest(1)]);
    hide *;
    var b := Print(History(2, [Shortest(1)]));
    SmallHistories();
    LoadPrinted(History(2, [Shortest(1)]));
    Sequences();
    assert [Shortest(1)] + [Shortest(2)] == [Shortest(1), Shortest(2)];
    CrashToleranceIsOneRecord(b, Shortest(2), 1);
    SecondCrashIsFatal(b, Shortest(2), Shortest(3), 1, 1);
  }

  lemma Sequences()
    ensures Shortest(2).sequence == 2 && Shortest(3).sequence == 3 && Saturating(3) == 3
  {
  }

  lemma OneCommand(sequence: nat)
    requires sequence < U64
    ensures ValidRecord(Shortest(sequence)) && RecordSize(Shortest(sequence)) == 26
  {
  }

  lemma PrintedCount(next: nat, records: seq<Record>)
    requires next < U64 && |records| < U64
    ensures Print(History(next, records)) != []
    ensures HEADER_LEN <= |Print(History(next, records))| && StoredCount(Print(History(next, records))) == |records|
  {
    HeaderFields(next, |records|, EncodeAll(records));
    hide EncodeAll, FromBigEndian, BigEndian;
  }

  /** After the last 64-bit sequence number the next append leaves a file nobody can read. */
  lemma LastSequenceIsFatal()
    ensures var r := Record(U64 - 1, 0, [0x73], [0x61]);
            var b := Print(History(U64 - 1, [r]));
            && Load(b) == Ok(History(U64 - 1, [r]))
            && AfterAppend(b, [0x73], [0x61], 0).1 == Ok(r)
            && Load(AfterAppend(b, [0x73], [0x61], 0).0) == Err(BadSequence)
  {
    var r := Record(U64 - 1, 0, [0x73], [0x61]);
    OneCommand(U64 - 1);
    assert BodySize([r]) == 26 by { assert [r][1..] == []; }
    assert AllValid([r]) && Increasing([r]) && ParsedNext([r]) == U64 - 1;
    hide BodySize, Load, InPlace, AllValid, Increasing, ParsedNext, Print, AfterAppend;
    LoadPrinted(History(U64 - 1, [r]));
    assert !SequenceLeft(History(U64 - 1, [r]));
    hide ValidRecord;
    AppendKeepsTheLongestSuffix(Print(History(U64 - 1, [r])), [0x73], [0x61], 0);
  }

  lemma CountUnwritten(b: seq<byte>, r: Record, count: nat, writes: nat)
    requires HEADER_LEN <= |b| && writes <= 2
    ensures HEADER_LEN <= |InPlace(b, r, count, writes)|
    ensures StoredCount(InPlace(b, r, count, writes)) == StoredCount(b)
  {
    hide EncodeRecord, FromBigEndian, BigEndian;
    assert InPlace(b, r, count, writes)[16..24] == b[16..24];
  }

  // ---- Whole histories -----------------------------------------------------------------------

  /** An append fails exactly on a command that cannot be recorded or a file that cannot be read, and
      then the file is as it was. */
  lemma FailedAppendsChangeNothing(b: seq<byte>, shell: seq<byte>, command: seq<byte>, now: nat)
    ensures var (b', answer) := AfterAppend(b, shell, command, now);
            var recordable := 0 < |shell| < 65536 && 0 < |command| <= 65536;
            && (answer.Err? <==> !recordable || Load(b).Err?)
            && (answer.Err? ==> b' == b && answer == if recordable then Err(Load(b).error) else Err(BadRecord))
  {
    hide Load, Compacted, EncodeAll;
  }

  /** With room for one more record, a file that has any is never rewritten: the record goes behind its
      end, and nothing but the two numbers in the header changes. */
  lemma RoomMeansInPlace(b: seq<byte>, shell: seq<byte>, command: seq<byte>, now: nat)
    requires Load(b).Ok? && Admissible(shell, command) && b != []
    requires |Load(b).value.records| < 10000
    requires EstimatedSize(Load(b).value.records) + 24 + |shell| + |command| <= 4194304
    ensures var (b', answer) := AfterAppend(b, shell, command, now);
            && answer.Ok? && |b| >= 24 && |b'| == |b| + 24 + |shell| + |command|
            && b'[..8] == b[..8] && b'[24..|b|] == b[24..] && b'[|b|..] == EncodeRecord(answer.value)
  {
    hide Load, AfterAppend, EncodeWith, BigEndian, EncodeRecord, EstimatedSize, InPlace, Overwrite;
    var h := Load(b).value;
    var r := Record(h.next, now, shell, command);
    FitsInPlace(b, shell, command, now);
    InPlaceKeeps(b, r, |h.records|);
  }

  lemma FitsInPlace(b: seq<byte>, shell: seq<byte>, command: seq<byte>, now: nat)
    requires Load(b).Ok? && Admissible(shell, command) && b != []
    requires |Load(b).value.records| < 10000
    requires EstimatedSize(Load(b).value.records) + 24 + |shell| + |command| <= 4194304
    ensures var h := Load(b).value;
            var r := Record(h.next, now, shell, command);
            |b| >= HEADER_LEN && AfterAppend(b, shell, command, now) == (InPlace(b, r, |h.records|, 3), Ok(r))
  {
    assert |b| >= HEADER_LEN by { hide DecodeAll, FromBigEndian, EstimatedSize; }
    hide Load, Compacted, EncodeAll, InPlace, EstimatedSize;
  }

  lemma InPlaceKeeps(b: seq<byte>, r: Record, count: nat)
    requires |b| >= HEADER_LEN
    ensures var b' := InPlace(b, r, count, 3);
            && |b'| == |b| + 24 + |r.shell| + |r.command|
            && b'[..8] == b[..8] && b'[24..|b|] == b[24..] && b'[|b|..] == EncodeRecord(r)
  {
    EncodedLength(r, U16Bytes(0));
    hide EncodeWith, BigEndian, Overwrite;
    var b1 := b + EncodeRecord(r);
    var next := U64Bytes(Saturating(r.sequence + 1));
    OverwriteKeeps(b1, 8, next, |b|);
    OverwriteKeeps(Overwrite(b1, 8, next), 16, U64Bytes(Saturating(count + 1)), |b|);
  }

  lemma OverwriteKeeps(b: seq<byte>, at: nat, data: seq<byte>, end: nat)
    requires 8 <= at && |data| == 8 && at + 8 <= 24 <= end <= |b|
    ensures var b' := Overwrite(b, at, data);
            |b'| == |b| && b'[..8] == b[..8] && b'[24..end] == b[24..end] && b'[end..] == b[end..]
  {
  }

  datatype Entry = Entry(shell: seq<byte>, command: seq<byte>, at: nat)

  ghost predicate ValidEntries(es: seq<Entry>)
  {
    forall i :: 0 <= i < |es| ==> Admissible(es[i].shell, es[i].command) && ValidUtf8(es[i].shell) && es[i].at < U64
  }

  /** Every command ever appended, numbered from one. */
  function Numbered(es: seq<Entry>): (records: seq<Record>)
    ensures |records| == |es|
  {
    if es == [] then []
    else
      var last := es[|es| - 1];
      Numbered(es[..|es| - 1]) + [Record(|es|, last.at, last.shell, last.command)]
  }

  function AppendAll(es: seq<Entry>): seq<byte>
  {
    if es == [] then []
    else
      var last := es[|es| - 1];
      AfterAppend(AppendAll(es[..|es| - 1]), last.shell, last.command, last.at).0
  }

  /** From an empty file, after any number of appends: the commands are numbered from one in the
      order they came, and the file holds exactly the longest run of the newest ones that fits. */
  lemma {:induction false} FileHoldsTheNewestCommands(es: seq<Entry>)
    requires ValidEntries(es) && |es| < U64 - 1
    ensures Load(AppendAll(es)) == Ok(History(|es| + 1, Compacted(Numbered(es))))
    decreases |es|
  {
    if es == [] {
      assert Compacted([]) == [];
    } else {
      var init := es[..|es| - 1];
      var last := es[|es| - 1];
      assert ValidEntries(init);
      FileHoldsTheNewestCommands(init);
      var b := AppendAll(init);
      var r := Record(|es|, last.at, last.shell, last.command);
      hide Load, AfterAppend, Admissible, ValidUtf8, Compacted;
      AppendKeepsTheLongestSuffix(b, last.shell, last.command, last.at);
      assert Appended(AppendAll(es), Load(b).value, r);
      CompactAgain(Numbered(init), r);
      NumbersLeft(init);
    }
  }

  /** Fast branch or slow, the bytes on disk are always those of a full rewrite. */
  lemma {:induction false} FileIsAlwaysARewrite(es: seq<Entry>)
    requires ValidEntries(es) && |es| < U64 - 1 && es != []
    ensures AppendAll(es) == Print(History(|es| + 1, Compacted(Numbered(es))))
    decreases |es|
  {
    var init := es[..|es| - 1];
    var last := es[|es| - 1];
    assert ValidEntries(init);
    FileHoldsTheNewestCommands(init);
    var b := AppendAll(init);
    var h := History(|es|, Compacted(Numbered(init)));
    var r := Record(|es|, last.at, last.shell, last.command);
    assert ValidRecord(r);
    hide Load, Print, Compacted, InPlace, DecodeAll, EncodeAll, ValidRecord, ValidUtf8, Numbered, Canonical;
    CompactAgain(Numbered(init), r);
    NumberedSnoc(es);
    if init == [] {
      NoneNumbered();
      LoadedIsValid(b);
      FirstRecord(h, r);
    } else {
      FileIsAlwaysARewrite(init);
      if RoomFor(h, r) {
        FastEqualsSlow(b, r);
        PrintedIsCanonical(b, h);
      }
    }
  }

  lemma NumberedSnoc(es: seq<Entry>)
    requires es != []
    ensures var last := es[|es| - 1];
            Numbered(es) == Numbered(es[..|es| - 1]) + [Record(|es|, last.at, last.shell, last.command)]
  {
  }

  lemma NoneNumbered()
    ensures Numbered([]) == [] && Compacted([]) == []
  {
  }

  lemma PrintedIsCanonical(b: seq<byte>, h: History)
    requires b == Print(h) && b != [] && Load(b) == Ok(h)
    ensures HEADER_LEN <= |b| && DecodeAll(b[HEADER_LEN..]).Ok? && Canonical(b[HEADER_LEN..])
  {
    LoadedIsValid(b);
    ReprintIffCanonical(b[HEADER_LEN..]);
    hide Load, DecodeAll, EncodeAll, Canonical, Header;
    assert b[HEADER_LEN..] == EncodeAll(h.records);
  }

  lemma {:induction false} NumbersLeft(es: seq<Entry>)
    requires |es| < U64 - 1
    ensures SequenceLeft(History(|es| + 1, Compacted(Numbered(es))))
  {
    var all := Numbered(es);
    CompactedIsLongest(all);
    var kept := Compacted(all);
    hide Compacted;
    if kept != [] {
      assert kept[|kept| - 1] == all[|all| - 1];
    }
  }

  // ---- The file object --------------------------------------------------------------------------

  class HistoryFile {
    var bytes: seq<byte>

    constructor ()
      ensures bytes == []
    {
      bytes := [];
    }

    method WriteAt(at: nat, data: seq<byte>)
      requires at + |data| <= |bytes|
      modifies this
      ensures bytes == Overwrite(old(bytes), at, data)
    {
      bytes := bytes[..at] + data + bytes[at + |data|..];
    }

    /** Record first, then the two header fields: every moment in between is one of the crash
        states above. */
    method AppendRecord(r: Record, count: nat)
      requires HEADER_LEN <= |bytes|
      modifies this
      ensures bytes == InPlace(old(bytes), r, count, 3)
    {
      bytes := bytes + EncodeRecord(r);
      assert bytes == InPlace(old(bytes), r, count, 1);
      WriteAt(8, U64Bytes(Saturating(r.sequence + 1)));
      assert bytes == InPlace(old(bytes), r, count, 2);
      WriteAt(16, U64Bytes(Saturating(count + 1)));
    }

    method Append(shell: seq<byte>, command: seq<byte>, now: nat) returns (answer: Result<Record>)
      modifies this
      ensures (bytes, answer) == AfterAppend(old(bytes), shell, command, now)
    {
      hide InPlace, DecodeAll, Print;
      if !Admissible(shell, command) {
        return Err(BadRecord);
      }
      var loaded := LoadState(bytes);
      if loaded.Err? {
        return Err(loaded.error);
      }
      var h := loaded.value;
      var r := Record(h.next, now, shell, command);
      if bytes == [] {
        bytes := WriteState(History(Saturating(r.sequence + 1), h.records + [r]));
        return Ok(r);
      }
      if |h.records| < MAX_HISTORY_RECORDS
        && EstimatedSize(h.records) + (4 + RECORD_META_LEN + |shell| + |command|) <= MAX_HISTORY_BYTES {
        AppendRecord(r, |h.records|);
        return Ok(r);
      }
      var kept := Compact(h.records + [r]);
      bytes := WriteState(History(Saturating(h.next + 1), kept));
      answer := Ok(r);
    }
  }
}
