/** The binary command-history log: records, header, parser and printer
    (crates/persist-core/src/command_history_format.rs). */
module HistoryFormat {
  import opened Bytes
  import opened Text

  const MAGIC: seq<byte> := [0x50, 0x53, 0x48, 0x49, 0x53, 0x54, 0x30, 0x31]
  const HEADER_LEN: nat := 24
  const RECORD_META_LEN: nat := 20
  const MAX_COMMAND_BYTES: nat := 64 * 1024
  const MAX_HISTORY_BYTES: nat := 4 * 1024 * 1024
  const MAX_HISTORY_RECORDS: nat := 10_000

  datatype Record = Record(sequence: nat, completedAt: nat, shell: seq<byte>, command: seq<byte>)

  datatype History = History(next: nat, records: seq<Record>)

  datatype Result<+T> = Ok(value: T) | Err(error: HistoryError)

  datatype HistoryError =
    | TooLarge | BadHeader | Truncated | BadSize | BadShellSize | NotUtf8 | BadRecord | CountMismatch | BadSequence

  // ---- One record --------------------------------------------------------------------

  /** The limits checked before writing and after reading. */
  predicate Admissible(shell: seq<byte>, command: seq<byte>)
  {
    && 0 < |shell| < U16
    && 0 < |command| <= MAX_COMMAND_BYTES
  }

  predicate ValidRecord(r: Record)
  {
    && r.sequence < U64 && r.completedAt < U64
    && Admissible(r.shell, r.command) && ValidUtf8(r.shell)
  }

  function BodyLength(r: Record): nat
  {
    RECORD_META_LEN + |r.shell| + |r.command|
  }

  function RecordSize(r: Record): nat
  {
    4 + BodyLength(r)
  }

  /** `reserved` is always zero when written and never looked at when read. */
  function EncodeWith(r: Record, reserved: seq<byte>): seq<byte>
  {
    U32Bytes(BodyLength(r)) + U64Bytes(r.sequence) + U64Bytes(r.completedAt) + U16Bytes(|r.shell|) + reserved
    + r.shell + r.command
  }

  function EncodeRecord(r: Record): seq<byte>
  {
    EncodeWith(r, U16Bytes(0))
  }

  function DecodeRecord(b: seq<byte>): (res: Result<(Record, nat)>)
    ensures res.Ok? ==> 0 < res.value.1 <= |b|
  {
    if |b| < 4 then Err(Truncated)
    else
      var bodyLen := FromBigEndian(b[..4]);
      if bodyLen < RECORD_META_LEN || bodyLen > RECORD_META_LEN + (U16 - 1) + MAX_COMMAND_BYTES then Err(BadSize)
      else if |b| < 4 + bodyLen then Err(Truncated)
      else
        var body := b[4..4 + bodyLen];
        var shellLen := FromBigEndian(body[16..18]);
        if RECORD_META_LEN + shellLen > |body| then Err(BadShellSize)
        else
          var shell := body[RECORD_META_LEN..RECORD_META_LEN + shellLen];
          var command := body[RECORD_META_LEN + shellLen..];
          if !ValidUtf8(shell) then Err(NotUtf8)
          else if !Admissible(shell, command) then Err(BadRecord)
          else Ok((Record(FromBigEndian(body[..8]), FromBigEndian(body[8..16]), shell, command), 4 + bodyLen))
  }

  lemma EncodedLength(r: Record, reserved: seq<byte>)
    requires |reserved| == 2
    ensures |EncodeWith(r, reserved)| == RecordSize(r)
  {
  }

  /** Where the fields of an encoded record lie. */
  lemma EncodedFields(r: Record, reserved: seq<byte>, rest: seq<byte>)
    requires |reserved| == 2
    ensures var b := EncodeWith(r, reserved) + rest;
            var n := BodyLength(r);
            && |b| == 4 + n + |rest|
            && b[..4] == U32Bytes(n)
            && var body := b[4..4 + n];
               && body[..8] == U64Bytes(r.sequence)
               && body[8..16] == U64Bytes(r.completedAt)
               && body[16..18] == U16Bytes(|r.shell|)
               && body[18..20] == reserved
               && body[20..20 + |r.shell|] == r.shell
               && body[20 + |r.shell|..] == r.command
  {
    var head := U32Bytes(BodyLength(r));
    var meta := U64Bytes(r.sequence) + U64Bytes(r.completedAt) + U16Bytes(|r.shell|) + reserved;
    var body := meta + r.shell + r.command;
    var b := EncodeWith(r, reserved) + rest;
    MetaFields(r, reserved);
    assert EncodeWith(r, reserved) == head + body;
    hide BigEndian, EncodeWith;
    HeadFields(head, body, rest);
    BodyFields(meta, r.shell, r.command);
  }

  lemma HeadFields(head: seq<byte>, body: seq<byte>, rest: seq<byte>)
    requires |head| == 4
    ensures var b := head + body + rest;
            |b| == 4 + |body| + |rest| && b[..4] == head && b[4..4 + |body|] == body
  {
  }

  lemma BodyFields(meta: seq<byte>, shell: seq<byte>, command: seq<byte>)
    requires |meta| == RECORD_META_LEN
    ensures var body := meta + shell + command;
            && body[..8] == meta[..8] && body[8..16] == meta[8..16] && body[16..18] == meta[16..18]
                 && body[18..20] == meta[18..20]
            && body[20..20 + |shell|] == shell && body[20 + |shell|..] == command
  {
  }

  lemma MetaFields(r: Record, reserved: seq<byte>)
    requires |reserved| == 2
    ensures var meta := U64Bytes(r.sequence) + U64Bytes(r.completedAt) + U16Bytes(|r.shell|) + reserved;
            && |meta| == 20
            && meta[..8] == U64Bytes(r.sequence) && meta[8..16] == U64Bytes(r.completedAt)
            && meta[16..18] == U16Bytes(|r.shell|) && meta[18..20] == reserved
  {
  }

  /** The printer's output is read back exactly, whatever follows it and whatever the reserved
      bytes hold. */
  lemma DecodeEncoded(r: Record, reserved: seq<byte>, rest: seq<byte>)
    requires ValidRecord(r) && |reserved| == 2
    ensures DecodeRecord(EncodeWith(r, reserved) + rest) == Ok((r, RecordSize(r)))
  {
    hide EncodeWith, ValidUtf8;
    EncodedFields(r, reserved, rest);
    U32RoundTrip(BodyLength(r));
    U64RoundTrip(r.sequence);
    U64RoundTrip(r.completedAt);
    U16RoundTrip(|r.shell|);
  }

  lemma BodyParts(body: seq<byte>, shellLen: nat)
    requires RECORD_META_LEN + shellLen <= |body|
    ensures body == body[..8] + body[8..16] + body[16..18] + body[18..20]
                    + body[20..20 + shellLen] + body[20 + shellLen..]
  {
  }

  lemma Regroup(a: seq<byte>, b: seq<byte>, c: seq<byte>, d: seq<byte>, e: seq<byte>, f: seq<byte>, g: seq<byte>)
    ensures a + (b + c + d + e + f + g) == a + b + c + d + e + f + g
  {
    Associate(a, b + c + d + e + f, g);
    Associate(a, b + c + d + e, f);
    Associate(a, b + c + d, e);
    Associate(a, b + c, d);
    Associate(a, b, c);
  }

  lemma HeadAndBody(b: seq<byte>, n: nat)
    requires 24 <= n <= |b|
    ensures b[..n] == b[..4] + b[4..n] && b[4..n][18..20] == b[22..24]
  {
    SliceOfSlice(b, 4, n, 18, 20);
  }

  /** Everything the parser accepts is the printer's output, up to the reserved bytes. */
  lemma DecodedIsEncoded(b: seq<byte>)
    requires DecodeRecord(b).Ok?
    ensures var (r, n) := DecodeRecord(b).value;
            && ValidRecord(r) && n == RecordSize(r) && 24 <= n <= |b|
            && b[..n] == EncodeWith(r, b[22..24])
  {
    hide ValidUtf8;
    var (r, n) := DecodeRecord(b).value;
    var body := b[4..n];
    Widths();
    BigEndianInverse(b[..4]);
    BigEndianInverse(body[..8]);
    BigEndianInverse(body[8..16]);
    BigEndianInverse(body[16..18]);
    hide BigEndian, FromBigEndian, Pow256;
    BodyParts(body, |r.shell|);
    HeadAndBody(b, n);
    Regroup(b[..4], body[..8], body[8..16], body[16..18], body[18..20], r.shell, r.command);
    assert EncodeWith(r, b[22..24])
           == b[..4] + body[..8] + body[8..16] + body[16..18] + body[18..20] + r.shell + r.command;
  }

  // ---- A run of records ------------------------------------------------------------------

  function EncodeAll(records: seq<Record>): seq<byte>
  {
    if records == [] then [] else EncodeRecord(records[0]) + EncodeAll(records[1..])
  }

  function DecodeAll(b: seq<byte>): Result<seq<Record>>
    decreases |b|
  {
    if b == [] then Ok([])
    else match DecodeRecord(b)
      case Err(e) => Err(e)
      case Ok((r, n)) =>
        match DecodeAll(b[n..])
        case Err(e) => Err(e)
        case Ok(rest) => Ok([r] + rest)
  }

  function BodySize(records: seq<Record>): nat
  {
    if records == [] then 0 else RecordSize(records[0]) + BodySize(records[1..])
  }

  function EstimatedSize(records: seq<Record>): nat
  {
    HEADER_LEN + BodySize(records)
  }

  ghost predicate AllValid(records: seq<Record>)
  {
    forall i :: 0 <= i < |records| ==> ValidRecord(records[i])
  }

  lemma {:induction false} EncodedSize(records: seq<Record>)
    ensures |EncodeAll(records)| == BodySize(records)
  {
    if records != [] {
      EncodedLength(records[0], U16Bytes(0));
      EncodedSize(records[1..]);
    }
  }

  lemma {:induction false} EncodeAppend(a: seq<Record>, b: seq<Record>)
    ensures EncodeAll(a + b) == EncodeAll(a) + EncodeAll(b)
    ensures BodySize(a + b) == BodySize(a) + BodySize(b)
  {
    if a == [] {
      assert a + b == b;
      assert [] + EncodeAll(b) == EncodeAll(b);
    } else {
      assert (a + b)[1..] == a[1..] + b;
      EncodeAppend(a[1..], b);
      Associate(EncodeRecord(a[0]), EncodeAll(a[1..]), EncodeAll(b));
      hide EncodeRecord, RecordSize;
    }
  }

  lemma {:induction false} DecodeEncodedAll(records: seq<Record>)
    requires AllValid(records)
    ensures DecodeAll(EncodeAll(records)) == Ok(records)
  {
    if records != [] {
      DecodeEncoded(records[0], U16Bytes(0), EncodeAll(records[1..]));
      EncodedLength(records[0], U16Bytes(0));
      DecodeEncodedAll(records[1..]);
      hide DecodeRecord, EncodeWith, ValidRecord;
      var b := EncodeAll(records);
      assert b[RecordSize(records[0])..] == EncodeAll(records[1..]);
      assert [records[0]] + records[1..] == records;
    }
  }

  /** Reading is compositional: more records behind a well-formed run are read after it. */
  lemma {:induction false} DecodeAppend(b: seq<byte>, more: seq<byte>)
    requires DecodeAll(b).Ok?
    ensures DecodeAll(b + more) == match DecodeAll(more)
                                   case Err(e) => Err(e)
                                   case Ok(later) => Ok(DecodeAll(b).value + later)
    decreases |b|
  {
    if b == [] {
      assert b + more == more;
      if DecodeAll(more).Ok? {
        assert [] + DecodeAll(more).value == DecodeAll(more).value;
      }
    } else {
      var (r, n) := DecodeRecord(b).value;
      DecodePrefix(b, more);
      DecodeAppend(b[n..], more);
      assert (b + more)[n..] == b[n..] + more;
      hide DecodeRecord;
      if DecodeAll(more).Ok? {
        Associate([r], DecodeAll(b[n..]).value, DecodeAll(more).value);
      }
    }
  }

  lemma DecodePrefix(b: seq<byte>, more: seq<byte>)
    requires DecodeRecord(b).Ok?
    ensures DecodeRecord(b + more) == DecodeRecord(b)
  {
    DecodedIsEncoded(b);
    var (r, n) := DecodeRecord(b).value;
    assert b + more == b[..n] + (b[n..] + more);
    DecodeEncoded(r, b[22..24], b[n..] + more);
    hide DecodeRecord, EncodeWith, ValidUtf8;
  }

  /** What the parser accepts has the size the records call for, and records within limits. */
  lemma {:induction false} DecodedSize(b: seq<byte>)
    requires DecodeAll(b).Ok?
    ensures |b| == BodySize(DecodeAll(b).value) && AllValid(DecodeAll(b).value)
    decreases |b|
  {
    if b != [] {
      var (r, n) := DecodeRecord(b).value;
      DecodedIsEncoded(b);
      DecodedSize(b[n..]);
      hide DecodeRecord, ValidRecord;
    }
  }

  /** Whether the two reserved bytes of every record are zero. */
  predicate Canonical(b: seq<byte>)
    requires DecodeAll(b).Ok?
    decreases |b|
  {
    b == [] || (var n := DecodeRecord(b).value.1;
                n >= 24 && b[22..24] == [0, 0] && Canonical(b[n..]))
  }

  /** Printing what was read gives the same bytes back exactly for canonical files. */
  lemma {:induction false} ReprintIffCanonical(b: seq<byte>)
    requires DecodeAll(b).Ok?
    ensures EncodeAll(DecodeAll(b).value) == b <==> Canonical(b)
    decreases |b|
  {
    if b != [] {
      var (r, n) := DecodeRecord(b).value;
      DecodedIsEncoded(b);
      ReprintIffCanonical(b[n..]);
      EncodedFields(r, U16Bytes(0), []);
      EncodedFields(r, b[22..24], []);
      EncodedLength(r, U16Bytes(0));
      ZeroBytes();
      assert EncodeRecord(r) + [] == EncodeRecord(r) && EncodeWith(r, b[22..24]) + [] == EncodeWith(r, b[22..24]);
      hide DecodeRecord, EncodeWith, ValidRecord, BigEndian;
      ReprintOne(r, n, b);
    }
  }

  lemma ReprintOne(r: Record, n: nat, b: seq<byte>)
    requires DecodeAll(b).Ok? && b != [] && DecodeRecord(b).Ok? && DecodeRecord(b).value == (r, n)
    requires 24 <= n <= |b| && b[..n] == EncodeWith(r, b[22..24]) && |EncodeRecord(r)| == n
    requires EncodeWith(r, U16Bytes(0))[4..n][18..20] == [0, 0]
    requires EncodeAll(DecodeAll(b[n..]).value) == b[n..] <==> Canonical(b[n..])
    ensures EncodeAll(DecodeAll(b).value) == b <==> Canonical(b)
  {
    hide DecodeRecord, EncodeWith, ValidRecord, BigEndian;
    var rest := DecodeAll(b[n..]).value;
    assert DecodeAll(b).value == [r] + rest && ([r] + rest)[1..] == rest;
    var printed := EncodeRecord(r) + EncodeAll(rest);
    assert EncodeAll(DecodeAll(b).value) == printed;
    assert printed[..n] == EncodeRecord(r) && printed[n..] == EncodeAll(rest);
    ZeroBytes();
    assert b[..n][4..n] == b[4..n];
    SliceOfSlice(b, 4, n, 18, 20);
    if b[22..24] == [0, 0] {
      assert b == b[..n] + b[n..];
    }
  }

  lemma ZeroBytes()
    ensures U16Bytes(0) == [0, 0]
  {
    assert BigEndian(0, 1) == [0];
  }

  // ---- The whole file -----------------------------------------------------------------------

  function Header(next: nat, count: nat): (h: seq<byte>)
    ensures |h| == HEADER_LEN
  {
    MAGIC + U64Bytes(next) + U64Bytes(count)
  }

  predicate Increasing(records: seq<Record>)
  {
    forall i :: 0 < i < |records| ==> records[i - 1].sequence < records[i].sequence
  }

  function ParsedNext(records: seq<Record>): nat
  {
    if records == [] then 1 else Saturating(records[|records| - 1].sequence + 1)
  }

  /** The stored count may lag by one: a record whose header update never happened. */
  function Validate(storedCount: nat, records: seq<Record>): Option<HistoryError>
  {
    if storedCount > |records| || |records| - storedCount > 1 then Some(CountMismatch)
    else if !Increasing(records) then Some(BadSequence)
    else None
  }

  function Load(b: seq<byte>): Result<History>
  {
    if |b| > MAX_HISTORY_BYTES then Err(TooLarge)
    else if b == [] then Ok(History(1, []))
    else if |b| < HEADER_LEN || b[..8] != MAGIC then Err(BadHeader)
    else match DecodeAll(b[HEADER_LEN..])
      case Err(e) => Err(e)
      case Ok(records) =>
        var problem := Validate(FromBigEndian(b[16..24]), records);
        if problem.Some? then Err(problem.value)
        else Ok(History(Max(FromBigEndian(b[8..16]), ParsedNext(records)), records))
  }

  function Print(h: History): seq<byte>
  {
    Header(h.next, |h.records|) + EncodeAll(h.records)
  }

  lemma HeaderFields(next: nat, count: nat, body: seq<byte>)
    requires next < U64 && count < U64
    ensures var b := Header(next, count) + body;
            && b[..8] == MAGIC && b[8..16] == U64Bytes(next) && b[16..24] == U64Bytes(count) && b[24..] == body
            && FromBigEndian(b[8..16]) == next && FromBigEndian(b[16..24]) == count
  {
    U64RoundTrip(next);
    U64RoundTrip(count);
    hide BigEndian, FromBigEndian;
    var b := Header(next, count) + body;
    assert b == MAGIC + (U64Bytes(next) + (U64Bytes(count) + body));
  }

  /** What loading makes of any header in front of a readable body. */
  lemma LoadOf(next: nat, count: nat, body: seq<byte>)
    requires next < U64 && count < U64 && DecodeAll(body).Ok?
    requires HEADER_LEN + |body| <= MAX_HISTORY_BYTES
    ensures var records := DecodeAll(body).value;
            var problem := Validate(count, records);
            Load(Header(next, count) + body)
            == if problem.Some? then Err(problem.value) else Ok(History(Max(next, ParsedNext(records)), records))
  {
    HeaderFields(next, count, body);
    hide DecodeAll, Validate, ParsedNext, Header, FromBigEndian;
  }

  ghost predicate ValidHistory(h: History)
  {
    && AllValid(h.records) && Increasing(h.records)
    && ParsedNext(h.records) <= h.next < U64
    && EstimatedSize(h.records) <= MAX_HISTORY_BYTES
    && |h.records| <= MAX_HISTORY_BYTES
  }

  /** A printed history is read back as it was. */
  lemma LoadPrinted(h: History)
    requires ValidHistory(h)
    ensures Load(Print(h)) == Ok(h) && |Print(h)| == EstimatedSize(h.records)
  {
    EncodedSize(h.records);
    DecodeEncodedAll(h.records);
    hide EncodeAll, DecodeAll, BodySize, ValidRecord;
    LoadOf(h.next, |h.records|, EncodeAll(h.records));
  }

  /** Whatever loads is within limits and has the size its records call for. */
  lemma LoadedIsValid(b: seq<byte>)
    requires Load(b).Ok?
    ensures var h := Load(b).value;
            && ValidHistory(h)
            && (b != [] ==> HEADER_LEN <= |b| <= MAX_HISTORY_BYTES && |b| == EstimatedSize(h.records)
                            && DecodeAll(b[HEADER_LEN..]) == Ok(h.records))
  {
    var h := Load(b).value;
    if b != [] {
      DecodedSize(b[HEADER_LEN..]);
      Widths();
      BigEndianInverse(b[8..16]);
      hide DecodeAll, FromBigEndian, BigEndian, Pow256;
      ManyNeedRoom(h.records);
    }
  }

  lemma {:induction false} ManyNeedRoom(records: seq<Record>)
    ensures |records| <= BodySize(records)
  {
    if records != [] {
      ManyNeedRoom(records[1..]);
    }
  }

  // ---- The limits ------------------------------------------------------------------------------

  predicate Fits(records: seq<Record>)
  {
    |records| <= MAX_HISTORY_RECORDS && EstimatedSize(records) <= MAX_HISTORY_BYTES
  }

  /** Oldest records are dropped until the rest fits. */
  function Compacted(records: seq<Record>): (kept: seq<Record>)
    ensures Fits(kept)
  {
    if records == [] || Fits(records) then records else Compacted(records[1..])
  }

  lemma {:induction false} SizeOfSuffix(records: seq<Record>, k: nat)
    requires k <= |records|
    ensures BodySize(records[k..]) <= BodySize(records)
    decreases k
  {
    if k > 0 {
      SizeOfSuffix(records[1..], k - 1);
      assert records[1..][k - 1..] == records[k..];
    } else {
      assert records[0..] == records;
    }
  }

  /** Exactly the longest suffix that satisfies both limits. */
  lemma {:induction false} CompactedIsLongest(records: seq<Record>)
    ensures IsSuffix(Compacted(records), records)
    ensures forall k :: 0 <= k <= |records| && Fits(records[k..]) ==> |records| - k <= |Compacted(records)|
    decreases |records|
  {
    if records == [] || Fits(records) {
    } else {
      hide Fits;
      CompactedIsLongest(records[1..]);
      assert records[0..] == records;
      forall k | 0 <= k <= |records| && Fits(records[k..]) ensures |records| - k <= |Compacted(records)| {
        assert k > 0;
        assert records[1..][k - 1..] == records[k..];
      }
      SuffixTrans(Compacted(records[1..]), records[1..], records);
    }
  }

  /** Dropping early or late makes no difference to what is finally kept. */
  lemma {:induction false} CompactAgain(records: seq<Record>, x: Record)
    ensures Compacted(Compacted(records) + [x]) == Compacted(records + [x])
    decreases |records|
  {
    if records != [] && !Fits(records) {
      CompactAgain(records[1..], x);
      assert (records + [x])[1..] == records[1..] + [x];
      EncodeAppend(records, [x]);
      assert !Fits(records + [x]);
    }
  }

  /** The newest two records always survive: together they are far below the limits. */
  lemma {:induction false} NewestSurvive(records: seq<Record>)
    requires AllValid(records)
    ensures |Compacted(records)| >= Min(2, |records|)
    decreases |records|
  {
    if |records| <= 2 {
      SmallFits(records);
    } else {
      NewestSurvive(records[1..]);
    }
  }

  lemma SmallFits(records: seq<Record>)
    requires AllValid(records) && |records| <= 2
    ensures Fits(records)
  {
    if |records| == 2 {
      assert BodySize(records) == RecordSize(records[0]) + BodySize(records[1..]);
      assert BodySize(records[1..]) == RecordSize(records[1]) + BodySize(records[1..][1..]);
      assert ValidRecord(records[0]) && ValidRecord(records[1]);
    } else if |records| == 1 {
      assert BodySize(records) == RecordSize(records[0]) + BodySize(records[1..]);
      assert ValidRecord(records[0]);
    }
    hide ValidUtf8;
  }

  // ---- The loops ----------------------------------------------------------------------------------

  /** Parsing with a cursor. */
  method LoadState(bytes: seq<byte>) returns (res: Result<History>)
    ensures res == Load(bytes)
  {
    if |bytes| > MAX_HISTORY_BYTES {
      return Err(TooLarge);
    }
    if bytes == [] {
      return Ok(History(1, []));
    }
    if |bytes| < HEADER_LEN || bytes[..8] != MAGIC {
      return Err(BadHeader);
    }
    var storedNext := FromBigEndian(bytes[8..16]);
    var storedCount := FromBigEndian(bytes[16..24]);
    var records: seq<Record> := [];
    var cursor := HEADER_LEN;
    hide DecodeRecord, FromBigEndian, Validate, ParsedNext;
    StartReading(bytes);
    while cursor < |bytes|
      invariant HEADER_LEN <= cursor <= |bytes|
      invariant Reading(bytes, records, cursor)
      decreases |bytes| - cursor
    {
      var decoded := DecodeRecord(bytes[cursor..]);
      ReadingStep(bytes, records, cursor);
      if decoded.Err? {
        return Err(decoded.error);
      }
      records := records + [decoded.value.0];
      cursor := cursor + decoded.value.1;
    }
    assert bytes[cursor..] == [] && records + [] == records;
    var problem := Validate(storedCount, records);
    if problem.Some? {
      return Err(problem.value);
    }
    res := Ok(History(Max(storedNext, ParsedNext(records)), records));
  }

  /** What has been read so far, and what is still ahead, make up the whole. */
  ghost predicate Reading(bytes: seq<byte>, records: seq<Record>, cursor: nat)
    requires HEADER_LEN <= cursor <= |bytes|
  {
    DecodeAll(bytes[HEADER_LEN..]) == match DecodeAll(bytes[cursor..])
                                      case Err(e) => Err(e)
                                      case Ok(later) => Ok(records + later)
  }

  lemma StartReading(bytes: seq<byte>)
    requires HEADER_LEN <= |bytes|
    ensures Reading(bytes, [], HEADER_LEN)
  {
    var all := DecodeAll(bytes[HEADER_LEN..]);
    if all.Ok? {
      assert [] + all.value == all.value;
    }
  }

  lemma ReadingStep(bytes: seq<byte>, records: seq<Record>, cursor: nat)
    requires HEADER_LEN <= cursor < |bytes| && Reading(bytes, records, cursor)
    ensures var decoded := DecodeRecord(bytes[cursor..]);
            if decoded.Err? then DecodeAll(bytes[HEADER_LEN..]) == Err(decoded.error)
            else cursor + decoded.value.1 <= |bytes|
                 && Reading(bytes, records + [decoded.value.0], cursor + decoded.value.1)
  {
    hide DecodeRecord;
    var decoded := DecodeRecord(bytes[cursor..]);
    if decoded.Ok? {
      var (r, n) := decoded.value;
      assert bytes[cursor..][n..] == bytes[cursor + n..];
      var later := DecodeAll(bytes[cursor + n..]);
      if later.Ok? {
        Associate(records, [r], later.value);
      }
    }
  }

  /** Printing, record by record, behind the header. */
  lemma EncodeNext(records: seq<Record>, i: nat)
    requires i < |records|
    ensures EncodeAll(records[..i + 1]) == EncodeAll(records[..i]) + EncodeRecord(records[i])
  {
    hide EncodeRecord;
    assert records[..i + 1] == records[..i] + [records[i]];
    EncodeAppend(records[..i], [records[i]]);
    assert EncodeAll([records[i]]) == EncodeRecord(records[i]) + [];
  }

  method WriteState(h: History) returns (bytes: seq<byte>)
    ensures bytes == Print(h)
  {
    bytes := MAGIC;
    bytes := bytes + U64Bytes(h.next);
    bytes := bytes + U64Bytes(|h.records|);
    assert h.records[..0] == [];
    assert bytes == Header(h.next, |h.records|) + EncodeAll(h.records[..0]);
    hide EncodeRecord, EncodeAll, Header;
    for i := 0 to |h.records|
      invariant bytes == Header(h.next, |h.records|) + EncodeAll(h.records[..i])
    {
      EncodeNext(h.records, i);
      Associate(Header(h.next, |h.records|), EncodeAll(h.records[..i]), EncodeRecord(h.records[i]));
      bytes := bytes + EncodeRecord(h.records[i]);
    }
    assert h.records[..|h.records|] == h.records;
  }

  /** The first record to keep is found by counting up. */
  method Compact(records: seq<Record>) returns (kept: seq<Record>)
    ensures kept == Compacted(records)
  {
    var first := Max(0, |records| - MAX_HISTORY_RECORDS);
    SkipSurplus(records, first);
    hide Compacted, BodySize;
    while first < |records| && EstimatedSize(records[first..]) > MAX_HISTORY_BYTES
      invariant 0 <= first <= |records| && |records| - first <= MAX_HISTORY_RECORDS
      invariant Compacted(records[first..]) == Compacted(records)
    {
      SkipOne(records, first);
      first := first + 1;
    }
    KeepFitting(records[first..]);
    kept := records[first..];
  }

  lemma {:induction false} SkipSurplus(records: seq<Record>, first: nat)
    requires first == Max(0, |records| - MAX_HISTORY_RECORDS)
    ensures Compacted(records[first..]) == Compacted(records)
    decreases |records|
  {
    if first > 0 {
      SkipSurplus(records[1..], first - 1);
      assert records[1..][first - 1..] == records[first..];
    } else {
      assert records[0..] == records;
    }
  }

  lemma SkipOne(records: seq<Record>, first: nat)
    requires first < |records| && EstimatedSize(records[first..]) > MAX_HISTORY_BYTES
    ensures Compacted(records[first + 1..]) == Compacted(records[first..])
  {
    assert records[first..][1..] == records[first + 1..];
    hide BodySize;
  }

  lemma KeepFitting(records: seq<Record>)
    requires |records| <= MAX_HISTORY_RECORDS && (records == [] || EstimatedSize(records) <= MAX_HISTORY_BYTES)
    ensures Compacted(records) == records
  {
  }
}
