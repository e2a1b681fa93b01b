/** The formats byte by byte: where every field lies, in which order its bytes come, and which numbers
    the limits are (crates/persist-ipc/src/protocol.rs, crates/persist-core/src/command_history_format.rs,
    crates/persist-metadata/src/store.rs). */
module WireLayouts {
  import opened Bytes
  import opened Text
  import Framing
  import HistoryFormat
  import AttachCodec
  import SessionListCodec
  import IsoTime

  // ---- Integers: most significant byte first -------------------------------------------------------

  lemma TwoBytes(n: nat)
    requires n < 65536
    ensures U16Bytes(n) == [n / 256, n % 256]
  {
    assert BigEndian(n / 0x100, 1) == [n / 256];
  }

  lemma FourBytes(n: nat)
    requires n < 4294967296
    ensures U32Bytes(n) == [n / 16777216, n / 65536 % 256, n / 256 % 256, n % 256]
  {
    var a, b, c := n / 0x100, n / 0x100 / 0x100, n / 0x100 / 0x100 / 0x100;
    assert BigEndian(c, 1) == [c % 0x100];
    assert BigEndian(b, 2) == [c % 0x100, b % 0x100];
    assert BigEndian(a, 3) == [c % 0x100, b % 0x100, a % 0x100];
    assert b == n / 65536 && c == n / 16777216 && c < 256;
  }

  /** Reading them back. */
  lemma BytesToNumber(a: byte, b: byte, c: byte, d: byte)
    ensures FromBigEndian([a, b]) == a * 256 + b
    ensures FromBigEndian([a, b, c, d]) == a * 16777216 + b * 65536 + c * 256 + d
  {
    var none: seq<byte> := [];
    assert [a][..0] == none && FromBigEndian(none) == 0;
    assert [a, b][..1] == [a] && FromBigEndian([a]) == a;
    assert [a, b, c][..2] == [a, b];
    assert [a, b, c, d][..3] == [a, b, c];
    assert FromBigEndian([a, b, c]) == FromBigEndian([a, b]) * 256 + c;
  }

  /** Eight bytes are two times four. */
  lemma EightBytes(n: nat)
    requires n < 0x1_0000_0000_0000_0000
    ensures U64Bytes(n) == U32Bytes(n / 4294967296) + U32Bytes(n % 4294967296)
  {
    Widths();
    var high, low := n / 4294967296, n % 4294967296;
    U64RoundTrip(n);
    U32RoundTrip(high);
    U32RoundTrip(low);
    JoinNumbers(U32Bytes(high), U32Bytes(low));
    BigEndianInverse(U32Bytes(high) + U32Bytes(low));
    hide BigEndian, FromBigEndian;
  }

  lemma {:induction false} JoinNumbers(a: seq<byte>, b: seq<byte>)
    ensures FromBigEndian(a + b) == FromBigEndian(a) * Pow256(|b|) + FromBigEndian(b)
    decreases |b|
  {
    if b == [] {
      assert a + b == a;
    } else {
      var init := b[..|b| - 1];
      JoinNumbers(a, init);
      InitOfAppend(a, b);
      Scaled(FromBigEndian(a), Pow256(|init|), FromBigEndian(init), b[|b| - 1]);
    }
  }

  lemma Scaled(a: nat, p: nat, b: nat, last: nat)
    ensures (a * p + b) * 0x100 + last == a * (0x100 * p) + (b * 0x100 + last)
  {
    assert (a * p + b) * 0x100 == a * p * 0x100 + b * 0x100;
    assert a * p * 0x100 == a * (0x100 * p);
  }

  // ---- Frames ----------------------------------------------------------------------------------------

  function Number(b: seq<byte>, i: nat): nat
    requires i + 4 <= |b|
  {
    var w: nat, x: nat, y: nat, z: nat := b[i], b[i + 1], b[i + 2], b[i + 3];
    w * 16777216 + x * 65536 + y * 256 + z
  }

  function Short(b: seq<byte>, i: nat): nat
    requires i + 2 <= |b|
  {
    var y: nat, z: nat := b[i], b[i + 1];
    y * 256 + z
  }

  lemma ShortAt(b: seq<byte>, i: nat)
    requires i + 2 <= |b|
    ensures FromBigEndian(b[i..i + 2]) == Short(b, i)
  {
    BytesToNumber(b[i], b[i + 1], 0, 0);
    assert b[i..i + 2] == [b[i], b[i + 1]];
  }

  lemma NumberAt(b: seq<byte>, i: nat)
    requires i + 4 <= |b|
    ensures FromBigEndian(b[i..i + 4]) == Number(b, i)
  {
    BytesToNumber(b[i], b[i + 1], b[i + 2], b[i + 3]);
    assert b[i..i + 4] == [b[i], b[i + 1], b[i + 2], b[i + 3]];
  }

  /** A frame: the length of its payload in four bytes, type and flags in two each, the request id in
      four, and the payload. */
  lemma FrameLayout(f: Framing.Frame)
    requires Framing.Writable(f)
    ensures var b := Framing.Encode(f);
            && Number(b, 0) == |f.payload| && Short(b, 4) == f.code && Short(b, 6) == f.flags
            && Number(b, 8) == f.requestId && b[12..] == f.payload
  {
    var b := Framing.Encode(f);
    U32RoundTrip(|f.payload|);
    U32RoundTrip(f.requestId);
    CodeFits(f.code);
    U16RoundTrip(f.code);
    U16RoundTrip(f.flags);
    NumberAt(b, 0);
    ShortAt(b, 4);
    ShortAt(b, 6);
    NumberAt(b, 8);
    hide BigEndian, FromBigEndian;
    FrameParts(U32Bytes(|f.payload|), U16Bytes(f.code), U16Bytes(f.flags), U32Bytes(f.requestId), f.payload);
  }

  lemma CodeFits(code: nat)
    requires Framing.KnownType(code)
    ensures code < 65536
  {
  }

  lemma FrameParts(a: seq<byte>, b: seq<byte>, c: seq<byte>, d: seq<byte>, e: seq<byte>)
    requires |a| == 4 && |b| == 2 && |c| == 2 && |d| == 4
    ensures var all := a + b + c + d + e;
            all[0..4] == a && all[4..6] == b && all[6..8] == c && all[8..12] == d && all[12..] == e
  {
  }

  predicate IsType(code: nat)
  {
    1 <= code <= 3 || 16 <= code <= 59 || 256 <= code <= 259 || 768 <= code <= 773
  }

  /** What the parser makes of any bytes at all. */
  lemma FrameVerdict(b: seq<byte>)
    ensures if |b| < 12 || |b| < 12 + Number(b, 0) then Framing.Parse(b) == Framing.Need
            else
              var n := Number(b, 0);
              var code := Short(b, 4);
              if !IsType(code) then Framing.Parse(b) == Framing.Bad(Framing.UnknownType)
              else if n > (if 256 <= code <= 258 then 65536 else 1048576)
              then Framing.Parse(b) == Framing.Bad(Framing.PayloadTooLarge)
              else Framing.Parse(b)
                   == Framing.Got(Framing.Frame(code, Short(b, 6), Number(b, 8), b[12..12 + n]), b[12 + n..])
  {
    if |b| >= 12 {
      NumberAt(b, 0);
      ShortAt(b, 4);
      ShortAt(b, 6);
      NumberAt(b, 8);
      hide FromBigEndian;
    }
  }

  // ---- The command history ---------------------------------------------------------------------------

  /** A record: the length of what follows, sequence number, time, length of the shell, two reserved
      bytes, shell and command. */
  lemma RecordLayout(r: HistoryFormat.Record)
    requires HistoryFormat.ValidRecord(r)
    ensures var b := HistoryFormat.EncodeRecord(r);
            && |b| == 24 + |r.shell| + |r.command|
            && Number(b, 0) == 20 + |r.shell| + |r.command|
            && b[4..12] == U64Bytes(r.sequence) && b[12..20] == U64Bytes(r.completedAt)
            && Short(b, 20) == |r.shell| && b[22..24] == [0, 0]
            && b[24..24 + |r.shell|] == r.shell && b[24 + |r.shell|..] == r.command
  {
    var b := HistoryFormat.EncodeRecord(r);
    var zero := U16Bytes(0);
    HistoryFormat.ZeroBytes();
    HistoryFormat.EncodedFields(r, zero, []);
    HistoryFormat.EncodedLength(r, zero);
    assert b + [] == b;
    var n := HistoryFormat.BodyLength(r);
    hide HistoryFormat.EncodeWith, BigEndian, FromBigEndian;
    U32RoundTrip(n);
    U16RoundTrip(|r.shell|);
    assert b[0..4] == b[..4];
    NumberAt(b, 0);
    Inside(b, n, |r.shell|);
    ShortAt(b, 20);
  }

  lemma Inside(b: seq<byte>, n: nat, k: nat)
    requires |b| == 4 + n && 20 + k <= n
    ensures var body := b[4..4 + n];
            && body[..8] == b[4..12] && body[8..16] == b[12..20] && body[16..18] == b[20..22]
            && body[18..20] == b[22..24] && body[20..20 + k] == b[24..24 + k] && body[20 + k..] == b[24 + k..]
  {
    var body := b[4..4 + n];
    SliceOfSlice(b, 4, 4 + n, 0, 8);
    SliceOfSlice(b, 4, 4 + n, 8, 16);
    SliceOfSlice(b, 4, 4 + n, 16, 18);
    SliceOfSlice(b, 4, 4 + n, 18, 20);
    SliceOfSlice(b, 4, 4 + n, 20, 20 + k);
    SliceOfSlice(b, 4, 4 + n, 20 + k, n);
    assert body[..8] == body[0..8] && body[20 + k..] == body[20 + k..n] && b[24 + k..] == b[24 + k..4 + n];
  }

  /** The header: "PSHIST01", the next sequence number, and the number of records. */
  lemma HeaderLayout(h: HistoryFormat.History)
    requires h.next < U64 && |h.records| < U64
    ensures var b := HistoryFormat.Print(h);
            && b[..8] == [80, 83, 72, 73, 83, 84, 48, 49]
            && b[8..16] == U64Bytes(h.next) && b[16..24] == U64Bytes(|h.records|)
            && b[24..] == HistoryFormat.EncodeAll(h.records)
  {
    HistoryFormat.HeaderFields(h.next, |h.records|, HistoryFormat.EncodeAll(h.records));
    hide BigEndian, FromBigEndian, HistoryFormat.EncodeAll;
  }

  /** What loading makes of any bytes at all, up to the records. */
  lemma LoadVerdict(b: seq<byte>)
    ensures |b| > 4194304 ==> HistoryFormat.Load(b) == HistoryFormat.Err(HistoryFormat.TooLarge)
    ensures b == [] ==> HistoryFormat.Load(b) == HistoryFormat.Ok(HistoryFormat.History(1, []))
    ensures 0 < |b| <= 4194304 && (|b| < 24 || b[..8] != [80, 83, 72, 73, 83, 84, 48, 49]) ==>
              HistoryFormat.Load(b) == HistoryFormat.Err(HistoryFormat.BadHeader)
    ensures 24 <= |b| <= 4194304 && b[..8] == [80, 83, 72, 73, 83, 84, 48, 49] ==>
              match HistoryFormat.DecodeAll(b[24..])
              case Err(e) => HistoryFormat.Load(b) == HistoryFormat.Err(e)
              case Ok(records) =>
                var count := FromBigEndian(b[16..24]);
                if count != |records| && count + 1 != |records|
                then HistoryFormat.Load(b) == HistoryFormat.Err(HistoryFormat.CountMismatch)
                else if exists i :: 0 < i < |records| && records[i - 1].sequence >= records[i].sequence
                then HistoryFormat.Load(b) == HistoryFormat.Err(HistoryFormat.BadSequence)
                else HistoryFormat.Load(b).Ok? && HistoryFormat.Load(b).value.records == records
  {
    hide HistoryFormat.DecodeAll, FromBigEndian;
  }

  /** A shell and a command can be recorded if neither is empty, the shell has less than 64 KiB and the
      command at most that. */
  lemma AdmissibleMeans(shell: seq<byte>, command: seq<byte>)
    ensures HistoryFormat.Admissible(shell, command) <==> 0 < |shell| < 65536 && 0 < |command| <= 65536
  {
  }

  // ---- Attaching -------------------------------------------------------------------------------------

  /** An attach request: the session in four bytes, version 1, the number of variables, and then each
      variable: its name behind one byte of length, its value behind two. */
  lemma AttachLayout(session: nat, pairs: seq<AttachCodec.Pair>)
    requires session < U32 && |pairs| <= 8
    ensures var b := AttachCodec.EncodeAttach(session, pairs);
            Number(b, 0) == session && b[4] == 1 && b[5] == |pairs| && b[6..] == AttachCodec.EncodePairs(pairs)
    ensures pairs != [] && |pairs[0].name| < 256 && |pairs[0].value| < 65536 ==>
              var b := AttachCodec.EncodePairs(pairs);
              var n := |pairs[0].name|;
              var m := |pairs[0].value|;
              && |b| >= 3 + n + m && b[0] == n && b[1..1 + n] == pairs[0].name
              && Short(b, 1 + n) == m && b[3 + n..3 + n + m] == pairs[0].value
              && b[3 + n + m..] == AttachCodec.EncodePairs(pairs[1..])
  {
    hide BigEndian, FromBigEndian, AttachCodec.EncodePair;
    var b := AttachCodec.EncodeAttach(session, pairs);
    U32RoundTrip(session);
    NumberAt(b, 0);
    assert b[0..4] == U32Bytes(session);
    if pairs != [] && |pairs[0].name| < 256 && |pairs[0].value| < 65536 {
      VariableLayout(pairs[0], AttachCodec.EncodePairs(pairs[1..]));
    }
  }

  lemma VariableLayout(p: AttachCodec.Pair, rest: seq<byte>)
    requires |p.name| < 256 && |p.value| < 65536
    ensures var b := AttachCodec.EncodePair(p) + rest;
            var n := |p.name|;
            var m := |p.value|;
            && |b| >= 3 + n + m && b[0] == n && b[1..1 + n] == p.name
            && Short(b, 1 + n) == m && b[3 + n..3 + n + m] == p.value && b[3 + n + m..] == rest
  {
    var b := AttachCodec.EncodePair(p) + rest;
    TwoBytes(|p.value|);
    hide BigEndian;
    assert b == [|p.name|] + (p.name + (U16Bytes(|p.value|) + (p.value + rest)));
    var n := |p.name|;
    assert b[1..1 + n] == p.name && b[1 + n] == |p.value| / 256 && b[2 + n] == |p.value| % 256;
  }

  /** A variable can be handed over if it is one of eight, its value is UTF-8 without control characters,
      and has 1 to 4096 bytes. */
  lemma VariableMeans(p: AttachCodec.Pair)
    ensures AttachCodec.ValidVariable(p) <==>
              && (|| p.name == AsciiText("COLORTERM") || p.name == AsciiText("DISPLAY")
                  || p.name == AsciiText("SSH_AUTH_SOCK") || p.name == AsciiText("SSH_CLIENT")
                  || p.name == AsciiText("SSH_CONNECTION") || p.name == AsciiText("SSH_TTY")
                  || p.name == AsciiText("TERM") || p.name == AsciiText("WAYLAND_DISPLAY"))
              && ValidUtf8(p.name) && ValidUtf8(p.value) && 0 < |p.value| <= 4096 && !HasControl(p.value)
  {
    hide ValidUtf8, HasControl;
    assert forall text: string :: Ascii(text) == AsciiText(text);
  }

  function AsciiText(text: string): (b: seq<byte>)
    ensures |b| == |text|
  {
    seq(|text|, i requires 0 <= i < |text| => (text[i] as int) % 128)
  }

  // ---- The session list -------------------------------------------------------------------------------

  /** A string behind two bytes of length. */
  function Counted(s: seq<byte>): seq<byte>
    requires |s| < 65536
  {
    [|s| / 256, |s| % 256] + s
  }

  function FourOf(n: nat): (b: seq<byte>)
    requires n < 4294967296
  {
    [n / 16777216, n / 65536 % 256, n / 256 % 256, n % 256]
  }

  lemma FourIs(n: nat)
    requires n < 4294967296
    ensures U32Bytes(n) == FourOf(n)
  {
    FourBytes(n);
  }

  function Weight(present: bool, weight: nat): (w: nat)
    ensures w == 0 || w == weight
  {
    if present then weight else 0
  }

  /** Which parts an entry has, and its marks. */
  function Marks(e: SessionListCodec.Entry): byte
  {
    Weight(e.exitCode.Some?, 1) + Weight(e.closedAt.Some?, 2) + Weight(e.hasNote, 4) + Weight(e.hasTags, 8)
    + Weight(e.pinned, 16) + Weight(e.idle != [], 32) + Weight(e.locked, 64) + Weight(e.foregroundPid.Some?, 128)
  }

  function Parts(e: SessionListCodec.Entry): (parts: seq<seq<byte>>)
    requires SessionListCodec.InRange(e)
  {
    [FourOf(e.session), Counted(e.name), Counted(e.status), [Marks(e)]]
    + (if e.exitCode.None? then []
       else [FourOf(if e.exitCode.value >= 0 then e.exitCode.value else e.exitCode.value + 4294967296)])
    + (if e.closedAt.None? then [] else [Counted(e.closedAt.value)])
    + (if e.idle == [] then [] else [Counted(e.idle)])
    + (if e.foregroundPid.None? then []
       else [FourOf(e.foregroundPid.value), Counted(e.foregroundName), Counted(e.foregroundCommand)])
  }

  /** An entry: the session, its name and status, one byte of marks, and then exit code, closing time,
      idle time and foreground process, as far as the marks announce them. */
  lemma EntryLayout(e: SessionListCodec.Entry)
    requires SessionListCodec.InRange(e)
    ensures SessionListCodec.EncodeEntry(e) == Concat(Parts(e))
  {
    hide BigEndian, Counted, FourOf, SessionListCodec.EncodeStr16, SessionListCodec.EncodeHead,
      SessionListCodec.EncodeOptional, Concat, Marks, SessionListCodec.Flags;
    var fixed := [FourOf(e.session), Counted(e.name), Counted(e.status), [Marks(e)]];
    HeadParts(e);
    OptionalParts(e);
    var code := if e.exitCode.None? then []
      else [FourOf(if e.exitCode.value >= 0 then e.exitCode.value else e.exitCode.value + 4294967296)];
    var closed := if e.closedAt.None? then [] else [Counted(e.closedAt.value)];
    var idle := if e.idle == [] then [] else [Counted(e.idle)];
    var fg := if e.foregroundPid.None? then []
      else [FourOf(e.foregroundPid.value), Counted(e.foregroundName), Counted(e.foregroundCommand)];
    assert Parts(e) == fixed + (code + (closed + (idle + fg)));
    ConcatAppend(fixed, code + (closed + (idle + fg)));
  }

  lemma HeadParts(e: SessionListCodec.Entry)
    requires SessionListCodec.InRange(e)
    ensures SessionListCodec.EncodeHead(SessionListCodec.HeadOf(e))
         == Concat([FourOf(e.session), Counted(e.name), Counted(e.status), [Marks(e)]])
  {
    FourIs(e.session);
    CountedIs(e.name);
    CountedIs(e.status);
    FlagsAreMarks(e);
    hide BigEndian, Counted, FourOf, SessionListCodec.EncodeStr16, Marks, SessionListCodec.Flags, Concat;
    FourParts(FourOf(e.session), Counted(e.name), Counted(e.status), [Marks(e)]);
  }

  lemma FlagsAreMarks(e: SessionListCodec.Entry)
    ensures SessionListCodec.Flags(e) == Marks(e)
  {
  }

  lemma FourParts(a: seq<byte>, b: seq<byte>, c: seq<byte>, d: seq<byte>)
    ensures Concat([a, b, c, d]) == a + (b + (c + d))
    ensures Concat([a, b, c]) == a + (b + c)
    ensures Concat([a]) == a && Concat<byte>([]) == []
  {
    assert [a, b, c, d][1..] == [b, c, d] && [b, c, d][1..] == [c, d] && [c, d][1..] == [d];
    assert [a, b, c][1..] == [b, c] && [b, c][1..] == [c];
    assert Concat([d]) == d + [] == d && Concat([c]) == c + [] == c && Concat([a]) == a + [] == a;
    assert Concat([c, d]) == c + d && Concat([b, c]) == b + c;
    assert Concat([b, c, d]) == b + (c + d);
  }

  lemma OptionalParts(e: SessionListCodec.Entry)
    requires SessionListCodec.InRange(e)
    ensures var code := if e.exitCode.None? then []
              else [FourOf(if e.exitCode.value >= 0 then e.exitCode.value else e.exitCode.value + 4294967296)];
            var closed := if e.closedAt.None? then [] else [Counted(e.closedAt.value)];
            var idle := if e.idle == [] then [] else [Counted(e.idle)];
            var fg := if e.foregroundPid.None? then []
              else [FourOf(e.foregroundPid.value), Counted(e.foregroundName), Counted(e.foregroundCommand)];
            SessionListCodec.EncodeOptional(SessionListCodec.OptionalOf(e))
            == Concat(code + (closed + (idle + fg)))
  {
    hide BigEndian, Counted, FourOf, SessionListCodec.EncodeStr16, Concat, SessionListCodec.EncodeForeground;
    var code := if e.exitCode.None? then []
      else [FourOf(if e.exitCode.value >= 0 then e.exitCode.value else e.exitCode.value + 4294967296)];
    var closed := if e.closedAt.None? then [] else [Counted(e.closedAt.value)];
    var idle := if e.idle == [] then [] else [Counted(e.idle)];
    var fg := if e.foregroundPid.None? then []
      else [FourOf(e.foregroundPid.value), Counted(e.foregroundName), Counted(e.foregroundCommand)];
    ConcatAppend(code, closed + (idle + fg));
    ConcatAppend(closed, idle + fg);
    ConcatAppend(idle, fg);
    FourParts([], [], [], []);
    if e.exitCode.Some? {
      var unsigned := if e.exitCode.value >= 0 then e.exitCode.value else e.exitCode.value + 4294967296;
      UnsignedIs(e.exitCode.value);
      FourIs(unsigned);
      FourParts(FourOf(unsigned), [], [], []);
    }
    if e.closedAt.Some? {
      CountedIs(e.closedAt.value);
      FourParts(Counted(e.closedAt.value), [], [], []);
    }
    CountedIs(e.idle);
    FourParts(Counted(e.idle), [], [], []);
    if e.foregroundPid.Some? {
      ForegroundParts(e.foregroundPid.value, e.foregroundName, e.foregroundCommand);
    }
  }

  lemma UnsignedIs(code: int)
    requires -0x8000_0000 <= code < 0x8000_0000
    ensures SessionListCodec.ToUnsigned(code) == if code >= 0 then code else code + 4294967296
  {
  }

  lemma ForegroundParts(pid: nat, name: seq<byte>, command: seq<byte>)
    requires pid < 4294967296 && |name| < 65536 && |command| < 65536
    ensures SessionListCodec.EncodeForeground(SessionListCodec.Foreground(pid, name, command))
         == Concat([FourOf(pid), Counted(name), Counted(command)])
  {
    FourIs(pid);
    CountedIs(name);
    CountedIs(command);
    hide BigEndian, Counted, FourOf, SessionListCodec.EncodeStr16, Concat;
    FourParts(FourOf(pid), Counted(name), Counted(command), []);
  }

  lemma CountedIs(s: seq<byte>)
    requires |s| < 65536
    ensures SessionListCodec.EncodeStr16(s) == Counted(s)
  {
    TwoBytes(|s|);
    assert s[..|s|] == s;
  }

  /** A list: the number of entries in two bytes, and the entries. */
  lemma ListLayout(entries: seq<SessionListCodec.Entry>)
    requires |entries| < 65536
    ensures SessionListCodec.EncodeList(entries)
         == [|entries| / 256, |entries| % 256] + SessionListCodec.EncodeEntries(entries)
  {
    TwoBytes(|entries|);
  }

  // ---- Timestamps -------------------------------------------------------------------------------------

  function Figure(n: nat): (c: char)
    requires n < 10
  {
    "0123456789"[n]
  }

  /** Up to the year 9999: year, month, day, hour, minute and second as in 2024-02-29T23:05:09Z. */
  lemma TimeLayout(s: IsoTime.Stamp)
    requires IsoTime.Valid(s) && s.year <= 9999
    ensures IsoTime.Text(s)
         == [Figure(s.year / 1000), Figure(s.year / 100 % 10), Figure(s.year / 10 % 10), Figure(s.year % 10), '-',
             Figure(s.month / 10), Figure(s.month % 10), '-', Figure(s.day / 10), Figure(s.day % 10), 'T',
             Figure(s.hour / 10), Figure(s.hour % 10), ':', Figure(s.minute / 10), Figure(s.minute % 10), ':',
             Figure(s.second / 10), Figure(s.second % 10), 'Z']
  {
    FourDigits(s.year);
    TwoDigits(s.month);
    TwoDigits(s.day);
    TwoDigits(s.hour);
    TwoDigits(s.minute);
    TwoDigits(s.second);
    hide IsoTime.Padded, Figure;
    TimePieces(IsoTime.Padded(s.year, 4), IsoTime.Padded(s.month, 2), IsoTime.Padded(s.day, 2),
      IsoTime.Padded(s.hour, 2), IsoTime.Padded(s.minute, 2), IsoTime.Padded(s.second, 2));
  }

  lemma TimePieces(y: string, m: string, d: string, h: string, n: string, s: string)
    requires |y| == 4 && |m| == |d| == |h| == |n| == |s| == 2
    ensures y + ("-" + (m + ("-" + (d + ("T" + (h + (":" + (n + (":" + (s + "Z"))))))))))
         == [y[0], y[1], y[2], y[3], '-', m[0], m[1], '-', d[0], d[1], 'T', h[0], h[1], ':', n[0], n[1], ':',
             s[0], s[1], 'Z']
  {
    var e1 := n + (":" + (s + "Z"));
    assert e1 == [n[0], n[1], ':', s[0], s[1], 'Z'];
    var e2 := h + (":" + e1);
    assert e2 == [h[0], h[1], ':', n[0], n[1], ':', s[0], s[1], 'Z'];
    var e3 := d + ("T" + e2);
    assert e3 == [d[0], d[1], 'T'] + e2;
    var e4 := m + ("-" + e3);
    assert e4 == [m[0], m[1], '-'] + e3;
    assert y + ("-" + e4) == [y[0], y[1], y[2], y[3], '-'] + e4;
  }

  lemma DigitIsFigure(n: nat)
    requires n < 10
    ensures IsoTime.Digit(n) == Figure(n)
  {
  }

  lemma TwoDigits(n: nat)
    requires n < 100
    ensures IsoTime.Padded(n, 2) == [Figure(n / 10), Figure(n % 10)]
  {
    DigitIsFigure(n / 10);
    DigitIsFigure(n % 10);
    assert IsoTime.Padded(n / 10, 1) == [IsoTime.Digit(n / 10)];
  }

  lemma FourDigits(n: nat)
    requires n < 10000
    ensures IsoTime.Padded(n, 4) == [Figure(n / 1000), Figure(n / 100 % 10), Figure(n / 10 % 10), Figure(n % 10)]
  {
    DigitIsFigure(n / 1000);
    DigitIsFigure(n / 100 % 10);
    DigitIsFigure(n / 10 % 10);
    DigitIsFigure(n % 10);
    assert n / 10 / 10 == n / 100 && n / 10 / 10 / 10 == n / 1000;
    assert IsoTime.Padded(n / 1000, 1) == [IsoTime.Digit(n / 1000)];
    assert IsoTime.Padded(n / 100, 2) == [IsoTime.Digit(n / 1000), IsoTime.Digit(n / 100 % 10)];
    assert IsoTime.Padded(n / 10, 3)
        == [IsoTime.Digit(n / 1000), IsoTime.Digit(n / 100 % 10), IsoTime.Digit(n / 10 % 10)];
  }
}
