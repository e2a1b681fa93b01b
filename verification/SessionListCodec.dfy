/** The session list on the daemon socket (crates/persist-ipc/src/protocol.rs). Strings are their
    UTF-8 bytes. */
module SessionListCodec {
  import opened Bytes

  datatype Entry = Entry(
    session: nat,
    name: seq<byte>,
    status: seq<byte>,
    exitCode: Option<int>,
    closedAt: Option<seq<byte>>,
    hasNote: bool,
    hasTags: bool,
    pinned: bool,
    locked: bool,
    idle: seq<byte>,
    foregroundPid: Option<nat>,
    foregroundName: seq<byte>,
    foregroundCommand: seq<byte>)

  const MAX_LIST: nat := U16 - 1

  /** Values in range of their wire fields. */
  predicate InRange(e: Entry)
  {
    && e.session < U32 && Short(e.name) && Short(e.status)
    && (e.exitCode.Some? ==> -0x8000_0000 <= e.exitCode.value < 0x8000_0000)
    && (e.closedAt.Some? ==> Short(e.closedAt.value))
    && Short(e.idle)
    && (e.foregroundPid.Some? ==> e.foregroundPid.value < U32)
    && Short(e.foregroundName) && Short(e.foregroundCommand)
  }

  predicate Short(s: seq<byte>)
  {
    |s| < U16
  }

  /** What can be told apart on the wire: without a foreground process its strings are not sent. */
  function Normal(e: Entry): Entry
  {
    if e.foregroundPid.Some? then e else e.(foregroundName := [], foregroundCommand := [])
  }

  // ---- Fields ---------------------------------------------------------------------

  function EncodeStr16(s: seq<byte>): seq<byte>
  {
    var n := Min(|s|, U16 - 1);
    U16Bytes(n) + s[..n]
  }

  function DecodeStr16(b: seq<byte>): (res: Option<(seq<byte>, seq<byte>)>)
    ensures res.Some? ==> |res.value.1| <= |b|
  {
    if |b| < 2 then None
    else
      var n := FromBigEndian(b[0..2]);
      if |b| < 2 + n then None else Some((b[2..2 + n], b[2 + n..]))
  }

  function DecodeU32(b: seq<byte>): (res: Option<(nat, seq<byte>)>)
    ensures res.Some? ==> |res.value.1| <= |b|
  {
    if |b| < 4 then None else Some((FromBigEndian(b[0..4]), b[4..]))
  }

  /** Two's complement. */
  function ToUnsigned(code: int): nat
  {
    code % U32
  }

  function ToSigned(n: nat): int
  {
    if n < 0x8000_0000 then n else n - U32
  }

  lemma Str16RoundTrip(s: seq<byte>, rest: seq<byte>)
    requires Short(s)
    ensures DecodeStr16(EncodeStr16(s) + rest) == Some((s, rest))
  {
    U16RoundTrip(|s|);
    hide BigEndian, FromBigEndian;
    var b := EncodeStr16(s) + rest;
    assert s[..|s|] == s;
    assert b[0..2] == U16Bytes(|s|);
    assert b[2..2 + |s|] == s && b[2 + |s|..] == rest;
  }

  lemma U32FieldRoundTrip(n: nat, rest: seq<byte>)
    requires n < U32
    ensures DecodeU32(U32Bytes(n) + rest) == Some((n, rest))
  {
    U32RoundTrip(n);
    hide BigEndian, FromBigEndian;
    assert (U32Bytes(n) + rest)[0..4] == U32Bytes(n);
  }

  lemma SignedRoundTrip(code: int)
    requires -0x8000_0000 <= code < 0x8000_0000
    ensures ToUnsigned(code) < U32 && ToSigned(ToUnsigned(code)) == code
  {
  }

  // ---- Flags ----------------------------------------------------------------------

  function BitIf(b: bool, weight: nat): nat
  {
    if b then weight else 0
  }

  function Flags(e: Entry): (flags: byte)
  {
    BitIf(e.exitCode.Some?, 0x01) + BitIf(e.closedAt.Some?, 0x02) + BitIf(e.hasNote, 0x04) + BitIf(e.hasTags, 0x08)
    + BitIf(e.pinned, 0x10) + BitIf(e.idle != [], 0x20) + BitIf(e.locked, 0x40) + BitIf(e.foregroundPid.Some?, 0x80)
  }

  predicate IsSet(flags: byte, weight: nat)
    requires weight > 0
  {
    (flags / weight) % 2 == 1
  }

  lemma FlagsReadBack(e: Entry)
    ensures var f := Flags(e);
            && IsSet(f, 0x01) == e.exitCode.Some? && IsSet(f, 0x02) == e.closedAt.Some?
            && IsSet(f, 0x04) == e.hasNote && IsSet(f, 0x08) == e.hasTags
            && IsSet(f, 0x10) == e.pinned && IsSet(f, 0x20) == (e.idle != [])
            && IsSet(f, 0x40) == e.locked && IsSet(f, 0x80) == e.foregroundPid.Some?
  {
    BitsReadBack(e.exitCode.Some?, e.closedAt.Some?, e.hasNote, e.hasTags, e.pinned, e.idle != [], e.locked,
      e.foregroundPid.Some?);
  }

  lemma BitsReadBack(a: bool, b: bool, c: bool, d: bool, e: bool, f: bool, g: bool, h: bool)
    ensures var low := BitIf(a, 0x01) + BitIf(b, 0x02) + BitIf(c, 0x04) + BitIf(d, 0x08);
            var all := low + BitIf(e, 0x10) + BitIf(f, 0x20) + BitIf(g, 0x40) + BitIf(h, 0x80);
            && all < 0x100
            && IsSet(all, 0x01) == a && IsSet(all, 0x02) == b && IsSet(all, 0x04) == c && IsSet(all, 0x08) == d
            && IsSet(all, 0x10) == e && IsSet(all, 0x20) == f && IsSet(all, 0x40) == g && IsSet(all, 0x80) == h
  {
    EightBits(BitIf(a, 1), BitIf(b, 1), BitIf(c, 1), BitIf(d, 1), BitIf(e, 1), BitIf(f, 1), BitIf(g, 1), BitIf(h, 1));
    Weigh(a, 0x01);
    Weigh(b, 0x02);
    Weigh(c, 0x04);
    Weigh(d, 0x08);
    Weigh(e, 0x10);
    Weigh(f, 0x20);
    Weigh(g, 0x40);
    Weigh(h, 0x80);
    hide BitIf;
  }

  lemma Weigh(b: bool, weight: nat)
    ensures BitIf(b, weight) == weight * BitIf(b, 1)
    ensures BitIf(b, 1) <= 1 && (BitIf(b, 1) == 1 <==> b)
  {
  }

  lemma EightBits(a: nat, b: nat, c: nat, d: nat, e: nat, f: nat, g: nat, h: nat)
    requires a <= 1 && b <= 1 && c <= 1 && d <= 1 && e <= 1 && f <= 1 && g <= 1 && h <= 1
    ensures var all := a + 2 * b + 4 * c + 8 * d + 16 * e + 32 * f + 64 * g + 128 * h;
            && all < 0x100
            && (IsSet(all, 0x01) <==> a == 1) && (IsSet(all, 0x02) <==> b == 1)
            && (IsSet(all, 0x04) <==> c == 1) && (IsSet(all, 0x08) <==> d == 1)
            && (IsSet(all, 0x10) <==> e == 1) && (IsSet(all, 0x20) <==> f == 1)
            && (IsSet(all, 0x40) <==> g == 1) && (IsSet(all, 0x80) <==> h == 1)
  {
    hide IsSet;
    var all := a + 2 * b + 4 * c + 8 * d + 16 * e + 32 * f + 64 * g + 128 * h;
    BitAt(0, 0x01, a, b + 2 * c + 4 * d + 8 * e + 16 * f + 32 * g + 64 * h, all);
    BitAt(a, 0x02, b, c + 2 * d + 4 * e + 8 * f + 16 * g + 32 * h, all);
    BitAt(a + 2 * b, 0x04, c, d + 2 * e + 4 * f + 8 * g + 16 * h, all);
    BitAt(a + 2 * b + 4 * c, 0x08, d, e + 2 * f + 4 * g + 8 * h, all);
    BitAt(a + 2 * b + 4 * c + 8 * d, 0x10, e, f + 2 * g + 4 * h, all);
    BitAt(a + 2 * b + 4 * c + 8 * d + 16 * e, 0x20, f, g + 2 * h, all);
    BitAt(a + 2 * b + 4 * c + 8 * d + 16 * e + 32 * f, 0x40, g, h, all);
    BitAt(a + 2 * b + 4 * c + 8 * d + 16 * e + 32 * f + 64 * g, 0x80, h, 0, all);
  }

  lemma BitAt(low: nat, weight: nat, bit: nat, high: nat, all: byte)
    requires bit <= 1 && low < weight && all == low + weight * (bit + 2 * high)
    ensures IsSet(all, weight) <==> bit == 1
  {
    Division(all, weight, bit + 2 * high, low);
  }

  // ---- One entry ---------------------------------------------------------------------

  /** The part every entry has. */
  datatype Head = Head(session: nat, name: seq<byte>, status: seq<byte>, flags: byte)

  function EncodeHead(h: Head): seq<byte>
  {
    U32Bytes(h.session) + (EncodeStr16(h.name) + (EncodeStr16(h.status) + [h.flags]))
  }

  function DecodeHead(b: seq<byte>): (res: Option<(Head, seq<byte>)>)
    ensures res.Some? ==> |res.value.1| <= |b|
  {
    var session := DecodeU32(b);
    if session.None? then None
    else
      var name := DecodeStr16(session.value.1);
      if name.None? then None
      else
        var status := DecodeStr16(name.value.1);
        if status.None? || status.value.1 == [] then None
        else Some((Head(session.value.0, name.value.0, status.value.0, status.value.1[0]), status.value.1[1..]))
  }

  /** The parts the flags call for. */
  datatype Optional = Optional(exitCode: Option<int>, closedAt: Option<seq<byte>>, idle: seq<byte>,
    foreground: Option<Foreground>)

  datatype Foreground = Foreground(pid: nat, name: seq<byte>, command: seq<byte>)

  function EncodeOptional(o: Optional): seq<byte>
  {
    (if o.exitCode.Some? then U32Bytes(ToUnsigned(o.exitCode.value)) else [])
    + ((if o.closedAt.Some? then EncodeStr16(o.closedAt.value) else [])
       + ((if o.idle != [] then EncodeStr16(o.idle) else [])
          + (if o.foreground.Some? then EncodeForeground(o.foreground.value) else [])))
  }

  function EncodeForeground(f: Foreground): seq<byte>
  {
    U32Bytes(f.pid) + (EncodeStr16(f.name) + EncodeStr16(f.command))
  }

  function DecodeExitCode(present: bool, b: seq<byte>): (res: Option<(Option<int>, seq<byte>)>)
    ensures res.Some? ==> |res.value.1| <= |b|
  {
    if !present then Some((None, b))
    else
      var code := DecodeU32(b);
      if code.None? then None else Some((Some(ToSigned(code.value.0)), code.value.1))
  }

  function DecodeOptionalStr(present: bool, b: seq<byte>): (res: Option<(Option<seq<byte>>, seq<byte>)>)
    ensures res.Some? ==> |res.value.1| <= |b|
  {
    if !present then Some((None, b))
    else
      var s := DecodeStr16(b);
      if s.None? then None else Some((Some(s.value.0), s.value.1))
  }

  function DecodeForeground(present: bool, b: seq<byte>): (res: Option<(Option<Foreground>, seq<byte>)>)
    ensures res.Some? ==> |res.value.1| <= |b|
  {
    if !present then Some((None, b))
    else
      var pid := DecodeU32(b);
      if pid.None? then None
      else
        var name := DecodeStr16(pid.value.1);
        if name.None? then None
        else
          var command := DecodeStr16(name.value.1);
          if command.None? then None
          else Some((Some(Foreground(pid.value.0, name.value.0, command.value.0)), command.value.1))
  }

  function DecodeOptional(flags: byte, b: seq<byte>): (res: Option<(Optional, seq<byte>)>)
    ensures res.Some? ==> |res.value.1| <= |b|
  {
    var code := DecodeExitCode(IsSet(flags, 0x01), b);
    if code.None? then None
    else
      var closed := DecodeOptionalStr(IsSet(flags, 0x02), code.value.1);
      if closed.None? then None
      else
        var idle := DecodeOptionalStr(IsSet(flags, 0x20), closed.value.1);
        if idle.None? then None
        else
          var fg := DecodeForeground(IsSet(flags, 0x80), idle.value.1);
          if fg.None? then None
          else Some((Optional(code.value.0, closed.value.0, if idle.value.0.Some? then idle.value.0.value
            else [], fg.value.0),
                     fg.value.1))
  }

  function HeadOf(e: Entry): Head
  {
    Head(e.session, e.name, e.status, Flags(e))
  }

  function OptionalOf(e: Entry): Optional
  {
    Optional(e.exitCode, e.closedAt, e.idle,
             if e.foregroundPid.Some? then Some(Foreground(e.foregroundPid.value, e.foregroundName,
               e.foregroundCommand)) else None)
  }

  function EncodeEntry(e: Entry): seq<byte>
  {
    EncodeHead(HeadOf(e)) + EncodeOptional(OptionalOf(e))
  }

  function Assemble(h: Head, o: Optional): Entry
  {
    Entry(h.session, h.name, h.status, o.exitCode, o.closedAt,
          IsSet(h.flags, 0x04), IsSet(h.flags, 0x08), IsSet(h.flags, 0x10), IsSet(h.flags, 0x40), o.idle,
          if o.foreground.Some? then Some(o.foreground.value.pid) else None,
          if o.foreground.Some? then o.foreground.value.name else [],
          if o.foreground.Some? then o.foreground.value.command else [])
  }

  function DecodeEntry(b: seq<byte>): (res: Option<(Entry, seq<byte>)>)
    ensures res.Some? ==> |res.value.1| <= |b|
  {
    var head := DecodeHead(b);
    if head.None? then None
    else
      var rest := DecodeOptional(head.value.0.flags, head.value.1);
      if rest.None? then None else Some((Assemble(head.value.0, rest.value.0), rest.value.1))
  }

  lemma HeadRoundTrip(h: Head, rest: seq<byte>)
    requires h.session < U32 && Short(h.name) && Short(h.status)
    ensures DecodeHead(EncodeHead(h) + rest) == Some((h, rest))
  {
    hide BigEndian, EncodeStr16, DecodeStr16, DecodeU32;
    var last := [h.flags] + rest;
    var second := EncodeStr16(h.status) + last;
    var first := EncodeStr16(h.name) + second;
    Associate(U32Bytes(h.session), EncodeStr16(h.name) + (EncodeStr16(h.status) + [h.flags]), rest);
    Associate(EncodeStr16(h.name), EncodeStr16(h.status) + [h.flags], rest);
    Associate(EncodeStr16(h.status), [h.flags], rest);
    U32FieldRoundTrip(h.session, first);
    Str16RoundTrip(h.name, second);
    Str16RoundTrip(h.status, last);
    assert last[1..] == rest;
  }

  lemma ForegroundRoundTrip(f: Option<Foreground>, rest: seq<byte>)
    requires f.Some? ==> f.value.pid < U32 && Short(f.value.name) && Short(f.value.command)
    ensures DecodeForeground(f.Some?, (if f.Some? then EncodeForeground(f.value) else []) + rest) == Some((f, rest))
  {
    hide BigEndian, EncodeStr16, DecodeStr16, DecodeU32;
    if f.Some? {
      var fg := f.value;
      Associate(U32Bytes(fg.pid), EncodeStr16(fg.name) + EncodeStr16(fg.command), rest);
      Associate(EncodeStr16(fg.name), EncodeStr16(fg.command), rest);
      U32FieldRoundTrip(fg.pid, EncodeStr16(fg.name) + (EncodeStr16(fg.command) + rest));
      Str16RoundTrip(fg.name, EncodeStr16(fg.command) + rest);
      Str16RoundTrip(fg.command, rest);
    } else {
      assert [] + rest == rest;
    }
  }

  lemma OptionalStrRoundTrip(s: Option<seq<byte>>, rest: seq<byte>)
    requires s.Some? ==> Short(s.value)
    ensures DecodeOptionalStr(s.Some?, (if s.Some? then EncodeStr16(s.value) else []) + rest) == Some((s, rest))
  {
    hide EncodeStr16, DecodeStr16;
    if s.Some? {
      Str16RoundTrip(s.value, rest);
    } else {
      assert [] + rest == rest;
    }
  }

  lemma ExitCodeRoundTrip(code: Option<int>, rest: seq<byte>)
    requires code.Some? ==> -0x8000_0000 <= code.value < 0x8000_0000
    ensures DecodeExitCode(code.Some?, (if code.Some? then U32Bytes(ToUnsigned(code.value)) else []) + rest)
            == Some((code, rest))
  {
    hide BigEndian, DecodeU32;
    if code.Some? {
      SignedRoundTrip(code.value);
      U32FieldRoundTrip(ToUnsigned(code.value), rest);
    } else {
      assert [] + rest == rest;
    }
  }

  lemma OptionalRoundTrip(e: Entry, rest: seq<byte>)
    requires InRange(e)
    ensures DecodeOptional(Flags(e), EncodeOptional(OptionalOf(e)) + rest) == Some((OptionalOf(e), rest))
  {
    FlagsReadBack(e);
    hide BigEndian, EncodeStr16, DecodeStr16, DecodeU32, EncodeForeground, Flags, IsSet, ToUnsigned, ToSigned,
      DecodeExitCode, DecodeOptionalStr, DecodeForeground;
    var o := OptionalOf(e);
    var idle := if e.idle != [] then Some(e.idle) else None;
    var a := if o.exitCode.Some? then U32Bytes(ToUnsigned(o.exitCode.value)) else [];
    var b := if o.closedAt.Some? then EncodeStr16(o.closedAt.value) else [];
    var c := if idle.Some? then EncodeStr16(idle.value) else [];
    var d := if o.foreground.Some? then EncodeForeground(o.foreground.value) else [];
    Associate(a, b + (c + d), rest);
    Associate(b, c + d, rest);
    Associate(c, d, rest);
    ExitCodeRoundTrip(o.exitCode, b + (c + (d + rest)));
    OptionalStrRoundTrip(o.closedAt, c + (d + rest));
    OptionalStrRoundTrip(idle, d + rest);
    ForegroundRoundTrip(o.foreground, rest);
  }

  /** An entry is read back as itself, up to the strings of an absent foreground process. */
  lemma EntryRoundTrip(e: Entry, rest: seq<byte>)
    requires InRange(e)
    ensures DecodeEntry(EncodeEntry(e) + rest) == Some((Normal(e), rest))
  {
    FlagsReadBack(e);
    hide EncodeHead, DecodeHead, EncodeOptional, DecodeOptional, Flags, IsSet;
    Associate(EncodeHead(HeadOf(e)), EncodeOptional(OptionalOf(e)), rest);
    HeadRoundTrip(HeadOf(e), EncodeOptional(OptionalOf(e)) + rest);
    OptionalRoundTrip(e, rest);
  }

  // ---- The list --------------------------------------------------------------------------

  function EncodeEntries(entries: seq<Entry>): seq<byte>
  {
    if entries == [] then [] else EncodeEntry(entries[0]) + EncodeEntries(entries[1..])
  }

  /** The count is capped, the entries are not. */
  function EncodeList(entries: seq<Entry>): seq<byte>
  {
    U16Bytes(Min(|entries|, MAX_LIST)) + EncodeEntries(entries)
  }

  function DecodeEntries(b: seq<byte>, count: nat): Option<seq<Entry>>
    decreases count
  {
    if count == 0 then Some([])
    else
      var first := DecodeEntry(b);
      if first.None? then None
      else
        var later := DecodeEntries(first.value.1, count - 1);
        if later.None? then None else Some([first.value.0] + later.value)
  }

  function DecodeList(b: seq<byte>): Option<seq<Entry>>
  {
    if |b| < 2 then None else DecodeEntries(b[2..], FromBigEndian(b[0..2]))
  }

  function NormalAll(entries: seq<Entry>): (r: seq<Entry>)
    ensures |r| == |entries|
  {
    seq(|entries|, i requires 0 <= i < |entries| => Normal(entries[i]))
  }

  ghost predicate AllInRange(entries: seq<Entry>)
  {
    forall i :: 0 <= i < |entries| ==> InRange(entries[i])
  }

  lemma {:induction false} EntriesRoundTrip(entries: seq<Entry>, rest: seq<byte>)
    requires AllInRange(entries)
    ensures DecodeEntries(EncodeEntries(entries) + rest, |entries|) == Some(NormalAll(entries))
    decreases |entries|
  {
    if entries == [] {
      assert NormalAll(entries) == [];
    } else {
      hide EncodeEntry, DecodeEntry, InRange, Normal, NormalAll, EncodeEntries, AllInRange;
      EntriesSplit(entries, rest);
      EntryRoundTrip(entries[0], EncodeEntries(entries[1..]) + rest);
      EntriesRoundTrip(entries[1..], rest);
    }
  }

  lemma EntriesSplit(entries: seq<Entry>, rest: seq<byte>)
    requires entries != [] && AllInRange(entries)
    ensures InRange(entries[0]) && AllInRange(entries[1..])
    ensures NormalAll(entries) == [Normal(entries[0])] + NormalAll(entries[1..])
    ensures EncodeEntries(entries) + rest == EncodeEntry(entries[0]) + (EncodeEntries(entries[1..]) + rest)
  {
    hide EncodeEntry, InRange;
    Associate(EncodeEntry(entries[0]), EncodeEntries(entries[1..]), rest);
  }

  lemma {:induction false} EntriesAppend(a: seq<Entry>, b: seq<Entry>)
    ensures EncodeEntries(a + b) == EncodeEntries(a) + EncodeEntries(b)
  {
    hide EncodeEntry;
    if a == [] {
      assert a + b == b;
      assert [] + EncodeEntries(b) == EncodeEntries(b);
    } else {
      assert (a + b)[1..] == a[1..] + b;
      EntriesAppend(a[1..], b);
      Associate(EncodeEntry(a[0]), EncodeEntries(a[1..]), EncodeEntries(b));
    }
  }

  /** Lists of any length: the first 65535 entries come back, and whatever was written behind them
      is passed over. */
  lemma ListRoundTrip(entries: seq<Entry>)
    requires AllInRange(entries[..Min(|entries|, MAX_LIST)])
    ensures DecodeList(EncodeList(entries)) == Some(NormalAll(entries[..Min(|entries|, MAX_LIST)]))
  {
    hide EncodeEntries, DecodeEntries, AllInRange, BigEndian, FromBigEndian;
    var n := Min(|entries|, MAX_LIST);
    var kept := entries[..n];
    var surplus := EncodeEntries(entries[n..]);
    var b := EncodeList(entries);
    U16RoundTrip(n);
    assert kept + entries[n..] == entries;
    EntriesAppend(kept, entries[n..]);
    EntriesRoundTrip(kept, surplus);
    assert b[0..2] == U16Bytes(n) && b[2..] == EncodeEntries(entries);
  }

  /** The list is read back unchanged exactly when it has at most 65535 entries and none carries
      foreground strings without a foreground process. */
  lemma ListSurvives(entries: seq<Entry>)
    requires AllInRange(entries)
    ensures DecodeList(EncodeList(entries)) == Some(entries) <==>
              |entries| <= MAX_LIST
              && forall i :: 0 <= i < |entries| && entries[i].foregroundPid.None? ==>
                   entries[i].foregroundName == [] && entries[i].foregroundCommand == []
  {
    ListRoundTrip(entries);
    hide EncodeList, DecodeList, InRange;
    var n := Min(|entries|, MAX_LIST);
    var back := NormalAll(entries[..n]);
    if |entries| <= MAX_LIST {
      assert entries[..n] == entries;
      assert back == entries <==> forall i :: 0 <= i < |entries| ==> back[i] == entries[i];
      assert forall i :: 0 <= i < |entries| ==> back[i] == Normal(entries[i]);
    } else {
      assert |back| != |entries|;
    }
  }

  // ---- The loops ---------------------------------------------------------------------------

  method EncodeSessions(entries: seq<Entry>) returns (buf: seq<byte>)
    ensures buf == EncodeList(entries)
  {
    hide EncodeEntry, EncodeEntries;
    var count := Min(|entries|, MAX_LIST);
    buf := U16Bytes(count);
    NoEntries(entries);
    for i := 0 to |entries|
      invariant buf == U16Bytes(count) + EncodeEntries(entries[..i])
    {
      EntriesNext(entries, i);
      Associate(U16Bytes(count), EncodeEntries(entries[..i]), EncodeEntry(entries[i]));
      var entry := AppendEntry(entries[i]);
      buf := buf + entry;
    }
  }

  lemma NoEntries(entries: seq<Entry>)
    ensures EncodeEntries(entries[..0]) == [] && entries[..|entries|] == entries
  {
  }

  lemma EntriesNext(entries: seq<Entry>, i: nat)
    requires i < |entries|
    ensures EncodeEntries(entries[..i + 1]) == EncodeEntries(entries[..i]) + EncodeEntry(entries[i])
  {
    assert entries[..i + 1] == entries[..i] + [entries[i]];
    EntriesAppend(entries[..i], [entries[i]]);
    assert EncodeEntries([entries[i]]) == EncodeEntry(entries[i]) + [];
    hide EncodeEntry;
  }

  /** Fields in the order they are pushed. */
  method AppendEntry(e: Entry) returns (buf: seq<byte>)
    ensures buf == EncodeEntry(e)
  {
    hide BigEndian, EncodeStr16, ToUnsigned;
    buf := U32Bytes(e.session) + (EncodeStr16(e.name) + (EncodeStr16(e.status) + [Flags(e)]));
    var optional: seq<byte> := [];
    if e.foregroundPid.Some? {
      optional := U32Bytes(e.foregroundPid.value) + (EncodeStr16(e.foregroundName) + EncodeStr16(e.foregroundCommand));
    }
    var idle := if e.idle != [] then EncodeStr16(e.idle) else [];
    var closed := if e.closedAt.Some? then EncodeStr16(e.closedAt.value) else [];
    var code := if e.exitCode.Some? then U32Bytes(ToUnsigned(e.exitCode.value)) else [];
    buf := buf + (code + (closed + (idle + optional)));
  }

  /** Reading all entries comes to the ones read so far and whatever the rest holds. */
  ghost predicate ReadSoFar(all: Option<seq<Entry>>, sessions: seq<Entry>, rest: seq<byte>, left: nat)
  {
    var later := DecodeEntries(rest, left);
    all == if later.None? then None else Some(sessions + later.value)
  }

  lemma ReadNothing(b: seq<byte>, count: nat)
    ensures ReadSoFar(DecodeEntries(b, count), [], b, count)
  {
    var all := DecodeEntries(b, count);
    assert all.Some? ==> [] + all.value == all.value;
    hide DecodeEntries;
  }

  lemma ReadOneMore(all: Option<seq<Entry>>, sessions: seq<Entry>, rest: seq<byte>, left: nat)
    requires left > 0 && ReadSoFar(all, sessions, rest, left)
    ensures DecodeEntry(rest).None? ==> all.None?
    ensures DecodeEntry(rest).Some? ==>
              ReadSoFar(all, sessions + [DecodeEntry(rest).value.0], DecodeEntry(rest).value.1, left - 1)
  {
    hide DecodeEntry;
    var entry := DecodeEntry(rest);
    if entry.Some? {
      var later := DecodeEntries(entry.value.1, left - 1);
      if later.Some? { Associate(sessions, [entry.value.0], later.value); }
    }
  }

  lemma ReadEverything(all: Option<seq<Entry>>, sessions: seq<Entry>, rest: seq<byte>)
    requires ReadSoFar(all, sessions, rest, 0)
    ensures all == Some(sessions)
  {
    assert sessions + [] == sessions;
  }

  method DecodeSessions(data: seq<byte>) returns (res: Option<seq<Entry>>)
    ensures res == DecodeList(data)
  {
    if |data| < 2 {
      return None;
    }
    hide DecodeEntries, FromBigEndian;
    res := DecodeCount(data[2..], FromBigEndian(data[0..2]));
  }

  method DecodeCount(data: seq<byte>, count: nat) returns (res: Option<seq<Entry>>)
    ensures res == DecodeEntries(data, count)
  {
    hide DecodeEntry, DecodeEntries, ReadSoFar;
    var rest := data;
    var sessions: seq<Entry> := [];
    ghost var all := DecodeEntries(data, count);
    ReadNothing(data, count);
    for i := 0 to count
      invariant ReadSoFar(all, sessions, rest, count - i)
    {
      ReadOneMore(all, sessions, rest, count - i);
      var entry := DecodeEntry(rest);
      if entry.None? {
        return None;
      }
      sessions := sessions + [entry.value.0];
      rest := entry.value.1;
    }
    ReadEverything(all, sessions, rest);
    res := Some(sessions);
  }
}
