/** UTF-8 as the programs check it (section 4 of RFC 3629). */
module Text {
  import opened Bytes

  predicate Continuation(b: byte)
  {
    0x80 <= b <= 0xBF
  }

  /** Length of the well-formed character at the front, or 0. */
  function CharLength(s: seq<byte>): (n: nat)
    requires s != []
    ensures n <= |s|
  {
    if s[0] < 0x80 then 1
    else if 0xC2 <= s[0] <= 0xDF && |s| >= 2 && Continuation(s[1]) then 2
    else if 0xE0 <= s[0] <= 0xEF && |s| >= 3 && Continuation(s[1]) && Continuation(s[2])
            && (s[0] == 0xE0 ==> s[1] >= 0xA0) && (s[0] == 0xED ==> s[1] <= 0x9F) then 3
    else if 0xF0 <= s[0] <= 0xF4 && |s| >= 4 && Continuation(s[1]) && Continuation(s[2]) && Continuation(s[3])
            && (s[0] == 0xF0 ==> s[1] >= 0x90) && (s[0] == 0xF4 ==> s[1] <= 0x8F) then 4
    else 0
  }

  predicate ValidUtf8(s: seq<byte>)
    decreases |s|
  {
    s == [] || (CharLength(s) > 0 && ValidUtf8(s[CharLength(s)..]))
  }

  /** Whether a control character (U+0000 to U+001F, U+007F to U+009F) occurs. */
  predicate HasControl(s: seq<byte>)
    requires ValidUtf8(s)
    decreases |s|
  {
    s != [] && (s[0] < 0x20 || s[0] == 0x7F || (s[0] == 0xC2 && s[1] <= 0x9F) || HasControl(s[CharLength(s)..]))
  }

  function Ascii(s: string): seq<byte>
  {
    seq(|s|, i requires 0 <= i < |s| => (s[i] as int) % 0x80)
  }
}
