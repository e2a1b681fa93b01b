/** The attach request with its optional connection environment
    (crates/persist-ipc/src/protocol.rs). */
module AttachCodec {
  import opened Bytes
  import opened Text

  const ATTACH_CONTEXT_VERSION: byte := 1
  const MAX_CONNECTION_ENV_VARIABLES: nat := 8
  const MAX_CONNECTION_ENV_NAME: nat := 32
  const MAX_CONNECTION_ENV_VALUE: nat := 4096

  type Environment = map<seq<byte>, seq<byte>>

  datatype Pair = Pair(name: seq<byte>, value: seq<byte>)

  datatype Decoded = Decoded(session: nat, env: Environment)

  function AllowList(): set<seq<byte>>
  {
    {Ascii("COLORTERM"), Ascii("DISPLAY"), Ascii("SSH_AUTH_SOCK"), Ascii("SSH_CLIENT"),
     Ascii("SSH_CONNECTION"), Ascii("SSH_TTY"), Ascii("TERM"), Ascii("WAYLAND_DISPLAY")}
  }

  predicate ValidVariable(p: Pair)
  {
    && ValidUtf8(p.name) && ValidUtf8(p.value)
    && p.name in AllowList() && 0 < |p.name| <= MAX_CONNECTION_ENV_NAME
    && 0 < |p.value| <= MAX_CONNECTION_ENV_VALUE
    && !HasControl(p.value)
  }

  // ---- Building an environment ------------------------------------------------------------

  /** Insert one after another; too many, an inadmissible or a repeated name refuses the lot. */
  function FromPairs(pairs: seq<Pair>): Option<Environment>
  {
    if pairs == [] then Some(map[])
    else
      var last := pairs[|pairs| - 1];
      var env := FromPairs(pairs[..|pairs| - 1]);
      if env.None? || |env.value| >= MAX_CONNECTION_ENV_VARIABLES || !ValidVariable(last) || last.name in env.value
        then None
      else Some(env.value[last.name := last.value])
  }

  ghost predicate Distinct(pairs: seq<Pair>)
  {
    forall i, j :: 0 <= i < j < |pairs| ==> pairs[i].name != pairs[j].name
  }

  ghost predicate AllValid(pairs: seq<Pair>)
  {
    forall i :: 0 <= i < |pairs| ==> ValidVariable(pairs[i])
  }

  /** `pairs` lists the environment, each variable once, in whatever order. */
  ghost predicate Lists(pairs: seq<Pair>, env: Environment)
  {
    && Distinct(pairs)
    && (forall i :: 0 <= i < |pairs| ==> pairs[i].name in env && env[pairs[i].name] == pairs[i].value)
    && (forall name :: name in env ==> exists i :: 0 <= i < |pairs| && pairs[i].name == name)
  }

  lemma {:induction false} FromPairsMeaning(pairs: seq<Pair>)
    ensures FromPairs(pairs).Some? <==> |pairs| <= MAX_CONNECTION_ENV_VARIABLES && AllValid(pairs) && Distinct(pairs)
    ensures FromPairs(pairs).Some? ==> |FromPairs(pairs).value| == |pairs| && Lists(pairs, FromPairs(pairs).value)
  {
    if pairs == [] {
      hide ValidVariable;
    } else {
      hide *;
      var init := pairs[..|pairs| - 1];
      var last := pairs[|pairs| - 1];
      FromPairsMeaning(init);
      SplitLast(pairs);
      FromPairsLast(pairs);
      if FromPairs(init).Some? {
        ListsLast(pairs, FromPairs(init).value);
      }
    }
  }

  lemma ListsLast(pairs: seq<Pair>, env: Environment)
    requires pairs != [] && Lists(pairs[..|pairs| - 1], env)
    ensures var last := pairs[|pairs| - 1];
            && (last.name in env <==> Mentions(pairs[..|pairs| - 1], last.name))
            && (last.name !in env ==> Lists(pairs, env[last.name := last.value]))
  {
    hide Lists;
    var init := pairs[..|pairs| - 1];
    var last := pairs[|pairs| - 1];
    NameTaken(init, last, env);
    if last.name !in env {
      ListsOneMore(init, last, env);
      assert init + [last] == pairs;
    }
  }

  lemma FromPairsLast(pairs: seq<Pair>)
    requires pairs != []
    ensures var init := FromPairs(pairs[..|pairs| - 1]);
            var last := pairs[|pairs| - 1];
            && (FromPairs(pairs).Some? <==> init.Some? && |init.value| < MAX_CONNECTION_ENV_VARIABLES
                                            && ValidVariable(last) && last.name !in init.value)
            && (FromPairs(pairs).Some? ==> FromPairs(pairs).value == init.value[last.name := last.value]
                                           && |FromPairs(pairs).value| == |init.value| + 1)
  {
    hide ValidVariable;
  }

  lemma SplitLast(pairs: seq<Pair>)
    requires pairs != []
    ensures var init := pairs[..|pairs| - 1];
            var last := pairs[|pairs| - 1];
            && (AllValid(pairs) <==> AllValid(init) && ValidVariable(last))
            && (Distinct(pairs) <==> Distinct(init) && !Mentions(init, last.name))
  {
    hide ValidVariable;
    var init := pairs[..|pairs| - 1];
    assert forall i :: 0 <= i < |init| ==> init[i] == pairs[i];
  }

  predicate Mentions(pairs: seq<Pair>, name: seq<byte>)
  {
    exists i :: 0 <= i < |pairs| && pairs[i].name == name
  }

  lemma NameTaken(pairs: seq<Pair>, last: Pair, env: Environment)
    requires Lists(pairs, env)
    ensures last.name in env <==> Mentions(pairs, last.name)
  {
  }

  lemma ListsOneMore(pairs: seq<Pair>, last: Pair, env: Environment)
    requires Lists(pairs, env) && last.name !in env
    ensures Lists(pairs + [last], env[last.name := last.value])
  {
    var all := pairs + [last];
    var more := env[last.name := last.value];
    forall name | name in more ensures exists i :: 0 <= i < |all| && all[i].name == name {
      if name in env {
        var i :| 0 <= i < |pairs| && pairs[i].name == name;
        assert all[i].name == name;
      } else {
        assert all[|pairs|].name == name;
      }
    }
    forall i, j | 0 <= i < j < |all| ensures all[i].name != all[j].name {
      if j == |pairs| {
        assert pairs[i].name in env;
      }
    }
  }

  lemma ListingDetermines(pairs: seq<Pair>, a: Environment, b: Environment)
    requires Lists(pairs, a) && Lists(pairs, b)
    ensures a == b
  {
    forall name
      ensures name in a <==> name in b
      ensures name in a ==> a[name] == b[name]
    {
      if name in a {
        var i :| 0 <= i < |pairs| && pairs[i].name == name;
        assert pairs[i].name in b;
      }
      if name in b {
        var i :| 0 <= i < |pairs| && pairs[i].name == name;
        assert pairs[i].name in a;
      }
    }
  }

  // ---- The wire form --------------------------------------------------------------------

  function EncodePair(p: Pair): seq<byte>
  {
    [|p.name| % 0x100] + p.name + U16Bytes(|p.value|) + p.value
  }

  function EncodePairs(pairs: seq<Pair>): seq<byte>
  {
    if pairs == [] then [] else EncodePair(pairs[0]) + EncodePairs(pairs[1..])
  }

  function EncodeAttach(session: nat, pairs: seq<Pair>): seq<byte>
  {
    U32Bytes(session) + [ATTACH_CONTEXT_VERSION, |pairs| % 0x100] + EncodePairs(pairs)
  }

  function DecodePair(b: seq<byte>): (res: Option<(Pair, nat)>)
    ensures res.Some? ==> 3 <= res.value.1 <= |b|
  {
    if |b| < 1 then None
    else
      var nameLen: nat := b[0];
      if |b| < 1 + nameLen || !ValidUtf8(b[1..1 + nameLen]) then None
      else if |b| < 1 + nameLen + 2 then None
      else
        var at := 3 + nameLen;
        var valueLen := FromBigEndian(b[1 + nameLen..at]);
        if |b| < at + valueLen || !ValidUtf8(b[at..at + valueLen]) then None
        else Some((Pair(b[1..1 + nameLen], b[at..at + valueLen]), at + valueLen))
  }

  function DecodePairs(b: seq<byte>, count: nat): Option<(seq<Pair>, seq<byte>)>
    decreases count
  {
    if count == 0 then Some(([], b))
    else
      var first := DecodePair(b);
      if first.None? then None
      else
        var later := DecodePairs(b[first.value.1..], count - 1);
        if later.None? then None else Some(([first.value.0] + later.value.0, later.value.1))
  }

  function DecodeAttach(b: seq<byte>): Option<Decoded>
  {
    if |b| < 4 then None
    else
      var session := FromBigEndian(b[0..4]);
      if |b| == 4 then Some(Decoded(session, map[]))
      else if |b| < 6 || b[4] != ATTACH_CONTEXT_VERSION || b[5] > MAX_CONNECTION_ENV_VARIABLES then None
      else
        var pairs := DecodePairs(b[6..], b[5]);
        if pairs.None? || pairs.value.1 != [] then None
        else
          var env := FromPairs(pairs.value.0);
          if env.None? then None else Some(Decoded(session, env.value))
  }

  lemma PairFields(p: Pair, rest: seq<byte>)
    requires |p.name| < 0x100 && |p.value| < U16
    ensures var b := EncodePair(p) + rest;
            var at := 3 + |p.name|;
            && |EncodePair(p)| == at + |p.value|
            && b[0] == |p.name| && b[1..1 + |p.name|] == p.name
            && FromBigEndian(b[1 + |p.name|..at]) == |p.value|
            && b[at..at + |p.value|] == p.value && b[at + |p.value|..] == rest
  {
    U16RoundTrip(|p.value|);
    var b := EncodePair(p) + rest;
    hide FromBigEndian, BigEndian;
    assert b[1 + |p.name|..3 + |p.name|] == U16Bytes(|p.value|);
  }

  lemma ValidSizes(p: Pair)
    requires ValidVariable(p)
    ensures |p.name| <= MAX_CONNECTION_ENV_NAME && |p.value| <= MAX_CONNECTION_ENV_VALUE
    ensures ValidUtf8(p.name) && ValidUtf8(p.value)
  {
    hide AllowList, ValidUtf8, HasControl;
  }

  lemma DecodeEncodedPair(p: Pair, rest: seq<byte>)
    requires ValidVariable(p)
    ensures DecodePair(EncodePair(p) + rest) == Some((p, |EncodePair(p)|))
  {
    hide EncodePair, FromBigEndian, ValidUtf8, ValidVariable;
    ValidSizes(p);
    PairFields(p, rest);
  }

  lemma {:induction false} DecodeEncodedPairs(pairs: seq<Pair>, rest: seq<byte>)
    requires AllValid(pairs)
    ensures DecodePairs(EncodePairs(pairs) + rest, |pairs|) == Some((pairs, rest))
    decreases |pairs|
  {
    if pairs == [] {
      assert [] + rest == rest;
    } else {
      hide *;
      PairsSplit(pairs, rest);
      var later := EncodePairs(pairs[1..]) + rest;
      DecodeEncodedPair(pairs[0], later);
      DecodeEncodedPairs(pairs[1..], rest);
      FirstAndLater(EncodePair(pairs[0]), later, pairs[0], pairs[1..], rest);
    }
  }

  lemma PairsSplit(pairs: seq<Pair>, rest: seq<byte>)
    requires pairs != [] && AllValid(pairs)
    ensures EncodePairs(pairs) + rest == EncodePair(pairs[0]) + (EncodePairs(pairs[1..]) + rest)
    ensures ValidVariable(pairs[0]) && AllValid(pairs[1..]) && [pairs[0]] + pairs[1..] == pairs
  {
    hide EncodePair, ValidVariable;
    Associate(EncodePair(pairs[0]), EncodePairs(pairs[1..]), rest);
  }

  lemma FirstAndLater(first: seq<byte>, later: seq<byte>, p: Pair, ps: seq<Pair>, rest: seq<byte>)
    requires DecodePair(first + later) == Some((p, |first|)) && DecodePairs(later, |ps|) == Some((ps, rest))
    ensures DecodePairs(first + later, |ps| + 1) == Some(([p] + ps, rest))
  {
    hide DecodePair;
    assert (first + later)[|first|..] == later;
  }

  /** Whatever order the variables are written in, the environment comes back. */
  lemma RoundTrip(session: nat, env: Environment, pairs: seq<Pair>)
    requires session < U32 && |pairs| <= MAX_CONNECTION_ENV_VARIABLES && AllValid(pairs) && Lists(pairs, env)
    ensures DecodeAttach(EncodeAttach(session, pairs)) == Some(Decoded(session, env))
  {
    hide FromBigEndian, BigEndian, EncodePairs, DecodePairs, FromPairs, AllValid, Lists;
    var b := EncodeAttach(session, pairs);
    U32RoundTrip(session);
    DecodeEncodedPairs(pairs, []);
    FromPairsMeaning(pairs);
    ListedIsDistinct(pairs, env);
    ListingDetermines(pairs, env, FromPairs(pairs).value);
    AttachFields(session, pairs, |b|);
    assert EncodePairs(pairs) + [] == EncodePairs(pairs);
  }

  lemma ListedIsDistinct(pairs: seq<Pair>, env: Environment)
    requires Lists(pairs, env)
    ensures Distinct(pairs)
  {
  }

  /** The fields of a request cut off after `k` bytes. */
  lemma AttachFields(session: nat, pairs: seq<Pair>, k: nat)
    requires k <= |EncodeAttach(session, pairs)| && |pairs| <= MAX_CONNECTION_ENV_VARIABLES
    ensures |EncodeAttach(session, pairs)| == 6 + |EncodePairs(pairs)|
    ensures var c := EncodeAttach(session, pairs)[..k];
            && (k >= 4 ==> c[0..4] == U32Bytes(session))
            && (k >= 6 ==> c[4] == ATTACH_CONTEXT_VERSION && c[5] == |pairs| && c[6..] == EncodePairs(pairs)[..k - 6])
    ensures EncodeAttach(session, pairs)[..|EncodeAttach(session, pairs)|] == EncodeAttach(session, pairs)
    ensures EncodePairs(pairs)[..|EncodePairs(pairs)|] == EncodePairs(pairs)
  {
    hide BigEndian, EncodePairs;
  }

  // ---- Truncation --------------------------------------------------------------------------

  lemma PrefixOfPair(p: Pair, k: nat)
    requires ValidVariable(p) && k < |EncodePair(p)|
    ensures DecodePair(EncodePair(p)[..k]) == None
  {
    hide EncodePair, FromBigEndian, ValidUtf8, ValidVariable;
    var b := EncodePair(p);
    ValidSizes(p);
    PairFields(p, []);
    assert b + [] == b;
    var c := b[..k];
    if k >= 3 + |p.name| {
      assert c[1 + |p.name|..3 + |p.name|] == b[1 + |p.name|..3 + |p.name|];
    }
  }

  lemma CutTwo(a: seq<byte>, b: seq<byte>, k: nat)
    requires k < |a| + |b|
    ensures k < |a| ==> (a + b)[..k] == a[..k]
    ensures k >= |a| ==> (a + b)[..k] == a + b[..k - |a|] && (a + b)[..k][|a|..] == b[..k - |a|]
  {
  }

  /** A list fails to decode when its first variable does, or when what is behind it does. */
  lemma FirstFails(b: seq<byte>, count: nat)
    requires count > 0
    ensures DecodePair(b) == None ==> DecodePairs(b, count) == None
    ensures DecodePair(b).Some? && DecodePairs(b[DecodePair(b).value.1..], count - 1) == None ==>
              DecodePairs(b, count) == None
  {
    hide DecodePair;
  }

  lemma CutInFirst(p: Pair, later: seq<byte>, count: nat, k: nat)
    requires ValidVariable(p) && count > 0 && k < |EncodePair(p)|
    ensures DecodePairs((EncodePair(p) + later)[..k], count) == None
  {
    hide EncodePair, DecodePair, ValidVariable, DecodePairs;
    CutTwo(EncodePair(p), later, k);
    FirstFails((EncodePair(p) + later)[..k], count);
    PrefixOfPair(p, k);
  }

  lemma CutBehindFirst(p: Pair, later: seq<byte>, count: nat, k: nat)
    requires ValidVariable(p) && count > 0 && |EncodePair(p)| <= k < |EncodePair(p)| + |later|
    requires DecodePairs(later[..k - |EncodePair(p)|], count - 1) == None
    ensures DecodePairs((EncodePair(p) + later)[..k], count) == None
  {
    hide EncodePair, DecodePair, ValidVariable, DecodePairs;
    CutTwo(EncodePair(p), later, k);
    FirstFails((EncodePair(p) + later)[..k], count);
    DecodeEncodedPair(p, later[..k - |EncodePair(p)|]);
  }

  lemma {:induction false} PrefixOfPairs(pairs: seq<Pair>, k: nat)
    requires AllValid(pairs) && k < |EncodePairs(pairs)|
    ensures DecodePairs(EncodePairs(pairs)[..k], |pairs|) == None
    decreases |pairs|
  {
    hide EncodePair, ValidVariable, DecodePairs;
    assert pairs != [] by { hide AllValid; }
    var first := EncodePair(pairs[0]);
    var later := EncodePairs(pairs[1..]);
    assert ValidVariable(pairs[0]) && AllValid(pairs[1..]) by { hide EncodePairs; }
    assert EncodePairs(pairs) == first + later by { hide AllValid; }
    hide AllValid, EncodePairs;
    if k < |first| {
      CutInFirst(pairs[0], later, |pairs|, k);
    } else {
      PrefixOfPairs(pairs[1..], k - |first|);
      CutBehindFirst(pairs[0], later, |pairs|, k);
    }
  }

  /** A request cut short anywhere is refused, with one exception: cut right behind the session id
      it is a request without an environment. */
  lemma TruncationIsNoticed(session: nat, pairs: seq<Pair>, k: nat)
    requires session < U32 && |pairs| <= MAX_CONNECTION_ENV_VARIABLES && AllValid(pairs)
    requires k < |EncodeAttach(session, pairs)|
    ensures DecodeAttach(EncodeAttach(session, pairs)[..k]) == if k == 4 then Some(Decoded(session, map[])) else None
  {
    hide FromBigEndian, BigEndian, EncodeAttach, EncodePairs, DecodePairs, FromPairs, AllValid;
    U32RoundTrip(session);
    AttachFields(session, pairs, k);
    if k >= 6 {
      PrefixOfPairs(pairs, k - 6);
    }
  }

  // ---- The loops -----------------------------------------------------------------------------

  method EncodeWithContext(session: nat, pairs: seq<Pair>) returns (output: seq<byte>)
    ensures output == EncodeAttach(session, pairs)
  {
    output := U32Bytes(session);
    output := output + [ATTACH_CONTEXT_VERSION];
    output := output + [|pairs| % 0x100];
    ghost var head := output;
    hide BigEndian;
    assert output == head + EncodePairs(pairs[..0]);
    for i := 0 to |pairs|
      invariant output == head + EncodePairs(pairs[..i])
    {
      EncodeOneMore(pairs, i);
      var p := pairs[i];
      ghost var before := output;
      output := output + [|p.name| % 0x100];
      output := output + p.name;
      output := output + U16Bytes(|p.value|);
      output := output + p.value;
      assert output == before + EncodePair(p);
      Associate(head, EncodePairs(pairs[..i]), EncodePair(p));
    }
    assert pairs[..|pairs|] == pairs;
  }

  lemma {:induction false} EncodeOneMore(pairs: seq<Pair>, i: nat)
    requires i < |pairs|
    ensures EncodePairs(pairs[..i + 1]) == EncodePairs(pairs[..i]) + EncodePair(pairs[i])
    decreases i
  {
    hide EncodePair;
    if i == 0 {
      assert pairs[..1][1..] == [];
      assert EncodePair(pairs[0]) + [] == [] + EncodePair(pairs[0]);
    } else {
      EncodeOneMore(pairs[1..], i - 1);
      assert pairs[..i + 1][1..] == pairs[1..][..i] && pairs[..i][1..] == pairs[1..][..i - 1];
      Associate(EncodePair(pairs[0]), EncodePairs(pairs[1..][..i - 1]), EncodePair(pairs[i]));
    }
  }

  /** The decoder's loop over an offset. */
  method Decode(data: seq<byte>) returns (res: Option<Decoded>)
    ensures res == DecodeAttach(data)
  {
    hide FromBigEndian, DecodePairs, FromPairs;
    if |data| < 4 {
      return None;
    }
    var session := FromBigEndian(data[0..4]);
    if |data| == 4 {
      return Some(Decoded(session, map[]));
    }
    if |data| < 6 || data[4] != ATTACH_CONTEXT_VERSION {
      return None;
    }
    var count := data[5];
    if count > MAX_CONNECTION_ENV_VARIABLES {
      return None;
    }
    var pairs := DecodeVariables(data, count);
    if pairs.None? {
      return None;
    }
    var env := FromPairs(pairs.value);
    res := if env.None? then None else Some(Decoded(session, env.value));
  }

  /** Exactly `count` variables, and nothing behind them. */
  method DecodeVariables(data: seq<byte>, count: nat) returns (res: Option<seq<Pair>>)
    requires |data| >= 6
    ensures var all := DecodePairs(data[6..], count);
            res == if all.None? || all.value.1 != [] then None else Some(all.value.0)
  {
    var offset := 6;
    var pairs: seq<Pair> := [];
    hide DecodePair, Halfway, DecodePairs;
    StartOfPairs(data, count);
    for i := 0 to count
      invariant 6 <= offset <= |data|
      invariant Halfway(data, count, pairs, offset, i)
    {
      var pair := DecodePair(data[offset..]);
      NextPair(data, count, pairs, offset, i);
      if pair.None? {
        return None;
      }
      pairs := pairs + [pair.value.0];
      offset := offset + pair.value.1;
    }
    EndOfPairs(data, count, pairs, offset);
    res := if offset != |data| then None else Some(pairs);
  }

  ghost predicate Halfway(data: seq<byte>, count: nat, pairs: seq<Pair>, offset: nat, i: nat)
    requires 6 <= offset <= |data| && i <= count
  {
    DecodePairs(data[6..], count) == var later := DecodePairs(data[offset..], count - i);
                                     if later.None? then None else Some((pairs + later.value.0, later.value.1))
  }

  lemma StartOfPairs(data: seq<byte>, count: nat)
    requires |data| >= 6
    ensures Halfway(data, count, [], 6, 0)
  {
    var all := DecodePairs(data[6..], count);
    if all.Some? {
      assert [] + all.value.0 == all.value.0;
    }
  }

  lemma EndOfPairs(data: seq<byte>, count: nat, pairs: seq<Pair>, offset: nat)
    requires 6 <= offset <= |data| && Halfway(data, count, pairs, offset, count)
    ensures DecodePairs(data[6..], count) == Some((pairs, data[offset..]))
  {
    assert pairs + [] == pairs;
  }

  lemma NextPair(data: seq<byte>, count: nat, pairs: seq<Pair>, offset: nat, i: nat)
    requires 6 <= offset <= |data| && i < count && Halfway(data, count, pairs, offset, i)
    ensures var pair := DecodePair(data[offset..]);
            if pair.None? then DecodePairs(data[6..], count) == None
            else offset + pair.value.1 <= |data| && Halfway(data, count, pairs + [pair.value.0], offset + pair.value.1,
              i + 1)
  {
    hide DecodePair;
    var pair := DecodePair(data[offset..]);
    if pair.Some? {
      var n := pair.value.1;
      assert data[offset..][n..] == data[offset + n..];
      var later := DecodePairs(data[offset + n..], count - i - 1);
      if later.Some? {
        Associate(pairs, [pair.value.0], later.value.0);
      }
    }
  }
}
