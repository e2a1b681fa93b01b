/** The fixed-size replay buffer (crates/persist-core/src/ringbuf.rs). */
module RingBuffers {
  import opened Bytes

  function Window(cells: seq<byte>, pos: nat, filled: bool): (s: seq<byte>)
    requires pos <= |cells|
  {
    if filled then cells[pos..] + cells[..pos] else cells[..pos]
  }

  /** Overwriting a stretch at the write position slides the window over the new bytes. */
  lemma PieceShiftsWindow(cells: seq<byte>, pos: nat, filled: bool, piece: seq<byte>)
    requires pos < |cells| && 0 < |piece| <= |cells| - pos
    ensures
      var after := cells[..pos] + piece + cells[pos + |piece|..];
      var end := pos + |piece|;
      Window(after, if end == |cells| then 0 else end, filled || end == |cells|)
      == LastN(Window(cells, pos, filled) + piece, |cells|)
  {
    var end := pos + |piece|;
    var after := cells[..pos] + piece + cells[end..];
    assert after[..end] == cells[..pos] + piece && after[end..] == cells[end..];
    if filled {
      FullWindow(cells, pos, piece);
    }
    if end == |cells| {
      assert after == cells[..pos] + piece;
      assert Window(after, 0, true) == after;
    }
  }

  /** In a full buffer the bytes about to be overwritten are exactly the ones that fall out. */
  lemma FullWindow(cells: seq<byte>, pos: nat, piece: seq<byte>)
    requires pos < |cells| && 0 < |piece| <= |cells| - pos
    ensures LastN(cells[pos..] + cells[..pos] + piece, |cells|) == cells[pos + |piece|..] + (cells[..pos] + piece)
  {
    var end := pos + |piece|;
    assert cells[pos..] == cells[pos..end] + cells[end..];
    assert cells[pos..] + cells[..pos] + piece == cells[pos..end] + (cells[end..] + (cells[..pos] + piece));
  }

  /** The window after the first `done` bytes of `data`. */
  function Upto(start: seq<byte>, data: seq<byte>, done: nat, capacity: nat): seq<byte>
    requires done <= |data|
  {
    LastN(start + data[..done], capacity)
  }

  lemma PrefixGrows<T>(start: seq<T>, data: seq<T>, done: nat, count: nat)
    requires done + count <= |data|
    ensures start + data[..done] + data[done..done + count] == start + data[..done + count]
  {
  }

  lemma WindowOfPrefix(start: seq<byte>, data: seq<byte>, done: nat, count: nat, capacity: nat)
    requires done + count <= |data|
    ensures LastN(Upto(start, data, done, capacity) + data[done..done + count], capacity)
         == Upto(start, data, done + count, capacity)
  {
    PrefixGrows(start, data, done, count);
    hide LastN;
    LastNAbsorbs(start + data[..done], data[done..done + count], capacity);
  }

  lemma WindowOfNothing(start: seq<byte>, data: seq<byte>, capacity: nat)
    requires |start| <= capacity
    ensures Upto(start, data, 0, capacity) == start
  {
    assert start + data[..0] == start;
  }

  lemma WindowOfAll(start: seq<byte>, data: seq<byte>, capacity: nat)
    ensures Upto(start, data, |data|, capacity) == LastN(start + data, capacity)
  {
    assert data[..|data|] == data;
  }

  class RingBuffer {
    const buffer: array<byte>
    const capacity: nat
    var writePos: nat
    var filled: bool

    ghost predicate Valid()
      reads this
    {
      capacity > 0 && buffer.Length == capacity && writePos < capacity
    }

    /** What a reader sees, oldest byte first. */
    ghost function Contents(): (s: seq<byte>)
      requires Valid()
      reads this, buffer
      ensures |s| <= capacity
    {
      Window(buffer[..], writePos, filled)
    }

    constructor (capacity: nat)
      requires capacity > 0
      ensures Valid() && fresh(buffer) && this.capacity == capacity && Contents() == []
    {
      this.capacity := capacity;
      buffer := new byte[capacity](_ => 0);
      writePos := 0;
      filled := false;
    }

    /** Whatever the chunking and wrap-around, the buffer holds exactly the last
        `capacity` bytes of everything written. */
    method Write(data: seq<byte>)
      requires Valid()
      modifies this, buffer
      ensures Valid()
      ensures Contents() == LastN(old(Contents()) + data, capacity)
    {
      if data == [] {
        WindowOfAll(Contents(), data, capacity);
        WindowOfNothing(Contents(), data, capacity);
        return;
      }
      ghost var start := Contents();
      var done := 0;
      hide Window, LastN, Upto;
      WindowOfNothing(start, data, capacity);
      while done < |data|
        invariant Valid() && done <= |data|
        invariant Contents() == Upto(start, data, done, capacity)
      {
        var next := WriteSome(data, done);
        WindowOfPrefix(start, data, done, next - done, capacity);
        done := next;
      }
      assert done == |data|;
      WindowOfAll(start, data, capacity);
    }

    /** One turn of the write loop: as much as fits before the end of the array. */
    method WriteSome(data: seq<byte>, done: nat) returns (next: nat)
      requires Valid() && done < |data|
      modifies this, buffer
      ensures Valid() && done < next <= |data|
      ensures Contents() == LastN(old(Contents()) + data[done..next], capacity)
    {
      next := done + Min(|data| - done, capacity - writePos);
      CopyPiece(data[done..next]);
    }

    /** Copies up to the end of the array, then wraps. */
    method CopyPiece(piece: seq<byte>)
      requires Valid() && 0 < |piece| <= capacity - writePos
      modifies this, buffer
      ensures Valid()
      ensures Contents() == LastN(old(Contents()) + piece, capacity)
    {
      ghost var before := buffer[..];
      PieceShiftsWindow(before, writePos, filled, piece);
      hide LastN, Window;
      Overwrite(piece);
      writePos := writePos + |piece|;
      if writePos >= capacity {
        writePos := 0;
        filled := true;
      }
    }

    method Overwrite(piece: seq<byte>)
      requires Valid() && |piece| <= capacity - writePos
      modifies buffer
      ensures buffer[..] == old(buffer[..])[..writePos] + piece + old(buffer[..])[writePos + |piece|..]
    {
      forall i | 0 <= i < |piece| {
        buffer[writePos + i] := piece[i];
      }
    }

    method Len() returns (n: nat)
      requires Valid()
      ensures n == |Contents()|
    {
      n := if filled then capacity else writePos;
    }

    method ReadAll() returns (out: seq<byte>)
      requires Valid()
      ensures out == Contents()
    {
      out := [];
      if filled {
        out := out + buffer[writePos..];
      }
      out := out + buffer[..writePos];
    }

    method ReadReplay(maxBytes: nat) returns (out: seq<byte>)
      requires Valid()
      ensures out == LastN(Contents(), maxBytes)
    {
      var total := Len();
      if total == 0 {
        return [];
      }
      var skip := Max(0, total - maxBytes);
      var data := ReadAll();
      out := data[skip..];
    }
  }

  /** What the buffer holds after a run of writes. */
  function AfterWrites(contents: seq<byte>, capacity: nat, writes: seq<seq<byte>>): (r: seq<byte>)
    decreases |writes|
  {
    if writes == [] then contents
    else AfterWrites(LastN(contents + writes[0], capacity), capacity, writes[1..])
  }

  /** A replay after any run of writes is a suffix of the whole stream: the last
      `min(maxBytes, capacity, stream length)` bytes of it. */
  lemma {:induction false} ReplayIsStreamTail(contents: seq<byte>, capacity: nat, writes: seq<seq<byte>>, maxBytes: nat)
    requires |contents| <= capacity
    ensures AfterWrites(contents, capacity, writes) == LastN(contents + Concat(writes), capacity)
    ensures LastN(AfterWrites(contents, capacity, writes), maxBytes)
         == LastN(contents + Concat(writes), Min(maxBytes, capacity))
    decreases |writes|
  {
    LastOfLast(contents + Concat(writes), capacity, maxBytes);
    if writes == [] {
      assert contents + Concat(writes) == contents;
    } else {
      var first := contents + writes[0];
      assert Concat(writes) == writes[0] + Concat(writes[1..]);
      hide Concat, LastN;
      ReplayIsStreamTail(LastN(first, capacity), capacity, writes[1..], maxBytes);
      LastNAbsorbs(first, Concat(writes[1..]), capacity);
      Associate(contents, writes[0], Concat(writes[1..]));
    }
  }

  lemma LastOfLast(s: seq<byte>, m: nat, n: nat)
    ensures LastN(LastN(s, m), n) == LastN(s, Min(n, m))
  {
  }
}
