/** net/Buffer: a byte queue in one vector, with compaction, growth, prepend and the
    two-segment readFd.  `Contents` is the plain byte sequence every operation refines,
    `Geometry` is what the memory bound speaks about. */
module Buffers {
  import opened Bytes

  const CHEAP_PREPEND: nat := 8
  const INITIAL_SIZE: nat := 1024
  const EXTRA_SIZE: nat := 65536

  datatype Geometry = Geometry(size: nat, reader: nat, writer: nat) {
    predicate Ok() { reader <= writer <= size && CHEAP_PREPEND <= size }
    function Readable(): int { writer - reader }
    function Writable(): int { size - writer }
  }

  function MadeSpace(g: Geometry, len: nat): Geometry
    requires g.Ok()
  {
    if g.Writable() + g.reader < len + CHEAP_PREPEND then g.(size := g.writer + len)
    else g.(reader := CHEAP_PREPEND, writer := CHEAP_PREPEND + g.Readable())
  }

  function Ensured(g: Geometry, len: nat): (g': Geometry)
    requires g.Ok()
    ensures g'.Ok() && g'.Writable() >= len && g'.Readable() == g.Readable()
  {
    if g.Writable() < len then MadeSpace(g, len) else g
  }

  function Appended(g: Geometry, len: nat): Geometry
    requires g.Ok()
  {
    var g' := Ensured(g, len); g'.(writer := g'.writer + len)
  }

  function Retrieved(g: Geometry, len: nat): Geometry
    requires g.Ok() && len <= g.Readable()
  {
    if len < g.Readable() then g.(reader := g.reader + len)
    else g.(reader := CHEAP_PREPEND, writer := CHEAP_PREPEND)
  }

  // What readv(2) may deliver: the spare bytes, and extrabuf when they are fewer than it.
  function ReadLimit(g: Geometry): int {
    if g.Writable() < EXTRA_SIZE then g.Writable() + EXTRA_SIZE else g.Writable()
  }

  function ReadInto(g: Geometry, n: nat): Geometry
    requires g.Ok()
  {
    if n <= g.Writable() then g.(writer := g.writer + n)
    else Appended(g.(writer := g.size), n - g.Writable())
  }

  class Buffer {
    var buffer: array<Byte>
    var readerIndex: nat
    var writerIndex: nat

    ghost predicate Valid()
      reads this
    {
      readerIndex <= writerIndex <= buffer.Length && CHEAP_PREPEND <= buffer.Length
    }

    ghost function Contents(): seq<Byte>
      reads this, buffer
      requires Valid()
    {
      buffer[readerIndex..writerIndex]
    }

    ghost function Shape(): Geometry
      reads this
    {
      Geometry(buffer.Length, readerIndex, writerIndex)
    }

    constructor (initialSize: nat)
      ensures Valid() && fresh(buffer) && Contents() == []
      ensures Shape() == Geometry(8 + initialSize, 8, 8)
    {
      buffer := new Byte[CHEAP_PREPEND + initialSize](_ => 0);
      readerIndex, writerIndex := CHEAP_PREPEND, CHEAP_PREPEND;
    }

    method ReadableBytes() returns (n: nat)
      requires Valid()
      ensures n == |Contents()|
    {
      n := writerIndex - readerIndex;
    }

    method Retrieve(len: nat)
      requires Valid() && len <= |Contents()|
      modifies this`readerIndex, this`writerIndex
      ensures Valid() && Contents() == old(Contents())[len..]
      ensures Shape() == Retrieved(old(Shape()), len)
      ensures readerIndex == if Contents() == [] then 8 else old(readerIndex) + len
    {
      if len < writerIndex - readerIndex {
        readerIndex := readerIndex + len;
      } else {
        RetrieveAll();
      }
    }

    method RetrieveAll()
      requires Valid()
      modifies this`readerIndex, this`writerIndex
      ensures Valid() && Contents() == []
      ensures Shape() == old(Shape()).(reader := 8, writer := 8)
    {
      readerIndex, writerIndex := CHEAP_PREPEND, CHEAP_PREPEND;
    }

    method RetrieveAsString(len: nat) returns (s: seq<Byte>)
      requires Valid() && len <= |Contents()|
      modifies this`readerIndex, this`writerIndex
      ensures Valid() && s + Contents() == old(Contents()) && |s| == len
      ensures Shape() == Retrieved(old(Shape()), len)
    {
      s := buffer[readerIndex..readerIndex + len];
      Retrieve(len);
    }

    // Forward copy over an overlapping range, as std::copy does in makeSpace.
    method MoveDown(from: nat, to: nat, n: nat)
      requires to <= from && from + n <= buffer.Length
      modifies buffer
      ensures buffer[to..to + n] == old(buffer[from..from + n])
    {
      ghost var was := buffer[..];
      var i := 0;
      while i < n
        invariant i <= n
        invariant forall j :: to <= j < to + i ==> buffer[j] == was[j - to + from]
        invariant forall j :: to + i <= j < buffer.Length ==> buffer[j] == was[j]
      {
        buffer[to + i] := buffer[from + i];
        i := i + 1;
      }
    }

    // vector::resize to a larger size
    method Resize(size: nat)
      requires Valid() && buffer.Length <= size
      modifies this`buffer
      ensures Valid() && fresh(buffer) && buffer.Length == size
      ensures forall k :: 0 <= k < old(buffer.Length) ==> buffer[k] == old(buffer[k])
    {
      var bigger := new Byte[size](_ => 0);
      var data := buffer;
      var i := 0;
      while i < data.Length
        invariant i <= data.Length && buffer == data
        invariant forall k :: 0 <= k < i ==> bigger[k] == data[k]
      {
        bigger[i] := data[i];
        i := i + 1;
      }
      buffer := bigger;
    }

    method MakeSpace(len: nat)
      requires Valid() && Shape().Writable() < len
      modifies this, buffer
      ensures Valid() && Contents() == old(Contents()) && Shape() == MadeSpace(old(Shape()), len)
      ensures buffer == old(buffer) || fresh(buffer)
      // grown behind the writer when moving the contents would not make the space
      ensures if old(buffer.Length - writerIndex + readerIndex) < len + 8 then
                buffer.Length == old(writerIndex) + len && readerIndex == old(readerIndex)
              else
                buffer == old(buffer) && readerIndex == 8
    {
      if buffer.Length - writerIndex + readerIndex < len + CHEAP_PREPEND {
        Resize(writerIndex + len);
      } else {
        assert CHEAP_PREPEND < readerIndex;      // the source's assertion
        var readable := writerIndex - readerIndex;
        MoveDown(readerIndex, CHEAP_PREPEND, readable);
        readerIndex := CHEAP_PREPEND;
        writerIndex := readerIndex + readable;
      }
    }

    method EnsureWritableBytes(len: nat)
      requires Valid()
      modifies this, buffer
      ensures Valid() && Contents() == old(Contents()) && Shape() == Ensured(old(Shape()), len)
      ensures buffer == old(buffer) || fresh(buffer)
      ensures len <= buffer.Length - writerIndex
      ensures len <= old(buffer.Length - writerIndex) ==> buffer == old(buffer) && readerIndex == old(readerIndex)
    {
      if buffer.Length - writerIndex < len {
        MakeSpace(len);
      }
    }

    // std::copy of data to the given offset
    method CopyIn(at: nat, data: seq<Byte>)
      requires at + |data| <= buffer.Length
      modifies buffer
      ensures buffer[..] == old(buffer[..at]) + data + old(buffer[at + |data|..])
    {
      var i := 0;
      while i < |data|
        invariant i <= |data|
        invariant forall k :: 0 <= k < buffer.Length ==>
                    buffer[k] == if at <= k < at + i then data[k - at] else old(buffer[k])
      {
        buffer[at + i] := data[i];
        i := i + 1;
      }
    }

    // Bytes put straight into the spare space, then hasWritten.
    method Fill(data: seq<Byte>)
      requires Valid() && |data| <= Shape().Writable()
      modifies this`writerIndex, buffer
      ensures Valid() && Contents() == old(Contents()) + data
      ensures Shape() == old(Shape()).(writer := old(writerIndex) + |data|)
    {
      ghost var was, r, w := buffer[..], readerIndex, writerIndex;
      CopyIn(writerIndex, data);
      writerIndex := writerIndex + |data|;
      Overlay(was, buffer[..], w, data);
      assert buffer[r..w] == buffer[..][r..w] == was[r..w];
      assert buffer[w..writerIndex] == buffer[..][w..writerIndex] == data;
    }

    method Append(data: seq<Byte>)
      requires Valid()
      modifies this, buffer
      ensures Valid() && Contents() == old(Contents()) + data
      ensures Shape() == Appended(old(Shape()), |data|)
      ensures buffer == old(buffer) || fresh(buffer)
    {
      EnsureWritableBytes(|data|);
      Fill(data);
    }

    method Unwrite(len: nat)
      requires Valid() && len <= |Contents()|
      modifies this`writerIndex
      ensures Valid() && Contents() == old(Contents())[..|old(Contents())| - len]
      ensures Shape() == old(Shape()).(writer := old(writerIndex) - len)
    {
      writerIndex := writerIndex - len;
    }

    method Prepend(data: seq<Byte>)
      requires Valid() && |data| <= Shape().reader
      modifies this`readerIndex, buffer
      ensures Valid() && Contents() == data + old(Contents())
      ensures Shape() == old(Shape()).(reader := old(readerIndex) - |data|)
    {
      ghost var was, r, w := buffer[..], readerIndex, writerIndex;
      readerIndex := readerIndex - |data|;
      CopyIn(readerIndex, data);
      Overlay(was, buffer[..], readerIndex, data);
      assert buffer[readerIndex..r] == buffer[..][readerIndex..r] == data;
      assert buffer[r..w] == buffer[..][r..w] == was[r..w];
    }

    method Shrink(reserve: nat)
      requires Valid()
      modifies this
      ensures Valid() && Contents() == old(Contents()) && fresh(buffer)
      ensures Shape() == Appended(Ensured(Geometry(CHEAP_PREPEND + INITIAL_SIZE, CHEAP_PREPEND, CHEAP_PREPEND),
                                          |Contents()| + reserve), |Contents()|)
      ensures buffer.Length == 8 + if |Contents()| + reserve <= 1024 then 1024 else |Contents()| + reserve
    {
      var other := new Buffer(INITIAL_SIZE);
      other.EnsureWritableBytes(writerIndex - readerIndex + reserve);
      other.Append(buffer[readerIndex..writerIndex]);
      buffer, readerIndex, writerIndex := other.buffer, other.readerIndex, other.writerIndex;
    }

    // readv(2) failed (None) or delivered bytes, first into the spare space and then into
    // extrabuf.
    method ReadFd(delivered: Option<seq<Byte>>) returns (n: int)
      requires Valid() && (delivered.Some? ==> |delivered.value| <= ReadLimit(Shape()))
      modifies this, buffer
      ensures Valid() && (buffer == old(buffer) || fresh(buffer))
      ensures delivered.None? ==> n == -1 && Contents() == old(Contents()) && Shape() == old(Shape())
      ensures delivered.Some? ==>
        && n == |delivered.value| && Contents() == old(Contents()) + delivered.value
        && Shape() == ReadInto(old(Shape()), n)
    {
      if delivered.None? {
        return -1;
      }
      var data, writable := delivered.value, buffer.Length - writerIndex;
      n := |data|;
      if n <= writable {
        Fill(data);
      } else {
        Fill(data[..writable]);
        Append(data[writable..]);
        assert data == data[..writable] + data[writable..];
      }
    }

    // Offset of the first CRLF from the reader, if any.
    method FindCRLF() returns (r: Option<nat>)
      requires Valid()
      ensures r.None? ==> forall i :: 0 <= i < |Contents()| - 1 ==> !CRLFAt(Contents(), i)
      ensures r.Some? ==> CRLFAt(Contents(), r.value) && forall i :: 0 <= i < r.value ==> !CRLFAt(Contents(), i)
      ensures r.Some? ==> Contents()[r.value] == 13 && Contents()[r.value + 1] == 10
    {
      var n, i := writerIndex - readerIndex, 0;
      while i + 1 < n
        invariant forall k :: 0 <= k < i ==> !CRLFAt(Contents(), k)
      {
        if buffer[readerIndex + i] == 13 && buffer[readerIndex + i + 1] == 10 {
          return Some(i);
        }
        i := i + 1;
      }
      return None;
    }
  }

  // `now` is `was` with data written over it at the given offset.
  lemma Overlay(was: seq<Byte>, now: seq<Byte>, at: nat, data: seq<Byte>)
    requires at + |data| <= |was| && now == was[..at] + data + was[at + |data|..]
    ensures |now| == |was| && now[at..at + |data|] == data
    ensures forall i, j :: 0 <= i <= j <= at ==> now[i..j] == was[i..j]
    ensures forall i, j :: at + |data| <= i <= j <= |was| ==> now[i..j] == was[i..j]
  {
  }

  predicate CRLFAt(s: seq<Byte>, i: int) {
    0 <= i && i + 1 < |s| && s[i] == 13 && s[i + 1] == 10
  }
}
