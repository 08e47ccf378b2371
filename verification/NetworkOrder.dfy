/** Signed integers in network byte order, as Buffer appends, peeks, reads and prepends
    them (widths 1, 2, 4 and 8 in the source; the laws hold for every width). */
module NetworkOrder {
  import opened Bytes
  import opened Buffers

  function Pow256(n: nat): (p: nat)
    ensures p >= 1
  {
    if n == 0 then 1 else 256 * Pow256(n - 1)
  }

  // intN_t of the given width in bytes.
  predicate Fits(x: int, width: nat) {
    width > 0 && -128 * Pow256(width - 1) <= x < 128 * Pow256(width - 1)
  }

  // Big-endian bytes, most significant first.
  function Digits(u: nat, width: nat): (s: seq<Byte>)
    ensures |s| == width
  {
    if width == 0 then [] else Digits(u / 256, width - 1) + [u % 256]
  }

  function Value(s: seq<Byte>): nat {
    if s == [] then 0 else Value(s[..|s| - 1]) * 256 + s[|s| - 1]
  }

  // hostToNetwork of the two's complement pattern, laid out in memory.
  function Encode(x: int, width: nat): (s: seq<Byte>)
    requires Fits(x, width)
    ensures |s| == width
  {
    Digits(if x < 0 then x + Pow256(width) else x, width)
  }

  function Decode(s: seq<Byte>): int
    requires s != []
  {
    var u := Value(s);
    if u < 128 * Pow256(|s| - 1) then u else u - Pow256(|s|)
  }

  lemma {:induction false} ValueOfDigits(u: nat, width: nat)
    requires u < Pow256(width)
    ensures Value(Digits(u, width)) == u
  {
    if width > 0 {
      ValueOfDigits(u / 256, width - 1);
      var s := Digits(u, width);
      assert s[..|s| - 1] == Digits(u / 256, width - 1);
    }
  }

  lemma RoundTrip(x: int, width: nat)
    requires Fits(x, width)
    ensures Decode(Encode(x, width)) == x
  {
    ValueOfDigits(if x < 0 then x + Pow256(width) else x, width);
  }

  lemma {:induction false} ValueBound(s: seq<Byte>)
    ensures Value(s) < Pow256(|s|)
  {
    if s != [] {
      ValueBound(s[..|s| - 1]);
    }
  }

  lemma {:induction false} DigitsOfValue(s: seq<Byte>)
    ensures Digits(Value(s), |s|) == s
  {
    if s != [] {
      DigitsOfValue(s[..|s| - 1]);
      assert s == s[..|s| - 1] + [s[|s| - 1]];
    }
  }

  // The other direction: every row of bytes is some integer's.
  lemma RoundTripBack(s: seq<Byte>)
    requires s != []
    ensures Fits(Decode(s), |s|) && Encode(Decode(s), |s|) == s
  {
    ValueBound(s);
    DigitsOfValue(s);
  }

  // --- The order of the bytes ------------------------------------------------------------

  lemma DivideTwice(u: nat, a: nat, b: nat)
    requires a > 0 && b > 0
    ensures a * b > 0 && (u / a) / b == u / (a * b)
  {
    var q, r := u / a, u % a;
    var q', r' := q / b, q % b;
    assert u == a * q + r && q == b * q' + r';
    Regroup(a, b, q', r', r);
    Quotient(u, a * b, q', a * r' + r);
  }

  lemma Regroup(a: nat, b: nat, q: nat, r': nat, r: nat)
    requires r < a && r' < b
    ensures a * (b * q + r') + r == (a * b) * q + (a * r' + r)
    ensures 0 <= a * r' + r < a * b
  {
    assert a * (b * q + r') == a * (b * q) + a * r';
    assert a * (b * q) == (a * b) * q;
    AtMost(a, r', b - 1);
    assert a * (b - 1) == a * b - a;
  }

  lemma AtMost(a: nat, x: int, y: int)
    requires x <= y
    ensures a * x <= a * y
  {
  }

  lemma Quotient(u: int, d: int, q: int, r: int)
    requires d > 0 && u == d * q + r && 0 <= r < d
    ensures u / d == q && u % d == r
  {
    var q', r' := u / d, u % d;
    assert d * (q - q') == r' - r && d * (q' - q) == r - r';
    if q > q' {
      AtMost(d, 1, q - q');
    }
    if q < q' {
      AtMost(d, 1, q' - q);
    }
  }

  lemma {:induction false} DigitAt(u: nat, width: nat, i: nat)
    requires i < width
    ensures Digits(u, width)[i] == (u / Pow256(width - 1 - i)) % 256
    decreases width
  {
    if i < width - 1 {
      DigitAt(u / 256, width - 1, i);
      DivideTwice(u, 256, Pow256(width - 2 - i));
    }
  }

  lemma {:induction false} PowSum(a: nat, b: nat)
    ensures Pow256(a + b) == Pow256(a) * Pow256(b)
  {
    if b > 0 {
      PowSum(a, b - 1);
      assert Pow256(a + b) == 256 * (Pow256(a) * Pow256(b - 1));
      assert 256 * (Pow256(a) * Pow256(b - 1)) == Pow256(a) * (256 * Pow256(b - 1));
    }
  }

  // Adding a multiple of 256 * p does not change the digit at p.
  lemma SameDigit(x: int, p: nat, k: nat)
    requires p > 0
    ensures ((x + p * (256 * k)) / p) % 256 == (x / p) % 256
  {
    var q, r := x / p, x % p;
    assert x == p * q + r;
    assert p * q + p * (256 * k) == p * (q + 256 * k);
    Quotient(x + p * (256 * k), p, q + 256 * k, r);
  }

  // Byte i of the encoding is digit width - 1 - i of x to the base 256: the most significant
  // byte comes first.
  lemma EncodeAt(x: int, width: nat, i: nat)
    requires Fits(x, width) && i < width
    ensures Encode(x, width)[i] == (x / Pow256(width - 1 - i)) % 256
  {
    var p := Pow256(width - 1 - i);
    DigitAt(if x < 0 then x + Pow256(width) else x, width, i);
    if x < 0 {
      PowSum(width - 1 - i, i + 1);
      assert Pow256(i + 1) == 256 * Pow256(i);
      SameDigit(x, p, Pow256(i));
    }
  }

  // Reading from the left, the first byte weighs most.
  lemma {:induction false} ValueFromFront(s: seq<Byte>)
    requires s != []
    ensures Value(s) == s[0] * Pow256(|s| - 1) + Value(s[1..])
  {
    if |s| > 1 {
      var t := s[..|s| - 1];
      ValueFromFront(t);
      assert s[1..][..|s| - 2] == t[1..];
      assert 256 * (t[0] * Pow256(|t| - 1)) == t[0] * (256 * Pow256(|t| - 1));
    } else {
      assert s[1..] == [] && s[..0] == [];
    }
  }

  // The first byte carries the sign.
  lemma DecodeFromFront(s: seq<Byte>)
    requires s != []
    ensures Decode(s) == (if s[0] < 128 then s[0] as int else s[0] as int - 256) * Pow256(|s| - 1) + Value(s[1..])
  {
    ValueFromFront(s);
    ValueBound(s[1..]);
    FirstByteRules(s[0], Pow256(|s| - 1), Value(s[1..]));
  }

  lemma FirstByteRules(first: int, p: nat, rest: nat)
    requires rest < p
    ensures first * p + rest < 128 * p <==> first < 128
    ensures (first - 256) * p == first * p - 256 * p
  {
    if first < 128 {
      AtMost(p, first, 127);
    } else {
      AtMost(p, 128, first);
    }
  }

  // --- A buffer as a queue of integers ------------------------------------------------

  datatype Item = Item(x: int, width: nat)

  predicate ItemOk(i: Item) { Fits(i.x, i.width) }

  predicate AllOk(q: seq<Item>) { forall k :: 0 <= k < |q| ==> ItemOk(q[k]) }

  function EncodeAll(q: seq<Item>): seq<Byte>
    requires AllOk(q)
  {
    if q == [] then [] else Encode(q[0].x, q[0].width) + EncodeAll(q[1..])
  }

  lemma {:induction false} EncodeAllSnoc(q: seq<Item>, i: Item)
    requires AllOk(q) && ItemOk(i)
    ensures AllOk(q + [i]) && EncodeAll(q + [i]) == EncodeAll(q) + Encode(i.x, i.width)
  {
    if q == [] {
      assert [i][1..] == [];
    } else {
      EncodeAllSnoc(q[1..], i);
      assert (q + [i])[1..] == q[1..] + [i];
    }
  }

  datatype IntOp = Write(item: Item) | Read(width: nat)

  // The queue of integers a run of writes and reads stands for; a read takes the width
  // its front item was written with.
  predicate Matches(q: seq<Item>, ops: seq<IntOp>)
    decreases |ops|
  {
    ops == [] ||
    match ops[0]
    case Write(i) => ItemOk(i) && Matches(q + [i], ops[1..])
    case Read(w) => q != [] && q[0].width == w && Matches(q[1..], ops[1..])
  }

  function Written(ops: seq<IntOp>): seq<Item>
    decreases |ops|
  {
    if ops == [] then [] else (if ops[0].Write? then [ops[0].item] else []) + Written(ops[1..])
  }

  datatype Outcome = Outcome(read: seq<int>, left: seq<Byte>)

  // The same run on the bytes: appendInt appends the encoding, readInt decodes the front
  // and drops it.
  function OnBytes(c: seq<Byte>, ops: seq<IntOp>): Option<Outcome>
    decreases |ops|
  {
    if ops == [] then Some(Outcome([], c)) else
    match ops[0]
    case Write(i) => if ItemOk(i) then OnBytes(c + Encode(i.x, i.width), ops[1..]) else None
    case Read(w) =>
      if w == 0 || w > |c| then None else
      match OnBytes(c[w..], ops[1..])
      case None => None
      case Some(o) => Some(Outcome([Decode(c[..w])] + o.read, o.left))
  }

  function Values(q: seq<Item>): (v: seq<int>)
    ensures |v| == |q|
  {
    seq(|q|, k requires 0 <= k < |q| => q[k].x)
  }

  // Everything read, then what is still queued, is what was queued first and then written.
  predicate ReadsBack(q: seq<Item>, ops: seq<IntOp>, rest: seq<Item>)
    requires AllOk(q)
  {
    var r := OnBytes(EncodeAll(q), ops);
    && r.Some? && AllOk(rest)
    && r.value.read + Values(rest) == Values(q + Written(ops))
    && r.value.left == EncodeAll(rest)
  }

  lemma WriteReadsBack(q: seq<Item>, ops: seq<IntOp>, rest: seq<Item>)
    requires AllOk(q) && ops != [] && ops[0].Write? && ItemOk(ops[0].item)
    requires AllOk(q + [ops[0].item]) && ReadsBack(q + [ops[0].item], ops[1..], rest)
    ensures ReadsBack(q, ops, rest)
  {
    EncodeAllSnoc(q, ops[0].item);
    Assoc(q, [ops[0].item], Written(ops[1..]));
  }

  lemma FrontOf(q: seq<Item>)
    requires AllOk(q) && q != []
    ensures var w := q[0].width;
            && 0 < w <= |EncodeAll(q)| && AllOk(q[1..])
            && Decode(EncodeAll(q)[..w]) == q[0].x && EncodeAll(q)[w..] == EncodeAll(q[1..])
  {
    var front := Encode(q[0].x, q[0].width);
    assert EncodeAll(q)[..q[0].width] == front;
    RoundTrip(q[0].x, q[0].width);
  }

  lemma ReadReadsBack(q: seq<Item>, ops: seq<IntOp>, rest: seq<Item>)
    requires AllOk(q) && q != [] && ops != [] && ops[0] == Read(q[0].width)
    requires AllOk(q[1..]) && ReadsBack(q[1..], ops[1..], rest)
    ensures ReadsBack(q, ops, rest)
  {
    FrontOf(q);
    ValuesCons(q, Written(ops[1..]));
    Assoc([q[0].x], OnBytes(EncodeAll(q[1..]), ops[1..]).value.read, Values(rest));
    assert Written(ops) == [] + Written(ops[1..]) == Written(ops[1..]);
  }

  lemma ValuesCons(q: seq<Item>, more: seq<Item>)
    requires q != []
    ensures Values(q + more) == [q[0].x] + Values(q[1..] + more)
  {
  }

  lemma {:induction false} MixedWidthsReadBack(q: seq<Item>, ops: seq<IntOp>) returns (rest: seq<Item>)
    requires AllOk(q) && Matches(q, ops)
    ensures ReadsBack(q, ops, rest)
    decreases |ops|
  {
    if ops == [] {
      rest := q;
      assert q + Written(ops) == q;
    } else {
      match ops[0]
      case Write(i) =>
        rest := MixedWidthsReadBack(q + [i], ops[1..]);
        WriteReadsBack(q, ops, rest);
      case Read(w) =>
        rest := MixedWidthsReadBack(q[1..], ops[1..]);
        ReadReadsBack(q, ops, rest);
    }
  }

  // --- The methods ----------------------------------------------------------------------

  // The integer at the front of the bytes c.
  lemma FrontDigits(c: seq<Byte>, width: nat)
    requires 0 < width <= |c|
    ensures var x := Decode(c[..width]);
            Fits(x, width) && forall i :: 0 <= i < width ==> c[i] == (x / Pow256(width - 1 - i)) % 256
  {
    var front := c[..width];
    var x := Decode(front);
    RoundTripBack(front);
    forall i | 0 <= i < width ensures c[i] == (x / Pow256(width - 1 - i)) % 256 {
      EncodeAt(x, width, i);
      assert c[i] == front[i];
    }
  }

  // All bytes of an encoding at once.
  lemma EncodeDigits(x: int, width: nat)
    requires Fits(x, width)
    ensures forall i :: 0 <= i < width ==> Encode(x, width)[i] == (x / Pow256(width - 1 - i)) % 256
  {
    forall i | 0 <= i < width ensures Encode(x, width)[i] == (x / Pow256(width - 1 - i)) % 256 {
      EncodeAt(x, width, i);
    }
  }

  method AppendInt(b: Buffer, x: int, width: nat)
    requires b.Valid() && Fits(x, width)
    modifies b, b.buffer
    ensures b.Valid() && b.Contents() == old(b.Contents()) + Encode(x, width)
    ensures |b.Contents()| == |old(b.Contents())| + width
    ensures forall i :: 0 <= i - |old(b.Contents())| < width ==>
              b.Contents()[i] == (x / Pow256(width - 1 - (i - |old(b.Contents())|))) % 256
    ensures b.buffer == old(b.buffer) || fresh(b.buffer)
  {
    EncodeDigits(x, width);
    b.Append(Encode(x, width));
  }

  method PeekInt(b: Buffer, width: nat) returns (x: int)
    requires b.Valid() && 0 < width <= |b.Contents()|
    ensures x == Decode(b.Contents()[..width])
    // the integer of that width whose bytes, most significant first, these are
    ensures Fits(x, width)
    ensures forall i :: 0 <= i < width ==> b.Contents()[i] == (x / Pow256(width - 1 - i)) % 256
  {
    assert b.Contents()[..width] == b.buffer[b.readerIndex..b.readerIndex + width];
    x := Decode(b.buffer[b.readerIndex..b.readerIndex + width]);
    FrontDigits(b.Contents(), width);
  }

  method ReadInt(b: Buffer, width: nat) returns (x: int)
    requires b.Valid() && 0 < width <= |b.Contents()|
    modifies b`readerIndex, b`writerIndex
    ensures b.Valid() && x == Decode(old(b.Contents())[..width]) && b.Contents() == old(b.Contents())[width..]
    ensures Fits(x, width)
    ensures forall i :: 0 <= i < width ==> old(b.Contents())[i] == (x / Pow256(width - 1 - i)) % 256
  {
    x := PeekInt(b, width);
    b.Retrieve(width);
  }

  method PrependInt(b: Buffer, x: int, width: nat)
    requires b.Valid() && Fits(x, width) && width <= b.Shape().reader
    modifies b`readerIndex, b.buffer
    ensures b.Valid() && b.Contents() == Encode(x, width) + old(b.Contents())
    ensures forall i :: 0 <= i < width ==> b.Contents()[i] == (x / Pow256(width - 1 - i)) % 256
    // reading the header gives it back and uncovers the earlier contents
    ensures Decode(b.Contents()[..width]) == x && b.Contents()[width..] == old(b.Contents())
  {
    EncodeDigits(x, width);
    b.Prepend(Encode(x, width));
    RoundTrip(x, width);
    assert b.Contents()[..width] == Encode(x, width);
  }

  // The rest of a run, seen from its i-th operation on.
  predicate Continues(whole: Option<Outcome>, c: seq<Byte>, ops: seq<IntOp>, read: seq<int>) {
    var r := OnBytes(c, ops);
    whole.Some? && r.Some? && whole.value.read == read + r.value.read && whole.value.left == r.value.left
  }

  lemma ContinuesWrite(whole: Option<Outcome>, c: seq<Byte>, ops: seq<IntOp>, i: nat, read: seq<int>)
    requires i < |ops| && ops[i].Write? && Continues(whole, c, ops[i..], read)
    ensures ItemOk(ops[i].item)
    ensures Continues(whole, c + Encode(ops[i].item.x, ops[i].item.width), ops[i + 1..], read)
  {
    assert ops[i..][1..] == ops[i + 1..];
  }

  lemma ContinuesRead(whole: Option<Outcome>, c: seq<Byte>, ops: seq<IntOp>, i: nat, read: seq<int>)
    requires i < |ops| && ops[i].Read? && Continues(whole, c, ops[i..], read)
    ensures var w := ops[i].width;
            && 0 < w <= |c| && Continues(whole, c[w..], ops[i + 1..], read + [Decode(c[..w])])
  {
    var w := ops[i].width;
    assert ops[i..][1..] == ops[i + 1..];
    Assoc(read, [Decode(c[..w])], OnBytes(c[w..], ops[i + 1..]).value.read);
  }

  // Any sequence of appends and reads on one Buffer, through whatever compactions and
  // growth they cause, is the same sequence on its bytes.
  method RunInts(b: Buffer, ops: seq<IntOp>) returns (read: seq<int>)
    requires b.Valid() && OnBytes(b.Contents(), ops).Some?
    modifies b, b.buffer
    ensures b.Valid() && OnBytes(old(b.Contents()), ops) == Some(Outcome(read, b.Contents()))
  {
    ghost var whole := OnBytes(b.Contents(), ops);
    read := [];
    assert ops[0..] == ops;
    var i := 0;
    while i < |ops|
      invariant i <= |ops| && b.Valid() && (b.buffer == old(b.buffer) || fresh(b.buffer))
      invariant Continues(whole, b.Contents(), ops[i..], read)
    {
      match ops[i] {
        case Write(item) =>
          ContinuesWrite(whole, b.Contents(), ops, i, read);
          AppendInt(b, item.x, item.width);
        case Read(w) =>
          ContinuesRead(whole, b.Contents(), ops, i, read);
          var x := ReadInt(b, w);
          read := read + [x];
      }
      i := i + 1;
    }
    assert ops[i..] == [] && read + [] == read;
  }

  // Integers appended to a Buffer that holds the queue q are read back in order and
  // unchanged; the bytes left are those of the integers left.
  method IntsReadBack(b: Buffer, ghost q: seq<Item>, ops: seq<IntOp>) returns (read: seq<int>, ghost rest: seq<Item>)
    requires b.Valid() && AllOk(q) && b.Contents() == EncodeAll(q) && Matches(q, ops)
    modifies b, b.buffer
    ensures b.Valid() && AllOk(rest) && b.Contents() == EncodeAll(rest)
    ensures read + Values(rest) == Values(q + Written(ops))
  {
    rest := MixedWidthsReadBack(q, ops);
    read := RunInts(b, ops);
  }
}
