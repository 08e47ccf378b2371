/** How large the vector of a Buffer can get over any run of its operations.  The
    functions are the ones the methods of class Buffer are specified with. */
module BufferRuns {
  import opened Bytes
  import opened Buffers

  datatype Op =
    | AppendOp(n: nat) | ReadFdOp(n: nat) | RetrieveOp(n: nat) | UnwriteOp(n: nat) | PrependOp(n: nat)

  predicate Legal(g: Geometry, op: Op) {
    && g.Ok()
    && match op
       case AppendOp(_) => true
       case ReadFdOp(n) => n <= ReadLimit(g)
       case RetrieveOp(n) => n <= g.Readable()
       case UnwriteOp(n) => n <= g.Readable()
       case PrependOp(n) => n <= g.reader
  }

  function Apply(g: Geometry, op: Op): (g': Geometry)
    requires Legal(g, op)
    ensures g'.Ok()
    ensures g'.Readable() - g.Readable() ==
              if op.AppendOp? || op.ReadFdOp? || op.PrependOp? then op.n as int else 0 - op.n as int
  {
    match op
    case AppendOp(n) => Appended(g, n)
    case ReadFdOp(n) => ReadInto(g, n)
    case RetrieveOp(n) => Retrieved(g, n)
    case UnwriteOp(n) => g.(writer := g.writer - n)
    case PrependOp(n) => g.(reader := g.reader - n)
  }

  predicate LegalRun(g: Geometry, ops: seq<Op>)
    decreases |ops|
  {
    g.Ok() && (ops == [] || (Legal(g, ops[0]) && LegalRun(Apply(g, ops[0]), ops[1..])))
  }

  function After(g: Geometry, ops: seq<Op>): Geometry
    requires LegalRun(g, ops)
    decreases |ops|
  {
    if ops == [] then g else After(Apply(g, ops[0]), ops[1..])
  }

  // The largest number of readable bytes at any point of the run.
  function Peak(g: Geometry, ops: seq<Op>): int
    requires LegalRun(g, ops)
    decreases |ops|
  {
    if ops == [] then g.Readable() else Max(g.Readable(), Peak(Apply(g, ops[0]), ops[1..]))
  }

  // One read delivers at most 128k - 1 bytes through extrabuf, and only when less than 64k
  // are writable.
  lemma ReadBound(g: Geometry)
    requires g.Ok()
    ensures g.Writable() < 65536 ==> ReadLimit(g) == g.Writable() + 65536 <= 131071
    ensures g.Writable() >= 65536 ==> ReadLimit(g) == g.Writable()
  {
  }

  lemma StepBound(g: Geometry, op: Op)
    requires Legal(g, op)
    ensures Apply(g, op).size <= Max(g.size, 2 * Apply(g, op).Readable() + 7)
  {
  }

  lemma {:induction false} PeakFromHere(g: Geometry, ops: seq<Op>)
    requires LegalRun(g, ops)
    ensures g.Readable() <= Peak(g, ops)
  {
  }

  // The vector never grows beyond its first size or twice the peak plus seven.
  lemma {:induction false} MemoryBound(g: Geometry, ops: seq<Op>)
    requires LegalRun(g, ops)
    ensures After(g, ops).size <= Max(g.size, 2 * Peak(g, ops) + 7)
    decreases |ops|
  {
    if ops != [] {
      var g' := Apply(g, ops[0]);
      StepBound(g, ops[0]);
      PeakFromHere(g', ops[1..]);
      MemoryBound(g', ops[1..]);
    }
  }

  lemma NewBufferBound(initialSize: nat, ops: seq<Op>)
    requires LegalRun(Geometry(CHEAP_PREPEND + initialSize, CHEAP_PREPEND, CHEAP_PREPEND), ops)
    ensures var g := Geometry(CHEAP_PREPEND + initialSize, CHEAP_PREPEND, CHEAP_PREPEND);
            After(g, ops).size <= Max(8 + initialSize, 2 * Peak(g, ops) + 7)
  {
    MemoryBound(Geometry(CHEAP_PREPEND + initialSize, CHEAP_PREPEND, CHEAP_PREPEND), ops);
  }

  // The bound is reached: one byte appended to a buffer of initial size 0.
  lemma BoundIsTight()
    ensures LegalRun(Geometry(8, 8, 8), [AppendOp(1)])
    ensures After(Geometry(8, 8, 8), [AppendOp(1)]).size == 2 * Peak(Geometry(8, 8, 8), [AppendOp(1)]) + 7
  {
    assert Ensured(Geometry(8, 8, 8), 1) == Geometry(9, 8, 8);
    assert Apply(Geometry(8, 8, 8), AppendOp(1)) == Geometry(9, 8, 9);
    OneStep(Geometry(8, 8, 8), AppendOp(1));
  }

  lemma OneStep(g: Geometry, op: Op)
    requires Legal(g, op)
    ensures LegalRun(g, [op]) && After(g, [op]) == Apply(g, op)
    ensures Peak(g, [op]) == Max(g.Readable(), Apply(g, op).Readable())
  {
    assert [op][1..] == [];
  }
}
