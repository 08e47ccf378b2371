// Bytes and small shared wrappers.
module Bytes {
  type Byte = x: int | 0 <= x < 256

  datatype Option<+T> = None | Some(value: T)

  function Max(a: int, b: int): int { if a < b then b else a }

  function One(b: bool): nat { if b then 1 else 0 }

  lemma Assoc<T>(a: seq<T>, b: seq<T>, c: seq<T>)
    ensures (a + b) + c == a + (b + c)
  {
  }
}
