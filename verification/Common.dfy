/** Shared small types and functions. */
module Common {
  datatype Option<T> = None | Some(value: T)

  type byte = b: int | 0 <= b < 256 witness 0

  function Min(a: int, b: int): int { if a <= b then a else b }

  function Max(a: int, b: int): int { if a >= b then a else b }

  lemma Associates<T>(a: seq<T>, b: seq<T>, c: seq<T>)
    ensures a + (b + c) == (a + b) + c
  {
  }
}
