/** Vocabulary shared by every module: optional values, identifiers and 64-bit machine integers. */
module Common {

  datatype Option<+T> = None | Some(value: T)

  /** A UUID read as a 128-bit number. The code compares UUIDs by their fixed-length lower-case
      hexadecimal text, which orders them exactly as these numbers. */
  type Id = nat

  function Min(a: nat, b: nat): nat { if a < b then a else b }

  const MIN_INT64: int := -0x8000_0000_0000_0000
  const MAX_INT64: int := 0x7FFF_FFFF_FFFF_FFFF
  const TWO_TO_THE_64: int := 0x1_0000_0000_0000_0000

  predicate IsInt64(x: int) { MIN_INT64 <= x <= MAX_INT64 }

  /** The int64 that machine arithmetic leaves behind when the exact result is x. */
  function Wrap64(x: int): (w: int)
    ensures IsInt64(w)
    ensures exists k: int :: w == x + k * TWO_TO_THE_64
    ensures IsInt64(x) ==> w == x
  {
    var w := (x - MIN_INT64) % TWO_TO_THE_64 + MIN_INT64;
    assert w == x + (-((x - MIN_INT64) / TWO_TO_THE_64)) * TWO_TO_THE_64;
    w
  }

  /** The sum of two non-negative int64 values wraps to a negative number exactly when it overflows. */
  lemma SumWraps(x: int, y: int)
    requires 0 <= x <= MAX_INT64 && 0 <= y <= MAX_INT64
    ensures 0 <= Wrap64(x + y) <==> x + y <= MAX_INT64
    ensures 0 <= Wrap64(x + y) ==> Wrap64(x + y) == x + y
  {
  }
}
