/**
 * Fixed-width unsigned integers of the source. Rust's `u32` and `u64` are
 * bit-vectors here, so that `wrapping_add` and `wrapping_mul` are Dafny's own
 * bit-vector `+` and `*`, which wrap modulo 2^32 and 2^64.
 */
module Words {
  type U32 = bv32
  type U64 = bv64
}
