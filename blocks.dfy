/**
 * Round transformations restated on a 16-byte block in the engine's
 * column-major order (byte `4c + r` is row `r` of column `c`), written so
 * that the solver can evaluate them on constants.
 */
module AesBlocks {
  import opened GaloisField

  /** Every byte of the block through `sbox`. */
  function SubBlock(sbox: bv8 -> bv8, a: seq<bv8>): (b: seq<bv8>)
    requires |a| == 16
    ensures |b| == 16
  {
    seq(16, i requires 0 <= i < 16 => sbox(a[i]))
  }

  /** Byte `4c + r` of the result is byte `4((c + r) mod 4) + r`: row `r` rotated left by `r`. */
  function ShiftBlock(a: seq<bv8>): (b: seq<bv8>)
    requires |a| == 16
    ensures |b| == 16
  {
    seq(16, i requires 0 <= i < 16 => a[4 * ((i / 4 + i % 4) % 4) + i % 4])
  }

  /**
   * The column mix of one column with each product by {02} and {03}
   * written with `XTime`, so that it can be evaluated on constants.
   */
  function MixedColumn(s0: bv8, s1: bv8, s2: bv8, s3: bv8): seq<bv8>
  {
    [Xor4(XTime(s0), XTime(s1) ^ s1, s2, s3),
     Xor4(s0, XTime(s1), XTime(s2) ^ s2, s3),
     Xor4(s0, s1, XTime(s2), XTime(s3) ^ s3),
     Xor4(XTime(s0) ^ s0, s1, s2, XTime(s3))]
  }

  /** Addition in GF(2^8), which is XOR. */
  function AddByte(x: bv8, y: bv8): bv8
  {
    x ^ y
  }

  /** Bytewise sum of two blocks. */
  function XorBlock(a: seq<bv8>, k: seq<bv8>): (b: seq<bv8>)
    requires |a| == 16 && |k| == 16
    ensures |b| == 16
  {
    seq(16, i requires 0 <= i < 16 => AddByte(a[i], k[i]))
  }

  /** The shifted block byte by byte. */
  lemma ShiftBlockBytes(a: seq<bv8>)
    requires |a| == 16
    ensures ShiftBlock(a)
         == [a[0], a[5], a[10], a[15], a[4], a[9], a[14], a[3],
             a[8], a[13], a[2], a[7], a[12], a[1], a[6], a[11]]
  {
  }

  /** A block spelled out byte by byte, for evaluation on constants. */
  lemma Spelled(s: seq<bv8>)
    requires |s| == 16
    ensures s == [s[0], s[1], s[2], s[3], s[4], s[5], s[6], s[7],
                  s[8], s[9], s[10], s[11], s[12], s[13], s[14], s[15]]
  {
  }
}
