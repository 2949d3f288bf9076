/**
 * A functional reference for the engine: the column-major layout of a
 * block, the four round transformations, the key schedule and the cipher,
 * each stated as a value-level function (sections 3.4, 5.1 and 5.2 of
 * FIPS-197), with the properties the engine's callers rely on.
 */
module AesSpec {
  import opened AesTypes
  import opened AesTables
  import opened GaloisField

  /* ---------------- Layout ---------------- */

  /** Byte `4c + r` of a block goes to row `r`, column `c`. */
  function ToState(bytes: seq<bv8>): (m: StateMatrix)
    requires |bytes| == 16
    ensures IsState(m)
  {
    seq(4, r requires 0 <= r < 4 => seq(4, c requires 0 <= c < 4 => bytes[4 * c + r]))
  }

  /** Reads the state back column by column. */
  function FromState(m: StateMatrix): (bytes: seq<bv8>)
    requires IsState(m)
    ensures |bytes| == 16
  {
    seq(16, i requires 0 <= i < 16 => m[i % 4][i / 4])
  }

  lemma ToStateAt(bytes: seq<bv8>, r: int, c: int)
    requires |bytes| == 16 && 0 <= r < 4 && 0 <= c < 4
    ensures ToState(bytes)[r][c] == bytes[4 * c + r]
  {
  }

  lemma FromToState(bytes: seq<bv8>)
    requires |bytes| == 16
    ensures FromState(ToState(bytes)) == bytes
  {
    var m := ToState(bytes);
    forall i | 0 <= i < 16
      ensures FromState(m)[i] == bytes[i]
    {
      assert 4 * (i / 4) + i % 4 == i;
    }
  }

  lemma ToFromState(m: StateMatrix)
    requires IsState(m)
    ensures ToState(FromState(m)) == m
  {
    var bytes := FromState(m);
    forall r | 0 <= r < 4
      ensures ToState(bytes)[r] == m[r]
    {
      forall c | 0 <= c < 4
        ensures ToState(bytes)[r][c] == m[r][c]
      {
        assert (4 * c + r) % 4 == r && (4 * c + r) / 4 == c;
      }
    }
  }

  /* ---------------- Round transformations ---------------- */

  /** Every cell is replaced by its S-box entry (section 5.1.1 of FIPS-197). */
  function SubBytes(m: StateMatrix): (out: StateMatrix)
    requires IsState(m)
    ensures IsState(out)
  {
    seq(4, r requires 0 <= r < 4 => seq(4, c requires 0 <= c < 4 => SBox(m[r][c])))
  }

  /** Row `r` rotates left by `r` places (section 5.1.2 of FIPS-197). */
  function ShiftRows(m: StateMatrix): (out: StateMatrix)
    requires IsState(m)
    ensures IsState(out)
  {
    seq(4, r requires 0 <= r < 4 => seq(4, c requires 0 <= c < 4 => m[r][(c + r) % 4]))
  }

  /** Row `r` rotates right by `r` places (section 5.3.1 of FIPS-197). */
  function InvShiftRows(m: StateMatrix): (out: StateMatrix)
    requires IsState(m)
    ensures IsState(out)
  {
    seq(4, r requires 0 <= r < 4 => seq(4, c requires 0 <= c < 4 => m[r][(c + 4 - r) % 4]))
  }

  /** Column `c` of a state, top to bottom. */
  function Column(m: StateMatrix, c: int): (col: seq<bv8>)
    requires IsState(m) && 0 <= c < 4
    ensures |col| == 4
  {
    [m[0][c], m[1][c], m[2][c], m[3][c]]
  }

  /** The engine's four formulas for one column. */
  function MixColumn(s: seq<bv8>): (out: seq<bv8>)
    requires |s| == 4
    ensures |out| == 4
  {
    [Xor4(GfMul(s[0], 2), GfMul(s[1], 3), s[2], s[3]),
     Xor4(s[0], GfMul(s[1], 2), GfMul(s[2], 3), s[3]),
     Xor4(s[0], s[1], GfMul(s[2], 2), GfMul(s[3], 3)),
     Xor4(GfMul(s[0], 3), s[1], s[2], GfMul(s[3], 2))]
  }

  /** Each column is replaced by its mixed column (section 5.1.3 of FIPS-197). */
  function MixColumns(m: StateMatrix): (out: StateMatrix)
    requires IsState(m)
    ensures IsState(out)
  {
    seq(4, r requires 0 <= r < 4 => seq(4, c requires 0 <= c < 4 => MixColumn(Column(m, c))[r]))
  }

  /** The fixed MDS matrix of section 5.1.3 of FIPS-197, row by row. */
  const MDS: seq<seq<bv8>> := [[2, 3, 1, 1], [1, 2, 3, 1], [1, 1, 2, 3], [3, 1, 1, 2]]

  /** Row `row` of a matrix times the column vector `s`, over GF(2^8). */
  function Dot(row: seq<bv8>, s: seq<bv8>): bv8
    requires |row| == 4 && |s| == 4
  {
    Xor4(GfMul(s[0], row[0]), GfMul(s[1], row[1]), GfMul(s[2], row[2]), GfMul(s[3], row[3]))
  }

  /** Each cell of the state is XORed with the same cell of the key block laid out as a state (section 5.1.4 of FIPS-197). */
  function AddRoundKey(m: StateMatrix, roundKey: seq<bv8>): (out: StateMatrix)
    requires IsState(m) && |roundKey| == 16
    ensures IsState(out)
  {
    var k := ToState(roundKey);
    seq(4, r requires 0 <= r < 4 => seq(4, c requires 0 <= c < 4 => m[r][c] ^ k[r][c]))
  }

  lemma SubBytesAt(m: StateMatrix, r: int, c: int)
    requires IsState(m) && 0 <= r < 4 && 0 <= c < 4
    ensures SubBytes(m)[r][c] == SBox(m[r][c])
  {
  }

  /** Row `r` of the result is row `r` of the input rotated left by `r`. */
  lemma ShiftRowsRotates(m: StateMatrix, r: int)
    requires IsState(m) && 0 <= r < 4
    ensures ShiftRows(m)[r] == m[r][r..] + m[r][..r]
  {
    var out := ShiftRows(m)[r];
    var rot := m[r][r..] + m[r][..r];
    forall c | 0 <= c < 4
      ensures out[c] == rot[c]
    {
      if c + r < 4 {
        assert rot[c] == m[r][c + r];
      } else {
        assert rot[c] == m[r][c + r - 4];
      }
    }
  }

  /** ShiftRows only moves bytes within a row. */
  lemma ShiftRowsPermutesRows(m: StateMatrix, r: int)
    requires IsState(m) && 0 <= r < 4
    ensures multiset(ShiftRows(m)[r]) == multiset(m[r])
  {
    ShiftRowsRotates(m, r);
    assert m[r] == m[r][..r] + m[r][r..];
  }

  lemma ShiftRowsInverse(m: StateMatrix)
    requires IsState(m)
    ensures InvShiftRows(ShiftRows(m)) == m
    ensures ShiftRows(InvShiftRows(m)) == m
  {
    var a := InvShiftRows(ShiftRows(m));
    var b := ShiftRows(InvShiftRows(m));
    forall r | 0 <= r < 4
      ensures a[r] == m[r] && b[r] == m[r]
    {
      forall c | 0 <= c < 4
        ensures a[r][c] == m[r][c] && b[r][c] == m[r][c]
      {
        assert ((c + 4 - r) % 4 + r) % 4 == c;
        assert ((c + r) % 4 + 4 - r) % 4 == c;
      }
    }
  }

  /** Substitution and row rotation can be applied in either order (section 5.1 of FIPS-197). */
  lemma SubBytesShiftRowsCommute(m: StateMatrix)
    requires IsState(m)
    ensures SubBytes(ShiftRows(m)) == ShiftRows(SubBytes(m))
  {
    var a := SubBytes(ShiftRows(m));
    var b := ShiftRows(SubBytes(m));
    forall r | 0 <= r < 4
      ensures a[r] == b[r]
    {
    }
  }

  /** The engine's formulas are the product of the MDS matrix with the column. */
  lemma MixColumnIsMdsProduct(s: seq<bv8>, r: int)
    requires |s| == 4 && 0 <= r < 4
    ensures MixColumn(s)[r] == Dot(MDS[r], s)
  {
    if r == 0 {
      MdsRow0(s);
    } else if r == 1 {
      MdsRow1(s);
    } else if r == 2 {
      MdsRow2(s);
    } else {
      MdsRow3(s);
    }
  }

  // One lemma per row keeps every matrix coefficient a literal, which the
  // solver needs to see that a coefficient of 1 leaves its byte unchanged.

  lemma MdsRow0(s: seq<bv8>)
    requires |s| == 4
    ensures MixColumn(s)[0] == Dot(MDS[0], s)
  {
    MulByOne(s[2]);
    MulByOne(s[3]);
  }

  lemma MdsRow1(s: seq<bv8>)
    requires |s| == 4
    ensures MixColumn(s)[1] == Dot(MDS[1], s)
  {
    MulByOne(s[0]);
    MulByOne(s[3]);
  }

  lemma MdsRow2(s: seq<bv8>)
    requires |s| == 4
    ensures MixColumn(s)[2] == Dot(MDS[2], s)
  {
    MulByOne(s[0]);
    MulByOne(s[1]);
  }

  lemma MdsRow3(s: seq<bv8>)
    requires |s| == 4
    ensures MixColumn(s)[3] == Dot(MDS[3], s)
  {
    MulByOne(s[1]);
    MulByOne(s[2]);
  }

  /** Column `c` of the result is computed from column `c` of the input alone. */
  lemma MixColumnsColumnwise(m: StateMatrix, c: int)
    requires IsState(m) && 0 <= c < 4
    ensures Column(MixColumns(m), c) == MixColumn(Column(m, c))
  {
  }

  /** Two states that agree on one column agree on that column after mixing. */
  lemma MixColumnsLocal(m: StateMatrix, m': StateMatrix, c: int)
    requires IsState(m) && IsState(m') && 0 <= c < 4
    requires Column(m, c) == Column(m', c)
    ensures Column(MixColumns(m), c) == Column(MixColumns(m'), c)
  {
    MixColumnsColumnwise(m, c);
    MixColumnsColumnwise(m', c);
  }

  /** Adding the same round key twice gives back the state. */
  lemma AddRoundKeyInvolution(m: StateMatrix, roundKey: seq<bv8>)
    requires IsState(m) && |roundKey| == 16
    ensures AddRoundKey(AddRoundKey(m, roundKey), roundKey) == m
  {
    var a := AddRoundKey(AddRoundKey(m, roundKey), roundKey);
    forall r | 0 <= r < 4
      ensures a[r] == m[r]
    {
    }
  }
}
