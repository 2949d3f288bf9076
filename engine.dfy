/**
 * The engine's transformations as the source writes them: each takes a
 * 4x4 state buffer, copies it into a fresh buffer, updates the copy in
 * place cell by cell and returns it, leaving its argument untouched. Each
 * method is proved to compute the functional reference of the same name.
 */
module AesEngine {
  import opened AesTypes
  import opened AesTables
  import opened GaloisField
  import Spec = AesSpec
  import opened AesKeySchedule

  /** A buffer with the shape of the state: 4 rows of 4 columns. */
  predicate IsStateArray(a: array2<bv8>)
  {
    a.Length0 == 4 && a.Length1 == 4
  }

  /** The value currently held by a state buffer, row by row. */
  function Snapshot(a: array2<bv8>): (m: StateMatrix)
    reads a
    requires IsStateArray(a)
    ensures IsState(m)
    ensures forall r, c :: 0 <= r < 4 && 0 <= c < 4 ==> m[r][c] == a[r, c]
  {
    seq(4, r requires 0 <= r < 4 reads a => seq(4, c requires 0 <= c < 4 reads a => a[r, c]))
  }

  /** Two states are equal when they agree cell by cell. */
  lemma StatesEqual(m: StateMatrix, m': StateMatrix)
    requires IsState(m) && IsState(m')
    requires forall r, c :: 0 <= r < 4 && 0 <= c < 4 ==> m[r][c] == m'[r][c]
    ensures m == m'
  {
    forall r | 0 <= r < 4
      ensures m[r] == m'[r]
    {
      assert forall c :: 0 <= c < 4 ==> m[r][c] == m'[r][c];
    }
  }

  /** A fresh buffer holding the same state. */
  method CopyState(s: array2<bv8>) returns (out: array2<bv8>)
    requires IsStateArray(s)
    ensures fresh(out) && IsStateArray(out)
    ensures Snapshot(out) == Snapshot(s)
  {
    out := new bv8[4, 4];
    for r := 0 to 4
      invariant forall r', c :: 0 <= r' < r && 0 <= c < 4 ==> out[r', c] == s[r', c]
    {
      for c := 0 to 4
        invariant forall r', c' :: 0 <= r' < r && 0 <= c' < 4 ==> out[r', c'] == s[r', c']
        invariant forall c' :: 0 <= c' < c ==> out[r, c'] == s[r, c']
      {
        out[r, c] := s[r, c];
      }
    }
    StatesEqual(Snapshot(out), Snapshot(s));
  }

  /** Lays 16 bytes out column by column. */
  method ToStateMatrix(bytes: seq<bv8>) returns (state: array2<bv8>)
    requires |bytes| == 16
    ensures fresh(state) && IsStateArray(state)
    ensures Snapshot(state) == Spec.ToState(bytes)
  {
    state := new bv8[4, 4];
    for c := 0 to 4
      invariant forall r, c' :: 0 <= r < 4 && 0 <= c' < c ==> state[r, c'] == bytes[c' * 4 + r]
    {
      for r := 0 to 4
        invariant forall r', c' :: 0 <= r' < 4 && 0 <= c' < c ==> state[r', c'] == bytes[c' * 4 + r']
        invariant forall r' :: 0 <= r' < r ==> state[r', c] == bytes[c * 4 + r']
      {
        state[r, c] := bytes[c * 4 + r];
      }
    }
    StatesEqual(Snapshot(state), Spec.ToState(bytes));
  }

  /** Reads a state back out as 16 bytes, column by column. */
  method FromStateMatrix(state: array2<bv8>) returns (bytes: array<bv8>)
    requires IsStateArray(state)
    ensures fresh(bytes)
    ensures bytes[..] == Spec.FromState(Snapshot(state))
  {
    bytes := new bv8[16];
    for c := 0 to 4
      invariant forall r, c' :: 0 <= r < 4 && 0 <= c' < c ==> bytes[c' * 4 + r] == state[r, c']
    {
      for r := 0 to 4
        invariant forall r', c' :: 0 <= r' < 4 && 0 <= c' < c ==> bytes[c' * 4 + r'] == state[r', c']
        invariant forall r' :: 0 <= r' < r ==> bytes[c * 4 + r'] == state[r', c]
      {
        bytes[c * 4 + r] := state[r, c];
      }
    }
    forall i | 0 <= i < 16
      ensures bytes[i] == Spec.FromState(Snapshot(state))[i]
    {
      assert (i / 4) * 4 + i % 4 == i;
    }
  }

  /**
   * Expands a 16-byte key to 176 bytes: copies the key, then produces the
   * rest four bytes at a time (`ScheduleWords`). The ghost `boundaries`
   * lists, in order, the bytes at which the RotWord/SubWord/round-constant
   * transform ran.
   */
  method KeyExpansion(key: seq<bv8>) returns (w: array<bv8>, ghost boundaries: seq<int>)
    requires |key| == 16
    ensures fresh(w)
    ensures w[..] == ExpandKey(key)
    ensures |boundaries| == 10 && forall k :: 0 <= k < 10 ==> boundaries[k] == 16 * (k + 1)
  {
    w := new bv8[EXPANDED_KEY_BYTES](_ => 0);
    var i := 0;
    while i < 16
      invariant 0 <= i <= 16
      invariant w[..i] == key[..i]
    {
      w[i] := key[i];
      i := i + 1;
    }
    assert w[..16] == key;
    boundaries := ScheduleWords(w, SBox);
  }

  /**
   * The main loop of `KeyExpansion`, over byte `i`, the count of bytes
   * generated and the round-constant index, for any byte substitution
   * `sbox`. The ghost `phase` (1 to 4) says which word of
   * round key `rconIteration - 1` was produced last. The ghost
   * `boundaries` lists the bytes at which `TempWord` took its transform
   * branch.
   */
  method ScheduleWords(w: array<bv8>, sbox: bv8 -> bv8) returns (ghost boundaries: seq<int>)
    requires w.Length == EXPANDED_KEY_BYTES
    modifies w
    ensures w[..] == ExpandFrom(sbox, old(w[..16]))
    ensures |boundaries| == 10 && forall k :: 0 <= k < 10 ==> boundaries[k] == 16 * (k + 1)
  {
    ghost var full := ExpandFrom(sbox, w[..16]);
    var i := 16;
    var bytesGenerated := 16;
    var rconIteration := 1;
    ghost var phase := 4;
    boundaries := [];
    while bytesGenerated < EXPANDED_KEY_BYTES
      invariant i == bytesGenerated && i <= EXPANDED_KEY_BYTES
      invariant 1 <= phase <= 4 && i == 16 * (rconIteration - 1) + 4 * phase
      invariant |boundaries| == rconIteration - 1
      invariant forall k :: 0 <= k < |boundaries| ==> boundaries[k] == 16 * (k + 1)
      invariant w[..i] == full[..i]
    {
      WordPosition(rconIteration, phase);
      ExpandFromNext(sbox, old(w[..16]), i);
      ghost var transformed;
      rconIteration, transformed := AppendWord(w, i, sbox, rconIteration);
      if transformed {
        boundaries := boundaries + [i];
      }
      if phase == 4 {
        phase := 1;
      } else {
        phase := phase + 1;
      }
      i := i + 4;
      bytesGenerated := bytesGenerated + 4;
    }
    WordPosition(rconIteration, phase);
    assert w[..] == w[..i] && full == full[..i];
  }

  /**
   * One pass of the main loop: builds the temporary word from the four
   * bytes before `i` and writes the next four bytes, each the byte 16
   * places earlier XORed with one byte of that word.
   */
  method AppendWord(w: array<bv8>, i: int, sbox: bv8 -> bv8, rconIteration: int) returns (nextRcon: int, ghost transformed: bool)
    requires 16 <= i && i + 4 <= w.Length && i + 4 <= EXPANDED_KEY_BYTES && i % 4 == 0
    requires i % 16 == 0 ==> rconIteration == i / 16
    modifies w
    ensures w[..i + 4] == old(w[..i]) + NextWord(sbox, old(w[..i]))
    ensures w[i + 4..] == old(w[i + 4..])
    ensures nextRcon == if i % 16 == 0 then rconIteration + 1 else rconIteration
    ensures transformed <==> StartsRoundKey(i)
  {
    ghost var prefix := w[..i];
    var t;
    t, nextRcon, transformed := TempWord(w, i, sbox, rconIteration);
    assert prefix[i - 4..i] == w[i - 4..i];
    XorWordAt(w, i, t);
  }

  /**
   * The temporary word for the four bytes from `i` on: the previous four
   * bytes, transformed when `i` starts a round key, in which case the
   * round-constant index advances.
   */
  method TempWord(w: array<bv8>, i: int, sbox: bv8 -> bv8, rconIteration: int) returns (t: seq<bv8>, nextRcon: int, ghost transformed: bool)
    requires 16 <= i < EXPANDED_KEY_BYTES && i <= w.Length
    requires i % 16 == 0 ==> rconIteration == i / 16
    ensures t == KeyTemp(sbox, w[i - 4..i], i)
    ensures nextRcon == if i % 16 == 0 then rconIteration + 1 else rconIteration
    ensures transformed <==> StartsRoundKey(i)
  {
    t := [w[i - 4], w[i - 3], w[i - 2], w[i - 1]];
    nextRcon := rconIteration;
    transformed := false;
    if i % 16 == 0 {
      t := TransformWord(t, sbox, RCON[nextRcon]);
      nextRcon := nextRcon + 1;
      transformed := true;
    }
  }

  /** Where byte `16 * (r - 1) + 4 * phase` of the schedule falls: on a word boundary, and on a round-key boundary exactly at the fourth word. */
  lemma WordPosition(r: int, phase: int)
    requires 1 <= phase <= 4
    ensures var i := 16 * (r - 1) + 4 * phase; i % 4 == 0 && (i % 16 == 0 <==> phase == 4) && (phase == 4 ==> i / 16 == r)
  {
    var i := 16 * (r - 1) + 4 * phase;
    assert i == 4 * (4 * (r - 1) + phase);
    if phase == 4 {
      assert i == 16 * r;
    } else {
      assert i == 16 * (r - 1) + 4 * phase && 0 < 4 * phase < 16;
    }
  }

  /**
   * The transform at a round-key boundary, in the engine's order: rotate
   * the word left through a temporary, map every byte through `sbox` and
   * XOR `rcon` into the first byte.
   */
  method TransformWord(t: seq<bv8>, sbox: bv8 -> bv8, rcon: bv8) returns (u: seq<bv8>)
    requires |t| == 4
    ensures u == [sbox(t[1]) ^ rcon, sbox(t[2]), sbox(t[3]), sbox(t[0])]
  {
    u := t;
    var tmp := u[0];
    u := u[0 := u[1]];
    u := u[1 := u[2]];
    u := u[2 := u[3]];
    u := u[3 := tmp];
    u := seq(4, k requires 0 <= k < 4 => sbox(u[k]));
    u := u[0 := u[0] ^ rcon];
  }

  /** The inner loop of `KeyExpansion`: bytes `i` to `i + 3` become the bytes 16 places earlier XORed with `t`. */
  method XorWordAt(w: array<bv8>, i: int, t: seq<bv8>)
    requires 16 <= i && i + 4 <= w.Length && |t| == 4
    modifies w
    ensures w[..i + 4] == old(w[..i]) + XorWord(old(w[..i])[i - 16..i - 12], t)
    ensures w[i + 4..] == old(w[i + 4..])
  {
    ghost var prefix := w[..i];
    ghost var source := prefix[i - 16..i - 12];
    ghost var word := XorWord(source, t);
    var j := i;
    for k := 0 to 4
      invariant j == i + k
      invariant w[..j] == prefix + word[..k]
      invariant w[i + 4..] == old(w[i + 4..])
    {
      assert w[j - 16] == w[..j][j - 16];
      assert source[k] == prefix[i - 16 + k] == w[..j][j - 16];
      w[j] := w[j - 16] ^ t[k];
      assert w[j] == word[k];
      assert word[..k + 1] == word[..k] + [word[k]];
      j := j + 1;
    }
  }

  /** XORs every cell with the same cell of the round key laid out as a state. */
  method AddRoundKey(state: array2<bv8>, roundKey: seq<bv8>) returns (newState: array2<bv8>)
    requires IsStateArray(state) && |roundKey| == 16
    ensures fresh(newState) && IsStateArray(newState)
    ensures Snapshot(newState) == Spec.AddRoundKey(Snapshot(state), roundKey)
  {
    newState := CopyState(state);
    var keyMatrix := ToStateMatrix(roundKey);
    XorCells(newState, keyMatrix);
    StatesEqual(Snapshot(newState), Spec.AddRoundKey(Snapshot(state), roundKey));
  }

  /** The loop of `AddRoundKey`: XORs `key` into `a`, cell by cell, row by row. */
  method XorCells(a: array2<bv8>, key: array2<bv8>)
    requires IsStateArray(a) && IsStateArray(key) && a != key
    modifies a
    ensures forall r, c :: 0 <= r < 4 && 0 <= c < 4 ==> a[r, c] == old(a[r, c]) ^ key[r, c]
  {
    ghost var m := Snapshot(a);
    ghost var k := Snapshot(key);
    for r := 0 to 4
      invariant forall r', c' :: 0 <= r' < r && 0 <= c' < 4 ==> a[r', c'] == m[r'][c'] ^ k[r'][c']
      invariant forall r', c' :: r <= r' < 4 && 0 <= c' < 4 ==> a[r', c'] == m[r'][c']
    {
      for c := 0 to 4
        invariant forall r', c' :: 0 <= r' < r && 0 <= c' < 4 ==> a[r', c'] == m[r'][c'] ^ k[r'][c']
        invariant forall c' :: 0 <= c' < c ==> a[r, c'] == m[r][c'] ^ k[r][c']
        invariant forall r', c' :: r < r' < 4 && 0 <= c' < 4 ==> a[r', c'] == m[r'][c']
        invariant forall c' :: c <= c' < 4 ==> a[r, c'] == m[r][c']
      {
        a[r, c] := a[r, c] ^ key[r, c];
      }
    }
  }

  /** Replaces every cell by its S-box entry. */
  method SubBytes(state: array2<bv8>) returns (newState: array2<bv8>)
    requires IsStateArray(state)
    ensures fresh(newState) && IsStateArray(newState)
    ensures Snapshot(newState) == Spec.SubBytes(Snapshot(state))
  {
    newState := CopyState(state);
    SubstituteCells(newState, SBox);
    StatesEqual(Snapshot(newState), Spec.SubBytes(Snapshot(state)));
  }

  /**
   * The loop of `SubBytes`: replaces every cell of `a` by its entry under
   * `sbox`, row by row. It is proved for any byte substitution, so that the
   * proof does not look inside the S-box.
   */
  method SubstituteCells(a: array2<bv8>, sbox: bv8 -> bv8)
    requires IsStateArray(a)
    modifies a
    ensures forall r, c :: 0 <= r < 4 && 0 <= c < 4 ==> a[r, c] == sbox(old(a[r, c]))
  {
    ghost var m := Snapshot(a);
    for r := 0 to 4
      invariant forall r', c' :: 0 <= r' < r && 0 <= c' < 4 ==> a[r', c'] == sbox(m[r'][c'])
      invariant forall r', c' :: r <= r' < 4 && 0 <= c' < 4 ==> a[r', c'] == m[r'][c']
    {
      for c := 0 to 4
        invariant forall r', c' :: 0 <= r' < r && 0 <= c' < 4 ==> a[r', c'] == sbox(m[r'][c'])
        invariant forall c' :: 0 <= c' < c ==> a[r, c'] == sbox(m[r][c'])
        invariant forall r', c' :: r < r' < 4 && 0 <= c' < 4 ==> a[r', c'] == m[r'][c']
        invariant forall c' :: c <= c' < 4 ==> a[r, c'] == m[r][c']
      {
        a[r, c] := sbox(a[r, c]);
      }
    }
  }

  /** Rotates row 1 left by one, row 2 by two and row 3 by three, through temporaries; row 0 stays. */
  method ShiftRows(state: array2<bv8>) returns (newState: array2<bv8>)
    requires IsStateArray(state)
    ensures fresh(newState) && IsStateArray(newState)
    ensures Snapshot(newState) == Spec.ShiftRows(Snapshot(state))
  {
    newState := CopyState(state);
    ShiftRow1(newState);
    ShiftRow2(newState);
    ShiftRow3(newState);
    ShiftedCells(Snapshot(state), Snapshot(newState));
  }

  /** Row 1 of `ShiftRows`: shift left by one. */
  method ShiftRow1(a: array2<bv8>)
    requires IsStateArray(a)
    modifies a
    ensures a[1, 0] == old(a[1, 1]) && a[1, 1] == old(a[1, 2]) && a[1, 2] == old(a[1, 3]) && a[1, 3] == old(a[1, 0])
    ensures forall r, c :: 0 <= r < 4 && r != 1 && 0 <= c < 4 ==> a[r, c] == old(a[r, c])
  {
    var tmp := a[1, 0];
    a[1, 0] := a[1, 1];
    a[1, 1] := a[1, 2];
    a[1, 2] := a[1, 3];
    a[1, 3] := tmp;
  }

  /** Row 2 of `ShiftRows`: shift left by two, swapping the halves through two temporaries. */
  method ShiftRow2(a: array2<bv8>)
    requires IsStateArray(a)
    modifies a
    ensures a[2, 0] == old(a[2, 2]) && a[2, 1] == old(a[2, 3]) && a[2, 2] == old(a[2, 0]) && a[2, 3] == old(a[2, 1])
    ensures forall r, c :: 0 <= r < 4 && r != 2 && 0 <= c < 4 ==> a[r, c] == old(a[r, c])
  {
    var tmp := a[2, 0];
    var tmp2 := a[2, 1];
    a[2, 0] := a[2, 2];
    a[2, 1] := a[2, 3];
    a[2, 2] := tmp;
    a[2, 3] := tmp2;
  }

  /** Row 3 of `ShiftRows`: shift left by three, done as a shift right by one from the right end. */
  method ShiftRow3(a: array2<bv8>)
    requires IsStateArray(a)
    modifies a
    ensures a[3, 0] == old(a[3, 3]) && a[3, 1] == old(a[3, 0]) && a[3, 2] == old(a[3, 1]) && a[3, 3] == old(a[3, 2])
    ensures forall r, c :: 0 <= r < 3 && 0 <= c < 4 ==> a[r, c] == old(a[r, c])
  {
    var tmp := a[3, 3];
    a[3, 3] := a[3, 2];
    a[3, 2] := a[3, 1];
    a[3, 1] := a[3, 0];
    a[3, 0] := tmp;
  }

  /** A state whose 16 cells are those of `m` with row `r` rotated left by `r` is `ShiftRows(m)`. */
  lemma ShiftedCells(m: StateMatrix, out: StateMatrix)
    requires IsState(m) && IsState(out)
    requires out[0][0] == m[0][0] && out[0][1] == m[0][1] && out[0][2] == m[0][2] && out[0][3] == m[0][3]
    requires out[1][0] == m[1][1] && out[1][1] == m[1][2] && out[1][2] == m[1][3] && out[1][3] == m[1][0]
    requires out[2][0] == m[2][2] && out[2][1] == m[2][3] && out[2][2] == m[2][0] && out[2][3] == m[2][1]
    requires out[3][0] == m[3][3] && out[3][1] == m[3][0] && out[3][2] == m[3][1] && out[3][3] == m[3][2]
    ensures out == Spec.ShiftRows(m)
  {
    forall r, c | 0 <= r < 4 && 0 <= c < 4
      ensures out[r][c] == Spec.ShiftRows(m)[r][c]
    {
      assert r == 0 || r == 1 || r == 2 || r == 3;
      assert c == 0 || c == 1 || c == 2 || c == 3;
    }
    StatesEqual(out, Spec.ShiftRows(m));
  }

  /** Column `c` of a state buffer, top to bottom. */
  function ColumnOf(a: array2<bv8>, c: int): (col: seq<bv8>)
    reads a
    requires IsStateArray(a) && 0 <= c < 4
    ensures |col| == 4
  {
    [a[0, c], a[1, c], a[2, c], a[3, c]]
  }

  /** Replaces each column by its product with the MDS matrix. */
  method MixColumns(state: array2<bv8>) returns (newState: array2<bv8>)
    requires IsStateArray(state)
    ensures fresh(newState) && IsStateArray(newState)
    ensures Snapshot(newState) == Spec.MixColumns(Snapshot(state))
  {
    newState := CopyState(state);
    ghost var m := Snapshot(state);
    MixCells(newState);
    forall c | 0 <= c < 4
      ensures Spec.Column(Snapshot(newState), c) == Spec.Column(Spec.MixColumns(m), c)
    {
      assert Spec.Column(m, c) == ColumnOf(state, c);
      assert Spec.Column(Snapshot(newState), c) == ColumnOf(newState, c);
      Spec.MixColumnsColumnwise(m, c);
    }
    ColumnsEqual(Snapshot(newState), Spec.MixColumns(m));
  }

  /** The loop of `MixColumns`: mixes columns 0 to 3 of `a` in turn. */
  method MixCells(a: array2<bv8>)
    requires IsStateArray(a)
    modifies a
    ensures forall c :: 0 <= c < 4 ==> ColumnOf(a, c) == Spec.MixColumn(old(ColumnOf(a, c)))
  {
    ghost var cols := seq(4, c requires 0 <= c < 4 reads a => ColumnOf(a, c));
    ghost var mixed := seq(4, c requires 0 <= c < 4 => Spec.MixColumn(cols[c]));
    for c := 0 to 4
      invariant forall c' :: 0 <= c' < c ==> ColumnOf(a, c') == mixed[c']
      invariant forall c' :: c <= c' < 4 ==> ColumnOf(a, c') == cols[c']
    {
      MixColumnAt(a, c, cols[c]);
    }
  }

  /** Two states are equal when they agree column by column. */
  lemma ColumnsEqual(m: StateMatrix, m': StateMatrix)
    requires IsState(m) && IsState(m')
    requires forall c :: 0 <= c < 4 ==> Spec.Column(m, c) == Spec.Column(m', c)
    ensures m == m'
  {
    forall r, c | 0 <= r < 4 && 0 <= c < 4
      ensures m[r][c] == m'[r][c]
    {
      assert m[r][c] == Spec.Column(m, c)[r];
      assert m'[r][c] == Spec.Column(m', c)[r];
    }
    StatesEqual(m, m');
  }

  /** One pass of the `MixColumns` loop: column `c` is read into four locals and rewritten from them, using `GMul` for the coefficients 2 and 3. */
  method MixColumnAt(a: array2<bv8>, c: int, ghost col: seq<bv8>)
    requires IsStateArray(a) && 0 <= c < 4 && ColumnOf(a, c) == col
    modifies a
    ensures ColumnOf(a, c) == Spec.MixColumn(col)
    ensures forall c' :: 0 <= c' < 4 && c' != c ==> ColumnOf(a, c') == old(ColumnOf(a, c'))
  {
    var s0 := a[0, c];
    var s1 := a[1, c];
    var s2 := a[2, c];
    var s3 := a[3, c];

    var x0 := GMul(s0, 2);
    var x1 := GMul(s1, 3);
    a[0, c] := Xor4(x0, x1, s2, s3);
    x0 := GMul(s1, 2);
    x1 := GMul(s2, 3);
    a[1, c] := Xor4(s0, x0, x1, s3);
    x0 := GMul(s2, 2);
    x1 := GMul(s3, 3);
    a[2, c] := Xor4(s0, s1, x0, x1);
    x0 := GMul(s0, 3);
    x1 := GMul(s3, 2);
    a[3, c] := Xor4(x0, s1, s2, x1);
  }
}
