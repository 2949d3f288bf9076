/**
 * The AES-128 key schedule (section 5.2 of FIPS-197) at byte granularity,
 * as the engine computes it: the expanded key is 176 bytes, the first 16
 * are the cipher key, and every later byte is the byte 16 places earlier
 * XORed with one byte of a temporary word. That word is the previous four
 * bytes, transformed by RotWord, SubWord and a round constant when a new
 * 16-byte round key begins.
 *
 * The recurrence is stated for any byte substitution `sbox`; `ExpandKey`
 * and `IsKeySchedule` fix it to the AES S-box.
 */
module AesKeySchedule {
  import opened AesTables
  import GaloisField

  /** Bytes in an expanded AES-128 key: 11 round keys of 16 bytes. */
  const EXPANDED_KEY_BYTES: nat := 176

  /** Cyclic left rotation of a word by one byte. */
  function RotWord(t: seq<bv8>): (u: seq<bv8>)
    requires |t| == 4
    ensures |u| == 4
  {
    [t[1], t[2], t[3], t[0]]
  }

  /** Every byte of a word through the substitution table. */
  function SubWord(sbox: bv8 -> bv8, t: seq<bv8>): (u: seq<bv8>)
    requires |t| == 4
    ensures |u| == 4
  {
    [sbox(t[0]), sbox(t[1]), sbox(t[2]), sbox(t[3])]
  }

  /** True when byte `i` of the expanded key starts a new round key. */
  predicate StartsRoundKey(i: int)
  {
    i % 16 == 0
  }

  /**
   * The temporary word used for the four bytes starting at `i`, given the
   * four bytes `prev` just before them: transformed only at a round-key
   * boundary, where round key `i / 16` takes round constant `RCON[i / 16]`.
   */
  function KeyTemp(sbox: bv8 -> bv8, prev: seq<bv8>, i: int): (t: seq<bv8>)
    requires |prev| == 4 && 16 <= i < EXPANDED_KEY_BYTES
    ensures |t| == 4
  {
    if StartsRoundKey(i) then
      var u := SubWord(sbox, RotWord(prev));
      [u[0] ^ RCON[i / 16], u[1], u[2], u[3]]
    else
      prev
  }

  /** Bytewise XOR of two words. */
  function XorWord(a: seq<bv8>, b: seq<bv8>): (c: seq<bv8>)
    requires |a| == 4 && |b| == 4
    ensures |c| == 4
  {
    seq(4, k requires 0 <= k < 4 => a[k] ^ b[k])
  }

  /**
   * The word at byte `j` of `w` follows from the bytes before it: it is the
   * word 16 bytes earlier XORed with the temporary word built from the four
   * bytes just before `j`.
   */
  predicate WordFollows(sbox: bv8 -> bv8, w: seq<bv8>, j: int)
    requires 16 <= j && j + 4 <= |w| <= EXPANDED_KEY_BYTES && j % 4 == 0
  {
    w[j..j + 4] == XorWord(w[j - 16..j - 12], KeyTemp(sbox, w[j - 4..j], j))
  }

  /** `w` is the expanded key of `key`: the key itself, then every later word as the recurrence dictates. */
  predicate IsKeySchedule(key: seq<bv8>, w: seq<bv8>)
  {
    |key| == 16 && |w| == EXPANDED_KEY_BYTES && w[..16] == key &&
    forall j :: 16 <= j && j + 4 <= EXPANDED_KEY_BYTES && j % 4 == 0 ==> WordFollows(SBox, w, j)
  }

  /** The next four bytes of a partial schedule whose length is a multiple of four. */
  function NextWord(sbox: bv8 -> bv8, w: seq<bv8>): (next: seq<bv8>)
    requires 16 <= |w| < EXPANDED_KEY_BYTES && |w| % 4 == 0
    ensures |next| == 4
  {
    var j := |w|;
    XorWord(w[j - 16..j - 12], KeyTemp(sbox, w[j - 4..j], j))
  }

  /** Extends a partial schedule word by word to its full length. */
  function ExpandFrom(sbox: bv8 -> bv8, w: seq<bv8>): (full: seq<bv8>)
    requires 16 <= |w| <= EXPANDED_KEY_BYTES && |w| % 4 == 0
    ensures |full| == EXPANDED_KEY_BYTES && full[..|w|] == w
    decreases EXPANDED_KEY_BYTES - |w|
  {
    if |w| == EXPANDED_KEY_BYTES then w
    else
      var w' := w + NextWord(sbox, w);
      assert w'[..|w|] == w;
      ExpandFrom(sbox, w')
  }

  /** The expanded key of a 16-byte cipher key. */
  function ExpandKey(key: seq<bv8>): (w: seq<bv8>)
    requires |key| == 16
    ensures |w| == EXPANDED_KEY_BYTES && w[..16] == key
  {
    ExpandFrom(SBox, key)
  }

  /** The bytes of round key `round`, for `round` from 0 to 10. */
  function RoundKey(w: seq<bv8>, round: int): (rk: seq<bv8>)
    requires |w| == EXPANDED_KEY_BYTES && 0 <= round <= 10
    ensures |rk| == 16 && forall k :: 0 <= k < 16 ==> rk[k] == w[16 * round + k]
  {
    w[16 * round..16 * round + 16]
  }

  /**
   * Round key `r` computed from round key `r - 1` alone: each of its four
   * words is the word one round key back XORed with the word before it,
   * the first with the transformed last word of round key `r - 1`.
   */
  function NextRoundKey(sbox: bv8 -> bv8, prev: seq<bv8>, r: int): (next: seq<bv8>)
    requires |prev| == 16 && 1 <= r <= 10
    ensures |next| == 16
  {
    var w0 := XorWord(prev[0..4], KeyTemp(sbox, prev[12..16], 16 * r));
    var w1 := XorWord(prev[4..8], w0);
    var w2 := XorWord(prev[8..12], w1);
    var w3 := XorWord(prev[12..16], w2);
    w0 + w1 + w2 + w3
  }

  /** Round keys 0 to `n - 1`, one after the other. */
  function RoundKeys(w: seq<bv8>, n: nat): seq<bv8>
    requires |w| == EXPANDED_KEY_BYTES && n <= 11
  {
    if n == 0 then [] else RoundKeys(w, n - 1) + RoundKey(w, n - 1)
  }

  /** The first `n` round keys are the first `16n` bytes of the expanded key. */
  lemma {:induction false} RoundKeysPrefix(w: seq<bv8>, n: nat)
    requires |w| == EXPANDED_KEY_BYTES && n <= 11
    ensures RoundKeys(w, n) == w[..16 * n]
    decreases n
  {
    if n > 0 {
      RoundKeysPrefix(w, n - 1);
      assert w[..16 * n] == w[..16 * (n - 1)] + w[16 * (n - 1)..16 * n];
    }
  }

  /** The eleven round keys tile the expanded key: in order, with no gap and no overlap. */
  lemma RoundKeysTile(w: seq<bv8>)
    requires |w| == EXPANDED_KEY_BYTES
    ensures w == RoundKeys(w, 11)
  {
    RoundKeysPrefix(w, 11);
    assert w[..16 * 11] == w;
  }

  /** A word that follows from the bytes before it still does once more bytes are appended. */
  lemma WordFollowsKept(sbox: bv8 -> bv8, w: seq<bv8>, w': seq<bv8>, j: int)
    requires 16 <= j && j + 4 <= |w| <= |w'| <= EXPANDED_KEY_BYTES && j % 4 == 0
    requires w'[..|w|] == w && WordFollows(sbox, w, j)
    ensures WordFollows(sbox, w', j)
  {
    forall k | j - 16 <= k < j + 4
      ensures w'[k] == w[k]
    {
      assert w'[k] == w'[..|w|][k];
    }
    assert w'[j..j + 4] == w[j..j + 4];
    assert w'[j - 16..j - 12] == w[j - 16..j - 12];
    assert w'[j - 4..j] == w[j - 4..j];
  }

  /** The word `NextWord` appends follows from the bytes before it. */
  lemma NextWordFollows(sbox: bv8 -> bv8, w: seq<bv8>)
    requires 16 <= |w| < EXPANDED_KEY_BYTES && |w| % 4 == 0
    ensures WordFollows(sbox, w + NextWord(sbox, w), |w|)
  {
    var j := |w|;
    var w' := w + NextWord(sbox, w);
    assert w'[j..j + 4] == NextWord(sbox, w);
    assert w'[j - 16..j - 12] == w[j - 16..j - 12];
    assert w'[j - 4..j] == w[j - 4..j];
  }

  /** Every word that `ExpandFrom` adds follows from the bytes before it. */
  lemma {:induction false} ExpandFromFollows(sbox: bv8 -> bv8, w: seq<bv8>)
    requires 16 <= |w| <= EXPANDED_KEY_BYTES && |w| % 4 == 0
    requires forall j :: 16 <= j && j + 4 <= |w| && j % 4 == 0 ==> WordFollows(sbox, w, j)
    ensures forall j :: 16 <= j && j + 4 <= EXPANDED_KEY_BYTES && j % 4 == 0 ==> WordFollows(sbox, ExpandFrom(sbox, w), j)
    decreases EXPANDED_KEY_BYTES - |w|
  {
    if |w| < EXPANDED_KEY_BYTES {
      var w' := w + NextWord(sbox, w);
      forall j | 16 <= j && j + 4 <= |w'| && j % 4 == 0
        ensures WordFollows(sbox, w', j)
      {
        if j == |w| {
          NextWordFollows(sbox, w);
        } else {
          WordFollowsKept(sbox, w, w', j);
        }
      }
      ExpandFromFollows(sbox, w');
    }
  }

  /** Each word of the expanded schedule, from the end of `w` on, is `NextWord` of the bytes before it. */
  lemma {:induction false} ExpandFromNext(sbox: bv8 -> bv8, w: seq<bv8>, i: int)
    requires 16 <= |w| <= i < EXPANDED_KEY_BYTES && |w| % 4 == 0 && i % 4 == 0
    ensures ExpandFrom(sbox, w)[..i + 4] == ExpandFrom(sbox, w)[..i] + NextWord(sbox, ExpandFrom(sbox, w)[..i])
    decreases i - |w|
  {
    var w' := w + NextWord(sbox, w);
    var full := ExpandFrom(sbox, w');
    assert ExpandFrom(sbox, w) == full;
    if |w| == i {
      assert full[..i + 4] == w';
      assert full[..i] == w'[..i] == w;
    } else {
      ExpandFromNext(sbox, w', i);
    }
  }

  /** `ExpandKey` meets the declarative definition of the key schedule. */
  lemma ExpandKeyIsSchedule(key: seq<bv8>)
    requires |key| == 16
    ensures IsKeySchedule(key, ExpandKey(key))
  {
    ExpandFromFollows(SBox, key);
  }

  /** A key has exactly one schedule: the recurrence fixes every byte after the first 16. */
  lemma KeyScheduleUnique(key: seq<bv8>, w1: seq<bv8>, w2: seq<bv8>)
    requires IsKeySchedule(key, w1) && IsKeySchedule(key, w2)
    ensures w1 == w2
  {
    var n := 16;
    while n < EXPANDED_KEY_BYTES
      invariant 16 <= n <= EXPANDED_KEY_BYTES && n % 4 == 0
      invariant w1[..n] == w2[..n]
    {
      WordDetermined(w1, w2, n);
      n := n + 4;
    }
    assert w1 == w1[..n];
    assert w2 == w2[..n];
  }

  /** Two sequences that agree before word `j`, and in which word `j` follows, agree up to the end of word `j`. */
  lemma WordDetermined(w1: seq<bv8>, w2: seq<bv8>, j: int)
    requires 16 <= j && j + 4 <= |w1| <= EXPANDED_KEY_BYTES && j + 4 <= |w2| <= EXPANDED_KEY_BYTES && j % 4 == 0
    requires w1[..j] == w2[..j] && WordFollows(SBox, w1, j) && WordFollows(SBox, w2, j)
    ensures w1[..j + 4] == w2[..j + 4]
  {
    assert w1[j - 16..j - 12] == w1[..j][j - 16..j - 12];
    assert w2[j - 16..j - 12] == w2[..j][j - 16..j - 12];
    assert w1[j - 4..j] == w1[..j][j - 4..j];
    assert w2[j - 4..j] == w2[..j][j - 4..j];
    assert w1[..j + 4] == w1[..j] + w1[j..j + 4];
    assert w2[..j + 4] == w2[..j] + w2[j..j + 4];
  }

  /**
   * The recurrence byte by byte: every byte after the first 16 is the byte
   * 16 places earlier XORed with byte `i % 4` of the temporary word of its
   * word.
   */
  lemma ScheduleByteRecurrence(key: seq<bv8>, w: seq<bv8>, i: int)
    requires IsKeySchedule(key, w) && 16 <= i < EXPANDED_KEY_BYTES
    ensures var j := i - i % 4; w[i] == w[i - 16] ^ KeyTemp(SBox, w[j - 4..j], j)[i % 4]
  {
    var j := i - i % 4;
    var k := i % 4;
    assert WordFollows(SBox, w, j);
    assert w[i] == w[j..j + 4][k];
    assert w[i - 16] == w[j - 16..j - 12][k];
  }

  /** A word inside a round key is the word 16 bytes earlier XORed with the word just before it. */
  lemma InnerWord(sbox: bv8 -> bv8, w: seq<bv8>, j: int)
    requires 16 <= j && j + 4 <= |w| <= EXPANDED_KEY_BYTES && j % 4 == 0 && !StartsRoundKey(j)
    requires WordFollows(sbox, w, j)
    ensures w[j..j + 4] == XorWord(w[j - 16..j - 12], w[j - 4..j])
  {
  }

  /** The words of round key `r - 1`, as slices of the schedule. */
  lemma PreviousWords(w: seq<bv8>, r: int)
    requires |w| == EXPANDED_KEY_BYTES && 1 <= r <= 10
    ensures var j, prev := 16 * r, RoundKey(w, r - 1);
      prev[0..4] == w[j - 16..j - 12] && prev[4..8] == w[j - 12..j - 8] &&
      prev[8..12] == w[j - 8..j - 4] && prev[12..16] == w[j - 4..j]
  {
  }

  /** Where the words of round key `r` start: on word boundaries, and only the first on a round-key boundary. */
  lemma RoundKeyOffsets(r: int)
    requires 1 <= r <= 10
    ensures var j := 16 * r; j % 4 == 0 && (j + 4) % 4 == 0 && (j + 8) % 4 == 0 && (j + 12) % 4 == 0
    ensures var j := 16 * r; !StartsRoundKey(j + 4) && !StartsRoundKey(j + 8) && !StartsRoundKey(j + 12)
  {
    var j := 16 * r;
    assert j + 4 == 16 * r + 4 && j + 8 == 16 * r + 8 && j + 12 == 16 * r + 12;
  }

  /** In a schedule built with `sbox`, each round key after the first follows from the one before it. */
  lemma RoundKeyFromPrevious(sbox: bv8 -> bv8, w: seq<bv8>, r: int)
    requires |w| == EXPANDED_KEY_BYTES && 1 <= r <= 10
    requires forall j :: 16 <= j && j + 4 <= EXPANDED_KEY_BYTES && j % 4 == 0 ==> WordFollows(sbox, w, j)
    ensures RoundKey(w, r) == NextRoundKey(sbox, RoundKey(w, r - 1), r)
  {
    var j := 16 * r;
    RoundKeyOffsets(r);
    PreviousWords(w, r);
    assert WordFollows(sbox, w, j);
    InnerWord(sbox, w, j + 4);
    InnerWord(sbox, w, j + 8);
    InnerWord(sbox, w, j + 12);
    assert RoundKey(w, r) == w[j..j + 4] + w[j + 4..j + 8] + w[j + 8..j + 12] + w[j + 12..j + 16];
  }

  /** Each round key's constant is the previous one doubled in GF(2^8) (section 5.2 of FIPS-197). */
  lemma RconDoubles(k: int)
    requires 1 <= k < 10
    ensures RCON[k + 1] == GaloisField.XTime(RCON[k])
  {
  }

  /** The schedule's transform applies at byte `i` exactly when `i` starts round key 1 to 10. */
  lemma TransformBoundaries(i: int)
    requires 16 <= i < EXPANDED_KEY_BYTES && i % 4 == 0
    ensures StartsRoundKey(i) <==> exists k :: 1 <= k <= 10 && i == 16 * k
  {
    if StartsRoundKey(i) {
      assert i == 16 * (i / 16);
    }
  }
}
