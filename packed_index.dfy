/** The word `AUDIO_SAMPLES_INDICES` of src/platform.rs: one 64-bit atomic that holds
    the producer's write index in its high 32 bits and the consumer's read index in
    its low 32 bits.

    The word is modelled as an integer in [0, 2^64).  The source's bit operations
    are written as the arithmetic they perform on such a word: `x >> 32` is
    `x / 2^32`, `x & u32::MAX` is `x % 2^32`, and `(hi << 32) | lo` with
    `hi, lo < 2^32` is `hi * 2^32 + lo`.  The lemmas at the end of the module prove
    each of these equalities on 64-bit bit-vectors. */
module PackedIndex {

  const HALF: nat := 0x1_0000_0000

  /** u64 */
  type Word = x: int | 0 <= x < 0x1_0000_0000_0000_0000

  /** `(x >> 32) as usize`: the write half. */
  function WriteHalf(x: Word): (w: nat)
    ensures w < HALF
  {
    x / HALF
  }

  /** `(x & u32::MAX as u64) as usize`: the read half. */
  function ReadHalf(x: Word): (r: nat)
    ensures r < HALF
  {
    x % HALF
  }

  /** `(hi << 32) | lo` for two values that fit in 32 bits. */
  function Pack(hi: nat, lo: nat): (x: Word)
    requires hi < HALF && lo < HALF
    ensures WriteHalf(x) == hi && ReadHalf(x) == lo
  {
    hi * HALF + lo
  }

  /** `AtomicU64::new((2 << 32) | 0)`: write index 2, read index 0. */
  const INITIAL_INDICES: Word := Pack(2, 0)

  lemma InitialIndices()
    ensures INITIAL_INDICES == 0x2_0000_0000
    ensures WriteHalf(INITIAL_INDICES) == 2 && ReadHalf(INITIAL_INDICES) == 0
  {
  }

  /** Every word is the packing of its two halves: unpacking and repacking is the identity. */
  lemma UnpackPack(x: Word)
    ensures Pack(WriteHalf(x), ReadHalf(x)) == x
  {
  }

  /** Replacing one half leaves the other half as it was (the closures of both `fetch_update` calls). */
  lemma ReplaceHalves(x: Word, v: nat)
    requires v < HALF
    ensures ReadHalf(Pack(v, ReadHalf(x))) == ReadHalf(x)
    ensures WriteHalf(Pack(WriteHalf(x), v)) == WriteHalf(x)
  {
  }

  /** On 64-bit words, the shift right by 32 is division by 2^32 and the mask is the remainder. */
  lemma ShiftAndMaskAreDivMod(x: bv64)
    ensures x >> 32 == x / 0x1_0000_0000
    ensures x & 0xFFFF_FFFF == x % 0x1_0000_0000
  {
  }

  /** On 64-bit words whose halves fit in 32 bits, `(hi << 32) | lo` is `hi * 2^32 + lo`. */
  lemma ShiftOrIsMulAdd(hi: bv64, lo: bv64)
    requires hi < 0x1_0000_0000 && lo < 0x1_0000_0000
    ensures (hi << 32) | lo == hi * 0x1_0000_0000 + lo
  {
  }
}
