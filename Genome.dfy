/**
 * The 16-byte kitty dna and the per-bit breeding blend used by both kitties
 * pallets: child byte `i` is `(mask[i] & dna1[i]) | (!mask[i] & dna2[i])`.
 */
module Genome {

  /** `[u8; 16]` */
  type Dna = s: seq<bv8> | |s| == 16 witness seq(16, _ => 0 as bv8)

  /** The byte with only bit `k` (0 = least significant) set. */
  function BitMask(k: nat): bv8
    requires k < 8
  {
    if k == 0 then 0x01 else if k == 1 then 0x02 else if k == 2 then 0x04 else if k == 3 then 0x08
    else if k == 4 then 0x10 else if k == 5 then 0x20 else if k == 6 then 0x40 else 0x80
  }

  /** Bit `k` of a byte, as a boolean. */
  predicate Bit(b: bv8, k: nat)
    requires k < 8
  {
    b & BitMask(k) != 0
  }

  /** The byte-level blend step. */
  function BlendByte(m: bv8, x: bv8, y: bv8): bv8 {
    (m & x) | (!m & y)
  }

  /** The child dna produced from a mask and two parents' dna. */
  function Blend(mask: Dna, dna1: Dna, dna2: Dna): Dna {
    seq(16, i requires 0 <= i < 16 => BlendByte(mask[i], dna1[i], dna2[i]))
  }

  /** Under a one-bit mask `c`, the blend shows `x`'s bit where `m` has it set and `y`'s bit otherwise. */
  lemma BlendByteUnderMask(m: bv8, x: bv8, y: bv8, c: bv8)
    requires c == 0x01 || c == 0x02 || c == 0x04 || c == 0x08 || c == 0x10 || c == 0x20 || c == 0x40 || c == 0x80
    ensures (BlendByte(m, x, y) & c != 0) == if m & c != 0 then x & c != 0 else y & c != 0
  {
    assert BlendByte(m, x, y) & c == (m & c & x) | (!m & c & y);
    if m & c != 0 {
      assert m & c == c;
    } else {
      assert !m & c == c;
    }
  }

  /** Every bit of a blended byte is the bit of `x` where the mask bit is 1 and the bit of `y` otherwise. */
  lemma BlendByteBits(m: bv8, x: bv8, y: bv8, k: nat)
    requires k < 8
    ensures Bit(BlendByte(m, x, y), k) == if Bit(m, k) then Bit(x, k) else Bit(y, k)
  {
    BlendByteUnderMask(m, x, y, BitMask(k));
  }

  /**
   * The breeding property: every bit of every child byte is the bit at the
   * same position of exactly one parent, chosen by the mask bit there.
   */
  lemma BlendSelectsParentBits(mask: Dna, dna1: Dna, dna2: Dna, i: nat, k: nat)
    requires i < 16 && k < 8
    ensures Bit(Blend(mask, dna1, dna2)[i], k) == if Bit(mask[i], k) then Bit(dna1[i], k) else Bit(dna2[i], k)
  {
    BlendByteBits(mask[i], dna1[i], dna2[i], k);
  }

  /** Breeding two kitties with the same dna yields that dna, whatever the mask. */
  lemma BlendSameParents(mask: Dna, dna: Dna)
    ensures Blend(mask, dna, dna) == dna
  {
    forall i | 0 <= i < 16
      ensures Blend(mask, dna, dna)[i] == dna[i]
    {
      BlendByteBits(mask[i], dna[i], dna[i], 0);
    }
  }

  /** A mask of all ones copies the first parent, a mask of all zeros the second. */
  lemma BlendExtremeMasks(dna1: Dna, dna2: Dna)
    ensures Blend(seq(16, _ => 0xFF as bv8), dna1, dna2) == dna1
    ensures Blend(seq(16, _ => 0 as bv8), dna1, dna2) == dna2
  {
  }
}
