/**
 The vector code for the compression function of BLAKE2b, on a little-endian host: what the
 register operations do to each lane, and the compression, which is proved equal to the
 function F for every instruction set that the macros distinguish.
 */
module Blake2bSimd {
  import opened Bytes
  import opened Rounds
  import opened Simd
  import opened Blake2b
  import opened TwoLanes

  function AddRegs(x: Reg<bv64>, y: Reg<bv64>): Reg<bv64> { Reg(Add(x.lo, y.lo), Add(x.hi, y.hi)) }
  function XorRegs(x: Reg<bv64>, y: Reg<bv64>): Reg<bv64> { Reg(Xor(x.lo, y.lo), Xor(x.hi, y.hi)) }

  function Low32(w: bv64): bv64 { w & 0xFFFF_FFFF }
  function High32(w: bv64): bv64 { w >> 32 }
  function Join32(lo: bv64, hi: bv64): bv64 { lo | (hi << 32) }

  /** The i-th 32-bit lane. */
  function Dword(x: Reg<bv64>, i: nat): bv64
    requires i < 4
  {
    if i == 0 then Low32(x.lo) else if i == 1 then High32(x.lo)
    else if i == 2 then Low32(x.hi) else High32(x.hi)
  }

  /** _mm_shuffle_epi32 with _MM_SHUFFLE(d3, d2, d1, d0), for any selection of lanes. */
  function ShuffleLanes(x: Reg<bv64>, d3: nat, d2: nat, d1: nat, d0: nat): Reg<bv64>
    requires d0 < 4 && d1 < 4 && d2 < 4 && d3 < 4
  {
    Reg(Join32(Dword(x, d0), Dword(x, d1)), Join32(Dword(x, d2), Dword(x, d3)))
  }

  /** The i-th byte of a word. */
  function ByteOf(w: bv64, i: nat): bv64
    requires i < 8
  {
    if i == 0 then w & 0xFF else if i == 1 then (w >> 8) & 0xFF
    else if i == 2 then (w >> 16) & 0xFF else if i == 3 then (w >> 24) & 0xFF
    else if i == 4 then (w >> 32) & 0xFF else if i == 5 then (w >> 40) & 0xFF
    else if i == 6 then (w >> 48) & 0xFF else (w >> 56) & 0xFF
  }

  /** The i-th byte of a register. */
  function ByteLane(x: Reg<bv64>, i: nat): bv64
    requires i < 16
  {
    if i < 8 then ByteOf(x.lo, i) else ByteOf(x.hi, i - 8)
  }

  /** A word from its bytes. */
  function Word(b0: bv64, b1: bv64, b2: bv64, b3: bv64, b4: bv64, b5: bv64, b6: bv64, b7: bv64): bv64 {
    b0 | (b1 << 8) | (b2 << 16) | (b3 << 24) | (b4 << 32) | (b5 << 40) | (b6 << 48) | (b7 << 56)
  }

  /** _mm_shuffle_epi8 with a mask of byte indices. */
  function ShuffleBytes(x: Reg<bv64>, mask: seq<Index>): Reg<bv64>
    requires |mask| == 16
  {
    Reg(Word(ByteLane(x, mask[0]), ByteLane(x, mask[1]), ByteLane(x, mask[2]), ByteLane(x, mask[3]),
             ByteLane(x, mask[4]), ByteLane(x, mask[5]), ByteLane(x, mask[6]), ByteLane(x, mask[7])),
        Word(ByteLane(x, mask[8]), ByteLane(x, mask[9]), ByteLane(x, mask[10]), ByteLane(x, mask[11]),
             ByteLane(x, mask[12]), ByteLane(x, mask[13]), ByteLane(x, mask[14]), ByteLane(x, mask[15])))
  }

  function Srl(w: bv64, n: nat): bv64
    requires n <= 64
  {
    w >> n
  }

  function Sll(w: bv64, n: nat): bv64
    requires n <= 64
  {
    w << n
  }

  /** _mm_srli_epi64. */
  function SrlRegs(x: Reg<bv64>, n: nat): Reg<bv64>
    requires n <= 64
  {
    Reg(Srl(x.lo, n), Srl(x.hi, n))
  }

  /** _mm_slli_epi64. */
  function SllRegs(x: Reg<bv64>, n: nat): Reg<bv64>
    requires n <= 64
  {
    Reg(Sll(x.lo, n), Sll(x.hi, n))
  }

  // ---- The macro _mm_roti_epi64 ----

  function Roti32(isa: Isa, x: Reg<bv64>): Reg<bv64> {
    if isa == Sse2 then XorRegs(SrlRegs(x, 32), SllRegs(x, 32))
    else ShuffleLanes(x, 2, 3, 0, 1)
  }

  function Roti24(isa: Isa, x: Reg<bv64>): Reg<bv64> {
    if isa == Sse2 then XorRegs(SrlRegs(x, 24), SllRegs(x, 40))
    else ShuffleBytes(x, [3, 4, 5, 6, 7, 0, 1, 2, 11, 12, 13, 14, 15, 8, 9, 10])
  }

  function Roti16(isa: Isa, x: Reg<bv64>): Reg<bv64> {
    if isa == Sse2 then XorRegs(SrlRegs(x, 16), SllRegs(x, 48))
    else ShuffleBytes(x, [2, 3, 4, 5, 6, 7, 0, 1, 10, 11, 12, 13, 14, 15, 8, 9])
  }

  function Roti63(isa: Isa, x: Reg<bv64>): Reg<bv64> {
    if isa == Sse2 then XorRegs(SrlRegs(x, 63), SllRegs(x, 1))
    else XorRegs(SrlRegs(x, 63), AddRegs(x, x))
  }

  // Facts about one word: shifts that do not overlap, and bytes put back in another order.

  lemma XorOfShifts32(w: bv64) ensures Xor(Srl(w, 32), Sll(w, 32)) == RotR32(w) {}
  lemma XorOfShifts24(w: bv64) ensures Xor(Srl(w, 24), Sll(w, 40)) == RotR24(w) {}
  lemma XorOfShifts16(w: bv64) ensures Xor(Srl(w, 16), Sll(w, 48)) == RotR16(w) {}
  lemma XorOfShifts63(w: bv64) ensures Xor(Srl(w, 63), Sll(w, 1)) == RotR63(w) {}
  lemma XorOfSum63(w: bv64) ensures Xor(Srl(w, 63), Add(w, w)) == RotR63(w) {}

  lemma SwapOfDwords(w: bv64)
    ensures Join32(High32(w), Low32(w)) == RotR32(w)
  {
    assert (w & 0xFFFF_FFFF) << 32 == w << 32;
  }

  lemma RotationOfBytes24(w: bv64)
    ensures Word(ByteOf(w, 3), ByteOf(w, 4), ByteOf(w, 5), ByteOf(w, 6),
                 ByteOf(w, 7), ByteOf(w, 0), ByteOf(w, 1), ByteOf(w, 2)) == RotR24(w)
  {}

  lemma RotationOfBytes16(w: bv64)
    ensures Word(ByteOf(w, 2), ByteOf(w, 3), ByteOf(w, 4), ByteOf(w, 5),
                 ByteOf(w, 6), ByteOf(w, 7), ByteOf(w, 0), ByteOf(w, 1)) == RotR16(w)
  {}

  // Every form of the macro rotates both lanes.

  lemma Roti32Rotates(isa: Isa, x: Reg<bv64>)
    ensures Roti32(isa, x) == Reg(RotR32(x.lo), RotR32(x.hi))
  {
    hide RotR32, Xor, Srl, Sll, Low32, High32, Join32;
    if isa == Sse2 {
      XorOfShifts32(x.lo);
      XorOfShifts32(x.hi);
    } else {
      SwapOfDwords(x.lo);
      SwapOfDwords(x.hi);
    }
  }

  lemma Roti24Rotates(isa: Isa, x: Reg<bv64>)
    ensures Roti24(isa, x) == Reg(RotR24(x.lo), RotR24(x.hi))
  {
    hide RotR24, Xor, Srl, Sll, ByteOf, Word;
    if isa == Sse2 {
      XorOfShifts24(x.lo);
      XorOfShifts24(x.hi);
    } else {
      RotationOfBytes24(x.lo);
      RotationOfBytes24(x.hi);
    }
  }

  lemma Roti16Rotates(isa: Isa, x: Reg<bv64>)
    ensures Roti16(isa, x) == Reg(RotR16(x.lo), RotR16(x.hi))
  {
    hide RotR16, Xor, Srl, Sll, ByteOf, Word;
    if isa == Sse2 {
      XorOfShifts16(x.lo);
      XorOfShifts16(x.hi);
    } else {
      RotationOfBytes16(x.lo);
      RotationOfBytes16(x.hi);
    }
  }

  lemma Roti63Rotates(isa: Isa, x: Reg<bv64>)
    ensures Roti63(isa, x) == Reg(RotR63(x.lo), RotR63(x.hi))
  {
    hide RotR63, Xor, Srl, Sll, Add;
    if isa == Sse2 {
      XorOfShifts63(x.lo);
      XorOfShifts63(x.hi);
    } else {
      XorOfSum63(x.lo);
      XorOfSum63(x.hi);
    }
  }

  /** The register arithmetic of an instruction set. */
  function RegArithmetic(isa: Isa): Arith<Reg<bv64>> {
    Registerwise(Arithmetic(), x => Roti32(isa, x), x => Roti24(isa, x), x => Roti16(isa, x), x => Roti63(isa, x))
  }

  lemma RegArithmeticIsLanewise(isa: Isa)
    ensures Lanewise(RegArithmetic(isa), Arithmetic())
  {
    hide Lanewise, Roti32, Roti24, Roti16, Roti63, RotR32, RotR24, RotR16, RotR63, Add, Xor;
    RotisRotate(isa);
    RegisterwiseIsLanewise(Arithmetic(), x => Roti32(isa, x), x => Roti24(isa, x), x => Roti16(isa, x),
                           x => Roti63(isa, x));
  }

  lemma RotisRotate(isa: Isa)
    ensures forall x :: Roti32(isa, x) == Reg(RotR32(x.lo), RotR32(x.hi))
    ensures forall x :: Roti24(isa, x) == Reg(RotR24(x.lo), RotR24(x.hi))
    ensures forall x :: Roti16(isa, x) == Reg(RotR16(x.lo), RotR16(x.hi))
    ensures forall x :: Roti63(isa, x) == Reg(RotR63(x.lo), RotR63(x.hi))
  {
    hide Roti32, Roti24, Roti16, Roti63, RotR32, RotR24, RotR16, RotR63;
    forall x { Roti32Rotates(isa, x); }
    forall x { Roti24Rotates(isa, x); }
    forall x { Roti16Rotates(isa, x); }
    forall x { Roti63Rotates(isa, x); }
  }

  lemma OrderOfOperands(isa: Isa)
    ensures AddsInAnyOrder(RegArithmetic(isa)) && XorsInAnyOrder(Arithmetic())
  {
    hide AddsInAnyOrder, XorsInAnyOrder, Arithmetic, Registerwise;
    OperandsInAnyOrder();
    RegisterwiseAddsInAnyOrder(Arithmetic(), x => Roti32(isa, x), x => Roti24(isa, x), x => Roti16(isa, x),
                               x => Roti63(isa, x));
  }

  /** _mm_loadu_si128 of two words. */
  function LoadU(w: seq<bv64>, i: nat): Reg<bv64>
    requires i + 1 < |w|
  {
    Reg(w[i], w[i + 1])
  }

  /** The rows before the first round: two unaligned loads each. */
  function InitialRows(h: seq<bv64>, t0: bv64, t1: bv64, f0: bv64, f1: bv64): (r: Rows<Reg<bv64>>)
    requires |h| == 8
    ensures View(r) == Initial(h, t0, t1, f0, f1)
  {
    hide Xor;
    Rows(LoadU(h, 0), LoadU(h, 4), LoadU(IV, 0), XorRegs(LoadU(IV, 4), Reg(t0, t1)),
         LoadU(h, 2), LoadU(h, 6), LoadU(IV, 2), XorRegs(LoadU(IV, 6), Reg(f0, f1)))
  }

  /** The message operands of round r, by the loads of the instruction set. */
  function LoadMessage(isa: Isa, r: nat, w: seq<bv64>): (ls: Loads<bv64>)
    requires r < ROUNDS && |w| == 16
  {
    if isa == Sse41 then LoadsSse41(r, InRegisters(w)) else LoadsSse2(r, w)
  }

  lemma LoadMessageFollowsSigma(isa: Isa, r: nat, w: seq<bv64>)
    requires r < ROUNDS && |w| == 16
    ensures Consumed(LoadMessage(isa, r, w)) == Scheduled(w, Sigma(r))
  {
    hide Sigma, LoadsBySigma, LoadsSse2, LoadsSse41, Consumed;
    if isa == Sse41 {
      LoadsSse41FollowSigma(r, w);
    } else {
      LoadsSse2FollowSigma(r, w);
    }
    LoadsBySigmaConsumed(w, Sigma(r));
  }

  /** blake2b_compress of the vector code computes the function F. */
  method CompressSimd(isa: Isa, h: array<bv64>, block: seq<byte>, t0: bv64, t1: bv64, f0: bv64, f1: bv64)
    requires h.Length == 8 && |block| == 128
    modifies h
    ensures h[..] == Compress(old(h[..]), block, t0, t1, f0, f1)
  {
    hide Round, Mix, View, Consumed, LoadMessage, Sigma, Words, Initial, Lanewise, AddsInAnyOrder, XorsInAnyOrder,
         FeedForward, RegArithmetic, Arithmetic;
    ghost var v0, h0 := Initial(h[..], t0, t1, f0, f1), h[..];
    var words := Words(block);
    var rows := InitialRows(h[..], t0, t1, f0, f1);
    RegArithmeticIsLanewise(isa);
    OrderOfOperands(isa);
    var r := 0;
    while r < ROUNDS
      invariant 0 <= r <= ROUNDS
      invariant h[..] == h0
      invariant View(rows) == AfterRounds(Arithmetic(), Blake2b.Rows(), v0, words, r)
    {
      LoadMessageFollowsSigma(isa, r, words);
      rows := RoundOnRows(RegArithmetic(isa), Arithmetic(), isa != Sse2, rows, LoadMessage(isa, r, words));
      r := r + 1;
    }
    StoreRows(RegArithmetic(isa), Arithmetic(), h, rows);
  }
}
