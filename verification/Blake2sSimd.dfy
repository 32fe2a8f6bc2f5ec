/**
 The vector code for the compression function of BLAKE2s, on a little-endian host, proved
 equal to the function F for every instruction set that the macros distinguish.
 */
module Blake2sSimd {
  import opened Bytes
  import opened Rounds
  import opened Simd
  import opened Blake2s
  import opened FourLanes

  function Srl(w: bv32, n: nat): bv32
    requires n <= 32
  {
    w >> n
  }

  function Sll(w: bv32, n: nat): bv32
    requires n <= 32
  {
    w << n
  }

  /** _mm_xor_si128(_mm_srli_epi32(x, n), _mm_slli_epi32(x, 32 - n)). */
  function ShiftsXored(x: Reg<bv32>, n: nat): Reg<bv32>
    requires n <= 32
  {
    Reg(Xor(Srl(x.w0, n), Sll(x.w0, 32 - n)), Xor(Srl(x.w1, n), Sll(x.w1, 32 - n)),
        Xor(Srl(x.w2, n), Sll(x.w2, 32 - n)), Xor(Srl(x.w3, n), Sll(x.w3, 32 - n)))
  }

  /** The i-th byte of a word. */
  function ByteOf(w: bv32, i: nat): bv32
    requires i < 4
  {
    if i == 0 then w & 0xFF else if i == 1 then (w >> 8) & 0xFF
    else if i == 2 then (w >> 16) & 0xFF else (w >> 24) & 0xFF
  }

  /** The i-th byte of a register. */
  function ByteLane(x: Reg<bv32>, i: nat): bv32
    requires i < 16
  {
    ByteOf(Word(x, i / 4), i % 4)
  }

  /** A word from its bytes. */
  function FromBytes(b0: bv32, b1: bv32, b2: bv32, b3: bv32): bv32 {
    b0 | (b1 << 8) | (b2 << 16) | (b3 << 24)
  }

  /** _mm_shuffle_epi8 with the mask that _mm_set_epi8 makes of these indices, the last one lowest. */
  function ShuffleBytes(x: Reg<bv32>, mask: seq<Index>): Reg<bv32>
    requires |mask| == 16
  {
    Reg(FromBytes(ByteLane(x, mask[15]), ByteLane(x, mask[14]), ByteLane(x, mask[13]), ByteLane(x, mask[12])),
        FromBytes(ByteLane(x, mask[11]), ByteLane(x, mask[10]), ByteLane(x, mask[9]), ByteLane(x, mask[8])),
        FromBytes(ByteLane(x, mask[7]), ByteLane(x, mask[6]), ByteLane(x, mask[5]), ByteLane(x, mask[4])),
        FromBytes(ByteLane(x, mask[3]), ByteLane(x, mask[2]), ByteLane(x, mask[1]), ByteLane(x, mask[0])))
  }

  // ---- The macro _mm_roti_epi32 ----

  function Roti16(isa: Isa, x: Reg<bv32>): Reg<bv32> {
    if isa == Sse2 then ShiftsXored(x, 16)
    else ShuffleBytes(x, [13, 12, 15, 14, 9, 8, 11, 10, 5, 4, 7, 6, 1, 0, 3, 2])
  }

  function Roti12(isa: Isa, x: Reg<bv32>): Reg<bv32> { ShiftsXored(x, 12) }

  function Roti8(isa: Isa, x: Reg<bv32>): Reg<bv32> {
    if isa == Sse2 then ShiftsXored(x, 8)
    else ShuffleBytes(x, [12, 15, 14, 13, 8, 11, 10, 9, 4, 7, 6, 5, 0, 3, 2, 1])
  }

  function Roti7(isa: Isa, x: Reg<bv32>): Reg<bv32> { ShiftsXored(x, 7) }

  // Facts about one word: shifts that do not overlap, and bytes put back in another order.

  lemma XorOfShifts16(w: bv32) ensures Xor(Srl(w, 16), Sll(w, 16)) == RotR16(w) {}
  lemma XorOfShifts12(w: bv32) ensures Xor(Srl(w, 12), Sll(w, 20)) == RotR12(w) {}
  lemma XorOfShifts8(w: bv32) ensures Xor(Srl(w, 8), Sll(w, 24)) == RotR8(w) {}
  lemma XorOfShifts7(w: bv32) ensures Xor(Srl(w, 7), Sll(w, 25)) == RotR7(w) {}

  lemma RotationOfBytes16(w: bv32)
    ensures FromBytes(ByteOf(w, 2), ByteOf(w, 3), ByteOf(w, 0), ByteOf(w, 1)) == RotR16(w)
  {}

  lemma RotationOfBytes8(w: bv32)
    ensures FromBytes(ByteOf(w, 1), ByteOf(w, 2), ByteOf(w, 3), ByteOf(w, 0)) == RotR8(w)
  {}

  // Every form of the macro rotates all four lanes.

  lemma Roti16Rotates(isa: Isa, x: Reg<bv32>)
    ensures Roti16(isa, x) == Reg(RotR16(x.w0), RotR16(x.w1), RotR16(x.w2), RotR16(x.w3))
  {
    hide RotR16, Xor, Srl, Sll, ByteOf, FromBytes;
    forall w { XorOfShifts16(w); }
    forall w { RotationOfBytes16(w); }
  }

  lemma Roti12Rotates(isa: Isa, x: Reg<bv32>)
    ensures Roti12(isa, x) == Reg(RotR12(x.w0), RotR12(x.w1), RotR12(x.w2), RotR12(x.w3))
  {
    hide RotR12, Xor, Srl, Sll;
    forall w { XorOfShifts12(w); }
  }

  lemma Roti8Rotates(isa: Isa, x: Reg<bv32>)
    ensures Roti8(isa, x) == Reg(RotR8(x.w0), RotR8(x.w1), RotR8(x.w2), RotR8(x.w3))
  {
    hide RotR8, Xor, Srl, Sll, ByteOf, FromBytes;
    forall w { XorOfShifts8(w); }
    forall w { RotationOfBytes8(w); }
  }

  lemma Roti7Rotates(isa: Isa, x: Reg<bv32>)
    ensures Roti7(isa, x) == Reg(RotR7(x.w0), RotR7(x.w1), RotR7(x.w2), RotR7(x.w3))
  {
    hide RotR7, Xor, Srl, Sll;
    forall w { XorOfShifts7(w); }
  }

  /** The register arithmetic of an instruction set. */
  function RegArithmetic(isa: Isa): Arith<Reg<bv32>> {
    Registerwise(Arithmetic(), x => Roti16(isa, x), x => Roti12(isa, x), x => Roti8(isa, x), x => Roti7(isa, x))
  }

  lemma RegArithmeticIsLanewise(isa: Isa)
    ensures Lanewise(RegArithmetic(isa), Arithmetic())
  {
    hide Lanewise, Roti16, Roti12, Roti8, Roti7, RotR16, RotR12, RotR8, RotR7, Add, Xor;
    forall x { Roti16Rotates(isa, x); }
    forall x { Roti12Rotates(isa, x); }
    forall x { Roti8Rotates(isa, x); }
    forall x { Roti7Rotates(isa, x); }
    RegisterwiseIsLanewise(Arithmetic(), x => Roti16(isa, x), x => Roti12(isa, x), x => Roti8(isa, x),
                           x => Roti7(isa, x));
  }

  lemma OrderOfOperands(isa: Isa)
    ensures AddsInAnyOrder(RegArithmetic(isa)) && XorsInAnyOrder(Arithmetic())
  {
    hide AddsInAnyOrder, XorsInAnyOrder, Arithmetic, Registerwise;
    OperandsInAnyOrder();
    RegisterwiseAddsInAnyOrder(Arithmetic(), x => Roti16(isa, x), x => Roti12(isa, x), x => Roti8(isa, x),
                               x => Roti7(isa, x));
  }

  /** _mm_loadu_si128 of four words. */
  function LoadU(w: seq<bv32>, i: nat): Reg<bv32>
    requires i + 3 < |w|
  {
    Reg(w[i], w[i + 1], w[i + 2], w[i + 3])
  }

  /** The rows before the first round; t and f lie side by side in the state. */
  function InitialRows(h: seq<bv32>, t0: bv32, t1: bv32, f0: bv32, f1: bv32): (r: Quad<Reg<bv32>>)
    requires |h| == 8
    ensures View(r) == Initial(h, t0, t1, f0, f1)
  {
    hide Xor;
    var iv, tf := LoadU(IV, 4), Reg(t0, t1, f0, f1);
    Quad(LoadU(h, 0), LoadU(h, 4), LoadU(IV, 0),
         Reg(Xor(iv.w0, tf.w0), Xor(iv.w1, tf.w1), Xor(iv.w2, tf.w2), Xor(iv.w3, tf.w3)))
  }

  /** The message operands of round r, by the loads of the instruction set. */
  function LoadMessage(isa: Isa, r: nat, w: seq<bv32>): (ls: Loads<bv32>)
    requires r < ROUNDS && |w| == 16
  {
    if isa == Sse41 then LoadsSse41(r, 0, InRegisters(w)) else LoadsSse2(r, w)
  }

  lemma LoadMessageFollowsSigma(isa: Isa, r: nat, w: seq<bv32>)
    requires r < ROUNDS && |w| == 16
    ensures Consumed(LoadMessage(isa, r, w)) == Scheduled(w, Sigma(r))
  {
    hide Sigma, LoadsBySigma, LoadsSse2, LoadsSse41, Consumed;
    if isa == Sse41 {
      LoadsSse41FollowSigma(r, 0, w);
    } else {
      LoadsSse2FollowSigma(r, w);
    }
    LoadsBySigmaConsumed(w, Sigma(r));
  }

  /** blake2s_compress of the vector code computes the function F. */
  method CompressSimd(isa: Isa, h: array<bv32>, block: seq<byte>, t0: bv32, t1: bv32, f0: bv32, f1: bv32)
    requires h.Length == 8 && |block| == 64
    modifies h
    ensures h[..] == Compress(old(h[..]), block, t0, t1, f0, f1)
  {
    hide Round, Mix, View, Consumed, LoadMessage, Sigma, Words, Initial, Lanewise, AddsInAnyOrder, XorsInAnyOrder,
         FeedForward, RegArithmetic, Arithmetic;
    ghost var v0, h0 := Initial(h[..], t0, t1, f0, f1), h[..];
    var words := Words(block);
    var rows := InitialRows(h[..], t0, t1, f0, f1);
    RegArithmeticIsLanewise(isa);
    OrderOfOperands(isa);
    var r := 0;
    while r < ROUNDS
      invariant 0 <= r <= ROUNDS
      invariant h[..] == h0
      invariant View(rows) == AfterRounds(Arithmetic(), Rows(), v0, words, r)
    {
      LoadMessageFollowsSigma(isa, r, words);
      rows := RoundOnRows(RegArithmetic(isa), Arithmetic(), rows, LoadMessage(isa, r, words));
      r := r + 1;
    }
    StoreRows(RegArithmetic(isa), Arithmetic(), h, rows);
  }
}
