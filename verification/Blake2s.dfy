/**
 The compression function of BLAKE2s on 32-bit words.  `Compress` is the function F of
 section 3.2 of RFC 7693; `CompressInPlace` is the reference code, which works on arrays.
 */
module Blake2s {
  import opened Bytes
  import opened Rounds

  const ROUNDS: nat := 10

  const IV: seq<bv32> :=
    [0x6A09E667, 0xBB67AE85, 0x3C6EF372, 0xA54FF53A, 0x510E527F, 0x9B05688C, 0x1F83D9AB, 0x5BE0CD19]

  /** Row r of blake2s_sigma. */
  function Sigma(r: nat): (s: seq<Index>)
    requires r < ROUNDS
    ensures |s| == 16
  {
    if r == 0 then [0, 1, 2, 3, 4, 5, 6, 7, 8, 9, 10, 11, 12, 13, 14, 15]
    else if r == 1 then [14, 10, 4, 8, 9, 15, 13, 6, 1, 12, 0, 2, 11, 7, 5, 3]
    else if r == 2 then [11, 8, 12, 0, 5, 2, 15, 13, 10, 14, 3, 6, 7, 1, 9, 4]
    else if r == 3 then [7, 9, 3, 1, 13, 12, 11, 14, 2, 6, 5, 10, 4, 0, 15, 8]
    else if r == 4 then [9, 0, 5, 7, 2, 4, 10, 15, 14, 1, 11, 12, 6, 8, 3, 13]
    else if r == 5 then [2, 12, 6, 10, 0, 11, 8, 3, 4, 13, 7, 5, 15, 14, 1, 9]
    else if r == 6 then [12, 5, 1, 15, 14, 13, 4, 10, 0, 7, 6, 3, 9, 2, 8, 11]
    else if r == 7 then [13, 11, 7, 14, 12, 1, 3, 9, 5, 0, 15, 4, 8, 6, 2, 10]
    else if r == 8 then [6, 15, 14, 9, 11, 3, 0, 8, 12, 2, 13, 7, 1, 4, 10, 5]
    else [10, 2, 8, 4, 7, 6, 1, 5, 15, 11, 9, 14, 3, 12, 13, 0]
  }

  function Rows(): (rows: Schedule)
    ensures |rows| == ROUNDS && forall r :: 0 <= r < ROUNDS ==> rows[r] == Sigma(r)
  {
    seq(ROUNDS, r requires 0 <= r < ROUNDS => Sigma(r))
  }

  /** Addition of uint32_t, which wraps round. */
  function Add(x: bv32, y: bv32): bv32 { x + y }
  function Xor(x: bv32, y: bv32): bv32 { x ^ y }
  function RotR16(w: bv32): bv32 { (w >> 16) | (w << 16) }
  function RotR12(w: bv32): bv32 { (w >> 12) | (w << 20) }
  function RotR8(w: bv32): bv32 { (w >> 8) | (w << 24) }
  function RotR7(w: bv32): bv32 { (w >> 7) | (w << 25) }

  function Arithmetic(): Arith<bv32> {
    Arith(Add, Xor, RotR16, RotR12, RotR8, RotR7)
  }

  // The vector code adds and xors in another order.

  lemma AddRearranged(a: bv32, b: bv32, c: bv32)
    ensures Add(Add(a, b), c) == Add(Add(a, c), b)
  {
    calc {
      Add(Add(a, b), c);
      Add(a + b, c);
      (a + b) + c;
      (a + c) + b;
      Add(a + c, b);
      Add(Add(a, c), b);
    }
  }

  lemma XorAssociates(x: bv32, y: bv32, z: bv32)
    ensures Xor(x, Xor(y, z)) == Xor(Xor(x, y), z)
  {
    calc {
      Xor(x, Xor(y, z));
      Xor(x, y ^ z);
      x ^ (y ^ z);
      (x ^ y) ^ z;
      Xor(x ^ y, z);
      Xor(Xor(x, y), z);
    }
  }

  lemma XorRearranged(x: bv32, y: bv32, z: bv32)
    ensures Xor(x, Xor(z, y)) == Xor(Xor(x, y), z)
  {
    assert Xor(z, y) == Xor(y, z);
    hide Xor;
    XorAssociates(x, y, z);
  }

  lemma OperandsInAnyOrder()
    ensures AddsInAnyOrder(Arithmetic()) && XorsInAnyOrder(Arithmetic())
  {
    hide Add, Xor;
    forall a, b, c ensures Add(Add(a, b), c) == Add(Add(a, c), b) { AddRearranged(a, b, c); }
    forall a, b, c ensures Xor(a, Xor(b, c)) == Xor(Xor(a, b), c) { XorAssociates(a, b, c); }
    forall a, b, c ensures Xor(a, Xor(c, b)) == Xor(Xor(a, b), c) { XorRearranged(a, b, c); }
  }

  /** The sixteen little-endian words of a block. */
  function Words(block: seq<byte>): (m: seq<bv32>)
    requires |block| == 64
    ensures |m| == 16
  {
    seq(16, i requires 0 <= i < 16 => Load32(block[4 * i..4 * i + 4]))
  }

  /** The working vector before the first round. */
  function Initial(h: seq<bv32>, t0: bv32, t1: bv32, f0: bv32, f1: bv32): (v: seq<bv32>)
    requires |h| == 8
    ensures |v| == 16
  {
    h + IV[..4] + [Xor(IV[4], t0), Xor(IV[5], t1), Xor(IV[6], f0), Xor(IV[7], f1)]
  }

  /** The function F: t is the byte counter and f the finalisation flags, two words each. */
  function Compress(h: seq<bv32>, block: seq<byte>, t0: bv32, t1: bv32, f0: bv32, f1: bv32): (h': seq<bv32>)
    requires |h| == 8 && |block| == 64
    ensures |h'| == 8
  {
    FeedForward(Arithmetic(), h, AfterRounds(Arithmetic(), Rows(), Initial(h, t0, t1, f0, f1), Words(block), ROUNDS))
  }

  method LoadWords(block: seq<byte>) returns (m: array<bv32>)
    requires |block| == 64
    ensures fresh(m) && m[..] == Words(block)
  {
    m := new bv32[16];
    var i := 0;
    while i < 16
      invariant 0 <= i <= 16
      invariant forall k :: 0 <= k < i ==> m[k] == Words(block)[k]
    {
      m[i] := Load32(block[i * 4..i * 4 + 4]);
      i := i + 1;
    }
  }

  method InitialWords(h: array<bv32>, t0: bv32, t1: bv32, f0: bv32, f1: bv32) returns (v: array<bv32>)
    requires h.Length == 8
    ensures fresh(v) && v[..] == Initial(h[..], t0, t1, f0, f1)
  {
    v := new bv32[16];
    var i := 0;
    while i < 8
      invariant 0 <= i <= 8
      invariant forall k :: 0 <= k < i ==> v[k] == h[k]
    {
      v[i] := h[i];
      i := i + 1;
    }
    v[8], v[9], v[10], v[11] := IV[0], IV[1], IV[2], IV[3];
    v[12] := Xor(IV[4], t0);
    v[13] := Xor(IV[5], t1);
    v[14] := Xor(IV[6], f0);
    v[15] := Xor(IV[7], f1);
  }

  /** blake2s_compress of the reference code: the message and the working vector are arrays. */
  method CompressInPlace(h: array<bv32>, block: seq<byte>, t0: bv32, t1: bv32, f0: bv32, f1: bv32)
    requires h.Length == 8 && |block| == 64
    modifies h
    ensures h[..] == Compress(old(h[..]), block, t0, t1, f0, f1)
  {
    var m := LoadWords(block);
    var v := InitialWords(h, t0, t1, f0, f1);
    RunInPlace(Arithmetic(), Rows(), v, m);
    FeedForwardInPlace(Arithmetic(), h, v);
  }
}
