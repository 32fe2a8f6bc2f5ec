/**
 The compression function of BLAKE2b on 64-bit words.  `Compress` is the function F of
 section 3.2 of RFC 7693; `CompressInPlace` is the reference code, which works on arrays.
 */
module Blake2b {
  import opened Bytes
  import opened Rounds

  const ROUNDS: nat := 12

  const IV: seq<bv64> :=
    [0x6a09e667f3bcc908, 0xbb67ae8584caa73b, 0x3c6ef372fe94f82b, 0xa54ff53a5f1d36f1,
     0x510e527fade682d1, 0x9b05688c2b3e6c1f, 0x1f83d9abfb41bd6b, 0x5be0cd19137e2179]

  /** Row r of blake2b_sigma. */
  function Sigma(r: nat): (s: seq<Index>)
    requires r < ROUNDS
    ensures |s| == 16
  {
    if r == 0 then [0, 1, 2, 3, 4, 5, 6, 7, 8, 9, 10, 11, 12, 13, 14, 15]
    else if r == 1 then [14, 10, 4, 8, 9, 15, 13, 6, 1, 12, 0, 2, 11, 7, 5, 3]
    else if r == 2 then [11, 8, 12, 0, 5, 2, 15, 13, 10, 14, 3, 6, 7, 1, 9, 4]
    else if r == 3 then [7, 9, 3, 1, 13, 12, 11, 14, 2, 6, 5, 10, 4, 0, 15, 8]
    else if r == 4 then [9, 0, 5, 7, 2, 4, 10, 15, 14, 1, 11, 12, 6, 8, 3, 13]
    else if r == 5 then [2, 12, 6, 10, 0, 11, 8, 3, 4, 13, 7, 5, 15, 14, 1, 9]
    else if r == 6 then [12, 5, 1, 15, 14, 13, 4, 10, 0, 7, 6, 3, 9, 2, 8, 11]
    else if r == 7 then [13, 11, 7, 14, 12, 1, 3, 9, 5, 0, 15, 4, 8, 6, 2, 10]
    else if r == 8 then [6, 15, 14, 9, 11, 3, 0, 8, 12, 2, 13, 7, 1, 4, 10, 5]
    else if r == 9 then [10, 2, 8, 4, 7, 6, 1, 5, 15, 11, 9, 14, 3, 12, 13, 0]
    else if r == 10 then [0, 1, 2, 3, 4, 5, 6, 7, 8, 9, 10, 11, 12, 13, 14, 15]
    else [14, 10, 4, 8, 9, 15, 13, 6, 1, 12, 0, 2, 11, 7, 5, 3]
  }

  function Rows(): (rows: Schedule)
    ensures |rows| == ROUNDS && forall r :: 0 <= r < ROUNDS ==> rows[r] == Sigma(r)
  {
    seq(ROUNDS, r requires 0 <= r < ROUNDS => Sigma(r))
  }

  /** Addition of uint64_t, which wraps round. */
  function Add(x: bv64, y: bv64): bv64 { x + y }
  function Xor(x: bv64, y: bv64): bv64 { x ^ y }
  function RotR32(w: bv64): bv64 { (w >> 32) | (w << 32) }
  function RotR24(w: bv64): bv64 { (w >> 24) | (w << 40) }
  function RotR16(w: bv64): bv64 { (w >> 16) | (w << 48) }
  function RotR63(w: bv64): bv64 { (w >> 63) | (w << 1) }

  function Arithmetic(): Arith<bv64> {
    Arith(Add, Xor, RotR32, RotR24, RotR16, RotR63)
  }

  // The vector code adds and xors in another order.

  lemma AddRearranged(a: bv64, b: bv64, c: bv64)
    ensures Add(Add(a, b), c) == Add(Add(a, c), b)
  {
    calc {
      Add(Add(a, b), c);
      Add(a + b, c);
      (a + b) + c;
      (a + c) + b;
      Add(a + c, b);
      Add(Add(a, c), b);
    }
  }

  lemma XorAssociates(x: bv64, y: bv64, z: bv64)
    ensures Xor(x, Xor(y, z)) == Xor(Xor(x, y), z)
  {
    calc {
      Xor(x, Xor(y, z));
      Xor(x, y ^ z);
      x ^ (y ^ z);
      (x ^ y) ^ z;
      Xor(x ^ y, z);
      Xor(Xor(x, y), z);
    }
  }

  lemma XorRearranged(x: bv64, y: bv64, z: bv64)
    ensures Xor(x, Xor(z, y)) == Xor(Xor(x, y), z)
  {
    assert Xor(z, y) == Xor(y, z);
    hide Xor;
    XorAssociates(x, y, z);
  }

  lemma OperandsInAnyOrder()
    ensures AddsInAnyOrder(Arithmetic()) && XorsInAnyOrder(Arithmetic())
  {
    hide Add, Xor;
    forall a, b, c ensures Add(Add(a, b), c) == Add(Add(a, c), b) { AddRearranged(a, b, c); }
    forall a, b, c ensures Xor(a, Xor(b, c)) == Xor(Xor(a, b), c) { XorAssociates(a, b, c); }
    forall a, b, c ensures Xor(a, Xor(c, b)) == Xor(Xor(a, b), c) { XorRearranged(a, b, c); }
  }

  /** The sixteen little-endian words of a block. */
  function Words(block: seq<byte>): (m: seq<bv64>)
    requires |block| == 128
    ensures |m| == 16
  {
    seq(16, i requires 0 <= i < 16 => Load64(block[8 * i..8 * i + 8]))
  }

  /** The working vector before the first round. */
  function Initial(h: seq<bv64>, t0: bv64, t1: bv64, f0: bv64, f1: bv64): (v: seq<bv64>)
    requires |h| == 8
    ensures |v| == 16
  {
    h + IV[..4] + [Xor(IV[4], t0), Xor(IV[5], t1), Xor(IV[6], f0), Xor(IV[7], f1)]
  }

  /** The function F: t is the byte counter and f the finalisation flags, two words each. */
  function Compress(h: seq<bv64>, block: seq<byte>, t0: bv64, t1: bv64, f0: bv64, f1: bv64): (h': seq<bv64>)
    requires |h| == 8 && |block| == 128
    ensures |h'| == 8
  {
    FeedForward(Arithmetic(), h, AfterRounds(Arithmetic(), Rows(), Initial(h, t0, t1, f0, f1), Words(block), ROUNDS))
  }

  method LoadWords(block: seq<byte>) returns (m: array<bv64>)
    requires |block| == 128
    ensures fresh(m) && m[..] == Words(block)
  {
    m := new bv64[16];
    var i := 0;
    while i < 16
      invariant 0 <= i <= 16
      invariant forall k :: 0 <= k < i ==> m[k] == Words(block)[k]
    {
      m[i] := Load64(block[i * 8..i * 8 + 8]);
      i := i + 1;
    }
  }

  method InitialWords(h: array<bv64>, t0: bv64, t1: bv64, f0: bv64, f1: bv64) returns (v: array<bv64>)
    requires h.Length == 8
    ensures fresh(v) && v[..] == Initial(h[..], t0, t1, f0, f1)
  {
    v := new bv64[16];
    var i := 0;
    while i < 8
      invariant 0 <= i <= 8
      invariant forall k :: 0 <= k < i ==> v[k] == h[k]
    {
      v[i] := h[i];
      i := i + 1;
    }
    v[8], v[9], v[10], v[11] := IV[0], IV[1], IV[2], IV[3];
    v[12] := Xor(IV[4], t0);
    v[13] := Xor(IV[5], t1);
    v[14] := Xor(IV[6], f0);
    v[15] := Xor(IV[7], f1);
  }

  /** blake2b_compress of the reference code: the message and the working vector are arrays. */
  method CompressInPlace(h: array<bv64>, block: seq<byte>, t0: bv64, t1: bv64, f0: bv64, f1: bv64)
    requires h.Length == 8 && |block| == 128
    modifies h
    ensures h[..] == Compress(old(h[..]), block, t0, t1, f0, f1)
  {
    var m := LoadWords(block);
    var v := InitialWords(h, t0, t1, f0, f1);
    RunInPlace(Arithmetic(), Rows(), v, m);
    FeedForwardInPlace(Arithmetic(), h, v);
  }
}
