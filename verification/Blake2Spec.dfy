/**
 BLAKE2 as section 3.3 of RFC 7693 defines it: a fold of the function F over the blocks of
 the message, the last of which is padded and flagged.  One definition serves BLAKE2b and
 BLAKE2s.  The lemmas say how the fold behaves when the message grows.
 */
module Blake2Spec {
  import opened Bytes
  import opened Division
  import Blake2b
  import Blake2s

  datatype Variant = V2b | V2s {
    /** BLOCKBYTES, OUTBYTES and KEYBYTES. */
    function BlockBytes(): (n: nat) ensures n == 128 || n == 64 { if V2b? then 128 else 64 }

    /** Where block n starts. */
    function At(n: nat): (k: nat)
      ensures k == n * BlockBytes()
    {
      if V2b? then 128 * n else 64 * n
    }

    function OutBytes(): nat { if V2b? then 64 else 32 }
    function KeyBytes(): nat { if V2b? then 64 else 32 }

    /** The number of values of a word. */
    function Modulus(): (m: nat) ensures m > 0xFFFF { if V2b? then 0x1_0000_0000_0000_0000 else 0x1_0000_0000 }

    /** The number of values of the two-word byte counter. */
    function CounterModulus(): (m: nat)
      ensures m > 0
    {
      if V2b? then 0x1_0000_0000_0000_0000_0000_0000_0000_0000 else 0x1_0000_0000_0000_0000
    }
  }

  /** A chaining value: eight words. */
  datatype Chain = C64(w64: seq<bv64>) | C32(w32: seq<bv32>) {
    predicate For(v: Variant) {
      match this
      case C64(w) => v == V2b && |w| == 8
      case C32(w) => v == V2s && |w| == 8
    }

    /** The words, least significant byte first. */
    function Bytes(v: Variant): (s: seq<byte>)
      requires For(v)
      ensures |s| == v.OutBytes()
    {
      match this
      case C64(w) => Store64(w[0]) + Store64(w[1]) + Store64(w[2]) + Store64(w[3]) +
                     Store64(w[4]) + Store64(w[5]) + Store64(w[6]) + Store64(w[7])
      case C32(w) => Store32(w[0]) + Store32(w[1]) + Store32(w[2]) + Store32(w[3]) +
                     Store32(w[4]) + Store32(w[5]) + Store32(w[6]) + Store32(w[7])
    }
  }

  /** Word i of a chaining value is in the i-th word's place. */
  lemma BytesAt64(h: Chain, i: nat)
    requires h.For(V2b) && i < 8
    ensures h.Bytes(V2b)[8 * i..8 * i + 8] == Store64(h.w64[i])
  {
    hide Store64;
  }

  lemma BytesAt32(h: Chain, i: nat)
    requires h.For(V2s) && i < 8
    ensures h.Bytes(V2s)[4 * i..4 * i + 4] == Store32(h.w32[i])
  {
    hide Store32;
  }

  /** Reading the words of a digest in full length, in order, gives back the chaining value. */
  lemma WordsOfBytes(v: Variant, h: Chain, i: nat)
    requires h.For(v) && i < 8
    ensures v == V2b ==> Load64(h.Bytes(v)[8 * i..8 * i + 8]) == h.w64[i]
    ensures v == V2s ==> Load32(h.Bytes(v)[4 * i..4 * i + 4]) == h.w32[i]
  {
    hide Store64, Store32, Load64, Load32, Chain.Bytes;
    if v == V2b {
      BytesAt64(h, i);
      LoadStore64(h.w64[i]);
    } else {
      BytesAt32(h, i);
      LoadStore32(h.w32[i]);
    }
  }

  /** So digests in full length differ whenever the chaining values do. */
  lemma BytesDiffer(v: Variant, h: Chain, h': Chain)
    requires h.For(v) && h'.For(v) && h.Bytes(v) == h'.Bytes(v)
    ensures h == h'
  {
    hide Load64, Load32, Chain.Bytes;
    forall i | 0 <= i < 8
      ensures if v == V2b then h.w64[i] == h'.w64[i] else h.w32[i] == h'.w32[i]
    {
      WordsOfBytes(v, h, i);
      WordsOfBytes(v, h', i);
    }
  }

  const ONES64: bv64 := 0xFFFF_FFFF_FFFF_FFFF
  const ONES32: bv32 := 0xFFFF_FFFF

  function Flag64(on: bool): bv64 { if on then ONES64 else 0 }
  function Flag32(on: bool): bv32 { if on then ONES32 else 0 }

  /** The function F, with the byte counter t and the flags of the last block and the last node. */
  function F(v: Variant, h: Chain, block: seq<byte>, t: nat, last: bool, node: bool): (h': Chain)
    requires h.For(v) && |block| == v.BlockBytes() && t < v.CounterModulus()
    ensures h'.For(v)
  {
    match v
    case V2b =>
      var m := Variant.V2b.Modulus();
      C64(Blake2b.Compress(h.w64, block, (t % m) as bv64, (t / m) as bv64, Flag64(last), Flag64(node)))
    case V2s =>
      var m := Variant.V2s.Modulus();
      C32(Blake2s.Compress(h.w32, block, (t % m) as bv32, (t / m) as bv32, Flag32(last), Flag32(node)))
  }

  /** Where absorbing starts: a chaining value, a byte count, and the flags set so far. */
  datatype Origin = Origin(h: Chain, t: nat, last: bool, node: bool)

  /** How many blocks of n bytes of data come before the last one. */
  function Leading(v: Variant, n: nat): (k: nat)
    ensures v.At(k) <= n
    ensures n > 0 ==> 0 < n - v.At(k) <= v.BlockBytes()
  {
    if n == 0 then 0 else if v.V2b? then (n - 1) / 128 else (n - 1) / 64
  }

  function Block(v: Variant, data: seq<byte>, i: nat): (b: seq<byte>)
    requires v.At(i + 1) <= |data|
    ensures |b| == v.BlockBytes()
  {
    data[v.At(i)..v.At(i + 1)]
  }

  function CounterAfter(v: Variant, o: Origin, n: nat): (t: nat)
    ensures t < v.CounterModulus()
  {
    (o.t + n) % v.CounterModulus()
  }

  /** The chaining value after the first n whole blocks of data. */
  function Fold(v: Variant, o: Origin, data: seq<byte>, n: nat): (h: Chain)
    requires o.h.For(v) && v.At(n) <= |data|
    ensures h.For(v)
  {
    if n == 0 then o.h
    else F(v, Fold(v, o, data, n - 1), Block(v, data, n - 1), CounterAfter(v, o, v.At(n)), o.last, o.node)
  }

  /** The chaining value after the last block, padded and flagged. */
  function Finished(v: Variant, o: Origin, data: seq<byte>, lastNode: bool): (h: Chain)
    requires o.h.For(v)
    ensures h.For(v)
  {
    var n := Leading(v, |data|);
    F(v, Fold(v, o, data, n), Padded(data[v.At(n)..], v.BlockBytes()),
      CounterAfter(v, o, |data|), true, o.node || lastNode)
  }

  type u8 = x: nat | x < 0x100
  type u32 = x: nat | x < 0x1_0000_0000

  /** The parameter block, with the fields this library sets; salt and personalisation are zero. */
  datatype Param = Param(digestLength: u8, keyLength: u8, fanout: u8, depth: u8, leafLength: u32,
                         nodeOffset: u32, xofLength: u32, nodeDepth: u8, innerLength: u8) {
    function Lengths(): (s: seq<byte>)
      ensures |s| == 4
    {
      [digestLength as byte, keyLength as byte, fanout as byte, depth as byte]
    }

    function Depths(): (s: seq<byte>)
      ensures |s| == 2
    {
      [nodeDepth as byte, innerLength as byte]
    }

    function LeafField(): (s: seq<byte>) ensures |s| == 4 { Store32(leafLength as bv32) }
    function OffsetField(): (s: seq<byte>) ensures |s| == 4 { Store32(nodeOffset as bv32) }
    function XofField(): (s: seq<byte>) ensures |s| == 4 { Store32(xofLength as bv32) }

    function Serialized(v: Variant): (s: seq<byte>)
      ensures |s| == v.OutBytes()
    {
      Packed(v, Lengths(), LeafField(), OffsetField(), XofField(), Depths())
    }
  }

  /** The fields in their places; BLAKE2s has only two bytes for xof_length. */
  function Packed(v: Variant, lengths: seq<byte>, leaf: seq<byte>, offset: seq<byte>, xof: seq<byte>,
                  depths: seq<byte>): (s: seq<byte>)
    requires |lengths| == |leaf| == |offset| == |xof| == 4 && |depths| == 2
    ensures |s| == v.OutBytes()
  {
    match v
    case V2b => lengths + leaf + offset + xof + depths + Zeros(46)
    case V2s => lengths + leaf + offset + xof[..2] + depths + Zeros(16)
  }

  /** IV xor the parameter block, word by word. */
  function InitialChain(v: Variant, p: seq<byte>): (h: Chain)
    requires |p| == v.OutBytes()
    ensures h.For(v)
  {
    match v
    case V2b => C64(seq(8, i requires 0 <= i < 8 => Blake2b.Xor(Blake2b.IV[i], Load64(p[8 * i..8 * i + 8]))))
    case V2s => C32(seq(8, i requires 0 <= i < 8 => Blake2s.Xor(Blake2s.IV[i], Load32(p[4 * i..4 * i + 4]))))
  }

  /** The same, byte by byte, as the vector code computes it. */
  function InitialChainBytewise(v: Variant, p: seq<byte>): (h: Chain)
    requires |p| == v.OutBytes()
  {
    match v
    case V2b => C64(seq(8, i requires 0 <= i < 8 => Load64(XorBytes(Store64(Blake2b.IV[i]), p[8 * i..8 * i + 8]))))
    case V2s => C32(seq(8, i requires 0 <= i < 8 => Load32(XorBytes(Store32(Blake2s.IV[i]), p[4 * i..4 * i + 4]))))
  }

  lemma BytewiseIsWordwise(v: Variant, p: seq<byte>)
    requires |p| == v.OutBytes()
    ensures InitialChainBytewise(v, p) == InitialChain(v, p)
  {
    hide Load64, Store64, Load32, Store32, XorBytes;
    match v
    case V2b =>
      forall i | 0 <= i < 8
        ensures InitialChainBytewise(v, p).w64[i] == InitialChain(v, p).w64[i]
      {
        XorWord64(Blake2b.IV[i], p[8 * i..8 * i + 8]);
      }
    case V2s =>
      forall i | 0 <= i < 8
        ensures InitialChainBytewise(v, p).w32[i] == InitialChain(v, p).w32[i]
      {
        XorWord32(Blake2s.IV[i], p[4 * i..4 * i + 4]);
      }
  }

  lemma XorWord64(w: bv64, s: seq<byte>)
    requires |s| == 8
    ensures Load64(XorBytes(Store64(w), s)) == Blake2b.Xor(w, Load64(s))
  {
    hide Load64, Store64, XorBytes;
    calc {
      Load64(XorBytes(Store64(w), s));
      { LoadXor64(Store64(w), s); }
      Load64(Store64(w)) ^ Load64(s);
      Blake2b.Xor(Load64(Store64(w)), Load64(s));
      { LoadStore64(w); }
      Blake2b.Xor(w, Load64(s));
    }
  }

  lemma XorWord32(w: bv32, s: seq<byte>)
    requires |s| == 4
    ensures Load32(XorBytes(Store32(w), s)) == Blake2s.Xor(w, Load32(s))
  {
    hide Load32, Store32, XorBytes;
    calc {
      Load32(XorBytes(Store32(w), s));
      { LoadXor32(Store32(w), s); }
      Load32(Store32(w)) ^ Load32(s);
      Blake2s.Xor(Load32(Store32(w)), Load32(s));
      { LoadStore32(w); }
      Blake2s.Xor(w, Load32(s));
    }
  }

  function Start(v: Variant, p: Param): (o: Origin)
    ensures o.h.For(v)
  {
    Origin(InitialChain(v, p.Serialized(v)), 0, false, false)
  }

  /** The parameters of the sequential hash. */
  function Sequential(outlen: nat, keylen: nat): Param
    requires outlen <= 64 && keylen <= 64
  {
    Param(outlen, keylen, 1, 1, 0, 0, 0, 0, 0)
  }

  /** A key takes the whole first block; without a key there is no such block. */
  function KeyBlock(v: Variant, key: seq<byte>): (s: seq<byte>)
    requires |key| <= v.KeyBytes()
  {
    if |key| == 0 then [] else Padded(key, v.BlockBytes())
  }

  /** The hash of section 3.3 of RFC 7693. */
  function Digest(v: Variant, outlen: nat, key: seq<byte>, msg: seq<byte>): (d: seq<byte>)
    requires outlen <= v.OutBytes() && |key| <= v.KeyBytes()
    ensures |d| == outlen
  {
    Finished(v, Start(v, Sequential(outlen, |key|)), KeyBlock(v, key) + msg, false).Bytes(v)[..outlen]
  }

  /**
   The parameter block of the sequential hash only changes the first word of the initial value:
   section 3.3 of RFC 7693 writes this as h[0] ^ 0x01010000 ^ (kk << 8) ^ nn.
   */
  lemma SequentialStart64(nn: byte, kk: byte)
    requires nn <= 64 && kk <= 64
    ensures InitialChain(V2b, Sequential(nn as nat, kk as nat).Serialized(V2b)) ==
            C64(Blake2b.IV[0 := Blake2b.Xor(Blake2b.IV[0], 0x0101_0000 ^ ((kk as bv64) << 8) ^ (nn as bv64))])
  {
    hide Load64, Param.Serialized, Sequential, InitialChain, Blake2b.Xor;
    SequentialBlock(V2b, nn, kk);
    FirstWord64(nn, kk);
    var p := Sequential(nn as nat, kk as nat).Serialized(V2b);
    assert p[..8] == [nn, kk, 1, 1, 0, 0, 0, 0];
    OneWordChanged64(p);
  }

  /** The same for BLAKE2s. */
  lemma SequentialStart32(nn: byte, kk: byte)
    requires nn <= 32 && kk <= 32
    ensures InitialChain(V2s, Sequential(nn as nat, kk as nat).Serialized(V2s)) ==
            C32(Blake2s.IV[0 := Blake2s.Xor(Blake2s.IV[0], 0x0101_0000 ^ ((kk as bv32) << 8) ^ (nn as bv32))])
  {
    hide Load32, Param.Serialized, Sequential, InitialChain, Blake2s.Xor;
    SequentialBlock(V2s, nn, kk);
    FirstWord32(nn, kk);
    var p := Sequential(nn as nat, kk as nat).Serialized(V2s);
    assert p[..4] == [nn, kk, 1, 1];
    OneWordChanged32(p);
  }

  lemma OneWordChanged64(p: seq<byte>)
    requires |p| == 64 && forall i :: 8 <= i < 64 ==> p[i] == 0
    ensures InitialChain(V2b, p) == C64(Blake2b.IV[0 := Blake2b.Xor(Blake2b.IV[0], Load64(p[..8]))])
  {
    hide Load64, Blake2b.Xor;
    var h := InitialChain(V2b, p);
    assert p[0..8] == p[..8];
    forall i | 1 <= i < 8
      ensures h.w64[i] == Blake2b.IV[i]
    {
      NoChange64(Blake2b.IV[i], p[8 * i..8 * i + 8]);
    }
    assert h.w64 == Blake2b.IV[0 := h.w64[0]];
  }

  lemma OneWordChanged32(p: seq<byte>)
    requires |p| == 32 && forall i :: 4 <= i < 32 ==> p[i] == 0
    ensures InitialChain(V2s, p) == C32(Blake2s.IV[0 := Blake2s.Xor(Blake2s.IV[0], Load32(p[..4]))])
  {
    hide Load32, Blake2s.Xor;
    var h := InitialChain(V2s, p);
    assert p[0..4] == p[..4];
    forall i | 1 <= i < 8
      ensures h.w32[i] == Blake2s.IV[i]
    {
      NoChange32(Blake2s.IV[i], p[4 * i..4 * i + 4]);
    }
    assert h.w32 == Blake2s.IV[0 := h.w32[0]];
  }

  lemma SequentialBlock(v: Variant, nn: byte, kk: byte)
    requires nn <= 64 && kk <= 64
    ensures Sequential(nn as nat, kk as nat).Serialized(v) == [nn, kk, 1, 1] + Zeros(v.OutBytes() - 4)
  {
    NoWord();
    SameByte(nn);
    SameByte(kk);
    PackedZeros(v, [nn, kk, 1, 1]);
    hide Store32, Zeros, Packed;
  }

  lemma PackedZeros(v: Variant, lengths: seq<byte>)
    requires |lengths| == 4
    ensures Packed(v, lengths, Zeros(4), Zeros(4), Zeros(4), [0, 0]) == lengths + Zeros(v.OutBytes() - 4)
  {}

  lemma NoWord()
    ensures Store32(0) == Zeros(4)
  {}

  lemma SameByte(b: byte)
    ensures (b as nat) as byte == b
  {}

  lemma FirstWord64(nn: byte, kk: byte)
    ensures Load64([nn, kk, 1, 1, 0, 0, 0, 0]) == 0x0101_0000 ^ ((kk as bv64) << 8) ^ (nn as bv64)
  {}

  lemma FirstWord32(nn: byte, kk: byte)
    ensures Load32([nn, kk, 1, 1]) == 0x0101_0000 ^ ((kk as bv32) << 8) ^ (nn as bv32)
  {}

  lemma NoChange64(w: bv64, s: seq<byte>)
    requires |s| == 8 && forall i :: 0 <= i < 8 ==> s[i] == 0
    ensures Blake2b.Xor(w, Load64(s)) == w
  {}

  lemma NoChange32(w: bv32, s: seq<byte>)
    requires |s| == 4 && forall i :: 0 <= i < 4 ==> s[i] == 0
    ensures Blake2s.Xor(w, Load32(s)) == w
  {}

  // ---- Where the parameters go ----

  /**
   The parameter block byte by byte, numbers least significant byte first.  BLAKE2s has two bytes
   for an output length, and what follows comes two bytes earlier.
   */
  lemma SerializedFields(v: Variant, p: Param)
    ensures var s := p.Serialized(v);
            && s[0] == p.digestLength as byte && s[1] == p.keyLength as byte
            && s[2] == p.fanout as byte && s[3] == p.depth as byte
            && Load32(s[4..8]) == p.leafLength as bv32 && Load32(s[8..12]) == p.nodeOffset as bv32
            && (v == V2b ==> Load32(s[12..16]) == p.xofLength as bv32)
            && (v == V2b ==> s[16] == p.nodeDepth as byte && s[17] == p.innerLength as byte && s[18..] == Zeros(46))
            && (v == V2s ==> s[12..14] == Store32(p.xofLength as bv32)[..2])
            && (v == V2s ==> s[14] == p.nodeDepth as byte && s[15] == p.innerLength as byte && s[16..] == Zeros(16))
  {
    FieldsOfParam(p);
    hide Load32, Store32, Packed, Zeros, Param.Lengths, Param.Depths, Param.LeafField, Param.OffsetField,
         Param.XofField;
    PackedFields(v, p.Lengths(), p.LeafField(), p.OffsetField(), p.XofField(), p.Depths());
    FirstBytes(p.Serialized(v), p.Lengths());
    if v == V2b {
      FirstBytes(p.Serialized(v)[16..], p.Depths());
    } else {
      FirstBytes(p.Serialized(v)[14..], p.Depths());
    }
  }

  lemma FirstBytes(s: seq<byte>, front: seq<byte>)
    requires |front| <= |s| && s[..|front|] == front
    ensures forall i :: 0 <= i < |front| ==> s[i] == front[i]
  {}

  lemma FieldsOfParam(p: Param)
    ensures p.Lengths() == [p.digestLength as byte, p.keyLength as byte, p.fanout as byte, p.depth as byte]
    ensures p.Depths() == [p.nodeDepth as byte, p.innerLength as byte]
    ensures Load32(p.LeafField()) == p.leafLength as bv32 && Load32(p.OffsetField()) == p.nodeOffset as bv32
    ensures Load32(p.XofField()) == p.xofLength as bv32 && p.XofField() == Store32(p.xofLength as bv32)
  {
    hide Load32, Store32;
    LoadStore32(p.leafLength as bv32);
    LoadStore32(p.nodeOffset as bv32);
    LoadStore32(p.xofLength as bv32);
  }

  lemma PackedFields(v: Variant, lengths: seq<byte>, leaf: seq<byte>, offset: seq<byte>, xof: seq<byte>,
                     depths: seq<byte>)
    requires |lengths| == |leaf| == |offset| == |xof| == 4 && |depths| == 2
    ensures var s := Packed(v, lengths, leaf, offset, xof, depths);
            && s[..4] == lengths && s[4..8] == leaf && s[8..12] == offset
            && (v == V2b ==> s[12..16] == xof && s[16..18] == depths && s[18..] == Zeros(46))
            && (v == V2s ==> s[12..14] == xof[..2] && s[14..16] == depths && s[16..] == Zeros(16))
  {}

  /** Numbers below nine, four bytes each. */
  lemma SmallWord(n: nat)
    requires n < 9
    ensures Store32(n as bv32) == [n as byte, 0, 0, 0]
  {
    if n == 0 {
    } else if n == 1 {
    } else if n == 2 {
    } else if n == 3 {
    } else if n == 4 {
    } else if n == 5 {
    } else if n == 6 {
    } else if n == 7 {
    }
  }

  /** Parameter blocks that differ start different hashes. */
  lemma BlocksShow(v: Variant, p: seq<byte>, q: seq<byte>)
    requires |p| == |q| == v.OutBytes() && InitialChain(v, p) == InitialChain(v, q)
    ensures p == q
  {
    hide Load64, Load32, Blake2b.Xor, Blake2s.Xor;
    forall i | 0 <= i < 8
      ensures if v == V2b then p[8 * i..8 * i + 8] == q[8 * i..8 * i + 8]
              else p[4 * i..4 * i + 4] == q[4 * i..4 * i + 4]
    {
      if v == V2b {
        assert InitialChain(v, p).w64[i] == InitialChain(v, q).w64[i];
        WordShows64(Blake2b.IV[i], p[8 * i..8 * i + 8], q[8 * i..8 * i + 8]);
      } else {
        assert InitialChain(v, p).w32[i] == InitialChain(v, q).w32[i];
        WordShows32(Blake2s.IV[i], p[4 * i..4 * i + 4], q[4 * i..4 * i + 4]);
      }
    }
    forall k | 0 <= k < |p|
      ensures p[k] == q[k]
    {
      if v == V2b {
        assert p[8 * (k / 8)..8 * (k / 8) + 8][k % 8] == q[8 * (k / 8)..8 * (k / 8) + 8][k % 8];
      } else {
        assert p[4 * (k / 4)..4 * (k / 4) + 4][k % 4] == q[4 * (k / 4)..4 * (k / 4) + 4][k % 4];
      }
    }
  }

  lemma WordShows64(w: bv64, s: seq<byte>, t: seq<byte>)
    requires |s| == |t| == 8 && Blake2b.Xor(w, Load64(s)) == Blake2b.Xor(w, Load64(t))
    ensures s == t
  {
    hide Blake2b.Xor, Load64, Store64;
    XorCancels64(w, Load64(s), Load64(t));
    StoreLoad64(s);
    StoreLoad64(t);
  }

  lemma XorCancels64(w: bv64, x: bv64, y: bv64)
    requires Blake2b.Xor(w, x) == Blake2b.Xor(w, y)
    ensures x == y
  {
    assert w ^ x == w ^ y;
    assert x == w ^ (w ^ x) && y == w ^ (w ^ y);
  }

  lemma WordShows32(w: bv32, s: seq<byte>, t: seq<byte>)
    requires |s| == |t| == 4 && Blake2s.Xor(w, Load32(s)) == Blake2s.Xor(w, Load32(t))
    ensures s == t
  {
    hide Blake2s.Xor, Load32, Store32;
    XorCancels32(w, Load32(s), Load32(t));
    StoreLoad32(s);
    StoreLoad32(t);
  }

  lemma XorCancels32(w: bv32, x: bv32, y: bv32)
    requires Blake2s.Xor(w, x) == Blake2s.Xor(w, y)
    ensures x == y
  {
    assert w ^ x == w ^ y;
    assert x == w ^ (w ^ x) && y == w ^ (w ^ y);
  }

  /** The first eight primes, and the whole parts of their square roots. */
  const PRIMES: seq<nat> := [2, 3, 5, 7, 11, 13, 17, 19]
  const WHOLE: seq<nat> := [1, 1, 2, 2, 3, 3, 4, 4]

  /** x is the square root of p, cut off behind the binary places that scale stands for. */
  predicate IsRoot(x: nat, p: nat, scale: nat) { x * x <= p * scale * scale < (x + 1) * (x + 1) }

  /** The initial values are the fractions of these square roots, as section 2.6 of RFC 7693 defines them. */
  lemma InitialValues(i: nat)
    requires i < 8
    ensures IsRoot(WHOLE[i] * 0x1_0000_0000_0000_0000 + Blake2b.IV[i] as nat, PRIMES[i], 0x1_0000_0000_0000_0000)
    ensures IsRoot(WHOLE[i] * 0x1_0000_0000 + Blake2s.IV[i] as nat, PRIMES[i], 0x1_0000_0000)
  {
    if i == 0 {
    } else if i == 1 {
    } else if i == 2 {
    } else if i == 3 {
    } else if i == 4 {
    } else if i == 5 {
    } else if i == 6 {
    }
  }

  /** A key, of at most half a block, is followed by zeros up to a whole one. */
  lemma KeyFillsABlock(v: Variant, key: seq<byte>)
    requires |key| <= v.KeyBytes()
    ensures 2 * v.KeyBytes() == v.BlockBytes()
    ensures key == [] ==> KeyBlock(v, key) == []
    ensures key != [] ==> var k := KeyBlock(v, key);
                          |k| == v.BlockBytes() && k[..|key|] == key && forall i :: |key| <= i < |k| ==> k[i] == 0
  {}

  /**
   The flags of the last block and the last node invert words 14 and 15, as section 3.2 of RFC 7693 has it
   for the first.
   */
  lemma FlagsInvert(h: seq<bv64>, h': seq<bv32>, t0: bv64, t1: bv64, t0': bv32, t1': bv32, last: bool, node: bool)
    requires |h| == |h'| == 8
    ensures var w := Blake2b.Initial(h, t0, t1, Flag64(last), Flag64(node));
            var w' := Blake2s.Initial(h', t0', t1', Flag32(last), Flag32(node));
            && w[14] == (if last then !Blake2b.IV[6] else Blake2b.IV[6]) &&
               w[15] == (if node then !Blake2b.IV[7] else Blake2b.IV[7])
            && w'[14] == (if last then !Blake2s.IV[6] else Blake2s.IV[6]) &&
               w'[15] == (if node then !Blake2s.IV[7] else Blake2s.IV[7])
  {}

  // ---- The fold when the message grows ----

  lemma {:induction false} FoldOfPrefix(v: Variant, o: Origin, data: seq<byte>, more: seq<byte>, n: nat)
    requires o.h.For(v) && v.At(n) <= |data|
    ensures Fold(v, o, data + more, n) == Fold(v, o, data, n)
  {
    hide F;
    if n > 0 {
      assert Block(v, data + more, n - 1) == Block(v, data, n - 1);
      FoldOfPrefix(v, o, data, more, n - 1);
    }
  }

  /** The leading blocks are those that leave between one byte and one block behind. */
  lemma LeadingIs(v: Variant, n: nat, k: nat)
    requires v.At(k) < n <= v.At(k + 1)
    ensures Leading(v, n) == k
  {
    assert v.At(k) <= n - 1 < v.At(k) + v.BlockBytes();
  }

  lemma NoneLeading(v: Variant, o: Origin, data: seq<byte>)
    requires o.h.For(v) && |data| <= v.BlockBytes()
    ensures Leading(v, |data|) == 0 && Fold(v, o, data, 0) == o.h
  {}

  /** The carry makes the two words one counter: the increment is exact modulo the counter's range. */
  lemma TwoWords(v: Variant, t0: nat, t1: nat, inc: nat)
    requires t0 < v.Modulus() && t1 < v.Modulus() && inc < v.Modulus()
    ensures var m := v.Modulus();
            var a := (t0 + inc) % m;
            var b := (t1 + if a < inc then 1 else 0) % m;
            a < m && b < m && b * m + a == (t1 * m + t0 + inc) % v.CounterModulus()
  {
    var m, mm := v.Modulus(), v.CounterModulus();
    assert mm == m * m;
    hide Variant.Modulus, Variant.CounterModulus;
    CounterCarry(m, mm, t0, t1, inc);
  }

  /** The vector BLAKE2s adds to both words as to one. */
  lemma OneWord(t0: nat, t1: nat, inc: nat)
    requires t0 < Variant.V2s.Modulus() && t1 < Variant.V2s.Modulus()
    ensures Variant.V2s.Modulus() == 0x1_0000_0000
    ensures Variant.V2s.CounterModulus() == 0x1_0000_0000_0000_0000
    ensures var t := (t1 * 0x1_0000_0000 + t0 + inc) % 0x1_0000_0000_0000_0000;
            t / 0x1_0000_0000 < 0x1_0000_0000 && t / 0x1_0000_0000 * 0x1_0000_0000 + t % 0x1_0000_0000 == t
  {}

  lemma CounterCarry(m: nat, mm: nat, t0: nat, t1: nat, inc: nat)
    requires m > 0 && mm == m * m && t0 < m && t1 < m && inc < m
    ensures var a := (t0 + inc) % m;
            (t1 + if a < inc then 1 else 0) % m * m + a == (t1 * m + t0 + inc) % mm
  {
    if t0 + inc < m {
      Residue(t0 + inc, m, 0, t0 + inc);
      Residue(t1, m, 0, t1);
      Below(t1, m, t0 + inc, m);
      Residue(t1 * m + t0 + inc, mm, 0, t1 * m + t0 + inc);
    } else {
      Residue(t0 + inc, m, 1, t0 + inc - m);
      CarryOut(m, mm, t1, t0 + inc - m);
    }
  }

  lemma CarryOut(m: nat, mm: nat, t1: nat, a: nat)
    requires m > 0 && mm == m * m && t1 < m && a < m
    ensures (t1 + 1) % m * m + a == (t1 * m + m + a) % mm
  {
    assert (t1 + 1) * m == t1 * m + m;
    if t1 + 1 < m {
      Residue(t1 + 1, m, 0, t1 + 1);
      Below(t1 + 1, m, a, m);
      Residue(t1 * m + m + a, mm, 0, t1 * m + m + a);
    } else {
      Residue(m, m, 1, 0);
      Below(0, m, a, m);
      Residue(t1 * m + m + a, mm, 1, a);
    }
  }
}
