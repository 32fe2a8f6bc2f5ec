/**
 The tree hashes BLAKE2bp and BLAKE2sp: the message is dealt out block by block to 4 or 8
 leaves, and a root hashes the leaves' digests.  Both deal out rows of 512 bytes.
 */
module Blake2TreeSpec {
  import opened Bytes
  import opened Blake2Spec

  /** Bytes in a row: one block for every leaf. */
  const ROW: nat := 512

  /** PARALLELISM_DEGREE. */
  function Degree(v: Variant): (p: nat)
    ensures v.At(p) == ROW
  {
    if v.V2b? then 4 else 8
  }

  /** The block that row r of data has for leaf i. */
  function Piece(v: Variant, data: seq<byte>, r: nat, i: nat): (b: seq<byte>)
    requires i < Degree(v) && ROW * (r + 1) <= |data|
    ensures |b| == v.BlockBytes()
  {
    data[ROW * r + v.At(i)..ROW * r + v.At(i + 1)]
  }

  /** What the first n rows of data have for leaf i. */
  function Rows(v: Variant, data: seq<byte>, n: nat, i: nat): (s: seq<byte>)
    requires i < Degree(v) && ROW * n <= |data|
    ensures |s| == v.At(n)
  {
    if n == 0 then [] else Rows(v, data, n - 1, i) + Piece(v, data, n - 1, i)
  }

  /** What an incomplete row has for leaf i. */
  function Tail(v: Variant, row: seq<byte>, i: nat): (s: seq<byte>) {
    if |row| <= v.At(i) then []
    else if |row| <= v.At(i + 1) then row[v.At(i)..]
    else row[v.At(i)..v.At(i + 1)]
  }

  /** Everything in data for leaf i. */
  function Stripe(v: Variant, data: seq<byte>, i: nat): seq<byte>
    requires i < Degree(v)
  {
    Rows(v, data, |data| / ROW, i) + Tail(v, data[ROW * (|data| / ROW)..], i)
  }

  /** The parameters of leaf i. */
  function Leaf(v: Variant, outlen: nat, keylen: nat, i: nat): Param
    requires outlen <= 64 && keylen <= 64 && i < Degree(v)
  {
    Param(outlen, keylen, Degree(v), 2, 0, i, 0, 0, v.OutBytes())
  }

  /** The parameters of the root. */
  function Root(v: Variant, outlen: nat, keylen: nat): Param
    requires outlen <= 64 && keylen <= 64
  {
    Param(outlen, keylen, Degree(v), 2, 0, 0, 0, 1, v.OutBytes())
  }

  /** The digest of leaf i, in full length. */
  function LeafDigest(v: Variant, outlen: nat, key: seq<byte>, data: seq<byte>, i: nat): (d: seq<byte>)
    requires outlen <= v.OutBytes() && |key| <= v.KeyBytes() && i < Degree(v)
    ensures |d| == v.OutBytes()
  {
    Finished(v, Start(v, Leaf(v, outlen, |key|, i)), KeyBlock(v, key) + Stripe(v, data, i), i == Degree(v) - 1).Bytes(v)
  }

  /** The digests of the first n leaves. */
  function LeafDigests(v: Variant, outlen: nat, key: seq<byte>, data: seq<byte>, n: nat): seq<byte>
    requires outlen <= v.OutBytes() && |key| <= v.KeyBytes() && n <= Degree(v)
  {
    if n == 0 then [] else LeafDigests(v, outlen, key, data, n - 1) + LeafDigest(v, outlen, key, data, n - 1)
  }

  /** The tree hash of a message. */
  function TreeDigest(v: Variant, outlen: nat, key: seq<byte>, data: seq<byte>): (d: seq<byte>)
    requires outlen <= v.OutBytes() && |key| <= v.KeyBytes()
    ensures |d| == outlen
  {
    Finished(v, Start(v, Root(v, outlen, |key|)), LeafDigests(v, outlen, key, data, Degree(v)), true).Bytes(v)[..outlen]
  }

  // ---- The nodes ----

  /**
   The parameter block of leaf i, byte by byte: fanout 4 or 8, depth 2, node offset i, node depth 0 and
   the inner length.
   */
  lemma LeafBytes(v: Variant, outlen: nat, keylen: nat, i: nat)
    requires outlen <= 64 && keylen <= 64 && i < if v == V2b then 4 else 8
    ensures Leaf(v, outlen, keylen, i).Serialized(v) ==
            [outlen as byte, keylen as byte, if v == V2b then 4 else 8, 2, 0, 0, 0, 0, i as byte, 0, 0, 0] +
            (if v == V2b then [0, 0, 0, 0, 0, 64] + Zeros(46) else [0, 0, 0, 32] + Zeros(16))
  {
    hide Zeros, Store32, Param.Serialized, Param.LeafField, Param.OffsetField, Param.XofField;
    var p := Leaf(v, outlen, keylen, i);
    NodeNumbers(p);
    NodeBytes(v, p, outlen as byte, keylen as byte, i as byte, 0);
  }

  /** That of the root: offset 0 and node depth 1. */
  lemma RootBytes(v: Variant, outlen: nat, keylen: nat)
    requires outlen <= 64 && keylen <= 64
    ensures Root(v, outlen, keylen).Serialized(v) ==
            [outlen as byte, keylen as byte, if v == V2b then 4 else 8, 2, 0, 0, 0, 0, 0, 0, 0, 0] +
            (if v == V2b then [0, 0, 0, 0, 1, 64] + Zeros(46) else [0, 0, 1, 32] + Zeros(16))
  {
    hide Zeros, Store32, Param.Serialized, Param.LeafField, Param.OffsetField, Param.XofField;
    var p := Root(v, outlen, keylen);
    NodeNumbers(p);
    NodeBytes(v, p, outlen as byte, keylen as byte, 0, 1);
  }

  lemma NodeNumbers(p: Param)
    requires p.leafLength == 0 && p.xofLength == 0 && p.nodeOffset < 8
    ensures p.LeafField() == [0, 0, 0, 0] && p.XofField() == [0, 0, 0, 0]
    ensures p.OffsetField() == [p.nodeOffset as byte, 0, 0, 0]
  {
    hide Store32;
    SmallWord(0);
    SmallWord(p.nodeOffset);
  }

  lemma NodeBytes(v: Variant, p: Param, outlen: byte, keylen: byte, offset: byte, depth: byte)
    requires p.Lengths() == [outlen, keylen, if v == V2b then 4 else 8, 2] && p.LeafField() == [0, 0, 0, 0]
    requires p.OffsetField() == [offset, 0, 0, 0] && p.XofField() == [0, 0, 0, 0]
    requires p.Depths() == [depth, if v == V2b then 64 else 32]
    ensures p.Serialized(v) ==
            [outlen, keylen, if v == V2b then 4 else 8, 2, 0, 0, 0, 0, offset, 0, 0, 0] +
            (if v == V2b then [0, 0, 0, 0, depth, 64] + Zeros(46) else [0, 0, depth, 32] + Zeros(16))
  {}

  /** No two nodes of a tree start from the same chaining value. */
  lemma NodesDiffer(v: Variant, outlen: nat, keylen: nat, i: nat, j: nat)
    requires outlen <= 64 && keylen <= 64 && i < Degree(v) && j < Degree(v)
    ensures Start(v, Leaf(v, outlen, keylen, i)) == Start(v, Leaf(v, outlen, keylen, j)) ==> i == j
    ensures Start(v, Leaf(v, outlen, keylen, i)) != Start(v, Root(v, outlen, keylen))
  {
    hide Zeros, InitialChain, Param.Serialized, Leaf, Root;
    LeafBytes(v, outlen, keylen, i);
    LeafBytes(v, outlen, keylen, j);
    RootBytes(v, outlen, keylen);
    var leaf, other := Leaf(v, outlen, keylen, i).Serialized(v), Leaf(v, outlen, keylen, j).Serialized(v);
    var root := Root(v, outlen, keylen).Serialized(v);
    LeafAt(v, leaf, outlen as byte, keylen as byte, i as byte, 0);
    LeafAt(v, other, outlen as byte, keylen as byte, j as byte, 0);
    LeafAt(v, root, outlen as byte, keylen as byte, 0, 1);
    if InitialChain(v, leaf) == InitialChain(v, other) {
      BlocksShow(v, leaf, other);
      SmallBytes(i, j);
    }
    if InitialChain(v, leaf) == InitialChain(v, root) {
      BlocksShow(v, leaf, root);
    }
  }

  lemma LeafAt(v: Variant, s: seq<byte>, outlen: byte, keylen: byte, offset: byte, depth: byte)
    requires s == [outlen, keylen, if v == V2b then 4 else 8, 2, 0, 0, 0, 0, offset, 0, 0, 0] +
                  (if v == V2b then [0, 0, 0, 0, depth, 64] + Zeros(46) else [0, 0, depth, 32] + Zeros(16))
    ensures |s| == v.OutBytes() && s[8] == offset && (if v == V2b then s[16] == depth else s[14] == depth)
  {}

  lemma SmallBytes(i: nat, j: nat)
    requires i < 8 && j < 8 && i as byte == j as byte
    ensures i == j
  {}

  // ---- How the blocks are dealt out ----

  /** Byte k of the r-th block that leaf i absorbs is byte k of block r * Degree + i of the message. */
  lemma StripeAt(v: Variant, data: seq<byte>, r: nat, i: nat, k: nat)
    requires i < Degree(v) && k < v.BlockBytes() && ROW * r + v.At(i) + k < |data|
    ensures v.At(r) + k < |Stripe(v, data, i)|
    ensures Stripe(v, data, i)[v.At(r) + k] == data[ROW * r + v.At(i) + k]
  {
    var n := |data| / ROW;
    if r < n {
      RowsAt(v, data, n, r, i, k);
    } else {
      var row := data[ROW * n..];
      assert r == n;
      assert Tail(v, row, i)[k] == row[v.At(i) + k];
    }
  }

  lemma {:induction false} RowsAt(v: Variant, data: seq<byte>, n: nat, r: nat, i: nat, k: nat)
    requires i < Degree(v) && ROW * n <= |data| && r < n && k < v.BlockBytes()
    ensures v.At(r) + k < v.At(n)
    ensures Rows(v, data, n, i)[v.At(r) + k] == data[ROW * r + v.At(i) + k]
  {
    if r < n - 1 {
      RowsAt(v, data, n - 1, r, i, k);
    }
  }

  /** How many bytes the first n leaves absorb. */
  function Absorbed(v: Variant, data: seq<byte>, n: nat): nat
    requires n <= Degree(v)
  {
    if n == 0 then 0 else Absorbed(v, data, n - 1) + |Stripe(v, data, n - 1)|
  }

  /** No byte is lost and none is absorbed twice: the leaves absorb as many bytes as there are. */
  lemma AllAbsorbed(v: Variant, data: seq<byte>)
    ensures Absorbed(v, data, Degree(v)) == |data|
  {
    AbsorbedBy(v, data, Degree(v));
    assert Degree(v) * v.At(|data| / ROW) == ROW * (|data| / ROW);
  }

  lemma {:induction false} AbsorbedBy(v: Variant, data: seq<byte>, n: nat)
    requires n <= Degree(v)
    ensures var t := |data| % ROW;
            Absorbed(v, data, n) == n * v.At(|data| / ROW) + if t < v.At(n) then t else v.At(n)
  {
    if n == 0 {
      Times(0, v.At(|data| / ROW));
    } else {
      var part := v.At(|data| / ROW);
      AbsorbedBy(v, data, n - 1);
      StripeLength(v, data, n - 1);
      Times(n - 1, part);
      hide Stripe, Variant.BlockBytes;
      assert n * part == (n - 1 + 1) * part;
    }
  }

  lemma StripeLength(v: Variant, data: seq<byte>, i: nat)
    requires i < Degree(v)
    ensures var t := |data| % ROW;
            |Stripe(v, data, i)| == v.At(|data| / ROW) +
              if t <= v.At(i) then 0 else if t <= v.At(i + 1) then t - v.At(i) else v.At(i + 1) - v.At(i)
  {}

  lemma Times(n: nat, x: nat)
    ensures (n + 1) * x == n * x + x && 0 * x == 0
  {}

  /** Rows already dealt out stay as they are when the message grows. */
  lemma {:induction false} RowsOfPrefix(v: Variant, data: seq<byte>, more: seq<byte>, n: nat, i: nat)
    requires i < Degree(v) && ROW * n <= |data|
    ensures Rows(v, data + more, n, i) == Rows(v, data, n, i)
  {
    if n > 0 {
      assert Piece(v, data + more, n - 1, i) == Piece(v, data, n - 1, i);
      RowsOfPrefix(v, data, more, n - 1, i);
    }
  }
}
