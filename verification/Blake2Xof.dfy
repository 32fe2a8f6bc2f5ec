/**
 The extendable-output hashes BLAKE2Xb and BLAKE2Xs: the digest of the message, in full length,
 is the root from which as many output nodes are hashed as the caller asks for bytes.
 */
module Blake2Xof {
  import opened Bytes
  import opened Simd
  import opened Blake2Spec
  import opened Blake2Hash

  /** The largest value of xof_length, which stands for an output length not known in advance. */
  function Unknown(v: Variant): u32 { if v.V2b? then 0xFFFF_FFFF else 0xFFFF }

  /** The parameters of the root. */
  function RootParam(v: Variant, outlen: nat, keylen: nat): Param
    requires outlen <= Unknown(v) && keylen <= v.KeyBytes()
  {
    Param(v.OutBytes(), keylen, 1, 1, 0, 0, outlen, 0, 0)
  }

  /** The parameters of output node i, which writes n bytes. */
  function NodeParam(v: Variant, xofLength: u32, i: nat, n: nat): Param
    requires n <= v.OutBytes()
  {
    Param(n, 0, 0, 0, v.OutBytes(), i % 0x1_0000_0000, xofLength, 0, v.OutBytes())
  }

  /**
   The root's parameter block: those of a sequential hash in full length, and the declared length in the
   field for it.
   */
  lemma RootFields(v: Variant, outlen: nat, keylen: nat)
    requires outlen <= Unknown(v) && keylen <= v.KeyBytes()
    ensures var s := RootParam(v, outlen, keylen).Serialized(v);
            && s[0] == (if v == V2b then 64 else 32) && s[1] == keylen as byte && s[2] == 1 && s[3] == 1
            && Load32(s[4..8]) == 0 && Load32(s[8..12]) == 0
            && (v == V2b ==> Load32(s[12..16]) == outlen as bv32 && s[16] == 0 && s[17] == 0 && s[18..] == Zeros(46))
            && (v == V2s ==> s[12..14] == Store32(outlen as bv32)[..2] && s[14] == 0 && s[15] == 0)
            && (v == V2s ==> s[16..] == Zeros(16))
  {
    hide Zeros, Store32, Load32, Param.Serialized, Unknown;
    SerializedFields(v, RootParam(v, outlen, keylen));
  }

  /**
   That of output node i: its length, the inner length twice, its number, and the declared length; the
   rest is zero.
   */
  lemma NodeFields(v: Variant, xofLength: u32, i: nat, n: nat)
    requires n <= v.OutBytes() && i < 0x1_0000_0000
    ensures var s := NodeParam(v, xofLength, i, n).Serialized(v);
            && s[0] == n as byte && s[1] == 0 && s[2] == 0 && s[3] == 0
            && Load32(s[4..8]) == (if v == V2b then 64 else 32) && Load32(s[8..12]) == i as bv32
            && (v == V2b ==> Load32(s[12..16]) == xofLength as bv32 && s[16] == 0 && s[17] == 64)
            && (v == V2s ==> s[12..14] == Store32(xofLength as bv32)[..2] && s[14] == 0 && s[15] == 32)
            && (if v == V2b then s[18..] == Zeros(46) else s[16..] == Zeros(16))
  {
    hide Zeros, Store32, Load32, Param.Serialized;
    SerializedFields(v, NodeParam(v, xofLength, i, n));
  }

  /** Output nodes, whose numbers have 32 bits, start from chaining values of their own. */
  lemma OutputNodesDiffer(v: Variant, xofLength: u32, i: bv32, n: nat, j: bv32, m: nat)
    requires n <= v.OutBytes() && m <= v.OutBytes()
    requires Start(v, NodeParam(v, xofLength, i as nat, n)) == Start(v, NodeParam(v, xofLength, j as nat, m))
    ensures i == j
  {
    hide Zeros, Store32, Load32, Param.Serialized, InitialChain, NodeParam;
    NodeFields(v, xofLength, i as nat, n);
    NodeFields(v, xofLength, j as nat, m);
    BlocksShow(v, NodeParam(v, xofLength, i as nat, n).Serialized(v),
               NodeParam(v, xofLength, j as nat, m).Serialized(v));
    SameNumber(i);
    SameNumber(j);
  }

  lemma SameNumber(i: bv32)
    ensures (i as nat) as bv32 == i
  {}

  /** What output node i writes. */
  function NodeOutput(v: Variant, xofLength: u32, root: seq<byte>, i: nat, n: nat): (s: seq<byte>)
    requires n <= v.OutBytes()
    ensures |s| == n
  {
    Finished(v, Start(v, NodeParam(v, xofLength, i, n)), root, false).Bytes(v)[..n]
  }

  /** Where the output of node i starts. */
  function OutAt(v: Variant, i: nat): (k: nat)
    ensures k == i * v.OutBytes()
  {
    if v.V2b? then 64 * i else 32 * i
  }

  /** The first k nodes, all of full length. */
  function WholeNodes(v: Variant, xofLength: u32, root: seq<byte>, k: nat): (s: seq<byte>)
    ensures |s| == OutAt(v, k)
  {
    hide NodeOutput;
    if k == 0 then [] else WholeNodes(v, xofLength, root, k - 1) + NodeOutput(v, xofLength, root, k - 1, v.OutBytes())
  }

  /** n bytes of output: whole nodes and a last node of the remaining length. */
  function Output(v: Variant, xofLength: u32, root: seq<byte>, n: nat): (s: seq<byte>)
    ensures |s| == n
  {
    hide NodeOutput;
    var k := n / v.OutBytes();
    var rest := n % v.OutBytes();
    WholeNodes(v, xofLength, root, k) + if rest > 0 then NodeOutput(v, xofLength, root, k, rest) else []
  }

  /** The root hash of a message. */
  function RootHash(v: Variant, outlen: nat, key: seq<byte>, data: seq<byte>): (s: seq<byte>)
    requires outlen <= Unknown(v) && |key| <= v.KeyBytes()
    ensures |s| == v.OutBytes()
  {
    Finished(v, Start(v, RootParam(v, outlen, |key|)), KeyBlock(v, key) + data, false).Bytes(v)
  }

  /** BLAKE2X: an output of n bytes under a declared length. */
  function Extended(v: Variant, outlen: nat, key: seq<byte>, data: seq<byte>, n: nat): (s: seq<byte>)
    requires outlen <= Unknown(v) && |key| <= v.KeyBytes()
    ensures |s| == n
  {
    Output(v, outlen, RootHash(v, outlen, key, data), n)
  }

  /** The declared length must be met; the value that stands for no declared length allows any but zero. */
  predicate LengthAllowed(v: Variant, declared: nat, n: nat) {
    if declared == Unknown(v) then n > 0 else n == declared
  }

  /** Every byte comes from the node it falls into; only the last node may be short. */
  lemma OutputAt(v: Variant, xofLength: u32, root: seq<byte>, n: nat, i: nat, k: nat)
    requires k < v.OutBytes() && OutAt(v, i) + k < n
    ensures var len := if OutAt(v, i + 1) <= n then v.OutBytes() else n - OutAt(v, i);
            k < len && Output(v, xofLength, root, n)[OutAt(v, i) + k] == NodeOutput(v, xofLength, root, i, len)[k]
  {
    hide NodeOutput;
    var m := n / v.OutBytes();
    if i < m {
      WholeAt(v, xofLength, root, m, i, k);
    }
  }

  lemma {:induction false} WholeAt(v: Variant, xofLength: u32, root: seq<byte>, m: nat, i: nat, k: nat)
    requires k < v.OutBytes() && i < m
    ensures OutAt(v, i) + k < OutAt(v, m)
    ensures WholeNodes(v, xofLength, root, m)[OutAt(v, i) + k] == NodeOutput(v, xofLength, root, i, v.OutBytes())[k]
  {
    hide NodeOutput;
    if i < m - 1 {
      WholeAt(v, xofLength, root, m - 1, i, k);
    }
  }

  /** The state of BLAKE2X: the hash of the root, and its parameters. */
  class Xof {
    const root: Hash
    const declared: u32
    ghost const key: seq<byte>
    ghost var data: seq<byte>

    ghost predicate Valid()
      reads this, root, root.buf
    {
      hide Start, KeyBlock;
      && declared <= Unknown(root.v) && |key| <= root.v.KeyBytes()
      && root.Valid() && root.outlen == root.v.OutBytes() && !root.lastNode
      && (!root.f0 ==> root.origin == Start(root.v, RootParam(root.v, declared, |key|)) &&
                       root.data == KeyBlock(root.v, key) + data)
    }

    constructor (v: Variant, backend: Backend, outlen: nat, key: seq<byte>)
      requires 0 < outlen <= Unknown(v) && |key| <= v.KeyBytes()
      ensures Valid() && fresh(root) && fresh(root.buf)
      ensures root.v == v && root.backend == backend && !root.f0 && declared == outlen && this.key == key && data == []
    {
      hide Start, InitialChain;
      var h := new Hash(v, backend, RootParam(v, outlen, |key|));
      if |key| > 0 {
        h.Update(Padded(key, v.BlockBytes()));
      }
      assert h.data == KeyBlock(v, key) + [];
      root, declared := h, outlen;
      this.key, data := key, [];
    }

    /** blake2xb_init_key and blake2xs_init_key; without a key, blake2xb_init and blake2xs_init. */
    static method InitKey(v: Variant, backend: Backend, outlen: nat, key: seq<byte>) returns (x: Option<Xof>)
      ensures x.None? <==> outlen == 0 || outlen > Unknown(v) || |key| > v.KeyBytes()
      ensures x.Some? ==> var x := x.value;
                fresh(x) && fresh(x.root) && fresh(x.root.buf) && x.Valid() && x.root.v == v &&
                    x.root.backend == backend &&
                !x.root.f0 && x.declared == outlen && x.key == key && x.data == []
    {
      hide Xof.Valid;
      if outlen == 0 || outlen > Unknown(v) {
        return None;
      }
      if |key| > v.KeyBytes() {
        return None;
      }
      var xof := new Xof(v, backend, outlen, key);
      x := Some(xof);
    }

    /** blake2xb_update and blake2xs_update. */
    method Update(input: seq<byte>)
      requires Valid()
      modifies `data, root`h, root`t0, root`t1, root`buflen, root`data, root.buf
      ensures Valid() && data == old(data) + input
    {
      hide Start, KeyBlock, Hash.Folded;
      root.Update(input);
      data := data + input;
    }

    /** blake2xb_final and blake2xs_final: n bytes at the front of out, and nothing behind them. */
    method Final(out: array<byte>, n: nat) returns (ok: bool)
      requires Valid() && n <= out.Length && out != root.buf
      modifies root, root.buf, out
      ensures Valid()
      ensures ok <==> LengthAllowed(root.v, declared, n) && !old(root.f0)
      ensures ok ==> out[..n] == Extended(root.v, declared, key, data, n) && root.f0
      ensures !ok ==> out[..] == old(out[..])
      ensures out[n..] == old(out[n..])
    {
      hide Start, KeyBlock, Finished, Chain.Bytes, Hash.Folded, Output;
      if declared == (if root.v.V2b? then 0xFFFF_FFFF else 0xFFFF) {
        if n == 0 {
          return false;
        }
      } else {
        if n != declared {
          return false;
        }
      }
      var o := root.Final(root.v.OutBytes());
      if o.None? {
        return false;
      }
      assert o.value == RootHash(root.v, declared, key, data);
      Expand(root.v, root.backend, declared, o.value, out, n);
      ok := true;
    }
  }

  /** The one-shot functions blake2xb and blake2xs. */
  method OneShot(v: Variant, backend: Backend, out: array<byte>, n: nat, input: seq<byte>, key: seq<byte>)
        returns (ok: bool)
    requires n <= out.Length
    modifies out
    ensures ok <==> 0 < n <= Unknown(v) && |key| <= v.KeyBytes()
    ensures ok ==> out[..n] == Extended(v, n, key, input, n)
    ensures !ok ==> out[..] == old(out[..])
    ensures out[n..] == old(out[n..])
  {
    hide Xof.Valid, Extended;
    var x := Xof.InitKey(v, backend, n, key);
    if x.None? {
      return false;
    }
    x.value.Update(input);
    assert [] + input == input;
    ok := x.value.Final(out, n);
  }

  /** One output node. */
  method HashNode(v: Variant, backend: Backend, xofLength: u32, root: seq<byte>, i: nat, n: nat) returns (s: seq<byte>)
    requires n <= v.OutBytes()
    ensures s == NodeOutput(v, xofLength, root, i, n)
  {
    hide Finished, Start, Chain.Bytes, Hash.Valid;
    var c := new Hash(v, backend, NodeParam(v, xofLength, i, n));
    c.Update(root);
    assert [] + root == root;
    var o := c.Final(n);
    s := o.value;
  }

  /** The output loop of final. */
  method Expand(v: Variant, backend: Backend, xofLength: u32, root: seq<byte>, out: array<byte>, n: nat)
    requires n <= out.Length
    modifies out
    ensures out[..n] == Output(v, xofLength, root, n)
    ensures out[n..] == old(out[n..])
  {
    hide NodeOutput, WholeNodes, Output;
    NoOutput(v, xofLength, root);
    var outlen: nat := n;
    var i := 0;
    while outlen > 0
      invariant outlen <= n
      invariant outlen > 0 ==> n - outlen == OutAt(v, i) && out[..n - outlen] == WholeNodes(v, xofLength, root, i)
      invariant outlen == 0 ==> out[..n] == Output(v, xofLength, root, n)
      invariant out[n..] == old(out[n..])
    {
      var size := if outlen < v.OutBytes() then outlen else v.OutBytes();
      var s := HashNode(v, backend, xofLength, root, i, size);
      NextOutput(v, xofLength, root, n - outlen + size, i, size);
      CopyInto(out, OutAt(v, i), s, n);
      outlen := outlen - size;
      i := i + 1;
    }
  }

  /** Copy to a position before n leaves what lies behind n. */
  method CopyInto(out: array<byte>, at: nat, s: seq<byte>, ghost n: nat)
    requires at + |s| <= n <= out.Length
    modifies out
    ensures out[..at + |s|] == old(out[..at]) + s
    ensures out[n..] == old(out[n..])
  {
    Copy(out, at, s);
    assert out[n..] == out[at + |s|..][n - at - |s|..];
  }

  lemma NoOutput(v: Variant, xofLength: u32, root: seq<byte>)
    ensures WholeNodes(v, xofLength, root, 0) == [] == Output(v, xofLength, root, 0)
  {}

  lemma NextOutput(v: Variant, xofLength: u32, root: seq<byte>, n: nat, i: nat, size: nat)
    requires 0 < size <= v.OutBytes() && n == OutAt(v, i) + size
    ensures Output(v, xofLength, root, n) == WholeNodes(v, xofLength, root, i) + NodeOutput(v, xofLength, root, i, size)
    ensures size == v.OutBytes() ==> WholeNodes(v, xofLength, root, i + 1) == Output(v, xofLength, root, n)
  {
    hide NodeOutput;
    assert size < v.OutBytes() ==> n / v.OutBytes() == i && n % v.OutBytes() == size;
    assert size == v.OutBytes() ==> n / v.OutBytes() == i + 1 && n % v.OutBytes() == 0;
  }
}
