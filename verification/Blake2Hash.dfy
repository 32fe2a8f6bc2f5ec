/**
 The streaming hash: the state that blake2b_init, _update and _final work on, and the same for
 BLAKE2s, with the reference or the vector compression.  The buffer keeps the last block back
 until final.  The ghost fields name the message absorbed so far, which determines everything
 that a digest depends on.
 */
module Blake2Hash {
  import opened Bytes
  import opened Division
  import opened Simd
  import opened Blake2Spec
  import Blake2b
  import Blake2s
  import Blake2bSimd
  import Blake2sSimd

  /** memcpy into buf from position at. */
  method Copy(buf: array<byte>, at: nat, src: seq<byte>)
    requires at + |src| <= buf.Length
    modifies buf
    ensures buf[..at + |src|] == old(buf[..at]) + src
    ensures buf[at + |src|..] == old(buf[at + |src|..])
  {
    forall i | 0 <= i < |src| {
      buf[at + i] := src[i];
    }
  }

  /** F in terms of the two counter words. */
  lemma FOfWords64(h: seq<bv64>, block: seq<byte>, t0: nat, t1: nat, f0: bool, f1: bool)
    requires |h| == 8 && |block| == 128 && t0 < Variant.V2b.Modulus() && t1 < Variant.V2b.Modulus()
    ensures t1 * Variant.V2b.Modulus() + t0 < Variant.V2b.CounterModulus()
    ensures F(V2b, C64(h), block, t1 * Variant.V2b.Modulus() + t0, f0, f1)
         == C64(Blake2b.Compress(h, block, t0 as bv64, t1 as bv64, Flag64(f0), Flag64(f1)))
  {
    hide Blake2b.Compress, Flag64;
    Split(Variant.V2b.Modulus(), t0, t1);
  }

  lemma FOfWords32(h: seq<bv32>, block: seq<byte>, t0: nat, t1: nat, f0: bool, f1: bool)
    requires |h| == 8 && |block| == 64 && t0 < Variant.V2s.Modulus() && t1 < Variant.V2s.Modulus()
    ensures t1 * Variant.V2s.Modulus() + t0 < Variant.V2s.CounterModulus()
    ensures F(V2s, C32(h), block, t1 * Variant.V2s.Modulus() + t0, f0, f1)
         == C32(Blake2s.Compress(h, block, t0 as bv32, t1 as bv32, Flag32(f0), Flag32(f1)))
  {
    hide Blake2s.Compress, Flag32;
    Split(Variant.V2s.Modulus(), t0, t1);
  }

  /** The compression the library was built with, on the words of a state. */
  method CompressWords64(backend: Backend, h: seq<bv64>, block: seq<byte>, t0: nat, t1: nat, f0: bool, f1: bool)
      returns (h': seq<bv64>)
    requires |h| == 8 && |block| == 128 && t0 < Variant.V2b.Modulus() && t1 < Variant.V2b.Modulus()
    ensures |h'| == 8
    ensures t1 * Variant.V2b.Modulus() + t0 < Variant.V2b.CounterModulus()
    ensures C64(h') == F(V2b, C64(h), block, t1 * Variant.V2b.Modulus() + t0, f0, f1)
  {
    hide Blake2b.Compress, F, Flag64;
    FOfWords64(h, block, t0, t1, f0, f1);
    var w := new bv64[8](i requires 0 <= i < 8 => h[i]);
    assert w[..] == h;
    match backend {
      case Reference => Blake2b.CompressInPlace(w, block, t0 as bv64, t1 as bv64, Flag64(f0), Flag64(f1));
      case Vector(isa) => Blake2bSimd.CompressSimd(isa, w, block, t0 as bv64, t1 as bv64, Flag64(f0), Flag64(f1));
    }
    h' := w[..];
  }

  /** The compression the library was built with, on the words of a state. */
  method CompressWords32(backend: Backend, h: seq<bv32>, block: seq<byte>, t0: nat, t1: nat, f0: bool, f1: bool)
      returns (h': seq<bv32>)
    requires |h| == 8 && |block| == 64 && t0 < Variant.V2s.Modulus() && t1 < Variant.V2s.Modulus()
    ensures |h'| == 8
    ensures t1 * Variant.V2s.Modulus() + t0 < Variant.V2s.CounterModulus()
    ensures C32(h') == F(V2s, C32(h), block, t1 * Variant.V2s.Modulus() + t0, f0, f1)
  {
    hide Blake2s.Compress, F, Flag32;
    FOfWords32(h, block, t0, t1, f0, f1);
    var w := new bv32[8](i requires 0 <= i < 8 => h[i]);
    assert w[..] == h;
    match backend {
      case Reference => Blake2s.CompressInPlace(w, block, t0 as bv32, t1 as bv32, Flag32(f0), Flag32(f1));
      case Vector(isa) => Blake2sSimd.CompressSimd(isa, w, block, t0 as bv32, t1 as bv32, Flag32(f0), Flag32(f1));
    }
    h' := w[..];
  }

  class Hash {
    const v: Variant
    const backend: Backend
    var h: Chain
    var t0: nat
    var t1: nat
    /** The words f[0] and f[1], which are zero or all ones. */
    var f0: bool
    var f1: bool
    const buf: array<byte>
    var buflen: nat
    var outlen: nat
    var lastNode: bool

    /** Where absorbing started, and the bytes absorbed since. */
    ghost var origin: Origin
    ghost var data: seq<byte>

    /** The state is the fold over the leading blocks, and the buffer holds the rest. */
    ghost predicate Valid()
      reads this, buf
    {
      hide Fold;
      && buf.Length == v.BlockBytes() && outlen <= v.OutBytes()
      && origin.h.For(v)
      && Folded(data, Leading(v, |data|))
      && buflen == |data| - v.At(Leading(v, |data|))
      && buf[..buflen] == data[v.At(Leading(v, |data|))..]
    }

    /** The words h, t and f are those after n blocks of d. */
    ghost predicate Folded(d: seq<byte>, n: nat)
      requires origin.h.For(v)
      reads `h, `t0, `t1, `f0, `f1, `origin
    {
      hide Fold;
      && v.At(n) <= |d|
      && h == Fold(v, origin, d, n)
      && t0 < v.Modulus() && t1 < v.Modulus()
      && Counter() == CounterAfter(v, origin, v.At(n))
      && f0 == origin.last && f1 == origin.node
    }

    /** The two counter words as one number. */
    ghost function Counter(): nat
      reads `t0, `t1
    {
      t1 * v.Modulus() + t0
    }

    /** blake2b_init_param and blake2s_init_param. */
    constructor (v: Variant, backend: Backend, p: Param)
      requires p.digestLength <= v.OutBytes()
      ensures Valid() && fresh(buf)
      ensures this.v == v && this.backend == backend
      ensures origin == Start(v, p) && data == []
      ensures outlen == p.digestLength && !f0 && !lastNode
    {
      hide F, InitialChain, InitialChainBytewise, Param.Serialized;
      this.v, this.backend := v, backend;
      BytewiseIsWordwise(v, p.Serialized(v));
      h := if backend == Reference then InitialChain(v, p.Serialized(v)) else InitialChainBytewise(v, p.Serialized(v));
      t0, t1, f0, f1 := 0, 0, false, false;
      buf := new byte[v.BlockBytes()](_ => 0);
      buflen, outlen, lastNode := 0, p.digestLength, false;
      origin, data := Start(v, p), [];
    }

    /** blake2b_increment_counter and blake2s_increment_counter. */
    method IncrementCounter(inc: nat)
      requires inc < v.Modulus() && t0 < v.Modulus() && t1 < v.Modulus()
      modifies `t0, `t1
      ensures t0 < v.Modulus() && t1 < v.Modulus()
      ensures Counter() == (old(Counter()) + inc) % v.CounterModulus()
    {
      hide Variant.Modulus, Variant.CounterModulus;
      if v == V2s && backend != Reference {
        OneWord(t0, t1, inc);
        var t := t1 * 0x1_0000_0000 + t0;
        t := (t + inc) % 0x1_0000_0000_0000_0000;
        t0 := t % 0x1_0000_0000;
        t1 := t / 0x1_0000_0000;
      } else {
        TwoWords(v, t0, t1, inc);
        t0 := (t0 + inc) % v.Modulus();
        t1 := (t1 + if t0 < inc then 1 else 0) % v.Modulus();
      }
    }

    /** blake2b_compress and blake2s_compress, on the state's own words. */
    method Compress(block: seq<byte>)
      requires h.For(v) && |block| == v.BlockBytes() && t0 < v.Modulus() && t1 < v.Modulus()
      modifies `h
      ensures Counter() < v.CounterModulus()
      ensures h == F(v, old(h), block, Counter(), f0, f1)
    {
      hide F;
      if v == V2b {
        var w := CompressWords64(backend, h.w64, block, t0, t1, f0, f1);
        h := C64(w);
      } else {
        var w := CompressWords32(backend, h.w32, block, t0, t1, f0, f1);
        h := C32(w);
      }
    }

    /** Counts and compresses one more block of d. */
    method Absorb(block: seq<byte>, ghost d: seq<byte>, ghost n: nat)
      requires origin.h.For(v) && Folded(d, n)
      requires v.At(n + 1) <= |d| && block == Block(v, d, n)
      modifies `h, `t0, `t1
      ensures Folded(d, n + 1)
    {
      hide F;
      IncrementCounter(v.BlockBytes());
      assert Counter() == CounterAfter(v, origin, v.At(n + 1)) by {
        ModSum(origin.t + v.At(n), v.BlockBytes(), v.CounterModulus());
      }
      Compress(block);
    }

    lemma FoldedGrows(d: seq<byte>, more: seq<byte>, n: nat)
      requires origin.h.For(v) && Folded(d, n)
      ensures Folded(d + more, n)
    {
      hide Fold;
      FoldOfPrefix(v, origin, d, more, n);
    }

    /** The inner loop of update: whole blocks straight from the input, but never the last one. */
    method AbsorbBlocks(input: seq<byte>, ghost d: seq<byte>, ghost n: nat) returns (rest: seq<byte>)
      requires origin.h.For(v) && Folded(d, n)
      requires |input| > 0 && input == d[v.At(n)..]
      modifies `h, `t0, `t1
      ensures Folded(d, Leading(v, |d|))
      ensures rest == d[v.At(Leading(v, |d|))..]
    {
      hide F, Fold;
      rest := input;
      ghost var i := n;
      while |rest| > v.BlockBytes()
        invariant Folded(d, i)
        invariant |rest| > 0 && rest == d[v.At(i)..]
      {
        assert rest[..v.BlockBytes()] == Block(v, d, i);
        Absorb(rest[..v.BlockBytes()], d, i);
        rest := rest[v.BlockBytes()..];
        i := i + 1;
      }
      LeadingIs(v, |d|, i);
    }

    /** The branch of update that overflows the buffer. */
    method Overflow(input: seq<byte>) returns (rest: seq<byte>)
      requires Valid() && |input| > v.BlockBytes() - buflen
      modifies `h, `t0, `t1, `buflen, buf
      ensures buflen == 0
      ensures Folded(data + input, Leading(v, |data + input|))
      ensures rest == (data + input)[v.At(Leading(v, |data + input|))..]
    {
      hide F, Fold, Folded, Leading, Block;
      ghost var n := Leading(v, |data|);
      FoldedGrows(data, input, n);
      Straddling(v, data, input, n, buf[..buflen]);
      var left := buflen;
      var fill := v.BlockBytes() - left;
      buflen := 0;
      Copy(buf, left, input[..fill]);
      assert buf[..] == Block(v, data + input, n) by { assert buf[..left + fill] == buf[..]; }
      Absorb(buf[..], data + input, n);
      rest := AbsorbBlocks(input[fill..], data + input, n + 1);
    }

    /** The last statements of update: what remains goes into the buffer. */
    method Keep(rest: seq<byte>, ghost total: seq<byte>)
      requires buf.Length == v.BlockBytes() && outlen <= v.OutBytes() && origin.h.For(v)
      requires Folded(total, Leading(v, |total|))
      requires buflen <= buf.Length && buf[..buflen] + rest == total[v.At(Leading(v, |total|))..]
      modifies `buflen, `data, buf
      ensures Valid() && data == total
    {
      hide Fold, Folded, Leading;
      Copy(buf, buflen, rest);
      buflen := buflen + |rest|;
      data := total;
    }

    /** blake2b_update and blake2s_update. */
    method Update(input: seq<byte>)
      requires Valid()
      modifies `h, `t0, `t1, `buflen, `data, buf
      ensures Valid()
      ensures data == old(data) + input
    {
      hide F, Fold, Folded, Leading;
      if |input| > 0 {
        var rest := input;
        if |rest| > v.BlockBytes() - buflen {
          rest := Overflow(rest);
        } else {
          ghost var n := Leading(v, |data|);
          FoldedGrows(data, input, n);
          LeadingIs(v, |data + input|, n);
          assert buf[..buflen] + rest == (data + input)[v.At(n)..];
        }
        Keep(rest, data + input);
      } else {
        assert data + input == data;
      }
    }

    /** How many bytes final writes: the reference BLAKE2s goes by the caller's length, the others by the state's. */
    function Written(n: nat): nat
      reads `outlen
    {
      if v == V2s && backend == Reference then n else outlen
    }

    /** Names the present state as the one absorbing starts from. */
    ghost method Restart()
      requires buf.Length == v.BlockBytes() && outlen <= v.OutBytes() && buflen <= buf.Length
      requires h.For(v) && t0 < v.Modulus() && t1 < v.Modulus() && Counter() < v.CounterModulus()
      modifies `origin, `data
      ensures Valid()
    {
      hide Fold, Leading;
      origin, data := Origin(h, Counter(), f0, f1), buf[..buflen];
      Small(Counter(), v.CounterModulus());
      NoneLeading(v, origin, data);
    }

    /** Zeros over whatever an earlier block left beyond the last byte. */
    method Pad()
      requires buf.Length == v.BlockBytes() && buflen <= buf.Length
      modifies buf
      ensures buf[..] == Padded(old(buf[..buflen]), v.BlockBytes())
    {
      Copy(buf, buflen, Zeros(v.BlockBytes() - buflen));
      assert buf[..v.BlockBytes()] == buf[..];
    }

    /** The steps of final up to the last compression. */
    method Seal()
      requires Valid()
      modifies `h, `t0, `t1, `f0, `f1, `origin, `data, buf
      ensures Valid() && f0
      ensures h == Finished(v, old(origin), old(data), lastNode)
    {
      hide F, Fold, Leading, Padded;
      ModSum(origin.t + v.At(Leading(v, |data|)), buflen, v.CounterModulus());
      IncrementCounter(buflen);
      assert Counter() == CounterAfter(v, origin, |data|);
      if lastNode {
        f1 := true;
      }
      f0 := true;
      Pad();
      Compress(buf[..]);
      Restart();
    }

    /** The first n bytes of the digest of everything absorbed. */
    ghost function Front(n: nat): seq<byte>
      requires origin.h.For(v) && n <= v.OutBytes()
      reads `origin, `data, `lastNode
    {
      Finished(v, origin, data, lastNode).Bytes(v)[..n]
    }

    /** What final answers: the digest of everything absorbed, once, to a caller with enough room. */
    ghost function Outcome(n: nat): Option<seq<byte>>
      requires origin.h.For(v) && outlen <= v.OutBytes()
      requires v == V2s && backend == Reference ==> n <= v.OutBytes()
      reads this
    {
      hide Folded, Leading, Finished, Chain.Bytes;
      if n < outlen || f0 then None else Some(Front(Written(n)))
    }

    /** The loop of final that writes h out, word by word. */
    method StoreWords() returns (buffer: array<byte>)
      requires h.For(v)
      ensures fresh(buffer) && buffer[..] == h.Bytes(v)
      ensures v == V2b ==> forall i :: 0 <= i < 8 ==> Load64(buffer[8 * i..8 * i + 8]) == h.w64[i]
      ensures v == V2s ==> forall i :: 0 <= i < 8 ==> Load32(buffer[4 * i..4 * i + 4]) == h.w32[i]
    {
      hide Chain.Bytes, Store64, Store32, Load64, Load32;
      buffer := new byte[v.OutBytes()](_ => 0);
      var i, at := 0, 0;
      while i < 8
        invariant 0 <= i <= 8 && at == (if v == V2b then 8 * i else 4 * i)
        invariant buffer[..at] == h.Bytes(v)[..at]
      {
        var word: seq<byte>;
        if v == V2b {
          BytesAt64(h, i);
          word := Store64(h.w64[i]);
        } else {
          BytesAt32(h, i);
          word := Store32(h.w32[i]);
        }
        Copy(buffer, at, word);
        assert h.Bytes(v)[..at + |word|] == h.Bytes(v)[..at] + word;
        i, at := i + 1, at + |word|;
      }
      assert buffer[..at] == buffer[..] && h.Bytes(v)[..at] == h.Bytes(v);
      forall i | 0 <= i < 8
        ensures if v == V2b then Load64(buffer[..][8 * i..8 * i + 8]) == h.w64[i]
                else Load32(buffer[..][4 * i..4 * i + 4]) == h.w32[i]
      {
        WordsOfBytes(v, h, i);
      }
      assert forall a, b :: 0 <= a <= b <= buffer.Length ==> buffer[..][a..b] == buffer[a..b];
    }

    /** blake2b_final and blake2s_final. */
    method Final(n: nat) returns (out: Option<seq<byte>>)
      requires Valid()
      requires v == V2s && backend == Reference ==> n <= v.OutBytes()
      modifies `h, `t0, `t1, `f0, `f1, `origin, `data, buf
      ensures Valid()
      ensures out == old(Outcome(n))
      ensures out.Some? ==> f0
      ensures out.Some? && |out.value| == v.OutBytes() ==> forall i :: 0 <= i < 8 ==> WordAt(v, out.value, i, h)
      ensures out.None? ==> unchanged(this) && unchanged(buf)
    {
      hide F, Fold, Finished, Chain.Bytes, WordAt;
      if n < outlen || f0 {
        return None;
      }
      Seal();
      var buffer := StoreWords();
      out := Some(buffer[..Written(n)]);
      forall i | 0 <= i < 8 && Written(n) == v.OutBytes()
        ensures WordAt(v, out.value, i, h)
      {
        assert out.value == h.Bytes(v);
        BytesHaveWords(v, h, i);
      }
    }

    /** blake2b_init and blake2s_init. */
    static method Init(v: Variant, backend: Backend, outlen: nat) returns (s: Option<Hash>)
      ensures s.None? <==> outlen == 0 || outlen > v.OutBytes()
      ensures s.Some? ==> var s := s.value;
                fresh(s) && fresh(s.buf) && s.Valid() && s.v == v && s.backend == backend &&
                s.origin == Start(v, Sequential(outlen, 0)) && s.data == [] && s.outlen == outlen && !s.f0 &&
                    !s.lastNode
    {
      if outlen == 0 || outlen > v.OutBytes() {
        return None;
      }
      var h := new Hash(v, backend, Sequential(outlen, 0));
      s := Some(h);
    }

    /** blake2b_init_key and blake2s_init_key: the padded key is the first block. */
    static method InitKey(v: Variant, backend: Backend, outlen: nat, key: seq<byte>) returns (s: Option<Hash>)
      ensures s.None? <==> outlen == 0 || outlen > v.OutBytes() || |key| == 0 || |key| > v.KeyBytes()
      ensures s.Some? ==> var s := s.value;
                fresh(s) && fresh(s.buf) && s.Valid() && s.v == v && s.backend == backend &&
                s.origin == Start(v, Sequential(outlen, |key|)) && s.data == KeyBlock(v, key) &&
                s.outlen == outlen && !s.f0 && !s.lastNode
    {
      if outlen == 0 || outlen > v.OutBytes() {
        return None;
      }
      if |key| == 0 || |key| > v.KeyBytes() {
        return None;
      }
      var h := new Hash(v, backend, Sequential(outlen, |key|));
      h.Update(Padded(key, v.BlockBytes()));
      s := Some(h);
    }
  }

  /** Word i of s, least significant byte first, is word i of a chaining value. */
  predicate WordAt(v: Variant, s: seq<byte>, i: nat, h: Chain)
    requires h.For(v) && |s| == v.OutBytes() && i < 8
  {
    if v == V2b then Load64(s[8 * i..8 * i + 8]) == h.w64[i] else Load32(s[4 * i..4 * i + 4]) == h.w32[i]
  }

  lemma BytesHaveWords(v: Variant, h: Chain, i: nat)
    requires h.For(v) && i < 8
    ensures WordAt(v, h.Bytes(v), i, h)
  {
    hide Chain.Bytes, Load64, Load32;
    WordsOfBytes(v, h, i);
  }

  /** The words of a digest in full length are those of the chaining value at the end. */
  lemma DigestWords(v: Variant, key: seq<byte>, msg: seq<byte>, i: nat)
    requires |key| <= v.KeyBytes() && i < 8
    ensures WordAt(v, Digest(v, v.OutBytes(), key, msg), i,
                   Finished(v, Start(v, Sequential(v.OutBytes(), |key|)), KeyBlock(v, key) + msg, false))
  {
    hide Chain.Bytes, Finished, Start, KeyBlock, WordAt;
    var h := Finished(v, Start(v, Sequential(v.OutBytes(), |key|)), KeyBlock(v, key) + msg, false);
    BytesHaveWords(v, h, i);
    assert h.Bytes(v)[..v.OutBytes()] == h.Bytes(v);
  }

  /** When the one-shot functions and the initialisers refuse. */
  predicate Refused(v: Variant, outlen: nat, keylen: nat) {
    outlen == 0 || outlen > v.OutBytes() || keylen > v.KeyBytes()
  }

  /** What the one-shot functions initialise, with or without a key. */
  method Begin(v: Variant, backend: Backend, outlen: nat, key: seq<byte>) returns (s: Hash)
    requires !Refused(v, outlen, |key|)
    ensures fresh(s) && fresh(s.buf) && s.Valid() && s.v == v && s.backend == backend
    ensures s.origin == Start(v, Sequential(outlen, |key|)) && s.data == KeyBlock(v, key)
    ensures s.outlen == outlen && !s.f0 && !s.lastNode
  {
    hide Start, Hash.Valid;
    var o: Option<Hash>;
    if |key| > 0 {
      o := Hash.InitKey(v, backend, outlen, key);
    } else {
      o := Hash.Init(v, backend, outlen);
    }
    s := o.value;
  }

  /** The streaming interface: initialise, update with every chunk in turn, finish. */
  method Streamed(v: Variant, backend: Backend, outlen: nat, key: seq<byte>, chunks: seq<seq<byte>>)
      returns (out: Option<seq<byte>>)
    ensures out == if Refused(v, outlen, |key|) then None else Some(Digest(v, outlen, key, Joined(chunks)))
  {
    hide Finished, InitialChain, Param.Serialized, Chain.Bytes, KeyBlock, Start, Hash.Valid;
    if Refused(v, outlen, |key|) {
      return None;
    }
    var s := Begin(v, backend, outlen, key);
    var i := 0;
    while i < |chunks|
      invariant 0 <= i <= |chunks|
      invariant fresh(s) && fresh(s.buf) && s.Valid()
      invariant s.v == v && s.backend == backend && s.outlen == outlen && !s.f0 && !s.lastNode
      invariant s.origin == Start(v, Sequential(outlen, |key|))
      invariant s.data == KeyBlock(v, key) + Joined(chunks[..i])
    {
      JoinedSnoc(chunks, i);
      s.Update(chunks[i]);
      i := i + 1;
    }
    assert chunks[..i] == chunks;
    ghost var o, d := s.origin, s.data;
    out := s.Final(outlen);
    assert out == Some(Finished(v, o, d, false).Bytes(v)[..outlen]);
  }

  /** The one-shot functions blake2b and blake2s. */
  method OneShot(v: Variant, backend: Backend, outlen: nat, input: seq<byte>, key: seq<byte>)
      returns (out: Option<seq<byte>>)
    ensures out == if Refused(v, outlen, |key|) then None else Some(Digest(v, outlen, key, input))
  {
    hide Digest;
    assert Joined([input]) == input;
    out := Streamed(v, backend, outlen, key, [input]);
  }

  /** The block that begins in the buffer and ends in the input. */
  lemma Straddling(v: Variant, data: seq<byte>, input: seq<byte>, n: nat, kept: seq<byte>)
    requires v.At(n) <= |data| && kept == data[v.At(n)..] && |kept| <= v.BlockBytes() <= |kept| + |input|
    ensures var fill := v.BlockBytes() - |kept|;
            && v.At(n + 1) <= |data + input|
            && Block(v, data + input, n) == kept + input[..fill]
            && input[fill..] == (data + input)[v.At(n + 1)..]
  {}

  lemma Split(m: nat, t0: nat, t1: nat)
    requires t0 < m && t1 < m
    ensures (t1 * m + t0) % m == t0 && (t1 * m + t0) / m == t1 && t1 * m + t0 < m * m
  {
    Residue(t1 * m + t0, m, t1, t0);
    Below(t1, m, t0, m);
  }
}
