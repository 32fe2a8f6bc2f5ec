/** Bytes, byte strings and the result type of fallible operations. */
module Bytes {

  type byte = bv8

  datatype Option<+T> = None | Some(value: T)

  /** n zero bytes: what memset leaves. */
  function Zeros(n: nat): (s: seq<byte>)
    ensures |s| == n && forall i :: 0 <= i < n ==> s[i] == 0
  {
    seq(n, _ => 0)
  }

  /** s followed by zeros up to n bytes. */
  function Padded(s: seq<byte>, n: nat): (p: seq<byte>)
    requires |s| <= n
    ensures |p| == n && p[..|s|] == s && forall i :: |s| <= i < n ==> p[i] == 0
  {
    s + Zeros(n - |s|)
  }

  /** The concatenation of the chunks a stream arrives in. */
  function Joined<T>(chunks: seq<seq<T>>): seq<T> {
    if |chunks| == 0 then [] else chunks[0] + Joined(chunks[1..])
  }

  lemma {:induction false} JoinedSnoc<T>(chunks: seq<seq<T>>, i: nat)
    requires i < |chunks|
    ensures Joined(chunks[..i + 1]) == Joined(chunks[..i]) + chunks[i]
  {
    if i == 0 {
      assert Joined(chunks[..1]) == chunks[0] + Joined([]);
    } else {
      JoinedSnoc(chunks[1..], i - 1);
      assert chunks[..i + 1][1..] == chunks[1..][..i] && chunks[..i][1..] == chunks[1..][..i - 1];
    }
  }

  lemma {:induction false} JoinedSplit<T>(chunks: seq<seq<T>>, k: nat)
    requires k <= |chunks|
    ensures Joined(chunks) == Joined(chunks[..k]) + Joined(chunks[k..])
  {
    if k == 0 {
      assert chunks[0..] == chunks;
    } else {
      JoinedSplit(chunks[1..], k - 1);
      assert chunks[..k][1..] == chunks[1..][..k - 1] && chunks[1..][k - 1..] == chunks[k..];
    }
  }

  /** Four bytes of a word, least significant first: store32 of blake2-impl.h. */
  function Store32(w: bv32): (s: seq<byte>)
    ensures |s| == 4
  {
    [(w & 0xFF) as byte, ((w >> 8) & 0xFF) as byte, ((w >> 16) & 0xFF) as byte, ((w >> 24) & 0xFF) as byte]
  }

  /** Eight bytes of a word, least significant first: store64 of blake2-impl.h. */
  function Store64(w: bv64): (s: seq<byte>)
    ensures |s| == 8
  {
    [(w & 0xFF) as byte, ((w >> 8) & 0xFF) as byte, ((w >> 16) & 0xFF) as byte, ((w >> 24) & 0xFF) as byte,
     ((w >> 32) & 0xFF) as byte, ((w >> 40) & 0xFF) as byte, ((w >> 48) & 0xFF) as byte, ((w >> 56) & 0xFF) as byte]
  }

  /** load32 of blake2-impl.h. */
  function Load32(s: seq<byte>): bv32
    requires |s| == 4
  {
    (s[0] as bv32) | ((s[1] as bv32) << 8) | ((s[2] as bv32) << 16) | ((s[3] as bv32) << 24)
  }

  /** load64 of blake2-impl.h. */
  function Load64(s: seq<byte>): bv64
    requires |s| == 8
  {
    (s[0] as bv64) | ((s[1] as bv64) << 8) | ((s[2] as bv64) << 16) | ((s[3] as bv64) << 24) |
    ((s[4] as bv64) << 32) | ((s[5] as bv64) << 40) | ((s[6] as bv64) << 48) | ((s[7] as bv64) << 56)
  }

  /** Byte i of a stored word holds its bits from 8 * i on. */
  lemma WordAt64(s: seq<byte>)
    requires |s| == 8
    ensures var w := Load64(s);
            && w & 0xFF == s[0] as bv64 && (w >> 8) & 0xFF == s[1] as bv64
            && (w >> 16) & 0xFF == s[2] as bv64 && (w >> 24) & 0xFF == s[3] as bv64
            && (w >> 32) & 0xFF == s[4] as bv64 && (w >> 40) & 0xFF == s[5] as bv64
            && (w >> 48) & 0xFF == s[6] as bv64 && (w >> 56) & 0xFF == s[7] as bv64
  {
    forall i | 0 <= i < 8 ensures s[i] as bv64 <= 0xFF { CastBack(s[i]); }
    BytesOfWord(s[0] as bv64, s[1] as bv64, s[2] as bv64, s[3] as bv64,
                s[4] as bv64, s[5] as bv64, s[6] as bv64, s[7] as bv64);
  }

  lemma WordAt32(s: seq<byte>)
    requires |s| == 4
    ensures var w := Load32(s);
            && w & 0xFF == s[0] as bv32 && (w >> 8) & 0xFF == s[1] as bv32
            && (w >> 16) & 0xFF == s[2] as bv32 && (w >> 24) & 0xFF == s[3] as bv32
  {
    forall i | 0 <= i < 4 ensures s[i] as bv32 <= 0xFF { CastXor32(s[i], 0); }
    BytesOfWord32(s[0] as bv32, s[1] as bv32, s[2] as bv32, s[3] as bv32);
  }

  lemma BytesOfWord32(a0: bv32, a1: bv32, a2: bv32, a3: bv32)
    requires a0 <= 0xFF && a1 <= 0xFF && a2 <= 0xFF && a3 <= 0xFF
    ensures var w := a0 | (a1 << 8) | (a2 << 16) | (a3 << 24);
            w & 0xFF == a0 && (w >> 8) & 0xFF == a1 && (w >> 16) & 0xFF == a2 && (w >> 24) & 0xFF == a3
  {}

  /** Loading undoes storing, so a digest determines the chaining words it was written from. */
  lemma LoadStore64(w: bv64)
    ensures Load64(Store64(w)) == w
  {
    var s := Store64(w);
    assert s[0] as bv64 == w & 0xFF;
    assert s[1] as bv64 == (w >> 8) & 0xFF;
    assert s[2] as bv64 == (w >> 16) & 0xFF;
    assert s[3] as bv64 == (w >> 24) & 0xFF;
    assert s[4] as bv64 == (w >> 32) & 0xFF;
    assert s[5] as bv64 == (w >> 40) & 0xFF;
    assert s[6] as bv64 == (w >> 48) & 0xFF;
    assert s[7] as bv64 == (w >> 56) & 0xFF;
  }

  lemma LoadStore32(w: bv32)
    ensures Load32(Store32(w)) == w
  {
    var s := Store32(w);
    assert s[0] as bv32 == w & 0xFF;
    assert s[1] as bv32 == (w >> 8) & 0xFF;
    assert s[2] as bv32 == (w >> 16) & 0xFF;
    assert s[3] as bv32 == (w >> 24) & 0xFF;
  }

  /** Storing undoes loading. */
  lemma StoreLoad64(s: seq<byte>)
    requires |s| == 8
    ensures Store64(Load64(s)) == s
  {
    WordAt64(s);
    forall i | 0 <= i < 8 ensures (s[i] as bv64) as byte == s[i] { CastBack(s[i]); }
    hide Load64;
    var r := Store64(Load64(s));
    assert r[0] == s[0] && r[1] == s[1] && r[2] == s[2] && r[3] == s[3];
    assert r[4] == s[4] && r[5] == s[5] && r[6] == s[6] && r[7] == s[7];
  }

  lemma StoreLoad32(s: seq<byte>)
    requires |s| == 4
    ensures Store32(Load32(s)) == s
  {
    BytesOfWord32(s[0] as bv32, s[1] as bv32, s[2] as bv32, s[3] as bv32);
    forall i | 0 <= i < 4 ensures (s[i] as bv32) as byte == s[i] && s[i] as bv32 <= 0xFF { CastBack32(s[i]); }
  }

  lemma CastBack32(b: byte)
    ensures b as bv32 <= 0xFF && (b as bv32) as byte == b
  {}

  lemma CastBack(b: byte)
    ensures b as bv64 <= 0xFF && (b as bv64) as byte == b
  {}

  lemma BytesOfWord(a0: bv64, a1: bv64, a2: bv64, a3: bv64, a4: bv64, a5: bv64, a6: bv64, a7: bv64)
    requires a0 <= 0xFF && a1 <= 0xFF && a2 <= 0xFF && a3 <= 0xFF && a4 <= 0xFF && a5 <= 0xFF && a6 <= 0xFF &&
             a7 <= 0xFF
    ensures var w := a0 | (a1 << 8) | (a2 << 16) | (a3 << 24) | (a4 << 32) | (a5 << 40) | (a6 << 48) | (a7 << 56);
            w & 0xFF == a0 && (w >> 8) & 0xFF == a1 && (w >> 16) & 0xFF == a2 && (w >> 24) & 0xFF == a3 &&
            (w >> 32) & 0xFF == a4 && (w >> 40) & 0xFF == a5 && (w >> 48) & 0xFF == a6 && (w >> 56) & 0xFF == a7
  {}

  /** The byte-wise exclusive or of two strings. */
  function XorBytes(s: seq<byte>, t: seq<byte>): (r: seq<byte>)
    requires |s| == |t|
    ensures |r| == |s|
  {
    seq(|s|, i requires 0 <= i < |s| => s[i] ^ t[i])
  }

  /** Loading words commutes with exclusive or: xoring byte by byte is xoring word by word. */
  lemma LoadXor64(s: seq<byte>, t: seq<byte>)
    requires |s| == |t| == 8
    ensures Load64(XorBytes(s, t)) == Load64(s) ^ Load64(t)
  {
    var r := XorBytes(s, t);
    forall i | 0 <= i < 8
      ensures r[i] as bv64 == (s[i] as bv64) ^ (t[i] as bv64)
    {
      CastXor64(s[i], t[i]);
    }
    XorOfShifts64(s[0] as bv64, s[1] as bv64, s[2] as bv64, s[3] as bv64,
                  s[4] as bv64, s[5] as bv64, s[6] as bv64, s[7] as bv64,
                  t[0] as bv64, t[1] as bv64, t[2] as bv64, t[3] as bv64,
                  t[4] as bv64, t[5] as bv64, t[6] as bv64, t[7] as bv64);
  }

  lemma LoadXor32(s: seq<byte>, t: seq<byte>)
    requires |s| == |t| == 4
    ensures Load32(XorBytes(s, t)) == Load32(s) ^ Load32(t)
  {
    var r := XorBytes(s, t);
    forall i | 0 <= i < 4
      ensures r[i] as bv32 == (s[i] as bv32) ^ (t[i] as bv32)
    {
      CastXor32(s[i], t[i]);
    }
    XorOfShifts32(s[0] as bv32, s[1] as bv32, s[2] as bv32, s[3] as bv32,
                  t[0] as bv32, t[1] as bv32, t[2] as bv32, t[3] as bv32);
  }

  lemma CastXor32(a: byte, b: byte)
    ensures (a ^ b) as bv32 == (a as bv32) ^ (b as bv32)
    ensures a as bv32 <= 0xFF
  {}

  lemma XorOfShifts32(a0: bv32, a1: bv32, a2: bv32, a3: bv32, b0: bv32, b1: bv32, b2: bv32, b3: bv32)
    requires a0 <= 0xFF && a1 <= 0xFF && a2 <= 0xFF && a3 <= 0xFF
    requires b0 <= 0xFF && b1 <= 0xFF && b2 <= 0xFF && b3 <= 0xFF
    ensures (a0 ^ b0) | ((a1 ^ b1) << 8) | ((a2 ^ b2) << 16) | ((a3 ^ b3) << 24)
         == (a0 | (a1 << 8) | (a2 << 16) | (a3 << 24)) ^ (b0 | (b1 << 8) | (b2 << 16) | (b3 << 24))
  {}

  lemma CastXor64(a: byte, b: byte)
    ensures (a ^ b) as bv64 == (a as bv64) ^ (b as bv64)
    ensures a as bv64 <= 0xFF
  {}

  lemma XorOfShifts64(a0: bv64, a1: bv64, a2: bv64, a3: bv64, a4: bv64, a5: bv64, a6: bv64, a7: bv64,
                      b0: bv64, b1: bv64, b2: bv64, b3: bv64, b4: bv64, b5: bv64, b6: bv64, b7: bv64)
    requires a0 <= 0xFF && a1 <= 0xFF && a2 <= 0xFF && a3 <= 0xFF && a4 <= 0xFF && a5 <= 0xFF && a6 <= 0xFF &&
             a7 <= 0xFF
    requires b0 <= 0xFF && b1 <= 0xFF && b2 <= 0xFF && b3 <= 0xFF && b4 <= 0xFF && b5 <= 0xFF && b6 <= 0xFF &&
             b7 <= 0xFF
    ensures (a0 ^ b0) | ((a1 ^ b1) << 8) | ((a2 ^ b2) << 16) | ((a3 ^ b3) << 24) |
            ((a4 ^ b4) << 32) | ((a5 ^ b5) << 40) | ((a6 ^ b6) << 48) | ((a7 ^ b7) << 56)
         == (a0 | (a1 << 8) | (a2 << 16) | (a3 << 24) | (a4 << 32) | (a5 << 40) | (a6 << 48) | (a7 << 56))
          ^ (b0 | (b1 << 8) | (b2 << 16) | (b3 << 24) | (b4 << 32) | (b5 << 40) | (b6 << 48) | (b7 << 56))
  {}
}
