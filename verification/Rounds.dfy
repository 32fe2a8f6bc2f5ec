/**
 The mixing schedule shared by BLAKE2b and BLAKE2s: the working vector `v` of sixteen
 words, the mixing of four of them (G), and one round of eight mixings, as sections 3.1
 and 3.2 of RFC 7693 give them.  Everything is generic in the word type, so that the
 64-bit and the 32-bit hash share one proof that mixing whole rows and rotating the rows
 is the same as mixing columns and then diagonals.
 */
module Rounds {

  /** One column (or diagonal) of the working vector. */
  datatype Quad<W> = Quad(a: W, b: W, c: W, d: W)

  /** The index of a word of a block or of the working vector. */
  type Index = i: nat | i < 16

  /** The word arithmetic of one hash: wrapping addition, exclusive or and G's four rotations. */
  datatype Arith<!W> = Arith(
    add: (W, W) -> W, xor: (W, W) -> W,
    rot1: W -> W, rot2: W -> W, rot3: W -> W, rot4: W -> W)

  /** Four of the eight assignments of the macro G, with the two rotations they use. */
  function HalfMix<W>(o: Arith<W>, rotD: W -> W, rotB: W -> W, q: Quad<W>, x: W): Quad<W> {
    var a := o.add(o.add(q.a, q.b), x);
    var d := rotD(o.xor(q.d, a));
    var c := o.add(q.c, d);
    Quad(a, rotB(o.xor(q.b, c)), c, d)
  }

  /** The mixing function of section 3.1 of RFC 7693. */
  function Mix<W>(o: Arith<W>, q: Quad<W>, x: W, y: W): Quad<W> {
    HalfMix(o, o.rot3, o.rot4, HalfMix(o, o.rot1, o.rot2, q, x), y)
  }

  /** The vector code adds the message word before the second operand, the scalar code after it. */
  ghost predicate AddsInAnyOrder<R(!new)>(v: Arith<R>) {
    forall a, b, c :: v.add(v.add(a, b), c) == v.add(v.add(a, c), b)
  }

  /** It also folds the two halves of the working vector together before the chaining value. */
  ghost predicate XorsInAnyOrder<R(!new)>(v: Arith<R>) {
    && (forall a, b, c :: v.xor(a, v.xor(b, c)) == v.xor(v.xor(a, b), c))
    && (forall a, b, c :: v.xor(a, v.xor(c, b)) == v.xor(v.xor(a, b), c))
  }

  lemma XorOrder<W(!new)>(o: Arith<W>, a: W, b: W, c: W)
    requires XorsInAnyOrder(o)
    ensures o.xor(a, o.xor(b, c)) == o.xor(a, o.xor(c, b)) == o.xor(o.xor(a, b), c)
  {}

  /** p takes the arithmetic v to the arithmetic o, as reading one lane of a register does. */
  ghost predicate Projects<R(!new), W>(p: R -> W, v: Arith<R>, o: Arith<W>) {
    && (forall x, y :: p(v.add(x, y)) == o.add(p(x), p(y)))
    && (forall x, y :: p(v.xor(x, y)) == o.xor(p(x), p(y)))
    && (forall x :: p(v.rot1(x)) == o.rot1(p(x)))
    && (forall x :: p(v.rot2(x)) == o.rot2(p(x)))
    && (forall x :: p(v.rot3(x)) == o.rot3(p(x)))
    && (forall x :: p(v.rot4(x)) == o.rot4(p(x)))
  }

  function Image<R, W>(p: R -> W, q: Quad<R>): Quad<W> {
    Quad(p(q.a), p(q.b), p(q.c), p(q.d))
  }

  /** Mixing commutes with such a projection. */
  lemma MixProjects<R(!new), W>(p: R -> W, v: Arith<R>, o: Arith<W>, q: Quad<R>, x: R, y: R)
    requires Projects(p, v, o)
    ensures Image(p, Mix(v, q, x, y)) == Mix(o, Image(p, q), p(x), p(y))
  {
    HalfMixProjects(p, v, o, v.rot1, v.rot2, o.rot1, o.rot2, q, x);
    HalfMixProjects(p, v, o, v.rot3, v.rot4, o.rot3, o.rot4, HalfMix(v, v.rot1, v.rot2, q, x), y);
  }

  lemma HalfMixProjects<R(!new), W>(p: R -> W, v: Arith<R>, o: Arith<W>, vd: R -> R, vb: R -> R,
                                    od: W -> W, ob: W -> W, q: Quad<R>, x: R)
    requires Projects(p, v, o)
    requires forall x :: p(vd(x)) == od(p(x))
    requires forall x :: p(vb(x)) == ob(p(x))
    ensures Image(p, HalfMix(v, vd, vb, q, x)) == HalfMix(o, od, ob, Image(p, q), p(x))
  {}

  /** The macro G: mixes words a, b, c and d of v with two message words. */
  function G<W>(o: Arith<W>, v: seq<W>, a: Index, b: Index, c: Index, d: Index, x: W, y: W): (v': seq<W>)
    requires |v| == 16
    ensures |v'| == 16
  {
    var q := Mix(o, Quad(v[a], v[b], v[c], v[d]), x, y);
    v[a := q.a][b := q.b][c := q.c][d := q.d]
  }

  /** The macro ROUND; `s` holds the sixteen message words in the order of this round's sigma. */
  function Round<W>(o: Arith<W>, v: seq<W>, s: seq<W>): (v': seq<W>)
    requires |v| == 16 && |s| == 16
    ensures |v'| == 16
  {
    var v := G(o, v, 0, 4, 8, 12, s[0], s[1]);
    var v := G(o, v, 1, 5, 9, 13, s[2], s[3]);
    var v := G(o, v, 2, 6, 10, 14, s[4], s[5]);
    var v := G(o, v, 3, 7, 11, 15, s[6], s[7]);
    var v := G(o, v, 0, 5, 10, 15, s[8], s[9]);
    var v := G(o, v, 1, 6, 11, 12, s[10], s[11]);
    var v := G(o, v, 2, 7, 8, 13, s[12], s[13]);
    G(o, v, 3, 4, 9, 14, s[14], s[15])
  }

  /** The message words in the order a row of sigma lists them. */
  function Scheduled<W>(m: seq<W>, sigma: seq<Index>): (s: seq<W>)
    requires |m| == 16 && |sigma| == 16
    ensures |s| == 16 && forall i :: 0 <= i < 16 ==> s[i] == m[sigma[i]]
  {
    seq(16, i requires 0 <= i < 16 => m[sigma[i]])
  }

  /** The rows of sigma, one for each round. */
  type Schedule = rows: seq<seq<Index>> | forall r :: 0 <= r < |rows| ==> |rows[r]| == 16 witness []

  /** The working vector after the first n rounds of the schedule. */
  function AfterRounds<W>(o: Arith<W>, rows: Schedule, v: seq<W>, m: seq<W>, n: nat): (v': seq<W>)
    requires |v| == 16 && |m| == 16 && n <= |rows|
    ensures |v'| == 16
  {
    if n == 0 then v else Round(o, AfterRounds(o, rows, v, m, n - 1), Scheduled(m, rows[n - 1]))
  }

  /** The new chaining value: the old one xored with both halves of the working vector. */
  function FeedForward<W>(o: Arith<W>, h: seq<W>, v: seq<W>): (h': seq<W>)
    requires |h| == 8 && |v| == 16
    ensures |h'| == 8
  {
    seq(8, i requires 0 <= i < 8 => o.xor(o.xor(h[i], v[i]), v[i + 8]))
  }

  /** Column k of the four-by-four matrix v. */
  function Column<W>(v: seq<W>, k: nat): Quad<W>
    requires |v| == 16 && k < 4
  {
    Quad(v[k], v[4 + k], v[8 + k], v[12 + k])
  }

  /** The matrix with the given columns. */
  function FromColumns<W>(q0: Quad<W>, q1: Quad<W>, q2: Quad<W>, q3: Quad<W>): (v: seq<W>)
    ensures |v| == 16
  {
    [q0.a, q1.a, q2.a, q3.a,
     q0.b, q1.b, q2.b, q3.b,
     q0.c, q1.c, q2.c, q3.c,
     q0.d, q1.d, q2.d, q3.d]
  }

  /** All four columns mixed at once: what one pass over whole rows computes. */
  function MixColumns<W>(o: Arith<W>, v: seq<W>, s: seq<W>): (v': seq<W>)
    requires |v| == 16 && |s| == 8
    ensures |v'| == 16
  {
    FromColumns(Mix(o, Column(v, 0), s[0], s[1]), Mix(o, Column(v, 1), s[2], s[3]),
                Mix(o, Column(v, 2), s[4], s[5]), Mix(o, Column(v, 3), s[6], s[7]))
  }

  /** Row i rotated left by i places, which turns the diagonals into columns. */
  function Diagonalised<W>(v: seq<W>): (v': seq<W>)
    requires |v| == 16
    ensures |v'| == 16
  {
    [v[0], v[1], v[2], v[3],
     v[5], v[6], v[7], v[4],
     v[10], v[11], v[8], v[9],
     v[15], v[12], v[13], v[14]]
  }

  /** The inverse of Diagonalised. */
  function Undiagonalised<W>(v: seq<W>): (v': seq<W>)
    requires |v| == 16
    ensures |v'| == 16
  {
    [v[0], v[1], v[2], v[3],
     v[7], v[4], v[5], v[6],
     v[10], v[11], v[8], v[9],
     v[13], v[14], v[15], v[12]]
  }

  /** The four column mixings of a round touch disjoint words, so they are one mixing of rows. */
  lemma ColumnStep<W>(o: Arith<W>, v: seq<W>, s: seq<W>)
    requires |v| == 16 && |s| == 8
    ensures
      var v1 := G(o, v, 0, 4, 8, 12, s[0], s[1]);
      var v2 := G(o, v1, 1, 5, 9, 13, s[2], s[3]);
      var v3 := G(o, v2, 2, 6, 10, 14, s[4], s[5]);
      G(o, v3, 3, 7, 11, 15, s[6], s[7]) == MixColumns(o, v, s)
  {
    hide Mix;
    var v1 := G(o, v, 0, 4, 8, 12, s[0], s[1]);
    var v2 := G(o, v1, 1, 5, 9, 13, s[2], s[3]);
    assert Column(v1, 1) == Column(v, 1) && Column(v2, 2) == Column(v, 2);
  }

  /** The four diagonal mixings are a mixing of rows between a rotation and its inverse. */
  lemma DiagonalStep<W>(o: Arith<W>, v: seq<W>, s: seq<W>)
    requires |v| == 16 && |s| == 8
    ensures
      var v1 := G(o, v, 0, 5, 10, 15, s[0], s[1]);
      var v2 := G(o, v1, 1, 6, 11, 12, s[2], s[3]);
      var v3 := G(o, v2, 2, 7, 8, 13, s[4], s[5]);
      G(o, v3, 3, 4, 9, 14, s[6], s[7]) == Undiagonalised(MixColumns(o, Diagonalised(v), s))
  {
    hide Mix;
    var w := Diagonalised(v);
    assert Column(w, 0) == Quad(v[0], v[5], v[10], v[15]);
    assert Column(w, 1) == Quad(v[1], v[6], v[11], v[12]);
    assert Column(w, 2) == Quad(v[2], v[7], v[8], v[13]);
    assert Column(w, 3) == Quad(v[3], v[4], v[9], v[14]);
  }

  /** A round over whole rows equals the round of eight single mixings. */
  lemma RoundByRows<W>(o: Arith<W>, v: seq<W>, s: seq<W>)
    requires |v| == 16 && |s| == 16
    ensures Round(o, v, s)
         == Undiagonalised(MixColumns(o, Diagonalised(MixColumns(o, v, s[..8])), s[8..]))
  {
    hide Mix;
    ColumnStep(o, v, s[..8]);
    DiagonalStep(o, MixColumns(o, v, s[..8]), s[8..]);
  }

  /** The macro G on four variables. */
  method MixWords<W>(o: Arith<W>, a0: W, b0: W, c0: W, d0: W, x: W, y: W) returns (a: W, b: W, c: W, d: W)
    ensures Quad(a, b, c, d) == Mix(o, Quad(a0, b0, c0, d0), x, y)
  {
    a, b, c, d := a0, b0, c0, d0;
    a := o.add(o.add(a, b), x);
    d := o.rot1(o.xor(d, a));
    c := o.add(c, d);
    b := o.rot2(o.xor(b, c));
    a := o.add(o.add(a, b), y);
    d := o.rot3(o.xor(d, a));
    c := o.add(c, d);
    b := o.rot4(o.xor(b, c));
  }

  /** The macro G on four elements of an array. */
  method MixInPlace<W>(o: Arith<W>, v: array<W>, a: Index, b: Index, c: Index, d: Index, x: W, y: W)
    requires v.Length == 16
    requires a != b && a != c && a != d && b != c && b != d && c != d
    modifies v
    ensures v[..] == G(o, old(v[..]), a, b, c, d, x, y)
  {
    v[a], v[b], v[c], v[d] := MixWords(o, v[a], v[b], v[c], v[d], x, y);
  }

  /** The macro ROUND on an array. */
  method RoundInPlace<W>(o: Arith<W>, v: array<W>, m: array<W>, s: seq<Index>)
    requires v.Length == 16 && m.Length == 16 && v != m && |s| == 16
    modifies v
    ensures v[..] == Round(o, old(v[..]), Scheduled(m[..], s))
  {
    hide Mix;
    MixInPlace(o, v, 0, 4, 8, 12, m[s[0]], m[s[1]]);
    MixInPlace(o, v, 1, 5, 9, 13, m[s[2]], m[s[3]]);
    MixInPlace(o, v, 2, 6, 10, 14, m[s[4]], m[s[5]]);
    MixInPlace(o, v, 3, 7, 11, 15, m[s[6]], m[s[7]]);
    MixInPlace(o, v, 0, 5, 10, 15, m[s[8]], m[s[9]]);
    MixInPlace(o, v, 1, 6, 11, 12, m[s[10]], m[s[11]]);
    MixInPlace(o, v, 2, 7, 8, 13, m[s[12]], m[s[13]]);
    MixInPlace(o, v, 3, 4, 9, 14, m[s[14]], m[s[15]]);
  }

  /** The rounds of a compression, on an array. */
  method RunInPlace<W>(o: Arith<W>, rows: Schedule, v: array<W>, m: array<W>)
    requires v.Length == 16 && m.Length == 16 && v != m
    modifies v
    ensures v[..] == AfterRounds(o, rows, old(v[..]), m[..], |rows|)
  {
    hide Round;
    ghost var v0, words := v[..], m[..];
    var r := 0;
    while r < |rows|
      invariant 0 <= r <= |rows|
      invariant m[..] == words
      invariant v[..] == AfterRounds(o, rows, v0, words, r)
    {
      RoundInPlace(o, v, m, rows[r]);
      r := r + 1;
    }
  }

  /** The loop that ends a compression: folds the working vector into the chaining value. */
  method FeedForwardInPlace<W>(o: Arith<W>, h: array<W>, v: array<W>)
    requires h.Length == 8 && v.Length == 16 && h != v
    modifies h
    ensures h[..] == FeedForward(o, old(h[..]), v[..])
  {
    var i := 0;
    while i < 8
      invariant 0 <= i <= 8
      invariant v[..] == old(v[..])
      invariant forall k :: 0 <= k < i ==> h[k] == o.xor(o.xor(old(h[k]), v[k]), v[k + 8])
      invariant forall k :: i <= k < 8 ==> h[k] == old(h[k])
    {
      h[i] := o.xor(o.xor(h[i], v[i]), v[i + 8]);
      i := i + 1;
    }
  }
}
