/**
 The vector code of BLAKE2b, as far as it only moves words about: an XMM register is a pair
 of words, a row of the working vector two registers.  What an addition or a rotation does
 to a word plays no part here, so all of it is generic in the word type.
 */
module TwoLanes {
  import opened Rounds
  import opened Blake2b

  /** An XMM register, least significant word first. */
  datatype Reg<W> = Reg(lo: W, hi: W)

  /** The operands b0 and b1 of one half-mixing, and the four pairs one round loads. */
  datatype Pair<R> = Pair(b0: R, b1: R)
  datatype Loads<W> = Loads(k1: Pair<Reg<W>>, k2: Pair<Reg<W>>, k3: Pair<Reg<W>>, k4: Pair<Reg<W>>)

  /** The message block in eight registers. */
  datatype Registers<W> = Registers(m0: Reg<W>, m1: Reg<W>, m2: Reg<W>, m3: Reg<W>,
                                    m4: Reg<W>, m5: Reg<W>, m6: Reg<W>, m7: Reg<W>)

  /** The working vector: four rows, each in a low and a high register. */
  datatype Rows<R> = Rows(r1l: R, r2l: R, r3l: R, r4l: R, r1h: R, r2h: R, r3h: R, r4h: R)

  // ---- Intrinsics that move whole words ----

  function UnpackLo<W>(x: Reg<W>, y: Reg<W>): Reg<W> { Reg(x.lo, y.lo) }
  function UnpackHi<W>(x: Reg<W>, y: Reg<W>): Reg<W> { Reg(x.hi, y.hi) }
  function SetWords<W>(e1: W, e0: W): Reg<W> { Reg(e0, e1) }

  /** _mm_alignr_epi8: y below x, shifted right by n bytes; here by one word. */
  function AlignR<W>(x: Reg<W>, y: Reg<W>, n: nat): Reg<W>
    requires n == 8
  {
    Reg(y.hi, x.lo)
  }

  /** _mm_blend_epi16: a set bit takes a 16-bit lane of y; here one nibble for each word. */
  function Blend<W>(x: Reg<W>, y: Reg<W>, mask: nat): Reg<W>
    requires mask % 16 in {0x0, 0xF} && mask / 16 in {0x0, 0xF}
  {
    Reg(if mask % 16 == 0 then x.lo else y.lo, if mask / 16 == 0 then x.hi else y.hi)
  }

  /** _mm_shuffle_epi32 with _MM_SHUFFLE(d3, d2, d1, d0), where whole words are taken. */
  function ShuffleDwords<W>(x: Reg<W>, d3: nat, d2: nat, d1: nat, d0: nat): Reg<W>
    requires d0 in {0, 2} && d1 == d0 + 1 && d2 in {0, 2} && d3 == d2 + 1
  {
    Reg(if d0 == 0 then x.lo else x.hi, if d2 == 0 then x.lo else x.hi)
  }

  // ---- The macros G1, G2, DIAGONALIZE and UNDIAGONALIZE ----

  function LowRows<R>(r: Rows<R>): Quad<R> { Quad(r.r1l, r.r2l, r.r3l, r.r4l) }
  function HighRows<R>(r: Rows<R>): Quad<R> { Quad(r.r1h, r.r2h, r.r3h, r.r4h) }

  /** Reading one lane of a register. */
  function LoOf<W>(): Reg<W> -> W { (x: Reg<W>) => x.lo }
  function HiOf<W>(): Reg<W> -> W { (x: Reg<W>) => x.hi }

  /** The working vector that the rows hold. */
  function View<W>(r: Rows<Reg<W>>): (v: seq<W>)
    ensures |v| == 16
  {
    FromColumns(Image(LoOf(), LowRows(r)), Image(HiOf(), LowRows(r)), Image(LoOf(), HighRows(r)),
                Image(HiOf(), HighRows(r)))
  }

  /** The register operations v are the word operations o on both lanes. */
  ghost predicate Lanewise<W(!new)>(v: Arith<Reg<W>>, o: Arith<W>) {
    && (forall x, y :: v.add(x, y) == Reg(o.add(x.lo, y.lo), o.add(x.hi, y.hi)))
    && (forall x, y :: v.xor(x, y) == Reg(o.xor(x.lo, y.lo), o.xor(x.hi, y.hi)))
    && (forall x :: v.rot1(x) == Reg(o.rot1(x.lo), o.rot1(x.hi)))
    && (forall x :: v.rot2(x) == Reg(o.rot2(x.lo), o.rot2(x.hi)))
    && (forall x :: v.rot3(x) == Reg(o.rot3(x.lo), o.rot3(x.hi)))
    && (forall x :: v.rot4(x) == Reg(o.rot4(x.lo), o.rot4(x.hi)))
  }

  lemma LanesProject<W(!new)>(v: Arith<Reg<W>>, o: Arith<W>)
    requires Lanewise(v, o)
    ensures Projects(LoOf(), v, o) && Projects(HiOf(), v, o)
  {}

  /** The operations on registers: _mm_add_epi64 and _mm_xor_si128, and given forms of _mm_roti_epi64. */
  function Registerwise<W>(o: Arith<W>, roti1: Reg<W> -> Reg<W>, roti2: Reg<W> -> Reg<W>,
                           roti3: Reg<W> -> Reg<W>, roti4: Reg<W> -> Reg<W>): Arith<Reg<W>> {
    Arith((x: Reg<W>, y: Reg<W>) => Reg(o.add(x.lo, y.lo), o.add(x.hi, y.hi)),
          (x: Reg<W>, y: Reg<W>) => Reg(o.xor(x.lo, y.lo), o.xor(x.hi, y.hi)),
          roti1, roti2, roti3, roti4)
  }

  lemma RegisterwiseIsLanewise<W(!new)>(o: Arith<W>, roti1: Reg<W> -> Reg<W>, roti2: Reg<W> -> Reg<W>,
                                        roti3: Reg<W> -> Reg<W>, roti4: Reg<W> -> Reg<W>)
    requires forall x :: roti1(x) == Reg(o.rot1(x.lo), o.rot1(x.hi))
    requires forall x :: roti2(x) == Reg(o.rot2(x.lo), o.rot2(x.hi))
    requires forall x :: roti3(x) == Reg(o.rot3(x.lo), o.rot3(x.hi))
    requires forall x :: roti4(x) == Reg(o.rot4(x.lo), o.rot4(x.hi))
    ensures Lanewise(Registerwise(o, roti1, roti2, roti3, roti4), o)
  {}

  lemma RegisterwiseAddsInAnyOrder<W(!new)>(o: Arith<W>, roti1: Reg<W> -> Reg<W>, roti2: Reg<W> -> Reg<W>,
                                            roti3: Reg<W> -> Reg<W>, roti4: Reg<W> -> Reg<W>)
    requires AddsInAnyOrder(o)
    ensures AddsInAnyOrder(Registerwise(o, roti1, roti2, roti3, roti4))
  {
    var v := Registerwise(o, roti1, roti2, roti3, roti4);
    forall a, b, c
      ensures v.add(v.add(a, b), c) == v.add(v.add(a, c), b)
    {
      assert o.add(o.add(a.lo, b.lo), c.lo) == o.add(o.add(a.lo, c.lo), b.lo);
      assert o.add(o.add(a.hi, b.hi), c.hi) == o.add(o.add(a.hi, c.hi), b.hi);
    }
  }

  method G1<R(!new)>(v: Arith<R>, r: Rows<R>, b: Pair<R>) returns (r': Rows<R>)
    requires AddsInAnyOrder(v)
    ensures LowRows(r') == HalfMix(v, v.rot1, v.rot2, LowRows(r), b.b0)
    ensures HighRows(r') == HalfMix(v, v.rot1, v.rot2, HighRows(r), b.b1)
  {
    var row1l, row2l, row3l, row4l := r.r1l, r.r2l, r.r3l, r.r4l;
    var row1h, row2h, row3h, row4h := r.r1h, r.r2h, r.r3h, r.r4h;
    row1l := v.add(v.add(row1l, b.b0), row2l);
    row1h := v.add(v.add(row1h, b.b1), row2h);
    row4l := v.xor(row4l, row1l);
    row4h := v.xor(row4h, row1h);
    row4l := v.rot1(row4l);
    row4h := v.rot1(row4h);
    row3l := v.add(row3l, row4l);
    row3h := v.add(row3h, row4h);
    row2l := v.xor(row2l, row3l);
    row2h := v.xor(row2h, row3h);
    row2l := v.rot2(row2l);
    row2h := v.rot2(row2h);
    r' := Rows(row1l, row2l, row3l, row4l, row1h, row2h, row3h, row4h);
  }

  method G2<R(!new)>(v: Arith<R>, r: Rows<R>, b: Pair<R>) returns (r': Rows<R>)
    requires AddsInAnyOrder(v)
    ensures LowRows(r') == HalfMix(v, v.rot3, v.rot4, LowRows(r), b.b0)
    ensures HighRows(r') == HalfMix(v, v.rot3, v.rot4, HighRows(r), b.b1)
  {
    var row1l, row2l, row3l, row4l := r.r1l, r.r2l, r.r3l, r.r4l;
    var row1h, row2h, row3h, row4h := r.r1h, r.r2h, r.r3h, r.r4h;
    row1l := v.add(v.add(row1l, b.b0), row2l);
    row1h := v.add(v.add(row1h, b.b1), row2h);
    row4l := v.xor(row4l, row1l);
    row4h := v.xor(row4h, row1h);
    row4l := v.rot3(row4l);
    row4h := v.rot3(row4h);
    row3l := v.add(row3l, row4l);
    row3h := v.add(row3h, row4h);
    row2l := v.xor(row2l, row3l);
    row2h := v.xor(row2h, row3h);
    row2l := v.rot4(row2l);
    row2h := v.rot4(row2h);
    r' := Rows(row1l, row2l, row3l, row4l, row1h, row2h, row3h, row4h);
  }

  /** DIAGONALIZE, in the form for SSSE3 or the form for SSE2. */
  method Diagonalize<W>(ssse3: bool, r: Rows<Reg<W>>) returns (r': Rows<Reg<W>>)
    ensures View(r') == Diagonalised(View(r))
  {
    var row2l, row3l, row4l := r.r2l, r.r3l, r.r4l;
    var row2h, row3h, row4h := r.r2h, r.r3h, r.r4h;
    if ssse3 {
      var t0 := AlignR(row2h, row2l, 8);
      var t1 := AlignR(row2l, row2h, 8);
      row2l := t0;
      row2h := t1;
      t0 := row3l;
      row3l := row3h;
      row3h := t0;
      t0 := AlignR(row4h, row4l, 8);
      t1 := AlignR(row4l, row4h, 8);
      row4l := t1;
      row4h := t0;
    } else {
      var t0 := row4l;
      var t1 := row2l;
      row4l := row3l;
      row3l := row3h;
      row3h := row4l;
      row4l := UnpackHi(row4h, UnpackLo(t0, t0));
      row4h := UnpackHi(t0, UnpackLo(row4h, row4h));
      row2l := UnpackHi(row2l, UnpackLo(row2h, row2h));
      row2h := UnpackHi(row2h, UnpackLo(t1, t1));
    }
    r' := Rows(r.r1l, row2l, row3l, row4l, r.r1h, row2h, row3h, row4h);
  }

  /** UNDIAGONALIZE, in both forms. */
  method Undiagonalize<W>(ssse3: bool, r: Rows<Reg<W>>) returns (r': Rows<Reg<W>>)
    ensures View(r') == Undiagonalised(View(r))
  {
    var row2l, row3l, row4l := r.r2l, r.r3l, r.r4l;
    var row2h, row3h, row4h := r.r2h, r.r3h, r.r4h;
    if ssse3 {
      var t0 := AlignR(row2l, row2h, 8);
      var t1 := AlignR(row2h, row2l, 8);
      row2l := t0;
      row2h := t1;
      t0 := row3l;
      row3l := row3h;
      row3h := t0;
      t0 := AlignR(row4l, row4h, 8);
      t1 := AlignR(row4h, row4l, 8);
      row4l := t1;
      row4h := t0;
    } else {
      var t0 := row3l;
      row3l := row3h;
      row3h := t0;
      t0 := row2l;
      var t1 := row4l;
      row2l := UnpackHi(row2h, UnpackLo(row2l, row2l));
      row2h := UnpackHi(t0, UnpackLo(row2h, row2h));
      row4l := UnpackHi(row4l, UnpackLo(row4h, row4h));
      row4h := UnpackHi(row4h, UnpackLo(t1, t1));
    }
    r' := Rows(r.r1l, row2l, row3l, row4l, r.r1h, row2h, row3h, row4h);
  }

  /** G1 and then G2 mix all four columns. */
  method MixRows<W(!new)>(v: Arith<Reg<W>>, ghost o: Arith<W>, r: Rows<Reg<W>>, x: Pair<Reg<W>>, y: Pair<Reg<W>>)
        returns (r': Rows<Reg<W>>)
    requires Lanewise(v, o) && AddsInAnyOrder(v)
    ensures View(r') == MixColumns(o, View(r), Interleaved(x, y))
  {
    hide HalfMix, Projects, Lanewise;
    LanesProject(v, o);
    r' := G1(v, r, x);
    r' := G2(v, r', y);
    MixProjects(LoOf(), v, o, LowRows(r), x.b0, y.b0);
    MixProjects(HiOf(), v, o, LowRows(r), x.b0, y.b0);
    MixProjects(LoOf(), v, o, HighRows(r), x.b1, y.b1);
    MixProjects(HiOf(), v, o, HighRows(r), x.b1, y.b1);
  }

  /** The macro ROUND: a round of the scalar code, on rows. */
  method RoundOnRows<W(!new)>(v: Arith<Reg<W>>, ghost o: Arith<W>, ssse3: bool, r: Rows<Reg<W>>, ls: Loads<W>)
      returns (r': Rows<Reg<W>>)
    requires Lanewise(v, o) && AddsInAnyOrder(v)
    ensures View(r') == Round(o, View(r), Consumed(ls))
  {
    hide Mix, Lanewise, Round, View, MixColumns, Diagonalised, Undiagonalised;
    r' := MixRows(v, o, r, ls.k1, ls.k2);
    r' := Diagonalize(ssse3, r');
    r' := MixRows(v, o, r', ls.k3, ls.k4);
    r' := Undiagonalize(ssse3, r');
    assert Consumed(ls)[..8] == Interleaved(ls.k1, ls.k2);
    assert Consumed(ls)[8..] == Interleaved(ls.k3, ls.k4);
    RoundByRows(o, View(r), Consumed(ls));
  }

  /** The stores that end the compression, of a chaining value held in four registers. */
  method StoreRows<W(!new)>(v: Arith<Reg<W>>, ghost o: Arith<W>, h: array<W>, rows: Rows<Reg<W>>)
    requires h.Length == 8
    requires Lanewise(v, o) && XorsInAnyOrder(o)
    modifies h
    ensures h[..] == FeedForward(o, old(h[..]), View(rows))
  {
    hide Lanewise, XorsInAnyOrder;
    ghost var h0, w := h[..], View(rows);
    StorePair(v, o, h, 0, rows.r1l, rows.r3l);
    StorePair(v, o, h, 2, rows.r1h, rows.r3h);
    assert forall i :: 0 <= i < 4 ==> h[i] == o.xor(o.xor(h0[i], w[i]), w[i + 8]);
    StorePair(v, o, h, 4, rows.r2l, rows.r4l);
    StorePair(v, o, h, 6, rows.r2h, rows.r4h);
  }

  lemma XorBoth<W(!new)>(v: Arith<Reg<W>>, o: Arith<W>, h: Reg<W>, x: Reg<W>, y: Reg<W>)
    requires Lanewise(v, o) && XorsInAnyOrder(o)
    ensures v.xor(h, v.xor(y, x)) == Reg(o.xor(o.xor(h.lo, x.lo), y.lo), o.xor(o.xor(h.hi, x.hi), y.hi))
  {
    hide XorsInAnyOrder;
    XorOrder(o, h.lo, x.lo, y.lo);
    XorOrder(o, h.hi, x.hi, y.hi);
  }

  /** Two words of the chaining value, xored with the two halves of the working vector together. */
  method StorePair<W(!new)>(v: Arith<Reg<W>>, ghost o: Arith<W>, h: array<W>, i: nat, x: Reg<W>, y: Reg<W>)
    requires i + 1 < h.Length
    requires Lanewise(v, o) && XorsInAnyOrder(o)
    modifies h
    ensures h[i] == o.xor(o.xor(old(h[i]), x.lo), y.lo)
    ensures h[i + 1] == o.xor(o.xor(old(h[i + 1]), x.hi), y.hi)
    ensures forall k :: 0 <= k < h.Length && k != i && k != i + 1 ==> h[k] == old(h[k])
  {
    hide Lanewise, XorsInAnyOrder;
    XorBoth(v, o, Reg(h[i], h[i + 1]), x, y);
    var row := v.xor(y, x);
    var stored := v.xor(Reg(h[i], h[i + 1]), row);
    h[i], h[i + 1] := stored.lo, stored.hi;
  }

  // ---- Message loads ----

  /** The macros LOAD_MSG_r_1 to LOAD_MSG_r_4 of blake2b-load-sse41.h. */
  function LoadsSse41<W>(r: nat, m: Registers<W>): Loads<W>
    requires r < ROUNDS
  {
    if r == 0 then
      Loads(Pair(UnpackLo(m.m0, m.m1), UnpackLo(m.m2, m.m3)),
            Pair(UnpackHi(m.m0, m.m1), UnpackHi(m.m2, m.m3)),
            Pair(UnpackLo(m.m4, m.m5), UnpackLo(m.m6, m.m7)),
            Pair(UnpackHi(m.m4, m.m5), UnpackHi(m.m6, m.m7)))
    else if r == 1 then
      Loads(Pair(UnpackLo(m.m7, m.m2), UnpackHi(m.m4, m.m6)),
            Pair(UnpackLo(m.m5, m.m4), AlignR(m.m3, m.m7, 8)),
            Pair(ShuffleDwords(m.m0, 1, 0, 3, 2), UnpackHi(m.m5, m.m2)),
            Pair(UnpackLo(m.m6, m.m1), UnpackHi(m.m3, m.m1)))
    else if r == 2 then
      Loads(Pair(AlignR(m.m6, m.m5, 8), UnpackHi(m.m2, m.m7)),
            Pair(UnpackLo(m.m4, m.m0), Blend(m.m1, m.m6, 0xF0)),
            Pair(Blend(m.m5, m.m1, 0xF0), UnpackHi(m.m3, m.m4)),
            Pair(UnpackLo(m.m7, m.m3), AlignR(m.m2, m.m0, 8)))
    else if r == 3 then
      Loads(Pair(UnpackHi(m.m3, m.m1), UnpackHi(m.m6, m.m5)),
            Pair(UnpackHi(m.m4, m.m0), UnpackLo(m.m6, m.m7)),
            Pair(Blend(m.m1, m.m2, 0xF0), Blend(m.m2, m.m7, 0xF0)),
            Pair(UnpackLo(m.m3, m.m5), UnpackLo(m.m0, m.m4)))
    else if r == 4 then
      Loads(Pair(UnpackHi(m.m4, m.m2), UnpackLo(m.m1, m.m5)),
            Pair(Blend(m.m0, m.m3, 0xF0), Blend(m.m2, m.m7, 0xF0)),
            Pair(Blend(m.m7, m.m5, 0xF0), Blend(m.m3, m.m1, 0xF0)),
            Pair(AlignR(m.m6, m.m0, 8), Blend(m.m4, m.m6, 0xF0)))
    else if r == 5 then
      Loads(Pair(UnpackLo(m.m1, m.m3), UnpackLo(m.m0, m.m4)),
            Pair(UnpackLo(m.m6, m.m5), UnpackHi(m.m5, m.m1)),
            Pair(Blend(m.m2, m.m3, 0xF0), UnpackHi(m.m7, m.m0)),
            Pair(UnpackHi(m.m6, m.m2), Blend(m.m7, m.m4, 0xF0)))
    else if r == 6 then
      Loads(Pair(Blend(m.m6, m.m0, 0xF0), UnpackLo(m.m7, m.m2)),
            Pair(UnpackHi(m.m2, m.m7), AlignR(m.m5, m.m6, 8)),
            Pair(UnpackLo(m.m0, m.m3), ShuffleDwords(m.m4, 1, 0, 3, 2)),
            Pair(UnpackHi(m.m3, m.m1), Blend(m.m1, m.m5, 0xF0)))
    else if r == 7 then
      Loads(Pair(UnpackHi(m.m6, m.m3), Blend(m.m6, m.m1, 0xF0)),
            Pair(AlignR(m.m7, m.m5, 8), UnpackHi(m.m0, m.m4)),
            Pair(UnpackHi(m.m2, m.m7), UnpackLo(m.m4, m.m1)),
            Pair(UnpackLo(m.m0, m.m2), UnpackLo(m.m3, m.m5)))
    else if r == 8 then
      Loads(Pair(UnpackLo(m.m3, m.m7), AlignR(m.m0, m.m5, 8)),
            Pair(UnpackHi(m.m7, m.m4), AlignR(m.m4, m.m1, 8)),
            Pair(m.m6, AlignR(m.m5, m.m0, 8)),
            Pair(Blend(m.m1, m.m3, 0xF0), m.m2))
    else if r == 9 then
      Loads(Pair(UnpackLo(m.m5, m.m4), UnpackHi(m.m3, m.m0)),
            Pair(UnpackLo(m.m1, m.m2), Blend(m.m3, m.m2, 0xF0)),
            Pair(UnpackHi(m.m7, m.m4), UnpackHi(m.m1, m.m6)),
            Pair(AlignR(m.m7, m.m5, 8), UnpackLo(m.m6, m.m0)))
    else if r == 10 then
      Loads(Pair(UnpackLo(m.m0, m.m1), UnpackLo(m.m2, m.m3)),
            Pair(UnpackHi(m.m0, m.m1), UnpackHi(m.m2, m.m3)),
            Pair(UnpackLo(m.m4, m.m5), UnpackLo(m.m6, m.m7)),
            Pair(UnpackHi(m.m4, m.m5), UnpackHi(m.m6, m.m7)))
    else
      Loads(Pair(UnpackLo(m.m7, m.m2), UnpackHi(m.m4, m.m6)),
            Pair(UnpackLo(m.m5, m.m4), AlignR(m.m3, m.m7, 8)),
            Pair(ShuffleDwords(m.m0, 1, 0, 3, 2), UnpackHi(m.m5, m.m2)),
            Pair(UnpackLo(m.m6, m.m1), UnpackHi(m.m3, m.m1)))
  }

  /** The macros LOAD_MSG_r_1 to LOAD_MSG_r_4 of blake2b-load-sse2.h. */
  function LoadsSse2<W>(r: nat, w: seq<W>): Loads<W>
    requires r < ROUNDS && |w| == 16
  {
    if r == 0 then
      Loads(Pair(SetWords(w[2], w[0]), SetWords(w[6], w[4])),
            Pair(SetWords(w[3], w[1]), SetWords(w[7], w[5])),
            Pair(SetWords(w[10], w[8]), SetWords(w[14], w[12])),
            Pair(SetWords(w[11], w[9]), SetWords(w[15], w[13])))
    else if r == 1 then
      Loads(Pair(SetWords(w[4], w[14]), SetWords(w[13], w[9])),
            Pair(SetWords(w[8], w[10]), SetWords(w[6], w[15])),
            Pair(SetWords(w[0], w[1]), SetWords(w[5], w[11])),
            Pair(SetWords(w[2], w[12]), SetWords(w[3], w[7])))
    else if r == 2 then
      Loads(Pair(SetWords(w[12], w[11]), SetWords(w[15], w[5])),
            Pair(SetWords(w[0], w[8]), SetWords(w[13], w[2])),
            Pair(SetWords(w[3], w[10]), SetWords(w[9], w[7])),
            Pair(SetWords(w[6], w[14]), SetWords(w[4], w[1])))
    else if r == 3 then
      Loads(Pair(SetWords(w[3], w[7]), SetWords(w[11], w[13])),
            Pair(SetWords(w[1], w[9]), SetWords(w[14], w[12])),
            Pair(SetWords(w[5], w[2]), SetWords(w[15], w[4])),
            Pair(SetWords(w[10], w[6]), SetWords(w[8], w[0])))
    else if r == 4 then
      Loads(Pair(SetWords(w[5], w[9]), SetWords(w[10], w[2])),
            Pair(SetWords(w[7], w[0]), SetWords(w[15], w[4])),
            Pair(SetWords(w[11], w[14]), SetWords(w[3], w[6])),
            Pair(SetWords(w[12], w[1]), SetWords(w[13], w[8])))
    else if r == 5 then
      Loads(Pair(SetWords(w[6], w[2]), SetWords(w[8], w[0])),
            Pair(SetWords(w[10], w[12]), SetWords(w[3], w[11])),
            Pair(SetWords(w[7], w[4]), SetWords(w[1], w[15])),
            Pair(SetWords(w[5], w[13]), SetWords(w[9], w[14])))
    else if r == 6 then
      Loads(Pair(SetWords(w[1], w[12]), SetWords(w[4], w[14])),
            Pair(SetWords(w[15], w[5]), SetWords(w[10], w[13])),
            Pair(SetWords(w[6], w[0]), SetWords(w[8], w[9])),
            Pair(SetWords(w[3], w[7]), SetWords(w[11], w[2])))
    else if r == 7 then
      Loads(Pair(SetWords(w[7], w[13]), SetWords(w[3], w[12])),
            Pair(SetWords(w[14], w[11]), SetWords(w[9], w[1])),
            Pair(SetWords(w[15], w[5]), SetWords(w[2], w[8])),
            Pair(SetWords(w[4], w[0]), SetWords(w[10], w[6])))
    else if r == 8 then
      Loads(Pair(SetWords(w[14], w[6]), SetWords(w[0], w[11])),
            Pair(SetWords(w[9], w[15]), SetWords(w[8], w[3])),
            Pair(SetWords(w[13], w[12]), SetWords(w[10], w[1])),
            Pair(SetWords(w[7], w[2]), SetWords(w[5], w[4])))
    else if r == 9 then
      Loads(Pair(SetWords(w[8], w[10]), SetWords(w[1], w[7])),
            Pair(SetWords(w[4], w[2]), SetWords(w[5], w[6])),
            Pair(SetWords(w[9], w[15]), SetWords(w[13], w[3])),
            Pair(SetWords(w[14], w[11]), SetWords(w[0], w[12])))
    else if r == 10 then
      Loads(Pair(SetWords(w[2], w[0]), SetWords(w[6], w[4])),
            Pair(SetWords(w[3], w[1]), SetWords(w[7], w[5])),
            Pair(SetWords(w[10], w[8]), SetWords(w[14], w[12])),
            Pair(SetWords(w[11], w[9]), SetWords(w[15], w[13])))
    else
      Loads(Pair(SetWords(w[4], w[14]), SetWords(w[13], w[9])),
            Pair(SetWords(w[8], w[10]), SetWords(w[6], w[15])),
            Pair(SetWords(w[0], w[1]), SetWords(w[5], w[11])),
            Pair(SetWords(w[2], w[12]), SetWords(w[3], w[7])))
  }

  /** The registers that hold sixteen words: eight loads of two words each. */
  function InRegisters<W>(w: seq<W>): Registers<W>
    requires |w| == 16
  {
    Registers(Reg(w[0], w[1]), Reg(w[2], w[3]), Reg(w[4], w[5]), Reg(w[6], w[7]),
              Reg(w[8], w[9]), Reg(w[10], w[11]), Reg(w[12], w[13]), Reg(w[14], w[15]))
  }

  /** The message words a round consumes, in the order in which the scalar code consumes them. */
  function Consumed<W>(ls: Loads<W>): (s: seq<W>)
    ensures |s| == 16
  {
    Interleaved(ls.k1, ls.k2) + Interleaved(ls.k3, ls.k4)
  }

  /** The words of two half-mixings, column by column. */
  function Interleaved<W>(x: Pair<Reg<W>>, y: Pair<Reg<W>>): (s: seq<W>)
    ensures |s| == 8
  {
    [x.b0.lo, y.b0.lo, x.b0.hi, y.b0.hi, x.b1.lo, y.b1.lo, x.b1.hi, y.b1.hi]
  }

  /** The loads a row of sigma asks for. */
  function LoadsBySigma<W>(w: seq<W>, s: seq<Index>): Loads<W>
    requires |w| == 16 && |s| == 16
  {
    Loads(Pair(Reg(w[s[0]], w[s[2]]), Reg(w[s[4]], w[s[6]])),
          Pair(Reg(w[s[1]], w[s[3]]), Reg(w[s[5]], w[s[7]])),
          Pair(Reg(w[s[8]], w[s[10]]), Reg(w[s[12]], w[s[14]])),
          Pair(Reg(w[s[9]], w[s[11]]), Reg(w[s[13]], w[s[15]])))
  }

  lemma LoadsBySigmaConsumed<W>(w: seq<W>, s: seq<Index>)
    requires |w| == 16 && |s| == 16
    ensures Consumed(LoadsBySigma(w, s)) == Scheduled(w, s)
  {}

  /** The direct loads follow sigma in every round. */
  lemma LoadsSse2FollowSigma<W>(r: nat, w: seq<W>)
    requires r < ROUNDS && |w| == 16
    ensures LoadsSse2(r, w) == LoadsBySigma(w, Sigma(r))
  {
    hide LoadsSse2, LoadsBySigma, Sigma;
    if r < 4 {
      FirstRounds(r, w);
    } else if r < 8 {
      MiddleRounds(r, w);
    } else {
      LastRounds(r, w);
    }
  }

  lemma FirstRounds<W>(r: nat, w: seq<W>)
    requires r < 4 && |w| == 16
    ensures LoadsSse2(r, w) == LoadsBySigma(w, Sigma(r))
  {}

  lemma MiddleRounds<W>(r: nat, w: seq<W>)
    requires 4 <= r < 8 && |w| == 16
    ensures LoadsSse2(r, w) == LoadsBySigma(w, Sigma(r))
  {}

  lemma LastRounds<W>(r: nat, w: seq<W>)
    requires 8 <= r < ROUNDS && |w| == 16
    ensures LoadsSse2(r, w) == LoadsBySigma(w, Sigma(r))
  {}

  /** So do the shuffled ones. */
  lemma LoadsSse41FollowSigma<W>(r: nat, w: seq<W>)
    requires r < ROUNDS && |w| == 16
    ensures LoadsSse41(r, InRegisters(w)) == LoadsBySigma(w, Sigma(r))
  {
    assert LoadsSse41(r, InRegisters(w)) == LoadsSse2(r, w) by { hide LoadsBySigma, Sigma; }
    LoadsSse2FollowSigma(r, w);
  }
}
