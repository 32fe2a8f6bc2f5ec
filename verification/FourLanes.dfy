/**
 The vector code of BLAKE2s, as far as it only moves words about: an XMM register is four
 words and holds one row of the working vector.  Generic in the word type, as TwoLanes is.
 */
module FourLanes {
  import opened Rounds
  import opened Blake2s

  /** An XMM register, least significant word first. */
  datatype Reg<W> = Reg(w0: W, w1: W, w2: W, w3: W)

  /** The operands buf1 to buf4 that one round loads. */
  datatype Loads<W> = Loads(k1: Reg<W>, k2: Reg<W>, k3: Reg<W>, k4: Reg<W>)

  /** The message block in four registers. */
  datatype Registers<W> = Registers(m0: Reg<W>, m1: Reg<W>, m2: Reg<W>, m3: Reg<W>)

  // ---- Intrinsics that move whole words ----

  function Word<W>(x: Reg<W>, i: nat): W
    requires i < 4
  {
    if i == 0 then x.w0 else if i == 1 then x.w1 else if i == 2 then x.w2 else x.w3
  }

  /** _mm_set_epi32. */
  function SetWords<W>(e3: W, e2: W, e1: W, e0: W): Reg<W> { Reg(e0, e1, e2, e3) }

  function UnpackLo32<W>(x: Reg<W>, y: Reg<W>): Reg<W> { Reg(x.w0, y.w0, x.w1, y.w1) }
  function UnpackHi32<W>(x: Reg<W>, y: Reg<W>): Reg<W> { Reg(x.w2, y.w2, x.w3, y.w3) }
  function UnpackLo64<W>(x: Reg<W>, y: Reg<W>): Reg<W> { Reg(x.w0, x.w1, y.w0, y.w1) }
  function UnpackHi64<W>(x: Reg<W>, y: Reg<W>): Reg<W> { Reg(x.w2, x.w3, y.w2, y.w3) }

  /** _mm_shuffle_epi32 with _MM_SHUFFLE(d3, d2, d1, d0). */
  function Shuffle<W>(x: Reg<W>, d3: nat, d2: nat, d1: nat, d0: nat): Reg<W>
    requires d0 < 4 && d1 < 4 && d2 < 4 && d3 < 4
  {
    Reg(Word(x, d0), Word(x, d1), Word(x, d2), Word(x, d3))
  }

  /** _mm_shuffle_ps: the two low words from x, the two high ones from y. */
  function ShufflePs<W>(x: Reg<W>, y: Reg<W>, d3: nat, d2: nat, d1: nat, d0: nat): Reg<W>
    requires d0 < 4 && d1 < 4 && d2 < 4 && d3 < 4
  {
    Reg(Word(x, d0), Word(x, d1), Word(y, d2), Word(y, d3))
  }

  /** _mm_shufflehi_epi16 with _MM_SHUFFLE(1, 0, 3, 2): the two high words exchanged. */
  function ShuffleHigh<W>(x: Reg<W>): Reg<W> { Reg(x.w0, x.w1, x.w3, x.w2) }

  /** _mm_blend_epi16: a set bit takes a 16-bit lane of y; here two bits for each word. */
  function Blend<W>(x: Reg<W>, y: Reg<W>, mask: nat): Reg<W>
    requires mask < 256 && mask % 4 in {0, 3} && mask / 4 % 4 in {0, 3} && mask / 16 % 4 in {0, 3} &&
             mask / 64 in {0, 3}
  {
    Reg(if mask % 4 == 0 then x.w0 else y.w0, if mask / 4 % 4 == 0 then x.w1 else y.w1,
        if mask / 16 % 4 == 0 then x.w2 else y.w2, if mask / 64 == 0 then x.w3 else y.w3)
  }

  /** _mm_slli_si128: up by n bytes, zeros below; here by whole words. */
  function ShiftUp<W>(zero: W, x: Reg<W>, n: nat): Reg<W>
    requires n in {4, 8, 12}
  {
    if n == 4 then Reg(zero, x.w0, x.w1, x.w2)
    else if n == 8 then Reg(zero, zero, x.w0, x.w1)
    else Reg(zero, zero, zero, x.w0)
  }

  /** _mm_srli_si128: down by n bytes, zeros above; here by whole words. */
  function ShiftDown<W>(zero: W, x: Reg<W>, n: nat): Reg<W>
    requires n in {4, 8, 12}
  {
    if n == 4 then Reg(x.w1, x.w2, x.w3, zero)
    else if n == 8 then Reg(x.w2, x.w3, zero, zero)
    else Reg(x.w3, zero, zero, zero)
  }

  // ---- The macros G1, G2, DIAGONALIZE and UNDIAGONALIZE ----

  function Lane0<W>(): Reg<W> -> W { (x: Reg<W>) => x.w0 }
  function Lane1<W>(): Reg<W> -> W { (x: Reg<W>) => x.w1 }
  function Lane2<W>(): Reg<W> -> W { (x: Reg<W>) => x.w2 }
  function Lane3<W>(): Reg<W> -> W { (x: Reg<W>) => x.w3 }

  /** The working vector that four rows hold. */
  function View<W>(r: Quad<Reg<W>>): (v: seq<W>)
    ensures |v| == 16
  {
    FromColumns(Image(Lane0(), r), Image(Lane1(), r), Image(Lane2(), r), Image(Lane3(), r))
  }

  /** f is the word operation g on every lane. */
  ghost predicate OnLanes<W(!new)>(f: Reg<W> -> Reg<W>, g: W -> W) {
    forall x :: f(x) == Reg(g(x.w0), g(x.w1), g(x.w2), g(x.w3))
  }

  ghost predicate OnLanePairs<W(!new)>(f: (Reg<W>, Reg<W>) -> Reg<W>, g: (W, W) -> W) {
    forall x, y :: f(x, y) == Reg(g(x.w0, y.w0), g(x.w1, y.w1), g(x.w2, y.w2), g(x.w3, y.w3))
  }

  /** The register operations v are the word operations o on every lane. */
  ghost predicate Lanewise<W(!new)>(v: Arith<Reg<W>>, o: Arith<W>) {
    && OnLanePairs(v.add, o.add) && OnLanePairs(v.xor, o.xor)
    && OnLanes(v.rot1, o.rot1) && OnLanes(v.rot2, o.rot2) && OnLanes(v.rot3, o.rot3) && OnLanes(v.rot4, o.rot4)
  }

  lemma LanesProject<W(!new)>(v: Arith<Reg<W>>, o: Arith<W>)
    requires Lanewise(v, o)
    ensures Projects(Lane0(), v, o) && Projects(Lane1(), v, o)
    ensures Projects(Lane2(), v, o) && Projects(Lane3(), v, o)
  {}

  /** The operations on registers: _mm_add_epi32 and _mm_xor_si128, and given forms of _mm_roti_epi32. */
  function Registerwise<W>(o: Arith<W>, roti1: Reg<W> -> Reg<W>, roti2: Reg<W> -> Reg<W>,
                           roti3: Reg<W> -> Reg<W>, roti4: Reg<W> -> Reg<W>): Arith<Reg<W>> {
    Arith((x: Reg<W>, y: Reg<W>) => Reg(o.add(x.w0, y.w0), o.add(x.w1, y.w1), o.add(x.w2, y.w2), o.add(x.w3, y.w3)),
          (x: Reg<W>, y: Reg<W>) => Reg(o.xor(x.w0, y.w0), o.xor(x.w1, y.w1), o.xor(x.w2, y.w2), o.xor(x.w3, y.w3)),
          roti1, roti2, roti3, roti4)
  }

  lemma RegisterwiseIsLanewise<W(!new)>(o: Arith<W>, roti1: Reg<W> -> Reg<W>, roti2: Reg<W> -> Reg<W>,
                                        roti3: Reg<W> -> Reg<W>, roti4: Reg<W> -> Reg<W>)
    requires OnLanes(roti1, o.rot1) && OnLanes(roti2, o.rot2) && OnLanes(roti3, o.rot3) && OnLanes(roti4, o.rot4)
    ensures Lanewise(Registerwise(o, roti1, roti2, roti3, roti4), o)
  {}

  lemma RegisterwiseAddsInAnyOrder<W(!new)>(o: Arith<W>, roti1: Reg<W> -> Reg<W>, roti2: Reg<W> -> Reg<W>,
                                            roti3: Reg<W> -> Reg<W>, roti4: Reg<W> -> Reg<W>)
    requires AddsInAnyOrder(o)
    ensures AddsInAnyOrder(Registerwise(o, roti1, roti2, roti3, roti4))
  {
    var v := Registerwise(o, roti1, roti2, roti3, roti4);
    forall a, b, c
      ensures v.add(v.add(a, b), c) == v.add(v.add(a, c), b)
    {
      assert o.add(o.add(a.w0, b.w0), c.w0) == o.add(o.add(a.w0, c.w0), b.w0);
      assert o.add(o.add(a.w1, b.w1), c.w1) == o.add(o.add(a.w1, c.w1), b.w1);
      assert o.add(o.add(a.w2, b.w2), c.w2) == o.add(o.add(a.w2, c.w2), b.w2);
      assert o.add(o.add(a.w3, b.w3), c.w3) == o.add(o.add(a.w3, c.w3), b.w3);
    }
  }

  method G1<R(!new)>(v: Arith<R>, r: Quad<R>, buf: R) returns (r': Quad<R>)
    requires AddsInAnyOrder(v)
    ensures r' == HalfMix(v, v.rot1, v.rot2, r, buf)
  {
    var row1, row2, row3, row4 := r.a, r.b, r.c, r.d;
    row1 := v.add(v.add(row1, buf), row2);
    row4 := v.xor(row4, row1);
    row4 := v.rot1(row4);
    row3 := v.add(row3, row4);
    row2 := v.xor(row2, row3);
    row2 := v.rot2(row2);
    r' := Quad(row1, row2, row3, row4);
  }

  method G2<R(!new)>(v: Arith<R>, r: Quad<R>, buf: R) returns (r': Quad<R>)
    requires AddsInAnyOrder(v)
    ensures r' == HalfMix(v, v.rot3, v.rot4, r, buf)
  {
    var row1, row2, row3, row4 := r.a, r.b, r.c, r.d;
    row1 := v.add(v.add(row1, buf), row2);
    row4 := v.xor(row4, row1);
    row4 := v.rot3(row4);
    row3 := v.add(row3, row4);
    row2 := v.xor(row2, row3);
    row2 := v.rot4(row2);
    r' := Quad(row1, row2, row3, row4);
  }

  /** DIAGONALIZE. */
  function Diagonalize<W>(r: Quad<Reg<W>>): (r': Quad<Reg<W>>)
    ensures View(r') == Diagonalised(View(r))
  {
    Quad(r.a, Shuffle(r.b, 0, 3, 2, 1), Shuffle(r.c, 1, 0, 3, 2), Shuffle(r.d, 2, 1, 0, 3))
  }

  /** UNDIAGONALIZE. */
  function Undiagonalize<W>(r: Quad<Reg<W>>): (r': Quad<Reg<W>>)
    ensures View(r') == Undiagonalised(View(r))
  {
    Quad(r.a, Shuffle(r.b, 2, 1, 0, 3), Shuffle(r.c, 1, 0, 3, 2), Shuffle(r.d, 0, 3, 2, 1))
  }

  /** The words of two half-mixings, column by column. */
  function Interleaved<W>(x: Reg<W>, y: Reg<W>): (s: seq<W>)
    ensures |s| == 8
  {
    [x.w0, y.w0, x.w1, y.w1, x.w2, y.w2, x.w3, y.w3]
  }

  /** The message words a round consumes, in the order in which the scalar code consumes them. */
  function Consumed<W>(ls: Loads<W>): (s: seq<W>)
    ensures |s| == 16
  {
    Interleaved(ls.k1, ls.k2) + Interleaved(ls.k3, ls.k4)
  }

  /** G1 and then G2 mix all four columns. */
  method MixRows<W(!new)>(v: Arith<Reg<W>>, ghost o: Arith<W>, r: Quad<Reg<W>>, x: Reg<W>, y: Reg<W>)
      returns (r': Quad<Reg<W>>)
    requires Lanewise(v, o) && AddsInAnyOrder(v)
    ensures View(r') == MixColumns(o, View(r), Interleaved(x, y))
  {
    hide HalfMix, Projects, Lanewise;
    LanesProject(v, o);
    r' := G1(v, r, x);
    r' := G2(v, r', y);
    MixProjects(Lane0(), v, o, r, x, y);
    MixProjects(Lane1(), v, o, r, x, y);
    MixProjects(Lane2(), v, o, r, x, y);
    MixProjects(Lane3(), v, o, r, x, y);
  }

  /** The macro ROUND: a round of the scalar code, on rows. */
  method RoundOnRows<W(!new)>(v: Arith<Reg<W>>, ghost o: Arith<W>, r: Quad<Reg<W>>, ls: Loads<W>)
      returns (r': Quad<Reg<W>>)
    requires Lanewise(v, o) && AddsInAnyOrder(v)
    ensures View(r') == Round(o, View(r), Consumed(ls))
  {
    hide Mix, Lanewise, Round, View, MixColumns, Diagonalised, Undiagonalised, Diagonalize, Undiagonalize;
    r' := MixRows(v, o, r, ls.k1, ls.k2);
    r' := Diagonalize(r');
    r' := MixRows(v, o, r', ls.k3, ls.k4);
    r' := Undiagonalize(r');
    assert Consumed(ls)[..8] == Interleaved(ls.k1, ls.k2);
    assert Consumed(ls)[8..] == Interleaved(ls.k3, ls.k4);
    RoundByRows(o, View(r), Consumed(ls));
  }

  /** The stores that end the compression. */
  method StoreRows<W(!new)>(v: Arith<Reg<W>>, ghost o: Arith<W>, h: array<W>, r: Quad<Reg<W>>)
    requires h.Length == 8
    requires Lanewise(v, o) && XorsInAnyOrder(o)
    modifies h
    ensures h[..] == FeedForward(o, old(h[..]), View(r))
  {
    hide Lanewise, XorsInAnyOrder;
    var ff0, ff1 := Reg(h[0], h[1], h[2], h[3]), Reg(h[4], h[5], h[6], h[7]);
    XorAll(v, o, ff0, r.a, r.c);
    XorAll(v, o, ff1, r.b, r.d);
    var low := v.xor(ff0, v.xor(r.a, r.c));
    h[0], h[1], h[2], h[3] := low.w0, low.w1, low.w2, low.w3;
    var high := v.xor(ff1, v.xor(r.b, r.d));
    h[4], h[5], h[6], h[7] := high.w0, high.w1, high.w2, high.w3;
  }

  lemma XorAll<W(!new)>(v: Arith<Reg<W>>, o: Arith<W>, h: Reg<W>, x: Reg<W>, y: Reg<W>)
    requires Lanewise(v, o) && XorsInAnyOrder(o)
    ensures v.xor(h, v.xor(x, y)) == Reg(o.xor(o.xor(h.w0, x.w0), y.w0), o.xor(o.xor(h.w1, x.w1), y.w1),
                                         o.xor(o.xor(h.w2, x.w2), y.w2), o.xor(o.xor(h.w3, x.w3), y.w3))
  {
    hide XorsInAnyOrder;
    XorOrder(o, h.w0, x.w0, y.w0);
    XorOrder(o, h.w1, x.w1, y.w1);
    XorOrder(o, h.w2, x.w2, y.w2);
    XorOrder(o, h.w3, x.w3, y.w3);
  }

  // ---- Message loads ----

  // The macros LOAD_MSG_r_1 to LOAD_MSG_r_4 of blake2s-load-sse41.h.

  function Sse41Round0<W>(zero: W, m: Registers<W>): Loads<W> {
    var k1 := ShufflePs(m.m0, m.m1, 2, 0, 2, 0);
    var k2 := ShufflePs(m.m0, m.m1, 3, 1, 3, 1);
    var k3 := ShufflePs(m.m2, m.m3, 2, 0, 2, 0);
    var k4 := ShufflePs(m.m2, m.m3, 3, 1, 3, 1);
    Loads(k1, k2, k3, k4)
  }

  function Sse41Round1<W>(zero: W, m: Registers<W>): Loads<W> {
    var k1 :=
      var t0 := Blend(m.m1, m.m2, 0x0C); var t1 := ShiftUp(zero, m.m3, 4); var t2 := Blend(t0, t1, 0xF0);
      Shuffle(t2, 2, 1, 0, 3);
    var k2 :=
      var t0 := Shuffle(m.m2, 0, 0, 2, 0); var t1 := Blend(m.m1, m.m3, 0xC0); var t2 := Blend(t0, t1, 0xF0);
      Shuffle(t2, 2, 3, 0, 1);
    var k3 :=
      var t0 := ShiftUp(zero, m.m1, 4); var t1 := Blend(m.m2, t0, 0x30); var t2 := Blend(m.m0, t1, 0xF0);
      Shuffle(t2, 2, 3, 0, 1);
    var k4 :=
      var t0 := UnpackHi32(m.m0, m.m1); var t1 := ShiftUp(zero, m.m3, 4); var t2 := Blend(t0, t1, 0x0C);
      Shuffle(t2, 2, 3, 0, 1);
    Loads(k1, k2, k3, k4)
  }

  function Sse41Round2<W>(zero: W, m: Registers<W>): Loads<W> {
    var k1 :=
      var t0 := UnpackHi32(m.m2, m.m3); var t1 := Blend(m.m3, m.m1, 0x0C); var t2 := Blend(t0, t1, 0x0F);
      Shuffle(t2, 3, 1, 0, 2);
    var k2 :=
      var t0 := UnpackLo32(m.m2, m.m0); var t1 := Blend(t0, m.m0, 0xF0); var t2 := ShiftUp(zero, m.m3, 8);
      Blend(t1, t2, 0xC0);
    var k3 :=
      var t0 := Blend(m.m0, m.m2, 0x3C); var t1 := ShiftDown(zero, m.m1, 12); var t2 := Blend(t0, t1, 0x03);
      Shuffle(t2, 1, 0, 3, 2);
    var k4 :=
      var t0 := ShiftUp(zero, m.m3, 4); var t1 := Blend(m.m0, m.m1, 0x33); var t2 := Blend(t1, t0, 0xC0);
      Shuffle(t2, 0, 1, 2, 3);
    Loads(k1, k2, k3, k4)
  }

  function Sse41Round3<W>(zero: W, m: Registers<W>): Loads<W> {
    var k1 :=
      var t0 := UnpackHi32(m.m0, m.m1); var t1 := UnpackHi32(t0, m.m2); var t2 := Blend(t1, m.m3, 0x0C);
      Shuffle(t2, 3, 1, 0, 2);
    var k2 :=
      var t0 := ShiftUp(zero, m.m2, 8); var t1 := Blend(m.m3, m.m0, 0x0C); var t2 := Blend(t1, t0, 0xC0);
      Shuffle(t2, 2, 0, 1, 3);
    var k3 :=
      var t0 := Blend(m.m0, m.m1, 0x0F); var t1 := Blend(t0, m.m3, 0xC0);
      Shuffle(t1, 3, 0, 1, 2);
    var k4 :=
      var t0 := UnpackLo32(m.m0, m.m2); var t1 := UnpackHi32(m.m1, m.m2);
      UnpackLo64(t1, t0);
    Loads(k1, k2, k3, k4)
  }

  function Sse41Round4<W>(zero: W, m: Registers<W>): Loads<W> {
    var k1 :=
      var t0 := UnpackLo64(m.m1, m.m2); var t1 := UnpackHi64(m.m0, m.m2); var t2 := Blend(t0, t1, 0x33);
      Shuffle(t2, 2, 0, 1, 3);
    var k2 :=
      var t0 := UnpackHi64(m.m1, m.m3); var t1 := UnpackLo64(m.m0, m.m1);
      Blend(t0, t1, 0x33);
    var k3 :=
      var t0 := UnpackHi64(m.m3, m.m1); var t1 := UnpackHi64(m.m2, m.m0);
      Blend(t1, t0, 0x33);
    var k4 :=
      var t0 := Blend(m.m0, m.m2, 0x03); var t1 := ShiftUp(zero, t0, 8); var t2 := Blend(t1, m.m3, 0x0F);
      Shuffle(t2, 1, 2, 0, 3);
    Loads(k1, k2, k3, k4)
  }

  function Sse41Round5<W>(zero: W, m: Registers<W>): Loads<W> {
    var k1 :=
      var t0 := UnpackHi32(m.m0, m.m1); var t1 := UnpackLo32(m.m0, m.m2);
      UnpackLo64(t0, t1);
    var k2 :=
      var t0 := ShiftDown(zero, m.m2, 4); var t1 := Blend(m.m0, m.m3, 0x03);
      Blend(t1, t0, 0x3C);
    var k3 :=
      var t0 := Blend(m.m1, m.m0, 0x0C); var t1 := ShiftDown(zero, m.m3, 4); var t2 := Blend(t0, t1, 0x30);
      Shuffle(t2, 1, 2, 3, 0);
    var k4 :=
      var t0 := UnpackLo64(m.m1, m.m2); var t1 := Shuffle(m.m3, 0, 2, 0, 1);
      Blend(t0, t1, 0x33);
    Loads(k1, k2, k3, k4)
  }

  function Sse41Round6<W>(zero: W, m: Registers<W>): Loads<W> {
    var k1 :=
      var t0 := ShiftUp(zero, m.m1, 12); var t1 := Blend(m.m0, m.m3, 0x33);
      Blend(t1, t0, 0xC0);
    var k2 :=
      var t0 := Blend(m.m3, m.m2, 0x30); var t1 := ShiftDown(zero, m.m1, 4); var t2 := Blend(t0, t1, 0x03);
      Shuffle(t2, 2, 1, 3, 0);
    var k3 :=
      var t0 := UnpackLo64(m.m0, m.m2); var t1 := ShiftDown(zero, m.m1, 4);
      Shuffle(Blend(t0, t1, 0x0C), 2, 3, 1, 0);
    var k4 :=
      var t0 := UnpackHi32(m.m1, m.m2); var t1 := UnpackHi64(m.m0, t0);
      Shuffle(t1, 3, 0, 1, 2);
    Loads(k1, k2, k3, k4)
  }

  function Sse41Round7<W>(zero: W, m: Registers<W>): Loads<W> {
    var k1 :=
      var t0 := UnpackHi32(m.m0, m.m1); var t1 := Blend(t0, m.m3, 0x0F);
      Shuffle(t1, 2, 0, 3, 1);
    var k2 :=
      var t0 := Blend(m.m2, m.m3, 0x30); var t1 := ShiftDown(zero, m.m0, 4); var t2 := Blend(t0, t1, 0x03);
      Shuffle(t2, 1, 0, 2, 3);
    var k3 :=
      var t0 := UnpackHi64(m.m0, m.m3); var t1 := UnpackLo64(m.m1, m.m2); var t2 := Blend(t0, t1, 0x3C);
      Shuffle(t2, 0, 2, 3, 1);
    var k4 :=
      var t0 := UnpackLo32(m.m0, m.m1); var t1 := UnpackHi32(m.m1, m.m2);
      UnpackLo64(t0, t1);
    Loads(k1, k2, k3, k4)
  }

  function Sse41Round8<W>(zero: W, m: Registers<W>): Loads<W> {
    var k1 :=
      var t0 := UnpackHi32(m.m1, m.m3); var t1 := UnpackLo64(t0, m.m0); var t2 := Blend(t1, m.m2, 0xC0);
      ShuffleHigh(t2);
    var k2 :=
      var t0 := UnpackHi32(m.m0, m.m3); var t1 := Blend(m.m2, t0, 0xF0);
      Shuffle(t1, 0, 2, 1, 3);
    var k3 :=
      var t0 := Blend(m.m2, m.m0, 0x0C); var t1 := ShiftUp(zero, t0, 4);
      Blend(t1, m.m3, 0x0F);
    var k4 :=
      var t0 := Blend(m.m1, m.m0, 0x30);
      Shuffle(t0, 1, 0, 3, 2);
    Loads(k1, k2, k3, k4)
  }

  function Sse41Round9<W>(zero: W, m: Registers<W>): Loads<W> {
    var k1 :=
      var t0 := Blend(m.m0, m.m2, 0x03); var t1 := Blend(m.m1, m.m2, 0x30); var t2 := Blend(t1, t0, 0x0F);
      Shuffle(t2, 1, 3, 0, 2);
    var k2 :=
      var t0 := ShiftUp(zero, m.m0, 4); var t1 := Blend(m.m1, t0, 0xC0);
      Shuffle(t1, 1, 2, 0, 3);
    var k3 :=
      var t0 := UnpackHi32(m.m0, m.m3); var t1 := UnpackLo32(m.m2, m.m3); var t2 := UnpackHi64(t0, t1);
      Shuffle(t2, 3, 0, 2, 1);
    var k4 :=
      var t0 := Blend(m.m3, m.m2, 0xC0); var t1 := UnpackLo32(m.m0, m.m3); var t2 := Blend(t0, t1, 0x0F);
      Shuffle(t2, 0, 1, 2, 3);
    Loads(k1, k2, k3, k4)
  }

  function LoadsSse41<W>(r: nat, zero: W, m: Registers<W>): Loads<W>
    requires r < ROUNDS
  {
    if r == 0 then Sse41Round0(zero, m)
    else if r == 1 then Sse41Round1(zero, m)
    else if r == 2 then Sse41Round2(zero, m)
    else if r == 3 then Sse41Round3(zero, m)
    else if r == 4 then Sse41Round4(zero, m)
    else if r == 5 then Sse41Round5(zero, m)
    else if r == 6 then Sse41Round6(zero, m)
    else if r == 7 then Sse41Round7(zero, m)
    else if r == 8 then Sse41Round8(zero, m)
    else Sse41Round9(zero, m)
  }

  /** The macros LOAD_MSG_r_1 to LOAD_MSG_r_4 of blake2s-load-sse2.h. */
  function LoadsSse2<W>(r: nat, w: seq<W>): Loads<W>
    requires r < ROUNDS && |w| == 16
  {
    if r == 0 then
      Loads(SetWords(w[6], w[4], w[2], w[0]),
            SetWords(w[7], w[5], w[3], w[1]),
            SetWords(w[14], w[12], w[10], w[8]),
            SetWords(w[15], w[13], w[11], w[9]))
    else if r == 1 then
      Loads(SetWords(w[13], w[9], w[4], w[14]),
            SetWords(w[6], w[15], w[8], w[10]),
            SetWords(w[5], w[11], w[0], w[1]),
            SetWords(w[3], w[7], w[2], w[12]))
    else if r == 2 then
      Loads(SetWords(w[15], w[5], w[12], w[11]),
            SetWords(w[13], w[2], w[0], w[8]),
            SetWords(w[9], w[7], w[3], w[10]),
            SetWords(w[4], w[1], w[6], w[14]))
    else if r == 3 then
      Loads(SetWords(w[11], w[13], w[3], w[7]),
            SetWords(w[14], w[12], w[1], w[9]),
            SetWords(w[15], w[4], w[5], w[2]),
            SetWords(w[8], w[0], w[10], w[6]))
    else if r == 4 then
      Loads(SetWords(w[10], w[2], w[5], w[9]),
            SetWords(w[15], w[4], w[7], w[0]),
            SetWords(w[3], w[6], w[11], w[14]),
            SetWords(w[13], w[8], w[12], w[1]))
    else if r == 5 then
      Loads(SetWords(w[8], w[0], w[6], w[2]),
            SetWords(w[3], w[11], w[10], w[12]),
            SetWords(w[1], w[15], w[7], w[4]),
            SetWords(w[9], w[14], w[5], w[13]))
    else if r == 6 then
      Loads(SetWords(w[4], w[14], w[1], w[12]),
            SetWords(w[10], w[13], w[15], w[5]),
            SetWords(w[8], w[9], w[6], w[0]),
            SetWords(w[11], w[2], w[3], w[7]))
    else if r == 7 then
      Loads(SetWords(w[3], w[12], w[7], w[13]),
            SetWords(w[9], w[1], w[14], w[11]),
            SetWords(w[2], w[8], w[15], w[5]),
            SetWords(w[10], w[6], w[4], w[0]))
    else if r == 8 then
      Loads(SetWords(w[0], w[11], w[14], w[6]),
            SetWords(w[8], w[3], w[9], w[15]),
            SetWords(w[10], w[1], w[13], w[12]),
            SetWords(w[5], w[4], w[7], w[2]))
    else
      Loads(SetWords(w[1], w[7], w[8], w[10]),
            SetWords(w[5], w[6], w[4], w[2]),
            SetWords(w[13], w[3], w[9], w[15]),
            SetWords(w[0], w[12], w[14], w[11]))
  }

  /** The registers that hold sixteen words: four loads of four words each. */
  function InRegisters<W>(w: seq<W>): Registers<W>
    requires |w| == 16
  {
    Registers(Reg(w[0], w[1], w[2], w[3]), Reg(w[4], w[5], w[6], w[7]),
              Reg(w[8], w[9], w[10], w[11]), Reg(w[12], w[13], w[14], w[15]))
  }

  /** The loads a row of sigma asks for. */
  function LoadsBySigma<W>(w: seq<W>, s: seq<Index>): Loads<W>
    requires |w| == 16 && |s| == 16
  {
    Loads(Reg(w[s[0]], w[s[2]], w[s[4]], w[s[6]]), Reg(w[s[1]], w[s[3]], w[s[5]], w[s[7]]),
          Reg(w[s[8]], w[s[10]], w[s[12]], w[s[14]]), Reg(w[s[9]], w[s[11]], w[s[13]], w[s[15]]))
  }

  lemma LoadsBySigmaConsumed<W>(w: seq<W>, s: seq<Index>)
    requires |w| == 16 && |s| == 16
    ensures Consumed(LoadsBySigma(w, s)) == Scheduled(w, s)
  {}

  /** The direct loads follow sigma in every round. */
  lemma LoadsSse2FollowSigma<W>(r: nat, w: seq<W>)
    requires r < ROUNDS && |w| == 16
    ensures LoadsSse2(r, w) == LoadsBySigma(w, Sigma(r))
  {
    hide LoadsSse2, LoadsBySigma, Sigma;
    if r < 5 {
      FirstRounds(r, w);
    } else {
      LastRounds(r, w);
    }
  }

  lemma FirstRounds<W>(r: nat, w: seq<W>)
    requires r < 5 && |w| == 16
    ensures LoadsSse2(r, w) == LoadsBySigma(w, Sigma(r))
  {}

  lemma LastRounds<W>(r: nat, w: seq<W>)
    requires 5 <= r < ROUNDS && |w| == 16
    ensures LoadsSse2(r, w) == LoadsBySigma(w, Sigma(r))
  {}

  /** So do the blended and shuffled ones, whatever the shifts bring in. */
  lemma LoadsSse41FollowSigma<W>(r: nat, zero: W, w: seq<W>)
    requires r < ROUNDS && |w| == 16
    ensures LoadsSse41(r, zero, InRegisters(w)) == LoadsBySigma(w, Sigma(r))
  {
    assert LoadsSse41(r, zero, InRegisters(w)) == LoadsSse2(r, w) by { hide LoadsBySigma, Sigma; }
    LoadsSse2FollowSigma(r, w);
  }
}
