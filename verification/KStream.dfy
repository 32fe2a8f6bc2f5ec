/**
 The stream the generated parsers read from: bytes, integers of fixed width, and integers of
 any width up to 64 bits through an accumulator.  The accumulator is proved to be a window on
 the plain bit stream, most significant bit first; reads that make it overflow are told exactly.
 */
module KStream {
  import opened Bits
  import opened Bytes
  import opened Division

  function Num(b: byte): (n: nat)
    ensures n < 256
  {
    b as nat
  }

  // ---- The bit stream ----

  /** Bit i of the data, most significant bit of every byte first. */
  function BitAt(data: seq<byte>, i: nat): (b: nat)
    requires i < 8 * |data|
    ensures b < 2
  {
    Num(data[i / 8]) / Pow2(7 - i % 8) % 2
  }

  /** The n bits from bit `at` as a number. */
  function Value(data: seq<byte>, at: nat, n: nat): (x: nat)
    requires at + n <= 8 * |data|
    ensures x < Pow2(n)
  {
    if n == 0 then 0 else 2 * Value(data, at, n - 1) + BitAt(data, at + n - 1)
  }

  lemma {:induction false} ValueJoins(data: seq<byte>, at: nat, m: nat, n: nat)
    requires at + m + n <= 8 * |data|
    ensures Value(data, at, m + n) == Value(data, at, m) * Pow2(n) + Value(data, at + m, n)
  {
    if n > 0 {
      ValueJoins(data, at, m, n - 1);
      Doubled(Value(data, at, m), Pow2(n - 1));
    }
  }

  /** A byte is its eight bits: the first k of them are its quotient by the weight of the k-th. */
  lemma {:induction false} ValueOfByte(data: seq<byte>, p: nat, k: nat)
    requires p < |data| && k <= 8
    ensures Value(data, 8 * p, k) == Num(data[p]) / Pow2(8 - k)
  {
    hide BitAt, Num;
    var b := Num(data[p]);
    if k == 0 {
      assert Pow2(8) == 256 by { Pow2Values(); }
    } else {
      ValueOfByte(data, p, k - 1);
      var m := Pow2(8 - k);
      assert Pow2(9 - k) == 2 * m;
      DivByTwice(b, m);
      BitOfByte(data, p, k - 1);
    }
  }

  lemma BitOfByte(data: seq<byte>, p: nat, j: nat)
    requires p < |data| && j < 8
    ensures BitAt(data, 8 * p + j) == Num(data[p]) / Pow2(7 - j) % 2
  {
    hide Pow2, Num;
    assert (8 * p + j) / 8 == p && (8 * p + j) % 8 == j;
  }

  // ---- Unsigned 64-bit arithmetic ----

  const WORD: nat := 0x1_0000_0000_0000_0000

  /** A left shift of uint64_t. */
  function Shl(x: nat, s: nat): (y: nat)
    ensures y < WORD
  {
    Shifted(x, s) % WORD
  }

  /** get_mask_ones. */
  function MaskOnes(n: nat): (m: nat)
    requires n <= 64
    ensures m == Ones(n)
  {
    Pow2Values();
    if n == 64 then 0xFFFF_FFFF_FFFF_FFFF else Pow2(n) - 1
  }

  /** Shifting in a byte extends the number held in the accumulator, as far as the word goes. */
  lemma ByteIn(v: nat, b: nat)
    requires b < 256
    ensures Or(Shl(v % WORD, 8), b) == (256 * v + b) % WORD
  {
    hide Pow2, Or;
    Pow2Values();
    var acc := v % WORD;
    var high, low := acc / 0x100_0000_0000_0000, acc % 0x100_0000_0000_0000;
    Residue(256 * acc, WORD, high, 256 * low);
    Residue(256 * v + b, WORD, 256 * (v / WORD) + high, 256 * low + b);
    OrIntoZeros(low, b, 8);
  }

  /** The mask for n bits above s: the shift drops what does not fit into the word. */
  lemma MaskShifted(n: nat, s: nat)
    requires n <= 64 && s <= 7
    ensures Shl(Ones(n), s) == Shifted(Ones(if n + s <= 64 then n else 64 - s), s)
  {
    hide Pow2, Ones, Shifted;
    Pow2Values();
    OnesShifted(n, s);
    OnesShifted(64 - s, s);
    if n + s <= 64 {
      Pow2Monotonic(n + s, 64);
    } else {
      var e := n + s - 64;
      Pow2Sum(e, 64);
      Pow2Monotonic(s, 64);
      Residue(Shifted(Ones(n), s), WORD, Pow2(e) - 1, WORD - Pow2(s));
    }
  }

  lemma OnesShifted(n: nat, s: nat)
    ensures Shifted(Ones(n), s) == Pow2(n + s) - Pow2(s)
  {
    hide Pow2;
    Pow2Sum(n, s);
  }

  /** Dividing a number that has been cut is cutting its quotient. */
  lemma CutAndDivided(t: nat, m: nat, p: nat)
    requires m > 0 && p > 0 && m * p > 0
    ensures t % (m * p) / p == t / p % m
    ensures t % (m * p) % p == t % p
  {
    var q, r := t / p, t % p;
    CutDigits(t, m, p, q / m, q % m, r);
  }

  lemma CutDigits(t: nat, m: nat, p: nat, k: nat, l: nat, r: nat)
    requires l < m && r < p && t == (k * m + l) * p + r && m * p > 0
    ensures t % (m * p) / p == l && t % (m * p) % p == r
  {
    Below(l, m, r, p);
    Expand(k, m, l, p);
    Residue(t, m * p, k, l * p + r);
    Residue(l * p + r, p, l, r);
  }

  lemma Expand(k: nat, m: nat, l: nat, p: nat)
    ensures (k * m + l) * p == k * (m * p) + l * p
  {}

  /** What the last three statements of read_bits_int make of an accumulator that holds t, cut to the word. */
  lemma TakeOut(t: nat, n: nat, s: nat)
    requires n <= 64 && s <= 7 && t < Pow2(n + s)
    ensures And(t % WORD, Shl(Ones(n), s)) / Pow2(s) == t / Pow2(s) % Pow2(64 - s)
    ensures And(t % WORD, Ones(s)) == t % Pow2(s)
  {
    hide Pow2, Ones, Shl, And;
    var w := if n + s <= 64 then n else 64 - s;
    Pow2Values();
    Pow2Sum(64 - s, s);
    CutAndDivided(t, Pow2(64 - s), Pow2(s));
    AndOnes(t % WORD, s);
    MaskShifted(n, s);
    AndShiftedOnes(t % WORD, w, s);
    var x := t % WORD / Pow2(s);
    Residue(Shifted(x % Pow2(w), s), Pow2(s), x % Pow2(w), 0);
    Fits(t, n, s);
    Small(x, Pow2(w));
  }

  /** The quotient fits into the width of the mask. */
  lemma Fits(t: nat, n: nat, s: nat)
    requires n <= 64 && s <= 7 && t < Pow2(n + s)
    ensures t / Pow2(s) % Pow2(64 - s) < Pow2(if n + s <= 64 then n else 64 - s)
  {
    hide Pow2;
    if n + s <= 64 {
      Pow2Sum(n, s);
      BelowQuotient(t, Pow2(n), Pow2(s));
      Pow2Monotonic(n, 64 - s);
      Small(t / Pow2(s), Pow2(64 - s));
    }
  }

  lemma BelowQuotient(t: nat, m: nat, p: nat)
    requires p > 0 && t < m * p
    ensures t / p < m
  {
    var d := t / p - m;
    assert d * p == t / p * p - m * p;
    Multiple(d, p);
  }

  /** The number the accumulator should hold after k bytes from p have been shifted in behind `held`. */
  function Extended(held: nat, data: seq<byte>, p: nat, k: nat): nat
    requires p + k <= |data|
  {
    held * Pow2(8 * k) + Value(data, 8 * p, 8 * k)
  }

  lemma ExtendedByByte(held: nat, data: seq<byte>, p: nat, k: nat)
    requires p + k < |data|
    ensures Extended(held, data, p, k + 1) == 256 * Extended(held, data, p, k) + Num(data[p + k])
  {
    Pow2Values();
    hide Pow2, Value, Num;
    assert Pow2(0) == 1 by { Pow2Sum(0, 8); Multiple(Pow2(0) - 1, 256); }
    ValueJoins(data, 8 * p, 8 * k, 8);
    ValueOfByte(data, p + k, 8);
    Pow2Sum(8 * k, 8);
    Expand(held, Pow2(8 * k), 0, 256);
  }

  lemma ExtendedFits(held: nat, left: nat, data: seq<byte>, p: nat, k: nat)
    requires p + k <= |data| && held < Pow2(left)
    ensures Extended(held, data, p, k) < Pow2(left + 8 * k)
  {
    hide Pow2, Value;
    Pow2Sum(left, 8 * k);
    Below(held, Pow2(left), Value(data, 8 * p, 8 * k), Pow2(8 * k));
  }

  /** If the accumulator is a window on the bit stream, then it still is after k more bytes. */
  lemma ExtendedWindow(data: seq<byte>, p: nat, left: nat, k: nat)
    requires p + k <= |data| && left <= 8 * p
    ensures Extended(Value(data, 8 * p - left, left), data, p, k) == Value(data, 8 * p - left, left + 8 * k)
  {
    ValueJoins(data, 8 * p - left, left, 8 * k);
  }

  /** The first n of n + s bits, and the last s of them. */
  lemma SplitValue(data: seq<byte>, at: nat, n: nat, s: nat)
    requires at + n + s <= 8 * |data|
    ensures Value(data, at, n + s) / Pow2(s) == Value(data, at, n)
    ensures Value(data, at, n + s) % Pow2(s) == Value(data, at + n, s)
  {
    hide Pow2;
    ValueJoins(data, at, n, s);
    Residue(Value(data, at, n + s), Pow2(s), Value(data, at, n), Value(data, at + n, s));
  }

  /** How many bytes read_bits_int asks for. */
  function BytesNeeded(n: nat, left: nat): nat {
    if n <= left then 0 else (n - left - 1) / 8 + 1
  }

  /** A stream over some data, at a byte position, with the accumulator for bits. */
  class Stream {
    const data: seq<byte>
    var pos: nat
    var bits: nat
    var bitsLeft: nat

    /** The accumulator never holds a whole byte between calls, nor anything above its bits. */
    ghost predicate Valid()
      reads this
    {
      pos <= |data| && bitsLeft <= 7 && bits < Pow2(bitsLeft)
    }

    /** The bits held are the last ones before the byte position. */
    ghost predicate Window()
      reads this
    {
      pos <= |data| && bitsLeft <= 8 * pos && bits == Value(data, 8 * pos - bitsLeft, bitsLeft)
    }

    /** Where the next bit comes from. */
    ghost function BitPos(): int
      reads `pos, `bitsLeft
    {
      8 * pos - bitsLeft
    }

    constructor (data: seq<byte>)
      ensures Valid() && Window() && this.data == data && pos == 0 && bitsLeft == 0
    {
      this.data, pos, bits, bitsLeft := data, 0, 0, 0;
    }

    /** is_eof. */
    method IsEof() returns (eof: bool)
      requires pos <= |data|
      ensures eof <==> pos == |data|
    {
      eof := pos == |data|;
    }

    /** read_bytes: an exception, and the end of the stream, if there are too few. */
    method ReadBytes(len: nat) returns (r: Option<seq<byte>>)
      requires pos <= |data|
      modifies `pos
      ensures pos <= |data|
      ensures r == if old(pos) + len <= |data| then Some(data[old(pos)..old(pos) + len]) else None
      ensures pos == if r.Some? then old(pos) + len else |data|
    {
      if pos + len > |data| {
        pos := |data|;
        return None;
      }
      r := Some(data[pos..pos + len]);
      pos := pos + len;
    }

    /** read_u1. */
    method ReadU1() returns (r: Option<byte>)
      requires pos <= |data|
      modifies `pos
      ensures pos <= |data|
      ensures r == if old(pos) < |data| then Some(data[old(pos)]) else None
      ensures pos == if r.Some? then old(pos) + 1 else |data|
    {
      if pos == |data| {
        return None;
      }
      r := Some(data[pos]);
      pos := pos + 1;
    }

    /** read_u8le on a little-endian host. */
    method ReadU8le() returns (r: Option<bv64>)
      requires pos <= |data|
      modifies `pos
      ensures pos <= |data|
      ensures r == if old(pos) + 8 <= |data| then Some(Load64(data[old(pos)..old(pos) + 8])) else None
      ensures pos == if r.Some? then old(pos) + 8 else |data|
    {
      var s := ReadBytes(8);
      r := if s.Some? then Some(Load64(s.value)) else None;
    }

    /** read_u8be on a little-endian host: a byte swap follows the read. */
    method ReadU8be() returns (r: Option<bv64>)
      requires pos <= |data|
      modifies `pos
      ensures pos <= |data|
      ensures r == if old(pos) + 8 <= |data| then Some(Load64(Swapped(data[old(pos)..old(pos) + 8]))) else None
      ensures pos == if r.Some? then old(pos) + 8 else |data|
    {
      var s := ReadBytes(8);
      r := if s.Some? then Some(Load64(Swapped(s.value))) else None;
    }

    /** align_to_byte: drops what is left of the byte last read. */
    method AlignToByte()
      requires Valid()
      modifies `bits, `bitsLeft
      ensures Valid() && Window() && bitsLeft == 0
    {
      bitsLeft := 0;
      bits := 0;
    }

    /** The loop that shifts bytes in. */
    method Fill(count: nat)
      requires Valid() && count <= 8 && pos + count <= |data|
      modifies this
      ensures pos == old(pos) + count && bitsLeft == old(bitsLeft) + 8 * count
      ensures bits == Extended(old(bits), data, old(pos), count) % WORD
    {
      hide Extended;
      ghost var held := bits;
      BeforeFilling(held, bitsLeft, data, pos);
      var buf := data[pos..pos + count];
      pos := pos + count;
      var i := 0;
      while i < count
        invariant 0 <= i <= count && bitsLeft == old(bitsLeft) + 8 * i
        invariant pos == old(pos) + count
        invariant bits == Extended(held, data, old(pos), i) % WORD
      {
        ByteIn(Extended(held, data, old(pos), i), Num(buf[i]));
        ExtendedByByte(held, data, old(pos), i);
        bits := Shl(bits, 8);
        bits := Or(bits, Num(buf[i]));
        bitsLeft := bitsLeft + 8;
        i := i + 1;
      }
    }

    /** What read_bits_int does once the accumulator holds enough bits. */
    method Take(n: nat, ghost t: nat) returns (res: nat)
      requires n <= 64 && n <= bitsLeft <= n + 7 && t < Pow2(bitsLeft) && bits == t % WORD
      modifies `bits, `bitsLeft
      ensures bitsLeft == old(bitsLeft) - n
      ensures res == t / Pow2(bitsLeft) % Pow2(64 - bitsLeft)
      ensures bits == t % Pow2(bitsLeft)
    {
      hide *;
      var mask := MaskOnes(n);
      var shift := bitsLeft - n;
      TakeOut(t, n, shift);
      mask := Shl(mask, shift);
      res := And(bits, mask) / Pow2(shift);
      bitsLeft := bitsLeft - n;
      mask := MaskOnes(bitsLeft);
      bits := And(bits, mask);
    }

    /**
     read_bits_int: the next n bits, unless the stream ends before or more than 64 new bits
     would be needed.  The top bits of the result are lost when the accumulator overflows.
     */
    method ReadBits(n: nat) returns (r: Option<nat>)
      requires Valid() && (n <= 64 || n > 64 + bitsLeft)
      modifies this
      ensures Valid()
      ensures r.None? <==> n > 64 || old(BitPos()) + n > 8 * |data|
      ensures r.Some? ==> BitPos() == old(BitPos()) + n
      ensures r.Some? && old(Window()) ==>
                Window() && r.value == Value(data, old(BitPos()), n) % Pow2(64 - bitsLeft)
      ensures r.None? ==> bits == old(bits) && bitsLeft == old(bitsLeft)
      ensures n > 64 ==> pos == old(pos)
    {
      hide Extended, Value, Pow2;
      var needed: int := n - bitsLeft;
      ghost var p, left, held, count := pos, bitsLeft, bits, BytesNeeded(n, bitsLeft);
      if needed > 0 {
        var bytes := (needed - 1) / 8 + 1;
        if bytes > 8 {
          return None;
        }
        if pos + bytes > |data| {
          pos := |data|;
          return None;
        }
        Fill(bytes);
      } else {
        BeforeFilling(bits, bitsLeft, data, pos);
      }
      ExtendedFits(held, left, data, p, count);
      var res := Take(n, Extended(held, data, p, count));
      if old(Window()) {
        ExtendedWindow(data, p, left, count);
        SplitValue(data, 8 * p - left, n, bitsLeft);
      }
      r := Some(res);
    }
  }

  /** s backwards, as a byte swap leaves it. */
  function Swapped(s: seq<byte>): (r: seq<byte>)
    ensures |r| == |s| && forall i :: 0 <= i < |s| ==> r[i] == s[|s| - 1 - i]
  {
    seq(|s|, i requires 0 <= i < |s| => s[|s| - 1 - i])
  }

  // ---- When a read is exact ----

  /**
   The result of read_bits_int is the value of the next n bits exactly when the bits held do
   not outgrow the word as bytes are shifted in behind them.
   */
  lemma ExactWhen(data: seq<byte>, at: nat, left: nat, n: nat)
    requires left <= 7 && n <= 64
    requires at + left + 8 * BytesNeeded(n, left) <= 8 * |data|
    ensures var k := BytesNeeded(n, left);
            var s := left + 8 * k - n;
            && s <= 7
            && (Value(data, at, n) % Pow2(64 - s) == Value(data, at, n) <==> Value(data, at, left) < Pow2(64 - 8 * k))
            && (left + 8 * k <= 64 ==> Value(data, at, left) < Pow2(64 - 8 * k))
  {
    hide Pow2, Value, BytesNeeded;
    Rounding(n, left);
    var k := BytesNeeded(n, left);
    ExactAfter(data, at, left, n, k, left + 8 * k - n);
    if left + 8 * k <= 64 {
      Pow2Monotonic(left, 64 - 8 * k);
    }
  }

  lemma ExactAfter(data: seq<byte>, at: nat, left: nat, n: nat, k: nat, s: nat)
    requires k <= 8 && s <= 7 && left + 8 * k == n + s && at + n + s <= 8 * |data|
    ensures Value(data, at, n) % Pow2(64 - s) == Value(data, at, n) <==> Value(data, at, left) < Pow2(64 - 8 * k)
  {
    hide Pow2, Value;
    ValueJoins(data, at, n, s);
    ValueJoins(data, at, left, 8 * k);
    Pow2Sum(64 - s, s);
    Pow2Sum(64 - 8 * k, 8 * k);
    SameBound(Value(data, at, n), Pow2(64 - s), Value(data, at + n, s), Pow2(s),
              Value(data, at, left), Pow2(64 - 8 * k), Value(data, at + left, 8 * k), Pow2(8 * k));
  }

  lemma Rounding(n: nat, left: nat)
    requires left <= 7
    ensures var k := BytesNeeded(n, left);
            n <= left + 8 * k <= n + 7 && (n <= 64 ==> k <= 8)
  {}

  /** A number in two splits is below a bound in one exactly when it is in the other. */
  lemma SameBound(x: nat, m: nat, low: nat, p: nat, h: nat, m': nat, rest: nat, p': nat)
    requires low < p && rest < p' && m > 0 && m' > 0
    requires x * p + low == h * p' + rest && m * p == m' * p'
    ensures x % m == x <==> h < m'
  {
    LessByDigits(x, m, low, p);
    LessByDigits(h, m', rest, p');
  }

  lemma LessByDigits(x: nat, m: nat, low: nat, p: nat)
    requires low < p && m > 0
    ensures x * p + low < m * p <==> x < m
    ensures x % m == x <==> x < m
  {
    if x < m {
      Below(x, m, low, p);
    } else {
      assert (x - m) * p >= 0;
      assert (x - m) * p == x * p - m * p;
    }
  }

  /** The bits held and the bytes shifted in behind them for n bits from bit `at` fit into the accumulator. */
  predicate FitsWord(at: nat, n: nat) {
    var left := (8 - at % 8) % 8;
    left + 8 * BytesNeeded(n, left) <= 64
  }

  /** Reads of up to 57 bits always fit. */
  lemma NarrowReadsFit(at: nat, n: nat)
    requires n <= 57
    ensures FitsWord(at, n)
  {}

  /** A read that fits is exact. */
  lemma FittingReadsExact(data: seq<byte>, at: nat, left: nat, n: nat)
    requires FitsWord(at, n) && left <= 7 && at + left <= 8 * |data| && (at + left) % 8 == 0 && at + n <= 8 * |data|
    ensures var s := left + 8 * BytesNeeded(n, left) - n;
            n <= 64 && s <= 7 && Value(data, at, n) % Pow2(64 - s) == Value(data, at, n)
  {
    hide *;
    FitsHere(at, left, n, |data|);
    ExactWhen(data, at, left, n);
  }

  lemma FitsHere(at: nat, left: nat, n: nat, size: nat)
    requires FitsWord(at, n) && left <= 7 && (at + left) % 8 == 0 && at + left <= 8 * size && at + n <= 8 * size
    ensures var k := BytesNeeded(n, left);
            n <= 64 && n <= left + 8 * k <= 64 && left + 8 * k <= n + 7 && at + left + 8 * k <= 8 * size
  {
    assert left == (8 - at % 8) % 8;
  }

  /** A wider read can lose bits: after seven bits of ones, the next 58 read as 57. */
  lemma WideReadLosesBits()
    ensures var data := seq(9, _ => 0xFF as byte);
            var s := 1 + 8 * BytesNeeded(58, 1) - 58;
            Value(data, 7, 58) % Pow2(64 - s) != Value(data, 7, 58)
  {
    var data := seq(9, _ => 0xFF as byte);
    forall i | 0 <= i < 9 ensures Num(data[i]) == 255 {}
    AllOnes(data, 7, 1);
    assert Pow2(1) == 2 && Pow2(64 - 8 * BytesNeeded(58, 1)) == 1;
    ExactWhen(data, 7, 1, 58);
  }

  lemma {:induction false} AllOnes(data: seq<byte>, at: nat, n: nat)
    requires at + n <= 8 * |data| && forall i :: 0 <= i < |data| ==> Num(data[i]) == 255
    ensures Value(data, at, n) == Ones(n)
  {
    if n > 0 {
      AllOnes(data, at, n - 1);
      var i := at + n - 1;
      BitOfByte(data, i / 8, i % 8);
      BitOfOnes(7 - i % 8);
    }
  }

  lemma BitOfOnes(j: nat)
    requires j < 8
    ensures 255 / Pow2(j) % 2 == 1
  {
    assert Pow2(1) == 2 && Pow2(2) == 4 && Pow2(3) == 8;
    assert Pow2(4) == 16 && Pow2(5) == 32 && Pow2(6) == 64 && Pow2(7) == 128;
  }

  function Total(widths: seq<nat>): nat {
    if |widths| == 0 then 0 else widths[0] + Total(widths[1..])
  }

  /** Consecutive fields of the bit stream. */
  function Fields(data: seq<byte>, at: nat, widths: seq<nat>): (fs: seq<nat>)
    requires at + Total(widths) <= 8 * |data|
    ensures |fs| == |widths|
    decreases |widths|
  {
    if |widths| == 0 then [] else [Value(data, at, widths[0])] + Fields(data, at + widths[0], widths[1..])
  }

  /** Every read in a run fits. */
  predicate AllFit(at: nat, widths: seq<nat>)
    decreases |widths|
  {
    |widths| == 0 || (FitsWord(at, widths[0]) && AllFit(at + widths[0], widths[1..]))
  }

  /** A read that fits is the next field of the bit stream. */
  method ReadField(s: Stream, n: nat) returns (f: Option<nat>)
    requires s.Valid() && s.Window() && FitsWord(8 * s.pos - s.bitsLeft, n)
    modifies s
    ensures s.Valid()
    ensures f.None? <==> old(s.BitPos()) + n > 8 * |s.data|
    ensures f.Some? ==> s.Window() && s.BitPos() == old(s.BitPos()) + n && f.value == Value(s.data, old(s.BitPos()), n)
  {
    hide Pow2, Value, BytesNeeded;
    ghost var at, left := s.BitPos(), s.bitsLeft;
    Rounding(n, left);
    f := s.ReadBits(n);
    if f.Some? {
      LeftAfter(at, left, n, s.pos, s.bitsLeft);
      FittingReadsExact(s.data, at, left, n);
    }
  }

  /** A run of reads returns consecutive fields of the bit stream. */
  method ReadFields(s: Stream, widths: seq<nat>) returns (ok: bool, fields: seq<nat>)
    requires s.Valid() && s.Window() && AllFit(8 * s.pos - s.bitsLeft, widths)
    modifies s
    ensures s.Valid()
    ensures ok <==> old(s.BitPos()) + Total(widths) <= 8 * |s.data|
    ensures ok ==> s.Window() && s.BitPos() == old(s.BitPos()) + Total(widths)
    ensures ok ==> fields == Fields(s.data, old(s.BitPos()), widths)
  {
    assert 0 <= s.BitPos() <= 8 * |s.data|;
    hide Pow2, Value, Fields, Stream.Window, Stream.Valid, FitsWord, AllFit, Total;
    fields := [];
    ok := true;
    ghost var start: nat, at: nat := s.BitPos(), s.BitPos();
    var rest := widths;
    NoFields(s.data, at);
    while |rest| > 0
      invariant s.Valid() && s.Window() && AllFit(at, rest)
      invariant at == s.BitPos() <= 8 * |s.data| && at + Total(rest) == start + Total(widths)
      invariant start + Total(widths) <= 8 * |s.data| ==>
        fields + Fields(s.data, at, rest) == Fields(s.data, start, widths)
    {
      FirstField(s.data, at, rest);
      var f := ReadField(s, rest[0]);
      if f.None? {
        return false, fields;
      }
      fields := fields + [f.value];
      at := at + rest[0];
      rest := rest[1..];
    }
    NoFields(s.data, at);
  }

  lemma NoFields(data: seq<byte>, at: nat)
    ensures Total([]) == 0
    ensures at <= 8 * |data| ==> Fields(data, at, []) == []
  {}

  lemma FirstField(data: seq<byte>, at: nat, widths: seq<nat>)
    requires |widths| > 0 && AllFit(at, widths)
    ensures FitsWord(at, widths[0]) && AllFit(at + widths[0], widths[1..])
    ensures Total(widths) == widths[0] + Total(widths[1..])
    ensures at + Total(widths) <= 8 * |data| ==>
              Fields(data, at, widths) == [Value(data, at, widths[0])] + Fields(data, at + widths[0], widths[1..])
  {}

  /** The bits left over are what the bytes read exceed the bits asked for. */
  lemma LeftAfter(at: nat, left: nat, n: nat, pos: nat, left': nat)
    requires left <= 7 && left' <= 7 && (at + left) % 8 == 0 && at + n == 8 * pos - left'
    ensures left' == left + 8 * BytesNeeded(n, left) - n
  {}

  lemma BeforeFilling(held: nat, left: nat, data: seq<byte>, p: nat)
    requires p <= |data| && left <= 7 && held < Pow2(left)
    ensures Extended(held, data, p, 0) == held == held % WORD
  {
    Pow2Values();
    Pow2Monotonic(left, 64);
  }
}
