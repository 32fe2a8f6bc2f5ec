/**
 The parallel hashes as the library runs them: a state of leaves, a root and a buffer of one
 row.  The loops over the leaves run one after the other or, when built with OpenMP, in any
 interleaving of their turns.
 */
module Blake2Tree {
  import opened Bytes
  import opened Simd
  import opened Blake2Spec
  import opened Blake2TreeSpec
  import opened Blake2Hash

  /** A new leaf or root: digest_length is the tree's, a leaf's own output is inner_length long. */
  method NewNode(v: Variant, backend: Backend, p: Param, outlen: nat, last: bool) returns (s: Hash)
    requires p.digestLength <= v.OutBytes() && outlen <= v.OutBytes()
    ensures fresh(s) && fresh(s.buf)
    ensures Holds(s, v, backend, Start(v, p), outlen, last, [])
  {
    s := new Hash(v, backend, p);
    s.outlen := outlen;
    s.lastNode := last;
  }

  /** s has absorbed d since o, and nothing else. */
  ghost predicate Holds(s: Hash, v: Variant, backend: Backend, o: Origin, outlen: nat, last: bool, d: seq<byte>)
    reads s, s.buf
  {
    hide Hash.Folded, Start, Param.Serialized;
    && s.Valid() && s.v == v && s.backend == backend && s.origin == o && s.data == d
    && s.outlen == outlen && s.lastNode == last && !s.f0
  }

  lemma HoldsOpen(s: Hash, v: Variant, backend: Backend, o: Origin, outlen: nat, last: bool, d: seq<byte>)
    requires Holds(s, v, backend, o, outlen, last, d)
    ensures !s.f0
  {
    hide Hash.Valid;
  }

  ghost predicate Distinct(leaves: seq<Hash>) {
    forall i, j :: 0 <= i < j < |leaves| ==> leaves[i] != leaves[j] && leaves[i].buf != leaves[j].buf
  }

  /** Leaf i of a tree with this key has absorbed the key block, if any, and d. */
  ghost predicate IsLeaf(s: Hash, v: Variant, backend: Backend, outlen: nat, keylen: nat, i: nat, d: seq<byte>)
    requires outlen <= v.OutBytes() && keylen <= v.KeyBytes() && i < Degree(v)
    reads s, s.buf
  {
    Holds(s, v, backend, Start(v, Leaf(v, outlen, keylen, i)), v.OutBytes(), i == Degree(v) - 1, d)
  }

  /** The leaves before any input: initialised, the last one marked, and fed the key. */
  method NewLeaves(v: Variant, backend: Backend, outlen: nat, key: seq<byte>) returns (leaves: seq<Hash>)
    requires outlen <= v.OutBytes() && |key| <= v.KeyBytes()
    ensures |leaves| == Degree(v) && Distinct(leaves)
    ensures forall i :: 0 <= i < |leaves| ==> fresh(leaves[i]) && fresh(leaves[i].buf)
    ensures forall i :: 0 <= i < |leaves| ==> IsLeaf(leaves[i], v, backend, outlen, |key|, i, KeyBlock(v, key))
  {
    hide Holds, KeyBlock, Start;
    leaves := [];
    while |leaves| < Degree(v)
      invariant |leaves| <= Degree(v) && Distinct(leaves)
      invariant forall i :: 0 <= i < |leaves| ==> fresh(leaves[i]) && fresh(leaves[i].buf)
      invariant forall i :: 0 <= i < |leaves| ==> IsLeaf(leaves[i], v, backend, outlen, |key|, i, [])
    {
      var i := |leaves|;
      var leaf := NewNode(v, backend, Leaf(v, outlen, |key|, i), v.OutBytes(), i == Degree(v) - 1);
      leaves := leaves + [leaf];
    }
    EmptyKey(v, key);
    if |key| > 0 {
      var block := Padded(key, v.BlockBytes());
      assert [] + block == KeyBlock(v, key);
      var i := 0;
      while i < |leaves|
        invariant 0 <= i <= |leaves|
        invariant forall j :: 0 <= j < |leaves| ==>
          IsLeaf(leaves[j], v, backend, outlen, |key|, j, if j < i then KeyBlock(v, key) else [])
      {
        Grow(leaves[i], v, backend, Start(v, Leaf(v, outlen, |key|, i)), v.OutBytes(), i == Degree(v) - 1, [], block);
        i := i + 1;
      }
    }
  }

  lemma EmptyKey(v: Variant, key: seq<byte>)
    requires |key| <= v.KeyBytes()
    ensures KeyBlock(v, key) == if |key| == 0 then [] else Padded(key, v.BlockBytes())
  {}

  /** update on a node. */
  method Grow(s: Hash, ghost v: Variant, ghost backend: Backend, ghost o: Origin, ghost outlen: nat, ghost last: bool,
              ghost d: seq<byte>, input: seq<byte>)
    requires Holds(s, v, backend, o, outlen, last, d)
    modifies s`h, s`t0, s`t1, s`buflen, s`data, s.buf
    ensures Holds(s, v, backend, o, outlen, last, d + input)
  {
    s.Update(input);
  }

  /** Input that holds whole rows continues d from row n on. */
  ghost predicate Ahead(input: seq<byte>, d: seq<byte>, n: nat)
    requires ROW * n <= |d|
  {
    |input| < ROW || input <= d[ROW * n..]
  }

  /** Where the rest of a row is, once the buffered part of it has been completed or was empty. */
  lemma Position(data: seq<byte>, input: seq<byte>, left: nat)
    requires left == |data| % ROW
    ensures var n, fill := |data| / ROW, ROW - left;
            && (left > 0 && |input| >= fill ==>
                 && ROW * (n + 1) <= |data + input| && input[fill..] == (data + input)[ROW * (n + 1)..]
                 && (data + input)[ROW * n..ROW * (n + 1)] == data[ROW * n..] + input[..fill]
                 && n + 1 + |input[fill..]| / ROW == |data + input| / ROW)
            && (left == 0 ==> input == (data + input)[ROW * n..] && n + |input| / ROW == |data + input| / ROW)
            && (left > 0 && |input| < fill ==>
                 && n == |data + input| / ROW && |input| < ROW
                 && (data + input)[ROW * n..] == data[ROW * n..] + input)
  {}

  lemma NextPiece(v: Variant, input: seq<byte>, d: seq<byte>, n: nat, r: nat, i: nat)
    requires i < Degree(v) && ROW * n <= |d| && Ahead(input, d, n) && ROW * (r + 1) <= |input|
    ensures ROW * (n + r + 1) <= |d|
    ensures input[ROW * r + v.At(i)..][..v.BlockBytes()] == Piece(v, d, n + r, i)
  {}

  ghost predicate Node(s: Hash, v: Variant, backend: Backend, outlen: nat)
    reads s, s.buf
  {
    hide Hash.Folded;
    s.Valid() && s.v == v && s.backend == backend && s.outlen == outlen && outlen <= v.OutBytes()
  }

  /** update on a node in whatever state. */
  method AbsorbMore(s: Hash, ghost v: Variant, ghost backend: Backend, ghost outlen: nat, input: seq<byte>,
                    ghost o: Origin, ghost last: bool, ghost d: seq<byte>)
    requires Node(s, v, backend, outlen)
    modifies s, s.buf
    ensures Node(s, v, backend, outlen) && s.f0 == old(s.f0)
    ensures old(Holds(s, v, backend, o, outlen, last, d)) ==> Holds(s, v, backend, o, outlen, last, d + input)
  {
    s.Update(input);
  }

  /** final on a node in whatever state. */
  method Conclude(s: Hash, ghost v: Variant, ghost backend: Backend, outlen: nat,
                  ghost o: Origin, ghost last: bool, ghost d: seq<byte>) returns (out: Option<seq<byte>>)
    requires Node(s, v, backend, outlen)
    modifies s, s.buf
    ensures Node(s, v, backend, outlen)
    ensures out.None? <==> old(s.f0)
    ensures s.f0 && (out.Some? ==> |out.value| == outlen)
    ensures old(Holds(s, v, backend, o, outlen, last, d)) ==>
              o.h.For(v) && out == Some(Finished(v, o, d, last).Bytes(v)[..outlen])
  {
    hide Finished, Chain.Bytes;
    out := s.Final(outlen);
  }

  /** final into memory that keeps its contents when final fails. */
  method Finish(s: Hash, ghost v: Variant, ghost backend: Backend, outlen: nat,
                ghost o: Origin, ghost last: bool, ghost d: seq<byte>) returns (hash: seq<byte>)
    requires Node(s, v, backend, outlen)
    modifies s, s.buf
    ensures Node(s, v, backend, outlen) && |hash| == outlen
    ensures old(Holds(s, v, backend, o, outlen, last, d)) ==>
              o.h.For(v) && hash == Finished(v, o, d, last).Bytes(v)[..outlen]
  {
    hide Finished, Chain.Bytes, Node, Holds;
    var memory := new byte[outlen];
    hash := memory[..];
    var out := Conclude(s, v, backend, outlen, o, last, d);
    if out.Some? {
      hash := out.value;
    }
  }

  class Tree {
    const v: Variant
    const backend: Backend
    const leaves: seq<Hash>
    const root: Hash
    const buf: array<byte>
    var buflen: nat
    const outlen: nat

    ghost const key: seq<byte>
    ghost var data: seq<byte>

    ghost predicate Shape() {
      && 0 < outlen <= v.OutBytes() && |key| <= v.KeyBytes()
      && |leaves| == Degree(v) && buf.Length == ROW
      && root !in leaves && root.buf != buf
      && buf !in Buffers() && root.buf !in Buffers()
      && Distinct(leaves)
    }

    constructor (v: Variant, backend: Backend, outlen: nat, key: seq<byte>)
      requires 0 < outlen <= v.OutBytes() && |key| <= v.KeyBytes()
      ensures this.v == v && this.backend == backend && this.outlen == outlen && this.key == key
      ensures Valid() && !root.f0 && data == []
      ensures fresh(Repr())
    {
      hide Valid, Shape, Dealt, RootHolds, IsLeaf, Holds, KeyBlock, Start, Distinct, Leaf;
      this.v, this.backend, this.outlen, this.key := v, backend, outlen, key;
      buf := new byte[ROW](_ => 0);
      buflen, data := 0, [];
      var r := NewNode(v, backend, Root(v, outlen, |key|), outlen, true);
      root := r;
      var ls := NewLeaves(v, backend, outlen, key);
      leaves := ls;
      new;
      NothingDealt();
    }

    lemma NothingDealt()
      requires 0 < outlen <= v.OutBytes() && |key| <= v.KeyBytes()
      requires |leaves| == Degree(v) && Distinct(leaves) && buf.Length == ROW && root.buf != buf
      requires forall i :: 0 <= i < |leaves| ==> leaves[i] != root && leaves[i].buf != buf && leaves[i].buf != root.buf
      requires buflen == 0 && data == []
      requires Holds(root, v, backend, Start(v, Root(v, outlen, |key|)), outlen, true, [])
      requires forall i :: 0 <= i < |leaves| ==> IsLeaf(leaves[i], v, backend, outlen, |key|, i, KeyBlock(v, key))
      ensures Valid() && !root.f0
    {
      HoldsOpen(root, v, backend, Start(v, Root(v, outlen, |key|)), outlen, true, []);
      hide Holds, KeyBlock, Start, IsLeaf, Node;
      assert KeyBlock(v, key) + [] == KeyBlock(v, key);
    }

    ghost function Repr(): (r: set<object>)
      ensures {this, buf, root, root.buf} <= r && Buffers() <= r && forall s :: s in leaves ==> s in r
    {
      {this, buf, root, root.buf} + (set s | s in leaves) + Buffers()
    }

    ghost function Buffers(): (bs: set<array<byte>>)
      ensures forall i :: 0 <= i < |leaves| ==> leaves[i].buf in bs
    {
      set s | s in leaves :: s.buf
    }

    /** Leaf i has absorbed d behind the key; once the tree is finished, it is in whatever state. */
    ghost predicate LeafHolds(i: nat, d: seq<byte>)
      requires Shape() && i < |leaves|
      reads leaves[i], leaves[i].buf, root`f0
    {
      if root.f0 then Node(leaves[i], v, backend, v.OutBytes())
      else IsLeaf(leaves[i], v, backend, outlen, |key|, i, KeyBlock(v, key) + d)
    }

    ghost predicate RootHolds(d: seq<byte>)
      requires Shape()
      reads root, root.buf
    {
      if root.f0 then Node(root, v, backend, outlen)
      else Holds(root, v, backend, Start(v, Root(v, outlen, |key|)), outlen, true, d)
    }

    /** Every leaf has absorbed its part of the first n rows of d. */
    ghost predicate Dealt(d: seq<byte>, n: nat)
      requires Shape() && ROW * n <= |d|
      reads leaves, Buffers(), root`f0
    {
      hide LeafHolds;
      forall i :: 0 <= i < |leaves| ==> LeafHolds(i, Rows(v, d, n, i))
    }

    /** The leaves have absorbed the whole rows of the message; the buffer holds the rest, less than a row. */
    ghost predicate Valid()
      reads this, buf, root, root.buf, leaves, Buffers()
    {
      hide LeafHolds, RootHolds, Rows;
      && Shape()
      && RootHolds([])
      && Dealt(data, |data| / ROW)
      && buflen == |data| % ROW
      && buf[..buflen] == data[ROW * (|data| / ROW)..]
    }

    /** One turn of the loop of leaf i. */
    method Feed(i: nat, block: seq<byte>, ghost d: seq<byte>)
      requires Shape() && i < |leaves| && LeafHolds(i, d)
      modifies leaves[i], leaves[i].buf
      ensures LeafHolds(i, d + block)
    {
      LeafIsNode(i, d);
      hide Holds, Start, Node, Distinct;
      AbsorbMore(leaves[i], v, backend, v.OutBytes(), block, Start(v, Leaf(v, outlen, |key|, i)), i == Degree(v) - 1,
                 KeyBlock(v, key) + d);
      assert KeyBlock(v, key) + d + block == KeyBlock(v, key) + (d + block);
    }

    /** Leaf i has absorbed its part of the rows of d up to n, and of turns[i] more. */
    ghost predicate Turned(turns: seq<nat>, d: seq<byte>, n: nat)
      requires Shape()
      reads leaves, Buffers(), root`f0
    {
      hide LeafHolds, Rows;
      && |turns| == |leaves|
      && forall i :: 0 <= i < |leaves| ==> ROW * (n + turns[i]) <= |d| && LeafHolds(i, Rows(v, d, n + turns[i], i))
    }

    /** Leaf i absorbs its block of row r of the input. */
    method Turn(i: nat, input: seq<byte>, r: nat, ghost d: seq<byte>, ghost n: nat)
      requires Shape() && i < |leaves|
      requires ROW * n <= |d| && Ahead(input, d, n) && ROW * (r + 1) <= |input|
      requires ROW * (n + r) <= |d| && LeafHolds(i, Rows(v, d, n + r, i))
      modifies leaves[i], leaves[i].buf
      ensures ROW * (n + r + 1) <= |d| && LeafHolds(i, Rows(v, d, n + r + 1, i))
    {
      hide LeafHolds, Piece;
      NextPiece(v, input, d, n, r, i);
      var in_ := input[ROW * r + v.At(i)..];
      Feed(i, in_[..v.BlockBytes()], Rows(v, d, n + r, i));
    }

    /** A turn of leaf i, which leaves the others alone. */
    method TurnAmong(i: nat, input: seq<byte>, turns: seq<nat>, ghost d: seq<byte>, ghost n: nat)
        returns (turns': seq<nat>)
      requires Shape() && i < |leaves| && Turned(turns, d, n)
      requires ROW * n <= |d| && Ahead(input, d, n) && ROW * (turns[i] + 1) <= |input|
      modifies leaves[i], leaves[i].buf
      ensures Turned(turns', d, n)
      ensures turns' == turns[i := turns[i] + 1]
    {
      hide LeafHolds, Rows;
      Turn(i, input, turns[i], d, n);
      turns' := turns[i := turns[i] + 1];
    }

    /** Whatever leaves the order names take a turn, unless they are through with their rows. */
    method TakeTurns(order: seq<nat>, input: seq<byte>, turns: seq<nat>, rows: nat, ghost d: seq<byte>, ghost n: nat)
        returns (turns': seq<nat>)
      requires Shape() && ROW * n <= |d| && Ahead(input, d, n) && ROW * rows <= |input| && Turned(turns, d, n)
      requires forall j :: 0 <= j < |turns| ==> turns[j] <= rows
      modifies leaves, Buffers()
      ensures Turned(turns', d, n) && |turns'| == |leaves|
      ensures forall j :: 0 <= j < |turns'| ==> turns'[j] <= rows
    {
      assert |turns| == |leaves| && ROW == 512;
      hide *;
      turns' := turns;
      var t := 0;
      while t < |order|
        invariant 0 <= t <= |order| && |turns'| == |leaves| && Turned(turns', d, n)
        invariant forall j :: 0 <= j < |turns'| ==> turns'[j] <= rows
      {
        var i := order[t];
        if i < |leaves| && turns'[i] < rows {
          turns' := TurnAmong(i, input, turns', d, n);
        }
        t := t + 1;
      }
    }

    /** The loop of one leaf, after r turns. */
    method RunLeaf(i: nat, input: seq<byte>, r: nat, rows: nat, ghost d: seq<byte>, ghost n: nat)
      requires Shape() && ROW * n <= |d| && Ahead(input, d, n) && ROW * rows <= |input|
      requires i < |leaves| && r <= rows && ROW * (n + r) <= |d| && LeafHolds(i, Rows(v, d, n + r, i))
      modifies leaves[i], leaves[i].buf
      ensures ROW * (n + rows) <= |d| && LeafHolds(i, Rows(v, d, n + rows, i))
    {
      hide LeafHolds, Rows;
      var t := r;
      while t < rows
        invariant t <= rows && ROW * (n + t) <= |d| && LeafHolds(i, Rows(v, d, n + t, i))
      {
        Turn(i, input, t, d, n);
        t := t + 1;
      }
    }

    /** The loops of all the leaves, one after the other. */
    method RunAll(input: seq<byte>, turns: seq<nat>, rows: nat, ghost d: seq<byte>, ghost n: nat)
      requires Shape() && ROW * n <= |d| && Ahead(input, d, n) && ROW * rows <= |input| && Turned(turns, d, n)
      requires forall j :: 0 <= j < |turns| ==> turns[j] <= rows
      modifies leaves, Buffers()
      ensures ROW * (n + rows) <= |d| && Dealt(d, n + rows)
    {
      hide LeafHolds, Rows;
      ghost var m := n + rows;
      var i := 0;
      while i < |leaves|
        invariant 0 <= i <= |leaves| && (i > 0 ==> ROW * m <= |d|)
        invariant forall j :: 0 <= j < i ==> LeafHolds(j, Rows(v, d, m, j))
        invariant forall j :: i <= j < |leaves| ==>
                    ROW * (n + turns[j]) <= |d| && LeafHolds(j, Rows(v, d, n + turns[j], j))
      {
        RunLeaf(i, input, turns[i], rows, d, n);
        i := i + 1;
      }
    }

    /**
     The loops over whole rows of the input.  The first turns follow `order`, as threads might;
     then every leaf runs to its end, the first leaf first.
     */
    method DealRows(input: seq<byte>, order: seq<nat>, ghost d: seq<byte>, ghost n: nat)
      requires Shape() && ROW * n <= |d| && Ahead(input, d, n) && Dealt(d, n)
      modifies leaves, Buffers()
      ensures ROW * (n + |input| / ROW) <= |d| && Dealt(d, n + |input| / ROW)
    {
      hide Turned, Dealt, Shape, Buffers, Ahead;
      var rows := |input| / ROW;
      var turns: seq<nat> := seq(|leaves|, _ => 0);
      NoneTurned(turns, d, n);
      turns := TakeTurns(order, input, turns, rows, d, n);
      RunAll(input, turns, rows, d, n);
    }

    /** blake2bp_update and blake2sp_update; `order` is how the threads, if any, take their turns. */
    method Update(input: seq<byte>, order: seq<nat>)
      requires Valid()
      modifies Repr()
      ensures Valid() && root.f0 == old(root.f0)
      ensures data == old(data) + input
    {
      hide Dealt, RootHolds, Repr;
      ghost var total := data + input;
      ghost var n := |data| / ROW;
      DealtGrows(data, input, n);
      Position(data, input, buflen);
      var left := buflen;
      var fill := ROW - left;
      var rest := input;
      if left > 0 && |rest| >= fill {
        FillRow(rest[..fill], total, n);
        rest := rest[fill..];
        left := 0;
        n := n + 1;
      }
      DealRows(rest, order, total, n);
      var tail := rest[|rest| - |rest| % ROW..];
      assert |rest| < ROW ==> tail == rest;
      Keep(left, tail, total);
    }

    /** The branch of update that completes the buffered row. */
    method FillRow(part: seq<byte>, ghost d: seq<byte>, ghost n: nat)
      requires Shape() && buflen + |part| == ROW && ROW * (n + 1) <= |d| && Dealt(d, n)
      requires buf[..buflen] + part == d[ROW * n..ROW * (n + 1)]
      modifies buf, leaves, Buffers()
      ensures Dealt(d, n + 1)
    {
      hide Dealt;
      Copy(buf, buflen, part);
      assert buf[..ROW] == buf[..];
      DealRows(buf[..], [], d, n);
    }

    /** The last statements of update. */
    method Keep(left: nat, tail: seq<byte>, ghost total: seq<byte>)
      requires Shape() && RootHolds([]) && Dealt(total, |total| / ROW)
      requires left + |tail| == |total| % ROW
      requires buf[..left] + tail == total[ROW * (|total| / ROW)..]
      modifies `buflen, `data, buf
      ensures Valid() && data == total && root.f0 == old(root.f0)
    {
      hide Dealt, RootHolds;
      if |tail| > 0 {
        Copy(buf, left, tail);
      }
      buflen := left + |tail|;
      data := total;
    }

    lemma DealtGrows(d: seq<byte>, more: seq<byte>, n: nat)
      requires Shape() && ROW * n <= |d| && Dealt(d, n)
      ensures Dealt(d + more, n)
    {
      hide LeafHolds;
      forall i | 0 <= i < |leaves|
        ensures LeafHolds(i, Rows(v, d + more, n, i))
      {
        RowsOfPrefix(v, d, more, n, i);
      }
    }

    lemma NoneTurned(turns: seq<nat>, d: seq<byte>, n: nat)
      requires Shape() && ROW * n <= |d| && Dealt(d, n)
      requires |turns| == |leaves| && forall j :: 0 <= j < |turns| ==> turns[j] == 0
      ensures Turned(turns, d, n)
    {
      hide LeafHolds, Rows;
    }

    lemma RootIsNode(d: seq<byte>)
      requires Shape() && RootHolds(d)
      ensures Node(root, v, backend, outlen)
    {
      hide Hash.Valid, Start, KeyBlock;
    }

    /** A finished tree is in order as soon as all its nodes are. */
    lemma FinishedIsValid()
      requires Shape() && root.f0 && Node(root, v, backend, outlen)
      requires forall j :: 0 <= j < |leaves| ==> Node(leaves[j], v, backend, v.OutBytes())
      requires buflen == |data| % ROW && buf[..buflen] == data[ROW * (|data| / ROW)..]
      ensures Valid()
    {
      hide Node, Rows;
    }

    /** Finishing leaf i: what is left for it, if anything, and its digest. */
    method CloseLeaf(i: nat, rest: seq<byte>, ghost d: seq<byte>) returns (hash: seq<byte>)
      requires Shape() && i < |leaves| && Node(leaves[i], v, backend, v.OutBytes())
      modifies leaves[i], leaves[i].buf
      ensures Node(leaves[i], v, backend, v.OutBytes()) && |hash| == v.OutBytes()
      ensures !root.f0 && old(LeafHolds(i, d)) ==> hash == LeafHash(i, d + Tail(v, rest, i))
    {
      hide Node, Holds, Start, KeyBlock, Finished, Chain.Bytes, Distinct, Buffers;
      ghost var o := Start(v, Leaf(v, outlen, |key|, i));
      ghost var last := i == Degree(v) - 1;
      ghost var before := KeyBlock(v, key) + d;
      if |rest| > v.At(i) {
        var left := |rest| - v.At(i);
        if left > v.BlockBytes() {
          left := v.BlockBytes();
        }
        var in_ := rest[v.At(i)..v.At(i) + left];
        assert in_ == Tail(v, rest, i);
        AbsorbMore(leaves[i], v, backend, v.OutBytes(), in_, o, last, before);
        assert before + in_ == KeyBlock(v, key) + (d + in_);
      } else {
        assert d + Tail(v, rest, i) == d;
      }
      hash := Finish(leaves[i], v, backend, v.OutBytes(), o, last, KeyBlock(v, key) + (d + Tail(v, rest, i)));
    }

    lemma HashIsDigest(i: nat, d: seq<byte>)
      requires Shape() && i < |leaves|
      ensures LeafHash(i, Rows(v, d, |d| / ROW, i) + Tail(v, d[ROW * (|d| / ROW)..], i)) ==
              LeafDigest(v, outlen, key, d, i)
    {
      hide Finished, Start, Chain.Bytes;
    }

    ghost function LeafHash(i: nat, d: seq<byte>): (h: seq<byte>)
      requires Shape() && i < |leaves|
      ensures |h| == v.OutBytes()
    {
      Finished(v, Start(v, Leaf(v, outlen, |key|, i)), KeyBlock(v, key) + d, i == Degree(v) - 1).Bytes(v)
    }

    /** blake2bp_final and blake2sp_final. */
    method Final(n: nat) returns (out: Option<seq<byte>>)
      requires Valid()
      modifies root, root.buf, leaves, Buffers()
      ensures Valid()
      ensures out == if n < outlen || old(root.f0) then None else Some(TreeDigest(v, outlen, key, data))
      ensures root.f0 == (old(root.f0) || out.Some?)
    {
      hide Node, LeafHolds, LeafHash, LeafDigest, Rows, Tail, RootHolds, Repr;
      if n < outlen {
        return None;
      }
      ghost var open := !root.f0;
      ghost var whole := |data| / ROW;
      RootIsNode([]);
      forall j | 0 <= j < |leaves|
        ensures Node(leaves[j], v, backend, v.OutBytes())
      {
        LeafIsNode(j, Rows(v, data, whole, j));
      }
      var rest := buf[..buflen];
      var hashes: seq<seq<byte>> := [];
      while |hashes| < |leaves|
        invariant |hashes| <= |leaves| && forall j :: 0 <= j < |hashes| ==> |hashes[j]| == v.OutBytes()
        invariant Node(root, v, backend, outlen) && (open ==> RootHolds([])) && root.f0 == !open
        invariant forall j :: 0 <= j < |leaves| ==> Node(leaves[j], v, backend, v.OutBytes())
        invariant open ==> forall j :: |hashes| <= j < |leaves| ==> LeafHolds(j, Rows(v, data, whole, j))
        invariant open ==> forall j :: 0 <= j < |hashes| ==> hashes[j] == LeafDigest(v, outlen, key, data, j)
      {
        var i := |hashes|;
        var hash := CloseLeaf(i, rest, if open then Rows(v, data, whole, i) else []);
        assert open ==> hash == LeafDigest(v, outlen, key, data, i) by { HashIsDigest(i, data); }
        hashes := hashes + [hash];
      }
      out := CloseRoot(hashes, if open then data else []);
      FinishedIsValid();
    }

    /** Finishing the root: it absorbs the leaves' digests. */
    method CloseRoot(hashes: seq<seq<byte>>, ghost d: seq<byte>) returns (out: Option<seq<byte>>)
      requires Shape() && Node(root, v, backend, outlen) && |hashes| == Degree(v)
      requires !root.f0 ==>
        RootHolds([]) && forall j :: 0 <= j < |hashes| ==> hashes[j] == LeafDigest(v, outlen, key, d, j)
      modifies root, root.buf
      ensures Node(root, v, backend, outlen)
      ensures out == if old(root.f0) then None else Some(TreeDigest(v, outlen, key, d))
      ensures root.f0
    {
      hide Finished, Start, Chain.Bytes, LeafDigest, Holds, Node, Buffers, Distinct;
      ghost var open := !root.f0;
      var i := 0;
      while i < |hashes|
        invariant 0 <= i <= |hashes|
        invariant Node(root, v, backend, outlen) && root.f0 == !open
        invariant open ==> RootHolds(LeafDigests(v, outlen, key, d, i))
      {
        AbsorbMore(root, v, backend, outlen, hashes[i], Start(v, Root(v, outlen, |key|)), true,
                   if open then LeafDigests(v, outlen, key, d, i) else []);
        i := i + 1;
      }
      out := Conclude(root, v, backend, outlen, Start(v, Root(v, outlen, |key|)), true,
                      if open then LeafDigests(v, outlen, key, d, i) else []);
    }

    /** Leaf i has its digest, or has absorbed its blocks of turns[i] rows. */
    ghost predicate Due(turns: seq<nat>, hashes: seq<Option<seq<byte>>>, d: seq<byte>)
      requires Shape()
      reads leaves, Buffers(), root`f0
    {
      hide LeafHolds, Rows, LeafDigest;
      && |turns| == |leaves| && |hashes| == |leaves|
      && forall i :: 0 <= i < |leaves| ==>
           if hashes[i].Some? then hashes[i].value == LeafDigest(v, outlen, key, d, i)
           else ROW * turns[i] <= |d| && LeafHolds(i, Rows(v, d, turns[i], i))
    }

    /**
     The body of the one-shot functions, on freshly initialised nodes; `order` is how the threads, if any,
     take their turns.
     */
    method HashAtOnce(input: seq<byte>, order: seq<nat>) returns (out: Option<seq<byte>>)
      requires Valid() && !root.f0 && data == []
      modifies root, root.buf, leaves, Buffers()
      ensures out == Some(TreeDigest(v, outlen, key, input))
    {
      hide *;
      var turns: seq<nat> := seq(|leaves|, _ => 0);
      var none: seq<Option<seq<byte>>> := seq(|leaves|, _ => None);
      StartsAtOnce(input, turns, none);
      var due: seq<Option<seq<byte>>>;
      turns, due := TakeAllTurns(order, input, turns, none);
      var hashes := CloseLeaves(input, turns, due);
      out := CloseRoot(hashes, input);
    }

    lemma StartsAtOnce(input: seq<byte>, turns: seq<nat>, none: seq<Option<seq<byte>>>)
      requires Valid() && !root.f0 && data == []
      requires |turns| == |leaves| && forall j :: 0 <= j < |turns| ==> turns[j] == 0
      requires |none| == |leaves| && forall j :: 0 <= j < |none| ==> none[j] == None
      ensures Shape() && Due(turns, none, input)
      ensures Node(root, v, backend, outlen) && RootHolds([])
      ensures root !in leaves && root.buf !in Buffers() && |leaves| == Degree(v) && ROW == 512
    {
      hide RootHolds, Dealt;
      RootIsNode([]);
      DealtGrows([], input, 0);
      assert [] + input == input;
      NoneTurned(turns, input, 0);
      hide LeafHolds, Rows;
    }

    /** A leaf that is through with its rows gets the end of the input, and its digest is taken. */
    method CloseAmong(i: nat, input: seq<byte>, turns: seq<nat>, due: seq<Option<seq<byte>>>)
          returns (due': seq<Option<seq<byte>>>)
      requires Shape() && i < |leaves| && Due(turns, due, input) && due[i].None? && turns[i] == |input| / ROW &&
               !root.f0
      modifies leaves[i], leaves[i].buf
      ensures Due(turns, due', input) && due'[i].Some? && forall j :: 0 <= j < |due| && j != i ==> due'[j] == due[j]
    {
      hide Node, LeafHolds, LeafHash, LeafDigest, Rows, Tail;
      LeafIsNode(i, Rows(v, input, turns[i], i));
      var hash := CloseLeaf(i, input[ROW * turns[i]..], Rows(v, input, turns[i], i));
      HashIsDigest(i, input);
      due' := due[i := Some(hash)];
    }

    /** A row for a leaf that is not through with its rows, which leaves the others alone. */
    method RowAmong(i: nat, input: seq<byte>, turns: seq<nat>, due: seq<Option<seq<byte>>>) returns (turns': seq<nat>)
      requires Shape() && i < |leaves| && Due(turns, due, input) && due[i].None? && turns[i] < |input| / ROW && !root.f0
      modifies leaves[i], leaves[i].buf
      ensures Due(turns', due, input) && turns' == turns[i := turns[i] + 1]
    {
      hide LeafHolds, Rows, LeafDigest;
      assert input[ROW * 0..] == input;
      Turn(i, input, turns[i], input, 0);
      turns' := turns[i := turns[i] + 1];
    }

    /** Whatever leaves the order names take a turn: a row, or the end of the input and the digest. */
    method TakeAllTurns(order: seq<nat>, input: seq<byte>, turns: seq<nat>, due: seq<Option<seq<byte>>>)
        returns (turns': seq<nat>, due': seq<Option<seq<byte>>>)
      requires Shape() && Due(turns, due, input) && !root.f0
      requires forall j :: 0 <= j < |turns| ==> turns[j] <= |input| / ROW
      modifies leaves, Buffers()
      ensures Due(turns', due', input) && |turns'| == |leaves| && |due'| == |leaves|
      ensures forall j :: 0 <= j < |turns'| ==> turns'[j] <= |input| / ROW
    {
      assert |turns| == |leaves| == |due| && ROW == 512;
      hide *;
      turns', due' := turns, due;
      var t := 0;
      while t < |order|
        invariant 0 <= t <= |order| && |turns'| == |leaves| == |due'| && Due(turns', due', input)
        invariant forall j :: 0 <= j < |turns'| ==> turns'[j] <= |input| / ROW
      {
        var i := order[t];
        if i < |leaves| && due'[i].None? {
          if turns'[i] < |input| / ROW {
            turns' := RowAmong(i, input, turns', due');
          } else {
            due' := CloseAmong(i, input, turns', due');
          }
        }
        t := t + 1;
      }
    }

    /** The loops that are not through yet, one leaf after the other. */
    method CloseLeaves(input: seq<byte>, turns: seq<nat>, due: seq<Option<seq<byte>>>) returns (hashes: seq<seq<byte>>)
      requires Shape() && Due(turns, due, input) && !root.f0
      requires forall j :: 0 <= j < |turns| ==> turns[j] <= |input| / ROW
      modifies leaves, Buffers()
      ensures |hashes| == Degree(v)
      ensures forall j :: 0 <= j < |hashes| ==> hashes[j] == LeafDigest(v, outlen, key, input, j)
    {
      hide Node, LeafHolds, LeafHash, LeafDigest, Rows, Tail;
      var rows := |input| / ROW;
      var rest := input[ROW * rows..];
      assert input[ROW * 0..] == input;
      hashes := [];
      while |hashes| < |leaves|
        invariant |hashes| <= |leaves|
        invariant forall j :: |hashes| <= j < |leaves| && due[j].None? ==> LeafHolds(j, Rows(v, input, turns[j], j))
        invariant forall j :: 0 <= j < |hashes| ==> hashes[j] == LeafDigest(v, outlen, key, input, j)
      {
        var i := |hashes|;
        if due[i].Some? {
          hashes := hashes + [due[i].value];
        } else {
          RunLeaf(i, input, turns[i], rows, input, 0);
          LeafIsNode(i, Rows(v, input, rows, i));
          var hash := CloseLeaf(i, rest, Rows(v, input, rows, i));
          HashIsDigest(i, input);
          hashes := hashes + [hash];
        }
      }
    }

    lemma LeafIsNode(i: nat, d: seq<byte>)
      requires Shape() && i < |leaves| && LeafHolds(i, d)
      ensures Node(leaves[i], v, backend, v.OutBytes())
    {
      hide Hash.Valid, Start, KeyBlock;
    }

    /** blake2bp_init and blake2sp_init. */
    static method Init(v: Variant, backend: Backend, outlen: nat) returns (t: Option<Tree>)
      ensures t.None? <==> outlen == 0 || outlen > v.OutBytes()
      ensures t.Some? ==> t.value.Begun(v, backend, outlen, []) && fresh(t.value.Repr())
    {
      hide Tree.Valid, Tree.Repr;
      if outlen == 0 || outlen > v.OutBytes() {
        return None;
      }
      var tree := new Tree(v, backend, outlen, []);
      t := Some(tree);
    }

    /** blake2bp_init_key and blake2sp_init_key. */
    static method InitKey(v: Variant, backend: Backend, outlen: nat, key: seq<byte>) returns (t: Option<Tree>)
      ensures t.None? <==> outlen == 0 || outlen > v.OutBytes() || |key| == 0 || |key| > v.KeyBytes()
      ensures t.Some? ==> t.value.Begun(v, backend, outlen, key) && fresh(t.value.Repr())
    {
      hide Tree.Valid, Tree.Repr;
      if outlen == 0 || outlen > v.OutBytes() {
        return None;
      }
      if |key| == 0 || |key| > v.KeyBytes() {
        return None;
      }
      var tree := new Tree(v, backend, outlen, key);
      t := Some(tree);
    }

    ghost predicate Begun(v: Variant, backend: Backend, outlen: nat, key: seq<byte>)
      reads this, buf, root, root.buf, leaves, Buffers()
    {
      Valid() && !root.f0 && data == [] && this.v == v && this.backend == backend && this.outlen == outlen &&
          this.key == key
    }
  }

  /** Initialises with or without a key, as the caller must. */
  method Begin(v: Variant, backend: Backend, outlen: nat, key: seq<byte>) returns (tree: Tree)
    requires !Refused(v, outlen, |key|)
    ensures tree.Begun(v, backend, outlen, key) && fresh(tree.Repr())
  {
    hide Tree.Begun, Tree.Repr;
    var t: Option<Tree>;
    if |key| > 0 {
      t := Tree.InitKey(v, backend, outlen, key);
    } else {
      t := Tree.Init(v, backend, outlen);
      assert key == [];
    }
    tree := t.value;
  }

  /**
   The streaming interface: initialise, update with every chunk in turn, finish; orders[k] is how threads
   take turns in call k.
   */
  method Streamed(v: Variant, backend: Backend, outlen: nat, key: seq<byte>, chunks: seq<seq<byte>>,
                  orders: seq<seq<nat>>)
      returns (out: Option<seq<byte>>)
    requires |orders| == |chunks|
    ensures out == if Refused(v, outlen, |key|) then None else Some(TreeDigest(v, outlen, key, Joined(chunks)))
  {
    hide Tree.Valid, Tree.Repr, TreeDigest;
    if Refused(v, outlen, |key|) {
      return None;
    }
    var tree := Begin(v, backend, outlen, key);
    var i := 0;
    while i < |chunks|
      invariant 0 <= i <= |chunks| && fresh(tree.Repr()) && tree.Valid()
      invariant tree.v == v && tree.backend == backend && tree.outlen == outlen && tree.key == key && !tree.root.f0
      invariant tree.data == Joined(chunks[..i])
    {
      JoinedSnoc(chunks, i);
      tree.Update(chunks[i], orders[i]);
      i := i + 1;
    }
    assert chunks[..i] == chunks;
    out := tree.Final(outlen);
  }

  /** The one-shot functions blake2bp and blake2sp, which read straight from the input. */
  method OneShot(v: Variant, backend: Backend, outlen: nat, input: seq<byte>, key: seq<byte>, order: seq<nat>)
      returns (out: Option<seq<byte>>)
    ensures out == if Refused(v, outlen, |key|) then None else Some(TreeDigest(v, outlen, key, input))
  {
    hide Tree.Valid, Tree.Repr, TreeDigest;
    if Refused(v, outlen, |key|) {
      return None;
    }
    var tree := new Tree(v, backend, outlen, key);
    out := tree.HashAtOnce(input, order);
  }
}
