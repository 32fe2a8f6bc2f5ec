/**
 Bootstrap streams: the replies to frontier_req and bulk_pull and the blocks of a bulk_push
 arrive as a byte stream cut into chunks at will.  Chunks go through a ring of 4096 bytes from
 which complete entries are taken.  The theorem is that the entries taken do not depend on
 where the stream was cut, provided that the ring never overwrites.
 */
module Streams {
  import opened Bytes
  import opened NanoBlocks

  /** The message that a stream belongs to. */
  datatype Kind = Frontier | BulkPull | BulkPush

  datatype Item = FrontierItem(frontier: FrontierEntry) | BlockItem(entry: Entry)

  /** Capacity of accumulated_data. */
  const CAPACITY: nat := 4096

  /** What pushing s onto an empty ring leaves: the latest bytes. */
  function Kept(s: seq<byte>): (r: seq<byte>)
    ensures |r| <= CAPACITY
  {
    if |s| <= CAPACITY then s else s[|s| - CAPACITY..]
  }

  predicate AllZero(s: seq<byte>) { forall i :: 0 <= i < |s| ==> s[i] == 0 }

  /** One turn of a reading loop: wait for more bytes, stop at the sentinel, or take an item. */
  datatype Turn = Wait | End | Take(item: Item, size: nat)

  function Next(kind: Kind, buf: seq<byte>): (t: Turn)
    ensures t.Take? ==> 0 < t.size <= |buf|
  {
    if kind == Frontier then
      if |buf| < 64 then Wait
      else if AllZero(FrontierFields(buf[..64]).account) then End
      else Take(FrontierItem(FrontierFields(buf[..64])), 64)
    else if |buf| == 0 then Wait
    else if buf[0] == NOT_A_BLOCK then End
    else
      var e := ParseEntry(buf);
      if e.None? then Wait else Take(BlockItem(e.value.0), e.value.1)
  }

  /** What a whole reading loop makes of the bytes in the ring. */
  datatype Drained = Drained(rest: seq<byte>, items: seq<Item>, ended: bool)

  function Drain(kind: Kind, buf: seq<byte>): (d: Drained)
    ensures |d.rest| <= |buf| && (d.ended ==> d.rest == [])
    decreases |buf|
  {
    var t := Next(kind, buf);
    if t.Wait? then Drained(buf, [], false)
    else if t.End? then Drained([], [], true)
    else
      var d := Drain(kind, buf[t.size..]);
      d.(items := [t.item] + d.items)
  }

  /** No entry taken from s is of an unknown type, which would swallow whatever is buffered. */
  predicate Solid(kind: Kind, s: seq<byte>)
    decreases |s|
  {
    var t := Next(kind, s);
    t.Take? ==> (t.item.BlockItem? ==> Known(t.item.entry.blockType)) && Solid(kind, s[t.size..])
  }

  /** The longest incomplete entry. */
  function MaxRest(kind: Kind): nat { if kind == Frontier then 63 else 216 }

  // ---- Draining when more bytes arrive ----

  /** A turn that acts is not changed by later bytes. */
  lemma TurnIsStable(kind: Kind, a: seq<byte>, b: seq<byte>)
    requires !Next(kind, a).Wait?
    requires Next(kind, a).Take? && Next(kind, a).item.BlockItem? ==> Known(Next(kind, a).item.entry.blockType)
    ensures Next(kind, a + b) == Next(kind, a)
  {
    hide ParseEntry;
    if kind == Frontier {
      assert (a + b)[..64] == a[..64];
    } else if a[0] != NOT_A_BLOCK {
      EntryHasItsType(a);
      ParseIsStable(a, b);
    }
  }

  lemma EntryHasItsType(s: seq<byte>)
    requires ParseEntry(s).Some?
    ensures |s| > 0 && ParseEntry(s).value.0.blockType == s[0]
  {}

  lemma {:induction false} PrefixIsSolid(kind: Kind, a: seq<byte>, b: seq<byte>)
    requires Solid(kind, a + b)
    ensures Solid(kind, a)
    decreases |a|
  {
    hide Next;
    var t := Next(kind, a);
    if t.Take? {
      if t.item.BlockItem? {
        TypeDecides(kind, a, b);
      }
      TurnIsStable(kind, a, b);
      assert (a + b)[t.size..] == a[t.size..] + b;
      PrefixIsSolid(kind, a[t.size..], b);
    }
  }

  lemma TypeDecides(kind: Kind, a: seq<byte>, b: seq<byte>)
    requires Solid(kind, a + b) && Next(kind, a).Take? && Next(kind, a).item.BlockItem?
    ensures Known(Next(kind, a).item.entry.blockType)
  {
    hide Fields;
    assert (a + b)[0] == a[0];
    UnknownParses(a + b);
  }

  lemma UnknownParses(s: seq<byte>)
    requires |s| > 0
    ensures !Known(s[0]) ==> ParseEntry(s).Some? && ParseEntry(s).value.0.blockType == s[0]
  {}

  /** One turn of the loop. */
  lemma OneTurn(kind: Kind, s: seq<byte>)
    ensures var t := Next(kind, s);
            && (t.Wait? ==> Drain(kind, s) == Drained(s, [], false))
            && (t.End? ==> Drain(kind, s) == Drained([], [], true))
            && (t.Take? ==>
                  && (var d := Drain(kind, s[t.size..]); Drain(kind, s) == Drained(d.rest, [t.item] + d.items, d.ended))
                  && (Solid(kind, s) ==> Solid(kind, s[t.size..])))
  {}

  lemma KnownIfSolid(kind: Kind, s: seq<byte>)
    requires Solid(kind, s)
    ensures Next(kind, s).Take? && Next(kind, s).item.BlockItem? ==> Known(Next(kind, s).item.entry.blockType)
  {}

  /** Draining in two goes is draining at once. */
  lemma {:induction false} DrainJoins(kind: Kind, a: seq<byte>, b: seq<byte>)
    requires Solid(kind, a)
    ensures var d := Drain(kind, a);
            Drain(kind, a + b) == if d.ended then d else
              var e := Drain(kind, d.rest + b);
              Drained(e.rest, d.items + e.items, e.ended)
    decreases |a|
  {
    hide Next, Drain, Solid;
    var t := Next(kind, a);
    OneTurn(kind, a);
    if t.Wait? {
      assert Drain(kind, a + b).items == [] + Drain(kind, a + b).items;
    } else {
      KnownIfSolid(kind, a);
      TurnIsStable(kind, a, b);
      OneTurn(kind, a + b);
      if t.Take? {
        assert (a + b)[t.size..] == a[t.size..] + b;
        DrainJoins(kind, a[t.size..], b);
        var d, e := Drain(kind, a[t.size..]), Drain(kind, Drain(kind, a).rest + b);
        assert [t.item] + (d.items + e.items) == [t.item] + d.items + e.items;
      }
    }
  }

  /** What stays behind is less than one entry, and waits. */
  lemma {:induction false} RestIsShort(kind: Kind, buf: seq<byte>)
    ensures var d := Drain(kind, buf);
            |d.rest| <= MaxRest(kind) && Solid(kind, d.rest) &&
                (!d.ended ==> Drain(kind, d.rest) == Drained(d.rest, [], false))
    decreases |buf|
  {
    hide Fields;
    var t := Next(kind, buf);
    if t.Take? {
      RestIsShort(kind, buf[t.size..]);
    } else if t.End? {
      assert Next(kind, []).Wait?;
    }
  }

  // ---- A stream in chunks ----

  /**
   What is left in the ring, what has been taken, how many chunks that took, and whether the sentinel was
   among them.
   */
  datatype Ran = Ran(rest: seq<byte>, items: seq<Item>, used: nat, ended: bool)

  /** Chunk after chunk through the ring, until the stream ends. */
  function Run(kind: Kind, acc: seq<byte>, chunks: seq<seq<byte>>): (r: Ran)
    ensures r.used <= |chunks|
    decreases |chunks|
  {
    if |chunks| == 0 then Ran(acc, [], 0, false)
    else
      var d := Drain(kind, Kept(acc + chunks[0]));
      if d.ended then Ran([], d.items, 1, true)
      else
        var r := Run(kind, d.rest, chunks[1..]);
        Ran(r.rest, d.items + r.items, 1 + r.used, r.ended)
  }

  /** At no chunk does the ring have to overwrite. */
  predicate NeverOverwrites(kind: Kind, acc: seq<byte>, chunks: seq<seq<byte>>)
    decreases |chunks|
  {
    |chunks| > 0 ==>
      && |acc| + |chunks[0]| <= CAPACITY
      && (var d := Drain(kind, acc + chunks[0]); !d.ended ==> NeverOverwrites(kind, d.rest, chunks[1..]))
  }

  /** Chunks of at most some length. */
  predicate UpTo(chunks: seq<seq<byte>>, bound: nat) { forall i :: 0 <= i < |chunks| ==> |chunks[i]| <= bound }

  /** The ring keeps what was left and the chunk behind it exactly when both fit. */
  lemma KeepsAllWhen(acc: seq<byte>, chunk: seq<byte>)
    ensures Kept(acc + chunk) == acc + chunk <==> |acc| + |chunk| <= CAPACITY
  {}

  /** Chunks that leave room for an incomplete entry never make the ring overwrite. */
  lemma {:induction false} ShortChunksFit(kind: Kind, acc: seq<byte>, chunks: seq<seq<byte>>)
    requires |acc| <= MaxRest(kind)
    requires UpTo(chunks, CAPACITY - MaxRest(kind))
    ensures NeverOverwrites(kind, acc, chunks)
    decreases |chunks|
  {
    hide Drain;
    if |chunks| > 0 {
      RestIsShort(kind, acc + chunks[0]);
      ShortChunksFit(kind, Drain(kind, acc + chunks[0]).rest, chunks[1..]);
    }
  }

  /** No entry of an unknown type is taken from s, except perhaps from its last byte. */
  predicate AlmostSolid(kind: Kind, s: seq<byte>) { s == [] || Solid(kind, s[..|s| - 1]) }

  lemma SolidIsAlmost(kind: Kind, s: seq<byte>)
    requires Solid(kind, s)
    ensures AlmostSolid(kind, s)
  {
    hide Solid;
    if s != [] {
      assert s[..|s| - 1] + s[|s| - 1..] == s;
      PrefixIsSolid(kind, s[..|s| - 1], s[|s| - 1..]);
    }
  }

  /** However a stream is cut, the entries are those of the whole stream. */
  lemma {:induction false} Segmentation(kind: Kind, acc: seq<byte>, chunks: seq<seq<byte>>)
    requires Drain(kind, acc) == Drained(acc, [], false)
    requires NeverOverwrites(kind, acc, chunks) && AlmostSolid(kind, acc + Joined(chunks))
    ensures var r, d := Run(kind, acc, chunks), Drain(kind, acc + Joined(chunks));
            r.items == d.items && r.ended == d.ended && r.rest == d.rest
    decreases |chunks|
  {
    hide Next, Drain, Solid, AlmostSolid;
    if |chunks| == 0 {
      assert acc + Joined(chunks) == acc;
    } else {
      var first, rest := acc + chunks[0], Joined(chunks[1..]);
      assert first + rest == acc + Joined(chunks);
      KeepsAllWhen(acc, chunks[0]);
      var d := Drain(kind, first);
      RestIsShort(kind, first);
      EndedRest(kind, first);
      CutOff(kind, first, rest);
      if !d.ended {
        Segmentation(kind, d.rest, chunks[1..]);
      }
    }
  }

  /** Draining the front first, whether or not all of the last byte's entry is known. */
  lemma CutOff(kind: Kind, a: seq<byte>, b: seq<byte>)
    requires AlmostSolid(kind, a + b)
    ensures var d := Drain(kind, a);
            && (d.ended ==> Drain(kind, a + b) == d)
            && (!d.ended ==>
                  && AlmostSolid(kind, d.rest + b)
                  && var e := Drain(kind, d.rest + b);
                     Drain(kind, a + b) == Drained(e.rest, d.items + e.items, e.ended))
  {
    hide Drain, Solid, AlmostSolid;
    var d := Drain(kind, a);
    RestIsShort(kind, a);
    if b == [] {
      assert a + b == a && d.rest + b == d.rest;
      SolidIsAlmost(kind, d.rest);
      assert d.items + [] == d.items;
    } else {
      var front := b[..|b| - 1];
      AlmostFront(kind, a, b);
      PrefixIsSolid(kind, a, front);
      DrainJoins(kind, a, b);
      if !d.ended {
        SolidRest(kind, a, front);
        AlmostFront(kind, d.rest, b);
      }
    }
  }

  lemma AlmostFront(kind: Kind, a: seq<byte>, b: seq<byte>)
    requires b != []
    ensures AlmostSolid(kind, a + b) <==> Solid(kind, a + b[..|b| - 1])
  {
    hide Solid;
    assert (a + b)[..|a + b| - 1] == a + b[..|b| - 1];
  }

  lemma EndedRest(kind: Kind, buf: seq<byte>)
    ensures Drain(kind, buf).ended ==> Drain(kind, buf).rest == []
  {}

  /** What follows the entries taken from the front is as solid as the whole. */
  lemma {:induction false} SolidRest(kind: Kind, a: seq<byte>, b: seq<byte>)
    requires Solid(kind, a + b) && !Drain(kind, a).ended
    ensures Solid(kind, Drain(kind, a).rest + b)
    decreases |a|
  {
    hide Next;
    var t := Next(kind, a);
    if t.Take? {
      if t.item.BlockItem? {
        TypeDecides(kind, a, b);
      }
      TurnIsStable(kind, a, b);
      assert (a + b)[t.size..] == a[t.size..] + b;
      SolidRest(kind, a[t.size..], b);
    }
  }

  /** Two ways to cut the same stream give the same entries. */
  lemma SameStreamSameItems(kind: Kind, chunks: seq<seq<byte>>, chunks': seq<seq<byte>>)
    requires Joined(chunks) == Joined(chunks') && AlmostSolid(kind, Joined(chunks))
    requires UpTo(chunks, CAPACITY - MaxRest(kind)) && UpTo(chunks', CAPACITY - MaxRest(kind))
    ensures var r, r' := Run(kind, [], chunks), Run(kind, [], chunks');
            r.items == r'.items && r.ended == r'.ended && r.rest == r'.rest
  {
    hide AlmostSolid;
    assert [] + Joined(chunks) == Joined(chunks);
    assert [] + Joined(chunks') == Joined(chunks');
    ShortChunksFit(kind, [], chunks);
    ShortChunksFit(kind, [], chunks');
    Segmentation(kind, [], chunks);
    Segmentation(kind, [], chunks');
  }

  /** The stream ends with the first chunk that completes the sentinel. */
  lemma {:induction false} EndsWithItsChunk(kind: Kind, acc: seq<byte>, chunks: seq<seq<byte>>)
    requires Drain(kind, acc) == Drained(acc, [], false)
    requires NeverOverwrites(kind, acc, chunks) && Solid(kind, acc + Joined(chunks))
    requires Run(kind, acc, chunks).ended
    ensures var k := Run(kind, acc, chunks).used;
            && 0 < k
            && Drain(kind, acc + Joined(chunks[..k])).ended
            && !Drain(kind, acc + Joined(chunks[..k - 1])).ended
    decreases |chunks|
  {
    hide Drain, Solid;
    var first, rest := acc + chunks[0], Joined(chunks[1..]);
    var k := Run(kind, acc, chunks).used;
    assert first + rest == acc + Joined(chunks);
    KeepsAllWhen(acc, chunks[0]);
    PrefixIsSolid(kind, first, rest);
    if Drain(kind, first).ended {
      assert k == 1;
      assert chunks[..1] == [chunks[0]] && Joined([chunks[0]]) == chunks[0] by {
        assert Joined([chunks[0]]) == chunks[0] + Joined([]);
      }
      assert chunks[..0] == [] && acc + Joined([]) == acc;
    } else {
      var d := Drain(kind, first);
      RestIsShort(kind, first);
      SolidRest(kind, first, rest);
      EndsWithItsChunk(kind, d.rest, chunks[1..]);
      CutAt(kind, acc, chunks, k);
      CutAt(kind, acc, chunks, k - 1);
    }
  }

  lemma CutAt(kind: Kind, acc: seq<byte>, chunks: seq<seq<byte>>, k: nat)
    requires 0 < k <= |chunks| && Solid(kind, acc + Joined(chunks)) && !Drain(kind, acc + chunks[0]).ended
    ensures Drain(kind, acc + Joined(chunks[..k])).ended
       <==> Drain(kind, Drain(kind, acc + chunks[0]).rest + Joined(chunks[1..][..k - 1])).ended
  {
    hide Drain, Solid;
    var first, more := acc + chunks[0], Joined(chunks[1..][..k - 1]);
    assert chunks[..k][1..] == chunks[1..][..k - 1];
    assert first + more == acc + Joined(chunks[..k]);
    JoinedSplit(chunks, k);
    assert acc + Joined(chunks) == first + more + Joined(chunks[k..]);
    PrefixIsSolid(kind, first + more, Joined(chunks[k..]));
    PrefixIsSolid(kind, first, more);
    DrainJoins(kind, first, more);
  }

  // ---- What is taken ----

  lemma {:induction false} FrontierIsSolid(s: seq<byte>)
    ensures Solid(Frontier, s)
    decreases |s|
  {
    if Next(Frontier, s).Take? {
      FrontierIsSolid(s[64..]);
    }
  }

  /** The i-th record of a frontier response. */
  function Record(s: seq<byte>, i: nat): FrontierEntry
    requires 64 * i + 64 <= |s|
  {
    FrontierFields(s[64 * i..64 * i + 64])
  }

  /** An account and then a hash. */
  lemma RecordBytes(s: seq<byte>, i: nat)
    requires 64 * i + 64 <= |s|
    ensures Record(s, i).account == s[64 * i..64 * i + 32] && Record(s, i).frontierHash == s[64 * i + 32..64 * i + 64]
  {}

  /** The items of a frontier response are its records of 64 bytes, up to the first without an account. */
  lemma {:induction false} FrontierRecords(s: seq<byte>)
    ensures var d := Drain(Frontier, s);
            var n := |d.items|;
            && 64 * n <= |s|
            && (forall i :: 0 <= i < n ==> d.items[i] == FrontierItem(Record(s, i)) && !AllZero(Record(s, i).account))
            && (d.ended ==> 64 * n + 64 <= |s| && AllZero(Record(s, n).account))
            && (!d.ended ==> |s| < 64 * n + 64 && d.rest == s[64 * n..])
    decreases |s|
  {
    hide FrontierFields, AllZero;
    if |s| >= 64 && !AllZero(Record(s, 0).account) {
      var t := s[64..];
      OneTurn(Frontier, s);
      FrontierRecords(t);
      hide Drain, Next, Record;
      var items := Drain(Frontier, s).items;
      forall i | 0 <= i < |items|
        ensures items[i] == FrontierItem(Record(s, i)) && !AllZero(Record(s, i).account)
      {
        if i > 0 {
          NextRecord(s, i - 1);
        }
      }
      if Drain(Frontier, s).ended {
        NextRecord(s, |items| - 1);
      }
    }
  }

  lemma NextRecord(s: seq<byte>, i: nat)
    requires 64 * i + 128 <= |s|
    ensures Record(s, i + 1) == Record(s[64..], i)
  {
    assert s[64..][64 * i..64 * i + 64] == s[64 * i + 64..64 * i + 128];
  }

  /** Block entries on the wire. */
  function EncodeAll(es: seq<Entry>): seq<byte> {
    if |es| == 0 then [] else EncodeEntry(es[0]) + EncodeAll(es[1..])
  }

  function BlockItems(es: seq<Entry>): seq<Item> {
    seq(|es|, i requires 0 <= i < |es| => BlockItem(es[i]))
  }

  /** Any blocks a peer sends are taken, all of them and in order; the sentinel ends the stream whatever follows. */
  lemma {:induction false} SentBlocksAreTaken(kind: Kind, es: seq<Entry>, behind: seq<byte>)
    requires kind != Frontier && forall i :: 0 <= i < |es| ==> Proper(es[i])
    ensures Solid(kind, EncodeAll(es) + [NOT_A_BLOCK] + behind)
    ensures Drain(kind, EncodeAll(es) + [NOT_A_BLOCK] + behind) == Drained([], BlockItems(es), true)
    decreases |es|
  {
    hide EncodeEntry, Next, Solid, Drain;
    var s := EncodeAll(es) + [NOT_A_BLOCK] + behind;
    if |es| == 0 {
      SentinelEnds(kind, s);
      assert BlockItems(es) == [];
    } else {
      var rest := EncodeAll(es[1..]) + [NOT_A_BLOCK] + behind;
      var first := EncodeEntry(es[0]);
      ParseEncoded(es[0], rest);
      assert s == first + rest && s[|first|..] == rest;
      NextOfProper(kind, es[0], rest);
      SentBlocksAreTaken(kind, es[1..], behind);
      OneTurn(kind, s);
      StaysSolid(kind, s);
      assert BlockItems(es) == [BlockItem(es[0])] + BlockItems(es[1..]);
    }
  }

  lemma SentinelEnds(kind: Kind, s: seq<byte>)
    requires kind != Frontier && |s| > 0 && s[0] == NOT_A_BLOCK
    ensures Solid(kind, s) && Drain(kind, s) == Drained([], [], true)
  {}

  lemma StaysSolid(kind: Kind, s: seq<byte>)
    requires var t := Next(kind, s);
             t.Take? && t.item.BlockItem? && Known(t.item.entry.blockType) && Solid(kind, s[t.size..])
    ensures Solid(kind, s)
  {
    hide Next;
  }

  lemma NextOfProper(kind: Kind, e: Entry, rest: seq<byte>)
    requires kind != Frontier && Proper(e)
    ensures Next(kind, EncodeEntry(e) + rest) == Take(BlockItem(e), |EncodeEntry(e)|)
    ensures Known(e.blockType)
  {
    hide Encode, Fields;
    ParseEncoded(e, rest);
  }

  /** However a peer's blocks are cut into chunks of up to 3880 bytes, exactly they are taken. */
  lemma SentBlocksInAnyCut(kind: Kind, es: seq<Entry>, behind: seq<byte>, chunks: seq<seq<byte>>)
    requires kind != Frontier && forall i :: 0 <= i < |es| ==> Proper(es[i])
    requires Joined(chunks) == EncodeAll(es) + [NOT_A_BLOCK] + behind
    requires forall i :: 0 <= i < |chunks| ==> |chunks[i]| <= 3880
    ensures Run(kind, [], chunks).items == BlockItems(es) && Run(kind, [], chunks).ended
  {
    hide Solid, EncodeAll, Run;
    SentBlocksAreTaken(kind, es, behind);
    SolidIsAlmost(kind, Joined(chunks));
    ShortChunksFit(kind, [], chunks);
    assert [] + Joined(chunks) == Joined(chunks);
    Segmentation(kind, [], chunks);
  }

  // ---- When the cut matters ----

  /** s in chunks that leave room for an incomplete entry. */
  predicate ShortCut(kind: Kind, s: seq<byte>, chunks: seq<seq<byte>>) {
    Joined(chunks) == s && UpTo(chunks, CAPACITY - MaxRest(kind))
  }

  /** Where the first entry of an unknown type begins: everything before it has been taken. */
  ghost predicate UnknownAt(kind: Kind, s: seq<byte>, p: nat) {
    && kind != Frontier && p < |s| && !Known(s[p]) && s[p] != NOT_A_BLOCK
    && Solid(kind, s[..p]) && Drain(kind, s[..p]).rest == [] && !Drain(kind, s[..p]).ended
  }

  lemma {:induction false} FirstUnknown(kind: Kind, s: seq<byte>) returns (p: nat)
    requires !Solid(kind, s)
    ensures UnknownAt(kind, s, p)
    decreases |s|
  {
    hide Solid, Drain, Next;
    UnsolidTurn(kind, s);
    var t := Next(kind, s);
    if t.item.BlockItem? && !Known(t.item.entry.blockType) {
      p := 0;
      NothingBefore(kind, s);
    } else {
      var q := FirstUnknown(kind, s[t.size..]);
      p := t.size + q;
      assert s[..p] == s[..t.size] + s[t.size..][..q];
      TakenAlone(kind, s);
      TurnIsStable(kind, s[..t.size], s[t.size..][..q]);
      assert s[..p][t.size..] == s[t.size..][..q];
      OneTurn(kind, s[..p]);
      SolidTurn(kind, s[..p]);
    }
  }

  lemma UnsolidTurn(kind: Kind, s: seq<byte>)
    requires !Solid(kind, s)
    ensures var t := Next(kind, s);
            && t.Take? && 0 < t.size <= |s|
            && ((t.item.BlockItem? && !Known(t.item.entry.blockType)) || !Solid(kind, s[t.size..]))
  {}

  lemma SolidTurn(kind: Kind, s: seq<byte>)
    requires var t := Next(kind, s);
             t.Take? && (t.item.BlockItem? ==> Known(t.item.entry.blockType)) && Solid(kind, s[t.size..])
    ensures Solid(kind, s)
  {}

  lemma NothingBefore(kind: Kind, s: seq<byte>)
    requires var t := Next(kind, s); t.Take? && t.item.BlockItem? && !Known(t.item.entry.blockType)
    ensures UnknownAt(kind, s, 0)
  {
    hide Fields, FrontierFields;
    assert s[..0] == [];
  }

  /** An entry on its own is taken as it is in front of others. */
  lemma TakenAlone(kind: Kind, s: seq<byte>)
    requires Next(kind, s).Take? && (Next(kind, s).item.BlockItem? ==> Known(Next(kind, s).item.entry.blockType))
    ensures Next(kind, s[..Next(kind, s).size]) == Next(kind, s)
  {
    hide FrontierFields, Fields, AllZero;
    var n := Next(kind, s).size;
    if kind == Frontier {
      assert s[..n][..64] == s[..64];
    } else {
      assert s[..n][1..][..n - 1] == s[1..][..n - 1];
    }
  }

  /** Byte by byte. */
  function Singles(s: seq<byte>): (chunks: seq<seq<byte>>)
    ensures |chunks| == |s| && forall i :: 0 <= i < |s| ==> chunks[i] == [s[i]]
  {
    seq(|s|, i requires 0 <= i < |s| => [s[i]])
  }

  lemma {:induction false} SinglesJoin(s: seq<byte>)
    ensures Joined(Singles(s)) == s
  {
    if |s| > 0 {
      SinglesJoin(s[1..]);
      assert Singles(s)[1..] == Singles(s[1..]);
    }
  }

  lemma {:induction false} JoinedJoins(a: seq<seq<byte>>, b: seq<seq<byte>>)
    ensures Joined(a + b) == Joined(a) + Joined(b)
    decreases |a|
  {
    if |a| == 0 {
      assert a + b == b;
    } else {
      JoinedJoins(a[1..], b);
      assert (a + b)[1..] == a[1..] + b;
    }
  }

  /** Chunks behind a cut that has left nothing in the ring. */
  lemma {:induction false} RunJoins(kind: Kind, acc: seq<byte>, a: seq<seq<byte>>, b: seq<seq<byte>>)
    requires !Run(kind, acc, a).ended
    ensures Run(kind, acc, a + b).items == Run(kind, acc, a).items + Run(kind, Run(kind, acc, a).rest, b).items
    decreases |a|
  {
    hide Drain, Kept;
    if |a| == 0 {
      assert a + b == b;
    } else {
      assert (a + b)[1..] == a[1..] + b;
      var d := Drain(kind, Kept(acc + a[0]));
      RunJoins(kind, d.rest, a[1..], b);
      var more := Run(kind, Run(kind, d.rest, a[1..]).rest, b);
      assert d.items + (Run(kind, d.rest, a[1..]).items + more.items) ==
             d.items + Run(kind, d.rest, a[1..]).items + more.items;
    }
  }

  /** A chunk that brings an entry of an unknown type with n bytes behind its type makes it an entry of n bytes. */
  lemma UnknownTakesItsChunk(kind: Kind, s: seq<byte>, p: nat, n: nat) returns (chunks: seq<seq<byte>>)
    requires UnknownAt(kind, s, p) && p + 1 + n <= |s| && n < 10
    ensures ShortCut(kind, s, chunks)
    ensures var items, before := Run(kind, [], chunks).items, |Drain(kind, s[..p]).items|;
            |items| > before && items[before] == BlockItem(Entry(s[p], Ignored(s[p + 1..p + 1 + n])))
  {
    hide Drain, Solid, Run, Known, Joined;
    var front, middle, behind := s[..p], s[p..p + 1 + n], s[p + 1 + n..];
    var later := [middle] + Singles(behind);
    chunks := Singles(front) + later;
    SinglesRun(kind, front);
    RunJoins(kind, [], Singles(front), later);
    UnknownDrained(kind, middle);
    FirstChunk(kind, middle, Singles(behind));
    assert middle[1..] == s[p + 1..p + 1 + n];
    SinglesJoin(front);
    JoinedJoins(Singles(front), later);
    LaterJoined(middle, behind);
    assert s == front + (middle + behind);
  }

  lemma LaterJoined(middle: seq<byte>, behind: seq<byte>)
    ensures Joined([middle] + Singles(behind)) == middle + behind
  {
    SinglesJoin(behind);
    assert ([middle] + Singles(behind))[1..] == Singles(behind);
  }

  /** What an empty ring makes of its first chunk comes first. */
  lemma FirstChunk(kind: Kind, chunk: seq<byte>, chunks: seq<seq<byte>>)
    requires |chunk| <= CAPACITY
    ensures Drain(kind, chunk).items <= Run(kind, [], [chunk] + chunks).items
  {
    hide Drain;
    assert [] + chunk == chunk && ([chunk] + chunks)[1..] == chunks;
  }

  lemma SinglesRun(kind: Kind, s: seq<byte>)
    requires Solid(kind, s)
    ensures var r, d := Run(kind, [], Singles(s)), Drain(kind, s);
            r.items == d.items && r.ended == d.ended && r.rest == d.rest
  {
    hide Drain, Solid, Run;
    SinglesJoin(s);
    ShortChunksFit(kind, [], Singles(s));
    assert [] + s == s;
    SolidIsAlmost(kind, s);
    NothingToDrain(kind);
    Segmentation(kind, [], Singles(s));
  }

  lemma NothingToDrain(kind: Kind)
    ensures Drain(kind, []) == Drained([], [], false)
  {}

  lemma UnknownDrained(kind: Kind, s: seq<byte>)
    requires kind != Frontier && |s| > 0 && !Known(s[0]) && s[0] != NOT_A_BLOCK
    ensures var items := Drain(kind, s).items; |items| > 0 && items[0] == BlockItem(Entry(s[0], Ignored(s[1..])))
  {}

  /**
   The entries of a stream do not depend on how it is cut into short chunks if and only if it
   has no entry of an unknown type that begins before its last byte.
   */
  lemma SameInEveryCutWhen(kind: Kind, s: seq<byte>)
    ensures AlmostSolid(kind, s) <==>
            forall a, b :: ShortCut(kind, s, a) && ShortCut(kind, s, b) ==>
                  Run(kind, [], a).items == Run(kind, [], b).items
  {
    hide Run, AlmostSolid, Solid, UnknownAt, Drain;
    if AlmostSolid(kind, s) {
      forall a, b | ShortCut(kind, s, a) && ShortCut(kind, s, b)
        ensures Run(kind, [], a).items == Run(kind, [], b).items
      {
        SameStreamSameItems(kind, a, b);
      }
    } else {
      var p := LateUnknown(kind, s);
      var a := UnknownTakesItsChunk(kind, s, p, 0);
      var b := UnknownTakesItsChunk(kind, s, p, 1);
      var before := |Drain(kind, s[..p]).items|;
      assert |Run(kind, [], a).items[before].entry.block.content| == 0;
      assert |Run(kind, [], b).items[before].entry.block.content| == 1;
    }
  }

  lemma LateUnknown(kind: Kind, s: seq<byte>) returns (p: nat)
    requires !AlmostSolid(kind, s)
    ensures UnknownAt(kind, s, p) && p + 1 < |s|
  {
    hide Solid, Drain;
    p := FirstUnknown(kind, s[..|s| - 1]);
    assert s[..|s| - 1][..p] == s[..p];
  }

  /** The shortest such stream. */
  lemma UnknownTypesDependOnTheCut(kind: Kind)
    requires kind != Frontier
    ensures var s: seq<byte> := [7, 7];
            Joined([s]) == Joined([s[..1], s[1..]]) && Run(kind, [], [s]).items != Run(kind, [], [s[..1], s[1..]]).items
  {
    var s: seq<byte> := [7, 7];
    assert [] + s == s && [] + s[..1] == s[..1];
    assert Joined([s]) == s + Joined([]);
    assert [s[..1], s[1..]][1..] == [s[1..]];
    assert Joined([s[1..]]) == s[1..] + Joined([]);
    assert Run(kind, [], [s]).items == [BlockItem(Entry(7, Ignored(s[1..])))] + Drain(kind, s[2..]).items + [];
    assert Drain(kind, s[..1]).items[0] == BlockItem(Entry(7, Ignored(s[..1][1..])));
    assert Run(kind, [], [s[..1], s[1..]]).items[0] == BlockItem(Entry(7, Ignored(s[..1][1..])));
  }

  /** A chunk of 4034 bytes behind 63 left over loses a byte, and with it the first record. */
  lemma LongChunkLosesRecords()
    ensures var chunks := [Zeros(1)[0 := 1] + Zeros(62), Zeros(4034)[0 := 2]];
            && |chunks[0]| == MaxRest(Frontier) && |chunks[1]| == CAPACITY - MaxRest(Frontier) + 1
            && Run(Frontier, [], chunks).items != Drain(Frontier, Joined(chunks)).items
  {
    var a, b := Zeros(1)[0 := 1] + Zeros(62), Zeros(4034)[0 := 2];
    var chunks := [a, b];
    assert Joined(chunks) == a + b by { assert Joined([b]) == b + []; assert chunks[1..] == [b]; }
    var s := a + b;
    assert !AllZero(s[..64][..32]) by { assert s[..64][..32][0] == 1; }
    assert Next(Frontier, s).Take?;
    assert [] + a == a && Drain(Frontier, a) == Drained(a, [], false);
    assert Kept(a + b) == s[1..];
    assert AllZero(s[1..][..64][..32]);
    assert Next(Frontier, s[1..]).End?;
  }

  /** A chunk of 3881 bytes behind 216 left over loses the type of the block they begin. */
  lemma LongChunkLosesBlocks(kind: Kind)
    requires kind != Frontier
    ensures var chunks := [[STATE] + Zeros(215), Zeros(3881)[1 := NOT_A_BLOCK]];
            && |chunks[0]| == MaxRest(kind) && |chunks[1]| == CAPACITY - MaxRest(kind) + 1
            && Solid(kind, Joined(chunks)) && Run(kind, [], chunks).items != Drain(kind, Joined(chunks)).items
  {
    var a, b := [STATE] + Zeros(215), Zeros(3881)[1 := NOT_A_BLOCK];
    var chunks := [a, b];
    var s := a + b;
    assert Joined(chunks) == s by { assert Joined([b]) == b + []; assert chunks[1..] == [b]; }
    hide Next, Drain, Solid, Known, ParseEntry;
    StateTaken(kind, s);
    assert s[217] == NOT_A_BLOCK;
    SentinelEnds(kind, s[217..]);
    StaysSolid(kind, s);
    OneTurn(kind, s);
    assert Kept(s) == s[1..] && s[1..][0] == 0;
    UnknownDrained(kind, s[1..]);
    TwoChunks(kind, a, b);
  }

  lemma StateTaken(kind: Kind, s: seq<byte>)
    requires kind != Frontier && |s| >= 217 && s[0] == STATE
    ensures var t := Next(kind, s); t.Take? && t.size == 217 && t.item.BlockItem? && t.item.entry.blockType == STATE
    ensures Known(STATE)
  {
    hide Fields;
  }

  /** A state block that lacks its last byte, and a chunk behind it. */
  lemma TwoChunks(kind: Kind, a: seq<byte>, b: seq<byte>)
    requires kind != Frontier && |a| == 216 && a[0] == STATE
    ensures var items := Drain(kind, Kept(a + b)).items; items <= Run(kind, [], [a, b]).items
  {
    assert Next(kind, a).Wait?;
    hide Next;
    OneTurn(kind, a);
    hide Drain;
    assert [] + a == a && Kept(a) == a;
    assert [a, b][1..] == [b];
  }

  /**
   All streams whose entries do not depend on the cut give the entries of the whole stream, in
   chunks of up to some bound, if and only if the bound leaves room for an incomplete entry.
   */
  lemma ChunksOfWhichLength(kind: Kind, bound: nat)
    ensures bound <= CAPACITY - MaxRest(kind) <==>
            forall chunks :: AlmostSolid(kind, Joined(chunks)) && UpTo(chunks, bound) ==>
              Run(kind, [], chunks).items == Drain(kind, Joined(chunks)).items
  {
    hide Run, AlmostSolid, Solid, Drain;
    if bound <= CAPACITY - MaxRest(kind) {
      forall chunks | AlmostSolid(kind, Joined(chunks)) && UpTo(chunks, bound)
        ensures Run(kind, [], chunks).items == Drain(kind, Joined(chunks)).items
      {
        ShortChunksFit(kind, [], chunks);
        NothingToDrain(kind);
        assert [] + Joined(chunks) == Joined(chunks);
        Segmentation(kind, [], chunks);
      }
    } else if kind == Frontier {
      LongChunkLosesRecords();
      var chunks := [Zeros(1)[0 := 1] + Zeros(62), Zeros(4034)[0 := 2]];
      FrontierIsSolid(Joined(chunks));
      SolidIsAlmost(kind, Joined(chunks));
      assert |chunks[0]| <= bound && |chunks[1]| <= bound;
    } else {
      LongChunkLosesBlocks(kind);
      var chunks := [[STATE] + Zeros(215), Zeros(3881)[1 := NOT_A_BLOCK]];
      SolidIsAlmost(kind, Joined(chunks));
      assert |chunks[0]| <= bound && |chunks[1]| <= bound;
    }
  }
}
