/**
 The readers of blocks and of the entries of bootstrap streams.  Each reader takes its fields
 off the stream one by one; it is proved against a description of the wire format, and the
 format is proved to be self-delimiting: an entry is decoded the same whatever follows it, and
 no proper prefix of an entry decodes.
 */
module NanoBlocks {
  import opened Bytes
  import opened KStream

  // enum_blocktype_t
  const NOT_A_BLOCK: byte := 1
  const SEND: byte := 2
  const RECEIVE: byte := 3
  const OPEN: byte := 4
  const CHANGE: byte := 5
  const STATE: byte := 6

  datatype Block =
    | Send(previous: seq<byte>, destination: seq<byte>, balance: seq<byte>, signature: seq<byte>, work: bv64)
    | Receive(previous: seq<byte>, source: seq<byte>, signature: seq<byte>, work: bv64)
    | Open(source: seq<byte>, representative: seq<byte>, account: seq<byte>, signature: seq<byte>, work: bv64)
    | Change(previous: seq<byte>, representative: seq<byte>, signature: seq<byte>, work: bv64)
    | State(account: seq<byte>, previous: seq<byte>, representative: seq<byte>, balance: seq<byte>, link: seq<byte>,
            signature: seq<byte>, work: bv64)
      /** What a selector for any other type holds: everything up to the end. */
    | Ignored(content: seq<byte>)

  /** An entry of a bulk_pull response or of a bulk_push. */
  datatype Entry = Entry(blockType: byte, block: Block)

  predicate Known(t: byte) { t == SEND || t == RECEIVE || t == OPEN || t == CHANGE || t == STATE }

  /** The length of a block of a known type on the wire. */
  function Size(t: byte): (n: nat)
    requires Known(t)
    ensures 136 <= n <= 216
  {
    if t == SEND then 152 else if t == OPEN then 168 else if t == STATE then 216 else 136
  }

  /** The type that selects a block's reader. */
  function TypeOf(b: Block): byte
    requires !b.Ignored?
  {
    match b
    case Send(_, _, _, _, _) => SEND
    case Receive(_, _, _, _) => RECEIVE
    case Open(_, _, _, _, _) => OPEN
    case Change(_, _, _, _) => CHANGE
    case State(_, _, _, _, _, _, _) => STATE
  }

  predicate WellFormed(b: Block) {
    match b
    case Send(p, d, bal, s, _) => |p| == 32 && |d| == 32 && |bal| == 16 && |s| == 64
    case Receive(p, src, s, _) => |p| == 32 && |src| == 32 && |s| == 64
    case Open(src, r, a, s, _) => |src| == 32 && |r| == 32 && |a| == 32 && |s| == 64
    case Change(p, r, s, _) => |p| == 32 && |r| == 32 && |s| == 64
    case State(a, p, r, bal, l, s, _) => |a| == 32 && |p| == 32 && |r| == 32 && |bal| == 16 && |l| == 32 && |s| == 64
    case Ignored(_) => true
  }

  /** A block on the wire; the work of a state block is the only big-endian number. */
  function Encode(b: Block): seq<byte> {
    match b
    case Send(p, d, bal, s, w) => p + d + bal + s + Store64(w)
    case Receive(p, src, s, w) => p + src + s + Store64(w)
    case Open(src, r, a, s, w) => src + r + a + s + Store64(w)
    case Change(p, r, s, w) => p + r + s + Store64(w)
    case State(a, p, r, bal, l, s, w) => a + p + r + bal + l + s + Swapped(Store64(w))
    case Ignored(c) => c
  }

  /** n bytes of s from position i. */
  function Part(s: seq<byte>, i: nat, n: nat): (p: seq<byte>)
    requires i + n <= |s|
    ensures |p| == n
  {
    s[i..i + n]
  }

  /** The block of a known type in its bytes. */
  function Fields(t: byte, s: seq<byte>): (b: Block)
    requires Known(t) && |s| == Size(t)
    ensures WellFormed(b) && !b.Ignored? && TypeOf(b) == t
  {
    if t == SEND then Send(Part(s, 0, 32), Part(s, 32, 32), Part(s, 64, 16), Part(s, 80, 64), Load64(Part(s, 144, 8)))
    else if t == RECEIVE then Receive(Part(s, 0, 32), Part(s, 32, 32), Part(s, 64, 64), Load64(Part(s, 128, 8)))
    else if t == OPEN then
           Open(Part(s, 0, 32), Part(s, 32, 32), Part(s, 64, 32), Part(s, 96, 64), Load64(Part(s, 160, 8)))
    else if t == CHANGE then Change(Part(s, 0, 32), Part(s, 32, 32), Part(s, 64, 64), Load64(Part(s, 128, 8)))
    else State(Part(s, 0, 32), Part(s, 32, 32), Part(s, 64, 32), Part(s, 96, 16), Part(s, 112, 32), Part(s, 144, 64),
               Load64(Swapped(Part(s, 208, 8))))
  }

  /** What block_selector_t reads from s, and how many bytes of it; None when it throws. */
  function ParseBlock(t: byte, s: seq<byte>): (r: Option<(Block, nat)>)
    ensures r.Some? ==> r.value.1 <= |s|
    ensures r.Some? ==> (r.value.0.Ignored? <==> !Known(t)) && (Known(t) ==> TypeOf(r.value.0) == t)
  {
    if !Known(t) then Some((Ignored(s), |s|))
    else if |s| < Size(t) then None
    else Some((Fields(t, s[..Size(t)]), Size(t)))
  }

  /** What the constructors of bulk_pull_entry_t and bulk_push_entry_t read. */
  function ParseEntry(s: seq<byte>): (r: Option<(Entry, nat)>)
    ensures r.Some? ==> 0 < r.value.1 <= |s|
  {
    if |s| == 0 then None
    else
      var b := ParseBlock(s[0], s[1..]);
      if b.None? then None else Some((Entry(s[0], b.value.0), 1 + b.value.1))
  }

  function EncodeEntry(e: Entry): seq<byte> { [e.blockType] + Encode(e.block) }

  /** An entry whose type is one of the five and names its block. */
  predicate Proper(e: Entry) { !e.block.Ignored? && WellFormed(e.block) && e.blockType == TypeOf(e.block) }

  // ---- The wire format ----

  lemma EncodedSize(b: Block)
    requires WellFormed(b) && !b.Ignored?
    ensures |Encode(b)| == Size(TypeOf(b)) && Known(TypeOf(b))
  {
    hide Store64;
  }

  /** Encoding undoes decoding: every byte of a block is in its fields. */
  lemma EncodeFields(t: byte, s: seq<byte>)
    requires Known(t) && |s| == Size(t)
    ensures Encode(Fields(t, s)) == s
  {
    if t == STATE {
      EncodeFieldsOfState(s);
    } else {
      EncodeFieldsOfOthers(t, s);
    }
  }

  lemma EncodeFieldsOfState(s: seq<byte>)
    requires |s| == Size(STATE)
    ensures Encode(Fields(STATE, s)) == s
  {
    hide Load64, Store64;
    var last := Part(s, |s| - 8, 8);
    StoreLoad64(Swapped(last));
    assert Swapped(Swapped(last)) == last;
  }

  lemma EncodeFieldsOfOthers(t: byte, s: seq<byte>)
    requires Known(t) && t != STATE && |s| == Size(t)
    ensures Encode(Fields(t, s)) == s
  {
    hide Load64, Store64;
    StoreLoad64(Part(s, |s| - 8, 8));
  }

  /** Decoding undoes encoding. */
  lemma FieldsEncode(b: Block)
    requires WellFormed(b) && !b.Ignored?
    ensures Known(TypeOf(b)) && |Encode(b)| == Size(TypeOf(b)) && Fields(TypeOf(b), Encode(b)) == b
  {
    EncodedSize(b);
    if b.State? {
      FieldsEncodeOfState(b);
    } else {
      FieldsEncodeOfOthers(b);
    }
  }

  lemma FieldsEncodeOfState(b: Block)
    requires WellFormed(b) && b.State? && |Encode(b)| == Size(STATE)
    ensures Fields(STATE, Encode(b)) == b
  {
    hide Load64, Store64;
    LoadStore64(b.work);
    assert Swapped(Part(Encode(b), 208, 8)) == Store64(b.work);
  }

  lemma FieldsEncodeOfOthers(b: Block)
    requires WellFormed(b) && !b.Ignored? && !b.State? && |Encode(b)| == Size(TypeOf(b))
    ensures Fields(TypeOf(b), Encode(b)) == b
  {
    hide Load64, Store64;
    LoadStore64(b.work);
    assert Part(Encode(b), |Encode(b)| - 8, 8) == Store64(b.work);
  }

  /** Decoding an encoded entry returns it and its length, whatever comes behind. */
  lemma ParseEncoded(e: Entry, rest: seq<byte>)
    requires Proper(e)
    ensures ParseEntry(EncodeEntry(e) + rest) == Some((e, |EncodeEntry(e)|))
    ensures 137 <= |EncodeEntry(e)| <= 217
  {
    hide Encode, Fields;
    FieldsEncode(e.block);
    var s := EncodeEntry(e) + rest;
    assert s[1..][..Size(e.blockType)] == Encode(e.block);
  }

  /** A decoded entry of a known type is its bytes, and nothing else decodes to it. */
  lemma ParsedIsEncoded(s: seq<byte>)
    requires ParseEntry(s).Some? && Known(s[0])
    ensures var r := ParseEntry(s).value;
            Proper(r.0) && EncodeEntry(r.0) == s[..r.1]
  {
    hide Encode, Fields;
    EncodeFields(s[0], s[1..][..Size(s[0])]);
    assert s[..1 + Size(s[0])] == [s[0]] + s[1..][..Size(s[0])];
  }

  /** Bytes that arrive later do not change an entry that has been read. */
  lemma ParseIsStable(s: seq<byte>, more: seq<byte>)
    requires ParseEntry(s).Some? && Known(s[0])
    ensures ParseEntry(s + more) == ParseEntry(s)
  {
    hide Fields;
    assert (s + more)[1..][..Size(s[0])] == s[1..][..Size(s[0])];
  }

  /** A proper prefix of an entry does not decode, so the reader waits. */
  lemma PrefixFails(s: seq<byte>, k: nat)
    requires ParseEntry(s).Some? && Known(s[0]) && k < ParseEntry(s).value.1
    ensures ParseEntry(s[..k]).None?
  {}

  // ---- The readers ----

  /** ks is past a block that ParseBlock finds at position p; r is what the reader returns. */
  ghost predicate Reads(ks: Stream, p: nat, t: byte, r: Option<Block>)
    reads ks
  {
    && p <= ks.pos <= |ks.data|
    && (var b := ParseBlock(t, ks.data[p..]);
        if b.None? then r.None? else r == Some(b.value.0) && ks.pos == p + b.value.1)
  }

  lemma PartOfRest(data: seq<byte>, p: nat, size: nat, i: nat, n: nat)
    requires p + size <= |data| && i + n <= size
    ensures Part(data[p..][..size], i, n) == data[p + i..p + i + n]
  {}

  method ReadSend(ks: Stream) returns (r: Option<Block>)
    requires ks.pos <= |ks.data|
    modifies ks`pos
    ensures Reads(ks, old(ks.pos), SEND, r)
  {
    hide Part, Load64;
    ghost var p := ks.pos;
    var previous := ks.ReadBytes(32);
    if previous.None? { return None; }
    var destination := ks.ReadBytes(32);
    if destination.None? { return None; }
    var balance := ks.ReadBytes(16);
    if balance.None? { return None; }
    var signature := ks.ReadBytes(64);
    if signature.None? { return None; }
    var work := ks.ReadU8le();
    if work.None? { return None; }
    PartOfRest(ks.data, p, 152, 0, 32);
    PartOfRest(ks.data, p, 152, 32, 32);
    PartOfRest(ks.data, p, 152, 64, 16);
    PartOfRest(ks.data, p, 152, 80, 64);
    PartOfRest(ks.data, p, 152, 144, 8);
    r := Some(Send(previous.value, destination.value, balance.value, signature.value, work.value));
  }

  method ReadReceive(ks: Stream) returns (r: Option<Block>)
    requires ks.pos <= |ks.data|
    modifies ks`pos
    ensures Reads(ks, old(ks.pos), RECEIVE, r)
  {
    hide Part, Load64;
    ghost var p := ks.pos;
    var previous := ks.ReadBytes(32);
    if previous.None? { return None; }
    var source := ks.ReadBytes(32);
    if source.None? { return None; }
    var signature := ks.ReadBytes(64);
    if signature.None? { return None; }
    var work := ks.ReadU8le();
    if work.None? { return None; }
    PartOfRest(ks.data, p, 136, 0, 32);
    PartOfRest(ks.data, p, 136, 32, 32);
    PartOfRest(ks.data, p, 136, 64, 64);
    PartOfRest(ks.data, p, 136, 128, 8);
    r := Some(Receive(previous.value, source.value, signature.value, work.value));
  }

  method ReadOpen(ks: Stream) returns (r: Option<Block>)
    requires ks.pos <= |ks.data|
    modifies ks`pos
    ensures Reads(ks, old(ks.pos), OPEN, r)
  {
    hide Part, Load64;
    ghost var p := ks.pos;
    var source := ks.ReadBytes(32);
    if source.None? { return None; }
    var representative := ks.ReadBytes(32);
    if representative.None? { return None; }
    var account := ks.ReadBytes(32);
    if account.None? { return None; }
    var signature := ks.ReadBytes(64);
    if signature.None? { return None; }
    var work := ks.ReadU8le();
    if work.None? { return None; }
    PartOfRest(ks.data, p, 168, 0, 32);
    PartOfRest(ks.data, p, 168, 32, 32);
    PartOfRest(ks.data, p, 168, 64, 32);
    PartOfRest(ks.data, p, 168, 96, 64);
    PartOfRest(ks.data, p, 168, 160, 8);
    r := Some(Open(source.value, representative.value, account.value, signature.value, work.value));
  }

  method ReadChange(ks: Stream) returns (r: Option<Block>)
    requires ks.pos <= |ks.data|
    modifies ks`pos
    ensures Reads(ks, old(ks.pos), CHANGE, r)
  {
    hide Part, Load64;
    ghost var p := ks.pos;
    var previous := ks.ReadBytes(32);
    if previous.None? { return None; }
    var representative := ks.ReadBytes(32);
    if representative.None? { return None; }
    var signature := ks.ReadBytes(64);
    if signature.None? { return None; }
    var work := ks.ReadU8le();
    if work.None? { return None; }
    PartOfRest(ks.data, p, 136, 0, 32);
    PartOfRest(ks.data, p, 136, 32, 32);
    PartOfRest(ks.data, p, 136, 64, 64);
    PartOfRest(ks.data, p, 136, 128, 8);
    r := Some(Change(previous.value, representative.value, signature.value, work.value));
  }

  method ReadState(ks: Stream) returns (r: Option<Block>)
    requires ks.pos <= |ks.data|
    modifies ks`pos
    ensures Reads(ks, old(ks.pos), STATE, r)
  {
    hide Part, Load64;
    ghost var p := ks.pos;
    var account := ks.ReadBytes(32);
    if account.None? { return None; }
    var previous := ks.ReadBytes(32);
    if previous.None? { return None; }
    var representative := ks.ReadBytes(32);
    if representative.None? { return None; }
    var balance := ks.ReadBytes(16);
    if balance.None? { return None; }
    var link := ks.ReadBytes(32);
    if link.None? { return None; }
    var signature := ks.ReadBytes(64);
    if signature.None? { return None; }
    var work := ks.ReadU8be();
    if work.None? { return None; }
    PartOfRest(ks.data, p, 216, 0, 32);
    PartOfRest(ks.data, p, 216, 32, 32);
    PartOfRest(ks.data, p, 216, 64, 32);
    PartOfRest(ks.data, p, 216, 96, 16);
    PartOfRest(ks.data, p, 216, 112, 32);
    PartOfRest(ks.data, p, 216, 144, 64);
    PartOfRest(ks.data, p, 216, 208, 8);
    r := Some(State(account.value, previous.value, representative.value, balance.value, link.value, signature.value,
                    work.value));
  }

  /** ignore_until_eof_t. */
  method IgnoreUntilEof(ks: Stream) returns (content: seq<byte>)
    requires ks.pos <= |ks.data|
    modifies ks`pos
    ensures content == ks.data[old(ks.pos)..] && ks.pos == |ks.data|
  {
    content := [];
    var eof := ks.IsEof();
    while !eof
      invariant old(ks.pos) <= ks.pos <= |ks.data| && (eof <==> ks.pos == |ks.data|)
      invariant content == ks.data[old(ks.pos)..ks.pos]
      decreases |ks.data| - ks.pos
    {
      var b := ks.ReadU1();
      content := content + [b.value];
      eof := ks.IsEof();
    }
  }

  /** block_selector_t. */
  method ReadBlock(t: byte, ks: Stream) returns (r: Option<Block>)
    requires ks.pos <= |ks.data|
    modifies ks`pos
    ensures Reads(ks, old(ks.pos), t, r)
  {
    hide Fields;
    if t == RECEIVE {
      r := ReadReceive(ks);
    } else if t == CHANGE {
      r := ReadChange(ks);
    } else if t == STATE {
      r := ReadState(ks);
    } else if t == OPEN {
      r := ReadOpen(ks);
    } else if t == SEND {
      r := ReadSend(ks);
    } else {
      var content := IgnoreUntilEof(ks);
      r := Some(Ignored(content));
    }
  }

  /** bulk_pull_entry_t and bulk_push_entry_t. */
  method ReadEntry(ks: Stream) returns (r: Option<Entry>)
    requires ks.pos <= |ks.data|
    modifies ks`pos
    ensures ks.pos <= |ks.data|
    ensures var e := ParseEntry(ks.data[old(ks.pos)..]);
            if e.None? then r.None? else r == Some(e.value.0) && ks.pos == old(ks.pos) + e.value.1
  {
    hide Fields;
    ghost var s := ks.data[ks.pos..];
    var t := ks.ReadU1();
    if t.None? {
      return None;
    }
    assert s[0] == t.value && s[1..] == ks.data[ks.pos..];
    var b := ReadBlock(t.value, ks);
    r := if b.None? then None else Some(Entry(t.value, b.value));
  }

  // ---- Frontier entries ----

  /** An entry of a frontier response. */
  datatype FrontierEntry = FrontierEntry(account: seq<byte>, frontierHash: seq<byte>)

  function FrontierFields(s: seq<byte>): FrontierEntry
    requires |s| == 64
  {
    FrontierEntry(s[..32], s[32..])
  }

  /** frontier_entry_t. */
  method ReadFrontierEntry(ks: Stream) returns (r: Option<FrontierEntry>)
    requires ks.pos <= |ks.data|
    modifies ks`pos
    ensures r == if old(ks.pos) + 64 <= |ks.data|
                 then Some(FrontierFields(ks.data[old(ks.pos)..old(ks.pos) + 64])) else None
    ensures ks.pos == if r.Some? then old(ks.pos) + 64 else |ks.data|
  {
    var account := ks.ReadBytes(32);
    if account.None? { return None; }
    var hash := ks.ReadBytes(32);
    if hash.None? { return None; }
    ghost var s := ks.data[old(ks.pos)..old(ks.pos) + 64];
    assert s[..32] == account.value && s[32..] == hash.value;
    r := Some(FrontierEntry(account.value, hash.value));
  }
}
