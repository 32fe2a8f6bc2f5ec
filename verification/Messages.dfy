/**
 The messages of the node protocol, as nano_t reads them from a chunk of data: an eight-byte
 header and a body that depends on the message type.  A reader that runs out of bytes throws a
 runtime error; the reader of bulk pushes can also throw an out-of-range error, which is not one.
 */
module Messages {
  import opened Bytes
  import opened KStream
  import opened NanoBlocks

  // enum_msgtype_t
  const INVALID: nat := 0
  const NOT_A_TYPE: nat := 1
  const KEEPALIVE: nat := 2
  const PUBLISH: nat := 3
  const CONFIRM_REQ: nat := 4
  const CONFIRM_ACK: nat := 5
  const BULK_PULL: nat := 6
  const BULK_PUSH: nat := 7
  const FRONTIER_REQ: nat := 8
  const BULK_PULL_BLOCKS: nat := 9
  const NODE_ID_HANDSHAKE: nat := 10
  const BULK_PULL_ACCOUNT: nat := 11
  const TELEMETRY_REQ: nat := 12
  const TELEMETRY_ACK: nat := 13

  /** The first byte of every message. */
  const MAGIC: byte := 0x52

  const HEADER: nat := 8

  datatype Header = Header(networkId: byte, versionMax: byte, versionUsing: byte, versionMin: byte,
                           messageType: nat, extensions: nat) {
    function BlockType(): nat { extensions / 0x100 % 0x10 }
    function ItemCount(): nat { extensions / 0x1000 % 0x10 }
    function Bit0(): bool { extensions % 2 == 1 }
    function Bit1(): bool { extensions / 2 % 2 == 1 }
  }

  /** A block behind the type that a header or an entry gives it. */
  datatype Selected = Selected(blockType: nat, block: Block)

  datatype Body =
    | Keepalive(peers: Option<seq<seq<byte>>>)
    | Publish(block: Selected)
    | ConfirmReq(pairs: Option<seq<seq<byte>>>, reqBlock: Option<Selected>)
    | ConfirmAck(common: seq<byte>, hashes: Option<seq<seq<byte>>>, ackBlock: Option<Selected>)
    | BulkPull(start: seq<byte>, end: seq<byte>, extendedCount: Option<nat>)
    | BulkPush(entries: seq<Entry>)
    | FrontierReq(frontierStart: seq<byte>, age: nat, count: nat)
    | BulkPullBlocks(blockType: byte)
    | NodeIdHandshake(query: Option<seq<byte>>, response: Option<seq<byte>>)
    | BulkPullAccount(account: seq<byte>, minimumAmount: seq<byte>, flags: byte)
    | TelemetryReq
    | TelemetryAck(fields: seq<byte>)
    | IgnoredBody

  /** What constructing a nano_t does. */
  datatype Outcome<T> = Parsed(value: T) | RuntimeError | OutOfRange

  datatype Message = Message(header: Header, body: Body)

  function U2le(s: seq<byte>): (n: nat)
    requires |s| == 2
    ensures n < 0x1_0000
  {
    Num(s[0]) + 0x100 * Num(s[1])
  }

  function U4le(s: seq<byte>): (n: nat)
    requires |s| == 4
    ensures n < 0x1_0000_0000
  {
    U2le(s[..2]) + 0x1_0000 * U2le(s[2..])
  }

  /** message_header_t. */
  function ParseHeader(s: seq<byte>): Option<Header> {
    if |s| < HEADER || s[0] != MAGIC then None
    else Some(Header(s[1], s[2], s[3], s[4], Num(s[5]), U2le(s[6..8])))
  }

  /** The lists of equal records: at least one, up to the limit or the end of the data. */
  function Records(s: seq<byte>, size: nat, limit: nat, done: nat): (r: Option<seq<seq<byte>>>)
    requires size > 0
    ensures r.Some? ==> |r.value| > 0 && forall i :: 0 <= i < |r.value| ==> |r.value[i]| == size
    decreases |s|
  {
    if |s| < size then None
    else if done + 1 == limit || |s| == size then Some([s[..size]])
    else
      var more := Records(s[size..], size, limit, done + 1);
      if more.None? then None else Some([s[..size]] + more.value)
  }

  /** The loops over peers, hashes and pairs: a record, and more until the limit is met exactly or the data ends. */
  method ReadRecords(ks: Stream, size: nat, limit: nat) returns (r: Option<seq<seq<byte>>>)
    requires ks.pos <= |ks.data| && size > 0
    modifies ks`pos
    ensures r == Records(ks.data[old(ks.pos)..], size, limit, 0)
  {
    ghost var all := Records(ks.data[ks.pos..], size, limit, 0);
    var records: seq<seq<byte>> := [];
    assert all.Some? ==> records + all.value == all.value;
    var i := 0;
    var done := false;
    while !done
      invariant ks.pos <= |ks.data| && i == |records|
      invariant done ==> all == Some(records)
      invariant !done ==> all == Before(records, Records(ks.data[ks.pos..], size, limit, i))
      decreases |ks.data| - ks.pos, !done
    {
      ghost var rest := ks.data[ks.pos..];
      var record := ks.ReadBytes(size);
      if record.None? {
        return None;
      }
      assert rest[..size] == record.value && rest[size..] == ks.data[ks.pos..];
      BeforeJoins(records, [record.value], Records(rest[size..], size, limit, i + 1));
      records := records + [record.value];
      i := i + 1;
      var eof := ks.IsEof();
      done := i == limit || eof;
    }
    r := Some(records);
  }

  /** Records in front of others, if these could be read. */
  function Before(front: seq<seq<byte>>, more: Option<seq<seq<byte>>>): Option<seq<seq<byte>>> {
    if more.None? then None else Some(front + more.value)
  }

  lemma BeforeJoins(a: seq<seq<byte>>, b: seq<seq<byte>>, more: Option<seq<seq<byte>>>)
    ensures Before(a, Before(b, more)) == Before(a + b, more)
  {
    if more.Some? {
      assert a + (b + more.value) == a + b + more.value;
    }
  }

  /** A list that is absent at the end of the data. */
  function OptionalRecords(s: seq<byte>, size: nat, limit: nat): Outcome<Option<seq<seq<byte>>>>
    requires size > 0
  {
    if |s| == 0 then Parsed(None)
    else
      var r := Records(s, size, limit, 0);
      if r.None? then RuntimeError else Parsed(r)
  }

  /** block_selector_t with the type in the header's extension bits. */
  function ParseSelected(t: nat, s: seq<byte>): Outcome<Selected>
    requires t < 256
  {
    var b := ParseBlock(t as byte, s);
    if b.None? then RuntimeError else Parsed(Selected(t, b.value.0))
  }

  function ParseConfirmReq(h: Header, s: seq<byte>): Outcome<Body> {
    if h.BlockType() == 1 then
      var pairs := OptionalRecords(s, 64, h.ItemCount());
      if pairs.Parsed? then Parsed(ConfirmReq(pairs.value, None)) else RuntimeError
    else
      var b := ParseSelected(h.BlockType(), s);
      if b.Parsed? then Parsed(ConfirmReq(None, Some(b.value))) else RuntimeError
  }

  function ParseConfirmAck(h: Header, s: seq<byte>): Outcome<Body> {
    if |s| < 104 then RuntimeError
    else if h.BlockType() == 1 then
      var hashes := OptionalRecords(s[104..], 32, h.ItemCount());
      if hashes.Parsed? then Parsed(ConfirmAck(s[..104], hashes.value, None)) else RuntimeError
    else
      var b := ParseSelected(h.BlockType(), s[104..]);
      if b.Parsed? then Parsed(ConfirmAck(s[..104], None, Some(b.value))) else RuntimeError
  }

  function ParseBulkPull(h: Header, s: seq<byte>): Outcome<Body> {
    if |s| < 64 then RuntimeError
    else if !h.Bit0() then Parsed(BulkPull(s[..32], s[32..64], None))
    else if |s| < 72 then RuntimeError
    else Parsed(BulkPull(s[..32], s[32..64], Some(U4le(s[65..69]))))
  }

  /** What is read of a bulk push: one entry, and nothing behind it. */
  function ParseBulkPush(s: seq<byte>): Outcome<Body> {
    var e := ParseEntry(s);
    if e.None? then RuntimeError
    else if e.value.1 == |s| then Parsed(BulkPush([e.value.0]))
    else OutOfRange
  }

  /** The checked access to a vector. */
  method At(entries: seq<Entry>, i: nat) returns (r: Outcome<Entry>)
    ensures r == if i < |entries| then Parsed(entries[i]) else OutOfRange
  {
    if i >= |entries| {
      return OutOfRange;
    }
    r := Parsed(entries[i]);
  }

  /** The entry that ends a list. */
  predicate EndsList(next: Outcome<Entry>) { next.Parsed? && next.value.blockType == NOT_A_BLOCK }

  /**
   msg_bulk_push_t: the loop reads an entry, counts it, and then asks whether the entry under
   the new count, which is the one behind it, ends the list, unless the data has ended.
   */
  method ReadBulkPush(ks: Stream) returns (r: Outcome<Body>)
    requires ks.pos <= |ks.data|
    modifies ks`pos
    ensures r == ParseBulkPush(ks.data[old(ks.pos)..])
  {
    hide ParseEntry;
    var entries: seq<Entry> := [];
    var i := 0;
    var done := false;
    while !done
      invariant ks.pos <= |ks.data| && i == |entries|
      invariant !done ==> entries == [] && ks.pos == old(ks.pos)
      invariant done ==> ParseBulkPush(ks.data[old(ks.pos)..]) == Parsed(BulkPush(entries))
      decreases |ks.data| - ks.pos, !done
    {
      var entry := ReadEntry(ks);
      if entry.None? {
        return RuntimeError;
      }
      entries := entries + [entry.value];
      assert entries == [entry.value];
      i := i + 1;
      done := ks.IsEof();
      if !done {
        var next := At(entries, i);
        if next.OutOfRange? {
          return OutOfRange;
        }
        done := EndsList(next);
      }
    }
    r := Parsed(BulkPush(entries));
  }

  function ParseHandshake(h: Header, s: seq<byte>): Outcome<Body> {
    var q := if h.Bit0() then 32 else 0;
    var r := if h.Bit1() then 96 else 0;
    if |s| < q + r then RuntimeError
    else Parsed(NodeIdHandshake(if h.Bit0() then Some(s[..32]) else None,
                                if h.Bit1() then Some(s[q..q + 96]) else None))
  }

  /** A body of one fixed length. */
  function ParseFixed(h: Header, s: seq<byte>): Outcome<Body> {
    if h.messageType == FRONTIER_REQ then
      if |s| < 40 then RuntimeError else Parsed(FrontierReq(s[..32], U4le(s[32..36]), U4le(s[36..40])))
    else if h.messageType == BULK_PULL_BLOCKS then
      if |s| < 1 then RuntimeError else Parsed(BulkPullBlocks(s[0]))
    else if h.messageType == BULK_PULL_ACCOUNT then
      if |s| < 49 then RuntimeError else Parsed(BulkPullAccount(s[..32], s[32..48], s[48]))
    else if h.messageType == TELEMETRY_ACK then
      if |s| < 202 then RuntimeError else Parsed(TelemetryAck(s[..202]))
    else if h.messageType == TELEMETRY_REQ then Parsed(TelemetryReq)
    else Parsed(IgnoredBody)
  }

  function ParseBody(h: Header, s: seq<byte>): Outcome<Body> {
    if h.messageType == CONFIRM_REQ then ParseConfirmReq(h, s)
    else if h.messageType == CONFIRM_ACK then ParseConfirmAck(h, s)
    else if h.messageType == BULK_PULL then ParseBulkPull(h, s)
    else if h.messageType == BULK_PUSH then ParseBulkPush(s)
    else if h.messageType == NODE_ID_HANDSHAKE then ParseHandshake(h, s)
    else if h.messageType == KEEPALIVE then
      var peers := OptionalRecords(s, 18, 8);
      if peers.Parsed? then Parsed(Keepalive(peers.value)) else RuntimeError
    else if h.messageType == PUBLISH then
      var b := ParseSelected(h.BlockType(), s);
      if b.Parsed? then Parsed(Publish(b.value)) else RuntimeError
    else ParseFixed(h, s)
  }

  /** The constructor of nano_t. */
  function Parse(s: seq<byte>): Outcome<Message> {
    var h := ParseHeader(s);
    if h.None? then RuntimeError
    else
      var b := ParseBody(h.value, s[HEADER..]);
      if b.Parsed? then Parsed(Message(h.value, b.value))
      else if b.OutOfRange? then OutOfRange else RuntimeError
  }

  /** The body of a message is the one its type calls for. */
  predicate Matches(m: Message) {
    var t := m.header.messageType;
    match m.body
    case Keepalive(_) => t == KEEPALIVE
    case Publish(_) => t == PUBLISH
    case ConfirmReq(_, _) => t == CONFIRM_REQ
    case ConfirmAck(_, _, _) => t == CONFIRM_ACK
    case BulkPull(_, _, _) => t == BULK_PULL
    case BulkPush(_) => t == BULK_PUSH
    case FrontierReq(_, _, _) => t == FRONTIER_REQ
    case BulkPullBlocks(_) => t == BULK_PULL_BLOCKS
    case NodeIdHandshake(_, _) => t == NODE_ID_HANDSHAKE
    case BulkPullAccount(_, _, _) => t == BULK_PULL_ACCOUNT
    case TelemetryReq => t == TELEMETRY_REQ
    case TelemetryAck(_) => t == TELEMETRY_ACK
    case IgnoredBody => t == INVALID || t == NOT_A_TYPE || t > TELEMETRY_ACK
  }

  /** So the downcast of the body by message type in the dispatch is safe. */
  lemma ParsedMatches(s: seq<byte>)
    requires Parse(s).Parsed?
    ensures Matches(Parse(s).value)
  {
    hide Records, ParseBlock, ParseEntry, U2le, U4le, Num;
    var h := ParseHeader(s).value;
    assert h.messageType == Num(s[5]);
  }

  /** A bulk push is recognised exactly when one entry takes up all of the data behind the header. */
  lemma BulkPushParsesWhen(s: seq<byte>)
    requires ParseHeader(s).Some? && ParseHeader(s).value.messageType == BULK_PUSH
    ensures Parse(s).Parsed? <==> ParseEntry(s[HEADER..]).Some? && ParseEntry(s[HEADER..]).value.1 == |s| - HEADER
    ensures Parse(s).OutOfRange? <==> ParseEntry(s[HEADER..]).Some? && ParseEntry(s[HEADER..]).value.1 < |s| - HEADER
  {
    hide ParseEntry, U2le, Num;
  }

  /** In particular the message on its own, without an entry, never starts a bulk push. */
  lemma BareBulkPushThrows(s: seq<byte>)
    requires |s| == HEADER && ParseHeader(s).Some? && ParseHeader(s).value.messageType == BULK_PUSH
    ensures Parse(s) == RuntimeError
  {
    hide ParseHeader;
    assert s[HEADER..] == [];
  }
}
