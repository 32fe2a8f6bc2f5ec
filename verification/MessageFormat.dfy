/**
 The wire format of messages, written down independently of the reader: every message that fits
 the protocol is read back as itself from its bytes, and only such messages are ever read.
 */
module MessageFormat {
  import opened Bytes
  import opened Division
  import opened KStream
  import opened Messages
  import opened NanoBlocks
  import Streams

  /** n in k bytes, least significant first. */
  function LittleEndianBytes(n: nat, k: nat): (s: seq<byte>)
    ensures |s| == k
  {
    if k == 0 then [] else [(n % 256) as byte] + LittleEndianBytes(n / 256, k - 1)
  }

  function EncodeHeader(h: Header): seq<byte>
    requires h.messageType < 256
  {
    [MAGIC, h.networkId, h.versionMax, h.versionUsing, h.versionMin, h.messageType as byte] +
    LittleEndianBytes(h.extensions, 2)
  }

  function EncodeList(records: Option<seq<seq<byte>>>): seq<byte> {
    if records.None? then [] else Joined(records.value)
  }

  function EncodeSelected(s: Option<Selected>): seq<byte> { if s.None? then [] else Encode(s.value.block) }

  function OrNothing(s: Option<seq<byte>>): seq<byte> { if s.None? then [] else s.value }

  function EncodeBody(b: Body): seq<byte> {
    match b
    case Keepalive(peers) => EncodeList(peers)
    case Publish(block) => Encode(block.block)
    case ConfirmReq(pairs, block) => EncodeList(pairs) + EncodeSelected(block)
    case ConfirmAck(common, hashes, block) => common + EncodeList(hashes) + EncodeSelected(block)
    case BulkPull(start, end, count) =>
      start + end + if count.None? then [] else [0] + LittleEndianBytes(count.value, 4) + [0, 0, 0]
    case BulkPush(entries) => if entries == [] then [] else EncodeEntry(entries[0])
    case FrontierReq(start, age, count) => start + LittleEndianBytes(age, 4) + LittleEndianBytes(count, 4)
    case BulkPullBlocks(t) => [t]
    case NodeIdHandshake(query, response) => OrNothing(query) + OrNothing(response)
    case BulkPullAccount(account, amount, flags) => account + amount + [flags]
    case TelemetryReq => []
    case TelemetryAck(fields) => fields
    case IgnoredBody => []
  }

  function EncodeMessage(m: Message): seq<byte>
    requires m.header.messageType < 256
  {
    EncodeHeader(m.header) + EncodeBody(m.body)
  }

  // ---- The messages of the protocol ----

  /** No list, or one of records of one size, not longer than the limit; a limit of zero is none. */
  predicate ListFits(records: Option<seq<seq<byte>>>, size: nat, limit: nat) {
    records.Some? ==>
      0 < |records.value| && (limit == 0 || |records.value| <= limit) &&
      forall i :: 0 <= i < |records.value| ==> |records.value[i]| == size
  }

  /** A block of the type given, or anything at all for an unknown type. */
  predicate BlockFits(t: nat, b: Block) {
    t < 256 && if Known(t as byte) then !b.Ignored? && WellFormed(b) && TypeOf(b) == t as byte else b.Ignored?
  }

  predicate SelectedFits(t: nat, s: Selected) { s.blockType == t && BlockFits(t, s.block) }

  predicate BodyFits(h: Header, b: Body) {
    match b
    case Keepalive(peers) => ListFits(peers, 18, 8)
    case Publish(block) => SelectedFits(h.BlockType(), block)
    case ConfirmReq(pairs, block) =>
      if h.BlockType() == 1 then block.None? && ListFits(pairs, 64, h.ItemCount())
      else pairs.None? && block.Some? && SelectedFits(h.BlockType(), block.value)
    case ConfirmAck(common, hashes, block) =>
      |common| == 104 &&
      if h.BlockType() == 1 then block.None? && ListFits(hashes, 32, h.ItemCount())
      else hashes.None? && block.Some? && SelectedFits(h.BlockType(), block.value)
    case BulkPull(start, end, count) =>
      |start| == 32 && |end| == 32 && (count.Some? <==> h.Bit0()) && (count.Some? ==> count.value < 0x1_0000_0000)
    case BulkPush(entries) => |entries| == 1 && BlockFits(Num(entries[0].blockType), entries[0].block)
    case FrontierReq(start, age, count) => |start| == 32 && age < 0x1_0000_0000 && count < 0x1_0000_0000
    case BulkPullBlocks(_) => true
    case NodeIdHandshake(query, response) =>
      && (query.Some? <==> h.Bit0()) && (query.Some? ==> |query.value| == 32)
      && (response.Some? <==> h.Bit1()) && (response.Some? ==> |response.value| == 96)
    case BulkPullAccount(account, amount, _) => |account| == 32 && |amount| == 16
    case TelemetryReq => true
    case TelemetryAck(fields) => |fields| == 202
    case IgnoredBody => true
  }

  predicate MessageFits(m: Message) {
    m.header.messageType < 256 && m.header.extensions < 0x1_0000 && Matches(m) && BodyFits(m.header, m.body)
  }

  // ---- Reading what was written ----

  lemma NumBack(n: nat)
    requires n < 256
    ensures Num(n as byte) == n
  {}

  lemma TwoBytesBack(n: nat)
    requires n < 0x1_0000
    ensures U2le(LittleEndianBytes(n, 2)) == n
  {
    NumBack(n % 256);
    NumBack(n / 256);
    hide Num;
    assert LittleEndianBytes(n, 2) == [(n % 256) as byte] + LittleEndianBytes(n / 256, 1);
    assert LittleEndianBytes(n / 256, 1) == [(n / 256 % 256) as byte] + LittleEndianBytes(n / 256 / 256, 0);
  }

  lemma FourBytesBack(n: nat)
    requires n < 0x1_0000_0000
    ensures U4le(LittleEndianBytes(n, 4)) == n
  {
    hide U2le, LittleEndianBytes;
    var s := LittleEndianBytes(n, 4);
    TwoBytesBack(n % 0x1_0000);
    TwoBytesBack(n / 0x1_0000);
    TwoAndTwoBytes(n);
  }

  lemma TwoAndTwoBytes(n: nat)
    ensures LittleEndianBytes(n, 4) == LittleEndianBytes(n % 0x1_0000, 2) + LittleEndianBytes(n / 0x1_0000, 2)
  {
    FirstTwoBytes(n, 2);
    FirstTwoBytes(n % 0x1_0000, 0);
    NoBytes(n % 0x1_0000 / 256 / 256);
    hide LittleEndianBytes;
    SameBytes(n);
  }

  lemma NoBytes(n: nat)
    ensures LittleEndianBytes(n, 0) == []
  {}

  lemma SameBytes(n: nat)
    ensures n % 0x1_0000 % 256 == n % 256 && n % 0x1_0000 / 256 % 256 == n / 256 % 256 && n / 256 / 256 == n / 0x1_0000
  {
    var q, r := n / 0x1_0000, n % 0x1_0000;
    Residue(n, 256, 256 * q + r / 256, r % 256);
    Residue(256 * q + r / 256, 256, q, r / 256);
  }

  lemma FirstTwoBytes(n: nat, k: nat)
    ensures LittleEndianBytes(n, k + 2) ==
            [(n % 256) as byte, (n / 256 % 256) as byte] + LittleEndianBytes(n / 256 / 256, k)
  {
    assert LittleEndianBytes(n, k + 2) == [(n % 256) as byte] + LittleEndianBytes(n / 256, k + 1);
    assert LittleEndianBytes(n / 256, k + 1) == [(n / 256 % 256) as byte] + LittleEndianBytes(n / 256 / 256, k);
  }

  lemma HeaderBack(h: Header, rest: seq<byte>)
    requires h.messageType < 256 && h.extensions < 0x1_0000
    ensures |EncodeHeader(h)| == HEADER && ParseHeader(EncodeHeader(h) + rest) == Some(h)
  {
    NumBack(h.messageType);
    TwoBytesBack(h.extensions);
    hide Num, U2le, LittleEndianBytes;
    var s := EncodeHeader(h) + rest;
    assert s[6..8] == LittleEndianBytes(h.extensions, 2);
  }

  lemma {:induction false} RecordsBack(rs: seq<seq<byte>>, size: nat, limit: nat, done: nat)
    requires size > 0 && |rs| > 0 && forall i :: 0 <= i < |rs| ==> |rs[i]| == size
    requires limit == 0 || done + |rs| <= limit
    ensures Records(Joined(rs), size, limit, done) == Some(rs)
    ensures |Joined(rs)| >= size
    decreases |rs|
  {
    var s := Joined(rs);
    assert s == rs[0] + Joined(rs[1..]);
    assert s[..size] == rs[0] && s[size..] == Joined(rs[1..]);
    if |rs| == 1 {
      assert rs == [rs[0]] && Joined(rs[1..]) == [];
    } else {
      RecordsBack(rs[1..], size, limit, done + 1);
      assert rs == [rs[0]] + rs[1..];
    }
  }

  lemma ListBack(records: Option<seq<seq<byte>>>, size: nat, limit: nat)
    requires size > 0 && ListFits(records, size, limit)
    ensures OptionalRecords(EncodeList(records), size, limit) == Parsed(records)
  {
    hide Records, Joined;
    if records.Some? {
      RecordsBack(records.value, size, limit, 0);
    }
  }

  lemma SelectedBack(t: nat, s: Selected)
    requires SelectedFits(t, s)
    ensures ParseSelected(t, Encode(s.block)) == Parsed(s)
  {
    hide Encode, NanoBlocks.Fields;
    if Known(t as byte) {
      FieldsEncode(s.block);
      assert Encode(s.block)[..Size(t as byte)] == Encode(s.block);
    } else {
      IgnoredEncode(s.block);
    }
  }

  lemma IgnoredEncode(b: Block)
    requires b.Ignored?
    ensures Encode(b) == b.content
  {}

  lemma EntryBack(e: Entry)
    requires BlockFits(Num(e.blockType), e.block)
    ensures ParseBulkPush(EncodeEntry(e)) == Parsed(BulkPush([e]))
  {
    hide Encode, NanoBlocks.Fields, ParseEntry;
    assert Num(e.blockType) as byte == e.blockType;
    if Known(e.blockType) {
      ParseEncoded(e, []);
      assert EncodeEntry(e) + [] == EncodeEntry(e);
    } else {
      IgnoredEntryBack(e);
    }
  }

  lemma IgnoredEntryBack(e: Entry)
    requires !Known(e.blockType) && e.block.Ignored?
    ensures ParseEntry(EncodeEntry(e)) == Some((e, |EncodeEntry(e)|))
  {
    IgnoredEncode(e.block);
  }

  lemma ConfirmBack(h: Header, b: Body)
    requires b.ConfirmReq? || b.ConfirmAck?
    requires BodyFits(h, b)
    ensures b.ConfirmReq? ==> ParseConfirmReq(h, EncodeBody(b)) == Parsed(b)
    ensures b.ConfirmAck? ==> ParseConfirmAck(h, EncodeBody(b)) == Parsed(b)
  {
    hide OptionalRecords, ParseSelected, ListFits, SelectedFits, Header.BlockType, Header.ItemCount, Encode, Joined;
    var records := if b.ConfirmReq? then b.pairs else b.hashes;
    var block := if b.ConfirmReq? then b.reqBlock else b.ackBlock;
    var tail := EncodeList(records) + EncodeSelected(block);
    if b.ConfirmAck? {
      assert EncodeBody(b) == b.common + tail;
      assert EncodeBody(b)[..104] == b.common && EncodeBody(b)[104..] == tail;
    }
    if h.BlockType() == 1 {
      ListBack(records, if b.ConfirmReq? then 64 else 32, h.ItemCount());
      assert tail == EncodeList(records);
    } else {
      SelectedBack(h.BlockType(), block.value);
      assert tail == Encode(block.value.block);
    }
  }

  lemma BulkPullBack(h: Header, b: Body)
    requires b.BulkPull? && BodyFits(h, b)
    ensures ParseBulkPull(h, EncodeBody(b)) == Parsed(b)
  {
    hide U4le, LittleEndianBytes, Header.Bit0;
    var s := EncodeBody(b);
    assert s[..32] == b.start && s[32..64] == b.end;
    if b.extendedCount.Some? {
      FourBytesBack(b.extendedCount.value);
      assert s[65..69] == LittleEndianBytes(b.extendedCount.value, 4);
    }
  }

  lemma HandshakeBack(h: Header, b: Body)
    requires b.NodeIdHandshake? && BodyFits(h, b)
    ensures ParseHandshake(h, EncodeBody(b)) == Parsed(b)
  {
    hide Header.Bit0, Header.Bit1;
    var s := EncodeBody(b);
    var q := if h.Bit0() then 32 else 0;
    if h.Bit0() {
      assert s[..32] == b.query.value;
    }
    if h.Bit1() {
      assert s[q..q + 96] == b.response.value;
    }
  }

  lemma FixedBack(m: Message)
    requires MessageFits(m)
    requires m.body.FrontierReq? || m.body.BulkPullBlocks? || m.body.BulkPullAccount? || m.body.TelemetryReq? ||
             m.body.TelemetryAck? || m.body.IgnoredBody?
    ensures ParseFixed(m.header, EncodeBody(m.body)) == Parsed(m.body)
  {
    hide U4le, LittleEndianBytes;
    var s := EncodeBody(m.body);
    if m.body.FrontierReq? {
      FourBytesBack(m.body.age);
      FourBytesBack(m.body.count);
      assert s[..32] == m.body.frontierStart;
      assert s[32..36] == LittleEndianBytes(m.body.age, 4) && s[36..40] == LittleEndianBytes(m.body.count, 4);
    } else if m.body.BulkPullAccount? {
      assert s[..32] == m.body.account && s[32..48] == m.body.minimumAmount;
    } else if m.body.TelemetryAck? {
      assert s[..202] == m.body.fields;
    }
  }

  lemma BodyBack(m: Message)
    requires MessageFits(m)
    ensures ParseBody(m.header, EncodeBody(m.body)) == Parsed(m.body)
  {
    hide BodyFits, EncodeBody, ParseConfirmReq, ParseConfirmAck, ParseBulkPull, ParseBulkPush, ParseHandshake,
         ParseFixed, ParseSelected, OptionalRecords;
    match m.body
    case Keepalive(peers) =>
      KeepaliveFits(m);
      ListBack(peers, 18, 8);
    case Publish(block) =>
      PublishFits(m);
      SelectedBack(m.header.BlockType(), block);
    case ConfirmReq(_, _) => ConfirmBack(m.header, m.body);
    case ConfirmAck(_, _, _) => ConfirmBack(m.header, m.body);
    case BulkPull(_, _, _) => BulkPullBack(m.header, m.body);
    case BulkPush(entries) =>
      BulkPushFits(m);
      EntryBack(entries[0]);
    case NodeIdHandshake(_, _) => HandshakeBack(m.header, m.body);
    case _ => FixedBack(m);
  }

  lemma KeepaliveFits(m: Message)
    requires MessageFits(m) && m.body.Keepalive?
    ensures ListFits(m.body.peers, 18, 8) && EncodeBody(m.body) == EncodeList(m.body.peers)
  {}

  lemma PublishFits(m: Message)
    requires MessageFits(m) && m.body.Publish?
    ensures SelectedFits(m.header.BlockType(), m.body.block) && EncodeBody(m.body) == Encode(m.body.block.block)
  {}

  lemma BulkPushFits(m: Message)
    requires MessageFits(m) && m.body.BulkPush?
    ensures |m.body.entries| == 1 && m.body.entries == [m.body.entries[0]]
    ensures BlockFits(Num(m.body.entries[0].blockType), m.body.entries[0].block)
    ensures EncodeBody(m.body) == EncodeEntry(m.body.entries[0])
  {}

  /** Every message of the protocol is read as itself from its bytes. */
  lemma ParseEncodedMessage(m: Message)
    requires MessageFits(m)
    ensures Parse(EncodeMessage(m)) == Parsed(m)
  {
    hide EncodeHeader, EncodeBody, ParseHeader, ParseBody, BodyFits;
    HeaderBack(m.header, EncodeBody(m.body));
    BodyBack(m);
    var s := EncodeMessage(m);
    assert s[HEADER..] == EncodeBody(m.body);
  }

  // ---- Nothing else is read ----

  lemma {:induction false} RecordsFit(s: seq<byte>, size: nat, limit: nat, done: nat)
    requires size > 0 && (limit == 0 || done < limit)
    ensures var r := Records(s, size, limit, done);
            r.Some? ==> limit == 0 || done + |r.value| <= limit
    decreases |s|
  {
    if |s| > size && done + 1 != limit {
      RecordsFit(s[size..], size, limit, done + 1);
    }
  }

  lemma ListIsFit(s: seq<byte>, size: nat, limit: nat)
    requires size > 0
    ensures var r := OptionalRecords(s, size, limit); r.Parsed? ==> ListFits(r.value, size, limit)
  {
    hide Records;
    RecordsFit(s, size, limit, 0);
  }

  lemma SelectedIsFit(t: nat, s: seq<byte>)
    requires t < 256
    ensures var r := ParseSelected(t, s); r.Parsed? ==> SelectedFits(t, r.value)
  {
    hide NanoBlocks.Fields;
  }

  lemma ConfirmIsFit(h: Header, s: seq<byte>)
    ensures ParseConfirmReq(h, s).Parsed? ==> BodyFits(h, ParseConfirmReq(h, s).value)
    ensures ParseConfirmAck(h, s).Parsed? ==> BodyFits(h, ParseConfirmAck(h, s).value)
  {
    hide OptionalRecords, ParseSelected, ListFits, SelectedFits, Header.ItemCount;
    var t := h.BlockType();
    assert t < 256;
    hide Header.BlockType;
    ListIsFit(s, 64, h.ItemCount());
    SelectedIsFit(t, s);
    if |s| >= 104 {
      ListIsFit(s[104..], 32, h.ItemCount());
      SelectedIsFit(t, s[104..]);
    }
  }

  lemma BulkPushIsFit(h: Header, s: seq<byte>)
    ensures ParseBulkPush(s).Parsed? ==> BodyFits(h, ParseBulkPush(s).value)
  {
    hide NanoBlocks.Fields;
    if |s| > 0 {
      assert Num(s[0]) as byte == s[0];
    }
  }

  lemma OthersAreFit(h: Header, s: seq<byte>)
    ensures ParseBulkPull(h, s).Parsed? ==> BodyFits(h, ParseBulkPull(h, s).value)
    ensures ParseHandshake(h, s).Parsed? ==> BodyFits(h, ParseHandshake(h, s).value)
    ensures ParseFixed(h, s).Parsed? ==> BodyFits(h, ParseFixed(h, s).value)
  {
    hide U4le, Header.Bit0, Header.Bit1;
  }

  lemma BodyIsFit(h: Header, s: seq<byte>)
    ensures ParseBody(h, s).Parsed? ==> BodyFits(h, ParseBody(h, s).value)
  {
    if h.messageType == KEEPALIVE {
      ListIsFit(s, 18, 8);
    } else if h.messageType == PUBLISH {
      SelectedIsFit(h.BlockType(), s);
    } else {
      hide BodyFits, ParseConfirmReq, ParseConfirmAck, ParseBulkPull, ParseBulkPush, ParseHandshake, ParseFixed;
      ConfirmIsFit(h, s);
      BulkPushIsFit(h, s);
      OthersAreFit(h, s);
    }
  }

  /** Only messages of the protocol are read; with the lemma above these are all of them. */
  lemma ParsedFits(s: seq<byte>)
    requires Parse(s).Parsed?
    ensures MessageFits(Parse(s).value)
  {
    hide ParseBody, BodyFits, Num;
    ParsedMatches(s);
    var h := ParseHeader(s).value;
    assert h.messageType == Num(s[5]) && h.extensions == U2le(s[6..8]);
    hide U2le, Matches;
    BodyIsFit(h, s[HEADER..]);
  }

  // ---- On the wire ----

  /**
   Of the last byte of the header the low digit selects a block and the high digit limits a list; the one
   before has two flags.
   */
  lemma ExtensionBits(w: seq<byte>, body: seq<byte>)
    requires |w| == 8 && w[0] == 0x52
    ensures var h := ParseHeader(w + body);
            && h.Some? && h.value.messageType == Num(w[5])
            && h.value.BlockType() == Num(w[7]) % 16 && h.value.ItemCount() == Num(w[7]) / 16
            && (h.value.Bit0() <==> Num(w[6]) % 2 == 1) && (h.value.Bit1() <==> Num(w[6]) / 2 % 2 == 1)
            && (w + body)[HEADER..] == body
  {
    hide Num;
    var s := w + body;
    assert s[6..8] == [w[6], w[7]];
    ExtensionNumbers(Num(w[6]), Num(w[7]));
  }

  lemma ExtensionNumbers(lo: nat, hi: nat)
    requires lo < 256 && hi < 256
    ensures var e := lo + 0x100 * hi;
            && e / 0x100 % 0x10 == hi % 16 && e / 0x1000 % 0x10 == hi / 16
            && e % 2 == lo % 2 && e / 2 % 2 == lo / 2 % 2
  {}

  /** A publish: the block that the low digit of the last header byte names. */
  lemma PublishOnWire(w: seq<byte>, block: Block)
    requires |w| == 8 && w[0] == 0x52 && w[5] == 3 && WellFormed(block) && !block.Ignored?
    requires Num(w[7]) % 16 == Num(TypeOf(block))
    ensures var m := Parse(w + Encode(block));
            m.Parsed? && m.value.header.messageType == 3 && m.value.body == Publish(Selected(Num(TypeOf(block)), block))
  {
    hide Encode, NanoBlocks.Fields, ParseHeader, Header.BlockType, Header.ItemCount, Header.Bit0, Header.Bit1;
    ExtensionBits(w, Encode(block));
    KnownTypes(block);
    SelectedBack(Num(TypeOf(block)), Selected(Num(TypeOf(block)), block));
  }

  lemma KnownTypes(block: Block)
    requires !block.Ignored?
    ensures Num(TypeOf(block)) as byte == TypeOf(block) && 2 <= Num(TypeOf(block)) <= 6 && Known(TypeOf(block))
  {}

  /** A confirm_req of hashes: as many pairs as there are, up to the high digit, for which zero is no limit. */
  lemma ConfirmReqOnWire(w: seq<byte>, pairs: seq<seq<byte>>, behind: seq<byte>)
    requires |w| == 8 && w[0] == 0x52 && w[5] == 4 && Num(w[7]) % 16 == 1
    requires |pairs| > 0 && forall i :: 0 <= i < |pairs| ==> |pairs[i]| == 64
    requires Num(w[7]) / 16 == |pairs| || (behind == [] && (Num(w[7]) / 16 == 0 || |pairs| < Num(w[7]) / 16))
    ensures var m := Parse(w + (Joined(pairs) + behind));
            m.Parsed? && m.value.header.messageType == 4 && m.value.body == ConfirmReq(Some(pairs), None)
  {
    hide Joined, Records, ParseHeader, Header.BlockType, Header.ItemCount, Header.Bit0, Header.Bit1;
    ExtensionBits(w, Joined(pairs) + behind);
    ListInFront(pairs, 64, Num(w[7]) / 16, 0, behind);
  }

  /** A confirm_ack of hashes: the common part, and then hashes up to the limit. */
  lemma VoteByHashOnWire(w: seq<byte>, common: seq<byte>, hashes: seq<seq<byte>>, behind: seq<byte>)
    requires |w| == 8 && w[0] == 0x52 && w[5] == 5 && Num(w[7]) % 16 == 1 && |common| == 104
    requires |hashes| > 0 && forall i :: 0 <= i < |hashes| ==> |hashes[i]| == 32
    requires Num(w[7]) / 16 == |hashes| || (behind == [] && (Num(w[7]) / 16 == 0 || |hashes| < Num(w[7]) / 16))
    ensures var m := Parse(w + (common + (Joined(hashes) + behind)));
            m.Parsed? && m.value.header.messageType == 5 && m.value.body == ConfirmAck(common, Some(hashes), None)
  {
    hide Joined, Records, ParseHeader, Header.BlockType, Header.ItemCount, Header.Bit0, Header.Bit1;
    var list := Joined(hashes) + behind;
    ExtensionBits(w, common + list);
    assert (common + list)[..104] == common && (common + list)[104..] == list;
    ListInFront(hashes, 32, Num(w[7]) / 16, 0, behind);
  }

  /** Records up to a limit that is met exactly hide what is behind them. */
  lemma {:induction false} ListInFront(rs: seq<seq<byte>>, size: nat, limit: nat, done: nat, behind: seq<byte>)
    requires size > 0 && |rs| > 0 && forall i :: 0 <= i < |rs| ==> |rs[i]| == size
    requires limit == done + |rs| || (behind == [] && (limit == 0 || done + |rs| < limit))
    ensures Records(Joined(rs) + behind, size, limit, done) == Some(rs) && |Joined(rs)| >= size
    decreases |rs|
  {
    var s := Joined(rs) + behind;
    assert s == rs[0] + (Joined(rs[1..]) + behind);
    assert s[..size] == rs[0] && s[size..] == Joined(rs[1..]) + behind;
    if |rs| == 1 {
      assert rs == [rs[0]] && Joined(rs[1..]) == [];
    } else {
      ListInFront(rs[1..], size, limit, done + 1, behind);
      assert rs == [rs[0]] + rs[1..];
    }
  }

  /** A confirm_req or a regular vote: one block, which the low digit names. */
  lemma BlockOnWire(w: seq<byte>, common: seq<byte>, block: Block)
    requires |w| == 8 && w[0] == 0x52 && (if w[5] == 4 then common == [] else w[5] == 5 && |common| == 104)
    requires WellFormed(block) && !block.Ignored? && Num(w[7]) % 16 == Num(TypeOf(block))
    ensures var m, b := Parse(w + (common + Encode(block))), Some(Selected(Num(TypeOf(block)), block));
            m.Parsed? && m.value.body == if w[5] == 4 then ConfirmReq(None, b) else ConfirmAck(common, None, b)
  {
    hide Encode, NanoBlocks.Fields, ParseHeader, Header.BlockType, Header.ItemCount, Header.Bit0, Header.Bit1;
    ExtensionBits(w, common + Encode(block));
    KnownTypes(block);
    SelectedBack(Num(TypeOf(block)), Selected(Num(TypeOf(block)), block));
    assert (common + Encode(block))[..|common|] == common && (common + Encode(block))[|common|..] == Encode(block);
  }

  /** A bulk_pull: bit 0 says whether a count of four bytes follows, behind a byte that is skipped. */
  lemma BulkPullOnWire(w: seq<byte>, start: seq<byte>, end: seq<byte>, behind: seq<byte>)
    requires |w| == 8 && w[0] == 0x52 && w[5] == 6 && |start| == |end| == 32
    ensures var m := Parse(w + (start + end + behind));
            if Num(w[6]) % 2 == 0 then m.Parsed? && m.value.body == BulkPull(start, end, None)
            else if |behind| < 8 then m == RuntimeError
            else m.Parsed? && m.value.body == BulkPull(start, end, Some(U4le(behind[1..5])))
  {
    hide U4le, ParseHeader, Header.BlockType, Header.ItemCount, Header.Bit0, Header.Bit1;
    var s := start + end + behind;
    ExtensionBits(w, s);
    assert s[..32] == start && s[32..64] == end;
    if |behind| >= 8 {
      assert s[65..69] == behind[1..5];
    }
  }

  /** A handshake: bit 0 says whether there is a query, bit 1 whether there is a response. */
  lemma HandshakeOnWire(w: seq<byte>, query: seq<byte>, response: seq<byte>, behind: seq<byte>)
    requires |w| == 8 && w[0] == 0x52 && w[5] == 10
    requires |query| == (if Num(w[6]) % 2 == 1 then 32 else 0) &&
             |response| == (if Num(w[6]) / 2 % 2 == 1 then 96 else 0)
    ensures var m := Parse(w + (query + response + behind));
            m.Parsed? && m.value.body == NodeIdHandshake(if Num(w[6]) % 2 == 1 then Some(query) else None,
                                                         if Num(w[6]) / 2 % 2 == 1 then Some(response) else None)
  {
    hide ParseHeader, Header.BlockType, Header.ItemCount, Header.Bit0, Header.Bit1;
    var s := query + response + behind;
    ExtensionBits(w, s);
    assert s[..|query|] == query && s[|query|..|query| + |response|] == response;
  }

  // ---- Bulk pushes ----

  /**
   A bulk push that comes with entries of known types, and with or without the type that ends
   them, is recognised only with one entry and no end, or with an end and no entry.
   */
  lemma BulkPushAsSent(s: seq<byte>, entries: seq<Entry>, ended: bool)
    requires ParseHeader(s).Some? && ParseHeader(s).value.messageType == BULK_PUSH
    requires forall i :: 0 <= i < |entries| ==> Proper(entries[i])
    requires s[HEADER..] == Streams.EncodeAll(entries) + if ended then [NOT_A_BLOCK] else []
    ensures Parse(s).Parsed? <==> |entries| == if ended then 0 else 1
    ensures Parse(s).OutOfRange? <==> |entries| >= if ended then 1 else 2
  {
    hide Proper, EncodeEntry, ParseEntry, Streams.EncodeAll, Parse;
    BulkPushParsesWhen(s);
    FirstPushed(s[HEADER..], entries, ended);
  }

  /** The first entry is read if there is anything, and takes it all up if nothing follows. */
  lemma FirstPushed(s: seq<byte>, entries: seq<Entry>, ended: bool)
    requires forall i :: 0 <= i < |entries| ==> Proper(entries[i])
    requires s == Streams.EncodeAll(entries) + if ended then [NOT_A_BLOCK] else []
    ensures ParseEntry(s).Some? <==> |entries| > 0 || ended
    ensures ParseEntry(s).Some? ==> (ParseEntry(s).value.1 == |s| <==> |entries| == if ended then 0 else 1)
  {
    if |entries| > 0 {
      hide Proper, EncodeEntry, ParseEntry;
      var rest := Streams.EncodeAll(entries[1..]) + if ended then [NOT_A_BLOCK] else [];
      assert s == EncodeEntry(entries[0]) + rest;
      ParseEncoded(entries[0], rest);
      if |entries| > 1 {
        ParseEncoded(entries[1], []);
      }
    }
  }
}
