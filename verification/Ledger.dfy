/**
 What a capture leaves in the database, as a function of what has been handed over: the rows of
 every event, their ids and the references between them.  The tables are proved to hold exactly
 these rows, so whatever is shown of them here holds of the database.
 */
module Ledger {
  import opened Bytes
  import opened Flow
  import opened KStream
  import opened Messages
  import opened NanoBlocks
  import opened Streams

  /** The ids of one run. */
  const BUDGET: nat := 1_000_000_000

  datatype Table =
    | Packets | Connections | Hosts | Votes
    | StateBlocks | SendBlocks | ReceiveBlocks | OpenBlocks | ChangeBlocks
    | NodeidQueries | NodeidResponses | Telemetry
    | FrontierRequests | FrontierResponses
    | BulkPullRequests | BulkPullResponses | BulkPullAccountRequests | BulkPushEntries

  /** The columns that name rows, and what else was captured; an empty or absent content table is None. */
  datatype Row =
    | PacketRow(flowKey: nat, msgType: nat, contentTable: Option<Table>, contentId: Option<nat>)
    | ConnectionRow(flowKey: nat, note: Note)
    | HostRow(packetId: nat, peer: seq<byte>)
    | VoteRow(packetId: nat)
    | BlockRow(packetId: nat, block: Block)
    | NodeidQueryRow(packetId: nat, cookie: seq<byte>)
    | NodeidResponseRow(packetId: nat, response: seq<byte>)
    | TelemetryRow(packetId: nat, fields: seq<byte>)
    | FrontierRequestRow(packetId: nat, frontierStart: seq<byte>, age: nat, count: nat)
    | FrontierResponseRow(requestId: nat, frontier: FrontierEntry)
    | BulkPullRequestRow(packetId: nat, start: seq<byte>, end: seq<byte>, extendedCount: nat)
    | BulkPullResponseRow(requestId: nat, blockId: nat, blockTable: Table)
    | BulkPullAccountRequestRow(packetId: nat, account: seq<byte>, minimumAmount: seq<byte>, flags: byte)
    | BulkPushEntryRow(packetId: nat, blockId: nat, blockTable: Table)

  /** The table put_block picks. */
  function BlockTable(b: Block): Table
    requires !b.Ignored?
  {
    match b
    case State(_, _, _, _, _, _, _) => StateBlocks
    case Send(_, _, _, _, _) => SendBlocks
    case Receive(_, _, _, _) => ReceiveBlocks
    case Open(_, _, _, _, _) => OpenBlocks
    case Change(_, _, _, _) => ChangeBlocks
  }

  /** The table a row belongs in. */
  function TableOf(r: Row): Table
    requires r.BlockRow? ==> !r.block.Ignored?
  {
    match r
    case PacketRow(_, _, _, _) => Packets
    case ConnectionRow(_, _) => Connections
    case HostRow(_, _) => Hosts
    case VoteRow(_) => Votes
    case BlockRow(_, b) => BlockTable(b)
    case NodeidQueryRow(_, _) => NodeidQueries
    case NodeidResponseRow(_, _) => NodeidResponses
    case TelemetryRow(_, _) => Telemetry
    case FrontierRequestRow(_, _, _, _) => FrontierRequests
    case FrontierResponseRow(_, _) => FrontierResponses
    case BulkPullRequestRow(_, _, _, _) => BulkPullRequests
    case BulkPullResponseRow(_, _, _) => BulkPullResponses
    case BulkPullAccountRequestRow(_, _, _, _) => BulkPullAccountRequests
    case BulkPushEntryRow(_, _, _) => BulkPushEntries
  }

  type Key = (Table, nat)

  predicate Storable(r: Row) {
    && (r.BlockRow? ==> !r.block.Ignored?)
    && (r.PacketRow? ==> r.msgType < 32)
  }

  /** The contents of the file. */
  type Rows = map<Key, Row>

  /** Rows are in their tables, and no id occurs in two tables. */
  ghost predicate Sound(rows: Rows) {
    && (forall k :: k in rows ==> Storable(rows[k]) && TableOf(rows[k]) == k.0)
    && (forall k, l :: k in rows && l in rows && k.1 == l.1 ==> k == l)
  }

  function PacketsOfType(rows: Rows, t: nat): set<Key> {
    set k | k in rows && rows[k].PacketRow? && rows[k].msgType == t
  }

  /** A row as it was inserted, and the flow it came from. */
  datatype Insert = Insert(flow: nat, id: nat, row: Row)

  // ---- References between rows ----

  /** A row like the one asked for was inserted before position j. */
  ghost predicate InsertedBefore(js: seq<Insert>, j: nat, flow: nat, id: nat, table: Table)
    requires j <= |js|
  {
    exists i :: 0 <= i < j && js[i].flow == flow && js[i].id == id && Storable(js[i].row) && TableOf(js[i].row) == table
  }

  /** The packet_id column, in the tables that have one. */
  function PacketOf(r: Row): Option<nat> {
    match r
    case PacketRow(_, _, _, _) => None
    case ConnectionRow(_, _) => None
    case FrontierResponseRow(_, _) => None
    case BulkPullResponseRow(_, _, _) => None
    case HostRow(p, _) => Some(p)
    case VoteRow(p) => Some(p)
    case BlockRow(p, _) => Some(p)
    case NodeidQueryRow(p, _) => Some(p)
    case NodeidResponseRow(p, _) => Some(p)
    case TelemetryRow(p, _) => Some(p)
    case FrontierRequestRow(p, _, _, _) => Some(p)
    case BulkPullRequestRow(p, _, _, _) => Some(p)
    case BulkPullAccountRequestRow(p, _, _, _) => Some(p)
    case BulkPushEntryRow(p, _, _) => Some(p)
  }

  /**
   What the row at position j names has been inserted on the same flow: the packet of every row, and
   the content of a packet; and earlier than the row itself, the request and the block of an entry.
   */
  ghost predicate Refers(js: seq<Insert>, j: nat)
    requires j < |js|
  {
    var f := js[j].flow;
    && (PacketOf(js[j].row).Some? ==> InsertedBefore(js, |js|, f, PacketOf(js[j].row).value, Packets))
    && match js[j].row
       case PacketRow(_, _, t, c) => t.Some? && c.Some? ==> InsertedBefore(js, |js|, f, c.value, t.value)
       case FrontierResponseRow(r, _) => InsertedBefore(js, j, f, r, FrontierRequests)
       case BulkPullResponseRow(r, b, t) =>
         InsertedBefore(js, j, f, r, BulkPullRequests) && InsertedBefore(js, j, f, b, t)
       case BulkPushEntryRow(p, b, t) => InsertedBefore(js, j, f, p, Packets) && InsertedBefore(js, j, f, b, t)
       case _ => true
  }

  ghost predicate Linked(js: seq<Insert>) { forall j :: 0 <= j < |js| ==> Refers(js, j) }

  lemma InsertedStays(js: seq<Insert>, more: seq<Insert>, j: nat, flow: nat, id: nat, table: Table)
    requires j <= |js| && InsertedBefore(js, j, flow, id, table)
    ensures InsertedBefore(js + more, j, flow, id, table)
  {
    var i :| 0 <= i < j && js[i].flow == flow && js[i].id == id && Storable(js[i].row) && TableOf(js[i].row) == table;
    assert (js + more)[i] == js[i];
  }

  lemma InsertedLater(js: seq<Insert>, j: nat, k: nat, flow: nat, id: nat, table: Table)
    requires j <= k <= |js| && InsertedBefore(js, j, flow, id, table)
    ensures InsertedBefore(js, k, flow, id, table)
  {}

  lemma RefersStays(js: seq<Insert>, more: seq<Insert>, j: nat)
    requires j < |js| && Refers(js, j)
    ensures Refers(js + more, j)
  {
    hide InsertedBefore;
    assert (js + more)[j] == js[j];
    var f := js[j].flow;
    if PacketOf(js[j].row).Some? {
      InsertedOn(js, more, f, PacketOf(js[j].row).value, Packets);
    }
    match js[j].row {
      case PacketRow(_, _, t, c) =>
        if t.Some? && c.Some? {
          InsertedOn(js, more, f, c.value, t.value);
        }
      case FrontierResponseRow(r, _) => InsertedStays(js, more, j, f, r, FrontierRequests);
      case BulkPullResponseRow(r, b, t) =>
        InsertedStays(js, more, j, f, r, BulkPullRequests);
        InsertedStays(js, more, j, f, b, t);
      case BulkPushEntryRow(p, b, t) =>
        InsertedStays(js, more, j, f, p, Packets);
        InsertedStays(js, more, j, f, b, t);
      case _ =>
    }
  }

  /** Appending rows whose references are met keeps all references met. */
  lemma LinkedGrows(js: seq<Insert>, more: seq<Insert>)
    requires Linked(js) && forall j :: |js| <= j < |js + more| ==> Refers(js + more, j)
    ensures Linked(js + more)
  {
    hide Refers;
    forall j | 0 <= j < |js + more|
      ensures Refers(js + more, j)
    {
      if j < |js| {
        RefersStays(js, more, j);
      }
    }
  }

  // ---- What the put functions insert ----

  function BlockRows(cfg: Config, flow: nat, id: nat, packetId: nat, block: Option<Block>): seq<Insert> {
    if ContentTable(cfg, block).Some? then [Insert(flow, id, BlockRow(packetId, block.value))] else []
  }

  function ContentTable(cfg: Config, block: Option<Block>): (t: Option<Table>)
    ensures t.Some? <==> cfg.blockDetails && block.Some? && !block.value.Ignored?
  {
    if cfg.blockDetails && block.Some? && !block.value.Ignored? then Some(BlockTable(block.value)) else None
  }

  function HostRows(flow: nat, packetId: nat, id: nat, peers: seq<seq<byte>>): (js: seq<Insert>)
    ensures |js| == |peers|
  {
    seq(|peers|, i requires 0 <= i < |peers| => Insert(flow, id + i, HostRow(packetId, peers[i])))
  }

  function BlockOf(s: Option<Selected>): Option<Block> {
    if s.Some? then Some(s.value.block) else None
  }

  /** The rows of a message, in the order in which they are inserted, when the next id is n. */
  function MessageRows(cfg: Config, flow: nat, m: Message, n: nat): seq<Insert> {
    var t := m.header.messageType;
    var plain := Insert(flow, n, PacketRow(flow, t, None, None));
    match m.body
    case Keepalive(peers) => [plain] + if peers.Some? then HostRows(flow, n, n + 1, peers.value) else []
    case TelemetryAck(fields) => [plain, Insert(flow, n + 1, TelemetryRow(n, fields))]
    case FrontierReq(start, age, count) => [plain, Insert(flow, n + 1, FrontierRequestRow(n, start, age, count))]
    case BulkPull(start, end, count) =>
      [plain, Insert(flow, n + 1, BulkPullRequestRow(n, start, end, if count.Some? then count.value else 0))]
    case BulkPullAccount(account, minimum, flags) =>
      [plain, Insert(flow, n + 1, BulkPullAccountRequestRow(n, account, minimum, flags))]
    case NodeIdHandshake(query, response) =>
      [plain] + (if query.Some? then [Insert(flow, n + 1, NodeidQueryRow(n, query.value))] else []) +
      (if response.Some? then [Insert(flow, n + if query.Some? then 2 else 1, NodeidResponseRow(n, response.value))]
       else [])
    case Publish(block) => ContentRows(cfg, flow, t, n, Some(block.block))
    case ConfirmReq(_, block) => ContentRows(cfg, flow, t, n, BlockOf(block))
    case ConfirmAck(_, _, block) =>
      var vote := if block.Some? then n + 2 else n + 1;
      BlockRows(cfg, flow, n + 1, n, BlockOf(block)) +
      [Insert(flow, vote, VoteRow(n)), Insert(flow, n, PacketRow(flow, t, Some(Votes), Some(vote)))]
    case _ => [plain]
  }

  /** A block, if it is recorded, and the packet that names it. */
  function ContentRows(cfg: Config, flow: nat, t: nat, n: nat, block: Option<Block>): seq<Insert> {
    BlockRows(cfg, flow, n + 1, n, block) +
    [Insert(flow, n, PacketRow(flow, t, ContentTable(cfg, block), Some(n + 1)))]
  }

  /** How many ids a message draws. */
  function MessageIds(m: Message): nat {
    match m.body
    case Keepalive(peers) => 1 + if peers.Some? then |peers.value| else 0
    case TelemetryReq => 1
    case BulkPush(_) => 1
    case NodeIdHandshake(query, response) => 1 + (if query.Some? then 1 else 0) + if response.Some? then 1 else 0
    case ConfirmAck(_, _, block) => if block.Some? then 3 else 2
    case _ => 2
  }

  /** The rows of an entry of a stream whose request is the packet with id link. */
  function EntryRows(cfg: Config, flow: nat, kind: Kind, item: Item, n: nat, link: nat): seq<Insert> {
    if item.FrontierItem? then [Insert(flow, n, FrontierResponseRow(link + 1, item.frontier))]
    else
      var table := ContentTable(cfg, Some(item.entry.block));
      if table.None? then []
      else BlockRows(cfg, flow, n, link, Some(item.entry.block)) +
           [Insert(flow, n + 1, if kind == Kind.BulkPull then BulkPullResponseRow(link + 1, n, table.value)
                                else BulkPushEntryRow(link, n, table.value))]
  }

  /** The rows of an event. */
  function EventRows(cfg: Config, flow: nat, e: Event, n: nat, link: nat): seq<Insert> {
    match e
    case PutMessage(m) => MessageRows(cfg, flow, m, n)
    case PutItem(kind, item) => EntryRows(cfg, flow, kind, item, n, link)
    case PutConnection(note) => [Insert(flow, n, ConnectionRow(flow, note))]
  }

  /** How many ids an event draws; an entry without a table still draws one for its block. */
  function EventIds(cfg: Config, e: Event): nat {
    match e
    case PutMessage(m) => MessageIds(m)
    case PutItem(_, item) => if item.BlockItem? && Tabled(cfg, item) then 2 else 1
    case PutConnection(_) => 1
  }

  // ---- The whole capture ----

  /** The rows inserted, the next id, and the packet that each flow put last. */
  datatype Book = Book(rows: seq<Insert>, next: nat, links: map<nat, nat>)

  function LinkOf(links: map<nat, nat>, flow: nat): nat { if flow in links then links[flow] else 0 }

  function Post(cfg: Config, b: Book, e: (nat, Event)): Book {
    Book(b.rows + EventRows(cfg, e.0, e.1, b.next, LinkOf(b.links, e.0)), b.next + EventIds(cfg, e.1),
         if e.1.PutMessage? then b.links[e.0 := b.next] else b.links)
  }

  lemma PostMessage(cfg: Config, b: Book, flow: nat, m: Message)
    ensures Post(cfg, b, (flow, PutMessage(m))) ==
            Book(b.rows + MessageRows(cfg, flow, m, b.next), b.next + MessageIds(m), b.links[flow := b.next])
  {
    hide MessageRows, MessageIds;
  }

  /** The book after everything in a log. */
  function PostAll(cfg: Config, b: Book, log: seq<(nat, Event)>): Book {
    if |log| == 0 then b else Post(cfg, PostAll(cfg, b, log[..|log| - 1]), log[|log| - 1])
  }

  lemma {:induction false} PostJoins(cfg: Config, b: Book, x: seq<(nat, Event)>, y: seq<(nat, Event)>)
    ensures PostAll(cfg, b, x + y) == PostAll(cfg, PostAll(cfg, b, x), y)
  {
    hide Post;
    if |y| == 0 {
      assert x + y == x;
    } else {
      var all, front := x + y, y[..|y| - 1];
      assert all[..|all| - 1] == x + front && all[|all| - 1] == y[|y| - 1];
      PostJoins(cfg, b, x, front);
    }
  }

  lemma PostOne(cfg: Config, b: Book, e: (nat, Event))
    ensures PostAll(cfg, b, [e]) == Post(cfg, b, e)
    ensures PostAll(cfg, b, []) == b
  {
    hide Post;
    assert [e][..0] == [];
    assert PostAll(cfg, b, [e][..0]) == b;
  }

  lemma TwoPosts(cfg: Config, b: Book, flow: nat, e: Event, e': Event, log: seq<(nat, Event)>)
    ensures PostAll(cfg, b, Tagged(flow, [e])) == Post(cfg, b, (flow, e))
    ensures PostAll(cfg, b, Tagged(flow, [e, e'])) == Post(cfg, Post(cfg, b, (flow, e)), (flow, e'))
    ensures log + [(flow, e)] == log + Tagged(flow, [e]) &&
            log + [(flow, e)] + [(flow, e')] == log + Tagged(flow, [e, e'])
  {
    hide Post, PostAll;
    assert Tagged(flow, [e]) == [(flow, e)] && Tagged(flow, [e, e']) == [(flow, e)] + [(flow, e')];
    PostOne(cfg, b, (flow, e));
    PostOne(cfg, Post(cfg, b, (flow, e)), (flow, e'));
    PostJoins(cfg, b, [(flow, e)], [(flow, e')]);
  }

  /** What is posted does not depend on the rows that are there already. */
  lemma {:induction false} PostOnTop(cfg: Config, b: Book, log: seq<(nat, Event)>)
    ensures var c := PostAll(cfg, b.(rows := []), log); PostAll(cfg, b, log) == c.(rows := b.rows + c.rows)
  {
    hide EventRows, EventIds;
    if |log| > 0 {
      PostOnTop(cfg, b, log[..|log| - 1]);
      var c := PostAll(cfg, b.(rows := []), log[..|log| - 1]);
      var e := log[|log| - 1];
      var more := EventRows(cfg, e.0, e.1, c.next, LinkOf(c.links, e.0));
      assert b.rows + c.rows + more == b.rows + (c.rows + more);
    } else {
      assert b.rows + [] == b.rows;
    }
  }

  /** The book since the last wipe, which took the rows but neither the dispenser nor what the flows remember. */
  function BookAfter(cfg: Config, first: nat, log: seq<(nat, Event)>, wiped: Option<nat>): Book
    requires wiped.Some? ==> wiped.value <= |log|
  {
    var mark := if wiped.Some? then wiped.value else 0;
    PostAll(cfg, PostAll(cfg, Book([], first, map[]), log[..mark]).(rows := []), log[mark..])
  }

  /** The rows inserted before the last wipe. */
  function WipedRows(cfg: Config, first: nat, log: seq<(nat, Event)>, wiped: Option<nat>): seq<Insert>
    requires wiped.Some? ==> wiped.value <= |log|
  {
    if wiped.None? then [] else PostAll(cfg, Book([], first, map[]), log[..wiped.value]).rows
  }

  /** Everything since the file was opened, wiped or not. */
  function Ever(cfg: Config, first: nat, log: seq<(nat, Event)>): Book { PostAll(cfg, Book([], first, map[]), log) }

  /** A wipe takes rows, and changes nothing about what follows. */
  lemma EverIs(cfg: Config, first: nat, log: seq<(nat, Event)>, wiped: Option<nat>)
    requires wiped.Some? ==> wiped.value <= |log|
    ensures var b := BookAfter(cfg, first, log, wiped);
            Ever(cfg, first, log) == Book(WipedRows(cfg, first, log, wiped) + b.rows, b.next, b.links)
  {
    hide Post;
    var mark := if wiped.Some? then wiped.value else 0;
    var start := Book([], first, map[]);
    assert log == log[..mark] + log[mark..];
    PostJoins(cfg, start, log[..mark], log[mark..]);
    PostOnTop(cfg, PostAll(cfg, start, log[..mark]), log[mark..]);
  }

  lemma EverGrows(cfg: Config, first: nat, log: seq<(nat, Event)>, log': seq<(nat, Event)>)
    requires log <= log'
    ensures Ever(cfg, first, log).rows <= Ever(cfg, first, log').rows
  {
    hide Post;
    var more := log'[|log|..];
    assert log' == log + more;
    PostJoins(cfg, Book([], first, map[]), log, more);
    PostOnTop(cfg, Ever(cfg, first, log), more);
  }

  lemma BookGrows(cfg: Config, first: nat, log: seq<(nat, Event)>, wiped: Option<nat>, more: seq<(nat, Event)>)
    requires wiped.Some? ==> wiped.value <= |log|
    ensures BookAfter(cfg, first, log + more, wiped) == PostAll(cfg, BookAfter(cfg, first, log, wiped), more)
    ensures WipedRows(cfg, first, log + more, wiped) == WipedRows(cfg, first, log, wiped)
  {
    hide PostAll;
    var mark := if wiped.Some? then wiped.value else 0;
    assert (log + more)[..mark] == log[..mark] && (log + more)[mark..] == log[mark..] + more;
    PostJoins(cfg, PostAll(cfg, Book([], first, map[]), log[..mark]).(rows := []), log[mark..], more);
  }

  lemma BookWiped(cfg: Config, first: nat, log: seq<(nat, Event)>, wiped: Option<nat>)
    requires wiped.Some? ==> wiped.value <= |log|
    ensures BookAfter(cfg, first, log, Some(|log|)) == BookAfter(cfg, first, log, wiped).(rows := [])
    ensures WipedRows(cfg, first, log, Some(|log|)) ==
            WipedRows(cfg, first, log, wiped) + BookAfter(cfg, first, log, wiped).rows
  {
    hide Post;
    EverIs(cfg, first, log, wiped);
    assert log[..|log|] == log && log[|log|..] == [];
  }

  lemma BookBegins(cfg: Config, first: nat)
    ensures BookAfter(cfg, first, [], None) == Book([], first, map[]) && WipedRows(cfg, first, [], None) == []
  {}

  // ---- Facts about what is inserted ----

  /** The rows of a message use each of its ids at most once, and no others. */
  lemma MessageRowIds(cfg: Config, flow: nat, m: Message, n: nat)
    ensures var js := MessageRows(cfg, flow, m, n);
            && (forall i :: 0 <= i < |js| ==> n <= js[i].id < n + MessageIds(m) && js[i].flow == flow)
            && (forall i, j :: 0 <= i < j < |js| ==> js[i].id != js[j].id)
  {
    hide BlockTable;
  }

  /** A row is among those inserted, under its id and in its table. */
  predicate Has(js: seq<Insert>, flow: nat, table: Table, id: nat, row: Row) {
    exists i :: 0 <= i < |js| && js[i] == Insert(flow, id, row) && Storable(row) && TableOf(row) == table
  }

  /** The table of a block, by the number of its type on the wire. */
  lemma BlockTableByType(b: Block)
    requires !b.Ignored?
    ensures var t := Num(TypeOf(b));
            BlockTable(b) == if t == 2 then SendBlocks else if t == 3 then ReceiveBlocks else if t == 4 then OpenBlocks
                             else if t == 5 then ChangeBlocks else StateBlocks
    ensures 2 <= Num(TypeOf(b)) <= 6
  {}

  /** The content rows of a message, column by column from the message, each in its table. */
  lemma MessageColumns(cfg: Config, flow: nat, m: Message, n: nat)
    requires Matches(m) && Handled(m)
    ensures var js, t := MessageRows(cfg, flow, m, n), m.header.messageType;
            match m.body
            case Keepalive(peers) =>
              && |js| == 1 + (if peers.Some? then |peers.value| else 0) &&
                 Has(js, flow, Packets, n, PacketRow(flow, t, None, None))
              && forall i :: 0 <= i < |js| - 1 ==> Has(js, flow, Hosts, n + 1 + i, HostRow(n, peers.value[i]))
            case TelemetryReq => js == [Insert(flow, n, PacketRow(flow, t, None, None))]
            case BulkPush(_) => js == [Insert(flow, n, PacketRow(flow, t, None, None))]
            case TelemetryAck(fields) =>
              |js| == 2 && Has(js, flow, Packets, n, PacketRow(flow, t, None, None)) &&
              Has(js, flow, Telemetry, n + 1, TelemetryRow(n, fields))
            case FrontierReq(start, age, count) =>
              |js| == 2 && Has(js, flow, Packets, n, PacketRow(flow, t, None, None)) &&
              Has(js, flow, FrontierRequests, n + 1, FrontierRequestRow(n, start, age, count))
            case BulkPull(start, end, count) =>
              |js| == 2 && Has(js, flow, Packets, n, PacketRow(flow, t, None, None)) &&
              Has(js, flow, BulkPullRequests, n + 1,
                  BulkPullRequestRow(n, start, end, if count.Some? then count.value else 0))
            case BulkPullAccount(account, amount, flags) =>
              |js| == 2 && Has(js, flow, Packets, n, PacketRow(flow, t, None, None)) &&
              Has(js, flow, BulkPullAccountRequests, n + 1, BulkPullAccountRequestRow(n, account, amount, flags))
            case NodeIdHandshake(query, response) =>
              && |js| == 1 + (if query.Some? then 1 else 0) + (if response.Some? then 1 else 0)
              && Has(js, flow, Packets, n, PacketRow(flow, t, None, None))
              && (query.Some? ==> Has(js, flow, NodeidQueries, n + 1, NodeidQueryRow(n, query.value)))
              && (response.Some? ==> Has(js, flow, NodeidResponses, n + |js| - 1, NodeidResponseRow(n, response.value)))
            case Publish(block) => HasContent(cfg, js, flow, t, n, Some(block.block))
            case ConfirmReq(_, block) => HasContent(cfg, js, flow, t, n, BlockOf(block))
            case ConfirmAck(_, _, block) =>
              var vote := if block.Some? then n + 2 else n + 1;
              && HasBlock(cfg, js, flow, n, BlockOf(block)) && Has(js, flow, Votes, vote, VoteRow(n))
              && Has(js, flow, Packets, n, PacketRow(flow, t, Some(Votes), Some(vote)))
            case _ => true
  {
    hide BlockTable;
    var js := MessageRows(cfg, flow, m, n);
    match m.body
    case Keepalive(peers) =>
      assert js[0] == Insert(flow, n, PacketRow(flow, m.header.messageType, None, None));
      forall i | 0 <= i < |js| - 1
        ensures Has(js, flow, Hosts, n + 1 + i, HostRow(n, peers.value[i]))
      {
        assert js[1 + i] == Insert(flow, n + 1 + i, HostRow(n, peers.value[i]));
      }
    case NodeIdHandshake(_, _) =>
      assert js[0] == Insert(flow, n, PacketRow(flow, m.header.messageType, None, None));
      HandshakeColumns(cfg, flow, m, n);
    case Publish(block) => ContentColumns(cfg, flow, m.header.messageType, n, Some(block.block));
    case ConfirmReq(_, block) => ContentColumns(cfg, flow, m.header.messageType, n, BlockOf(block));
    case ConfirmAck(_, _, block) => AckColumns(cfg, flow, m, n);
    case TelemetryAck(_) => assert js[0].id == n && js[1].id == n + 1;
    case FrontierReq(_, _, _) => assert js[0].id == n && js[1].id == n + 1;
    case BulkPull(_, _, _) => assert js[0].id == n && js[1].id == n + 1;
    case BulkPullAccount(_, _, _) => assert js[0].id == n && js[1].id == n + 1;
    case _ =>
  }

  /** The row of a block of a known kind, if blocks are recorded, in the table for the number of its type. */
  predicate HasBlock(cfg: Config, js: seq<Insert>, flow: nat, n: nat, block: Option<Block>) {
    cfg.blockDetails && block.Some? && !block.value.Ignored? ==>
      var t := Num(TypeOf(block.value));
      Has(js, flow, if t == 2 then SendBlocks else if t == 3 then ReceiveBlocks else if t == 4 then OpenBlocks
                    else if t == 5 then ChangeBlocks else StateBlocks, n + 1, BlockRow(n, block.value))
  }

  /** That row and the packet that names it, or a packet alone that names no table. */
  predicate HasContent(cfg: Config, js: seq<Insert>, flow: nat, t: nat, n: nat, block: Option<Block>) {
    && HasBlock(cfg, js, flow, n, block)
    && if cfg.blockDetails && block.Some? && !block.value.Ignored?
       then |js| == 2 && Has(js, flow, Packets, n, PacketRow(flow, t, Some(BlockTable(block.value)), Some(n + 1)))
       else js == [Insert(flow, n, PacketRow(flow, t, None, Some(n + 1)))]
  }

  lemma ContentColumns(cfg: Config, flow: nat, t: nat, n: nat, block: Option<Block>)
    requires t < 32
    ensures HasContent(cfg, ContentRows(cfg, flow, t, n, block), flow, t, n, block)
  {
    var js := ContentRows(cfg, flow, t, n, block);
    if ContentTable(cfg, block).Some? {
      BlockTableByType(block.value);
      hide BlockTable;
      assert js[0] == Insert(flow, n + 1, BlockRow(n, block.value));
      assert js[1] == Insert(flow, n, PacketRow(flow, t, Some(BlockTable(block.value)), Some(n + 1)));
    }
  }

  lemma AckColumns(cfg: Config, flow: nat, m: Message, n: nat)
    requires m.body.ConfirmAck? && m.header.messageType < 32
    ensures var js, block := MessageRows(cfg, flow, m, n), m.body.ackBlock;
            var vote := if block.Some? then n + 2 else n + 1;
            && HasBlock(cfg, js, flow, n, BlockOf(block)) && Has(js, flow, Votes, vote, VoteRow(n))
            && Has(js, flow, Packets, n, PacketRow(flow, m.header.messageType, Some(Votes), Some(vote)))
  {
    var js, block := MessageRows(cfg, flow, m, n), BlockOf(m.body.ackBlock);
    var vote := if m.body.ackBlock.Some? then n + 2 else n + 1;
    if ContentTable(cfg, block).Some? {
      BlockTableByType(block.value);
      hide BlockTable;
      assert js[0] == Insert(flow, n + 1, BlockRow(n, block.value));
    }
    assert js[|js| - 2] == Insert(flow, vote, VoteRow(n));
    assert js[|js| - 1] == Insert(flow, n, PacketRow(flow, m.header.messageType, Some(Votes), Some(vote)));
  }

  lemma HandshakeColumns(cfg: Config, flow: nat, m: Message, n: nat)
    requires m.body.NodeIdHandshake?
    ensures var js, q, r := MessageRows(cfg, flow, m, n), m.body.query, m.body.response;
            && |js| == 1 + (if q.Some? then 1 else 0) + (if r.Some? then 1 else 0)
            && (q.Some? ==> Has(js, flow, NodeidQueries, n + 1, NodeidQueryRow(n, q.value)))
            && (r.Some? ==> Has(js, flow, NodeidResponses, n + |js| - 1, NodeidResponseRow(n, r.value)))
  {
    var js := MessageRows(cfg, flow, m, n);
    if m.body.query.Some? {
      assert js[1] == Insert(flow, n + 1, NodeidQueryRow(n, m.body.query.value));
    }
    if m.body.response.Some? {
      assert js[|js| - 1] == Insert(flow, n + |js| - 1, NodeidResponseRow(n, m.body.response.value));
    }
  }

  /** Exactly one of them is a packet, and it carries the message's type. */
  lemma OnePacketPerMessage(cfg: Config, flow: nat, m: Message, n: nat)
    ensures var js := MessageRows(cfg, flow, m, n);
            exists i :: 0 <= i < |js| && js[i].row.PacketRow? && js[i].id == n &&
                js[i].row.msgType == m.header.messageType &&
              forall j :: 0 <= j < |js| && js[j].row.PacketRow? ==> j == i
  {
    var js := MessageRows(cfg, flow, m, n);
    if m.body.Publish? || m.body.ConfirmReq? || m.body.ConfirmAck? {
      assert js[|js| - 1].row.PacketRow?;
    } else {
      assert js[0].row.PacketRow?;
    }
  }

  /**
   The packet of a publish or confirm_req names a row that has been inserted exactly when its
   block was recorded; otherwise its content id names nothing.
   */
  lemma ContentIsNamedWhen(cfg: Config, flow: nat, t: nat, n: nat, block: Option<Block>)
    ensures var js := ContentRows(cfg, flow, t, n, block);
            var p := js[|js| - 1].row;
            && p.PacketRow? && p.contentId == Some(n + 1)
            && ((exists i :: 0 <= i < |js| && js[i].id == n + 1) <==>
                  cfg.blockDetails && block.Some? && !block.value.Ignored?)
            && (p.contentTable.Some? ==>
                  js[0].id == n + 1 && Storable(js[0].row) && TableOf(js[0].row) == p.contentTable.value)
  {
    var js := ContentRows(cfg, flow, t, n, block);
    if ContentTable(cfg, block).Some? {
      assert js[0].id == n + 1;
    }
  }

  /** A block, if there is one, the vote, and the packet that names the vote. */
  lemma AckRows(cfg: Config, flow: nat, m: Message, n: nat)
    requires m.body.ConfirmAck?
    ensures var vote := if m.body.ackBlock.Some? then n + 2 else n + 1;
            && MessageIds(m) == vote + 1 - n
            && MessageRows(cfg, flow, m, n) ==
               BlockRows(cfg, flow, n + 1, n, BlockOf(m.body.ackBlock)) +
               [Insert(flow, vote, VoteRow(n)),
                Insert(flow, n, PacketRow(flow, m.header.messageType, Some(Votes), Some(vote)))]
  {
    hide BlockRows;
  }

  lemma AccountRows(cfg: Config, flow: nat, m: Message, n: nat)
    requires m.body.BulkPullAccount?
    ensures MessageIds(m) == 2
    ensures MessageRows(cfg, flow, m, n) ==
            [Insert(flow, n, PacketRow(flow, m.header.messageType, None, None)),
             Insert(flow, n + 1, BulkPullAccountRequestRow(n, m.body.account, m.body.minimumAmount, m.body.flags))]
  {}

  lemma NoBlockRows(cfg: Config, flow: nat, id: nat, packetId: nat)
    ensures BlockRows(cfg, flow, id, packetId, None) == []
  {}

  lemma HandshakeRows(cfg: Config, flow: nat, m: Message, n: nat)
    requires m.body.NodeIdHandshake?
    ensures var q, r := m.body.query, m.body.response;
            && MessageIds(m) == 1 + (if q.Some? then 1 else 0) + (if r.Some? then 1 else 0)
            && MessageRows(cfg, flow, m, n) ==
               [Insert(flow, n, PacketRow(flow, m.header.messageType, None, None))] +
               (if q.Some? then [Insert(flow, n + 1, NodeidQueryRow(n, q.value))] else []) +
               (if r.Some? then [Insert(flow, n + if q.Some? then 2 else 1, NodeidResponseRow(n, r.value))] else [])
  {}

  lemma EventRowIds(cfg: Config, flow: nat, e: Event, n: nat, link: nat)
    ensures var js := EventRows(cfg, flow, e, n, link);
            && (forall i :: 0 <= i < |js| ==> n <= js[i].id < n + EventIds(cfg, e) && js[i].flow == flow)
            && (forall i, j :: 0 <= i < j < |js| ==> js[i].id != js[j].id)
  {
    hide MessageRows, MessageIds;
    if e.PutMessage? {
      MessageRowIds(cfg, flow, e.message, n);
    }
  }

  /** In every capture no id is given to two rows, and all are drawn from the dispenser. */
  lemma {:induction false} IdsAreDistinct(cfg: Config, first: nat, links: map<nat, nat>, log: seq<(nat, Event)>)
    ensures var b := PostAll(cfg, Book([], first, links), log);
            && first <= b.next
            && (forall i :: 0 <= i < |b.rows| ==> first <= b.rows[i].id < b.next)
            && (forall i, j :: 0 <= i < j < |b.rows| ==> b.rows[i].id != b.rows[j].id)
  {
    hide EventRows, EventIds;
    if |log| > 0 {
      IdsAreDistinct(cfg, first, links, log[..|log| - 1]);
      var c := PostAll(cfg, Book([], first, links), log[..|log| - 1]);
      var e := log[|log| - 1];
      EventRowIds(cfg, e.0, e.1, c.next, LinkOf(c.links, e.0));
    }
  }

  function IdsOf(js: seq<Insert>): set<nat> { set i | 0 <= i < |js| :: js[i].id }

  lemma IdsOfJoin(a: seq<Insert>, b: seq<Insert>)
    ensures IdsOf(a + b) == IdsOf(a) + IdsOf(b)
  {
    forall id | id in IdsOf(a) + IdsOf(b)
      ensures id in IdsOf(a + b)
    {
      if id in IdsOf(a) {
        var i :| 0 <= i < |a| && a[i].id == id;
        assert (a + b)[i].id == id;
      } else {
        var i :| 0 <= i < |b| && b[i].id == id;
        assert (a + b)[|a| + i].id == id;
      }
    }
  }

  // ---- References ----

  /** A flow in a stream: the row of the request that the stream answers, or of the push itself, has been inserted. */
  ghost predicate FlowLinked(js: seq<Insert>, flow: nat, msgType: nat, link: nat) {
    && (KindOf(msgType).Some? ==> InsertedBefore(js, |js|, flow, link, Packets))
    && (msgType == FRONTIER_REQ ==> InsertedBefore(js, |js|, flow, link + 1, FrontierRequests))
    && (msgType == BULK_PULL ==> InsertedBefore(js, |js|, flow, link + 1, BulkPullRequests))
  }

  lemma FlowStaysLinked(js: seq<Insert>, more: seq<Insert>, flow: nat, msgType: nat, link: nat)
    requires FlowLinked(js, flow, msgType, link)
    ensures FlowLinked(js + more, flow, msgType, link)
  {
    hide InsertedBefore;
    if KindOf(msgType).Some? {
      InsertedOn(js, more, flow, link, Packets);
    }
    if msgType == FRONTIER_REQ {
      InsertedOn(js, more, flow, link + 1, FrontierRequests);
    } else if msgType == BULK_PULL {
      InsertedOn(js, more, flow, link + 1, BulkPullRequests);
    }
  }

  lemma InsertedOn(js: seq<Insert>, more: seq<Insert>, flow: nat, id: nat, table: Table)
    requires InsertedBefore(js, |js|, flow, id, table)
    ensures InsertedBefore(js + more, |js + more|, flow, id, table)
  {
    hide InsertedBefore;
    InsertedStays(js, more, |js|, flow, id, table);
    InsertedLater(js + more, |js|, |js + more|, flow, id, table);
  }

  /** The rows of a message name its packet, and its packet the content. */
  lemma MessageRowsRefer(cfg: Config, js: seq<Insert>, flow: nat, m: Message, n: nat, j: nat)
    requires m.header.messageType < 32 && j < |MessageRows(cfg, flow, m, n)|
    ensures Refers(js + MessageRows(cfg, flow, m, n), |js| + j)
  {
    hide InsertedBefore, BlockTable;
    var more := MessageRows(cfg, flow, m, n);
    OnePacketPerMessage(cfg, flow, m, n);
    MessageRowIds(cfg, flow, m, n);
    var i :| 0 <= i < |more| && more[i].row.PacketRow? && more[i].id == n &&
        more[i].row.msgType == m.header.messageType;
    Witness(js, more, i, Packets);
    assert (js + more)[|js| + j] == more[j];
    if more[j].row.PacketRow? {
      ContentRefers(cfg, js, flow, m, n, j);
    } else {
      MessageRowNames(cfg, flow, m, n, j);
    }
  }

  lemma MessageRowNames(cfg: Config, flow: nat, m: Message, n: nat, j: nat)
    requires var js := MessageRows(cfg, flow, m, n); j < |js| && !js[j].row.PacketRow?
    ensures var r := MessageRows(cfg, flow, m, n)[j].row;
            PacketOf(r) == Some(n) && !r.FrontierResponseRow? && !r.BulkPullResponseRow? && !r.BulkPushEntryRow?
  {}

  /** The content that a packet names is in the row before it, or in the first of them. */
  lemma ContentRefers(cfg: Config, js: seq<Insert>, flow: nat, m: Message, n: nat, j: nat)
    requires var more := MessageRows(cfg, flow, m, n); j < |more| && more[j].row.PacketRow?
    ensures var more := MessageRows(cfg, flow, m, n);
            var r := more[j].row;
            r.contentTable.Some? && r.contentId.Some? ==>
              InsertedBefore(js + more, |js + more|, flow, r.contentId.value, r.contentTable.value)
  {
    hide InsertedBefore, BlockTable;
    var more := MessageRows(cfg, flow, m, n);
    var r := more[j].row;
    if r.contentTable.Some? && r.contentId.Some? {
      assert j > 0;
      Witness(js, more, j - 1, r.contentTable.value);
    }
  }

  /** A request that opens a stream leaves its flow linked to it. */
  lemma RequestLinks(cfg: Config, js: seq<Insert>, flow: nat, m: Message, n: nat)
    requires m.body.FrontierReq? || m.body.BulkPull? || m.body.BulkPush?
    requires Matches(m)
    ensures FlowLinked(js + MessageRows(cfg, flow, m, n), flow, m.header.messageType, n)
  {
    hide InsertedBefore;
    var more := MessageRows(cfg, flow, m, n);
    Witness(js, more, 0, Packets);
    if m.body.FrontierReq? {
      Witness(js, more, 1, FrontierRequests);
    } else if m.body.BulkPull? {
      Witness(js, more, 1, BulkPullRequests);
    }
  }

  lemma Witness(js: seq<Insert>, more: seq<Insert>, i: nat, table: Table)
    requires i < |more| && Storable(more[i].row) && TableOf(more[i].row) == table
    ensures InsertedBefore(js + more, |js + more|, more[i].flow, more[i].id, table)
  {
    assert (js + more)[|js| + i] == more[i];
  }

  /** Putting a message keeps the references, and links its flow to it. */
  lemma MessageKeepsLinks(cfg: Config, js: seq<Insert>, flow: nat, m: Message, n: nat)
    requires Linked(js) && Matches(m) && Handled(m)
    ensures Linked(js + MessageRows(cfg, flow, m, n))
    ensures FlowLinked(js + MessageRows(cfg, flow, m, n), flow, m.header.messageType, n)
  {
    hide Linked, InsertedBefore, MessageRows, Refers;
    var more := MessageRows(cfg, flow, m, n);
    forall j | |js| <= j < |js + more|
      ensures Refers(js + more, j)
    {
      MessageRowsRefer(cfg, js, flow, m, n, j - |js|);
    }
    LinkedGrows(js, more);
    if m.body.FrontierReq? || m.body.BulkPull? || m.body.BulkPush? {
      RequestLinks(cfg, js, flow, m, n);
    }
  }

  /** The rows of an entry refer to the request of its flow, and to the block just inserted. */
  lemma ItemKeepsLinks(cfg: Config, js: seq<Insert>, flow: nat, kind: Kind, item: Item, n: nat, link: nat)
    requires Linked(js) && FlowLinked(js, flow, RequestType(kind), link)
    requires kind == Frontier <==> item.FrontierItem?
    ensures Linked(js + EntryRows(cfg, flow, kind, item, n, link))
  {
    hide InsertedBefore, Linked;
    var more := EntryRows(cfg, flow, kind, item, n, link);
    if more == [] {
      assert js + more == js;
    } else {
      InsertedOn(js, more, flow, link, Packets);
      if item.FrontierItem? {
        InsertedStays(js, more, |js|, flow, link + 1, FrontierRequests);
      } else {
        BlockRefers(cfg, js, flow, kind, item.entry.block, n, link);
        assert more == [more[0], more[1]];
        assert (js + more)[|js| + 1] == more[1];
        assert Refers(js + more, |js| + 1);
      }
      assert (js + more)[|js|] == more[0];
      assert Refers(js + more, |js|);
      LinkedGrows(js, more);
    }
  }

  /** The rows of a block entry: what the second refers to is there before it. */
  lemma BlockRefers(cfg: Config, js: seq<Insert>, flow: nat, kind: Kind, block: Block, n: nat, link: nat)
    requires FlowLinked(js, flow, RequestType(kind), link) && kind != Frontier && ContentTable(cfg, Some(block)).Some?
    ensures var r := if kind == Kind.BulkPull then BulkPullResponseRow(link + 1, n, BlockTable(block))
                     else BulkPushEntryRow(link, n, BlockTable(block));
            var all := js + [Insert(flow, n, BlockRow(link, block)), Insert(flow, n + 1, r)];
            && InsertedBefore(all, |js| + 1, flow, n, BlockTable(block))
            && (if kind == Kind.BulkPull then InsertedBefore(all, |js| + 1, flow, link + 1, BulkPullRequests)
                else InsertedBefore(all, |js| + 1, flow, link, Packets))
  {
    hide InsertedBefore, BlockTable;
    var b := Insert(flow, n, BlockRow(link, block));
    var r := if kind == Kind.BulkPull then BulkPullResponseRow(link + 1, n, BlockTable(block))
             else BulkPushEntryRow(link, n, BlockTable(block));
    assert js + [b, Insert(flow, n + 1, r)] == js + [b] + [Insert(flow, n + 1, r)];
    Witness(js, [b], 0, BlockTable(block));
    InsertedStays(js + [b], [Insert(flow, n + 1, r)], |js| + 1, flow, n, BlockTable(block));
    FlowStaysLinked(js, [b], flow, RequestType(kind), link);
    var id := if kind == Kind.BulkPull then link + 1 else link;
    var table := if kind == Kind.BulkPull then BulkPullRequests else Packets;
    InsertedStays(js + [b], [Insert(flow, n + 1, r)], |js| + 1, flow, id, table);
  }

  /** The type of the message that each flow put last. */
  function LastTypes(log: seq<(nat, Event)>): map<nat, nat> {
    if |log| == 0 then map[]
    else
      var before := LastTypes(log[..|log| - 1]);
      var e := log[|log| - 1];
      if e.1.PutMessage? then before[e.0 := e.1.message.header.messageType] else before
  }

  /** An entry of a stream that is stored comes on a flow whose last message is the stream's request. */
  predicate InPlace(cfg: Config, types: map<nat, nat>, e: (nat, Event)) {
    match e.1
    case PutMessage(m) => Matches(m) && Handled(m)
    case PutItem(kind, item) =>
      (kind == Frontier <==> item.FrontierItem?) &&
          (Tabled(cfg, item) ==> e.0 in types && types[e.0] == RequestType(kind))
    case PutConnection(_) => true
  }

  /** Everything in the log comes in its place. */
  predicate Orderly(cfg: Config, log: seq<(nat, Event)>) {
    |log| == 0 || (Orderly(cfg, log[..|log| - 1]) && InPlace(cfg, LastTypes(log[..|log| - 1]), log[|log| - 1]))
  }

  /** Every flow is linked to the row of its last message. */
  ghost predicate AllLinked(types: map<nat, nat>, b: Book) {
    forall k :: k in types ==> k in b.links && FlowLinked(b.rows, k, types[k], b.links[k])
  }

  lemma PostKeepsLinks(cfg: Config, b: Book, types: map<nat, nat>, e: (nat, Event))
    requires Linked(b.rows) && AllLinked(types, b) && InPlace(cfg, types, e)
    ensures Linked(Post(cfg, b, e).rows)
    ensures AllLinked(if e.1.PutMessage? then types[e.0 := e.1.message.header.messageType] else types, Post(cfg, b, e))
  {
    hide Linked, FlowLinked, MessageRows, EntryRows, Matches;
    var more := EventRows(cfg, e.0, e.1, b.next, LinkOf(b.links, e.0));
    forall k | k in types
      ensures FlowLinked(b.rows + more, k, types[k], b.links[k])
    {
      FlowStaysLinked(b.rows, more, k, types[k], b.links[k]);
    }
    match e.1
    case PutMessage(m) => MessageKeepsLinks(cfg, b.rows, e.0, m, b.next);
    case PutItem(kind, item) =>
      if Tabled(cfg, item) {
        ItemKeepsLinks(cfg, b.rows, e.0, kind, item, b.next, b.links[e.0]);
      } else {
        NoEntryRows(cfg, e.0, kind, item, b.next, LinkOf(b.links, e.0));
        assert b.rows + [] == b.rows;
      }
    case PutConnection(_) =>
      assert (b.rows + more)[|b.rows|] == more[0];
      LinkedGrows(b.rows, more);
  }

  lemma NoEntryRows(cfg: Config, flow: nat, kind: Kind, item: Item, n: nat, link: nat)
    requires !Tabled(cfg, item)
    ensures EntryRows(cfg, flow, kind, item, n, link) == []
  {}

  /** In an orderly log every reference names a row inserted earlier on the same flow, whatever ids came before. */
  lemma {:induction false} OrderlyIsLinked(cfg: Config, first: nat, links: map<nat, nat>, log: seq<(nat, Event)>)
    requires Orderly(cfg, log)
    ensures var b := PostAll(cfg, Book([], first, links), log); Linked(b.rows) && AllLinked(LastTypes(log), b)
  {
    hide Linked, AllLinked, Post, InPlace;
    if |log| == 0 {
      NothingLinked(Book([], first, links));
    } else {
      OrderlyIsLinked(cfg, first, links, log[..|log| - 1]);
      PostKeepsLinks(cfg, PostAll(cfg, Book([], first, links), log[..|log| - 1]), LastTypes(log[..|log| - 1]),
                     log[|log| - 1]);
    }
  }

  lemma NothingLinked(b: Book)
    requires b.rows == []
    ensures Linked(b.rows) && AllLinked(map[], b)
  {}

  // ---- Flows apart ----

  /** Events of one flow, as the log has them. */
  function Tagged(flow: nat, events: seq<Event>): (r: seq<(nat, Event)>)
    ensures |r| == |events|
  {
    seq(|events|, i requires 0 <= i < |events| => (flow, events[i]))
  }

  lemma TaggedJoins(flow: nat, a: seq<Event>, b: seq<Event>)
    ensures Tagged(flow, a + b) == Tagged(flow, a) + Tagged(flow, b)
  {}

  /** What flow k has handed over. */
  function EventsOf(log: seq<(nat, Event)>, k: nat): seq<Event> {
    if |log| == 0 then []
    else EventsOf(log[..|log| - 1], k) + if log[|log| - 1].0 == k then [log[|log| - 1].1] else []
  }

  lemma {:induction false} EventsOfTagged(log: seq<(nat, Event)>, key: nat, es: seq<Event>, k: nat)
    ensures EventsOf(log + Tagged(key, es), k) == EventsOf(log, k) + if k == key then es else []
  {
    if |es| == 0 {
      assert log + Tagged(key, es) == log;
    } else {
      var all, front := log + Tagged(key, es), es[..|es| - 1];
      assert all[..|all| - 1] == log + Tagged(key, front) && all[|all| - 1] == (key, es[|es| - 1]);
      EventsOfTagged(log, key, front, k);
      assert front + [es[|es| - 1]] == es;
    }
  }

  /** The rows that flow k has inserted. */
  function RowsOf(js: seq<Insert>, k: nat): seq<Insert> {
    if |js| == 0 then []
    else RowsOf(js[..|js| - 1], k) + if js[|js| - 1].flow == k then [js[|js| - 1]] else []
  }

  lemma {:induction false} RowsOfJoin(a: seq<Insert>, b: seq<Insert>, k: nat)
    ensures RowsOf(a + b, k) == RowsOf(a, k) + RowsOf(b, k)
  {
    if |b| == 0 {
      assert a + b == a;
    } else {
      var all, front := a + b, b[..|b| - 1];
      assert all[..|all| - 1] == a + front && all[|all| - 1] == b[|b| - 1];
      RowsOfJoin(a, front, k);
    }
  }

  lemma {:induction false} RowsOfOne(js: seq<Insert>, flow: nat, k: nat)
    requires forall i :: 0 <= i < |js| ==> js[i].flow == flow
    ensures RowsOf(js, k) == if k == flow then js else []
  {
    if |js| > 0 {
      RowsOfOne(js[..|js| - 1], flow, k);
      assert js[..|js| - 1] + [js[|js| - 1]] == js;
    }
  }

  /** A row without the ids that the dispenser gave it and the rows it names. */
  function Erased(r: Row): Row {
    match r
    case PacketRow(f, t, table, id) => PacketRow(f, t, table, if id.Some? then Some(0) else None)
    case ConnectionRow(_, _) => r
    case HostRow(_, p) => HostRow(0, p)
    case VoteRow(_) => VoteRow(0)
    case BlockRow(_, b) => BlockRow(0, b)
    case NodeidQueryRow(_, c) => NodeidQueryRow(0, c)
    case NodeidResponseRow(_, s) => NodeidResponseRow(0, s)
    case TelemetryRow(_, fs) => TelemetryRow(0, fs)
    case FrontierRequestRow(_, s, a, c) => FrontierRequestRow(0, s, a, c)
    case FrontierResponseRow(_, e) => FrontierResponseRow(0, e)
    case BulkPullRequestRow(_, s, e, c) => BulkPullRequestRow(0, s, e, c)
    case BulkPullResponseRow(_, _, t) => BulkPullResponseRow(0, 0, t)
    case BulkPullAccountRequestRow(_, a, m, fs) => BulkPullAccountRequestRow(0, a, m, fs)
    case BulkPushEntryRow(_, _, t) => BulkPushEntryRow(0, 0, t)
  }

  function AllErased(js: seq<Insert>): (rs: seq<Row>)
    ensures |rs| == |js|
  {
    seq(|js|, i requires 0 <= i < |js| => Erased(js[i].row))
  }

  /** What the events of a flow on its own leave, ids apart. */
  function Content(cfg: Config, flow: nat, events: seq<Event>): seq<Row> {
    if |events| == 0 then []
    else Content(cfg, flow, events[..|events| - 1]) + AllErased(EventRows(cfg, flow, events[|events| - 1], 0, 0))
  }

  lemma MessageContent(cfg: Config, flow: nat, m: Message, n: nat)
    ensures AllErased(MessageRows(cfg, flow, m, n)) == AllErased(MessageRows(cfg, flow, m, 0))
  {
    hide BlockTable;
  }

  lemma EventContent(cfg: Config, flow: nat, e: Event, n: nat, link: nat)
    ensures AllErased(EventRows(cfg, flow, e, n, link)) == AllErased(EventRows(cfg, flow, e, 0, 0))
  {
    hide MessageRows, BlockTable;
    if e.PutMessage? {
      MessageContent(cfg, flow, e.message, n);
    }
  }

  /** Ids apart, the rows of a flow are those of its own events, whatever the other flows put in between. */
  lemma {:induction false} RowsStayApart(cfg: Config, first: nat, links: map<nat, nat>, log: seq<(nat, Event)>, k: nat)
    ensures AllErased(RowsOf(PostAll(cfg, Book([], first, links), log).rows, k)) == Content(cfg, k, EventsOf(log, k))
  {
    hide EventRows, EventIds, Erased;
    if |log| > 0 {
      var front, e := log[..|log| - 1], log[|log| - 1];
      RowsStayApart(cfg, first, links, front, k);
      var b := PostAll(cfg, Book([], first, links), front);
      var more := EventRows(cfg, e.0, e.1, b.next, LinkOf(b.links, e.0));
      EventRowIds(cfg, e.0, e.1, b.next, LinkOf(b.links, e.0));
      RowsOfJoin(b.rows, more, k);
      RowsOfOne(more, e.0, k);
      EventContent(cfg, e.0, e.1, b.next, LinkOf(b.links, e.0));
      ErasedJoins(RowsOf(b.rows, k), RowsOf(more, k));
      if k == e.0 {
        ContentSnoc(cfg, k, EventsOf(front, k), e.1);
      } else {
        assert EventsOf(log, k) == EventsOf(front, k);
      }
    }
  }

  lemma {:induction false} EventsOfJoin(a: seq<(nat, Event)>, b: seq<(nat, Event)>, k: nat)
    ensures EventsOf(a + b, k) == EventsOf(a, k) + EventsOf(b, k)
  {
    if |b| == 0 {
      assert a + b == a;
    } else {
      var all, front := a + b, b[..|b| - 1];
      assert all[..|all| - 1] == a + front && all[|all| - 1] == b[|b| - 1];
      EventsOfJoin(a, front, k);
    }
  }

  /** Rows in the order of their ids. */
  predicate Ascending(js: seq<Insert>) { forall i, j :: 0 <= i < j < |js| ==> js[i].id < js[j].id }

  lemma {:induction false} RowsOfAmong(js: seq<Insert>, k: nat)
    ensures forall i :: 0 <= i < |RowsOf(js, k)| ==> RowsOf(js, k)[i] in js
  {
    if |js| > 0 {
      RowsOfAmong(js[..|js| - 1], k);
      assert js == js[..|js| - 1] + [js[|js| - 1]];
    }
  }

  /** While a flow puts no message, the order of its rows is that of their ids. */
  lemma {:induction false} OwnRowsAscend(cfg: Config, first: nat, links: map<nat, nat>, log: seq<(nat, Event)>, k: nat)
    requires forall i :: 0 <= i < |EventsOf(log, k)| ==> !EventsOf(log, k)[i].PutMessage?
    ensures Ascending(RowsOf(PostAll(cfg, Book([], first, links), log).rows, k))
  {
    hide EventRows, EventIds;
    if |log| > 0 {
      var front, e := log[..|log| - 1], log[|log| - 1];
      assert EventsOf(front, k) <= EventsOf(log, k);
      OwnRowsAscend(cfg, first, links, front, k);
      var b := PostAll(cfg, Book([], first, links), front);
      IdsAreDistinct(cfg, first, links, front);
      RowsOfAmong(b.rows, k);
      var more := EventRows(cfg, e.0, e.1, b.next, LinkOf(b.links, e.0));
      EventRowIds(cfg, e.0, e.1, b.next, LinkOf(b.links, e.0));
      RowsOfJoin(b.rows, more, k);
      RowsOfOne(more, e.0, k);
      if k == e.0 {
        assert EventsOf(log, k)[|EventsOf(front, k)|] == e.1;
        PlainRowsAscend(cfg, e.0, e.1, b.next, LinkOf(b.links, e.0));
      }
    }
  }

  lemma PlainRowsAscend(cfg: Config, flow: nat, e: Event, n: nat, link: nat)
    requires !e.PutMessage?
    ensures Ascending(EventRows(cfg, flow, e, n, link))
  {}

  lemma ErasedJoins(a: seq<Insert>, b: seq<Insert>)
    ensures AllErased(a + b) == AllErased(a) + AllErased(b)
  {
    hide Erased;
  }

  lemma ContentSnoc(cfg: Config, flow: nat, events: seq<Event>, e: Event)
    ensures Content(cfg, flow, events + [e]) == Content(cfg, flow, events) + AllErased(EventRows(cfg, flow, e, 0, 0))
  {
    hide AllErased, EventRows;
    assert (events + [e])[..|events|] == events;
  }

  // ---- The tables ----

  function KeyOf(i: Insert): Key
    requires Storable(i.row)
  {
    (TableOf(i.row), i.id)
  }

  predicate AllStorable(js: seq<Insert>) { forall i :: 0 <= i < |js| ==> Storable(js[i].row) }

  /** The tables after inserting rows into them. */
  function Stored(base: Rows, js: seq<Insert>): Rows
    requires AllStorable(js)
  {
    if |js| == 0 then base else Stored(base, js[..|js| - 1])[KeyOf(js[|js| - 1]) := js[|js| - 1].row]
  }

  lemma StoredSnoc(base: Rows, js: seq<Insert>, i: Insert)
    requires AllStorable(js) && Storable(i.row)
    ensures AllStorable(js + [i]) && Stored(base, js + [i]) == Stored(base, js)[KeyOf(i) := i.row]
  {
    hide Storable, TableOf;
    assert (js + [i])[..|js|] == js;
  }

  /** The tables hold a row under every key inserted. */
  lemma {:induction false} StoredKeys(base: Rows, js: seq<Insert>, i: nat)
    requires AllStorable(js) && i < |js|
    ensures KeyOf(js[i]) in Stored(base, js)
  {
    hide Storable, TableOf;
    if i < |js| - 1 {
      StoredKeys(base, js[..|js| - 1], i);
    }
  }

  /** And nothing but the rows inserted and what was there before. */
  lemma {:induction false} StoredRows(base: Rows, js: seq<Insert>, k: Key)
    requires AllStorable(js) && k in Stored(base, js)
    ensures (k in base && Stored(base, js)[k] == base[k]) ||
            exists i :: 0 <= i < |js| && KeyOf(js[i]) == k && js[i].row == Stored(base, js)[k]
  {
    hide Storable, TableOf;
    if |js| > 0 && KeyOf(js[|js| - 1]) != k {
      StoredRows(base, js[..|js| - 1], k);
    }
  }

  /** Rows under fresh and distinct ids neither replace one another nor what was there before. */
  lemma {:induction false} NothingIsReplaced(base: Rows, js: seq<Insert>, i: nat)
    requires AllStorable(js) && i < |js|
    requires forall j, l :: 0 <= j < l < |js| ==> js[j].id != js[l].id
    requires forall k, j :: k in base && 0 <= j < |js| ==> js[j].id != k.1
    ensures KeyOf(js[i]) in Stored(base, js) && Stored(base, js)[KeyOf(js[i])] == js[i].row
    ensures forall k :: k in base ==> k in Stored(base, js) && Stored(base, js)[k] == base[k]
  {
    hide Storable, TableOf;
    var front := js[..|js| - 1];
    if |front| > 0 {
      NothingIsReplaced(base, front, if i < |front| then i else 0);
    }
  }

  /** The rows that a row names are in the tables. */
  predicate NamesRows(r: Row, rows: Rows) {
    && (PacketOf(r).Some? ==> (Packets, PacketOf(r).value) in rows)
    && match r
       case PacketRow(_, _, t, c) => t.Some? && c.Some? ==> (t.value, c.value) in rows
       case FrontierResponseRow(q, _) => (FrontierRequests, q) in rows
       case BulkPullResponseRow(q, b, t) => (BulkPullRequests, q) in rows && (t, b) in rows
       case BulkPushEntryRow(_, b, t) => (t, b) in rows
       case _ => true
  }

  /** Linked rows name rows of the tables, once they are stored. */
  lemma LinkedRowsName(base: Rows, js: seq<Insert>)
    requires AllStorable(js) && Linked(js)
    ensures forall k :: k in Stored(base, js) ==>
              (k in base && Stored(base, js)[k] == base[k]) || NamesRows(Stored(base, js)[k], Stored(base, js))
  {
    hide Storable, TableOf, Linked;
    forall k | k in Stored(base, js) && !(k in base && Stored(base, js)[k] == base[k])
      ensures NamesRows(Stored(base, js)[k], Stored(base, js))
    {
      StoredRows(base, js, k);
      var i :| 0 <= i < |js| && KeyOf(js[i]) == k && js[i].row == Stored(base, js)[k];
      LinkedNames(base, js, i);
    }
  }

  lemma LinkedNames(base: Rows, js: seq<Insert>, j: nat)
    requires AllStorable(js) && Linked(js) && j < |js|
    ensures NamesRows(js[j].row, Stored(base, js))
  {
    hide Storable, TableOf, InsertedBefore, Stored;
    assert Refers(js, j);
    if PacketOf(js[j].row).Some? {
      BeforeIsStored(base, js, |js|, js[j].flow, PacketOf(js[j].row).value, Packets);
    }
    match js[j].row
    case PacketRow(_, _, t, c) =>
      if t.Some? && c.Some? {
        BeforeIsStored(base, js, |js|, js[j].flow, c.value, t.value);
      }
    case FrontierResponseRow(q, _) => BeforeIsStored(base, js, j, js[j].flow, q, FrontierRequests);
    case BulkPullResponseRow(q, b, t) =>
      BeforeIsStored(base, js, j, js[j].flow, q, BulkPullRequests);
      BeforeIsStored(base, js, j, js[j].flow, b, t);
    case BulkPushEntryRow(p, b, t) =>
      BeforeIsStored(base, js, j, js[j].flow, p, Packets);
      BeforeIsStored(base, js, j, js[j].flow, b, t);
    case _ =>
  }

  lemma BeforeIsStored(base: Rows, js: seq<Insert>, j: nat, flow: nat, id: nat, table: Table)
    requires AllStorable(js) && j <= |js| && InsertedBefore(js, j, flow, id, table)
    ensures (table, id) in Stored(base, js)
  {
    hide TableOf, Stored;
    var i :| 0 <= i < j && js[i].flow == flow && js[i].id == id && Storable(js[i].row) && TableOf(js[i].row) == table;
    StoredKeys(base, js, i);
  }

  /** The messages put are the ones that are recorded. */
  predicate GoodMessages(log: seq<(nat, Event)>) {
    forall i :: 0 <= i < |log| && log[i].1.PutMessage? ==> Matches(log[i].1.message) && Handled(log[i].1.message)
  }

  /** Everything in such a log can be stored. */
  lemma {:induction false} AllIsStorable(cfg: Config, b: Book, log: seq<(nat, Event)>)
    requires GoodMessages(log) && AllStorable(b.rows)
    ensures AllStorable(PostAll(cfg, b, log).rows)
  {
    hide EventRows, EventIds, Storable;
    if |log| > 0 {
      AllIsStorable(cfg, b, log[..|log| - 1]);
      var c := PostAll(cfg, b, log[..|log| - 1]);
      var e := log[|log| - 1];
      EventIsStorable(cfg, e.0, e.1, c.next, LinkOf(c.links, e.0));
    }
  }

  lemma EventIsStorable(cfg: Config, flow: nat, e: Event, n: nat, link: nat)
    requires e.PutMessage? ==> e.message.header.messageType < 32
    ensures AllStorable(EventRows(cfg, flow, e, n, link))
  {}
}
