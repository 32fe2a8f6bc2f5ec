/**
 The capture database in place: tables of rows under primary keys, the dispenser of ids, the
 table of runs that keeps the ids of different runs apart, and the counts of packets by type that
 are kept beside the packet table.  The tables are proved to hold exactly the rows that the
 ledger has for what was handed over.  Inserting always succeeds; that it can is proved, since
 no primary key is ever used twice.
 */
module Database {
  import opened Bytes
  import opened Flow
  import opened Ledger
  import opened Messages
  import opened NanoBlocks
  import opened Streams

  class Db {
    const cfg: Config
    var rows: Rows
    var nextId: nat
    /** The table of runs, and the counter behind its autoincrement key. */
    var runs: set<nat>
    var sequence: nat
    var countPerType: seq<nat>

    /** Every id ever given to a row of this file; the run this process began with, and its first id. */
    ghost var used: set<nat>
    ghost const base: nat
    ghost const first: nat
    /** What was handed over by which flow, how much of it before the last wipe, and the packet each flow put last. */
    ghost var log: seq<(nat, Event)>
    ghost var wiped: Option<nat>
    ghost var links: map<nat, nat>
    /** The rows inserted since the last wipe, and by this run before it. */
    ghost var journal: seq<Insert>
    ghost var gone: seq<Insert>
    /** The rows that were in the file when it was opened, and the ids used until then. */
    ghost const initial: Rows
    ghost const usedBefore: set<nat>

    /** What was in the tables before the journal. */
    ghost function Base(): Rows
      reads `wiped
    {
      if wiped.Some? then map[] else initial
    }

    ghost predicate Valid()
      reads `rows, `nextId, `runs, `sequence, `countPerType, `used, `journal, `gone, `wiped
    {
      hide Stored;
      && Sound(rows) && (forall k :: k in rows ==> k.1 in used)
      && (forall i :: i in used ==> i < nextId)
      && Counted()
      && base <= sequence && (forall r :: r in runs ==> r <= sequence)
      && BUDGET * base <= nextId
      && AllStorable(journal) && rows == Stored(Base(), journal)
      && used == usedBefore + IdsOf(gone) + IdsOf(journal)
    }

    ghost function Entered(): Book
      reads `journal, `nextId, `links
    {
      Book(journal, nextId, links)
    }

    /** Everything handed over has been entered, and nothing else. */
    ghost predicate Booked()
      reads `journal, `gone, `nextId, `links, `log, `wiped
    {
      && (wiped.Some? ==> wiped.value <= |log|) && Entered() == BookAfter(cfg, first, log, wiped)
      && gone == WipedRows(cfg, first, log, wiped)
    }

    /** The ids used, and the next one, from what has been handed over since the file was opened. */
    lemma UsedIs()
      requires Valid() && Booked()
      ensures used == usedBefore + IdsOf(Ever(cfg, first, log).rows) && nextId == Ever(cfg, first, log).next
    {
      EverIs(cfg, first, log, wiped);
      IdsOfJoin(gone, journal);
    }

    /** The counts agree with the packet table. */
    ghost predicate Counted()
      reads `rows, `countPerType
    {
      |countPerType| == 32 && forall t :: 0 <= t < 32 ==> countPerType[t] == |PacketsOfType(rows, t)|
    }

    /** next_id.fetch_add(1). */
    method FetchAdd() returns (id: nat)
      requires Valid()
      modifies `nextId
      ensures Valid() && id == old(nextId) && nextId == old(nextId) + 1 && id !in used
    {
      id := nextId;
      nextId := nextId + 1;
    }

    /** One INSERT statement; a packet row is counted with it. */
    method InsertRow(flow: nat, id: nat, row: Row)
      requires Valid() && Storable(row) && id < nextId && id !in used
      modifies `rows, `countPerType, `used, `journal
      ensures Valid()
      ensures (TableOf(row), id) !in old(rows)
      ensures used == old(used) + {id} && (!row.PacketRow? ==> countPerType == old(countPerType))
      ensures journal == old(journal) + [Insert(flow, id, row)]
    {
      hide Sound, PacketsOfType, TableOf, Stored, AllStorable, IdsOf;
      ghost var before := rows;
      IdsOfJoin(journal, [Insert(flow, id, row)]);
      IdsOfOne(Insert(flow, id, row));
      var key := (TableOf(row), id);
      SoundGrows(rows, used, key, row);
      StoredSnoc(Base(), journal, Insert(flow, id, row));
      rows := rows[key := row];
      if row.PacketRow? {
        CountsOnePacket(before, key, row);
        countPerType := countPerType[row.msgType := countPerType[row.msgType] + 1];
      } else {
        CountsNoPacket(before, key, row);
      }
      used := used + {id};
      journal := journal + [Insert(flow, id, row)];
    }

    /** put_connection. */
    method PutConnection(flow: nat, note: Note)
      requires Valid()
      modifies `nextId, `rows, `countPerType, `used, `journal, `log
      ensures Valid() && old(used) <= used
      ensures Entered() == Post(cfg, old(Entered()), (flow, Event.PutConnection(note)))
      ensures log == old(log) + [(flow, Event.PutConnection(note))]
    {
      hide Valid;
      var id := FetchAdd();
      InsertRow(flow, id, ConnectionRow(flow, note));
      log := log + [(flow, Event.PutConnection(note))];
    }

    /** put_block: nothing, and no table, unless blocks are recorded and there is one of the five kinds. */
    method PutBlock(flow: nat, block: Option<Block>, id: nat, packetId: nat) returns (table: Option<Table>)
      requires Valid() && id < nextId && id !in used
      modifies `rows, `countPerType, `used, `journal
      ensures Valid() && old(used) <= used <= old(used) + {id}
      ensures table == ContentTable(cfg, block)
      ensures journal == old(journal) + BlockRows(cfg, flow, id, packetId, block)
    {
      hide Valid;
      table := None;
      if cfg.blockDetails && block.Some? && !block.value.Ignored? {
        table := Some(BlockTable(block.value));
        InsertRow(flow, id, BlockRow(packetId, block.value));
      } else {
        assert journal + [] == journal;
      }
    }

    /** The row of a packet without content, with which most messages begin. */
    method PutPacket(flow: nat, msgType: nat) returns (packetId: nat)
      requires Valid() && msgType < 32
      modifies `nextId, `rows, `countPerType, `used, `journal
      ensures Valid() && old(used) <= used && packetId == old(nextId)
      ensures nextId == old(nextId) + 1 && packetId in used
      ensures journal == old(journal) + [Insert(flow, packetId, PacketRow(flow, msgType, None, None))]
    {
      hide Valid;
      packetId := FetchAdd();
      InsertRow(flow, packetId, PacketRow(flow, msgType, None, None));
    }

    // ---- put, one for each message ----

    method PutTelemetryReq(flow: nat, m: Message)
      requires m.body.TelemetryReq?
      requires Valid() && m.header.messageType < 32
      modifies `nextId, `rows, `countPerType, `used, `journal, `links, `log
      ensures Valid() && old(used) <= used
      ensures Entered() == Post(cfg, old(Entered()), (flow, PutMessage(m)))
      ensures log == old(log) + [(flow, PutMessage(m))]
    {
      hide Valid, Post, TableOf;
      PostMessage(cfg, Entered(), flow, m);
      var packetId := PutPacket(flow, m.header.messageType);
      links, log := links[flow := packetId], log + [(flow, PutMessage(m))];
    }

    method PutTelemetryAck(flow: nat, m: Message)
      requires m.body.TelemetryAck?
      requires Valid() && m.header.messageType < 32
      modifies `nextId, `rows, `countPerType, `used, `journal, `links, `log
      ensures Valid() && old(used) <= used
      ensures Entered() == Post(cfg, old(Entered()), (flow, PutMessage(m)))
      ensures log == old(log) + [(flow, PutMessage(m))]
    {
      hide Valid, Post, TableOf;
      PostMessage(cfg, Entered(), flow, m);
      ghost var js := journal;
      var packetId := PutPacket(flow, m.header.messageType);
      var id := FetchAdd();
      InsertRow(flow, id, TelemetryRow(packetId, m.body.fields));
      assert journal == js + MessageRows(cfg, flow, m, packetId);
      links, log := links[flow := packetId], log + [(flow, PutMessage(m))];
    }

    method PutFrontierReq(flow: nat, f: FlowData, m: Message)
      requires m.body.FrontierReq?
      requires Valid() && m.header.messageType < 32
      modifies `nextId, `rows, `countPerType, `used, `journal, `links, `log, f`packetId, f`messageId
      ensures Valid() && old(used) <= used
      ensures Entered() == Post(cfg, old(Entered()), (flow, PutMessage(m)))
      ensures log == old(log) + [(flow, PutMessage(m))]
      ensures f.packetId == old(nextId) && f.messageId == old(nextId) + 1
    {
      hide Valid, Post, TableOf;
      PostMessage(cfg, Entered(), flow, m);
      ghost var js := journal;
      f.packetId := PutPacket(flow, m.header.messageType);
      f.messageId := FetchAdd();
      InsertRow(flow, f.messageId, FrontierRequestRow(f.packetId, m.body.frontierStart, m.body.age, m.body.count));
      assert journal == js + MessageRows(cfg, flow, m, f.packetId);
      links, log := links[flow := f.packetId], log + [(flow, PutMessage(m))];
    }

    method PutBulkPull(flow: nat, f: FlowData, m: Message)
      requires m.body.BulkPull?
      requires Valid() && m.header.messageType < 32
      modifies `nextId, `rows, `countPerType, `used, `journal, `links, `log, f`packetId, f`messageId
      ensures Valid() && old(used) <= used
      ensures Entered() == Post(cfg, old(Entered()), (flow, PutMessage(m)))
      ensures log == old(log) + [(flow, PutMessage(m))]
      ensures f.packetId == old(nextId) && f.messageId == old(nextId) + 1
    {
      hide Valid, Post, TableOf;
      PostMessage(cfg, Entered(), flow, m);
      ghost var js := journal;
      f.packetId := PutPacket(flow, m.header.messageType);
      f.messageId := FetchAdd();
      var count := if m.body.extendedCount.Some? then m.body.extendedCount.value else 0;
      InsertRow(flow, f.messageId, BulkPullRequestRow(f.packetId, m.body.start, m.body.end, count));
      assert journal == js + MessageRows(cfg, flow, m, f.packetId);
      links, log := links[flow := f.packetId], log + [(flow, PutMessage(m))];
    }

    method PutBulkPullAccount(flow: nat, f: FlowData, m: Message)
      requires m.body.BulkPullAccount?
      requires Valid() && m.header.messageType < 32
      modifies `nextId, `rows, `countPerType, `used, `journal, `links, `log, f`packetId, f`messageId
      ensures Valid() && old(used) <= used
      ensures Entered() == Post(cfg, old(Entered()), (flow, PutMessage(m)))
      ensures log == old(log) + [(flow, PutMessage(m))]
      ensures f.packetId == old(nextId) && f.messageId == old(nextId) + 1
    {
      hide Valid, Post, TableOf, MessageRows, MessageIds;
      PostMessage(cfg, Entered(), flow, m);
      AccountRows(cfg, flow, m, nextId);
      ghost var js := journal;
      f.packetId := FetchAdd();
      f.messageId := FetchAdd();
      InsertRow(flow, f.packetId, PacketRow(flow, m.header.messageType, None, None));
      InsertRow(flow, f.messageId,
                BulkPullAccountRequestRow(f.packetId, m.body.account, m.body.minimumAmount, m.body.flags));
      assert journal == js + MessageRows(cfg, flow, m, f.packetId);
      links, log := links[flow := f.packetId], log + [(flow, PutMessage(m))];
    }

    method PutBulkPush(flow: nat, f: FlowData, m: Message)
      requires m.body.BulkPush?
      requires Valid() && m.header.messageType < 32
      modifies `nextId, `rows, `countPerType, `used, `journal, `links, `log, f`packetId
      ensures Valid() && old(used) <= used
      ensures Entered() == Post(cfg, old(Entered()), (flow, PutMessage(m)))
      ensures log == old(log) + [(flow, PutMessage(m))]
      ensures f.packetId == old(nextId)
    {
      hide Valid, Post, TableOf;
      PostMessage(cfg, Entered(), flow, m);
      f.packetId := PutPacket(flow, m.header.messageType);
      links, log := links[flow := f.packetId], log + [(flow, PutMessage(m))];
    }

    method PutKeepalive(flow: nat, m: Message)
      requires m.body.Keepalive?
      requires Valid() && m.header.messageType < 32
      modifies `nextId, `rows, `countPerType, `used, `journal, `links, `log
      ensures Valid() && old(used) <= used
      ensures Entered() == Post(cfg, old(Entered()), (flow, PutMessage(m)))
      ensures log == old(log) + [(flow, PutMessage(m))]
    {
      hide Valid, Post, TableOf;
      PostMessage(cfg, Entered(), flow, m);
      ghost var js := journal;
      var packetId := PutPacket(flow, m.header.messageType);
      if m.body.peers.Some? {
        PutHosts(flow, packetId, m.body.peers.value);
        assert journal == js + MessageRows(cfg, flow, m, packetId);
      } else {
        assert [Insert(flow, packetId, PacketRow(flow, m.header.messageType, None, None))] ==
               MessageRows(cfg, flow, m, packetId);
      }
      links, log := links[flow := packetId], log + [(flow, PutMessage(m))];
    }

    /** The loop over the peers of a keepalive. */
    method PutHosts(flow: nat, packetId: nat, peers: seq<seq<byte>>)
      requires Valid()
      modifies `nextId, `rows, `countPerType, `used, `journal
      ensures Valid() && old(used) <= used
      ensures nextId == old(nextId) + |peers|
      ensures journal == old(journal) + HostRows(flow, packetId, old(nextId), peers)
    {
      hide Valid;
      ghost var n, js := nextId, journal;
      var i := 0;
      while i < |peers|
        invariant 0 <= i <= |peers| && Valid() && old(used) <= used
        invariant nextId == n + i && journal == js + HostRows(flow, packetId, n, peers)[..i]
      {
        var id := FetchAdd();
        InsertRow(flow, id, HostRow(packetId, peers[i]));
        i := i + 1;
      }
    }

    method PutConfirmAck(flow: nat, m: Message)
      requires m.body.ConfirmAck?
      requires Valid() && m.header.messageType < 32
      modifies `nextId, `rows, `countPerType, `used, `journal, `links, `log
      ensures Valid() && old(used) <= used
      ensures Entered() == Post(cfg, old(Entered()), (flow, PutMessage(m)))
      ensures log == old(log) + [(flow, PutMessage(m))]
    {
      hide Valid, Post, TableOf, MessageRows, MessageIds, BlockRows;
      PostMessage(cfg, Entered(), flow, m);
      AckRows(cfg, flow, m, nextId);
      ghost var js := journal;
      var packetId := FetchAdd();
      if m.body.ackBlock.Some? {
        var blockId := FetchAdd();
        var table := PutBlock(flow, Some(m.body.ackBlock.value.block), blockId, packetId);
      } else {
        NoBlockRows(cfg, flow, packetId + 1, packetId);
        assert js + [] == js;
      }
      PutVote(flow, m.header.messageType, packetId);
      assert journal == js + MessageRows(cfg, flow, m, packetId);
      links, log := links[flow := packetId], log + [(flow, PutMessage(m))];
    }

    /** The rows of a vote, and of the packet that names it. */
    method PutVote(flow: nat, msgType: nat, packetId: nat)
      requires Valid() && msgType < 32 && packetId < nextId && packetId !in used
      modifies `nextId, `rows, `countPerType, `used, `journal
      ensures Valid() && old(used) <= used && nextId == old(nextId) + 1
      ensures journal == old(journal) +
                [Insert(flow, old(nextId), VoteRow(packetId)),
                 Insert(flow, packetId, PacketRow(flow, msgType, Some(Votes), Some(old(nextId))))]
    {
      hide Valid, TableOf;
      var voteId := FetchAdd();
      InsertRow(flow, voteId, VoteRow(packetId));
      InsertRow(flow, packetId, PacketRow(flow, msgType, Some(Votes), Some(voteId)));
    }

    /** What publish and confirm_req have in common. */
    method PutContent(flow: nat, msgType: nat, block: Option<Block>) returns (packetId: nat)
      requires Valid() && msgType < 32
      modifies `nextId, `rows, `countPerType, `used, `journal
      ensures Valid() && old(used) <= used
      ensures nextId == old(nextId) + 2 && packetId == old(nextId)
      ensures journal == old(journal) + ContentRows(cfg, flow, msgType, old(nextId), block)
    {
      hide Valid;
      ghost var js := journal;
      packetId := FetchAdd();
      var contentId := FetchAdd();
      var table := PutBlock(flow, block, contentId, packetId);
      InsertRow(flow, packetId, PacketRow(flow, msgType, table, Some(contentId)));
      assert journal == js + ContentRows(cfg, flow, msgType, packetId, block);
    }

    method PutConfirmReq(flow: nat, m: Message)
      requires m.body.ConfirmReq?
      requires Valid() && m.header.messageType < 32
      modifies `nextId, `rows, `countPerType, `used, `journal, `links, `log
      ensures Valid() && old(used) <= used
      ensures Entered() == Post(cfg, old(Entered()), (flow, PutMessage(m)))
      ensures log == old(log) + [(flow, PutMessage(m))]
    {
      hide Valid, ContentRows, Post, TableOf;
      PostMessage(cfg, Entered(), flow, m);
      var packetId := PutContent(flow, m.header.messageType, BlockOf(m.body.reqBlock));
      links, log := links[flow := packetId], log + [(flow, PutMessage(m))];
    }

    method PutPublish(flow: nat, m: Message)
      requires m.body.Publish?
      requires Valid() && m.header.messageType < 32
      modifies `nextId, `rows, `countPerType, `used, `journal, `links, `log
      ensures Valid() && old(used) <= used
      ensures Entered() == Post(cfg, old(Entered()), (flow, PutMessage(m)))
      ensures log == old(log) + [(flow, PutMessage(m))]
    {
      hide Valid, ContentRows, Post, TableOf;
      PostMessage(cfg, Entered(), flow, m);
      var packetId := PutContent(flow, m.header.messageType, Some(m.body.block.block));
      links, log := links[flow := packetId], log + [(flow, PutMessage(m))];
    }

    method PutHandshake(flow: nat, m: Message)
      requires m.body.NodeIdHandshake?
      requires Valid() && m.header.messageType < 32
      modifies `nextId, `rows, `countPerType, `used, `journal, `links, `log
      ensures Valid() && old(used) <= used
      ensures Entered() == Post(cfg, old(Entered()), (flow, PutMessage(m)))
      ensures log == old(log) + [(flow, PutMessage(m))]
    {
      hide Valid, TableOf, Post, MessageRows, MessageIds;
      PostMessage(cfg, Entered(), flow, m);
      HandshakeRows(cfg, flow, m, nextId);
      ghost var js := journal;
      var packetId := PutPacket(flow, m.header.messageType);
      if m.body.query.Some? {
        var id := FetchAdd();
        InsertRow(flow, id, NodeidQueryRow(packetId, m.body.query.value));
      }
      if m.body.response.Some? {
        var id := FetchAdd();
        InsertRow(flow, id, NodeidResponseRow(packetId, m.body.response.value));
      }
      assert journal == js + MessageRows(cfg, flow, m, packetId);
      links, log := links[flow := packetId], log + [(flow, PutMessage(m))];
    }

    /** The put for a message. */
    method Put(flow: nat, f: FlowData, m: Message)
      requires Valid() && Booked() && Matches(m) && Handled(m) && m.header.messageType < 32
      modifies `nextId, `rows, `countPerType, `used, `journal, `links, `log, f`packetId, f`messageId
      ensures Valid() && Booked()
      ensures log == old(log) + [(flow, PutMessage(m))] && links == old(links)[flow := old(nextId)]
      ensures m.body.FrontierReq? || m.body.BulkPull? || m.body.BulkPush? ==> f.packetId == links[flow]
      ensures m.body.FrontierReq? || m.body.BulkPull? ==> f.messageId == links[flow] + 1
    {
      hide MessageRows, Valid, MessageIds, PostAll, BookAfter, WipedRows;
      ghost var e := (flow, PutMessage(m));
      PostOne(cfg, Entered(), e);
      BookGrows(cfg, first, log, wiped, [e]);
      match m.body {
        case Keepalive(_) => PutKeepalive(flow, m);
        case Publish(_) => PutPublish(flow, m);
        case ConfirmReq(_, _) => PutConfirmReq(flow, m);
        case ConfirmAck(_, _, _) => PutConfirmAck(flow, m);
        case BulkPull(_, _, _) => PutBulkPull(flow, f, m);
        case BulkPush(_) => PutBulkPush(flow, f, m);
        case FrontierReq(_, _, _) => PutFrontierReq(flow, f, m);
        case NodeIdHandshake(_, _) => PutHandshake(flow, m);
        case BulkPullAccount(_, _, _) => PutBulkPullAccount(flow, f, m);
        case TelemetryReq => PutTelemetryReq(flow, m);
        case TelemetryAck(_) => PutTelemetryAck(flow, m);
      }
    }

    // ---- put, for the items of streams ----

    method PutFrontierEntry(flow: nat, f: FlowData, entry: FrontierEntry)
      requires Valid() && f.messageId == LinkOf(links, flow) + 1
      modifies `nextId, `rows, `countPerType, `used, `journal, `log
      ensures Valid() && old(used) <= used
      ensures Entered() == Post(cfg, old(Entered()), (flow, PutItem(Frontier, FrontierItem(entry))))
      ensures log == old(log) + [(flow, PutItem(Frontier, FrontierItem(entry)))]
    {
      hide Valid;
      var id := FetchAdd();
      InsertRow(flow, id, FrontierResponseRow(f.messageId, entry));
      log := log + [(flow, PutItem(Frontier, FrontierItem(entry)))];
    }

    /** An entry's block and the row that names it, which differs between bulk_pull and bulk_push. */
    method PutEntryRows(flow: nat, f: FlowData, kind: Kind, e: Entry) returns (valid: bool)
      requires Valid() && kind != Frontier
      requires f.packetId == LinkOf(links, flow) && (kind == Kind.BulkPull ==> f.messageId == LinkOf(links, flow) + 1)
      modifies `nextId, `rows, `countPerType, `used, `journal, `log
      ensures Valid() && old(used) <= used && valid == Tabled(cfg, BlockItem(e))
      ensures Entered() == Post(cfg, old(Entered()), (flow, PutItem(kind, BlockItem(e))))
      ensures log == old(log) + [(flow, PutItem(kind, BlockItem(e)))]
    {
      hide Valid;
      ghost var before := Entered();
      var blockId := FetchAdd();
      var table := PutBlock(flow, Some(e.block), blockId, f.packetId);
      valid := table.Some?;
      if valid {
        var id := FetchAdd();
        if kind == Kind.BulkPull {
          InsertRow(flow, id, BulkPullResponseRow(f.messageId, blockId, table.value));
        } else {
          InsertRow(flow, id, BulkPushEntryRow(f.packetId, blockId, table.value));
        }
        assert journal ==
               before.rows + EntryRows(cfg, flow, kind, BlockItem(e), before.next, LinkOf(before.links, flow));
      } else {
        assert before.rows + [] == before.rows;
      }
      log := log + [(flow, PutItem(kind, BlockItem(e)))];
    }

    /** put on an entry of bulk_pull or bulk_push: one without a table is counted, and the first one noted. */
    method PutBlockEntry(flow: nat, f: FlowData, kind: Kind, e: Entry)
      requires Valid() && kind != Frontier
      requires f.packetId == LinkOf(links, flow) && (kind == Kind.BulkPull ==> f.messageId == LinkOf(links, flow) + 1)
      modifies `nextId, `rows, `countPerType, `used, `journal, `log, f`invalidCount
      ensures Valid() && old(used) <= used
      ensures f.invalidCount == HandOver(cfg, kind, BlockItem(e), old(f.invalidCount)).invalid
      ensures var es := HandOver(cfg, kind, BlockItem(e), old(f.invalidCount)).events;
              Entered() == PostAll(cfg, old(Entered()), Tagged(flow, es)) && log == old(log) + Tagged(flow, es)
    {
      hide Valid, PostAll, Post, Tabled;
      ghost var before, was := Entered(), log;
      var valid := PutEntryRows(flow, f, kind, e);
      TwoPosts(cfg, before, flow, PutItem(kind, BlockItem(e)), Event.PutConnection(FirstInvalid(kind)), was);
      if !valid {
        f.invalidCount := f.invalidCount + 1;
        if f.invalidCount == 1 {
          PutConnection(flow, FirstInvalid(kind));
        }
      }
    }

    // ---- Runs ----

    /**
     Opening a file: a row in the table of runs, whose key never repeats, gives this run its
     ids.  The ids used before are below them if the runs before kept to their budget.
     */
    constructor (cfg: Config, rows: Rows, runs: set<nat>, sequence: nat, ghost used: set<nat>)
      requires Sound(rows) && forall k :: k in rows ==> k.1 in used
      requires forall r :: r in runs ==> r <= sequence
      requires forall i :: i in used ==> i < BUDGET * (sequence + 1)
      ensures Valid() && this.cfg == cfg && this.rows == rows && this.used == used
      ensures this.sequence == sequence + 1 && nextId == BUDGET * (sequence + 1) && base == sequence + 1
      ensures initial == rows && usedBefore == used
      ensures wiped.None? && journal == [] && log == [] && first == nextId && Booked()
    {
      hide PacketsOfType;
      var all := runs + {sequence + 1};
      assert sequence + 1 in all && forall r :: r in all ==> r <= sequence + 1;
      var multiplier :| multiplier in all && forall r :: r in all ==> r <= multiplier;
      this.cfg, this.rows := cfg, rows;
      this.runs, this.sequence, this.nextId := all, sequence + 1, BUDGET * multiplier;
      this.countPerType := seq(32, t requires 0 <= t => |PacketsOfType(rows, t)|);
      this.used, this.base, this.first := used, multiplier, BUDGET * multiplier;
      this.log, this.wiped, this.links, this.journal, this.gone := [], None, map[], [], [];
      this.initial, this.usedBefore := rows, used;
      BookBegins(cfg, BUDGET * multiplier);
    }

    /** Every table is emptied and the counts start again; the dispenser goes on. */
    method EmptyTables()
      requires Valid()
      modifies `rows, `countPerType, `journal, `gone, `wiped
      ensures Valid() && rows == map[] && journal == [] && wiped == Some(|log|) && (old(Booked()) ==> Booked())
      ensures forall t :: 0 <= t < 32 ==> countPerType[t] == 0
    {
      hide Stored, BookAfter, WipedRows, PacketsOfType, IdsOf;
      NoRows();
      IdsOfJoin(gone, journal);
      IdsOfNone();
      if Booked() {
        BookWiped(cfg, first, log, wiped);
      }
      rows, countPerType := map[], seq(32, _ => 0);
      journal, gone, wiped := [], gone + journal, Some(|log|);
    }

    /** destroy_capture_data: empties every table but the counter behind the runs, and starts a new run in it. */
    method DestroyCaptureData()
      requires Valid()
      modifies `rows, `countPerType, `journal, `gone, `wiped, `runs, `sequence
      ensures Valid() && rows == map[] && journal == [] && wiped == Some(|log|) && (old(Booked()) ==> Booked())
      ensures sequence == old(sequence) + 1
      ensures forall t :: 0 <= t < 32 ==> countPerType[t] == 0
    {
      hide Sound, Stored, AllStorable, BookAfter, WipedRows, Counted;
      EmptyTables();
      runs := {};
      sequence := sequence + 1;
      runs := {sequence};
    }
  }

  /** The next process to open the file, when the last one kept to its budget. */
  method Reopen(d: Db, cfg: Config) returns (d': Db)
    requires d.Valid() && d.nextId <= BUDGET * (d.sequence + 1)
    ensures fresh(d') && d'.Valid() && d'.cfg == cfg && d'.rows == d.rows && d'.used == d.used
    ensures d'.nextId == BUDGET * (d.sequence + 1) && d'.sequence == d.sequence + 1 && d'.base == d'.sequence
    ensures d'.initial == d.rows && d'.usedBefore == d.used
    ensures d'.wiped.None? && d'.journal == [] && d'.log == [] && d'.first == d'.nextId && d'.Booked()
  {
    d' := new Db(cfg, d.rows, d.runs, d.sequence, d.used);
  }

  lemma IdsOfOne(i: Insert)
    ensures IdsOf([i]) == {i.id}
  {
    assert [i][0].id in IdsOf([i]);
  }

  lemma IdsOfNone()
    ensures IdsOf([]) == {}
  {}

  lemma NoRows()
    ensures Stored(map[], []) == map[] && forall t: nat :: PacketsOfType(map[], t) == {}
  {}

  lemma SoundGrows(rows: Rows, used: set<nat>, k: Key, r: Row)
    requires Sound(rows) && forall l :: l in rows ==> l.1 in used
    requires Storable(r) && TableOf(r) == k.0 && k.1 !in used
    ensures k !in rows && Sound(rows[k := r])
  {}

  lemma CountsOnePacket(rows: Rows, k: Key, r: Row)
    requires k !in rows && r.PacketRow?
    ensures forall t :: |PacketsOfType(rows[k := r], t)| == |PacketsOfType(rows, t)| + if t == r.msgType then 1 else 0
  {
    forall t: nat
      ensures |PacketsOfType(rows[k := r], t)| == |PacketsOfType(rows, t)| + if t == r.msgType then 1 else 0
    {
      OnePacketMore(rows, k, r, t);
    }
  }

  lemma OnePacketMore(rows: Rows, k: Key, r: Row, t: nat)
    requires k !in rows && r.PacketRow?
    ensures PacketsOfType(rows[k := r], t) == PacketsOfType(rows, t) + (if t == r.msgType then {k} else {})
    ensures k !in PacketsOfType(rows, t)
  {
    var more := rows[k := r];
    forall l
      ensures l in PacketsOfType(more, t) <==> l in PacketsOfType(rows, t) || (l == k && t == r.msgType)
    {
      assert l != k ==> (l in more <==> l in rows) && (l in rows ==> more[l] == rows[l]);
    }
  }

  lemma CountsNoPacket(rows: Rows, k: Key, r: Row)
    requires k !in rows && !r.PacketRow?
    ensures forall t :: PacketsOfType(rows[k := r], t) == PacketsOfType(rows, t)
  {}
}
