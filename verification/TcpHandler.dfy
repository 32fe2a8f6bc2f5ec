/**
 handle_tcp: what the processing thread does with one chunk of a flow, in place on the flow's
 data and on the database, and proved to be the step of the flow's state machine.
 */
module TcpHandler {
  import opened Bytes
  import opened Database
  import opened Flow
  import opened KStream
  import opened Ledger
  import opened Messages
  import opened NanoBlocks
  import opened Streams

  /** A flow in a stream knows the packet it put last, and its request. */
  ghost predicate Posted(links: map<nat, nat>, key: nat, f: FlowData)
    reads f`msgType, f`packetId, f`messageId
  {
    KindOf(f.msgType).Some? ==>
      key in links && f.packetId == links[key] && (f.msgType != BULK_PUSH ==> f.messageId == links[key] + 1)
  }

  /** What every handler needs and keeps: the tables hold what has been handed over, and the flow is in order. */
  ghost predicate Ready(db: Db, f: FlowData, key: nat)
    reads db, f
  {
    db.Valid() && db.Booked() && |f.accumulated| <= CAPACITY && Posted(db.links, key, f)
  }

  /** Recording one item, counting it and erasing it from the ring. */
  method TakeItem(db: Db, key: nat, f: FlowData, kind: Kind, item: Item, size: nat)
    requires Ready(db, f, key) && size <= |f.accumulated| && f.msgType == RequestType(kind)
    requires kind == Frontier <==> item.FrontierItem?
    modifies db`nextId, db`rows, db`countPerType, db`used, db`journal, db`log, f
    ensures Ready(db, f, key)
    ensures var r := RecordItem(db.cfg, kind, item, old(f.invalidCount));
            && f.State() == old(f.State()).(accumulated := old(f.accumulated)[size..],
                                            responseCount := old(f.responseCount) + 1,
                                            invalidCount := r.invalid)
            && db.log == old(db.log) + Tagged(key, r.events)
  {
    hide HandOver, Db.Valid, Post, PostAll, BookAfter, WipedRows, Tagged;
    if db.cfg.bootstrapDetails {
      ghost var es := HandOver(db.cfg, kind, item, f.invalidCount).events;
      BookGrows(db.cfg, db.first, db.log, db.wiped, Tagged(key, es));
      if kind == Frontier {
        FrontierNeverInvalid(db.cfg, item, f.invalidCount);
        TwoPosts(db.cfg, db.Entered(), key, es[0], es[0], db.log);
        db.PutFrontierEntry(key, f, item.frontier);
      } else {
        db.PutBlockEntry(key, f, kind, item.entry);
      }
    } else {
      NothingTagged(db.log, key);
    }
    f.responseCount := f.responseCount + 1;
    f.EraseFront(size);
  }

  lemma NothingTagged(log: seq<(nat, Event)>, key: nat)
    ensures log + Tagged(key, []) == log
  {}

  lemma FrontierNeverInvalid(cfg: Config, item: Item, invalid: nat)
    requires item.FrontierItem?
    ensures HandOver(cfg, Frontier, item, invalid) == Recorded([PutItem(Frontier, item)], invalid)
  {}

  /** A stream's loop has taken `items` and still has the ring to drain. */
  ghost predicate Underway(db: Db, f: FlowData, key: nat, kind: Kind, was: FlowState, total: seq<byte>,
                           items: seq<Item>,
                           log: seq<(nat, Event)>)
    reads db, f
  {
    var d := Drain(kind, f.accumulated);
    var r := RecordItems(db.cfg, kind, items, was.invalidCount);
    && Drain(kind, total) == Drained(d.rest, items + d.items, d.ended)
    && f.State() == was.(accumulated := f.accumulated, responseCount := was.responseCount + |items|,
                         invalidCount := r.invalid)
    && db.log == log + Tagged(key, r.events)
  }

  /** One turn of either loop. */
  method TakeTurn(db: Db, key: nat, f: FlowData, kind: Kind, item: Item, size: nat, ghost was: FlowState,
                  ghost total: seq<byte>,
                  ghost items: seq<Item>, ghost log: seq<(nat, Event)>)
    requires Ready(db, f, key) && Underway(db, f, key, kind, was, total, items, log) && f.msgType == RequestType(kind)
    requires Next(kind, f.accumulated) == Take(item, size)
    modifies db`nextId, db`rows, db`countPerType, db`used, db`journal, db`log, f
    ensures Ready(db, f, key) && f.msgType == old(f.msgType)
    ensures Underway(db, f, key, kind, was, total, items + [item], log)
    ensures |f.accumulated| < old(|f.accumulated|)
  {
    hide Drain, Next, RecordItem, Ready;
    OneTurn(kind, f.accumulated);
    ghost var r := RecordItems(db.cfg, kind, items, was.invalidCount);
    ghost var s := RecordItem(db.cfg, kind, item, r.invalid);
    RecordOne(db.cfg, kind, items, item, was.invalidCount);
    NextKind(kind, f.accumulated);
    TakeItem(db, key, f, kind, item, size);
    ghost var d := Drain(kind, f.accumulated);
    assert items + ([item] + d.items) == items + [item] + d.items;
    assert Tagged(key, r.events) + Tagged(key, s.events) == Tagged(key, r.events + s.events);
  }

  lemma NextKind(kind: Kind, buf: seq<byte>)
    ensures var t := Next(kind, buf);
            t.Take? ==> (kind == Frontier <==> t.item.FrontierItem?) && t.size <= |buf| && 0 < t.size
  {}

  lemma RecordOne(cfg: Config, kind: Kind, items: seq<Item>, item: Item, invalid: nat)
    ensures var r := RecordItems(cfg, kind, items, invalid);
            var s := RecordItem(cfg, kind, item, r.invalid);
            RecordItems(cfg, kind, items + [item], invalid) == Recorded(r.events + s.events, s.invalid)
  {
    hide RecordItem;
    var r := RecordItems(cfg, kind, items, invalid);
    var s := RecordItem(cfg, kind, item, r.invalid);
    RecordJoins(cfg, kind, items, [item], invalid);
    assert RecordItems(cfg, kind, [item], r.invalid).events == s.events + [];
  }

  /** The sentinel: noted, and the flow is open to new messages. */
  method EndStream(db: Db, key: nat, f: FlowData, kind: Kind)
    requires Ready(db, f, key)
    modifies db`nextId, db`rows, db`countPerType, db`used, db`journal, db`log, f
    ensures Ready(db, f, key) && f.State() == Fresh(INVALID)
    ensures db.log == old(db.log) + Tagged(key, EndEvents(db.cfg, kind, old(f.responseCount), old(f.invalidCount)))
  {
    hide Db.Valid, Post, PostAll, BookAfter, WipedRows, Tagged;
    if db.cfg.bootstrapDetails {
      var note := EndOf(kind, f.responseCount, f.invalidCount);
      ghost var e := Event.PutConnection(note);
      TwoPosts(db.cfg, db.Entered(), key, e, e, db.log);
      BookGrows(db.cfg, db.first, db.log, db.wiped, Tagged(key, [e]));
      db.PutConnection(key, note);
    } else {
      NothingTagged(db.log, key);
    }
    f.Reset(INVALID);
  }

  /** What a stream step promises. */
  ghost predicate Stepped(db: Db, f: FlowData, key: nat, e: Effect, log: seq<(nat, Event)>)
    reads db, f
  {
    f.State() == e.state && db.log == log + Tagged(key, e.events)
  }

  /** The loop has met the sentinel. */
  lemma EndedStep(cfg: Config, kind: Kind, was: FlowState, data: seq<byte>, rest: seq<byte>, items: seq<Item>)
    requires var d := Drain(kind, rest);
             Drain(kind, Kept(was.accumulated + data)) == Drained(d.rest, items + d.items, d.ended)
    requires Next(kind, rest).End?
    ensures var r := RecordItems(cfg, kind, items, was.invalidCount);
            StreamStep(cfg, kind, was, data) ==
            Effect(Fresh(INVALID), r.events + EndEvents(cfg, kind, was.responseCount + |items|, r.invalid))
  {
    hide Next, Drain, Kept, RecordItems, EndEvents;
    OneTurn(kind, rest);
    assert items + [] == items;
  }

  /** The loop has to wait. */
  lemma WaitingStep(cfg: Config, kind: Kind, was: FlowState, data: seq<byte>, rest: seq<byte>, items: seq<Item>)
    requires var d := Drain(kind, rest);
             Drain(kind, Kept(was.accumulated + data)) == Drained(d.rest, items + d.items, d.ended)
    requires Next(kind, rest).Wait?
    ensures var r := RecordItems(cfg, kind, items, was.invalidCount);
            StreamStep(cfg, kind, was, data) ==
            Effect(was.(accumulated := rest, responseCount := was.responseCount + |items|, invalidCount := r.invalid),
                   r.events)
  {
    hide Next, Drain, Kept, RecordItems, EndEvents;
    OneTurn(kind, rest);
    assert items + [] == items;
  }

  lemma NothingTaken(db: Db, f: FlowData, key: nat, kind: Kind, was: FlowState, log: seq<(nat, Event)>)
    requires f.State() == was.(accumulated := f.accumulated) && db.log == log
    ensures Underway(db, f, key, kind, was, f.accumulated, [], log)
  {
    hide Drain;
    var d := Drain(kind, f.accumulated);
    assert [] + d.items == d.items;
    assert log + Tagged(key, []) == log;
  }

  /** A loop that has met the sentinel ends its stream, and has made the step. */
  method EndUnderway(db: Db, key: nat, f: FlowData, kind: Kind, ghost was: FlowState, ghost data: seq<byte>,
                     ghost total: seq<byte>, ghost items: seq<Item>, ghost log: seq<(nat, Event)>)
    requires Ready(db, f, key) && Underway(db, f, key, kind, was, total, items, log)
    requires total == Kept(was.accumulated + data) && Next(kind, f.accumulated).End?
    modifies db`nextId, db`rows, db`countPerType, db`used, db`journal, db`log, f
    ensures Ready(db, f, key)
    ensures Stepped(db, f, key, StreamStep(db.cfg, kind, was, data), log)
  {
    hide Drain, RecordItems, EndEvents, StreamStep, Next, Kept, Ready, Tagged;
    EndedStep(db.cfg, kind, was, data, f.accumulated, items);
    ghost var r := RecordItems(db.cfg, kind, items, was.invalidCount);
    TaggedJoins(key, r.events, EndEvents(db.cfg, kind, f.responseCount, f.invalidCount));
    EndStream(db, key, f, kind);
  }

  /** A loop that has to wait has made the step. */
  lemma WaitUnderway(db: Db, key: nat, f: FlowData, kind: Kind, was: FlowState, data: seq<byte>,
                     total: seq<byte>, items: seq<Item>, log: seq<(nat, Event)>)
    requires Underway(db, f, key, kind, was, total, items, log)
    requires total == Kept(was.accumulated + data) && Next(kind, f.accumulated).Wait?
    ensures Stepped(db, f, key, StreamStep(db.cfg, kind, was, data), log)
  {
    hide Drain, RecordItems, EndEvents, StreamStep, Next, Kept;
    WaitingStep(db.cfg, kind, was, data, f.accumulated, items);
  }

  /** The frontier branch of handle_tcp. */
  method HandleFrontier(db: Db, key: nat, f: FlowData, data: seq<byte>)
    requires Ready(db, f, key) && f.msgType == FRONTIER_REQ
    modifies db`nextId, db`rows, db`countPerType, db`used, db`journal, db`log, f
    ensures Ready(db, f, key)
    ensures Stepped(db, f, key, StreamStep(db.cfg, Frontier, old(f.State()), data), old(db.log))
  {
    hide Drain, RecordItems, EndEvents, StreamStep, Underway, Kept, Posted, Db.Valid, Db.Booked;
    ghost var was, log, items := f.State(), db.log, [];
    f.Append(data);
    ghost var total := f.accumulated;
    NothingTaken(db, f, key, Frontier, was, log);
    while |f.accumulated| >= 64
      invariant Ready(db, f, key) && f.msgType == FRONTIER_REQ
      invariant Underway(db, f, key, Frontier, was, total, items, log)
      decreases |f.accumulated|
    {
      var ks := new Stream(f.accumulated[..64]);
      var entry := ReadFrontierEntry(ks);
      assert ks.data[0..64] == f.accumulated[..64];
      if AllZero(entry.value.account) {
        EndUnderway(db, key, f, Frontier, was, data, total, items, log);
        return;
      }
      TakeTurn(db, key, f, Frontier, FrontierItem(entry.value), ks.pos, was, total, items, log);
      items := items + [FrontierItem(entry.value)];
    }
    WaitUnderway(db, key, f, Frontier, was, data, total, items, log);
  }

  /** The bulk_pull and bulk_push branches of handle_tcp, which differ in the put they call. */
  method HandleBulk(db: Db, key: nat, f: FlowData, kind: Kind, data: seq<byte>)
    requires Ready(db, f, key) && kind != Frontier && f.msgType == RequestType(kind)
    modifies db`nextId, db`rows, db`countPerType, db`used, db`journal, db`log, f
    ensures Ready(db, f, key)
    ensures Stepped(db, f, key, StreamStep(db.cfg, kind, old(f.State()), data), old(db.log))
  {
    hide Drain, RecordItems, EndEvents, StreamStep, Underway, ParseEntry, Kept, Posted, Db.Valid, Db.Booked;
    ghost var was, log, items := f.State(), db.log, [];
    f.Append(data);
    ghost var total := f.accumulated;
    NothingTaken(db, f, key, kind, was, log);
    while |f.accumulated| > 0
      invariant Ready(db, f, key) && f.msgType == RequestType(kind)
      invariant Underway(db, f, key, kind, was, total, items, log)
      decreases |f.accumulated|
    {
      if f.accumulated[0] == NOT_A_BLOCK {
        EndUnderway(db, key, f, kind, was, data, total, items, log);
        return;
      }
      var ks := new Stream(f.accumulated);
      assert ks.data[0..] == f.accumulated;
      var entry := ReadEntry(ks);
      if entry.None? {
        break;
      }
      TakeTurn(db, key, f, kind, BlockItem(entry.value), ks.pos, was, total, items, log);
      items := items + [BlockItem(entry.value)];
    }
    WaitUnderway(db, key, f, kind, was, data, total, items, log);
  }

  /** The links of all flows but one are as they were. */
  ghost predicate OthersLinked(links: map<nat, nat>, links': map<nat, nat>, key: nat) {
    forall j :: j != key ==> (j in links' <==> j in links) && (j in links ==> links'[j] == links[j])
  }

  /** handle_message: the flow is about this message now, which is recorded. */
  method HandleMessage(db: Db, key: nat, f: FlowData, m: Message)
    requires Ready(db, f, key) && Matches(m) && Handled(m) && m.header.messageType < 32
    modifies db`nextId, db`rows, db`countPerType, db`used, db`journal, db`links, db`log, f
    ensures Ready(db, f, key) && OthersLinked(old(db.links), db.links, key)
    ensures var t := m.header.messageType;
            && f.State() == Fresh(t).(requestFlags := if m.body.BulkPullAccount? then Num(m.body.flags) else 0)
            && db.log ==
               old(db.log) + Tagged(key, (if db.cfg.connectionDetails then [PutConnection(MessageSeen(t))] else []) +
                                         [PutMessage(m)])
  {
    hide Db.Valid, Post, PostAll, BookAfter, WipedRows, Db.Booked;
    ghost var log := db.log;
    f.Reset(m.header.messageType);
    if m.body.BulkPullAccount? {
      f.requestFlags := Num(m.body.flags);
    }
    Note(db, key, m.header.messageType);
    db.Put(key, f, m);
    TaggedJoins(key, if db.cfg.connectionDetails then [PutConnection(MessageSeen(m.header.messageType))] else [],
                [PutMessage(m)]);
    if KindOf(m.header.messageType).Some? {
      OpensStream(m);
    }
  }

  /** The row in the connection table for a message, if such details are recorded. */
  method Note(db: Db, key: nat, msgType: nat)
    requires db.Valid() && db.Booked()
    modifies db`nextId, db`rows, db`countPerType, db`used, db`journal, db`log
    ensures db.Valid() && db.Booked()
    ensures db.log == old(db.log) +
            Tagged(key, if db.cfg.connectionDetails then [PutConnection(MessageSeen(msgType))] else [])
  {
    hide Db.Valid, Post, PostAll, BookAfter, WipedRows, Tagged;
    NothingTagged(db.log, key);
    if db.cfg.connectionDetails {
      ghost var seen := Event.PutConnection(MessageSeen(msgType));
      TwoPosts(db.cfg, db.Entered(), key, seen, seen, db.log);
      BookGrows(db.cfg, db.first, db.log, db.wiped, Tagged(key, [seen]));
      db.PutConnection(key, MessageSeen(msgType));
    }
  }

  lemma OpensStream(m: Message)
    requires Matches(m) && KindOf(m.header.messageType).Some?
    ensures m.body.FrontierReq? || m.body.BulkPull? || m.body.BulkPush?
    ensures m.body.BulkPush? <==> m.header.messageType == BULK_PUSH
  {}

  /** The last branch of handle_tcp: a message, or a payload that is none and changes nothing. */
  method HandlePayload(db: Db, key: nat, f: FlowData, data: seq<byte>) returns (parseError: bool)
    requires Ready(db, f, key)
    modifies db`nextId, db`rows, db`countPerType, db`used, db`journal, db`links, db`log, f
    ensures Ready(db, f, key) && OthersLinked(old(db.links), db.links, key)
    ensures Stepped(db, f, key, MessageStep(db.cfg, old(f.State()), data), old(db.log))
    ensures parseError <==> Parse(data).RuntimeError?
  {
    hide Parse, Matches, Db.Valid, BookAfter, WipedRows;
    NothingTagged(db.log, key);
    var p := Parse(data);
    if !p.Parsed? {
      return p.RuntimeError?;
    }
    ParsedMatches(data);
    f.Reset(INVALID);
    if Handled(p.value) {
      HandledType(p.value);
      HandleMessage(db, key, f, p.value);
    }
    parseError := false;
  }

  lemma HandledType(m: Message)
    requires Matches(m) && Handled(m)
    ensures m.header.messageType < 32
  {}

  /**
   handle_tcp makes the step of the flow's state machine, and enters what that hands over into
   the tables; the result says whether it counts a parse error.
   */
  method HandleTcp(db: Db, key: nat, f: FlowData, data: seq<byte>) returns (parseError: bool)
    requires Ready(db, f, key) && Modelled(f.State(), data)
    modifies db`nextId, db`rows, db`countPerType, db`used, db`journal, db`links, db`log, f
    ensures Ready(db, f, key) && OthersLinked(old(db.links), db.links, key)
    ensures Stepped(db, f, key, Step(db.cfg, old(f.State()), data), old(db.log))
    ensures parseError <==> !(old(KindOf(f.msgType)).Some? && |data| > 0) && Parse(data).RuntimeError?
  {
    hide StreamStep, MessageStep, Parse, Db.Valid, BookAfter, WipedRows;
    parseError := false;
    if f.msgType == FRONTIER_REQ && |data| > 0 {
      HandleFrontier(db, key, f, data);
    } else if f.msgType == BULK_PULL && |data| > 0 {
      HandleBulk(db, key, f, Kind.BulkPull, data);
    } else if f.msgType == BULK_PUSH && |data| > 0 {
      HandleBulk(db, key, f, Kind.BulkPush, data);
    } else {
      parseError := HandlePayload(db, key, f, data);
    }
  }
}
