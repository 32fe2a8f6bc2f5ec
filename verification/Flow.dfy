/**
 The state kept for a TCP flow, and what one chunk of its data does to it: a chunk continues a
 bootstrap stream, or else it is a message.  `Step` says this for values; the packet handler is
 proved to do it in place.
 */
module Flow {
  import opened Bytes
  import opened KStream
  import opened Messages
  import opened NanoBlocks
  import opened Streams

  /** The capture options that decide what is recorded. */
  datatype Config = Config(connectionDetails: bool, bootstrapDetails: bool, blockDetails: bool)

  /** The events noted in the connection table. */
  datatype Note =
    | Opened
    | Closed
    | MessageSeen(msgType: nat)
    | EndOf(kind: Kind, valid: nat, invalid: nat)
    | FirstInvalid(invalidKind: Kind)

  /** What is handed to the database, without the ids it will be given there. */
  datatype Event = PutMessage(message: Message) | PutItem(kind: Kind, item: Item) | PutConnection(note: Note)

  /** tcp_flow_data, except for the ids of rows. */
  datatype FlowState = FlowState(step: nat, requestFlags: nat, msgType: nat, responseCount: nat, invalidCount: nat,
                                 accumulated: seq<byte>)

  /** What reset leaves. */
  function Fresh(msgType: nat): FlowState {
    FlowState(0, 0, msgType, 0, 0, [])
  }

  /** The streams that follow a request. */
  function KindOf(msgType: nat): Option<Kind> {
    if msgType == FRONTIER_REQ then Some(Frontier)
    else if msgType == BULK_PULL then Some(Kind.BulkPull)
    else if msgType == BULK_PUSH then Some(Kind.BulkPush)
    else None
  }

  /** The message type whose stream this is. */
  function RequestType(kind: Kind): nat {
    match kind
    case Frontier => FRONTIER_REQ
    case BulkPull => BULK_PULL
    case BulkPush => BULK_PUSH
  }

  /** The reply to a bulk_pull_account is not part of this model. */
  predicate Modelled(f: FlowState, data: seq<byte>) {
    f.msgType == BULK_PULL_ACCOUNT ==> |data| == 0
  }

  /** A block goes into a table of its own if blocks are recorded and it is of one of the five kinds. */
  predicate Tabled(cfg: Config, item: Item) {
    item.BlockItem? ==> cfg.blockDetails && !item.entry.block.Ignored?
  }

  /** What recording the items of a stream hands over, and the count of invalid entries after it. */
  datatype Recorded = Recorded(events: seq<Event>, invalid: nat)

  /** What put hands over for an item: an invalid block is counted, and the first one noted. */
  function HandOver(cfg: Config, kind: Kind, item: Item, invalid: nat): Recorded {
    if Tabled(cfg, item) then Recorded([PutItem(kind, item)], invalid)
    else if invalid == 0 then Recorded([PutItem(kind, item), PutConnection(FirstInvalid(kind))], 1)
    else Recorded([PutItem(kind, item)], invalid + 1)
  }

  function RecordItem(cfg: Config, kind: Kind, item: Item, invalid: nat): Recorded {
    if cfg.bootstrapDetails then HandOver(cfg, kind, item, invalid) else Recorded([], invalid)
  }

  function RecordItems(cfg: Config, kind: Kind, items: seq<Item>, invalid: nat): Recorded {
    if |items| == 0 then Recorded([], invalid)
    else
      var r := RecordItem(cfg, kind, items[0], invalid);
      var rs := RecordItems(cfg, kind, items[1..], r.invalid);
      Recorded(r.events + rs.events, rs.invalid)
  }

  lemma {:induction false} RecordJoins(cfg: Config, kind: Kind, a: seq<Item>, b: seq<Item>, invalid: nat)
    ensures var r := RecordItems(cfg, kind, a, invalid);
            var s := RecordItems(cfg, kind, b, r.invalid);
            RecordItems(cfg, kind, a + b, invalid) == Recorded(r.events + s.events, s.invalid)
  {
    hide RecordItem;
    if |a| == 0 {
      assert a + b == b;
      var s := RecordItems(cfg, kind, b, invalid);
      assert [] + s.events == s.events;
    } else {
      var r := RecordItem(cfg, kind, a[0], invalid);
      RecordJoins(cfg, kind, a[1..], b, r.invalid);
      assert (a + b)[1..] == a[1..] + b && (a + b)[0] == a[0];
      var s := RecordItems(cfg, kind, a[1..], r.invalid);
      var t := RecordItems(cfg, kind, b, s.invalid);
      assert r.events + (s.events + t.events) == r.events + s.events + t.events;
    }
  }

  /** The new state of a flow and what it hands over. */
  datatype Effect = Effect(state: FlowState, events: seq<Event>)

  /** What is noted when the sentinel arrives. */
  function EndEvents(cfg: Config, kind: Kind, valid: nat, invalid: nat): seq<Event> {
    if cfg.bootstrapDetails then [PutConnection(EndOf(kind, valid, invalid))] else []
  }

  function StreamStep(cfg: Config, kind: Kind, f: FlowState, data: seq<byte>): Effect {
    var d := Drain(kind, Kept(f.accumulated + data));
    var r := RecordItems(cfg, kind, d.items, f.invalidCount);
    var valid := f.responseCount + |d.items|;
    if d.ended then Effect(Fresh(INVALID), r.events + EndEvents(cfg, kind, valid, r.invalid))
    else Effect(f.(accumulated := d.rest, responseCount := valid, invalidCount := r.invalid), r.events)
  }

  /** The messages that have a handler of their own. */
  predicate Handled(m: Message) { !m.body.IgnoredBody? && !m.body.BulkPullBlocks? }

  function MessageStep(cfg: Config, f: FlowState, data: seq<byte>): Effect {
    var p := Parse(data);
    if !p.Parsed? then Effect(f, [])
    else if !Handled(p.value) then Effect(Fresh(INVALID), [])
    else
      var t := p.value.header.messageType;
      var flags := if p.value.body.BulkPullAccount? then Num(p.value.body.flags) else 0;
      Effect(Fresh(t).(requestFlags := flags),
             (if cfg.connectionDetails then [PutConnection(MessageSeen(t))] else []) + [PutMessage(p.value)])
  }

  /**
   What a chunk that is a message does to its flow, by the number of its type in the sixth byte: the
   types with a handler are recorded, and the flow is about the message from then on; any other
   message leaves the flow as new, and nothing is recorded.
   */
  lemma MessageByType(cfg: Config, f: FlowState, data: seq<byte>)
    requires Parse(data).Parsed? && f.msgType != 6 && f.msgType != 7 && f.msgType != 8
    ensures |data| >= 8
    ensures var t, m := Num(data[5]), Parse(data).value;
            m.header.messageType == t &&
            if 2 <= t <= 8 || 10 <= t <= 13 then
              && (t == 11 ==> |data| >= 57)
              && Step(cfg, f, data) ==
                 Effect(FlowState(0, if t == 11 then Num(data[56]) else 0, t, 0, 0, []),
                        if cfg.connectionDetails then [PutConnection(MessageSeen(t)), PutMessage(m)]
                            else [PutMessage(m)])
            else Step(cfg, f, data) == Effect(FlowState(0, 0, 0, 0, 0, []), [])
  {
    hide Matches, Num;
    MessageClass(data);
    if Num(data[5]) == 11 {
      AccountFlags(data);
    }
    hide Parse;
  }

  /** What a chunk does to a flow in a stream, by the number of the flow's type. */
  lemma StreamByType(cfg: Config, f: FlowState, data: seq<byte>)
    requires |data| > 0 && (f.msgType == 6 || f.msgType == 7 || f.msgType == 8)
    ensures Step(cfg, f, data) ==
            StreamStep(cfg, if f.msgType == 8 then Frontier else if f.msgType == 6 then Kind.BulkPull
                            else Kind.BulkPush, f, data)
  {
    hide StreamStep, MessageStep;
  }

  lemma MessageClass(data: seq<byte>)
    requires Parse(data).Parsed?
    ensures |data| >= 8
    ensures var t, m := Num(data[5]), Parse(data).value;
            && m.header.messageType == t && (Handled(m) <==> 2 <= t <= 8 || 10 <= t <= 13)
            && (m.body.BulkPullAccount? <==> t == 11)
  {
    ParsedMatches(data);
    HeaderType(data);
    hide Parse;
  }

  lemma HeaderType(data: seq<byte>)
    requires Parse(data).Parsed?
    ensures |data| >= 8 && Parse(data).value.header.messageType == Num(data[5])
  {
    hide ParseBody, U2le, Num;
  }

  lemma AccountFlags(data: seq<byte>)
    requires Parse(data).Parsed? && Parse(data).value.header.messageType == 11
    ensures |data| >= 57 && Parse(data).value.body.BulkPullAccount? && Parse(data).value.body.flags == data[56]
  {
    hide U2le, Num;
  }

  /** What a chunk does to its flow. */
  function Step(cfg: Config, f: FlowState, data: seq<byte>): Effect {
    if KindOf(f.msgType).Some? && |data| > 0 then StreamStep(cfg, KindOf(f.msgType).value, f, data)
    else MessageStep(cfg, f, data)
  }

  /** What happens to a flow: its connection starts or ends, or a chunk is processed. */
  datatype Input = Start | Chunk(data: seq<byte>) | Finish

  function StepInput(cfg: Config, f: FlowState, i: Input): Effect {
    match i
    case Start => Effect(Fresh(INVALID), [PutConnection(Opened)])
    case Chunk(data) => Step(cfg, f, data)
    case Finish => Effect(f, [PutConnection(Closed)])
  }

  /** A flow on its own, from its inputs. */
  function Steps(cfg: Config, inputs: seq<Input>): Effect {
    if |inputs| == 0 then Effect(Fresh(INVALID), [])
    else
      var before := Steps(cfg, inputs[..|inputs| - 1]);
      var e := StepInput(cfg, before.state, inputs[|inputs| - 1]);
      Effect(e.state, before.events + e.events)
  }

  // ---- Streams through the state machine ----

  /** The chunks of a stream one by one: the last state and everything handed over. */
  function StepChunks(cfg: Config, f: FlowState, chunks: seq<seq<byte>>): Effect
    decreases |chunks|
  {
    if |chunks| == 0 then Effect(f, [])
    else
      var e := Step(cfg, f, chunks[0]);
      var rest := StepChunks(cfg, e.state, chunks[1..]);
      Effect(rest.state, e.events + rest.events)
  }

  /**
   A flow in a stream, up to the chunk that ends it, hands over the entries of the stream as
   though they had arrived at once, counts them, and is in the initial state again exactly when
   the sentinel has arrived.
   */
  lemma {:induction false} StreamInAnyCut(cfg: Config, kind: Kind, f: FlowState, chunks: seq<seq<byte>>)
    requires KindOf(f.msgType) == Some(kind)
    requires forall i :: 0 <= i < |chunks| ==> |chunks[i]| > 0
    requires Drain(kind, f.accumulated) == Drained(f.accumulated, [], false)
    requires NeverOverwrites(kind, f.accumulated, chunks) && AlmostSolid(kind, f.accumulated + Joined(chunks))
    requires Run(kind, f.accumulated, chunks).used == |chunks|
    ensures var d := Drain(kind, f.accumulated + Joined(chunks));
            var r := RecordItems(cfg, kind, d.items, f.invalidCount);
            var valid := f.responseCount + |d.items|;
            var e := StepChunks(cfg, f, chunks);
            && (d.ended ==> e == Effect(Fresh(INVALID), r.events + EndEvents(cfg, kind, valid, r.invalid)))
            && (!d.ended ==>
                  e == Effect(f.(accumulated := d.rest, responseCount := valid, invalidCount := r.invalid), r.events))
    decreases |chunks|
  {
    hide Drain, AlmostSolid, Step, RecordItems, EndEvents, Kept;
    if |chunks| == 0 {
      assert f.accumulated + Joined(chunks) == f.accumulated;
      NothingRecorded(cfg, kind, f.invalidCount);
    } else {
      var first, rest := f.accumulated + chunks[0], Joined(chunks[1..]);
      assert first + rest == f.accumulated + Joined(chunks);
      KeepsAllWhen(f.accumulated, chunks[0]);
      StepInStream(cfg, kind, f, chunks[0]);
      var d := Drain(kind, first);
      var e := Step(cfg, f, chunks[0]);
      CutOff(kind, first, rest);
      RestIsShort(kind, first);
      if d.ended {
        assert |chunks| == 1;
        assert first + rest == first;
        assert e.events + [] == e.events;
      } else {
        StreamInAnyCut(cfg, kind, e.state, chunks[1..]);
        var d' := Drain(kind, d.rest + rest);
        RecordJoins(cfg, kind, d.items, d'.items, f.invalidCount);
        Regroup(e.events, RecordItems(cfg, kind, d'.items, e.state.invalidCount).events,
                EndEvents(cfg, kind, e.state.responseCount + |d'.items|,
                          RecordItems(cfg, kind, d'.items, e.state.invalidCount).invalid));
      }
    }
  }

  lemma Regroup(a: seq<Event>, b: seq<Event>, c: seq<Event>)
    ensures a + (b + c) == (a + b) + c
  {}

  lemma NothingRecorded(cfg: Config, kind: Kind, invalid: nat)
    ensures RecordItems(cfg, kind, [], invalid) == Recorded([], invalid)
  {}

  /** A chunk that fits into the ring. */
  lemma StepInStream(cfg: Config, kind: Kind, f: FlowState, chunk: seq<byte>)
    requires KindOf(f.msgType) == Some(kind) && |chunk| > 0 && Kept(f.accumulated + chunk) == f.accumulated + chunk
    ensures var d := Drain(kind, f.accumulated + chunk);
            var r := RecordItems(cfg, kind, d.items, f.invalidCount);
            var valid := f.responseCount + |d.items|;
            var e := Step(cfg, f, chunk);
            && (d.ended ==> e == Effect(Fresh(INVALID), r.events + EndEvents(cfg, kind, valid, r.invalid)))
            && (!d.ended ==>
                  e == Effect(f.(accumulated := d.rest, responseCount := valid, invalidCount := r.invalid), r.events))
  {
    hide Drain, RecordItems, EndEvents, Kept, MessageStep;
  }

  function ChunkInputs(chunks: seq<seq<byte>>): seq<Input> {
    seq(|chunks|, i requires 0 <= i < |chunks| => Chunk(chunks[i]))
  }

  /** Chunks processed one by one after other inputs of the flow. */
  lemma {:induction false} StepsThenChunks(cfg: Config, inputs: seq<Input>, chunks: seq<seq<byte>>)
    ensures var before := Steps(cfg, inputs);
            var e := StepChunks(cfg, before.state, chunks);
            Steps(cfg, inputs + ChunkInputs(chunks)) == Effect(e.state, before.events + e.events)
    decreases |chunks|
  {
    hide Step;
    var before := Steps(cfg, inputs);
    if |chunks| == 0 {
      assert inputs + ChunkInputs(chunks) == inputs;
      assert before.events + [] == before.events;
    } else {
      var first := inputs + [Chunk(chunks[0])];
      assert first[..|first| - 1] == inputs;
      assert inputs + ChunkInputs(chunks) == first + ChunkInputs(chunks[1..]);
      StepsThenChunks(cfg, first, chunks[1..]);
      var e := Step(cfg, before.state, chunks[0]);
      Regroup(before.events, e.events, StepChunks(cfg, e.state, chunks[1..]).events);
    }
  }

  /**
   A request and the stream that answers it, in chunks that leave room for an incomplete entry:
   what the flow hands over after the request are the entries of the stream and the note at its
   end, and the flow is back in its initial state.
   */
  lemma Conversation(cfg: Config, kind: Kind, inputs: seq<Input>, chunks: seq<seq<byte>>)
    requires Steps(cfg, inputs).state == Fresh(RequestType(kind))
    requires forall i :: 0 <= i < |chunks| ==> 0 < |chunks[i]| <= CAPACITY - MaxRest(kind)
    requires AlmostSolid(kind, Joined(chunks)) && Run(kind, [], chunks).used == |chunks| &&
             Drain(kind, Joined(chunks)).ended
    ensures var items := Drain(kind, Joined(chunks)).items;
            var r := RecordItems(cfg, kind, items, 0);
            Steps(cfg, inputs + ChunkInputs(chunks)) ==
              Effect(Fresh(INVALID), Steps(cfg, inputs).events + (r.events + EndEvents(cfg, kind, |items|, r.invalid)))
  {
    hide Steps, Drain, Run, RecordItems, StepChunks, AlmostSolid, NeverOverwrites, EndEvents;
    var f := Fresh(RequestType(kind));
    assert [] + Joined(chunks) == Joined(chunks);
    NothingToDrain(kind);
    ShortChunksFit(kind, [], chunks);
    StreamInAnyCut(cfg, kind, f, chunks);
    StepsThenChunks(cfg, inputs, chunks);
  }

  /** A frontier request and its response, in chunks of up to 4033 bytes. */
  lemma FrontierConversation(cfg: Config, inputs: seq<Input>, chunks: seq<seq<byte>>)
    requires Steps(cfg, inputs).state == Fresh(FRONTIER_REQ)
    requires forall i :: 0 <= i < |chunks| ==> 0 < |chunks[i]| <= 4033
    requires Run(Frontier, [], chunks).used == |chunks| && Drain(Frontier, Joined(chunks)).ended
    ensures var items := Drain(Frontier, Joined(chunks)).items;
            var r := RecordItems(cfg, Frontier, items, 0);
            Steps(cfg, inputs + ChunkInputs(chunks)) ==
              Effect(Fresh(INVALID),
                     Steps(cfg, inputs).events + (r.events + EndEvents(cfg, Frontier, |items|, r.invalid)))
  {
    hide Steps, Drain, Run, RecordItems, Solid, AlmostSolid, EndEvents;
    FrontierIsSolid(Joined(chunks));
    SolidIsAlmost(Frontier, Joined(chunks));
    Conversation(cfg, Frontier, inputs, chunks);
  }

  /** A bulk_pull and its response, or a bulk_push, of whatever blocks, in chunks of up to 3880 bytes. */
  lemma BulkConversation(cfg: Config, kind: Kind, inputs: seq<Input>, chunks: seq<seq<byte>>, es: seq<Entry>,
                         behind: seq<byte>)
    requires kind != Frontier && Steps(cfg, inputs).state == Fresh(RequestType(kind))
    requires forall i :: 0 <= i < |chunks| ==> 0 < |chunks[i]| <= 3880
    requires forall i :: 0 <= i < |es| ==> Proper(es[i])
    requires Joined(chunks) == EncodeAll(es) + [NOT_A_BLOCK] + behind && Run(kind, [], chunks).used == |chunks|
    ensures var r := RecordItems(cfg, kind, BlockItems(es), 0);
            Steps(cfg, inputs + ChunkInputs(chunks)) ==
              Effect(Fresh(INVALID), Steps(cfg, inputs).events + (r.events + EndEvents(cfg, kind, |es|, r.invalid)))
  {
    hide Steps, Drain, Run, RecordItems, Solid, AlmostSolid, EndEvents, EncodeAll;
    SentBlocksAreTaken(kind, es, behind);
    SolidIsAlmost(kind, Joined(chunks));
    Conversation(cfg, kind, inputs, chunks);
  }

  /** When every option is on and every type known, exactly the items are handed over. */
  lemma {:induction false} AllItemsRecorded(cfg: Config, kind: Kind, items: seq<Item>, invalid: nat)
    requires cfg.bootstrapDetails && forall i :: 0 <= i < |items| ==> Tabled(cfg, items[i])
    ensures var r := RecordItems(cfg, kind, items, invalid);
            && r.invalid == invalid && |r.events| == |items|
            && forall i :: 0 <= i < |items| ==> r.events[i] == PutItem(kind, items[i])
  {
    hide Tabled;
    if |items| > 0 {
      AllItemsRecorded(cfg, kind, items[1..], invalid);
    }
  }

  /** tcp_flow_data. */
  class FlowData {
    var step: nat
    var requestFlags: nat
    var msgType: nat
    var packetId: nat
    var messageId: nat
    var responseCount: nat
    var invalidCount: nat
    var accumulated: seq<byte>

    function State(): FlowState
      reads this
    {
      FlowState(step, requestFlags, msgType, responseCount, invalidCount, accumulated)
    }

    constructor ()
      ensures State() == Fresh(INVALID) && packetId == 0 && messageId == 0
    {
      step, requestFlags, msgType, packetId, messageId := 0, 0, INVALID, 0, 0;
      responseCount, invalidCount, accumulated := 0, 0, [];
    }

    /** reset. */
    method Reset(messageType: nat)
      modifies this
      ensures State() == Fresh(messageType) && packetId == 0 && messageId == 0
    {
      step, packetId, messageId, responseCount, invalidCount, requestFlags := 0, 0, 0, 0, 0, 0;
      msgType := messageType;
      accumulated := [];
    }

    /** push_back on the ring: a full one loses its oldest byte. */
    method PushBack(b: byte)
      requires |accumulated| <= CAPACITY
      modifies `accumulated
      ensures accumulated == Kept(old(accumulated) + [b])
    {
      if |accumulated| == CAPACITY {
        accumulated := accumulated[1..] + [b];
      } else {
        accumulated := accumulated + [b];
      }
    }

    /** The copy of a chunk into the ring. */
    method Append(data: seq<byte>)
      requires |accumulated| <= CAPACITY
      modifies `accumulated
      ensures accumulated == Kept(old(accumulated) + data)
    {
      ghost var before := accumulated;
      var i := 0;
      assert before + data[..0] == before;
      while i < |data|
        invariant 0 <= i <= |data|
        invariant accumulated == Kept(before + data[..i])
      {
        KeptOfKept(before + data[..i], [data[i]]);
        assert before + data[..i] + [data[i]] == before + data[..i + 1];
        PushBack(data[i]);
        i := i + 1;
      }
      assert data[..i] == data;
    }

    /** erase of the first n bytes. */
    method EraseFront(n: nat)
      requires n <= |accumulated|
      modifies `accumulated
      ensures accumulated == old(accumulated)[n..]
    {
      accumulated := accumulated[n..];
    }
  }

  lemma KeptOfKept(s: seq<byte>, t: seq<byte>)
    ensures Kept(Kept(s) + t) == Kept(s + t)
  {}
}
