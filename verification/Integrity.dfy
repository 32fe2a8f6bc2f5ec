/**
 What the database holds after a capture: the rows of every flow, the references between them, and
 when a wipe in the middle of a capture leaves these intact.
 */
module Integrity {
  import opened Bytes
  import opened Flow
  import opened KStream
  import opened Ledger
  import opened Messages
  import opened NanoBlocks
  import opened Schedule
  import opened Streams

  // ---- Everything is handed over in its place ----

  /** The flow is in a stream whose entries get rows that refer to its request. */
  predicate Recording(cfg: Config, f: FlowState) {
    cfg.bootstrapDetails && KindOf(f.msgType).Some? && (f.msgType == FRONTIER_REQ || cfg.blockDetails)
  }

  /** The last message of a flow in such a stream is the stream's request. */
  predicate OnStream(cfg: Config, types: map<nat, nat>, k: nat, f: FlowState) {
    Recording(cfg, f) ==> k in types && types[k] == f.msgType
  }

  /** Events that are no messages, and come in their place. */
  predicate Plain(cfg: Config, types: map<nat, nat>, k: nat, es: seq<Event>) {
    forall i :: 0 <= i < |es| ==> !es[i].PutMessage? && InPlace(cfg, types, (k, es[i]))
  }

  lemma OneMore(cfg: Config, log: seq<(nat, Event)>, e: (nat, Event))
    ensures LastTypes(log + [e]) ==
            if e.1.PutMessage? then LastTypes(log)[e.0 := e.1.message.header.messageType] else LastTypes(log)
    ensures Orderly(cfg, log + [e]) <==> Orderly(cfg, log) && InPlace(cfg, LastTypes(log), e)
  {
    hide InPlace;
    assert (log + [e])[..|log|] == log;
  }

  lemma {:induction false} PlainInPlace(cfg: Config, log: seq<(nat, Event)>, k: nat, es: seq<Event>)
    requires Orderly(cfg, log) && Plain(cfg, LastTypes(log), k, es)
    ensures Orderly(cfg, log + Tagged(k, es)) && LastTypes(log + Tagged(k, es)) == LastTypes(log)
  {
    hide InPlace, Orderly, LastTypes;
    if |es| == 0 {
      assert log + Tagged(k, es) == log;
    } else {
      var front, e := es[..|es| - 1], es[|es| - 1];
      PlainInPlace(cfg, log, k, front);
      OneMore(cfg, log + Tagged(k, front), (k, e));
      assert log + Tagged(k, es) == log + Tagged(k, front) + [(k, e)];
    }
  }

  lemma {:induction false} DrainedKinds(kind: Kind, buf: seq<byte>)
    ensures forall i :: 0 <= i < |Drain(kind, buf).items| ==>
              (kind == Frontier <==> Drain(kind, buf).items[i].FrontierItem?)
    decreases |buf|
  {
    NextIsOfKind(kind, buf);
    hide Next;
    if Next(kind, buf).Take? {
      DrainedKinds(kind, buf[Next(kind, buf).size..]);
    }
  }

  lemma NextIsOfKind(kind: Kind, buf: seq<byte>)
    ensures var t := Next(kind, buf); t.Take? ==> 0 < t.size <= |buf| && (kind == Frontier <==> t.item.FrontierItem?)
  {
    hide ParseEntry, FrontierFields;
  }

  lemma {:induction false} RecordedArePlain(cfg: Config, types: map<nat, nat>, k: nat, kind: Kind, items: seq<Item>,
                                            invalid: nat)
    requires forall i :: 0 <= i < |items| ==> (kind == Frontier <==> items[i].FrontierItem?)
    requires cfg.bootstrapDetails && (kind == Frontier || cfg.blockDetails) ==>
               k in types && types[k] == RequestType(kind)
    ensures Plain(cfg, types, k, RecordItems(cfg, kind, items, invalid).events)
  {
    if |items| > 0 {
      RecordedArePlain(cfg, types, k, kind, items[1..], RecordItem(cfg, kind, items[0], invalid).invalid);
    }
  }

  /** What a flow hands over next comes in its place, and so does whatever the stream it is then in will bring. */
  lemma InputInPlace(cfg: Config, log: seq<(nat, Event)>, k: nat, f: FlowState, i: Input)
    requires Orderly(cfg, log) && OnStream(cfg, LastTypes(log), k, f)
    ensures var e := StepInput(cfg, f, i);
            var log' := log + Tagged(k, e.events);
            && Orderly(cfg, log') && OnStream(cfg, LastTypes(log'), k, e.state)
            && forall j :: j != k ==> (j in LastTypes(log') <==> j in LastTypes(log)) &&
                                      (j in LastTypes(log) ==> LastTypes(log')[j] == LastTypes(log)[j])
  {
    hide Orderly, LastTypes, Parse, Drain, Kept, RecordItems, Matches;
    match i
    case Start => PlainInPlace(cfg, log, k, [PutConnection(Opened)]);
    case Finish => PlainInPlace(cfg, log, k, [PutConnection(Closed)]);
    case Chunk(data) =>
      if KindOf(f.msgType).Some? && |data| > 0 {
        StreamInPlace(cfg, log, k, f, KindOf(f.msgType).value, data);
      } else {
        MessageInPlace(cfg, log, k, f, data);
      }
  }

  lemma StreamInPlace(cfg: Config, log: seq<(nat, Event)>, k: nat, f: FlowState, kind: Kind, data: seq<byte>)
    requires Orderly(cfg, log) && OnStream(cfg, LastTypes(log), k, f) && KindOf(f.msgType) == Some(kind)
    ensures var e := StreamStep(cfg, kind, f, data);
            var log' := log + Tagged(k, e.events);
            && Orderly(cfg, log') && LastTypes(log') == LastTypes(log) && OnStream(cfg, LastTypes(log'), k, e.state)
            && Plain(cfg, LastTypes(log), k, e.events)
  {
    hide Orderly, LastTypes, Drain, Kept, RecordItems;
    var d := Drain(kind, Kept(f.accumulated + data));
    DrainedKinds(kind, Kept(f.accumulated + data));
    RecordedArePlain(cfg, LastTypes(log), k, kind, d.items, f.invalidCount);
    PlainInPlace(cfg, log, k, StreamStep(cfg, kind, f, data).events);
  }

  lemma MessageInPlace(cfg: Config, log: seq<(nat, Event)>, k: nat, f: FlowState, data: seq<byte>)
    requires Orderly(cfg, log) && OnStream(cfg, LastTypes(log), k, f)
    ensures var e := MessageStep(cfg, f, data);
            var log' := log + Tagged(k, e.events);
            && Orderly(cfg, log') && OnStream(cfg, LastTypes(log'), k, e.state)
            && forall j :: j != k ==> (j in LastTypes(log') <==> j in LastTypes(log)) &&
                                      (j in LastTypes(log) ==> LastTypes(log')[j] == LastTypes(log)[j])
  {
    hide Orderly, LastTypes, Parse, Matches;
    if Parse(data).Parsed? && Flow.Handled(Parse(data).value) {
      ParsedMatches(data);
      var m := Parse(data).value;
      var note: seq<Event> := if cfg.connectionDetails then [PutConnection(MessageSeen(m.header.messageType))] else [];
      PlainInPlace(cfg, log, k, note);
      OneMore(cfg, log + Tagged(k, note), (k, PutMessage(m)));
      assert log + Tagged(k, note + [PutMessage(m)]) == log + Tagged(k, note) + [(k, PutMessage(m))];
    } else {
      assert log + Tagged(k, []) == log;
    }
  }

  // ---- Streams that a wipe does not break ----

  /** Nothing handed over is an entry that gets rows. */
  predicate Rowless(cfg: Config, es: seq<Event>) {
    forall i :: 0 <= i < |es| ==> !(es[i].PutItem? && Tabled(cfg, es[i].item))
  }

  /**
   The chunks bring no entry that gets rows into the stream that the flow is in, and if others may
   follow them, they end it.
   */
  predicate EndsFirst(cfg: Config, f: FlowState, chunks: seq<seq<byte>>, others: bool)
    decreases |chunks|
  {
    Recording(cfg, f) ==>
      if |chunks| == 0 then !others
      else
        var e := Step(cfg, f, chunks[0]);
        Rowless(cfg, e.events) && EndsFirst(cfg, e.state, chunks[1..], others)
  }

  /** The chunks of a flow that are still to be handled: all, or what is in flight if the thread is stopped. */
  function Coming(w: World, k: nat): seq<seq<byte>> {
    DataOf(if w.stopped then InFlight(w) else InFlight(w) + w.queue, k)
  }

  /** The stream that flow k is in, if there is one, will leave no more rows. */
  predicate Settled(cfg: Config, w: World, k: nat) { EndsFirst(cfg, StateAt(cfg, w, k), Coming(w, k), !w.stopped) }

  ghost predicate AllSettled(cfg: Config, w: World) { forall k :: Settled(cfg, w, k) }

  /** No flow is in a stream whose entries get rows. */
  ghost predicate NoneRecording(cfg: Config, w: World) { forall k :: !Recording(cfg, StateAt(cfg, w, k)) }

  /** With nothing left to handle, the flows are settled if and only if none is in such a stream. */
  lemma IdleSettledWhen(cfg: Config, w: World)
    requires !w.stopped && w.current.None? && w.queue == []
    ensures AllSettled(cfg, w) <==> NoneRecording(cfg, w)
  {
    hide Recording, StateAt;
    forall k
      ensures Settled(cfg, w, k) <==> !Recording(cfg, StateAt(cfg, w, k))
    {
      assert Coming(w, k) == [];
    }
  }

  lemma {:induction false} EndsBeforeMore(cfg: Config, f: FlowState, chunks: seq<seq<byte>>, more: seq<seq<byte>>)
    requires EndsFirst(cfg, f, chunks, true)
    ensures EndsFirst(cfg, f, chunks + more, true)
    decreases |chunks|
  {
    hide Recording, Step, Rowless;
    if Recording(cfg, f) {
      assert (chunks + more)[1..] == chunks[1..] + more;
      EndsBeforeMore(cfg, Step(cfg, f, chunks[0]).state, chunks[1..], more);
    }
  }

  lemma {:induction false} FrontEnds(cfg: Config, f: FlowState, chunks: seq<seq<byte>>, more: seq<seq<byte>>,
                                     others: bool)
    requires EndsFirst(cfg, f, chunks + more, others)
    ensures EndsFirst(cfg, f, chunks, false)
    decreases |chunks|
  {
    hide Recording, Step, Rowless;
    if Recording(cfg, f) && |chunks| > 0 {
      assert (chunks + more)[1..] == chunks[1..] + more;
      FrontEnds(cfg, Step(cfg, f, chunks[0]).state, chunks[1..], more, others);
    }
  }

  /** What the steps make of the chunks that are still to be handled. */
  lemma StepComing(cfg: Config, w: World, a: Action, k: nat)
    requires Do(cfg, w, a).Some?
    ensures var w' := Do(cfg, w, a).value;
            && (a.FinishPacket? && w.current.Some? ==>
                  Coming(w, k) == (if w.current.value.0 == k then [w.current.value.1] else []) + Coming(w', k))
            && (a.DataReady? && !w.stopped ==>
                  Coming(w', k) == Coming(w, k) || Coming(w', k) == Coming(w, k) + [a.data])
            && (a.StopThread? ==> Coming(w', k) <= Coming(w, k) && w'.stopped)
            && (!a.StopThread? ==> w'.stopped == w.stopped)
            && (a.TakePacket? || a.ConnectionStart? || a.ConnectionEnd? || a.WipeData? ==>
                  Coming(w', k) == Coming(w, k))
            && (a.DataReady? && w.stopped ==> Coming(w', k) == Coming(w, k))
            && (a.FinishPacket? && w.current.None? ==> Coming(w', k) == Coming(w, k))
  {
    hide StateAt, StepInput, CountsError, Modelled, DataOf, HasMissingData, Feed;
    StepQueues(cfg, w, a);
    var w' := Do(cfg, w, a).value;
    if a.FinishPacket? && w.current.Some? {
      var p := w.current.value;
      DataOfOne(p, k);
      DataOfJoins([p], if w.stopped then [] else w.queue, k);
      assert [p] + [] == [p] && [] + w.queue == w.queue;
    } else if a.DataReady? && !w.stopped && Queues(a) {
      DataOfOne((a.key, a.data), k);
      DataOfJoins(InFlight(w) + w.queue, [(a.key, a.data)], k);
      assert InFlight(w) + w.queue + [(a.key, a.data)] == InFlight(w) + w'.queue;
    } else if a.StopThread? {
      DataOfJoins(InFlight(w), w.queue, k);
    } else if a.TakePacket? {
      assert !w.stopped ==> InFlight(w') + w'.queue == InFlight(w) + w.queue;
    }
  }

  /** What the steps make of the queue and the packet in flight. */
  lemma StepQueues(cfg: Config, w: World, a: Action)
    requires Do(cfg, w, a).Some?
    ensures var w' := Do(cfg, w, a).value;
            && w'.stopped == (w.stopped || a.StopThread?)
            && w'.queue == (if a.DataReady? && Queues(a) then w.queue + [(a.key, a.data)]
                            else if a.TakePacket? && !w.stopped && w.current.None? && |w.queue| > 0 then w.queue[1..]
                            else w.queue)
            && w'.current == (if a.FinishPacket? then None
                              else if a.TakePacket? && !w.stopped && w.current.None? && |w.queue| > 0
                              then Some(w.queue[0])
                              else w.current)
  {
    hide StateAt, StepInput, CountsError, Modelled, HasMissingData;
  }

  /** A settled flow whose input is not its own next chunk stays settled. */
  lemma StaysSettled(cfg: Config, w: World, a: Action, k: nat)
    requires Settled(cfg, w, k) && Do(cfg, w, a).Some?
    requires StateAt(cfg, Do(cfg, w, a).value, k) == StateAt(cfg, w, k)
    requires a.FinishPacket? && w.current.Some? ==> w.current.value.0 != k
    ensures Settled(cfg, Do(cfg, w, a).value, k)
  {
    hide StateAt, Do, Coming, EndsFirst, Queues;
    StepComing(cfg, w, a, k);
    var w' := Do(cfg, w, a).value;
    var f := StateAt(cfg, w, k);
    if a.DataReady? && !w.stopped {
      EndsBeforeMore(cfg, f, Coming(w, k), [a.data]);
    } else if a.StopThread? {
      var rest := Coming(w, k)[|Coming(w', k)|..];
      assert Coming(w', k) + rest == Coming(w, k);
      FrontEnds(cfg, f, Coming(w', k), rest, !w.stopped);
    } else if a.FinishPacket? && w.current.Some? {
      assert [] + Coming(w', k) == Coming(w', k);
    }
  }

  // ---- References ----

  function MarkOf(w: World): nat { if w.wiped.Some? then w.wiped.value else 0 }

  /** A flow that records entries has put its request since the last wipe, or is settled. */
  predicate OnCourse(cfg: Config, w: World, types: map<nat, nat>, k: nat) {
    OnStream(cfg, types, k, StateAt(cfg, w, k)) || Settled(cfg, w, k)
  }

  /** Everything handed over since the last wipe has come in its place, and so will what comes next. */
  ghost predicate Sequenced(cfg: Config, w: World) {
    && MarkOf(w) <= |w.log| && GoodMessages(w.log)
    && Orderly(cfg, w.log[MarkOf(w)..])
    && forall k :: OnCourse(cfg, w, LastTypes(w.log[MarkOf(w)..]), k)
  }

  /** In a stream, what gets no rows comes in its place whatever message was put last. */
  lemma RowlessInPlace(cfg: Config, log: seq<(nat, Event)>, k: nat, f: FlowState, i: Input)
    requires Orderly(cfg, log) && Recording(cfg, f) && (i.Chunk? ==> Rowless(cfg, Step(cfg, f, i.data).events))
    ensures var log' := log + Tagged(k, StepInput(cfg, f, i).events);
            Orderly(cfg, log') && LastTypes(log') == LastTypes(log)
  {
    hide Orderly, LastTypes, Parse, Drain, Kept, RecordItems;
    var es := StepInput(cfg, f, i).events;
    if i.Chunk? && |i.data| > 0 {
      var kind := KindOf(f.msgType).value;
      StreamHasNoMessage(cfg, kind, f, i.data);
      StreamOfKind(cfg, kind, f, i.data);
    } else if i.Chunk? {
      NothingParsed(i.data);
    }
    assert Plain(cfg, LastTypes(log), k, es);
    PlainInPlace(cfg, log, k, es);
  }

  lemma NothingParsed(s: seq<byte>)
    requires |s| == 0
    ensures !Parse(s).Parsed?
  {}

  lemma StreamHasNoMessage(cfg: Config, kind: Kind, f: FlowState, data: seq<byte>)
    ensures var es := StreamStep(cfg, kind, f, data).events; forall i :: 0 <= i < |es| ==> !es[i].PutMessage?
  {
    hide Drain, Kept;
    NoMessageRecorded(cfg, kind, Drain(kind, Kept(f.accumulated + data)).items, f.invalidCount);
  }

  /** Every entry handed over is of the stream's kind. */
  predicate AllOfKind(kind: Kind, es: seq<Event>) {
    forall i :: 0 <= i < |es| && es[i].PutItem? ==>
          es[i].kind == kind && (kind == Frontier <==> es[i].item.FrontierItem?)
  }

  lemma StreamOfKind(cfg: Config, kind: Kind, f: FlowState, data: seq<byte>)
    ensures AllOfKind(kind, StreamStep(cfg, kind, f, data).events)
  {
    hide Drain, Kept, RecordItems;
    var items := Drain(kind, Kept(f.accumulated + data)).items;
    DrainedKinds(kind, Kept(f.accumulated + data));
    RecordedOfKind(cfg, kind, items, f.invalidCount);
  }

  lemma {:induction false} RecordedOfKind(cfg: Config, kind: Kind, items: seq<Item>, invalid: nat)
    requires forall i :: 0 <= i < |items| ==> (kind == Frontier <==> items[i].FrontierItem?)
    ensures AllOfKind(kind, RecordItems(cfg, kind, items, invalid).events)
  {
    if |items| > 0 {
      RecordedOfKind(cfg, kind, items[1..], RecordItem(cfg, kind, items[0], invalid).invalid);
    }
  }

  lemma SameStream(cfg: Config, types: map<nat, nat>, types': map<nat, nat>, k: nat, f: FlowState)
    requires OnStream(cfg, types, k, f)
    requires k in types ==> k in types' && types'[k] == types[k]
    ensures OnStream(cfg, types', k, f)
  {}

  lemma InputIsGood(cfg: Config, f: FlowState, i: Input)
    ensures var es := StepInput(cfg, f, i).events;
            forall j :: 0 <= j < |es| && es[j].PutMessage? ==> Matches(es[j].message) && Flow.Handled(es[j].message)
  {
    hide Parse, Drain, Kept, RecordItems, Matches;
    if i.Chunk? && KindOf(f.msgType).Some? && |i.data| > 0 {
      StreamHasNoMessage(cfg, KindOf(f.msgType).value, f, i.data);
    } else if i.Chunk? && Parse(i.data).Parsed? {
      ParsedMatches(i.data);
    }
  }

  lemma {:induction false} NoMessageRecorded(cfg: Config, kind: Kind, items: seq<Item>, invalid: nat)
    ensures forall j :: 0 <= j < |RecordItems(cfg, kind, items, invalid).events| ==>
              !RecordItems(cfg, kind, items, invalid).events[j].PutMessage?
  {
    if |items| > 0 {
      NoMessageRecorded(cfg, kind, items[1..], RecordItem(cfg, kind, items[0], invalid).invalid);
    }
  }

  /** What the flow that gets an input hands over comes in its place, and the flow stays in order. */
  lemma FeedOnCourse(cfg: Config, w: World, a: Action, key: nat, i: Input)
    requires Sequenced(cfg, w) && Do(cfg, w, a).Some? && Given(w, a) == Some((key, i))
    ensures var recent := w.log[MarkOf(w)..];
            var recent' := recent + Tagged(key, StepInput(cfg, StateAt(cfg, w, key), i).events);
            && Orderly(cfg, recent') && OnCourse(cfg, Do(cfg, w, a).value, LastTypes(recent'), key)
            && forall j :: j != key ==> (j in LastTypes(recent') <==> j in LastTypes(recent)) &&
                                        (j in LastTypes(recent) ==> LastTypes(recent')[j] == LastTypes(recent)[j])
  {
    hide Do, Orderly, LastTypes, OnStream, Step, StateAt, EndsFirst, Coming, Rowless, Recording;
    var f, recent, w' := StateAt(cfg, w, key), w.log[MarkOf(w)..], Do(cfg, w, a).value;
    StepFeeds(cfg, w, a);
    FeedApart(cfg, w, key, i, key);
    SameInputs(cfg, Feed(cfg, w, key, i), w', key);
    assert OnCourse(cfg, w, LastTypes(recent), key);
    if OnStream(cfg, LastTypes(recent), key, f) {
      InputInPlace(cfg, recent, key, f, i);
    } else {
      NotOnStream(cfg, LastTypes(recent), key, f);
      StepComing(cfg, w, a, key);
      if i.Chunk? {
        assert ([i.data] + Coming(w', key))[1..] == Coming(w', key);
        NextOfSettled(cfg, f, [i.data] + Coming(w', key), !w.stopped);
      }
      RowlessInPlace(cfg, recent, key, f, i);
      if i.Start? {
        FreshOnStream(cfg, LastTypes(recent + Tagged(key, StepInput(cfg, f, i).events)), key);
      }
    }
  }

  lemma SameInputs(cfg: Config, w: World, w': World, k: nat)
    requires w'.inputs == w.inputs
    ensures StateAt(cfg, w', k) == StateAt(cfg, w, k)
  {}

  lemma NotOnStream(cfg: Config, types: map<nat, nat>, k: nat, f: FlowState)
    requires !OnStream(cfg, types, k, f)
    ensures Recording(cfg, f)
  {}

  lemma FreshOnStream(cfg: Config, types: map<nat, nat>, k: nat)
    ensures OnStream(cfg, types, k, Fresh(INVALID))
  {}

  lemma NextOfSettled(cfg: Config, f: FlowState, chunks: seq<seq<byte>>, others: bool)
    requires EndsFirst(cfg, f, chunks, others) && Recording(cfg, f) && |chunks| > 0
    ensures var e := Step(cfg, f, chunks[0]); Rowless(cfg, e.events) && EndsFirst(cfg, e.state, chunks[1..], others)
  {}

  /** A flow that is given nothing stays in order. */
  lemma OtherOnCourse(cfg: Config, w: World, a: Action, types: map<nat, nat>, types': map<nat, nat>, k: nat)
    requires OnCourse(cfg, w, types, k) && Do(cfg, w, a).Some?
    requires var g := Given(w, a); g.None? || g.value.0 != k
    requires k in types ==> k in types' && types'[k] == types[k]
    ensures OnCourse(cfg, Do(cfg, w, a).value, types', k)
  {
    hide Do, OnStream, StateAt, Settled;
    StepFeeds(cfg, w, a);
    var g, w' := Given(w, a), Do(cfg, w, a).value;
    if g.Some? {
      FeedApart(cfg, w, g.value.0, g.value.1, k);
      SameInputs(cfg, Feed(cfg, w, g.value.0, g.value.1), w', k);
    } else {
      SameInputs(cfg, w, w', k);
    }
    if OnStream(cfg, types, k, StateAt(cfg, w, k)) {
      SameStream(cfg, types, types', k, StateAt(cfg, w, k));
    } else {
      StaysSettled(cfg, w, a, k);
    }
  }

  lemma StepSequenced(cfg: Config, w: World, a: Action)
    requires Sequenced(cfg, w) && Do(cfg, w, a).Some? && !a.WipeData?
    ensures Sequenced(cfg, Do(cfg, w, a).value)
  {
    hide Do, Orderly, LastTypes, OnCourse, StepInput, StateAt, GoodMessages;
    StepFeeds(cfg, w, a);
    var w', g, recent := Do(cfg, w, a).value, Given(w, a), w.log[MarkOf(w)..];
    if g.Some? {
      var key, i := g.value.0, g.value.1;
      var es := StepInput(cfg, StateAt(cfg, w, key), i).events;
      FeedOnCourse(cfg, w, a, key, i);
      assert (w.log + Tagged(key, es))[MarkOf(w)..] == recent + Tagged(key, es);
      InputIsGood(cfg, StateAt(cfg, w, key), i);
      GoodGrows(w.log, key, es);
      forall k
        ensures OnCourse(cfg, w', LastTypes(w'.log[MarkOf(w')..]), k)
      {
        if k != key {
          OtherOnCourse(cfg, w, a, LastTypes(recent), LastTypes(recent + Tagged(key, es)), k);
        }
      }
    } else {
      forall k
        ensures OnCourse(cfg, w', LastTypes(w'.log[MarkOf(w')..]), k)
      {
        OtherOnCourse(cfg, w, a, LastTypes(recent), LastTypes(recent), k);
      }
    }
  }

  function Wiped(w: World): World { w.(wiped := Some(|w.log|)) }

  /** A wipe while all flows are settled is a fresh start. */
  lemma WipeSequenced(cfg: Config, w: World)
    requires GoodMessages(w.log) && AllSettled(cfg, w)
    ensures Sequenced(cfg, Wiped(w))
  {
    hide EndsFirst, StateAt, Coming, GoodMessages;
    var w' := Wiped(w);
    assert w.log[|w.log|..] == [];
    forall k
      ensures OnCourse(cfg, w', LastTypes(w'.log[MarkOf(w')..]), k)
    {
      SameInputs(cfg, w, w', k);
      SameComing(w, w', k);
      assert Settled(cfg, w, k);
    }
  }

  lemma SameComing(w: World, w': World, k: nat)
    requires w'.queue == w.queue && w'.current == w.current && w'.stopped == w.stopped
    ensures Coming(w', k) == Coming(w, k)
  {}

  /** At the last wipe of a schedule all flows were settled. */
  ghost predicate WipedSettled(cfg: Config, w: World, actions: seq<Action>) {
    |actions| > 0 ==>
      var front := actions[..|actions| - 1];
      if actions[|actions| - 1].WipeData?
      then Replay(cfg, w, front).Some? ==> AllSettled(cfg, Replay(cfg, w, front).value)
      else WipedSettled(cfg, w, front)
  }

  lemma {:induction false} ReplaySequenced(cfg: Config, w: World, actions: seq<Action>)
    requires Sequenced(cfg, w) && Replay(cfg, w, actions).Some? && WipedSettled(cfg, w, actions)
    ensures Sequenced(cfg, Replay(cfg, w, actions).value)
  {
    hide Do, Sequenced, AllSettled;
    if |actions| > 0 {
      var front, a := actions[..|actions| - 1], actions[|actions| - 1];
      var v := Replay(cfg, w, front).value;
      if a.WipeData? {
        SequencedMark(cfg, w);
        ReplayIsGood(cfg, w, front);
        WipeSequenced(cfg, v);
        WipeStep(cfg, v);
      } else {
        ReplaySequenced(cfg, w, front);
        StepSequenced(cfg, v, a);
      }
    }
  }

  lemma WipeStep(cfg: Config, w: World)
    ensures Do(cfg, w, WipeData) == Some(Wiped(w))
  {}

  lemma SequencedMark(cfg: Config, w: World)
    requires Sequenced(cfg, w)
    ensures MarkOf(w) <= |w.log| && GoodMessages(w.log)
  {}

  lemma InitSequenced(cfg: Config)
    ensures Sequenced(cfg, INIT)
  {
    hide Steps, LastTypes, Settled;
    forall k
      ensures OnCourse(cfg, INIT, LastTypes(INIT.log[0..]), k)
    {
      NoInputs(cfg);
    }
  }

  lemma NoInputs(cfg: Config)
    ensures Steps(cfg, []) == Effect(Fresh(INVALID), [])
  {}

  // ---- The tables ----

  /** What the tables hold: what the file had unless it was wiped, and everything inserted since. */
  function Tables(cfg: Config, first: nat, initial: Rows, w: World): Rows
    requires MarkOf(w) <= |w.log| && AllStorable(BookAfter(cfg, first, w.log, w.wiped).rows)
  {
    Stored(if w.wiped.Some? then map[] else initial, BookAfter(cfg, first, w.log, w.wiped).rows)
  }

  /** Every row that was not in the file before names only rows that are in it. */
  predicate AllNamed(base: Rows, rows: Rows) {
    forall k :: k in rows ==> (k in base && rows[k] == base[k]) || NamesRows(rows[k], rows)
  }

  /** The messages handed over can be stored, whenever the data is wiped. */
  lemma {:induction false} ReplayIsGood(cfg: Config, w: World, actions: seq<Action>)
    requires Replay(cfg, w, actions).Some? && GoodMessages(w.log) && MarkOf(w) <= |w.log|
    ensures var w' := Replay(cfg, w, actions).value; GoodMessages(w'.log) && MarkOf(w') <= |w'.log|
  {
    hide Do, GoodMessages;
    if |actions| > 0 {
      ReplayIsGood(cfg, w, actions[..|actions| - 1]);
      var v, a := Replay(cfg, w, actions[..|actions| - 1]).value, actions[|actions| - 1];
      StepFeeds(cfg, v, a);
      var g := Given(v, a);
      if g.Some? {
        InputIsGood(cfg, StateAt(cfg, v, g.value.0), g.value.1);
        GoodGrows(v.log, g.value.0, StepInput(cfg, StateAt(cfg, v, g.value.0), g.value.1).events);
      }
    }
  }

  lemma GoodGrows(log: seq<(nat, Event)>, k: nat, es: seq<Event>)
    requires GoodMessages(log)
    requires forall j :: 0 <= j < |es| && es[j].PutMessage? ==> Matches(es[j].message) && Flow.Handled(es[j].message)
    ensures GoodMessages(log + Tagged(k, es))
  {
    hide Matches;
  }

  lemma GoodIsStorable(cfg: Config, first: nat, w: World)
    requires GoodMessages(w.log) && MarkOf(w) <= |w.log|
    ensures AllStorable(BookAfter(cfg, first, w.log, w.wiped).rows)
  {
    AllIsStorable(cfg, PostAll(cfg, Book([], first, map[]), w.log[..MarkOf(w)]).(rows := []), w.log[MarkOf(w)..]);
  }

  /** When everything since the last wipe has come in its place, the rows name rows that are there. */
  lemma SequencedIsNamed(cfg: Config, first: nat, initial: Rows, w: World)
    requires Sequenced(cfg, w)
    ensures AllStorable(BookAfter(cfg, first, w.log, w.wiped).rows)
    ensures AllNamed(if w.wiped.Some? then map[] else initial, Tables(cfg, first, initial, w))
  {
    hide Orderly, Linked, AllLinked, Stored, NamesRows;
    GoodIsStorable(cfg, first, w);
    var b := PostAll(cfg, Book([], first, map[]), w.log[..MarkOf(w)]);
    OrderlyIsLinked(cfg, b.next, b.links, w.log[MarkOf(w)..]);
    LinkedRowsName(if w.wiped.Some? then map[] else initial, BookAfter(cfg, first, w.log, w.wiped).rows);
  }

  /**
   After any schedule, if all flows were settled when data was last wiped, every row in the tables
   names rows that are there: its packet, the content of a packet, the request and the block of an
   entry.
   */
  lemma ReferencesHold(cfg: Config, first: nat, initial: Rows, actions: seq<Action>)
    requires Replay(cfg, INIT, actions).Some? && WipedSettled(cfg, INIT, actions)
    ensures var w := Replay(cfg, INIT, actions).value;
            && MarkOf(w) <= |w.log| && AllStorable(BookAfter(cfg, first, w.log, w.wiped).rows)
            && Linked(BookAfter(cfg, first, w.log, w.wiped).rows)
            && AllNamed(if w.wiped.Some? then map[] else initial, Tables(cfg, first, initial, w))
  {
    hide Linked, AllNamed, Orderly, Replay, WipedSettled, AllLinked;
    InitSequenced(cfg);
    ReplaySequenced(cfg, INIT, actions);
    var w := Replay(cfg, INIT, actions).value;
    SequencedIsNamed(cfg, first, initial, w);
    var b := PostAll(cfg, Book([], first, map[]), w.log[..MarkOf(w)]);
    OrderlyIsLinked(cfg, b.next, b.links, w.log[MarkOf(w)..]);
  }

  predicate NeverWipes(actions: seq<Action>) { forall i :: 0 <= i < |actions| ==> !actions[i].WipeData? }

  lemma {:induction false} NoWipes(cfg: Config, w: World, actions: seq<Action>)
    requires NeverWipes(actions)
    ensures WipedSettled(cfg, w, actions)
    ensures Replay(cfg, w, actions).Some? ==> Replay(cfg, w, actions).value.wiped == w.wiped
  {
    hide Do, AllSettled;
    if |actions| > 0 {
      NoWipes(cfg, w, actions[..|actions| - 1]);
      if Replay(cfg, w, actions).Some? {
        StepFeeds(cfg, Replay(cfg, w, actions[..|actions| - 1]).value, actions[|actions| - 1]);
      }
    }
  }

  /** Ids apart, the rows a flow has inserted are those of its own inputs, whatever the other flows did in between. */
  lemma RowsOfFlow(cfg: Config, first: nat, actions: seq<Action>, k: nat)
    requires Replay(cfg, INIT, actions).Some?
    ensures var w := Replay(cfg, INIT, actions).value;
            AllErased(RowsOf(Ever(cfg, first, w.log).rows, k)) ==
                Content(cfg, k, Steps(cfg, InputsOf(w.inputs, k)).events)
  {
    hide Replay, Steps, Content, AllErased, RowsOf, PostAll;
    var w := Replay(cfg, INIT, actions).value;
    FlowsStayApart(cfg, actions, k);
    RowsStayApart(cfg, first, map[], w.log, k);
  }

  /** Every row inserted since the last wipe is in the tables, and so is all that the file had before it. */
  lemma EveryRowIsThere(cfg: Config, first: nat, initial: Rows, w: World)
    requires forall key :: key in initial ==> key.1 < first
    requires MarkOf(w) <= |w.log| && AllStorable(BookAfter(cfg, first, w.log, w.wiped).rows)
    ensures var js, rows := BookAfter(cfg, first, w.log, w.wiped).rows, Tables(cfg, first, initial, w);
            && (forall i :: 0 <= i < |js| ==> KeyOf(js[i]) in rows && rows[KeyOf(js[i])] == js[i].row)
            && (w.wiped.None? ==> forall key :: key in initial ==> key in rows && rows[key] == initial[key])
  {
    hide Stored, PostAll, Storable, TableOf;
    var start := PostAll(cfg, Book([], first, map[]), w.log[..MarkOf(w)]);
    IdsAreDistinct(cfg, first, map[], w.log[..MarkOf(w)]);
    IdsAreDistinct(cfg, start.next, start.links, w.log[MarkOf(w)..]);
    var js, base := BookAfter(cfg, first, w.log, w.wiped).rows, if w.wiped.Some? then map[] else initial;
    forall i | 0 <= i < |js|
      ensures KeyOf(js[i]) in Stored(base, js) && Stored(base, js)[KeyOf(js[i])] == js[i].row
    {
      NothingIsReplaced(base, js, i);
    }
    if js == [] {
      NothingStored(base);
    } else {
      NothingIsReplaced(base, js, 0);
    }
  }

  lemma NothingStored(base: Rows)
    ensures Stored(base, []) == base
  {}

  // ---- A conversation in the tables ----

  lemma {:induction false} ContentJoins(cfg: Config, k: nat, a: seq<Event>, b: seq<Event>)
    ensures Content(cfg, k, a + b) == Content(cfg, k, a) + Content(cfg, k, b)
  {
    hide AllErased, EventRows;
    if |b| == 0 {
      assert a + b == a;
    } else {
      var all, front := a + b, b[..|b| - 1];
      assert all[..|all| - 1] == a + front && all[|all| - 1] == b[|b| - 1];
      ContentJoins(cfg, k, a, front);
    }
  }

  /** A record, or a block of one of the five kinds. */
  predicate OfKnownKind(item: Item) { item.BlockItem? ==> !item.entry.block.Ignored? }

  /** What an entry leaves in the tables: a record of a frontier, or a block and what names it. */
  function EntryContent(kind: Kind, item: Item): seq<Row>
    requires OfKnownKind(item)
  {
    if item.FrontierItem? then [FrontierResponseRow(0, item.frontier)]
    else
      var table := BlockTable(item.entry.block);
      [BlockRow(0, item.entry.block),
       if kind == Kind.BulkPull then BulkPullResponseRow(0, 0, table) else BulkPushEntryRow(0, 0, table)]
  }

  function EntriesContent(kind: Kind, items: seq<Item>): seq<Row>
    requires forall i :: 0 <= i < |items| ==> OfKnownKind(items[i])
  {
    if |items| == 0 then [] else EntriesContent(kind, items[..|items| - 1]) + EntryContent(kind, items[|items| - 1])
  }

  lemma {:induction false} ItemsContent(cfg: Config, k: nat, kind: Kind, items: seq<Item>, es: seq<Event>)
    requires forall i :: 0 <= i < |items| ==> Tabled(cfg, items[i]) && OfKnownKind(items[i])
    requires |es| == |items| && forall i :: 0 <= i < |items| ==> es[i] == PutItem(kind, items[i])
    ensures Content(cfg, k, es) == EntriesContent(kind, items)
  {
    hide AllErased, EventRows, EntryContent;
    if |items| > 0 {
      var n := |items| - 1;
      ItemsContent(cfg, k, kind, items[..n], es[..n]);
      ItemContent(cfg, k, kind, items[n]);
    }
  }

  lemma ItemContent(cfg: Config, k: nat, kind: Kind, item: Item)
    requires Tabled(cfg, item)
    ensures AllErased(EventRows(cfg, k, PutItem(kind, item), 0, 0)) == EntryContent(kind, item)
  {
    hide BlockTable;
  }

  lemma EndContent(cfg: Config, k: nat, note: Note)
    ensures Content(cfg, k, [PutConnection(note)]) == [ConnectionRow(k, note)]
  {
    assert [PutConnection(note)][..0] == [];
    assert Content(cfg, k, [PutConnection(note)][..0]) == [];
  }

  /** The chunks are a whole stream of entries that all get rows, up to the chunk with its end. */
  ghost predicate Answers(cfg: Config, kind: Kind, chunks: seq<seq<byte>>) {
    var s := Joined(chunks);
    && (forall i :: 0 <= i < |chunks| ==> 0 < |chunks[i]| <= CAPACITY - MaxRest(kind))
    && AlmostSolid(kind, s) && Run(kind, [], chunks).used == |chunks| && Drain(kind, s).ended
    && forall i :: 0 <= i < |Drain(kind, s).items| ==>
         Tabled(cfg, Drain(kind, s).items[i]) && OfKnownKind(Drain(kind, s).items[i])
  }

  lemma {:induction false} LogGrows(cfg: Config, w: World, actions: seq<Action>)
    requires Replay(cfg, w, actions).Some?
    ensures w.log <= Replay(cfg, w, actions).value.log
  {
    hide Do;
    if |actions| > 0 {
      LogGrows(cfg, w, actions[..|actions| - 1]);
      StepFeeds(cfg, Replay(cfg, w, actions[..|actions| - 1]).value, actions[|actions| - 1]);
    }
  }

  /** What flow k hands over while it is handled the answer to its request. */
  lemma AnswerEvents(cfg: Config, before: seq<Action>, after: seq<Action>, k: nat, kind: Kind)
        returns (more: seq<(nat, Event)>)
    requires Replay(cfg, INIT, before).Some? && Replay(cfg, INIT, before + after).Some?
    requires Quiet(after, k) && cfg.bootstrapDetails
    requires var w, w' := Replay(cfg, INIT, before).value, Replay(cfg, INIT, before + after).value;
             && StateAt(cfg, w, k) == Fresh(RequestType(kind)) && w.handled <= w'.handled
             && Answers(cfg, kind, DataOf(w'.handled[|w.handled|..], k))
    ensures var w, w' := Replay(cfg, INIT, before).value, Replay(cfg, INIT, before + after).value;
            var items := Drain(kind, Joined(DataOf(w'.handled[|w.handled|..], k))).items;
            && w'.log == w.log + more && StateAt(cfg, w', k) == Fresh(INVALID)
            && EventsOf(more, k) == RecordItems(cfg, kind, items, 0).events + [PutConnection(EndOf(kind, |items|, 0))]
            && |RecordItems(cfg, kind, items, 0).events| == |items|
            && forall i :: 0 <= i < |items| ==> RecordItems(cfg, kind, items, 0).events[i] == PutItem(kind, items[i])
  {
    hide Replay, Steps, Drain, Run, RecordItems, AlmostSolid, DataOf, Joined, StepChunks, NeverOverwrites;
    var w, w' := Replay(cfg, INIT, before).value, Replay(cfg, INIT, before + after).value;
    ReplayJoins(cfg, INIT, before, after);
    LogGrows(cfg, w, after);
    more := w'.log[|w.log|..];
    EventsOfJoin(w.log, more, k);
    OwnChunksOnly(cfg, before, after, k);
    var chunks := DataOf(w'.handled[|w.handled|..], k);
    assert [] + Joined(chunks) == Joined(chunks);
    NothingToDrain(kind);
    ShortChunksFit(kind, [], chunks);
    StreamInAnyCut(cfg, kind, Fresh(RequestType(kind)), chunks);
    AllItemsRecorded(cfg, kind, Drain(kind, Joined(chunks)).items, 0);
    var was, all := EventsOf(w.log, k), EventsOf(w'.log, k);
    assert w'.log == w.log + more;
    assert EventsOf(more, k) == all[|was|..] == StepChunks(cfg, Fresh(RequestType(kind)), chunks).events;
  }

  /** Rows that are in the tables under their keys. */
  predicate AllThere(js: seq<Insert>, rows: Rows) {
    forall i :: 0 <= i < |js| ==> Storable(js[i].row) && KeyOf(js[i]) in rows && rows[KeyOf(js[i])] == js[i].row
  }

  lemma FlowsAreThere(js: seq<Insert>, from: nat, k: nat, rows: Rows)
    requires AllThere(js, rows) && from <= |js|
    ensures AllThere(RowsOf(js[from..], k), rows)
  {
    hide Storable, TableOf;
    RowsOfAmong(js[from..], k);
  }

  /**
   From a request to its rows: in any schedule of any number of flows, a flow that has put a
   request and is then handled the whole stream that answers it, in chunks that leave room for an
   incomplete entry, inserts exactly the rows of the entries of the stream and the note of how many
   there were, in order and with ascending ids, and all of them are in the tables.
   */
  lemma ConversationIsStored(cfg: Config, first: nat, initial: Rows, before: seq<Action>, after: seq<Action>, k: nat,
                             kind: Kind)
    requires Replay(cfg, INIT, before).Some? && Replay(cfg, INIT, before + after).Some?
    requires NeverWipes(after) && Quiet(after, k) && cfg.bootstrapDetails
    requires forall key :: key in initial ==> key.1 < first
    requires var w, w' := Replay(cfg, INIT, before).value, Replay(cfg, INIT, before + after).value;
             && StateAt(cfg, w, k) == Fresh(RequestType(kind)) && w.handled <= w'.handled
             && Answers(cfg, kind, DataOf(w'.handled[|w.handled|..], k))
    ensures var w, w' := Replay(cfg, INIT, before).value, Replay(cfg, INIT, before + after).value;
            && MarkOf(w) <= |w.log| && MarkOf(w') <= |w'.log|
            && AllStorable(BookAfter(cfg, first, w'.log, w'.wiped).rows) && StateAt(cfg, w', k) == Fresh(INVALID)
            && var all := BookAfter(cfg, first, w'.log, w'.wiped).rows;
               var earlier := BookAfter(cfg, first, w.log, w.wiped).rows;
               var items := Drain(kind, Joined(DataOf(w'.handled[|w.handled|..], k))).items;
               && earlier <= all
               && var js := RowsOf(all[|earlier|..], k);
                  && AllErased(js) == EntriesContent(kind, items) + [ConnectionRow(k, EndOf(kind, |items|, 0))]
                  && Ascending(js) && AllThere(js, Tables(cfg, first, initial, w'))
  {
    hide Replay, Steps, Content, AllErased, RowsOf, PostAll, Drain, Run, RecordItems, AlmostSolid, DataOf;
    hide EntriesContent, Joined, BookAfter, Ascending, AllThere, Answers, Stored;
    var w, w' := Replay(cfg, INIT, before).value, Replay(cfg, INIT, before + after).value;
    NoMessages();
    ReplayIsGood(cfg, INIT, before);
    ReplayIsGood(cfg, INIT, before + after);
    GoodIsStorable(cfg, first, w');
    ReplayJoins(cfg, INIT, before, after);
    NoWipes(cfg, w, after);
    var more := AnswerEvents(cfg, before, after, k, kind);
    var items := Drain(kind, Joined(DataOf(w'.handled[|w.handled|..], k))).items;
    var b := BookAfter(cfg, first, w.log, w.wiped);
    BookGrows(cfg, first, w.log, w.wiped, more);
    PostOnTop(cfg, b, more);
    var js := PostAll(cfg, b.(rows := []), more).rows;
    assert (b.rows + js)[|b.rows|..] == js;
    RowsStayApart(cfg, b.next, b.links, more, k);
    OwnRowsAscend(cfg, b.next, b.links, more, k);
    var es, note := RecordItems(cfg, kind, items, 0).events, EndOf(kind, |items|, 0);
    ContentJoins(cfg, k, es, [PutConnection(note)]);
    AnswersAreKnown(cfg, kind, DataOf(w'.handled[|w.handled|..], k));
    ItemsContent(cfg, k, kind, items, es);
    EndContent(cfg, k, note);
    AllThereNow(cfg, first, initial, w');
    FlowsAreThere(b.rows + js, |b.rows|, k, Tables(cfg, first, initial, w'));
  }

  /** The chunk in flight is a message of one of the recorded types, by its sixth byte, on a flow in no stream. */
  predicate MessageDue(cfg: Config, w: World) {
    && w.current.Some? && Parse(w.current.value.1).Parsed? && |w.current.value.1| >= 8
    && (2 <= Num(w.current.value.1[5]) <= 8 || 10 <= Num(w.current.value.1[5]) <= 13)
    && var t := StateAt(cfg, w, w.current.value.0).msgType; t != 6 && t != 7 && t != 8 && t != 11
  }

  /**
   In the tables of w' are the rows of the message that was in flight in w, its packet with the number of
   its type among them.
   */
  predicate MessageStored(cfg: Config, first: nat, initial: Rows, w: World, w': World)
    requires w.current.Some? && Parse(w.current.value.1).Parsed? && |w.current.value.1| >= 8
    requires MarkOf(w) <= |w.log| && MarkOf(w') <= |w'.log| && AllStorable(BookAfter(cfg, first, w'.log, w'.wiped).rows)
  {
    hide PostAll, Stored;
    var k, data, rows := w.current.value.0, w.current.value.1, Tables(cfg, first, initial, w');
    var id := BookAfter(cfg, first, w.log, w.wiped).next + if cfg.connectionDetails then 1 else 0;
    && AllThere(MessageRows(cfg, k, Parse(data).value, id), rows)
    && (Packets, id) in rows && rows[(Packets, id)].PacketRow?
    && rows[(Packets, id)].flowKey == k && rows[(Packets, id)].msgType == Num(data[5])
  }

  /**
   From a chunk to its rows: in any schedule, once such a chunk is finished, the rows of its message are
   in the tables.
   */
  lemma MessageIsStored(cfg: Config, first: nat, initial: Rows, actions: seq<Action>)
    requires forall key :: key in initial ==> key.1 < first
    requires Replay(cfg, INIT, actions).Some? && MessageDue(cfg, Replay(cfg, INIT, actions).value)
    ensures var w := Replay(cfg, INIT, actions).value;
            && Do(cfg, w, FinishPacket).Some?
            && var w' := Do(cfg, w, FinishPacket).value;
               && MarkOf(w) <= |w.log| && MarkOf(w') <= |w'.log|
               && AllStorable(BookAfter(cfg, first, w'.log, w'.wiped).rows) && MessageStored(cfg, first, initial, w, w')
  {
    hide Replay, MessageDue, MessageStored, BookAfter, AllStorable, GoodMessages, Do;
    NoMessages();
    ReplayIsGood(cfg, INIT, actions);
    StepStores(cfg, first, initial, Replay(cfg, INIT, actions).value);
  }

  lemma StepStores(cfg: Config, first: nat, initial: Rows, w: World)
    requires forall key :: key in initial ==> key.1 < first
    requires MessageDue(cfg, w) && GoodMessages(w.log) && MarkOf(w) <= |w.log|
    ensures Do(cfg, w, FinishPacket).Some?
    ensures var w' := Do(cfg, w, FinishPacket).value;
            && MarkOf(w') <= |w'.log| && AllStorable(BookAfter(cfg, first, w'.log, w'.wiped).rows)
            && MessageStored(cfg, first, initial, w, w')
  {
    hide Parse, Steps, PostAll, BookAfter, Stored, MessageRows, Step, CountsError, Storable, TableOf, AllThere,
         GoodMessages;
    assert Do(cfg, w, FinishPacket).Some?;
    var w' := Do(cfg, w, FinishPacket).value;
    var k, data, m := w.current.value.0, w.current.value.1, Parse(w.current.value.1).value;
    MessageByType(cfg, StateAt(cfg, w, k), data);
    FinishStep(cfg, w);
    InputIsGood(cfg, StateAt(cfg, w, k), Chunk(data));
    GoodGrows(w.log, k, Step(cfg, StateAt(cfg, w, k), data).events);
    GoodIsStorable(cfg, first, w');
    AllThereNow(cfg, first, initial, w');
    var note := if cfg.connectionDetails then Some(MessageSeen(Num(data[5]))) else None;
    var es: seq<Event> := if note.Some? then [PutConnection(note.value), PutMessage(m)] else [PutMessage(m)];
    assert es == Step(cfg, StateAt(cfg, w, k), data).events;
    BookGrows(cfg, first, w.log, w.wiped, Tagged(k, es));
    var b := BookAfter(cfg, first, w.log, w.wiped);
    var id := MessagePosted(cfg, b, k, m, note);
    LastAreThere(PostAll(cfg, b, Tagged(k, es)).rows, MessageRows(cfg, k, m, id), Tables(cfg, first, initial, w'));
    PacketIsThere(cfg, k, m, id, Tables(cfg, first, initial, w'));
  }

  /** A message, behind a note or not. */
  lemma MessagePosted(cfg: Config, b: Book, k: nat, m: Message, note: Option<Note>) returns (id: nat)
    ensures id == b.next + if note.Some? then 1 else 0
    ensures var es: seq<Event> := if note.Some? then [PutConnection(note.value), PutMessage(m)] else [PutMessage(m)];
            exists front :: PostAll(cfg, b, Tagged(k, es)).rows == front + MessageRows(cfg, k, m, id)
  {
    hide PostAll, MessageRows, MessageIds;
    id := b.next + if note.Some? then 1 else 0;
    if note.Some? {
      TwoPosts(cfg, b, k, PutConnection(note.value), PutMessage(m), []);
      assert Post(cfg, Post(cfg, b, (k, PutConnection(note.value))), (k, PutMessage(m))).rows ==
             Post(cfg, b, (k, PutConnection(note.value))).rows + MessageRows(cfg, k, m, id);
    } else {
      TwoPosts(cfg, b, k, PutMessage(m), PutMessage(m), []);
      assert Post(cfg, b, (k, PutMessage(m))).rows == b.rows + MessageRows(cfg, k, m, id);
    }
  }

  lemma LastAreThere(js: seq<Insert>, more: seq<Insert>, rows: Rows)
    requires AllThere(js, rows) && exists front :: js == front + more
    ensures AllThere(more, rows)
  {
    hide Storable, TableOf;
    var front :| js == front + more;
    forall i | 0 <= i < |more|
      ensures more[i] == js[|front| + i]
    {}
  }

  lemma PacketIsThere(cfg: Config, k: nat, m: Message, id: nat, rows: Rows)
    requires AllThere(MessageRows(cfg, k, m, id), rows)
    ensures (Packets, id) in rows && rows[(Packets, id)].PacketRow?
    ensures rows[(Packets, id)].flowKey == k && rows[(Packets, id)].msgType == m.header.messageType
  {
    hide MessageRows;
    OnePacketPerMessage(cfg, k, m, id);
    PacketOfFlow(cfg, k, m, id);
  }

  lemma PacketOfFlow(cfg: Config, k: nat, m: Message, id: nat)
    ensures forall i :: 0 <= i < |MessageRows(cfg, k, m, id)| && MessageRows(cfg, k, m, id)[i].row.PacketRow? ==>
              MessageRows(cfg, k, m, id)[i].row.flowKey == k
  {}

  lemma AnswersAreKnown(cfg: Config, kind: Kind, chunks: seq<seq<byte>>)
    requires Answers(cfg, kind, chunks)
    ensures var items := Drain(kind, Joined(chunks)).items;
            forall i :: 0 <= i < |items| ==> Tabled(cfg, items[i]) && OfKnownKind(items[i])
  {}

  lemma AllThereNow(cfg: Config, first: nat, initial: Rows, w: World)
    requires forall key :: key in initial ==> key.1 < first
    requires MarkOf(w) <= |w.log| && AllStorable(BookAfter(cfg, first, w.log, w.wiped).rows)
    ensures AllThere(BookAfter(cfg, first, w.log, w.wiped).rows, Tables(cfg, first, initial, w))
  {
    hide Stored, BookAfter, Storable, TableOf;
    EveryRowIsThere(cfg, first, initial, w);
  }

  lemma NoMessages()
    ensures GoodMessages(INIT.log)
  {}
}
