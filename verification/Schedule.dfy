/**
 The capture as a whole, on values: what the capture thread, the processing thread and the web
 server do, one atomic step after the other.  A replay of any schedule tells the queue, what each
 flow has been given, and everything handed to the database; the packet handler is proved to do
 exactly this in place.
 */
module Schedule {
  import opened Bytes
  import opened Flow
  import opened KStream
  import opened Ledger
  import opened Messages
  import opened NanoBlocks
  import opened Streams

  /** hasMissingData: pcap reports lost packets as "[... missing]" in front of what is left. */
  predicate HasMissingData(data: seq<byte>) {
    && |data| > 16 && data[0] == 0x5B
    && exists i :: (0 <= i < |data| - 3 && data[i] == 0x69 && data[i + 1] == 0x6E &&
                    data[i + 2] == 0x67 && data[i + 3] == 0x5D)
  }

  /** Such a note, whatever the count in it and whatever follows: "[", the count, " bytes missing]". */
  lemma MissingIsFound(count: seq<byte>, rest: seq<byte>)
    requires |count| > 0
    ensures HasMissingData([0x5B] + count +
                           [0x20, 0x62, 0x79, 0x74, 0x65, 0x73, 0x20, 0x6D, 0x69, 0x73, 0x73, 0x69, 0x6E, 0x67, 0x5D] +
                           rest)
  {
    var text := [0x20, 0x62, 0x79, 0x74, 0x65, 0x73, 0x20, 0x6D, 0x69, 0x73, 0x73, 0x69, 0x6E, 0x67, 0x5D];
    var data := [0x5B] + count + text + rest;
    var i := 1 + |count| + 11;
    assert data[i] == text[11] && data[i + 1] == text[12] && data[i + 2] == text[13] && data[i + 3] == text[14];
  }

  /** The search for the end of such a note. */
  method FindMissing(data: seq<byte>) returns (missing: bool)
    ensures missing == HasMissingData(data)
  {
    if |data| > 16 && data[0] == 0x5B {
      var i := 0;
      while i + 3 < |data|
        invariant 0 <= i
        invariant forall j :: 0 <= j < i && j + 3 < |data| ==>
                    !(data[j] == 0x69 && data[j + 1] == 0x6E && data[j + 2] == 0x67 && data[j + 3] == 0x5D)
      {
        if data[i] == 0x69 && data[i + 1] == 0x6E && data[i + 2] == 0x67 && data[i + 3] == 0x5D {
          return true;
        }
        i := i + 1;
      }
    }
    missing := false;
  }

  /** A chunk and its flow. */
  type Delivery = (nat, seq<byte>)

  datatype Action =
    | DataReady(key: nat, data: seq<byte>)
    | ConnectionStart(key: nat)
    | ConnectionEnd(key: nat)
    | TakePacket
    | FinishPacket
    | StopThread
    | WipeData

  /**
   The queue and the chunk being handled; what has been handled, given to each flow, and handed over; the
   length of that at the last wipe.
   */
  datatype World = World(queue: seq<Delivery>, current: Option<Delivery>, stopped: bool, handled: seq<Delivery>,
                         inputs: map<nat, seq<Input>>, log: seq<(nat, Event)>, wiped: Option<nat>, parseErrors: nat)

  const INIT: World := World([], None, false, [], map[], [], None, 0)

  function InputsOf(inputs: map<nat, seq<Input>>, k: nat): seq<Input> {
    if k in inputs then inputs[k] else []
  }

  /** The state of a flow: where its own inputs have brought it. */
  function StateAt(cfg: Config, w: World, k: nat): FlowState { Steps(cfg, InputsOf(w.inputs, k)).state }

  /** A flow gets an input. */
  function Feed(cfg: Config, w: World, k: nat, i: Input): World {
    w.(inputs := w.inputs[k := InputsOf(w.inputs, k) + [i]],
       log := w.log + Tagged(k, StepInput(cfg, StateAt(cfg, w, k), i).events))
  }

  predicate Queues(a: Action) { a.DataReady? && |a.data| > 0 && !HasMissingData(a.data) }

  /** A chunk that is taken for a message and is none. */
  predicate CountsError(f: FlowState, data: seq<byte>) {
    !(KindOf(f.msgType).Some? && |data| > 0) && Parse(data).RuntimeError?
  }

  /** What a step does; None is the reply to a bulk_pull_account, and a step that is not enabled does nothing. */
  function Do(cfg: Config, w: World, a: Action): Option<World> {
    match a
    case DataReady(key, data) => Some(if Queues(a) then w.(queue := w.queue + [(key, data)]) else w)
    case ConnectionStart(key) => Some(Feed(cfg, w, key, Start))
    case ConnectionEnd(key) => Some(Feed(cfg, w, key, Finish))
    case TakePacket =>
      Some(if !w.stopped && w.current.None? && |w.queue| > 0
           then w.(current := Some(w.queue[0]), queue := w.queue[1..]) else w)
    case FinishPacket =>
      if w.current.None? then Some(w)
      else
        var p := w.current.value;
        if !Modelled(StateAt(cfg, w, p.0), p.1) then None
        else Some(Feed(cfg, w, p.0, Chunk(p.1)).(
          current := None, handled := w.handled + [p],
          parseErrors := w.parseErrors + if CountsError(StateAt(cfg, w, p.0), p.1) then 1 else 0))
    case StopThread => Some(w.(stopped := true))
    case WipeData => Some(w.(wiped := Some(|w.log|)))
  }

  /** What finishing a packet does. */
  lemma FinishStep(cfg: Config, w: World)
    requires Do(cfg, w, FinishPacket).Some?
    ensures w.current.None? ==> Do(cfg, w, FinishPacket) == Some(w)
    ensures w.current.Some? ==>
            var p := w.current.value;
            var f := StateAt(cfg, w, p.0);
            && Modelled(f, p.1)
            && Do(cfg, w, FinishPacket) ==
               Some(World(w.queue, None, w.stopped, w.handled + [p],
                          w.inputs[p.0 := InputsOf(w.inputs, p.0) + [Chunk(p.1)]],
                          w.log + Tagged(p.0, Step(cfg, f, p.1).events), w.wiped,
                          w.parseErrors + if CountsError(f, p.1) then 1 else 0))
  {
    hide Steps, Step, CountsError, Tagged;
  }

  /** The state after a schedule. */
  function Replay(cfg: Config, w: World, actions: seq<Action>): Option<World> {
    if |actions| == 0 then Some(w)
    else
      var before := Replay(cfg, w, actions[..|actions| - 1]);
      if before.None? then None else Do(cfg, before.value, actions[|actions| - 1])
  }

  lemma {:induction false} ReplayJoins(cfg: Config, w: World, a: seq<Action>, b: seq<Action>)
    ensures Replay(cfg, w, a + b) ==
            if Replay(cfg, w, a).None? then None else Replay(cfg, Replay(cfg, w, a).value, b)
  {
    hide Do;
    if |b| == 0 {
      assert a + b == a;
    } else {
      var all, front := a + b, b[..|b| - 1];
      assert all[..|all| - 1] == a + front && all[|all| - 1] == b[|b| - 1];
      ReplayJoins(cfg, w, a, front);
    }
  }

  /** How often the data is wiped. */
  function WipesIn(actions: seq<Action>): nat {
    if |actions| == 0 then 0 else WipesIn(actions[..|actions| - 1]) + if actions[|actions| - 1].WipeData? then 1 else 0
  }

  // ---- First in, first out ----

  /** The chunks that a schedule queues. */
  function Queued(actions: seq<Action>): seq<Delivery> {
    if |actions| == 0 then []
    else
      var a := actions[|actions| - 1];
      Queued(actions[..|actions| - 1]) + if Queues(a) then [(a.key, a.data)] else []
  }

  function InFlight(w: World): seq<Delivery> { if w.current.Some? then [w.current.value] else [] }

  function Delivered(w: World): seq<Delivery> { w.handled + InFlight(w) + w.queue }

  lemma StepKeepsOrder(cfg: Config, w: World, a: Action)
    requires Do(cfg, w, a).Some?
    ensures Delivered(Do(cfg, w, a).value) == Delivered(w) + if Queues(a) then [(a.key, a.data)] else []
  {
    hide HasMissingData, StateAt, StepInput, CountsError, Modelled;
    var w' := Do(cfg, w, a).value;
    if a.DataReady? && Queues(a) {
      var p := [(a.key, a.data)];
      assert w.handled + InFlight(w) + (w.queue + p) == Delivered(w) + p;
    } else if a.TakePacket? && w.current.None? && |w.queue| > 0 {
      assert w.queue == [w.queue[0]] + w.queue[1..];
    } else if a.FinishPacket? && w.current.Some? {
      assert w'.handled + [] + w.queue == Delivered(w);
    }
    assert Delivered(w) + [] == Delivered(w);
  }

  /**
   No chunk is lost, repeated or overtaken: handled, in flight and queued are together what the schedule
   has queued.
   */
  lemma {:induction false} InOrder(cfg: Config, actions: seq<Action>)
    requires Replay(cfg, INIT, actions).Some?
    ensures Delivered(Replay(cfg, INIT, actions).value) == Queued(actions)
  {
    hide Do, Queues;
    if |actions| > 0 {
      hide Delivered;
      InOrder(cfg, actions[..|actions| - 1]);
      StepKeepsOrder(cfg, Replay(cfg, INIT, actions[..|actions| - 1]).value, actions[|actions| - 1]);
    }
  }

  // ---- Flows apart ----

  /** The chunks among the inputs of a flow. */
  function ChunksOf(inputs: seq<Input>): seq<seq<byte>> {
    if |inputs| == 0 then []
    else ChunksOf(inputs[..|inputs| - 1]) + if inputs[|inputs| - 1].Chunk? then [inputs[|inputs| - 1].data] else []
  }

  /** The chunks delivered to flow k. */
  function DataOf(ps: seq<Delivery>, k: nat): seq<seq<byte>> {
    if |ps| == 0 then []
    else DataOf(ps[..|ps| - 1], k) + if ps[|ps| - 1].0 == k then [ps[|ps| - 1].1] else []
  }

  lemma StepsSnoc(cfg: Config, inputs: seq<Input>, i: Input)
    ensures var before := Steps(cfg, inputs);
            var e := StepInput(cfg, before.state, i);
            Steps(cfg, inputs + [i]) == Effect(e.state, before.events + e.events)
    ensures ChunksOf(inputs + [i]) == if i.Chunk? then ChunksOf(inputs) + [i.data] else ChunksOf(inputs)
  {
    hide StepInput;
    assert (inputs + [i])[..|inputs|] == inputs;
  }

  lemma DataOfSnoc(ps: seq<Delivery>, p: Delivery, k: nat)
    ensures DataOf(ps + [p], k) == if p.0 == k then DataOf(ps, k) + [p.1] else DataOf(ps, k)
  {
    assert (ps + [p])[..|ps|] == ps;
  }

  /** A flow has handed over what its inputs alone call for, and its chunks are those handled for it. */
  predicate Apart(cfg: Config, w: World, k: nat) {
    && Steps(cfg, InputsOf(w.inputs, k)).events == EventsOf(w.log, k)
    && ChunksOf(InputsOf(w.inputs, k)) == DataOf(w.handled, k)
  }

  /** An input moves its own flow, and no other. */
  lemma FeedApart(cfg: Config, w: World, key: nat, i: Input, k: nat)
    ensures var w' := Feed(cfg, w, key, i);
            && InputsOf(w'.inputs, k) == (if k == key then InputsOf(w.inputs, k) + [i] else InputsOf(w.inputs, k))
            && StateAt(cfg, w', k) ==
               (if k == key then StepInput(cfg, StateAt(cfg, w, k), i).state else StateAt(cfg, w, k))
    ensures Apart(cfg, w, k) ==>
              Steps(cfg, InputsOf(Feed(cfg, w, key, i).inputs, k)).events == EventsOf(Feed(cfg, w, key, i).log, k)
  {
    hide StepInput, Steps, EventsOf, ChunksOf, DataOf;
    StepsSnoc(cfg, InputsOf(w.inputs, k), i);
    EventsOfTagged(w.log, key, StepInput(cfg, StateAt(cfg, w, key), i).events, k);
  }

  /** The input that a step gives to some flow. */
  function Given(w: World, a: Action): Option<(nat, Input)> {
    match a
    case ConnectionStart(key) => Some((key, Start))
    case ConnectionEnd(key) => Some((key, Finish))
    case FinishPacket => if w.current.Some? then Some((w.current.value.0, Chunk(w.current.value.1))) else None
    case _ => None
  }

  /** What a step makes of the inputs, the log and the chunks handled. */
  lemma StepFeeds(cfg: Config, w: World, a: Action)
    requires Do(cfg, w, a).Some?
    ensures var w', g := Do(cfg, w, a).value, Given(w, a);
            var fed := if g.Some? then Feed(cfg, w, g.value.0, g.value.1) else w;
            && w'.inputs == fed.inputs && w'.log == fed.log
            && w'.wiped == (if a.WipeData? then Some(|w.log|) else w.wiped)
            && w'.handled ==
               (if g.Some? && g.value.1.Chunk? then w.handled + [(g.value.0, g.value.1.data)] else w.handled)
  {
    hide Queues, CountsError, Modelled, StateAt, StepInput;
  }

  lemma StepApart(cfg: Config, w: World, a: Action, k: nat)
    requires Apart(cfg, w, k) && Do(cfg, w, a).Some?
    ensures Apart(cfg, Do(cfg, w, a).value, k)
  {
    hide Do, Steps, EventsOf, ChunksOf, DataOf, Feed;
    StepFeeds(cfg, w, a);
    var g := Given(w, a);
    if g.Some? {
      FeedApart(cfg, w, g.value.0, g.value.1, k);
      StepsSnoc(cfg, InputsOf(w.inputs, k), g.value.1);
      if g.value.1.Chunk? {
        DataOfSnoc(w.handled, (g.value.0, g.value.1.data), k);
      }
    }
  }

  /**
   After any schedule every flow has handed over exactly what its own inputs call for, whatever the others
   did in between.
   */
  lemma {:induction false} FlowsStayApart(cfg: Config, actions: seq<Action>, k: nat)
    requires Replay(cfg, INIT, actions).Some?
    ensures Apart(cfg, Replay(cfg, INIT, actions).value, k)
  {
    hide Do, Apart;
    if |actions| == 0 {
      NothingApart(cfg, k);
    } else {
      FlowsStayApart(cfg, actions[..|actions| - 1], k);
      StepApart(cfg, Replay(cfg, INIT, actions[..|actions| - 1]).value, actions[|actions| - 1], k);
    }
  }

  lemma NothingApart(cfg: Config, k: nat)
    ensures Apart(cfg, INIT, k)
  {}

  /** No connection of flow k starts or ends. */
  predicate Quiet(actions: seq<Action>, k: nat) {
    forall i :: 0 <= i < |actions| ==> actions[i] != ConnectionStart(k) && actions[i] != ConnectionEnd(k)
  }

  lemma {:induction false} DataOfJoins(a: seq<Delivery>, b: seq<Delivery>, k: nat)
    ensures DataOf(a + b, k) == DataOf(a, k) + DataOf(b, k)
  {
    if |b| == 0 {
      assert a + b == a;
    } else {
      var all, front := a + b, b[..|b| - 1];
      assert all[..|all| - 1] == a + front && all[|all| - 1] == b[|b| - 1];
      DataOfJoins(a, front, k);
    }
  }

  lemma DataOfOne(p: Delivery, k: nat)
    ensures DataOf([p], k) == if p.0 == k then [p.1] else []
  {
    assert [p][..0] == [];
  }

  /** A step that neither starts nor ends the connection of flow k gives it the chunk that is handled for it, if any. */
  lemma StepQuiet(cfg: Config, v: World, a: Action, k: nat)
    requires Do(cfg, v, a).Some? && a != ConnectionStart(k) && a != ConnectionEnd(k)
    ensures var w := Do(cfg, v, a).value;
            && v.handled <= w.handled
            && InputsOf(w.inputs, k) == InputsOf(v.inputs, k) + ChunkInputs(DataOf(w.handled[|v.handled|..], k))
  {
    hide Do, DataOf, Feed, InputsOf;
    StepFeeds(cfg, v, a);
    var g := Given(v, a);
    NoChunks(v, k);
    if g.Some? {
      FeedApart(cfg, v, g.value.0, g.value.1, k);
      if g.value.1.Chunk? {
        var p := (g.value.0, g.value.1.data);
        assert (v.handled + [p])[|v.handled|..] == [p];
        DataOfOne(p, k);
        assert ChunkInputs([p.1]) == [Chunk(p.1)];
        assert InputsOf(v.inputs, k) + [] == InputsOf(v.inputs, k);
      }
    }
  }

  /** While its connection neither starts nor ends, a flow is given the chunks handled for it and nothing else. */
  lemma {:induction false} QuietInputs(cfg: Config, w: World, actions: seq<Action>, k: nat)
    requires Replay(cfg, w, actions).Some? && Quiet(actions, k)
    ensures var w' := Replay(cfg, w, actions).value;
            && w.handled <= w'.handled
            && InputsOf(w'.inputs, k) == InputsOf(w.inputs, k) + ChunkInputs(DataOf(w'.handled[|w.handled|..], k))
  {
    hide Do, DataOf, InputsOf, ChunkInputs;
    if |actions| == 0 {
      NoChunks(w, k);
    } else {
      var front, a := actions[..|actions| - 1], actions[|actions| - 1];
      QuietInputs(cfg, w, front, k);
      var v := Replay(cfg, w, front).value;
      StepQuiet(cfg, v, a, k);
      InputsAdd(InputsOf(w.inputs, k), w.handled, v.handled, Do(cfg, v, a).value.handled, k);
    }
  }

  lemma InputsAdd(own: seq<Input>, x: seq<Delivery>, y: seq<Delivery>, z: seq<Delivery>, k: nat)
    requires x <= y <= z
    ensures own + ChunkInputs(DataOf(y[|x|..], k)) + ChunkInputs(DataOf(z[|y|..], k)) ==
            own + ChunkInputs(DataOf(z[|x|..], k))
  {
    assert z[|x|..] == y[|x|..] + z[|y|..];
    DataOfJoins(y[|x|..], z[|y|..], k);
  }

  lemma NoChunks(w: World, k: nat)
    ensures InputsOf(w.inputs, k) == InputsOf(w.inputs, k) + ChunkInputs(DataOf(w.handled[|w.handled|..], k))
  {}

  /**
   From any point of any schedule on, while its connection neither starts nor ends, a flow does
   with the chunks handled for it what it would do with them alone.
   */
  lemma OwnChunksOnly(cfg: Config, before: seq<Action>, after: seq<Action>, k: nat)
    requires Replay(cfg, INIT, before + after).Some? && Quiet(after, k)
    ensures Replay(cfg, INIT, before).Some?
    ensures var w, w' := Replay(cfg, INIT, before).value, Replay(cfg, INIT, before + after).value;
            && w.handled <= w'.handled
            && var e := StepChunks(cfg, StateAt(cfg, w, k), DataOf(w'.handled[|w.handled|..], k));
               StateAt(cfg, w', k) == e.state && EventsOf(w'.log, k) == EventsOf(w.log, k) + e.events
  {
    hide Replay, Steps, StepChunks, DataOf, EventsOf;
    ReplayJoins(cfg, INIT, before, after);
    var w := Replay(cfg, INIT, before).value;
    QuietInputs(cfg, w, after, k);
    FlowsStayApart(cfg, before, k);
    FlowsStayApart(cfg, before + after, k);
    var w' := Replay(cfg, INIT, before + after).value;
    StepsThenChunks(cfg, InputsOf(w.inputs, k), DataOf(w'.handled[|w.handled|..], k));
  }

  /** In particular a flow whose connection never starts or ends in the schedule only depends on its own chunks. */
  lemma OwnChunksFromTheStart(cfg: Config, actions: seq<Action>, k: nat)
    requires Replay(cfg, INIT, actions).Some? && Quiet(actions, k)
    ensures var w := Replay(cfg, INIT, actions).value;
            var e := StepChunks(cfg, Fresh(INVALID), DataOf(w.handled, k));
            StateAt(cfg, w, k) == e.state && EventsOf(w.log, k) == e.events
  {
    hide StepChunks, Do, DataOf;
    assert [] + actions == actions;
    OwnChunksOnly(cfg, [], actions, k);
    var w := Replay(cfg, INIT, actions).value;
    assert w.handled[0..] == w.handled;
    assert Replay(cfg, INIT, []) == Some(INIT);
  }

  /** The starts and ends among the inputs of a flow. */
  function ConnectionsOf(inputs: seq<Input>): seq<Input> {
    if |inputs| == 0 then []
    else ConnectionsOf(inputs[..|inputs| - 1]) + if inputs[|inputs| - 1].Chunk? then [] else [inputs[|inputs| - 1]]
  }

  /** The input that a step gives flow k, if it tells it of a start or an end of its connection. */
  function Told(a: Action, k: nat): seq<Input> {
    if a == ConnectionStart(k) then [Start] else if a == ConnectionEnd(k) then [Finish] else []
  }

  /** The starts and ends of flow k in a schedule. */
  function ScheduledFor(actions: seq<Action>, k: nat): seq<Input> {
    if |actions| == 0 then []
    else
      ScheduledFor(actions[..|actions| - 1], k) + Told(actions[|actions| - 1], k)
  }

  /** A flow is told of the starts and ends of its connection as the schedule has them. */
  lemma {:induction false} ConnectionsAsScheduled(cfg: Config, actions: seq<Action>, k: nat)
    requires Replay(cfg, INIT, actions).Some?
    ensures ConnectionsOf(InputsOf(Replay(cfg, INIT, actions).value.inputs, k)) == ScheduledFor(actions, k)
  {
    hide Do, ConnectionsOf, InputsOf;
    if |actions| == 0 {
      NoConnections(cfg, k);
    } else {
      var front, a := actions[..|actions| - 1], actions[|actions| - 1];
      ConnectionsAsScheduled(cfg, front, k);
      StepConnections(cfg, Replay(cfg, INIT, front).value, a, k);
    }
  }

  lemma StepConnections(cfg: Config, w: World, a: Action, k: nat)
    requires Do(cfg, w, a).Some?
    ensures ConnectionsOf(InputsOf(Do(cfg, w, a).value.inputs, k)) == ConnectionsOf(InputsOf(w.inputs, k)) + Told(a, k)
  {
    hide Do, Feed, ConnectionsOf;
    StepFeeds(cfg, w, a);
    var g := Given(w, a);
    if g.Some? {
      FeedApart(cfg, w, g.value.0, g.value.1, k);
      ConnectionsSnoc(InputsOf(w.inputs, k), g.value.1);
    }
  }

  lemma NoConnections(cfg: Config, k: nat)
    ensures ConnectionsOf(InputsOf(INIT.inputs, k)) == []
  {}

  lemma ConnectionsSnoc(inputs: seq<Input>, i: Input)
    ensures ConnectionsOf(inputs + [i]) == ConnectionsOf(inputs) + if i.Chunk? then [] else [i]
    ensures inputs + [] == inputs
  {
    assert (inputs + [i])[..|inputs|] == inputs;
  }
}
