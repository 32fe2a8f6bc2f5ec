/**
 The packet handler: the capture thread queues chunks of TCP data and starts flows, the
 processing thread takes chunks off the queue and handles them, and the web server wipes the
 data.  Each method below is one atomic step of one of the threads, so that any sequence of calls
 is a schedule, and makes exactly the step that the replay of schedules makes on values.
 */
module PacketHandler {
  import opened Bytes
  import opened Database
  import opened Flow
  import opened Integrity
  import opened Ledger
  import opened Messages
  import opened Schedule
  import opened Sessions
  import opened Streams
  import opened TcpHandler

  /** nano_packet, with the flow data that it shares. */
  datatype Packet = Packet(flowKey: nat, data: seq<byte>, flow: FlowData)

  function DeliveryOf(p: Packet): Delivery { (p.flowKey, p.data) }

  function Deliveries(ps: seq<Packet>): (r: seq<Delivery>)
    ensures |r| == |ps|
  {
    seq(|ps|, i requires 0 <= i < |ps| => DeliveryOf(ps[i]))
  }

  lemma DeliveriesMove(ps: seq<Packet>, p: Packet)
    ensures Deliveries(ps + [p]) == Deliveries(ps) + [DeliveryOf(p)]
    ensures |ps| > 0 ==> Deliveries(ps)[0] == DeliveryOf(ps[0]) && Deliveries(ps[1..]) == Deliveries(ps)[1..]
  {}

  function StateIn(states: map<nat, FlowState>, k: nat): FlowState {
    if k in states then states[k] else Fresh(INVALID)
  }

  /** Every flow is where its own inputs have brought it. */
  ghost predicate AllBrought(cfg: Config, inputs: map<nat, seq<Input>>, states: map<nat, FlowState>) {
    forall k :: StateIn(states, k) == Steps(cfg, InputsOf(inputs, k)).state
  }

  lemma InputBrings(cfg: Config, inputs: map<nat, seq<Input>>, states: map<nat, FlowState>, key: nat, i: Input)
    requires AllBrought(cfg, inputs, states)
    ensures AllBrought(cfg, inputs[key := InputsOf(inputs, key) + [i]],
                       states[key := StepInput(cfg, StateIn(states, key), i).state])
  {
    hide Steps, StepInput;
    StepsSnoc(cfg, InputsOf(inputs, key), i);
    var inputs' := inputs[key := InputsOf(inputs, key) + [i]];
    var states' := states[key := StepInput(cfg, StateIn(states, key), i).state];
    forall k
      ensures StateIn(states', k) == Steps(cfg, InputsOf(inputs', k)).state
    {
      assert StateIn(states, k) == Steps(cfg, InputsOf(inputs, k)).state;
    }
  }

  lemma SameBrought(cfg: Config, inputs: map<nat, seq<Input>>, states: map<nat, FlowState>,
                    states': map<nat, FlowState>)
    requires AllBrought(cfg, inputs, states) && forall k :: StateIn(states', k) == StateIn(states, k)
    ensures AllBrought(cfg, inputs, states')
  {
    hide Steps;
    forall k
      ensures StateIn(states', k) == Steps(cfg, InputsOf(inputs, k)).state
    {
      assert StateIn(states', k) == StateIn(states, k);
    }
  }

  lemma FreshIsPosted(links: map<nat, nat>, key: nat, f: FlowData)
    requires f.State() == Fresh(INVALID)
    ensures Posted(links, key, f)
  {}

  class Handler {
    const db: Db
    /** The flows by key, the queue, and the packet that the processing thread works on. */
    var connMgr: map<nat, FlowData>
    var queue: seq<Packet>
    var current: Option<Packet>
    var stopped: bool
    var parseErrors: nat

    /** The chunks done with, and what each flow has been given. */
    ghost var handled: seq<Delivery>
    ghost var inputs: map<nat, seq<Input>>

    /** The handler as the replay sees it. */
    ghost function Seen(): World
      reads `queue, `current, `stopped, `parseErrors, `handled, `inputs, db`log, db`wiped
    {
      World(Deliveries(queue), if current.Some? then Some(DeliveryOf(current.value)) else None,
            stopped, handled, inputs,
            db.log, db.wiped, parseErrors)
    }

    /** Flows are separate objects, whose rings are within their capacity, and which know what they put last. */
    ghost predicate FlowMap()
      reads `connMgr, connMgr.Values, db`links
    {
      && (forall j, k :: j in connMgr && k in connMgr && j != k ==> connMgr[j] != connMgr[k])
      && (forall k :: k in connMgr ==> |connMgr[k].accumulated| <= CAPACITY)
      && (forall k :: k in connMgr ==> Posted(db.links, k, connMgr[k]))
    }

    /** A packet carries the data of its own flow. */
    ghost predicate Home(p: Packet)
      reads `connMgr
    {
      p.flowKey in connMgr && connMgr[p.flowKey] == p.flow
    }

    ghost predicate AllHome()
      reads `connMgr, `current, `queue
    {
      (forall i :: 0 <= i < |queue| ==> Home(queue[i])) && (current.Some? ==> Home(current.value))
    }

    ghost function States(): map<nat, FlowState>
      reads `connMgr, connMgr.Values
    {
      map k | k in connMgr :: connMgr[k].State()
    }

    ghost predicate Brought()
      reads `connMgr, connMgr.Values, `inputs
    {
      AllBrought(db.cfg, inputs, States())
    }

    /** The flows and the database. */
    ghost predicate FlowsValid()
      reads `connMgr, `inputs, connMgr.Values, db
    {
      hide Brought;
      db.Valid() && db.Booked() && FlowMap() && Brought()
    }

    ghost predicate Valid()
      reads this, connMgr.Values, db
    {
      FlowsValid() && AllHome()
    }

    constructor (db: Db)
      requires db.Valid() && db.Booked() && db.log == [] && db.wiped.None?
      ensures Valid() && this.db == db && Seen() == INIT && connMgr == map[]
    {
      this.db := db;
      connMgr, queue, current, stopped, parseErrors := map[], [], None, false, 0;
      handled, inputs := [], map[];
    }

    /** The tables hold exactly the rows that the ledger has for what has been handed over. */
    lemma TablesAreKept()
      requires Valid()
      ensures MarkOf(Seen()) <= |Seen().log| && AllStorable(BookAfter(db.cfg, db.first, Seen().log, Seen().wiped).rows)
      ensures db.rows == Tables(db.cfg, db.first, db.initial, Seen())
    {
      hide Stored, BookAfter, WipedRows, AllStorable, AllBrought;
    }

    /** A new flow is put into the map. */
    method Insert(key: nat)
      requires FlowMap() && key !in connMgr
      modifies `connMgr
      ensures FlowMap() && key in connMgr && States() == old(States())[key := Fresh(INVALID)]
      ensures fresh(connMgr[key]) && connMgr == old(connMgr)[key := connMgr[key]]
    {
      hide Posted;
      var f := new FlowData();
      FreshIsPosted(db.links, key, f);
      connMgr := connMgr[key := f];
    }

    /** The flow of a key, which is put into the map if it has not been seen. */
    method FindOrInsert(key: nat) returns (f: FlowData)
      requires FlowsValid()
      modifies `connMgr
      ensures FlowsValid() && key in connMgr && connMgr[key] == f
      ensures old(connMgr.Keys) <= connMgr.Keys && forall k :: k in old(connMgr) ==> connMgr[k] == old(connMgr[k])
      ensures fresh(connMgr.Values - old(connMgr.Values))
    {
      hide AllBrought, Db.Valid, Db.Booked, FlowMap, States;
      if key !in connMgr {
        ghost var states := States();
        SameKeys(key);
        Insert(key);
        SameBrought(db.cfg, inputs, states, States());
      }
      f := connMgr[key];
    }

    lemma SameKeys(key: nat)
      ensures key in States() <==> key in connMgr
    {}

    /** tcpReassemblyMsgReadyCallback: data on a connection. */
    method OnDataReady(key: nat, data: seq<byte>)
      requires Valid()
      modifies `connMgr, `queue
      ensures Valid() && Some(Seen()) == Do(db.cfg, old(Seen()), DataReady(key, data))
      ensures fresh(connMgr.Values - old(connMgr.Values))
    {
      hide FlowsValid, HasMissingData;
      if |data| == 0 {
        return;
      }
      var f := FindOrInsert(key);
      var missing := FindMissing(data);
      if missing {
        return;
      }
      var p := Packet(key, data, f);
      DeliveriesMove(queue, p);
      queue := queue + [p];
    }

    /** The processing thread takes the first packet off the queue, if it has nothing to do and has not been stopped. */
    method Take()
      requires Valid()
      modifies `current, `queue
      ensures Valid() && Some(Seen()) == Do(db.cfg, old(Seen()), TakePacket)
    {
      hide FlowsValid;
      if !stopped && current.None? && |queue| > 0 {
        DeliveriesMove(queue, queue[0]);
        current := Some(queue[0]);
        queue := queue[1..];
      }
    }

    /** stop_packet_processing_thread. */
    method Stop()
      requires Valid()
      modifies `stopped
      ensures Valid() && Some(Seen()) == Do(db.cfg, old(Seen()), StopThread)
    {
      hide FlowsValid;
      stopped := true;
    }

    /** handle_tcp on a packet, seen from all the flows. */
    method Handle(p: Packet) returns (failed: bool)
      requires db.Valid() && db.Booked() && FlowMap() && Home(p)
      requires Modelled(p.flow.State(), p.data)
      modifies p.flow, db`nextId, db`rows, db`countPerType, db`used, db`journal, db`links, db`log
      ensures db.Valid() && db.Booked() && FlowMap()
      ensures var e := Step(db.cfg, old(p.flow.State()), p.data);
              db.log == old(db.log) + Tagged(p.flowKey, e.events) && States() == old(States())[p.flowKey := e.state]
      ensures failed <==> CountsError(old(p.flow.State()), p.data)
    {
      hide Step, Modelled, Db.Valid, Db.Booked, Tagged, Parse;
      failed := HandleTcp(db, p.flowKey, p.flow, p.data);
    }

    /** The flow of a packet makes its step. */
    method Process(p: Packet)
      requires FlowsValid() && Home(p) && Modelled(p.flow.State(), p.data)
      modifies `parseErrors, `handled, `inputs, p.flow, db`nextId, db`rows, db`countPerType, db`used, db`journal,
               db`links, db`log
      ensures FlowsValid() && handled == old(handled) + [DeliveryOf(p)]
      ensures inputs == old(inputs)[p.flowKey := InputsOf(old(inputs), p.flowKey) + [Chunk(p.data)]]
      ensures db.log == old(db.log) + Tagged(p.flowKey, Step(db.cfg, old(p.flow.State()), p.data).events)
      ensures parseErrors == old(parseErrors) + if CountsError(old(p.flow.State()), p.data) then 1 else 0
    {
      hide AllBrought, Step, Modelled, Db.Valid, Db.Booked, Tagged, FlowMap, CountsError;
      InputBrings(db.cfg, inputs, States(), p.flowKey, Chunk(p.data));
      var failed := Handle(p);
      if failed {
        parseErrors := parseErrors + 1;
      }
      handled := handled + [DeliveryOf(p)];
      inputs := inputs[p.flowKey := InputsOf(inputs, p.flowKey) + [Chunk(p.data)]];
    }

    /** The processing thread is done with its packet. */
    method Finish()
      requires Valid() && Do(db.cfg, Seen(), FinishPacket).Some?
      modifies `current, `parseErrors, `handled, `inputs, connMgr.Values, db`nextId, db`rows, db`countPerType, db`used,
               db`journal, db`links, db`log
      ensures Valid() && Some(Seen()) == Do(db.cfg, old(Seen()), FinishPacket)
    {
      hide FlowsValid, Step, Modelled, Tagged, Do, CountsError, StateAt, InputsOf;
      FinishStep(db.cfg, Seen());
      if current.None? {
        return;
      }
      FlowIsBrought(current.value.flowKey);
      var p := current.value;
      current := None;
      Process(p);
    }

    lemma FlowIsBrought(k: nat)
      requires FlowsValid()
      ensures StateIn(States(), k) == StateAt(db.cfg, Seen(), k)
      ensures k in connMgr ==> connMgr[k].State() == StateAt(db.cfg, Seen(), k)
    {
      hide Steps;
    }

    /** The row for a connection that starts or ends. */
    method NoteConnection(key: nat, note: Note)
      requires db.Valid() && db.Booked()
      modifies db`nextId, db`rows, db`countPerType, db`used, db`journal, db`log
      ensures db.Valid() && db.Booked()
      ensures db.log == old(db.log) + Tagged(key, [PutConnection(note)])
    {
      hide Db.Valid, Post, PostAll, BookAfter, WipedRows, Tagged;
      ghost var e := Event.PutConnection(note);
      TwoPosts(db.cfg, db.Entered(), key, e, e, db.log);
      BookGrows(db.cfg, db.first, db.log, db.wiped, Tagged(key, [e]));
      db.PutConnection(key, note);
    }

    /** A flow is put into the map, or reset if it is there. */
    method Restart(key: nat)
      requires FlowMap()
      modifies `connMgr, connMgr.Values
      ensures FlowMap() && States() == old(States())[key := Fresh(INVALID)]
      ensures fresh(connMgr.Values - old(connMgr.Values))
      ensures old(connMgr.Keys) <= connMgr.Keys && forall k :: k in old(connMgr) ==> connMgr[k] == old(connMgr[k])
    {
      hide Posted;
      if key !in connMgr {
        Insert(key);
      } else {
        connMgr[key].Reset(INVALID);
        FreshIsPosted(db.links, key, connMgr[key]);
      }
    }

    /** tcpReassemblyConnectionStartCallback: noted, and the flow starts afresh. */
    method OnConnectionStart(key: nat)
      requires Valid()
      modifies `connMgr, `inputs, connMgr.Values, db`nextId, db`rows, db`countPerType, db`used, db`journal, db`log
      ensures Valid() && Some(Seen()) == Do(db.cfg, old(Seen()), ConnectionStart(key))
      ensures fresh(connMgr.Values - old(connMgr.Values))
    {
      hide AllBrought, Db.Valid, Db.Booked, Tagged, FlowMap, Steps, States;
      InputBrings(db.cfg, inputs, States(), key, Start);
      NoteConnection(key, Opened);
      Restart(key);
      inputs := inputs[key := InputsOf(inputs, key) + [Start]];
    }

    /** tcpReassemblyConnectionEndCallback: noted, and nothing else. */
    method OnConnectionEnd(key: nat)
      requires Valid()
      modifies `inputs, db`nextId, db`rows, db`countPerType, db`used, db`journal, db`log
      ensures Valid() && Some(Seen()) == Do(db.cfg, old(Seen()), ConnectionEnd(key))
    {
      hide AllBrought, Db.Valid, Db.Booked, Tagged, FlowMap, Steps, States;
      ghost var states := States();
      InputBrings(db.cfg, inputs, states, key, Input.Finish);
      NoteConnection(key, Closed);
      inputs := inputs[key := InputsOf(inputs, key) + [Input.Finish]];
      SameBrought(db.cfg, inputs, states[key := StateIn(states, key)], states);
    }

    /** The data is wiped, while the flows go on. */
    method Wipe()
      requires Valid()
      modifies db`rows, db`countPerType, db`journal, db`gone, db`wiped, db`runs, db`sequence
      ensures Valid() && Some(Seen()) == Do(db.cfg, old(Seen()), WipeData) && db.sequence == old(db.sequence) + 1
      ensures db.rows == map[]
    {
      hide AllBrought, Db.Valid, Db.Booked, FlowMap;
      db.DestroyCaptureData();
    }
  }

  /** One step of a schedule, unless it is a reply to a bulk_pull_account. */
  method Act(h: Handler, a: Action) returns (done: bool)
    requires h.Valid()
    modifies h, h.connMgr.Values, h.db
    ensures h.Valid() && fresh(h.connMgr.Values - old(h.connMgr.Values))
    ensures done <==> Do(h.db.cfg, old(h.Seen()), a).Some?
    ensures done ==> Some(h.Seen()) == Do(h.db.cfg, old(h.Seen()), a)
    ensures !done ==> h.Seen() == old(h.Seen())
    ensures h.db.sequence == old(h.db.sequence) + if done && a.WipeData? then 1 else 0
    ensures old(h.db.used) <= h.db.used
  {
    hide Handler.FlowsValid, Handler.Seen, Do, Ever, IdsOf;
    UsedIsEver(h);
    ghost var w := h.Seen();
    done := true;
    match a {
      case DataReady(key, data) => h.OnDataReady(key, data);
      case ConnectionStart(key) => h.OnConnectionStart(key);
      case ConnectionEnd(key) => h.OnConnectionEnd(key);
      case TakePacket => h.Take();
      case FinishPacket =>
        FinishEnabled(h);
        done := h.current.None? || Modelled(h.current.value.flow.State(), h.current.value.data);
        if done {
          h.Finish();
        }
      case StopThread => h.Stop();
      case WipeData => h.Wipe();
    }
    if done {
      StepLogs(h.db.cfg, w, a);
    }
    UsedIsEver(h);
    UsedGrows(h.db.usedBefore, h.db.cfg, h.db.first, w.log, h.Seen().log);
  }

  lemma StepLogs(cfg: Config, w: World, a: Action)
    requires Do(cfg, w, a).Some?
    ensures w.log <= Do(cfg, w, a).value.log
  {
    hide Do;
    StepFeeds(cfg, w, a);
  }

  lemma FinishEnabled(h: Handler)
    requires h.Valid()
    ensures Do(h.db.cfg, h.Seen(), FinishPacket).Some? <==>
            h.current.None? || Modelled(h.current.value.flow.State(), h.current.value.data)
  {
    hide Modelled, CountsError, StateAt, Handler.FlowsValid, Feed;
    if h.current.Some? {
      h.FlowIsBrought(h.current.value.flowKey);
    }
  }

  /**
   Any schedule of the threads is replayed, up to the first reply to a bulk_pull_account; no id is
   forgotten, and every wipe moves the counter of the table of runs on.
   */
  method Run(h: Handler, actions: seq<Action>) returns (n: nat)
    requires h.Valid()
    modifies h, h.connMgr.Values, h.db
    ensures n <= |actions| && h.Valid()
    ensures Replay(h.db.cfg, old(h.Seen()), actions[..n]) == Some(h.Seen())
    ensures n < |actions| ==> Replay(h.db.cfg, old(h.Seen()), actions[..n + 1]).None?
    ensures h.db.sequence == old(h.db.sequence) + WipesIn(actions[..n])
    ensures old(h.db.used) <= h.db.used
  {
    hide Handler.Valid, Handler.Seen, Do, Replay, WipesIn;
    NoSteps(h.db.cfg, h.Seen());
    ghost var w := h.Seen();
    n := 0;
    while n < |actions|
      invariant n <= |actions| && h.Valid() && fresh(h.connMgr.Values - old(h.connMgr.Values))
      invariant Replay(h.db.cfg, w, actions[..n]) == Some(h.Seen())
      invariant h.db.sequence == old(h.db.sequence) + WipesIn(actions[..n]) && old(h.db.used) <= h.db.used
    {
      StepMore(h.db.cfg, w, actions, n);
      var done := Act(h, actions[n]);
      if !done {
        break;
      }
      n := n + 1;
    }
  }

  lemma NoSteps(cfg: Config, w: World)
    ensures Replay(cfg, w, []) == Some(w) && WipesIn([]) == 0
  {}

  lemma StepMore(cfg: Config, w: World, actions: seq<Action>, n: nat)
    requires n < |actions|
    ensures WipesIn(actions[..n + 1]) == WipesIn(actions[..n]) + if actions[n].WipeData? then 1 else 0
    ensures Replay(cfg, w, actions[..n]).Some? ==>
              Replay(cfg, w, actions[..n + 1]) == Do(cfg, Replay(cfg, w, actions[..n]).value, actions[n])
  {
    hide Do;
    assert actions[..n + 1][..n] == actions[..n];
  }

  /** The ids used are those used before the file was opened and those of everything inserted since. */
  lemma UsedIsEver(h: Handler)
    requires h.Valid()
    ensures h.db.used == h.db.usedBefore + IdsOf(Ever(h.db.cfg, h.db.first, h.Seen().log).rows)
    ensures h.db.nextId == Ever(h.db.cfg, h.db.first, h.Seen().log).next
  {
    hide Db.Valid, Db.Booked, IdsOf, Ever;
    h.db.UsedIs();
  }

  lemma UsedGrows(used: set<nat>, cfg: Config, first: nat, log: seq<(nat, Event)>, log': seq<(nat, Event)>)
    requires log <= log'
    ensures used + IdsOf(Ever(cfg, first, log).rows) <= used + IdsOf(Ever(cfg, first, log').rows)
  {
    hide Ever, IdsOf;
    EverGrows(cfg, first, log, log');
    var js, js' := Ever(cfg, first, log).rows, Ever(cfg, first, log').rows;
    assert js' == js + js'[|js|..];
    IdsOfJoin(js, js'[|js|..]);
  }

  /** A process that has just opened the file, and does all that it is scheduled to do. */
  method RunAll(db: Db, actions: seq<Action>)
    requires db.Valid() && db.Booked() && db.log == [] && db.wiped.None? && Replay(db.cfg, INIT, actions).Some?
    modifies db
    ensures db.Valid() && db.sequence == old(db.sequence) + WipesIn(actions)
    ensures var w := Replay(db.cfg, INIT, actions).value;
            && MarkOf(w) <= |w.log| && AllStorable(BookAfter(db.cfg, db.first, w.log, w.wiped).rows)
            && db.rows == Tables(db.cfg, db.first, db.initial, w)
            && db.used == db.usedBefore + IdsOf(Ever(db.cfg, db.first, w.log).rows)
            && db.nextId == Ever(db.cfg, db.first, w.log).next
  {
    hide Db.Valid, Db.Booked, Handler.Valid, Tables, AllStorable, Replay, Ever, BookAfter, IdsOf, MarkOf;
    var h := new Handler(db);
    var n := Run(h, actions);
    if n < |actions| {
      assert actions == actions[..n + 1] + actions[n + 1..];
      ReplayJoins(db.cfg, INIT, actions[..n + 1], actions[n + 1..]);
      assert false;
    }
    assert actions[..n] == actions;
    h.TablesAreKept();
    UsedIsEver(h);
    DbIsValid(h);
  }

  lemma DbIsValid(h: Handler)
    requires h.Valid()
    ensures h.db.Valid()
  {
    hide Db.Valid;
  }

  /**
   A capture from the opening of a file: the tables hold what the replay of the schedule says,
   each flow has handed over what its own inputs call for, the ids used are those of the rows
   inserted, and if all flows were settled when data was last wiped, every row names rows that are
   there.
   */
  method Capture(cfg: Config, initial: Rows, runs: set<nat>, sequence: nat, ghost used: set<nat>, actions: seq<Action>)
      returns (db: Db, n: nat)
    requires Sound(initial) && forall k :: k in initial ==> k.1 in used
    requires forall r :: r in runs ==> r <= sequence
    requires forall i :: i in used ==> i < BUDGET * (sequence + 1)
    ensures n <= |actions| && (n < |actions| ==> Replay(cfg, INIT, actions[..n + 1]).None?)
    ensures Replay(cfg, INIT, actions[..n]).Some?
    ensures var w, first := Replay(cfg, INIT, actions[..n]).value, BUDGET * (sequence + 1);
            && MarkOf(w) <= |w.log| && AllStorable(BookAfter(cfg, first, w.log, w.wiped).rows)
            && db.rows == Tables(cfg, first, initial, w)
            && db.used == used + IdsOf(Ever(cfg, first, w.log).rows) && db.nextId == Ever(cfg, first, w.log).next
            && Delivered(w) == Queued(actions[..n])
            && forall k :: Apart(cfg, w, k)
    ensures fresh(db) && db.Valid() && db.sequence == sequence + 1 + WipesIn(actions[..n])
    ensures WipedSettled(cfg, INIT, actions[..n]) ==>
              AllNamed(if Replay(cfg, INIT, actions[..n]).value.wiped.Some? then map[] else initial, db.rows)
  {
    hide Db.Valid, Db.Booked, Handler.Valid, Apart, Tables, Delivered, AllNamed, Sound, WipedSettled, AllStorable;
    hide Replay, Ever, IdsOf, BookAfter, MarkOf, Linked, WipesIn;
    db := new Db(cfg, initial, runs, sequence, used);
    var h := new Handler(db);
    n := Run(h, actions);
    h.TablesAreKept();
    UsedIsEver(h);
    DbIsValid(h);
    InOrder(cfg, actions[..n]);
    forall k
      ensures Apart(cfg, h.Seen(), k)
    {
      FlowsStayApart(cfg, actions[..n], k);
    }
    if WipedSettled(cfg, INIT, actions[..n]) {
      ReferencesHold(cfg, BUDGET * (sequence + 1), initial, actions[..n]);
    }
  }

  /** The file as some sessions leave it. */
  ghost predicate SessionOver(db: Db, ss: seq<Session>)
    requires AllRun(ss)
    reads db
  {
    && db.Valid() && db.sequence == SequenceAfter(ss)
    && db.rows == FileAfter(ss) && db.used == IdsOf(AllInserted(ss))
    && (|ss| > 0 && WithinBudget(ss[|ss| - 1]) ==> db.nextId <= FirstId(ss))
  }

  lemma OverIs(db: Db, ss: seq<Session>)
    requires AllRun(ss) && SessionOver(db, ss)
    ensures db.Valid() && db.sequence == SequenceAfter(ss) && db.rows == FileAfter(ss) &&
            db.used == IdsOf(AllInserted(ss))
  {}

  /** A new file. */
  method FirstSession(ss: seq<Session>) returns (db: Db)
    requires |ss| > 0 && AllRun(ss)
    ensures fresh(db) && SessionOver(db, ss[..1])
  {
    hide Db.Valid, Db.Booked, Tables, AllStorable, Replay, Ever, IdsOf, BookAfter, MarkOf, WipesIn, Runs, WithinBudget;
    db := new Db(ss[0].cfg, map[], {}, 0, {});
    NoSessions(ss);
    RunsIs(ss[0]);
    RunAll(db, ss[0].actions);
    SessionEnds(ss[..1], db.usedBefore);
  }

  /** A file that is opened again. */
  method NextSession(db: Db, before: seq<Session>, s: Session) returns (db': Db)
    requires |before| > 0 && AllRun(before) && Runs(s) && SessionOver(db, before) && WithinBudget(before[|before| - 1])
    ensures fresh(db') && SessionOver(db', before + [s])
  {
    hide Db.Valid, Db.Booked, Tables, AllStorable, Replay, Ever, IdsOf, BookAfter, MarkOf, WipesIn, Runs, WithinBudget;
    hide FileAfter, AllInserted, SequenceAfter;
    db' := Reopen(db, s.cfg);
    RunsIs(s);
    RunAll(db', s.actions);
    assert (before + [s])[..|before|] == before;
    SessionEnds(before + [s], db'.usedBefore);
  }

  /** The whole life of a file: it ends up with the rows and the ids that the sessions on values say. */
  method Lifetime(ss: seq<Session>) returns (db: Db)
    requires |ss| > 0 && AllRun(ss) && AllWithin(ss[..|ss| - 1])
    ensures fresh(db) && db.Valid() && db.sequence == SequenceAfter(ss)
    ensures db.rows == FileAfter(ss) && db.used == IdsOf(AllInserted(ss))
  {
    hide Db.Valid, Runs, WithinBudget, SessionOver, FileAfter, AllInserted, SequenceAfter, IdsOf;
    db := FirstSession(ss);
    var n := 1;
    while n < |ss|
      invariant 0 < n <= |ss| && fresh(db) && SessionOver(db, ss[..n])
    {
      db := NextSession(db, ss[..n], ss[n]);
      assert ss[..n + 1] == ss[..n] + [ss[n]];
      n := n + 1;
    }
    assert ss[..n] == ss;
    OverIs(db, ss);
  }
}
