/**
 Wiping the data in the middle of a capture.  The tables lose their rows while the flows go on, so
 an entry that comes later may name the row of a request that is gone.  Proved is exactly when no
 schedule leads to such a row: when every stream that is being recorded is bound to end, within
 the chunks that are already queued, before an entry that would get rows.
 */
module Wipes {
  import opened Bytes
  import opened Flow
  import opened Integrity
  import opened Ledger
  import opened Messages
  import opened NanoBlocks
  import opened Schedule
  import opened Streams

  /** No row in the tables, which were emptied, names a row that is not there. */
  ghost predicate NamedAfterWipe(cfg: Config, first: nat, w: World) {
    && MarkOf(w) <= |w.log| && AllStorable(BookAfter(cfg, first, w.log, w.wiped).rows)
    && AllNamed(map[], Stored(map[], BookAfter(cfg, first, w.log, w.wiped).rows))
  }

  /** After a wipe while all flows are settled nothing that is put later names a row that is gone. */
  lemma WipeKeeps(cfg: Config, first: nat, w: World, after: seq<Action>)
    requires GoodMessages(w.log) && AllSettled(cfg, w) && NeverWipes(after) && Replay(cfg, Wiped(w), after).Some?
    ensures NamedAfterWipe(cfg, first, Replay(cfg, Wiped(w), after).value)
  {
    hide Replay, Sequenced, AllNamed, Stored, WipedSettled, AllSettled;
    WipeSequenced(cfg, w);
    NoWipes(cfg, Wiped(w), after);
    ReplaySequenced(cfg, Wiped(w), after);
    SequencedIsNamed(cfg, first, map[], Replay(cfg, Wiped(w), after).value);
    SequencedMark(cfg, Replay(cfg, Wiped(w), after).value);
  }

  // ---- Requests from before the wipe ----

  /** Every flow in a stream that is recorded has put its request, before a wipe or after it. */
  ghost predicate Placed(cfg: Config, w: World) {
    Orderly(cfg, w.log) && forall k :: OnStream(cfg, LastTypes(w.log), k, StateAt(cfg, w, k))
  }

  lemma StepPlaced(cfg: Config, w: World, a: Action)
    requires Placed(cfg, w) && Do(cfg, w, a).Some?
    ensures Placed(cfg, Do(cfg, w, a).value)
  {
    hide Do, Orderly, LastTypes, OnStream, StepInput, StateAt;
    StepFeeds(cfg, w, a);
    var w', g := Do(cfg, w, a).value, Given(w, a);
    if g.Some? {
      InputInPlace(cfg, w.log, g.value.0, StateAt(cfg, w, g.value.0), g.value.1);
    }
    forall k
      ensures OnStream(cfg, LastTypes(w'.log), k, StateAt(cfg, w', k))
    {
      if g.Some? {
        FeedApart(cfg, w, g.value.0, g.value.1, k);
        SameInputs(cfg, Feed(cfg, w, g.value.0, g.value.1), w', k);
        if k != g.value.0 {
          SameStream(cfg, LastTypes(w.log), LastTypes(w'.log), k, StateAt(cfg, w, k));
        }
      } else {
        SameInputs(cfg, w, w', k);
      }
    }
  }

  lemma {:induction false} ReplayPlaced(cfg: Config, actions: seq<Action>)
    requires Replay(cfg, INIT, actions).Some?
    ensures Placed(cfg, Replay(cfg, INIT, actions).value)
  {
    hide Do, Placed;
    if |actions| > 0 {
      ReplayPlaced(cfg, actions[..|actions| - 1]);
      StepPlaced(cfg, Replay(cfg, INIT, actions[..|actions| - 1]).value, actions[|actions| - 1]);
    } else {
      InitPlaced(cfg);
    }
  }

  lemma InitPlaced(cfg: Config)
    ensures Placed(cfg, INIT)
  {
    hide Steps;
    forall k
      ensures OnStream(cfg, LastTypes(INIT.log), k, StateAt(cfg, INIT, k))
    {
      NoInputs(cfg);
    }
  }

  /** The row that the entries of a stream of flow k name has an id from before b.next. */
  predicate LinkedBelow(kind: Kind, b: Book, k: nat) {
    k in b.links && b.links[k] + (if kind == Kind.BulkPush then 0 else 1) < b.next
  }

  lemma {:induction false} LinksAreBelow(cfg: Config, first: nat, log: seq<(nat, Event)>, k: nat, kind: Kind)
    requires GoodMessages(log) && k in LastTypes(log) && LastTypes(log)[k] == RequestType(kind)
    ensures LinkedBelow(kind, Ever(cfg, first, log), k)
  {
    hide EventRows, Matches;
    var front, e := log[..|log| - 1], log[|log| - 1];
    if e.0 == k && e.1.PutMessage? {
      RequestIds(e.1.message, kind);
    } else {
      LinksAreBelow(cfg, first, front, k, kind);
    }
  }

  lemma RequestIds(m: Message, kind: Kind)
    requires Matches(m) && m.header.messageType == RequestType(kind)
    ensures MessageIds(m) == if kind == Kind.BulkPush then 1 else 2
  {}

  // ---- An entry for a request that is gone ----

  /** At position i flow k puts an entry that gets rows, and no message before it. */
  predicate ExposedAt(cfg: Config, k: nat, kind: Kind, more: seq<(nat, Event)>, i: nat) {
    && i < |more| && more[i].0 == k && more[i].1.PutItem? && more[i].1.kind == kind
    && Tabled(cfg, more[i].1.item) && (kind == Frontier <==> more[i].1.item.FrontierItem?)
    && forall j :: 0 <= j < i && more[j].0 == k ==> !more[j].1.PutMessage?
  }

  lemma {:induction false} LinkStays(cfg: Config, b: Book, log: seq<(nat, Event)>, k: nat)
    requires k in b.links && forall j :: 0 <= j < |log| && log[j].0 == k ==> !log[j].1.PutMessage?
    ensures var c := PostAll(cfg, b, log); k in c.links && c.links[k] == b.links[k]
  {
    hide EventRows, EventIds;
    if |log| > 0 {
      LinkStays(cfg, b, log[..|log| - 1], k);
    }
  }

  /** The rows of an event are among those of the log it is in. */
  lemma RowsOfEvent(cfg: Config, b: Book, log: seq<(nat, Event)>, i: nat) returns (at: nat)
    requires i < |log|
    ensures var c, e, js := PostAll(cfg, b, log[..i]), log[i], PostAll(cfg, b, log).rows;
            var more := EventRows(cfg, e.0, e.1, c.next, LinkOf(c.links, e.0));
            at + |more| <= |js| && js[at..at + |more|] == more
  {
    hide EventRows;
    var c, e := PostAll(cfg, b, log[..i]), log[i];
    var d := Post(cfg, c, e);
    at := |c.rows|;
    assert log == log[..i] + ([e] + log[i + 1..]);
    PostJoins(cfg, b, log[..i], [e] + log[i + 1..]);
    PostJoins(cfg, c, [e], log[i + 1..]);
    PostOne(cfg, c, e);
    PostOnTop(cfg, d, log[i + 1..]);
  }

  /** The row of the request that an entry's row names, or that of the push. */
  function TargetOf(r: Row): Key
    requires r.FrontierResponseRow? || r.BulkPullResponseRow? || r.BulkPushEntryRow?
  {
    if r.FrontierResponseRow? then (FrontierRequests, r.requestId)
    else if r.BulkPullResponseRow? then (BulkPullRequests, r.requestId)
    else (Packets, r.packetId)
  }

  /** A row that names one with an id from before all the rows there are. */
  lemma Dangling(cfg: Config, b: Book, log: seq<(nat, Event)>, i: nat)
    requires b.rows == [] && AllStorable(PostAll(cfg, b, log).rows) && i < |PostAll(cfg, b, log).rows|
    requires var r := PostAll(cfg, b, log).rows[i].row;
             (r.FrontierResponseRow? || r.BulkPullResponseRow? || r.BulkPushEntryRow?) && TargetOf(r).1 < b.next
    ensures !AllNamed(map[], Stored(map[], PostAll(cfg, b, log).rows))
  {
    hide Stored, PostAll, Storable, TableOf;
    var js := PostAll(cfg, b, log).rows;
    IdsAreDistinct(cfg, b.next, b.links, log);
    NothingIsReplaced(map[], js, i);
    var rows, key := Stored(map[], js), KeyOf(js[i]);
    if NamesRows(rows[key], rows) {
      StoredRows(map[], js, TargetOf(js[i].row));
      assert false;
    }
  }

  /** An entry put after a wipe, for a request from before it. */
  lemma ExposedDangles(cfg: Config, b: Book, k: nat, kind: Kind, more: seq<(nat, Event)>, i: nat)
    requires b.rows == [] && GoodMessages(more) && ExposedAt(cfg, k, kind, more, i) && LinkedBelow(kind, b, k)
    ensures AllStorable(PostAll(cfg, b, more).rows) && !AllNamed(map[], Stored(map[], PostAll(cfg, b, more).rows))
  {
    hide PostAll, Stored, AllNamed, GoodMessages;
    AllIsStorable(cfg, b, more);
    LinkStays(cfg, b, more[..i], k);
    var at := RowsOfEvent(cfg, b, more, i);
    var c, js := PostAll(cfg, b, more[..i]), PostAll(cfg, b, more).rows;
    var entry := EntryRows(cfg, k, kind, more[i].1.item, c.next, LinkOf(c.links, k));
    var y := if kind == Frontier then 0 else 1;
    assert js[at..at + |entry|][y] == js[at + y];
    Dangling(cfg, b, more, at + y);
  }

  // ---- How such an entry comes about ----

  /** A chunk that fills the ring, and begins with an entry whatever came before it. */
  function Filling(kind: Kind): (s: seq<byte>)
    ensures |s| == CAPACITY
  {
    if kind == Frontier then seq(CAPACITY, _ => 1) else [SEND] + Zeros(CAPACITY - 1)
  }

  lemma FillingFills(kind: Kind, acc: seq<byte>)
    ensures Kept(acc + Filling(kind)) == Filling(kind) && !HasMissingData(Filling(kind))
  {}

  lemma FillingTaken(kind: Kind)
    ensures var t := Next(kind, Filling(kind));
            && t.Take? && (kind == Frontier <==> t.item.FrontierItem?) &&
               (t.item.BlockItem? ==> !t.item.entry.block.Ignored?)
            && |Drain(kind, Filling(kind)).items| > 0 && Drain(kind, Filling(kind)).items[0] == t.item
  {
    var s := Filling(kind);
    if kind == Frontier {
      assert FrontierFields(s[..64]).account[0] == 1;
    } else {
      EntryHasItsType(s);
    }
    hide Next, ParseEntry;
    OneTurn(kind, s);
  }

  /** A chunk that fills the ring makes a recording stream hand over an entry with a row. */
  lemma FillingRecorded(cfg: Config, kind: Kind, f: FlowState)
    requires Recording(cfg, f) && KindOf(f.msgType) == Some(kind)
    ensures !Rowless(cfg, Step(cfg, f, Filling(kind)).events)
  {
    FillingFills(kind, f.accumulated);
    FillingTaken(kind);
    hide Filling, Drain, Next, Kept;
    var es := StreamStep(cfg, kind, f, Filling(kind)).events;
    assert es[0] == PutItem(kind, Next(kind, Filling(kind)).item);
  }

  /** While a stream lasts it is of one kind. */
  lemma SameKind(cfg: Config, f: FlowState, chunk: seq<byte>)
    requires Recording(cfg, f) && Recording(cfg, Step(cfg, f, chunk).state)
    ensures KindOf(Step(cfg, f, chunk).state.msgType) == KindOf(f.msgType)
  {
    hide Drain, Kept, RecordItems, Parse;
    if |chunk| == 0 {
      NothingParsed(chunk);
    }
  }

  /** A step of a recording stream that hands over an entry with rows. */
  lemma StepExposes(cfg: Config, k: nat, kind: Kind, f: FlowState, chunk: seq<byte>) returns (i: nat)
    requires Recording(cfg, f) && KindOf(f.msgType) == Some(kind) && !Rowless(cfg, Step(cfg, f, chunk).events)
    ensures ExposedAt(cfg, k, kind, Tagged(k, Step(cfg, f, chunk).events), i)
  {
    hide Drain, Kept, RecordItems, Parse, StreamStep;
    var es := Step(cfg, f, chunk).events;
    if |chunk| == 0 {
      NothingParsed(chunk);
    } else {
      StreamHasNoMessage(cfg, kind, f, chunk);
      StreamOfKind(cfg, kind, f, chunk);
    }
    i :| 0 <= i < |es| && es[i].PutItem? && Tabled(cfg, es[i].item);
  }

  lemma ExposedLater(cfg: Config, k: nat, kind: Kind, front: seq<(nat, Event)>, more: seq<(nat, Event)>, i: nat)
    requires ExposedAt(cfg, k, kind, more, i) && forall j :: 0 <= j < |front| && front[j].0 == k ==>
               !front[j].1.PutMessage?
    ensures ExposedAt(cfg, k, kind, front + more, |front| + i)
  {
    hide Tabled;
  }

  lemma Prepend(cfg: Config, w: World, a: Action, after: seq<Action>)
    requires Do(cfg, w, a).Some?
    ensures Replay(cfg, w, [a] + after) == Replay(cfg, Do(cfg, w, a).value, after)
  {
    hide Do;
    assert [a][..0] == [];
    assert Replay(cfg, w, [a][..0]) == Some(w);
    ReplayJoins(cfg, w, [a], after);
  }

  /** From w on, after leads to an entry of flow k that gets rows, before any message of that flow. */
  ghost predicate Breaks(cfg: Config, w: World, k: nat, kind: Kind, after: seq<Action>, i: nat) {
    && NeverWipes(after) && Replay(cfg, w, after).Some?
    && var w' := Replay(cfg, w, after).value;
       w'.wiped == w.wiped && w.log <= w'.log && ExposedAt(cfg, k, kind, w'.log[|w.log|..], i)
  }

  /** One more step in front, which hands over no message of flow k. */
  lemma BreaksLater(cfg: Config, w: World, a: Action, k: nat, kind: Kind, after: seq<Action>, i: nat) returns (i': nat)
    requires !a.WipeData? && Do(cfg, w, a).Some? && Breaks(cfg, Do(cfg, w, a).value, k, kind, after, i)
    requires var g := Given(w, a);
             g.Some? && g.value.0 == k ==>
               forall j :: 0 <= j < |StepInput(cfg, StateAt(cfg, w, k), g.value.1).events| ==>
                 !StepInput(cfg, StateAt(cfg, w, k), g.value.1).events[j].PutMessage?
    ensures Breaks(cfg, w, k, kind, [a] + after, i')
  {
    hide Do, StepInput, StateAt, Tabled, Replay;
    StepFeeds(cfg, w, a);
    Prepend(cfg, w, a, after);
    var v, w' := Do(cfg, w, a).value, Replay(cfg, Do(cfg, w, a).value, after).value;
    var front, more := v.log[|w.log|..], w'.log[|v.log|..];
    assert w'.log[|w.log|..] == front + more;
    ExposedLater(cfg, k, kind, front, more, i);
    i' := |front| + i;
  }

  /** The chunk in flight is the one with the entry. */
  lemma BreaksNow(cfg: Config, w: World, k: nat, kind: Kind) returns (i: nat)
    requires w.current.Some? && w.current.value.0 == k
    requires Recording(cfg, StateAt(cfg, w, k)) && KindOf(StateAt(cfg, w, k).msgType) == Some(kind)
    requires !Rowless(cfg, Step(cfg, StateAt(cfg, w, k), w.current.value.1).events)
    ensures Breaks(cfg, w, k, kind, [FinishPacket], i)
  {
    hide StateAt, Step, Tabled, Rowless, CountsError;
    var f, chunk := StateAt(cfg, w, k), w.current.value.1;
    i := StepExposes(cfg, k, kind, f, chunk);
    Prepend(cfg, w, FinishPacket, []);
    var v := Do(cfg, w, FinishPacket).value;
    assert v.log == w.log + Tagged(k, Step(cfg, f, chunk).events);
    assert [FinishPacket] + [] == [FinishPacket];
  }

  /** With nothing left to handle, one more chunk is enough. */
  lemma BreaksNext(cfg: Config, w: World, k: nat, kind: Kind) returns (after: seq<Action>, i: nat)
    requires !w.stopped && w.current.None? && w.queue == []
    requires Recording(cfg, StateAt(cfg, w, k)) && KindOf(StateAt(cfg, w, k).msgType) == Some(kind)
    ensures Breaks(cfg, w, k, kind, after, i)
  {
    FillingFills(kind, []);
    hide Filling, StateAt, Step, HasMissingData, Breaks, Recording, Rowless;
    var a, p := DataReady(k, Filling(kind)), (k, Filling(kind));
    assert w.queue + [p] == [p] && [p][1..] == w.queue;
    var v := w.(queue := [p]);
    var u := w.(current := Some(p));
    assert Do(cfg, w, a) == Some(v) && Do(cfg, v, TakePacket) == Some(u);
    SameInputs(cfg, w, u, k);
    FillingRecorded(cfg, kind, StateAt(cfg, w, k));
    i := BreaksNow(cfg, u, k, kind);
    i := BreaksLater(cfg, v, TakePacket, k, kind, [FinishPacket], i);
    i := BreaksLater(cfg, w, a, k, kind, [TakePacket] + [FinishPacket], i);
    after := [a] + ([TakePacket] + [FinishPacket]);
  }

  /** A stream that is not settled can be brought to hand over an entry with rows. */
  lemma {:induction false} UnsettledBreaks(cfg: Config, w: World, k: nat, kind: Kind)
        returns (after: seq<Action>, i: nat)
    requires !Settled(cfg, w, k) && KindOf(StateAt(cfg, w, k).msgType) == Some(kind)
    ensures Breaks(cfg, w, k, kind, after, i)
    decreases |InFlight(w)| + |w.queue|, |w.queue|
  {
    hide Breaks, StateAt, Do, DataOf;
    UnsettledRecords(cfg, w, k);
    if w.current.Some? && w.current.value.0 == k {
      after, i := OwnChunkBreaks(cfg, w, k, kind);
    } else if w.current.Some? {
      after, i := OtherChunkBreaks(cfg, w, k, kind);
    } else if w.queue == [] {
      after, i := BreaksNext(cfg, w, k, kind);
    } else {
      var v := TakenNext(cfg, w, k);
      after, i := UnsettledBreaks(cfg, v, k, kind);
      i := BreaksLater(cfg, w, TakePacket, k, kind, after, i);
      after := [TakePacket] + after;
    }
  }

  /** An unsettled flow is in a stream that is recorded, and if the thread is stopped, a chunk of it is in flight. */
  lemma UnsettledRecords(cfg: Config, w: World, k: nat)
    requires !Settled(cfg, w, k)
    ensures Recording(cfg, StateAt(cfg, w, k)) && (w.stopped ==> w.current.Some? && w.current.value.0 == k)
  {
    hide Recording, StateAt, Step, Rowless;
    if w.stopped && w.current.Some? {
      DataOfOne(w.current.value, k);
    }
  }

  lemma TakenNext(cfg: Config, w: World, k: nat) returns (v: World)
    requires !Settled(cfg, w, k) && !w.stopped && w.current.None? && w.queue != []
    ensures Do(cfg, w, TakePacket) == Some(v) && v.inputs == w.inputs && StateAt(cfg, v, k) == StateAt(cfg, w, k)
    ensures !Settled(cfg, v, k) && v.queue == w.queue[1..] && |InFlight(v)| == 1
  {
    hide StateAt, EndsFirst, Coming;
    v := Do(cfg, w, TakePacket).value;
    SameInputs(cfg, w, v, k);
    StepComing(cfg, w, TakePacket, k);
  }

  lemma {:induction false} OwnChunkBreaks(cfg: Config, w: World, k: nat, kind: Kind)
        returns (after: seq<Action>, i: nat)
    requires !Settled(cfg, w, k) && w.current.Some? && w.current.value.0 == k
    requires Recording(cfg, StateAt(cfg, w, k)) && KindOf(StateAt(cfg, w, k).msgType) == Some(kind)
    ensures Breaks(cfg, w, k, kind, after, i)
    decreases |InFlight(w)| + |w.queue|, |w.queue|, 0
  {
    hide Breaks, StateAt, Step, Rowless, DataOf, CountsError, Recording, EndsFirst, Coming;
    var f, chunk := StateAt(cfg, w, k), w.current.value.1;
    if !Rowless(cfg, Step(cfg, f, chunk).events) {
      after := [FinishPacket];
      i := BreaksNow(cfg, w, k, kind);
    } else {
      var v := Finished(cfg, w, k);
      after, i := UnsettledBreaks(cfg, v, k, kind);
      RecordingPutsNone(cfg, f, chunk);
      i := BreaksLater(cfg, w, FinishPacket, k, kind, after, i);
      after := [FinishPacket] + after;
    }
  }

  /** A chunk of a recording stream is no message. */
  lemma RecordingPutsNone(cfg: Config, f: FlowState, chunk: seq<byte>)
    requires Recording(cfg, f)
    ensures var es := Step(cfg, f, chunk).events; forall j :: 0 <= j < |es| ==> !es[j].PutMessage?
  {
    hide Parse, StreamStep;
    if |chunk| == 0 {
      NothingParsed(chunk);
    } else {
      StreamHasNoMessage(cfg, KindOf(f.msgType).value, f, chunk);
    }
  }

  /** The chunk in flight of an unsettled flow brings no entry with rows, so the flow is as unsettled after it. */
  lemma Finished(cfg: Config, w: World, k: nat) returns (v: World)
    requires !Settled(cfg, w, k) && w.current.Some? && w.current.value.0 == k && Recording(cfg, StateAt(cfg, w, k))
    requires Rowless(cfg, Step(cfg, StateAt(cfg, w, k), w.current.value.1).events)
    ensures Do(cfg, w, FinishPacket) == Some(v) && v.queue == w.queue && v.current.None?
    ensures !Settled(cfg, v, k) && KindOf(StateAt(cfg, v, k).msgType) == KindOf(StateAt(cfg, w, k).msgType)
  {
    hide StateAt, Step, Rowless, Coming, CountsError, Do;
    var f, chunk := StateAt(cfg, w, k), w.current.value.1;
    FinishEnabled(cfg, w, k);
    v := Do(cfg, w, FinishPacket).value;
    StepFeeds(cfg, w, FinishPacket);
    StepQueues(cfg, w, FinishPacket);
    StepComing(cfg, w, FinishPacket, k);
    FeedApart(cfg, w, k, Chunk(chunk), k);
    SameInputs(cfg, Feed(cfg, w, k, Chunk(chunk)), v, k);
    assert ([chunk] + Coming(v, k))[1..] == Coming(v, k);
    UnsettledRecords(cfg, v, k);
    SameKind(cfg, f, chunk);
  }

  lemma FinishEnabled(cfg: Config, w: World, k: nat)
    requires w.current.Some? && w.current.value.0 == k
    requires KindOf(StateAt(cfg, w, k).msgType).Some? || StateAt(cfg, w, k).msgType == INVALID
    ensures Do(cfg, w, FinishPacket).Some?
  {
    hide StateAt, StepInput, CountsError;
  }

  /** A chunk of another flow is out of the way once that flow has started afresh. */
  lemma {:induction false} OtherChunkBreaks(cfg: Config, w: World, k: nat, kind: Kind)
        returns (after: seq<Action>, i: nat)
    requires !Settled(cfg, w, k) && w.current.Some? && w.current.value.0 != k
    requires KindOf(StateAt(cfg, w, k).msgType) == Some(kind)
    ensures Breaks(cfg, w, k, kind, after, i)
    decreases |InFlight(w)| + |w.queue|, |w.queue|, 0
  {
    hide Breaks, StateAt, DataOf, Settled, Do, Feed;
    var j := w.current.value.0;
    var u := Restarted(cfg, w, k);
    var v := Skipped(cfg, u, k);
    after, i := UnsettledBreaks(cfg, v, k, kind);
    i := BreaksLater(cfg, u, FinishPacket, k, kind, after, i);
    i := BreaksLater(cfg, w, ConnectionStart(j), k, kind, [FinishPacket] + after, i);
    after := [ConnectionStart(j)] + ([FinishPacket] + after);
  }

  lemma Restarted(cfg: Config, w: World, k: nat) returns (u: World)
    requires !Settled(cfg, w, k) && w.current.Some? && w.current.value.0 != k
    ensures Do(cfg, w, ConnectionStart(w.current.value.0)) == Some(u)
    ensures !Settled(cfg, u, k) && u.queue == w.queue && u.current == w.current &&
            StateAt(cfg, u, k) == StateAt(cfg, w, k)
    ensures StateAt(cfg, u, w.current.value.0) == Fresh(INVALID)
  {
    hide StateAt, EndsFirst, Coming;
    var j := w.current.value.0;
    u := Feed(cfg, w, j, Start);
    FeedApart(cfg, w, j, Start, k);
    FeedApart(cfg, w, j, Start, j);
    SameComing(w, u, k);
  }

  lemma Skipped(cfg: Config, w: World, k: nat) returns (v: World)
    requires !Settled(cfg, w, k) && w.current.Some? && w.current.value.0 != k
    requires StateAt(cfg, w, w.current.value.0) == Fresh(INVALID)
    ensures Do(cfg, w, FinishPacket) == Some(v)
    ensures !Settled(cfg, v, k) && v.queue == w.queue && v.current.None? && StateAt(cfg, v, k) == StateAt(cfg, w, k)
  {
    hide StateAt, EndsFirst, Coming, Do;
    var p := w.current.value;
    FinishEnabled(cfg, w, p.0);
    v := Do(cfg, w, FinishPacket).value;
    StepFeeds(cfg, w, FinishPacket);
    StepQueues(cfg, w, FinishPacket);
    StepComing(cfg, w, FinishPacket, k);
    FeedApart(cfg, w, p.0, Chunk(p.1), k);
    SameInputs(cfg, Feed(cfg, w, p.0, Chunk(p.1)), v, k);
    assert [] + Coming(v, k) == Coming(v, k);
  }

  // ---- Exactly when ----

  /** A wipe while some flow is not settled can leave a row that names a row which is gone. */
  lemma WipeBreaks(cfg: Config, first: nat, actions: seq<Action>, k: nat) returns (after: seq<Action>)
    requires Replay(cfg, INIT, actions).Some? && !Settled(cfg, Replay(cfg, INIT, actions).value, k)
    ensures var w := Replay(cfg, INIT, actions).value;
            && NeverWipes(after) && Replay(cfg, Wiped(w), after).Some?
            && !NamedAfterWipe(cfg, first, Replay(cfg, Wiped(w), after).value)
  {
    hide Replay, StateAt, PostAll, AllNamed, Stored, BookAfter, GoodMessages, Orderly, LastTypes, EndsFirst, Coming;
    var w := Replay(cfg, INIT, actions).value;
    NoMessages();
    ReplayIsGood(cfg, INIT, actions);
    ReplayPlaced(cfg, actions);
    UnsettledRecords(cfg, w, k);
    assert OnStream(cfg, LastTypes(w.log), k, StateAt(cfg, w, k));
    SameInputs(cfg, w, Wiped(w), k);
    SameComing(w, Wiped(w), k);
    var kind := KindOf(StateAt(cfg, w, k).msgType).value;
    var i;
    after, i := UnsettledBreaks(cfg, Wiped(w), k, kind);
    var w' := Replay(cfg, Wiped(w), after).value;
    var more := w'.log[|w.log|..];
    ReplayIsGood(cfg, Wiped(w), after);
    GoodBehind(w.log, w'.log);
    assert w'.log == w.log + more;
    LinksAreBelow(cfg, first, w.log, k, kind);
    EverIs(cfg, first, w.log, w.wiped);
    BookWiped(cfg, first, w.log, w.wiped);
    BookGrows(cfg, first, w.log, Some(|w.log|), more);
    ExposedDangles(cfg, BookAfter(cfg, first, w.log, Some(|w.log|)), k, kind, more, i);
  }

  lemma GoodBehind(log: seq<(nat, Event)>, log': seq<(nat, Event)>)
    requires GoodMessages(log') && log <= log'
    ensures GoodMessages(log'[|log|..])
  {
    hide Matches, Handled;
  }

  /**
   At any point of any schedule a wipe is harmless, whatever is captured afterwards, if and only
   if all flows are settled.
   */
  lemma WipeIsHarmlessWhen(cfg: Config, first: nat, actions: seq<Action>)
    requires Replay(cfg, INIT, actions).Some?
    ensures var w := Replay(cfg, INIT, actions).value;
            AllSettled(cfg, w) <==>
            forall after :: NeverWipes(after) && Replay(cfg, Wiped(w), after).Some? ==>
              NamedAfterWipe(cfg, first, Replay(cfg, Wiped(w), after).value)
  {
    hide NamedAfterWipe, Settled, GoodMessages;
    var w := Replay(cfg, INIT, actions).value;
    NoMessages();
    ReplayIsGood(cfg, INIT, actions);
    hide Replay;
    if AllSettled(cfg, w) {
      forall after | NeverWipes(after) && Replay(cfg, Wiped(w), after).Some?
        ensures NamedAfterWipe(cfg, first, Replay(cfg, Wiped(w), after).value)
      {
        WipeKeeps(cfg, first, w, after);
      }
    } else {
      var k :| !Settled(cfg, w, k);
      var after := WipeBreaks(cfg, first, actions, k);
    }
  }
}
