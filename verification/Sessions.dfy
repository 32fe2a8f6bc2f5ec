/**
 The processes that open one file one after the other.  The tables keep no ids apart: that is
 left to the table of runs, whose counter outlives a wipe, and to a budget of ids that nothing
 enforces.  Proved is that no two rows ever inserted get the same id as long as every process but
 the last keeps to its budget, and exactly when one process may collide with the next.
 */
module Sessions {
  import opened Bytes
  import opened Flow
  import opened Integrity
  import opened Ledger
  import opened Schedule
  import opened Streams

  /** One process: how it is configured, and what its threads do. */
  datatype Session = Session(cfg: Config, actions: seq<Action>)

  predicate Runs(s: Session) { Replay(s.cfg, INIT, s.actions).Some? }

  predicate AllRun(ss: seq<Session>) { forall i :: 0 <= i < |ss| ==> Runs(ss[i]) }

  /** Where the session ends. */
  function Last(s: Session): World
    requires Runs(s)
  {
    Replay(s.cfg, INIT, s.actions).value
  }

  /** The counter of the table of runs: every opening and every wipe moves it on. */
  function SequenceAfter(ss: seq<Session>): nat {
    if |ss| == 0 then 0 else SequenceAfter(ss[..|ss| - 1]) + 1 + WipesIn(ss[|ss| - 1].actions)
  }

  /** The first id of the session that comes next. */
  function FirstId(before: seq<Session>): nat { BUDGET * (SequenceAfter(before) + 1) }

  /** Everything that a session inserts, wiped or not. */
  function InsertedBy(s: Session, first: nat): seq<Insert>
    requires Runs(s)
  {
    Ever(s.cfg, first, Last(s).log).rows
  }

  /** Everything ever inserted into the file. */
  function AllInserted(ss: seq<Session>): seq<Insert>
    requires AllRun(ss)
  {
    if |ss| == 0 then [] else AllInserted(ss[..|ss| - 1]) + InsertedBy(ss[|ss| - 1], FirstId(ss[..|ss| - 1]))
  }

  /** How many ids are drawn for what is handed over. */
  function Drawn(cfg: Config, log: seq<(nat, Event)>): nat {
    if |log| == 0 then 0 else Drawn(cfg, log[..|log| - 1]) + EventIds(cfg, log[|log| - 1].1)
  }

  lemma {:induction false} NextIs(cfg: Config, b: Book, log: seq<(nat, Event)>)
    ensures PostAll(cfg, b, log).next == b.next + Drawn(cfg, log)
  {
    hide EventRows, EventIds;
    if |log| > 0 {
      NextIs(cfg, b, log[..|log| - 1]);
    }
  }

  /** A session draws no more ids than the counter leaves to it; with every wipe it has another budget. */
  predicate WithinBudget(s: Session) { Runs(s) ==> Drawn(s.cfg, Last(s).log) <= BUDGET * (1 + WipesIn(s.actions)) }

  predicate AllWithin(ss: seq<Session>) { forall i :: 0 <= i < |ss| ==> WithinBudget(ss[i]) }

  predicate Distinct(js: seq<Insert>) { forall i, j :: 0 <= i < j < |js| ==> js[i].id != js[j].id }

  predicate Within(js: seq<Insert>, from: nat, to: nat) { forall i :: 0 <= i < |js| ==> from <= js[i].id < to }

  lemma InsertedIds(s: Session, first: nat)
    requires Runs(s)
    ensures Distinct(InsertedBy(s, first)) && Within(InsertedBy(s, first), first, first + Drawn(s.cfg, Last(s).log))
  {
    hide PostAll, Drawn;
    IdsAreDistinct(s.cfg, first, map[], Last(s).log);
    NextIs(s.cfg, Book([], first, map[]), Last(s).log);
  }

  /** The ids of the sessions follow one another. */
  lemma {:induction false} AllBelow(ss: seq<Session>)
    requires AllRun(ss) && AllWithin(ss)
    ensures Distinct(AllInserted(ss)) && Within(AllInserted(ss), BUDGET, FirstId(ss))
  {
    hide InsertedBy, Drawn, WipesIn, Last, Runs;
    if |ss| > 0 {
      var front, s := ss[..|ss| - 1], ss[|ss| - 1];
      AllBelow(front);
      InsertedIds(s, FirstId(front));
      assert FirstId(front) + BUDGET * (1 + WipesIn(s.actions)) == FirstId(ss);
    }
  }

  /**
   No two rows ever inserted into a file have the same id, whether or not they have been wiped,
   if every session before the last has kept to its budget; and every session begins above all
   the ids of those before it.
   */
  lemma IdsNeverRepeat(ss: seq<Session>)
    requires |ss| > 0 && AllRun(ss) && AllWithin(ss[..|ss| - 1])
    ensures Distinct(AllInserted(ss))
    ensures forall i, j :: 0 <= i < j <= |ss| ==> FirstId(ss[..i]) < FirstId(ss[..j])
    ensures forall i :: 0 <= i <= |ss| ==> FirstId(ss[..i]) == 1_000_000_000 * (SequenceAfter(ss[..i]) + 1)
    ensures forall i :: 0 <= i < |ss| ==> Within(AllInserted(ss[..i]), BUDGET, FirstId(ss[..i]))
  {
    hide InsertedBy, WipesIn, Last, Runs, AllInserted, WithinBudget, SequenceAfter, Distinct, Within;
    var front, s := ss[..|ss| - 1], ss[|ss| - 1];
    AllBelow(front);
    InsertedIds(s, FirstId(front));
    DistinctJoin(AllInserted(front), InsertedBy(s, FirstId(front)), FirstId(front),
                 FirstId(front) + Drawn(s.cfg, Last(s).log));
    AllInsertedSnoc(ss);
    forall i, j | 0 <= i < j <= |ss|
      ensures FirstId(ss[..i]) < FirstId(ss[..j])
    {
      SequenceGrows(ss, i, j);
    }
    forall i | 0 <= i < |ss|
      ensures Within(AllInserted(ss[..i]), BUDGET, FirstId(ss[..i]))
    {
      assert forall n :: 0 <= n < i ==> front[n] == ss[..i][n];
      AllBelow(ss[..i]);
    }
  }

  lemma DistinctJoin(a: seq<Insert>, b: seq<Insert>, middle: nat, to: nat)
    requires Distinct(a) && Distinct(b) && Within(a, BUDGET, middle) && Within(b, middle, to)
    ensures Distinct(a + b)
  {}

  lemma AllInsertedSnoc(ss: seq<Session>)
    requires |ss| > 0 && AllRun(ss)
    ensures AllInserted(ss) == AllInserted(ss[..|ss| - 1]) + InsertedBy(ss[|ss| - 1], FirstId(ss[..|ss| - 1]))
  {
    hide InsertedBy, FirstId;
  }

  lemma {:induction false} SequenceGrows(ss: seq<Session>, i: nat, j: nat)
    requires i < j <= |ss|
    ensures SequenceAfter(ss[..i]) < SequenceAfter(ss[..j])
  {
    hide WipesIn;
    assert ss[..j][..j - 1] == ss[..j - 1];
    if i < j - 1 {
      SequenceGrows(ss, i, j - 1);
    }
  }

  // ---- The budget is what it takes ----

  predicate Disjoint(a: seq<Insert>, b: seq<Insert>) {
    forall i, j :: 0 <= i < |a| && 0 <= j < |b| ==> a[i].id != b[j].id
  }

  /** A session in which nothing happens but that a connection starts, n times. */
  function Starts(cfg: Config, n: nat): Session { Session(cfg, seq(n, _ => ConnectionStart(0))) }

  lemma {:induction false} StartsInsert(cfg: Config, first: nat, n: nat)
    ensures Runs(Starts(cfg, n))
    ensures var e := Ever(cfg, first, Last(Starts(cfg, n)).log);
            |e.rows| == n && e.next == first + n && forall i :: 0 <= i < n ==> e.rows[i].id == first + i
  {
    hide StateAt, Ever, Feed;
    if n == 0 {
      NothingEver(cfg, first);
    } else {
      StartsInsert(cfg, first, n - 1);
      var all, front := Starts(cfg, n).actions, Starts(cfg, n - 1).actions;
      assert all[..n - 1] == front && all[n - 1] == ConnectionStart(0);
      OneMoreStart(cfg, first, Replay(cfg, INIT, front).value);
    }
  }

  lemma NothingEver(cfg: Config, first: nat)
    ensures Ever(cfg, first, INIT.log) == Book([], first, map[])
  {}

  lemma OneMoreStart(cfg: Config, first: nat, w: World)
    ensures var b := Ever(cfg, first, w.log);
            var c := Ever(cfg, first, Feed(cfg, w, 0, Start).log);
            c.rows == b.rows + [Insert(0, b.next, ConnectionRow(0, Opened))] && c.next == b.next + 1
  {
    hide PostAll;
    var e := Event.PutConnection(Opened);
    TwoPosts(cfg, Ever(cfg, first, w.log), 0, e, e, w.log);
    PostJoins(cfg, Book([], first, map[]), w.log, Tagged(0, [e]));
  }

  /**
   A session cannot collide with any that may come after it if and only if none of its rows has
   got an id from the next budget.
   */
  lemma ApartFromNextWhen(before: seq<Session>, s: Session)
    requires Runs(s)
    ensures var mine, next := InsertedBy(s, FirstId(before)), FirstId(before + [s]);
            (forall i :: 0 <= i < |mine| ==> mine[i].id < next) <==>
            (forall t :: Runs(t) ==> Disjoint(mine, InsertedBy(t, next)))
  {
    hide InsertedBy, Runs, FirstId;
    var mine, next := InsertedBy(s, FirstId(before)), FirstId(before + [s]);
    if forall i :: 0 <= i < |mine| ==> mine[i].id < next {
      forall t | Runs(t)
        ensures Disjoint(mine, InsertedBy(t, next))
      {
        InsertedIds(t, next);
      }
    } else {
      var i :| 0 <= i < |mine| && mine[i].id >= next;
      var n := mine[i].id - next;
      var t := Starts(s.cfg, n + 1);
      StartsInsert(s.cfg, next, n + 1);
      InsertedIs(t, next);
      assert InsertedBy(t, next)[n].id == mine[i].id;
    }
  }

  lemma InsertedIs(s: Session, first: nat)
    requires Runs(s)
    ensures InsertedBy(s, first) == Ever(s.cfg, first, Last(s).log).rows
  {}

  // ---- The file ----

  lemma LastIsGood(s: Session, first: nat)
    requires Runs(s)
    ensures MarkOf(Last(s)) <= |Last(s).log| && GoodMessages(Last(s).log)
    ensures AllStorable(BookAfter(s.cfg, first, Last(s).log, Last(s).wiped).rows)
  {
    hide Replay, BookAfter;
    NoMessages();
    ReplayIsGood(s.cfg, INIT, s.actions);
    GoodIsStorable(s.cfg, first, Last(s));
  }

  /** What the file holds after some sessions. */
  function FileAfter(ss: seq<Session>): Rows
    requires AllRun(ss)
  {
    if |ss| == 0 then map[]
    else
      var front, s := ss[..|ss| - 1], ss[|ss| - 1];
      LastIsGood(s, FirstId(front));
      Tables(s.cfg, FirstId(front), FileAfter(front), Last(s))
  }

  /** Every row of the file has been inserted by some session. */
  lemma {:induction false} FileIsInserted(ss: seq<Session>)
    requires AllRun(ss)
    ensures forall key :: key in FileAfter(ss) ==> key.1 in IdsOf(AllInserted(ss))
  {
    hide BookAfter, Stored, Runs, FirstId, InsertedBy, IdsOf, WipedRows, Ever;
    if |ss| > 0 {
      var front, s := ss[..|ss| - 1], ss[|ss| - 1];
      FileIsInserted(front);
      LastIsGood(s, FirstId(front));
      var w := Last(s);
      var js := BookAfter(s.cfg, FirstId(front), w.log, w.wiped).rows;
      EverIs(s.cfg, FirstId(front), w.log, w.wiped);
      IdsOfJoin(WipedRows(s.cfg, FirstId(front), w.log, w.wiped), js);
      IdsOfJoin(AllInserted(front), InsertedBy(s, FirstId(front)));
      InsertedIs(s, FirstId(front));
      forall key | key in FileAfter(ss)
        ensures key.1 in IdsOf(AllInserted(ss))
      {
        StoredIds(if w.wiped.Some? then map[] else FileAfter(front), js, key);
      }
    }
  }

  lemma NoSessions(ss: seq<Session>)
    ensures FileAfter([]) == map[] && AllInserted([]) == [] && IdsOf([]) == {} && SequenceAfter([]) == 0 &&
            ss[..0] == []
  {}

  /** What a session adds to those before it. */
  lemma SessionEnds(ss: seq<Session>, used: set<nat>)
    requires |ss| > 0 && AllRun(ss) && used == IdsOf(AllInserted(ss[..|ss| - 1]))
    ensures var front, s := ss[..|ss| - 1], ss[|ss| - 1];
            && MarkOf(Last(s)) <= |Last(s).log|
            && AllStorable(BookAfter(s.cfg, FirstId(front), Last(s).log, Last(s).wiped).rows)
            && FileAfter(ss) == Tables(s.cfg, FirstId(front), FileAfter(front), Last(s))
            && IdsOf(AllInserted(ss)) == used + IdsOf(Ever(s.cfg, FirstId(front), Last(s).log).rows)
            && SequenceAfter(ss) == SequenceAfter(front) + 1 + WipesIn(s.actions)
            && (WithinBudget(s) ==> Ever(s.cfg, FirstId(front), Last(s).log).next <= FirstId(ss))
  {
    hide IdsOf, Replay, PostAll, Tables, BookAfter, WipesIn;
    var front, s := ss[..|ss| - 1], ss[|ss| - 1];
    LastIsGood(s, FirstId(front));
    IdsOfJoin(AllInserted(front), InsertedBy(s, FirstId(front)));
    NextIs(s.cfg, Book([], FirstId(front), map[]), Last(s).log);
    assert FirstId(front) + BUDGET * (1 + WipesIn(s.actions)) == FirstId(ss);
  }

  lemma StoredIds(base: Rows, js: seq<Insert>, key: Key)
    requires AllStorable(js) && key in Stored(base, js)
    ensures key in base || key.1 in IdsOf(js)
  {
    hide Stored, Storable, TableOf;
    StoredRows(base, js, key);
  }

  lemma FileIsBelow(ss: seq<Session>)
    requires AllRun(ss) && AllWithin(ss)
    ensures forall key :: key in FileAfter(ss) ==> key.1 < FirstId(ss)
  {
    hide FileAfter, AllInserted, Runs;
    FileIsInserted(ss);
    AllBelow(ss);
  }

  /** A session that does not wipe adds its rows to the file, and takes or changes none. */
  lemma FileGrows(ss: seq<Session>)
    requires |ss| > 0 && AllRun(ss) && AllWithin(ss[..|ss| - 1]) && Last(ss[|ss| - 1]).wiped.None?
    ensures var was, now := FileAfter(ss[..|ss| - 1]), FileAfter(ss);
            && (forall key :: key in was ==> key in now && now[key] == was[key])
            && AllThere(InsertedBy(ss[|ss| - 1], FirstId(ss[..|ss| - 1])), now)
  {
    hide BookAfter, Stored, Runs, FirstId, InsertedBy, WipedRows, Ever, Storable, TableOf;
    var front, s := ss[..|ss| - 1], ss[|ss| - 1];
    FileIsBelow(front);
    LastIsGood(s, FirstId(front));
    EveryRowIsThere(s.cfg, FirstId(front), FileAfter(front), Last(s));
    EverIs(s.cfg, FirstId(front), Last(s).log, None);
    InsertedIs(s, FirstId(front));
    NothingWiped(s.cfg, FirstId(front), Last(s).log);
  }

  lemma NothingWiped(cfg: Config, first: nat, log: seq<(nat, Event)>)
    ensures WipedRows(cfg, first, log, None) == []
  {}

  /** At the last wipe of every session all flows were settled. */
  ghost predicate AllWipedSettled(ss: seq<Session>) {
    forall i :: 0 <= i < |ss| ==> WipedSettled(ss[i].cfg, INIT, ss[i].actions)
  }

  /** If so, every row in the file names rows that are in it, whichever session they are from. */
  lemma {:induction false} FileIsNamed(ss: seq<Session>)
    requires AllRun(ss) && AllWipedSettled(ss)
    ensures forall key :: key in FileAfter(ss) ==> NamesRows(FileAfter(ss)[key], FileAfter(ss))
  {
    hide BookAfter, Stored, Runs, FirstId, NamesRows, WipedSettled, Linked, Replay;
    if |ss| > 0 {
      var front, s := ss[..|ss| - 1], ss[|ss| - 1];
      FileIsNamed(front);
      LastIsGood(s, FirstId(front));
      RunsIs(s);
      ReferencesHold(s.cfg, FirstId(front), FileAfter(front), s.actions);
      var w := Last(s);
      var base := if w.wiped.Some? then map[] else FileAfter(front);
      var js := BookAfter(s.cfg, FirstId(front), w.log, w.wiped).rows;
      forall key | key in FileAfter(ss)
        ensures NamesRows(FileAfter(ss)[key], FileAfter(ss))
      {
        if key in base && FileAfter(ss)[key] == base[key] {
          StoredNames(base, js, base[key]);
        }
      }
    }
  }

  lemma RunsIs(s: Session)
    ensures Runs(s) <==> Replay(s.cfg, INIT, s.actions).Some?
  {}

  lemma StoredNames(base: Rows, js: seq<Insert>, r: Row)
    requires AllStorable(js) && NamesRows(r, base)
    ensures NamesRows(r, Stored(base, js))
  {
    hide Stored;
    forall key | key in base
      ensures key in Stored(base, js)
    {
      StoredKeeps(base, js, key);
    }
  }

  lemma {:induction false} StoredKeeps(base: Rows, js: seq<Insert>, key: Key)
    requires AllStorable(js) && key in base
    ensures key in Stored(base, js)
  {
    hide Storable, TableOf;
    if |js| > 0 {
      StoredKeeps(base, js[..|js| - 1], key);
    }
  }
}
