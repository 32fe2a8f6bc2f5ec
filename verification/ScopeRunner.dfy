/**
 ScopeRunner as a transition system: any number of threads try to take shared locks and to
 stop the scope, with a counter that is only read, decremented and compared-and-swapped.  A
 weak compare-and-swap may fail for no reason.
 */
module ScopeRunner {
  import opened Bytes

  /** Where a thread is inside continue_lock, with the value it expects, or inside stop. */
  datatype Call = Continuing(expected: int) | Stopping

  /** The counter, the calls under way, the locks alive; what has been granted and whether any stop has returned. */
  datatype State = State(count: int, calls: map<nat, Call>, live: nat, granted: nat, stopped: bool)

  const INIT: State := State(0, map[], 0, 0, false)

  datatype Action =
      /** continue_lock reads the counter. */
    | Continue(caller: nat)
      /** Its loop: tests the expected value and tries to swap. */
    | TryLock(caller: nat, spurious: bool)
      /** A lock is destroyed. */
    | Release
    | Stop(caller: nat)
    | TryStop(caller: nat, spurious: bool)

  /** What an action does, if it is enabled. */
  function Do(s: State, a: Action): Option<State> {
    match a
    case Continue(c) => if c in s.calls then None else Some(s.(calls := s.calls[c := Continuing(s.count)]))
    case TryLock(c, spurious) =>
      if c !in s.calls || !s.calls[c].Continuing? then None
      else
        var expected := s.calls[c].expected;
        if expected < 0 then Some(s.(calls := s.calls - {c}))
        else if !spurious && s.count == expected then
          Some(s.(count := expected + 1, calls := s.calls - {c}, live := s.live + 1, granted := s.granted + 1))
        else Some(s.(calls := s.calls[c := Continuing(s.count)]))
    case Release => if s.live == 0 then None else Some(s.(count := s.count - 1, live := s.live - 1))
    case Stop(c) => if c in s.calls then None else Some(s.(calls := s.calls[c := Stopping]))
    case TryStop(c, spurious) =>
      if c !in s.calls || !s.calls[c].Stopping? then None
      else if !spurious && s.count == 0 then Some(s.(count := -1, calls := s.calls - {c}, stopped := true))
      else if s.count < 0 then Some(s.(calls := s.calls - {c}, stopped := true))
      else Some(s)
  }

  /** The state after a run from s, if every action was enabled. */
  function Run(s: State, actions: seq<Action>): Option<State>
    decreases |actions|
  {
    if |actions| == 0 then Some(s)
    else
      var s' := Do(s, actions[0]);
      if s'.None? then None else Run(s'.value, actions[1..])
  }

  /** The counter counts the locks, until it is -1 and there are none. */
  predicate Invariant(s: State) {
    && (s.count == s.live || (s.count == -1 && s.live == 0))
    && (s.stopped ==> s.count == -1)
  }

  lemma DoKeepsInvariant(s: State, a: Action)
    requires Invariant(s) && Do(s, a).Some?
    ensures Invariant(Do(s, a).value)
    ensures s.stopped ==> Do(s, a).value.stopped && Do(s, a).value.granted == s.granted
  {}

  lemma {:induction false} RunKeepsInvariant(s: State, actions: seq<Action>)
    requires Invariant(s) && Run(s, actions).Some?
    ensures Invariant(Run(s, actions).value)
    ensures s.stopped ==> Run(s, actions).value.stopped && Run(s, actions).value.granted == s.granted
    decreases |actions|
  {
    hide Do, Invariant;
    if |actions| > 0 {
      DoKeepsInvariant(s, actions[0]);
      RunKeepsInvariant(Do(s, actions[0]).value, actions[1..]);
    }
  }

  /** In every state that any threads can bring about, the counter is the number of locks, or -1 with none. */
  lemma CountsTheLocks(actions: seq<Action>)
    requires Run(INIT, actions).Some?
    ensures var s := Run(INIT, actions).value;
            s.count == s.live || (s.count == -1 && s.live == 0)
  {
    hide Run;
    RunKeepsInvariant(INIT, actions);
  }

  /** Once a stop has returned no lock is held, and whatever the threads do after none is granted any more. */
  lemma NothingAfterStop(before: seq<Action>, after: seq<Action>)
    requires Run(INIT, before).Some? && Run(INIT, before).value.stopped
    requires Run(INIT, before + after).Some?
    ensures Run(INIT, before).value.live == 0
    ensures var s := Run(INIT, before + after).value;
            s.live == 0 && s.granted == Run(INIT, before).value.granted
  {
    RunJoins(INIT, before, after);
    RunKeepsInvariant(INIT, before);
    RunKeepsInvariant(Run(INIT, before).value, after);
  }

  lemma {:induction false} RunJoins(s: State, before: seq<Action>, after: seq<Action>)
    requires Run(s, before).Some?
    ensures Run(s, before + after) == Run(Run(s, before).value, after)
    decreases |before|
  {
    hide Do;
    if |before| == 0 {
      assert before + after == after;
    } else {
      assert (before + after)[1..] == before[1..] + after;
      RunJoins(Do(s, before[0]).value, before[1..], after);
    }
  }

  /**
   A stop that is under way can return as soon as no lock is held, however many calls of continue_lock are
   under way.
   */
  lemma StopReturnsWhenFree(actions: seq<Action>, c: nat)
    requires Run(INIT, actions).Some?
    requires var s := Run(INIT, actions).value; c in s.calls && s.calls[c].Stopping?
    ensures var s := Run(INIT, actions).value;
            && Do(s, TryStop(c, false)).Some?
            && (Do(s, TryStop(c, false)).value.stopped <==> s.live == 0 || s.stopped)
  {
    hide Run;
    RunKeepsInvariant(INIT, actions);
  }

  /** How often a lock has been released. */
  function Releases(actions: seq<Action>): nat {
    if |actions| == 0 then 0 else (if actions[0].Release? then 1 else 0) + Releases(actions[1..])
  }

  /** Every lock granted is alive until it is released. */
  lemma {:induction false} LocksBalance(s: State, actions: seq<Action>)
    requires Run(s, actions).Some?
    ensures var s' := Run(s, actions).value; s'.live + Releases(actions) + s.granted == s'.granted + s.live
    decreases |actions|
  {
    hide Do;
    if |actions| > 0 {
      OneLock(s, actions[0]);
      LocksBalance(Do(s, actions[0]).value, actions[1..]);
    }
  }

  lemma OneLock(s: State, a: Action)
    requires Do(s, a).Some?
    ensures var s' := Do(s, a).value;
            && s'.live + (if a.Release? then 1 else 0) + s.granted == s'.granted + s.live
            && s.granted <= s'.granted <= s.granted + 1
  {}

  /** A call of continue_lock that is not disturbed gets a lock if and only if no stop has taken effect. */
  lemma LockIsGrantedWhen(actions: seq<Action>, c: nat)
    requires Run(INIT, actions).Some? && c !in Run(INIT, actions).value.calls
    ensures var s, calls := Run(INIT, actions).value, [Continue(c), TryLock(c, false)];
            && Run(s, calls).Some? && c !in Run(s, calls).value.calls
            && Run(s, calls).value.granted == s.granted + (if s.count >= 0 then 1 else 0)
            && Run(s, calls).value.live == s.live + (if s.count >= 0 then 1 else 0)
  {
    var s := Run(INIT, actions).value;
    var calls := [Continue(c), TryLock(c, false)];
    assert calls[1..] == [TryLock(c, false)] && calls[1..][1..] == [];
    var begun := Do(s, Continue(c)).value;
    var tried := Do(begun, TryLock(c, false)).value;
    assert Run(tried, []) == Some(tried);
    assert Run(begun, [TryLock(c, false)]) == Run(tried, []);
    assert begun.calls - {c} == s.calls;
  }
}
