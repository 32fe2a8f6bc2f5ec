/**
 The thread pool as a transition system: every access to the queue, the mutex, the flags and
 the condition variable is one atomic step of a worker, of a pushing thread or of the one
 thread that resizes and stops the pool.  A run is any sequence of steps.
 */
module ThreadPool {
  import opened Bytes

  /** Functors, numbered in the order in which they are pushed. */
  type Task = nat

  /** Where a worker is in the body of set_thread. */
  datatype WorkerPc =
    | Starting
    | Running(task: Task)
    | Checking
    | Popping
    | Locking
    | Testing
    | TestingDone
    | TestingFlag
    | Asleep
    | Woken
    | Leaving(got: Option<Task>)
    | Exited

  datatype Worker = Worker(flag: bool, detached: bool, pc: WorkerPc)

  /** Where a call of push is, after it has put its functor into the queue. */
  datatype PushPc = NeedsLock | HasLock

  /** Where the controlling thread is in resize or stop. */
  datatype Control =
    | Idle
    | Growing(target: nat)
    | Shrinking(target: nat)
    | ShrinkLock
    | ShrinkNotify
    | StopFlags(next: nat)
    | Clearing
    | StopLock(wait: bool)
    | StopNotify(wait: bool)
    | Joining(joined: nat, wait: bool)
    | FinalClear(wait: bool)

  datatype Owner = OfWorker(worker: nat) | OfPusher(pusher: nat) | OfControl

  datatype Pool = Pool(
    queue: seq<Task>,
    isDone: bool,
    isStop: bool,
    mutex: Option<Owner>,
    /** Every worker ever started, and the ids of those in the vector of threads. */
    workers: seq<Worker>,
    threads: seq<nat>,
    pushers: map<nat, PushPc>,
    control: Control,
    /** How many functors have been pushed, and what became of them. */
    pushed: nat,
    ran: multiset<Task>,
    taken: multiset<Task>,
    deleted: multiset<Task>,
    /** No call of push has been under way since stop(true) was called; the threads it found; what it has deleted. */
    quiet: bool,
    found: nat,
    deletedByStop: multiset<Task>)

  const INIT: Pool :=
    Pool([], false, false, None, [], [], map[], Idle, 0, multiset{}, multiset{}, multiset{}, false, 0, multiset{})

  datatype Action =
    | Work(worker: nat)
      /** A wake-up without a notification. */
    | Wake(sleeper: nat)
    | PushBegin(pusher: nat)
    | PushLock(pusher: nat)
      /** notify_one, which wakes one of the sleeping workers if there is one. */
    | PushNotify(pusher: nat, woken: Option<nat>)
      /** pop and clear_queue, called by anyone. */
    | Pop
    | ClearOne
    | Resize(size: nat)
    | Stop(wait: bool)
    | Go

  function SetPc(s: Pool, w: nat, pc: WorkerPc): Pool
    requires w < |s.workers|
  {
    s.(workers := s.workers[w := s.workers[w].(pc := pc)])
  }

  function Locked(s: Pool, o: Owner): Pool { s.(mutex := Some(o)) }
  function Unlocked(s: Pool): Pool { s.(mutex := None) }

  /**
   Where a worker is after its next step, unless it is blocked; a functor found at the front of the queue
   is in its hand.
   */
  function NextPc(s: Pool, w: nat): Option<WorkerPc>
    requires w < |s.workers|
  {
    match s.workers[w].pc
    case Starting => Some(if |s.queue| > 0 then Running(s.queue[0]) else Locking)
    case Running(_) => Some(Checking)
    case Checking => Some(if s.workers[w].flag then Exited else Popping)
    case Popping => Some(if |s.queue| > 0 then Running(s.queue[0]) else Locking)
    case Locking => if s.mutex.None? then Some(Testing) else None
    case Testing => Some(if |s.queue| > 0 then Leaving(Some(s.queue[0])) else TestingDone)
    case TestingDone => Some(if s.isDone then Leaving(None) else TestingFlag)
    case TestingFlag => Some(if s.workers[w].flag then Leaving(None) else Asleep)
    case Asleep => None
    case Woken => if s.mutex.None? then Some(Testing) else None
    case Leaving(got) => Some(if got.Some? then Running(got.value) else Exited)
    case Exited => None
  }

  /** Waiting takes the mutex; sleeping and leaving the wait give it back. */
  function NextMutex(s: Pool, w: nat): Option<Owner>
    requires w < |s.workers|
  {
    match s.workers[w].pc
    case Locking => Some(OfWorker(w))
    case Woken => Some(OfWorker(w))
    case TestingFlag => if s.workers[w].flag then s.mutex else None
    case Leaving(_) => None
    case _ => s.mutex
  }

  predicate Pops(pc: WorkerPc) { pc.Starting? || pc.Popping? || pc.Testing? }

  /** The next step of a worker, unless it is blocked. */
  function WorkStep(s: Pool, w: nat): Option<Pool>
    requires w < |s.workers|
  {
    var pc := s.workers[w].pc;
    var next := NextPc(s, w);
    if next.None? then None
    else
      var queue := if Pops(pc) && |s.queue| > 0 then s.queue[1..] else s.queue;
      var ran := if pc.Running? then s.ran + multiset{pc.task} else s.ran;
      Some(SetPc(s, w, next.value).(mutex := NextMutex(s, w), queue := queue, ran := ran))
  }

  function Woke(w: Worker): Worker { if w.pc.Asleep? then w.(pc := Woken) else w }

  /** notify_all. */
  function AllWoken(ws: seq<Worker>): (us: seq<Worker>)
    ensures |us| == |ws| && forall i :: 0 <= i < |ws| ==> us[i] == Woke(ws[i])
  {
    seq(|ws|, i requires 0 <= i < |ws| => Woke(ws[i]))
  }

  /** The controlling thread has nothing to do, waits for the mutex, or waits for a thread to join. */
  predicate Blocked(s: Pool) {
    match s.control
    case Idle => true
    case ShrinkLock => s.mutex.Some?
    case StopLock(_) => s.mutex.Some?
    case Joining(i, _) => i < |s.threads| && (s.threads[i] >= |s.workers| || !s.workers[s.threads[i]].pc.Exited?)
    case _ => false
  }

  function NextControl(s: Pool): Control {
    match s.control
    case Idle => Idle
    case Growing(n) => if |s.threads| < n then s.control else Idle
    case Shrinking(n) => if |s.threads| > n then s.control else ShrinkLock
    case ShrinkLock => ShrinkNotify
    case ShrinkNotify => Idle
    case StopFlags(i) => if i < |s.threads| then StopFlags(i + 1) else Clearing
    case Clearing => if |s.queue| > 0 then Clearing else StopLock(false)
    case StopLock(wait) => StopNotify(wait)
    case StopNotify(wait) => Joining(0, wait)
    case Joining(i, wait) => if i < |s.threads| then Joining(i + 1, wait) else FinalClear(wait)
    case FinalClear(wait) => if |s.queue| > 0 then s.control else Idle
  }

  /** The worker that is told to stop in this step. */
  function FlagNext(s: Pool): Option<nat> {
    var w :=
      if s.control.Shrinking? && |s.threads| > s.control.target then Some(s.threads[|s.threads| - 1])
      else if s.control.StopFlags? && s.control.next < |s.threads| then Some(s.threads[s.control.next])
      else None;
    if w.Some? && w.value < |s.workers| then w else None
  }

  function NextWorkers(s: Pool): seq<Worker> {
    if s.control.Growing? && |s.threads| < s.control.target then s.workers + [Worker(false, false, Starting)]
    else if s.control.ShrinkNotify? || s.control.StopNotify? then AllWoken(s.workers)
    else
      var f := FlagNext(s);
      if f.None? then s.workers
      else
        var w := s.workers[f.value];
        s.workers[f.value := w.(flag := true, detached := w.detached || s.control.Shrinking?)]
  }

  function NextThreads(s: Pool): seq<nat> {
    if s.control.Growing? && |s.threads| < s.control.target then s.threads + [|s.workers|]
    else if s.control.Shrinking? && |s.threads| > s.control.target then s.threads[..|s.threads| - 1]
    else if s.control.FinalClear? && |s.queue| == 0 then []
    else s.threads
  }

  function ControlMutex(s: Pool): Option<Owner> {
    if s.control.ShrinkLock? || s.control.StopLock? then Some(OfControl)
    else if s.control.ShrinkNotify? || s.control.StopNotify? then None
    else s.mutex
  }

  /** stop deletes a functor. */
  predicate Clears(s: Pool) { (s.control.Clearing? || s.control.FinalClear?) && |s.queue| > 0 }

  /** The next step of the controlling thread in resize or stop, unless it is blocked. */
  function ControlStep(s: Pool): Option<Pool> {
    if Blocked(s) then None
    else
      var s' := s.(control := NextControl(s), workers := NextWorkers(s), threads := NextThreads(s),
                   mutex := ControlMutex(s));
      if Clears(s) then Some(ClearFront(s').(deletedByStop := s.deletedByStop + multiset{s.queue[0]})) else Some(s')
  }

  /** The front of the queue is deleted. */
  function ClearFront(s: Pool): (s': Pool)
    requires |s.queue| > 0
    ensures s' == s.(queue := s'.queue, deleted := s'.deleted)
  {
    s.(queue := s.queue[1..], deleted := s.deleted + multiset{s.queue[0]})
  }

  /** What an action does, if it is enabled. */
  function Do(s: Pool, a: Action): Option<Pool> {
    match a
    case Work(w) => if w < |s.workers| then WorkStep(s, w) else None
    case Wake(w) => if w < |s.workers| && s.workers[w].pc.Asleep? then Some(SetPc(s, w, Woken)) else None
    case PushBegin(p) =>
      if p in s.pushers then None
      else Some(s.(queue := s.queue + [s.pushed], pushed := s.pushed + 1,
                   pushers := s.pushers[p := NeedsLock], quiet := false))
    case PushLock(p) =>
      if p in s.pushers && s.pushers[p].NeedsLock? && s.mutex.None?
      then Some(Locked(s, OfPusher(p)).(pushers := s.pushers[p := HasLock]))
      else None
    case PushNotify(p, woken) =>
      if p !in s.pushers || s.pushers[p].NeedsLock? then None
      else
        var s' := Unlocked(s).(pushers := s.pushers - {p});
        if woken.Some? then
          if woken.value < |s.workers| && s.workers[woken.value].pc.Asleep?
          then Some(SetPc(s', woken.value, Woken)) else None
        else if exists w :: 0 <= w < |s.workers| && s.workers[w].pc.Asleep? then None
        else Some(s')
    case Pop =>
      if |s.queue| > 0 then Some(s.(queue := s.queue[1..], taken := s.taken + multiset{s.queue[0]})) else Some(s)
    case ClearOne => if |s.queue| > 0 then Some(ClearFront(s)) else Some(s)
    case Resize(n) =>
      if !s.control.Idle? then None
      else if s.isStop || s.isDone then Some(s)
      else Some(s.(control := if |s.threads| <= n then Growing(n) else Shrinking(n)))
    case Stop(wait) =>
      if !s.control.Idle? then None
      else if wait then
        if s.isDone || s.isStop then Some(s)
        else Some(s.(isDone := true, control := StopLock(true), quiet := s.pushers == map[], found := |s.threads|,
                     deletedByStop := multiset{}))
      else if s.isStop then Some(s)
      else Some(s.(isStop := true, control := StopFlags(0), deletedByStop := multiset{}))
    case Go => ControlStep(s)
  }

  /** The state after a run, if every action was enabled. */
  function Run(actions: seq<Action>): Option<Pool> {
    if |actions| == 0 then Some(INIT)
    else
      var s := Run(actions[..|actions| - 1]);
      if s.None? then None else Do(s.value, actions[|actions| - 1])
  }

  // ---- First in, first out ----

  /** The queue holds the latest functors, in the order in which they were pushed. */
  predicate InOrder(s: Pool) {
    |s.queue| <= s.pushed && forall i :: 0 <= i < |s.queue| ==> s.queue[i] == s.pushed - |s.queue| + i
  }

  lemma DoKeepsOrder(s: Pool, a: Action)
    requires InOrder(s) && Do(s, a).Some?
    ensures InOrder(Do(s, a).value)
    ensures s.pushed <= Do(s, a).value.pushed
    ensures s.pushed - |s.queue| <= Do(s, a).value.pushed - |Do(s, a).value.queue|
  {
    match a
    case Go => hide NextWorkers, NextThreads, NextControl, ControlMutex, Blocked;
    case Work(_) => hide ControlStep, NextMutex, NextPc;
    case PushBegin(_) =>
      hide ControlStep, WorkStep;
      assert forall i :: 0 <= i < |s.queue| ==> (s.queue + [s.pushed])[i] == s.queue[i];
    case _ => hide ControlStep, WorkStep;
  }

  /** In every run what leaves the queue, to be run, taken or deleted, is what has been in it longest. */
  lemma {:induction false} FirstInFirstOut(actions: seq<Action>)
    requires Run(actions).Some?
    ensures InOrder(Run(actions).value)
  {
    hide Do;
    if |actions| > 0 {
      FirstInFirstOut(actions[..|actions| - 1]);
      DoKeepsOrder(Run(actions[..|actions| - 1]).value, actions[|actions| - 1]);
    }
  }

  // ---- Resizing ----

  /** While the pool grows it is not yet larger, and while it shrinks not yet smaller, than asked for. */
  predicate Approaches(s: Pool) {
    && (s.control.Growing? ==> |s.threads| <= s.control.target)
    && (s.control.Shrinking? ==> |s.threads| >= s.control.target)
  }

  lemma DoApproaches(s: Pool, a: Action)
    requires Approaches(s) && Do(s, a).Some?
    ensures Approaches(Do(s, a).value)
  {
    match a
    case Go => GoApproaches(s);
    case Work(w) => WorkApproaches(s, w);
    case _ => hide ControlStep, WorkStep;
  }

  lemma GoApproaches(s: Pool)
    requires Approaches(s) && ControlStep(s).Some?
    ensures Approaches(ControlStep(s).value)
  {
    hide NextWorkers, ControlMutex, Blocked;
  }

  lemma WorkApproaches(s: Pool, w: nat)
    requires Approaches(s) && w < |s.workers| && WorkStep(s, w).Some?
    ensures Approaches(WorkStep(s, w).value)
  {
    hide NextMutex, NextPc;
  }

  lemma {:induction false} RunApproaches(actions: seq<Action>)
    requires Run(actions).Some?
    ensures Approaches(Run(actions).value)
  {
    hide Do;
    if |actions| > 0 {
      RunApproaches(actions[..|actions| - 1]);
      DoApproaches(Run(actions[..|actions| - 1]).value, actions[|actions| - 1]);
    }
  }

  /** In every run a resize is done with starting or dismissing threads exactly when there are as many as asked for. */
  lemma ResizeResizes(actions: seq<Action>)
    requires Run(actions).Some? && Do(Run(actions).value, Go).Some?
    requires Run(actions).value.control.Growing? || Run(actions).value.control.Shrinking?
    ensures var s, s' := Run(actions).value, Do(Run(actions).value, Go).value;
            s'.control != s.control <==> |s.threads| == s.control.target
  {
    RunApproaches(actions);
    hide AllWoken, NextWorkers, ControlMutex;
  }

  // ---- Told to stop ----

  /** How many more functors a worker that has been told to stop can take: the one that it is already looking for. */
  function Left(w: Worker): nat {
    match w.pc
    case Running(_) => 0
    case Checking => 0
    case Leaving(_) => 0
    case Exited => 0
    case _ => 1
  }

  /** A worker takes a functor. */
  predicate Takes(s: Pool, a: Action, w: nat) {
    a == Work(w) && w < |s.workers| && Pops(s.workers[w].pc) && |s.queue| > 0
  }

  lemma TakingIsLast(s: Pool, a: Action, w: nat)
    requires w < |s.workers| && s.workers[w].flag && Do(s, a).Some?
    ensures var s' := Do(s, a).value;
            && w < |s'.workers| && s'.workers[w].flag
            && Left(s'.workers[w]) + (if Takes(s, a, w) then 1 else 0) <= Left(s.workers[w])
  {
    match a
    case Work(u) => WorkLeaves(s, u, w);
    case Go => ControlLeaves(s, w);
    case _ => hide ControlStep, WorkStep;
  }

  lemma WorkLeaves(s: Pool, u: nat, w: nat)
    requires w < |s.workers| && s.workers[w].flag && u < |s.workers| && WorkStep(s, u).Some?
    ensures var s' := WorkStep(s, u).value;
            && w < |s'.workers| && s'.workers[w].flag
            && Left(s'.workers[w]) + (if Takes(s, Work(u), w) then 1 else 0) <= Left(s.workers[w])
  {
    hide NextMutex;
  }

  lemma ControlLeaves(s: Pool, w: nat)
    requires w < |s.workers| && s.workers[w].flag && ControlStep(s).Some?
    ensures var s' := ControlStep(s).value;
            w < |s'.workers| && s'.workers[w].flag && Left(s'.workers[w]) <= Left(s.workers[w])
  {
    hide NextThreads, NextControl, ControlMutex, Blocked;
  }

  /** How many functors a worker takes in a run. */
  function Taken(s: Pool, actions: seq<Action>, w: nat): nat
    decreases |actions|
  {
    if |actions| == 0 || Do(s, actions[0]).None? then 0
    else (if Takes(s, actions[0], w) then 1 else 0) + Taken(Do(s, actions[0]).value, actions[1..], w)
  }

  /**
   A worker that has been told to stop takes at most one more functor, whatever happens, and none if it
   has just run one.
   */
  lemma {:induction false} TakesAtMostOneMore(s: Pool, actions: seq<Action>, w: nat)
    requires w < |s.workers| && s.workers[w].flag
    ensures Taken(s, actions, w) <= Left(s.workers[w]) <= 1
    decreases |actions|
  {
    hide Do;
    if |actions| > 0 && Do(s, actions[0]).Some? {
      TakingIsLast(s, actions[0], w);
      TakesAtMostOneMore(Do(s, actions[0]).value, actions[1..], w);
    }
  }

  /** The notification of the workers that have been told to stop is still to come. */
  predicate WillNotify(c: Control) {
    c.Shrinking? || c.ShrinkLock? || c.ShrinkNotify? || c.StopFlags? || c.Clearing? || c.StopLock? || c.StopNotify?
  }

  /** No worker that has been told to stop is asleep for good. */
  ghost predicate ToldAreAwake(s: Pool) {
    WillNotify(s.control) || forall w :: 0 <= w < |s.workers| && s.workers[w].flag ==> !s.workers[w].pc.Asleep?
  }

  lemma DoKeepsTold(s: Pool, a: Action)
    requires ToldAreAwake(s) && Do(s, a).Some?
    ensures ToldAreAwake(Do(s, a).value)
  {
    match a
    case Go => GoKeepsTold(s);
    case Work(w) => WorkKeepsTold(s, w);
    case _ => hide ControlStep, WorkStep;
  }

  lemma GoKeepsTold(s: Pool)
    requires ToldAreAwake(s) && ControlStep(s).Some?
    ensures ToldAreAwake(ControlStep(s).value)
  {
    hide NextThreads, ControlMutex, Blocked;
  }

  lemma WorkKeepsTold(s: Pool, w: nat)
    requires ToldAreAwake(s) && w < |s.workers| && WorkStep(s, w).Some?
    ensures ToldAreAwake(WorkStep(s, w).value)
  {
    hide NextMutex;
  }

  /**
   In every run a worker that has been dismissed or told to stop is awake, or will be woken by the resize
   or stop that told it.
   */
  lemma {:induction false} RunKeepsTold(actions: seq<Action>)
    requires Run(actions).Some?
    ensures ToldAreAwake(Run(actions).value)
  {
    hide Do;
    if |actions| > 0 {
      RunKeepsTold(actions[..|actions| - 1]);
      DoKeepsTold(Run(actions[..|actions| - 1]).value, actions[|actions| - 1]);
    }
  }

  // ---- No functor is lost or doubled ----

  function One(here: bool): nat { if here then 1 else 0 }

  /** Whether a worker has functor t in hand. */
  predicate Holds(w: Worker, t: Task) { w.pc == Running(t) || w.pc == Leaving(Some(t)) }

  /** How many workers have functor t in hand. */
  function InHand(ws: seq<Worker>, t: Task): nat {
    if |ws| == 0 then 0 else InHand(ws[..|ws| - 1], t) + One(Holds(ws[|ws| - 1], t))
  }

  function InQueue(q: seq<Task>, t: Task): nat { multiset(q)[t] }

  /** In how many places functor t is: waiting, in hand, run, taken or deleted. */
  function Places(s: Pool, t: Task): nat {
    Count(s.queue, s.workers, s.ran, s.taken, s.deleted, t)
  }

  function Count(q: seq<Task>, ws: seq<Worker>, ran: multiset<Task>, taken: multiset<Task>, deleted: multiset<Task>,
                 t: Task): nat {
    InQueue(q, t) + InHand(ws, t) + ran[t] + taken[t] + deleted[t]
  }

  lemma {:induction false} InHandAfter(ws: seq<Worker>, i: nat, w: Worker, t: Task)
    requires i < |ws|
    ensures InHand(ws[i := w], t) + One(Holds(ws[i], t)) == InHand(ws, t) + One(Holds(w, t))
  {
    hide Holds;
    var n := |ws| - 1;
    if i == n {
      assert ws[i := w][..n] == ws[..n];
    } else {
      assert ws[i := w][..n] == ws[..n][i := w];
      InHandAfter(ws[..n], i, w, t);
    }
  }

  lemma {:induction false} SameInHand(ws: seq<Worker>, us: seq<Worker>, t: Task)
    requires |ws| == |us| && forall i :: 0 <= i < |ws| ==> Holds(us[i], t) == Holds(ws[i], t)
    ensures InHand(us, t) == InHand(ws, t)
  {
    hide Holds;
    if |ws| > 0 {
      SameInHand(ws[..|ws| - 1], us[..|us| - 1], t);
    }
  }

  lemma FrontOut(q: seq<Task>, t: Task)
    requires |q| > 0
    ensures InQueue(q, t) == One(q[0] == t) + InQueue(q[1..], t)
  {
    assert q == [q[0]] + q[1..];
  }

  lemma BackIn(q: seq<Task>, x: Task, t: Task)
    ensures InQueue(q + [x], t) == InQueue(q, t) + One(x == t)
  {}

  lemma OneMore(m: multiset<Task>, x: Task, t: Task)
    ensures (m + multiset{x})[t] == m[t] + One(x == t)
  {}

  lemma SetPcPlaces(s: Pool, w: nat, pc: WorkerPc, t: Task)
    requires w < |s.workers|
    ensures Places(SetPc(s, w, pc), t) + One(Holds(s.workers[w], t)) ==
            Places(s, t) + One(pc == Running(t) || pc == Leaving(Some(t)))
  {
    hide InQueue, InHand;
    InHandAfter(s.workers, w, s.workers[w].(pc := pc), t);
  }

  lemma WorkConserves(s: Pool, w: nat, t: Task)
    requires w < |s.workers| && WorkStep(s, w).Some?
    ensures Places(WorkStep(s, w).value, t) == Places(s, t)
  {
    hide InQueue, InHand;
    SetPcPlaces(s, w, NextPc(s, w).value, t);
    if |s.queue| > 0 {
      FrontOut(s.queue, t);
    }
    if s.workers[w].pc.Running? {
      OneMore(s.ran, s.workers[w].pc.task, t);
    }
  }

  lemma ClearPlaces(s: Pool, t: Task)
    requires |s.queue| > 0
    ensures Places(ClearFront(s), t) == Places(s, t)
  {
    hide InQueue, InHand;
    FrontOut(s.queue, t);
    OneMore(s.deleted, s.queue[0], t);
  }

  lemma WorkersPlaces(s: Pool, t: Task)
    ensures InHand(NextWorkers(s), t) == InHand(s.workers, t)
  {
    if s.control.Growing? && |s.threads| < s.control.target {
      assert NextWorkers(s)[..|s.workers|] == s.workers;
    } else {
      SameInHand(s.workers, NextWorkers(s), t);
    }
  }

  lemma ControlConserves(s: Pool, t: Task)
    requires ControlStep(s).Some?
    ensures Places(ControlStep(s).value, t) == Places(s, t) && ControlStep(s).value.pushed == s.pushed
  {
    WorkersPlaces(s, t);
    hide InQueue, InHand, NextControl, NextWorkers, NextThreads, ControlMutex, Blocked, ClearFront;
    if Clears(s) {
      ClearPlaces(s.(control := NextControl(s), workers := NextWorkers(s), threads := NextThreads(s),
                     mutex := ControlMutex(s)), t);
    }
  }

  lemma DoConserves(s: Pool, a: Action, t: Task)
    requires Do(s, a).Some? && Places(s, t) == One(t < s.pushed)
    ensures Places(Do(s, a).value, t) == One(t < Do(s, a).value.pushed)
  {
    hide WorkStep, ControlStep, InQueue, InHand;
    var s' := Do(s, a).value;
    if |s.queue| > 0 {
      FrontOut(s.queue, t);
    }
    match a {
      case Work(w) => WorkConserves(s, w, t); WorkPushesNothing(s, w);
      case Wake(w) => SetPcPlaces(s, w, Woken, t);
      case PushBegin(_) => BackIn(s.queue, s.pushed, t);
      case PushNotify(p, woken) =>
        if woken.Some? {
          SetPcPlaces(Unlocked(s).(pushers := s.pushers - {p}), woken.value, Woken, t);
        }
      case Pop =>
        if |s.queue| > 0 {
          OneMore(s.taken, s.queue[0], t);
        }
      case ClearOne =>
        if |s.queue| > 0 {
          ClearPlaces(s, t);
        }
      case Go => ControlConserves(s, t);
      case _ =>
    }
  }

  lemma WorkPushesNothing(s: Pool, w: nat)
    requires w < |s.workers| && WorkStep(s, w).Some?
    ensures WorkStep(s, w).value.pushed == s.pushed
  {}

  /**
   In every run each functor is in exactly one place once it has been pushed, so it is run or deleted at
   most once.
   */
  lemma {:induction false} OnePlaceEach(actions: seq<Action>, t: Task)
    requires Run(actions).Some?
    ensures Places(Run(actions).value, t) == One(t < Run(actions).value.pushed)
  {
    hide Do;
    if |actions| > 0 {
      OnePlaceEach(actions[..|actions| - 1], t);
      DoConserves(Run(actions[..|actions| - 1]).value, actions[|actions| - 1], t);
    }
  }

  // ---- The mutex ----

  /** Between taking the mutex and leaving or sleeping. */
  predicate Critical(pc: WorkerPc) { pc.Testing? || pc.TestingDone? || pc.TestingFlag? || pc.Leaving? }

  /** Who is in a critical section has the mutex, and nobody else does. */
  ghost predicate MutexKept(s: Pool) {
    && (forall w :: 0 <= w < |s.workers| ==> (Critical(s.workers[w].pc) <==> s.mutex == Some(OfWorker(w))))
    && (forall p :: p in s.pushers ==> (s.pushers[p].HasLock? <==> s.mutex == Some(OfPusher(p))))
    && (s.control.ShrinkNotify? || s.control.StopNotify? <==> s.mutex == Some(OfControl))
    && (s.mutex.Some? && s.mutex.value.OfPusher? ==> s.mutex.value.pusher in s.pushers)
    && (s.mutex.Some? && s.mutex.value.OfWorker? ==> s.mutex.value.worker < |s.workers|)
  }

  /** A worker is in a critical section after its step exactly if it has the mutex then, and takes it from nobody. */
  lemma StepAndMutex(s: Pool, w: nat)
    requires w < |s.workers| && NextPc(s, w).Some?
    requires Critical(s.workers[w].pc) <==> s.mutex == Some(OfWorker(w))
    ensures Critical(NextPc(s, w).value) <==> NextMutex(s, w) == Some(OfWorker(w))
    ensures NextMutex(s, w) == s.mutex || s.mutex == None || s.mutex == Some(OfWorker(w))
    ensures NextMutex(s, w) == s.mutex || NextMutex(s, w) == None || NextMutex(s, w) == Some(OfWorker(w))
  {}

  lemma WorkKeepsMutex(s: Pool, w: nat)
    requires MutexKept(s) && w < |s.workers| && WorkStep(s, w).Some?
    ensures MutexKept(WorkStep(s, w).value)
  {
    StepAndMutex(s, w);
    hide NextPc, NextMutex, Critical, Pops;
  }

  /** The controlling thread has the mutex exactly while it is about to notify, and takes it from nobody. */
  lemma ControlAndMutex(s: Pool)
    requires !Blocked(s)
    requires s.control.ShrinkNotify? || s.control.StopNotify? <==> s.mutex == Some(OfControl)
    ensures NextControl(s).ShrinkNotify? || NextControl(s).StopNotify? <==> ControlMutex(s) == Some(OfControl)
    ensures ControlMutex(s) == s.mutex || s.mutex == None || s.mutex == Some(OfControl)
    ensures ControlMutex(s) == s.mutex || ControlMutex(s) == None || ControlMutex(s) == Some(OfControl)
  {}

  /** It starts, flags, detaches and wakes workers, none of which is in a critical section for it. */
  lemma ControlAndWorkers(s: Pool)
    ensures |s.workers| <= |NextWorkers(s)|
    ensures forall i :: 0 <= i < |s.workers| ==> Critical(NextWorkers(s)[i].pc) == Critical(s.workers[i].pc)
    ensures forall i :: |s.workers| <= i < |NextWorkers(s)| ==> !Critical(NextWorkers(s)[i].pc)
  {}

  lemma ControlFields(s: Pool)
    requires ControlStep(s).Some?
    ensures var s' := ControlStep(s).value;
            && !Blocked(s)
            && s'.control == NextControl(s) && s'.workers == NextWorkers(s) && s'.threads == NextThreads(s)
            && s'.mutex == ControlMutex(s) && s'.queue == (if Clears(s) then s.queue[1..] else s.queue)
            && s'.pushers == s.pushers && s'.isDone == s.isDone && s'.isStop == s.isStop
            && s'.quiet == s.quiet && s'.found == s.found
            && s'.deletedByStop == (if Clears(s) then s.deletedByStop + multiset{s.queue[0]} else s.deletedByStop)
  {
    hide NextControl, NextWorkers, NextThreads, ControlMutex, Blocked;
  }

  lemma ControlKeepsMutex(s: Pool)
    requires MutexKept(s) && ControlStep(s).Some?
    ensures MutexKept(ControlStep(s).value)
  {
    ControlFields(s);
    ControlAndMutex(s);
    ControlAndWorkers(s);
    hide ControlStep, NextControl, NextWorkers, NextThreads, ControlMutex, Blocked, Clears, Critical;
  }

  lemma PushKeepsMutex(s: Pool, a: Action)
    requires MutexKept(s) && Do(s, a).Some? && (a.PushBegin? || a.PushLock? || a.PushNotify?)
    ensures MutexKept(Do(s, a).value)
  {
    hide WorkStep, ControlStep;
  }

  lemma DoKeepsMutex(s: Pool, a: Action)
    requires MutexKept(s) && Do(s, a).Some?
    ensures MutexKept(Do(s, a).value)
  {
    hide WorkStep, ControlStep;
    if a.Work? {
      WorkKeepsMutex(s, a.worker);
    } else if a.Go? {
      ControlKeepsMutex(s);
    } else if a.PushBegin? || a.PushLock? || a.PushNotify? {
      PushKeepsMutex(s, a);
    }
  }

  // ---- Stopping ----

  predicate Waits(c: Control) {
    match c
    case StopLock(wait) => wait
    case StopNotify(wait) => wait
    case Joining(_, wait) => wait
    case FinalClear(wait) => wait
    case _ => false
  }

  /** In stop(false), after isStop has been set. */
  predicate Aborts(c: Control) {
    match c
    case StopFlags(_) => true
    case Clearing => true
    case StopLock(wait) => !wait
    case StopNotify(wait) => !wait
    case Joining(_, wait) => !wait
    case FinalClear(wait) => !wait
    case _ => false
  }

  predicate Resizes(c: Control) { c.Growing? || c.Shrinking? || c.ShrinkLock? || c.ShrinkNotify? }

  /** The flags that tell what the pool has been asked to do. */
  ghost predicate PhasesKept(s: Pool) {
    && (Waits(s.control) ==> s.isDone && !s.isStop && s.found == |s.threads|)
    && (Aborts(s.control) ==> s.isStop)
    && (Resizes(s.control) ==> !s.isDone && !s.isStop)
    && (s.quiet ==> s.isDone && s.pushers == map[])
  }

  /**
   The pool's threads are its own, and unflagged unless it has been told to abort; all other workers are
   detached or gone.
   */
  ghost predicate ThreadsKept(s: Pool) {
    && (forall i :: 0 <= i < |s.threads| ==> s.threads[i] < |s.workers|)
    && (forall i :: 0 <= i < |s.threads| ==>
          !s.workers[s.threads[i]].detached && (s.workers[s.threads[i]].flag ==> s.isStop))
    && (forall i, j :: 0 <= i < j < |s.threads| ==> s.threads[i] != s.threads[j])
    && (forall w :: 0 <= w < |s.workers| ==> w in s.threads || s.workers[w].detached || s.workers[w].pc.Exited?)
  }

  /** How many threads have been joined. */
  function Joined(s: Pool): nat {
    if s.control.Joining? then s.control.joined else if s.control.FinalClear? then |s.threads| else 0
  }

  ghost predicate JoinsKept(s: Pool)
    requires ThreadsKept(s)
  {
    Joined(s) <= |s.threads| && forall i :: 0 <= i < Joined(s) ==> s.workers[s.threads[i]].pc.Exited?
  }

  /**
   A worker has found the queue empty under the mutex; a functor can be in the queue since only
   from a push that has not returned, because it needs the mutex for that.
   */
  ghost predicate EmptySeen(s: Pool) {
    forall w :: 0 <= w < |s.workers| && (s.workers[w].pc.TestingDone? || s.workers[w].pc.TestingFlag?) ==>
      s.pushers == map[] ==> s.queue == []
  }

  predicate Going(pc: WorkerPc) { pc == Leaving(None) || pc.Exited? }

  /** A thread of the pool goes only once it has been told to, and leaves no functor behind if pushing was over. */
  ghost predicate GoingKept(s: Pool)
    requires ThreadsKept(s)
  {
    forall i :: 0 <= i < |s.threads| && Going(s.workers[s.threads[i]].pc) ==>
          s.isStop || (s.isDone && (s.quiet ==> s.queue == []))
  }

  lemma WorkFields(s: Pool, w: nat)
    requires w < |s.workers| && WorkStep(s, w).Some?
    ensures var s' := WorkStep(s, w).value;
            && NextPc(s, w).Some?
            && s'.workers == s.workers[w := s.workers[w].(pc := NextPc(s, w).value)]
            && s'.queue == (if Pops(s.workers[w].pc) && |s.queue| > 0 then s.queue[1..] else s.queue)
            && s'.threads == s.threads && s'.pushers == s.pushers && s'.control == s.control
            && s'.isDone == s.isDone && s'.isStop == s.isStop && s'.quiet == s.quiet && s'.found == s.found
            && s'.deletedByStop == s.deletedByStop
  {
    hide NextPc, NextMutex;
  }

  lemma WorkKeepsStops(s: Pool, w: nat)
    requires MutexKept(s) && PhasesKept(s) && ThreadsKept(s) && JoinsKept(s) && EmptySeen(s) && GoingKept(s)
    requires w < |s.workers| && WorkStep(s, w).Some?
    ensures var s' := WorkStep(s, w).value;
            PhasesKept(s') && ThreadsKept(s') && JoinsKept(s') && EmptySeen(s') && GoingKept(s')
  {
    WorkFields(s, w);
    hide WorkStep, MutexKept;
    var s' := WorkStep(s, w).value;
    assert ThreadsKept(s') && JoinsKept(s');
    assert |s.queue| == 0 ==> s.queue == [];
  }

  // Steps of the controlling thread.

  lemma ControlKeepsPhases(s: Pool)
    requires PhasesKept(s) && ControlStep(s).Some?
    ensures PhasesKept(ControlStep(s).value)
  {
    ControlFields(s);
    hide ControlStep;
  }

  lemma ControlKeepsThreads(s: Pool)
    requires PhasesKept(s) && ThreadsKept(s) && JoinsKept(s) && ControlStep(s).Some?
    ensures ThreadsKept(ControlStep(s).value)
  {
    ControlFields(s);
    var s' := ControlStep(s).value;
    hide ControlStep, NextControl, Blocked, ControlMutex, Clears;
    if s.control.Shrinking? && |s.threads| > s.control.target {
      DetachKeepsThreads(s, s');
    } else if s.control.Growing? && |s.threads| < s.control.target {
      GrowthKeepsThreads(s, s');
    } else if s.control.ShrinkNotify? || s.control.StopNotify? {
    } else if s.control.StopFlags? {
    } else if s.control.FinalClear? && |s.queue| == 0 {
    }
  }

  lemma DetachKeepsThreads(s: Pool, s': Pool)
    requires ThreadsKept(s) && |s.threads| > 0 && s'.isStop == s.isStop
    requires s'.threads == s.threads[..|s.threads| - 1]
    requires var w := s.threads[|s.threads| - 1];
             s'.workers == s.workers[w := s.workers[w].(flag := true, detached := true)]
    ensures ThreadsKept(s')
  {
    forall w | 0 <= w < |s'.workers|
      ensures w in s'.threads || s'.workers[w].detached || s'.workers[w].pc.Exited?
    {
      if w in s.threads {
        var i :| 0 <= i < |s.threads| && s.threads[i] == w;
        if i < |s'.threads| {
          assert s'.threads[i] == w;
        }
      }
    }
  }

  lemma GrowthKeepsThreads(s: Pool, s': Pool)
    requires ThreadsKept(s) && s'.isStop == s.isStop
    requires s'.threads == s.threads + [|s.workers|] && s'.workers == s.workers + [Worker(false, false, Starting)]
    ensures ThreadsKept(s')
  {}

  lemma ControlKeepsJoins(s: Pool)
    requires PhasesKept(s) && ThreadsKept(s) && JoinsKept(s) && ControlStep(s).Some? &&
             ThreadsKept(ControlStep(s).value)
    ensures JoinsKept(ControlStep(s).value)
  {
    ControlFields(s);
    hide ControlStep, PhasesKept;
  }

  lemma ControlKeepsEmpty(s: Pool)
    requires EmptySeen(s) && ControlStep(s).Some?
    ensures EmptySeen(ControlStep(s).value)
  {
    ControlFields(s);
    hide ControlStep;
  }

  lemma ControlKeepsGoing(s: Pool)
    requires ThreadsKept(s) && GoingKept(s) && ControlStep(s).Some? && ThreadsKept(ControlStep(s).value)
    ensures GoingKept(ControlStep(s).value)
  {
    ControlFields(s);
    hide ControlStep;
  }

  // All other steps.

  lemma NotifyKeepsStops(s: Pool, p: nat, woken: Option<nat>)
    requires MutexKept(s) && PhasesKept(s) && ThreadsKept(s) && JoinsKept(s) && EmptySeen(s) && GoingKept(s)
    requires Do(s, PushNotify(p, woken)).Some?
    ensures var s' := Do(s, PushNotify(p, woken)).value;
            PhasesKept(s') && ThreadsKept(s') && JoinsKept(s') && EmptySeen(s') && GoingKept(s')
  {
    var s' := Do(s, PushNotify(p, woken)).value;
    assert forall w :: 0 <= w < |s.workers| ==> !Critical(s.workers[w].pc);
    hide MutexKept;
    assert ThreadsKept(s') && JoinsKept(s');
  }

  lemma PushKeepsStops(s: Pool, a: Action)
    requires PhasesKept(s) && ThreadsKept(s) && JoinsKept(s) && EmptySeen(s) && GoingKept(s)
    requires (a.PushBegin? || a.PushLock?) && Do(s, a).Some?
    ensures var s' := Do(s, a).value;
            PhasesKept(s') && ThreadsKept(s') && JoinsKept(s') && EmptySeen(s') && GoingKept(s')
  {
    assert a.pusher in Do(s, a).value.pushers;
  }

  lemma CallsKeepStops(s: Pool, a: Action)
    requires PhasesKept(s) && ThreadsKept(s) && JoinsKept(s) && EmptySeen(s) && GoingKept(s)
    requires (a.Resize? || a.Stop?) && Do(s, a).Some?
    ensures var s' := Do(s, a).value;
            PhasesKept(s') && ThreadsKept(s') && JoinsKept(s') && EmptySeen(s') && GoingKept(s')
  {}

  lemma OthersKeepStops(s: Pool, a: Action)
    requires MutexKept(s) && PhasesKept(s) && ThreadsKept(s) && JoinsKept(s) && EmptySeen(s) && GoingKept(s)
    requires (a.Wake? || a.Pop? || a.ClearOne?) && Do(s, a).Some?
    ensures var s' := Do(s, a).value;
            PhasesKept(s') && ThreadsKept(s') && JoinsKept(s') && EmptySeen(s') && GoingKept(s')
  {
    hide MutexKept, ControlStep, WorkStep;
    var s' := Do(s, a).value;
    assert ThreadsKept(s') && JoinsKept(s');
    assert |s.queue| == 0 ==> s.queue == [];
  }

  // ---- Every thread that is to be joined has been woken ----

  /** The threads that stop(false) has told to stop so far. */
  function Told(s: Pool): nat {
    if s.control.StopFlags? then s.control.next else if Aborts(s.control) then |s.threads| else 0
  }

  /** stop has notified. */
  predicate Notified(c: Control) { c.Joining? || c.FinalClear? }

  /** From the notification on no thread of the pool sleeps, nor can it fall asleep again: no wake-up is lost. */
  ghost predicate AwakeKept(s: Pool)
    requires ThreadsKept(s)
  {
    && Told(s) <= |s.threads|
    && (forall i :: 0 <= i < Told(s) ==> s.workers[s.threads[i]].flag)
    && (Notified(s.control) ==> forall i :: 0 <= i < |s.threads| ==>
          !s.workers[s.threads[i]].pc.Asleep? && (Waits(s.control) ==> !s.workers[s.threads[i]].pc.TestingFlag?))
  }

  lemma WorkKeepsAwake(s: Pool, w: nat)
    requires PhasesKept(s) && ThreadsKept(s) && AwakeKept(s)
    requires w < |s.workers| && WorkStep(s, w).Some? && ThreadsKept(WorkStep(s, w).value)
    ensures AwakeKept(WorkStep(s, w).value)
  {
    WorkFields(s, w);
    hide WorkStep;
  }

  lemma ControlKeepsAwake(s: Pool)
    requires MutexKept(s) && PhasesKept(s) && ThreadsKept(s) && AwakeKept(s)
    requires ControlStep(s).Some? && ThreadsKept(ControlStep(s).value)
    ensures AwakeKept(ControlStep(s).value)
  {
    ControlFields(s);
    hide ControlStep, Blocked, ControlMutex, Clears;
    var s' := ControlStep(s).value;
    if s.control.StopNotify? {
      assert forall w :: 0 <= w < |s.workers| ==> !Critical(s.workers[w].pc);
    }
  }

  lemma CallsKeepAwake(s: Pool, a: Action)
    requires ThreadsKept(s) && AwakeKept(s)
    requires (a.Resize? || a.Stop?) && Do(s, a).Some? && ThreadsKept(Do(s, a).value)
    ensures AwakeKept(Do(s, a).value)
  {}

  /** Waking a worker, and whatever leaves the workers alone. */
  lemma WakingKeepsAwake(s: Pool, s': Pool)
    requires ThreadsKept(s) && AwakeKept(s) && ThreadsKept(s')
    requires s'.threads == s.threads && s'.control == s.control && |s'.workers| == |s.workers|
    requires forall i :: 0 <= i < |s.workers| ==>
      s'.workers[i].flag == s.workers[i].flag && (s'.workers[i].pc == s.workers[i].pc || s'.workers[i].pc.Woken?)
    ensures AwakeKept(s')
  {}

  lemma OthersKeepAwake(s: Pool, a: Action)
    requires ThreadsKept(s) && AwakeKept(s)
    requires !a.Work? && !a.Go? && Do(s, a).Some? && ThreadsKept(Do(s, a).value)
    ensures AwakeKept(Do(s, a).value)
  {
    hide WorkStep, ControlStep, AwakeKept, ThreadsKept;
    if a.Resize? || a.Stop? {
      CallsKeepAwake(s, a);
    } else {
      WakingKeepsAwake(s, Do(s, a).value);
    }
  }

  // ---- Every run ----

  /** stop(true) deletes nothing if no push overlaps with it and it has found a thread. */
  ghost predicate NothingDeleted(s: Pool) {
    Waits(s.control) && s.quiet && s.found > 0 ==> s.deletedByStop == multiset{}
  }

  ghost predicate Invariant(s: Pool) {
    && MutexKept(s) && PhasesKept(s) && ThreadsKept(s) && JoinsKept(s) && EmptySeen(s) && GoingKept(s) && AwakeKept(s)
    && NothingDeleted(s)
  }

  /** Once all threads are joined the queue is empty, unless pushing went on or there was no thread. */
  lemma JoinedMeansEmpty(s: Pool)
    requires PhasesKept(s) && ThreadsKept(s) && JoinsKept(s) && GoingKept(s)
    requires s.control == FinalClear(true) && s.quiet && s.found > 0
    ensures s.queue == []
  {
    assert s.workers[s.threads[0]].pc.Exited?;
  }

  lemma DoKeepsNothingDeleted(s: Pool, a: Action)
    requires PhasesKept(s) && ThreadsKept(s) && JoinsKept(s) && GoingKept(s) && NothingDeleted(s) && Do(s, a).Some?
    ensures NothingDeleted(Do(s, a).value)
  {
    hide PhasesKept, ThreadsKept, JoinsKept, GoingKept;
    if a.Go? {
      ControlFields(s);
      hide ControlStep, NextWorkers, NextThreads, ControlMutex, Blocked;
      if s.control == FinalClear(true) && s.quiet && s.found > 0 {
        JoinedMeansEmpty(s);
      }
    } else if a.Work? {
      WorkFields(s, a.worker);
      hide WorkStep;
    }
  }

  lemma DoKeepsInvariant(s: Pool, a: Action)
    requires Invariant(s) && Do(s, a).Some?
    ensures Invariant(Do(s, a).value)
  {
    hide WorkStep, ControlStep, MutexKept, PhasesKept, ThreadsKept, JoinsKept, EmptySeen, GoingKept, AwakeKept,
         NothingDeleted;
    DoKeepsMutex(s, a);
    DoKeepsNothingDeleted(s, a);
    match a {
      case Work(w) =>
        WorkKeepsStops(s, w);
        WorkKeepsAwake(s, w);
      case Go =>
        ControlKeepsPhases(s);
        ControlKeepsThreads(s);
        ControlKeepsJoins(s);
        ControlKeepsEmpty(s);
        ControlKeepsGoing(s);
        ControlKeepsAwake(s);
      case PushNotify(p, woken) =>
        NotifyKeepsStops(s, p, woken);
        OthersKeepAwake(s, a);
      case PushBegin(_) =>
        PushKeepsStops(s, a);
        OthersKeepAwake(s, a);
      case PushLock(_) =>
        PushKeepsStops(s, a);
        OthersKeepAwake(s, a);
      case Resize(_) =>
        CallsKeepStops(s, a);
        OthersKeepAwake(s, a);
      case Stop(_) =>
        CallsKeepStops(s, a);
        OthersKeepAwake(s, a);
      case _ =>
        OthersKeepStops(s, a);
        OthersKeepAwake(s, a);
    }
  }

  lemma {:induction false} RunKeepsInvariant(actions: seq<Action>)
    requires Run(actions).Some?
    ensures Invariant(Run(actions).value)
  {
    hide Do;
    if |actions| == 0 {
      assert INIT.workers == [] && INIT.threads == [];
    } else {
      hide Invariant;
      RunKeepsInvariant(actions[..|actions| - 1]);
      DoKeepsInvariant(Run(actions[..|actions| - 1]).value, actions[|actions| - 1]);
    }
  }

  lemma {:induction false} NobodyHolds(ws: seq<Worker>, t: Task)
    requires forall w :: 0 <= w < |ws| ==> !Holds(ws[w], t)
    ensures InHand(ws, t) == 0
  {
    hide Holds;
    if |ws| > 0 {
      NobodyHolds(ws[..|ws| - 1], t);
    }
  }

  /**
   When stop(true) returns, with no push under way since it was called and at least one thread
   in the pool: the queue is empty, stop has deleted nothing, and every functor ever pushed has
   been run, unless somebody else took or deleted it or a detached worker still has it in hand.
   */
  lemma StopRunsEverything(actions: seq<Action>, t: Task)
    requires Run(actions).Some?
    requires var s := Run(actions).value;
             s.control == FinalClear(true) && s.quiet && s.found > 0 && t < s.pushed
    ensures var s := Run(actions).value;
            && Do(s, Go).Some? && Do(s, Go).value.control == Idle
            && s.queue == [] && s.deletedByStop == multiset{}
            && s.ran[t] + s.taken[t] + s.deleted[t] + InHand(s.workers, t) == 1
            && (forall w :: 0 <= w < |s.workers| && Holds(s.workers[w], t) ==> s.workers[w].detached)
            && ((forall w :: 0 <= w < |s.workers| ==> !s.workers[w].detached) && s.taken[t] == 0 &&
                s.deleted[t] == 0 ==>
                  s.ran[t] == 1)
  {
    var s := Run(actions).value;
    RunKeepsInvariant(actions);
    OnePlaceEach(actions, t);
    hide Run, MutexKept, EmptySeen, AwakeKept;
    JoinedMeansEmpty(s);
    forall w | 0 <= w < |s.workers| && !s.workers[w].detached
      ensures !Holds(s.workers[w], t)
    {
      assert w in s.threads ==> s.workers[w].pc.Exited?;
    }
    if forall w :: 0 <= w < |s.workers| ==> !s.workers[w].detached {
      NobodyHolds(s.workers, t);
    }
  }

  /**
   stop never hangs on a thread that is not making way: while it waits to join one, that thread
   can go on, or the holder of the mutex it needs can.
   */
  lemma JoinNeverStuck(actions: seq<Action>)
    requires Run(actions).Some?
    requires var s := Run(actions).value;
             s.control.Joining? && s.control.joined < |s.threads| && Do(s, Go).None?
    ensures var s := Run(actions).value;
            var w := s.threads[s.control.joined];
            && w < |s.workers| && !s.workers[w].pc.Exited?
            && (Do(s, Work(w)).Some? ||
                (s.mutex.Some? && s.mutex.value.OfWorker? && Do(s, Work(s.mutex.value.worker)).Some?) ||
                (s.mutex.Some? && s.mutex.value.OfPusher? &&
                 exists woken :: Do(s, PushNotify(s.mutex.value.pusher, woken)).Some?))
  {
    var s := Run(actions).value;
    RunKeepsInvariant(actions);
    hide Run, MutexKept, PhasesKept, JoinsKept, EmptySeen, GoingKept, NothingDeleted;
    var w := s.threads[s.control.joined];
    ControlFree(s);
    GoesOrWaits(s, w);
  }

  lemma ControlFree(s: Pool)
    requires MutexKept(s) && s.control.Joining?
    ensures s.mutex != Some(OfControl)
  {}

  /** A worker that is awake and not gone can go on, or the holder of the mutex can. */
  lemma GoesOrWaits(s: Pool, w: nat)
    requires MutexKept(s) && w < |s.workers| && s.mutex != Some(OfControl)
    requires !s.workers[w].pc.Exited? && !s.workers[w].pc.Asleep?
    ensures Do(s, Work(w)).Some? ||
            (s.mutex.Some? && s.mutex.value.OfWorker? && Do(s, Work(s.mutex.value.worker)).Some?) ||
            (s.mutex.Some? && s.mutex.value.OfPusher? &&
             exists woken :: Do(s, PushNotify(s.mutex.value.pusher, woken)).Some?)
  {
    if s.mutex.Some? {
      if s.mutex.value.OfPusher? {
        NotifyEnabled(s, s.mutex.value.pusher);
      } else {
        CriticalGoes(s, s.mutex.value.worker);
      }
    } else {
      FreeGoes(s, w);
    }
  }

  lemma CriticalGoes(s: Pool, w: nat)
    requires w < |s.workers| && Critical(s.workers[w].pc)
    ensures Do(s, Work(w)).Some?
  {}

  lemma FreeGoes(s: Pool, w: nat)
    requires w < |s.workers| && s.mutex.None? && !s.workers[w].pc.Exited? && !s.workers[w].pc.Asleep?
    ensures Do(s, Work(w)).Some?
  {}

  lemma NotifyEnabled(s: Pool, p: nat)
    requires p in s.pushers && s.pushers[p].HasLock?
    ensures exists woken :: Do(s, PushNotify(p, woken)).Some?
  {
    if exists w :: 0 <= w < |s.workers| && s.workers[w].pc.Asleep? {
      var w: nat :| 0 <= w < |s.workers| && s.workers[w].pc.Asleep?;
      assert Do(s, PushNotify(p, Some(w))).Some?;
    } else {
      assert Do(s, PushNotify(p, None)).Some?;
    }
  }

  // ---- What stop(true) deletes ----

  /** The state after a run from s. */
  function RunFrom(s: Pool, actions: seq<Action>): Option<Pool> {
    if |actions| == 0 then Some(s)
    else
      var before := RunFrom(s, actions[..|actions| - 1]);
      if before.None? then None else Do(before.value, actions[|actions| - 1])
  }

  lemma {:induction false} RunJoins(a: seq<Action>, b: seq<Action>)
    requires Run(a).Some?
    ensures Run(a + b) == RunFrom(Run(a).value, b)
  {
    hide Do;
    if |b| == 0 {
      assert a + b == a;
    } else {
      var all, front := a + b, b[..|b| - 1];
      assert all[..|all| - 1] == a + front && all[|all| - 1] == b[|b| - 1];
      RunJoins(a, front);
    }
  }

  /** Nobody pushes, pops, clears the queue or calls stop again. */
  predicate LeftAlone(actions: seq<Action>) {
    forall i :: 0 <= i < |actions| ==>
      !actions[i].PushBegin? && !actions[i].Pop? && !actions[i].ClearOne? && !actions[i].Stop?
  }

  /** stop(true) can begin, and no call of push is under way. */
  predicate CanStop(s: Pool) { s.control.Idle? && !s.isDone && !s.isStop && s.pushers == map[] }

  /** stop(true) goes on from one state to the next. */
  lemma StopGoesOn(s: Pool, a: Action)
    requires Do(s, a).Some? && Waits(Do(s, a).value.control)
    requires !a.PushBegin? && !a.Pop? && !a.ClearOne? && !a.Stop?
    ensures Waits(s.control)
    ensures var s' := Do(s, a).value;
            s'.found == s.found && s'.quiet == s.quiet && s'.isDone == s.isDone &&
                (s.pushers == map[] ==> s'.pushers == map[])
  {
    if a.Work? {
      WorkFields(s, a.worker);
    } else if a.Go? {
      ControlFields(s);
    }
    hide WorkStep, ControlStep, NextWorkers, NextThreads, ControlMutex, Blocked;
  }

  lemma {:induction false} StopIsQuiet(s: Pool, after: seq<Action>)
    requires RunFrom(s, after).Some? && Waits(RunFrom(s, after).value.control) && LeftAlone(after)
    ensures Waits(s.control)
    ensures RunFrom(s, after).value.found == s.found && RunFrom(s, after).value.quiet == s.quiet
  {
    hide Do;
    if |after| > 0 {
      StopGoesOn(RunFrom(s, after[..|after| - 1]).value, after[|after| - 1]);
      StopIsQuiet(s, after[..|after| - 1]);
    }
  }

  /** There are no threads left, nor calls of push; what was queued is still there or has been deleted by stop. */
  ghost predicate OnlyStop(s: Pool, queued: multiset<Task>) {
    && s.threads == [] && s.pushers == map[] && (forall w :: 0 <= w < |s.workers| ==> s.workers[w].pc.Exited?)
    && multiset(s.queue) + s.deletedByStop == queued
  }

  lemma OnlyStopGoesOn(s: Pool, a: Action, queued: multiset<Task>)
    requires OnlyStop(s, queued) && Waits(s.control) && Do(s, a).Some?
    requires !a.PushBegin? && !a.Pop? && !a.ClearOne? && !a.Stop?
    ensures OnlyStop(Do(s, a).value, queued)
  {
    match a
    case Work(w) =>
      WorkFields(s, w);
      assert false;
    case Go => OnlyStopGoes(s, queued);
    case _ => hide ControlStep, WorkStep;
  }

  lemma OnlyStopGoes(s: Pool, queued: multiset<Task>)
    requires OnlyStop(s, queued) && Waits(s.control) && ControlStep(s).Some?
    ensures OnlyStop(ControlStep(s).value, queued)
  {
    ControlFields(s);
    hide ControlStep;
    if |s.queue| > 0 {
      assert s.queue == [s.queue[0]] + s.queue[1..];
    }
  }

  lemma {:induction false} OnlyStopDeletes(s: Pool, after: seq<Action>, queued: multiset<Task>)
    requires OnlyStop(s, queued)
    requires RunFrom(s, after).Some? && Waits(RunFrom(s, after).value.control) && LeftAlone(after)
    ensures OnlyStop(RunFrom(s, after).value, queued)
  {
    hide Do, OnlyStop;
    if |after| > 0 {
      var s' := RunFrom(s, after[..|after| - 1]).value;
      StopGoesOn(s', after[|after| - 1]);
      OnlyStopDeletes(s, after[..|after| - 1], queued);
      OnlyStopGoesOn(s', after[|after| - 1], queued);
    }
  }

  /** The state in which a run calls stop(true), and the one in which that is about to return. */
  ghost predicate StopRun(before: seq<Action>, after: seq<Action>) {
    && Run(before).Some? && CanStop(Run(before).value) && LeftAlone(after)
    && Run(before + ([Stop(true)] + after)).Some?
    && Run(before + ([Stop(true)] + after)).value.control == FinalClear(true)
    && Run(before + ([Stop(true)] + after)).value.queue == []
  }

  /** The call of stop(true), and the rest of the run. */
  lemma StopBegins(before: seq<Action>, after: seq<Action>)
    requires StopRun(before, after)
    ensures var s := Run(before).value;
            && Do(s, Stop(true)).Some?
            && RunFrom(Do(s, Stop(true)).value, after) == Run(before + ([Stop(true)] + after))
  {
    hide Do, Run;
    RunJoins(before, [Stop(true)]);
    assert before + ([Stop(true)] + after) == (before + [Stop(true)]) + after;
    assert [Stop(true)][..0] == [];
    assert RunFrom(Run(before).value, [Stop(true)][..0]) == Some(Run(before).value);
    assert Run(before + [Stop(true)]) == Do(Run(before).value, Stop(true));
    CanStopDoes(Run(before).value);
    RunJoins(before + [Stop(true)], after);
  }

  lemma CanStopDoes(s: Pool)
    requires CanStop(s)
    ensures Do(s, Stop(true)) == Some(s.(isDone := true, control := StopLock(true), quiet := true, found := |s.threads|,
                                         deletedByStop := multiset{}))
  {}

  /** In a pool without threads, and with no detached worker left, stop(true) deletes everything that is queued. */
  lemma EmptyPoolDeletes(before: seq<Action>, after: seq<Action>)
    requires StopRun(before, after) && Run(before).value.threads == []
    requires forall w :: 0 <= w < |Run(before).value.workers| ==> Run(before).value.workers[w].pc.Exited?
    ensures Run(before + ([Stop(true)] + after)).value.deletedByStop == multiset(Run(before).value.queue)
  {
    hide Run, Do, RunFrom;
    var s := Run(before).value;
    StopBegins(before, after);
    CanStopDoes(s);
    OnlyStopDeletes(Do(s, Stop(true)).value, after, multiset(s.queue));
  }

  /**
   So with no push, pop or clear beside it, stop(true) keeps its promise and deletes nothing if
   and only if the pool has a thread or there is nothing in the queue.
   */
  lemma StopDeletesNothingWhen(before: seq<Action>, after: seq<Action>)
    requires StopRun(before, after)
    requires Run(before).value.threads == [] ==>
      forall w :: 0 <= w < |Run(before).value.workers| ==> Run(before).value.workers[w].pc.Exited?
    ensures Run(before + ([Stop(true)] + after)).value.deletedByStop == multiset{} <==>
            Run(before).value.threads != [] || Run(before).value.queue == []
  {
    hide Run, Do, RunFrom;
    var s := Run(before).value;
    StopBegins(before, after);
    CanStopDoes(s);
    if s.threads == [] {
      EmptyPoolDeletes(before, after);
      if s.queue != [] {
        assert s.queue[0] in multiset(s.queue);
      }
    } else {
      StopIsQuiet(Do(s, Stop(true)).value, after);
      RunKeepsInvariant(before + ([Stop(true)] + after));
    }
  }

  /** And in a pool without threads it does return: each of its steps can be made. */
  lemma {:induction false} EmptyPoolClears(s: Pool) returns (after: seq<Action>)
    requires s.control == FinalClear(true)
    ensures LeftAlone(after) && RunFrom(s, after).Some?
    ensures RunFrom(s, after).value.control == FinalClear(true) && RunFrom(s, after).value.queue == []
    decreases |s.queue|
  {
    if s.queue == [] {
      return [];
    }
    var s' := Do(s, Go).value;
    var more := EmptyPoolClears(s');
    after := [Go] + more;
    FromFirst(s, Go, more);
  }

  lemma {:induction false} FromFirst(s: Pool, a: Action, more: seq<Action>)
    requires Do(s, a).Some?
    ensures RunFrom(s, [a] + more) == RunFrom(Do(s, a).value, more)
  {
    hide Do;
    if |more| == 0 {
      assert [a] + more == [a] && [a][..0] == [];
      assert RunFrom(s, [a][..0]) == Some(s);
    } else {
      var all, front := [a] + more, more[..|more| - 1];
      assert all[..|all| - 1] == [a] + front && all[|all| - 1] == more[|more| - 1];
      FromFirst(s, a, front);
    }
  }

  lemma EmptyPoolStops(before: seq<Action>) returns (after: seq<Action>)
    requires Run(before).Some? && CanStop(Run(before).value) && Run(before).value.threads == []
    requires forall w :: 0 <= w < |Run(before).value.workers| ==> Run(before).value.workers[w].pc.Exited?
    ensures StopRun(before, after)
  {
    var s := Run(before).value;
    RunKeepsInvariant(before);
    NobodyHasMutex(s);
    hide Run, Do, MutexKept, PhasesKept, ThreadsKept, JoinsKept, EmptySeen, GoingKept, AwakeKept, NothingDeleted,
         RunFrom, AllWoken;
    CanStopDoes(s);
    var s1 := Do(s, Stop(true)).value;
    var s2, s3 := s1.(control := StopNotify(true), mutex := Some(OfControl)), s1.(control := Joining(0, true));
    var s4 := s1.(control := FinalClear(true));
    StopSteps(s1);
    var more := EmptyPoolClears(s4);
    FromFirst(s3, Go, more);
    FromFirst(s2, Go, [Go] + more);
    FromFirst(s1, Go, [Go] + ([Go] + more));
    after := [Go] + ([Go] + ([Go] + more));
    FromFirst(s, Stop(true), after);
    RunJoins(before, [Stop(true)] + after);
  }

  lemma StopSteps(s: Pool)
    requires s.control == StopLock(true) && s.mutex == None && s.threads == []
    requires forall w :: 0 <= w < |s.workers| ==> s.workers[w].pc.Exited?
    ensures var s' := s.(control := StopNotify(true), mutex := Some(OfControl));
            && Do(s, Go) == Some(s') && Do(s', Go) == Some(s.(control := Joining(0, true)))
            && Do(s.(control := Joining(0, true)), Go) == Some(s.(control := FinalClear(true)))
  {
    assert AllWoken(s.workers) == s.workers;
  }

  lemma NobodyHasMutex(s: Pool)
    requires MutexKept(s) && s.control.Idle? && s.pushers == map[]
    requires forall w :: 0 <= w < |s.workers| ==> s.workers[w].pc.Exited?
    ensures s.mutex == None
  {}
}
