/** `src/task/spawn_blocking.rs`: a pool of threads for blocking tasks that starts threads on demand and
    keeps at least one of them waiting.

    Every access to SLEEPING or to the task channel is one step; the thread that initialises the pool is
    slot 0 and starts the first worker. Tasks are numbers. */
module BlockingPoolProtocol {
  import opened Counting

  type Task = nat

  datatype Pc =
    | Waiting                          // in recv_timeout
    | TimedOut                         // about to subtract itself from SLEEPING
    | Last                             // it was the last sleeper: about to exchange 0 for 1
    | Got(task: Task)                  // received a task, about to subtract itself
    | Starting(resume: Option<Task>)   // in start_thread, about to add one to SLEEPING
    | Spawning(resume: Option<Task>)   // about to spawn the new thread
    | Running(task: Task)
    | Trying                           // about to try_recv
    | Checking                         // about to load SLEEPING
    | Returning                        // found nobody sleeping: about to add itself
    | Stopped

  /** `sent` and `started` record the tasks sent to the pool and the tasks given to run. */
  datatype State = State(
    sleeping: nat, queue: seq<Task>, ready: bool, threads: seq<Pc>, sent: multiset<Task>, started: multiset<Task>)

  datatype Action =
    | Send(task: Task)   // spawn_blocking, from anywhere
    | Receive | Timeout | SubTimedOut | CasLast | SubGot | AddStarting | Spawn | Finish
    | TryReceive | LoadSleeping | AddReturning

  ghost predicate Init(s: State) {
    && s.sleeping == 0 && s.queue == [] && !s.ready && s.sent == multiset{} && s.started == multiset{}
    && s.threads == [Starting(None)]
  }

  predicate Enabled(s: State, t: nat, a: Action) {
    t < |s.threads| &&
    var pc := s.threads[t];
    match a
    case Send(_) => s.ready
    case Receive => pc.Waiting? && s.queue != []
    case Timeout => pc.Waiting?
    case SubTimedOut => pc.TimedOut?
    case CasLast => pc.Last?
    case SubGot => pc.Got?
    case AddStarting => pc.Starting?
    case Spawn => pc.Spawning?
    case Finish => pc.Running?
    case TryReceive => pc.Trying?
    case LoadSleeping => pc.Checking?
    case AddReturning => pc.Returning?
  }

  /** `fetch_sub(1)` on a machine word: from zero it would wrap around to the largest value. */
  const USIZE_MAX: nat := 0xFFFF_FFFF_FFFF_FFFF
  function Sub1(sleeping: nat): nat { if sleeping == 0 then USIZE_MAX else sleeping - 1 }

  function Goto(s: State, t: nat, pc: Pc): State
    requires t < |s.threads|
  {
    s.(threads := s.threads[t := pc])
  }

  /** The task is handed to run. */
  function Begin(s: State, t: nat, task: Task): State
    requires t < |s.threads|
  {
    Goto(s.(started := s.started + multiset{task}), t, Running(task))
  }

  function Apply(s: State, t: nat, a: Action): State
    requires Enabled(s, t, a)
  {
    var pc := s.threads[t];
    match a
    case Send(task) => s.(queue := s.queue + [task], sent := s.sent + multiset{task})
    case Receive => Goto(s.(queue := s.queue[1..]), t, Got(s.queue[0]))
    case Timeout => Goto(s, t, TimedOut)
    case SubTimedOut => Goto(s.(sleeping := Sub1(s.sleeping)), t, if s.sleeping == 1 then Last else Stopped)
    case CasLast => if s.sleeping == 0 then Goto(s.(sleeping := 1), t, Waiting) else Goto(s, t, Stopped)
    case SubGot =>
      var s' := s.(sleeping := Sub1(s.sleeping));
      if s.sleeping == 1 then Goto(s', t, Starting(Some(pc.task))) else Begin(s', t, pc.task)
    case AddStarting => Goto(s.(sleeping := s.sleeping + 1), t, Spawning(pc.resume))
    case Spawn =>
      var s' := s.(threads := s.threads + [Waiting]);
      if pc.resume.Some? then Begin(s', t, pc.resume.value) else Goto(s'.(ready := true), t, Stopped)
    case Finish => Goto(s, t, Trying)
    case TryReceive =>
      if s.queue != [] then Begin(s.(queue := s.queue[1..]), t, s.queue[0]) else Goto(s, t, Checking)
    case LoadSleeping => Goto(s, t, if s.sleeping > 0 then Stopped else Returning)
    case AddReturning => Goto(s.(sleeping := s.sleeping + 1), t, Waiting)
  }

  ghost predicate Next(s: State, s': State) {
    exists t: nat, a :: Enabled(s, t, a) && s' == Apply(s, t, a)
  }

  ghost predicate Run(run: seq<State>) {
    |run| > 0 && Init(run[0]) && forall i | 0 <= i < |run| - 1 :: Next(run[i], run[i + 1])
  }

  // ----- the counter -----

  /** The threads SLEEPING stands for: those in recv_timeout or just back from it, and those announced. */
  predicate Counted(pc: Pc) { pc.Waiting? || pc.TimedOut? || pc.Got? || pc.Spawning? }

  /** A thread on its way to make SLEEPING positive again. */
  predicate Restoring(pc: Pc) { pc.Starting? || pc.Last? }

  ghost predicate SomeRestoring(s: State) { exists t :: 0 <= t < |s.threads| && Restoring(s.threads[t]) }

  ghost predicate Exact(s: State) { s.sleeping == Count(s.threads, Counted) }

  ghost predicate Listened(s: State) { s.sleeping >= 1 || SomeRestoring(s) }

  lemma OneThreadMoves(s: State, t: nat, a: Action)
    requires Enabled(s, t, a) && !a.Send?
    ensures var s' := Apply(s, t, a);
            t < |s'.threads|
            && s'.threads == (if a.Spawn? then s.threads + [Waiting] else s.threads)[t := s'.threads[t]]
  {
  }

  lemma SleepingFollows(s: State, t: nat, a: Action)
    requires Enabled(s, t, a) && !a.Send? && (Counted(s.threads[t]) ==> s.sleeping >= 1)
    ensures var s' := Apply(s, t, a);
            t < |s'.threads| &&
            s'.sleeping + Bit(Counted(s.threads[t])) == s.sleeping + Bit(Counted(s'.threads[t])) + Bit(a.Spawn?)
  {
    hide Apply, Counted;
    if a.SubGot? || a.Spawn? || a.TryReceive? { BeginnerSleeps(s, t, a); } else { OtherSleeps(s, t, a); }
  }

  lemma BeginnerSleeps(s: State, t: nat, a: Action)
    requires Enabled(s, t, a) && (a.SubGot? || a.Spawn? || a.TryReceive?) && (Counted(s.threads[t]) ==> s.sleeping >= 1)
    ensures var s' := Apply(s, t, a);
            t < |s'.threads| &&
            s'.sleeping + Bit(Counted(s.threads[t])) == s.sleeping + Bit(Counted(s'.threads[t])) + Bit(a.Spawn?)
  {
  }

  lemma OtherSleeps(s: State, t: nat, a: Action)
    requires Enabled(s, t, a) && !a.Send? && !a.SubGot? && !a.Spawn? && !a.TryReceive?
    requires Counted(s.threads[t]) ==> s.sleeping >= 1
    ensures var s' := Apply(s, t, a);
            |s'.threads| == |s.threads|
            && s'.sleeping + Bit(Counted(s.threads[t])) == s.sleeping + Bit(Counted(s'.threads[t]))
  {
  }

  lemma ExactKept(s: State, t: nat, a: Action)
    requires Exact(s) && Enabled(s, t, a)
    ensures Exact(Apply(s, t, a))
  {
    var s' := Apply(s, t, a);
    if !a.Send? {
      if Counted(s.threads[t]) { CountPositive(s.threads, t, Counted); }
      OneThreadMoves(s, t, a);
      SleepingFollows(s, t, a);
      hide Apply;
      CountSnoc(s.threads, Waiting, Counted);
      CountUpdate(if a.Spawn? then s.threads + [Waiting] else s.threads, t, s'.threads[t], Counted);
    }
  }

  lemma ListenedKept(s: State, t: nat, a: Action)
    requires Exact(s) && Listened(s) && Enabled(s, t, a)
    ensures Listened(Apply(s, t, a))
  {
    var s' := Apply(s, t, a);
    if Counted(s.threads[t]) { CountPositive(s.threads, t, Counted); }
    if s'.sleeping == 0 {
      if Restoring(s'.threads[t]) {
      } else {
        var u :| 0 <= u < |s.threads| && Restoring(s.threads[u]);
        assert s'.threads[u] == s.threads[u];
      }
    }
  }

  // ----- the tasks -----

  predicate Holds(pc: Pc, x: Task) {
    (pc.Got? && pc.task == x) || ((pc.Starting? || pc.Spawning?) && pc.resume == Some(x))
  }

  ghost predicate Conserved(s: State, x: Task) {
    s.sent[x] == s.started[x] + Copies(s.queue, x) + Count(s.threads, (pc: Pc) => Holds(pc, x))
  }

  lemma TasksFollow(s: State, t: nat, a: Action, x: Task)
    requires Enabled(s, t, a) && !a.Send?
    ensures var s' := Apply(s, t, a);
            && t < |s'.threads| && s'.sent == s.sent
            && s'.started[x] + Copies(s'.queue, x) + Bit(Holds(s'.threads[t], x)) ==
               s.started[x] + Copies(s.queue, x) + Bit(Holds(s.threads[t], x))
  {
    hide Copies;
    if a.Receive? || a.TryReceive? {
      if s.queue != [] { CopiesFirst(s.queue, x); }
    } else {
      HandsFollow(s, t, a, x);
    }
  }

  lemma HandsFollow(s: State, t: nat, a: Action, x: Task)
    requires Enabled(s, t, a) && !a.Send? && !a.Receive? && !a.TryReceive?
    ensures var s' := Apply(s, t, a);
            && t < |s'.threads| && s'.sent == s.sent && s'.queue == s.queue
            && s'.started[x] + Bit(Holds(s'.threads[t], x)) == s.started[x] + Bit(Holds(s.threads[t], x))
  {
    hide Apply, Holds;
    if a.SubGot? || a.Spawn? { BeginnerFollows(s, t, a, x); } else { IdleHandsFollow(s, t, a, x); }
  }

  lemma BeginnerFollows(s: State, t: nat, a: Action, x: Task)
    requires Enabled(s, t, a) && (a.SubGot? || a.Spawn?)
    ensures var s' := Apply(s, t, a);
            && t < |s'.threads| && s'.sent == s.sent && s'.queue == s.queue
            && s'.started[x] + Bit(Holds(s'.threads[t], x)) == s.started[x] + Bit(Holds(s.threads[t], x))
  {
  }

  lemma IdleHandsFollow(s: State, t: nat, a: Action, x: Task)
    requires Enabled(s, t, a) && !a.Send? && !a.Receive? && !a.TryReceive? && !a.SubGot? && !a.Spawn?
    ensures var s' := Apply(s, t, a);
            && t < |s'.threads| && s'.sent == s.sent && s'.queue == s.queue && s'.started == s.started
            && (Holds(s'.threads[t], x) <==> Holds(s.threads[t], x))
  {
  }

  lemma ConservedKept(s: State, t: nat, a: Action, x: Task)
    requires Conserved(s, x) && Enabled(s, t, a)
    ensures Conserved(Apply(s, t, a), x)
  {
    hide Copies, Holds;
    var s', holds := Apply(s, t, a), (pc: Pc) => Holds(pc, x);
    if a.Send? {
      CopiesSnoc(s.queue, a.task, x);
    } else {
      OneThreadMoves(s, t, a);
      TasksFollow(s, t, a, x);
      hide Apply;
      assert !Holds(Waiting, x) by { WaitingHoldsNothing(x); }
      CountSnoc(s.threads, Waiting, holds);
      CountUpdate(if a.Spawn? then s.threads + [Waiting] else s.threads, t, s'.threads[t], holds);
    }
  }

  lemma WaitingHoldsNothing(x: Task)
    ensures !Holds(Waiting, x)
  {
  }

  // ----- over every run -----

  ghost predicate Inv(s: State) { Exact(s) && Listened(s) && forall x: Task :: Conserved(s, x) }

  lemma StepKeepsInv(s: State, t: nat, a: Action)
    requires Inv(s) && Enabled(s, t, a)
    ensures Inv(Apply(s, t, a))
  {
    hide Apply, Exact, Listened, Conserved;
    ExactKept(s, t, a);
    ListenedKept(s, t, a);
    forall x: Task
      ensures Conserved(Apply(s, t, a), x)
    {
      ConservedKept(s, t, a, x);
    }
  }

  lemma InitEstablishesInv(s: State)
    requires Init(s)
    ensures Inv(s)
  {
    CountZero(s.threads, Counted);
    assert Restoring(s.threads[0]);
    forall x: Task
      ensures Conserved(s, x)
    {
      CountZero(s.threads, (pc: Pc) => Holds(pc, x));
    }
  }

  lemma {:induction false} RunKeepsInv(run: seq<State>, i: nat)
    requires Run(run) && i < |run|
    ensures Inv(run[i])
  {
    hide Inv, Apply, Enabled;
    if i == 0 {
      InitEstablishesInv(run[0]);
    } else {
      RunKeepsInv(run, i - 1);
      assert Next(run[i - 1], run[i - 1 + 1]);
      var t: nat, a :| Enabled(run[i - 1], t, a) && run[i] == Apply(run[i - 1], t, a);
      StepKeepsInv(run[i - 1], t, a);
    }
  }

  /** SLEEPING is the number of threads counted as waiting; it is at least 1, or a thread is committed to make
      it so; and a thread about to subtract itself always finds itself counted, so nothing wraps around. */
  lemma SleepingIsExact(run: seq<State>, i: nat)
    requires Run(run) && i < |run|
    ensures run[i].sleeping == Count(run[i].threads, Counted)
    ensures run[i].sleeping >= 1 || exists t :: 0 <= t < |run[i].threads| && Restoring(run[i].threads[t])
    ensures forall t | 0 <= t < |run[i].threads| ::
              run[i].threads[t].TimedOut? || run[i].threads[t].Got? ==> run[i].sleeping >= 1
  {
    RunKeepsInv(run, i);
    forall t | 0 <= t < |run[i].threads| && (run[i].threads[t].TimedOut? || run[i].threads[t].Got?)
      ensures run[i].sleeping >= 1
    {
      CountPositive(run[i].threads, t, Counted);
    }
  }

  /** However many threads are busy with tasks that never end: when no thread is between two of its own
      steps, one thread sits in recv_timeout and can take the next task. */
  lemma BusyPoolStillListens(run: seq<State>, i: nat)
    requires Run(run) && i < |run|
    requires forall t | 0 <= t < |run[i].threads| ::
               run[i].threads[t].Waiting? || run[i].threads[t].Running? || run[i].threads[t].Stopped?
    ensures exists t: nat ::
              t < |run[i].threads| && run[i].threads[t].Waiting? && (run[i].queue != [] ==> Enabled(run[i], t, Receive))
  {
    RunKeepsInv(run, i);
    var t := CountWitness(run[i].threads, Counted);
  }

  /** Every task sent is in the channel, in the hands of one thread, or started, exactly once. */
  lemma TasksAreConserved(run: seq<State>, i: nat, x: Task)
    requires Run(run) && i < |run|
    ensures run[i].sent[x] ==
            run[i].started[x] + Copies(run[i].queue, x) + Count(run[i].threads, (pc: Pc) => Holds(pc, x))
  {
    RunKeepsInv(run, i);
    assert Conserved(run[i], x);
  }

  // ----- the object -----

  /** The pool with its fields; each method is one atomic step of one thread. */
  class Pool {
    var sleeping: nat
    var queue: seq<Task>
    var threads: seq<Pc>
    var ready: bool
    ghost var sent: multiset<Task>
    ghost var started: multiset<Task>

    ghost function View(): State
      reads this
    {
      State(sleeping, queue, ready, threads, sent, started)
    }

    ghost predicate Valid()
      reads this
    {
      Inv(View())
    }

    constructor ()
      ensures Valid() && Init(View())
    {
      sleeping, queue, threads, ready := 0, [], [Starting(None)], false;
      sent, started := multiset{}, multiset{};
      new;
      InitEstablishesInv(View());
    }

    method SpawnBlocking(task: Task)
      requires Valid() && ready
      modifies this
      ensures Valid() && |threads| > 0 && View() == Apply(old(View()), 0, Send(task))
    {
      hide Inv;
      assert |threads| > 0 by { SomeThread(View()); }
      StepKeepsInv(View(), 0, Send(task));
      queue := queue + [task];
      sent := sent + multiset{task};
    }

    method ReceiveTimeout(t: nat, timedOut: bool)
      requires Valid() && t < |threads| && threads[t].Waiting? && (queue == [] ==> timedOut)
      modifies this
      ensures Valid() && View() == Apply(old(View()), t, if timedOut then Timeout else Receive)
    {
      hide Inv;
      StepKeepsInv(View(), t, if timedOut then Timeout else Receive);
      if timedOut {
        threads := threads[t := TimedOut];
      } else {
        threads := threads[t := Got(queue[0])];
        queue := queue[1..];
      }
    }

    /** The thread's `fetch_sub`, after a timeout or with a task in its hands. */
    method LeaveSleepers(t: nat)
      requires Valid() && t < |threads| && (threads[t].TimedOut? || threads[t].Got?)
      modifies this
      ensures Valid() && old(sleeping) >= 1 && sleeping == old(sleeping) - 1
      ensures View() == Apply(old(View()), t, if old(threads[t].TimedOut?) then SubTimedOut else SubGot)
    {
      StepKeepsInv(View(), t, if threads[t].TimedOut? then SubTimedOut else SubGot);
      CountPositive(threads, t, Counted);
      hide Inv;
      var previous := sleeping;
      sleeping := sleeping - 1;
      if threads[t].TimedOut? {
        threads := threads[t := if previous == 1 then Last else Stopped];
      } else if previous == 1 {
        threads := threads[t := Starting(Some(threads[t].task))];
      } else {
        started := started + multiset{threads[t].task};
        threads := threads[t := Running(threads[t].task)];
      }
    }

    method StayAsLastSleeper(t: nat) returns (stays: bool)
      requires Valid() && t < |threads| && threads[t].Last?
      modifies this
      ensures Valid() && View() == Apply(old(View()), t, CasLast)
      ensures stays <==> threads[t].Waiting?
    {
      hide Inv;
      StepKeepsInv(View(), t, CasLast);
      stays := sleeping == 0;
      if stays { sleeping := 1; }
      threads := threads[t := if stays then Waiting else Stopped];
    }

    /** `start_thread`: first the counter, then the thread. */
    method StartThread(t: nat)
      requires Valid() && t < |threads| && (threads[t].Starting? || threads[t].Spawning?)
      modifies this
      ensures Valid() && View() == Apply(old(View()), t, if old(threads[t].Starting?) then AddStarting else Spawn)
    {
      hide Inv;
      StepKeepsInv(View(), t, if threads[t].Starting? then AddStarting else Spawn);
      var resume := threads[t].resume;
      if threads[t].Starting? {
        sleeping := sleeping + 1;
        threads := threads[t := Spawning(resume)];
      } else {
        threads := threads + [Waiting];
        if resume.Some? {
          started := started + multiset{resume.value};
          threads := threads[t := Running(resume.value)];
        } else {
          ready := true;
          threads := threads[t := Stopped];
        }
      }
    }

    method TryReceiveNext(t: nat)
      requires Valid() && t < |threads| && threads[t].Trying?
      modifies this
      ensures Valid() && View() == Apply(old(View()), t, TryReceive)
    {
      hide Inv;
      StepKeepsInv(View(), t, TryReceive);
      if queue == [] {
        threads := threads[t := Checking];
      } else {
        started := started + multiset{queue[0]};
        threads := threads[t := Running(queue[0])];
        queue := queue[1..];
      }
    }

    method CheckSleeping(t: nat) returns (stops: bool)
      requires Valid() && t < |threads| && threads[t].Checking?
      modifies this
      ensures Valid() && View() == Apply(old(View()), t, LoadSleeping)
      ensures stops <==> threads[t].Stopped?
    {
      hide Inv;
      StepKeepsInv(View(), t, LoadSleeping);
      stops := sleeping > 0;
      threads := threads[t := if stops then Stopped else Returning];
    }

    method JoinSleepers(t: nat)
      requires Valid() && t < |threads| && threads[t].Returning?
      modifies this
      ensures Valid() && View() == Apply(old(View()), t, AddReturning)
    {
      hide Inv;
      StepKeepsInv(View(), t, AddReturning);
      sleeping := sleeping + 1;
      threads := threads[t := Waiting];
    }
  }

  lemma SomeThread(s: State)
    requires Inv(s)
    ensures |s.threads| > 0
  {
  }
}
