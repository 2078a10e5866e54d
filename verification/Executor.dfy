/** `src/task/executor/pool.rs` and `sleepers.rs`: worker threads that run tasks, and where they sleep.

    The first `workers` threads have a processor, the others only schedule tasks from outside. The crossbeam
    queues are atomic sequences that may ask a thief to retry. The mutex around `sleep` makes each critical
    section one step: the only access from outside it is the load of `notified`. */
module ExecutorProtocol {
  import opened Counting
  import opened Runs

  type Task = nat

  const SLOT_LIMIT: nat := 16
  const YIELDS: nat := 3
  const SLEEPS: nat := 1

  datatype Pc =
    | Outside                                         // not a worker, and not scheduling
    | Finding                                         // about to look into the slot
    | Popping                                         // about to pop the local queue
    | Stealing                                        // about to try the injector
    | Visiting(start: nat, tried: nat, retry: bool)   // about to try the next stealer
    | Found(task: Task)
    | Failed                                          // no runnable task: about to count the failure
    | Running
    | Displacing(task: Task)                          // took this task out of the slot, about to push it
    | Loading                                         // notify_one, about to load `notified`
    | Locking                                         // notify_one, about to lock `sleep`
    | Tired                                           // about to call wait
    | Blocked                                         // on the condition variable
    | Signalled                                       // woken, about to return from wait

  /** `calls` counts calls of find_runnable, `taken` the tasks that left the front of the local queue. */
  datatype Thread = Thread(
    slot: Option<Task>, runs: nat, local: seq<Task>, fails: nat, pc: Pc, calls: nat, taken: nat)

  /** `scheduled` and `started` record every call of schedule and every task given to run. */
  datatype State = State(
    workers: nat, threads: seq<Thread>, injector: seq<Task>, sleep: nat, notified: bool,
    scheduled: multiset<Task>, started: multiset<Task>)

  datatype Action =
    | TakeSlot
    | PopLocal
    | StealGlobal(got: nat, retry: bool, start: nat)  // the batch taken, and the random first stealer
    | StealPeer(got: nat, retry: bool)
    | Run
    | Finish
    | CountFail
    | Wait
    | Wake
    | Schedule(task: Task)
    | PushLocal
    | LoadNotified
    | LockSleep(sleeper: nat)                         // the thread the condition variable picks
    | Spurious                                        // the condition variable returns by itself

  ghost predicate Init(s: State) {
    && 0 < s.workers <= |s.threads|
    && s.injector == [] && s.sleep == 0 && !s.notified && s.scheduled == multiset{} && s.started == multiset{}
    && forall t | 0 <= t < |s.threads| ::
       s.threads[t] == Thread(None, 0, [], 0, if t < s.workers then Finding else Outside, 0, 0)
  }

  // ----- steps -----

  function Victim(s: State, pc: Pc): nat
    requires pc.Visiting? && s.workers > 0
  {
    (pc.start + pc.tried) % s.workers
  }

  predicate Batch(queue: seq<Task>, got: nat, retry: bool) {
    got <= |queue| && (got > 0 ==> !retry) && (got == 0 && !retry ==> queue == [])
  }

  ghost predicate SomeoneBlocked(s: State) { exists u :: 0 <= u < |s.threads| && s.threads[u].pc.Blocked? }

  ghost predicate Enabled(s: State, t: nat, a: Action) {
    t < |s.threads| && 0 < s.workers <= |s.threads| &&
    var pc := s.threads[t].pc;
    match a
    case TakeSlot => pc.Finding?
    case PopLocal => pc.Popping?
    case StealGlobal(got, retry, start) => pc.Stealing? && Batch(s.injector, got, retry) && start < s.workers
    case StealPeer(got, retry) => pc.Visiting? && Batch(s.threads[Victim(s, pc)].local, got, retry)
    case Run => pc.Found?
    case Finish => pc.Running?
    case CountFail => pc.Failed?
    case Wait => pc.Tired?
    case Wake => pc.Signalled?
    case Schedule(task) => if t < s.workers then pc.Running? else pc.Outside?
    case PushLocal => pc.Displacing?
    case LoadNotified => pc.Loading?
    case LockSleep(sleeper) =>
      pc.Locking? && sleeper < |s.threads| && (SomeoneBlocked(s) ==> s.threads[sleeper].pc.Blocked?)
    case Spurious => pc.Blocked?
  }

  function Put(s: State, t: nat, th: Thread): State
    requires t < |s.threads|
  {
    s.(threads := s.threads[t := th])
  }

  /** What schedule returns to. */
  function Home(s: State, t: nat): Pc { if t < s.workers then Running else Outside }

  /** The first task of a stolen batch is run, the others go to the thief's queue. */
  function Loaded(th: Thread, batch: seq<Task>): Thread
    requires batch != []
  {
    th.(local := th.local + batch[1..], pc := Found(batch[0]))
  }

  function Robbed(th: Thread, got: nat): Thread
    requires got <= |th.local|
  {
    th.(local := th.local[got..], taken := th.taken + got)
  }

  ghost function Apply(s: State, t: nat, a: Action): State
    requires Enabled(s, t, a)
  {
    if Searches(a) then SearchStep(s, t, a) else OtherStep(s, t, a)
  }

  predicate Searches(a: Action) { a.TakeSlot? || a.PopLocal? || a.StealGlobal? || a.StealPeer? }

  /** The steps of find_runnable. */
  ghost function SearchStep(s: State, t: nat, a: Action): State
    requires Enabled(s, t, a) && Searches(a)
  {
    var th := s.threads[t];
    match a
    case TakeSlot =>
      var th := th.(calls := th.calls + 1);
      if th.runs < SLOT_LIMIT && th.slot.Some?
      then Put(s, t, th.(slot := None, runs := th.runs + 1, pc := Found(th.slot.value)))
      else Put(s, t, th.(runs := 0, pc := Popping))
    case PopLocal =>
      if th.local != [] then Put(s, t, Robbed(th, 1).(pc := Found(th.local[0])))
      else Put(s, t, th.(pc := Stealing))
    case StealGlobal(got, retry, start) =>
      if got > 0 then Put(s.(injector := s.injector[got..]), t, Loaded(th, s.injector[..got]))
      else Put(s, t, th.(pc := Visiting(start, 0, retry)))
    case StealPeer(got, retry) =>
      if got > 0 then
        var victim := Victim(s, th.pc);
        var robbed := Put(s, victim, Robbed(s.threads[victim], got));
        Put(robbed, t, Loaded(robbed.threads[t], s.threads[victim].local[..got]))
      else Put(s, t, th.(pc := NextVisit(s.workers, th.pc, retry)))
  }

  /** The steps of main_loop, schedule, wait and notify_one. */
  ghost function OtherStep(s: State, t: nat, a: Action): State
    requires Enabled(s, t, a) && !Searches(a)
  {
    var th := s.threads[t];
    match a
    case Run => Put(s.(started := s.started + multiset{th.pc.task}), t, th.(fails := 0, pc := Running))
    case Finish => Put(s, t, th.(pc := Finding))
    case CountFail =>
      Put(s, t, th.(fails := th.fails + 1, pc := if th.fails + 1 <= YIELDS + SLEEPS then Finding else Tired))
    case Wait =>
      if s.notified then Put(s.(notified := false), t, th.(fails := 0, pc := Finding))
      else Put(s.(sleep := s.sleep + 1), t, th.(pc := Blocked))
    case Wake => Put(s, t, th.(fails := 0, pc := Finding))
    case Schedule(task) =>
      var s := s.(scheduled := s.scheduled + multiset{task});
      if t >= s.workers then Put(s.(injector := s.injector + [task]), t, th.(pc := Loading))
      else Put(s, t, th.(slot := Some(task), pc := if th.slot.Some? then Displacing(th.slot.value) else Running))
    case PushLocal => Put(s, t, th.(local := th.local + [th.pc.task], pc := Loading))
    case LoadNotified => Put(s, t, th.(pc := if s.notified then Home(s, t) else Locking))
    case LockSleep(sleeper) =>
      var s := Put(s, t, th.(pc := Home(s, t)));
      if s.sleep == 0 then s.(notified := true)
      else if s.threads[sleeper].pc.Blocked?
      then Put(s.(sleep := s.sleep - 1), sleeper, s.threads[sleeper].(pc := Signalled))
      else s.(sleep := s.sleep - 1)
    case Spurious => Put(s, t, th.(pc := Signalled))
  }

  /** The round over the stealers goes on; at its end the whole search is repeated if any steal asked for it. */
  function NextVisit(workers: nat, pc: Pc, retry: bool): Pc
    requires pc.Visiting?
  {
    var again := pc.retry || retry;
    if pc.tried + 1 < workers then Visiting(pc.start, pc.tried + 1, again) else if again then Stealing else Failed
  }

  ghost predicate Next(s: State, s': State) {
    exists t: nat, a :: Enabled(s, t, a) && s' == Apply(s, t, a)
  }

  /** A run; the condition variable may return by itself at any time. */
  ghost predicate Run(run: seq<State>) {
    |run| > 0 && Init(run[0]) && forall i | 0 <= i < |run| - 1 :: Next(run[i], run[i + 1])
  }

  // ----- one thread at a time -----

  /** A worker on its way to sleep has nothing left of its own. */
  predicate ThreadInv(th: Thread, worker: bool) {
    && th.runs <= SLOT_LIMIT
    && th.fails <= YIELDS + SLEEPS + 1
    && (worker ==> !th.pc.Outside?)
    && (!worker ==> (th.pc.Outside? || th.pc.Loading? || th.pc.Locking?) && th.slot == None && th.local == [])
    && (th.pc.Finding? ==>
          th.fails <= YIELDS + SLEEPS && (th.runs > 0 ==> th.fails == 0) && (th.slot.Some? ==> th.fails <= 1))
    && (th.pc.Popping? || th.pc.Stealing? || th.pc.Visiting? || th.pc.Failed? ==>
          th.runs == 0 && th.fails <= YIELDS + SLEEPS && (th.slot.Some? ==> th.fails == 0))
    && (th.pc.Running? || th.pc.Displacing? || ((th.pc.Loading? || th.pc.Locking?) && worker) ==> th.fails == 0)
    && (th.pc.Stealing? || th.pc.Visiting? || th.pc.Failed? ==> th.local == [])
    && (th.pc.Tired? || th.pc.Blocked? || th.pc.Signalled? ==> th.slot == None && th.local == [])
  }

  ghost predicate AllThreads(s: State) {
    && 0 < s.workers <= |s.threads|
    && (forall t | 0 <= t < |s.threads| :: ThreadInv(s.threads[t], t < s.workers))
  }

  lemma AllThreadsKept(s: State, t: nat, a: Action)
    requires AllThreads(s) && Enabled(s, t, a)
    ensures AllThreads(Apply(s, t, a))
  {
    forall u | 0 <= u < |s.threads|
      ensures ThreadInv(Apply(s, t, a).threads[u], u < s.workers)
    {
      if u == t { OwnThreadKept(s, t, a); } else { OtherThreadKept(s, t, a, u); }
    }
  }

  lemma OwnThreadKept(s: State, t: nat, a: Action)
    requires Enabled(s, t, a) && ThreadInv(s.threads[t], t < s.workers)
    ensures ThreadInv(Apply(s, t, a).threads[t], t < s.workers)
  {
    hide SearchStep, OtherStep;
    if Searches(a) { SearcherKept(s, t, a); } else { OtherKept(s, t, a); }
  }

  lemma SearcherKept(s: State, t: nat, a: Action)
    requires Enabled(s, t, a) && Searches(a) && ThreadInv(s.threads[t], t < s.workers)
    ensures ThreadInv(SearchStep(s, t, a).threads[t], t < s.workers)
  {
  }

  lemma OtherKept(s: State, t: nat, a: Action)
    requires Enabled(s, t, a) && !Searches(a) && ThreadInv(s.threads[t], t < s.workers)
    ensures ThreadInv(OtherStep(s, t, a).threads[t], t < s.workers)
  {
    hide OtherStep, ThreadInv;
    if a.Schedule? || a.LockSleep? { SchedulerKept(s, t, a); } else { LooperKept(s, t, a); }
  }

  lemma SchedulerKept(s: State, t: nat, a: Action)
    requires Enabled(s, t, a) && (a.Schedule? || a.LockSleep?) && ThreadInv(s.threads[t], t < s.workers)
    ensures ThreadInv(OtherStep(s, t, a).threads[t], t < s.workers)
  {
  }

  lemma LooperKept(s: State, t: nat, a: Action)
    requires Enabled(s, t, a) && !Searches(a) && !a.Schedule? && !a.LockSleep? && ThreadInv(s.threads[t], t < s.workers)
    ensures ThreadInv(OtherStep(s, t, a).threads[t], t < s.workers)
  {
  }

  lemma OneThreadMoves(s: State, t: nat, a: Action)
    requires Enabled(s, t, a) && !(a.StealPeer? && a.got > 0) && !a.LockSleep?
    ensures |Apply(s, t, a).threads| == |s.threads|
            && Apply(s, t, a).threads == s.threads[t := Apply(s, t, a).threads[t]]
  {
  }

  lemma OtherThreadKept(s: State, t: nat, a: Action, u: nat)
    requires Enabled(s, t, a) && u < |s.threads| && u != t && ThreadInv(s.threads[u], u < s.workers)
    ensures ThreadInv(Apply(s, t, a).threads[u], u < s.workers)
  {
    hide Apply, ThreadInv;
    if a.LockSleep? {
      SleeperKept(s, t, a.sleeper, u);
    } else if a.StealPeer? && a.got > 0 {
      VictimKept(s, t, a.got, a.retry, u);
    } else {
      OneThreadMoves(s, t, a);
    }
  }

  lemma SleeperKept(s: State, t: nat, sleeper: nat, u: nat)
    requires Enabled(s, t, LockSleep(sleeper)) && u < |s.threads| && u != t && ThreadInv(s.threads[u], u < s.workers)
    ensures ThreadInv(Apply(s, t, LockSleep(sleeper)).threads[u], u < s.workers)
  {
  }

  lemma VictimKept(s: State, t: nat, got: nat, retry: bool, u: nat)
    requires Enabled(s, t, StealPeer(got, retry)) && got > 0
    requires u < |s.threads| && u != t && ThreadInv(s.threads[u], u < s.workers)
    ensures ThreadInv(Apply(s, t, StealPeer(got, retry)).threads[u], u < s.workers)
  {
  }

  // ----- sleeping -----

  predicate IsBlocked(th: Thread) { th.pc.Blocked? }

  /** `sleep` counts every thread on the condition variable, and perhaps some that left it by themselves; a
      stored notification means that it counts nobody. */
  ghost predicate SleepCovers(s: State) {
    && Count(s.threads, IsBlocked) <= s.sleep
    && (s.notified ==> s.sleep == 0)
  }

  /** Apart from the two steps that move the condition variable, `sleep` and the blocked threads move together. */
  lemma SleepMoves(s: State, t: nat, a: Action)
    requires Enabled(s, t, a) && !a.LockSleep?
    ensures var s' := Apply(s, t, a);
            && s'.sleep - s.sleep == Count(s'.threads, IsBlocked) - Count(s.threads, IsBlocked) + Bit(a.Spurious?)
            && (s'.notified ==> s.notified && s'.sleep == s.sleep)
  {
    if a.StealPeer? && a.got > 0 {
      PeerStealWakesNobody(s, t, a.got, a.retry);
    } else {
      OneThreadMoves(s, t, a);
      CountUpdate(s.threads, t, Apply(s, t, a).threads[t], IsBlocked);
    }
  }

  lemma PeerStealWakesNobody(s: State, t: nat, got: nat, retry: bool)
    requires Enabled(s, t, StealPeer(got, retry)) && got > 0
    ensures var s' := Apply(s, t, StealPeer(got, retry));
            s'.sleep == s.sleep && s'.notified == s.notified
            && Count(s'.threads, IsBlocked) == Count(s.threads, IsBlocked)
  {
    var victim := Victim(s, s.threads[t].pc);
    var robbed := Robbed(s.threads[victim], got);
    var between := s.threads[victim := robbed];
    CountUpdate(s.threads, victim, robbed, IsBlocked);
    CountUpdate(between, t, Loaded(between[t], s.threads[victim].local[..got]), IsBlocked);
  }

  lemma LockSleepWakesOne(s: State, t: nat, sleeper: nat)
    requires Enabled(s, t, LockSleep(sleeper)) && SleepCovers(s)
    ensures var s' := Apply(s, t, LockSleep(sleeper));
            && s'.sleep == (if s.sleep > 0 then s.sleep - 1 else 0)
            && Count(s'.threads, IsBlocked) == (if SomeoneBlocked(s) then Count(s.threads, IsBlocked) - 1 else 0)
            && (s'.notified ==> s'.sleep == 0)
  {
    var home := s.threads[t := s.threads[t].(pc := Home(s, t))];
    CountUpdate(s.threads, t, home[t], IsBlocked);
    if SomeoneBlocked(s) {
      CountPositive(s.threads, sleeper, IsBlocked);
      CountUpdate(home, sleeper, home[sleeper].(pc := Signalled), IsBlocked);
    } else {
      CountZero(s.threads, IsBlocked);
    }
  }

  lemma SleepCoversKept(s: State, t: nat, a: Action)
    requires SleepCovers(s) && Enabled(s, t, a)
    ensures SleepCovers(Apply(s, t, a))
  {
    hide Apply;
    if a.LockSleep? { LockSleepWakesOne(s, t, a.sleeper); } else { SleepMoves(s, t, a); }
  }

  /** Without spurious returns the count stays exact. */
  lemma SleepExactKept(s: State, t: nat, a: Action)
    requires SleepCovers(s) && s.sleep == Count(s.threads, IsBlocked) && Enabled(s, t, a) && !a.Spurious?
    ensures Apply(s, t, a).sleep == Count(Apply(s, t, a).threads, IsBlocked)
  {
    hide Apply;
    if a.LockSleep? {
      LockSleepWakesOne(s, t, a.sleeper);
      if s.sleep > 0 { var u := CountWitness(s.threads, IsBlocked); }
    } else {
      SleepMoves(s, t, a);
    }
  }

  /** A thread that will notify, or a worker that will look into the injector before it sleeps. */
  predicate Helper(th: Thread) {
    match th.pc
    case Failed => th.fails < YIELDS + SLEEPS
    case Visiting(_, _, retry) => retry || th.fails < YIELDS + SLEEPS
    case Outside => false
    case Tired => false
    case Blocked => false
    case _ => true
  }

  ghost predicate SomeHelper(s: State) { exists u :: 0 <= u < |s.threads| && Helper(s.threads[u]) }

  ghost predicate Noticed(s: State) { s.injector != [] ==> s.notified || SomeHelper(s) }

  /** The step by which a task is left behind: `sleep` counts nobody but threads that left the condition variable
      by themselves, the notification is spent on one of those, and nobody else will look. */
  ghost predicate Strands(s: State, t: nat, a: Action) {
    && a.LockSleep? && s.sleep > 0 && !SomeoneBlocked(s) && s.injector != [] && t >= s.workers
    && forall u | 0 <= u < |s.threads| && u != t :: !Helper(s.threads[u])
  }

  /** A task in the injector stays noticed over every step but those. */
  lemma NoticedExactly(s: State, t: nat, a: Action)
    requires AllThreads(s) && SleepCovers(s) && Noticed(s) && Enabled(s, t, a)
    ensures !Noticed(Apply(s, t, a)) <==> Strands(s, t, a)
  {
    var s' := Apply(s, t, a);
    if a.LockSleep? {
      NotifierExactly(s, t, a.sleeper);
    } else if s'.injector != [] && !s'.notified && !Helper(s'.threads[t]) {
      assert ThreadInv(s.threads[t], t < s.workers);
      hide Apply;
      HelperStays(s, t, a);
    }
  }

  lemma NotifierExactly(s: State, t: nat, sleeper: nat)
    requires SleepCovers(s) && Noticed(s) && Enabled(s, t, LockSleep(sleeper))
    ensures !Noticed(Apply(s, t, LockSleep(sleeper))) <==> Strands(s, t, LockSleep(sleeper))
  {
    var s' := Apply(s, t, LockSleep(sleeper));
    if s.sleep > 0 {
      if SomeoneBlocked(s) {
        assert Helper(s'.threads[sleeper]);
      } else if t < s.workers {
        assert Helper(s'.threads[t]);
      } else if u :| 0 <= u < |s.threads| && u != t && Helper(s.threads[u]) {
        assert Helper(s'.threads[u]);
      }
    }
  }

  lemma HelperStays(s: State, t: nat, a: Action)
    requires Enabled(s, t, a) && ThreadInv(s.threads[t], t < s.workers) && Noticed(s) && !a.LockSleep?
    requires Apply(s, t, a).injector != [] && !Apply(s, t, a).notified && !Helper(Apply(s, t, a).threads[t])
    ensures SomeHelper(Apply(s, t, a))
  {
    var s' := Apply(s, t, a);
    assert s.injector != [] && !s.notified && !Helper(s.threads[t]);
    var u :| 0 <= u < |s.threads| && Helper(s.threads[u]);
    assert Helper(s'.threads[u]);
  }

  // ----- conservation -----

  /** How often a thread has task `x`: in its slot, in its queue and in its hands. */
  function Held(th: Thread, x: Task): nat {
    Bit(th.slot == Some(x)) + Copies(th.local, x) + Bit((th.pc.Found? || th.pc.Displacing?) && th.pc.task == x)
  }

  function AllHeld(threads: seq<Thread>, x: Task): nat {
    if threads == [] then 0 else AllHeld(threads[..|threads| - 1], x) + Held(threads[|threads| - 1], x)
  }

  lemma {:induction false} AllHeldUpdate(threads: seq<Thread>, i: nat, th: Thread, x: Task)
    requires i < |threads|
    ensures AllHeld(threads[i := th], x) + Held(threads[i], x) == AllHeld(threads, x) + Held(th, x)
  {
    hide Held;
    var n := |threads| - 1;
    if i == n {
      assert threads[i := th][..n] == threads[..n];
    } else {
      assert threads[i := th][..n] == threads[..n][i := th];
      AllHeldUpdate(threads[..n], i, th, x);
    }
  }

  /** Every scheduled copy of `x` has been started or waits somewhere. */
  ghost predicate Conserved(s: State, x: Task) {
    s.scheduled[x] == s.started[x] + Copies(s.injector, x) + AllHeld(s.threads, x)
  }

  lemma RobbedHolds(th: Thread, got: nat, x: Task)
    requires got <= |th.local|
    ensures Held(th, x) == Held(Robbed(th, got), x) + Copies(th.local[..got], x)
  {
    CopiesSplit(th.local, got, x);
  }

  lemma LoadedHolds(th: Thread, batch: seq<Task>, x: Task)
    requires batch != [] && !th.pc.Found? && !th.pc.Displacing?
    ensures Held(Loaded(th, batch), x) == Held(th, x) + Copies(batch, x)
  {
    CopiesSplit(batch, 1, x);
    CopiesFirst(batch, x);
  }

  /** What a step of one thread adds to one side it takes from the other. */
  ghost predicate Balanced(s: State, s': State, t: nat, x: Task)
    requires t < |s.threads| == |s'.threads|
  {
    s'.scheduled[x] + s.started[x] + Copies(s.injector, x) + Held(s.threads[t], x) ==
    s.scheduled[x] + s'.started[x] + Copies(s'.injector, x) + Held(s'.threads[t], x)
  }

  lemma SearchBalances(s: State, t: nat, a: Action, x: Task)
    requires Enabled(s, t, a) && Searches(a) && !(a.StealPeer? && a.got > 0)
    ensures Balanced(s, SearchStep(s, t, a), t, x)
  {
    hide Copies;
    var th := s.threads[t];
    if a.PopLocal? && th.local != [] {
      RobbedHolds(th, 1, x);
      CopiesFirst(th.local, x);
    } else if a.StealGlobal? && a.got > 0 {
      CopiesSplit(s.injector, a.got, x);
      LoadedHolds(th, s.injector[..a.got], x);
    }
  }

  lemma OtherBalances(s: State, t: nat, a: Action, x: Task)
    requires Enabled(s, t, a) && !Searches(a) && !a.LockSleep?
    ensures Balanced(s, OtherStep(s, t, a), t, x)
  {
    hide Copies;
    if a.Schedule? {
      CopiesSnoc(s.injector, a.task, x);
    } else if a.PushLocal? {
      CopiesSnoc(s.threads[t].local, s.threads[t].pc.task, x);
    }
  }

  lemma ConservedKept(s: State, t: nat, a: Action, x: Task)
    requires Conserved(s, x) && Enabled(s, t, a)
    ensures Conserved(Apply(s, t, a), x)
  {
    hide Held, Copies;
    if a.StealPeer? && a.got > 0 {
      PeerStealConserves(s, t, a.got, a.retry, x);
    } else if a.LockSleep? {
      LockSleepConserves(s, t, a.sleeper, x);
    } else {
      var s' := Apply(s, t, a);
      OneThreadMoves(s, t, a);
      AllHeldUpdate(s.threads, t, s'.threads[t], x);
      hide SearchStep, OtherStep;
      if Searches(a) { SearchBalances(s, t, a, x); } else { OtherBalances(s, t, a, x); }
    }
  }

  lemma PeerStealConserves(s: State, t: nat, got: nat, retry: bool, x: Task)
    requires Conserved(s, x) && Enabled(s, t, StealPeer(got, retry)) && got > 0
    ensures Conserved(Apply(s, t, StealPeer(got, retry)), x)
  {
    hide Held, Copies;
    var victim := Victim(s, s.threads[t].pc);
    var robbed := Robbed(s.threads[victim], got);
    var between := s.threads[victim := robbed];
    var batch := s.threads[victim].local[..got];
    AllHeldUpdate(s.threads, victim, robbed, x);
    RobbedHolds(s.threads[victim], got, x);
    AllHeldUpdate(between, t, Loaded(between[t], batch), x);
    LoadedHolds(between[t], batch, x);
  }

  lemma LockSleepConserves(s: State, t: nat, sleeper: nat, x: Task)
    requires Conserved(s, x) && Enabled(s, t, LockSleep(sleeper))
    ensures Conserved(Apply(s, t, LockSleep(sleeper)), x)
  {
    hide Held, Copies;
    var home := s.threads[t := s.threads[t].(pc := Home(s, t))];
    HeldByHands(s.threads[t], Home(s, t), x);
    AllHeldUpdate(s.threads, t, home[t], x);
    if home[sleeper].pc.Blocked? {
      HeldByHands(home[sleeper], Signalled, x);
      AllHeldUpdate(home, sleeper, home[sleeper].(pc := Signalled), x);
    }
  }

  /** Without a task in its hands before or after, a thread holds what it held. */
  lemma HeldByHands(th: Thread, pc: Pc, x: Task)
    requires !th.pc.Found? && !th.pc.Displacing? && !pc.Found? && !pc.Displacing?
    ensures Held(th.(pc := pc), x) == Held(th, x)
  {
  }

  // ----- what holds over every run -----

  ghost predicate Inv(s: State) {
    AllThreads(s) && SleepCovers(s) && forall x: Task :: Conserved(s, x)
  }

  lemma StepKeepsShape(s: State, t: nat, a: Action)
    requires Enabled(s, t, a)
    ensures Apply(s, t, a).workers == s.workers && |Apply(s, t, a).threads| == |s.threads|
  {
  }

  lemma StepKeepsInv(s: State, t: nat, a: Action)
    requires Inv(s) && Enabled(s, t, a)
    ensures Inv(Apply(s, t, a))
    ensures Apply(s, t, a).workers == s.workers && |Apply(s, t, a).threads| == |s.threads|
  {
    StepKeepsShape(s, t, a);
    hide Apply, Conserved, SleepCovers;
    AllThreadsKept(s, t, a);
    SleepCoversKept(s, t, a);
    forall x: Task
      ensures Conserved(Apply(s, t, a), x)
    {
      ConservedKept(s, t, a, x);
    }
  }

  lemma {:induction false} NothingHeldAtFirst(threads: seq<Thread>, x: Task)
    requires forall t | 0 <= t < |threads| :: Held(threads[t], x) == 0
    ensures AllHeld(threads, x) == 0
  {
    if threads != [] { NothingHeldAtFirst(threads[..|threads| - 1], x); }
  }

  lemma InitEstablishesInv(s: State)
    requires Init(s)
    ensures Inv(s) && Noticed(s) && s.sleep == Count(s.threads, IsBlocked)
  {
    CountZero(s.threads, IsBlocked);
    forall x: Task
      ensures Conserved(s, x)
    {
      NothingHeldAtFirst(s.threads, x);
    }
  }

  lemma {:induction false} RunKeepsInv(run: seq<State>, i: nat)
    requires Run(run) && i < |run|
    ensures Inv(run[i]) && run[i].workers == run[0].workers && |run[i].threads| == |run[0].threads|
  {
    hide Inv, Apply, Enabled;
    if i == 0 {
      InitEstablishesInv(run[0]);
    } else {
      RunKeepsInv(run, i - 1);
      assert Next(run[i - 1], run[i - 1 + 1]);
      var t: nat, a :| Enabled(run[i - 1], t, a) && run[i] == Apply(run[i - 1], t, a);
      StepKeepsInv(run[i - 1], t, a);
    }
  }

  /** Tasks are neither lost nor duplicated, and a worker sleeps only with nothing in its slot or queue. */
  lemma TasksAreConserved(run: seq<State>, i: nat, x: Task, t: nat)
    requires Run(run) && i < |run| && t < |run[i].threads|
    ensures run[i].scheduled[x] == run[i].started[x] + Copies(run[i].injector, x) + AllHeld(run[i].threads, x)
    ensures run[i].threads[t].pc.Tired? || run[i].threads[t].pc.Blocked? ==>
              run[i].threads[t].slot == None && run[i].threads[t].local == []
  {
    RunKeepsInv(run, i);
    assert ThreadInv(run[i].threads[t], t < run[i].workers);
    assert Conserved(run[i], x);
  }

  /** No guard of a step ever stops a thread: one that is not idle outside or asleep always has a next step. */
  lemma NeverStuck(run: seq<State>, i: nat, t: nat) returns (a: Action)
    requires Run(run) && i < |run| && t < |run[i].threads|
    requires !run[i].threads[t].pc.Outside? && !run[i].threads[t].pc.Blocked?
    ensures Enabled(run[i], t, a) && !a.Spurious?
  {
    RunKeepsInv(run, i);
    assert ThreadInv(run[i].threads[t], t < run[i].workers);
    a := NextOf(run[i], t);
  }

  lemma NextOf(s: State, t: nat) returns (a: Action)
    requires AllThreads(s) && t < |s.threads| && !s.threads[t].pc.Outside? && !s.threads[t].pc.Blocked?
    ensures Enabled(s, t, a) && !a.Spurious?
  {
    match s.threads[t].pc
    case Finding => a := TakeSlot;
    case Popping => a := PopLocal;
    case Stealing => a := StealGlobal(if s.injector == [] then 0 else 1, false, 0);
    case Visiting(_, _, _) => a := StealPeer(if s.threads[Victim(s, s.threads[t].pc)].local == [] then 0 else 1, false);
    case Found(_) => a := Action.Run;
    case Failed => a := CountFail;
    case Running => a := Finish;
    case Displacing(_) => a := PushLocal;
    case Loading => a := LoadNotified;
    case Locking =>
      if u :| 0 <= u < |s.threads| && s.threads[u].pc.Blocked? { a := LockSleep(u); } else { a := LockSleep(0); }
    case Tired => a := Wait;
    case Signalled => a := Wake;
  }

  // ----- when a task is left behind -----

  datatype Step = Step(thread: nat, action: Action)

  /** A run with its steps. */
  ghost predicate Trace(run: seq<State>, steps: seq<Step>) {
    && |run| == |steps| + 1 && Init(run[0])
    && forall i | 0 <= i < |steps| ::
         Enabled(run[i], steps[i].thread, steps[i].action)
         && run[i + 1] == Apply(run[i], steps[i].thread, steps[i].action)
  }

  lemma TraceIsRun(run: seq<State>, steps: seq<Step>)
    requires Trace(run, steps)
    ensures Run(run)
  {
    hide Apply, Enabled;
    forall i | 0 <= i < |run| - 1
      ensures Next(run[i], run[i + 1])
    {
      assert Enabled(run[i], steps[i].thread, steps[i].action);
    }
  }

  ghost predicate StrandsAt(run: seq<State>, steps: seq<Step>, i: nat)
    requires i < |steps| && i < |run|
  {
    Strands(run[i], steps[i].thread, steps[i].action)
  }

  /** Tasks in the injector stay noticed throughout a run if and only if no notification of it is spent on a
      thread that left the condition variable by itself while nobody else would look. */
  lemma {:induction false} NoticedUnlessStranded(run: seq<State>, steps: seq<Step>, n: nat)
    requires Trace(run, steps) && n <= |steps|
    ensures (forall i: nat | i <= n :: Noticed(run[i])) <==> (forall i: nat | i < n :: !StrandsAt(run, steps, i))
  {
    hide Apply, Enabled, Noticed, Strands, Inv;
    if n == 0 {
      InitEstablishesInv(run[0]);
    } else {
      NoticedUnlessStranded(run, steps, n - 1);
      if Noticed(run[n - 1]) {
        TraceIsRun(run, steps);
        RunKeepsInv(run, n - 1);
        OneMoreStep(run, steps, n - 1);
      }
    }
  }

  lemma OneMoreStep(run: seq<State>, steps: seq<Step>, i: nat)
    requires Trace(run, steps) && i < |steps| && Inv(run[i]) && Noticed(run[i])
    ensures !Noticed(run[i + 1]) <==> StrandsAt(run, steps, i)
  {
    hide Apply, Enabled, Noticed, Strands, Conserved, AllThreads, SleepCovers;
    NoticedExactly(run[i], steps[i].thread, steps[i].action);
  }

  /** While the injector holds a task there is a stored notification, or a thread that has not finished its
      notify_one, or a worker that will look into the injector before it can sleep. */
  lemma InjectedTaskIsNoticed(run: seq<State>, steps: seq<Step>, i: nat)
    requires Trace(run, steps) && i < |run| && run[i].injector != []
    requires forall j: nat | j < i :: !StrandsAt(run, steps, j)
    ensures run[i].notified || exists u :: 0 <= u < |run[i].threads| && Helper(run[i].threads[u])
  {
    NoticedUnlessStranded(run, steps, i);
    assert Noticed(run[i]);
  }

  /** Without spurious returns `sleep` is exact, and no task is ever stranded. */
  lemma {:induction false} NothingStrandedUnprovoked(run: seq<State>, steps: seq<Step>, i: nat)
    requires Trace(run, steps) && i < |run| && forall j | 0 <= j < i :: !steps[j].action.Spurious?
    ensures run[i].sleep == Count(run[i].threads, IsBlocked)
    ensures i < |steps| ==> !StrandsAt(run, steps, i)
  {
    hide Apply, Enabled, Inv;
    if i == 0 {
      InitEstablishesInv(run[0]);
    } else {
      NothingStrandedUnprovoked(run, steps, i - 1);
      TraceIsRun(run, steps);
      RunKeepsInv(run, i - 1);
      InvCovers(run[i - 1]);
      SleepExactKept(run[i - 1], steps[i - 1].thread, steps[i - 1].action);
    }
    if run[i].sleep > 0 { var u := CountWitness(run[i].threads, IsBlocked); }
  }

  lemma InvCovers(s: State)
    requires Inv(s)
    ensures AllThreads(s) && SleepCovers(s)
  {
  }

  ghost predicate AllAsleep(s: State) {
    forall t | 0 <= t < |s.threads| :: if t < s.workers then s.threads[t].pc.Blocked? else s.threads[t].pc.Outside?
  }

  /** When every worker sleeps and nobody is scheduling, everything that was ever scheduled has been started or
      lies in the injector. */
  lemma AsleepHoldsNothing(run: seq<State>, i: nat)
    requires Run(run) && i < |run| && AllAsleep(run[i])
    ensures run[i].scheduled == run[i].started + multiset(run[i].injector)
    ensures !run[i].notified && run[i].sleep >= run[i].workers
  {
    var s := run[i];
    RunKeepsInv(run, i);
    CountPositive(s.threads, 0, IsBlocked);
    forall x: Task
      ensures s.scheduled[x] == (s.started + multiset(s.injector))[x]
    {
      assert Conserved(s, x);
      forall t | 0 <= t < |s.threads|
        ensures Held(s.threads[t], x) == 0
      {
        assert ThreadInv(s.threads[t], t < s.workers);
      }
      NothingHeldAtFirst(s.threads, x);
    }
    assert forall x :: x in s.scheduled <==> x in s.started + multiset(s.injector);
    CountPrefix(s.threads, s.workers, |s.threads|);
    assert s.threads[..|s.threads|] == s.threads;
  }

  /** Unless a notification was spent on nobody, everything scheduled has then been started. */
  lemma AsleepMeansFinished(run: seq<State>, steps: seq<Step>, i: nat)
    requires Trace(run, steps) && i < |run| && AllAsleep(run[i])
    requires forall j: nat | j < i :: !StrandsAt(run, steps, j)
    ensures run[i].injector == [] && run[i].scheduled == run[i].started
  {
    TraceIsRun(run, steps);
    AsleepHoldsNothing(run, i);
    if run[i].injector != [] { InjectedTaskIsNoticed(run, steps, i); }
  }

  lemma {:induction false} CountPrefix(threads: seq<Thread>, workers: nat, n: nat)
    requires workers <= n <= |threads|
    requires forall t | 0 <= t < n :: threads[t].pc.Blocked? <==> t < workers
    ensures Count(threads[..n], IsBlocked) == workers
    decreases n
  {
    if n > 0 {
      assert threads[..n][..n - 1] == threads[..n - 1];
      CountPrefix(threads, if n == workers then workers - 1 else workers, n - 1);
    }
  }

  // ----- fairness of the local queue -----

  /** Calls of find_runnable are paid for by tasks taken from the queue, at most 16 slot runs apart. */
  function Paid(th: Thread): nat { 17 * th.taken + if th.pc.Popping? then 17 else th.runs }

  /** The queue moved up by as many places as tasks left its front, and got longer at the back only. */
  ghost predicate MovedUp(before: Thread, after: Thread) {
    && before.taken <= after.taken <= before.taken + |before.local|
    && before.local[after.taken - before.taken..] <= after.local
  }

  ghost predicate PaidFor(before: Thread, after: Thread) {
    after.calls - before.calls <= Paid(after) - Paid(before)
  }

  lemma StepMovesUp(s: State, t: nat, a: Action, w: nat)
    requires AllThreads(s) && Enabled(s, t, a) && w < |s.threads|
    ensures |Apply(s, t, a).threads| == |s.threads|
    ensures MovedUp(s.threads[w], Apply(s, t, a).threads[w])
    ensures s.threads[w].local != [] ==> PaidFor(s.threads[w], Apply(s, t, a).threads[w])
  {
    hide SearchStep, OtherStep, MovedUp, PaidFor;
    assert ThreadInv(s.threads[t], t < s.workers);
    if w != t {
      OthersMoveUp(s, t, a, w);
    } else if Searches(a) {
      SearcherMovesUp(s, t, a);
    } else {
      OtherMovesUp(s, t, a);
    }
  }

  lemma OthersMoveUp(s: State, t: nat, a: Action, w: nat)
    requires Enabled(s, t, a) && w < |s.threads| && w != t
    ensures |Apply(s, t, a).threads| == |s.threads|
    ensures MovedUp(s.threads[w], Apply(s, t, a).threads[w]) && PaidFor(s.threads[w], Apply(s, t, a).threads[w])
  {
    hide Apply, MovedUp, PaidFor;
    OthersChange(s, t, a, w);
    var before, after := s.threads[w], Apply(s, t, a).threads[w];
    if a.StealPeer? && a.got > 0 && w == Victim(s, s.threads[t].pc) {
      RobbedMovesUp(before, a.got);
    } else {
      OthersPay(before, after);
    }
  }

  /** What a step does to a thread that does not take it. */
  lemma OthersChange(s: State, t: nat, a: Action, w: nat)
    requires Enabled(s, t, a) && w < |s.threads| && w != t
    ensures |Apply(s, t, a).threads| == |s.threads|
    ensures var before, after := s.threads[w], Apply(s, t, a).threads[w];
            if a.StealPeer? && a.got > 0 && w == Victim(s, s.threads[t].pc)
            then a.got <= |before.local| && after == Robbed(before, a.got)
            else after == before || (before.pc.Blocked? && after == before.(pc := Signalled))
  {
    StepKeepsShape(s, t, a);
    if !a.LockSleep? && !a.StealPeer? {
      hide Apply;
      OneThreadMoves(s, t, a);
    }
  }

  lemma RobbedMovesUp(th: Thread, got: nat)
    requires got <= |th.local|
    ensures MovedUp(th, Robbed(th, got)) && PaidFor(th, Robbed(th, got))
  {
  }

  lemma SearcherMovesUp(s: State, t: nat, a: Action)
    requires Enabled(s, t, a) && Searches(a) && ThreadInv(s.threads[t], t < s.workers)
    ensures |SearchStep(s, t, a).threads| == |s.threads|
    ensures var before, after := s.threads[t], SearchStep(s, t, a).threads[t];
            MovedUp(before, after) && (before.local != [] ==> PaidFor(before, after))
  {
    hide MovedUp, PaidFor;
    assert s.threads[t].runs <= SLOT_LIMIT
           && (s.threads[t].pc.Stealing? || s.threads[t].pc.Visiting? ==> s.threads[t].local == []);
    hide ThreadInv;
    if a.TakeSlot? {
      SlotMovesUp(s.threads[t], SearchStep(s, t, a).threads[t]);
    } else if a.PopLocal? {
      PopMovesUp(s.threads[t], SearchStep(s, t, a).threads[t]);
    } else {
      ThiefMovesUp(s.threads[t], SearchStep(s, t, a).threads[t]);
    }
  }

  lemma SlotMovesUp(before: Thread, after: Thread)
    requires before.pc.Finding? && before.runs <= SLOT_LIMIT
    requires after.taken == before.taken && after.local == before.local && after.calls == before.calls + 1
    requires if before.runs < SLOT_LIMIT && before.slot.Some? then after.runs == before.runs + 1 && after.pc.Found?
             else after.pc.Popping?
    ensures MovedUp(before, after) && PaidFor(before, after)
  {
  }

  lemma PopMovesUp(before: Thread, after: Thread)
    requires before.pc.Popping? && after.calls == before.calls && !after.pc.Popping?
    requires if before.local != [] then after.local == before.local[1..] && after.taken == before.taken + 1
             else after.local == [] && after.taken == before.taken
    ensures MovedUp(before, after) && (before.local != [] ==> PaidFor(before, after))
  {
  }

  lemma ThiefMovesUp(before: Thread, after: Thread)
    requires before.local == [] && after.taken == before.taken
    ensures MovedUp(before, after)
  {
  }

  lemma OtherMovesUp(s: State, t: nat, a: Action)
    requires Enabled(s, t, a) && !Searches(a)
    ensures |OtherStep(s, t, a).threads| == |s.threads|
    ensures MovedUp(s.threads[t], OtherStep(s, t, a).threads[t]) && PaidFor(s.threads[t], OtherStep(s, t, a).threads[t])
  {
    hide MovedUp, PaidFor;
    OthersPay(s.threads[t], OtherStep(s, t, a).threads[t]);
  }

  lemma OthersPay(before: Thread, after: Thread)
    requires after.taken == before.taken && after.calls == before.calls && after.runs == before.runs
    requires before.local <= after.local && (before.pc.Popping? <==> after.pc.Popping?)
    ensures MovedUp(before, after) && PaidFor(before, after)
  {
  }

  /** As long as fewer than d + 1 tasks have left the front, the task at depth d is still there, that much
      closer to the front, and every call of find_runnable has been paid for. */
  ghost predicate StillThere(before: Thread, after: Thread, d: nat)
    requires d < |before.local| && before.taken <= after.taken
  {
    var left := after.taken - before.taken;
    left <= d ==> d - left < |after.local| && after.local[d - left] == before.local[d] && PaidFor(before, after)
  }

  lemma StillThereAfter(before: Thread, middle: Thread, after: Thread, d: nat)
    requires d < |before.local| && before.taken <= middle.taken && StillThere(before, middle, d)
    requires MovedUp(middle, after) && (middle.local != [] ==> PaidFor(middle, after))
    ensures before.taken <= after.taken && StillThere(before, after, d)
  {
    if after.taken - before.taken <= d {
      var at, up := d - (middle.taken - before.taken), after.taken - middle.taken;
      assert middle.local[up..][at - up] == middle.local[at];
    }
  }

  lemma {:induction false} WaitingTaskMovesUp(run: seq<State>, i: nat, j: nat, w: nat, d: nat)
    requires Run(run) && i <= j < |run| && w < |run[i].threads| && d < |run[i].threads[w].local|
    ensures w < |run[j].threads| && run[i].threads[w].taken <= run[j].threads[w].taken
    ensures StillThere(run[i].threads[w], run[j].threads[w], d)
  {
    if i < j {
      hide Inv, Apply, Enabled, AllThreads, MovedUp, PaidFor, StillThere;
      WaitingTaskMovesUp(run, i, j - 1, w, d);
      RunKeepsInv(run, j - 1);
      InvHasThreads(run[j - 1]);
      RunSteps(run, j - 1);
      hide Run;
      var t: nat, a :| Enabled(run[j - 1], t, a) && run[j] == Apply(run[j - 1], t, a);
      StepMovesUp(run[j - 1], t, a, w);
      StillThereAfter(run[i].threads[w], run[j - 1].threads[w], run[j].threads[w], d);
    } else {
      assert StillThere(run[i].threads[w], run[i].threads[w], d);
    }
  }

  lemma InvHasThreads(s: State)
    requires Inv(s)
    ensures AllThreads(s)
  {
  }

  lemma RunSteps(run: seq<State>, i: nat)
    requires Run(run) && i + 1 < |run|
    ensures Next(run[i], run[i + 1])
  {
  }

  /** A task at depth d of a local queue has left it once its worker has called `find_runnable` 17 * (d + 1) further
      times and is not about to pop the queue. */
  lemma LocalQueueIsFair(run: seq<State>, i: nat, j: nat, w: nat, d: nat)
    requires Run(run) && i <= j < |run| && w < run[i].workers <= |run[i].threads| && d < |run[i].threads[w].local|
    requires w < |run[j].threads| && !run[j].threads[w].pc.Popping?
    requires run[j].threads[w].calls - run[i].threads[w].calls >= 17 * (d + 1)
    ensures run[j].threads[w].taken > run[i].threads[w].taken + d
  {
    WaitingTaskMovesUp(run, i, j, w, d);
    RunKeepsInv(run, j);
    assert ThreadInv(run[j].threads[w], w < run[j].workers);
  }

  // ----- a run that leaves a task behind -----

  lemma ReachStep(s: State, middle: State, t: nat, a: Action, end: State)
    requires Reaches(Next, s, middle) && Enabled(middle, t, a)
    requires Apply(middle, t, a).(threads := end.threads) == end && Apply(middle, t, a).threads == end.threads
    ensures Reaches(Next, s, end)
  {
    hide Apply, Enabled, Reaches;
    ReachNext(Next, s, middle, end);
  }

  /** One worker and one thread outside it. */
  function Pair(worker: Pc, fails: nat, calls: nat, other: Pc, injector: seq<Task>, sleep: nat): State {
    State(1, [Thread(None, 0, [], fails, worker, calls, 0), Thread(None, 0, [], 0, other, 0, 0)],
          injector, sleep, false,
          multiset(injector), multiset{})
  }

  function OneIdle(pc: Pc, fails: nat, calls: nat, sleep: nat): State { Pair(pc, fails, calls, Outside, [], sleep) }

  lemma SearchFails(s: State, fails: nat, calls: nat, sleep: nat)
    requires fails <= YIELDS + SLEEPS && Reaches(Next, s, OneIdle(Finding, fails, calls, sleep))
    ensures Reaches(Next, s, OneIdle(if fails < YIELDS + SLEEPS then Finding else Tired, fails + 1, calls + 1, sleep))
  {
    hide Reaches;
    var popping, stealing := OneIdle(Popping, fails, calls + 1, sleep), OneIdle(Stealing, fails, calls + 1, sleep);
    var visiting := OneIdle(Visiting(0, 0, false), fails, calls + 1, sleep);
    var failed := OneIdle(Failed, fails, calls + 1, sleep);
    ReachStep(s, OneIdle(Finding, fails, calls, sleep), 0, TakeSlot, popping);
    ReachStep(s, popping, 0, PopLocal, stealing);
    ReachStep(s, stealing, 0, StealGlobal(0, false, 0), visiting);
    ReachStep(s, visiting, 0, StealPeer(0, false), failed);
    ReachStep(s, failed, 0, CountFail,
              OneIdle(if fails < YIELDS + SLEEPS then Finding else Tired, fails + 1, calls + 1, sleep));
  }

  lemma WorkerTires(s: State, calls: nat, sleep: nat)
    requires Reaches(Next, s, OneIdle(Finding, 0, calls, sleep))
    ensures Reaches(Next, s, OneIdle(Tired, 5, calls + 5, sleep))
  {
    hide Reaches, OneIdle;
    SearchFails(s, 0, calls, sleep);
    SearchFails(s, 1, calls + 1, sleep);
    SearchFails(s, 2, calls + 2, sleep);
    SearchFails(s, 3, calls + 3, sleep);
    SearchFails(s, 4, calls + 4, sleep);
  }

  /** It can happen: after one spurious return `sleep` counts a thread that is awake, and the next notification is
      spent on it. A task lies in the injector, the worker sleeps, and nobody will wake it. */
  lemma SpuriousReturnStrandsTask() returns (start: State, s: State)
    ensures Init(start) && Reaches(Next, start, s)
    ensures s.injector != [] && !s.notified && forall t | 0 <= t < |s.threads| :: !Helper(s.threads[t])
  {
    start := OneIdle(Finding, 0, 0, 0);
    ReachSelf(Next, start);
    hide Reaches;
    WorkerTires(start, 0, 0);
    SleepsAndReturns(start);
    WorkerTires(start, 5, 1);
    s := Pair(Blocked, 5, 10, Outside, [7], 1);
    PushIsMissed(start);
  }

  lemma SleepsAndReturns(start: State)
    requires Reaches(Next, start, OneIdle(Tired, 5, 5, 0))
    ensures Reaches(Next, start, OneIdle(Finding, 0, 5, 1))
  {
    hide Reaches;
    ReachStep(start, OneIdle(Tired, 5, 5, 0), 0, Wait, OneIdle(Blocked, 5, 5, 1));
    ReachStep(start, OneIdle(Blocked, 5, 5, 1), 0, Spurious, OneIdle(Signalled, 5, 5, 1));
    ReachStep(start, OneIdle(Signalled, 5, 5, 1), 0, Wake, OneIdle(Finding, 0, 5, 1));
  }

  lemma PushIsMissed(start: State)
    requires Reaches(Next, start, OneIdle(Tired, 5, 10, 1))
    ensures Reaches(Next, start, Pair(Blocked, 5, 10, Outside, [7], 1))
  {
    hide Reaches;
    PushesAndLoads(start);
    WakesNobody(start);
    ReachStep(start, Pair(Tired, 5, 10, Outside, [7], 0), 0, Wait, Pair(Blocked, 5, 10, Outside, [7], 1));
  }

  lemma PushesAndLoads(start: State)
    requires Reaches(Next, start, OneIdle(Tired, 5, 10, 1))
    ensures Reaches(Next, start, Pair(Tired, 5, 10, Locking, [7], 1))
  {
    hide Reaches;
    ReachStep(start, OneIdle(Tired, 5, 10, 1), 1, Schedule(7), Pair(Tired, 5, 10, Loading, [7], 1));
    Loads(start);
  }

  lemma Loads(start: State)
    requires Reaches(Next, start, Pair(Tired, 5, 10, Loading, [7], 1))
    ensures Reaches(Next, start, Pair(Tired, 5, 10, Locking, [7], 1))
  {
    hide Reaches;
    ReachStep(start, Pair(Tired, 5, 10, Loading, [7], 1), 1, LoadNotified, Pair(Tired, 5, 10, Locking, [7], 1));
  }

  lemma WakesNobody(start: State)
    requires Reaches(Next, start, Pair(Tired, 5, 10, Locking, [7], 1))
    ensures Reaches(Next, start, Pair(Tired, 5, 10, Outside, [7], 0))
  {
    hide Reaches;
    var before, after := Pair(Tired, 5, 10, Locking, [7], 1), Pair(Tired, 5, 10, Outside, [7], 0);
    assert Enabled(before, 1, LockSleep(0)) by { assert !SomeoneBlocked(before); }
    ReachStep(start, before, 1, LockSleep(0), after);
  }

  lemma TiredHasNothing(s: State, t: nat)
    requires Inv(s) && t < |s.threads| && s.threads[t].pc.Tired?
    ensures s.threads[t].slot == None && s.threads[t].local == []
  {
    assert ThreadInv(s.threads[t], t < s.workers);
  }

  lemma NotifierNotices(s: State, t: nat, sleeper: nat)
    requires Inv(s) && Enabled(s, t, LockSleep(sleeper))
    ensures Noticed(s) ==> (!Noticed(Apply(s, t, LockSleep(sleeper))) <==> Strands(s, t, LockSleep(sleeper)))
  {
    hide Apply, Noticed, Strands, Conserved;
    if Noticed(s) { NoticedExactly(s, t, LockSleep(sleeper)); }
  }

  // ----- the object -----

  /** The pool with its fields; each method is one atomic step of one thread. */
  class Pool {
    const workers: nat
    var threads: seq<Thread>
    var injector: seq<Task>
    var sleep: nat
    var notified: bool
    ghost var scheduled: multiset<Task>
    ghost var started: multiset<Task>

    ghost function View(): State
      reads this
    {
      State(workers, threads, injector, sleep, notified, scheduled, started)
    }

    ghost predicate Valid()
      reads this
    {
      Inv(View())
    }

    constructor (workers: nat, others: nat)
      requires workers > 0
      ensures Valid() && Init(View()) && this.workers == workers && |threads| == workers + others
    {
      this.workers := workers;
      threads := seq(workers + others, t => Thread(None, 0, [], 0, if t < workers then Finding else Outside, 0, 0));
      injector, sleep, notified := [], 0, false;
      scheduled, started := multiset{}, multiset{};
      new;
      InitEstablishesInv(View());
    }

    method TakeFromSlot(t: nat) returns (task: Option<Task>)
      requires Valid() && Enabled(View(), t, TakeSlot)
      modifies this
      ensures Valid() && View() == Apply(old(View()), t, TakeSlot)
      ensures task.Some? <==> old(threads[t].runs < SLOT_LIMIT && threads[t].slot.Some?)
    {
      hide Inv;
      StepKeepsInv(View(), t, TakeSlot);
      var proc := threads[t].(calls := threads[t].calls + 1);
      if proc.runs < SLOT_LIMIT {
        task := proc.slot;
        if task.Some? {
          threads := threads[t := proc.(slot := None, runs := proc.runs + 1, pc := Found(task.value))];
          return;
        }
      }
      task := None;
      threads := threads[t := proc.(runs := 0, pc := Popping)];
    }

    method PopFromQueue(t: nat)
      requires Valid() && Enabled(View(), t, PopLocal)
      modifies this
      ensures Valid() && View() == Apply(old(View()), t, PopLocal)
    {
      hide Inv;
      StepKeepsInv(View(), t, PopLocal);
      var proc := threads[t];
      if proc.local == [] {
        threads := threads[t := proc.(pc := Stealing)];
      } else {
        threads := threads[t := proc.(local := proc.local[1..], taken := proc.taken + 1, pc := Found(proc.local[0]))];
      }
    }

    method StealFromInjector(t: nat, got: nat, retry: bool, start: nat)
      requires Valid() && Enabled(View(), t, StealGlobal(got, retry, start))
      modifies this
      ensures Valid() && View() == Apply(old(View()), t, StealGlobal(got, retry, start))
    {
      hide Inv;
      StepKeepsInv(View(), t, StealGlobal(got, retry, start));
      var proc := threads[t];
      if got > 0 {
        threads := threads[t := proc.(local := proc.local + injector[..got][1..], pc := Found(injector[..got][0]))];
        injector := injector[got..];
      } else {
        threads := threads[t := proc.(pc := Visiting(start, 0, retry))];
      }
    }

    method StealFromPeer(t: nat, got: nat, retry: bool)
      requires Valid() && Enabled(View(), t, StealPeer(got, retry))
      modifies this
      ensures Valid() && View() == Apply(old(View()), t, StealPeer(got, retry))
    {
      hide Inv;
      StepKeepsInv(View(), t, StealPeer(got, retry));
      var pc := threads[t].pc;
      if got > 0 {
        var victim := threads[(pc.start + pc.tried) % workers];
        threads := threads[(pc.start + pc.tried) % workers := Robbed(victim, got)];
        threads := threads[t := Loaded(threads[t], victim.local[..got])];
      } else if pc.tried + 1 < workers {
        threads := threads[t := threads[t].(pc := Visiting(pc.start, pc.tried + 1, pc.retry || retry))];
      } else {
        threads := threads[t := threads[t].(pc := if pc.retry || retry then Stealing else Failed)];
      }
    }

    method RunTask(t: nat)
      requires Valid() && Enabled(View(), t, Action.Run)
      modifies this
      ensures Valid() && View() == Apply(old(View()), t, Action.Run)
    {
      hide Inv;
      StepKeepsInv(View(), t, Action.Run);
      started := started + multiset{threads[t].pc.task};
      threads := threads[t := threads[t].(fails := 0, pc := Running)];
    }

    method CountFailure(t: nat) returns (sleeps: bool)
      requires Valid() && Enabled(View(), t, CountFail)
      modifies this
      ensures Valid() && View() == Apply(old(View()), t, CountFail)
      ensures sleeps ==> threads[t].slot == None && threads[t].local == []
    {
      hide Inv;
      StepKeepsInv(View(), t, CountFail);
      var fails := threads[t].fails + 1;
      sleeps := fails > YIELDS + SLEEPS;
      threads := threads[t := threads[t].(fails := fails, pc := if sleeps then Tired else Finding)];
      if sleeps { TiredHasNothing(View(), t); }
    }

    method WaitForWork(t: nat)
      requires Valid() && Enabled(View(), t, Wait)
      modifies this
      ensures Valid() && View() == Apply(old(View()), t, Wait)
    {
      hide Inv;
      StepKeepsInv(View(), t, Wait);
      var wasNotified := notified;
      notified := false;
      if wasNotified {
        threads := threads[t := threads[t].(fails := 0, pc := Finding)];
      } else {
        sleep := sleep + 1;
        threads := threads[t := threads[t].(pc := Blocked)];
      }
    }

    method ScheduleTask(t: nat, task: Task)
      requires Valid() && Enabled(View(), t, Schedule(task))
      modifies this
      ensures Valid() && View() == Apply(old(View()), t, Schedule(task))
    {
      hide Inv;
      StepKeepsInv(View(), t, Schedule(task));
      scheduled := scheduled + multiset{task};
      if t < workers {
        var previous := threads[t].slot;
        var next := if previous.Some? then Displacing(previous.value) else Running;
        threads := threads[t := threads[t].(slot := Some(task), pc := next)];
      } else {
        injector := injector + [task];
        threads := threads[t := threads[t].(pc := Loading)];
      }
    }

    method PushDisplaced(t: nat)
      requires Valid() && Enabled(View(), t, PushLocal)
      modifies this
      ensures Valid() && View() == Apply(old(View()), t, PushLocal)
    {
      hide Inv;
      StepKeepsInv(View(), t, PushLocal);
      threads := threads[t := threads[t].(local := threads[t].local + [threads[t].pc.task], pc := Loading)];
    }

    method CheckNotified(t: nat)
      requires Valid() && Enabled(View(), t, LoadNotified)
      modifies this
      ensures Valid() && View() == Apply(old(View()), t, LoadNotified)
    {
      hide Inv;
      StepKeepsInv(View(), t, LoadNotified);
      var back := if t < workers then Running else Outside;
      threads := threads[t := threads[t].(pc := if notified then back else Locking)];
    }

    method NotifyOne(t: nat, sleeper: nat)
      requires Valid() && Enabled(View(), t, LockSleep(sleeper))
      modifies this
      ensures Valid() && View() == Apply(old(View()), t, LockSleep(sleeper))
      ensures old(Noticed(View())) ==> (!Noticed(View()) <==> old(Strands(View(), t, LockSleep(sleeper))))
    {
      hide Inv, Noticed, Strands;
      NotifierNotices(View(), t, sleeper);
      StepKeepsInv(View(), t, LockSleep(sleeper));
      threads := threads[t := threads[t].(pc := if t < workers then Running else Outside)];
      if sleep > 0 {
        sleep := sleep - 1;
        if threads[sleeper].pc.Blocked? { threads := threads[sleeper := threads[sleeper].(pc := Signalled)]; }
      } else {
        notified := true;
      }
    }

    /** The condition variable returns although nobody notified it. */
    method ReturnSpuriously(t: nat)
      requires Valid() && Enabled(View(), t, Spurious)
      modifies this
      ensures Valid() && View() == Apply(old(View()), t, Spurious)
    {
      hide Inv;
      StepKeepsInv(View(), t, Spurious);
      threads := threads[t := threads[t].(pc := Signalled)];
    }

    /** A worker goes back to the top of main_loop: its task returned, or it was woken. */
    method Resume(t: nat)
      requires Valid() && (Enabled(View(), t, Finish) || Enabled(View(), t, Wake))
      modifies this
      ensures Valid() && View() == Apply(old(View()), t, if old(threads[t].pc.Running?) then Finish else Wake)
    {
      hide Inv;
      StepKeepsInv(View(), t, if threads[t].pc.Running? then Finish else Wake);
      var fails := if threads[t].pc.Running? then threads[t].fails else 0;
      threads := threads[t := threads[t].(fails := fails, pc := Finding)];
    }
  }
}
