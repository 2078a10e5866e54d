/** The lock of `src/fs/file.rs` (lines 467-562): an async mutex whose guard can be moved into a blocking job.

    `woken` holds the tasks whose waker was used since their last poll, `waiting` the tasks whose last poll
    returned Pending. The list of wakers has a mutex of its own; taking it, swapping `locked` again, pushing
    and draining are separate steps. The first `tasks` slots are tasks that poll the file; a task that starts a
    blocking job registers, gives its guard to the job, which gets a slot of its own, and returns Pending. */
module FileLockProtocol {

  datatype Pc =
    | Idle
    | Contended        // the first swap found the file locked: about to take the list
    | HasList          // holds the list: about to swap again
    | Pushing          // the second swap failed: about to push its waker
    | Leaving          // pushed: about to give the list back and return Pending
    | Unlisting        // the second swap succeeded: about to give the list back
    | Holding          // has the guard
    | Registering      // a task with the guard, about to take the list to register interest
    | Registered       // has guard and list: about to push and give the list back
    | Enlisted         // still has the guard: about to give it to a job
    | Handed           // its job runs: about to return Pending
    | Releasing        // stored false, about to take the list
    | Draining         // has the list: about to wake and remove everybody

  datatype State = State(
    tasks: nat, locked: bool, list: seq<nat>, listBusy: bool, woken: set<nat>, waiting: set<nat>, threads: seq<Pc>)

  datatype Action =
    | Poll | TakeList | SwapAgain | Push | GiveList | WantRegister | Register | HandOver | Return | Release | Drain

  ghost predicate Init(s: State) {
    && |s.threads| == s.tasks && (forall t | 0 <= t < |s.threads| :: s.threads[t].Idle?)
    && !s.locked && s.list == [] && !s.listBusy && s.woken == {} && s.waiting == {}
  }

  predicate Enabled(s: State, t: nat, a: Action) {
    t < |s.threads| &&
    var pc := s.threads[t];
    match a
    case Poll => pc.Idle? && t < s.tasks
    case TakeList => (pc.Contended? || pc.Registering? || pc.Releasing?) && !s.listBusy
    case SwapAgain => pc.HasList?
    case Push => pc.Pushing?
    case GiveList => pc.Leaving? || pc.Unlisting?
    case WantRegister => pc.Holding? && t < s.tasks
    case Register => pc.Registered?
    case HandOver => pc.Enlisted?
    case Return => pc.Handed?
    case Release => pc.Holding?
    case Drain => pc.Draining?
  }

  function Goto(s: State, t: nat, pc: Pc): State
    requires t < |s.threads|
  {
    s.(threads := s.threads[t := pc])
  }

  /** A waker is pushed only if the list does not hold one for the same task already. */
  function Listed(list: seq<nat>, t: nat): seq<nat> { if t in list then list else list + [t] }

  function Apply(s: State, t: nat, a: Action): State
    requires Enabled(s, t, a)
  {
    var pc := s.threads[t];
    match a
    case Poll =>
      Goto(s.(locked := true, woken := s.woken - {t}, waiting := s.waiting - {t}), t,
           if s.locked then Contended else Holding)
    case TakeList =>
      Goto(s.(listBusy := true), t, if pc.Contended? then HasList else if pc.Registering? then Registered else Draining)
    case SwapAgain => Goto(s.(locked := true), t, if s.locked then Pushing else Unlisting)
    case Push => Goto(s.(list := Listed(s.list, t)), t, Leaving)
    case GiveList =>
      if pc.Leaving? then Goto(s.(listBusy := false, waiting := s.waiting + {t}), t, Idle)
      else Goto(s.(listBusy := false), t, Holding)
    case WantRegister => Goto(s, t, Registering)
    case Register => Goto(s.(list := Listed(s.list, t), listBusy := false), t, Enlisted)
    case HandOver => s.(threads := s.threads[t := Handed] + [Holding])
    case Return => Goto(s.(waiting := s.waiting + {t}), t, Idle)
    case Release => Goto(s.(locked := false), t, Releasing)
    case Drain => Goto(s.(list := [], listBusy := false, woken := s.woken + set u | u in s.list), t, Idle)
  }

  ghost predicate Next(s: State, s': State) {
    exists t: nat, a :: Enabled(s, t, a) && s' == Apply(s, t, a)
  }

  ghost predicate Run(run: seq<State>) {
    |run| > 0 && Init(run[0]) && forall i | 0 <= i < |run| - 1 :: Next(run[i], run[i + 1])
  }

  // ----- the invariant -----

  predicate HoldsGuard(pc: Pc) { pc.Holding? || pc.Registering? || pc.Registered? || pc.Enlisted? || pc.Unlisting? }
  predicate HoldsList(pc: Pc) {
    pc.HasList? || pc.Pushing? || pc.Leaving? || pc.Unlisting? || pc.Registered? || pc.Draining?
  }
  predicate Waking(pc: Pc) { pc.Releasing? || pc.Draining? }

  ghost predicate SomeWaking(s: State) { exists u :: 0 <= u < |s.threads| && Waking(s.threads[u]) }

  /** Some task sits in the list, or is about to. */
  ghost predicate SomeoneListed(s: State) {
    s.list != [] || exists u :: 0 <= u < |s.threads| && s.threads[u].Pushing?
  }

  /** At most one thread satisfies `holds`, and `flag` says whether one does. */
  ghost predicate Sole(threads: seq<Pc>, flag: bool, holds: Pc -> bool) {
    && (flag <==> exists t :: 0 <= t < |threads| && holds(threads[t]))
    && (forall t, u | 0 <= t < |threads| && 0 <= u < |threads| && holds(threads[t]) && holds(threads[u]) :: t == u)
  }

  /** The waker of task `t` is listed, or was used. */
  predicate Reached(s: State, t: nat) { t in s.list || t in s.woken }

  /** A task on its way to Pending whose waker is in place. */
  predicate InPlace(pc: Pc) { pc.Leaving? || pc.Enlisted? || pc.Handed? }

  ghost predicate Inv(s: State) {
    && Sole(s.threads, s.locked, HoldsGuard)
    && Sole(s.threads, s.listBusy, HoldsList)
    && (!s.locked && SomeoneListed(s) ==> SomeWaking(s))
    && (forall t | t in s.waiting :: Reached(s, t))
    && (forall t: nat | t < |s.threads| && InPlace(s.threads[t]) :: Reached(s, t))
  }

  /** One thread moves; it takes what is free, gives back what it has, or hands it to a new thread. */
  ghost predicate SoleMoves(threads: seq<Pc>, flag: bool, threads': seq<Pc>, flag': bool, t: nat, holds: Pc -> bool) {
    && t < |threads| <= |threads'| <= |threads| + 1
    && (forall u | 0 <= u < |threads| && u != t :: threads'[u] == threads[u])
    && var was, now := holds(threads[t]), holds(threads'[t]);
    && var handed := |threads'| > |threads| && holds(threads'[|threads|]);
    && if was then !(now && handed) && (flag' <==> now || handed)
       else !handed && if now then !flag && flag' else flag' == flag
  }

  lemma SoleKept(threads: seq<Pc>, flag: bool, threads': seq<Pc>, flag': bool, t: nat, holds: Pc -> bool)
    requires Sole(threads, flag, holds) && SoleMoves(threads, flag, threads', flag', t, holds)
    ensures Sole(threads', flag', holds)
  {
    if flag' && !holds(threads'[t]) {
      if holds(threads[t]) {
        assert holds(threads'[|threads|]);
      } else {
        var u :| 0 <= u < |threads| && holds(threads[u]);
        assert holds(threads'[u]);
      }
    }
  }

  lemma GuardMoves(s: State, t: nat, a: Action)
    requires Enabled(s, t, a) && (HoldsGuard(s.threads[t]) ==> s.locked)
    ensures SoleMoves(s.threads, s.locked, Apply(s, t, a).threads, Apply(s, t, a).locked, t, HoldsGuard)
  {
  }

  lemma ListMoves(s: State, t: nat, a: Action)
    requires Enabled(s, t, a) && (HoldsList(s.threads[t]) ==> s.listBusy)
    ensures SoleMoves(s.threads, s.listBusy, Apply(s, t, a).threads, Apply(s, t, a).listBusy, t, HoldsList)
  {
  }

  /** A waker in place stays in place until its task polls again. */
  lemma ReachedStays(s: State, t: nat, a: Action, u: nat)
    requires Enabled(s, t, a) && Reached(s, u) && !(a.Poll? && u == t)
    ensures Reached(Apply(s, t, a), u)
  {
  }

  /** A task gets on its way to Pending by putting its waker in place. */
  lemma PutsInPlace(s: State, t: nat, a: Action)
    requires Enabled(s, t, a) && t < |Apply(s, t, a).threads| && InPlace(Apply(s, t, a).threads[t])
    ensures InPlace(s.threads[t]) || Reached(Apply(s, t, a), t)
    ensures !a.Poll?
  {
  }

  lemma OthersStay(s: State, t: nat, a: Action, u: nat)
    requires Enabled(s, t, a) && u < |Apply(s, t, a).threads| && u != t
    ensures u < |s.threads| ==> Apply(s, t, a).threads[u] == s.threads[u]
    ensures u >= |s.threads| ==> Apply(s, t, a).threads[u].Holding?
  {
  }

  lemma WaitersMove(s: State, t: nat, a: Action)
    requires Enabled(s, t, a)
    ensures Apply(s, t, a).waiting <= s.waiting + {t} && (a.Poll? ==> t !in Apply(s, t, a).waiting)
    ensures t in Apply(s, t, a).waiting && t !in s.waiting ==> InPlace(s.threads[t])
  {
  }

  /** Only giving the guard away unlocks, and then its holder wakes the list. */
  lemma WakingBegins(s: State, t: nat, a: Action)
    requires Enabled(s, t, a) && !Apply(s, t, a).locked && (HoldsGuard(s.threads[t]) ==> s.locked)
    requires t < |Apply(s, t, a).threads| && !Waking(Apply(s, t, a).threads[t]) && !a.Drain?
    ensures !s.locked && (SomeoneListed(Apply(s, t, a)) ==> SomeoneListed(s) && !Waking(s.threads[t]))
  {
    var s' := Apply(s, t, a);
    if s'.list == [] && SomeoneListed(s') {
      var u :| 0 <= u < |s'.threads| && s'.threads[u].Pushing?;
      OthersPush(s, t, a, u);
    }
  }

  lemma OthersPush(s: State, t: nat, a: Action, u: nat)
    requires Enabled(s, t, a) && !Apply(s, t, a).locked && u < |Apply(s, t, a).threads|
             && Apply(s, t, a).threads[u].Pushing?
    ensures u < |s.threads| && s.threads[u].Pushing? && u != t
  {
  }

  lemma WakingKept(s: State, t: nat, a: Action)
    requires Inv(s) && Enabled(s, t, a)
    ensures var s' := Apply(s, t, a); !s'.locked && SomeoneListed(s') ==> SomeWaking(s')
  {
    assert t < |s.threads|;
    hide Apply, Enabled, SomeoneListed;
    var s' := Apply(s, t, a);
    ThreadsRemain(s, t, a);
    if a.Drain? {
      DrainLeavesNobody(s, t);
    } else if !s'.locked && SomeoneListed(s') && !Waking(s'.threads[t]) {
      WakingBegins(s, t, a);
      var u :| 0 <= u < |s.threads| && Waking(s.threads[u]);
      OthersStay(s, t, a, u);
    }
  }

  lemma DrainLeavesNobody(s: State, t: nat)
    requires Sole(s.threads, s.listBusy, HoldsList) && Enabled(s, t, Drain)
    ensures !SomeoneListed(Apply(s, t, Drain))
  {
    assert HoldsList(s.threads[t]);
    assert forall u | 0 <= u < |s.threads| && u != t :: !HoldsList(s.threads[u]);
  }

  lemma ThreadsRemain(s: State, t: nat, a: Action)
    requires Enabled(s, t, a)
    ensures |s.threads| <= |Apply(s, t, a).threads|
  {
  }

  lemma PlacesKept(s: State, t: nat, a: Action)
    requires Inv(s) && Enabled(s, t, a)
    ensures var s' := Apply(s, t, a);
            && (forall u | u in s'.waiting :: Reached(s', u))
            && (forall u: nat | u < |s'.threads| && InPlace(s'.threads[u]) :: Reached(s', u))
  {
    assert t < |s.threads|;
    hide Apply, Enabled, Sole, SomeoneListed, SomeWaking, Reached;
    var s' := Apply(s, t, a);
    ThreadsRemain(s, t, a);
    WaitersMove(s, t, a);
    forall u | u in s'.waiting
      ensures Reached(s', u)
    {
      ReachedStays(s, t, a, u);
    }
    forall u: nat | u < |s'.threads| && InPlace(s'.threads[u])
      ensures Reached(s', u)
    {
      if u == t { PutsInPlace(s, t, a); } else { OthersStay(s, t, a, u); }
      if u < |s.threads| && InPlace(s.threads[u]) { ReachedStays(s, t, a, u); }
    }
  }

  lemma InvKept(s: State, t: nat, a: Action)
    requires Inv(s) && Enabled(s, t, a)
    ensures Inv(Apply(s, t, a))
  {
    assert t < |s.threads|;
    hide Apply, Enabled, SoleMoves, SomeoneListed, SomeWaking, Reached;
    var s' := Apply(s, t, a);
    GuardMoves(s, t, a);
    ListMoves(s, t, a);
    WakingKept(s, t, a);
    PlacesKept(s, t, a);
    hide Inv;
    SoleKept(s.threads, s.locked, s'.threads, s'.locked, t, HoldsGuard);
    SoleKept(s.threads, s.listBusy, s'.threads, s'.listBusy, t, HoldsList);
    InvOf(s');
  }

  lemma InvOf(s: State)
    requires Sole(s.threads, s.locked, HoldsGuard) && Sole(s.threads, s.listBusy, HoldsList)
    requires !s.locked && SomeoneListed(s) ==> SomeWaking(s)
    requires forall t | t in s.waiting :: Reached(s, t)
    requires forall t: nat | t < |s.threads| && InPlace(s.threads[t]) :: Reached(s, t)
    ensures Inv(s)
  {
  }

  lemma {:induction false} RunKeepsInv(run: seq<State>, i: nat)
    requires Run(run) && i < |run|
    ensures Inv(run[i])
  {
    if i > 0 {
      RunKeepsInv(run, i - 1);
      assert Next(run[i - 1], run[i - 1 + 1]);
      var t: nat, a :| Enabled(run[i - 1], t, a) && run[i] == Apply(run[i - 1], t, a);
      InvKept(run[i - 1], t, a);
    }
  }

  /** One guard at a time over every run, with a task or with a job; and a task whose poll returned Pending, for
      want of the lock or with a job under way, has been woken since that poll began, or is in the list, and then
      the file is locked or somebody is about to wake the whole list. */
  lemma PendingTaskIsWoken(run: seq<State>, i: nat, t: nat)
    requires Run(run) && i < |run| && t in run[i].waiting
    ensures forall u, v | 0 <= u < |run[i].threads| && 0 <= v < |run[i].threads| ::
              HoldsGuard(run[i].threads[u]) && HoldsGuard(run[i].threads[v]) ==> u == v
    ensures t in run[i].woken || (t in run[i].list && (run[i].locked || SomeWaking(run[i])))
  {
    RunKeepsInv(run, i);
  }

  /** No guard of a step ever stops a task or job for good: it has a next step, or it waits for the list, which
      then somebody else has, who has a next step. */
  lemma NeverStuck(run: seq<State>, i: nat, t: nat) returns (u: nat, a: Action)
    requires Run(run) && i < |run| && t < |run[i].threads| && !run[i].threads[t].Idle?
    ensures Enabled(run[i], u, a) && (u == t || HoldsList(run[i].threads[u]))
  {
    RunKeepsInv(run, i);
    var s := run[i];
    u := t;
    if (s.threads[t].Contended? || s.threads[t].Registering? || s.threads[t].Releasing?) && s.listBusy {
      u :| 0 <= u < |s.threads| && HoldsList(s.threads[u]);
    }
    a := NextOf(s, u);
  }

  lemma NextOf(s: State, t: nat) returns (a: Action)
    requires t < |s.threads| && !s.threads[t].Idle?
    requires s.threads[t].Contended? || s.threads[t].Registering? || s.threads[t].Releasing? ==> !s.listBusy
    ensures Enabled(s, t, a)
  {
    match s.threads[t]
    case HasList => a := SwapAgain;
    case Pushing => a := Push;
    case Leaving => a := GiveList;
    case Unlisting => a := GiveList;
    case Holding => a := Release;
    case Registered => a := Action.Register;
    case Enlisted => a := HandOver;
    case Handed => a := Return;
    case Draining => a := Drain;
    case _ => a := TakeList;
  }

  // ----- the object -----

  /** The lock with its fields; each method is one atomic step of one task. */
  class Lock {
    const tasks: nat
    var locked: bool
    var wakers: seq<nat>
    var wakersBusy: bool      // the mutex around the list
    ghost var woken: set<nat>
    ghost var waiting: set<nat>
    var threads: seq<Pc>

    ghost function View(): State
      reads this
    {
      State(tasks, locked, wakers, wakersBusy, woken, waiting, threads)
    }

    ghost predicate Valid()
      reads this
    {
      Inv(View())
    }

    constructor (tasks: nat)
      ensures Valid() && Init(View()) && |threads| == tasks
    {
      this.tasks := tasks;
      locked, wakers, wakersBusy, woken, waiting := false, [], false, {}, {};
      threads := seq(tasks, _ => Idle);
    }

    /** The first swap of `poll_lock`. */
    method PollLock(t: nat) returns (acquired: bool)
      requires Valid() && Enabled(View(), t, Poll)
      modifies this
      ensures Valid() && View() == Apply(old(View()), t, Poll) && acquired == threads[t].Holding?
    {
      hide Inv;
      InvKept(View(), t, Poll);
      acquired := !locked;
      locked := true;
      woken, waiting := woken - {t}, waiting - {t};
      threads := threads[t := if acquired then Holding else Contended];
    }

    method LockWakers(t: nat)
      requires Valid() && Enabled(View(), t, TakeList)
      modifies this
      ensures Valid() && View() == Apply(old(View()), t, TakeList)
    {
      hide Inv;
      InvKept(View(), t, TakeList);
      wakersBusy := true;
      threads := threads[t := if threads[t].Contended? then HasList
                              else if threads[t].Registering? then Registered else Draining];
    }

    /** The second swap, under the list's mutex. */
    method RetryLock(t: nat) returns (acquired: bool)
      requires Valid() && Enabled(View(), t, SwapAgain)
      modifies this
      ensures Valid() && View() == Apply(old(View()), t, SwapAgain) && acquired == threads[t].Unlisting?
    {
      hide Inv;
      InvKept(View(), t, SwapAgain);
      acquired := !locked;
      locked := true;
      threads := threads[t := if acquired then Unlisting else Pushing];
    }

    method PushWaker(t: nat)
      requires Valid() && Enabled(View(), t, Push)
      modifies this
      ensures Valid() && View() == Apply(old(View()), t, Push)
    {
      hide Inv;
      InvKept(View(), t, Push);
      if t !in wakers { wakers := wakers + [t]; }
      threads := threads[t := Leaving];
    }

    method UnlockWakers(t: nat) returns (pending: bool)
      requires Valid() && Enabled(View(), t, GiveList)
      modifies this
      ensures Valid() && View() == Apply(old(View()), t, GiveList) && pending == threads[t].Idle?
    {
      hide Inv;
      InvKept(View(), t, GiveList);
      pending := threads[t].Leaving?;
      wakersBusy := false;
      if pending { waiting := waiting + {t}; }
      threads := threads[t := if pending then Idle else Holding];
    }

    /** `register`: the holder of the guard asks to be woken when the guard is dropped. */
    method Register(t: nat)
      requires Valid() && Enabled(View(), t, Action.Register)
      modifies this
      ensures Valid() && View() == Apply(old(View()), t, Action.Register)
    {
      hide Inv;
      InvKept(View(), t, Action.Register);
      if t !in wakers { wakers := wakers + [t]; }
      wakersBusy := false;
      threads := threads[t := Enlisted];
    }

    /** `spawn_blocking`: the guard moves into the job. */
    method MoveGuardIntoJob(t: nat) returns (job: nat)
      requires Valid() && Enabled(View(), t, HandOver)
      modifies this
      ensures Valid() && View() == Apply(old(View()), t, HandOver) && job == |threads| - 1 && threads[job].Holding?
    {
      hide Inv;
      InvKept(View(), t, HandOver);
      job := |threads|;
      threads := threads[t := Handed] + [Holding];
    }

    method ReturnPending(t: nat)
      requires Valid() && Enabled(View(), t, Return)
      modifies this
      ensures Valid() && View() == Apply(old(View()), t, Return)
    {
      hide Inv;
      InvKept(View(), t, Return);
      waiting := waiting + {t};
      threads := threads[t := Idle];
    }

    method StoreUnlocked(t: nat)
      requires Valid() && Enabled(View(), t, Release)
      modifies this
      ensures Valid() && View() == Apply(old(View()), t, Release)
    {
      hide Inv;
      InvKept(View(), t, Release);
      locked := false;
      threads := threads[t := Releasing];
    }

    /** Dropping the guard wakes everybody in the list and empties it. */
    method DrainWakers(t: nat)
      requires Valid() && Enabled(View(), t, Drain)
      modifies this
      ensures Valid() && View() == Apply(old(View()), t, Drain)
    {
      hide Inv;
      InvKept(View(), t, Drain);
      woken := woken + set u | u in wakers;
      wakers := [];
      wakersBusy := false;
      threads := threads[t := Idle];
    }
  }
}
