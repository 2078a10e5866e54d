/** `src/sync/mutex.rs`: the async mutex as a protocol between any number of operations.

    Every atomic access is one step; a critical section of the waker set is one step too, because the
    set's own spin lock lets nobody see it half done (module WakerSetLock). A slot of `threads` is one
    lock operation, from its first poll to the drop of its guard or future. Tasks are slot numbers. */
module MutexProtocol {
  import opened WakerSets

  datatype Pc =
    | Idle
    | Probing                 // try_lock called directly
    | Trying(credit: bool)    // inside poll, about to swap; credit: it was woken by a notification
    | Inserting               // the swap found the mutex locked
    | Checking(key: nat)      // inserted, about to look at `locked` again
    | Looping(key: nat)       // it was unlocked: back to the top of the loop
    | Parked(key: nat)        // poll returned Pending
    | Holding                 // the guard is alive
    | Releasing               // the guard stored `false`, its notify_any is about to load the flag
    | Notifying               // the flag asked for it: about to take the waker list

  datatype State = State(locked: bool, wakers: Entries, threads: seq<Pc>)

  datatype Action = Poll | TryLock | Swap | Insert(key: nat) | Recheck | Remove | Cancel | Release | LoadFlag | Notify

  ghost predicate Init(s: State) {
    !s.locked && s.wakers == [] && forall t | 0 <= t < |s.threads| :: s.threads[t].Idle?
  }

  predicate Enabled(s: State, t: nat, a: Action) {
    t < |s.threads| &&
    var pc := s.threads[t];
    match a
    case Poll => pc.Idle?
    case TryLock => pc.Idle?
    case Swap => pc.Probing? || pc.Trying?
    case Insert(key) => pc.Inserting? && FreeKey(s.wakers, key)
    case Recheck => pc.Checking?
    case Remove => (pc.Looping? || pc.Parked?) && LiveKey(s.wakers, pc.key)
    case Cancel => pc.Parked? && LiveKey(s.wakers, pc.key)
    case Release => pc.Holding?
    case LoadFlag => pc.Releasing?
    case Notify => pc.Notifying?
  }

  ghost function Apply(s: State, t: nat, a: Action): State
    requires Enabled(s, t, a)
  {
    var pc := s.threads[t];
    match a
    case Poll => Goto(s, t, Trying(false))
    case TryLock => Goto(s, t, Probing)
    case Swap => Goto(s.(locked := true), t, if !s.locked then Holding else if pc.Trying? then Inserting else Idle)
    case Insert(key) => Goto(s.(wakers := Inserted(s.wakers, key, t)), t, Checking(key))
    case Recheck => Goto(s, t, if s.locked then Parked(pc.key) else Looping(pc.key))
    case Remove => Goto(s.(wakers := Removed(s.wakers, pc.key)), t, Trying(s.wakers[pc.key].Notified?))
    case Cancel => Goto(s.(wakers := AfterCancel(s.wakers, pc.key)), t, Idle)
    case Release => Goto(s.(locked := false), t, Releasing)
    case LoadFlag => Goto(s, t, if !SomeNotified(s.wakers) && SomeWaiting(s.wakers) then Notifying else Idle)
    case Notify => Goto(s.(wakers := AfterNotify(s.wakers, Any)), t, Idle)
  }

  function Goto(s: State, t: nat, pc: Pc): State
    requires t < |s.threads|
  {
    s.(threads := s.threads[t := pc])
  }

  ghost predicate Next(s: State, s': State) {
    exists t: nat, a :: Enabled(s, t, a) && s' == Apply(s, t, a)
  }

  ghost predicate Run(run: seq<State>) {
    |run| > 0 && Init(run[0]) && forall i | 0 <= i < |run| - 1 :: Next(run[i], run[i + 1])
  }

  // ----- the invariant -----

  function KeyOf(pc: Pc): int {
    if pc.Checking? || pc.Looping? || pc.Parked? then pc.key else -1
  }

  ghost predicate Exclusive(s: State) {
    && (s.locked <==> exists t :: 0 <= t < |s.threads| && s.threads[t].Holding?)
    && (forall t, u | 0 <= t < |s.threads| && 0 <= u < |s.threads| ::
          s.threads[t].Holding? && s.threads[u].Holding? ==> t == u)
  }

  /** Operation `t` is parked and its waker has not been used. */
  ghost predicate Asleep(s: State, t: nat) {
    t < |s.threads| && s.threads[t].Parked? && s.threads[t].key < |s.wakers| && s.wakers[s.threads[t].key].Waiting?
  }

  predicate Helper(pc: Pc) { pc.Releasing? || pc.Notifying? || (pc.Trying? && pc.credit) }

  /** Somebody is still going to notify, or has been notified and has yet to retry. */
  ghost predicate Helped(s: State) {
    (exists u :: 0 <= u < |s.threads| && Helper(s.threads[u])) || SomeNotified(s.wakers)
  }

  ghost predicate NoLostWakeup(s: State) {
    !s.locked && (exists t: nat :: Asleep(s, t)) ==> Helped(s)
  }

  ghost predicate Inv(s: State) { Owned(s.wakers, s.threads, KeyOf) && Exclusive(s) && NoLostWakeup(s) }

  // ----- every step keeps it -----

  lemma OwnedKept(s: State, t: nat, a: Action)
    requires Owned(s.wakers, s.threads, KeyOf) && Enabled(s, t, a)
    ensures var s' := Apply(s, t, a); Owned(s'.wakers, s'.threads, KeyOf)
  {
    var pc := Apply(s, t, a).threads[t];
    match a
    case Insert(key) => OwnedByInserter(s.wakers, s.threads, KeyOf, t, pc, key);
    case Remove => OwnedAfterRemoval(s.wakers, s.threads, KeyOf, t, pc);
    case Cancel => OwnedAfterCancel(s.wakers, s.threads, KeyOf, t, pc);
    case Notify =>
      OwnedAfterNotify(s.wakers, s.threads, KeyOf, Any);
      OwnedUnmoved(AfterNotify(s.wakers, Any), s.threads, KeyOf, t, pc);
    case _ => OwnedUnmoved(s.wakers, s.threads, KeyOf, t, pc);
  }

  lemma ExclusiveKept(s: State, t: nat, a: Action)
    requires Exclusive(s) && Enabled(s, t, a)
    ensures Exclusive(Apply(s, t, a))
  {
    var s' := Apply(s, t, a);
    if s'.threads[t].Holding? || a.Release? {
    } else if s.locked {
      var u :| 0 <= u < |s.threads| && s.threads[u].Holding?;
      assert s'.threads[u].Holding?;
    }
  }

  lemma NoLostWakeupKept(s: State, t: nat, a: Action)
    requires Inv(s) && Enabled(s, t, a)
    ensures NoLostWakeup(Apply(s, t, a))
  {
    var s' := Apply(s, t, a);
    if !s'.locked && exists p: nat :: Asleep(s', p) {
      var p: nat :| Asleep(s', p);
      var k := s'.threads[p].key;
      if Helper(s'.threads[t]) {
      } else if a.LoadFlag? {
        assert s.wakers[k].Waiting?;
      } else if a.Notify? {
        NotifyAnyLeavesOneNotified(s.wakers);
      } else if a.Cancel? && s.wakers[s.threads[t].key].Notified? {
        WaitingBefore(Removed(s.wakers, s.threads[t].key), One);
        assert s.wakers[k].Waiting?;
        CancelLeavesOneNotified(s.wakers, s.threads[t].key);
      } else {
        assert Asleep(s, p);
        HelpKept(s, t, a);
      }
    }
  }

  lemma HelpKept(s: State, t: nat, a: Action)
    requires Enabled(s, t, a) && Helped(s)
    requires !Apply(s, t, a).locked && !Helper(Apply(s, t, a).threads[t]) && !a.LoadFlag? && !a.Notify?
    requires a.Cancel? ==> s.wakers[s.threads[t].key].Waiting?
    ensures Helped(Apply(s, t, a))
  {
    assert t < |s.threads|;
    hide Apply, Enabled, Helper;
    var s' := Apply(s, t, a);
    if SomeNotified(s.wakers) {
      var k :| 0 <= k < |s.wakers| && s.wakers[k].Notified?;
      NotifiedStays(s, t, a, k);
    } else {
      var u :| 0 <= u < |s.threads| && Helper(s.threads[u]);
      HelperStays(s, t, a, u);
    }
  }

  /** A notification is still there, or its task retries with it. */
  lemma NotifiedStays(s: State, t: nat, a: Action, k: nat)
    requires Enabled(s, t, a) && k < |s.wakers| && s.wakers[k].Notified? && !Helper(Apply(s, t, a).threads[t])
             && !a.Notify?
    requires a.Cancel? ==> s.wakers[s.threads[t].key].Waiting?
    ensures k < |Apply(s, t, a).wakers| && Apply(s, t, a).wakers[k].Notified?
  {
  }

  lemma HelperStays(s: State, t: nat, a: Action, u: nat)
    requires Enabled(s, t, a) && u < |s.threads| && Helper(s.threads[u]) && !a.LoadFlag? && !a.Notify?
    requires !Apply(s, t, a).locked && !Helper(Apply(s, t, a).threads[t])
    ensures u < |Apply(s, t, a).threads| && Apply(s, t, a).threads[u] == s.threads[u]
  {
  }

  lemma {:induction false} RunKeepsInv(run: seq<State>, i: nat)
    requires Run(run) && i < |run|
    ensures Inv(run[i])
  {
    if i > 0 {
      RunKeepsInv(run, i - 1);
      assert Next(run[i - 1], run[i - 1 + 1]);
      var t: nat, a :| Enabled(run[i - 1], t, a) && run[i] == Apply(run[i - 1], t, a);
      OwnedKept(run[i - 1], t, a);
      ExclusiveKept(run[i - 1], t, a);
      NoLostWakeupKept(run[i - 1], t, a);
    }
  }

  // ----- what users of the mutex rely on -----

  /** Mutual exclusion over every run. */
  lemma AtMostOneGuard(run: seq<State>, i: nat, t: nat, u: nat)
    requires Run(run) && i < |run| && t < |run[i].threads| && u < |run[i].threads|
    requires run[i].threads[t].Holding? && run[i].threads[u].Holding?
    ensures t == u && run[i].locked
  {
    RunKeepsInv(run, i);
  }

  /** Whenever the mutex is free while an operation sleeps, some unlocker has not finished notifying, or
      some operation that was notified has not retried yet. */
  lemma SleeperIsHelped(run: seq<State>, i: nat, t: nat)
    requires Run(run) && i < |run| && Asleep(run[i], t) && !run[i].locked
    ensures exists u :: 0 <= u < |run[i].threads| &&
              var pc := run[i].threads[u];
              || Helper(pc)
              || ((pc.Checking? || pc.Looping? || pc.Parked?) && pc.key < |run[i].wakers|
                 && run[i].wakers[pc.key].Notified?)
  {
    RunKeepsInv(run, i);
    var s := run[i];
    if SomeNotified(s.wakers) {
      var k :| 0 <= k < |s.wakers| && s.wakers[k].Notified?;
      assert KeyOf(s.threads[s.wakers[k].task]) == k;
    }
  }

  /** No deadlock by lost wake-ups: when every operation is idle, asleep or holding the guard, a
      sleeping operation means that somebody holds the guard. */
  lemma QuietMeansHeld(run: seq<State>, i: nat, t: nat)
    requires Run(run) && i < |run| && Asleep(run[i], t)
    requires forall u | 0 <= u < |run[i].threads| ::
               run[i].threads[u].Idle? || run[i].threads[u].Holding? || Asleep(run[i], u)
    ensures exists h :: 0 <= h < |run[i].threads| && run[i].threads[h].Holding?
  {
    RunKeepsInv(run, i);
    if !run[i].locked { SleeperIsHelped(run, i, t); }
  }

  /** No guard of a step ever stops an operation: its key is always in the set when it is removed or cancelled. */
  lemma AlwaysEnabled(run: seq<State>, i: nat, t: nat) returns (a: Action)
    requires Run(run) && i < |run| && t < |run[i].threads|
    ensures Enabled(run[i], t, a) && (run[i].threads[t].Parked? ==> Enabled(run[i], t, Cancel))
  {
    RunKeepsInv(run, i);
    var pc := run[i].threads[t];
    assert KeyOf(pc) >= 0 ==> LiveKey(run[i].wakers, KeyOf(pc));
    match pc
    case Idle => a := Poll;
    case Inserting => a := Insert(|run[i].wakers|);
    case Checking(_) => a := Recheck;
    case Looping(_) => a := Remove;
    case Parked(_) => a := Remove;
    case Holding => a := Release;
    case Releasing => a := LoadFlag;
    case Notifying => a := Notify;
    case _ => a := Swap;
  }

  // ----- the object -----

  /** The mutex with its fields; each method is one atomic step of one operation. */
  class Mutex {
    var locked: bool
    const wakers: WakerSet
    var threads: seq<Pc>

    ghost function View(): State
      reads this, wakers
    {
      State(locked, wakers.entries, threads)
    }

    ghost predicate Valid()
      reads this, wakers
    {
      wakers.Valid() && Inv(View())
    }

    constructor (operations: nat)
      ensures Valid() && Init(View()) && |threads| == operations && fresh(wakers)
    {
      locked := false;
      wakers := new WakerSet();
      threads := seq(operations, _ => Idle);
    }

    /** First poll of a lock future, or a direct call of try_lock. */
    method Begin(t: nat, future: bool)
      requires Valid() && t < |threads| && threads[t].Idle?
      modifies this
      ensures Valid() && View() == Apply(old(View()), t, if future then Poll else TryLock)
    {
      Kept(t, if future then Poll else TryLock);
      threads := threads[t := if future then Trying(false) else Probing];
    }

    method SwapLocked(t: nat) returns (acquired: bool)
      requires Valid() && Enabled(View(), t, Swap)
      modifies this
      ensures Valid() && View() == Apply(old(View()), t, Swap)
      ensures acquired <==> !old(locked)
      ensures acquired <==> threads[t].Holding?
    {
      Kept(t, Swap);
      acquired := !locked;
      locked := true;
      threads := threads[t := if acquired then Holding else if threads[t].Trying? then Inserting else Idle];
    }

    method InsertWaker(t: nat, key: nat)
      requires Valid() && Enabled(View(), t, Insert(key))
      modifies this, wakers
      ensures Valid() && View() == Apply(old(View()), t, Insert(key))
    {
      Kept(t, Insert(key));
      wakers.Insert(key, t);
      threads := threads[t := Checking(key)];
    }

    method RecheckLocked(t: nat) returns (pending: bool)
      requires Valid() && Enabled(View(), t, Recheck)
      modifies this
      ensures Valid() && View() == Apply(old(View()), t, Recheck)
      ensures pending <==> locked
    {
      Kept(t, Recheck);
      pending := locked;
      threads := threads[t := if pending then Parked(threads[t].key) else Looping(threads[t].key)];
    }

    method RemoveWaker(t: nat)
      requires Valid() && Enabled(View(), t, Remove)
      modifies this, wakers
      ensures Valid() && View() == Apply(old(View()), t, Remove)
    {
      Kept(t, Remove);
      var key := threads[t].key;
      threads := threads[t := Trying(wakers.entries[key].Notified?)];
      wakers.Remove(key);
    }

    method DropFuture(t: nat)
      requires Valid() && Enabled(View(), t, Cancel)
      modifies this, wakers
      ensures Valid() && View() == Apply(old(View()), t, Cancel)
    {
      Kept(t, Cancel);
      var other := wakers.Cancel(threads[t].key);
      threads := threads[t := Idle];
    }

    method StoreUnlocked(t: nat)
      requires Valid() && Enabled(View(), t, Release)
      modifies this
      ensures Valid() && View() == Apply(old(View()), t, Release)
    {
      Kept(t, Release);
      locked := false;
      threads := threads[t := Releasing];
    }

    method LoadNotifyFlag(t: nat)
      requires Valid() && Enabled(View(), t, LoadFlag)
      modifies this
      ensures Valid() && View() == Apply(old(View()), t, LoadFlag)
    {
      Kept(t, LoadFlag);
      threads := threads[t := if !wakers.flag.notified && wakers.flag.notifiable then Notifying else Idle];
    }

    method NotifyAny(t: nat)
      requires Valid() && Enabled(View(), t, Notify)
      modifies this, wakers
      ensures Valid() && View() == Apply(old(View()), t, Notify)
    {
      Kept(t, Notify);
      var notified := wakers.Notify(Any);
      threads := threads[t := Idle];
    }

    lemma Kept(t: nat, a: Action)
      requires Valid() && Enabled(View(), t, a)
      ensures Inv(Apply(View(), t, a))
    {
      OwnedKept(View(), t, a);
      ExclusiveKept(View(), t, a);
      NoLostWakeupKept(View(), t, a);
    }
  }
}
