/** `src/sync/waker_set.rs`: the set of wakers that every blocking primitive parks its operations in.

    The slab of optional wakers is a sequence of entries. An entry whose waker has been taken keeps
    the task it belonged to, so that the protocols built on the set can say whose wake-up is pending. */
module WakerSets {
  import opened Counting

  type Task = nat

  datatype Entry = Vacant | Waiting(task: Task) | Notified(task: Task)

  datatype Notify = Any | One | All

  type Entries = seq<Entry>

  predicate IsWaiting(e: Entry) { e.Waiting? }
  predicate IsNotified(e: Entry) { e.Notified? }
  predicate IsOccupied(e: Entry) { !e.Vacant? }

  ghost predicate SomeWaiting(es: Entries) { exists k :: 0 <= k < |es| && es[k].Waiting? }
  ghost predicate SomeNotified(es: Entries) { exists k :: 0 <= k < |es| && es[k].Notified? }

  /** A key the slab may hand out: a vacant slot, or the next slot at the end. */
  predicate FreeKey(es: Entries, key: nat) { key == |es| || (key < |es| && es[key].Vacant?) }

  predicate LiveKey(es: Entries, key: nat) { key < |es| && !es[key].Vacant? }

  function Inserted(es: Entries, key: nat, task: Task): Entries
    requires FreeKey(es, key)
  {
    if key == |es| then es + [Waiting(task)] else es[key := Waiting(task)]
  }

  function Removed(es: Entries, key: nat): Entries
    requires LiveKey(es, key)
  {
    es[key := Vacant]
  }

  /** Index of the first entry at or after `from` that still holds a waker; `|es|` if there is none. */
  function FirstWaiting(es: Entries, from: nat): (i: nat)
    requires from <= |es|
    ensures from <= i <= |es|
    ensures forall j | from <= j < i :: !es[j].Waiting?
    ensures i < |es| ==> es[i].Waiting?
    decreases |es| - from
  {
    if from == |es| || es[from].Waiting? then from else FirstWaiting(es, from + 1)
  }

  function FirstOccupied(es: Entries, from: nat): (i: nat)
    requires from <= |es|
    ensures from <= i <= |es|
    ensures forall j | from <= j < i :: es[j].Vacant?
    ensures i < |es| ==> !es[i].Vacant?
    decreases |es| - from
  {
    if from == |es| || !es[from].Vacant? then from else FirstOccupied(es, from + 1)
  }

  function Wake(e: Entry): Entry { if e.Waiting? then Notified(e.task) else e }

  /** The entries after `notify`: `Any` looks only at the first occupied entry, `One` wakes the first
      entry that still holds a waker, `All` wakes every such entry. */
  function AfterNotify(es: Entries, n: Notify): (r: Entries)
    ensures |r| == |es|
  {
    match n
    case Any => var i := FirstOccupied(es, 0); if i < |es| then es[i := Wake(es[i])] else es
    case One => var i := FirstWaiting(es, 0); if i < |es| then es[i := Wake(es[i])] else es
    case All => seq(|es|, i requires 0 <= i < |es| => Wake(es[i]))
  }

  function AfterCancel(es: Entries, key: nat): Entries
    requires LiveKey(es, key)
  {
    if es[key].Waiting? then Removed(es, key) else AfterNotify(Removed(es, key), One)
  }

  function WaitingTasks(es: Entries): seq<Task>
  {
    if es == [] then []
    else WaitingTasks(es[..|es| - 1]) + if es[|es| - 1].Waiting? then [es[|es| - 1].task] else []
  }

  lemma {:induction false} WaitingTasksNonEmpty(es: Entries)
    ensures WaitingTasks(es) != [] <==> SomeWaiting(es)
  {
    if es != [] {
      WaitingTasksNonEmpty(es[..|es| - 1]);
      if SomeWaiting(es) && !es[|es| - 1].Waiting? {
        var k :| 0 <= k < |es| && es[k].Waiting?;
        assert es[..|es| - 1][k].Waiting?;
      }
    }
  }

  /** The tasks that `notify` wakes, in slab order. */
  function WokenBy(es: Entries, n: Notify): seq<Task>
  {
    match n
    case Any => var i := FirstOccupied(es, 0); if i < |es| && es[i].Waiting? then [es[i].task] else []
    case One => var i := FirstWaiting(es, 0); if i < |es| then [es[i].task] else []
    case All => WaitingTasks(es)
  }

  // ----- what a notification achieves -----

  /** `notify(Any)` on a non-empty set leaves at least one entry notified and removes nobody. */
  lemma NotifyAnyLeavesOneNotified(es: Entries)
    requires exists k :: 0 <= k < |es| && !es[k].Vacant?
    ensures SomeNotified(AfterNotify(es, Any))
  {
    var i := FirstOccupied(es, 0);
    assert AfterNotify(es, Any)[i].Notified?;
  }

  /** `notify(One)` turns exactly one waiting entry into a notified one, if there is any. */
  lemma NotifyOneCounts(es: Entries)
    ensures var r := AfterNotify(es, One);
            Count(r, IsWaiting) + Bit(SomeWaiting(es)) == Count(es, IsWaiting)
            && Count(r, IsNotified) == Count(es, IsNotified) + Bit(SomeWaiting(es))
  {
    var i := FirstWaiting(es, 0);
    if i < |es| {
      CountUpdate(es, i, Wake(es[i]), IsWaiting);
      CountUpdate(es, i, Wake(es[i]), IsNotified);
    }
  }

  lemma NotifyAllLeavesNoneWaiting(es: Entries)
    ensures !SomeWaiting(AfterNotify(es, All))
    ensures SomeWaiting(es) ==> SomeNotified(AfterNotify(es, All))
  {
    if SomeWaiting(es) {
      var k :| 0 <= k < |es| && es[k].Waiting?;
      assert AfterNotify(es, All)[k].Notified?;
    }
  }

  /** Cancelling passes a notification on: a cancelled entry that had been notified leaves the number
      of notified entries unchanged whenever somebody is still waiting; a cancelled entry that was
      still waiting leaves every other entry as it was. */
  lemma CancelTransfersNotification(es: Entries, key: nat)
    requires LiveKey(es, key)
    ensures var r := AfterCancel(es, key);
            |r| == |es| && r[key].Vacant?
            && (es[key].Waiting? ==> Count(r, IsNotified) == Count(es, IsNotified)
                                     && Count(r, IsWaiting) == Count(es, IsWaiting) - 1)
            && (es[key].Notified? && SomeWaiting(es) ==>
                  Count(r, IsNotified) == Count(es, IsNotified) && Count(r, IsWaiting) == Count(es, IsWaiting) - 1)
            && (es[key].Notified? && !SomeWaiting(es) ==> r == Removed(es, key))
  {
    CountUpdate(es, key, Vacant, IsNotified);
    CountUpdate(es, key, Vacant, IsWaiting);
    var m := Removed(es, key);
    NotifyOneCounts(m);
    if es[key].Notified? && SomeWaiting(es) {
      var k :| 0 <= k < |es| && es[k].Waiting?;
      assert m[k].Waiting?;
    }
  }

  lemma CancelLeavesOneNotified(es: Entries, key: nat)
    requires LiveKey(es, key) && es[key].Notified? && SomeWaiting(es)
    ensures SomeNotified(AfterCancel(es, key))
  {
    var m := Removed(es, key);
    var k :| 0 <= k < |es| && es[k].Waiting?;
    assert m[k].Waiting?;
    assert AfterCancel(es, key)[FirstWaiting(m, 0)].Notified?;
  }

  /** Notifying puts nobody to sleep and keeps everybody notified who was. */
  lemma WaitingBefore(es: Entries, n: Notify)
    ensures forall k | 0 <= k < |es| :: AfterNotify(es, n)[k].Waiting? ==> es[k].Waiting?
    ensures forall k | 0 <= k < |es| :: es[k].Notified? ==> AfterNotify(es, n)[k] == es[k]
  {
    var r := AfterNotify(es, n);
    assert forall k | 0 <= k < |es| :: r[k] == es[k] || r[k] == Wake(es[k]);
  }

  lemma InsertedCounts(es: Entries, key: nat, task: Task)
    requires FreeKey(es, key)
    ensures Count(Inserted(es, key, task), IsWaiting) == Count(es, IsWaiting) + 1
    ensures Count(Inserted(es, key, task), IsNotified) == Count(es, IsNotified)
    ensures Count(Inserted(es, key, task), IsOccupied) == Count(es, IsOccupied) + 1
  {
    if key == |es| {
      CountSnoc(es, Waiting(task), IsWaiting);
      CountSnoc(es, Waiting(task), IsNotified);
      CountSnoc(es, Waiting(task), IsOccupied);
    } else {
      CountUpdate(es, key, Waiting(task), IsWaiting);
      CountUpdate(es, key, Waiting(task), IsNotified);
      CountUpdate(es, key, Waiting(task), IsOccupied);
    }
  }

  lemma {:induction false} OccupiedSplits(es: Entries)
    ensures Count(es, IsOccupied) == Count(es, IsWaiting) + Count(es, IsNotified)
  {
    if es != [] { OccupiedSplits(es[..|es| - 1]); }
  }

  lemma CountsDecideFlags(es: Entries)
    ensures SomeWaiting(es) <==> Count(es, IsWaiting) > 0
    ensures SomeNotified(es) <==> Count(es, IsOccupied) - Count(es, IsWaiting) > 0
  {
    OccupiedSplits(es);
    if SomeWaiting(es) { var k :| 0 <= k < |es| && es[k].Waiting?; CountPositive(es, k, IsWaiting); }
    if SomeNotified(es) { var k :| 0 <= k < |es| && es[k].Notified?; CountPositive(es, k, IsNotified); }
    if Count(es, IsWaiting) > 0 { var k := CountWitness(es, IsWaiting); }
    if Count(es, IsNotified) > 0 { var k := CountWitness(es, IsNotified); }
  }

  // ----- keys and their owners -----

  /** Keys held by operations and occupied entries correspond one to one; `keyOf` is negative for an
      operation that has no entry. */
  ghost predicate Owned<P(!new)>(es: Entries, threads: seq<P>, keyOf: P -> int) {
    && (forall t | 0 <= t < |threads| && keyOf(threads[t]) >= 0 ::
          LiveKey(es, keyOf(threads[t])) && es[keyOf(threads[t])].task == t)
    && (forall k | 0 <= k < |es| && !es[k].Vacant? ::
          es[k].task < |threads| && keyOf(threads[es[k].task]) == k)
  }

  lemma OwnedUnmoved<P(!new)>(es: Entries, threads: seq<P>, keyOf: P -> int, t: nat, pc: P)
    requires Owned(es, threads, keyOf) && t < |threads| && keyOf(threads[t]) == keyOf(pc)
    ensures Owned(es, threads[t := pc], keyOf)
  {
  }

  lemma OwnedByInserter<P(!new)>(es: Entries, threads: seq<P>, keyOf: P -> int, t: nat, pc: P, key: nat)
    requires Owned(es, threads, keyOf) && t < |threads| && FreeKey(es, key)
    requires keyOf(threads[t]) < 0 && keyOf(pc) == key
    ensures Owned(Inserted(es, key, t), threads[t := pc], keyOf)
  {
  }

  lemma OwnedAfterRemoval<P(!new)>(es: Entries, threads: seq<P>, keyOf: P -> int, t: nat, pc: P)
    requires Owned(es, threads, keyOf) && t < |threads| && keyOf(threads[t]) >= 0 && keyOf(pc) < 0
    ensures LiveKey(es, keyOf(threads[t])) && Owned(Removed(es, keyOf(threads[t])), threads[t := pc], keyOf)
  {
  }

  lemma OwnedAfterNotify<P(!new)>(es: Entries, threads: seq<P>, keyOf: P -> int, n: Notify)
    requires Owned(es, threads, keyOf)
    ensures Owned(AfterNotify(es, n), threads, keyOf)
  {
    var r := AfterNotify(es, n);
    assert forall k | 0 <= k < |es| :: r[k] == es[k] || r[k] == Wake(es[k]);
  }

  lemma OwnedAfterCancel<P(!new)>(es: Entries, threads: seq<P>, keyOf: P -> int, t: nat, pc: P)
    requires Owned(es, threads, keyOf) && t < |threads| && keyOf(threads[t]) >= 0 && keyOf(pc) < 0
    ensures LiveKey(es, keyOf(threads[t])) && Owned(AfterCancel(es, keyOf(threads[t])), threads[t := pc], keyOf)
  {
    OwnedAfterRemoval(es, threads, keyOf, t, pc);
    OwnedAfterNotify(Removed(es, keyOf(threads[t])), threads[t := pc], keyOf, One);
  }

  // ----- one critical section, as a protocol step sees it -----

  datatype Effect = Keeps | Inserts(key: int) | Removes(key: int) | Cancels(key: int) | Notifies(how: Notify)

  ghost predicate Possible(es: Entries, e: Effect) {
    match e
    case Inserts(key) => key >= 0 && FreeKey(es, key)
    case Removes(key) => key >= 0 && LiveKey(es, key)
    case Cancels(key) => key >= 0 && LiveKey(es, key)
    case _ => true
  }

  ghost function After(es: Entries, e: Effect, t: Task): Entries
    requires Possible(es, e)
  {
    match e
    case Keeps => es
    case Inserts(key) => Inserted(es, key, t)
    case Removes(key) => Removed(es, key)
    case Cancels(key) => AfterCancel(es, key)
    case Notifies(how) => AfterNotify(es, how)
  }

  /** An operation that inserts gets the key, one that removes or cancels had it and loses it. */
  predicate KeyFits(e: Effect, before: int, after: int) {
    match e
    case Inserts(key) => before < 0 && after == key
    case Removes(key) => before == key && after < 0
    case Cancels(key) => before == key && after < 0
    case _ => before == after
  }

  lemma OwnedAfter<P(!new)>(es: Entries, threads: seq<P>, keyOf: P -> int, t: nat, pc: P, e: Effect)
    requires Owned(es, threads, keyOf) && t < |threads| && Possible(es, e) && KeyFits(e, keyOf(threads[t]), keyOf(pc))
    ensures Owned(After(es, e, t), threads[t := pc], keyOf)
  {
    match e
    case Inserts(key) => OwnedByInserter(es, threads, keyOf, t, pc, key);
    case Removes(key) => OwnedAfterRemoval(es, threads, keyOf, t, pc);
    case Cancels(key) => OwnedAfterCancel(es, threads, keyOf, t, pc);
    case Notifies(how) =>
      OwnedAfterNotify(es, threads, keyOf, how);
      OwnedUnmoved(AfterNotify(es, how), threads, keyOf, t, pc);
    case Keeps => OwnedUnmoved(es, threads, keyOf, t, pc);
  }

  /** A critical section makes nobody wait except the operation that inserts itself. */
  lemma WaitedBefore(es: Entries, e: Effect, t: Task, k: nat)
    requires Possible(es, e) && k < |After(es, e, t)| && After(es, e, t)[k].Waiting?
    requires e.Inserts? ==> e.key != k
    ensures k < |es| && es[k] == After(es, e, t)[k]
  {
    match e
    case Cancels(key) => WaitingBefore(Removed(es, key), One);
    case Notifies(how) => WaitingBefore(es, how);
    case _ =>
  }

  /** How a critical section changes the number of notified entries while `k` keeps waiting. */
  lemma NotifiedMoves(es: Entries, e: Effect, t: Task, k: nat)
    requires Possible(es, e) && k < |es| && es[k].Waiting? && k < |After(es, e, t)| && After(es, e, t)[k].Waiting?
    ensures Count(After(es, e, t), IsNotified) - Count(es, IsNotified)
            == if e.Removes? && es[e.key].Notified? then -1 else if e == Notifies(One) then 1
               else if e == Notifies(Any) then Count(AfterNotify(es, Any), IsNotified) - Count(es, IsNotified) else 0
    ensures e != Notifies(All)
  {
    match e
    case Keeps =>
    case Inserts(key) => InsertedCounts(es, key, t);
    case Removes(key) => CountUpdate(es, key, Vacant, IsNotified);
    case Cancels(key) => CancelTransfersNotification(es, key);
    case Notifies(how) =>
      NotifyOneCounts(es);
      NotifyAllLeavesNoneWaiting(es);
  }

  // ----- the flag word -----

  /** The three bits of the flag word. */
  datatype Flag = Flag(locked: bool, notified: bool, notifiable: bool)

  /** The flag that releasing the list stores, computed from the two counters. */
  function FlagFor(occupied: nat, notifiable: nat): Flag
    requires notifiable <= occupied
  {
    Flag(false, occupied - notifiable > 0, notifiable > 0)
  }

  ghost predicate FlagExact(f: Flag, es: Entries)
  {
    (f.notifiable <==> SomeWaiting(es)) && (f.notified <==> SomeNotified(es))
  }

  // ----- the set itself -----

  class WakerSet {
    var flag: Flag
    var entries: Entries
    var occupied: nat      // the slab's own length counter
    var notifiable: nat
    var woken: seq<Task>   // the wakers consumed so far, oldest first

    ghost predicate Counted()
      reads this
    {
      occupied == Count(entries, IsOccupied) && notifiable == Count(entries, IsWaiting)
    }

    /** The set at rest: nobody holds the list, and the flag tells the truth about it. */
    ghost predicate Valid()
      reads this
    {
      Counted() && !flag.locked && FlagExact(flag, entries)
    }

    constructor ()
      ensures Valid() && entries == [] && woken == []
    {
      flag, entries, occupied, notifiable, woken := Flag(false, false, false), [], 0, 0, [];
    }

    /** Releasing the list recomputes and publishes both bits. */
    method Unlock()
      requires Counted()
      modifies this`flag
      ensures Valid()
    {
      CountsDecideFlags(entries);
      OccupiedSplits(entries);
      flag := FlagFor(occupied, notifiable);
    }

    method Lock()
      modifies this`flag
      ensures flag == old(flag).(locked := true)
    {
      flag := flag.(locked := true);
    }

    method Insert(key: nat, task: Task)
      requires Valid() && FreeKey(entries, key)
      modifies this
      ensures Valid() && entries == Inserted(old(entries), key, task) && woken == old(woken)
    {
      Lock();
      InsertedCounts(entries, key, task);
      entries := if key == |entries| then entries + [Waiting(task)] else entries[key := Waiting(task)];
      occupied := occupied + 1;
      notifiable := notifiable + 1;
      Unlock();
    }

    method Take(key: nat) returns (hadWaker: bool)
      requires Counted() && LiveKey(entries, key)
      modifies this`entries, this`occupied
      ensures entries == Removed(old(entries), key) && hadWaker == old(entries[key]).Waiting?
      ensures occupied == Count(entries, IsOccupied)
      ensures notifiable == Count(entries, IsWaiting) + Bit(hadWaker)
    {
      CountUpdate(entries, key, Vacant, IsOccupied);
      CountUpdate(entries, key, Vacant, IsWaiting);
      hadWaker := entries[key].Waiting?;
      entries := entries[key := Vacant];
      occupied := occupied - 1;
    }

    method Remove(key: nat)
      requires Valid() && LiveKey(entries, key)
      modifies this
      ensures Valid() && entries == Removed(old(entries), key) && woken == old(woken)
    {
      Lock();
      var hadWaker := Take(key);
      if hadWaker { notifiable := notifiable - 1; }
      Unlock();
    }

    /** Takes the waker out of one entry and wakes its task. */
    method WakeEntry(i: nat)
      requires Counted() && i < |entries| && entries[i].Waiting?
      modifies this`entries, this`notifiable, this`woken
      ensures Counted() && entries == old(entries)[i := Wake(old(entries)[i])]
      ensures woken == old(woken) + [old(entries)[i].task]
    {
      CountUpdate(entries, i, Wake(entries[i]), IsOccupied);
      CountUpdate(entries, i, Wake(entries[i]), IsWaiting);
      woken := woken + [entries[i].task];
      entries := entries[i := Notified(entries[i].task)];
      notifiable := notifiable - 1;
    }

    method Cancel(key: nat) returns (other: bool)
      requires Valid() && LiveKey(entries, key)
      modifies this
      ensures Valid() && entries == AfterCancel(old(entries), key)
      ensures other <==> old(entries)[key].Notified? && SomeWaiting(old(entries))
      ensures woken == old(woken) + if other then [old(entries)[FirstWaiting(old(entries), 0)].task] else []
    {
      Lock();
      var hadWaker := Take(key);
      if hadWaker {
        notifiable := notifiable - 1;
      } else {
        ghost var m := entries;
        for i := 0 to |entries|
          invariant entries == m && Counted() && woken == old(woken)
          invariant forall j | 0 <= j < i :: !m[j].Waiting?
        {
          if entries[i].Waiting? {
            forall j | 0 <= j < i ensures !old(entries)[j].Waiting? {
              assert !m[j].Waiting?;
            }
            FirstWaitingIs(m, 0, i);
            FirstWaitingIs(old(entries), 0, i);
            WakeEntry(i);
            Unlock();
            return true;
          }
        }
        FirstWaitingIs(m, 0, |m|);
        assert forall j | 0 <= j < |m| :: old(entries)[j].Waiting? ==> m[j].Waiting?;
      }
      Unlock();
      other := false;
    }

    method Notify(n: Notify) returns (notified: bool)
      requires Valid()
      modifies this
      ensures Valid() && entries == AfterNotify(old(entries), n)
      ensures woken == old(woken) + WokenBy(old(entries), n)
      ensures notified <==> WokenBy(old(entries), n) != []
    {
      Lock();
      ghost var es, log := entries, woken;
      notified := false;
      var i := 0;
      while i < |entries|
        invariant Counted() && Passed(es, n, i, entries, log, woken, notified)
      {
        PassedNext(es, n, i, entries, log, woken, notified);
        if !entries[i].Vacant? {
          if entries[i].Waiting? {
            WakeEntry(i);
            notified := true;
            if n.One? { break; }
          }
          if n.Any? { break; }
        }
        i := i + 1;
      }
      if i == |es| { PassedAll(es, n, entries, log, woken, notified); }
      Unlock();
    }

    /** The three public notifications look at the published flag before they take the list. */
    method NotifyAny() returns (notified: bool)
      requires Valid()
      modifies this
      ensures Valid()
      ensures entries == if SomeNotified(old(entries)) then old(entries) else AfterNotify(old(entries), Any)
      ensures SomeWaiting(old(entries)) ==> SomeNotified(entries)
    {
      if exists k :: 0 <= k < |entries| && !entries[k].Vacant? { NotifyAnyLeavesOneNotified(entries); }
      if !flag.notified && flag.notifiable {
        notified := Notify(Any);
      } else {
        notified := false;
      }
    }

    method NotifyOne() returns (notified: bool)
      requires Valid()
      modifies this
      ensures Valid() && entries == AfterNotify(old(entries), One)
      ensures notified <==> SomeWaiting(old(entries))
    {
      if flag.notifiable {
        notified := Notify(One);
      } else {
        notified := false;
      }
    }

    method NotifyAll() returns (notified: bool)
      requires Valid()
      modifies this
      ensures Valid() && entries == AfterNotify(old(entries), All) && !SomeWaiting(entries)
      ensures notified <==> SomeWaiting(old(entries))
    {
      NotifyAllLeavesNoneWaiting(entries);
      if flag.notifiable {
        WaitingTasksNonEmpty(entries);
        notified := Notify(All);
      } else {
        notified := false;
        assert entries == AfterNotify(entries, All);
      }
    }
  }

  lemma FirstWaitingIs(es: Entries, from: nat, i: nat)
    requires from <= i <= |es|
    requires forall j | from <= j < i :: !es[j].Waiting?
    requires i < |es| ==> es[i].Waiting?
    ensures FirstWaiting(es, from) == i
  {
  }

  lemma FirstOccupiedIs(es: Entries, from: nat, i: nat)
    requires from <= i <= |es|
    requires forall j | from <= j < i :: es[j].Vacant?
    requires i < |es| ==> !es[i].Vacant?
    ensures FirstOccupied(es, from) == i
  {
  }

  /** The notifying loop has passed the first `i` entries of `es` without stopping. */
  ghost predicate Passed(es: Entries, n: Notify, i: nat, now: Entries, log: seq<Task>, woken: seq<Task>, notified: bool)
  {
    && i <= |es| == |now|
    && match n
       case Any => (forall j | 0 <= j < i :: es[j].Vacant?) && now == es && woken == log && !notified
       case One => (forall j | 0 <= j < i :: !es[j].Waiting?) && now == es && woken == log && !notified
       case All => (forall j | 0 <= j < |es| :: now[j] == if j < i then Wake(es[j]) else es[j])
                   && woken == log + WaitingTasks(es[..i]) && (notified <==> WaitingTasks(es[..i]) != [])
  }

  /** Visiting entry `i` either stops with the final result or passes one entry more. */
  lemma PassedNext(es: Entries, n: Notify, i: nat, now: Entries, log: seq<Task>, woken: seq<Task>, notified: bool)
    requires i < |es| && Passed(es, n, i, now, log, woken, notified)
    ensures var w := es[i].Waiting?;
            var now' := if w then now[i := Wake(now[i])] else now;
            var woken' := if w then woken + [now[i].task] else woken;
            now[i] == es[i]
            && if (n.One? && w) || (n.Any? && !es[i].Vacant?)
               then now' == AfterNotify(es, n) && woken' == log + WokenBy(es, n) && (w <==> WokenBy(es, n) != [])
               else Passed(es, n, i + 1, now', log, woken', notified || w)
  {
    assert es[..i + 1][..i] == es[..i];
    if n.One? && es[i].Waiting? { FirstWaitingIs(es, 0, i); }
    if n.Any? && !es[i].Vacant? { FirstOccupiedIs(es, 0, i); }
    if n.All? && es[i].Waiting? {
      assert log + WaitingTasks(es[..i + 1]) == (log + WaitingTasks(es[..i])) + [es[i].task];
    }
  }

  lemma PassedAll(es: Entries, n: Notify, now: Entries, log: seq<Task>, woken: seq<Task>, notified: bool)
    requires Passed(es, n, |es|, now, log, woken, notified)
    ensures now == AfterNotify(es, n) && woken == log + WokenBy(es, n) && (notified <==> WokenBy(es, n) != [])
  {
    assert es[..|es|] == es;
    if n.One? { FirstWaitingIs(es, 0, |es|); }
    if n.Any? { FirstOccupiedIs(es, 0, |es|); }
  }
}
