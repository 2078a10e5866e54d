/** The spin lock of `src/sync/waker_set.rs`: why a critical section of a waker set may be taken as one step.

    Any number of threads lock the list with `fetch_or`, change entries and counters one access at a time,
    and publish the flag when they release it; others load the flag at any moment. `committed` is the list as
    of the last release, and `effects` the sections released so far. */
module WakerSetLock {
  import opened Counting
  import opened WakerSets

  datatype Pc =
    | Outside
    | Spinning(effect: Effect)                  // in `lock`, with a section to perform
    | Inside(effect: Effect, start: Entries)    // holds the list, which was `start` when it got it

  datatype Step = Section(effect: Effect, task: Task)

  datatype State = State(
    flag: Flag, entries: Entries, occupied: nat, notifiable: nat, threads: seq<Pc>,
    committed: Entries, effects: seq<Step>)

  datatype Action =
    | Begin(effect: Effect)
    | FetchOr                                   // sets LOCKED; whoever finds it clear has the list
    | Change(entries: Entries, occupied: nat, notifiable: nat)  // any access of the holder to the list
    | Release                                   // the section is complete: compute and store the flag

  ghost predicate Init(s: State) {
    && s.flag == Flag(false, false, false) && s.entries == [] && s.occupied == 0 && s.notifiable == 0
    && s.committed == [] && s.effects == []
    && forall t | 0 <= t < |s.threads| :: s.threads[t].Outside?
  }

  /** A section is complete when the list is what its operation makes of the list it found, and the counters
      count it; the operations of the set end every section that way. */
  ghost predicate Complete(s: State, t: nat)
    requires t < |s.threads| && s.threads[t].Inside?
  {
    var pc := s.threads[t];
    && Possible(pc.start, pc.effect) && s.entries == After(pc.start, pc.effect, t)
    && s.occupied == Count(s.entries, IsOccupied) && s.notifiable == Count(s.entries, IsWaiting)
  }

  ghost predicate Enabled(s: State, t: nat, a: Action) {
    t < |s.threads| &&
    match a
    case Begin(_) => s.threads[t].Outside?
    case FetchOr => s.threads[t].Spinning?
    case Change(_, _, _) => s.threads[t].Inside?
    case Release => s.threads[t].Inside? && s.notifiable <= s.occupied && Complete(s, t)
  }

  ghost function Apply(s: State, t: nat, a: Action): State
    requires Enabled(s, t, a)
  {
    match a
    case Begin(effect) => s.(threads := s.threads[t := Spinning(effect)])
    case FetchOr =>
      if s.flag.locked then s
      else s.(flag := s.flag.(locked := true), threads := s.threads[t := Inside(s.threads[t].effect, s.entries)])
    case Change(entries, occupied, notifiable) => s.(entries := entries, occupied := occupied, notifiable := notifiable)
    case Release =>
      s.(flag := FlagFor(s.occupied, s.notifiable), threads := s.threads[t := Outside],
         committed := s.entries, effects := s.effects + [Section(s.threads[t].effect, t)])
  }

  ghost predicate Next(s: State, s': State) {
    exists t: nat, a :: Enabled(s, t, a) && s' == Apply(s, t, a)
  }

  ghost predicate Run(run: seq<State>) {
    |run| > 0 && Init(run[0]) && forall i | 0 <= i < |run| - 1 :: Next(run[i], run[i + 1])
  }

  /** The list after some sections, one after the other, if every one was possible when its turn came. */
  ghost function Replay(effects: seq<Step>): Option<Entries> {
    if effects == [] then Some([])
    else
      var before, last := Replay(effects[..|effects| - 1]), effects[|effects| - 1];
      if before.Some? && Possible(before.value, last.effect)
      then Some(After(before.value, last.effect, last.task)) else None
  }

  ghost predicate Inv(s: State) {
    && (s.flag.locked <==> exists t :: 0 <= t < |s.threads| && s.threads[t].Inside?)
    && (forall t, u | 0 <= t < |s.threads| && 0 <= u < |s.threads| ::
          s.threads[t].Inside? && s.threads[u].Inside? ==> t == u)
    && (forall t | 0 <= t < |s.threads| && s.threads[t].Inside? :: s.threads[t].start == s.committed)
    && (!s.flag.locked ==> s.entries == s.committed)
    && FlagExact(s.flag, s.committed)
    && Replay(s.effects) == Some(s.committed)
  }

  lemma InvKept(s: State, t: nat, a: Action)
    requires Inv(s) && Enabled(s, t, a)
    ensures Inv(Apply(s, t, a))
  {
    var s' := Apply(s, t, a);
    match a
    case FetchOr => if !s.flag.locked { assert s'.threads[t].Inside?; } else { assert s' == s; }
    case Release =>
      CountsDecideFlags(s.entries);
      OccupiedSplits(s.entries);
      ReplaysOneMore(s.effects, s.committed, Section(s.threads[t].effect, t));
    case _ => OthersStayInside(s, t, a);
  }

  lemma ReplaysOneMore(effects: seq<Step>, es: Entries, last: Step)
    requires Replay(effects) == Some(es) && Possible(es, last.effect)
    ensures Replay(effects + [last]) == Some(After(es, last.effect, last.task))
  {
    assert (effects + [last])[..|effects|] == effects;
  }

  lemma OthersStayInside(s: State, t: nat, a: Action)
    requires Enabled(s, t, a) && (a.Begin? || a.Change?)
    ensures forall u | 0 <= u < |s.threads| :: Apply(s, t, a).threads[u].Inside? <==> s.threads[u].Inside?
  {
  }

  lemma {:induction false} RunKeepsInv(run: seq<State>, i: nat)
    requires Run(run) && i < |run|
    ensures Inv(run[i])
  {
    hide Inv, Apply, Enabled;
    if i == 0 {
      InitEstablishesInv(run[0]);
    } else {
      RunKeepsInv(run, i - 1);
      assert Next(run[i - 1], run[i - 1 + 1]);
      var t: nat, a :| Enabled(run[i - 1], t, a) && run[i] == Apply(run[i - 1], t, a);
      InvKept(run[i - 1], t, a);
    }
  }

  lemma InitEstablishesInv(s: State)
    requires Init(s)
    ensures Inv(s)
  {
  }

  /** Over every run: one thread at a time has the list; the list as released is the result of the released
      sections, each taken whole, in the order of their releases; and whoever loads the flag, even in the
      middle of a section, reads exactly what that list says. */
  lemma SectionsAreAtomic(run: seq<State>, i: nat)
    requires Run(run) && i < |run|
    ensures var s := run[i];
            && (forall t, u | 0 <= t < |s.threads| && 0 <= u < |s.threads| ::
                  s.threads[t].Inside? && s.threads[u].Inside? ==> t == u)
            && (s.flag.locked <==> exists t :: 0 <= t < |s.threads| && s.threads[t].Inside?)
            && Replay(s.effects) == Some(s.committed)
            && (s.flag.notifiable <==> SomeWaiting(s.committed)) && (s.flag.notified <==> SomeNotified(s.committed))
  {
    RunKeepsInv(run, i);
  }
}
