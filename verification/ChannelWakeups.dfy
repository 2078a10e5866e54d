/** No wake-up of the channel is lost: counting arguments over any number of senders and receivers. */
module ChannelWakeups {
  import opened Counting
  import opened Stamps
  import opened WakerSets
  import opened Channel
  import opened ChannelRing

  // ----- who holds a key, who sleeps, who will wake somebody -----

  function SendKey(pc: Pc): int {
    if pc.SendFullTail? || pc.SendFullHead? || pc.SendCheckMark? || pc.SendLoop? || pc.SendParked? then pc.key else -1
  }

  predicate WaitsToReceive(pc: Pc) {
    pc.RecvEmptyHead? || pc.RecvEmptyTail? || pc.RecvCheckMark? || pc.RecvLoop? || pc.RecvParked?
  }

  function FutureKey(pc: Pc): int { if WaitsToReceive(pc) && pc.kind.Future? then pc.key else -1 }

  function StreamKey(pc: Pc): int { if WaitsToReceive(pc) && pc.kind.Stream? then pc.key else -1 }

  ghost predicate Keys(s: State) {
    && Owned(s.sendWakers, s.threads, SendKey)
    && Owned(s.recvWakers, s.threads, FutureKey)
    && Owned(s.streamWakers, s.threads, StreamKey)
  }

  predicate EntryWaits(es: Entries, key: nat) { key < |es| && es[key].Waiting? }

  /** A send that saw the channel full after it inserted its waker, and whose waker is still there. */
  ghost predicate SendSleeps(s: State, t: nat) {
    t < |s.threads| && (s.threads[t].SendCheckMark? || s.threads[t].SendParked?)
    && EntryWaits(s.sendWakers, s.threads[t].key)
  }

  /** A receive that saw the channel empty after it inserted its waker, and whose waker is still there. */
  ghost predicate RecvSleeps(s: State, t: nat, kind: Kind) {
    && t < |s.threads| && (s.threads[t].RecvCheckMark? || s.threads[t].RecvParked?)
    && s.threads[t].kind == kind && EntryWaits(Wakers(s, kind), s.threads[t].key)
  }

  /** A receiver between moving the head and the end of its `notify_one`. */
  predicate OwesSender(pc: Pc) { pc.RecvRead? || pc.RecvStore? || pc.RecvWakeOne? || pc.RecvWakeOneGo? }

  /** A sender between moving the tail and the end of its `notify_one`. */
  predicate OwesReceiver(pc: Pc) { pc.SendWrite? || pc.SendStore? || pc.SendWakeOne? || pc.SendWakeOneGo? }

  /** A sender between moving the tail and the end of its `notify_all` on streams. */
  predicate OwesStreams(pc: Pc) { OwesReceiver(pc) || pc.SendWakeStreams? || pc.SendWakeStreamsGo? }

  /** Woken by a notification and not yet through with the retry. */
  predicate RetriesSend(pc: Pc) { (pc.SendLoad? || pc.SendStamp? || pc.SendCas? || pc.SendHead?) && pc.credit }

  predicate RetriesRecv(pc: Pc) {
    (pc.RecvLoad? || pc.RecvStamp? || pc.RecvCas? || pc.RecvTail?) && pc.kind.Future? && pc.credit
  }

  function FreeSlots(r: Ring): int { r.popped + r.cfg.cap - r.pushed }
  function Queued(r: Ring): int { r.pushed - r.popped }

  ghost function SendBudget(s: State): nat {
    Count(s.threads, OwesSender) + Count(s.sendWakers, IsNotified) + Count(s.threads, RetriesSend)
  }

  ghost function RecvBudget(s: State): nat {
    Count(s.threads, OwesReceiver) + Count(s.recvWakers, IsNotified) + Count(s.threads, RetriesRecv)
  }

  ghost predicate SendBound(s: State) {
    (exists t: nat :: SendSleeps(s, t)) ==> FreeSlots(s.ring) <= SendBudget(s)
  }

  ghost predicate RecvBound(s: State) {
    (exists t: nat :: RecvSleeps(s, t, Future)) ==> Queued(s.ring) <= RecvBudget(s)
  }

  ghost predicate StreamsHelped(s: State) {
    (exists t: nat :: RecvSleeps(s, t, Stream)) && Queued(s.ring) > 0
    ==> exists u :: 0 <= u < |s.threads| && OwesStreams(s.threads[u])
  }

  // ----- what a step does to the three sets -----

  function SendEffect(pc: Pc, a: Action): Effect {
    if a.InsertWaker? && pc.SendInsert? then Inserts(a.key)
    else if a.Advance? && (pc.SendLoop? || pc.SendParked?) then Removes(pc.key)
    else if a.DropFuture? && pc.SendParked? then Cancels(pc.key)
    else if a.Advance? && pc.RecvWakeOneGo? then Notifies(One)
    else if a.Advance? && pc.WakeSendersGo? then Notifies(All)
    else Keeps
  }

  function RecvEffect(pc: Pc, a: Action, kind: Kind): Effect {
    if a.InsertWaker? && pc.RecvInsert? && pc.kind == kind then Inserts(a.key)
    else if a.Advance? && (pc.RecvLoop? || pc.RecvParked?) && pc.kind == kind then Removes(pc.key)
    else if a.DropFuture? && pc.RecvParked? && pc.kind == kind then Cancels(pc.key)
    else if a.Advance? && pc.SendWakeOneGo? && kind.Future? then Notifies(One)
    else if a.Advance? && pc.SendWakeStreamsGo? && kind.Stream? then Notifies(All)
    else if a.Advance? && pc.WakeReceiversGo? && kind.Future? then Notifies(All)
    else if a.Advance? && pc.WakeStreamsGo? && kind.Stream? then Notifies(All)
    else Keeps
  }

  ghost predicate SetsMove(s: State, t: nat, a: Action, s': State)
    requires t < |s.threads|
  {
    var pc := s.threads[t];
    && |s'.threads| == |s.threads| && s'.threads == s.threads[t := s'.threads[t]]
    && Possible(s.sendWakers, SendEffect(pc, a))
    && Possible(s.recvWakers, RecvEffect(pc, a, Future))
    && Possible(s.streamWakers, RecvEffect(pc, a, Stream))
    && s'.sendWakers == After(s.sendWakers, SendEffect(pc, a), t)
    && s'.recvWakers == After(s.recvWakers, RecvEffect(pc, a, Future), t)
    && s'.streamWakers == After(s.streamWakers, RecvEffect(pc, a, Stream), t)
  }

  ghost predicate KeysMove(pc: Pc, a: Action, pc': Pc) {
    && KeyFits(SendEffect(pc, a), SendKey(pc), SendKey(pc'))
    && KeyFits(RecvEffect(pc, a, Future), FutureKey(pc), FutureKey(pc'))
    && KeyFits(RecvEffect(pc, a, Stream), StreamKey(pc), StreamKey(pc'))
  }

  lemma AdvanceIs(s: State, t: nat)
    requires Enabled(s, t, Advance)
    ensures UsesSender(s.threads[t]) ==> Apply(s, t, Advance) == SendStep(s, t)
    ensures UsesReceiver(s.threads[t]) ==> Apply(s, t, Advance) == RecvStep(s, t)
    ensures !UsesSender(s.threads[t]) && !UsesReceiver(s.threads[t]) ==> Apply(s, t, Advance) == OtherStep(s, t)
  {
  }

  lemma SendMovesSets(s: State, t: nat)
    requires Enabled(s, t, Advance) && UsesSender(s.threads[t])
    ensures SetsMove(s, t, Advance, SendStep(s, t))
  {
    hide Index, Unmarked, Cleared, Mark, Or, Advanced, WrappingAdd, Removed, AfterNotify, SomeWaiting;
  }

  lemma SendMovesKeys(s: State, t: nat)
    requires Enabled(s, t, Advance) && UsesSender(s.threads[t])
    ensures KeysMove(s.threads[t], Advance, SendStep(s, t).threads[t])
  {
    SendMovesSendKey(s, t);
    SendMovesRecvKeys(s, t);
  }

  lemma SendMovesSendKey(s: State, t: nat)
    requires Enabled(s, t, Advance) && UsesSender(s.threads[t])
    ensures KeyFits(SendEffect(s.threads[t], Advance), SendKey(s.threads[t]), SendKey(SendStep(s, t).threads[t]))
  {
    hide Index, Unmarked, Cleared, Mark, Or, Advanced, WrappingAdd, Removed, AfterNotify, SomeWaiting;
  }

  lemma SendMovesRecvKeys(s: State, t: nat)
    requires Enabled(s, t, Advance) && UsesSender(s.threads[t])
    ensures KeyFits(RecvEffect(s.threads[t], Advance, Future), FutureKey(s.threads[t]),
                    FutureKey(SendStep(s, t).threads[t]))
    ensures KeyFits(RecvEffect(s.threads[t], Advance, Stream), StreamKey(s.threads[t]),
                    StreamKey(SendStep(s, t).threads[t]))
  {
    hide Index, Unmarked, Cleared, Mark, Or, Advanced, WrappingAdd, Removed, AfterNotify, SomeWaiting;
  }

  lemma RecvMovesSets(s: State, t: nat)
    requires Enabled(s, t, Advance) && UsesReceiver(s.threads[t])
    ensures SetsMove(s, t, Advance, RecvStep(s, t))
  {
    hide Index, Unmarked, Cleared, Mark, Or, Advanced, WrappingAdd, Removed, AfterNotify, SomeWaiting;
  }

  lemma RecvMovesKeys(s: State, t: nat)
    requires Enabled(s, t, Advance) && UsesReceiver(s.threads[t])
    ensures KeysMove(s.threads[t], Advance, RecvStep(s, t).threads[t])
  {
    RecvMovesSendKey(s, t);
    RecvMovesRecvKeys(s, t);
  }

  lemma RecvMovesSendKey(s: State, t: nat)
    requires Enabled(s, t, Advance) && UsesReceiver(s.threads[t])
    ensures KeyFits(SendEffect(s.threads[t], Advance), SendKey(s.threads[t]), SendKey(RecvStep(s, t).threads[t]))
  {
    hide Index, Unmarked, Cleared, Mark, Or, Advanced, WrappingAdd, Removed, AfterNotify, SomeWaiting;
  }

  lemma RecvMovesRecvKeys(s: State, t: nat)
    requires Enabled(s, t, Advance) && UsesReceiver(s.threads[t])
    ensures KeyFits(RecvEffect(s.threads[t], Advance, Future), FutureKey(s.threads[t]),
                    FutureKey(RecvStep(s, t).threads[t]))
    ensures KeyFits(RecvEffect(s.threads[t], Advance, Stream), StreamKey(s.threads[t]),
                    StreamKey(RecvStep(s, t).threads[t]))
  {
    hide Index, Unmarked, Cleared, Mark, Or, Advanced, WrappingAdd, Removed, AfterNotify, SomeWaiting;
  }

  lemma OtherMovesSets(s: State, t: nat)
    requires Enabled(s, t, Advance) && !UsesSender(s.threads[t]) && !UsesReceiver(s.threads[t])
    ensures SetsMove(s, t, Advance, OtherStep(s, t))
  {
    hide Sized, TouchesSlot, FreeKey, LiveKey, Mark, Or, AfterNotify, SomeWaiting;
  }

  lemma OtherMovesKeys(s: State, t: nat)
    requires Enabled(s, t, Advance) && !UsesSender(s.threads[t]) && !UsesReceiver(s.threads[t])
    ensures KeysMove(s.threads[t], Advance, OtherStep(s, t).threads[t])
  {
    assert NoKeyPlace(s.threads[t]) && NoKeyPlace(OtherStep(s, t).threads[t]);
  }

  predicate NoKeyPlace(pc: Pc) {
    pc.Idle? || pc.LenTail? || pc.LenHead? || pc.LenAgain? || pc.SenderGone? || pc.ReceiverGone? || pc.Marking?
    || pc.WakeSenders? || pc.WakeSendersGo? || pc.WakeReceivers? || pc.WakeReceiversGo?
    || pc.WakeStreams? || pc.WakeStreamsGo?
  }

  lemma ChoiceMovesSets(s: State, t: nat, a: Action)
    requires Enabled(s, t, a) && !a.Advance?
    ensures SetsMove(s, t, a, Apply(s, t, a)) && KeysMove(s.threads[t], a, Apply(s, t, a).threads[t])
  {
    hide Apply, Enabled, SetsMove, KeysMove;
    if a.InsertWaker? {
      InsertMovesSets(s, t, a);
    } else if a.DropFuture? {
      DropMovesSets(s, t);
    } else {
      BeginMovesSets(s, t, a);
    }
  }

  lemma InsertMovesSets(s: State, t: nat, a: Action)
    requires Enabled(s, t, a) && a.InsertWaker?
    ensures SetsMove(s, t, a, Apply(s, t, a)) && KeysMove(s.threads[t], a, Apply(s, t, a).threads[t])
  {
    hide Inserted, FreeKey;
  }

  lemma DropMovesSets(s: State, t: nat)
    requires Enabled(s, t, DropFuture)
    ensures SetsMove(s, t, DropFuture, Apply(s, t, DropFuture))
    ensures KeysMove(s.threads[t], DropFuture, Apply(s, t, DropFuture).threads[t])
  {
    hide Sized, TouchesSlot, AfterCancel, LiveKey, SomeUser;
  }

  lemma BeginMovesSets(s: State, t: nat, a: Action)
    requires Enabled(s, t, a) && !a.Advance? && !a.InsertWaker? && !a.DropFuture?
    ensures SetsMove(s, t, a, Apply(s, t, a)) && KeysMove(s.threads[t], a, Apply(s, t, a).threads[t])
  {
    hide Sized, TouchesSlot, FreeKey, LiveKey, SomeUser;
  }

  lemma StepMovesSets(s: State, t: nat, a: Action)
    requires Enabled(s, t, a)
    ensures SetsMove(s, t, a, Apply(s, t, a)) && KeysMove(s.threads[t], a, Apply(s, t, a).threads[t])
  {
    if !a.Advance? { ChoiceMovesSets(s, t, a); }
    else if UsesSender(s.threads[t]) { SendMovesSets(s, t); SendMovesKeys(s, t); }
    else if UsesReceiver(s.threads[t]) { RecvMovesSets(s, t); RecvMovesKeys(s, t); }
    else { OtherMovesSets(s, t); OtherMovesKeys(s, t); }
  }

  lemma KeysKept(s: State, t: nat, a: Action)
    requires Keys(s) && Enabled(s, t, a)
    ensures Keys(Apply(s, t, a))
  {
    var pc, pc' := s.threads[t], Apply(s, t, a).threads[t];
    StepMovesSets(s, t, a);
    OwnedAfter(s.sendWakers, s.threads, SendKey, t, pc', SendEffect(pc, a));
    OwnedAfter(s.recvWakers, s.threads, FutureKey, t, pc', RecvEffect(pc, a, Future));
    OwnedAfter(s.streamWakers, s.threads, StreamKey, t, pc', RecvEffect(pc, a, Stream));
  }

  // ----- senders -----

  /** The verdict "full" is reached only when the channel is full at that very moment. */
  lemma FullVerdictIsTrue(s: State, t: nat)
    requires RingInv(s.ring, s.threads) && Fresh(s, t) && Enabled(s, t, Advance)
    requires s.threads[t].SendHead? || s.threads[t].SendFullHead?
    requires var pc' := SendStep(s, t).threads[t]; pc'.SendInsert? || pc'.SendStuck? || pc'.SendCheckMark?
    ensures FreeSlots(s.ring) == 0 && SendStep(s, t).ring == s.ring
    ensures SendStep(s, t).threads[t].SendStuck? ==> s.ring.marked
  {
    hide RingInv, Unmarked, Cleared, Mark, WrappingAdd;
    var pc := s.threads[t];
    ThreadOf(s.ring, s.threads, t);
    Decode(s.ring.cfg, pc.p, pc.m);
    FullTells(s.ring, s.threads, pc.p);
  }

  /** The step by which a full channel is reported or believed. */
  ghost predicate SaysFull(pc: Pc, a: Action, pc': Pc) {
    a.Advance? && ((pc.SendHead? && (pc'.SendInsert? || pc'.SendStuck?)) || (pc.SendFullHead? && pc'.SendCheckMark?))
  }

  /** Apart from those steps, an operation keeps its credit and its debt, or trades them for a slot. */
  ghost predicate SendTrade(r: Ring, pc: Pc, a: Action, r': Ring, pc': Pc) {
    FreeSlots(r') - FreeSlots(r) <=
      Bit(OwesSender(pc')) + Bit(RetriesSend(pc')) - Bit(OwesSender(pc)) - Bit(RetriesSend(pc))
      + (if a.Advance? && pc.RecvWakeOneGo? then 1 else 0)
  }

  lemma SendTradesOfSend(s: State, t: nat)
    requires Enabled(s, t, Advance) && UsesSender(s.threads[t])
    requires !SaysFull(s.threads[t], Advance, SendStep(s, t).threads[t])
    requires !s.threads[t].SendLoop? && !s.threads[t].SendParked?
    ensures SendTrade(s.ring, s.threads[t], Advance, SendStep(s, t).ring, SendStep(s, t).threads[t])
  {
    hide Index, Unmarked, Cleared, Mark, Or, Advanced, WrappingAdd, AfterNotify, SomeWaiting;
  }

  lemma SendTradesOfRecv(s: State, t: nat)
    requires Enabled(s, t, Advance) && UsesReceiver(s.threads[t]) && SomeWaiting(s.sendWakers)
    ensures SendTrade(s.ring, s.threads[t], Advance, RecvStep(s, t).ring, RecvStep(s, t).threads[t])
  {
    hide Index, Unmarked, Cleared, Mark, Or, Advanced, WrappingAdd, Removed, AfterNotify;
  }

  lemma SendTrades(s: State, t: nat, a: Action)
    requires Enabled(s, t, a) && SomeWaiting(s.sendWakers) && !SaysFull(s.threads[t], a, Apply(s, t, a).threads[t])
    requires !SendEffect(s.threads[t], a).Removes?
    ensures SendTrade(s.ring, s.threads[t], a, Apply(s, t, a).ring, Apply(s, t, a).threads[t])
  {
    if a.Advance? && UsesSender(s.threads[t]) { SendTradesOfSend(s, t); }
    else if a.Advance? && UsesReceiver(s.threads[t]) { SendTradesOfRecv(s, t); }
  }

  /** Nobody but an operation that believes the channel full falls asleep. */
  lemma SendSleptBefore(s: State, t: nat, a: Action, p: nat)
    requires Owned(s.sendWakers, s.threads, SendKey) && Enabled(s, t, a) && SendSleeps(Apply(s, t, a), p)
    requires !SaysFull(s.threads[t], a, Apply(s, t, a).threads[t])
    ensures SendSleeps(s, p) && Apply(s, t, a).threads[p].key == s.threads[p].key
  {
    StepMovesSets(s, t, a);
    if p == t {
      SleepyBefore(s, t, a);
    } else {
      assert SendKey(s.threads[p]) == s.threads[p].key;
    }
    WaitedBefore(s.sendWakers, SendEffect(s.threads[t], a), t, s.threads[p].key);
  }

  lemma SleepyBefore(s: State, t: nat, a: Action)
    requires Enabled(s, t, a) && !SaysFull(s.threads[t], a, Apply(s, t, a).threads[t])
    requires var pc' := Apply(s, t, a).threads[t]; pc'.SendCheckMark? || pc'.SendParked?
    ensures s.threads[t].SendCheckMark? && SendEffect(s.threads[t], a).Keeps?
    ensures Apply(s, t, a).threads[t].key == s.threads[t].key
  {
    if a.Advance? {
      if UsesSender(s.threads[t]) { SendSleepyBefore(s, t); }
      else if UsesReceiver(s.threads[t]) { RecvStaysRecv(s, t); }
      else { OtherStaysOther(s, t); }
    }
  }

  lemma SendSleepyBefore(s: State, t: nat)
    requires Enabled(s, t, Advance) && UsesSender(s.threads[t])
    requires var pc' := SendStep(s, t).threads[t]; pc'.SendCheckMark? || pc'.SendParked?
    ensures s.threads[t].SendCheckMark? || s.threads[t].SendFullHead?
    ensures s.threads[t].SendCheckMark? ==> SendStep(s, t).threads[t].key == s.threads[t].key
    ensures s.threads[t].SendFullHead? ==> SendStep(s, t).threads[t].SendCheckMark?
  {
    hide Index, Unmarked, Cleared, Mark, Or, Advanced, WrappingAdd, Removed, AfterNotify, SomeWaiting;
  }

  lemma RecvStaysRecv(s: State, t: nat)
    requires Enabled(s, t, Advance) && UsesReceiver(s.threads[t])
    ensures UsesReceiver(RecvStep(s, t).threads[t]) || RecvStep(s, t).threads[t].Idle?
  {
    hide Index, Unmarked, Cleared, Mark, Or, Advanced, WrappingAdd, Removed, AfterNotify, SomeWaiting;
  }

  lemma SendStaysSend(s: State, t: nat)
    requires Enabled(s, t, Advance) && UsesSender(s.threads[t])
    ensures UsesSender(SendStep(s, t).threads[t]) || SendStep(s, t).threads[t].Idle?
  {
    hide Index, Unmarked, Cleared, Mark, Or, Advanced, WrappingAdd, Removed, AfterNotify, SomeWaiting;
  }

  lemma OtherStaysOther(s: State, t: nat)
    requires Enabled(s, t, Advance) && !UsesSender(s.threads[t]) && !UsesReceiver(s.threads[t])
    ensures NoKeyPlace(OtherStep(s, t).threads[t])
    ensures !UsesSender(OtherStep(s, t).threads[t]) && !UsesReceiver(OtherStep(s, t).threads[t])
  {
    hide Sized, TouchesSlot, FreeKey, LiveKey, Or, Mark, AfterNotify, SomeWaiting;
  }

  /** While an operation sleeps, a step moves the free slots by no more than the budget. */
  lemma SendBudgetMoves(s: State, t: nat, a: Action, p: nat)
    requires Enabled(s, t, a) && SendSleeps(s, p) && SendSleeps(Apply(s, t, a), p)
    requires Apply(s, t, a).threads[p].key == s.threads[p].key
    requires !SaysFull(s.threads[t], a, Apply(s, t, a).threads[t])
    ensures FreeSlots(Apply(s, t, a).ring) - FreeSlots(s.ring) <= SendBudget(Apply(s, t, a)) - SendBudget(s)
  {
    hide Apply, RecvEffect, SendEffect, KeysMove;
    var s', pc := Apply(s, t, a), s.threads[t];
    var pc', e := s'.threads[t], SendEffect(pc, a);
    StepMovesSets(s, t, a);
    assert s.sendWakers[s.threads[p].key].Waiting?;
    NotifiedMoves(s.sendWakers, e, t, s.threads[p].key);
    CountUpdate(s.threads, t, pc', OwesSender);
    CountUpdate(s.threads, t, pc', RetriesSend);
    SendEffectNotifies(pc, a);
    if e.Removes? { SendRemovalTrades(s, t, a); } else { SendTrades(s, t, a); }
  }

  lemma SendEffectNotifies(pc: Pc, a: Action)
    ensures SendEffect(pc, a) == Notifies(One) <==> a.Advance? && pc.RecvWakeOneGo?
    ensures SendEffect(pc, a) != Notifies(Any)
  {
  }

  /** Removing a notified entry turns the notification into a credit. */
  lemma SendRemovalTrades(s: State, t: nat, a: Action)
    requires Enabled(s, t, a) && SendEffect(s.threads[t], a).Removes?
    ensures Apply(s, t, a).ring == s.ring
    ensures var pc, pc' := s.threads[t], Apply(s, t, a).threads[t];
            && SendEffect(pc, a) == Removes(pc.key)
            && pc.key < |s.sendWakers| && !OwesSender(pc) && !RetriesSend(pc) && !OwesSender(pc')
            && (RetriesSend(pc') <==> s.sendWakers[pc.key].Notified?)
  {
  }

  lemma SendBoundKept(s: State, t: nat, a: Action)
    requires RingInv(s.ring, s.threads) && FreshStep(s, t, a) && Owned(s.sendWakers, s.threads, SendKey)
             && SendBound(s) && Enabled(s, t, a)
    ensures SendBound(Apply(s, t, a))
  {
    var s', pc := Apply(s, t, a), s.threads[t];
    if SaysFull(pc, a, s'.threads[t]) {
      FullVerdictIsTrue(s, t);
    } else if exists p: nat :: SendSleeps(s', p) {
      var p: nat :| SendSleeps(s', p);
      SendSleptBefore(s, t, a, p);
      SendBudgetMoves(s, t, a, p);
    }
  }

  // ----- receivers -----

  /** The verdict "empty" is reached only when the channel is empty at that very moment. */
  lemma EmptyVerdictIsTrue(s: State, t: nat)
    requires RingInv(s.ring, s.threads) && Fresh(s, t) && Enabled(s, t, Advance)
    requires s.threads[t].RecvTail? || s.threads[t].RecvEmptyTail?
    requires var pc' := RecvStep(s, t).threads[t]; pc'.RecvInsert? || pc'.Idle? || pc'.RecvCheckMark?
    ensures Queued(s.ring) == 0 && RecvStep(s, t).ring == s.ring
    ensures RecvStep(s, t).threads[t].Idle? ==> s.ring.marked
    ensures RecvStep(s, t).threads[t].RecvInsert? ==> !s.ring.marked
  {
    hide RingInv, Cleared, Mark, SomeWaiting, AfterNotify, Removed;
    var pc := s.threads[t];
    ThreadOf(s.ring, s.threads, t);
    EmptyTells(s.ring, s.threads, pc.p);
  }

  ghost predicate SaysEmpty(pc: Pc, a: Action, pc': Pc) {
    a.Advance? && ((pc.RecvTail? && (pc'.RecvInsert? || pc'.Idle?)) || (pc.RecvEmptyTail? && pc'.RecvCheckMark?))
  }

  ghost predicate RecvTrade(r: Ring, pc: Pc, a: Action, r': Ring, pc': Pc) {
    Queued(r') - Queued(r) <=
      Bit(OwesReceiver(pc')) + Bit(RetriesRecv(pc')) - Bit(OwesReceiver(pc)) - Bit(RetriesRecv(pc))
      + (if a.Advance? && pc.SendWakeOneGo? then 1 else 0)
  }

  lemma RecvTradesOfSend(s: State, t: nat)
    requires Enabled(s, t, Advance) && UsesSender(s.threads[t]) && SomeWaiting(s.recvWakers)
    ensures RecvTrade(s.ring, s.threads[t], Advance, SendStep(s, t).ring, SendStep(s, t).threads[t])
  {
    hide Index, Unmarked, Cleared, Mark, Or, Advanced, WrappingAdd, Removed, AfterNotify;
  }

  lemma RecvTradesOfRecv(s: State, t: nat)
    requires Enabled(s, t, Advance) && UsesReceiver(s.threads[t])
    requires !SaysEmpty(s.threads[t], Advance, RecvStep(s, t).threads[t])
    requires !RecvEffect(s.threads[t], Advance, Future).Removes?
    ensures RecvTrade(s.ring, s.threads[t], Advance, RecvStep(s, t).ring, RecvStep(s, t).threads[t])
  {
    hide Index, Unmarked, Cleared, Mark, Or, Advanced, WrappingAdd, AfterNotify, SomeWaiting;
  }

  lemma RecvTrades(s: State, t: nat, a: Action)
    requires Enabled(s, t, a) && SomeWaiting(s.recvWakers) && !SaysEmpty(s.threads[t], a, Apply(s, t, a).threads[t])
    requires !RecvEffect(s.threads[t], a, Future).Removes?
    ensures RecvTrade(s.ring, s.threads[t], a, Apply(s, t, a).ring, Apply(s, t, a).threads[t])
  {
    hide Apply, RecvTrade, SaysEmpty;
    if a.Advance? { AdvanceIs(s, t); }
    if a.Advance? && UsesSender(s.threads[t]) { RecvTradesOfSend(s, t); }
    else if a.Advance? && UsesReceiver(s.threads[t]) { RecvTradesOfRecv(s, t); }
    else { RecvTradesOfRest(s, t, a); }
  }

  lemma RecvTradesOfRest(s: State, t: nat, a: Action)
    requires Enabled(s, t, a) && (a.Advance? ==> !UsesSender(s.threads[t]) && !UsesReceiver(s.threads[t]))
    ensures RecvTrade(s.ring, s.threads[t], a, Apply(s, t, a).ring, Apply(s, t, a).threads[t])
  {
    hide Or, Mark, FreeKey, LiveKey, Inserted, AfterCancel, AfterNotify, SomeUser, SomeWaiting;
    if a.Advance? { OtherStaysOther(s, t); }
  }

  /** Nobody but an operation that believes the channel empty falls asleep. */
  lemma RecvSleptBefore(s: State, t: nat, a: Action, p: nat, kind: Kind)
    requires Keys(s) && Enabled(s, t, a) && RecvSleeps(Apply(s, t, a), p, kind)
    requires !SaysEmpty(s.threads[t], a, Apply(s, t, a).threads[t])
    ensures RecvSleeps(s, p, kind) && Apply(s, t, a).threads[p].key == s.threads[p].key
  {
    StepMovesSets(s, t, a);
    if p == t {
      RecvSleepyBefore(s, t, a);
    } else {
      assert if kind.Future? then FutureKey(s.threads[p]) == s.threads[p].key
             else StreamKey(s.threads[p]) == s.threads[p].key;
    }
    WaitedBefore(Wakers(s, kind), RecvEffect(s.threads[t], a, kind), t, s.threads[p].key);
  }

  lemma RecvSleepyBefore(s: State, t: nat, a: Action)
    requires Enabled(s, t, a) && !SaysEmpty(s.threads[t], a, Apply(s, t, a).threads[t])
    requires var pc' := Apply(s, t, a).threads[t]; pc'.RecvCheckMark? || pc'.RecvParked?
    ensures s.threads[t].RecvCheckMark? && a.Advance?
    ensures Apply(s, t, a).threads[t].key == s.threads[t].key && Apply(s, t, a).threads[t].kind == s.threads[t].kind
  {
    if a.Advance? {
      if UsesSender(s.threads[t]) { SendStaysSend(s, t); }
      else if UsesReceiver(s.threads[t]) { RecvSleepyStep(s, t); }
      else { OtherStaysOther(s, t); }
    }
  }

  lemma RecvSleepyStep(s: State, t: nat)
    requires Enabled(s, t, Advance) && UsesReceiver(s.threads[t])
    requires var pc' := RecvStep(s, t).threads[t]; pc'.RecvCheckMark? || pc'.RecvParked?
    ensures s.threads[t].RecvCheckMark? || s.threads[t].RecvEmptyTail?
    ensures var pc' := RecvStep(s, t).threads[t]; pc'.kind == s.threads[t].kind && pc'.key == s.threads[t].key
    ensures s.threads[t].RecvEmptyTail? ==> RecvStep(s, t).threads[t].RecvCheckMark?
  {
    hide Index, Unmarked, Cleared, Mark, Or, Advanced, WrappingAdd, Removed, AfterNotify, SomeWaiting;
  }

  lemma RecvBudgetMoves(s: State, t: nat, a: Action, p: nat)
    requires Enabled(s, t, a) && RecvSleeps(s, p, Future) && RecvSleeps(Apply(s, t, a), p, Future)
    requires Apply(s, t, a).threads[p].key == s.threads[p].key
    requires !SaysEmpty(s.threads[t], a, Apply(s, t, a).threads[t])
    ensures Queued(Apply(s, t, a).ring) - Queued(s.ring) <= RecvBudget(Apply(s, t, a)) - RecvBudget(s)
  {
    hide Apply, RecvEffect, SendEffect, KeysMove;
    var s', pc := Apply(s, t, a), s.threads[t];
    var pc', e := s'.threads[t], RecvEffect(pc, a, Future);
    StepMovesSets(s, t, a);
    assert s.recvWakers[s.threads[p].key].Waiting?;
    NotifiedMoves(s.recvWakers, e, t, s.threads[p].key);
    CountUpdate(s.threads, t, pc', OwesReceiver);
    CountUpdate(s.threads, t, pc', RetriesRecv);
    FutureEffectNotifies(pc, a);
    if e.Removes? { RecvRemovalTrades(s, t, a); } else { RecvTrades(s, t, a); }
  }

  lemma FutureEffectNotifies(pc: Pc, a: Action)
    ensures RecvEffect(pc, a, Future) == Notifies(One) <==> a.Advance? && pc.SendWakeOneGo?
    ensures RecvEffect(pc, a, Future) != Notifies(Any)
  {
  }

  lemma RecvRemovalTrades(s: State, t: nat, a: Action)
    requires Enabled(s, t, a) && RecvEffect(s.threads[t], a, Future).Removes?
    ensures Apply(s, t, a).ring == s.ring
    ensures var pc, pc' := s.threads[t], Apply(s, t, a).threads[t];
            && RecvEffect(pc, a, Future) == Removes(pc.key)
            && pc.key < |s.recvWakers| && !OwesReceiver(pc) && !RetriesRecv(pc) && !OwesReceiver(pc')
            && (RetriesRecv(pc') <==> s.recvWakers[pc.key].Notified?)
  {
  }

  lemma RecvBoundKept(s: State, t: nat, a: Action)
    requires RingInv(s.ring, s.threads) && FreshStep(s, t, a) && Keys(s) && RecvBound(s) && Enabled(s, t, a)
    ensures RecvBound(Apply(s, t, a))
  {
    var s', pc := Apply(s, t, a), s.threads[t];
    if SaysEmpty(pc, a, s'.threads[t]) {
      EmptyVerdictIsTrue(s, t);
    } else if exists p: nat :: RecvSleeps(s', p, Future) {
      var p: nat :| RecvSleeps(s', p, Future);
      RecvSleptBefore(s, t, a, p, Future);
      RecvBudgetMoves(s, t, a, p);
    }
  }

  // ----- streams -----

  /** A sender is through with the streams only when no stream waits any more. */
  lemma StreamDebtPaid(s: State, t: nat)
    requires Enabled(s, t, Advance) && OwesStreams(s.threads[t]) && !OwesStreams(SendStep(s, t).threads[t])
    ensures !SomeWaiting(SendStep(s, t).streamWakers)
  {
    NotifyAllLeavesNoneWaiting(s.streamWakers);
  }

  lemma QueueGrowsWithDebt(s: State, t: nat, a: Action)
    requires Enabled(s, t, a) && Queued(Apply(s, t, a).ring) > Queued(s.ring)
    ensures OwesStreams(Apply(s, t, a).threads[t])
  {
    if a.Advance? {
      if UsesSender(s.threads[t]) {
      } else if UsesReceiver(s.threads[t]) {
        RecvQueueShrinks(s, t);
      } else {
        OtherStaysOther(s, t);
      }
    }
  }

  lemma RecvQueueShrinks(s: State, t: nat)
    requires Enabled(s, t, Advance) && UsesReceiver(s.threads[t])
    ensures Queued(RecvStep(s, t).ring) <= Queued(s.ring)
  {
  }

  /** With a stream asleep before and after, a debt to the streams survives the step. */
  lemma StreamDebtKept(s: State, t: nat, a: Action, p: nat, u: nat)
    requires Enabled(s, t, a) && RecvSleeps(Apply(s, t, a), p, Stream) && !OwesStreams(Apply(s, t, a).threads[t])
    requires u < |s.threads| && OwesStreams(s.threads[u])
    ensures u != t && Apply(s, t, a).threads[u] == s.threads[u]
  {
    var s' := Apply(s, t, a);
    StepMovesSets(s, t, a);
    assert s'.streamWakers[s'.threads[p].key].Waiting?;
    if u == t && a.Advance? { StreamDebtPaid(s, t); }
  }

  lemma StreamsHelpedKept(s: State, t: nat, a: Action)
    requires RingInv(s.ring, s.threads) && FreshStep(s, t, a) && Keys(s) && StreamsHelped(s) && Enabled(s, t, a)
    ensures StreamsHelped(Apply(s, t, a))
  {
    var s', pc := Apply(s, t, a), s.threads[t];
    if SaysEmpty(pc, a, s'.threads[t]) {
      EmptyVerdictIsTrue(s, t);
    } else if (exists p: nat :: RecvSleeps(s', p, Stream)) && Queued(s'.ring) > 0 && !OwesStreams(s'.threads[t]) {
      var p: nat :| RecvSleeps(s', p, Stream);
      RecvSleptBefore(s, t, a, p, Stream);
      if Queued(s'.ring) > Queued(s.ring) { QueueGrowsWithDebt(s, t, a); }
      var u :| 0 <= u < |s.threads| && OwesStreams(s.threads[u]);
      StreamDebtKept(s, t, a, p, u);
      StepMovesSets(s, t, a);
      assert OwesStreams(s'.threads[u]);
    }
  }
}
