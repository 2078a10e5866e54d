/** Handles, disconnection and blocked senders of a disconnected channel. */
module ChannelHandles {
  import opened Counting
  import opened Stamps
  import opened WakerSets
  import opened Channel
  import opened ChannelRing
  import opened ChannelWakeups

  predicate IsSenderGone(pc: Pc) { pc.SenderGone? }
  predicate IsReceiverGone(pc: Pc) { pc.ReceiverGone? }

  /** The counters count the handles that are alive or still on their way out, an operation in progress
      keeps a handle of its side alive, and nobody disconnects before one side has no handle left. */
  ghost predicate Handles(s: State) {
    && s.senderCount == s.senders + Count(s.threads, IsSenderGone)
    && s.receiverCount == s.receivers + Count(s.threads, IsReceiverGone)
    && (forall u | 0 <= u < |s.threads| && UsesSender(s.threads[u]) :: s.senders >= 1)
    && (forall u | 0 <= u < |s.threads| && UsesReceiver(s.threads[u]) :: s.receivers >= 1)
    && (Disconnecting(s) ==> s.senderCount == 0 || s.receiverCount == 0)
  }

  ghost predicate Disconnecting(s: State) {
    s.ring.marked || exists u :: 0 <= u < |s.threads| && s.threads[u].Marking?
  }

  /** A send that is pending without a waker can never succeed: the channel is full for good. */
  ghost predicate StuckForGood(s: State) {
    forall t | 0 <= t < |s.threads| && s.threads[t].SendStuck? :: s.ring.marked && FreeSlots(s.ring) == 0
  }

  // ----- how steps move handles -----

  /** Changes of the counters and of the live handles. */
  ghost predicate CountersMove(s: State, t: nat, a: Action, s': State)
    requires t < |s.threads|
  {
    var pc := s.threads[t];
    && s'.senders - s.senders == (if a.CloneSender? then 1 else if a.DropSender? then -1 else 0)
    && s'.receivers - s.receivers
       == (if a.CloneReceiver? then 1 else if a.DropReceiver? || DropsStream(pc, a) then -1 else 0)
    && s'.senderCount - s.senderCount == (if a.CloneSender? then 1 else if a.Advance? && pc.SenderGone? then -1 else 0)
    && s'.receiverCount - s.receiverCount
       == (if a.CloneReceiver? then 1 else if a.Advance? && pc.ReceiverGone? then -1 else 0)
    && (s'.ring.marked ==> s.ring.marked || pc.Marking?)
    && (s.ring.marked ==> s'.ring.marked)
  }

  /** The place the step leads to. */
  ghost predicate PlacesMove(s: State, t: nat, a: Action, s': State)
    requires t < |s.threads|
  {
    var pc := s.threads[t];
    && |s'.threads| == |s.threads| && s'.threads == s.threads[t := s'.threads[t]]
    && var pc' := s'.threads[t];
    && (pc'.SenderGone? <==> a.DropSender?) && (pc'.ReceiverGone? <==> a.DropReceiver? || DropsStream(pc, a))
    && (pc.SenderGone? ==> a.Advance?) && (pc.ReceiverGone? ==> a.Advance?)
    && (UsesSender(pc') ==> UsesSender(pc) || a.BeginSend?)
    && (UsesReceiver(pc') ==> UsesReceiver(pc) || a.BeginRecv?)
    && (pc'.Marking? ==>
          a.Advance? && ((pc.SenderGone? && s.senderCount == 1) || (pc.ReceiverGone? && s.receiverCount == 1)))
  }

  ghost predicate HandlesMove(s: State, t: nat, a: Action, s': State)
    requires t < |s.threads|
  {
    CountersMove(s, t, a, s') && PlacesMove(s, t, a, s')
  }

  predicate DropsStream(pc: Pc, a: Action) { a.DropFuture? && pc.RecvParked? && pc.kind.Stream? }

  lemma SendMovesCounters(s: State, t: nat)
    requires Enabled(s, t, Advance) && UsesSender(s.threads[t])
    ensures CountersMove(s, t, Advance, SendStep(s, t))
  {
    hide Index, Unmarked, Cleared, Mark, Or, Advanced, WrappingAdd, Removed, AfterNotify, SomeWaiting;
  }

  lemma SendMovesPlaces(s: State, t: nat)
    requires Enabled(s, t, Advance) && UsesSender(s.threads[t])
    ensures PlacesMove(s, t, Advance, SendStep(s, t))
  {
    hide SendStep;
    SendStaysSend(s, t);
    SendMovesSets(s, t);
  }

  lemma RecvMovesCounters(s: State, t: nat)
    requires Enabled(s, t, Advance) && UsesReceiver(s.threads[t])
    ensures CountersMove(s, t, Advance, RecvStep(s, t))
  {
    hide Index, Unmarked, Cleared, Mark, Or, Advanced, WrappingAdd, Removed, AfterNotify, SomeWaiting;
  }

  lemma RecvMovesPlaces(s: State, t: nat)
    requires Enabled(s, t, Advance) && UsesReceiver(s.threads[t])
    ensures PlacesMove(s, t, Advance, RecvStep(s, t))
  {
    hide RecvStep;
    RecvStaysRecv(s, t);
    RecvMovesSets(s, t);
  }

  lemma OtherMovesCounters(s: State, t: nat)
    requires Enabled(s, t, Advance) && !UsesSender(s.threads[t]) && !UsesReceiver(s.threads[t])
    ensures CountersMove(s, t, Advance, OtherStep(s, t))
  {
    hide Or, Mark, AfterNotify, SomeWaiting;
  }

  lemma OtherMovesPlaces(s: State, t: nat)
    requires Enabled(s, t, Advance) && !UsesSender(s.threads[t]) && !UsesReceiver(s.threads[t])
    ensures PlacesMove(s, t, Advance, OtherStep(s, t))
  {
    hide OtherStep, NoKeyPlace, UsesSender, UsesReceiver, Possible, After, SendEffect, RecvEffect;
    OtherStaysOther(s, t);
    OtherMovesSets(s, t);
    GoneMoves(s, t);
  }

  /** A dropped handle either is the last one and disconnects, or is done. */
  lemma GoneMoves(s: State, t: nat)
    requires Enabled(s, t, Advance) && !UsesSender(s.threads[t]) && !UsesReceiver(s.threads[t])
    ensures var pc, pc' := s.threads[t], OtherStep(s, t).threads[t];
            && !pc'.SenderGone? && !pc'.ReceiverGone?
            && (pc'.Marking? ==> (pc.SenderGone? && s.senderCount == 1) || (pc.ReceiverGone? && s.receiverCount == 1))
  {
    hide Or, Mark, AfterNotify, SomeWaiting;
  }

  lemma ChoiceMovesCounters(s: State, t: nat, a: Action)
    requires Enabled(s, t, a) && !a.Advance?
    ensures CountersMove(s, t, a, Apply(s, t, a))
  {
    hide FreeKey, LiveKey, Inserted, AfterCancel, SomeUser;
  }

  lemma ChoiceMovesPlaces(s: State, t: nat, a: Action)
    requires Enabled(s, t, a) && !a.Advance?
    ensures PlacesMove(s, t, a, Apply(s, t, a))
  {
    hide Apply, Enabled, PlacesMove;
    if a.DropFuture? || a.InsertWaker? || a.SpuriousFailure? {
      SuspendedMovesPlaces(s, t, a);
    } else {
      BeginMovesPlaces(s, t, a);
    }
  }

  lemma BeginMovesPlaces(s: State, t: nat, a: Action)
    requires Enabled(s, t, a) && !a.Advance? && !a.DropFuture? && !a.InsertWaker? && !a.SpuriousFailure?
    ensures PlacesMove(s, t, a, Apply(s, t, a))
  {
    hide Sized, TouchesSlot, FreeKey, LiveKey, SomeUser;
  }

  lemma SuspendedMovesPlaces(s: State, t: nat, a: Action)
    requires Enabled(s, t, a) && (a.DropFuture? || a.InsertWaker? || a.SpuriousFailure?)
    ensures PlacesMove(s, t, a, Apply(s, t, a))
  {
    hide Sized, TouchesSlot, FreeKey, LiveKey, Inserted, AfterCancel, SomeUser, WithWakers, Wakers;
  }

  lemma StepMovesHandles(s: State, t: nat, a: Action)
    requires Enabled(s, t, a)
    ensures HandlesMove(s, t, a, Apply(s, t, a))
  {
    if !a.Advance? { ChoiceMovesCounters(s, t, a); ChoiceMovesPlaces(s, t, a); }
    else if UsesSender(s.threads[t]) { SendMovesCounters(s, t); SendMovesPlaces(s, t); }
    else if UsesReceiver(s.threads[t]) { RecvMovesCounters(s, t); RecvMovesPlaces(s, t); }
    else { OtherMovesCounters(s, t); OtherMovesPlaces(s, t); }
  }

  lemma CountersKept(s: State, t: nat, a: Action)
    requires Handles(s) && Enabled(s, t, a)
    ensures var s' := Apply(s, t, a);
            && s'.senderCount == s'.senders + Count(s'.threads, IsSenderGone)
            && s'.receiverCount == s'.receivers + Count(s'.threads, IsReceiverGone)
  {
    hide Apply;
    StepMovesHandles(s, t, a);
    CountUpdate(s.threads, t, Apply(s, t, a).threads[t], IsSenderGone);
    CountUpdate(s.threads, t, Apply(s, t, a).threads[t], IsReceiverGone);
    HandlesStep(s, t, a);
  }

  /** A step at a dropped handle consumes it. */
  lemma HandlesStep(s: State, t: nat, a: Action)
    requires Enabled(s, t, a)
    ensures a.DropSender? || a.DropReceiver? || a.CloneSender? || a.CloneReceiver? ==> s.threads[t].Idle?
    ensures a.DropSender? ==> s.senders >= 1 && (s.senders == 1 ==> !SomeUser(s, UsesSender, t))
    ensures a.DropReceiver? || DropsStream(s.threads[t], a) ==>
              s.receivers >= 1 && (s.receivers == 1 ==> !SomeUser(s, UsesReceiver, t))
    ensures a.BeginSend? || a.CloneSender? ==> s.senders >= 1
    ensures a.BeginRecv? || a.CloneReceiver? ==> s.receivers >= 1
    ensures DropsStream(s.threads[t], a) ==> !UsesReceiver(Apply(s, t, a).threads[t])
  {
  }

  lemma UsersKept(s: State, t: nat, a: Action)
    requires Handles(s) && Enabled(s, t, a)
    ensures var s' := Apply(s, t, a);
            && (forall u | 0 <= u < |s'.threads| && UsesSender(s'.threads[u]) :: s'.senders >= 1)
            && (forall u | 0 <= u < |s'.threads| && UsesReceiver(s'.threads[u]) :: s'.receivers >= 1)
  {
    hide Apply;
    var s' := Apply(s, t, a);
    StepMovesHandles(s, t, a);
    HandlesStep(s, t, a);
    forall u | 0 <= u < |s'.threads| && UsesSender(s'.threads[u]) ensures s'.senders >= 1 {
      if u == t { assert UsesSender(s.threads[t]) || a.BeginSend?; }
    }
    forall u | 0 <= u < |s'.threads| && UsesReceiver(s'.threads[u]) ensures s'.receivers >= 1 {
      if u == t { assert UsesReceiver(s.threads[t]) || a.BeginRecv?; }
    }
  }

  lemma HandlesKept(s: State, t: nat, a: Action)
    requires Handles(s) && Enabled(s, t, a)
    ensures Handles(Apply(s, t, a))
  {
    hide Apply;
    var s' := Apply(s, t, a);
    StepMovesHandles(s, t, a);
    HandlesStep(s, t, a);
    CountersKept(s, t, a);
    UsersKept(s, t, a);
    if Disconnecting(s') {
      if !s'.threads[t].Marking? {
        if s.ring.marked || s.threads[t].Marking? {
          assert Disconnecting(s);
        } else {
          var u :| 0 <= u < |s'.threads| && s'.threads[u].Marking?;
          assert s.threads[u].Marking?;
        }
      }
    }
  }

  // ----- disconnection tells everybody -----

  predicate TellsSenders(pc: Pc) { pc.WakeSenders? || pc.WakeSendersGo? }
  predicate TellsReceivers(pc: Pc) { TellsSenders(pc) || pc.WakeReceivers? || pc.WakeReceiversGo? }
  predicate TellsStreams(pc: Pc) { TellsReceivers(pc) || pc.WakeStreams? || pc.WakeStreamsGo? }

  ghost predicate SendParkedAsleep(s: State, t: nat) { SendSleeps(s, t) && s.threads[t].SendParked? }

  ghost predicate RecvParkedAsleep(s: State, t: nat, kind: Kind) { RecvSleeps(s, t, kind) && s.threads[t].RecvParked? }

  ghost predicate SomeoneIs(threads: seq<Pc>, p: Pc -> bool) { exists u :: 0 <= u < |threads| && p(threads[u]) }

  /** On a disconnected channel an operation sleeps only while the disconnector is still notifying. */
  ghost predicate DisconnectTold(s: State) {
    s.ring.marked ==>
      && ((exists t: nat :: SendParkedAsleep(s, t)) ==> SomeoneIs(s.threads, TellsSenders))
      && ((exists t: nat :: RecvParkedAsleep(s, t, Future)) ==> SomeoneIs(s.threads, TellsReceivers))
      && ((exists t: nat :: RecvParkedAsleep(s, t, Stream)) ==> SomeoneIs(s.threads, TellsStreams))
  }

  /** Nobody parks once the mark is set. */
  lemma ParksUnmarked(s: State, t: nat, a: Action)
    requires RingInv(s.ring, s.threads) && Enabled(s, t, a)
    requires var pc' := Apply(s, t, a).threads[t]; pc'.SendParked? || pc'.RecvParked?
    ensures a.Advance? && (s.threads[t].SendCheckMark? || s.threads[t].RecvCheckMark?) && !s.ring.marked
            && !Apply(s, t, a).ring.marked
  {
    Decode(s.ring.cfg, s.ring.pushed, s.ring.marked);
    if a.Advance? {
      if UsesSender(s.threads[t]) { SendParksUnmarked(s, t); }
      else if UsesReceiver(s.threads[t]) { RecvParksUnmarked(s, t); }
      else { OtherStaysOther(s, t); }
    }
  }

  lemma SendParksUnmarked(s: State, t: nat)
    requires Enabled(s, t, Advance) && UsesSender(s.threads[t])
    requires SendStep(s, t).threads[t].SendParked? || SendStep(s, t).threads[t].RecvParked?
    ensures s.threads[t].SendCheckMark? && Mark(s.ring.cfg, s.ring.tail) == 0 && SendStep(s, t).ring == s.ring
  {
    hide Index, Unmarked, Cleared, Or, Advanced, WrappingAdd, Removed, AfterNotify, SomeWaiting;
  }

  lemma RecvParksUnmarked(s: State, t: nat)
    requires Enabled(s, t, Advance) && UsesReceiver(s.threads[t])
    requires RecvStep(s, t).threads[t].SendParked? || RecvStep(s, t).threads[t].RecvParked?
    ensures s.threads[t].RecvCheckMark? && Mark(s.ring.cfg, s.ring.tail) == 0 && RecvStep(s, t).ring == s.ring
  {
    hide Index, Unmarked, Cleared, Or, Advanced, WrappingAdd, Removed, AfterNotify, SomeWaiting;
  }

  /** The mark is set by a disconnector that then starts telling everybody. */
  lemma MarkedByTeller(s: State, t: nat, a: Action)
    requires RingInv(s.ring, s.threads) && Enabled(s, t, a) && !s.ring.marked && Apply(s, t, a).ring.marked
    ensures Apply(s, t, a).threads[t].WakeSenders?
  {
    StepMovesHandles(s, t, a);
    Decode(s.ring.cfg, s.ring.pushed, s.ring.marked);
  }

  /** A disconnector leaves a set only when nobody waits in it. */
  lemma TellerDone(s: State, t: nat, a: Action)
    requires Enabled(s, t, a)
    ensures var pc, s' := s.threads[t], Apply(s, t, a);
            var pc' := s'.threads[t];
            && (TellsSenders(pc) && !TellsSenders(pc') ==> !SomeWaiting(s'.sendWakers))
            && (TellsReceivers(pc) && !TellsReceivers(pc') ==> !SomeWaiting(s'.recvWakers))
            && (TellsStreams(pc) && !TellsStreams(pc') ==> !SomeWaiting(s'.streamWakers))
  {
    hide Apply, Sized, TouchesSlot, FreeKey, LiveKey, SomeUser, SomeWaiting;
    if TellsStreams(s.threads[t]) {
      TellerAdvances(s, t, a);
      TellerStepDone(s, t);
    }
  }

  lemma TellerAdvances(s: State, t: nat, a: Action)
    requires Enabled(s, t, a) && TellsStreams(s.threads[t])
    ensures a.Advance? && Apply(s, t, a) == OtherStep(s, t)
  {
    hide Sized, TouchesSlot, SomeUser, FreeKey, LiveKey, OtherStep;
  }

  lemma TellerStepDone(s: State, t: nat)
    requires Enabled(s, t, Advance) && TellsStreams(s.threads[t])
    ensures var pc, s' := s.threads[t], OtherStep(s, t);
            var pc' := s'.threads[t];
            && (TellsSenders(pc) && !TellsSenders(pc') ==> !SomeWaiting(s'.sendWakers))
            && (TellsReceivers(pc) && !TellsReceivers(pc') ==> !SomeWaiting(s'.recvWakers))
            && (TellsStreams(pc) && !TellsStreams(pc') ==> !SomeWaiting(s'.streamWakers))
  {
    NotifyAllLeavesNoneWaiting(s.sendWakers);
    NotifyAllLeavesNoneWaiting(s.recvWakers);
    NotifyAllLeavesNoneWaiting(s.streamWakers);
  }

  lemma SendParkedBefore(s: State, t: nat, a: Action, p: nat)
    requires RingInv(s.ring, s.threads) && Keys(s) && Enabled(s, t, a) && SendParkedAsleep(Apply(s, t, a), p)
             && Apply(s, t, a).ring.marked
    ensures p != t && SendParkedAsleep(s, p) && SomeWaiting(Apply(s, t, a).sendWakers)
  {
    hide Apply;
    if p == t { ParksUnmarked(s, t, a); }
    StepMovesSets(s, t, a);
    assert SendKey(s.threads[p]) == s.threads[p].key;
    WaitedBefore(s.sendWakers, SendEffect(s.threads[t], a), t, s.threads[p].key);
  }

  lemma RecvParkedBefore(s: State, t: nat, a: Action, p: nat, kind: Kind)
    requires RingInv(s.ring, s.threads) && Keys(s) && Enabled(s, t, a) && RecvParkedAsleep(Apply(s, t, a), p, kind)
             && Apply(s, t, a).ring.marked
    ensures p != t && RecvParkedAsleep(s, p, kind) && SomeWaiting(Wakers(Apply(s, t, a), kind))
  {
    hide Apply;
    if p == t { ParksUnmarked(s, t, a); }
    StepMovesSets(s, t, a);
    assert if kind.Future? then FutureKey(s.threads[p]) == s.threads[p].key
           else StreamKey(s.threads[p]) == s.threads[p].key;
    WaitedBefore(Wakers(s, kind), RecvEffect(s.threads[t], a, kind), t, s.threads[p].key);
  }

  lemma StillTelling(s: State, t: nat, a: Action, tells: Pc -> bool)
    requires Enabled(s, t, a) && SomeoneIs(s.threads, tells)
    requires tells(s.threads[t]) ==> tells(Apply(s, t, a).threads[t])
    ensures SomeoneIs(Apply(s, t, a).threads, tells)
  {
    hide Apply;
    StepMovesSets(s, t, a);
    var u :| 0 <= u < |s.threads| && tells(s.threads[u]);
    assert tells(Apply(s, t, a).threads[u]);
  }

  lemma DisconnectToldKept(s: State, t: nat, a: Action)
    requires RingInv(s.ring, s.threads) && Keys(s) && DisconnectTold(s) && Enabled(s, t, a)
    ensures DisconnectTold(Apply(s, t, a))
  {
    hide Apply;
    var s' := Apply(s, t, a);
    if s'.ring.marked {
      if !s.ring.marked {
        MarkedByTeller(s, t, a);
        assert TellsSenders(s'.threads[t]);
      } else {
        TellerDone(s, t, a);
        if exists p: nat :: SendParkedAsleep(s', p) {
          var p: nat :| SendParkedAsleep(s', p);
          SendParkedBefore(s, t, a, p);
          StillTelling(s, t, a, TellsSenders);
        }
        if exists p: nat :: RecvParkedAsleep(s', p, Future) {
          var p: nat :| RecvParkedAsleep(s', p, Future);
          RecvParkedBefore(s, t, a, p, Future);
          StillTelling(s, t, a, TellsReceivers);
        }
        if exists p: nat :: RecvParkedAsleep(s', p, Stream) {
          var p: nat :| RecvParkedAsleep(s', p, Stream);
          RecvParkedBefore(s, t, a, p, Stream);
          StillTelling(s, t, a, TellsStreams);
        }
      }
    }
  }

  // ----- a full, disconnected channel stays full -----

  /** Only a receiver's step frees a slot. */
  lemma FreedByReceiver(s: State, t: nat, a: Action)
    requires Enabled(s, t, a) && FreeSlots(Apply(s, t, a).ring) > FreeSlots(s.ring)
    ensures UsesReceiver(s.threads[t])
  {
    hide Index, Unmarked, Cleared, Mark, Or, Advanced, WrappingAdd, SomeUser;
    hide Removed, AfterNotify, SomeWaiting, FreeKey, LiveKey, Inserted, AfterCancel;
  }

  lemma StuckByVerdict(s: State, t: nat, a: Action)
    requires Enabled(s, t, a) && Apply(s, t, a).threads[t].SendStuck?
    ensures a.Advance? && s.threads[t].SendHead? && SendStep(s, t).threads[t].SendStuck?
  {
    if a.Advance? {
      if UsesSender(s.threads[t]) { }
      else if UsesReceiver(s.threads[t]) { RecvStaysRecv(s, t); }
      else { OtherStaysOther(s, t); }
    }
  }

  lemma PushNeedsRoom(s: State, t: nat, a: Action)
    requires RingInv(s.ring, s.threads) && FreshStep(s, t, a) && Enabled(s, t, a)
    ensures FreeSlots(Apply(s, t, a).ring) >= 0
  {
    hide Apply;
    StepKeepsRing(s, t, a);
  }

  lemma StuckForGoodKept(s: State, t: nat, a: Action)
    requires RingInv(s.ring, s.threads) && FreshStep(s, t, a) && Handles(s) && StuckForGood(s) && Enabled(s, t, a)
    ensures StuckForGood(Apply(s, t, a))
  {
    hide Apply;
    var s' := Apply(s, t, a);
    StepMovesHandles(s, t, a);
    forall u | 0 <= u < |s'.threads| && s'.threads[u].SendStuck? ensures s'.ring.marked && FreeSlots(s'.ring) == 0 {
      if u == t {
        StuckByVerdict(s, t, a);
        FullVerdictIsTrue(s, t);
        AdvanceIs(s, t);
      } else {
        assert s.threads[u].SendStuck? && UsesSender(s.threads[u]);
        assert s.receivers == 0;
        if FreeSlots(s'.ring) > FreeSlots(s.ring) { FreedByReceiver(s, t, a); }
        PushNeedsRoom(s, t, a);
      }
    }
  }
}
