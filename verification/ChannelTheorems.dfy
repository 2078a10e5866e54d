/** What users of the channel rely on, over every run with any number of senders and receivers. */
module ChannelTheorems {
  import opened Counting
  import opened Stamps
  import opened WakerSets
  import opened Channel
  import opened ChannelRing
  import opened ChannelWakeups
  import opened ChannelHandles

  ghost predicate Inv(s: State) {
    && RingInv(s.ring, s.threads)
    && Keys(s)
    && SendBound(s)
    && RecvBound(s)
    && StreamsHelped(s)
    && Handles(s)
    && DisconnectTold(s)
    && StuckForGood(s)
  }

  lemma InvInitially(s: State)
    requires Init(s)
    ensures Inv(s)
  {
    hide RingInv;
    InitialRing(s.ring.cfg, s.threads);
    CountZero(s.threads, IsSenderGone);
    CountZero(s.threads, IsReceiverGone);
  }

  lemma InvKept(s: State, t: nat, a: Action)
    requires Inv(s) && FreshStep(s, t, a) && Enabled(s, t, a)
    ensures Inv(Apply(s, t, a))
  {
    hide Apply;
    StepKeepsRing(s, t, a);
    KeysKept(s, t, a);
    SendBoundKept(s, t, a);
    RecvBoundKept(s, t, a);
    StreamsHelpedKept(s, t, a);
    HandlesKept(s, t, a);
    DisconnectToldKept(s, t, a);
    StuckForGoodKept(s, t, a);
  }

  lemma NextKeeps(s: State, s': State)
    requires Inv(s) && FreshNext(s, s')
    ensures Inv(s')
  {
    hide Apply;
    var t: nat, a :| Enabled(s, t, a) && FreshStep(s, t, a) && s' == Apply(s, t, a);
    InvKept(s, t, a);
  }

  lemma {:induction false} RunKeepsInv(run: seq<State>, i: nat)
    requires FreshRun(run) && i < |run|
    ensures Inv(run[i])
  {
    if i == 0 {
      InvInitially(run[0]);
    } else {
      RunKeepsInv(run, i - 1);
      assert FreshNext(run[i - 1], run[i - 1 + 1]);
      NextKeeps(run[i - 1], run[i]);
    }
  }

  // ----- a bounded first-in first-out queue -----

  /** The abstract queue: messages accepted and not yet popped. */
  ghost function Queue(s: State): seq<Msg> {
    if s.ring.popped <= |s.ring.accepted| then s.ring.accepted[s.ring.popped..] else []
  }

  /** What a step does to a bounded queue. */
  datatype QueueEvent = Nothing | Push(msg: Msg) | Pop(msg: Msg)

  ghost predicate QueueMoves(cap: nat, q: seq<Msg>, e: QueueEvent, q': seq<Msg>) {
    match e
    case Nothing => q' == q
    case Push(msg) => |q| < cap && q' == q + [msg]
    case Pop(msg) => |q| > 0 && msg == q[0] && q' == q[1..]
  }

  /** The event of a step: a send takes effect at its successful exchange of the tail, a receive at its
      successful exchange of the head, and nothing else happens to the queue. */
  ghost function EventOf(s: State, t: nat, a: Action): QueueEvent
    requires Enabled(s, t, a) && s.ring.popped <= |s.ring.accepted|
  {
    var pc, pc' := s.threads[t], Apply(s, t, a).threads[t];
    if a.Advance? && pc.SendCas? && pc'.SendWrite? then Push(pc.msg)
    else if a.Advance? && pc.RecvCas? && pc'.RecvRead? && s.ring.popped < |s.ring.accepted|
    then Pop(s.ring.accepted[s.ring.popped])
    else Nothing
  }

  /** How the history of the ring moves. */
  ghost predicate HistoryMoves(r: Ring, pc: Pc, a: Action, r': Ring, pc': Pc) {
    && r'.cfg == r.cfg
    && (if a.Advance? && pc.SendCas? && pc'.SendWrite?
        then r'.accepted == r.accepted + [pc.msg] && r'.popped == r.popped && r'.pushed == r.pushed + 1
        else if a.Advance? && pc.RecvCas? && pc'.RecvRead?
        then r'.accepted == r.accepted && r'.popped == r.popped + 1 && r'.pushed == r.pushed
        else r'.accepted == r.accepted && r'.popped == r.popped && r'.pushed == r.pushed)
  }

  lemma SendMovesHistory(s: State, t: nat)
    requires Enabled(s, t, Advance) && UsesSender(s.threads[t])
    ensures HistoryMoves(s.ring, s.threads[t], Advance, SendStep(s, t).ring, SendStep(s, t).threads[t])
  {
    hide Index, Unmarked, Cleared, Mark, Or, Advanced, WrappingAdd, Removed, AfterNotify, SomeWaiting;
  }

  lemma RecvMovesHistory(s: State, t: nat)
    requires Enabled(s, t, Advance) && UsesReceiver(s.threads[t])
    ensures HistoryMoves(s.ring, s.threads[t], Advance, RecvStep(s, t).ring, RecvStep(s, t).threads[t])
  {
    hide Index, Unmarked, Cleared, Mark, Or, Advanced, WrappingAdd, Removed, AfterNotify, SomeWaiting;
  }

  lemma StepMovesHistory(s: State, t: nat, a: Action)
    requires Enabled(s, t, a)
    ensures HistoryMoves(s.ring, s.threads[t], a, Apply(s, t, a).ring, Apply(s, t, a).threads[t])
  {
    if a.Advance? && UsesSender(s.threads[t]) { SendMovesHistory(s, t); }
    else if a.Advance? && UsesReceiver(s.threads[t]) { RecvMovesHistory(s, t); }
  }

  /** Every step of the channel is a step of the bounded queue. */
  lemma StepRefinesQueue(s: State, t: nat, a: Action)
    requires Inv(s) && FreshStep(s, t, a) && Enabled(s, t, a)
    ensures Inv(Apply(s, t, a)) && QueueMoves(s.ring.cfg.cap, Queue(s), EventOf(s, t, a), Queue(Apply(s, t, a)))
  {
    hide Apply, Enabled, FreshStep, Inv;
    InvKept(s, t, a);
    StepMovesHistory(s, t, a);
    InvBounds(s);
    InvBounds(Apply(s, t, a));
  }

  /** Every run is a run of a bounded first-in first-out queue that starts empty. */
  lemma RunRefinesQueue(run: seq<State>, i: nat) returns (e: QueueEvent)
    requires FreshRun(run) && i + 1 < |run|
    ensures Queue(run[0]) == [] && run[i + 1].ring.cfg == run[i].ring.cfg
    ensures QueueMoves(run[i].ring.cfg.cap, Queue(run[i]), e, Queue(run[i + 1]))
  {
    hide Apply, Inv, QueueMoves;
    RunKeepsInv(run, i);
    assert FreshNext(run[i], run[i + 1]);
    var t: nat, a :| Enabled(run[i], t, a) && FreshStep(run[i], t, a) && run[i + 1] == Apply(run[i], t, a);
    InvBounds(run[i]);
    StepRefinesQueue(run[i], t, a);
    StepMovesHistory(run[i], t, a);
    e := EventOf(run[i], t, a);
  }

  lemma InvBounds(s: State)
    requires Inv(s)
    ensures s.ring.popped <= |s.ring.accepted| == s.ring.pushed <= s.ring.popped + s.ring.cfg.cap
  {
    hide RingInv;
    WordsOf(s.ring, s.threads);
  }

  /** In every reachable state the queue holds at most `cap` messages, and every completed receive of a
      position returned exactly the message that was accepted at that position. */
  lemma BoundedAndInOrder(run: seq<State>, i: nat)
    requires FreshRun(run) && i < |run|
    ensures var r := run[i].ring;
            && r.popped <= r.pushed == |r.accepted| && |Queue(run[i])| <= r.cfg.cap
            && (forall k | k in r.delivered :: k < r.popped && r.delivered[k] == r.accepted[k])
    ensures forall t | 0 <= t < |run[i].threads|
            && (run[i].threads[t].RecvWakeOne? || run[i].threads[t].RecvWakeOneGo?) ::
              var pc := run[i].threads[t];
              pc.p < run[i].ring.popped && pc.msg == run[i].ring.accepted[pc.p]
  {
    RunKeepsInv(run, i);
    var s := run[i];
    forall t | 0 <= t < |s.threads| && (s.threads[t].RecvWakeOne? || s.threads[t].RecvWakeOneGo?)
      ensures var pc := s.threads[t]; pc.p < s.ring.popped && pc.msg == s.ring.accepted[pc.p]
    {
      assert ThreadInv(s.ring, s.threads[t], t);
    }
  }

  // ----- slots -----

  predicate Touches(cap: nat, pc: Pc, i: nat)
    requires cap > 0
  {
    (pc.SendWrite? || pc.SendStore? || pc.RecvRead? || pc.RecvStore?) && pc.p % cap == i
  }

  /** Between its exchange and its stamp store an operation has its slot for itself. */
  lemma SlotHasOneOwner(run: seq<State>, i: nat, t: nat, u: nat, slot: nat)
    requires FreshRun(run) && i < |run| && t < |run[i].threads| && u < |run[i].threads| && run[i].ring.cfg.cap > 0
    requires Touches(run[i].ring.cfg.cap, run[i].threads[t], slot)
             && Touches(run[i].ring.cfg.cap, run[i].threads[u], slot)
    ensures t == u
  {
    RunKeepsInv(run, i);
    assert ThreadInv(run[i].ring, run[i].threads[t], t);
    assert ThreadInv(run[i].ring, run[i].threads[u], u);
  }

  /** A writer finds its cell blank, a reader finds in its cell the message of its position. */
  lemma CellsAreSafe(run: seq<State>, i: nat, t: nat)
    requires FreshRun(run) && i < |run| && t < |run[i].threads|
    ensures var r, pc := run[i].ring, run[i].threads[t];
            Sized(r) && r.pushed == |r.accepted|
            && (pc.SendWrite? ==> Index(r.cfg, pc.tail) < r.cfg.cap && r.cells[Index(r.cfg, pc.tail)] == Blank)
            && (pc.RecvRead? ==> Index(r.cfg, pc.head) < r.cfg.cap && pc.p < r.pushed
                                 && r.cells[Index(r.cfg, pc.head)] == Holds(r.accepted[pc.p]))
  {
    RunKeepsInv(run, i);
    var r, pc := run[i].ring, run[i].threads[t];
    assert ThreadInv(r, pc, t);
    if pc.SendWrite? || pc.RecvRead? {
      Decode(r.cfg, pc.p, false);
      assert SlotInv(r, run[i].threads, SlotOf(r, pc.p));
    }
  }

  /** No operation is ever stuck on memory it must not touch, a key it does not own or a counter at zero:
      whatever an operation does next is possible. */
  lemma AlwaysEnabled(run: seq<State>, i: nat, t: nat)
    requires FreshRun(run) && i < |run| && t < |run[i].threads|
    requires !run[i].threads[t].Idle? && !run[i].threads[t].SendInsert? && !run[i].threads[t].RecvInsert?
    ensures Enabled(run[i], t, Advance)
  {
    hide FreshRun, Inv, RingInv, Keys, Handles, Index, TouchesSlot, LiveKey;
    RunKeepsInv(run, i);
    CellsAreSafe(run, i, t);
    InvHasRing(run[i]);
    InvHasKeys(run[i]);
    if TouchesSlot(run[i].threads[t]) { SlotIndexIsSmall(run[i].ring, run[i].threads, t); }
    KeyIsLive(run[i], t);
    CounterIsPositive(run[i], t);
  }

  lemma InvHasKeys(s: State)
    requires Inv(s)
    ensures Keys(s) && Handles(s)
  {
    hide RingInv, Keys, Handles;
  }

  lemma SlotIndexIsSmall(r: Ring, threads: seq<Pc>, t: nat)
    requires RingInv(r, threads) && t < |threads| && TouchesSlot(threads[t])
    ensures Sized(r) && Index(r.cfg, Local(threads[t])) < r.cfg.cap
  {
    hide RingInv, Index;
    var pc := threads[t];
    ThreadOf(r, threads, t);
    Decode(r.cfg, pc.p, if pc.SendStamp? then pc.m else false);
  }

  lemma KeyIsLive(s: State, t: nat)
    requires Keys(s) && t < |s.threads|
    ensures SendKey(s.threads[t]) >= 0 ==> LiveKey(s.sendWakers, SendKey(s.threads[t]))
    ensures FutureKey(s.threads[t]) >= 0 ==> LiveKey(s.recvWakers, FutureKey(s.threads[t]))
    ensures StreamKey(s.threads[t]) >= 0 ==> LiveKey(s.streamWakers, StreamKey(s.threads[t]))
  {
    hide SendKey, FutureKey, StreamKey;
  }

  lemma CounterIsPositive(s: State, t: nat)
    requires Handles(s) && t < |s.threads|
    ensures s.threads[t].SenderGone? ==> s.senderCount >= 1
    ensures s.threads[t].ReceiverGone? ==> s.receiverCount >= 1
    ensures UsesSender(s.threads[t]) ==> s.senders >= 1
  {
    if s.threads[t].SenderGone? { CountPositive(s.threads, t, IsSenderGone); }
    if s.threads[t].ReceiverGone? { CountPositive(s.threads, t, IsReceiverGone); }
  }

  // ----- wake-ups -----

  /** While a send sleeps, every free slot is somebody's business: a receiver that has yet to notify, or a
      sender that was notified and has yet to retry. Cancelled senders pass their notification on. */
  lemma SleepingSenderIsHelped(run: seq<State>, i: nat, t: nat)
    requires FreshRun(run) && i < |run| && SendParkedAsleep(run[i], t)
    ensures FreeSlots(run[i].ring) <=
            Count(run[i].threads, OwesSender) + Count(run[i].sendWakers, IsNotified)
            + Count(run[i].threads, RetriesSend)
    ensures run[i].ring.marked ==> SomeoneIs(run[i].threads, TellsSenders)
  {
    RunKeepsInv(run, i);
  }

  lemma SleepingReceiverIsHelped(run: seq<State>, i: nat, t: nat)
    requires FreshRun(run) && i < |run| && RecvParkedAsleep(run[i], t, Future)
    ensures Queued(run[i].ring) <=
            Count(run[i].threads, OwesReceiver) + Count(run[i].recvWakers, IsNotified)
            + Count(run[i].threads, RetriesRecv)
    ensures run[i].ring.marked ==> SomeoneIs(run[i].threads, TellsReceivers)
  {
    RunKeepsInv(run, i);
  }

  lemma SleepingStreamIsHelped(run: seq<State>, i: nat, t: nat)
    requires FreshRun(run) && i < |run| && RecvParkedAsleep(run[i], t, Stream)
    ensures Queued(run[i].ring) > 0 ==> SomeoneIs(run[i].threads, OwesStreams)
    ensures run[i].ring.marked ==> SomeoneIs(run[i].threads, TellsStreams)
  {
    RunKeepsInv(run, i);
  }

  ghost predicate Settled(s: State, u: nat) {
    u < |s.threads| &&
    (s.threads[u].Idle? || s.threads[u].SendStuck? || SendParkedAsleep(s, u)
     || RecvParkedAsleep(s, u, Future) || RecvParkedAsleep(s, u, Stream))
  }

  /** In a settled state nobody holds a notification that was not used. */
  lemma SettledHasNoNotified(s: State)
    requires Inv(s) && forall u: nat | u < |s.threads| :: Settled(s, u)
    ensures Count(s.sendWakers, IsNotified) == 0 && Count(s.recvWakers, IsNotified) == 0
  {
    hide Inv, Keys, Settled;
    InvHasKeys(s);
    forall k: nat ensures !EntryNotified(s.sendWakers, k) && !EntryNotified(s.recvWakers, k) {
      SettledSendWaits(s, k);
      SettledRecvWaits(s, k);
    }
    forall k | 0 <= k < |s.sendWakers| ensures !IsNotified(s.sendWakers[k]) { assert !EntryNotified(s.sendWakers, k); }
    forall k | 0 <= k < |s.recvWakers| ensures !IsNotified(s.recvWakers[k]) { assert !EntryNotified(s.recvWakers, k); }
    CountZero(s.sendWakers, IsNotified);
    CountZero(s.recvWakers, IsNotified);
  }

  predicate EntryNotified(es: Entries, k: nat) { k < |es| && es[k].Notified? }

  lemma SettledSendWaits(s: State, k: nat)
    requires Keys(s) && forall u: nat | u < |s.threads| :: Settled(s, u)
    ensures !EntryNotified(s.sendWakers, k)
  {
    if k < |s.sendWakers| && !s.sendWakers[k].Vacant? { assert Settled(s, s.sendWakers[k].task); }
  }

  lemma SettledRecvWaits(s: State, k: nat)
    requires Keys(s) && forall u: nat | u < |s.threads| :: Settled(s, u)
    ensures !EntryNotified(s.recvWakers, k)
  {
    if k < |s.recvWakers| && !s.recvWakers[k].Vacant? { assert Settled(s, s.recvWakers[k].task); }
  }

  /** No deadlock by lost wake-ups: when nobody can move without being woken, a sleeping send means the
      channel is full and connected, and a sleeping receive means it is empty and connected. */
  lemma SettledSleepersWaitRightly(run: seq<State>, i: nat, t: nat, kind: Kind)
    requires FreshRun(run) && i < |run| && forall u: nat | u < |run[i].threads| :: Settled(run[i], u)
    ensures SendParkedAsleep(run[i], t) ==> FreeSlots(run[i].ring) == 0 && !run[i].ring.marked
    ensures RecvParkedAsleep(run[i], t, kind) ==> Queued(run[i].ring) == 0 && !run[i].ring.marked
  {
    RunKeepsInv(run, i);
    var s := run[i];
    SettledHasNoNotified(s);
    SettledOwesNothing(s);
    if SendParkedAsleep(s, t) { assert SendSleeps(s, t); }
    if RecvParkedAsleep(s, t, kind) { assert RecvSleeps(s, t, kind); }
  }

  lemma SettledOwesNothing(s: State)
    requires forall u: nat | u < |s.threads| :: Settled(s, u)
    ensures Count(s.threads, OwesSender) == Count(s.threads, RetriesSend) == 0
    ensures Count(s.threads, OwesReceiver) == Count(s.threads, RetriesRecv) == 0
    ensures !SomeoneIs(s.threads, OwesStreams) && !SomeoneIs(s.threads, TellsStreams)
    ensures !SomeoneIs(s.threads, TellsReceivers) && !SomeoneIs(s.threads, TellsSenders)
  {
    forall u: nat | u < |s.threads|
      ensures !OwesSender(s.threads[u]) && !RetriesSend(s.threads[u]) && !OwesStreams(s.threads[u])
              && !RetriesRecv(s.threads[u]) && !TellsStreams(s.threads[u])
    {
      assert Settled(s, u);
    }
    CountZero(s.threads, OwesSender);
    CountZero(s.threads, RetriesSend);
    CountZero(s.threads, OwesReceiver);
    CountZero(s.threads, RetriesRecv);
  }

  /** A send that is pending on a full, disconnected channel waits for nothing: no receiver is left. */
  lemma StuckSenderHasNoReceiver(run: seq<State>, i: nat, t: nat)
    requires FreshRun(run) && i < |run| && t < |run[i].threads| && run[i].threads[t].SendStuck?
    ensures FreeSlots(run[i].ring) == 0 && run[i].receivers == 0
    ensures forall u | 0 <= u < |run[i].threads| :: !UsesReceiver(run[i].threads[u])
  {
    RunKeepsInv(run, i);
    assert UsesSender(run[i].threads[t]);
  }

  // ----- the end of the stream -----

  /** Nothing is left to receive, and no sender is left. */
  ghost predicate Finished(s: State) {
    s.ring.marked && Queued(s.ring) == 0 && s.senderCount == 0 && s.senders == 0
  }

  /** The step by which a receive returns `None`. */
  ghost predicate ReturnsNone(s: State, t: nat) {
    Enabled(s, t, Advance) && s.threads[t].RecvTail? && RecvStep(s, t).threads[t].Idle?
  }

  /** `None` is returned only after every accepted message was popped and every sender is gone. */
  lemma NoneMeansFinished(s: State, t: nat)
    requires Inv(s) && Fresh(s, t) && ReturnsNone(s, t)
    ensures Finished(s) && Finished(Apply(s, t, Advance)) && s.ring.popped == |s.ring.accepted|
  {
    hide Apply, RingInv, Keys, SendBound, RecvBound, StreamsHelped, DisconnectTold, StuckForGood, Mark, Cleared;
    AdvanceIs(s, t);
    InvHasRing(s);
    InvBounds(s);
    EmptyVerdictIsTrue(s, t);
    assert UsesReceiver(s.threads[t]) && s.receivers >= 1;
  }

  /** Once finished, finished for good: no message is accepted and none is popped. */
  lemma FinishedStays(s: State, t: nat, a: Action)
    requires Inv(s) && FreshStep(s, t, a) && Finished(s) && Enabled(s, t, a)
    ensures var s' := Apply(s, t, a);
            Finished(s') && s'.ring.accepted == s.ring.accepted && s'.ring.popped == s.ring.popped
  {
    hide Apply;
    StepMovesHandles(s, t, a);
    HandlesStep(s, t, a);
    StepMovesHistory(s, t, a);
    InvKept(s, t, a);
    CounterIsPositive(s, t);
  }

  /** After the first `None`, no receive of any later state pops a message. */
  lemma {:induction false} NoMessageAfterNone(run: seq<State>, i: nat, j: nat)
    requires FreshRun(run) && i <= j < |run| && Finished(run[i])
    ensures Finished(run[j]) && run[j].ring.accepted == run[i].ring.accepted && run[j].ring.popped == run[i].ring.popped
    decreases j - i
  {
    hide Apply, Inv, Enabled, FreshStep, Init;
    if i < j {
      NoMessageAfterNone(run, i, j - 1);
      RunKeepsInv(run, j - 1);
      assert FreshNext(run[j - 1], run[j - 1 + 1]);
      var t: nat, a :| Enabled(run[j - 1], t, a) && FreshStep(run[j - 1], t, a) && run[j] == Apply(run[j - 1], t, a);
      FinishedStays(run[j - 1], t, a);
    }
  }

  // ----- conservation -----

  /** The messages that dropping the channel drops: `len` slots from the index of the head on. */
  ghost function DroppedAt(r: Ring, n: nat): seq<Cell>
    requires Sized(r) && n <= r.cfg.cap && Index(r.cfg, r.head) < r.cfg.cap
  {
    var hix := Index(r.cfg, r.head);
    seq(n, i requires 0 <= i < n => r.cells[if hix + i < r.cfg.cap then hix + i else hix + i - r.cfg.cap])
  }

  /** Every popped position has handed over its message, and no other position has handed over anything. */
  ghost predicate AllDelivered(r: Ring) {
    && (forall k: nat :: k in r.delivered <==> k < r.popped)
    && (forall k: nat | k < r.popped :: k < |r.accepted| && r.delivered[k] == r.accepted[k])
  }

  /** When the channel itself is dropped nobody uses it any more. Then every accepted message was either
      handed to exactly one receive or sits in exactly one of the slots that are dropped, in order. */
  lemma DropTakesTheRest(run: seq<State>, i: nat)
    requires FreshRun(run) && i < |run| && forall t | 0 <= t < |run[i].threads| :: run[i].threads[t].Idle?
    ensures var r := run[i].ring;
            && Sized(r) && Index(r.cfg, r.head) < r.cfg.cap && |Queue(run[i])| <= r.cfg.cap
            && LenOf(r.cfg, r.tail, r.head) == |Queue(run[i])|
            && DroppedAt(r, |Queue(run[i])|)
               == seq(|Queue(run[i])|, k requires 0 <= k < |Queue(run[i])| => Holds(Queue(run[i])[k]))
            && AllDelivered(r)
  {
    hide Inv, RingInv, Queue, DroppedAt, LenOf, AllDelivered;
    RunKeepsInv(run, i);
    hide FreshRun;
    DeliveredAtRest(run[i]);
    LenIsExact(run[i].ring, run[i].threads);
    RestIsQueue(run[i]);
    RestIsDropped(run[i]);
  }

  lemma RestIsDropped(s: State)
    requires Inv(s) && forall t | 0 <= t < |s.threads| :: s.threads[t].Idle?
    ensures Sized(s.ring) && Index(s.ring.cfg, s.ring.head) < s.ring.cfg.cap && |Queue(s)| <= s.ring.cfg.cap
    ensures DroppedAt(s.ring, |Queue(s)|) == seq(|Queue(s)|, k requires 0 <= k < |Queue(s)| => Holds(Queue(s)[k]))
  {
    hide Inv, Queue;
    RestIsQueue(s);
  }

  lemma DeliveredAtRest(s: State)
    requires Inv(s) && forall t | 0 <= t < |s.threads| :: s.threads[t].Idle?
    ensures RingInv(s.ring, s.threads)
    ensures AllDelivered(s.ring)
  {
    forall p: nat | p < s.ring.popped
      ensures p in s.ring.delivered
    {
      assert Handed(s.ring, s.threads, p);
    }
  }

  lemma QueueIsSized(s: State)
    requires Inv(s)
    ensures Sized(s.ring) && |Queue(s)| == s.ring.pushed - s.ring.popped <= s.ring.cfg.cap
    ensures Index(s.ring.cfg, s.ring.head) == s.ring.popped % s.ring.cfg.cap
  {
    Decode(s.ring.cfg, s.ring.popped, false);
  }

  /** At rest, the slots from the head on hold the queue, in order. */
  lemma RestIsQueue(s: State)
    requires Inv(s) && forall t | 0 <= t < |s.threads| :: s.threads[t].Idle?
    ensures var r := s.ring;
            && Sized(r) && Index(r.cfg, r.head) < r.cfg.cap && |Queue(s)| == r.pushed - r.popped <= r.cfg.cap
            && forall k | 0 <= k < |Queue(s)| ::
                 var i := Index(r.cfg, r.head) + k;
                 r.cells[if i < r.cfg.cap then i else i - r.cfg.cap] == Holds(Queue(s)[k])
  {
    hide Inv, Queue;
    var r := s.ring;
    QueueIsSized(s);
    forall k | 0 <= k < |Queue(s)|
      ensures var i := Index(r.cfg, r.head) + k;
              r.cells[if i < r.cfg.cap then i else i - r.cfg.cap] == Holds(Queue(s)[k])
    {
      QueuedCell(s, k);
    }
  }

  /** At rest, the k-th queued message sits in the k-th slot from the head on. */
  lemma QueuedCell(s: State, k: nat)
    requires Inv(s) && k < |Queue(s)| && forall t | 0 <= t < |s.threads| :: s.threads[t].Idle?
    ensures var r := s.ring;
            var i := r.popped % r.cfg.cap + k;
            r.cells[if i < r.cfg.cap then i else i - r.cfg.cap] == Holds(Queue(s)[k])
  {
    hide Inv, RingInv, Enc;
    QueueIsSized(s);
    InvHasRing(s);
    WordsOf(s.ring, s.threads);
    SlotIndex(s.ring.cfg.cap, s.ring.popped, k);
    RestingCell(s.ring, s.threads, s.ring.popped + k);
  }

  /** A slot nobody owns holds the message of the queued position it serves. */
  lemma RestingCell(r: Ring, threads: seq<Pc>, p: nat)
    requires RingInv(r, threads) && r.popped <= p < r.pushed && forall t | 0 <= t < |threads| :: threads[t].Idle?
    ensures r.cells[SlotOf(r, p)] == Holds(r.accepted[p])
  {
    hide RingInv, Enc;
    WordsOf(r, threads);
    SlotAt(r, threads, SlotOf(r, p));
    SameSlot(r.cfg.cap, p, r.places[SlotOf(r, p)]);
  }

  lemma SlotIndex(cap: nat, p: nat, k: nat)
    requires cap > 0 && k < cap
    ensures (p + k) % cap == if p % cap + k < cap then p % cap + k else p % cap + k - cap
  {
    var q, m := p / cap, p % cap;
    assert p == cap * q + m;
    if m + k < cap {
      ModUnique(p + k, cap, q, m + k);
    } else {
      assert cap * (q + 1) == cap * q + cap;
      ModUnique(p + k, cap, q + 1, m + k - cap);
    }
  }

  /** Words read at one moment give the exact length. */
  lemma LenIsExact(r: Ring, threads: seq<Pc>)
    requires RingInv(r, threads)
    ensures LenOf(r.cfg, r.tail, r.head) == r.pushed - r.popped
  {
    LenOfWords(r.cfg, r.popped, r.pushed, r.marked);
  }

  lemma LenOfWords(c: Config, h: nat, t: nat, m: bool)
    requires c.Valid() && h <= t <= h + c.cap
    ensures LenOf(c, Word(c, t, m), Enc(c, h)) == t - h
  {
    LenOfDecides(c, h, t, t, m);
  }

  // ----- observations -----

  /** `len` returns the length the channel had at the moment its head was loaded, if and only if the tail loaded
      before stands for the position `at` the tail had by then: up to whole windows, or at least up to whole
      capacities where the index alone decides, or where the two words must differ and do. */
  lemma LenIsMomentary(s: State, t: nat)
    requires Inv(s) && t < |s.threads| && s.threads[t].LenAgain? && s.ring.tail == s.threads[t].tail
    ensures s.ring.cfg.Valid()
    ensures var c, pc := s.ring.cfg, s.threads[t];
            var at := pc.actual + pc.q;
            LenOf(c, pc.tail, pc.head) == pc.actual <==>
            || at % c.Window() == pc.p % c.Window()
            || (at % c.cap == pc.p % c.cap
                && (0 < pc.actual < c.cap || (pc.actual == c.cap && pc.p % c.Window() != pc.q % c.Window())))
  {
    hide Inv, LenOf;
    InvHasRing(s);
    LenCopies(s.ring, s.threads, t);
    hide RingInv;
    LenOfDecides(s.ring.cfg, s.threads[t].q, s.threads[t].actual + s.threads[t].q, s.threads[t].p, s.threads[t].m);
  }

  /** What the second load of the tail has in hand. */
  lemma LenCopies(r: Ring, threads: seq<Pc>, t: nat)
    requires RingInv(r, threads) && t < |threads| && threads[t].LenAgain?
    ensures var pc := threads[t];
            && r.cfg.Valid() && pc.tail == Word(r.cfg, pc.p, pc.m) && pc.head == Enc(r.cfg, pc.q)
            && pc.p <= pc.actual + pc.q && 0 <= pc.actual <= r.cfg.cap
  {
    assert ThreadInv(r, threads[t], t);
  }

  /** The length computed from a head and a tail of any two positions. */
  lemma LenOfDecides(c: Config, q: nat, at: nat, p: nat, m: bool)
    requires c.Valid() && q <= at <= q + c.cap && p <= at
    ensures LenOf(c, Word(c, p, m), Enc(c, q)) == at - q <==>
            || at % c.Window() == p % c.Window()
            || (at % c.cap == p % c.cap
                && (0 < at - q < c.cap || (at - q == c.cap && p % c.Window() != q % c.Window())))
  {
    EncCongruent(c, p, q);
    EncCongruent(c, at, p);
    EncEqual(c, at, p);
    EncEqual(c, p, q);
    LenOfIndices(c, p, m, q);
    if at < q + c.cap {
      SlotIndex(c.cap, q, at - q);
    } else {
      AddWhole(q, c.cap, 1);
      YoungNotCircled(c, at, q);
    }
  }

  lemma LenOfIndices(c: Config, p: nat, m: bool, q: nat)
    requires c.Valid()
    ensures var hix, tix := q % c.cap, p % c.cap;
            LenOf(c, Word(c, p, m), Enc(c, q)) ==
            if hix < tix then tix - hix
            else if hix > tix then c.cap - hix + tix
            else if Enc(c, p) == Enc(c, q) then 0
            else c.cap
  {
    Decode(c, q, false);
    Decode(c, p, m);
  }

  /** The counters of the two ends only grow, one at a time, and one message at a time. */
  lemma PositionsMove(run: seq<State>, i: nat)
    requires FreshRun(run) && i + 1 < |run|
    ensures var r, r' := run[i].ring, run[i + 1].ring;
            && r'.cfg == r.cfg && 0 <= Queued(r') <= r.cfg.cap
            && ((r'.pushed == r.pushed && r'.popped == r.popped)
                || (r'.pushed == r.pushed + 1 && r'.popped == r.popped)
                || (r'.pushed == r.pushed && r'.popped == r.popped + 1))
  {
    hide Apply;
    RunKeepsInv(run, i + 1);
    assert FreshNext(run[i], run[i + 1]);
    var t: nat, a :| Enabled(run[i], t, a) && FreshStep(run[i], t, a) && run[i + 1] == Apply(run[i], t, a);
    StepMovesHistory(run[i], t, a);
  }

  lemma BoundsHold(run: seq<State>, i: nat)
    requires FreshRun(run) && i < |run|
    ensures run[i].ring.cfg.Valid() && 0 <= Queued(run[i].ring) <= run[i].ring.cfg.cap
  {
    RunKeepsInv(run, i);
  }

  lemma {:induction false} PositionsGrow(run: seq<State>, i: nat, j: nat)
    requires FreshRun(run) && i <= j < |run|
    ensures run[j].ring.cfg == run[i].ring.cfg
    ensures run[i].ring.pushed <= run[j].ring.pushed && run[i].ring.popped <= run[j].ring.popped
    decreases j - i
  {
    hide FreshRun;
    if i < j {
      PositionsGrow(run, i, j - 1);
      PositionsMove(run, j - 1);
    }
  }

  /** `is_full`: tail loaded in state `i`, head in state `j`. */
  ghost predicate SeenFull(run: seq<State>, i: nat, j: nat)
    requires i < |run| && j < |run| && run[i].ring.cfg.Valid()
  {
    var c := run[i].ring.cfg;
    WrappingAdd(c, run[j].ring.head, c.OneLap()) == Cleared(c, run[i].ring.tail)
  }

  /** `is_empty`: head loaded in state `i`, tail in state `j`. */
  ghost predicate SeenEmpty(run: seq<State>, i: nat, j: nat)
    requires i < |run| && j < |run| && run[i].ring.cfg.Valid()
  {
    Cleared(run[i].ring.cfg, run[j].ring.tail) == run[i].ring.head
  }

  /** `is_full` answers `false` only if there was a moment during the call when the channel was not full. It
      answers `true` wrongly, on a channel that is not full when the head is loaded, exactly if by then the head,
      a capacity ahead, has come full circle since the tail was loaded. */
  lemma IsFullIsTrueOfAMoment(run: seq<State>, i: nat, j: nat)
    requires FreshRun(run) && i <= j < |run|
    ensures run[i].ring.cfg.Valid()
    ensures FreeSlots(run[j].ring) > 0 ==>
              (SeenFull(run, i, j) <==>
               Circled(run[i].ring.cfg, run[j].ring.popped + run[i].ring.cfg.cap, run[i].ring.pushed))
    ensures !SeenFull(run, i, j) ==> exists k :: i <= k <= j && FreeSlots(run[k].ring) > 0
  {
    hide FreshRun, Inv, RingInv, Cleared, WrappingAdd, Circled;
    RunKeepsInv(run, i);
    RunKeepsInv(run, j);
    BoundsHold(run, i);
    BoundsHold(run, j);
    PositionsGrow(run, i, j);
    InvHasRing(run[i]);
    InvHasRing(run[j]);
    SeenFullDecides(run[i].ring, run[i].threads, run[j].ring, run[j].threads);
    if run[j].ring.popped + run[i].ring.cfg.cap != run[i].ring.pushed { var k := NotFullSomewhere(run, i, j); }
  }

  /** What comparing a later head with an earlier tail decides. */
  lemma SeenFullDecides(r: Ring, threads: seq<Pc>, r': Ring, threads': seq<Pc>)
    requires RingInv(r, threads) && RingInv(r', threads') && r'.cfg == r.cfg
    ensures var behind := r'.popped + r.cfg.cap;
            WrappingAdd(r.cfg, r'.head, r.cfg.OneLap()) == Cleared(r.cfg, r.tail) <==>
            behind == r.pushed || Circled(r.cfg, behind, r.pushed)
  {
    Decode(r.cfg, r.pushed, r.marked);
    FullTells(r', threads', r.pushed);
  }

  lemma {:induction false} NotFullSomewhere(run: seq<State>, i: nat, j: nat) returns (k: nat)
    requires FreshRun(run) && i <= j < |run| && run[j].ring.popped + run[i].ring.cfg.cap != run[i].ring.pushed
    ensures i <= k <= j && FreeSlots(run[k].ring) > 0
    decreases j - i
  {
    hide FreshRun;
    BoundsHold(run, i);
    k := i;
    if FreeSlots(run[i].ring) == 0 {
      PositionsMove(run, i);
      k := i + 1;
      if FreeSlots(run[i + 1].ring) == 0 { k := NotFullSomewhere(run, i + 1, j); }
    }
  }

  /** The same for `is_empty`, whose second load is the tail. */
  lemma IsEmptyIsTrueOfAMoment(run: seq<State>, i: nat, j: nat)
    requires FreshRun(run) && i <= j < |run|
    ensures run[i].ring.cfg.Valid()
    ensures Queued(run[j].ring) > 0 ==>
              (SeenEmpty(run, i, j) <==> Circled(run[i].ring.cfg, run[j].ring.pushed, run[i].ring.popped))
    ensures !SeenEmpty(run, i, j) ==> exists k :: i <= k <= j && Queued(run[k].ring) > 0
  {
    hide FreshRun;
    RunKeepsInv(run, i);
    RunKeepsInv(run, j);
    PositionsGrow(run, i, j);
    var r, r' := run[i].ring, run[j].ring;
    EmptyTells(r', run[j].threads, r.popped);
    if r'.pushed != r.popped { var k := NotEmptySomewhere(run, i, j); }
  }

  lemma {:induction false} NotEmptySomewhere(run: seq<State>, i: nat, j: nat) returns (k: nat)
    requires FreshRun(run) && i <= j < |run| && run[j].ring.pushed != run[i].ring.popped
    ensures i <= k <= j && Queued(run[k].ring) > 0
    decreases j - i
  {
    hide FreshRun;
    BoundsHold(run, i);
    k := i;
    if Queued(run[i].ring) == 0 {
      PositionsMove(run, i);
      k := i + 1;
      if Queued(run[i + 1].ring) == 0 { k := NotEmptySomewhere(run, i + 1, j); }
    }
  }

  // ----- when a comparison misleads -----

  /** What the next step of `t` does wrong: an exchange that takes a slot it must not, or a false verdict. */
  ghost predicate Misled(s: State, t: nat)
    requires Enabled(s, t, Advance)
  {
    var pc, s' := s.threads[t], Apply(s, t, Advance);
    || (pc.SendCas? && s'.threads[t].SendWrite? && !RingInv(s'.ring, s'.threads))
    || (pc.RecvCas? && s'.threads[t].RecvRead? && !RingInv(s'.ring, s'.threads))
    || (SaysFull(pc, Advance, s'.threads[t]) && FreeSlots(s.ring) > 0)
    || (SaysEmpty(pc, Advance, s'.threads[t]) && Queued(s.ring) > 0)
  }

  /** A step goes wrong exactly when it is not fresh. */
  lemma MisledExactly(s: State, t: nat)
    requires Inv(s) && Enabled(s, t, Advance)
    ensures Misled(s, t) <==> !Fresh(s, t)
  {
    var pc := s.threads[t];
    if pc.SendCas? {
      PushMisledExactly(s, t);
    } else if pc.RecvCas? {
      PopMisledExactly(s, t);
    } else if pc.SendHead? || pc.SendFullHead? {
      FullMisledExactly(s, t);
    } else if pc.RecvTail? || pc.RecvEmptyTail? {
      EmptyMisledExactly(s, t);
    }
  }

  lemma PushMisledExactly(s: State, t: nat)
    requires Inv(s) && Enabled(s, t, Advance) && s.threads[t].SendCas?
    ensures Apply(s, t, Advance) == SendStep(s, t)
    ensures var s' := SendStep(s, t); s'.threads[t].SendWrite? && !RingInv(s'.ring, s'.threads) <==> !Fresh(s, t)
  {
    hide Inv, RingInv, SendStep, Apply, Sized, TouchesSlot, FreeKey, LiveKey, Circled;
    AdvanceIs(s, t);
    InvHasRing(s);
    TailExchange(s, t);
    if s.ring.tail == s.threads[t].tail {
      SendCasSucceeds(s, t);
      if Fresh(s, t) {
        SendCasKeeps(s, t);
      } else {
        PushBreaks(s.ring, s.threads, t, s.threads[t].msg);
      }
    }
  }

  lemma TailExchange(s: State, t: nat)
    requires RingInv(s.ring, s.threads) && Enabled(s, t, Advance) && s.threads[t].SendCas?
    ensures SendStep(s, t).threads[t].SendWrite? <==> s.ring.tail == s.threads[t].tail
    ensures s.ring.tail == s.threads[t].tail <==>
              (s.ring.pushed == s.threads[t].p || Circled(s.ring.cfg, s.ring.pushed, s.threads[t].p))
              && s.ring.marked == s.threads[t].m
  {
    hide RingInv, Circled, Advanced, Or, Unmarked, Mark;
    var pc := s.threads[t];
    ThreadOf(s.ring, s.threads, t);
    TailCasTells(s.ring, s.threads, pc.p, pc.m);
  }

  /** How the ring invariant fails. */
  lemma BrokenSlot(r: Ring, threads: seq<Pc>, i: nat)
    requires Sized(r) && i < r.cfg.cap && (Words(r) ==> !SlotInv(r, threads, i))
    ensures !RingInv(r, threads)
  {
  }

  /** Pushing into a slot that is not free leaves a slot that serves two positions, or one message too many. */
  lemma PushBreaks(r: Ring, threads: seq<Pc>, t: nat, msg: Msg)
    requires RingInv(r, threads) && t < |threads| && !r.stages[SlotOf(r, r.pushed)].Free?
    ensures !RingInv(Pushed(r, Word(r.cfg, r.pushed + 1, r.marked), msg, t),
                     threads[t := SendWrite(msg, Enc(r.cfg, r.pushed), r.pushed)])
  {
    hide RingInv;
    WordsOf(r, threads);
    var i := SlotOf(r, r.pushed);
    SlotAt(r, threads, i);
    if r.pushed < r.popped + r.cfg.cap && !r.stages[i].Reading? { SameSlot(r.cfg.cap, r.places[i], r.pushed); }
    BrokenSlot(Pushed(r, Word(r.cfg, r.pushed + 1, r.marked), msg, t),
               threads[t := SendWrite(msg, Enc(r.cfg, r.pushed), r.pushed)], i);
  }

  lemma PopMisledExactly(s: State, t: nat)
    requires Inv(s) && Enabled(s, t, Advance) && s.threads[t].RecvCas?
    ensures Apply(s, t, Advance) == RecvStep(s, t)
    ensures var s' := RecvStep(s, t); s'.threads[t].RecvRead? && !RingInv(s'.ring, s'.threads) <==> !Fresh(s, t)
  {
    hide Inv, RingInv, RecvStep, Apply, Sized, TouchesSlot, FreeKey, LiveKey, Circled;
    AdvanceIs(s, t);
    InvHasRing(s);
    HeadExchange(s, t);
    if s.ring.head == s.threads[t].head {
      RecvCasSucceeds(s, t);
      if Fresh(s, t) {
        RecvCasKeeps(s, t);
      } else {
        PopBreaks(s.ring, s.threads, t);
      }
    }
  }

  lemma HeadExchange(s: State, t: nat)
    requires RingInv(s.ring, s.threads) && Enabled(s, t, Advance) && s.threads[t].RecvCas?
    ensures RecvStep(s, t).threads[t].RecvRead? <==> s.ring.head == s.threads[t].head
    ensures s.ring.head == s.threads[t].head <==>
            s.ring.popped == s.threads[t].p || Circled(s.ring.cfg, s.ring.popped, s.threads[t].p)
  {
    hide RingInv, Circled, Advanced;
    var pc := s.threads[t];
    ThreadOf(s.ring, s.threads, t);
    HeadCasTells(s.ring, s.threads, pc.p);
  }

  /** Popping from a slot that is not ready takes what was never written, or overtakes the tail. */
  lemma PopBreaks(r: Ring, threads: seq<Pc>, t: nat)
    requires RingInv(r, threads) && t < |threads| && !r.stages[SlotOf(r, r.popped)].Ready?
    ensures !RingInv(Popped(r, Enc(r.cfg, r.popped + 1), t), threads[t := RecvRead(Enc(r.cfg, r.popped), r.popped)])
  {
    hide RingInv;
    WordsOf(r, threads);
    var i := SlotOf(r, r.popped);
    SlotAt(r, threads, i);
    if r.popped < r.pushed && !r.stages[i].Reading? { SameSlot(r.cfg.cap, r.places[i], r.popped); }
    BrokenSlot(Popped(r, Enc(r.cfg, r.popped + 1), t), threads[t := RecvRead(Enc(r.cfg, r.popped), r.popped)], i);
  }

  lemma FullMisledExactly(s: State, t: nat)
    requires Inv(s) && Enabled(s, t, Advance) && (s.threads[t].SendHead? || s.threads[t].SendFullHead?)
    ensures Misled(s, t) <==> !Fresh(s, t)
  {
    hide Misled, Inv, RingInv, Circled;
    MisledByFull(s, t);
    InvHasRing(s);
    FullVerdict(s, t);
    FreeSlotsOf(s.ring, s.threads);
  }

  lemma MisledByFull(s: State, t: nat)
    requires Enabled(s, t, Advance) && (s.threads[t].SendHead? || s.threads[t].SendFullHead?)
    ensures Misled(s, t) <==> SaysFull(s.threads[t], Advance, SendStep(s, t).threads[t]) && FreeSlots(s.ring) > 0
  {
    hide RingInv, Apply, SendStep;
    AdvanceIs(s, t);
  }

  lemma FreeSlotsOf(r: Ring, threads: seq<Pc>)
    requires RingInv(r, threads)
    ensures Sized(r) && FreeSlots(r) >= 0 && Queued(r) >= 0
  {
  }

  lemma FullVerdict(s: State, t: nat)
    requires RingInv(s.ring, s.threads) && Enabled(s, t, Advance)
             && (s.threads[t].SendHead? || s.threads[t].SendFullHead?)
    ensures var r, pc := s.ring, s.threads[t];
            SaysFull(pc, Advance, SendStep(s, t).threads[t]) <==>
            r.popped + r.cfg.cap == pc.p || Circled(r.cfg, r.popped + r.cfg.cap, pc.p)
    ensures s.threads[t].p <= s.ring.pushed
  {
    hide Circled, RingInv, SendStep;
    var r, pc := s.ring, s.threads[t];
    TailCopy(r, s.threads, t);
    FullTells(r, s.threads, pc.p);
    Decode(r.cfg, pc.p, pc.m);
    if pc.SendHead? { HeadVerdict(s, t); } else { RecheckVerdict(s, t); }
  }

  lemma TailCopy(r: Ring, threads: seq<Pc>, t: nat)
    requires RingInv(r, threads) && t < |threads| && (threads[t].SendHead? || threads[t].SendFullHead?)
    ensures Sized(r) && threads[t].tail == Word(r.cfg, threads[t].p, threads[t].m) && threads[t].p <= r.pushed
  {
    assert ThreadInv(r, threads[t], t);
  }

  lemma HeadVerdict(s: State, t: nat)
    requires Enabled(s, t, Advance) && s.threads[t].SendHead?
    ensures var c, pc := s.ring.cfg, s.threads[t];
            SaysFull(pc, Advance, SendStep(s, t).threads[t]) <==>
            WrappingAdd(c, s.ring.head, c.OneLap()) == Unmarked(c, pc.tail)
  {
  }

  lemma RecheckVerdict(s: State, t: nat)
    requires Enabled(s, t, Advance) && s.threads[t].SendFullHead?
    ensures var c, pc := s.ring.cfg, s.threads[t];
            SaysFull(pc, Advance, SendStep(s, t).threads[t]) <==>
            WrappingAdd(c, s.ring.head, c.OneLap()) == Cleared(c, pc.tail)
  {
  }

  lemma EmptyMisledExactly(s: State, t: nat)
    requires Inv(s) && Enabled(s, t, Advance) && (s.threads[t].RecvTail? || s.threads[t].RecvEmptyTail?)
    ensures Misled(s, t) <==> !Fresh(s, t)
  {
    hide Misled, Inv, RingInv, Circled;
    MisledByEmpty(s, t);
    InvHasRing(s);
    HeadCopy(s.ring, s.threads, t);
    EmptyTells(s.ring, s.threads, s.threads[t].p);
    EmptyVerdict(s, t);
    FreeSlotsOf(s.ring, s.threads);
  }

  lemma MisledByEmpty(s: State, t: nat)
    requires Enabled(s, t, Advance) && (s.threads[t].RecvTail? || s.threads[t].RecvEmptyTail?)
    ensures Misled(s, t) <==> SaysEmpty(s.threads[t], Advance, RecvStep(s, t).threads[t]) && Queued(s.ring) > 0
  {
    hide RingInv, Apply, RecvStep;
    AdvanceIs(s, t);
  }

  lemma EmptyVerdict(s: State, t: nat)
    requires Enabled(s, t, Advance) && (s.threads[t].RecvTail? || s.threads[t].RecvEmptyTail?)
    ensures SaysEmpty(s.threads[t], Advance, RecvStep(s, t).threads[t]) <==>
            Cleared(s.ring.cfg, s.ring.tail) == s.threads[t].head
  {
  }

  lemma HeadCopy(r: Ring, threads: seq<Pc>, t: nat)
    requires RingInv(r, threads) && t < |threads| && (threads[t].RecvTail? || threads[t].RecvEmptyTail?)
    ensures Sized(r) && threads[t].head == Enc(r.cfg, threads[t].p) && threads[t].p <= r.popped
  {
    assert ThreadInv(r, threads[t], t);
  }

  lemma InvHasRing(s: State)
    requires Inv(s)
    ensures RingInv(s.ring, s.threads)
  {
  }

  /** A run in which no step goes wrong. */
  ghost predicate UnmisledNext(s: State, s': State) {
    exists t: nat, a :: Enabled(s, t, a) && (a.Advance? ==> !Misled(s, t)) && s' == Apply(s, t, a)
  }

  ghost predicate UnmisledRun(run: seq<State>) {
    |run| > 0 && Init(run[0]) && forall i | 0 <= i < |run| - 1 :: UnmisledNext(run[i], run[i + 1])
  }

  lemma UnmisledStep(s: State, s': State)
    requires Inv(s)
    ensures FreshNext(s, s') <==> UnmisledNext(s, s')
  {
    hide Apply, Enabled, Fresh, Misled, Inv;
    if FreshNext(s, s') {
      var t: nat, a :| Enabled(s, t, a) && FreshStep(s, t, a) && s' == Apply(s, t, a);
      if a.Advance? { MisledExactly(s, t); }
    }
    if UnmisledNext(s, s') {
      var t: nat, a :| Enabled(s, t, a) && (a.Advance? ==> !Misled(s, t)) && s' == Apply(s, t, a);
      if a.Advance? { MisledExactly(s, t); }
      assert FreshStep(s, t, a);
    }
  }

  /** So the runs of all these results are exactly the runs in which no step goes wrong. */
  lemma FreshMeansUnmisled(run: seq<State>)
    ensures FreshRun(run) <==> UnmisledRun(run)
  {
    hide FreshNext, UnmisledNext, Init;
    if FreshRun(run) {
      forall i | 0 <= i < |run| - 1
        ensures UnmisledNext(run[i], run[i + 1])
      {
        RunKeepsInv(run, i);
        UnmisledStep(run[i], run[i + 1]);
      }
    }
    if UnmisledRun(run) {
      UnmisledPrefix(run, |run| - 1);
      assert run[..|run|] == run;
    }
  }

  lemma {:induction false} UnmisledPrefix(run: seq<State>, n: nat)
    requires UnmisledRun(run) && n < |run|
    ensures FreshRun(run[..n + 1])
  {
    hide FreshNext, UnmisledNext, Init, Inv;
    if n > 0 {
      UnmisledPrefix(run, n - 1);
      RunKeepsInv(run[..n], n - 1);
      UnmisledStep(run[n - 1], run[n - 1 + 1]);
      OneLonger(run, n);
    }
  }

  /** The position a comparison is about, at this moment. */
  function Compared(r: Ring, pc: Pc): nat {
    if pc.SendCas? || pc.RecvTail? || pc.RecvEmptyTail? then r.pushed
    else if pc.SendHead? || pc.SendFullHead? then r.popped + r.cfg.cap
    else r.popped
  }

  predicate Compares(pc: Pc) {
    pc.SendCas? || pc.SendHead? || pc.SendFullHead? || pc.RecvCas? || pc.RecvTail? || pc.RecvEmptyTail?
  }

  /** The compared position is less than a window past the copied one. */
  ghost predicate Young(s: State, t: nat) {
    s.ring.cfg.Valid() && t < |s.threads| &&
    (Compares(s.threads[t]) ==> Compared(s.ring, s.threads[t]) < s.threads[t].p + s.ring.cfg.Window())
  }

  /** A copy younger than a whole window never misleads. */
  lemma YoungCopyIsFresh(s: State, t: nat)
    requires Inv(s) && Young(s, t)
    ensures Fresh(s, t)
  {
    hide Inv, RingInv, Circled;
    InvHasRing(s);
    CopyIsBehind(s.ring, s.threads, t);
    var r, pc := s.ring, s.threads[t];
    if Compares(pc) { YoungNotCircled(r.cfg, Compared(r, pc), pc.p); }
  }

  lemma CopyIsBehind(r: Ring, threads: seq<Pc>, t: nat)
    requires RingInv(r, threads) && t < |threads|
    ensures Sized(r) && (Compares(threads[t]) ==> threads[t].p <= Compared(r, threads[t]))
  {
    assert ThreadInv(r, threads[t], t);
  }

  ghost predicate YoungNext(s: State, s': State) {
    exists t: nat, a :: Enabled(s, t, a) && (a.Advance? ==> Young(s, t)) && s' == Apply(s, t, a)
  }

  /** A run in which no operation compares a word that is a window old. */
  ghost predicate YoungRun(run: seq<State>) {
    |run| > 0 && Init(run[0]) && forall i | 0 <= i < |run| - 1 :: YoungNext(run[i], run[i + 1])
  }

  /** So all these results hold under a condition on distances alone. */
  lemma YoungRunIsFresh(run: seq<State>)
    requires YoungRun(run)
    ensures FreshRun(run)
  {
    hide FreshNext, YoungNext, Init;
    YoungPrefix(run, |run| - 1);
    assert run[..|run|] == run;
  }

  lemma YoungStep(s: State, s': State)
    requires Inv(s) && YoungNext(s, s')
    ensures FreshNext(s, s')
  {
    hide Apply, Enabled, Fresh, Young, Inv;
    var t: nat, a :| Enabled(s, t, a) && (a.Advance? ==> Young(s, t)) && s' == Apply(s, t, a);
    if a.Advance? { YoungCopyIsFresh(s, t); }
    assert FreshStep(s, t, a);
  }

  lemma {:induction false} YoungPrefix(run: seq<State>, n: nat)
    requires YoungRun(run) && n < |run|
    ensures FreshRun(run[..n + 1])
  {
    hide FreshNext, YoungNext, Init, Inv;
    if n > 0 {
      YoungPrefix(run, n - 1);
      RunKeepsInv(run[..n], n - 1);
      YoungStep(run[n - 1], run[n - 1 + 1]);
      OneLonger(run, n);
    }
  }

  /** A fresh run and one more fresh step. */
  lemma OneLonger(run: seq<State>, n: nat)
    requires 0 < n < |run| && FreshRun(run[..n]) && FreshNext(run[n - 1], run[n])
    ensures FreshRun(run[..n + 1])
  {
    hide FreshNext, Init;
    var shorter, longer := run[..n], run[..n + 1];
    forall i | 0 <= i < |longer| - 1
      ensures FreshNext(longer[i], longer[i + 1])
    {
      if i < n - 1 { assert FreshNext(shorter[i], shorter[i + 1]); }
    }
  }

  /** The window cannot be widened: a sender that slept for exactly one window still succeeds with its
      exchange, and on a full channel it then takes a slot whose message was never received. */
  lemma StaleExchangeOverfills(s: State, t: nat)
    requires RingInv(s.ring, s.threads) && Enabled(s, t, Advance) && s.threads[t].SendCas?
    requires s.ring.pushed == s.threads[t].p + s.ring.cfg.Window() && s.ring.marked == s.threads[t].m
             && FreeSlots(s.ring) == 0
    ensures var s' := SendStep(s, t);
            s'.threads[t].SendWrite? && FreeSlots(s'.ring) == -1
            && s.ring.stages[s.ring.pushed % s.ring.cfg.cap] != Free
  {
    hide SendStep;
    var r, pc := s.ring, s.threads[t];
    assert ThreadInv(r, pc, t);
    StaleWord(r.cfg, pc.p, pc.m);
    ExchangeSucceeds(s, t);
    assert SlotInv(r, s.threads, SlotOf(r, r.pushed));
  }

  lemma StaleWord(c: Config, p: nat, m: bool)
    requires c.Valid()
    ensures Word(c, p + c.Window(), m) == Word(c, p, m)
    ensures var w := Word(c, p, m); Or(Unmarked(c, w), Mark(c, w)) == w
  {
    Decode(c, p, m);
    WindowIsSharp(c, p);
  }

  lemma ExchangeSucceeds(s: State, t: nat)
    requires Enabled(s, t, Advance) && s.threads[t].SendCas?
    requires var w := s.threads[t].tail; s.ring.tail == Or(Unmarked(s.ring.cfg, w), Mark(s.ring.cfg, w))
    ensures var s' := SendStep(s, t);
            && |s'.threads| == |s.threads| && s'.threads[t].SendWrite?
            && s'.ring.cfg == s.ring.cfg && s'.ring.popped == s.ring.popped && s'.ring.pushed == s.ring.pushed + 1
  {
  }
}
