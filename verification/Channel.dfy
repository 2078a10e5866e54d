/** `src/sync/channel.rs`: the bounded multi-producer multi-consumer channel as a protocol.

    Any number of operations run at once; each atomic access of the source is one step that works on the
    packed words the source works on. The unbounded positions, the stage of every slot and the record of
    accepted and delivered messages are history: no branch looks at them. A critical section of a waker
    set is one step. `Pc` names the place an operation has reached, with the locals that are still live. */
module Channel {
  import opened Stamps
  import opened WakerSets

  type Msg = nat

  /** A receive through `recv().await`, or through the `Stream` implementation. */
  datatype Kind = Future | Stream

  datatype Cell = Blank | Holds(msg: Msg)

  /** Who may touch a slot. */
  datatype Stage = Free | Writing(owner: nat) | Ready | Reading(owner: nat)

  datatype Ring = Ring(
    cfg: Config,
    head: nat,
    tail: nat,
    stamps: seq<nat>,
    cells: seq<Cell>,
    // history
    popped: nat,              // position of the head
    pushed: nat,              // position of the tail
    marked: bool,             // the mark bit of the tail
    places: seq<nat>,         // the position each slot is serving
    stages: seq<Stage>,
    accepted: seq<Msg>,       // every message whose push succeeded, in order
    delivered: map<nat, Msg>  // what was taken out for each popped position
  )

  datatype Pc =
    | Idle
    // SendFuture::poll and try_send; `credit`: the operation was woken by a notification
    | SendLoad(msg: Msg, credit: bool)
    | SendStamp(msg: Msg, credit: bool, tail: nat, p: nat, m: bool)
    | SendCas(msg: Msg, credit: bool, tail: nat, p: nat, m: bool)
    | SendHead(msg: Msg, credit: bool, tail: nat, p: nat, m: bool)
    | SendWrite(msg: Msg, tail: nat, p: nat)
    | SendStore(tail: nat, p: nat)
    | SendWakeOne                  // recv_wakers.notify_one: load the flag
    | SendWakeOneGo
    | SendWakeStreams              // stream_wakers.notify_all
    | SendWakeStreamsGo
    | SendInsert(msg: Msg)
    | SendFullTail(msg: Msg, key: nat)
    | SendFullHead(msg: Msg, key: nat, tail: nat, p: nat, m: bool)
    | SendCheckMark(msg: Msg, key: nat)
    | SendLoop(msg: Msg, key: nat)
    | SendParked(msg: Msg, key: nat)
    | SendStuck(msg: Msg)          // full and disconnected: pending without a waker
    // poll_recv and try_recv
    | RecvLoad(kind: Kind, credit: bool)
    | RecvStamp(kind: Kind, credit: bool, head: nat, p: nat)
    | RecvCas(kind: Kind, credit: bool, head: nat, p: nat)
    | RecvTail(kind: Kind, credit: bool, head: nat, p: nat)
    | RecvRead(head: nat, p: nat)
    | RecvStore(head: nat, p: nat, msg: Msg)
    | RecvWakeOne(p: nat, msg: Msg)  // send_wakers.notify_one: load the flag
    | RecvWakeOneGo(p: nat, msg: Msg)
    | RecvInsert(kind: Kind)
    | RecvEmptyHead(kind: Kind, key: nat)
    | RecvEmptyTail(kind: Kind, key: nat, head: nat, p: nat)
    | RecvCheckMark(kind: Kind, key: nat)
    | RecvLoop(kind: Kind, key: nat)
    | RecvParked(kind: Kind, key: nat)
    // len
    | LenTail
    | LenHead(tail: nat, p: nat, m: bool)
    | LenAgain(tail: nat, p: nat, m: bool, head: nat, q: nat, actual: int)
    // dropping handles
    | SenderGone                   // about to decrement sender_count
    | ReceiverGone
    | Marking                      // disconnect: about to set the mark bit
    | WakeSenders | WakeSendersGo
    | WakeReceivers | WakeReceiversGo
    | WakeStreams | WakeStreamsGo

  datatype State = State(
    ring: Ring,
    sendWakers: Entries,
    recvWakers: Entries,
    streamWakers: Entries,
    senderCount: nat,
    receiverCount: nat,
    // history: handles whose drop has not begun
    senders: nat,
    receivers: nat,
    threads: seq<Pc>)

  datatype Action =
    | BeginSend(msg: Msg) | BeginRecv(kind: Kind) | BeginLen
    | CloneSender | CloneReceiver | DropSender | DropReceiver
    | Advance             // the one thing the operation does next
    | SpuriousFailure     // compare_exchange_weak failing although the value matched
    | InsertWaker(key: nat)
    | DropFuture          // a suspended future, or a stream receiver with a waker, is dropped

  // ----- construction -----

  ghost function NewRing(cfg: Config): Ring
    requires cfg.Valid()
  {
    Ring(cfg, 0, 0, seq(cfg.cap, i => i), seq(cfg.cap, _ => Blank), 0, 0, false,
         seq(cfg.cap, i => i), seq(cfg.cap, _ => Free), [], map[])
  }

  ghost predicate Init(s: State) {
    && s.ring.cfg.Valid()
    && s.ring == NewRing(s.ring.cfg)
    && s.sendWakers == s.recvWakers == s.streamWakers == []
    && s.senderCount == s.receiverCount == s.senders == s.receivers == 1
    && forall t | 0 <= t < |s.threads| :: s.threads[t].Idle?
  }

  /** The parts of a ring that index into each other. */
  predicate Sized(r: Ring) {
    r.cfg.Valid() && |r.stamps| == |r.cells| == |r.places| == |r.stages| == r.cfg.cap
  }

  // ----- the operations in progress -----

  predicate UsesSender(pc: Pc) {
    || pc.SendLoad? || pc.SendStamp? || pc.SendCas? || pc.SendHead? || pc.SendWrite? || pc.SendStore?
    || pc.SendWakeOne? || pc.SendWakeOneGo? || pc.SendWakeStreams? || pc.SendWakeStreamsGo?
    || pc.SendInsert? || pc.SendFullTail? || pc.SendFullHead? || pc.SendCheckMark? || pc.SendLoop?
    || pc.SendParked? || pc.SendStuck?
  }

  predicate UsesReceiver(pc: Pc) {
    || pc.RecvLoad? || pc.RecvStamp? || pc.RecvCas? || pc.RecvTail? || pc.RecvRead? || pc.RecvStore?
    || pc.RecvWakeOne? || pc.RecvWakeOneGo? || pc.RecvInsert? || pc.RecvEmptyHead? || pc.RecvEmptyTail?
    || pc.RecvCheckMark? || pc.RecvLoop? || pc.RecvParked?
  }

  ghost predicate SomeUser(s: State, uses: Pc -> bool, except: nat) {
    exists u :: 0 <= u < |s.threads| && u != except && uses(s.threads[u])
  }

  function Wakers(s: State, kind: Kind): Entries {
    if kind.Future? then s.recvWakers else s.streamWakers
  }

  function WithWakers(s: State, kind: Kind, es: Entries): (s': State)
    ensures s'.ring == s.ring && s'.threads == s.threads && Wakers(s', kind) == es
  {
    if kind.Future? then s.(recvWakers := es) else s.(streamWakers := es)
  }

  // ----- steps -----

  /** When a step is possible. Handles obey the borrow rules: an operation borrows a live handle, and the
      last handle of a side is not dropped under an operation that uses that side. */
  ghost predicate Enabled(s: State, t: nat, a: Action) {
    t < |s.threads| && Sized(s.ring) &&
    var pc := s.threads[t];
    match a
    case BeginSend(_) => pc.Idle? && s.senders >= 1
    case BeginRecv(_) => pc.Idle? && s.receivers >= 1
    case BeginLen => pc.Idle? && s.senders + s.receivers >= 1
    case CloneSender => pc.Idle? && s.senders >= 1
    case CloneReceiver => pc.Idle? && s.receivers >= 1
    case DropSender => pc.Idle? && s.senders >= 1 && (s.senders == 1 ==> !SomeUser(s, UsesSender, t))
    case DropReceiver => pc.Idle? && s.receivers >= 1 && (s.receivers == 1 ==> !SomeUser(s, UsesReceiver, t))
    case SpuriousFailure => pc.SendCas? || pc.RecvCas?
    case InsertWaker(key) =>
      (pc.SendInsert? && FreeKey(s.sendWakers, key)) || (pc.RecvInsert? && FreeKey(Wakers(s, pc.kind), key))
    case DropFuture =>
      || (pc.SendParked? && LiveKey(s.sendWakers, pc.key))
      || pc.SendStuck?
      || (pc.RecvParked? && LiveKey(Wakers(s, pc.kind), pc.key)
          && (pc.kind.Stream? ==> s.receivers >= 1 && (s.receivers == 1 ==> !SomeUser(s, UsesReceiver, t))))
    case Advance =>
      && !pc.Idle? && !pc.SendInsert? && !pc.RecvInsert?
      && (TouchesSlot(pc) ==> Index(s.ring.cfg, Local(pc)) < s.ring.cfg.cap)
      && (pc.RecvRead? ==> s.ring.cells[Index(s.ring.cfg, pc.head)].Holds?)
      && (pc.SendLoop? || pc.SendParked? ==> LiveKey(s.sendWakers, pc.key))
      && (pc.RecvLoop? || pc.RecvParked? ==> LiveKey(Wakers(s, pc.kind), pc.key))
      && (pc.SenderGone? ==> s.senderCount >= 1)
      && (pc.ReceiverGone? ==> s.receiverCount >= 1)
  }

  predicate TouchesSlot(pc: Pc) {
    pc.SendStamp? || pc.RecvStamp? || pc.SendWrite? || pc.SendStore? || pc.RecvRead? || pc.RecvStore?
  }

  /** The word a step works on: the local copy of the tail or of the head. */
  function Local(pc: Pc): nat {
    if pc.SendStamp? || pc.SendCas? || pc.SendHead? || pc.SendWrite? || pc.SendStore? || pc.SendFullHead?
       || pc.LenHead? || pc.LenAgain?
    then pc.tail
    else if pc.RecvStamp? || pc.RecvCas? || pc.RecvTail? || pc.RecvRead? || pc.RecvStore? || pc.RecvEmptyTail?
    then pc.head
    else 0
  }

  function Goto(s: State, t: nat, pc: Pc): State
    requires t < |s.threads|
  {
    s.(threads := s.threads[t := pc])
  }

  ghost function Apply(s: State, t: nat, a: Action): (s': State)
    requires Enabled(s, t, a)
    ensures |s'.threads| == |s.threads|
  {
    var pc := s.threads[t];
    match a
    case BeginSend(msg) => Goto(s, t, SendLoad(msg, false))
    case BeginRecv(kind) => Goto(s, t, RecvLoad(kind, false))
    case BeginLen => Goto(s, t, LenTail)
    case CloneSender => s.(senders := s.senders + 1, senderCount := s.senderCount + 1)
    case CloneReceiver => s.(receivers := s.receivers + 1, receiverCount := s.receiverCount + 1)
    case DropSender => Goto(s.(senders := s.senders - 1), t, SenderGone)
    case DropReceiver => Goto(s.(receivers := s.receivers - 1), t, ReceiverGone)
    case SpuriousFailure =>
      if pc.SendCas? then Goto(s, t, SendStamp(pc.msg, pc.credit, s.ring.tail, s.ring.pushed, s.ring.marked))
      else Goto(s, t, RecvStamp(pc.kind, pc.credit, s.ring.head, s.ring.popped))
    case InsertWaker(key) =>
      if pc.SendInsert? then Goto(s.(sendWakers := Inserted(s.sendWakers, key, t)), t, SendFullTail(pc.msg, key))
      else Goto(WithWakers(s, pc.kind, Inserted(Wakers(s, pc.kind), key, t)), t, RecvEmptyHead(pc.kind, key))
    case DropFuture =>
      if pc.SendParked? then Goto(s.(sendWakers := AfterCancel(s.sendWakers, pc.key)), t, Idle)
      else if pc.SendStuck? then Goto(s, t, Idle)
      else if pc.kind.Future? then Goto(s.(recvWakers := AfterCancel(s.recvWakers, pc.key)), t, Idle)
      else Goto(s.(streamWakers := AfterCancel(s.streamWakers, pc.key), receivers := s.receivers - 1), t, ReceiverGone)
    case Advance =>
      if UsesSender(pc) then SendStep(s, t)
      else if UsesReceiver(pc) then RecvStep(s, t)
      else OtherStep(s, t)
  }

  /** The next step of a send. */
  ghost function SendStep(s: State, t: nat): (s': State)
    requires Enabled(s, t, Advance) && UsesSender(s.threads[t])
    ensures |s'.threads| == |s.threads|
  {
    var pc, r, c := s.threads[t], s.ring, s.ring.cfg;
    match pc
    case SendLoad(msg, credit) => Goto(s, t, SendStamp(msg, credit, r.tail, r.pushed, r.marked))
    case SendStamp(msg, credit, tail, p, m) =>
      var stamp := r.stamps[Index(c, tail)];
      Goto(s, t, if Unmarked(c, tail) == stamp then SendCas(msg, credit, tail, p, m)
                 else if WrappingAdd(c, stamp, c.OneLap()) == Unmarked(c, tail) + 1
                 then SendHead(msg, credit, tail, p, m)
                 else SendLoad(msg, credit))
    case SendCas(msg, credit, tail, p, m) =>
      if r.tail == Or(Unmarked(c, tail), Mark(c, tail))
      then Goto(s.(ring := Pushed(r, Or(Advanced(c, Unmarked(c, tail)), Mark(c, tail)), msg, t)), t,
                SendWrite(msg, Unmarked(c, tail), r.pushed))
      else Goto(s, t, SendStamp(msg, credit, r.tail, r.pushed, r.marked))
    case SendHead(msg, credit, tail, p, m) =>
      Goto(s, t, if WrappingAdd(c, r.head, c.OneLap()) == Unmarked(c, tail)
                 then if Mark(c, tail) != 0 then SendStuck(msg) else SendInsert(msg)
                 else SendLoad(msg, credit))
    case SendWrite(msg, tail, p) =>
      Goto(s.(ring := r.(cells := r.cells[Index(c, tail) := Holds(msg)])), t, SendStore(tail, p))
    case SendStore(tail, p) =>
      var i := Index(c, tail);
      Goto(s.(ring := r.(stamps := r.stamps[i := tail + 1], stages := r.stages[i := Ready])), t, SendWakeOne)
    case SendWakeOne => Goto(s, t, if SomeWaiting(s.recvWakers) then SendWakeOneGo else SendWakeStreams)
    case SendWakeOneGo => Goto(s.(recvWakers := AfterNotify(s.recvWakers, One)), t, SendWakeStreams)
    case SendWakeStreams => Goto(s, t, if SomeWaiting(s.streamWakers) then SendWakeStreamsGo else Idle)
    case SendWakeStreamsGo => Goto(s.(streamWakers := AfterNotify(s.streamWakers, All)), t, Idle)
    case SendFullTail(msg, key) => Goto(s, t, SendFullHead(msg, key, r.tail, r.pushed, r.marked))
    case SendFullHead(msg, key, tail, p, m) =>
      Goto(s, t, if WrappingAdd(c, r.head, c.OneLap()) == Cleared(c, tail)
                 then SendCheckMark(msg, key)
                 else SendLoop(msg, key))
    case SendCheckMark(msg, key) =>
      Goto(s, t, if Mark(c, r.tail) != 0 then SendLoop(msg, key) else SendParked(msg, key))
    case SendLoop(msg, key) =>
      Goto(s.(sendWakers := Removed(s.sendWakers, key)), t, SendLoad(msg, s.sendWakers[key].Notified?))
    case SendParked(msg, key) =>
      Goto(s.(sendWakers := Removed(s.sendWakers, key)), t, SendLoad(msg, s.sendWakers[key].Notified?))
    case SendStuck(msg) => Goto(s, t, SendLoad(msg, false))
  }

  /** The tail has moved: the slot now belongs to the sender `t`. */
  ghost function Pushed(r: Ring, tail: nat, msg: Msg, t: nat): Ring
    requires Sized(r)
  {
    var i := r.pushed % r.cfg.cap;
    r.(tail := tail, pushed := r.pushed + 1, accepted := r.accepted + [msg], stages := r.stages[i := Writing(t)])
  }

  /** The head has moved: the slot now belongs to the receiver `t`. */
  ghost function Popped(r: Ring, head: nat, t: nat): Ring
    requires Sized(r)
  {
    var i := r.popped % r.cfg.cap;
    r.(head := head, popped := r.popped + 1, stages := r.stages[i := Reading(t)])
  }

  /** The next step of a receive. */
  ghost function RecvStep(s: State, t: nat): (s': State)
    requires Enabled(s, t, Advance) && UsesReceiver(s.threads[t])
    ensures |s'.threads| == |s.threads|
  {
    var pc, r, c := s.threads[t], s.ring, s.ring.cfg;
    match pc
    case RecvLoad(kind, credit) => Goto(s, t, RecvStamp(kind, credit, r.head, r.popped))
    case RecvStamp(kind, credit, head, p) =>
      var stamp := r.stamps[Index(c, head)];
      Goto(s, t, if head + 1 == stamp then RecvCas(kind, credit, head, p)
                 else if stamp == head then RecvTail(kind, credit, head, p)
                 else RecvLoad(kind, credit))
    case RecvCas(kind, credit, head, p) =>
      if r.head == head
      then Goto(s.(ring := Popped(r, Advanced(c, head), t)), t, RecvRead(head, r.popped))
      else Goto(s, t, RecvStamp(kind, credit, r.head, r.popped))
    case RecvTail(kind, credit, head, p) =>
      Goto(s, t, if Cleared(c, r.tail) == head
                 then if Mark(c, r.tail) != 0 then Idle else RecvInsert(kind)
                 else RecvLoad(kind, credit))
    case RecvRead(head, p) =>
      var i := Index(c, head);
      var msg := r.cells[i].msg;
      Goto(s.(ring := r.(cells := r.cells[i := Blank], delivered := r.delivered[p := msg])), t, RecvStore(head, p, msg))
    case RecvStore(head, p, msg) =>
      var i := Index(c, head);
      Goto(s.(ring := r.(stamps := r.stamps[i := WrappingAdd(c, head, c.OneLap())], stages := r.stages[i := Free],
                         places := r.places[i := p + c.cap])), t, RecvWakeOne(p, msg))
    case RecvWakeOne(p, msg) => Goto(s, t, if SomeWaiting(s.sendWakers) then RecvWakeOneGo(p, msg) else Idle)
    case RecvWakeOneGo(p, msg) => Goto(s.(sendWakers := AfterNotify(s.sendWakers, One)), t, Idle)
    case RecvEmptyHead(kind, key) => Goto(s, t, RecvEmptyTail(kind, key, r.head, r.popped))
    case RecvEmptyTail(kind, key, head, p) =>
      Goto(s, t, if Cleared(c, r.tail) == head then RecvCheckMark(kind, key) else RecvLoop(kind, key))
    case RecvCheckMark(kind, key) =>
      Goto(s, t, if Mark(c, r.tail) != 0 then RecvLoop(kind, key) else RecvParked(kind, key))
    case RecvLoop(kind, key) =>
      Goto(WithWakers(s, kind, Removed(Wakers(s, kind), key)), t, RecvLoad(kind, Wakers(s, kind)[key].Notified?))
    case RecvParked(kind, key) =>
      Goto(WithWakers(s, kind, Removed(Wakers(s, kind), key)), t, RecvLoad(kind, Wakers(s, kind)[key].Notified?))
  }

  /** The value `len` computes from consistent words. */
  function LenOf(c: Config, tail: nat, head: nat): int
    requires c.Valid()
  {
    var hix, tix := Index(c, head), Index(c, tail);
    if hix < tix then tix - hix
    else if hix > tix then c.cap - hix + tix
    else if Cleared(c, tail) == head then 0
    else c.cap
  }

  /** The steps of `len` and of dropping the last handle of a side. */
  ghost function OtherStep(s: State, t: nat): (s': State)
    requires Enabled(s, t, Advance) && !UsesSender(s.threads[t]) && !UsesReceiver(s.threads[t])
    ensures |s'.threads| == |s.threads|
  {
    var pc, r, c := s.threads[t], s.ring, s.ring.cfg;
    match pc
    case LenTail => Goto(s, t, LenHead(r.tail, r.pushed, r.marked))
    case LenHead(tail, p, m) => Goto(s, t, LenAgain(tail, p, m, r.head, r.popped, r.pushed - r.popped))
    case LenAgain(tail, p, m, head, q, actual) => Goto(s, t, if r.tail == tail then Idle else LenTail)
    case SenderGone => Goto(s.(senderCount := s.senderCount - 1), t, if s.senderCount == 1 then Marking else Idle)
    case ReceiverGone =>
      Goto(s.(receiverCount := s.receiverCount - 1), t, if s.receiverCount == 1 then Marking else Idle)
    case Marking =>
      Goto(s.(ring := r.(tail := Or(r.tail, c.MarkBit()), marked := true)), t,
           if Mark(c, r.tail) == 0 then WakeSenders else Idle)
    case WakeSenders => Goto(s, t, if SomeWaiting(s.sendWakers) then WakeSendersGo else WakeReceivers)
    case WakeSendersGo => Goto(s.(sendWakers := AfterNotify(s.sendWakers, All)), t, WakeReceivers)
    case WakeReceivers => Goto(s, t, if SomeWaiting(s.recvWakers) then WakeReceiversGo else WakeStreams)
    case WakeReceiversGo => Goto(s.(recvWakers := AfterNotify(s.recvWakers, All)), t, WakeStreams)
    case WakeStreams => Goto(s, t, if SomeWaiting(s.streamWakers) then WakeStreamsGo else Idle)
    case WakeStreamsGo => Goto(s.(streamWakers := AfterNotify(s.streamWakers, All)), t, Idle)
  }

  /** What operation `t` compares next does not mislead it. A comparison can mislead only if the compared
      position has come full circle since the copy was made: it differs from the copied one, by a whole number of
      windows. An exchange is then harmless as long as its slot is in the stage it claims, and a verdict as long
      as it is true. With 64-bit words a window is at least `2^61` messages. */
  ghost predicate Fresh(s: State, t: nat) {
    t < |s.threads| && Sized(s.ring) &&
    var pc, r, c := s.threads[t], s.ring, s.ring.cfg;
    && (pc.SendCas? && r.marked == pc.m && Circled(c, r.pushed, pc.p) ==> r.stages[r.pushed % c.cap].Free?)
    && (pc.RecvCas? && Circled(c, r.popped, pc.p) ==> r.stages[r.popped % c.cap].Ready?)
    && ((pc.SendHead? || pc.SendFullHead?) && Circled(c, r.popped + c.cap, pc.p) ==> r.pushed == r.popped + c.cap)
    && ((pc.RecvTail? || pc.RecvEmptyTail?) && Circled(c, r.pushed, pc.p) ==> r.pushed == r.popped)
  }

  ghost predicate FreshStep(s: State, t: nat, a: Action) { a.Advance? ==> Fresh(s, t) }

  ghost predicate FreshNext(s: State, s': State) {
    exists t: nat, a :: Enabled(s, t, a) && FreshStep(s, t, a) && s' == Apply(s, t, a)
  }

  /** A run in which no comparison misleads an operation, however long it sleeps in between. */
  ghost predicate FreshRun(run: seq<State>) {
    |run| > 0 && Init(run[0]) && forall i | 0 <= i < |run| - 1 :: FreshNext(run[i], run[i + 1])
  }
}
