/** The channel of `src/sync/channel.rs` with its fields: two packed words, an array of stamped slots, three
    waker sets and two counters. A method is one atomic access of the operation in slot `t`, which passes in
    the locals it still has; `state` is the protocol state the fields stand for. */
module ChannelObject {
  import opened Stamps
  import opened WakerSets
  import opened Protocol = Channel
  import opened ChannelRing
  import opened ChannelHandles
  import opened ChannelTheorems

  method NextPowerOfTwo(n: nat, limit: nat) returns (k: nat)
    requires 2 <= n <= Pow2(limit)
    ensures 0 < k <= limit && Pow2(k - 1) < n <= Pow2(k)
  {
    k := 0;
    while Pow2(k) < n
      invariant k <= limit && (k > 0 ==> Pow2(k - 1) < n)
      decreases limit - k
    {
      k := k + 1;
    }
  }

  /** The constants of a channel; a slot takes at least a word of the address space. */
  method Constants(cap: nat, width: nat) returns (cfg: Config)
    requires 0 < cap && 4 <= width && cap <= Pow2(width - 4)
    ensures cfg.Valid() && cfg.cap == cap && cfg.width == width
  {
    assert Pow2(width - 3) == 2 * Pow2(width - 4);
    var k := NextPowerOfTwo(cap + 1, width - 3);
    cfg := Config(cap, k, width);
  }

  /** What a new channel stands for. */
  ghost function FirstState(cfg: Config, operations: nat): (s: State)
    requires cfg.Valid()
    ensures Init(s) && Inv(s) && Sized(s.ring) && s.ring.cfg == cfg && |s.threads| == operations
    ensures s.ring.head == s.ring.tail == 0 && s.senderCount == s.receiverCount == 1
    ensures s.ring.stamps == seq(cfg.cap, i => i) && s.ring.cells == seq(cfg.cap, _ => Blank)
    ensures s.sendWakers == s.recvWakers == s.streamWakers == []
  {
    var s := State(NewRing(cfg), [], [], [], 1, 1, 1, 1, seq(operations, _ => Idle));
    InvInitially(s);
    s
  }

  class Channel {
    const cfg: Config
    var head: nat
    var tail: nat
    const stamps: array<nat>
    const cells: array<Cell>
    const sendWakers: WakerSet
    const recvWakers: WakerSet
    const streamWakers: WakerSet
    var senderCount: nat
    var receiverCount: nat
    ghost var state: State

    ghost predicate Coupled()
      reads this, stamps, cells, sendWakers, recvWakers, streamWakers
    {
      && Sized(state.ring)
      && state.ring.cfg == cfg && state.ring.head == head && state.ring.tail == tail
      && stamps[..] == state.ring.stamps && cells[..] == state.ring.cells
      && sendWakers != recvWakers && recvWakers != streamWakers && sendWakers != streamWakers
      && sendWakers.Valid() && recvWakers.Valid() && streamWakers.Valid()
      && sendWakers.entries == state.sendWakers && recvWakers.entries == state.recvWakers
      && streamWakers.entries == state.streamWakers
      && state.senderCount == senderCount && state.receiverCount == receiverCount
    }

    ghost predicate Valid()
      reads this, stamps, cells, sendWakers, recvWakers, streamWakers
    {
      Coupled() && Inv(state)
    }

    /** Operation `t` may take the step `a`, and its comparison does not mislead it. */
    ghost predicate May(t: nat, a: Action)
      reads this, stamps, cells, sendWakers, recvWakers, streamWakers
    {
      Valid() && FreshStep(state, t, a) && Enabled(state, t, a)
    }

    /** `with_capacity`: the mark bit is the next power of two above the capacity, and slot i is stamped i. */
    constructor WithCapacity(cap: nat, width: nat, ghost operations: nat)
      requires 0 < cap && 4 <= width && cap <= Pow2(width - 4)
      ensures Valid() && Init(state) && cfg.cap == cap && cfg.width == width && |state.threads| == operations
    {
      hide Inv, Pow2, Init, FirstState, Sized, WakerSet.Valid;
      var constants := Constants(cap, width);
      cfg := constants;
      head, tail := 0, 0;
      stamps := new nat[cap](i => i);
      cells := new Cell[cap](_ => Blank);
      sendWakers := new WakerSet();
      recvWakers := new WakerSet();
      streamWakers := new WakerSet();
      senderCount, receiverCount := 1, 1;
      state := FirstState(constants, operations);
      new;
      assert stamps[..] == seq(cap, i => i) && cells[..] == seq(cap, _ => Blank);
    }

    // ----- try_send -----

    method LoadTail(t: nat) returns (word: nat)
      requires May(t, Advance) && state.threads[t].SendLoad?
      modifies this`state
      ensures Valid() && state == SendStep(old(state), t) && word == state.threads[t].tail
    {
      hide Inv, FreshStep;
      InvKept(state, t, Advance);
      word := tail;
      state := SendStep(state, t);
    }

    /** The stamp of the slot decides: exchange the tail, look whether the channel is full, or start again. */
    method LoadSendStamp(t: nat, word: nat) returns (matches: bool, lapBehind: bool)
      requires May(t, Advance) && state.threads[t].SendStamp? && word == state.threads[t].tail
      modifies this`state
      ensures Valid() && state == SendStep(old(state), t)
      ensures matches == state.threads[t].SendCas? && lapBehind == state.threads[t].SendHead?
    {
      hide Inv, FreshStep;
      InvKept(state, t, Advance);
      var mark := And(word, cfg.MarkBit());
      var stamp := stamps[And(word, cfg.MarkBit() - 1)];
      matches := Xor(word, mark) == stamp;
      lapBehind := !matches && WrappingAdd(cfg, stamp, cfg.OneLap()) == Xor(word, mark) + 1;
      state := SendStep(state, t);
    }

    /** compare_exchange_weak on the tail; `spurious` is its right to fail without a reason. */
    method ExchangeTail(t: nat, word: nat, spurious: bool) returns (pushed: bool, seen: nat)
      requires May(t, if spurious then SpuriousFailure else Advance) && state.threads[t].SendCas?
               && word == state.threads[t].tail
      modifies this`state, this`tail
      ensures Valid() && state == Apply(old(state), t, if spurious then SpuriousFailure else Advance)
      ensures if pushed then state.threads[t].SendWrite?
              else state.threads[t].SendStamp? && seen == state.threads[t].tail == old(tail)
    {
      hide Inv, Apply, FreshStep;
      InvKept(state, t, if spurious then SpuriousFailure else Advance);
      TailExchanged(state, t, if spurious then SpuriousFailure else Advance);
      var mark := And(word, cfg.MarkBit());
      var unmarked := Xor(word, mark);
      var index := And(word, cfg.MarkBit() - 1);
      var advanced := if And(unmarked, cfg.MarkBit() - 1) + 1 < cfg.cap then unmarked + 1
        else WrappingAdd(cfg, LapOf(cfg, unmarked), cfg.OneLap());
      seen := tail;
      pushed := !spurious && tail == Or(unmarked, mark);
      if pushed { tail := Or(advanced, mark); }
      state := Apply(state, t, if spurious then SpuriousFailure else Advance);
    }

    method LoadHeadWhenBehind(t: nat, word: nat) returns (full: bool, disconnected: bool)
      requires May(t, Advance) && state.threads[t].SendHead? && word == state.threads[t].tail
      modifies this`state
      ensures Valid() && state == SendStep(old(state), t)
      ensures full == (state.threads[t].SendStuck? || state.threads[t].SendInsert?)
              && (full ==> disconnected == state.threads[t].SendStuck?)
    {
      hide Inv, FreshStep;
      InvKept(state, t, Advance);
      var mark := And(word, cfg.MarkBit());
      full := WrappingAdd(cfg, head, cfg.OneLap()) == Xor(word, mark);
      disconnected := mark != 0;
      state := SendStep(state, t);
    }

    method WriteMessage(t: nat, word: nat, msg: Msg)
      requires May(t, Advance) && state.threads[t].SendWrite? && msg == state.threads[t].msg
               && word == state.threads[t].tail
      modifies this`state, cells
      ensures Valid() && state == SendStep(old(state), t)
    {
      hide Inv, FreshStep;
      InvKept(state, t, Advance);
      cells[And(word, cfg.MarkBit() - 1)] := Holds(msg);
      state := SendStep(state, t);
    }

    method StoreSendStamp(t: nat, word: nat)
      requires May(t, Advance) && state.threads[t].SendStore? && word == state.threads[t].tail
      modifies this`state, stamps
      ensures Valid() && state == SendStep(old(state), t)
    {
      hide Inv, FreshStep;
      InvKept(state, t, Advance);
      stamps[And(word, cfg.MarkBit() - 1)] := word + 1;
      state := SendStep(state, t);
    }

    // ----- try_recv -----

    method LoadHead(t: nat) returns (word: nat)
      requires May(t, Advance) && state.threads[t].RecvLoad?
      modifies this`state
      ensures Valid() && state == RecvStep(old(state), t) && word == state.threads[t].head
    {
      hide Inv, FreshStep;
      InvKept(state, t, Advance);
      word := head;
      state := RecvStep(state, t);
    }

    method LoadRecvStamp(t: nat, word: nat) returns (ready: bool, behind: bool)
      requires May(t, Advance) && state.threads[t].RecvStamp? && word == state.threads[t].head
      modifies this`state
      ensures Valid() && state == RecvStep(old(state), t)
      ensures ready == state.threads[t].RecvCas? && behind == state.threads[t].RecvTail?
    {
      hide Inv, FreshStep;
      InvKept(state, t, Advance);
      var stamp := stamps[And(word, cfg.MarkBit() - 1)];
      ready := word + 1 == stamp;
      behind := stamp == word;
      state := RecvStep(state, t);
    }

    method ExchangeHead(t: nat, word: nat, spurious: bool) returns (popped: bool, seen: nat)
      requires May(t, if spurious then SpuriousFailure else Advance) && state.threads[t].RecvCas?
               && word == state.threads[t].head
      modifies this`state, this`head
      ensures Valid() && state == Apply(old(state), t, if spurious then SpuriousFailure else Advance)
      ensures if popped then state.threads[t].RecvRead?
              else state.threads[t].RecvStamp? && seen == state.threads[t].head == old(head)
    {
      hide Inv, Apply, FreshStep;
      InvKept(state, t, if spurious then SpuriousFailure else Advance);
      HeadExchanged(state, t, if spurious then SpuriousFailure else Advance);
      seen := head;
      popped := !spurious && head == word;
      if popped {
        head := if And(word, cfg.MarkBit() - 1) + 1 < cfg.cap then word + 1
                else WrappingAdd(cfg, LapOf(cfg, word), cfg.OneLap());
      }
      state := Apply(state, t, if spurious then SpuriousFailure else Advance);
    }

    method LoadTailWhenBehind(t: nat, word: nat) returns (empty: bool, disconnected: bool)
      requires May(t, Advance) && state.threads[t].RecvTail? && word == state.threads[t].head
      modifies this`state
      ensures Valid() && state == RecvStep(old(state), t)
      ensures empty == (state.threads[t].Idle? || state.threads[t].RecvInsert?)
              && (empty ==> disconnected == state.threads[t].Idle?)
    {
      hide Inv, FreshStep;
      InvKept(state, t, Advance);
      empty := Cleared(cfg, tail) == word;
      disconnected := And(tail, cfg.MarkBit()) != 0;
      state := RecvStep(state, t);
    }

    method ReadMessage(t: nat, word: nat) returns (msg: Msg)
      requires May(t, Advance) && state.threads[t].RecvRead? && word == state.threads[t].head
      modifies this`state, cells
      ensures Valid() && state == RecvStep(old(state), t) && msg == state.threads[t].msg
      ensures old(state.threads[t].p) < |state.ring.accepted| && msg == state.ring.accepted[old(state.threads[t].p)]
    {
      hide Inv, RingInv, RecvStep, FreshStep;
      InvHasRing(state);
      ReaderGetsItsMessage(state.ring, state.threads, t);
      InvKept(state, t, Advance);
      ReadChanges(state, t);
      msg := cells[And(word, cfg.MarkBit() - 1)].msg;
      cells[And(word, cfg.MarkBit() - 1)] := Blank;
      state := RecvStep(state, t);
    }

    method StoreRecvStamp(t: nat, word: nat)
      requires May(t, Advance) && state.threads[t].RecvStore? && word == state.threads[t].head
      modifies this`state, stamps
      ensures Valid() && state == RecvStep(old(state), t)
    {
      hide Inv, FreshStep;
      InvKept(state, t, Advance);
      stamps[And(word, cfg.MarkBit() - 1)] := WrappingAdd(cfg, word, cfg.OneLap());
      state := RecvStep(state, t);
    }

    // ----- disconnecting -----

    method CloneHandle(t: nat, sender: bool)
      requires May(t, if sender then CloneSender else CloneReceiver)
      modifies this`state, this`senderCount, this`receiverCount
      ensures Valid() && state == Apply(old(state), t, if sender then CloneSender else CloneReceiver)
    {
      hide Inv, FreshStep;
      InvKept(state, t, if sender then CloneSender else CloneReceiver);
      if sender { senderCount := senderCount + 1; } else { receiverCount := receiverCount + 1; }
      state := Apply(state, t, if sender then CloneSender else CloneReceiver);
    }

    method DropSenderHandle(t: nat) returns (last: bool)
      requires May(t, Advance) && state.threads[t].SenderGone?
      modifies this`state, this`senderCount
      ensures Valid() && state == Apply(old(state), t, Advance) && last == state.threads[t].Marking?
    {
      hide Inv, FreshStep;
      InvKept(state, t, Advance);
      last := senderCount == 1;
      senderCount := senderCount - 1;
      state := OtherStep(state, t);
    }

    method DropReceiverHandle(t: nat) returns (last: bool)
      requires May(t, Advance) && state.threads[t].ReceiverGone?
      modifies this`state, this`receiverCount
      ensures Valid() && state == Apply(old(state), t, Advance) && last == state.threads[t].Marking?
    {
      hide Inv, FreshStep;
      InvKept(state, t, Advance);
      last := receiverCount == 1;
      receiverCount := receiverCount - 1;
      state := OtherStep(state, t);
    }

    /** The fetch_or of `disconnect`: only the operation that set the bit goes on to notify. */
    method SetMark(t: nat) returns (first: bool)
      requires May(t, Advance) && state.threads[t].Marking?
      modifies this`state, this`tail
      ensures Valid() && state == Apply(old(state), t, Advance) && first == state.threads[t].WakeSenders?
    {
      hide Inv, FreshStep;
      InvKept(state, t, Advance);
      first := And(tail, cfg.MarkBit()) == 0;
      tail := Or(tail, cfg.MarkBit());
      state := OtherStep(state, t);
    }

    // ----- looking without moving: is_full, is_empty, is_disconnected -----

    /** The first load of `is_full`, after the waker went in. */
    method LoadTailForFull(t: nat) returns (word: nat)
      requires May(t, Advance) && state.threads[t].SendFullTail?
      modifies this`state
      ensures Valid() && state == SendStep(old(state), t) && state.threads[t].SendFullHead?
              && word == state.threads[t].tail
    {
      hide Inv, FreshStep;
      InvKept(state, t, Advance);
      word := tail;
      state := SendStep(state, t);
    }

    /** The first load of `is_empty`. */
    method LoadHeadForEmpty(t: nat) returns (word: nat)
      requires May(t, Advance) && state.threads[t].RecvEmptyHead?
      modifies this`state
      ensures Valid() && state == RecvStep(old(state), t) && state.threads[t].RecvEmptyTail?
              && word == state.threads[t].head
    {
      hide Inv, FreshStep;
      InvKept(state, t, Advance);
      word := head;
      state := RecvStep(state, t);
    }

    /** `is_full` given the tail it loaded first. */
    method IsFull(t: nat, word: nat) returns (full: bool)
      requires May(t, Advance) && state.threads[t].SendFullHead? && word == state.threads[t].tail
      modifies this`state
      ensures Valid() && state == Apply(old(state), t, Advance) && full == state.threads[t].SendCheckMark?
    {
      hide Inv, FreshStep;
      InvKept(state, t, Advance);
      full := WrappingAdd(cfg, head, cfg.OneLap()) == Cleared(cfg, word);
      state := Apply(state, t, Advance);
    }

    /** `is_empty` given the head it loaded first. */
    method IsEmpty(t: nat, word: nat) returns (empty: bool)
      requires May(t, Advance) && state.threads[t].RecvEmptyTail? && word == state.threads[t].head
      modifies this`state
      ensures Valid() && state == Apply(old(state), t, Advance) && empty == state.threads[t].RecvCheckMark?
    {
      hide Inv, FreshStep;
      InvKept(state, t, Advance);
      empty := Cleared(cfg, tail) == word;
      state := Apply(state, t, Advance);
    }

    method IsDisconnected(t: nat) returns (disconnected: bool)
      requires May(t, Advance) && (state.threads[t].SendCheckMark? || state.threads[t].RecvCheckMark?)
      modifies this`state
      ensures Valid() && state == Apply(old(state), t, Advance)
      ensures disconnected == (state.threads[t].SendLoop? || state.threads[t].RecvLoop?)
    {
      hide Inv, FreshStep;
      InvKept(state, t, Advance);
      disconnected := And(tail, cfg.MarkBit()) != 0;
      state := Apply(state, t, Advance);
    }

    // ----- waking -----

    /** The set whose flag or list an operation is about to look at. */
    ghost predicate Concerns(wakers: WakerSet, pc: Pc) {
      && (pc.RecvWakeOne? || pc.RecvWakeOneGo? || pc.WakeSenders? || pc.WakeSendersGo?
          || pc.SendInsert? || pc.SendLoop? || pc.SendParked?
          ==> wakers == sendWakers)
      && (pc.SendWakeOne? || pc.SendWakeOneGo? || pc.WakeReceivers? || pc.WakeReceiversGo?
          || ((pc.RecvInsert? || pc.RecvLoop? || pc.RecvParked?) && pc.kind.Future?)
          ==> wakers == recvWakers)
      && (pc.SendWakeStreams? || pc.SendWakeStreamsGo? || pc.WakeStreams? || pc.WakeStreamsGo?
          || ((pc.RecvInsert? || pc.RecvLoop? || pc.RecvParked?) && pc.kind.Stream?)
          ==> wakers == streamWakers)
    }

    /** The load of the flag at the head of `notify_one` and `notify_all`. */
    method LoadWakerFlag(t: nat, wakers: WakerSet) returns (notifiable: bool)
      requires May(t, Advance) && Concerns(wakers, state.threads[t])
      requires LoadsFlag(state.threads[t])
      modifies this`state
      ensures Valid() && state == Apply(old(state), t, Advance)
      ensures notifiable == Notifying(state.threads[t])
    {
      hide Inv, Apply, FreshStep;
      InvKept(state, t, Advance);
      FlagDecides(state, t);
      notifiable := wakers.flag.notifiable;
      state := Apply(state, t, Advance);
    }

    /** The rest of `notify_one` and `notify_all`. */
    method NotifyWakers(t: nat, wakers: WakerSet, n: Notify)
      requires May(t, Advance) && Concerns(wakers, state.threads[t])
      requires Notifying(state.threads[t])
      requires n == if state.threads[t].SendWakeOneGo? || state.threads[t].RecvWakeOneGo? then One else All
      modifies this`state, wakers
      ensures Valid() && state == Apply(old(state), t, Advance)
    {
      hide Inv, AfterNotify, Apply, FreshStep;
      InvKept(state, t, Advance);
      NotifyChanges(state, t);
      var notified := wakers.Notify(n);
      state := Apply(state, t, Advance);
    }

    method InsertWaker(t: nat, wakers: WakerSet, key: nat)
      requires May(t, Action.InsertWaker(key)) && Concerns(wakers, state.threads[t])
      modifies this`state, wakers
      ensures Valid() && state == Apply(old(state), t, Action.InsertWaker(key))
    {
      hide Inv, FreshStep;
      InvKept(state, t, Action.InsertWaker(key));
      wakers.Insert(key, t);
      state := Apply(state, t, Action.InsertWaker(key));
    }

    method RemoveWaker(t: nat, wakers: WakerSet, key: nat)
      requires May(t, Advance) && Concerns(wakers, state.threads[t])
      requires state.threads[t].SendLoop? || state.threads[t].SendParked?
               || state.threads[t].RecvLoop? || state.threads[t].RecvParked?
      requires key == state.threads[t].key
      modifies this`state, wakers
      ensures Valid() && state == Apply(old(state), t, Advance)
    {
      hide Inv, Apply, FreshStep;
      InvKept(state, t, Advance);
      RemoveChanges(state, t);
      wakers.Remove(key);
      state := Apply(state, t, Advance);
    }

    /** A suspended future is dropped: its notification, if it had one, goes to somebody else. */
    method DropSuspended(t: nat, wakers: WakerSet, key: nat)
      requires May(t, DropFuture) && Concerns(wakers, state.threads[t])
      requires (state.threads[t].SendParked? || state.threads[t].RecvParked?) && key == state.threads[t].key
      modifies this`state, wakers
      ensures Valid() && state == Apply(old(state), t, DropFuture)
    {
      hide Inv, AfterCancel, FreshStep;
      InvKept(state, t, DropFuture);
      var other := wakers.Cancel(key);
      state := Apply(state, t, DropFuture);
    }

    // ----- len and drop -----

    /** `len` from a tail and a head that belong together. */
    method Length(tailWord: nat, headWord: nat) returns (len: int)
      requires cfg.Valid()
      ensures len == LenOf(cfg, tailWord, headWord)
    {
      var hix, tix := And(headWord, cfg.MarkBit() - 1), And(tailWord, cfg.MarkBit() - 1);
      if hix < tix {
        len := tix - hix;
      } else if hix > tix {
        len := cfg.cap - hix + tix;
      } else if Cleared(cfg, tailWord) == headWord {
        len := 0;
      } else {
        len := cfg.cap;
      }
    }

    /** `Drop for Channel`: drops what was accepted and never received, in order, and nothing else. */
    method DropMessages() returns (dropped: seq<Msg>)
      requires Valid() && forall t | 0 <= t < |state.threads| :: state.threads[t].Idle?
      ensures dropped == Queue(state)
    {
      hide Inv, RingInv, Queue;
      InvHasRing(state);
      LenIsExact(state.ring, state.threads);
      RestIsQueue(state);
      var hix := And(head, cfg.MarkBit() - 1);
      var len := Length(tail, head);
      dropped := [];
      for i := 0 to len
        invariant dropped == Queue(state)[..i]
      {
        var index := if hix + i < cfg.cap then hix + i else hix + i - cfg.cap;
        assert cells[index] == Holds(Queue(state)[i]);
        dropped := dropped + [cells[index].msg];
      }
    }
  }

  predicate ForSenders(pc: Pc) { pc.RecvWakeOneGo? || pc.WakeSendersGo? || pc.SendLoop? || pc.SendParked? }

  predicate ForReceivers(pc: Pc) {
    pc.SendWakeOneGo? || pc.WakeReceiversGo? || ((pc.RecvLoop? || pc.RecvParked?) && pc.kind.Future?)
  }

  predicate ForStreams(pc: Pc) {
    pc.SendWakeStreamsGo? || pc.WakeStreamsGo? || ((pc.RecvLoop? || pc.RecvParked?) && pc.kind.Stream?)
  }

  /** An exchange of the tail either moves the tail, of all the words of the ring, or only the operation. */
  lemma TailExchanged(s: State, t: nat, a: Action)
    requires Enabled(s, t, a) && (a.Advance? || a.SpuriousFailure?) && s.threads[t].SendCas?
    ensures var c, r, word, s' := s.ring.cfg, s.ring, s.threads[t].tail, Apply(s, t, a);
            && s' == s.(ring := s'.ring, threads := s'.threads)
            && if a.Advance? && r.tail == Or(Unmarked(c, word), Mark(c, word)) then
                 && s'.threads[t].SendWrite?
                 && s'.ring == r.(tail := Or(Advanced(c, Unmarked(c, word)), Mark(c, word)), pushed := s'.ring.pushed,
                                  accepted := s'.ring.accepted, stages := s'.ring.stages)
                 && |s'.ring.stages| == |r.stages|
               else s'.ring == r && s'.threads[t].SendStamp? && s'.threads[t].tail == r.tail
  {
    hide Or, Advanced, Unmarked, Mark;
  }

  /** The same for the head. */
  lemma HeadExchanged(s: State, t: nat, a: Action)
    requires Enabled(s, t, a) && (a.Advance? || a.SpuriousFailure?) && s.threads[t].RecvCas?
    ensures var c, r, word, s' := s.ring.cfg, s.ring, s.threads[t].head, Apply(s, t, a);
            && s' == s.(ring := s'.ring, threads := s'.threads)
            && if a.Advance? && r.head == word then
                 && s'.threads[t].RecvRead?
                 && s'.ring == r.(head := Advanced(c, word), popped := s'.ring.popped, stages := s'.ring.stages)
                 && |s'.ring.stages| == |r.stages|
               else s'.ring == r && s'.threads[t].RecvStamp? && s'.threads[t].head == r.head
  {
    hide Advanced;
  }

  predicate LoadsFlag(pc: Pc) {
    pc.SendWakeOne? || pc.SendWakeStreams? || pc.RecvWakeOne? || pc.WakeSenders? || pc.WakeReceivers? || pc.WakeStreams?
  }

  predicate Notifying(pc: Pc) {
    || pc.SendWakeOneGo? || pc.SendWakeStreamsGo? || pc.RecvWakeOneGo?
    || pc.WakeSendersGo? || pc.WakeReceiversGo? || pc.WakeStreamsGo?
  }

  /** The flag of a set decides whether its lock is taken. */
  lemma FlagDecides(s: State, t: nat)
    requires Enabled(s, t, Advance) && LoadsFlag(s.threads[t])
    ensures var pc, s' := s.threads[t], Apply(s, t, Advance);
            && s' == s.(threads := s'.threads)
            && (Notifying(s'.threads[t]) <==>
                SomeWaiting(if pc.RecvWakeOne? || pc.WakeSenders? then s.sendWakers
                            else if pc.SendWakeOne? || pc.WakeReceivers? then s.recvWakers else s.streamWakers))
  {
    hide Sized, TouchesSlot, FreeKey, LiveKey, Wakers, SomeWaiting;
  }

  /** A notification changes one set of wakers and nothing else that is shared. */
  lemma NotifyChanges(s: State, t: nat)
    requires Enabled(s, t, Advance) && Notifying(s.threads[t])
    ensures var s', pc := Apply(s, t, Advance), s.threads[t];
            var n := if pc.SendWakeOneGo? || pc.RecvWakeOneGo? then One else All;
            && s'.ring == s.ring && s'.senderCount == s.senderCount && s'.receiverCount == s.receiverCount
            && s'.sendWakers == (if ForSenders(pc) then AfterNotify(s.sendWakers, n) else s.sendWakers)
            && s'.recvWakers == (if ForReceivers(pc) then AfterNotify(s.recvWakers, n) else s.recvWakers)
            && s'.streamWakers == (if ForStreams(pc) then AfterNotify(s.streamWakers, n) else s.streamWakers)
  {
    hide AfterNotify;
  }

  /** So does the removal of a waker. */
  lemma RemoveChanges(s: State, t: nat)
    requires Enabled(s, t, Advance)
    requires s.threads[t].SendLoop? || s.threads[t].SendParked? || s.threads[t].RecvLoop? || s.threads[t].RecvParked?
    ensures var s', pc := Apply(s, t, Advance), s.threads[t];
            && s'.ring == s.ring && s'.senderCount == s.senderCount && s'.receiverCount == s.receiverCount
            && s'.sendWakers == (if ForSenders(pc) then Removed(s.sendWakers, pc.key) else s.sendWakers)
            && s'.recvWakers == (if ForReceivers(pc) then Removed(s.recvWakers, pc.key) else s.recvWakers)
            && s'.streamWakers == (if ForStreams(pc) then Removed(s.streamWakers, pc.key) else s.streamWakers)
  {
    hide Removed;
  }

  /** What a receiver finds in its slot is the message accepted at its position. */
  lemma ReaderGetsItsMessage(r: Ring, threads: seq<Pc>, t: nat)
    requires RingInv(r, threads) && t < |threads| && threads[t].RecvRead?
    ensures var p, i := threads[t].p, Index(r.cfg, threads[t].head);
            && r.cfg.Valid() && Sized(r) && i < r.cfg.cap
            && p < |r.accepted| && r.cells[i] == Holds(r.accepted[p])
  {
    ReaderSees(r, threads, t);
    Decode(r.cfg, threads[t].p, false);
  }

  /** What taking the message out changes. */
  lemma ReadChanges(s: State, t: nat)
    requires Enabled(s, t, Advance) && s.threads[t].RecvRead?
    ensures var i, s' := Index(s.ring.cfg, s.threads[t].head), RecvStep(s, t);
            && s' == s.(ring := s'.ring, threads := s'.threads)
            && s'.ring == s.ring.(cells := s.ring.cells[i := Blank], delivered := s'.ring.delivered)
            && s'.threads[t].RecvStore? && s'.threads[t].msg == s.ring.cells[i].msg
  {
  }
}
