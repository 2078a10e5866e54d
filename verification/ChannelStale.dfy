/** Why the copies of words have to be fresh: for every capacity and word width there is a run, fresh in all
    its steps but the last, in which a sender that slept for one whole window overfills the channel. */
module ChannelStale {
  import opened Runs
  import opened Stamps
  import opened WakerSets
  import opened Channel
  import opened ChannelRing
  import opened ChannelWakeups
  import opened ChannelTheorems

  lemma ReachStep(s: State, middle: State, t: nat, a: Action)
    requires Reaches(FreshNext, s, middle) && Enabled(middle, t, a) && FreshStep(middle, t, a)
    ensures Reaches(FreshNext, s, Apply(middle, t, a))
  {
    hide Apply, Enabled, FreshStep, Reaches;
    ReachNext(FreshNext, s, middle, Apply(middle, t, a));
  }

  /** The sleeper: it saw slot 0 free for position 0 and is about to exchange the tail. */
  function Sleeper(c: Config): Pc
    requires c.Valid()
  {
    SendCas(0, false, Word(c, 0, false), 0, false)
  }

  /** Nobody waits, nothing is disconnected, and one other operation is at `pc`. */
  ghost predicate Calm(s: State, pc: Pc) {
    && RingInv(s.ring, s.threads) && s.threads == [Sleeper(s.ring.cfg), pc]
    && s.sendWakers == s.recvWakers == s.streamWakers == [] && s.senders == s.receivers == 1 && !s.ring.marked
  }

  ghost predicate SameEnds(s: State, s': State, pushed: nat, popped: nat) {
    s'.ring.cfg == s.ring.cfg && s'.ring.pushed == s.ring.pushed + pushed && s'.ring.popped == s.ring.popped + popped
  }

  /** One step of the other operation that stays calm. */
  lemma Steps(start: State, s: State, a: Action, pc: Pc)
    requires Reaches(FreshNext, start, s) && |s.threads| == 2 && Calm(s, s.threads[1]) && Enabled(s, 1, a)
             && FreshStep(s, 1, a)
    requires var s' := Apply(s, 1, a);
             && s'.threads == s.threads[1 := pc] && s'.ring.cfg == s.ring.cfg && !s'.ring.marked
             && s'.sendWakers == s'.recvWakers == s'.streamWakers == [] && s'.senders == s'.receivers == 1
    ensures Reaches(FreshNext, start, Apply(s, 1, a)) && Calm(Apply(s, 1, a), pc)
  {
    hide Apply, Enabled, FreshStep, RingInv, Reaches;
    ReachStep(start, s, 1, a);
    StepKeepsRing(s, 1, a);
  }

  // ----- one send -----

  /** What calm says about words. */
  lemma InCalm(s: State, pc: Pc)
    requires Calm(s, pc)
    ensures Sized(s.ring) && s.ring.popped <= s.ring.pushed <= s.ring.popped + s.ring.cfg.cap
    ensures s.ring.tail == Word(s.ring.cfg, s.ring.pushed, false) && s.ring.head == Enc(s.ring.cfg, s.ring.popped)
  {
  }

  /** With room in the ring and nobody inside a slot, the next slot is free for the next position. */
  lemma NextSlotIsFree(s: State, pc: Pc)
    requires Calm(s, pc) && !Owner(pc) && s.ring.pushed < s.ring.popped + s.ring.cfg.cap
    ensures s.ring.stamps[SlotOf(s.ring, s.ring.pushed)] == Enc(s.ring.cfg, s.ring.pushed)
  {
    hide RingInv, Enc;
    InCalm(s, pc);
    var r, i := s.ring, SlotOf(s.ring, s.ring.pushed);
    SlotAt(r, s.threads, i);
    SameSlot(r.cfg.cap, r.places[i], r.pushed);
    SameSlot(r.cfg.cap, r.pushed, r.places[i]);
  }

  lemma NextSlotIsReady(s: State, pc: Pc)
    requires Calm(s, pc) && !Owner(pc) && s.ring.popped < s.ring.pushed
    ensures s.ring.stamps[SlotOf(s.ring, s.ring.popped)] == Enc(s.ring.cfg, s.ring.popped) + 1
  {
    hide RingInv, Enc;
    InCalm(s, pc);
    var r, i := s.ring, SlotOf(s.ring, s.ring.popped);
    SlotAt(r, s.threads, i);
    SameSlot(r.cfg.cap, r.places[i], r.popped);
    SameSlot(r.cfg.cap, r.popped, r.places[i]);
  }

  lemma SendLoads(start: State, s: State, msg: Msg) returns (s': State)
    requires Reaches(FreshNext, start, s) && Calm(s, Idle)
    ensures Reaches(FreshNext, start, s') && Calm(s', SendStamp(msg, false, s'.ring.tail, s'.ring.pushed, false))
            && s'.ring == s.ring
  {
    hide RingInv, Reaches;
    InCalm(s, Idle);
    Steps(start, s, BeginSend(msg), SendLoad(msg, false));
    var s1 := Apply(s, 1, BeginSend(msg));
    InCalm(s1, SendLoad(msg, false));
    Steps(start, s1, Advance, SendStamp(msg, false, s1.ring.tail, s1.ring.pushed, false));
    s' := Apply(s1, 1, Advance);
  }

  lemma SendSeesRoom(start: State, s: State, msg: Msg) returns (s': State)
    requires s.ring.pushed < s.ring.popped + s.ring.cfg.cap
    requires Reaches(FreshNext, start, s) && Calm(s, SendStamp(msg, false, s.ring.tail, s.ring.pushed, false))
    ensures Reaches(FreshNext, start, s') && Calm(s', SendCas(msg, false, s'.ring.tail, s'.ring.pushed, false))
            && s'.ring == s.ring
  {
    hide RingInv, Reaches;
    var pc := s.threads[1];
    NextSlotIsFree(s, pc);
    InCalm(s, pc);
    Decode(s.ring.cfg, s.ring.pushed, false);
    Steps(start, s, Advance, SendCas(msg, false, s.ring.tail, s.ring.pushed, false));
    s' := Apply(s, 1, Advance);
  }

  lemma SendClaims(start: State, s: State, msg: Msg) returns (s': State)
    requires Reaches(FreshNext, start, s) && Calm(s, SendCas(msg, false, s.ring.tail, s.ring.pushed, false))
    ensures Reaches(FreshNext, start, s') && Calm(s', SendWrite(msg, Enc(s.ring.cfg, s.ring.pushed), s.ring.pushed))
            && SameEnds(s, s', 1, 0)
  {
    hide RingInv, Reaches;
    InCalm(s, s.threads[1]);
    Decode(s.ring.cfg, s.ring.pushed, false);
    Steps(start, s, Advance, SendWrite(msg, Enc(s.ring.cfg, s.ring.pushed), s.ring.pushed));
    s' := Apply(s, 1, Advance);
  }

  lemma SendPublishes(start: State, s: State, msg: Msg, p: nat) returns (s': State)
    requires Reaches(FreshNext, start, s) && s.ring.cfg.Valid() && Calm(s, SendWrite(msg, Enc(s.ring.cfg, p), p))
    ensures Reaches(FreshNext, start, s') && Calm(s', SendWakeOne) && SameEnds(s, s', 0, 0)
  {
    hide RingInv, Reaches;
    InCalm(s, s.threads[1]);
    Decode(s.ring.cfg, p, false);
    Steps(start, s, Advance, SendStore(Enc(s.ring.cfg, p), p));
    var s1 := Apply(s, 1, Advance);
    Steps(start, s1, Advance, SendWakeOne);
    s' := Apply(s1, 1, Advance);
  }

  lemma SendWakesNobody(start: State, s: State) returns (s': State)
    requires Reaches(FreshNext, start, s) && Calm(s, SendWakeOne)
    ensures Reaches(FreshNext, start, s') && Calm(s', Idle) && s'.ring == s.ring
  {
    hide RingInv, Reaches;
    InCalm(s, SendWakeOne);
    Steps(start, s, Advance, SendWakeStreams);
    var s1 := Apply(s, 1, Advance);
    Steps(start, s1, Advance, Idle);
    s' := Apply(s1, 1, Advance);
  }

  /** A whole send past the sleeper. */
  lemma OneSend(start: State, s: State) returns (s': State)
    requires Reaches(FreshNext, start, s) && Calm(s, Idle) && s.ring.pushed < s.ring.popped + s.ring.cfg.cap
    ensures Reaches(FreshNext, start, s') && Calm(s', Idle) && SameEnds(s, s', 1, 0)
  {
    hide Reaches, Calm;
    s' := SendLoads(start, s, 0);
    s' := SendSeesRoom(start, s', 0);
    var p := s'.ring.pushed;
    assert s'.ring.cfg.Valid() by { InCalm(s', SendCas(0, false, s'.ring.tail, p, false)); }
    s' := SendClaims(start, s', 0);
    s' := SendPublishes(start, s', 0, p);
    s' := SendWakesNobody(start, s');
  }

  // ----- one receive -----

  lemma RecvLoads(start: State, s: State) returns (s': State)
    requires Reaches(FreshNext, start, s) && Calm(s, Idle)
    ensures Reaches(FreshNext, start, s') && Calm(s', RecvStamp(Future, false, s'.ring.head, s'.ring.popped))
            && s'.ring == s.ring
  {
    hide RingInv, Reaches;
    InCalm(s, Idle);
    Steps(start, s, BeginRecv(Future), RecvLoad(Future, false));
    var s1 := Apply(s, 1, BeginRecv(Future));
    InCalm(s1, RecvLoad(Future, false));
    Steps(start, s1, Advance, RecvStamp(Future, false, s1.ring.head, s1.ring.popped));
    s' := Apply(s1, 1, Advance);
  }

  lemma RecvSeesMessage(start: State, s: State) returns (s': State)
    requires s.ring.popped < s.ring.pushed
    requires Reaches(FreshNext, start, s) && Calm(s, RecvStamp(Future, false, s.ring.head, s.ring.popped))
    ensures Reaches(FreshNext, start, s') && Calm(s', RecvCas(Future, false, s'.ring.head, s'.ring.popped))
            && s'.ring == s.ring
  {
    hide RingInv, Reaches;
    var pc := s.threads[1];
    NextSlotIsReady(s, pc);
    InCalm(s, pc);
    Decode(s.ring.cfg, s.ring.popped, false);
    Steps(start, s, Advance, RecvCas(Future, false, s.ring.head, s.ring.popped));
    s' := Apply(s, 1, Advance);
  }

  lemma RecvClaims(start: State, s: State) returns (s': State)
    requires Reaches(FreshNext, start, s) && Calm(s, RecvCas(Future, false, s.ring.head, s.ring.popped))
    ensures Reaches(FreshNext, start, s') && s.ring.cfg.Valid()
            && Calm(s', RecvRead(Enc(s.ring.cfg, s.ring.popped), s.ring.popped)) && SameEnds(s, s', 0, 1)
  {
    hide RingInv, Reaches;
    InCalm(s, s.threads[1]);
    Steps(start, s, Advance, RecvRead(Enc(s.ring.cfg, s.ring.popped), s.ring.popped));
    s' := Apply(s, 1, Advance);
  }

  lemma RecvReleases(start: State, s: State, p: nat) returns (s': State)
    requires Reaches(FreshNext, start, s) && s.ring.cfg.Valid() && Calm(s, RecvRead(Enc(s.ring.cfg, p), p))
    ensures Reaches(FreshNext, start, s') && SameEnds(s, s', 0, 0)
    ensures |s'.threads| == 2 && s'.threads[1].RecvWakeOne? && Calm(s', s'.threads[1])
  {
    hide RingInv, Reaches, Index, Enc, SlotInv, ThreadInv;
    ReaderSees(s.ring, s.threads, 1);
    WordsOf(s.ring, s.threads);
    Decode(s.ring.cfg, p, false);
    var msg := s.ring.cells[Index(s.ring.cfg, Enc(s.ring.cfg, p))].msg;
    Steps(start, s, Advance, RecvStore(Enc(s.ring.cfg, p), p, msg));
    var s1 := Apply(s, 1, Advance);
    Steps(start, s1, Advance, RecvWakeOne(p, msg));
    s' := Apply(s1, 1, Advance);
  }

  lemma RecvWakesNobody(start: State, s: State) returns (s': State)
    requires Reaches(FreshNext, start, s) && |s.threads| == 2 && s.threads[1].RecvWakeOne? && Calm(s, s.threads[1])
    ensures Reaches(FreshNext, start, s') && Calm(s', Idle) && s'.ring == s.ring
  {
    hide RingInv, Reaches;
    InCalm(s, s.threads[1]);
    Steps(start, s, Advance, Idle);
    s' := Apply(s, 1, Advance);
  }

  /** A whole receive past the sleeper. */
  lemma OneReceive(start: State, s: State) returns (s': State)
    requires Reaches(FreshNext, start, s) && Calm(s, Idle) && s.ring.popped < s.ring.pushed
    ensures Reaches(FreshNext, start, s') && Calm(s', Idle) && SameEnds(s, s', 0, 1)
  {
    hide Reaches, Calm;
    s' := RecvLoads(start, s);
    s' := RecvSeesMessage(start, s');
    var p := s'.ring.popped;
    s' := RecvClaims(start, s');
    s' := RecvReleases(start, s', p);
    s' := RecvWakesNobody(start, s');
  }

  // ----- a whole window -----

  lemma {:induction false} ManyRoundTrips(start: State, s: State, n: nat) returns (s': State)
    requires Reaches(FreshNext, start, s) && Calm(s, Idle) && s.ring.pushed == s.ring.popped && s.ring.cfg.cap > 0
    ensures Reaches(FreshNext, start, s') && Calm(s', Idle) && SameEnds(s, s', n, n)
    decreases n
  {
    hide Reaches, Calm;
    s' := s;
    if n > 0 {
      s' := OneSend(start, s);
      s' := OneReceive(start, s');
      s' := ManyRoundTrips(start, s', n - 1);
    }
  }

  lemma {:induction false} ManySends(start: State, s: State, n: nat) returns (s': State)
    requires Reaches(FreshNext, start, s) && Calm(s, Idle) && s.ring.pushed + n <= s.ring.popped + s.ring.cfg.cap
    ensures Reaches(FreshNext, start, s') && Calm(s', Idle) && SameEnds(s, s', n, 0)
    decreases n
  {
    hide Reaches, Calm;
    s' := s;
    if n > 0 {
      s' := OneSend(start, s);
      s' := ManySends(start, s', n - 1);
    }
  }

  /** The sleeper gets ready: slot 0 is free for position 0. */
  lemma SleeperFallsAsleep(start: State) returns (s: State)
    requires Init(start) && |start.threads| == 2
    ensures Reaches(FreshNext, start, s) && Calm(s, Idle) && s.ring == start.ring
  {
    var c := start.ring.cfg;
    SmallMod(0, c.cap);
    SmallMod(0, c.Laps());
    Decode(c, 0, false);
    InitialRing(c, start.threads);
    ReachSelf(FreshNext, start);
    ReachStep(start, start, 0, BeginSend(0));
    var s1 := Apply(start, 0, BeginSend(0));
    StepKeepsRing(start, 0, BeginSend(0));
    hide RingInv, Reaches;
    ReachStep(start, s1, 0, Advance);
    StepKeepsRing(s1, 0, Advance);
    var s2 := Apply(s1, 0, Advance);
    ReachStep(start, s2, 0, Advance);
    StepKeepsRing(s2, 0, Advance);
    s := Apply(s2, 0, Advance);
  }

  /** For every capacity and width: a run that is fresh up to its last state, in which the channel is full;
      there the sleeper's exchange, one window old, succeeds and claims a slot whose message nobody received. */
  lemma StaleRunOverfills(start: State) returns (run: seq<State>)
    requires Init(start) && |start.threads| == 2
    ensures FreshRun(run) && run[0] == start
    ensures var s := run[|run| - 1];
            && s.ring.cfg == start.ring.cfg && FreeSlots(s.ring) == 0 && Enabled(s, 0, Advance)
            && s.threads[0].SendCas? && s.ring.pushed == s.threads[0].p + s.ring.cfg.Window()
            && FreeSlots(Apply(s, 0, Advance).ring) == -1
            && s.ring.stages[s.ring.pushed % s.ring.cfg.cap] != Free
  {
    var c := start.ring.cfg;
    var s := SleeperFallsAsleep(start);
    hide Reaches;
    s := ManyRoundTrips(start, s, c.Window() - c.cap);
    s := ManySends(start, s, c.cap);
    Decode(c, 0, false);
    StaleExchangeOverfills(s, 0);
    run := RunTo(start, s);
  }

  lemma RunTo(start: State, s: State) returns (run: seq<State>)
    requires Init(start) && Reaches(FreshNext, start, s)
    ensures FreshRun(run) && run[0] == start && run[|run| - 1] == s
  {
    run :| Path(run, FreshNext, start, s);
  }
}
