/** The ring of the channel: slot ownership, first-in first-out order and the meaning of every word,
    kept by every step of every operation. */
module ChannelRing {
  import opened Stamps
  import opened WakerSets
  import opened Channel

  function SlotOf(r: Ring, p: nat): nat
    requires Sized(r)
    ensures SlotOf(r, p) < |r.places| == |r.stages| == |r.cells| == |r.stamps|
  {
    p % r.cfg.cap
  }

  predicate WritesAt(pc: Pc, p: nat) { (pc.SendWrite? || pc.SendStore?) && pc.p == p }
  predicate ReadsAt(pc: Pc, p: nat) { (pc.RecvRead? || pc.RecvStore?) && pc.p == p }

  /** Slot `i` serves one position; its stamp, its cell and its owner agree with its stage. */
  ghost predicate SlotInv(r: Ring, threads: seq<Pc>, i: nat)
    requires Sized(r) && i < r.cfg.cap && |r.accepted| == r.pushed
  {
    var q := r.places[i];
    && q % r.cfg.cap == i
    && match r.stages[i]
       case Free =>
         && r.stamps[i] == Enc(r.cfg, q) && r.cells[i] == Blank
         && r.pushed <= q < r.popped + r.cfg.cap
       case Writing(o) =>
         && r.stamps[i] == Enc(r.cfg, q) && r.popped <= q < r.pushed
         && o < |threads| && WritesAt(threads[o], q)
         && r.cells[i] == (if threads[o].SendWrite? then Blank else Holds(r.accepted[q]))
       case Ready =>
         && r.stamps[i] == Enc(r.cfg, q) + 1 && r.popped <= q < r.pushed
         && r.cells[i] == Holds(r.accepted[q])
       case Reading(o) =>
         && r.stamps[i] == Enc(r.cfg, q) + 1 && q < r.popped && r.pushed <= q + r.cfg.cap
         && o < |threads| && ReadsAt(threads[o], q) && q < |r.accepted|
         && (threads[o].RecvRead? ==> q !in r.delivered)
         && r.cells[i] == (if threads[o].RecvRead? then Holds(r.accepted[q]) else Blank)
  }

  /** What operation `t` knows: its copies are words of earlier moments, and what it saw in a slot's stamp
      can only have moved on. */
  ghost predicate ThreadInv(r: Ring, pc: Pc, t: nat)
    requires Sized(r) && |r.accepted| == r.pushed
  {
    var c := r.cfg;
    && (pc.SendStamp? || pc.SendCas? || pc.SendHead? || pc.SendFullHead? || pc.LenHead? || pc.LenAgain? ==>
          pc.tail == Word(c, pc.p, pc.m) && pc.p <= r.pushed && (pc.m ==> r.marked))
    && (pc.RecvStamp? || pc.RecvCas? || pc.RecvTail? || pc.RecvEmptyTail? ==>
          pc.head == Enc(c, pc.p) && pc.p <= r.popped)
    && (pc.SendCas? ==> r.places[SlotOf(r, pc.p)] >= pc.p)
    && (pc.RecvCas? ==> Filled(r, pc.p))
    && (pc.SendWrite? || pc.SendStore? ==>
          && pc.tail == Enc(c, pc.p) && pc.p < r.pushed
          && r.places[SlotOf(r, pc.p)] == pc.p && r.stages[SlotOf(r, pc.p)] == Writing(t))
    && (pc.SendWrite? ==> pc.msg == r.accepted[pc.p])
    && (pc.RecvRead? || pc.RecvStore? ==>
          && pc.head == Enc(c, pc.p) && pc.p < r.popped
          && r.places[SlotOf(r, pc.p)] == pc.p && r.stages[SlotOf(r, pc.p)] == Reading(t))
    && (pc.RecvStore? || pc.RecvWakeOne? || pc.RecvWakeOneGo? ==>
          pc.p in r.delivered && r.delivered[pc.p] == pc.msg)
    && (pc.LenAgain? ==> pc.head == Enc(c, pc.q) && pc.q <= r.popped && pc.p <= pc.actual + pc.q <= r.pushed
                         && 0 <= pc.actual <= c.cap)
  }

  /** The slot of `p` has been filled for position `p`, or is past it. */
  ghost predicate Filled(r: Ring, p: nat)
    requires Sized(r)
  {
    var i := SlotOf(r, p);
    r.places[i] > p || (r.places[i] == p && (r.stages[i].Ready? || r.stages[i].Reading?))
  }

  /** Popped position `p` has been handed over, or its reader is about to take it out. */
  ghost predicate Handed(r: Ring, threads: seq<Pc>, p: nat)
    requires Sized(r)
  {
    var i := SlotOf(r, p);
    || p in r.delivered
    || (r.places[i] == p && r.stages[i].Reading? && r.stages[i].owner < |threads|
        && threads[r.stages[i].owner].RecvRead?)
  }

  ghost predicate Words(r: Ring)
    requires Sized(r)
  {
    && r.head == Enc(r.cfg, r.popped)
    && r.tail == Word(r.cfg, r.pushed, r.marked)
    && r.popped <= r.pushed <= r.popped + r.cfg.cap
    && |r.accepted| == r.pushed
  }

  ghost predicate Log(r: Ring, threads: seq<Pc>)
    requires Sized(r) && |r.accepted| == r.pushed >= r.popped
  {
    && (forall p | p in r.delivered :: p < r.popped && r.delivered[p] == r.accepted[p])
    && (forall p: nat | p < r.popped :: Handed(r, threads, p))
  }

  ghost predicate RingInv(r: Ring, threads: seq<Pc>) {
    && Sized(r)
    && Words(r)
    && (forall i | 0 <= i < r.cfg.cap :: SlotInv(r, threads, i))
    && (forall t | 0 <= t < |threads| :: ThreadInv(r, threads[t], t))
    && Log(r, threads)
  }

  lemma WordsOf(r: Ring, threads: seq<Pc>)
    requires RingInv(r, threads)
    ensures Sized(r) && Words(r) && Log(r, threads)
  {
  }

  lemma ThreadOf(r: Ring, threads: seq<Pc>, t: nat)
    requires RingInv(r, threads) && t < |threads|
    ensures Sized(r) && Words(r) && ThreadInv(r, threads[t], t)
  {
  }

  lemma SlotAt(r: Ring, threads: seq<Pc>, i: nat)
    requires RingInv(r, threads) && i < r.cfg.cap
    ensures Sized(r) && Words(r) && SlotInv(r, threads, i)
  {
  }

  // ----- what a comparison of words decides -----

  /** A slot's stamp gives away its stage, and its position up to whole windows. */
  lemma StampTells(r: Ring, threads: seq<Pc>, p: nat)
    requires RingInv(r, threads)
    ensures var i, w := SlotOf(r, p), r.cfg.Window();
            var q, taken := r.places[i], r.stages[i].Ready? || r.stages[i].Reading?;
            && (r.stamps[i] == Enc(r.cfg, p) <==> q % w == p % w && !taken)
            && (r.stamps[i] == Enc(r.cfg, p) + 1 <==> q % w == p % w && taken)
            && (WrappingAdd(r.cfg, r.stamps[i], r.cfg.OneLap()) == Enc(r.cfg, p) + 1 <==>
                (q + r.cfg.cap) % w == p % w && taken)
  {
    hide RingInv, Enc, WrappingAdd, Config.Window;
    WordsOf(r, threads);
    var c, i := r.cfg, SlotOf(r, p);
    SlotAt(r, threads, i);
    var q := r.places[i];
    EncCongruent(c, q, p);
    EncCongruent(c, q + c.cap, p);
    StagesDiffer(c, p, q);
    StagesDiffer(c, q, p);
    LapIsCapacity(c, q);
    AddWhole(q, c.cap, 1);
    StagesDiffer(c, q + c.cap, p);
  }

  /** The position of a slot that looks right to a stamp comparison is the copied one or a later one. */
  lemma SlotMovedOn(r: Ring, threads: seq<Pc>, p: nat)
    requires RingInv(r, threads) && p <= r.pushed && r.places[SlotOf(r, p)] % r.cfg.Window() == p % r.cfg.Window()
    ensures r.places[SlotOf(r, p)] >= p
  {
    var q := r.places[SlotOf(r, p)];
    assert SlotInv(r, threads, SlotOf(r, p));
    if q < p { SameResidueApart(q, p, r.cfg.Window()); }
  }

  lemma WordEqual(c: Config, p: nat, m: bool, q: nat, n: bool)
    requires c.Valid()
    ensures Word(c, p, m) == Word(c, q, n) <==> p % c.Window() == q % c.Window() && m == n
  {
    Decode(c, p, m);
    Decode(c, q, n);
    EncCongruent(c, p, q);
  }

  /** A compare-exchange of the tail succeeds exactly when the tail has not moved, or moved by whole windows,
      and the mark is as it was. */
  lemma TailCasTells(r: Ring, threads: seq<Pc>, p: nat, m: bool)
    requires RingInv(r, threads)
    ensures var w := Word(r.cfg, p, m);
            && Or(Unmarked(r.cfg, w), Mark(r.cfg, w)) == w
            && (r.tail == w <==> (r.pushed == p || Circled(r.cfg, r.pushed, p)) && r.marked == m)
  {
    Decode(r.cfg, p, m);
    WordEqual(r.cfg, r.pushed, r.marked, p, m);
  }

  lemma HeadCasTells(r: Ring, threads: seq<Pc>, p: nat)
    requires RingInv(r, threads)
    ensures r.head == Enc(r.cfg, p) <==> r.popped == p || Circled(r.cfg, r.popped, p)
  {
    EncCongruent(r.cfg, r.popped, p);
  }

  /** "Head plus one lap equals the copied tail": one capacity before the copy, up to whole windows. */
  lemma FullTells(r: Ring, threads: seq<Pc>, p: nat)
    requires RingInv(r, threads)
    ensures var behind := r.popped + r.cfg.cap;
            WrappingAdd(r.cfg, r.head, r.cfg.OneLap()) == Enc(r.cfg, p) <==> behind == p || Circled(r.cfg, behind, p)
  {
    LapIsCapacity(r.cfg, r.popped);
    EncCongruent(r.cfg, r.popped + r.cfg.cap, p);
  }

  /** "Tail without the mark equals the copied head": the tail is at the copy, up to whole windows. */
  lemma EmptyTells(r: Ring, threads: seq<Pc>, p: nat)
    requires RingInv(r, threads)
    ensures Cleared(r.cfg, r.tail) == Enc(r.cfg, p) <==> r.pushed == p || Circled(r.cfg, r.pushed, p)
    ensures Mark(r.cfg, r.tail) != 0 <==> r.marked
  {
    Decode(r.cfg, r.pushed, r.marked);
    EncCongruent(r.cfg, r.pushed, p);
  }

  // ----- steps that do not touch the ring -----

  predicate Owner(pc: Pc) { pc.SendWrite? || pc.SendStore? || pc.RecvRead? || pc.RecvStore? }

  lemma LocalMove(r: Ring, threads: seq<Pc>, t: nat, pc: Pc)
    requires RingInv(r, threads) && t < |threads| && !Owner(threads[t]) && ThreadInv(r, pc, t)
    ensures RingInv(r, threads[t := pc])
  {
    var now := threads[t := pc];
    forall i | 0 <= i < r.cfg.cap ensures SlotInv(r, now, i) {
      assert SlotInv(r, threads, i);
    }
    forall p: nat | p < r.popped ensures Handed(r, now, p) {
      assert Handed(r, threads, p);
    }
  }

  // ----- the seven steps that do -----

  lemma PushKeeps(r: Ring, threads: seq<Pc>, t: nat, msg: Msg, m: bool)
    requires RingInv(r, threads) && t < |threads| && !Owner(threads[t])
    requires r.places[SlotOf(r, r.pushed)] >= r.pushed && r.marked == m
    ensures r.stages[SlotOf(r, r.pushed)].Free? && r.places[SlotOf(r, r.pushed)] == r.pushed
    ensures RingInv(Pushed(r, Word(r.cfg, r.pushed + 1, m), msg, t),
                    threads[t := SendWrite(msg, Enc(r.cfg, r.pushed), r.pushed)])
  {
    var c, i, p := r.cfg, SlotOf(r, r.pushed), r.pushed;
    var r', now := Pushed(r, Word(c, p + 1, m), msg, t), threads[t := SendWrite(msg, Enc(c, p), p)];
    assert SlotInv(r, threads, i);
    SameSlot(c.cap, r.places[i], p);
    forall j | 0 <= j < c.cap ensures SlotInv(r', now, j) {
      PushKeepsSlot(r, threads, t, msg, m, j);
    }
    forall q: nat | q < r.popped ensures Handed(r', now, q) {
      assert Handed(r, threads, q);
    }
    forall u | 0 <= u < |now| ensures ThreadInv(r', now[u], u) {
      if u != t { PushKeepsThread(r, threads, t, msg, m, u); }
    }
  }

  lemma PushKeepsSlot(r: Ring, threads: seq<Pc>, t: nat, msg: Msg, m: bool, j: nat)
    requires RingInv(r, threads) && t < |threads| && !Owner(threads[t]) && j < r.cfg.cap
    requires r.stages[SlotOf(r, r.pushed)].Free? && r.places[SlotOf(r, r.pushed)] == r.pushed < r.popped + r.cfg.cap
    ensures SlotInv(Pushed(r, Word(r.cfg, r.pushed + 1, m), msg, t),
                    threads[t := SendWrite(msg, Enc(r.cfg, r.pushed), r.pushed)], j)
  {
    hide RingInv;
    SlotAt(r, threads, j);
    AddWhole(r.places[j], r.cfg.cap, 1);
  }

  lemma PushKeepsThread(r: Ring, threads: seq<Pc>, t: nat, msg: Msg, m: bool, u: nat)
    requires RingInv(r, threads) && t < |threads| && u < |threads| && u != t
    requires r.stages[SlotOf(r, r.pushed)].Free? && r.places[SlotOf(r, r.pushed)] == r.pushed
    ensures ThreadInv(Pushed(r, Word(r.cfg, r.pushed + 1, m), msg, t), threads[u], u)
  {
    hide RingInv;
    ThreadOf(r, threads, u);
  }

  /** The owner of slot `i` works on that slot and on nothing else. */
  ghost predicate OnlySlot(r: Ring, r': Ring, i: nat) {
    && Sized(r) && Sized(r') && i < r.cfg.cap
    && r' == r.(stamps := r'.stamps, cells := r'.cells, stages := r'.stages, places := r'.places,
                delivered := r'.delivered)
    && r'.stamps == r.stamps[i := r'.stamps[i]] && r'.cells == r.cells[i := r'.cells[i]]
    && r'.stages == r.stages[i := r'.stages[i]] && r'.places == r.places[i := r'.places[i]]
    && (forall p | p in r.delivered :: p in r'.delivered && r'.delivered[p] == r.delivered[p])
    && (forall p | p in r'.delivered && p !in r.delivered :: r.places[i] == p)
  }

  lemma SlotMove(r: Ring, r': Ring, threads: seq<Pc>, t: nat, pc: Pc)
    requires RingInv(r, threads) && t < |threads| && Owner(threads[t]) && OnlySlot(r, r', SlotOf(r, threads[t].p))
    requires SlotInv(r', threads[t := pc], SlotOf(r, threads[t].p)) && ThreadInv(r', pc, t)
    requires r'.places[SlotOf(r, threads[t].p)] >= threads[t].p
    requires Filled(r, threads[t].p) ==> Filled(r', threads[t].p)
    requires Log(r', threads[t := pc])
    ensures RingInv(r', threads[t := pc])
  {
    var i, now := SlotOf(r, threads[t].p), threads[t := pc];
    forall j | 0 <= j < r.cfg.cap ensures SlotInv(r', now, j) {
      if j != i { OtherSlotKept(r, r', threads, t, pc, j); }
    }
    forall u | 0 <= u < |now| ensures ThreadInv(r', now[u], u) {
      if u != t {
        OtherThreadKept(r, r', threads, t, u);
      }
    }
  }

  lemma OtherSlotKept(r: Ring, r': Ring, threads: seq<Pc>, t: nat, pc: Pc, j: nat)
    requires RingInv(r, threads) && t < |threads| && Owner(threads[t]) && OnlySlot(r, r', SlotOf(r, threads[t].p))
    requires j < r.cfg.cap && j != SlotOf(r, threads[t].p)
    ensures SlotInv(r', threads[t := pc], j)
  {
    hide RingInv;
    ThreadOf(r, threads, t);
    SlotAt(r, threads, j);
  }

  lemma OtherThreadKept(r: Ring, r': Ring, threads: seq<Pc>, t: nat, u: nat)
    requires RingInv(r, threads) && t < |threads| && u < |threads| && u != t
    requires Owner(threads[t]) && OnlySlot(r, r', SlotOf(r, threads[t].p))
    requires r'.places[SlotOf(r, threads[t].p)] >= threads[t].p
    requires Filled(r, threads[t].p) ==> Filled(r', threads[t].p)
    ensures ThreadInv(r', threads[u], u)
  {
    hide RingInv;
    ThreadOf(r, threads, u);
    ThreadOf(r, threads, t);
    var pc := threads[u];
    if Owner(pc) { assert SlotOf(r, pc.p) != SlotOf(r, threads[t].p); }
  }

  lemma WriteKeeps(r: Ring, threads: seq<Pc>, t: nat)
    requires RingInv(r, threads) && t < |threads| && threads[t].SendWrite?
    ensures var pc := threads[t];
            RingInv(r.(cells := r.cells[SlotOf(r, pc.p) := Holds(pc.msg)]), threads[t := SendStore(pc.tail, pc.p)])
            && r.cells[SlotOf(r, pc.p)] == Blank
  {
    var pc := threads[t];
    var i := SlotOf(r, pc.p);
    var r', now := r.(cells := r.cells[i := Holds(pc.msg)]), threads[t := SendStore(pc.tail, pc.p)];
    assert ThreadInv(r, pc, t);
    assert SlotInv(r, threads, i);
    forall q: nat | q < r.popped ensures Handed(r', now, q) {
      assert Handed(r, threads, q);
    }
    SlotMove(r, r', threads, t, SendStore(pc.tail, pc.p));
  }

  lemma StoreKeeps(r: Ring, threads: seq<Pc>, t: nat)
    requires RingInv(r, threads) && t < |threads| && threads[t].SendStore?
    ensures var pc := threads[t];
            var i := SlotOf(r, pc.p);
            RingInv(r.(stamps := r.stamps[i := pc.tail + 1], stages := r.stages[i := Ready]), threads[t := SendWakeOne])
  {
    var pc := threads[t];
    var i := SlotOf(r, pc.p);
    var r', now := r.(stamps := r.stamps[i := pc.tail + 1], stages := r.stages[i := Ready]), threads[t := SendWakeOne];
    assert ThreadInv(r, pc, t);
    assert SlotInv(r, threads, i);
    forall q: nat | q < r.popped ensures Handed(r', now, q) {
      assert Handed(r, threads, q);
    }
    SlotMove(r, r', threads, t, SendWakeOne);
  }

  lemma PopKeeps(r: Ring, threads: seq<Pc>, t: nat)
    requires RingInv(r, threads) && t < |threads| && !Owner(threads[t]) && Filled(r, r.popped)
    ensures r.stages[SlotOf(r, r.popped)].Ready? && r.places[SlotOf(r, r.popped)] == r.popped
    ensures RingInv(Popped(r, Enc(r.cfg, r.popped + 1), t), threads[t := RecvRead(Enc(r.cfg, r.popped), r.popped)])
  {
    var c, i, p := r.cfg, SlotOf(r, r.popped), r.popped;
    var r', now := Popped(r, Enc(c, p + 1), t), threads[t := RecvRead(Enc(c, p), p)];
    assert SlotInv(r, threads, i);
    SameSlot(c.cap, r.places[i], p);
    forall j | 0 <= j < c.cap ensures SlotInv(r', now, j) {
      PopKeepsSlot(r, threads, t, j);
    }
    forall q: nat | q < r'.popped ensures Handed(r', now, q) {
      if q < p { assert Handed(r, threads, q); }
    }
    forall u | 0 <= u < |now| ensures ThreadInv(r', now[u], u) {
      if u != t { PopKeepsThread(r, threads, t, u); }
    }
  }

  lemma PopKeepsSlot(r: Ring, threads: seq<Pc>, t: nat, j: nat)
    requires RingInv(r, threads) && t < |threads| && !Owner(threads[t]) && j < r.cfg.cap
    requires r.stages[SlotOf(r, r.popped)].Ready? && r.places[SlotOf(r, r.popped)] == r.popped
    ensures SlotInv(Popped(r, Enc(r.cfg, r.popped + 1), t), threads[t := RecvRead(Enc(r.cfg, r.popped), r.popped)], j)
  {
    hide RingInv;
    WordsOf(r, threads);
    SlotAt(r, threads, j);
  }

  lemma PopKeepsThread(r: Ring, threads: seq<Pc>, t: nat, u: nat)
    requires RingInv(r, threads) && t < |threads| && u < |threads| && u != t
    requires r.stages[SlotOf(r, r.popped)].Ready? && r.places[SlotOf(r, r.popped)] == r.popped
    ensures ThreadInv(Popped(r, Enc(r.cfg, r.popped + 1), t), threads[u], u)
  {
    hide RingInv;
    ThreadOf(r, threads, u);
  }

  ghost function TakenOut(r: Ring, p: nat): Ring
    requires Sized(r) && r.cells[SlotOf(r, p)].Holds?
  {
    var i := SlotOf(r, p);
    r.(cells := r.cells[i := Blank], delivered := r.delivered[p := r.cells[i].msg])
  }

  lemma ReaderSees(r: Ring, threads: seq<Pc>, t: nat)
    requires RingInv(r, threads) && t < |threads| && threads[t].RecvRead?
    ensures var pc := threads[t];
            && pc.p < r.popped && r.cells[SlotOf(r, pc.p)] == Holds(r.accepted[pc.p]) && pc.p !in r.delivered
            && pc.head == Enc(r.cfg, pc.p)
            && r.places[SlotOf(r, pc.p)] == pc.p && r.stages[SlotOf(r, pc.p)] == Reading(t)
  {
    hide RingInv;
    ThreadOf(r, threads, t);
    SlotAt(r, threads, SlotOf(r, threads[t].p));
  }

  lemma HandedAfterRead(r: Ring, threads: seq<Pc>, t: nat, pc: Pc, q: nat)
    requires RingInv(r, threads) && t < |threads| && threads[t].RecvRead? && q < r.popped
    requires r.cells[SlotOf(r, threads[t].p)].Holds?
    ensures Handed(TakenOut(r, threads[t].p), threads[t := pc], q)
  {
    assert Handed(r, threads, q);
    assert SlotInv(r, threads, SlotOf(r, q));
  }

  lemma LogAfterRead(r: Ring, threads: seq<Pc>, t: nat, pc: Pc)
    requires RingInv(r, threads) && t < |threads| && threads[t].RecvRead?
    requires r.cells[SlotOf(r, threads[t].p)].Holds?
    ensures Log(TakenOut(r, threads[t].p), threads[t := pc])
  {
    ReaderSees(r, threads, t);
    var r', now := TakenOut(r, threads[t].p), threads[t := pc];
    forall q: nat | q < r.popped ensures Handed(r', now, q) {
      HandedAfterRead(r, threads, t, pc, q);
    }
  }

  lemma ReadKeeps(r: Ring, threads: seq<Pc>, t: nat)
    requires RingInv(r, threads) && t < |threads| && threads[t].RecvRead?
    ensures var pc := threads[t];
            && pc.p < r.popped && r.cells[SlotOf(r, pc.p)] == Holds(r.accepted[pc.p]) && pc.p !in r.delivered
            && RingInv(TakenOut(r, pc.p), threads[t := RecvStore(pc.head, pc.p, r.accepted[pc.p])])
  {
    var pc := threads[t];
    ReaderSees(r, threads, t);
    var next := RecvStore(pc.head, pc.p, r.accepted[pc.p]);
    LogAfterRead(r, threads, t, next);
    assert SlotInv(r, threads, SlotOf(r, pc.p));
    SlotMove(r, TakenOut(r, pc.p), threads, t, next);
  }

  lemma LogAfterRelease(r: Ring, r': Ring, threads: seq<Pc>, t: nat, pc: Pc)
    requires RingInv(r, threads) && t < |threads| && threads[t].RecvStore? && OnlySlot(r, r', SlotOf(r, threads[t].p))
    requires r'.delivered == r.delivered
    ensures Log(r', threads[t := pc])
  {
    var now := threads[t := pc];
    assert ThreadInv(r, threads[t], t);
    forall q: nat | q < r.popped ensures Handed(r', now, q) {
      assert Handed(r, threads, q);
    }
  }

  lemma ReleaseKeeps(r: Ring, threads: seq<Pc>, t: nat)
    requires RingInv(r, threads) && t < |threads| && threads[t].RecvStore?
    ensures var pc := threads[t];
            var i := SlotOf(r, pc.p);
            RingInv(r.(stamps := r.stamps[i := WrappingAdd(r.cfg, pc.head, r.cfg.OneLap())],
                       stages := r.stages[i := Free],
                       places := r.places[i := pc.p + r.cfg.cap]),
                    threads[t := RecvWakeOne(pc.p, pc.msg)])
  {
    hide RingInv, Log, Enc, WrappingAdd;
    ThreadOf(r, threads, t);
    var pc := threads[t];
    var i := SlotOf(r, pc.p);
    var r' := r.(stamps := r.stamps[i := WrappingAdd(r.cfg, pc.head, r.cfg.OneLap())], stages := r.stages[i := Free],
                 places := r.places[i := pc.p + r.cfg.cap]);
    SlotAt(r, threads, i);
    LapIsCapacity(r.cfg, pc.p);
    AddWhole(pc.p, r.cfg.cap, 1);
    LogAfterRelease(r, r', threads, t, RecvWakeOne(pc.p, pc.msg));
    SlotMove(r, r', threads, t, RecvWakeOne(pc.p, pc.msg));
  }

  lemma MarkKeeps(r: Ring, threads: seq<Pc>, t: nat, pc: Pc)
    requires RingInv(r, threads) && t < |threads| && !Owner(threads[t])
    requires pc.Idle? || pc.WakeSenders?
    ensures RingInv(r.(tail := Or(r.tail, r.cfg.MarkBit()), marked := true), threads[t := pc])
    ensures Mark(r.cfg, r.tail) != 0 <==> r.marked
  {
    var r' := r.(tail := Or(r.tail, r.cfg.MarkBit()), marked := true);
    Decode(r.cfg, r.pushed, r.marked);
    forall j | 0 <= j < r.cfg.cap ensures SlotInv(r', threads, j) {
      assert SlotInv(r, threads, j);
    }
    forall q: nat | q < r.popped ensures Handed(r', threads, q) {
      assert Handed(r, threads, q);
    }
    forall u | 0 <= u < |threads| ensures ThreadInv(r', threads[u], u) {
      assert ThreadInv(r, threads[u], u);
    }
    LocalMove(r', threads, t, pc);
  }

  // ----- every step of the protocol -----

  /** The ring after a step that leaves the ring alone. */
  lemma LocalStep(s: State, t: nat, s': State)
    requires RingInv(s.ring, s.threads) && t < |s.threads| && !Owner(s.threads[t]) && s'.ring == s.ring
    requires |s'.threads| == |s.threads| && s'.threads == s.threads[t := s'.threads[t]]
    requires ThreadInv(s.ring, s'.threads[t], t)
    ensures RingInv(s'.ring, s'.threads)
  {
    LocalMove(s.ring, s.threads, t, s'.threads[t]);
  }

  /** A send that compares a slot's stamp knows what the next place claims. */
  lemma SendStampInv(s: State, t: nat)
    requires RingInv(s.ring, s.threads) && Enabled(s, t, Advance) && s.threads[t].SendStamp?
    ensures ThreadInv(s.ring, SendStep(s, t).threads[t], t)
  {
    hide RingInv, Mark, Index, Unmarked, Config.Window;
    var pc, r := s.threads[t], s.ring;
    ThreadOf(r, s.threads, t);
    Decode(r.cfg, pc.p, pc.m);
    StampTells(r, s.threads, pc.p);
    if SendStep(s, t).threads[t].SendCas? { SlotMovedOn(r, s.threads, pc.p); }
  }

  /** Where a send goes without touching the ring, it knows what its place claims. */
  lemma SendLocalInv(s: State, t: nat)
    requires RingInv(s.ring, s.threads) && Enabled(s, t, Advance) && UsesSender(s.threads[t])
    requires !Owner(s.threads[t]) && SendStep(s, t).ring == s.ring
    ensures ThreadInv(s.ring, SendStep(s, t).threads[t], t)
  {
    hide RingInv;
    var pc := s.threads[t];
    ThreadOf(s.ring, s.threads, t);
    if pc.SendStamp? { SendStampInv(s, t); }
  }

  /** A successful exchange of the tail claims the slot of the true position, when that slot is free for it. */
  lemma SendCasSucceeds(s: State, t: nat)
    requires RingInv(s.ring, s.threads) && Enabled(s, t, Advance) && s.threads[t].SendCas?
             && s.ring.tail == s.threads[t].tail
    ensures var r, pc := s.ring, s.threads[t];
            && Sized(r) && r.marked == pc.m && (r.pushed == pc.p || Circled(r.cfg, r.pushed, pc.p))
            && SendStep(s, t).threads == s.threads[t := SendWrite(pc.msg, Enc(r.cfg, r.pushed), r.pushed)]
            && SendStep(s, t).ring == Pushed(r, Word(r.cfg, r.pushed + 1, r.marked), pc.msg, t)
  {
    hide RingInv, Or, Advanced, Mark, Unmarked, Word;
    var pc, r, c := s.threads[t], s.ring, s.ring.cfg;
    ThreadOf(r, s.threads, t);
    WordEqual(c, r.pushed, r.marked, pc.p, pc.m);
    Decode(c, r.pushed, r.marked);
    AdvancedMarked(c, r.pushed, r.marked);
  }

  lemma FreeForPush(r: Ring, threads: seq<Pc>, pc: Pc, t: nat)
    requires RingInv(r, threads) && ThreadInv(r, pc, t) && pc.SendCas?
    requires r.pushed == pc.p || r.stages[r.pushed % r.cfg.cap].Free?
    ensures r.places[SlotOf(r, r.pushed)] >= r.pushed
  {
    assert SlotInv(r, threads, SlotOf(r, r.pushed));
  }

  lemma SendCasKeeps(s: State, t: nat)
    requires RingInv(s.ring, s.threads) && Fresh(s, t) && Enabled(s, t, Advance) && s.threads[t].SendCas?
    ensures var s' := SendStep(s, t); RingInv(s'.ring, s'.threads)
  {
    hide RingInv;
    var pc, r := s.threads[t], s.ring;
    ThreadOf(r, s.threads, t);
    TailCasTells(r, s.threads, pc.p, pc.m);
    if r.tail == pc.tail {
      SendCasSucceeds(s, t);
      FreeForPush(r, s.threads, pc, t);
      PushKeeps(r, s.threads, t, pc.msg, r.marked);
    } else {
      SendLocalInv(s, t);
      LocalStep(s, t, SendStep(s, t));
    }
  }

  lemma SendOwnerKeeps(s: State, t: nat)
    requires RingInv(s.ring, s.threads) && Enabled(s, t, Advance)
             && (s.threads[t].SendWrite? || s.threads[t].SendStore?)
    ensures var s' := SendStep(s, t); RingInv(s'.ring, s'.threads)
  {
    hide RingInv, Index;
    OwnerIndex(s.ring, s.threads, t);
    if s.threads[t].SendWrite? { WriteKeeps(s.ring, s.threads, t); } else { StoreKeeps(s.ring, s.threads, t); }
  }

  /** The owner of a slot finds it again by the index in its copied word. */
  lemma OwnerIndex(r: Ring, threads: seq<Pc>, t: nat)
    requires RingInv(r, threads) && t < |threads| && Owner(threads[t])
    ensures Index(r.cfg, Local(threads[t])) == SlotOf(r, threads[t].p) && Local(threads[t]) == Enc(r.cfg, threads[t].p)
  {
    hide RingInv;
    ThreadOf(r, threads, t);
    Decode(r.cfg, threads[t].p, false);
  }

  lemma SendKeepsRing(s: State, t: nat)
    requires RingInv(s.ring, s.threads) && Fresh(s, t) && Enabled(s, t, Advance) && UsesSender(s.threads[t])
    ensures var s' := SendStep(s, t); RingInv(s'.ring, s'.threads)
  {
    var pc := s.threads[t];
    if pc.SendCas? {
      SendCasKeeps(s, t);
    } else if pc.SendWrite? || pc.SendStore? {
      SendOwnerKeeps(s, t);
    } else {
      hide RingInv, ThreadInv;
      SendLocalInv(s, t);
      LocalStep(s, t, SendStep(s, t));
    }
  }

  /** The new tail word: the next position with the same mark. */
  lemma AdvancedMarked(c: Config, p: nat, m: bool)
    requires c.Valid()
    ensures Or(Advanced(c, Unmarked(c, Word(c, p, m))), Mark(c, Word(c, p, m))) == Word(c, p + 1, m)
  {
    Decode(c, p, m);
    AdvancedIs(c, p);
    Decode(c, p + 1, m);
  }

  /** A receive that compares a slot's stamp knows what the next place claims. */
  lemma RecvStampInv(s: State, t: nat)
    requires RingInv(s.ring, s.threads) && Enabled(s, t, Advance) && s.threads[t].RecvStamp?
    ensures ThreadInv(s.ring, RecvStep(s, t).threads[t], t)
  {
    hide RingInv, Mark, Index, Unmarked, Config.Window;
    var pc, r := s.threads[t], s.ring;
    ThreadOf(r, s.threads, t);
    Decode(r.cfg, pc.p, false);
    StampTells(r, s.threads, pc.p);
    if RecvStep(s, t).threads[t].RecvCas? { SlotMovedOn(r, s.threads, pc.p); }
  }

  lemma RecvLocalInv(s: State, t: nat)
    requires RingInv(s.ring, s.threads) && Enabled(s, t, Advance) && UsesReceiver(s.threads[t])
    requires !Owner(s.threads[t]) && RecvStep(s, t).ring == s.ring
    ensures ThreadInv(s.ring, RecvStep(s, t).threads[t], t)
  {
    hide RingInv, WithWakers, Wakers, LiveKey, Removed;
    var pc := s.threads[t];
    ThreadOf(s.ring, s.threads, t);
    if pc.RecvStamp? { RecvStampInv(s, t); }
  }

  lemma RecvCasSucceeds(s: State, t: nat)
    requires RingInv(s.ring, s.threads) && Enabled(s, t, Advance) && s.threads[t].RecvCas?
             && s.ring.head == s.threads[t].head
    ensures var r, pc := s.ring, s.threads[t];
            && Sized(r) && (r.popped == pc.p || Circled(r.cfg, r.popped, pc.p))
            && RecvStep(s, t).threads == s.threads[t := RecvRead(Enc(r.cfg, r.popped), r.popped)]
            && RecvStep(s, t).ring == Popped(r, Enc(r.cfg, r.popped + 1), t)
  {
    hide RingInv, Enc, Advanced;
    var pc, r, c := s.threads[t], s.ring, s.ring.cfg;
    ThreadOf(r, s.threads, t);
    EncCongruent(c, r.popped, pc.p);
    AdvancedIs(c, r.popped);
  }

  lemma ReadyForPop(r: Ring, threads: seq<Pc>, pc: Pc, t: nat)
    requires RingInv(r, threads) && ThreadInv(r, pc, t) && pc.RecvCas?
    requires r.popped == pc.p || r.stages[r.popped % r.cfg.cap].Ready?
    ensures Filled(r, r.popped)
  {
    assert SlotInv(r, threads, SlotOf(r, r.popped));
    if r.popped != pc.p { SameSlot(r.cfg.cap, r.places[SlotOf(r, r.popped)], r.popped); }
  }

  lemma RecvCasKeeps(s: State, t: nat)
    requires RingInv(s.ring, s.threads) && Fresh(s, t) && Enabled(s, t, Advance) && s.threads[t].RecvCas?
    ensures var s' := RecvStep(s, t); RingInv(s'.ring, s'.threads)
  {
    hide RingInv;
    var pc, r := s.threads[t], s.ring;
    ThreadOf(r, s.threads, t);
    HeadCasTells(r, s.threads, pc.p);
    if r.head == pc.head {
      RecvCasSucceeds(s, t);
      ReadyForPop(r, s.threads, pc, t);
      PopKeeps(r, s.threads, t);
    } else {
      RecvLocalInv(s, t);
      LocalStep(s, t, RecvStep(s, t));
    }
  }

  lemma RecvOwnerKeeps(s: State, t: nat)
    requires RingInv(s.ring, s.threads) && Enabled(s, t, Advance) && (s.threads[t].RecvRead? || s.threads[t].RecvStore?)
    ensures var s' := RecvStep(s, t); RingInv(s'.ring, s'.threads)
  {
    hide RingInv, Index, SlotInv, ThreadInv;
    OwnerIndex(s.ring, s.threads, t);
    if s.threads[t].RecvRead? {
      ReaderSees(s.ring, s.threads, t);
      ReadKeeps(s.ring, s.threads, t);
    } else {
      ReleaseKeeps(s.ring, s.threads, t);
    }
  }

  lemma RecvKeepsRing(s: State, t: nat)
    requires RingInv(s.ring, s.threads) && Fresh(s, t) && Enabled(s, t, Advance) && UsesReceiver(s.threads[t])
    ensures var s' := RecvStep(s, t); RingInv(s'.ring, s'.threads)
  {
    var pc := s.threads[t];
    if pc.RecvCas? {
      RecvCasKeeps(s, t);
    } else if pc.RecvRead? || pc.RecvStore? {
      RecvOwnerKeeps(s, t);
    } else {
      hide RingInv, ThreadInv;
      RecvLocalInv(s, t);
      LocalStep(s, t, RecvStep(s, t));
    }
  }

  lemma OtherKeepsRing(s: State, t: nat)
    requires RingInv(s.ring, s.threads) && Enabled(s, t, Advance)
    requires !UsesSender(s.threads[t]) && !UsesReceiver(s.threads[t])
    ensures var s' := OtherStep(s, t); RingInv(s'.ring, s'.threads)
  {
    var pc := s.threads[t];
    hide RingInv, ThreadInv;
    if pc.Marking? {
      MarkKeeps(s.ring, s.threads, t, OtherStep(s, t).threads[t]);
    } else {
      OtherLocalInv(s, t);
      LocalStep(s, t, OtherStep(s, t));
    }
  }

  lemma OtherLocalInv(s: State, t: nat)
    requires RingInv(s.ring, s.threads) && Enabled(s, t, Advance)
    requires !UsesSender(s.threads[t]) && !UsesReceiver(s.threads[t])
    requires !s.threads[t].Marking?
    ensures ThreadInv(s.ring, OtherStep(s, t).threads[t], t)
  {
    hide RingInv;
    ThreadOf(s.ring, s.threads, t);
  }

  lemma StepKeepsRing(s: State, t: nat, a: Action)
    requires RingInv(s.ring, s.threads) && FreshStep(s, t, a) && Enabled(s, t, a)
    ensures var s' := Apply(s, t, a); RingInv(s'.ring, s'.threads)
  {
    var pc := s.threads[t];
    if a.Advance? {
      if UsesSender(pc) {
        SendKeepsRing(s, t);
      } else if UsesReceiver(pc) {
        RecvKeepsRing(s, t);
      } else {
        OtherKeepsRing(s, t);
      }
    } else {
      ChoiceKeepsRing(s, t, a);
    }
  }

  lemma ChoiceKeepsRing(s: State, t: nat, a: Action)
    requires RingInv(s.ring, s.threads) && Enabled(s, t, a) && !a.Advance?
    ensures var s' := Apply(s, t, a); RingInv(s'.ring, s'.threads)
  {
    assert t < |s.threads|;
    hide Apply, Enabled, ThreadInv, RingInv;
    if a.InsertWaker? || a.DropFuture? || a.SpuriousFailure? {
      ChoiceIsLocal(s, t, a);
    } else {
      BeginIsLocal(s, t, a);
    }
    LocalStep(s, t, Apply(s, t, a));
  }

  /** Inserting or dropping a waker and a spurious failure leave the ring alone. */
  lemma ChoiceIsLocal(s: State, t: nat, a: Action)
    requires RingInv(s.ring, s.threads) && Enabled(s, t, a) && (a.InsertWaker? || a.DropFuture? || a.SpuriousFailure?)
    ensures var s' := Apply(s, t, a);
            && s'.ring == s.ring && s'.threads == s.threads[t := s'.threads[t]] && !Owner(s.threads[t])
            && ThreadInv(s.ring, s'.threads[t], t)
  {
    hide RingInv, Word, Enc, WithWakers, Wakers, FreeKey, LiveKey, Inserted, AfterCancel, SomeUser;
    ThreadOf(s.ring, s.threads, t);
  }

  /** So do beginning an operation, cloning a handle and dropping one. */
  lemma BeginIsLocal(s: State, t: nat, a: Action)
    requires RingInv(s.ring, s.threads) && Enabled(s, t, a)
    requires !a.InsertWaker? && !a.DropFuture? && !a.SpuriousFailure? && !a.Advance?
    ensures var s' := Apply(s, t, a);
            && s'.ring == s.ring && s'.threads == s.threads[t := s'.threads[t]] && !Owner(s.threads[t])
            && ThreadInv(s.ring, s'.threads[t], t)
  {
    hide RingInv, SomeUser;
    WordsOf(s.ring, s.threads);
  }

  lemma InitialRing(cfg: Config, threads: seq<Pc>)
    requires cfg.Valid() && forall t | 0 <= t < |threads| :: threads[t].Idle?
    ensures RingInv(NewRing(cfg), threads)
  {
    forall i | 0 <= i < cfg.cap ensures SlotInv(NewRing(cfg), threads, i) {
      SmallMod(i, cfg.cap);
      SmallMod(0, cfg.Laps());
    }
    SmallMod(0, cfg.cap);
    SmallMod(0, cfg.Laps());
  }
}
