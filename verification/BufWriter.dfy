/** `src/io/buf_writer.rs`: a buffer in front of a writer that may accept a part, be busy, be interrupted,
    refuse or fail at any call.

    `replies` is what the inner writer will answer to the calls it gets, one after the other; when it is used
    up the writer is busy. `inner` records everything the inner writer accepted, in order. */
module BufferedWriter {

  import opened Bytes

  datatype Event = Data(byte: Byte) | Seeked(pos: int) | Flushed | Closed

  datatype Reply = Accepts(n: nat) | Busy | Interrupts | Fails(code: nat)

  datatype Error = WriteZero | Interrupted | Other(code: nat)

  datatype Outcome = Pending | Ready(n: nat) | Failed(error: Error)

  datatype State = State(inner: seq<Event>, buf: seq<Byte>, written: nat, capacity: nat, replies: seq<Reply>)

  predicate Valid(s: State) { s.written <= |s.buf| <= s.capacity }

  function Events(bytes: seq<Byte>): (events: seq<Event>)
    ensures |events| == |bytes| && forall i | 0 <= i < |bytes| :: events[i] == Data(bytes[i])
  {
    seq(|bytes|, i requires 0 <= i < |bytes| => Data(bytes[i]))
  }

  // ----- one poll -----

  /** End of the flush loop: what was written leaves the buffer. */
  function Settled(s: State): State
    requires Valid(s)
  {
    s.(buf := s.buf[s.written..], written := 0)
  }

  /** Handing over the next `m` bytes only moves the border between what is written and what is not. */
  function HandedOver(s: State, m: nat): State
    requires Valid(s) && s.written + m <= |s.buf|
  {
    s.(inner := s.inner + Events(s.buf[s.written..s.written + m]), written := s.written + m)
  }

  /** poll_flush_buf: offers the rest of the buffer until it is gone or the inner writer stops it. */
  function FlushBuf(s: State): (State, Outcome)
    requires Valid(s)
    decreases |s.replies|
  {
    if s.written == |s.buf| then (Settled(s), Ready(0))
    else if s.replies == [] then (s, Pending)
    else
      var next := s.(replies := s.replies[1..]);
      match s.replies[0]
      case Accepts(n) =>
        var m := Min(n, |s.buf| - s.written);
        if m == 0 then (Settled(next), Failed(WriteZero))
        else FlushBuf(HandedOver(next, m))
      case Busy => (next, Pending)
      case Interrupts => FlushBuf(next)
      case Fails(code) => (Settled(next), Failed(Other(code)))
  }

  /** One call of the inner writer that passes its answer on. */
  function Call(s: State, accepted: nat -> seq<Event>): (State, Outcome) {
    if s.replies == [] then (s, Pending)
    else
      var next := s.(replies := s.replies[1..]);
      match s.replies[0]
      case Accepts(n) => (next.(inner := s.inner + accepted(n)), Ready(n))
      case Busy => (next, Pending)
      case Interrupts => (next, Failed(Interrupted))
      case Fails(code) => (next, Failed(Other(code)))
  }

  /** A large write goes to the inner writer directly. */
  function Bypass(s: State, data: seq<Byte>): (State, Outcome) {
    var (next, o) := Call(s, (n: nat) => Events(data[..Min(n, |data|)]));
    (next, if o.Ready? then Ready(Min(o.n, |data|)) else o)
  }

  datatype Op = Write(data: seq<Byte>) | Flush | Close | Seek(pos: int)

  function Direct(s: State, op: Op): (State, Outcome) {
    match op
    case Write(data) => Bypass(s, data)
    case Flush => Call(s, n => [Flushed])
    case Close => Call(s, n => [Closed])
    case Seek(pos) => Call(s, n => [Seeked(pos)])
  }

  function Poll(s: State, op: Op): (State, Outcome)
    requires Valid(s)
  {
    var (first, o) := if op.Write? && |s.buf| + |op.data| <= s.capacity then (s, Ready(0)) else FlushBuf(s);
    if !o.Ready? then (first, o)
    else if op.Write? && |op.data| < s.capacity then (first.(buf := first.buf + op.data), Ready(|op.data|))
    else Direct(first, op)
  }

  // ----- what a poll may do -----

  /** What the inner writer has got, followed by what it is still to get. */
  function Ordered(s: State): seq<Event>
    requires Valid(s)
  {
    s.inner + Events(s.buf[s.written..])
  }

  /** What a caller who saw this outcome has had accepted. */
  function Accepted(op: Op, o: Outcome): seq<Event> {
    if !o.Ready? then []
    else match op
      case Write(data) => Events(data[..Min(o.n, |data|)])
      case Flush => [Flushed]
      case Close => [Closed]
      case Seek(pos) => [Seeked(pos)]
  }

  lemma EventsConcat(a: seq<Byte>, b: seq<Byte>)
    ensures Events(a + b) == Events(a) + Events(b)
  {
  }

  lemma HandedOverKeepsOrder(s: State, m: nat)
    requires Valid(s) && s.written + m <= |s.buf|
    ensures Valid(HandedOver(s, m)) && Ordered(HandedOver(s, m)) == Ordered(s) && s.inner <= HandedOver(s, m).inner
  {
    hide Events;
    var now, later := s.buf[s.written..s.written + m], s.buf[s.written + m..];
    assert s.buf[s.written..] == now + later;
    EventsConcat(now, later);
    assert (s.inner + Events(now)) + Events(later) == s.inner + (Events(now) + Events(later));
  }

  lemma SettledKeepsOrder(s: State)
    requires Valid(s)
    ensures Valid(Settled(s)) && Ordered(Settled(s)) == Ordered(s)
    ensures s.written == |s.buf| ==> Settled(s).buf == [] && Ordered(s) == s.inner
  {
    assert Settled(s).buf[0..] == s.buf[s.written..];
  }

  lemma {:induction false} FlushBufKeepsOrder(s: State)
    requires Valid(s)
    ensures var (s', o) := FlushBuf(s);
            && Valid(s') && Ordered(s') == Ordered(s) && s.inner <= s'.inner && s'.capacity == s.capacity
            && (o.Ready? ==> s'.buf == [] && s'.inner == Ordered(s))
            && (!o.Pending? ==> s'.written == 0)
    decreases |s.replies|
  {
    hide Events;
    SettledKeepsOrder(s);
    if s.written < |s.buf| && s.replies != [] {
      var next := s.(replies := s.replies[1..]);
      assert Ordered(next) == Ordered(s);
      if s.replies[0].Interrupts? {
        FlushBufKeepsOrder(next);
      } else if s.replies[0].Accepts? {
        var m := Min(s.replies[0].n, |s.buf| - s.written);
        HandedOverKeepsOrder(next, m);
        if m > 0 { FlushBufKeepsOrder(HandedOver(next, m)); }
      } else {
        SettledKeepsOrder(next);
      }
      SettledKeepsOrder(next);
    }
  }

  lemma DirectKeepsOrder(s: State, op: Op)
    requires Valid(s) && s.buf == []
    ensures var (s', o) := Direct(s, op);
            && Valid(s') && s'.capacity == s.capacity && s'.buf == []
            && s'.inner == s.inner + Accepted(op, o) && (op.Write? && o.Ready? ==> o.n <= |op.data|)
  {
  }

  lemma BufferedKeepsOrder(s: State, data: seq<Byte>)
    requires Valid(s) && |s.buf| + |data| <= s.capacity
    ensures var s' := s.(buf := s.buf + data); Valid(s') && Ordered(s') == Ordered(s) + Events(data)
  {
    assert (s.buf + data)[s.written..] == s.buf[s.written..] + data;
    EventsConcat(s.buf[s.written..], data);
  }

  /** Whatever the inner writer answers, a poll adds to the stream exactly what it told its caller it accepted,
      behind everything accepted before; a flush, close or seek and a large write reach the inner writer only
      when the buffer is empty. */
  lemma PollKeepsOrder(s: State, op: Op)
    requires Valid(s)
    ensures var (s', o) := Poll(s, op);
            && Valid(s') && s'.capacity == s.capacity && s.inner <= s'.inner
            && Ordered(s') == Ordered(s) + Accepted(op, o)
            && (op.Write? && o.Ready? ==> o.n <= |op.data|)
            && (o.Ready? && (!op.Write? || |op.data| >= s.capacity)
               ==> s'.buf == [] && s'.inner == Ordered(s) + Accepted(op, o))
  {
    hide FlushBuf, Direct, Events;
    FlushBufKeepsOrder(s);
    var (first, o) := if op.Write? && |s.buf| + |op.data| <= s.capacity then (s, Ready(0)) else FlushBuf(s);
    if o.Ready? {
      if op.Write? && |op.data| < s.capacity {
        BufferedKeepsOrder(first, op.data);
        assert op.data[..|op.data|] == op.data;
      } else {
        assert first.buf == [];
        EmptyBufferIsOrdered(first);
        DirectKeepsOrder(first, op);
        EmptyBufferIsOrdered(Direct(first, op).0);
      }
    }
  }

  lemma EmptyBufferIsOrdered(s: State)
    requires Valid(s) && s.buf == []
    ensures Ordered(s) == s.inner
  {
  }

  // ----- any sequence of calls -----

  /** The state after some calls, and everything they reported as accepted. */
  function Play(s: State, ops: seq<Op>): (State, seq<Event>)
    requires Valid(s)
    decreases |ops|
  {
    if ops == [] then (s, [])
    else
      PollKeepsOrder(s, ops[0]);
      var (next, o) := Poll(s, ops[0]);
      var (last, accepted) := Play(next, ops[1..]);
      (last, Accepted(ops[0], o) + accepted)
  }

  /** Bytes are neither lost, repeated nor reordered by any sequence of calls against any inner writer, and
      never overtaken by a seek, flush or close. */
  lemma {:induction false} CallsKeepOrder(s: State, ops: seq<Op>)
    requires Valid(s)
    ensures var (last, accepted) := Play(s, ops);
            Valid(last) && s.inner <= last.inner && Ordered(last) == Ordered(s) + accepted
    decreases |ops|
  {
    if ops != [] {
      hide Poll, Ordered, Accepted;
      PollKeepsOrder(s, ops[0]);
      var (next, o) := Poll(s, ops[0]);
      CallsKeepOrder(next, ops[1..]);
      var (last, accepted) := Play(next, ops[1..]);
      assert Ordered(s) + (Accepted(ops[0], o) + accepted) == Ordered(s) + Accepted(ops[0], o) + accepted;
    }
  }

  /** A writer that takes at least a byte whenever it is asked gets the whole buffer in one poll, without error. */
  lemma {:induction false} WillingWriterEmptiesBuffer(s: State)
    requires Valid(s) && |s.replies| >= |s.buf| - s.written
    requires forall i | 0 <= i < |s.buf| - s.written :: s.replies[i].Accepts? && s.replies[i].n > 0
    ensures FlushBuf(s).1 == Ready(0) && FlushBuf(s).0.inner == Ordered(s)
    decreases |s.replies|
  {
    hide Ordered, Events;
    FlushBufKeepsOrder(s);
    if s.written < |s.buf| {
      var m := Min(s.replies[0].n, |s.buf| - s.written);
      WillingWriterEmptiesBuffer(HandedOver(s.(replies := s.replies[1..]), m));
    }
  }

  // ----- the object -----

  class BufWriter {
    var inner: seq<Event>
    var buf: seq<Byte>
    var written: nat
    const capacity: nat
    var replies: seq<Reply>

    function View(): State
      reads this
    {
      State(inner, buf, written, capacity, replies)
    }

    constructor WithCapacity(capacity: nat, replies: seq<Reply>)
      ensures Valid(View()) && View() == State([], [], 0, capacity, replies)
    {
      inner, buf, written, this.capacity, this.replies := [], [], 0, capacity, replies;
    }

    method PollFlushBuf() returns (o: Outcome)
      requires Valid(View())
      modifies this
      ensures (View(), o) == FlushBuf(old(View()))
      ensures Valid(View()) && Ordered(View()) == old(Ordered(View()))
    {
      FlushBufKeepsOrder(View());
      ghost var start := View();
      o := Ready(0);
      while written < |buf|
        invariant Valid(View()) && o == Ready(0) && FlushBuf(View()) == FlushBuf(start)
        decreases |replies|
      {
        if replies == [] { return Pending; }
        var reply := replies[0];
        replies := replies[1..];
        match reply {
          case Accepts(n) =>
            var m := Min(n, |buf| - written);
            if m == 0 {
              o := Failed(WriteZero);
              break;
            }
            inner := inner + Events(buf[written..written + m]);
            written := written + m;
          case Busy => return Pending;
          case Interrupts =>
          case Fails(code) =>
            o := Failed(Other(code));
            break;
        }
      }
      if written > 0 { buf := buf[written..]; }
      written := 0;
    }

    /** One call of the inner writer on behalf of `op`. */
    method CallInner(op: Op) returns (o: Outcome)
      modifies this
      ensures (View(), o) == Direct(old(View()), op)
    {
      if replies == [] { return Pending; }
      var reply := replies[0];
      replies := replies[1..];
      match reply {
        case Accepts(n) =>
          var m := if op.Write? then Min(n, |op.data|) else n;
          inner := inner + match op {
            case Write(data) => Events(data[..m])
            case Flush => [Flushed]
            case Close => [Closed]
            case Seek(pos) => [Seeked(pos)]
          };
          o := Ready(m);
        case Busy => o := Pending;
        case Interrupts => o := Failed(Interrupted);
        case Fails(code) => o := Failed(Other(code));
      }
    }

    method PollWrite(data: seq<Byte>) returns (o: Outcome)
      requires Valid(View())
      modifies this
      ensures (View(), o) == Poll(old(View()), Write(data))
      ensures Valid(View()) && Ordered(View()) == old(Ordered(View())) + Accepted(Write(data), o)
    {
      PollKeepsOrder(View(), Write(data));
      if |buf| + |data| > capacity {
        var flushed := PollFlushBuf();
        if !flushed.Ready? { return flushed; }
      }
      if |data| >= capacity {
        o := CallInner(Write(data));
      } else {
        buf := buf + data;
        o := Ready(|data|);
      }
    }

    /** poll_flush, poll_close and poll_seek: first the buffer, then the inner writer. */
    method PollThrough(op: Op) returns (o: Outcome)
      requires Valid(View()) && !op.Write?
      modifies this
      ensures (View(), o) == Poll(old(View()), op)
      ensures Valid(View()) && Ordered(View()) == old(Ordered(View())) + Accepted(op, o)
      ensures o.Ready? ==> buf == [] && inner == old(Ordered(View())) + Accepted(op, o)
    {
      PollKeepsOrder(View(), op);
      o := PollFlushBuf();
      if o.Ready? { o := CallInner(op); }
    }
  }
}
