/** `src/io/buf_reader.rs`: a buffer of bytes read ahead of a caller.

    The inner reader has contents and a cursor; `replies` is what it will answer to the calls it gets (a read
    may be short), and when they are used up it is busy. */
module BufferedReader {
  import opened Bytes

  const I64_MIN: int := -0x8000_0000_0000_0000
  const I64_MAX: int := 0x7FFF_FFFF_FFFF_FFFF
  const U64_MAX: int := 0xFFFF_FFFF_FFFF_FFFF

  datatype Reply = Ok(n: nat) | Busy | Fails(code: nat)

  datatype State = State(contents: seq<Byte>, cursor: nat, buf: seq<Byte>, pos: nat, cap: nat, replies: seq<Reply>)

  datatype Error = InvalidSeek | Other(code: nat)

  datatype Outcome = Pending | Bytes(data: seq<Byte>) | Position(at: nat) | Failed(error: Error)

  function Unread(s: State): seq<Byte>
    requires s.pos <= s.cap <= |s.buf|
  {
    s.buf[s.pos..s.cap]
  }

  /** The unread bytes are the ones just before the inner cursor. */
  ghost predicate Valid(s: State) {
    && s.pos <= s.cap <= |s.buf| <= I64_MAX
    && s.cap - s.pos <= s.cursor <= U64_MAX && |s.contents| <= U64_MAX
    && (s.pos < s.cap ==> s.cursor <= |s.contents|)
    && (s.pos < s.cap ==> Unread(s) == s.contents[s.cursor - (s.cap - s.pos)..s.cursor])
  }

  /** Where the caller is in the inner reader. */
  function Logical(s: State): int { s.cursor - (s.cap - s.pos) }

  function Discarded(s: State): State { s.(pos := 0, cap := 0) }

  // ----- the inner reader -----

  /** One read of at most `len` bytes. */
  function ReadInner(s: State, len: nat): (State, Outcome) {
    if s.replies == [] then (s, Pending)
    else
      var next := s.(replies := s.replies[1..]);
      match s.replies[0]
      case Ok(n) =>
        var left := if s.cursor <= |s.contents| then |s.contents| - s.cursor else 0;
        var m := Min(Min(n, len), left);
        (next.(cursor := s.cursor + m), Bytes(if m == 0 then [] else s.contents[s.cursor..s.cursor + m]))
      case Busy => (next, Pending)
      case Fails(code) => (next, Failed(Other(code)))
  }

  function Target(s: State, pos: SeekFrom): int {
    match pos
    case Start(offset) => offset
    case Current(diff) => s.cursor + diff
    case End(fromEnd) => |s.contents| + fromEnd
  }

  function SeekInner(s: State, pos: SeekFrom): (State, Outcome) {
    if s.replies == [] then (s, Pending)
    else
      var next := s.(replies := s.replies[1..]);
      match s.replies[0]
      case Ok(_) =>
        if 0 <= Target(s, pos) <= U64_MAX then (next.(cursor := Target(s, pos)), Position(Target(s, pos)))
        else (next, Failed(InvalidSeek))
      case Busy => (next, Pending)
      case Fails(code) => (next, Failed(Other(code)))
  }

  // ----- the polls -----

  function FillBuf(s: State): (State, Outcome)
    requires s.pos <= s.cap <= |s.buf|
  {
    if s.pos < s.cap then (s, Bytes(Unread(s)))
    else
      var (next, o) := ReadInner(s, |s.buf|);
      if o.Bytes? && |o.data| <= |s.buf| then (next.(buf := o.data + s.buf[|o.data|..], pos := 0, cap := |o.data|), o)
      else (next, o)
  }

  function Consumed(s: State, amt: nat): State { s.(pos := Min(s.pos + amt, s.cap)) }

  function Read(s: State, len: nat): (State, Outcome)
    requires s.pos <= s.cap <= |s.buf|
  {
    if s.pos == s.cap && len >= |s.buf| then
      var (next, o) := ReadInner(s, len);
      (if o.Pending? then next else Discarded(next), o)
    else
      var (next, o) := FillBuf(s);
      if !o.Bytes? then (next, o)
      else
        var n := Min(len, |o.data|);
        (Consumed(next, n), Bytes(o.data[..n]))
  }

  function Seek(s: State, pos: SeekFrom): (State, Outcome)
    requires s.pos <= s.cap
  {
    if pos.Current? then
      var remainder := s.cap - s.pos;
      if pos.diff - remainder >= I64_MIN then Settled(SeekInner(s, Current(pos.diff - remainder)))
      else
        var (back, first) := SeekInner(s, Current(-remainder));
        if !first.Position? then (back, first) else Settled(SeekInner(Discarded(back), pos))
    else Settled(SeekInner(s, pos))
  }

  /** A finished seek throws the buffer away. */
  function Settled(result: (State, Outcome)): (State, Outcome) {
    (if result.1.Position? then Discarded(result.0) else result.0, result.1)
  }

  // ----- what they mean -----

  /** The bytes really are those at the caller's position. */
  ghost predicate At(contents: seq<Byte>, at: int, data: seq<Byte>) {
    data != [] ==> 0 <= at && at + |data| <= |contents| && data == contents[at..at + |data|]
  }

  /** The inner reader said that nothing is left, or nothing is. */
  predicate InnerEnded(s: State) {
    s.replies != [] && s.replies[0].Ok? && (s.replies[0].n == 0 || s.cursor >= |s.contents|)
  }

  lemma WithinBuffer(s: State)
    requires Valid(s)
    ensures s.pos <= s.cap <= |s.buf|
  {
  }

  lemma ReadInnerDelivers(s: State, len: nat)
    requires Valid(s) && s.pos == s.cap
    ensures var (s', o) := ReadInner(s, len);
            && s' == s.(cursor := s'.cursor, replies := s'.replies) && !o.Position? && s'.cursor <= U64_MAX
            && (o.Bytes? ==> |o.data| <= len && At(s.contents, s.cursor, o.data) && s'.cursor == s.cursor + |o.data|)
            && (!o.Bytes? ==> s'.cursor == s.cursor)
            && (o == Bytes([]) && len > 0 ==> InnerEnded(s))
  {
  }

  lemma EmptyIsValid(s: State, at: nat)
    requires Valid(s) && at <= U64_MAX
    ensures Valid(Discarded(s.(cursor := at)))
    ensures s.pos == s.cap ==> Valid(s.(cursor := at))
  {
  }

  lemma FillBufShowsNext(s: State)
    requires Valid(s)
    ensures var (s', o) := FillBuf(s);
            && Valid(s') && s'.contents == s.contents && Logical(s') == Logical(s) && |s'.buf| == |s.buf|
            && !o.Position?
            && (o.Bytes? ==> o.data == Unread(s') && At(s.contents, Logical(s), o.data))
            && (!o.Bytes? ==> s' == s.(replies := s'.replies))
            && (o == Bytes([]) && |s.buf| > 0 ==> s.pos == s.cap && InnerEnded(s))
  {
    if s.pos == s.cap {
      ReadInnerDelivers(s, |s.buf|);
      hide ReadInner;
      var (s', o) := FillBuf(s);
      if o.Bytes? { assert s'.buf[0..s'.cap] == o.data; }
    }
  }

  lemma ConsumeAdvances(s: State, amt: nat)
    requires Valid(s)
    ensures var s' := Consumed(s, amt);
            Valid(s') && s'.contents == s.contents && Logical(s') == Logical(s) + Min(amt, s.cap - s.pos)
            && |s'.buf| == |s.buf|
  {
    var s' := Consumed(s, amt);
    if s'.pos < s'.cap {
      assert Unread(s') == Unread(s)[amt..];
    }
  }

  lemma AtPrefix(contents: seq<Byte>, at: int, data: seq<Byte>, n: nat)
    requires At(contents, at, data) && n <= |data|
    ensures At(contents, at, data[..n])
  {
    if n > 0 { assert data[..n] == contents[at..at + n]; }
  }

  lemma BypassDelivers(s: State, len: nat)
    requires Valid(s) && s.pos == s.cap
    ensures var (next, o) := ReadInner(s, len);
            var s' := if o.Pending? then next else Discarded(next);
            && Valid(s') && s'.contents == s.contents && |s'.buf| == |s.buf| && !o.Position?
            && (o.Bytes? ==> |o.data| <= len && At(s.contents, Logical(s), o.data)
                             && Logical(s') == Logical(s) + |o.data|)
            && (!o.Bytes? ==> Logical(s') == Logical(s))
            && (o == Bytes([]) && len > 0 ==> InnerEnded(s))
  {
    hide At, Valid, ReadInner, InnerEnded;
    ReadInnerDelivers(s, len);
    RepliesDoNotMatter(s, ReadInner(s, len).0.replies);
    EmptyIsValid(s.(replies := ReadInner(s, len).0.replies), ReadInner(s, len).0.cursor);
  }

  /** A read delivers the bytes at the caller's position and moves it past them; anything else leaves it; and
      it delivers nothing only when nothing was buffered and the inner reader has ended. */
  lemma ReadDelivers(s: State, len: nat)
    requires Valid(s)
    ensures var (s', o) := Read(s, len);
            && Valid(s') && s'.contents == s.contents && |s'.buf| == |s.buf| && !o.Position?
            && (o.Bytes? ==> |o.data| <= len && At(s.contents, Logical(s), o.data)
                             && Logical(s') == Logical(s) + |o.data|)
            && (!o.Bytes? ==> Logical(s') == Logical(s))
            && (o == Bytes([]) && len > 0 ==> s.pos == s.cap && InnerEnded(s))
  {
    hide At, Valid, ReadInner, FillBuf, InnerEnded, Logical;
    WithinBuffer(s);
    if s.pos == s.cap && len >= |s.buf| {
      BypassDelivers(s, len);
    } else {
      FillBufShowsNext(s);
      var (next, o) := FillBuf(s);
      WithinBuffer(next);
      if o.Bytes? {
        ConsumeAdvances(next, Min(len, |o.data|));
        AtPrefix(s.contents, Logical(s), o.data, Min(len, |o.data|));
      }
    }
  }

  lemma SeekInnerLands(s: State, pos: SeekFrom)
    requires s.cursor <= U64_MAX
    ensures var (s', o) := SeekInner(s, pos);
            && s' == s.(cursor := s'.cursor, replies := s'.replies) && !o.Bytes? && s'.cursor <= U64_MAX
            && (o.Position? ==> s'.cursor == o.at == Target(s, pos))
            && (!o.Position? ==> s'.cursor == s.cursor)
            && (o == Failed(InvalidSeek) ==> !(0 <= Target(s, pos) <= U64_MAX))
  {
  }

  lemma RepliesDoNotMatter(s: State, replies: seq<Reply>)
    requires Valid(s)
    ensures Valid(s.(replies := replies))
  {
  }

  /** A finished seek lands where the caller asked, counted from the caller's own position, with the inner
      reader there too; an unfinished or failed one leaves the caller where it was, even between two seeks;
      only a destination out of range is refused by the arithmetic. */
  lemma SeekLands(s: State, pos: SeekFrom)
    requires Valid(s) && (pos.Current? ==> I64_MIN <= pos.diff <= I64_MAX)
    ensures var (s', o) := Seek(s, pos);
            && Valid(s') && s'.contents == s.contents && s'.buf == s.buf && !o.Bytes?
            && (o.Position? ==> Unread(s') == [] && s'.cursor == o.at == Destination(s, pos))
            && (!o.Position? ==> Logical(s') == Logical(s))
            && (o == Failed(InvalidSeek) ==> !(0 <= Destination(s, pos) <= U64_MAX))
  {
    WithinBuffer(s);
    if pos.Current? && pos.diff - (s.cap - s.pos) < I64_MIN {
      TwoSeeksLand(s, pos.diff);
    } else {
      hide SeekInner, Valid;
      OneSeekLands(s, if pos.Current? then Current(pos.diff - (s.cap - s.pos)) else pos);
    }
  }

  /** One seek of the inner reader, after which the buffer is thrown away. */
  lemma OneSeekLands(s: State, asked: SeekFrom)
    requires Valid(s)
    ensures var (s', o) := Settled(SeekInner(s, asked));
            && Valid(s') && s'.contents == s.contents && s'.buf == s.buf && !o.Bytes?
            && (o.Position? ==> s'.pos == s'.cap == 0 && s'.cursor == o.at == Target(s, asked))
            && (!o.Position? ==> Logical(s') == Logical(s))
            && (o == Failed(InvalidSeek) ==> !(0 <= Target(s, asked) <= U64_MAX))
  {
    hide SeekInner, Valid, Target;
    CursorInRange(s);
    SeekInnerLands(s, asked);
    var (next, o) := SeekInner(s, asked);
    RepliesDoNotMatter(s, next.replies);
    EmptyIsValid(s.(replies := next.replies), next.cursor);
  }

  lemma CursorInRange(s: State)
    requires Valid(s)
    ensures s.cap - s.pos <= s.cursor <= U64_MAX
  {
  }

  lemma TwoSeeksLand(s: State, diff: int)
    requires Valid(s) && I64_MIN <= diff && diff - (s.cap - s.pos) < I64_MIN
    ensures var (s', o) := Seek(s, Current(diff));
            && Valid(s') && s'.contents == s.contents && s'.buf == s.buf && !o.Bytes?
            && (o.Position? ==> Unread(s') == [] && s'.cursor == o.at == Logical(s) + diff)
            && (!o.Position? ==> Logical(s') == Logical(s))
            && (o == Failed(InvalidSeek) ==> !(0 <= Logical(s) + diff <= U64_MAX))
  {
    hide SeekInner, Valid;
    WithinBuffer(s);
    CursorInRange(s);
    var remainder := s.cap - s.pos;
    SeekInnerLands(s, Current(-remainder));
    var (back, first) := SeekInner(s, Current(-remainder));
    RepliesDoNotMatter(s, back.replies);
    if first.Position? {
      EmptyIsValid(s.(replies := back.replies), back.cursor);
      OneSeekLands(Discarded(back), Current(diff));
    }
  }

  function Destination(s: State, pos: SeekFrom): int {
    match pos
    case Start(offset) => offset
    case Current(diff) => Logical(s) + diff
    case End(fromEnd) => |s.contents| + fromEnd
  }

  // ----- whole operations and any sequence of them -----

  /** The seek future: polls until the seek is finished or nothing more is answered. */
  function SeekFully(s: State, pos: SeekFrom): (State, Outcome)
    requires s.pos <= s.cap
    decreases |s.replies|
  {
    var (next, o) := Seek(s, pos);
    if o.Pending? && next.pos <= next.cap && |next.replies| < |s.replies| then SeekFully(next, pos) else (next, o)
  }

  /** However often it is interrupted, a seek ends at the caller's original position plus the distance asked
      for, or leaves the caller there. */
  lemma {:induction false} SeekFullyLands(s: State, pos: SeekFrom)
    requires Valid(s) && (pos.Current? ==> I64_MIN <= pos.diff <= I64_MAX)
    ensures var (s', o) := SeekFully(s, pos);
            && Valid(s') && s'.contents == s.contents
            && (o.Position? ==> o.at == Destination(s, pos) && s'.cursor == o.at && Logical(s') == o.at)
            && (!o.Position? ==> Logical(s') == Logical(s))
    decreases |s.replies|
  {
    SeekLands(s, pos);
    hide Seek, Valid;
    var (next, o) := Seek(s, pos);
    if o.Pending? && next.pos <= next.cap && |next.replies| < |s.replies| {
      SeekFullyLands(next, pos);
    }
  }

  datatype Op = ReadOp(len: nat) | FillOp | ConsumeOp(amt: nat) | SeekOp(pos: SeekFrom)

  /** Offsets of a seek are 64-bit integers. */
  predicate Fits(op: Op) { op.SeekOp? && op.pos.Current? ==> I64_MIN <= op.pos.diff <= I64_MAX }

  /** The state after a call, and what the caller gets: bytes it takes, bytes it is shown, a position, or nothing. */
  datatype Result = Took(data: seq<Byte>) | Shown(data: seq<Byte>) | Sought(at: nat) | Nothing

  function Do(s: State, op: Op): (State, Result)
    requires s.pos <= s.cap <= |s.buf|
  {
    match op
    case ReadOp(len) =>
      var (next, o) := Read(s, len);
      (next, if o.Bytes? then Took(o.data) else Nothing)
    case FillOp =>
      var (next, o) := FillBuf(s);
      (next, if o.Bytes? then Shown(o.data) else Nothing)
    case ConsumeOp(amt) => (Consumed(s, amt), Took(Unread(s)[..Min(amt, s.cap - s.pos)]))
    case SeekOp(pos) =>
      var (next, o) := Seek(s, pos);
      (next, if o.Position? then Sought(o.at) else Nothing)
  }

  // ----- a plain reader -----

  function PlainDestination(contents: seq<Byte>, at: int, pos: SeekFrom): int {
    match pos
    case Start(offset) => offset
    case Current(diff) => at + diff
    case End(fromEnd) => |contents| + fromEnd
  }

  /** What a reader with contents and one position does when a call on it ends in `r`, and where it then is. */
  ghost predicate PlainDoes(contents: seq<Byte>, at: int, op: Op, r: Result, after: int) {
    match r
    case Took(data) =>
      && (op.ReadOp? || op.ConsumeOp?) && |data| <= (if op.ReadOp? then op.len else op.amt)
      && At(contents, at, data) && after == at + |data|
    case Shown(data) => op.FillOp? && At(contents, at, data) && after == at
    case Sought(to) => op.SeekOp? && to == PlainDestination(contents, at, op.pos) && after == to
    case Nothing => after == at
  }

  lemma DoIsPlain(s: State, op: Op)
    requires Valid(s) && Fits(op)
    ensures var (s', r) := Do(s, op);
            Valid(s') && s'.contents == s.contents && PlainDoes(s.contents, Logical(s), op, r, Logical(s'))
  {
    WithinBuffer(s);
    match op
    case ReadOp(len) =>
      hide Valid, Read, At;
      ReadDelivers(s, len);
    case FillOp =>
      hide Valid, FillBuf, At;
      FillBufShowsNext(s);
    case ConsumeOp(amt) => ConsumeTakes(s, amt);
    case SeekOp(pos) =>
      hide Valid, Seek;
      SeekLands(s, pos);
      if Do(s, op).1.Sought? { EmptyLogical(Do(s, op).0); }
  }

  lemma ConsumeTakes(s: State, amt: nat)
    requires Valid(s)
    ensures s.pos <= s.cap <= |s.buf| && At(s.contents, Logical(s), Unread(s)[..Min(amt, s.cap - s.pos)])
    ensures var s' := Consumed(s, amt);
            Valid(s') && s'.contents == s.contents && Logical(s') == Logical(s) + Min(amt, s.cap - s.pos)
  {
    ConsumeAdvances(s, amt);
    AtPrefix(s.contents, Logical(s), Unread(s), Min(amt, s.cap - s.pos));
  }

  lemma EmptyLogical(s: State)
    requires s.pos <= s.cap <= |s.buf| && Unread(s) == []
    ensures Logical(s) == s.cursor
  {
    assert |Unread(s)| == s.cap - s.pos;
  }

  /** Any calls in a row: the state at the end, and what each of them gave. */
  function Play(s: State, ops: seq<Op>): (State, seq<Result>)
    requires Valid(s) && forall op | op in ops :: Fits(op)
    decreases |ops|
  {
    if ops == [] then (s, [])
    else
      WithinBuffer(s);
      DoIsPlain(s, ops[0]);
      var (next, r) := Do(s, ops[0]);
      var (last, rs) := Play(next, ops[1..]);
      (last, [r] + rs)
  }

  /** A plain reader goes from one position to another with these results. */
  ghost predicate PlainPlays(contents: seq<Byte>, at: int, ops: seq<Op>, rs: seq<Result>, last: int)
    decreases |ops|
  {
    if ops == [] || rs == [] then ops == [] && rs == [] && last == at
    else exists after ::
           PlainDoes(contents, at, ops[0], rs[0], after) && PlainPlays(contents, after, ops[1..], rs[1..], last)
  }

  /** Over any calls, seeks included, and whatever the inner reader answers, the buffered reader gives its caller
      what a reader with contents and one position gives, from the caller's own position on. */
  lemma {:induction false} PlayIsPlain(s: State, ops: seq<Op>)
    requires Valid(s) && forall op | op in ops :: Fits(op)
    ensures var (last, rs) := Play(s, ops);
            && Valid(last) && last.contents == s.contents
            && PlainPlays(s.contents, Logical(s), ops, rs, Logical(last))
    decreases |ops|
  {
    if ops != [] {
      hide Do, Valid, Logical, PlainDoes, Play;
      PlayUnfolds(s, ops);
      DoIsPlain(s, ops[0]);
      var (next, r) := Do(s, ops[0]);
      PlayIsPlain(next, ops[1..]);
      var (last, rs) := Play(next, ops[1..]);
      assert ([r] + rs)[1..] == rs;
    }
  }

  lemma PlayUnfolds(s: State, ops: seq<Op>)
    requires Valid(s) && ops != [] && forall op | op in ops :: Fits(op)
    ensures s.pos <= s.cap <= |s.buf| && Valid(Do(s, ops[0]).0) && Do(s, ops[0]).0.contents == s.contents
    ensures var (next, r) := Do(s, ops[0]);
            Play(s, ops) == (Play(next, ops[1..]).0, [r] + Play(next, ops[1..]).1)
  {
    hide Do, Valid;
    WithinBuffer(s);
    DoIsPlain(s, ops[0]);
  }

  /** All bytes taken, in order. */
  function AllTaken(rs: seq<Result>): seq<Byte> {
    if rs == [] then [] else (if rs[0].Took? then rs[0].data else []) + AllTaken(rs[1..])
  }

  /** Between two seeks, what the caller took, followed by what is buffered, is a stretch of the inner contents
      without gap or repetition. */
  lemma {:induction false} DeliveredIsPrefix(s: State, ops: seq<Op>)
    requires Valid(s) && forall op | op in ops :: !op.SeekOp?
    ensures var (last, rs) := Play(s, ops);
            && Valid(last) && last.contents == s.contents && Logical(last) == Logical(s) + |AllTaken(rs)|
            && At(s.contents, Logical(s), AllTaken(rs) + Unread(last))
    decreases |ops|
  {
    hide Do, At, Logical, Unread, Valid, Play, AllTaken;
    if ops == [] {
      NothingPlayed(s);
    } else {
      PlayUnfolds(s, ops);
      DoTakes(s, ops[0]);
      var (next, r) := Do(s, ops[0]);
      DeliveredIsPrefix(next, ops[1..]);
      var (last, rs) := Play(next, ops[1..]);
      WithinBuffer(last);
      AllTakenCons(r, rs);
      AtJoins(s.contents, Logical(s), if r.Took? then r.data else [], AllTaken(rs), Unread(last));
    }
  }

  lemma NothingPlayed(s: State)
    requires Valid(s)
    ensures s.pos <= s.cap <= |s.buf| && Play(s, []) == (s, []) && AllTaken([]) == []
    ensures At(s.contents, Logical(s), AllTaken([]) + Unread(s))
  {
    assert [] + Unread(s) == Unread(s);
  }

  lemma AllTakenCons(r: Result, rs: seq<Result>)
    ensures AllTaken([r] + rs) == (if r.Took? then r.data else []) + AllTaken(rs)
  {
    assert ([r] + rs)[1..] == rs;
  }

  lemma DoTakes(s: State, op: Op)
    requires Valid(s) && !op.SeekOp?
    ensures s.pos <= s.cap <= |s.buf|
    ensures var (s', r) := Do(s, op);
            var data := if r.Took? then r.data else [];
            At(s.contents, Logical(s), data) && Logical(s') == Logical(s) + |data|
  {
    WithinBuffer(s);
    DoIsPlain(s, op);
    hide Do, Valid;
  }

  lemma AtJoins(contents: seq<Byte>, at: int, a: seq<Byte>, b: seq<Byte>, c: seq<Byte>)
    requires At(contents, at, a) && At(contents, at + |a|, b + c)
    ensures At(contents, at, a + b + c)
  {
    assert a + b + c == a + (b + c);
    if a != [] && b + c != [] {
      assert contents[at..at + |a| + |b + c|] == contents[at..at + |a|] + contents[at + |a|..at + |a| + |b + c|];
    }
  }

  // ----- the object -----

  class BufReader {
    const contents: seq<Byte>
    var cursor: nat
    const buf: array<Byte>
    var pos: nat
    var cap: nat
    var replies: seq<Reply>

    ghost function View(): State
      reads this, buf
    {
      State(contents, cursor, buf[..], pos, cap, replies)
    }

    constructor WithCapacity(capacity: nat, contents: seq<Byte>, replies: seq<Reply>)
      requires capacity <= I64_MAX && |contents| <= U64_MAX
      ensures fresh(buf) && View() == State(contents, 0, seq(capacity, i => 0), 0, 0, replies) && Valid(View())
    {
      this.contents, this.replies := contents, replies;
      cursor, pos, cap := 0, 0, 0;
      buf := new Byte[capacity](_ => 0);
    }

    /** One read of the inner reader. */
    method CallRead(len: nat) returns (o: Outcome)
      modifies `cursor, `replies
      ensures (View(), o) == ReadInner(old(View()), len)
    {
      if replies == [] { return Pending; }
      var reply := replies[0];
      replies := replies[1..];
      match reply {
        case Ok(n) =>
          var left := if cursor <= |contents| then |contents| - cursor else 0;
          var m := Min(Min(n, len), left);
          o := Bytes(if m == 0 then [] else contents[cursor..cursor + m]);
          cursor := cursor + m;
        case Busy => o := Pending;
        case Fails(code) => o := Failed(Other(code));
      }
    }

    method CallSeek(where: SeekFrom) returns (o: Outcome)
      modifies `cursor, `replies
      ensures (View(), o) == SeekInner(old(View()), where)
    {
      if replies == [] { return Pending; }
      var reply := replies[0];
      replies := replies[1..];
      match reply {
        case Ok(_) =>
          var target := match where
            case Start(offset) => offset
            case Current(diff) => cursor + diff
            case End(fromEnd) => |contents| + fromEnd;
          if target < 0 || U64_MAX < target { return Failed(InvalidSeek); }
          cursor := target;
          o := Position(target);
        case Busy => o := Pending;
        case Fails(code) => o := Failed(Other(code));
      }
    }

    method DiscardBuffer()
      modifies `pos, `cap
      ensures View() == Discarded(old(View()))
    {
      pos, cap := 0, 0;
    }

    method Consume(amt: nat)
      requires Valid(View())
      modifies `pos
      ensures View() == Consumed(old(View()), amt) && Valid(View())
    {
      ConsumeAdvances(View(), amt);
      pos := Min(pos + amt, cap);
    }

    /** What the inner reader leaves in the buffer it was given. */
    method CopyIn(data: seq<Byte>)
      requires |data| <= buf.Length
      modifies buf
      ensures buf[..] == data + old(buf[..])[|data|..]
    {
      ghost var start := buf[..];
      forall i | 0 <= i < |data| { buf[i] := data[i]; }
      assert buf[..] == data + start[|data|..];
    }

    method PollFillBuf() returns (o: Outcome)
      requires Valid(View())
      modifies this, buf
      ensures (View(), o) == FillBuf(old(View()))
      ensures Valid(View()) && Logical(View()) == old(Logical(View()))
      ensures o.Bytes? ==> At(contents, Logical(View()), o.data) && o.data == buf[pos..cap]
    {
      FillBufShowsNext(View());
      ReadInnerDelivers(View().(pos := 0, cap := 0), buf.Length);
      hide At, Valid;
      if pos >= cap {
        o := CallRead(buf.Length);
        if !o.Bytes? { return; }
        CopyIn(o.data);
        cap := |o.data|;
        pos := 0;
      }
      o := Bytes(buf[pos..cap]);
    }

    method PollRead(len: nat) returns (o: Outcome)
      requires Valid(View())
      modifies this, buf
      ensures (View(), o) == Read(old(View()), len)
      ensures Valid(View())
      ensures if o.Bytes? then At(contents, old(Logical(View())), o.data)
                               && Logical(View()) == old(Logical(View())) + |o.data|
              else Logical(View()) == old(Logical(View()))
    {
      ReadDelivers(View(), len);
      hide At;
      if pos == cap && len >= buf.Length {
        o := CallRead(len);
        if !o.Pending? { DiscardBuffer(); }
        return;
      }
      o := PollFillBuf();
      if o.Bytes? {
        var n := Min(len, |o.data|);
        Consume(n);
        o := Bytes(o.data[..n]);
      }
    }

    method PollSeek(where: SeekFrom) returns (o: Outcome)
      requires Valid(View()) && (where.Current? ==> I64_MIN <= where.diff <= I64_MAX)
      modifies this
      ensures (View(), o) == Seek(old(View()), where)
      ensures Valid(View())
      ensures if o.Position? then cursor == o.at == old(Destination(View(), where)) && pos == cap
              else Logical(View()) == old(Logical(View()))
    {
      SeekLands(View(), where);
      hide Valid;
      if where.Current? {
        var remainder := cap - pos;
        if where.diff - remainder >= I64_MIN {
          o := CallSeek(Current(where.diff - remainder));
        } else {
          o := CallSeek(Current(-remainder));
          if !o.Position? { return; }
          DiscardBuffer();
          o := CallSeek(where);
        }
      } else {
        o := CallSeek(where);
      }
      if o.Position? { DiscardBuffer(); }
    }
  }
}
