/** `src/io/buf_read/mod.rs` (read_until_internal) and `src/io/buf_read/split.rs`: cutting a byte stream at a
    delimiter, while the reader hands out chunks of any size, is busy, or fails and goes on.

    `rest` is what the reader has not handed out yet; `replies` is what it will answer to poll_fill_buf, and
    when they are used up it is busy. */
module DelimiterSplit {
  import opened Bytes
  import opened Counting

  datatype Reply = Chunk(n: nat) | Busy | Fails(code: nat)

  datatype State = State(rest: seq<Byte>, buf: seq<Byte>, read: nat, delim: Byte, replies: seq<Reply>)

  datatype Outcome = Pending | Failed(code: nat) | Done(n: nat)

  datatype Poll = Waiting | Item(bytes: seq<Byte>) | ErrorItem(code: nat) | End

  /** Every byte read so far is kept, and none of them is the delimiter. */
  predicate Valid(s: State) { s.read == |s.buf| && s.delim !in s.buf }

  /** Position of the first `b`, or the length. */
  function FirstIndex(bytes: seq<Byte>, b: Byte): (i: nat)
    ensures i <= |bytes| && b !in bytes[..i] && (i < |bytes| ==> bytes[i] == b)
  {
    if bytes == [] || bytes[0] == b then 0
    else
      var i := 1 + FirstIndex(bytes[1..], b);
      assert bytes[..i] == [bytes[0]] + bytes[1..][..i - 1];
      i
  }

  /** How much the reader shows: at least a byte unless nothing is left. */
  function Shown(rest: seq<Byte>, n: nat): (m: nat)
    ensures m <= |rest| && (m == 0 <==> rest == [])
  {
    if rest == [] then 0 else Max(1, Min(n, |rest|))
  }

  /** The bytes shown; how many of them are used; the state after using them. */
  function Available(s: State, n: nat): seq<Byte> { s.rest[..Shown(s.rest, n)] }

  predicate Found(s: State, n: nat) { FirstIndex(Available(s, n), s.delim) < |Available(s, n)| }

  function Used(s: State, n: nat): (used: nat)
    ensures used <= |Available(s, n)|
  {
    if Found(s, n) then FirstIndex(Available(s, n), s.delim) + 1 else |Available(s, n)|
  }

  function Taken(s: State, n: nat): State {
    s.(buf := s.buf + Available(s, n)[..Used(s, n)], rest := s.rest[Used(s, n)..], read := s.read + Used(s, n))
  }

  function ReadUntil(s: State): (State, Outcome)
    decreases |s.replies|
  {
    if s.replies == [] then (s, Pending)
    else
      var next := s.(replies := s.replies[1..]);
      match s.replies[0]
      case Busy => (next, Pending)
      case Fails(code) => (next, Failed(code))
      case Chunk(n) =>
        var taken := Taken(next, n);
        if Found(next, n) || Used(next, n) == 0 then (taken.(read := 0), Done(taken.read)) else ReadUntil(taken)
  }

  function PollNext(s: State): (State, Poll) {
    var (next, o) := ReadUntil(s);
    match o
    case Pending => (next, Waiting)
    case Failed(code) => (next, ErrorItem(code))
    case Done(n) =>
      if n == 0 && next.buf == [] then (next, Poll.End)
      else if next.buf != [] && next.buf[|next.buf| - 1] == s.delim
      then (next.(buf := []), Item(next.buf[..|next.buf| - 1]))
      else (next.(buf := []), Item(next.buf))
  }

  // ----- the pure split -----

  /** The pieces of a byte string between delimiters; a delimiter at the very end starts no further piece. */
  function Pieces(src: seq<Byte>, delim: Byte): seq<seq<Byte>>
    decreases |src|
  {
    if src == [] then []
    else
      var i := FirstIndex(src, delim);
      if i == |src| then [src] else [src[..i]] + Pieces(src[i + 1..], delim)
  }

  /** Every piece with a delimiter behind it. */
  function Joined(pieces: seq<seq<Byte>>, delim: Byte): seq<Byte> {
    if pieces == [] then [] else pieces[0] + [delim] + Joined(pieces[1..], delim)
  }

  lemma {:induction false} FirstIndexIs(bytes: seq<Byte>, b: Byte, i: nat)
    requires i <= |bytes| && b !in bytes[..i] && (i < |bytes| ==> bytes[i] == b)
    ensures FirstIndex(bytes, b) == i
  {
    if i > 0 {
      assert bytes[0] in bytes[..i] && bytes[1..][..i - 1] == bytes[..i][1..];
      FirstIndexIs(bytes[1..], b, i - 1);
    }
  }

  /** Splitting and joining again gives back the source, up to one delimiter at its end; no piece contains the
      delimiter. */
  lemma {:induction false} JoinedPieces(src: seq<Byte>, delim: Byte)
    ensures Joined(Pieces(src, delim), delim) == if src == [] || src[|src| - 1] == delim then src else src + [delim]
    ensures forall p | p in Pieces(src, delim) :: delim !in p
    decreases |src|
  {
    if src != [] {
      var i := FirstIndex(src, delim);
      hide FirstIndex;
      if i == |src| {
        assert src[..i] == src;
        assert Joined([src], delim) == src + [delim] + Joined([], delim);
      } else {
        JoinedPieces(src[i + 1..], delim);
        assert src == src[..i] + [delim] + src[i + 1..];
        assert ([src[..i]] + Pieces(src[i + 1..], delim))[1..] == Pieces(src[i + 1..], delim);
      }
    }
  }

  /** Any pieces without the delimiter come back from their own join. */
  lemma {:induction false} PiecesOfJoined(pieces: seq<seq<Byte>>, delim: Byte)
    requires forall p | p in pieces :: delim !in p
    ensures Pieces(Joined(pieces, delim), delim) == pieces
  {
    if pieces != [] {
      var src := Joined(pieces, delim);
      assert src[..|pieces[0]|] == pieces[0] && src[|pieces[0]|] == delim;
      FirstIndexIs(src, delim, |pieces[0]|);
      assert src[|pieces[0]| + 1..] == Joined(pieces[1..], delim);
      PiecesOfJoined(pieces[1..], delim);
    }
  }

  // ----- what a poll does to the stream -----

  /** What is still to be cut: the part read already, and the rest. */
  function Source(s: State): seq<Byte> { s.buf + s.rest }

  /** A finished buffer ends with its only delimiter, or the stream ended. */
  predicate Cut(buf: seq<Byte>, rest: seq<Byte>, delim: Byte) {
    if delim in buf then buf[|buf| - 1] == delim && delim !in buf[..|buf| - 1] else rest == []
  }

  lemma TakenKeepsSource(s: State, n: nat)
    ensures Source(Taken(s, n)) == Source(s)
  {
    var available, used := Available(s, n), Used(s, n);
    hide Found, Used;
    assert s.rest == available[..used] + s.rest[used..];
  }

  lemma TakenKeepsReplies(s: State, n: nat)
    ensures Taken(s, n).replies == s.replies
  {
  }

  lemma TakenIsCut(s: State, n: nat)
    requires Valid(s) && Found(s, n)
    ensures var taken := Taken(s, n); Cut(taken.buf, taken.rest, s.delim) && taken.read == |taken.buf|
  {
    var available, used, taken := Available(s, n), Used(s, n), Taken(s, n);
    hide FirstIndex, Available;
    assert taken.buf[..|taken.buf| - 1] == s.buf + available[..used - 1];
  }

  lemma TakenIsAll(s: State, n: nat)
    requires Valid(s) && !Found(s, n)
    ensures var taken := Taken(s, n);
            Valid(taken) && (Used(s, n) == 0 ==> Cut(taken.buf, taken.rest, s.delim))
  {
    var available := Available(s, n);
    hide FirstIndex;
    assert available[..|available|] == available == available[..FirstIndex(available, s.delim)];
  }

  lemma TakenMoves(s: State, n: nat)
    requires Valid(s)
    ensures var taken := Taken(s, n);
            && Source(taken) == Source(s) && taken.read == |taken.buf| && taken.delim == s.delim
            && taken.replies == s.replies
            && (Found(s, n) || Used(s, n) == 0 ==> Cut(taken.buf, taken.rest, s.delim))
            && (!Found(s, n) ==> Valid(taken))
  {
    hide Found, Used, Cut, Available;
    TakenKeepsSource(s, n);
    if Found(s, n) { TakenIsCut(s, n); } else { TakenIsAll(s, n); }
  }

  /** read_until_internal moves bytes from the reader to the buffer: on completion up to and including the
      first delimiter, or to the end of the stream; otherwise it stops before the delimiter. */
  lemma {:induction false} ReadUntilMoves(s: State)
    requires Valid(s)
    ensures var (s', o) := ReadUntil(s);
            && s'.delim == s.delim && Source(s') == Source(s) && |s'.replies| <= |s.replies|
            && (!o.Done? ==> Valid(s'))
            && (o.Done? ==> o.n == |s'.buf| && s'.read == 0 && |s'.replies| < |s.replies|
                            && Cut(s'.buf, s'.rest, s.delim))
    decreases |s.replies|
  {
    if s.replies != [] && s.replies[0].Chunk? {
      hide Taken, Found, Used, Cut;
      var next, n := s.(replies := s.replies[1..]), s.replies[0].n;
      TakenMoves(next, n);
      if !Found(next, n) && Used(next, n) > 0 { ReadUntilMoves(Taken(next, n)); }
    }
  }

  lemma CutIsPiece(buf: seq<Byte>, rest: seq<Byte>, delim: Byte)
    requires buf != [] && Cut(buf, rest, delim)
    ensures var last := |buf| - 1;
            Pieces(buf + rest, delim) == [if buf[last] == delim then buf[..last] else buf] + Pieces(rest, delim)
  {
    var src, last := buf + rest, |buf| - 1;
    hide FirstIndex;
    if delim in buf {
      assert src[..last] == buf[..last] && src[last] == delim && src[last + 1..] == rest;
      FirstIndexIs(src, delim, last);
    } else {
      assert src == buf == src[..|src|];
      FirstIndexIs(src, delim, |src|);
    }
  }

  /** A poll yields exactly the next piece of the pure split, or nothing at all. */
  lemma PollNextYields(s: State)
    requires Valid(s)
    ensures var (s', p) := PollNext(s);
            && Valid(s') && s'.delim == s.delim && |s'.replies| <= |s.replies|
            && (p.Item? ==> Pieces(Source(s), s.delim) == [p.bytes] + Pieces(Source(s'), s.delim)
                            && |s'.replies| < |s.replies|)
            && (p.End? ==> Source(s) == [] && Source(s') == [])
            && (p.Waiting? || p.ErrorItem? ==> Source(s') == Source(s))
  {
    hide ReadUntil, Pieces, FirstIndex;
    ReadUntilMoves(s);
    var (next, o) := ReadUntil(s);
    if o.Done? && next.buf != [] {
      assert Source(next.(buf := [])) == next.rest;
      CutIsPiece(next.buf, next.rest, s.delim);
      hide Cut;
    }
  }

  // ----- the whole stream -----

  /** Polls until the stream ends or the replies do; the items, and whether the end was reached. */
  function Collect(s: State): (State, seq<seq<Byte>>, bool)
    decreases |s.replies|
  {
    var (next, p) := PollNext(s);
    if p.End? then (next, [], true)
    else if |next.replies| >= |s.replies| then (next, [], false)
    else
      var (last, items, ended) := Collect(next);
      (last, (if p.Item? then [p.bytes] else []) + items, ended)
  }

  /** However the source is cut into chunks, and however often the reader is busy or fails: the items so far
      are the first pieces of the pure split, nothing is lost, and at the end they are all of them. */
  lemma {:induction false} ItemsArePieces(s: State)
    requires Valid(s)
    ensures var (last, items, ended) := Collect(s);
            && Valid(last) && last.delim == s.delim
            && Pieces(Source(s), s.delim) == items + Pieces(Source(last), s.delim)
            && (ended ==> items == Pieces(Source(s), s.delim))
    decreases |s.replies|
  {
    hide PollNext, Pieces, Source;
    PollNextYields(s);
    var (next, p) := PollNext(s);
    if p.End? {
      assert Pieces([], s.delim) == [] by { NoPieces(s.delim); }
    } else if |next.replies| < |s.replies| {
      ItemsArePieces(next);
      var (last, items, ended) := Collect(next);
      if p.Item? {
        assert [p.bytes] + (items + Pieces(Source(last), s.delim)) == [p.bytes] + items + Pieces(Source(last), s.delim);
      }
    }
  }

  predicate IsChunk(r: Reply) { r.Chunk? }

  /** The answers that show something. */
  ghost function Chunks(s: State): nat { Count(s.replies, IsChunk) }

  /** A read uses at most one such answer for each byte, and one to learn of the end; and it ends without them
      only when it has to wait, or fails. */
  lemma {:induction false} ReadUntilUses(s: State)
    requires Valid(s)
    ensures var (s', o) := ReadUntil(s);
            && |s'.rest| <= |s.rest| && (s.replies != [] ==> |s'.replies| < |s.replies|)
            && Chunks(s') + |s.rest| + Bit(o.Done? && s'.rest == []) >= Chunks(s) + |s'.rest|
    decreases |s.replies|
  {
    if s.replies != [] {
      hide Taken, Found, Used, Cut, Valid, Source, Count;
      CountCons(s.replies, IsChunk);
      var next := s.(replies := s.replies[1..]);
      RepliesDoNotMatter(s, s.replies[1..]);
      if s.replies[0].Chunk? {
        var n := s.replies[0].n;
        TakenMoves(next, n);
        TakenUses(next, n);
        if !Found(next, n) && Used(next, n) > 0 { ReadUntilUses(Taken(next, n)); }
      }
    }
  }

  /** An answer is used for at least a byte, or at the end. */
  lemma TakenUses(s: State, n: nat)
    ensures |Taken(s, n).rest| == |s.rest| - Used(s, n) && Taken(s, n).replies == s.replies
    ensures Found(s, n) ==> Used(s, n) > 0
    ensures Used(s, n) == 0 ==> s.rest == []
  {
  }

  lemma RepliesDoNotMatter(s: State, replies: seq<Reply>)
    requires Valid(s)
    ensures Valid(s.(replies := replies))
  {
  }

  /** A reader that shows something often enough, however often it is busy or fails in between, leads to the end
      of the stream. */
  lemma {:induction false} CollectFinishes(s: State)
    requires Valid(s) && Chunks(s) > |s.rest| && (Source(s) == [] || Chunks(s) > |s.rest| + 1)
    ensures Collect(s).2
    decreases |s.replies|
  {
    assert s.replies != [];
    ReadUntilUses(s);
    ReadUntilMoves(s);
    PollNextYields(s);
    hide ReadUntil, FirstIndex, Pieces, Cut, Chunks;
    var (next, p) := PollNext(s);
    if !p.End? { CollectFinishes(next); }
  }

  lemma NoPieces(delim: Byte)
    ensures Pieces([], delim) == []
  {
  }

  /** Two readers over the same bytes give the same items, and joining them gives back the bytes. */
  lemma ChunkingDoesNotMatter(src: seq<Byte>, delim: Byte, replies: seq<Reply>, others: seq<Reply>)
    requires Collect(State(src, [], 0, delim, replies)).2 && Collect(State(src, [], 0, delim, others)).2
    ensures Collect(State(src, [], 0, delim, replies)).1 == Collect(State(src, [], 0, delim, others)).1
    ensures Joined(Collect(State(src, [], 0, delim, replies)).1, delim) ==
            if src == [] || src[|src| - 1] == delim then src else src + [delim]
  {
    hide Collect;
    ItemsArePieces(State(src, [], 0, delim, replies));
    ItemsArePieces(State(src, [], 0, delim, others));
    assert Source(State(src, [], 0, delim, replies)) == src == Source(State(src, [], 0, delim, others));
    JoinedPieces(src, delim);
  }

  // ----- the object -----

  class Split {
    var rest: seq<Byte>
    var buf: seq<Byte>
    var read: nat
    const delim: Byte
    var replies: seq<Reply>

    function View(): State
      reads this
    {
      State(rest, buf, read, delim, replies)
    }

    constructor (src: seq<Byte>, delim: Byte, replies: seq<Reply>)
      ensures Valid(View()) && View() == State(src, [], 0, delim, replies)
    {
      rest, buf, read, this.delim, this.replies := src, [], 0, delim, replies;
    }

    /** Copies what is shown into the buffer, up to and including the delimiter, and consumes it. */
    method TakeAvailable(n: nat) returns (done: bool)
      modifies this
      ensures View() == Taken(old(View()), n)
      ensures done <==> Found(old(View()), n) || Used(old(View()), n) == 0
    {
      var available := rest[..Shown(rest, n)];
      var i := FirstIndex(available, delim);
      var used := if i < |available| then i + 1 else |available|;
      buf := buf + available[..used];
      rest := rest[used..];
      read := read + used;
      done := i < |available| || used == 0;
    }

    method ReadUntilInternal() returns (o: Outcome)
      modifies this
      ensures (View(), o) == ReadUntil(old(View()))
    {
      hide Taken, Found, Used;
      ghost var start := View();
      while true
        invariant ReadUntil(View()) == ReadUntil(start)
        decreases |replies|
      {
        if replies == [] { return Pending; }
        var reply := replies[0];
        replies := replies[1..];
        if reply.Busy? { return Pending; }
        if reply.Fails? { return Failed(reply.code); }
        ghost var shown := View();
        TakenKeepsReplies(shown, reply.n);
        var done := TakeAvailable(reply.n);
        if done {
          o := Done(read);
          read := 0;
          return;
        }
      }
    }

    method Next() returns (p: Poll)
      requires Valid(View())
      modifies this
      ensures (View(), p) == PollNext(old(View())) && Valid(View())
      ensures p.Item? ==> Pieces(old(Source(View())), delim) == [p.bytes] + Pieces(Source(View()), delim)
      ensures p.End? ==> old(Source(View())) == []
      ensures p.Waiting? || p.ErrorItem? ==> Source(View()) == old(Source(View()))
    {
      hide ReadUntil, Pieces, Source, FirstIndex;
      PollNextYields(View());
      ReadUntilMoves(View());
      var o := ReadUntilInternal();
      match o {
        case Pending => return Waiting;
        case Failed(code) => return ErrorItem(code);
        case Done(n) =>
          if n == 0 && buf == [] { return Poll.End; }
          if buf[|buf| - 1] == delim {
            p := Item(buf[..|buf| - 1]);
          } else {
            p := Item(buf);
          }
          buf := [];
      }
    }
  }
}
