/** `src/fs/file.rs`: an async file with one cache in front of a blocking file.

    The cache holds bytes read ahead or bytes not yet written; blocking jobs take the state away and give it
    back. Polls and jobs are functions on the state; the class at the end has the state as its fields. */
module FileCache {

  import opened Bytes

  // ----- a plain file -----

  datatype Plain = Plain(contents: seq<Byte>, cursor: nat)

  /** Writing at a position: overwrites, extends, and fills a gap with zeros. */
  function WriteAt(contents: seq<Byte>, pos: nat, bytes: seq<Byte>): seq<Byte> {
    if bytes == [] then contents
    else
      var padded := if pos <= |contents| then contents else contents + seq(pos - |contents|, _ => 0);
      padded[..pos] + bytes + if pos + |bytes| <= |contents| then contents[pos + |bytes|..] else []
  }

  function Target(p: Plain, pos: SeekFrom): int {
    match pos
    case Start(offset) => offset
    case Current(diff) => p.cursor + diff
    case End(fromEnd) => |p.contents| + fromEnd
  }

  /** How many bytes a read may deliver: some, unless none were asked for or none are left. */
  ghost predicate ReadMayReturn(p: Plain, len: nat, n: nat) {
    && n <= len
    && (n > 0 ==> p.cursor + n <= |p.contents|)
    && (n == 0 ==> len == 0 || p.cursor >= |p.contents|)
  }

  // ----- the cached file -----

  datatype Mode = Idle | Reading(start: nat) | Writing

  /** The blocking job that holds the state, if any. */
  datatype Job = NoJob | ReadJob(len: nat) | DrainJob | FlushJob

  datatype State = State(
    contents: seq<Byte>,   // the inner file
    cursor: nat,           // the inner file's cursor
    mode: Mode,
    cache: seq<Byte>,
    capacity: nat,         // of the cache
    isFlushed: bool,
    job: Job)

  datatype Outcome =
    | Pending | Panicked | ReadDone(data: seq<Byte>) | WriteDone(n: nat) | SeekDone(pos: nat) | SeekFailed | FlushDone

  datatype Action =
    | PollRead(len: nat, grown: nat)         // grown: what the allocator gives when the cache has to grow
    | PollWrite(buf: seq<Byte>, grown: nat)
    | PollSeek(pos: SeekFrom)
    | PollFlush
    | RunJob(n: nat)                         // n: how many bytes the blocking read delivers

  function New(contents: seq<Byte>, cursor: nat, isFlushed: bool): State {
    State(contents, cursor, Idle, [], 0, isFlushed, NoJob)
  }

  /** Drops the read cache and moves the inner cursor back over the bytes nobody has read. */
  function Unread(s: State): State {
    if s.mode.Reading? && s.mode.start <= |s.cache| && |s.cache| - s.mode.start <= s.cursor
    then s.(cursor := s.cursor - (|s.cache| - s.mode.start), cache := [], mode := Idle)
    else s
  }

  /** `poll_drain`, then the flush job: the state to go on with, or the job that was started. */
  function Flushed(s: State): State {
    if s.isFlushed then s
    else if s.mode.Writing? then s.(job := DrainJob)
    else s.(job := FlushJob)
  }

  /** A read from the cache, if it has something to give, or if it is empty and stands for the end of the file. */
  predicate ReadsFromCache(s: State) {
    s.mode.Reading? && s.mode.start <= |s.cache| && (|s.cache| - s.mode.start > 0 || s.cache == [])
  }

  function Read(s: State, len: nat, grown: nat): (State, Outcome) {
    if ReadsFromCache(s) then
      var start := s.mode.start;
      var n := Min(|s.cache| - start, len);
      // cache[start..n] is copied into a buffer of n bytes
      if start > n || n - start != n then (s, Panicked)
      else (s.(mode := Reading(start + n)), ReadDone(s.cache[start..n]))
    else (StartRead(s, len, grown), Pending)
  }

  /** The same with the slice that the cursor update calls for. */
  function ReadIntended(s: State, len: nat, grown: nat): (State, Outcome) {
    if ReadsFromCache(s) then
      var start := s.mode.start;
      var n := Min(|s.cache| - start, len);
      (s.(mode := Reading(start + n)), ReadDone(s.cache[start..start + n]))
    else (StartRead(s, len, grown), Pending)
  }

  /** Flushes the write cache first, then makes the cache long enough and starts to read. */
  function StartRead(s: State, len: nat, grown: nat): State {
    var s1 := if s.mode.Writing? then Flushed(s) else s;
    if s1.job != NoJob then s1
    else s1.(capacity := if s1.capacity < len then Max(grown, len) else s1.capacity, job := ReadJob(len))
  }

  /** The capacity after making room for `buf.len() - capacity` more bytes. */
  function Reserved(s: State, len: nat, grown: nat): nat {
    if s.capacity < len && s.capacity < |s.cache| + (len - s.capacity)
    then Max(grown, |s.cache| + (len - s.capacity)) else s.capacity
  }

  function Write(s: State, buf: seq<Byte>, grown: nat): (State, Outcome) {
    var s1 := Unread(s);
    Filled(s1.(capacity := Reserved(s1, |buf|, grown)), buf)
  }

  /** Copies what fits into the cache; a full cache is drained first. */
  function Filled(s: State, buf: seq<Byte>): (State, Outcome) {
    var available := if s.capacity >= |s.cache| then s.capacity - |s.cache| else 0;
    if available > 0 || buf == [] then
      var n := Min(available, |buf|);
      (s.(cache := s.cache + buf[..n], isFlushed := false, mode := Writing), WriteDone(n))
    else
      (if s.mode.Writing? then s.(job := DrainJob) else s, Pending)
  }

  const I64_MAX: int := 0x7FFF_FFFF_FFFF_FFFF

  /** The target lies inside the read cache: only the start moves. */
  predicate SeeksInCache(s: State, pos: SeekFrom) {
    s.mode.Reading? && pos.Current? && s.mode.start + pos.diff <= I64_MAX && 0 <= s.mode.start + pos.diff <= |s.cache|
  }

  function Seek(s: State, pos: SeekFrom): (State, Outcome) {
    if pos == Current(0) then
      (s, SeekDone(match s.mode
                   case Idle => s.cursor
                   case Reading(start) => if |s.cache| <= s.cursor then s.cursor - |s.cache| + start else 0
                   case Writing => s.cursor + |s.cache|))
    else if SeeksInCache(s, pos) then
      var new_ := s.mode.start + pos.diff;
      (s.(mode := Reading(new_)), SeekDone(if |s.cache| <= s.cursor then s.cursor - |s.cache| + new_ else 0))
    else
      var s1 := Flushed(Unread(s));
      if s1.job != NoJob then (s1, Pending) else Moved(s1, pos)
  }

  function Moved(s: State, pos: SeekFrom): (State, Outcome) {
    var target := Target(Plain(s.contents, s.cursor), pos);
    if target < 0 then (s, SeekFailed) else (s.(cursor := target), SeekDone(target))
  }

  function Flush(s: State): (State, Outcome) {
    var s1 := Flushed(s);
    (s1, if s1.job != NoJob then Pending else FlushDone)
  }

  function Run(s: State, n: nat): State {
    match s.job
    case NoJob => s
    case ReadJob(len) =>
      if s.cursor + n <= |s.contents|
      then s.(cache := s.contents[s.cursor..s.cursor + n], cursor := s.cursor + n, mode := Reading(0), job := NoJob)
      else s.(cache := [], mode := Reading(0), job := NoJob)
    case DrainJob =>
      s.(contents := WriteAt(s.contents, s.cursor, s.cache), cursor := s.cursor + |s.cache|, cache := [],
         mode := Idle, job := NoJob)
    case FlushJob => s.(isFlushed := true, job := NoJob)
  }

  /** A poll of a locked file is pending; a job runs only while it holds the lock. */
  function Step(s: State, a: Action): (State, Outcome) {
    if a.RunJob? then (Run(s, a.n), Pending)
    else if s.job != NoJob then (s, Pending)
    else match a
      case PollRead(len, grown) => Read(s, len, grown)
      case PollWrite(buf, grown) => Write(s, buf, grown)
      case PollSeek(pos) => Seek(s, pos)
      case PollFlush => Flush(s)
  }

  /** A step of the code, or of the code with the intended slice. */
  function StepOf(intended: bool, s: State, a: Action): (State, Outcome) {
    if intended && a.PollRead? && s.job == NoJob then ReadIntended(s, a.len, a.grown) else Step(s, a)
  }

  /** What the environment may do: a blocking read delivers what the file has. */
  ghost predicate Allowed(s: State, a: Action) {
    a.RunJob? ==> s.job != NoJob && (s.job.ReadJob? ==> ReadMayReturn(Plain(s.contents, s.cursor), s.job.len, a.n))
  }

  // ----- the invariant and the abstraction -----

  ghost predicate Valid(s: State) {
    && |s.cache| <= s.capacity
    && (s.isFlushed ==> !s.mode.Writing?)
    && (s.job.ReadJob? ==> s.job.len <= s.capacity)
    && match s.mode
       case Idle => s.cache == [] && !s.job.DrainJob?
       case Writing => !s.job.ReadJob? && !s.job.FlushJob?
       case Reading(start) =>
         && start <= |s.cache| <= s.cursor
         && (s.cache != [] ==> s.cursor <= |s.contents| && s.contents[s.cursor - |s.cache|..s.cursor] == s.cache)
         && !s.job.DrainJob?
         && (s.job.ReadJob? ==> start == |s.cache| != 0)
  }

  /** An empty read cache in reading mode is taken for the end of the file. */
  ghost predicate EofIsReal(s: State) {
    s.mode.Reading? && s.cache == [] ==> s.cursor >= |s.contents|
  }

  /** The plain file a cached file stands for. */
  ghost function Abs(s: State): Plain
    requires Valid(s)
  {
    match s.mode
    case Idle => Plain(s.contents, s.cursor)
    case Reading(start) => Plain(s.contents, s.cursor - (|s.cache| - start))
    case Writing => Plain(WriteAt(s.contents, s.cursor, s.cache), s.cursor + |s.cache|)
  }

  /** What a plain file does when a call on it ends in `o`. */
  ghost predicate PlainDoes(p: Plain, a: Action, o: Outcome, p': Plain) {
    match o
    case Pending => p' == p
    case Panicked => false
    case ReadDone(data) =>
      && a.PollRead? && ReadMayReturn(p, a.len, |data|)
      && (data != [] ==> data == p.contents[p.cursor..p.cursor + |data|])
      && p' == p.(cursor := p.cursor + |data|)
    case WriteDone(n) =>
      && a.PollWrite? && n <= |a.buf| && (n == 0 ==> a.buf == [])
      && p' == Plain(WriteAt(p.contents, p.cursor, a.buf[..n]), p.cursor + n)
    case SeekDone(pos) => a.PollSeek? && pos == Target(p, a.pos) && p' == p.(cursor := pos)
    case SeekFailed => a.PollSeek? && Target(p, a.pos) < 0 && p' == p
    case FlushDone => a.PollFlush? && p' == p
  }

  lemma PendingIsPlain(p: Plain, a: Action)
    ensures PlainDoes(p, a, Pending, p)
  {
  }

  // ----- lemmas on writing -----

  /** Two adjacent writes are one write. */
  lemma WriteJoins(c: seq<Byte>, pos: nat, a: seq<Byte>, b: seq<Byte>)
    ensures WriteAt(WriteAt(c, pos, a), pos + |a|, b) == WriteAt(c, pos, a + b)
  {
    if a == [] {
      assert a + b == b;
    } else if b == [] {
      assert a + b == a;
    } else {
      var one, both := WriteAt(c, pos, a), WriteAt(c, pos, a + b);
      var two := WriteAt(one, pos + |a|, b);
      WriteAtAt(c, pos, a);
      WriteAtAt(c, pos, a + b);
      WriteAtAt(one, pos + |a|, b);
      hide WriteAt;
      forall i | 0 <= i < |both|
        ensures |two| == |both| && two[i] == both[i]
      {
        assert i < pos || i >= pos + |a| ==> i >= |one| || one[i] == if i < |c| then c[i] else 0;
      }
    }
  }

  /** Length and bytes of a file after a write. */
  lemma WriteAtAt(c: seq<Byte>, pos: nat, bytes: seq<Byte>)
    requires bytes != []
    ensures var w := WriteAt(c, pos, bytes);
            && |w| == Max(|c|, pos + |bytes|)
            && forall i | 0 <= i < |w| ::
               w[i] == if pos <= i < pos + |bytes| then bytes[i - pos] else if i < |c| then c[i] else 0
  {
  }

  // ----- every step refines the plain file -----

  lemma UnreadIsInvisible(s: State)
    requires Valid(s) && s.job == NoJob
    ensures Valid(Unread(s)) && Abs(Unread(s)) == Abs(s) && !Unread(s).mode.Reading? && Unread(s).job == NoJob
  {
  }

  lemma FlushedIsInvisible(s: State)
    requires Valid(s) && s.job == NoJob
    ensures Valid(Flushed(s)) && Abs(Flushed(s)) == Abs(s)
    ensures Flushed(s).mode == s.mode && (Flushed(s).job == NoJob ==> s.isFlushed) && !Flushed(s).job.ReadJob?
    ensures EofIsReal(s) ==> EofIsReal(Flushed(s))
  {
  }

  /** A job never changes the abstract file, whoever polls or abandons the call that started it. */
  lemma JobIsInvisible(s: State, n: nat)
    requires Valid(s) && Allowed(s, RunJob(n))
    ensures Valid(Run(s, n)) && Abs(Run(s, n)) == Abs(s)
    ensures Run(s, n).job == NoJob
  {
  }

  lemma WriteRefines(s: State, buf: seq<Byte>, grown: nat)
    requires Valid(s) && s.job == NoJob
    ensures var (s', o) := Write(s, buf, grown);
            Valid(s') && PlainDoes(Abs(s), PollWrite(buf, grown), o, Abs(s')) && !s'.mode.Reading? && !s'.job.ReadJob?
  {
    hide Unread, WriteAt;
    UnreadIsInvisible(s);
    var s1 := Unread(s);
    FilledRefines(s1.(capacity := Reserved(s1, |buf|, grown)), buf, grown);
  }

  lemma FilledRefines(s: State, buf: seq<Byte>, grown: nat)
    requires Valid(s) && s.job == NoJob && !s.mode.Reading?
    ensures var (s', o) := Filled(s, buf);
            Valid(s') && PlainDoes(Abs(s), PollWrite(buf, grown), o, Abs(s')) && !s'.mode.Reading? && !s'.job.ReadJob?
  {
    hide WriteAt;
    var n := Min(s.capacity - |s.cache|, |buf|);
    WriteJoins(s.contents, s.cursor, s.cache, buf[..n]);
    NothingWritten(s.contents, s.cursor);
    if s.mode.Idle? { assert s.cache + buf[..n] == buf[..n]; }
  }

  lemma NothingWritten(c: seq<Byte>, pos: nat)
    ensures WriteAt(c, pos, []) == c
  {
  }

  lemma SeekRefines(s: State, pos: SeekFrom)
    requires Valid(s) && s.job == NoJob
    ensures var (s', o) := Seek(s, pos); Valid(s') && PlainDoes(Abs(s), PollSeek(pos), o, Abs(s'))
    ensures EofIsReal(s) ==> EofIsReal(Seek(s, pos).0)
    ensures !Seek(s, pos).0.job.ReadJob?
  {
    if pos == Current(0) || SeeksInCache(s, pos) {
      CachedSeekRefines(s, pos);
    } else {
      UnreadIsInvisible(s);
      FlushedIsInvisible(Unread(s));
      FarSeekRefines(s, Flushed(Unread(s)), pos);
    }
  }

  lemma CachedSeekRefines(s: State, pos: SeekFrom)
    requires Valid(s) && s.job == NoJob && (pos == Current(0) || SeeksInCache(s, pos))
    ensures var (s', o) := Seek(s, pos); Valid(s') && PlainDoes(Abs(s), PollSeek(pos), o, Abs(s'))
    ensures EofIsReal(s) ==> EofIsReal(Seek(s, pos).0)
  {
    hide WriteAt;
  }

  lemma FarSeekRefines(s: State, s1: State, pos: SeekFrom)
    requires Valid(s) && pos != Current(0) && !SeeksInCache(s, pos) && s1 == Flushed(Unread(s))
    requires Valid(s1) && Abs(s1) == Abs(s) && !s1.mode.Reading? && (s1.job == NoJob ==> s1.isFlushed)
    ensures var (s', o) := Seek(s, pos); Valid(s') && PlainDoes(Abs(s), PollSeek(pos), o, Abs(s')) && EofIsReal(s')
  {
    hide WriteAt, Flushed, Unread;
  }

  /** The condition under which the slice copied by a cached read is the right one. */
  predicate ReadsMidCache(s: State) {
    s.mode.Reading? && 0 < s.mode.start < |s.cache|
  }

  /** A cached read panics exactly when an earlier read or seek left the start inside the cache. */
  lemma ReadPanicsExactly(s: State, len: nat, grown: nat)
    requires Valid(s) && s.job == NoJob
    ensures Read(s, len, grown).1.Panicked? <==> ReadsMidCache(s)
    ensures Read(s, len, grown).1.Panicked? ==> Read(s, len, grown).0 == s
    ensures !ReadsMidCache(s) ==> Read(s, len, grown) == ReadIntended(s, len, grown)
  {
  }

  /** A read with the intended slice does what a plain read may do, exactly when an empty cache is not mistaken
      for the end of the file. */
  lemma IntendedReadRefinesExactly(s: State, len: nat, grown: nat)
    requires Valid(s) && s.job == NoJob
    ensures var (s', o) := ReadIntended(s, len, grown);
            Valid(s') && (PlainDoes(Abs(s), PollRead(len, grown), o, Abs(s')) <==> EofIsReal(s) || len == 0)
  {
    if ReadsFromCache(s) {
      var start, n := s.mode.start, Min(|s.cache| - s.mode.start, len);
      if s.cache != [] { SliceOfSlice(s.contents, s.cursor - |s.cache|, s.cursor, start, start + n); }
    }
  }

  lemma SliceOfSlice(c: seq<Byte>, from: nat, to: nat, lo: nat, hi: nat)
    requires from <= to <= |c| && lo <= hi <= to - from
    ensures c[from..to][lo..hi] == c[from + lo..from + hi]
  {
    var outer := c[from..to];
    var inner := outer[lo..hi];
    forall i | 0 <= i < |inner|
      ensures inner[i] == c[from + lo..from + hi][i]
    {
      assert outer[lo + i] == c[from + (lo + i)];
    }
    assert inner == c[from + lo..from + hi];
  }

  /** The code's own read does so exactly when, besides, the start does not lie inside the cache. */
  lemma ReadRefinesExactly(s: State, len: nat, grown: nat)
    requires Valid(s) && s.job == NoJob
    ensures var (s', o) := Read(s, len, grown);
            Valid(s') && (PlainDoes(Abs(s), PollRead(len, grown), o, Abs(s')) <==>
                          !ReadsMidCache(s) && (EofIsReal(s) || len == 0))
  {
    ReadPanicsExactly(s, len, grown);
    if !ReadsMidCache(s) { IntendedReadRefinesExactly(s, len, grown); }
  }

  /** The steps on which a cached file is not a plain one: a read with the start inside the cache, unless the
      slice is the intended one; and a read that takes an empty cache for the end of the file. */
  ghost predicate Misreads(intended: bool, s: State, a: Action) {
    a.PollRead? && s.job == NoJob && ((!intended && ReadsMidCache(s)) || (!EofIsReal(s) && a.len > 0))
  }

  /** Every poll and every job is a step of the plain file, except on exactly those. */
  lemma StepRefinesExactly(intended: bool, s: State, a: Action)
    requires Valid(s) && Allowed(s, a)
    ensures var (s', o) := StepOf(intended, s, a);
            Valid(s') && (PlainDoes(Abs(s), a, o, Abs(s')) <==> !Misreads(intended, s, a))
  {
    hide Run, Read, ReadIntended, Write, Seek, Flushed, Abs, Valid;
    if a.RunJob? {
      JobIsInvisible(s, a.n);
    } else if s.job == NoJob {
      match a
      case PollRead(len, grown) =>
        if intended {
          IntendedReadRefinesExactly(s, len, grown);
        } else {
          ReadRefinesExactly(s, len, grown);
        }
      case PollWrite(buf, grown) => WriteRefines(s, buf, grown);
      case PollSeek(pos) => SeekRefines(s, pos);
      case PollFlush => FlushedIsInvisible(s);
    }
  }

  // ----- how the end of the file gets lost -----

  /** A read with an empty buffer finishes before the end of the file. */
  predicate Deafens(s: State, a: Action) { a.RunJob? && s.job == ReadJob(0) && s.cursor < |s.contents| }

  /** A write, or a seek that moves, throws the read cache away. */
  predicate Reopens(s: State, a: Action) { s.job == NoJob && (a.PollWrite? || (a.PollSeek? && a.pos != Current(0))) }

  /** Exactly the first makes an empty cache stand for an end that is not there, and exactly the second ends that. */
  lemma EofMovesExactly(intended: bool, s: State, a: Action)
    requires Valid(s) && Allowed(s, a)
    ensures EofIsReal(s) ==> (!EofIsReal(StepOf(intended, s, a).0) <==> Deafens(s, a))
    ensures !EofIsReal(s) ==> (EofIsReal(StepOf(intended, s, a).0) <==> Reopens(s, a))
  {
    if a.RunJob? {
      hide WriteAt;
    } else if s.job == NoJob {
      match a
      case PollRead(len, grown) => ReadKeepsEof(intended, s, len, grown);
      case PollWrite(buf, grown) => WriteRefines(s, buf, grown);
      case PollSeek(pos) => SeekMovesEof(s, pos);
      case PollFlush => FlushedIsInvisible(s);
    }
  }

  lemma ReadKeepsEof(intended: bool, s: State, len: nat, grown: nat)
    requires Valid(s) && s.job == NoJob
    ensures EofIsReal(StepOf(intended, s, PollRead(len, grown)).0) <==> EofIsReal(s)
  {
  }

  lemma SeekMovesEof(s: State, pos: SeekFrom)
    requires Valid(s) && s.job == NoJob
    ensures EofIsReal(Seek(s, pos).0) <==> EofIsReal(s) || pos != Current(0)
  {
    SeekRefines(s, pos);
  }

  // ----- over every run -----

  /** A run: every action is taken in the state that the previous one left. */
  ghost predicate IsRun(intended: bool, states: seq<State>, actions: seq<Action>) {
    && |states| == |actions| + 1
    && forall i | 0 <= i < |actions| ::
       Allowed(states[i], actions[i]) && states[i + 1] == StepOf(intended, states[i], actions[i]).0
  }

  /** The last of the calls that matter was a read with an empty buffer, before the end of the file. */
  ghost predicate Deaf(states: seq<State>, actions: seq<Action>, i: nat)
    requires i < |states| && i <= |actions|
  {
    i > 0 &&
    (Deafens(states[i - 1], actions[i - 1])
     || (!Reopens(states[i - 1], actions[i - 1]) && Deaf(states, actions, i - 1)))
  }

  lemma {:induction false} DeafIsExact(intended: bool, states: seq<State>, actions: seq<Action>, i: nat)
    requires IsRun(intended, states, actions) && i < |states| && Valid(states[0]) && EofIsReal(states[0])
    ensures Valid(states[i]) && (EofIsReal(states[i]) <==> !Deaf(states, actions, i))
  {
    if i > 0 {
      hide StepOf, Valid, EofIsReal, Deafens, Reopens, Abs, PlainDoes, Misreads;
      DeafIsExact(intended, states, actions, i - 1);
      EofMovesExactly(intended, states[i - 1], actions[i - 1]);
      StepRefinesExactly(intended, states[i - 1], actions[i - 1]);
      assert states[i - 1 + 1] == StepOf(intended, states[i - 1], actions[i - 1]).0;
      DeafensNoReopening(states[i - 1], actions[i - 1]);
    }
  }

  lemma DeafensNoReopening(s: State, a: Action)
    ensures !(Deafens(s, a) && Reopens(s, a))
  {
  }

  /** In any order of polls and jobs, with calls abandoned whenever they are pending, a file behaves like the
      plain file at every step, except exactly at a read that starts inside the cache (unless the slice is the
      intended one), and at a read for some bytes while it is deaf. A newly opened file may start a run. */
  lemma RunRefinesExactly(intended: bool, states: seq<State>, actions: seq<Action>, i: nat)
    requires IsRun(intended, states, actions) && i < |actions| && Valid(states[0]) && EofIsReal(states[0])
    ensures Valid(states[i]) && Valid(states[i + 1])
    ensures var s, a := states[i], actions[i];
            PlainDoes(Abs(s), a, StepOf(intended, s, a).1, Abs(states[i + 1])) <==>
            !(a.PollRead? && s.job == NoJob
              && ((!intended && ReadsMidCache(s)) || (a.len > 0 && Deaf(states, actions, i))))
  {
    hide StepOf, Abs, PlainDoes, Valid, EofIsReal;
    DeafIsExact(intended, states, actions, i);
    StepRefinesExactly(intended, states[i], actions[i]);
  }

  /** So with the intended slice and non-empty read buffers a file is a plain file, at every step of every run. */
  lemma IntendedRunRefinesPlainFile(states: seq<State>, actions: seq<Action>, i: nat)
    requires IsRun(true, states, actions) && i < |actions|
    requires Valid(states[0]) && EofIsReal(states[0]) && states[0].job != ReadJob(0)
    requires forall k | 0 <= k < |actions| :: !(actions[k].PollRead? && actions[k].len == 0)
    ensures Valid(states[i]) && Valid(states[i + 1])
    ensures PlainDoes(Abs(states[i]), actions[i], StepOf(true, states[i], actions[i]).1, Abs(states[i + 1]))
  {
    hide StepOf, Abs, PlainDoes, Valid, EofIsReal;
    RunRefinesExactly(true, states, actions, i);
    NeverDeaf(true, states, actions, i);
  }

  /** Without empty reads a file never goes deaf. */
  lemma {:induction false} NeverDeaf(intended: bool, states: seq<State>, actions: seq<Action>, i: nat)
    requires IsRun(intended, states, actions) && i < |states| && states[0].job != ReadJob(0)
    requires forall k | 0 <= k < |actions| :: !(actions[k].PollRead? && actions[k].len == 0)
    ensures states[i].job != ReadJob(0) && !Deaf(states, actions, i)
  {
    if i > 0 {
      hide StepOf;
      NeverDeaf(intended, states, actions, i - 1);
      assert states[i - 1 + 1] == StepOf(intended, states[i - 1], actions[i - 1]).0;
      EmptyJobComesFromEmptyRead(intended, states[i - 1], actions[i - 1]);
    }
  }

  lemma EmptyJobComesFromEmptyRead(intended: bool, s: State, a: Action)
    requires s.job != ReadJob(0)
    ensures StepOf(intended, s, a).0.job == ReadJob(0) ==> a.PollRead? && a.len == 0
  {
    hide WriteAt;
  }

  // ----- where the code departs from a plain file -----

  /** Reading two cached bytes one at a time panics on the second read. */
  lemma SecondCachedReadPanics()
    ensures var s0 := New([7, 8], 0, true);
            var s1 := Step(s0, PollRead(2, 2)).0;
            var s2 := Step(s1, RunJob(2)).0;
            var s3 := Step(s2, PollRead(1, 2));
            Allowed(s1, RunJob(2)) && s3.1 == ReadDone([7]) && Step(s3.0, PollRead(1, 2)).1 == Panicked
  {
    assert [7, 8][0..2] == [7, 8];
    assert [7, 8][0..1] == [7];
  }

  /** After a read with an empty buffer the next read reports the end of a file that has not ended. */
  lemma EmptyReadFakesEof()
    ensures var s0 := New([7, 8], 0, true);
            var s1 := Step(s0, PollRead(0, 2)).0;
            var s2 := Step(s1, RunJob(0)).0;
            Allowed(s1, RunJob(0)) && Valid(s2) && Step(s2, PollRead(2, 2)).1 == ReadDone([])
            && !ReadMayReturn(Abs(s2), 2, 0)
  {
  }

  lemma CacheBehindCursor(s: State)
    requires Valid(s)
    ensures s.mode.Reading? ==> s.mode.start <= |s.cache| <= s.cursor
  {
  }

  // ----- progress -----

  /** A write that is not accepted has started to drain the cache; afterwards there is room. */
  lemma PendingWriteDrains(s: State, buf: seq<Byte>, grown: nat, again: nat)
    requires Valid(s) && s.job == NoJob && Write(s, buf, grown).1.Pending?
    ensures Write(s, buf, grown).0.job == DrainJob
    ensures var s2 := Run(Write(s, buf, grown).0, 0); s2.job == NoJob && Write(s2, buf, again).1 == WriteDone(|buf|)
  {
    UnreadIsInvisible(s);
    var s2 := Run(Write(s, buf, grown).0, 0);
    assert Unread(s2) == s2 && s2.cache == [];
  }

  /** What is left before a flush can finish. */
  function FlushWork(s: State): nat {
    2 * (if s.isFlushed then 0 else if s.mode.Writing? then 2 else 1) + if s.job == NoJob then 0 else 1
  }

  /** Polling a flush and letting its job run brings it closer to the end; at the end the inner file holds
      exactly the abstract contents. */
  lemma FlushProgresses(s: State)
    requires Valid(s) && s.job == NoJob
    ensures var (s', o) := Flush(s);
            if o.FlushDone? then s' == s && s.isFlushed && s.contents == Abs(s).contents
            else FlushWork(Run(s', 0)) < FlushWork(s) && Run(s', 0).job == NoJob
                 && (Run(s', 0).isFlushed ==> !s.mode.Writing?)
  {
  }

  // ----- the object -----

  class File {
    var contents: seq<Byte>
    var cursor: nat
    var mode: Mode
    var cache: seq<Byte>
    var capacity: nat
    var isFlushed: bool
    var job: Job

    ghost function View(): State
      reads this
    {
      State(contents, cursor, mode, cache, capacity, isFlushed, job)
    }

    constructor (contents: seq<Byte>, cursor: nat, isFlushed: bool)
      ensures View() == New(contents, cursor, isFlushed) && Valid(View())
    {
      this.contents, this.cursor, this.isFlushed := contents, cursor, isFlushed;
      mode, cache, capacity, job := Idle, [], 0, NoJob;
    }

    method PollUnread()
      requires Valid(View()) && job == NoJob
      modifies this
      ensures View() == Unread(old(View())) && Valid(View()) && Abs(View()) == old(Abs(View()))
      ensures |cache| <= capacity && job == NoJob
    {
      UnreadIsInvisible(View());
      if mode.Reading? {
        var n := |cache| - mode.start;
        if n > 0 { cursor := cursor - n; }
        cache := [];
        mode := Idle;
      }
    }

    /** `ready` tells the caller that it may go on; otherwise a job was started. */
    method PollFlushState() returns (ready: bool)
      requires Valid(View()) && job == NoJob
      modifies this
      ensures View() == Flushed(old(View())) && Valid(View()) && Abs(View()) == old(Abs(View()))
      ensures ready <==> job == NoJob
      ensures ready ==> contents == Abs(View()).contents
    {
      FlushedIsInvisible(View());
      if isFlushed { return true; }
      job := if mode.Writing? then DrainJob else FlushJob;
      ready := false;
    }

    method PollRead(len: nat, grown: nat) returns (o: Outcome)
      requires Valid(View())
      modifies this
      ensures View() == Step(old(View()), Action.PollRead(len, grown)).0
              && o == Step(old(View()), Action.PollRead(len, grown)).1
      ensures Valid(View())
      ensures PlainDoes(old(Abs(View())), Action.PollRead(len, grown), o, Abs(View())) <==>
                !old(Misreads(false, View(), Action.PollRead(len, grown)))
      ensures o.Panicked? <==> old(job) == NoJob && old(ReadsMidCache(View()))
    {
      hide Abs, PlainDoes;
      PendingIsPlain(Abs(View()), Action.PollRead(len, grown));
      if job != NoJob { return Pending; }
      ReadRefinesExactly(View(), len, grown);
      ReadPanicsExactly(View(), len, grown);
      match mode {
        case Idle =>
        case Reading(start) =>
          var available := |cache| - start;
          if available > 0 || cache == [] {
            var n := Min(available, len);
            if start > n || n - start != n { return Panicked; }
            mode := Reading(start + n);
            return ReadDone(cache[start..n]);
          }
        case Writing =>
          var ready := PollFlushState();
          if !ready { return Pending; }
      }
      if capacity < len { capacity := Max(grown, len); }
      job := ReadJob(len);
      o := Pending;
    }

    method PollWrite(buf: seq<Byte>, grown: nat) returns (o: Outcome)
      requires Valid(View())
      modifies this
      ensures View() == Step(old(View()), Action.PollWrite(buf, grown)).0
              && o == Step(old(View()), Action.PollWrite(buf, grown)).1
      ensures Valid(View()) && PlainDoes(old(Abs(View())), Action.PollWrite(buf, grown), o, Abs(View()))
    {
      if job != NoJob { return Pending; }
      hide Write;
      WriteRefines(View(), buf, grown);
      o := WriteLocked(buf, grown);
    }

    method WriteLocked(buf: seq<Byte>, grown: nat) returns (o: Outcome)
      requires Valid(View()) && job == NoJob
      modifies this
      ensures View() == Write(old(View()), buf, grown).0 && o == Write(old(View()), buf, grown).1
    {
      hide Abs, Valid, Unread, Filled;
      PollUnread();
      if capacity < |buf| {
        var diff := |buf| - capacity;
        if capacity < |cache| + diff { capacity := Max(grown, |cache| + diff); }
      }
      o := FillCache(buf);
    }

    /** Copies what fits into the cache, or starts to drain it. */
    method FillCache(buf: seq<Byte>) returns (o: Outcome)
      requires |cache| <= capacity
      modifies this
      ensures (View(), o) == Filled(old(View()), buf)
    {
      var available := capacity - |cache|;
      if available > 0 || buf == [] {
        var n := Min(available, |buf|);
        cache := cache + buf[..n];
        isFlushed := false;
        mode := Writing;
        o := WriteDone(n);
      } else {
        if mode.Writing? { job := DrainJob; }
        o := Pending;
      }
    }

    method PollSeek(pos: SeekFrom) returns (o: Outcome)
      requires Valid(View())
      modifies this
      ensures View() == Step(old(View()), Action.PollSeek(pos)).0 && o == Step(old(View()), Action.PollSeek(pos)).1
      ensures Valid(View()) && PlainDoes(old(Abs(View())), Action.PollSeek(pos), o, Abs(View()))
    {
      if job != NoJob { return Pending; }
      hide Seek;
      SeekRefines(View(), pos);
      o := SeekLocked(pos);
    }

    method SeekLocked(pos: SeekFrom) returns (o: Outcome)
      requires Valid(View()) && job == NoJob
      modifies this
      ensures View() == Seek(old(View()), pos).0 && o == Seek(old(View()), pos).1
    {
      hide Abs, Valid, Unread, Flushed, Moved;
      CacheBehindCursor(View());
      if pos == Current(0) {
        var actual := match mode
          case Idle => cursor
          case Reading(start) => cursor - |cache| + start
          case Writing => cursor + |cache|;
        return SeekDone(actual);
      }
      if mode.Reading? && pos.Current? && mode.start + pos.diff <= I64_MAX && 0 <= mode.start + pos.diff <= |cache| {
        mode := Reading(mode.start + pos.diff);
        return SeekDone(cursor - |cache| + mode.start);
      }
      PollUnread();
      var ready := PollFlushState();
      if !ready { return Pending; }
      o := SeekInner(pos);
    }

    /** The seek of the inner file. */
    method SeekInner(pos: SeekFrom) returns (o: Outcome)
      modifies this
      ensures (View(), o) == Moved(old(View()), pos)
    {
      var target := match pos
        case Start(offset) => offset
        case Current(diff) => cursor + diff
        case End(fromEnd) => |contents| + fromEnd;
      if target < 0 { return SeekFailed; }
      cursor := target;
      o := SeekDone(target);
    }

    method PollFlush() returns (o: Outcome)
      requires Valid(View())
      modifies this
      ensures View() == Step(old(View()), Action.PollFlush).0 && o == Step(old(View()), Action.PollFlush).1
              && Valid(View()) && Abs(View()) == old(Abs(View()))
      ensures o.FlushDone? ==> contents == Abs(View()).contents
    {
      if job != NoJob { return Pending; }
      var ready := PollFlushState();
      o := if ready then FlushDone else Pending;
    }

    /** The blocking side: one job takes the state, works and gives it back. */
    method RunBlockingJob(n: nat)
      requires Valid(View()) && Allowed(View(), RunJob(n))
      modifies this
      ensures View() == Run(old(View()), n) && Valid(View()) && Abs(View()) == old(Abs(View())) && job == NoJob
    {
      hide Abs, WriteAt;
      JobIsInvisible(View(), n);
      match job {
        case NoJob =>
        case ReadJob(len) =>
          if cursor + n <= |contents| {
            cache := contents[cursor..cursor + n];
            cursor := cursor + n;
          } else {
            cache := [];
          }
          mode := Reading(0);
        case DrainJob =>
          contents := WriteAt(contents, cursor, cache);
          cursor := cursor + |cache|;
          cache := [];
          mode := Idle;
        case FlushJob =>
          isFlushed := true;
      }
      job := NoJob;
    }

    /** Dropping a file flushes it, whatever job is still under way: the loop ends, and the inner file then
        holds everything that was ever written. */
    method Drop()
      requires Valid(View())
      modifies this
      ensures Valid(View()) && isFlushed && contents == old(Abs(View())).contents && Abs(View()) == old(Abs(View()))
    {
      hide Abs, WriteAt;
      var done := false;
      while !done
        invariant Valid(View()) && Abs(View()) == old(Abs(View()))
        invariant done ==> isFlushed && contents == Abs(View()).contents
        decreases !done, FlushWork(View())
      {
        var o := PollFlush();
        if o.FlushDone? {
          done := true;
        } else {
          var n := if job.ReadJob? && cursor < |contents| then Min(job.len, |contents| - cursor) else 0;
          RunBlockingJob(n);
        }
      }
    }
  }
}
