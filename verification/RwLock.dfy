/** `src/sync/rwlock.rs`: the async reader-writer lock as a protocol between any number of operations.

    Steps are the atomic accesses of the source; a slot of `threads` is one read or write operation from
    its first poll to the drop of its guard or future. */
module RwLockProtocol {
  import opened Counting
  import opened WakerSets

  const WRITE_LOCK: nat := 1
  const ONE_READ: nat := 2
  const ISIZE_MAX: nat := 0x7FFF_FFFF_FFFF_FFFF

  function WriteBit(state: nat): nat { state % 2 }
  function ReadCountBits(state: nat): nat { state - state % 2 }

  datatype Pc =
    | Idle
    // reading; `future` tells the future's loop from a direct try_read
    | ReadLoading(future: bool, credit: bool)             // about to load `state`
    | ReadSwapping(future: bool, credit: bool, seen: nat) // about to exchange seen for seen + ONE_READ
    | ReadInserting
    | ReadChecking(key: nat)
    | ReadLooping(key: nat)
    | ReadParked(key: nat)
    | Reading
    | ReadDropped                                         // future cancelled, about to load `state`
    // writing
    | WriteTrying(future: bool, credit: bool)
    | WriteInserting
    | WriteChecking(key: nat)
    | WriteLooping(key: nat)
    | WriteParked(key: nat)
    | Writing
    | WriteDropped                                        // cancel woke no writer: notify_all on readers
    | WriteDroppedNotifying
    | WriteReleased                                       // stored 0: notify_all on readers
    | WriteReleasedNotifying
    // notify_any on the blocked writers
    | AnyLoading
    | AnyNotifying

  datatype State = State(state: nat, readers: Entries, writers: Entries, threads: seq<Pc>)

  datatype Action =
    | PollRead | TryRead | LoadState | CasRead(weak: bool) | InsertReader(key: nat) | RecheckRead | RemoveReader
    | CancelReader | LoadAfterCancel | ReleaseRead
    | PollWrite | TryWrite | CasWrite | InsertWriter(key: nat) | RecheckWrite | RemoveWriter | CancelWriter
    | ReleaseWrite
    | LoadAllFlag | NotifyReaders | LoadAnyFlag | NotifyWriter

  ghost predicate Init(s: State) {
    s.state == 0 && s.readers == [] && s.writers == [] && forall t | 0 <= t < |s.threads| :: s.threads[t].Idle?
  }

  /** A reader that finds more than `isize::MAX` in the state aborts the process: no step follows. */
  predicate Aborts(state: nat) { WriteBit(state) == 0 && state > ISIZE_MAX }

  predicate Enabled(s: State, t: nat, a: Action) {
    t < |s.threads| &&
    var pc := s.threads[t];
    match a
    case PollRead => pc.Idle?
    case TryRead => pc.Idle?
    case LoadState => pc.ReadLoading? && !Aborts(s.state)
    case CasRead(weak) => pc.ReadSwapping? && !(Aborts(s.state) && (weak || s.state != pc.seen))
    case InsertReader(key) => pc.ReadInserting? && FreeKey(s.readers, key)
    case RecheckRead => pc.ReadChecking?
    case RemoveReader => (pc.ReadLooping? || pc.ReadParked?) && LiveKey(s.readers, pc.key)
    case CancelReader => pc.ReadParked? && LiveKey(s.readers, pc.key)
    case LoadAfterCancel => pc.ReadDropped?
    case ReleaseRead => pc.Reading? && s.state >= ONE_READ
    case PollWrite => pc.Idle?
    case TryWrite => pc.Idle?
    case CasWrite => pc.WriteTrying?
    case InsertWriter(key) => pc.WriteInserting? && FreeKey(s.writers, key)
    case RecheckWrite => pc.WriteChecking?
    case RemoveWriter => (pc.WriteLooping? || pc.WriteParked?) && LiveKey(s.writers, pc.key)
    case CancelWriter => pc.WriteParked? && LiveKey(s.writers, pc.key)
    case ReleaseWrite => pc.Writing?
    case LoadAllFlag => pc.WriteDropped? || pc.WriteReleased?
    case NotifyReaders => pc.WriteDroppedNotifying? || pc.WriteReleasedNotifying?
    case LoadAnyFlag => pc.AnyLoading?
    case NotifyWriter => pc.AnyNotifying?
  }

  function Goto(s: State, t: nat, pc: Pc): State
    requires t < |s.threads|
  {
    s.(threads := s.threads[t := pc])
  }

  /** Where a reader goes that has just learnt the value `state`. */
  function AfterLoad(future: bool, credit: bool, state: nat): Pc {
    if WriteBit(state) != 0 then (if future then ReadInserting else Idle) else ReadSwapping(future, credit, state)
  }

  ghost function Apply(s: State, t: nat, a: Action): (s': State)
    requires Enabled(s, t, a)
    ensures |s'.threads| == |s.threads|
  {
    var pc := s.threads[t];
    match a
    case PollRead => Goto(s, t, ReadLoading(true, false))
    case TryRead => Goto(s, t, ReadLoading(false, false))
    case LoadState => Goto(s, t, AfterLoad(pc.future, pc.credit, s.state))
    case CasRead(weak) =>
      if !weak && s.state == pc.seen then Goto(s.(state := s.state + ONE_READ), t, Reading)
      else Goto(s, t, AfterLoad(pc.future, pc.credit, s.state))
    case InsertReader(key) => Goto(s.(readers := Inserted(s.readers, key, t)), t, ReadChecking(key))
    case RecheckRead => Goto(s, t, if WriteBit(s.state) != 0 then ReadParked(pc.key) else ReadLooping(pc.key))
    case RemoveReader =>
      Goto(s.(readers := Removed(s.readers, pc.key)), t, ReadLoading(true, s.readers[pc.key].Notified?))
    case CancelReader => Goto(s.(readers := AfterCancel(s.readers, pc.key)), t, ReadDropped)
    case LoadAfterCancel => Goto(s, t, if ReadCountBits(s.state) == 0 then AnyLoading else Idle)
    case ReleaseRead =>
      Goto(s.(state := s.state - ONE_READ), t, if ReadCountBits(s.state) == ONE_READ then AnyLoading else Idle)
    case PollWrite => Goto(s, t, WriteTrying(true, false))
    case TryWrite => Goto(s, t, WriteTrying(false, false))
    case CasWrite =>
      if s.state == 0 then Goto(s.(state := WRITE_LOCK), t, Writing)
      else Goto(s, t, if pc.future then WriteInserting else Idle)
    case InsertWriter(key) => Goto(s.(writers := Inserted(s.writers, key, t)), t, WriteChecking(key))
    case RecheckWrite => Goto(s, t, if s.state != 0 then WriteParked(pc.key) else WriteLooping(pc.key))
    case RemoveWriter =>
      Goto(s.(writers := Removed(s.writers, pc.key)), t, WriteTrying(true, s.writers[pc.key].Notified?))
    case CancelWriter =>
      Goto(s.(writers := AfterCancel(s.writers, pc.key)), t,
           if s.writers[pc.key].Notified? && SomeWaiting(s.writers) then Idle else WriteDropped)
    case ReleaseWrite => Goto(s.(state := 0), t, WriteReleased)
    case LoadAllFlag =>
      Goto(s, t, if SomeWaiting(s.readers)
        then (if pc.WriteDropped? then WriteDroppedNotifying else WriteReleasedNotifying)
                 else if pc.WriteDropped? then Idle else AnyLoading)
    case NotifyReaders =>
      Goto(s.(readers := AfterNotify(s.readers, All)), t,
           if pc.WriteReleasedNotifying? && !SomeWaiting(s.readers) then AnyLoading else Idle)
    case LoadAnyFlag => Goto(s, t, if !SomeNotified(s.writers) && SomeWaiting(s.writers) then AnyNotifying else Idle)
    case NotifyWriter => Goto(s.(writers := AfterNotify(s.writers, Any)), t, Idle)
  }

  ghost predicate Next(s: State, s': State) {
    exists t: nat, a :: Enabled(s, t, a) && s' == Apply(s, t, a)
  }

  ghost predicate Run(run: seq<State>) {
    |run| > 0 && Init(run[0]) && forall i | 0 <= i < |run| - 1 :: Next(run[i], run[i + 1])
  }

  // ----- the invariant -----

  function ReadKey(pc: Pc): int {
    if pc.ReadChecking? || pc.ReadLooping? || pc.ReadParked? then pc.key else -1
  }

  function WriteKey(pc: Pc): int {
    if pc.WriteChecking? || pc.WriteLooping? || pc.WriteParked? then pc.key else -1
  }

  predicate IsReading(pc: Pc) { pc.Reading? }
  predicate IsWriting(pc: Pc) { pc.Writing? }

  /** The state word counts the guards: two per reader, one for a writer, and never both. */
  ghost predicate Counted(s: State) {
    var r, w := Count(s.threads, IsReading), Count(s.threads, IsWriting);
    && s.state == ONE_READ * r + WRITE_LOCK * w
    && w <= 1 && (w == 1 ==> r == 0)
    && s.state <= ISIZE_MAX + ONE_READ
    && forall t | 0 <= t < |s.threads| && s.threads[t].ReadSwapping? ::
         WriteBit(s.threads[t].seen) == 0 && s.threads[t].seen <= ISIZE_MAX
  }

  ghost predicate ReaderAsleep(s: State, t: nat) {
    t < |s.threads| && s.threads[t].ReadParked? && s.threads[t].key < |s.readers|
    && s.readers[s.threads[t].key].Waiting?
  }

  ghost predicate WriterAsleep(s: State, t: nat) {
    t < |s.threads| && s.threads[t].WriteParked? && s.threads[t].key < |s.writers|
    && s.writers[s.threads[t].key].Waiting?
  }

  /** A write unlocker that has not finished its notify_all. */
  predicate WakesReaders(pc: Pc) { pc.WriteReleased? || pc.WriteReleasedNotifying? }

  ghost predicate NoReaderLost(s: State) {
    WriteBit(s.state) == 0 && (exists t: nat :: ReaderAsleep(s, t))
    ==> exists u :: 0 <= u < |s.threads| && WakesReaders(s.threads[u])
  }

  /** Operations on their way to notifying a writer, or notified operations that have yet to retry. */
  predicate HelpsWriters(pc: Pc) {
    || pc.WriteReleased? || pc.WriteReleasedNotifying? || pc.AnyLoading? || pc.AnyNotifying? || pc.ReadDropped?
    || (pc.WriteTrying? && pc.credit)
    || ((pc.ReadLoading? || pc.ReadSwapping?) && pc.credit)
  }

  ghost predicate WriterHelped(s: State) {
    || (exists u :: 0 <= u < |s.threads| && HelpsWriters(s.threads[u]))
    || SomeNotified(s.writers)
    || SomeNotified(s.readers)
  }

  ghost predicate NoWriterLost(s: State) {
    s.state == 0 && (exists t: nat :: WriterAsleep(s, t)) ==> WriterHelped(s)
  }

  ghost predicate Inv(s: State) {
    && Owned(s.readers, s.threads, ReadKey)
    && Owned(s.writers, s.threads, WriteKey)
    && Counted(s)
    && NoReaderLost(s)
    && NoWriterLost(s)
  }

  // ----- every step keeps it -----

  lemma ReadKeysKept(s: State, t: nat, a: Action)
    requires Owned(s.readers, s.threads, ReadKey) && Enabled(s, t, a)
    ensures var s' := Apply(s, t, a); Owned(s'.readers, s'.threads, ReadKey)
  {
    var pc := Apply(s, t, a).threads[t];
    match a
    case InsertReader(key) => OwnedByInserter(s.readers, s.threads, ReadKey, t, pc, key);
    case RemoveReader => OwnedAfterRemoval(s.readers, s.threads, ReadKey, t, pc);
    case CancelReader => OwnedAfterCancel(s.readers, s.threads, ReadKey, t, pc);
    case NotifyReaders =>
      OwnedAfterNotify(s.readers, s.threads, ReadKey, All);
      OwnedUnmoved(AfterNotify(s.readers, All), s.threads, ReadKey, t, pc);
    case _ => OwnedUnmoved(s.readers, s.threads, ReadKey, t, pc);
  }

  lemma WriteKeysKept(s: State, t: nat, a: Action)
    requires Owned(s.writers, s.threads, WriteKey) && Enabled(s, t, a)
    ensures var s' := Apply(s, t, a); Owned(s'.writers, s'.threads, WriteKey)
  {
    var pc := Apply(s, t, a).threads[t];
    match a
    case InsertWriter(key) => OwnedByInserter(s.writers, s.threads, WriteKey, t, pc, key);
    case RemoveWriter => OwnedAfterRemoval(s.writers, s.threads, WriteKey, t, pc);
    case CancelWriter => OwnedAfterCancel(s.writers, s.threads, WriteKey, t, pc);
    case NotifyWriter =>
      OwnedAfterNotify(s.writers, s.threads, WriteKey, Any);
      OwnedUnmoved(AfterNotify(s.writers, Any), s.threads, WriteKey, t, pc);
    case _ => OwnedUnmoved(s.writers, s.threads, WriteKey, t, pc);
  }

  /** A reader exchanges only values it has seen without the write bit and below the limit. */
  lemma SeenKept(s: State, t: nat, a: Action)
    requires Counted(s) && Enabled(s, t, a)
    ensures var pc := Apply(s, t, a).threads[t]; pc.ReadSwapping? ==> WriteBit(pc.seen) == 0 && pc.seen <= ISIZE_MAX
  {
  }

  /** The state word and the census of guards move together. */
  lemma StateMoves(s: State, t: nat, a: Action)
    requires Counted(s) && Enabled(s, t, a)
    ensures var s' := Apply(s, t, a);
            var was, pc := s.threads[t], s'.threads[t];
            && s'.threads == s.threads[t := pc]
            && ((s'.state == s.state && was.Reading? == pc.Reading? && was.Writing? == pc.Writing?)
                || (s'.state == s.state + ONE_READ && pc.Reading? && !was.Reading? && !was.Writing?
                    && WriteBit(s.state) == 0 && s.state <= ISIZE_MAX)
                || (s'.state == s.state - ONE_READ && was.Reading? && !pc.Reading? && !pc.Writing?)
                || (s.state == 0 && s'.state == WRITE_LOCK && pc.Writing? && !was.Writing? && !was.Reading?)
                || (s'.state == 0 && was.Writing? && !pc.Writing? && !pc.Reading?))
  {
  }

  lemma CountedKept(s: State, t: nat, a: Action)
    requires Counted(s) && Enabled(s, t, a)
    ensures Counted(Apply(s, t, a))
  {
    hide Apply;
    var s' := Apply(s, t, a);
    StateMoves(s, t, a);
    SeenKept(s, t, a);
    CountUpdate(s.threads, t, s'.threads[t], IsReading);
    CountUpdate(s.threads, t, s'.threads[t], IsWriting);
    if s.threads[t].Reading? { CountPositive(s.threads, t, IsReading); }
    if s.threads[t].Writing? { CountPositive(s.threads, t, IsWriting); }
  }

  /** Nobody but the stepping operation falls asleep in a step. */
  lemma ReaderSleptBefore(s: State, t: nat, a: Action, p: nat)
    requires Owned(s.readers, s.threads, ReadKey) && Enabled(s, t, a) && p != t && ReaderAsleep(Apply(s, t, a), p)
    ensures ReaderAsleep(s, p)
  {
    assert ReadKey(s.threads[p]) == s.threads[p].key;
    if a.CancelReader? { WaitingBefore(Removed(s.readers, s.threads[t].key), One); }
    if a.NotifyReaders? { WaitingBefore(s.readers, All); }
  }

  lemma WriterSleptBefore(s: State, t: nat, a: Action, p: nat)
    requires Owned(s.writers, s.threads, WriteKey) && Enabled(s, t, a) && p != t && WriterAsleep(Apply(s, t, a), p)
    ensures WriterAsleep(s, p)
  {
    assert WriteKey(s.threads[p]) == s.threads[p].key;
    if a.CancelWriter? { WaitingBefore(Removed(s.writers, s.threads[t].key), One); }
    if a.NotifyWriter? { WaitingBefore(s.writers, Any); }
  }

  /** Only a write release clears the write bit. */
  lemma WriteBitClearedByRelease(s: State, t: nat, a: Action)
    requires Counted(s) && Enabled(s, t, a) && WriteBit(Apply(s, t, a).state) == 0 && !a.ReleaseWrite?
    ensures WriteBit(s.state) == 0
  {
    if a.ReleaseRead? { CountPositive(s.threads, t, IsReading); }
  }

  /** A write unlocker is done only when no reader waits any more. */
  lemma UnlockerLeavesNoReader(s: State, t: nat, a: Action)
    requires Enabled(s, t, a) && WakesReaders(s.threads[t]) && !WakesReaders(Apply(s, t, a).threads[t])
    ensures !SomeWaiting(Apply(s, t, a).readers)
  {
    NotifyAllLeavesNoneWaiting(s.readers);
  }

  /** A reader that goes to sleep in a step saw the write bit. */
  lemma ReaderSleepsOnWriteBit(s: State, t: nat, a: Action)
    requires Enabled(s, t, a) && ReaderAsleep(Apply(s, t, a), t)
    ensures WriteBit(Apply(s, t, a).state) != 0
  {
  }

  /** A write unlocker stays one until it is done with the readers. */
  lemma OthersStay(s: State, t: nat, a: Action, u: nat)
    requires Enabled(s, t, a) && u < |s.threads| && u != t
    ensures Apply(s, t, a).threads[u] == s.threads[u]
  {
  }

  lemma NoReaderLostKept(s: State, t: nat, a: Action)
    requires Owned(s.readers, s.threads, ReadKey) && Counted(s) && NoReaderLost(s) && Enabled(s, t, a)
    ensures NoReaderLost(Apply(s, t, a))
  {
    assert t < |s.threads|;
    hide Apply, Enabled, Owned, Counted;
    var s' := Apply(s, t, a);
    if WriteBit(s'.state) == 0 && (exists p: nat :: ReaderAsleep(s', p)) && !WakesReaders(s'.threads[t]) {
      var p: nat :| ReaderAsleep(s', p);
      assert s'.readers[s'.threads[p].key].Waiting?;
      if a.ReleaseWrite? { ReleaserWakesReaders(s, t); }
      WriteBitClearedByRelease(s, t, a);
      if p == t { ReaderSleepsOnWriteBit(s, t, a); }
      ReaderSleptBefore(s, t, a, p);
      if WakesReaders(s.threads[t]) { UnlockerLeavesNoReader(s, t, a); }
      var u :| 0 <= u < |s.threads| && WakesReaders(s.threads[u]);
      OthersStay(s, t, a, u);
    }
  }

  lemma ReleaserWakesReaders(s: State, t: nat)
    requires Enabled(s, t, ReleaseWrite)
    ensures WakesReaders(Apply(s, t, ReleaseWrite).threads[t])
  {
  }

  /** A writer that goes to sleep in a step saw the lock taken. */
  lemma WriterSleepsOnState(s: State, t: nat, a: Action)
    requires Enabled(s, t, a) && WriterAsleep(Apply(s, t, a), t)
    ensures Apply(s, t, a).state != 0
  {
  }

  /** Whoever frees the lock goes on to notify. */
  lemma FreedByHelper(s: State, t: nat, a: Action)
    requires Enabled(s, t, a) && Apply(s, t, a).state == 0 && !HelpsWriters(Apply(s, t, a).threads[t])
    ensures s.state == 0
  {
  }

  /** The steps by which a helper finishes leave somebody notified. */
  ghost predicate Finishes(s: State, t: nat, a: Action)
    requires Enabled(s, t, a)
  {
    || (a.NotifyReaders? && SomeWaiting(s.readers))
    || a.NotifyWriter?
    || (a.CancelWriter? && s.writers[s.threads[t].key].Notified?)
    || a.LoadAnyFlag?
  }

  lemma FinishedHelperHelps(s: State, t: nat, a: Action)
    requires Enabled(s, t, a) && Finishes(s, t, a) && SomeWaiting(s.writers) && !HelpsWriters(Apply(s, t, a).threads[t])
    ensures WriterHelped(Apply(s, t, a))
  {
    hide HelpsWriters;
    if a.NotifyReaders? {
      NotifyAllLeavesNoneWaiting(s.readers);
    } else if a.NotifyWriter? {
      NotifyAnyLeavesOneNotified(s.writers);
    } else if a.CancelWriter? {
      CancelLeavesOneNotified(s.writers, s.threads[t].key);
    } else {
      FlagLoaderFinds(s, t);
    }
  }

  lemma FlagLoaderFinds(s: State, t: nat)
    requires Enabled(s, t, LoadAnyFlag) && SomeWaiting(s.writers) && !HelpsWriters(Apply(s, t, LoadAnyFlag).threads[t])
    ensures SomeNotified(Apply(s, t, LoadAnyFlag).writers)
  {
  }

  lemma NoWriterLostKept(s: State, t: nat, a: Action)
    requires Inv(s) && Enabled(s, t, a)
    ensures NoWriterLost(Apply(s, t, a))
  {
    assert t < |s.threads|;
    hide Apply, Enabled, Owned, Counted, NoReaderLost, HelpsWriters, WriterHelped, Finishes;
    var s' := Apply(s, t, a);
    if s'.state == 0 && (exists p: nat :: WriterAsleep(s', p)) {
      if HelpsWriters(s'.threads[t]) {
        HelperHelps(s', t);
      } else {
        var p: nat :| WriterAsleep(s', p);
        if p == t { WriterSleepsOnState(s, t, a); }
        WriterSleptBefore(s, t, a, p);
        FreedByHelper(s, t, a);
        assert s.writers[s.threads[p].key].Waiting?;
        if Finishes(s, t, a) { FinishedHelperHelps(s, t, a); } else { WriterHelpKept(s, t, a); }
      }
    }
  }

  lemma HelperHelps(s: State, t: nat)
    requires t < |s.threads| && HelpsWriters(s.threads[t])
    ensures WriterHelped(s)
  {
  }

  lemma WriterHelpKept(s: State, t: nat, a: Action)
    requires Enabled(s, t, a) && WriterHelped(s) && s.state == 0
    requires Apply(s, t, a).state == 0 && !HelpsWriters(Apply(s, t, a).threads[t])
    requires !Finishes(s, t, a)
    ensures WriterHelped(Apply(s, t, a))
  {
    var s' := Apply(s, t, a);
    if SomeNotified(s.writers) {
      var k :| 0 <= k < |s.writers| && s.writers[k].Notified?;
      assert s'.writers[k].Notified?;
    } else if SomeNotified(s.readers) {
      var k :| 0 <= k < |s.readers| && s.readers[k].Notified?;
      assert s'.readers[k].Notified?;
    } else {
      var u :| 0 <= u < |s.threads| && HelpsWriters(s.threads[u]);
      assert u != t;
      assert HelpsWriters(s'.threads[u]);
    }
  }

  lemma InvKept(s: State, t: nat, a: Action)
    requires Inv(s) && Enabled(s, t, a)
    ensures Inv(Apply(s, t, a))
  {
    ReadKeysKept(s, t, a);
    WriteKeysKept(s, t, a);
    CountedKept(s, t, a);
    NoReaderLostKept(s, t, a);
    NoWriterLostKept(s, t, a);
  }

  lemma {:induction false} RunKeepsInv(run: seq<State>, i: nat)
    requires Run(run) && i < |run|
    ensures Inv(run[i])
  {
    if i > 0 {
      RunKeepsInv(run, i - 1);
      assert Next(run[i - 1], run[i - 1 + 1]);
      var t: nat, a :| Enabled(run[i - 1], t, a) && run[i] == Apply(run[i - 1], t, a);
      InvKept(run[i - 1], t, a);
    } else {
      CountZero(run[0].threads, IsReading);
      CountZero(run[0].threads, IsWriting);
    }
  }

  // ----- what users of the lock rely on -----

  /** Over every run: a write guard excludes every other guard, and the state word is exact. */
  lemma WriterExcludesAll(run: seq<State>, i: nat, t: nat, u: nat)
    requires Run(run) && i < |run| && t < |run[i].threads| && u < |run[i].threads|
    requires run[i].threads[t].Writing? && (run[i].threads[u].Writing? || run[i].threads[u].Reading?)
    ensures t == u && run[i].state == WRITE_LOCK
  {
    RunKeepsInv(run, i);
    CountPositive(run[i].threads, t, IsWriting);
    if run[i].threads[u].Reading? { CountPositive(run[i].threads, u, IsReading); }
    if t < u && run[i].threads[u].Writing? { CountTwo(run[i].threads, t, u, IsWriting); }
    if u < t && run[i].threads[u].Writing? { CountTwo(run[i].threads, u, t, IsWriting); }
  }

  /** The state word is exactly the census of live guards, and its reader count never overflows. */
  lemma StateCountsGuards(run: seq<State>, i: nat)
    requires Run(run) && i < |run|
    ensures run[i].state == 2 * Count(run[i].threads, IsReading) + Count(run[i].threads, IsWriting)
    ensures run[i].state < 0x1_0000_0000_0000_0000
  {
    RunKeepsInv(run, i);
  }

  /** With the write bit clear, a reader sleeps only while a write unlocker is still notifying. */
  lemma SleepingReaderIsHelped(run: seq<State>, i: nat, t: nat)
    requires Run(run) && i < |run| && ReaderAsleep(run[i], t) && WriteBit(run[i].state) == 0
    ensures exists u :: 0 <= u < |run[i].threads| && WakesReaders(run[i].threads[u])
  {
    RunKeepsInv(run, i);
  }

  predicate NotifiedWaiter(s: State, u: nat) {
    u < |s.threads| &&
    var pc := s.threads[u];
    || (0 <= ReadKey(pc) < |s.readers| && s.readers[ReadKey(pc)].Notified?)
    || (0 <= WriteKey(pc) < |s.writers| && s.writers[WriteKey(pc)].Notified?)
  }

  /** With the lock free, a writer sleeps only while somebody is still going to notify a writer, or a
      notified operation has not retried yet. */
  lemma SleepingWriterIsHelped(run: seq<State>, i: nat, t: nat)
    requires Run(run) && i < |run| && WriterAsleep(run[i], t) && run[i].state == 0
    ensures exists u: nat :: u < |run[i].threads| && (HelpsWriters(run[i].threads[u]) || NotifiedWaiter(run[i], u))
  {
    RunKeepsInv(run, i);
    var s := run[i];
    if SomeNotified(s.writers) {
      var k :| 0 <= k < |s.writers| && s.writers[k].Notified?;
      assert WriteKey(s.threads[s.writers[k].task]) == k && NotifiedWaiter(s, s.writers[k].task);
    } else if SomeNotified(s.readers) {
      var k :| 0 <= k < |s.readers| && s.readers[k].Notified?;
      assert ReadKey(s.threads[s.readers[k].task]) == k && NotifiedWaiter(s, s.readers[k].task);
    }
  }

  /** Idle, holding a guard, or asleep. */
  ghost predicate Quiet(s: State, u: nat) {
    u < |s.threads| &&
    (s.threads[u].Idle? || s.threads[u].Reading? || s.threads[u].Writing? || ReaderAsleep(s, u) || WriterAsleep(s, u))
  }

  lemma QuietHelpsNobody(s: State, u: nat)
    requires Quiet(s, u)
    ensures !HelpsWriters(s.threads[u]) && !NotifiedWaiter(s, u) && !WakesReaders(s.threads[u])
  {
  }

  /** When every operation is idle, asleep or holding a guard, a sleeping writer means some guard is alive
      and a sleeping reader means a write guard is alive. */
  lemma QuietMeansHeld(run: seq<State>, i: nat, t: nat)
    requires Run(run) && i < |run| && (WriterAsleep(run[i], t) || ReaderAsleep(run[i], t))
    requires forall u: nat | u < |run[i].threads| :: Quiet(run[i], u)
    ensures exists h :: 0 <= h < |run[i].threads| &&
              (run[i].threads[h].Writing? || (run[i].threads[h].Reading? && WriterAsleep(run[i], t)))
  {
    hide Run, Quiet, HelpsWriters, NotifiedWaiter, WakesReaders;
    var s := run[i];
    StateCountsGuards(run, i);
    if WriterAsleep(s, t) {
      if s.state == 0 {
        SleepingWriterIsHelped(run, i, t);
        var u: nat :| u < |s.threads| && (HelpsWriters(s.threads[u]) || NotifiedWaiter(s, u));
        QuietHelpsNobody(s, u);
      }
      if Count(s.threads, IsReading) > 0 { var h := CountWitness(s.threads, IsReading); }
    } else if WriteBit(s.state) == 0 {
      SleepingReaderIsHelped(run, i, t);
      var u :| 0 <= u < |s.threads| && WakesReaders(s.threads[u]);
      QuietHelpsNobody(s, u);
    }
    if Count(s.threads, IsWriting) > 0 { var h := CountWitness(s.threads, IsWriting); }
  }

  /** No guard of a step ever stops an operation, save the abort on too many readers: keys are always in their set
      when they are removed or cancelled, and the state never runs below zero. */
  lemma AlwaysEnabled(run: seq<State>, i: nat, t: nat) returns (a: Action)
    requires Run(run) && i < |run| && t < |run[i].threads|
    ensures Enabled(run[i], t, a)
            || ((run[i].threads[t].ReadLoading? || run[i].threads[t].ReadSwapping?) && Aborts(run[i].state))
    ensures run[i].threads[t].ReadParked? ==> Enabled(run[i], t, CancelReader)
    ensures run[i].threads[t].WriteParked? ==> Enabled(run[i], t, CancelWriter)
  {
    RunKeepsInv(run, i);
    KeysAreLive(run[i], t);
    if run[i].threads[t].Reading? { CountPositive(run[i].threads, t, IsReading); }
    a := NextOf(run[i], t);
  }

  lemma KeysAreLive(s: State, t: nat)
    requires Inv(s) && t < |s.threads|
    ensures ReadKey(s.threads[t]) >= 0 ==> LiveKey(s.readers, ReadKey(s.threads[t]))
    ensures WriteKey(s.threads[t]) >= 0 ==> LiveKey(s.writers, WriteKey(s.threads[t]))
  {
  }

  lemma NextOf(s: State, t: nat) returns (a: Action)
    requires t < |s.threads| && (s.threads[t].Reading? ==> s.state >= ONE_READ)
    requires ReadKey(s.threads[t]) >= 0 ==> LiveKey(s.readers, ReadKey(s.threads[t]))
    requires WriteKey(s.threads[t]) >= 0 ==> LiveKey(s.writers, WriteKey(s.threads[t]))
    ensures Enabled(s, t, a) || ((s.threads[t].ReadLoading? || s.threads[t].ReadSwapping?) && Aborts(s.state))
  {
    match s.threads[t]
    case Idle => a := PollRead;
    case ReadLoading(_, _) => a := LoadState;
    case ReadSwapping(_, _, _) => a := CasRead(false);
    case ReadInserting => a := InsertReader(|s.readers|);
    case ReadChecking(_) => a := RecheckRead;
    case ReadLooping(_) => a := RemoveReader;
    case ReadParked(_) => a := RemoveReader;
    case Reading => a := ReleaseRead;
    case ReadDropped => a := LoadAfterCancel;
    case WriteTrying(_, _) => a := CasWrite;
    case WriteInserting => a := InsertWriter(|s.writers|);
    case WriteChecking(_) => a := RecheckWrite;
    case WriteLooping(_) => a := RemoveWriter;
    case WriteParked(_) => a := RemoveWriter;
    case Writing => a := ReleaseWrite;
    case WriteDropped => a := LoadAllFlag;
    case WriteReleased => a := LoadAllFlag;
    case AnyLoading => a := LoadAnyFlag;
    case AnyNotifying => a := NotifyWriter;
    case _ => a := NotifyReaders;
  }

  // ----- the object -----

  /** The lock with its fields; each method is one atomic step of one operation. */
  class RwLock {
    var state: nat
    const readWakers: WakerSet
    const writeWakers: WakerSet
    var threads: seq<Pc>

    ghost function View(): State
      reads this, readWakers, writeWakers
    {
      State(state, readWakers.entries, writeWakers.entries, threads)
    }

    ghost predicate Valid()
      reads this, readWakers, writeWakers
    {
      readWakers != writeWakers && readWakers.Valid() && writeWakers.Valid() && Inv(View())
    }

    constructor (operations: nat)
      ensures Valid() && Init(View()) && |threads| == operations && fresh(readWakers) && fresh(writeWakers)
    {
      state := 0;
      readWakers := new WakerSet();
      writeWakers := new WakerSet();
      threads := seq(operations, _ => Idle);
      new;
      CountZero(threads, IsReading);
      CountZero(threads, IsWriting);
    }

    /** First poll of a future, or a direct call of try_read or try_write. */
    method Begin(t: nat, write: bool, future: bool)
      requires Valid() && t < |threads| && threads[t].Idle?
      modifies `threads
      ensures Valid() && View() == Apply(old(View()), t, BeginAction(write, future))
    {
      hide Inv;
      InvKept(View(), t, BeginAction(write, future));
      threads := threads[t := if write then WriteTrying(future, false) else ReadLoading(future, false)];
    }

    // ----- readers -----

    method LoadForRead(t: nat)
      requires Valid() && Enabled(View(), t, LoadState)
      modifies `threads
      ensures Valid() && View() == Apply(old(View()), t, LoadState)
    {
      hide Inv;
      InvKept(View(), t, LoadState);
      threads := threads[t := AfterLoad(threads[t].future, threads[t].credit, state)];
    }

    /** compare_exchange_weak; `weak` is its right to fail without a reason. */
    method ExchangeForRead(t: nat, weak: bool) returns (acquired: bool)
      requires Valid() && Enabled(View(), t, CasRead(weak))
      modifies `threads, `state
      ensures Valid() && View() == Apply(old(View()), t, CasRead(weak)) && acquired == threads[t].Reading?
    {
      hide Inv;
      InvKept(View(), t, CasRead(weak));
      acquired := !weak && state == threads[t].seen;
      if acquired {
        state := state + ONE_READ;
        threads := threads[t := Reading];
      } else {
        threads := threads[t := AfterLoad(threads[t].future, threads[t].credit, state)];
      }
    }

    method InsertReadWaker(t: nat, key: nat)
      requires Valid() && Enabled(View(), t, InsertReader(key))
      modifies `threads, readWakers
      ensures Valid() && View() == Apply(old(View()), t, InsertReader(key))
    {
      hide Inv;
      InvKept(View(), t, InsertReader(key));
      readWakers.Insert(key, t);
      threads := threads[t := ReadChecking(key)];
    }

    method RecheckForRead(t: nat) returns (pending: bool)
      requires Valid() && Enabled(View(), t, RecheckRead)
      modifies `threads
      ensures Valid() && View() == Apply(old(View()), t, RecheckRead) && pending == threads[t].ReadParked?
    {
      hide Inv;
      InvKept(View(), t, RecheckRead);
      pending := state % 2 != 0;
      threads := threads[t := if pending then ReadParked(threads[t].key) else ReadLooping(threads[t].key)];
    }

    method RemoveReadWaker(t: nat)
      requires Valid() && Enabled(View(), t, RemoveReader)
      modifies `threads, readWakers
      ensures Valid() && View() == Apply(old(View()), t, RemoveReader)
    {
      hide Inv;
      InvKept(View(), t, RemoveReader);
      var key := threads[t].key;
      threads := threads[t := ReadLoading(true, readWakers.entries[key].Notified?)];
      readWakers.Remove(key);
    }

    method DropReadFuture(t: nat)
      requires Valid() && Enabled(View(), t, CancelReader)
      modifies `threads, readWakers
      ensures Valid() && View() == Apply(old(View()), t, CancelReader)
    {
      hide Inv, AfterCancel;
      InvKept(View(), t, CancelReader);
      var other := readWakers.Cancel(threads[t].key);
      threads := threads[t := ReadDropped];
    }

    method LoadAfterDrop(t: nat)
      requires Valid() && Enabled(View(), t, LoadAfterCancel)
      modifies `threads
      ensures Valid() && View() == Apply(old(View()), t, LoadAfterCancel)
    {
      hide Inv;
      InvKept(View(), t, LoadAfterCancel);
      threads := threads[t := if ReadCountBits(state) == 0 then AnyLoading else Idle];
    }

    method ReleaseReadGuard(t: nat) returns (wasLast: bool)
      requires Valid() && Enabled(View(), t, ReleaseRead)
      modifies `threads, `state
      ensures Valid() && View() == Apply(old(View()), t, ReleaseRead) && wasLast == threads[t].AnyLoading?
    {
      hide Inv;
      InvKept(View(), t, ReleaseRead);
      wasLast := ReadCountBits(state) == ONE_READ;
      state := state - ONE_READ;
      threads := threads[t := if wasLast then AnyLoading else Idle];
    }

    // ----- writers -----

    method SwapForWrite(t: nat) returns (acquired: bool)
      requires Valid() && Enabled(View(), t, CasWrite)
      modifies `threads, `state
      ensures Valid() && View() == Apply(old(View()), t, CasWrite) && acquired == threads[t].Writing?
    {
      hide Inv;
      InvKept(View(), t, CasWrite);
      acquired := state == 0;
      if acquired { state := WRITE_LOCK; }
      threads := threads[t := if acquired then Writing else if threads[t].future then WriteInserting else Idle];
    }

    method InsertWriteWaker(t: nat, key: nat)
      requires Valid() && Enabled(View(), t, InsertWriter(key))
      modifies `threads, writeWakers
      ensures Valid() && View() == Apply(old(View()), t, InsertWriter(key))
    {
      hide Inv;
      InvKept(View(), t, InsertWriter(key));
      writeWakers.Insert(key, t);
      threads := threads[t := WriteChecking(key)];
    }

    method RecheckForWrite(t: nat) returns (pending: bool)
      requires Valid() && Enabled(View(), t, RecheckWrite)
      modifies `threads
      ensures Valid() && View() == Apply(old(View()), t, RecheckWrite) && pending == threads[t].WriteParked?
    {
      hide Inv;
      InvKept(View(), t, RecheckWrite);
      pending := state != 0;
      threads := threads[t := if pending then WriteParked(threads[t].key) else WriteLooping(threads[t].key)];
    }

    method RemoveWriteWaker(t: nat)
      requires Valid() && Enabled(View(), t, RemoveWriter)
      modifies `threads, writeWakers
      ensures Valid() && View() == Apply(old(View()), t, RemoveWriter)
    {
      hide Inv;
      InvKept(View(), t, RemoveWriter);
      var key := threads[t].key;
      threads := threads[t := WriteTrying(true, writeWakers.entries[key].Notified?)];
      writeWakers.Remove(key);
    }

    /** The readers are notified if no other writer was. */
    method DropWriteFuture(t: nat) returns (other: bool)
      requires Valid() && Enabled(View(), t, CancelWriter)
      modifies `threads, writeWakers
      ensures Valid() && View() == Apply(old(View()), t, CancelWriter) && other == threads[t].Idle?
    {
      hide Inv, AfterCancel;
      InvKept(View(), t, CancelWriter);
      other := writeWakers.Cancel(threads[t].key);
      threads := threads[t := if other then Idle else WriteDropped];
    }

    method ReleaseWriteGuard(t: nat)
      requires Valid() && Enabled(View(), t, ReleaseWrite)
      modifies `threads, `state
      ensures Valid() && View() == Apply(old(View()), t, ReleaseWrite)
    {
      hide Inv;
      InvKept(View(), t, ReleaseWrite);
      state := 0;
      threads := threads[t := WriteReleased];
    }

    // ----- notifying -----

    method LoadReadersFlag(t: nat)
      requires Valid() && Enabled(View(), t, LoadAllFlag)
      modifies `threads
      ensures Valid() && View() == Apply(old(View()), t, LoadAllFlag)
    {
      hide Inv;
      InvKept(View(), t, LoadAllFlag);
      var dropped := threads[t].WriteDropped?;
      threads := threads[t :=
        if readWakers.flag.notifiable then (if dropped then WriteDroppedNotifying else WriteReleasedNotifying)
        else if dropped then Idle else AnyLoading];
    }

    /** A write unlocker that found no reader to notify goes on to the writers. */
    method NotifyAllReaders(t: nat)
      requires Valid() && Enabled(View(), t, NotifyReaders)
      modifies `threads, readWakers
      ensures Valid() && View() == Apply(old(View()), t, NotifyReaders)
    {
      hide Inv;
      InvKept(View(), t, NotifyReaders);
      WaitingTasksNonEmpty(readWakers.entries);
      hide AfterNotify;
      var notified := readWakers.Notify(All);
      threads := threads[t := if threads[t].WriteReleasedNotifying? && !notified then AnyLoading else Idle];
    }

    method LoadWritersFlag(t: nat)
      requires Valid() && Enabled(View(), t, LoadAnyFlag)
      modifies `threads
      ensures Valid() && View() == Apply(old(View()), t, LoadAnyFlag)
    {
      hide Inv;
      InvKept(View(), t, LoadAnyFlag);
      threads := threads[t := if !writeWakers.flag.notified && writeWakers.flag.notifiable then AnyNotifying else Idle];
    }

    method NotifyAnyWriter(t: nat)
      requires Valid() && Enabled(View(), t, NotifyWriter)
      modifies `threads, writeWakers
      ensures Valid() && View() == Apply(old(View()), t, NotifyWriter)
    {
      hide Inv, AfterNotify;
      InvKept(View(), t, NotifyWriter);
      var notified := writeWakers.Notify(Any);
      threads := threads[t := Idle];
    }
  }

  function BeginAction(write: bool, future: bool): Action {
    if write then (if future then PollWrite else TryWrite) else if future then PollRead else TryRead
  }
}
