/**
 Archive synchronisation with resumption: pkg/subscribers/blocks_archive.go and the goroutines of
 services/syncer/interceptors.go. A process may crash at any moment and lose its memory; Redis
 stays. Goroutines finish in any order, and each writes memory and Redis in two separate steps.
 */
module Archive {
  import opened Base
  import opened BigEndian
  import opened SyncState

  /** `tags` says which negative numbers the node takes as the name of some block of its own. */
  datatype Options = Options(start: int, end: int, resumption: bool, tags: int -> bool)

  /** The configured range: Go ints, and the loop counter can step past the end. */
  predicate ValidOptions(opts: Options) {
    -MAX_INT64 - 1 <= opts.start <= MAX_INT64 && -MAX_INT64 - 1 <= opts.end < MAX_INT64
  }

  /** A block comes back for `i`. */
  predicate Resolves(opts: Options, i: int) { i >= 0 || opts.tags(i) }

  /** A tag stands for some block that has nothing to do with the range. */
  predicate IsTag(opts: Options, i: int) { i < 0 && opts.tags(i) }

  /** What a caller can check beforehand: no block of the range but the last is a tag to resume from. */
  ghost predicate Resumable(opts: Options) {
    !opts.resumption || forall i :: opts.start <= i < opts.end ==> !IsTag(opts, i)
  }

  ghost predicate NoTags(opts: Options) { forall i :: opts.start <= i <= opts.end ==> !IsTag(opts, i) }

  /** A goroutine unpacking a contract of `block`, before or after it set the descriptor. */
  datatype Task = Unpacking(block: nat) | Recorded(block: nat)

  /** Where the process is; `Preparing(k)` has taken k of the four steps that store the range. */
  datatype Pc =
    | Down | Preparing(step: nat) | Looping(i: int) | InBlock(i: int, tagged: nat) | Stopped(finished: bool)

  datatype Sys = Sys(memory: Fields, redis: Entries, pc: Pc, tasks: multiset<Task>, attempted: set<int>)

  datatype Event =
    | Boot
    | Prepare(fails: bool)
    | Begin
    | Fetch(tagged: nat)
    | Spawn
    | Leave
    | Finish
    | Abort
    | Record(task: Task)
    | Persist(task: Task, fails: bool)
    | Die(task: Task)
    | Report
    | Crash

  /** The block a run begins with: the configured start, or the latest inspected block if that is not before it. */
  function ResumeAt(opts: Options, memory: Fields): int {
    if opts.resumption && memory.latestArchive.Some? && Int64(memory.latestArchive.value) >= opts.start
    then Int64(memory.latestArchive.value) else opts.start
  }

  /** The number in the header of the block that comes back for `i`. */
  function NumberOf(i: int, tagged: nat): nat { if i >= 0 then i else tagged }

  function PrepareStep(opts: Options, s: Sys, fails: bool): Sys
    requires s.pc.Preparing?
  {
    match s.pc.step
    case 0 => s.(memory := s.memory.(start := Some(opts.start)), pc := Preparing(1))
    case 1 =>
      if fails then s.(pc := Stopped(false))
      else s.(redis := s.redis[ArchiveStartBlockNumber := Bytes(Magnitude(opts.start))], pc := Preparing(2))
    case 2 => s.(memory := s.memory.(end := Some(opts.end)), pc := Preparing(3))
    case 3 =>
      if fails then s.(pc := Stopped(false))
      else s.(redis := s.redis[ArchiveEndBlockNumber := Bytes(Magnitude(opts.end))], pc := Preparing(4))
    case _ => s
  }

  function RecordStep(s: Sys, task: Task): Sys {
    if task in s.tasks && task.Unpacking? then
      s.(memory := s.memory.(latestArchive := Some(task.block)),
         tasks := s.tasks - multiset{task} + multiset{Recorded(task.block)})
    else s
  }

  function PersistStep(s: Sys, task: Task, fails: bool): Sys {
    if task in s.tasks && task.Recorded? then
      s.(redis := if fails then s.redis else s.redis[LatestInspectedArchiveBlock := Bytes(Magnitude(task.block))],
         tasks := s.tasks - multiset{task})
    else s
  }

  /** One step of the process, of a goroutine or of fate; an event that is not enabled changes nothing. */
  function Next(opts: Options, s: Sys, e: Event): Sys {
    match e
    case Boot => if s.pc.Down? then s.(memory := Reloaded(s.redis, None), pc := Preparing(0)) else s
    case Prepare(fails) => if s.pc.Preparing? then PrepareStep(opts, s, fails) else s
    case Begin => if s.pc == Preparing(4) then s.(pc := Looping(ResumeAt(opts, s.memory))) else s
    case Fetch(tagged) =>
      if s.pc.Looping? && s.pc.i <= opts.end then
        s.(attempted := s.attempted + {s.pc.i}, pc := InBlock(s.pc.i, tagged))
      else s
    case Spawn =>
      if s.pc.InBlock? && Resolves(opts, s.pc.i) then
        s.(tasks := s.tasks + multiset{Unpacking(NumberOf(s.pc.i, s.pc.tagged))})
      else s
    case Leave => if s.pc.InBlock? then s.(pc := Looping(s.pc.i + 1)) else s
    case Finish => if s.pc.Looping? && s.pc.i > opts.end then s.(pc := Stopped(true)) else s
    case Abort => if s.pc.Preparing? then s.(pc := Stopped(false)) else s
    case Record(task) => RecordStep(s, task)
    case Persist(task, fails) => PersistStep(s, task, fails)
    case Die(task) => s.(tasks := s.tasks - multiset{task})
    case Report => s.(memory := s.memory.(percentage := Percentage(s.memory)))
    case Crash => s.(memory := EMPTY, pc := Down, tasks := multiset{})
  }

  function Exec(opts: Options, s: Sys, events: seq<Event>): Sys {
    if events == [] then s else Next(opts, Exec(opts, s, events[..|events| - 1]), events[|events| - 1])
  }

  const INITIAL: Sys := Sys(EMPTY, map[], Down, multiset{}, {})

  // ----- what every run of events keeps -----

  /** The attempted blocks lie in the range and have no hole below any of them. */
  ghost predicate IsPrefix(opts: Options, attempted: set<int>) {
    && (forall b :: b in attempted ==> opts.start <= b <= opts.end)
    && (forall b, c :: b in attempted && opts.start <= c <= b ==> c in attempted)
  }

  /** Every block of the range before `i` has been attempted. */
  ghost predicate AllBelow(opts: Options, attempted: set<int>, i: int) {
    forall c :: opts.start <= c < i && c <= opts.end ==> c in attempted
  }

  /** Resuming at any block that memory, Redis or a goroutine holds would skip nothing. */
  ghost predicate KnowsNothingBeyond(opts: Options, s: Sys) {
    && (s.memory.latestArchive.Some? ==> AllBelow(opts, s.attempted, Int64(s.memory.latestArchive.value)))
    && (LatestInspectedArchiveBlock in s.redis ==>
          AllBelow(opts, s.attempted, Int64(SetBytes(s.redis[LatestInspectedArchiveBlock]))))
    && (forall task :: task in s.tasks ==> AllBelow(opts, s.attempted, Int64(task.block)))
  }

  /** Whatever memory, Redis or a goroutine holds as a latest block has been attempted. */
  ghost predicate KnowsOnlyAttempted(s: Sys) {
    && (s.memory.latestArchive.Some? ==>
          0 <= s.memory.latestArchive.value && s.memory.latestArchive.value in s.attempted)
    && (LatestInspectedArchiveBlock in s.redis ==> SetBytes(s.redis[LatestInspectedArchiveBlock]) in s.attempted)
    && (forall task :: task in s.tasks ==> task.block in s.attempted)
  }

  /** Memory may hold the bounds as they came back from Redis, which keeps no sign. */
  ghost predicate KnowsTheRange(opts: Options, s: Sys) {
    && (s.memory.start.Some? ==> s.memory.start.value in {opts.start, Magnitude(opts.start)})
    && (s.memory.end.Some? ==> s.memory.end.value in {opts.end, Magnitude(opts.end)})
    && (ArchiveStartBlockNumber in s.redis ==> SetBytes(s.redis[ArchiveStartBlockNumber]) == Magnitude(opts.start))
    && (ArchiveEndBlockNumber in s.redis ==> SetBytes(s.redis[ArchiveEndBlockNumber]) == Magnitude(opts.end))
  }

  ghost predicate PcSound(opts: Options, s: Sys) {
    match s.pc
    case Looping(i) => opts.start <= i && AllBelow(opts, s.attempted, i)
    case InBlock(i, _) => opts.start <= i <= opts.end && i in s.attempted && AllBelow(opts, s.attempted, i + 1)
    case Stopped(true) => AllBelow(opts, s.attempted, opts.end + 1)
    case _ => true
  }

  /** On which proper ranges every figure is honest. */
  ghost predicate Reportable(opts: Options) { 0 <= opts.start || (opts.end <= 0 && NoTags(opts)) }

  ghost predicate FigureSound(f: Fields) { f.percentage.Some? ==> 0 <= f.percentage.value <= 100 }

  ghost predicate Sound(opts: Options, s: Sys) {
    && IsPrefix(opts, s.attempted)
    && PcSound(opts, s)
    && KnowsTheRange(opts, s)
    && (opts.resumption ==> KnowsNothingBeyond(opts, s))
    && (NoTags(opts) ==> KnowsOnlyAttempted(s))
    && (Reportable(opts) && opts.start < opts.end ==> FigureSound(s.memory))
  }

  /** Nothing but the range, the figure and the place in the program differs. */
  ghost predicate OnlyTheRangeDiffers(s: Sys, n: Sys) {
    && n.attempted == s.attempted && n.tasks == s.tasks && n.memory.latestArchive == s.memory.latestArchive
    && n.memory.percentage == s.memory.percentage
    && ReadBack(n.redis, LatestInspectedArchiveBlock) == ReadBack(s.redis, LatestInspectedArchiveBlock)
    && !n.pc.Looping? && !n.pc.InBlock? && n.pc != Stopped(true)
  }

  lemma PrepareTouchesTheRange(opts: Options, s: Sys, fails: bool)
    requires s.pc.Preparing?
    ensures OnlyTheRangeDiffers(s, PrepareStep(opts, s, fails))
  {
  }

  lemma PrepareKnowsTheRange(opts: Options, s: Sys, fails: bool)
    requires KnowsTheRange(opts, s) && s.pc.Preparing?
    ensures KnowsTheRange(opts, PrepareStep(opts, s, fails))
  {
    BytesRoundTrip(Magnitude(opts.start));
    BytesRoundTrip(Magnitude(opts.end));
  }

  lemma PrepareKeepsSound(opts: Options, s: Sys, fails: bool)
    requires Sound(opts, s) && s.pc.Preparing?
    ensures Sound(opts, PrepareStep(opts, s, fails))
  {
    PrepareTouchesTheRange(opts, s, fails);
    PrepareKnowsTheRange(opts, s, fails);
  }

  lemma FetchKeepsSound(opts: Options, s: Sys, tagged: nat)
    requires Sound(opts, s) && s.pc.Looping? && s.pc.i <= opts.end
    ensures Sound(opts, Next(opts, s, Fetch(tagged)))
  {
  }

  /** The number a goroutine starts with is that of an attempted block, unless it stands for a tag. */
  lemma SpawnKeepsSound(opts: Options, s: Sys)
    requires ValidOptions(opts) && Resumable(opts) && Sound(opts, s) && s.pc.InBlock? && Resolves(opts, s.pc.i)
    ensures Sound(opts, Next(opts, s, Spawn))
  {
    var i := s.pc.i;
    if i < 0 { assert IsTag(opts, i); }
  }

  /** Where a run begins, everything of the range before that block has been attempted. */
  lemma BeginKeepsSound(opts: Options, s: Sys)
    requires Sound(opts, s)
    ensures Sound(opts, Next(opts, s, Begin))
  {
  }

  lemma RecordKeepsSound(opts: Options, s: Sys, task: Task)
    requires Sound(opts, s)
    ensures Sound(opts, RecordStep(s, task))
  {
  }

  lemma PersistKeepsSound(opts: Options, s: Sys, task: Task, fails: bool)
    requires Sound(opts, s)
    ensures Sound(opts, PersistStep(s, task, fails))
  {
    BytesRoundTrip(task.block);
  }

  /** What the figure should tell: how far along the range the latest block is, and 100 only at the end. */
  ghost predicate Honest(opts: Options, f: Fields) {
    f.start.Some? && f.end.Some? && f.latestArchive.Some? ==>
      && 0 <= Percentage(f).value <= 100
      && (Percentage(f).value == 100 <==> f.latestArchive.value == opts.end)
  }

  lemma WholeRange(x: int)
    requires x != 0
    ensures x * 100 / x == 100
  {
    assert x * 100 == 100 * x + 0;
    if x > 0 {
      QuotientReaches(x * 100, x, 100);
      QuotientReaches(x * 100, x, 101);
    } else {
      NegativeQuotient(x);
    }
  }

  lemma NegativeQuotient(x: int)
    requires x < 0
    ensures x * 100 / x == 100
  {
    var q, r := x * 100 / x, x * 100 % x;
    assert x * 100 == q * x + r && 0 <= r < -x;
    if q > 100 { ProductOrder(101, q, -x); }
    if q < 100 { ProductOrder(q, 99, -x); }
  }

  lemma FigureIsHonest(opts: Options, s: Sys)
    requires Sound(opts, s) && Reportable(opts) && opts.start < opts.end
    ensures Honest(opts, s.memory) && FigureSound(s.memory.(percentage := Percentage(s.memory)))
  {
    var f := s.memory;
    if f.start.Some? && f.end.Some? && f.latestArchive.Some? {
      assert NoTags(opts);
      if 0 <= opts.start { PercentageIsFullAtTheEnd(f); } else { WholeRange(f.end.value - f.start.value); }
    }
  }

  lemma ReportKeepsSound(opts: Options, s: Sys)
    requires Sound(opts, s)
    ensures Sound(opts, Next(opts, s, Report))
  {
    if Reportable(opts) && opts.start < opts.end { FigureIsHonest(opts, s); }
  }

  lemma BootKeepsSound(opts: Options, s: Sys)
    requires Sound(opts, s)
    ensures Sound(opts, Next(opts, s, Boot))
  {
  }

  lemma LeavingKeepsSound(opts: Options, s: Sys, e: Event)
    requires Sound(opts, s) && (e.Leave? || e.Finish? || e.Abort?)
    ensures Sound(opts, Next(opts, s, e))
  {
  }

  lemma LosingKeepsSound(opts: Options, s: Sys, e: Event)
    requires Sound(opts, s) && (e.Die? || e.Crash?)
    ensures Sound(opts, Next(opts, s, e))
  {
  }

  lemma StepKeepsSound(opts: Options, s: Sys, e: Event)
    requires ValidOptions(opts) && Resumable(opts) && Sound(opts, s)
    ensures Sound(opts, Next(opts, s, e))
  {
    match e
    case Boot => BootKeepsSound(opts, s);
    case Prepare(fails) => if s.pc.Preparing? { PrepareKeepsSound(opts, s, fails); }
    case Begin => BeginKeepsSound(opts, s);
    case Fetch(tagged) => if s.pc.Looping? && s.pc.i <= opts.end { FetchKeepsSound(opts, s, tagged); }
    case Spawn => if s.pc.InBlock? && Resolves(opts, s.pc.i) { SpawnKeepsSound(opts, s); }
    case Record(task) => RecordKeepsSound(opts, s, task);
    case Persist(task, fails) => PersistKeepsSound(opts, s, task, fails);
    case Report => ReportKeepsSound(opts, s);
    case Leave => LeavingKeepsSound(opts, s, e);
    case Finish => LeavingKeepsSound(opts, s, e);
    case Abort => LeavingKeepsSound(opts, s, e);
    case Die(_) => LosingKeepsSound(opts, s, e);
    case Crash => LosingKeepsSound(opts, s, e);
  }

  lemma {:induction false} ExecKeepsSound(opts: Options, s: Sys, events: seq<Event>)
    requires ValidOptions(opts) && Resumable(opts) && Sound(opts, s)
    ensures Sound(opts, Exec(opts, s, events))
  {
    if events != [] {
      ExecKeepsSound(opts, s, events[..|events| - 1]);
      StepKeepsSound(opts, Exec(opts, s, events[..|events| - 1]), events[|events| - 1]);
    }
  }

  /** The blocks attempted are a contiguous prefix of the range, and all of it once a run has come to its end. */
  ghost predicate LeavesNoHole(opts: Options, s: Sys) {
    && IsPrefix(opts, s.attempted)
    && (s.pc == Stopped(true) ==> forall b :: opts.start <= b <= opts.end ==> b in s.attempted)
  }

  /**
   Over any number of crashes, restarts and aborted runs on a fixed range, with the latest block
   written in any order, the blocks ever attempted are a contiguous prefix of the range; so a run
   that comes to the end of its loop leaves no block of the range unattempted.
   */
  lemma AttemptsAreAPrefix(opts: Options, events: seq<Event>)
    requires ValidOptions(opts) && Resumable(opts)
    ensures LeavesNoHole(opts, Exec(opts, INITIAL, events))
  {
    ExecKeepsSound(opts, INITIAL, events);
  }

  /**
   In every reachable state over a proper range of that kind, a figure that was stored is a
   percentage, and one computed now is one too and is 100 exactly when the latest block is the end.
   */
  lemma PercentageIsHonest(opts: Options, events: seq<Event>)
    requires ValidOptions(opts) && Reportable(opts) && opts.start < opts.end
    ensures var f := Exec(opts, INITIAL, events).memory; Honest(opts, f) && FigureSound(f)
  {
    assert NoTags(opts);
    ExecKeepsSound(opts, INITIAL, events);
    FigureIsHonest(opts, Exec(opts, INITIAL, events));
  }

  // ----- runs, one event at a time -----

  /** The states of a run, as a function of the events so far. */
  type Run = seq<Event> -> Sys

  ghost predicate IsRun(opts: Options, at: Run) {
    forall events: seq<Event>, e: Event {:trigger at(events + [e])} ::
      at(events + [e]) == Next(opts, at(events), e)
  }

  ghost function RunFrom(opts: Options, begin: Sys): Run { events => Exec(opts, begin, events) }

  lemma ExecIsARun(opts: Options, begin: Sys)
    ensures IsRun(opts, RunFrom(opts, begin)) && RunFrom(opts, begin)([]) == begin
    ensures forall events :: RunFrom(opts, begin)(events) == Exec(opts, begin, events)
  {
    forall events: seq<Event>, e: Event
      ensures RunFrom(opts, begin)(events + [e]) == Next(opts, RunFrom(opts, begin)(events), e)
    {
      assert (events + [e])[..|events|] == events;
    }
  }

  lemma OneMore(opts: Options, at: Run, events: seq<Event>, e: Event)
    requires IsRun(opts, at)
    ensures at(events + [e]) == Next(opts, at(events), e)
  {
  }

  /** What one run keeps, from any place of it to any later one. */
  lemma {:induction false} RunKeepsSound(opts: Options, at: Run, before: seq<Event>, events: seq<Event>)
    requires IsRun(opts, at) && ValidOptions(opts) && Resumable(opts)
    requires before <= events && Sound(opts, at(before))
    ensures Sound(opts, at(events))
    decreases |events|
  {
    if before != events {
      var front, e := events[..|events| - 1], events[|events| - 1];
      assert events == front + [e];
      RunKeepsSound(opts, at, before, front);
      OneMore(opts, at, front, e);
      StepKeepsSound(opts, at(front), e);
    }
  }

  function After2(opts: Options, s: Sys, a: Event, b: Event): Sys { Next(opts, Next(opts, s, a), b) }

  lemma TwoMore(opts: Options, at: Run, events: seq<Event>, a: Event, b: Event)
    requires IsRun(opts, at)
    ensures at(events + [a] + [b]) == After2(opts, at(events), a, b)
  {
    OneMore(opts, at, events, a);
    OneMore(opts, at, events + [a], b);
  }

  /** The block numbers from `lo` up to but not including `hi`. */
  function Blocks(lo: int, hi: int): (blocks: set<int>)
    ensures forall b :: b in blocks <==> lo <= b < hi
    decreases hi - lo
  {
    if lo >= hi then {} else Blocks(lo, hi - 1) + {hi - 1}
  }

  // ----- ranges with tags -----

  const UP: seq<Event> := [Boot] + [Prepare(false)] + [Prepare(false)] + [Prepare(false)] + [Prepare(false)] + [Begin]

  /** The bounds are in memory and in Redis. */
  ghost predicate RangeStored(opts: Options, s: Sys) {
    && s.memory.start == Some(opts.start) && s.memory.end == Some(opts.end)
    && ReadBack(s.redis, ArchiveStartBlockNumber) == Some(Magnitude(opts.start))
    && ReadBack(s.redis, ArchiveEndBlockNumber) == Some(Magnitude(opts.end))
  }

  lemma StoresTheStart(opts: Options, s: Sys)
    requires s.pc.Down?
    ensures var u := After2(opts, Next(opts, s, Boot), Prepare(false), Prepare(false));
      && u.pc == Preparing(2) && u.attempted == s.attempted && u.tasks == s.tasks
      && u.memory.latestArchive == Reloaded(s.redis, None).latestArchive
      && u.memory.start == Some(opts.start)
      && ReadBack(u.redis, ArchiveStartBlockNumber) == Some(Magnitude(opts.start))
  {
    BytesRoundTrip(Magnitude(opts.start));
  }

  lemma StoresTheEnd(opts: Options, s: Sys)
    requires s.pc == Preparing(2) && s.memory.start == Some(opts.start)
    requires ReadBack(s.redis, ArchiveStartBlockNumber) == Some(Magnitude(opts.start))
    ensures var u := Next(opts, After2(opts, s, Prepare(false), Prepare(false)), Begin);
      && u.pc == Looping(ResumeAt(opts, s.memory)) && u.attempted == s.attempted && u.tasks == s.tasks
      && RangeStored(opts, u)
  {
    BytesRoundTrip(Magnitude(opts.end));
  }

  /** A process comes up, stores its range and enters its loop where Redis tells it to. */
  lemma ComesUp(opts: Options, at: Run, before: seq<Event>)
    requires IsRun(opts, at) && at(before).pc.Down?
    ensures var s, u := at(before), at(before + UP);
      && u.pc == Looping(ResumeAt(opts, Reloaded(s.redis, None)))
      && u.attempted == s.attempted && u.tasks == s.tasks && RangeStored(opts, u)
  {
    var b1 := before + [Boot];
    var b3 := b1 + [Prepare(false)] + [Prepare(false)];
    var b5 := b3 + [Prepare(false)] + [Prepare(false)];
    OneMore(opts, at, before, Boot);
    TwoMore(opts, at, b1, Prepare(false), Prepare(false));
    TwoMore(opts, at, b3, Prepare(false), Prepare(false));
    OneMore(opts, at, b5, Begin);
    StoresTheStart(opts, at(before));
    StoresTheEnd(opts, at(b3));
    assert b5 + [Begin] == before + UP;
  }

  /** The first process of all begins at the start of the range. */
  lemma FirstComesUp(opts: Options, at: Run)
    requires IsRun(opts, at) && at([]) == INITIAL
    ensures var u := at(UP);
      u.pc == Looping(opts.start) && u.attempted == {} && u.tasks == multiset{} && RangeStored(opts, u)
  {
    assert [] + UP == UP;
    ComesUp(opts, at, []);
  }

  lemma PassesABlock(opts: Options, s: Sys)
    requires s.pc.Looping? && s.pc.i <= opts.end && RangeStored(opts, s)
    ensures var u := After2(opts, s, Fetch(0), Leave);
      && u.pc == Looping(s.pc.i + 1) && u.attempted == s.attempted + {s.pc.i} && u.tasks == s.tasks
      && RangeStored(opts, u)
  {
  }

  /** Blocks that start no goroutine are passed one by one. */
  lemma {:induction false} PassesBlocks(opts: Options, at: Run, before: seq<Event>, i: int) returns (events: seq<Event>)
    requires IsRun(opts, at) && RangeStored(opts, at(before))
    requires at(before).pc.Looping? && at(before).pc.i <= i <= opts.end
    ensures var s, u := at(before), at(events);
      && u.pc == Looping(i) && u.attempted == s.attempted + Blocks(s.pc.i, i) && u.tasks == s.tasks
      && RangeStored(opts, u)
    decreases i - at(before).pc.i
  {
    if at(before).pc.i == i {
      events := before;
    } else {
      var front := PassesBlocks(opts, at, before, i - 1);
      PassesABlock(opts, at(front));
      TwoMore(opts, at, front, Fetch(0), Leave);
      events := front + [Fetch(0)] + [Leave];
    }
  }

  lemma SpawnsOne(opts: Options, s: Sys, tagged: nat)
    requires s.pc.Looping? && s.pc.i <= opts.end && Resolves(opts, s.pc.i) && RangeStored(opts, s)
    ensures var u := After2(opts, s, Fetch(tagged), Spawn);
      && Unpacking(NumberOf(s.pc.i, tagged)) in u.tasks && u.attempted == s.attempted + {s.pc.i}
      && RangeStored(opts, u)
  {
  }

  /** One contract of block `i` is unpacked, and its number stands in memory. */
  lemma RecordsABlock(opts: Options, at: Run, before: seq<Event>, tagged: nat) returns (events: seq<Event>)
    requires IsRun(opts, at) && RangeStored(opts, at(before))
    requires at(before).pc.Looping? && at(before).pc.i <= opts.end && Resolves(opts, at(before).pc.i)
    ensures var s, u := at(before), at(events);
      var number := NumberOf(s.pc.i, tagged);
      && u.attempted == s.attempted + {s.pc.i} && RangeStored(opts, u)
      && u.memory.latestArchive == Some(number) && Recorded(number) in u.tasks
  {
    var spawned := before + [Fetch(tagged)] + [Spawn];
    var number := NumberOf(at(before).pc.i, tagged);
    SpawnsOne(opts, at(before), tagged);
    TwoMore(opts, at, before, Fetch(tagged), Spawn);
    OneMore(opts, at, spawned, Record(Unpacking(number)));
    events := spawned + [Record(Unpacking(number))];
  }

  lemma PersistsAndCrashes(opts: Options, s: Sys, number: nat)
    requires Recorded(number) in s.tasks && RangeStored(opts, s)
    ensures var u := After2(opts, s, Persist(Recorded(number), false), Crash);
      && u.pc.Down? && u.attempted == s.attempted
      && Reloaded(u.redis, None).latestArchive == Some(number)
      && Reloaded(u.redis, None).start == Some(Magnitude(opts.start))
      && Reloaded(u.redis, None).end == Some(Magnitude(opts.end))
  {
    BytesRoundTrip(number);
  }

  /** The block is recorded in Redis as well, and the process is gone. */
  lemma RemembersABlock(opts: Options, at: Run, before: seq<Event>, tagged: nat) returns (events: seq<Event>)
    requires IsRun(opts, at) && RangeStored(opts, at(before))
    requires at(before).pc.Looping? && at(before).pc.i <= opts.end && Resolves(opts, at(before).pc.i)
    ensures var s, u := at(before), at(events);
      && u.pc.Down? && u.attempted == s.attempted + {s.pc.i}
      && Reloaded(u.redis, None).latestArchive == Some(NumberOf(s.pc.i, tagged))
      && Reloaded(u.redis, None).start == Some(Magnitude(opts.start))
      && Reloaded(u.redis, None).end == Some(Magnitude(opts.end))
  {
    var recorded := RecordsABlock(opts, at, before, tagged);
    var number := NumberOf(at(before).pc.i, tagged);
    PersistsAndCrashes(opts, at(recorded), number);
    TwoMore(opts, at, recorded, Persist(Recorded(number), false), Crash);
    events := recorded + [Persist(Recorded(number), false)] + [Crash];
  }

  /**
   On a resumed range with a tag before its last block, a run that finishes although block `i + 1`
   was never attempted: the number behind the tag lies beyond the end, and the next run starts there.
   */
  lemma SkipsTheRest(opts: Options, at: Run, i: int) returns (events: seq<Event>)
    requires ValidOptions(opts) && IsRun(opts, at) && at([]) == INITIAL
    requires opts.resumption && opts.start <= i < opts.end && IsTag(opts, i)
    ensures at(events).pc == Stopped(true) && at(events).attempted == Blocks(opts.start, i + 1)
  {
    var tagged := if opts.end >= 0 then opts.end + 1 else 0;
    FirstComesUp(opts, at);
    var passed := PassesBlocks(opts, at, UP, i);
    var gone := RemembersABlock(opts, at, passed, tagged);
    ComesUp(opts, at, gone);
    OneMore(opts, at, gone + UP, Finish);
    events := gone + UP + [Finish];
  }

  ghost predicate NeverLeavesAHole(opts: Options) {
    forall events: seq<Event> :: LeavesNoHole(opts, Exec(opts, INITIAL, events))
  }

  /** Resumption is right exactly when no block of the range but the last is a tag. */
  lemma ResumptionIsRightExactly(opts: Options)
    requires ValidOptions(opts)
    ensures NeverLeavesAHole(opts) <==> Resumable(opts)
  {
    if Resumable(opts) {
      forall events: seq<Event>
        ensures LeavesNoHole(opts, Exec(opts, INITIAL, events))
      {
        AttemptsAreAPrefix(opts, events);
      }
    } else {
      var i :| opts.start <= i < opts.end && IsTag(opts, i);
      ExecIsARun(opts, INITIAL);
      var events := SkipsTheRest(opts, RunFrom(opts, INITIAL), i);
      assert i + 1 !in Blocks(opts.start, i + 1);
    }
  }

  // ----- figures over ranges that start below zero -----

  lemma TagOvershoots(f: Fields, opts: Options)
    requires opts.start < 0 && opts.start < opts.end
    requires f.start == Some(opts.start) && f.end == Some(opts.end)
    requires f.latestArchive == Some(2 * (opts.end - opts.start))
    ensures !Honest(opts, f)
  {
    PercentageInRange(f);
  }

  /** A tag in the range: the number behind it drives the figure above 100. */
  lemma TagMisreports(opts: Options, at: Run, i: int) returns (events: seq<Event>)
    requires IsRun(opts, at) && at([]) == INITIAL && opts.start < opts.end
    requires opts.start <= i <= opts.end && IsTag(opts, i)
    ensures !Honest(opts, at(events).memory)
  {
    FirstComesUp(opts, at);
    var passed := PassesBlocks(opts, at, UP, i);
    events := RecordsABlock(opts, at, passed, 2 * (opts.end - opts.start));
    var f := at(events).memory;
    TagOvershoots(f, opts);
  }

  /** Measured from the magnitude of a negative start, block 0 is off the range, and so is the end if they are equal. */
  lemma MagnitudeMisleads(f: Fields, opts: Options)
    requires opts.start < 0 < opts.end && f.start == Some(-opts.start) && f.end == Some(opts.end)
    requires f.latestArchive == Some(if opts.end == -opts.start then opts.end else 0)
    ensures !Honest(opts, f)
  {
    var total := opts.end + opts.start;
    if total > 0 {
      QuotientReaches(opts.start * 100, total, 0);
    } else if total < 0 {
      NegativeQuotientReaches(opts.start * 100, -total, 101);
    }
  }

  lemma NegativeQuotientReaches(a: int, d: int, k: int)
    requires d > 0 && a < (1 - k) * d
    ensures a / (-d) >= k
  {
    var q, r := a / (-d), a % (-d);
    assert a == q * (-d) + r && 0 <= r;
    if q < k {
      ProductOrder(q, k - 1, d);
    }
  }

  /** A block recorded, a crash, and the state loaded again. */
  lemma ReachesAReload(opts: Options, at: Run, block: nat) returns (events: seq<Event>)
    requires IsRun(opts, at) && at([]) == INITIAL && opts.start < block <= opts.end
    ensures var f := at(events).memory;
      && f.start == Some(Magnitude(opts.start)) && f.end == Some(Magnitude(opts.end))
      && f.latestArchive == Some(block)
  {
    FirstComesUp(opts, at);
    var passed := PassesBlocks(opts, at, UP, block);
    var gone := RemembersABlock(opts, at, passed, 0);
    OneMore(opts, at, gone, Boot);
    events := gone + [Boot];
  }

  /** Without tags, a process that has just reloaded its state reports a figure off the range. */
  lemma ReloadMisreports(opts: Options, at: Run) returns (events: seq<Event>)
    requires IsRun(opts, at) && at([]) == INITIAL && opts.start < 0 < opts.end
    ensures !Honest(opts, at(events).memory)
  {
    events := ReachesAReload(opts, at, if opts.end == -opts.start then opts.end else 0);
    MagnitudeMisleads(at(events).memory, opts);
  }

  ghost predicate AlwaysHonest(opts: Options) {
    forall events: seq<Event> :: Honest(opts, Exec(opts, INITIAL, events).memory)
  }

  /**
   Over a proper range every reachable figure is honest exactly when the range does not start below
   zero, or holds no block but the ones below zero and block 0, and none of them is a tag.
   */
  lemma FiguresAreHonestExactly(opts: Options)
    requires ValidOptions(opts) && opts.start < opts.end
    ensures AlwaysHonest(opts) <==> Reportable(opts)
  {
    if Reportable(opts) {
      forall events: seq<Event>
        ensures Honest(opts, Exec(opts, INITIAL, events).memory)
      {
        PercentageIsHonest(opts, events);
      }
    } else {
      ExecIsARun(opts, INITIAL);
      var at, events := RunFrom(opts, INITIAL), [];
      if NoTags(opts) {
        events := ReloadMisreports(opts, at);
      } else {
        var i :| opts.start <= i <= opts.end && IsTag(opts, i);
        events := TagMisreports(opts, at, i);
      }
      assert !Honest(opts, Exec(opts, INITIAL, events).memory);
    }
  }
}

/** The subscriber itself, step by step, proved to take only steps of the system above. */
module ArchiveObjects {
  import opened Base
  import opened BigEndian
  import opened SyncState
  import opened Archive

  /** A transaction as the interceptor sees it. */
  datatype Tx = Tx(senderRecovered: bool, deploysContract: bool, clientFound: bool)

  /** The first deployment for which the pool has no client ends the block. */
  function Halt(txs: seq<Tx>): (cut: nat)
    ensures cut <= |txs|
    ensures forall i :: 0 <= i < cut ==> txs[i].senderRecovered && txs[i].deploysContract ==> txs[i].clientFound
    ensures cut < |txs| ==> txs[cut].senderRecovered && txs[cut].deploysContract && !txs[cut].clientFound
  {
    if txs == [] then 0
    else if txs[0].senderRecovered && txs[0].deploysContract && !txs[0].clientFound then 0
    else 1 + Halt(txs[1..])
  }

  /** The contract creations among the first `cut` transactions whose sender can be told. */
  function Deployments(txs: seq<Tx>, cut: nat): set<int>
    requires cut <= |txs|
  {
    set i | 0 <= i < cut && txs[i].senderRecovered && txs[i].deploysContract
  }

  lemma OneMoreDeployment(txs: seq<Tx>, i: nat)
    requires i < |txs|
    ensures |Deployments(txs, i + 1)|
      == |Deployments(txs, i)| + if txs[i].senderRecovered && txs[i].deploysContract then 1 else 0
  {
    var now := Deployments(txs, i);
    if txs[i].senderRecovered && txs[i].deploysContract {
      assert Deployments(txs, i + 1) == now + {i as int} && i as int !in now;
    } else {
      assert Deployments(txs, i + 1) == now;
    }
  }

  /** How many of them start a goroutine. */
  function Starts(txs: seq<Tx>, cut: nat): nat
    requires cut <= |txs|
  {
    |Deployments(txs, cut)|
  }

  /** How many goroutines the steps of a run started. */
  function Spawns(events: seq<Event>): nat {
    if events == [] then 0
    else Spawns(events[..|events| - 1]) + if events[|events| - 1].Spawn? then 1 else 0
  }

  lemma OneMoreSpawns(events: seq<Event>, e: Event)
    ensures Spawns(events + [e]) == Spawns(events) + if e.Spawn? then 1 else 0
  {
    assert (events + [e])[..|events|] == events;
  }

  /** A fetched block; `tagged` is its number when it was asked for by a tag. */
  datatype Block = Block(tagged: nat, txs: seq<Tx>)

  /**
   What a run of the subscriber meets: the answers to its own calls, and what goroutines do between
   any two of its steps, counted from its first one.
   */
  datatype Surroundings = Surroundings(
    enabled: bool, networkKnown: bool, startWriteFails: bool, endWriteFails: bool,
    cancelled: bool, clientFound: bool,
    node: int -> Option<Block>,
    goroutines: nat -> seq<Event>)

  /** BlockByNumber: an error for a number that names no block. */
  function BlockByNumber(opts: Options, around: Surroundings, i: int): Option<Block> {
    if Resolves(opts, i) then around.node(i) else None
  }

  /** How many goroutines a block starts: none when it could not be fetched. */
  function SpawnedBy(block: Option<Block>): nat {
    if block.None? then 0 else Starts(block.value.txs, Halt(block.value.txs))
  }

  function SpawnedByAll(opts: Options, around: Surroundings, lo: int, hi: int): nat
    decreases hi - lo
  {
    if lo >= hi then 0 else SpawnedByAll(opts, around, lo, hi - 1) + SpawnedBy(BlockByNumber(opts, around, hi - 1))
  }

  /** A step that a goroutine of a running process can take. */
  predicate IsBackground(e: Event) { e.Record? || e.Persist? || e.Die? || e.Report? }

  ghost predicate InBackground(around: Surroundings) {
    forall n: nat :: forall k :: 0 <= k < |around.goroutines(n)| ==> IsBackground(around.goroutines(n)[k])
  }

  class ArchiveBlock {
    const opts: Options
    const state: State
    const around: Surroundings
    var tasks: multiset<Task>
    /** How many own steps have been taken. */
    var steps: nat
    ghost var attempted: set<int>
    ghost var pc: Pc
    /** The run of the system this process is part of since it came up, and its events so far. */
    ghost const at: Run
    ghost var log: seq<Event>

    /** A process that has loaded its state and is about to start the subscriber. */
    constructor (opts: Options, state: State, around: Surroundings, ghost attempted: set<int>)
      requires InBackground(around)
      ensures this.opts == opts && this.state == state && this.around == around
      ensures View() == Sys(state.descriptor, state.cache.entries, Preparing(0), multiset{}, attempted)
      ensures Traced() && log == [] && at == RunFrom(opts, View())
    {
      this.opts, this.state, this.around := opts, state, around;
      tasks, steps := multiset{}, 0;
      this.attempted, pc, log := attempted, Preparing(0), [];
      var begin := Sys(state.descriptor, state.cache.entries, Preparing(0), multiset{}, attempted);
      at := RunFrom(opts, begin);
      new;
      ExecIsARun(opts, begin);
    }

    ghost function View(): Sys
      reads this, state, state.cache
    {
      Sys(state.descriptor, state.cache.entries, pc, tasks, attempted)
    }

    /** The object is where its run of the system is. */
    ghost predicate Traced()
      reads this, state, state.cache
    {
      IsRun(opts, at) && InBackground(around) && View() == at(log)
    }

    // ----- what goroutines do -----

    method Record(task: Task)
      requires Traced()
      modifies this`tasks, this`log, state`descriptor
      ensures Traced() && log == old(log) + [Event.Record(task)]
      ensures state.descriptor
        == if task in old(tasks) && task.Unpacking? then old(state.descriptor).(latestArchive := Some(task.block))
           else old(state.descriptor)
      ensures old(tasks) == multiset{} ==> NoTasksNoNews(old(state.descriptor))
    {
      OneMore(opts, at, log, Event.Record(task));
      log := log + [Event.Record(task)];
      if task in tasks && task.Unpacking? {
        var _ := state.SetDescriptorKey(LatestInspectedArchiveBlock, task.block);
        tasks := tasks - multiset{task} + multiset{Recorded(task.block)};
      }
    }

    method Persist(task: Task, fails: bool)
      requires Traced()
      modifies this`tasks, this`log, state.cache
      ensures Traced() && log == old(log) + [Event.Persist(task, fails)]
      ensures state.cache.entries
        == if task in old(tasks) && task.Recorded? && !fails
           then old(state.cache.entries)[LatestInspectedArchiveBlock := Bytes(task.block)]
           else old(state.cache.entries)
      ensures old(tasks) == multiset{} ==> NoTasksNoNews(old(state.descriptor))
    {
      OneMore(opts, at, log, Event.Persist(task, fails));
      log := log + [Event.Persist(task, fails)];
      if task in tasks && task.Recorded? {
        var _ := state.cache.Write(LatestInspectedArchiveBlock, Bytes(Magnitude(task.block)), fails);
        tasks := tasks - multiset{task};
      }
    }

    method Die(task: Task)
      requires Traced()
      modifies this`tasks, this`log
      ensures Traced() && log == old(log) + [Event.Die(task)]
      ensures old(tasks) == multiset{} ==> tasks == multiset{}
    {
      OneMore(opts, at, log, Event.Die(task));
      log := log + [Event.Die(task)];
      tasks := tasks - multiset{task};
    }

    /** A look at the descriptor, which refreshes the reported figure. */
    method Look() returns (f: Fields)
      requires Traced()
      modifies this`log, state`descriptor
      ensures Traced() && log == old(log) + [Report]
      ensures f == state.descriptor && f.latestArchive == old(state.descriptor.latestArchive)
    {
      OneMore(opts, at, log, Report);
      log := log + [Report];
      f := state.Descriptor();
    }

    method Goroutine(e: Event)
      requires Traced() && IsBackground(e)
      modifies this`tasks, this`log, state`descriptor, state.cache
      ensures Traced() && log == old(log) + [e]
      ensures old(tasks) == multiset{} ==> NoTasksNoNews(old(state.descriptor))
    {
      match e {
        case Record(task) => Record(task);
        case Persist(task, fails) => Persist(task, fails);
        case Die(task) => Die(task);
        case Report => var _ := Look();
      }
    }

    /** While no goroutine is under way, the latest block stays what it is. */
    ghost predicate NoTasksNoNews(was: Fields)
      reads this, state
    {
      tasks == multiset{} && state.descriptor.latestArchive == was.latestArchive
    }

    method Goroutines(events: seq<Event>)
      requires Traced() && forall k :: 0 <= k < |events| ==> IsBackground(events[k])
      modifies this`tasks, this`log, state`descriptor, state.cache
      ensures Traced() && old(log) <= log && Spawns(log) == Spawns(old(log))
      ensures old(tasks) == multiset{} ==> NoTasksNoNews(old(state.descriptor))
    {
      if events != [] {
        OneMoreSpawns(log, events[0]);
        Goroutine(events[0]);
        Goroutines(events[1..]);
      }
    }

    /** Between two own steps goroutines may do anything they can. */
    method Yield()
      requires Traced()
      modifies this`tasks, this`log, this`steps, state`descriptor, state.cache
      ensures Traced() && old(log) <= log && Spawns(log) == Spawns(old(log))
      ensures old(tasks) == multiset{} ==> NoTasksNoNews(old(state.descriptor))
    {
      Goroutines(around.goroutines(steps));
      steps := steps + 1;
    }

    // ----- what Start does -----

    ghost method Enter()
      requires Traced() && pc == Preparing(4)
      modifies this`log, this`pc
      ensures Traced() && log == old(log) + [Begin]
      ensures pc == Looping(ResumeAt(opts, state.descriptor))
    {
      var s := View();
      OneMore(opts, at, log, Begin);
      log := log + [Begin];
      pc := Looping(ResumeAt(opts, state.descriptor));
      assert View() == s.(pc := pc);
    }

    ghost method Attempt(tagged: nat)
      requires Traced() && pc.Looping? && pc.i <= opts.end
      modifies this`log, this`pc, this`attempted
      ensures Traced() && log == old(log) + [Fetch(tagged)]
      ensures pc == InBlock(old(pc).i, tagged) && attempted == old(attempted) + {old(pc).i}
    {
      var i, s := pc.i, View();
      OneMore(opts, at, log, Fetch(tagged));
      log := log + [Fetch(tagged)];
      attempted := attempted + {i};
      pc := InBlock(i, tagged);
      assert View() == s.(attempted := s.attempted + {i}, pc := InBlock(i, tagged));
    }

    ghost method LeaveBlock()
      requires Traced() && pc.InBlock?
      modifies this`log, this`pc
      ensures Traced() && log == old(log) + [Leave]
      ensures pc == Looping(old(pc).i + 1)
    {
      var s := View();
      OneMore(opts, at, log, Leave);
      log := log + [Leave];
      pc := Looping(pc.i + 1);
      assert View() == s.(pc := pc);
    }

    ghost method Complete()
      requires Traced() && pc.Looping? && pc.i > opts.end
      modifies this`log, this`pc
      ensures Traced() && log == old(log) + [Finish]
      ensures pc == Stopped(true)
    {
      var s := View();
      OneMore(opts, at, log, Finish);
      log := log + [Finish];
      pc := Stopped(true);
      assert View() == s.(pc := pc);
    }

    ghost method GiveUp()
      requires Traced() && pc.Preparing?
      modifies this`log, this`pc
      ensures Traced() && log == old(log) + [Abort]
      ensures pc == Stopped(false)
    {
      var s := View();
      OneMore(opts, at, log, Abort);
      log := log + [Abort];
      pc := Stopped(false);
      assert View() == s.(pc := pc);
    }

    /** A goroutine for one deployment. */
    method Go(block: nat)
      requires Traced() && pc.InBlock? && Resolves(opts, pc.i) && block == NumberOf(pc.i, pc.tagged)
      modifies this`tasks, this`log
      ensures Traced() && log == old(log) + [Spawn] && Spawns(log) == Spawns(old(log)) + 1
    {
      OneMore(opts, at, log, Spawn);
      OneMoreSpawns(log, Spawn);
      log := log + [Spawn];
      tasks := tasks + multiset{Unpacking(block)};
    }

    /** One goroutine for each deployment, until a client is missing; all may act meanwhile. */
    method BlockInterceptor(block: nat, txs: seq<Tx>) returns (ok: bool)
      requires Traced() && pc.InBlock? && Resolves(opts, pc.i) && block == NumberOf(pc.i, pc.tagged)
      modifies this`tasks, this`log, this`steps, state`descriptor, state.cache
      ensures Traced() && old(log) <= log
      ensures ok <==> Halt(txs) == |txs|
      ensures Spawns(log) == Spawns(old(log))
        + |set i | 0 <= i < Halt(txs) && txs[i].senderRecovered && txs[i].deploysContract|
    {
      ghost var before := Spawns(log);
      for i := 0 to |txs|
        invariant Traced() && old(log) <= log
        invariant i <= Halt(txs)
        invariant Spawns(log) == before + Starts(txs, i)
      {
        OneMoreDeployment(txs, i);
        if !txs[i].senderRecovered { continue; }
        if !txs[i].deploysContract { continue; }
        if !txs[i].clientFound { return false; }
        Go(block);
        Yield();
      }
      return true;
    }

    /** The memory half of State.Set. */
    method SetBound(key: Key, value: int)
      requires Traced()
      requires (key == ArchiveStartBlockNumber && value == opts.start && pc == Preparing(0))
            || (key == ArchiveEndBlockNumber && value == opts.end && pc == Preparing(2))
      modifies this`log, this`pc, state`descriptor
      ensures Traced() && log == old(log) + [Prepare(false)] && pc == Preparing(old(pc).step + 1)
      ensures state.descriptor.latestArchive == old(state.descriptor.latestArchive)
    {
      OneMore(opts, at, log, Prepare(false));
      log, pc := log + [Prepare(false)], Preparing(pc.step + 1);
      var _ := state.SetDescriptorKey(key, value);
    }

    /** The Redis half. */
    method WriteBound(key: Key, value: int, fails: bool) returns (ok: bool)
      requires Traced()
      requires (key == ArchiveStartBlockNumber && value == opts.start && pc == Preparing(1))
            || (key == ArchiveEndBlockNumber && value == opts.end && pc == Preparing(3))
      modifies this`log, this`pc, state.cache
      ensures Traced() && log == old(log) + [Prepare(fails)] && ok == !fails
      ensures state.cache.entries
        == if ok then old(state.cache.entries)[key := Bytes(Magnitude(value))] else old(state.cache.entries)
      ensures pc == if ok then Preparing(old(pc).step + 1) else Stopped(false)
    {
      OneMore(opts, at, log, Prepare(fails));
      log, pc := log + [Prepare(fails)], if fails then Stopped(false) else Preparing(pc.step + 1);
      ok := state.cache.Write(key, Bytes(Magnitude(value)), fails);
    }

    /** One Set of the range: memory, then Redis, and goroutines after each. */
    method StoreBound(key: Key, value: int, fails: bool) returns (ok: bool)
      requires Traced() && tasks == multiset{}
      requires (key == ArchiveStartBlockNumber && value == opts.start && pc == Preparing(0))
            || (key == ArchiveEndBlockNumber && value == opts.end && pc == Preparing(2))
      modifies this`tasks, this`log, this`steps, this`pc, state`descriptor, state.cache
      ensures Traced() && old(log) <= log && NoTasksNoNews(old(state.descriptor))
      ensures ok == !fails && pc == if ok then Preparing(old(pc).step + 2) else Stopped(false)
    {
      SetBound(key, value);
      Yield();
      ok := WriteBound(key, value, fails);
      Yield();
    }

    /** The part before the loop; `ready` tells whether the loop is to follow. */
    method StoreRange() returns (ready: bool, ok: bool)
      requires Traced() && tasks == multiset{} && pc == Preparing(0)
      modifies this`tasks, this`log, this`steps, this`pc, state`descriptor, state.cache
      ensures Traced() && old(log) <= log && NoTasksNoNews(old(state.descriptor))
      ensures ready <==>
        around.enabled && around.networkKnown && !around.startWriteFails && !around.endWriteFails
        && !around.cancelled && around.clientFound
      ensures ok <==>
        || !around.enabled
        || (around.networkKnown && !around.startWriteFails && !around.endWriteFails
            && (around.cancelled || around.clientFound))
      ensures !around.enabled || !around.networkKnown ==> log == old(log) + [Abort]
      ensures pc == if ready then Preparing(4) else Stopped(false)
    {
      if !around.enabled || !around.networkKnown {
        GiveUp();
        return false, !around.enabled;
      }
      ok := StoreBound(ArchiveStartBlockNumber, opts.start, around.startWriteFails);
      if !ok { return false, false; }
      ok := StoreBound(ArchiveEndBlockNumber, opts.end, around.endWriteFails);
      if !ok { return false, false; }
      if around.cancelled || !around.clientFound {
        GiveUp();
        return false, around.cancelled;
      }
      return true, true;
    }

    /** The block to start from: three looks at the descriptor, and goroutines after each. */
    method ChooseStart() returns (startBlockNumber: int)
      requires Traced() && tasks == multiset{}
      modifies this`tasks, this`log, this`steps, state`descriptor, state.cache
      ensures Traced() && old(log) <= log && NoTasksNoNews(old(state.descriptor))
      ensures var latest := old(state.descriptor.latestArchive);
        startBlockNumber
          == if opts.resumption && latest.Some? && Int64(latest.value) >= opts.start then Int64(latest.value)
             else opts.start
    {
      startBlockNumber := opts.start;
      if !opts.resumption { return; }
      var f := Look();
      if f.latestArchive.None? { return; }
      Yield();
      f := Look();
      if Int64(f.latestArchive.value) < startBlockNumber { return; }
      Yield();
      f := Look();
      startBlockNumber := Int64(f.latestArchive.value);
    }

    /** One turn of the loop: fetch the block and hand it to the hook. */
    method Inspect(i: int)
      requires Traced() && pc == Looping(i) && i <= opts.end
      modifies this, state`descriptor, state.cache
      ensures Traced() && old(log) <= log
      ensures pc == Looping(i + 1) && attempted == old(attempted) + {i}
      ensures Spawns(log) == Spawns(old(log)) + SpawnedBy(BlockByNumber(opts, around, i))
    {
      var block := BlockByNumber(opts, around, i);
      var tagged := if block.Some? then block.value.tagged else 0;
      OneMoreSpawns(log, Fetch(tagged));
      Attempt(tagged);
      Yield();
      if block.Some? {
        var _ := BlockInterceptor(NumberOf(i, tagged), block.value.txs);
      }
      OneMoreSpawns(log, Leave);
      LeaveBlock();
      Yield();
    }

    /** The loop over the blocks. */
    method InspectFrom(startBlockNumber: int)
      requires Traced() && pc == Looping(startBlockNumber)
      modifies this, state`descriptor, state.cache
      ensures Traced() && old(log) <= log
      ensures pc == Looping(if startBlockNumber <= opts.end then opts.end + 1 else startBlockNumber)
      ensures attempted == old(attempted) + Blocks(startBlockNumber, opts.end + 1)
      ensures Spawns(log) == Spawns(old(log)) + SpawnedByAll(opts, around, startBlockNumber, opts.end + 1)
    {
      var i := startBlockNumber;
      while i <= opts.end
        invariant Traced() && old(log) <= log
        invariant pc == Looping(i) && startBlockNumber <= i
        invariant i <= opts.end + 1 || i == startBlockNumber
        invariant attempted == old(attempted) + Blocks(startBlockNumber, i)
        invariant Spawns(log) == Spawns(old(log)) + SpawnedByAll(opts, around, startBlockNumber, i)
      {
        Inspect(i);
        i := i + 1;
      }
    }

    /**
     Start takes only steps of the archive system, whatever goroutines do between any two of them. It
     gets through exactly when nothing stops it before the loop; it has then tried every block from
     the one it resumed at to the end of the range.
     */
    method Start() returns (ok: bool)
      requires ValidOptions(opts) && Traced() && pc == Preparing(0) && tasks == multiset{}
      modifies this, state`descriptor, state.cache
      ensures Traced() && old(log) <= log
      ensures ok <==>
        || !around.enabled
        || (around.networkKnown && !around.startWriteFails && !around.endWriteFails
            && (around.cancelled || around.clientFound))
      ensures var proceeds :=
          && around.enabled && around.networkKnown && !around.startWriteFails && !around.endWriteFails
          && !around.cancelled && around.clientFound;
        && pc == Stopped(proceeds)
        && attempted == old(attempted) +
             if proceeds then Blocks(ResumeAt(opts, old(state.descriptor)), opts.end + 1) else {}
      ensures !around.enabled || !around.networkKnown ==> log == old(log) + [Abort]
      ensures Resumable(opts) && Sound(opts, old(View())) ==> Sound(opts, View())
    {
      ghost var before, was := log, state.descriptor;
      var ready;
      ready, ok := StoreRange();
      if ready {
        var startBlockNumber := ChooseStart();
        assert startBlockNumber == ResumeAt(opts, state.descriptor) == ResumeAt(opts, was);
        Enter();
        InspectFrom(startBlockNumber);
        Complete();
      }
      if Resumable(opts) && Sound(opts, at(before)) { RunKeepsSound(opts, at, before, log); }
    }
  }
}
