/** A run of the pipeline is one process of the concurrent system, left to itself. */
module SoloRuns {
  import opened Stages
  import opened Contracts
  import opened Machine
  import opened Unpacker
  import opened Pipeline
  import Conc = ConcurrentRuns

  /** The process has done to descriptor and table what the run has, and stands where it stands. */
  ghost predicate Matches(m: Run, t: Table, p: Conc.Proc) {
    && t == m.data.t && p.d == m.data.d
    && match m.pc
       case AtCheck => p.at.AtHandler? && p.stage == m.current
       case Returned(_) => p.at.Over? || (p.at.AtHandler? && !HasHandler(p.stage))
       case _ => false
  }

  /** One handler call, with the second statement of the final handler right after the first. */
  function CallOf(t: Table, p: Conc.Proc, a: Answers): (Table, Conc.Proc) {
    var (u, q) := Conc.Step(t, p, a);
    if q.at.AtFallback? then Conc.Step(u, q, a) else (u, q)
  }

  lemma FinalCallMatches(d: Desc, t: Table, a: Answers)
    requires Conc.Writes(Conc.Proc(Final, d, Conc.AtHandler), a)
    ensures var (u, q) := CallOf(t, Conc.Proc(Final, d, Conc.AtHandler), a);
      u == FinalStep(d, t, a).t && q.d == FinalStep(d, t, a).d && q.at.Over?
  {
  }

  lemma OtherCallMatches(s: Stage, d: Desc, t: Table, a: Answers)
    requires HasHandler(s) && !Conc.Writes(Conc.Proc(s, d, Conc.AtHandler), a)
    ensures var out := StepOf(s, d, t, a);
      CallOf(t, Conc.Proc(s, d, Conc.AtHandler), a)
        == (out.t, Conc.Proc(out.next, out.d, if out.status.Fine? then Conc.AtHandler else Conc.Over))
  {
  }

  lemma FinalEnds(d: Desc, t: Table, a: Answers)
    requires Conc.Writes(Conc.Proc(Final, d, Conc.AtHandler), a)
    ensures FinalStep(d, t, a).status.Panicked? || (FinalStep(d, t, a).status.Fine? && FinalStep(d, t, a).next.Done?)
  {
  }

  lemma CallMatches(m: Run, p: Conc.Proc, a: Answers)
    requires m.pc.AtCheck? && HasHandler(m.current) && Matches(m, m.data.t, p) && a == m.data.env(m.data.calls)
    ensures var (u, q) := CallOf(m.data.t, p, a); Matches(Advance(m, false), u, q)
  {
    if Conc.Writes(p, a) {
      FinalCallMatches(p.d, m.data.t, a);
      FinalEnds(p.d, m.data.t, a);
    } else {
      OtherCallMatches(p.stage, p.d, m.data.t, a);
    }
  }

  lemma CallIsEvents(sys: Conc.Sys, i: nat, a: Answers) returns (events: seq<Conc.Event>)
    requires i < |sys.procs|
    ensures var (u, q) := CallOf(sys.t, sys.procs[i], a);
      Conc.Exec(sys, events) == Conc.Sys(u, sys.procs[i := q])
  {
    var go := Conc.Go(i, a);
    var once := Conc.Next(sys, go);
    Conc.ExecOne(sys, go);
    events := [go];
    if once.procs[i].at.AtFallback? {
      Conc.ExecOne(once, go);
      Conc.ExecAppend(sys, [go], [go]);
      events := [go] + [go];
    }
  }

  lemma TurnIsEvents(sys: Conc.Sys, i: nat, m: Run, cancelled: bool) returns (events: seq<Conc.Event>)
    requires i < |sys.procs| && Matches(m, sys.t, sys.procs[i])
    ensures var s := Conc.Exec(sys, events);
      |s.procs| == |sys.procs| && s.procs == sys.procs[i := s.procs[i]]
      && Matches(Advance(m, cancelled), s.t, s.procs[i])
  {
    events := [];
    if m.pc.AtCheck? && HasHandler(m.current) {
      if cancelled {
        events := [Conc.Stop(i)];
        Conc.ExecOne(sys, Conc.Stop(i));
      } else {
        CallMatches(m, sys.procs[i], m.data.env(m.data.calls));
        events := CallIsEvents(sys, i, m.data.env(m.data.calls));
      }
    }
  }

  /** Whatever else is there, a process left to itself goes through the run turn by turn. */
  lemma {:induction false} AloneThroughTurns(
    sys: Conc.Sys, tr: seq<Run>, start: Stage, w: World, cancel: nat -> bool, k: nat)
    returns (events: seq<Conc.Event>)
    requires IsFresh(w.d) && w.t == sys.t && IsRun(tr, start, w, cancel) && k < |tr|
    ensures var s := Conc.Exec(sys, events);
      |s.procs| == |sys.procs| + 1 && s.procs[..|sys.procs|] == sys.procs
      && Matches(tr[k], s.t, s.procs[|sys.procs|])
  {
    if k == 0 {
      events := [Conc.Spawn(start, w.d)];
      Conc.ExecOne(sys, Conc.Spawn(start, w.d));
    } else {
      var before := AloneThroughTurns(sys, tr, start, w, cancel, k - 1);
      assert FollowsAt(tr, k - 1, cancel);
      var more := TurnIsEvents(Conc.Exec(sys, before), |sys.procs|, tr[k - 1], cancel(k - 1));
      Conc.ExecAppend(sys, before, more);
      events := before + more;
    }
  }

  /**
   The concurrent system contains the pipeline: a process spawned on a fresh descriptor and left to
   itself comes to the very descriptor and table of the run, after any number of turns.
   */
  lemma AloneIsTheRun(sys: Conc.Sys, start: Stage, w: World, cancel: nat -> bool, n: nat)
    returns (events: seq<Conc.Event>)
    requires IsFresh(w.d) && w.t == sys.t
    ensures var s := Conc.Exec(sys, events);
      |s.procs| == |sys.procs| + 1 && s.procs[..|sys.procs|] == sys.procs
      && Matches(RunFor(start, w, cancel, n), s.t, s.procs[|sys.procs|])
  {
    var tr := LayOut(start, w, cancel, n);
    events := AloneThroughTurns(sys, tr, start, w, cancel, n);
  }
}

/** What runs side by side do to each other's rows: exactly when an entry is stored and a completed row is safe. */
module Races {
  import opened Base
  import opened Stages
  import opened Contracts
  import opened Unpacker
  import opened ConcurrentRuns
  import FreshRuns
  import SequentialRuns

  function KeyedTo(p: Proc): Option<ContractKey> {
    if p.d.header.Some? then Some(KeyOf(p.d)) else None
  }

  // ----- when an entry is stored -----

  predicate StatementsWork(a: Answers) { !a.saveFails && !a.updateFails }

  function EntryNow(p: Proc, a: Answers): Row
    requires p.d.header.Some? && p.d.tx.Some?
  {
    EntryOf(p.d.(processed := true), a.now)
  }

  /** A run that holds the key's row and is about to rewrite it. */
  predicate Rewrites(p: Proc, a: Answers, key: ContractKey) {
    && p.at.AtHandler? && Writes(p, a) && p.d.model.Some? && KeyOf(p.d) == key && !a.updateFails
  }

  lemma EntryIsCompleted(p: Proc, a: Answers)
    requires p.d.header.Some? && p.d.tx.Some?
    ensures IsCompleted(EntryNow(p, a)) <==> p.d.failed == []
  {
  }

  /** The last writer decides: after its UPDATE the row is the run's entry, whatever others stored since it looked. */
  lemma HolderRewrites(t: Table, p: Proc, a: Answers, key: ContractKey)
    requires Valid(t) && Sound(t, p) && Rewrites(p, a, key)
    ensures Lookup(Step(t, p, a).0, key) == Some(EntryNow(p, a))
    ensures IsCompleted(EntryNow(p, a)) <==> p.d.failed == []
  {
    var entry := EntryNow(p, a);
    EntryIsCompleted(p, a);
    var i := FindId(t.rows, entry.id);
    UpdateKeeps(t, entry, false, i);
    LookupIsUnique(Update(t, entry, false).0, i);
  }

  lemma InsertStores(t: Table, entry: Row)
    requires Valid(t) && t.lastId < MAX_INT64 && Lookup(t, entry.key).None?
    ensures Lookup(Insert(t, entry, false).0, entry.key) == Some(entry.(id := t.lastId + 1))
  {
    InsertKeeps(t, entry, false);
    LookupIsUnique(Insert(t, entry, false).0, |t.rows|);
  }

  /** The run looked its key up in vain, and the key is taken by now. */
  ghost predicate LostRace(t: Table, p: Proc)
    requires p.d.header.Some?
  {
    p.d.model.None? && Lookup(t, KeyOf(p.d)).Some?
  }

  lemma NewcomerStores(t: Table, p: Proc, a: Answers)
    requires Valid(t) && p.at.AtHandler? && Writes(p, a) && p.d.model.None? && !a.saveFails && t.lastId < MAX_INT64
    ensures var (u, q) := Step(t, p, a);
      && (q.at.AtFallback? <==> Lookup(t, KeyOf(p.d)).Some?)
      && (if q.at.AtFallback? then u == t else Lookup(u, KeyOf(p.d)) == Some(EntryNow(p, a).(id := t.lastId + 1)))
  {
    InsertKeeps(t, EntryNow(p, a), false);
    if Lookup(t, KeyOf(p.d)).None? { InsertStores(t, EntryNow(p, a)); }
  }

  /**
   While the statements work, the first statement of a final stage leaves the run at its fallback
   exactly when it lost the race, and the table is then as it was. In every other case the key's
   row is the run's entry, under a new id or under the one the run had found.
   */
  lemma StoredExactly(t: Table, p: Proc, a: Answers)
    requires Valid(t) && Sound(t, p) && p.at.AtHandler? && Writes(p, a)
    requires StatementsWork(a) && t.lastId < MAX_INT64
    ensures var (u, q) := Step(t, p, a);
      var stored := if p.d.model.None? then EntryNow(p, a).(id := t.lastId + 1) else EntryNow(p, a);
      && (q.at.AtFallback? <==> LostRace(t, p))
      && (if q.at.AtFallback? then u == t else Lookup(u, KeyOf(p.d)) == Some(stored))
  {
    if p.d.model.None? { NewcomerStores(t, p, a); } else { HolderRewrites(t, p, a, KeyOf(p.d)); }
  }

  // ----- one step and one row -----

  lemma FirstWriteKeepsOthers(t: Table, d: Desc, a: Answers, entry: Row, key: ContractKey)
    requires Valid(t) && d.header.Some? && d.tx.Some? && entry == EntryOf(d, a.now) && entry.key != key
    requires d.model.Some? ==> d.model.value.key == KeyOf(d) && StillThere(t, d.model.value)
    ensures Lookup(FirstWrite(d, t, a, entry).0, key) == Lookup(t, key)
  {
    var u := FirstWrite(d, t, a, entry).0;
    if d.model.None? {
      if u != t { SequentialRuns.FoundBefore(t, u, entry.(id := t.lastId + 1), key); }
    } else {
      var i := FindId(t.rows, entry.id);
      UpdateKeeps(t, entry, a.updateFails, i);
      if !a.updateFails {
        SequentialRuns.FoundBeside(t, u, i, entry.(createdAt := t.rows[i].createdAt), key);
      }
    }
  }

  /** No other step changes the row of a key that is taken. */
  lemma OnlyHoldersRewrite(t: Table, p: Proc, a: Answers, key: ContractKey)
    requires Valid(t) && Sound(t, p) && Lookup(t, key).Some? && !Rewrites(p, a, key)
    ensures Lookup(Step(t, p, a).0, key) == Lookup(t, key)
  {
    if p.at.AtFallback? {
      UpdateOfUnsavedIsIdle(t, p.at.entry, a.fallbackFails);
    } else if p.at.AtHandler? && HasHandler(p.stage) {
      if Writes(p, a) {
        var d := p.d.(processed := true);
        if KeyOf(p.d) == key { assert d.model.Some? ==> a.updateFails; }
        else { FirstWriteKeepsOthers(t, d, a, EntryOf(d, a.now), key); }
      } else {
        OnlyDiscoveryReads(p.stage, p.d, t, a);
      }
    }
  }

  /**
   A completed row is still completed after a step if and only if that step is not the UPDATE of a
   run that holds the row and has a failed stage.
   */
  lemma CompletedSurvivesStep(t: Table, p: Proc, a: Answers, key: ContractKey)
    requires Valid(t) && Sound(t, p) && Lookup(t, key).Some? && IsCompleted(Lookup(t, key).value)
    ensures var row := Lookup(Step(t, p, a).0, key);
      row.Some? && (IsCompleted(row.value) <==> !(Rewrites(p, a, key) && p.d.failed != []))
  {
    if Rewrites(p, a, key) {
      HolderRewrites(t, p, a, key);
    } else {
      OnlyHoldersRewrite(t, p, a, key);
    }
  }

  // ----- every interleaving and one row -----

  /** The run is past discovery with a row of this key in hand and its final stage still to come. */
  predicate Holds(p: Proc, key: ContractKey) {
    && p.at.AtHandler? && (FreshRuns.IsMiddle(p.stage) || p.stage.Final?)
    && Discover in p.d.completed && p.d.tx.Some? && KeyedTo(p) == Some(key) && p.d.model.Some?
  }

  ghost predicate NobodyHolds(sys: Sys, key: ContractKey) {
    forall i :: 0 <= i < |sys.procs| ==> !Holds(sys.procs[i], key)
  }

  ghost predicate Unforced(events: seq<Event>) {
    forall i :: 0 <= i < |events| && events[i].Go? ==> !events[i].a.forceReprocess
  }

  lemma DiscoveryStopsAtCompleted(t: Table, d: Desc, a: Answers, key: ContractKey)
    requires d.header.Some? && KeyOf(d) == key && !a.forceReprocess
    requires Lookup(t, key).Some? && IsCompleted(Lookup(t, key).value)
    ensures var out := DiscoverStep(d, t, a); !out.status.Fine? || out.next.Done?
  {
  }

  lemma RedirectLeadsBack(s: Stage, d: Desc, t: Table, a: Answers)
    requires HasHandler(s) && !s.Discover? && !s.ErrorStage? && Discover !in d.completed
    ensures var out := StepOf(s, d, t, a); !out.status.Fine? || out.next.Discover?
  {
  }

  /** A run that does not hold the row does not come to hold it while it is completed. */
  lemma StepTakesNoHold(t: Table, p: Proc, a: Answers, key: ContractKey)
    requires !Holds(p, key) && !a.forceReprocess
    requires Lookup(t, key).Some? && IsCompleted(Lookup(t, key).value)
    ensures !Holds(Step(t, p, a).1, key)
  {
    if p.at.AtHandler? && HasHandler(p.stage) && !Writes(p, a) {
      if p.stage.Discover? {
        DiscoveryReadsOnly(p.d, t, a);
        if KeyedTo(p) == Some(key) { DiscoveryStopsAtCompleted(t, p.d, a, key); }
      } else if !p.stage.ErrorStage? && Discover !in p.d.completed {
        RedirectLeadsBack(p.stage, p.d, t, a);
      } else if FreshRuns.IsMiddle(p.stage) {
        FreshRuns.MiddleKeepsSubject(p.stage, p.d, t, a);
      }
    }
  }

  lemma UnheldSurvivesNext(sys: Sys, e: Event, key: ContractKey)
    requires AllSound(sys) && NobodyHolds(sys, key) && (e.Go? ==> !e.a.forceReprocess)
    requires Lookup(sys.t, key).Some? && IsCompleted(Lookup(sys.t, key).value)
    ensures NobodyHolds(Next(sys, e), key) && Lookup(Next(sys, e).t, key) == Lookup(sys.t, key)
  {
    if e.Go? && e.proc < |sys.procs| {
      StepTakesNoHold(sys.t, sys.procs[e.proc], e.a, key);
      OnlyHoldersRewrite(sys.t, sys.procs[e.proc], e.a, key);
    }
  }

  /** While nobody holds it, a completed row is what it was, however many runs go on or begin. */
  lemma {:induction false} UnheldStays(sys: Sys, events: seq<Event>, key: ContractKey)
    requires AllSound(sys) && NobodyHolds(sys, key) && Unforced(events)
    requires Lookup(sys.t, key).Some? && IsCompleted(Lookup(sys.t, key).value)
    ensures NobodyHolds(Exec(sys, events), key) && Lookup(Exec(sys, events).t, key) == Lookup(sys.t, key)
  {
    if events != [] {
      var before := events[..|events| - 1];
      UnheldStays(sys, before, key);
      InterleavingKeeps(sys, before);
      UnheldSurvivesNext(Exec(sys, before), events[|events| - 1], key);
    }
  }

  // ----- driving a run to its final stage -----

  function Repeat(i: nat, a: Answers, n: nat): seq<Event> { seq(n, _ => Go(i, a)) }

  predicate Calm(a: Answers) { !a.panics && a.panicsInCall.None? }

  function StageAfter(s: Stage): Stage
    requires FreshRuns.IsMiddle(s)
  {
    match s
    case Metadata => SourceProviders
    case SourceProviders => Sources
    case Sources => Parser
    case Parser => Constructor
    case Constructor => Final
  }

  /** How many calls a run past discovery is away from its final stage. */
  function Distance(s: Stage): nat
    requires FreshRuns.IsMiddle(s) || s.Final?
  {
    match s
    case Metadata => 5
    case SourceProviders => 4
    case Sources => 3
    case Parser => 2
    case Constructor => 1
    case Final => 0
  }

  /** The answers that fail no stage, and those that fail metadata. */
  predicate FailsNothing(a: Answers) { !a.metadataFails && !a.parseFails }

  predicate FailsMetadata(a: Answers) { a.metadataFails && !a.hasMetadata && a.isValid }

  lemma CalmProviders(d: Desc, t: Table, a: Answers)
    requires Discover in d.completed && Calm(a)
    ensures var out := ProvidersStep(d, t, a);
      && out.status.Fine? && out.next.Sources? && Discover in out.d.completed
      && (d.failed == [] ==> out.d.failed == []) && (Metadata in d.failed ==> Metadata in out.d.failed)
      && (Final !in d.failed ==> Final !in out.d.failed)
  {
    FreshRuns.CacheKeepsSubject(d, a);
    FreshRuns.FetchKeepsSubject(FromCache(d, a), a);
  }

  lemma CalmParser(d: Desc, t: Table, a: Answers)
    requires Discover in d.completed && Calm(a)
    ensures var out := ParserStep(d, t, a);
      && out.status.Fine? && out.next.Constructor? && Discover in out.d.completed
      && (!a.parseFails && d.failed == [] ==> out.d.failed == [])
      && (Metadata in d.failed ==> Metadata in out.d.failed)
      && (Final !in d.failed ==> Final !in out.d.failed)
  {
  }

  lemma CalmMetadata(d: Desc, t: Table, a: Answers)
    requires Discover in d.completed && Calm(a)
    ensures var out := MetadataStep(d, t, a);
      && out.status.Fine? && out.next.SourceProviders? && Discover in out.d.completed
      && (!a.metadataFails && d.failed == [] ==> out.d.failed == [])
      && (Metadata in d.failed || (!d.selfDestructed && FailsMetadata(a)) ==> Metadata in out.d.failed)
      && (Final !in d.failed ==> Final !in out.d.failed)
  {
  }

  lemma CalmMiddle(s: Stage, d: Desc, t: Table, a: Answers)
    requires FreshRuns.IsMiddle(s) && Discover in d.completed && Calm(a)
    ensures var out := StepOf(s, d, t, a);
      && out.status.Fine? && out.next == StageAfter(s) && Discover in out.d.completed
      && (FailsNothing(a) && d.failed == [] ==> out.d.failed == [])
      && (Metadata in d.failed ==> Metadata in out.d.failed)
      && (s.Metadata? && !d.selfDestructed && FailsMetadata(a) ==> Metadata in out.d.failed)
      && (Final !in d.failed ==> Final !in out.d.failed)
  {
    if s.Metadata? { CalmMetadata(d, t, a); }
    else if s.SourceProviders? { CalmProviders(d, t, a); }
    else if s.Parser? { CalmParser(d, t, a); }
  }

  /** A stage of the run has failed, or one still to come can. */
  predicate CanStillFail(p: Proc) {
    || p.d.failed != []
    || p.stage.Metadata? || p.stage.SourceProviders?
    || ((p.stage.Sources? || p.stage.Parser?) && p.d.info.hasSources)
  }

  /** Sources that are found and cannot be parsed. */
  predicate FailsParsing(a: Answers) { !a.cachedSourcesLoad && a.sourcesFail && a.info.hasSources && a.parseFails }

  lemma FailureRemainsPossible(s: Stage, d: Desc, t: Table, a: Answers)
    requires FreshRuns.IsMiddle(s) && Discover in d.completed && Calm(a) && FailsParsing(a)
    requires CanStillFail(Proc(s, d, AtHandler))
    ensures CanStillFail(Proc(StageAfter(s), StepOf(s, d, t, a).d, AtHandler))
  {
  }

  /** From `p` to `q` the run has come to its final stage, with the same contract and row in hand. */
  ghost predicate CameToFinal(p: Proc, q: Proc, a: Answers) {
    && q.at.AtHandler? && q.stage.Final? && Discover in q.d.completed
    && FreshRuns.SameSubject(q.d, p.d) && q.d.model == p.d.model
    && (FailsNothing(a) && p.d.failed == [] ==> q.d.failed == [])
    && (Final !in p.d.failed ==> Final !in q.d.failed)
    && (FailsParsing(a) && CanStillFail(p) ==> q.d.failed != [])
    && (Metadata in p.d.failed || (p.stage.Metadata? && !p.d.selfDestructed && FailsMetadata(a)) ==> q.d.failed != [])
  }

  lemma RepeatOnce(sys: Sys, i: nat, a: Answers, n: nat)
    requires n > 0
    ensures Exec(sys, Repeat(i, a, n)) == Exec(Next(sys, Go(i, a)), Repeat(i, a, n - 1))
  {
    assert Repeat(i, a, n) == [Go(i, a)] + Repeat(i, a, n - 1);
    ExecAppend(sys, [Go(i, a)], Repeat(i, a, n - 1));
    ExecOne(sys, Go(i, a));
  }

  /** From `p` to `q` the run has gone through one stage, likewise. */
  ghost predicate WentThrough(p: Proc, q: Proc, a: Answers)
    requires FreshRuns.IsMiddle(p.stage)
  {
    && q.at.AtHandler? && q.stage == StageAfter(p.stage) && Discover in q.d.completed
    && FreshRuns.SameSubject(q.d, p.d) && q.d.model == p.d.model
    && (FailsNothing(a) && p.d.failed == [] ==> q.d.failed == [])
    && (Final !in p.d.failed ==> Final !in q.d.failed)
    && (FailsParsing(a) && CanStillFail(p) ==> CanStillFail(q))
    && (Metadata in p.d.failed || (p.stage.Metadata? && !p.d.selfDestructed && FailsMetadata(a)) ==>
          Metadata in q.d.failed)
  }

  lemma ThenCameToFinal(p: Proc, r: Proc, q: Proc, a: Answers)
    requires FreshRuns.IsMiddle(p.stage) && WentThrough(p, r, a) && CameToFinal(r, q, a)
    ensures CameToFinal(p, q, a)
  {
  }

  lemma GoThroughMiddle(sys: Sys, i: nat, a: Answers) returns (q: Proc)
    requires i < |sys.procs| && Calm(a)
    requires var p := sys.procs[i]; p.at.AtHandler? && Discover in p.d.completed && FreshRuns.IsMiddle(p.stage)
    ensures Next(sys, Go(i, a)) == Sys(sys.t, sys.procs[i := q])
    ensures WentThrough(sys.procs[i], q, a)
  {
    var p := sys.procs[i];
    CalmMiddle(p.stage, p.d, sys.t, a);
    FreshRuns.MiddleKeepsSubject(p.stage, p.d, sys.t, a);
    if FailsParsing(a) && CanStillFail(p) { FailureRemainsPossible(p.stage, p.d, sys.t, a); }
    var out := StepOf(p.stage, p.d, sys.t, a);
    q := Proc(out.next, out.d, AtHandler);
  }

  lemma {:induction false} ComesToFinal(sys: Sys, i: nat, a: Answers) returns (q: Proc)
    requires i < |sys.procs| && Calm(a)
    requires var p := sys.procs[i];
      p.at.AtHandler? && Discover in p.d.completed && (FreshRuns.IsMiddle(p.stage) || p.stage.Final?)
    ensures Exec(sys, Repeat(i, a, Distance(sys.procs[i].stage))) == Sys(sys.t, sys.procs[i := q])
    ensures CameToFinal(sys.procs[i], q, a)
    decreases Distance(sys.procs[i].stage)
  {
    var p := sys.procs[i];
    if p.stage.Final? {
      q := p;
      assert Repeat(i, a, 0) == [];
      assert sys.procs[i := p] == sys.procs;
    } else {
      var r := GoThroughMiddle(sys, i, a);
      RepeatOnce(sys, i, a, Distance(p.stage));
      q := ComesToFinal(Sys(sys.t, sys.procs[i := r]), i, a);
      ThenCameToFinal(p, r, q, a);
    }
  }

  // ----- exactly when a completed row is safe -----

  /** Outside calls that all go well, find nothing and fail nothing. */
  function Quiet(info: ContractInfo, now: int): Answers {
    Answers(
      panics := false, panicsInCall := None, isValid := true, lookupFails := false, forceReprocess := false,
      hasMetadata := false, metadataFails := false, cachedSourcesLoad := false, cacheHolds := false,
      sourcesFail := false, parseFails := false, hasConstructor := false, info := info,
      saveFails := false, updateFails := false, fallbackFails := false,
      panicsAfterWrite := false, panicsOnDisk := false, sourcesWriteFails := false, now := now)
  }

  lemma GoByHolder(sys: Sys, i: nat, a: Answers, key: ContractKey)
    requires AllSound(sys) && i < |sys.procs| && Rewrites(sys.procs[i], a, key)
    ensures Lookup(Next(sys, Go(i, a)).t, key) == Some(EntryNow(sys.procs[i], a))
  {
    HolderRewrites(sys.t, sys.procs[i], a, key);
  }

  /** A holder driven to its final stage and through its UPDATE: the row is then its entry. */
  lemma HolderComesHome(sys: Sys, i: nat, a: Answers, key: ContractKey) returns (q: Proc, events: seq<Event>)
    requires AllSound(sys) && i < |sys.procs| && Holds(sys.procs[i], key)
    requires Calm(a) && !a.updateFails && !a.forceReprocess
    ensures Unforced(events) && CameToFinal(sys.procs[i], q, a) && Rewrites(q, a, key)
    ensures Lookup(Exec(sys, events).t, key) == Some(EntryNow(q, a))
    ensures IsCompleted(EntryNow(q, a)) <==> q.d.failed == []
  {
    var drive := Repeat(i, a, Distance(sys.procs[i].stage));
    q := ComesToFinal(sys, i, a);
    var s := Exec(sys, drive);
    InterleavingKeeps(sys, drive);
    GoByHolder(s, i, a, key);
    EntryIsCompleted(q, a);
    ExecAppend(sys, drive, [Go(i, a)]);
    ExecOne(s, Go(i, a));
    events := drive + [Go(i, a)];
  }

  /** Whoever holds a row can still change it, without any reprocessing being forced. */
  lemma HolderCanRewrite(sys: Sys, i: nat, key: ContractKey) returns (events: seq<Event>)
    requires AllSound(sys) && i < |sys.procs| && Holds(sys.procs[i], key) && Lookup(sys.t, key).Some?
    ensures Unforced(events) && Lookup(Exec(sys, events).t, key) != Lookup(sys.t, key)
  {
    var a := Quiet(sys.procs[i].d.info, Lookup(sys.t, key).value.updatedAt + 1);
    var q;
    q, events := HolderComesHome(sys, i, a, key);
    assert EntryNow(q, a).updatedAt == a.now;
  }

  ghost predicate Safe(sys: Sys, key: ContractKey) {
    forall events :: Unforced(events) ==> Lookup(Exec(sys, events).t, key) == Lookup(sys.t, key)
  }

  /**
   Without forced reprocessing, no interleaving of the runs under way and of any that begin later
   changes a completed row if and only if no run under way holds that row already.
   */
  lemma CompletedRowIsSafeExactly(sys: Sys, key: ContractKey)
    requires AllSound(sys) && Lookup(sys.t, key).Some? && IsCompleted(Lookup(sys.t, key).value)
    ensures Safe(sys, key) <==> NobodyHolds(sys, key)
  {
    if NobodyHolds(sys, key) {
      forall events | Unforced(events)
        ensures Lookup(Exec(sys, events).t, key) == Lookup(sys.t, key)
      {
        UnheldStays(sys, events, key);
      }
    } else {
      var i :| 0 <= i < |sys.procs| && Holds(sys.procs[i], key);
      var events := HolderCanRewrite(sys, i, key);
    }
  }

  // ----- exactly when a completed row stays completed -----

  ghost predicate NobodyThreatens(sys: Sys, key: ContractKey) {
    forall i :: 0 <= i < |sys.procs| && Holds(sys.procs[i], key) ==> !CanStillFail(sys.procs[i])
  }

  predicate IsDone(t: Table, key: ContractKey) { Lookup(t, key).Some? && IsCompleted(Lookup(t, key).value) }

  /** A holder that can no longer fail stays one, or lets go. */
  lemma HarmlessStaysHarmless(t: Table, p: Proc, a: Answers, key: ContractKey)
    requires Holds(p, key) && !CanStillFail(p)
    ensures var q := Step(t, p, a).1; Holds(q, key) ==> !CanStillFail(q)
  {
    if !p.stage.Final? { FreshRuns.MiddleKeepsSubject(p.stage, p.d, t, a); }
  }

  lemma UnthreatenedSurvivesNext(sys: Sys, e: Event, key: ContractKey)
    requires AllSound(sys) && NobodyThreatens(sys, key) && (e.Go? ==> !e.a.forceReprocess) && IsDone(sys.t, key)
    ensures NobodyThreatens(Next(sys, e), key) && IsDone(Next(sys, e).t, key)
  {
    if e.Go? && e.proc < |sys.procs| {
      var p := sys.procs[e.proc];
      CompletedSurvivesStep(sys.t, p, e.a, key);
      if Holds(p, key) { HarmlessStaysHarmless(sys.t, p, e.a, key); } else { StepTakesNoHold(sys.t, p, e.a, key); }
    }
  }

  lemma {:induction false} UnthreatenedStays(sys: Sys, events: seq<Event>, key: ContractKey)
    requires AllSound(sys) && NobodyThreatens(sys, key) && Unforced(events) && IsDone(sys.t, key)
    ensures NobodyThreatens(Exec(sys, events), key) && IsDone(Exec(sys, events).t, key)
  {
    if events != [] {
      var before := events[..|events| - 1];
      UnthreatenedStays(sys, before, key);
      InterleavingKeeps(sys, before);
      UnthreatenedSurvivesNext(Exec(sys, before), events[|events| - 1], key);
    }
  }

  lemma HolderCanUndo(sys: Sys, i: nat, key: ContractKey) returns (events: seq<Event>)
    requires AllSound(sys) && i < |sys.procs| && Holds(sys.procs[i], key) && CanStillFail(sys.procs[i])
    ensures Unforced(events) && !IsDone(Exec(sys, events).t, key)
  {
    var a := Quiet(sys.procs[i].d.info.(hasSources := true), 0).(sourcesFail := true, parseFails := true);
    var q;
    q, events := HolderComesHome(sys, i, a, key);
  }

  ghost predicate AlwaysDone(sys: Sys, key: ContractKey) {
    forall events :: Unforced(events) ==> IsDone(Exec(sys, events).t, key)
  }

  /**
   Without forced reprocessing, a completed row stays completed under every interleaving if and only
   if no run under way holds it and has failed a stage or can still fail one.
   */
  lemma StaysCompletedExactly(sys: Sys, key: ContractKey)
    requires AllSound(sys) && IsDone(sys.t, key)
    ensures AlwaysDone(sys, key) <==> NobodyThreatens(sys, key)
  {
    if NobodyThreatens(sys, key) {
      forall events | Unforced(events)
        ensures IsDone(Exec(sys, events).t, key)
      {
        UnthreatenedStays(sys, events, key);
      }
    } else {
      var i :| 0 <= i < |sys.procs| && Holds(sys.procs[i], key) && CanStillFail(sys.procs[i]);
      var events := HolderCanUndo(sys, i, key);
    }
  }

  // ----- two traces -----

  /** Spawn a run and let it come to its final stage. */
  function Arrive(i: nat, d: Desc, a: Answers): seq<Event> { [Spawn(Discover, d)] + Repeat(i, a, 6) }

  ghost predicate Complete(d: Desc) { IsFresh(d) && d.header.Some? && d.tx.Some? && d.hasReceipt }

  /** The answers let a run reach its final stage and store its entry. */
  predicate Plain(a: Answers) {
    Calm(a) && !a.lookupFails && !a.forceReprocess && StatementsWork(a) && !a.fallbackFails
    && !a.panicsAfterWrite && !a.sourcesWriteFails
  }

  ghost predicate IsOpen(t: Table, d: Desc)
    requires d.header.Some?
  {
    Lookup(t, KeyOf(d)).None? || !IsCompleted(Lookup(t, KeyOf(d)).value)
  }

  lemma GoDiscover(d: Desc, t: Table, a: Answers) returns (q: Proc)
    requires Complete(d) && Plain(a) && IsOpen(t, d)
    ensures Step(t, Proc(Discover, d, AtHandler), a) == (t, q)
    ensures q.at.AtHandler? && q.stage.Metadata? && q.d.completed == [Discover] && q.d.failed == []
    ensures FreshRuns.SameSubject(q.d, d) && q.d.model == Lookup(t, KeyOf(d)) && q.d.selfDestructed == !a.isValid
  {
    var out := DiscoverStep(d, t, a);
    q := Proc(out.next, out.d, AtHandler);
  }

  /** The run stands before its final stage with what it found in hand. */
  ghost predicate Arrived(q: Proc, d: Desc, t: Table, a: Answers)
    requires d.header.Some?
  {
    && q.at.AtHandler? && Writes(q, a) && KeyedTo(q) == Some(KeyOf(d)) && q.d.model == Lookup(t, KeyOf(d))
    && (FailsNothing(a) ==> q.d.failed == []) && (FailsMetadata(a) ==> q.d.failed != []) && Final !in q.d.failed
  }

  lemma Arrives(sys: Sys, d: Desc, a: Answers) returns (q: Proc)
    requires Complete(d) && Plain(a) && IsOpen(sys.t, d)
    ensures Exec(sys, Arrive(|sys.procs|, d, a)) == Sys(sys.t, sys.procs + [q])
    ensures Arrived(q, d, sys.t, a)
  {
    var i, spawned := |sys.procs|, Next(sys, Spawn(Discover, d));
    var r := GoDiscover(d, sys.t, a);
    var found := Sys(sys.t, sys.procs + [r]);
    assert Next(spawned, Go(i, a)) == found;
    RepeatOnce(spawned, i, a, 6);
    q := ComesToFinal(found, i, a);
    assert found.procs[i := q] == sys.procs + [q];
    ExecOne(sys, Spawn(Discover, d));
    ExecAppend(sys, [Spawn(Discover, d)], Repeat(i, a, 6));
  }

  /** Run 0 stores a partial row; runs 1 and 2 find it; run 1 completes it. Run 2 is left standing before its write. */
  function Overtaken(d: Desc, good: Answers, bad: Answers): seq<Event> {
    Arrive(0, d, bad) + [Go(0, bad)] + Arrive(1, d, good) + Arrive(2, d, bad) + [Go(1, good)]
  }

  lemma PartialRow(t: Table, d: Desc, bad: Answers) returns (sys: Sys)
    requires Valid(t) && t.lastId < MAX_INT64 && Complete(d) && Lookup(t, KeyOf(d)).None?
    requires Plain(bad) && FailsMetadata(bad)
    ensures sys == Exec(Sys(t, []), Arrive(0, d, bad) + [Go(0, bad)])
    ensures AllSound(sys) && |sys.procs| == 1
    ensures Lookup(sys.t, KeyOf(d)).Some? && !IsCompleted(Lookup(sys.t, KeyOf(d)).value)
  {
    var empty := Sys(t, []);
    var q := Arrives(empty, d, bad);
    var arrived := Sys(t, [q]);
    assert [] + [q] == [q];
    InterleavingKeeps(empty, Arrive(0, d, bad));
    StoredExactly(t, q, bad);
    EntryIsCompleted(q, bad);
    ExecOne(arrived, Go(0, bad));
    ExecAppend(empty, Arrive(0, d, bad), [Go(0, bad)]);
    sys := Next(arrived, Go(0, bad));
    NextKeeps(arrived, Go(0, bad));
  }

  /** Two runs hold the row: once one has completed it, the other, which failed a stage, undoes that. */
  lemma TwoHolders(sys: Sys, d: Desc, good: Answers, bad: Answers)
    requires AllSound(sys) && |sys.procs| == 1 && Complete(d)
    requires Lookup(sys.t, KeyOf(d)).Some? && !IsCompleted(Lookup(sys.t, KeyOf(d)).value)
    requires Plain(good) && Plain(bad) && FailsNothing(good) && FailsMetadata(bad)
    ensures var s := Exec(sys, Arrive(1, d, good) + Arrive(2, d, bad) + [Go(1, good)]);
      var u := Next(s, Go(2, bad));
      && AllSound(s) && Lookup(s.t, KeyOf(d)).Some? && IsCompleted(Lookup(s.t, KeyOf(d)).value)
      && Lookup(u.t, KeyOf(d)).Some? && !IsCompleted(Lookup(u.t, KeyOf(d)).value)
  {
    var key := KeyOf(d);
    var one := Arrives(sys, d, good);
    var with1 := Sys(sys.t, sys.procs + [one]);
    var two := Arrives(with1, d, bad);
    var with2 := Sys(sys.t, sys.procs + [one] + [two]);
    InterleavingKeeps(sys, Arrive(1, d, good));
    InterleavingKeeps(with1, Arrive(2, d, bad));
    ExecAppend(sys, Arrive(1, d, good), Arrive(2, d, bad));
    ExecAppend(sys, Arrive(1, d, good) + Arrive(2, d, bad), [Go(1, good)]);
    ExecOne(with2, Go(1, good));
    GoByHolder(with2, 1, good, key);
    EntryIsCompleted(one, good);
    NextKeeps(with2, Go(1, good));
    GoByHolder(Next(with2, Go(1, good)), 2, bad, key);
    EntryIsCompleted(two, bad);
  }

  /**
   From any table that lacks the key: after `Overtaken` the row is completed, and the next write,
   by a run that read it before, makes it partial again.
   */
  lemma CompletedRowUndone(t: Table, d: Desc, good: Answers, bad: Answers)
    requires Valid(t) && t.lastId < MAX_INT64 && Complete(d) && Lookup(t, KeyOf(d)).None?
    requires Plain(good) && Plain(bad) && FailsNothing(good) && FailsMetadata(bad)
    ensures var s := Exec(Sys(t, []), Overtaken(d, good, bad));
      var u := Next(s, Go(2, bad));
      && Lookup(s.t, KeyOf(d)).Some? && IsCompleted(Lookup(s.t, KeyOf(d)).value)
      && Lookup(u.t, KeyOf(d)).Some? && !IsCompleted(Lookup(u.t, KeyOf(d)).value)
  {
    var sys := PartialRow(t, d, bad);
    TwoHolders(sys, d, good, bad);
    var head := Arrive(0, d, bad) + [Go(0, bad)];
    var tail := Arrive(1, d, good) + Arrive(2, d, bad) + [Go(1, good)];
    ExecAppend(Sys(t, []), head, tail);
    assert head + tail == Overtaken(d, good, bad);
  }

  /** Two runs look the key up in vain, and the first stores its entry. */
  function Raced(d: Desc, a: Answers, b: Answers): seq<Event> {
    Arrive(0, d, a) + Arrive(1, d, b) + [Go(0, a)]
  }

  lemma BothArrive(t: Table, d: Desc, a: Answers, b: Answers) returns (one: Proc, two: Proc)
    requires Valid(t) && Complete(d) && Lookup(t, KeyOf(d)).None? && Plain(a) && Plain(b)
    ensures Exec(Sys(t, []), Arrive(0, d, a) + Arrive(1, d, b)) == Sys(t, [one, two])
    ensures AllSound(Sys(t, [one, two])) && Arrived(one, d, t, a) && Arrived(two, d, t, b)
  {
    var empty := Sys(t, []);
    one := Arrives(empty, d, a);
    assert [] + [one] == [one];
    two := Arrives(Sys(t, [one]), d, b);
    assert [one] + [two] == [one, two];
    ExecAppend(empty, Arrive(0, d, a), Arrive(1, d, b));
    InterleavingKeeps(empty, Arrive(0, d, a) + Arrive(1, d, b));
  }

  lemma LoserFallsBack(sys: Sys, i: nat, a: Answers)
    requires AllSound(sys) && i < |sys.procs| && Plain(a)
    requires var p := sys.procs[i]; p.at.AtHandler? && Writes(p, a) && LostRace(sys.t, p) && Final !in p.d.failed
    ensures var lost := Next(sys, Go(i, a));
      var over := Next(lost, Go(i, a));
      && lost.t == sys.t && lost.procs[i].at.AtFallback?
      && over.t == sys.t && over.procs[i].at.Over? && Final in over.procs[i].d.completed
  {
    var lost := Next(sys, Go(i, a));
    InsertKeeps(sys.t, EntryNow(sys.procs[i], a), false);
    NextKeeps(sys, Go(i, a));
    FallbackIsIdle(lost, [], i, a);
  }

  /**
   The fallback is reached: from any table that lacks the key, after `Raced` the next statement of
   run 1 finds the key taken, its fallback leaves the row to run 0, and run 1 lists its final
   stage as completed all the same.
   */
  lemma LostRaceIsReached(t: Table, d: Desc, a: Answers, b: Answers)
    requires Valid(t) && t.lastId < MAX_INT64 && Complete(d) && Lookup(t, KeyOf(d)).None? && Plain(a) && Plain(b)
    ensures var s := Exec(Sys(t, []), Raced(d, a, b));
      var lost := Next(s, Go(1, b));
      var over := Next(lost, Go(1, b));
      && |s.procs| == 2 && Lookup(s.t, KeyOf(d)).Some?
      && lost.procs[1].at.AtFallback? && over.t == s.t && over.procs[1].at.Over?
      && Final in over.procs[1].d.completed
  {
    var one, two := BothArrive(t, d, a, b);
    var both := Sys(t, [one, two]);
    ExecAppend(Sys(t, []), Arrive(0, d, a) + Arrive(1, d, b), [Go(0, a)]);
    ExecOne(both, Go(0, a));
    StoredExactly(t, one, a);
    var s := Next(both, Go(0, a));
    NextKeeps(both, Go(0, a));
    LoserFallsBack(s, 1, b);
  }

  // ----- the same from an empty table, with every value given -----

  const NOTHING_KNOWN: ContractInfo := ContractInfo(false, "", "", "")

  const SOME_CONTRACT: Desc :=
    Desc(1, 7, Some(Header(100, 42)), Some(5), true, NOTHING_KNOWN, None, Unset, [], [], false, false)

  lemma RacesFromAnEmptyTable()
    ensures var good := Quiet(NOTHING_KNOWN, 1);
      var bad := good.(metadataFails := true);
      var s := Exec(Sys(Table([], 0), []), Overtaken(SOME_CONTRACT, good, bad));
      var u := Next(s, Go(2, bad));
      && Lookup(s.t, ContractKey(1, 100, 7)).Some? && IsCompleted(Lookup(s.t, ContractKey(1, 100, 7)).value)
      && Lookup(u.t, ContractKey(1, 100, 7)).Some? && !IsCompleted(Lookup(u.t, ContractKey(1, 100, 7)).value)
    ensures var good := Quiet(NOTHING_KNOWN, 1);
      var s := Exec(Sys(Table([], 0), []), Raced(SOME_CONTRACT, good, good) + [Go(1, good)]);
      |s.procs| == 2 && s.procs[1].at.AtFallback?
  {
    var good := Quiet(NOTHING_KNOWN, 1);
    var bad := good.(metadataFails := true);
    assert KeyOf(SOME_CONTRACT) == ContractKey(1, 100, 7);
    CompletedRowUndone(Table([], 0), SOME_CONTRACT, good, bad);
    LostRaceIsReached(Table([], 0), SOME_CONTRACT, good, good);
    var sys := Sys(Table([], 0), []);
    ExecAppend(sys, Raced(SOME_CONTRACT, good, good), [Go(1, good)]);
    ExecOne(Exec(sys, Raced(SOME_CONTRACT, good, good)), Go(1, good));
  }
}
