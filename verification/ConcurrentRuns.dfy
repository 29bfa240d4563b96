/**
 Runs side by side. Every run keeps its own descriptor and all share one table; each SQL statement
 is atomic, and between two statements any other run may issue any of its own.
 */
module ConcurrentRuns {
  import opened Base
  import opened Stages
  import opened Contracts
  import opened Machine
  import opened Unpacker
  import FreshRuns

  /** A run stands before a handler, between the two statements of a colliding INSERT, or is over. */
  datatype Where = AtHandler | AtFallback(entry: Row) | Over

  datatype Proc = Proc(stage: Stage, d: Desc, at: Where)

  datatype Sys = Sys(t: Table, procs: seq<Proc>)

  datatype Event =
    | Spawn(start: Stage, d: Desc)
    | Go(proc: nat, a: Answers)
    | Stop(proc: nat)

  /** The final stage has come to its first statement. */
  predicate Writes(p: Proc, a: Answers) {
    p.stage.Final? && !a.panics && Discover in p.d.completed && p.d.header.Some? && p.d.tx.Some?
  }

  function IssueFirst(t: Table, p: Proc, a: Answers): (Table, Proc)
    requires Writes(p, a)
  {
    var d := p.d.(processed := true);
    var entry := EntryOf(d, a.now);
    var (u, result) := FirstWrite(d, t, a, entry);
    if NeedsFallback(d, result) then (u, Proc(Final, d, AtFallback(entry)))
    else if a.panicsAfterWrite then (u, Proc(Final, d, Over))
    else (u, Proc(Done, FinishFinal(d, result.SqlOk?, a), Over))
  }

  function IssueFallback(t: Table, p: Proc, a: Answers): (Table, Proc)
    requires p.at.AtFallback?
  {
    var (u, result) := Update(t, p.at.entry, a.fallbackFails);
    if a.panicsAfterWrite then (u, p.(at := Over))
    else (u, Proc(Done, FinishFinal(p.d, result.SqlOk?, a), Over))
  }

  function Step(t: Table, p: Proc, a: Answers): (Table, Proc) {
    match p.at
    case Over => (t, p)
    case AtFallback(_) => IssueFallback(t, p, a)
    case AtHandler =>
      if !HasHandler(p.stage) then (t, p.(at := Over))
      else if Writes(p, a) then IssueFirst(t, p, a)
      else
        var out := StepOf(p.stage, p.d, t, a);
        (out.t, Proc(out.next, out.d, if out.status.Fine? then AtHandler else Over))
  }

  function Next(sys: Sys, e: Event): Sys {
    match e
    case Spawn(start, d) => if IsFresh(d) then sys.(procs := sys.procs + [Proc(start, d, AtHandler)]) else sys
    case Stop(i) =>
      if i < |sys.procs| then sys.(procs := sys.procs[i := sys.procs[i].(at := Over)]) else sys
    case Go(i, a) =>
      if i < |sys.procs| then
        var (u, p) := Step(sys.t, sys.procs[i], a);
        Sys(u, sys.procs[i := p])
      else sys
  }

  function Exec(sys: Sys, events: seq<Event>): Sys {
    if events == [] then sys else Next(Exec(sys, events[..|events| - 1]), events[|events| - 1])
  }

  lemma ExecOne(sys: Sys, e: Event)
    ensures Exec(sys, [e]) == Next(sys, e)
  {
    assert [e][..0] == [];
  }

  lemma {:induction false} ExecAppend(sys: Sys, a: seq<Event>, b: seq<Event>)
    ensures Exec(sys, a + b) == Exec(Exec(sys, a), b)
  {
    if b == [] {
      assert a + b == a;
    } else {
      ExecAppend(sys, a, b[..|b| - 1]);
      assert (a + b)[..|a + b| - 1] == a + b[..|b| - 1];
    }
  }

  // ----- the final handler is its statements, uninterrupted -----

  lemma FinalIsItsStatements(t: Table, d: Desc, a: Answers)
    requires Writes(Proc(Final, d, AtHandler), a)
    ensures var (u, p) := Step(t, Proc(Final, d, AtHandler), a);
      var (v, q) := Step(u, p, a);
      FinalStep(d, t, a).t == v && FinalStep(d, t, a).d == q.d && q.at.Over?
  {
  }

  // ----- what every interleaving keeps -----

  /** The row a run read is still in the table, under the same id, key and creation time. */
  ghost predicate StillThere(t: Table, row: Row) {
    var i := FindId(t.rows, row.id);
    i < |t.rows| && t.rows[i].key == row.key && t.rows[i].createdAt == row.createdAt
  }

  ghost predicate Sound(t: Table, p: Proc) {
    && (p.d.model.Some? ==>
          p.d.header.Some? && p.d.model.value.key == KeyOf(p.d) && StillThere(t, p.d.model.value))
    && (p.at.AtFallback? ==> p.at.entry.id == 0)
  }

  ghost predicate AllSound(sys: Sys) {
    Valid(sys.t) && forall i :: 0 <= i < |sys.procs| ==> Sound(sys.t, sys.procs[i])
  }

  lemma StillThereStays(t: Table, u: Table, row: Row)
    requires Valid(t) && Valid(u) && Keeps(t, u) && StillThere(t, row)
    ensures StillThere(u, row)
  {
    var i, j := FindId(t.rows, row.id), FindId(u.rows, row.id);
    assert u.rows[i].id == row.id;
    assert j <= i;
  }

  lemma FoundIsThere(t: Table, key: ContractKey)
    requires Valid(t) && Lookup(t, key).Some?
    ensures Lookup(t, key).value.key == key && StillThere(t, Lookup(t, key).value)
  {
    var i := FindKey(t.rows, key);
    var k := FindId(t.rows, t.rows[i].id);
    assert k <= i;
  }

  /** A call that left the table alone and, unless it was discovery, the row it holds. */
  ghost predicate ReadsOnly(d: Desc, t: Table, out: Out) {
    && out.t == t && out.d.header == d.header && out.d.tx == d.tx
    && out.d.network == d.network && out.d.address == d.address
    && (out.d.model == d.model || (d.header.Some? && out.d.model == Lookup(t, KeyOf(d))))
  }

  lemma DiscoveryReadsOnly(d: Desc, t: Table, a: Answers)
    ensures ReadsOnly(d, t, DiscoverStep(d, t, a))
  {
  }

  lemma RedirectReadsOnly(s: Stage, d: Desc, t: Table, a: Answers)
    requires HasHandler(s) && !s.Discover? && Discover !in d.completed
    ensures ReadsOnly(d, t, StepOf(s, d, t, a))
  {
  }

  /** A handler that issues no write leaves the table alone; only discovery changes the row it holds. */
  lemma OnlyDiscoveryReads(s: Stage, d: Desc, t: Table, a: Answers)
    requires HasHandler(s) && !Writes(Proc(s, d, AtHandler), a)
    ensures ReadsOnly(d, t, StepOf(s, d, t, a))
  {
    if s.Discover? { DiscoveryReadsOnly(d, t, a); }
    else if Discover !in d.completed { RedirectReadsOnly(s, d, t, a); }
    else if FreshRuns.IsMiddle(s) { FreshRuns.MiddleKeepsSubject(s, d, t, a); }
  }

  lemma FirstWriteKeeps(t: Table, d: Desc, a: Answers, entry: Row)
    requires Valid(t) && d.header.Some? && d.tx.Some? && entry == EntryOf(d, a.now)
    requires d.model.Some? ==> d.model.value.key == KeyOf(d) && StillThere(t, d.model.value)
    ensures var u := FirstWrite(d, t, a, entry).0;
      Valid(u) && Keeps(t, u) && (d.model.Some? ==> StillThere(u, d.model.value))
  {
    if d.model.None? {
      InsertKeeps(t, entry, a.saveFails);
    } else {
      UpdateKeeps(t, entry, a.updateFails, FindId(t.rows, entry.id));
      StillThereStays(t, Update(t, entry, a.updateFails).0, d.model.value);
    }
  }

  lemma FinishKeepsTheRow(d: Desc, written: bool, a: Answers)
    ensures var e := FinishFinal(d, written, a);
      e.model == d.model && e.header == d.header && e.tx == d.tx && e.network == d.network && e.address == d.address
  {
  }

  lemma FirstStatementKeeps(t: Table, p: Proc, a: Answers)
    requires Valid(t) && Sound(t, p) && Writes(p, a)
    ensures var (u, q) := IssueFirst(t, p, a);
      Valid(u) && Keeps(t, u) && Sound(u, q)
  {
    var d := p.d.(processed := true);
    var entry := EntryOf(d, a.now);
    FirstWriteKeeps(t, d, a, entry);
    FinishKeepsTheRow(d, FirstWrite(d, t, a, entry).1.SqlOk?, a);
  }

  lemma StepKeeps(t: Table, p: Proc, a: Answers)
    requires Valid(t) && Sound(t, p)
    ensures var (u, q) := Step(t, p, a);
      && Valid(u) && Keeps(t, u) && Sound(u, q)
      && (p.at.AtFallback? ==> u == t)
  {
    if p.at.AtFallback? {
      UpdateOfUnsavedIsIdle(t, p.at.entry, a.fallbackFails);
    } else if p.at.AtHandler? && HasHandler(p.stage) {
      if Writes(p, a) {
        FirstStatementKeeps(t, p, a);
      } else {
        OnlyDiscoveryReads(p.stage, p.d, t, a);
        if p.d.header.Some? && Lookup(t, KeyOf(p.d)).Some? { FoundIsThere(t, KeyOf(p.d)); }
      }
    }
  }

  lemma NextKeeps(sys: Sys, e: Event)
    requires AllSound(sys)
    ensures AllSound(Next(sys, e)) && Keeps(sys.t, Next(sys, e).t)
  {
    if e.Go? && e.proc < |sys.procs| {
      StepKeeps(sys.t, sys.procs[e.proc], e.a);
      var next := Next(sys, e);
      forall i | 0 <= i < |next.procs|
        ensures Sound(next.t, next.procs[i])
      {
        if i != e.proc && sys.procs[i].d.model.Some? {
          StillThereStays(sys.t, next.t, sys.procs[i].d.model.value);
        }
      }
    }
  }

  /**
   Under every interleaving of any number of runs, started at any time on fresh descriptors, the
   table keeps one row per key, and every row ever inserted keeps its id, key and creation time.
   */
  lemma {:induction false} InterleavingKeeps(sys: Sys, events: seq<Event>)
    requires AllSound(sys)
    ensures AllSound(Exec(sys, events)) && Keeps(sys.t, Exec(sys, events).t)
  {
    if events != [] {
      var before := events[..|events| - 1];
      InterleavingKeeps(sys, before);
      NextKeeps(Exec(sys, before), events[|events| - 1]);
      KeepsIsTransitive(sys.t, Exec(sys, before).t, Exec(sys, events).t);
    }
  }

  /** What a reader sees: once a key answers, it answers for ever with that id and creation time. */
  lemma KeysKeepTheirRow(t: Table, events: seq<Event>, more: seq<Event>, key: ContractKey)
    requires Valid(t)
    requires Lookup(Exec(Sys(t, []), events).t, key).Some?
    ensures var row := Lookup(Exec(Sys(t, []), events).t, key).value;
      var later := Lookup(Exec(Exec(Sys(t, []), events), more).t, key);
      later.Some? && later.value.id == row.id && later.value.createdAt == row.createdAt
  {
    var sys := Exec(Sys(t, []), events);
    InterleavingKeeps(Sys(t, []), events);
    InterleavingKeeps(sys, more);
    var u := Exec(sys, more).t;
    var i := FindKey(sys.t.rows, key);
    assert u.rows[i].key == key;
    LookupIsUnique(u, i);
  }

  /** The final stage has nothing left to trip over once its statements are through. */
  predicate EndsCleanly(d: Desc, a: Answers) {
    !a.fallbackFails && !a.panicsAfterWrite && Final !in d.failed && !(d.info.hasSources && a.sourcesWriteFails)
  }

  /**
   The UPDATE that follows a lost race touches no row, whatever ran in between; and yet the run
   then lists its final stage as completed, although nothing of what it found was stored.
   */
  lemma FallbackIsIdle(sys: Sys, events: seq<Event>, i: nat, a: Answers)
    requires AllSound(sys)
    requires i < |Exec(sys, events).procs| && Exec(sys, events).procs[i].at.AtFallback?
    ensures var before := Exec(sys, events);
      var after := Next(before, Go(i, a));
      && after.t == before.t && after.procs[i].at.Over?
      && (EndsCleanly(before.procs[i].d, a) ==> Final in after.procs[i].d.completed)
  {
    InterleavingKeeps(sys, events);
    var before := Exec(sys, events);
    StepKeeps(before.t, before.procs[i], a);
    UpdateOfUnsavedIsIdle(before.t, before.procs[i].at.entry, a.fallbackFails);
  }
}
