/** Runs one after another: the whole pipeline as an operation on the table. */
module SequentialRuns {
  import opened Base
  import opened Stages
  import opened Contracts
  import opened Unpacker
  import opened Pipeline
  import opened FreshRuns
  import Story

  /** One call of Unpack: where it starts, on what, and what it will meet. */
  datatype Job = Job(start: Stage, d: Desc, env: nat -> Answers, cancel: nat -> bool)

  ghost predicate IsFreshJob(job: Job) {
    HasHandler(job.start) && !job.start.ErrorStage? && IsFresh(job.d)
  }

  function Before(t: Table, job: Job): World { World(job.d, t, job.env, 0, []) }

  function Behind(t: Table, job: Job): World { RunFor(job.start, Before(t, job), job.cancel, 9).data }

  /** The table as the map it stands for. */
  ghost function Contents(t: Table): map<ContractKey, Row>
    requires Valid(t)
  {
    map i | 0 <= i < |t.rows| :: t.rows[i].key := t.rows[i]
  }

  /** The plain map operation: a known key keeps its id and creation time, a new one gets `freshId`. */
  function Put(m: map<ContractKey, Row>, freshId: int, entry: Row): map<ContractKey, Row> {
    if entry.key in m then m[entry.key := entry.(id := m[entry.key].id, createdAt := m[entry.key].createdAt)]
    else m[entry.key := entry.(id := freshId)]
  }

  lemma ContentsAnswerLookups(t: Table, key: ContractKey)
    requires Valid(t)
    ensures key in Contents(t) <==> Lookup(t, key).Some?
    ensures key in Contents(t) ==> Lookup(t, key) == Some(Contents(t)[key])
  {
    if key in Contents(t) {
      var i :| 0 <= i < |t.rows| && t.rows[i].key == key;
      LookupIsUnique(t, i);
    }
  }

  /** What the map answers for a key. */
  ghost function Answer(m: map<ContractKey, Row>, key: ContractKey): Option<Row> {
    if key in m then Some(m[key]) else None
  }

  /** A map that answers like the table is its contents. */
  lemma AnswersDecide(t: Table, m: map<ContractKey, Row>)
    requires Valid(t)
    requires forall key :: Lookup(t, key) == Answer(m, key)
    ensures Contents(t) == m
  {
    forall key
      ensures key in Contents(t) <==> key in m
      ensures key in m ==> Contents(t)[key] == m[key]
    {
      ContentsAnswerLookups(t, key);
    }
  }

  lemma GrownAnswers(t: Table, u: Table, row: Row, key: ContractKey)
    requires Valid(t) && Valid(u) && u.rows == t.rows + [row]
    ensures Lookup(u, key) == Answer(Contents(t)[row.key := row], key)
  {
    ContentsAnswerLookups(t, key);
    if key == row.key { LookupIsUnique(u, |t.rows|); } else { FoundBefore(t, u, row, key); }
  }

  lemma ContentsGrow(t: Table, u: Table, row: Row)
    requires Valid(t) && Valid(u) && u.rows == t.rows + [row]
    ensures Contents(u) == Contents(t)[row.key := row]
  {
    forall key
      ensures Lookup(u, key) == Answer(Contents(t)[row.key := row], key)
    {
      GrownAnswers(t, u, row, key);
    }
    AnswersDecide(u, Contents(t)[row.key := row]);
  }

  lemma FoundBefore(t: Table, u: Table, row: Row, key: ContractKey)
    requires u.rows == t.rows + [row] && key != row.key
    ensures Lookup(u, key) == Lookup(t, key)
  {
    var i, j := FindKey(t.rows, key), FindKey(u.rows, key);
    if i < |t.rows| { assert u.rows[i] == t.rows[i]; }
    if j < |u.rows| { assert j < |t.rows| && t.rows[j] == u.rows[j]; }
  }

  lemma ChangedAnswers(t: Table, u: Table, i: nat, row: Row, key: ContractKey)
    requires Valid(t) && Valid(u) && i < |t.rows| && u.rows == t.rows[i := row] && row.key == t.rows[i].key
    ensures Lookup(u, key) == Answer(Contents(t)[row.key := row], key)
  {
    ContentsAnswerLookups(t, key);
    if key == row.key { LookupIsUnique(u, i); } else { FoundBeside(t, u, i, row, key); }
  }

  lemma ContentsChange(t: Table, u: Table, i: nat, row: Row)
    requires Valid(t) && Valid(u) && i < |t.rows| && u.rows == t.rows[i := row] && row.key == t.rows[i].key
    ensures Contents(u) == Contents(t)[row.key := row]
  {
    forall key
      ensures Lookup(u, key) == Answer(Contents(t)[row.key := row], key)
    {
      ChangedAnswers(t, u, i, row, key);
    }
    AnswersDecide(u, Contents(t)[row.key := row]);
  }

  lemma FoundBeside(t: Table, u: Table, i: nat, row: Row, key: ContractKey)
    requires i < |t.rows| && u.rows == t.rows[i := row] && row.key == t.rows[i].key && key != row.key
    ensures Lookup(u, key) == Lookup(t, key)
  {
    var j, k := FindKey(t.rows, key), FindKey(u.rows, key);
    if j < |t.rows| { assert u.rows[j] == t.rows[j]; }
    if k < |u.rows| { assert t.rows[k] == u.rows[k]; }
  }

  lemma InsertIsPut(t: Table, entry: Row)
    requires Valid(t) && Lookup(t, entry.key).None? && t.lastId < MAX_INT64
    ensures var u := Insert(t, entry, false).0; Valid(u) && Contents(u) == Put(Contents(t), t.lastId + 1, entry)
  {
    InsertKeeps(t, entry, false);
    ContentsAnswerLookups(t, entry.key);
    ContentsGrow(t, Insert(t, entry, false).0, entry.(id := t.lastId + 1));
  }

  lemma UpdateIsPut(t: Table, entry: Row)
    requires Valid(t) && Lookup(t, entry.key).Some? && Lookup(t, entry.key).value.id == entry.id
    ensures var u := Update(t, entry, false).0; Valid(u) && Contents(u) == Put(Contents(t), t.lastId + 1, entry)
  {
    var i := FindKey(t.rows, entry.key);
    UpdateKeeps(t, entry, false, i);
    ContentsAnswerLookups(t, entry.key);
    ContentsChange(t, Update(t, entry, false).0, i, entry.(createdAt := t.rows[i].createdAt));
  }

  /** The statements found the row first, so they never collide: one of them puts the entry, or none does. */
  lemma WriteIsPut(t: Table, d: Desc, a: Answers, entry: Row)
    requires Valid(t) && d.model == Lookup(t, entry.key)
    requires entry.id == if d.model.Some? then d.model.value.id else 0
    ensures var u := WriteRow(d, t, a, entry).t;
      && Valid(u) && Keeps(t, u)
      && (u == t || Contents(u) == Put(Contents(t), t.lastId + 1, entry))
      && (!a.saveFails && !a.updateFails && t.lastId < MAX_INT64 ==>
            Contents(u) == Put(Contents(t), t.lastId + 1, entry))
  {
    if d.model.None? {
      InsertKeeps(t, entry, a.saveFails);
      if !a.saveFails && t.lastId < MAX_INT64 { InsertIsPut(t, entry); }
    } else {
      UpdateKeeps(t, entry, a.updateFails, FindKey(t.rows, entry.key));
      if !a.updateFails { UpdateIsPut(t, entry); }
    }
  }

  ghost predicate SqlWorks(env: nat -> Answers) {
    forall k: nat :: !env(k).saveFails && !env(k).updateFails
  }

  /**
   A whole run on a fresh descriptor refines a put keyed by (network, block, address): it leaves
   the table alone, or puts the entry it issued; while the statements work, it always puts it.
   */
  lemma RunRefinesPut(t: Table, job: Job)
    requires Valid(t) && IsFreshJob(job)
    ensures var w := Behind(t, job);
      && Valid(w.t) && Keeps(t, w.t)
      && ((forall i :: 0 <= i < |w.log| ==> !IsWrite(w.log[i])) ==> w.t == t)
      && (forall i :: 0 <= i < |w.log| && IsWrite(w.log[i]) ==>
            var put := Put(Contents(t), t.lastId + 1, EntryIn(w.log[i]));
            && (w.t == t || Contents(w.t) == put)
            && (SqlWorks(job.env) && t.lastId < MAX_INT64 ==> Contents(w.t) == put))
  {
    var w := Behind(t, job);
    FreshRunWrites(job.start, Before(t, job), job.cancel, 9);
    EnvIsKeptThroughout(job.start, Before(t, job), job.cancel, 9);
    if Stored(Before(t, job), w) {
      forall i | 0 <= i < |w.log| && IsWrite(w.log[i])
        ensures var put := Put(Contents(t), t.lastId + 1, EntryIn(w.log[i]));
            && Valid(w.t) && Keeps(t, w.t)
            && (w.t == t || Contents(w.t) == put)
            && (SqlWorks(job.env) && t.lastId < MAX_INT64 ==> Contents(w.t) == put)
      {
        assert SoundWrite(Before(t, job), w, i);
        WriteIsPut(t, w.d, w.env(w.calls - 1), EntryIn(w.log[i]));
      }
    }
  }

  lemma {:induction false} EnvIsKeptThroughout(start: Stage, w0: World, cancel: nat -> bool, n: nat)
    ensures RunFor(start, w0, cancel, n).data.env == w0.env
  {
    if n > 0 {
      EnvIsKeptThroughout(start, w0, cancel, n - 1);
      EnvIsKept(RunFor(start, w0, cancel, n - 1), cancel(n - 1));
    }
  }

  ghost predicate LeftAlone(job: Job) {
    NeverCrashes(job.env) && SqlWorks(job.env) && forall j: nat :: !job.cancel(j)
  }

  function Answered(t: Table, job: Job): Answers { DiscoveryAnswers(job.start, Before(t, job)) }

  /** The write the story ends with is in the log. */
  lemma EntryIsInTheLog(log0: seq<Effect>, issued: seq<Effect>, more: seq<Effect>, entry: Row)
    returns (i: nat)
    requires issued != [] && IsWrite(issued[0]) && EntryIn(issued[0]) == entry
    ensures i < |log0 + issued + more| && IsWrite((log0 + issued + more)[i])
    ensures EntryIn((log0 + issued + more)[i]) == entry
  {
    i := |log0|;
    assert (log0 + issued + more)[i] == issued[0];
  }

  lemma StoryWasPut(t: Table, job: Job) returns (entry: Row)
    requires Valid(t) && t.lastId < MAX_INT64 && IsFreshJob(job) && LeftAlone(job)
    requires Story.LeftAlone(job.start, Before(t, job), job.cancel)
    ensures var w := Behind(t, job);
      var w0 := Before(t, job);
      && Story.IsEntryTold(entry, job.d, Story.FoundBy(w0), Story.Heard(job.start, w0))
      && Valid(w.t) && Contents(w.t) == Put(Contents(t), t.lastId + 1, entry)
  {
    var w, w0 := Behind(t, job), Before(t, job);
    var issued, ok;
    entry, issued, ok := Story.RunIsAsTold(job.start, w0, job.cancel);
    RunRefinesPut(t, job);
    var found, h := Story.FoundBy(w0), Story.Heard(job.start, w0);
    var told := w0.log + Story.LogAt(6, job.d, found, h);
    var more := w.log[|told + issued|..];
    assert w.log == told + issued + more;
    var i := EntryIsInTheLog(told, issued, more, entry);
  }

  /**
   What a run that nothing disturbs does to the table, told before it starts: nothing when
   discovery refuses the contract or finds it done, and otherwise one put of an entry whose every
   column is told from the descriptor, the row found and the answers.
   */
  lemma UndisturbedRunPuts(t: Table, job: Job) returns (entry: Row)
    requires Valid(t) && t.lastId < MAX_INT64 && IsFreshJob(job) && LeftAlone(job)
    ensures var (w0, w) := (Before(t, job), Behind(t, job));
      if Rejects(job.d, Answered(t, job)) || FindsItDone(job.d, t, Answered(t, job)) then w.t == t
      else
        && Story.IsEntryTold(entry, job.d, Story.FoundBy(w0), Story.Heard(job.start, w0))
        && Valid(w.t) && Contents(w.t) == Put(Contents(t), t.lastId + 1, entry)
  {
    FreshRunIsForetold(job.start, Before(t, job), job.cancel);
    if Rejects(job.d, Answered(t, job)) || FindsItDone(job.d, t, Answered(t, job)) {
      entry :| true;
    } else {
      entry := StoryWasPut(t, job);
    }
  }

  // ----- completed rows -----

  function BehindAll(t: Table, jobs: seq<Job>): Table {
    if jobs == [] then t else Behind(BehindAll(t, jobs[..|jobs| - 1]), jobs[|jobs| - 1]).t
  }

  lemma RunKeepsCompletedRow(t: Table, job: Job, key: ContractKey)
    requires Valid(t) && IsFreshJob(job) && NeverForced(job.env)
    requires Lookup(t, key).Some? && IsCompleted(Lookup(t, key).value)
    ensures Lookup(Behind(t, job).t, key) == Lookup(t, key)
  {
    var w := Behind(t, job);
    RunRefinesPut(t, job);
    EnvIsKeptThroughout(job.start, Before(t, job), job.cancel, 9);
    FreshRunWrites(job.start, Before(t, job), job.cancel, 9);
    if w.t != t {
      var i :| 0 <= i < |w.log| && IsWrite(w.log[i]);
      assert SoundWrite(Before(t, job), w, i);
      var entry := EntryIn(w.log[i]);
      assert entry.key != key;
      assert Contents(w.t) == Put(Contents(t), t.lastId + 1, entry);
      ContentsAnswerLookups(t, key);
      ContentsAnswerLookups(w.t, key);
    }
  }

  /** Without forced reprocessing, a row once completed is the same row after any later runs. */
  lemma {:induction false} CompletedRowsStay(t: Table, jobs: seq<Job>, key: ContractKey)
    requires Valid(t) && forall i :: 0 <= i < |jobs| ==> IsFreshJob(jobs[i]) && NeverForced(jobs[i].env)
    requires Lookup(t, key).Some? && IsCompleted(Lookup(t, key).value)
    ensures Valid(BehindAll(t, jobs)) && Lookup(BehindAll(t, jobs), key) == Lookup(t, key)
  {
    if jobs != [] {
      var before := jobs[..|jobs| - 1];
      CompletedRowsStay(t, before, key);
      RunRefinesPut(BehindAll(t, before), jobs[|jobs| - 1]);
      RunKeepsCompletedRow(BehindAll(t, before), jobs[|jobs| - 1], key);
    }
  }
}
