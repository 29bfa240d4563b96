/** The unpacking pipeline: the handlers registered on the machine, and what holds of every run. */
module Pipeline {
  import opened Stages
  import opened Contracts
  import opened Machine
  import opened Unpacker

  /**
   The data carried through the machine: the descriptor, the table behind it, the answers the
   outside world will give to the successive handler calls, and the calls made so far.
   */
  datatype World = World(d: Desc, t: Table, env: nat -> Answers, calls: nat, log: seq<Effect>)

  type Run = Sm<Stage, World>

  function Outcome(s: Stage, w: World): Out
    requires HasHandler(s)
  {
    StepOf(s, w.d, w.t, w.env(w.calls))
  }

  function After(w: World, out: Out): World {
    w.(d := out.d, t := out.t, calls := w.calls + 1, log := w.log + out.effects)
  }

  /** One handler call as the machine sees it. */
  function CallHandler(s: Stage, w: World): (Stage, World, Status) {
    if HasHandler(s) then
      var out := Outcome(s, w);
      (out.next, After(w, out), out.status)
    else (Unset, w, Panicked)
  }

  function HandlerOf(s: Stage): Handler<Stage, World> { PassThrough(CallHandler, s) }

  function Registered(): Registry<Stage, World> {
    Registry(
      map[Discover := HandlerOf(Discover), Metadata := HandlerOf(Metadata),
          SourceProviders := HandlerOf(SourceProviders), Sources := HandlerOf(Sources),
          Parser := HandlerOf(Parser), Constructor := HandlerOf(Constructor),
          ErrorStage := HandlerOf(ErrorStage), Final := HandlerOf(Final)],
      Unset, Done, ErrorStage)
  }

  lemma RegisteredStages(s: Stage)
    ensures s in Registered().states <==> HasHandler(s)
  {
  }

  lemma RegisteredIsPlain()
    ensures IsPlain(Registered(), CallHandler)
  {
  }

  // ----- runs -----

  /** Where a turn ends whose handler answered `out`. */
  function Land(m: Run, out: Out): Run {
    var w := After(m.data, out);
    match out.status
    case Panicked => m.(data := w, pc := Returned(Panic))
    case Failed => Appended(m, w, ErrorStage, true)
    case Fine =>
      if HasHandler(out.next) || out.next.Done? || out.next.Unset? then Appended(m, w, out.next, out.next.Done?)
      else Appended(m, w, ErrorStage, true)
  }

  /** One turn of this machine. */
  function Advance(m: Run, cancelled: bool): Run {
    if !m.pc.AtCheck? then m
    else if m.current.Done? then m.(pc := Returned(Nil))
    else if !HasHandler(m.current) then m.(pc := Returned(Error(ErrInvalidState)))
    else if cancelled then m.(pc := Returned(Error(ErrCancelled)))
    else Land(m, Outcome(m.current, m.data))
  }

  lemma AdvanceIsPlain(m: Run, cancelled: bool)
    ensures PlainTurn(Registered(), CallHandler, m, cancelled) == Advance(m, cancelled)
  {
    RegisteredStages(m.current);
    if HasHandler(m.current) { RegisteredStages(Outcome(m.current, m.data).next); }
  }

  /** Unpack's machine at the head of its loop. */
  function Begin(start: Stage, w: World): Run {
    NewSm(start, w).(pc := AtCheck)
  }

  function RunFor(start: Stage, w: World, cancel: nat -> bool, n: nat): Run {
    if n == 0 then Begin(start, w) else Advance(RunFor(start, w, cancel, n - 1), cancel(n - 1))
  }

  lemma {:induction false} RunIsPlain(start: Stage, w: World, cancel: nat -> bool, n: nat)
    ensures PlainTurns(Registered(), CallHandler, Begin(start, w), cancel, n) == RunFor(start, w, cancel, n)
  {
    if n > 0 {
      RunIsPlain(start, w, cancel, n - 1);
      AdvanceIsPlain(RunFor(start, w, cancel, n - 1), cancel(n - 1));
    }
  }

  /** This is what the machine with the registered handlers does, turn by turn. */
  lemma RunIsTheMachine(start: Stage, w: World, cancel: nat -> bool, n: nat)
    ensures Turns(Registered(), Begin(start, w), Quiet(cancel), n) == RunFor(start, w, cancel, n)
  {
    RegisteredIsPlain();
    PlainTurnsAreTurns(Registered(), CallHandler, Begin(start, w), cancel, n);
    RunIsPlain(start, w, cancel, n);
  }

  ghost predicate Follows(m: Run, n: Run, cancelled: bool) { n == Advance(m, cancelled) }

  ghost predicate FollowsAt(tr: seq<Run>, k: nat, cancel: nat -> bool)
    requires k + 1 < |tr|
  {
    Follows(tr[k], tr[k + 1], cancel(k))
  }

  /** The states of a run at the heads of its turns. */
  ghost predicate IsRun(tr: seq<Run>, start: Stage, w: World, cancel: nat -> bool) {
    && tr != [] && tr[0] == Begin(start, w)
    && forall k: nat :: k + 1 < |tr| ==> FollowsAt(tr, k, cancel)
  }

  lemma ExtendRun(tr: seq<Run>, start: Stage, w: World, cancel: nat -> bool, next: Run)
    requires IsRun(tr, start, w, cancel)
    requires Follows(tr[|tr| - 1], next, cancel(|tr| - 1))
    ensures IsRun(tr + [next], start, w, cancel)
  {
    forall k: nat | k + 1 < |tr + [next]|
      ensures FollowsAt(tr + [next], k, cancel)
    {
      if k + 1 < |tr| { assert FollowsAt(tr, k, cancel); }
    }
  }

  /** Any run can be laid out state by state. */
  lemma {:induction false} LayOut(start: Stage, w: World, cancel: nat -> bool, n: nat) returns (tr: seq<Run>)
    ensures IsRun(tr, start, w, cancel) && |tr| == n + 1
    ensures tr[n] == RunFor(start, w, cancel, n)
  {
    if n == 0 {
      tr := [Begin(start, w)];
    } else {
      var before := LayOut(start, w, cancel, n - 1);
      var next := RunFor(start, w, cancel, n);
      ExtendRun(before, start, w, cancel, next);
      tr := before + [next];
    }
  }

  // ----- termination -----

  /** How many transitions remain at most from a state whose discovery is behind it. */
  function Rank(s: Stage): nat {
    match s
    case Metadata => 6
    case SourceProviders => 5
    case Sources => 4
    case Parser => 3
    case Constructor => 2
    case Final => 1
    case ErrorStage => 1
    case _ => 0
  }

  /** How many transitions remain at most, whatever the descriptor holds. */
  function Budget(s: Stage, d: Desc): (b: nat)
    ensures b <= 8
  {
    if s.Discover? then
      if d.nextState.Unset? then 7 else if d.nextState.Discover? then 8 else 1 + Rank(d.nextState)
    else if s.ErrorStage? || !HasHandler(s) || Discover in d.completed then Rank(s)
    else 8
  }

  function Remaining(m: Run): nat {
    if m.pc.AtCheck? then Budget(m.current, m.data.d) else 0
  }

  /** One handler call either ends the run or leaves strictly fewer transitions to make. */
  ghost predicate Spends(s: Stage, d: Desc, out: Out) {
    && Budget(s, d) >= 1
    && (out.status.Fine? && HasHandler(out.next) ==> Budget(out.next, out.d) < Budget(s, d))
    && (out.status.Fine? ==> !out.next.Unset?)
  }

  lemma DiscoverSpends(d: Desc, t: Table, a: Answers)
    ensures Spends(Discover, d, DiscoverStep(d, t, a))
  {
  }

  lemma ProvidersSpend(d: Desc, t: Table, a: Answers)
    ensures Spends(SourceProviders, d, ProvidersStep(d, t, a))
  {
  }

  lemma ChainSpends(s: Stage, d: Desc, t: Table, a: Answers)
    requires HasHandler(s) && !s.Discover? && !s.SourceProviders? && !s.Final?
    ensures Spends(s, d, StepOf(s, d, t, a))
  {
  }

  lemma FinalSpends(d: Desc, t: Table, a: Answers)
    ensures Spends(Final, d, FinalStep(d, t, a))
  {
  }

  lemma StepSpends(s: Stage, d: Desc, t: Table, a: Answers)
    requires HasHandler(s)
    ensures Spends(s, d, StepOf(s, d, t, a))
  {
    if s.Discover? { DiscoverSpends(d, t, a); }
    else if s.SourceProviders? { ProvidersSpend(d, t, a); }
    else if s.Final? { FinalSpends(d, t, a); }
    else { ChainSpends(s, d, t, a); }
  }

  lemma TurnSpendsBudget(m: Run, cancelled: bool)
    requires m.pc.AtCheck?
    ensures var n := Advance(m, cancelled);
      && (n.pc.Returned? || (n.pc.AtCheck? && Remaining(n) < Remaining(m)))
      && |n.history| + Remaining(n) <= |m.history| + Remaining(m)
  {
    if HasHandler(m.current) {
      StepSpends(m.current, m.data.d, m.data.t, m.data.env(m.data.calls));
    }
  }

  lemma {:induction false} RunSpendsBudget(tr: seq<Run>, start: Stage, w: World, cancel: nat -> bool, k: nat)
    requires IsRun(tr, start, w, cancel) && k < |tr|
    ensures tr[k].pc.Returned? || (tr[k].pc.AtCheck? && Remaining(tr[k]) + k <= Budget(start, w.d))
    ensures |tr[k].history| + Remaining(tr[k]) <= 1 + Budget(start, w.d)
  {
    if k > 0 {
      RunSpendsBudget(tr, start, w, cancel, k - 1);
      assert FollowsAt(tr, k - 1, cancel);
      if tr[k - 1].pc.AtCheck? { TurnSpendsBudget(tr[k - 1], cancel(k - 1)); }
    }
  }

  /**
   Every run is over after nine turns with at most nine history entries: from any start state,
   registered or not, any descriptor contents (a preset next state, prefilled lists), any answers.
   */
  lemma EveryRunTerminates(start: Stage, w: World, cancel: nat -> bool, n: nat)
    ensures n >= 9 ==> RunFor(start, w, cancel, n).pc.Returned?
    ensures |RunFor(start, w, cancel, n).history| <= 9
  {
    var tr := LayOut(start, w, cancel, n);
    RunSpendsBudget(tr, start, w, cancel, n);
  }

  /**
   Runs started where no work begins: in the final state and in a state without a handler nothing
   happens, and in the error state the error handler alone is called.
   */
  lemma RunsWithoutWork(start: Stage, w: World, cancel: nat -> bool)
    requires !HasHandler(start) || (start.ErrorStage? && !cancel(0) && !w.env(w.calls).panics)
    ensures var m := RunFor(start, w, cancel, 9);
      if start.ErrorStage? then
        m.pc == Returned(Nil) && m.history == [ErrorStage, Done] && m.data == w.(calls := w.calls + 1)
      else
        m.pc == Returned(if start.Done? then Nil else Error(ErrInvalidState)) && m.history == [start] && m.data == w
  {
    var tr := LayOut(start, w, cancel, 9);
    assert FollowsAt(tr, 0, cancel);
    OverAtOnce(tr, start, w, cancel, 9);
  }

  lemma {:induction false} OverAtOnce(tr: seq<Run>, start: Stage, w: World, cancel: nat -> bool, k: nat)
    requires IsRun(tr, start, w, cancel) && 1 <= k < |tr| && tr[1].pc.Returned?
    ensures tr[k] == tr[1]
  {
    if k > 1 {
      OverAtOnce(tr, start, w, cancel, k - 1);
      assert FollowsAt(tr, k - 1, cancel);
    }
  }

  // ----- no work before discovery -----

  /** Without discovery behind it a handler calls nothing but the lookup. */
  ghost predicate Waits(d: Desc, out: Out) {
    forall i :: 0 <= i < |out.effects| ==> out.effects[i].LookedUp? || Discover in d.completed
  }

  lemma StepWaits(s: Stage, d: Desc, t: Table, a: Answers)
    requires HasHandler(s)
    ensures Waits(d, StepOf(s, d, t, a))
  {
    if !s.Discover? && Discover !in d.completed {
      assert StepOf(s, d, t, a).effects == [];
    }
  }

  /** A turn changes the world only through one handler call. */
  lemma TurnCallsOnce(m: Run, cancelled: bool)
    ensures var w := Advance(m, cancelled).data;
      w == m.data || (HasHandler(m.current) && w == After(m.data, Outcome(m.current, m.data)))
  {
  }

  lemma TurnWaits(m: Run, n: Run, cancelled: bool, i: int)
    requires Follows(m, n, cancelled)
    ensures m.data.log <= n.data.log
    ensures |m.data.log| <= i < |n.data.log| && !n.data.log[i].LookedUp? ==> Discover in m.data.d.completed
  {
    TurnCallsOnce(m, cancelled);
    if n.data != m.data {
      var out := Outcome(m.current, m.data);
      StepWaits(m.current, m.data.d, m.data.t, m.data.env(m.data.calls));
      assert n.data.log == m.data.log + out.effects;
    }
  }

  /**
   Metadata, sources, parsing, constructors and row writes all wait for discovery, on every run:
   the turn `k` that made outside call `i` began with discovery in the completed list.
   */
  lemma {:induction false} NoWorkBeforeDiscovery(
    tr: seq<Run>, start: Stage, w: World, cancel: nat -> bool, n: nat, i: int)
    returns (k: nat)
    requires IsRun(tr, start, w, cancel) && n < |tr|
    requires |w.log| <= i < |tr[n].data.log| && !tr[n].data.log[i].LookedUp?
    ensures k < n && |tr[k].data.log| <= i < |tr[k + 1].data.log|
    ensures Discover in tr[k].data.d.completed
  {
    var m := tr[n - 1];
    assert FollowsAt(tr, n - 1, cancel);
    TurnWaits(m, tr[n], cancel(n - 1), i);
    if i < |m.data.log| {
      k := NoWorkBeforeDiscovery(tr, start, w, cancel, n - 1, i);
    } else {
      k := n - 1;
    }
  }

  // ----- Unpack -----

  method RegisterMachineStates(sm: StateMachine<Stage, World>) returns (ok: bool)
    requires sm.blank == Unset && sm.states == map[]
    modifies sm`states, sm`errorState, sm`finalState
    ensures ok && sm.Registered() == Registered()
  {
    sm.RegisterState(Discover, HandlerOf(Discover));
    sm.RegisterState(Metadata, HandlerOf(Metadata));
    sm.RegisterState(SourceProviders, HandlerOf(SourceProviders));
    sm.RegisterState(Sources, HandlerOf(Sources));
    sm.RegisterState(Parser, HandlerOf(Parser));
    sm.RegisterState(Constructor, HandlerOf(Constructor));
    sm.RegisterState(ErrorStage, HandlerOf(ErrorStage));
    ok := sm.RegisterErrorState(ErrorStage);
    if !ok { return; }
    sm.RegisterState(Final, HandlerOf(Final));
    sm.RegisterFinalState(Done);
  }

  /** One run of the machine on a descriptor; it always comes back, within nine turns. */
  method Unpack(w: World, state: Stage, cancel: nat -> bool) returns (after: World, result: Result)
    ensures RunFor(state, w, cancel, 9).pc == Returned(result)
    ensures after == RunFor(state, w, cancel, 9).data
  {
    var sm := new StateMachine<Stage, World>(Unset, state, w);
    var ok := RegisterMachineStates(sm);
    RunIsTheMachine(state, w, cancel, 9);
    EveryRunTerminates(state, w, cancel, 9);
    var returned := sm.Process(Quiet(cancel), 9);
    result := returned.value;
    after := sm.data;
  }
}

/** A run on the descriptor object itself: the machine calls the handler methods, which update it in place. */
module PipelineObjects {
  import opened Stages
  import opened Contracts
  import opened Machine
  import opened Unpacker
  import opened UnpackerObjects
  import opened Pipeline

  /** `at(k)` is the run after `k` turns. */
  ghost predicate AreRuns(cancel: nat -> bool, at: nat -> Run) {
    forall k: nat {:trigger at(k + 1)} :: at(k + 1) == Advance(at(k), cancel(k))
  }

  ghost function RunsFrom(start: Stage, w: World, cancel: nat -> bool): nat -> Run {
    (k: nat) => RunFor(start, w, cancel, k)
  }

  lemma RunsFromAreRuns(start: Stage, w: World, cancel: nat -> bool, n: nat)
    ensures AreRuns(cancel, RunsFrom(start, w, cancel))
    ensures RunsFrom(start, w, cancel)(0) == Begin(start, w)
    ensures RunsFrom(start, w, cancel)(n) == RunFor(start, w, cancel, n)
  {
  }

  lemma {:induction false} RunStaysOver(cancel: nat -> bool, at: nat -> Run, k: nat, n: nat)
    requires AreRuns(cancel, at) && k <= n && at(k).pc.Returned?
    ensures at(n) == at(k)
    decreases n
  {
    if k < n {
      var j: nat := n - 1;
      RunStaysOver(cancel, at, k, j);
      assert at(j + 1) == Advance(at(j), cancel(j));
    }
  }

  class Unpacking {
    const handlers: Handlers
    const descriptor: Descriptor
    const env: nat -> Answers
    var current: Stage
    var history: seq<Stage>
    var calls: nat

    ghost function Data(): World
      reads this, descriptor, handlers, handlers.store
    {
      World(descriptor.View(), handlers.store.View(), env, calls, handlers.effects)
    }

    ghost function View(pc: Pc<Stage>): Run
      reads this, descriptor, handlers, handlers.store
    {
      Sm(current, Data(), history, history, false, pc)
    }

    constructor (handlers: Handlers, descriptor: Descriptor, start: Stage, env: nat -> Answers)
      ensures this.handlers == handlers && this.descriptor == descriptor && this.env == env && calls == 0
      ensures View(AtCheck) == Begin(start, Data())
    {
      this.handlers, this.descriptor, this.env := handlers, descriptor, env;
      current, history, calls := start, [start], 0;
    }

    method MoveTo(next: Stage)
      modifies this`current, this`history
      ensures current == next && history == old(history) + [next]
    {
      current, history := next, history + [next];
    }

    method CallHandler() returns (next: Stage, status: Status)
      requires HasHandler(current)
      modifies this`calls, descriptor, handlers`effects, handlers.store
      ensures Data() == After(old(Data()), Outcome(current, old(Data())))
      ensures next == Outcome(current, old(Data())).next && status == Outcome(current, old(Data())).status
    {
      next, status := handlers.Call(current, descriptor, env(calls));
      calls := calls + 1;
    }

    /** The transition that follows a handler call, whose answer is `out`. */
    method MoveOn(next: Stage, status: Status, ghost m: Run, ghost out: Out) returns (over: bool, result: Result)
      requires View(m.pc) == m.(data := After(m.data, out)) && next == out.next && status == out.status
      modifies this`current, this`history
      ensures View(if over then Returned(result) else AtCheck) == Land(m, out)
    {
      result := Nil;
      if status.Panicked? { return true, Panic; }
      if status.Failed? || !(HasHandler(next) || next.Done? || next.Unset?) {
        MoveTo(ErrorStage);
        return true, Nil;
      }
      MoveTo(next);
      over := next.Done?;
    }

    /** One turn: check, handler method, transition. */
    method TakeTurn(cancelled: bool) returns (over: bool, result: Result)
      modifies this, descriptor, handlers`effects, handlers.store
      ensures View(if over then Returned(result) else AtCheck) == Advance(old(View(AtCheck)), cancelled)
    {
      if current == Done { return true, Nil; }
      if !HasHandler(current) { return true, Error(ErrInvalidState); }
      if cancelled { return true, Error(ErrCancelled); }
      ghost var m := View(AtCheck);
      var next, status := CallHandler();
      over, result := MoveOn(next, status, m, Outcome(m.current, m.data));
    }

    method Loop(cancel: nat -> bool, ghost at: nat -> Run) returns (result: Result)
      requires AreRuns(cancel, at) && View(AtCheck) == at(0) && at(9).pc.Returned?
      modifies this, descriptor, handlers`effects, handlers.store
      ensures View(Returned(result)) == at(9)
    {
      var over, k := false, 0;
      result := Nil;
      while !over
        invariant k <= 9 && View(if over then Returned(result) else AtCheck) == at(k)
        decreases 9 - k, !over
      {
        assert at(k + 1) == Advance(at(k), cancel(k));
        over, result := TakeTurn(cancel(k));
        k := k + 1;
      }
      RunStaysOver(cancel, at, k, 9);
    }

    /** The descriptor, the table, the outside calls, the history and the result are those of the run. */
    method Unpack(cancel: nat -> bool) returns (result: Result)
      requires View(AtCheck) == Begin(current, Data())
      modifies this, descriptor, handlers`effects, handlers.store
      ensures View(Returned(result)) == RunFor(old(current), old(Data()), cancel, 9)
    {
      ghost var start, w := current, Data();
      EveryRunTerminates(start, w, cancel, 9);
      RunsFromAreRuns(start, w, cancel, 9);
      result := Loop(cancel, RunsFrom(start, w, cancel));
    }
  }
}
