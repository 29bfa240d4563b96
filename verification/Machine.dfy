/**
 The generic state machine of pkg/machine.

 One Process call is a loop whose every turn has three atomic parts: a locked check, the
 handler (run without the lock), and a locked transition. `Next` is that loop one part at a
 time, so that Pause and Resume from other goroutines can fall between any two parts. The
 class at the end is the imperative form.
 */
module Machine {
  import opened Base

  datatype Status = Fine | Failed | Panicked

  /** Enter and Exit may be absent. A handler hands its data back even when it fails. */
  datatype Handler<S, !D> = Handler(
    enter: Option<D -> (D, Status)>,
    process: D -> (S, D, Status),
    exit: Option<D -> (D, Status)>)

  /** What is registered. `blank` is the empty state name, the value of a state never set. */
  datatype Registry<S, !D> = Registry(
    states: map<S, Handler<S, D>>, blank: S, finalState: S, errorState: S)

  datatype Error = ErrPaused | ErrInvalidState | ErrCancelled | ErrHandler | ErrInvalidNext
  datatype Result = Nil | Error(error: Error) | Panic

  datatype Pc<S> =
    | Ready
    | AtCheck
    | AtHandle
    | AtTransition(next: S, failure: bool)
    | Returned(result: Result)

  datatype Sm<S, !D> = Sm(
    current: S, data: D, history: seq<S>, processed: seq<S>, paused: bool, pc: Pc<S>)

  datatype Event = Call | Tick(cancelled: bool) | Pause | Resume

  datatype Verdict<S> = Move(next: S) | Fail(error: Error) | Crash

  function CallOptional<D>(f: Option<D -> (D, Status)>, d: D): (D, Status) {
    if f.Some? then f.value(d) else (d, Fine)
  }

  /** Enter, Process, the check of the chosen state, and Exit, in that order. */
  function Act<S(==), D>(r: Registry<S, D>, h: Handler<S, D>, d: D): (D, Verdict<S>) {
    var (d1, entered) := CallOptional(h.enter, d);
    match entered
    case Panicked => (d1, Crash)
    case Failed => (d1, Fail(ErrHandler))
    case Fine =>
      var (next, d2, done) := h.process(d1);
      match done
      case Panicked => (d2, Crash)
      case Failed => (d2, Fail(ErrHandler))
      case Fine =>
        if next !in r.states && next != r.finalState && next != r.blank then (d2, Fail(ErrInvalidNext))
        else
          var (d3, left) := CallOptional(h.exit, d2);
          match left
          case Panicked => (d3, Crash)
          case Failed => (d3, Fail(ErrHandler))
          case Fine => (d3, Move(next))
  }

  function Check<S(==), D>(r: Registry<S, D>, m: Sm<S, D>): Pc<S> {
    if m.paused then Returned(Error(ErrPaused))
    else if m.current == r.finalState then Returned(Nil)
    else if m.current !in r.states then Returned(Error(ErrInvalidState))
    else AtHandle
  }

  function Handle<S(==), D>(r: Registry<S, D>, m: Sm<S, D>, cancelled: bool): Sm<S, D> {
    if m.current !in r.states then m
    else if cancelled then m.(pc := Returned(Error(ErrCancelled)))
    else
      var (d, verdict) := Act(r, r.states[m.current], m.data);
      match verdict
      case Crash => m.(data := d, pc := Returned(Panic))
      case Fail(e) =>
        if r.errorState != r.blank then m.(data := d, pc := AtTransition(r.errorState, true))
        else m.(data := d, pc := Returned(Error(e)))
      case Move(next) => m.(data := d, pc := AtTransition(next, false))
  }

  function Transition<S(==), D>(r: Registry<S, D>, m: Sm<S, D>, next: S, failure: bool): Sm<S, D> {
    m.(current := next, history := m.history + [next], processed := m.processed + [next],
       pc := if failure || next == r.finalState then Returned(Nil) else AtCheck)
  }

  /** One atomic step; an event that is not enabled changes nothing. */
  function Next<S(==), D>(r: Registry<S, D>, m: Sm<S, D>, e: Event): Sm<S, D> {
    match e
    case Pause => m.(paused := true)
    case Resume => m.(paused := false)
    case Call => if m.pc.Ready? || m.pc.Returned? then m.(pc := AtCheck) else m
    case Tick(cancelled) =>
      match m.pc
      case Ready => m
      case Returned(_) => m
      case AtCheck => m.(pc := Check(r, m))
      case AtHandle => Handle(r, m, cancelled)
      case AtTransition(next, failure) => Transition(r, m, next, failure)
  }

  function Exec<S(==), D>(r: Registry<S, D>, m: Sm<S, D>, events: seq<Event>): Sm<S, D> {
    if events == [] then m
    else Next(r, Exec(r, m, events[..|events| - 1]), events[|events| - 1])
  }

  lemma {:induction false} ExecAppend<S, D>(r: Registry<S, D>, m: Sm<S, D>, a: seq<Event>, b: seq<Event>)
    ensures Exec(r, m, a + b) == Exec(r, Exec(r, m, a), b)
  {
    if b == [] {
      assert a + b == a;
    } else {
      ExecAppend(r, m, a, b[..|b| - 1]);
      assert (a + b)[..|a + b| - 1] == a + b[..|b| - 1];
    }
  }

  /** NewStateMachine. */
  function NewSm<S, D>(initial: S, data: D): Sm<S, D> {
    Sm(initial, data, [initial], [initial], false, Ready)
  }

  // ----- what every trace keeps -----

  ghost predicate Aligned<S, D>(m: Sm<S, D>) {
    m.history == m.processed && m.history != [] && m.history[|m.history| - 1] == m.current
  }

  /** What the place inside the loop promises about how the call will end. */
  ghost predicate PcSound<S, D>(r: Registry<S, D>, m: Sm<S, D>) {
    match m.pc
    case AtHandle => m.current in r.states
    case AtTransition(next, failure) => failure ==> r.errorState != r.blank && next == r.errorState
    case Returned(Nil) =>
      m.current == r.finalState || (r.errorState != r.blank && m.current == r.errorState)
    case _ => true
  }

  lemma StepKeepsSound<S, D>(r: Registry<S, D>, m: Sm<S, D>, e: Event)
    requires Aligned(m) && PcSound(r, m)
    ensures Aligned(Next(r, m, e)) && PcSound(r, Next(r, m, e))
  {
  }

  lemma {:induction false} StaysSound<S, D>(r: Registry<S, D>, start: Sm<S, D>, events: seq<Event>)
    requires Aligned(start) && PcSound(r, start)
    ensures Aligned(Exec(r, start, events)) && PcSound(r, Exec(r, start, events))
  {
    if events != [] {
      StaysSound(r, start, events[..|events| - 1]);
      StepKeepsSound(r, Exec(r, start, events[..|events| - 1]), events[|events| - 1]);
    }
  }

  /**
   Over any sequence of Process calls, with Pause and Resume anywhere: history and
   processedStates are the same non-empty list, it ends in the current state, and a call that
   returned nil left the machine in the final state or in a registered error state.
   */
  lemma MachineStaysSound<S, D>(r: Registry<S, D>, initial: S, data: D, events: seq<Event>)
    ensures Aligned(Exec(r, NewSm(initial, data), events))
    ensures PcSound(r, Exec(r, NewSm(initial, data), events))
  {
    StaysSound(r, NewSm(initial, data), events);
  }

  /** From `m`, about to call its handler on the data it carries, to `u`, just past the transition that followed. */
  ghost predicate TookStep<S, D>(r: Registry<S, D>, m: Sm<S, D>, u: Sm<S, D>) {
    && m.pc.AtHandle? && m.current in r.states
    && match Act(r, r.states[m.current], m.data).1
       case Move(next) =>
         u.history == m.history + [next] && u.pc == (if next == r.finalState then Returned(Nil) else AtCheck)
       case Fail(_) =>
         r.errorState != r.blank && u.history == m.history + [r.errorState] && u.pc == Returned(Nil)
       case Crash => false
  }

  /** The step that appended entry `j` began after `events[..k]` and was over after `events[..t]`. */
  ghost predicate AppendedBy<S, D>(
    r: Registry<S, D>, start: Sm<S, D>, events: seq<Event>, j: nat, k: nat, t: nat)
  {
    && k < t <= |events| && j < |Exec(r, start, events).history|
    && Exec(r, start, events[..k]).history == Exec(r, start, events).history[..j]
    && Exec(r, start, events[..t]).history == Exec(r, start, events).history[..j + 1]
    && TookStep(r, Exec(r, start, events[..k]), Exec(r, start, events[..t]))
  }

  /** A transition under way: `m` is the machine as it was when the handler was called. */
  ghost predicate Decided<S, D>(r: Registry<S, D>, m: Sm<S, D>, n: Sm<S, D>) {
    && m.pc.AtHandle? && m.current in r.states && m.history == n.history
    && n.pc.AtTransition?
    && match Act(r, r.states[m.current], m.data).1
       case Move(next) => n.pc == AtTransition(next, false)
       case Fail(_) => r.errorState != r.blank && n.pc == AtTransition(r.errorState, true)
       case Crash => false
  }

  lemma HandlerDecides<S, D>(r: Registry<S, D>, m: Sm<S, D>, e: Event)
    requires !m.pc.AtTransition? && Next(r, m, e).pc.AtTransition?
    ensures Decided(r, m, Next(r, m, e))
  {
  }

  /** Whoever stands before a transition was sent there by the last handler called. */
  lemma {:induction false} TransitionWasDecided<S, D>(r: Registry<S, D>, start: Sm<S, D>, events: seq<Event>)
    returns (k: nat)
    requires !start.pc.AtTransition? && Exec(r, start, events).pc.AtTransition?
    ensures k < |events| && Decided(r, Exec(r, start, events[..k]), Exec(r, start, events))
  {
    var before, e := events[..|events| - 1], events[|events| - 1];
    if Exec(r, start, before).pc.AtTransition? {
      k := TransitionWasDecided(r, start, before);
      assert before[..k] == events[..k];
    } else {
      HandlerDecides(r, Exec(r, start, before), e);
      k := |events| - 1;
    }
  }

  lemma TransitionTakesTheStep<S, D>(r: Registry<S, D>, m: Sm<S, D>, n: Sm<S, D>, u: Sm<S, D>)
    requires Decided(r, m, n) && u == Transition(r, n, n.pc.next, n.pc.failure)
    ensures TookStep(r, m, u)
  {
  }

  lemma OnlyTransitionsAppend<S, D>(r: Registry<S, D>, m: Sm<S, D>, e: Event)
    ensures if m.pc.AtTransition? && e.Tick? then Next(r, m, e) == Transition(r, m, m.pc.next, m.pc.failure)
      else Next(r, m, e).history == m.history
  {
  }

  /**
   Every entry any sequence of calls appends is what the handler of the state before it decided on
   the very data the machine carried then: its chosen state, or the error state when it failed,
   which ends the call with nil there and then.
   */
  lemma {:induction false} EntryIsDecided<S, D>(r: Registry<S, D>, start: Sm<S, D>, events: seq<Event>, j: nat)
    returns (k: nat, t: nat)
    requires !start.pc.AtTransition?
    requires |start.history| <= j < |Exec(r, start, events).history|
    ensures AppendedBy(r, start, events, j, k, t)
  {
    var before, e := events[..|events| - 1], events[|events| - 1];
    var b, n := Exec(r, start, before), Exec(r, start, events);
    assert n == Next(r, b, e);
    OnlyTransitionsAppend(r, b, e);
    if j < |b.history| {
      k, t := EntryIsDecided(r, start, before, j);
      assert before[..k] == events[..k] && before[..t] == events[..t];
      assert n.history[..j + 1] == b.history[..j + 1] && n.history[..j] == b.history[..j];
    } else {
      k := TransitionWasDecided(r, start, before);
      assert before[..k] == events[..k];
      t := |events|;
      assert events[..t] == events;
      TransitionTakesTheStep(r, Exec(r, start, events[..k]), b, n);
    }
  }

  lemma {:induction false} ReturnedIsOver<S, D>(r: Registry<S, D>, start: Sm<S, D>, events: seq<Event>, t: nat)
    requires t <= |events| && Exec(r, start, events[..t]).pc.Returned?
    requires forall i :: 0 <= i < |events| ==> !events[i].Call?
    ensures Exec(r, start, events).pc == Exec(r, start, events[..t]).pc
    ensures Exec(r, start, events).history == Exec(r, start, events[..t]).history
  {
    if t == |events| {
      assert events[..t] == events;
    } else {
      var before := events[..|events| - 1];
      assert before[..t] == events[..t];
      ReturnedIsOver(r, start, before, t);
    }
  }

  /** The handler of the step that appended entry `j` is that of entry `j - 1`; if it failed, nothing follows. */
  ghost predicate Explained<S, D>(
    r: Registry<S, D>, start: Sm<S, D>, events: seq<Event>, j: nat, k: nat, t: nat)
  {
    && 0 < j && AppendedBy(r, start, events, j, k, t)
    && var m, n := Exec(r, start, events[..k]), Exec(r, start, events);
       && m.current == n.history[j - 1]
       && (Act(r, r.states[m.current], m.data).1.Fail? ==> j == |n.history| - 1 && n.pc == Returned(Nil))
  }

  /**
   Within one call, each entry is the decision of the handler of the entry before it, on the data
   carried then; and if that handler failed, the entry is the last and the call has returned nil.
   */
  lemma CallIsExplained<S, D>(r: Registry<S, D>, start: Sm<S, D>, events: seq<Event>, j: nat)
    returns (k: nat, t: nat)
    requires Aligned(start) && start.pc == AtCheck && |start.history| <= j < |Exec(r, start, events).history|
    requires OneCall(events)
    ensures Explained(r, start, events, j, k, t)
  {
    k, t := EntryIsDecided(r, start, events, j);
    StaysSound(r, start, events[..k]);
    if Exec(r, start, events[..t]).pc.Returned? { ReturnedIsOver(r, start, events, t); }
  }

  /** The turn under way began at the loop's head after `events[..k]` and has added nothing yet. */
  ghost predicate TurnBegan<S, D>(r: Registry<S, D>, start: Sm<S, D>, events: seq<Event>, k: nat) {
    && k <= |events|
    && Exec(r, start, events[..k]).pc == AtCheck
    && Exec(r, start, events[..k]).history == Exec(r, start, events).history
  }

  /**
   A call that returns an error (or panics) aborted a turn that added no history entry, and so
   has every turn still under way.
   */
  lemma {:induction false} AbortedTurnAddsNothing<S, D>(r: Registry<S, D>, start: Sm<S, D>, events: seq<Event>)
    returns (k: nat)
    requires start.pc == AtCheck
    requires forall i :: 0 <= i < |events| ==> !events[i].Call?
    requires Exec(r, start, events).pc != Returned(Nil)
    ensures TurnBegan(r, start, events, k)
  {
    assert events[..|events|] == events;
    if Exec(r, start, events).pc == AtCheck {
      k := |events|;
    } else {
      var before := events[..|events| - 1];
      k := AbortedTurnAddsNothing(r, start, before);
      assert before[..k] == events[..k];
    }
  }

  /** After a Pause that no Resume follows, at most one more entry is appended, across any later calls. */
  lemma {:induction false} PauseStopsTheMachine<S, D>(r: Registry<S, D>, m: Sm<S, D>, events: seq<Event>)
    requires m.paused
    requires forall i :: 0 <= i < |events| ==> !events[i].Resume?
    ensures var n := Exec(r, m, events);
      && n.paused && m.history <= n.history
      && |n.history| <= |m.history| + 1
      && (n.pc.AtHandle? || n.pc.AtTransition? ==> n.history == m.history)
  {
    if events != [] {
      PauseStopsTheMachine(r, m, events[..|events| - 1]);
    }
  }

  // ----- whole turns -----

  /**
   What a turn meets: the last word from Pause or Resume, if any, before its check, before its
   handler and before its transition; and whether the context was done.
   */
  datatype Slot = Slot(
    beforeCheck: Option<bool>, beforeHandler: Option<bool>, beforeTransition: Option<bool>, cancelled: bool)

  function Commanded<S, D>(m: Sm<S, D>, command: Option<bool>): Sm<S, D> {
    if command.Some? then m.(paused := command.value) else m
  }

  function CheckPart<S(==), D>(r: Registry<S, D>, m: Sm<S, D>, slot: Slot): Sm<S, D> {
    var c := Commanded(m, slot.beforeCheck);
    c.(pc := Check(r, c))
  }

  function HandlePart<S(==), D>(r: Registry<S, D>, m: Sm<S, D>, slot: Slot): Sm<S, D> {
    Handle(r, Commanded(m, slot.beforeHandler), slot.cancelled)
  }

  function TransitionPart<S(==), D>(r: Registry<S, D>, m: Sm<S, D>, slot: Slot): Sm<S, D>
    requires m.pc.AtTransition?
  {
    Transition(r, Commanded(m, slot.beforeTransition), m.pc.next, m.pc.failure)
  }

  /** Check, handler and transition in one go, as far as the turn gets. */
  function Turn<S(==), D>(r: Registry<S, D>, m: Sm<S, D>, slot: Slot): Sm<S, D> {
    if !m.pc.AtCheck? then m
    else
      var c := CheckPart(r, m, slot);
      if !c.pc.AtHandle? then c
      else
        var h := HandlePart(r, c, slot);
        if h.pc.AtTransition? then TransitionPart(r, h, slot) else h
  }

  function Turns<S(==), D>(r: Registry<S, D>, m: Sm<S, D>, env: nat -> Slot, n: nat): Sm<S, D> {
    if n == 0 then m else Turn(r, Turns(r, m, env, n - 1), env(n - 1))
  }

  // ----- what a handler and a turn mean -----

  /**
   A handler moves on exactly when all three of its parts go well and the state it chose is one to
   go to; the data is then what the three made of it in turn, and else what the part that ended it left.
   */
  lemma HandlerMeans<S, D>(r: Registry<S, D>, h: Handler<S, D>, d: D)
    ensures var entered := if h.enter.Some? then h.enter.value(d) else (d, Fine);
      var processed := h.process(entered.0);
      var left := if h.exit.Some? then h.exit.value(processed.1) else (processed.1, Fine);
      var welcome := processed.0 in r.states || processed.0 == r.finalState || processed.0 == r.blank;
      var (after, verdict) := Act(r, h, d);
      && (verdict.Move? <==> entered.1.Fine? && processed.2.Fine? && welcome && left.1.Fine?)
      && (verdict.Move? ==> verdict.next == processed.0)
      && (verdict == Fail(ErrInvalidNext) <==> entered.1.Fine? && processed.2.Fine? && !welcome)
      && (verdict == Fail(ErrHandler) <==>
            || entered.1.Failed?
            || (entered.1.Fine? && (processed.2.Failed? || (processed.2.Fine? && welcome && left.1.Failed?))))
      && after == (if !entered.1.Fine? then entered.0
                   else if !processed.2.Fine? || !welcome then processed.1 else left.0)
  {
  }

  /** Where a turn that stops before its handler leaves the machine. */
  lemma TurnStops<S, D>(r: Registry<S, D>, m: Sm<S, D>, slot: Slot)
    requires m.pc.AtCheck?
    ensures var paused := if slot.beforeCheck.Some? then slot.beforeCheck.value else m.paused;
      var asked := m.(paused := paused);
      var heard := if slot.beforeHandler.Some? then asked.(paused := slot.beforeHandler.value) else asked;
      && (paused ==> Turn(r, m, slot) == asked.(pc := Returned(Error(ErrPaused))))
      && (!paused && m.current == r.finalState ==> Turn(r, m, slot) == asked.(pc := Returned(Nil)))
      && (!paused && m.current != r.finalState && m.current !in r.states ==>
            Turn(r, m, slot) == asked.(pc := Returned(Error(ErrInvalidState))))
      && (!paused && m.current != r.finalState && m.current in r.states && slot.cancelled ==>
            Turn(r, m, slot) == heard.(pc := Returned(Error(ErrCancelled))))
  {
  }

  /** The machine gets as far as its handler. */
  ghost predicate Runs<S, D>(r: Registry<S, D>, m: Sm<S, D>, slot: Slot) {
    && m.pc.AtCheck? && m.current != r.finalState && m.current in r.states && !slot.cancelled
    && !(if slot.beforeCheck.Some? then slot.beforeCheck.value else m.paused)
  }

  ghost predicate WentTo<S, D>(m: Sm<S, D>, n: Sm<S, D>, s: S) {
    n.current == s && n.history == m.history + [s] && n.processed == m.processed + [s]
  }

  ghost predicate Stayed<S, D>(m: Sm<S, D>, n: Sm<S, D>) {
    n.current == m.current && n.history == m.history && n.processed == m.processed
  }

  /** A turn whose handler moves on goes there, and the call is over in the final state. */
  lemma TurnMovesOn<S, D>(r: Registry<S, D>, m: Sm<S, D>, slot: Slot)
    requires Runs(r, m, slot) && Act(r, r.states[m.current], m.data).1.Move?
    ensures var (d, verdict) := Act(r, r.states[m.current], m.data);
      var n := Turn(r, m, slot);
      && n.data == d && WentTo(m, n, verdict.next)
      && n.pc == (if verdict.next == r.finalState then Returned(Nil) else AtCheck)
  {
  }

  /** A turn whose handler fails ends the call: with nil in a registered error state, or else with the error. */
  lemma TurnFails<S, D>(r: Registry<S, D>, m: Sm<S, D>, slot: Slot)
    requires Runs(r, m, slot) && !Act(r, r.states[m.current], m.data).1.Move?
    ensures var (d, verdict) := Act(r, r.states[m.current], m.data);
      var n := Turn(r, m, slot);
      && n.data == d
      && if verdict.Crash? then Stayed(m, n) && n.pc == Returned(Panic)
         else if r.errorState != r.blank then WentTo(m, n, r.errorState) && n.pc == Returned(Nil)
         else Stayed(m, n) && n.pc == Returned(Error(verdict.error))
  {
  }

  /** `at(k)` is the machine after `k` turns. */
  ghost predicate AreTurns<S, D>(r: Registry<S, D>, env: nat -> Slot, at: nat -> Sm<S, D>) {
    forall k: nat {:trigger at(k + 1)} :: at(k + 1) == Turn(r, at(k), env(k))
  }

  ghost function TurnsFrom<S, D>(r: Registry<S, D>, m: Sm<S, D>, env: nat -> Slot): nat -> Sm<S, D> {
    (k: nat) => Turns(r, m, env, k)
  }

  lemma TurnsFromAreTurns<S, D>(r: Registry<S, D>, m: Sm<S, D>, env: nat -> Slot, n: nat)
    ensures AreTurns(r, env, TurnsFrom(r, m, env))
    ensures TurnsFrom(r, m, env)(0) == m && TurnsFrom(r, m, env)(n) == Turns(r, m, env, n)
  {
  }

  lemma {:induction false} OverStaysOver<S, D>(
    r: Registry<S, D>, env: nat -> Slot, at: nat -> Sm<S, D>, k: nat, n: nat)
    requires AreTurns(r, env, at) && k <= n && !at(k).pc.AtCheck?
    ensures at(n) == at(k)
    decreases n
  {
    if k < n {
      var j: nat := n - 1;
      OverStaysOver(r, env, at, k, j);
      assert at(j + 1) == Turn(r, at(j), env(j));
    }
  }

  // ----- whole turns are traces of the atomic steps -----

  ghost predicate OneCall(events: seq<Event>) { forall i :: 0 <= i < |events| ==> !events[i].Call? }

  function Part(command: Option<bool>, cancelled: bool): seq<Event> {
    if command.None? then [Tick(cancelled)]
    else if command.value then [Pause, Tick(cancelled)] else [Resume, Tick(cancelled)]
  }

  lemma PartIsStep<S, D>(r: Registry<S, D>, m: Sm<S, D>, command: Option<bool>, cancelled: bool)
    ensures Exec(r, m, Part(command, cancelled)) == Next(r, Commanded(m, command), Tick(cancelled))
  {
    var part := Part(command, cancelled);
    if command.Some? {
      assert part[..1] == [part[0]] && part[..1][..0] == [];
      assert Exec(r, m, part[..1]) == Commanded(m, command);
    }
  }

  /** A trace that has come to `u` goes on with one more part. */
  lemma OnePartMore<S, D>(
    r: Registry<S, D>, m: Sm<S, D>, events: seq<Event>, u: Sm<S, D>, command: Option<bool>, cancelled: bool)
    returns (more: seq<Event>)
    requires Exec(r, m, events) == u && OneCall(events)
    ensures Exec(r, m, more) == Exec(r, u, Part(command, cancelled)) && OneCall(more)
  {
    more := events + Part(command, cancelled);
    ExecAppend(r, m, events, Part(command, cancelled));
  }

  lemma CheckIsAPart<S, D>(r: Registry<S, D>, m: Sm<S, D>, slot: Slot)
    requires m.pc.AtCheck?
    ensures Exec(r, m, Part(slot.beforeCheck, slot.cancelled)) == CheckPart(r, m, slot)
    ensures CheckPart(r, m, slot).pc.AtHandle? || CheckPart(r, m, slot).pc.Returned?
  {
    PartIsStep(r, m, slot.beforeCheck, slot.cancelled);
  }

  lemma HandleIsAPart<S, D>(r: Registry<S, D>, m: Sm<S, D>, slot: Slot)
    requires m.pc.AtHandle? && m.current in r.states
    ensures Exec(r, m, Part(slot.beforeHandler, slot.cancelled)) == HandlePart(r, m, slot)
    ensures HandlePart(r, m, slot).pc.AtTransition? || HandlePart(r, m, slot).pc.Returned?
  {
    PartIsStep(r, m, slot.beforeHandler, slot.cancelled);
  }

  lemma TransitionIsAPart<S, D>(r: Registry<S, D>, m: Sm<S, D>, slot: Slot)
    requires m.pc.AtTransition?
    ensures Exec(r, m, Part(slot.beforeTransition, slot.cancelled)) == TransitionPart(r, m, slot)
    ensures TransitionPart(r, m, slot).pc.AtCheck? || TransitionPart(r, m, slot).pc.Returned?
  {
    PartIsStep(r, m, slot.beforeTransition, slot.cancelled);
  }

  /** The three ways a turn can go, without what its parts do. */
  lemma TurnByParts<S, D>(r: Registry<S, D>, m: Sm<S, D>, slot: Slot)
    ensures !m.pc.AtCheck? ==> Turn(r, m, slot) == m
    ensures m.pc.AtCheck? ==>
      var c := CheckPart(r, m, slot);
      if !c.pc.AtHandle? then Turn(r, m, slot) == c
      else
        && c.current in r.states
        && var h := HandlePart(r, c, slot);
           Turn(r, m, slot) == if h.pc.AtTransition? then TransitionPart(r, h, slot) else h
  {
  }

  lemma TurnIsATrace<S, D>(r: Registry<S, D>, start: Sm<S, D>, before: seq<Event>, m: Sm<S, D>, slot: Slot)
    returns (events: seq<Event>)
    requires Exec(r, start, before) == m && OneCall(before) && (m.pc.AtCheck? || m.pc.Returned?)
    ensures Exec(r, start, events) == Turn(r, m, slot) && OneCall(events)
    ensures Turn(r, m, slot).pc.AtCheck? || Turn(r, m, slot).pc.Returned?
  {
    events := before;
    TurnByParts(r, m, slot);
    if m.pc.AtCheck? {
      var c := CheckPart(r, m, slot);
      CheckIsAPart(r, m, slot);
      events := OnePartMore(r, start, events, m, slot.beforeCheck, slot.cancelled);
      if c.pc.AtHandle? {
        var h := HandlePart(r, c, slot);
        HandleIsAPart(r, c, slot);
        events := OnePartMore(r, start, events, c, slot.beforeHandler, slot.cancelled);
        if h.pc.AtTransition? {
          TransitionIsAPart(r, h, slot);
          events := OnePartMore(r, start, events, h, slot.beforeTransition, slot.cancelled);
        }
      }
    }
  }

  /** Whole turns are traces of the small steps of one call, so everything above holds of them. */
  lemma {:induction false} TurnsAreTraces<S, D>(r: Registry<S, D>, m: Sm<S, D>, env: nat -> Slot, n: nat)
    returns (events: seq<Event>)
    requires m.pc.AtCheck?
    ensures Exec(r, m, events) == Turns(r, m, env, n) && OneCall(events)
    ensures Turns(r, m, env, n).pc.AtCheck? || Turns(r, m, env, n).pc.Returned?
  {
    if n == 0 {
      events := [];
    } else {
      events := TurnsAreTraces(r, m, env, n - 1);
      events := TurnIsATrace(r, m, events, Turns(r, m, env, n - 1), env(n - 1));
    }
  }

  /** Every entry after those of `start` is explained by an atomic step of one call. */
  ghost predicate AllExplained<S, D>(r: Registry<S, D>, start: Sm<S, D>, events: seq<Event>) {
    forall j: nat :: |start.history| <= j < |Exec(r, start, events).history| ==> IsExplained(r, start, events, j)
  }

  ghost predicate IsExplained<S, D>(r: Registry<S, D>, start: Sm<S, D>, events: seq<Event>, j: nat) {
    exists k: nat, t: nat :: Explained(r, start, events, j, k, t)
  }

  lemma OneCallIsExplained<S, D>(r: Registry<S, D>, start: Sm<S, D>, events: seq<Event>)
    requires Aligned(start) && start.pc.AtCheck? && OneCall(events)
    ensures AllExplained(r, start, events)
  {
    forall j: nat | |start.history| <= j < |Exec(r, start, events).history|
      ensures IsExplained(r, start, events, j)
    {
      var k, t := CallIsExplained(r, start, events, j);
    }
  }

  lemma {:induction false} OnlyAppends<S, D>(r: Registry<S, D>, start: Sm<S, D>, events: seq<Event>)
    ensures start.history <= Exec(r, start, events).history
  {
    if events != [] {
      OnlyAppends(r, start, events[..|events| - 1]);
      OnlyTransitionsAppend(r, Exec(r, start, events[..|events| - 1]), events[|events| - 1]);
    }
  }

  /** The call did what the machine promises: `events` are its atomic steps, and every entry it added is explained. */
  ghost predicate IsSoundCall<S, D>(r: Registry<S, D>, start: Sm<S, D>, m: Sm<S, D>, events: seq<Event>) {
    && Exec(r, start, events) == m && OneCall(events)
    && Aligned(m) && PcSound(r, m) && start.history <= m.history && AllExplained(r, start, events)
  }

  ghost predicate CallIsSound<S, D>(r: Registry<S, D>, start: Sm<S, D>, m: Sm<S, D>) {
    Aligned(start) ==> exists events: seq<Event> :: IsSoundCall(r, start, m, events)
  }

  /**
   A call made in whole turns is sound: the lists agree, nil means the final or the error state,
   and every entry is the decision of the handler before it on the data carried then.
   */
  lemma TurnsAreSound<S, D>(r: Registry<S, D>, start: Sm<S, D>, env: nat -> Slot, n: nat)
    requires start.pc.AtCheck?
    ensures CallIsSound(r, start, Turns(r, start, env, n))
  {
    if Aligned(start) {
      var events := TurnsAreTraces(r, start, env, n);
      StaysSound(r, start, events);
      OnlyAppends(r, start, events);
      OneCallIsExplained(r, start, events);
      assert IsSoundCall(r, start, Turns(r, start, env, n), events);
    }
  }

  lemma {:induction false} ReturnedStaysReturned<S, D>(
    r: Registry<S, D>, m: Sm<S, D>, env: nat -> Slot, n: nat, k: nat)
    requires n <= k && Turns(r, m, env, n).pc.Returned?
    ensures Turns(r, m, env, k).pc == Turns(r, m, env, n).pc
    ensures Turns(r, m, env, k).history == Turns(r, m, env, n).history
    ensures Turns(r, m, env, k).data == Turns(r, m, env, n).data
    decreases k
  {
    if n < k { ReturnedStaysReturned(r, m, env, n, k - 1); }
  }

  // ----- machines whose handlers pass their data through Enter and Exit -----

  type Step<!S, !D> = (S, D) -> (S, D, Status)

  function PassThrough<S, D>(step: Step<S, D>, s: S): Handler<S, D> {
    Handler(Some((d: D) => (d, Fine)), (d: D) => step(s, d), Some((d: D) => (d, Fine)))
  }

  ghost predicate IsPlain<S(!new), D>(r: Registry<S, D>, step: Step<S, D>) {
    r.errorState != r.blank && forall s :: s in r.states ==> r.states[s] == PassThrough(step, s)
  }

  function Appended<S, D>(m: Sm<S, D>, data: D, next: S, over: bool): Sm<S, D> {
    m.(data := data, current := next, history := m.history + [next], processed := m.processed + [next],
       pc := if over then Returned(Nil) else AtCheck)
  }

  /** A turn of such a machine, with the handler's answer spelled out. */
  function PlainTurn<S(==), D>(r: Registry<S, D>, step: Step<S, D>, m: Sm<S, D>, cancelled: bool): Sm<S, D> {
    if !m.pc.AtCheck? then m
    else if m.current == r.finalState then m.(pc := Returned(Nil))
    else if m.current !in r.states then m.(pc := Returned(Error(ErrInvalidState)))
    else if cancelled then m.(pc := Returned(Error(ErrCancelled)))
    else
      var (next, d, status) := step(m.current, m.data);
      match status
      case Panicked => m.(data := d, pc := Returned(Panic))
      case Failed => Appended(m, d, r.errorState, true)
      case Fine =>
        if next in r.states || next == r.finalState || next == r.blank
        then Appended(m, d, next, next == r.finalState)
        else Appended(m, d, r.errorState, true)
  }

  lemma PlainTurnIsTurn<S(!new), D>(r: Registry<S, D>, step: Step<S, D>, m: Sm<S, D>, cancelled: bool)
    requires IsPlain(r, step) && !m.paused && (m.pc.AtCheck? || m.pc.Returned?)
    ensures Turn(r, m, Slot(None, None, None, cancelled)) == PlainTurn(r, step, m, cancelled)
    ensures var n := PlainTurn(r, step, m, cancelled); !n.paused && (n.pc.AtCheck? || n.pc.Returned?)
  {
    if m.current in r.states {
      var h := r.states[m.current];
      assert h == PassThrough(step, m.current);
      assert CallOptional(h.enter, m.data) == (m.data, Fine);
      assert h.process(m.data) == step(m.current, m.data);
      var d := step(m.current, m.data).1;
      assert CallOptional(h.exit, d) == (d, Fine);
    }
  }

  /** Nobody pauses the machine; only its context can stop it. */
  function Quiet(cancel: nat -> bool): nat -> Slot {
    (k: nat) => Slot(None, None, None, cancel(k))
  }

  function PlainTurns<S(==), D>(
    r: Registry<S, D>, step: Step<S, D>, m: Sm<S, D>, cancel: nat -> bool, n: nat): Sm<S, D>
  {
    if n == 0 then m else PlainTurn(r, step, PlainTurns(r, step, m, cancel, n - 1), cancel(n - 1))
  }

  lemma {:induction false} PlainTurnsAreTurns<S(!new), D>(
    r: Registry<S, D>, step: Step<S, D>, m: Sm<S, D>, cancel: nat -> bool, n: nat)
    requires IsPlain(r, step) && m.pc.AtCheck? && !m.paused
    ensures Turns(r, m, Quiet(cancel), n) == PlainTurns(r, step, m, cancel, n)
    ensures var u := PlainTurns(r, step, m, cancel, n); !u.paused && (u.pc.AtCheck? || u.pc.Returned?)
  {
    if n > 0 {
      PlainTurnsAreTurns(r, step, m, cancel, n - 1);
      PlainTurnIsTurn(r, step, PlainTurns(r, step, m, cancel, n - 1), cancel(n - 1));
      assert Quiet(cancel)(n - 1) == Slot(None, None, None, cancel(n - 1));
    }
  }

  // ----- the imperative machine -----

  class StateMachine<S(==), D> {
    const blank: S
    var currentState: S
    var finalState: S
    var errorState: S
    var states: map<S, Handler<S, D>>
    var data: D
    var processedStates: seq<S>
    var history: seq<S>
    var paused: bool

    ghost function Registered(): Registry<S, D>
      reads this
    {
      Registry(states, blank, finalState, errorState)
    }

    ghost function View(pc: Pc<S>): Sm<S, D>
      reads this
    {
      Sm(currentState, data, history, processedStates, paused, pc)
    }

    constructor (blank: S, initialState: S, data: D)
      ensures View(Ready) == NewSm(initialState, data)
      ensures Registered() == Registry(map[], blank, blank, blank)
    {
      this.blank := blank;
      currentState, finalState, errorState := initialState, blank, blank;
      states := map[];
      this.data := data;
      processedStates, history := [initialState], [initialState];
      paused := false;
    }

    method RegisterState(state: S, handler: Handler<S, D>)
      modifies this`states
      ensures states == old(states)[state := handler]
    {
      states := states[state := handler];
    }

    method RegisterFinalState(state: S)
      modifies this`finalState
      ensures finalState == state
    {
      finalState := state;
    }

    /** Refused unless the state has a handler; a refusal leaves the old error state. */
    method RegisterErrorState(state: S) returns (ok: bool)
      modifies this`errorState
      ensures ok <==> state in states
      ensures errorState == if ok then state else old(errorState)
    {
      ok := state in states;
      if ok { errorState := state; }
    }

    method Pause()
      modifies this`paused
      ensures paused
    {
      paused := true;
    }

    method Resume()
      modifies this`paused
      ensures !paused
    {
      paused := false;
    }

    method MoveTo(next: S)
      modifies this`currentState, this`history, this`processedStates
      ensures currentState == next
      ensures history == old(history) + [next] && processedStates == old(processedStates) + [next]
    {
      processedStates := processedStates + [next];
      history := history + [next];
      currentState := next;
    }

    /** Enter, Process and Exit of one handler; `verdict` says how the turn goes on. */
    method RunHandler(handler: Handler<S, D>) returns (verdict: Verdict<S>)
      modifies this`data
      ensures (data, verdict) == Act(Registered(), handler, old(data))
    {
      var status := Fine;
      if handler.enter.Some? {
        var entered := handler.enter.value(data);
        data, status := entered.0, entered.1;
        if status.Panicked? { return Crash; }
        if status.Failed? { return Fail(ErrHandler); }
      }
      var processed := handler.process(data);
      var next := processed.0;
      data, status := processed.1, processed.2;
      if status.Panicked? { return Crash; }
      if status.Failed? { return Fail(ErrHandler); }
      if next !in states && next != finalState && next != blank {
        return Fail(ErrInvalidNext);
      }
      if handler.exit.Some? {
        var left := handler.exit.value(data);
        data, status := left.0, left.1;
        if status.Panicked? { return Crash; }
        if status.Failed? { return Fail(ErrHandler); }
      }
      return Move(next);
    }

    /** One turn of the loop; `over` says that it ended the call. */
    method TakeTurn(env: nat -> Slot, k: nat, ghost at: nat -> Sm<S, D>) returns (over: bool, result: Result)
      requires AreTurns(Registered(), env, at) && View(AtCheck) == at(k)
      modifies this`currentState, this`data, this`history, this`processedStates, this`paused
      ensures View(if over then Returned(result) else AtCheck) == at(k + 1)
    {
      result := Nil;
      var slot := env(k);
      assert at(k + 1) == Turn(Registered(), at(k), slot);
      if slot.beforeCheck.Some? { paused := slot.beforeCheck.value; }
      if paused { return true, Error(ErrPaused); }
      if currentState == finalState { return true, Nil; }
      if currentState !in states { return true, Error(ErrInvalidState); }
      var handler := states[currentState];
      if slot.beforeHandler.Some? { paused := slot.beforeHandler.value; }
      if slot.cancelled { return true, Error(ErrCancelled); }
      var verdict := RunHandler(handler);
      match verdict {
        case Crash =>
          return true, Panic;
        case Fail(error) =>
          if errorState != blank {
            if slot.beforeTransition.Some? { paused := slot.beforeTransition.value; }
            MoveTo(errorState);
            return true, Nil;
          }
          return true, Error(error);
        case Move(next) =>
          if slot.beforeTransition.Some? { paused := slot.beforeTransition.value; }
          MoveTo(next);
          over := next == finalState;
      }
    }

    /** The first `turns` turns of the loop, over the turns `at`; no result while it is still running. */
    method Loop(env: nat -> Slot, turns: nat, ghost at: nat -> Sm<S, D>) returns (result: Option<Result>)
      requires AreTurns(Registered(), env, at) && View(AtCheck) == at(0)
      modifies this`currentState, this`data, this`history, this`processedStates, this`paused
      ensures View(if result.Some? then Returned(result.value) else AtCheck) == at(turns)
      ensures Registered() == old(Registered())
    {
      ghost var r := Registered();
      var over, last, k := false, Nil, 0;
      while !over && k < turns
        invariant k <= turns && Registered() == r
        invariant View(if over then Returned(last) else AtCheck) == at(k)
        decreases turns - k
      {
        over, last := TakeTurn(env, k, at);
        k := k + 1;
      }
      if over {
        OverStaysOver(r, env, at, k, turns);
        return Some(last);
      }
      return None;
    }

    /**
     One call, watched for `turns` turns: handlers may keep it running for ever, so there need not
     be a result by then. `env` is what other goroutines and the context do turn by turn.
     */
    method Process(env: nat -> Slot, turns: nat) returns (result: Option<Result>)
      modifies this`currentState, this`data, this`history, this`processedStates, this`paused
      ensures var start := old(View(AtCheck));
        var now := View(if result.Some? then Returned(result.value) else AtCheck);
        now == Turns(Registered(), start, env, turns) && CallIsSound(Registered(), start, now)
    {
      ghost var r, start := Registered(), View(AtCheck);
      TurnsFromAreTurns(r, start, env, turns);
      result := Loop(env, turns, TurnsFrom(r, start, env));
      TurnsAreSound(r, start, env, turns);
    }
  }
}
