/**
 The handlers of pkg/unpacker. Each is a function from the descriptor, the table and the answers
 of the outside world to the descriptor and table it leaves behind, the state it chooses and the
 outside calls it made. The class `Handlers` is the same code in its imperative form.
 */
module Unpacker {
  import opened Base
  import opened Stages
  import opened Contracts
  import opened Machine

  datatype Header = Header(number: int, hash: int)

  /** The fields of unpacker.Descriptor that the pipeline reads or writes. */
  datatype Desc = Desc(
    network: int, address: int, header: Option<Header>, tx: Option<int>, hasReceipt: bool,
    info: ContractInfo, model: Option<Row>,
    nextState: Stage, completed: seq<Stage>, failed: seq<Stage>,
    selfDestructed: bool, processed: bool)

  /**
   Everything one handler call may learn from outside: solgo, SQLite, disk, configuration, clock.
   A handler may panic at once, in one of its calls to solgo (counted from 0), or after its SQL
   statements, and then possibly while the sources are written to disk.
   */
  datatype Answers = Answers(
    panics: bool, panicsInCall: Option<nat>,
    isValid: bool, lookupFails: bool, forceReprocess: bool,
    hasMetadata: bool, metadataFails: bool,
    cachedSourcesLoad: bool, cacheHolds: bool, sourcesFail: bool, parseFails: bool, hasConstructor: bool,
    info: ContractInfo,
    saveFails: bool, updateFails: bool, fallbackFails: bool,
    panicsAfterWrite: bool, panicsOnDisk: bool, sourcesWriteFails: bool, now: int)

  /** Calls that leave the process, in the order they are made. */
  datatype Effect =
    | LookedUp(key: ContractKey, found: Option<Row>)
    | DecodedMetadata | LoadedSources | FetchedSources | Parsed | DiscoveredConstructor
    | SaveIssued(saved: Row) | UpdateIssued(updated: Row)
    | WroteSources

  datatype Out = Out(d: Desc, t: Table, next: Stage, status: Status, effects: seq<Effect>)

  /** A descriptor as NewDescriptor makes it, with nothing of a run in it yet. */
  predicate IsFresh(d: Desc) {
    d.model.None? && d.nextState.Unset? && d.completed == [] && d.failed == [] && !d.processed
  }

  function KeyOf(d: Desc): ContractKey
    requires d.header.Some?
  {
    ContractKey(Uint64(d.network), Uint64(d.header.value.number), d.address)
  }

  function Crashed(d: Desc, t: Table, effects: seq<Effect>): Out { Out(d, t, Unset, Panicked, effects) }

  /** The opening of every handler but discover's: without discovery, go there and come back at metadata. */
  function Redirected(d: Desc, t: Table): Out {
    Out(d.(nextState := Metadata), t, Discover, Fine, [])
  }

  function MarkFailed(d: Desc, s: Stage): Desc { d.(failed := AppendNew(d.failed, s)) }

  function MarkCompleted(d: Desc, s: Stage): Desc { d.(completed := AppendNew(d.completed, s)) }

  function MarkCompletedUnlessFailed(d: Desc, s: Stage): Desc {
    if s in d.failed then d else MarkCompleted(d, s)
  }

  function DiscoverStep(d: Desc, t: Table, a: Answers): Out {
    if a.panics then Crashed(d, t, [])
    else if d.header.None? || d.tx.None? || !d.hasReceipt then Out(d, t, ErrorStage, Failed, [])
    else
      var d1 := d.(selfDestructed := !a.isValid);
      if a.lookupFails then Out(d1, t, ErrorStage, Failed, [])
      else
        var found := Lookup(t, KeyOf(d));
        FoundStep(d1.(model := found), t, a, [LookedUp(KeyOf(d), found)])
  }

  /** What follows the lookup: nothing to do, the state that was asked for, or metadata. */
  function FoundStep(d: Desc, t: Table, a: Answers, made: seq<Effect>): Out {
    if d.model.Some? && IsCompleted(d.model.value) && !a.forceReprocess then Out(d, t, Done, Fine, made)
    else
      var d1 := MarkCompleted(d, Discover);
      if !d1.nextState.Unset? then Out(d1.(nextState := Unset), t, d1.nextState, Fine, made)
      else Out(d1, t, Metadata, Fine, made)
  }

  predicate DecodesMetadata(d: Desc, a: Answers) { !d.selfDestructed && !a.hasMetadata }

  function MetadataStep(d: Desc, t: Table, a: Answers): Out {
    if a.panics then Crashed(d, t, [])
    else if Discover !in d.completed then Redirected(d, t)
    else if !DecodesMetadata(d, a) then Out(MarkCompletedUnlessFailed(d, Metadata), t, SourceProviders, Fine, [])
    else if a.panicsInCall == Some(0) then Crashed(d, t, [DecodedMetadata])
    else
      var d1 := d.(info := a.info);
      var d2 := if a.metadataFails then MarkFailed(d1, Metadata) else d1;
      Out(MarkCompletedUnlessFailed(d2, Metadata), t, SourceProviders, Fine, [DecodedMetadata])
  }

  /** The local copy of the sources is tried when a stored row promises one under a name. */
  predicate TriesCache(d: Desc) {
    !d.info.hasSources && d.model.Some? && d.model.value.info.hasSources && d.model.value.info.name != ""
  }

  function ForgetProviderFailure(d: Desc): Desc { d.(failed := Without(d.failed, SourceProviders)) }

  /** The stored columns replace those that come with the sources; the loaded copy may turn out empty. */
  function CachedInfo(own: ContractInfo, stored: ContractInfo, holds: bool): ContractInfo {
    own.(hasSources := holds, name := stored.name, described := stored.described)
  }

  function FromCache(d: Desc, a: Answers): Desc {
    if TriesCache(d) && a.cachedSourcesLoad
    then ForgetProviderFailure(d.(info := CachedInfo(d.info, d.model.value.info, a.cacheHolds))) else d
  }

  function CacheEffect(d: Desc): seq<Effect> { if TriesCache(d) then [LoadedSources] else [] }

  /** The outside providers are asked only while there are no sources. */
  function FromProviders(d: Desc, a: Answers): Desc {
    if d.info.hasSources then d
    else if a.sourcesFail then d.(info := a.info)
    else ForgetProviderFailure(d.(info := a.info))
  }

  function ProviderEffect(d: Desc): seq<Effect> { if d.info.hasSources then [] else [FetchedSources] }

  predicate CachePanics(d: Desc, a: Answers) { TriesCache(d) && a.panicsInCall == Some(0) }

  predicate FetchPanics(d: Desc, calls: nat, a: Answers) { !d.info.hasSources && a.panicsInCall == Some(calls) }

  function ProvidersStep(d: Desc, t: Table, a: Answers): Out {
    if a.panics then Crashed(d, t, [])
    else if Discover !in d.completed then Redirected(d, t)
    else if CachePanics(d, a) then Crashed(d, t, CacheEffect(d))
    else FetchStep(FromCache(d, a), t, a, CacheEffect(d))
  }

  /** What follows the local copy, with the calls made so far. */
  function FetchStep(d: Desc, t: Table, a: Answers, made: seq<Effect>): Out {
    if FetchPanics(d, |made|, a) then Crashed(d, t, made + ProviderEffect(d))
    else
      Out(MarkCompletedUnlessFailed(FromProviders(d, a), SourceProviders), t, Sources, Fine, made + ProviderEffect(d))
  }

  function SourcesStep(d: Desc, t: Table, a: Answers): Out {
    if a.panics then Crashed(d, t, [])
    else if Discover !in d.completed then Redirected(d, t)
    else Out(MarkCompletedUnlessFailed(d, Sources), t, Parser, Fine, [])
  }

  function ParserStep(d: Desc, t: Table, a: Answers): Out {
    if a.panics then Crashed(d, t, [])
    else if Discover !in d.completed then Redirected(d, t)
    else if !d.info.hasSources then Out(MarkCompletedUnlessFailed(d, Parser), t, Constructor, Fine, [])
    else if a.panicsInCall == Some(0) then Crashed(d, t, [Parsed])
    else
      var d1 := d.(info := a.info);
      var d2 := if a.parseFails then MarkFailed(d1, Parser)
        else MarkCompleted(d1.(failed := Without(d1.failed, Parser)), Parser);
      Out(MarkCompletedUnlessFailed(d2, Parser), t, Constructor, Fine, [Parsed])
  }

  function ConstructorStep(d: Desc, t: Table, a: Answers): Out {
    if a.panics then Crashed(d, t, [])
    else if Discover !in d.completed then Redirected(d, t)
    else if !a.hasConstructor then Out(d, t, Final, Fine, [])
    else if a.panicsInCall == Some(0) then Crashed(d, t, [DiscoveredConstructor])
    else Out(d.(info := a.info), t, Final, Fine, [DiscoveredConstructor])
  }

  const ZERO_TIME: int := 0

  /** GetContractEntry: id and creation time come from the row discovery found, if any. */
  function EntryOf(d: Desc, now: int): (row: Row)
    requires d.header.Some? && d.tx.Some?
    ensures row.key == KeyOf(d)
    ensures row.blockHash == d.header.value.hash && row.txHash == d.tx.value
    ensures row.info == d.info && row.selfDestructed == d.selfDestructed
    ensures row.completed == d.completed && row.failed == d.failed && row.processed == d.processed
    ensures row.partial <==> d.failed != []
    ensures d.model.None? ==> row.id == 0 && row.createdAt == now && row.updatedAt == ZERO_TIME
    ensures d.model.Some? ==>
      row.id == d.model.value.id && row.createdAt == d.model.value.createdAt && row.updatedAt == now
  {
    var row := Row(0, KeyOf(d), d.header.value.hash, d.tx.value, d.info, d.selfDestructed,
                   d.completed, d.failed, d.processed, |d.failed| > 0, now, ZERO_TIME);
    if d.model.Some? then row.(createdAt := d.model.value.createdAt, id := d.model.value.id, updatedAt := now)
    else row
  }

  /** The first statement of the final stage: INSERT for an unknown contract, UPDATE for a known one. */
  function FirstWrite(d: Desc, t: Table, a: Answers, entry: Row): (Table, SqlResult) {
    if d.model.None? then Insert(t, entry, a.saveFails) else Update(t, entry, a.updateFails)
  }

  function FirstEffect(d: Desc, entry: Row): Effect {
    if d.model.None? then SaveIssued(entry) else UpdateIssued(entry)
  }

  /** Only a failed INSERT falls back to an UPDATE, and only on a UNIQUE violation. */
  predicate NeedsFallback(d: Desc, result: SqlResult) { d.model.None? && result.UniqueViolation? }

  datatype Written = Written(t: Table, ok: bool, effects: seq<Effect>)

  /** INSERT with its fallback, or UPDATE; `ok` says whether the last statement succeeded. */
  function WriteRow(d: Desc, t: Table, a: Answers, entry: Row): Written {
    var (t1, first) := FirstWrite(d, t, a, entry);
    if NeedsFallback(d, first) then
      var (t2, second) := Update(t1, entry, a.fallbackFails);
      Written(t2, second.SqlOk?, [FirstEffect(d, entry), UpdateIssued(entry)])
    else Written(t1, first.SqlOk?, [FirstEffect(d, entry)])
  }

  /** What follows the statements: write the sources to disk, then record how the stage went. */
  function FinishFinal(d: Desc, written: bool, a: Answers): Desc {
    var d1 := if written then d else MarkFailed(d, Final);
    var d2 := if d1.info.hasSources && Final !in d1.failed && a.sourcesWriteFails
      then MarkFailed(d1, Final) else d1;
    MarkCompletedUnlessFailed(d2, Final)
  }

  function DiskEffect(d: Desc, written: bool): seq<Effect> {
    if d.info.hasSources && written && Final !in d.failed then [WroteSources] else []
  }

  function FinalStep(d: Desc, t: Table, a: Answers): Out {
    if a.panics then Crashed(d, t, [])
    else if Discover !in d.completed then Redirected(d, t)
    else if d.header.None? || d.tx.None? then Crashed(d.(processed := true), t, [])
    else
      var d1 := d.(processed := true);
      var entry := EntryOf(d1, a.now);
      ConcludeStep(d1, a, WriteRow(d1, t, a, entry))
  }

  /** What follows the statements. */
  function ConcludeStep(d: Desc, a: Answers, w: Written): Out {
    if a.panicsAfterWrite then
      Crashed(d, w.t, w.effects + if a.panicsOnDisk then DiskEffect(d, w.ok) else [])
    else Out(FinishFinal(d, w.ok, a), w.t, Done, Fine, w.effects + DiskEffect(d, w.ok))
  }

  function ErrorStep(d: Desc, t: Table, a: Answers): Out {
    if a.panics then Crashed(d, t, []) else Out(d, t, Done, Fine, [])
  }

  /** The states with a handler, as RegisterMachineStates registers them. */
  predicate HasHandler(s: Stage) {
    s.Discover? || s.Metadata? || s.SourceProviders? || s.Sources? || s.Parser? || s.Constructor?
    || s.ErrorStage? || s.Final?
  }

  function StepOf(s: Stage, d: Desc, t: Table, a: Answers): Out
    requires HasHandler(s)
  {
    match s
    case Discover => DiscoverStep(d, t, a)
    case Metadata => MetadataStep(d, t, a)
    case SourceProviders => ProvidersStep(d, t, a)
    case Sources => SourcesStep(d, t, a)
    case Parser => ParserStep(d, t, a)
    case Constructor => ConstructorStep(d, t, a)
    case Final => FinalStep(d, t, a)
    case ErrorStage => ErrorStep(d, t, a)
  }
}

/** The descriptor object and the handler methods, as the source updates them in place. */
module UnpackerObjects {
  import opened Base
  import opened Stages
  import opened Contracts
  import opened Machine
  import opened Unpacker

  class Descriptor {
    const network: int
    const address: int
    var header: Option<Header>
    var tx: Option<int>
    var hasReceipt: bool
    var info: ContractInfo
    var model: Option<Row>
    var nextState: Stage
    var completedStates: seq<Stage>
    var failedStates: seq<Stage>
    var selfDestructed: bool
    var processed: bool

    ghost function View(): Desc
      reads this
    {
      Desc(network, address, header, tx, hasReceipt, info, model,
           nextState, completedStates, failedStates, selfDestructed, processed)
    }

    constructor (network: int, address: int, info: ContractInfo)
      ensures IsFresh(View())
      ensures View() == Desc(network, address, None, None, false, info, None, Unset, [], [], false, false)
    {
      this.network, this.address, this.info := network, address, info;
      header, tx, hasReceipt, model := None, None, false, None;
      nextState, completedStates, failedStates := Unset, [], [];
      selfDestructed, processed := false, false;
    }

    method HasCompletedState(state: Stage) returns (has: bool)
      ensures has <==> state in completedStates
    {
      for i := 0 to |completedStates|
        invariant state !in completedStates[..i]
      {
        if completedStates[i] == state { return true; }
      }
      assert completedStates[..|completedStates|] == completedStates;
      return false;
    }

    method HasFailedState(state: Stage) returns (has: bool)
      ensures has <==> state in failedStates
    {
      for i := 0 to |failedStates|
        invariant state !in failedStates[..i]
      {
        if failedStates[i] == state { return true; }
      }
      assert failedStates[..|failedStates|] == failedStates;
      return false;
    }

    method AppendCompletedState(state: Stage)
      modifies this`completedStates
      ensures View() == MarkCompleted(old(View()), state)
    {
      for i := 0 to |completedStates|
        invariant completedStates == old(completedStates)
        invariant state !in completedStates[..i]
      {
        if completedStates[i] == state { return; }
      }
      assert completedStates[..|completedStates|] == completedStates;
      completedStates := completedStates + [state];
    }

    method AppendFailedState(state: Stage)
      modifies this`failedStates
      ensures View() == MarkFailed(old(View()), state)
    {
      for i := 0 to |failedStates|
        invariant failedStates == old(failedStates)
        invariant state !in failedStates[..i]
      {
        if failedStates[i] == state { return; }
      }
      assert failedStates[..|failedStates|] == failedStates;
      failedStates := failedStates + [state];
    }

    method RemoveFailedState(state: Stage)
      modifies this`failedStates
      ensures View() == old(View()).(failed := Without(old(View()).failed, state))
    {
      var kept: seq<Stage> := [];
      for i := 0 to |failedStates|
        invariant failedStates == old(failedStates)
        invariant kept == Without(failedStates[..i], state)
      {
        WithoutGrows(failedStates, i, state);
        if failedStates[i] != state { kept := kept + [failedStates[i]]; }
      }
      assert failedStates[..|failedStates|] == failedStates;
      failedStates := kept;
    }
  }

  class Handlers {
    const store: ContractStore
    /** The outside calls made so far. */
    var effects: seq<Effect>

    constructor (store: ContractStore)
      ensures this.store == store && effects == []
    {
      this.store := store;
      effects := [];
    }

    /** This call did to descriptor, table and outside world what `out` says. */
    twostate predicate Did(d: Descriptor, out: Out, next: Stage, status: Status)
      reads this, d, store
    {
      && d.View() == out.d && store.View() == out.t
      && next == out.next && status == out.status
      && effects == old(effects) + out.effects
    }

    method Discover(d: Descriptor, a: Answers) returns (next: Stage, status: Status)
      modifies this`effects, d
      ensures Did(d, DiscoverStep(old(d.View()), old(store.View()), a), next, status)
    {
      if a.panics { return Unset, Panicked; }
      if d.header == None { return ErrorStage, Failed; }
      if d.tx == None { return ErrorStage, Failed; }
      if !d.hasReceipt { return ErrorStage, Failed; }
      d.selfDestructed := !a.isValid;
      var key := ContractKey(Uint64(d.network), Uint64(d.header.value.number), d.address);
      if a.lookupFails { return ErrorStage, Failed; }
      var found := store.GetContractByUniqueIndex(key);
      effects := effects + [LookedUp(key, found)];
      d.model := found;
      next := Decide(d, a, store.View(), [LookedUp(key, found)]);
      status := Fine;
    }

    /** Where discovery leads once the lookup is done. */
    method Decide(d: Descriptor, a: Answers, ghost t: Table, ghost made: seq<Effect>) returns (next: Stage)
      modifies d
      ensures FoundStep(old(d.View()), t, a, made) == Out(d.View(), t, next, Fine, made)
    {
      if d.model.Some? && IsCompleted(d.model.value) {
        if !a.forceReprocess { return Done; }
      }
      d.AppendCompletedState(Stage.Discover);
      if d.nextState != Unset {
        next := d.nextState;
        d.nextState := Unset;
        return;
      }
      return Metadata;
    }

    method CompleteUnlessFailed(d: Descriptor, state: Stage)
      modifies d`completedStates
      ensures d.View() == MarkCompletedUnlessFailed(old(d.View()), state)
    {
      var failed := d.HasFailedState(state);
      if !failed { d.AppendCompletedState(state); }
    }

    method DecodeMetadata(d: Descriptor, a: Answers) returns (next: Stage, status: Status)
      modifies this`effects, d
      ensures Did(d, MetadataStep(old(d.View()), old(store.View()), a), next, status)
    {
      if a.panics { return Unset, Panicked; }
      var discovered := d.HasCompletedState(Stage.Discover);
      if !discovered {
        d.nextState := Metadata;
        return Stage.Discover, Fine;
      }
      if !d.selfDestructed && !a.hasMetadata {
        effects := effects + [DecodedMetadata];
        if a.panicsInCall == Some(0) { return Unset, Panicked; }
        d.info := a.info;
        if a.metadataFails { d.AppendFailedState(Metadata); }
      }
      CompleteUnlessFailed(d, Metadata);
      return SourceProviders, Fine;
    }

    /** The local copy; `calls` counts the calls to solgo made. */
    method TryCache(d: Descriptor, a: Answers) returns (panicked: bool, calls: nat)
      modifies this`effects, d
      ensures panicked == CachePanics(old(d.View()), a) && calls == |CacheEffect(old(d.View()))|
      ensures d.View() == if panicked then old(d.View()) else FromCache(old(d.View()), a)
      ensures effects == old(effects) + CacheEffect(old(d.View()))
    {
      if !d.info.hasSources && d.model.Some? && d.model.value.info.hasSources && d.model.value.info.name != "" {
        effects := effects + [LoadedSources];
        if a.panicsInCall == Some(0) { return true, 1; }
        if a.cachedSourcesLoad {
          d.info := d.info.(hasSources := a.cacheHolds, name := d.model.value.info.name,
                            described := d.model.value.info.described);
          d.RemoveFailedState(SourceProviders);
        }
        return false, 1;
      }
      return false, 0;
    }

    /** The outside providers. */
    method FetchSources(d: Descriptor, calls: nat, a: Answers) returns (panicked: bool)
      modifies this`effects, d
      ensures panicked == FetchPanics(old(d.View()), calls, a)
      ensures d.View() == if panicked then old(d.View()) else FromProviders(old(d.View()), a)
      ensures effects == old(effects) + ProviderEffect(old(d.View()))
    {
      if !d.info.hasSources {
        effects := effects + [FetchedSources];
        if a.panicsInCall == Some(calls) { return true; }
        d.info := a.info;
        if !a.sourcesFail { d.RemoveFailedState(SourceProviders); }
      }
      return false;
    }

    method FindSources(d: Descriptor, a: Answers) returns (next: Stage, status: Status)
      modifies this`effects, d
      ensures Did(d, ProvidersStep(old(d.View()), old(store.View()), a), next, status)
    {
      if a.panics { return Unset, Panicked; }
      var discovered := d.HasCompletedState(Stage.Discover);
      if !discovered {
        d.nextState := Metadata;
        return Stage.Discover, Fine;
      }
      var panicked, calls := TryCache(d, a);
      if panicked { return Unset, Panicked; }
      ghost var d1 := d.View();
      panicked := FetchSources(d, calls, a);
      assert effects == old(effects) + (CacheEffect(old(d.View())) + ProviderEffect(d1));
      if panicked { return Unset, Panicked; }
      CompleteUnlessFailed(d, SourceProviders);
      return Sources, Fine;
    }

    method ConfirmSources(d: Descriptor, a: Answers) returns (next: Stage, status: Status)
      modifies this`effects, d
      ensures Did(d, SourcesStep(old(d.View()), old(store.View()), a), next, status)
    {
      if a.panics { return Unset, Panicked; }
      var discovered := d.HasCompletedState(Stage.Discover);
      if !discovered {
        d.nextState := Metadata;
        return Stage.Discover, Fine;
      }
      CompleteUnlessFailed(d, Sources);
      return Parser, Fine;
    }

    method Parse(d: Descriptor, a: Answers) returns (next: Stage, status: Status)
      modifies this`effects, d
      ensures Did(d, ParserStep(old(d.View()), old(store.View()), a), next, status)
    {
      if a.panics { return Unset, Panicked; }
      var discovered := d.HasCompletedState(Stage.Discover);
      if !discovered {
        d.nextState := Metadata;
        return Stage.Discover, Fine;
      }
      if d.info.hasSources {
        effects := effects + [Parsed];
        if a.panicsInCall == Some(0) { return Unset, Panicked; }
        d.info := a.info;
        if a.parseFails {
          d.AppendFailedState(Parser);
        } else {
          d.RemoveFailedState(Parser);
          d.AppendCompletedState(Parser);
        }
      }
      CompleteUnlessFailed(d, Parser);
      return Constructor, Fine;
    }

    method FindConstructor(d: Descriptor, a: Answers) returns (next: Stage, status: Status)
      modifies this`effects, d
      ensures Did(d, ConstructorStep(old(d.View()), old(store.View()), a), next, status)
    {
      if a.panics { return Unset, Panicked; }
      var discovered := d.HasCompletedState(Stage.Discover);
      if !discovered {
        d.nextState := Metadata;
        return Stage.Discover, Fine;
      }
      if a.hasConstructor {
        effects := effects + [DiscoveredConstructor];
        if a.panicsInCall == Some(0) { return Unset, Panicked; }
        d.info := a.info;
      }
      return Final, Fine;
    }

    method GetContractEntry(d: Descriptor, now: int) returns (entry: Row)
      requires d.header.Some? && d.tx.Some?
      ensures entry == EntryOf(d.View(), now)
    {
      entry := Row(0, ContractKey(Uint64(d.network), Uint64(d.header.value.number), d.address),
                   d.header.value.hash, d.tx.value, d.info, d.selfDestructed,
                   d.completedStates, d.failedStates, d.processed, |d.failedStates| > 0, now, ZERO_TIME);
      if d.model.Some? {
        entry := entry.(createdAt := d.model.value.createdAt);
        entry := entry.(id := d.model.value.id);
        entry := entry.(updatedAt := now);
      }
    }

    method Store(d: Descriptor, entry: Row, a: Answers) returns (written: bool)
      modifies this`effects, store
      ensures var w := WriteRow(d.View(), old(store.View()), a, entry);
        store.View() == w.t && written == w.ok && effects == old(effects) + w.effects
    {
      var result;
      if d.model == None {
        effects := effects + [SaveIssued(entry)];
        result := store.SaveContract(entry, a.saveFails);
        if result.UniqueViolation? {
          effects := effects + [UpdateIssued(entry)];
          result := store.UpdateContract(entry, a.fallbackFails);
        }
      } else {
        effects := effects + [UpdateIssued(entry)];
        result := store.UpdateContract(entry, a.updateFails);
      }
      written := result.SqlOk?;
    }

    /** Write the sources to disk if there are any, then record how the final stage went. */
    method RecordOutcome(d: Descriptor, written: bool, a: Answers)
      modifies this`effects, d
      ensures d.View() == FinishFinal(old(d.View()), written, a)
      ensures effects == old(effects) + DiskEffect(old(d.View()), written)
    {
      if !written { d.AppendFailedState(Final); }
      if d.info.hasSources {
        var failedAlready := d.HasFailedState(Final);
        if !failedAlready {
          effects := effects + [WroteSources];
          if a.sourcesWriteFails { d.AppendFailedState(Final); }
        }
      }
      CompleteUnlessFailed(d, Final);
    }

    method Finalize(d: Descriptor, a: Answers) returns (next: Stage, status: Status)
      modifies this`effects, d, store
      ensures Did(d, FinalStep(old(d.View()), old(store.View()), a), next, status)
    {
      if a.panics { return Unset, Panicked; }
      var discovered := d.HasCompletedState(Stage.Discover);
      if !discovered {
        d.nextState := Metadata;
        return Stage.Discover, Fine;
      }
      d.processed := true;
      if d.header == None || d.tx == None { return Unset, Panicked; }
      ghost var d1 := d.View();
      var entry := GetContractEntry(d, a.now);
      var written := Store(d, entry, a);
      ghost var w := WriteRow(d1, old(store.View()), a, entry);
      assert effects == old(effects) + w.effects;
      next, status := Conclude(d, written, a, w);
    }

    /** What follows the statements: a panic, or the sources on disk and the outcome in the lists. */
    method Conclude(d: Descriptor, written: bool, a: Answers, ghost w: Written) returns (next: Stage, status: Status)
      requires store.View() == w.t && written == w.ok
      modifies this`effects, d
      ensures var out := ConcludeStep(old(d.View()), a, w);
        && d.View() == out.d && next == out.next && status == out.status
        && forall before: seq<Effect> :: old(effects) == before + w.effects ==> effects == before + out.effects
    {
      if a.panicsAfterWrite {
        if a.panicsOnDisk && d.info.hasSources {
          var failed := d.HasFailedState(Final);
          if written && !failed { effects := effects + [WroteSources]; }
        }
        return Unset, Panicked;
      }
      RecordOutcome(d, written, a);
      return Done, Fine;
    }

    method ReportError(d: Descriptor, a: Answers) returns (next: Stage, status: Status)
      ensures Did(d, ErrorStep(d.View(), store.View(), a), next, status)
    {
      if a.panics { return Unset, Panicked; }
      return Done, Fine;
    }

    /** The handler registered for a state. */
    method Call(s: Stage, d: Descriptor, a: Answers) returns (next: Stage, status: Status)
      requires HasHandler(s)
      modifies this`effects, d, store
      ensures Did(d, StepOf(s, old(d.View()), old(store.View()), a), next, status)
    {
      match s {
        case Discover => next, status := Discover(d, a);
        case Metadata => next, status := DecodeMetadata(d, a);
        case SourceProviders => next, status := FindSources(d, a);
        case Sources => next, status := ConfirmSources(d, a);
        case Parser => next, status := Parse(d, a);
        case Constructor => next, status := FindConstructor(d, a);
        case Final => next, status := Finalize(d, a);
        case ErrorStage => next, status := ReportError(d, a);
      }
    }
  }
}
