/**
 Runs on a fresh descriptor, as every caller in the repository starts them: which states they
 pass through, what their lists hold on the way, and what they leave in the table.
 */
module FreshRuns {
  import opened Base
  import opened Stages
  import opened Contracts
  import opened Machine
  import opened Unpacker
  import opened Pipeline

  const CHAIN: seq<Stage> :=
    [Discover, Metadata, SourceProviders, Sources, Parser, Constructor, Final, Done]

  /** A run started elsewhere is sent to discovery first. */
  function Lead(start: Stage): seq<Stage> { if start.Discover? then [] else [start] }

  /** Which of the stages that can fail did fail. */
  datatype Flags = Flags(metadata: bool, parser: bool, final: bool)

  /** The completed list on arrival at `CHAIN[p]`, given which stages failed. */
  function CompletedAt(p: int, f: Flags): seq<Stage> {
    if p <= 0 then []
    else if p == 1 then [Discover]
    else if p == 2 then if f.metadata then [Discover] else [Discover, Metadata]
    else if p == 3 then if f.metadata then [Discover, SourceProviders] else [Discover, Metadata, SourceProviders]
    else
      var head := if f.metadata then [Discover, SourceProviders, Sources]
        else [Discover, Metadata, SourceProviders, Sources];
      if p == 4 then head
      else
        var tail := if f.parser then head else head + [Parser];
        if p <= 6 || f.final then tail else tail + [Final]
  }

  function FailedAt(p: int, f: Flags): seq<Stage> {
    if p <= 1 then []
    else
      var head := if f.metadata then [Metadata] else [];
      if p <= 4 then head
      else
        var tail := if f.parser then head + [Parser] else head;
        if p <= 6 || !f.final then tail else tail + [Final]
  }

  /** A stage that has not come yet has not failed. */
  predicate FlagsFit(p: int, f: Flags) {
    (f.metadata ==> p >= 2) && (f.parser ==> p >= 5) && (f.final ==> p >= 7)
  }

  predicate ListsAre(d: Desc, p: int, f: Flags) {
    FlagsFit(p, f) && d.completed == CompletedAt(p, f) && d.failed == FailedAt(p, f)
  }

  function FlagsOf(d: Desc): Flags { Flags(Metadata in d.failed, Parser in d.failed, Final in d.failed) }

  /** The lists of the descriptor are exactly those of a run that has come to `CHAIN[p]`. */
  predicate ListsAt(d: Desc, p: int) { ListsAre(d, p, FlagsOf(d)) }

  lemma FlagsAreRecorded(d: Desc, p: int, f: Flags)
    requires ListsAre(d, p, f)
    ensures FlagsOf(d) == f && ListsAt(d, p)
  {
  }

  /** What has not been reached is in neither list. */
  lemma NotYetListed(p: int, f: Flags)
    requires 0 <= p <= 6 && FlagsFit(p, f)
    ensures 1 <= p ==> Discover in CompletedAt(p, f)
    ensures p <= 2 ==> SourceProviders !in CompletedAt(p, f)
    ensures p <= 3 ==> Sources !in CompletedAt(p, f)
    ensures p <= 4 ==> Parser !in CompletedAt(p, f) && Parser !in FailedAt(p, f)
    ensures Final !in CompletedAt(p, f) && Final !in FailedAt(p, f)
    ensures SourceProviders !in FailedAt(p, f) && Sources !in FailedAt(p, f)
  {
  }

  /** The fields that say which contract this is, and whether it was found in the table. */
  predicate SameSubject(d: Desc, e: Desc) {
    && d.network == e.network && d.address == e.address && d.header == e.header && d.tx == e.tx
    && d.hasReceipt == e.hasReceipt && d.nextState == e.nextState
  }

  predicate IsWrite(e: Effect) { e.SaveIssued? || e.UpdateIssued? }

  function EntryIn(e: Effect): Row
    requires IsWrite(e)
  {
    if e.SaveIssued? then e.saved else e.updated
  }

  // ----- one handler call on the way -----

  predicate IsMiddle(s: Stage) {
    s.Metadata? || s.SourceProviders? || s.Sources? || s.Parser? || s.Constructor?
  }

  /** The call left the table and the subject of the run alone. */
  ghost predicate KeepsSubject(d: Desc, t: Table, out: Out) {
    && out.t == t && SameSubject(out.d, d) && out.d.model == d.model && !out.status.Failed?
    && (forall i :: 0 <= i < |out.effects| ==> !IsWrite(out.effects[i]))
    && (out.status.Panicked? && SourceProviders !in d.failed ==>
          out.d.completed == d.completed && out.d.failed == d.failed)
  }

  lemma CacheKeepsSubject(d: Desc, a: Answers)
    ensures var e := FromCache(d, a);
      && SameSubject(e, d) && e.model == d.model && e.completed == d.completed
      && (SourceProviders !in d.failed ==> e.failed == d.failed)
  {
  }

  lemma FetchKeepsSubject(d: Desc, a: Answers)
    ensures var e := FromProviders(d, a);
      && SameSubject(e, d) && e.model == d.model && e.completed == d.completed
      && (SourceProviders !in d.failed ==> e.failed == d.failed)
  {
  }

  lemma FetchStepKeepsSubject(d: Desc, t: Table, a: Answers, made: seq<Effect>)
    requires forall i :: 0 <= i < |made| ==> !IsWrite(made[i])
    ensures KeepsSubject(d, t, FetchStep(d, t, a, made))
  {
    FetchKeepsSubject(d, a);
  }

  lemma ProvidersKeepSubject(d: Desc, t: Table, a: Answers)
    requires Discover in d.completed
    ensures KeepsSubject(d, t, ProvidersStep(d, t, a))
  {
    CacheKeepsSubject(d, a);
    FetchStepKeepsSubject(FromCache(d, a), t, a, CacheEffect(d));
  }

  lemma ParserKeepsSubject(d: Desc, t: Table, a: Answers)
    requires Discover in d.completed
    ensures KeepsSubject(d, t, ParserStep(d, t, a))
  {
  }

  lemma MiddleKeepsSubject(s: Stage, d: Desc, t: Table, a: Answers)
    requires IsMiddle(s) && Discover in d.completed
    ensures KeepsSubject(d, t, StepOf(s, d, t, a))
  {
    match s
    case SourceProviders => ProvidersKeepSubject(d, t, a);
    case Parser => ParserKeepsSubject(d, t, a);
    case _ =>
  }

  lemma MetadataLists(d: Desc, t: Table, a: Answers, f: Flags)
    requires ListsAre(d, 1, f) && !MetadataStep(d, t, a).status.Panicked?
    ensures var out := MetadataStep(d, t, a);
      out.status.Fine? && out.next.SourceProviders? && ListsAt(out.d, 2)
  {
    var out := MetadataStep(d, t, a);
    var g := Flags(!d.selfDestructed && !a.hasMetadata && a.metadataFails, false, false);
    FlagsAreRecorded(out.d, 2, g);
  }

  lemma FetchLists(d: Desc, t: Table, a: Answers, made: seq<Effect>, f: Flags)
    requires ListsAre(d, 2, f) && !FetchStep(d, t, a, made).status.Panicked?
    ensures var out := FetchStep(d, t, a, made);
      out.status.Fine? && out.next.Sources? && ListsAt(out.d, 3)
  {
    NotYetListed(2, f);
    FetchKeepsSubject(d, a);
    var out := FetchStep(d, t, a, made);
    assert out.d.failed == d.failed && out.d.completed == d.completed + [SourceProviders];
    FlagsAreRecorded(out.d, 3, f);
  }

  lemma ProvidersLists(d: Desc, t: Table, a: Answers, f: Flags)
    requires ListsAre(d, 2, f) && !ProvidersStep(d, t, a).status.Panicked?
    ensures var out := ProvidersStep(d, t, a);
      out.status.Fine? && out.next.Sources? && ListsAt(out.d, 3)
  {
    NotYetListed(2, f);
    CacheKeepsSubject(d, a);
    FetchLists(FromCache(d, a), t, a, CacheEffect(d), f);
  }

  lemma SourcesLists(d: Desc, t: Table, a: Answers, f: Flags)
    requires ListsAre(d, 3, f) && !SourcesStep(d, t, a).status.Panicked?
    ensures var out := SourcesStep(d, t, a);
      out.status.Fine? && out.next.Parser? && ListsAt(out.d, 4)
  {
    NotYetListed(3, f);
    FlagsAreRecorded(SourcesStep(d, t, a).d, 4, f);
  }

  lemma ParserLists(d: Desc, t: Table, a: Answers, f: Flags)
    requires ListsAre(d, 4, f) && !ParserStep(d, t, a).status.Panicked?
    ensures var out := ParserStep(d, t, a);
      out.status.Fine? && out.next.Constructor? && ListsAt(out.d, 5)
  {
    NotYetListed(4, f);
    var out := ParserStep(d, t, a);
    var parserFailed := d.info.hasSources && a.parseFails;
    assert out.d.failed == if parserFailed then d.failed + [Parser] else d.failed;
    assert out.d.completed == if parserFailed then d.completed else d.completed + [Parser];
    FlagsAreRecorded(out.d, 5, f.(parser := parserFailed));
  }

  lemma ConstructorLists(d: Desc, t: Table, a: Answers, f: Flags)
    requires ListsAre(d, 5, f) && !ConstructorStep(d, t, a).status.Panicked?
    ensures var out := ConstructorStep(d, t, a);
      out.status.Fine? && out.next.Final? && ListsAt(out.d, 6)
  {
    NotYetListed(5, f);
    FlagsAreRecorded(ConstructorStep(d, t, a).d, 6, f);
  }

  function PlaceOf(s: Stage): (p: int)
    requires IsMiddle(s)
    ensures 1 <= p <= 5 && CHAIN[p] == s
  {
    match s case Metadata => 1 case SourceProviders => 2 case Sources => 3 case Parser => 4 case Constructor => 5
  }

  /** A middle stage leads to the next one, with the lists of that place. */
  lemma MiddleMovesOn(s: Stage, d: Desc, t: Table, a: Answers)
    requires IsMiddle(s) && ListsAt(d, PlaceOf(s)) && !StepOf(s, d, t, a).status.Panicked?
    ensures var out := StepOf(s, d, t, a);
      out.status.Fine? && out.next == CHAIN[PlaceOf(s) + 1] && ListsAt(out.d, PlaceOf(s) + 1)
  {
    match s
    case Metadata => MetadataLists(d, t, a, FlagsOf(d));
    case SourceProviders => ProvidersLists(d, t, a, FlagsOf(d));
    case Sources => SourcesLists(d, t, a, FlagsOf(d));
    case Parser => ParserLists(d, t, a, FlagsOf(d));
    case Constructor => ConstructorLists(d, t, a, FlagsOf(d));
  }

  /** Discovery leaves the table and the identity of the contract alone and fails no stage. */
  ghost predicate LooksOnly(d: Desc, t: Table, out: Out) {
    && out.t == t && SameSubject(out.d.(nextState := d.nextState), d)
    && (forall i :: 0 <= i < |out.effects| ==> !IsWrite(out.effects[i]))
    && out.d.failed == d.failed && (out.status.Panicked? ==> out == Crashed(d, t, []))
    && (!out.status.Fine? ==> out.d.completed == d.completed)
  }

  lemma DiscoverLooksOnly(d: Desc, t: Table, a: Answers)
    ensures LooksOnly(d, t, DiscoverStep(d, t, a))
  {
  }

  /** Discovery on a fresh descriptor: already done, or on to metadata with the row it found. */
  ghost predicate Discovers(d: Desc, t: Table, a: Answers, out: Out) {
    out.status.Fine? ==>
      && d.header.Some? && d.tx.Some?
      && out.d.model == Lookup(t, KeyOf(d)) && out.effects == [LookedUp(KeyOf(d), out.d.model)]
      && if out.next.Done?
         then out.d.completed == [] && out.d.model.Some? && IsCompleted(out.d.model.value) && !a.forceReprocess
         else out.next.Metadata? && out.d.completed == [Discover] && out.d.nextState.Unset?
              && (a.forceReprocess || out.d.model.None? || !IsCompleted(out.d.model.value))
  }

  lemma DiscoverMovesOn(d: Desc, t: Table, a: Answers)
    requires d.completed == [] && (d.nextState.Unset? || d.nextState.Metadata?)
    ensures Discovers(d, t, a, DiscoverStep(d, t, a))
  {
  }

  lemma FinishLists(d: Desc, written: bool, a: Answers)
    requires ListsAt(d, 6)
    ensures ListsAt(FinishFinal(d, written, a), 7)
    ensures FlagsOf(FinishFinal(d, written, a)).metadata == FlagsOf(d).metadata
    ensures FlagsOf(FinishFinal(d, written, a)).parser == FlagsOf(d).parser
    ensures SameSubject(FinishFinal(d, written, a), d) && FinishFinal(d, written, a).model == d.model
  {
    var f := FlagsOf(d);
    NotYetListed(6, f);
    var e := FinishFinal(d, written, a);
    var bad := !written || (d.info.hasSources && a.sourcesWriteFails);
    assert e.failed == if bad then d.failed + [Final] else d.failed;
    assert e.completed == if bad then d.completed else d.completed + [Final];
    FlagsAreRecorded(e, 7, f.(final := bad));
  }

  /** The entry of a run that comes to the final stage is complete exactly when nothing failed on the way. */
  lemma EntryIsHonest(d: Desc, now: int)
    requires ListsAt(d, 6) && d.header.Some? && d.tx.Some? && d.processed
    ensures IsCompleted(EntryOf(d, now)) <==> !FlagsOf(d).metadata && !FlagsOf(d).parser
  {
  }

  /** Every write effect of a final stage carries the one entry it built. */
  ghost predicate StoresOneEntry(d: Desc, t: Table, a: Answers, out: Out)
    requires d.header.Some? && d.tx.Some?
  {
    var entry := EntryOf(d.(processed := true), a.now);
    && out.t == WriteRow(d, t, a, entry).t
    && out.effects != [] && IsWrite(out.effects[0])
    && (forall i :: 0 <= i < |out.effects| && IsWrite(out.effects[i]) ==> EntryIn(out.effects[i]) == entry)
    && (if a.panicsAfterWrite then out.status.Panicked? && out.d == d.(processed := true)
        else out.status.Fine? && out.next.Done?
             && out.d == FinishFinal(d.(processed := true), WriteRow(d, t, a, entry).ok, a))
  }

  lemma WriteRowIssuesTheEntry(d: Desc, t: Table, a: Answers, entry: Row)
    ensures var effects := WriteRow(d, t, a, entry).effects;
      && effects != []
      && (forall i :: 0 <= i < |effects| ==> IsWrite(effects[i]) && EntryIn(effects[i]) == entry)
  {
  }

  lemma FinalEffects(d: Desc, t: Table, a: Answers)
    requires Discover in d.completed && d.header.Some? && d.tx.Some? && !a.panics
    ensures StoresOneEntry(d, t, a, FinalStep(d, t, a))
  {
    var d1 := d.(processed := true);
    var entry := EntryOf(d1, a.now);
    WriteRowReadsTheModel(d, d1, t, a, entry);
    WriteRowIssuesTheEntry(d1, t, a, entry);
  }

  lemma WriteRowReadsTheModel(d: Desc, e: Desc, t: Table, a: Answers, entry: Row)
    requires d.model == e.model
    ensures WriteRow(d, t, a, entry) == WriteRow(e, t, a, entry)
  {
  }

  // ----- the whole run -----

  /** Nothing was written. */
  ghost predicate Untouched(w0: World, w: World) {
    w.t == w0.t && forall i :: 0 <= i < |w.log| ==> !IsWrite(w.log[i])
  }

  /** Write `i` of a run: made after the lookup it relies on, and honest about how the run went. */
  ghost predicate SoundWrite(w0: World, w: World, i: int)
    requires 0 <= i < |w.log| && IsWrite(w.log[i])
  {
    var entry := EntryIn(w.log[i]);
    && w0.d.header.Some? && w0.d.tx.Some? && w.calls > 0
    && entry.blockHash == w0.d.header.value.hash && entry.txHash == w0.d.tx.value
    && entry.info == w.d.info && entry.selfDestructed == w.d.selfDestructed
    && entry.completed == CompletedAt(6, FlagsOf(w.d)) && entry.failed == FailedAt(6, FlagsOf(w.d))
    && entry.key == KeyOf(w0.d) && w.d.model == Lookup(w0.t, entry.key)
    && LookedUp(entry.key, w.d.model) in w.log[..i]
    && entry.id == (if w.d.model.Some? then w.d.model.value.id else 0)
    && entry.createdAt == (if w.d.model.Some? then w.d.model.value.createdAt else w.env(w.calls - 1).now)
    && (IsCompleted(entry) <==> Metadata !in w.d.failed && Parser !in w.d.failed)
    && w.t == WriteRow(w.d, w0.t, w.env(w.calls - 1), entry).t
  }

  /** Something was written, and every write is sound. */
  ghost predicate Stored(w0: World, w: World) {
    && (exists i :: 0 <= i < |w.log| && IsWrite(w.log[i]))
    && (forall i :: 0 <= i < |w.log| && IsWrite(w.log[i]) ==> SoundWrite(w0, w, i))
    && (NeverForced(w.env) && w.d.model.Some? ==> !IsCompleted(w.d.model.value))
  }

  ghost predicate NeverForced(env: nat -> Answers) { forall k: nat :: !env(k).forceReprocess }

  /** What a run carries when it stands at `CHAIN[p]`. */
  ghost predicate Carried(start: Stage, w0: World, w: World, p: int) {
    && SameSubject(w.d.(nextState := w0.d.nextState), w0.d) && w.env == w0.env && Untouched(w0, w)
    && ListsAt(w.d, p)
    && w.d.nextState == (if p == 0 && !start.Discover? then Metadata else Unset)
    && (p >= 1 ==>
          && w.d.header.Some? && w.d.tx.Some?
          && w.d.model == Lookup(w0.t, KeyOf(w.d)) && LookedUp(KeyOf(w.d), w.d.model) in w.log
          && (NeverForced(w.env) && w.d.model.Some? ==> !IsCompleted(w.d.model.value)))
  }

  ghost predicate AtStart(start: Stage, w0: World, m: Run) {
    !start.Discover? && m.history == [start] && m.current == start && m.data == w0
  }

  /** The run stands at `CHAIN[p]`. */
  ghost predicate OnTrack(start: Stage, w0: World, m: Run, p: int) {
    && 0 <= p <= 6 && m.current == CHAIN[p] && m.history == Lead(start) + CHAIN[..p + 1]
    && Carried(start, w0, m.data, p)
  }

  /** The three ways a run can come to its end. */
  ghost predicate Complete(start: Stage, w0: World, m: Run) {
    || (m.history == Lead(start) + [Discover, ErrorStage] && ListsAt(m.data.d, 0) && Untouched(w0, m.data))
    || (m.history == Lead(start) + [Discover, Done] && ListsAt(m.data.d, 0) && Untouched(w0, m.data))
    || (m.history == Lead(start) + CHAIN && ListsAt(m.data.d, 7) && Stored(w0, m.data))
  }

  /** Where a run cut short by its context or a panic had come to. */
  ghost predicate Cut(start: Stage, w0: World, m: Run, p: int) {
    || (p == -1 && m.history == [start] && ListsAt(m.data.d, 0) && Untouched(w0, m.data))
    || (&& 0 <= p <= 6 && m.history == Lead(start) + CHAIN[..p + 1] && ListsAt(m.data.d, p)
        && (Untouched(w0, m.data) || (p == 6 && m.pc.Returned? && m.pc.result.Panic? && Stored(w0, m.data))))
  }

  /** How far along the chain the history shows the run to be. */
  function Place(start: Stage, m: Run): int { |m.history| - |Lead(start)| - 1 }

  ghost predicate OnItsWay(start: Stage, w0: World, m: Run) {
    match m.pc
    case AtCheck => AtStart(start, w0, m) || OnTrack(start, w0, m, Place(start, m))
    case Returned(Nil) => Complete(start, w0, m)
    case Returned(Error(e)) => e.ErrCancelled? && Cut(start, w0, m, Place(start, m))
    case Returned(Panic) => Cut(start, w0, m, Place(start, m))
    case _ => false
  }

  ghost predicate FreshStart(start: Stage, w0: World) {
    HasHandler(start) && !start.ErrorStage? && IsFresh(w0.d) && w0.log == []
  }

  lemma StartTurn(start: Stage, w0: World, m: Run, cancelled: bool)
    requires FreshStart(start, w0) && m.pc.AtCheck? && AtStart(start, w0, m)
    ensures OnItsWay(start, w0, Advance(m, cancelled))
  {
    var a := w0.env(w0.calls);
    var n := Advance(m, cancelled);
    if !cancelled && !a.panics {
      assert Outcome(start, w0) == Redirected(w0.d, w0.t);
      assert n.history == Lead(start) + CHAIN[..1];
    }
  }

  /** A call that wrote nothing leaves the run untouched. */
  lemma StaysUntouched(w0: World, w: World, out: Out)
    requires Untouched(w0, w) && out.t == w.t
    requires forall i :: 0 <= i < |out.effects| ==> !IsWrite(out.effects[i])
    ensures Untouched(w0, After(w, out))
  {
  }

  lemma CancelLands(start: Stage, w0: World, m: Run, p: int)
    requires OnTrack(start, w0, m, p)
    ensures OnItsWay(start, w0, m.(pc := Returned(Error(ErrCancelled))))
  {
  }

  lemma PanicLands(start: Stage, w0: World, m: Run, p: int, out: Out)
    requires OnTrack(start, w0, m, p) && out.t == m.data.t
    requires out.d.completed == m.data.d.completed && out.d.failed == m.data.d.failed
    requires forall i :: 0 <= i < |out.effects| ==> !IsWrite(out.effects[i])
    ensures OnItsWay(start, w0, m.(data := After(m.data, out), pc := Returned(Panic)))
  {
    StaysUntouched(w0, m.data, out);
  }

  /** Discovery done: the run stands at metadata. */
  lemma DiscoveryLands(start: Stage, w0: World, m: Run, out: Out)
    requires OnTrack(start, w0, m, 0) && out.status.Fine? && out.next.Metadata?
    requires LooksOnly(m.data.d, m.data.t, out)
    requires Discovers(m.data.d, m.data.t, m.data.env(m.data.calls), out)
    ensures var n := Appended(m, After(m.data, out), out.next, false);
      n.pc.AtCheck? && OnItsWay(start, w0, n)
  {
    var n := Appended(m, After(m.data, out), out.next, false);
    StaysUntouched(w0, m.data, out);
    FlagsAreRecorded(out.d, 1, Flags(false, false, false));
    assert n.data.log[|m.data.log|] == out.effects[0];
    assert CHAIN[..1] == [Discover] && CHAIN[..2] == [Discover, Metadata];
    assert n.history == Lead(start) + CHAIN[..2];
    assert OnTrack(start, w0, n, 1);
  }

  /** Discovery refused, or nothing left to do: the run is over. */
  lemma DiscoveryEnds(start: Stage, w0: World, m: Run, out: Out)
    requires OnTrack(start, w0, m, 0) && (out.status.Failed? || (out.status.Fine? && out.next.Done?))
    requires LooksOnly(m.data.d, m.data.t, out)
    requires Discovers(m.data.d, m.data.t, m.data.env(m.data.calls), out)
    ensures OnItsWay(start, w0, Appended(m, After(m.data, out), if out.status.Failed? then ErrorStage else Done, true))
  {
    StaysUntouched(w0, m.data, out);
    FlagsAreRecorded(out.d, 0, Flags(false, false, false));
    assert CHAIN[..1] == [Discover];
  }

  lemma DiscoverTurn(start: Stage, w0: World, m: Run, cancelled: bool)
    requires FreshStart(start, w0) && m.pc.AtCheck? && OnTrack(start, w0, m, 0)
    ensures OnItsWay(start, w0, Advance(m, cancelled))
  {
    if cancelled {
      CancelLands(start, w0, m, 0);
    } else {
      var out := Outcome(Discover, m.data);
      DiscoverLooksOnly(m.data.d, m.data.t, m.data.env(m.data.calls));
      DiscoverMovesOn(m.data.d, m.data.t, m.data.env(m.data.calls));
      if out.status.Panicked? {
        PanicLands(start, w0, m, 0, out);
      } else if out.status.Fine? && out.next.Metadata? {
        DiscoveryLands(start, w0, m, out);
      } else {
        DiscoveryEnds(start, w0, m, out);
      }
    }
  }

  lemma CarriesOn(start: Stage, w0: World, w: World, p: int, out: Out)
    requires 1 <= p <= 5 && Carried(start, w0, w, p) && KeepsSubject(w.d, w.t, out) && ListsAt(out.d, p + 1)
    ensures Carried(start, w0, After(w, out), p + 1)
  {
    StaysUntouched(w0, w, out);
    assert w.log <= After(w, out).log;
  }

  lemma HistoryGrows(start: Stage, h: seq<Stage>, p: int)
    requires 0 <= p <= 6 && h == Lead(start) + CHAIN[..p + 1]
    ensures h + [CHAIN[p + 1]] == Lead(start) + CHAIN[..p + 2]
  {
  }

  /** A middle call that kept the subject and moved on. */
  lemma MiddleLands(start: Stage, w0: World, m: Run, p: int, out: Out)
    requires 1 <= p <= 5 && OnTrack(start, w0, m, p) && KeepsSubject(m.data.d, m.data.t, out)
    requires out.next == CHAIN[p + 1] && ListsAt(out.d, p + 1)
    ensures OnItsWay(start, w0, Appended(m, After(m.data, out), out.next, false))
  {
    var n := Appended(m, After(m.data, out), out.next, false);
    CarriesOn(start, w0, m.data, p, out);
    HistoryGrows(start, m.history, p);
    MiddlePlaces(p);
    assert OnTrack(start, w0, n, p + 1);
  }

  lemma MiddlePlaces(p: int)
    requires 1 <= p <= 5
    ensures IsMiddle(CHAIN[p]) && PlaceOf(CHAIN[p]) == p && HasHandler(CHAIN[p]) && HasHandler(CHAIN[p + 1])
  {
  }

  lemma MiddleOut(p: int, d: Desc, t: Table, a: Answers)
    requires 1 <= p <= 5 && ListsAt(d, p)
    ensures HasHandler(CHAIN[p])
    ensures var out := StepOf(CHAIN[p], d, t, a);
      && KeepsSubject(d, t, out) && !out.status.Failed?
      && if out.status.Panicked? then out.d.completed == d.completed && out.d.failed == d.failed
         else out.status.Fine? && out.next == CHAIN[p + 1] && ListsAt(out.d, p + 1)
  {
    MiddlePlaces(p);
    NotYetListed(p, FlagsOf(d));
    MiddleKeepsSubject(CHAIN[p], d, t, a);
    if !StepOf(CHAIN[p], d, t, a).status.Panicked? { MiddleMovesOn(CHAIN[p], d, t, a); }
  }

  lemma MiddleTurn(start: Stage, w0: World, m: Run, cancelled: bool, p: int)
    requires m.pc.AtCheck? && 1 <= p <= 5 && OnTrack(start, w0, m, p)
    ensures OnItsWay(start, w0, Advance(m, cancelled))
  {
    MiddlePlaces(p);
    if cancelled {
      CancelLands(start, w0, m, p);
    } else {
      MiddleOut(p, m.data.d, m.data.t, m.data.env(m.data.calls));
      var out := Outcome(m.current, m.data);
      if out.status.Fine? { MiddleLands(start, w0, m, p, out); } else { PanicLands(start, w0, m, p, out); }
    }
  }

  /** Every write of the final stage is sound. */
  lemma FinalWriteIsSound(start: Stage, w0: World, w: World, out: Out, i: int)
    requires Carried(start, w0, w, 6) && StoresOneEntry(w.d, w.t, w.env(w.calls), out)
    requires FlagsOf(out.d).metadata == FlagsOf(w.d).metadata && FlagsOf(out.d).parser == FlagsOf(w.d).parser
    requires out.d.model == w.d.model
    requires 0 <= i < |After(w, out).log| && IsWrite(After(w, out).log[i])
    ensures SoundWrite(w0, After(w, out), i)
  {
    var u, a := After(w, out), w.env(w.calls);
    var entry := EntryOf(w.d.(processed := true), a.now);
    EntryIsHonest(w.d.(processed := true), a.now);
    WriteRowReadsTheModel(w.d, u.d, w.t, a, entry);
    assert |w.log| <= i && u.log[i] == out.effects[i - |w.log|];
    assert w.log <= u.log[..i];
  }

  lemma FinalStores(start: Stage, w0: World, w: World, out: Out)
    requires Carried(start, w0, w, 6) && StoresOneEntry(w.d, w.t, w.env(w.calls), out)
    ensures Stored(w0, After(w, out))
    ensures if out.status.Fine? then ListsAt(out.d, 7) else out.status.Panicked? && ListsAt(out.d, 6)
  {
    var a, d1 := w.env(w.calls), w.d.(processed := true);
    FinishLists(d1, WriteRow(w.d, w.t, a, EntryOf(d1, a.now)).ok, a);
    var u := After(w, out);
    assert u.log[|w.log|] == out.effects[0];
    forall i | 0 <= i < |u.log| && IsWrite(u.log[i])
      ensures SoundWrite(w0, u, i)
    {
      FinalWriteIsSound(start, w0, w, out, i);
    }
  }

  lemma LastEntry(start: Stage, h: seq<Stage>)
    requires h == Lead(start) + CHAIN[..7]
    ensures h + [Done] == Lead(start) + CHAIN
  {
    assert CHAIN[..7] + [Done] == CHAIN;
  }

  lemma FinalLands(start: Stage, w0: World, m: Run, out: Out)
    requires OnTrack(start, w0, m, 6) && StoresOneEntry(m.data.d, m.data.t, m.data.env(m.data.calls), out)
    ensures var w := After(m.data, out);
      if out.status.Fine? then OnItsWay(start, w0, Appended(m, w, Done, true))
      else OnItsWay(start, w0, m.(data := w, pc := Returned(Panic)))
  {
    FinalStores(start, w0, m.data, out);
    LastEntry(start, m.history);
  }

  lemma FinalTurn(start: Stage, w0: World, m: Run, cancelled: bool)
    requires m.pc.AtCheck? && OnTrack(start, w0, m, 6)
    ensures OnItsWay(start, w0, Advance(m, cancelled))
  {
    if cancelled {
      CancelLands(start, w0, m, 6);
    } else if m.data.env(m.data.calls).panics {
      PanicLands(start, w0, m, 6, Outcome(Final, m.data));
    } else {
      NotYetListed(6, FlagsOf(m.data.d));
      FinalEffects(m.data.d, m.data.t, m.data.env(m.data.calls));
      FinalLands(start, w0, m, Outcome(Final, m.data));
    }
  }

  /**
   In every state of a run on a fresh descriptor the history and the two lists are exactly those
   of its place on the chain, and the table is untouched or holds one sound write.
   */
  lemma {:induction false} FreshRunStaysOnItsWay(tr: seq<Run>, start: Stage, w0: World, cancel: nat -> bool, k: nat)
    requires FreshStart(start, w0) && IsRun(tr, start, w0, cancel) && k < |tr|
    ensures OnItsWay(start, w0, tr[k])
  {
    if k == 0 {
      FlagsAreRecorded(w0.d, 0, Flags(false, false, false));
      if start.Discover? { assert OnTrack(start, w0, tr[0], 0); }
    } else {
      FreshRunStaysOnItsWay(tr, start, w0, cancel, k - 1);
      assert FollowsAt(tr, k - 1, cancel);
      var m, p := tr[k - 1], Place(start, tr[k - 1]);
      if m.pc.AtCheck? {
        if AtStart(start, w0, m) { StartTurn(start, w0, m, cancel(k - 1)); }
        else if p == 0 { DiscoverTurn(start, w0, m, cancel(k - 1)); }
        else if p == 6 { FinalTurn(start, w0, m, cancel(k - 1)); }
        else { MiddleTurn(start, w0, m, cancel(k - 1), p); }
      }
    }
  }

  lemma FreshRunAt(start: Stage, w0: World, cancel: nat -> bool, n: nat)
    requires FreshStart(start, w0)
    ensures OnItsWay(start, w0, RunFor(start, w0, cancel, n))
  {
    var tr := LayOut(start, w0, cancel, n);
    FreshRunStaysOnItsWay(tr, start, w0, cancel, n);
  }

  /** The three complete histories. */
  ghost predicate IsCompleteHistory(start: Stage, h: seq<Stage>) {
    || h == Lead(start) + [Discover, ErrorStage]
    || h == Lead(start) + [Discover, Done]
    || h == Lead(start) + CHAIN
  }

  /**
   A run that returned nil has one of the three complete histories; a run in progress, cancelled
   or brought down by a panic shows a prefix of the long one.
   */
  lemma FreshRunHistory(start: Stage, w0: World, cancel: nat -> bool, n: nat)
    requires FreshStart(start, w0)
    ensures var m := RunFor(start, w0, cancel, n);
      if m.pc == Returned(Nil) then IsCompleteHistory(start, m.history)
      else m.history != [] && m.history <= Lead(start) + CHAIN
  {
    FreshRunAt(start, w0, cancel, n);
    var m := RunFor(start, w0, cancel, n);
    if m.pc != Returned(Nil) {
      var p := Place(start, m);
      if m.history != [start] { assert m.history == (Lead(start) + CHAIN)[..|m.history|]; }
    }
  }

  ghost predicate NeverCrashes(env: nat -> Answers) {
    forall k: nat :: !env(k).panics && env(k).panicsInCall.None? && !env(k).panicsAfterWrite
  }

  lemma CalmCall(s: Stage, d: Desc, t: Table, a: Answers)
    requires HasHandler(s) && !a.panics && a.panicsInCall.None? && !a.panicsAfterWrite
    requires s.Final? && Discover in d.completed ==> d.header.Some? && d.tx.Some?
    ensures !StepOf(s, d, t, a).status.Panicked?
  {
  }

  lemma StandsAtAHandler(start: Stage, w0: World, m: Run)
    requires FreshStart(start, w0) && m.pc.AtCheck? && OnItsWay(start, w0, m)
    ensures HasHandler(m.current)
    ensures m.current.Final? && Discover in m.data.d.completed ==> m.data.d.header.Some? && m.data.d.tx.Some?
  {
  }

  lemma CalmTurn(m: Run)
    requires m.pc.AtCheck? && HasHandler(m.current)
    requires m.current.Final? && Discover in m.data.d.completed ==> m.data.d.header.Some? && m.data.d.tx.Some?
    requires var a := m.data.env(m.data.calls); !a.panics && a.panicsInCall.None? && !a.panicsAfterWrite
    ensures Advance(m, false).pc.AtCheck? || Advance(m, false).pc == Returned(Nil)
  {
    CalmCall(m.current, m.data.d, m.data.t, m.data.env(m.data.calls));
  }

  lemma EnvIsKept(m: Run, cancelled: bool)
    ensures Advance(m, cancelled).data.env == m.data.env
  {
  }

  lemma {:induction false} CalmRun(tr: seq<Run>, start: Stage, w0: World, cancel: nat -> bool, k: nat)
    requires FreshStart(start, w0) && IsRun(tr, start, w0, cancel) && k < |tr|
    requires NeverCrashes(w0.env) && forall j: nat :: !cancel(j)
    ensures tr[k].data.env == w0.env && (tr[k].pc.AtCheck? || tr[k].pc == Returned(Nil))
  {
    if k > 0 {
      CalmRun(tr, start, w0, cancel, k - 1);
      FreshRunStaysOnItsWay(tr, start, w0, cancel, k - 1);
      assert FollowsAt(tr, k - 1, cancel);
      EnvIsKept(tr[k - 1], false);
      if tr[k - 1].pc.AtCheck? {
        StandsAtAHandler(start, w0, tr[k - 1]);
        CalmTurn(tr[k - 1]);
      }
    }
  }

  /** Left alone, a run returns nil with a complete history. */
  lemma FreshRunCompletes(start: Stage, w0: World, cancel: nat -> bool)
    requires FreshStart(start, w0) && NeverCrashes(w0.env) && forall j: nat :: !cancel(j)
    ensures RunFor(start, w0, cancel, 9).pc == Returned(Nil)
    ensures IsCompleteHistory(start, RunFor(start, w0, cancel, 9).history)
  {
    var tr := LayOut(start, w0, cancel, 9);
    CalmRun(tr, start, w0, cancel, 9);
    EveryRunTerminates(start, w0, cancel, 9);
    FreshRunHistory(start, w0, cancel, 9);
  }

  // ----- which of the three it is -----

  /** What the discovery of a run on `d` is going to be told. */
  function DiscoveryAnswers(start: Stage, w0: World): Answers {
    w0.env(if start.Discover? then w0.calls else w0.calls + 1)
  }

  /** Discovery refuses the contract. */
  predicate Rejects(d: Desc, a: Answers) { d.header.None? || d.tx.None? || !d.hasReceipt || a.lookupFails }

  /** Discovery finds the work done already. */
  predicate FindsItDone(d: Desc, t: Table, a: Answers) {
    !Rejects(d, a) && !a.forceReprocess && Lookup(t, KeyOf(d)).Some? && IsCompleted(Lookup(t, KeyOf(d)).value)
  }

  function DiscoveryChoice(d: Desc, t: Table, a: Answers): Stage {
    if Rejects(d, a) then ErrorStage else if FindsItDone(d, t, a) then Done else Metadata
  }

  lemma DiscoveryDecides(m: Run)
    requires m.pc.AtCheck? && m.current.Discover? && m.data.d.completed == []
    requires m.data.d.nextState.Unset? || m.data.d.nextState.Metadata?
    requires !m.data.env(m.data.calls).panics
    ensures Advance(m, false).history
         == m.history + [DiscoveryChoice(m.data.d, m.data.t, m.data.env(m.data.calls))]
  {
  }

  /** A run started anywhere else is sent to discovery with its subject as it was. */
  lemma SentToDiscovery(start: Stage, w0: World)
    requires FreshStart(start, w0) && !start.Discover? && !w0.env(w0.calls).panics
    ensures var m := Advance(Begin(start, w0), false);
      && m.pc.AtCheck? && m.current.Discover? && m.history == [start, Discover]
      && m.data == After(w0, Redirected(w0.d, w0.t))
  {
    assert StepOf(start, w0.d, w0.t, w0.env(w0.calls)) == Redirected(w0.d, w0.t);
  }

  lemma OpeningOfARun(tr: seq<Run>, start: Stage, w0: World, cancel: nat -> bool)
    requires FreshStart(start, w0) && NeverCrashes(w0.env) && forall j: nat :: !cancel(j)
    requires IsRun(tr, start, w0, cancel) && |tr| > 2
    ensures tr[|Lead(start)| + 1].history
         == Lead(start) + [Discover, DiscoveryChoice(w0.d, w0.t, DiscoveryAnswers(start, w0))]
  {
    assert FollowsAt(tr, 0, cancel);
    if start.Discover? {
      DiscoveryDecides(tr[0]);
    } else {
      SentToDiscovery(start, w0);
      assert FollowsAt(tr, 1, cancel);
      DiscoveryDecides(tr[1]);
    }
  }

  lemma TurnOnlyAppends(m: Run, cancelled: bool)
    ensures m.history <= Advance(m, cancelled).history
  {
  }

  lemma {:induction false} HistoryOnlyGrows(
    tr: seq<Run>, start: Stage, w: World, cancel: nat -> bool, n: nat, k: nat)
    requires IsRun(tr, start, w, cancel) && n <= k < |tr|
    ensures tr[n].history <= tr[k].history
    decreases k
  {
    if n < k {
      HistoryOnlyGrows(tr, start, w, cancel, n, k - 1);
      assert FollowsAt(tr, k - 1, cancel);
      TurnOnlyAppends(tr[k - 1], cancel(k - 1));
    }
  }

  /** The history a run left alone ends with, told before it starts. */
  function Foretold(start: Stage, d: Desc, t: Table, a: Answers): seq<Stage> {
    if Rejects(d, a) then Lead(start) + [Discover, ErrorStage]
    else if FindsItDone(d, t, a) then Lead(start) + [Discover, Done]
    else Lead(start) + CHAIN
  }

  lemma OpeningDecides(start: Stage, h: seq<Stage>, verdict: Stage)
    requires IsCompleteHistory(start, h) && Lead(start) + [Discover, verdict] <= h
    ensures verdict.ErrorStage? ==> h == Lead(start) + [Discover, ErrorStage]
    ensures verdict.Done? ==> h == Lead(start) + [Discover, Done]
    ensures verdict.Metadata? ==> h == Lead(start) + CHAIN
  {
    assert h[|Lead(start)| + 1] == (Lead(start) + [Discover, verdict])[|Lead(start)| + 1] == verdict;
  }

  lemma EndsAreDistinct(start: Stage)
    ensures Lead(start) + [Discover, ErrorStage] != Lead(start) + CHAIN
    ensures Lead(start) + [Discover, Done] != Lead(start) + CHAIN
  {
    assert |Lead(start) + CHAIN| == |Lead(start)| + 8;
  }

  lemma OnlyTheChainWrites(start: Stage, w0: World, m: Run)
    requires OnItsWay(start, w0, m) && m.pc == Returned(Nil)
    ensures if m.history == Lead(start) + CHAIN then Stored(w0, m.data) else Untouched(w0, m.data)
  {
    EndsAreDistinct(start);
  }

  lemma HistoryIsForetold(start: Stage, w0: World, cancel: nat -> bool)
    requires FreshStart(start, w0) && NeverCrashes(w0.env) && forall j: nat :: !cancel(j)
    ensures RunFor(start, w0, cancel, 9).history == Foretold(start, w0.d, w0.t, DiscoveryAnswers(start, w0))
  {
    FreshRunCompletes(start, w0, cancel);
    var tr := LayOut(start, w0, cancel, 9);
    OpeningOfARun(tr, start, w0, cancel);
    HistoryOnlyGrows(tr, start, w0, cancel, |Lead(start)| + 1, 9);
    OpeningDecides(start, tr[9].history,
                   DiscoveryChoice(w0.d, w0.t, DiscoveryAnswers(start, w0)));
  }

  /**
   Left alone, a run takes the short way to error exactly when its descriptor is incomplete or the
   lookup fails, the short way to done exactly when a completed row is found and no reprocessing
   is forced, and the whole chain otherwise; and it writes exactly on the chain.
   */
  lemma FreshRunIsForetold(start: Stage, w0: World, cancel: nat -> bool)
    requires FreshStart(start, w0) && NeverCrashes(w0.env) && forall j: nat :: !cancel(j)
    ensures var m := RunFor(start, w0, cancel, 9);
      var a := DiscoveryAnswers(start, w0);
      && m.history == Foretold(start, w0.d, w0.t, a)
      && if Rejects(w0.d, a) || FindsItDone(w0.d, w0.t, a) then Untouched(w0, m.data) else Stored(w0, m.data)
  {
    FreshRunCompletes(start, w0, cancel);
    HistoryIsForetold(start, w0, cancel);
    FreshRunAt(start, w0, cancel, 9);
    OnlyTheChainWrites(start, w0, RunFor(start, w0, cancel, 9));
    EndsAreDistinct(start);
  }

  lemma EarlyListsAreTidy(p: int, f: Flags)
    requires p <= 4 && FlagsFit(p, f)
    ensures Tidy(CompletedAt(p, f), FailedAt(p, f))
  {
  }

  ghost predicate Tidy(completed: seq<Stage>, failed: seq<Stage>) {
    && Distinct(completed) && Distinct(failed) && Apart(completed, failed)
    && Constructor !in completed && Constructor !in failed
  }

  lemma TidyGrows(completed: seq<Stage>, failed: seq<Stage>, s: Stage)
    requires Tidy(completed, failed) && s !in completed && s !in failed && !s.Constructor?
    ensures Tidy(completed + [s], failed) && Tidy(completed, failed + [s])
  {
  }

  lemma LateListsAreTidy(p: int, f: Flags)
    requires 5 <= p <= 7 && FlagsFit(p, f)
    ensures Tidy(CompletedAt(p, f), FailedAt(p, f))
  {
    var early := Flags(f.metadata, false, false);
    var late := Flags(f.metadata, f.parser, false);
    EarlyListsAreTidy(4, early);
    NotYetListed(4, early);
    TidyGrows(CompletedAt(4, early), FailedAt(4, early), Parser);
    NotYetListed(6, late);
    TidyGrows(CompletedAt(6, late), FailedAt(6, late), Final);
  }

  lemma ListsAreTidy(d: Desc, p: int)
    requires ListsAt(d, p) && p <= 7
    ensures Tidy(d.completed, d.failed)
  {
    if p <= 4 { EarlyListsAreTidy(p, FlagsOf(d)); } else { LateListsAreTidy(p, FlagsOf(d)); }
  }

  lemma FinishedLists(d: Desc)
    requires ListsAt(d, 7)
    ensures Discover in d.completed && SourceProviders in d.completed && Sources in d.completed
    ensures Metadata in d.completed <==> Metadata !in d.failed
    ensures Parser in d.completed <==> Parser !in d.failed
    ensures Final in d.completed <==> Final !in d.failed
  {
  }

  /**
   In every state the completed and failed lists are duplicate-free and disjoint and never name
   the constructor stage. Once the final stage is behind the run, discovery, providers and
   sources are completed and each of metadata, parser and final is in exactly one list.
   */
  lemma FreshRunLists(start: Stage, w0: World, cancel: nat -> bool, n: nat)
    requires FreshStart(start, w0)
    ensures var d := RunFor(start, w0, cancel, n).data.d; Tidy(d.completed, d.failed)
    ensures var m := RunFor(start, w0, cancel, n); var d := m.data.d;
      m.history == Lead(start) + CHAIN ==>
      && Discover in d.completed && SourceProviders in d.completed && Sources in d.completed
      && (Metadata in d.completed <==> Metadata !in d.failed)
      && (Parser in d.completed <==> Parser !in d.failed)
      && (Final in d.completed <==> Final !in d.failed)
  {
    FreshRunAt(start, w0, cancel, n);
    var m := RunFor(start, w0, cancel, n);
    FlagsAreRecorded(w0.d, 0, Flags(false, false, false));
    var p := if m.pc.Returned? && m.history == Lead(start) + CHAIN then 7
             else if m.pc == Returned(Nil) || Place(start, m) < 0 then 0 else Place(start, m);
    ListsAreTidy(m.data.d, p);
    if p == 7 { FinishedLists(m.data.d); }
  }

  /** A run writes nothing, or it looked its contract up first and every write it issued is sound. */
  lemma FreshRunWrites(start: Stage, w0: World, cancel: nat -> bool, n: nat)
    requires FreshStart(start, w0)
    ensures var w := RunFor(start, w0, cancel, n).data; Untouched(w0, w) || Stored(w0, w)
  {
    FreshRunAt(start, w0, cancel, n);
  }
}
