/**
 What each handler does to every field of any descriptor, and to the table and the outside world,
 said of its inputs alone.
 */
module Meanings {
  import opened Base
  import opened Stages
  import opened Contracts
  import opened Machine
  import opened Unpacker

  /** Nothing panics. */
  predicate Undisturbed(a: Answers) { !a.panics && a.panicsInCall.None? && !a.panicsAfterWrite }

  /** `after` lists what `before` lists, in the same order, and `s` besides if `added`. */
  ghost predicate Lists(before: seq<Stage>, after: seq<Stage>, s: Stage, added: bool) {
    before <= after && forall x :: x in after <==> x in before || (added && x == s)
  }

  /** `after` is `before` less every `s` if `removed`. */
  ghost predicate Drops(before: seq<Stage>, after: seq<Stage>, s: Stage, removed: bool) {
    && (forall x :: x in after <==> x in before && !(removed && x == s))
    && (!removed || s !in before ==> after == before)
  }

  /** Every handler but discovery and error leads back to discovery until it is completed, to come back at metadata. */
  lemma WithoutDiscovery(s: Stage, d: Desc, t: Table, a: Answers)
    requires HasHandler(s) && !s.Discover? && !s.ErrorStage? && Discover !in d.completed && !a.panics
    ensures StepOf(s, d, t, a) == Out(d.(nextState := Metadata), t, Discover, Fine, [])
  {
  }

  lemma ErrorChangesNothing(d: Desc, t: Table, a: Answers)
    requires !a.panics
    ensures StepOf(ErrorStage, d, t, a) == Out(d, t, Done, Fine, [])
  {
  }

  /** An incomplete descriptor is refused as it is; otherwise discovery records whether the contract is valid. */
  lemma DiscoveryRefuses(d: Desc, t: Table, a: Answers)
    requires !a.panics
    ensures var out := StepOf(Discover, d, t, a);
      && (d.header.None? || d.tx.None? || !d.hasReceipt ==> out.d == d)
      && (out.status.Failed? <==> d.header.None? || d.tx.None? || !d.hasReceipt || a.lookupFails)
      && (out.status.Failed? ==> out.t == t && out.effects == [])
      && (d.header.Some? && d.tx.Some? && d.hasReceipt && a.lookupFails ==> out.d == d.(selfDestructed := !a.isValid))
  {
  }

  /** The columns a contract is looked up and stored under. */
  lemma KeyIsItsColumns(d: Desc)
    requires d.header.Some?
    ensures KeyOf(d).address == d.address
    ensures 0 <= d.network < TWO_64 ==> KeyOf(d).network == d.network
    ensures 0 <= d.header.value.number < TWO_64 ==> KeyOf(d).block == d.header.value.number
  {
  }

  /** With a complete descriptor: already done, or on to the pending state, which is taken once, or to metadata. */
  lemma DiscoveryLeadsOn(d: Desc, t: Table, a: Answers)
    requires !a.panics && !a.lookupFails && d.header.Some? && d.tx.Some? && d.hasReceipt
    ensures var out := StepOf(Discover, d, t, a);
      var found := Lookup(t, KeyOf(d));
      var done := found.Some? && found.value.processed && !found.value.partial && !a.forceReprocess;
      && out.status.Fine? && out.t == t && out.effects == [LookedUp(KeyOf(d), found)]
      && Lists(d.completed, out.d.completed, Discover, !done)
      && out.next == (if done then Done else if d.nextState.Unset? then Metadata else d.nextState)
      && out.d == d.(selfDestructed := !a.isValid, model := found, completed := out.d.completed,
                     nextState := if done then d.nextState else Unset)
  {
  }

  /** Metadata is decoded for a live contract that has none yet, and fails only by that. */
  ghost predicate MetadataDid(d: Desc, a: Answers, out: Out) {
    var decodes := !d.selfDestructed && !a.hasMetadata;
    && out.effects == (if decodes then [DecodedMetadata] else [])
    && Lists(d.failed, out.d.failed, Metadata, decodes && a.metadataFails)
    && Lists(d.completed, out.d.completed, Metadata, Metadata !in out.d.failed)
    && out.d == d.(info := if decodes then a.info else d.info, failed := out.d.failed, completed := out.d.completed)
  }

  lemma MetadataMeans(d: Desc, t: Table, a: Answers)
    requires Undisturbed(a) && Discover in d.completed
    ensures var out := StepOf(Metadata, d, t, a);
      out.status.Fine? && out.next.SourceProviders? && out.t == t && MetadataDid(d, a, out)
  {
  }

  lemma CacheMeans(d: Desc, a: Answers)
    ensures var e := FromCache(d, a);
      var tries := !d.info.hasSources && d.model.Some? && d.model.value.info.hasSources
        && d.model.value.info.name != "";
      var hit := tries && a.cachedSourcesLoad;
      && CacheEffect(d) == (if tries then [LoadedSources] else [])
      && e == d.(info := if hit then d.info.(hasSources := a.cacheHolds, name := d.model.value.info.name,
                                             described := d.model.value.info.described) else d.info,
                 failed := e.failed)
      && Drops(d.failed, e.failed, SourceProviders, hit)
  {
  }

  lemma FetchMeans(d: Desc, t: Table, a: Answers, made: seq<Effect>)
    requires Undisturbed(a)
    ensures var out := FetchStep(d, t, a, made);
      var fetches := !d.info.hasSources;
      && out.status.Fine? && out.next.Sources? && out.t == t
      && out.effects == made + (if fetches then [FetchedSources] else [])
      && Drops(d.failed, out.d.failed, SourceProviders, fetches && !a.sourcesFail)
      && Lists(d.completed, out.d.completed, SourceProviders, SourceProviders !in out.d.failed)
      && out.d == d.(info := if fetches then a.info else d.info, failed := out.d.failed, completed := out.d.completed)
  {
  }

  /** The local copy is tried when a stored row promises sources under a name; the providers while there are none. */
  ghost predicate ProvidersDid(d: Desc, a: Answers, out: Out) {
    var tries := !d.info.hasSources && d.model.Some? && d.model.value.info.hasSources
      && d.model.value.info.name != "";
    var hit := tries && a.cachedSourcesLoad;
    var fetches := !d.info.hasSources && !(hit && a.cacheHolds);
    && out.effects == (if tries then [LoadedSources] else []) + (if fetches then [FetchedSources] else [])
    && out.d.info == (if fetches then a.info
                      else if hit then ContractInfo(true, d.model.value.info.name, d.model.value.info.described,
                                                    d.info.onChain)
                      else d.info)
    && Drops(d.failed, out.d.failed, SourceProviders, hit || (fetches && !a.sourcesFail))
    && Lists(d.completed, out.d.completed, SourceProviders, SourceProviders !in out.d.failed)
    && out.d == d.(info := out.d.info, failed := out.d.failed, completed := out.d.completed)
  }

  lemma ProvidersMean(d: Desc, t: Table, a: Answers)
    requires Undisturbed(a) && Discover in d.completed
    ensures var out := StepOf(SourceProviders, d, t, a);
      out.status.Fine? && out.next.Sources? && out.t == t && ProvidersDid(d, a, out)
  {
    CacheMeans(d, a);
    FetchMeans(FromCache(d, a), t, a, CacheEffect(d));
  }

  ghost predicate SourcesDid(d: Desc, a: Answers, out: Out) {
    && out.effects == []
    && Lists(d.completed, out.d.completed, Sources, Sources !in d.failed)
    && out.d == d.(completed := out.d.completed)
  }

  lemma SourcesMean(d: Desc, t: Table, a: Answers)
    requires Undisturbed(a) && Discover in d.completed
    ensures var out := StepOf(Sources, d, t, a);
      out.status.Fine? && out.next.Parser? && out.t == t && SourcesDid(d, a, out)
  {
  }

  /** Sources are parsed if there are any; a failure is recorded, and a success takes an earlier one back. */
  ghost predicate ParserDid(d: Desc, a: Answers, out: Out) {
    var parses := d.info.hasSources;
    && out.effects == (if parses then [Parsed] else [])
    && (if parses && a.parseFails then Lists(d.failed, out.d.failed, Parser, true)
        else Drops(d.failed, out.d.failed, Parser, parses))
    && Lists(d.completed, out.d.completed, Parser, Parser !in out.d.failed)
    && out.d == d.(info := if parses then a.info else d.info, failed := out.d.failed, completed := out.d.completed)
  }

  lemma ParserMeans(d: Desc, t: Table, a: Answers)
    requires Undisturbed(a) && Discover in d.completed
    ensures var out := StepOf(Parser, d, t, a);
      out.status.Fine? && out.next.Constructor? && out.t == t && ParserDid(d, a, out)
  {
  }

  /** The constructor is looked at if the contract has one; the stage lists nothing. */
  ghost predicate ConstructorDid(d: Desc, a: Answers, out: Out) {
    && out.effects == (if a.hasConstructor then [DiscoveredConstructor] else [])
    && out.d == d.(info := if a.hasConstructor then a.info else d.info)
  }

  lemma ConstructorMeans(d: Desc, t: Table, a: Answers)
    requires Undisturbed(a) && Discover in d.completed
    ensures var out := StepOf(Constructor, d, t, a);
      out.status.Fine? && out.next.Final? && out.t == t && ConstructorDid(d, a, out)
  {
  }

  /** The row the final stage writes, column by column. */
  ghost predicate IsEntry(row: Row, d: Desc, now: int) {
    && d.header.Some? && d.tx.Some?
    && row.key == KeyOf(d) && row.blockHash == d.header.value.hash && row.txHash == d.tx.value
    && row.info == d.info && row.selfDestructed == d.selfDestructed
    && row.completed == d.completed && row.failed == d.failed
    && row.processed && (row.partial <==> d.failed != [])
    && row.id == (if d.model.Some? then d.model.value.id else 0)
    && row.createdAt == (if d.model.Some? then d.model.value.createdAt else now)
    && row.updatedAt == (if d.model.Some? then now else ZERO_TIME)
  }

  /** What the statements of the final stage make of the table, and whether the last of them succeeded. */
  ghost predicate Wrote(t: Table, u: Table, entry: Row, known: bool, a: Answers, issued: seq<Effect>, ok: bool) {
    var first := if known then Update(t, entry, a.updateFails) else Insert(t, entry, a.saveFails);
    var collides := !known && first.1.UniqueViolation?;
    var last := if collides then Update(first.0, entry, a.fallbackFails) else first;
    && u == last.0 && ok == last.1.SqlOk?
    && issued == (if known then [UpdateIssued(entry)] else [SaveIssued(entry)])
               + (if collides then [UpdateIssued(entry)] else [])
  }

  lemma EntryMeans(d: Desc, now: int)
    requires d.header.Some? && d.tx.Some?
    ensures IsEntry(EntryOf(d.(processed := true), now), d, now)
  {
  }

  lemma StatementsMean(d: Desc, t: Table, a: Answers, entry: Row)
    ensures var w := WriteRow(d, t, a, entry); Wrote(t, w.t, entry, d.model.Some?, a, w.effects, w.ok)
  {
  }

  lemma OutcomeMeans(d: Desc, ok: bool, a: Answers)
    ensures var e := FinishFinal(d, ok, a);
      var writes := d.info.hasSources && ok && Final !in d.failed;
      && DiskEffect(d, ok) == (if writes then [WroteSources] else [])
      && Lists(d.failed, e.failed, Final, !ok || (writes && a.sourcesWriteFails))
      && Lists(d.completed, e.completed, Final, Final !in e.failed)
      && e == d.(failed := e.failed, completed := e.completed)
  {
  }

  /**
   The final stage writes the entry, then the sources to disk unless it failed already, and lists
   itself as failed exactly when it was so before, or the last statement or the disk failed.
   */
  ghost predicate FinalDid(
    d: Desc, t: Table, a: Answers, out: Out, entry: Row, issued: seq<Effect>, ok: bool)
  {
    var writes := d.info.hasSources && ok && Final !in d.failed;
    && out.status.Fine? && out.next.Done?
    && IsEntry(entry, d, a.now) && Wrote(t, out.t, entry, d.model.Some?, a, issued, ok)
    && out.effects == issued + (if writes then [WroteSources] else [])
    && Lists(d.failed, out.d.failed, Final, !ok || (writes && a.sourcesWriteFails))
    && Lists(d.completed, out.d.completed, Final, Final !in out.d.failed)
    && out.d == d.(processed := true, failed := out.d.failed, completed := out.d.completed)
  }

  lemma FinalMeans(d: Desc, t: Table, a: Answers) returns (entry: Row, issued: seq<Effect>, ok: bool)
    requires Undisturbed(a) && Discover in d.completed && d.header.Some? && d.tx.Some?
    ensures FinalDid(d, t, a, StepOf(Final, d, t, a), entry, issued, ok)
  {
    var d1 := d.(processed := true);
    entry := EntryOf(d1, a.now);
    var w := WriteRow(d1, t, a, entry);
    issued, ok := w.effects, w.ok;
    EntryMeans(d, a.now);
    StatementsMean(d1, t, a, entry);
    OutcomeMeans(d1, ok, a);
  }

  /** Whether the last statement of the final stage succeeded, said of the table and the answers. */
  lemma StatementsSucceedExactly(t: Table, u: Table, entry: Row, known: bool, a: Answers, issued: seq<Effect>, ok: bool)
    requires Valid(t) && Wrote(t, u, entry, known, a, issued, ok)
    requires if known then Lookup(t, entry.key).Some? && Lookup(t, entry.key).value.id == entry.id else entry.id == 0
    ensures ok <==>
      if known then !a.updateFails
      else !a.saveFails && if Lookup(t, entry.key).Some? then !a.fallbackFails else t.lastId < MAX_INT64
  {
    if known {
      UpdateKeeps(t, entry, a.updateFails, FindKey(t.rows, entry.key));
    } else {
      InsertKeeps(t, entry, a.saveFails);
      UpdateOfUnsavedIsIdle(t, entry, a.fallbackFails);
    }
  }

  /** The same answers without any panic. */
  function Calmed(a: Answers): Answers {
    a.(panics := false, panicsInCall := None, panicsAfterWrite := false, panicsOnDisk := false)
  }

  /** A panic cuts the outside calls of a handler short and changes none of them. */
  lemma PanicCutsShort(s: Stage, d: Desc, t: Table, a: Answers)
    requires HasHandler(s) && StepOf(s, d, t, a).status.Panicked?
    requires s.Final? ==> d.header.Some? && d.tx.Some?
    ensures StepOf(s, d, t, a).effects <= StepOf(s, d, t, Calmed(a)).effects
  {
    if s.SourceProviders? { PanicCutsProvidersShort(d, t, a); }
    if s.Final? { PanicCutsFinalShort(d, t, a); }
  }

  lemma PanicCutsProvidersShort(d: Desc, t: Table, a: Answers)
    requires ProvidersStep(d, t, a).status.Panicked?
    ensures ProvidersStep(d, t, a).effects <= ProvidersStep(d, t, Calmed(a)).effects
  {
  }

  lemma PanicCutsFinalShort(d: Desc, t: Table, a: Answers)
    requires FinalStep(d, t, a).status.Panicked? && d.header.Some? && d.tx.Some?
    ensures FinalStep(d, t, a).effects <= FinalStep(d, t, Calmed(a)).effects
  {
    if !a.panics && Discover in d.completed {
      var d1 := d.(processed := true);
      var entry := EntryOf(d1, a.now);
      StatementsAreAskedTheSame(d1, t, a, entry);
    }
  }

  lemma StatementsAreAskedTheSame(d: Desc, t: Table, a: Answers, entry: Row)
    ensures WriteRow(d, t, Calmed(a), entry) == WriteRow(d, t, a, entry)
  {
  }

  /** A handler that panics at once has done nothing; one that panics in a call to solgo has made that call. */
  lemma PanicsWhereTold(s: Stage, d: Desc, t: Table, a: Answers, k: nat)
    requires HasHandler(s)
    ensures a.panics ==> StepOf(s, d, t, a) == Out(d, t, Unset, Panicked, [])
    ensures var calls := StepOf(s, d, t, Calmed(a)).effects;
      !s.Discover? && !s.Final? && !a.panics && a.panicsInCall == Some(k) && k < |calls| ==>
        StepOf(s, d, t, a).status.Panicked? && StepOf(s, d, t, a).t == t && StepOf(s, d, t, a).effects == calls[..k + 1]
  {
    if s.SourceProviders? && !a.panics && Discover in d.completed
       && a.panicsInCall == Some(k) && k < |StepOf(s, d, t, Calmed(a)).effects| {
      ProvidersPanicWhereTold(d, t, a, k);
    }
  }

  lemma ProvidersPanicWhereTold(d: Desc, t: Table, a: Answers, k: nat)
    requires !a.panics && Discover in d.completed && a.panicsInCall == Some(k)
    requires k < |ProvidersStep(d, t, Calmed(a)).effects|
    ensures var out := ProvidersStep(d, t, a);
      out.status.Panicked? && out.t == t && out.effects == ProvidersStep(d, t, Calmed(a)).effects[..k + 1]
  {
    if !CachePanics(d, a) { FetchPanicsWhereTold(FromCache(d, a), t, a, CacheEffect(d), k); }
  }

  lemma FetchPanicsWhereTold(d: Desc, t: Table, a: Answers, made: seq<Effect>, k: nat)
    requires a.panicsInCall == Some(k) && |made| <= k < |FetchStep(d, t, Calmed(a), made).effects|
    ensures var out := FetchStep(d, t, a, made);
      out.status.Panicked? && out.t == t && out.effects == FetchStep(d, t, Calmed(a), made).effects[..k + 1]
  {
  }
}
