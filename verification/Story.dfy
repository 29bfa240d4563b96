/**
 What an undisturbed run on a fresh descriptor does, told in a straight line from what it will be
 answered: no states, no redirects, no lists. The machine with its handlers does exactly this.
 */
module Story {
  import opened Base
  import opened Stages
  import opened Contracts
  import opened Machine
  import opened Unpacker
  import opened Meanings
  import opened Pipeline
  import opened FreshRuns

  /** `h(p)` is what the handler of `CHAIN[p]` will be answered. */
  type Hearing = nat -> Answers

  function Heard(start: Stage, w0: World): Hearing { (p: nat) => w0.env(w0.calls + |Lead(start)| + p) }

  predicate Decodes(h: Hearing) { h(0).isValid && !h(1).hasMetadata }

  predicate Tries(info: ContractInfo, found: Option<Row>) {
    !info.hasSources && found.Some? && found.value.info.hasSources && found.value.info.name != ""
  }

  predicate Hits(info: ContractInfo, found: Option<Row>, a: Answers) { Tries(info, found) && a.cachedSourcesLoad }

  predicate Fetches(info: ContractInfo, found: Option<Row>, a: Answers) {
    !info.hasSources && !(Hits(info, found, a) && a.cacheHolds)
  }

  /** What is known of the contract on arrival at `CHAIN[p]`. */
  function InfoAt(p: nat, d: Desc, found: Option<Row>, h: Hearing): ContractInfo {
    if p <= 1 then d.info
    else
      var info := InfoAt(p - 1, d, found, h);
      match p
      case 2 => if Decodes(h) then h(1).info else info
      case 3 =>
        if Fetches(info, found, h(2)) then h(2).info
        else if Hits(info, found, h(2)) then
          ContractInfo(true, found.value.info.name, found.value.info.described, info.onChain)
        else info
      case 5 => if info.hasSources then h(4).info else info
      case 6 => if h(5).hasConstructor then h(5).info else info
      case _ => info
  }

  predicate MetadataFails(h: Hearing) { Decodes(h) && h(1).metadataFails }

  predicate ParserFails(d: Desc, found: Option<Row>, h: Hearing) {
    InfoAt(4, d, found, h).hasSources && h(4).parseFails
  }

  /** The outside calls made at `CHAIN[p]`, up to the final stage. */
  function CallsAt(p: nat, d: Desc, found: Option<Row>, h: Hearing): seq<Effect>
    requires d.header.Some?
  {
    var info := InfoAt(p, d, found, h);
    match p
    case 0 => [LookedUp(KeyOf(d), found)]
    case 1 => if Decodes(h) then [DecodedMetadata] else []
    case 2 =>
      (if Tries(info, found) then [LoadedSources] else [])
      + (if Fetches(info, found, h(2)) then [FetchedSources] else [])
    case 4 => if info.hasSources then [Parsed] else []
    case 5 => if h(5).hasConstructor then [DiscoveredConstructor] else []
    case _ => []
  }

  function LogAt(p: nat, d: Desc, found: Option<Row>, h: Hearing): seq<Effect>
    requires d.header.Some?
  {
    if p == 0 then [] else LogAt(p - 1, d, found, h) + CallsAt(p - 1, d, found, h)
  }

  function FailuresAt(p: nat, d: Desc, found: Option<Row>, h: Hearing): Flags {
    Flags(p >= 2 && MetadataFails(h), p >= 5 && ParserFails(d, found, h), false)
  }

  function FoundBy(w0: World): Option<Row>
    requires w0.d.header.Some?
  {
    Lookup(w0.t, KeyOf(w0.d))
  }

  /** The part of the story that concerns the descriptor. */
  ghost predicate TellsOf(p: nat, d0: Desc, found: Option<Row>, h: Hearing, d: Desc) {
    && SameSubject(d.(nextState := d0.nextState), d0)
    && d.nextState in {Unset, Metadata} && (p >= 1 ==> d.nextState.Unset?)
    && ListsAt(d, p) && FlagsOf(d) == FailuresAt(p, d0, found, h)
    && d.info == InfoAt(p, d0, found, h)
    && (p >= 1 ==> d.model == found && d.selfDestructed == !h(0).isValid)
  }

  /** The run stands at `CHAIN[p]`, and all is as told. */
  ghost predicate AsTold(p: nat, start: Stage, w0: World, m: Run)
    requires w0.d.header.Some?
  {
    && p <= 6 && m.pc.AtCheck? && m.current == CHAIN[p]
    && m.data.calls == w0.calls + |Lead(start)| + p && m.data.env == w0.env && m.data.t == w0.t
    && TellsOf(p, w0.d, FoundBy(w0), Heard(start, w0), m.data.d)
    && m.data.log == w0.log + LogAt(p, w0.d, FoundBy(w0), Heard(start, w0))
  }

  // ----- one handler at a time -----

  lemma DiscoveryIsTold(d0: Desc, t: Table, h: Hearing, d: Desc)
    requires d0.header.Some? && d0.tx.Some? && d0.hasReceipt && !h(0).panics && !h(0).lookupFails
    requires !FindsItDone(d0, t, h(0)) && TellsOf(0, d0, Lookup(t, KeyOf(d0)), h, d)
    ensures var found := Lookup(t, KeyOf(d0));
      var out := StepOf(Discover, d, t, h(0));
      && out.status.Fine? && out.next.Metadata? && out.t == t
      && out.effects == CallsAt(0, d0, found, h) && TellsOf(1, d0, found, h, out.d)
  {
    DiscoveryLeadsOn(d, t, h(0));
    var out := StepOf(Discover, d, t, h(0));
    assert KeyOf(d) == KeyOf(d0);
    DiscoverMovesOn(d, t, h(0));
    FlagsAreRecorded(out.d, 1, Flags(false, false, false));
  }

  /** The lists of the next place, and the failure the stage may have added. */
  lemma ListsAreTold(p: nat, d0: Desc, t: Table, found: Option<Row>, h: Hearing, d: Desc)
    requires 1 <= p <= 5 && Undisturbed(h(p)) && TellsOf(p, d0, found, h, d)
    ensures var out := StepOf(CHAIN[p], d, t, h(p));
      && out.status.Fine? && out.next == CHAIN[p + 1] && out.t == t && ListsAt(out.d, p + 1)
      && SameSubject(out.d, d) && out.d.model == d.model
  {
    NotYetListed(p, FlagsOf(d));
    CompletedFrom(p, d);
    MiddleOut(p, d, t, h(p));
    CalmCall(CHAIN[p], d, t, h(p));
  }

  lemma CompletedFrom(p: nat, d: Desc)
    requires 1 <= p <= 6 && ListsAt(d, p)
    ensures Discover in d.completed && Final !in d.failed
  {
    NotYetListed(p, FlagsOf(d));
  }

  /** What the handler of `CHAIN[p]` did. */
  ghost predicate StageDid(p: nat, d: Desc, a: Answers, out: Out)
    requires 1 <= p <= 5
  {
    match p
    case 1 => MetadataDid(d, a, out)
    case 2 => ProvidersDid(d, a, out)
    case 3 => SourcesDid(d, a, out)
    case 4 => ParserDid(d, a, out)
    case 5 => ConstructorDid(d, a, out)
  }

  lemma StageMeans(p: nat, d: Desc, t: Table, a: Answers)
    requires 1 <= p <= 5 && Undisturbed(a) && Discover in d.completed
    ensures StageDid(p, d, a, StepOf(CHAIN[p], d, t, a))
  {
    match p
    case 1 => MetadataMeans(d, t, a);
    case 2 => ProvidersMean(d, t, a);
    case 3 => SourcesMean(d, t, a);
    case 4 => ParserMeans(d, t, a);
    case 5 => ConstructorMeans(d, t, a);
  }

  /** What a stage leaves alone, and the failure it may add. */
  ghost predicate OnlyFails(d: Desc, e: Desc, metadata: bool, parser: bool) {
    && SameSubject(e, d) && e.model == d.model && e.selfDestructed == d.selfDestructed
    && FlagsOf(e) == FlagsOf(d).(metadata := metadata, parser := parser)
  }

  lemma MetadataTells(d0: Desc, found: Option<Row>, h: Hearing, d: Desc, out: Out)
    requires d0.header.Some? && TellsOf(1, d0, found, h, d) && MetadataDid(d, h(1), out)
    ensures out.effects == CallsAt(1, d0, found, h) && out.d.info == InfoAt(2, d0, found, h)
    ensures OnlyFails(d, out.d, MetadataFails(h), false)
  {
    NotYetListed(1, FlagsOf(d));
  }

  lemma ProvidersTell(d0: Desc, found: Option<Row>, h: Hearing, d: Desc, out: Out)
    requires d0.header.Some? && TellsOf(2, d0, found, h, d) && ProvidersDid(d, h(2), out)
    ensures out.effects == CallsAt(2, d0, found, h) && out.d.info == InfoAt(3, d0, found, h)
    ensures OnlyFails(d, out.d, FlagsOf(d).metadata, false)
  {
    NotYetListed(2, FlagsOf(d));
  }

  lemma SourcesTell(d0: Desc, found: Option<Row>, h: Hearing, d: Desc, out: Out)
    requires d0.header.Some? && TellsOf(3, d0, found, h, d) && SourcesDid(d, h(3), out)
    ensures out.effects == CallsAt(3, d0, found, h) && out.d.info == InfoAt(4, d0, found, h)
    ensures OnlyFails(d, out.d, FlagsOf(d).metadata, false)
  {
  }

  lemma ParserTells(d0: Desc, found: Option<Row>, h: Hearing, d: Desc, out: Out)
    requires d0.header.Some? && TellsOf(4, d0, found, h, d) && ParserDid(d, h(4), out)
    ensures out.effects == CallsAt(4, d0, found, h) && out.d.info == InfoAt(5, d0, found, h)
    ensures OnlyFails(d, out.d, FlagsOf(d).metadata, ParserFails(d0, found, h))
  {
    NotYetListed(4, FlagsOf(d));
  }

  lemma ConstructorTells(d0: Desc, found: Option<Row>, h: Hearing, d: Desc, out: Out)
    requires d0.header.Some? && TellsOf(5, d0, found, h, d) && ConstructorDid(d, h(5), out)
    ensures out.effects == CallsAt(5, d0, found, h) && out.d.info == InfoAt(6, d0, found, h)
    ensures OnlyFails(d, out.d, FlagsOf(d).metadata, FlagsOf(d).parser)
  {
  }

  lemma StageChanges(p: nat, d0: Desc, found: Option<Row>, h: Hearing, d: Desc, out: Out)
    requires d0.header.Some? && 1 <= p <= 5 && TellsOf(p, d0, found, h, d) && StageDid(p, d, h(p), out)
    ensures out.effects == CallsAt(p, d0, found, h) && out.d.info == InfoAt(p + 1, d0, found, h)
    ensures var f := FailuresAt(p + 1, d0, found, h); OnlyFails(d, out.d, f.metadata, f.parser)
  {
    match p
    case 1 => MetadataTells(d0, found, h, d, out);
    case 2 => ProvidersTell(d0, found, h, d, out);
    case 3 => SourcesTell(d0, found, h, d, out);
    case 4 => ParserTells(d0, found, h, d, out);
    case 5 => ConstructorTells(d0, found, h, d, out);
  }

  lemma TellsOn(p: nat, d0: Desc, found: Option<Row>, h: Hearing, d: Desc, e: Desc)
    requires 1 <= p <= 5 && TellsOf(p, d0, found, h, d) && ListsAt(e, p + 1)
    requires e.info == InfoAt(p + 1, d0, found, h)
    requires var f := FailuresAt(p + 1, d0, found, h); OnlyFails(d, e, f.metadata, f.parser)
    ensures TellsOf(p + 1, d0, found, h, e)
  {
  }

  lemma StageTells(p: nat, d0: Desc, found: Option<Row>, h: Hearing, d: Desc, out: Out)
    requires d0.header.Some? && 1 <= p <= 5 && TellsOf(p, d0, found, h, d)
    requires StageDid(p, d, h(p), out) && ListsAt(out.d, p + 1)
    ensures out.effects == CallsAt(p, d0, found, h) && TellsOf(p + 1, d0, found, h, out.d)
  {
    StageChanges(p, d0, found, h, d, out);
    TellsOn(p, d0, found, h, d, out.d);
  }

  lemma MiddleIsTold(p: nat, d0: Desc, t: Table, found: Option<Row>, h: Hearing, d: Desc)
    requires d0.header.Some? && 1 <= p <= 5 && Undisturbed(h(p)) && TellsOf(p, d0, found, h, d)
    ensures var out := StepOf(CHAIN[p], d, t, h(p));
      && out.status.Fine? && out.next == CHAIN[p + 1] && out.t == t
      && out.effects == CallsAt(p, d0, found, h) && TellsOf(p + 1, d0, found, h, out.d)
  {
    CompletedFrom(p, d);
    ListsAreTold(p, d0, t, found, h, d);
    StageMeans(p, d, t, h(p));
    StageTells(p, d0, found, h, d, StepOf(CHAIN[p], d, t, h(p)));
  }

  // ----- the whole run -----

  /** Nothing panics, nobody cancels, and discovery neither refuses the contract nor finds it done. */
  ghost predicate LeftAlone(start: Stage, w0: World, cancel: nat -> bool) {
    && FreshStart(start, w0) && NeverCrashes(w0.env) && (forall j: nat :: !cancel(j))
    && w0.d.header.Some? && w0.d.tx.Some? && w0.d.hasReceipt && !Heard(start, w0)(0).lookupFails
    && !FindsItDone(w0.d, w0.t, Heard(start, w0)(0))
  }

  lemma LogGrows(p: nat, d: Desc, found: Option<Row>, h: Hearing, log0: seq<Effect>, log: seq<Effect>)
    requires d.header.Some? && log == log0 + LogAt(p, d, found, h)
    ensures log + CallsAt(p, d, found, h) == log0 + LogAt(p + 1, d, found, h)
  {
  }

  lemma TurnLands(p: nat, start: Stage, w0: World, m: Run, out: Out)
    requires w0.d.header.Some? && p <= 5 && AsTold(p, start, w0, m)
    requires out.status.Fine? && out.next == CHAIN[p + 1] && out.t == m.data.t
    requires out.effects == CallsAt(p, w0.d, FoundBy(w0), Heard(start, w0))
    requires TellsOf(p + 1, w0.d, FoundBy(w0), Heard(start, w0), out.d)
    ensures AsTold(p + 1, start, w0, Land(m, out))
  {
    LogGrows(p, w0.d, FoundBy(w0), Heard(start, w0), w0.log, m.data.log);
    assert Land(m, out) == Appended(m, After(m.data, out), CHAIN[p + 1], false);
  }

  lemma CallIsTold(p: nat, start: Stage, w0: World, cancel: nat -> bool, m: Run)
    requires LeftAlone(start, w0, cancel) && p <= 5 && AsTold(p, start, w0, m)
    ensures var out := StepOf(CHAIN[p], m.data.d, m.data.t, Heard(start, w0)(p));
      && out.status.Fine? && out.next == CHAIN[p + 1] && out.t == m.data.t
      && out.effects == CallsAt(p, w0.d, FoundBy(w0), Heard(start, w0))
      && TellsOf(p + 1, w0.d, FoundBy(w0), Heard(start, w0), out.d)
  {
    var h, found := Heard(start, w0), FoundBy(w0);
    if p == 0 { DiscoveryIsTold(w0.d, w0.t, h, m.data.d); } else { MiddleIsTold(p, w0.d, w0.t, found, h, m.data.d); }
  }

  lemma TurnIsACall(s: Stage, m: Run, a: Answers)
    requires m.pc.AtCheck? && m.current == s && HasHandler(s) && m.data.env(m.data.calls) == a
    ensures Advance(m, false) == Land(m, StepOf(s, m.data.d, m.data.t, a))
  {
  }

  lemma TurnIsTold(p: nat, start: Stage, w0: World, cancel: nat -> bool, m: Run)
    requires LeftAlone(start, w0, cancel) && p <= 5 && AsTold(p, start, w0, m)
    ensures AsTold(p + 1, start, w0, Advance(m, false))
  {
    TurnIsACall(CHAIN[p], m, Heard(start, w0)(p));
    CallIsTold(p, start, w0, cancel, m);
    TurnLands(p, start, w0, m, StepOf(CHAIN[p], m.data.d, m.data.t, Heard(start, w0)(p)));
  }

  lemma ArrivesAtDiscovery(start: Stage, w0: World, cancel: nat -> bool, tr: seq<Run>)
    requires LeftAlone(start, w0, cancel) && IsRun(tr, start, w0, cancel) && |tr| > 2
    ensures AsTold(0, start, w0, tr[|Lead(start)|])
  {
    FlagsAreRecorded(w0.d, 0, Flags(false, false, false));
    if !start.Discover? {
      assert FollowsAt(tr, 0, cancel);
      SentToDiscovery(start, w0);
    }
  }

  lemma NextIsTold(p: nat, start: Stage, w0: World, cancel: nat -> bool, tr: seq<Run>, k: nat)
    requires LeftAlone(start, w0, cancel) && IsRun(tr, start, w0, cancel) && k + 1 < |tr|
    requires p <= 5 && AsTold(p, start, w0, tr[k])
    ensures AsTold(p + 1, start, w0, tr[k + 1])
  {
    assert FollowsAt(tr, k, cancel);
    TurnIsTold(p, start, w0, cancel, tr[k]);
  }

  /** Step by step. */
  lemma {:induction false} Climbs(holds: nat -> bool, n: nat)
    requires holds(0) && forall p: nat :: p < n && holds(p) ==> holds(p + 1)
    ensures holds(n)
  {
    if n > 0 { Climbs(holds, n - 1); }
  }

  /** Whether all is as told `p` turns after state `b` of the run. */
  ghost function Along(start: Stage, w0: World, tr: seq<Run>, b: nat): nat -> bool
    requires w0.d.header.Some? && b + 6 < |tr|
  {
    (p: nat) => p <= 6 && AsTold(p, start, w0, tr[b + p])
  }

  lemma AlongGoesOn(start: Stage, w0: World, cancel: nat -> bool, tr: seq<Run>, b: nat, p: nat)
    requires LeftAlone(start, w0, cancel) && IsRun(tr, start, w0, cancel) && b + 6 < |tr|
    requires p < 6 && Along(start, w0, tr, b)(p)
    ensures Along(start, w0, tr, b)(p + 1)
  {
    NextIsTold(p, start, w0, cancel, tr, b + p);
  }

  lemma AlongHolds(start: Stage, w0: World, cancel: nat -> bool, tr: seq<Run>, b: nat)
    requires LeftAlone(start, w0, cancel) && IsRun(tr, start, w0, cancel) && b + 6 < |tr|
    requires Along(start, w0, tr, b)(0)
    ensures Along(start, w0, tr, b)(6)
  {
    var holds := Along(start, w0, tr, b);
    forall p: nat | p < 6 && holds(p)
      ensures holds(p + 1)
    {
      AlongGoesOn(start, w0, cancel, tr, b, p);
    }
    Climbs(holds, 6);
  }

  lemma RunIsToldToTheEnd(start: Stage, w0: World, cancel: nat -> bool, tr: seq<Run>, b: nat)
    requires LeftAlone(start, w0, cancel) && IsRun(tr, start, w0, cancel) && b + 6 < |tr|
    requires AsTold(0, start, w0, tr[b])
    ensures AsTold(6, start, w0, tr[b + 6])
  {
    AlongHolds(start, w0, cancel, tr, b);
  }

  /** The entry, of what is told. */
  ghost predicate IsEntryTold(entry: Row, d0: Desc, found: Option<Row>, h: Hearing)
    requires d0.header.Some? && d0.tx.Some?
  {
    && entry.key == KeyOf(d0) && entry.blockHash == d0.header.value.hash && entry.txHash == d0.tx.value
    && entry.info == InfoAt(6, d0, found, h) && (entry.selfDestructed <==> !h(0).isValid)
    && entry.completed == [Discover] + (if MetadataFails(h) then [] else [Metadata]) + [SourceProviders, Sources]
                        + (if ParserFails(d0, found, h) then [] else [Parser])
    && entry.failed == (if MetadataFails(h) then [Metadata] else [])
                     + (if ParserFails(d0, found, h) then [Parser] else [])
    && entry.processed && (entry.partial <==> MetadataFails(h) || ParserFails(d0, found, h))
    && entry.id == (if found.Some? then found.value.id else 0)
    && entry.createdAt == (if found.Some? then found.value.createdAt else h(6).now)
    && entry.updatedAt == (if found.Some? then h(6).now else ZERO_TIME)
  }

  /** How the story ends: the entry was written, and these stages failed. */
  ghost predicate EndsAsTold(
    d0: Desc, t0: Table, log0: seq<Effect>, h: Hearing, w: World, entry: Row, issued: seq<Effect>, ok: bool)
    requires d0.header.Some? && d0.tx.Some?
  {
    var found := Lookup(t0, KeyOf(d0));
    var writes := InfoAt(6, d0, found, h).hasSources && ok;
    && IsEntryTold(entry, d0, found, h) && Wrote(t0, w.t, entry, found.Some?, h(6), issued, ok)
    && w.log == log0 + LogAt(6, d0, found, h) + issued + (if writes then [WroteSources] else [])
    && w.d.info == InfoAt(6, d0, found, h) && w.d.model == found && w.d.processed
    && (Metadata in w.d.failed <==> MetadataFails(h))
    && (Parser in w.d.failed <==> ParserFails(d0, found, h))
    && (Final in w.d.failed <==> !ok || (writes && h(6).sourcesWriteFails))
  }

  lemma ListsSpelledOut(d: Desc)
    requires ListsAt(d, 6)
    ensures var f := FlagsOf(d);
      && d.completed == [Discover] + (if f.metadata then [] else [Metadata]) + [SourceProviders, Sources]
                      + (if f.parser then [] else [Parser])
      && d.failed == (if f.metadata then [Metadata] else []) + (if f.parser then [Parser] else [])
      && (d.failed != [] <==> f.metadata || f.parser)
  {
  }

  lemma EntryIsTold(d0: Desc, found: Option<Row>, h: Hearing, d: Desc, entry: Row)
    requires d0.header.Some? && d0.tx.Some? && TellsOf(6, d0, found, h, d) && IsEntry(entry, d, h(6).now)
    ensures IsEntryTold(entry, d0, found, h)
  {
    ListsSpelledOut(d);
    assert KeyOf(d) == KeyOf(d0);
  }

  /** What became of the flags at the final stage. */
  lemma FlagsInTheEnd(d: Desc, e: Desc, fails: bool)
    requires ListsAt(d, 6) && Lists(d.failed, e.failed, Final, fails)
    ensures FlagsOf(e) == FlagsOf(d).(final := fails)
  {
    NotYetListed(6, FlagsOf(d));
  }

  lemma Rebracket(a: seq<Effect>, b: seq<Effect>, c: seq<Effect>)
    ensures a + (b + c) == a + b + c
  {
  }

  /** The lists at the end, given what failed on the way and at the final stage. */
  lemma FailuresAreTold(d0: Desc, found: Option<Row>, h: Hearing, d: Desc, e: Desc, fails: bool)
    requires TellsOf(6, d0, found, h, d) && Lists(d.failed, e.failed, Final, fails)
    ensures Metadata in e.failed <==> MetadataFails(h)
    ensures Parser in e.failed <==> ParserFails(d0, found, h)
    ensures Final in e.failed <==> fails
  {
    FlagsInTheEnd(d, e, fails);
  }

  lemma EndIsTold(
    d0: Desc, t0: Table, log0: seq<Effect>, h: Hearing, w: World, out: Out, entry: Row, issued: seq<Effect>, ok: bool)
    requires d0.header.Some? && d0.tx.Some? && w.t == t0
    requires var found := Lookup(t0, KeyOf(d0));
      TellsOf(6, d0, found, h, w.d) && w.log == log0 + LogAt(6, d0, found, h)
    requires FinalDid(w.d, t0, h(6), out, entry, issued, ok)
    ensures EndsAsTold(d0, t0, log0, h, After(w, out), entry, issued, ok)
  {
    var found := Lookup(t0, KeyOf(d0));
    var writes := w.d.info.hasSources && ok;
    CompletedFrom(6, w.d);
    EntryIsTold(d0, found, h, w.d, entry);
    FailuresAreTold(d0, found, h, w.d, out.d, !ok || (writes && h(6).sourcesWriteFails));
    Rebracket(w.log, issued, if writes then [WroteSources] else []);
  }

  lemma LastTurnIsTold(start: Stage, w0: World, cancel: nat -> bool, m: Run)
    returns (entry: Row, issued: seq<Effect>, ok: bool)
    requires LeftAlone(start, w0, cancel) && AsTold(6, start, w0, m)
    ensures var n := Advance(m, false);
      && n.pc == Returned(Nil)
      && EndsAsTold(w0.d, w0.t, w0.log, Heard(start, w0), n.data, entry, issued, ok)
  {
    var h := Heard(start, w0);
    assert h(6) == m.data.env(m.data.calls);
    CompletedFrom(6, m.data.d);
    entry, issued, ok := FinalMeans(m.data.d, m.data.t, h(6));
    EndIsTold(w0.d, w0.t, w0.log, h, m.data, StepOf(Final, m.data.d, m.data.t, h(6)), entry, issued, ok);
  }

  lemma {:induction false} ReturnedRunStays(tr: seq<Run>, start: Stage, w: World, cancel: nat -> bool, n: nat, k: nat)
    requires IsRun(tr, start, w, cancel) && n <= k < |tr| && tr[n].pc.Returned?
    ensures tr[k] == tr[n]
    decreases k
  {
    if n < k {
      ReturnedRunStays(tr, start, w, cancel, n, k - 1);
      assert FollowsAt(tr, k - 1, cancel);
    }
  }

  /**
   An undisturbed run ends as told: what it calls and in which order, what it knows of the contract
   in the end, which stages failed, the entry column by column and what its statements make of the
   table follow from the descriptor, the row found and the answers, wherever the run was started.
   */
  lemma RunIsAsTold(start: Stage, w0: World, cancel: nat -> bool)
    returns (entry: Row, issued: seq<Effect>, ok: bool)
    requires LeftAlone(start, w0, cancel)
    ensures var m := RunFor(start, w0, cancel, 9);
      m.pc == Returned(Nil) && EndsAsTold(w0.d, w0.t, w0.log, Heard(start, w0), m.data, entry, issued, ok)
  {
    var tr := LayOut(start, w0, cancel, 9);
    var k := |Lead(start)| + 6;
    ArrivesAtDiscovery(start, w0, cancel, tr);
    RunIsToldToTheEnd(start, w0, cancel, tr, |Lead(start)|);
    assert FollowsAt(tr, k, cancel);
    entry, issued, ok := LastTurnIsTold(start, w0, cancel, tr[k]);
    ReturnedRunStays(tr, start, w0, cancel, k + 1, 9);
  }

  /** On a sound table the statements go through exactly when the one asked for works and an id is left. */
  lemma StatementsOfARun(start: Stage, w0: World, cancel: nat -> bool, entry: Row, issued: seq<Effect>, ok: bool)
    requires LeftAlone(start, w0, cancel) && Valid(w0.t)
    requires EndsAsTold(w0.d, w0.t, w0.log, Heard(start, w0), RunFor(start, w0, cancel, 9).data, entry, issued, ok)
    ensures var a := Heard(start, w0)(6);
      && issued == (if FoundBy(w0).Some? then [UpdateIssued(entry)] else [SaveIssued(entry)])
      && (ok <==> if FoundBy(w0).Some? then !a.updateFails else !a.saveFails && w0.t.lastId < MAX_INT64)
  {
    var a := Heard(start, w0)(6);
    StatementsSucceedExactly(w0.t, RunFor(start, w0, cancel, 9).data.t, entry, FoundBy(w0).Some?, a, issued, ok);
    if FoundBy(w0).None? { InsertKeeps(w0.t, entry, a.saveFails); }
  }
}
