/** The synchronisation state of pkg/state: a descriptor in memory, written through to Redis as bytes. */
module SyncState {
  import opened Base
  import opened BigEndian

  datatype Key =
    | CurrentBlockHead | LatestInspectedHeadBlock | LatestInspectedArchiveBlock
    | ArchiveStartBlockNumber | ArchiveEndBlockNumber
    | UnknownKey(name: string)

  datatype Fields = Fields(
    head: Option<int>, latestHead: Option<int>, latestArchive: Option<int>,
    start: Option<int>, end: Option<int>, percentage: Option<int>)

  const EMPTY: Fields := Fields(None, None, None, None, None, None)

  type Entries = map<Key, seq<Byte>>

  function FieldOf(f: Fields, key: Key): Option<int> {
    match key
    case CurrentBlockHead => f.head
    case LatestInspectedHeadBlock => f.latestHead
    case LatestInspectedArchiveBlock => f.latestArchive
    case ArchiveStartBlockNumber => f.start
    case ArchiveEndBlockNumber => f.end
    case UnknownKey(_) => None
  }

  function WithField(f: Fields, key: Key, value: Option<int>): Fields {
    match key
    case CurrentBlockHead => f.(head := value)
    case LatestInspectedHeadBlock => f.(latestHead := value)
    case LatestInspectedArchiveBlock => f.(latestArchive := value)
    case ArchiveStartBlockNumber => f.(start := value)
    case ArchiveEndBlockNumber => f.(end := value)
    case UnknownKey(_) => f
  }

  function Magnitude(n: int): nat { if n < 0 then -n else n }

  /** What State.Get reads back: nothing for a key never written. */
  function ReadBack(entries: Entries, key: Key): Option<int> {
    if key in entries then Some(SetBytes(entries[key])) else None
  }

  /** What Load makes of Redis when every read goes through. */
  function Reloaded(entries: Entries, percentage: Option<int>): Fields {
    Fields(ReadBack(entries, CurrentBlockHead), ReadBack(entries, LatestInspectedHeadBlock),
           ReadBack(entries, LatestInspectedArchiveBlock), ReadBack(entries, ArchiveStartBlockNumber),
           ReadBack(entries, ArchiveEndBlockNumber), percentage)
  }

  /** The progress figure of State.Descriptor; big.Int.Div is Euclidean, like Dafny's division. */
  function Percentage(f: Fields): Option<int> {
    if f.end.None? || f.latestArchive.None? || f.start.None? then f.percentage
    else
      var total := f.end.value - f.start.value;
      var inspected := f.latestArchive.value - f.start.value;
      if total != 0 then Some(inspected * 100 / total) else Some(0)
  }

  class Redis {
    var entries: Entries

    constructor ()
      ensures entries == map[]
    {
      entries := map[];
    }

    method Get(key: Key, fails: bool) returns (found: Option<seq<Byte>>, ok: bool)
      ensures ok == !fails
      ensures found == if ok && key in entries then Some(entries[key]) else None
    {
      if fails { return None, false; }
      if key !in entries { return None, true; }
      return Some(entries[key]), true;
    }

    method Write(key: Key, value: seq<Byte>, fails: bool) returns (ok: bool)
      modifies this
      ensures ok == !fails
      ensures entries == if ok then old(entries)[key := value] else old(entries)
    {
      if fails { return false; }
      entries := entries[key := value];
      return true;
    }
  }

  class State {
    const cache: Redis
    var descriptor: Fields

    constructor (cache: Redis)
      ensures this.cache == cache && descriptor == EMPTY
    {
      this.cache := cache;
      descriptor := EMPTY;
    }

    method SetDescriptorKey(key: Key, value: int) returns (ok: bool)
      modifies this`descriptor
      ensures ok <==> !key.UnknownKey?
      ensures descriptor == WithField(old(descriptor), key, Some(value))
      ensures key == CurrentBlockHead ==> descriptor == old(descriptor).(head := Some(value))
      ensures key == LatestInspectedHeadBlock ==> descriptor == old(descriptor).(latestHead := Some(value))
      ensures key == LatestInspectedArchiveBlock ==> descriptor == old(descriptor).(latestArchive := Some(value))
      ensures key == ArchiveStartBlockNumber ==> descriptor == old(descriptor).(start := Some(value))
      ensures key == ArchiveEndBlockNumber ==> descriptor == old(descriptor).(end := Some(value))
    {
      match key {
        case CurrentBlockHead => descriptor := descriptor.(head := Some(value));
        case LatestInspectedHeadBlock => descriptor := descriptor.(latestHead := Some(value));
        case LatestInspectedArchiveBlock => descriptor := descriptor.(latestArchive := Some(value));
        case ArchiveStartBlockNumber => descriptor := descriptor.(start := Some(value));
        case ArchiveEndBlockNumber => descriptor := descriptor.(end := Some(value));
        case UnknownKey(_) => return false;
      }
      return true;
    }

    /** Memory first, then Redis; an unknown key reaches neither. */
    method Set(key: Key, value: int, fails: bool) returns (ok: bool)
      modifies this`descriptor, cache
      ensures ok <==> !key.UnknownKey? && !fails
      ensures (descriptor, cache.entries)
           == Apply((old(descriptor), old(cache.entries)), SetOp(key, value, !fails))
    {
      var known := SetDescriptorKey(key, value);
      if !known { return false; }
      ok := cache.Write(key, Bytes(Magnitude(value)), fails);
    }

    method Get(key: Key, fails: bool) returns (value: Option<int>, ok: bool)
      ensures ok == !fails
      ensures ok && key in cache.entries ==> value == Some(SetBytes(cache.entries[key]))
      ensures ok && key !in cache.entries ==> value == None
      ensures !ok ==> value == None
    {
      var response;
      response, ok := cache.Get(key, fails);
      if !ok || response.None? { return None, ok; }
      value := Some(SetBytes(response.value));
    }

    /** Five reads in turn; the first that fails ends the load, and the percentage is left alone. */
    method Load(fails: Key -> bool) returns (ok: bool)
      modifies this`descriptor
      ensures ok ==> descriptor == Reloaded(cache.entries, old(descriptor.percentage))
      ensures ok <==> !fails(CurrentBlockHead) && !fails(LatestInspectedHeadBlock)
                      && !fails(LatestInspectedArchiveBlock) && !fails(ArchiveStartBlockNumber)
                      && !fails(ArchiveEndBlockNumber)
      ensures descriptor.head ==
        (if fails(CurrentBlockHead)
         then old(descriptor.head) else ReadBack(cache.entries, CurrentBlockHead))
      ensures descriptor.latestHead ==
        (if fails(CurrentBlockHead) || fails(LatestInspectedHeadBlock)
         then old(descriptor.latestHead) else ReadBack(cache.entries, LatestInspectedHeadBlock))
      ensures descriptor.latestArchive ==
        (if fails(CurrentBlockHead) || fails(LatestInspectedHeadBlock) ||
            fails(LatestInspectedArchiveBlock)
         then old(descriptor.latestArchive) else ReadBack(cache.entries, LatestInspectedArchiveBlock))
      ensures descriptor.start ==
        (if fails(CurrentBlockHead) || fails(LatestInspectedHeadBlock) ||
            fails(LatestInspectedArchiveBlock) || fails(ArchiveStartBlockNumber)
         then old(descriptor.start) else ReadBack(cache.entries, ArchiveStartBlockNumber))
      ensures descriptor.end ==
        (if fails(CurrentBlockHead) || fails(LatestInspectedHeadBlock) ||
            fails(LatestInspectedArchiveBlock) || fails(ArchiveStartBlockNumber) ||
            fails(ArchiveEndBlockNumber)
         then old(descriptor.end) else ReadBack(cache.entries, ArchiveEndBlockNumber))
      ensures descriptor.percentage == old(descriptor.percentage)
    {
      var value;
      value, ok := Get(CurrentBlockHead, fails(CurrentBlockHead));
      if !ok { return; }
      descriptor := descriptor.(head := value);
      value, ok := Get(LatestInspectedHeadBlock, fails(LatestInspectedHeadBlock));
      if !ok { return; }
      descriptor := descriptor.(latestHead := value);
      value, ok := Get(LatestInspectedArchiveBlock, fails(LatestInspectedArchiveBlock));
      if !ok { return; }
      descriptor := descriptor.(latestArchive := value);
      value, ok := Get(ArchiveStartBlockNumber, fails(ArchiveStartBlockNumber));
      if !ok { return; }
      descriptor := descriptor.(start := value);
      value, ok := Get(ArchiveEndBlockNumber, fails(ArchiveEndBlockNumber));
      if !ok { return; }
      descriptor := descriptor.(end := value);
    }

    method Descriptor() returns (f: Fields)
      modifies this`descriptor
      ensures descriptor == old(descriptor).(percentage := Percentage(old(descriptor)))
      ensures f == descriptor
    {
      if descriptor.end.None? || descriptor.latestArchive.None? || descriptor.start.None? {
        return descriptor;
      }
      var totalBlocks := descriptor.end.value - descriptor.start.value;
      var inspectedBlocks := descriptor.latestArchive.value - descriptor.start.value;
      if totalBlocks != 0 {
        var percentageCompleted := inspectedBlocks * 100;
        percentageCompleted := percentageCompleted / totalBlocks;
        descriptor := descriptor.(percentage := Some(percentageCompleted));
      } else {
        descriptor := descriptor.(percentage := Some(0));
      }
      f := descriptor;
    }
  }

  // ----- traces of Set calls, and what a restart makes of them -----

  datatype SetCall = SetOp(key: Key, value: int, persisted: bool)

  function Apply(s: (Fields, Entries), op: SetCall): (Fields, Entries) {
    if op.key.UnknownKey? then s
    else
      (WithField(s.0, op.key, Some(op.value)),
       if op.persisted then s.1[op.key := Bytes(Magnitude(op.value))] else s.1)
  }

  function ApplyAll(ops: seq<SetCall>): (Fields, Entries) {
    if ops == [] then (EMPTY, map[]) else Apply(ApplyAll(ops[..|ops| - 1]), ops[|ops| - 1])
  }

  /** The value of the last call that set this key, counting only calls Redis accepted if asked to. */
  function LastValue(ops: seq<SetCall>, key: Key, persistedOnly: bool): Option<int> {
    if ops == [] || key.UnknownKey? then None
    else
      var op := ops[|ops| - 1];
      if op.key == key && (op.persisted || !persistedOnly) then Some(op.value)
      else LastValue(ops[..|ops| - 1], key, persistedOnly)
  }

  /** Memory holds the last value set; Redis gives back the magnitude of the last value it accepted. */
  lemma {:induction false} TraceIsRemembered(ops: seq<SetCall>, key: Key)
    ensures FieldOf(ApplyAll(ops).0, key) == LastValue(ops, key, false)
    ensures ReadBack(ApplyAll(ops).1, key) ==
      (var last := LastValue(ops, key, true); if last.None? then None else Some(Magnitude(last.value)))
    ensures ApplyAll(ops).0.percentage == None
    ensures forall name :: UnknownKey(name) !in ApplyAll(ops).1
  {
    if ops != [] {
      var op := ops[|ops| - 1];
      TraceIsRemembered(ops[..|ops| - 1], key);
      if op.key == key && op.persisted { BytesRoundTrip(Magnitude(op.value)); }
    }
  }

  lemma {:induction false} LastOfPersisted(ops: seq<SetCall>, key: Key)
    requires forall i :: 0 <= i < |ops| ==> ops[i].persisted
    ensures LastValue(ops, key, true) == LastValue(ops, key, false)
  {
    if ops != [] { LastOfPersisted(ops[..|ops| - 1], key); }
  }

  /**
   When Redis accepted every write, a fresh State that loads rebuilds a field exactly if and only
   if its last value was not negative: the bytes carry no sign. Zero comes back as zero and a key
   never set stays nil.
   */
  lemma RestartRebuildsAField(ops: seq<SetCall>, key: Key)
    requires forall i :: 0 <= i < |ops| ==> ops[i].persisted
    ensures FieldOf(Reloaded(ApplyAll(ops).1, None), key) == FieldOf(ApplyAll(ops).0, key)
      <==> (LastValue(ops, key, false).None? || LastValue(ops, key, false).value >= 0)
  {
    TraceIsRemembered(ops, key);
    LastOfPersisted(ops, key);
  }

  /** Over non-negative values the whole descriptor comes back. */
  lemma RestartRebuildsAll(ops: seq<SetCall>)
    requires forall i :: 0 <= i < |ops| ==> ops[i].persisted && ops[i].value >= 0
    ensures Reloaded(ApplyAll(ops).1, None) == ApplyAll(ops).0
  {
    forall key: Key
      ensures FieldOf(Reloaded(ApplyAll(ops).1, None), key) == FieldOf(ApplyAll(ops).0, key)
    {
      RestartRebuildsAField(ops, key);
      LastIsNonNegative(ops, key);
    }
    TraceIsRemembered(ops, CurrentBlockHead);
    FieldsDecide(Reloaded(ApplyAll(ops).1, None), ApplyAll(ops).0);
  }

  lemma FieldsDecide(f: Fields, g: Fields)
    requires forall key: Key :: FieldOf(f, key) == FieldOf(g, key)
    requires f.percentage == g.percentage
    ensures f == g
  {
    assert FieldOf(f, CurrentBlockHead) == FieldOf(g, CurrentBlockHead);
    assert FieldOf(f, LatestInspectedHeadBlock) == FieldOf(g, LatestInspectedHeadBlock);
    assert FieldOf(f, LatestInspectedArchiveBlock) == FieldOf(g, LatestInspectedArchiveBlock);
    assert FieldOf(f, ArchiveStartBlockNumber) == FieldOf(g, ArchiveStartBlockNumber);
    assert FieldOf(f, ArchiveEndBlockNumber) == FieldOf(g, ArchiveEndBlockNumber);
  }

  lemma {:induction false} LastIsNonNegative(ops: seq<SetCall>, key: Key)
    requires forall i :: 0 <= i < |ops| ==> ops[i].value >= 0
    ensures LastValue(ops, key, false).Some? ==> LastValue(ops, key, false).value >= 0
  {
    if ops != [] { LastIsNonNegative(ops[..|ops| - 1], key); }
  }

  /** A value set as -7 comes back as 7. */
  lemma NegativeValuesLoseTheirSign()
    ensures var ops := [SetOp(ArchiveStartBlockNumber, -7, true)];
      ApplyAll(ops).0.start == Some(-7) && Reloaded(ApplyAll(ops).1, None).start == Some(7)
  {
    var ops := [SetOp(ArchiveStartBlockNumber, -7, true)];
    TraceIsRemembered(ops, ArchiveStartBlockNumber);
    assert ops[..0] == [];
  }

  // ----- the percentage -----

  lemma ProductOrder(x: int, y: int, d: int)
    requires x <= y && d > 0
    ensures x * d <= y * d
  {
  }

  /** A quotient reaches `k` exactly when the dividend reaches `k` divisors. */
  lemma QuotientReaches(a: int, d: int, k: int)
    requires d > 0
    ensures a / d >= k <==> a >= k * d
  {
    var q := a / d;
    assert a == q * d + a % d;
    if q >= k {
      ProductOrder(k, q, d);
    } else {
      ProductOrder(q, k - 1, d);
      assert (k - 1) * d == k * d - d;
    }
  }

  /**
   The figure is the whole number of hundredths of the range that lie behind the latest block,
   rounded so that the remainder is not negative; zero for an empty range, and what it was while a
   bound or the latest block is unknown.
   */
  lemma PercentageIsTheQuotient(f: Fields)
    ensures f.start.None? || f.end.None? || f.latestArchive.None? ==> Percentage(f) == f.percentage
    ensures f.start.Some? && f.end.Some? && f.latestArchive.Some? ==>
      var total, done := f.end.value - f.start.value, f.latestArchive.value - f.start.value;
      && Percentage(f).Some?
      && var rest := done * 100 - Percentage(f).value * total;
         if total == 0 then Percentage(f).value == 0 else 0 <= rest < Magnitude(total)
  {
    if f.start.Some? && f.end.Some? && f.latestArchive.Some? && f.start != f.end {
      var total, done := f.end.value - f.start.value, f.latestArchive.value - f.start.value;
      Division(done * 100, total);
    }
  }

  lemma Division(a: int, d: int)
    requires d != 0
    ensures 0 <= a - a / d * d < Magnitude(d)
  {
    assert a == a / d * d + a % d;
  }

  /**
   Over a proper range the figure lies in 0..100 exactly when the latest block is not before the
   start and less than a hundredth of the range past the end.
   */
  lemma PercentageInRange(f: Fields)
    requires f.start.Some? && f.end.Some? && f.latestArchive.Some? && f.start.value < f.end.value
    ensures 0 <= Percentage(f).value <= 100
      <==> f.start.value <= f.latestArchive.value
           && (f.latestArchive.value - f.end.value) * 100 < f.end.value - f.start.value
  {
    var total, inspected := f.end.value - f.start.value, f.latestArchive.value - f.start.value;
    QuotientReaches(inspected * 100, total, 0);
    QuotientReaches(inspected * 100, total, 101);
  }

  /** For a block of the range the figure is 100 only at the end of it. */
  lemma PercentageIsFullAtTheEnd(f: Fields)
    requires f.start.Some? && f.end.Some? && f.latestArchive.Some?
    requires f.start.value <= f.latestArchive.value <= f.end.value && f.start.value < f.end.value
    ensures 0 <= Percentage(f).value <= 100
    ensures Percentage(f).value == 100 <==> f.latestArchive == f.end
  {
    PercentageInRange(f);
    QuotientReaches((f.latestArchive.value - f.start.value) * 100, f.end.value - f.start.value, 100);
  }

  /** It never falls while the latest block rises. */
  lemma PercentageIsMonotone(f: Fields, later: int)
    requires f.start.Some? && f.end.Some? && f.latestArchive.Some? && f.start.value < f.end.value
    requires f.latestArchive.value <= later
    ensures Percentage(f).value <= Percentage(f.(latestArchive := Some(later))).value
  {
    var total := f.end.value - f.start.value;
    var p := Percentage(f).value;
    QuotientReaches((f.latestArchive.value - f.start.value) * 100, total, p);
    QuotientReaches((later - f.start.value) * 100, total, p);
  }
}
