/** The state names of pkg/unpacker/states.go; `Unset` is the empty name, `Other` any further one. */
module Stages {
  datatype Stage =
    | Unset
    | Discover | Metadata | SourceProviders | Sources | Parser | Opcodes | Ast | Social | Standards
    | Constructor | FunctionSignatures | EventSignatures | Token | Final | ErrorStage | Done
    | Other(name: string)
}

/** The contracts table: what the SQL statements of pkg/models do under the schema's constraints. */
module Contracts {
  import opened Base
  import opened Stages

  /** The columns of the UNIQUE constraint. */
  datatype ContractKey = ContractKey(network: int, block: int, address: int)

  /**
   What solgo knows of a contract. `described` stands for the columns that come with the sources
   (licence, proxy, compiler, optimisation, ABI, verification), `onChain` for the two bytecodes.
   */
  datatype ContractInfo = ContractInfo(hasSources: bool, name: string, described: string, onChain: string)

  datatype Row = Row(
    id: int, key: ContractKey, blockHash: int, txHash: int, info: ContractInfo, selfDestructed: bool,
    completed: seq<Stage>, failed: seq<Stage>, processed: bool, partial: bool,
    createdAt: int, updatedAt: int)

  /** `lastId` is the AUTOINCREMENT counter: the largest id ever handed out. */
  datatype Table = Table(rows: seq<Row>, lastId: int)

  datatype SqlResult = SqlOk | UniqueViolation | OtherError

  predicate IsCompleted(row: Row) { row.processed && !row.partial }

  /** Ids are positive, strictly ascending and counted by `lastId`; no two rows share a key. */
  ghost predicate Valid(t: Table) {
    && 0 <= t.lastId <= MAX_INT64
    && (forall i :: 0 <= i < |t.rows| ==> 1 <= t.rows[i].id <= t.lastId)
    && (forall i, j :: 0 <= i < j < |t.rows| ==> t.rows[i].id < t.rows[j].id)
    && (forall i, j :: 0 <= i < j < |t.rows| ==> t.rows[i].key != t.rows[j].key)
  }

  /** Every row is still there, at its place, with its id, key and creation time. */
  ghost predicate Keeps(t: Table, u: Table) {
    && |t.rows| <= |u.rows| && t.lastId <= u.lastId
    && (forall i :: 0 <= i < |t.rows| ==>
          u.rows[i].id == t.rows[i].id && u.rows[i].key == t.rows[i].key
          && u.rows[i].createdAt == t.rows[i].createdAt)
    && (forall i :: |t.rows| <= i < |u.rows| ==> t.lastId < u.rows[i].id)
  }

  lemma KeepsIsTransitive(t: Table, u: Table, v: Table)
    requires Keeps(t, u) && Keeps(u, v)
    ensures Keeps(t, v)
  {
    forall i | |t.rows| <= i < |v.rows|
      ensures t.lastId < v.rows[i].id
    {
      if i < |u.rows| { assert v.rows[i].id == u.rows[i].id; }
    }
  }

  /** Where the first wanted row stands, or the number of rows. */
  function Find(rows: seq<Row>, wanted: Row -> bool): (i: nat)
    ensures i <= |rows|
    ensures i < |rows| ==> wanted(rows[i])
    ensures forall j :: 0 <= j < i ==> !wanted(rows[j])
  {
    if rows == [] then 0
    else
      var i := Find(rows[..|rows| - 1], wanted);
      if i < |rows| - 1 || wanted(rows[|rows| - 1]) then i else |rows|
  }

  function FindKey(rows: seq<Row>, key: ContractKey): (i: nat)
    ensures i <= |rows|
    ensures i < |rows| ==> rows[i].key == key
    ensures forall j :: 0 <= j < i ==> rows[j].key != key
  {
    Find(rows, (row: Row) => row.key == key)
  }

  function FindId(rows: seq<Row>, id: int): (i: nat)
    ensures i <= |rows|
    ensures i < |rows| ==> rows[i].id == id
    ensures forall j :: 0 <= j < i ==> rows[j].id != id
  {
    Find(rows, (row: Row) => row.id == id)
  }

  /** SELECT ... WHERE network_id = ? AND block_number = ? AND address = ? */
  function Lookup(t: Table, key: ContractKey): Option<Row> {
    var i := FindKey(t.rows, key);
    if i < |t.rows| then Some(t.rows[i]) else None
  }

  /** INSERT: the id comes from the counter, whatever the entry carries. */
  function Insert(t: Table, entry: Row, fails: bool): (Table, SqlResult) {
    if fails then (t, OtherError)
    else if FindKey(t.rows, entry.key) < |t.rows| then (t, UniqueViolation)
    else if t.lastId >= MAX_INT64 then (t, OtherError)
    else (Table(t.rows + [entry.(id := t.lastId + 1)], t.lastId + 1), SqlOk)
  }

  /** UPDATE ... WHERE id = ?: every column but id and created_at; no matching row is no error. */
  function Update(t: Table, entry: Row, fails: bool): (Table, SqlResult) {
    if fails then (t, OtherError)
    else
      var i := FindId(t.rows, entry.id);
      if i == |t.rows| then (t, SqlOk)
      else
        var j := FindKey(t.rows, entry.key);
        if j < |t.rows| && j != i then (t, UniqueViolation)
        else (t.(rows := t.rows[i := entry.(createdAt := t.rows[i].createdAt)]), SqlOk)
  }

  lemma AppendKeeps(t: Table, row: Row)
    requires Valid(t) && t.lastId < MAX_INT64 && row.id == t.lastId + 1
    requires forall i :: 0 <= i < |t.rows| ==> t.rows[i].key != row.key
    ensures var u := Table(t.rows + [row], t.lastId + 1); Valid(u) && Keeps(t, u)
  {
  }

  /** An insert that succeeds appends the entry under a fresh id and touches nothing else. */
  lemma InsertKeeps(t: Table, entry: Row, fails: bool)
    requires Valid(t)
    ensures var (u, result) := Insert(t, entry, fails);
      && Valid(u) && Keeps(t, u)
      && (result.SqlOk? <==> !fails && Lookup(t, entry.key).None? && t.lastId < MAX_INT64)
      && (result.UniqueViolation? <==> !fails && Lookup(t, entry.key).Some?)
      && (!result.SqlOk? ==> u == t)
  {
    if FindKey(t.rows, entry.key) == |t.rows| && t.lastId < MAX_INT64 {
      AppendKeeps(t, entry.(id := t.lastId + 1));
    }
  }

  /** An entry whose id and key were read from one row rewrites that row and no other. */
  lemma UpdateKeeps(t: Table, entry: Row, fails: bool, i: nat)
    requires Valid(t)
    requires i < |t.rows| && t.rows[i].id == entry.id && t.rows[i].key == entry.key
    ensures FindId(t.rows, entry.id) == i == FindKey(t.rows, entry.key)
    ensures var (u, result) := Update(t, entry, fails);
      && Valid(u) && Keeps(t, u)
      && result == (if fails then OtherError else SqlOk)
      && u.rows == (if fails then t.rows else t.rows[i := entry.(createdAt := t.rows[i].createdAt)])
      && u.lastId == t.lastId
  {
    var k, j := FindId(t.rows, entry.id), FindKey(t.rows, entry.key);
    assert k <= i && j <= i;
  }

  /** An entry under one row's id and another row's key breaks the UNIQUE constraint. */
  lemma UpdateCollides(t: Table, entry: Row, i: nat, j: nat)
    requires Valid(t) && i < |t.rows| && j < |t.rows| && i != j
    requires t.rows[i].id == entry.id && t.rows[j].key == entry.key
    ensures Update(t, entry, false) == (t, UniqueViolation)
  {
    var k, l := FindId(t.rows, entry.id), FindKey(t.rows, entry.key);
    assert k <= i && l <= j;
  }

  /** A row is completed exactly when it was processed without a failure. */
  lemma CompletedMeans(row: Row)
    ensures IsCompleted(row) <==> row.processed && !row.partial
  {
  }

  /** The id of an entry never saved matches no row: the fallback update changes nothing. */
  lemma UpdateOfUnsavedIsIdle(t: Table, entry: Row, fails: bool)
    requires Valid(t) && entry.id == 0
    ensures Update(t, entry, fails).0 == t
    ensures Update(t, entry, fails).1 == if fails then OtherError else SqlOk
  {
  }

  lemma LookupIsUnique(t: Table, i: nat)
    requires Valid(t) && i < |t.rows|
    ensures FindKey(t.rows, t.rows[i].key) == i
    ensures Lookup(t, t.rows[i].key) == Some(t.rows[i])
  {
    assert FindKey(t.rows, t.rows[i].key) <= i;
  }

  /** The table as an object: one method per statement of pkg/models/contracts.go. */
  class ContractStore {
    var rows: seq<Row>
    var lastId: int

    ghost function View(): Table
      reads this
    {
      Table(rows, lastId)
    }

    constructor ()
      ensures View() == Table([], 0) && Valid(View())
    {
      rows, lastId := [], 0;
    }

    method GetContractByUniqueIndex(key: ContractKey) returns (found: Option<Row>)
      ensures found == Lookup(View(), key)
    {
      var i := FindKey(rows, key);
      found := if i < |rows| then Some(rows[i]) else None;
    }

    method SaveContract(entry: Row, fails: bool) returns (result: SqlResult)
      modifies this
      ensures (View(), result) == Insert(old(View()), entry, fails)
    {
      if fails { return OtherError; }
      var present := GetContractByUniqueIndex(entry.key);
      if present.Some? { return UniqueViolation; }
      if lastId >= MAX_INT64 { return OtherError; }
      rows, lastId := rows + [entry.(id := lastId + 1)], lastId + 1;
      return SqlOk;
    }

    method UpdateContract(entry: Row, fails: bool) returns (result: SqlResult)
      modifies this
      ensures (View(), result) == Update(old(View()), entry, fails)
    {
      if fails { return OtherError; }
      var i := FindId(rows, entry.id);
      if i == |rows| { return SqlOk; }
      var j := FindKey(rows, entry.key);
      if j < |rows| && j != i { return UniqueViolation; }
      rows := rows[i := entry.(createdAt := rows[i].createdAt)];
      return SqlOk;
    }
  }
}
