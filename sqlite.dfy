/**
 * The registry: the table `env_records(uuid TEXT PRIMARY KEY, path TEXT
 * NOT NULL, name TEXT NOT NULL, container_id TEXT NOT NULL)` held in memory
 * as a sequence of rows in table order, with the queries the SQLite-backed
 * store issues against it.
 */
module Sqlite {
  import opened Wrappers
  import Uuids
  import opened Repo

  /** One row of `env_records`; every column is stored as text. */
  datatype Row = Row(uuid: string, path: string, name: string, containerId: string)

  /** The WHERE clause of a query: none, or equality on one column. */
  datatype Filter = All | UuidIs(uuid: string) | PathIs(path: string) | NameIs(name: string)

  predicate Matches(row: Row, f: Filter)
  {
    match f
    case All => true
    case UuidIs(u) => row.uuid == u
    case PathIs(p) => row.path == p
    case NameIs(n) => row.name == n
  }

  /** The column and key a specifier selects on (uuids are compared as their canonical text). */
  function FilterOf(specifier: EnvSpecifier): Filter
  {
    match specifier
    case Uuid(u) => UuidIs(Uuids.ToString(u))
    case Path(p) => PathIs(p)
    case Name(n) => NameIs(n)
  }

  /** `SELECT ... WHERE`: the rows that match, in table order. */
  function Where(rows: seq<Row>, f: Filter): (r: seq<Row>)
    ensures |r| <= |rows|
  {
    if rows == [] then []
    else
      var init := Where(rows[..|rows| - 1], f);
      var last := rows[|rows| - 1];
      assert rows == rows[..|rows| - 1] + [last];
      if Matches(last, f) then init + [last] else init
  }

  /** `DELETE ... WHERE`: the rows that do not match, in table order. */
  function Except(rows: seq<Row>, f: Filter): (r: seq<Row>)
    ensures |r| <= |rows|
  {
    if rows == [] then []
    else
      var init := Except(rows[..|rows| - 1], f);
      var last := rows[|rows| - 1];
      assert rows == rows[..|rows| - 1] + [last];
      if Matches(last, f) then init else init + [last]
  }

  /** A query returns exactly the rows of the table whose column equals the key. */
  lemma {:induction false} WhereMembers(rows: seq<Row>, f: Filter)
    ensures forall row :: row in Where(rows, f) <==> row in rows && Matches(row, f)
  {
    if rows != [] {
      var init := rows[..|rows| - 1];
      WhereMembers(init, f);
      assert rows == init + [rows[|rows| - 1]];
    }
  }

  /** A delete keeps exactly the rows of the table whose column differs from the key. */
  lemma {:induction false} ExceptMembers(rows: seq<Row>, f: Filter)
    ensures forall row :: row in Except(rows, f) <==> row in rows && !Matches(row, f)
  {
    if rows != [] {
      var init := rows[..|rows| - 1];
      ExceptMembers(init, f);
      assert rows == init + [rows[|rows| - 1]];
    }
  }

  /** PRIMARY KEY on the uuid column: no two rows share a uuid text. */
  predicate UniqueUuids(rows: seq<Row>)
  {
    forall i, j :: 0 <= i < j < |rows| ==> rows[i].uuid != rows[j].uuid
  }

  /** The row `insert` writes for a record. */
  function RowOf(record: EnvRecord): Row
  {
    Row(Uuids.ToString(record.spec.uuid), record.spec.projectPath, record.spec.projectName,
        record.containerInfo.containerId.id)
  }

  /** `record_from_parts`: fails exactly when the uuid text does not parse; the other columns are copied verbatim. */
  function RecordFromParts(uuid: string, path: string, name: string, containerId: string): (r: Result<EnvRecord, Error>)
    ensures r.Err? <==> Uuids.Parse(uuid).None?
    ensures r.Err? ==> r.error == UuidSyntax(uuid)
    ensures r.Ok? ==> Uuids.Parse(uuid) == Some(r.value.spec.uuid)
    ensures r.Ok? ==> r.value.spec.projectPath == path && r.value.spec.projectName == name
                      && r.value.containerInfo.containerId.id == containerId
  {
    match Uuids.Parse(uuid)
    case None => Err(UuidSyntax(uuid))
    case Some(u) => Ok(EnvRecord(EnvSpec(u, path, name), ContainerInfo(ContainerId(containerId))))
  }

  function FromRow(row: Row): Result<EnvRecord, Error>
  {
    RecordFromParts(row.uuid, row.path, row.name, row.containerId)
  }

  /** A record survives the round trip through its row. */
  lemma FromRowOf(record: EnvRecord)
    ensures FromRow(RowOf(record)) == Ok(record)
  {
    Uuids.ParseToString(record.spec.uuid);
  }

  /** Converting query rows to records in order, stopping at the first row that does not convert. */
  function Decode(rows: seq<Row>): (r: Result<seq<EnvRecord>, Error>)
    ensures r.Ok? ==> |r.value| == |rows|
  {
    if rows == [] then Ok([])
    else
      match Decode(rows[..|rows| - 1])
      case Err(e) => Err(e)
      case Ok(init) =>
        match FromRow(rows[|rows| - 1])
        case Err(e) => Err(e)
        case Ok(record) => Ok(init + [record])
  }

  lemma DecodeAppend(rows: seq<Row>, row: Row)
    ensures Decode(rows + [row]) ==
      match Decode(rows)
      case Err(e) => Err(e)
      case Ok(init) =>
        match FromRow(row)
        case Err(e) => Err(e)
        case Ok(record) => Ok(init + [record])
  {
    assert (rows + [row])[..|rows|] == rows;
  }

  /** A decoded query result has one record per row, each the conversion of its row; it fails exactly when some row does not convert. */
  lemma {:induction false} DecodeShape(rows: seq<Row>)
    ensures Decode(rows).Ok? ==>
      |Decode(rows).value| == |rows| && forall k :: 0 <= k < |rows| ==> FromRow(rows[k]) == Ok(Decode(rows).value[k])
    ensures Decode(rows).Err? <==> exists k :: 0 <= k < |rows| && FromRow(rows[k]).Err?
  {
    if rows != [] {
      var init := rows[..|rows| - 1];
      DecodeShape(init);
      if Decode(rows).Err? && Decode(init).Err? {
        var k :| 0 <= k < |init| && FromRow(init[k]).Err?;
        assert rows[k] == init[k];
      }
      if Decode(rows).Ok? {
        forall k | 0 <= k < |rows| ensures FromRow(rows[k]) == Ok(Decode(rows).value[k]) {
          if k < |init| {
            assert rows[k] == init[k];
          }
        }
      }
    }
  }

  /** The result of a query: the matching rows, converted. */
  function Query(rows: seq<Row>, f: Filter): (r: Result<seq<EnvRecord>, Error>)
    ensures r.Ok? ==> |r.value| <= |rows|
  {
    Decode(Where(rows, f))
  }

  lemma {:induction false} WhereAppend(rows: seq<Row>, row: Row, f: Filter)
    ensures Where(rows + [row], f) == Where(rows, f) + (if Matches(row, f) then [row] else [])
  {
    assert (rows + [row])[..|rows|] == rows;
  }

  lemma {:induction false} ExceptAppend(rows: seq<Row>, row: Row, f: Filter)
    ensures Except(rows + [row], f) == Except(rows, f) + (if Matches(row, f) then [] else [row])
  {
    assert (rows + [row])[..|rows|] == rows;
  }

  /** Every row either matches or survives the delete: the counts add up. */
  lemma {:induction false} WhereExceptPartition(rows: seq<Row>, f: Filter)
    ensures |Where(rows, f)| + |Except(rows, f)| == |rows|
  {
    if rows != [] {
      WhereExceptPartition(rows[..|rows| - 1], f);
    }
  }

  /** Deleting keeps the primary key: a sub-sequence of a table with unique uuids has unique uuids. */
  lemma {:induction false} ExceptKeepsUnique(rows: seq<Row>, f: Filter)
    requires UniqueUuids(rows)
    ensures UniqueUuids(Except(rows, f))
  {
    if rows != [] {
      var init := rows[..|rows| - 1];
      var last := rows[|rows| - 1];
      assert UniqueUuids(init) by {
        forall i, j | 0 <= i < j < |init| ensures init[i].uuid != init[j].uuid {
          assert init[i] == rows[i] && init[j] == rows[j];
        }
      }
      ExceptKeepsUnique(init, f);
      ExceptMembers(init, f);
      var e := Except(init, f);
      if !Matches(last, f) {
        forall i | 0 <= i < |e| ensures e[i].uuid != last.uuid {
          assert e[i] in init;
          var k :| 0 <= k < |init| && init[k] == e[i];
          assert rows[k] == init[k];
        }
        assert Except(rows, f) == e + [last];
      }
    }
  }

  /** The primary key at work: a lookup by uuid text matches at most one row. */
  lemma {:induction false} UuidWhereAtMostOne(rows: seq<Row>, key: string)
    requires UniqueUuids(rows)
    ensures |Where(rows, UuidIs(key))| <= 1
  {
    if rows != [] {
      var init := rows[..|rows| - 1];
      var last := rows[|rows| - 1];
      assert UniqueUuids(init) by {
        forall i, j | 0 <= i < j < |init| ensures init[i].uuid != init[j].uuid {
          assert init[i] == rows[i] && init[j] == rows[j];
        }
      }
      UuidWhereAtMostOne(init, key);
      var w := Where(init, UuidIs(key));
      if w != [] {
        WhereMembers(init, UuidIs(key));
        assert w[0] in init;
        var k :| 0 <= k < |init| && init[k] == w[0];
        assert rows[k] == init[k];
        assert last.uuid != key;
      }
    }
  }

  /** On an empty table every query is empty. */
  lemma EmptyTableQueries(f: Filter)
    ensures Query([], f) == Ok([])
  {
  }

  /** After a row with a fresh uuid is appended, looking it up by uuid gives exactly its record. */
  lemma {:induction false} FindInsertedByUuid(rows: seq<Row>, record: EnvRecord)
    requires Where(rows, UuidIs(Uuids.ToString(record.spec.uuid))) == []
    ensures Query(rows + [RowOf(record)], UuidIs(Uuids.ToString(record.spec.uuid))) == Ok([record])
  {
    var f := UuidIs(Uuids.ToString(record.spec.uuid));
    var row := RowOf(record);
    WhereAppend(rows, row, f);
    assert Where(rows + [row], f) == [row];
    FromRowOf(record);
    DecodeAppend([], row);
    assert [] + [row] == [row];
    assert Decode([row]) == Ok([] + [record]);
    assert [] + [record] == [record];
  }

  /**
   * The SQLite-backed store. `rows` is the table; every method issues one
   * statement against it.
   */
  class Store {
    var rows: seq<Row>

    ghost predicate Valid()
      reads this
    {
      UniqueUuids(rows)
    }

    /** `new`: open the database; `CREATE TABLE IF NOT EXISTS` keeps an existing table as it is. */
    constructor Open(existing: seq<Row>)
      requires UniqueUuids(existing)
      ensures Valid() && rows == existing
    {
      rows := existing;
    }

    /** `insert`: one INSERT; the primary key refuses a uuid that is already present. */
    method Insert(record: EnvRecord) returns (res: Result<(), Error>)
      requires Valid()
      modifies this
      ensures Valid()
      ensures var key := Uuids.ToString(record.spec.uuid);
        if Where(old(rows), UuidIs(key)) == [] then res == Ok(()) && rows == old(rows) + [RowOf(record)]
        else res == Err(Db) && rows == old(rows)
    {
      var key := Uuids.ToString(record.spec.uuid);
      if Where(rows, UuidIs(key)) != [] {
        return Err(Db);
      }
      WhereMembers(rows, UuidIs(key));
      forall i | 0 <= i < |rows| ensures rows[i].uuid != key {
        assert rows[i] in rows;
      }
      rows := rows + [RowOf(record)];
      res := Ok(());
    }

    /** A SELECT: walk the table, convert every matching row, and stop at the first row that does not convert. */
    method Select(f: Filter) returns (res: Result<seq<EnvRecord>, Error>)
      ensures res == Query(rows, f)
    {
      var table := rows;
      var out: seq<EnvRecord> := [];
      var i := 0;
      while i < |table|
        invariant 0 <= i <= |table|
        invariant Decode(Where(table[..i], f)) == Ok(out)
      {
        var row := table[i];
        assert table[..i + 1] == table[..i] + [row];
        DecodeStep(table[..i], row, f, out);
        if Matches(row, f) {
          var record := FromRow(row);
          if record.Err? {
            WhereErrorPersists(table, i + 1, f, record.error);
            return Err(record.error);
          }
          out := out + [record.value];
        }
        i := i + 1;
      }
      assert table[..|table|] == table;
      res := Ok(out);
    }

    method FindByPath(path: string) returns (res: Result<seq<EnvRecord>, Error>)
      ensures res == Query(rows, PathIs(path))
    {
      res := Select(PathIs(path));
    }

    method FindByName(name: string) returns (res: Result<seq<EnvRecord>, Error>)
      ensures res == Query(rows, NameIs(name))
    {
      res := Select(NameIs(name));
    }

    method FindByUuid(uuid: Uuids.Uuid) returns (res: Result<seq<EnvRecord>, Error>)
      ensures res == Query(rows, UuidIs(Uuids.ToString(uuid)))
      ensures Valid() ==> res.Ok? ==> |res.value| <= 1
    {
      res := Select(UuidIs(Uuids.ToString(uuid)));
      if Valid() {
        UuidWhereAtMostOne(rows, Uuids.ToString(uuid));
      }
    }

    method List() returns (res: Result<seq<EnvRecord>, Error>)
      ensures res == Query(rows, All)
    {
      res := Select(All);
    }

    /** `find(specifier)`: route by the kind of specifier. */
    method Find(specifier: EnvSpecifier) returns (res: Result<seq<EnvRecord>, Error>)
      ensures res == Query(rows, FilterOf(specifier))
    {
      match specifier
      case Uuid(u) => res := FindByUuid(u);
      case Path(p) => res := FindByPath(p);
      case Name(n) => res := FindByName(n);
    }

    /** A DELETE: drop every matching row and report how many there were. */
    method Delete(f: Filter) returns (res: Result<nat, Error>)
      requires Valid()
      modifies this
      ensures Valid()
      ensures res == Ok(|Where(old(rows), f)|)
      ensures rows == Except(old(rows), f)
    {
      WhereExceptPartition(rows, f);
      ExceptKeepsUnique(rows, f);
      var count := |rows| - |Except(rows, f)|;
      rows := Except(rows, f);
      res := Ok(count);
    }

    method RemoveByPath(path: string) returns (res: Result<nat, Error>)
      requires Valid()
      modifies this
      ensures Valid()
      ensures res == Ok(|Where(old(rows), PathIs(path))|) && rows == Except(old(rows), PathIs(path))
    {
      res := Delete(PathIs(path));
    }

    method RemoveByName(name: string) returns (res: Result<nat, Error>)
      requires Valid()
      modifies this
      ensures Valid()
      ensures res == Ok(|Where(old(rows), NameIs(name))|) && rows == Except(old(rows), NameIs(name))
    {
      res := Delete(NameIs(name));
    }

    method RemoveByUuid(uuid: Uuids.Uuid) returns (res: Result<nat, Error>)
      requires Valid()
      modifies this
      ensures Valid()
      ensures var f := UuidIs(Uuids.ToString(uuid));
        res == Ok(|Where(old(rows), f)|) && rows == Except(old(rows), f)
    {
      res := Delete(UuidIs(Uuids.ToString(uuid)));
    }
  }

  /** One more row of a scan: skipped when it does not match, otherwise converted or the scan's error. */
  lemma DecodeStep(prefix: seq<Row>, row: Row, f: Filter, out: seq<EnvRecord>)
    requires Decode(Where(prefix, f)) == Ok(out)
    ensures Decode(Where(prefix + [row], f)) ==
      if !Matches(row, f) then Ok(out)
      else if FromRow(row).Err? then Err(FromRow(row).error)
      else Ok(out + [FromRow(row).value])
  {
    WhereAppend(prefix, row, f);
    DecodeAppend(Where(prefix, f), row);
  }

  /** Once the rows up to some point fail to convert, the whole query fails with that error. */
  lemma {:induction false} WhereErrorPersists(rows: seq<Row>, i: nat, f: Filter, e: Error)
    requires i <= |rows|
    requires Decode(Where(rows[..i], f)) == Err(e)
    ensures Query(rows, f) == Err(e)
    decreases |rows| - i
  {
    if i == |rows| {
      assert rows[..i] == rows;
    } else {
      assert rows[..i + 1] == rows[..i] + [rows[i]];
      WhereAppend(rows[..i], rows[i], f);
      DecodeAppend(Where(rows[..i], f), rows[i]);
      WhereErrorPersists(rows, i + 1, f, e);
    }
  }

  /** After a delete no row matches the key, and the rows that did not match are kept in order. */
  lemma {:induction false} DeleteRemovesExactly(rows: seq<Row>, f: Filter)
    ensures Where(Except(rows, f), f) == []
    ensures forall row :: row in rows && !Matches(row, f) ==> row in Except(rows, f)
    ensures |Except(rows, f)| == |rows| - |Where(rows, f)|
  {
    WhereExceptPartition(rows, f);
    ExceptMembers(rows, f);
    if rows != [] {
      var init := rows[..|rows| - 1];
      var last := rows[|rows| - 1];
      DeleteRemovesExactly(init, f);
      if !Matches(last, f) {
        WhereAppend(Except(init, f), last, f);
      }
    }
  }
}
