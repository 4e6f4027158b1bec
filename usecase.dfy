/**
 * The use-case layer's shared decision: which environment an `enter` or a
 * `kill` acts on, given an optional specifier and the current directory.
 * The resolver only reads the registry, so it is a function of the table.
 */
module Usecase {
  import opened Wrappers
  import opened Repo
  import Uuids
  import Util
  import Sqlite

  /** What the command line asks for. */
  datatype Action = Init | List | Enter(specifier: Option<EnvSpecifier>) | Kill(specifier: Option<EnvSpecifier>)

  /** How the resolver ends: the record chosen, or the reason it logs for choosing none. */
  datatype Resolution =
    | Selected(record: EnvRecord)
    | StoreFailed(error: Error)
    | NoMatch
    | NotUnique
    | NoEnvironments
    | Undetermined

  /**
   * The policy of `specify_env_to_operate` over the table `rows`. With a
   * specifier, exactly one match is required. Without one, a registry
   * holding a single environment selects it; otherwise the environment
   * registered for the current directory is selected, the first one when
   * several are.
   */
  function Resolve(rows: seq<Sqlite.Row>, currentPath: string, specifier: Option<EnvSpecifier>): (r: Resolution)
    ensures specifier.Some? ==> r.Selected? || r.StoreFailed? || r.NoMatch? || r.NotUnique?
    ensures specifier.None? ==> r.Selected? || r.StoreFailed? || r.NoEnvironments? || r.Undetermined?
    ensures rows == [] ==> r == if specifier.Some? then NoMatch else NoEnvironments
  {
    if specifier.Some? then
      match Sqlite.Query(rows, Sqlite.FilterOf(specifier.value))
      case Err(e) => StoreFailed(e)
      case Ok(records) =>
        if records == [] then NoMatch
        else if |records| == 1 then Selected(records[0])
        else NotUnique
    else
      match Sqlite.Query(rows, Sqlite.All)
      case Err(e) => StoreFailed(e)
      case Ok(records) =>
        if records == [] then NoEnvironments
        else if |records| == 1 then Selected(records[0])
        else
          match Sqlite.Query(rows, Sqlite.PathIs(currentPath))
          case Err(e) => StoreFailed(e)
          case Ok(found) =>
            if Util.FirstOf(found).Some? then Selected(Util.FirstOf(found).value) else Undetermined
  }

  /** `specify_env_to_operate`: the selected record, if any. */
  function SpecifyEnvToOperate(rows: seq<Sqlite.Row>, currentPath: string, specifier: Option<EnvSpecifier>): (r: Option<EnvRecord>)
    ensures rows == [] ==> r.None?
  {
    match Resolve(rows, currentPath, specifier)
    case Selected(record) => Some(record)
    case _ => None
  }

  // ---- Facts about queries the resolver relies on ----

  /** Every row of the table converts to a record. */
  predicate AllConvert(rows: seq<Sqlite.Row>)
  {
    forall k :: 0 <= k < |rows| ==> Sqlite.FromRow(rows[k]).Ok?
  }

  /** `record` is the conversion of some row of the table that satisfies `f`. */
  predicate StoredAs(rows: seq<Sqlite.Row>, f: Sqlite.Filter, record: EnvRecord)
  {
    exists k :: 0 <= k < |rows| && Sqlite.Matches(rows[k], f) && Sqlite.FromRow(rows[k]) == Ok(record)
  }

  /** The unfiltered query selects the whole table. */
  lemma {:induction false} WhereAll(rows: seq<Sqlite.Row>)
    ensures Sqlite.Where(rows, Sqlite.All) == rows
  {
    if rows != [] {
      WhereAll(rows[..|rows| - 1]);
      assert rows == rows[..|rows| - 1] + [rows[|rows| - 1]];
    }
  }

  /** Every record a query returns comes from a matching row of the table. */
  lemma QueryStored(rows: seq<Sqlite.Row>, f: Sqlite.Filter)
    ensures Sqlite.Query(rows, f).Ok? ==>
      forall j :: 0 <= j < |Sqlite.Query(rows, f).value| ==> StoredAs(rows, f, Sqlite.Query(rows, f).value[j])
  {
    var w := Sqlite.Where(rows, f);
    Sqlite.DecodeShape(w);
    Sqlite.WhereMembers(rows, f);
    if Sqlite.Query(rows, f).Ok? {
      var records := Sqlite.Query(rows, f).value;
      forall j | 0 <= j < |records| ensures StoredAs(rows, f, records[j]) {
        assert w[j] in w;
        var k :| 0 <= k < |rows| && rows[k] == w[j];
        assert Sqlite.FromRow(rows[k]) == Ok(records[j]);
      }
    }
  }

  /** When every row converts, a query succeeds with one record per matching row, in table order. */
  lemma QueryOfConvertible(rows: seq<Sqlite.Row>, f: Sqlite.Filter)
    requires AllConvert(rows)
    ensures Sqlite.Query(rows, f).Ok?
    ensures |Sqlite.Query(rows, f).value| == |Sqlite.Where(rows, f)|
    ensures forall j :: 0 <= j < |Sqlite.Where(rows, f)| ==>
      Sqlite.FromRow(Sqlite.Where(rows, f)[j]) == Ok(Sqlite.Query(rows, f).value[j])
  {
    var w := Sqlite.Where(rows, f);
    Sqlite.DecodeShape(w);
    Sqlite.WhereMembers(rows, f);
    forall j | 0 <= j < |w| ensures Sqlite.FromRow(w[j]).Ok? {
      assert w[j] in w;
      var k :| 0 <= k < |rows| && rows[k] == w[j];
    }
  }

  // ---- With a specifier ----

  /** A specifier that matches no row selects nothing. */
  lemma SpecifiedNoMatch(rows: seq<Sqlite.Row>, currentPath: string, s: EnvSpecifier)
    requires Sqlite.Where(rows, Sqlite.FilterOf(s)) == []
    ensures Resolve(rows, currentPath, Some(s)) == NoMatch
    ensures SpecifyEnvToOperate(rows, currentPath, Some(s)) == None
  {
  }

  /** A specifier that matches exactly one row selects that row's record. */
  lemma SpecifiedUniqueMatch(rows: seq<Sqlite.Row>, currentPath: string, s: EnvSpecifier, row: Sqlite.Row)
    requires Sqlite.Where(rows, Sqlite.FilterOf(s)) == [row]
    requires Sqlite.FromRow(row).Ok?
    ensures SpecifyEnvToOperate(rows, currentPath, Some(s)) == Some(Sqlite.FromRow(row).value)
  {
    Sqlite.DecodeAppend([], row);
    assert [] + [row] == [row];
  }

  /** Under the primary key a uuid specifier is never ambiguous: it selects its environment or reports another reason. */
  lemma UuidSpecifierNeverAmbiguous(rows: seq<Sqlite.Row>, currentPath: string, u: Uuids.Uuid)
    requires Sqlite.UniqueUuids(rows)
    ensures Resolve(rows, currentPath, Some(Uuid(u))) != NotUnique
  {
    Sqlite.UuidWhereAtMostOne(rows, Uuids.ToString(u));
  }

  /** A specifier that matches two or more rows selects none of them. */
  lemma SpecifiedAmbiguous(rows: seq<Sqlite.Row>, currentPath: string, s: EnvSpecifier)
    requires |Sqlite.Where(rows, Sqlite.FilterOf(s))| >= 2
    ensures !Resolve(rows, currentPath, Some(s)).Selected?
    ensures SpecifyEnvToOperate(rows, currentPath, Some(s)) == None
  {
    Sqlite.DecodeShape(Sqlite.Where(rows, Sqlite.FilterOf(s)));
  }

  /** The record a specifier selects is the one the specifier names: same uuid, path or name. */
  lemma SelectedMatchesSpecifier(rows: seq<Sqlite.Row>, currentPath: string, s: EnvSpecifier)
    ensures var r := SpecifyEnvToOperate(rows, currentPath, Some(s));
      r.Some? ==>
        match s
        case Uuid(u) => r.value.spec.uuid == u
        case Path(p) => r.value.spec.projectPath == p
        case Name(n) => r.value.spec.projectName == n
  {
    var f := Sqlite.FilterOf(s);
    var r := SpecifyEnvToOperate(rows, currentPath, Some(s));
    QueryStored(rows, f);
    if r.Some? {
      assert StoredAs(rows, f, Sqlite.Query(rows, f).value[0]);
      var k :| 0 <= k < |rows| && Sqlite.Matches(rows[k], f) && Sqlite.FromRow(rows[k]) == Ok(r.value);
      if s.Uuid? {
        Uuids.ParseToString(s.uuid);
      }
    }
  }

  // ---- Without a specifier ----

  /** An empty registry selects nothing. */
  lemma NoSpecifierEmptyRegistry(currentPath: string)
    ensures Resolve([], currentPath, None) == NoEnvironments
    ensures SpecifyEnvToOperate([], currentPath, None) == None
  {
  }

  /** A registry holding one environment selects it, whatever the current directory. */
  lemma NoSpecifierSingleEnvironment(row: Sqlite.Row, currentPath: string)
    requires Sqlite.FromRow(row).Ok?
    ensures SpecifyEnvToOperate([row], currentPath, None) == Some(Sqlite.FromRow(row).value)
  {
    WhereAll([row]);
    Sqlite.DecodeAppend([], row);
    assert [] + [row] == [row];
  }

  /**
   * A registry holding several environments selects the first one registered
   * for the current directory, and nothing when none is.
   */
  lemma NoSpecifierSeveralEnvironments(rows: seq<Sqlite.Row>, currentPath: string)
    requires |rows| >= 2 && AllConvert(rows)
    ensures var here := Sqlite.Where(rows, Sqlite.PathIs(currentPath));
      && (here == [] ==> Resolve(rows, currentPath, None) == Undetermined)
      && (here != [] ==>
            Sqlite.FromRow(here[0]).Ok? && SpecifyEnvToOperate(rows, currentPath, None) == Some(Sqlite.FromRow(here[0]).value))
  {
    WhereAll(rows);
    QueryOfConvertible(rows, Sqlite.All);
    assert |Sqlite.Query(rows, Sqlite.All).value| == |rows|;
    var here := Sqlite.Where(rows, Sqlite.PathIs(currentPath));
    QueryOfConvertible(rows, Sqlite.PathIs(currentPath));
    var found := Sqlite.Query(rows, Sqlite.PathIs(currentPath)).value;
    if here != [] {
      assert Sqlite.FromRow(here[0]) == Ok(found[0]);
    }
  }

  /** Without a specifier, a selection from several environments is registered for the current directory. */
  lemma NoSpecifierSelectsCurrentDirectory(rows: seq<Sqlite.Row>, currentPath: string)
    requires |rows| >= 2
    ensures var r := SpecifyEnvToOperate(rows, currentPath, None);
      r.Some? ==> r.value.spec.projectPath == currentPath
  {
    WhereAll(rows);
    Sqlite.DecodeShape(rows);
    var r := SpecifyEnvToOperate(rows, currentPath, None);
    QueryStored(rows, Sqlite.PathIs(currentPath));
    if r.Some? {
      var f := Sqlite.PathIs(currentPath);
      assert StoredAs(rows, f, Sqlite.Query(rows, f).value[0]);
    }
  }

  // ---- Errors and provenance ----

  /**
   * A row whose uuid does not parse makes every query that reaches it fail:
   * without a specifier it is always reached; with one, when it matches.
   */
  lemma UnreadableRowSelectsNothing(rows: seq<Sqlite.Row>, currentPath: string, specifier: Option<EnvSpecifier>, k: nat)
    requires k < |rows| && Sqlite.FromRow(rows[k]).Err?
    requires specifier.Some? ==> Sqlite.Matches(rows[k], Sqlite.FilterOf(specifier.value))
    ensures Resolve(rows, currentPath, specifier).StoreFailed?
    ensures SpecifyEnvToOperate(rows, currentPath, specifier) == None
  {
    var f := if specifier.Some? then Sqlite.FilterOf(specifier.value) else Sqlite.All;
    var w := Sqlite.Where(rows, f);
    Sqlite.WhereMembers(rows, f);
    assert rows[k] in w;
    var j :| 0 <= j < |w| && w[j] == rows[k];
    Sqlite.DecodeShape(w);
  }

  /** The resolver invents nothing: a selected record is the conversion of a row of the table. */
  lemma SelectedIsStored(rows: seq<Sqlite.Row>, currentPath: string, specifier: Option<EnvSpecifier>)
    ensures var r := SpecifyEnvToOperate(rows, currentPath, specifier);
      r.Some? ==> exists k :: 0 <= k < |rows| && Sqlite.FromRow(rows[k]) == Ok(r.value)
  {
    var r := SpecifyEnvToOperate(rows, currentPath, specifier);
    if r.Some? {
      var f := if specifier.Some? then Sqlite.FilterOf(specifier.value)
               else if |Sqlite.Query(rows, Sqlite.All).value| == 1 then Sqlite.All
               else Sqlite.PathIs(currentPath);
      QueryStored(rows, f);
      assert StoredAs(rows, f, Sqlite.Query(rows, f).value[0]);
    }
  }
}
