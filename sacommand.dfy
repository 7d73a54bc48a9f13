/*
 * The SQLAlchemy helper of the admin tool (gearshift/command/sacommand.py):
 * comparing the model's tables with the database's, and dispatching the
 * sub-commands.
 *
 * Tables and columns are values (the reflected database tables are given);
 * SQLAlchemy's class hierarchy of column types is a parameter, as is `str`
 * of a default's argument. The sub-commands themselves (create, list,
 * execute, status) print and touch the database; only which one runs is
 * modelled.
 */
module SaCommand {
  import opened Common

  /** `indent`: four spaces before every line. */
  function Indent(ls: seq<Str>): (r: seq<Str>)
    ensures |r| == |ls|
    ensures forall i :: 0 <= i < |ls| ==> r[i] == "    " + ls[i]
  {
    seq(|ls|, i requires 0 <= i < |ls| => "    " + ls[i])
  }

  /** Removing the four spaces again. */
  function Dedent(ls: seq<Str>): (r: seq<Str>)
    ensures |r| == |ls|
  {
    seq(|ls|, i requires 0 <= i < |ls| => if |ls[i]| >= 4 then ls[i][4..] else ls[i])
  }

  /** Indenting keeps every line, in order: dedenting gives them back, and indenting distributes over concatenation. */
  lemma IndentKeepsLines(ls: seq<Str>, more: seq<Str>)
    ensures Dedent(Indent(ls)) == ls
    ensures Indent(ls + more) == Indent(ls) + Indent(more)
  {
    assert forall i :: 0 <= i < |ls| ==> ("    " + ls[i])[4..] == ls[i];
  }

  /** A column type: its SQLAlchemy class name and length. */
  datatype ColType = ColType(cls: Str, length: Option<int>)

  /** A column's default: the default object (compared by identity) and its argument. */
  datatype ColumnDefault = ColumnDefault(id: nat, arg: Value)

  datatype Column = Column(name: Str, colType: ColType, primaryKey: bool, default: Option<ColumnDefault>, index: Option<bool>)

  /** `str(n)` for an integer, "None" for no length. */
  function LengthStr(n: Option<int>): (r: Str)
    ensures r != []
  {
    if n.None? then "None" else if n.value >= 0 then NatToStr(n.value) else "-" + NatToStr(-n.value)
  }

  /** Reflection cannot tell Unicode from String, so the model's type is compared as String (Text for UnicodeText). */
  function Reflectable(t: ColType): (r: ColType)
    ensures r.length == t.length
    ensures r.cls != "Unicode" && r.cls != "UnicodeText"
    ensures t.cls != "Unicode" && t.cls != "UnicodeText" ==> r == t
  {
    if t.cls == "Unicode" then ColType("String", t.length)
    else if t.cls == "UnicodeText" then ColType("Text", t.length)
    else t
  }

  /** The type check: a type change, or else for strings a length change. */
  function TypePart(pyc: Column, dbc: Column, isSubclass: (Str, Str) -> bool): (r: seq<Str>)
  {
    var pyt := Reflectable(pyc.colType);
    if !isSubclass(dbc.colType.cls, pyt.cls) then ["Change type to " + pyt.cls]
    else if isSubclass(pyt.cls, "String") && pyt.length != dbc.colType.length then ["Change length to " + LengthStr(pyt.length)]
    else []
  }

  function PrimaryKeyPart(pyc: Column, dbc: Column): (r: seq<Str>)
  {
    if dbc.primaryKey != pyc.primaryKey then [if pyc.primaryKey then "Make primary key" else "Remove primary key"] else []
  }

  function DefaultPart(pyc: Column, dbc: Column, show: Value -> Str): (r: seq<Str>)
  {
    if dbc.default.Some? && pyc.default.Some? && dbc.default != pyc.default then ["Change default to " + show(pyc.default.value.arg)]
    else []
  }

  function IndexPart(pyc: Column, dbc: Column): (r: seq<Str>)
  {
    if dbc.index.Some? && dbc.index != pyc.index then [if pyc.index == Some(true) then "Add index" else "Remove index"] else []
  }

  /** No difference between a model column and its database column. */
  predicate SameColumn(pyc: Column, dbc: Column, isSubclass: (Str, Str) -> bool)
  {
    var pyt := Reflectable(pyc.colType);
    isSubclass(dbc.colType.cls, pyt.cls) &&
    (isSubclass(pyt.cls, "String") ==> pyt.length == dbc.colType.length) &&
    dbc.primaryKey == pyc.primaryKey &&
    !(dbc.default.Some? && pyc.default.Some? && dbc.default != pyc.default) &&
    !(dbc.index.Some? && dbc.index != pyc.index)
  }

  /**
   * `compare_column`: the differences in type (or length), primary key,
   * default and index, at most one line each, none exactly when the columns
   * agree.
   */
  function CompareColumn(pyc: Column, dbc: Column, isSubclass: (Str, Str) -> bool, show: Value -> Str): (r: seq<Str>)
    ensures |r| <= 4
    ensures r == [] <==> SameColumn(pyc, dbc, isSubclass)
  {
    TypePart(pyc, dbc, isSubclass) + PrimaryKeyPart(pyc, dbc) + DefaultPart(pyc, dbc, show) + IndexPart(pyc, dbc)
  }

  /**
   * A column is reported with a type change or with a length change, never
   * both; a length only for String types; and a default only when both
   * columns have one.
   */
  lemma TypeOrLengthNeverBoth(pyc: Column, dbc: Column, isSubclass: (Str, Str) -> bool, show: Value -> Str)
    ensures var t := TypePart(pyc, dbc, isSubclass);
            |t| <= 1 &&
            (t != [] && StartsWith(t[0], "Change type to ") <==> !isSubclass(dbc.colType.cls, Reflectable(pyc.colType).cls)) &&
            (t != [] && !StartsWith(t[0], "Change type to ") ==> isSubclass(Reflectable(pyc.colType).cls, "String"))
    ensures DefaultPart(pyc, dbc, show) != [] ==> pyc.default.Some? && dbc.default.Some?
  {
    var t := TypePart(pyc, dbc, isSubclass);
    var pyt := Reflectable(pyc.colType);
    if t != [] && isSubclass(dbc.colType.cls, pyt.cls) {
      assert t[0] == "Change length to " + LengthStr(pyt.length);
      assert t[0][14] != "Change type to "[14];
    }
  }

  /** A column compared with itself shows no difference, whatever its default or index. */
  lemma ColumnMatchesItself(c: Column, isSubclass: (Str, Str) -> bool, show: Value -> Str)
    requires isSubclass(Reflectable(c.colType).cls, Reflectable(c.colType).cls)
    requires c.colType.cls != "Unicode" && c.colType.cls != "UnicodeText"
    ensures CompareColumn(c, c, isSubclass, show) == []
  {
  }

  // ---------------------------------------------------------------------
  // compare_table

  /** `dict((s.lower(), s) for s in dbt.columns.keys())`, with the column itself: the last of a name wins. */
  function DbIndex(dbCols: seq<Column>): (r: map<Str, Column>)
    ensures forall i :: 0 <= i < |dbCols| ==> Lower(dbCols[i].name) in r
    ensures forall k :: k in r ==> exists i :: 0 <= i < |dbCols| && Lower(dbCols[i].name) == k
    decreases |dbCols|
  {
    if dbCols == [] then map[]
    else
      var last := dbCols[|dbCols| - 1];
      var rest := DbIndex(dbCols[..|dbCols| - 1]);
      assert forall i :: 0 <= i < |dbCols| - 1 ==> dbCols[..|dbCols| - 1][i] == dbCols[i];
      rest[Lower(last.name) := last]
  }

  /** The lines for one model column given the database column its name matches, if any. */
  function ColumnEntries(pyc: Column, db: Option<Column>, isSubclass: (Str, Str) -> bool, show: Value -> Str): (r: seq<Str>)
    ensures db.None? ==> r == ["Add column " + pyc.name]
    ensures db.Some? && SameColumn(pyc, db.value, isSubclass) ==> r == []
    ensures db.Some? && !SameColumn(pyc, db.value, isSubclass) ==>
              r == ["Change column " + pyc.name] + Indent(CompareColumn(pyc, db.value, isSubclass, show))
  {
    if db.None? then ["Add column " + pyc.name]
    else
      var diff := CompareColumn(pyc, db.value, isSubclass, show);
      if diff != [] then ["Change column " + pyc.name] + Indent(diff) else []
  }

  /**
   * The model columns in order, each matched by lowercased name against the
   * database columns not yet matched: the lines and the columns left over.
   */
  function ModelEntries(pyCols: seq<Column>, dbcols: map<Str, Column>, isSubclass: (Str, Str) -> bool,
                        show: Value -> Str): (r: (seq<Str>, map<Str, Column>))
    decreases |pyCols|
  {
    if pyCols == [] then ([], dbcols)
    else
      var k := Lower(pyCols[0].name);
      var db := if k in dbcols then Some(dbcols[k]) else None;
      var rest := ModelEntries(pyCols[1..], dbcols - {k}, isSubclass, show);
      (ColumnEntries(pyCols[0], db, isSubclass, show) + rest.0, rest.1)
  }

  /** The lowercased names of the model's columns. */
  function LowerNames(cols: seq<Column>): (r: set<Str>)
    ensures forall i :: 0 <= i < |cols| ==> Lower(cols[i].name) in r
    decreases |cols|
  {
    if cols == [] then {} else {Lower(cols[0].name)} + LowerNames(cols[1..])
  }

  /**
   * Every database column a model column matches is consumed: the columns
   * left over are exactly those no model column names.
   */
  lemma {:induction false} LeftOverUnmatched(pyCols: seq<Column>, dbcols: map<Str, Column>,
                                             isSubclass: (Str, Str) -> bool, show: Value -> Str)
    ensures ModelEntries(pyCols, dbcols, isSubclass, show).1 == dbcols - LowerNames(pyCols)
    decreases |pyCols|
  {
    if pyCols != [] {
      var k := Lower(pyCols[0].name);
      LeftOverUnmatched(pyCols[1..], dbcols - {k}, isSubclass, show);
      assert dbcols - {k} - LowerNames(pyCols[1..]) == dbcols - LowerNames(pyCols);
    }
  }

  /**
   * The order `for dbcol in dbcols` visits the columns left over, taken as
   * the database's column order, each lowercased name once.
   */
  function RemovalNames(dbCols: seq<Column>, left: set<Str>): (r: seq<Str>)
    ensures forall i :: 0 <= i < |r| ==> r[i] in left
    ensures forall i, j :: 0 <= i < j < |r| ==> r[i] != r[j]
    ensures forall i :: 0 <= i < |dbCols| && Lower(dbCols[i].name) in left ==> Lower(dbCols[i].name) in r
    decreases |dbCols|
  {
    if dbCols == [] then []
    else
      var k := Lower(dbCols[0].name);
      if k in left then [k] + RemovalNames(dbCols[1..], left - {k})
      else RemovalNames(dbCols[1..], left)
  }

  function RemoveEntries(names: seq<Str>): (r: seq<Str>)
    ensures |r| == |names|
    ensures forall i :: 0 <= i < |names| ==> r[i] == "Remove column " + names[i]
  {
    seq(|names|, i requires 0 <= i < |names| => "Remove column " + names[i])
  }

  /**
   * `compare_table`: the model columns' lines in model order, then one
   * "Remove column" line for every database column no model column matched.
   */
  function CompareTableSpec(pyCols: seq<Column>, dbCols: seq<Column>, isSubclass: (Str, Str) -> bool,
                            show: Value -> Str): (r: seq<Str>)
  {
    var (lines, left) := ModelEntries(pyCols, DbIndex(dbCols), isSubclass, show);
    lines + RemoveEntries(RemovalNames(dbCols, left.Keys))
  }

  /**
   * The removals in `compare_table` name exactly the database columns whose
   * lowercased name no model column has, each once.
   */
  lemma RemovedIffUnmatched(pyCols: seq<Column>, dbCols: seq<Column>, isSubclass: (Str, Str) -> bool, show: Value -> Str)
    ensures var left := ModelEntries(pyCols, DbIndex(dbCols), isSubclass, show).1;
            var names := RemovalNames(dbCols, left.Keys);
            (forall i :: 0 <= i < |dbCols| ==> (Lower(dbCols[i].name) in names <==> Lower(dbCols[i].name) !in LowerNames(pyCols))) &&
            (forall i :: 0 <= i < |names| ==> names[i] in DbIndex(dbCols) && names[i] !in LowerNames(pyCols))
  {
    LeftOverUnmatched(pyCols, DbIndex(dbCols), isSubclass, show);
  }

  /** A table compared with itself, when every column matches itself, shows no difference. */
  lemma {:induction false} TableMatchesItselfEntries(cols: seq<Column>, dbcols: map<Str, Column>,
                                                     isSubclass: (Str, Str) -> bool, show: Value -> Str)
    requires forall i :: 0 <= i < |cols| ==> Lower(cols[i].name) in dbcols && SameColumn(cols[i], dbcols[Lower(cols[i].name)], isSubclass)
    requires forall i, j :: 0 <= i < j < |cols| ==> Lower(cols[i].name) != Lower(cols[j].name)
    ensures ModelEntries(cols, dbcols, isSubclass, show).0 == []
    decreases |cols|
  {
    if cols != [] {
      var k := Lower(cols[0].name);
      assert forall i :: 1 <= i < |cols| ==> cols[i] == cols[1..][i - 1];
      TableMatchesItselfEntries(cols[1..], dbcols - {k}, isSubclass, show);
    }
  }

  /** The column lines of one model column, built by `compare_table`'s loop body. */
  method ColumnLines(pyc: Column, dbcols: map<Str, Column>, isSubclass: (Str, Str) -> bool, show: Value -> Str)
    returns (lines: seq<Str>, left: map<Str, Column>)
    ensures lines == ColumnEntries(pyc, if Lower(pyc.name) in dbcols then Some(dbcols[Lower(pyc.name)]) else None, isSubclass, show)
    ensures left == dbcols - {Lower(pyc.name)}
  {
    var name := Lower(pyc.name);
    lines := [];
    left := dbcols;
    if name in left {
      var ret := CompareColumn(pyc, left[name], isSubclass, show);
      if ret != [] {
        lines := lines + ["Change column " + pyc.name];
        lines := lines + Indent(ret);
      }
      left := left - {name};
    } else {
      lines := lines + ["Add column " + pyc.name];
    }
  }

  /** `compare_table`'s first loop: the model columns' lines and the database columns left over. */
  method MatchColumns(pyCols: seq<Column>, dbcols0: map<Str, Column>, isSubclass: (Str, Str) -> bool, show: Value -> Str)
    returns (rc: seq<Str>, dbcols: map<Str, Column>)
    ensures (rc, dbcols) == ModelEntries(pyCols, dbcols0, isSubclass, show)
  {
    rc := [];
    dbcols := dbcols0;
    var i := 0;
    while i < |pyCols|
      invariant 0 <= i <= |pyCols|
      invariant ModelEntries(pyCols, dbcols0, isSubclass, show).0 == rc + ModelEntries(pyCols[i..], dbcols, isSubclass, show).0
      invariant ModelEntries(pyCols, dbcols0, isSubclass, show).1 == ModelEntries(pyCols[i..], dbcols, isSubclass, show).1
    {
      var lines, left := ColumnLines(pyCols[i], dbcols, isSubclass, show);
      MatchColumnsStep(pyCols, i, dbcols0, dbcols, rc, lines, left, isSubclass, show);
      rc := rc + lines;
      dbcols := left;
      i := i + 1;
    }
    assert pyCols[i..] == [];
    assert ModelEntries(pyCols[i..], dbcols, isSubclass, show) == ([], dbcols);
    assert rc + [] == rc;
  }

  /** One turn of `compare_table`'s first loop keeps `MatchColumns`' invariant. */
  lemma MatchColumnsStep(pyCols: seq<Column>, i: nat, dbcols0: map<Str, Column>, dbcols: map<Str, Column>,
                         rc: seq<Str>, lines: seq<Str>, left: map<Str, Column>,
                         isSubclass: (Str, Str) -> bool, show: Value -> Str)
    requires i < |pyCols|
    requires ModelEntries(pyCols, dbcols0, isSubclass, show).0 == rc + ModelEntries(pyCols[i..], dbcols, isSubclass, show).0
    requires ModelEntries(pyCols, dbcols0, isSubclass, show).1 == ModelEntries(pyCols[i..], dbcols, isSubclass, show).1
    requires lines == ColumnEntries(pyCols[i], if Lower(pyCols[i].name) in dbcols then Some(dbcols[Lower(pyCols[i].name)]) else None, isSubclass, show)
    requires left == dbcols - {Lower(pyCols[i].name)}
    ensures ModelEntries(pyCols, dbcols0, isSubclass, show).0 == (rc + lines) + ModelEntries(pyCols[i + 1..], left, isSubclass, show).0
    ensures ModelEntries(pyCols, dbcols0, isSubclass, show).1 == ModelEntries(pyCols[i + 1..], left, isSubclass, show).1
  {
    var tail := pyCols[i..];
    assert tail[0] == pyCols[i] && tail[1..] == pyCols[i + 1..];
    ModelEntriesStep(tail, dbcols, isSubclass, show);
    var rest := ModelEntries(pyCols[i + 1..], left, isSubclass, show).0;
    AppendAssoc(rc, lines, rest);
  }

  /** One step of `ModelEntries`. */
  lemma ModelEntriesStep(pyCols: seq<Column>, dbcols: map<Str, Column>, isSubclass: (Str, Str) -> bool, show: Value -> Str)
    requires pyCols != []
    ensures var k := Lower(pyCols[0].name);
            var rest := ModelEntries(pyCols[1..], dbcols - {k}, isSubclass, show);
            ModelEntries(pyCols, dbcols, isSubclass, show) ==
            (ColumnEntries(pyCols[0], if k in dbcols then Some(dbcols[k]) else None, isSubclass, show) + rest.0, rest.1)
  {
  }

  /** `compare_table`'s second loop: a removal line for each name. */
  method AppendRemovals(rc0: seq<Str>, names: seq<Str>) returns (rc: seq<Str>)
    ensures rc == rc0 + RemoveEntries(names)
  {
    rc := rc0;
    var j := 0;
    while j < |names|
      invariant 0 <= j <= |names|
      invariant rc == rc0 + RemoveEntries(names[..j])
    {
      assert RemoveEntries(names[..j + 1]) == RemoveEntries(names[..j]) + ["Remove column " + names[j]];
      rc := rc + ["Remove column " + names[j]];
      j := j + 1;
    }
    assert names[..|names|] == names;
  }

  /** `compare_table(pyt, dbt)`, with the columns of each. */
  method CompareTable(pyCols: seq<Column>, dbCols: seq<Column>, isSubclass: (Str, Str) -> bool, show: Value -> Str)
    returns (rc: seq<Str>)
    ensures rc == CompareTableSpec(pyCols, dbCols, isSubclass, show)
  {
    var lines, left := MatchColumns(pyCols, DbIndex(dbCols), isSubclass, show);
    rc := AppendRemovals(lines, RemovalNames(dbCols, left.Keys));
  }

  // ---------------------------------------------------------------------
  // compare_metadata

  datatype Table = Table(fullname: Str, columns: seq<Column>)

  /** The lines for one model table, given its reflection from the database (None: no such table). */
  function TableEntries(pyt: Table, dbt: Option<Table>, isSubclass: (Str, Str) -> bool, show: Value -> Str): (r: seq<Str>)
  {
    if dbt.None? then ["Create table " + pyt.fullname, ""]
    else
      var ret := CompareTableSpec(pyt.columns, dbt.value.columns, isSubclass, show);
      if ret != [] then ["Change table " + pyt.fullname] + Indent(ret) + [""] else []
  }

  /** The database's reflection of the table named `name`, if there is one. */
  function Lookup(dbTables: map<Str, Table>, name: Str): (r: Option<Table>)
    ensures r.Some? <==> name in dbTables
    ensures r.Some? ==> r.value == dbTables[name]
  {
    if name in dbTables then Some(dbTables[name]) else None
  }

  /** The model's tables in order, each looked up in the database by its full name. */
  function MetadataEntries(pyTables: seq<Table>, dbTables: map<Str, Table>, isSubclass: (Str, Str) -> bool,
                           show: Value -> Str): (r: seq<Str>)
    decreases |pyTables|
  {
    if pyTables == [] then []
    else
      var t := pyTables[0];
      TableEntries(t, Lookup(dbTables, t.fullname), isSubclass, show) +
      MetadataEntries(pyTables[1..], dbTables, isSubclass, show)
  }

  /**
   * A database holding none of the model's tables gets a "Create table"
   * line and an empty line for each, in model order.
   */
  lemma {:induction false} EmptyDatabaseCreatesAll(pyTables: seq<Table>, isSubclass: (Str, Str) -> bool, show: Value -> Str)
    ensures var r := MetadataEntries(pyTables, map[], isSubclass, show);
            |r| == 2 * |pyTables| &&
            forall i :: 0 <= i < |pyTables| ==> r[2 * i] == "Create table " + pyTables[i].fullname && r[2 * i + 1] == ""
    decreases |pyTables|
  {
    if pyTables != [] {
      EmptyDatabaseCreatesAll(pyTables[1..], isSubclass, show);
      var r := MetadataEntries(pyTables, map[], isSubclass, show);
      var rest := MetadataEntries(pyTables[1..], map[], isSubclass, show);
      assert r == ["Create table " + pyTables[0].fullname, ""] + rest;
      forall i | 1 <= i < |pyTables|
        ensures r[2 * i] == "Create table " + pyTables[i].fullname && r[2 * i + 1] == ""
      {
        assert r[2 * i] == rest[2 * (i - 1)];
        assert r[2 * i + 1] == rest[2 * (i - 1) + 1];
        assert pyTables[i] == pyTables[1..][i - 1];
      }
    }
  }

  /** Tables that match the database contribute nothing. */
  lemma {:induction false} MatchingTablesSilent(pyTables: seq<Table>, dbTables: map<Str, Table>,
                                                isSubclass: (Str, Str) -> bool, show: Value -> Str)
    requires forall i :: 0 <= i < |pyTables| ==>
               (pyTables[i].fullname in dbTables &&
                CompareTableSpec(pyTables[i].columns, dbTables[pyTables[i].fullname].columns, isSubclass, show) == [])
    ensures MetadataEntries(pyTables, dbTables, isSubclass, show) == []
    decreases |pyTables|
  {
    if pyTables != [] {
      assert forall i :: 1 <= i < |pyTables| ==> pyTables[i] == pyTables[1..][i - 1];
      MatchingTablesSilent(pyTables[1..], dbTables, isSubclass, show);
    }
  }

  /** One step of `MetadataEntries`, from table `i`. */
  lemma MetadataStep(pyTables: seq<Table>, i: nat, dbTables: map<Str, Table>, isSubclass: (Str, Str) -> bool, show: Value -> Str)
    requires i < |pyTables|
    ensures var t := pyTables[i];
            MetadataEntries(pyTables[i..], dbTables, isSubclass, show) ==
            TableEntries(t, Lookup(dbTables, t.fullname), isSubclass, show) +
            MetadataEntries(pyTables[i + 1..], dbTables, isSubclass, show)
  {
    assert pyTables[i..][0] == pyTables[i] && pyTables[i..][1..] == pyTables[i + 1..];
  }

  /** The lines `compare_metadata`'s loop body adds for one table. */
  method TableLines(pyt: Table, dbt: Option<Table>, isSubclass: (Str, Str) -> bool, show: Value -> Str) returns (entries: seq<Str>)
    ensures entries == TableEntries(pyt, dbt, isSubclass, show)
  {
    entries := [];
    if dbt.None? {
      entries := ["Create table " + pyt.fullname, ""];
    } else {
      var ret := CompareTable(pyt.columns, dbt.value.columns, isSubclass, show);
      if ret != [] {
        entries := ["Change table " + pyt.fullname];
        entries := entries + Indent(ret) + [""];
      }
    }
  }

  /** The loop invariant of `CompareMetadata` carried over one table. */
  lemma MetadataInvariantStep(pyTables: seq<Table>, i: nat, dbTables: map<Str, Table>, isSubclass: (Str, Str) -> bool,
                              show: Value -> Str, rc: seq<Str>, entries: seq<Str>)
    requires i < |pyTables|
    requires MetadataEntries(pyTables, dbTables, isSubclass, show) == rc + MetadataEntries(pyTables[i..], dbTables, isSubclass, show)
    requires entries == TableEntries(pyTables[i], Lookup(dbTables, pyTables[i].fullname), isSubclass, show)
    ensures MetadataEntries(pyTables, dbTables, isSubclass, show) == (rc + entries) + MetadataEntries(pyTables[i + 1..], dbTables, isSubclass, show)
  {
    MetadataStep(pyTables, i, dbTables, isSubclass, show);
  }

  /** `compare_metadata(pym, dbm)` with the database's tables by full name. */
  method CompareMetadata(pyTables: seq<Table>, dbTables: map<Str, Table>, isSubclass: (Str, Str) -> bool, show: Value -> Str)
    returns (rc: seq<Str>)
    ensures rc == MetadataEntries(pyTables, dbTables, isSubclass, show)
  {
    assert pyTables[0..] == pyTables;
    rc := [];
    var i := 0;
    while i < |pyTables|
      invariant 0 <= i <= |pyTables|
      invariant MetadataEntries(pyTables, dbTables, isSubclass, show) == rc + MetadataEntries(pyTables[i..], dbTables, isSubclass, show)
    {
      var pyt := pyTables[i];
      var dbt := Lookup(dbTables, pyt.fullname);
      var entries := TableLines(pyt, dbt, isSubclass, show);
      MetadataInvariantStep(pyTables, i, dbTables, isSubclass, show, rc, entries);
      rc := rc + entries;
      i := i + 1;
    }
    assert pyTables[i..] == [];
  }

  // ---------------------------------------------------------------------
  // sacommand

  /** What `sacommand(command, args)` does. */
  datatype Action = NoEngine | Help | Status | Create | ListTables | Execute | NoAction | Raises(exc: Exc)

  /**
   * The dispatch as written: without SQLAlchemy every command but help
   * reports the missing dependency; 'list' calls the builtin `list` with two
   * arguments, which raises TypeError; 'execute' is matched under the
   * misspelling 'excecute', whose function does not exist.
   */
  function DispatchAsWritten(command: Str, noSqlalchemy: bool): (r: Action)
    ensures command != [] && command != "help" && noSqlalchemy ==> r == NoEngine
  {
    if command != [] && command != "help" && noSqlalchemy then NoEngine
    else if command == "help" then Help
    else if command == "status" then Status
    else if command == "create" then Create
    else if command == "list" then Raises(TypeError("list() takes at most 1 argument (2 given)"))
    else if command == "excecute" then Raises(NameError("excecute"))
    else NoAction
  }

  /** As written, 'list' fails and 'execute' does nothing, with SQLAlchemy installed. */
  lemma ListAndExecuteBroken()
    ensures DispatchAsWritten("list", false).Raises? && DispatchAsWritten("list", false).exc.TypeError?
    ensures DispatchAsWritten("execute", false) == NoAction
    ensures DispatchAsWritten("excecute", false) == Raises(NameError("excecute"))
  {
    assert "list" != "help" && "list" != "status" && "list" != "create" by {
      assert "list"[0] != "help"[0] && "list"[0] != "status"[0] && "list"[0] != "create"[0];
    }
    assert "execute" != "excecute" by { assert "execute"[2] != "excecute"[2]; }
    assert "execute" != "help" && "execute" != "status" && "execute" != "create" && "execute" != "list" by {
      assert "execute"[0] != "help"[0] && "execute"[0] != "status"[0] && "execute"[0] != "create"[0] && "execute"[0] != "list"[0];
    }
    assert "excecute" != "help" && "excecute" != "status" && "excecute" != "create" && "excecute" != "list" by {
      assert "excecute"[0] != "help"[0] && "excecute"[0] != "status"[0] && "excecute"[0] != "create"[0] && "excecute"[0] != "list"[0];
    }
  }

  /**
   * The dispatch as the help text advertises it: create, execute, help,
   * list and status each run their sub-command; anything else does nothing.
   */
  function Dispatch(command: Str, noSqlalchemy: bool): (r: Action)
    ensures command != [] && command != "help" && noSqlalchemy ==> r == NoEngine
    ensures !noSqlalchemy ==> !r.Raises? && r != NoEngine
  {
    if command != [] && command != "help" && noSqlalchemy then NoEngine
    else if command == "help" then Help
    else if command == "status" then Status
    else if command == "create" then Create
    else if command == "list" then ListTables
    else if command == "execute" then Execute
    else NoAction
  }

  /** Every advertised sub-command runs, and help runs even without SQLAlchemy. */
  lemma AdvertisedCommandsRun(noSqlalchemy: bool)
    ensures Dispatch("list", false) == ListTables && Dispatch("execute", false) == Execute
    ensures Dispatch("status", false) == Status && Dispatch("create", false) == Create
    ensures Dispatch("help", noSqlalchemy) == Help
  {
    assert "list" != "help" && "list" != "status" && "list" != "create" by {
      assert "list"[0] != "help"[0] && "list"[0] != "status"[0] && "list"[0] != "create"[0];
    }
    assert "execute" != "help" && "execute" != "status" && "execute" != "create" && "execute" != "list" by {
      assert "execute"[0] != "help"[0] && "execute"[0] != "status"[0] && "execute"[0] != "create"[0] && "execute"[0] != "list"[0];
    }
    assert "status" != "help" by { assert "status"[0] != "help"[0]; }
    assert "create" != "help" && "create" != "status" by { assert "create"[0] != "help"[0] && "create"[0] != "status"[0]; }
  }
}
