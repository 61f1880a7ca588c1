/**
 * iC3_DatabaseTable.cpp: the ordered list of column definitions of a table,
 * the CREATE TABLE statement and CSV header built from it, the last-error
 * message, and the boolean and string SQL literal helpers.
 */
module DatabaseTable {
  import opened Wrappers

  /** iC3_DatabaseColumnDef: a column name, an SQLite data type and its constraints. */
  datatype ColumnDef = ColumnDef(name: string, dataType: string, constraints: string)

  const CreateTablePrefix: string := "CREATE TABLE IF NOT EXISTS "

  // ---------------------------------------------------------------------
  // Reference definitions
  // ---------------------------------------------------------------------

  /** parts separated by sep, with no separator before the first or after the last. */
  function Join(parts: seq<string>, sep: string): string
    requires |parts| > 0
  {
    if |parts| == 1 then parts[0] else parts[0] + sep + Join(parts[1..], sep)
  }

  /** Every part followed by sep: what the loops have built after their first k rounds. */
  function Terminated(parts: seq<string>, sep: string): string {
    if parts == [] then "" else Terminated(parts[..|parts| - 1], sep) + parts[|parts| - 1] + sep
  }

  function TotalLength(parts: seq<string>): nat {
    if parts == [] then 0 else |parts[0]| + TotalLength(parts[1..])
  }

  /** "n t c" for one column. */
  function ColumnClause(c: ColumnDef): string {
    c.name + " " + c.dataType + " " + c.constraints
  }

  function Clauses(columns: seq<ColumnDef>): (r: seq<string>)
    ensures |r| == |columns| && forall i :: 0 <= i < |columns| ==> r[i] == ColumnClause(columns[i])
  {
    if columns == [] then [] else [ColumnClause(columns[0])] + Clauses(columns[1..])
  }

  function Names(columns: seq<ColumnDef>): (r: seq<string>)
    ensures |r| == |columns| && forall i :: 0 <= i < |columns| ==> r[i] == columns[i].name
  {
    if columns == [] then [] else [columns[0].name] + Names(columns[1..])
  }

  /** The statement getTableCreationSQL is meant to build. */
  function TableCreationSql(tableName: string, columns: seq<ColumnDef>): string
    requires |columns| > 0
  {
    CreateTablePrefix + tableName + " ( " + Join(Clauses(columns), ", ") + " );"
  }

  /** The header get_CSV_FileColumnHeaders is meant to build. */
  function CsvHeader(columns: seq<ColumnDef>): string
    requires |columns| > 0
  {
    Join(Names(columns), ", ")
  }

  // ---------------------------------------------------------------------
  // Properties of the reference definitions
  // ---------------------------------------------------------------------

  /** The loops' accumulator, completed with the last part, is the join. */
  lemma {:induction false} TerminatedThenLast(parts: seq<string>, sep: string)
    requires |parts| > 0
    ensures Terminated(parts[..|parts| - 1], sep) + parts[|parts| - 1] == Join(parts, sep)
    decreases |parts|
  {
    if |parts| > 1 {
      var n := |parts|;
      var init := parts[..n - 1];
      TerminatedThenLast(parts[1..], sep);
      TerminatedCons(init, sep);
      assert init[1..] == parts[1..][..n - 2];
      assert parts[1..][n - 2] == parts[n - 1];
    }
  }

  lemma {:induction false} TerminatedCons(parts: seq<string>, sep: string)
    requires |parts| > 0
    ensures Terminated(parts, sep) == parts[0] + sep + Terminated(parts[1..], sep)
    decreases |parts|
  {
    var n := |parts|;
    if n > 1 {
      TerminatedCons(parts[..n - 1], sep);
      assert parts[..n - 1][1..] == parts[1..][..n - 2];
      assert parts[..n - 1][0] == parts[0];
      assert parts[1..][n - 2] == parts[n - 1];
    } else {
      assert parts[..0] == [] && parts[1..] == [];
    }
  }

  /** The join holds every part's characters plus one separator between neighbours. */
  lemma {:induction false} JoinLength(parts: seq<string>, sep: string)
    requires |parts| > 0
    ensures |Join(parts, sep)| == TotalLength(parts) + (|parts| - 1) * |sep|
    decreases |parts|
  {
    if |parts| > 1 {
      JoinLength(parts[1..], sep);
    } else {
      assert parts[1..] == [];
    }
  }

  /** The join starts with the first part, ends with the last, and each part is preceded by the
      join of those before it and a separator. */
  lemma {:induction false} JoinOrder(parts: seq<string>, sep: string, k: nat)
    requires 0 < k < |parts|
    ensures Join(parts, sep) == Join(parts[..k], sep) + sep + Join(parts[k..], sep)
    decreases k
  {
    if k > 1 {
      JoinOrder(parts[1..], sep, k - 1);
      assert parts[1..][..k - 1] == parts[..k][1..];
      assert parts[1..][k - 1..] == parts[k..];
    } else {
      assert parts[..1] == [parts[0]];
      assert parts[1..] == parts[k..];
    }
  }

  /** The join ends with the last part, with no separator after it. */
  lemma JoinEndsWithLast(parts: seq<string>, sep: string)
    requires |parts| > 1
    ensures Join(parts, sep) == Join(parts[..|parts| - 1], sep) + sep + parts[|parts| - 1]
  {
    JoinOrder(parts, sep, |parts| - 1);
    assert parts[|parts| - 1..] == [parts[|parts| - 1]];
  }

  /** The statement's framing: the fixed prefix and table name, then the clauses, then " );". */
  lemma TableCreationShape(tableName: string, columns: seq<ColumnDef>)
    requires |columns| > 0
    ensures var sql := TableCreationSql(tableName, columns);
      var head := CreateTablePrefix + tableName + " ( ";
      && sql[..|head|] == head
      && sql[|sql| - 3..] == " );"
      && |sql| == |head| + TotalLength(Clauses(columns)) + 2 * (|columns| - 1) + 3
  {
    JoinLength(Clauses(columns), ", ");
  }

  /** One column: no separator at all. */
  lemma SingleColumn(tableName: string, c: ColumnDef)
    ensures TableCreationSql(tableName, [c]) == CreateTablePrefix + tableName + " ( " + ColumnClause(c) + " );"
    ensures CsvHeader([c]) == c.name
  {
  }

  lemma ClausesOfAppend(columns: seq<ColumnDef>, c: ColumnDef)
    ensures Clauses(columns + [c]) == Clauses(columns) + [ColumnClause(c)]
    ensures Names(columns + [c]) == Names(columns) + [c.name]
  {
  }

  lemma JoinAppend(parts: seq<string>, last: string, sep: string)
    requires |parts| > 0
    ensures Join(parts + [last], sep) == Join(parts, sep) + sep + last
  {
    var all := parts + [last];
    JoinEndsWithLast(all, sep);
    assert all[..|all| - 1] == parts;
  }

  /** Adding a column at the end appends ", " and its clause before the closing " );". */
  lemma AppendColumn(tableName: string, columns: seq<ColumnDef>, c: ColumnDef)
    requires |columns| > 0
    ensures TableCreationSql(tableName, columns + [c]) ==
            CreateTablePrefix + tableName + " ( " + (Join(Clauses(columns), ", ") + ", " + ColumnClause(c)) + " );"
    ensures CsvHeader(columns + [c]) == CsvHeader(columns) + ", " + c.name
  {
    ClausesOfAppend(columns, c);
    JoinAppend(Clauses(columns), ColumnClause(c), ", ");
    JoinAppend(Names(columns), c.name, ", ");
  }

  /** One round of the loops: the accumulator grows by the next part and a separator. */
  lemma AccumulateStep(head: string, parts: seq<string>, k: nat, sep: string)
    requires k < |parts|
    ensures head + Terminated(parts[..k], sep) + parts[k] + sep == head + Terminated(parts[..k + 1], sep)
  {
    assert parts[..k + 1][..k] == parts[..k];
  }

  /** The last part and the closing text complete the join. */
  lemma AccumulateFinish(head: string, parts: seq<string>, close: string, sep: string)
    requires |parts| > 0
    ensures head + Terminated(parts[..|parts| - 1], sep) + parts[|parts| - 1] + close == head + Join(parts, sep) + close
  {
    TerminatedThenLast(parts, sep);
  }

  // ---------------------------------------------------------------------
  // Literal helpers
  // ---------------------------------------------------------------------

  /** SQL_FormatBoolean. */
  function SqlFormatBoolean(value: bool): (s: string)
    ensures |s| == 1
    ensures s == "1" <==> value
    ensures s == "0" <==> !value
  {
    if value then "1" else "0"
  }

  /** Reads a boolean literal back. */
  function SqlParseBoolean(s: string): Option<bool> {
    if s == "1" then Some(true) else if s == "0" then Some(false) else None
  }

  lemma SqlBooleanRoundTrip(value: bool)
    ensures SqlParseBoolean(SqlFormatBoolean(value)) == Some(value)
  {
  }

  /** SQL_FormatString: the value between single quotes, with embedded quotes left as they are. */
  function SqlFormatString(value: string): (s: string)
    ensures |s| == |value| + 2
    ensures s[0] == '\'' && s[|s| - 1] == '\''
    ensures s[1..|s| - 1] == value
  {
    "'" + value + "'"
  }

  /** Strips the quotes of a string literal. */
  function SqlUnquote(s: string): Option<string> {
    if |s| >= 2 && s[0] == '\'' && s[|s| - 1] == '\'' then Some(s[1..|s| - 1]) else None
  }

  lemma SqlStringRoundTrip(value: string)
    ensures SqlUnquote(SqlFormatString(value)) == Some(value)
  {
  }

  /** An embedded quote is not escaped, so the literal is ambiguous as SQL. */
  lemma SqlStringKeepsQuotes()
    ensures SqlFormatString("it's") == "'it's'"
  {
  }

  // ---------------------------------------------------------------------
  // The table
  // ---------------------------------------------------------------------

  class Table {
    var columns: seq<ColumnDef>
    var lastError: string

    constructor ()
      ensures columns == [] && lastError == ""
    {
      columns := [];
      lastError := "";
    }

    /** A null column (None) is refused; otherwise the column is inserted at index. */
    method AddColumnDef(index: int, column: Option<ColumnDef>) returns (added: bool)
      requires column.Some? ==> 0 <= index <= |columns|
      modifies this`columns
      ensures added <==> column.Some?
      ensures !added ==> columns == old(columns)
      ensures added ==> columns == old(columns)[..index] + [column.value] + old(columns)[index..]
      ensures added ==> |columns| == |old(columns)| + 1 && columns[index] == column.value
      ensures added ==> GetColumnDef(index) == column.value
      ensures added ==> forall i :: 0 <= i < index ==> columns[i] == old(columns)[i]
      ensures added ==> forall i :: index < i < |columns| ==> columns[i] == old(columns)[i - 1]
    {
      if column.Some? {
        columns := columns[..index] + [column.value] + columns[index..];
        return true;
      }
      return false;
    }

    function GetColumnDef(index: int): (c: ColumnDef)
      reads this
      requires 0 <= index < |columns|
      ensures c == columns[index]
    {
      columns[index]
    }

    method GetTableCreationSql(tableName: string) returns (sql: string)
      requires |columns| > 0
      ensures sql == TableCreationSql(tableName, columns)
    {
      var head := CreateTablePrefix + tableName + " ( ";
      ghost var clauses := Clauses(columns);
      sql := head;
      var index := 0;
      while index < |columns| - 1
        invariant 0 <= index <= |columns| - 1
        invariant sql == head + Terminated(clauses[..index], ", ")
      {
        var c := GetColumnDef(index);
        AccumulateStep(head, clauses, index, ", ");
        sql := sql + ColumnClause(c) + ", ";
        index := index + 1;
      }
      var c := GetColumnDef(index);
      AccumulateFinish(head, clauses, " );", ", ");
      sql := sql + ColumnClause(c) + " );";
    }

    method GetCsvFileColumnHeaders() returns (header: string)
      requires |columns| > 0
      ensures header == CsvHeader(columns)
    {
      ghost var names := Names(columns);
      header := "";
      var index := 0;
      while index < |columns| - 1
        invariant 0 <= index <= |columns| - 1
        invariant header == Terminated(names[..index], ", ")
      {
        assert names[..index + 1][..index] == names[..index];
        var c := GetColumnDef(index);
        header := header + c.name + ", ";
        index := index + 1;
      }
      var c := GetColumnDef(index);
      header := header + c.name;
      TerminatedThenLast(names, ", ");
    }

    function GetLastError(): (message: string)
      reads this
      ensures message == lastError
    {
      lastError
    }

    method SetLastError(message: string)
      modifies this`lastError
      ensures GetLastError() == message
    {
      lastError := message;
    }

    method ClearLastError()
      modifies this`lastError
      ensures GetLastError() == ""
    {
      lastError := "";
    }
  }
}
