/**
  The relational access adapter: its configuration and equality, the
  connection string it builds, and the conversion of a query result into CSV
  records, which fills the column datatype map as a side effect.
 */
module RDBAccess {
  import opened Wrappers
  import opened ConnectionStrings
  import opened ColumnTypes

  /** Column metadata: the label (possibly null) and the vendor type name. */
  datatype Column = Column(columnLabel: Option<string>, typeName: string)

  /**
    A query result as the driver delivers it: its columns, and per row the
    value `getString` returns for each column, in column order.
   */
  datatype ResultSet = ResultSet(columns: seq<Column>, rows: seq<seq<Option<string>>>)

  /** Every row has one value per column. */
  predicate RowsFit(columns: seq<Column>, rows: seq<seq<Option<string>>>)
  {
    forall k :: 0 <= k < |rows| ==> |rows[k]| == |columns|
  }

  /** A result set whose rows all have one value per column. */
  predicate WellFormed(rs: ResultSet)
  {
    RowsFit(rs.columns, rs.rows)
  }

  /** The CSV content: a header and the records, a null entry printed as an empty field. */
  datatype CsvTable = CsvTable(header: seq<string>, records: seq<seq<Option<string>>>)

  /** The datatype inferred for a column. */
  function DataTypeOf(c: Column): Option<string>
  {
    ColumnDataType(c.typeName)
  }

  /** The header `getCSVHeader` produces: one entry per column, never null or empty. */
  function Header(columns: seq<Column>): (h: seq<string>)
    ensures |h| == |columns|
    ensures forall i :: 0 <= i < |columns| ==> h[i] == HeaderLabel(columns[i].columnLabel)
  {
    seq(|columns|, i requires 0 <= i < |columns| => HeaderLabel(columns[i].columnLabel))
  }

  /** Position of the first column, from `i` on, whose value cannot be normalised, or `|columns|`. */
  function FirstFailure(columns: seq<Column>, row: seq<Option<string>>, i: nat): (k: nat)
    requires |row| == |columns| && i <= |columns|
    ensures i <= k <= |columns|
    ensures forall j :: i <= j < k ==> NormalizeData(row[j], DataTypeOf(columns[j])).Ok?
    ensures k < |columns| ==> NormalizeData(row[k], DataTypeOf(columns[k])).Err?
    decreases |columns| - i
  {
    if i == |columns| then i
    else if NormalizeData(row[i], DataTypeOf(columns[i])).Err? then i
    else FirstFailure(columns, row, i + 1)
  }

  /** The record for one row: every value normalised by its column's datatype. */
  function NormalizedRow(columns: seq<Column>, row: seq<Option<string>>): Result<seq<Option<string>>, Exception>
    requires |row| == |columns|
  {
    if FirstFailure(columns, row, 0) < |columns| then Err(NullPointerException)
    else Ok(seq(|columns|, i requires 0 <= i < |columns| => NormalizeData(row[i], DataTypeOf(columns[i])).value))
  }

  /** The records for all rows, or the exception the first bad row raises. */
  function Records(columns: seq<Column>, rows: seq<seq<Option<string>>>): (r: Result<seq<seq<Option<string>>>, Exception>)
    requires RowsFit(columns, rows)
    ensures r.Ok? ==> |r.value| == |rows|
  {
    if rows == [] then Ok([])
    else
      match Records(columns, rows[..|rows| - 1])
      case Err(e) => Err(e)
      case Ok(earlier) =>
        match NormalizedRow(columns, rows[|rows| - 1])
        case Err(e) => Err(e)
        case Ok(last) => Ok(earlier + [last])
  }

  /** The datatype map after recording the first `n` columns: label to datatype, for typed columns only. */
  function RecordDataTypes(m: map<Option<string>, string>, columns: seq<Column>, n: nat): (r: map<Option<string>, string>)
    requires n <= |columns|
    ensures m.Keys <= r.Keys
  {
    if n == 0 then m
    else
      var before := RecordDataTypes(m, columns, n - 1);
      var dataType := DataTypeOf(columns[n - 1]);
      if dataType.Some? then before[columns[n - 1].columnLabel := dataType.value] else before
  }

  /**
    The datatype map after converting `row` while recording: its columns up to
    and including the one that raised, if one did.
   */
  function RowDataTypes(m: map<Option<string>, string>, columns: seq<Column>, row: seq<Option<string>>): map<Option<string>, string>
    requires |row| == |columns|
  {
    var k := FirstFailure(columns, row, 0);
    RecordDataTypes(m, columns, if k < |columns| then k + 1 else |columns|)
  }

  /** The datatype map after a conversion: only the first row records anything. */
  function DataTypesAfter(m: map<Option<string>, string>, columns: seq<Column>, rows: seq<seq<Option<string>>>): (r: map<Option<string>, string>)
    requires RowsFit(columns, rows)
    ensures m.Keys <= r.Keys
    ensures rows == [] ==> r == m
  {
    if rows == [] then m else RowDataTypes(m, columns, rows[0])
  }

  /** The outcome of `getCSVInputStream`: the CSV content, or the exception. */
  function Converted(rs: ResultSet): (r: Result<CsvTable, Exception>)
    requires WellFormed(rs)
    ensures r.Ok? ==> r.value.header == Header(rs.columns) && |r.value.records| == |rs.rows|
  {
    match Records(rs.columns, rs.rows)
    case Err(e) => Err(e)
    case Ok(records) => Ok(CsvTable(Header(rs.columns), records))
  }

  /**
    The conversion raises exactly when some row has a null value in a double
    column, and what it raises is the null pointer exception.
   */
  lemma ConvertedFailsOnNullDouble(rs: ResultSet)
    requires WellFormed(rs)
    ensures Converted(rs).Err? <==>
      exists k, i :: 0 <= k < |rs.rows| && 0 <= i < |rs.columns|
        && rs.rows[k][i].None? && DataTypeOf(rs.columns[i]) == Some(DOUBLE)
    ensures Converted(rs).Err? ==> Converted(rs) == Err(NullPointerException)
  {
    RecordsFailOnNullDouble(rs.columns, rs.rows);
    if Records(rs.columns, rs.rows).Err? {
      match Records(rs.columns, rs.rows).error
      case NullPointerException =>
    }
  }

  /** Conversion fails exactly when some row has a null value in a double column. */
  lemma {:induction false} RecordsFailOnNullDouble(columns: seq<Column>, rows: seq<seq<Option<string>>>)
    requires RowsFit(columns, rows)
    ensures Records(columns, rows).Err? <==>
      exists k, i :: 0 <= k < |rows| && 0 <= i < |columns| && rows[k][i].None? && DataTypeOf(columns[i]) == Some(DOUBLE)
  {
    if rows != [] {
      var n := |rows| - 1;
      RecordsFailOnNullDouble(columns, rows[..n]);
      var last := rows[n];
      assert last in rows;
      if FirstFailure(columns, last, 0) < |columns| {
        var i := FirstFailure(columns, last, 0);
        assert rows[n][i].None? && DataTypeOf(columns[i]) == Some(DOUBLE);
      } else {
        forall i | 0 <= i < |columns| ensures !(rows[n][i].None? && DataTypeOf(columns[i]) == Some(DOUBLE)) {
          assert NormalizeData(last[i], DataTypeOf(columns[i])).Ok?;
        }
      }
      if exists k, i :: 0 <= k < |rows| && 0 <= i < |columns| && rows[k][i].None? && DataTypeOf(columns[i]) == Some(DOUBLE) {
        var k, i :| 0 <= k < |rows| && 0 <= i < |columns| && rows[k][i].None? && DataTypeOf(columns[i]) == Some(DOUBLE);
        if k < n {
          assert rows[..n][k] == rows[k];
        }
      }
    }
  }

  /**
    A successful conversion emits one record per row, each with one entry per
    column, entry `i` being the normalised value of column `i`.
   */
  lemma {:induction false} RecordsShape(columns: seq<Column>, rows: seq<seq<Option<string>>>)
    requires RowsFit(columns, rows)
    requires Records(columns, rows).Ok?
    ensures var records := Records(columns, rows).value;
      |records| == |rows|
      && (forall k :: 0 <= k < |rows| ==> |records[k]| == |columns|)
      && (forall k, i :: 0 <= k < |rows| && 0 <= i < |columns| ==>
           NormalizeData(rows[k][i], DataTypeOf(columns[i])) == Ok(records[k][i]))
  {
    if rows != [] {
      var n := |rows| - 1;
      RecordsShape(columns, rows[..n]);
      assert rows[n] in rows;
      forall k | 0 <= k < n ensures rows[..n][k] == rows[k] {}
    }
  }

  /**
    The recorded map: a label gains an entry only from a typed column among
    the first `n`, and holds the datatype of the last such column; other
    labels keep what they had.
   */
  lemma {:induction false} RecordDataTypesEntries(m: map<Option<string>, string>, columns: seq<Column>, n: nat, l: Option<string>)
    requires n <= |columns|
    ensures var r := RecordDataTypes(m, columns, n);
      (l in r <==> l in m || exists j :: 0 <= j < n && columns[j].columnLabel == l && DataTypeOf(columns[j]).Some?)
      && ((forall j :: 0 <= j < n ==> columns[j].columnLabel != l || DataTypeOf(columns[j]).None?) ==>
            (l in m ==> r[l] == m[l]))
  {
    if n > 0 {
      RecordDataTypesEntries(m, columns, n - 1, l);
    }
  }

  /** The last typed column with label `l` among the first `n` decides the entry for `l`. */
  lemma {:induction false} RecordDataTypesLastWins(m: map<Option<string>, string>, columns: seq<Column>, n: nat, j: nat)
    requires j < n <= |columns| && DataTypeOf(columns[j]).Some?
    requires forall j' :: j < j' < n ==> columns[j'].columnLabel != columns[j].columnLabel || DataTypeOf(columns[j']).None?
    ensures var r := RecordDataTypes(m, columns, n);
      columns[j].columnLabel in r && r[columns[j].columnLabel] == DataTypeOf(columns[j]).value
  {
    if j < n - 1 {
      RecordDataTypesLastWins(m, columns, n - 1, j);
    }
  }

  /**
    Rows after the first never change the datatype map; an empty result leaves
    it untouched. This follows from the definition of `DataTypesAfter`; that the
    row loop of `GetCSVInputStream` meets it is the loop's invariant on
    `datatypes`.
   */
  lemma DataTypesFromFirstRowOnly(m: map<Option<string>, string>, columns: seq<Column>, rows: seq<seq<Option<string>>>)
    requires RowsFit(columns, rows)
    ensures rows == [] ==> DataTypesAfter(m, columns, rows) == m
    ensures rows != [] ==> DataTypesAfter(m, columns, rows) == DataTypesAfter(m, columns, rows[..1])
  {
  }

  /** A failure among the first rows is a failure of the whole conversion. */
  lemma {:induction false} RecordsPrefixFailure(columns: seq<Column>, rows: seq<seq<Option<string>>>, n: nat)
    requires RowsFit(columns, rows)
    requires n <= |rows| && Records(columns, rows[..n]).Err?
    ensures Records(columns, rows).Err?
  {
    if n < |rows| {
      var m := |rows| - 1;
      assert rows[..m][..n] == rows[..n];
      RecordsPrefixFailure(columns, rows[..m], n);
    } else {
      assert rows[..n] == rows;
    }
  }

  /** The first `|values|` entries of `row` normalise to `values`, in order. */
  predicate NormalizesTo(columns: seq<Column>, row: seq<Option<string>>, values: seq<Option<string>>)
    requires |row| == |columns| && |values| <= |columns|
    decreases |values|
  {
    values == []
    || (var n := |values| - 1;
        NormalizesTo(columns, row, values[..n]) && NormalizeData(row[n], DataTypeOf(columns[n])) == Ok(values[n]))
  }

  /** Each entry of a normalised prefix is its column's normalised value. */
  lemma {:induction false} NormalizesToEach(columns: seq<Column>, row: seq<Option<string>>, values: seq<Option<string>>)
    requires |row| == |columns| && |values| <= |columns|
    requires NormalizesTo(columns, row, values)
    ensures forall j :: 0 <= j < |values| ==> NormalizeData(row[j], DataTypeOf(columns[j])) == Ok(values[j])
  {
    if values != [] {
      var n := |values| - 1;
      NormalizesToEach(columns, row, values[..n]);
      assert forall j :: 0 <= j < n ==> values[..n][j] == values[j];
    }
  }

  /** A row whose column `|values|` raises, after the columns before it converted to `values`, raises. */
  lemma RowFails(columns: seq<Column>, row: seq<Option<string>>, values: seq<Option<string>>)
    requires |row| == |columns| && |values| < |columns|
    requires NormalizesTo(columns, row, values)
    requires NormalizeData(row[|values|], DataTypeOf(columns[|values|])).Err?
    ensures FirstFailure(columns, row, 0) == |values|
    ensures NormalizedRow(columns, row) == Err(NullPointerException)
  {
    NormalizesToEach(columns, row, values);
  }

  /** A row that raises, after the rows before it converted, makes the whole conversion raise. */
  lemma RowRaises(columns: seq<Column>, rows: seq<seq<Option<string>>>, r: nat)
    requires RowsFit(columns, rows) && r < |rows|
    requires Records(columns, rows[..r]).Ok? && NormalizedRow(columns, rows[r]).Err?
    ensures Records(columns, rows).Err?
  {
    var prefix := rows[..r + 1];
    assert prefix[..r] == rows[..r] && prefix[r] == rows[r];
    RecordsPrefixFailure(columns, rows, r + 1);
  }

  /** A row whose every column converted has those values as its record. */
  lemma RowNormalized(columns: seq<Column>, row: seq<Option<string>>, record: seq<Option<string>>)
    requires |row| == |columns| && |record| == |columns|
    requires NormalizesTo(columns, row, record)
    ensures FirstFailure(columns, row, 0) == |columns|
    ensures NormalizedRow(columns, row) == Ok(record)
  {
    NormalizesToEach(columns, row, record);
    assert FirstFailure(columns, row, 0) == |columns|;
    var normalized := NormalizedRow(columns, row).value;
    forall j | 0 <= j < |columns| ensures normalized[j] == record[j] {
      assert NormalizeData(row[j], DataTypeOf(columns[j])) == Ok(record[j]);
    }
    assert normalized == record;
  }

  /** The records of one more row: the earlier records and that row's record. */
  lemma RecordsStep(columns: seq<Column>, rows: seq<seq<Option<string>>>, r: nat,
                    records: seq<seq<Option<string>>>, record: seq<Option<string>>)
    requires RowsFit(columns, rows) && r < |rows|
    requires Records(columns, rows[..r]) == Ok(records)
    requires NormalizedRow(columns, rows[r]) == Ok(record)
    ensures Records(columns, rows[..r + 1]) == Ok(records + [record])
  {
    var prefix := rows[..r + 1];
    assert prefix[..r] == rows[..r] && prefix[r] == rows[r];
  }

  /** `new RDBAccess(dsn, databaseType, username, password, query, contentType)` and its datatype map. */
  class RDBAccess {
    const dsn: string
    const databaseType: DatabaseType
    const username: Option<string>
    const password: Option<string>
    const query: string
    const contentType: string
    var datatypes: map<Option<string>, string>

    constructor (dsn: string, databaseType: DatabaseType, username: Option<string>, password: Option<string>,
                 query: string, contentType: string)
      ensures this.dsn == dsn && this.databaseType == databaseType
      ensures this.username == username && this.password == password
      ensures this.query == query && this.contentType == contentType
      ensures datatypes == map[]
    {
      this.dsn := dsn;
      this.databaseType := databaseType;
      this.username := username;
      this.password := password;
      this.query := query;
      this.contentType := contentType;
      datatypes := map[];
    }

    /**
      `equals`: the six configuration fields are compared in order, stopping
      at the first difference (the datatype map plays no part). Comparing the
      username or the password dereferences this adapter's own, which raises
      when it is null and the comparison gets that far.
     */
    function Equals(o: RDBAccess?): (r: Result<bool, Exception>)
      ensures r.Err? <==>
        o != null && dsn == o.dsn && databaseType == o.databaseType
        && (username.None? || (username == o.username && password.None?))
      ensures r == Ok(true) <==>
        o != null && username.Some? && password.Some?
        && (dsn, databaseType, username, password, query, contentType)
           == (o.dsn, o.databaseType, o.username, o.password, o.query, o.contentType)
    {
      if o == null then Ok(false)
      else if dsn != o.dsn || databaseType != o.databaseType then Ok(false)
      else if username.None? then Err(NullPointerException)
      else if username != o.username then Ok(false)
      else if password.None? then Err(NullPointerException)
      else Ok(password == o.password && query == o.query && contentType == o.contentType)
    }

    /** The string `hashCode` hashes: the six fields concatenated, a null one as `null`. */
    function HashSource(): (h: string)
      ensures dsn + databaseType.name <= h
      ensures |h| >= |contentType| && h[|h| - |contentType|..] == contentType
    {
      dsn + databaseType.name + JavaText(username) + JavaText(password) + query + contentType
    }

    /**
      `getCSVHeader`: fills an array with the column labels, putting the
      sentinel where a label is null or empty.
     */
    static method GetCSVHeader(columns: seq<Column>) returns (headers: array<string>)
      ensures headers.Length == |columns|
      ensures forall i :: 0 <= i < |columns| ==> headers[i] != ""
      ensures forall i :: 0 <= i < |columns| && columns[i].columnLabel.Some? && columns[i].columnLabel.value != "" ==>
                headers[i] == columns[i].columnLabel.value
      ensures forall i :: 0 <= i < |columns| && (columns[i].columnLabel.None? || columns[i].columnLabel.value == "") ==>
                headers[i] == NULL_HEADER
    {
      headers := new string[|columns|];
      for i := 0 to |columns|
        invariant forall j :: 0 <= j < i ==> headers[j] == HeaderLabel(columns[j].columnLabel)
      {
        var h := columns[i].columnLabel;
        if h.None? || h.value == "" {
          headers[i] := NULL_HEADER;
        } else {
          headers[i] := h.value;
        }
      }
    }

    /**
      One pass of the row loop of `getCSVInputStream`: normalises the row's
      values into a fresh array, column by column, and when `recordTypes`
      holds puts each typed column's datatype into the map before its value is
      normalised.
     */
    method ConvertRow(columns: seq<Column>, row: seq<Option<string>>, recordTypes: bool)
      returns (record: Result<seq<Option<string>>, Exception>)
      requires |row| == |columns|
      modifies this
      ensures record == NormalizedRow(columns, row)
      ensures datatypes == if recordTypes then RowDataTypes(old(datatypes), columns, row) else old(datatypes)
    {
      var columnCount := |columns|;
      var csvRow := new Option<string>[columnCount];
      ghost var m := datatypes;
      for i := 0 to columnCount
        invariant NormalizesTo(columns, row, csvRow[..i])
        invariant datatypes == if recordTypes then RecordDataTypes(m, columns, i) else m
      {
        var columnName := columns[i].columnLabel;
        var dataType := ColumnDataType(columns[i].typeName);
        var data := row[i];
        if recordTypes {
          if dataType.Some? {
            datatypes := datatypes[columnName := dataType.value];
          }
        }
        var normalized := NormalizeData(data, dataType);
        if normalized.Err? {
          RowFails(columns, row, csvRow[..i]);
          return Err(NullPointerException);
        }
        ghost var converted := csvRow[..i];
        csvRow[i] := normalized.value;
        assert csvRow[..i + 1][..i] == converted;
      }
      assert csvRow[..] == csvRow[..columnCount];
      RowNormalized(columns, row, csvRow[..]);
      record := Ok(csvRow[..]);
    }

    /**
      `getCSVInputStream`: converts the rows one by one, recording the
      columns' datatypes while the first row is converted.
     */
    method GetCSVInputStream(rs: ResultSet) returns (out: Result<CsvTable, Exception>)
      requires WellFormed(rs)
      modifies this
      ensures out == Converted(rs)
      ensures datatypes == DataTypesAfter(old(datatypes), rs.columns, rs.rows)
    {
      var columns, rows := rs.columns, rs.rows;
      var headers := GetCSVHeader(columns);
      var header := headers[..];
      assert header == Header(columns);
      var filledInDataTypes := false;
      var records: seq<seq<Option<string>>> := [];
      var r := 0;
      while r < |rows|
        invariant 0 <= r <= |rows|
        invariant filledInDataTypes <==> r > 0
        invariant datatypes == if r == 0 then old(datatypes) else DataTypesAfter(old(datatypes), columns, rows)
        invariant Records(columns, rows[..r]) == Ok(records)
      {
        var record := ConvertRow(columns, rows[r], !filledInDataTypes);
        if record.Err? {
          RowRaises(columns, rows, r);
          ConvertedFailsOnNullDouble(rs);
          return Err(NullPointerException);
        }
        RecordsStep(columns, rows, r, records, record.value);
        records := records + [record.value];
        filledInDataTypes := true;
        r := r + 1;
      }
      assert rows[..r] == rows;
      out := Ok(CsvTable(header, records));
    }

    /**
      `getInputStream`: builds the connection string, then converts the rows
      the query returns over that connection.
     */
    method GetInputStream(rs: ResultSet) returns (connectionString: string, out: Result<CsvTable, Exception>)
      requires WellFormed(rs)
      modifies this
      ensures connectionString == ConnectionString(databaseType, dsn, username, password)
      ensures out == Converted(rs)
      ensures datatypes == DataTypesAfter(old(datatypes), rs.columns, rs.rows)
    {
      connectionString := BuildConnectionString(databaseType, dsn, username, password);
      out := GetCSVInputStream(rs);
    }
  }

  /** Java's rendering of a possibly-null string in a concatenation. */
  function JavaText(s: Option<string>): string
  {
    if s.None? then "null" else s.value
  }

  /**
    Between adapters with non-null credentials `equals` never raises and is an
    equivalence; adapters it calls equal hash the same string.
   */
  lemma EqualsIsEquivalence(a: RDBAccess, b: RDBAccess, c: RDBAccess)
    requires a.username.Some? && a.password.Some? && b.username.Some? && b.password.Some?
    requires c.username.Some? && c.password.Some?
    ensures a.Equals(b).Ok?
    ensures a.Equals(a) == Ok(true)
    ensures a.Equals(b) == b.Equals(a)
    ensures a.Equals(b) == Ok(true) && b.Equals(c) == Ok(true) ==> a.Equals(c) == Ok(true)
    ensures a.Equals(b) == Ok(true) ==> a.HashSource() == b.HashSource()
  {
  }

  /** A null adapter is never equal; one with a null username raises against any adapter with its data source and type. */
  lemma EqualsNullCases(a: RDBAccess, b: RDBAccess)
    requires a.username.None? && a.dsn == b.dsn && a.databaseType == b.databaseType
    ensures a.Equals(null) == Ok(false)
    ensures a.Equals(b) == Err(NullPointerException)
  {
  }
}
