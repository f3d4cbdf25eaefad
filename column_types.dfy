/**
  Column-level helpers of `RDBAccess`: the vendor type name to XSD datatype
  table, the normalisation of double values, and the CSV header labels.
 */
module ColumnTypes {
  import opened Wrappers
  import opened JavaStrings

  const DOUBLE := "http://www.w3.org/2001/XMLSchema#double"
  const VARBINARY := "http://www.w3.org/2001/XMLSchema#hexBinary"
  const DECIMAL := "http://www.w3.org/2001/XMLSchema#decimal"
  const INTEGER := "http://www.w3.org/2001/XMLSchema#integer"
  const BOOLEAN := "http://www.w3.org/2001/XMLSchema#boolean"
  const DATE := "http://www.w3.org/2001/XMLSchema#date"
  const TIME := "http://www.w3.org/2001/XMLSchema#time"
  const DATETIME := "http://www.w3.org/2001/XMLSchema#dateTime"

  /** The eight datatypes a column can be given. */
  const XSD_DATATYPES := {DOUBLE, VARBINARY, DECIMAL, INTEGER, BOOLEAN, DATE, TIME, DATETIME}

  /** The header written for a column whose label is null or empty. */
  const NULL_HEADER := "be.ugent.rml.access.RDBAccess.nullheader"

  const BINARY_NAMES := {"BYTEA", "BINARY", "BINARY VARYING", "BINARY LARGE OBJECT", "VARBINARY"}
  const DECIMAL_NAMES := {"NUMERIC", "DECIMAL"}
  const INTEGER_NAMES := {"SMALLINT", "INT", "INT4", "INT8", "INTEGER", "BIGINT"}
  const DOUBLE_NAMES := {"FLOAT", "FLOAT4", "FLOAT8", "REAL", "DOUBLE", "DOUBLE PRECISION"}
  const BOOLEAN_NAMES := {"BIT", "BOOL", "BOOLEAN"}
  const DATE_NAMES := {"DATE"}
  const TIME_NAMES := {"TIME"}
  const DATETIME_NAMES := {"TIMESTAMP", "DATETIME"}

  /** The exception a null value in a double column raises. */
  datatype Exception = NullPointerException

  /**
    `getColumnDataType`: the datatype of a vendor type name, compared after
    upper-casing; a name outside the table has none.
   */
  function ColumnDataType(typeName: string): (r: Option<string>)
    ensures r.Some? ==> r.value in XSD_DATATYPES
  {
    var name := ToUpperCase(typeName);
    if name in BINARY_NAMES then Some(VARBINARY)
    else if name in DECIMAL_NAMES then Some(DECIMAL)
    else if name in INTEGER_NAMES then Some(INTEGER)
    else if name in DOUBLE_NAMES then Some(DOUBLE)
    else if name in BOOLEAN_NAMES then Some(BOOLEAN)
    else if name in DATE_NAMES then Some(DATE)
    else if name in TIME_NAMES then Some(TIME)
    else if name in DATETIME_NAMES then Some(DATETIME)
    else None
  }

  /** The same table as a map from upper-case type name to datatype. */
  const TYPE_TABLE: map<string, string> := map[
    "BYTEA" := VARBINARY, "BINARY" := VARBINARY, "BINARY VARYING" := VARBINARY,
    "BINARY LARGE OBJECT" := VARBINARY, "VARBINARY" := VARBINARY,
    "NUMERIC" := DECIMAL, "DECIMAL" := DECIMAL,
    "SMALLINT" := INTEGER, "INT" := INTEGER, "INT4" := INTEGER, "INT8" := INTEGER,
    "INTEGER" := INTEGER, "BIGINT" := INTEGER,
    "FLOAT" := DOUBLE, "FLOAT4" := DOUBLE, "FLOAT8" := DOUBLE, "REAL" := DOUBLE,
    "DOUBLE" := DOUBLE, "DOUBLE PRECISION" := DOUBLE,
    "BIT" := BOOLEAN, "BOOL" := BOOLEAN, "BOOLEAN" := BOOLEAN,
    "DATE" := DATE, "TIME" := TIME,
    "TIMESTAMP" := DATETIME, "DATETIME" := DATETIME
  ]

  /** Each listed name has its one datatype, whatever its case; every other name has none. */
  lemma ColumnDataTypeIsTable(typeName: string)
    ensures var name := ToUpperCase(typeName);
      ColumnDataType(typeName) == if name in TYPE_TABLE then Some(TYPE_TABLE[name]) else None
  {
  }

  /**
    Type names that differ only in the case of letters get the same datatype;
    in particular a name and its upper-cased form do.
   */
  lemma ColumnDataTypeIgnoresCase(a: string, b: string)
    requires ToUpperCase(a) == ToUpperCase(b)
    ensures ColumnDataType(a) == ColumnDataType(b)
    ensures ColumnDataType(ToUpperCase(a)) == ColumnDataType(a)
  {
    ToUpperCaseIdempotent(a);
  }

  /** `double precision` is a double; `text` has no datatype. */
  lemma ColumnDataTypeExamples(doublePrecision: string, text: string)
    requires doublePrecision == "double precision" && text == "text"
    ensures ColumnDataType(doublePrecision) == Some(DOUBLE)
    ensures ColumnDataType(text) == None
  {
    assert ToUpperCase(doublePrecision) == "DOUBLE PRECISION";
    assert ToUpperCase(text) == "TEXT";
  }

  /**
    `normalizeData`: a double's text loses every `.0`; any other value is kept,
    null included. A null double dereferences null.
   */
  function NormalizeData(data: Option<string>, dataType: Option<string>): (r: Result<Option<string>, Exception>)
    ensures r.Err? <==> dataType == Some(DOUBLE) && data.None?
    ensures dataType != Some(DOUBLE) ==> r == Ok(data)
  {
    if dataType == Some(DOUBLE) then
      if data.None? then Err(NullPointerException) else Ok(Some(Replace(data.value, ".0", "")))
    else Ok(data)
  }

  /** A double without `.0` is kept as it is; one with `.0` gets shorter. */
  lemma NormalizeDoubleShortens(data: string)
    ensures var r := NormalizeData(Some(data), Some(DOUBLE));
      r.Ok? && r.value.Some? && |r.value.value| <= |data|
      && (Contains(data, ".0") <==> |r.value.value| < |data|)
  {
    ReplaceByEmptyShrinks(data, ".0");
    if !Contains(data, ".0") {
      ReplaceAbsent(data, ".0", "");
    }
  }

  /**
    `3.0` becomes `3` and `3.14` is kept; `1.05`, whose `.0` is not trailing,
    becomes `15`.
   */
  lemma NormalizeDataExamples(a: string, b: string, c: string)
    requires a == "3.0" && b == "3.14" && c == "1.05"
    ensures NormalizeData(Some(a), Some(DOUBLE)) == Ok(Some("3"))
    ensures NormalizeData(Some(b), Some(DOUBLE)) == Ok(Some(b))
    ensures NormalizeData(Some(c), Some(DOUBLE)) == Ok(Some("15"))
  {
    assert a == "3" + ".0" + "";
    assert !OccursAt(a, ".0", 0) by {
      assert a[0..2][0] == '3';
    }
    ReplaceAfter("3", "", ".0", "");
    assert Replace("", ".0", "") == "";
    assert Replace(a, ".0", "") == "3" + "" + "";
    assert Replace(a, ".0", "") == "3";
    assert NormalizeData(Some(a), Some(DOUBLE)) == Ok(Some(Replace(a, ".0", "")));
    MissingCharNotContained(b, ".0", 1);
    ReplaceAbsent(b, ".0", "");
    assert c == "1" + ".0" + "5";
    assert !OccursAt(c, ".0", 0) by {
      assert c[0..2][0] == '1';
    }
    MissingCharNotContained("5", ".0", 0);
    ReplaceAbsent("5", ".0", "");
    ReplaceAfter("1", "5", ".0", "");
    assert Replace(c, ".0", "") == "1" + "" + "5";
    assert Replace(c, ".0", "") == "15";
    assert NormalizeData(Some(c), Some(DOUBLE)) == Ok(Some(Replace(c, ".0", "")));
  }

  /** The header of one column: its label, or the sentinel for a null or empty label. */
  function HeaderLabel(columnLabel: Option<string>): (h: string)
    ensures h != ""
    ensures columnLabel.Some? && columnLabel.value != "" ==> h == columnLabel.value
    ensures columnLabel.None? || columnLabel.value == "" ==> h == NULL_HEADER
  {
    if columnLabel.None? || columnLabel.value == "" then NULL_HEADER else columnLabel.value
  }
}
