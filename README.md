# RML mapper core: the simple quad store and the relational access adapter

This project models two sequential pieces of the RML mapper in Dafny and proves their
contracts.

**`SimpleQuadStore`** is the in-memory, list-backed store of RDF quads.

- `QuadStore.SimpleQuadStore` is a class whose one field, `quads: seq<Quad>`, plays the part
  of the Java list.
- `addQuad` appends a quad, but silently drops a triple that lacks its subject, predicate or
  object.
- `removeDuplicates` runs the source's scan, a `for` loop over a nested `while`. It is proved
  equal to the specification function `Quads.Deduplicated`.
- The lemmas about `Deduplicated` show that it keeps exactly the first occurrences, in order.
  They also show that it leaves no two equivalent quads, that it is idempotent, and that a
  quad without a graph is never merged with one that has a graph.
- `toNQuads` writes to a `Writer` class that records the text it has received. The written
  text is proved to be one line `s p o[ g].` per quad, followed by a line feed.
- `Term.toString` is external to the store, so it is a parameter `text: Term -> string`.
- `toTurtle`, `toJSONLD`, `toTrix` and `toTrig` always throw. They are methods that return
  `Fail(NotSupportedException)`.

**`RDBAccess`** is the adapter that reads the result of an SQL query as CSV.

- **Connection string.** `ConnectionStrings.BuildConnectionString` rewrites the connection
  string step by step, together with the "query parameters present" flag, as
  `getInputStream` does. It is proved equal to the vendor-by-vendor function
  `ConnectionString`.
- **Datatypes and values.** `ColumnTypes` holds three things:
  - the case-insensitive table from vendor type names to XSD datatypes;
  - `normalizeData`, which removes *every* `.0` from a double's text, so that `"1.05"`
    becomes `"15"`;
  - the header sentinel `be.ugent.rml.access.RDBAccess.nullheader`.
- **Result set.** The query result is an abstract `ResultSet`: column metadata (a possibly
  null label and a type name) and rows of possibly-null strings.
- **Row conversion.** `getCSVInputStream` is the method `GetCSVInputStream`. Its inner
  column loop is the method `ConvertRow`. Both are proved against:
  - `Converted`, a header plus one normalised record per row;
  - `DataTypesAfter`, the `datatypes` map after the call.
- **The `datatypes` map.** Labels are mapped to datatypes only while the first row is
  converted. The map is updated *before* the value is normalised, so a first row that raises
  leaves every column up to and including the failing one recorded.
- **Null doubles.** A null value in a double column makes `data.replace` dereference null. The
  model returns `Err(NullPointerException)` for it, and the lemma `RecordsFailOnNullDouble`
  says exactly when that happens.
- **Equality.** `equals` is a function returning `Result<bool, Exception>`. It compares the
  six configuration fields in source order and stops at the first difference. When it reaches
  this adapter's own username or password and that field is null, it raises
  `NullPointerException`. So "`equals` holds exactly when the six fields are pairwise equal"
  is true only for adapters with non-null credentials. Those are the adapters
  `EqualsIsEquivalence` covers. `EqualsNullCases` covers the raising cases.

Java `null` is modelled as `Option.None`, and strings are `seq<char>`.

## Model

| member | source | states |
|---|---|---|
| Quads.Equivalent | src/main/java/be/ugent/rml/store/SimpleQuadStore.java:31-36 | the scan's duplicate test holds exactly when the two quads are equal; an absent graph never matches a present one |
| Quads.Deduplicated | src/main/java/be/ugent/rml/store/SimpleQuadStore.java:25-47 | the list the scan builds: each quad in order, appended when no quad kept so far is equivalent to it; never longer than the old list, and the first quad is always kept |
| Quads.DeduplicatedElements | src/main/java/be/ugent/rml/store/SimpleQuadStore.java:25-47 | the deduplicated list has the same quads as the old one, and every old quad has an equivalent in it |
| Quads.DeduplicatedDistinct | src/main/java/be/ugent/rml/store/SimpleQuadStore.java:31-44 | after deduplication no two quads are equivalent |
| Quads.DistinctUnchanged | src/main/java/be/ugent/rml/store/SimpleQuadStore.java:25-47 | a list without equivalent quads is left unchanged |
| Quads.DeduplicatedIdempotent | src/main/java/be/ugent/rml/store/SimpleQuadStore.java:25-47 | deduplicating twice gives the same list as deduplicating once |
| Quads.DeduplicatedSubsequence | src/main/java/be/ugent/rml/store/SimpleQuadStore.java:25-47 | the result is the subsequence of the old list at strictly increasing positions, holding exactly the first occurrences; it is no longer than the old list |
| Quads.DeduplicatedKeepsGraphForms | src/main/java/be/ugent/rml/store/SimpleQuadStore.java:34-36 | the same triple without and with a graph is not equivalent, and both survive deduplication at distinct positions |
| Quads.NQuadLine | src/main/java/be/ugent/rml/store/SimpleQuadStore.java:105-115 | `getNQuadOfQuad`: the line starts with the subject, predicate and object texts separated by spaces, and ends with the dot |
| Quads.NQuads | src/main/java/be/ugent/rml/store/SimpleQuadStore.java:93-98 | the text `toNQuads` writes, each quad's line and a line feed in list order (its properties are the rows `NQuadsAppend`, `NQuadsSplitsIntoLines` and `NQuadsExample`) |
| Quads.Lines | src/main/java/be/ugent/rml/store/SimpleQuadStore.java:105-115 | one N-Quads line per quad, in list order |
| Quads.NQuadsAppend | src/main/java/be/ugent/rml/store/SimpleQuadStore.java:93-98 | writing one more quad appends its line and a line feed to the text |
| Quads.NQuadLineSingleLine | src/main/java/be/ugent/rml/store/SimpleQuadStore.java:105-115 | a quad whose terms print without line feeds prints as one line |
| Quads.NQuadsSplitsIntoLines | src/main/java/be/ugent/rml/store/SimpleQuadStore.java:93-115 | split at line feeds, the N-Quads text is exactly `|quads|` lines, line i being quad i's line |
| Quads.NQuadsExample | src/main/java/be/ugent/rml/store/SimpleQuadStore.java:105-115 | a quad without a graph prints `s p o.` and one with a graph prints `s p o g.`, each followed by a line feed |
| QuadStore.Added | src/main/java/be/ugent/rml/store/SimpleQuadStore.java:49-53 | a complete triple grows the list by exactly one quad `(s, p, o, g)` at the end, with the earlier quads kept; a partial triple changes nothing |
| QuadStore.PartialTriplesAddNothing | src/main/java/be/ugent/rml/store/SimpleQuadStore.java:49-53 | any series of `addQuad` calls that each lack subject, predicate or object leaves the list unchanged |
| QuadStore.SimpleQuadStore.constructor | src/main/java/be/ugent/rml/store/SimpleQuadStore.java:21-23 | a new store is empty |
| QuadStore.SimpleQuadStore.FromList | src/main/java/be/ugent/rml/store/SimpleQuadStore.java:17-19 | a store built over a list holds that list |
| QuadStore.SimpleQuadStore.RemoveDuplicates | src/main/java/be/ugent/rml/store/SimpleQuadStore.java:25-47 | the new list is the deduplicated old list |
| QuadStore.SimpleQuadStore.AddQuad | src/main/java/be/ugent/rml/store/SimpleQuadStore.java:49-53 | the new list is the old list after the add step |
| QuadStore.SimpleQuadStore.GetQuads | src/main/java/be/ugent/rml/store/SimpleQuadStore.java:55-57 | the whole list, whatever the filter arguments |
| QuadStore.SimpleQuadStore.GetQuads3 | src/main/java/be/ugent/rml/store/SimpleQuadStore.java:59-61 | the whole list, whatever the filter arguments |
| QuadStore.SimpleQuadStore.IsEmpty | src/main/java/be/ugent/rml/store/SimpleQuadStore.java:63-66 | true exactly when the size is 0 |
| QuadStore.SimpleQuadStore.Size | src/main/java/be/ugent/rml/store/SimpleQuadStore.java:68-71 | the number of quads |
| QuadStore.SimpleQuadStore.ToNQuads | src/main/java/be/ugent/rml/store/SimpleQuadStore.java:93-115 | the writer receives the N-Quads text of the list, after what it already held |
| QuadStore.SimpleQuadStore.ToTurtle | src/main/java/be/ugent/rml/store/SimpleQuadStore.java:73-76 | always fails with `NotSupportedException` |
| QuadStore.SimpleQuadStore.ToJSONLD | src/main/java/be/ugent/rml/store/SimpleQuadStore.java:78-81 | always fails with `NotSupportedException` |
| QuadStore.SimpleQuadStore.ToTrix | src/main/java/be/ugent/rml/store/SimpleQuadStore.java:83-86 | always fails with `NotSupportedException` |
| QuadStore.SimpleQuadStore.ToTrig | src/main/java/be/ugent/rml/store/SimpleQuadStore.java:88-91 | always fails with `NotSupportedException` |
| ConnectionStrings.SemicolonDelimited | src/main/java/be/ugent/rml/access/RDBAccess.java:103 | same length; every `?` and every `&` becomes `;`, and nothing else changes |
| ConnectionStrings.ConnectionString | src/main/java/be/ugent/rml/access/RDBAccess.java:72-108 | the finished connection string vendor by vendor; a MySQL string ends with the fixed parameters and a SQL Server string with `;` |
| ConnectionStrings.BuildConnectionString | src/main/java/be/ugent/rml/access/RDBAccess.java:72-108 | the step-by-step rewrite yields the vendor's connection string |
| ConnectionStrings.CredentialsNeedBoth | src/main/java/be/ugent/rml/access/RDBAccess.java:83-90 | without a non-null, non-empty username and password, the result is as if there were no credentials |
| ConnectionStrings.BaseIsPrefix | src/main/java/be/ugent/rml/access/RDBAccess.java:72-100 | for MySQL and the other profiles, the string starts with `jdbc:` + prefix + `//` + dsn |
| ConnectionStrings.OracleWithoutMarker | src/main/java/be/ugent/rml/access/RDBAccess.java:84-85 | for Oracle, a base URL without `:@` is used unchanged, with or without credentials |
| ConnectionStrings.MySqlParameters | src/main/java/be/ugent/rml/access/RDBAccess.java:92-100 | for MySQL the string ends with `serverTimezone=UTC&useSSL=false`, preceded by `&` exactly when credentials were appended and by `?` otherwise |
| ConnectionStrings.SqlServerDelimiters | src/main/java/be/ugent/rml/access/RDBAccess.java:102-108 | for SQL Server the string has no `?` and no `&` and ends with `;`; a `;` is appended only when the rewritten string did not already end with one |
| ConnectionStrings.MySqlWithCredentials | src/main/java/be/ugent/rml/access/RDBAccess.java:86-100 | MySQL with credentials to append gives base + `?user=u&password=p` + `&` + the fixed parameters |
| ConnectionStrings.MySqlExample | src/main/java/be/ugent/rml/access/RDBAccess.java:72-100 | user `u`, password `p` on `host/db` give `jdbc:mysql://host/db?user=u&password=p&serverTimezone=UTC&useSSL=false` |
| ConnectionStrings.OracleExample | src/main/java/be/ugent/rml/access/RDBAccess.java:72-90 | Oracle credentials go in at the `:@` marker: `jdbc:oracle:thin:u/p@//host:1521/xe` |
| ColumnTypes.ColumnDataType | src/main/java/be/ugent/rml/access/RDBAccess.java:216-254 | a type name is given one of the eight XSD datatypes or none |
| ColumnTypes.ColumnDataTypeIsTable | src/main/java/be/ugent/rml/access/RDBAccess.java:216-254 | the upper-cased name is looked up in the listed table; an unlisted name has no datatype |
| ColumnTypes.ColumnDataTypeIgnoresCase | src/main/java/be/ugent/rml/access/RDBAccess.java:217 | names that differ only in letter case get the same datatype; a name and its upper-cased form get the same datatype |
| ColumnTypes.ColumnDataTypeExamples | src/main/java/be/ugent/rml/access/RDBAccess.java:234-253 | `double precision` is `xsd:double`; `text` has no datatype |
| ColumnTypes.NormalizeData | src/main/java/be/ugent/rml/access/RDBAccess.java:286-292 | raises exactly for a null double; a value of any other datatype is returned unchanged, null included |
| ColumnTypes.NormalizeDoubleShortens | src/main/java/be/ugent/rml/access/RDBAccess.java:286-290 | a double's text never grows, and it shrinks exactly when it contains `.0` |
| ColumnTypes.NormalizeDataExamples | src/main/java/be/ugent/rml/access/RDBAccess.java:286-292 | `3.0` becomes `3`, `3.14` is kept, `1.05` becomes `15` |
| ColumnTypes.HeaderLabel | src/main/java/be/ugent/rml/access/RDBAccess.java:268-274 | never empty; the label when it is non-null and non-empty, the sentinel otherwise |
| RDBAccess.Header | src/main/java/be/ugent/rml/access/RDBAccess.java:264-278 | one header entry per column, entry i being column i's label or the sentinel |
| RDBAccess.FirstFailure | src/main/java/be/ugent/rml/access/RDBAccess.java:181-195 | the first column whose value cannot be normalised, all columns before it normalising |
| RDBAccess.Records | src/main/java/be/ugent/rml/access/RDBAccess.java:177-201 | the records of the rows in order, or the exception of the first row that raises; on success one record per row |
| RDBAccess.RecordDataTypes | src/main/java/be/ugent/rml/access/RDBAccess.java:186-191 | the map after recording the first columns' datatypes; entries are only added or overwritten, never removed |
| RDBAccess.DataTypesAfter | src/main/java/be/ugent/rml/access/RDBAccess.java:169-201 | the map after a conversion: only the first row records; no entry is removed, and an empty result leaves the map as it was |
| RDBAccess.Converted | src/main/java/be/ugent/rml/access/RDBAccess.java:164-208 | the outcome of `getCSVInputStream`: on success the header of the columns and one record per row |
| RDBAccess.ConvertedFailsOnNullDouble | src/main/java/be/ugent/rml/access/RDBAccess.java:164-208 | the conversion raises exactly when some row has a null value in a double column, and it raises `NullPointerException` |
| RDBAccess.RecordsFailOnNullDouble | src/main/java/be/ugent/rml/access/RDBAccess.java:177-201 | the conversion fails exactly when some row has a null value in a double column |
| RDBAccess.RecordsShape | src/main/java/be/ugent/rml/access/RDBAccess.java:177-199 | a successful conversion gives one record per row; each record has `columnCount` entries, entry i being column i's normalised value |
| RDBAccess.RecordDataTypesEntries | src/main/java/be/ugent/rml/access/RDBAccess.java:186-191 | a label gains an entry only from a column with a datatype; labels of no such column keep what they had |
| RDBAccess.RecordDataTypesLastWins | src/main/java/be/ugent/rml/access/RDBAccess.java:186-191 | when labels repeat, the last typed column with that label decides its datatype |
| RDBAccess.DataTypesFromFirstRowOnly | src/main/java/be/ugent/rml/access/RDBAccess.java:169-201 | rows after the first never change the datatype map; an empty result leaves it untouched |
| RDBAccess.RecordsPrefixFailure | src/main/java/be/ugent/rml/access/RDBAccess.java:177-201 | a row that raises makes the whole conversion raise, whatever rows follow |
| RDBAccess.RDBAccess.constructor | src/main/java/be/ugent/rml/access/RDBAccess.java:51-58 | the six fields hold the arguments; the datatype map starts empty |
| RDBAccess.RDBAccess.Equals | src/main/java/be/ugent/rml/access/RDBAccess.java:295-308 | raises exactly when the comparison reaches this adapter's null username or password; true exactly when the credentials are non-null and all six fields are pairwise equal |
| RDBAccess.RDBAccess.GetCSVHeader | src/main/java/be/ugent/rml/access/RDBAccess.java:264-278 | an array of `columnCount` entries, none empty: the label, or the sentinel for a null or empty label |
| RDBAccess.RDBAccess.ConvertRow | src/main/java/be/ugent/rml/access/RDBAccess.java:177-195 | the row's record or the exception, and the map with the row's typed columns recorded, up to the failing one, only on the first row |
| RDBAccess.RDBAccess.GetCSVInputStream | src/main/java/be/ugent/rml/access/RDBAccess.java:164-208 | the header and records of the result set, or the exception; the map gains the first row's datatypes |
| RDBAccess.RDBAccess.GetInputStream | src/main/java/be/ugent/rml/access/RDBAccess.java:67-116 | the connection string it would open, and the converted query result |
| RDBAccess.RDBAccess.HashSource | src/main/java/be/ugent/rml/access/RDBAccess.java:311-313 | the string `hashCode` hashes: it starts with the data source name and the database type and ends with the content type |
| RDBAccess.EqualsIsEquivalence | src/main/java/be/ugent/rml/access/RDBAccess.java:295-313 | with non-null credentials, `equals` never raises and is reflexive, symmetric and transitive; equal adapters hash the same string |
| RDBAccess.EqualsNullCases | src/main/java/be/ugent/rml/access/RDBAccess.java:295-306 | a null argument is never equal; a null username raises against an adapter with the same data source and type |

## Left out

- JDBC plumbing is not modelled. This covers driver loading, `DriverManager.getConnection`, statement execution, and the close logic in the `finally` block. These are foreign I/O, so the query result is an input `ResultSet`, and `GetInputStream` returns the connection string instead of opening it.
- `CSVPrinter` quoting and escaping, and the conversion to bytes, are not modelled. They are library code, so the output stays a header plus records, with a null entry as `None`.
- `hashCode` is not modelled beyond its input. `Utils.getHashOfString` is not part of this model, so only the concatenated string it hashes (`HashSource`) is modelled.
- The `IOException` that a `Writer` may throw is not modelled, nor the `IOException` that `getCSVInputStream` catches. Both are I/O failures.
- `setNamespaces` is not modelled, because it does nothing.
- `getDataTypes` and the other plain getters are not modelled. They return a field, and the fields are visible in the model.
- The `oracleJarPath` field is not modelled: no modelled operation reads it.
- Aliasing is not modelled. The Java store keeps the list passed to its constructor and hands out its own list from `getQuads`, so outside changes to either list reach the store. The model copies values.
- `JavaStrings.ToUpperCase`: upper-cases ASCII letters only. Java's locale-dependent Unicode case mapping is not modelled.
- `rs.getString(columnName)` reads a value by label. The model reads the value at the column's index, so the value a repeated label would return (the first column with that label) is not modelled.
- `dsn`, `databaseType`, `query` and `contentType` are taken to be non-null. A null `dsn` would raise only in `equals` (line 299); in the connection string Java's concatenation writes it as `null` (line 72). A null `databaseType` would raise in `getInputStream` (line 71) and in `equals` (line 300). A null `query` or `contentType` would raise in `equals` (lines 303-304); the connection string never reads them.
- `RDBAccess.RDBAccess.Equals` takes an `RDBAccess` or null. An argument of another class, for which Java returns false, is not modelled.
- `DatabaseType` is modelled as a vendor, its enum name and uninterpreted driver and JDBC-prefix strings. `toString` in `hashCode` is taken to be the enum name.
- The inner column loop of `getCSVInputStream` is a separate method, `ConvertRow`, called once per row. Its new `csvRow` array is allocated per row, as in the source.
