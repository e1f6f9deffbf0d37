/**
 * Catalog table descriptions: the per-kind storage formats, the table
 * specification handed to the catalog, the parser of column-layout (FMT)
 * files, and the table name, bucket and key that `create_table` derives.
 * Catalog and object-store calls are inputs: whether the table already
 * exists, and the text of the FMT file.
 */
module GlueUtils {
  import opened Python

  /** A column of the catalog table: name and type. */
  datatype Column = Column(name: string, typ: string)

  datatype SerdeInfo = SerdeInfo(serializationLibrary: string, parameters: map<string, string>)

  /** One entry of `GLUE_TABLE_FORMATS`. */
  datatype TableFormat = TableFormat(input: string, output: string, serde: SerdeInfo, prefix: string)

  /** `GLUE_TABLE_FORMATS[kind]`; any kind but `csv` and `parquet` raises. */
  function GlueTableFormat(kind: string): (r: Result<TableFormat>)
    ensures r.Ok? <==> kind == "csv" || kind == "parquet"
  {
    if kind == "csv" then
      Ok(TableFormat("org.apache.hadoop.mapred.TextInputFormat",
                     "org.apache.hadoop.hive.ql.io.HiveIgnoreKeyTextOutputFormat",
                     SerdeInfo("org.apache.hadoop.hive.serde2.lazy.LazySimpleSerDe", map["field.delim" := "\t"]),
                     ""))
    else if kind == "parquet" then
      Ok(TableFormat("org.apache.hadoop.hive.ql.io.parquet.MapredParquetInputFormat",
                     "org.apache.hadoop.hive.ql.io.parquet.MapredParquetOutputFormat",
                     SerdeInfo("org.apache.hadoop.hive.ql.io.parquet.serde.ParquetHiveSerDe", map["serialization.format" := "1"]),
                     "tbpq_"))
    else Err(KeyError(kind))
  }

  /** `DEFAULT_PARTITION_KEYS`. */
  const DefaultPartitionKeys: seq<Column> := [
    Column("pt_country", "string"), Column("pt_year", "string"), Column("pt_month", "string"),
    Column("pt_day", "string"), Column("pt_secs", "string")
  ]

  /** The table description passed to the catalog's CreateTable call (without `creationDate`). */
  datatype TableSpec = TableSpec(
    name: string, columns: seq<Option<Column>>, compressed: bool, location: string,
    inputFormat: string, outputFormat: string, serdeInfo: SerdeInfo,
    partitionKeys: seq<Column>, tableType: string, parameters: map<string, string>)

  /** `table_spec(table_name, kind, s3_path, columns)`. */
  function TableSpecFor(tableName: string, kind: string, s3Path: string, columns: seq<Option<Column>>): (r: Result<TableSpec>)
    ensures r.Ok? <==> GlueTableFormat(kind).Ok?
    ensures r.Ok? ==>
      var f := GlueTableFormat(kind).value;
      && r.value.name == tableName && r.value.location == s3Path && r.value.columns == columns
      && r.value.inputFormat == f.input && r.value.outputFormat == f.output && r.value.serdeInfo == f.serde
      && r.value.partitionKeys == DefaultPartitionKeys
      && r.value.parameters == map["EXTERNAL" := "TRUE", "classification" := kind]
  {
    match GlueTableFormat(kind)
    case Err(e) => Err(e)
    case Ok(f) =>
      Ok(TableSpec(tableName, columns, true, s3Path, f.input, f.output, f.serde,
                   DefaultPartitionKeys, "EXTERNAL_TABLE",
                   map["EXTERNAL" := "TRUE", "classification" := kind]))
  }

  /**
   * The partition keys are the five task partition fields, prefixed `pt_`, in
   * the order country, year, month, day, secs, all of type string. The two
   * kinds differ in every storage-format field.
   */
  lemma {:induction false} TableSpecKinds(tableName: string, s3Path: string, columns: seq<Option<Column>>)
    ensures var csv := TableSpecFor(tableName, "csv", s3Path, columns);
            var parquet := TableSpecFor(tableName, "parquet", s3Path, columns);
            && csv.Ok? && parquet.Ok?
            && csv.value.inputFormat != parquet.value.inputFormat
            && csv.value.outputFormat != parquet.value.outputFormat
            && csv.value.serdeInfo != parquet.value.serdeInfo
            && csv.value.parameters["classification"] != parquet.value.parameters["classification"]
    ensures forall i | 0 <= i < |DefaultPartitionKeys| ::
              DefaultPartitionKeys[i].name == "pt_" + ["country", "year", "month", "day", "secs"][i]
              && DefaultPartitionKeys[i].typ == "string"
  {
    var csv := GlueTableFormat("csv").value;
    var parquet := GlueTableFormat("parquet").value;
    assert |csv.input| != |parquet.input|;
    assert |csv.output| != |parquet.output|;
    assert |csv.serde.serializationLibrary| != |parquet.serde.serializationLibrary|;
  }

  // ---------------------------------------------------------------------
  // parse_fmt
  // ---------------------------------------------------------------------

  /**
   * Where one column line of an FMT file goes in a list of `n` slots, and the
   * column it holds. The line is split on tabs. The first field is the 1-based
   * position, the last field the name, and the type is always `string`. Too few
   * fields or a non-integer position raise ValueError. A position outside the
   * list raises IndexError. Position 0 and negative positions count from the end,
   * as Python indexing does.
   */
  function LineTarget(line: string, n: nat): (r: Result<(nat, Column)>)
    ensures r.Ok? ==> r.value.0 < n && r.value.1.typ == "string"
  {
    var fields := Split(line, '\t');
    if |fields| < 2 then Err(ValueError("not enough values to unpack"))
    else match ParseInt(fields[0])
      case None => Err(ValueError("invalid literal for int() with base 10"))
      case Some(position) =>
        match ListIndex(position - 1, n)
        case None => Err(IndexError)
        case Some(i) => Ok((i, Column(fields[|fields| - 1], "string")))
  }

  /** The slot assignments of the loop over `lines`, in order; the first failing line raises. */
  function PlaceAll(columns: seq<Option<Column>>, lines: seq<string>): (r: Result<seq<Option<Column>>>)
    ensures r.Ok? ==> |r.value| == |columns|
    decreases |lines|
  {
    if lines == [] then Ok(columns)
    else match LineTarget(lines[0], |columns|)
      case Err(e) => Err(e)
      case Ok(placed) => PlaceAll(columns[placed.0 := Some(placed.1)], lines[1..])
  }

  /** The column count on the second line; a missing line or a non-integer raises. */
  function ColumnCount(lines: seq<string>): Result<int> {
    if |lines| < 2 then Err(IndexError)
    else match ParseInt(lines[1])
      case None => Err(ValueError("invalid literal for int() with base 10"))
      case Some(count) => Ok(count)
  }

  /** Number of slots `[None] * count` allocates. */
  function Slots(count: int): nat {
    if count < 0 then 0 else count
  }

  /** The column lines `lines[2:2 + count]` that parse_fmt reads. */
  function ColumnLines(lines: seq<string>, count: int): seq<string> {
    Slice(lines, 2, 2 + count)
  }

  /** `parse_fmt` applied to the already split lines. */
  function ParseFmtLines(lines: seq<string>): (r: Result<seq<Option<Column>>>)
    ensures r.Ok? ==> ColumnCount(lines).Ok? && |r.value| == Slots(ColumnCount(lines).value)
  {
    match ColumnCount(lines)
    case Err(e) => Err(e)
    case Ok(count) => PlaceAll(seq(Slots(count), _ => None), ColumnLines(lines, count))
  }

  /** `parse_fmt(data)`. */
  function ParseFmtSpec(data: string): Result<seq<Option<Column>>> {
    ParseFmtLines(SplitLines(data))
  }

  /** `parse_fmt`: preallocate the column list and fill it slot by slot from the column lines. */
  method ParseFmt(data: string) returns (r: Result<seq<Option<Column>>>)
    ensures r == ParseFmtSpec(data)
  {
    var lines := SplitLines(data);
    if |lines| < 2 {
      return Err(IndexError);
    }
    var parsed := ParseInt(lines[1]);
    if parsed.None? {
      return Err(ValueError("invalid literal for int() with base 10"));
    }
    var count := parsed.value;
    var start := 2;
    var end := start + count;
    var columns := new Option<Column>[Slots(count)](_ => None);
    ghost var initial := columns[..];
    assert initial == seq(Slots(count), _ => None);
    var body := Slice(lines, start, end);
    var i := 0;
    while i < |body|
      invariant 0 <= i <= |body|
      invariant PlaceAll(columns[..], body[i..]) == PlaceAll(initial, body)
      invariant columns.Length == Slots(count)
    {
      var target := LineTarget(body[i], columns.Length);
      if target.Err? {
        return Err(target.error);
      }
      assert body[i..][0] == body[i] && body[i..][1..] == body[i + 1..];
      columns[target.value.0] := Some(target.value.1);
      i := i + 1;
    }
    return Ok(columns[..]);
  }

  /** Whether a line of a list is the last one in it to target slot `k`. */
  predicate LastWriter(lines: seq<string>, n: nat, j: nat)
    requires j < |lines|
    requires forall m | 0 <= m < |lines| :: LineTarget(lines[m], n).Ok?
  {
    forall m | j < m < |lines| :: LineTarget(lines[m], n).value.0 != LineTarget(lines[j], n).value.0
  }

  /**
   * The loop fails exactly when some line is malformed. Otherwise the slot of
   * each line holds that line's column, unless a later line takes the same slot.
   * Slots that no line targets keep their value. The list never changes length.
   */
  lemma {:induction false} PlaceAllResult(columns: seq<Option<Column>>, lines: seq<string>)
    ensures PlaceAll(columns, lines).Ok? <==> forall m | 0 <= m < |lines| :: LineTarget(lines[m], |columns|).Ok?
    ensures PlaceAll(columns, lines).Ok? ==>
      var out := PlaceAll(columns, lines).value;
      && (forall j | 0 <= j < |lines| && LastWriter(lines, |columns|, j) ::
            out[LineTarget(lines[j], |columns|).value.0] == Some(LineTarget(lines[j], |columns|).value.1))
      && (forall k | 0 <= k < |columns| && (forall m | 0 <= m < |lines| :: LineTarget(lines[m], |columns|).value.0 != k) ::
            out[k] == columns[k])
  {
    PlaceAllOk(columns, lines);
    if forall m | 0 <= m < |lines| :: LineTarget(lines[m], |columns|).Ok? {
      PlaceAllKeeps(columns, lines);
      PlaceAllLastWriter(columns, lines);
    }
  }

  /** The loop fails exactly when some line is malformed. */
  lemma {:induction false} PlaceAllOk(columns: seq<Option<Column>>, lines: seq<string>)
    ensures PlaceAll(columns, lines).Ok? <==> forall m | 0 <= m < |lines| :: LineTarget(lines[m], |columns|).Ok?
    decreases |lines|
  {
    if lines != [] {
      var t := LineTarget(lines[0], |columns|);
      if t.Ok? {
        PlaceAllOk(columns[t.value.0 := Some(t.value.1)], lines[1..]);
        assert forall m | 1 <= m < |lines| :: lines[1..][m - 1] == lines[m];
      }
    }
  }

  /** Slots that no line targets keep their value. */
  lemma {:induction false} PlaceAllKeeps(columns: seq<Option<Column>>, lines: seq<string>)
    requires forall m | 0 <= m < |lines| :: LineTarget(lines[m], |columns|).Ok?
    ensures PlaceAll(columns, lines).Ok?
    ensures forall k | 0 <= k < |columns| && (forall m | 0 <= m < |lines| :: LineTarget(lines[m], |columns|).value.0 != k) ::
              PlaceAll(columns, lines).value[k] == columns[k]
    decreases |lines|
  {
    if lines != [] {
      var t := LineTarget(lines[0], |columns|);
      assert forall m | 1 <= m < |lines| :: lines[1..][m - 1] == lines[m];
      PlaceAllKeeps(columns[t.value.0 := Some(t.value.1)], lines[1..]);
    }
  }

  /** The slot of each line holds that line's column, unless a later line takes the same slot. */
  lemma {:induction false} PlaceAllLastWriter(columns: seq<Option<Column>>, lines: seq<string>)
    requires forall m | 0 <= m < |lines| :: LineTarget(lines[m], |columns|).Ok?
    ensures PlaceAll(columns, lines).Ok?
    ensures forall j | 0 <= j < |lines| && LastWriter(lines, |columns|, j) ::
              PlaceAll(columns, lines).value[LineTarget(lines[j], |columns|).value.0] == Some(LineTarget(lines[j], |columns|).value.1)
    decreases |lines|
  {
    PlaceAllKeeps(columns, lines);
    if lines != [] {
      var n := |columns|;
      var t := LineTarget(lines[0], n);
      var next := columns[t.value.0 := Some(t.value.1)];
      assert forall m | 1 <= m < |lines| :: lines[1..][m - 1] == lines[m];
      PlaceAllLastWriter(next, lines[1..]);
      PlaceAllKeeps(next, lines[1..]);
      var out := PlaceAll(columns, lines).value;
      forall j | 0 <= j < |lines| && LastWriter(lines, n, j)
        ensures out[LineTarget(lines[j], n).value.0] == Some(LineTarget(lines[j], n).value.1)
      {
        if j == 0 {
          assert forall m | 0 <= m < |lines[1..]| :: LineTarget(lines[1..][m], n).value.0 != t.value.0;
        } else {
          assert LastWriter(lines[1..], n, j - 1);
        }
      }
    }
  }

  /** Lines after the `count` column lines are never read. */
  lemma {:induction false} ParseFmtIgnoresLaterLines(lines: seq<string>, later: seq<string>)
    requires ColumnCount(lines).Ok? && ColumnCount(lines).value >= 0
    requires |lines| >= 2 + ColumnCount(lines).value
    ensures ParseFmtLines(lines + later) == ParseFmtLines(lines)
    ensures ParseFmtLines(lines) == ParseFmtLines(lines[..2 + ColumnCount(lines).value])
  {
    var count := ColumnCount(lines).value;
    assert (lines + later)[1] == lines[1];
    assert lines[..2 + count][1] == lines[1];
    assert ColumnLines(lines + later, count) == lines[2..2 + count];
    assert ColumnLines(lines[..2 + count], count) == lines[2..2 + count];
  }

  /** A column line whose first tab field is the position `p` and which has a last field after it. */
  predicate HasPosition(line: string, p: int) {
    var fields := Split(line, '\t');
    |fields| >= 2 && ParseInt(fields[0]) == Some(p)
  }

  /** A well-formed layout: line 1 holds `count`, and column line `k` starts with position `k + 1`. */
  predicate WellFormedFmt(lines: seq<string>, count: nat) {
    && |lines| >= 2 + count
    && ParseInt(lines[1]) == Some(count)
    && var body := lines[2..2 + count];
       forall k | 0 <= k < count :: HasPosition(body[k], k + 1)
  }

  lemma LineTargetOfPosition(line: string, p: int, n: nat)
    requires HasPosition(line, p) && 1 <= p <= n
    ensures LineTarget(line, n) == Ok((p - 1, Column(LastField(line, '\t'), "string")))
  {
  }

  /**
   * On a well-formed layout, `parse_fmt` yields `count` columns. Column `k` is
   * named by the last tab field of column line `k` and has type `string`.
   */
  lemma {:induction false} ParseFmtWellFormed(lines: seq<string>, count: nat)
    requires WellFormedFmt(lines, count)
    ensures ParseFmtLines(lines).Ok?
    ensures var cols := ParseFmtLines(lines).value;
            && |cols| == count
            && forall k | 0 <= k < count :: cols[k] == Some(Column(LastField(lines[2 + k], '\t'), "string"))
  {
    var body := lines[2..2 + count];
    assert ColumnCount(lines) == Ok(count);
    assert ColumnLines(lines, count) == body;
    var empty: seq<Option<Column>> := seq(count, _ => None);
    assert ParseFmtLines(lines) == PlaceAll(empty, body);
    forall m | 0 <= m < count
      ensures LineTarget(body[m], count) == Ok((m, Column(LastField(body[m], '\t'), "string")))
    {
      LineTargetOfPosition(body[m], m + 1, count);
    }
    PlaceAllResult(empty, body);
    forall k | 0 <= k < count
      ensures LastWriter(body, count, k)
    {
    }
    forall k | 0 <= k < count
      ensures PlaceAll(empty, body).value[k] == Some(Column(LastField(lines[2 + k], '\t'), "string"))
    {
      assert body[k] == lines[2 + k];
      assert LineTarget(body[k], count).value.0 == k;
    }
  }

  /**
   * `parse_fmt` on the text of an FMT file reads the file's lines: whether or not
   * the file ends in a newline, the parse is the parse of its lines.
   */
  lemma ParseFmtReadsLines(lines: seq<string>, last: string)
    requires forall k | 0 <= k < |lines| :: NoBoundary(lines[k])
    requires NoBoundary(last)
    ensures ParseFmtSpec(TerminatedLines(lines) + last) == ParseFmtLines(lines + (if last == [] then [] else [last]))
  {
    SplitLinesOfText(lines, last);
  }

  /**
   * A well-formed FMT file whose last line is terminated, as a text: its parse
   * is the column list of its column lines, in order.
   */
  lemma ParseFmtTextWellFormed(lines: seq<string>, count: nat)
    requires WellFormedFmt(lines, count)
    requires forall k | 0 <= k < |lines| :: NoBoundary(lines[k])
    ensures ParseFmtSpec(TerminatedLines(lines)).Ok?
    ensures var cols := ParseFmtSpec(TerminatedLines(lines)).value;
            && |cols| == count
            && forall k | 0 <= k < count :: cols[k] == Some(Column(LastField(lines[2 + k], '\t'), "string"))
  {
    ParseFmtReadsLines(lines, "");
    assert TerminatedLines(lines) + "" == TerminatedLines(lines);
    assert lines + [] == lines;
    ParseFmtWellFormed(lines, count);
  }

  // ---------------------------------------------------------------------
  // create_table: names, locations and the table it submits
  // ---------------------------------------------------------------------

  /** The table name, output bucket and object key of a system's interface. */
  datatype TableLocation = TableLocation(tableName: string, bucket: string, key: string)

  /**
   * The naming in `create_table`: unknown kind, missing `bucket_output` or
   * missing `glue_s3_key` raise, in that order.
   */
  function TableNames(system: string, iface: string, kind: string, env: map<string, string>): (r: Result<TableLocation>)
    ensures r.Ok? <==> GlueTableFormat(kind).Ok? && "bucket_output" in env && "glue_s3_key" in env
    ensures r.Ok? ==>
      && r.value.tableName == GlueTableFormat(kind).value.prefix + system + "_" + iface
      && r.value.bucket == env["bucket_output"]
      && r.value.key == env["glue_s3_key"] + "/" + kind + "/" + r.value.tableName
  {
    match GlueTableFormat(kind)
    case Err(e) => Err(e)
    case Ok(f) =>
      var tableName := f.prefix + system + "_" + iface;
      if "bucket_output" !in env then Err(KeyError("bucket_output"))
      else if "glue_s3_key" !in env then Err(KeyError("glue_s3_key"))
      else Ok(TableLocation(tableName, env["bucket_output"], env["glue_s3_key"] + "/" + kind + "/" + tableName))
  }

  /** `s3://<bucket>/<key>`. */
  function S3Path(loc: TableLocation): string {
    "s3://" + loc.bucket + "/" + loc.key
  }

  /**
   * The csv table keeps the plain `<system>_<interface>` name. The parquet table
   * adds `tbpq_` in front. The two never share a name or a key.
   */
  lemma {:induction false} CsvAndParquetTablesDiffer(system: string, iface: string, env: map<string, string>)
    requires "bucket_output" in env && "glue_s3_key" in env
    ensures var csv := TableNames(system, iface, "csv", env);
            var parquet := TableNames(system, iface, "parquet", env);
            && csv.Ok? && parquet.Ok?
            && csv.value.tableName == system + "_" + iface
            && parquet.value.tableName == "tbpq_" + csv.value.tableName
            && csv.value.tableName != parquet.value.tableName
            && csv.value.key != parquet.value.key
  {
    var csv := TableNames(system, iface, "csv", env).value;
    var parquet := TableNames(system, iface, "parquet", env).value;
    assert csv.tableName == "" + system + "_" + iface;
    assert |csv.tableName| < |parquet.tableName|;
    var prefix := env["glue_s3_key"] + "/";
    assert csv.key == prefix + "csv" + "/" + csv.tableName;
    assert parquet.key == prefix + "parquet" + "/" + parquet.tableName;
    assert |csv.key| < |parquet.key|;
  }

  /** The object key `load_fmt` reads; a missing `key_prefix_fmt` raises. */
  function FmtKey(system: string, iface: string, env: map<string, string>): (r: Result<string>)
    ensures r.Ok? <==> "key_prefix_fmt" in env
  {
    if "key_prefix_fmt" !in env then Err(KeyError("key_prefix_fmt"))
    else Ok(env["key_prefix_fmt"] + "/" + system + "/" + iface + ".fmt")
  }

  /** What `create_table` returns, and the table it asks the catalog to create (None when it already exists). */
  datatype Created = Created(location: TableLocation, submitted: Option<TableSpec>)

  /** The catalog's answer to `glue.create_table`. */
  datatype CatalogReply = TableCreated | AlreadyExists | CreateFailed

  /**
   * `create_table(system, interface, kind, env)`. `tableExists` is the answer of the
   * catalog lookup, `fmtText` the FMT object at `FmtKey`, and `reply` the catalog's
   * answer to the create call. The names are computed first, then `glue_db` is
   * read for the lookup. An existing table is returned as is. Otherwise the FMT is
   * loaded and parsed and the table submitted; `AlreadyExistsException` is
   * swallowed, any other failure of the create call propagates.
   */
  method CreateTable(system: string, iface: string, kind: string, env: map<string, string>,
                     tableExists: bool, fmtText: string, reply: CatalogReply)
    returns (r: Result<Created>)
    ensures r.Ok? <==> TableNames(system, iface, kind, env).Ok? && "glue_db" in env
                       && (tableExists || (FmtKey(system, iface, env).Ok? && ParseFmtSpec(fmtText).Ok? && reply != CreateFailed))
    ensures r.Ok? ==> TableNames(system, iface, kind, env) == Ok(r.value.location)
    ensures TableNames(system, iface, kind, env).Err? ==> r == Err(TableNames(system, iface, kind, env).error)
    ensures TableNames(system, iface, kind, env).Ok? && "glue_db" !in env ==> r == Err(KeyError("glue_db"))
    ensures r.Ok? && tableExists ==> r.value.submitted.None?
    ensures r.Ok? && !tableExists ==>
      r.value.submitted == Some(TableSpecFor(r.value.location.tableName, kind, S3Path(r.value.location),
                                             ParseFmtSpec(fmtText).value).value)
    ensures r.Err? && reply == CreateFailed && FmtKey(system, iface, env).Ok? && ParseFmtSpec(fmtText).Ok?
            && TableNames(system, iface, kind, env).Ok? && "glue_db" in env && !tableExists ==>
              r == Err(ClientError("CreateTable"))
  {
    var names := TableNames(system, iface, kind, env);
    if names.Err? {
      return Err(names.error);
    }
    var location := names.value;
    if "glue_db" !in env {
      return Err(KeyError("glue_db"));
    }
    if tableExists {
      return Ok(Created(location, None));
    }
    var key := FmtKey(system, iface, env);
    if key.Err? {
      return Err(key.error);
    }
    var columns := ParseFmt(fmtText);
    if columns.Err? {
      return Err(columns.error);
    }
    var table := TableSpecFor(location.tableName, kind, S3Path(location), columns.value);
    if reply == CreateFailed {
      return Err(ClientError("CreateTable"));
    }
    return Ok(Created(location, Some(table.value)));
  }
}
