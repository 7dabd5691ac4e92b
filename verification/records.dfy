/** `parse_notion_data`: turning a database-query response into rows, one
    per record of `results`, each holding one cell per declared column. */
module Records {
  import opened Results
  import opened PyJson
  import opened Kinds
  import opened Cells

  /** One entry of a column mapping: the column's name and its kind string. */
  datatype Column = Column(name: string, tag: string)

  /** A table's declared columns, in the mapping's order. */
  type Schema = seq<Column>

  /** One decoded record: column name to cell. */
  type Row = map<string, Json>

  function Names(schema: Schema): set<string> {
    set c | c in schema :: c.name
  }

  /** No column is declared twice, as in a dict of columns. */
  predicate DistinctNames(schema: Schema) {
    forall i, j :: 0 <= i < j < |schema| ==> schema[i].name != schema[j].name
  }

  /** The cell of column `c` in a record whose properties are `props`. */
  function CellOf(props: Json, c: Column): Result<Json> {
    DecodeCell(props, c.name, c.tag)
  }

  lemma NamesOfSnoc(schema: Schema)
    requires |schema| > 0
    ensures Names(schema) == Names(schema[..|schema| - 1]) + {schema[|schema| - 1].name}
  {
    var init := schema[..|schema| - 1];
    assert schema == init + [schema[|schema| - 1]];
    forall n | n in Names(schema)
      ensures n in Names(init) + {schema[|schema| - 1].name}
    {
      var i :| 0 <= i < |schema| && schema[i].name == n;
      if i < |schema| - 1 {
        assert init[i] == schema[i];
      }
    }
  }

  /** How a row obtains the cell of one column from a record's properties. */
  type CellDecoder = (Json, Column) -> Result<Json>

  /** The loop over the columns with `cell` as the decoder: the columns are
      decoded in order, the first failing one aborts the row with its
      exception, and each cell is stored under its column's name. */
  function RowWith(props: Json, schema: Schema, cell: CellDecoder): (r: Result<Row>)
    ensures r.Ok? <==> forall i :: 0 <= i < |schema| ==> cell(props, schema[i]).Ok?
    ensures r.Ok? ==> r.value.Keys == Names(schema)
    ensures r.Err? ==> exists i :: 0 <= i < |schema| && cell(props, schema[i]) == Err(r.error)
  {
    if |schema| == 0 then
      Ok(map[])
    else
      var init := schema[..|schema| - 1];
      var c := schema[|schema| - 1];
      NamesOfSnoc(schema);
      assert forall i :: 0 <= i < |init| ==> init[i] == schema[i];
      var row :- RowWith(props, init, cell);
      var v :- cell(props, c);
      Ok(row[c.name := v])
  }

  /** The last column is decoded after all the others, and only when they
      all succeeded. */
  lemma RowWithStep(props: Json, schema: Schema, cell: CellDecoder)
    requires |schema| > 0
    ensures var init := RowWith(props, schema[..|schema| - 1], cell);
      var v := cell(props, schema[|schema| - 1]);
      RowWith(props, schema, cell) ==
        if init.Err? then Err(init.error)
        else if v.Err? then Err(v.error)
        else Ok(init.value[schema[|schema| - 1].name := v.value])
  {
  }

  /** With distinct column names, every column's cell lands under its own
      name. */
  lemma {:induction false} RowWithCells(props: Json, schema: Schema, cell: CellDecoder, i: int)
    requires DistinctNames(schema)
    requires RowWith(props, schema, cell).Ok?
    requires 0 <= i < |schema|
    ensures RowWith(props, schema, cell).value[schema[i].name] == cell(props, schema[i]).value
  {
    var last := |schema| - 1;
    var init := schema[..last];
    RowWithStep(props, schema, cell);
    assert RowWith(props, init, cell).Ok? && cell(props, schema[last]).Ok?;
    if i < last {
      forall a, b | 0 <= a < b < |init|
        ensures init[a].name != init[b].name
      {
        assert init[a] == schema[a] && init[b] == schema[b];
      }
      assert init[i] == schema[i];
      RowWithCells(props, init, cell, i);
      assert schema[i].name != schema[last].name;
    }
  }

  /** The exception of a failing row is the one its first failing column
      raises: the columns before it are decoded, the ones after it are not
      reached. */
  lemma {:induction false} RowWithFirstError(props: Json, schema: Schema, cell: CellDecoder, i: int)
    requires 0 <= i < |schema|
    requires forall j :: 0 <= j < i ==> cell(props, schema[j]).Ok?
    requires cell(props, schema[i]).Err?
    ensures RowWith(props, schema, cell) == Err(cell(props, schema[i]).error)
  {
    var last := |schema| - 1;
    var init := schema[..last];
    var e := cell(props, schema[i]).error;
    RowWithStep(props, schema, cell);
    if i < last {
      forall j | 0 <= j < i
        ensures cell(props, init[j]).Ok?
      {
        assert init[j] == schema[j];
      }
      assert init[i] == schema[i];
      RowWithFirstError(props, init, cell, i);
      assert RowWith(props, init, cell) == Err(e);
    } else {
      forall j | 0 <= j < |init|
        ensures cell(props, init[j]).Ok?
      {
        assert init[j] == schema[j];
      }
      assert RowWith(props, init, cell).Ok?;
    }
  }

  /** The row of one record whose properties are `props`. */
  function BuildRow(props: Json, schema: Schema): (r: Result<Row>)
    ensures r.Ok? <==> forall i :: 0 <= i < |schema| ==> CellOf(props, schema[i]).Ok?
    ensures r.Ok? ==> r.value.Keys == Names(schema)
    ensures r.Err? ==> exists i :: 0 <= i < |schema| && CellOf(props, schema[i]) == Err(r.error)
  {
    RowWith(props, schema, CellOf)
  }

  /** With distinct column names, every column's cell lands under its own
      name. */
  lemma BuildRowCells(props: Json, schema: Schema, i: int)
    requires DistinctNames(schema)
    requires BuildRow(props, schema).Ok?
    requires 0 <= i < |schema|
    ensures BuildRow(props, schema).value[schema[i].name] == CellOf(props, schema[i]).value
  {
    RowWithCells(props, schema, CellOf, i);
  }

  /** A failing row raises the exception of its first failing column. */
  lemma BuildRowFirstError(props: Json, schema: Schema, i: int)
    requires 0 <= i < |schema|
    requires forall j :: 0 <= j < i ==> CellOf(props, schema[j]).Ok?
    requires CellOf(props, schema[i]).Err?
    ensures BuildRow(props, schema) == Err(CellOf(props, schema[i]).error)
  {
    RowWithFirstError(props, schema, CellOf, i);
  }

  /** The row of one record of `results`. The record must be a dict; its
      `properties` may be missing, which reads as `{}`. */
  function DecodeRecord(record: Json, schema: Schema): (r: Result<Row>)
    ensures !record.Obj? ==> r == Err(AttributeError)
    ensures r.Ok? ==> r.value.Keys == Names(schema)
    ensures record.Obj? && "properties" !in Keys(record.members) ==> r.Ok?
    ensures Field(record, "properties") == Some(Null) ==>
      (r.Ok? <==> forall i :: 0 <= i < |schema| ==> KindOf(schema[i].tag).Unrecognized?)
    ensures Field(record, "properties") == Some(Null) && r.Err? ==> r.error == AttributeError
    ensures forall props :: Field(record, "properties") == Some(props) ==> r == BuildRow(props, schema)
  {
    var props :- Get(record, "properties", EmptyObj);
    BuildRow(props, schema)
  }

  /** The rows of a list of records, in order; the first record that fails
      aborts the whole list. */
  function DecodeRecords(records: seq<Json>, schema: Schema): (r: Result<seq<Row>>)
    ensures r.Ok? <==> forall i :: 0 <= i < |records| ==> DecodeRecord(records[i], schema).Ok?
    ensures r.Ok? ==> |r.value| == |records|
    ensures r.Ok? ==> forall i :: 0 <= i < |records| ==> r.value[i] == DecodeRecord(records[i], schema).value
    ensures r.Err? ==> exists i :: 0 <= i < |records| && DecodeRecord(records[i], schema) == Err(r.error)
  {
    if |records| == 0 then
      Ok([])
    else
      assert forall i :: 0 < i < |records| ==> records[1..][i - 1] == records[i];
      var row :- DecodeRecord(records[0], schema);
      var rest :- DecodeRecords(records[1..], schema);
      Ok([row] + rest)
  }

  /** The exception of a failing list is the one its first failing record
      raises; the records after it are not decoded. */
  lemma {:induction false} DecodeRecordsFirstError(records: seq<Json>, schema: Schema, i: int)
    requires 0 <= i < |records|
    requires forall j :: 0 <= j < i ==> DecodeRecord(records[j], schema).Ok?
    requires DecodeRecord(records[i], schema).Err?
    ensures DecodeRecords(records, schema) == Err(DecodeRecord(records[i], schema).error)
  {
    var e := DecodeRecord(records[i], schema).error;
    if i > 0 {
      var rest := records[1..];
      forall j | 0 <= j < i - 1
        ensures DecodeRecord(rest[j], schema).Ok?
      {
        assert rest[j] == records[j + 1];
      }
      assert rest[i - 1] == records[i];
      DecodeRecordsFirstError(rest, schema, i - 1);
      assert DecodeRecords(rest, schema) == Err(e);
      assert DecodeRecord(records[0], schema).Ok?;
    }
  }

  /** `parse_notion_data(data, columns)`: `data["results"]` is iterated and
      every element becomes one row. A list of records gives one row per
      record in the same order; a string or dict in place of that list is
      iterated too, so only an empty one gets through (as no rows). */
  function Parse(data: Json, schema: Schema): (r: Result<seq<Row>>)
    ensures !data.Obj? ==> r == Err(TypeError)
    ensures data.Obj? && "results" !in Keys(data.members) ==> r == Err(KeyError)
    ensures r.Ok? ==> forall i :: 0 <= i < |r.value| ==> r.value[i].Keys == Names(schema)
  {
    var results :- Subscript(data, "results");
    var records :- Iterate(results);
    DecodeRecords(records, schema)
  }

  /** A list of records parses to one row per record, in the same order, and
      fails exactly when one of the records fails. */
  lemma ParseRowsInOrder(data: Json, schema: Schema, records: seq<Json>)
    requires Field(data, "results") == Some(Arr(records))
    ensures var r := Parse(data, schema);
      && (r.Ok? <==> forall i :: 0 <= i < |records| ==> DecodeRecord(records[i], schema).Ok?)
      && (r.Ok? ==> |r.value| == |records|)
      && (r.Ok? ==> forall i :: 0 <= i < |records| ==> r.value[i] == DecodeRecord(records[i], schema).value)
  {
  }

  /** Anything but a list in `results`: an empty string or dict iterates to
      no rows, a non-empty one yields strings that have no `get`
      (AttributeError), and anything else is not iterable (TypeError). */
  lemma ParseNonListResults(data: Json, schema: Schema, results: Json)
    requires Field(data, "results") == Some(results)
    requires !results.Arr?
    ensures Parse(data, schema) ==
      if results == Str("") || results == EmptyObj then Ok([])
      else if results.Str? || results.Obj? then Err(AttributeError)
      else Err(TypeError)
  {
    var records := Iterate(results);
    if records.Ok? && records.value != [] {
      assert records.value[0].Str?;
    }
  }

  /** A response whose `results` list is empty parses to no rows, whatever
      the columns. */
  lemma ParseEmptyResults(schema: Schema)
    ensures Parse(Obj([("results", Arr([]))]), schema) == Ok([])
  {
    assert Field(Obj([("results", Arr([]))]), "results") == Some(Arr([]));
  }

  /** A property the record does not carry takes its kind's default in the
      record's row. */
  lemma AbsentPropertyDefault(record: Json, props: Json, schema: Schema, i: int)
    requires DistinctNames(schema)
    requires 0 <= i < |schema|
    requires Field(record, "properties") == Some(props)
    requires props.Obj? && schema[i].name !in Keys(props.members)
    requires DecodeRecord(record, schema).Ok?
    ensures DecodeRecord(record, schema).value[schema[i].name] == Default(KindOf(schema[i].tag))
  {
    BuildRowCells(props, schema, i);
  }

  /** A record without `properties` decodes, and every column holds its
      kind's default. */
  lemma MissingPropertiesDefaults(record: Json, schema: Schema)
    requires DistinctNames(schema)
    requires record.Obj? && "properties" !in Keys(record.members)
    ensures DecodeRecord(record, schema).Ok?
    ensures forall i :: 0 <= i < |schema| ==>
      DecodeRecord(record, schema).value[schema[i].name] == Default(KindOf(schema[i].tag))
  {
    forall i | 0 <= i < |schema|
      ensures DecodeRecord(record, schema).value[schema[i].name] == Default(KindOf(schema[i].tag))
    {
      BuildRowCells(EmptyObj, schema, i);
    }
  }

  /** Nothing is defaulted once a step raises: a single failing cell of a
      single record makes the whole parse fail. */
  lemma CellFailureFailsParse(data: Json, schema: Schema, records: seq<Json>, i: int, props: Json, j: int)
    requires Field(data, "results") == Some(Arr(records))
    requires 0 <= i < |records| && 0 <= j < |schema|
    requires Field(records[i], "properties") == Some(props)
    requires CellOf(props, schema[j]).Err?
    ensures Parse(data, schema).Err?
  {
    ParseRowsInOrder(data, schema, records);
    assert DecodeRecord(records[i], schema) == BuildRow(props, schema);
  }
}
