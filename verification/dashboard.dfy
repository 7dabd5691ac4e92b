/** The table-assembly loop of the dashboard script: every table's query
    result, when there is one and it is truthy, is parsed with that table's
    column mapping and stored under the table's name. The HTTP query itself
    is not modelled: its outcome arrives as an `Option<Json>` per table. */
module Dashboard {
  import opened Results
  import opened PyJson
  import opened Kinds
  import opened Records

  /** The tables, in the order the script queries them. */
  const TableNames: seq<string> := ["proyectos", "celulas", "productos", "clientes", "personas"]

  /** The column mapping of each table. */
  const ColumnsMapping: map<string, Schema> := map[
    "proyectos" := [Column("Nombre", "title"), Column("Estado", "select"), Column("Fecha Inicio", "date"),
                    Column("Fecha Fin", "date"), Column("Células", "relation"), Column("Productos", "relation")],
    "celulas" := [Column("Nombre", "title"), Column("Personas", "relation")],
    "productos" := [Column("Nombre", "title"), Column("Precio", "number"), Column("Proyectos", "relation")],
    "clientes" := [Column("Nombre", "title"), Column("Sector", "select"), Column("Proyectos", "relation")],
    "personas" := [Column("Nombre", "title"), Column("Cargo", "select"), Column("Célula", "relation")]
  ]

  /** One table's name and what its query returned: `None` when the answer
      was not 200 (with a JSON body), the decoded body otherwise. A query
      that raises is not represented. */
  type Fetch = (string, Option<Json>)

  /** `if data:` — the query returned something truthy. */
  predicate Kept(f: Fetch) {
    f.1.Some? && Truthy(f.1.value)
  }

  /** The names of the tables whose query result is kept. */
  function KeptNames(fetched: seq<Fetch>): set<string> {
    set f | f in fetched && Kept(f) :: f.0
  }

  /** No table is queried twice, as in a dict of databases. */
  predicate DistinctTables(fetched: seq<Fetch>) {
    forall i, j :: 0 <= i < j < |fetched| ==> fetched[i].0 != fetched[j].0
  }

  /** The parser the loop applies to a kept table's data. */
  type Parser = (Json, Schema) -> Result<seq<Row>>

  /** `parse(data, columns_mapping[key])` for a kept table; the mapping
      lookup raises KeyError for a table without columns. */
  function ParseTable(f: Fetch, mapping: map<string, Schema>, parse: Parser): (r: Result<seq<Row>>)
    requires Kept(f)
    ensures f.0 !in mapping ==> r == Err(KeyError)
    ensures f.0 in mapping ==> r == parse(f.1.value, mapping[f.0])
  {
    if f.0 in mapping then parse(f.1.value, mapping[f.0]) else Err(KeyError)
  }

  lemma KeptNamesOfSnoc(fetched: seq<Fetch>)
    requires |fetched| > 0
    ensures var last := fetched[|fetched| - 1];
      KeptNames(fetched) == KeptNames(fetched[..|fetched| - 1]) + (if Kept(last) then {last.0} else {})
  {
    var init := fetched[..|fetched| - 1];
    assert fetched == init + [fetched[|fetched| - 1]];
    forall n | n in KeptNames(fetched)
      ensures n in KeptNames(init) || n == fetched[|fetched| - 1].0
    {
      var i :| 0 <= i < |fetched| && fetched[i].0 == n && Kept(fetched[i]);
      if i < |fetched| - 1 {
        assert init[i] == fetched[i];
      }
    }
  }

  /** The loop over the tables, in order, with `parse` as the parser. A falsy
      or missing query result only leaves its table out; an exception while
      parsing a kept table (or a kept table without a column mapping) stops
      the script. */
  function AssembleWith(fetched: seq<Fetch>, mapping: map<string, Schema>, parse: Parser): (r: Result<map<string, seq<Row>>>)
    ensures r.Ok? <==> forall i :: 0 <= i < |fetched| && Kept(fetched[i]) ==> ParseTable(fetched[i], mapping, parse).Ok?
    ensures r.Ok? ==> r.value.Keys == KeptNames(fetched)
    ensures r.Err? ==> exists i :: 0 <= i < |fetched| && Kept(fetched[i]) && ParseTable(fetched[i], mapping, parse) == Err(r.error)
  {
    if |fetched| == 0 then
      Ok(map[])
    else
      var init := fetched[..|fetched| - 1];
      var f := fetched[|fetched| - 1];
      KeptNamesOfSnoc(fetched);
      assert forall i :: 0 <= i < |init| ==> init[i] == fetched[i];
      var tables :- AssembleWith(init, mapping, parse);
      if Kept(f) then
        var rows :- ParseTable(f, mapping, parse);
        Ok(tables[f.0 := rows])
      else
        Ok(tables)
  }

  /** The last table is handled after all the others, and only when they all
      succeeded. */
  lemma AssembleStep(fetched: seq<Fetch>, mapping: map<string, Schema>, parse: Parser)
    requires |fetched| > 0
    ensures var init := AssembleWith(fetched[..|fetched| - 1], mapping, parse);
      var f := fetched[|fetched| - 1];
      AssembleWith(fetched, mapping, parse) ==
        if init.Err? then Err(init.error)
        else if !Kept(f) then init
        else if ParseTable(f, mapping, parse).Err? then Err(ParseTable(f, mapping, parse).error)
        else Ok(init.value[f.0 := ParseTable(f, mapping, parse).value])
  {
  }

  /** Each kept table holds exactly the rows its data parses to. */
  lemma {:induction false} AssembleRows(fetched: seq<Fetch>, mapping: map<string, Schema>, parse: Parser, i: int)
    requires DistinctTables(fetched)
    requires AssembleWith(fetched, mapping, parse).Ok?
    requires 0 <= i < |fetched| && Kept(fetched[i])
    ensures ParseTable(fetched[i], mapping, parse).Ok?
    ensures AssembleWith(fetched, mapping, parse).value[fetched[i].0] == ParseTable(fetched[i], mapping, parse).value
  {
    var last := |fetched| - 1;
    var init := fetched[..last];
    AssembleStep(fetched, mapping, parse);
    assert AssembleWith(init, mapping, parse).Ok?;
    if i < last {
      forall a, b | 0 <= a < b < |init|
        ensures init[a].0 != init[b].0
      {
        assert init[a] == fetched[a] && init[b] == fetched[b];
      }
      assert init[i] == fetched[i];
      AssembleRows(init, mapping, parse, i);
      assert fetched[i].0 != fetched[last].0;
    }
  }

  /** The exception of a failing loop is the one raised for the first kept
      table whose mapping lookup or parse fails; later tables are not
      reached. */
  lemma {:induction false} AssembleFirstError(fetched: seq<Fetch>, mapping: map<string, Schema>, parse: Parser, i: int)
    requires 0 <= i < |fetched| && Kept(fetched[i])
    requires ParseTable(fetched[i], mapping, parse).Err?
    requires forall j :: 0 <= j < i && Kept(fetched[j]) ==> ParseTable(fetched[j], mapping, parse).Ok?
    ensures AssembleWith(fetched, mapping, parse) == Err(ParseTable(fetched[i], mapping, parse).error)
  {
    var last := |fetched| - 1;
    var init := fetched[..last];
    var e := ParseTable(fetched[i], mapping, parse).error;
    AssembleStep(fetched, mapping, parse);
    if i < last {
      forall j | 0 <= j < i && Kept(init[j])
        ensures ParseTable(init[j], mapping, parse).Ok?
      {
        assert init[j] == fetched[j];
      }
      assert init[i] == fetched[i];
      AssembleFirstError(init, mapping, parse, i);
      assert AssembleWith(fetched[..last], mapping, parse) == Err(e);
    } else {
      forall j | 0 <= j < |init| && Kept(init[j])
        ensures ParseTable(init[j], mapping, parse).Ok?
      {
        assert init[j] == fetched[j];
      }
      assert AssembleWith(init, mapping, parse).Ok?;
    }
  }

  /** A table whose query answered with a non-200 status drops out of the
      result and nothing else changes: the other tables are still present with the same rows. */
  lemma FailedFetchIsolated(fetched: seq<Fetch>, mapping: map<string, Schema>, parse: Parser, i: int)
    requires DistinctTables(fetched)
    requires 0 <= i < |fetched|
    requires AssembleWith(fetched, mapping, parse).Ok?
    ensures var r := AssembleWith(fetched, mapping, parse).value;
      var r' := AssembleWith(fetched[i := (fetched[i].0, None)], mapping, parse);
      && r'.Ok?
      && r'.value.Keys == r.Keys - {fetched[i].0}
      && forall n :: n in r'.value ==> r'.value[n] == r[n]
  {
    var f' := fetched[i := (fetched[i].0, None)];
    var r := AssembleWith(fetched, mapping, parse).value;
    assert forall j :: 0 <= j < |f'| && j != i ==> f'[j] == fetched[j];
    assert DistinctTables(f');
    var r' := AssembleWith(f', mapping, parse);
    assert r'.Ok?;
    forall n | n in r'.value
      ensures n in r && r'.value[n] == r[n]
    {
      var j :| 0 <= j < |f'| && f'[j].0 == n && Kept(f'[j]);
      assert j != i;
      AssembleRows(f', mapping, parse, j);
      AssembleRows(fetched, mapping, parse, j);
    }
    forall n | n in r && n != fetched[i].0
      ensures n in r'.value
    {
      var j :| 0 <= j < |fetched| && fetched[j].0 == n && Kept(fetched[j]);
      assert f'[j] == fetched[j];
    }
  }

  /** The `dataframes` dict after the script's loop, which parses with
      `parse_notion_data`. */
  function Assemble(fetched: seq<Fetch>, mapping: map<string, Schema>): (r: Result<map<string, seq<Row>>>)
    ensures r.Ok? <==> forall i :: 0 <= i < |fetched| && Kept(fetched[i]) ==>
      fetched[i].0 in mapping && Parse(fetched[i].1.value, mapping[fetched[i].0]).Ok?
    ensures r.Ok? ==> r.value.Keys == KeptNames(fetched)
    ensures r.Err? ==>
      exists i :: 0 <= i < |fetched| && Kept(fetched[i]) &&
        (if fetched[i].0 in mapping then Parse(fetched[i].1.value, mapping[fetched[i].0]) == Err(r.error)
         else r.error == KeyError)
  {
    AssembleWith(fetched, mapping, Parse)
  }

  /** Every table the script queries has a column mapping, whose column
      names are distinct and whose kinds are all handled ones. */
  lemma MappingCoversTables()
    ensures forall n :: n in TableNames ==> n in ColumnsMapping
    ensures forall n :: n in ColumnsMapping ==> DistinctNames(ColumnsMapping[n])
    ensures forall n, c :: n in ColumnsMapping && c in ColumnsMapping[n] ==> c.tag in HandledTags
  {
  }

  /** With the script's own tables and mappings, the loop can only fail in
      the parser: it succeeds exactly when every kept table parses. */
  lemma DashboardAssembly(fetched: seq<Fetch>)
    requires |fetched| == |TableNames|
    requires forall i :: 0 <= i < |fetched| ==> fetched[i].0 == TableNames[i]
    ensures Assemble(fetched, ColumnsMapping).Ok? <==>
      forall i :: 0 <= i < |fetched| && Kept(fetched[i]) ==> Parse(fetched[i].1.value, ColumnsMapping[TableNames[i]]).Ok?
  {
    MappingCoversTables();
    assert forall i :: 0 <= i < |fetched| ==> TableNames[i] in TableNames;
  }
}
