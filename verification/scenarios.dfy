/** Worked records of the dashboard's own tables, decoded with their column
    mappings. */
module Scenarios {
  import opened Results
  import opened PyJson
  import opened Kinds
  import opened Cells
  import opened Records
  import opened Dashboard

  /** A title property whose only span reads `text`. */
  function TitleProperty(text: string): Json {
    Obj([("title", Arr([Obj([("text", Obj([("content", Str(text))]))])]))])
  }

  /** A relation property pointing at one page. */
  function RelationProperty(id: string): Json {
    Obj([("relation", Arr([Obj([("id", Str(id))])]))])
  }

  lemma OneMember(k: string, v: Json)
    ensures Keys([(k, v)]) == {k}
    ensures Field(Obj([(k, v)]), k) == Some(v)
  {
    assert LastBinding([(k, v)], k, 0);
    LookupIsLastBinding([(k, v)], k, 0);
  }

  lemma TwoMembers(k1: string, v1: Json, k2: string, v2: Json)
    requires k1 != k2
    ensures Keys([(k1, v1), (k2, v2)]) == {k1, k2}
    ensures Field(Obj([(k1, v1), (k2, v2)]), k1) == Some(v1)
    ensures Field(Obj([(k1, v1), (k2, v2)]), k2) == Some(v2)
  {
    assert LastBinding([(k1, v1), (k2, v2)], k1, 0);
    assert LastBinding([(k1, v1), (k2, v2)], k2, 1);
    LookupIsLastBinding([(k1, v1), (k2, v2)], k1, 0);
    LookupIsLastBinding([(k1, v1), (k2, v2)], k2, 1);
  }

  /** The title property of one span decodes to that span's text. */
  lemma TitlePropertyDecodes(text: string)
    ensures TitleOf(TitleProperty(text)) == Ok(Str(text))
  {
    var content := Obj([("content", Str(text))]);
    var span := Obj([("text", content)]);
    OneMember("content", Str(text));
    OneMember("text", content);
    OneMember("title", Arr([span]));
  }

  /** The relation property of one page decodes to that page's id. */
  lemma RelationPropertyDecodes(id: string)
    ensures RelationOf(RelationProperty(id)) == Ok(Arr([Str(id)]))
  {
    var rel := Obj([("id", Str(id))]);
    OneMember("id", Str(id));
    OneMember("relation", Arr([rel]));
    var r := RelationOf(RelationProperty(id));
    assert r.value.items[0] == Str(id);
    assert r.value.items == [Str(id)];
  }

  /** A row of two distinct, decodable columns. */
  lemma TwoColumnRow(props: Json, c1: Column, v1: Json, c2: Column, v2: Json)
    requires c1.name != c2.name
    requires CellOf(props, c1) == Ok(v1) && CellOf(props, c2) == Ok(v2)
    ensures BuildRow(props, [c1, c2]) == Ok(map[c1.name := v1, c2.name := v2])
  {
    assert [c1, c2][..1] == [c1];
    assert [c1][..0] == [];
    assert BuildRow(props, [c1]) == Ok(map[c1.name := v1]);
  }

  /** The properties of a cell named "Alpha" with one member, page "p1". */
  const AlphaProps: Json := Obj([("Nombre", TitleProperty("Alpha")), ("Personas", RelationProperty("p1"))])

  /** Both of Alpha's properties decode. */
  lemma AlphaCells()
    ensures CellOf(AlphaProps, Column("Nombre", "title")) == Ok(Str("Alpha"))
    ensures CellOf(AlphaProps, Column("Personas", "relation")) == Ok(Arr([Str("p1")]))
  {
    TwoMembers("Nombre", TitleProperty("Alpha"), "Personas", RelationProperty("p1"));
    TitlePropertyDecodes("Alpha");
    RelationPropertyDecodes("p1");
    assert KindOf("title") == Title;
    assert KindOf("relation") == Relation;
  }

  /** A "celulas" record decodes to its title and its related page ids; the
      record's own `id` does not become a column. */
  lemma CelulaRow()
    ensures DecodeRecord(Obj([("id", Str("c1")), ("properties", AlphaProps)]), ColumnsMapping["celulas"])
         == Ok(map["Nombre" := Str("Alpha"), "Personas" := Arr([Str("p1")])])
  {
    var nombre := Column("Nombre", "title");
    var personas := Column("Personas", "relation");
    assert ColumnsMapping["celulas"] == [nombre, personas];
    TwoMembers("id", Str("c1"), "properties", AlphaProps);
    AlphaCells();
    TwoColumnRow(AlphaProps, nombre, Str("Alpha"), personas, Arr([Str("p1")]));
  }

  /** A project whose status was never set: the API sends `"select": null`,
      which `get` does not replace by `{}`, so decoding the project raises
      AttributeError instead of yielding "Sin Datos". */
  lemma UnsetSelectRaises()
    ensures var record := Obj([("properties", Obj([("Nombre", TitleProperty("Web")),
                                                   ("Estado", Obj([("select", Null)]))]))]);
      DecodeRecord(record, ColumnsMapping["proyectos"]) == Err(AttributeError)
  {
    var estado := Obj([("select", Null)]);
    var props := Obj([("Nombre", TitleProperty("Web")), ("Estado", estado)]);
    var record := Obj([("properties", props)]);
    var schema := ColumnsMapping["proyectos"];
    assert schema[1] == Column("Estado", "select");
    OneMember("properties", props);
    TwoMembers("Nombre", TitleProperty("Web"), "Estado", estado);
    OneMember("select", Null);
    TitlePropertyDecodes("Web");
    assert KindOf("title") == Title;
    assert KindOf("select") == Select;
    assert CellOf(props, schema[1]) == Err(AttributeError);
    BuildRowFirstError(props, schema, 1);
  }
}
