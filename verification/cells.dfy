/** Decoding one cell: the value a column of a declared kind takes in one
    record, read out of that record's `properties` object by the same chain of
    `get`, `[0]`, `[key]`, iteration and `join` the dashboard uses. A failing
    step yields the exception that chain raises. */
module Cells {
  import opened Results
  import opened PyJson
  import opened Kinds
  import Strings

  /** Placeholder for a missing title. */
  const NoName: string := "Sin Nombre"
  /** Placeholder for a missing select option and for unhandled kinds. */
  const NoData: string := "Sin Datos"
  /** What separates multi_select option names. */
  const OptionSep: string := ", "

  /** The value a column of kind `k` takes when the record has no property of
      that name. */
  function Default(k: Kind): Json {
    match k
    case Title => Str(NoName)
    case Select => Str(NoData)
    case MultiSelect => Str("")
    case Date => Str("")
    case Number => Num(0.0)
    case Relation => Arr([])
    case Unrecognized(_) => Str(NoData)
  }

  /** `x` is a dict that defines `key`, so `x[key]` succeeds. */
  predicate HasField(x: Json, key: string) {
    x.Obj? && key in Keys(x.members)
  }

  /** `p.get(outer, {}).get(inner, dflt)`: the shape of the select and date
      decoders. */
  function NestedGet(p: Json, outer: string, inner: string, dflt: Json): (r: Result<Json>)
    ensures !p.Obj? ==> r == Err(AttributeError)
    ensures p.Obj? && outer !in Keys(p.members) ==> r == Ok(dflt)
    ensures var o := Field(p, outer); o.Some? && !o.value.Obj? ==> r == Err(AttributeError)
    ensures var o := Field(p, outer); o.Some? && o.value.Obj? && inner !in Keys(o.value.members) ==> r == Ok(dflt)
    ensures var o := Field(p, outer); o.Some? && Field(o.value, inner).Some? ==> r == Ok(Field(o.value, inner).value)
  {
    var o :- Get(p, outer, EmptyObj);
    Get(o, inner, dflt)
  }

  /** The title decoder on the property value `p`: only the first span of the
      `title` array is read, and an absent `title` reads as one empty span. */
  function TitleOf(p: Json): (r: Result<Json>)
    ensures !p.Obj? ==> r == Err(AttributeError)
    ensures p.Obj? && "title" !in Keys(p.members) ==> r == Ok(Str(NoName))
    ensures Field(p, "title") == Some(Arr([])) ==> r == Err(IndexError)
    ensures var t := Field(p, "title"); t.Some? && t.value.Arr? && |t.value.items| > 0 ==>
      r == NestedGet(t.value.items[0], "text", "content", Str(NoName))
    ensures var t := Field(p, "title"); t.Some? && !t.value.Arr? ==> r.Err?
  {
    var spans :- Get(p, "title", Arr([EmptyObj]));
    var first :- First(spans);
    NestedGet(first, "text", "content", Str(NoName))
  }

  /** Spans after the first never matter: two property values whose `title`
      arrays start with the same span decode alike, whatever follows it. */
  lemma TitleIgnoresLaterSpans(p: Json, q: Json, span: Json, rest: seq<Json>, rest': seq<Json>)
    requires Field(p, "title") == Some(Arr([span] + rest))
    requires Field(q, "title") == Some(Arr([span] + rest'))
    ensures TitleOf(p) == TitleOf(q)
    ensures TitleOf(p) == TitleOf(Obj([("title", Arr([span]))]))
  {
  }

  /** Item `i` is the first item that lacks `key`. */
  ghost predicate FirstWithout(items: seq<Json>, key: string, i: int) {
    && 0 <= i < |items|
    && !HasField(items[i], key)
    && forall j :: 0 <= j < i ==> HasField(items[j], key)
  }

  /** `[x[key] for x in items]`: every item must be a dict with `key`; the
      first that is not raises that subscript's exception. */
  function Collect(items: seq<Json>, key: string): (r: Result<seq<Json>>)
    ensures r.Ok? <==> forall i :: 0 <= i < |items| ==> HasField(items[i], key)
    ensures r.Ok? ==> |r.value| == |items|
    ensures r.Ok? ==> forall i :: 0 <= i < |items| ==> Field(items[i], key) == Some(r.value[i])
    ensures forall i :: FirstWithout(items, key, i) ==> r == Err(Subscript(items[i], key).error)
  {
    if |items| == 0 then
      Ok([])
    else
      var v :- Subscript(items[0], key);
      var rest :- Collect(items[1..], key);
      assert forall i :: 0 < i < |items| ==> items[1..][i - 1] == items[i];
      assert forall i :: FirstWithout(items, key, i) ==> i > 0 && FirstWithout(items[1..], key, i - 1);
      Ok([v] + rest)
  }

  /** A multi_select option whose `name` is a string. */
  predicate NamedOption(x: Json) {
    var n := Field(x, "name");
    n.Some? && n.value.Str?
  }

  /** The option names of a list of named options, in order. */
  function OptionNames(opts: seq<Json>): (names: seq<string>)
    requires forall i :: 0 <= i < |opts| ==> NamedOption(opts[i])
    ensures |names| == |opts|
    ensures forall i :: 0 <= i < |opts| ==> Field(opts[i], "name") == Some(Str(names[i]))
  {
    seq(|opts|, i requires 0 <= i < |opts| && NamedOption(opts[i]) => Field(opts[i], "name").value.s)
  }

  /** `", ".join(names)`: every name must be a string (TypeError otherwise). */
  function JoinNames(names: seq<Json>): (r: Result<Json>)
    ensures r.Ok? <==> forall i :: 0 <= i < |names| ==> names[i].Str?
    ensures r.Ok? ==> r.value.Str?
    ensures r.Err? ==> r.error == TypeError
  {
    if forall i :: 0 <= i < |names| ==> names[i].Str? then
      Ok(Str(Strings.Join(OptionSep, seq(|names|, i requires 0 <= i < |names| => names[i].s))))
    else
      Err(TypeError)
  }

  /** The multi_select decoder on the property value `p`. A list of options
      decodes to their names joined by ", " in order, and fails unless every
      option is a dict with a string `name`. A string or dict in place of the
      list is iterated: only an empty one gets through, as "". */
  function MultiSelectOf(p: Json): (r: Result<Json>)
    ensures !p.Obj? ==> r == Err(AttributeError)
    ensures p.Obj? && "multi_select" !in Keys(p.members) ==> r == Ok(Str(""))
    ensures var o := Field(p, "multi_select"); o.Some? && o.value.Arr? ==>
      (r.Ok? <==> forall i :: 0 <= i < |o.value.items| ==> NamedOption(o.value.items[i]))
    ensures var o := Field(p, "multi_select"); o.Some? && o.value.Arr? && r.Ok? ==>
      r.value == Str(Strings.Join(OptionSep, OptionNames(o.value.items)))
    ensures var o := Field(p, "multi_select"); o.Some? && !o.value.Arr? ==>
      r == (if o.value == Str("") || o.value == EmptyObj then Ok(Str("")) else Err(TypeError))
  {
    var opts :- Get(p, "multi_select", Arr([]));
    var items :- Iterate(opts);
    assert items != [] && (opts.Str? || opts.Obj?) ==> FirstWithout(items, "name", 0);
    CollectedNames(items);
    var names :- Collect(items, "name");
    JoinNames(names)
  }

  /** Collecting the `name`s of a list of options and joining them succeeds
      exactly when every option is named, and then joins the option names. */
  lemma CollectedNames(items: seq<Json>)
    ensures var c := Collect(items, "name");
      && (c.Ok? && JoinNames(c.value).Ok? <==> forall i :: 0 <= i < |items| ==> NamedOption(items[i]))
      && (c.Ok? && JoinNames(c.value).Ok? ==>
            JoinNames(c.value).value == Str(Strings.Join(OptionSep, OptionNames(items))))
  {
    var c := Collect(items, "name");
    if c.Ok? {
      var names := c.value;
      if forall i :: 0 <= i < |items| ==> NamedOption(items[i]) {
        var texts := seq(|names|, i requires 0 <= i < |names| => names[i].s);
        assert texts == OptionNames(items);
      }
    }
  }

  /** One option decodes to just its name and an empty list to "". */
  lemma MultiSelectOneOrNone(name: string)
    ensures MultiSelectOf(Obj([("multi_select", Arr([Obj([("name", Str(name))])]))])) == Ok(Str(name))
    ensures MultiSelectOf(Obj([("multi_select", Arr([]))])) == Ok(Str(""))
  {
    var opt := Obj([("name", Str(name))]);
    assert Field(opt, "name") == Some(Str(name));
    var p := Obj([("multi_select", Arr([opt]))]);
    assert Field(p, "multi_select") == Some(Arr([opt]));
    assert OptionNames([opt]) == [name];
    assert Field(Obj([("multi_select", Arr([]))]), "multi_select") == Some(Arr([]));
  }

  /** The relation decoder on the property value `p`. A list of related pages
      decodes to the list of their `id`s, same length and order, and fails
      unless every entry is a dict with an `id`. A string or dict in place of
      the list is iterated: only an empty one gets through, as []. */
  function RelationOf(p: Json): (r: Result<Json>)
    ensures !p.Obj? ==> r == Err(AttributeError)
    ensures p.Obj? && "relation" !in Keys(p.members) ==> r == Ok(Arr([]))
    ensures var o := Field(p, "relation"); o.Some? && o.value.Arr? ==>
      (r.Ok? <==> forall i :: 0 <= i < |o.value.items| ==> HasField(o.value.items[i], "id"))
    ensures var o := Field(p, "relation"); o.Some? && o.value.Arr? && r.Ok? ==>
      && r.value.Arr?
      && |r.value.items| == |o.value.items|
      && forall i :: 0 <= i < |o.value.items| ==> Field(o.value.items[i], "id") == Some(r.value.items[i])
    ensures var o := Field(p, "relation"); o.Some? && !o.value.Arr? ==>
      r == (if o.value == Str("") || o.value == EmptyObj then Ok(Arr([])) else Err(TypeError))
  {
    var rels :- Get(p, "relation", Arr([]));
    var items :- Iterate(rels);
    assert items != [] && (rels.Str? || rels.Obj?) ==> FirstWithout(items, "id", 0);
    var ids :- Collect(items, "id");
    Ok(Arr(ids))
  }

  /** The decoder of one handled kind applied to the property value `p`
      (what `props.get(col, {})` returned). */
  function FromProperty(k: Kind, p: Json): (r: Result<Json>)
    requires !k.Unrecognized?
    ensures !p.Obj? ==> r == Err(AttributeError)
    ensures p == EmptyObj ==> r == Ok(Default(k))
  {
    match k
    case Title => TitleOf(p)
    case Select => NestedGet(p, "select", "name", Str(NoData))
    case MultiSelect => MultiSelectOf(p)
    case Date => NestedGet(p, "date", "start", Str(""))
    case Number => Get(p, "number", Num(0.0))
    case Relation => RelationOf(p)
  }

  /** The value of column `col`, declared with kind string `tag`, in a record
      whose `properties` value is `props`. An unhandled kind never looks at
      the record; a handled kind needs `props` to be a dict and reads a
      missing property as `{}`, which decodes to the kind's default. */
  function DecodeCell(props: Json, col: string, tag: string): (r: Result<Json>)
    ensures KindOf(tag).Unrecognized? ==> r == Ok(Str(NoData))
    ensures !KindOf(tag).Unrecognized? && !props.Obj? ==> r == Err(AttributeError)
    ensures props.Obj? && col !in Keys(props.members) ==> r == Ok(Default(KindOf(tag)))
    ensures !KindOf(tag).Unrecognized? && Field(props, col) == Some(Null) ==> r == Err(AttributeError)
    ensures !KindOf(tag).Unrecognized? && Field(props, col).Some? ==> r == FromProperty(KindOf(tag), Field(props, col).value)
  {
    var k := KindOf(tag);
    if k.Unrecognized? then
      Ok(Str(NoData))
    else
      var p :- Get(props, col, EmptyObj);
      FromProperty(k, p)
  }

  /** The defaults, stated on the kind strings of a column mapping: in a
      record whose properties lack the column, each kind reads as its
      placeholder or empty value, and any other kind string as "Sin Datos". */
  lemma AbsentColumnDefaults(col: string, other: string)
    requires other !in HandledTags
    ensures DecodeCell(EmptyObj, col, "title") == Ok(Str("Sin Nombre"))
    ensures DecodeCell(EmptyObj, col, "select") == Ok(Str("Sin Datos"))
    ensures DecodeCell(EmptyObj, col, "multi_select") == Ok(Str(""))
    ensures DecodeCell(EmptyObj, col, "date") == Ok(Str(""))
    ensures DecodeCell(EmptyObj, col, "number") == Ok(Num(0.0))
    ensures DecodeCell(EmptyObj, col, "relation") == Ok(Arr([]))
    ensures DecodeCell(EmptyObj, col, other) == Ok(Str("Sin Datos"))
  {
    assert KindOf("title") == Title;
    assert KindOf("select") == Select;
    assert KindOf("multi_select") == MultiSelect;
    assert KindOf("date") == Date;
    assert KindOf("number") == Number;
    assert KindOf("relation") == Relation;
  }
}
