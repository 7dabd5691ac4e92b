/** The property kinds a column can be declared with. The dashboard keeps a
    kind as a string and dispatches on it with an if/elif chain; here the six
    strings the chain tests become constructors and every other string is
    kept, unchanged, in `Unrecognized`. */
module Kinds {

  datatype Kind =
    | Title
    | Select
    | MultiSelect
    | Date
    | Number
    | Relation
    | Unrecognized(tag: string)

  /** The strings the decoder's if/elif chain compares a column's kind with. */
  const HandledTags: set<string> := {"title", "select", "multi_select", "date", "number", "relation"}

  /** The string a schema writes for a kind. */
  function TagOf(k: Kind): string {
    match k
    case Title => "title"
    case Select => "select"
    case MultiSelect => "multi_select"
    case Date => "date"
    case Number => "number"
    case Relation => "relation"
    case Unrecognized(t) => t
  }

  /** A kind as `KindOf` produces it: `Unrecognized` never holds a handled
      tag. */
  predicate Canonical(k: Kind) {
    k.Unrecognized? ==> k.tag !in HandledTags
  }

  /** The branch of the if/elif chain a schema string selects. */
  function KindOf(tag: string): (k: Kind)
    ensures TagOf(k) == tag
    ensures Canonical(k)
    ensures k.Unrecognized? <==> tag !in HandledTags
  {
    if tag == "title" then Title
    else if tag == "select" then Select
    else if tag == "multi_select" then MultiSelect
    else if tag == "date" then Date
    else if tag == "number" then Number
    else if tag == "relation" then Relation
    else Unrecognized(tag)
  }

  /** Reading back the string of a canonical kind gives the kind again, so
      `KindOf` and `TagOf` are inverse bijections between strings and
      canonical kinds. */
  lemma KindOfTagOf(k: Kind)
    requires Canonical(k)
    ensures KindOf(TagOf(k)) == k
  {
  }
}
