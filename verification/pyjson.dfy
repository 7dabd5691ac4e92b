/** A JSON document as the dashboard sees it after `response.json()`, and the
    handful of Python operations the decoder applies to it: `d.get(k, dflt)`,
    `d[k]`, `x[0]`, iteration with `for`, and truthiness.

    An object is kept as the list of its members in document order. Python's
    JSON parser turns it into a dict in which a repeated key keeps its first
    position and its last value; `Lookup` and `KeyOrder` follow exactly that,
    so no well-formedness condition on objects is needed. */
module PyJson {
  import opened Results

  datatype Json =
    | Null
    | Bool(b: bool)
    | Num(n: real)
    | Str(s: string)
    | Arr(items: seq<Json>)
    | Obj(members: seq<(string, Json)>)

  /** The `{}` literal the decoder passes as a default. */
  const EmptyObj: Json := Obj([])

  /** The keys an object defines. */
  function Keys(ms: seq<(string, Json)>): set<string> {
    set m | m in ms :: m.0
  }

  /** Member `i` is the last one that binds `key`: its value is the one the
      parsed dict holds. */
  ghost predicate LastBinding(ms: seq<(string, Json)>, key: string, i: int) {
    && 0 <= i < |ms|
    && ms[i].0 == key
    && forall j :: i < j < |ms| ==> ms[j].0 != key
  }

  lemma KeysOfSnoc(ms: seq<(string, Json)>)
    requires |ms| > 0
    ensures Keys(ms) == Keys(ms[..|ms| - 1]) + {ms[|ms| - 1].0}
  {
    var prefix := ms[..|ms| - 1];
    assert ms == prefix + [ms[|ms| - 1]];
    forall k | k in Keys(ms)
      ensures k in Keys(prefix) + {ms[|ms| - 1].0}
    {
      var m :| m in ms && m.0 == k;
      var i :| 0 <= i < |ms| && ms[i] == m;
      if i < |ms| - 1 {
        assert prefix[i] == m;
      }
    }
  }

  /** The value the parsed dict holds for `key`, if any. */
  function Lookup(ms: seq<(string, Json)>, key: string): (r: Option<Json>)
    ensures r.Some? <==> key in Keys(ms)
  {
    if |ms| == 0 then
      None
    else
      KeysOfSnoc(ms);
      if ms[|ms| - 1].0 == key then Some(ms[|ms| - 1].1) else Lookup(ms[..|ms| - 1], key)
  }

  /** `Lookup` finds the value of the last member binding the key, as the
      parsed dict holds it when a key is repeated. */
  lemma {:induction false} LookupIsLastBinding(ms: seq<(string, Json)>, key: string, i: int)
    requires LastBinding(ms, key, i)
    ensures Lookup(ms, key) == Some(ms[i].1)
  {
    var last := |ms| - 1;
    if i < last {
      assert ms[last].0 != key;
      assert LastBinding(ms[..last], key, i);
      LookupIsLastBinding(ms[..last], key, i);
    }
  }

  /** The member `key` of `x` when `x` is an object that defines it. */
  function Field(x: Json, key: string): Option<Json> {
    if x.Obj? then Lookup(x.members, key) else None
  }

  /** `x.get(key, dflt)`. Only a dict has `get`; a key that is present is
      returned as it is, even when its value is `null`. */
  function Get(x: Json, key: string, dflt: Json): (r: Result<Json>)
    ensures r.Ok? <==> x.Obj?
    ensures !x.Obj? ==> r == Err(AttributeError)
    ensures x.Obj? && key !in Keys(x.members) ==> r == Ok(dflt)
    ensures forall v :: Field(x, key) == Some(v) ==> r == Ok(v)
  {
    match x
    case Obj(ms) => Ok(Lookup(ms, key).GetOr(dflt))
    case _ => Err(AttributeError)
  }

  /** `x[key]` with a string key. A dict without the key raises KeyError; a
      list, string, number, bool or None raises TypeError. */
  function Subscript(x: Json, key: string): (r: Result<Json>)
    ensures r.Ok? <==> x.Obj? && key in Keys(x.members)
    ensures !x.Obj? ==> r == Err(TypeError)
    ensures x.Obj? && key !in Keys(x.members) ==> r == Err(KeyError)
    ensures forall v :: Field(x, key) == Some(v) ==> r == Ok(v)
  {
    match x
    case Obj(ms) => if key in Keys(ms) then Ok(Lookup(ms, key).value) else Err(KeyError)
    case _ => Err(TypeError)
  }

  /** `x[0]`. A list or string must be non-empty (IndexError otherwise); a
      dict never has the integer key 0 (KeyError); anything else is not
      subscriptable (TypeError). */
  function First(x: Json): (r: Result<Json>)
    ensures r.Ok? <==> (x.Arr? && |x.items| > 0) || (x.Str? && |x.s| > 0)
    ensures x.Arr? && |x.items| > 0 ==> r == Ok(x.items[0])
    ensures x.Str? && |x.s| > 0 ==> r == Ok(Str([x.s[0]]))
    ensures x == Arr([]) || x == Str("") ==> r == Err(IndexError)
    ensures x.Obj? ==> r == Err(KeyError)
    ensures x.Null? || x.Bool? || x.Num? ==> r == Err(TypeError)
  {
    match x
    case Arr(a) => if |a| == 0 then Err(IndexError) else Ok(a[0])
    case Str(s) => if |s| == 0 then Err(IndexError) else Ok(Str([s[0]]))
    case Obj(_) => Err(KeyError)
    case _ => Err(TypeError)
  }

  /** The keys of the parsed dict, each once, in order of first appearance. */
  function KeyOrder(ms: seq<(string, Json)>): (ks: seq<string>)
    ensures forall k :: k in ks <==> k in Keys(ms)
    ensures forall i, j :: 0 <= i < j < |ks| ==> ks[i] != ks[j]
  {
    if |ms| == 0 then
      []
    else
      KeysOfSnoc(ms);
      var ks := KeyOrder(ms[..|ms| - 1]);
      var k := ms[|ms| - 1].0;
      if k in ks then ks else ks + [k]
  }

  /** The elements `for e in x` visits: a list's items, a string's
      one-character strings, a dict's keys. None, numbers and bools are not
      iterable (TypeError). */
  function Iterate(x: Json): (r: Result<seq<Json>>)
    ensures r.Ok? <==> x.Arr? || x.Str? || x.Obj?
    ensures x.Arr? ==> r == Ok(x.items)
    ensures x.Str? ==> |r.value| == |x.s| && forall i :: 0 <= i < |x.s| ==> r.value[i] == Str([x.s[i]])
    ensures x.Obj? ==> forall e :: e in r.value <==> e.Str? && e.s in Keys(x.members)
    ensures x.Obj? ==> forall i, j :: 0 <= i < j < |r.value| ==> r.value[i] != r.value[j]
    ensures r.Ok? ==> (r.value == [] <==> !Truthy(x))
    ensures r.Err? ==> r.error == TypeError
  {
    match x
    case Arr(a) => Ok(a)
    case Str(s) => Ok(seq(|s|, i requires 0 <= i < |s| => Str([s[i]])))
    case Obj(ms) =>
      var ks := KeyOrder(ms);
      var r := seq(|ks|, i requires 0 <= i < |ks| => Str(ks[i]));
      assert |ms| > 0 ==> ms[0].0 in Keys(ms);
      assert forall e :: e in r <==> e.Str? && e.s in ks by {
        forall e: Json | e.Str? && e.s in ks
          ensures e in r
        {
          var i :| 0 <= i < |ks| && ks[i] == e.s;
          assert r[i] == e;
        }
      }
      Ok(r)
    case _ => Err(TypeError)
  }

  /** Python truthiness of a decoded value (`if data:`): the falsy values
      are None, False, zero and the empty string, list and dict. */
  predicate Truthy(x: Json): (b: bool)
    ensures !b <==> x == Null || x == Bool(false) || x == Num(0.0) || x == Str("") || x == Arr([]) || x == EmptyObj
  {
    match x
    case Null => false
    case Bool(b) => b
    case Num(n) => n != 0.0
    case Str(s) => s != ""
    case Arr(a) => a != []
    case Obj(ms) => ms != []
  }
}
