/** `sep.join(parts)` on Python strings, and where each part and each
    separator lands in the joined string. */
module Strings {

  /** `sep.join(parts)`: the parts in order, with `sep` between neighbours. */
  function Join(sep: string, parts: seq<string>): (r: string)
    ensures |parts| == 0 ==> r == ""
    ensures |parts| == 1 ==> r == parts[0]
  {
    if |parts| == 0 then ""
    else if |parts| == 1 then parts[0]
    else parts[0] + sep + Join(sep, parts[1..])
  }

  /** Where part `i` starts in the joined string: the parts before it, each
      followed by one separator. */
  function Offset(sep: string, parts: seq<string>, i: nat): nat
    requires i <= |parts|
  {
    if i == 0 then 0 else |parts[0]| + |sep| + Offset(sep, parts[1..], i - 1)
  }

  /** Part `i + 1` starts one part and one separator after part `i`. */
  lemma {:induction false} OffsetNext(sep: string, parts: seq<string>, i: nat)
    requires i < |parts|
    ensures Offset(sep, parts, i + 1) == Offset(sep, parts, i) + |parts[i]| + |sep|
  {
    if i > 0 {
      OffsetNext(sep, parts[1..], i - 1);
    }
  }

  /** The joined string is exactly as long as the parts and the |parts| - 1
      separators between them. */
  lemma {:induction false} JoinLength(sep: string, parts: seq<string>)
    requires |parts| > 0
    ensures |Join(sep, parts)| + |sep| == Offset(sep, parts, |parts|)
  {
    if |parts| > 1 {
      JoinLength(sep, parts[1..]);
    }
  }

  /** Slicing past a prefix slices the rest. */
  lemma SliceAfter(x: string, y: string, a: int, b: int)
    requires 0 <= a <= b <= |y|
    ensures (x + y)[|x| + a..|x| + b] == y[a..b]
  {
  }

  /** A join of two or more parts starts with the first part and a
      separator. */
  lemma JoinHead(sep: string, parts: seq<string>)
    requires |parts| > 1
    ensures Join(sep, parts) == (parts[0] + sep) + Join(sep, parts[1..])
    ensures Join(sep, parts)[..|parts[0]|] == parts[0]
    ensures Join(sep, parts)[|parts[0]|..|parts[0]| + |sep|] == sep
  {
    var j := Join(sep, parts);
    assert j == parts[0] + sep + Join(sep, parts[1..]);
  }

  /** Part `i` sits, unchanged, at `Offset(i)` of the joined string. */
  lemma {:induction false} JoinPlacesPart(sep: string, parts: seq<string>, i: nat)
    requires i < |parts|
    ensures Offset(sep, parts, i) + |parts[i]| <= |Join(sep, parts)|
    ensures Join(sep, parts)[Offset(sep, parts, i)..Offset(sep, parts, i) + |parts[i]|] == parts[i]
  {
    if |parts| > 1 {
      var tail := Join(sep, parts[1..]);
      JoinHead(sep, parts);
      if i > 0 {
        JoinPlacesPart(sep, parts[1..], i - 1);
        var a := Offset(sep, parts[1..], i - 1);
        var head := parts[0] + sep;
        assert Offset(sep, parts, i) == |head| + a;
        assert parts[1..][i - 1] == parts[i];
        assert tail[a..a + |parts[i]|] == parts[i];
        SliceAfter(head, tail, a, a + |parts[i]|);
      }
    }
  }

  /** When another part follows part `i`, the separator sits right after it.
      With `JoinPlacesPart` and `JoinLength` this determines the joined string
      completely: the parts, in order, with one separator between neighbours. */
  lemma {:induction false} JoinPlacesSeparator(sep: string, parts: seq<string>, i: nat)
    requires i + 1 < |parts|
    ensures Offset(sep, parts, i) + |parts[i]| + |sep| <= |Join(sep, parts)|
    ensures Join(sep, parts)[Offset(sep, parts, i) + |parts[i]|..Offset(sep, parts, i) + |parts[i]| + |sep|] == sep
  {
    var tail := Join(sep, parts[1..]);
    JoinHead(sep, parts);
    if i > 0 {
      var head := parts[0] + sep;
      var len := |parts[i]|;
      var a := Offset(sep, parts[1..], i - 1);
      assert Offset(sep, parts, i) == |head| + a;
      assert parts[1..][i - 1] == parts[i];
      JoinPlacesSeparator(sep, parts[1..], i - 1);
      assert a + len + |sep| <= |tail| && tail[a + len..a + len + |sep|] == sep;
      SliceAfter(head, tail, a + len, a + len + |sep|);
    }
  }
}
