/** Hot-list extraction: the ordered schema probe over the hot-search
    response envelope. */
module HotList {
  import opened Wrappers
  import opened Json

  predicate NonEmptyArray(j: Json) { j.Arr? && |j.elems| > 0 }

  /** The key scan over `data.data`'s own properties: the position of the
      first value, in key order, that is a non-empty array. */
  function FirstNonEmptyArray(props: seq<(string, Json)>): (r: Option<nat>)
    ensures r.Some? ==> r.value < |props| && NonEmptyArray(props[r.value].1)
    ensures r.Some? ==> forall j :: 0 <= j < r.value ==> !NonEmptyArray(props[j].1)
    ensures r.None? ==> forall j :: 0 <= j < |props| ==> !NonEmptyArray(props[j].1)
  {
    if props == [] then None
    else if NonEmptyArray(props[0].1) then Some(0)
    else match FirstNonEmptyArray(props[1..])
      case None => None
      case Some(i) => Some(i + 1)
  }

  /** The hot-search list: `data.data` when it is an array (even an empty
      one), else the first non-empty array among `data.data`'s values, else
      `word_list`, `sentence_list` or `list`, whichever is an array first;
      `[]` when `data` is missing or falsy or nothing matched. */
  function ExtractHotList(json: Json): (r: seq<Json>)
    ensures !Truthy(Get(json, "data")) ==> r == []
  {
    var d := Get(json, "data");
    if !Truthy(d) then []
    else
      var inner := Get(d, "data");
      if inner.Arr? then inner.elems
      else if inner.Obj? && FirstNonEmptyArray(inner.props).Some? then
        inner.props[FirstNonEmptyArray(inner.props).value].1.elems
      else if Get(d, "word_list").Arr? then Get(d, "word_list").elems
      else if Get(d, "sentence_list").Arr? then Get(d, "sentence_list").elems
      else if Get(d, "list").Arr? then Get(d, "list").elems
      else []
  }

  // An independent statement of the same rule: a generic prober over an
  // ordered list of candidate paths, each of which resolved to a list or not.

  /** No candidate in `cands` resolved. */
  predicate NoneResolved(cands: seq<Option<seq<Json>>>) {
    forall j :: 0 <= j < |cands| ==> cands[j].None?
  }

  /** The list of the first candidate that resolved, `[]` when none did. */
  function FirstResolved(cands: seq<Option<seq<Json>>>): (r: seq<Json>)
    ensures forall i :: 0 <= i < |cands| && cands[i].Some? && NoneResolved(cands[..i]) ==> r == cands[i].value
    ensures NoneResolved(cands) ==> r == []
  {
    if cands == [] then []
    else if cands[0].Some? then cands[0].value
    else
      assert forall i :: 1 <= i <= |cands| ==> cands[1..][..i - 1] == cands[..i][1..];
      FirstResolved(cands[1..])
  }

  /** A path that resolves when it holds an array, of any length. */
  function AsArray(j: Json): Option<seq<Json>> {
    if j.Arr? then Some(j.elems) else None
  }

  /** One candidate per property of `data.data`: resolves when the value is
      a non-empty array. */
  function ValueProbes(props: seq<(string, Json)>): (r: seq<Option<seq<Json>>>)
    ensures |r| == |props|
    ensures forall i :: 0 <= i < |props| ==>
      r[i] == if NonEmptyArray(props[i].1) then Some(props[i].1.elems) else None
  {
    seq(|props|, i requires 0 <= i < |props| =>
      if NonEmptyArray(props[i].1) then Some(props[i].1.elems) else None)
  }

  /** The candidate paths under a truthy `data`, in priority order. */
  function HotListProbes(d: Json): seq<Option<seq<Json>>> {
    var inner := Get(d, "data");
    [AsArray(inner)]
      + (if inner.Obj? then ValueProbes(inner.props) else [])
      + [AsArray(Get(d, "word_list")), AsArray(Get(d, "sentence_list")), AsArray(Get(d, "list"))]
  }

  /** Probing `a + b` tries every path of `a` before any path of `b`. */
  lemma {:induction false} FirstResolvedAppend(a: seq<Option<seq<Json>>>, b: seq<Option<seq<Json>>>)
    ensures FirstResolved(a + b) == if NoneResolved(a) then FirstResolved(b) else FirstResolved(a)
  {
    if a != [] {
      assert (a + b)[0] == a[0];
      if a[0].None? {
        assert (a + b)[1..] == a[1..] + b;
        FirstResolvedAppend(a[1..], b);
        assert NoneResolved(a) <==> NoneResolved(a[1..]) by {
          if NoneResolved(a[1..]) {
            forall j | 0 <= j < |a| ensures a[j].None? {
              if j > 0 { assert a[j] == a[1..][j - 1]; }
            }
          }
        }
      }
    } else {
      assert a + b == b;
    }
  }

  /** The key scan and the fallbacks are exactly "first resolved candidate
      path" over `HotListProbes`, and a missing or falsy `data` gives `[]`. */
  lemma HotListIsFirstResolvedProbe(json: Json)
    ensures var d := Get(json, "data");
      ExtractHotList(json) == if Truthy(d) then FirstResolved(HotListProbes(d)) else []
  {
    var d := Get(json, "data");
    if Truthy(d) {
      var inner := Get(d, "data");
      var vp := if inner.Obj? then ValueProbes(inner.props) else [];
      var tail := [AsArray(Get(d, "word_list")), AsArray(Get(d, "sentence_list")), AsArray(Get(d, "list"))];
      var cands := HotListProbes(d);
      assert cands == [AsArray(inner)] + (vp + tail);
      if !inner.Arr? {
        assert cands[1..] == vp + tail;
        FirstResolvedAppend(vp, tail);
        if inner.Obj? && FirstNonEmptyArray(inner.props).Some? {
          var i := FirstNonEmptyArray(inner.props).value;
          assert NoneResolved(vp[..i]);
          assert !NoneResolved(vp) by { assert vp[i].Some?; }
        } else {
          HotListFallbackOrder(json);
        }
      }
    }
  }

  /** When `data.data` is an object whose value at position `i` is the first
      non-empty array in key order, that array is the hot list, whatever
      `word_list`, `sentence_list` and `list` hold. */
  lemma HotListNestedObject(json: Json, i: nat)
    requires Truthy(Get(json, "data"))
    requires Get(Get(json, "data"), "data").Obj?
    requires i < |Get(Get(json, "data"), "data").props|
    requires NonEmptyArray(Get(Get(json, "data"), "data").props[i].1)
    requires forall j :: 0 <= j < i ==> !NonEmptyArray(Get(Get(json, "data"), "data").props[j].1)
    ensures ExtractHotList(json) == Get(Get(json, "data"), "data").props[i].1.elems
  {
  }

  /** When `data.data` is no array and holds no non-empty array value, the
      flat lists are tried strictly in the order `word_list`,
      `sentence_list`, `list`, and nothing matching gives `[]`. */
  lemma HotListFallbackOrder(json: Json)
    requires Truthy(Get(json, "data"))
    requires !Get(Get(json, "data"), "data").Arr?
    requires Get(Get(json, "data"), "data").Obj? ==>
      forall j :: 0 <= j < |Get(Get(json, "data"), "data").props| ==> !NonEmptyArray(Get(Get(json, "data"), "data").props[j].1)
    ensures var d := Get(json, "data");
      ExtractHotList(json) == FirstResolved([AsArray(Get(d, "word_list")), AsArray(Get(d, "sentence_list")), AsArray(Get(d, "list"))])
  {
    var d := Get(json, "data");
    var tail := [AsArray(Get(d, "word_list")), AsArray(Get(d, "sentence_list")), AsArray(Get(d, "list"))];
    if tail[0].None? {
      assert tail[..1] == [tail[0]];
      if tail[1].None? {
        assert tail[..2] == [tail[0], tail[1]];
        if tail[2].None? {
          assert NoneResolved(tail);
        }
      }
    }
  }
}
