/** A parsed upstream body as the handler sees it, with JavaScript's
    truthiness, `||`, optional-chaining property reads, `?.[0]`,
    `filter(Boolean)` and `Object.keys`. */
module Json {
  import opened Wrappers
  import opened Text

  /** A JSON value after `res.json()`, plus `undefined` for a missing
      property. An object lists its properties in the order `Object.keys`
      enumerates them; a parsed body names each property once, and a
      value that repeats a name is read at its first occurrence. */
  datatype Json =
    | Undefined
    | Null
    | Bool(b: bool)
    | Num(n: int)
    | Str(s: string)
    | Arr(elems: seq<Json>)
    | Obj(props: seq<(string, Json)>)

  /** What a `catch` receives: a host error (network, body parsing) with its
      message, or the engine's TypeError for a property read on null or
      undefined (or a call of something that is not a function). */
  datatype Exception = Raised(message: string) | TypeError

  predicate Nullish(j: Json) { j.Undefined? || j.Null? }

  /** JavaScript truthiness: `undefined`, `null`, `false`, `0` and `""` are
      falsy; every array and object, even an empty one, is truthy. */
  predicate Truthy(j: Json) {
    match j
    case Undefined => false
    case Null => false
    case Bool(b) => b
    case Num(n) => n != 0
    case Str(s) => s != ""
    case Arr(_) => true
    case Obj(_) => true
  }

  /** No value in `xs` is truthy. */
  predicate NoneTruthy(xs: seq<Json>) {
    forall j :: 0 <= j < |xs| ==> !Truthy(xs[j])
  }

  /** `a || b`: the first operand when it is truthy, else the second. */
  function Or(a: Json, b: Json): Json {
    if Truthy(a) then a else b
  }

  /** `alts[0] || alts[1] || ... || dflt`: the first truthy alternative, or
      the last operand `dflt` when none is truthy. */
  function FirstTruthy(alts: seq<Json>, dflt: Json): (r: Json)
    ensures Truthy(r) || r == dflt
    ensures forall i :: 0 <= i < |alts| && Truthy(alts[i]) && NoneTruthy(alts[..i]) ==> r == alts[i]
    ensures NoneTruthy(alts) ==> r == dflt
  {
    if alts == [] then dflt
    else if Truthy(alts[0]) then alts[0]
    else
      assert forall i :: 1 <= i <= |alts| ==> alts[1..][..i - 1] == alts[..i][1..];
      FirstTruthy(alts[1..], dflt)
  }

  /** `r` is the value of the chain `alts[0] || alts[1] || ... || dflt`:
      the first truthy alternative after only falsy ones, else `dflt`. */
  predicate ChainValue(alts: seq<Json>, dflt: Json, r: Json) {
    && (forall i :: 0 <= i < |alts| && Truthy(alts[i]) && NoneTruthy(alts[..i]) ==> r == alts[i])
    && (NoneTruthy(alts) ==> r == dflt)
  }

  /** The value of the first property named `k`, `undefined` when there
      is none. */
  function Lookup(props: seq<(string, Json)>, k: string): Json {
    if props == [] then Undefined
    else if props[0].0 == k then props[0].1
    else Lookup(props[1..], k)
  }

  /** A property read finds the first property with that name. */
  lemma {:induction false} LookupFindsFirst(props: seq<(string, Json)>, k: string, i: nat)
    requires i < |props| && props[i].0 == k
    requires forall j :: 0 <= j < i ==> props[j].0 != k
    ensures Lookup(props, k) == props[i].1
  {
    if i > 0 {
      LookupFindsFirst(props[1..], k, i - 1);
    }
  }

  /** Reading a property that the object does not have gives `undefined`. */
  lemma {:induction false} LookupMissing(props: seq<(string, Json)>, k: string)
    requires forall j :: 0 <= j < |props| ==> props[j].0 != k
    ensures Lookup(props, k) == Undefined
  {
    if props != [] {
      LookupMissing(props[1..], k);
    }
  }

  /** `j?.[k]` for the property names this handler reads: the value of
      property `k` of an object, `undefined` for anything else (null and
      undefined included, which is what `?.` adds). */
  function Get(j: Json, k: string): Json {
    if j.Obj? then Lookup(j.props, k) else Undefined
  }

  /** `j?.[0]`: the first element of an array, the first character of a
      string, property "0" of an object, `undefined` otherwise. */
  function At0(j: Json): Json {
    match j
    case Arr(xs) => if xs == [] then Undefined else xs[0]
    case Str(s) => if s == "" then Undefined else Str([s[0]])
    case Obj(_) => Get(j, "0")
    case _ => Undefined
  }

  /** No element of `bs` is null or undefined. */
  predicate AllPresent(bs: seq<Json>) {
    bs == [] || (!Nullish(bs[0]) && AllPresent(bs[1..]))
  }

  lemma {:induction false} AllPresentMeans(bs: seq<Json>)
    ensures AllPresent(bs) <==> forall i :: 0 <= i < |bs| ==> !Nullish(bs[i])
  {
    if bs != [] {
      AllPresentMeans(bs[1..]);
      assert forall i :: 1 <= i < |bs| ==> bs[i] == bs[1..][i - 1];
    }
  }

  /** `xs.filter(Boolean)`: the truthy elements, in their order. */
  function Compact(xs: seq<Json>): (r: seq<Json>)
    ensures |r| <= |xs|
    ensures forall i :: 0 <= i < |r| ==> Truthy(r[i])
    ensures |xs| == 1 ==> r == (if Truthy(xs[0]) then xs else [])
  {
    if xs == [] then []
    else if Truthy(xs[0]) then [xs[0]] + Compact(xs[1..])
    else Compact(xs[1..])
  }

  /** Filtering drops exactly the falsy elements: every truthy element of
      `xs` survives and nothing else appears. */
  lemma {:induction false} CompactMembers(xs: seq<Json>, x: Json)
    ensures x in Compact(xs) <==> x in xs && Truthy(x)
  {
    if xs != [] {
      CompactMembers(xs[1..], x);
      assert xs == [xs[0]] + xs[1..];
    }
  }

  /** Filtering distributes over concatenation, so the kept elements keep
      their order and their number of copies. */
  lemma {:induction false} CompactAppend(xs: seq<Json>, ys: seq<Json>)
    ensures Compact(xs + ys) == Compact(xs) + Compact(ys)
  {
    if xs == [] {
      assert xs + ys == ys;
    } else {
      assert (xs + ys)[0] == xs[0];
      assert (xs + ys)[1..] == xs[1..] + ys;
      CompactAppend(xs[1..], ys);
    }
  }

  /** Filtering an array that holds only truthy values keeps it as it is. */
  lemma {:induction false} CompactKeepsTruthy(xs: seq<Json>)
    requires forall i :: 0 <= i < |xs| ==> Truthy(xs[i])
    ensures Compact(xs) == xs
  {
    if xs != [] {
      CompactKeepsTruthy(xs[1..]);
      assert [xs[0]] + xs[1..] == xs;
    }
  }

  /** `Object.keys(j)`: property names of an object, index strings of an
      array or a string, nothing for a number or a boolean. */
  function ObjectKeys(j: Json): (ks: seq<string>)
    ensures j.Obj? ==> |ks| == |j.props| && forall i :: 0 <= i < |ks| ==> ks[i] == j.props[i].0
    ensures j.Arr? ==> |ks| == |j.elems| && forall i :: 0 <= i < |ks| ==> ks[i] == Decimal(i)
    ensures j.Str? ==> |ks| == |j.s| && forall i :: 0 <= i < |ks| ==> ks[i] == Decimal(i)
    ensures !j.Obj? && !j.Arr? && !j.Str? ==> ks == []
  {
    match j
    case Obj(props) => seq(|props|, i requires 0 <= i < |props| => props[i].0)
    case Arr(xs) => Indices(|xs|)
    case Str(s) => Indices(|s|)
    case _ => []
  }

  /** ["0", "1", ..., decimal(n - 1)]. */
  function Indices(n: nat): (ks: seq<string>)
    ensures |ks| == n
    ensures forall i :: 0 <= i < n ==> ks[i] == Decimal(i)
    ensures forall i :: 0 <= i < n ==> AllDigits(ks[i]) && DigitsValue(ks[i]) == i
  {
    if n == 0 then []
    else
      DecimalRoundTrip(n - 1);
      Indices(n - 1) + [Decimal(n - 1)]
  }
}
