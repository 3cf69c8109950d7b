/** The keyword search: raw-list extraction from one candidate's body, and
    the sequential candidate runner that stops at the first candidate with
    `code === 200` and a non-empty list. */
module Search {
  import opened Wrappers
  import opened Text
  import opened Json

  const Base: string := "https://api.tikhub.io"

  /** What one upstream fetch gave: the parsed body, or the message of the
      error that `fetch` or `res.json()` threw. */
  datatype Outcome = Parsed(body: Json) | Threw(message: string)

  /** One entry of the search diagnostics: `{path, code, msg}` for a
      candidate whose body was parsed, `{error}` for a caught exception. */
  datatype Diag = Logged(path: string, code: Json, msg: Json) | Failed(error: Exception)

  /** The common prefix of the search endpoints. */
  const ApiPrefix: string := "/api/v1/douyin/"

  /** The candidate endpoints, most reliable first. */
  const SearchPaths: seq<string> := [
    ApiPrefix + "web/fetch_video_search_result",
    ApiPrefix + "app/v3/fetch_video_search_result",
    ApiPrefix + "app/v3/fetch_search_result"
  ]

  /** The query string of each candidate for the keyword `kw` as
      `encodeURIComponent` returned it. */
  function SearchQueries(kw: string): (qs: seq<string>)
    ensures |qs| == |SearchPaths|
    ensures forall i :: 0 <= i < |qs| ==> "keyword=" + kw + "&count=20" <= qs[i]
  {
    [ "keyword=" + kw + "&count=20&offset=0&sort_type=0&publish_time=0",
      "keyword=" + kw + "&count=20",
      "keyword=" + kw + "&count=20" ]
  }

  /** The candidate URLs for the keyword `kw`: base, path, `?`, query. */
  function SearchCandidates(kw: string): (urls: seq<string>)
    ensures |urls| == |SearchPaths|
    ensures forall i :: 0 <= i < |urls| ==> Base + SearchPaths[i] + "?" + ("keyword=" + kw + "&count=20") <= urls[i]
  {
    var qs, prefix := SearchQueries(kw), "keyword=" + kw + "&count=20";
    PrefixUnderFront(Base + SearchPaths[0] + "?", prefix, qs[0]);
    PrefixUnderFront(Base + SearchPaths[1] + "?", prefix, qs[1]);
    PrefixUnderFront(Base + SearchPaths[2] + "?", prefix, qs[2]);
    seq(|SearchPaths|, i requires 0 <= i < |SearchPaths| => Base + SearchPaths[i] + "?" + qs[i])
  }

  /** The path logged for a candidate: the URL with its first occurrence
      of the base removed, cut before the first `?`. */
  function DiagPath(url: string): (p: string)
    ensures '?' !in p
  {
    Before(ReplaceFirst(url, Base, ""), '?')
  }

  /** For a URL made of the base, a path and a query, the logged path is
      the path alone. */
  lemma DiagPathStripsBaseAndQuery(p: string, q: string)
    requires '?' !in p
    ensures DiagPath(Base + p + "?" + q) == p
  {
    var rest := p + "?" + q;
    assert Base + p + "?" + q == Base + rest;
    ReplaceFirstAtStart(Base, rest, "");
    assert "" + rest == rest;
    assert rest == p + ['?'] + q;
    BeforeStopsAtFirst(p, '?', q);
  }

  /** No endpoint path carries a query. */
  lemma PathLacksQuery(i: nat)
    requires i < |SearchPaths|
    ensures '?' !in SearchPaths[i]
  {
    assert '?' !in ApiPrefix;
  }

  /** Whatever the keyword, candidate `i` is logged under `SearchPaths[i]`. */
  lemma DiagPathOfCandidate(kw: string, i: nat)
    requires i < |SearchPaths|
    ensures DiagPath(SearchCandidates(kw)[i]) == SearchPaths[i]
  {
    PathLacksQuery(i);
    DiagPathStripsBaseAndQuery(SearchPaths[i], SearchQueries(kw)[i]);
  }

  /** `Array.isArray(raw) ? raw.filter(Boolean) : []`. */
  function Listify(raw: Json): (r: seq<Json>)
    ensures forall i :: 0 <= i < |r| ==> Truthy(r[i])
    ensures raw.Arr? ==> r == Compact(raw.elems)
    ensures !raw.Arr? ==> r == []
  {
    if raw.Arr? then Compact(raw.elems) else []
  }

  /** `xs.map(x => x?.[k])`: property `k` of every element. */
  function Pluck(xs: seq<Json>, k: string): (r: seq<Json>)
    ensures |r| == |xs| && forall i :: 0 <= i < |xs| ==> r[i] == Get(xs[i], k)
  {
    seq(|xs|, i requires 0 <= i < |xs| => Get(xs[i], k))
  }

  /** `bs.flatMap(b => b.aweme_info ? [b.aweme_info] : [])` over elements
      that are not null or undefined: exactly the truthy `aweme_info`
      values, in element order. */
  function AwemeInfos(bs: seq<Json>): (r: seq<Json>)
    ensures r == Compact(Pluck(bs, "aweme_info"))
    ensures |r| <= |bs|
    ensures forall i :: 0 <= i < |r| ==> Truthy(r[i])
  {
    if bs == [] then []
    else
      var info := Get(bs[0], "aweme_info");
      assert Pluck(bs, "aweme_info")[1..] == Pluck(bs[1..], "aweme_info");
      (if Truthy(info) then [info] else []) + AwemeInfos(bs[1..])
  }

  /** `business_data?.flatMap?.(...)`: the flattened infos of an array;
      a TypeError when an element is null or undefined, or when an object
      has a non-nullish `flatMap` property (which is no function); else
      `undefined`. */
  function BusinessInfos(bd: Json): (r: Result<Json, Exception>)
    ensures r.Success? && bd.Arr? ==> r.value == Arr(AwemeInfos(bd.elems))
    ensures r.Success? && !bd.Arr? ==> r.value == Undefined
    ensures r.Failure? ==> r.error == TypeError
    ensures r.Failure? <==> (bd.Arr? && !AllPresent(bd.elems)) || (bd.Obj? && !Nullish(Get(bd, "flatMap")))
  {
    match bd
    case Arr(bs) =>
      if AllPresent(bs) then Success(Arr(AwemeInfos(bs))) else Failure(TypeError)
    case Obj(_) => if Nullish(Get(bd, "flatMap")) then Success(Undefined) else Failure(TypeError)
    case _ => Success(Undefined)
  }

  /** The raw search list of one body: the first truthy of `data.aweme_list`,
      `data.data` and the flattened `business_data` infos (evaluated only
      when the first two are falsy), as an array with its falsy elements
      removed; `[]` when that value is not an array. */
  function RawSearchList(j: Json): (r: Result<seq<Json>, Exception>)
    ensures r.Success? ==> forall i :: 0 <= i < |r.value| ==> Truthy(r.value[i])
    ensures r.Failure? ==> r.error == TypeError
    ensures var data := Get(j, "data");
      r.Failure? <==> !Truthy(Get(data, "aweme_list")) && !Truthy(Get(data, "data"))
                      && BusinessInfos(Get(data, "business_data")).Failure?
  {
    var data := Get(j, "data");
    var first := Or(Get(data, "aweme_list"), Get(data, "data"));
    if Truthy(first) then Success(Listify(first))
    else match BusinessInfos(Get(data, "business_data"))
      case Failure(e) => Failure(e)
      case Success(infos) => Success(Listify(Or(infos, Arr([]))))
  }

  /** An `aweme_list` array wins even when it is empty: arrays are truthy. */
  lemma AwemeListWins(j: Json)
    requires Get(Get(j, "data"), "aweme_list").Arr?
    ensures RawSearchList(j) == Success(Compact(Get(Get(j, "data"), "aweme_list").elems))
  {
  }

  /** A falsy `aweme_list` falls back to a truthy `data.data`, filtered
      when it is an array and `[]` otherwise. */
  lemma DataDataFallback(j: Json)
    requires !Truthy(Get(Get(j, "data"), "aweme_list")) && Truthy(Get(Get(j, "data"), "data"))
    ensures RawSearchList(j) == Success(Listify(Get(Get(j, "data"), "data")))
  {
  }

  /** The final `|| []`: with `aweme_list` and `data.data` falsy and a
      `business_data` that is neither an array nor a throwing object, the
      list is empty. */
  lemma NoListAnywhereIsEmpty(j: Json)
    requires var data := Get(j, "data");
      !Truthy(Get(data, "aweme_list")) && !Truthy(Get(data, "data")) && !Get(data, "business_data").Arr?
    requires var bd := Get(Get(j, "data"), "business_data");
      !(bd.Obj? && !Nullish(Get(bd, "flatMap")))
    ensures RawSearchList(j) == Success([])
  {
  }

  /** A truthy value that is not an array yields an empty list. */
  lemma NonArrayRawIsEmpty(j: Json)
    requires var data := Get(j, "data");
      Truthy(Or(Get(data, "aweme_list"), Get(data, "data"))) && !Or(Get(data, "aweme_list"), Get(data, "data")).Arr?
    ensures RawSearchList(j) == Success([])
  {
  }

  /** With `aweme_list` and `data` falsy, a `business_data` array whose
      elements are all present yields exactly the truthy `aweme_info`
      values, in order, with nothing further filtered out. */
  lemma BusinessDataFallback(j: Json)
    requires var data := Get(j, "data");
      !Truthy(Get(data, "aweme_list")) && !Truthy(Get(data, "data")) && Get(data, "business_data").Arr?
    requires forall i :: 0 <= i < |Get(Get(j, "data"), "business_data").elems| ==>
      !Nullish(Get(Get(j, "data"), "business_data").elems[i])
    ensures RawSearchList(j) == Success(AwemeInfos(Get(Get(j, "data"), "business_data").elems))
  {
    var bs := Get(Get(j, "data"), "business_data").elems;
    AllPresentMeans(bs);
    CompactKeepsTruthy(AwemeInfos(bs));
  }

  /** The diagnostics one candidate appends: `{error}` when the fetch or
      the parse threw; else `{path, code, msg}`, followed by `{error}` when
      the code is 200 and the list extraction threw. */
  function AttemptLog(url: string, o: Outcome): (log: seq<Diag>)
    ensures 1 <= |log| <= 2
    ensures o.Parsed? ==> log[0] == Logged(DiagPath(url), Get(o.body, "code"),
                                           Or(Get(o.body, "message_zh"), Get(o.body, "message")))
    ensures o.Threw? ==> log == [Failed(Raised(o.message))]
    ensures o.Parsed? ==> (|log| == 2 <==> Get(o.body, "code") == Num(200) && RawSearchList(o.body).Failure?)
    ensures |log| == 2 ==> log[1] == Failed(TypeError)
  {
    match o
    case Threw(m) => [Failed(Raised(m))]
    case Parsed(j) =>
      var code := Get(j, "code");
      [Logged(DiagPath(url), code, Or(Get(j, "message_zh"), Get(j, "message")))]
        + (if code == Num(200) && RawSearchList(j).Failure? then [Failed(RawSearchList(j).error)] else [])
  }

  /** A candidate hits when its body has `code === 200` and its filtered
      raw list is non-empty. */
  predicate Hits(o: Outcome) {
    && o.Parsed? && Get(o.body, "code") == Num(200)
    && RawSearchList(o.body).Success? && RawSearchList(o.body).value != []
  }

  /** The list a candidate contributes: its filtered raw list when the body
      has `code === 200` and extraction did not throw, else `[]`. */
  function AttemptItems(o: Outcome): (items: seq<Json>)
    ensures items != [] <==> Hits(o)
    ensures Hits(o) ==> items == RawSearchList(o.body).value
    ensures o.Parsed? && Get(o.body, "code") == Num(200) && RawSearchList(o.body).Success? ==>
      items == RawSearchList(o.body).value
    ensures forall i :: 0 <= i < |items| ==> Truthy(items[i])
  {
    match o
    case Threw(_) => []
    case Parsed(j) =>
      if Get(j, "code") != Num(200) then []
      else match RawSearchList(j)
        case Failure(_) => []
        case Success(list) => list
  }

  /** What one candidate contributes to the run: the diagnostics it
      appends and the list it settles on (`[]` when it does not hit). */
  datatype Attempt = Attempt(entries: seq<Diag>, items: seq<Json>)

  /** The attempt at fetching `url` when the fetch gives `o`. */
  function Try(url: string, o: Outcome): (a: Attempt)
    ensures 1 <= |a.entries| <= 2
    ensures a.items != [] <==> Hits(o)
    ensures Hits(o) ==> a.items == RawSearchList(o.body).value
  {
    Attempt(AttemptLog(url, o), AttemptItems(o))
  }

  /** The attempts at every candidate, in candidate order. */
  function Attempts(urls: seq<string>, outcomes: seq<Outcome>): (tries: seq<Attempt>)
    requires |outcomes| == |urls|
    ensures |tries| == |urls|
  {
    if urls == [] then []
    else [Try(urls[0], outcomes[0])] + Attempts(urls[1..], outcomes[1..])
  }

  /** Attempt `i` is the attempt at candidate `i`. */
  lemma {:induction false} AttemptsAt(urls: seq<string>, outcomes: seq<Outcome>, i: nat)
    requires |outcomes| == |urls| && i < |urls|
    ensures Attempts(urls, outcomes)[i] == Try(urls[i], outcomes[i])
  {
    if i > 0 {
      AttemptsAt(urls[1..], outcomes[1..], i - 1);
    }
  }

  /** The first attempt whose list is non-empty. */
  function FirstHit(tries: seq<Attempt>): (r: Option<nat>)
    ensures r.Some? ==> r.value < |tries| && tries[r.value].items != []
    ensures r.Some? ==> forall j :: 0 <= j < r.value ==> tries[j].items == []
    ensures r.None? ==> forall j :: 0 <= j < |tries| ==> tries[j].items == []
  {
    if tries == [] then None
    else if tries[0].items != [] then Some(0)
    else match FirstHit(tries[1..])
      case None => None
      case Some(i) => Some(i + 1)
  }

  /** The first hit is the attempt that hits after a run of misses. */
  lemma FirstHitAt(tries: seq<Attempt>, k: nat)
    requires k < |tries| && tries[k].items != []
    requires forall j :: 0 <= j < k ==> tries[j].items == []
    ensures FirstHit(tries) == Some(k)
  {
  }

  /** The diagnostics of the first `n` attempts, in candidate order. */
  function LogThrough(tries: seq<Attempt>, n: nat): (log: seq<Diag>)
    requires n <= |tries|
  {
    if n == 0 then [] else LogThrough(tries, n - 1) + tries[n - 1].entries
  }

  /** How a run ends: the list it settles on, the diagnostics it logged and
      the number of candidates it tried. */
  datatype Run = Run(items: seq<Json>, log: seq<Diag>, tried: nat)

  /** What the search ends with, by reference: the list of the first
      attempt that hit, the diagnostics of the attempts up to it and their
      number; or no items and the diagnostics of every attempt. */
  function SearchOutcome(tries: seq<Attempt>): Run {
    match FirstHit(tries)
    case Some(k) => Run(tries[k].items, LogThrough(tries, k + 1), k + 1)
    case None => Run([], LogThrough(tries, |tries|), |tries|)
  }

  /** The body of one candidate's `try`, for candidate `i`: the
      diagnostics it pushes and the list it settles on. */
  method TryCandidate(urls: seq<string>, outcomes: seq<Outcome>, i: nat) returns (entries: seq<Diag>, list: seq<Json>)
    requires |outcomes| == |urls| && i < |urls|
    ensures Attempt(entries, list) == Attempts(urls, outcomes)[i]
  {
    AttemptsAt(urls, outcomes, i);
    var url, o := urls[i], outcomes[i];
    list := [];
    if o.Threw? {
      entries := [Failed(Raised(o.message))];
      return;
    }
    var j := o.body;
    var code := Get(j, "code");
    entries := [Logged(DiagPath(url), code, Or(Get(j, "message_zh"), Get(j, "message")))];
    if code != Num(200) {
      return;
    }
    var raw := RawSearchList(j);
    if raw.Failure? {
      entries := entries + [Failed(raw.error)];
    } else {
      list := raw.value;
    }
  }

  /** What running the attempts from `i` on gives: the list of the first
      attempt (at or after `i`) that hits, the diagnostics of every attempt
      made, and how many were made. */
  function RunFrom(tries: seq<Attempt>, i: nat): (r: Run)
    requires i <= |tries|
    ensures i + r.tried <= |tries|
    decreases |tries| - i
  {
    if i == |tries| then Run([], [], 0)
    else if tries[i].items != [] then Run(tries[i].items, tries[i].entries, 1)
    else
      var rest := RunFrom(tries, i + 1);
      Run(rest.items, tries[i].entries + rest.log, rest.tried + 1)
  }

  /** Having logged `log` for the attempts before `i` without a hit, the
      run from the first candidate ends as the run from `i` does. */
  predicate Resumes(tries: seq<Attempt>, i: nat, log: seq<Diag>)
    requires i <= |tries|
  {
    && RunFrom(tries, 0).items == RunFrom(tries, i).items
    && RunFrom(tries, 0).log == log + RunFrom(tries, i).log
    && RunFrom(tries, 0).tried == i + RunFrom(tries, i).tried
  }

  /** One step of the runner: a hit at `i` ends the run with its list; a
      miss appends its entries and resumes at `i + 1`. */
  lemma RunStep(tries: seq<Attempt>, i: nat, log: seq<Diag>)
    requires i < |tries| && Resumes(tries, i, log)
    ensures tries[i].items != [] ==>
      RunFrom(tries, 0) == Run(tries[i].items, log + tries[i].entries, i + 1)
    ensures tries[i].items == [] ==> Resumes(tries, i + 1, log + tries[i].entries)
  {
    if tries[i].items == [] {
      assert log + (tries[i].entries + RunFrom(tries, i + 1).log)
          == (log + tries[i].entries) + RunFrom(tries, i + 1).log;
    }
  }

  /** The sequential runner: tries the candidates in order, appending their
      diagnostics, and stops at the first one whose body has code 200 and a
      non-empty filtered list. `outcomes[i]` is what fetching `urls[i]`
      would give; `attempted` counts the fetches made. */
  method RunSearch(urls: seq<string>, outcomes: seq<Outcome>)
    returns (items: seq<Json>, log: seq<Diag>, ghost attempted: nat)
    requires |outcomes| == |urls|
    ensures items == RunFrom(Attempts(urls, outcomes), 0).items
    ensures log == RunFrom(Attempts(urls, outcomes), 0).log
    ensures attempted == RunFrom(Attempts(urls, outcomes), 0).tried
  {
    ghost var tries := Attempts(urls, outcomes);
    items, log, attempted := [], [], 0;
    assert [] + RunFrom(tries, 0).log == RunFrom(tries, 0).log;
    var i := 0;
    while i < |urls|
      invariant i <= |urls| && attempted == i && items == []
      invariant Resumes(tries, i, log)
      decreases |urls| - i
    {
      var entries, list := TryCandidate(urls, outcomes, i);
      RunStep(tries, i, log);
      if list != [] {
        items, log, attempted := list, log + entries, i + 1;
        return;
      }
      log := log + entries;
      i, attempted := i + 1, i + 1;
    }
    assert log + RunFrom(tries, i).log == log;
  }

  /** The runner's log from `i` on is what the reference log adds after
      the first `i` attempts. */
  lemma {:induction false} RunLogExtends(tries: seq<Attempt>, i: nat)
    requires i <= |tries|
    ensures LogThrough(tries, i) + RunFrom(tries, i).log == LogThrough(tries, i + RunFrom(tries, i).tried)
    decreases |tries| - i
  {
    if i < |tries| && tries[i].items == [] {
      RunLogExtends(tries, i + 1);
      var rest := RunFrom(tries, i + 1);
      assert LogThrough(tries, i) + (tries[i].entries + rest.log) == LogThrough(tries, i + 1) + rest.log;
    }
  }

  /** The run from `i` ends at the first hit at or after `i`, with its
      list, or after the last attempt with none. */
  lemma {:induction false} RunStopsAtFirstHit(tries: seq<Attempt>, i: nat)
    requires i <= |tries|
    ensures var r := RunFrom(tries, i);
      r.items != [] ==> r.tried > 0 && r.items == tries[i + r.tried - 1].items
    ensures var r := RunFrom(tries, i);
      r.items != [] ==> forall j :: i <= j < i + r.tried - 1 ==> tries[j].items == []
    ensures var r := RunFrom(tries, i);
      r.items == [] ==> i + r.tried == |tries| && forall j :: i <= j < |tries| ==> tries[j].items == []
    decreases |tries| - i
  {
    if i < |tries| && tries[i].items == [] {
      RunStopsAtFirstHit(tries, i + 1);
    }
  }

  /** The runner started at the first candidate yields exactly the
      reference outcome: it makes the attempts up to the first hit and no
      more. */
  lemma RunIsReference(tries: seq<Attempt>)
    ensures RunFrom(tries, 0) == SearchOutcome(tries)
  {
    RunLogExtends(tries, 0);
    RunStopsAtFirstHit(tries, 0);
    var r := RunFrom(tries, 0);
    assert LogThrough(tries, 0) + r.log == r.log;
    if r.items != [] {
      FirstHitAt(tries, r.tried - 1);
    } else {
      assert FirstHit(tries) == None;
    }
  }

  /** The log up to `n` depends on the first `n` attempts only. */
  lemma {:induction false} LogThroughPrefix(tries: seq<Attempt>, tries': seq<Attempt>, n: nat)
    requires n <= |tries| && n <= |tries'| && tries[..n] == tries'[..n]
    ensures LogThrough(tries, n) == LogThrough(tries', n)
  {
    if n > 0 {
      assert tries[..n - 1] == tries[..n][..n - 1] && tries'[..n - 1] == tries'[..n][..n - 1];
      assert tries[n - 1] == tries[..n][n - 1] && tries'[n - 1] == tries'[..n][n - 1];
      LogThroughPrefix(tries, tries', n - 1);
    }
  }

  /** Nothing after the winning candidate matters: two runs that agree up
      to the first hit give the same items and the same log. */
  lemma SearchIgnoresLaterCandidates(tries: seq<Attempt>, tries': seq<Attempt>, k: nat)
    requires FirstHit(tries) == Some(k)
    requires k < |tries'| && tries[..k + 1] == tries'[..k + 1]
    ensures SearchOutcome(tries') == SearchOutcome(tries)
  {
    forall j | 0 <= j <= k ensures tries'[j] == tries[j] {
      assert tries'[j] == tries'[..k + 1][j];
    }
    FirstHitAt(tries', k);
    LogThroughPrefix(tries, tries', k + 1);
  }

  /** A search candidate whose body was parsed is logged under its own
      endpoint path, with the body's code and message. */
  lemma CandidateLoggedUnderPath(kw: string, outcomes: seq<Outcome>, i: nat)
    requires |outcomes| == |SearchPaths| && i < |SearchPaths| && outcomes[i].Parsed?
    ensures var j, e := outcomes[i].body, Attempts(SearchCandidates(kw), outcomes)[i].entries;
      |e| > 0 && e[0] == Logged(SearchPaths[i], Get(j, "code"), Or(Get(j, "message_zh"), Get(j, "message")))
  {
    AttemptsAt(SearchCandidates(kw), outcomes, i);
    DiagPathOfCandidate(kw, i);
  }

  /** The first attempt that hits is the first candidate whose body has
      `code === 200` and a non-empty filtered list. */
  lemma FirstHitIsFirstGoodCandidate(urls: seq<string>, outcomes: seq<Outcome>, k: nat)
    requires |outcomes| == |urls|
    ensures FirstHit(Attempts(urls, outcomes)) == Some(k) <==>
      k < |urls| && Hits(outcomes[k]) && forall j :: 0 <= j < k ==> !Hits(outcomes[j])
  {
    var tries := Attempts(urls, outcomes);
    forall j | 0 <= j < |urls| ensures (tries[j].items != []) == Hits(outcomes[j]) {
      AttemptsAt(urls, outcomes, j);
    }
    if k < |urls| && Hits(outcomes[k]) && forall j :: 0 <= j < k ==> !Hits(outcomes[j]) {
      FirstHitAt(tries, k);
    }
  }

  /** The search settles on the filtered list of the first good candidate,
      after fetching it and every candidate before it. */
  lemma SearchTakesFirstGoodCandidate(urls: seq<string>, outcomes: seq<Outcome>, k: nat)
    requires |outcomes| == |urls| && k < |urls|
    requires Hits(outcomes[k]) && forall j :: 0 <= j < k ==> !Hits(outcomes[j])
    ensures RunFrom(Attempts(urls, outcomes), 0).items == RawSearchList(outcomes[k].body).value
    ensures RunFrom(Attempts(urls, outcomes), 0).tried == k + 1
  {
    FirstHitIsFirstGoodCandidate(urls, outcomes, k);
    RunIsReference(Attempts(urls, outcomes));
    AttemptsAt(urls, outcomes, k);
  }

  /** Every attempt logs one or two entries. */
  lemma AttemptsLogOneOrTwo(urls: seq<string>, outcomes: seq<Outcome>)
    requires |outcomes| == |urls|
    ensures forall j :: 0 <= j < |urls| ==> 1 <= |Attempts(urls, outcomes)[j].entries| <= 2
  {
    forall j | 0 <= j < |urls| ensures 1 <= |Attempts(urls, outcomes)[j].entries| <= 2 {
      AttemptsAt(urls, outcomes, j);
    }
  }

  /** With one or two entries per attempt, the first `n` attempts log
      between `n` and `2 n` entries. */
  lemma {:induction false} LogLength(tries: seq<Attempt>, n: nat)
    requires n <= |tries|
    requires forall j :: 0 <= j < n ==> 1 <= |tries[j].entries| <= 2
    ensures n <= |LogThrough(tries, n)| <= 2 * n
  {
    if n > 0 {
      LogLength(tries, n - 1);
    }
  }

  /** When no candidate hits, the search returns no items and the
      diagnostics of every candidate, one or two entries each. */
  lemma AllFailedLogsEveryCandidate(urls: seq<string>, outcomes: seq<Outcome>)
    requires |urls| == |outcomes|
    requires forall j :: 0 <= j < |outcomes| ==> !Hits(outcomes[j])
    ensures SearchOutcome(Attempts(urls, outcomes)).items == []
    ensures SearchOutcome(Attempts(urls, outcomes)).tried == |urls|
    ensures |urls| <= |SearchOutcome(Attempts(urls, outcomes)).log| <= 2 * |urls|
  {
    var tries := Attempts(urls, outcomes);
    forall j | 0 <= j < |urls| ensures tries[j].items == [] {
      AttemptsAt(urls, outcomes, j);
    }
    AttemptsLogOneOrTwo(urls, outcomes);
    LogLength(tries, |urls|);
  }
}
