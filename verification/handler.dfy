/** The request handler: preflight, the credential check, parameter
    defaults, dispatch on `endpoint` and the response each endpoint builds
    from what its upstream fetches give. */
module Handler {
  import opened Wrappers
  import opened Text
  import opened Json
  import opened HotList
  import opened Normalize
  import opened Search

  /** An incoming request: its HTTP method, its query parameters in URL order
      (already percent-decoded) and its headers under lower-case names. */
  datatype Request = Request(httpMethod: string, params: seq<(string, string)>, headers: map<string, string>)

  /** `searchParams.get(name)`: the value of the first parameter called
      `name`, `null` when there is none. */
  function ParamGet(params: seq<(string, string)>, name: string): (r: Option<string>)
    ensures r.None? <==> forall i :: 0 <= i < |params| ==> params[i].0 != name
  {
    if params == [] then None
    else if params[0].0 == name then Some(params[0].1)
    else ParamGet(params[1..], name)
  }

  /** The first occurrence of a repeated parameter is the one read. */
  lemma {:induction false} ParamGetFindsFirst(params: seq<(string, string)>, name: string, i: nat)
    requires i < |params| && params[i].0 == name
    requires forall j :: 0 <= j < i ==> params[j].0 != name
    ensures ParamGet(params, name) == Some(params[i].1)
  {
    if i > 0 {
      ParamGetFindsFirst(params[1..], name, i - 1);
    }
  }

  /** `searchParams.get(name) || dflt`: a missing or empty parameter takes
      the default. */
  function ParamOr(req: Request, name: string, dflt: string): (v: string)
    ensures v == dflt || (v != "" && ParamGet(req.params, name) == Some(v))
    ensures ParamGet(req.params, name).None? ==> v == dflt
    ensures ParamGet(req.params, name) == Some("") ==> v == dflt
    ensures ParamGet(req.params, name).Some? && ParamGet(req.params, name).value != "" ==>
      v == ParamGet(req.params, name).value
    ensures dflt == "" ==> (v == "" <==> ParamGet(req.params, name) in {None, Some("")})
  {
    match ParamGet(req.params, name)
    case Some(v) => if v != "" then v else dflt
    case None => dflt
  }

  predicate KnownEndpoint(e: string) { e in {"hot_search", "search", "user_info", "debug"} }

  /** The `endpoint` parameter, `hot_search` when missing or empty; never
      empty. */
  function Endpoint(req: Request): (e: string)
    ensures e != ""
    ensures ParamGet(req.params, "endpoint").Some? && ParamGet(req.params, "endpoint").value != "" ==>
      e == ParamGet(req.params, "endpoint").value
  {
    ParamOr(req, "endpoint", "hot_search")
  }

  function Keyword(req: Request): string { ParamOr(req, "keyword", "") }
  function UniqueId(req: Request): string { ParamOr(req, "unique_id", "") }

  /** Without an `endpoint` parameter, or with an empty one, the handler
      serves the hot list. */
  lemma EndpointDefaultsToHotSearch(req: Request)
    requires ParamGet(req.params, "endpoint") in {None, Some("")}
    ensures Endpoint(req) == "hot_search"
  {
  }

  /** `x-api-key || authorization?.replace('Bearer ', '')`: the API key
      header when it is non-empty, else the authorization header with its
      first "Bearer " removed; no token when the result is missing or empty. */
  function Token(headers: map<string, string>): (t: Option<string>)
    ensures t.Some? ==> t.value != ""
    ensures t.None? ==> "x-api-key" !in headers || headers["x-api-key"] == ""
  {
    if "x-api-key" in headers && headers["x-api-key"] != "" then Some(headers["x-api-key"])
    else if "authorization" in headers then
      var t := ReplaceFirst(headers["authorization"], "Bearer ", "");
      if t == "" then None else Some(t)
    else None
  }

  /** A non-empty API key wins over any authorization header. */
  lemma ApiKeyWins(headers: map<string, string>)
    requires "x-api-key" in headers && headers["x-api-key"] != ""
    ensures Token(headers) == Some(headers["x-api-key"])
  {
  }

  /** Without an API key, "Bearer <t>" gives the token `t`. */
  lemma BearerTokenStripped(headers: map<string, string>, t: string)
    requires "x-api-key" !in headers || headers["x-api-key"] == ""
    requires "authorization" in headers && headers["authorization"] == "Bearer " + t
    ensures Token(headers) == if t == "" then None else Some(t)
  {
    ReplaceFirstAtStart("Bearer ", t, "");
    assert "" + t == t;
  }

  /** Only the first "Bearer " goes: "Bearer Bearer t" gives "Bearer t". */
  lemma OnlyFirstBearerStripped(headers: map<string, string>, t: string)
    requires "x-api-key" !in headers || headers["x-api-key"] == ""
    requires "authorization" in headers && headers["authorization"] == "Bearer " + "Bearer " + t
    ensures Token(headers) == Some("Bearer " + t)
  {
    ReplaceFirstKeepsLaterOccurrences("Bearer ", t);
  }

  /** An authorization header without "Bearer " is used as it is. */
  lemma RawAuthorizationUsed(headers: map<string, string>)
    requires "x-api-key" !in headers || headers["x-api-key"] == ""
    requires "authorization" in headers && headers["authorization"] != ""
    requires forall i :: !OccursAt(headers["authorization"], "Bearer ", i)
    ensures Token(headers) == Some(headers["authorization"])
  {
    ReplaceFirstAbsent(headers["authorization"], "Bearer ", "");
  }

  /** Without an API key, the token is the authorization header with its
      first "Bearer " removed, wherever it occurs, and none when that
      leaves nothing. */
  lemma AuthorizationToken(headers: map<string, string>)
    requires "x-api-key" !in headers || headers["x-api-key"] == ""
    requires "authorization" in headers
    ensures var t := ReplaceFirst(headers["authorization"], "Bearer ", "");
      Token(headers) == if t == "" then None else Some(t)
  {
  }

  /** A "Bearer " that is not at the start is still removed:
      "xBearer y" gives "xy". */
  lemma InnerBearerStripped(headers: map<string, string>)
    requires "x-api-key" !in headers || headers["x-api-key"] == ""
    requires "authorization" in headers && headers["authorization"] == "xBearer y"
    ensures Token(headers) == Some("xy")
  {
    var a := headers["authorization"];
    SliceMatches(a, "Bearer ", 1);
    assert !OccursAt(a, "Bearer ", 0) by { assert a[0] != "Bearer "[0]; }
    assert a[..1] + "" + a[1 + |"Bearer "|..] == "xy";
  }

  /** With no non-empty API key and no authorization header there is no
      token: an empty `x-api-key` counts as missing. */
  lemma NoHeadersNoToken(headers: map<string, string>)
    requires "x-api-key" !in headers || headers["x-api-key"] == ""
    requires "authorization" !in headers
    ensures Token(headers) == None
  {
  }

  const MissingKey: string := "Missing TikHub API Key"
  const MissingKeyword: string := "请提供 keyword 参数"
  const MissingUniqueId: string := "请提供 unique_id 参数"
  const UnknownEndpoint: string := "未知 endpoint: "
  const UpstreamFailed: string := "TikHub API 返回错误"

  const HotSearchUrl: string := Base + "/api/v1/douyin/app/v3/fetch_hot_search_list"

  function UserInfoUrl(uid: string): string {
    Base + "/api/v1/douyin/app/v3/fetch_user_info?unique_id=" + uid
  }

  /** What a successful response carries besides `success: true`. */
  datatype Payload =
    | HotSearch(hotItems: seq<HotEntry>, dataKeys: Option<seq<string>>)
    | SearchResult(keyword: string, videos: seq<SearchEntry>, debugLog: Option<seq<Diag>>)
    | UserInfo(user: UserRecord)
    | Diagnostics

  /** The response: 204 for a preflight; `ok(...)`; `err(error, status)`
      with the upstream code when the upstream refused; or the 500 of the
      outer `catch` with the exception it caught. */
  datatype Response =
    | NoContent
    | Ok(payload: Payload)
    | Err(error: Json, status: nat, tikhubCode: Option<Json>)
    | ServerError(exception: Exception)

  /** `err(msg)` with the default status 400 and no detail. */
  function BadRequest(msg: string): (r: Response)
    ensures r.Err? && r.status == 400 && r.tikhubCode.None?
  {
    Err(Str(msg), 400, None)
  }

  /** The 502 for an upstream body whose code is not 200: its
      `message_zh`, else its `message`, else a fixed text, with its code. */
  function UpstreamError(json: Json): (r: Response)
    ensures r.Err? && r.status == 502 && r.tikhubCode == Some(Get(json, "code"))
    ensures Truthy(r.error)
    ensures ChainValue([Get(json, "message_zh"), Get(json, "message")], Str(UpstreamFailed), r.error)
  {
    Err(FirstTruthy([Get(json, "message_zh"), Get(json, "message")], Str(UpstreamFailed)), 502, Some(Get(json, "code")))
  }

  /** The hot-list response for what the hot-list fetch gave. */
  function HotSearchResponse(o: Outcome): (r: Response)
    ensures o.Threw? ==> r == ServerError(Raised(o.message))
    ensures o.Parsed? && Get(o.body, "code") != Num(200) ==> r == UpstreamError(o.body)
    ensures r.Ok? ==> o.Parsed? && r.payload.HotSearch?
    ensures r.Ok? ==> |r.payload.hotItems| == |ExtractHotList(o.body)|
    ensures r.Ok? ==> forall i :: 0 <= i < |r.payload.hotItems| ==> r.payload.hotItems[i].rank == i + 1
    ensures r.Ok? ==> forall i :: 0 <= i < |r.payload.hotItems| ==>
      r.payload.hotItems[i] == HotEntryOf(ExtractHotList(o.body)[i], i + 1)
    ensures r.Ok? ==> (r.payload.dataKeys.Some? <==> ExtractHotList(o.body) == [])
    ensures r.Ok? && ExtractHotList(o.body) == [] ==>
      r.payload.dataKeys == Some(ObjectKeys(Or(Get(o.body, "data"), Obj([]))))
    ensures r.Ok? <==> o.Parsed? && Get(o.body, "code") == Num(200) && Get(o.body, "data") != Undefined
                       && forall i :: 0 <= i < |ExtractHotList(o.body)| ==> !Nullish(ExtractHotList(o.body)[i])
    ensures r.ServerError? && o.Parsed? ==> r.exception == TypeError
  {
    match o
    case Threw(m) => ServerError(Raised(m))
    case Parsed(json) =>
      if Get(json, "code") != Num(200) then UpstreamError(json)
      else
        var list := ExtractHotList(json);
        if list == [] then
          // `JSON.stringify(undefined)` is `undefined`, whose `.slice` throws
          if Get(json, "data") == Undefined then ServerError(TypeError)
          else Ok(HotSearch([], Some(ObjectKeys(Or(Get(json, "data"), Obj([]))))))
        else match HotEntries(list)
          case Failure(e) => ServerError(e)
          case Success(items) => Ok(HotSearch(items, None))
  }

  /** A code-200 body without a `data` property crashes the empty-list
      reply: its debug sample `JSON.stringify(json?.data).slice(0, 300)`
      calls `slice` on `undefined`, and the outer `catch` answers 500. */
  lemma HotMissingDataIsServerError(json: Json)
    requires Get(json, "code") == Num(200) && Get(json, "data") == Undefined
    ensures HotSearchResponse(Parsed(json)) == ServerError(TypeError)
  {
  }

  /** A hot list with a null or undefined item makes the mapping throw,
      which the outer `catch` turns into a 500. */
  lemma HotNullItemIsServerError(json: Json, i: nat)
    requires Get(json, "code") == Num(200)
    requires i < |ExtractHotList(json)| && Nullish(ExtractHotList(json)[i])
    ensures HotSearchResponse(Parsed(json)) == ServerError(TypeError)
  {
  }

  /** The search response for keyword `keyword` once the runner settled on
      `items` after logging `log`: always a success; with no items it
      carries the diagnostics. */
  function SearchResponse(keyword: string, items: seq<Json>, log: seq<Diag>): (r: Response)
    ensures r.Ok? && r.payload.SearchResult? && r.payload.keyword == keyword
    ensures r.payload.debugLog == if items == [] then Some(log) else None
    ensures |r.payload.videos| == |items|
    ensures forall i :: 0 <= i < |items| ==> r.payload.videos[i] == SearchEntryOf(items[i])
  {
    if items == [] then Ok(SearchResult(keyword, [], Some(log)))
    else Ok(SearchResult(keyword, seq(|items|, i requires 0 <= i < |items| => SearchEntryOf(items[i])), None))
  }

  /** What the search candidates give when fetched with `token`. */
  function FetchAll(urls: seq<string>, token: string, fetch: (string, string) -> Outcome): (os: seq<Outcome>)
    ensures |os| == |urls|
    ensures forall i :: 0 <= i < |urls| ==> os[i] == fetch(urls[i], token)
  {
    seq(|urls|, i requires 0 <= i < |urls| => fetch(urls[i], token))
  }

  /** The user-profile response for request parameter `uniqueId` and what
      the profile fetch gave. */
  function UserInfoResponse(uniqueId: string, o: Outcome): (r: Response)
    ensures o.Threw? ==> r == ServerError(Raised(o.message))
    ensures o.Parsed? && Get(o.body, "code") != Num(200) ==> r == UpstreamError(o.body)
    ensures o.Parsed? && Get(o.body, "code") == Num(200) ==>
      (r == BadRequest(UserNotFound) <==> UserRecordOf(o.body, uniqueId).Failure?)
    ensures r.Ok? ==> o.Parsed? && r.payload == UserInfo(UserRecordOf(o.body, uniqueId).value)
    ensures o.Parsed? && Get(o.body, "code") == Num(200) && UserRecordOf(o.body, uniqueId).Success? ==>
      r == Ok(UserInfo(UserRecordOf(o.body, uniqueId).value))
  {
    match o
    case Threw(m) => ServerError(Raised(m))
    case Parsed(json) =>
      if Get(json, "code") != Num(200) then UpstreamError(json)
      else match UserRecordOf(json, uniqueId)
        case Failure(msg) => BadRequest(msg)
        case Success(u) => Ok(UserInfo(u))
  }

  /** How the search runner ends for keyword `keyword` fetched with
      `token`: over the three candidate URLs of the encoded keyword. */
  function SearchRun(keyword: string, token: string, fetch: (string, string) -> Outcome,
                     encode: string -> string): Run
  {
    var urls := SearchCandidates(encode(keyword));
    RunFrom(Attempts(urls, FetchAll(urls, token, fetch)), 0)
  }

  /** The handler. `fetch(url, token)` is what fetching `url` with the
      bearer `token` gives, parsed or thrown; `encode` is
      `encodeURIComponent`. */
  method Handle(req: Request, fetch: (string, string) -> Outcome, encode: string -> string)
    returns (resp: Response)
    ensures req.httpMethod == "OPTIONS" ==> resp == NoContent
    ensures req.httpMethod != "OPTIONS" && Token(req.headers).None? ==> resp == BadRequest(MissingKey)
    ensures req.httpMethod != "OPTIONS" && Token(req.headers).Some? && Endpoint(req) == "hot_search" ==>
      resp == HotSearchResponse(fetch(HotSearchUrl, Token(req.headers).value))
    ensures req.httpMethod != "OPTIONS" && Token(req.headers).Some? && Endpoint(req) == "search" ==>
      resp == if Keyword(req) == "" then BadRequest(MissingKeyword)
              else SearchResponse(Keyword(req), SearchRun(Keyword(req), Token(req.headers).value, fetch, encode).items,
                                  SearchRun(Keyword(req), Token(req.headers).value, fetch, encode).log)
    ensures req.httpMethod != "OPTIONS" && Token(req.headers).Some? && Endpoint(req) == "user_info" ==>
      resp == if UniqueId(req) == "" then BadRequest(MissingUniqueId)
              else UserInfoResponse(UniqueId(req), fetch(UserInfoUrl(encode(UniqueId(req))), Token(req.headers).value))
    ensures req.httpMethod != "OPTIONS" && Token(req.headers).Some? && Endpoint(req) == "debug" ==>
      resp == Ok(Diagnostics)
    ensures req.httpMethod != "OPTIONS" && Token(req.headers).Some? && !KnownEndpoint(Endpoint(req)) ==>
      resp == BadRequest(UnknownEndpoint + Endpoint(req))
  {
    if req.httpMethod == "OPTIONS" {
      return NoContent;
    }
    var endpoint := Endpoint(req);
    var keyword := Keyword(req);
    var uniqueId := UniqueId(req);
    var token := Token(req.headers);
    if token.None? {
      return BadRequest(MissingKey);
    }
    if endpoint == "hot_search" {
      resp := HotSearchResponse(fetch(HotSearchUrl, token.value));
    } else if endpoint == "search" {
      if keyword == "" {
        return BadRequest(MissingKeyword);
      }
      var urls := SearchCandidates(encode(keyword));
      var items, log, attempted := RunSearch(urls, FetchAll(urls, token.value, fetch));
      resp := SearchResponse(keyword, items, log);
    } else if endpoint == "user_info" {
      if uniqueId == "" {
        return BadRequest(MissingUniqueId);
      }
      resp := UserInfoResponse(uniqueId, fetch(UserInfoUrl(encode(uniqueId)), token.value));
    } else if endpoint == "debug" {
      resp := Ok(Diagnostics);
    } else {
      resp := BadRequest(UnknownEndpoint + endpoint);
    }
  }

  /** When every search candidate fails, the search still succeeds: no
      items, and one or two diagnostics per candidate. */
  lemma SearchAllFailedIsSuccess(keyword: string, urls: seq<string>, outcomes: seq<Outcome>)
    requires |urls| == |outcomes|
    requires forall j :: 0 <= j < |outcomes| ==> !Hits(outcomes[j])
    ensures var run := RunFrom(Attempts(urls, outcomes), 0);
      var r := SearchResponse(keyword, run.items, run.log);
      r.Ok? && r.payload.videos == [] && r.payload.debugLog.Some?
      && |urls| <= |r.payload.debugLog.value| <= 2 * |urls|
  {
    RunIsReference(Attempts(urls, outcomes));
    AllFailedLogsEveryCandidate(urls, outcomes);
  }
}
