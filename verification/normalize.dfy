/** The item normalisers: each maps one raw upstream item to the fixed
    record the handler returns, through `||` chains of source keys. */
module Normalize {
  import opened Wrappers
  import opened Text
  import opened Json

  /** One hot-search entry. Each field holds whatever value the `||` chain
      picked, which need not be a string or a number. */
  datatype HotEntry = HotEntry(rank: nat, word: Json, hotValue: Json, labelText: Json, coverUrl: Json)

  /** The hot entry of `item` at 1-based position `rank`: every field is
      a truthy value taken from the item, or its default. */
  function HotEntryOf(item: Json, rank: nat): (e: HotEntry)
    ensures e.rank == rank
    ensures Truthy(e.word) || e.word == Str("")
    ensures Truthy(e.hotValue) || e.hotValue == Num(0)
    ensures Truthy(e.labelText) || e.labelText == Str("")
    ensures Truthy(e.coverUrl) || e.coverUrl == Str("")
  {
    HotEntry(
      rank,
      FirstTruthy([Get(item, "word"), Get(item, "sentence"), Get(item, "hot_value_desc"),
                   Get(item, "title"), Get(item, "name")], Str("")),
      FirstTruthy([Get(item, "hot_value"), Get(item, "event_count"), Get(item, "hot_score"),
                   Get(item, "score")], Num(0)),
      FirstTruthy([Get(item, "label_name"), Get(item, "sentence_label"), Get(item, "label"),
                   Get(item, "tag")], Str("")),
      FirstTruthy([Get(item, "cover_url"), At0(Get(Get(item, "cover"), "url_list"))], Str("")))
  }

  /** `list.map((item, idx) => ...)`: one entry per item, in order,
      ranked from 1; reading `item.word` throws a TypeError when an item is
      null or undefined. */
  function HotEntries(list: seq<Json>): (r: Result<seq<HotEntry>, Exception>)
    ensures r.Success? <==> forall i :: 0 <= i < |list| ==> !Nullish(list[i])
    ensures r.Failure? ==> r.error == TypeError
    ensures r.Success? ==> |r.value| == |list|
    ensures r.Success? ==> forall i :: 0 <= i < |list| ==> r.value[i] == HotEntryOf(list[i], i + 1)
  {
    AllPresentMeans(list);
    if AllPresent(list) then Success(seq(|list|, i requires 0 <= i < |list| => HotEntryOf(list[i], i + 1)))
    else Failure(TypeError)
  }

  /** Each hot field is its first truthy source key, in the order the
      chain lists them, else the default. */
  lemma HotEntryFields(item: Json, rank: nat)
    ensures ChainValue([Get(item, "word"), Get(item, "sentence"), Get(item, "hot_value_desc"),
                        Get(item, "title"), Get(item, "name")], Str(""), HotEntryOf(item, rank).word)
    ensures ChainValue([Get(item, "hot_value"), Get(item, "event_count"), Get(item, "hot_score"),
                        Get(item, "score")], Num(0), HotEntryOf(item, rank).hotValue)
    ensures ChainValue([Get(item, "label_name"), Get(item, "sentence_label"), Get(item, "label"),
                        Get(item, "tag")], Str(""), HotEntryOf(item, rank).labelText)
    ensures ChainValue([Get(item, "cover_url"), At0(Get(Get(item, "cover"), "url_list"))], Str(""),
                       HotEntryOf(item, rank).coverUrl)
  {
  }

  /** The flat `cover_url` wins over `cover.url_list[0]`, which is used only
      when the flat key is falsy. */
  lemma HotCoverPrefersFlat(item: Json, rank: nat)
    ensures Truthy(Get(item, "cover_url")) ==> HotEntryOf(item, rank).coverUrl == Get(item, "cover_url")
    ensures !Truthy(Get(item, "cover_url")) ==>
      HotEntryOf(item, rank).coverUrl == Or(At0(Get(Get(item, "cover"), "url_list")), Str(""))
  {
    var alts := [Get(item, "cover_url"), At0(Get(Get(item, "cover"), "url_list"))];
    assert NoneTruthy(alts[..0]);
    if !Truthy(alts[0]) {
      assert NoneTruthy(alts[..1]);
    }
  }

  /** An item with no known key at all still normalises, to zero values. */
  lemma HotEntryOfEmptyItem(rank: nat)
    ensures HotEntryOf(Obj([]), rank) == HotEntry(rank, Str(""), Num(0), Str(""), Str(""))
  {
  }

  /** The outcome of `parseInt` where the model knows it: an integer Number
      that survives printing and reparsing, or a string of at most 15
      decimal digits. Everything else is left unparsed, not defaulted. */
  datatype Count = Int(value: int) | Unparsed(raw: Json)

  /** 2^53: larger integers are not exact JavaScript Numbers. */
  const MaxSafe: int := 0x20_0000_0000_0000

  function ParseCount(x: Json): (c: Count)
    ensures c.Int? ==>
      || (x.Num? && -MaxSafe <= x.n <= MaxSafe && x.n == c.value)
      || (x.Str? && 0 < |x.s| <= 15 && AllDigits(x.s) && DigitsValue(x.s) == c.value)
    ensures c.Unparsed? ==> c.raw == x
    ensures x.Num? && -MaxSafe <= x.n <= MaxSafe ==> c == Int(x.n)
    ensures x.Str? && 0 < |x.s| <= 15 && AllDigits(x.s) ==> c == Int(DigitsValue(x.s))
  {
    match x
    case Num(n) => if -MaxSafe <= n <= MaxSafe then Int(n) else Unparsed(x)
    case Str(s) => if 0 < |s| <= 15 && AllDigits(s) then Int(DigitsValue(s)) else Unparsed(x)
    case _ => Unparsed(x)
  }

  /** A count sent as the decimal string of `n` reads back as `n`. */
  lemma ParseCountDecimal(n: nat)
    requires n < Pow10(15)
    ensures ParseCount(Str(Decimal(n))) == Int(n)
  {
    DecimalLength(n, 15);
    DecimalRoundTrip(n);
  }

  /** One search result; the creation date is not part of the model. */
  datatype SearchEntry = SearchEntry(
    awemeId: Json, desc: Json, author: Json, authorId: Json, coverUrl: Json,
    playCount: Count, diggCount: Count, commentCount: Count, shareCount: Count)

  /** The video record of a search item: its `aweme_info` when truthy,
      else the item itself. A truthy item gives a truthy record, so reading
      its properties never throws. */
  function Video(item: Json): (v: Json)
    ensures ChainValue([Get(item, "aweme_info")], item, v)
    ensures Truthy(item) ==> Truthy(v)
  {
    assert NoneTruthy([Get(item, "aweme_info")][..0]);
    Or(Get(item, "aweme_info"), item)
  }

  /** The statistics object: `statistics`, else `stats`, else `{}`; always
      truthy, so reading a count from it never throws. */
  function Stats(v: Json): (stat: Json)
    ensures ChainValue([Get(v, "statistics"), Get(v, "stats")], Obj([]), stat)
    ensures Truthy(stat)
  {
    FirstTruthy([Get(v, "statistics"), Get(v, "stats")], Obj([]))
  }

  /** The normalised search video of `item`: every text field is a truthy
      value of the record or `''`. */
  function SearchEntryOf(item: Json): (e: SearchEntry)
    ensures Truthy(e.awemeId) || e.awemeId == Str("")
    ensures Truthy(e.desc) || e.desc == Str("")
    ensures Truthy(e.author) || e.author == Str("")
    ensures Truthy(e.authorId) || e.authorId == Str("")
    ensures Truthy(e.coverUrl) || e.coverUrl == Str("")
  {
    var v := Video(item);
    var stat := Stats(v);
    var author := Get(v, "author");
    SearchEntry(
      FirstTruthy([Get(v, "aweme_id"), Get(v, "id")], Str("")),
      FirstTruthy([Get(v, "desc"), Get(v, "title")], Str("")),
      FirstTruthy([Get(author, "nickname"), Get(author, "name")], Str("")),
      FirstTruthy([Get(author, "unique_id"), Get(author, "uid")], Str("")),
      FirstTruthy([At0(Get(Get(Get(v, "video"), "cover"), "url_list")), Get(v, "cover_url")], Str("")),
      ParseCount(Or(Or(Get(stat, "play_count"), Get(stat, "playCount")), Num(0))),
      ParseCount(Or(Or(Get(stat, "digg_count"), Get(stat, "like_count")), Num(0))),
      ParseCount(Or(Get(stat, "comment_count"), Num(0))),
      ParseCount(Or(Get(stat, "share_count"), Num(0))))
  }

  /** Each text field of a search video is its first truthy source key, in
      chain order, else `''`; the cover of `video.cover.url_list[0]` takes
      precedence over the flat `cover_url`. */
  lemma SearchEntryFields(item: Json)
    ensures var v := Video(item);
      ChainValue([Get(v, "aweme_id"), Get(v, "id")], Str(""), SearchEntryOf(item).awemeId)
    ensures var v := Video(item);
      ChainValue([Get(v, "desc"), Get(v, "title")], Str(""), SearchEntryOf(item).desc)
    ensures var v := Video(item);
      ChainValue([Get(Get(v, "author"), "nickname"), Get(Get(v, "author"), "name")], Str(""), SearchEntryOf(item).author)
    ensures var v := Video(item);
      ChainValue([Get(Get(v, "author"), "unique_id"), Get(Get(v, "author"), "uid")], Str(""), SearchEntryOf(item).authorId)
    ensures var v := Video(item);
      ChainValue([At0(Get(Get(Get(v, "video"), "cover"), "url_list")), Get(v, "cover_url")], Str(""),
                 SearchEntryOf(item).coverUrl)
  {
  }

  /** The play count is `parseInt` of `play_count`, else of `playCount`,
      else of 0. */
  lemma SearchPlayCount(item: Json)
    ensures var st, e := Stats(Video(item)), SearchEntryOf(item);
      && (Truthy(Get(st, "play_count")) ==> e.playCount == ParseCount(Get(st, "play_count")))
      && (!Truthy(Get(st, "play_count")) && Truthy(Get(st, "playCount")) ==> e.playCount == ParseCount(Get(st, "playCount")))
      && (!Truthy(Get(st, "play_count")) && !Truthy(Get(st, "playCount")) ==> e.playCount == Int(0))
  {
  }

  /** The like count is `parseInt` of `digg_count`, else of `like_count`,
      else of 0. */
  lemma SearchDiggCount(item: Json)
    ensures var st, e := Stats(Video(item)), SearchEntryOf(item);
      && (Truthy(Get(st, "digg_count")) ==> e.diggCount == ParseCount(Get(st, "digg_count")))
      && (!Truthy(Get(st, "digg_count")) && Truthy(Get(st, "like_count")) ==> e.diggCount == ParseCount(Get(st, "like_count")))
      && (!Truthy(Get(st, "digg_count")) && !Truthy(Get(st, "like_count")) ==> e.diggCount == Int(0))
  {
  }

  /** The comment and share counts are `parseInt` of their statistic when
      it is truthy, else 0. */
  lemma SearchCommentShareCounts(item: Json)
    ensures var st, e := Stats(Video(item)), SearchEntryOf(item);
      && (Truthy(Get(st, "comment_count")) ==> e.commentCount == ParseCount(Get(st, "comment_count")))
      && (!Truthy(Get(st, "comment_count")) ==> e.commentCount == Int(0))
    ensures var st, e := Stats(Video(item)), SearchEntryOf(item);
      && (Truthy(Get(st, "share_count")) ==> e.shareCount == ParseCount(Get(st, "share_count")))
      && (!Truthy(Get(st, "share_count")) ==> e.shareCount == Int(0))
  {
  }

  /** A wrapped item normalises exactly like the `aweme_info` record it
      wraps (when that record is not itself wrapped again). */
  lemma SearchEntryUnwrapsAwemeInfo(item: Json)
    requires Truthy(Get(item, "aweme_info"))
    requires !Truthy(Get(Get(item, "aweme_info"), "aweme_info"))
    ensures SearchEntryOf(item) == SearchEntryOf(Get(item, "aweme_info"))
  {
  }

  /** With neither `statistics` nor `stats`, every count is 0. */
  lemma SearchCountsDefaultToZero(item: Json)
    requires !Truthy(Get(Video(item), "statistics")) && !Truthy(Get(Video(item), "stats"))
    ensures var e := SearchEntryOf(item);
      e.playCount == Int(0) && e.diggCount == Int(0) && e.commentCount == Int(0) && e.shareCount == Int(0)
  {
    assert NoneTruthy([Get(Video(item), "statistics"), Get(Video(item), "stats")]);
  }

  /** The user-profile record. */
  datatype UserRecord = UserRecord(
    nickname: Json, uniqueId: Json, uid: Json, signature: Json, avatarUrl: Json,
    followerCount: Json, followingCount: Json, awemeCount: Json, totalFavorited: Json,
    verified: Json, region: Json)

  const UserNotFound: string := "未找到该用户"

  /** The user object of a profile response: `data.user`, else `data`,
      else `{}`; always truthy, so `u.nickname` never throws. */
  function UserObject(json: Json): (u: Json)
    ensures ChainValue([Get(Get(json, "data"), "user"), Get(json, "data")], Obj([]), u)
    ensures Truthy(u)
  {
    FirstTruthy([Get(Get(json, "data"), "user"), Get(json, "data")], Obj([]))
  }

  /** The profile for request parameter `uniqueId`, or "未找到该用户" when the
      upstream user has neither a truthy `nickname` nor a truthy `uid`. */
  function UserRecordOf(json: Json, uniqueId: string): (r: Result<UserRecord, string>)
    ensures var u := UserObject(json);
      r.Failure? <==> !Truthy(Get(u, "nickname")) && !Truthy(Get(u, "uid"))
    ensures r.Failure? ==> r.error == UserNotFound
    ensures r.Success? ==> Truthy(r.value.nickname) || Truthy(r.value.uid)
    ensures var u := UserObject(json);
      r.Success? ==> r.value.uniqueId == if Truthy(Get(u, "unique_id")) then Get(u, "unique_id") else Str(uniqueId)
  {
    var u := UserObject(json);
    if !Truthy(Get(u, "nickname")) && !Truthy(Get(u, "uid")) then Failure(UserNotFound)
    else
      Success(UserRecord(
        FirstTruthy([Get(u, "nickname")], Str("")),
        FirstTruthy([Get(u, "unique_id")], Str(uniqueId)),
        FirstTruthy([Get(u, "uid")], Str("")),
        FirstTruthy([Get(u, "signature")], Str("")),
        FirstTruthy([At0(Get(Get(u, "avatar_thumb"), "url_list")), Get(u, "avatar_url")], Str("")),
        FirstTruthy([Get(u, "follower_count"), Get(u, "fans_count")], Num(0)),
        FirstTruthy([Get(u, "following_count")], Num(0)),
        FirstTruthy([Get(u, "aweme_count"), Get(u, "video_count")], Num(0)),
        FirstTruthy([Get(u, "total_favorited"), Get(u, "like_count")], Num(0)),
        FirstTruthy([Get(u, "custom_verify"), Get(u, "enterprise_verify_reason")], Str("")),
        FirstTruthy([Get(u, "region"), Get(u, "country")], Str(""))))
  }

  /** Each profile field is the value of its `||` chain over the user
      object, in chain order, else its default. */
  lemma UserRecordFields(json: Json, uniqueId: string)
    requires UserRecordOf(json, uniqueId).Success?
    ensures var u, r := UserObject(json), UserRecordOf(json, uniqueId).value;
      && ChainValue([Get(u, "nickname")], Str(""), r.nickname)
      && ChainValue([Get(u, "unique_id")], Str(uniqueId), r.uniqueId)
      && ChainValue([Get(u, "uid")], Str(""), r.uid)
      && ChainValue([Get(u, "signature")], Str(""), r.signature)
      && ChainValue([At0(Get(Get(u, "avatar_thumb"), "url_list")), Get(u, "avatar_url")], Str(""), r.avatarUrl)
    ensures var u, r := UserObject(json), UserRecordOf(json, uniqueId).value;
      && ChainValue([Get(u, "follower_count"), Get(u, "fans_count")], Num(0), r.followerCount)
      && ChainValue([Get(u, "following_count")], Num(0), r.followingCount)
      && ChainValue([Get(u, "aweme_count"), Get(u, "video_count")], Num(0), r.awemeCount)
      && ChainValue([Get(u, "total_favorited"), Get(u, "like_count")], Num(0), r.totalFavorited)
    ensures var u, r := UserObject(json), UserRecordOf(json, uniqueId).value;
      && ChainValue([Get(u, "custom_verify"), Get(u, "enterprise_verify_reason")], Str(""), r.verified)
      && ChainValue([Get(u, "region"), Get(u, "country")], Str(""), r.region)
  {
  }
}
