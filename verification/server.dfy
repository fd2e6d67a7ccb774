/** The decision logic of the three API route handlers (latest, search, stream):
    each fetches a token, posts to the upstream service directly (no retry, no
    timeout), and turns the outcome into a status and a JSON body. Plain property
    chains are used on the response, so a broken chain throws and the catch-all
    answers 500. */
module Server {
  import opened Wrappers
  import opened Text
  import opened JsonValues
  import opened Upstream
  import opened TokenGenerator
  import ApiClient

  /** What `res.json` sends: a status and a body; `body == None` is
      `res.json(undefined)`, an empty body. */
  datatype Reply = Reply(status: int, body: Option<Json>)

  /** The course of one request: the reply, the token generator's state afterwards,
      the token minted (if any) and the upstream request sent (if any). */
  datatype Handled = Handled(reply: Reply, state: TokenState, minted: Option<Minted>, sent: Option<HttpRequest>)

  /** `{ error: message }`. */
  function ErrorBody(message: string): Json {
    JObj([Field("error", JStr(message))])
  }

  const LatestFailure := "Failed to fetch latest dramas"
  const SearchFailure := "Failed to search dramas"
  const StreamFailure := "Failed to get stream link"
  const KeywordRequired := "Keyword is required"
  const EpisodeNotFound := "Episode not found"

  // ---------------------------------------------------------------------------
  // Query handling
  // ---------------------------------------------------------------------------

  /** `parseInt(req.query.page) || 1`: an absent page reaches `parseInt` as the text
      "undefined"; NaN and 0 are falsy and give 1. */
  function PageNumber(page: Option<string>): (n: int)
    ensures n != 0
    ensures ParseInt(page.GetOr("undefined")).Some? && ParseInt(page.GetOr("undefined")).value != 0
            ==> n == ParseInt(page.GetOr("undefined")).value
    ensures ParseInt(page.GetOr("undefined")).None? || ParseInt(page.GetOr("undefined")) == Some(0)
            ==> n == 1
  {
    match ParseInt(page.GetOr("undefined"))
    case None => 1
    case Some(k) => if k == 0 then 1 else k
  }

  /** With no `page` parameter the first page is asked for. */
  lemma PageDefaultsToOne()
    ensures PageNumber(None) == 1
  {
    var s := "undefined";
    assert TrimStart(s) == s by {
      assert !IsJsWhitespace(s[0]);
    }
    ParseIntRejects(s);
  }

  /** A page given as the decimal text of a non-zero integer, optionally followed by
      text that cannot continue it, is that integer; "0" gives page 1. */
  lemma PageOfDecimal(k: int, rest: string)
    requires |rest| == 0 || (!IsDecimalDigit(rest[0]) && rest[0] != 'x' && rest[0] != 'X')
    ensures k != 0 ==> PageNumber(Some(IntToString(k) + rest)) == k
    ensures k == 0 ==> PageNumber(Some(IntToString(k) + rest)) == 1
  {
    ParseIntOfDecimalText(k, rest);
  }

  /** `!keyword`: the keyword is missing or empty. */
  predicate KeywordMissing(q: Option<string>) {
    q.None? || q.value == ""
  }

  // ---------------------------------------------------------------------------
  // Requests
  // ---------------------------------------------------------------------------

  /** The request a handler posts: the header template with the handler's client
      id, the endpoint under the base URL, axios's default of no timeout. */
  function RouteRequest(token: TokenData, endpoint: string, cid: string, data: Json): (r: HttpRequest)
    ensures r.url == BaseUrl + endpoint && r.body == data && r.timeoutMs.None?
  {
    HttpRequest(BaseUrl + endpoint, data, HeaderTemplate(token.token, token.deviceid, cid), None)
  }

  /** A handler's request carries its token as the bearer credential, the device id
      and the client id it was given. */
  lemma RouteRequestHeaders(token: TokenData, endpoint: string, cid: string, data: Json)
    ensures var r := RouteRequest(token, endpoint, cid, data);
            && HeaderValue(r.headers, Tn) == Some("Bearer " + ToJsString(token.token))
            && HeaderValue(r.headers, DeviceId) == Some(token.deviceid)
            && HeaderValue(r.headers, Cid) == Some(cid)
  {
    HeaderTemplateFields(token.token, token.deviceid, cid);
  }

  // ---------------------------------------------------------------------------
  // Replies
  // ---------------------------------------------------------------------------

  /** `res.json(response.data.<path>)` inside the handler's try block: a rejected
      POST or a chain that reads a property of null or undefined ends in the catch
      block's 500; otherwise the value at the end of the chain is sent as it is,
      even when it is missing. */
  function Respond(outcome: Result<Json, HttpError>, path: seq<string>, failure: string): (r: Reply)
    ensures r.status == 200 || r == Reply(500, Some(ErrorBody(failure)))
    ensures r.status == 200 <==> outcome.Success? && !StopsEarly(Some(outcome.value), path)
    ensures r.status == 200 ==> r.body == OptionalChain(Some(outcome.value), path)
  {
    match outcome
    case Failure(_) => Reply(500, Some(ErrorBody(failure)))
    case Success(body) =>
      StrictAgreesWithOptional(Some(body), path);
      match StrictChain(Some(body), path)
      case Failure(_) => Reply(500, Some(ErrorBody(failure)))
      case Success(v) => Reply(200, v)
  }

  const LatestChain := ["data", "newTheaterList", "records"]
  const SearchChain := ["data", "suggestList"]
  const StreamChain := ["data", "chapterList"]

  // ---------------------------------------------------------------------------
  // The handlers
  // ---------------------------------------------------------------------------

  /** `GET /api/latest?page=…`. */
  function LatestRoute(mint: Mint, s: TokenState, page: Option<string>, env: MintEnv,
                       transport: Transport): (h: Handled)
    requires mint.requires(s, env)
    ensures h.minted == Some(mint(s, env)) && h.state == mint(s, env).state
    ensures h.sent == Some(RouteRequest(mint(s, env).data, LatestEndpoint, CatalogCid,
                                        LatestBody(JNum(PageNumber(page)))))
    ensures h.reply == Respond(Post(transport), LatestChain, LatestFailure)
  {
    var m := mint(s, env);
    var request := RouteRequest(m.data, LatestEndpoint, CatalogCid, LatestBody(JNum(PageNumber(page))));
    Handled(Respond(Post(transport), LatestChain, LatestFailure), m.state, Some(m), Some(request))
  }

  /** `GET /api/search?q=…`: a missing or empty keyword is refused with 400 before
      any token is fetched or request sent. */
  function SearchRoute(mint: Mint, s: TokenState, q: Option<string>, env: MintEnv,
                       transport: Transport): (h: Handled)
    requires mint.requires(s, env)
    ensures h.reply.status == 400 <==> KeywordMissing(q)
    ensures KeywordMissing(q) ==> h == Handled(Reply(400, Some(ErrorBody(KeywordRequired))), s, None, None)
    ensures !KeywordMissing(q) ==>
              && h.minted == Some(mint(s, env)) && h.state == mint(s, env).state
              && h.sent == Some(RouteRequest(mint(s, env).data, SearchEndpoint, CatalogCid, SearchBody(q.value)))
              && h.reply == Respond(Post(transport), SearchChain, SearchFailure)
  {
    if KeywordMissing(q) then
      Handled(Reply(400, Some(ErrorBody(KeywordRequired))), s, None, None)
    else
      var m := mint(s, env);
      var request := RouteRequest(m.data, SearchEndpoint, CatalogCid, SearchBody(q.value));
      Handled(Respond(Post(transport), SearchChain, SearchFailure), m.state, Some(m), Some(request))
  }

  /** `GET /api/stream/:bookId/:episode`. */
  function StreamRoute(mint: Mint, s: TokenState, bookId: string, episode: string, env: MintEnv,
                       transport: Transport): (h: Handled)
    requires mint.requires(s, env)
    ensures h.minted == Some(mint(s, env)) && h.state == mint(s, env).state
    ensures h.sent == Some(RouteRequest(mint(s, env).data, StreamEndpoint, StreamCid, StreamBody(bookId, episode)))
    ensures Post(transport).Failure? ==> h.reply == Reply(500, Some(ErrorBody(StreamFailure)))
    ensures Post(transport).Success? ==>
              h.reply == StreamOutcome(StrictChain(Some(Post(transport).value), StreamChain))
  {
    var m := mint(s, env);
    var request := RouteRequest(m.data, StreamEndpoint, StreamCid, StreamBody(bookId, episode));
    var reply :=
      match Post(transport)
      case Failure(_) => Reply(500, Some(ErrorBody(StreamFailure)))
      case Success(body) => StreamOutcome(StrictChain(Some(body), StreamChain));
    Handled(reply, m.state, Some(m), Some(request))
  }

  /** The stream handler once `response.data.data.chapterList` has been read, or
      has thrown. */
  function StreamOutcome(chapterList: Result<Option<Json>, Thrown>): (r: Reply)
    ensures chapterList.Failure? ==> r == Reply(500, Some(ErrorBody(StreamFailure)))
    ensures chapterList.Success? ==> r == StreamReply(chapterList.value)
  {
    match chapterList
    case Failure(_) => Reply(500, Some(ErrorBody(StreamFailure)))
    case Success(cl) => StreamReply(cl)
  }

  // ---------------------------------------------------------------------------
  // The stream reply
  // ---------------------------------------------------------------------------

  /** `length > 0` for the value a `length` read gives. Only numbers and booleans
      are compared; any other value counts as not positive. */
  predicate PositiveLength(length: Option<Json>) {
    match length
    case Some(JNum(n)) => n > 0
    case Some(JBool(b)) => b
    case _ => false
  }

  /** `chapterList && chapterList.length > 0`. */
  predicate HasChapters(chapterList: Option<Json>) {
    Truthy(chapterList) && PositiveLength(Member(chapterList.value, "length"))
  }

  /** `[{ name: value }]` when the member is present, nothing when it is undefined
      (which `JSON.stringify` leaves out). */
  function Pick(c: Json, name: string): (fs: seq<Field>)
    ensures |fs| <= 1
    ensures |fs| == 1 <==> Member(c, name).Some?
    ensures |fs| == 1 ==> fs[0] == Field(name, Member(c, name).value)
  {
    match Member(c, name)
    case None => []
    case Some(v) => [Field(name, v)]
  }

  /** `({ index: chapter.index, title: chapter.title, duration: chapter.duration })`
      for a chapter that is not null or undefined. */
  function ProjectChapter(c: Json): (r: Json)
    ensures r.JObj? && |r.members| <= 3
  {
    JObj(Pick(c, "index") + Pick(c, "title") + Pick(c, "duration"))
  }

  /** `chapterList.map(...)` over an array: `None` when some chapter is null, for
      which the projection throws. */
  function Project(chapters: seq<Json>): (r: Option<seq<Json>>)
    ensures r.Some? <==> forall i :: 0 <= i < |chapters| ==> !chapters[i].JNull?
    ensures r.Some? ==> |r.value| == |chapters|
    ensures r.Some? ==> forall i :: 0 <= i < |chapters| ==> r.value[i] == ProjectChapter(chapters[i])
    decreases |chapters|
  {
    if |chapters| == 0 then Some([])
    else if chapters[0].JNull? then None
    else
      match Project(chapters[1..])
      case None => None
      case Some(rest) => Some([ProjectChapter(chapters[0])] + rest)
  }

  /** The `streamUrl` member: left out when `cdnList[0]` is undefined. */
  function UrlField(url: Option<Json>): (fs: seq<Field>)
    ensures url.None? <==> |fs| == 0
  {
    match url
    case None => []
    case Some(u) => [Field("streamUrl", u)]
  }

  /** The chapter list can be answered: a non-empty array with no null chapter,
      whose first chapter has a `cdnList` that is not null or undefined. */
  predicate Streamable(chapterList: Option<Json>) {
    && chapterList.Some? && chapterList.value.JArr? && |chapterList.value.items| > 0
    && (forall i :: 0 <= i < |chapterList.value.items| ==> !chapterList.value.items[i].JNull?)
    && !IsNullish(Member(chapterList.value.items[0], "cdnList"))
  }

  /** The 200/404/500 decision on the chapter list: no chapters is 404; chapters in
      an array give `streamUrl` (the first CDN URL of the first chapter) and the
      projected list; reading the URL or projecting may throw, which is 500, and a
      non-array has no `map`, which is 500 as well. */
  function StreamReply(chapterList: Option<Json>): (r: Reply)
    ensures r.status == 200 || r.status == 404 || r == Reply(500, Some(ErrorBody(StreamFailure)))
    ensures r.status == 404 <==> !HasChapters(chapterList)
    ensures r.status == 404 ==> r.body == Some(ErrorBody(EpisodeNotFound))
    ensures r.status == 200 <==> Streamable(chapterList)
  {
    if !HasChapters(chapterList) then Reply(404, Some(ErrorBody(EpisodeNotFound)))
    else
      match chapterList.value
      case JArr(cs) =>
        var first := cs[0];
        if first.JNull? then Reply(500, Some(ErrorBody(StreamFailure)))
        else
          var cdn := Member(first, "cdnList");
          if IsNullish(cdn) then Reply(500, Some(ErrorBody(StreamFailure)))
          else
            (match Project(cs)
             case None => Reply(500, Some(ErrorBody(StreamFailure)))
             case Some(projected) =>
               Reply(200, Some(JObj(UrlField(At(cdn.value, 0)) + [Field("chapterList", JArr(projected))]))))
      case _ => Reply(500, Some(ErrorBody(StreamFailure)))
  }

  // ---------------------------------------------------------------------------
  // Properties
  // ---------------------------------------------------------------------------

  /** A projected chapter shows the chapter's own `index`, `title` and `duration`,
      each left out exactly when the chapter lacks it. */
  lemma ProjectionKeepsFields(c: Json)
    ensures Member(ProjectChapter(c), "index") == Member(c, "index")
    ensures Member(ProjectChapter(c), "title") == Member(c, "title")
    ensures Member(ProjectChapter(c), "duration") == Member(c, "duration")
  {
    ProjectedIndex(c);
    ProjectedTitle(c);
    ProjectedDuration(c);
  }

  /** A projected chapter has no member besides those three. */
  lemma ProjectionOnlyFields(c: Json, i: nat)
    requires i < |ProjectChapter(c).members|
    ensures ProjectChapter(c).members[i].name in {"index", "title", "duration"}
  {
    var a, b, d := Pick(c, "index"), Pick(c, "title"), Pick(c, "duration");
    var ms := a + b + d;
    assert ProjectChapter(c).members == ms;
    if i < |a| {
      assert ms[i] == a[0];
    } else if i < |a| + |b| {
      assert ms[i] == b[0];
    } else {
      assert ms[i] == d[0];
    }
  }

  /** Looking a picked member up finds the chapter's own value, or nothing. */
  lemma PickLookup(c: Json, name: string)
    ensures Lookup(Pick(c, name), name) == Member(c, name)
  {
  }

  lemma ProjectedIndex(c: Json)
    ensures Member(ProjectChapter(c), "index") == Member(c, "index")
  {
    var a, b, d := Pick(c, "index"), Pick(c, "title"), Pick(c, "duration");
    assert ProjectChapter(c).members == a + b + d;
    LookupSkips(a + b, d, "index");
    LookupSkips(a, b, "index");
    PickLookup(c, "index");
  }

  lemma ProjectedTitle(c: Json)
    ensures Member(ProjectChapter(c), "title") == Member(c, "title")
  {
    var a, b, d := Pick(c, "index"), Pick(c, "title"), Pick(c, "duration");
    assert ProjectChapter(c).members == a + b + d;
    LookupSkips(a + b, d, "title");
    if |b| == 0 {
      assert a + b == a;
      PickLookup(c, "title");
    } else {
      assert (a + b)[|a + b| - 1] == b[0];
    }
  }

  lemma ProjectedDuration(c: Json)
    ensures Member(ProjectChapter(c), "duration") == Member(c, "duration")
  {
    var a, b, d := Pick(c, "index"), Pick(c, "title"), Pick(c, "duration");
    assert ProjectChapter(c).members == a + b + d;
    if |d| == 0 {
      assert a + b + d == a + b;
      LookupSkips(a, b, "duration");
      PickLookup(c, "duration");
    }
  }

  /** The body of a 200 stream reply: the optional `streamUrl`, then the projected
      chapter list. */
  lemma StreamReplyBody(cs: seq<Json>)
    requires Streamable(Some(JArr(cs)))
    ensures Project(cs).Some? && Member(cs[0], "cdnList").Some?
    ensures StreamReply(Some(JArr(cs))).body ==
              Some(JObj(UrlField(At(Member(cs[0], "cdnList").value, 0))
                        + [Field("chapterList", JArr(Project(cs).value))]))
  {
  }

  /** A list that can be answered gets 200, and the reply lists every chapter, in
      order, each projected. */
  lemma StreamChapterList(cs: seq<Json>)
    requires Streamable(Some(JArr(cs)))
    ensures var body := StreamReply(Some(JArr(cs))).body;
            && StreamReply(Some(JArr(cs))).status == 200
            && body.Some? && body.value.JObj?
            && Member(body.value, "chapterList") == Some(JArr(Project(cs).value))
            && |Project(cs).value| == |cs|
            && (forall i :: 0 <= i < |cs| ==> Project(cs).value[i] == ProjectChapter(cs[i]))
  {
    StreamReplyBody(cs);
    var ms := UrlField(At(Member(cs[0], "cdnList").value, 0))
              + [Field("chapterList", JArr(Project(cs).value))];
    LookupUnique(ms, |ms| - 1, "chapterList");
  }

  /** The `streamUrl` of the reply to a list that can be answered is the first entry
      of the first chapter's `cdnList`, and is present exactly when that entry is defined. */
  lemma StreamUrlIsFirstCdn(cs: seq<Json>)
    requires Streamable(Some(JArr(cs)))
    ensures var body := StreamReply(Some(JArr(cs))).body;
            && body.Some? && body.value.JObj?
            && Member(body.value, "streamUrl") == At(Member(cs[0], "cdnList").value, 0)
  {
    StreamReplyBody(cs);
    var url := At(Member(cs[0], "cdnList").value, 0);
    var list := [Field("chapterList", JArr(Project(cs).value))];
    LookupSkips(UrlField(url), list, "streamUrl");
  }

  /** A null chapter anywhere in a non-empty list makes the handler answer 500. */
  lemma NullChapterFails(cs: seq<Json>, i: nat)
    requires i < |cs| && cs[i].JNull?
    ensures StreamReply(Some(JArr(cs))) == Reply(500, Some(ErrorBody(StreamFailure)))
  {
  }

  /** No chapter list, an empty array, or any falsy value gives 404. */
  lemma NoChaptersNotFound(chapterList: Option<Json>)
    requires chapterList.None? || chapterList == Some(JArr([])) || !Truthy(chapterList)
    ensures StreamReply(chapterList) == Reply(404, Some(ErrorBody(EpisodeNotFound)))
  {
  }

  /** Where the server and the API client read the same resolved body along the
      same path, the server is the stricter: a 200 with a truthy value is exactly
      what the client returns; a 200 with a missing or falsy value, and a 500 from a
      chain that breaks, are the client's empty list; a null body fails in both. */
  lemma ServerStricterThanClient(body: Json, path: seq<string>, failure: string)
    ensures var r := Respond(Success(body), ["data"] + path, failure);
            var c := ApiClient.Envelope(body, path);
            && (body.JNull? ==> r.status == 500 && c.Failure?)
            && (r.status == 200 && Truthy(r.body) ==> c == Success(r.body.value))
            && (r.status == 200 && !Truthy(r.body) ==> c == Success(JArr([])))
            && (r.status == 500 && !body.JNull? ==> c == Success(JArr([])))
  {
    var full := ["data"] + path;
    assert full[0] == "data" && full[1..] == path;
    StrictAgreesWithOptional(Some(body), full);
    ChainBreaksToNone(Member(body, "data"), path);
  }

  /** A latest-list body whose `data` has no `newTheaterList` breaks the chain
      before `records`, and the handler answers 500. */
  lemma MissingTheaterListFails(body: Json, data: Json)
    requires Member(body, "data") == Some(data) && !body.JNull? && !data.JNull?
    requires Member(data, "newTheaterList").None?
    ensures Respond(Success(body), LatestChain, LatestFailure) == Reply(500, Some(ErrorBody(LatestFailure)))
  {
    assert LatestChain[1..] == ["newTheaterList", "records"];
    assert LatestChain[1..][1..] == ["records"];
  }

  /** A search body whose `data` has no `suggestList` does not throw: the last step
      of the chain yields undefined, and the handler answers 200 with no body. */
  lemma MissingSuggestListIsEmpty(body: Json, data: Json)
    requires Member(body, "data") == Some(data) && !body.JNull? && !data.JNull?
    requires Member(data, "suggestList").None?
    ensures Respond(Success(body), SearchChain, SearchFailure) == Reply(200, None)
  {
    assert SearchChain[1..] == ["suggestList"];
    assert SearchChain[1..][1..] == [];
  }

  /** Where the plain chain throws, the optional chain ends in undefined. */
  lemma {:induction false} ChainBreaksToNone(v: Option<Json>, path: seq<string>)
    ensures StopsEarly(v, path) ==> OptionalChain(v, path).None?
    decreases |path|
  {
    if |path| > 0 && !IsNullish(v) {
      ChainBreaksToNone(Member(v.value, path[0]), path[1..]);
    }
  }
}
