/** The upstream service as the client frames it: the base URL and endpoints, the
    two client ids, the header set sent with every catalog and stream call, the
    three request bodies, and the rule by which axios turns a transport outcome into
    a resolved body or a rejection. Both the API client and the route handlers build
    their requests from these definitions. */
module Upstream {
  import opened Wrappers
  import opened Text
  import opened JsonValues

  const BaseUrl := "https://sapi.dramaboxdb.com/drama-box"
  const LatestEndpoint := "/he001/theater"
  const SearchEndpoint := "/search/suggest"
  const StreamEndpoint := "/chapterv2/batch/load"

  /** Client id for catalog browsing (latest list, search). */
  const CatalogCid := "DRA1000042"
  /** Client id for stream resolution. */
  const StreamCid := "DRA1000000"

  /** The header names the client sends. The catalog template carries both
      `Content-Type` and `content-type`, as two separate entries. */
  datatype HeaderName =
    | UserAgent | AcceptEncoding | ContentType | Tn | Version | Vn | Cid | PackageName
    | Apn | DeviceId | Language | CurrentLanguage | P | TimeZone | ContentTypeLower
  {
    /** The name as written on the wire. */
    function Spelling(): string {
      match this
      case UserAgent => "User-Agent"
      case AcceptEncoding => "Accept-Encoding"
      case ContentType => "Content-Type"
      case Tn => "tn"
      case Version => "version"
      case Vn => "vn"
      case Cid => "cid"
      case PackageName => "package-name"
      case Apn => "apn"
      case DeviceId => "device-id"
      case Language => "language"
      case CurrentLanguage => "current-language"
      case P => "p"
      case TimeZone => "time-zone"
      case ContentTypeLower => "content-type"
    }
  }

  /** Header names and values in the order the source writes them. */
  type Headers = seq<(HeaderName, string)>

  /** What the network did with one POST. */
  datatype Transport =
    | Responded(status: int, body: Json)
    | TimedOut
    | ConnectionFailed(reason: string)

  /** The error an axios call rejects with. */
  datatype HttpError =
    | StatusError(status: int, body: Json)
    | TimeoutError
    | NetworkError(reason: string)

  /** One outbound POST; `timeoutMs == None` is axios's default of no timeout. */
  datatype HttpRequest = HttpRequest(url: string, body: Json, headers: Headers, timeoutMs: Option<nat>)

  /** `axios.post`: resolves with the parsed body when the status is 2xx, and rejects
      on any other status, on a timeout and on a connection failure. */
  function Post(t: Transport): (r: Result<Json, HttpError>)
    ensures r.Success? <==> t.Responded? && 200 <= t.status < 300
    ensures r.Success? ==> r.value == t.body
    ensures t.TimedOut? ==> r == Failure(TimeoutError)
  {
    match t
    case Responded(status, body) =>
      if 200 <= status < 300 then Success(body) else Failure(StatusError(status, body))
    case TimedOut => Failure(TimeoutError)
    case ConnectionFailed(reason) => Failure(NetworkError(reason))
  }

  /** The value of the first header called `name`. */
  function HeaderValue(h: Headers, name: HeaderName): Option<string> {
    if |h| == 0 then None
    else if h[0].0 == name then Some(h[0].1)
    else HeaderValue(h[1..], name)
  }

  /** The first header called `name` decides its value. */
  lemma {:induction false} HeaderFirst(h: Headers, i: nat, name: HeaderName)
    requires i < |h| && h[i].0 == name
    requires forall j :: 0 <= j < i ==> h[j].0 != name
    ensures HeaderValue(h, name) == Some(h[i].1)
  {
    if i > 0 {
      HeaderFirst(h[1..], i - 1, name);
    }
  }

  /** The header set of every catalog and stream call: fixed client identity fields,
      the bearer token, the device id and one of the two client ids. */
  function HeaderTemplate(token: Json, deviceId: string, cid: string): (h: Headers)
    ensures |h| == 15
  {
    [ (UserAgent, "okhttp/4.10.0"),
      (AcceptEncoding, "gzip"),
      (ContentType, "application/json"),
      (Tn, "Bearer " + ToJsString(token)),
      (Version, "430"),
      (Vn, "4.3.0"),
      (Cid, cid),
      (PackageName, "com.storymatrix.drama"),
      (Apn, "1"),
      (DeviceId, deviceId),
      (Language, "in"),
      (CurrentLanguage, "in"),
      (P, "43"),
      (TimeZone, "+0800"),
      (ContentTypeLower, "application/json; charset=UTF-8") ]
  }

  /** The template carries the token as a bearer credential, the device id and the
      client id it was given. */
  lemma HeaderTemplateFields(token: Json, deviceId: string, cid: string)
    ensures HeaderValue(HeaderTemplate(token, deviceId, cid), Tn) == Some("Bearer " + ToJsString(token))
    ensures HeaderValue(HeaderTemplate(token, deviceId, cid), DeviceId) == Some(deviceId)
    ensures HeaderValue(HeaderTemplate(token, deviceId, cid), Cid) == Some(cid)
  {
    TemplateBearer(token, deviceId, cid);
    TemplateDevice(token, deviceId, cid);
    TemplateClient(token, deviceId, cid);
  }

  lemma TemplateBearer(token: Json, deviceId: string, cid: string)
    ensures HeaderValue(HeaderTemplate(token, deviceId, cid), Tn) == Some("Bearer " + ToJsString(token))
  {
    HeaderFirst(HeaderTemplate(token, deviceId, cid), 3, Tn);
  }

  lemma TemplateDevice(token: Json, deviceId: string, cid: string)
    ensures HeaderValue(HeaderTemplate(token, deviceId, cid), DeviceId) == Some(deviceId)
  {
    HeaderFirst(HeaderTemplate(token, deviceId, cid), 9, DeviceId);
  }

  lemma TemplateClient(token: Json, deviceId: string, cid: string)
    ensures HeaderValue(HeaderTemplate(token, deviceId, cid), Cid) == Some(cid)
  {
    HeaderFirst(HeaderTemplate(token, deviceId, cid), 6, Cid);
  }

  /** Body of the latest-list call for a given page number value. */
  function LatestBody(pageNo: Json): Json {
    JObj([ Field("newChannelStyle", JNum(1)),
           Field("isNeedRank", JNum(1)),
           Field("pageNo", pageNo),
           Field("index", JNum(1)),
           Field("channelId", JNum(43)) ])
  }

  /** Body of the search call. */
  function SearchBody(keyword: string): Json {
    JObj([Field("keyword", JStr(keyword))])
  }

  /** A number that may be NaN, as `JSON.stringify` writes it: NaN becomes null. */
  function NumberOrNull(n: Option<int>): Json {
    match n
    case Some(k) => JNum(k)
    case None => JNull
  }

  /** The `index` the stream body carries: `parseInt(episode)`. */
  function EpisodeIndex(episode: string): Json {
    NumberOrNull(ParseInt(episode))
  }

  /** Body of the stream call: the episode goes through `parseInt`, the book id is
      sent as given, and the playback context fields are fixed. */
  function StreamBody(bookId: string, episode: string): Json {
    PlaybackBody(bookId, EpisodeIndex(episode))
  }

  function PlaybackBody(bookId: string, index: Json): Json {
    JObj([ Field("boundaryIndex", JNum(0)),
           Field("comingPlaySectionId", JNum(-1)),
           Field("index", index),
           Field("currencyPlaySource", JStr("discover_new_rec_new")),
           Field("needEndRecommend", JNum(0)),
           Field("currencyPlaySourceName", JStr("")),
           Field("preLoad", JBool(false)),
           Field("rid", JStr("")),
           Field("pullCid", JStr("")),
           Field("loadDirection", JNum(0)),
           Field("startUpKey", JStr("")),
           Field("bookId", JStr(bookId)) ])
  }

  /** The page number and the fixed catalog fields of the latest-list body. */
  lemma LatestBodyFields(pageNo: Json)
    ensures Member(LatestBody(pageNo), "pageNo") == Some(pageNo)
    ensures Member(LatestBody(pageNo), "newChannelStyle") == Some(JNum(1))
    ensures Member(LatestBody(pageNo), "isNeedRank") == Some(JNum(1))
    ensures Member(LatestBody(pageNo), "index") == Some(JNum(1))
    ensures Member(LatestBody(pageNo), "channelId") == Some(JNum(43))
  {
    LatestBodyField(pageNo, 0);
    LatestBodyField(pageNo, 1);
    LatestBodyField(pageNo, 2);
    LatestBodyField(pageNo, 3);
    LatestBodyField(pageNo, 4);
  }

  /** Each field of the latest-list body is found under its own name. */
  lemma LatestBodyField(pageNo: Json, i: nat)
    requires i < 5
    ensures Member(LatestBody(pageNo), LatestBody(pageNo).members[i].name)
            == Some(LatestBody(pageNo).members[i].value)
  {
    LookupUnique(LatestBody(pageNo).members, i, LatestBody(pageNo).members[i].name);
  }

  /** The search body carries the keyword exactly as given and nothing else. */
  lemma SearchBodyFields(keyword: string)
    ensures Member(SearchBody(keyword), "keyword") == Some(JStr(keyword))
    ensures |SearchBody(keyword).members| == 1
  {
  }

  /** The stream body carries the episode through `parseInt` and the book id as
      given. */
  lemma StreamBodyFields(bookId: string, episode: string)
    ensures Member(StreamBody(bookId, episode), "index") == Some(EpisodeIndex(episode))
    ensures Member(StreamBody(bookId, episode), "bookId") == Some(JStr(bookId))
  {
    PlaybackIndex(bookId, EpisodeIndex(episode));
    PlaybackBookId(bookId, EpisodeIndex(episode));
  }

  lemma PlaybackIndex(bookId: string, index: Json)
    ensures Member(PlaybackBody(bookId, index), "index") == Some(index)
  {
    var ms := PlaybackBody(bookId, index).members;
    assert forall j :: 0 <= j < |ms| && j != 2 ==> ms[j].name != "index";
    LookupUnique(ms, 2, "index");
  }

  lemma PlaybackBookId(bookId: string, index: Json)
    ensures Member(PlaybackBody(bookId, index), "bookId") == Some(JStr(bookId))
  {
    var ms := PlaybackBody(bookId, index).members;
    assert ms[11].name == "bookId";
  }

  /** An episode given as decimal text, optionally followed by text that cannot
      continue the number, reaches the body as that integer; the book id reaches it
      verbatim. So episode "3" is sent as the number 3. */
  lemma StreamBodyCoercesEpisode(bookId: string, n: int, rest: string)
    requires |rest| == 0 || (!IsDecimalDigit(rest[0]) && rest[0] != 'x' && rest[0] != 'X')
    ensures Member(StreamBody(bookId, IntToString(n) + rest), "index") == Some(JNum(n))
    ensures Member(StreamBody(bookId, IntToString(n) + rest), "bookId") == Some(JStr(bookId))
  {
    EpisodeOfDecimal(n, rest);
    StreamBodyFields(bookId, IntToString(n) + rest);
  }

  lemma EpisodeOfDecimal(n: int, rest: string)
    requires |rest| == 0 || (!IsDecimalDigit(rest[0]) && rest[0] != 'x' && rest[0] != 'X')
    ensures EpisodeIndex(IntToString(n) + rest) == JNum(n)
  {
    ParseIntOfDecimalText(n, rest);
  }

  /** An episode with no leading digit is NaN, which the body carries as null. */
  lemma StreamBodyNaNEpisode(bookId: string, episode: string)
    requires ParseInt(episode).None?
    ensures Member(StreamBody(bookId, episode), "index") == Some(JNull)
  {
    StreamBodyFields(bookId, episode);
  }
}
