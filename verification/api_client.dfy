/** The catalog client: a retrying POST dispatcher that re-mints the token on every
    attempt, the latest-list and search operations built on it, and the stream call,
    which makes a single attempt with its own client id. */
module ApiClient {
  import opened Wrappers
  import opened JsonValues
  import opened Upstream
  import opened TokenGenerator

  /** Retries after the first attempt, so at most four attempts in all. */
  const RetryCount := 3
  const RetryDelayMs := 1000
  const RequestTimeoutMs := 15000

  /** What one attempt meets: the environment of its token mint and what the
      network did with its POST. */
  datatype Attempt = Attempt(mint: MintEnv, transport: Transport)

  /** The course of one `makeRequest` call: the outcome, the token minted for each
      attempt, the request each attempt sent, the pauses between attempts, and the
      token generator's state at the end. */
  datatype Dispatch = Dispatch(
    result: Result<Json, HttpError>,
    minted: seq<Minted>,
    sent: seq<HttpRequest>,
    delays: seq<nat>,
    state: TokenState)

  /** Why a catalog operation rejects: the POST failed for good, or reading the
      envelope threw. */
  datatype ClientError = Upstream(error: HttpError) | Threw(thrown: Thrown)

  predicate WellFormedAttempts(attempts: seq<Attempt>) {
    forall i :: 0 <= i < |attempts| ==> WellFormedEnv(attempts[i].mint)
  }

  /** `getHeaders()` plus the POST options: the header template with the catalog
      client id, the endpoint under the base URL, and a 15-second timeout. */
  function CatalogRequest(token: TokenData, endpoint: string, data: Json): HttpRequest {
    HttpRequest(BaseUrl + endpoint, data, HeaderTemplate(token.token, token.deviceid, CatalogCid),
                Some(RequestTimeoutMs))
  }

  /** A catalog request goes to the endpoint under the base URL with a 15-second
      timeout, and carries the token as the bearer credential, the device id and the
      catalog client id. */
  lemma CatalogRequestFields(token: TokenData, endpoint: string, data: Json)
    ensures var r := CatalogRequest(token, endpoint, data);
            && r.url == BaseUrl + endpoint && r.body == data && r.timeoutMs == Some(15000)
            && HeaderValue(r.headers, Tn) == Some("Bearer " + ToJsString(token.token))
            && HeaderValue(r.headers, DeviceId) == Some(token.deviceid)
            && HeaderValue(r.headers, Cid) == Some("DRA1000042")
  {
    HeaderTemplateFields(token.token, token.deviceid, CatalogCid);
  }

  /** How a run of `makeRequest` ends against given POST outcomes: its result and
      the number of attempts it made. */
  datatype RetryRun = RetryRun(result: Result<Json, HttpError>, attempts: nat)

  /** The retry recursion of `makeRequest(endpoint, data, retryCount)`: attempt
      number `retryCount` meets `outcomes[retryCount]`; a failure below the retry
      limit waits and recurses, and the last failure is rethrown as it is. */
  function Retry(outcomes: seq<Result<Json, HttpError>>, retryCount: nat): (r: RetryRun)
    requires retryCount <= RetryCount < |outcomes|
    decreases RetryCount - retryCount
    ensures 1 <= r.attempts <= RetryCount + 1 - retryCount
    ensures r.result == outcomes[retryCount + r.attempts - 1]
    ensures forall j :: retryCount <= j < retryCount + r.attempts - 1 ==> outcomes[j].Failure?
    ensures r.result.Failure? ==> r.attempts == RetryCount + 1 - retryCount
  {
    if outcomes[retryCount].Success? then RetryRun(outcomes[retryCount], 1)
    else if retryCount < RetryCount then
      var rest := Retry(outcomes, retryCount + 1);
      RetryRun(rest.result, rest.attempts + 1)
    else RetryRun(outcomes[retryCount], 1)
  }

  /** Whether the token source can serve each of the attempts, whatever state it
      is in. */
  ghost predicate CanMint(mint: Mint, attempts: seq<Attempt>) {
    forall st: TokenState, i :: 0 <= i < |attempts| ==> mint.requires(st, attempts[i].mint)
  }

  /** The token generator serves every well-formed attempt. */
  lemma GeneratorCanMint(p: Primitives, attempts: seq<Attempt>)
    requires WellFormedAttempts(attempts)
    ensures CanMint(Generator(p), attempts)
  {
  }

  /** The tokens minted for a run of attempts, one per attempt, each starting from
      the state the previous one left. */
  function MintChain(mint: Mint, s: TokenState, envs: seq<MintEnv>): (ms: seq<Minted>)
    requires forall st: TokenState, i :: 0 <= i < |envs| ==> mint.requires(st, envs[i])
    decreases |envs|
    ensures |ms| == |envs|
  {
    if |envs| == 0 then []
    else
      var m := mint(s, envs[0]);
      [m] + MintChain(mint, m.state, envs[1..])
  }

  /** The state after a chain of mints. */
  function ChainState(s: TokenState, ms: seq<Minted>): TokenState {
    if |ms| == 0 then s else ms[|ms| - 1].state
  }

  /** The POST outcome each attempt would meet. */
  function Outcomes(attempts: seq<Attempt>): (os: seq<Result<Json, HttpError>>)
    ensures |os| == |attempts|
    ensures forall i :: 0 <= i < |attempts| ==> os[i] == Post(attempts[i].transport)
  {
    seq(|attempts|, i requires 0 <= i < |attempts| => Post(attempts[i].transport))
  }

  function MintEnvs(attempts: seq<Attempt>): (es: seq<MintEnv>)
    ensures |es| == |attempts|
    ensures forall i :: 0 <= i < |attempts| ==> es[i] == attempts[i].mint
  {
    seq(|attempts|, i requires 0 <= i < |attempts| => attempts[i].mint)
  }

  /** `makeRequest(endpoint, data)` against a token source: the retry run over the
      attempts' POST outcomes, with a token minted afresh for each attempt made, a
      request sent per attempt, and a one-second pause before every retry. */
  function MakeRequest(mint: Mint, s: TokenState, endpoint: string, data: Json,
                       attempts: seq<Attempt>): (d: Dispatch)
    requires |attempts| == RetryCount + 1 && CanMint(mint, attempts)
    ensures 1 <= |d.sent| <= 4
    ensures |d.minted| == |d.sent| && |d.delays| == |d.sent| - 1
    ensures forall i :: 0 <= i < |d.delays| ==> d.delays[i] == RetryDelayMs
    ensures forall i :: 0 <= i < |d.sent| ==> d.sent[i] == CatalogRequest(d.minted[i].data, endpoint, data)
    ensures d.result == Post(attempts[|d.sent| - 1].transport)
    ensures forall j :: 0 <= j < |d.sent| - 1 ==> Post(attempts[j].transport).Failure?
    ensures d.result.Failure? ==> |d.sent| == 4
    ensures d.state == d.minted[|d.minted| - 1].state
  {
    var run := Retry(Outcomes(attempts), 0);
    var minted := MintChain(mint, s, MintEnvs(attempts)[..run.attempts]);
    Dispatch(run.result, minted, CatalogRequests(minted, endpoint, data),
             Pauses(run.attempts - 1), ChainState(s, minted))
  }

  /** One catalog request per minted token, in order. */
  function CatalogRequests(minted: seq<Minted>, endpoint: string, data: Json): (rs: seq<HttpRequest>)
    ensures |rs| == |minted|
    ensures forall i :: 0 <= i < |minted| ==> rs[i] == CatalogRequest(minted[i].data, endpoint, data)
  {
    seq(|minted|, i requires 0 <= i < |minted| => CatalogRequest(minted[i].data, endpoint, data))
  }

  /** `n` pauses of one second each. */
  function Pauses(n: nat): (ds: seq<nat>)
    ensures |ds| == n
    ensures forall i :: 0 <= i < n ==> ds[i] == RetryDelayMs
  {
    seq(n, _ => RetryDelayMs)
  }

  /** The retry contract: when the first `k` attempts fail and attempt `k` succeeds,
      `makeRequest` resolves with that attempt's body after exactly `k` pauses of one
      second; when all four fail it rejects with the fourth attempt's error. */
  lemma RetryOutcome(mint: Mint, s: TokenState, endpoint: string, data: Json,
                     attempts: seq<Attempt>, k: nat)
    requires |attempts| == RetryCount + 1 && CanMint(mint, attempts)
    requires k <= RetryCount
    requires forall j :: 0 <= j < k ==> Post(attempts[j].transport).Failure?
    ensures Post(attempts[k].transport).Success? ==>
              && MakeRequest(mint, s, endpoint, data, attempts).result == Post(attempts[k].transport)
              && |MakeRequest(mint, s, endpoint, data, attempts).sent| == k + 1
              && MakeRequest(mint, s, endpoint, data, attempts).delays == seq(k, _ => RetryDelayMs)
    ensures k == RetryCount && Post(attempts[k].transport).Failure? ==>
              && MakeRequest(mint, s, endpoint, data, attempts).result == Post(attempts[RetryCount].transport)
              && |MakeRequest(mint, s, endpoint, data, attempts).sent| == RetryCount + 1
  {
    var d := MakeRequest(mint, s, endpoint, data, attempts);
    var n := |d.sent| - 1;
    assert d.result == Post(attempts[n].transport);
  }

  /** Any attempt succeeding is exactly what makes `makeRequest` resolve. */
  lemma ResolvesIffSomeAttemptSucceeds(mint: Mint, s: TokenState, endpoint: string, data: Json,
                                       attempts: seq<Attempt>)
    requires |attempts| == RetryCount + 1 && CanMint(mint, attempts)
    ensures MakeRequest(mint, s, endpoint, data, attempts).result.Success?
            <==> exists k :: 0 <= k < |attempts| && Post(attempts[k].transport).Success?
  {
    var d := MakeRequest(mint, s, endpoint, data, attempts);
    if d.result.Success? {
      assert Post(attempts[|d.sent| - 1].transport).Success?;
    }
  }

  /** Mint `i` of a chain starts from the state mint `i - 1` left. */
  lemma {:induction false} MintChainSteps(mint: Mint, s: TokenState, envs: seq<MintEnv>, i: nat)
    requires forall st: TokenState, j :: 0 <= j < |envs| ==> mint.requires(st, envs[j])
    requires i < |envs|
    decreases i
    ensures MintChain(mint, s, envs)[i]
         == mint(if i == 0 then s else MintChain(mint, s, envs)[i - 1].state, envs[i])
  {
    if i > 0 {
      var m := mint(s, envs[0]);
      assert MintChain(mint, s, envs) == [m] + MintChain(mint, m.state, envs[1..]);
      MintChainSteps(mint, m.state, envs[1..], i - 1);
    }
  }

  /** A token source that hands out, and keeps, the device id of the state it
      starts from whenever it meets one of `envs`, as the token generator does. */
  ghost predicate KeepsDevice(mint: Mint, envs: seq<MintEnv>) {
    forall st: TokenState, e :: e in envs && mint.requires(st, e) ==>
      mint(st, e).data.deviceid == st.deviceId && mint(st, e).state.deviceId == st.deviceId
  }

  lemma GeneratorKeepsDevice(p: Primitives, envs: seq<MintEnv>)
    requires forall j :: 0 <= j < |envs| ==> WellFormedEnv(envs[j])
    ensures KeepsDevice(Generator(p), envs)
  {
    var mint := Generator(p);
    forall st: TokenState, e | e in envs && mint.requires(st, e)
      ensures mint(st, e).data.deviceid == st.deviceId && mint(st, e).state.deviceId == st.deviceId
    {
      assert mint(st, e) == GenerateToken(p, st, e);
    }
  }

  /** Every token of a chain carries the device id the chain started with. */
  lemma {:induction false} ChainKeepsDevice(mint: Mint, s: TokenState, envs: seq<MintEnv>, i: nat)
    requires forall st: TokenState, j :: 0 <= j < |envs| ==> mint.requires(st, envs[j])
    requires KeepsDevice(mint, envs)
    requires i < |envs|
    decreases i
    ensures MintChain(mint, s, envs)[i].data.deviceid == s.deviceId
    ensures MintChain(mint, s, envs)[i].state.deviceId == s.deviceId
  {
    var m := mint(s, envs[0]);
    assert MintChain(mint, s, envs) == [m] + MintChain(mint, m.state, envs[1..]);
    if i > 0 {
      ChainKeepsDevice(mint, m.state, envs[1..], i - 1);
    }
  }

  /** The tokens of a dispatch are the chain minted for the attempts it made. */
  lemma MintedIsChain(mint: Mint, s: TokenState, endpoint: string, data: Json, attempts: seq<Attempt>)
    requires |attempts| == RetryCount + 1 && CanMint(mint, attempts)
    ensures var d := MakeRequest(mint, s, endpoint, data, attempts);
            d.minted == MintChain(mint, s, MintEnvs(attempts)[..|d.sent|])
  {
  }

  /** Every attempt asks the token source afresh, starting from the state the
      previous attempt left. */
  lemma AttemptsMintInTurn(mint: Mint, s: TokenState, endpoint: string, data: Json,
                           attempts: seq<Attempt>, i: nat)
    requires |attempts| == RetryCount + 1 && CanMint(mint, attempts)
    requires i < |MakeRequest(mint, s, endpoint, data, attempts).sent|
    ensures var d := MakeRequest(mint, s, endpoint, data, attempts);
            d.minted[i] == mint(if i == 0 then s else d.minted[i - 1].state, attempts[i].mint)
  {
    var d := MakeRequest(mint, s, endpoint, data, attempts);
    MintedIsChain(mint, s, endpoint, data, attempts);
    MintChainSteps(mint, s, MintEnvs(attempts)[..|d.sent|], i);
  }

  /** Every attempt asks the token source again and carries the token it got as
      the bearer credential, with the source's device id and the catalog client
      id, and goes to the endpoint. The token may be the cached one served again. */
  lemma AttemptsCarryMintedTokens(mint: Mint, s: TokenState, endpoint: string, data: Json,
                                 attempts: seq<Attempt>, i: nat)
    requires |attempts| == RetryCount + 1 && CanMint(mint, attempts)
    requires KeepsDevice(mint, MintEnvs(attempts))
    requires i < |MakeRequest(mint, s, endpoint, data, attempts).sent|
    ensures var d := MakeRequest(mint, s, endpoint, data, attempts);
            && HeaderValue(d.sent[i].headers, Tn) == Some("Bearer " + ToJsString(d.minted[i].data.token))
            && HeaderValue(d.sent[i].headers, DeviceId) == Some(s.deviceId)
            && HeaderValue(d.sent[i].headers, Cid) == Some(CatalogCid)
            && d.sent[i].url == BaseUrl + endpoint
  {
    var d := MakeRequest(mint, s, endpoint, data, attempts);
    var envs := MintEnvs(attempts)[..|d.sent|];
    MintedIsChain(mint, s, endpoint, data, attempts);
    ChainKeepsDevice(mint, s, envs, i);
    CatalogRequestFields(d.minted[i].data, endpoint, data);
  }

  /** Against the token generator, attempt `i` holds exactly what `token()`
      returns from the state attempt `i - 1` left. */
  lemma GeneratorAttempt(p: Primitives, s: TokenState, endpoint: string, data: Json,
                         attempts: seq<Attempt>, i: nat)
    requires |attempts| == RetryCount + 1 && WellFormedAttempts(attempts)
    requires i < |MakeRequest(Generator(p), s, endpoint, data, attempts).sent|
    ensures var d := MakeRequest(Generator(p), s, endpoint, data, attempts);
            d.minted[i] == GenerateToken(p, if i == 0 then s else d.minted[i - 1].state, attempts[i].mint)
  {
    AttemptsMintInTurn(Generator(p), s, endpoint, data, attempts, i);
  }

  /** Against the token generator, every attempt carries the token `token()`
      returned for it, the generator's device id and the catalog client id. */
  lemma GeneratorAttemptsCarryTokens(p: Primitives, s: TokenState, endpoint: string, data: Json,
                                     attempts: seq<Attempt>, i: nat)
    requires |attempts| == RetryCount + 1 && WellFormedAttempts(attempts)
    requires i < |MakeRequest(Generator(p), s, endpoint, data, attempts).sent|
    ensures var d := MakeRequest(Generator(p), s, endpoint, data, attempts);
            && HeaderValue(d.sent[i].headers, Tn) == Some("Bearer " + ToJsString(d.minted[i].data.token))
            && HeaderValue(d.sent[i].headers, DeviceId) == Some(s.deviceId)
            && HeaderValue(d.sent[i].headers, Cid) == Some(CatalogCid)
  {
    GeneratorCanMint(p, attempts);
    var envs := MintEnvs(attempts);
    GeneratorKeepsDevice(p, envs);
    AttemptsCarryMintedTokens(Generator(p), s, endpoint, data, attempts, i);
  }

  /** `response.data?.<path> || []` on a resolved body: reading `.data` of a null
      body throws; past that point a missing or falsy value yields the empty list. */
  function Envelope(body: Json, path: seq<string>): (r: Result<Json, ClientError>)
    ensures r.Failure? <==> body.JNull?
    ensures r.Failure? ==> r.error == Threw(TypeError)
    ensures r.Success? ==> Truthy(Some(r.value))
  {
    if body.JNull? then Failure(Threw(TypeError))
    else Success(OrEmpty(OptionalChain(Member(body, "data"), path)))
  }

  /** A present, truthy value at the end of the path is returned as it is; anything
      else gives the empty list. */
  lemma EnvelopeDefaults(body: Json, path: seq<string>)
    requires !body.JNull?
    ensures var v := OptionalChain(Member(body, "data"), path);
            && (Truthy(v) ==> Envelope(body, path) == Success(v.value))
            && (!Truthy(v) ==> Envelope(body, path) == Success(JArr([])))
  {
  }

  /** The result of a catalog operation, and the dispatch behind it. */
  datatype CatalogCall = CatalogCall(items: Result<Json, ClientError>, dispatch: Dispatch)

  function Catalog(d: Dispatch, path: seq<string>): (c: CatalogCall)
    ensures c.dispatch == d
    ensures d.result.Failure? ==> c.items == Failure(Upstream(d.result.error))
    ensures d.result.Success? ==> c.items == Envelope(d.result.value, path)
  {
    match d.result
    case Failure(e) => CatalogCall(Failure(Upstream(e)), d)
    case Success(body) => CatalogCall(Envelope(body, path), d)
  }

  const LatestPath := ["newTheaterList", "records"]
  const SearchPath := ["suggestList"]
  const StreamPath := ["chapterList"]

  /** `getLatestDramas(pageNo)`, where `None` is an omitted argument and so page 1. */
  function GetLatestDramas(mint: Mint, s: TokenState, pageNo: Option<Json>,
                           attempts: seq<Attempt>): (c: CatalogCall)
    requires |attempts| == RetryCount + 1 && CanMint(mint, attempts)
    ensures forall i :: 0 <= i < |c.dispatch.sent| ==>
              c.dispatch.sent[i].url == BaseUrl + "/he001/theater"
              && c.dispatch.sent[i].body == LatestBody(if pageNo.None? then JNum(1) else pageNo.value)
    ensures c.dispatch == MakeRequest(mint, s, LatestEndpoint, LatestBody(pageNo.GetOr(JNum(1))), attempts)
    ensures c.items.Success? ==> Truthy(Some(c.items.value))
    ensures c.items.Failure? <==>
              c.dispatch.result.Failure? || c.dispatch.result.value.JNull?
    ensures c.dispatch.result.Success? ==> c.items == Envelope(c.dispatch.result.value, LatestPath)
  {
    var d := MakeRequest(mint, s, LatestEndpoint, LatestBody(pageNo.GetOr(JNum(1))), attempts);
    Catalog(d, LatestPath)
  }

  /** `searchDramas(keyword)`. */
  function SearchDramas(mint: Mint, s: TokenState, keyword: string,
                        attempts: seq<Attempt>): (c: CatalogCall)
    requires |attempts| == RetryCount + 1 && CanMint(mint, attempts)
    ensures forall i :: 0 <= i < |c.dispatch.sent| ==>
              c.dispatch.sent[i].url == BaseUrl + "/search/suggest"
              && c.dispatch.sent[i].body == SearchBody(keyword)
    ensures c.dispatch == MakeRequest(mint, s, SearchEndpoint, SearchBody(keyword), attempts)
    ensures c.items.Success? ==> Truthy(Some(c.items.value))
    ensures c.items.Failure? <==>
              c.dispatch.result.Failure? || c.dispatch.result.value.JNull?
    ensures c.dispatch.result.Success? ==> c.items == Envelope(c.dispatch.result.value, SearchPath)
  {
    var d := MakeRequest(mint, s, SearchEndpoint, SearchBody(keyword), attempts);
    Catalog(d, SearchPath)
  }

  /** The latest list is empty whenever the body lacks `data`, `newTheaterList` or
      `records`, or any of them is falsy; a truthy `records` is returned as is. */
  lemma LatestDefaultsToEmpty(mint: Mint, s: TokenState, pageNo: Option<Json>, attempts: seq<Attempt>)
    requires |attempts| == RetryCount + 1 && CanMint(mint, attempts)
    requires MakeRequest(mint, s, LatestEndpoint, LatestBody(pageNo.GetOr(JNum(1))), attempts).result.Success?
    ensures var body := MakeRequest(mint, s, LatestEndpoint, LatestBody(pageNo.GetOr(JNum(1))), attempts).result.value;
            var records := OptionalChain(Member(body, "data"), LatestPath);
            && (!body.JNull? && !Truthy(records) ==> GetLatestDramas(mint, s, pageNo, attempts).items == Success(JArr([])))
            && (!body.JNull? && Truthy(records) ==> GetLatestDramas(mint, s, pageNo, attempts).items == Success(records.value))
  {
  }

  /** The search result is empty whenever `suggestList` is absent or falsy; a
      truthy `suggestList` is returned as is. */
  lemma SearchDefaultsToEmpty(mint: Mint, s: TokenState, keyword: string, attempts: seq<Attempt>)
    requires |attempts| == RetryCount + 1 && CanMint(mint, attempts)
    requires MakeRequest(mint, s, SearchEndpoint, SearchBody(keyword), attempts).result.Success?
    ensures var body := MakeRequest(mint, s, SearchEndpoint, SearchBody(keyword), attempts).result.value;
            var list := OptionalChain(Member(body, "data"), SearchPath);
            && (!body.JNull? && !Truthy(list) ==> SearchDramas(mint, s, keyword, attempts).items == Success(JArr([])))
            && (!body.JNull? && Truthy(list) ==> SearchDramas(mint, s, keyword, attempts).items == Success(list.value))
  {
  }

  /** The course of one `getStreamLink` call: its single token, its single request,
      and the chapter list or the error. */
  datatype StreamCall = StreamCall(items: Result<Json, ClientError>, minted: Minted, sent: HttpRequest)

  /** The stream call's request: the header template with the stream client id,
      the stream body, the 15-second timeout. */
  function StreamRequest(token: TokenData, bookId: string, episode: string): HttpRequest {
    HttpRequest(BaseUrl + StreamEndpoint, StreamBody(bookId, episode),
                HeaderTemplate(token.token, token.deviceid, StreamCid), Some(RequestTimeoutMs))
  }

  /** The stream request uses the stream client id, sends the episode through
      `parseInt` and the book id verbatim, and times out after 15 seconds. */
  lemma StreamRequestFields(token: TokenData, bookId: string, episode: string)
    ensures var r := StreamRequest(token, bookId, episode);
            && r.url == BaseUrl + "/chapterv2/batch/load" && r.timeoutMs == Some(15000)
            && HeaderValue(r.headers, Cid) == Some("DRA1000000")
            && HeaderValue(r.headers, Tn) == Some("Bearer " + ToJsString(token.token))
            && HeaderValue(r.headers, DeviceId) == Some(token.deviceid)
            && Member(r.body, "bookId") == Some(JStr(bookId))
            && Member(r.body, "index") == Some(EpisodeIndex(episode))
  {
    HeaderTemplateFields(token.token, token.deviceid, StreamCid);
    StreamBodyFields(bookId, episode);
  }

  /** `getStreamLink(bookId, episode)`: one token, one POST, no retry; a failed
      POST rejects at once. */
  function GetStreamLink(mint: Mint, s: TokenState, bookId: string, episode: string,
                         attempt: Attempt): (c: StreamCall)
    requires mint.requires(s, attempt.mint)
    ensures c.minted == mint(s, attempt.mint)
    ensures c.sent == StreamRequest(c.minted.data, bookId, episode)
    ensures Post(attempt.transport).Failure? ==> c.items == Failure(Upstream(Post(attempt.transport).error))
    ensures Post(attempt.transport).Success? ==> c.items == Envelope(Post(attempt.transport).value, StreamPath)
  {
    var m := mint(s, attempt.mint);
    var request := StreamRequest(m.data, bookId, episode);
    match Post(attempt.transport)
    case Failure(e) => StreamCall(Failure(Upstream(e)), m, request)
    case Success(body) => StreamCall(Envelope(body, StreamPath), m, request)
  }

  /** A missing or falsy `chapterList` gives the empty list. */
  lemma StreamDefaultsToEmpty(mint: Mint, s: TokenState, bookId: string, episode: string, attempt: Attempt)
    requires mint.requires(s, attempt.mint)
    requires Post(attempt.transport).Success? && !Post(attempt.transport).value.JNull?
    requires !Truthy(OptionalChain(Member(Post(attempt.transport).value, "data"), StreamPath))
    ensures GetStreamLink(mint, s, bookId, episode, attempt).items == Success(JArr([]))
  {
  }
}
