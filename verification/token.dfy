/** The token generator: one cache slot (token and expiry in milliseconds) and a
    device id fixed at construction, and a three-tier ladder that serves the cached
    token, or a LIVE token from the auth endpoint (cached for an hour), or a
    FALLBACK token derived from the device id and the time (cached for half an hour),
    or, when building that fails, an EMERGENCY token that is never cached.

    The clock, `Math.random`, `crypto.randomBytes`, the auth call's outcome and any
    exception thrown inside the ladder are inputs; MD5, SHA-256 and base64url are
    uninterpreted functions. */
module TokenGenerator {
  import opened Wrappers
  import opened Text
  import opened JsonValues
  import opened Upstream
  import opened Signature

  /** One hour. */
  const LiveTtlMs := 3600000
  /** Half an hour. */
  const FallbackTtlMs := 1800000
  /** Lifetime the fallback token's claims announce, in seconds. */
  const FallbackLifetimeSeconds := 3600
  const AuthUrl := "https://sapi.dramaboxdb.com/drama-box/auth/token"
  const AuthTimeoutMs := 10000
  const NonceLength := 16
  const DeviceIdBytes := 16
  const EmergencyRandomBytes := 32
  /** Characters of the SHA-256 hex kept as the fallback token's third segment. */
  const SignatureChars := 43
  const NonceAlphabet := "ABCDEFGHIJKLMNOPQRSTUVWXYZabcdefghijklmnopqrstuvwxyz0123456789"

  /** Digest and encoding functions the generator calls; the model does not
      interpret them. */
  datatype Primitives = Primitives(
    md5Hex: string -> string,
    sha256Hex: string -> string,
    base64Url: string -> string)

  /** The generator's state. `cachedToken == JNull` and `tokenExpiry == None` are the
      source's `null`s; the cached token is whatever value the auth response held. */
  datatype TokenState = TokenState(cachedToken: Json, tokenExpiry: Option<int>, deviceId: string)

  /** An exception raised inside the ladder's outer `try`: while preparing the auth
      call, or while building the fallback token. */
  datatype Fault = NoFault | FaultBeforeAuth | FaultInFallback

  /** Everything one `generateToken` call reads from its environment. `now` is the
      clock before the auth call, `settled` the clock once it has settled; `draws`
      are `Math.random()` results for the nonce; `randomBytes` is what
      `crypto.randomBytes(32)` returns should the emergency tier be reached. */
  datatype MintEnv = MintEnv(
    now: int,
    settled: int,
    draws: seq<real>,
    auth: Transport,
    fault: Fault,
    randomBytes: seq<byte>)

  /** The record `generateToken` resolves with. */
  datatype TokenData = TokenData(token: Json, deviceid: string)

  /** Which rung of the ladder produced a token. */
  datatype Tier = Cached | Live | Fallback | Emergency

  /** A token, the rung it came from, the generator's next state, and the auth
      request sent on the way (none for a cache hit or an early fault). */
  datatype Minted = Minted(data: TokenData, tier: Tier, state: TokenState, authRequest: Option<HttpRequest>)

  /** The snapshot `getTokenInfo` returns; the expiry is kept in milliseconds. */
  datatype TokenInfo = TokenInfo(hasToken: bool, isExpired: bool, deviceId: string, expiryTime: Option<int>)

  predicate WellFormedEnv(env: MintEnv) {
    && |env.draws| >= NonceLength
    && (forall i :: 0 <= i < |env.draws| ==> 0.0 <= env.draws[i] < 1.0)
    && |env.randomBytes| == EmergencyRandomBytes
  }

  /** What the generator keeps true of its state: a 32-hex-digit device id, and a
      cache slot that is either wholly empty or holds a truthy token with an expiry. */
  predicate Valid(s: TokenState) {
    && |s.deviceId| == 2 * DeviceIdBytes
    && AllHex(s.deviceId)
    && (s.cachedToken == JNull <==> s.tokenExpiry.None?)
    && (s.cachedToken != JNull ==> Truthy(Some(s.cachedToken)))
  }

  // ---------------------------------------------------------------------------
  // Construction and the small generators
  // ---------------------------------------------------------------------------

  /** The hex of 16 random bytes. */
  function GenerateDeviceId(bytes: seq<byte>): (id: string)
    requires |bytes| == DeviceIdBytes
    ensures |id| == 32 && AllHex(id)
    ensures HexToBytes(id) == bytes
  {
    HexRoundTrip(bytes);
    BytesToHex(bytes)
  }

  /** A fresh generator: empty cache, device id from the given random bytes. */
  function NewTokenGenerator(deviceBytes: seq<byte>): (s: TokenState)
    requires |deviceBytes| == DeviceIdBytes
    ensures Valid(s)
    ensures s.cachedToken == JNull && s.tokenExpiry == None
    ensures HexToBytes(s.deviceId) == deviceBytes
  {
    TokenState(JNull, None, GenerateDeviceId(deviceBytes))
  }

  /** `chars.charAt(Math.floor(draw * chars.length))` for a draw in [0, 1). */
  function RandomChar(draw: real): (c: char)
    requires 0.0 <= draw < 1.0
    ensures 0 <= (draw * 62.0).Floor < |NonceAlphabet|
    ensures c == NonceAlphabet[(draw * 62.0).Floor]
  {
    NonceAlphabet[(draw * 62.0).Floor]
  }

  /** One character per draw. */
  function RandomString(draws: seq<real>): (r: string)
    requires forall i :: 0 <= i < |draws| ==> 0.0 <= draws[i] < 1.0
    ensures |r| == |draws|
  {
    seq(|draws|, i requires 0 <= i < |draws| => RandomChar(draws[i]))
  }

  /** `generateRandomString(length)`, the loop that appends one drawn character at a
      time. */
  method GenerateRandomString(length: nat, draws: seq<real>) returns (result: string)
    requires |draws| >= length
    requires forall i :: 0 <= i < |draws| ==> 0.0 <= draws[i] < 1.0
    ensures |result| == length
    ensures forall i :: 0 <= i < length ==> result[i] == NonceAlphabet[(draws[i] * 62.0).Floor]
    ensures result == RandomString(draws[..length])
  {
    result := "";
    var i := 0;
    while i < length
      invariant 0 <= i <= length
      invariant |result| == i
      invariant forall k :: 0 <= k < i ==> result[k] == RandomChar(draws[k])
    {
      result := result + [RandomChar(draws[i])];
      i := i + 1;
    }
  }

  /** `Math.floor(ms / 1000)`: whole seconds, rounding toward minus infinity. */
  function Seconds(ms: int): (s: int)
    ensures s * 1000 <= ms < s * 1000 + 1000
  {
    ms / 1000
  }

  // ---------------------------------------------------------------------------
  // The auth request
  // ---------------------------------------------------------------------------

  /** The signed parameters, in the order the object literal lists them. */
  function AuthParams(deviceId: string, timestamp: int, nonce: string): (ps: seq<Param>)
    ensures DistinctKeys(ps)
  {
    [ ("device_id", deviceId),
      ("timestamp", IntToString(timestamp)),
      ("nonce", nonce),
      ("version", "430"),
      ("platform", "android"),
      ("app_version", "4.3.0") ]
  }

  /** `generateSignature(params)`: MD5 hex of the sign string with the default secret. */
  function GenerateSignature(p: Primitives, params: seq<Param>): string
    requires DistinctKeys(params)
  {
    p.md5Hex(SignString(params, DefaultSecret))
  }

  /** The auth call's sign string, spelled out: the six parameters in name order,
      then the secret. */
  lemma AuthSignString(deviceId: string, timestamp: int, nonce: string)
    ensures SignString(AuthParams(deviceId, timestamp, nonce), DefaultSecret)
         == Join([ "app_version=4.3.0", "device_id=" + deviceId, "nonce=" + nonce,
                   "platform=android", "timestamp=" + IntToString(timestamp), "version=430" ], "&")
            + "dramabox_secret_key"
  {
    var sorted := SortedAuthParams(deviceId, timestamp, nonce);
    AuthParamsSorted(deviceId, timestamp, nonce);
    SignStringOfSorted(sorted, DefaultSecret);
    InsertionOrderIrrelevant(AuthParams(deviceId, timestamp, nonce), sorted, DefaultSecret);
    SortedAuthPairs(deviceId, timestamp, nonce);
  }

  lemma SortedAuthPairs(deviceId: string, timestamp: int, nonce: string)
    ensures Pairs(SortedAuthParams(deviceId, timestamp, nonce))
         == [ "app_version=4.3.0", "device_id=" + deviceId, "nonce=" + nonce,
              "platform=android", "timestamp=" + IntToString(timestamp), "version=430" ]
  {
    var r := Pairs(SortedAuthParams(deviceId, timestamp, nonce));
    assert r[0] == "app_version" + "=" + "4.3.0" == "app_version=4.3.0";
    assert r[1] == "device_id" + "=" + deviceId == "device_id=" + deviceId;
    assert r[2] == "nonce" + "=" + nonce == "nonce=" + nonce;
    assert r[3] == "platform" + "=" + "android" == "platform=android";
    assert r[4] == "timestamp" + "=" + IntToString(timestamp) == "timestamp=" + IntToString(timestamp);
    assert r[5] == "version" + "=" + "430" == "version=430";
  }

  /** The auth parameters in name order. */
  function SortedAuthParams(deviceId: string, timestamp: int, nonce: string): seq<Param> {
    [ ("app_version", "4.3.0"),
      ("device_id", deviceId),
      ("nonce", nonce),
      ("platform", "android"),
      ("timestamp", IntToString(timestamp)),
      ("version", "430") ]
  }

  lemma AuthParamsSorted(deviceId: string, timestamp: int, nonce: string)
    ensures SortedByKey(SortedAuthParams(deviceId, timestamp, nonce))
    ensures multiset(AuthParams(deviceId, timestamp, nonce))
         == multiset(SortedAuthParams(deviceId, timestamp, nonce))
  {
    var q := SortedAuthParams(deviceId, timestamp, nonce);
    assert q[0].0[0] == 'a' && q[1].0[0] == 'd' && q[2].0[0] == 'n';
    assert q[3].0[0] == 'p' && q[4].0[0] == 't' && q[5].0[0] == 'v';
    AscendingFirstChars(q);
    AuthParamsPermuted(deviceId, timestamp, nonce);
  }

  lemma AuthParamsPermuted(deviceId: string, timestamp: int, nonce: string)
    ensures multiset(AuthParams(deviceId, timestamp, nonce))
         == multiset(SortedAuthParams(deviceId, timestamp, nonce))
  {
    var ps := AuthParams(deviceId, timestamp, nonce);
    assert ps == [ps[0], ps[1], ps[2], ps[3], ps[4], ps[5]];
    assert SortedAuthParams(deviceId, timestamp, nonce) == [ps[5], ps[0], ps[2], ps[4], ps[1], ps[3]];
  }

  /** Names whose first characters ascend from each to the next are sorted. */
  lemma AscendingFirstChars(q: seq<Param>)
    requires forall i :: 0 <= i < |q| ==> |q[i].0| > 0
    requires forall i :: 0 <= i < |q| - 1 ==> q[i].0[0] < q[i + 1].0[0]
    ensures SortedByKey(q)
  {
    forall i, j | 0 <= i < j < |q|
      ensures Below(q[i].0, q[j].0)
    {
      FirstCharsIncrease(q, i, j);
    }
  }

  lemma {:induction false} FirstCharsIncrease(q: seq<Param>, i: nat, j: nat)
    requires forall k :: 0 <= k < |q| ==> |q[k].0| > 0
    requires forall k :: 0 <= k < |q| - 1 ==> q[k].0[0] < q[k + 1].0[0]
    requires i < j < |q|
    ensures q[i].0[0] < q[j].0[0]
    decreases j - i
  {
    if j > i + 1 {
      FirstCharsIncrease(q, i + 1, j);
    }
  }

  /** The 13 headers of the auth call. */
  function AuthHeaders(deviceId: string): Headers {
    [ (UserAgent, "okhttp/4.10.0"),
      (AcceptEncoding, "gzip"),
      (ContentType, "application/json"),
      (Version, "430"),
      (Vn, "4.3.0"),
      (Cid, CatalogCid),
      (PackageName, "com.storymatrix.drama"),
      (Apn, "1"),
      (DeviceId, deviceId),
      (Language, "in"),
      (CurrentLanguage, "in"),
      (P, "43"),
      (TimeZone, "+0800") ]
  }

  /** The auth call: the body carries the device id, the timestamp, the nonce and the
      signature over the sorted parameters; the call times out after 10 seconds. */
  function AuthRequest(p: Primitives, deviceId: string, timestamp: int, nonce: string): HttpRequest {
    var signature := GenerateSignature(p, AuthParams(deviceId, timestamp, nonce));
    HttpRequest(AuthUrl, AuthBody(deviceId, timestamp, nonce, signature), AuthHeaders(deviceId), Some(AuthTimeoutMs))
  }

  /** The auth call's body. */
  function AuthBody(deviceId: string, timestamp: int, nonce: string, signature: string): Json {
    JObj([ Field("deviceId", JStr(deviceId)),
           Field("platform", JStr("android")),
           Field("version", JStr("4.3.0")),
           Field("timestamp", JNum(timestamp)),
           Field("nonce", JStr(nonce)),
           Field("signature", JStr(signature)) ])
  }

  /** The auth call goes to the auth endpoint and gives up after 10 seconds. */
  lemma AuthRequestTarget(p: Primitives, deviceId: string, timestamp: int, nonce: string)
    ensures AuthRequest(p, deviceId, timestamp, nonce).url == "https://sapi.dramaboxdb.com/drama-box/auth/token"
    ensures AuthRequest(p, deviceId, timestamp, nonce).timeoutMs == Some(10000)
  {
  }

  /** The auth call's headers carry the catalog client id and the device id. */
  lemma AuthRequestHeaders(p: Primitives, deviceId: string, timestamp: int, nonce: string)
    ensures HeaderValue(AuthRequest(p, deviceId, timestamp, nonce).headers, Cid) == Some("DRA1000042")
    ensures HeaderValue(AuthRequest(p, deviceId, timestamp, nonce).headers, DeviceId) == Some(deviceId)
  {
    HeaderFirst(AuthHeaders(deviceId), 5, Cid);
    HeaderFirst(AuthHeaders(deviceId), 8, DeviceId);
  }

  /** The auth call's body carries the MD5 hex of the sign string over the six
      parameters, alongside the device id, the timestamp and the nonce it signs. */
  lemma AuthRequestBody(p: Primitives, deviceId: string, timestamp: int, nonce: string)
    ensures var body := AuthRequest(p, deviceId, timestamp, nonce).body;
            && Member(body, "signature")
               == Some(JStr(p.md5Hex(SignString(AuthParams(deviceId, timestamp, nonce), DefaultSecret))))
            && Member(body, "nonce") == Some(JStr(nonce))
            && Member(body, "timestamp") == Some(JNum(timestamp))
            && Member(body, "deviceId") == Some(JStr(deviceId))
  {
    var signature := GenerateSignature(p, AuthParams(deviceId, timestamp, nonce));
    AuthBodySignature(deviceId, timestamp, nonce, signature);
    AuthBodyNonce(deviceId, timestamp, nonce, signature);
    AuthBodyTimestamp(deviceId, timestamp, nonce, signature);
    AuthBodyDevice(deviceId, timestamp, nonce, signature);
  }

  lemma AuthBodySignature(deviceId: string, timestamp: int, nonce: string, signature: string)
    ensures Member(AuthBody(deviceId, timestamp, nonce, signature), "signature") == Some(JStr(signature))
  {
  }

  lemma AuthBodyNonce(deviceId: string, timestamp: int, nonce: string, signature: string)
    ensures Member(AuthBody(deviceId, timestamp, nonce, signature), "nonce") == Some(JStr(nonce))
  {
    var ms := AuthBody(deviceId, timestamp, nonce, signature).members;
    LookupSkips(ms[..5], ms[5..], "nonce");
    assert ms[..5] + ms[5..] == ms;
  }

  lemma AuthBodyTimestamp(deviceId: string, timestamp: int, nonce: string, signature: string)
    ensures Member(AuthBody(deviceId, timestamp, nonce, signature), "timestamp") == Some(JNum(timestamp))
  {
    var ms := AuthBody(deviceId, timestamp, nonce, signature).members;
    LookupSkips(ms[..4], ms[4..], "timestamp");
    assert ms[..4] + ms[4..] == ms;
  }

  lemma AuthBodyDevice(deviceId: string, timestamp: int, nonce: string, signature: string)
    ensures Member(AuthBody(deviceId, timestamp, nonce, signature), "deviceId") == Some(JStr(deviceId))
  {
    var ms := AuthBody(deviceId, timestamp, nonce, signature).members;
    LookupSkips(ms[..1], ms[1..], "deviceId");
    assert ms[..1] + ms[1..] == ms;
  }

  /** `response.data && response.data.data && response.data.data.token`, for a call
      that resolved; `None` when the call rejected or the chain is falsy. */
  function LiveToken(r: Result<Json, HttpError>): (t: Option<Json>)
    ensures t.Some? ==> Truthy(t)
    ensures t.Some? <==> r.Success? && Truthy(Some(r.value))
                         && Truthy(Member(r.value, "data"))
                         && Truthy(Member(Member(r.value, "data").value, "token"))
    ensures t.Some? ==> t == Member(Member(r.value, "data").value, "token")
  {
    match r
    case Failure(_) => None
    case Success(body) =>
      if !Truthy(Some(body)) then None
      else
        var data := Member(body, "data");
        if !Truthy(data) then None
        else
          var token := Member(data.value, "token");
          if Truthy(token) then token else None
  }

  // ---------------------------------------------------------------------------
  // Fallback and emergency tokens
  // ---------------------------------------------------------------------------

  /** The fallback token's header object. */
  const FallbackHeader := JObj([Field("alg", JStr("HS256")), Field("typ", JStr("JWT"))])

  /** The fallback token's claims: device id, issued-at, expiry an hour later, issuer. */
  function FallbackClaims(deviceId: string, timestamp: int): Json {
    JObj([ Field("device_id", JStr(deviceId)),
           Field("iat", JNum(timestamp)),
           Field("exp", JNum(timestamp + FallbackLifetimeSeconds)),
           Field("iss", JStr("dramabox")) ])
  }

  /** The text whose SHA-256 signs the fallback token. */
  function FallbackDigestInput(deviceId: string, timestamp: int): string {
    deviceId + ":" + IntToString(timestamp) + ":dramabox"
  }

  /** `generateFallbackToken(timestamp)`: base64url header, base64url claims and the
      first 43 characters of the SHA-256 hex, joined by dots. */
  function FallbackToken(p: Primitives, deviceId: string, timestamp: int): string {
    var hash := p.sha256Hex(FallbackDigestInput(deviceId, timestamp));
    var header := p.base64Url(Serialize(FallbackHeader));
    var payload := p.base64Url(Serialize(FallbackClaims(deviceId, timestamp)));
    Join([header, payload, Prefix(hash, SignatureChars)], ".")
  }

  /** The fallback token is never empty: it holds at least its two dots. */
  lemma FallbackTokenNonEmpty(p: Primitives, deviceId: string, timestamp: int)
    ensures |FallbackToken(p, deviceId, timestamp)| >= 2
  {
    var hash := p.sha256Hex(FallbackDigestInput(deviceId, timestamp));
    var header := p.base64Url(Serialize(FallbackHeader));
    var payload := p.base64Url(Serialize(FallbackClaims(deviceId, timestamp)));
    JoinThree(header, payload, Prefix(hash, SignatureChars), ".");
  }

  lemma JoinThree(a: string, b: string, c: string, sep: string)
    ensures Join([a, b, c], sep) == a + sep + (b + sep + c)
  {
    assert [a, b, c][1..] == [b, c];
    assert [b, c][1..] == [c];
    assert Join([c], sep) == c;
    assert Join([b, c], sep) == b + sep + c;
  }

  predicate IsBase64UrlChar(c: char) {
    'A' <= c <= 'Z' || 'a' <= c <= 'z' || '0' <= c <= '9' || c == '-' || c == '_'
  }

  /** What the primitives are known to produce: SHA-256 hex is 64 hex digits and
      base64url text uses only the URL-safe alphabet without padding (RFC 4648,
      section 5). */
  ghost predicate WellBehaved(p: Primitives) {
    && (forall x :: |p.sha256Hex(x)| == 64 && AllHex(p.sha256Hex(x)))
    && (forall x :: forall i :: 0 <= i < |p.base64Url(x)| ==> IsBase64UrlChar(p.base64Url(x)[i]))
  }

  /** The fallback token has exactly three dot-separated segments: the encoded
      header, the encoded claims, and 43 characters of the digest. */
  lemma FallbackTokenSegments(p: Primitives, deviceId: string, timestamp: int)
    requires WellBehaved(p)
    ensures Split(FallbackToken(p, deviceId, timestamp), '.')
         == [ p.base64Url(Serialize(FallbackHeader)),
              p.base64Url(Serialize(FallbackClaims(deviceId, timestamp))),
              p.sha256Hex(FallbackDigestInput(deviceId, timestamp))[..SignatureChars] ]
    ensures |Split(FallbackToken(p, deviceId, timestamp), '.')[2]| == SignatureChars
  {
    var hash := p.sha256Hex(FallbackDigestInput(deviceId, timestamp));
    var header := p.base64Url(Serialize(FallbackHeader));
    var payload := p.base64Url(Serialize(FallbackClaims(deviceId, timestamp)));
    var parts := [header, payload, Prefix(hash, SignatureChars)];
    assert '.' !in header && '.' !in payload && '.' !in parts[2];
    SplitJoin(parts, '.');
  }

  /** The claims state an expiry exactly one hour of seconds after issue. */
  lemma FallbackClaimsExpiry(deviceId: string, timestamp: int)
    ensures Member(FallbackClaims(deviceId, timestamp), "iat") == Some(JNum(timestamp))
    ensures Member(FallbackClaims(deviceId, timestamp), "exp") == Some(JNum(timestamp + 3600))
    ensures Member(FallbackClaims(deviceId, timestamp), "device_id") == Some(JStr(deviceId))
  {
    var ms := FallbackClaims(deviceId, timestamp).members;
    LookupUnique(ms, 0, "device_id");
    LookupUnique(ms, 1, "iat");
  }

  /** `generateEmergencyToken()`: `emergency_`, the seconds, `_`, and the hex of 32
      random bytes. */
  function EmergencyToken(nowMs: int, bytes: seq<byte>): (t: string)
    requires |bytes| == EmergencyRandomBytes
    ensures |t| > 75 && t[..10] == "emergency_"
    ensures t[|t| - 65] == '_' && AllHex(t[|t| - 64..])
  {
    "emergency_" + IntToString(Seconds(nowMs)) + "_" + BytesToHex(bytes)
  }

  /** Reads an emergency token back into its seconds and random bytes. */
  function ParseEmergency(t: string): Option<(int, seq<byte>)> {
    if |t| < 76 || t[..10] != "emergency_" || t[|t| - 65] != '_' || !AllHex(t[|t| - 64..]) then None
    else
      match ParseInt(t[10..|t| - 65])
      case None => None
      case Some(secs) => Some((secs, HexToBytes(t[|t| - 64..])))
  }

  /** An emergency token carries its issue second and its random bytes, and gives
      both back. */
  lemma EmergencyRoundTrip(nowMs: int, bytes: seq<byte>)
    requires |bytes| == EmergencyRandomBytes
    ensures ParseEmergency(EmergencyToken(nowMs, bytes)) == Some((Seconds(nowMs), bytes))
  {
    var t := EmergencyToken(nowMs, bytes);
    var d := IntToString(Seconds(nowMs));
    assert t[10..|t| - 65] == d;
    assert t[|t| - 64..] == BytesToHex(bytes);
    ParseIntOfDecimalText(Seconds(nowMs), "");
    assert d + "" == d;
    HexRoundTrip(bytes);
  }

  // ---------------------------------------------------------------------------
  // The ladder
  // ---------------------------------------------------------------------------

  /** `this.cachedToken && this.tokenExpiry && Date.now() < this.tokenExpiry`. */
  predicate CacheHit(s: TokenState, now: int) {
    && Truthy(Some(s.cachedToken))
    && s.tokenExpiry.Some? && s.tokenExpiry.value != 0
    && now < s.tokenExpiry.value
  }

  function EmergencyResult(s: TokenState, clock: int, bytes: seq<byte>, sent: Option<HttpRequest>): Minted
    requires |bytes| == EmergencyRandomBytes
  {
    Minted(TokenData(JStr(EmergencyToken(clock, bytes)), s.deviceId), Emergency, s, sent)
  }

  /** The 16-character nonce drawn for the auth call. */
  function Nonce(env: MintEnv): (r: string)
    requires WellFormedEnv(env)
    ensures |r| == NonceLength
  {
    RandomString(env.draws[..NonceLength])
  }

  /** The ladder after the auth call has settled: a truthy token from the response
      is cached for an hour; otherwise the fallback token is cached for half an hour,
      unless building it faults, in which case the emergency token is served and
      nothing is cached. */
  function Settle(p: Primitives, s: TokenState, env: MintEnv, sent: HttpRequest): (m: Minted)
    requires |env.randomBytes| == EmergencyRandomBytes
    ensures m.data.deviceid == s.deviceId && m.state.deviceId == s.deviceId
    ensures m.authRequest == Some(sent)
    ensures m.tier == Live <==> LiveToken(Post(env.auth)).Some?
    ensures m.tier == Live ==> m.data.token == LiveToken(Post(env.auth)).value
                               && m.state == s.(cachedToken := m.data.token,
                                                tokenExpiry := Some(env.settled + 3600000))
    ensures m.tier == Fallback <==> LiveToken(Post(env.auth)).None? && env.fault != FaultInFallback
    ensures m.tier == Fallback ==> m.data.token == JStr(FallbackToken(p, s.deviceId, Seconds(env.now)))
                                   && m.state == s.(cachedToken := m.data.token,
                                                    tokenExpiry := Some(env.settled + 1800000))
    ensures m.tier == Emergency ==> m.state == s
                                    && m.data.token == JStr(EmergencyToken(env.settled, env.randomBytes))
    ensures m.tier != Emergency ==> Truthy(Some(m.data.token))
    ensures m.tier != Cached
    ensures Valid(s) ==> Valid(m.state)
  {
    match LiveToken(Post(env.auth))
    case Some(t) =>
      var next := s.(cachedToken := t, tokenExpiry := Some(env.settled + LiveTtlMs));
      Minted(TokenData(t, s.deviceId), Live, next, Some(sent))
    case None =>
      if env.fault == FaultInFallback then
        EmergencyResult(s, env.settled, env.randomBytes, Some(sent))
      else
        FallbackTokenNonEmpty(p, s.deviceId, Seconds(env.now));
        var f := JStr(FallbackToken(p, s.deviceId, Seconds(env.now)));
        var next := s.(cachedToken := f, tokenExpiry := Some(env.settled + FallbackTtlMs));
        Minted(TokenData(f, s.deviceId), Fallback, next, Some(sent))
  }

  /** `generateToken()`: the cache, then the auth call, then the fallback; a fault
      before the auth call goes straight to the emergency token. */
  function GenerateToken(p: Primitives, s: TokenState, env: MintEnv): (m: Minted)
    requires WellFormedEnv(env)
    ensures m.data.deviceid == s.deviceId && m.state.deviceId == s.deviceId
    ensures m.tier == Cached <==> CacheHit(s, env.now)
    ensures m.tier == Cached ==> m.data.token == s.cachedToken && m.state == s
    ensures m.tier == Emergency ==> m.state == s && m.data.token.JStr?
    ensures !CacheHit(s, env.now) && env.fault == FaultBeforeAuth ==> m.tier == Emergency
    ensures m.authRequest.Some? <==> !CacheHit(s, env.now) && env.fault != FaultBeforeAuth
    ensures m.authRequest.Some? ==>
              m.authRequest.value == AuthRequest(p, s.deviceId, Seconds(env.now), Nonce(env))
    ensures Valid(s) ==> Valid(m.state)
  {
    if CacheHit(s, env.now) then
      Minted(TokenData(s.cachedToken, s.deviceId), Cached, s, None)
    else if env.fault == FaultBeforeAuth then
      EmergencyResult(s, env.now, env.randomBytes, None)
    else
      Settle(p, s, env, AuthRequest(p, s.deviceId, Seconds(env.now), Nonce(env)))
  }

  /** A token source: given the generator's state and what one `token()` call
      meets, the token it hands out and the state it leaves. */
  type Mint = (TokenState, MintEnv) --> Minted

  /** `generateToken()` of one generator, as a token source. */
  function Generator(p: Primitives): Mint {
    (st: TokenState, e: MintEnv) requires WellFormedEnv(e) => GenerateToken(p, st, e)
  }

  /** `refreshToken()`: empty the slot, then run the ladder. */
  function RefreshToken(p: Primitives, s: TokenState, env: MintEnv): (m: Minted)
    requires WellFormedEnv(env)
    ensures m.tier != Cached
    ensures m.data.deviceid == s.deviceId
    ensures m.tier == Emergency ==> m.state.cachedToken == JNull && m.state.tokenExpiry.None?
    ensures Valid(s) ==> Valid(m.state)
  {
    GenerateToken(p, s.(cachedToken := JNull, tokenExpiry := None), env)
  }

  /** `getTokenInfo()`. */
  function GetTokenInfo(s: TokenState, now: int): (r: TokenInfo)
    ensures r.deviceId == s.deviceId
    ensures r.hasToken == Truthy(Some(s.cachedToken))
    ensures s.tokenExpiry.Some? && s.tokenExpiry.value != 0 ==>
              r.isExpired == (now >= s.tokenExpiry.value) && r.expiryTime == s.tokenExpiry
    ensures r.hasToken && !r.isExpired <==> CacheHit(s, now)
    ensures r.expiryTime.None? ==> r.isExpired
    ensures !(s.tokenExpiry.Some? && s.tokenExpiry.value != 0) ==> r.isExpired && r.expiryTime.None?
  {
    var expiryTruthy := s.tokenExpiry.Some? && s.tokenExpiry.value != 0;
    TokenInfo(
      Truthy(Some(s.cachedToken)),
      if expiryTruthy then now >= s.tokenExpiry.value else true,
      s.deviceId,
      if expiryTruthy then s.tokenExpiry else None)
  }

  // ---------------------------------------------------------------------------
  // Properties across calls
  // ---------------------------------------------------------------------------

  /** On a cache miss with no early fault, the ladder sends the auth request and
      settles on its outcome. */
  lemma MissSettles(p: Primitives, s: TokenState, env: MintEnv)
    requires WellFormedEnv(env)
    requires !CacheHit(s, env.now) && env.fault != FaultBeforeAuth
    ensures GenerateToken(p, s, env)
         == Settle(p, s, env, AuthRequest(p, s.deviceId, Seconds(env.now), Nonce(env)))
  {
  }

  /** When the cache misses and the auth endpoint answers with a truthy
      `data.token`, that token is served and cached for an hour. */
  lemma LiveTokenIsCached(p: Primitives, s: TokenState, env: MintEnv, t: Json)
    requires WellFormedEnv(env)
    requires !CacheHit(s, env.now) && env.fault != FaultBeforeAuth
    requires LiveToken(Post(env.auth)) == Some(t)
    ensures GenerateToken(p, s, env).tier == Live
    ensures GenerateToken(p, s, env).data.token == t
    ensures GenerateToken(p, s, env).state
         == TokenState(t, Some(env.settled + 3600000), s.deviceId)
  {
    var sent := AuthRequest(p, s.deviceId, Seconds(env.now), Nonce(env));
    MissSettles(p, s, env);
    SettleLive(p, s, env, sent, t);
  }

  lemma SettleLive(p: Primitives, s: TokenState, env: MintEnv, sent: HttpRequest, t: Json)
    requires |env.randomBytes| == EmergencyRandomBytes
    requires LiveToken(Post(env.auth)) == Some(t)
    ensures Settle(p, s, env, sent).tier == Live
    ensures Settle(p, s, env, sent).data.token == t
    ensures Settle(p, s, env, sent).state == TokenState(t, Some(env.settled + 3600000), s.deviceId)
  {
  }

  /** When the cache misses and the auth call rejects, or resolves without a truthy
      `data.token`, the fallback token is served and cached for half an hour. */
  lemma AuthFailureFallsBack(p: Primitives, s: TokenState, env: MintEnv)
    requires WellFormedEnv(env)
    requires !CacheHit(s, env.now) && env.fault == NoFault
    requires LiveToken(Post(env.auth)).None?
    ensures GenerateToken(p, s, env).tier == Fallback
    ensures GenerateToken(p, s, env).state
         == TokenState(JStr(FallbackToken(p, s.deviceId, Seconds(env.now))),
                       Some(env.settled + 1800000), s.deviceId)
  {
    var sent := AuthRequest(p, s.deviceId, Seconds(env.now), Nonce(env));
    MissSettles(p, s, env);
    SettleFallback(p, s, env, sent);
  }

  lemma SettleFallback(p: Primitives, s: TokenState, env: MintEnv, sent: HttpRequest)
    requires |env.randomBytes| == EmergencyRandomBytes
    requires env.fault == NoFault && LiveToken(Post(env.auth)).None?
    ensures Settle(p, s, env, sent).tier == Fallback
    ensures Settle(p, s, env, sent).state
         == TokenState(JStr(FallbackToken(p, s.deviceId, Seconds(env.now))),
                       Some(env.settled + 1800000), s.deviceId)
  {
  }

  /** `generateToken` never fails outward: against an auth endpoint that always
      fails, a cache miss yields a fallback or an emergency token. */
  lemma FailingAuthStillMints(p: Primitives, s: TokenState, env: MintEnv)
    requires WellFormedEnv(env)
    requires !CacheHit(s, env.now)
    requires Post(env.auth).Failure?
    ensures GenerateToken(p, s, env).tier == Fallback || GenerateToken(p, s, env).tier == Emergency
  {
    if env.fault != FaultBeforeAuth {
      MissSettles(p, s, env);
    }
  }

  /** The emergency token is built from the clock of the moment the fault struck,
      and nothing is cached. */
  lemma EmergencyNotCached(p: Primitives, s: TokenState, env: MintEnv)
    requires WellFormedEnv(env)
    requires !CacheHit(s, env.now) && env.fault != NoFault
    requires LiveToken(Post(env.auth)).None? || env.fault == FaultBeforeAuth
    ensures GenerateToken(p, s, env).tier == Emergency
    ensures GenerateToken(p, s, env).state == s
    ensures GenerateToken(p, s, env).data.token
         == JStr(EmergencyToken(if env.fault == FaultBeforeAuth then env.now else env.settled, env.randomBytes))
  {
    if env.fault != FaultBeforeAuth {
      MissSettles(p, s, env);
    }
  }

  /** A freshly cached token is served from the cache by every later call made
      before its expiry, and by none made at or after it (for clocks past the epoch,
      where the expiry is a truthy number). */
  lemma CacheServesUntilExpiry(p: Primitives, s: TokenState, env: MintEnv, env2: MintEnv)
    requires WellFormedEnv(env) && WellFormedEnv(env2)
    requires env.settled >= 0
    requires GenerateToken(p, s, env).tier == Live || GenerateToken(p, s, env).tier == Fallback
    ensures var m := GenerateToken(p, s, env);
            var m2 := GenerateToken(p, m.state, env2);
            (m2.tier == Cached <==> env2.now < m.state.tokenExpiry.value)
            && (m2.tier == Cached ==> m2.data == m.data && m2.state == m.state)
  {
    assert !CacheHit(s, env.now) && env.fault != FaultBeforeAuth;
    var sent := AuthRequest(p, s.deviceId, Seconds(env.now), Nonce(env));
    MissSettles(p, s, env);
    SettledTokenServed(p, s, env, sent, env2);
  }

  lemma SettledTokenServed(p: Primitives, s: TokenState, env: MintEnv, sent: HttpRequest, env2: MintEnv)
    requires |env.randomBytes| == EmergencyRandomBytes && WellFormedEnv(env2)
    requires env.settled >= 0
    requires Settle(p, s, env, sent).tier != Emergency
    ensures var m := Settle(p, s, env, sent);
            var m2 := GenerateToken(p, m.state, env2);
            (m2.tier == Cached <==> env2.now < m.state.tokenExpiry.value)
            && (m2.tier == Cached ==> m2.data == m.data && m2.state == m.state)
  {
    var m := Settle(p, s, env, sent);
    CachedTokenServed(p, m.state, env2);
  }

  /** A state holding a truthy token with a positive expiry serves that token,
      unchanged, to every call made before the expiry and to none after. */
  lemma CachedTokenServed(p: Primitives, st: TokenState, env: MintEnv)
    requires WellFormedEnv(env)
    requires Truthy(Some(st.cachedToken)) && st.tokenExpiry.Some? && st.tokenExpiry.value > 0
    ensures var m := GenerateToken(p, st, env);
            (m.tier == Cached <==> env.now < st.tokenExpiry.value)
            && (m.tier == Cached ==> m.data == TokenData(st.cachedToken, st.deviceId) && m.state == st)
  {
  }

  /** After a refresh the previous cached token is never served: the ladder starts
      below the cache, and an emergency refresh leaves the cache empty, so the next
      call cannot hit it either. */
  lemma RefreshSkipsCache(p: Primitives, s: TokenState, env: MintEnv, env2: MintEnv)
    requires WellFormedEnv(env) && WellFormedEnv(env2)
    ensures RefreshToken(p, s, env).tier != Cached
    ensures RefreshToken(p, s, env).tier == Emergency
            ==> GenerateToken(p, RefreshToken(p, s, env).state, env2).tier != Cached
  {
  }
}
