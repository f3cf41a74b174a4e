/** The server-side logic of `examples/11-signalr/src/server.ts`: reading
    the service endpoint and access key out of the connection string, the
    HS256 access token (a compact JWS serialisation, section 7.1 of RFC 7515,
    with the HMAC-SHA256 algorithm of section 3.2 of RFC 7518), the negotiate
    reply and the broadcast call to the service's REST API.

    JSON serialisation followed by base64url encoding (section 5 of RFC
    4648), and the HMAC signature, are functions supplied by a `Codec`; the
    model only knows that their output uses the base64url alphabet. The
    clock and the random user suffix are inputs. */
module SignalRServer {
  import opened Wrappers
  import Text
  import opened Json
  import Config
  import ConnectionString

  /** The URL-safe base64 alphabet; it has no '.'. */
  predicate IsBase64UrlChar(c: char) {
    ('A' <= c <= 'Z') || ('a' <= c <= 'z') || ('0' <= c <= '9') || c == '-' || c == '_'
  }

  type Base64Url = s: string | forall i | 0 <= i < |s| :: IsBase64UrlChar(s[i])

  /** `Buffer.from(JSON.stringify(j)).toString('base64url')` and
      `createHmac('sha256', key).update(data).digest('base64url')`. */
  datatype Codec = Codec(encode: Json -> Base64Url, sign: (string, string) -> Base64Url)

  const HubName := "chat"

  datatype ServerConfig = ServerConfig(endpoint: string, accessKey: string)

  /** Lines 13-25: both fields must be found, or the process exits with the
      message given. */
  function Startup(env: Config.Env): (r: Result<ServerConfig>)
    ensures r.Err? <==> (!Config.IsSet(env, "SIGNALR_CONNECTION_STRING")
                         || ConnectionString.Extract(env["SIGNALR_CONNECTION_STRING"], "Endpoint").None?
                         || ConnectionString.Extract(env["SIGNALR_CONNECTION_STRING"], "AccessKey").None?)
    ensures r.Ok? ==> (|r.value.endpoint| > 0 && |r.value.accessKey| > 0
                       && ';' !in r.value.endpoint && ';' !in r.value.accessKey)
  {
    if !Config.IsSet(env, "SIGNALR_CONNECTION_STRING") then
      Err("Missing SIGNALR_CONNECTION_STRING. Run ./setup.sh first.")
    else
      var cs := env["SIGNALR_CONNECTION_STRING"];
      match (ConnectionString.Extract(cs, "Endpoint"), ConnectionString.Extract(cs, "AccessKey"))
      case (Some(endpoint), Some(accessKey)) => Ok(ServerConfig(endpoint, accessKey))
      case _ => Err("Invalid connection string format")
  }

  /** A well-formed connection string, fields in the order the service
      prints them, yields its endpoint and key. */
  lemma StartupReadsFields(endpoint: string, accessKey: string, version: string)
    requires |endpoint| > 0 && ';' !in endpoint && '=' !in endpoint
    requires |accessKey| > 0 && ';' !in accessKey && ';' !in version
    ensures var cs := "Endpoint=" + endpoint + ";AccessKey=" + accessKey + ";Version=" + version + ";";
      Startup(map["SIGNALR_CONNECTION_STRING" := cs]) == Ok(ServerConfig(endpoint, accessKey))
  {
    var cs := "Endpoint=" + endpoint + ";AccessKey=" + accessKey + ";Version=" + version + ";";
    var rest := ";AccessKey=" + accessKey + ";Version=" + version + ";";
    assert cs == "Endpoint" + "=" + endpoint + rest;
    ConnectionString.ExtractFirstField("Endpoint", endpoint, rest);
    AccessKeyAfterEndpoint(endpoint, accessKey, version);
  }

  /** The key's value is found behind the endpoint field. No earlier
      position matches `AccessKey=`: such a match would need an '=' inside
      the endpoint, or would run across the ';' that ends it. */
  lemma AccessKeyAfterEndpoint(endpoint: string, accessKey: string, version: string)
    requires |endpoint| > 0 && ';' !in endpoint && '=' !in endpoint
    requires |accessKey| > 0 && ';' !in accessKey && ';' !in version
    ensures var cs := "Endpoint=" + endpoint + ";AccessKey=" + accessKey + ";Version=" + version + ";";
      ConnectionString.Extract(cs, "AccessKey") == Some(accessKey)
  {
    var cs := "Endpoint=" + endpoint + ";AccessKey=" + accessKey + ";Version=" + version + ";";
    var head := "Endpoint=" + endpoint;
    var tail := ";AccessKey=" + accessKey + ";Version=" + version + ";";
    assert cs == head + tail;
    var at := |head| + 1;
    NoMatchInField(head, endpoint, tail, "AccessKey");
    var s2 := cs[at..];
    assert s2 == "AccessKey" + "=" + accessKey + (";Version=" + version + ";");
    ConnectionString.ExtractFirstField("AccessKey", accessKey, ";Version=" + version + ";");
    ShiftExtract(cs, "AccessKey", at);
  }

  /** `key=` cannot match before the ';' that ends a field whose value
      has no '=': the '=' would have to fall inside the value, or the match
      would run across the ';'. */
  lemma NoMatchInField(head: string, value: string, tail: string, key: string)
    requires |head| >= |value| && head[|head| - |value|..] == value && '=' !in value
    requires |head| - |value| <= |key|
    requires tail != [] && tail[0] == ';' && ';' !in key
    ensures forall j | 0 <= j < |head| + 1 :: !ConnectionString.MatchesAt(head + tail, key, j)
  {
    var cs := head + tail;
    var lit := key + "=";
    assert lit[|key|] == '=' && ';' !in lit;
    forall j | 0 <= j < |head| + 1
      ensures !ConnectionString.MatchesAt(cs, key, j)
    {
      if j + |lit| > |cs| {
      } else if j + |key| < |head| {
        assert cs[j + |key|] == value[j + |key| - (|head| - |value|)];
        assert cs[j..j + |lit|][|key|] != lit[|key|];
      } else {
        assert cs[|head|] == ';';
        assert lit[|head| - j] != ';';
        assert cs[j..j + |lit|][|head| - j] != lit[|head| - j];
      }
    }
  }

  /** When nothing matches before `at`, extracting from `s` is extracting
      from the suffix that starts at `at`. */
  lemma ShiftExtract(s: string, key: string, at: nat)
    requires at <= |s|
    requires forall j | 0 <= j < at :: !ConnectionString.MatchesAt(s, key, j)
    ensures ConnectionString.Extract(s[at..], key).Some? ==> ConnectionString.Extract(s, key) == ConnectionString.Extract(s[at..], key)
  {
    var t := s[at..];
    var m := ConnectionString.FirstMatch(t, key, 0);
    if m.Some? {
      FirstMatchShift(s, key, at);
      var start := at + m.value + |key| + 1;
      RunEndShift(s, at, start);
      assert t[start - at..ConnectionString.RunEnd(t, start - at)] == s[start..ConnectionString.RunEnd(s, start)];
    }
  }

  /** The leftmost match in the suffix is the leftmost in the whole. */
  lemma FirstMatchShift(s: string, key: string, at: nat)
    requires at <= |s|
    requires forall j | 0 <= j < at :: !ConnectionString.MatchesAt(s, key, j)
    ensures var m := ConnectionString.FirstMatch(s[at..], key, 0);
      m.Some? ==> ConnectionString.FirstMatch(s, key, 0) == Some(at + m.value)
  {
    var m := ConnectionString.FirstMatch(s[at..], key, 0);
    if m.Some? {
      var i := m.value;
      MatchShift(s, key, at, i);
      forall j | 0 <= j < at + i
        ensures !ConnectionString.MatchesAt(s, key, j)
      {
        if j >= at {
          MatchShift(s, key, at, j - at);
        }
      }
      FirstMatchIs(s, key, 0, at + i);
    }
  }

  /** The pattern matches in a suffix exactly where it matches in the whole. */
  lemma MatchShift(s: string, key: string, at: nat, j: nat)
    requires at <= |s|
    ensures ConnectionString.MatchesAt(s[at..], key, j) <==> ConnectionString.MatchesAt(s, key, at + j)
  {
    var lit := key + "=";
    if at + j + |lit| < |s| {
      assert s[at..][j..j + |lit|] == s[at + j..at + j + |lit|];
    }
  }

  lemma {:induction false} FirstMatchIs(s: string, key: string, from: nat, i: nat)
    requires from <= i && ConnectionString.MatchesAt(s, key, i)
    requires forall j | from <= j < i :: !ConnectionString.MatchesAt(s, key, j)
    ensures ConnectionString.FirstMatch(s, key, from) == Some(i)
    decreases i - from
  {
    if from < i {
      FirstMatchIs(s, key, from + 1, i);
    }
  }

  lemma {:induction false} RunEndShift(s: string, at: nat, j: nat)
    requires at <= j <= |s|
    ensures ConnectionString.RunEnd(s[at..], j - at) + at == ConnectionString.RunEnd(s, j)
    decreases |s| - j
  {
    if j < |s| && s[j] != ';' {
      RunEndShift(s, at, j + 1);
    }
  }

  /** `{ alg: 'HS256', typ: 'JWT' }`. */
  const TokenHeader := JObject([("alg", JString("HS256")), ("typ", JString("JWT"))])

  /** Lines 31-41. `Date.now()` is never negative, so `Math.floor` of the
      quotient is integer division. `nameid` is set only for a truthy
      `userId`: present and non-empty. */
  function Payload(hubUrl: string, userId: Option<string>, nowMs: nat): Json {
    var claims := [("aud", JString(hubUrl)), ("exp", JNumber(nowMs / 1000 + 3600))];
    if userId.Some? && userId.value != "" then JObject(claims + [("nameid", JString(userId.value))])
    else JObject(claims)
  }

  /** `aud` is the hub URL; `exp` is an hour after the current second; and
      `nameid` is there exactly for a non-empty user id. */
  lemma PayloadClaims(hubUrl: string, userId: Option<string>, nowMs: nat)
    ensures var p := Payload(hubUrl, userId, nowMs);
      && Field(p, "aud") == Some(JString(hubUrl))
      && Field(p, "exp").Some? && Field(p, "exp").value.JNumber?
      && (Field(p, "exp").value.n - 3600) * 1000 <= nowMs < (Field(p, "exp").value.n - 3600 + 1) * 1000
      && (Field(p, "nameid").Some? <==> userId.Some? && userId.value != "")
      && (Field(p, "nameid").Some? ==> Field(p, "nameid") == Some(JString(userId.value)))
  {
    var p := Payload(hubUrl, userId, nowMs);
    assert p.fields[0] == ("aud", JString(hubUrl));
    assert p.fields[1] == ("exp", JNumber(nowMs / 1000 + 3600));
    if userId.Some? && userId.value != "" {
      assert p.fields[2] == ("nameid", JString(userId.value));
    }
  }

  /** `generateAccessToken` (lines 30-48). */
  function AccessToken(codec: Codec, accessKey: string, hubUrl: string, userId: Option<string>, nowMs: nat): string {
    var header := codec.encode(TokenHeader);
    var body := codec.encode(Payload(hubUrl, userId, nowMs));
    header + "." + body + "." + codec.sign(accessKey, header + "." + body)
  }

  /** A base64url string contains no '.'. */
  lemma NoDot(s: Base64Url)
    ensures '.' !in s
  {
    forall i | 0 <= i < |s|
      ensures s[i] != '.'
    {
      assert IsBase64UrlChar(s[i]);
    }
  }

  /** The token has exactly three '.'-separated segments: the encoded
      header, the encoded payload, and the signature over the first two
      joined by '.'. */
  lemma TokenSegments(codec: Codec, accessKey: string, hubUrl: string, userId: Option<string>, nowMs: nat)
    ensures var header := codec.encode(TokenHeader);
      var body := codec.encode(Payload(hubUrl, userId, nowMs));
      Text.Split(AccessToken(codec, accessKey, hubUrl, userId, nowMs), '.')
        == [header, body, codec.sign(accessKey, header + "." + body)]
  {
    var header := codec.encode(TokenHeader);
    var body := codec.encode(Payload(hubUrl, userId, nowMs));
    var sig := codec.sign(accessKey, header + "." + body);
    NoDot(header);
    NoDot(body);
    NoDot(sig);
    Text.JoinThree(header, body, sig, ".");
    Text.JoinSplit([header, body, sig], '.');
  }

  /** `${endpoint}/client/?hub=chat`. */
  function HubUrl(endpoint: string): string {
    endpoint + "/client/?hub=" + HubName
  }

  /** `${endpoint}/api/v1/hubs/chat`. */
  function BroadcastUrl(endpoint: string): string {
    endpoint + "/api/v1/hubs/" + HubName
  }

  /** `/negotiate` (lines 51-60). `suffix` stands for the random
      `Math.random().toString(36).slice(2, 8)`. */
  function Negotiate(cfg: ServerConfig, codec: Codec, nowMs: nat, suffix: string): Json {
    var hubUrl := HubUrl(cfg.endpoint);
    JObject([("url", JString(hubUrl)),
             ("accessToken", JString(AccessToken(codec, cfg.accessKey, hubUrl, Some("user-" + suffix), nowMs)))])
  }

  /** The negotiate reply names the client hub URL, and its token is for
      that URL and always carries a `nameid`, since the generated user id
      is never empty. */
  lemma NegotiateReply(cfg: ServerConfig, codec: Codec, nowMs: nat, suffix: string)
    ensures var reply := Negotiate(cfg, codec, nowMs, suffix);
      var hubUrl := cfg.endpoint + "/client/?hub=chat";
      && Field(reply, "url") == Some(JString(hubUrl))
      && Field(reply, "accessToken")
         == Some(JString(AccessToken(codec, cfg.accessKey, hubUrl, Some("user-" + suffix), nowMs)))
      && Field(Payload(hubUrl, Some("user-" + suffix), nowMs), "nameid") == Some(JString("user-" + suffix))
  {
    var hubUrl := cfg.endpoint + "/client/?hub=chat";
    assert "/client/?hub=" + HubName == "/client/?hub=chat";
    assert HubUrl(cfg.endpoint) == hubUrl;
    var reply := Negotiate(cfg, codec, nowMs, suffix);
    assert reply.fields[0].0 == "url" && reply.fields[1].0 == "accessToken";
    assert reply.fields[1..][0] == reply.fields[1];
    assert |"user-" + suffix| > 0;
    PayloadClaims(hubUrl, Some("user-" + suffix), nowMs);
  }

  /** The REST request sent by `/api/broadcast`. */
  datatype BroadcastRequest = BroadcastRequest(url: string, authorization: string, body: Json)

  /** Lines 185-203. A body without `message` leaves it `undefined`, which
      `JSON.stringify` writes as `null` inside an array. */
  function BroadcastCall(cfg: ServerConfig, codec: Codec, nowMs: nat, message: Option<Json>): BroadcastRequest {
    var url := BroadcastUrl(cfg.endpoint);
    var token := AccessToken(codec, cfg.accessKey, url, None, nowMs);
    BroadcastRequest(url, "Bearer " + token,
      JObject([("target", JString("newMessage")),
               ("arguments", JArray([JString("Anonymous"), if message.Some? then message.value else JNull]))]))
  }

  datatype HttpResponse = HttpResponse(status: nat, body: Json)

  /** Lines 205-213. `upstream` is the REST call's status, or the error
      `fetch` threw; `response.ok` means a 2xx status. */
  function BroadcastReply(upstream: Result<nat>): HttpResponse {
    if upstream.Ok? && 200 <= upstream.value <= 299 then HttpResponse(200, JObject([("success", JBool(true))]))
    else HttpResponse(500, JObject([("error", JString("Failed to broadcast"))]))
  }

  /** The broadcast goes to the hub's REST URL with a bearer token for
      exactly that URL and no user id, and sends the message from
      "Anonymous" under the target `newMessage`. */
  lemma BroadcastAudience(cfg: ServerConfig, codec: Codec, nowMs: nat, message: Option<Json>)
    ensures var req := BroadcastCall(cfg, codec, nowMs, message);
      && req.url == cfg.endpoint + "/api/v1/hubs/chat"
      && Text.StartsWith(req.authorization, "Bearer ")
      && req.authorization[7..] == AccessToken(codec, cfg.accessKey, req.url, None, nowMs)
      && Field(Payload(req.url, None, nowMs), "aud") == Some(JString(req.url))
      && Field(Payload(req.url, None, nowMs), "nameid").None?
      && Field(req.body, "target") == Some(JString("newMessage"))
  {
    var req := BroadcastCall(cfg, codec, nowMs, message);
    assert "/api/v1/hubs/" + HubName == "/api/v1/hubs/chat";
    PayloadClaims(req.url, None, nowMs);
    assert req.authorization[..7] == "Bearer ";
  }

  /** The client sees success exactly when the service answered with a 2xx
      status; any other status, or a failed fetch, gives 500 with the fixed
      error. */
  lemma BroadcastSucceedsIff(upstream: Result<nat>)
    ensures var reply := BroadcastReply(upstream);
      && (reply.status == 200 <==> upstream.Ok? && 200 <= upstream.value < 300)
      && (reply.status == 200 ==> Field(reply.body, "success") == Some(JBool(true)))
      && (reply.status != 200 ==>
            reply.status == 500 && Field(reply.body, "error") == Some(JString("Failed to broadcast")))
  {
  }
}
