/** `examples/05-container-apps/src/server.ts`: the Express server built
    for container deployment. Its state is two module-level variables, the
    shutdown flag and the request counter, updated by the request-counting
    middleware and by the signal handler; the routes answer from that state,
    the environment and the clock. The clock, `toISOString`, the Node
    version, request bodies and headers are inputs. */
module ContainerAppServer {
  import opened Wrappers
  import opened Json
  import Config

  // ---------------------------------------------------------------------
  // `parseInt` without a radix (section 19.2.5 of ECMA-262), for `/work`.

  /** The characters `parseInt` skips before the number: the ECMAScript
      white space and line terminators. */
  predicate IsSpace(c: char) {
    var u := c as int;
    u in {0x09, 0x0A, 0x0B, 0x0C, 0x0D, 0x20, 0xA0, 0x1680, 0x2028, 0x2029, 0x202F, 0x205F, 0x3000, 0xFEFF}
    || 0x2000 <= u <= 0x200A
  }

  /** `s` without its leading white space: everything removed is white
      space, and what is left does not start with any. */
  function TrimStart(s: string): (r: string)
    ensures |r| <= |s| && r == s[|s| - |r|..]
    ensures forall i | 0 <= i < |s| - |r| :: IsSpace(s[i])
    ensures r == [] || !IsSpace(r[0])
  {
    if s != [] && IsSpace(s[0]) then TrimStart(s[1..]) else s
  }

  /** The value of `c` as a digit of any radix up to 36, or 36 for a
      character that is no digit at all. */
  function DigitValue(c: char): (v: nat)
    ensures v <= 36
    ensures v == 36 <==> !('0' <= c <= '9' || 'a' <= c <= 'z' || 'A' <= c <= 'Z')
    ensures '0' <= c <= '9' ==> v == c as int - '0' as int
    ensures 'a' <= c <= 'z' ==> v == c as int - 'a' as int + 10
    ensures 'A' <= c <= 'Z' ==> v == c as int - 'A' as int + 10
  {
    if '0' <= c <= '9' then c as int - '0' as int
    else if 'a' <= c <= 'z' then c as int - 'a' as int + 10
    else if 'A' <= c <= 'Z' then c as int - 'A' as int + 10
    else 36
  }

  /** The longest prefix of `s` made of digits of `radix`. */
  function DigitPrefix(s: string, radix: nat): (r: string)
    ensures |r| <= |s| && r == s[..|r|]
    ensures forall i | 0 <= i < |r| :: DigitValue(r[i]) < radix
    ensures |r| < |s| ==> DigitValue(s[|r|]) >= radix
  {
    if s != [] && DigitValue(s[0]) < radix then [s[0]] + DigitPrefix(s[1..], radix) else []
  }

  /** The number a string of digits denotes, most significant first. */
  function DigitsValue(digits: string, radix: nat): nat {
    if digits == [] then 0
    else DigitsValue(digits[..|digits| - 1], radix) * radix + DigitValue(digits[|digits| - 1])
  }

  /** `parseInt(s)`: `None` is `NaN`. Leading white space is skipped, then
      a sign, and the rest is read as an unsigned number. */
  function ParseInt(s: string): Option<int> {
    var t := TrimStart(s);
    var negative := t != [] && t[0] == '-';
    var magnitude := ParseUnsigned(if t != [] && (t[0] == '-' || t[0] == '+') then t[1..] else t);
    if magnitude.None? then None
    else if negative then Some(-(magnitude.value as int))
    else Some(magnitude.value)
  }

  /** After the sign: a "0x" or "0X" prefix switches to hexadecimal, and
      the longest run of digits that follows is the number. */
  function ParseUnsigned(u: string): Option<nat> {
    var hex := |u| >= 2 && u[0] == '0' && (u[1] == 'x' || u[1] == 'X');
    var radix := if hex then 16 else 10;
    var digits := DigitPrefix(if hex then u[2..] else u, radix);
    if digits == [] then None else Some(DigitsValue(digits, radix))
  }

  /** The default `/work` duration in milliseconds. */
  const DefaultWorkMs := 100

  /** `parseInt(req.query.ms as string) || 100`: an absent parameter reads
      as the string "undefined", and both `NaN` and zero are falsy. */
  function WorkDuration(ms: Option<string>): int {
    var parsed := ParseInt(if ms.Some? then ms.value else "undefined");
    if parsed.None? || parsed.value == 0 then DefaultWorkMs else parsed.value
  }

  /** The decimal form of a natural number, without leading zeros. */
  function Decimal(n: nat): (s: string)
    ensures |s| >= 1
    ensures forall i | 0 <= i < |s| :: '0' <= s[i] <= '9'
    decreases n
  {
    var digit := ('0' as int + n % 10) as char;
    if n < 10 then [digit] else Decimal(n / 10) + [digit]
  }

  lemma {:induction false} DecimalValue(n: nat)
    ensures DigitsValue(Decimal(n), 10) == n
    decreases n
  {
    var s := Decimal(n);
    if n >= 10 {
      DecimalValue(n / 10);
      assert s[..|s| - 1] == Decimal(n / 10);
    }
  }

  lemma {:induction false} DecimalLeadsWithNonZero(n: nat)
    requires n > 0
    ensures Decimal(n)[0] != '0'
    decreases n
  {
    if n >= 10 {
      DecimalLeadsWithNonZero(n / 10);
    }
  }

  lemma {:induction false} DigitPrefixOfDigits(s: string, radix: nat)
    requires forall i | 0 <= i < |s| :: DigitValue(s[i]) < radix
    ensures DigitPrefix(s, radix) == s
    decreases |s|
  {
    if s != [] {
      DigitPrefixOfDigits(s[1..], radix);
    }
  }

  /** `parseInt` reads back the decimal form of every natural number. */
  lemma ParseIntDecimal(n: nat)
    ensures ParseInt(Decimal(n)) == Some(n)
  {
    var s := Decimal(n);
    assert !IsSpace(s[0]);
    assert TrimStart(s) == s;
    if n > 0 {
      ParseUnsignedDecimal(n, []);
      assert s + [] == s;
    } else {
      assert s == "0";
      DigitPrefixOfDigits(s, 10);
      assert DigitsValue(s, 10) == DigitsValue([], 10) * 10 + DigitValue('0');
    }
  }

  /** Text that starts with neither white space, a sign nor a digit is
      `NaN`. */
  lemma ParseIntNoDigit(text: string)
    requires text != [] && DigitValue(text[0]) >= 10 && !IsSpace(text[0]) && text[0] != '-' && text[0] != '+'
    ensures ParseInt(text) == None
  {
    assert TrimStart(text) == text;
    assert ParseUnsigned(text) == None by {
      assert text[0] != '0';
    }
  }

  /** A positive number of milliseconds is used as given; "0", a missing
      parameter, and text that starts with no digit give 100. */
  lemma WorkDurationCases(n: nat, text: string)
    requires text != [] && DigitValue(text[0]) >= 10 && !IsSpace(text[0]) && text[0] != '-' && text[0] != '+'
    ensures n > 0 ==> WorkDuration(Some(Decimal(n))) == n
    ensures WorkDuration(Some(Decimal(0))) == DefaultWorkMs
    ensures WorkDuration(None) == DefaultWorkMs
    ensures WorkDuration(Some(text)) == DefaultWorkMs
  {
    ParseIntDecimal(n);
    ParseIntDecimal(0);
    assert "undefined"[0] == 'u';
    ParseIntNoDigit("undefined");
    ParseIntNoDigit(text);
  }

  /** Leading white space is skipped: " 250ms" asks for 250 milliseconds
      (the number read from "250ms" is given by `ParseUnsignedDecimal`). */
  lemma WorkDurationSkipsSpace(u: string, n: nat)
    requires u != [] && '0' <= u[0] <= '9' && ParseUnsigned(u) == Some(n) && n > 0
    ensures WorkDuration(Some(" " + u)) == n
  {
    ParseIntAfterSpace(u, n);
  }

  lemma ParseIntAfterSpace(u: string, n: nat)
    requires u != [] && '0' <= u[0] <= '9' && ParseUnsigned(u) == Some(n)
    ensures ParseInt(" " + u) == Some(n)
  {
    SkipOneSpace(u);
    ParseIntOfDigit(" " + u);
  }

  /** One leading space is skipped before text that starts with a digit. */
  lemma SkipOneSpace(u: string)
    requires u != [] && '0' <= u[0] <= '9'
    ensures TrimStart(" " + u) == u
  {
    assert (" " + u)[1..] == u;
    assert !IsSpace(u[0]);
  }

  /** A number that starts with a digit after the white space has no sign. */
  lemma ParseIntOfDigit(t: string)
    requires TrimStart(t) != [] && '0' <= TrimStart(t)[0] <= '9'
    ensures ParseInt(t) == (var u := ParseUnsigned(TrimStart(t)); if u.None? then None else Some(u.value as int))
  {
  }

  /** The decimal form of a positive number, followed by anything that is
      not a digit, reads as that number. */
  lemma ParseUnsignedDecimal(n: nat, rest: string)
    requires n > 0
    requires rest == [] || DigitValue(rest[0]) >= 10
    ensures ParseUnsigned(Decimal(n) + rest) == Some(n)
  {
    var s := Decimal(n);
    var u := s + rest;
    assert u[0] == s[0];
    DecimalLeadsWithNonZero(n);
    DigitPrefixConcat(s, rest, 10);
    DecimalValue(n);
  }

  lemma {:induction false} DigitPrefixConcat(s: string, rest: string, radix: nat)
    requires forall i | 0 <= i < |s| :: DigitValue(s[i]) < radix
    requires rest == [] || DigitValue(rest[0]) >= radix
    ensures DigitPrefix(s + rest, radix) == s
    decreases |s|
  {
    if s != [] {
      assert (s + rest)[1..] == s[1..] + rest;
      DigitPrefixConcat(s[1..], rest, radix);
    } else {
      assert s + rest == rest;
    }
  }

  // ---------------------------------------------------------------------
  // Server state.

  /** The two module-level variables. */
  datatype ServerState = ServerState(isShuttingDown: bool, requestCount: nat)

  /** What changes the state: a request passing the middleware, or a
      SIGTERM/SIGINT. */
  datatype Event = Request | Signal(name: string)

  /** The middleware (lines 23-30) counts a request only before shutdown;
      `gracefulShutdown` (line 128) raises the flag. */
  function Step(s: ServerState, e: Event): ServerState {
    match e
    case Request => if s.isShuttingDown then s else s.(requestCount := s.requestCount + 1)
    case Signal(_) => s.(isShuttingDown := true)
  }

  /** The state after a sequence of events, from `s`. */
  function RunFrom(s: ServerState, events: seq<Event>): ServerState {
    if events == [] then s
    else Step(RunFrom(s, events[..|events| - 1]), events[|events| - 1])
  }

  /** The state after a sequence of events, from the initial one (lines
      18-19). */
  function After(events: seq<Event>): ServerState {
    RunFrom(ServerState(false, 0), events)
  }

  lemma {:induction false} RunFromAppend(s: ServerState, a: seq<Event>, b: seq<Event>)
    ensures RunFrom(s, a + b) == RunFrom(RunFrom(s, a), b)
    decreases |b|
  {
    if b == [] {
      assert a + b == a;
    } else {
      assert (a + b)[..|a + b| - 1] == a + b[..|b| - 1];
      RunFromAppend(s, a, b[..|b| - 1]);
    }
  }

  /** Once shutting down, nothing changes the state again: requests are
      not counted and further signals leave the flag raised. */
  lemma {:induction false} ShutdownIsFinal(s: ServerState, events: seq<Event>)
    requires s.isShuttingDown
    ensures RunFrom(s, events) == s
    decreases |events|
  {
    if events != [] {
      ShutdownIsFinal(s, events[..|events| - 1]);
    }
  }

  /** Before any signal every request is counted. */
  lemma {:induction false} RequestsAllCounted(events: seq<Event>)
    requires forall k | 0 <= k < |events| :: events[k] == Request
    ensures After(events) == ServerState(false, |events|)
    decreases |events|
  {
    if events != [] {
      RequestsAllCounted(events[..|events| - 1]);
    }
  }

  /** The server is shutting down exactly when a signal has arrived. */
  lemma {:induction false} ShuttingDownIffSignalled(events: seq<Event>)
    ensures After(events).isShuttingDown <==> exists k | 0 <= k < |events| :: events[k].Signal?
    decreases |events|
  {
    if events != [] {
      var init := events[..|events| - 1];
      ShuttingDownIffSignalled(init);
      if exists k | 0 <= k < |init| :: init[k].Signal? {
        var k :| 0 <= k < |init| && init[k].Signal?;
        assert events[k] == init[k];
      }
      if exists k | 0 <= k < |events| :: events[k].Signal? {
        var k :| 0 <= k < |events| && events[k].Signal?;
        if k < |init| {
          assert init[k] == events[k];
        }
      }
    }
  }

  /** The count is the number of requests before the first signal. */
  lemma CountStopsAtFirstSignal(events: seq<Event>, k: nat)
    requires k < |events| && events[k].Signal?
    requires forall j | 0 <= j < k :: events[j] == Request
    ensures After(events) == ServerState(true, k)
  {
    var before := events[..k];
    RequestsAllCounted(before);
    assert events == before + ([events[k]] + events[k + 1..]);
    RunFromAppend(ServerState(false, 0), before, [events[k]] + events[k + 1..]);
    RunFromAppend(After(before), [events[k]], events[k + 1..]);
    assert RunFrom(After(before), [events[k]]) == ServerState(true, k) by {
      assert [events[k]][..0] == [];
    }
    ShutdownIsFinal(ServerState(true, k), events[k + 1..]);
  }

  // ---------------------------------------------------------------------
  // Routes.

  /** The request's route. `Work` carries the `ms` query value as the
      string `parseInt` receives: a repeated parameter arrives joined by
      ',', as `String` of an array gives. `Unmatched` is any method and path
      no route answers. */
  datatype Route =
    | Health | Ready | Home | Info | Echo(body: Json, headers: Json) | Work(ms: Option<string>)
    | Unmatched(verb: string, path: string)

  datatype Response = Response(status: int, body: Json)

  /** What the outside world supplies to a request: the environment, the
      time in milliseconds, its ISO form, the Node version, and how long the
      simulated work actually took. */
  datatype Context = Context(env: Config.Env, nowMs: int, isoNow: string, nodeVersion: string, workElapsedMs: int)

  const ShuttingDownBody := JObject([("error", JString("Server is shutting down"))])
  const NotReadyBody := JObject([("status", JString("not ready")), ("reason", JString("shutting down"))])

  /** `Math.floor((Date.now() - startTime) / 1000)`: whole seconds, rounded
      down also for a clock that went backwards. */
  function UptimeSeconds(startMs: int, nowMs: int): (r: int)
    ensures r * 1000 <= nowMs - startMs < (r + 1) * 1000
  {
    (nowMs - startMs) / 1000
  }

  /** An environment variable as a JSON value: `undefined` is left out of
      the serialised object. */
  function EnvField(env: Config.Env, key: string, name: string): seq<(string, Json)> {
    if name in env then [(key, JString(env[name]))] else []
  }

  /** The route handlers, lines 36-107. */
  function RouteResponse(route: Route, s: ServerState, startMs: int, ctx: Context): Response {
    match route
    case Health =>
      Response(200, JObject([("status", JString("healthy")), ("uptime", JNumber(UptimeSeconds(startMs, ctx.nowMs))),
                             ("timestamp", JString(ctx.isoNow))]))
    case Ready =>
      if s.isShuttingDown then Response(503, NotReadyBody) else Response(200, JObject([("status", JString("ready"))]))
    case Home =>
      Response(200, JObject([("message", JString("Hello from Azure Container Apps!")),
                             ("environment", JString(Config.GetEnv(ctx.env, "NODE_ENV", "development"))),
                             ("hostname", JString(Config.GetEnv(ctx.env, "HOSTNAME", "unknown"))),
                             ("revision", JString(Config.GetEnv(ctx.env, "CONTAINER_APP_REVISION", "local")))]))
    case Info =>
      Response(200, JObject([
        ("app", JObject([("name", JString("azure-container-demo")), ("version", JString("1.0.0")),
                         ("nodeVersion", JString(ctx.nodeVersion))])),
        ("container", JObject(EnvField(ctx.env, "hostname", "HOSTNAME")
                              + EnvField(ctx.env, "revision", "CONTAINER_APP_REVISION")
                              + EnvField(ctx.env, "replicaName", "CONTAINER_APP_REPLICA_NAME")))]
        + EnvField(ctx.env, "environment", "NODE_ENV")
        + [("stats", JObject([("uptime", JNumber(UptimeSeconds(startMs, ctx.nowMs))),
                              ("requestCount", JNumber(s.requestCount))]))]))
    case Echo(body, headers) =>
      Response(200, JObject([("received", body), ("headers", headers), ("timestamp", JString(ctx.isoNow))]))
    case Work(ms) =>
      Response(200, JObject([("message", JString("Work completed")), ("requestedMs", JNumber(WorkDuration(ms))),
                             ("actualMs", JNumber(ctx.workElapsedMs))]))
    case Unmatched(verb, path) =>
      Response(404, JString("Cannot " + verb + " " + path))
  }

  /** A request as the middleware sees it: refused during shutdown,
      otherwise handed to its route with the count already raised. */
  function Serve(s: ServerState, route: Route, startMs: int, ctx: Context): Response {
    if s.isShuttingDown then Response(503, ShuttingDownBody)
    else RouteResponse(route, Step(s, Request), startMs, ctx)
  }

  /** `/ready` never answers "not ready": the middleware has already
      refused every request during shutdown, and before it `/ready` says
      ready. */
  lemma ReadyNeverNotReady(s: ServerState, startMs: int, ctx: Context)
    ensures Serve(s, Ready, startMs, ctx).body != NotReadyBody
    ensures !s.isShuttingDown ==> Serve(s, Ready, startMs, ctx) == Response(200, JObject([("status", JString("ready"))]))
    ensures s.isShuttingDown ==> Serve(s, Ready, startMs, ctx) == Response(503, ShuttingDownBody)
  {
    assert ShuttingDownBody.fields[0].0 == "error";
    assert NotReadyBody.fields[0].0 == "status";
  }

  /** A request no route answers has already passed the counting
      middleware; Express's final handler then answers 404 naming it. */
  lemma UnmatchedIsCountedNotFound(s: ServerState, verb: string, path: string, startMs: int, ctx: Context)
    ensures !s.isShuttingDown ==>
      && Serve(s, Unmatched(verb, path), startMs, ctx) == Response(404, JString("Cannot " + verb + " " + path))
      && Step(s, Request).requestCount == s.requestCount + 1
    ensures s.isShuttingDown ==> Serve(s, Unmatched(verb, path), startMs, ctx) == Response(503, ShuttingDownBody)
  {
  }

  /** `/info` reports the request count including the request itself. */
  lemma InfoCountsItself(s: ServerState, startMs: int, ctx: Context)
    requires !s.isShuttingDown
    ensures var stats := Field(Serve(s, Info, startMs, ctx).body, "stats");
      stats.Some? && Field(stats.value, "requestCount") == Some(JNumber(s.requestCount + 1))
  {
    var body := Serve(s, Info, startMs, ctx).body;
    var fields := body.fields;
    var statsAt := |fields| - 1;
    assert fields[statsAt].0 == "stats";
    assert forall k | 0 <= k < statsAt :: fields[k].0 in {"app", "container", "environment"};
    FirstFieldAt(fields, "stats", statsAt);
    var stats := fields[statsAt].1;
    assert stats.fields[0].0 == "uptime" && stats.fields[1] == ("requestCount", JNumber(s.requestCount + 1));
    FirstFieldAt(stats.fields, "requestCount", 1);
  }

  /** The field at `k` is found when no earlier field has its key. */
  lemma {:induction false} FirstFieldAt(fields: seq<(string, Json)>, key: string, k: nat)
    requires k < |fields| && fields[k].0 == key
    requires forall j | 0 <= j < k :: fields[j].0 != key
    ensures FirstField(fields, key) == Some(fields[k].1)
  {
    if k > 0 {
      FirstFieldAt(fields[1..], key, k - 1);
    }
  }

  /** The server process: its state and the time it started. */
  class Server {
    var isShuttingDown: bool
    var requestCount: nat
    const startTime: int

    function State(): ServerState
      reads this
    {
      ServerState(isShuttingDown, requestCount)
    }

    /** Lines 18-20. */
    constructor (nowMs: int)
      ensures State() == After([]) && startTime == nowMs
    {
      isShuttingDown := false;
      requestCount := 0;
      startTime := nowMs;
    }

    /** One request through the middleware and its route. */
    method Handle(route: Route, ctx: Context) returns (response: Response)
      modifies this
      ensures State() == Step(old(State()), Request)
      ensures response == Serve(old(State()), route, startTime, ctx)
    {
      if isShuttingDown {
        response := Response(503, ShuttingDownBody);
        return;
      }
      requestCount := requestCount + 1;
      response := RouteResponse(route, State(), startTime, ctx);
    }

    /** `gracefulShutdown` (lines 121-151), up to raising the flag. */
    method GracefulShutdown(signal: string)
      modifies this
      ensures State() == Step(old(State()), Signal(signal))
      ensures isShuttingDown && requestCount == old(requestCount)
    {
      isShuttingDown := true;
    }
  }
}
