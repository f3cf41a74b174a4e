/** `examples/04-authentication/src/authMiddleware.ts`: the two Express
    middlewares that read an Azure AD bearer token (section 2.1 of RFC 6750,
    with the scheme name matched case-sensitively), have it verified, and
    attach the caller's identity to the request.

    Token verification (the JWKS key lookup and the RS256 signature, audience
    and issuer checks) is a function supplied by the caller: it sees the token
    and the options the middleware asks for, and answers with the decoded
    payload or the error message. */
module AuthMiddleware {
  import opened Wrappers
  import Text
  import opened Json

  /** The claims of a decoded Azure AD token that the middleware reads. */
  datatype Payload = Payload(
    sub: Option<string>,
    name: Option<string>,
    preferredUsername: Option<string>,
    email: Option<string>,
    roles: Option<seq<string>>)

  /** `req.user`. */
  datatype User = User(sub: Option<string>, name: Option<string>, email: Option<string>, roles: Option<seq<string>>)

  /** The options passed to `jwt.verify`. */
  datatype VerifyOptions = VerifyOptions(algorithms: seq<string>, audience: string, issuer: string)

  /** Verification: the payload, or the message of the error. */
  type Verifier = (string, VerifyOptions) -> Result<Payload>

  const BearerPrefix := "Bearer "

  const IssuerPrefix := "https://login.microsoftonline.com/"
  const IssuerSuffix := "/v2.0"

  /** The v2.0 issuer of the tenant. */
  function Issuer(tenantId: string): string {
    IssuerPrefix + tenantId + IssuerSuffix
  }

  /** Lines 66-70 and 112-116: RS256 only, the app's client id as audience,
      the tenant's v2.0 issuer. */
  function Options(tenantId: string, clientId: string): VerifyOptions {
    VerifyOptions(["RS256"], clientId, Issuer(tenantId))
  }

  /** Different tenants are never confused: the issuer names exactly one. */
  lemma IssuerNamesOneTenant(t1: string, t2: string)
    requires Issuer(t1) == Issuer(t2)
    ensures t1 == t2
  {
    var n := |IssuerPrefix|;
    assert |t1| == |t2|;
    assert t1 == Issuer(t1)[n..n + |t1|];
    assert t2 == Issuer(t2)[n..n + |t2|];
  }

  /** The token a header carries: absent, empty or not starting with
      exactly "Bearer " gives none; otherwise the header without its first
      seven characters. */
  function BearerToken(header: Option<string>): (token: Option<string>)
    ensures token.Some? <==> header.Some? && Text.StartsWith(header.value, BearerPrefix)
    ensures token.Some? ==> header.value == BearerPrefix + token.value
  {
    if header.None? || !Text.StartsWith(header.value, BearerPrefix) then None
    else Some(header.value[|BearerPrefix|..])
  }

  /** A header yields a token exactly when it is "Bearer " followed by it. */
  lemma BearerTokenIff(header: Option<string>, token: string)
    ensures BearerToken(header) == Some(token) <==> header == Some(BearerPrefix + token)
  {
    if header == Some(BearerPrefix + token) {
      assert Text.StartsWith(header.value, BearerPrefix);
      assert header.value[|BearerPrefix|..] == token;
    }
  }

  /** The scheme name is matched case-sensitively. */
  lemma LowercaseSchemeRejected(token: string)
    ensures BearerToken(Some("bearer " + token)) == None
  {
    assert ("bearer " + token)[0] == 'b';
  }

  /** JavaScript truthiness of an optional string. */
  predicate Truthy(s: Option<string>) {
    s.Some? && s.value != ""
  }

  /** The user attached to the request, lines 80-85. */
  function UserOf(p: Payload): (u: User)
    ensures u.sub == p.sub && u.name == p.name && u.roles == p.roles
    ensures Truthy(p.preferredUsername) ==> u.email == p.preferredUsername
    ensures !Truthy(p.preferredUsername) ==> u.email == p.email
  {
    User(p.sub, p.name, if Truthy(p.preferredUsername) then p.preferredUsername else p.email, p.roles)
  }

  /** A user's email is one the token states, and an empty preferred
      username is never chosen over a stated email. */
  lemma EmailFromToken(p: Payload)
    ensures UserOf(p).email.Some? ==> UserOf(p).email == p.preferredUsername || UserOf(p).email == p.email
    ensures p.email.Some? && p.preferredUsername == Some("") ==> UserOf(p).email == p.email
  {
  }

  /** The JSON body of `res.status(401).json(...)` for each refusal. */
  function MissingHeaderBody(): Json {
    JObject([("error", JString("Missing or invalid authorization header"))])
  }

  function InvalidTokenBody(details: string): Json {
    JObject([("error", JString("Invalid token")), ("details", JString(details))])
  }

  /** What `requireAuth` decides. */
  datatype Decision = Reject(status: int, body: Json) | Accept(user: User)

  function RequireAuthDecision(header: Option<string>, tenantId: string, clientId: string, verify: Verifier): (d: Decision)
    ensures d.Reject? ==> d.status == 401
  {
    match BearerToken(header)
    case None => Reject(401, MissingHeaderBody())
    case Some(token) =>
      match verify(token, Options(tenantId, clientId))
      case Err(message) => Reject(401, InvalidTokenBody(message))
      case Ok(payload) => Accept(UserOf(payload))
  }

  /** `requireAuth` lets a request through exactly when its header is
      "Bearer " and a token that verifies against the tenant's issuer and
      the app's audience; the user is then the one the payload names. */
  lemma RequireAuthAcceptsIff(header: Option<string>, tenantId: string, clientId: string, verify: Verifier)
    ensures RequireAuthDecision(header, tenantId, clientId, verify).Accept?
      <==> exists token :: header == Some(BearerPrefix + token) && verify(token, Options(tenantId, clientId)).Ok?
    ensures forall token | header == Some(BearerPrefix + token) && verify(token, Options(tenantId, clientId)).Ok? ::
      RequireAuthDecision(header, tenantId, clientId, verify) == Accept(UserOf(verify(token, Options(tenantId, clientId)).value))
  {
    var d := RequireAuthDecision(header, tenantId, clientId, verify);
    if d.Accept? {
      var token := BearerToken(header).value;
      BearerTokenIff(header, token);
    }
    forall token | header == Some(BearerPrefix + token)
      ensures BearerToken(header) == Some(token)
    {
      BearerTokenIff(header, token);
    }
  }

  /** The user `optionalAuth` attaches, if any. */
  function OptionalAuthUser(header: Option<string>, tenantId: string, clientId: string, verify: Verifier): Option<User> {
    match BearerToken(header)
    case None => None
    case Some(token) =>
      match verify(token, Options(tenantId, clientId))
      case Err(_) => None
      case Ok(payload) => Some(UserOf(payload))
  }

  /** `optionalAuth` attaches a user exactly when `requireAuth` would let
      the same request through, and the same user. */
  lemma OptionalAgreesWithRequire(header: Option<string>, tenantId: string, clientId: string, verify: Verifier)
    ensures var d := RequireAuthDecision(header, tenantId, clientId, verify);
      && (OptionalAuthUser(header, tenantId, clientId, verify).Some? <==> d.Accept?)
      && (d.Accept? ==> OptionalAuthUser(header, tenantId, clientId, verify) == Some(d.user))
  {
  }

  /** An Express exchange as the middlewares see it: the user attached to
      the request, the response status and JSON body if one was sent, and
      how many times `next` has been called. */
  class Exchange {
    var user: Option<User>
    var status: Option<int>
    var body: Option<Json>
    var nextCalls: nat

    constructor ()
      ensures user.None? && status.None? && body.None? && nextCalls == 0
    {
      user := None;
      status := None;
      body := None;
      nextCalls := 0;
    }

    /** `res.status(code).json(json)`. */
    method Respond(code: int, json: Json)
      modifies this
      ensures status == Some(code) && body == Some(json)
      ensures user == old(user) && nextCalls == old(nextCalls)
    {
      status := Some(code);
      body := Some(json);
    }

    /** `next()`. */
    method Next()
      modifies this
      ensures nextCalls == old(nextCalls) + 1
      ensures user == old(user) && status == old(status) && body == old(body)
    {
      nextCalls := nextCalls + 1;
    }
  }

  /** `requireAuth` (lines 48-90): a refused request gets its 401 and never
      reaches `next`; an accepted one gets its user and reaches `next` once,
      with no response sent by the middleware. */
  method RequireAuth(ex: Exchange, header: Option<string>, tenantId: string, clientId: string, verify: Verifier)
    modifies ex
    ensures match RequireAuthDecision(header, tenantId, clientId, verify)
      case Reject(code, json) =>
        ex.status == Some(code) && ex.body == Some(json) && ex.user == old(ex.user) && ex.nextCalls == old(ex.nextCalls)
      case Accept(u) =>
        ex.user == Some(u) && ex.nextCalls == old(ex.nextCalls) + 1 && ex.status == old(ex.status) && ex.body == old(ex.body)
  {
    if header.None? || !Text.StartsWith(header.value, BearerPrefix) {
      ex.Respond(401, MissingHeaderBody());
      return;
    }
    var token := header.value[7..];
    var verified := verify(token, Options(tenantId, clientId));
    if verified.Err? {
      ex.Respond(401, InvalidTokenBody(verified.error));
      return;
    }
    ex.user := Some(UserOf(verified.value));
    ex.Next();
  }

  /** `optionalAuth` (lines 95-130): `next` is reached exactly once
      whatever the header holds; the user is attached only for a token
      that verifies, and no response is ever sent. */
  method OptionalAuth(ex: Exchange, header: Option<string>, tenantId: string, clientId: string, verify: Verifier)
    modifies ex
    ensures ex.nextCalls == old(ex.nextCalls) + 1
    ensures ex.status == old(ex.status) && ex.body == old(ex.body)
    ensures var u := OptionalAuthUser(header, tenantId, clientId, verify);
      ex.user == if u.Some? then u else old(ex.user)
  {
    if header.None? || !Text.StartsWith(header.value, BearerPrefix) {
      ex.Next();
      return;
    }
    var token := header.value[7..];
    var verified := verify(token, Options(tenantId, clientId));
    if verified.Ok? {
      ex.user := Some(UserOf(verified.value));
    }
    ex.Next();
  }
}
