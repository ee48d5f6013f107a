/** The signed-token revision of the authorization middleware
    (middlewares/authMiddleware.js). Signature and expiry checking is a parameter. */
module TokenAuth {
  import opened Basics
  import opened Text
  import opened Http

  const BearerPrefix: string := "Bearer "

  /** The decoded token payload as the tests sign it: `{ id, username, role }`. */
  datatype Claims = Claims(id: string, username: Option<string>, role: Option<string>)

  /** `jwt.verify(token, secret)` with the server's secret: the payload, or None when it throws. */
  type Verifier = string -> Option<Claims>

  const NoToken: Response := Response(401, Msg("Access denied, no token provided."))
  const BadToken: Response := Response(401, Msg("Invalid or expired token."))
  const NotAdmin: Response := Response(403, Msg("Access denied"))

  /** `req.header('Authorization')?.replace('Bearer ', '')`. */
  function ExtractToken(header: Option<string>): (r: Option<string>)
    ensures r.Some? <==> header.Some?
    ensures header.Some? && IndexOf(header.value, BearerPrefix).None? ==> r == header
    ensures header.Some? && IndexOf(header.value, BearerPrefix).Some? ==> |r.value| == |header.value| - |BearerPrefix|
  {
    match header
    case None => None
    case Some(h) => Some(ReplaceFirst(h, BearerPrefix, ""))
  }

  datatype Decision = Authenticated(claims: Claims) | Rejected(response: Response)

  /** The decision of `authenticateToken`: a missing or empty token is "no token", a token
      the verifier refuses is "invalid", and only a verified token authenticates. */
  function Authenticate(header: Option<string>, verify: Verifier): (d: Decision)
    ensures d.Rejected? ==> d.response.status == 401
    ensures d.Authenticated? <==>
              header.Some? && ExtractToken(header).value != "" && verify(ExtractToken(header).value).Some?
    ensures d.Authenticated? ==> d.claims == verify(ExtractToken(header).value).value
    ensures (header.None? || ExtractToken(header) == Some("")) ==> d == Rejected(NoToken)
    ensures header.Some? && ExtractToken(header).value != "" && verify(ExtractToken(header).value).None? ==>
              d == Rejected(BadToken)
  {
    match ExtractToken(header)
    case None => Rejected(NoToken)
    case Some(token) =>
      if token == "" then Rejected(NoToken)
      else match verify(token)
        case None => Rejected(BadToken)
        case Some(claims) => Authenticated(claims)
  }

  /** The header a client sends, `Bearer <token>`, yields exactly `<token>`,
      even if the token itself contains "Bearer ". */
  lemma BearerHeaderYieldsToken(token: string)
    ensures ExtractToken(Some(BearerPrefix + token)) == Some(token)
  {
    ReplaceFirstOfPrefixed(BearerPrefix, "", token);
    assert "" + token == token;
  }

  /** A header that is exactly `Bearer ` carries no token. */
  lemma BareBearerHasNoToken(verify: Verifier)
    ensures Authenticate(Some(BearerPrefix), verify) == Rejected(NoToken)
  {
    BearerHeaderYieldsToken("");
  }

  /** As written, the prefix is not required to be a prefix: a header in which
      "Bearer " occurs nowhere is used whole as the token, and otherwise its first
      occurrence is cut out wherever it stands. */
  lemma PrefixNeedNotLead(h: string)
    ensures (forall k :: 0 <= k <= |h| ==> !OccursAt(h, BearerPrefix, k)) ==> ExtractToken(Some(h)) == Some(h)
    ensures IndexOf(h, BearerPrefix).Some? ==>
              var i := IndexOf(h, BearerPrefix).value;
              ExtractToken(Some(h)) == Some(h[..i] + h[i + |BearerPrefix|..])
  {
    match IndexOf(h, BearerPrefix)
    case None =>
    case Some(i) =>
      assert OccursAt(h, BearerPrefix, i);
      assert h[..i] + "" == h[..i];
  }

  /** Two headers that show it: "abc" is taken whole, and "xBearer y" gives the token "xy". */
  lemma PrefixNeedNotLeadExamples()
    ensures ExtractToken(Some("abc")) == Some("abc")
    ensures ExtractToken(Some("xBearer y")) == Some("xy")
  {
    PrefixNeedNotLead("abc");
    PrefixNeedNotLead("xBearer y");
    var h := "xBearer y";
    assert !OccursAt(h, BearerPrefix, 0) by { assert h[0] != BearerPrefix[0]; }
    assert OccursAt(h, BearerPrefix, 1) by { assert h[1..8] == BearerPrefix; }
    assert IndexOf(h, BearerPrefix) == Some(1);
    assert h[..1] + h[8..] == "xy";
  }

  /** The request object this middleware reads and writes. */
  class Request {
    const authorization: Option<string>
    var user: Option<Claims>

    constructor(authorization: Option<string>)
      ensures this.authorization == authorization && user == None
    {
      this.authorization := authorization;
      user := None;
    }
  }

  /** `authenticateToken`: on success `req.user` is the decoded payload and `next` is called;
      otherwise the 401 answer is sent and `req.user` is left as it was. */
  method AuthenticateToken(req: Request, verify: Verifier) returns (o: Outcome)
    modifies req
    ensures match Authenticate(req.authorization, verify)
      case Authenticated(claims) => o == Next && req.user == Some(claims)
      case Rejected(resp) => o == Halt(resp) && req.user == old(req.user)
  {
    var d := Authenticate(req.authorization, verify);
    match d
    case Authenticated(claims) =>
      req.user := Some(claims);
      o := Next;
    case Rejected(resp) =>
      o := Halt(resp);
  }

  /** The role gate of `isAdmin`: `next` exactly for a user whose role is "admin". */
  function AdminGate(user: Option<Claims>): (o: Outcome)
    ensures o == Next <==> user.Some? && user.value.role == Some("admin")
    ensures o != Next ==> o == Halt(NotAdmin)
  {
    if user.Some? && user.value.role == Some("admin") then Next else Halt(NotAdmin)
  }

  /** `isAdmin`: reads `req.user` and changes nothing. */
  method IsAdmin(req: Request) returns (o: Outcome)
    ensures o == AdminGate(req.user)
  {
    o := AdminGate(req.user);
  }

  /** The two middlewares in sequence, for any header: they pass exactly when the header
      yields a non-empty token, with or without the bearer prefix, whose payload the
      verifier accepts with role "admin". */
  lemma AdminRouteAdmitsAnyHeader(header: Option<string>, verify: Verifier)
    ensures var d := Authenticate(header, verify);
      (d.Authenticated? && AdminGate(Some(d.claims)) == Next)
      <==> header.Some? && ExtractToken(header).value != ""
           && verify(ExtractToken(header).value).Some?
           && verify(ExtractToken(header).value).value.role == Some("admin")
  {
  }

  /** For the header a client sends, `Bearer <token>`, the two middlewares pass exactly
      when the token is non-empty and the verifier accepts it with role "admin". */
  lemma AdminRouteAdmits(token: string, verify: Verifier)
    ensures var d := Authenticate(Some(BearerPrefix + token), verify);
      (d.Authenticated? && AdminGate(Some(d.claims)) == Next)
      <==> token != "" && verify(token).Some? && verify(token).value.role == Some("admin")
  {
    BearerHeaderYieldsToken(token);
  }
}
