/**
 * The admin session gate: an `Authorization: Bearer <token>` header
 * (section 2.1 of RFC 6750), verified with the admin secret only.
 */
module AdminMid {
  import opened Records
  import opened Crypto
  import opened Text
  import opened Http

  const BearerPrefix := "Bearer "

  /**
   * The token the gate hands to `jwt.verify`: None when the header is missing
   * or does not start with exactly "Bearer ", otherwise `split(' ')[1]`, which
   * is the longest space-free prefix of what follows "Bearer ".
   */
  function BearerToken(authorization: Option<string>): (r: Option<string>)
    ensures r.None? <==> authorization.None? || !StartsWith(authorization.value, BearerPrefix)
    ensures r.Some? ==>
      var rest := authorization.value[|BearerPrefix|..];
      && r.value <= rest
      && ' ' !in r.value
      && (|r.value| == |rest| || rest[|r.value|] == ' ')
  {
    if authorization.None? || !StartsWith(authorization.value, BearerPrefix) then None
    else
      var header := authorization.value;
      var rest := header[|BearerPrefix|..];
      assert header == "Bearer" + [' '] + rest;
      SplitAfterWord("Bearer", ' ', rest);
      FirstFieldIsLongestPrefix(rest, ' ');
      Some(Split(header, ' ')[1])
  }

  /** `decoded._id || decoded.id`. */
  function AdminIdOf(decoded: Claims): (r: Option<Id>)
    ensures decoded.objectId.Some? ==> r == decoded.objectId
    ensures decoded.objectId.None? ==> r == decoded.id
  {
    if decoded.objectId.Some? then decoded.objectId else decoded.id
  }

  /**
   * The gate's decision. It rejects with 401 exactly when there is no bearer
   * token or the token does not verify under the admin secret; otherwise it
   * admits with the admin id the token carries.
   */
  function AdminGate(authorization: Option<string>, verify: Verifier): (g: Gate<Option<Id>>)
    ensures g.Reject? <==>
      BearerToken(authorization).None? || verify(AdminSecret, BearerToken(authorization).value).None?
    ensures g.Reject? ==> g.res.status == UNAUTHORIZED && g.res.cookies == []
    ensures g.Admit? ==> g.identity == AdminIdOf(verify(AdminSecret, BearerToken(authorization).value).value)
  {
    match BearerToken(authorization)
    case None => Reject(Reply(UNAUTHORIZED, Error("No token provided")))
    case Some(token) =>
      match verify(AdminSecret, token)
      case None => Reject(Reply(UNAUTHORIZED, Error("Invalid token or expired token")))
      case Some(decoded) => Admit(AdminIdOf(decoded))
  }

  /**
   * `adminMiddleware(req, res, next)`: answers 401 and leaves the request
   * alone, or sets `req.adminId` and calls `next` once; never both.
   */
  method AdminMiddleware(req: Request, verify: Verifier) returns (out: Outcome)
    modifies req`adminId
    ensures AdminGate(req.authorization, verify).Reject? ==>
      out == Responded(AdminGate(req.authorization, verify).res) && req.adminId == old(req.adminId)
    ensures AdminGate(req.authorization, verify).Admit? ==>
      out == Next && req.adminId == AdminGate(req.authorization, verify).identity
  {
    var token := BearerToken(req.authorization);
    if token.None? {
      return Responded(Reply(UNAUTHORIZED, Error("No token provided")));
    }
    var decoded := verify(AdminSecret, token.value);
    if decoded.None? {
      return Responded(Reply(UNAUTHORIZED, Error("Invalid token or expired token")));
    }
    req.adminId := AdminIdOf(decoded.value);
    out := Next;
  }

  /** "Bearer  x" (two spaces) yields the empty token, which is then handed to verify. */
  lemma DoubleSpaceGivesEmptyToken()
    ensures BearerToken(Some("Bearer  x")) == Some("")
  {
    var rest := "Bearer  x"[|BearerPrefix|..];
    assert rest == " x";
  }

  /** A space-free token sent as "Bearer <token>" reaches verify unchanged. */
  lemma {:induction false} BearerRoundTrip(token: string)
    requires ' ' !in token
    ensures BearerToken(Some(BearerPrefix + token)) == Some(token)
  {
    var header := BearerPrefix + token;
    assert header[..|BearerPrefix|] == BearerPrefix;
    assert header[|BearerPrefix|..] == token;
    assert header == "Bearer" + [' '] + token;
    SplitAfterWord("Bearer", ' ', token);
    SplitWithoutSeparator(token, ' ');
  }

  /** The gate consults the verifier only under the admin secret. */
  lemma AdminGateUsesOnlyAdminSecret(authorization: Option<string>, v1: Verifier, v2: Verifier)
    requires forall t :: v1(AdminSecret, t) == v2(AdminSecret, t)
    ensures AdminGate(authorization, v1) == AdminGate(authorization, v2)
  {
  }
}
