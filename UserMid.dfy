/**
 * The user session gate: the `jwt` cookie, used as the token as it is and
 * verified with the user secret only.
 */
module UserMid {
  import opened Records
  import opened Crypto
  import opened Http

  const SessionCookie := "jwt"

  /**
   * The gate's decision. It rejects with 401 exactly when the `jwt` cookie is
   * missing or empty, or its value does not verify under the user secret;
   * otherwise it admits with the whole decoded payload.
   */
  function UserGate(cookies: map<string, string>, verify: Verifier): (g: Gate<Claims>)
    ensures g.Reject? <==>
      !Present(Lookup(cookies, SessionCookie)) || verify(UserSecret, cookies[SessionCookie]).None?
    ensures g.Reject? ==> g.res.status == UNAUTHORIZED && g.res.cookies == []
    ensures g.Admit? ==> g.identity == verify(UserSecret, cookies[SessionCookie]).value
  {
    var cookie := Lookup(cookies, SessionCookie);
    if !Present(cookie) then Reject(Reply(UNAUTHORIZED, Error("No token provided")))
    else
      match verify(UserSecret, cookie.value)
      case None => Reject(Reply(UNAUTHORIZED, Error("Invalid token or expired token")))
      case Some(decoded) => Admit(decoded)
  }

  /**
   * `userMiddleware(req, res, next)`: answers 401 and leaves the request
   * alone, or sets `req.user` and calls `next` once; never both.
   */
  method UserMiddleware(req: Request, verify: Verifier) returns (out: Outcome)
    modifies req`user
    ensures UserGate(req.cookies, verify).Reject? ==>
      out == Responded(UserGate(req.cookies, verify).res) && req.user == old(req.user)
    ensures UserGate(req.cookies, verify).Admit? ==>
      out == Next && req.user == Some(UserGate(req.cookies, verify).identity)
  {
    var token := Lookup(req.cookies, SessionCookie);
    if !Present(token) {
      return Responded(Reply(UNAUTHORIZED, Error("No token provided")));
    }
    var decoded := verify(UserSecret, token.value);
    if decoded.None? {
      return Responded(Reply(UNAUTHORIZED, Error("Invalid token or expired token")));
    }
    req.user := decoded;
    out := Next;
  }

  /** The gate consults the verifier only under the user secret. */
  lemma UserGateUsesOnlyUserSecret(cookies: map<string, string>, v1: Verifier, v2: Verifier)
    requires forall t :: v1(UserSecret, t) == v2(UserSecret, t)
    ensures UserGate(cookies, v1) == UserGate(cookies, v2)
  {
  }
}
