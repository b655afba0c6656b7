/** The bearer-token check in front of the private routes: the header must
    start with "Bearer ", the token is its second space-separated segment,
    and the decoded payload is attached to the request. */
module AuthMiddleware {
  import opened Common
  import opened UserModel
  import opened AuthController

  /** The middleware's decision. */
  datatype Decision =
    | Reject(message: string)     // 401 with `{message}`, `next` not called
    | Accept(user: Claims)        // `req.user` set, `next` called once

  const BearerPrefix: string := "Bearer "

  /** `authHeader.split(" ")[1]`; the check before it guarantees a second
      segment. */
  function BearerToken(header: string): (t: string)
    requires StartsWith(header, BearerPrefix)
    ensures ' ' !in t
  {
    var rest := header[|BearerPrefix|..];
    assert header == "Bearer" + [' '] + rest;
    SplitAfterFirst("Bearer", ' ', rest);
    Split(header, ' ')[1]
  }

  /** The decision for a request with this Authorization header, where
      `verify` returns the decoded payload or none when it would throw. */
  function Authenticate(header: Option<string>, verify: string -> Option<Claims>): (d: Decision)
    ensures header.None? ==> d == Reject("Unauthorized")
    ensures header.Some? && !StartsWith(header.value, BearerPrefix) ==> d == Reject("Unauthorized")
    ensures d.Accept? <==> header.Some? && StartsWith(header.value, BearerPrefix) && verify(BearerToken(header.value)).Some?
    ensures d.Accept? ==> d.user == verify(BearerToken(header.value)).value
    ensures d.Reject? ==> d.message in {"Unauthorized", "Invalid token"}
  {
    if header.None? || header.value == "" || !StartsWith(header.value, BearerPrefix) then
      Reject("Unauthorized")
    else
      match verify(BearerToken(header.value))
      case None => Reject("Invalid token")
      case Some(decoded) => Accept(decoded)
  }

  /** The header the client attaches, `Bearer ${token}`, carries back
      exactly the token when the token holds no space. */
  lemma ClientHeaderRoundTrip(token: string)
    requires ' ' !in token
    ensures StartsWith(BearerPrefix + token, BearerPrefix)
    ensures BearerToken(BearerPrefix + token) == token
  {
    var h := BearerPrefix + token;
    assert h[..|BearerPrefix|] == BearerPrefix;
    assert h == "Bearer" + [' '] + token;
    SplitAfterFirst("Bearer", ' ', token);
  }

  /** A token the verifier accepts, sent the way the client sends it, lets
      the request through with the decoded payload. */
  lemma SignedTokenAccepted(token: string, verify: string -> Option<Claims>, claims: Claims)
    requires ' ' !in token && verify(token) == Some(claims)
    ensures Authenticate(Some(BearerPrefix + token), verify) == Accept(claims)
  {
    ClientHeaderRoundTrip(token);
  }

  /** The token of a `register` (201) or `login` (200) reply for user `u`,
      sent back by the client, is accepted as that user's internal ID and
      e-mail, given a verifier that decodes what `sign` signs and tokens
      that hold no space, as a JWT does not. */
  lemma WelcomeTokenAccepted(status: nat, sign: Claims -> string, verify: string -> Option<Claims>, u: User)
    requires forall c :: ' ' !in sign(c) && verify(sign(c)) == Some(c)
    ensures Authenticate(Some(BearerPrefix + Welcome(status, sign, u).body.token), verify)
      == Accept(Claims(u.internalId, u.email))
  {
    var claims := Claims(u.internalId, u.email);
    SignedTokenAccepted(sign(claims), verify, claims);
  }

  /** A successful login hands out a token the middleware accepts as the
      internal ID and e-mail of the user who logged in. */
  lemma LoginTokenAccepted(table: UserTable, sign: Claims -> string, verify: string -> Option<Claims>,
                           email: string, password: string)
    requires table.Valid()
    requires forall c :: ' ' !in sign(c) && verify(sign(c)) == Some(c)
    requires Login(table, true, sign, email, password).status == 200
    ensures exists u ::
      && u in table.ListUsers() && u.email == email && table.bcrypt.compare(password, u.password)
      && Authenticate(Some(BearerPrefix + Login(table, true, sign, email, password).body.token), verify)
           == Accept(Claims(u.internalId, email))
  {
    var w :| w in table.ListUsers() && w.email == email && table.bcrypt.compare(password, w.password)
      && Login(table, true, sign, email, password) == Welcome(200, sign, w);
    WelcomeTokenAccepted(200, sign, verify, w);
  }

  /** A request as far as the middleware touches it. */
  class Request {
    const authorization: Option<string>
    var user: Option<Claims>

    constructor (authorization: Option<string>)
      ensures this.authorization == authorization && user == None
    {
      this.authorization := authorization;
      user := None;
    }
  }

  /** `authMiddleware`: answer 401, or set `req.user` and call `next`. The
      result is the status and message written, or none when `next` was
      called. */
  method Run(req: Request, verify: string -> Option<Claims>) returns (reply: Option<(nat, string)>)
    modifies req
    ensures var d := Authenticate(req.authorization, verify);
      && (d.Reject? ==> reply == Some((401, d.message)) && req.user == old(req.user))
      && (d.Accept? ==> reply == None && req.user == Some(d.user))
  {
    var d := Authenticate(req.authorization, verify);
    if d.Reject? {
      return Some((401, d.message));
    }
    req.user := Some(d.user);
    reply := None;
  }
}
