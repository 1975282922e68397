/** The server's authentication: the `authenticateToken` middleware in front of every
    admin route, and the login route. The JWT and bcrypt primitives are parameters:
    `verify` stands for `jwt.verify` with the server's secret (the token's username, or
    None when the signature or the 24-hour expiry check fails), `passwordMatches` for
    `bcrypt.compare`, and `sign` for `jwt.sign` of the user's id and name. */
module ServerAuth {
  import opened Common
  import opened Text

  /** `authHeader && authHeader.split(' ')[1]`, kept only when truthy: the second
      space-separated part of the Authorization header, when there is one and it is
      not empty. */
  function BearerToken(header: Option<string>): (token: Option<string>)
    ensures token.Some? <==>
      header.Some? && |Split(header.value, ' ')| >= 2 && Split(header.value, ' ')[1] != ""
    ensures token.Some? ==> token.value == Split(header.value, ' ')[1] && ' ' !in token.value
  {
    match header
    case None => None
    case Some(h) =>
      if h == "" then None
      else
        var parts := Split(h, ' ');
        if |parts| < 2 || parts[1] == "" then None else Some(parts[1])
  }

  /** The header a client builds from a token round-trips: the server reads back the
      token, provided the token holds no space. */
  lemma {:induction false} BearerHeaderRoundTrip(token: string)
    requires token != "" && ' ' !in token
    ensures BearerToken(Some("Bearer " + token)) == Some(token)
  {
    assert "Bearer " + token == "Bearer" + [' '] + token;
    SplitAtFirst("Bearer", token, ' ');
    SplitWithoutSeparator(token, ' ');
  }

  datatype AuthResult = NoToken | InvalidToken | Authenticated(username: string)

  /** `authenticateToken`: no token is a 401, a token `jwt.verify` rejects is a 403,
      and otherwise the route runs for the token's user. */
  function Authenticate(header: Option<string>, verify: string -> Option<string>): (r: AuthResult)
    ensures r.NoToken? <==> BearerToken(header).None?
    ensures r.InvalidToken? <==> BearerToken(header).Some? && verify(BearerToken(header).value).None?
    ensures r.Authenticated? ==>
      BearerToken(header).Some? && verify(BearerToken(header).value) == Some(r.username)
  {
    match BearerToken(header)
    case None => NoToken
    case Some(token) =>
      match verify(token)
      case None => InvalidToken
      case Some(username) => Authenticated(username)
  }

  /** The HTTP status of a protected route: 401 or 403 from the middleware, otherwise
      the route's own status (200, 400, 404 or 500, never 401 or 403). */
  function GuardedStatus(auth: AuthResult, routeStatus: int): (status: int)
    requires routeStatus != 401 && routeStatus != 403
    ensures status == 401 <==> auth.NoToken?
    ensures status == 403 <==> auth.InvalidToken?
    ensures auth.Authenticated? ==> status == routeStatus
  {
    match auth
    case NoToken => 401
    case InvalidToken => 403
    case Authenticated(_) => routeStatus
  }

  /** A row of the `users` table, keyed by username. */
  datatype User = User(id: int, passwordHash: string)

  datatype LoginReply =
    | LoginRejected(status: int, error: string)
    | LoginAccepted(token: string, username: string)

  const INVALID_CREDENTIALS := "Invalid username or password"

  /** POST /api/auth/login: a token for a known user with the right password; otherwise
      the same 400 and the same message whether the user is unknown or the password is
      wrong. */
  function Login(
    users: map<string, User>, username: string, password: string,
    passwordMatches: (string, string) -> bool, sign: (int, string) -> string
  ): (r: LoginReply)
    ensures r.LoginAccepted? <==> username in users && passwordMatches(password, users[username].passwordHash)
    ensures r.LoginRejected? ==> r == LoginRejected(400, INVALID_CREDENTIALS)
    ensures r.LoginAccepted? ==> r.username == username && r.token == sign(users[username].id, username)
  {
    if username !in users then LoginRejected(400, INVALID_CREDENTIALS)
    else if !passwordMatches(password, users[username].passwordHash) then LoginRejected(400, INVALID_CREDENTIALS)
    else LoginAccepted(sign(users[username].id, username), username)
  }
}
