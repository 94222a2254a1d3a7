/**
 * The backend's gatekeeping: `authenticate` reads the bearer token from the
 * `Authorization` header and verifies it, `requireRole` admits only the
 * listed roles. `jwt.verify` with the server's secret is an oracle that
 * gives the token's claims, or nothing when it throws.
 */
module AuthMiddleware {
  import opened Wrappers
  import opened Text

  /** The payload the server signs into a token. */
  datatype Claims = Claims(userId: int, role: string)

  /** What a middleware does with a request: answers it with an error, or
      calls `next` (once), for `authenticate` with `req.userId` and
      `req.userRole` set. */
  datatype Outcome = Reject(status: int, error: string) | Next(userId: int, userRole: string)

  datatype Gate = Pass | Deny(status: int, error: string)

  const Scheme: string := "Bearer "
  const NoTokenMessage: string := "Токен не предоставлен"
  const InvalidTokenMessage: string := "Недействительный токен"
  const ForbiddenMessage: string := "Недостаточно прав"

  /** A header the bearer check lets through. */
  predicate HasScheme(header: Option<string>) {
    header.Some? && StartsWith(header.value, Scheme)
  }

  /** `authHeader.split(' ')[1]`: the second space-separated field, which
      exists because the header starts with `Bearer `. */
  function HeaderToken(header: string): string
    requires StartsWith(header, Scheme)
  {
    assert header[6] == ' ';
    Split(header, ' ')[1]
  }

  /** `authenticate`: a missing header or one without the scheme is refused
      before any verification, a token that does not verify is refused as
      invalid, and only a verified token reaches `next`, carrying its own
      claims. */
  function Authenticate(header: Option<string>, verify: string -> Option<Claims>): (r: Outcome)
    ensures r == Reject(401, NoTokenMessage) <==> !HasScheme(header)
    ensures r == Reject(401, InvalidTokenMessage) <==>
              HasScheme(header) && verify(HeaderToken(header.value)).None?
    ensures r.Next? <==> HasScheme(header) && verify(HeaderToken(header.value)).Some?
    ensures r.Next? ==>
              var claims := verify(HeaderToken(header.value)).value;
              r.userId == claims.userId && r.userRole == claims.role
  {
    if header.None? || !StartsWith(header.value, Scheme) then Reject(401, NoTokenMessage)
    else
      match verify(HeaderToken(header.value))
      case Some(claims) => Next(claims.userId, claims.role)
      case None => Reject(401, InvalidTokenMessage)
  }

  /** `requireRole(...roles)`: passes exactly the listed roles; any other
      role is refused with 403. */
  function RequireRole(roles: seq<string>, userRole: string): (r: Gate)
    ensures r == Pass <==> userRole in roles
    ensures r != Pass ==> r == Deny(403, ForbiddenMessage)
  {
    if userRole in roles then Pass else Deny(403, ForbiddenMessage)
  }

  /** The admin router's chain, `authenticate` then `requireRole('admin')`:
      what the handler behind it sees, or the answer the client gets. */
  function AdminChain(header: Option<string>, verify: string -> Option<Claims>): Outcome {
    match Authenticate(header, verify)
    case Reject(status, error) => Reject(status, error)
    case Next(userId, userRole) =>
      match RequireRole(["admin"], userRole)
      case Pass => Next(userId, userRole)
      case Deny(status, error) => Reject(status, error)
  }

  /** An admin handler runs exactly for a verified token whose role is
      `admin`; a verified token of another role gets 403 and every other
      request 401. */
  lemma AdminChainAdmitsOnlyAdmins(header: Option<string>, verify: string -> Option<Claims>)
    ensures AdminChain(header, verify).Next? <==>
              HasScheme(header) && verify(HeaderToken(header.value)).Some?
              && verify(HeaderToken(header.value)).value.role == "admin"
    ensures AdminChain(header, verify).Next? ==> AdminChain(header, verify).userRole == "admin"
    ensures AdminChain(header, verify) == Reject(403, ForbiddenMessage) <==>
              HasScheme(header) && verify(HeaderToken(header.value)).Some?
              && verify(HeaderToken(header.value)).value.role != "admin"
  {
    if HasScheme(header) {
      var token := HeaderToken(header.value);
      if verify(token).Some? {
        assert Authenticate(header, verify) == Next(verify(token).value.userId, verify(token).value.role);
      }
    }
  }
}

/**
 * The header the frontend's client builds and the backend's `authenticate`
 * reads, taken together.
 */
module BearerRoundTrip {
  import opened Wrappers
  import opened Text
  import opened Browser
  import ApiClient
  import opened AuthMiddleware

  /** A token without spaces survives the trip: the header built for it has
      the scheme, and the server reads back exactly that token. */
  lemma HeaderRoundTrip(token: string)
    requires ' ' !in token
    ensures StartsWith(ApiClient.BearerHeader(token), Scheme)
    ensures HeaderToken(ApiClient.BearerHeader(token)) == token
  {
    var header := ApiClient.BearerHeader(token);
    assert header == "Bearer" + [' '] + token;
    assert ' ' !in "Bearer";
    SplitField("Bearer", ' ', token);
    SplitWhole(token, ' ');
  }

  /** A token with a space in it does not: the server reads only the part
      before the first space. */
  lemma SpacedTokenIsCut(a: string, b: string)
    requires ' ' !in a
    ensures StartsWith(ApiClient.BearerHeader(a + " " + b), Scheme)
    ensures HeaderToken(ApiClient.BearerHeader(a + " " + b)) == a
  {
    var header := ApiClient.BearerHeader(a + " " + b);
    assert header == "Bearer" + [' '] + (a + [' '] + b);
    assert ' ' !in "Bearer";
    SplitField("Bearer", ' ', a + [' '] + b);
    SplitField(a, ' ', b);
  }

  /** Every request the client sends while a space-free token is stored is
      authenticated by the server exactly when that token verifies, and then
      as the user the token names. */
  lemma StoredTokenAuthenticates(items: map<string, Stored>, config: ApiClient.Config,
                                 verify: string -> Option<Claims>)
    requires ApiClient.StoredToken(items).Some?
    requires ' ' !in ApiClient.StoredToken(items).value
    ensures var token := ApiClient.StoredToken(items).value;
      var sent := ApiClient.RequestInterceptor(items, config);
      && ApiClient.Authorization in sent.headers
      && (Authenticate(Some(sent.headers[ApiClient.Authorization]), verify).Next? <==> verify(token).Some?)
      && (verify(token).Some? ==>
            Authenticate(Some(sent.headers[ApiClient.Authorization]), verify)
              == Next(verify(token).value.userId, verify(token).value.role))
  {
    HeaderRoundTrip(ApiClient.StoredToken(items).value);
  }

  /** Without a stored token the client sends no header of its own, and a
      request that carries none is refused before any verification. */
  lemma NoStoredTokenIsRefused(items: map<string, Stored>, config: ApiClient.Config,
                               verify: string -> Option<Claims>)
    requires ApiClient.StoredToken(items).None?
    requires ApiClient.Authorization !in config.headers
    ensures ApiClient.Authorization !in ApiClient.RequestInterceptor(items, config).headers
    ensures Authenticate(None, verify) == Reject(401, NoTokenMessage)
  {
  }
}
