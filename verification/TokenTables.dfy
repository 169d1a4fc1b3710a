/** The two token tables, the lifetimes read from the clients table, and the requests
    that tokens are issued for (internal/storage/storage.go, migrations/0001_init.sql). */
module TokenTables {
  import opened Prelude
  import opened AuthRequests

  datatype TokenRow = TokenRow(
    id: string, applicationId: string, subject: string, refreshTokenId: string,
    audience: seq<string>, scopes: seq<string>, expiration: Time)

  datatype RefreshRow = RefreshRow(
    id: string, token: string, authTime: Time, amr: seq<string>, audience: seq<string>,
    userId: string, applicationId: string, expiration: Time, scopes: seq<string>,
    accessToken: string)

  datatype Lifetimes = Lifetimes(access: Time, refresh: Time)

  datatype Tables = Tables(
    tokens: map<string, TokenRow>,
    refreshTokens: map<string, RefreshRow>,
    clients: map<string, Lifetimes>)

  /** The concrete types that reach storage behind the library's token request interface. */
  datatype TokenRequest =
    | FromAuth(auth: AuthRequest)
    | FromRefresh(row: RefreshRow)
    | FromDevice(deviceSubject: string, deviceAudience: seq<string>, deviceScopes: seq<string>)
    | FromExchange(clientId: string, subject: string, audience: seq<string>, scopes: seq<string>)
    | FromJwt(jwtSubject: string, jwtAudience: seq<string>, jwtScopes: seq<string>)
  {
    function Subject(): string {
      match this
      case FromAuth(a) => a.userId
      case FromRefresh(r) => r.userId
      case FromDevice(s, _, _) => s
      case FromExchange(_, s, _, _) => s
      case FromJwt(s, _, _) => s
    }

    function Audience(): seq<string> {
      match this
      case FromAuth(a) => a.Audience()
      case FromRefresh(r) => r.audience
      case FromDevice(_, a, _) => a
      case FromExchange(_, _, a, _) => a
      case FromJwt(_, a, _) => a
    }

    function Scopes(): seq<string> {
      match this
      case FromAuth(a) => a.scopes
      case FromRefresh(r) => r.scopes
      case FromDevice(_, _, s) => s
      case FromExchange(_, _, _, s) => s
      case FromJwt(_, _, s) => s
    }

    /** The application CreateAccessToken books the token on. */
    function AccessApplication(): string {
      match this
      case FromAuth(a) => a.applicationId
      case FromExchange(c, _, _, _) => c
      case FromJwt(_, aud, _) => if |aud| > 0 then aud[0] else ""
      case _ => ""
    }

    /** getInfoFromRequest: only browser logins and refresh requests carry this information. */
    function Application(): string {
      match this
      case FromAuth(a) => a.applicationId
      case FromRefresh(r) => r.applicationId
      case _ => ""
    }

    function AuthTime(): Time {
      match this
      case FromAuth(a) => a.authTime
      case FromRefresh(r) => r.authTime
      case _ => 0
    }

    function Amr(): seq<string> {
      match this
      case FromAuth(a) => a.Amr()
      case FromRefresh(r) => r.amr
      case _ => []
    }
  }

  // ---- What tokens are to say, kind of request by kind of request ------------------------------------

  /** An access token issued on its own: application, subject, audience and scopes. */
  ghost predicate AccessAsked(request: TokenRequest, application: string, subject: string, audience: seq<string>, scopes: seq<string>) {
    match request
    case FromAuth(a) => application == a.applicationId && subject == a.userId && audience == [a.applicationId] && scopes == a.scopes
    case FromRefresh(r) => application == "" && subject == r.userId && audience == r.audience && scopes == r.scopes
    case FromDevice(user, aud, asked) => application == "" && subject == user && audience == aud && scopes == asked
    case FromExchange(client, user, aud, asked) => application == client && subject == user && audience == aud && scopes == asked
    case FromJwt(user, aud, asked) =>
      (aud == [] ==> application == "") && (aud != [] ==> application == aud[0])
      && subject == user && audience == aud && scopes == asked
  }

  /** An access token issued together with a refresh token. */
  ghost predicate PairAsked(request: TokenRequest, application: string, subject: string, audience: seq<string>, scopes: seq<string>) {
    match request
    case FromAuth(a) => application == a.applicationId && subject == a.userId && audience == [a.applicationId] && scopes == a.scopes
    case FromRefresh(r) => application == r.applicationId && subject == r.userId && audience == r.audience && scopes == r.scopes
    case FromDevice(user, aud, asked) => application == "" && subject == user && audience == aud && scopes == asked
    case FromExchange(_, user, aud, asked) => application == "" && subject == user && audience == aud && scopes == asked
    case FromJwt(user, aud, asked) => application == "" && subject == user && audience == aud && scopes == asked
  }

  /** When and how the user of a pair was authenticated; a password is assumed for a login that is done
      and says nothing. */
  ghost predicate SignedInAs(request: TokenRequest, authTime: Time, amr: seq<string>) {
    match request
    case FromAuth(a) =>
      authTime == a.authTime && (a.amr != [] ==> amr == a.amr) && (a.amr == [] ==> amr == if a.done then ["pwd"] else [])
    case FromRefresh(r) => authTime == r.authTime && amr == r.amr
    case _ => authTime == 0 && amr == []
  }

  const FIVE_MINUTES: Time := 300
  const FIVE_HOURS: Time := 18000

  function AccessLifetime(clients: map<string, Lifetimes>, client: string): Time {
    if client in clients && clients[client].access > 0 then clients[client].access else FIVE_MINUTES
  }

  function RefreshLifetime(clients: map<string, Lifetimes>, client: string): Time {
    if client in clients && clients[client].refresh > 0 then clients[client].refresh else FIVE_HOURS
  }

  /** The token row under construction; its expiration still holds the time of the call. */
  function Draft(id: string, application: string, refreshId: string, request: TokenRequest, now: Time): TokenRow {
    TokenRow(id, application, request.Subject(), refreshId, request.Audience(), request.Scopes(), now)
  }

  /** The row createRefreshToken stores for a fresh grant. */
  function FirstRefreshRow(t: TokenRow, amr: seq<string>, authTime: Time, expiration: Time): RefreshRow {
    RefreshRow(t.refreshTokenId, t.refreshTokenId, authTime, amr, t.audience, t.subject,
               t.applicationId, expiration, t.scopes, t.id)
  }

  /** The row renewRefreshToken stores: everything but the ids and the expiration is copied. */
  function RenewedRow(prior: RefreshRow, refreshId: string, accessId: string, expiration: Time): RefreshRow {
    prior.(id := refreshId, token := refreshId, expiration := expiration, accessToken := accessId)
  }
}
