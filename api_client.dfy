/**
 * The frontend's HTTP client: every request is prefixed with `/api`, sent
 * as JSON, and carries `Authorization: Bearer <token>` when a token is
 * stored; every failed response is passed on to the caller, and a 401
 * first ends the stored session and sends the browser to the login page.
 *
 * The server is an oracle from the request to its outcome.
 */
module ApiClient {
  import opened Wrappers
  import opened Browser

  const BaseUrl: string := "/api"
  const ContentType: string := "Content-Type"
  const Authorization: string := "Authorization"
  const Unauthorized: int := 401

  /** The JSON bodies the session code sends. */
  datatype Body =
    | NoBody
    | LoginBody(email: string, password: string)
    | RegisterBody(email: string, password: string, name: string)

  datatype Config = Config(url: string, headers: map<string, string>, body: Body)

  /** A failed request: the status of the server's response, or `None`
      when there was no response at all. */
  datatype HttpError = HttpError(status: Option<int>)

  datatype Outcome<+T> = Ok(data: T) | Err(error: HttpError)

  /** A request as the client instance builds it, before the interceptors. */
  function NewConfig(path: string, body: Body): Config {
    Config(BaseUrl + path, map[ContentType := "application/json"], body)
  }

  /** The token the frontend uses: the string stored under `token` when it is
      truthy, that is, not empty. */
  function StoredToken(items: map<string, Stored>): (r: Option<string>)
    ensures r.Some? ==> TokenKey in items && items[TokenKey] == Text(r.value) && r.value != ""
    ensures r.None? ==> TokenKey !in items || !items[TokenKey].Text? || items[TokenKey].s == ""
  {
    if TokenKey in items && items[TokenKey].Text? && items[TokenKey].s != "" then
      Some(items[TokenKey].s)
    else
      None
  }

  function BearerHeader(token: string): string {
    "Bearer " + token
  }

  /** The request interceptor: the header is set exactly when a token is
      stored, to `Bearer ` and that token; nothing else in the request
      changes, and without a token the request goes out as it was. */
  function RequestInterceptor(items: map<string, Stored>, config: Config): (r: Config)
    ensures r.url == config.url && r.body == config.body
    ensures Authorization in r.headers && Authorization !in config.headers ==> StoredToken(items).Some?
    ensures StoredToken(items).Some? ==>
              && Authorization in r.headers
              && r.headers[Authorization] == "Bearer " + StoredToken(items).value
              && forall h :: h in config.headers && h != Authorization ==>
                   h in r.headers && r.headers[h] == config.headers[h]
    ensures StoredToken(items).None? ==> r == config
  {
    match StoredToken(items)
    case Some(token) => config.(headers := config.headers[Authorization := BearerHeader(token)])
    case None => config
  }

  /** The response interceptor. A success and a failure both reach the
      caller unchanged; a 401 additionally removes the stored token and user
      and navigates to the login page, and nothing else touches the storage
      or the location. */
  method HandleResponse<T>(outcome: Outcome<T>, storage: LocalStorage, window: Window)
    returns (result: Outcome<T>)
    modifies storage, window
    ensures result == outcome
    ensures outcome.Err? && outcome.error.status == Some(Unauthorized) ==>
              storage.items == old(storage.items) - {TokenKey, UserKey} && window.href == LoginPath
    ensures !(outcome.Err? && outcome.error.status == Some(Unauthorized)) ==>
              storage.items == old(storage.items) && window.href == old(window.href)
  {
    if outcome.Err? && outcome.error.status == Some(Unauthorized) {
      storage.RemoveItem(TokenKey);
      storage.RemoveItem(UserKey);
      assert storage.items == old(storage.items) - {TokenKey, UserKey};
      window.href := LoginPath;
    }
    result := outcome;
  }

  /** A request through the client: the interceptor adds the header from the
      storage as it is when the request leaves, the server answers, and the
      response interceptor runs. */
  method Send<T>(config: Config, storage: LocalStorage, window: Window, server: Config -> Outcome<T>)
    returns (request: Config, result: Outcome<T>)
    modifies storage, window
    ensures request == RequestInterceptor(old(storage.items), config)
    ensures result == server(request)
    ensures result.Err? && result.error.status == Some(Unauthorized) ==>
              storage.items == old(storage.items) - {TokenKey, UserKey} && window.href == LoginPath
    ensures !(result.Err? && result.error.status == Some(Unauthorized)) ==>
              storage.items == old(storage.items) && window.href == old(window.href)
  {
    request := RequestInterceptor(storage.items, config);
    result := HandleResponse(server(request), storage, window);
  }

  /** After the 401 handling no token is stored, so no later request carries
      the header until the user signs in again. */
  lemma NoHeaderAfterUnauthorized(items: map<string, Stored>, config: Config)
    ensures RequestInterceptor(items - {TokenKey, UserKey}, config) == config
  {
  }
}
