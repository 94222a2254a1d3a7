/**
 * The frontend's session store: the token and the user, read from
 * `localStorage` when the app loads and written back whenever they change.
 */
module AuthStore {
  import opened Wrappers
  import opened Browser
  import ApiClient

  /** What sign-in and registration return: `{token, user}`. */
  datatype AuthData = AuthData(token: string, user: User)

  /** The user stored under `user`: `JSON.parse` of what is there, or `null`
      when nothing is. */
  function StoredUser(items: map<string, Stored>): (r: Option<User>)
    ensures r.Some? <==> UserKey in items && items[UserKey].UserJson?
    ensures r.Some? ==> items[UserKey] == UserJson(r.value)
  {
    if UserKey in items && items[UserKey].UserJson? then Some(items[UserKey].user) else None
  }

  /** `!!token`. */
  predicate Authenticated(token: Option<string>) {
    token.Some? && token.value != ""
  }

  /** The session after `setAuth(t, u)` survives a reload: a store built
      from the storage it leaves has the same user and is authenticated
      exactly when the store that wrote it was. */
  lemma ReloadAfterSetAuth(items: map<string, Stored>, t: string, u: User)
    ensures var after := items[TokenKey := Text(t)][UserKey := UserJson(u)];
      && StoredUser(after) == Some(u)
      && (Authenticated(ApiClient.StoredToken(after)) <==> Authenticated(Some(t)))
      && (t != "" ==> ApiClient.StoredToken(after) == Some(t))
  {
    var after := items[TokenKey := Text(t)][UserKey := UserJson(u)];
    assert after[TokenKey] == Text(t);
  }

  /** After `logout` a reload finds no session either. */
  lemma ReloadAfterLogout(items: map<string, Stored>)
    ensures ApiClient.StoredToken(items - {TokenKey, UserKey}) == None
    ensures StoredUser(items - {TokenKey, UserKey}) == None
  {
  }

  class Session {
    var token: Option<string>
    var user: Option<User>
    const storage: LocalStorage

    /** The store as the app loads it: both fields from the storage, `null`
        when absent (an empty token reads as `null` too). */
    constructor (storage: LocalStorage)
      ensures this.storage == storage
      ensures token == ApiClient.StoredToken(storage.items)
      ensures user == StoredUser(storage.items)
    {
      this.storage := storage;
      token := ApiClient.StoredToken(storage.items);
      user := StoredUser(storage.items);
    }

    /** `isAuthenticated`: a token is held and it is not empty. */
    predicate IsAuthenticated()
      reads this
    {
      Authenticated(token)
    }

    /** Holds the pair and persists both keys; the storage gains exactly
        them. */
    method SetAuth(t: string, u: User)
      modifies this, storage
      ensures token == Some(t) && user == Some(u)
      ensures storage.items == old(storage.items)[TokenKey := Text(t)][UserKey := UserJson(u)]
      ensures IsAuthenticated() <==> t != ""
    {
      token := Some(t);
      user := Some(u);
      storage.SetItem(TokenKey, Text(t));
      storage.SetItem(UserKey, UserJson(u));
    }

    /** Forgets the pair and removes both keys: the store is signed out. */
    method Logout()
      modifies this, storage
      ensures token == None && user == None
      ensures storage.items == old(storage.items) - {TokenKey, UserKey}
      ensures !IsAuthenticated()
    {
      token := None;
      user := None;
      storage.RemoveItem(TokenKey);
      storage.RemoveItem(UserKey);
      assert storage.items == old(storage.items) - {TokenKey, UserKey};
    }

    /** Posts the credentials and, when the server accepts them, holds and
        persists exactly the token and user it returned; a failure is passed
        on and leaves the held pair as it was. */
    method Authorize(path: string, body: ApiClient.Body, window: Window,
                     server: ApiClient.Config -> ApiClient.Outcome<AuthData>)
      returns (request: ApiClient.Config, result: ApiClient.Outcome<AuthData>)
      modifies this, storage, window
      ensures request == ApiClient.RequestInterceptor(old(storage.items), ApiClient.NewConfig(path, body))
      ensures result == server(request)
      ensures result.Ok? ==>
                && token == Some(result.data.token) && user == Some(result.data.user)
                && storage.items == old(storage.items)[TokenKey := Text(result.data.token)]
                                                      [UserKey := UserJson(result.data.user)]
                && window.href == old(window.href)
      ensures result.Err? ==> token == old(token) && user == old(user)
      ensures result.Err? && result.error.status == Some(ApiClient.Unauthorized) ==>
                storage.items == old(storage.items) - {TokenKey, UserKey} && window.href == LoginPath
      ensures result.Err? && result.error.status != Some(ApiClient.Unauthorized) ==>
                storage.items == old(storage.items) && window.href == old(window.href)
    {
      request, result := ApiClient.Send(ApiClient.NewConfig(path, body), storage, window, server);
      if result.Ok? {
        SetAuth(result.data.token, result.data.user);
      }
    }

    /** `login(email, password)`. */
    method Login(email: string, password: string, window: Window,
                 server: ApiClient.Config -> ApiClient.Outcome<AuthData>)
      returns (request: ApiClient.Config, result: ApiClient.Outcome<AuthData>)
      modifies this, storage, window
      ensures request == ApiClient.RequestInterceptor(old(storage.items),
                           ApiClient.NewConfig("/auth/login", ApiClient.LoginBody(email, password)))
      ensures result == server(request)
      ensures result.Ok? ==>
                && token == Some(result.data.token) && user == Some(result.data.user)
                && storage.items == old(storage.items)[TokenKey := Text(result.data.token)]
                                                      [UserKey := UserJson(result.data.user)]
                && window.href == old(window.href)
      ensures result.Err? ==> token == old(token) && user == old(user)
      ensures result.Err? && result.error.status == Some(ApiClient.Unauthorized) ==>
                storage.items == old(storage.items) - {TokenKey, UserKey} && window.href == LoginPath
      ensures result.Err? && result.error.status != Some(ApiClient.Unauthorized) ==>
                storage.items == old(storage.items) && window.href == old(window.href)
    {
      request, result := Authorize("/auth/login", ApiClient.LoginBody(email, password), window, server);
    }

    /** `register(email, password, name)`. */
    method Register(email: string, password: string, name: string, window: Window,
                    server: ApiClient.Config -> ApiClient.Outcome<AuthData>)
      returns (request: ApiClient.Config, result: ApiClient.Outcome<AuthData>)
      modifies this, storage, window
      ensures request == ApiClient.RequestInterceptor(old(storage.items),
                           ApiClient.NewConfig("/auth/register", ApiClient.RegisterBody(email, password, name)))
      ensures result == server(request)
      ensures result.Ok? ==>
                && token == Some(result.data.token) && user == Some(result.data.user)
                && storage.items == old(storage.items)[TokenKey := Text(result.data.token)]
                                                      [UserKey := UserJson(result.data.user)]
                && window.href == old(window.href)
      ensures result.Err? ==> token == old(token) && user == old(user)
      ensures result.Err? && result.error.status == Some(ApiClient.Unauthorized) ==>
                storage.items == old(storage.items) - {TokenKey, UserKey} && window.href == LoginPath
      ensures result.Err? && result.error.status != Some(ApiClient.Unauthorized) ==>
                storage.items == old(storage.items) && window.href == old(window.href)
    {
      request, result := Authorize("/auth/register", ApiClient.RegisterBody(email, password, name), window, server);
    }
  }
}
