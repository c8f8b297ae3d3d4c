/**
 * The shared HTTP client's default headers (client.js) and the session store
 * that owns the bearer token (AuthContext.jsx).
 */
module ApiClient {
  const AuthorizationHeader: string := "Authorization"
  const BearerPrefix: string := "Bearer "

  /** The default headers after `setAuthToken(token)`: set when the token is non-empty, deleted when it is "". */
  function WithAuthToken(headers: map<string, string>, token: string): map<string, string> {
    if token != "" then headers[AuthorizationHeader := BearerPrefix + token]
    else headers - {AuthorizationHeader}
  }

  /** The headers carry `Authorization: Bearer <token>` for a non-empty token and no `Authorization` at all otherwise. */
  predicate HeaderMatches(headers: map<string, string>, token: string) {
    && (token == "" ==> AuthorizationHeader !in headers)
    && (token != "" ==> AuthorizationHeader in headers && headers[AuthorizationHeader] == BearerPrefix + token)
  }

  /** `setAuthToken` makes the header reflect the token and touches no other header. */
  lemma SetAuthTokenSpec(headers: map<string, string>, token: string)
    ensures HeaderMatches(WithAuthToken(headers, token), token)
    ensures forall k :: k != AuthorizationHeader ==>
      (k in WithAuthToken(headers, token) <==> k in headers)
      && (k in headers ==> WithAuthToken(headers, token)[k] == headers[k])
  {
  }

  /** The last call wins: the result depends only on the last token and the headers other than `Authorization`. */
  lemma LastCallWins(headers: map<string, string>, first: string, second: string)
    ensures WithAuthToken(WithAuthToken(headers, first), second) == WithAuthToken(headers, second)
  {
    var lhs := WithAuthToken(WithAuthToken(headers, first), second);
    var rhs := WithAuthToken(headers, second);
    assert lhs.Keys == rhs.Keys;
  }

  /** Calling `setAuthToken` again with the same token changes nothing. */
  lemma SetAuthTokenIdempotent(headers: map<string, string>, token: string)
    ensures WithAuthToken(WithAuthToken(headers, token), token) == WithAuthToken(headers, token)
  {
    LastCallWins(headers, token, token);
  }

  datatype Verb = Get | Post

  /** One entry of `apiService`: the operation, its HTTP verb and its path under the base URL. */
  datatype Endpoint = Endpoint(name: string, verb: Verb, path: string)

  const Endpoints: seq<Endpoint> := [
    Endpoint("login", Post, "/auth/login"),
    Endpoint("health", Get, "/health"),
    Endpoint("dashboardOverview", Get, "/dashboard/overview"),
    Endpoint("analytics", Get, "/analytics"),
    Endpoint("metrics", Get, "/metrics"),
    Endpoint("history", Get, "/history?limit=100"),
    Endpoint("predictLive", Post, "/predict/live"),
    Endpoint("uploadData", Post, "/upload-data"),
    Endpoint("reportSummary", Get, "/reports/summary"),
    Endpoint("aboutModel", Get, "/about-model")
  ]

  /** The shared axios instance; only its common default headers are modelled. */
  class Client {
    var headers: map<string, string>

    constructor (headers: map<string, string>)
      ensures this.headers == headers
    {
      this.headers := headers;
    }

    /** `setAuthToken(token)`. */
    method SetAuthToken(token: string)
      modifies this
      ensures headers == WithAuthToken(old(headers), token)
      ensures HeaderMatches(headers, token)
    {
      if token != "" {
        headers := headers[AuthorizationHeader := BearerPrefix + token];
      } else {
        headers := headers - {AuthorizationHeader};
      }
    }
  }
}

module Session {
  import opened Wrappers
  import opened ApiClient

  /** The local-storage key that holds the token. */
  const TokenKey: string := "asci_token"
  const MisuseMessage: string := "useAuth must be used inside AuthProvider"

  /** `localStorage.getItem(TOKEN_KEY) || ""`. */
  function StoredToken(storage: map<string, string>): string {
    if TokenKey in storage then storage[TokenKey] else ""
  }

  /**
   * The state `AuthProvider` owns: the token, the local storage it mirrors,
   * and the client whose header the `[token]` effect keeps in step.
   */
  class AuthStore {
    var storage: map<string, string>
    var token: string
    const client: Client

    /** The in-memory token equals the persisted one and the client's header reflects it. */
    ghost predicate Valid()
      reads this, client
    {
      token == StoredToken(storage) && HeaderMatches(client.headers, token)
    }

    /** Mounting the provider: the token is read from storage and the effect pushes it to the client. */
    constructor (storage: map<string, string>, client: Client)
      modifies client
      ensures Valid()
      ensures this.storage == storage && this.client == client
      ensures token == StoredToken(storage)
      ensures client.headers == WithAuthToken(old(client.headers), token)
    {
      this.storage := storage;
      this.client := client;
      token := StoredToken(storage);
      new;
      client.SetAuthToken(token);
    }

    /** `setToken(next)` followed by the `[token]` effect, which runs only when the value changes. */
    method UpdateToken(next: string)
      requires HeaderMatches(client.headers, token)
      modifies this`token, client
      ensures token == next
      ensures HeaderMatches(client.headers, token)
      ensures client.headers == WithAuthToken(old(client.headers), next)
    {
      var changed := next != token;
      token := next;
      if changed {
        client.SetAuthToken(token);
      } else {
        SetAuthTokenIdempotent(old(client.headers), next);
        assert old(client.headers) == WithAuthToken(old(client.headers), next) by {
          assert old(client.headers).Keys == WithAuthToken(old(client.headers), next).Keys;
        }
      }
    }

    /** `login(accessToken)`: storage first, then the in-memory token and its header. */
    method Login(accessToken: string)
      requires Valid()
      modifies this, client
      ensures Valid()
      ensures storage == old(storage)[TokenKey := accessToken]
      ensures token == accessToken
      ensures client.headers == WithAuthToken(old(client.headers), accessToken)
    {
      storage := storage[TokenKey := accessToken];
      UpdateToken(accessToken);
    }

    /** `logout()`: the storage entry is removed (not emptied), then the token becomes "" and the header goes. */
    method Logout()
      requires Valid()
      modifies this, client
      ensures Valid()
      ensures storage == old(storage) - {TokenKey}
      ensures TokenKey !in storage && token == ""
      ensures client.headers == WithAuthToken(old(client.headers), "")
      ensures AuthorizationHeader !in client.headers
    {
      storage := storage - {TokenKey};
      UpdateToken("");
    }
  }

  /** `useAuth()`: the provider's value, or the misuse error when there is no provider above the caller. */
  function UseAuth<C>(context: Option<C>): (r: Result<C, string>)
    ensures r.Failure? <==> context.None?
    ensures r.Failure? ==> r.error == MisuseMessage
    ensures r.Success? ==> r.value == context.value
  {
    match context
    case None => Failure(MisuseMessage)
    case Some(c) => Success(c)
  }

  /** Empty storage, log in, log in again, log out; two consumers share one store. */
  method SessionScenario()
  {
    var client := new Client(map["Accept" := "application/json"]);
    var store := new AuthStore(map[], client);
    assert store.token == "" && AuthorizationHeader !in client.headers;
    var first := UseAuth(Some(store));
    var second := UseAuth(Some(store));
    first.value.Login("tok-1");
    assert second.value.token == "tok-1";
    assert client.headers[AuthorizationHeader] == "Bearer tok-1";
    second.value.Login("tok-2");
    assert first.value.token == "tok-2";
    assert client.headers[AuthorizationHeader] == "Bearer tok-2";
    store.Logout();
    assert AuthorizationHeader !in client.headers && store.storage == map[];
    assert client.headers["Accept"] == "application/json";
    var outside := UseAuth<AuthStore>(None);
    assert outside.Failure?;
  }
}
