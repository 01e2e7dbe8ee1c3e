/** The two HTTP clients. Both are created with the same base URL and a JSON
    content type; the authenticated one runs a request interceptor that reads
    the token from storage when the request is made and adds it as a bearer
    credential when it is a non-empty string. */
module AuthApi {
  import opened Wrappers
  import opened Wire
  import opened BrowserStorage
  import opened AuthStore

  const BaseUrl := "https://fe-test-api.nwappservice.com"
  const ContentType := "Content-Type"
  const Authorization := "Authorization"

  /** The headers each client is created with. */
  function DefaultHeaders(): (r: map<string, string>)
    ensures r.Keys == {ContentType} && r[ContentType] == "application/json"
  {
    map[ContentType := "application/json"]
  }

  /** The token as the interceptor reads it: `localStorage.getItem('token')`
      in a browser, null outside one. */
  function StoredToken(inBrowser: bool, items: map<string, string>): (r: Option<string>)
    ensures !inBrowser ==> r.None?
    ensures inBrowser ==> r == Lookup(items, TokenKey)
  {
    if inBrowser then Lookup(items, TokenKey) else None
  }

  /** JavaScript truthiness of a `string | null`: `null` and the empty
      string are falsy, every other string is truthy. */
  function Truthy(token: Option<string>): (r: bool)
    ensures token.None? ==> !r
    ensures token == Some([]) ==> !r
    ensures token.Some? && token.value != [] ==> r
  {
    token.Some? && token.value != []
  }

  /** The headers after the interceptor: a truthy token sets `Authorization`
      to `Bearer <token>`, overwriting any value; otherwise nothing changes.
      No other header is touched. */
  function WithBearer(headers: map<string, string>, token: Option<string>): (r: map<string, string>)
    ensures forall k :: k != Authorization ==> (k in r <==> k in headers)
    ensures forall k :: k in r && k != Authorization ==> r[k] == headers[k]
    ensures Truthy(token) ==> Authorization in r && r[Authorization] == "Bearer " + token.value
    ensures !Truthy(token) ==> r == headers
  {
    if Truthy(token) then headers[Authorization := "Bearer " + token.value] else headers
  }

  /** The headers a request made through `client` carries on the wire. */
  function SentHeaders(client: Client, token: Option<string>): (r: map<string, string>)
    ensures ContentType in r && r[ContentType] == "application/json"
    ensures client.Anonymous? ==> Authorization !in r
    ensures client.Authenticated? ==> (Authorization in r <==> Truthy(token))
    ensures client.Authenticated? && Truthy(token) ==> r[Authorization] == "Bearer " + token.value
  {
    match client
    case Anonymous => DefaultHeaders()
    case Authenticated => WithBearer(DefaultHeaders(), token)
  }

  /** Once logout has removed the token, authenticated requests carry no
      credential: the token is read when the request is made, not cached. */
  lemma NoBearerAfterLogout(inBrowser: bool, items: map<string, string>)
    ensures Authorization !in SentHeaders(Authenticated, StoredToken(inBrowser, ClearedStorage(items)))
  {
  }

  /** After login has stored a non-empty token, authenticated requests carry it. */
  lemma BearerAfterLogin(items: map<string, string>, token: string, user: User)
    requires token != []
    ensures var h := SentHeaders(Authenticated, StoredToken(true, items[TokenKey := token][UserKey := EncodeUser(user)]));
      Authorization in h && h[Authorization] == "Bearer " + token
  {
  }

  /** The configuration of one outgoing request, which the interceptor
      changes in place. */
  class RequestConfig {
    var baseUrl: string
    var verb: HttpMethod
    var url: string
    var headers: map<string, string>
    var payload: Payload

    constructor (baseUrl: string, verb: HttpMethod, url: string, headers: map<string, string>, payload: Payload)
      ensures this.baseUrl == baseUrl && this.verb == verb && this.url == url
      ensures this.headers == headers && this.payload == payload
    {
      this.baseUrl, this.verb, this.url := baseUrl, verb, url;
      this.headers, this.payload := headers, payload;
    }
  }

  /** The request interceptor of `authApiClient`: sets the bearer header when
      the stored token is truthy and returns the same configuration; it never
      rejects, and changes nothing but the headers. */
  method Intercept(config: RequestConfig, storage: LocalStorage, inBrowser: bool) returns (r: RequestConfig)
    modifies config
    ensures r == config
    ensures config.headers == WithBearer(old(config.headers), StoredToken(inBrowser, storage.items))
    ensures config.baseUrl == old(config.baseUrl) && config.verb == old(config.verb)
    ensures config.url == old(config.url) && config.payload == old(config.payload)
  {
    var token := if inBrowser then storage.GetItem(TokenKey) else None;
    if Truthy(token) {
      config.headers := config.headers[Authorization := "Bearer " + token.value];
    }
    r := config;
  }

  datatype Settlement<+T, +E> = Fulfilled(value: T) | Rejected(reason: E)

  /** The interceptor's error handler: a failure in setting up the request is
      passed on unchanged as the rejection. */
  function OnRequestError<E>(error: E): (r: Settlement<RequestConfig, E>)
    ensures r.Rejected? && r.reason == error
  {
    Rejected(error)
  }

  /** Makes a request through `client`: the client's defaults, then, for the
      authenticated client, the interceptor. */
  method Send(client: Client, verb: HttpMethod, path: string, payload: Payload,
              storage: LocalStorage, inBrowser: bool) returns (config: RequestConfig)
    ensures fresh(config)
    ensures config.baseUrl == BaseUrl && config.verb == verb && config.url == path && config.payload == payload
    ensures config.headers == SentHeaders(client, StoredToken(inBrowser, storage.items))
  {
    config := new RequestConfig(BaseUrl, verb, path, DefaultHeaders(), payload);
    if client == Authenticated {
      config := Intercept(config, storage, inBrowser);
    }
  }
}
