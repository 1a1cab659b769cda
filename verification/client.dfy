/**
 * The directory client of the Keycloak user-cache provider: client-credentials
 * authentication with a cached bearer token, username-to-id lookup and
 * fetching a single user.
 *
 * HTTP is abstract. Each exchange with the identity provider is an `Outcome`
 * oracle: either the stage at which it failed (building the request, the
 * transport, reading the body, decoding the JSON) with the error message, or
 * the decoded value. Every operation is a pure state transition returning the
 * updated client, the result and the requests it actually sent.
 */
module DirectoryClient {
  import opened Wrappers

  /** The configuration the client is built from; never changed afterwards. */
  datatype Credentials = Credentials(clientId: string, clientSecret: string, baseUrl: string, realm: string)

  /** The client: its credentials and the cached bearer token ("" when none is cached). */
  datatype Client = Client(creds: Credentials, token: string)

  /** Body of a token-endpoint response; a field missing from the JSON decodes as "". */
  datatype TokenResponse = TokenResponse(accessToken: string, tokenType: string)

  /** A user record of the directory; a field missing from the JSON decodes as "". */
  datatype User = User(username: string, id: string)

  datatype Verb = Get | Post

  /** A request as handed to the transport. The form is the url.Values map, before encoding. */
  datatype Request = Request(verb: Verb, url: string, headers: map<string, string>, form: map<string, string>)

  /** The stage at which an exchange failed. */
  datatype Stage = BuildRequest | Transport | ReadBody | DecodeBody

  /** How one exchange with the identity provider ends. */
  datatype Outcome<+T> = Failed(stage: Stage, error: string) | Decoded(value: T)

  /** One client call: the client afterwards, the result, and the requests handed to the transport. */
  datatype Call<+T> = Call(client: Client, result: Result<T>, sent: seq<Request>)

  const TokenPath := "/protocol/openid-connect/token"
  const FormContentType := "application/x-www-form-urlencoded"
  const BearerPrefix := "Bearer "
  const UsersQuery := "/users?username="
  const UserNotFound := "user not found"

  /** A freshly built client stores its credentials verbatim and holds no token. */
  function NewClient(clientId: string, clientSecret: string, baseUrl: string, realm: string): (c: Client)
    ensures c.creds.clientId == clientId && c.creds.clientSecret == clientSecret
    ensures c.creds.baseUrl == baseUrl && c.creds.realm == realm
    ensures c.token == ""
  {
    Client(Credentials(clientId, clientSecret, baseUrl, realm), "")
  }

  function TokenUrl(creds: Credentials): string
  {
    creds.baseUrl + "/auth/realms/" + creds.realm + TokenPath
  }

  function AdminUsersUrl(creds: Credentials): string
  {
    creds.baseUrl + "/auth/admin/realms/" + creds.realm + "/users"
  }

  /** The user-search URL; the username is appended without any escaping. */
  function SearchUrl(creds: Credentials, username: string): string
  {
    creds.baseUrl + "/auth/admin/realms/" + creds.realm + UsersQuery + username
  }

  function UserUrl(creds: Credentials, id: string): string
  {
    AdminUsersUrl(creds) + "/" + id
  }

  function TokenForm(creds: Credentials): map<string, string>
  {
    map["client_id" := creds.clientId, "grant_type" := "client_credentials",
        "scope" := "openid", "client_secret" := creds.clientSecret]
  }

  /** The client-credentials grant POSTed to the realm's token endpoint. */
  function TokenRequest(creds: Credentials): Request
  {
    Request(Post, TokenUrl(creds), map["Content-Type" := FormContentType], TokenForm(creds))
  }

  /** A bearer-authenticated GET with no body. */
  function DirectoryRequest(url: string, token: string): Request
  {
    Request(Get, url, map["Authorization" := BearerPrefix + token], map[])
  }

  /** What reaches the transport: nothing when the request could not even be built. */
  function Sent<T>(req: Request, outcome: Outcome<T>): (s: seq<Request>)
    ensures |s| <= 1
    ensures s == [] <==> outcome.Failed? && outcome.stage == BuildRequest
    ensures forall q :: q in s ==> q == req
  {
    if outcome.Failed? && outcome.stage == BuildRequest then [] else [req]
  }

  /** The token endpoint's URL is the base URL, "/auth/realms/", the realm, then the OpenID Connect token path. */
  lemma TokenUrlShape(creds: Credentials)
    ensures var u := TokenUrl(creds);
      && u[|u| - |TokenPath|..] == TokenPath
      && u[..|u| - |TokenPath|] == creds.baseUrl + "/auth/realms/" + creds.realm
  {
  }

  /** The username can be read back verbatim from the end of the search URL: no escaping is applied. */
  lemma SearchUrlCarriesUsername(creds: Credentials, username: string)
    ensures var u := SearchUrl(creds, username);
      u[|u| - |username|..] == username && u[..|u| - |username|] == SearchUrl(creds, "")
  {
  }

  /** The single-user URL is the admin users collection followed by "/" and the id. */
  lemma UserUrlCarriesId(creds: Credentials, id: string)
    ensures var u := UserUrl(creds, id);
      u[|u| - |id|..] == id && u[..|u| - |id|] == AdminUsersUrl(creds) + "/"
  {
  }

  /** The bearer header value gives the token back once its prefix is stripped. */
  lemma BearerHeaderCarriesToken(url: string, token: string)
    ensures var h := DirectoryRequest(url, token).headers;
      "Authorization" in h && h["Authorization"][..|BearerPrefix|] == BearerPrefix && h["Authorization"][|BearerPrefix|..] == token
  {
  }

  /** The token form carries exactly the four client-credentials fields. */
  lemma TokenFormFields(creds: Credentials)
    ensures var f := TokenRequest(creds).form;
      && f.Keys == {"client_id", "client_secret", "grant_type", "scope"}
      && f["client_id"] == creds.clientId && f["client_secret"] == creds.clientSecret
      && f["grant_type"] == "client_credentials" && f["scope"] == "openid"
  {
  }

  /**
   * GetToken: a cached token is returned with no request. Otherwise the
   * token request is issued; on a decoded response its access_token (possibly
   * "") becomes the cache and the result; on any failure the cache is untouched.
   */
  function GetToken(c: Client, outcome: Outcome<TokenResponse>): (r: Call<string>)
    ensures r.client.creds == c.creds
    ensures c.token != "" ==> r == Call(c, Ok(c.token), [])
    ensures c.token == "" ==> r.sent == Sent(TokenRequest(c.creds), outcome)
    ensures r.result.Ok? ==> r.client.token == r.result.value
    ensures r.result.Err? ==> r.client == c && outcome.Failed? && r.result.error == outcome.error
    ensures c.token == "" ==> (r.result.Ok? <==> outcome.Decoded?)
    ensures c.token == "" && outcome.Decoded? ==> r.result.value == outcome.value.accessToken
  {
    if c.token != "" then
      Call(c, Ok(c.token), [])
    else
      match outcome
      case Failed(_, e) => Call(c, Err(e), Sent(TokenRequest(c.creds), outcome))
      case Decoded(resp) =>
        Call(c.(token := resp.accessToken), Ok(resp.accessToken), [TokenRequest(c.creds)])
  }

  /** The results of calling GetToken once per outcome, in order, on the same client. */
  datatype Calls = Calls(client: Client, results: seq<Result<string>>, sent: seq<Request>)

  function GetTokenRepeatedly(c: Client, outcomes: seq<Outcome<TokenResponse>>): (r: Calls)
    ensures |r.results| == |outcomes|
    ensures r.client.creds == c.creds
    decreases |outcomes|
  {
    if outcomes == [] then Calls(c, [], [])
    else
      var first := GetToken(c, outcomes[0]);
      var rest := GetTokenRepeatedly(first.client, outcomes[1..]);
      Calls(rest.client, [first.result] + rest.results, first.sent + rest.sent)
  }

  /** Once a token is cached, every further GetToken returns it and sends nothing. */
  lemma {:induction false} CachedTokenIsReused(c: Client, outcomes: seq<Outcome<TokenResponse>>)
    requires c.token != ""
    ensures var r := GetTokenRepeatedly(c, outcomes);
      && r.client == c
      && r.sent == []
      && forall i :: 0 <= i < |outcomes| ==> r.results[i] == Ok(c.token)
    decreases |outcomes|
  {
    if outcomes != [] {
      CachedTokenIsReused(c, outcomes[1..]);
    }
  }

  /**
   * After one successful fetch of a non-empty token, any number of further calls
   * yields exactly one token request in all, and every call returns that token.
   */
  lemma OneTokenRequestForManyCalls(c: Client, outcomes: seq<Outcome<TokenResponse>>)
    requires c.token == ""
    requires |outcomes| > 0 && outcomes[0].Decoded? && outcomes[0].value.accessToken != ""
    ensures var r := GetTokenRepeatedly(c, outcomes);
      && r.sent == [TokenRequest(c.creds)]
      && r.client.token == outcomes[0].value.accessToken
      && forall i :: 0 <= i < |outcomes| ==> r.results[i] == Ok(outcomes[0].value.accessToken)
  {
    var first := GetToken(c, outcomes[0]);
    CachedTokenIsReused(first.client, outcomes[1..]);
  }

  /**
   * A decoded response without access_token succeeds with "" and caches
   * nothing, so the next call requests a token again.
   */
  lemma EmptyAccessTokenIsNotCached(c: Client, tokenType: string, next: Outcome<TokenResponse>)
    requires c.token == ""
    ensures var r := GetToken(c, Decoded(TokenResponse("", tokenType)));
      && r.result == Ok("")
      && r.client == c
      && GetToken(r.client, next).sent == Sent(TokenRequest(c.creds), next)
  {
  }

  /** A freshly built client always goes to the token endpoint on its first GetToken. */
  lemma NewClientRequestsToken(clientId: string, clientSecret: string, baseUrl: string, realm: string,
                               outcome: Outcome<TokenResponse>)
    ensures var c := NewClient(clientId, clientSecret, baseUrl, realm);
      GetToken(c, outcome).sent == Sent(TokenRequest(c.creds), outcome)
  {
  }

  /**
   * GetUserId: obtains a token (a token error is returned before any directory
   * request), then searches the directory by username and returns the id of
   * the first record, or "user not found" for an empty list.
   */
  function GetUserId(c: Client, username: string, tokenOutcome: Outcome<TokenResponse>,
                     search: Outcome<seq<User>>): (r: Call<string>)
    ensures var tok := GetToken(c, tokenOutcome);
      && r.client == tok.client
      && (tok.result.Err? ==> r.result == tok.result && r.sent == tok.sent)
      && (tok.result.Ok? ==>
            r.sent == tok.sent + Sent(DirectoryRequest(SearchUrl(c.creds, username), tok.result.value), search))
      && (r.result.Ok? <==> tok.result.Ok? && search.Decoded? && |search.value| > 0)
      && (r.result.Ok? ==> r.result.value == search.value[0].id)
      && (tok.result.Ok? && search == Decoded([]) ==> r.result == Err(UserNotFound))
      && (tok.result.Ok? && search.Failed? ==> r.result == Err(search.error))
  {
    var tok := GetToken(c, tokenOutcome);
    match tok.result
    case Err(e) => Call(tok.client, Err(e), tok.sent)
    case Ok(token) =>
      var sent := tok.sent + Sent(DirectoryRequest(SearchUrl(c.creds, username), token), search);
      match search
      case Failed(_, e) => Call(tok.client, Err(e), sent)
      case Decoded(users) =>
        if |users| != 0 then Call(tok.client, Ok(users[0].id), sent)
        else Call(tok.client, Err(UserNotFound), sent)
  }

  /** Only the first record of a search answer matters: the rest of the list is ignored. */
  lemma GetUserIdIgnoresTail(c: Client, username: string, tokenOutcome: Outcome<TokenResponse>,
                             first: User, rest1: seq<User>, rest2: seq<User>)
    ensures GetUserId(c, username, tokenOutcome, Decoded([first] + rest1))
         == GetUserId(c, username, tokenOutcome, Decoded([first] + rest2))
  {
  }

  /**
   * GetUser: obtains a token (a token error is returned before any directory
   * request), then fetches the single-user endpoint and returns the decoded record.
   */
  function GetUser(c: Client, id: string, tokenOutcome: Outcome<TokenResponse>,
                   fetch: Outcome<User>): (r: Call<User>)
    ensures var tok := GetToken(c, tokenOutcome);
      && r.client == tok.client
      && (tok.result.Err? ==> r.result == Err(tok.result.error) && r.sent == tok.sent)
      && (tok.result.Ok? ==>
            r.sent == tok.sent + Sent(DirectoryRequest(UserUrl(c.creds, id), tok.result.value), fetch))
      && (r.result.Ok? <==> tok.result.Ok? && fetch.Decoded?)
      && (r.result.Ok? ==> r.result.value == fetch.value)
      && (tok.result.Ok? && fetch.Failed? ==> r.result == Err(fetch.error))
  {
    var tok := GetToken(c, tokenOutcome);
    match tok.result
    case Err(e) => Call(tok.client, Err(e), tok.sent)
    case Ok(token) =>
      var sent := tok.sent + Sent(DirectoryRequest(UserUrl(c.creds, id), token), fetch);
      match fetch
      case Failed(_, e) => Call(tok.client, Err(e), sent)
      case Decoded(user) => Call(tok.client, Ok(user), sent)
  }

  /**
   * The shared client as a mutable object: one token field, read and written
   * by GetToken. The lock around it is not modelled; calls are sequential.
   */
  class TokenClient {
    const creds: Credentials
    var token: string

    constructor (clientId: string, clientSecret: string, baseUrl: string, realm: string)
      ensures creds == Credentials(clientId, clientSecret, baseUrl, realm) && token == ""
    {
      creds := Credentials(clientId, clientSecret, baseUrl, realm);
      token := "";
    }

    method Authenticate(outcome: Outcome<TokenResponse>) returns (result: Result<string>, sent: seq<Request>)
      modifies this
      ensures old(token) != "" ==> result == Ok(old(token)) && sent == [] && token == old(token)
      ensures result.Ok? ==> token == result.value
      ensures result.Err? ==> token == old(token)
      ensures old(token) == "" ==> sent == Sent(TokenRequest(creds), outcome)
      ensures old(token) == "" && outcome.Decoded? ==> result == Ok(outcome.value.accessToken)
      ensures old(token) == "" && outcome.Failed? ==> result == Err(outcome.error)
    {
      var call := GetToken(Client(creds, token), outcome);
      token := call.client.token;
      result := call.result;
      sent := call.sent;
    }
  }
}
