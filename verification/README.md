# Keycloak user-cache provider: a Dafny model

The repository is a small Terraform provider (type name `kuc`). It offers one
resource, `kuc_user`, which binds a username to the identifier that a Keycloak
realm has assigned to that user. This project models the provider's three
pieces of decision logic and proves properties about them. HTTP, JSON and the
plugin framework are replaced by abstract inputs and outcomes.

- **Provider configuration** (`Provider` module, `provider.dfy`). Four
  provider-block settings can each be null, unknown or known. Each one is
  resolved against the environment variables `KEYCLOAK_CLIENT_ID`,
  `KEYCLOAK_CLIENT_SECRET`, `KEYCLOAK_URL` and `KEYCLOAK_REALM`. The model
  gives the ordered diagnostics, the token request made, and whether a client
  is published to resources and data sources.
- **Directory client** (`DirectoryClient` module, `client.dfy`). This covers
  the cached bearer token, the client-credentials token request, the
  username search and the single-user fetch. Every exchange with Keycloak is
  an `Outcome` oracle: either a failure at a named stage (building the
  request, transport, reading the body, decoding) or the decoded value. Each
  operation returns three things: the client afterwards (with its token
  cache), the result, and the exact requests handed to the transport (verb,
  URL, headers, form). The class `TokenClient` is the mutable form of the
  client, with one `token` field. Its `Authenticate` method steps the pure
  `GetToken`.
- **Resource lifecycle** (`UserResource` module, `user_resource.dfy`). This
  covers Create, Read, Update, Delete and ImportState on the state
  `{username, id}`. A handler's effect on the stored state is "no write",
  "write this model" or "remove the resource". Create's retry runs over a
  finite sequence of lookup attempts, which stands in for the exponential
  backoff policy. The client, and so the token cache, is threaded through the
  attempts.

`framework.dfy` holds the framework notions these modules share: tri-state
string attributes and `ValueString`, diagnostics, and decoded plan/state/config
data. `wrappers.dfy` holds `Option` and `Result`.

Facts about the program that the model keeps as they are:

- A token response without `access_token` is not an error. `GetToken` returns
  "" and caches nothing, so the next call requests a token again. Configure
  still publishes the client.
- `GetUserId` returns `users[0].ID` without checking that its username equals
  the one searched for. The username is appended to the search URL without
  escaping.
- `GetUser` passes the underlying error through unchanged. It does not turn
  it into a "user not found" error.
- The retry in Create uses a plain exponential backoff with no request
  context, so it does not stop when the context is cancelled.
- An unknown provider setting is not null. It therefore replaces the
  environment value with "" (the framework's `ValueString` of an unknown
  string). So an unknown `client_id`, `client_secret` or `url` also produces
  that setting's "is required" error, unless an earlier one of client_id,
  client_secret, url already stopped configuration.

## Model

| member | source | states |
|---|---|---|
| DirectoryClient.NewClient | internal/provider/client.go:34-42 | the client stores the four credentials verbatim and starts with no cached token |
| DirectoryClient.NewClientRequestsToken | internal/provider/client.go:34-57 | a freshly built client always sends the token request on its first GetToken, unless the request cannot be built |
| DirectoryClient.TokenUrlShape | internal/provider/client.go:57 | the token URL is exactly the base URL, "/auth/realms/", the realm, then "/protocol/openid-connect/token" |
| DirectoryClient.TokenFormFields | internal/provider/client.go:51-55 | the token form has exactly client_id, client_secret, grant_type=client_credentials and scope=openid |
| DirectoryClient.GetToken | internal/provider/client.go:43-82 | a cached token is returned with no request; otherwise the token request is sent (unless it cannot be built); success caches and returns access_token; any failure returns its error and leaves the client unchanged |
| DirectoryClient.CachedTokenIsReused | internal/provider/client.go:47-49 | once a token is cached, any number of further calls return it, send nothing and leave the client unchanged |
| DirectoryClient.OneTokenRequestForManyCalls | internal/provider/client.go:47-81 | after one successful fetch of a non-empty token, a whole series of calls sends exactly one token request and every call returns that token |
| DirectoryClient.EmptyAccessTokenIsNotCached | internal/provider/client.go:80-81 | a response without access_token gives Ok("") and caches nothing, so the next call sends the token request again |
| DirectoryClient.TokenClient.Authenticate | internal/provider/client.go:34-82 | the mutable client (its constructor stores the credentials and an empty token, as NewClient does): a cached token is returned unchanged with no request; with no token cached the token request is sent (unless it cannot be built), and the result is the decoded access_token, now held in the field, or the failure's error with the field unchanged |
| DirectoryClient.GetUserId | internal/provider/client.go:84-120 | a token error is returned before any directory request; otherwise the search GET is sent with "Bearer " + token; the result is the first record's id for a non-empty list, "user not found" for an empty one, and the error otherwise; the token cache is touched only by GetToken |
| DirectoryClient.GetUserIdIgnoresTail | internal/provider/client.go:115-117 | two search answers with the same first record give the same lookup: the rest of the list is ignored |
| DirectoryClient.SearchUrlCarriesUsername | internal/provider/client.go:90 | the username is the unescaped tail of the search URL ".../users?username=" |
| DirectoryClient.GetUser | internal/provider/client.go:122-154 | a token error is returned before any directory request; otherwise the single-user GET is sent with the bearer header; the result is the decoded record, or the fetch error |
| DirectoryClient.UserUrlCarriesId | internal/provider/client.go:128 | the single-user URL is the admin users collection, then "/", then the id verbatim |
| DirectoryClient.BearerHeaderCarriesToken | internal/provider/client.go:95-96 | the Authorization header is "Bearer " followed by exactly the token |
| Provider.ResolveField | internal/provider/provider.go:67-118 | a known setting gives its value, an unknown one gives "", and a null one gives its KEYCLOAK_* environment variable ("" when unset) |
| Provider.Resolve | internal/provider/provider.go:67-118 | every credential is its setting resolved as in ResolveField |
| Provider.NullBlockReadsEnvironment | internal/provider/provider.go:67-70 | with an all-null provider block, the credentials are the four KEYCLOAK_* environment variables |
| Provider.UnknownFields | internal/provider/provider.go:72-102 | the settings checked for an unknown value are exactly the unknown ones, listed in the order client_id, client_secret, url, realm |
| Provider.UnknownErrors | internal/provider/provider.go:72-102 | there is an "Unknown <setting> value" error for exactly the unknown settings, and no other error |
| Provider.UnknownErrorsInSettingOrder | internal/provider/provider.go:72-102 | the unknown-value errors appear in the order client_id, client_secret, url, realm, so each setting's error appears at most once |
| Provider.FirstMissing | internal/provider/provider.go:120-133 | it names the first empty one of client_id, client_secret, url in that order, never realm; it is none exactly when all three are non-empty |
| Provider.ConnectClient | internal/provider/provider.go:139-152 | the token request of the resolved credentials is sent (unless it cannot be built); on success the same client, with its token, goes to both resources and data sources; on failure "Failed to get token" with the error is added and nothing is published |
| Provider.Configure | internal/provider/provider.go:59-153 | decoding errors end configuration at once; a client is published exactly when decoding has no error, client_id, client_secret and url resolve non-empty, and the token fetch succeeds; resources and data sources get the same client |
| Provider.UnknownSettingsAreReportedAndConfigurationContinues | internal/provider/provider.go:72-133 | each unknown setting adds its error right after the decoding diagnostics, and configuration goes on past them: then comes the one stopping "is required" error if client_id, client_secret or url resolved empty, and otherwise the token request is sent |
| Provider.PresentCredentialsReachTokenFetch | internal/provider/provider.go:120-152 | with client_id, client_secret and url present, the diagnostics are exactly the decoding diagnostics, the unknown-value errors, "realm is required" only for an empty realm, and "Failed to get token" only on a failed fetch; the token request is sent unless it cannot be built |
| Provider.FirstMissingSettingStopsConfiguration | internal/provider/provider.go:120-133 | the first empty one of client_id, client_secret, url adds one "is required" error; it is the last diagnostic and the only one of the three; no client is built and no request is sent |
| Provider.EmptyRealmDoesNotStopConfiguration | internal/provider/provider.go:135-152 | an empty realm adds "realm is required", and the client is still built, the token is still requested and the client is published on success |
| Provider.TokenFailureIsReported | internal/provider/provider.go:142-149 | a failed token fetch ends the diagnostics with "Failed to get token: " + the error, and neither resources nor data sources get a client |
| Provider.Resources | internal/provider/provider.go:159-163 | the provider offers exactly one resource constructor, the user resource |
| Provider.DataSources | internal/provider/provider.go:155-157 | the provider offers no data sources |
| UserResource.RetryLookup | internal/provider/user_resource.go:87-105 | the retry makes between one and all of the allowed attempts; every attempt before the last one made failed; the result is the last attempt's; it stops early only on success |
| UserResource.LookupWithCachedToken | internal/provider/client.go:84-120 | with a token cached, a lookup depends only on the search answer and leaves the client unchanged |
| UserResource.RetryWithCachedTokenStopsAtFirstHit | internal/provider/user_resource.go:87-105 | with a token cached, the first non-empty search answer ends the retry with its first id, after exactly the attempts up to it |
| UserResource.RetryWithCachedTokenExhausts | internal/provider/user_resource.go:101-107 | with a token cached and no non-empty answer, every attempt is made and the last answer's error is returned |
| UserResource.Create | internal/provider/user_resource.go:79-114 | plan decoding errors return before any lookup; on success the state written is the plan's username with the id found, and that id is the first record of some attempt's non-empty answer; when the retry gives up, "User not found" is added and no state is written; Create never removes state |
| UserResource.CreateFailureNamesUserAndError | internal/provider/user_resource.go:107-112 | the error after a failed retry is "User not found", and its detail holds the username and ends with the last lookup error |
| UserResource.CreateAliceExample | internal/provider/user_resource.go:87-98 | searching "alice" with a cached token, against the answer [{id u-123, username alice}], stores {alice, u-123} after one search request |
| UserResource.CreateSucceedsAfterTwoFailures | internal/provider/user_resource.go:87-105 | with a token cached, two failed lookups followed by one that finds the user succeed on the third attempt and store its id |
| UserResource.Read | internal/provider/user_resource.go:115-136 | state decoding errors return before any fetch; a failed fetch removes the resource and adds no diagnostic; a successful one writes exactly the fetched id and username |
| UserResource.ReadIsStable | internal/provider/user_resource.go:124-135 | reading back what a successful Read stored, with the directory giving the same record, writes the same state |
| UserResource.Update | internal/provider/user_resource.go:138-150 | the plan is written verbatim unless decoding it failed; no request is sent and the client is unchanged |
| UserResource.Delete | internal/provider/user_resource.go:152-161 | nothing is written, no request is sent and the client is unchanged |
| UserResource.ImportState | internal/provider/user_resource.go:163-165 | the import key becomes the id of a fresh state whose username is null |
| UserResource.ImportThenRead | internal/provider/user_resource.go:115-136 | import followed by Read stores exactly what a direct fetch of the key returns, or removes the resource when that fetch fails |

## Left out

- internal/provider/logging_transport.go: it only logs requests and responses and passes them through.
- HTTP, `io.ReadAll` and `json.Unmarshal` are abstract `Outcome` oracles, since they are I/O and a foreign library. A JSON field that is missing decodes as "" in the decoded record.
- Encoding the token form (`url.Values.Encode`, which sorts keys and percent-escapes values) is left out. The form is modelled as the map it encodes.
- The mutex in `GetToken` and all concurrency are left out. Calls are sequential.
- Backoff timing and the elapsed-time cap of the backoff library are left out, because they are time-based and the library is not part of this model. The attempts the policy allows are given as a sequence with at least one element.
- The backoff library's permanent-error handling is left out, because `GetUserId` never returns such an error.
- Framework schema and metadata declarations, `New(version)`, `tflog` logging (including the credential log line) and the resource's `Configure` type assertion are left out. The client is passed to each handler directly.
- `os.Getenv` is modelled as a lookup in a map, with "" for an unset variable.
- The diagnostics of `State.Set` and the internals of `ImportStatePassthroughID` belong to the framework. State writes are taken to succeed.
- UserResource.RetryLookup: its contract does not describe the requests sent across attempts. They appear only in its definition, as the attempts' requests concatenated in order.
- UserResource.Create: its contract describes the requests only through RetryLookup. It does not separately state that a decoded plan with an unknown username searches for "".
