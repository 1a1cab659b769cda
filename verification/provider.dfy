/**
 * Provider configuration of the Keycloak user-cache provider: resolving the
 * four settings from the provider block and the environment, the diagnostics
 * raised on the way, and whether a client is built, authenticated and handed
 * to resources and data sources.
 */
module Provider {
  import opened Wrappers
  import opened Framework
  import opened DirectoryClient

  /** The four settings of the provider block. */
  datatype Field = ClientIdField | ClientSecretField | UrlField | RealmField

  /** The schema attribute name of a setting. */
  function AttributeName(f: Field): string
  {
    match f
    case ClientIdField => "client_id"
    case ClientSecretField => "client_secret"
    case UrlField => "url"
    case RealmField => "realm"
  }

  /** The environment variable that supplies a setting the provider block leaves null. */
  function EnvVar(f: Field): string
  {
    match f
    case ClientIdField => "KEYCLOAK_CLIENT_ID"
    case ClientSecretField => "KEYCLOAK_CLIENT_SECRET"
    case UrlField => "KEYCLOAK_URL"
    case RealmField => "KEYCLOAK_REALM"
  }

  /** The provider block as decoded from the configuration. */
  datatype ProviderConfig = ProviderConfig(clientId: TfString, clientSecret: TfString, realm: TfString, url: TfString)
  {
    function Get(f: Field): TfString
    {
      match f
      case ClientIdField => clientId
      case ClientSecretField => clientSecret
      case UrlField => url
      case RealmField => realm
    }
  }

  /** The process environment; an unset variable reads as "". */
  type Environment = map<string, string>

  function Getenv(env: Environment, name: string): string
  {
    if name in env then env[name] else ""
  }

  function CredentialOf(creds: Credentials, f: Field): string
  {
    match f
    case ClientIdField => creds.clientId
    case ClientSecretField => creds.clientSecret
    case UrlField => creds.baseUrl
    case RealmField => creds.realm
  }

  /**
   * The value a setting resolves to: the provider block's value unless it is
   * null, else the environment variable. An unknown value is not null, so it
   * overrides the environment with "".
   */
  function ResolveField(config: ProviderConfig, env: Environment, f: Field): (v: string)
    ensures config.Get(f).Known? ==> v == config.Get(f).s
    ensures config.Get(f).Unknown? ==> v == ""
    ensures config.Get(f).Null? ==> v == Getenv(env, EnvVar(f))
  {
    if !config.Get(f).Null? then config.Get(f).ValueString() else Getenv(env, EnvVar(f))
  }

  /** All four settings resolved. */
  function Resolve(config: ProviderConfig, env: Environment): (creds: Credentials)
    ensures forall f :: CredentialOf(creds, f) == ResolveField(config, env, f)
  {
    Credentials(ResolveField(config, env, ClientIdField), ResolveField(config, env, ClientSecretField),
                ResolveField(config, env, UrlField), ResolveField(config, env, RealmField))
  }

  /** The attribute names have pairwise different lengths, so a name determines its setting. */
  lemma AttributeNameLength(f: Field)
    ensures |AttributeName(f)| == match f
      case ClientIdField => 9 case ClientSecretField => 13 case UrlField => 3 case RealmField => 5
  {
  }

  /** "Unknown <setting> value", attached to the setting. */
  function UnknownError(f: Field): Diagnostic
  {
    AttributeError(AttributeName(f), "Unknown " + AttributeName(f) + " value")
  }

  /** "<setting> is required", attached to the setting. */
  function RequiredError(f: Field): Diagnostic
  {
    AttributeError(AttributeName(f), AttributeName(f) + " is required")
  }

  function TokenError(error: string): Diagnostic
  {
    GeneralError("Failed to get token", "Failed to get token: " + error)
  }

  /** `d` is the unknown-value error of a setting that is unknown in `config`. */
  predicate ReportsUnknownSetting(config: ProviderConfig, d: Diagnostic)
  {
    || (d == UnknownError(ClientIdField) && config.clientId.Unknown?)
    || (d == UnknownError(ClientSecretField) && config.clientSecret.Unknown?)
    || (d == UnknownError(UrlField) && config.url.Unknown?)
    || (d == UnknownError(RealmField) && config.realm.Unknown?)
  }

  /** The position of a setting in the order the provider checks them. */
  function FieldRank(f: Field): nat
  {
    match f
    case ClientIdField => 0
    case ClientSecretField => 1
    case UrlField => 2
    case RealmField => 3
  }

  /** The settings that are unknown in `config`, in the order client_id, client_secret, url, realm. */
  function UnknownFields(config: ProviderConfig): (fs: seq<Field>)
    ensures forall f :: f in fs <==> config.Get(f).Unknown?
    ensures forall i, j :: 0 <= i < j < |fs| ==> FieldRank(fs[i]) < FieldRank(fs[j])
    ensures |fs| <= 4
  {
    (if config.clientId.Unknown? then [ClientIdField] else [])
    + (if config.clientSecret.Unknown? then [ClientSecretField] else [])
    + (if config.url.Unknown? then [UrlField] else [])
    + (if config.realm.Unknown? then [RealmField] else [])
  }

  /** The unknown-value error of each setting in `fs`, position for position. */
  function ErrorsFor(fs: seq<Field>): (ds: seq<Diagnostic>)
    ensures |ds| == |fs|
    ensures forall i :: 0 <= i < |fs| ==> ds[i] == UnknownError(fs[i])
  {
    if fs == [] then [] else [UnknownError(fs[0])] + ErrorsFor(fs[1..])
  }

  /**
   * An "Unknown <setting> value" error for exactly the unknown settings, and
   * no other diagnostic; UnknownErrorsInSettingOrder gives their order.
   */
  function UnknownErrors(config: ProviderConfig): (ds: seq<Diagnostic>)
    ensures forall f :: UnknownError(f) in ds <==> config.Get(f).Unknown?
    ensures forall i :: 0 <= i < |ds| ==> ReportsUnknownSetting(config, ds[i])
    ensures |ds| <= 4
  {
    var fs := UnknownFields(config);
    var ds := ErrorsFor(fs);
    ErrorsForNameTheirSettings(fs);
    ErrorsForReportUnknownSettings(config, fs);
    ds
  }

  /** The unknown-value errors come in the order client_id, client_secret, url, realm, each at most once. */
  lemma UnknownErrorsInSettingOrder(config: ProviderConfig)
    ensures var ds := UnknownErrors(config);
      forall i, j, f, g :: 0 <= i < j < |ds| && ds[i] == UnknownError(f) && ds[j] == UnknownError(g) ==>
        FieldRank(f) < FieldRank(g)
  {
    var fs := UnknownFields(config);
    var ds := UnknownErrors(config);
    assert ds == ErrorsFor(fs);
    forall i, j, f, g | 0 <= i < j < |ds| && ds[i] == UnknownError(f) && ds[j] == UnknownError(g)
      ensures FieldRank(f) < FieldRank(g)
    {
      SameUnknownErrorSameSetting(fs[i], f);
      SameUnknownErrorSameSetting(fs[j], g);
    }
  }

  /** The errors for `fs` report exactly the settings in `fs`. */
  lemma ErrorsForNameTheirSettings(fs: seq<Field>)
    ensures forall f :: UnknownError(f) in ErrorsFor(fs) <==> f in fs
  {
    var ds := ErrorsFor(fs);
    forall f ensures UnknownError(f) in ds <==> f in fs {
      if f in fs {
        var k :| 0 <= k < |fs| && fs[k] == f;
        assert ds[k] == UnknownError(f);
      }
      if UnknownError(f) in ds {
        var k :| 0 <= k < |ds| && ds[k] == UnknownError(f);
        SameUnknownErrorSameSetting(fs[k], f);
      }
    }
  }

  /** Errors for settings that are all unknown report unknown settings. */
  lemma ErrorsForReportUnknownSettings(config: ProviderConfig, fs: seq<Field>)
    requires forall f :: f in fs ==> config.Get(f).Unknown?
    ensures forall i :: 0 <= i < |fs| ==> ReportsUnknownSetting(config, ErrorsFor(fs)[i])
  {
    forall i | 0 <= i < |fs| ensures ReportsUnknownSetting(config, ErrorsFor(fs)[i]) {
      assert fs[i] in fs;
      match fs[i]
      case ClientIdField => assert ErrorsFor(fs)[i] == UnknownError(ClientIdField);
      case ClientSecretField => assert ErrorsFor(fs)[i] == UnknownError(ClientSecretField);
      case UrlField => assert ErrorsFor(fs)[i] == UnknownError(UrlField);
      case RealmField => assert ErrorsFor(fs)[i] == UnknownError(RealmField);
    }
  }

  /** Only the same setting has the same unknown-value error. */
  lemma SameUnknownErrorSameSetting(f: Field, g: Field)
    requires UnknownError(f) == UnknownError(g)
    ensures f == g
  {
    assert AttributeName(f) == UnknownError(f).attribute;
    AttributeNameLength(f);
    AttributeNameLength(g);
  }

  /** An unknown-value error is never one of the errors that stop configuration. */
  lemma UnknownErrorDoesNotStop(config: ProviderConfig, d: Diagnostic)
    requires ReportsUnknownSetting(config, d)
    ensures !IsStoppingRequiredError(d)
  {
    AttributeNameLength(ClientIdField);
    AttributeNameLength(ClientSecretField);
    AttributeNameLength(UrlField);
    AttributeNameLength(RealmField);
  }

  /** The first of client_id, client_secret, url that resolved to "", if any; realm is not checked here. */
  function FirstMissing(creds: Credentials): (m: Option<Field>)
    ensures m.Some? ==> m.value != RealmField && CredentialOf(creds, m.value) == ""
    ensures m.None? <==> creds.clientId != "" && creds.clientSecret != "" && creds.baseUrl != ""
    ensures m == Some(ClientSecretField) ==> creds.clientId != ""
    ensures m == Some(UrlField) ==> creds.clientId != "" && creds.clientSecret != ""
  {
    if creds.clientId == "" then Some(ClientIdField)
    else if creds.clientSecret == "" then Some(ClientSecretField)
    else if creds.baseUrl == "" then Some(UrlField)
    else None
  }

  /** A "<setting> is required" error for one of the three settings whose absence stops configuration. */
  predicate IsStoppingRequiredError(d: Diagnostic)
  {
    d == RequiredError(ClientIdField) || d == RequiredError(ClientSecretField) || d == RequiredError(UrlField)
  }

  /** What Configure leaves in its response. */
  datatype ConfigureResponse = ConfigureResponse(
    diagnostics: seq<Diagnostic>,
    resourceData: Option<Client>,
    dataSourceData: Option<Client>,
    sent: seq<Request>)

  /**
   * The last step of Configure, once client_id, client_secret and url are
   * present: build the client, fetch a token, and publish the client only if
   * the fetch succeeded, otherwise report "Failed to get token".
   */
  function ConnectClient(diags: seq<Diagnostic>, creds: Credentials,
                        tokenOutcome: Outcome<TokenResponse>): (r: ConfigureResponse)
    ensures r.sent == Sent(TokenRequest(creds), tokenOutcome)
    ensures r.resourceData == r.dataSourceData
    ensures r.resourceData.Some? <==> tokenOutcome.Decoded?
    ensures tokenOutcome.Decoded? ==>
      r.diagnostics == diags && r.resourceData.value == Client(creds, tokenOutcome.value.accessToken)
    ensures tokenOutcome.Failed? ==> r.diagnostics == diags + [TokenError(tokenOutcome.error)]
  {
    var call := GetToken(NewClient(creds.clientId, creds.clientSecret, creds.baseUrl, creds.realm), tokenOutcome);
    match call.result
    case Err(e) => ConfigureResponse(diags + [TokenError(e)], None, None, call.sent)
    case Ok(_) => ConfigureResponse(diags, Some(call.client), Some(call.client), call.sent)
  }

  /**
   * Configure: decode the provider block, report unknown settings (and carry
   * on), resolve each setting against the environment, stop at the first empty
   * client_id, client_secret or url, report an empty realm without stopping,
   * then build a client, fetch a token and publish the client on success.
   */
  function Configure(decoded: Decoding<ProviderConfig>, env: Environment,
                     tokenOutcome: Outcome<TokenResponse>): (r: ConfigureResponse)
    ensures decoded.diagnostics <= r.diagnostics
    ensures r.resourceData == r.dataSourceData
    ensures HasError(decoded.diagnostics) ==> r == ConfigureResponse(decoded.diagnostics, None, None, [])
    ensures r.resourceData.Some? <==>
      !HasError(decoded.diagnostics) && FirstMissing(Resolve(decoded.value, env)).None? && tokenOutcome.Decoded?
    ensures r.resourceData.Some? ==>
      r.resourceData.value == Client(Resolve(decoded.value, env), tokenOutcome.value.accessToken)
  {
    if HasError(decoded.diagnostics) then
      ConfigureResponse(decoded.diagnostics, None, None, [])
    else
      var config := decoded.value;
      var diags := decoded.diagnostics + UnknownErrors(config);
      var creds := Resolve(config, env);
      match FirstMissing(creds)
      case Some(f) => ConfigureResponse(diags + [RequiredError(f)], None, None, [])
      case None =>
        ConnectClient(diags + (if creds.realm == "" then [RequiredError(RealmField)] else []), creds, tokenOutcome)
  }

  /**
   * Every unknown setting adds its "Unknown <setting> value" error, and
   * configuration carries on: the unknown errors come right after the
   * decoding diagnostics, and what follows them is decided by the resolved
   * settings alone, either the one stopping "is required" error or the
   * realm check and the token fetch.
   */
  lemma UnknownSettingsAreReportedAndConfigurationContinues(decoded: Decoding<ProviderConfig>, env: Environment,
                                                            tokenOutcome: Outcome<TokenResponse>)
    requires !HasError(decoded.diagnostics)
    ensures var r := Configure(decoded, env, tokenOutcome);
      var creds := Resolve(decoded.value, env);
      && decoded.diagnostics + UnknownErrors(decoded.value) <= r.diagnostics
      && (forall f :: decoded.value.Get(f).Unknown? ==> UnknownError(f) in r.diagnostics)
      && (FirstMissing(creds).Some? ==>
            r.diagnostics == decoded.diagnostics + UnknownErrors(decoded.value) + [RequiredError(FirstMissing(creds).value)])
      && (FirstMissing(creds).None? ==> r.sent == Sent(TokenRequest(creds), tokenOutcome))
  {
  }

  /**
   * When client_id, client_secret and url are all present, the diagnostics
   * are exactly: the decoding diagnostics, the unknown-value errors,
   * "realm is required" only if the realm is empty, and "Failed to get
   * token" only if the token fetch failed; the token request is sent unless
   * it cannot be built.
   */
  lemma PresentCredentialsReachTokenFetch(decoded: Decoding<ProviderConfig>, env: Environment,
                                          tokenOutcome: Outcome<TokenResponse>)
    requires !HasError(decoded.diagnostics)
    requires FirstMissing(Resolve(decoded.value, env)).None?
    ensures var r := Configure(decoded, env, tokenOutcome);
      var creds := Resolve(decoded.value, env);
      && r.diagnostics == decoded.diagnostics + UnknownErrors(decoded.value)
                          + (if creds.realm == "" then [RequiredError(RealmField)] else [])
                          + (if tokenOutcome.Failed? then [TokenError(tokenOutcome.error)] else [])
      && r.sent == Sent(TokenRequest(creds), tokenOutcome)
  {
  }

  /**
   * The required checks stop at the first empty one of client_id,
   * client_secret and url: exactly that one error ends the diagnostics, it
   * is the only such error, and no client is built or token requested.
   */
  lemma FirstMissingSettingStopsConfiguration(decoded: Decoding<ProviderConfig>, env: Environment,
                                              tokenOutcome: Outcome<TokenResponse>)
    requires !HasError(decoded.diagnostics)
    requires FirstMissing(Resolve(decoded.value, env)).Some?
    ensures var r := Configure(decoded, env, tokenOutcome);
      var f := FirstMissing(Resolve(decoded.value, env)).value;
      && r.diagnostics == decoded.diagnostics + UnknownErrors(decoded.value) + [RequiredError(f)]
      && r.resourceData.None? && r.dataSourceData.None? && r.sent == []
      && forall i :: 0 <= i < |r.diagnostics| && IsStoppingRequiredError(r.diagnostics[i]) ==>
           i == |r.diagnostics| - 1
  {
    var r := Configure(decoded, env, tokenOutcome);
    var ds := decoded.diagnostics;
    var us := UnknownErrors(decoded.value);
    assert r.diagnostics == ds + us + [RequiredError(FirstMissing(Resolve(decoded.value, env)).value)];
    forall d | d in us ensures !IsStoppingRequiredError(d) {
      UnknownErrorDoesNotStop(decoded.value, d);
    }
  }

  /**
   * When client_id, client_secret and url are present, an empty realm adds
   * "realm is required" but configuration goes on: the client is built, the
   * token request is made, and the client is published if the token arrives.
   */
  lemma EmptyRealmDoesNotStopConfiguration(decoded: Decoding<ProviderConfig>, env: Environment,
                                           tokenOutcome: Outcome<TokenResponse>)
    requires !HasError(decoded.diagnostics)
    requires FirstMissing(Resolve(decoded.value, env)).None?
    requires Resolve(decoded.value, env).realm == ""
    ensures var r := Configure(decoded, env, tokenOutcome);
      && decoded.diagnostics + UnknownErrors(decoded.value) + [RequiredError(RealmField)] <= r.diagnostics
      && r.sent == Sent(TokenRequest(Resolve(decoded.value, env)), tokenOutcome)
      && (tokenOutcome.Decoded? ==> r.resourceData.Some?)
  {
  }

  /**
   * A failed token fetch ends the diagnostics with "Failed to get token"
   * carrying the error, and neither resources nor data sources get a client.
   */
  lemma TokenFailureIsReported(decoded: Decoding<ProviderConfig>, env: Environment, stage: Stage, error: string)
    requires !HasError(decoded.diagnostics)
    requires FirstMissing(Resolve(decoded.value, env)).None?
    ensures var r := Configure(decoded, env, Failed(stage, error));
      && |r.diagnostics| > 0
      && r.diagnostics[|r.diagnostics| - 1] == TokenError(error)
      && r.diagnostics[|r.diagnostics| - 1].detail == "Failed to get token: " + error
      && r.resourceData.None? && r.dataSourceData.None?
  {
  }

  /**
   * With the provider block left entirely null, the settings come from
   * KEYCLOAK_CLIENT_ID, KEYCLOAK_CLIENT_SECRET, KEYCLOAK_URL and KEYCLOAK_REALM.
   */
  lemma NullBlockReadsEnvironment(env: Environment)
    ensures Resolve(ProviderConfig(Null, Null, Null, Null), env)
         == Credentials(Getenv(env, "KEYCLOAK_CLIENT_ID"), Getenv(env, "KEYCLOAK_CLIENT_SECRET"),
                        Getenv(env, "KEYCLOAK_URL"), Getenv(env, "KEYCLOAK_REALM"))
  {
  }

  /** The resource constructors the provider offers. */
  datatype ResourceConstructor = NewUserResource

  /** The provider offers exactly the user resource. */
  function Resources(): (rs: seq<ResourceConstructor>)
    ensures |rs| == 1 && NewUserResource in rs
  {
    [NewUserResource]
  }

  /** A data-source constructor, named by its type name. */
  datatype DataSourceConstructor = DataSourceConstructor(typeName: string)

  /** The data-source constructors the provider offers: none. */
  function DataSources(): (ds: seq<DataSourceConstructor>)
    ensures |ds| == 0
  {
    []
  }
}
