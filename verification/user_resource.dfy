/**
 * The lifecycle handler of the provider's single resource type, a binding of
 * a username to the identifier the directory assigned to it. Each handler is
 * a pure function from its decoded input and the directory's answers to the
 * diagnostics, the write it makes to the stored state, the client afterwards
 * and the requests sent.
 */
module UserResource {
  import opened Wrappers
  import opened Framework
  import opened DirectoryClient

  /** The stored state of one resource instance. */
  datatype UserModel = UserModel(username: TfString, id: TfString)

  /** What a lifecycle handler leaves behind. */
  datatype Response = Response(diagnostics: seq<Diagnostic>, effect: StateEffect<UserModel>,
                               client: Client, sent: seq<Request>)

  /**
   * What the directory answers during one attempt of the lookup: the token
   * endpoint (consulted only while no token is cached) and the user search.
   */
  datatype Attempt = Attempt(token: Outcome<TokenResponse>, search: Outcome<seq<User>>)

  /** Attempt k of a lookup, made on the client the attempts before it left behind. */
  function AttemptCall(c: Client, username: string, attempts: seq<Attempt>, k: nat): (r: Call<string>)
    requires k < |attempts|
    decreases k
  {
    var before := if k == 0 then c else AttemptCall(c, username, attempts, k - 1).client;
    GetUserId(before, username, attempts[k].token, attempts[k].search)
  }

  /** Dropping the first attempt and starting from the client it left gives the same later attempts. */
  lemma {:induction false} AttemptCallShift(c: Client, username: string, attempts: seq<Attempt>, k: nat)
    requires k + 1 < |attempts|
    ensures AttemptCall(c, username, attempts, k + 1)
         == AttemptCall(AttemptCall(c, username, attempts, 0).client, username, attempts[1..], k)
    decreases k
  {
    if k > 0 {
      AttemptCallShift(c, username, attempts, k - 1);
    }
  }

  /** The end of a retried lookup; `tried` counts the attempts made. */
  datatype Retried = Retried(client: Client, result: Result<string>, sent: seq<Request>, tried: nat)

  /**
   * The retry around the username lookup. The backoff policy is replaced by
   * the finite sequence of attempts it allows (always at least one): the
   * first successful attempt ends the loop, and if every attempt fails the
   * last attempt's error is the result.
   */
  function RetryLookup(c: Client, username: string, attempts: seq<Attempt>): (r: Retried)
    requires |attempts| > 0
    ensures 1 <= r.tried <= |attempts|
    ensures r.result == AttemptCall(c, username, attempts, r.tried - 1).result
    ensures r.client == AttemptCall(c, username, attempts, r.tried - 1).client
    ensures forall k :: 0 <= k < r.tried - 1 ==> AttemptCall(c, username, attempts, k).result.Err?
    ensures r.result.Err? ==> r.tried == |attempts|
    decreases |attempts|
  {
    var call := GetUserId(c, username, attempts[0].token, attempts[0].search);
    if call.result.Ok? || |attempts| == 1 then
      Retried(call.client, call.result, call.sent, 1)
    else
      var rest := RetryLookup(call.client, username, attempts[1..]);
      assert AttemptCall(c, username, attempts, 0) == call;
      forall k | 0 <= k < rest.tried ensures AttemptCall(c, username, attempts, k + 1)
        == AttemptCall(call.client, username, attempts[1..], k)
      {
        AttemptCallShift(c, username, attempts, k);
      }
      assert forall k :: 1 <= k < rest.tried ==>
        AttemptCall(c, username, attempts, k).result == AttemptCall(call.client, username, attempts[1..], k - 1).result;
      Retried(rest.client, rest.result, call.sent + rest.sent, rest.tried + 1)
  }

  /** The lookup result a single search answer gives when a token is already cached. */
  function SearchResult(search: Outcome<seq<User>>): Result<string>
  {
    match search
    case Failed(_, e) => Err(e)
    case Decoded(users) => if |users| != 0 then Ok(users[0].id) else Err(UserNotFound)
  }

  /** A search answer that ends the retry: a decoded, non-empty list. */
  predicate Hit(search: Outcome<seq<User>>)
  {
    search.Decoded? && |search.value| > 0
  }

  /** With a token cached, one lookup is decided by its search answer alone and leaves the client as it was. */
  lemma LookupWithCachedToken(c: Client, username: string, a: Attempt)
    requires c.token != ""
    ensures var call := GetUserId(c, username, a.token, a.search);
      call.client == c && call.result == SearchResult(a.search) && (call.result.Ok? <==> Hit(a.search))
  {
  }

  /**
   * With a token cached, the first attempt whose search answer is a
   * non-empty list ends the retry, with that list's first id, after exactly
   * the attempts up to it; the cache is never touched.
   */
  lemma {:induction false} RetryWithCachedTokenStopsAtFirstHit(c: Client, username: string,
                                                               attempts: seq<Attempt>, i: nat)
    requires c.token != "" && i < |attempts| && Hit(attempts[i].search)
    requires forall j :: 0 <= j < i ==> !Hit(attempts[j].search)
    ensures var r := RetryLookup(c, username, attempts);
      r.client == c && r.result == Ok(attempts[i].search.value[0].id) && r.tried == i + 1
    decreases i
  {
    LookupWithCachedToken(c, username, attempts[0]);
    if i > 0 {
      var tail := attempts[1..];
      assert forall j :: 0 <= j < i - 1 ==> tail[j] == attempts[j + 1];
      RetryWithCachedTokenStopsAtFirstHit(c, username, tail, i - 1);
    }
  }

  /**
   * With a token cached and no search answer that is a non-empty list,
   * every attempt is made and the last answer's error is the result.
   */
  lemma {:induction false} RetryWithCachedTokenExhausts(c: Client, username: string, attempts: seq<Attempt>)
    requires c.token != "" && |attempts| > 0
    requires forall i :: 0 <= i < |attempts| ==> !Hit(attempts[i].search)
    ensures var r := RetryLookup(c, username, attempts);
      && r.client == c && r.tried == |attempts|
      && r.result == SearchResult(attempts[|attempts| - 1].search) && r.result.Err?
    decreases |attempts|
  {
    LookupWithCachedToken(c, username, attempts[0]);
    if |attempts| > 1 {
      var tail := attempts[1..];
      assert forall j :: 0 <= j < |tail| ==> tail[j] == attempts[j + 1];
      RetryWithCachedTokenExhausts(c, username, tail);
    }
  }

  function UserNotFoundAfterRetries(username: string, error: string): Diagnostic
  {
    GeneralError("User not found", "User " + username + " not found after retries due to: " + error)
  }

  /**
   * Create: unless decoding the plan failed, look the username up under
   * retry; on success write the plan's username with the id found; if the
   * retry gives up, report "User not found" and write no state.
   */
  function Create(c: Client, plan: Decoding<UserModel>, attempts: seq<Attempt>): (r: Response)
    requires |attempts| > 0
    ensures HasError(plan.diagnostics) ==> r == Response(plan.diagnostics, NoWrite, c, [])
    ensures r.effect != Remove
    ensures !HasError(plan.diagnostics) ==>
      var username := plan.value.username.ValueString();
      var run := RetryLookup(c, username, attempts);
      && r.client == run.client && r.sent == run.sent
      && (r.effect.Write? <==> run.result.Ok?)
      && (run.result.Ok? ==>
            r.effect == Write(UserModel(plan.value.username, Known(run.result.value)))
            && r.diagnostics == plan.diagnostics)
      && (run.result.Err? ==>
            r.diagnostics == plan.diagnostics + [UserNotFoundAfterRetries(username, run.result.error)])
    ensures r.effect.Write? ==>
      exists k :: 0 <= k < |attempts| && Hit(attempts[k].search)
        && r.effect.model.id == Known(attempts[k].search.value[0].id)
  {
    if HasError(plan.diagnostics) then
      Response(plan.diagnostics, NoWrite, c, [])
    else
      var username := plan.value.username.ValueString();
      var run := RetryLookup(c, username, attempts);
      match run.result
      case Ok(id) =>
        assert Hit(attempts[run.tried - 1].search);
        Response(plan.diagnostics, Write(plan.value.(id := Known(id))), run.client, run.sent)
      case Err(e) =>
        Response(plan.diagnostics + [UserNotFoundAfterRetries(username, e)], NoWrite, run.client, run.sent)
  }

  /** The error a failed Create reports names the username and ends with the last lookup error. */
  lemma CreateFailureNamesUserAndError(c: Client, plan: Decoding<UserModel>, attempts: seq<Attempt>)
    requires |attempts| > 0 && !HasError(plan.diagnostics)
    requires RetryLookup(c, plan.value.username.ValueString(), attempts).result.Err?
    ensures var r := Create(c, plan, attempts);
      var username := plan.value.username.ValueString();
      var error := RetryLookup(c, username, attempts).result.error;
      var d := r.diagnostics[|r.diagnostics| - 1];
      && r.effect == NoWrite
      && d.severity == Error && d.summary == "User not found"
      && d.detail[5..5 + |username|] == username
      && d.detail[|d.detail| - |error|..] == error
  {
  }

  /**
   * Example: "alice" is searched with a cached token and the
   * directory answers one record {id "u-123", username "alice"}; Create stores
   * {username "alice", id "u-123"} after a single search request.
   */
  lemma CreateAliceExample(creds: Credentials, token: string, tokenOutcome: Outcome<TokenResponse>)
    requires token != ""
    ensures var c := Client(creds, token);
      var r := Create(c, Decoding([], UserModel(Known("alice"), Unknown)),
                      [Attempt(tokenOutcome, Decoded([User("alice", "u-123")]))]);
      && r.effect == Write(UserModel(Known("alice"), Known("u-123")))
      && r.diagnostics == []
      && r.sent == [DirectoryRequest(SearchUrl(creds, "alice"), token)]
  {
  }

  /** A lookup that fails twice and then finds the user succeeds on the third attempt. */
  lemma CreateSucceedsAfterTwoFailures(c: Client, plan: Decoding<UserModel>, a0: Attempt, a1: Attempt, user: User,
                                       tokenOutcome: Outcome<TokenResponse>)
    requires c.token != "" && !HasError(plan.diagnostics)
    requires !Hit(a0.search) && !Hit(a1.search)
    ensures var attempts := [a0, a1, Attempt(tokenOutcome, Decoded([user]))];
      && RetryLookup(c, plan.value.username.ValueString(), attempts).tried == 3
      && Create(c, plan, attempts).effect == Write(UserModel(plan.value.username, Known(user.id)))
  {

  }

  /**
   * Read: unless decoding the state failed, fetch the user by the stored id;
   * on failure remove the resource and add no diagnostic; on success store
   * exactly the fetched id and username.
   */
  function Read(c: Client, state: Decoding<UserModel>, tokenOutcome: Outcome<TokenResponse>,
                fetch: Outcome<User>): (r: Response)
    ensures HasError(state.diagnostics) ==> r == Response(state.diagnostics, NoWrite, c, [])
    ensures r.diagnostics == state.diagnostics
    ensures !HasError(state.diagnostics) ==>
      var call := GetUser(c, state.value.id.ValueString(), tokenOutcome, fetch);
      && r.client == call.client && r.sent == call.sent
      && (r.effect == Remove <==> call.result.Err?)
      && (call.result.Ok? ==> r.effect == Write(UserModel(Known(fetch.value.username), Known(fetch.value.id))))
  {
    if HasError(state.diagnostics) then
      Response(state.diagnostics, NoWrite, c, [])
    else
      var call := GetUser(c, state.value.id.ValueString(), tokenOutcome, fetch);
      match call.result
      case Err(_) => Response(state.diagnostics, Remove, call.client, call.sent)
      case Ok(user) =>
        Response(state.diagnostics, Write(UserModel(Known(user.username), Known(user.id))), call.client, call.sent)
  }

  /** Update: store the plan verbatim; the directory is not consulted. */
  function Update(c: Client, plan: Decoding<UserModel>): (r: Response)
    ensures r.client == c && r.sent == [] && r.diagnostics == plan.diagnostics
    ensures r.effect == (if HasError(plan.diagnostics) then NoWrite else Write(plan.value))
  {
    if HasError(plan.diagnostics) then Response(plan.diagnostics, NoWrite, c, [])
    else Response(plan.diagnostics, Write(plan.value), c, [])
  }

  /** Delete: nothing is deleted upstream and no state is written; the framework drops the resource. */
  function Delete(c: Client, state: Decoding<UserModel>): (r: Response)
    ensures r.client == c && r.sent == [] && r.effect == NoWrite
    ensures r.diagnostics == state.diagnostics
  {
    Response(state.diagnostics, NoWrite, c, [])
  }

  /**
   * ImportState: the import key becomes the `id` attribute of a state that
   * starts null, so the username stays null until the next Read.
   */
  function ImportState(c: Client, key: string): (r: Response)
    ensures r.client == c && r.sent == [] && r.diagnostics == []
    ensures r.effect.Write? && r.effect.model.id == Known(key) && r.effect.model.username.Null?
  {
    Response([], Write(UserModel(Null, Known(key))), c, [])
  }

  /**
   * Import followed by Read stores exactly the record a direct fetch of the
   * key returns, or removes the resource when that fetch fails.
   */
  lemma ImportThenRead(c: Client, key: string, tokenOutcome: Outcome<TokenResponse>, fetch: Outcome<User>)
    ensures var imported := ImportState(c, key);
      var r := Read(imported.client, Decoding([], imported.effect.model), tokenOutcome, fetch);
      var direct := GetUser(c, key, tokenOutcome, fetch);
      && r.client == direct.client && r.sent == direct.sent
      && (direct.result.Ok? ==>
            r.effect == Write(UserModel(Known(direct.result.value.username), Known(direct.result.value.id))))
      && (direct.result.Err? ==> r.effect == Remove)
  {
  }

  /**
   * Reading again what a successful Read stored, with the directory giving
   * the same record, stores the same state: Read is a fixed point once the
   * state has caught up with the directory.
   */
  lemma ReadIsStable(c: Client, state: Decoding<UserModel>, tokenOutcome: Outcome<TokenResponse>,
                     user: User, again: Outcome<TokenResponse>)
    requires !HasError(state.diagnostics)
    requires Read(c, state, tokenOutcome, Decoded(user)).effect.Write?
    ensures var first := Read(c, state, tokenOutcome, Decoded(user));
      var second := Read(first.client, Decoding([], first.effect.model), again, Decoded(user));
      && (first.client.token != "" || again.Decoded? ==> second.effect == first.effect)
      && (first.client.token != "" ==>
            second.sent == [DirectoryRequest(UserUrl(c.creds, user.id), first.client.token)])
  {
  }
}
