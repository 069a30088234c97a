/** The two admin routes of the authorization-code flow. Each is a pure
    decision over the query, the credential store and the results of the
    library calls it makes; it yields the response and the store afterwards.
    `RED.nodes.addCredentials(id, obj)` is a map update that replaces the
    entry. */
module AuthRoutes {
  import opened JsValues
  import opened Credentials
  import opened Csrf
  import Base64

  /** The credential store, keyed by node id. */
  type Store = map<string, Record>

  /** What a route leaves behind: its response and the store. */
  datatype Step<+O> = Step(outcome: O, store: Store)

  // -------------------------------------------------------------------------
  // GET /openid-credentials/auth

  datatype AuthQuery = AuthQuery(
    discovery: Option<string>,
    clientId: Option<string>,
    clientSecret: Option<string>,
    id: Option<string>,
    callback: Option<string>)

  const Scope: string := "openid email offline_access"
  const AccessType: string := "offline"

  /** The parameters of the authorization request: the client id given to
      `new issuer.Client` and the options given to `client.authorizationUrl`. */
  datatype AuthorizationRequest = AuthorizationRequest(
    client_id: string,
    redirect_uri: string,
    scope: string,
    state: string,
    access_type: string)

  datatype AuthOutcome =
    | BadRequest                               // res.send(400)
    | BadDiscoveryUrl(cause: string)           // fixed text 'openid.error.bad-discovery-url'; cause is only logged
    | Redirect(request: AuthorizationRequest,  // res.redirect(authorization_url)
               csrfCookie: string)             // res.cookie('csrf', csrf_token)

  /** `!req.query.discovery || ... || !req.query.callback` is false. */
  predicate ValidAuthQuery(q: AuthQuery): (b: bool)
    ensures b <==> forall p :: p in [q.discovery, q.clientId, q.clientSecret, q.id, q.callback] ==> p.Some? && p.value != ""
  {
    Truthy(q.discovery) && Truthy(q.clientId) && Truthy(q.clientSecret) && Truthy(q.id) && Truthy(q.callback)
  }

  /** The route. `discovery` is how `Issuer.discover` settles; `random` is
      what `crypto.randomBytes(18)` yields. */
  function Initiate(store: Store, q: AuthQuery, discovery: Attempt<()>, random: seq<Base64.Byte>): (r: Step<AuthOutcome>)
    requires |random| == TokenBytes
    ensures r.outcome == BadRequest <==> !ValidAuthQuery(q)
    ensures r.outcome.Redirect? <==> ValidAuthQuery(q) && discovery.Ok?
    ensures !r.outcome.Redirect? ==> r.store == store
    ensures r.outcome.Redirect? ==>
      var id := q.id.value;
      var token := r.outcome.csrfCookie;
      && id in r.store
      && r.store == store[id := Pending(q.discovery.value, q.clientId.value, q.clientSecret.value, q.callback.value, token)]
      && r.outcome.request == AuthorizationRequest(q.clientId.value, q.callback.value, Scope, FormatState(id, token), AccessType)
      && token == Token(random)
      && r.store[id].csrf_token == Some(token)
      && |token| == 24 && Separator !in token
  {
    if !ValidAuthQuery(q) then Step(BadRequest, store)
    else match discovery
      case Err(cause) => Step(BadDiscoveryUrl(cause), store)
      case Ok(_) =>
        var id := q.id.value;
        var token := Token(random);
        var state := FormatState(id, token);
        var request := AuthorizationRequest(q.clientId.value, q.callback.value, Scope, state, AccessType);
        Step(Redirect(request, token),
             store[id := Pending(q.discovery.value, q.clientId.value, q.clientSecret.value, q.callback.value, token)])
  }

  // -------------------------------------------------------------------------
  // GET /openid-credentials/auth/callback

  datatype CallbackQuery = CallbackQuery(
    state: Option<string>,
    code: Option<string>,
    error: Option<string>,
    error_description: Option<string>)

  datatype CallbackOutcome =
    | ProviderError(message: string)   // 'ERROR: ' + error + ': ' + error_description
    | StateMissing                     // `req.query.state.split` throws a TypeError
    | NoCredentials                    // 'openid.error.no-credentials'
    | TokenMismatch                    // status 401, 'openid.error.token-mismatch'
    | DiscoveryFailed(cause: string)   // fixed text 'openid.error.bad-discovery-url'; cause is only logged
    | SomethingBroke(cause: string)    // the exchange rejected: fixed text 'openid.error.something-broke'; cause is only logged
    | Authorized                       // 'openid.error.authorized'

  /** The stored record the state's node id names, when it holds a client
      id and secret (`!credentials || !credentials.client_id || ...`). */
  predicate HasClient(store: Store, owner: string): (b: bool)
    ensures b <==> && owner in store
                   && store[owner].client_id.Some? && store[owner].client_id.value != ""
                   && store[owner].client_secret.Some? && store[owner].client_secret.value != ""
  {
    owner in store && Truthy(store[owner].client_id) && Truthy(store[owner].client_secret)
  }

  /** `state[1] !== credentials.csrf_token` is false: both absent counts as a match. */
  predicate TokenMatches(store: Store, p: ParsedState): (b: bool)
    requires p.owner in store
    ensures b <==> ((p.presented.None? && store[p.owner].csrf_token.None?)
                    || (p.presented.Some? && store[p.owner].csrf_token == Some(p.presented.value)))
  {
    p.presented == store[p.owner].csrf_token
  }

  /** The state has passed every check of the route before discovery. */
  predicate Admitted(store: Store, q: CallbackQuery) {
    && !Truthy(q.error) && q.state.Some?
    && HasClient(store, ParseState(q.state.value).owner)
    && TokenMatches(store, ParseState(q.state.value))
  }

  /** The route. `discovery` is how `Issuer.discover(credentials.discovery_url)`
      settles and `exchange` how `client.authorizationCallback` settles; both
      are consulted only once the state has been checked. */
  function Callback(store: Store, q: CallbackQuery, discovery: Attempt<()>, exchange: Attempt<TokenSet>): (r: Step<CallbackOutcome>)
    ensures r.outcome != Authorized ==> r.store == store
    ensures r.outcome.ProviderError? <==> Truthy(q.error)
    ensures Truthy(q.error) ==> r.outcome == ProviderError("ERROR: " + q.error.value + ": " + Text(q.error_description))
    ensures r.outcome == StateMissing <==> !Truthy(q.error) && q.state.None?
    ensures r.outcome == NoCredentials <==>
      !Truthy(q.error) && q.state.Some? && !HasClient(store, ParseState(q.state.value).owner)
    ensures r.outcome == TokenMismatch <==>
      && !Truthy(q.error) && q.state.Some?
      && HasClient(store, ParseState(q.state.value).owner)
      && !TokenMatches(store, ParseState(q.state.value))
    ensures r.outcome.DiscoveryFailed? <==> Admitted(store, q) && discovery.Err?
    ensures r.outcome.DiscoveryFailed? ==> r.outcome.cause == discovery.cause
    ensures r.outcome.SomethingBroke? <==> Admitted(store, q) && discovery.Ok? && exchange.Err?
    ensures r.outcome.SomethingBroke? ==> r.outcome.cause == exchange.cause
    ensures r.outcome == Authorized <==> Admitted(store, q) && discovery.Ok? && exchange.Ok?
    ensures r.outcome == Authorized ==>
      var owner := ParseState(q.state.value).owner;
      r.store == store[owner := Merge(store[owner], exchange.value)]
  {
    if Truthy(q.error) then
      Step(ProviderError("ERROR: " + q.error.value + ": " + Text(q.error_description)), store)
    else if q.state.None? then
      Step(StateMissing, store)
    else
      var p := ParseState(q.state.value);
      if !HasClient(store, p.owner) then Step(NoCredentials, store)
      else
        var credentials := store[p.owner];
        if !TokenMatches(store, p) then Step(TokenMismatch, store)
        else match discovery
          case Err(cause) => Step(DiscoveryFailed(cause), store)
          case Ok(_) =>
            match exchange
            case Err(cause) => Step(SomethingBroke(cause), store)
            case Ok(tokens) => Step(Authorized, store[p.owner := Merge(credentials, tokens)])
  }

  /** A provider error is answered before anything else is looked at: the
      store, the state and the library calls make no difference. */
  lemma ProviderErrorIgnoresEverything(store: Store, store': Store, q: CallbackQuery, state': Option<string>,
                                       d: Attempt<()>, d': Attempt<()>, e: Attempt<TokenSet>, e': Attempt<TokenSet>)
    requires Truthy(q.error)
    ensures Callback(store, q, d, e).store == store
    ensures Callback(store, q, d, e).outcome == Callback(store', q.(state := state'), d', e').outcome
  {
  }

  /** The stored token survives the merge, so the state is not single-use:
      once a callback is authorized, replaying the same state is authorized
      again. */
  lemma ReplayAdmitted(store: Store, q: CallbackQuery, d: Attempt<()>, t: TokenSet, t': TokenSet)
    requires Callback(store, q, d, Ok(t)).outcome == Authorized
    ensures Callback(Callback(store, q, d, Ok(t)).store, q, d, Ok(t')).outcome == Authorized
  {
  }

  /** A mismatched token stops the route before discovery and the code
      exchange: their results cannot change the response or the store. */
  lemma MismatchNeverExchanges(store: Store, q: CallbackQuery, d: Attempt<()>, d': Attempt<()>,
                               e: Attempt<TokenSet>, e': Attempt<TokenSet>)
    requires Callback(store, q, d, e).outcome == TokenMismatch
    ensures Callback(store, q, d', e') == Step(TokenMismatch, store)
  {
  }

  // -------------------------------------------------------------------------
  // The token check when the stored record has no csrf_token

  /** As written, `state[1] !== credentials.csrf_token` is false when both
      are `undefined`: a record that holds a client id and secret but no
      csrf_token accepts a state with no `:` at all, and the code exchange
      goes ahead. */
  lemma MissingTokenAdmitted(t: TokenSet)
    ensures
      var stored := Record(None, Some("https://idp.example/.well-known"), Some("abc"), Some("s3cret"),
                           None, None, None, None, Some("https://app/cb"), None);
      var store := map["n1" := stored];
      var q := CallbackQuery(Some("n1"), Some("forged-code"), None, None);
      Callback(store, q, Ok(()), Ok(t)) == Step(Authorized, map["n1" := Merge(stored, t)])
  {
  }

  /** The check the route evidently intends: the stored record must hold a
      token and the state must present exactly that token. */
  predicate TokenMatchesStrict(store: Store, p: ParsedState)
    requires p.owner in store
  {
    Truthy(store[p.owner].csrf_token) && p.presented == store[p.owner].csrf_token
  }

  /** The callback with the intended check: a record without a token
      answers TokenMismatch; otherwise it behaves as Callback. */
  function CallbackStrict(store: Store, q: CallbackQuery, discovery: Attempt<()>, exchange: Attempt<TokenSet>): (r: Step<CallbackOutcome>)
    ensures r.outcome != Authorized ==> r.store == store
    ensures r.outcome == Authorized ==>
      && q.state.Some? && Separator in q.state.value
      && var p := ParseState(q.state.value);
         p.owner in store && TokenMatchesStrict(store, p)
    ensures r.outcome == Authorized ==> r == Callback(store, q, discovery, exchange)
    ensures (q.state.Some? && HasClient(store, ParseState(q.state.value).owner)
             && Truthy(store[ParseState(q.state.value).owner].csrf_token)) ==>
      r == Callback(store, q, discovery, exchange)
    ensures r.outcome == TokenMismatch <==>
      && !Truthy(q.error) && q.state.Some?
      && HasClient(store, ParseState(q.state.value).owner)
      && !TokenMatchesStrict(store, ParseState(q.state.value))
  {
    if !Truthy(q.error) && q.state.Some? && HasClient(store, ParseState(q.state.value).owner)
       && !Truthy(store[ParseState(q.state.value).owner].csrf_token)
    then Step(TokenMismatch, store)
    else Callback(store, q, discovery, exchange)
  }

  /** With the intended check the state of MissingTokenAdmitted is refused. */
  lemma MissingTokenRefused(t: TokenSet)
    ensures
      var stored := Record(None, Some("https://idp.example/.well-known"), Some("abc"), Some("s3cret"),
                           None, None, None, None, Some("https://app/cb"), None);
      var store := map["n1" := stored];
      var q := CallbackQuery(Some("n1"), Some("forged-code"), None, None);
      CallbackStrict(store, q, Ok(()), Ok(t)) == Step(TokenMismatch, store)
  {
  }
}
