/** The `openid` request node: on every input message it refreshes the
    access token of its configuration node when the token is about to
    expire, then attaches the token to the message as a bearer credential
    (section 2.1 of RFC 6750). The configuration node's credentials object,
    the credential registry and the message are updated in place. */
module RequestNode {
  import opened JsValues
  import opened Credentials

  /** The seconds added to the clock before the comparison. */
  const RefreshMargin: int := 30

  /** `Math.floor(now.getTime() / 1000)` once `now.setSeconds(now.getSeconds() + 30)`
      has moved the clock, for a clock reading of `nowMs` milliseconds. */
  function Horizon(nowMs: int): (r: int)
    ensures r == nowMs / 1000 + RefreshMargin
  {
    (nowMs + RefreshMargin * 1000) / 1000
  }

  /** `current_time > expires_at`. An absent `expires_at` compares false,
      so such a token is never refreshed. */
  predicate NeedsRefresh(nowMs: int, expires_at: Option<int>): (b: bool)
    ensures b ==> expires_at.Some?
    ensures expires_at.Some? ==> (b <==> nowMs / 1000 + RefreshMargin > expires_at.value)
  {
    expires_at.Some? && Horizon(nowMs) > expires_at.value
  }

  /** Once a token needs refreshing it keeps needing it as time goes on. */
  lemma NeedsRefreshMonotone(nowMs: int, later: int, expires_at: Option<int>)
    requires nowMs <= later && NeedsRefresh(nowMs, expires_at)
    ensures NeedsRefresh(later, expires_at)
  {
  }

  /** A token is kept exactly when it expires at least 30 whole seconds after
      the current second. */
  lemma KeptIffWithinMargin(nowMs: int, expires_at: int)
    ensures !NeedsRefresh(nowMs, Some(expires_at)) <==> expires_at >= nowMs / 1000 + RefreshMargin
  {
  }

  // -------------------------------------------------------------------------
  // The message

  /** A payload or error value carried by a message. */
  datatype Value = Data(text: string) | Failure(cause: string)

  /** The fields of a message the node reads or writes. */
  datatype MessageValue = MessageValue(
    payload: Option<Value>,
    error: Option<Value>,
    access_token: Option<string>,
    headers: Option<map<string, string>>)

  const AuthorizationHeader: string := "Authorization"

  /** `Bearer ${msg.access_token}`; an absent token reads "undefined". */
  function Bearer(token: Option<string>): string {
    "Bearer " + Text(token)
  }

  /** `headers = msg.headers || {}; headers['Authorization'] = ...`. */
  function WithBearer(headers: Option<map<string, string>>, token: Option<string>): (r: map<string, string>)
    ensures AuthorizationHeader in r && r[AuthorizationHeader] == Bearer(token)
    ensures forall k :: k != AuthorizationHeader ==> (k in r <==> headers.Some? && k in headers.value)
    ensures forall k :: k != AuthorizationHeader && k in r ==> headers.Some? && r[k] == headers.value[k]
  {
    headers.GetOr(map[])[AuthorizationHeader := Bearer(token)]
  }

  /** The message after the attach step. */
  function Attached(m: MessageValue, token: Option<string>): (r: MessageValue)
    ensures r.error.None? && r.access_token == token && r.payload == m.payload
    ensures r.headers.Some? && r.headers.value == WithBearer(m.headers, token)
  {
    m.(error := None, access_token := token, headers := Some(WithBearer(m.headers, token)))
  }

  /** Attaching the same token twice is attaching it once: the header is
      overwritten, not added again. */
  lemma AttachedIdempotent(m: MessageValue, token: Option<string>)
    ensures Attached(Attached(m, token), token) == Attached(m, token)
  {
    var once := WithBearer(m.headers, token);
    var twice := WithBearer(Some(once), token);
    assert twice.Keys == once.Keys;
    assert forall k :: k in twice ==> twice[k] == once[k];
    assert twice == once;
  }

  /** The message after a failed refresh: `msg.payload = err; msg.error = err`. */
  function Failed(m: MessageValue, cause: string): (r: MessageValue)
    ensures r.payload == Some(Failure(cause)) && r.error == Some(Failure(cause))
    ensures r.access_token == m.access_token && r.headers == m.headers
  {
    m.(payload := Some(Failure(cause)), error := Some(Failure(cause)))
  }

  class Message {
    var payload: Option<Value>
    var error: Option<Value>
    var access_token: Option<string>
    var headers: Option<map<string, string>>

    constructor (m: MessageValue)
      ensures Value() == m
    {
      payload := m.payload;
      error := m.error;
      access_token := m.access_token;
      headers := m.headers;
    }

    function Value(): MessageValue
      reads this
    {
      MessageValue(payload, error, access_token, headers)
    }

    /** Clears the error, stores the token and sets the header in place. */
    method Attach(token: Option<string>)
      modifies this
      ensures Value() == Attached(old(Value()), token)
    {
      error := None;
      access_token := token;
      var h := if headers.Some? then headers.value else map[];
      h := h[AuthorizationHeader := Bearer(access_token)];
      headers := Some(h);
    }

    method MarkFailed(cause: string)
      modifies this
      ensures Value() == Failed(old(Value()), cause)
    {
      payload := Some(Failure(cause));
      error := Some(Failure(cause));
    }
  }

  // -------------------------------------------------------------------------
  // The input handler

  /** How the handling of one input ended. */
  datatype Path =
    | Forwarded              // the token was valid or refreshed; the message went out with it
    | RefreshFailed(cause: string)  // the message went out marked with the error
    | Thrown                 // `new issuer.Client` on a null issuer threw; nothing was sent

  datatype InputResult = InputResult(
    path: Path,
    credentials: Record,
    entries: map<string, Record>,
    message: MessageValue,
    sent: seq<MessageValue>)

  /** One input event for a node that is listening. `issuerReady` says whether
      the node's own `Issuer.discover` has resolved; `refresh` is how
      `oidcClient.refresh(refresh_token)` settles, consulted only when the
      token needs refreshing. */
  function HandleInput(issuerReady: bool, nodeId: string, creds: Record, entries: map<string, Record>,
                       m: MessageValue, nowMs: int, refresh: Attempt<TokenSet>): (r: InputResult)
    ensures r.path == Thrown <==> NeedsRefresh(nowMs, creds.expires_at) && !issuerReady
    ensures r.path.RefreshFailed? <==> NeedsRefresh(nowMs, creds.expires_at) && issuerReady && refresh.Err?
    ensures r.path == Forwarded <==> !NeedsRefresh(nowMs, creds.expires_at) || (issuerReady && refresh.Ok?)
    // Only a successful refresh changes the credentials, and only two fields of them.
    ensures r.credentials != creds ==> NeedsRefresh(nowMs, creds.expires_at) && r.path == Forwarded
    ensures SameClient(r.credentials, creds) && r.credentials.refresh_token == creds.refresh_token
    ensures r.credentials.id_token == creds.id_token && r.credentials.display_name == creds.display_name
    ensures r.path == Forwarded && NeedsRefresh(nowMs, creds.expires_at) ==>
      && r.credentials.access_token == refresh.value.access_token
      && r.credentials.expires_at == refresh.value.expires_at
      && r.entries == entries[nodeId := r.credentials]
    ensures r.path != Forwarded || !NeedsRefresh(nowMs, creds.expires_at) ==>
      r.credentials == creds && r.entries == entries
    // What is sent.
    ensures r.path == Thrown ==> r.sent == [] && r.message == m
    ensures r.path.RefreshFailed? ==> r.sent == [r.message] && r.message == Failed(m, refresh.cause)
    ensures r.path == Forwarded ==> r.sent == [r.message] && r.message == Attached(m, r.credentials.access_token)
  {
    if NeedsRefresh(nowMs, creds.expires_at) then
      if !issuerReady then InputResult(Thrown, creds, entries, m, [])
      else match refresh
        case Err(cause) =>
          var failed := Failed(m, cause);
          InputResult(RefreshFailed(cause), creds, entries, failed, [failed])
        case Ok(tokens) =>
          var updated := Refreshed(creds, tokens);
          var attached := Attached(m, updated.access_token);
          InputResult(Forwarded, updated, entries[nodeId := updated], attached, [attached])
    else
      var attached := Attached(m, creds.access_token);
      InputResult(Forwarded, creds, entries, attached, [attached])
  }

  /** A token that is not about to expire is used as it is, whatever the
      refresh would have returned. */
  lemma FreshTokenNeedsNoRefresh(issuerReady: bool, nodeId: string, creds: Record, entries: map<string, Record>,
                                 m: MessageValue, nowMs: int, refresh: Attempt<TokenSet>, refresh': Attempt<TokenSet>)
    requires !NeedsRefresh(nowMs, creds.expires_at)
    ensures HandleInput(issuerReady, nodeId, creds, entries, m, nowMs, refresh)
         == HandleInput(issuerReady, nodeId, creds, entries, m, nowMs, refresh')
    ensures HandleInput(issuerReady, nodeId, creds, entries, m, nowMs, refresh).sent == [Attached(m, creds.access_token)]
  {
  }

  /** The credentials object of the configuration node (`this.openid.credentials`). */
  class OpenIDConfig {
    var credentials: Record

    constructor (c: Record)
      ensures credentials == c
    {
      credentials := c;
    }
  }

  /** Node-RED's credential registry (`RED.nodes.addCredentials`). */
  class Registry {
    var entries: map<string, Record>

    constructor (e: map<string, Record>)
      ensures entries == e
    {
      entries := e;
    }

    method AddCredentials(id: string, r: Record)
      modifies this
      ensures entries == old(entries)[id := r]
    {
      entries := entries[id := r];
    }
  }

  class OpenIDRequest {
    const id: string
    const openid: OpenIDConfig?
    /** Whether the constructor registered the input handler: it returns
        early when the configuration node or its access token is missing. */
    const listening: bool
    /** Whether `Issuer.discover` has resolved and set `issuer`. */
    var issuerReady: bool

    ghost predicate Valid()
      reads this
    {
      listening ==> openid != null
    }

    constructor (id: string, openid: OpenIDConfig?)
      ensures Valid() && this.id == id && this.openid == openid && !issuerReady
      ensures listening <==> openid != null && Truthy(openid.credentials.access_token)
    {
      this.id := id;
      this.openid := openid;
      listening := openid != null && Truthy(openid.credentials.access_token);
      issuerReady := false;
    }

    /** The node's discovery settles; only a success sets the issuer. */
    method Discovered(result: Attempt<()>)
      modifies this
      ensures issuerReady == (old(issuerReady) || result.Ok?)
    {
      if result.Ok? {
        issuerReady := true;
      }
    }

    /** The `input` handler. The refreshed credentials are written to the
        registry under this node's own id, as the source does. */
    method OnInput(msg: Message, registry: Registry, nowMs: int, refresh: Attempt<TokenSet>) returns (sent: seq<MessageValue>)
      requires Valid()
      modifies msg, registry, openid
      ensures !listening ==> sent == [] && unchanged(msg, registry) && (openid != null ==> unchanged(openid))
      ensures listening ==>
        var r := HandleInput(issuerReady, id, old(openid.credentials), old(registry.entries), old(msg.Value()), nowMs, refresh);
        openid.credentials == r.credentials && registry.entries == r.entries && msg.Value() == r.message && sent == r.sent
    {
      if !listening {
        return [];
      }
      if NeedsRefresh(nowMs, openid.credentials.expires_at) {
        if !issuerReady {
          return [];
        }
        match refresh
        case Err(cause) =>
          msg.MarkFailed(cause);
          return [msg.Value()];
        case Ok(tokens) =>
          openid.credentials := openid.credentials.(access_token := tokens.access_token);
          openid.credentials := openid.credentials.(expires_at := tokens.expires_at);
          registry.AddCredentials(id, openid.credentials);
      }
      msg.Attach(openid.credentials.access_token);
      sent := [msg.Value()];
    }
  }
}
