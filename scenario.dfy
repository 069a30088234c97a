/** The flow end to end: the authorization route, the provider's redirect
    back to the callback with the state it was given, and a later request
    that refreshes the token the callback stored. */
module Scenario {
  import opened JsValues
  import opened Credentials
  import opened Csrf
  import opened AuthRoutes
  import RequestNode
  import Base64

  /** An honest round trip: the callback that receives the state the
      authorization route issued finds the record it stored, accepts the
      token, and merges the token set into that record. The intended check
      agrees. */
  lemma InitiateThenCallback(store: Store, q: AuthQuery, random: seq<Base64.Byte>,
                             code: Option<string>, t: TokenSet)
    requires |random| == TokenBytes
    requires ValidAuthQuery(q) && Separator !in q.id.value
    ensures
      var s := Initiate(store, q, Ok(()), random);
      var id := q.id.value;
      var cb := CallbackQuery(Some(s.outcome.request.state), code, None, None);
      && Callback(s.store, cb, Ok(()), Ok(t)) == Step(Authorized, s.store[id := Merge(s.store[id], t)])
      && CallbackStrict(s.store, cb, Ok(()), Ok(t)) == Callback(s.store, cb, Ok(()), Ok(t))
  {
    var s := Initiate(store, q, Ok(()), random);
    var id := q.id.value;
    var token := Token(random);
    assert s.outcome.request.state == FormatState(id, token);
    ParseFormatState(id, token);
  }

  /** A state that carries the right id but any other colon-free token is
      refused with 401, whatever discovery and the exchange would return. */
  lemma ForgedTokenRejected(store: Store, q: AuthQuery, random: seq<Base64.Byte>, forged: string,
                            code: Option<string>, d: Attempt<()>, e: Attempt<TokenSet>)
    requires |random| == TokenBytes
    requires ValidAuthQuery(q) && Separator !in q.id.value && Separator !in forged
    requires forged != Token(random)
    ensures
      var s := Initiate(store, q, Ok(()), random);
      var cb := CallbackQuery(Some(FormatState(q.id.value, forged)), code, None, None);
      Callback(s.store, cb, d, e) == Step(TokenMismatch, s.store)
  {
    ParseFormatState(q.id.value, forged);
  }

  /** An example flow: owner "42", a provider that returns AT1, RT1,
      IT1 and only an email claim. The record then names the user by email
      and holds AT1. */
  lemma WorkedExample(random: seq<Base64.Byte>)
    requires |random| == TokenBytes
    ensures
      var q := AuthQuery(Some("https://idp.example/.well-known"), Some("abc"), Some("s3cret"),
                         Some("42"), Some("https://app/cb"));
      var s := Initiate(map[], q, Ok(()), random);
      var t := TokenSet(Some("IT1"), Some("RT1"), Some("AT1"), Some(1700000000),
                        Claims(None, None, Some("a@b.com")));
      var cb := CallbackQuery(Some(s.outcome.request.state), Some("authcode"), None, None);
      var done := Callback(s.store, cb, Ok(()), Ok(t));
      && s.outcome.request.scope == "openid email offline_access"
      && s.outcome.request.access_type == "offline"
      && s.outcome.request.state == "42:" + Token(random)
      && done.outcome == Authorized
      && "42" in done.store
      && done.store["42"].display_name == Some("a@b.com")
      && done.store["42"].access_token == Some("AT1")
      && done.store["42"].client_secret == Some("s3cret")
  {
    var q := AuthQuery(Some("https://idp.example/.well-known"), Some("abc"), Some("s3cret"),
                       Some("42"), Some("https://app/cb"));
    var t := TokenSet(Some("IT1"), Some("RT1"), Some("AT1"), Some(1700000000),
                      Claims(None, None, Some("a@b.com")));
    assert Separator !in "42";
    InitiateThenCallback(map[], q, random, Some("authcode"), t);
  }

  /** Continuing that example flow: 29 seconds before expiry the request node
      refreshes. The provider's new access token is stored, the rotated
      refresh token it also returns is not, and the message carries the new
      bearer token. */
  lemma WorkedExampleRefresh(stored: Record, m: RequestNode.MessageValue)
    requires stored.access_token == Some("AT1") && stored.refresh_token == Some("RT1")
    requires stored.expires_at == Some(1700000000)
    ensures
      var t := TokenSet(None, Some("RT2"), Some("AT2"), Some(1700003600), Claims(None, None, None));
      var r := RequestNode.HandleInput(true, "request-node", stored, map[], m, 1699999971000, Ok(t));
      && r.path == RequestNode.Forwarded
      && r.credentials.access_token == Some("AT2")
      && r.credentials.expires_at == Some(1700003600)
      && r.credentials.refresh_token == Some("RT1")
      && r.entries == map["request-node" := r.credentials]
      && r.sent[0].headers.value[RequestNode.AuthorizationHeader] == "Bearer AT2"
  {
  }

  /** A millisecond earlier, no refresh is made. */
  lemma WorkedExampleStillFresh(stored: Record, m: RequestNode.MessageValue, refresh: Attempt<TokenSet>)
    requires stored.access_token == Some("AT1") && stored.expires_at == Some(1700000000)
    ensures
      var r := RequestNode.HandleInput(true, "request-node", stored, map[], m, 1699999970999, refresh);
      && r.credentials == stored
      && r.sent[0].headers.value[RequestNode.AuthorizationHeader] == "Bearer AT1"
  {
  }
}
