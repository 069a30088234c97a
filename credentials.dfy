/** The credentials object Node-RED keeps per node id, the token set the
    provider returns, and the two updates the module makes to a record: the
    merge after a successful code exchange and the refresh of the access
    token. Field names are the object keys the source reads and writes. */
module Credentials {
  import opened JsValues

  /** A stored credentials object. Every field may be `undefined`. */
  datatype Record = Record(
    display_name: Option<string>,
    discovery_url: Option<string>,
    client_id: Option<string>,
    client_secret: Option<string>,
    id_token: Option<string>,
    refresh_token: Option<string>,
    access_token: Option<string>,
    expires_at: Option<int>,
    redirect_uri: Option<string>,
    csrf_token: Option<string>)

  /** The claims of the ID token that the module reads. `preferred_username`
      is the claim's registered name; the source reads `prefered_username`. */
  datatype Claims = Claims(
    prefered_username: Option<string>,
    preferred_username: Option<string>,
    email: Option<string>)

  /** The token set an exchange or a refresh resolves with. */
  datatype TokenSet = TokenSet(
    id_token: Option<string>,
    refresh_token: Option<string>,
    access_token: Option<string>,
    expires_at: Option<int>,
    claims: Claims)

  /** The five-field object the authorization route stores. */
  function Pending(discovery_url: string, client_id: string, client_secret: string,
                   redirect_uri: string, csrf_token: string): (r: Record)
    ensures r.discovery_url == Some(discovery_url) && r.client_id == Some(client_id)
    ensures r.client_secret == Some(client_secret) && r.redirect_uri == Some(redirect_uri)
    ensures r.csrf_token == Some(csrf_token)
    ensures HasNoTokens(r) && r.display_name.None?
  {
    Record(None, Some(discovery_url), Some(client_id), Some(client_secret),
           None, None, None, None, Some(redirect_uri), Some(csrf_token))
  }

  predicate HasNoTokens(r: Record) {
    r.id_token.None? && r.refresh_token.None? && r.access_token.None? && r.expires_at.None?
  }

  /** The fields set by the authorization route and never changed by a token update. */
  predicate SameClient(a: Record, b: Record) {
    && a.discovery_url == b.discovery_url
    && a.client_id == b.client_id
    && a.client_secret == b.client_secret
    && a.redirect_uri == b.redirect_uri
    && a.csrf_token == b.csrf_token
  }

  /** `claims.prefered_username || claims.email`. */
  function DisplayName(c: Claims): (r: Option<string>)
    ensures r == c.prefered_username || r == c.email
    ensures Truthy(r) <==> Truthy(c.prefered_username) || Truthy(c.email)
    ensures Truthy(c.prefered_username) ==> r == c.prefered_username
    ensures !Truthy(c.prefered_username) ==> r == c.email
  {
    Or(c.prefered_username, c.email)
  }

  /** The claim under its registered spelling plays no part. */
  lemma DisplayNameIgnoresPreferredUsername(c: Claims, other: Option<string>)
    ensures DisplayName(c.(preferred_username := other)) == DisplayName(c)
  {
  }

  /** `Object.assign({}, credentials, {id_token, refresh_token, access_token,
      expires_at, display_name})`: a new object with the five token-set
      fields overriding the stored ones. */
  function Merge(stored: Record, t: TokenSet): (r: Record)
    ensures SameClient(r, stored)
    ensures r.id_token == t.id_token && r.refresh_token == t.refresh_token
    ensures r.access_token == t.access_token && r.expires_at == t.expires_at
    ensures r.display_name == DisplayName(t.claims)
  {
    stored.(id_token := t.id_token, refresh_token := t.refresh_token,
            access_token := t.access_token, expires_at := t.expires_at,
            display_name := DisplayName(t.claims))
  }

  /** Merging does not depend on the tokens the record held before. */
  lemma MergeOverrides(a: Record, b: Record, t: TokenSet)
    requires SameClient(a, b)
    ensures Merge(a, t) == Merge(b, t)
  {
  }

  /** The assignments to `access_token` and `expires_at` after a refresh. */
  function Refreshed(stored: Record, t: TokenSet): (r: Record)
    ensures SameClient(r, stored)
    ensures r.access_token == t.access_token && r.expires_at == t.expires_at
    ensures r.refresh_token == stored.refresh_token && r.id_token == stored.id_token
    ensures r.display_name == stored.display_name
  {
    stored.(access_token := t.access_token, expires_at := t.expires_at)
  }

  /** A refresh changes exactly the two fields it assigns: a record that
      agrees with the stored one on those two afterwards is the stored one. */
  lemma RefreshedOnlyTouchesTokenFields(stored: Record, t: TokenSet)
    requires t.access_token == stored.access_token && t.expires_at == stored.expires_at
    ensures Refreshed(stored, t) == stored
  {
  }
}
