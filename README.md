# node-red-contrib-openid: a Dafny model of the credential flow

`openid.js` adds OpenID Connect credentials to Node-RED. Two admin routes run
the authorization-code flow: `/openid-credentials/auth` checks its query,
makes a CSRF token, sends the browser to the provider with
`state = <node id>:<token>` and stores a pending record under the node id.
`/openid-credentials/auth/callback` checks the state against the stored
record, exchanges the code and merges the token set into the record. The
`openid` request node then handles each input message. It refreshes the
access token when the token expires within 30 seconds, and it attaches the
token to the message as `Authorization: Bearer <token>`. When the refresh
fails, it sends the message marked with the error instead.

This project models that logic and proves properties of it:

- `js_values.dfy` (`JsValues`) models JavaScript `undefined` as an `Option`. It also defines truthiness of strings, `'' + x` and `a || b`, plus `Attempt`, the way a library promise settles.
- `base64.dfy` (`Base64`) is the base64 encoding of section 4 of RFC 4648 that `Buffer.toString('base64')` produces. It comes with a decoder for unpadded text; the decoder is the encoding's inverse and is used only in proofs.
- `csrf.dfy` (`Csrf`) holds the token rewriting (`/`→`-`, `+`→`_`), the state format, JavaScript `split(':')` on one character, and what the callback keeps of the split.
- `credentials.dfy` (`Credentials`) holds the stored credentials object, the token set and its claims, the `Object.assign` merge, the display name and the refresh update.
- `auth_routes.dfy` (`AuthRoutes`) models both admin routes as pure functions `(store, query, library results) → (response, store)`. The credential store is a `map<string, Record>`; `addCredentials` replaces an entry.
- `request_node.dfy` (`RequestNode`) holds the expiry predicate, a `Message` class whose fields are updated in place, the configuration node, the credential registry, and the request node class with its `input` handler. The handler is the method `OnInput`, proved equal to the function `HandleInput`.
- `scenario.dfy` (`Scenario`) follows the flow end to end: initiation, the callback with the issued state, and a later refresh.

The network calls (`Issuer.discover`, `authorizationCallback`, `refresh`) become input values of type `Attempt`. `crypto.randomBytes(18)` becomes an 18-byte input, and the clock becomes an integer number of milliseconds.

Where the code departs from common OAuth 2.0 / OpenID Connect practice, the model follows the code:

- A refresh happens when `floor(now) + 30 > expires_at`. This is strict: a token that expires exactly 30 seconds from now is kept. An absent `expires_at` is never refreshed, because a comparison with `undefined` is false.
- The state is split on every `:`. The callback keeps pieces `[0]` and `[1]` and silently drops the rest. A node id that contains `:` therefore never round-trips (`Csrf.ParseStateColonInOwner`).
- The display name is read from the claim `prefered_username`, spelled that way, with `email` as the fallback. The correctly spelled `preferred_username` is ignored (`Credentials.DisplayNameIgnoresPreferredUsername`).
- The tokens are compared with `!==`, not in constant time. Two absent tokens compare equal (see Findings).
- A refresh stores only `access_token` and `expires_at`. A rotated refresh token returned by the provider is dropped (`Scenario.WorkedExampleRefresh`).
- The token alphabet is `A-Z a-z 0-9 - _`. For the two symbols, the mapping is the reverse of base64url's.
- The `csrf` cookie is set, but the callback never reads it. Only the stored token is checked.
- The state is not single-use: the merge keeps `csrf_token`, so after an authorized callback the same state is admitted again (`AuthRoutes.ReplayAdmitted`).

## Model

| member | source | states |
|---|---|---|
| `Base64.Encode` | openid.js:52 | the base64 text of n bytes has 4·⌈n/3⌉ characters, all in the alphabet or `=`; when n is a multiple of 3 there is no `=` |
| `Base64.SextetCharRoundTrip` | openid.js:52 | every alphabet index maps to an alphabet character that maps back to the same index |
| `Base64.RegroupBits` | openid.js:52 | cutting three bytes into four 6-bit groups and regrouping them returns the three bytes |
| `Base64.QuantumRoundTrip` | openid.js:52 | the four characters that encode three bytes decode to exactly those bytes |
| `Base64.Decode` | openid.js:52 | when decoding succeeds, it yields 3 bytes per 4 characters |
| `Base64.DecodeEncode` | openid.js:52 | decoding inverts encoding for any whole number of 3-byte groups |
| `Base64.EncodeInjective` | openid.js:52 | two byte strings of whole groups with the same base64 text are equal |
| `Csrf.Rewrite` | openid.js:52 | the rewritten text has the same length, with every `/` turned into `-`, every `+` into `_`, and every other character kept |
| `Csrf.ReplaceAll` | openid.js:52 | a global one-character replace keeps the length and rewrites exactly the positions holding that character |
| `Csrf.Token` | openid.js:52 | the token of 18 random bytes has 24 characters from `A-Z a-z 0-9 - _`, so it contains no `:`, `/`, `+` or `=` |
| `Csrf.RestoreRewrite` | openid.js:52 | the `/`→`-`, `+`→`_` rewriting is undone by the reverse mapping on base64 text |
| `Csrf.TokenInjective` | openid.js:52 | distinct random draws yield distinct tokens |
| `Csrf.Split` | openid.js:75 | `split(':')` gives at least one piece; no piece contains the separator; joining the pieces gives back the input |
| `Csrf.SplitJoin` | openid.js:75 | splitting a join of separator-free pieces returns those pieces |
| `Csrf.ParseState` | openid.js:75-76 | the owner is the longest colon-free prefix of the state; the presented token is absent exactly when the state has no `:`; when present it is colon-free, owner `:` token is a prefix of the state, and the next character after it, if any, is `:` (element `[1]` of the split) |
| `Csrf.FormatState` | openid.js:57 | the state is the node id, one `:`, then the token |
| `Csrf.ParseFormatState` | openid.js:57 | parsing `id:token` returns `id` and `token` when neither contains `:` |
| `Csrf.ParseStateColonInOwner` | openid.js:75-76 | an id with a `:` is parsed as a different owner |
| `Credentials.Pending` | openid.js:62-64 | the initiation record holds the five given fields, with no tokens and no display name |
| `Credentials.DisplayName` | openid.js:97 | the result is `prefered_username` when that is truthy, otherwise `email` (possibly absent); it is truthy iff one of them is |
| `Credentials.DisplayNameIgnoresPreferredUsername` | openid.js:97 | the correctly spelled `preferred_username` claim does not affect the display name |
| `Credentials.Merge` | openid.js:92-98 | the merged record takes `id_token`, `refresh_token`, `access_token`, `expires_at` and the display name from the token set, and keeps `discovery_url`, `client_id`, `client_secret`, `redirect_uri` and `csrf_token` |
| `Credentials.MergeOverrides` | openid.js:92-98 | the merge does not depend on the tokens the record held before |
| `Credentials.Refreshed` | openid.js:138-139 | a refresh sets `access_token` and `expires_at` from the token set; `refresh_token`, `id_token`, the display name and the client fields stay as they were |
| `Credentials.RefreshedOnlyTouchesTokenFields` | openid.js:138-139 | a refresh returning the same two values leaves the record identical |
| `AuthRoutes.ValidAuthQuery` | openid.js:41 | the query is accepted iff all five parameters are present and non-empty |
| `AuthRoutes.Initiate` | openid.js:40-69 | 400 and no store change iff one of the five parameters is missing or empty; a discovery failure changes nothing; on success the store gains exactly the pending record under the id, the token is the rewritten base64 of the random bytes, the state is `id:token` with the stored token, the cookie carries that token, the scope is `openid email offline_access` and the access type is `offline` |
| `AuthRoutes.HasClient` | openid.js:77-78 | the parsed owner has a stored record whose `client_id` and `client_secret` are present and non-empty |
| `AuthRoutes.TokenMatches` | openid.js:83 | the presented token equals the stored `csrf_token`, where two absent values count as equal |
| `AuthRoutes.Callback` | openid.js:71-108 | a provider error is answered, with its text, iff `error` is truthy; a missing state throws; the outcomes no-credentials, 401 mismatch, bad discovery URL (with its cause), something-broke (with the exchange's cause) and authorized each hold iff their condition holds; only an authorized callback changes the store, and it changes only the entry of the parsed owner, to the merged record |
| `AuthRoutes.ProviderErrorIgnoresEverything` | openid.js:72-74 | with `error` set, neither the store, nor the state, nor the library results change the answer, and the store is unchanged |
| `AuthRoutes.ReplayAdmitted` | openid.js:83-98 | after an authorized callback, the same query is admitted again against the updated store |
| `AuthRoutes.MismatchNeverExchanges` | openid.js:83-87 | a token mismatch answers identically whatever discovery and the exchange would return, and the store is unchanged |
| `AuthRoutes.MissingTokenAdmitted` | openid.js:83 | as written, a record without `csrf_token` authorizes a state with no token |
| `AuthRoutes.CallbackStrict` | openid.js:83-87 | with the intended check, authorization requires a state with a `:` presenting the stored non-empty token; wherever the record has a token, it behaves as `Callback` |
| `AuthRoutes.MissingTokenRefused` | openid.js:83-87 | the intended check refuses the state of `MissingTokenAdmitted` with 401 |
| `RequestNode.Horizon` | openid.js:129-131 | the comparison time is the current whole second plus 30 |
| `RequestNode.NeedsRefresh` | openid.js:128-133 | a refresh is due iff `expires_at` is present and the current whole second plus 30 exceeds it; an absent `expires_at` never triggers one |
| `RequestNode.NeedsRefreshMonotone` | openid.js:133 | once a token needs a refresh, it needs one at every later time |
| `RequestNode.KeptIffWithinMargin` | openid.js:128-133 | a token is kept exactly when it expires at least 30 whole seconds after the current second |
| `RequestNode.WithBearer` | openid.js:155-157 | the headers afterwards have `Authorization: Bearer <token>`, and every other header key and value is as before |
| `RequestNode.Attached` | openid.js:152-157 | after the attach step the message has no error, carries the token, keeps its payload and has the bearer headers |
| `RequestNode.AttachedIdempotent` | openid.js:153-157 | attaching the same token twice equals attaching it once |
| `RequestNode.Failed` | openid.js:145-146 | after a failed refresh, payload and error are both the failure, and the message's token and headers are as they came in |
| `RequestNode.HandleInput` | openid.js:126-160 | a refresh is attempted iff the token needs one; a null issuer throws and sends nothing; a failed refresh sends the marked message once and changes no credentials; otherwise the message is sent once with the token attached; only a successful refresh changes the credentials, only `access_token` and `expires_at`, and it writes them to the registry under the node's id |
| `RequestNode.FreshTokenNeedsNoRefresh` | openid.js:128-133 | a token that is not about to expire is used as is, and the refresh result makes no difference |
| `RequestNode.Message.Attach` | openid.js:153-157 | the message is updated in place to `Attached` of its old value |
| `RequestNode.Message.MarkFailed` | openid.js:145-146 | the message is updated in place to `Failed` of its old value |
| `RequestNode.Registry.AddCredentials` | openid.js:140 | the registry entry for the id is replaced and no other entry changes |
| `RequestNode.OpenIDRequest.constructor` | openid.js:110-116 | the node listens iff its configuration node exists and holds a truthy access token; the issuer is not yet known |
| `RequestNode.OpenIDRequest.Discovered` | openid.js:117-124 | only a successful discovery makes the issuer known |
| `RequestNode.OpenIDRequest.OnInput` | openid.js:126-161 | a node that is not listening changes nothing and sends nothing; otherwise the credentials, the registry, the message and what is sent are those of `HandleInput` |
| `Scenario.InitiateThenCallback` | openid.js:40-108 | the callback given the state the route issued, with an id free of `:`, authorizes and merges the token set into the pending record; the strict check agrees |
| `Scenario.ForgedTokenRejected` | openid.js:83-87 | a state with the right id and any other colon-free token is refused with 401 |
| `Scenario.WorkedExample` | openid.js:40-108 | for owner `42`, the state is `42:<token>` with scope `openid email offline_access` and access type `offline`, and with an email-only claim set the record is named `a@b.com` and holds `AT1` |
| `Scenario.WorkedExampleRefresh` | openid.js:128-159 | at the whole second 1699999971, 29 seconds before expiry, the token is refreshed; the new access token and expiry are stored, the old refresh token is kept, and the message carries `Bearer AT2` |
| `Scenario.WorkedExampleStillFresh` | openid.js:128-159 | at 1699999970.999 s, whose whole second is exactly 30 seconds before expiry, the token is kept and attached unchanged whatever the refresh would return |

## Left out

- The `openid-client` calls (`Issuer.discover`, `new issuer.Client`, `authorizationUrl`, `authorizationCallback`, `refresh`) are network calls into a library outside this model. Their results are input values. The routes return the parameters of the authorization request (the client id given to `new issuer.Client` and the options given to `authorizationUrl`), not the URL the library builds. The causes carried by the discovery and exchange failures are what the source logs; the response itself is a fixed localised text.
- `crypto.randomBytes` is an input of 18 bytes. Randomness and entropy are out of scope; `Csrf.TokenInjective` only says that distinct draws give distinct tokens.
- Express plumbing (`res.send`, `res.status`, `res.redirect`, `res.cookie`) appears only as outcome constructors. The 400 and 401 statuses are named in comments.
- Node-RED registration, `this.status`, `this.warn`, `this.error`, `console.log` and the `RED._` localisation are omitted. They are logging and UI, and message keys are constructor names.
- Promise scheduling, the unhandled rejection after a failed refresh, and concurrent refreshes racing on one record are omitted. They are asynchronous behaviour; each input is handled to completion.
- JavaScript `Date`: the clock is an integer number of milliseconds. The text-typed `expires_at` of the credential definition is an integer, so string-to-number coercion is not modelled. `setSeconds` works in local time, so around a daylight-saving change the source's `Math.floor(now.getTime() / 1000)` can be an hour away from the whole second plus 30 that the model uses.
- `RequestNode.OpenIDRequest.OnInput`: does not model that the configuration node's credentials object is the very object held in the registry under the configuration node's id, so the in-place update of that entry is not seen. The configuration node's credentials are a record value in a field.
- `AuthRoutes.Callback`: does not record the `redirect_uri` and `code` handed to the code exchange, because the exchange is an input value. That the exchange is not reached on the early exits is stated as independence from its result.
- Exceptions other than the two modelled ones (`state` missing in the callback, a null issuer at refresh) are not modelled, for example a token set without `claims`. Headers that are not an object are not modelled either.
- `Base64.Decode` accepts only unpadded text. This is all that 18-byte draws produce, and the decoder exists only to prove the encoding injective.
- Message fields other than `payload`, `error`, `access_token` and `headers` are not modelled. The handler never touches them.

## Findings

| source | as written | input that shows it | evidently intended | confidence | as-written member | corrected member |
|---|---|---|---|---|---|---|
| openid.js:83 | `state[1] !== credentials.csrf_token` passes when both are `undefined` | store `{n1: {discovery_url: "https://idp.example/.well-known", client_id: "abc", client_secret: "s3cret", redirect_uri: "https://app/cb"}}` without `csrf_token`, callback `state=n1` with a code the provider accepts: the check passes and the exchange is reached; when discovery and the exchange succeed, the record is authorized | the state must present the stored, non-empty token | not executed; medium — it needs a stored record that has client credentials but no `csrf_token` | `AuthRoutes.MissingTokenAdmitted` | `AuthRoutes.CallbackStrict` |
