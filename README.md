# npme-auth-bitbucket, modelled in Dafny

This project models the authentication and authorization core of an npm
Enterprise plugin that delegates both to Bitbucket. It covers four parts:

- **Authenticator.** It exchanges an email and password, or a stored refresh token, for OAuth 2.0 tokens at Bitbucket's token endpoint. That is the password grant of section 4.3 of RFC 6749 or the refresh grant of section 6, with the client authenticated by HTTP Basic as in section 2.3.1. It reads the username from the current-user resource and can restrict logins to the members of one team. It persists the refresh token under `refresh-<access token>` in a key-value cache (Redis).
- **Authorizer.** It turns an npm request into an allow or deny decision:
  - It takes the bearer token from the `Authorization` header (section 2.1 of RFC 6750).
  - It maps the HTTP method to a read or write scope.
  - It chooses the package manifest to trust and splits its repository path into team and repository.
  - It applies the team restriction and swaps the caller's token for its alias.
  - It asks Bitbucket for the caller's privileges on the repository.
  - On a 401 it re-authenticates once with the stored refresh token, installs an alias from the client's token to the new token, and asks again.
- **Session store.** It names keys over the shared cache.
- **REST and OAuth 2.0 clients.** They hold fluent-setter state and build URLs and request options. `errors.forCode` builds the error values.

Each part keeps the source's form:

- Objects whose methods update fields are classes: both API clients, both request objects, the cache client, the session, the authenticator and the authorizer.
- The stateful operations are methods proved equal to pure specification functions: `Authentication.AuthenticateOutcome`, `Authorization.Refresh`, `Authorization.Authorized` and `Authorization.AuthorizeOutcome`. Each of these returns the result together with the new cache contents.
- Lemmas state what the source promises about those functions.

Conventions:

- Every upstream endpoint is a function from the request URL and options to a reply (`Http.Server`). Network outcomes are therefore inputs.
- JavaScript's falsy strings are written `""`, and a status code of 0 stands for a missing `statusCode`.
- The cache is a `map<string, string>` together with the set of keys on which the backend fails.

Two facts about the source shape the session model:

- `getUser` reads the raw key `<token>`. The authorizer resolves the alias before calling it (`Session.Session.GetUser`, `Authorization.Authorized`).
- `lib/session.js` defines no `getAlias`, `setAlias` or `delAlias`, although the authorizer calls them. They are modelled as a namespace `alias-<client token>` of the same cache, built like `refresh-<token>` (`Session.AliasKey`, `Session.Session.GetAlias`/`SetAlias`/`DelAlias`).
- The refresh path calls an `_unauthenticate` that does not exist, so as written it never recovers. See "Findings".

## Model

| member | source | states |
|---|---|---|
| Errors.ForCode | lib/errors.js:1-12 | the status code is the given code, or 500 when it is falsy; an explicit message is kept; otherwise 500, 401 and 404 get 'Unknown error', 'Unauthorized' and 'Not found', and any other code an empty message |
| Errors.ForCodeRewrap | lib/errors.js:7-12 | re-making an error from its own status code and message gives the same error, so the authorizer's final re-wrap keeps every status |
| Http.WrapError | lib/api.js:185-200 | no error gives null; the status is the error's own, else the response's; the message is the data's `error_description` when there is data |
| Http.Exec | lib/api.js:202-216 | the promise form yields the body of a successful reply and rejects with the wrapped error of a failed one |
| Http.ExecRejection | lib/api-oauth2.js:157-170 | a rejection carries the response's status when the error has none, and the response body's `error_description` when there is one |
| Api.BitbucketApi.constructor | lib/api.js:9-13 | defaults `https`, `api.bitbucket.org`, no port, `/1.0`, `/2.0`; `opts.url` is applied first and explicit protocol, host and port override it |
| Api.BitbucketApi.Protocol | lib/api.js:17-20 | a falsy protocol is ignored |
| Api.BitbucketApi.Host | lib/api.js:22-25 | a falsy host is ignored |
| Api.BitbucketApi.Port | lib/api.js:27-30 | a falsy port is ignored |
| Api.BitbucketApi.V1Prefix | lib/api.js:32-35 | any string, "" included, replaces the prefix; a non-string is ignored |
| Api.BitbucketApi.V2Prefix | lib/api.js:37-40 | any string, "" included, replaces the prefix; a non-string is ignored |
| Api.BitbucketApi.Url | lib/api.js:42-49 | protocol (without ':'), hostname and port of the URL are applied through the setters, so falsy parts are ignored |
| Api.BitbucketApi.Request | lib/api.js:70-138 | a fresh request for the resource's URL, `protocol://host[:port]` + version prefix + path, with no credentials |
| Api.PrivilegesFilterOnlyWhenGiven | lib/api.js:101-104 | the privileges path carries a query exactly when a filter is given |
| Api.RepoPrivilegesUserIsLastSegment | lib/api.js:106-108 | the user whose privileges are asked for is the last path segment |
| Api.RequestOpts | lib/api.js:168-182 | the verb only when given; Basic only when user and password are both set; a set token replaces it with a bearer header; never a body |
| Api.Endpoint.Path | lib/api.js:82-138 | every resource path starts with '/'; the privileges resources live under `/privileges/` |
| Api.BuildUrlParts | lib/api.js:70-72 | a built URL is the origin, then the prefix, then the resource's path |
| Api.BitbucketApi.UrlFor | lib/api.js:70-80 | a resource's URL under the current settings is the one the settings value gives, `Base.Url` |
| Api.BitbucketRequest.AccessToken | lib/api.js:145-148 | a falsy token is ignored |
| Api.BitbucketRequest.Username | lib/api.js:150-153 | a falsy user is ignored |
| Api.BitbucketRequest.Password | lib/api.js:155-158 | a falsy password is ignored |
| Api.BitbucketRequest.UserPass | lib/api.js:160-166 | two strings or one object (or none) set user and password through their setters |
| Api.BitbucketRequest.BuildGotOpts | lib/api.js:168-182 | the options filled step by step equal `RequestOpts` of the request's state |
| Api.BitbucketRequest.ExecReq | lib/api.js:202-216 | one call to the server with the request's URL and options |
| Api.BitbucketRequest.Get | lib/api.js:222-224 | `execReq` with verb GET |
| OAuth2.GrantOpts | lib/api-oauth2.js:131-154 | Basic client authentication only with both id and secret; the password grant only with both username and password; a refresh token overrides it with the refresh grant; POST exactly when there is a grant body |
| OAuth2.BitbucketOAuth2Api.constructor | lib/api-oauth2.js:9-13 | defaults `https`, `bitbucket.org`, no port, `/site/oauth2`, no client; url first, then protocol, host, port, prefix and client from the options |
| OAuth2.BitbucketOAuth2Api.Protocol | lib/api-oauth2.js:16-19 | a falsy protocol is ignored |
| OAuth2.BitbucketOAuth2Api.Host | lib/api-oauth2.js:21-24 | a falsy host is ignored |
| OAuth2.BitbucketOAuth2Api.Port | lib/api-oauth2.js:26-29 | a falsy port is ignored |
| OAuth2.BitbucketOAuth2Api.EndpointPrefix | lib/api-oauth2.js:31-34 | any string, "" included, replaces the prefix |
| OAuth2.BitbucketOAuth2Api.Url | lib/api-oauth2.js:36-43 | protocol, hostname and port of the URL go through the setters |
| OAuth2.BitbucketOAuth2Api.ClientId | lib/api-oauth2.js:45-48 | a falsy id is ignored |
| OAuth2.BitbucketOAuth2Api.ClientSecret | lib/api-oauth2.js:50-53 | a falsy secret is ignored |
| OAuth2.BitbucketOAuth2Api.Client | lib/api-oauth2.js:55-61 | two strings or one object (or none) set id and secret through their setters |
| OAuth2.BitbucketOAuth2Api.AccessTokenRequest | lib/api-oauth2.js:76-83 | a fresh request for `buildUrl('/access_token')` carrying the configured id, and the secret only when an id is set |
| OAuth2.TokenUrlParts | lib/api-oauth2.js:76-82 | the token URL starts with `protocol://host` and ends with the endpoint prefix and `/access_token` |
| OAuth2.BitbucketOAuth2Request.ClientId | lib/api-oauth2.js:90-93 | a falsy id is ignored |
| OAuth2.BitbucketOAuth2Request.ClientSecret | lib/api-oauth2.js:95-98 | a falsy secret is ignored |
| OAuth2.BitbucketOAuth2Request.Client | lib/api-oauth2.js:100-106 | two strings or one object (or none) |
| OAuth2.BitbucketOAuth2Request.Username | lib/api-oauth2.js:108-111 | a falsy username is ignored |
| OAuth2.BitbucketOAuth2Request.Password | lib/api-oauth2.js:113-116 | a falsy password is ignored |
| OAuth2.BitbucketOAuth2Request.UserPass | lib/api-oauth2.js:118-124 | two strings or one object (or none) |
| OAuth2.BitbucketOAuth2Request.RefreshToken | lib/api-oauth2.js:126-129 | a falsy refresh token is ignored |
| OAuth2.BitbucketOAuth2Request.BuildGotOpts | lib/api-oauth2.js:131-154 | the options filled step by step, later grant overwriting earlier, equal `GrantOpts` of the request's state |
| OAuth2.BitbucketOAuth2Request.Exec | lib/api-oauth2.js:182-196 | one call to the token endpoint with the grant options |
| Session.Read | lib/session.js:23-27 | a `get` answers the backend's error, the stored value, or nothing |
| Session.RedisClient.Set | lib/session.js:17-21 | `set` writes one key and answers 'OK', or fails and changes nothing |
| Session.RedisClient.Get | lib/session.js:23-27 | `get` answers `Read` of the contents |
| Session.RedisClient.Del | lib/session.js:29-33 | `del` removes one key and answers 1, or fails and changes nothing |
| Session.RefreshTokenKey | lib/session.js:5-7 | the key is `refresh-` followed by the access token, which can be read back from the key; it begins with 'r' |
| Session.AliasKey | lib/session.js:5-7 | the alias key, built like the refresh-token key: `alias-` followed by the client token, which can be read back; it begins with 'a' |
| Session.RefreshTokenKeyInjective | lib/session.js:5-7 | distinct access tokens have distinct refresh-token keys |
| Session.NamespacesDisjoint | lib/session.js:5-7 | refresh-token keys and alias keys never coincide |
| Session.RefreshTokenRoundTrip | lib/session.js:17-27 | after `setRefreshToken(a, r)`, `getRefreshToken(a)` gives `r` |
| Session.RemoveKeepsOthers | lib/session.js:29-33 | `delRefreshToken(a)` removes `refresh-<a>` and keeps every other key |
| Session.WriteKeepsOthers | lib/session.js:17-21 | a `set` keeps every other key |
| Session.Session.SetRefreshToken | lib/session.js:17-21 | writes `refresh-<token>` and nothing else |
| Session.Session.GetRefreshToken | lib/session.js:23-27 | reads `refresh-<token>` |
| Session.Session.DelRefreshToken | lib/session.js:29-33 | deletes `refresh-<token>` and nothing else |
| Session.Session.GetUser | lib/session.js:35-39 | reads the raw key `<token>`, no prefix, no decoding |
| Session.Session.GetAlias | lib/authorizer.js:201-204 | reads `alias-<client token>` |
| Session.Session.SetAlias | lib/authorizer.js:153 | writes `alias-<client token>` and nothing else |
| Session.Session.DelAlias | lib/authorizer.js:137 | deletes `alias-<client token>` and nothing else |
| Authentication.ValidCredentials | lib/authenticator.js:46-48 | no credentials or no body is invalid; with a body, valid iff both email and password are non-empty |
| Authentication.ProvisionalName | lib/authenticator.js:63 | a given name is kept; otherwise the name is a prefix of the email |
| Authentication.ProvisionalNameFromEmail | lib/authenticator.js:63 | without a given name, the provisional name is the email's text before '@' |
| Authentication.AuthorizationToken | lib/authenticator.js:50-91 | a failed token exchange is the result; a success carries the exchanged access token and the supplied email, and with a team configured the teams reply names that team |
| Authentication.AuthRecordFromReplies | lib/authenticator.js:50-76 | the record's token and refresh token come from the token endpoint, its email is the one supplied and its name is the provider's username |
| Authentication.TeamRestriction | lib/authenticator.js:77-89 | with a team configured, authentication succeeds iff the team is among the user's teams, else 401 'Not a member of team …' |
| Authentication.RefreshTokenSelectsRefreshGrant | lib/authenticator.js:55-56 | a refresh token in the body selects the refresh grant, a POST |
| Authentication.FindTeam | lib/authenticator.js:81-85 | the scan finds the team iff some entry's username equals it |
| Authentication.AuthenticateOutcome | lib/authenticator.js:31-36 | a failure writes nothing; a success is the authorization token, whose refresh-token key the cache accepted |
| Authentication.AuthenticateRequest | lib/authenticator.js:25-36 | invalid credentials are 500 'Invalid credentials format' with nothing written; a success needs valid credentials and carries their email |
| Authentication.AuthenticateStoresRefreshToken | lib/authenticator.js:31-36 | after a successful authentication the store returns its refresh token for its token and every other key is unchanged; a failed one writes nothing |
| Authentication.StoreFailureSurfaces | lib/authenticator.js:31-36 | a refresh-token write that fails fails the authentication |
| Authentication.InvalidCredentialsShortCircuit | lib/authenticator.js:25-29 | invalid credentials give 500 'Invalid credentials format', write nothing, and the outcome does not depend on the identity provider |
| Authentication.Authenticator.GetSession | lib/authenticator.js:93-100 | null for a falsy precondition; otherwise the session, created once and the same thereafter |
| Authentication.Authenticator.RequestTokens | lib/authenticator.js:53-57 | the token request carries the configured client, the email and password, and the refresh token when given |
| Authentication.Authenticator.BearerRequest | lib/authenticator.js:71 | a GET of one REST resource with the access token as bearer |
| Authentication.Authenticator.GetAuthorizationToken | lib/authenticator.js:50-91 | the step-by-step requests give `AuthorizationToken` of the configured endpoints |
| Authentication.Authenticator.StoreRefreshToken | lib/authenticator.js:102-108 | null and no write without session or authentication; otherwise `refresh-<token>` gets the refresh token |
| Authentication.Authenticator.DropRefreshToken | lib/authenticator.js:110-114 | deletes `refresh-<token>` |
| Authentication.Authenticator.AuthenticateBody | lib/authenticator.js:31-36 | result and new cache equal `AuthenticateOutcome`; no session is created when the token exchange fails |
| Authentication.Authenticator.Authenticate | lib/authenticator.js:25-29 | result and new cache equal `AuthenticateRequest`; invalid credentials touch nothing |
| Authentication.Authenticator.Unauthenticate | lib/authenticator.js:38-44 | deletes `refresh-<token>` and never fails |
| Authorization.ExtractToken | lib/authorizer.js:64-70 | no header, or one without "Bearer ", gives no token |
| Authorization.ExtractBearerToken | lib/authorizer.js:64-70 | a bearer header gives back exactly its token |
| Authorization.ScopeFor | lib/authorizer.js:28-40 | GET is read; PUT, POST and DELETE are write; anything else is 405 'Unsupported method: …' |
| Authorization.LoadManifest | lib/authorizer.js:72-92 | a fetched manifest with a repository is used; one without, or a 404, falls back to the client's latest version; any other failure is re-made from its status alone |
| Authorization.Fallback | lib/authorizer.js:79-81 | a TypeError exactly when the manifest, its versions or its latest dist-tag is missing; otherwise the latest version's manifest, or none when that version is not listed |
| Authorization.TrustedManifestWins | lib/authorizer.js:76-77 | a fetched manifest with a repository wins whatever the client sent |
| Authorization.SplitTeamRepoRoundTrip | lib/authorizer.js:99 | `/team/repo`, with or without `.git…`, splits back into team and repo |
| Authorization.SplitTeamRepo | lib/authorizer.js:99 | a split puts the text before `.git` back together as `/team/repo`, and the repository holds no '/' |
| Authorization.SingleSegmentRejected | lib/authorizer.js:99-100 | a path with one segment does not split |
| Authorization.ParseGitUrl | lib/authorizer.js:94-106 | a path that does not split is 400 'Does not appear to be a valid git url: …'; a success is the split of the path |
| Authorization.Locate | lib/authorizer.js:72-114 | a located repository is the parse of the chosen manifest and lies under the configured team; a manifest failure is the result |
| Authorization.CheckTeam | lib/authorizer.js:108-114 | with a team configured, a repository under another team is 400 'Repo … not under team …' |
| Authorization.Decide | lib/authorizer.js:176-183 | allowed iff there is a first entry and its privilege is admin, write or the scope asked for |
| Authorization.DecisionByFirstEntry | lib/authorizer.js:176-183 | only the first entry counts; write implies read; read does not grant write |
| Authorization.ServerToken | lib/authorizer.js:201-212 | the client token or a non-empty stored alias; a failing lookup gives the client token; a non-empty alias always wins |
| Authorization.AliasRoundTrip | lib/authorizer.js:201-212 | an installed alias is what the client token resolves to; once deleted the client token resolves to itself |
| Authorization.Expired | lib/authorizer.js:160-170 | 401 'Refresh token expired, please login again'; the alias and the old refresh record are gone unless their keys fail; every other key is unchanged |
| Authorization.Reauthenticate | lib/authorizer.js:134-150 | a failing lookup finishes with the backend error and the cache as it was; a finished step is a failure; re-authenticating needs a stored non-empty refresh token, and the record is the authorization token for it, with its refresh token written |
| Authorization.Refresh | lib/authorizer.js:128-174 | as intended: success only after re-authentication, an accepted alias key and a successful second ask, whose privileges are the result; a failure is a 401 or the backend error with the cache as it was |
| Authorization.RefreshAsWritten | lib/authorizer.js:128-174 | as written: never succeeds; the failure is a 401 or the backend error with the cache as it was |
| Authorization.RefreshAsWrittenNeverRecovers | lib/authorizer.js:145-171 | as written, a successful re-authentication still ends in 401 with the alias gone and the new refresh record orphaned |
| Authorization.RefreshRecovers | lib/authorizer.js:145-159 | as intended, with re-authentication, the revoke, the alias write and the second ask succeeding, the request goes through, the alias points to the new token, its refresh record is kept and the old one is gone |
| Authorization.RefreshWithoutToken | lib/authorizer.js:134-144 | no stored refresh token deletes the alias only and asks for a new login with 401 |
| Authorization.RefreshFailureDropsAlias | lib/authorizer.js:128-174 | a failed refresh reports the cache failure untouched, or refuses with 401 leaving no alias |
| Authorization.PrivilegesOutcome | lib/authorizer.js:123-174 | privileges from the first ask are the result with nothing written; a failure other than 401 writes nothing and always carries a status |
| Authorization.Authorized | lib/authorizer.js:116-191 | without a cached user under the server token the request fails and nothing is written; a failure without a status writes nothing |
| Authorization.AuthorizeOutcome | lib/authorizer.js:24-50 | no token is 404 'Not found' with nothing written; a request goes through only when it passes every early check |
| Authorization.OtherFailurePropagates | lib/authorizer.js:128-132 | a privileges failure other than 401 is reported with its own status and changes nothing |
| Authorization.FirstAskDecides | lib/authorizer.js:123-183 | privileges obtained on the first ask decide the request and nothing is written |
| Authorization.EarlyRefusals | lib/authorizer.js:24-50 | no token is 404 and an unsupported method 405, whatever the front door or upstream would answer; every early refusal writes nothing |
| Authorization.ForeignTeamRefused | lib/authorizer.js:108-119 | a repository outside the configured team is refused with 400 before the cache is consulted |
| Authorization.WhoamiOutcome | lib/authorizer.js:52-62 | no token is 404 |
| Authorization.WhoamiFollowsAlias | lib/authorizer.js:52-62 | once an alias is installed, `whoami` answers the value cached under the server token |
| Authorization.Authorizer.GetSession | lib/authorizer.js:193-199 | the session is created once and the same one is returned thereafter |
| Authorization.Authorizer.GetServerToken | lib/authorizer.js:201-212 | the alias when stored and non-empty, else the client token, a failing lookup included |
| Authorization.Authorizer.PrivilegesRequest | lib/authorizer.js:127 | a fresh privileges request for the user on the repository, carrying the token |
| Authorization.Authorizer.Expire | lib/authorizer.js:160-170 | deletes alias and old refresh record and refuses with 401 'Refresh token expired, please login again' |
| Authorization.Authorizer.ReauthenticateStep | lib/authorizer.js:134-150 | result and new cache equal `Reauthenticate` |
| Authorization.Authorizer.RefreshOn401 | lib/authorizer.js:133-174 | result and new cache equal the intended refresh path `Refresh` |
| Authorization.Authorizer.CheckAuthorized | lib/authorizer.js:116-191 | result and new cache equal `Authorized` |
| Authorization.Authorizer.Authorize | lib/authorizer.js:24-50 | result and new cache equal `AuthorizeOutcome`; an early refusal creates no session |
| Authorization.Authorizer.Whoami | lib/authorizer.js:52-62 | answers `WhoamiOutcome` and writes nothing |

## Left out

- Network I/O (`got`) is not modelled. Every upstream endpoint is a total function from URL and options to a reply, and the front door's reply is an input.
- `github-url-from-git`, `url.parse` and `url.resolve` are foreign libraries. A manifest's repository carries its URL and the parsed path as inputs, and a parsed URL is an input of the clients' `url` setters.
- Base64 encoding of Basic credentials is not modelled. The header keeps the plain `user:pass` text.
- The concurrent `Promise.join` of the refresh path and of its cleanup is modelled in sequence. The joined steps touch distinct keys, but `Promise.join` rejects on the first rejection without waiting for the others. So the cleanup's `delAlias` (lib/authorizer.js:162) may run before a still pending `setAlias` (lib/authorizer.js:153) on the same key lands, and the alias then survives a refused refresh. The model does not capture this race.
- Authorization.RefreshFailureDropsAlias: "no alias is left after a 401" holds for the sequential model only. Under the race above, the alias written by the pending `setAlias` can remain.
- Cache failures are per key and persistent: a key in `failing` fails on every call for the whole request, and any other key never fails. A read that fails followed by a write that succeeds on the same key cannot be represented (for example a failed `getAlias` at lib/authorizer.js:203 and then a successful `setAlias`). Nor can a read that succeeds followed by a delete that fails. In the source, `unauthenticate` (lib/authenticator.js:38-44) swallows a failed `delRefreshToken`, so the old refresh record can survive a successful refresh.
- Authorization.RefreshRecovers: "the old refresh record is gone" rests on the revoke succeeding, which the lemma states as the hypothesis that the old record's key does not fail. In the model that already follows from the successful read of the same key, because failures are per key.
- The node-style callback form of `exec`/`execReq` (`wrapError` with `data`/`response`) is modelled only as `Http.WrapError`. The core uses the promise form.
- The `post`, `put` and `del` shorthands are only modelled through `Api.BitbucketRequest.ExecReq` with a verb.
- The `end()` methods, Redis client construction and environment-variable fallbacks in the constructors are left out. The clients and the cache client are given as constructor arguments.
- Console logging is left out.
- Decoding the cached user value is a parameter (`decode`). The source accesses `.name` and `.email` on the stored value directly.
- Authorization.LoadManifest: a front-door body that is not an object is not modelled.
- Authorization.LoadManifest: dist-tags present without `latest` are not modelled. The source would look up `versions["undefined"]`.
- Authorization.ExtractToken: a missing credentials object is treated as a missing header. Both give no token.
- A `null` protocol from `url.parse` (a URL without a scheme) is not modelled. The source would throw in `url()`.
- Authorization.Authorizer.RefreshOn401 follows the intended path, with `unauthenticate` in place of the missing `_unauthenticate`. The path as written is `Authorization.RefreshAsWritten`, and "Findings" compares the two.
- Authorization.PrivilegesOutcome, Authorization.Authorized, Authorization.AuthorizeOutcome, Authorization.Authorizer.CheckAuthorized and Authorization.Authorizer.Authorize are composed over the intended refresh path `Authorization.Refresh`, not over `Authorization.RefreshAsWritten`. On the input of the finding below they let the request through. The source as written refuses it with 401 'Refresh token expired, please login again' (lib/authorizer.js:152, 160-170).
- Authorization.ParseGitUrl: the `github-url-from-git` rewrite is foreign. The manifest's `url` is taken as already rewritten, and the 400 message quotes it as the source does.

## Findings

| source | as written | input that shows it | evidently intended | confidence | as-written member | corrected member |
|---|---|---|---|---|---|---|
| lib/authorizer.js:150-159 | the success handler of the re-authentication calls `self.authenticator._unauthenticate(token, true)`, but lib/authenticator.js:38 only defines `unauthenticate`; the call throws a TypeError before the alias is set or the privileges are asked again, so the failure handler at lib/authorizer.js:160-170 deletes the alias and the old refresh record and refuses with 401, leaving the refresh record just stored for the new token orphaned | a 401 from the privileges resource for a server token whose stored refresh token the token endpoint accepts, with the cache not failing on the alias or new refresh key | revoke the old refresh record with `unauthenticate`, install the alias to the new token and ask once more, succeeding when that ask does | not executed | Authorization.RefreshAsWrittenNeverRecovers | Authorization.RefreshRecovers |
