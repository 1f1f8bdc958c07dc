/** The authenticator: turns a login (or a refresh token) into an auth record
    through the OAuth 2.0 token endpoint and the current-user resource,
    applies the optional team restriction, and persists the refresh token in
    the session store. */
module Authentication {
  import opened Types
  import opened Http
  import Errors
  import Strings
  import Api
  import OAuth2
  import S = Session

  /** The login body; "" stands for a missing or falsy field. */
  datatype CredentialsBody = CredentialsBody(email: string, password: string, name: string, refreshToken: string)

  /** The credentials object; a falsy body is `None`. */
  datatype Credentials = Credentials(body: Option<CredentialsBody>)

  datatype User = User(name: string, email: string)

  /** What authentication yields: the access token, the user and the refresh
      token to persist. */
  datatype AuthRecord = AuthRecord(token: string, user: User, refreshToken: string)

  /** The token endpoint's reply (`access_token`, `refresh_token`). */
  datatype TokenReply = TokenReply(accessToken: string, refreshToken: string)

  /** The current-user resource's reply (`username`). */
  datatype UserReply = UserReply(username: string)

  datatype Member = Member(username: string)

  /** The teams resource's reply; a reply without `values` (or none at all)
      has `values == None`. */
  datatype TeamsReply = TeamsReply(values: Option<seq<Member>>)

  /** The identity provider's endpoints the authenticator calls. */
  datatype Provider = Provider(tokenEndpoint: Server<TokenReply>, currentUser: Server<UserReply>, teams: Server<TeamsReply>)

  /** Where the authenticator's requests go and which client credentials the
      token request carries, as read from its two clients. */
  datatype Endpoints = Endpoints(tokenUrl: string, clientId: string, clientSecret: string, userUrl: string, teamsUrl: string)

  /** A result together with the cache contents after the operation. */
  datatype Stored<T> = Stored(result: Result<T>, data: map<string, string>)

  /** `_validateCredentials`: credentials, body, email and password must all be
      truthy, so an empty password is refused. */
  predicate ValidCredentials(c: Option<Credentials>): (valid: bool)
    ensures c.None? || c.value.body.None? ==> !valid
    ensures c.Some? && c.value.body.Some? ==> (valid <==> c.value.body.value.email != "" && c.value.body.value.password != "")
  {
    c.Some? && c.value.body.Some? && c.value.body.value.email != "" && c.value.body.value.password != ""
  }

  const NoBody := CredentialsBody("", "", "", "")

  /** The name used before the provider's username is known: the given name,
      else the text of the email before '@' ("" when there is no '@'). */
  function ProvisionalName(b: CredentialsBody): (n: string)
    ensures b.name != "" ==> n == b.name
    ensures b.name == "" ==> |n| <= |b.email| && n == b.email[..|n|]
  {
    if b.name != "" then b.name else Strings.TextBefore(b.email, "@")
  }

  /** Without a given name, the provisional name is the local part of the
      email. */
  lemma ProvisionalNameFromEmail(local: string, domain: string, password: string, refreshToken: string)
    requires '@' !in local
    ensures ProvisionalName(CredentialsBody(local + "@" + domain, password, "", refreshToken)) == local
  {
    var email := local + "@" + domain;
    forall j | 0 <= j < |local|
      ensures !Strings.OccursAt(email, "@", j)
    {
      assert email[j..j + 1][0] == local[j];
    }
    assert email[|local|..|local| + 1] == "@";
    Strings.IndexFromFirst(email, "@", 0, |local|);
    assert email[..|local|] == local;
  }

  /** The configured team appears among the teams of the reply. */
  predicate IsMember(teams: TeamsReply, team: string) {
    teams.values.Some? && exists i :: 0 <= i < |teams.values.value| && teams.values.value[i].username == team
  }

  /** The options of a bearer GET on the REST API. */
  function BearerGet(token: string): GotOpts {
    Api.RequestOpts(Some("GET"), "", "", token)
  }

  /** `_getAuthorizationToken`: exchange the credentials (password grant, or
      refresh grant when a refresh token is given) for tokens, take the
      username from the current-user resource, and check team membership when
      a team is configured. */
  function AuthorizationToken(body: Option<CredentialsBody>, p: Provider, e: Endpoints, team: string): (r: Result<AuthRecord>)
    ensures var b := body.GetOr(NoBody);
            var tokens := Exec(p.tokenEndpoint, e.tokenUrl, OAuth2.GrantOpts(e.clientId, e.clientSecret, b.email, b.password, b.refreshToken));
            && (tokens.Err? ==> r == Err(tokens.error))
            && (r.Ok? ==> tokens.Ok? && r.value.token == tokens.value.accessToken && r.value.user.email == b.email)
    ensures r.Ok? && team != "" ==>
              Exec(p.teams, e.teamsUrl, BearerGet(r.value.token)).Ok? && IsMember(Exec(p.teams, e.teamsUrl, BearerGet(r.value.token)).value, team)
  {
    var b := body.GetOr(NoBody);
    var grant := OAuth2.GrantOpts(e.clientId, e.clientSecret, b.email, b.password, b.refreshToken);
    match Exec(p.tokenEndpoint, e.tokenUrl, grant)
    case Err(err) => Err(err)
    case Ok(data) =>
      var provisional := AuthRecord(data.accessToken, User(ProvisionalName(b), b.email), data.refreshToken);
      match Exec(p.currentUser, e.userUrl, BearerGet(provisional.token))
      case Err(err) => Err(err)
      case Ok(u) =>
        var auth := provisional.(user := provisional.user.(name := u.username));
        if team == "" then Ok(auth)
        else
          match Exec(p.teams, e.teamsUrl, BearerGet(auth.token))
          case Err(err) => Err(err)
          case Ok(t) =>
            if IsMember(t, team) then Ok(auth)
            else Err(Errors.ForCode(401, "Not a member of team " + team))
  }

  /** The auth record: the token and refresh token from the token endpoint,
      the email as given, and the provider's username in place of the
      provisional name. */
  lemma AuthRecordFromReplies(body: Option<CredentialsBody>, p: Provider, e: Endpoints, team: string)
    requires var b := body.GetOr(NoBody);
             p.tokenEndpoint(e.tokenUrl, OAuth2.GrantOpts(e.clientId, e.clientSecret, b.email, b.password, b.refreshToken)).Body?
    requires var tok := p.tokenEndpoint(e.tokenUrl, OAuth2.GrantOpts(e.clientId, e.clientSecret, body.GetOr(NoBody).email,
                                                        body.GetOr(NoBody).password, body.GetOr(NoBody).refreshToken)).value;
             p.currentUser(e.userUrl, BearerGet(tok.accessToken)).Body?
    ensures var b := body.GetOr(NoBody);
            var tok := p.tokenEndpoint(e.tokenUrl, OAuth2.GrantOpts(e.clientId, e.clientSecret, b.email, b.password, b.refreshToken)).value;
            var u := p.currentUser(e.userUrl, BearerGet(tok.accessToken)).value;
            var r := AuthorizationToken(body, p, e, team);
            && (team == "" ==> r == Ok(AuthRecord(tok.accessToken, User(u.username, b.email), tok.refreshToken)))
            && (r.Ok? ==> r.value == AuthRecord(tok.accessToken, User(u.username, b.email), tok.refreshToken))
  {
  }

  /** With a team configured, authentication succeeds iff the team is among
      the user's teams; otherwise it is refused with 401. */
  lemma TeamRestriction(body: Option<CredentialsBody>, p: Provider, e: Endpoints, team: string, tok: TokenReply, u: UserReply, t: TeamsReply)
    requires team != ""
    requires var b := body.GetOr(NoBody);
             p.tokenEndpoint(e.tokenUrl, OAuth2.GrantOpts(e.clientId, e.clientSecret, b.email, b.password, b.refreshToken)) == Body(tok)
    requires p.currentUser(e.userUrl, BearerGet(tok.accessToken)) == Body(u)
    requires p.teams(e.teamsUrl, BearerGet(tok.accessToken)) == Body(t)
    ensures AuthorizationToken(body, p, e, team).Ok? <==> IsMember(t, team)
    ensures !IsMember(t, team) ==> AuthorizationToken(body, p, e, team) == Err(Errors.ForCode(401, "Not a member of team " + team))
  {
  }

  /** A refresh token in the body selects the refresh grant, whatever else the
      body holds. */
  lemma RefreshTokenSelectsRefreshGrant(b: CredentialsBody, e: Endpoints)
    requires b.refreshToken != ""
    ensures var o := OAuth2.GrantOpts(e.clientId, e.clientSecret, b.email, b.password, b.refreshToken);
            o.body == Some(RefreshGrant(b.refreshToken)) && o.verb == Some("POST")
  {
  }

  /** `_authenticate` on cache contents `data`: the auth record is yielded only
      after its refresh token is written under `refresh-<token>`, so a failed
      write fails the authentication; a failed authentication writes
      nothing. */
  function AuthenticateOutcome(body: Option<CredentialsBody>, p: Provider, e: Endpoints, team: string,
                               data: map<string, string>, failing: set<string>): (o: Stored<AuthRecord>)
    ensures o.result.Err? ==> o.data == data
    ensures o.result.Ok? ==> o.result == AuthorizationToken(body, p, e, team) && S.RefreshTokenKey(o.result.value.token) !in failing
  {
    match AuthorizationToken(body, p, e, team)
    case Err(err) => Stored(Err(err), data)
    case Ok(a) =>
      var k := S.RefreshTokenKey(a.token);
      if k in failing then Stored(Err(BackendError), data)
      else Stored(Ok(a), S.Write(data, failing, k, a.refreshToken))
  }

  /** `authenticate`: invalid credentials are refused with 500 before
      anything else happens. */
  function AuthenticateRequest(c: Option<Credentials>, p: Provider, e: Endpoints, team: string,
                               data: map<string, string>, failing: set<string>): (o: Stored<AuthRecord>)
    ensures !ValidCredentials(c) ==> o == Stored(Err(Error(500, "Invalid credentials format")), data)
    ensures o.result.Ok? ==> ValidCredentials(c) && o.result.value.user.email == c.value.body.value.email
  {
    if !ValidCredentials(c) then Stored(Err(Errors.ForCode(500, "Invalid credentials format")), data)
    else AuthenticateOutcome(c.value.body, p, e, team, data, failing)
  }

  /** After a successful authentication with token T and refresh token R, the
      store returns R for T; every other key is as it was. */
  lemma AuthenticateStoresRefreshToken(body: Option<CredentialsBody>, p: Provider, e: Endpoints, team: string,
                                       data: map<string, string>, failing: set<string>, k: string)
    ensures var o := AuthenticateOutcome(body, p, e, team, data, failing);
            o.result.Ok? ==>
              && S.Read(o.data, failing, S.RefreshTokenKey(o.result.value.token)) == Ok(Some(o.result.value.refreshToken))
              && (k != S.RefreshTokenKey(o.result.value.token) ==> S.Read(o.data, failing, k) == S.Read(data, failing, k))
    ensures var o := AuthenticateOutcome(body, p, e, team, data, failing);
            o.result.Err? ==> o.data == data
  {
  }

  /** The write failure is surfaced: a token exchange that succeeded still
      fails the authentication when its refresh token cannot be stored. */
  lemma StoreFailureSurfaces(body: Option<CredentialsBody>, p: Provider, e: Endpoints, team: string,
                             data: map<string, string>, failing: set<string>)
    requires AuthorizationToken(body, p, e, team).Ok?
    requires S.RefreshTokenKey(AuthorizationToken(body, p, e, team).value.token) in failing
    ensures AuthenticateOutcome(body, p, e, team, data, failing) == Stored(Err(BackendError), data)
  {
  }

  /** Invalid credentials never reach the network: the outcome is the same
      whatever the identity provider would answer, and nothing is written. */
  lemma InvalidCredentialsShortCircuit(c: Option<Credentials>, p1: Provider, p2: Provider, e: Endpoints, team: string,
                                       data: map<string, string>, failing: set<string>)
    requires !ValidCredentials(c)
    ensures AuthenticateRequest(c, p1, e, team, data, failing) == AuthenticateRequest(c, p2, e, team, data, failing)
    ensures AuthenticateRequest(c, p1, e, team, data, failing) == Stored(Err(Errors.ForCode(500, "Invalid credentials format")), data)
    ensures AuthenticateRequest(c, p1, e, team, data, failing).result.error.statusCode == 500
  {
  }

  /** The membership scan of the teams reply, as the source's `for` loop. */
  method FindTeam(teams: TeamsReply, team: string) returns (found: bool)
    ensures found <==> IsMember(teams, team)
  {
    if teams.values.None? {
      return false;
    }
    var values := teams.values.value;
    var i := 0;
    while i < |values|
      invariant 0 <= i <= |values|
      invariant forall j :: 0 <= j < i ==> values[j].username != team
    {
      if values[i].username == team {
        return true;
      }
      i := i + 1;
    }
    return false;
  }

  class Authenticator {
    const oauthApi: OAuth2.BitbucketOAuth2Api
    const api: Api.BitbucketApi
    const team: string
    const client: S.RedisClient
    var session: S.Session?

    /** A session, once created, is over the authenticator's cache client. */
    ghost predicate Valid()
      reads this, session
    {
      session != null ==> session.client == client
    }

    /** The endpoints the authenticator's clients are configured for. */
    function Targets(): Endpoints
      reads oauthApi, api
    {
      Endpoints(oauthApi.TokenUrl(), oauthApi.clientId,
                if oauthApi.clientId != "" then oauthApi.clientSecret else "",
                api.UrlFor(Api.V2User), api.UrlFor(Api.V2TeamsByRole("member")))
    }

    constructor (oauthApi: OAuth2.BitbucketOAuth2Api, api: Api.BitbucketApi, team: string, client: S.RedisClient)
      ensures Valid()
      ensures this.oauthApi == oauthApi && this.api == api && this.team == team && this.client == client
      ensures session == null
    {
      this.oauthApi := oauthApi;
      this.api := api;
      this.team := team;
      this.client := client;
      session := null;
    }

    /** `_getSession`: nothing for a falsy precondition; otherwise the session,
        created on first use and the same one thereafter. */
    method GetSession(precondition: bool) returns (s: S.Session?)
      requires Valid()
      modifies this`session
      ensures Valid()
      ensures !precondition ==> s == null && session == old(session)
      ensures precondition ==> s != null && s == session
      ensures precondition && old(session) != null ==> s == old(session)
      ensures precondition && old(session) == null ==> fresh(s)
    {
      if !precondition {
        return null;
      }
      if session == null {
        session := new S.Session(client);
      }
      s := session;
    }

    /** The token request of `_getAuthorizationToken`: the configured client,
        the email and password, and the refresh token when one is given. */
    method RequestTokens(b: CredentialsBody, server: Server<TokenReply>) returns (r: Result<TokenReply>)
      ensures var e := Targets();
              r == Exec(server, e.tokenUrl, OAuth2.GrantOpts(e.clientId, e.clientSecret, b.email, b.password, b.refreshToken))
    {
      var tokenRequest := oauthApi.AccessTokenRequest();
      tokenRequest.UserPass(Api.TwoStrings(b.email, b.password));
      if b.refreshToken != "" {
        tokenRequest.RefreshToken(b.refreshToken);
      }
      r := tokenRequest.Exec(server);
    }

    /** A bearer GET of one REST resource. */
    method BearerRequest<T>(endpoint: Api.Endpoint, token: string, server: Server<T>) returns (r: Result<T>)
      ensures r == Exec(server, api.UrlFor(endpoint), BearerGet(token))
    {
      var request := api.Request(endpoint);
      request.AccessToken(token);
      r := request.Get(server);
    }

    /** `_getAuthorizationToken`, step by step on the request objects. */
    method GetAuthorizationToken(body: Option<CredentialsBody>, p: Provider) returns (r: Result<AuthRecord>)
      ensures r == AuthorizationToken(body, p, Targets(), team)
    {
      var b := body.GetOr(NoBody);
      var data := RequestTokens(b, p.tokenEndpoint);
      if data.Err? {
        return Err(data.error);
      }
      var auth := AuthRecord(data.value.accessToken, User(ProvisionalName(b), b.email), data.value.refreshToken);
      var user := BearerRequest(Api.V2User, auth.token, p.currentUser);
      if user.Err? {
        return Err(user.error);
      }
      auth := auth.(user := auth.user.(name := user.value.username));
      if team != "" {
        var teams := BearerRequest(Api.V2TeamsByRole("member"), auth.token, p.teams);
        if teams.Err? {
          return Err(teams.error);
        }
        var found := FindTeam(teams.value, team);
        if !found {
          return Err(Errors.ForCode(401, "Not a member of team " + team));
        }
      }
      r := Ok(auth);
    }

    /** `_storeRefreshToken`: nothing is written without a session or an
        authentication; otherwise the refresh token goes under
        `refresh-<token>`. */
    method StoreRefreshToken(s: S.Session?, authentication: Option<AuthRecord>) returns (r: Result<Option<string>>)
      modifies if s != null then {s.client} else {}
      ensures s == null || authentication.None? ==> r == Ok(None)
      ensures s != null && authentication.None? ==> s.client.data == old(s.client.data)
      ensures s != null && authentication.Some? ==>
        && s.client.data == S.Write(old(s.client.data), s.client.failing,
                                    S.RefreshTokenKey(authentication.value.token), authentication.value.refreshToken)
        && r == if S.RefreshTokenKey(authentication.value.token) in s.client.failing then Err(BackendError) else Ok(Some("OK"))
    {
      if s == null || authentication.None? {
        return Ok(None);
      }
      var w := s.SetRefreshToken(authentication.value.token, authentication.value.refreshToken);
      r := if w.Ok? then Ok(Some(w.value)) else Err(w.error);
    }

    /** `_dropRefreshToken`. */
    method DropRefreshToken(s: S.Session, token: string) returns (r: Result<int>)
      modifies s.client
      ensures s.client.data == S.Remove(old(s.client.data), s.client.failing, S.RefreshTokenKey(token))
      ensures r == if S.RefreshTokenKey(token) in s.client.failing then Err(BackendError) else Ok(1)
    {
      r := s.DelRefreshToken(token);
    }

    /** `_authenticate`: the session is created only once the tokens are
        obtained, and the record is returned only after the refresh token is
        stored. */
    method AuthenticateBody(body: Option<CredentialsBody>, p: Provider) returns (r: Result<AuthRecord>)
      requires Valid()
      modifies this`session, client
      ensures Valid()
      ensures r == AuthenticateOutcome(body, p, Targets(), team, old(client.data), client.failing).result
      ensures client.data == AuthenticateOutcome(body, p, Targets(), team, old(client.data), client.failing).data
      ensures AuthorizationToken(body, p, Targets(), team).Err? ==> session == old(session)
    {
      var auth := GetAuthorizationToken(body, p);
      if auth.Err? {
        return auth;
      }
      var s := GetSession(true);
      var stored := StoreRefreshToken(s, Some(auth.value));
      if stored.Err? {
        return Err(stored.error);
      }
      r := auth;
    }

    /** `authenticate`: credentials are validated before anything else. */
    method Authenticate(c: Option<Credentials>, p: Provider) returns (r: Result<AuthRecord>)
      requires Valid()
      modifies this`session, client
      ensures Valid()
      ensures r == AuthenticateRequest(c, p, Targets(), team, old(client.data), client.failing).result
      ensures client.data == AuthenticateRequest(c, p, Targets(), team, old(client.data), client.failing).data
      ensures !ValidCredentials(c) ==> session == old(session)
    {
      if !ValidCredentials(c) {
        return Err(Errors.ForCode(500, "Invalid credentials format"));
      }
      r := AuthenticateBody(c.value.body, p);
    }

    /** `unauthenticate`: deletes `refresh-<token>` and never fails; a
        backend error is swallowed (the reply is then absent). */
    method Unauthenticate(token: string) returns (deleted: Option<int>)
      requires Valid()
      modifies this`session, client
      ensures Valid() && session != null
      ensures client.data == S.Remove(old(client.data), client.failing, S.RefreshTokenKey(token))
      ensures deleted == if S.RefreshTokenKey(token) in client.failing then None else Some(1)
    {
      var s := GetSession(true);
      var d := DropRefreshToken(s, token);
      deleted := if d.Ok? then Some(d.value) else None;
    }
  }
}
