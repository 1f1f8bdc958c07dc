/** The authorizer: decides whether the holder of a bearer token may read or
    write a package, from the Bitbucket privileges of the repository the
    package's manifest names. On a 401 from the privileges resource it tries
    the stored refresh token once, installing an alias from the client's
    token to the new server token. */
module Authorization {
  import opened Types
  import opened Http
  import Errors
  import Strings
  import Api
  import A = Authentication
  import S = Session

  /** The `repository` of a manifest. `url` is the URL after
      `github-url-from-git` has rewritten a `git://` or `git@` URL (a foreign
      library), as the 400 message of `_parseGitUrl` quotes it; `path` is what
      `url.parse` gives as the path of that URL: `None` where the parse yields
      no path. */
  datatype Repository = Repository(url: string, path: Option<string>)

  datatype PackageJson = PackageJson(repository: Option<Repository>)

  /** The manifest the client sent: `versions` (when present) and the
      `latest` dist-tag (`None` when there are no dist-tags). */
  datatype Untrusted = Untrusted(versions: Option<map<string, PackageJson>>, latest: Option<string>)

  /** An authorization request: HTTP method, package path, the
      `authorization` header and the body (`None` when absent). */
  datatype Request = Request(verb: string, path: string, authorization: Option<string>, body: Option<Untrusted>)

  datatype Scope = Read | Write

  datatype TeamRepo = TeamRepo(team: string, repo: string)

  /** One entry of the privileges reply; "" for a missing `privilege`. */
  datatype PrivilegeEntry = PrivilegeEntry(privilege: string)

  /** Everything a decision depends on besides the cache contents: the REST
      client's settings, the authenticator's endpoints and team, the identity
      provider, the privileges resource, how a cached user value decodes, and
      the cache keys on which the backend fails. */
  datatype Env = Env(api: Api.Base, auth: A.Endpoints, authTeam: string, provider: A.Provider,
                     privileges: Server<seq<PrivilegeEntry>>, decode: string -> A.User, failing: set<string>)

  /** `_extractToken`: the header with its first "Bearer " removed, when it
      contains one; "" (no token) otherwise. */
  function ExtractToken(authorization: Option<string>): (t: string)
    ensures authorization.None? ==> t == ""
    ensures authorization.Some? && !Strings.Contains(authorization.value, "Bearer ") ==> t == ""
  {
    if authorization.Some? && Strings.Contains(authorization.value, "Bearer ") then
      Strings.ReplaceFirst(authorization.value, "Bearer ", "")
    else ""
  }

  /** A bearer header gives back exactly the token it carries. */
  lemma ExtractBearerToken(t: string)
    ensures ExtractToken(Some(BearerHeader(t))) == t
  {
    Strings.IndexOfPrefix("Bearer ", t);
    assert BearerHeader(t)[7..] == t;
  }

  /** The method switch of `authorize`. */
  function ScopeFor(verb: string): (r: Result<Scope>)
    ensures r == Ok(Read) <==> verb == "GET"
    ensures r == Ok(Write) <==> verb == "PUT" || verb == "POST" || verb == "DELETE"
    ensures r.Err? ==> r.error == Error(405, "Unsupported method: " + verb)
  {
    match verb
    case "GET" => Ok(Read)
    case "PUT" => Ok(Write)
    case "POST" => Ok(Write)
    case "DELETE" => Ok(Write)
    case _ => Err(Errors.ForCode(405, "Unsupported method: " + verb))
  }

  /** `untrusted.versions[untrusted['dist-tags'].latest]`: a TypeError when the
      manifest, its versions or its dist-tags are missing; `None` (undefined)
      when the latest version is not listed. */
  function Fallback(u: Option<Untrusted>): (r: Result<Option<PackageJson>>)
    ensures r.Err? <==> u.None? || u.value.versions.None? || u.value.latest.None?
    ensures r.Err? ==> r.error == TypeError
    ensures r.Ok? && r.value.Some? ==>
              u.value.latest.value in u.value.versions.value && r.value.value == u.value.versions.value[u.value.latest.value]
    ensures r.Ok? && r.value.None? ==> u.value.latest.value !in u.value.versions.value
  {
    if u.None? || u.value.versions.None? || u.value.latest.None? then Err(TypeError)
    else if u.value.latest.value in u.value.versions.value then Ok(Some(u.value.versions.value[u.value.latest.value]))
    else Ok(None)
  }

  /** `_loadPackageJson` given the front door's reply: the fetched manifest
      when it names a repository, else the client's; a 404 also falls back to
      the client's manifest, and any other failure, including a failing
      fallback after a fetch, is re-made by `forCode` from its status code
      alone. */
  function LoadManifest(fetched: Reply<PackageJson>, u: Option<Untrusted>): (r: Result<Option<PackageJson>>)
    ensures fetched.Body? && fetched.value.repository.Some? ==> r == Ok(Some(fetched.value))
    ensures fetched.Body? && fetched.value.repository.None? ==>
              r == if Fallback(u).Ok? then Fallback(u) else Err(Error(500, "Unknown error"))
    ensures fetched.Failed? && fetched.err.statusCode == 404 ==> r == Fallback(u)
    ensures fetched.Failed? && fetched.err.statusCode != 404 ==>
              r == Err(Error(if fetched.err.statusCode == 0 then 500 else fetched.err.statusCode,
                             Errors.DefaultMessage(if fetched.err.statusCode == 0 then 500 else fetched.err.statusCode)))
  {
    var first: Result<Option<PackageJson>> :=
      match fetched
      case Body(b) => if b.repository.Some? then Ok(Some(b)) else Fallback(u)
      case Failed(e) => Err(Error(e.statusCode, e.statusMessage));
    match first
    case Ok(m) => Ok(m)
    case Err(err) => if err.statusCode == 404 then Fallback(u) else Err(Errors.ForCode(err.statusCode, ""))
  }

  /** A fetched manifest that names a repository is trusted over whatever the
      client sent. */
  lemma TrustedManifestWins(b: PackageJson, u1: Option<Untrusted>, u2: Option<Untrusted>)
    requires b.repository.Some?
    ensures LoadManifest(Body(b), u1) == LoadManifest(Body(b), u2) == Ok(Some(b))
  {
  }

  /** The characters JavaScript's `.` in a regular expression does not
      match. */
  predicate IsLineTerminator(c: char) {
    c == '\n' || c == '\r' || c == '\U{2028}' || c == '\U{2029}'
  }

  predicate NoLineTerminator(s: string) {
    forall k :: 0 <= k < |s| ==> !IsLineTerminator(s[k])
  }

  /** `path.split('.git')[0].match(/^\/(.*)\/(.*)$/)`: the text before the
      first ".git" must start with '/' and hold another '/'; the repository is
      what follows the last '/', the team what lies between the first and the
      last. Whatever it returns puts the text before ".git" back together,
      with a repository that holds no '/'. */
  function SplitTeamRepo(path: string): (r: Option<TeamRepo>)
    ensures r.Some? ==> Strings.BeforeFirst(path, ".git") == "/" + r.value.team + "/" + r.value.repo && '/' !in r.value.repo
  {
    var s := Strings.BeforeFirst(path, ".git");
    if |s| == 0 || s[0] != '/' || !NoLineTerminator(s) then None
    else
      match Strings.LastIndexOf(s, '/')
      case None => None
      case Some(j) =>
        if j == 0 then None
        else
          LastSegment(s, j);
          Some(TeamRepo(s[1..j], s[j + 1..]))
  }

  /** Cutting a path that starts with '/' at its last '/'. */
  lemma LastSegment(s: string, j: nat)
    requires 0 < j < |s| && s[0] == '/' && s[j] == '/'
    requires forall k :: j < k < |s| ==> s[k] != '/'
    ensures s == "/" + s[1..j] + "/" + s[j + 1..] && '/' !in s[j + 1..]
  {
    assert s == [s[0]] + s[1..j] + [s[j]] + s[j + 1..];
    var repo := s[j + 1..];
    forall i | 0 <= i < |repo|
      ensures repo[i] != '/'
    {
      assert repo[i] == s[j + 1 + i];
    }
  }

  /** The path of a repository URL, with or without ".git" and whatever
      follows it, gives back its team and repository. */
  lemma SplitTeamRepoRoundTrip(team: string, repo: string, rest: string)
    requires '/' !in repo && NoLineTerminator(team) && NoLineTerminator(repo)
    requires !Strings.Contains("/" + team + "/" + repo, ".git")
    ensures SplitTeamRepo("/" + team + "/" + repo) == Some(TeamRepo(team, repo))
    ensures SplitTeamRepo("/" + team + "/" + repo + ".git" + rest) == Some(TeamRepo(team, repo))
  {
    var pre := "/" + team;
    var s := pre + ['/'] + repo;
    assert s == "/" + team + "/" + repo;
    Strings.IndexOfGitSuffix(s, rest);
    assert (s + ".git" + rest)[..|s|] == s;
    assert Strings.BeforeFirst(s + ".git" + rest, ".git") == s;
    assert Strings.BeforeFirst(s, ".git") == s;
    forall k | 0 <= k < |s|
      ensures !IsLineTerminator(s[k])
    {
      if 1 <= k < |pre| {
        assert s[k] == team[k - 1];
      } else if |pre| < k {
        assert s[k] == repo[k - |pre| - 1];
      }
    }
    Strings.LastIndexOfJoin(pre, '/', repo);
    assert s[..|pre|] == pre;
    assert s[1..|pre|] == pre[1..] == team;
    assert s[|pre| + 1..] == repo;
  }

  /** A path with a single segment is not a repository path. */
  lemma SingleSegmentRejected(path: string)
    requires |path| > 0 && path[0] == '/' && '/' !in path[1..]
    ensures SplitTeamRepo(path) == None
  {
    var s := Strings.BeforeFirst(path, ".git");
    assert |s| <= |path| && s == path[..|s|];
    forall i | 1 <= i < |s|
      ensures s[i] != '/'
    {
      assert s[i] == path[1..][i - 1];
    }
  }

  /** `_parseGitUrl` after the manifest is chosen: no manifest, no repository
      or no path is a TypeError; a path that does not split is rejected with
      400. */
  function ParseGitUrl(m: Option<PackageJson>): (r: Result<TeamRepo>)
    ensures m.Some? && m.value.repository.Some? && m.value.repository.value.path.Some? &&
            SplitTeamRepo(m.value.repository.value.path.value).None? ==>
              r == Err(Error(400, "Does not appear to be a valid git url: " + m.value.repository.value.url))
    ensures r.Ok? ==> m.Some? && m.value.repository.Some? && m.value.repository.value.path.Some? &&
                      SplitTeamRepo(m.value.repository.value.path.value) == Some(r.value)
  {
    if m.None? || m.value.repository.None? || m.value.repository.value.path.None? then Err(TypeError)
    else
      var repo := m.value.repository.value;
      match SplitTeamRepo(repo.path.value)
      case None => Err(Errors.ForCode(400, "Does not appear to be a valid git url: " + repo.url))
      case Some(tr) => Ok(tr)
  }

  /** `_checkTeam`: with a team configured, the repository must be under it. */
  function CheckTeam(team: string, tr: TeamRepo): (r: Result<TeamRepo>)
    ensures r.Ok? <==> team == "" || team == tr.team
    ensures r.Ok? ==> r.value == tr
    ensures r.Err? ==> r.error == Error(400, "Repo " + tr.repo + " not under team " + team)
  {
    if team != "" && team != tr.team then Err(Errors.ForCode(400, "Repo " + tr.repo + " not under team " + team))
    else Ok(tr)
  }

  /** The manifest, git-URL and team stages together. */
  function Locate(team: string, fetched: Reply<PackageJson>, u: Option<Untrusted>): (r: Result<TeamRepo>)
    ensures r.Ok? ==> LoadManifest(fetched, u).Ok? && ParseGitUrl(LoadManifest(fetched, u).value) == Ok(r.value)
    ensures r.Ok? ==> team == "" || r.value.team == team
    ensures LoadManifest(fetched, u).Err? ==> r == Err(LoadManifest(fetched, u).error)
  {
    match LoadManifest(fetched, u)
    case Err(e) => Err(e)
    case Ok(m) =>
      match ParseGitUrl(m)
      case Err(e) => Err(e)
      case Ok(tr) => CheckTeam(team, tr)
  }

  function ScopeName(scope: Scope): string {
    match scope
    case Read => "read"
    case Write => "write"
  }

  /** The decision: the first entry's privilege is "admin", "write", or the
      scope asked for; no entry, or an entry without a privilege, denies. */
  function Decide(privileges: seq<PrivilegeEntry>, scope: Scope): (allowed: bool)
    ensures allowed <==> |privileges| > 0 && privileges[0].privilege in {"admin", "write", ScopeName(scope)}
  {
    |privileges| > 0 && privileges[0].privilege != "" &&
    (privileges[0].privilege == "admin" || privileges[0].privilege == "write" || privileges[0].privilege == ScopeName(scope))
  }

  /** Only the first entry counts; admin and write grant both scopes, read
      grants reading only. */
  lemma DecisionByFirstEntry(privileges: seq<PrivilegeEntry>, scope: Scope)
    ensures |privileges| > 0 ==> Decide(privileges, scope) == Decide(privileges[..1], scope)
    ensures Decide(privileges, Write) ==> Decide(privileges, Read)
    ensures |privileges| > 0 && privileges[0].privilege == "read" ==> Decide(privileges, Read) && !Decide(privileges, Write)
  {
  }

  /** `_getServerToken`: the alias of the client token when one is stored
      and non-empty; the client token itself otherwise, a failing lookup
      included. */
  function ServerToken(data: map<string, string>, failing: set<string>, clientToken: string): (t: string)
    ensures t == clientToken || (S.Read(data, failing, S.AliasKey(clientToken)) == Ok(Some(t)) && t != "")
    ensures S.Read(data, failing, S.AliasKey(clientToken)).Err? ==> t == clientToken
    ensures var alias := S.Read(data, failing, S.AliasKey(clientToken));
            alias.Ok? && alias.value.Some? && alias.value.value != "" ==> t == alias.value.value
  {
    match S.Read(data, failing, S.AliasKey(clientToken))
    case Ok(Some(v)) => if v != "" then v else clientToken
    case _ => clientToken
  }

  /** An alias that is written is what the client token resolves to; once it
      is deleted, the client token resolves to itself. */
  lemma AliasRoundTrip(data: map<string, string>, failing: set<string>, clientToken: string, serverToken: string)
    requires S.AliasKey(clientToken) !in failing && serverToken != ""
    ensures ServerToken(S.Write(data, failing, S.AliasKey(clientToken), serverToken), failing, clientToken) == serverToken
    ensures ServerToken(S.Remove(data, failing, S.AliasKey(clientToken)), failing, clientToken) == clientToken
  {
  }

  /** The privileges of `name` on the repository, asked with `token`. */
  function Fetch(env: Env, tr: TeamRepo, name: string, token: string): Result<seq<PrivilegeEntry>> {
    Exec(env.privileges, env.api.Url(Api.V1RepoPrivilegesForUser(tr.team, tr.repo, name)), A.BearerGet(token))
  }

  /** The login body of the re-authentication: the cached user's email and
      name with the stored refresh token, and no password. */
  function ReauthBody(user: A.User, refreshToken: string): A.CredentialsBody {
    A.CredentialsBody(user.email, "", user.name, refreshToken)
  }

  /** The end of every failed refresh after a re-authentication was tried:
      the alias and the old refresh record are deleted (failures ignored) and
      the request is refused with 401. */
  function Expired(data: map<string, string>, failing: set<string>, clientToken: string, token: string): (o: A.Stored<seq<PrivilegeEntry>>)
    ensures o.result == Err(Error(401, "Refresh token expired, please login again"))
    ensures S.AliasKey(clientToken) !in failing ==> S.AliasKey(clientToken) !in o.data
    ensures S.RefreshTokenKey(token) !in failing ==> S.RefreshTokenKey(token) !in o.data
    ensures forall k | k != S.AliasKey(clientToken) && k != S.RefreshTokenKey(token) :: S.Read(o.data, failing, k) == S.Read(data, failing, k)
  {
    A.Stored(Err(Errors.ForCode(401, "Refresh token expired, please login again")),
             S.Remove(S.Remove(data, failing, S.AliasKey(clientToken)), failing, S.RefreshTokenKey(token)))
  }

  /** Where the refresh path stands once the stored refresh token has been
      read and used: finished, or re-authenticated with the cache contents
      after the new refresh token was stored. */
  datatype ReauthStep = Finished(outcome: A.Stored<seq<PrivilegeEntry>>) | Reauthenticated(auth: A.AuthRecord, data: map<string, string>)
  {
    /** The cache contents at this point. */
    function Data(): map<string, string> {
      match this
      case Finished(o) => o.data
      case Reauthenticated(_, d) => d
    }
  }

  /** The first half of the refresh path: a failing lookup propagates; no
      stored refresh token deletes the alias and asks for a new login; else
      the user re-authenticates with the refresh token. */
  function Reauthenticate(env: Env, user: A.User, clientToken: string, token: string, data: map<string, string>): (step: ReauthStep)
    ensures S.Read(data, env.failing, S.RefreshTokenKey(token)).Err? ==> step == Finished(A.Stored(Err(BackendError), data))
    ensures step.Finished? ==> step.outcome.result.Err?
    ensures step.Reauthenticated? ==>
              var stored := S.Read(data, env.failing, S.RefreshTokenKey(token));
              && stored.Ok? && stored.value.Some? && stored.value.value != ""
              && A.AuthorizationToken(Some(ReauthBody(user, stored.value.value)), env.provider, env.auth, env.authTeam) == Ok(step.auth)
              && S.RefreshTokenKey(step.auth.token) !in env.failing
              && step.data == S.Write(data, env.failing, S.RefreshTokenKey(step.auth.token), step.auth.refreshToken)
  {
    match S.Read(data, env.failing, S.RefreshTokenKey(token))
    case Err(e) => Finished(A.Stored(Err(e), data))
    case Ok(rt) =>
      if rt.None? || rt.value == "" then
        Finished(A.Stored(Err(Errors.ForCode(401, "Please login again")), S.Remove(data, env.failing, S.AliasKey(clientToken))))
      else
        var a := A.AuthenticateOutcome(Some(ReauthBody(user, rt.value)), env.provider, env.auth, env.authTeam, data, env.failing);
        match a.result
        case Err(_) => Finished(Expired(a.data, env.failing, clientToken, token))
        case Ok(auth) => Reauthenticated(auth, a.data)
  }

  /** The refresh path as intended: the old refresh record is revoked (never
      failing), the alias is pointed at the new token and the privileges are
      asked once more with it; any failure ends as `Expired`. */
  function Refresh(env: Env, tr: TeamRepo, user: A.User, clientToken: string, token: string, data: map<string, string>): (o: A.Stored<seq<PrivilegeEntry>>)
    ensures o.result.Ok? ==>
              var step := Reauthenticate(env, user, clientToken, token, data);
              && step.Reauthenticated? && S.AliasKey(clientToken) !in env.failing
              && Fetch(env, tr, user.name, Api.Truthy(step.auth.token, token)) == Ok(o.result.value)
    ensures o.result.Err? ==> o.result.error.statusCode == 401 || (o.result.error == BackendError && o.data == data)
  {
    match Reauthenticate(env, user, clientToken, token, data)
    case Finished(o) => o
    case Reauthenticated(auth, d) =>
      var revoked := S.Remove(d, env.failing, S.RefreshTokenKey(token));
      var aliased := S.Write(revoked, env.failing, S.AliasKey(clientToken), auth.token);
      var retry := Fetch(env, tr, user.name, Api.Truthy(auth.token, token));
      if S.AliasKey(clientToken) !in env.failing && retry.Ok? then A.Stored(Ok(retry.value), aliased)
      else Expired(aliased, env.failing, clientToken, token)
  }

  /** The refresh path as the source has it: the success handler calls an
      `_unauthenticate` the authenticator does not define, so the TypeError
      it throws lands in the failure handler before the alias is set or the
      privileges are asked again. */
  function RefreshAsWritten(env: Env, tr: TeamRepo, user: A.User, clientToken: string, token: string, data: map<string, string>): (o: A.Stored<seq<PrivilegeEntry>>)
    ensures o.result.Err?
    ensures o.result.error.statusCode == 401 || (o.result.error == BackendError && o.data == data)
  {
    match Reauthenticate(env, user, clientToken, token, data)
    case Finished(o) => o
    case Reauthenticated(_, d) => Expired(d, env.failing, clientToken, token)
  }

  /** As written, a successful re-authentication still refuses the request
      with 401 and deletes the alias, while the refresh record just stored
      for the new token stays behind with nothing pointing to it. */
  lemma RefreshAsWrittenNeverRecovers(env: Env, tr: TeamRepo, user: A.User, clientToken: string, token: string,
                                      data: map<string, string>, rt: string, auth: A.AuthRecord)
    requires S.Read(data, env.failing, S.RefreshTokenKey(token)) == Ok(Some(rt)) && rt != ""
    requires A.AuthorizationToken(Some(ReauthBody(user, rt)), env.provider, env.auth, env.authTeam) == Ok(auth)
    requires auth.token != token
    requires S.RefreshTokenKey(auth.token) !in env.failing && S.AliasKey(clientToken) !in env.failing
    ensures var o := RefreshAsWritten(env, tr, user, clientToken, token, data);
            && o.result == Err(Error(401, "Refresh token expired, please login again"))
            && ServerToken(o.data, env.failing, clientToken) == clientToken
            && S.Read(o.data, env.failing, S.RefreshTokenKey(auth.token)) == Ok(Some(auth.refreshToken))
  {
    var d := S.Write(data, env.failing, S.RefreshTokenKey(auth.token), auth.refreshToken);
    assert Reauthenticate(env, user, clientToken, token, data) == Reauthenticated(auth, d);
    S.NamespacesDisjoint(auth.token, clientToken);
    S.RefreshTokenKeyInjective(auth.token, token);
  }

  /** As intended, when re-authentication, the revoke of the old refresh
      record, the alias write and the second ask all succeed, the request
      goes through with the new privileges; the client token now resolves to
      the new token, whose refresh record is kept, and the old refresh record
      is gone. */
  lemma RefreshRecovers(env: Env, tr: TeamRepo, user: A.User, clientToken: string, token: string,
                        data: map<string, string>, rt: string, auth: A.AuthRecord, privileges: seq<PrivilegeEntry>)
    requires S.Read(data, env.failing, S.RefreshTokenKey(token)) == Ok(Some(rt)) && rt != ""
    requires A.AuthorizationToken(Some(ReauthBody(user, rt)), env.provider, env.auth, env.authTeam) == Ok(auth)
    requires auth.token != "" && auth.token != token
    requires S.RefreshTokenKey(auth.token) !in env.failing && S.AliasKey(clientToken) !in env.failing
    requires S.RefreshTokenKey(token) !in env.failing
    requires Fetch(env, tr, user.name, auth.token) == Ok(privileges)
    ensures var o := Refresh(env, tr, user, clientToken, token, data);
            && o.result == Ok(privileges)
            && ServerToken(o.data, env.failing, clientToken) == auth.token
            && S.Read(o.data, env.failing, S.RefreshTokenKey(auth.token)) == Ok(Some(auth.refreshToken))
            && S.Read(o.data, env.failing, S.RefreshTokenKey(token)) == Ok(None)
  {
    var d := S.Write(data, env.failing, S.RefreshTokenKey(auth.token), auth.refreshToken);
    assert Reauthenticate(env, user, clientToken, token, data) == Reauthenticated(auth, d);
    S.NamespacesDisjoint(auth.token, clientToken);
    S.NamespacesDisjoint(token, clientToken);
    S.RefreshTokenKeyInjective(auth.token, token);
  }

  /** Without a stored refresh token the alias is deleted, nothing else is
      touched, and a new login is asked for. */
  lemma RefreshWithoutToken(env: Env, tr: TeamRepo, user: A.User, clientToken: string, token: string, data: map<string, string>)
    requires S.Read(data, env.failing, S.RefreshTokenKey(token)) in {Ok(None), Ok(Some(""))}
    ensures Refresh(env, tr, user, clientToken, token, data)
         == A.Stored(Err(Error(401, "Please login again")), S.Remove(data, env.failing, S.AliasKey(clientToken)))
  {
  }

  /** A failed refresh either reports the cache's failure with the cache as
      it was, or refuses with 401 and leaves no alias for the client token
      (unless the cache fails on that key). */
  lemma RefreshFailureDropsAlias(env: Env, tr: TeamRepo, user: A.User, clientToken: string, token: string, data: map<string, string>)
    ensures var o := Refresh(env, tr, user, clientToken, token, data);
            o.result.Err? ==>
              || (o.result.error == BackendError && o.data == data)
              || (o.result.error.statusCode == 401 && (S.AliasKey(clientToken) !in env.failing ==> S.AliasKey(clientToken) !in o.data))
  {
    var k := S.AliasKey(clientToken);
    S.NamespacesDisjoint(token, clientToken);
    match Reauthenticate(env, user, clientToken, token, data)
    case Finished(o) =>
    case Reauthenticated(auth, d) =>
      var aliased := S.Write(S.Remove(d, env.failing, S.RefreshTokenKey(token)), env.failing, k, auth.token);
      assert k !in env.failing ==> k !in S.Remove(aliased, env.failing, k);
  }

  /** The privileges as `_checkAuthorized` obtains them: a failure other than
      401 is re-made by `forCode`; a 401 takes the refresh path. */
  function PrivilegesOutcome(env: Env, tr: TeamRepo, user: A.User, clientToken: string, token: string, data: map<string, string>): (o: A.Stored<seq<PrivilegeEntry>>)
    ensures Fetch(env, tr, user.name, token).Ok? ==> o == A.Stored(Ok(Fetch(env, tr, user.name, token).value), data)
    ensures Fetch(env, tr, user.name, token).Err? && Fetch(env, tr, user.name, token).error.statusCode != 401 ==>
              o.data == data && o.result.Err? && o.result.error.statusCode != 0
  {
    match Fetch(env, tr, user.name, token)
    case Ok(p) => A.Stored(Ok(p), data)
    case Err(e) =>
      if e.statusCode != 401 then A.Stored(Err(Errors.ForCode(e.statusCode, e.message)), data)
      else Refresh(env, tr, user, clientToken, token, data)
  }

  /** `_checkAuthorized` once the repository is located: resolve the server
      token, read the cached user under it (a missing one is a TypeError),
      obtain the privileges and decide; every failure of the privileges
      stage is re-made by `forCode`. */
  function Authorized(env: Env, tr: TeamRepo, clientToken: string, scope: Scope, data: map<string, string>): (o: A.Stored<bool>)
    ensures var cached := S.Read(data, env.failing, ServerToken(data, env.failing, clientToken));
            !(cached.Ok? && cached.value.Some?) ==> o.result.Err? && o.data == data
    ensures o.result.Err? && o.result.error.statusCode == 0 ==> o.data == data
  {
    var token := ServerToken(data, env.failing, clientToken);
    match S.Read(data, env.failing, token)
    case Err(e) => A.Stored(Err(e), data)
    case Ok(None) => A.Stored(Err(TypeError), data)
    case Ok(Some(raw)) =>
      var got := PrivilegesOutcome(env, tr, env.decode(raw), clientToken, token, data);
      match got.result
      case Ok(p) => A.Stored(Ok(Decide(p, scope)), got.data)
      case Err(e) => A.Stored(Err(Errors.ForCode(e.statusCode, e.message)), got.data)
  }

  /** A failure of the privileges resource other than 401 is reported once,
      with its own status, and changes nothing. */
  lemma OtherFailurePropagates(env: Env, tr: TeamRepo, clientToken: string, scope: Scope, data: map<string, string>, raw: string, e: Error)
    requires S.Read(data, env.failing, ServerToken(data, env.failing, clientToken)) == Ok(Some(raw))
    requires Fetch(env, tr, env.decode(raw).name, ServerToken(data, env.failing, clientToken)) == Err(e)
    requires e.statusCode != 401
    ensures Authorized(env, tr, clientToken, scope, data) == A.Stored(Err(Errors.ForCode(e.statusCode, e.message)), data)
  {
    Errors.ForCodeRewrap(e.statusCode, e.message);
  }

  /** Privileges obtained on the first ask decide the request, and nothing
      is written. */
  lemma FirstAskDecides(env: Env, tr: TeamRepo, clientToken: string, scope: Scope, data: map<string, string>, raw: string, p: seq<PrivilegeEntry>)
    requires S.Read(data, env.failing, ServerToken(data, env.failing, clientToken)) == Ok(Some(raw))
    requires Fetch(env, tr, env.decode(raw).name, ServerToken(data, env.failing, clientToken)) == Ok(p)
    ensures Authorized(env, tr, clientToken, scope, data) == A.Stored(Ok(Decide(p, scope)), data)
  {
  }

  /** `authorize`: no token is 404, an unsupported method 405, then the
      repository is located and the privileges decide. */
  function AuthorizeOutcome(env: Env, team: string, req: Request, fetched: Reply<PackageJson>, data: map<string, string>): (o: A.Stored<bool>)
    ensures ExtractToken(req.authorization) == "" ==> o == A.Stored(Err(Error(404, "Not found")), data)
    ensures o.result.Ok? ==> !RefusedEarly(team, req, fetched)
  {
    var clientToken := ExtractToken(req.authorization);
    if clientToken == "" then A.Stored(Err(Errors.ForCode(404, "")), data)
    else
      match ScopeFor(req.verb)
      case Err(e) => A.Stored(Err(e), data)
      case Ok(scope) =>
        match Locate(team, fetched, req.body)
        case Err(e) => A.Stored(Err(e), data)
        case Ok(tr) => Authorized(env, tr, clientToken, scope, data)
  }

  /** The requests refused before the cache is consulted. */
  predicate RefusedEarly(team: string, req: Request, fetched: Reply<PackageJson>) {
    ExtractToken(req.authorization) == "" || ScopeFor(req.verb).Err? || Locate(team, fetched, req.body).Err?
  }

  /** A request refused before the cache is consulted changes nothing; a
      missing token is 404 and an unsupported method 405 whatever the front
      door and the upstream would answer, since neither is asked. */
  lemma EarlyRefusals(env1: Env, env2: Env, team: string, req: Request, f1: Reply<PackageJson>, f2: Reply<PackageJson>, data: map<string, string>)
    ensures RefusedEarly(team, req, f1) ==>
              AuthorizeOutcome(env1, team, req, f1, data).data == data && AuthorizeOutcome(env1, team, req, f1, data).result.Err?
    ensures ExtractToken(req.authorization) == "" ==>
              AuthorizeOutcome(env1, team, req, f1, data) == AuthorizeOutcome(env2, team, req, f2, data) == A.Stored(Err(Error(404, "Not found")), data)
    ensures ExtractToken(req.authorization) != "" && ScopeFor(req.verb).Err? ==>
              AuthorizeOutcome(env1, team, req, f1, data) == AuthorizeOutcome(env2, team, req, f2, data)
              == A.Stored(Err(Error(405, "Unsupported method: " + req.verb)), data)
  {
  }

  /** A repository outside the configured team is refused with 400 before the
      cache is consulted. */
  lemma ForeignTeamRefused(env: Env, team: string, req: Request, fetched: Reply<PackageJson>, data: map<string, string>, m: Option<PackageJson>)
    requires ExtractToken(req.authorization) != "" && ScopeFor(req.verb).Ok?
    requires LoadManifest(fetched, req.body) == Ok(m) && ParseGitUrl(m).Ok?
    requires team != "" && team != ParseGitUrl(m).value.team
    ensures AuthorizeOutcome(env, team, req, fetched, data)
         == A.Stored(Err(Error(400, "Repo " + ParseGitUrl(m).value.repo + " not under team " + team)), data)
  {
  }

  /** `whoami`: the cached value under the client token's server token. */
  function WhoamiOutcome(authorization: Option<string>, data: map<string, string>, failing: set<string>): (r: Result<Option<string>>)
    ensures ExtractToken(authorization) == "" ==> r == Err(Error(404, "Not found"))
  {
    var clientToken := ExtractToken(authorization);
    if clientToken == "" then Err(Errors.ForCode(404, ""))
    else S.Read(data, failing, ServerToken(data, failing, clientToken))
  }

  /** After an alias from the client token is installed, `whoami` answers
      with the value cached under the server token, not the client token. */
  lemma WhoamiFollowsAlias(data: map<string, string>, failing: set<string>, clientToken: string, serverToken: string)
    requires clientToken != "" && serverToken != ""
    requires S.AliasKey(clientToken) !in failing
    ensures var d := S.Write(data, failing, S.AliasKey(clientToken), serverToken);
            WhoamiOutcome(Some(BearerHeader(clientToken)), d, failing) == S.Read(d, failing, serverToken)
  {
    ExtractBearerToken(clientToken);
    AliasRoundTrip(data, failing, clientToken, serverToken);
  }

  class Authorizer {
    const team: string
    const api: Api.BitbucketApi
    const authenticator: A.Authenticator
    const client: S.RedisClient
    var session: S.Session?

    /** The authorizer's session and the authenticator's are over one cache
        client. */
    ghost predicate Valid()
      reads this, session, authenticator, authenticator.session
    {
      && (session != null ==> session.client == client)
      && authenticator.client == client
      && authenticator.Valid()
    }

    constructor (team: string, api: Api.BitbucketApi, authenticator: A.Authenticator, client: S.RedisClient)
      requires authenticator.client == client && authenticator.Valid()
      ensures Valid()
      ensures this.team == team && this.api == api && this.authenticator == authenticator && this.client == client
      ensures session == null
    {
      this.team := team;
      this.api := api;
      this.authenticator := authenticator;
      this.client := client;
      session := null;
    }

    /** The decision's environment as the authorizer is configured. */
    function Environment(provider: A.Provider, privileges: Server<seq<PrivilegeEntry>>, decode: string -> A.User): Env
      reads api, authenticator.oauthApi, authenticator.api
    {
      Env(api.Settings(), authenticator.Targets(), authenticator.team, provider, privileges, decode, client.failing)
    }

    /** `_getSession`: created on first use, the same one thereafter. */
    method GetSession() returns (s: S.Session)
      requires Valid()
      modifies this`session
      ensures Valid()
      ensures s == session
      ensures old(session) != null ==> s == old(session)
      ensures old(session) == null ==> fresh(s)
    {
      if session == null {
        session := new S.Session(client);
      }
      s := session;
    }

    /** `_getServerToken`. */
    method GetServerToken(s: S.Session, clientToken: string) returns (token: string)
      ensures token == ServerToken(s.client.data, s.client.failing, clientToken)
    {
      var alias := s.GetAlias(clientToken);
      token := if alias.Ok? && alias.value.Some? && alias.value.value != "" then alias.value.value else clientToken;
    }

    /** The privileges request for `name`, carrying `token`. */
    method PrivilegesRequest(tr: TeamRepo, name: string, token: string) returns (req: Api.BitbucketRequest)
      ensures fresh(req)
      ensures req.url == api.UrlFor(Api.V1RepoPrivilegesForUser(tr.team, tr.repo, name))
      ensures req.accessToken == token && req.user == "" && req.pass == ""
    {
      req := api.Request(Api.V1RepoPrivilegesForUser(tr.team, tr.repo, name));
      req.AccessToken(token);
    }

    /** The failure handler of the refresh path. */
    method Expire(s: S.Session, clientToken: string, token: string) returns (r: Result<seq<PrivilegeEntry>>)
      modifies s.client
      ensures var o := Expired(old(s.client.data), s.client.failing, clientToken, token);
              r == o.result && s.client.data == o.data
    {
      var droppedAlias := s.DelAlias(clientToken);
      var droppedRefresh := s.DelRefreshToken(token);
      r := Err(Errors.ForCode(401, "Refresh token expired, please login again"));
    }

    /** The first half of the refresh path: look up the refresh token and
        re-authenticate with it. */
    method ReauthenticateStep(s: S.Session, user: A.User, clientToken: string, token: string,
                              provider: A.Provider, privileges: Server<seq<PrivilegeEntry>>, decode: string -> A.User)
      returns (step: ReauthStep)
      requires Valid() && s.client == client
      modifies authenticator`session, client
      ensures Valid()
      ensures step == Reauthenticate(Environment(provider, privileges, decode), user, clientToken, token, old(client.data))
      ensures client.data == step.Data()
    {
      var stored := s.GetRefreshToken(token);
      if stored.Err? {
        return Finished(A.Stored(Err(stored.error), client.data));
      }
      if stored.value.None? || stored.value.value == "" {
        var ignored := s.DelAlias(clientToken);
        return Finished(A.Stored(Err(Errors.ForCode(401, "Please login again")), client.data));
      }
      var auth := authenticator.AuthenticateBody(Some(ReauthBody(user, stored.value.value)), provider);
      if auth.Err? {
        var r := Expire(s, clientToken, token);
        return Finished(A.Stored(r, client.data));
      }
      step := Reauthenticated(auth.value, client.data);
    }

    /** The refresh path, with the authenticator's `unauthenticate` revoking
        the old refresh record. The privileges request is the one that failed
        with 401, asked again with the new token. */
    method RefreshOn401(s: S.Session, req: Api.BitbucketRequest, tr: TeamRepo, user: A.User, clientToken: string, token: string,
                        provider: A.Provider, privileges: Server<seq<PrivilegeEntry>>, decode: string -> A.User)
      returns (r: Result<seq<PrivilegeEntry>>)
      requires Valid() && s.client == client
      requires req.url == api.UrlFor(Api.V1RepoPrivilegesForUser(tr.team, tr.repo, user.name))
      requires req.accessToken == token && req.user == "" && req.pass == ""
      modifies authenticator`session, client, req
      ensures Valid()
      ensures var o := Refresh(Environment(provider, privileges, decode), tr, user, clientToken, token, old(client.data));
              r == o.result && client.data == o.data
    {
      ghost var env := Environment(provider, privileges, decode);
      ghost var url := env.api.Url(Api.V1RepoPrivilegesForUser(tr.team, tr.repo, user.name));
      assert req.url == url;
      var step := ReauthenticateStep(s, user, clientToken, token, provider, privileges, decode);
      if step.Finished? {
        return step.outcome.result;
      }
      var revoked := authenticator.Unauthenticate(token);
      ghost var revokedData := client.data;
      var aliased := s.SetAlias(clientToken, step.auth.token);
      assert client.data == S.Write(revokedData, env.failing, S.AliasKey(clientToken), step.auth.token);
      req.AccessToken(step.auth.token);
      var retry := req.Get(privileges);
      assert retry == Fetch(env, tr, user.name, Api.Truthy(step.auth.token, token));
      if aliased.Ok? && retry.Ok? {
        return Ok(retry.value);
      }
      r := Expire(s, clientToken, token);
    }

    /** `_checkAuthorized` once the repository is located. */
    method CheckAuthorized(tr: TeamRepo, clientToken: string, scope: Scope,
                           provider: A.Provider, privileges: Server<seq<PrivilegeEntry>>, decode: string -> A.User)
      returns (r: Result<bool>)
      requires Valid()
      modifies this`session, authenticator`session, client
      ensures Valid() && session != null
      ensures var o := Authorized(Environment(provider, privileges, decode), tr, clientToken, scope, old(client.data));
              r == o.result && client.data == o.data
    {
      var s := GetSession();
      var token := GetServerToken(s, clientToken);
      var cached := s.GetUser(token);
      if cached.Err? {
        return Err(cached.error);
      }
      if cached.value.None? {
        return Err(TypeError);
      }
      var user := decode(cached.value.value);
      var req := PrivilegesRequest(tr, user.name, token);
      var got := req.Get(privileges);
      if got.Err? {
        if got.error.statusCode != 401 {
          got := Err(Errors.ForCode(got.error.statusCode, got.error.message));
        } else {
          got := RefreshOn401(s, req, tr, user, clientToken, token, provider, privileges, decode);
        }
      }
      if got.Err? {
        return Err(Errors.ForCode(got.error.statusCode, got.error.message));
      }
      r := Ok(Decide(got.value, scope));
    }

    /** `authorize`. A request refused early touches neither session nor
        cache. */
    method Authorize(req: Request, fetched: Reply<PackageJson>,
                     provider: A.Provider, privileges: Server<seq<PrivilegeEntry>>, decode: string -> A.User)
      returns (r: Result<bool>)
      requires Valid()
      modifies this`session, authenticator`session, client
      ensures Valid()
      ensures var o := AuthorizeOutcome(Environment(provider, privileges, decode), team, req, fetched, old(client.data));
              r == o.result && client.data == o.data
      ensures RefusedEarly(team, req, fetched) ==> session == old(session) && authenticator.session == old(authenticator.session)
    {
      var clientToken := ExtractToken(req.authorization);
      if clientToken == "" {
        return Err(Errors.ForCode(404, ""));
      }
      var scope := ScopeFor(req.verb);
      if scope.Err? {
        return Err(scope.error);
      }
      var tr := Locate(team, fetched, req.body);
      if tr.Err? {
        return Err(tr.error);
      }
      r := CheckAuthorized(tr.value, clientToken, scope.value, provider, privileges, decode);
    }

    /** `whoami`: read-only apart from creating the session. */
    method Whoami(authorization: Option<string>) returns (r: Result<Option<string>>)
      requires Valid()
      modifies this`session
      ensures Valid()
      ensures r == WhoamiOutcome(authorization, client.data, client.failing)
      ensures ExtractToken(authorization) == "" ==> session == old(session)
    {
      var clientToken := ExtractToken(authorization);
      if clientToken == "" {
        return Err(Errors.ForCode(404, ""));
      }
      var s := GetSession();
      var token := GetServerToken(s, clientToken);
      r := s.GetUser(token);
    }
  }
}
