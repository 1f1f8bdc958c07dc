/** The Bitbucket REST client: a configuration object whose fluent setters
    overwrite its connection settings, endpoint builders, and a request object
    whose setters overwrite its credentials and which turns them into the
    options of one HTTP call. */
module Api {
  import opened Types
  import opened Http
  import Strings

  /** The parts of a URL the client takes from `url.parse` (a foreign
      library): `protocol` keeps its trailing ':'; "" for a missing part. */
  datatype ParsedUrl = ParsedUrl(protocol: string, hostname: string, port: string)

  /** The constructor's argument: nothing, a URL string (already parsed), or
      an options object. A prefix that is not a string is `None`. */
  datatype ApiOpts =
    | NoOpts
    | UrlOpts(parsed: ParsedUrl)
    | ObjectOpts(url: Option<ParsedUrl>, protocol: string, host: string, port: string,
                 v1Prefix: Option<string>, v2Prefix: Option<string>)

  /** The REST resources the client can address. */
  datatype Endpoint =
    | V1User
    | V2User
    | V2UserEmails
    | V2TeamsByRole(role: string)
    | V1Privileges(account: string, repo: string, filter: string)
    | V1RepoPrivilegesForUser(account: string, repo: string, username: string)
    | V2Users(username: string)
    | V2UsersFollowers(username: string)
    | V2UsersFollowing(username: string)
    | V2Repositories(username: string)
    | V2Teams(teamname: string)
    | V2TeamsMembers(teamname: string)
    | V2TeamsRepositories(teamname: string)
  {
    /** Whether the resource belongs to version 1.0 of the API. */
    predicate IsV1() {
      V1User? || V1Privileges? || V1RepoPrivilegesForUser?
    }

    /** The path of the resource below the version prefix: it always starts
        with '/', and the privileges resources live under "/privileges/". */
    function Path(): (p: string)
      ensures |p| > 0 && p[0] == '/'
      ensures V1Privileges? || V1RepoPrivilegesForUser? ==> |p| >= 12 && p[..12] == "/privileges/"
    {
      match this
      case V1User => "/user"
      case V2User => "/user"
      case V2UserEmails => "/user/emails"
      case V2TeamsByRole(role) => "/teams?role=" + role
      case V1Privileges(account, repo, filter) =>
        "/privileges/" + account + "/" + repo + (if filter != "" then "?filter=" + filter else "")
      case V1RepoPrivilegesForUser(account, repo, username) =>
        "/privileges/" + account + "/" + repo + "/" + username
      case V2Users(username) => "/users/" + username
      case V2UsersFollowers(username) => "/users/" + username + "/followers"
      case V2UsersFollowing(username) => "/users/" + username + "/following"
      case V2Repositories(username) => "/repositories/" + username
      case V2Teams(teamname) => "/teams/" + teamname
      case V2TeamsMembers(teamname) => "/teams/" + teamname + "/members"
      case V2TeamsRepositories(teamname) => "/teams/" + teamname + "/repositories"
    }
  }

  /** The privileges path carries a query only when a filter is given. */
  lemma PrivilegesFilterOnlyWhenGiven(account: string, repo: string, filter: string)
    requires '?' !in account && '?' !in repo
    ensures '?' in V1Privileges(account, repo, filter).Path() <==> filter != ""
  {
    var base := "/privileges/" + account + "/" + repo;
    assert '?' !in base by {
      assert base == "/privileges/" + account + "/" + repo;
    }
    if filter != "" {
      assert (base + "?filter=" + filter)[|base|] == '?';
    } else {
      assert V1Privileges(account, repo, filter).Path() == base;
    }
  }

  /** The user whose privileges are asked for is the last segment of the
      path, whatever the account and repository names are. */
  lemma {:induction false} RepoPrivilegesUserIsLastSegment(account: string, repo: string, username: string)
    requires '/' !in username
    ensures var p := V1RepoPrivilegesForUser(account, repo, username).Path();
            && Strings.LastIndexOf(p, '/') == Some(|p| - |username| - 1)
            && p[|p| - |username|..] == username
  {
    var s := "/privileges/" + account + "/" + repo;
    assert V1RepoPrivilegesForUser(account, repo, username).Path() == s + ['/'] + username;
    Strings.LastIndexOfJoin(s, '/', username);
  }

  /** The connection settings every resource URL is built from. */
  datatype Base = Base(origin: string, v1Prefix: string, v2Prefix: string) {
    /** The URL of a resource, under the prefix of its API version. */
    function Url(e: Endpoint): string {
      origin + (if e.IsV1() then v1Prefix else v2Prefix) + e.Path()
    }
  }

  /** The value a setter keeps: a falsy argument leaves the old value. */
  function Truthy(given: string, current: string): string {
    if given != "" then given else current
  }

  /** `parsedUrl.protocol.replace(':', '')`. */
  function SchemeOf(u: ParsedUrl): string {
    Strings.ReplaceFirst(u.protocol, ":", "")
  }

  class BitbucketApi {
    var protocol: string
    var host: string
    var port: string
    var v1Prefix: string
    var v2Prefix: string

    /** Defaults first, then the URL, then the explicit settings. */
    constructor (opts: ApiOpts)
      ensures opts.NoOpts? ==> protocol == "https" && host == "api.bitbucket.org" && port == ""
      ensures opts.UrlOpts? ==>
        && protocol == Truthy(SchemeOf(opts.parsed), "https")
        && host == Truthy(opts.parsed.hostname, "api.bitbucket.org")
        && port == opts.parsed.port
      ensures opts.ObjectOpts? && opts.url.None? ==>
        && protocol == Truthy(opts.protocol, "https")
        && host == Truthy(opts.host, "api.bitbucket.org")
        && port == opts.port
      ensures opts.ObjectOpts? && opts.url.Some? ==>
        && protocol == Truthy(opts.protocol, Truthy(SchemeOf(opts.url.value), "https"))
        && host == Truthy(opts.host, Truthy(opts.url.value.hostname, "api.bitbucket.org"))
        && port == Truthy(opts.port, opts.url.value.port)
      ensures v1Prefix == (if opts.ObjectOpts? && opts.v1Prefix.Some? then opts.v1Prefix.value else "/1.0")
      ensures v2Prefix == (if opts.ObjectOpts? && opts.v2Prefix.Some? then opts.v2Prefix.value else "/2.0")
    {
      protocol := "https";
      host := "api.bitbucket.org";
      port := "";
      v1Prefix := "/1.0";
      v2Prefix := "/2.0";
      new;
      match opts
      case NoOpts =>
      case UrlOpts(parsed) =>
        Url(Some(parsed));
      case ObjectOpts(url, p, h, n, v1, v2) =>
        Url(url);
        Protocol(p);
        Host(h);
        Port(n);
        V1Prefix(v1);
        V2Prefix(v2);
    }

    method Protocol(p: string)
      modifies this`protocol
      ensures protocol == Truthy(p, old(protocol))
    {
      if p != "" { protocol := p; }
    }

    method Host(h: string)
      modifies this`host
      ensures host == Truthy(h, old(host))
    {
      if h != "" { host := h; }
    }

    method Port(p: string)
      modifies this`port
      ensures port == Truthy(p, old(port))
    {
      if p != "" { port := p; }
    }

    /** Any string is accepted, "" included; anything else is ignored. */
    method V1Prefix(vp: Option<string>)
      modifies this`v1Prefix
      ensures v1Prefix == vp.GetOr(old(v1Prefix))
    {
      if vp.Some? { v1Prefix := vp.value; }
    }

    method V2Prefix(vp: Option<string>)
      modifies this`v2Prefix
      ensures v2Prefix == vp.GetOr(old(v2Prefix))
    {
      if vp.Some? { v2Prefix := vp.value; }
    }

    /** Takes protocol, host and port from a URL; each falsy part is ignored. */
    method Url(u: Option<ParsedUrl>)
      modifies this`protocol, this`host, this`port
      ensures u.None? ==> protocol == old(protocol) && host == old(host) && port == old(port)
      ensures u.Some? ==>
        && protocol == Truthy(SchemeOf(u.value), old(protocol))
        && host == Truthy(u.value.hostname, old(host))
        && port == Truthy(u.value.port, old(port))
    {
      if u.Some? {
        Protocol(SchemeOf(u.value));
        Host(u.value.hostname);
        Port(u.value.port);
      }
    }

    /** `protocol://host[:port]`, the port only when one is set. */
    function Origin(): string
      reads this
    {
      protocol + "://" + host + (if port != "" then ":" + port else "")
    }

    /** The origin, then the prefix, then the resource's path. */
    function BuildUrl(prefix: string, endpoint: string): (u: string)
      reads this
    {
      Origin() + prefix + endpoint
    }

    /** The URL of a resource, under the prefix of its API version. */
    function UrlFor(e: Endpoint): (u: string)
      reads this
      ensures u == Settings().Url(e)
    {
      BuildUrl(if e.IsV1() then v1Prefix else v2Prefix, e.Path())
    }

    /** The current settings as a value. */
    function Settings(): Base
      reads this
    {
      Base(Origin(), v1Prefix, v2Prefix)
    }

    /** A fresh request for a resource, with no credentials set. */
    method Request(e: Endpoint) returns (req: BitbucketRequest)
      ensures fresh(req)
      ensures req.url == UrlFor(e)
      ensures req.accessToken == "" && req.user == "" && req.pass == ""
    {
      req := new BitbucketRequest(UrlFor(e));
    }
  }

  /** A built URL starts with the client's origin, then the prefix, and ends
      with the resource's path. */
  lemma BuildUrlParts(api: BitbucketApi, prefix: string, endpoint: string)
    ensures var u := api.BuildUrl(prefix, endpoint);
            && |u| == |api.Origin()| + |prefix| + |endpoint|
            && u[..|api.Origin()|] == api.Origin()
            && u[|api.Origin()|..|api.Origin()| + |prefix|] == prefix
            && u[|u| - |endpoint|..] == endpoint
  {
  }

  /** The argument of `userPass`: two strings, or one object (or none). */
  datatype UserPassArg = TwoStrings(u: string, p: string) | OneObject(obj: Option<Login>)
  datatype Login = Login(username: string, password: string)

  /** The options of a REST call: the verb when one is given; Basic
      authentication only when both user and password are set; a set access
      token replaces it with a bearer header. There is never a body. */
  function RequestOpts(verb: Option<string>, user: string, pass: string, accessToken: string): (o: GotOpts)
    ensures o.verb == verb && o.body == None
    ensures accessToken != "" ==> o.authorization == Some(Bearer(accessToken))
    ensures accessToken == "" && user != "" && pass != "" ==> o.authorization == Some(Basic(user + ":" + pass))
    ensures accessToken == "" && (user == "" || pass == "") ==> o.authorization == None
  {
    GotOpts(verb,
            if accessToken != "" then Some(Bearer(accessToken))
            else if user != "" && pass != "" then Some(Basic(user + ":" + pass))
            else None,
            None)
  }

  class BitbucketRequest {
    const url: string
    var accessToken: string
    var user: string
    var pass: string

    constructor (url: string)
      ensures this.url == url
      ensures accessToken == "" && user == "" && pass == ""
    {
      this.url := url;
      accessToken, user, pass := "", "", "";
    }

    method AccessToken(t: string)
      modifies this`accessToken
      ensures accessToken == Truthy(t, old(accessToken))
    {
      if t != "" { accessToken := t; }
    }

    method Username(u: string)
      modifies this`user
      ensures user == Truthy(u, old(user))
    {
      if u != "" { user := u; }
    }

    method Password(p: string)
      modifies this`pass
      ensures pass == Truthy(p, old(pass))
    {
      if p != "" { pass := p; }
    }

    method UserPass(arg: UserPassArg)
      modifies this`user, this`pass
      ensures arg.TwoStrings? ==> user == Truthy(arg.u, old(user)) && pass == Truthy(arg.p, old(pass))
      ensures arg.OneObject? && arg.obj.Some? ==>
        user == Truthy(arg.obj.value.username, old(user)) && pass == Truthy(arg.obj.value.password, old(pass))
      ensures arg.OneObject? && arg.obj.None? ==> user == old(user) && pass == old(pass)
    {
      match arg
      case TwoStrings(u, p) =>
        Username(u);
        Password(p);
      case OneObject(obj) =>
        var o := obj.GetOr(Login("", ""));
        Username(o.username);
        Password(o.password);
    }

    /** Fills the options step by step; the bearer header, when there is a
        token, overwrites the Basic one. */
    method BuildGotOpts(verb: Option<string>) returns (opts: GotOpts)
      ensures opts == RequestOpts(verb, user, pass, accessToken)
    {
      opts := GotOpts(None, None, None);
      if verb.Some? {
        opts := opts.(verb := verb);
      }
      if user != "" && pass != "" {
        opts := opts.(authorization := Some(Basic(user + ":" + pass)));
      }
      if accessToken != "" {
        opts := opts.(authorization := Some(Bearer(accessToken)));
      }
    }

    /** `execReq` in its promise form: one call to the server. */
    method ExecReq<T>(verb: Option<string>, server: Server<T>) returns (r: Result<T>)
      ensures r == Exec(server, url, RequestOpts(verb, user, pass, accessToken))
    {
      var opts := BuildGotOpts(verb);
      r := Exec(server, url, opts);
    }

    method Get<T>(server: Server<T>) returns (r: Result<T>)
      ensures r == Exec(server, url, RequestOpts(Some("GET"), user, pass, accessToken))
    {
      r := ExecReq(Some("GET"), server);
    }
  }
}
