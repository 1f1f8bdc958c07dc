/** The Bitbucket OAuth 2.0 client: a configuration object for the token
    endpoint and a token request that authenticates the client with HTTP
    Basic (section 2.3.1 of RFC 6749) and asks for either the resource owner
    password grant (section 4.3) or the refresh grant (section 6). */
module OAuth2 {
  import opened Types
  import opened Http
  import Api

  /** The constructor's argument; `clientId` and `clientSecret` are read from
      the same options object (`.client(opts)`). */
  datatype OAuth2Opts =
    | NoOpts
    | UrlOpts(parsed: Api.ParsedUrl)
    | ObjectOpts(url: Option<Api.ParsedUrl>, protocol: string, host: string, port: string,
                 endpointPrefix: Option<string>, clientId: string, clientSecret: string)

  /** The argument of `client`: two strings, or one object (or none). */
  datatype ClientArg = TwoStrings(id: string, secret: string) | OneObject(obj: Option<ClientPair>)
  datatype ClientPair = ClientPair(clientId: string, clientSecret: string)

  /** The options of a token request. The client is authenticated with Basic
      only when both its id and secret are set. A refresh token, when set,
      selects the refresh grant over the password grant; the password grant
      needs both username and password. Either grant is a POST, and without
      one the request has no verb and no body. */
  function GrantOpts(clientId: string, clientSecret: string, username: string, password: string, refreshToken: string): (o: GotOpts)
    ensures clientId != "" && clientSecret != "" ==> o.authorization == Some(Basic(clientId + ":" + clientSecret))
    ensures clientId == "" || clientSecret == "" ==> o.authorization == None
    ensures refreshToken != "" ==> o.body == Some(RefreshGrant(refreshToken))
    ensures refreshToken == "" && username != "" && password != "" ==> o.body == Some(PasswordGrant(username, password))
    ensures refreshToken == "" && (username == "" || password == "") ==> o.body == None
    ensures o.verb == (if o.body.Some? then Some("POST") else None)
  {
    var body :=
      if refreshToken != "" then Some(RefreshGrant(refreshToken))
      else if username != "" && password != "" then Some(PasswordGrant(username, password))
      else None;
    GotOpts(
      if body.Some? then Some("POST") else None,
      if clientId != "" && clientSecret != "" then Some(Basic(clientId + ":" + clientSecret)) else None,
      body)
  }

  class BitbucketOAuth2Api {
    var protocol: string
    var host: string
    var port: string
    var endpointPrefix: string
    var clientId: string
    var clientSecret: string

    /** Defaults first, then the URL, then the explicit settings and the
        client credentials. */
    constructor (opts: OAuth2Opts)
      ensures opts.NoOpts? ==>
        && protocol == "https" && host == "bitbucket.org" && port == ""
        && clientId == "" && clientSecret == ""
      ensures opts.UrlOpts? ==>
        && protocol == Api.Truthy(Api.SchemeOf(opts.parsed), "https")
        && host == Api.Truthy(opts.parsed.hostname, "bitbucket.org")
        && port == opts.parsed.port
        && clientId == "" && clientSecret == ""
      ensures opts.ObjectOpts? && opts.url.None? ==>
        && protocol == Api.Truthy(opts.protocol, "https")
        && host == Api.Truthy(opts.host, "bitbucket.org")
        && port == opts.port
      ensures opts.ObjectOpts? && opts.url.Some? ==>
        && protocol == Api.Truthy(opts.protocol, Api.Truthy(Api.SchemeOf(opts.url.value), "https"))
        && host == Api.Truthy(opts.host, Api.Truthy(opts.url.value.hostname, "bitbucket.org"))
        && port == Api.Truthy(opts.port, opts.url.value.port)
      ensures opts.ObjectOpts? ==> clientId == opts.clientId && clientSecret == opts.clientSecret
      ensures endpointPrefix == (if opts.ObjectOpts? && opts.endpointPrefix.Some? then opts.endpointPrefix.value else "/site/oauth2")
    {
      protocol := "https";
      host := "bitbucket.org";
      port := "";
      endpointPrefix := "/site/oauth2";
      clientId, clientSecret := "", "";
      new;
      match opts
      case NoOpts =>
      case UrlOpts(parsed) =>
        Url(Some(parsed));
      case ObjectOpts(url, p, h, n, prefix, id, secret) =>
        Url(url);
        Protocol(p);
        Host(h);
        Port(n);
        EndpointPrefix(prefix);
        Client(OneObject(Some(ClientPair(id, secret))));
    }

    method Protocol(p: string)
      modifies this`protocol
      ensures protocol == Api.Truthy(p, old(protocol))
    {
      if p != "" { protocol := p; }
    }

    method Host(h: string)
      modifies this`host
      ensures host == Api.Truthy(h, old(host))
    {
      if h != "" { host := h; }
    }

    method Port(p: string)
      modifies this`port
      ensures port == Api.Truthy(p, old(port))
    {
      if p != "" { port := p; }
    }

    /** Any string is accepted, "" included; anything else is ignored. */
    method EndpointPrefix(ep: Option<string>)
      modifies this`endpointPrefix
      ensures endpointPrefix == ep.GetOr(old(endpointPrefix))
    {
      if ep.Some? { endpointPrefix := ep.value; }
    }

    method Url(u: Option<Api.ParsedUrl>)
      modifies this`protocol, this`host, this`port
      ensures u.None? ==> protocol == old(protocol) && host == old(host) && port == old(port)
      ensures u.Some? ==>
        && protocol == Api.Truthy(Api.SchemeOf(u.value), old(protocol))
        && host == Api.Truthy(u.value.hostname, old(host))
        && port == Api.Truthy(u.value.port, old(port))
    {
      if u.Some? {
        Protocol(Api.SchemeOf(u.value));
        Host(u.value.hostname);
        Port(u.value.port);
      }
    }

    method ClientId(id: string)
      modifies this`clientId
      ensures clientId == Api.Truthy(id, old(clientId))
    {
      if id != "" { clientId := id; }
    }

    method ClientSecret(secret: string)
      modifies this`clientSecret
      ensures clientSecret == Api.Truthy(secret, old(clientSecret))
    {
      if secret != "" { clientSecret := secret; }
    }

    method Client(arg: ClientArg)
      modifies this`clientId, this`clientSecret
      ensures arg.TwoStrings? ==>
        clientId == Api.Truthy(arg.id, old(clientId)) && clientSecret == Api.Truthy(arg.secret, old(clientSecret))
      ensures arg.OneObject? && arg.obj.Some? ==>
        && clientId == Api.Truthy(arg.obj.value.clientId, old(clientId))
        && clientSecret == Api.Truthy(arg.obj.value.clientSecret, old(clientSecret))
      ensures arg.OneObject? && arg.obj.None? ==> clientId == old(clientId) && clientSecret == old(clientSecret)
    {
      match arg
      case TwoStrings(id, secret) =>
        ClientId(id);
        ClientSecret(secret);
      case OneObject(obj) =>
        var o := obj.GetOr(ClientPair("", ""));
        ClientId(o.clientId);
        ClientSecret(o.clientSecret);
    }

    /** `protocol://host[:port]`, the endpoint prefix and the endpoint. */
    function BuildUrl(endpoint: string): (u: string)
      reads this
    {
      protocol + "://" + host + (if port != "" then ":" + port else "") + endpointPrefix + endpoint
    }

    /** The token endpoint's URL. */
    function TokenUrl(): string
      reads this
    {
      BuildUrl("/access_token")
    }

    /** A fresh request to the token endpoint carrying the configured client
        credentials. The configured values go through `client`, whose
        two-strings form applies only when the id is a string: with no id set,
        the secret is not carried either. */
    method AccessTokenRequest() returns (req: BitbucketOAuth2Request)
      ensures fresh(req)
      ensures req.url == TokenUrl()
      ensures req.clientId == clientId
      ensures req.clientSecret == (if clientId != "" then clientSecret else "")
      ensures req.username == "" && req.password == "" && req.refreshToken == ""
    {
      req := new BitbucketOAuth2Request(TokenUrl());
      req.Client(if clientId != "" then TwoStrings(clientId, clientSecret) else OneObject(None));
    }
  }

  /** The token URL starts with `protocol://host` and ends with the endpoint
      prefix followed by "/access_token". */
  lemma TokenUrlParts(api: BitbucketOAuth2Api)
    ensures var u := api.TokenUrl();
            var origin := api.protocol + "://" + api.host;
            && |u| >= |origin| && u[..|origin|] == origin
            && |u| >= |api.endpointPrefix| + 13 && u[|u| - |api.endpointPrefix| - 13..] == api.endpointPrefix + "/access_token"
  {
  }

  class BitbucketOAuth2Request {
    const url: string
    var clientId: string
    var clientSecret: string
    var username: string
    var password: string
    var refreshToken: string

    constructor (url: string)
      ensures this.url == url
      ensures clientId == "" && clientSecret == "" && username == "" && password == "" && refreshToken == ""
    {
      this.url := url;
      clientId, clientSecret, username, password, refreshToken := "", "", "", "", "";
    }

    method ClientId(id: string)
      modifies this`clientId
      ensures clientId == Api.Truthy(id, old(clientId))
    {
      if id != "" { clientId := id; }
    }

    method ClientSecret(secret: string)
      modifies this`clientSecret
      ensures clientSecret == Api.Truthy(secret, old(clientSecret))
    {
      if secret != "" { clientSecret := secret; }
    }

    method Client(arg: ClientArg)
      modifies this`clientId, this`clientSecret
      ensures arg.TwoStrings? ==>
        clientId == Api.Truthy(arg.id, old(clientId)) && clientSecret == Api.Truthy(arg.secret, old(clientSecret))
      ensures arg.OneObject? && arg.obj.Some? ==>
        && clientId == Api.Truthy(arg.obj.value.clientId, old(clientId))
        && clientSecret == Api.Truthy(arg.obj.value.clientSecret, old(clientSecret))
      ensures arg.OneObject? && arg.obj.None? ==> clientId == old(clientId) && clientSecret == old(clientSecret)
    {
      match arg
      case TwoStrings(id, secret) =>
        ClientId(id);
        ClientSecret(secret);
      case OneObject(obj) =>
        var o := obj.GetOr(ClientPair("", ""));
        ClientId(o.clientId);
        ClientSecret(o.clientSecret);
    }

    method Username(u: string)
      modifies this`username
      ensures username == Api.Truthy(u, old(username))
    {
      if u != "" { username := u; }
    }

    method Password(p: string)
      modifies this`password
      ensures password == Api.Truthy(p, old(password))
    {
      if p != "" { password := p; }
    }

    method UserPass(arg: Api.UserPassArg)
      modifies this`username, this`password
      ensures arg.TwoStrings? ==> username == Api.Truthy(arg.u, old(username)) && password == Api.Truthy(arg.p, old(password))
      ensures arg.OneObject? && arg.obj.Some? ==>
        && username == Api.Truthy(arg.obj.value.username, old(username))
        && password == Api.Truthy(arg.obj.value.password, old(password))
      ensures arg.OneObject? && arg.obj.None? ==> username == old(username) && password == old(password)
    {
      match arg
      case TwoStrings(u, p) =>
        Username(u);
        Password(p);
      case OneObject(obj) =>
        var o := obj.GetOr(Api.Login("", ""));
        Username(o.username);
        Password(o.password);
    }

    method RefreshToken(rt: string)
      modifies this`refreshToken
      ensures refreshToken == Api.Truthy(rt, old(refreshToken))
    {
      if rt != "" { refreshToken := rt; }
    }

    /** Fills the options step by step; a later grant overwrites an earlier
        one. */
    method BuildGotOpts() returns (opts: GotOpts)
      ensures opts == GrantOpts(clientId, clientSecret, username, password, refreshToken)
    {
      opts := GotOpts(None, None, None);
      if clientId != "" && clientSecret != "" {
        opts := opts.(authorization := Some(Basic(clientId + ":" + clientSecret)));
      }
      if username != "" && password != "" {
        opts := opts.(verb := Some("POST"), body := Some(PasswordGrant(username, password)));
      }
      if refreshToken != "" {
        opts := opts.(verb := Some("POST"), body := Some(RefreshGrant(refreshToken)));
      }
    }

    /** `exec` in its promise form: one call to the token endpoint. */
    method Exec<T>(server: Server<T>) returns (r: Result<T>)
      ensures r == Http.Exec(server, url, GrantOpts(clientId, clientSecret, username, password, refreshToken))
    {
      var opts := BuildGotOpts();
      r := Http.Exec(server, url, opts);
    }
  }
}
