/** What the two Bitbucket clients hand to the HTTP library `got`, and what
    they make of its failures. The network itself is not modelled: a server
    is a total function from the request URL and options to a reply, so every
    upstream call becomes an abstract outcome. */
module Http {
  import opened Types

  /** The `Authorization` request header. `Basic` carries the `user:pass`
      text before base64 encoding (section 2 of RFC 7617; the encoding itself
      is not modelled); `Bearer` carries the token (section 2.1 of RFC 6750). */
  datatype Authorization = Basic(userPass: string) | Bearer(token: string)

  /** The form body of a token request: the resource owner password grant
      (section 4.3.2 of RFC 6749) or the refresh grant (section 6). */
  datatype GrantBody =
    | PasswordGrant(username: string, password: string)
    | RefreshGrant(refreshToken: string)

  /** The options object given to `got`: `verb` is its `method` property
      (its constant `json: true` is left implicit). */
  datatype GotOpts = GotOpts(verb: Option<string>, authorization: Option<Authorization>, body: Option<GrantBody>)

  /** A body that may carry an OAuth `error_description` ("" when absent). */
  datatype ErrorBody = ErrorBody(errorDescription: string)

  datatype Response = Response(statusCode: int, body: Option<ErrorBody>)

  /** The error `got` rejects with (`verb` is its `method` property); "" and
      0 stand for absent properties. */
  datatype GotError = GotError(statusCode: int, statusMessage: string, verb: string, response: Option<Response>)

  datatype Reply<T> = Body(value: T) | Failed(err: GotError)

  /** An upstream endpoint: the reply it gives to a request. */
  type Server<T> = (string, GotOpts) -> Reply<T>

  /** The header value a bearer request carries. */
  function BearerHeader(token: string): string {
    "Bearer " + token
  }

  /** `wrapError(err, data, response)` of a request for `url`: no error gives
      null; otherwise the status code is the error's own, else the response's;
      the message is `data.error_description` when there is data, else the
      response body's `error_description`, else a text naming the request. */
  function WrapError(url: string, err: Option<GotError>, data: Option<ErrorBody>, response: Option<Response>): (r: Option<Error>)
    ensures r.None? <==> err.None?
    ensures r.Some? && err.value.statusCode != 0 ==> r.value.statusCode == err.value.statusCode
    ensures r.Some? && err.value.statusCode == 0 && response.Some? ==> r.value.statusCode == response.value.statusCode
    ensures r.Some? && data.Some? ==> r.value.message == data.value.errorDescription
  {
    match err
    case None => None
    case Some(e) =>
      var resp := if response.Some? then response else e.response;
      var status := if e.statusCode != 0 then e.statusCode
                    else if resp.Some? then resp.value.statusCode
                    else 0;
      var fallback := (if e.statusMessage != "" then e.statusMessage else "Error") + " "
                      + (if e.verb != "" then e.verb else "for") + " " + url;
      var message :=
        if data.Some? then data.value.errorDescription
        else if resp.Some? && resp.value.body.Some? && resp.value.body.value.errorDescription != ""
        then resp.value.body.value.errorDescription
        else fallback;
      Some(Error(status, message))
  }

  /** The promise form of a request (`got(url, opts)` then the body, or
      `throw wrapError(err)`): only the error itself is wrapped. */
  function Exec<T>(server: Server<T>, url: string, opts: GotOpts): (r: Result<T>)
    ensures server(url, opts).Body? ==> r == Ok(server(url, opts).value)
    ensures server(url, opts).Failed? ==> r.Err? && r.error == WrapError(url, Some(server(url, opts).err), None, None).value
  {
    match server(url, opts)
    case Body(v) => Ok(v)
    case Failed(e) => Err(WrapError(url, Some(e), None, None).value)
  }

  /** In the promise form, a failure's status code is the error's own, else
      that of the response attached to it; its message is the response body's
      `error_description` when one is present. */
  lemma ExecRejection<T>(server: Server<T>, url: string, opts: GotOpts)
    requires server(url, opts).Failed?
    ensures var e := server(url, opts).err;
            var r := Exec(server, url, opts);
            && r.Err?
            && (e.statusCode == 0 && e.response.Some? ==> r.error.statusCode == e.response.value.statusCode)
            && (e.response.Some? && e.response.value.body.Some? && e.response.value.body.value.errorDescription != ""
                ==> r.error.message == e.response.value.body.value.errorDescription)
  {
  }
}
