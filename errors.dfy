/** `errors.forCode`: the one way the core builds an error from a status code
    and an optional message. */
module Errors {
  import opened Types

  /** The default messages, keyed by status code; other codes have none. */
  function DefaultMessage(code: int): string {
    if code == 500 then "Unknown error"
    else if code == 401 then "Unauthorized"
    else if code == 404 then "Not found"
    else ""
  }

  /** A fresh error: a falsy code becomes 500, and a falsy message becomes the
      default message of the resulting code ("" when it has none). */
  function ForCode(code: int, msg: string): (e: Error)
    ensures e.statusCode != 0
    ensures code != 0 ==> e.statusCode == code
    ensures code == 0 ==> e.statusCode == 500
    ensures msg != "" ==> e.message == msg
    ensures msg == "" && e.statusCode == 500 ==> e.message == "Unknown error"
    ensures msg == "" && e.statusCode == 401 ==> e.message == "Unauthorized"
    ensures msg == "" && e.statusCode == 404 ==> e.message == "Not found"
    ensures msg == "" && e.statusCode !in {500, 401, 404} ==> e.message == ""
  {
    var c := if code == 0 then 500 else code;
    Error(c, if msg != "" then msg else DefaultMessage(c))
  }

  /** Re-wrapping an error with `forCode(err.statusCode, err.message)`, as the
      authorizer does on every rejection it passes on, changes nothing once the
      error came from `forCode`. */
  lemma ForCodeRewrap(code: int, msg: string)
    ensures var e := ForCode(code, msg); ForCode(e.statusCode, e.message) == e
  {
  }

  /** Re-wrapping keeps a present status code and a present message. */
  lemma ForCodeKeeps(e: Error)
    requires e.statusCode != 0 && e.message != ""
    ensures ForCode(e.statusCode, e.message) == e
  {
  }
}
