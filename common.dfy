/**
 * Shared vocabulary of the model: optional values, results, the request verbs
 * of the client and the Python exceptions the core raises.
 */
module Common {

  datatype Option<+T> = None | Some(value: T) {
    function GetOr(default: T): T {
      match this
      case Some(v) => v
      case None => default
    }
  }

  /** A value, or the exception that the Python code raises instead of returning it. */
  datatype Result<+T, +E> = Ok(value: T) | Err(error: E)

  /** The HTTP verbs a resource issues (the `TRequestMethods` literal type). */
  datatype Verb = GET | POST | PUT | PATCH | DELETE

  function VerbName(v: Verb): string {
    match v
    case GET => "GET"
    case POST => "POST"
    case PUT => "PUT"
    case PATCH => "PATCH"
    case DELETE => "DELETE"
  }

  /**
   * Reads a verb back from its upper-case name: exactly the five strings of
   * the `TRequestMethods` literal type are verbs.
   */
  function ParseVerb(s: string): (r: Option<Verb>)
    ensures r.Some? <==> s in {"GET", "POST", "PUT", "PATCH", "DELETE"}
    ensures r.Some? ==> VerbName(r.value) == s
  {
    if s == "GET" then Some(GET)
    else if s == "POST" then Some(POST)
    else if s == "PUT" then Some(PUT)
    else if s == "PATCH" then Some(PATCH)
    else if s == "DELETE" then Some(DELETE)
    else None
  }

  /** Every verb is read back from its own name, so names and verbs are in one-to-one correspondence. */
  lemma ParseVerbName(v: Verb)
    ensures ParseVerb(VerbName(v)) == Some(v)
  {
  }

  /** The Python exception classes raised by the modelled code, with their messages. */
  datatype Error =
    | NotImplementedError(message: string)
    | RuntimeError(message: string)
    | KeyError(key: string)
    | TypeError(message: string)
    | ValueError(message: string)
    | AttributeError(message: string)
    | IndexError(message: string)
    | Warning(message: string)
    | RegexError(message: string)
}
