/**
  The HTTP transport the client talks through, replaced by a scripted oracle.

  The oracle holds a queue of canned outcomes. Every request the client issues
  is appended to the call log and consumes the next outcome: either a response
  (status code, reason phrase, the optional `access_token` field of its decoded
  body, and the body itself) or a connectivity failure. When the queue is empty
  the request goes unanswered.
*/
module Transport {
  import opened Results

  /** The HTTP verbs the client uses. */
  datatype Verb = POST | GET | DELETE

  /** A decoded JSON body, kept opaque. */
  type Json = string

  /** What a request carries besides its headers. */
  datatype Payload =
    | NoBody
    | Credentials(username: string, password: string)  // the login form
    | JsonBody(data: Json)                              // the body of a create

  /** An absolute URL, kept as the two parts the client joins. */
  datatype Url =
    | Joined(base: string, suffix: string)  // the login endpoints: base URL and suffix run together
    | Slashed(base: string, path: string)   // the resources: base URL, "/", resource path

  /** The URL as the transport receives it. */
  function UrlText(u: Url): string {
    match u
    case Joined(base, suffix) => base + suffix
    case Slashed(base, path) => base + "/" + path
  }

  /** The Authorization header of a request. */
  datatype Authorization =
    | Anonymous                      // no header: the login requests
    | Bearer(token: Option<string>)  // the current token as bearer credential

  /** The header's text; Python formats an absent token as "None". */
  function HeaderText(a: Authorization): Option<string> {
    match a
    case Anonymous => None
    case Bearer(token) => Some("Bearer " + (if token.Some? then token.value else "None"))
  }

  /** One issued request: verb, absolute URL, Authorization header and payload. */
  datatype Call = Call(verb: Verb, url: Url, authorization: Authorization, payload: Payload)

  /** An HTTP response as the client sees it. */
  datatype Response = Response(status: int, reason: string, accessToken: Option<string>, body: Json)

  /** What the transport does with one request. */
  datatype Outcome = Reply(response: Response) | ConnectionFailure

  class ScriptedTransport {
    /** The outcomes still to be handed out, in order. */
    var pending: seq<Outcome>
    /** Every request issued so far, in order. */
    var calls: seq<Call>

    constructor (script: seq<Outcome>)
      ensures pending == script && calls == []
    {
      pending := script;
      calls := [];
    }

    /** Issues `call`: logs it and hands out the next scripted outcome, if any. */
    method Send(call: Call) returns (answer: Option<Outcome>)
      modifies this
      ensures calls == old(calls) + [call]
      ensures answer.None? <==> old(pending) == []
      ensures answer.Some? ==> answer.value == old(pending)[0] && pending == old(pending)[1..]
      ensures answer.None? ==> pending == []
    {
      calls := calls + [call];
      if pending == [] {
        answer := None;
      } else {
        answer := Some(pending[0]);
        pending := pending[1..];
      }
    }
  }
}
