/**
  The self-authenticating request protocol shared by both copies of `APIClient`,
  as functions of the configuration, the current token and the transport's
  scripted outcomes. Each function returns what the client returns or raises,
  the requests it issues (in order) and the outcomes it leaves unconsumed.

  The two client classes are proved to behave exactly as these functions say;
  the lemmas below state what the protocol promises.
*/
module Protocol {
  import opened Results
  import opened Transport

  /** The status codes the protocol relies on. */
  const AcceptedAuth: int := 202
  const Created: int := 201
  const OkStatus: int := 200
  const NoContent: int := 204
  const Unauthorized: int := 401

  /** The client's configuration: base URL, login and optional refresh endpoint, credentials. */
  datatype Config = Config(base: string, authPath: string, refreshPath: Option<string>, username: string, password: string)

  /** Why a call did not succeed, before each client turns it into its own error value. */
  datatype Fault =
    | Rejected(response: Response)  // a terminal status, from a request or from login
    | ConnectionError               // a connectivity failure raised by a request
    | OutOfScript                   // the transport had no scripted outcome left

  // ---------------------------------------------------------------------------
  // Requests the client issues

  /** The unauthenticated POST to the refresh endpoint. */
  function RefreshCall(c: Config): Call
    requires c.refreshPath.Some?
  {
    Call(POST, Joined(c.base, c.refreshPath.value), Anonymous, NoBody)
  }

  /** The unauthenticated POST of the credentials to the login endpoint. */
  function AuthCall(c: Config): Call {
    Call(POST, Joined(c.base, c.authPath), Anonymous, Credentials(c.username, c.password))
  }

  /** Where every login sequence starts: the refresh endpoint when one is configured. */
  function FirstLoginCall(c: Config): Call {
    if c.refreshPath.Some? then RefreshCall(c) else AuthCall(c)
  }

  /** One logical operation: verb, resource path, payload and the status that means success. */
  datatype Op = Op(verb: Verb, path: string, payload: Payload, success: int)

  function PostOp(path: string, data: Json): Op { Op(POST, path, JsonBody(data), Created) }
  function GetOp(path: string): Op { Op(GET, path, NoBody, OkStatus) }
  function DeleteOp(path: string): Op { Op(DELETE, path, NoBody, NoContent) }

  /** The request for `op`, sent to base URL + "/" + path with the current token as bearer. */
  function ResourceCall(c: Config, op: Op, token: Option<string>): Call {
    Call(op.verb, Slashed(c.base, op.path), Bearer(token), op.payload)
  }

  /** The requests of a call log that carry an Authorization header, in order. */
  function ResourceCalls(calls: seq<Call>): seq<Call> {
    if calls == [] then []
    else if calls[|calls| - 1].authorization.Bearer? then ResourceCalls(calls[..|calls| - 1]) + [calls[|calls| - 1]]
    else ResourceCalls(calls[..|calls| - 1])
  }

  /** No request of the log carries an Authorization header. */
  predicate Unauthenticated(calls: seq<Call>) {
    forall i :: 0 <= i < |calls| ==> calls[i].authorization.Anonymous?
  }

  /**
    The transport's contract: each request consumes the next scripted outcome
    while any remain, so `rest` is what is left of `script` after
    min(|calls|, |script|) outcomes.
  */
  ghost predicate Consumes(script: seq<Outcome>, calls: seq<Call>, rest: seq<Outcome>) {
    |rest| <= |script| && rest == script[|script| - |rest|..] &&
    |script| - |rest| == (if |calls| < |script| then |calls| else |script|)
  }

  /** The outcome consumed last, just before `rest`, was the response `resp`. */
  ghost predicate AnsweredLast(script: seq<Outcome>, rest: seq<Outcome>, resp: Response) {
    |rest| < |script| && script[|script| - |rest| - 1] == Reply(resp)
  }

  // ---------------------------------------------------------------------------
  // Login

  /** How one pass through the login sequence ended. */
  datatype Attempt = Accepted(token: Option<string>) | Refused(last: Response) | Lost | Unanswered

  datatype AttemptRun = AttemptRun(end: Attempt, calls: seq<Call>, rest: seq<Outcome>)

  /** The POST of the credentials, accepted only on 202. */
  function AuthAttempt(c: Config, script: seq<Outcome>): (r: AttemptRun)
    ensures r.end.Lost? ==> |r.rest| < |script|
  {
    if script == [] then AttemptRun(Unanswered, [AuthCall(c)], [])
    else match script[0]
      case ConnectionFailure => AttemptRun(Lost, [AuthCall(c)], script[1..])
      case Reply(resp) =>
        AttemptRun(if resp.status == AcceptedAuth then Accepted(resp.accessToken) else Refused(resp), [AuthCall(c)], script[1..])
  }

  /** The POST to the refresh endpoint, falling back to the credentials unless it answers 202. */
  function RefreshAttempt(c: Config, script: seq<Outcome>): (r: AttemptRun)
    requires c.refreshPath.Some?
    ensures r.end.Lost? ==> |r.rest| < |script|
  {
    if script == [] then AttemptRun(Unanswered, [RefreshCall(c)], [])
    else match script[0]
      case ConnectionFailure => AttemptRun(Lost, [RefreshCall(c)], script[1..])
      case Reply(resp) =>
        if resp.status == AcceptedAuth then AttemptRun(Accepted(resp.accessToken), [RefreshCall(c)], script[1..])
        else
          var auth := AuthAttempt(c, script[1..]);
          AttemptRun(auth.end, [RefreshCall(c)] + auth.calls, auth.rest)
  }

  /** One pass through the login sequence: the refresh endpoint first when configured, then the credentials. */
  function LoginAttempt(c: Config, script: seq<Outcome>): (r: AttemptRun)
    ensures r.end.Lost? ==> |r.rest| < |script|
  {
    if c.refreshPath.None? then AuthAttempt(c, script) else RefreshAttempt(c, script)
  }

  datatype LoginRun = LoginRun(result: Result<Option<string>, Fault>, calls: seq<Call>, rest: seq<Outcome>)

  /**
    The login sequence: a pass ending in a connectivity failure restarts it from
    the beginning; a 202 yields the `access_token` field (possibly absent); a
    pass without 202 fails with the last response.
  */
  function Login(c: Config, script: seq<Outcome>): LoginRun
    decreases |script|
  {
    var pass := LoginAttempt(c, script);
    match pass.end
    case Accepted(token) => LoginRun(Success(token), pass.calls, pass.rest)
    case Refused(last) => LoginRun(Failure(Rejected(last)), pass.calls, pass.rest)
    case Unanswered => LoginRun(Failure(OutOfScript), pass.calls, pass.rest)
    case Lost =>
      var again := Login(c, pass.rest);
      LoginRun(again.result, pass.calls + again.calls, again.rest)
  }

  // ---------------------------------------------------------------------------
  // Requests with one retry on 401

  datatype RequestRun = RequestRun(result: Result<Json, Fault>, token: Option<string>, calls: seq<Call>, rest: seq<Outcome>)

  /**
    One create, read or delete: success on `op.success`; a first 401 replaces the
    token by a fresh login and re-issues the request once with `retry` set; any
    other status is terminal. A connectivity failure is raised to the caller.
  */
  function Request(c: Config, op: Op, token: Option<string>, retry: bool, script: seq<Outcome>): RequestRun
    decreases if retry then 0 else 1
  {
    var call := ResourceCall(c, op, token);
    if script == [] then RequestRun(Failure(OutOfScript), token, [call], [])
    else match script[0]
      case ConnectionFailure => RequestRun(Failure(ConnectionError), token, [call], script[1..])
      case Reply(resp) =>
        if resp.status == op.success then RequestRun(Success(resp.body), token, [call], script[1..])
        else if resp.status == Unauthorized && !retry then
          var login := Login(c, script[1..]);
          match login.result
          case Failure(fault) => RequestRun(Failure(fault), token, [call] + login.calls, login.rest)
          case Success(renewed) =>
            var again := Request(c, op, renewed, true, login.rest);
            RequestRun(again.result, again.token, [call] + login.calls + again.calls, again.rest)
        else RequestRun(Failure(Rejected(resp)), token, [call], script[1..])
  }

  // ---------------------------------------------------------------------------
  // Batches

  datatype BatchRun = BatchRun(results: seq<Result<Json, Fault>>, token: Option<string>, calls: seq<Call>, rest: seq<Outcome>)

  /**
    The operations issued one after another, each as a first attempt, each seeing
    the token and the transport the previous one left; every outcome is collected.
  */
  function Batch(c: Config, ops: seq<Op>, token: Option<string>, script: seq<Outcome>): BatchRun
    decreases |ops|
  {
    if ops == [] then BatchRun([], token, [], script)
    else
      var prev := Batch(c, ops[..|ops| - 1], token, script);
      var one := Request(c, ops[|ops| - 1], prev.token, false, prev.rest);
      BatchRun(prev.results + [one.result], one.token, prev.calls + one.calls, one.rest)
  }

  /** `post_all`: every entry posted to the same path. */
  function PostOps(path: string, entries: seq<Json>): (r: seq<Op>)
    ensures |r| == |entries|
    ensures forall i :: 0 <= i < |entries| ==> r[i] == PostOp(path, entries[i])
  {
    seq(|entries|, i requires 0 <= i < |entries| => PostOp(path, entries[i]))
  }

  /** `delete_all`: every path deleted. */
  function DeleteOps(paths: seq<string>): (r: seq<Op>)
    ensures |r| == |paths|
    ensures forall i :: 0 <= i < |paths| ==> r[i] == DeleteOp(paths[i])
  {
    seq(|paths|, i requires 0 <= i < |paths| => DeleteOp(paths[i]))
  }

  /**
    On the wire, the login requests go to the base URL and the endpoint run
    together, without an Authorization header.
  */
  lemma LoginCallWire(c: Config)
    ensures UrlText(AuthCall(c).url) == c.base + c.authPath && HeaderText(AuthCall(c).authorization) == None
    ensures c.refreshPath.Some? ==>
              UrlText(RefreshCall(c).url) == c.base + c.refreshPath.value &&
              HeaderText(RefreshCall(c).authorization) == None
  {
  }

  /**
    On the wire, a resource request goes to base URL + "/" + path and carries
    "Bearer " and the current token; with no token that reads "Bearer None".
  */
  lemma ResourceCallWire(c: Config, op: Op, token: Option<string>)
    ensures var call := ResourceCall(c, op, token);
            UrlText(call.url) == c.base + "/" + op.path && call.verb == op.verb &&
            HeaderText(call.authorization) == Some("Bearer " + (if token.Some? then token.value else "None"))
    ensures token.None? ==> HeaderText(ResourceCall(c, op, token).authorization) == Some("Bearer None")
  {
    assert "Bearer " + "None" == "Bearer None";
  }

  // ---------------------------------------------------------------------------
  // Helper lemmas about call logs and the transport's consumption

  /** Consuming outcomes in two steps is consuming them in one. */
  lemma ConsumesChain(s0: seq<Outcome>, c1: seq<Call>, s1: seq<Outcome>, c2: seq<Call>, s2: seq<Outcome>)
    requires Consumes(s0, c1, s1) && Consumes(s1, c2, s2)
    ensures Consumes(s0, c1 + c2, s2)
  {
    assert s0[|s0| - |s1|..][|s1| - |s2|..] == s0[|s0| - |s2|..];
  }

  /** The last answer of a later step is an answer of the whole run. */
  lemma AnsweredLastChain(s0: seq<Outcome>, c1: seq<Call>, s1: seq<Outcome>, s2: seq<Outcome>, resp: Response)
    requires Consumes(s0, c1, s1) && AnsweredLast(s1, s2, resp)
    ensures AnsweredLast(s0, s2, resp)
  {
    assert s1[|s1| - |s2| - 1] == s0[|s0| - |s1|..][|s1| - |s2| - 1];
  }

  /** Appending two pieces to a log one after the other appends their concatenation. */
  lemma AppendAssoc(log: seq<Call>, a: seq<Call>, b: seq<Call>)
    ensures log + (a + b) == log + a + b
  {
  }

  /** Two logs without an Authorization header make one without it. */
  lemma UnauthenticatedConcat(a: seq<Call>, b: seq<Call>)
    requires Unauthenticated(a) && Unauthenticated(b)
    ensures Unauthenticated(a + b)
  {
  }

  /** Filtering the log distributes over concatenation. */
  lemma {:induction false} ResourceCallsConcat(a: seq<Call>, b: seq<Call>)
    ensures ResourceCalls(a + b) == ResourceCalls(a) + ResourceCalls(b)
    decreases |b|
  {
    if b == [] {
      assert a + b == a;
    } else {
      assert (a + b)[..|a + b| - 1] == a + b[..|b| - 1];
      ResourceCallsConcat(a, b[..|b| - 1]);
    }
  }

  /** An unauthenticated log holds no resource request. */
  lemma {:induction false} ResourceCallsOfUnauthenticated(calls: seq<Call>)
    requires Unauthenticated(calls)
    ensures ResourceCalls(calls) == []
    decreases |calls|
  {
    if calls != [] {
      ResourceCallsOfUnauthenticated(calls[..|calls| - 1]);
    }
  }

  // ---------------------------------------------------------------------------
  // Login: what it issues, consumes and returns

  /** The credentials' POST is a single request; unless unanswered it consumes one outcome, and a refusal is that answer. */
  lemma AuthAttemptShape(c: Config, script: seq<Outcome>)
    ensures var r := AuthAttempt(c, script);
            r.calls == [AuthCall(c)] &&
            (script == [] ==> r.end.Unanswered? && r.rest == []) &&
            (script != [] ==> !r.end.Unanswered? && r.rest == script[1..]) &&
            (r.end.Refused? ==> script != [] && script[0] == Reply(r.end.last) && r.end.last.status != AcceptedAuth)
  {
  }

  /**
    What one pass promises: it consumes one outcome per request, its requests are
    unauthenticated and start at the first login step, every request was answered
    unless the script ran out, and a refusal is the credentials' last answer,
    which is not 202.
  */
  ghost predicate PassShaped(c: Config, script: seq<Outcome>, r: AttemptRun) {
    Consumes(script, r.calls, r.rest) && Unauthenticated(r.calls) &&
    |r.calls| >= 1 && r.calls[0] == FirstLoginCall(c) &&
    (!r.end.Unanswered? ==> |script| - |r.rest| == |r.calls|) &&
    (r.end.Refused? ==>
       r.calls[|r.calls| - 1] == AuthCall(c) && r.end.last.status != AcceptedAuth &&
       AnsweredLast(script, r.rest, r.end.last))
  }

  /** A pass of a single request: no refresh endpoint, or the refresh endpoint's answer decides. */
  lemma SingleRequestPassShape(c: Config, script: seq<Outcome>)
    requires c.refreshPath.None? || script == [] || script[0].ConnectionFailure? || script[0].response.status == AcceptedAuth
    ensures PassShaped(c, script, LoginAttempt(c, script))
  {
    if c.refreshPath.None? {
      AuthAttemptShape(c, script);
    }
  }

  /** A pass that falls back from the refresh endpoint to the credentials. */
  lemma FallbackPassShape(c: Config, script: seq<Outcome>)
    requires c.refreshPath.Some? && script != [] && script[0].Reply? && script[0].response.status != AcceptedAuth
    ensures PassShaped(c, script, LoginAttempt(c, script))
  {
    var r := LoginAttempt(c, script);
    var auth := AuthAttempt(c, script[1..]);
    assert r == AttemptRun(auth.end, [RefreshCall(c)] + auth.calls, auth.rest);
    AuthAttemptShape(c, script[1..]);
    assert r.calls == [RefreshCall(c), AuthCall(c)];
    if |script| == 1 {
      assert r.rest == [];
    } else {
      assert r.rest == script[2..];
      assert r.end.Refused? ==> script[1] == Reply(r.end.last);
    }
  }

  /** Every pass through the login sequence is shaped as `PassShaped` says. */
  lemma LoginAttemptShape(c: Config, script: seq<Outcome>)
    ensures PassShaped(c, script, LoginAttempt(c, script))
  {
    if c.refreshPath.Some? && script != [] && script[0].Reply? && script[0].response.status != AcceptedAuth {
      FallbackPassShape(c, script);
    } else {
      SingleRequestPassShape(c, script);
    }
  }

  /**
    Every login consumes one outcome per request, issues only unauthenticated
    requests, starts at the refresh endpoint when one is configured, never raises
    a connectivity failure, and a refusal carries the credentials' last answer,
    which is not 202. Unless the script ran out, every request was answered: in
    particular no request follows the refusal.
  */
  lemma {:induction false} LoginShape(c: Config, script: seq<Outcome>)
    ensures var r := Login(c, script);
            Consumes(script, r.calls, r.rest) && Unauthenticated(r.calls) &&
            |r.calls| >= 1 && r.calls[0] == FirstLoginCall(c) &&
            (r.result.Failure? ==> r.result.error.Rejected? || r.result.error.OutOfScript?) &&
            (!(r.result.Failure? && r.result.error.OutOfScript?) ==> |script| - |r.rest| == |r.calls|) &&
            (r.result.Failure? && r.result.error.Rejected? ==>
               r.calls[|r.calls| - 1] == AuthCall(c) && r.result.error.response.status != AcceptedAuth &&
               AnsweredLast(script, r.rest, r.result.error.response) && |script| - |r.rest| == |r.calls|)
    decreases |script|
  {
    var pass := LoginAttempt(c, script);
    LoginAttemptShape(c, script);
    if pass.end.Lost? {
      var again := Login(c, pass.rest);
      LoginShape(c, pass.rest);
      ConsumesChain(script, pass.calls, pass.rest, again.calls, again.rest);
      UnauthenticatedConcat(pass.calls, again.calls);
      if again.result.Failure? && again.result.error.Rejected? {
        AnsweredLastChain(script, pass.calls, pass.rest, again.rest, again.result.error.response);
      }
    }
  }

  /** A 202 from the refresh endpoint ends login with its token; the credentials are never posted. */
  lemma RefreshAcceptedSkipsCredentials(c: Config, script: seq<Outcome>)
    requires c.refreshPath.Some?
    requires script != [] && script[0].Reply? && script[0].response.status == AcceptedAuth
    ensures Login(c, script) == LoginRun(Success(script[0].response.accessToken), [RefreshCall(c)], script[1..])
  {
  }

  /**
    Any other answer from the refresh endpoint falls back to posting the
    credentials: 202 there yields its token, anything else is fatal with that
    answer, and no further request is made.
  */
  lemma RefreshRefusedFallsBack(c: Config, script: seq<Outcome>)
    requires c.refreshPath.Some?
    requires |script| >= 2 && script[0].Reply? && script[0].response.status != AcceptedAuth && script[1].Reply?
    ensures var resp := script[1].response;
            Login(c, script) ==
            LoginRun(if resp.status == AcceptedAuth then Success(resp.accessToken) else Failure(Rejected(resp)),
                     [RefreshCall(c), AuthCall(c)], script[2..])
  {
  }

  /** Without a refresh endpoint, login posts the credentials only. */
  lemma CredentialsWithoutRefresh(c: Config, script: seq<Outcome>)
    requires c.refreshPath.None?
    requires script != [] && script[0].Reply?
    ensures var resp := script[0].response;
            Login(c, script) ==
            LoginRun(if resp.status == AcceptedAuth then Success(resp.accessToken) else Failure(Rejected(resp)),
                     [AuthCall(c)], script[1..])
  {
  }

  /** A connectivity failure while posting the credentials restarts login from the refresh step. */
  lemma FailureAfterRefreshRestarts(c: Config, script: seq<Outcome>)
    requires c.refreshPath.Some?
    requires |script| >= 2 && script[0].Reply? && script[0].response.status != AcceptedAuth
    requires script[1] == ConnectionFailure
    ensures var again := Login(c, script[2..]);
            Login(c, script) == LoginRun(again.result, [RefreshCall(c), AuthCall(c)] + again.calls, again.rest)
  {
    assert script[1..][1..] == script[2..];
    var pass := LoginAttempt(c, script);
    assert pass == AttemptRun(Lost, [RefreshCall(c)] + [AuthCall(c)], script[2..]);
    assert [RefreshCall(c)] + [AuthCall(c)] == [RefreshCall(c), AuthCall(c)];
  }

  /** `k` connectivity failures in a row. */
  function Failures(k: nat): (r: seq<Outcome>)
    ensures |r| == k && forall i :: 0 <= i < k ==> r[i] == ConnectionFailure
  {
    if k == 0 then [] else [ConnectionFailure] + Failures(k - 1)
  }

  /** `k` copies of the same request. */
  function Repeat(call: Call, k: nat): (r: seq<Call>)
    ensures |r| == k && forall i :: 0 <= i < k ==> r[i] == call
  {
    if k == 0 then [] else [call] + Repeat(call, k - 1)
  }

  /**
    `k` connectivity failures at the first step restart login `k` times, each
    restart issuing the first login request again; what follows decides.
  */
  lemma {:induction false} ConnectionFailuresRestart(c: Config, k: nat, tail: seq<Outcome>)
    ensures var after := Login(c, tail);
            Login(c, Failures(k) + tail) == LoginRun(after.result, Repeat(FirstLoginCall(c), k) + after.calls, after.rest)
  {
    if k == 0 {
      assert Failures(k) + tail == tail;
    } else {
      var first := FirstLoginCall(c);
      var script := Failures(k) + tail;
      assert script[0] == ConnectionFailure;
      assert script[1..] == Failures(k - 1) + tail;
      var pass := LoginAttempt(c, script);
      assert pass == AttemptRun(Lost, [first], script[1..]);
      var again := Login(c, script[1..]);
      assert Login(c, script) == LoginRun(again.result, [first] + again.calls, again.rest);
      ConnectionFailuresRestart(c, k - 1, tail);
      var after := Login(c, tail);
      assert again.calls == Repeat(first, k - 1) + after.calls;
      AppendAssoc([first], Repeat(first, k - 1), after.calls);
    }
  }

  /**
    `k` connectivity failures followed by a 202 at the first login step yield
    that token after exactly `k` restarts: `k + 1` identical requests.
  */
  lemma TokenAfterRestarts(c: Config, k: nat, resp: Response, tail: seq<Outcome>)
    requires resp.status == AcceptedAuth
    ensures Login(c, Failures(k) + [Reply(resp)] + tail) ==
            LoginRun(Success(resp.accessToken), Repeat(FirstLoginCall(c), k + 1), tail)
  {
    var rest := [Reply(resp)] + tail;
    assert Failures(k) + [Reply(resp)] + tail == Failures(k) + rest;
    ConnectionFailuresRestart(c, k, rest);
    assert rest[1..] == tail;
    assert Login(c, rest) == LoginRun(Success(resp.accessToken), [FirstLoginCall(c)], tail);
    assert Repeat(FirstLoginCall(c), k + 1) == Repeat(FirstLoginCall(c), k) + [FirstLoginCall(c)] by {
      RepeatSnoc(FirstLoginCall(c), k);
    }
  }

  lemma {:induction false} RepeatSnoc(call: Call, k: nat)
    ensures Repeat(call, k + 1) == Repeat(call, k) + [call]
  {
    if k > 0 {
      RepeatSnoc(call, k - 1);
    }
  }

  // ---------------------------------------------------------------------------
  // Requests: the single retry on 401

  /** With nothing left in the script, a request goes unanswered. */
  lemma RequestUnanswered(c: Config, op: Op, token: Option<string>, retry: bool)
    ensures Request(c, op, token, retry, []) == RequestRun(Failure(OutOfScript), token, [ResourceCall(c, op, token)], [])
  {
  }

  /** A connectivity failure of the request itself is raised to the caller, without login. */
  lemma RequestDisconnected(c: Config, op: Op, token: Option<string>, retry: bool, script: seq<Outcome>)
    requires script != [] && script[0] == ConnectionFailure
    ensures Request(c, op, token, retry, script) ==
            RequestRun(Failure(ConnectionError), token, [ResourceCall(c, op, token)], script[1..])
  {
  }

  /** The success status returns the body after one request, with the token unchanged. */
  lemma RequestSucceeds(c: Config, op: Op, token: Option<string>, retry: bool, script: seq<Outcome>)
    requires script != [] && script[0].Reply? && script[0].response.status == op.success
    ensures Request(c, op, token, retry, script) ==
            RequestRun(Success(script[0].response.body), token, [ResourceCall(c, op, token)], script[1..])
  {
  }

  /**
    Any status other than the success status and a first 401 is terminal: the
    response is raised after one request, with no login and the token unchanged.
  */
  lemma TerminalStatusFailsAtOnce(c: Config, op: Op, token: Option<string>, retry: bool, script: seq<Outcome>)
    requires script != [] && script[0].Reply?
    requires script[0].response.status != op.success && (script[0].response.status != Unauthorized || retry)
    ensures Request(c, op, token, retry, script) ==
            RequestRun(Failure(Rejected(script[0].response)), token, [ResourceCall(c, op, token)], script[1..])
  {
  }

  /**
    A first 401 triggers one login. If it fails, its error is raised and the token
    is kept; otherwise the token is replaced by the login's result and the request
    is issued once more, marked as a retry.
  */
  lemma UnauthorizedLogsInAndRetries(c: Config, op: Op, token: Option<string>, script: seq<Outcome>)
    requires script != [] && script[0].Reply?
    requires script[0].response.status != op.success && script[0].response.status == Unauthorized
    ensures var login := Login(c, script[1..]);
            Request(c, op, token, false, script) ==
            match login.result
            case Failure(fault) => RequestRun(Failure(fault), token, [ResourceCall(c, op, token)] + login.calls, login.rest)
            case Success(renewed) =>
              var again := Request(c, op, renewed, true, login.rest);
              RequestRun(again.result, again.token, [ResourceCall(c, op, token)] + login.calls + again.calls, again.rest)
  {
  }

  /**
    401, a successful login, then 401 again: the second 401 is raised, no third
    request is made, and the token is the one the login produced.
  */
  lemma SecondUnauthorizedIsTerminal(c: Config, op: Op, token: Option<string>, script: seq<Outcome>)
    requires op.success != Unauthorized
    requires script != [] && script[0].Reply? && script[0].response.status == Unauthorized
    requires Login(c, script[1..]).result.Success?
    requires var rest := Login(c, script[1..]).rest;
             rest != [] && rest[0].Reply? && rest[0].response.status == Unauthorized
    ensures var login := Login(c, script[1..]);
            var renewed := login.result.value;
            Request(c, op, token, false, script) ==
            RequestRun(Failure(Rejected(login.rest[0].response)), renewed,
                       [ResourceCall(c, op, token)] + login.calls + [ResourceCall(c, op, renewed)], login.rest[1..])
  {
    var login := Login(c, script[1..]);
    TerminalStatusFailsAtOnce(c, op, login.result.value, true, login.rest);
  }

  /** 401, a successful login, then the success status: the retry's body is returned under the new token. */
  lemma RetrySucceeds(c: Config, op: Op, token: Option<string>, script: seq<Outcome>)
    requires op.success != Unauthorized
    requires script != [] && script[0].Reply? && script[0].response.status == Unauthorized
    requires Login(c, script[1..]).result.Success?
    requires var rest := Login(c, script[1..]).rest;
             rest != [] && rest[0].Reply? && rest[0].response.status == op.success
    ensures var login := Login(c, script[1..]);
            var renewed := login.result.value;
            Request(c, op, token, false, script) ==
            RequestRun(Success(login.rest[0].response.body), renewed,
                       [ResourceCall(c, op, token)] + login.calls + [ResourceCall(c, op, renewed)], login.rest[1..])
  {
    var login := Login(c, script[1..]);
    RequestSucceeds(c, op, login.result.value, true, login.rest);
  }

  /**
    Every call consumes one outcome per request and starts with the resource
    request under the current token; it makes one resource request, or two when a
    first 401 led to a successful login.
  */
  lemma {:induction false} RequestShape(c: Config, op: Op, token: Option<string>, retry: bool, script: seq<Outcome>)
    ensures var r := Request(c, op, token, retry, script);
            Consumes(script, r.calls, r.rest) &&
            |r.calls| >= 1 && r.calls[0] == ResourceCall(c, op, token) &&
            1 <= |ResourceCalls(r.calls)| <= (if retry then 1 else 2)
    decreases if retry then 0 else 1
  {
    var call := ResourceCall(c, op, token);
    assert ResourceCalls([call]) == [call] by {
      assert [call][..0] == [];
    }
    if script != [] && script[0].Reply? {
      var resp := script[0].response;
      if resp.status != op.success && resp.status == Unauthorized && !retry {
        var login := Login(c, script[1..]);
        LoginShape(c, script[1..]);
        ConsumesChain(script, [call], script[1..], login.calls, login.rest);
        ResourceCallsOfUnauthenticated(login.calls);
        ResourceCallsConcat([call], login.calls);
        if login.result.Success? {
          var again := Request(c, op, login.result.value, true, login.rest);
          assert Request(c, op, token, retry, script) ==
                 RequestRun(again.result, again.token, [call] + login.calls + again.calls, again.rest);
          RequestShape(c, op, login.result.value, true, login.rest);
          ConsumesChain(script, [call] + login.calls, login.rest, again.calls, again.rest);
          ResourceCallsConcat([call] + login.calls, again.calls);
        }
      }
    }
  }

  /**
    The token changes only after a first 401, and then only to the token of the
    login that answered it; a retry never changes it.
  */
  lemma RequestToken(c: Config, op: Op, token: Option<string>, retry: bool, script: seq<Outcome>)
    ensures var r := Request(c, op, token, retry, script);
            r.token == token ||
            (!retry && script != [] && script[0].Reply? && script[0].response.status != op.success &&
             script[0].response.status == Unauthorized && Login(c, script[1..]).result == Success(r.token))
  {
    if !retry && script != [] && script[0].Reply? {
      var resp := script[0].response;
      if resp.status != op.success && resp.status == Unauthorized {
        var login := Login(c, script[1..]);
        if login.result.Success? {
          var again := Request(c, op, login.result.value, true, login.rest);
          assert again.token == login.result.value;
        }
      }
    }
  }

  // ---------------------------------------------------------------------------
  // Batches: one slot per input, in order

  /** Extending a batch by one operation issues it in the state the batch left. */
  lemma BatchStep(c: Config, ops: seq<Op>, token: Option<string>, script: seq<Outcome>, i: nat)
    requires i < |ops|
    ensures var prev := Batch(c, ops[..i], token, script);
            var one := Request(c, ops[i], prev.token, false, prev.rest);
            Batch(c, ops[..i + 1], token, script) ==
            BatchRun(prev.results + [one.result], one.token, prev.calls + one.calls, one.rest)
  {
    assert ops[..i + 1][..i] == ops[..i];
  }

  lemma {:induction false} BatchLength(c: Config, ops: seq<Op>, token: Option<string>, script: seq<Outcome>)
    ensures |Batch(c, ops, token, script).results| == |ops|
    decreases |ops|
  {
    if ops != [] {
      BatchLength(c, ops[..|ops| - 1], token, script);
    }
  }

  /**
    A batch has one slot per operation, and slot `i` is exactly the outcome of
    issuing operation `i` in the state the first `i` operations left, whatever
    those outcomes were.
  */
  lemma {:induction false} BatchSlots(c: Config, ops: seq<Op>, token: Option<string>, script: seq<Outcome>, i: nat)
    requires i < |ops|
    ensures var whole, before := Batch(c, ops, token, script), Batch(c, ops[..i], token, script);
            |whole.results| == |ops| &&
            whole.results[i] == Request(c, ops[i], before.token, false, before.rest).result
    decreases |ops|
  {
    BatchLength(c, ops, token, script);
    var prefix := ops[..|ops| - 1];
    BatchLength(c, prefix, token, script);
    if i < |ops| - 1 {
      BatchSlots(c, prefix, token, script, i);
      assert prefix[..i] == ops[..i];
    }
  }

  /**
    A batch never stops early: it consumes one outcome per request and makes
    between one and two resource requests per operation in total.
  */
  lemma {:induction false} BatchIssuesEveryItem(c: Config, ops: seq<Op>, token: Option<string>, script: seq<Outcome>)
    ensures var r := Batch(c, ops, token, script);
            Consumes(script, r.calls, r.rest) && |ops| <= |ResourceCalls(r.calls)| <= 2 * |ops|
    decreases |ops|
  {
    if ops != [] {
      var prev := Batch(c, ops[..|ops| - 1], token, script);
      var one := Request(c, ops[|ops| - 1], prev.token, false, prev.rest);
      BatchIssuesEveryItem(c, ops[..|ops| - 1], token, script);
      RequestShape(c, ops[|ops| - 1], prev.token, false, prev.rest);
      ConsumesChain(script, prev.calls, prev.rest, one.calls, one.rest);
      ResourceCallsConcat(prev.calls, one.calls);
    }
  }

  /** The first `j` operations of a batch leave a log and slots that begin the whole batch's. */
  lemma {:induction false} BatchPrefix(c: Config, ops: seq<Op>, token: Option<string>, script: seq<Outcome>, j: nat)
    requires j <= |ops|
    ensures var whole, part := Batch(c, ops, token, script), Batch(c, ops[..j], token, script);
            part.calls <= whole.calls && part.results <= whole.results
    decreases |ops|
  {
    if j == |ops| {
      assert ops[..j] == ops;
    } else {
      var prefix := ops[..|ops| - 1];
      BatchPrefix(c, prefix, token, script, j);
      assert prefix[..j] == ops[..j];
    }
  }

  /**
    A batch issues every operation, in order: the requests of operation `i`
    follow those of the first `i` operations in the log, begin with its own
    resource request under the token they left, and hold one or two resource
    requests.
  */
  lemma BatchIssuesItem(c: Config, ops: seq<Op>, token: Option<string>, script: seq<Outcome>, i: nat)
    requires i < |ops|
    ensures var r, before := Batch(c, ops, token, script), Batch(c, ops[..i], token, script);
            var one := Request(c, ops[i], before.token, false, before.rest);
            Batch(c, ops[..i + 1], token, script).calls == before.calls + one.calls &&
            before.calls + one.calls <= r.calls &&
            |before.calls| < |r.calls| && r.calls[|before.calls|] == ResourceCall(c, ops[i], before.token) &&
            1 <= |ResourceCalls(one.calls)| <= 2
  {
    var before := Batch(c, ops[..i], token, script);
    BatchStep(c, ops, token, script, i);
    BatchPrefix(c, ops, token, script, i + 1);
    RequestShape(c, ops[i], before.token, false, before.rest);
  }

  // ---------------------------------------------------------------------------
  // Results as a client returns or raises them

  /** A protocol result as a client returns or raises it; `raise` gives the client's error for each fault. */
  function Lift<T, E>(r: Result<T, Fault>, raise: Fault -> E): Result<T, E> {
    match r
    case Success(v) => Success(v)
    case Failure(f) => Failure(raise(f))
  }

  /** A delete returns nothing on success. */
  function LiftDeleted<E>(r: Result<Json, Fault>, raise: Fault -> E): Result<(), E> {
    match r
    case Success(_) => Success(())
    case Failure(f) => Failure(raise(f))
  }

  /** The list `post_all` returns: each slot holds the body or the error raised for that entry. */
  function LiftAll<E>(rs: seq<Result<Json, Fault>>, raise: Fault -> E): (r: seq<Result<Json, E>>)
    ensures |r| == |rs| && forall i :: 0 <= i < |rs| ==> r[i] == Lift(rs[i], raise)
  {
    if rs == [] then [] else LiftAll(rs[..|rs| - 1], raise) + [Lift(rs[|rs| - 1], raise)]
  }

  /** The list `delete_all` returns: each slot holds nothing or the error raised for that path. */
  function LiftAllDeleted<E>(rs: seq<Result<Json, Fault>>, raise: Fault -> E): (r: seq<Result<(), E>>)
    ensures |r| == |rs| && forall i :: 0 <= i < |rs| ==> r[i] == LiftDeleted(rs[i], raise)
  {
    if rs == [] then [] else LiftAllDeleted(rs[..|rs| - 1], raise) + [LiftDeleted(rs[|rs| - 1], raise)]
  }

  /** Lifting a list one slot longer appends that slot, lifted. */
  lemma LiftAllSnoc<E>(rs: seq<Result<Json, Fault>>, x: Result<Json, Fault>, raise: Fault -> E)
    ensures LiftAll(rs + [x], raise) == LiftAll(rs, raise) + [Lift(x, raise)]
  {
    assert (rs + [x])[..|rs|] == rs;
  }

  /** The same for the list `delete_all` returns. */
  lemma LiftAllDeletedSnoc<E>(rs: seq<Result<Json, Fault>>, x: Result<Json, Fault>, raise: Fault -> E)
    ensures LiftAllDeleted(rs + [x], raise) == LiftAllDeleted(rs, raise) + [LiftDeleted(x, raise)]
  {
    assert (rs + [x])[..|rs|] == rs;
  }
}
