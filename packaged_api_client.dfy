/**
  The client of the installable package, `API_Client/api_client.py`: the same
  `APIClient` protocol as the root file, under other field names, with `get_data`
  for reads, and raising a plain `Exception` that carries only the status code.
*/
module PackagedApiClient {
  import opened Results
  import opened Transport
  import Protocol

  /** What the packaged client raises. */
  datatype PackageError =
    | StatusException(status: int)  // `Exception(response.status_code)`
    | ConnectionError               // a connectivity failure of a request, propagated as is
    | OutOfScript                   // the transport had no scripted outcome left

  /** The error the client raises for a protocol fault. */
  function Raise(f: Protocol.Fault): PackageError {
    match f
    case Rejected(resp) => StatusException(resp.status)
    case ConnectionError => ConnectionError
    case OutOfScript => OutOfScript
  }

  /**
    A status other than the success status and a first 401 is raised as an
    `Exception` carrying that status code only.
  */
  lemma TerminalStatusRaisesCode(c: Protocol.Config, op: Protocol.Op, token: Option<string>, retry: bool,
                                     script: seq<Outcome>)
    requires script != [] && script[0].Reply?
    requires script[0].response.status != op.success && (script[0].response.status != Protocol.Unauthorized || retry)
    ensures Protocol.Lift(Protocol.Request(c, op, token, retry, script).result, Raise) == Failure(StatusException(script[0].response.status))
  {
    Protocol.TerminalStatusFailsAtOnce(c, op, token, retry, script);
  }

  /** A refused login raises an `Exception` carrying the credentials' status code, which is not 202. */
  lemma RefusedLoginRaisesCode(c: Protocol.Config, script: seq<Outcome>)
    requires Protocol.Login(c, script).result.Failure? && Protocol.Login(c, script).result.error.Rejected?
    ensures var status := Protocol.Login(c, script).result.error.response.status;
            Protocol.Lift(Protocol.Login(c, script).result, Raise) == Failure(StatusException(status)) &&
            status != Protocol.AcceptedAuth
  {
    Protocol.LoginShape(c, script);
  }

  class APIClient {
    const apiUrl: string
    const loginSuffix: string
    const refreshSuffix: Option<string>
    const username: string
    const password: string
    /** The transport: the persistent session used for login and the plain requests alike. */
    const transport: ScriptedTransport
    var accessToken: Option<string>

    function Config(): Protocol.Config {
      Protocol.Config(apiUrl, loginSuffix, refreshSuffix, username, password)
    }

    /** Stores the configuration; `Open` then logs in. */
    constructor (apiUrl: string, loginSuffix: string, username: string, password: string,
                 refreshSuffix: Option<string>, transport: ScriptedTransport)
      ensures this.apiUrl == apiUrl && this.loginSuffix == loginSuffix
      ensures this.username == username && this.password == password
      ensures this.refreshSuffix == refreshSuffix && this.transport == transport
      ensures accessToken == None
    {
      this.apiUrl := apiUrl;
      this.loginSuffix := loginSuffix;
      this.refreshSuffix := refreshSuffix;
      this.username := username;
      this.password := password;
      this.transport := transport;
      accessToken := None;
    }

    /** Construction: a client exists only once the initial login has produced its token. */
    static method Open(apiUrl: string, loginSuffix: string, username: string, password: string,
                       refreshSuffix: Option<string>, transport: ScriptedTransport)
      returns (r: Result<APIClient, PackageError>)
      modifies transport
      ensures var run := Protocol.Login(Protocol.Config(apiUrl, loginSuffix, refreshSuffix, username, password),
                                        old(transport.pending));
              transport.pending == run.rest && transport.calls == old(transport.calls) + run.calls &&
              (run.result.Failure? ==> r == Failure(Raise(run.result.error))) &&
              (run.result.Success? ==>
                 r.Success? && fresh(r.value) && r.value.accessToken == run.result.value &&
                 r.value.transport == transport && r.value.Config() ==
                 Protocol.Config(apiUrl, loginSuffix, refreshSuffix, username, password))
    {
      var client := new APIClient(apiUrl, loginSuffix, username, password, refreshSuffix, transport);
      var token := client.Login();
      if token.Failure? {
        return Failure(token.error);
      }
      client.accessToken := token.value;
      return Success(client);
    }

    /** `__enter__`: the client itself. */
    method Enter() returns (c: APIClient)
      ensures c == this
    {
      c := this;
    }

    /** `__exit__`: the token is cleared. */
    method Exit()
      modifies this
      ensures accessToken == None
    {
      accessToken := None;
    }

    /**
      One pass through the body of `__login`: the refresh endpoint first when one
      is configured (a 202 there ends the pass), then the credentials.
    */
    method LoginPass() returns (end: Protocol.Attempt)
      modifies transport
      ensures var pass := Protocol.LoginAttempt(Config(), old(transport.pending));
              end == pass.end && transport.pending == pass.rest &&
              transport.calls == old(transport.calls) + pass.calls
    {
      if refreshSuffix.Some? {
        var answer := transport.Send(Call(POST, Joined(apiUrl, refreshSuffix.value), Anonymous, NoBody));
        if answer.None? {
          return Protocol.Unanswered;
        }
        if answer.value.ConnectionFailure? {
          return Protocol.Lost;
        }
        if answer.value.response.status == 202 {
          return Protocol.Accepted(answer.value.response.accessToken);
        }
      }
      var answer := transport.Send(Call(POST, Joined(apiUrl, loginSuffix), Anonymous, Credentials(username, password)));
      if answer.None? {
        end := Protocol.Unanswered;
      } else if answer.value.ConnectionFailure? {
        end := Protocol.Lost;
      } else if answer.value.response.status == 202 {
        end := Protocol.Accepted(answer.value.response.accessToken);
      } else {
        end := Protocol.Refused(answer.value.response);
      }
    }

    /**
      `__login`: a pass that ends in a connectivity failure starts the whole
      login again; a refusal raises the last response.
    */
    method Login() returns (token: Result<Option<string>, PackageError>)
      modifies transport
      ensures var run := Protocol.Login(Config(), old(transport.pending));
              token == Protocol.Lift(run.result, Raise) && transport.pending == run.rest &&
              transport.calls == old(transport.calls) + run.calls
      decreases |transport.pending|
    {
      var end := LoginPass();
      match end
      case Accepted(t) =>
        token := Success(t);
      case Refused(response) =>
        token := Failure(StatusException(response.status));
      case Unanswered =>
        token := Failure(OutOfScript);
      case Lost =>
        ghost var pass := Protocol.LoginAttempt(Config(), old(transport.pending));
        token := Login();
        Protocol.AppendAssoc(old(transport.calls), pass.calls, Protocol.Login(Config(), pass.rest).calls);
    }

    /** `post`: success on 201 returns the body; a first 401 re-logs in and retries once. */
    method Post(url: string, data: Json, retry: bool) returns (r: Result<Json, PackageError>)
      modifies this, transport
      ensures var run := Protocol.Request(Config(), Protocol.PostOp(url, data), old(accessToken), retry, old(transport.pending));
              r == Protocol.Lift(run.result, Raise) && accessToken == run.token && transport.pending == run.rest &&
              transport.calls == old(transport.calls) + run.calls
      decreases if retry then 0 else 1
    {
      ghost var op := Protocol.PostOp(url, data);
      var answer := transport.Send(Call(POST, Slashed(apiUrl, url), Bearer(accessToken), JsonBody(data)));
      if answer.None? {
        Protocol.RequestUnanswered(Config(), op, old(accessToken), retry);
        return Failure(OutOfScript);
      }
      if answer.value.ConnectionFailure? {
        Protocol.RequestDisconnected(Config(), op, old(accessToken), retry, old(transport.pending));
        return Failure(ConnectionError);
      }
      var response := answer.value.response;
      if response.status == 201 {
        Protocol.RequestSucceeds(Config(), op, old(accessToken), retry, old(transport.pending));
        return Success(response.body);
      }
      if response.status == 401 && !retry {
        Protocol.UnauthorizedLogsInAndRetries(Config(), op, old(accessToken), old(transport.pending));
        ghost var login := Protocol.Login(Config(), transport.pending);
        var token := Login();
        ghost var call := Protocol.ResourceCall(Config(), op, old(accessToken));
        if token.Failure? {
          Protocol.AppendAssoc(old(transport.calls), [call], login.calls);
          return Failure(token.error);
        }
        accessToken := token.value;
        r := Post(url, data, true);
        ghost var again := Protocol.Request(Config(), op, login.result.value, true, login.rest);
        Protocol.AppendAssoc(old(transport.calls), [call], login.calls);
        Protocol.AppendAssoc(old(transport.calls), [call] + login.calls, again.calls);
        return;
      }
      Protocol.TerminalStatusFailsAtOnce(Config(), op, old(accessToken), retry, old(transport.pending));
      return Failure(StatusException(response.status));
    }

    /** `post_all`: every entry posted in order; each slot holds the body or the error raised. */
    method PostAll(url: string, data: seq<Json>) returns (responses: seq<Result<Json, PackageError>>)
      modifies this, transport
      ensures var run := Protocol.Batch(Config(), Protocol.PostOps(url, data), old(accessToken), old(transport.pending));
              responses == Protocol.LiftAll(run.results, Raise) && accessToken == run.token && transport.pending == run.rest &&
              transport.calls == old(transport.calls) + run.calls
    {
      ghost var ops := Protocol.PostOps(url, data);
      ghost var run := Protocol.BatchRun([], accessToken, [], transport.pending);
      responses := [];
      for i := 0 to |data|
        invariant run == Protocol.Batch(Config(), ops[..i], old(accessToken), old(transport.pending))
        invariant responses == Protocol.LiftAll(run.results, Raise)
        invariant accessToken == run.token && transport.pending == run.rest
        invariant transport.calls == old(transport.calls) + run.calls
      {
        ghost var one := Protocol.Request(Config(), ops[i], accessToken, false, transport.pending);
        var answer := Post(url, data[i], false);
        responses := responses + [answer];
        Protocol.BatchStep(Config(), ops, old(accessToken), old(transport.pending), i);
        Protocol.AppendAssoc(old(transport.calls), run.calls, one.calls);
        Protocol.LiftAllSnoc(run.results, one.result, Raise);
        run := Protocol.BatchRun(run.results + [one.result], one.token, run.calls + one.calls, one.rest);
      }
      assert ops[..|data|] == ops;
    }

    /** `get_data`: success on 200 returns the body; a first 401 re-logs in and retries once. */
    method GetData(url: string, retry: bool) returns (r: Result<Json, PackageError>)
      modifies this, transport
      ensures var run := Protocol.Request(Config(), Protocol.GetOp(url), old(accessToken), retry, old(transport.pending));
              r == Protocol.Lift(run.result, Raise) && accessToken == run.token && transport.pending == run.rest &&
              transport.calls == old(transport.calls) + run.calls
      decreases if retry then 0 else 1
    {
      ghost var op := Protocol.GetOp(url);
      var answer := transport.Send(Call(GET, Slashed(apiUrl, url), Bearer(accessToken), NoBody));
      if answer.None? {
        Protocol.RequestUnanswered(Config(), op, old(accessToken), retry);
        return Failure(OutOfScript);
      }
      if answer.value.ConnectionFailure? {
        Protocol.RequestDisconnected(Config(), op, old(accessToken), retry, old(transport.pending));
        return Failure(ConnectionError);
      }
      var response := answer.value.response;
      if response.status == 200 {
        Protocol.RequestSucceeds(Config(), op, old(accessToken), retry, old(transport.pending));
        return Success(response.body);
      }
      if response.status == 401 && !retry {
        Protocol.UnauthorizedLogsInAndRetries(Config(), op, old(accessToken), old(transport.pending));
        ghost var login := Protocol.Login(Config(), transport.pending);
        var token := Login();
        ghost var call := Protocol.ResourceCall(Config(), op, old(accessToken));
        if token.Failure? {
          Protocol.AppendAssoc(old(transport.calls), [call], login.calls);
          return Failure(token.error);
        }
        accessToken := token.value;
        r := GetData(url, true);
        ghost var again := Protocol.Request(Config(), op, login.result.value, true, login.rest);
        Protocol.AppendAssoc(old(transport.calls), [call], login.calls);
        Protocol.AppendAssoc(old(transport.calls), [call] + login.calls, again.calls);
        return;
      }
      Protocol.TerminalStatusFailsAtOnce(Config(), op, old(accessToken), retry, old(transport.pending));
      return Failure(StatusException(response.status));
    }

    /** `delete`: success on 204 returns nothing; a first 401 re-logs in and retries once. */
    method Delete(url: string, retry: bool) returns (r: Result<(), PackageError>)
      modifies this, transport
      ensures var run := Protocol.Request(Config(), Protocol.DeleteOp(url), old(accessToken), retry, old(transport.pending));
              r == Protocol.LiftDeleted(run.result, Raise) && accessToken == run.token && transport.pending == run.rest &&
              transport.calls == old(transport.calls) + run.calls
      decreases if retry then 0 else 1
    {
      ghost var op := Protocol.DeleteOp(url);
      var answer := transport.Send(Call(DELETE, Slashed(apiUrl, url), Bearer(accessToken), NoBody));
      if answer.None? {
        Protocol.RequestUnanswered(Config(), op, old(accessToken), retry);
        return Failure(OutOfScript);
      }
      if answer.value.ConnectionFailure? {
        Protocol.RequestDisconnected(Config(), op, old(accessToken), retry, old(transport.pending));
        return Failure(ConnectionError);
      }
      var response := answer.value.response;
      if response.status == 204 {
        Protocol.RequestSucceeds(Config(), op, old(accessToken), retry, old(transport.pending));
        return Success(());
      }
      if response.status == 401 && !retry {
        Protocol.UnauthorizedLogsInAndRetries(Config(), op, old(accessToken), old(transport.pending));
        ghost var login := Protocol.Login(Config(), transport.pending);
        var token := Login();
        ghost var call := Protocol.ResourceCall(Config(), op, old(accessToken));
        if token.Failure? {
          Protocol.AppendAssoc(old(transport.calls), [call], login.calls);
          return Failure(token.error);
        }
        accessToken := token.value;
        r := Delete(url, true);
        ghost var again := Protocol.Request(Config(), op, login.result.value, true, login.rest);
        Protocol.AppendAssoc(old(transport.calls), [call], login.calls);
        Protocol.AppendAssoc(old(transport.calls), [call] + login.calls, again.calls);
        return;
      }
      Protocol.TerminalStatusFailsAtOnce(Config(), op, old(accessToken), retry, old(transport.pending));
      return Failure(StatusException(response.status));
    }

    /** `delete_all`: every path deleted in order; each slot holds nothing or the error raised. */
    method DeleteAll(urls: seq<string>) returns (responses: seq<Result<(), PackageError>>)
      modifies this, transport
      ensures var run := Protocol.Batch(Config(), Protocol.DeleteOps(urls), old(accessToken), old(transport.pending));
              responses == Protocol.LiftAllDeleted(run.results, Raise) && accessToken == run.token && transport.pending == run.rest &&
              transport.calls == old(transport.calls) + run.calls
    {
      ghost var ops := Protocol.DeleteOps(urls);
      ghost var run := Protocol.BatchRun([], accessToken, [], transport.pending);
      responses := [];
      for i := 0 to |urls|
        invariant run == Protocol.Batch(Config(), ops[..i], old(accessToken), old(transport.pending))
        invariant responses == Protocol.LiftAllDeleted(run.results, Raise)
        invariant accessToken == run.token && transport.pending == run.rest
        invariant transport.calls == old(transport.calls) + run.calls
      {
        ghost var one := Protocol.Request(Config(), ops[i], accessToken, false, transport.pending);
        var answer := Delete(urls[i], false);
        responses := responses + [answer];
        Protocol.BatchStep(Config(), ops, old(accessToken), old(transport.pending), i);
        Protocol.AppendAssoc(old(transport.calls), run.calls, one.calls);
        Protocol.LiftAllDeletedSnoc(run.results, one.result, Raise);
        run := Protocol.BatchRun(run.results + [one.result], one.token, run.calls + one.calls, one.rest);
      }
      assert ops[..|urls|] == ops;
    }
  }
}
