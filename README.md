# Self-authenticating API client, modelled in Dafny

The repository ships one small HTTP client twice: `api_client.py` at the root and
`API_Client/api_client.py` in the installable package. An `APIClient` object
holds a base URL, a login endpoint, an optional refresh endpoint, credentials and
an access token. It behaves as follows:

- it logs in when constructed;
- it sends every create (`post`), read (`get` / `get_data`) and delete (`delete`)
  with a bearer token;
- on a first `401` it logs in again and retries the request once;
- it offers `post_all` and `delete_all`, which never raise and collect one result
  or exception per input.

The model has four files:

- `results.dfy` (module `Results`): the `Option` and `Result` values.
- `transport.dfy` (module `Transport`): the HTTP transport, replaced by a scripted
  oracle. `ScriptedTransport` holds a queue of outcomes and a call log.
  - Each outcome is a response (status, reason, the optional `access_token` field,
    the body) or a connectivity failure.
  - Each request is appended to the log and consumes the next outcome.
  - URLs and Authorization headers are kept as structured values; `UrlText` and
    `HeaderText` give the exact strings the client formats.
- `protocol.dfy` (module `Protocol`): the protocol both copies share, as pure
  functions of the configuration, the token and the scripted outcomes, plus the
  lemmas about them.
  - `Login` is the login sequence with its restarts.
  - `Request` is one create, read or delete with its single retry.
  - `Batch` is the `*_all` helpers.
  - Each returns the result or fault, the new token, the requests issued and the
    outcomes left.
- `api_client.dfy` (module `ApiClient`) and `packaged_api_client.dfy` (module
  `PackagedApiClient`): the two `APIClient` classes.
  - The configuration is held in constant fields and the token in a mutable field.
  - Every method is proved to leave the token, the transport and its result
    exactly as the protocol functions say.
  - Each file defines only `Raise`, its error for each protocol fault; `Protocol`
    lifts results and result lists through it.
  - The two files differ only where the sources differ: field names, `get` versus
    `get_data`, and the error raised. The root raises `Client_Exception(response)`;
    the package raises `Exception(status_code)`.

Where the model steps outside the code:

- **Empty queue.** When the queue is empty, a request goes unanswered and the call
  ends with the `OutOfScript` error. This error exists only in the model; the real
  program would block on the network instead. Because of it, the login restart is
  bounded: each restart consumes at least one outcome.
- **Connectivity failure of a request.** The source does not catch a connectivity
  failure of `post`, `get` or `delete`. It propagates, here as `ConnectionError`,
  and `post_all` / `delete_all` catch it like any other exception.
- **Failed re-login.** When the re-login after a `401` fails, its error propagates
  and the token field keeps its old value, because the assignment never happens.
- **Construction.** A constructor that raises leaves no object. The static method
  `Open` models this: it returns either a fresh, logged-in client or the login's
  error.

## Model

| member | source | states |
|---|---|---|
| Transport.UrlText | api_client.py:43-67 | definition of the URLs the client formats: base URL and login endpoint run together (lines 43, 48), base URL + "/" + path for resources (line 67); `Protocol.LoginCallWire` and `Protocol.ResourceCallWire` state them per request |
| Transport.HeaderText | api_client.py:63-65 | definition of the Authorization header: none for login, "Bearer " + token otherwise, "Bearer None" without a token; stated per request by `Protocol.ResourceCallWire` |
| Protocol.AuthAttempt | api_client.py:48-51 | definition of the credentials' POST: 202 accepts with the `access_token` field, any other answer refuses, a connectivity failure loses the pass; `Protocol.AuthAttemptShape` and `Protocol.CredentialsWithoutRefresh` carry its promises |
| Protocol.RefreshAttempt | api_client.py:42-51 | definition of the refresh step: 202 accepts at once, any other answer falls back to the credentials; `Protocol.RefreshAcceptedSkipsCredentials` and `Protocol.RefreshRefusedFallsBack` carry its promises |
| Protocol.LoginAttempt | api_client.py:41-51 | definition of one pass of the `try` body of `__login`; `Protocol.LoginAttemptShape` carries its promises |
| Protocol.Login | api_client.py:35-60 | definition of `__login`, restarting on a connectivity failure; its promises are in `Protocol.LoginShape`, `Protocol.FailureAfterRefreshRestarts`, `Protocol.ConnectionFailuresRestart` and `Protocol.TokenAfterRestarts` |
| Protocol.Request | api_client.py:62-77 | definition of `post`, `get` and `delete` with their single retry; its promises are in `Protocol.RequestShape`, `Protocol.RequestToken` and the lemmas from `Protocol.RequestDisconnected` to `Protocol.RetrySucceeds` |
| Protocol.Batch | api_client.py:79-90 | definition of `post_all` and `delete_all`: each input issued as a first attempt in the state the previous one left, every outcome collected; its promises are in `Protocol.BatchLength`, `Protocol.BatchSlots`, `Protocol.BatchIssuesItem` and `Protocol.BatchIssuesEveryItem` |
| Protocol.PostOps | api_client.py:82-84 | `post_all` posts entry `i` to the same path as operation `i`, one per entry |
| Protocol.DeleteOps | api_client.py:130-132 | `delete_all` deletes path `i` as operation `i`, one per path |
| Protocol.Lift | api_client.py:69-77 | definition of how a protocol result reaches the caller: a success is returned as is, a fault is raised as the client's own error; used by every client method's contract |
| Protocol.LiftDeleted | api_client.py:116-125 | the same for `delete`, which returns nothing on success |
| ApiClient.Raise | api_client.py:6-8 | definition of the root client's errors: a rejection is raised as `Client_Exception` carrying the whole response; `ApiClient.TerminalStatusRaisesResponse` and `ApiClient.RefusedLoginRaisesResponse` carry its promises |
| PackagedApiClient.Raise | API_Client/api_client.py:54 | definition of the package's errors: a rejection is raised as `Exception` of the status code only; `PackagedApiClient.TerminalStatusRaisesCode` and `PackagedApiClient.RefusedLoginRaisesCode` carry its promises |
| Protocol.AuthAttemptShape | api_client.py:48-51 | the credentials' POST is one request; unless unanswered it consumes one outcome, and a refusal is that answer, not 202 |
| Transport.ScriptedTransport.Send | api_client.py:67 | each request is appended to the call log; it receives the next scripted outcome, which is removed, or none once the queue is empty |
| Protocol.LoginCallWire | api_client.py:43-48 | the login requests go to base URL and endpoint with no separator and carry no Authorization header |
| Protocol.ResourceCallWire | api_client.py:63-67 | a request goes to base URL + "/" + path with the header "Bearer " + token, which reads "Bearer None" without a token |
| Protocol.LoginAttemptShape | api_client.py:41-51 | one pass consumes one outcome per request and issues only unauthenticated requests; it starts at the refresh endpoint when one is configured; every request was answered unless the script ran out; a refusal is the credentials' last answer, not 202 |
| Protocol.LoginShape | api_client.py:35-60 | a whole login, restarts included, consumes one outcome per request, issues only unauthenticated requests, starts with the first login step and never raises a connectivity failure; unless the script ran out, every request it made was answered; a refusal carries the credentials' last answer, which is not 202, and that answer was the last outcome consumed, so no request follows it |
| Protocol.RefreshAcceptedSkipsCredentials | api_client.py:42-46 | a 202 from the refresh endpoint ends login with its `access_token`; the credentials are never posted |
| Protocol.RefreshRefusedFallsBack | api_client.py:42-51 | any other answer from the refresh endpoint leads to exactly one post of the credentials; 202 yields its token and anything else is the refusal, after two requests |
| Protocol.CredentialsWithoutRefresh | api_client.py:48-51 | without a refresh endpoint, login posts only the credentials; 202 yields the token and anything else is the refusal |
| Protocol.FailureAfterRefreshRestarts | api_client.py:48-55 | a connectivity failure while posting the credentials restarts login from the refresh step |
| Protocol.ConnectionFailuresRestart | api_client.py:53-55 | `k` connectivity failures at the first step restart login `k` times, each repeating the first request; what follows decides |
| Protocol.TokenAfterRestarts | api_client.py:53-55 | `k` failures followed by a 202 yield that token after exactly `k` restarts, that is `k + 1` identical requests |
| Protocol.RequestDisconnected | api_client.py:62-67 | a connectivity failure of the request itself is raised, with no login and the token unchanged |
| Protocol.RequestSucceeds | api_client.py:69-70 | the success status (201, 200 or 204) returns the body after one request, with the token unchanged |
| Protocol.TerminalStatusFailsAtOnce | api_client.py:72-77 | any status other than the success status and a first 401 is raised after one request, with no login and the token unchanged |
| Protocol.UnauthorizedLogsInAndRetries | api_client.py:72-74 | a first 401 triggers one login; a failed login is raised with the token kept, otherwise the token becomes the login's result and the request is issued once more as a retry |
| Protocol.SecondUnauthorizedIsTerminal | api_client.py:72-77 | 401, a successful login, then 401 again: the second 401 is raised, no third request is made, and the token is the new one |
| Protocol.RetrySucceeds | api_client.py:69-74 | 401, a successful login, then the success status: the retry's body is returned under the new token |
| Protocol.RequestShape | api_client.py:62-77 | every request consumes one outcome per request it makes and starts with the resource request under the current token; it makes one resource request, or at most two when it is not itself a retry |
| Protocol.RequestToken | api_client.py:72-74 | the token changes only after a first 401, and then only to the token of the login that answered it |
| Protocol.BatchLength | api_client.py:79-90 | a batch returns exactly one slot per input |
| Protocol.BatchSlots | api_client.py:81-88 | slot `i` is the outcome of issuing input `i` in the state the first `i` inputs left, whatever those outcomes were |
| Protocol.BatchIssuesEveryItem | api_client.py:79-90 | a batch consumes one outcome per request and makes, in total, at least as many resource requests as it has inputs and at most twice as many |
| Protocol.BatchPrefix | api_client.py:82-88 | the log and the slots of the first `j` inputs are a prefix of the whole batch's: later inputs only append |
| Protocol.BatchIssuesItem | api_client.py:82-88 | every input is issued, in order: its requests directly follow those of the inputs before it, begin with its own resource request under the token they left, and hold one or two resource requests |
| Protocol.LiftAll | api_client.py:79-90 | the list `post_all` returns has the input's length; each slot is the body or the client's error for that entry, whichever client maps the faults |
| Protocol.LiftAllDeleted | api_client.py:127-136 | the list `delete_all` returns has the input's length; each slot is nothing or the client's error for that path |
| ApiClient.TerminalStatusRaisesResponse | api_client.py:77 | a terminal status raises `Client_Exception` carrying the whole response |
| ApiClient.RefusedLoginRaisesResponse | api_client.py:57-60 | a refused login raises `Client_Exception` carrying the credentials' answer, whose status is not 202 |
| ApiClient.APIClient.constructor | api_client.py:12-24 | the configuration is stored as given, with no token yet |
| ApiClient.APIClient.Open | api_client.py:12-26 | construction logs in: the client exists, fresh, only when login succeeds, and holds the login's token; otherwise the login's error is raised |
| ApiClient.APIClient.Enter | api_client.py:28-29 | `__enter__` returns the client itself |
| ApiClient.APIClient.Exit | api_client.py:31-33 | `__exit__` sets the token to none and changes nothing else |
| ApiClient.APIClient.LoginPass | api_client.py:41-51 | one pass of the login body issues and consumes exactly what `Protocol.LoginAttempt` says and ends as it says |
| ApiClient.APIClient.Login | api_client.py:35-60 | `__login` returns or raises what `Protocol.Login` says and leaves the transport as it says |
| ApiClient.APIClient.Post | api_client.py:62-77 | `post` returns or raises, and leaves the token and the transport, as `Protocol.Request` says for a create with success status 201 |
| ApiClient.APIClient.PostAll | api_client.py:79-90 | `post_all` returns the slot list of `Protocol.Batch` over one create per entry and leaves the token and the transport as it says |
| ApiClient.APIClient.Get | api_client.py:92-107 | `get` returns or raises, and leaves the token and the transport, as `Protocol.Request` says for a read with success status 200 |
| ApiClient.APIClient.Delete | api_client.py:109-125 | `delete` returns nothing or raises, and leaves the token and the transport, as `Protocol.Request` says for a delete with success status 204 |
| ApiClient.APIClient.DeleteAll | api_client.py:127-136 | `delete_all` returns the slot list of `Protocol.Batch` over one delete per path and leaves the token and the transport as it says |
| PackagedApiClient.TerminalStatusRaisesCode | API_Client/api_client.py:71 | a terminal status raises an `Exception` carrying only the status code |
| PackagedApiClient.RefusedLoginRaisesCode | API_Client/api_client.py:51-54 | a refused login raises an `Exception` carrying the credentials' status code, which is not 202 |
| PackagedApiClient.APIClient.constructor | API_Client/api_client.py:7-19 | the configuration is stored as given, with no token yet |
| PackagedApiClient.APIClient.Open | API_Client/api_client.py:7-21 | construction logs in: the client exists, fresh, only when login succeeds, and holds the login's token; otherwise the login's error is raised |
| PackagedApiClient.APIClient.Enter | API_Client/api_client.py:23-24 | `__enter__` returns the client itself |
| PackagedApiClient.APIClient.Exit | API_Client/api_client.py:26-27 | `__exit__` sets the token to none and changes nothing else |
| PackagedApiClient.APIClient.LoginPass | API_Client/api_client.py:35-45 | one pass of the login body issues and consumes exactly what `Protocol.LoginAttempt` says and ends as it says |
| PackagedApiClient.APIClient.Login | API_Client/api_client.py:29-54 | `__login` returns or raises what `Protocol.Login` says and leaves the transport as it says |
| PackagedApiClient.APIClient.Post | API_Client/api_client.py:56-71 | `post` follows `Protocol.Request` for a create with success status 201 |
| PackagedApiClient.APIClient.PostAll | API_Client/api_client.py:73-84 | `post_all` returns the slot list of `Protocol.Batch` over one create per entry and leaves the token and the transport as it says |
| PackagedApiClient.APIClient.GetData | API_Client/api_client.py:86-101 | `get_data` follows `Protocol.Request` for a read with success status 200 |
| PackagedApiClient.APIClient.Delete | API_Client/api_client.py:103-119 | `delete` follows `Protocol.Request` for a delete with success status 204 |
| PackagedApiClient.APIClient.DeleteAll | API_Client/api_client.py:121-130 | `delete_all` returns the slot list of `Protocol.Batch` over one delete per path and leaves the token and the transport as it says |

## Left out

- The real HTTP transport (`requests.Session`, `requests.post/get/delete`). It is replaced by the scripted oracle. The session used for login and the module-level functions used for resources share one oracle, since they reach the same server.
- JSON decoding: the body is opaque, and `access_token` is an optional field of the scripted response. An absent field yields a `None` token, which is not an error.
- The form encoding of the credentials versus the JSON encoding of a created entry. The payload is recorded, its encoding is not.
- Every `logging` call, including the reason phrase, which appears only in log messages.
- Whether the `requests` library's connection errors are caught by the builtin `ConnectionError` named in `__login`. This is a question about the library's class hierarchy. The model treats a connectivity failure as the outcome that clause catches.
- Python's recursion limit on consecutive login restarts. The model restarts as often as the script holds failures.
- `del self` in the root `__exit__`: it only unbinds a local name.
- Thread safety of the token: the code is single-threaded and has no synchronisation.
- The `Client_Exception` class beyond the response it carries, and the exception class hierarchy in general.
- `setup.py`: packaging metadata only.
