/** The authentication session manager (`AuthProvider`) as values: what each
    of its own requests becomes once the 401 interceptor has seen it, the
    messages its operations report, and the session state they leave.

    The provider's requests go through its own client, so the 401
    interceptor sees their failures too. A request it takes over while a
    refresh is in flight is queued, and the operation that sent it stops
    at `Pending`: not settled within this call. The queue is drained when
    that refresh settles. A refresh that the interceptor starts is itself
    a request (`POST /refresh`, then `GET /csrf-token`); when one of those
    fails with 401, the interceptor queues it behind the very refresh that
    waits for it, that refresh never settles, and the session is
    `stalled`: then `Pending` is for good. */
module Auth {
  import opened Wrappers
  import opened Http
  import Api

  /** The user record the server returns; the model keeps what the
      client code compares. */
  datatype User = User(id: int, role: string)

  /** The parts of a response body the provider reads: `data.user`,
      `data.csrfToken` and `data.message`. */
  datatype Body = Body(user: Option<User>, csrfToken: Option<string>, message: Option<string>)

  /** What the server answers to one request: a response, or an error with
      the error response when there was one. */
  datatype Answer = Answered(body: Body) | Failed(response: Option<ErrorResponse>)

  /** The server, as the answer it gives to each request configuration. A
      replay carries the `_retry` mark, so it is another configuration and
      may be answered differently. */
  type Net = Request -> Answer

  /** What `login` and `register` return. */
  datatype AuthResult = SignedIn(user: User) | Refused(error: string)

  /** What `changePassword` returns. */
  datatype PasswordResult = PasswordChanged(message: string) | PasswordRefused(error: string)

  /** How the awaited refresh ended: `{success: true}`, `{success: false}`,
      or an exception. */
  datatype RefreshOutcome = RefreshSucceeded | RefreshFailed | RefreshRaised(reason: string)

  /** What the 401 interceptor does with a failure before it awaits
      anything. */
  datatype Step = Rejected(reason: Rejection) | Queued | RefreshStarted(marked: Request)

  const INVALID_RESPONSE := "Invalid response from server"
  const LOGIN_FAILED := "Login failed. Please try again."
  const REGISTRATION_FAILED := "Registration failed"
  const PASSWORD_CHANGED := "Password changed successfully"
  const PASSWORD_CHANGE_FAILED := "Password change failed"

  /** The provider's own requests, as first sent (unmarked). */
  const CSRF_TOKEN_CALL := Request(0, false, false)      // GET /csrf-token
  const ME_CALL := Request(1, false, false)              // GET /me
  const REFRESH_CALL := Request(2, false, false)         // POST /refresh
  const LOGIN_CALL := Request(3, false, false)           // POST /login
  const REGISTER_CALL := Request(4, false, false)        // POST /register
  const LOGOUT_CALL := Request(5, false, false)          // POST /logout
  const CHANGE_PASSWORD_CALL := Request(6, false, false) // POST /change-password

  /** The requests a refresh sends itself. */
  const REFRESH_CALL_IDS: set<nat> := {CSRF_TOKEN_CALL.id, REFRESH_CALL.id}

  /** The 401 interceptor takes a failure over: status 401 on a request
      without the `_retry` mark. With `exempt` (the evidently intended
      variant) it leaves the refresh's own requests alone. */
  predicate Intercepts(err: AxiosError, exempt: bool)
  {
    && StatusOf(err) == Some(UNAUTHORIZED)
    && !err.config.retry
    && !(exempt && err.config.id in REFRESH_CALL_IDS)
  }

  /** The interceptor takes over the answer `a` to request `r`. */
  predicate Intercepted(r: Request, a: Answer, exempt: bool)
  {
    a.Failed? && Intercepts(AxiosError(r, a.response), exempt)
  }

  /** An answer with status 401. */
  predicate Is401(a: Answer)
  {
    a.Failed? && a.response.Some? && a.response.value.status == UNAUTHORIZED
  }

  /** How a request the interceptor leaves alone settles for its caller. */
  function Direct(r: Request, a: Answer): Result<Body, Rejection>
  {
    match a
    case Answered(b) => Success(b)
    case Failed(response) => Failure(HttpFailure(AxiosError(r, response)))
  }

  /** The user a settled request establishes: `res.data?.user || null`,
      and null when the request threw. */
  function UserOf(res: Result<Body, Rejection>): (u: Option<User>)
    ensures u.Some? <==> res.Success? && res.value.user.Some?
    ensures u.Some? ==> u == res.value.user
  {
    if res.Success? then res.value.user else None
  }

  /** `err.response`: an HTTP failure has one when the server answered;
      the errors the interceptor creates have none. */
  function ResponseOf(reason: Rejection): Option<ErrorResponse>
  {
    if reason.HttpFailure? then reason.error.response else None
  }

  /** The message of a failed login: the server's `error`, else its
      `message`, else the status, else a fixed text when there was no
      response at all. */
  function LoginError(response: Option<ErrorResponse>): (m: string)
    ensures m != ""
    ensures response.Some? && Truthy(response.value.data.error) ==> m == response.value.data.error.value
    ensures response.Some? && !Truthy(response.value.data.error) && Truthy(response.value.data.message) ==>
      m == response.value.data.message.value
    ensures response.Some? && !Truthy(response.value.data.error) && !Truthy(response.value.data.message) ==>
      m == "Login failed (" + DecimalString(response.value.status) + ")"
    ensures response.None? ==> m == LOGIN_FAILED
  {
    match response
    case None => LOGIN_FAILED
    case Some(r) =>
      if Truthy(r.data.error) then r.data.error.value
      else if Truthy(r.data.message) then r.data.message.value
      else "Login failed (" + DecimalString(r.status) + ")"
  }

  /** The message of a failed registration: the server's `error`, else a
      fixed text. */
  function RegisterError(response: Option<ErrorResponse>): (m: string)
    ensures m != ""
    ensures response.Some? && Truthy(response.value.data.error) ==> m == response.value.data.error.value
    ensures !(response.Some? && Truthy(response.value.data.error)) ==> m == REGISTRATION_FAILED
  {
    if response.Some? then Or(response.value.data.error, REGISTRATION_FAILED) else REGISTRATION_FAILED
  }

  /** What `login` returns once its request has settled: signed in exactly
      when the response carries a user. */
  function LoginResult(res: Result<Body, Rejection>): (r: AuthResult)
    ensures r.SignedIn? <==> res.Success? && res.value.user.Some?
    ensures r.SignedIn? ==> res.value.user == Some(r.user)
    ensures res.Success? && res.value.user.None? ==> r == Refused(INVALID_RESPONSE)
    ensures res.Failure? ==> r == Refused(LoginError(ResponseOf(res.error)))
  {
    match res
    case Success(b) => if b.user.Some? then SignedIn(b.user.value) else Refused(INVALID_RESPONSE)
    case Failure(reason) => Refused(LoginError(ResponseOf(reason)))
  }

  /** What `register` returns once its request has settled: as `login`,
      with its own messages. */
  function RegisterResult(res: Result<Body, Rejection>): (r: AuthResult)
    ensures r.SignedIn? <==> res.Success? && res.value.user.Some?
    ensures r.SignedIn? ==> res.value.user == Some(r.user)
    ensures res.Success? && res.value.user.None? ==> r == Refused(REGISTRATION_FAILED)
    ensures res.Failure? ==> r == Refused(RegisterError(ResponseOf(res.error)))
  {
    match res
    case Success(b) => if b.user.Some? then SignedIn(b.user.value) else Refused(REGISTRATION_FAILED)
    case Failure(reason) => Refused(RegisterError(ResponseOf(reason)))
  }

  /** What `changePassword` returns once its request has settled: never an
      exception, and a non-empty text on both paths. */
  function PasswordResultOf(res: Result<Body, Rejection>): (r: PasswordResult)
    ensures r.PasswordChanged? <==> res.Success?
    ensures res.Success? && Truthy(res.value.message) ==> r == PasswordChanged(res.value.message.value)
    ensures res.Success? && !Truthy(res.value.message) ==> r == PasswordChanged(PASSWORD_CHANGED)
    ensures res.Failure? && ResponseOf(res.error).Some? && Truthy(ResponseOf(res.error).value.data.error) ==>
      r == PasswordRefused(ResponseOf(res.error).value.data.error.value)
    ensures res.Failure? && !(ResponseOf(res.error).Some? && Truthy(ResponseOf(res.error).value.data.error)) ==>
      r == PasswordRefused(PASSWORD_CHANGE_FAILED)
    ensures r.PasswordChanged? ==> r.message != ""
    ensures r.PasswordRefused? ==> r.error != ""
  {
    match res
    case Success(b) => PasswordChanged(Or(b.message, PASSWORD_CHANGED))
    case Failure(reason) =>
      var response := ResponseOf(reason);
      PasswordRefused(if response.Some? then Or(response.value.data.error, PASSWORD_CHANGE_FAILED) else PASSWORD_CHANGE_FAILED)
  }

  /** How one queued entry settles: resolved (its request is replayed
      unchanged) when there is no error, rejected with the error otherwise. */
  function SettleEntry(r: Request, error: Option<Rejection>): Outcome
  {
    if error.None? then Replay(r) else Reject(error.value)
  }

  /** `processQueue(error)` as a value: the settlement of every queued
      entry, in queue order. */
  function Drain(queue: seq<Request>, error: Option<Rejection>): seq<Outcome>
  {
    if queue == [] then [] else [SettleEntry(queue[0], error)] + Drain(queue[1..], error)
  }

  /** Draining settles every entry exactly once and in order: all of them
      replayed when there is no error, all rejected with it otherwise. */
  lemma {:induction false} DrainSettlesEachOnce(queue: seq<Request>, error: Option<Rejection>)
    ensures |Drain(queue, error)| == |queue|
    ensures error.None? ==> forall i :: 0 <= i < |queue| ==> Drain(queue, error)[i] == Replay(queue[i])
    ensures error.Some? ==> forall i :: 0 <= i < |queue| ==> Drain(queue, error)[i] == Reject(error.value)
  {
    if queue != [] {
      DrainSettlesEachOnce(queue[1..], error);
      var d := Drain(queue, error);
      assert forall i :: 1 <= i < |queue| ==> d[i] == Drain(queue[1..], error)[i - 1];
    }
  }

  /** Entries added at the end of the queue settle after the earlier ones. */
  lemma {:induction false} DrainAppend(queue: seq<Request>, r: Request, error: Option<Rejection>)
    ensures Drain(queue + [r], error) == Drain(queue, error) + [SettleEntry(r, error)]
  {
    if queue == [] {
      assert queue + [r] == [r];
    } else {
      assert (queue + [r])[1..] == queue[1..] + [r];
      DrainAppend(queue[1..], r, error);
    }
  }

  /** The provider's state together with its interceptor's (`isRefreshing`,
      `failedQueue`) and the CSRF headers of its client. `stalled` records
      that the refresh in flight waits for one of its own requests, which
      sits in the queue only that refresh drains. */
  datatype State = State(
    user: Option<User>,
    loading: bool,
    isInitialized: bool,
    isRefreshing: bool,
    failedQueue: seq<Request>,
    headers: map<string, string>,
    stalled: bool)

  /** The queue is empty unless a refresh is in flight, and only a refresh
      in flight can be stalled. */
  predicate Consistent(s: State)
  {
    (!s.isRefreshing ==> s.failedQueue == []) && (s.stalled ==> s.isRefreshing)
  }

  /** No refresh in flight and nothing queued. */
  predicate Idle(s: State)
  {
    !s.isRefreshing && s.failedQueue == [] && !s.stalled
  }

  /** While a refresh is in flight, only its own settlement ends it or
      empties the queue; a stalled refresh stays stalled. */
  predicate Persists(s: State, t: State)
  {
    s.isRefreshing ==>
      && t.isRefreshing
      && t.stalled == s.stalled
      && |s.failedQueue| <= |t.failedQueue|
      && t.failedQueue[..|s.failedQueue|] == s.failedQueue
  }

  /** The interceptor once the refresh it started has settled
      (`processQueue`, `setUser(null)`, and `isRefreshing = false` in
      `finally`): the original request's outcome and the queue's. */
  function SettleOn(s: State, err: AxiosError, outcome: RefreshOutcome): (State, Outcome, seq<Outcome>)
  {
    var marked := err.config.(retry := true);
    var t := s.(isRefreshing := false, failedQueue := []);
    match outcome
    case RefreshSucceeded => (t, Replay(marked), Drain(s.failedQueue, None))
    case RefreshFailed =>
      (t.(user := None), Reject(HttpFailure(err.(config := marked))), Drain(s.failedQueue, Some(TokenRefreshFailed)))
    case RefreshRaised(reason) =>
      (t.(user := None), Reject(RefreshThrew(reason)), Drain(s.failedQueue, Some(RefreshThrew(reason))))
  }

  /** One request of the provider's client, through the 401 interceptor:
      settled directly when the interceptor leaves it alone; queued (and
      so pending) while a refresh is in flight; otherwise a refresh runs
      and the request is replayed once, marked, or rejected. */
  function SendOn(s: State, r: Request, net: Net, exempt: bool): (out: (State, Await<Result<Body, Rejection>>))
    ensures Persists(s, out.0)
    decreases !s.isRefreshing, if r.retry then 1 else 2
  {
    var a := net(r);
    if !Intercepted(r, a, exempt) then (s, Done(Direct(r, a)))
    else if s.isRefreshing then (s.(failedQueue := s.failedQueue + [r]), Pending)
    else
      var p := AwaitRefreshOn(s.(isRefreshing := true), AxiosError(r, a.response), net, exempt);
      match p.1
      case Pending => (p.0, Pending)
      case Done(Replay(_)) => SendOn(p.0, r.(retry := true), net, exempt)
      case Done(Reject(reason)) => (p.0, Done(Failure(reason)))
  }

  /** The interceptor's `await refreshAccessToken()` and what follows it;
      a refresh that never settles leaves the interceptor stalled. */
  function AwaitRefreshOn(s: State, err: AxiosError, net: Net, exempt: bool): (State, Await<Outcome>, seq<Outcome>)
    decreases !s.isRefreshing, 5
  {
    var p := RefreshOn(s, net, exempt);
    match p.1
    case Pending => (p.0.(stalled := true), Pending, [])
    case Done(ok) =>
      var q := SettleOn(p.0, err, if ok then RefreshSucceeded else RefreshFailed);
      (q.0, Done(q.1), q.2)
  }

  /** `refreshAccessToken`: `POST /refresh`; a response with a user sets it
      and refetches the token; any other response or error reports failure. */
  function RefreshOn(s: State, net: Net, exempt: bool): (out: (State, Await<bool>))
    ensures Persists(s, out.0)
    decreases !s.isRefreshing, 4
  {
    var p := SendOn(s, REFRESH_CALL, net, exempt);
    match p.1
    case Pending => (p.0, Pending)
    case Done(Failure(_)) => (p.0, Done(false))
    case Done(Success(b)) =>
      if b.user.None? then (p.0, Done(false))
      else
        var q := FetchCsrfTokenOn(p.0.(user := b.user), net, exempt);
        (q.0, if q.1.Pending? then Pending else Done(true))
  }

  /** `fetchCsrfToken`: the token the server sent, stored under the three
      aliases when truthy; null when the request failed. */
  function FetchCsrfTokenOn(s: State, net: Net, exempt: bool): (out: (State, Await<Option<string>>))
    ensures Persists(s, out.0)
    decreases !s.isRefreshing, 3
  {
    var p := SendOn(s, CSRF_TOKEN_CALL, net, exempt);
    match p.1
    case Pending => (p.0, Pending)
    case Done(Failure(_)) => (p.0, Done(None))
    case Done(Success(b)) =>
      var token := b.csrfToken;
      (if Truthy(token) then p.0.(headers := Api.WithCsrfToken(p.0.headers, token.value)) else p.0, Done(token))
  }

  /** `fetchCurrentUser` (and `refreshUser`, which only awaits it): the user
      from `/me`, or null on any error; `false` while it waits. */
  function FetchCurrentUserOn(s: State, net: Net, exempt: bool): (out: (State, bool))
    ensures Persists(s, out.0)
  {
    var p := SendOn(s, ME_CALL, net, exempt);
    match p.1
    case Pending => (p.0, false)
    case Done(res) => (p.0.(user := UserOf(res)), true)
  }

  /** `initialize`: loading, the token, then the user; only when both have
      settled is the session initialised and no longer loading. */
  function InitializeOn(s: State, net: Net, exempt: bool): (out: (State, bool))
    ensures Persists(s, out.0)
  {
    var p := FetchCsrfTokenOn(s.(loading := true), net, exempt);
    if p.1.Pending? then (p.0, false)
    else
      var q := FetchCurrentUserOn(p.0, net, exempt);
      if !q.1 then (q.0, false)
      else (q.0.(isInitialized := true, loading := false), true)
  }

  /** `login` and `register` up to their result: loading, the request, and
      for a response with a user that user and a token refetch; loading
      ends (in `finally`) once the operation has settled. */
  function AuthenticateOn(s: State, call: Request, net: Net, exempt: bool): (out: (State, Await<Result<Body, Rejection>>))
    ensures Persists(s, out.0)
  {
    var p := SendOn(s.(loading := true), call, net, exempt);
    if p.1.Pending? then (p.0, Pending) else FinishAuthenticationOn(p.0, p.1.value, net, exempt)
  }

  /** The rest of `login` and `register` once their request has settled. */
  function FinishAuthenticationOn(s: State, res: Result<Body, Rejection>, net: Net, exempt: bool): (out: (State, Await<Result<Body, Rejection>>))
    ensures Persists(s, out.0)
  {
    if res.Success? && res.value.user.Some? then
      var q := FetchCsrfTokenOn(s.(user := res.value.user), net, exempt);
      if q.1.Pending? then (q.0, Pending) else (q.0.(loading := false), Done(res))
    else (s.(loading := false), Done(res))
  }

  /** `login`. */
  function LoginOn(s: State, net: Net, exempt: bool): (out: (State, Await<AuthResult>))
    ensures Persists(s, out.0)
  {
    var p := AuthenticateOn(s, LOGIN_CALL, net, exempt);
    (p.0, if p.1.Pending? then Pending else Done(LoginResult(p.1.value)))
  }

  /** `register`. */
  function RegisterOn(s: State, net: Net, exempt: bool): (out: (State, Await<AuthResult>))
    ensures Persists(s, out.0)
  {
    var p := AuthenticateOn(s, REGISTER_CALL, net, exempt);
    (p.0, if p.1.Pending? then Pending else Done(RegisterResult(p.1.value)))
  }

  /** `logout`: once `POST /logout` has settled, whatever it returned, the
      three aliases are deleted, the user is null and loading is over. */
  function LogoutOn(s: State, net: Net, exempt: bool): (out: (State, bool))
    ensures Persists(s, out.0)
  {
    var p := SendOn(s.(loading := true), LOGOUT_CALL, net, exempt);
    if p.1.Pending? then (p.0, false)
    else (p.0.(headers := Api.WithoutCsrfToken(p.0.headers), user := None, loading := false), true)
  }

  /** `changePassword`. */
  function ChangePasswordOn(s: State, net: Net, exempt: bool): (out: (State, Await<PasswordResult>))
    ensures Persists(s, out.0)
  {
    var p := SendOn(s, CHANGE_PASSWORD_CALL, net, exempt);
    (p.0, if p.1.Pending? then Pending else Done(PasswordResultOf(p.1.value)))
  }

  // ---------------------------------------------------------------------
  // Reference definitions: what a refresh comes to, read off the answers.

  /** What a refresh comes to when it runs while a refresh is in flight:
      pending when the interceptor takes over its `/refresh` or its token
      request, which is then queued behind the refresh in flight (behind
      itself when that refresh is the one awaiting it); otherwise it
      succeeds exactly when `/refresh` answers with a user. */
  function RefreshVerdict(net: Net, exempt: bool): Await<bool>
  {
    var a := net(REFRESH_CALL);
    if Intercepted(REFRESH_CALL, a, exempt) then Pending
    else if a.Failed? || a.body.user.None? then Done(false)
    else if Intercepted(CSRF_TOKEN_CALL, net(CSRF_TOKEN_CALL), exempt) then Pending
    else Done(true)
  }

  /** The request such a refresh leaves in the queue. */
  function ParkedBy(net: Net, exempt: bool): seq<Request>
  {
    var a := net(REFRESH_CALL);
    if Intercepted(REFRESH_CALL, a, exempt) then [REFRESH_CALL]
    else if a.Failed? || a.body.user.None? then []
    else if Intercepted(CSRF_TOKEN_CALL, net(CSRF_TOKEN_CALL), exempt) then [CSRF_TOKEN_CALL]
    else []
  }

  /** The user once `/refresh` has answered. */
  function RefreshedUser(net: Net, u: Option<User>): Option<User>
  {
    var a := net(REFRESH_CALL);
    if a.Answered? && a.body.user.Some? then a.body.user else u
  }

  /** The headers once the answer `a` to `/csrf-token` has been handled. */
  function TokenStored(h: map<string, string>, a: Answer): map<string, string>
  {
    if a.Answered? && Truthy(a.body.csrfToken) then Api.WithCsrfToken(h, a.body.csrfToken.value) else h
  }

  /** The token `fetchCsrfToken` returns for the answer `a`. */
  function TokenOf(a: Answer): Option<string>
  {
    if a.Answered? then a.body.csrfToken else None
  }

  /** A refresh running while a refresh is in flight comes to
      `RefreshVerdict`; it sets the `/refresh` user, stores the token only
      when it gets that far, and queues exactly what `ParkedBy` names. */
  lemma RefreshWhileRefreshing(s: State, net: Net, exempt: bool)
    requires s.isRefreshing
    ensures var out := RefreshOn(s, net, exempt);
      && out.1 == RefreshVerdict(net, exempt)
      && out.0 == s.(user := RefreshedUser(net, s.user),
                     headers := if out.1 == Done(true) then TokenStored(s.headers, net(CSRF_TOKEN_CALL)) else s.headers,
                     failedQueue := s.failedQueue + ParkedBy(net, exempt))
  {
    var a := net(REFRESH_CALL);
    var p := SendOn(s, REFRESH_CALL, net, exempt);
    if !Intercepted(REFRESH_CALL, a, exempt) && a.Answered? && a.body.user.Some? {
      var s1 := p.0.(user := a.body.user);
      assert s1.isRefreshing;
      var q := SendOn(s1, CSRF_TOKEN_CALL, net, exempt);
      assert q.0 == s1 || q.0 == s1.(failedQueue := s1.failedQueue + [CSRF_TOKEN_CALL]);
    }
  }

  /** The interceptor's wait for its refresh: pending and stalled when
      `RefreshVerdict` is pending; otherwise the refresh ends, the queue is
      drained, and the original request is replayed marked (success) or
      rejected with its own error (failure, user cleared). Because
      `refreshAccessToken` reports failure instead of throwing, the
      interceptor's `catch` branch is never taken. */
  lemma AwaitRefreshSettles(s: State, err: AxiosError, net: Net, exempt: bool)
    requires s.isRefreshing && !s.stalled
    ensures var out := AwaitRefreshOn(s, err, net, exempt);
            var v := RefreshVerdict(net, exempt);
            var marked := err.config.(retry := true);
      && (v.Pending? ==>
            out == (s.(user := RefreshedUser(net, s.user), failedQueue := s.failedQueue + ParkedBy(net, exempt), stalled := true),
                    Pending, []))
      && (v == Done(true) ==>
            out == (s.(user := RefreshedUser(net, s.user), headers := TokenStored(s.headers, net(CSRF_TOKEN_CALL)),
                       isRefreshing := false, failedQueue := []),
                    Done(Replay(marked)), Drain(s.failedQueue, None)))
      && (v == Done(false) ==>
            out == (s.(user := None, isRefreshing := false, failedQueue := []),
                    Done(Reject(HttpFailure(err.(config := marked)))), Drain(s.failedQueue, Some(TokenRefreshFailed))))
      && (out.1.Done? && out.1.value.Reject? ==> !out.1.value.reason.RefreshThrew?)
  {
    RefreshWhileRefreshing(s, net, exempt);
    var p := RefreshOn(s, net, exempt);
    if p.1.Done? {
      assert ParkedBy(net, exempt) == [];
      assert p.0.failedQueue == s.failedQueue;
      var q := SettleOn(p.0, err, if p.1.value then RefreshSucceeded else RefreshFailed);
      assert AwaitRefreshOn(s, err, net, exempt) == (q.0, Done(q.1), q.2);
    }
  }

  /** From an idle session, one request through the interceptor: left
      alone, it settles directly; taken over, the refresh either stalls
      (pending for good), or succeeds and the marked replay settles it, or
      fails and it is rejected with its own error and the user cleared.
      It is pending exactly when the refresh stalls, and never with the
      refresh's own requests exempted. */
  lemma SendFromIdle(s: State, r: Request, net: Net, exempt: bool)
    requires Idle(s)
    ensures var out := SendOn(s, r, net, exempt);
            var v := RefreshVerdict(net, exempt);
            var marked := r.(retry := true);
            var taken := Intercepted(r, net(r), exempt);
      && (!taken ==> out == (s, Done(Direct(r, net(r)))))
      && (taken && v.Pending? ==>
            out == (s.(user := RefreshedUser(net, s.user), isRefreshing := true,
                       failedQueue := ParkedBy(net, exempt), stalled := true), Pending))
      && (taken && v == Done(true) ==>
            out == (s.(user := RefreshedUser(net, s.user), headers := TokenStored(s.headers, net(CSRF_TOKEN_CALL))),
                    Done(Direct(marked, net(marked)))))
      && (taken && v == Done(false) ==>
            out == (s.(user := None), Done(Failure(HttpFailure(AxiosError(marked, net(r).response))))))
      && (out.1.Pending? <==> out.0.stalled)
      && (out.1.Done? ==> Idle(out.0))
      && (exempt ==> out.1.Done?)
  {
    var a := net(r);
    if Intercepted(r, a, exempt) {
      var s1 := s.(isRefreshing := true);
      var err := AxiosError(r, a.response);
      AwaitRefreshSettles(s1, err, net, exempt);
      var p := AwaitRefreshOn(s1, err, net, exempt);
      if RefreshVerdict(net, exempt) == Done(true) {
        assert p.1 == Done(Replay(r.(retry := true)));
        assert !p.0.isRefreshing;
        var marked := r.(retry := true);
        assert p.0 == s.(user := RefreshedUser(net, s.user), headers := TokenStored(s.headers, net(CSRF_TOKEN_CALL)));
        assert !Intercepted(marked, net(marked), exempt);
        assert SendOn(p.0, marked, net, exempt) == (p.0, Done(Direct(marked, net(marked))));
        assert SendOn(s, r, net, exempt) == SendOn(p.0, marked, net, exempt);
      }
    }
  }

  /** `fetchCsrfToken` from an idle session: when the interceptor leaves
      `/csrf-token` alone, the returned token is the server's and a truthy
      one is stored; it stalls for good only through the interceptor. */
  lemma FetchCsrfTokenFromIdle(s: State, net: Net, exempt: bool)
    requires Idle(s)
    ensures var out := FetchCsrfTokenOn(s, net, exempt);
      && (!Intercepted(CSRF_TOKEN_CALL, net(CSRF_TOKEN_CALL), exempt) ==>
            out == (s.(headers := TokenStored(s.headers, net(CSRF_TOKEN_CALL))), Done(TokenOf(net(CSRF_TOKEN_CALL)))))
      && (out.1.Pending? <==> out.0.stalled)
      && (out.1.Done? ==> Idle(out.0))
      && (exempt ==> out.1.Done?)
      && out.0.loading == s.loading && out.0.isInitialized == s.isInitialized
  {
    SendFromIdle(s, CSRF_TOKEN_CALL, net, exempt);
  }

  /** `refreshAccessToken` called from an idle session (the ten-minute
      timer, or a component): with the refresh's requests exempted it
      succeeds exactly when `/refresh` answers with a user. As written, a
      401 from `/refresh` starts a refresh that waits on itself. */
  lemma RefreshFromIdle(s: State, net: Net, exempt: bool)
    requires Idle(s)
    ensures var out := RefreshOn(s, net, exempt);
      && (out.1.Pending? <==> out.0.stalled)
      && (out.1.Done? ==> Idle(out.0))
      && (exempt ==> out.1 == Done(net(REFRESH_CALL).Answered? && net(REFRESH_CALL).body.user.Some?))
      && (!exempt && Is401(net(REFRESH_CALL)) ==>
            out == (s.(isRefreshing := true, failedQueue := [REFRESH_CALL], stalled := true), Pending))
  {
    SendFromIdle(s, REFRESH_CALL, net, exempt);
    var p := SendOn(s, REFRESH_CALL, net, exempt);
    if p.1.Done? && p.1.value.Success? && p.1.value.value.user.Some? {
      FetchCsrfTokenFromIdle(p.0.(user := p.1.value.value.user), net, exempt);
    }
  }

  /** `fetchCurrentUser` from an idle session: the user is the one `/me`
      returns, read again after a successful refresh, and cleared when
      `/me` or the refresh fails; nothing else changes but the refresh's
      user and token. It finishes unless the interceptor stalls, and
      always finishes with the refresh's requests exempted. */
  lemma FetchCurrentUserFromIdle(s: State, net: Net, exempt: bool)
    requires Idle(s)
    ensures var out := FetchCurrentUserOn(s, net, exempt);
            var taken := Intercepted(ME_CALL, net(ME_CALL), exempt);
            var marked := ME_CALL.(retry := true);
            var v := RefreshVerdict(net, exempt);
      && (!taken ==> out == (s.(user := UserOf(Direct(ME_CALL, net(ME_CALL)))), true))
      && (taken && v == Done(true) ==>
            out == (s.(user := UserOf(Direct(marked, net(marked))),
                       headers := TokenStored(s.headers, net(CSRF_TOKEN_CALL))), true))
      && (taken && v == Done(false) ==> out == (s.(user := None), true))
      && (!out.1 <==> out.0.stalled)
      && (out.1 ==> Idle(out.0))
      && (exempt ==> out.1)
  {
    SendFromIdle(s, ME_CALL, net, exempt);
  }

  /** `initialize` from an idle session: it finishes (initialised, not
      loading, idle) unless the interceptor stalls, and always finishes
      with the refresh's requests exempted. When neither of its requests
      is taken over, the token and the `/me` user are the server's. */
  lemma InitializeFromIdle(s: State, net: Net, exempt: bool)
    requires Idle(s)
    ensures var out := InitializeOn(s, net, exempt);
      && (out.1 ==> out.0.isInitialized && !out.0.loading && Idle(out.0))
      && (!out.1 ==> out.0.stalled && out.0.loading && out.0.isInitialized == s.isInitialized)
      && (exempt ==> out.1)
      && (!Intercepted(CSRF_TOKEN_CALL, net(CSRF_TOKEN_CALL), exempt) && !Intercepted(ME_CALL, net(ME_CALL), exempt) ==>
            out == (s.(loading := false, isInitialized := true, headers := TokenStored(s.headers, net(CSRF_TOKEN_CALL)),
                       user := UserOf(Direct(ME_CALL, net(ME_CALL)))), true))
  {
    var s0 := s.(loading := true);
    FetchCsrfTokenFromIdle(s0, net, exempt);
    var p := FetchCsrfTokenOn(s0, net, exempt);
    if p.1.Done? {
      SendFromIdle(p.0, ME_CALL, net, exempt);
    }
  }

  /** As written: a visitor without a session gets 401 from `/me` and from
      `/refresh`; the refresh queues its own `/refresh` behind itself, and
      initialisation never finishes: still loading, never initialised. */
  lemma AnonymousVisitorNeverInitialised(s: State, net: Net)
    requires Idle(s)
    requires !Intercepted(CSRF_TOKEN_CALL, net(CSRF_TOKEN_CALL), false)
    requires Is401(net(ME_CALL)) && Is401(net(REFRESH_CALL))
    ensures InitializeOn(s, net, false) ==
      (s.(loading := true, headers := TokenStored(s.headers, net(CSRF_TOKEN_CALL)),
          isRefreshing := true, failedQueue := [REFRESH_CALL], stalled := true), false)
  {
    var s0 := s.(loading := true);
    FetchCsrfTokenFromIdle(s0, net, false);
    var p := FetchCsrfTokenOn(s0, net, false);
    SendFromIdle(p.0, ME_CALL, net, false);
  }

  /** With the refresh's own requests exempted, the same visitor is
      initialised: not loading, no user, and the interceptor idle. */
  lemma AnonymousVisitorInitialisedWhenExempt(s: State, net: Net)
    requires Idle(s)
    requires Is401(net(ME_CALL)) && Is401(net(REFRESH_CALL))
    ensures InitializeOn(s, net, true) ==
      (s.(loading := false, isInitialized := true, headers := TokenStored(s.headers, net(CSRF_TOKEN_CALL)), user := None), true)
  {
    var s0 := s.(loading := true);
    FetchCsrfTokenFromIdle(s0, net, true);
    var p := FetchCsrfTokenOn(s0, net, true);
    SendFromIdle(p.0, ME_CALL, net, true);
  }

  /** `login` and `register` from an idle session: what settles is the
      direct answer, the marked replay's answer after a successful refresh,
      or the original error after a failed one; a response with a user
      signs that user in unless its token refetch is taken over; a refusal
      the interceptor does not touch leaves the session as it was. */
  lemma AuthenticateFromIdle(s: State, call: Request, net: Net, exempt: bool)
    requires Idle(s)
    ensures var out := AuthenticateOn(s, call, net, exempt);
            var v := RefreshVerdict(net, exempt);
            var marked := call.(retry := true);
            var taken := Intercepted(call, net(call), exempt);
      && (out.1.Done? ==> Idle(out.0) && !out.0.loading)
      && (out.1.Pending? ==> out.0.stalled && out.0.loading)
      && (exempt ==> out.1.Done?)
      && (out.1.Done? ==>
            out.1.value == (if !taken then Direct(call, net(call))
                            else if v == Done(true) then Direct(marked, net(marked))
                            else Failure(HttpFailure(AxiosError(marked, net(call).response)))))
      && (out.1.Done? && UserOf(out.1.value).Some? && !Intercepted(CSRF_TOKEN_CALL, net(CSRF_TOKEN_CALL), exempt) ==>
            out.0.user == UserOf(out.1.value))
      && (!taken && UserOf(Direct(call, net(call))).None? ==> out == (s.(loading := false), Done(Direct(call, net(call)))))
      && (taken && v == Done(false) ==> out.0.user == None)
  {
    var s0 := s.(loading := true);
    SendFromIdle(s0, call, net, exempt);
    var p := SendOn(s0, call, net, exempt);
    if p.1.Done? && p.1.value.Success? && p.1.value.value.user.Some? {
      FetchCsrfTokenFromIdle(p.0.(user := p.1.value.value.user), net, exempt);
    }
  }

  /** `login` as written, when the server refuses the credentials with 401
      while the browser still holds a valid refresh cookie: the refresh
      signs the cookie's user in, and the replayed login is refused; the
      caller is told the login failed, yet the session has a user. */
  lemma LoginRefusedYetSignedIn(s: State, net: Net, exempt: bool)
    requires Idle(s)
    requires Intercepted(LOGIN_CALL, net(LOGIN_CALL), exempt) && RefreshVerdict(net, exempt) == Done(true)
    requires net(LOGIN_CALL.(retry := true)).Failed?
    ensures LoginOn(s, net, exempt).1 == Done(Refused(LoginError(net(LOGIN_CALL.(retry := true)).response)))
    ensures LoginOn(s, net, exempt).0.user == net(REFRESH_CALL).body.user
    ensures LoginOn(s, net, exempt).0.user.Some?
  {
    SendFromIdle(s.(loading := true), LOGIN_CALL, net, exempt);
  }

  /** `logout` from an idle session: once it finishes, the aliases are
      gone from the headers it started with, the user is null and loading
      is over. As written, when the refresh cookie has expired too, it
      never finishes and the user stays signed in. */
  lemma LogoutFromIdle(s: State, net: Net, exempt: bool)
    requires Idle(s)
    ensures var out := LogoutOn(s, net, exempt);
      && (out.1 ==> out.0 == s.(headers := Api.WithoutCsrfToken(s.headers), user := None, loading := false))
      && (!out.1 ==> out.0.stalled && out.0.loading)
      && (exempt ==> out.1)
      && (!exempt && Is401(net(LOGOUT_CALL)) && Is401(net(REFRESH_CALL)) ==> !out.1 && out.0.user == s.user)
  {
    var s0 := s.(loading := true);
    SendFromIdle(s0, LOGOUT_CALL, net, exempt);
    var p := SendOn(s0, LOGOUT_CALL, net, exempt);
    var a := net(CSRF_TOKEN_CALL);
    if a.Answered? && Truthy(a.body.csrfToken) {
      Api.ClearThenStore(s.headers, a.body.csrfToken.value);
    }
  }

  /** `changePassword` from an idle session: never throws; when the
      interceptor leaves the request alone, it touches no session state. */
  lemma ChangePasswordFromIdle(s: State, net: Net, exempt: bool)
    requires Idle(s)
    ensures var out := ChangePasswordOn(s, net, exempt);
      && (!Intercepted(CHANGE_PASSWORD_CALL, net(CHANGE_PASSWORD_CALL), exempt) ==>
            out == (s, Done(PasswordResultOf(Direct(CHANGE_PASSWORD_CALL, net(CHANGE_PASSWORD_CALL))))))
      && (out.1.Pending? <==> out.0.stalled)
      && (out.1.Done? ==> Idle(out.0))
      && (exempt ==> out.1.Done?)
      && out.0.loading == s.loading
  {
    SendFromIdle(s, CHANGE_PASSWORD_CALL, net, exempt);
  }

  /** A request that the interceptor takes over while a refresh is in
      flight is queued, and the settling of that refresh resolves it last:
      replayed when the refresh succeeded, rejected with
      `TokenRefreshFailed` when it failed. So `Pending` is final only when
      the refresh in flight is stalled and never settles. */
  lemma QueuedRequestIsDrained(s: State, r: Request, net: Net, exempt: bool, err: AxiosError)
    requires s.isRefreshing
    requires Intercepted(r, net(r), exempt)
    ensures SendOn(s, r, net, exempt) == (s.(failedQueue := s.failedQueue + [r]), Pending)
    ensures var t := SendOn(s, r, net, exempt).0;
      && SettleOn(t, err, RefreshSucceeded).2 == Drain(s.failedQueue, None) + [Replay(r)]
      && SettleOn(t, err, RefreshFailed).2 == Drain(s.failedQueue, Some(TokenRefreshFailed)) + [Reject(TokenRefreshFailed)]
  {
    DrainAppend(s.failedQueue, r, None);
    DrainAppend(s.failedQueue, r, Some(TokenRefreshFailed));
  }

  /** A stalled refresh stays stalled: no operation of the provider ends
      it, empties the queue, or clears the flag. */
  lemma StallIsPermanent(s: State, net: Net, exempt: bool)
    requires s.stalled && s.isRefreshing
    ensures var t := LogoutOn(s, net, exempt).0; t.stalled && t.isRefreshing && s.failedQueue <= t.failedQueue
    ensures var t := InitializeOn(s, net, exempt).0; t.stalled && t.isRefreshing && s.failedQueue <= t.failedQueue
    ensures var t := LoginOn(s, net, exempt).0; t.stalled && t.isRefreshing && s.failedQueue <= t.failedQueue
    ensures var t := RefreshOn(s, net, exempt).0; t.stalled && t.isRefreshing && s.failedQueue <= t.failedQueue
  {
  }
}
