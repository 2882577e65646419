/** The `AuthProvider` component as an object: its state hooks, the
    closure state of its 401 interceptor, and its operations, each proved
    equal to the value-level rule in `Auth`. The answers of the server are
    the parameter `net`. An operation that returns `Pending` (or `false`
    for the operations without a result) has had a request queued behind
    the refresh in flight and is not settled within this call; it never
    settles when the session is then `stalled`. */
module AuthProvider {
  import opened Wrappers
  import opened Http
  import opened Auth
  import Api

  class AuthSession {
    /** The provider's own client, built by its own `useApi` call. */
    const api: Api.Client
    /** Whether the interceptor passes on the 401s of `/refresh` and
        `/csrf-token`: `false` is the code as written, `true` the variant
        in which a refresh never waits for itself. */
    const exemptRefreshCalls: bool
    var user: Option<User>
    var loading: bool
    var isInitialized: bool
    var isRefreshing: bool
    /** One entry per request waiting for the refresh in flight: the
        request to replay once that entry is resolved. */
    var failedQueue: seq<Request>
    /** The refresh in flight waits for one of its own requests, queued
        behind itself. */
    ghost var stalled: bool

    /** The session as a value. */
    ghost function Snapshot(): State
      reads this, api
    {
      State(user, loading, isInitialized, isRefreshing, failedQueue, api.common, stalled)
    }

    ghost predicate Valid()
      reads this, api
    {
      && api.Valid()
      && Consistent(Snapshot())
      && (forall i :: 0 <= i < |failedQueue| ==> !failedQueue[i].retry)
    }

    /** The state hooks' initial values and a fresh client. */
    constructor (configuredBase: Option<string>, exemptRefreshCalls: bool)
      ensures Valid() && fresh(api)
      ensures this.exemptRefreshCalls == exemptRefreshCalls
      ensures api.baseUrl == Api.BaseUrl(configuredBase)
      ensures Snapshot() == State(None, true, false, false, [], map[], false)
    {
      api := new Api.Client(configuredBase);
      this.exemptRefreshCalls := exemptRefreshCalls;
      user := None;
      loading := true;
      isInitialized := false;
      isRefreshing := false;
      failedQueue := [];
      stalled := false;
    }

    /** One request of the provider's client, through the 401 interceptor. */
    method Send(r: Request, net: Net) returns (res: Await<Result<Body, Rejection>>)
      requires Valid()
      modifies this, api
      decreases !isRefreshing, if r.retry then 1 else 2
      ensures Valid()
      ensures (Snapshot(), res) == SendOn(old(Snapshot()), r, net, exemptRefreshCalls)
    {
      var a := net(r);
      if !Intercepted(r, a, exemptRefreshCalls) {
        return Done(Direct(r, a));
      }
      var err := AxiosError(r, a.response);
      var step := OnResponseError(err);
      if step.Queued? {
        return Pending;
      }
      var original, _ := AwaitRefresh(err, net);
      match original
      case Pending => res := Pending;
      case Done(Replay(_)) => res := Send(r.(retry := true), net);
      case Done(Reject(reason)) => res := Done(Failure(reason));
    }

    /** The interceptor's `await refreshAccessToken()` and what follows it. */
    method AwaitRefresh(err: AxiosError, net: Net) returns (original: Await<Outcome>, drained: seq<Outcome>)
      requires Valid() && isRefreshing && !stalled
      requires Intercepts(err, exemptRefreshCalls)
      modifies this, api
      decreases !isRefreshing, 5
      ensures Valid()
      ensures (Snapshot(), original, drained) == AwaitRefreshOn(old(Snapshot()), err, net, exemptRefreshCalls)
    {
      var success := RefreshAccessToken(net);
      match success
      case Pending =>
        stalled := true;
        original, drained := Pending, [];
      case Done(ok) =>
        var o;
        o, drained := SettleRefresh(err, if ok then RefreshSucceeded else RefreshFailed);
        original := Done(o);
    }

    /** `refreshAccessToken`. */
    method RefreshAccessToken(net: Net) returns (success: Await<bool>)
      requires Valid()
      modifies this, api
      decreases !isRefreshing, 4
      ensures Valid()
      ensures (Snapshot(), success) == RefreshOn(old(Snapshot()), net, exemptRefreshCalls)
    {
      var res := Send(REFRESH_CALL, net);
      match res
      case Pending => success := Pending;
      case Done(Failure(_)) => success := Done(false);
      case Done(Success(b)) =>
        if b.user.None? {
          success := Done(false);
        } else {
          user := b.user;
          var token := FetchCsrfToken(net);
          success := if token.Pending? then Pending else Done(true);
        }
    }

    /** `fetchCsrfToken`. */
    method FetchCsrfToken(net: Net) returns (token: Await<Option<string>>)
      requires Valid()
      modifies this, api
      decreases !isRefreshing, 3
      ensures Valid()
      ensures (Snapshot(), token) == FetchCsrfTokenOn(old(Snapshot()), net, exemptRefreshCalls)
    {
      var res := Send(CSRF_TOKEN_CALL, net);
      match res
      case Pending => token := Pending;
      case Done(Failure(_)) => token := Done(None);
      case Done(Success(b)) =>
        if Truthy(b.csrfToken) {
          api.StoreCsrfToken(b.csrfToken.value);
        }
        token := Done(b.csrfToken);
    }

    /** `fetchCurrentUser` (and `refreshUser`); `finished` is false while it
        waits. */
    method FetchCurrentUser(net: Net) returns (finished: bool)
      requires Valid()
      modifies this, api
      ensures Valid()
      ensures (Snapshot(), finished) == FetchCurrentUserOn(old(Snapshot()), net, exemptRefreshCalls)
    {
      var res := Send(ME_CALL, net);
      match res
      case Pending => finished := false;
      case Done(r) =>
        user := UserOf(r);
        finished := true;
    }

    /** `initialize`. */
    method Initialize(net: Net) returns (finished: bool)
      requires Valid()
      modifies this, api
      ensures Valid()
      ensures (Snapshot(), finished) == InitializeOn(old(Snapshot()), net, exemptRefreshCalls)
    {
      loading := true;
      var token := FetchCsrfToken(net);
      if token.Pending? {
        return false;
      }
      var fetched := FetchCurrentUser(net);
      if !fetched {
        return false;
      }
      isInitialized := true;
      loading := false;
      finished := true;
    }

    /** The part `login` and `register` share. */
    method Authenticate(call: Request, net: Net) returns (res: Await<Result<Body, Rejection>>)
      requires Valid()
      modifies this, api
      ensures Valid()
      ensures (Snapshot(), res) == AuthenticateOn(old(Snapshot()), call, net, exemptRefreshCalls)
    {
      loading := true;
      var a := Send(call, net);
      if a.Pending? {
        return Pending;
      }
      res := FinishAuthentication(a.value, net);
    }

    /** The rest of `login` and `register` once their request has settled. */
    method FinishAuthentication(r: Result<Body, Rejection>, net: Net) returns (res: Await<Result<Body, Rejection>>)
      requires Valid()
      modifies this, api
      ensures Valid()
      ensures (Snapshot(), res) == FinishAuthenticationOn(old(Snapshot()), r, net, exemptRefreshCalls)
    {
      if r.Success? && r.value.user.Some? {
        user := r.value.user;
        var token := FetchCsrfToken(net);
        if token.Pending? {
          return Pending;
        }
      }
      loading := false;
      res := Done(r);
    }

    /** `login`. */
    method Login(net: Net) returns (r: Await<AuthResult>)
      requires Valid()
      modifies this, api
      ensures Valid()
      ensures (Snapshot(), r) == LoginOn(old(Snapshot()), net, exemptRefreshCalls)
    {
      var res := Authenticate(LOGIN_CALL, net);
      r := if res.Pending? then Pending else Done(LoginResult(res.value));
    }

    /** `register`. */
    method Register(net: Net) returns (r: Await<AuthResult>)
      requires Valid()
      modifies this, api
      ensures Valid()
      ensures (Snapshot(), r) == RegisterOn(old(Snapshot()), net, exemptRefreshCalls)
    {
      var res := Authenticate(REGISTER_CALL, net);
      r := if res.Pending? then Pending else Done(RegisterResult(res.value));
    }

    /** `logout`. */
    method Logout(net: Net) returns (finished: bool)
      requires Valid()
      modifies this, api
      ensures Valid()
      ensures (Snapshot(), finished) == LogoutOn(old(Snapshot()), net, exemptRefreshCalls)
    {
      loading := true;
      var res := Send(LOGOUT_CALL, net);
      if res.Pending? {
        return false;
      }
      api.ClearCsrfToken();
      user := None;
      loading := false;
      finished := true;
    }

    /** `changePassword`. */
    method ChangePassword(net: Net) returns (r: Await<PasswordResult>)
      requires Valid()
      modifies this, api
      ensures Valid()
      ensures (Snapshot(), r) == ChangePasswordOn(old(Snapshot()), net, exemptRefreshCalls)
    {
      var res := Send(CHANGE_PASSWORD_CALL, net);
      r := if res.Pending? then Pending else Done(PasswordResultOf(res.value));
    }

    /** The 401 interceptor up to its first `await`. A failure it does not
        take over is rejected unchanged. A 401 arriving while a refresh is
        in flight only joins the queue, unmarked. Otherwise the request is
        marked `_retry` and a refresh starts. */
    method OnResponseError(err: AxiosError) returns (step: Step)
      requires Valid()
      modifies this`isRefreshing, this`failedQueue
      ensures Valid()
      ensures !Intercepts(err, exemptRefreshCalls) ==>
        && step == Rejected(HttpFailure(err))
        && isRefreshing == old(isRefreshing) && failedQueue == old(failedQueue)
      ensures Intercepts(err, exemptRefreshCalls) && old(isRefreshing) ==>
        && step == Queued
        && isRefreshing && failedQueue == old(failedQueue) + [err.config]
      ensures Intercepts(err, exemptRefreshCalls) && !old(isRefreshing) ==>
        && step == RefreshStarted(err.config.(retry := true))
        && isRefreshing && failedQueue == []
    {
      if Intercepts(err, exemptRefreshCalls) {
        if isRefreshing {
          failedQueue := failedQueue + [err.config];
          step := Queued;
        } else {
          step := RefreshStarted(err.config.(retry := true));
          isRefreshing := true;
        }
      } else {
        step := Rejected(HttpFailure(err));
      }
    }

    /** `processQueue`: settle every queued entry, then empty the queue. */
    method ProcessQueue(error: Option<Rejection>) returns (settled: seq<Outcome>)
      modifies this`failedQueue
      ensures failedQueue == []
      ensures settled == Drain(old(failedQueue), error)
    {
      var queue := failedQueue;
      settled := [];
      var i := 0;
      while i < |queue|
        invariant 0 <= i <= |queue|
        invariant settled == Drain(queue[..i], error)
      {
        DrainAppend(queue[..i], queue[i], error);
        assert queue[..i + 1] == queue[..i] + [queue[i]];
        settled := settled + [SettleEntry(queue[i], error)];
        i := i + 1;
      }
      assert queue[..|queue|] == queue;
      failedQueue := [];
    }

    /** The 401 interceptor once the refresh it started has settled: on
        success the queue is resolved and the marked request replayed; on
        a failure result or an exception the queue is rejected, the user
        cleared and the original request rejected. `isRefreshing` ends
        false on every path. */
    method SettleRefresh(err: AxiosError, outcome: RefreshOutcome) returns (original: Outcome, drained: seq<Outcome>)
      requires Valid() && isRefreshing && !stalled
      requires Intercepts(err, exemptRefreshCalls)
      modifies this`isRefreshing, this`failedQueue, this`user
      ensures Valid() && !isRefreshing && failedQueue == []
      ensures (Snapshot(), original, drained) == SettleOn(old(Snapshot()), err, outcome)
      ensures |drained| == |old(failedQueue)|
      ensures outcome.RefreshSucceeded? ==> user == old(user)
      ensures !outcome.RefreshSucceeded? ==> user == None
      ensures outcome.RefreshSucceeded? ==> forall i :: 0 <= i < |drained| ==> drained[i] == Replay(old(failedQueue)[i])
      ensures !outcome.RefreshSucceeded? ==> forall i :: 0 <= i < |drained| ==> drained[i].Reject?
      ensures forall i :: 0 <= i < |drained| && drained[i].Replay? ==> !drained[i].request.retry
    {
      var marked := err.config.(retry := true);
      var queue := failedQueue;
      var error: Option<Rejection>;
      match outcome {
        case RefreshSucceeded =>
          error := None;
          original := Replay(marked);
        case RefreshFailed =>
          error := Some(TokenRefreshFailed);
          original := Reject(HttpFailure(err.(config := marked)));
        case RefreshRaised(reason) =>
          error := Some(RefreshThrew(reason));
          original := Reject(RefreshThrew(reason));
      }
      drained := ProcessQueue(error);
      DrainSettlesEachOnce(queue, error);
      if !outcome.RefreshSucceeded? {
        user := None;
      }
      isRefreshing := false;
    }

    /** Requests that fail with 401 one after another while no refresh is
        in flight: the first starts the refresh, the others queue, in order. */
    method FailTogether(errs: seq<AxiosError>) returns (steps: seq<Step>)
      requires Valid() && !isRefreshing
      requires |errs| > 0
      requires forall i :: 0 <= i < |errs| ==> Intercepts(errs[i], exemptRefreshCalls)
      modifies this`isRefreshing, this`failedQueue
      ensures Valid() && isRefreshing
      ensures failedQueue == seq(|errs| - 1, i requires 0 <= i < |errs| - 1 => errs[i + 1].config)
      ensures |steps| == |errs|
      ensures steps[0] == RefreshStarted(errs[0].config.(retry := true))
      ensures forall i :: 1 <= i < |errs| ==> steps[i] == Queued
    {
      var first := OnResponseError(errs[0]);
      steps := [first];
      var i := 1;
      while i < |errs|
        invariant 1 <= i <= |errs|
        invariant Valid() && isRefreshing
        invariant |steps| == i && steps[0] == first
        invariant forall j :: 1 <= j < i ==> steps[j] == Queued
        invariant |failedQueue| == i - 1
        invariant forall j :: 0 <= j < i - 1 ==> failedQueue[j] == errs[j + 1].config
      {
        var s := OnResponseError(errs[i]);
        steps := steps + [s];
        i := i + 1;
      }
    }

    /** Several of the provider's own requests (say the `/me` of
        `initialize`, a `/login` and the timer's `/refresh`) fail with 401
        while no refresh is in flight, and the refresh runs only after all
        of them have failed: exactly one refresh runs. If it comes to
        nothing (`RefreshVerdict` pending), all of them wait for good;
        otherwise all are replayed, the user and token stored, when it
        succeeds, or all rejected and the user cleared when it fails. */
    method UnauthorizedBurst(errs: seq<AxiosError>, net: Net)
      returns (steps: seq<Step>, original: Await<Outcome>, drained: seq<Outcome>)
      requires Valid() && !isRefreshing
      requires |errs| > 0
      requires forall i :: 0 <= i < |errs| ==> Intercepts(errs[i], exemptRefreshCalls)
      modifies this, api
      ensures Valid()
      ensures |steps| == |errs|
      ensures steps[0] == RefreshStarted(errs[0].config.(retry := true))
      ensures forall i :: 1 <= i < |errs| ==> steps[i] == Queued
      ensures original.Pending? <==> RefreshVerdict(net, exemptRefreshCalls).Pending?
      ensures original.Pending? ==>
        && stalled && isRefreshing && drained == []
        && failedQueue == seq(|errs| - 1, i requires 0 <= i < |errs| - 1 => errs[i + 1].config) + ParkedBy(net, exemptRefreshCalls)
      ensures original.Done? ==> !isRefreshing && failedQueue == [] && |drained| == |errs| - 1
      ensures RefreshVerdict(net, exemptRefreshCalls) == Done(true) ==>
        && original == Done(Replay(errs[0].config.(retry := true)))
        && (forall i :: 1 <= i < |errs| ==> drained[i - 1] == Replay(errs[i].config))
        && user == net(REFRESH_CALL).body.user
        && api.common == TokenStored(old(api.common), net(CSRF_TOKEN_CALL))
      ensures RefreshVerdict(net, exemptRefreshCalls) == Done(false) ==>
        && original == Done(Reject(HttpFailure(errs[0].(config := errs[0].config.(retry := true)))))
        && (forall i :: 0 <= i < |drained| ==> drained[i] == Reject(TokenRefreshFailed))
        && user == None
    {
      steps := FailTogether(errs);
      ghost var before := Snapshot();
      var queue := failedQueue;
      original, drained := AwaitRefresh(errs[0], net);
      AwaitRefreshSettles(before, errs[0], net, exemptRefreshCalls);
      var verdict := RefreshVerdict(net, exemptRefreshCalls);
      if verdict == Done(true) {
        DrainSettlesEachOnce(queue, None);
      } else if verdict == Done(false) {
        DrainSettlesEachOnce(queue, Some(TokenRefreshFailed));
      }
    }
  }
}
