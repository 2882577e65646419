/** The configured HTTP client that `useApi` builds: its defaults, the
    common header map holding the anti-forgery token under three aliases,
    and its interceptor that refetches that token and replays a request
    once when the server rejects it with 403 and a message naming CSRF. */
module Api {
  import opened Wrappers
  import opened Http

  const DEFAULT_BASE_URL := "/api"
  const TIMEOUT_MS: nat := 15000
  const CONTENT_TYPE := "application/json"
  const XSRF_COOKIE_NAME := "csrf_access_token"
  const XSRF_HEADER_NAME := "X-CSRF-TOKEN"

  /** The three header names under which the anti-forgery token is sent. */
  const CSRF_TOKEN_HEADER := "X-CSRF-TOKEN"
  const XSRF_TOKEN_HEADER := "X-XSRF-TOKEN"
  const CSRFTOKEN_HEADER := "X-CSRFToken"
  const CSRF_HEADERS: set<string> := {CSRF_TOKEN_HEADER, XSRF_TOKEN_HEADER, CSRFTOKEN_HEADER}

  /** The substring of `data.msg` that marks a 403 as an anti-forgery failure. */
  const CSRF_MARKER := "CSRF"

  /** The base URL: the configured `VITE_API_BASE` when it is a non-empty
      string, `/api` otherwise. */
  function BaseUrl(configured: Option<string>): (r: string)
    ensures r != ""
    ensures Truthy(configured) ==> r == configured.value
    ensures !Truthy(configured) ==> r == DEFAULT_BASE_URL
  {
    Or(configured, DEFAULT_BASE_URL)
  }

  /** The three aliases are either all absent, or all present and carrying
      the same non-empty token. */
  predicate CsrfAliasesAgree(h: map<string, string>)
  {
    || (CSRF_TOKEN_HEADER !in h && XSRF_TOKEN_HEADER !in h && CSRFTOKEN_HEADER !in h)
    || (&& CSRF_TOKEN_HEADER in h && XSRF_TOKEN_HEADER in h && CSRFTOKEN_HEADER in h
        && h[CSRF_TOKEN_HEADER] != ""
        && h[XSRF_TOKEN_HEADER] == h[CSRF_TOKEN_HEADER]
        && h[CSRFTOKEN_HEADER] == h[CSRF_TOKEN_HEADER])
  }

  /** The token every outgoing request carries, if any. */
  function CsrfTokenOf(h: map<string, string>): Option<string>
  {
    if CSRF_TOKEN_HEADER in h then Some(h[CSRF_TOKEN_HEADER]) else None
  }

  /** The header map after writing `token` under all three aliases. */
  function WithCsrfToken(h: map<string, string>, token: string): (r: map<string, string>)
    requires token != ""
    ensures CsrfAliasesAgree(r) && CsrfTokenOf(r) == Some(token)
    ensures r[XSRF_TOKEN_HEADER] == token && r[CSRFTOKEN_HEADER] == token
    ensures r.Keys == h.Keys + CSRF_HEADERS
    ensures forall k :: k in h && k !in CSRF_HEADERS ==> r[k] == h[k]
  {
    h[CSRF_TOKEN_HEADER := token][XSRF_TOKEN_HEADER := token][CSRFTOKEN_HEADER := token]
  }

  /** The header map after deleting all three aliases. */
  function WithoutCsrfToken(h: map<string, string>): (r: map<string, string>)
    ensures CsrfAliasesAgree(r) && CsrfTokenOf(r) == None
    ensures r.Keys == h.Keys - CSRF_HEADERS
    ensures forall k :: k in r ==> r[k] == h[k]
  {
    h - CSRF_HEADERS
  }

  /** Clearing the token twice leaves the same headers as clearing it once,
      a later token write restores all three aliases, and clearing after a
      write leaves what clearing alone leaves. */
  lemma ClearThenStore(h: map<string, string>, token: string)
    requires token != ""
    ensures WithoutCsrfToken(WithoutCsrfToken(h)) == WithoutCsrfToken(h)
    ensures WithCsrfToken(WithoutCsrfToken(h), token) == WithCsrfToken(h, token)
    ensures WithoutCsrfToken(WithCsrfToken(h, token)) == WithoutCsrfToken(h)
  {
    var a, b := WithCsrfToken(WithoutCsrfToken(h), token), WithCsrfToken(h, token);
    assert a.Keys == b.Keys;
    assert forall k :: k in a ==> a[k] == b[k];
    var c, d := WithoutCsrfToken(WithCsrfToken(h, token)), WithoutCsrfToken(h);
    assert c.Keys == d.Keys;
  }

  /** What the 403 interceptor does when a request fails, before it awaits
      anything: pass the error on, or mark the request and fetch a token. */
  datatype CsrfStep = PassOn(error: AxiosError) | FetchToken(marked: Request)

  /** The failure is a 403 whose `data.msg` contains "CSRF" (case-sensitive). */
  predicate IsCsrfFailure(err: AxiosError)
  {
    && err.response.Some?
    && err.response.value.status == FORBIDDEN
    && err.response.value.data.msg.Some?
    && Contains(err.response.value.data.msg.value, CSRF_MARKER)
  }

  /** The first half of the 403 interceptor: classify the failure and, for
      an anti-forgery failure of an unmarked request, set `_csrfRetry`
      before the token is fetched. */
  function CsrfStage(err: AxiosError): (step: CsrfStep)
    ensures step.FetchToken? <==> IsCsrfFailure(err) && !err.config.csrfRetry
    ensures step.FetchToken? ==> step.marked == err.config.(csrfRetry := true)
    ensures step.PassOn? ==> step.error == err
  {
    if IsCsrfFailure(err) && !err.config.csrfRetry then FetchToken(err.config.(csrfRetry := true))
    else PassOn(err)
  }

  /** A request gets at most one anti-forgery replay: whatever its replay
      fails with is passed on. */
  lemma AtMostOneCsrfReplay(err: AxiosError, again: AxiosError)
    requires CsrfStage(err).FetchToken?
    requires again.config == CsrfStage(err).marked
    ensures CsrfStage(again) == PassOn(again)
  {
  }

  /** Failures that are not 403 (a 401 in particular) are passed on as they
      are, and so are 403s without the marker. */
  lemma OtherFailuresPassOn(err: AxiosError)
    requires StatusOf(err) != Some(FORBIDDEN) || !IsCsrfFailure(err)
    ensures CsrfStage(err) == PassOn(err)
  {
  }

  /** One axios instance as `useApi` configures it. Every component that
      calls the hook gets its own instance, with its own header map. */
  class Client {
    const baseUrl: string
    const timeout: nat
    const withCredentials: bool
    const contentType: string
    const xsrfCookieName: string
    const xsrfHeaderName: string
    /** `defaults.headers.common`; only the entries this code writes are modelled. */
    var common: map<string, string>

    ghost predicate Valid()
      reads this
    {
      CsrfAliasesAgree(common)
    }

    constructor (configuredBase: Option<string>)
      ensures Valid()
      ensures baseUrl == BaseUrl(configuredBase)
      ensures timeout == TIMEOUT_MS && withCredentials && contentType == CONTENT_TYPE
      ensures xsrfCookieName == XSRF_COOKIE_NAME && xsrfHeaderName == XSRF_HEADER_NAME
      ensures common == map[]
    {
      baseUrl := BaseUrl(configuredBase);
      timeout := TIMEOUT_MS;
      withCredentials := true;
      contentType := CONTENT_TYPE;
      xsrfCookieName := XSRF_COOKIE_NAME;
      xsrfHeaderName := XSRF_HEADER_NAME;
      common := map[];
    }

    /** Write a token under all three aliases. */
    method StoreCsrfToken(token: string)
      requires token != ""
      modifies this
      ensures Valid()
      ensures common == WithCsrfToken(old(common), token)
    {
      common := common[CSRF_TOKEN_HEADER := token];
      common := common[XSRF_TOKEN_HEADER := token];
      common := common[CSRFTOKEN_HEADER := token];
    }

    /** Delete all three aliases. */
    method ClearCsrfToken()
      modifies this
      ensures Valid()
      ensures common == WithoutCsrfToken(old(common))
    {
      common := common - {CSRF_TOKEN_HEADER};
      common := common - {XSRF_TOKEN_HEADER};
      common := common - {CSRFTOKEN_HEADER};
    }

    /** The second half of the 403 interceptor, once `GET /csrf-token` has
        settled: with a non-empty token, store it and replay the marked
        request; otherwise leave the headers alone and reject the original
        error, whose configuration now carries the mark. */
    method SettleCsrfRetry(err: AxiosError, fetch: TokenFetch) returns (o: Outcome)
      requires Valid()
      requires CsrfStage(err).FetchToken?
      modifies this
      ensures Valid()
      ensures fetch.Fetched? && Truthy(fetch.csrfToken) ==>
        && common == WithCsrfToken(old(common), fetch.csrfToken.value)
        && o == Replay(err.config.(csrfRetry := true))
      ensures !(fetch.Fetched? && Truthy(fetch.csrfToken)) ==>
        && common == old(common)
        && o == Reject(HttpFailure(err.(config := err.config.(csrfRetry := true))))
    {
      var marked := CsrfStage(err).marked;
      if fetch.Fetched? && Truthy(fetch.csrfToken) {
        StoreCsrfToken(fetch.csrfToken.value);
        o := Replay(marked);
      } else {
        o := Reject(HttpFailure(err.(config := marked)));
      }
    }
  }
}
