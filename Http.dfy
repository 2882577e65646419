/** Values exchanged with the HTTP client: request configurations, failed
    responses, what an interceptor decides, and the JavaScript truthiness
    rules the client code applies to them. */
module Http {
  import opened Wrappers

  /** HTTP status codes the interceptors classify (RFC 9110, sections
      15.5.2 and 15.5.4). */
  const UNAUTHORIZED: nat := 401
  const FORBIDDEN: nat := 403

  /** A request configuration as axios hands it to an interceptor. `id`
      stands for the method, URL and body; `retry` and `csrfRetry` are the
      `_retry` and `_csrfRetry` marks the interceptors set. Replaying a
      request merges its configuration into a fresh copy, which keeps both
      marks, so the record is a value. */
  datatype Request = Request(id: nat, retry: bool, csrfRetry: bool)

  /** The parts of an error response body the client code reads:
      `data.msg`, `data.error` and `data.message`. */
  datatype ErrorBody = ErrorBody(msg: Option<string>, error: Option<string>, message: Option<string>)

  datatype ErrorResponse = ErrorResponse(status: nat, data: ErrorBody)

  /** A rejected request: its configuration and, unless the server could
      not be reached, the response. */
  datatype AxiosError = AxiosError(config: Request, response: Option<ErrorResponse>)

  /** Why a request chain ends in a rejection. */
  datatype Rejection =
    | HttpFailure(error: AxiosError)   // the failed response itself
    | TokenRefreshFailed               // `new Error("Token refresh failed")`
    | RefreshThrew(reason: string)     // an exception raised while refreshing

  /** How a pending request chain settles: replayed through the client, or
      rejected. */
  datatype Outcome = Replay(request: Request) | Reject(reason: Rejection)

  /** An awaited operation: settled with a value, or still waiting because
      its request sits in the 401 interceptor's queue. */
  datatype Await<+T> = Done(value: T) | Pending

  /** The result of `GET /csrf-token`: an exception, or a response whose
      `data.csrfToken` may be missing. */
  datatype TokenFetch = FetchThrew | Fetched(csrfToken: Option<string>)

  /** JavaScript truthiness of an optional string: present and non-empty. */
  predicate Truthy(s: Option<string>)
  {
    s.Some? && s.value != ""
  }

  /** `a || b` on optional strings. */
  function Or(a: Option<string>, b: string): (r: string)
    ensures Truthy(a) ==> r == a.value
    ensures !Truthy(a) ==> r == b
  {
    if Truthy(a) then a.value else b
  }

  /** The status of a failed request, when there was a response. */
  function StatusOf(e: AxiosError): Option<nat>
  {
    if e.response.Some? then Some(e.response.value.status) else None
  }

  predicate IsPrefix(p: string, s: string)
  {
    |p| <= |s| && s[..|p|] == p
  }

  /** `s.includes(sub)`: a case-sensitive substring test. */
  function Contains(s: string, sub: string): bool
  {
    IsPrefix(sub, s) || (s != [] && Contains(s[1..], sub))
  }

  /** `sub` occurs in `s` starting at index `i`. */
  predicate OccursAt(s: string, sub: string, i: nat)
  {
    i + |sub| <= |s| && s[i..i + |sub|] == sub
  }

  lemma {:induction false} ContainsIffOccurs(s: string, sub: string)
    ensures Contains(s, sub) <==> exists i: nat :: OccursAt(s, sub, i)
  {
    if s == [] {
      if Contains(s, sub) {
        assert OccursAt(s, sub, 0);
      }
    } else {
      ContainsIffOccurs(s[1..], sub);
      if Contains(s, sub) {
        if IsPrefix(sub, s) {
          assert OccursAt(s, sub, 0);
        } else {
          var j: nat :| OccursAt(s[1..], sub, j);
          assert s[j + 1..j + 1 + |sub|] == s[1..][j..j + |sub|];
          assert OccursAt(s, sub, j + 1);
        }
      } else {
        forall i: nat
          ensures !OccursAt(s, sub, i)
        {
          if i == 0 {
            assert !IsPrefix(sub, s);
          } else if i + |sub| <= |s| {
            assert s[i..i + |sub|] == s[1..][i - 1..i - 1 + |sub|];
            assert !OccursAt(s[1..], sub, i - 1);
          }
        }
      }
    }
  }

  /** The number a string of decimal digits denotes. */
  function DigitsValue(s: string): nat
    requires forall i :: 0 <= i < |s| ==> '0' <= s[i] <= '9'
  {
    if s == [] then 0 else DigitsValue(s[..|s| - 1]) * 10 + (s[|s| - 1] as int - '0' as int)
  }

  /** Decimal rendering of a status code, as in a template literal: the
      digits of `n`, without leading zeros. */
  function DecimalString(n: nat): (r: string)
    ensures r != []
    ensures forall i :: 0 <= i < |r| ==> '0' <= r[i] <= '9'
    ensures DigitsValue(r) == n
    ensures r[0] == '0' ==> r == "0"
  {
    var d := [('0' as int + n % 10) as char];
    if n < 10 then d
    else
      var r := DecimalString(n / 10) + d;
      assert r[..|r| - 1] == DecimalString(n / 10);
      r
  }
}
