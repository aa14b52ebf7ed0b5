/**
 * `executeGraphQLWithRetry`: one Admin API call, retried with exponential
 * backoff. A THROTTLED answer is retried from inside the `try`; every
 * other failure (an error answer, or a thrown network error) is caught
 * and retried from the `catch`, on the same budget of `maxRetries` = 3.
 * The retry inside the `try` is returned without being awaited, so its
 * failure is not caught there: it is the result, as is the result of the
 * retry in the `catch`. Every failed call below the budget is therefore
 * followed by exactly one sleep and one retry.
 *
 * The Admin API client is an object whose answers are scripted: the
 * answer to a call depends on the number of calls made before it and on
 * the request. The client counts its calls and logs the delays slept
 * between them; the sleeps themselves take no time here.
 */
module GraphqlRetry {
  import opened Wrappers

  const MaxRetries: nat := 3

  /** The query text and variables of one request; the query text is fixed per fetch. */
  datatype Request = Request(query: Option<string>, cursor: Option<string>)

  /** One page of a connection: its nodes and `pageInfo`. */
  datatype Page<T> = Page(nodes: seq<T>, hasNextPage: bool, endCursor: Option<string>)

  /**
   * What a call comes back with: data, a response carrying `errors` (of
   * which `throttled` says whether one has code THROTTLED, and `message`
   * is the first one's message), or an exception.
   */
  datatype Answer<T> = Ok(page: Page<T>) | GraphErrors(throttled: bool, message: string) | Thrown(message: string)

  /** The scripted Admin API: its answers, the calls made so far and the delays slept. */
  class AdminClient<T> {
    const answers: (nat, Request) -> Answer<T>
    var calls: nat
    var sleeps: seq<nat>

    constructor(answers: (nat, Request) -> Answer<T>)
      ensures this.answers == answers && calls == 0 && sleeps == []
    {
      this.answers := answers;
      calls := 0;
      sleeps := [];
    }

    /** `admin.graphql(query, { variables })` followed by `response.json()`. */
    method Graphql(request: Request) returns (a: Answer<T>)
      modifies this
      ensures a == answers(old(calls), request)
      ensures calls == old(calls) + 1 && sleeps == old(sleeps)
    {
      a := answers(calls, request);
      calls := calls + 1;
    }

    /** `sleep(ms)`. */
    method Sleep(ms: nat)
      modifies this
      ensures sleeps == old(sleeps) + [ms] && calls == old(calls)
    {
      sleeps := sleeps + [ms];
    }
  }

  function Pow2(n: nat): (p: nat)
    ensures p >= 1
  {
    if n == 0 then 1 else 2 * Pow2(n - 1)
  }

  function Min(a: int, b: int): int
  {
    if a < b then a else b
  }

  /** The delay before retry number `retryCount + 1`: `min(1000 * 2^retryCount, 10000)`. */
  function Delay(retryCount: nat): nat
  {
    Min(1000 * Pow2(retryCount), 10000)
  }

  /** The three delays the retry budget allows are 1, 2 and 4 seconds; the cap is never reached. */
  lemma DelaysBelowCap()
    ensures Delay(0) == 1000 && Delay(1) == 2000 && Delay(2) == 4000
    ensures forall r :: 0 <= r < MaxRetries ==> Delay(r) < 10000
  {
    assert Pow2(1) == 2 && Pow2(2) == 4;
  }

  /**
   * A run of the retrying call: its result, the number of the first call
   * after it (the calls it made are those from its first call up to that
   * one) and the delays it slept, in order.
   */
  datatype Attempt<T> = Attempt(result: Result<Page<T>>, next: nat, sleeps: seq<nat>)

  /** The message an answer fails with: the first error's, or the exception's. */
  function FailureMessage<T>(a: Answer<T>): string
  {
    match a
    case Ok(_) => ""
    case GraphErrors(_, message) => message
    case Thrown(message) => message
  }

  /** A THROTTLED answer. */
  predicate IsThrottled<T>(a: Answer<T>)
  {
    a.GraphErrors? && a.throttled
  }

  /**
   * The retrying call started as call number `call` with retry counter
   * `retryCount`. Data is returned at once; a failure of any kind is
   * retried after the backoff delay while the counter is below the budget,
   * and is the result once it is not.
   */
  function Retry<T>(answers: (nat, Request) -> Answer<T>, request: Request, call: nat, retryCount: nat): Attempt<T>
    requires retryCount <= MaxRetries
    decreases MaxRetries - retryCount
  {
    var answer := answers(call, request);
    if answer.Ok? then Attempt(Success(answer.page), call + 1, [])
    else if retryCount == MaxRetries then Attempt(Failure(FailureMessage(answer)), call + 1, [])
    else
      var rest := Retry(answers, request, call + 1, retryCount + 1);
      Attempt(rest.result, rest.next, [Delay(retryCount)] + rest.sleeps)
  }

  /** `executeGraphQLWithRetry(admin, query, variables, retryCount)`. */
  method ExecuteGraphQLWithRetry<T>(admin: AdminClient<T>, request: Request, retryCount: nat)
    returns (r: Result<Page<T>>)
    requires retryCount <= MaxRetries
    modifies admin
    decreases MaxRetries - retryCount
    ensures var run := Retry(admin.answers, request, old(admin.calls), retryCount);
      r == run.result && admin.calls == run.next && admin.sleeps == old(admin.sleeps) + run.sleeps
  {
    ghost var call := admin.calls;
    ghost var before := admin.sleeps;
    // the `try` block
    var thrown: string;
    var answer := admin.Graphql(request);
    match answer {
      case Ok(page) =>
        return Success(page);
      case GraphErrors(throttled, message) =>
        if throttled && retryCount < MaxRetries {
          admin.Sleep(Delay(retryCount));
          r := ExecuteGraphQLWithRetry(admin, request, retryCount + 1);
          Retried(admin.answers, request, call, retryCount, before, admin.sleeps);
          return;
        }
        thrown := message;
      case Thrown(message) =>
        thrown := message;
    }
    // the `catch` block
    if retryCount < MaxRetries {
      admin.Sleep(Delay(retryCount));
      r := ExecuteGraphQLWithRetry(admin, request, retryCount + 1);
      Retried(admin.answers, request, call, retryCount, before, admin.sleeps);
    } else {
      r := Failure(thrown);
    }
  }

  /** The bookkeeping of a retry: one sleep, then the run from the next call. */
  lemma Retried<T>(answers: (nat, Request) -> Answer<T>, request: Request, call: nat, retryCount: nat,
                   before: seq<nat>, sleeps: seq<nat>)
    requires retryCount < MaxRetries
    requires !answers(call, request).Ok?
    requires sleeps == before + [Delay(retryCount)] + Retry(answers, request, call + 1, retryCount + 1).sleeps
    ensures var run := Retry(answers, request, call, retryCount);
      run.result == Retry(answers, request, call + 1, retryCount + 1).result &&
      run.next == Retry(answers, request, call + 1, retryCount + 1).next &&
      sleeps == before + run.sleeps
  {
    var rest := Retry(answers, request, call + 1, retryCount + 1);
    assert before + [Delay(retryCount)] + rest.sleeps == before + ([Delay(retryCount)] + rest.sleeps);
  }

  // ------------------------------------------------------------ properties

  /**
   * Every retry chain ends: from retry counter `r` it makes at least one and
   * at most `4 - r` calls, and sleeps once before each call but the first.
   */
  lemma {:induction false} RetryCallsBounded<T>(answers: (nat, Request) -> Answer<T>, request: Request, call: nat, r: nat)
    requires r <= MaxRetries
    decreases MaxRetries - r
    ensures call + 1 <= Retry(answers, request, call, r).next <= call + 1 + (MaxRetries - r)
    ensures |Retry(answers, request, call, r).sleeps| == Retry(answers, request, call, r).next - call - 1
  {
    if !answers(call, request).Ok? && r < MaxRetries {
      RetryCallsBounded(answers, request, call + 1, r + 1);
    }
  }

  /** The delays slept by `k` retries starting at counter `r`: `Delay(r), ..., Delay(r + k - 1)`. */
  function Backoff(r: nat, k: nat): (ds: seq<nat>)
    decreases k
    ensures |ds| == k
    ensures forall i :: 0 <= i < k ==> ds[i] == Delay(r + i)
  {
    if k == 0 then [] else [Delay(r)] + Backoff(r + 1, k - 1)
  }

  /** The delays slept are the backoff delays in increasing order, one per retry: 1, 2, then 4 seconds. */
  lemma {:induction false} RetrySleepsAreBackoff<T>(answers: (nat, Request) -> Answer<T>, request: Request, call: nat, r: nat)
    requires r <= MaxRetries
    decreases MaxRetries - r
    ensures Retry(answers, request, call, r).sleeps == Backoff(r, Retry(answers, request, call, r).next - call - 1)
  {
    RetryCallsBounded(answers, request, call, r);
    if !answers(call, request).Ok? && r < MaxRetries {
      RetrySleepsAreBackoff(answers, request, call + 1, r + 1);
      RetryCallsBounded(answers, request, call + 1, r + 1);
    }
  }

  /**
   * A server that fails (THROTTLED or otherwise) the `k <= 3 - r` calls from
   * `call` on and then answers data is called exactly `k + 1` times, and the
   * retrying call returns that data after sleeping the `k` backoff delays.
   */
  lemma {:induction false} FailuresThenAnswered<T>(answers: (nat, Request) -> Answer<T>, request: Request,
                                                  call: nat, r: nat, k: nat, page: Page<T>)
    requires r + k <= MaxRetries
    requires forall i :: call <= i < call + k ==> !answers(i, request).Ok?
    requires answers(call + k, request) == Ok(page)
    decreases k
    ensures Retry(answers, request, call, r) == Attempt(Success(page), call + k + 1, Backoff(r, k))
  {
    if k > 0 {
      assert !answers(call, request).Ok?;
      FailuresThenAnswered(answers, request, call + 1, r + 1, k - 1, page);
    }
  }

  /**
   * A server that keeps failing (THROTTLED or otherwise) is called `4 - r`
   * times, 4 from the first call, and the last error is the one reported.
   */
  lemma {:induction false} PersistentFailure<T>(answers: (nat, Request) -> Answer<T>, request: Request, call: nat, r: nat)
    requires r <= MaxRetries
    requires forall i :: call <= i <= call + (MaxRetries - r) ==> !answers(i, request).Ok?
    decreases MaxRetries - r
    ensures Retry(answers, request, call, r).next == call + 1 + (MaxRetries - r)
    ensures Retry(answers, request, call, r).result == Failure(FailureMessage(answers(call + (MaxRetries - r), request)))
  {
    assert !answers(call, request).Ok?;
    if r < MaxRetries {
      PersistentFailure(answers, request, call + 1, r + 1);
    }
  }

  /**
   * The result is data exactly when the last call made answered data, and
   * then it is that data; every call before the last one failed.
   */
  lemma {:induction false} RetryResultIsLastAnswer<T>(answers: (nat, Request) -> Answer<T>, request: Request, call: nat, r: nat)
    requires r <= MaxRetries
    decreases MaxRetries - r
    ensures var run := Retry(answers, request, call, r);
      && call < run.next
      && (run.result.Success? <==> answers(run.next - 1, request).Ok?)
      && (run.result.Success? ==> answers(run.next - 1, request) == Ok(run.result.value))
      && (run.result.Failure? ==> run.result.error == FailureMessage(answers(run.next - 1, request)))
      && (forall i :: call <= i < run.next - 1 ==> !answers(i, request).Ok?)
  {
    if !answers(call, request).Ok? && r < MaxRetries {
      RetryResultIsLastAnswer(answers, request, call + 1, r + 1);
    }
  }
}
