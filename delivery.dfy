/** The send/retry chain of one event: how a response is classified, when a
    failure is retried, and what the whole chain does against a sequence of
    network responses. */
module Delivery {
  import opened Wrappers
  import opened Constants

  /** What the transport hands back for one request: an error (with its
      code), an HTTP response with its status, or a response that is not an
      HTTP response and carries no error. */
  datatype Response =
    | TransportError(code: int, description: string)
    | HttpResponse(status: int)
    | NonHttpResponse

  /** The errors a caller can be handed. `CodedError` is a Foundation error:
      a numeric code and a description. */
  datatype SendError =
    | MissingUserId
    | SerializationFailed(cause: string)
    | CodedError(code: int, description: string)

  /** What the completion callback is invoked with. */
  type Completion = Result<(), SendError>

  /** The one error every terminal network failure is reported as. */
  const FinalError: SendError := CodedError(0, FailedAfterRetriesMessage)

  /** A status from 200 up to, but not including, 300. */
  predicate IsSuccessStatus(status: int) {
    200 <= status < 300
  }

  /** Either the event was delivered, or `handleError` is called with an
      error of this code and description. */
  datatype Outcome = Delivered | Failed(code: int, description: string)

  /** The classification at the top of the upload callback: an error goes
      first; otherwise only an HTTP response with a 2xx status is a success,
      and any other response becomes a "Server error" whose code is the
      status, or 0 when there is no HTTP response. */
  function Classify(r: Response): (o: Outcome)
    ensures o.Delivered? <==> r.HttpResponse? && IsSuccessStatus(r.status)
    ensures r.TransportError? ==> o == Failed(r.code, r.description)
    ensures r.HttpResponse? && o.Failed? ==> o == Failed(r.status, ServerErrorMessage)
    ensures r.NonHttpResponse? ==> o == Failed(0, ServerErrorMessage)
  {
    match r
    case TransportError(code, description) => Failed(code, description)
    case HttpResponse(status) =>
      if IsSuccessStatus(status) then Delivered else Failed(status, ServerErrorMessage)
    case NonHttpResponse => Failed(0, ServerErrorMessage)
  }

  /** The retry predicate of `handleError`. */
  predicate ShouldRetry(attempts: int, retries: int, code: int) {
    attempts < retries && IsRetryable(code)
  }

  datatype Decision = Retry(nextAttempts: nat) | GiveUp(error: SendError)

  /** `handleError`: retries with the counter one higher when the predicate
      holds, and otherwise gives up with the generic terminal error, whatever
      the code was. */
  function HandleError(attempts: nat, retries: int, code: int): (d: Decision)
    ensures d.Retry? <==> attempts < retries && IsRetryable(code)
    ensures d.Retry? ==> d.nextAttempts == attempts + 1
    ensures d.GiveUp? ==> d.error == FinalError
  {
    if ShouldRetry(attempts, retries, code) then Retry(attempts + 1) else GiveUp(FinalError)
  }

  /** The result of a chain: how many requests were issued, and the
      completion, or `None` when the last request is still unanswered. */
  datatype Run = Run(requests: nat, completion: Option<Completion>)

  /** The chain from the request whose attempts counter is `attempts` on.
      Request k carries counter k and is answered by `network[k]`; when the
      responses run out, the request just issued waits for ever. */
  function Deliver(retries: int, network: seq<Response>, attempts: nat): (run: Run)
    ensures attempts < run.requests
    decreases |network| - attempts
  {
    if attempts >= |network| then Run(attempts + 1, None)
    else match Classify(network[attempts])
      case Delivered => Run(attempts + 1, Some(Success(())))
      case Failed(code, _) =>
        match HandleError(attempts, retries, code)
        case Retry(next) => Deliver(retries, network, next)
        case GiveUp(error) => Run(attempts + 1, Some(Failure(error)))
  }

  /** A response that `handleError` would retry if the counter allowed it. */
  predicate RetryableFailure(r: Response) {
    Classify(r).Failed? && IsRetryable(Classify(r).code)
  }

  function Max(a: int, b: int): int {
    if a < b then b else a
  }

  /** At most `retries + 1` requests are issued in all (exactly one when
      `retries` is not positive), and never more than one beyond the
      responses available. */
  lemma {:induction false} RequestsBounded(retries: int, network: seq<Response>, attempts: nat)
    ensures Deliver(retries, network, attempts).requests <= Max(attempts, retries) + 1
    ensures attempts <= |network| ==> Deliver(retries, network, attempts).requests <= |network| + 1
    decreases |network| - attempts
  {
    if attempts < |network| {
      match Classify(network[attempts])
      case Delivered =>
      case Failed(code, _) =>
        if ShouldRetry(attempts, retries, code) {
          RequestsBounded(retries, network, attempts + 1);
        }
    }
  }

  /** The completion is missing exactly when every response was used up and
      the last request is waiting; otherwise it is there, once. */
  lemma {:induction false} CompletesUnlessWaiting(retries: int, network: seq<Response>, attempts: nat)
    requires attempts <= |network|
    ensures Deliver(retries, network, attempts).completion.None? <==>
      Deliver(retries, network, attempts).requests == |network| + 1
    decreases |network| - attempts
  {
    if attempts < |network| {
      match Classify(network[attempts])
      case Delivered =>
      case Failed(code, _) =>
        if ShouldRetry(attempts, retries, code) {
          CompletesUnlessWaiting(retries, network, attempts + 1);
        }
    }
  }

  /** A chain ends either in success or in the one generic terminal error:
      the cause of the failure is never passed on. */
  lemma {:induction false} OnlyFinalErrorFails(retries: int, network: seq<Response>, attempts: nat)
    ensures Deliver(retries, network, attempts).completion.Some? ==>
      Deliver(retries, network, attempts).completion.value in {Success(()), Failure(FinalError)}
    decreases |network| - attempts
  {
    if attempts < |network| {
      match Classify(network[attempts])
      case Delivered =>
      case Failed(code, _) =>
        if ShouldRetry(attempts, retries, code) {
          OnlyFinalErrorFails(retries, network, attempts + 1);
        }
    }
  }

  /** Every request with a counter in [from, to) got a retryable failure
      that the counter allowed to retry. */
  predicate RetriedThrough(retries: int, network: seq<Response>, from: nat, to: nat)
    requires to <= |network|
  {
    forall i :: from <= i < to ==> i < retries && RetryableFailure(network[i])
  }

  /** A success means the last request got a 2xx answer and every earlier one
      a retryable failure that the counter allowed to retry. */
  lemma {:induction false} SuccessExplained(retries: int, network: seq<Response>, attempts: nat)
    requires Deliver(retries, network, attempts).completion == Some(Success(()))
    ensures Deliver(retries, network, attempts).requests <= |network|
    ensures Deliver(retries, network, attempts).requests - 1 <= Max(attempts, retries)
    ensures Classify(network[Deliver(retries, network, attempts).requests - 1]) == Delivered
    ensures RetriedThrough(retries, network, attempts, Deliver(retries, network, attempts).requests - 1)
    decreases |network| - attempts
  {
    match Classify(network[attempts])
    case Delivered =>
    case Failed(code, _) =>
      assert ShouldRetry(attempts, retries, code);
      SuccessExplained(retries, network, attempts + 1);
      assert RetryableFailure(network[attempts]);
  }

  /** If the responses from counter `attempts` up to `k` are retryable
      failures, with `k` within the retry budget, and response `k` is a 2xx
      status, the chain succeeds after exactly `k + 1` requests. */
  lemma {:induction false} SuccessAfterRetries(retries: int, network: seq<Response>, attempts: nat, k: nat)
    requires attempts <= k <= retries && k < |network|
    requires forall i :: attempts <= i < k ==> RetryableFailure(network[i])
    requires Classify(network[k]) == Delivered
    ensures Deliver(retries, network, attempts) == Run(k + 1, Some(Success(())))
    decreases k - attempts
  {
    if attempts < k {
      assert RetryableFailure(network[attempts]);
      SuccessAfterRetries(retries, network, attempts + 1, k);
    }
  }

  /** If every answer a chain can use is a retryable failure, it issues
      exactly `retries + 1` requests and fails with the terminal error. */
  lemma {:induction false} RetriesExhausted(retries: int, network: seq<Response>, attempts: nat)
    requires attempts <= retries < |network|
    requires forall i :: attempts <= i <= retries ==> RetryableFailure(network[i])
    ensures Deliver(retries, network, attempts) == Run(retries + 1, Some(Failure(FinalError)))
    decreases retries - attempts
  {
    assert RetryableFailure(network[attempts]);
    if attempts < retries {
      RetriesExhausted(retries, network, attempts + 1);
    }
  }

  /** A failure whose code is not retryable ends the chain at once, whatever
      the retry budget. */
  lemma NonRetryableStops(retries: int, network: seq<Response>, attempts: nat)
    requires attempts < |network|
    requires Classify(network[attempts]).Failed? && !IsRetryable(Classify(network[attempts]).code)
    ensures Deliver(retries, network, attempts) == Run(attempts + 1, Some(Failure(FinalError)))
  {
  }

  /** With the default budget of no retries, one request is issued whatever
      the network says. */
  lemma DefaultSendsOnce(network: seq<Response>)
    ensures Deliver(0, network, 0).requests == 1
  {
  }

  /** The scenarios of the SDK's tests, with three retries; a response queue
      that has run out fails the request with code 404. */
  lemma TestScenarios()
    ensures Deliver(3, [HttpResponse(200)], 0) == Run(1, Some(Success(())))
    ensures Deliver(3, [HttpResponse(500), HttpResponse(200)], 0) == Run(2, Some(Success(())))
    ensures Deliver(3, [HttpResponse(400)], 0) == Run(1, Some(Failure(FinalError)))
    ensures Deliver(3, [HttpResponse(500), HttpResponse(500), HttpResponse(500), TransportError(404, "")], 0)
      == Run(4, Some(Failure(FinalError)))
  {
  }
}
