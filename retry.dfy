/**
 * `perform_request` under its retry decorator: at most three calls of the
 * provider, the first call that yields a decoded body ends the sequence,
 * and three failed calls end in tenacity's `RetryError`, modelled here as
 * the `Exhausted` outcome.
 *
 * The network is a parameter: `network(url, i)` is what the provider
 * answers to the `i`-th call (counting from 0) made for `url`. The fixed
 * two-second wait between calls is not observable in the model.
 */
module Retry {
  import Wrappers
  import opened PyJson

  /** The decorator's `stop_after_attempt(3)`. */
  const MaxAttempts: nat := 3

  /** What one `requests.get` call produces: a transport failure, or a
      response with its status code and its body decoded as JSON (`None`
      when the body is not valid JSON). */
  datatype Response = ConnectionFailed | Received(status: int, body: Wrappers.Option<Json>)

  datatype FetchResult = Success(body: Json) | Exhausted

  /** `raise_for_status` raises for client (4xx) and server (5xx) errors only. */
  predicate RaisesForStatus(status: int) {
    400 <= status < 600
  }

  /** One call of the undecorated function: the decoded body, or `None` when
      the call raised (transport error, error status, undecodable body). */
  function AttemptOnce(r: Response): (outcome: Wrappers.Option<Json>)
    ensures outcome.Some? <==> r.Received? && !RaisesForStatus(r.status) && r.body.Some?
    ensures outcome.Some? ==> outcome.value == r.body.value
  {
    match r
    case ConnectionFailed => Wrappers.None
    case Received(status, body) => if RaisesForStatus(status) then Wrappers.None else body
  }

  predicate Fails(url: string, network: (string, nat) -> Response, i: nat) {
    AttemptOnce(network(url, i)).None?
  }

  /** The decorated call, from attempt `from` on: the first attempt that
      succeeds gives the result; running out of attempts gives `Exhausted`. */
  function RetryFrom(url: string, network: (string, nat) -> Response, from: nat): (r: FetchResult)
    ensures r.Success? ==> exists j :: from <= j < MaxAttempts && AttemptOnce(network(url, j)) == Wrappers.Some(r.body)
    ensures from >= MaxAttempts ==> r.Exhausted?
    decreases MaxAttempts - from
  {
    if from >= MaxAttempts then Exhausted
    else match AttemptOnce(network(url, from))
      case Some(body) => Success(body)
      case None => RetryFrom(url, network, from + 1)
  }

  /** The result is `Exhausted` exactly when every allowed attempt fails. */
  lemma {:induction false} ExhaustedIffAllFail(url: string, network: (string, nat) -> Response, from: nat)
    ensures RetryFrom(url, network, from).Exhausted?
        <==> forall i :: from <= i < MaxAttempts ==> Fails(url, network, i)
    decreases MaxAttempts - from
  {
    if from < MaxAttempts {
      ExhaustedIffAllFail(url, network, from + 1);
      assert RetryFrom(url, network, from).Exhausted?
         <==> Fails(url, network, from) && RetryFrom(url, network, from + 1).Exhausted?;
    }
  }

  /** A successful result is the body of some allowed attempt before which
      every attempt failed: the first success, and no later one. */
  lemma {:induction false} SuccessIsFirstSuccess(url: string, network: (string, nat) -> Response, from: nat, body: Json)
    requires RetryFrom(url, network, from) == Success(body)
    ensures exists j :: (from <= j < MaxAttempts
      && AttemptOnce(network(url, j)) == Wrappers.Some(body)
      && forall i :: from <= i < j ==> Fails(url, network, i))
    decreases MaxAttempts - from
  {
    if AttemptOnce(network(url, from)).None? {
      SuccessIsFirstSuccess(url, network, from + 1, body);
      var j :| from + 1 <= j < MaxAttempts
        && AttemptOnce(network(url, j)) == Wrappers.Some(body)
        && forall i :: from + 1 <= i < j ==> Fails(url, network, i);
      assert forall i :: from <= i < j ==> Fails(url, network, i);
    } else {
      assert AttemptOnce(network(url, from)) == Wrappers.Some(body);
    }
  }

  /** The retry loop. `attempts` is the number of provider calls made. At
      most three calls are made; every call before the last failed; the
      result is the body of the last call when that one succeeded, and
      `Exhausted` only after three failures. */
  method PerformRequest(url: string, network: (string, nat) -> Response) returns (result: FetchResult, attempts: nat)
    ensures 1 <= attempts <= MaxAttempts
    ensures forall i :: 0 <= i < attempts - 1 ==> Fails(url, network, i)
    ensures result.Success? <==> AttemptOnce(network(url, attempts - 1)).Some?
    ensures result.Success? ==> AttemptOnce(network(url, attempts - 1)) == Wrappers.Some(result.body)
    ensures result.Exhausted? ==> attempts == MaxAttempts
    ensures result == RetryFrom(url, network, 0)
  {
    result, attempts := Exhausted, 0;
    while attempts < MaxAttempts && result.Exhausted?
      invariant attempts <= MaxAttempts
      invariant result.Exhausted? ==> forall i :: 0 <= i < attempts ==> Fails(url, network, i)
      invariant result.Exhausted? ==> RetryFrom(url, network, attempts) == RetryFrom(url, network, 0)
      invariant result.Success? ==> (1 <= attempts
        && (forall i :: 0 <= i < attempts - 1 ==> Fails(url, network, i))
        && AttemptOnce(network(url, attempts - 1)) == Wrappers.Some(result.body)
        && result == RetryFrom(url, network, 0))
    {
      var outcome := AttemptOnce(network(url, attempts));
      if outcome.Some? {
        result := Success(outcome.value);
      }
      attempts := attempts + 1;
    }
  }

  /** Failures on the first two calls and a success on the third still give
      the third call's body. */
  lemma RecoversOnThirdAttempt(url: string, network: (string, nat) -> Response, body: Json)
    requires Fails(url, network, 0) && Fails(url, network, 1)
    requires AttemptOnce(network(url, 2)) == Wrappers.Some(body)
    ensures RetryFrom(url, network, 0) == Success(body)
  {
  }
}
