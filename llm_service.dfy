/** `LLMService.parse_response` (app/services/llm_service.py): a bounded
    retry loop around one structured-generation call. The remote call is an
    oracle that says, for each attempt, whether the call raised, returned a
    parsed value, or returned None as its parsed value. */
module Llm {
  import opened Wrappers

  /** What one call to the generation endpoint does. */
  datatype AttemptOutcome<T> = Raises(error: string) | ParsedNone | Parsed(value: T)

  /** One chat message sent with every attempt. */
  datatype Message = Message(role: string, content: string)

  /** The result of the retry loop and how many calls it made. */
  datatype RetryResult<T> = RetryResult(value: Option<T>, calls: nat)

  /** `max_retries` when the caller gives none. */
  const DefaultMaxRetries: int := 3

  /** The loop from attempt `attempt` on: the first call that does not raise
      ends it; when the budget is spent the result is None. */
  function RetryFrom<T>(oracle: nat -> AttemptOutcome<T>, attempt: nat, maxRetries: int): (r: RetryResult<T>)
    ensures attempt < maxRetries ==> attempt < r.calls <= maxRetries
    ensures maxRetries <= attempt ==> r == RetryResult(None, attempt)
    decreases maxRetries - attempt
  {
    if maxRetries <= attempt then RetryResult(None, attempt)
    else match oracle(attempt)
      case Raises(_) => RetryFrom(oracle, attempt + 1, maxRetries)
      case ParsedNone => RetryResult(None, attempt + 1)
      case Parsed(v) => RetryResult(Some(v), attempt + 1)
  }

  /** The whole loop, from the first attempt. */
  function Retry<T>(oracle: nat -> AttemptOutcome<T>, maxRetries: int): RetryResult<T> {
    RetryFrom(oracle, 0, maxRetries)
  }

  /** The two messages every attempt sends, in this order. */
  function Messages(systemPrompt: string, userPrompt: string): seq<Message> {
    [Message("system", systemPrompt), Message("user", userPrompt)]
  }

  /** `parse_response`: returns the parsed value of the first call that does
      not raise, or None once `maxRetries` calls have raised; `requests` is
      the list of requests sent, one per call, all alike. */
  method ParseResponse<T>(oracle: nat -> AttemptOutcome<T>, systemPrompt: string, userPrompt: string, maxRetries: int)
    returns (parsed: Option<T>, requests: seq<seq<Message>>)
    ensures parsed == Retry(oracle, maxRetries).value
    ensures |requests| == Retry(oracle, maxRetries).calls
    ensures forall k :: 0 <= k < |requests| ==> requests[k] == Messages(systemPrompt, userPrompt)
  {
    var messages := Messages(systemPrompt, userPrompt);
    requests := [];
    var attempt: nat := 0;
    while attempt < maxRetries
      invariant |requests| == attempt
      invariant forall k :: 0 <= k < |requests| ==> requests[k] == messages
      invariant Retry(oracle, maxRetries) == RetryFrom(oracle, attempt, maxRetries)
      decreases maxRetries - attempt
    {
      requests := requests + [messages];
      match oracle(attempt)
      case Parsed(v) =>
        return Some(v), requests;
      case ParsedNone =>
        return None, requests;
      case Raises(_) =>
        if attempt == maxRetries - 1 {
          return None, requests;
        }
      attempt := attempt + 1;
    }
    parsed := None;
  }

  /** At most `maxRetries` calls are made, and none at all when the budget is not positive. */
  lemma RetryCallsBounded<T>(oracle: nat -> AttemptOutcome<T>, maxRetries: int)
    ensures maxRetries <= 0 ==> Retry(oracle, maxRetries) == RetryResult(None, 0)
    ensures 0 < maxRetries ==> 1 <= Retry(oracle, maxRetries).calls <= maxRetries
  {
  }

  /** The loop from `attempt` on, characterised: every call before the last
      raised; the last call either did not raise, and then decides the result,
      or raised as the last of the budget, and then the result is None. */
  lemma {:induction false} RetryFromShape<T>(oracle: nat -> AttemptOutcome<T>, attempt: nat, maxRetries: int)
    requires attempt < maxRetries
    ensures var r := RetryFrom(oracle, attempt, maxRetries);
      && (forall j :: attempt <= j < r.calls - 1 ==> oracle(j).Raises?)
      && (oracle(r.calls - 1).Raises? ==> r.calls == maxRetries && r.value == None)
      && (oracle(r.calls - 1).ParsedNone? ==> r.value == None)
      && (oracle(r.calls - 1).Parsed? ==> r.value == Some(oracle(r.calls - 1).value))
    decreases maxRetries - attempt
  {
    if oracle(attempt).Raises? && attempt + 1 < maxRetries {
      RetryFromShape(oracle, attempt + 1, maxRetries);
    }
  }

  /** The result is a value exactly when some attempt within the budget
      returned that value and every attempt before it raised. */
  lemma RetryReturnsFirstNonRaising<T>(oracle: nat -> AttemptOutcome<T>, maxRetries: int, v: T)
    ensures Retry(oracle, maxRetries).value == Some(v) <==>
      exists k :: 0 <= k < maxRetries && oracle(k) == Parsed(v) && forall j :: 0 <= j < k ==> oracle(j).Raises?
  {
    var r := Retry(oracle, maxRetries);
    if r.value == Some(v) {
      RetryFromShape(oracle, 0, maxRetries);
      var k := r.calls - 1;
      assert 0 <= k < maxRetries && oracle(k) == Parsed(v) && forall j :: 0 <= j < k ==> oracle(j).Raises?;
    }
    if exists k :: 0 <= k < maxRetries && oracle(k) == Parsed(v) && forall j :: 0 <= j < k ==> oracle(j).Raises? {
      var k :| 0 <= k < maxRetries && oracle(k) == Parsed(v) && forall j :: 0 <= j < k ==> oracle(j).Raises?;
      RetryFromShape(oracle, 0, maxRetries);
    }
  }

  /** When every attempt of the budget raises, all of them are made and the result is None. */
  lemma RetryExhausted<T>(oracle: nat -> AttemptOutcome<T>, maxRetries: int)
    requires forall k :: 0 <= k < maxRetries ==> oracle(k).Raises?
    ensures Retry(oracle, maxRetries) == RetryResult(None, if maxRetries > 0 then maxRetries else 0)
  {
    if maxRetries > 0 {
      RetryFromShape(oracle, 0, maxRetries);
    }
  }

  /** A first call that succeeds with None as its parsed value ends the loop:
      one call, result None, no retry. */
  lemma RetryStopsOnParsedNone<T>(oracle: nat -> AttemptOutcome<T>, maxRetries: int)
    requires 0 < maxRetries && oracle(0).ParsedNone?
    ensures Retry(oracle, maxRetries) == RetryResult(None, 1)
  {
  }
}
