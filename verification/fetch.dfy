/**
 * The bounded, connectivity-aware retry of `Util.get_successful_fetch`.
 *
 * The network is an oracle: `transport(i)` is what the (i+1)-th call of `fetch(url)` does,
 * and `connectivity(i)` is what the wait for the network does when it follows that call.
 * A wait only ever follows a network error, and every earlier call was a network error
 * followed by a wait, so the attempt number also numbers the waits.
 */
module ResilientFetch {
  import opened Wrappers

  /** Attempts made when the caller gives no `max_attempts`. */
  const DefaultMaxAttempts := 10

  /** What one call of `fetch(url)` does. */
  datatype Outcome<+R, +E> =
    | Ok(response: R)     // the promise resolves with a response
    | NetErr              // rejected with a network-class error (connection lost, offline)
    | OtherErr(err: E)    // rejected with any other error

  /** What one wait for the network does: the browser comes back online, or the budget runs out. */
  datatype Wait = Connected | TimedOut

  /** A value thrown out of the core. */
  datatype Thrown<+E> =
    | Rethrown(err: E)      // an error of the transport, passed on unchanged
    | Message(text: string) // a string thrown by the core itself
    | TypeError             // a call of a method the receiver does not have
    | SyntaxError           // a body that is not JSON

  /** The result of one resilient fetch, with the number of transport calls and waits it made. */
  datatype Run<+R, +E> = Run(result: Result<R, Thrown<E>>, calls: nat, waits: nat)

  /** Thrown when the wait for the network times out. */
  const OfflineMessage := "Timeout exception, offline for too long!"

  /** Thrown when every attempt has been used up. */
  function GiveUpMessage(url: string): (m: string)
    ensures |m| > |url| && m[|m| - |url|..] == url
  {
    "Timed out trying to get " + url
  }

  /** The number of attempts `max_attempts` allows: the loop test `attempt++ < max_attempts` never holds when it is not positive. */
  function Budget(maxAttempts: int): nat
  {
    if maxAttempts > 0 then maxAttempts else 0
  }

  /**
   * The declarative retry policy: every call before the last was a network error followed by a
   * successful wait, there are never more calls than the budget, and the last call decides the result.
   */
  ghost predicate RetryPolicy<R, E>(url: string, maxAttempts: int, transport: nat -> Outcome<R, E>,
                                    connectivity: nat -> Wait, run: Run<R, E>)
  {
    var n := run.calls;
    && n <= Budget(maxAttempts)
    && (forall i: nat :: i + 1 < n ==> transport(i).NetErr? && connectivity(i).Connected?)
    && match run.result
       case Success(resp) =>
         n >= 1 && transport(n - 1) == Ok(resp) && run.waits == n - 1
       case Failure(Rethrown(e)) =>
         n >= 1 && transport(n - 1) == OtherErr(e) && run.waits == n - 1
       case Failure(Message(text)) =>
         if text == OfflineMessage then
           n >= 1 && transport(n - 1).NetErr? && connectivity(n - 1).TimedOut? && run.waits == n
         else
           && text == GiveUpMessage(url)
           && n == Budget(maxAttempts) && run.waits == n
           && (n >= 1 ==> transport(n - 1).NetErr? && connectivity(n - 1).Connected?)
       case Failure(_) => false
  }

  /** The loop of `get_successful_fetch` from attempt number `attempt` (0-based) on. */
  function RetryFrom<R, E>(url: string, maxAttempts: int, transport: nat -> Outcome<R, E>,
                           connectivity: nat -> Wait, attempt: nat): (run: Run<R, E>)
    requires attempt <= Budget(maxAttempts)
    ensures attempt <= run.calls <= Budget(maxAttempts)
    ensures run.waits <= run.calls
    decreases Budget(maxAttempts) - attempt
  {
    if attempt >= maxAttempts then
      Run(Failure(Message(GiveUpMessage(url))), attempt, attempt)
    else
      match transport(attempt)
      case Ok(resp) => Run(Success(resp), attempt + 1, attempt)
      case OtherErr(e) => Run(Failure(Rethrown(e)), attempt + 1, attempt)
      case NetErr =>
        if connectivity(attempt).TimedOut? then
          Run(Failure(Message(OfflineMessage)), attempt + 1, attempt + 1)
        else
          RetryFrom(url, maxAttempts, transport, connectivity, attempt + 1)
  }

  /** `get_successful_fetch(url, max_attempts)` as a function of the network's behaviour. */
  function Fetch<R, E>(url: string, maxAttempts: int, transport: nat -> Outcome<R, E>,
                       connectivity: nat -> Wait): (run: Run<R, E>)
    ensures run.calls <= Budget(maxAttempts)
  {
    RetryFrom(url, maxAttempts, transport, connectivity, 0)
  }

  /** The same loop, written as the source writes it: a counter, a test, and a return from inside. */
  method GetSuccessfulFetch<R, E>(url: string, maxAttempts: int, transport: nat -> Outcome<R, E>,
                                  connectivity: nat -> Wait) returns (run: Run<R, E>)
    ensures RetryPolicy(url, maxAttempts, transport, connectivity, run)
    ensures run == Fetch(url, maxAttempts, transport, connectivity)
  {
    MessagesDistinct(url);
    var attempt: nat := 0;
    var waits: nat := 0;
    while attempt < maxAttempts
      invariant attempt <= Budget(maxAttempts)
      invariant waits == attempt
      invariant forall i: nat :: i < attempt ==> transport(i).NetErr? && connectivity(i).Connected?
      invariant Fetch(url, maxAttempts, transport, connectivity)
                == RetryFrom(url, maxAttempts, transport, connectivity, attempt)
      decreases maxAttempts - attempt
    {
      var outcome := transport(attempt);
      attempt := attempt + 1;
      match outcome {
        case Ok(resp) =>
          return Run(Success(resp), attempt, waits);
        case OtherErr(e) =>
          return Run(Failure(Rethrown(e)), attempt, waits);
        case NetErr =>
          waits := waits + 1;
          if connectivity(attempt - 1).TimedOut? {
            return Run(Failure(Message(OfflineMessage)), attempt, waits);
          }
      }
    }
    run := Run(Failure(Message(GiveUpMessage(url))), attempt, waits);
  }

  /** The two messages the core throws can never be confused. */
  lemma MessagesDistinct(url: string)
    ensures GiveUpMessage(url) != OfflineMessage
  {
    assert GiveUpMessage(url)[4] == 'd';
    assert OfflineMessage[4] == 'o';
  }

  /** The loop from any attempt on obeys the policy, given that the attempts before it all led to another attempt. */
  lemma {:induction false} RetryFromObeysPolicy<R, E>(url: string, maxAttempts: int,
                                                      transport: nat -> Outcome<R, E>,
                                                      connectivity: nat -> Wait, attempt: nat)
    requires attempt <= Budget(maxAttempts)
    requires forall i: nat :: i < attempt ==> transport(i).NetErr? && connectivity(i).Connected?
    ensures RetryPolicy(url, maxAttempts, transport, connectivity,
                        RetryFrom(url, maxAttempts, transport, connectivity, attempt))
    decreases Budget(maxAttempts) - attempt
  {
    MessagesDistinct(url);
    if attempt < maxAttempts && transport(attempt).NetErr? && connectivity(attempt).Connected? {
      RetryFromObeysPolicy(url, maxAttempts, transport, connectivity, attempt + 1);
    }
  }

  /** The functional model obeys the retry policy. */
  lemma FetchObeysPolicy<R, E>(url: string, maxAttempts: int, transport: nat -> Outcome<R, E>,
                               connectivity: nat -> Wait)
    ensures RetryPolicy(url, maxAttempts, transport, connectivity,
                        Fetch(url, maxAttempts, transport, connectivity))
  {
    RetryFromObeysPolicy(url, maxAttempts, transport, connectivity, 0);
  }

  /** The policy leaves no freedom: at most one run obeys it. */
  lemma PolicyDeterminesRun<R, E>(url: string, maxAttempts: int, transport: nat -> Outcome<R, E>,
                                  connectivity: nat -> Wait, a: Run<R, E>, b: Run<R, E>)
    requires RetryPolicy(url, maxAttempts, transport, connectivity, a)
    requires RetryPolicy(url, maxAttempts, transport, connectivity, b)
    ensures a == b
  {
    MessagesDistinct(url);
  }

  /** A transport that answers at once is called exactly once, and nobody waits. */
  lemma CleanFirstAttempt<R, E>(url: string, maxAttempts: int, transport: nat -> Outcome<R, E>,
                                connectivity: nat -> Wait, resp: R)
    requires maxAttempts >= 1
    requires transport(0) == Ok(resp)
    ensures Fetch(url, maxAttempts, transport, connectivity) == Run(Success(resp), 1, 0)
  {
  }

  /** `n` network errors, each followed by a reconnect, and then a response: `n + 1` calls and `n` waits. */
  lemma {:induction false} RecoversAfterNetworkErrors<R, E>(url: string, maxAttempts: int,
                                                           transport: nat -> Outcome<R, E>,
                                                           connectivity: nat -> Wait, n: nat, resp: R)
    requires n < maxAttempts
    requires forall i: nat :: i < n ==> transport(i).NetErr? && connectivity(i).Connected?
    requires transport(n) == Ok(resp)
    ensures Fetch(url, maxAttempts, transport, connectivity) == Run(Success(resp), n + 1, n)
  {
    var expected: Run<R, E> := Run(Success(resp), n + 1, n);
    assert RetryPolicy(url, maxAttempts, transport, connectivity, expected);
    FetchObeysPolicy(url, maxAttempts, transport, connectivity);
    PolicyDeterminesRun(url, maxAttempts, transport, connectivity,
                        expected, Fetch(url, maxAttempts, transport, connectivity));
  }

  /** A non-network error is thrown unchanged by the call that received it; no call follows. */
  lemma {:induction false} OtherErrorRethrown<R, E>(url: string, maxAttempts: int,
                                                   transport: nat -> Outcome<R, E>,
                                                   connectivity: nat -> Wait, n: nat, e: E)
    requires n < maxAttempts
    requires forall i: nat :: i < n ==> transport(i).NetErr? && connectivity(i).Connected?
    requires transport(n) == OtherErr(e)
    ensures Fetch(url, maxAttempts, transport, connectivity) == Run(Failure(Rethrown(e)), n + 1, n)
  {
    var expected: Run<R, E> := Run(Failure(Rethrown(e)), n + 1, n);
    assert RetryPolicy(url, maxAttempts, transport, connectivity, expected);
    FetchObeysPolicy(url, maxAttempts, transport, connectivity);
    PolicyDeterminesRun(url, maxAttempts, transport, connectivity,
                        expected, Fetch(url, maxAttempts, transport, connectivity));
  }

  /** A wait that times out ends the whole chain: the offline message, and no call after it. */
  lemma {:induction false} WaitTimeoutAborts<R, E>(url: string, maxAttempts: int,
                                                  transport: nat -> Outcome<R, E>,
                                                  connectivity: nat -> Wait, n: nat)
    requires n < maxAttempts
    requires forall i: nat :: i < n ==> transport(i).NetErr? && connectivity(i).Connected?
    requires transport(n).NetErr? && connectivity(n).TimedOut?
    ensures Fetch(url, maxAttempts, transport, connectivity)
            == Run(Failure(Message(OfflineMessage)), n + 1, n + 1)
  {
    var expected: Run<R, E> := Run(Failure(Message(OfflineMessage)), n + 1, n + 1);
    assert RetryPolicy(url, maxAttempts, transport, connectivity, expected);
    FetchObeysPolicy(url, maxAttempts, transport, connectivity);
    PolicyDeterminesRun(url, maxAttempts, transport, connectivity,
                        expected, Fetch(url, maxAttempts, transport, connectivity));
  }

  /**
   * When every attempt meets a network error and every wait reconnects, the transport is called
   * exactly `max_attempts` times, each call is followed by a wait, and the give-up message is thrown.
   */
  lemma {:induction false} PersistentNetworkErrorsExhaust<R, E>(url: string, maxAttempts: int,
                                                               transport: nat -> Outcome<R, E>,
                                                               connectivity: nat -> Wait)
    requires forall i: nat :: i < Budget(maxAttempts) ==> transport(i).NetErr? && connectivity(i).Connected?
    ensures Fetch(url, maxAttempts, transport, connectivity)
            == Run(Failure(Message(GiveUpMessage(url))), Budget(maxAttempts), Budget(maxAttempts))
  {
    var n := Budget(maxAttempts);
    var expected: Run<R, E> := Run(Failure(Message(GiveUpMessage(url))), n, n);
    MessagesDistinct(url);
    assert RetryPolicy(url, maxAttempts, transport, connectivity, expected);
    FetchObeysPolicy(url, maxAttempts, transport, connectivity);
    PolicyDeterminesRun(url, maxAttempts, transport, connectivity,
                        expected, Fetch(url, maxAttempts, transport, connectivity));
  }

  /**
   * Nothing after the last call matters: two networks that behave alike on the calls and waits a
   * run made yield the same run, so no call or wait happens beyond those counted.
   */
  lemma {:induction false} NoCallsBeyondCount<R, E>(url: string, maxAttempts: int,
                                                   t1: nat -> Outcome<R, E>, c1: nat -> Wait,
                                                   t2: nat -> Outcome<R, E>, c2: nat -> Wait)
    requires forall i: nat :: i < Fetch(url, maxAttempts, t1, c1).calls ==> t1(i) == t2(i)
    requires forall i: nat :: i < Fetch(url, maxAttempts, t1, c1).waits ==> c1(i) == c2(i)
    ensures Fetch(url, maxAttempts, t1, c1) == Fetch(url, maxAttempts, t2, c2)
  {
    var run := Fetch(url, maxAttempts, t1, c1);
    FetchObeysPolicy(url, maxAttempts, t1, c1);
    MessagesDistinct(url);
    assert run.calls <= run.waits + 1;
    assert RetryPolicy(url, maxAttempts, t2, c2, run);
    FetchObeysPolicy(url, maxAttempts, t2, c2);
    PolicyDeterminesRun(url, maxAttempts, t2, c2, run, Fetch(url, maxAttempts, t2, c2));
  }

  /**
   * The loop as written classifies errors with `err.message.startswith(...)`, a method strings do
   * not have: every rejected call makes the handler itself throw a TypeError, so nothing is retried.
   */
  function FetchAsWritten<R, E>(url: string, maxAttempts: int, transport: nat -> Outcome<R, E>): (run: Run<R, E>)
    ensures run.calls <= 1 && run.waits == 0
    ensures run.result.Success? <==> maxAttempts >= 1 && transport(0).Ok?
    ensures maxAttempts >= 1 && !transport(0).Ok? ==> run.result == Failure(TypeError)
  {
    if maxAttempts <= 0 then
      Run(Failure(Message(GiveUpMessage(url))), 0, 0)
    else
      match transport(0)
      case Ok(resp) => Run(Success(resp), 1, 0)
      case _ => Run(Failure(TypeError), 1, 0)
  }

  /** One dropped connection is enough to tell the two apart: the intended loop recovers, the written one throws. */
  lemma AsWrittenNeverRetries<R, E>(url: string, maxAttempts: int, transport: nat -> Outcome<R, E>,
                                    connectivity: nat -> Wait, resp: R)
    requires maxAttempts >= 2
    requires transport(0).NetErr? && connectivity(0).Connected? && transport(1) == Ok(resp)
    ensures FetchAsWritten(url, maxAttempts, transport) == Run(Failure(TypeError), 1, 0)
    ensures Fetch(url, maxAttempts, transport, connectivity) == Run(Success(resp), 2, 1)
  {
    RecoversAfterNetworkErrors(url, maxAttempts, transport, connectivity, 1, resp);
  }
}
