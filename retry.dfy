/**
 * The network half of `apiRequest`: up to `maxRetries + 1` attempts, a wait of
 * `retryDelay * (attempt + 1)` after each failed attempt but the last, and the
 * last attempt's error thrown when every attempt failed.
 */
module Retry {
  import opened Json

  /** How a `$.ajax` call can reject: jQuery's "timeout", "error", "parsererror" and "abort". */
  datatype AjaxError = Timeout | HttpError(status: int) | ParseError | Abort

  /**
   * What one attempt produced: the decoded reply together with the clock
   * reading (`Date.now()`) taken when it was handled, or the error it rejected
   * with.
   */
  datatype Attempt = Received(response: Json, clock: int) | Failed(error: AjaxError)

  /**
   * A run of attempts: the outcome of the attempt that ended it, the waits made
   * between attempts, and how many attempts were made.
   */
  datatype Run = Run(last: Attempt, delays: seq<int>, attempts: nat)

  /**
   * The attempts from index `from` on, given the outcome of every attempt the
   * loop may make (`outcomes[i]` is what attempt `i` produces).
   */
  function NetworkRun(outcomes: seq<Attempt>, from: nat, maxRetries: nat, retryDelay: nat): Run
    requires from <= maxRetries < |outcomes|
    ensures var r := NetworkRun(outcomes, from, maxRetries, retryDelay);
      from < r.attempts <= maxRetries + 1 && |r.delays| == r.attempts - 1 - from
    decreases maxRetries - from
  {
    match outcomes[from]
    case Received(_, _) => Run(outcomes[from], [], from + 1)
    case Failed(_) =>
      if from < maxRetries then
        var rest := NetworkRun(outcomes, from + 1, maxRetries, retryDelay);
        Run(rest.last, [retryDelay * (from + 1)] + rest.delays, rest.attempts)
      else
        Run(outcomes[from], [], from + 1)
  }

  /**
   * What a run from `from` is: it stops at the first attempt that succeeds, or
   * at attempt `maxRetries`, whichever comes first; every attempt before the
   * last failed; the last attempt's outcome is the run's; and the waits are
   * `retryDelay * (i + 1)` for each failed attempt `i` except the last one.
   */
  lemma {:induction false} NetworkRunSpec(outcomes: seq<Attempt>, from: nat, maxRetries: nat, retryDelay: nat)
    requires from <= maxRetries < |outcomes|
    ensures var r := NetworkRun(outcomes, from, maxRetries, retryDelay);
      && from < r.attempts <= maxRetries + 1
      && r.last == outcomes[r.attempts - 1]
      && (forall j | from <= j < r.attempts - 1 :: outcomes[j].Failed?)
      && (r.last.Failed? ==> r.attempts == maxRetries + 1)
      && |r.delays| == r.attempts - 1 - from
      && (forall i | 0 <= i < |r.delays| :: r.delays[i] == retryDelay * (from + i + 1))
    decreases maxRetries - from
  {
    if outcomes[from].Failed? && from < maxRetries {
      NetworkRunSpec(outcomes, from + 1, maxRetries, retryDelay);
      var rest := NetworkRun(outcomes, from + 1, maxRetries, retryDelay);
      var r := NetworkRun(outcomes, from, maxRetries, retryDelay);
      assert r.delays == [retryDelay * (from + 1)] + rest.delays;
      forall i | 0 <= i < |r.delays|
        ensures r.delays[i] == retryDelay * (from + i + 1)
      {
        if i > 0 {
          assert r.delays[i] == rest.delays[i - 1];
        }
      }
    }
  }

  /** The first attempt that succeeds ends the run and its reply is the run's reply. */
  lemma FirstSuccessWins(outcomes: seq<Attempt>, maxRetries: nat, retryDelay: nat, k: nat)
    requires k <= maxRetries < |outcomes|
    requires outcomes[k].Received?
    requires forall j | 0 <= j < k :: outcomes[j].Failed?
    ensures NetworkRun(outcomes, 0, maxRetries, retryDelay).attempts == k + 1
    ensures NetworkRun(outcomes, 0, maxRetries, retryDelay).last == outcomes[k]
  {
    NetworkRunSpec(outcomes, 0, maxRetries, retryDelay);
  }

  /**
   * When every attempt fails, exactly `maxRetries + 1` attempts are made and the
   * error of attempt `maxRetries` is the one that comes out.
   */
  lemma AllFailedExhausts(outcomes: seq<Attempt>, maxRetries: nat, retryDelay: nat)
    requires maxRetries < |outcomes|
    requires forall j | 0 <= j <= maxRetries :: outcomes[j].Failed?
    ensures NetworkRun(outcomes, 0, maxRetries, retryDelay).attempts == maxRetries + 1
    ensures NetworkRun(outcomes, 0, maxRetries, retryDelay).last == outcomes[maxRetries]
  {
    NetworkRunSpec(outcomes, 0, maxRetries, retryDelay);
  }

  /** With the defaults (3 retries, 2000 ms) a request that always fails waits 2 s, 4 s and 6 s. */
  lemma DefaultBackoff(outcomes: seq<Attempt>)
    requires |outcomes| == 4
    requires forall j | 0 <= j < 4 :: outcomes[j].Failed?
    ensures NetworkRun(outcomes, 0, 3, 2000).delays == [2000, 4000, 6000]
    ensures NetworkRun(outcomes, 0, 3, 2000).attempts == 4
  {
    NetworkRunSpec(outcomes, 0, 3, 2000);
  }

  function Sum(s: seq<int>): int {
    if s == [] then 0 else s[0] + Sum(s[1..])
  }

  /**
   * The total time spent waiting in a run from 0 is
   * `retryDelay * (1 + 2 + ... + (attempts - 1))`.
   */
  lemma TotalWait(outcomes: seq<Attempt>, maxRetries: nat, retryDelay: nat)
    requires maxRetries < |outcomes|
    ensures var r := NetworkRun(outcomes, 0, maxRetries, retryDelay);
      2 * Sum(r.delays) == retryDelay * (r.attempts - 1) * r.attempts
  {
    NetworkRunSpec(outcomes, 0, maxRetries, retryDelay);
    var r := NetworkRun(outcomes, 0, maxRetries, retryDelay);
    ArithmeticSchedule(r.delays, retryDelay);
  }

  /** A schedule whose `i`-th wait is `retryDelay * (i + 1)` sums to `retryDelay * n * (n + 1) / 2`. */
  lemma {:induction false} ArithmeticSchedule(delays: seq<int>, retryDelay: nat)
    requires forall i | 0 <= i < |delays| :: delays[i] == retryDelay * (i + 1)
    ensures 2 * Sum(delays) == retryDelay * |delays| * (|delays| + 1)
  {
    if delays != [] {
      var n := |delays| - 1;
      var front := delays[..n];
      assert delays == front + [delays[n]];
      ArithmeticSchedule(front, retryDelay);
      SumAppend(front, delays[n]);
    }
  }

  lemma {:induction false} SumAppend(s: seq<int>, x: int)
    ensures Sum(s + [x]) == Sum(s) + x
  {
    if s != [] {
      assert (s + [x])[1..] == s[1..] + [x];
      SumAppend(s[1..], x);
    }
  }
}
