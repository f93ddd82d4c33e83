/**
 * The rate-limit policy of f.js's sendMessageWithRetry. The transport is a
 * finite sequence of outcomes, one per attempt: delivered, HTTP 429 with an
 * optional `retry_after`, or any other error. A 429 waits and resends the
 * same message; the first other outcome ends the call (an error is logged).
 */
module Retry {
  import opened Wrappers
  import opened Messages

  datatype Outcome = Delivered | RateLimited(retryAfter: Option<int>) | OtherError

  /** How a call ended: delivered, error logged, or outcomes exhausted while still rate-limited. */
  datatype Ending = Sent | Logged | Pending

  /** The log of attempts and waits, how many outcomes were consumed, and how it ended. */
  datatype Run = Run(trace: seq<Event>, used: nat, ending: Ending)

  /** `retry_after || 2`, in seconds: an absent or zero value becomes 2. */
  function WaitSeconds(retryAfter: Option<int>): (s: int)
    ensures s != 0
    ensures retryAfter.Some? && retryAfter.value != 0 ==> s == retryAfter.value
    ensures retryAfter.None? || retryAfter.value == 0 ==> s == 2
  {
    match retryAfter
    case Some(r) => if r != 0 then r else 2
    case None => 2
  }

  /**
   * The recursive call `return sendMessageWithRetry(chatId, text, options)`
   * after each 429: it uses at most the outcomes it is given, and every
   * attempt but the one that ended the call is followed by its wait.
   */
  function RetrySpec(msg: Event, outcomes: seq<Outcome>): (r: Run)
    ensures r.used <= |outcomes|
    ensures r.ending == Pending ==> |r.trace| == 2 * r.used
    ensures r.ending != Pending ==> r.used >= 1 && |r.trace| == 2 * r.used - 1
    decreases |outcomes|
  {
    if outcomes == [] then Run([], 0, Pending)
    else match outcomes[0]
      case Delivered => Run([msg], 1, Sent)
      case OtherError => Run([msg], 1, Logged)
      case RateLimited(ra) =>
        var rest := RetrySpec(msg, outcomes[1..]);
        Run([msg, Delay(WaitSeconds(ra) * 1000)] + rest.trace, rest.used + 1, rest.ending)
  }

  /** The same policy as a loop over the outcomes, consuming the leading 429s. */
  method SendWithRetry(msg: Event, outcomes: seq<Outcome>) returns (trace: seq<Event>, used: nat, ending: Ending)
    ensures Run(trace, used, ending) == RetrySpec(msg, outcomes)
  {
    ghost var whole := RetrySpec(msg, outcomes);
    trace := [];
    used := 0;
    var left := outcomes;
    while left != [] && left[0].RateLimited?
      invariant whole.trace == trace + RetrySpec(msg, left).trace
      invariant whole.used == used + RetrySpec(msg, left).used
      invariant whole.ending == RetrySpec(msg, left).ending
      decreases |left|
    {
      var step := [msg, Delay(WaitSeconds(left[0].retryAfter) * 1000)];
      assert trace + (step + RetrySpec(msg, left[1..]).trace) == (trace + step) + RetrySpec(msg, left[1..]).trace;
      trace := trace + step;
      used := used + 1;
      left := left[1..];
    }
    if left != [] {
      trace := trace + [msg];
      used := used + 1;
      ending := if left[0].Delivered? then Sent else Logged;
    } else {
      assert trace + [] == trace;
      ending := Pending;
    }
  }

  /** Number of leading 429 outcomes. */
  function LeadingRateLimits(outcomes: seq<Outcome>): (n: nat)
    ensures n <= |outcomes|
    ensures forall k :: 0 <= k < n ==> outcomes[k].RateLimited?
    ensures n < |outcomes| ==> !outcomes[n].RateLimited?
  {
    if outcomes == [] || !outcomes[0].RateLimited? then 0 else 1 + LeadingRateLimits(outcomes[1..])
  }

  /**
   * The leading 429s are consumed with one attempt and one wait each; the
   * first other outcome ends the call with one last attempt of the same
   * message, delivered or logged; if the outcomes run out while rate-limited,
   * the call is still pending.
   */
  lemma {:induction false} RetryShape(msg: Event, outcomes: seq<Outcome>)
    ensures var r := RetrySpec(msg, outcomes); var n := LeadingRateLimits(outcomes);
      && (n == |outcomes| ==> r.ending == Pending && r.used == n && |r.trace| == 2 * n)
      && (n < |outcomes| ==>
            && r.used == n + 1 && |r.trace| == 2 * n + 1 && r.trace[2 * n] == msg
            && (r.ending == Sent <==> outcomes[n] == Delivered)
            && (r.ending == Logged <==> outcomes[n] == OtherError))
    decreases |outcomes|
  {
    if outcomes != [] && outcomes[0].RateLimited? {
      RetryShape(msg, outcomes[1..]);
    }
  }

  /** Before the k-th 429's wait comes an attempt with the identical message; the wait is `retry_after` (or 2) seconds. */
  lemma {:induction false} RetryWaits(msg: Event, outcomes: seq<Outcome>)
    ensures var r := RetrySpec(msg, outcomes); var n := LeadingRateLimits(outcomes);
      && |r.trace| >= 2 * n
      && (forall k :: 0 <= k < n ==>
            r.trace[2 * k] == msg && r.trace[2 * k + 1] == Delay(WaitSeconds(outcomes[k].retryAfter) * 1000))
    decreases |outcomes|
  {
    if outcomes != [] && outcomes[0].RateLimited? {
      var tail := outcomes[1..];
      RetryWaits(msg, tail);
      var r := RetrySpec(msg, outcomes);
      var rest := RetrySpec(msg, tail);
      var n := LeadingRateLimits(outcomes);
      forall k | 0 < k < n
        ensures r.trace[2 * k] == msg && r.trace[2 * k + 1] == Delay(WaitSeconds(outcomes[k].retryAfter) * 1000)
      {
        assert r.trace[2 * k] == rest.trace[2 * (k - 1)];
        assert r.trace[2 * k + 1] == rest.trace[2 * (k - 1) + 1];
        assert outcomes[k] == tail[k - 1];
      }
    }
  }

  /** Once a call has ended, later outcomes play no part: nothing is retried after a non-429. */
  lemma {:induction false} RetryIgnoresLaterOutcomes(msg: Event, outcomes: seq<Outcome>, later: seq<Outcome>)
    requires RetrySpec(msg, outcomes).ending != Pending
    ensures RetrySpec(msg, outcomes + later) == RetrySpec(msg, outcomes)
    decreases |outcomes|
  {
    assert outcomes != [];
    assert (outcomes + later)[0] == outcomes[0];
    if outcomes[0].RateLimited? {
      assert (outcomes + later)[1..] == outcomes[1..] + later;
      RetryIgnoresLaterOutcomes(msg, outcomes[1..], later);
    }
  }

  /** A 429 asking for 5 seconds, then delivery: send, wait 5000 ms, send the same message again. */
  lemma RateLimitedThenDelivered(msg: Event)
    ensures RetrySpec(msg, [RateLimited(Some(5)), Delivered]) == Run([msg, Delay(5000), msg], 2, Sent)
    ensures RetrySpec(msg, [RateLimited(None), OtherError, Delivered]) == Run([msg, Delay(2000), msg], 2, Logged)
  {
    assert [RateLimited(Some(5)), Delivered][1..] == [Delivered];
    var os := [RateLimited(None), OtherError, Delivered];
    assert os[1..] == [OtherError, Delivered];
  }
}
