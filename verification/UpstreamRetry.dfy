/** The bounded retry loop that opens an upstream WebSocket.

    Time is a clock in milliseconds. Each handshake takes an arbitrary time and
    has an arbitrary outcome; a sleep may return late but never early. */
module UpstreamRetry {
  import opened Wrappers

  const RETRY_TIMEOUT: nat := 120_000
  const INITIAL_BACKOFF: nat := 250
  const MAX_BACKOFF: nat := 5_000

  /** What one handshake would do if it were never cut short. */
  datatype Outcome = Opened | Http(status: nat) | Broken

  /** A handshake's duration and outcome, and how late the sleep after it is. */
  datatype Handshake = Handshake(cost: nat, outcome: Outcome, oversleep: nat)

  type Network = nat -> Handshake

  datatype Limits = Limits(timeout: nat, initial: nat, max: nat) {
    predicate Valid() { 0 < initial <= max }
  }

  datatype Answer =
    | Connected
    | PermanentHandshake(status: nat)
    | Unavailable(lastHandshakeStatus: Option<nat>)

  /** A sleep the loop performed. */
  datatype Wait = Wait(start: nat, length: nat)

  /** What waiting cannot fix; a timeout, too many requests and the answers of
      gateways are not among it. */
  predicate IsPermanent(status: nat): (permanent: bool)
    ensures permanent ==> 400 <= status < 500 && status != 408 && status != 429
  {
    400 <= status <= 401 || 403 <= status <= 407 || 410 <= status <= 411 || 413 <= status <= 415 || status == 422
  }

  function Min(a: nat, b: nat): nat { if a < b then a else b }

  /** `initial` doubled k times. */
  function Doubled(initial: nat, k: nat): nat { if k == 0 then initial else 2 * Doubled(initial, k - 1) }

  /** The k-th backoff: the initial one doubled k times, up to the maximum. */
  function Backoff(k: nat, l: Limits): nat { Min(Doubled(l.initial, k), l.max) }

  lemma NextBackoff(k: nat, l: Limits)
    ensures Backoff(k + 1, l) == Min(Backoff(k, l) * 2, l.max)
  {
  }

  lemma BackoffPositive(k: nat, l: Limits)
    requires l.Valid()
    ensures Backoff(k, l) > 0
  {
    if k > 0 {
      BackoffPositive(k - 1, l);
      NextBackoff(k - 1, l);
    }
  }

  /** A report after which the loop tries again. */
  predicate Retried(o: Outcome) { !o.Opened? && !(o.Http? && IsPermanent(o.status)) }

  /** The status of the last element that is an HTTP answer. */
  function LastHttp(seen: seq<Outcome>): Option<nat> {
    if seen == [] then None
    else if seen[|seen| - 1].Http? then Some(seen[|seen| - 1].status)
    else LastHttp(seen[..|seen| - 1])
  }

  // What the network decides, without the loop.

  /** The time that the first n handshakes and the backoffs after them take. */
  function Spent(n: nat, network: Network, l: Limits): nat {
    if n == 0 then 0
    else Spent(n - 1, network, l) + network(n - 1).cost + Backoff(n - 1, l) + network(n - 1).oversleep
  }

  /** Handshake k is made: all before it may be retried, and there is time. */
  ghost predicate Made(k: nat, network: Network, l: Limits) {
    (forall i :: 0 <= i < k ==> Retried(network(i).outcome)) && Spent(k, network, l) < l.timeout
  }

  /** Handshake k is made and ends before it is cut short. */
  ghost predicate Reported(k: nat, network: Network, l: Limits) {
    Made(k, network, l) && Spent(k, network, l) + network(k).cost <= l.timeout
  }

  /** Handshake k is made, may be retried, and leaves time to wait. */
  ghost predicate Awaited(k: nat, network: Network, l: Limits) {
    Made(k, network, l) && Retried(network(k).outcome) && Spent(k, network, l) + network(k).cost < l.timeout
  }

  /** How many handshakes are made, are reported and are followed by a wait. */
  ghost predicate Exactly(handshakes: nat, reports: nat, waits: nat, network: Network, l: Limits) {
    forall k: nat :: Placed(k, handshakes, reports, waits, network, l)
  }

  ghost predicate Placed(k: nat, handshakes: nat, reports: nat, waits: nat, network: Network, l: Limits) {
    && (k < handshakes <==> Made(k, network, l))
    && (k < reports <==> Reported(k, network, l))
    && (k < waits <==> Awaited(k, network, l))
  }

  /** Each sleep begins where its handshake ended, follows the capped doubling
      sequence, and does not go beyond the deadline. */
  ghost predicate WaitsFollow(waits: seq<Wait>, start: nat, network: Network, l: Limits) {
    forall k :: 0 <= k < |waits| ==> WaitFollows(waits[k], k, start, network, l)
  }

  predicate WaitFollows(w: Wait, k: nat, start: nat, network: Network, l: Limits) {
    && w.start == start + Spent(k, network, l) + network(k).cost
    && w.start < start + l.timeout
    && w.length == Min(Backoff(k, l), start + l.timeout - w.start)
    && 0 < w.length
  }

  /** The answer is the last report when that one ends the loop, and otherwise
      `Unavailable` with the most recent HTTP status of all reports. */
  ghost predicate Explains(answer: Answer, seen: seq<Outcome>) {
    if seen != [] && !Retried(seen[|seen| - 1]) then
      && AllRetried(seen[..|seen| - 1])
      && answer == (if seen[|seen| - 1].Opened? then Connected else PermanentHandshake(seen[|seen| - 1].status))
    else
      AllRetried(seen) && answer == Unavailable(LastHttp(seen))
  }

  ghost predicate Observed(seen: seq<Outcome>, network: Network) {
    forall k :: 0 <= k < |seen| ==> seen[k] == network(k).outcome
  }

  ghost predicate AllRetried(seen: seq<Outcome>) {
    forall k :: 0 <= k < |seen| ==> Retried(seen[k])
  }

  /** n reports, all to be tried again, and what giving up now would answer. */
  ghost predicate Failures(n: nat, seen: seq<Outcome>, answer: Answer, network: Network) {
    |seen| == n && Observed(seen, network) && AllRetried(seen) && answer == Unavailable(LastHttp(seen))
  }

  lemma {:induction false} SpentGrows(m: nat, n: nat, network: Network, l: Limits)
    requires m <= n
    ensures Spent(m, network, l) <= Spent(n, network, l)
    ensures m < n ==> Spent(m, network, l) + network(m).cost + Backoff(m, l) <= Spent(n, network, l)
    decreases n
  {
    if m < n {
      SpentGrows(m, n - 1, network, l);
    }
  }

  lemma LastHttpSnoc(seen: seq<Outcome>, o: Outcome)
    ensures LastHttp(seen + [o]) == (if o.Http? then Some(o.status) else LastHttp(seen))
  {
    assert (seen + [o])[..|seen|] == seen;
  }

  lemma ObservedSnoc(seen: seq<Outcome>, network: Network)
    requires Observed(seen, network)
    ensures Observed(seen + [network(|seen|).outcome], network)
  {
  }

  lemma ReportSnoc(seen: seq<Outcome>, network: Network)
    requires Observed(seen, network) && AllRetried(seen)
    ensures var o := network(|seen|).outcome;
            && Observed(seen + [o], network)
            && (Retried(o) ==> AllRetried(seen + [o]))
            && LastHttp(seen + [o]) == (if o.Http? then Some(o.status) else LastHttp(seen))
            && (!Retried(o) ==> Explains(if o.Opened? then Connected else PermanentHandshake(o.status), seen + [o]))
  {
    var o := network(|seen|).outcome;
    LastHttpSnoc(seen, o);
    ObservedSnoc(seen, network);
    assert (seen + [o])[..|seen|] == seen;
  }

  /** One handshake with what is left of the time. It is reported exactly when it
      ended in time; `again`: and then may be retried. */
  method TryOnce(earlier: seq<Outcome>, left: nat, last: Answer, network: Network)
    returns (again: bool, cost: nat, answer: Answer, seen: seq<Outcome>)
    requires Failures(|earlier|, earlier, last, network)
    ensures cost == network(|earlier|).cost
    ensures |seen| == if cost <= left then |earlier| + 1 else |earlier|
    ensures again <==> cost <= left && Retried(network(|earlier|).outcome)
    ensures Observed(seen, network) && Explains(answer, seen)
    ensures again ==> Failures(|seen|, seen, answer, network)
    ensures answer.Unavailable? ==> again || cost > left
  {
    var handshake := network(|earlier|);
    cost := handshake.cost;
    if cost > left {
      return false, cost, last, earlier;  // the timeout around the handshake fired
    }
    ReportSnoc(earlier, network);
    seen := earlier + [handshake.outcome];
    match handshake.outcome
    case Opened => return false, cost, Connected, seen;
    case Http(status) =>
      if IsPermanent(status) {
        return false, cost, PermanentHandshake(status), seen;
      }
      return true, cost, Unavailable(Some(status)), seen;
    case Broken => return true, cost, last, seen;
  }

  /** The clock after n rounds: nothing was cut short, or time is up. */
  predicate Clock(n: nat, now: nat, start: nat, network: Network, l: Limits) {
    if now < start + l.timeout then now == start + Spent(n, network, l) else Spent(n, network, l) >= l.timeout
  }

  /** The state after n rounds that each ended in a wait. */
  ghost predicate Rounds(n: nat, now: nat, backoff: nat, waits: seq<Wait>, start: nat, network: Network, l: Limits) {
    && Clock(n, now, start, network, l)
    && backoff == Backoff(n, l)
    && n == |waits| && WaitsFollow(waits, start, network, l)
    && AllAwaited(n, network, l)
  }

  ghost predicate AllAwaited(n: nat, network: Network, l: Limits) {
    forall k :: 0 <= k < n ==> Awaited(k, network, l)
  }

  lemma BeginsRounds(start: nat, network: Network, l: Limits)
    requires l.Valid()
    ensures Rounds(0, start, l.initial, [], start, network, l) && Failures(0, [], Unavailable(None), network)
  {
    assert Spent(0, network, l) == 0;
  }

  lemma Sleeps(n: nat, now: nat, start: nat, network: Network, l: Limits)
    requires l.Valid() && now == start + Spent(n, network, l) + network(n).cost && now < start + l.timeout
    ensures var wait := Wait(now, Min(Backoff(n, l), start + l.timeout - now));
            && WaitFollows(wait, n, start, network, l)
            && Clock(n + 1, now + wait.length + network(n).oversleep, start, network, l)
  {
    BackoffPositive(n, l);
  }

  lemma MadeNext(n: nat, network: Network, l: Limits)
    requires AllAwaited(n, network, l) && Spent(n, network, l) < l.timeout
    ensures Made(n, network, l)
  {
    forall i | 0 <= i < n
      ensures Retried(network(i).outcome)
    {
      assert Awaited(i, network, l);
    }
  }

  lemma NextRound(n: nat, now: nat, backoff: nat, waits: seq<Wait>, start: nat, network: Network, l: Limits)
    requires l.Valid() && Rounds(n, now, backoff, waits, start, network, l)
    requires now + network(n).cost < start + l.timeout && Retried(network(n).outcome)
    ensures var ended := now + network(n).cost;
            var wait := Wait(ended, Min(backoff, start + l.timeout - ended));
            && wait.length > 0
            && Rounds(n + 1, ended + wait.length + network(n).oversleep, Min(backoff * 2, l.max), waits + [wait], start, network, l)
  {
    var ended := now + network(n).cost;
    Sleeps(n, ended, start, network, l);
    NextBackoff(n, l);
    MadeNext(n, network, l);
    assert Awaited(n, network, l);
  }

  /** Nothing is made after a handshake that leaves no time or may not be retried. */
  lemma NothingLater(n: nat, k: nat, network: Network, l: Limits)
    requires n < k && l.Valid() && !(Retried(network(n).outcome) && Spent(n, network, l) + network(n).cost < l.timeout)
    ensures !Made(k, network, l)
  {
    SpentGrows(n, k, network, l);
  }

  lemma NothingTooLate(n: nat, k: nat, network: Network, l: Limits)
    requires n <= k && Spent(n, network, l) >= l.timeout
    ensures !Made(k, network, l)
  {
    SpentGrows(n, k, network, l);
  }

  /** The loop ends before handshake n: it is too late for it. */
  lemma EndsLate(n: nat, network: Network, l: Limits)
    requires AllAwaited(n, network, l) && Spent(n, network, l) >= l.timeout
    ensures Exactly(n, n, n, network, l)
  {
    forall k: nat
      ensures Placed(k, n, n, n, network, l)
    {
      if k < n {
        assert Awaited(k, network, l);
      } else {
        NothingTooLate(n, k, network, l);
      }
    }
  }

  /** The loop ends with handshake n: it was cut short, is final, or left no time. */
  lemma EndsWith(n: nat, reports: nat, network: Network, l: Limits)
    requires l.Valid() && AllAwaited(n, network, l) && Spent(n, network, l) < l.timeout
    requires !(Retried(network(n).outcome) && Spent(n, network, l) + network(n).cost < l.timeout)
    requires reports == if Spent(n, network, l) + network(n).cost <= l.timeout then n + 1 else n
    ensures Exactly(n + 1, reports, n, network, l)
    ensures Spent(n, network, l) + network(n).cost >= l.timeout ==> Spent(n + 1, network, l) >= l.timeout
  {
    MadeNext(n, network, l);
    var made := n + 1;
    forall k: nat
      ensures Placed(k, made, reports, n, network, l)
    {
      if k < n {
        assert Awaited(k, network, l);
      } else if k > n {
        NothingLater(n, k, network, l);
      }
    }
  }

  /** What the network alone decides: how many handshakes are made, reported and
      waited for, and the answer. The loop gives up only when the time is spent. */
  ghost predicate Decided(answer: Answer, handshakes: nat, waits: seq<Wait>, seen: seq<Outcome>,
                          start: nat, network: Network, l: Limits) {
    && Exactly(handshakes, |seen|, |waits|, network, l)
    && WaitsFollow(waits, start, network, l)
    && Observed(seen, network)
    && Explains(answer, seen)
    && (answer.Unavailable? ==> Spent(handshakes, network, l) >= l.timeout)
  }

  /** The loop leaves without another handshake. */
  lemma LeavesLate(now: nat, backoff: nat, waits: seq<Wait>, start: nat, answer: Answer, seen: seq<Outcome>,
                   network: Network, l: Limits)
    requires Rounds(|waits|, now, backoff, waits, start, network, l) && now >= start + l.timeout
    requires Failures(|waits|, seen, answer, network)
    ensures Decided(answer, |waits|, waits, seen, start, network, l)
  {
    EndsLate(|waits|, network, l);
  }

  /** The loop leaves with the handshake after the last wait. */
  lemma Leaves(began: nat, backoff: nat, waits: seq<Wait>, start: nat, answer: Answer, seen: seq<Outcome>,
               network: Network, l: Limits)
    requires l.Valid() && Rounds(|waits|, began, backoff, waits, start, network, l) && began < start + l.timeout
    requires !(Retried(network(|waits|).outcome) && began + network(|waits|).cost < start + l.timeout)
    requires |seen| == if began + network(|waits|).cost <= start + l.timeout then |waits| + 1 else |waits|
    requires Observed(seen, network) && Explains(answer, seen)
    requires answer.Unavailable? ==> began + network(|waits|).cost >= start + l.timeout
    ensures Decided(answer, |waits| + 1, waits, seen, start, network, l)
  {
    EndsWith(|waits|, |seen|, network, l);
  }

  /** The loop, for any limits, any start time and any network. `seen` is what the
      handshakes that ended before the deadline reported. */
  method Connect(start: nat, l: Limits, network: Network)
    returns (answer: Answer, handshakes: nat, waits: seq<Wait>, seen: seq<Outcome>)
    requires l.Valid()
    ensures Decided(answer, handshakes, waits, seen, start, network, l)
  {
    var deadline := start + l.timeout;
    var now := start;
    var backoff := l.initial;
    answer := Unavailable(None);
    handshakes, waits, seen := 0, [], [];
    BeginsRounds(start, network, l);
    while now < deadline
      invariant Rounds(handshakes, now, backoff, waits, start, network, l)
      invariant Failures(handshakes, seen, answer, network)
      decreases deadline - now
    {
      ghost var n, round := handshakes, now;
      var oversleep := network(handshakes).oversleep;
      handshakes := handshakes + 1;
      var again, cost;
      again, cost, answer, seen := TryOnce(seen, deadline - now, answer, network);
      now := now + cost;
      if !again || now >= deadline {
        Leaves(round, backoff, waits, start, answer, seen, network, l);
        return;
      }
      var retryAfter := Min(backoff, deadline - now);
      NextRound(n, round, backoff, waits, start, network, l);
      waits := waits + [Wait(now, retryAfter)];
      now := now + retryAfter + oversleep;
      backoff := Min(backoff * 2, l.max);
    }
    LeavesLate(now, backoff, waits, start, answer, seen, network, l);
  }

  /** The first outcome that ends the loop, when it comes in time, is the answer:
      every failure that may be retried is retried until then. */
  method ConnectAnswers(start: nat, l: Limits, network: Network, k: nat) returns (answer: Answer, handshakes: nat)
    requires l.Valid() && Reported(k, network, l) && !Retried(network(k).outcome)
    ensures handshakes == k + 1
    ensures answer == if network(k).outcome.Opened? then Connected else PermanentHandshake(network(k).outcome.status)
  {
    var waits, seen;
    answer, handshakes, waits, seen := Connect(start, l, network);
    assert Placed(k, handshakes, |seen|, |waits|, network, l) && Placed(k + 1, handshakes, |seen|, |waits|, network, l);
    assert !Made(k + 1, network, l);
    assert seen[k] == network(k).outcome;
  }

  // The shipped limits.

  /** The total of the first n backoffs. */
  function TotalBackoff(n: nat, l: Limits): nat { if n == 0 then 0 else TotalBackoff(n - 1, l) + Backoff(n - 1, l) }

  lemma {:induction false} SpentBounds(n: nat, network: Network, l: Limits)
    ensures TotalBackoff(n, l) <= Spent(n, network, l)
  {
    if n > 0 {
      SpentBounds(n - 1, network, l);
    }
  }

  const SHIPPED := Limits(RETRY_TIMEOUT, INITIAL_BACKOFF, MAX_BACKOFF)

  lemma {:induction false} SteadyTotal(k: nat, n: nat)
    requires 5 <= k <= n
    ensures TotalBackoff(n, SHIPPED) == TotalBackoff(k, SHIPPED) + (n - k) * MAX_BACKOFF
  {
    if k < n {
      SteadyTotal(k, n - 1);
      DoubledLarge(n - 1);
    }
  }

  lemma {:induction false} DoubledLarge(k: nat)
    requires 5 <= k
    ensures Doubled(INITIAL_BACKOFF, k) >= 8_000
  {
    if k > 5 {
      DoubledLarge(k - 1);
    } else {
      assert Doubled(INITIAL_BACKOFF, 2) == 1_000;
    }
  }

  lemma ProductionTotals()
    ensures TotalBackoff(27, SHIPPED) == 117_750
    ensures TotalBackoff(28, SHIPPED) == 122_750
  {
    assert Doubled(INITIAL_BACKOFF, 2) == 1_000;
    assert TotalBackoff(2, SHIPPED) == 750;
    assert TotalBackoff(5, SHIPPED) == 7_750;
    SteadyTotal(5, 27);
    SteadyTotal(5, 28);
  }

  /** With the shipped limits no network makes the loop start a 29th handshake. */
  method ConnectInProduction(start: nat, network: Network)
    returns (answer: Answer, handshakes: nat, waits: seq<Wait>, seen: seq<Outcome>)
    ensures handshakes <= 28
    ensures Exactly(handshakes, |seen|, |waits|, network, Limits(120_000, 250, 5_000))
    ensures Explains(answer, seen)
  {
    answer, handshakes, waits, seen := Connect(start, SHIPPED, network);
    ProductionTotals();
    SpentBounds(28, network, SHIPPED);
    assert !Made(28, network, SHIPPED) && Placed(28, handshakes, |seen|, |waits|, network, SHIPPED);
  }

  function Refusal(k: nat): Handshake { Handshake(0, Broken, 0) }

  lemma {:induction false} RefusedSpends(n: nat, l: Limits)
    ensures Spent(n, Refusal, l) == TotalBackoff(n, l)
  {
    if n > 0 {
      RefusedSpends(n - 1, l);
    }
  }

  /** The bound is met: an upstream that refuses at once is tried 28 times. */
  lemma RefusedIsTried28Times()
    ensures Made(27, Refusal, SHIPPED)
  {
    ProductionTotals();
    RefusedSpends(27, SHIPPED);
    RefusedIsMade(27, SHIPPED);
  }

  lemma RefusedIsMade(k: nat, l: Limits)
    ensures Made(k, Refusal, l) <==> Spent(k, Refusal, l) < l.timeout
  {
  }
}
