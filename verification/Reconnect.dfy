/**
  The loop that keeps one local connection alive across WebSocket sessions: back off exponentially, give up
  after five quick failures in a row, stop for a normal end, a preemption or a shutdown.
  Durations are integers in nanoseconds and come from the environment.
*/
module Reconnect {
  import opened Prelude

  const SECOND := 1_000_000_000
  const MAX_BACKOFF := 30 * SECOND
  const MAX_DIAL_FAILURES := 5

  /** How one call of handleConnection ended: no error, close code 4001, or another error. */
  datatype Ending = Normal | Preempted | Broken

  /** One attempt as the loop sees it.  The clock is read twice after it; the context is looked at once before
      the delay and once more during it. */
  datatype Attempt = Attempt(ending: Ending, elapsed: int, elapsedLater: int, cancelledBefore: bool,
      cancelledDuring: bool)

  datatype Stop = Ended | NotReconnecting | GaveUp | Cancelled | StillRunning

  predicate Quick(a: Attempt) { a.elapsed < SECOND }

  predicate Stable(a: Attempt) { a.elapsedLater > 30 * SECOND }

  function Pow2(n: nat): nat { if n == 0 then 1 else 2 * Pow2(n - 1) }

  /** The delay before the next attempt, when the attempt counter stands at `n`. */
  function Delay(n: nat): int
    requires n >= 1
  {
    Min(SECOND * Pow2(n - 1), MAX_BACKOFF)
  }

  // ---------------------------------------------------------------------------------------------
  // What the two counters count.

  /** How many attempts at the end of the history were quick. */
  function TrailingQuick(h: seq<Attempt>): nat {
    if h == [] || !Quick(h[|h| - 1]) then 0 else 1 + TrailingQuick(h[..|h| - 1])
  }

  /** Where the last stable attempt is; the beginning of the history when there is none. */
  function LastStable(h: seq<Attempt>): (p: nat)
    ensures if h == [] then p == 0 else p < |h|
  {
    if h == [] then 0 else if Stable(h[|h| - 1]) then |h| - 1 else LastStable(h[..|h| - 1])
  }

  /** The attempts from the last stable one on. */
  function SinceStable(h: seq<Attempt>): nat { |h| - LastStable(h) }

  lemma {:induction false} TrailingQuickCounts(h: seq<Attempt>)
    ensures var n := TrailingQuick(h);
      && n <= |h| && (forall i :: |h| - n <= i < |h| ==> h[i].elapsed < 1_000_000_000)
      && (n < |h| ==> h[|h| - n - 1].elapsed >= 1_000_000_000)
  {
    if h != [] && Quick(h[|h| - 1]) { TrailingQuickCounts(h[..|h| - 1]); }
  }

  lemma {:induction false} LastStableFinds(h: seq<Attempt>)
    ensures var p := LastStable(h);
      && p <= |h|
      && (forall i :: p < i < |h| ==> h[i].elapsedLater <= 30_000_000_000)
      && (p > 0 ==> h[p].elapsedLater > 30_000_000_000)
  {
    if h != [] && !Stable(h[|h| - 1]) { LastStableFinds(h[..|h| - 1]); }
  }

  lemma CountersAdvance(h: seq<Attempt>, a: Attempt)
    ensures TrailingQuick(h + [a]) == if Quick(a) then TrailingQuick(h) + 1 else 0
    ensures SinceStable(h + [a]) == if Stable(a) then 1 else SinceStable(h) + 1
  {
    assert (h + [a])[..|h|] == h;
    LastStableFinds(h);
  }

  // ---------------------------------------------------------------------------------------------
  // What the loop does after a history of attempts.

  datatype Verdict = Leave(stop: Stop) | Retry(delay: int)

  function Judge(h: seq<Attempt>): Verdict
    requires h != []
  {
    var a := h[|h| - 1];
    if a.ending.Normal? then Leave(Ended)
    else if a.ending.Preempted? then Leave(NotReconnecting)
    else if TrailingQuick(h) >= MAX_DIAL_FAILURES then Leave(GaveUp)
    else if a.cancelledBefore || a.cancelledDuring then Leave(Cancelled)
    else Retry(Delay(SinceStable(h)))
  }

  datatype Outcome = Outcome(stop: Stop, attempts: nat, delays: seq<int>)

  /** The rest of the run when the first `n` attempts of the script have all been followed by a retry. */
  function Replay(script: seq<Attempt>, n: nat): Outcome
    requires n <= |script|
    decreases |script| - n
  {
    if n == |script| then Outcome(StillRunning, n, [])
    else
      match Judge(script[..n + 1])
      case Leave(stop) => Outcome(stop, n + 1, [])
      case Retry(delay) =>
        var rest := Replay(script, n + 1);
        Outcome(rest.stop, rest.attempts, [delay] + rest.delays)
  }

  function Prepend(delays: seq<int>, o: Outcome): Outcome { o.(delays := delays + o.delays) }

  lemma PrependOne(delays: seq<int>, d: int, o: Outcome)
    ensures Prepend(delays, Prepend([d], o)) == Prepend(delays + [d], o)
  {
    assert delays + ([d] + o.delays) == delays + [d] + o.delays;
  }

  /** One round of the loop, with the two counters as the code keeps them. */
  lemma ReplayNext(script: seq<Attempt>, n: nat, attempt: nat, failures: nat)
    requires n < |script|
    requires attempt == SinceStable(script[..n]) && failures == TrailingQuick(script[..n])
    ensures
      var a := script[n];
      var f := if Quick(a) then failures + 1 else 0;
      var m := if Stable(a) then 1 else attempt + 1;
      && m == SinceStable(script[..n + 1]) && f == TrailingQuick(script[..n + 1])
      && Replay(script, n) ==
           if a.ending.Normal? then Outcome(Ended, n + 1, [])
           else if a.ending.Preempted? then Outcome(NotReconnecting, n + 1, [])
           else if f >= MAX_DIAL_FAILURES then Outcome(GaveUp, n + 1, [])
           else if a.cancelledBefore || a.cancelledDuring then Outcome(Cancelled, n + 1, [])
           else Prepend([Delay(m)], Replay(script, n + 1))
  {
    assert script[..n + 1] == script[..n] + [script[n]];
    CountersAdvance(script[..n], script[n]);
  }

  /** The loop.  `script` holds what successive attempts bring; the run is cut off when it is used up. */
  method HandleConnectionWithReconnect(script: seq<Attempt>) returns (o: Outcome)
    ensures o == Replay(script, 0)
  {
    var attempt, consecutiveDialFailures := 0, 0;
    var n, delays := 0, [];
    while n < |script|
      invariant 0 <= n <= |script|
      invariant attempt == SinceStable(script[..n]) && consecutiveDialFailures == TrailingQuick(script[..n])
      invariant Replay(script, 0) == Prepend(delays, Replay(script, n))
    {
      var a := script[n];
      ReplayNext(script, n, attempt, consecutiveDialFailures);
      n := n + 1;
      if a.ending.Normal? { return Outcome(Ended, n, delays); }
      if a.ending.Preempted? { return Outcome(NotReconnecting, n, delays); }
      if a.elapsed < SECOND {
        consecutiveDialFailures := consecutiveDialFailures + 1;
      } else {
        consecutiveDialFailures := 0;
      }
      if consecutiveDialFailures >= MAX_DIAL_FAILURES { return Outcome(GaveUp, n, delays); }
      if a.cancelledBefore { return Outcome(Cancelled, n, delays); }
      if a.elapsedLater > 30 * SECOND { attempt := 0; }
      attempt := attempt + 1;
      var delay := Min(SECOND * Pow2(attempt - 1), MAX_BACKOFF);
      if a.cancelledDuring { return Outcome(Cancelled, n, delays); }
      PrependOne(delays, delay, Replay(script, n));
      delays := delays + [delay];
    }
    o := Outcome(StillRunning, n, delays);
  }

  // ---------------------------------------------------------------------------------------------
  // Whole runs.

  /** After every attempt but the last the loop retries, sleeping the delay of its history; the last one
      decides how the run stops. */
  lemma {:induction false} ReplayMeans(script: seq<Attempt>, n: nat)
    requires n <= |script|
    ensures var o := Replay(script, n);
            var retries := if o.stop.StillRunning? then o.attempts else o.attempts - 1;
      && n <= retries <= o.attempts <= |script| && |o.delays| == retries - n
      && (o.stop.StillRunning? ==> o.attempts == |script|)
      && (!o.stop.StillRunning? ==> n < o.attempts && Judge(script[..o.attempts]) == Leave(o.stop))
      && forall m :: n < m <= retries ==> Judge(script[..m]) == Retry(o.delays[m - n - 1])
    decreases |script| - n
  {
    if n < |script| && Judge(script[..n + 1]).Retry? { ReplayMeans(script, n + 1); }
  }

  /** After a retry, or at the start, the loop gives up on an attempt that fails and makes five quick ones in a row. */
  lemma JudgeGivesUp(h: seq<Attempt>, a: Attempt)
    requires h == [] || Judge(h).Retry?
    ensures Judge(h + [a]) == Leave(GaveUp) <==> a.ending.Broken? && TrailingQuick(h + [a]) == 5
  {
    CountersAdvance(h, a);
  }

  /** A run of `n` attempts, of which all but the last led to a retry. */
  lemma LastAttempt(script: seq<Attempt>, stop: Stop, n: nat)
    requires 1 <= n <= |script|
    requires n >= 2 ==> Judge(script[..n - 1]).Retry?
    requires if stop.StillRunning? then Judge(script[..n]).Retry? else Judge(script[..n]) == Leave(stop)
    ensures stop == GaveUp <==> script[n - 1].ending.Broken? && TrailingQuick(script[..n]) == 5
  {
    var h, a := script[..n - 1], script[n - 1];
    assert script[..n] == h + [a];
    JudgeGivesUp(h, a);
  }

  /** The loop gives up exactly when the attempt just made failed and is the fifth quick one in a row. */
  lemma GivesUpAtExactlyFive(script: seq<Attempt>)
    ensures var o := Replay(script, 0);
      o.stop == GaveUp <==>
        1 <= o.attempts <= |script| && script[o.attempts - 1].ending.Broken? && TrailingQuick(script[..o.attempts]) == 5
  {
    ReplayMeans(script, 0);
    var o := Replay(script, 0);
    if o.attempts >= 1 { LastAttempt(script, o.stop, o.attempts); }
  }

  /** Why a run stops, for every script: a normal end and a preemption stop it at once; a failed attempt does as the
      fifth quick one in a row, or else when the context is cancelled.  Every attempt that was retried had failed, was
      not the fifth quick one in a row and met no cancellation. */
  lemma StopMeans(script: seq<Attempt>)
    ensures var o := Replay(script, 0);
      o.attempts <= |script| && |o.delays| <= o.attempts &&
      (!o.stop.StillRunning? ==>
         && o.attempts == |o.delays| + 1
         && var a := script[o.attempts - 1];
         && (o.stop == Ended <==> a.ending.Normal?)
         && (o.stop == NotReconnecting <==> a.ending.Preempted?)
         && (o.stop == Cancelled ==> a.cancelledBefore || a.cancelledDuring)
         && (o.stop == Cancelled || o.stop == GaveUp <==> a.ending.Broken?)
         && (o.stop == GaveUp <==> a.ending.Broken? && TrailingQuick(script[..o.attempts]) == 5))
    ensures var o := Replay(script, 0);
      forall m :: 0 <= m < |o.delays| && m < |script| ==>
        && script[m].ending.Broken? && !script[m].cancelledBefore && !script[m].cancelledDuring
        && TrailingQuick(script[..m + 1]) < 5
  {
    ReplayMeans(script, 0);
    GivesUpAtExactlyFive(script);
    var o := Replay(script, 0);
    forall m | 0 <= m < |o.delays| && m < |script|
      ensures script[m].ending.Broken? && !script[m].cancelledBefore && !script[m].cancelledDuring
      ensures TrailingQuick(script[..m + 1]) < 5
    {
      assert Judge(script[..m + 1]) == Retry(o.delays[m]);
    }
  }

  lemma Pow2Grows(m: nat, n: nat)
    requires m <= n
    ensures 1 <= Pow2(m) <= Pow2(n)
  {
    if m < n { Pow2Grows(m, n - 1); } else if m > 0 { Pow2Grows(m - 1, n - 1); }
  }

  /** Delays double from one second and stay at the cap from the sixth retry on. */
  lemma DelaysDoubleUpToTheCap(n: nat)
    requires n >= 1
    ensures 1_000_000_000 <= Delay(n) <= 30_000_000_000
    ensures Delay(1) == 1_000_000_000
    ensures n < 5 ==> Delay(n + 1) == 2 * Delay(n)
    ensures Delay(n) == 30_000_000_000 <==> n >= 6
  {
    Pow2Grows(0, n - 1);
    assert Pow2(5) == 32;
    if n >= 6 { Pow2Grows(5, n - 1); } else { Pow2Grows(n - 1, 4); assert Pow2(4) == 16; }
  }

  /** A run that has just retried after a stable attempt slept one second, however long it had been backing off. */
  lemma StableAttemptResetsTheDelay(script: seq<Attempt>, m: nat)
    requires var o := Replay(script, 0); 1 <= m <= |o.delays| && m <= |script| && Stable(script[m - 1])
    ensures Replay(script, 0).delays[m - 1] == SECOND
  {
    ReplayMeans(script, 0);
    assert script[..m] == script[..m - 1] + [script[m - 1]];
    CountersAdvance(script[..m - 1], script[m - 1]);
    assert Judge(script[..m]) == Retry(Replay(script, 0).delays[m - 1]);
  }

  function Sum(s: seq<int>): int { if s == [] then 0 else s[0] + Sum(s[1..]) }

  lemma SumFirst(a: int, rest: seq<int>)
    ensures Sum([a] + rest) == a + Sum(rest)
  {
    assert ([a] + rest)[1..] == rest;
  }

  lemma SumOfFour(a: int, b: int, c: int, d: int)
    ensures Sum([a, b, c, d]) == a + b + c + d
  {
    SumFirst(d, []);
    SumFirst(c, [d]);
    SumFirst(b, [c, d]);
    SumFirst(a, [b, c, d]);
    assert [d] + [] == [d] && [c] + [d] == [c, d] && [b] + [c, d] == [b, c, d] && [a] + [b, c, d] == [a, b, c, d];
  }

  /** A connection whose every attempt is rejected at once makes exactly five attempts and sleeps 15 seconds. */
  lemma RejectedConnectionGivesUp(script: seq<Attempt>)
    requires |script| >= 5
    requires forall i :: 0 <= i < 5 ==>
      && script[i].ending.Broken? && Quick(script[i]) && !Stable(script[i])
      && !script[i].cancelledBefore && !script[i].cancelledDuring
    ensures var o := Replay(script, 0);
      o.stop == GaveUp && o.attempts == 5 && Sum(o.delays) == 15 * SECOND
  {
    RejectedPrefix(script, 1);
    RejectedPrefix(script, 2);
    RejectedPrefix(script, 3);
    RejectedPrefix(script, 4);
    RejectedPrefix(script, 5);
    assert Pow2(0) == 1 && Pow2(1) == 2 && Pow2(2) == 4 && Pow2(3) == 8;
    var o := Replay(script, 0);
    assert Replay(script, 3) == Outcome(GaveUp, 5, [8 * SECOND]);
    assert Replay(script, 1) == Outcome(GaveUp, 5, [2 * SECOND] + ([4 * SECOND] + [8 * SECOND]));
    assert o.delays == [SECOND, 2 * SECOND, 4 * SECOND, 8 * SECOND];
    SumOfFour(SECOND, 2 * SECOND, 4 * SECOND, 8 * SECOND);
  }

  lemma {:induction false} RejectedPrefix(script: seq<Attempt>, n: nat)
    requires n <= |script|
    requires forall i :: 0 <= i < n ==> Quick(script[i]) && !Stable(script[i])
    ensures TrailingQuick(script[..n]) == n && SinceStable(script[..n]) == n
  {
    if n > 0 {
      RejectedPrefix(script, n - 1);
      assert script[..n] == script[..n - 1] + [script[n - 1]];
      CountersAdvance(script[..n - 1], script[n - 1]);
    }
  }
}
