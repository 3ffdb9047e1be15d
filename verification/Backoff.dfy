/** The SNTP wait of the native client: polling in rounds, with an exponential pause between them. */
module Backoff {

  const INT_MAX := 0x7FFF_FFFF

  /** The clock counts as set from here on (seconds). */
  const CLOCK_SET := 1657621503

  function Pow2(k: nat): (p: nat)
    ensures p > k
  {
    if k == 0 then 1 else 2 * Pow2(k - 1)
  }

  lemma {:induction false} Pow2Monotone(i: nat, j: nat)
    requires i <= j
    ensures Pow2(i) <= Pow2(j)
    decreases j
  {
    if i < j {
      Pow2Monotone(i, j - 1);
    }
  }

  /** x << k on a 32-bit int, where it is defined */
  function Shl(x: int, k: nat): (r: int)
    requires 0 <= x && x * Pow2(k) <= INT_MAX
  {
    x * Pow2(k)
  }

  /** The timeouts (milliseconds) the shifts stay defined for. */
  predicate InRange(recv: int, max: int) {
    0 < recv && 2 * recv <= INT_MAX && 2 * max <= INT_MAX
  }

  /** sntp_retry_cnt after n failed rounds */
  function Shift(recv: int, max: int, n: nat): nat {
    if n == 0 then 0
    else
      var c := Shift(recv, max, n - 1);
      if recv * Pow2(c + 1) < max then c + 1 else c
  }

  lemma Twice(x: int, p: int)
    ensures x * (2 * p) == 2 * (x * p)
  {
  }

  lemma {:induction false} ShiftInRange(recv: int, max: int, n: nat)
    requires InRange(recv, max)
    ensures var c := Shift(recv, max, n);
            (c == 0 || recv * Pow2(c) < max) && recv * Pow2(c + 1) == 2 * (recv * Pow2(c)) <= INT_MAX
  {
    if n > 0 {
      ShiftInRange(recv, max, n - 1);
    }
    Twice(recv, Pow2(Shift(recv, max, n)));
  }

  /** One round of polling: at most recv / 100 readings, ended by the first one that is past the
      threshold. */
  method Poll(recv: int, clock: nat -> int, start: nat, last: int) returns (now: int, polls: nat)
    requires 0 < recv && last < CLOCK_SET
    ensures start <= polls <= start + recv / 100
    ensures forall j :: start <= j < polls - 1 ==> clock(j) < CLOCK_SET
    ensures if now >= CLOCK_SET then start < polls && clock(polls - 1) == now
            else polls == start + recv / 100 && (start < polls ==> clock(polls - 1) == now)
  {
    now, polls := last, start;
    var i := 0;
    while i < recv / 100 && now < CLOCK_SET
      invariant 0 <= i <= recv / 100 && polls == start + i
      invariant forall j :: start <= j < polls - 1 ==> clock(j) < CLOCK_SET
      invariant if i == 0 then now == last else clock(polls - 1) == now
      decreases recv / 100 - i
    {
      now := clock(polls);
      polls := polls + 1;
      i := i + 1;
    }
  }

  /** The pause after the n-th failed round */
  function Wait(recv: int, max: int, n: nat): int {
    recv * Pow2(Shift(recv, max, n))
  }

  /** Compute the pause and decide whether the next one doubles. */
  method NextPause(recv: int, max: int, retryCnt: nat, ghost n: nat) returns (retryTime: int, retryCnt': nat)
    requires InRange(recv, max) && retryCnt == Shift(recv, max, n)
    ensures retryTime == Wait(recv, max, n) && retryCnt' == Shift(recv, max, n + 1)
  {
    ShiftInRange(recv, max, n);
    retryTime := Shl(recv, retryCnt);
    retryCnt' := if Shl(recv, retryCnt + 1) < max then retryCnt + 1 else retryCnt;
  }

  lemma OneMoreStep(k: int, step: int)
    ensures (k + 1) * step == k * step + step
  {
  }

  lemma {:induction false} MultiplesGrow(a: nat, b: nat, p: nat)
    requires a <= b
    ensures a * p <= b * p
    decreases b
  {
    if a < b {
      MultiplesGrow(a, b - 1, p);
      OneMoreStep(b - 1, p);
    }
  }

  /** The round a reading belongs to */
  lemma RoundOf(reading: nat, waited: nat, perRound: nat)
    requires waited * perRound <= reading < waited * perRound + perRound
    ensures reading / perRound == waited
  {
    var d := reading / perRound;
    assert reading == perRound * d + reading % perRound;
    OneMoreStep(d, perRound);
    OneMoreStep(waited, perRound);
    if d < waited {
      MultiplesGrow(d + 1, waited, perRound);
    } else if waited < d {
      MultiplesGrow(waited + 1, d, perRound);
    }
  }

  /** The readings of a round */
  method Round(recv: int, clock: nat -> int, last: int, ghost waited: nat, ghost rounds: nat, start: nat)
      returns (now: int, polls: nat)
    requires 0 < recv && last < CLOCK_SET && waited < rounds && start == waited * (recv / 100)
    ensures forall j :: start <= j < polls - 1 ==> clock(j) < CLOCK_SET
    ensures if now >= CLOCK_SET then
              && start < polls <= rounds * (recv / 100) && clock(polls - 1) >= CLOCK_SET
              && recv / 100 > 0 && (polls - 1) / (recv / 100) == waited
            else polls == (waited + 1) * (recv / 100) && forall j :: start <= j < polls ==> clock(j) < CLOCK_SET
  {
    ghost var perRound: nat := recv / 100;
    OneMoreStep(waited, perRound);
    MultiplesGrow(waited + 1, rounds, perRound);
    now, polls := Poll(recv, clock, start, last);
    if now >= CLOCK_SET {
      RoundOf(polls - 1, waited, perRound);
    }
  }

  /** get_time, followed for at most `rounds` failed rounds: the source's loop has no bound.  `clock` gives
      the readings of gettimeofday in turn, `polls` counts them; `waits` are the pauses between rounds.
      It returns exactly if a reading of these rounds is past the threshold, on the first one, having
      paused once for each round before it. */
  method GetTime(recv: int, max: int, clock: nat -> int, rounds: nat)
      returns (waits: seq<int>, done: bool, polls: nat)
    requires InRange(recv, max)
    ensures |waits| <= rounds && forall n :: 0 <= n < |waits| ==> waits[n] == Wait(recv, max, n)
    ensures forall j :: 0 <= j < polls - 1 ==> clock(j) < CLOCK_SET
    ensures done <==> exists j :: 0 <= j < rounds * (recv / 100) && clock(j) >= CLOCK_SET
    ensures if done then
              0 < polls <= rounds * (recv / 100) && clock(polls - 1) >= CLOCK_SET
              && recv / 100 > 0 && |waits| == (polls - 1) / (recv / 100)
            else |waits| == rounds && polls == rounds * (recv / 100) && (polls > 0 ==> clock(polls - 1) < CLOCK_SET)
  {
    var now, retryCnt, retryTime := 0, 0, 0;
    waits, done, polls := [], false, 0;
    while |waits| < rounds
      invariant |waits| <= rounds && retryCnt == Shift(recv, max, |waits|) && now < CLOCK_SET
      invariant polls == |waits| * (recv / 100) && !done
      invariant forall n :: 0 <= n < |waits| ==> waits[n] == Wait(recv, max, n)
      invariant forall j :: 0 <= j < polls ==> clock(j) < CLOCK_SET
      decreases rounds - |waits|
    {
      now, polls := Round(recv, clock, now, |waits|, rounds, polls);
      if now >= CLOCK_SET {
        done := true;
        return;
      }
      retryTime, retryCnt := NextPause(recv, max, retryCnt, |waits|);
      waits := waits + [retryTime];
    }
  }

  // ----- closed form

  /** K doublings fit below the maximum, and no more. */
  ghost predicate IsCap(recv: int, max: int, cap: nat) {
    (cap == 0 || recv * Pow2(cap) < max) && recv * Pow2(cap + 1) >= max
  }

  /** There is exactly one such K for each pair of timeouts. */
  lemma {:induction false} CapExists(recv: int, max: int, k: nat) returns (cap: nat)
    requires 0 < recv && (k == 0 || recv * Pow2(k) < max)
    ensures IsCap(recv, max, cap)
    decreases max - recv * Pow2(k)
  {
    if recv * Pow2(k + 1) >= max {
      cap := k;
    } else {
      assert recv * Pow2(k + 1) == recv * Pow2(k) + recv * Pow2(k);
      assert recv * Pow2(k) > 0;
      cap := CapExists(recv, max, k + 1);
    }
  }

  lemma Scale(recv: int, i: nat, j: nat)
    requires 0 < recv && i <= j
    ensures recv * Pow2(i) <= recv * Pow2(j)
  {
    Pow2Monotone(i, j);
  }

  lemma CapUnique(recv: int, max: int, cap: nat, cap': nat)
    requires 0 < recv && IsCap(recv, max, cap) && IsCap(recv, max, cap')
    ensures cap == cap'
  {
    if cap < cap' {
      Scale(recv, cap + 1, cap');
    } else if cap' < cap {
      Scale(recv, cap' + 1, cap);
    }
  }

  function Min(a: nat, b: nat): nat {
    if a < b then a else b
  }

  /** The pause after the n-th failed round is recv * 2^min(n, K). */
  lemma {:induction false} WaitClosedForm(recv: int, max: int, cap: nat, n: nat)
    requires 0 < recv && IsCap(recv, max, cap)
    ensures Shift(recv, max, n) == Min(n, cap) && Wait(recv, max, n) == recv * Pow2(Min(n, cap))
  {
    if n > 0 {
      WaitClosedForm(recv, max, cap, n - 1);
      if n <= cap {
        Scale(recv, n, cap);
      }
    }
  }

  /** Every pause is below the maximum if the first one is, and pauses never get shorter. */
  lemma WaitBounds(recv: int, max: int, n: nat, n': nat)
    requires InRange(recv, max) && n <= n'
    ensures recv <= Wait(recv, max, n) <= Wait(recv, max, n')
    ensures recv < max ==> Wait(recv, max, n) < max
    ensures recv >= max ==> Wait(recv, max, n) == recv
  {
    ShiftInRange(recv, max, n);
    var cap := CapExists(recv, max, 0);
    WaitClosedForm(recv, max, cap, n);
    WaitClosedForm(recv, max, cap, n');
    Scale(recv, Min(n, cap), Min(n', cap));
    Scale(recv, 0, Min(n, cap));
  }

  /** The time paused in n failed rounds */
  function Total(recv: int, max: int, n: nat): int {
    if n == 0 then 0 else Total(recv, max, n - 1) + Wait(recv, max, n - 1)
  }

  lemma OneMoreDoubling(recv: int, n: nat)
    ensures recv * (Pow2(n + 1) - 1) == recv * (Pow2(n) - 1) + recv * Pow2(n)
  {
    var p := Pow2(n);
    assert recv * (2 * p - 1) == recv * (p - 1) + recv * p;
  }

  /** A geometric start, then constant steps. */
  function ClosedTotal(recv: int, cap: nat, n: nat): int {
    if n <= cap + 1 then recv * (Pow2(n) - 1)
    else recv * (Pow2(cap + 1) - 1) + (n - cap - 1) * (recv * Pow2(cap))
  }

  lemma ClosedTotalStep(recv: int, cap: nat, n: nat)
    ensures ClosedTotal(recv, cap, n + 1) == ClosedTotal(recv, cap, n) + recv * Pow2(Min(n, cap))
  {
    if n <= cap {
      OneMoreDoubling(recv, n);
    } else {
      OneMoreStep(n - cap - 1, recv * Pow2(cap));
    }
  }

  lemma {:induction false} TotalClosedForm(recv: int, max: int, cap: nat, n: nat)
    requires 0 < recv && IsCap(recv, max, cap)
    ensures Total(recv, max, n) == ClosedTotal(recv, cap, n)
  {
    if n > 0 {
      TotalClosedForm(recv, max, cap, n - 1);
      WaitClosedForm(recv, max, cap, n - 1);
      ClosedTotalStep(recv, cap, n - 1);
    }
  }
}
