/** The cadence of the worker loop: when it makes its notification check and how long it rests. */
module WorkerLoop {
  import opened Schema

  /** How one pass through the loop goes: the monotonic clock, what the notification check
      reports if it is made, and how the cycle ends. */
  datatype CheckResult = CheckWorked | CheckIdle | CheckRaised
  datatype CycleResult = CycleWorked | CycleIdle | CycleRaised
  datatype Turn = Turn(monotonic: int, check: CheckResult, cycle: CycleResult)

  datatype Rest = NoRest | Poll | Backoff

  /** Among the first `n` turns, `checks` lists those that make a notification check: the first
      one, and then always the first turn at least `interval` after the last check. */
  ghost predicate OnCadence(turns: seq<Turn>, n: nat, interval: int, checks: seq<nat>)
    requires n <= |turns|
  {
    && (n > 0 ==> checks != [] && checks[0] == 0)
    && (forall k | 0 <= k < |checks| :: checks[k] < n)
    && (forall k | 0 < k < |checks| :: Apart(turns, interval, checks[k - 1], checks[k]))
    && (forall i | 0 <= i < n && i !in checks :: exists k :: TooRecent(turns, interval, checks, k, i))
  }

  predicate Apart(turns: seq<Turn>, interval: int, i: nat, j: nat) {
    i < j < |turns| && turns[j].monotonic >= turns[i].monotonic + interval
  }

  /** Turn `i` makes no check because the last check before it, number `k`, is too recent. */
  predicate TooRecent(turns: seq<Turn>, interval: int, checks: seq<nat>, k: nat, i: nat) {
    && k < |checks| && checks[k] < i < |turns|
    && turns[i].monotonic < turns[checks[k]].monotonic + interval
    && (k + 1 < |checks| ==> i < checks[k + 1])
  }

  /** The time of the next check: minus infinity, or `interval` after the last check. */
  predicate NextCheck(turns: seq<Turn>, n: nat, interval: int, checks: seq<nat>, next: Option<int>) {
    if n == 0 then next == None && checks == []
    else
      checks != [] && checks[|checks| - 1] < |turns|
      && next == Some(turns[checks[|checks| - 1]].monotonic + interval)
  }

  lemma CheckedTurn(turns: seq<Turn>, n: nat, interval: int, checks: seq<nat>, next: Option<int>)
    requires n < |turns| && OnCadence(turns, n, interval, checks)
    requires NextCheck(turns, n, interval, checks, next) && (next.Some? ==> turns[n].monotonic >= next.value)
    ensures n !in checks && NextCheck(turns, n + 1, interval, checks + [n], Some(turns[n].monotonic + interval))
    ensures OnCadence(turns, n + 1, interval, checks + [n])
  {
    forall i | 0 <= i < n + 1 && i !in checks + [n] ensures exists k :: TooRecent(turns, interval, checks + [n], k, i) {
      var k :| TooRecent(turns, interval, checks, k, i);
      assert TooRecent(turns, interval, checks + [n], k, i);
    }
  }

  lemma SkippedTurn(turns: seq<Turn>, n: nat, interval: int, checks: seq<nat>, next: Option<int>)
    requires n < |turns| && OnCadence(turns, n, interval, checks)
    requires NextCheck(turns, n, interval, checks, next) && next.Some? && turns[n].monotonic < next.value
    ensures n !in checks && NextCheck(turns, n + 1, interval, checks, next)
    ensures OnCadence(turns, n + 1, interval, checks)
  {
    assert TooRecent(turns, interval, checks, |checks| - 1, n);
  }

  /** The worker rests only when neither the cycle nor a check found work, and longer after a
      cycle that raised. */
  function RestAfter(turn: Turn, checked: bool): Rest {
    match turn.cycle
    case CycleRaised => Backoff
    case CycleWorked => NoRest
    case CycleIdle => if checked && turn.check == CheckWorked then NoRest else Poll
  }

  ghost predicate RestsFollow(turns: seq<Turn>, n: nat, checks: seq<nat>, rests: seq<Rest>)
    requires n <= |turns|
  {
    |rests| == n && forall j | 0 <= j < n :: rests[j] == RestAfter(turns[j], j in checks)
  }

  lemma OneMoreRest(turns: seq<Turn>, n: nat, checks: seq<nat>, rests: seq<Rest>, checked: bool)
    requires n < |turns| && RestsFollow(turns, n, checks, rests) && n !in checks
    ensures RestsFollow(turns, n + 1, if checked then checks + [n] else checks, rests + [RestAfter(turns[n], checked)])
  {
    assert forall j | 0 <= j < n :: j in checks + [n] <==> j in checks;
  }

  /** `run_worker_loop`, over the turns until it is told to stop. */
  method RunWorkerLoop(turns: seq<Turn>, retrySeconds: int) returns (checks: seq<nat>, rests: seq<Rest>)
    ensures OnCadence(turns, |turns|, retrySeconds, checks)
    ensures RestsFollow(turns, |turns|, checks, rests)
  {
    checks, rests := [], [];
    var next: Option<int> := None;  // minus infinity
    for i := 0 to |turns|
      invariant OnCadence(turns, i, retrySeconds, checks)
      invariant NextCheck(turns, i, retrySeconds, checks, next)
      invariant RestsFollow(turns, i, checks, rests)
    {
      var turn := turns[i];
      var notificationWork := false;
      if next.None? || turn.monotonic >= next.value {
        CheckedTurn(turns, i, retrySeconds, checks, next);
        OneMoreRest(turns, i, checks, rests, true);
        notificationWork := turn.check == CheckWorked;
        next := Some(turn.monotonic + retrySeconds);
        checks := checks + [i];
      } else {
        SkippedTurn(turns, i, retrySeconds, checks, next);
        OneMoreRest(turns, i, checks, rests, false);
      }
      if turn.cycle == CycleRaised {
        rests := rests + [Backoff];
      } else if turn.cycle == CycleIdle && !notificationWork {
        rests := rests + [Poll];
      } else {
        rests := rests + [NoRest];
      }
    }
  }
}
