/** The crash-loop guard of the executor's supervisor: a restart budget in rolling windows, and the
    restart loop that spends it. Times are milliseconds. */
module RestartBudget {
  import opened Common

  const MAX_RESTARTS := 5
  const WINDOW := 30_000
  const BACKOFF_BASE := 1_000
  const BACKOFF_MAX := 30_000

  /** `windowStart` is None for the zero time. */
  datatype Tracker = Tracker(restarts: nat, windowStart: Option<int>, windowReset: bool)

  const Fresh := Tracker(0, None, false)

  /** The tracker after one attempt. */
  function Counted(t: Tracker, now: int): Tracker {
    if t.windowStart.None? || now - t.windowStart.value > WINDOW then Tracker(1, Some(now), true)
    else Tracker(t.restarts + 1, t.windowStart, false)
  }

  class ChildRestartTracker {
    var restarts: nat
    var windowStart: Option<int>
    var windowReset: bool

    function View(): Tracker
      reads this
    {
      Tracker(restarts, windowStart, windowReset)
    }

    constructor ()
      ensures View() == Fresh
    {
      restarts, windowStart, windowReset := 0, None, false;
    }

    method Allow(now: int) returns (allowed: bool)
      modifies this
      ensures View() == Counted(old(View()), now) && (allowed <==> restarts <= MAX_RESTARTS)
    {
      windowReset := false;
      if windowStart.None? || now - windowStart.value > WINDOW {
        windowStart := Some(now);
        restarts := 0;
        windowReset := true;
      }
      restarts := restarts + 1;
      return restarts <= MAX_RESTARTS;
    }
  }

  // ----- runs of attempts -----

  function After(times: seq<int>): Tracker {
    if times == [] then Fresh else Counted(After(times[..|times| - 1]), times[|times| - 1])
  }

  /** The last of these attempts was permitted. */
  predicate Granted(times: seq<int>) {
    times != [] && After(times).restarts <= MAX_RESTARTS
  }

  /** How many permitted attempts fall between two instants. */
  function Permits(times: seq<int>, low: int, high: int): nat {
    if times == [] then 0
    else
      Permits(times[..|times| - 1], low, high)
      + if Granted(times) && low <= times[|times| - 1] <= high then 1 else 0
  }

  ghost predicate NonDecreasing(times: seq<int>) {
    forall i, j | 0 <= i <= j < |times| :: times[i] <= times[j]
  }

  /** As long as no attempt is later than one window after `low`: the permits since `low` come from the
      current window, or from it and the one before, whose first attempt came before `low`. */
  lemma {:induction false} PermitsByWindow(times: seq<int>, low: int, high: int)
    requires times != [] && NonDecreasing(times) && times[|times| - 1] <= high <= low + WINDOW
    ensures var t := After(times); var p := Permits(times, low, high);
      && t.windowStart.Some? && t.windowStart.value <= times[|times| - 1] && t.restarts > 0
      && (times[|times| - 1] < low ==> p == 0)
      && (t.windowStart.value < low ==> p <= Min(t.restarts, MAX_RESTARTS) - 1)
      && (t.windowStart.value >= low ==> p <= MAX_RESTARTS - 1 + Min(t.restarts, MAX_RESTARTS))
  {
    var before := times[..|times| - 1];
    if before == [] {
      assert Permits(before, low, high) == 0;
    } else {
      assert before[|before| - 1] <= times[|times| - 1];
      PermitsByWindow(before, low, high);
    }
  }

  /** For attempts at any non-decreasing times, an interval no longer than the window contains fewer than
      twice MAX_RESTARTS permitted restarts. */
  lemma {:induction false} BudgetPerInterval(times: seq<int>, low: int, high: int)
    requires NonDecreasing(times) && high - low <= WINDOW
    ensures Permits(times, low, high) <= 2 * MAX_RESTARTS - 1
  {
    if times != [] {
      if times[|times| - 1] <= high {
        PermitsByWindow(times, low, high);
      } else {
        BudgetPerInterval(times[..|times| - 1], low, high);
      }
    }
  }

  /** The bound is reached: four late restarts of one window and five of the next. */
  lemma BudgetIsTight()
    ensures var times := [0, 29_000, 29_000, 29_000, 29_000, 30_001, 30_001, 30_001, 30_001, 30_001];
      NonDecreasing(times) && Permits(times, 29_000, 30_001) == 2 * MAX_RESTARTS - 1
  {
    var times := [0, 29_000, 29_000, 29_000, 29_000, 30_001, 30_001, 30_001, 30_001, 30_001];
    assert After([]) == Fresh && Permits([], 29_000, 30_001) == 0;
    var n := 0;
    while n < 10
      invariant 0 <= n <= 10
      invariant After(times[..n]) == if n == 0 then Fresh
        else if n <= 5 then Tracker(n, Some(0), n == 1) else Tracker(n - 5, Some(30_001), n == 6)
      invariant Permits(times[..n], 29_000, 30_001) == if n == 0 then 0 else n - 1
    {
      assert times[..n + 1][..n] == times[..n];
      n := n + 1;
    }
    assert times[..10] == times;
  }

  /** Attempt k opened a new window. */
  predicate Opens(times: seq<int>, k: nat) {
    k < |times| && After(times[..k + 1]).windowReset
  }

  /** The current window: it began with attempt k, counts every attempt since, and holds the last one. */
  lemma {:induction false} CurrentWindow(times: seq<int>) returns (k: nat)
    requires times != []
    ensures k < |times| && After(times).windowStart == Some(times[k]) && After(times).restarts == |times| - k
    ensures times[|times| - 1] - times[k] <= WINDOW
    ensures k == 0 || times[k] - After(times[..k]).windowStart.value > WINDOW
    ensures forall i | k < i < |times| :: times[i] - times[k] <= WINDOW
  {
    var n := |times| - 1;
    if n == 0 || times[n] - After(times[..n]).windowStart.value > WINDOW {
      k := n;
    } else {
      k := CurrentWindow(times[..n]);
      assert times[..n][..k] == times[..k];
    }
  }

  /** An attempt is refused exactly when its window already holds MAX_RESTARTS attempts: supervision ends
      only after that many more within one window, and always then. */
  lemma RefusedExactly(times: seq<int>)
    requires times != [] && NonDecreasing(times)
    ensures !Granted(times) <==>
      exists k: nat :: k + MAX_RESTARTS < |times| && Opens(times, k) && times[|times| - 1] - times[k] <= WINDOW
  {
    var k := CurrentWindow(times);
    WindowStarts(times, k);
    forall j: nat | j + MAX_RESTARTS < |times| && Opens(times, j) && times[|times| - 1] - times[j] <= WINDOW
      ensures !Granted(times)
    {
      NoLaterWindow(times, j);
    }
  }

  /** An attempt that began a window is marked as such. */
  lemma WindowStarts(times: seq<int>, k: nat)
    requires k < |times|
    requires k > 0 ==> After(times[..k]).windowStart.Some? && times[k] - After(times[..k]).windowStart.value > WINDOW
    ensures Opens(times, k)
  {
    assert times[..k + 1][..k] == times[..k];
  }

  /** While no attempt leaves the window that attempt j began, every attempt since is counted in it. */
  lemma {:induction false} NoLaterWindow(times: seq<int>, j: nat)
    requires NonDecreasing(times) && Opens(times, j)
    requires times[|times| - 1] - times[j] <= WINDOW
    ensures After(times).windowStart == Some(times[j]) && After(times).restarts == |times| - j
  {
    var n := |times| - 1;
    if j == n {
      assert times[..j + 1] == times;
    } else {
      assert times[n - 1] <= times[n];
      assert times[..n][..j + 1] == times[..j + 1];
      NoLaterWindow(times[..n], j);
    }
  }

  // ----- the restart loop -----

  function NextBackoff(b: nat): nat {
    if 2 * b > BACKOFF_MAX then BACKOFF_MAX else 2 * b
  }

  /** The base delay, doubled k times and capped. */
  function Backoff(k: nat): nat {
    if k == 0 then BACKOFF_BASE else NextBackoff(Backoff(k - 1))
  }

  /** Within the budget the delay is a plain power of two seconds: the cap is never reached. */
  lemma BackoffWithinBudget(k: nat)
    requires k < MAX_RESTARTS
    ensures Backoff(k) == [1_000, 2_000, 4_000, 8_000, 16_000][k]
  {
    if k > 0 {
      BackoffWithinBudget(k - 1);
    }
  }

  /** One restart attempt as the world decides it: when it is made, whether the context ends during its
      delay and whether the process starts. `ended` says that the context ended before the process of an
      earlier start exited. */
  datatype Attempt = Attempt(ended: bool, now: int, cancelled: bool, started: bool)

  datatype Ending = Stopped | Fatal | StillRunning

  function Times(attempts: seq<Attempt>): seq<int> {
    seq(|attempts|, i requires 0 <= i < |attempts| => attempts[i].now)
  }

  /** The j-th attempt was permitted, and waited as long as its place in its window asks: at most 16 s. */
  ghost predicate DelayRight(script: seq<Attempt>, j: nat, delay: nat) {
    j < |script| &&
    var t := After(Times(script[..j + 1]));
    0 < t.restarts <= MAX_RESTARTS && delay == Backoff(t.restarts - 1) && BACKOFF_BASE <= delay <= 16_000
  }

  lemma DelayFits(script: seq<Attempt>, j: nat, delay: nat)
    requires j < |script|
    requires var n := After(Times(script[..j + 1])).restarts; 0 < n <= MAX_RESTARTS && delay == Backoff(n - 1)
    ensures DelayRight(script, j, delay)
  {
    BackoffWithinBudget(After(Times(script[..j + 1])).restarts - 1);
  }

  /** How many processes have died before the n-th attempt: the first, and each one a retry started. */
  function Deaths(script: seq<Attempt>, n: nat): nat
    requires n <= |script|
  {
    if n == 0 then 0 else Deaths(script, n - 1) + if n == 1 || script[n - 2].started then 1 else 0
  }

  /** The backoff the supervisor carries fits the place of the next attempt in the window. */
  predicate InStep(t: Tracker, backoff: nat) {
    t == Fresh || (t.windowStart.Some? && 0 < t.restarts <= MAX_RESTARTS && backoff == Backoff(t.restarts))
  }

  /** One attempt: whether it is permitted, and the delay before it. A new window starts the delays over. */
  method Permit(tracker: ChildRestartTracker, backoff: nat, now: int) returns (allowed: bool, delay: nat)
    requires InStep(tracker.View(), backoff)
    modifies tracker
    ensures tracker.View() == Counted(old(tracker.View()), now) && (allowed <==> tracker.restarts <= MAX_RESTARTS)
    ensures allowed ==> tracker.restarts > 0 && delay == Backoff(tracker.restarts - 1)
    ensures allowed ==> InStep(tracker.View(), NextBackoff(delay))
  {
    allowed := tracker.Allow(now);
    delay := if tracker.windowReset then BACKOFF_BASE else backoff;
  }

  /** If a process was running before the j-th attempt, the context had not ended when it exited. */
  predicate WentOn(script: seq<Attempt>, j: nat) {
    j < |script| && (j == 0 || script[j - 1].started ==> !script[j].ended)
  }

  /** The loop of the supervisor. `delays` are the back-off delays before jitter, `resets` counts how
      often the turn of a dead process was reset and `alive` says whether a process is running. */
  method SuperviseExecutor(script: seq<Attempt>)
    returns (ending: Ending, made: nat, delays: seq<nat>, resets: nat, alive: bool)
    ensures made <= |script| && |delays| == if ending.Fatal? then made - 1 else made
    ensures forall j | 0 <= j < |delays| :: DelayRight(script, j, delays[j])
    ensures ending.Fatal? ==> made > 0 && !Granted(Times(script[..made])) && !alive
    ensures ending.StillRunning? ==> made == |script| && (alive <==> made == 0 || script[made - 1].started)
    ensures resets == Deaths(script, made) && forall j | 0 <= j < made - 1 :: !script[j].cancelled
    ensures forall j | 0 <= j < made :: WentOn(script, j)
    ensures ending.StillRunning? && made > 0 ==> !script[made - 1].cancelled
    ensures ending.Stopped? ==>
      || (made < |script| && script[made].ended && alive)
      || (made > 0 && script[made - 1].cancelled && !alive)
  {
    hide Granted, Times, After, DelayRight, InStep, Counted, Backoff, NextBackoff;
    var tracker := new ChildRestartTracker();
    var backoff: nat := BACKOFF_BASE;
    made, delays, resets, alive := 0, [], 0, true;
    TimesGrow(script, 0);
    StartsInStep(tracker.View(), backoff);
    while made < |script|
      invariant made <= |script| && |delays| == made && (alive <==> made == 0 || script[made - 1].started)
      invariant resets == Deaths(script, made) && forall j | 0 <= j < made :: !script[j].cancelled
      invariant forall j | 0 <= j < made :: WentOn(script, j)
      invariant tracker.View() == After(Times(script[..made])) && fresh(tracker)
      invariant InStep(tracker.View(), backoff)
      invariant forall j | 0 <= j < made :: DelayRight(script, j, delays[j])
      modifies tracker
    {
      var attempt := script[made];
      if alive {
        if attempt.ended {
          return Stopped, made, delays, resets, alive;
        }
        resets := resets + 1;
        alive := false;
      }
      TimesGrow(script, made);
      var allowed, delay := Permit(tracker, backoff, attempt.now);
      made := made + 1;
      if !allowed {
        return Fatal, made, delays, resets, alive;
      }
      DelayFits(script, made - 1, delay);
      delays := delays + [delay];
      if attempt.cancelled {
        return Stopped, made, delays, resets, alive;
      }
      backoff := NextBackoff(delay);
      alive := attempt.started;
    }
    ending := StillRunning;
  }

  lemma StartsInStep(t: Tracker, backoff: nat)
    requires t == Fresh
    ensures InStep(t, backoff)
  {
  }

  lemma TimesGrow(script: seq<Attempt>, n: nat)
    requires n <= |script|
    ensures |Times(script[..n])| == n
    ensures n == 0 ==> After(Times(script[..n])) == Fresh
    ensures n < |script| ==> After(Times(script[..n + 1])) == Counted(After(Times(script[..n])), script[n].now)
    ensures n < |script| ==>
      (Granted(Times(script[..n + 1])) <==> After(Times(script[..n + 1])).restarts <= MAX_RESTARTS)
  {
    if n < |script| {
      assert Times(script[..n + 1])[..n] == Times(script[..n]);
    }
  }
}
