/** The capacity simulator: two workers, one start interval, tasks served in order of arrival.
    Times are exact reals; the floats of the original are not modelled. */
module Capacity {
  function MaxReal(a: real, b: real): real { if a >= b then a else b }

  // ----- the recurrence

  /** When task `i` starts: not before it arrives, an interval after the task before it, and once the task
      two places ahead has been answered. */
  function Start(arrivals: seq<real>, interval: real, response: real, i: nat): real
    requires i < |arrivals|
  {
    if i == 0 then MaxReal(arrivals[0], 0.0)
    else if i == 1 then MaxReal(arrivals[1], Start(arrivals, interval, response, 0) + interval)
    else MaxReal(MaxReal(arrivals[i], Start(arrivals, interval, response, i - 1) + interval),
                 Start(arrivals, interval, response, i - 2) + response)
  }

  lemma {:induction false} StartGrows(arrivals: seq<real>, interval: real, response: real, i: nat, j: nat)
    requires interval > 0.0 && i < j < |arrivals|
    ensures 0.0 <= Start(arrivals, interval, response, i)
    ensures Start(arrivals, interval, response, i) + interval <= Start(arrivals, interval, response, j)
    decreases j
  {
    StartNonNegative(arrivals, interval, response, i);
    if i < j - 1 {
      StartGrows(arrivals, interval, response, i, j - 1);
    }
  }

  lemma {:induction false} StartNonNegative(arrivals: seq<real>, interval: real, response: real, i: nat)
    requires interval > 0.0 && i < |arrivals|
    ensures 0.0 <= Start(arrivals, interval, response, i)
    decreases i
  {
    if i > 0 {
      StartNonNegative(arrivals, interval, response, i - 1);
    }
  }

  function StartOrZero(arrivals: seq<real>, interval: real, response: real, n: nat, gap: real): real
    requires n <= |arrivals|
  {
    if n == 0 then 0.0 else Start(arrivals, interval, response, n - 1) + gap
  }

  /** Before task `n` the two workers are free when tasks `n - 1` and `n - 2` complete. */
  predicate FreeAt(arrivals: seq<real>, interval: real, response: real, n: nat, a: real, b: real)
    requires n <= |arrivals|
  {
    a == StartOrZero(arrivals, interval, response, n, response)
    && b == StartOrZero(arrivals, interval, response, if n == 0 then 0 else n - 1, response)
  }

  /** The worker that is free first meets the recurrence. */
  lemma FirstFree(arrivals: seq<real>, interval: real, response: real, n: nat, a: real, b: real)
    requires interval > 0.0 && response >= 0.0 && n < |arrivals|
    requires FreeAt(arrivals, interval, response, n, a, b)
    ensures b <= a
    ensures MaxReal(MaxReal(arrivals[n], StartOrZero(arrivals, interval, response, n, interval)), b)
            == Start(arrivals, interval, response, n)
    ensures FreeAt(arrivals, interval, response, n + 1, Start(arrivals, interval, response, n) + response, a)
  {
    hide Start;
    StartIs(arrivals, interval, response, n);
    if n >= 1 {
      StartNonNegative(arrivals, interval, response, n - 1);
    }
    if n >= 2 {
      StartGrows(arrivals, interval, response, n - 2, n - 1);
    }
  }

  lemma StartIs(arrivals: seq<real>, interval: real, response: real, n: nat)
    requires n < |arrivals|
    ensures n == 0 ==> Start(arrivals, interval, response, n) == MaxReal(arrivals[0], 0.0)
    ensures n == 1 ==> Start(arrivals, interval, response, n) == MaxReal(arrivals[1], Start(arrivals, interval, response, 0) + interval)
    ensures n >= 2 ==> Start(arrivals, interval, response, n)
                       == MaxReal(MaxReal(arrivals[n], Start(arrivals, interval, response, n - 1) + interval),
                                  Start(arrivals, interval, response, n - 2) + response)
  {
  }

  /** `_schedule`: always taking the worker that is free first meets the recurrence. */
  method Schedule(arrivals: seq<real>, interval: real, response: real) returns (starts: seq<real>, completions: seq<real>)
    requires interval > 0.0 && response >= 0.0
    ensures |starts| == |completions| == |arrivals|
    ensures forall i :: 0 <= i < |arrivals| ==> starts[i] == Start(arrivals, interval, response, i)
    ensures forall i :: 0 <= i < |arrivals| ==> completions[i] == starts[i] + response
  {
    hide Start, FreeAt;
    var workersFreeAt := new real[2](_ => 0.0);
    var nextSourceStart := 0.0;
    starts, completions := [], [];
    NothingStarted(arrivals, interval, response);
    for n := 0 to |arrivals|
      invariant |starts| == |completions| == n
      invariant forall i :: 0 <= i < n ==> starts[i] == Start(arrivals, interval, response, i)
      invariant forall i :: 0 <= i < n ==> completions[i] == starts[i] + response
      invariant nextSourceStart == StartOrZero(arrivals, interval, response, n, interval)
      invariant FreeAt(arrivals, interval, response, n, workersFreeAt[0], workersFreeAt[1])
                || FreeAt(arrivals, interval, response, n, workersFreeAt[1], workersFreeAt[0])
    {
      var worker := if workersFreeAt[0] <= workersFreeAt[1] then 0 else 1;
      if FreeAt(arrivals, interval, response, n, workersFreeAt[0], workersFreeAt[1]) {
        FirstFree(arrivals, interval, response, n, workersFreeAt[0], workersFreeAt[1]);
      } else {
        FirstFree(arrivals, interval, response, n, workersFreeAt[1], workersFreeAt[0]);
      }
      var start := MaxReal(MaxReal(arrivals[n], nextSourceStart), workersFreeAt[worker]);
      var completion := start + response;
      workersFreeAt[worker] := completion;
      nextSourceStart := start + interval;
      starts := starts + [start];
      completions := completions + [completion];
    }
  }

  lemma NothingStarted(arrivals: seq<real>, interval: real, response: real)
    ensures FreeAt(arrivals, interval, response, 0, 0.0, 0.0)
  {
  }

  // ----- any other schedule

  predicate InService(starts: seq<real>, response: real, i: int, at: real)
    requires 0 <= i < |starts|
  {
    starts[i] <= at < starts[i] + response
  }

  /** Never three tasks at once. */
  ghost predicate TwoAtMost(starts: seq<real>, response: real) {
    forall i, j, k, at :: 0 <= i < j < k < |starts| ==>
      !(InService(starts, response, i, at) && InService(starts, response, j, at) && InService(starts, response, k, at))
  }

  /** A schedule that serves tasks in order of arrival, no task before it arrives or before time zero, starts
      at least an interval apart, and never more than two tasks in service. */
  ghost predicate Feasible(arrivals: seq<real>, interval: real, response: real, starts: seq<real>) {
    |starts| == |arrivals|
    && (forall i :: 0 <= i < |starts| ==> starts[i] >= MaxReal(arrivals[i], 0.0))
    && (forall i :: 0 < i < |starts| ==> starts[i] >= starts[i - 1] + interval)
    && TwoAtMost(starts, response)
  }

  lemma ThirdWaits(arrivals: seq<real>, interval: real, response: real, starts: seq<real>, i: int)
    requires interval > 0.0 && Feasible(arrivals, interval, response, starts) && 2 <= i < |starts|
    ensures starts[i] >= starts[i - 2] + response
  {
    assert starts[i] >= starts[i - 1] + interval && starts[i - 1] >= starts[i - 2] + interval;
    assert !(InService(starts, response, i - 2, starts[i]) && InService(starts, response, i - 1, starts[i])
             && InService(starts, response, i, starts[i]));
  }

  lemma {:induction false} NoEarlier(arrivals: seq<real>, interval: real, response: real, starts: seq<real>, i: nat)
    requires interval > 0.0 && Feasible(arrivals, interval, response, starts) && i < |starts|
    ensures Start(arrivals, interval, response, i) <= starts[i]
    decreases i
  {
    hide TwoAtMost;
    if i >= 1 {
      NoEarlier(arrivals, interval, response, starts, i - 1);
    }
    if i >= 2 {
      NoEarlier(arrivals, interval, response, starts, i - 2);
      ThirdWaits(arrivals, interval, response, starts, i);
    }
  }

  /** The greedy schedule is feasible, and no feasible schedule starts any task earlier. */
  lemma GreedyIsEarliest(arrivals: seq<real>, interval: real, response: real, greedy: seq<real>)
    requires interval > 0.0 && response >= 0.0 && |greedy| == |arrivals|
    requires forall i :: 0 <= i < |greedy| ==> greedy[i] == Start(arrivals, interval, response, i)
    ensures Feasible(arrivals, interval, response, greedy)
    ensures forall starts, i :: Feasible(arrivals, interval, response, starts) && 0 <= i < |arrivals| ==> greedy[i] <= starts[i]
  {
    forall i: nat | i < |greedy| ensures greedy[i] >= MaxReal(arrivals[i], 0.0) {
      StartNonNegative(arrivals, interval, response, i);
    }
    forall i, j, k, at | 0 <= i < j < k < |greedy|
      ensures !(InService(greedy, response, i, at) && InService(greedy, response, j, at) && InService(greedy, response, k, at))
    {
      assert Start(arrivals, interval, response, i + 2) >= greedy[i] + response;
      if i + 2 < k {
        StartGrows(arrivals, interval, response, i + 2, k);
      }
    }
    forall i | 0 < i < |greedy| ensures greedy[i] >= greedy[i - 1] + interval {
      StartGrows(arrivals, interval, response, i - 1, i);
    }
    forall starts, i: nat | Feasible(arrivals, interval, response, starts) && i < |arrivals| ensures greedy[i] <= starts[i] {
      NoEarlier(arrivals, interval, response, starts, i);
    }
  }

  /** A longer interval, a slower response or later arrivals never start any task earlier. */
  lemma {:induction false} StartsAreMonotone(arrivals: seq<real>, later: seq<real>, interval: real, response: real,
                                             interval2: real, response2: real, i: nat)
    requires interval <= interval2 && response <= response2 && |later| == |arrivals| && i < |arrivals|
    requires forall j :: 0 <= j < |arrivals| ==> arrivals[j] <= later[j]
    ensures Start(arrivals, interval, response, i) <= Start(later, interval2, response2, i)
    decreases i
  {
    if i >= 1 {
      StartsAreMonotone(arrivals, later, interval, response, interval2, response2, i - 1);
    }
    if i >= 2 {
      StartsAreMonotone(arrivals, later, interval, response, interval2, response2, i - 2);
    }
  }

  // ----- the two scenarios

  /** Multiples of a real. */
  function Times(n: nat, x: real): real {
    if n == 0 then 0.0 else Times(n - 1, x) + x
  }

  /** When task `i` of a simultaneous burst starts: paced by the interval or by the two workers, whichever is slower. */
  function BurstStart(interval: real, response: real, i: nat): real {
    MaxReal(Times(i, interval), Times(i / 2, response) + Times(i % 2, interval))
  }

  lemma {:induction false} BurstStarts(n: nat, interval: real, response: real, i: nat)
    requires interval > 0.0 && response >= 0.0 && i < n
    ensures Start(seq(n, _ => 0.0), interval, response, i) == BurstStart(interval, response, i)
    decreases i
  {
    hide Start;
    StartIs(seq(n, _ => 0.0), interval, response, i);
    if i >= 1 {
      BurstStarts(n, interval, response, i - 1);
    }
    if i >= 2 {
      BurstStarts(n, interval, response, i - 2);
      Halving(interval, response, i);
    } else {
      assert Times(1, interval) == Times(0, interval) + interval;
    }
  }

  /** One step of the burst: the mean of both bounds never exceeds the larger. */
  lemma Halving(interval: real, response: real, i: nat)
    requires i >= 2 && interval > 0.0 && response >= 0.0
    ensures MaxReal(MaxReal(0.0, BurstStart(interval, response, i - 1) + interval), BurstStart(interval, response, i - 2) + response)
            == BurstStart(interval, response, i)
  {
    var h := i / 2;
    assert (i - 2) / 2 == h - 1 && (i - 2) % 2 == i % 2;
    assert Times(i, interval) == Times(i - 1, interval) + interval == Times(i - 2, interval) + interval + interval;
    assert Times(h, response) == Times(h - 1, response) + response;
    Doubled(h, interval);
    Doubled(h - 1, interval);
    assert Times(1, interval) == interval;
    TimesNonNegative(i, interval);
    Compare(interval, response, h - 1);
    if i % 2 == 0 {
      assert (i - 1) / 2 == h - 1 && (i - 1) % 2 == 1 && i == 2 * h;
    } else {
      assert (i - 1) / 2 == h && (i - 1) % 2 == 0 && i == 2 * h + 1;
    }
  }

  lemma {:induction false} Doubled(n: nat, x: real)
    ensures Times(2 * n, x) == Times(n, x) + Times(n, x) && Times(2 * n + 1, x) == Times(2 * n, x) + x
  {
    if n > 0 {
      Doubled(n - 1, x);
      assert Times(2 * n, x) == Times(2 * n - 1, x) + x;
    }
  }

  lemma {:induction false} TimesNonNegative(n: nat, x: real)
    requires x >= 0.0
    ensures Times(n, x) >= 0.0
  {
    if n > 0 {
      TimesNonNegative(n - 1, x);
    }
  }

  /** Doubling the interval or one response per pair: whichever is slower once is slower always. */
  lemma {:induction false} Compare(interval: real, response: real, h: nat)
    ensures interval + interval >= response ==> Times(2 * h, interval) >= Times(h, response)
    ensures interval + interval <= response ==> Times(2 * h, interval) <= Times(h, response)
  {
    if h > 0 {
      Compare(interval, response, h - 1);
      assert Times(2 * h, interval) == Times(2 * h - 1, interval) + interval;
    }
  }

  lemma {:induction false} TimesIs(n: nat, x: real)
    ensures Times(n, x) == (n as real) * x
  {
    if n > 0 {
      TimesIs(n - 1, x);
      assert ((n - 1) as real) * x + x == (n as real) * x;
    }
  }

  // ----- the evidence

  const DAY := 86400.0
  const DAILY_TASKS := 1000
  const BURST_TASKS := 45
  const P95 := 42              // index of the 95th percentile of 45 sorted values
  const TARGET := 600.0

  function DailyArrivals(): seq<real> {
    seq(DAILY_TASKS, i requires 0 <= i < DAILY_TASKS => (i as real) * 86.4)
  }

  function BurstArrivals(): seq<real> {
    seq(BURST_TASKS, _ => 0.0)
  }

  function InsertReal(sorted: seq<real>, x: real): seq<real> {
    if sorted != [] && x < sorted[|sorted| - 1] then InsertReal(sorted[..|sorted| - 1], x) + [sorted[|sorted| - 1]]
    else sorted + [x]
  }

  function SortReals(xs: seq<real>): seq<real> {
    if xs == [] then [] else InsertReal(SortReals(xs[..|xs| - 1]), xs[|xs| - 1])
  }

  predicate Increasing(xs: seq<real>) {
    forall i, j :: 0 <= i < j < |xs| ==> xs[i] <= xs[j]
  }

  lemma {:induction false} SortedAlready(xs: seq<real>)
    requires Increasing(xs)
    ensures SortReals(xs) == xs
    decreases |xs|
  {
    if xs != [] {
      var before, last := xs[..|xs| - 1], xs[|xs| - 1];
      SortStep(xs);
      SortedAlready(before);
      InsertLast(before, last);
    }
  }

  lemma SortStep(xs: seq<real>)
    requires xs != []
    ensures SortReals(xs) == InsertReal(SortReals(xs[..|xs| - 1]), xs[|xs| - 1])
  {
  }

  lemma InsertLast(sorted: seq<real>, x: real)
    requires sorted != [] ==> sorted[|sorted| - 1] <= x
    ensures InsertReal(sorted, x) == sorted + [x]
  {
  }

  /** The values below a limit, in order. */
  function Below(xs: seq<real>, limit: real): seq<real> {
    if xs == [] then []
    else Below(xs[..|xs| - 1], limit) + if xs[|xs| - 1] < limit then [xs[|xs| - 1]] else []
  }

  lemma {:induction false} BelowIsPrefix(xs: seq<real>, limit: real)
    requires Increasing(xs)
    ensures |Below(xs, limit)| <= |xs| && Below(xs, limit) == xs[..|Below(xs, limit)|]
    ensures forall i :: 0 <= i < |xs| ==> (i < |Below(xs, limit)| <==> xs[i] < limit)
    decreases |xs|
  {
    if xs != [] {
      var before, last := xs[..|xs| - 1], xs[|xs| - 1];
      BelowIsPrefix(before, limit);
      BelowStep(xs, limit);
      LongerPrefix(before, last, Below(before, limit), limit);
      assert before + [last] == xs;
    }
  }

  lemma LongerPrefix(before: seq<real>, last: real, below: seq<real>, limit: real)
    requires Increasing(before + [last]) && below <= before
    requires forall i :: 0 <= i < |before| ==> (i < |below| <==> before[i] < limit)
    ensures var next := below + if last < limit then [last] else [];
            next <= before + [last] && forall i :: 0 <= i < |before + [last]| ==> (i < |next| <==> (before + [last])[i] < limit)
  {
    var xs := before + [last];
    if last < limit && before != [] {
      assert xs[|before| - 1] <= xs[|before|];
    }
  }

  lemma BelowStep(xs: seq<real>, limit: real)
    requires xs != []
    ensures Below(xs, limit) == Below(xs[..|xs| - 1], limit) + if xs[|xs| - 1] < limit then [xs[|xs| - 1]] else []
  {
  }

  /** While both limits are moderate, the daily tasks start as they arrive. */
  lemma {:induction false} DailyStarts(interval: real, response: real, i: nat)
    requires 0.0 < interval <= 86.4 && 0.0 <= response <= 172.8 && i < DAILY_TASKS
    ensures Start(DailyArrivals(), interval, response, i) == (i as real) * 86.4
    decreases i
  {
    hide Start;
    StartIs(DailyArrivals(), interval, response, i);
    if i >= 1 {
      DailyStarts(interval, response, i - 1);
    }
    if i >= 2 {
      DailyStarts(interval, response, i - 2);
    }
  }

  predicate ValidProfile(interval: real, response: real, attemptLimit: int, successLimit: int) {
    interval > 0.0 && response >= 0.0 && attemptLimit >= 1 && successLimit >= 1
  }

  function MinInt(a: int, b: int): int { if a <= b then a else b }

  /** Completion times of either scenario rise. */
  lemma CompletionsIncrease(arrivals: seq<real>, interval: real, response: real, completions: seq<real>)
    requires interval > 0.0 && |completions| == |arrivals|
    requires forall i :: 0 <= i < |arrivals| ==> completions[i] == Start(arrivals, interval, response, i) + response
    ensures Increasing(completions)
  {
    forall i: nat, j: nat | i < j < |completions| ensures completions[i] <= completions[j] {
      StartGrows(arrivals, interval, response, i, j);
    }
  }

  /** A burst that meets the target leaves every daily task inside its day. */
  lemma TargetFitsDay(interval: real, response: real, completions: seq<real>)
    requires interval > 0.0 && response >= 0.0 && BurstStart(interval, response, P95) + response <= TARGET
    requires |completions| == DAILY_TASKS
    requires forall i :: 0 <= i < DAILY_TASKS ==> completions[i] == Start(DailyArrivals(), interval, response, i) + response
    ensures |Below(completions, DAY)| == DAILY_TASKS
  {
    hide Start, Times;
    TimesIs(42, interval);
    TimesIs(21, response);
    TimesIs(0, interval);
    CompletionsIncrease(DailyArrivals(), interval, response, completions);
    DailyStarts(interval, response, 999);
    BelowIsPrefix(completions, DAY);
  }

  /** `simulate_capacity`: the objective is available exactly when both limits admit 1000 a day and the 43rd
      answer of a 45-task burst comes within ten minutes, which has a closed form. */
  method SimulateCapacity(interval: real, response: real, attemptLimit: int, successLimit: int)
    returns (valid: bool, dailySuccesses: int, dailyLast: real, burstP95: real, available: bool)
    ensures valid <==> ValidProfile(interval, response, attemptLimit, successLimit)
    ensures valid ==> burstP95 == MaxReal(42.0 * interval, 21.0 * response) + response
    ensures valid ==>
              (available <==> attemptLimit >= 1000 && successLimit >= 1000 && MaxReal(42.0 * interval, 21.0 * response) + response <= 600.0)
    ensures valid ==> 0 <= dailySuccesses <= 1000 && dailySuccesses <= attemptLimit && dailySuccesses <= successLimit
    ensures valid && dailySuccesses > 0 ==>
              dailyLast == Start(DailyArrivals(), interval, response, dailySuccesses - 1) + response < DAY
    ensures valid && dailySuccesses < MinInt(1000, MinInt(attemptLimit, successLimit)) ==>
              Start(DailyArrivals(), interval, response, dailySuccesses) + response >= DAY
  {
    hide Start, Times, SortReals, Below;
    valid, dailySuccesses, dailyLast, burstP95, available := false, 0, 0.0, 0.0, false;
    if !(interval > 0.0 && response >= 0.0 && attemptLimit >= 1 && successLimit >= 1) {
      return;
    }
    valid := true;
    var ceiling := MinInt(attemptLimit, successLimit);
    var _, dailyCompletions := Schedule(DailyArrivals(), interval, response);
    CompletionsIncrease(DailyArrivals(), interval, response, dailyCompletions);
    BelowIsPrefix(dailyCompletions, DAY);
    var withinDay := Below(dailyCompletions, DAY);
    dailySuccesses := MinInt(|withinDay|, ceiling);
    var _, completions := Schedule(BurstArrivals(), interval, response);
    CompletionsIncrease(BurstArrivals(), interval, response, completions);
    SortedAlready(completions);
    burstP95 := SortReals(completions)[P95];
    BurstP95(interval, response, completions);
    if burstP95 <= TARGET {
      TargetFitsDay(interval, response, dailyCompletions);
    }
    dailyLast := if dailySuccesses > 0 then withinDay[dailySuccesses - 1] else 0.0;
    available := dailySuccesses == DAILY_TASKS && burstP95 <= TARGET;
  }

  lemma BurstP95(interval: real, response: real, completions: seq<real>)
    requires interval > 0.0 && response >= 0.0 && |completions| == BURST_TASKS
    requires forall i :: 0 <= i < BURST_TASKS ==> completions[i] == Start(BurstArrivals(), interval, response, i) + response
    ensures completions[P95] == BurstStart(interval, response, P95) + response
    ensures completions[P95] == MaxReal(42.0 * interval, 21.0 * response) + response
  {
    hide Start, Times;
    BurstStarts(BURST_TASKS, interval, response, P95);
    TimesIs(42, interval);
    TimesIs(21, response);
    TimesIs(0, interval);
  }
}
