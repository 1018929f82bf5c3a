/** Database size alerts with hysteresis: one armed flag and one streak per 10 GB boundary. */
module SizeAlerts {
  import opened Options

  const TEN_GB := 10_000_000_000
  const REARM := 7

  /** A boundary is named by its multiple of ten gigabytes. */
  datatype BoundaryState = BoundaryState(armed: bool, belowStreak: nat)

  /** A measurement is a size in bytes, or None when measuring failed. */
  predicate Reaches(m: Option<nat>, boundary: nat) {
    m.Some? && m.value >= boundary * TEN_GB
  }

  predicate Below(m: Option<nat>, boundary: nat) {
    m.Some? && m.value < boundary * TEN_GB
  }

  lemma Division(size: nat, boundary: nat)
    ensures boundary <= size / TEN_GB <==> size >= boundary * TEN_GB
  {
  }

  // ----- one measurement

  function Measured(s: BoundaryState, boundary: nat, m: Option<nat>): BoundaryState {
    if m.None? then s.(belowStreak := 0)
    else if Reaches(m, boundary) then BoundaryState(false, 0)
    else BoundaryState(s.armed || s.belowStreak + 1 >= REARM, s.belowStreak + 1)
  }

  /** The boundary table after a measurement. */
  ghost predicate Recorded(before: map<nat, BoundaryState>, m: Option<nat>, after: map<nat, BoundaryState>) {
    (forall b :: b in after <==> b in before || (b >= 1 && Reaches(m, b)))
    && (forall b :: b in after ==>
          after[b] == Measured(if b in before then before[b] else BoundaryState(true, 0), b, m))
  }

  /** The boundaries that alert. */
  ghost predicate Alerts(before: map<nat, BoundaryState>, m: Option<nat>, alerts: seq<nat>) {
    (forall i, j :: 0 <= i < j < |alerts| ==> alerts[i] < alerts[j])
    && (forall b :: b in alerts <==> b >= 1 && Reaches(m, b) && (b !in before || before[b].armed))
  }

  class DatabaseSizeAlerts {
    var states: map<nat, BoundaryState>

    ghost predicate Valid()
      reads this
    {
      0 !in states
    }

    constructor ()
      ensures Valid() && states == map[]
    {
      states := map[];
    }

    /** `record_database_size`; a negative size is rejected and changes nothing. */
    method RecordDatabaseSize(size: Option<int>) returns (valid: bool, alerts: seq<nat>)
      requires Valid()
      modifies this
      ensures Valid()
      ensures valid <==> (size.Some? ==> size.value >= 0)
      ensures !valid ==> states == old(states) && alerts == []
      ensures valid ==> Recorded(old(states), if size.Some? then Some(size.value as nat) else None, states)
      ensures valid ==> Alerts(old(states), if size.Some? then Some(size.value as nat) else None, alerts)
    {
      alerts := [];
      if size.None? {
        ResetStreaks();
        return true, [];
      }
      if size.value < 0 {
        return false, [];
      }
      valid := true;
      var existing := states.Keys;
      alerts := ReachBoundaries(size.value);
      CountBelow(existing, size.value);
    }

    method ResetStreaks()
      modifies this
      ensures Recorded(old(states), None, states)
    {
      var rest := states.Keys;
      while rest != {}
        invariant rest <= old(states).Keys && states.Keys == old(states).Keys
        invariant forall b :: b in states ==>
          states[b] == if b in rest then old(states)[b] else Measured(old(states)[b], b, None)
        decreases |rest|
      {
        var b :| b in rest;
        rest := rest - {b};
        states := states[b := states[b].(belowStreak := 0)];
      }
    }

    /** Boundaries the size reaches: disarmed, those that were armed or new alert. */
    method ReachBoundaries(size: nat) returns (alerts: seq<nat>)
      modifies this
      ensures forall b :: b in states <==> b in old(states) || (b >= 1 && Reaches(Some(size), b))
      ensures forall b :: b in states ==>
                states[b] == if b >= 1 && Reaches(Some(size), b) then BoundaryState(false, 0) else old(states)[b]
      ensures Alerts(old(states), Some(size), alerts)
    {
      alerts := [];
      var highest := size / TEN_GB;
      var multiplier := 1;
      while multiplier <= highest
        invariant 1 <= multiplier <= highest + 1
        invariant forall b :: b in states <==> b in old(states) || 1 <= b < multiplier
        invariant forall b :: b in states ==> states[b] == if 1 <= b < multiplier then BoundaryState(false, 0) else old(states)[b]
        invariant forall i, j :: 0 <= i < j < |alerts| ==> alerts[i] < alerts[j]
        invariant forall b :: b in alerts <==> 1 <= b < multiplier && (b !in old(states) || old(states)[b].armed)
      {
        var state := if multiplier in states then states[multiplier] else BoundaryState(true, 0);
        if state.armed {
          forall i | 0 <= i < |alerts| ensures alerts[i] < multiplier {
            var b := alerts[i];
            assert b in alerts;
          }
          alerts := alerts + [multiplier];
        }
        states := states[multiplier := BoundaryState(false, 0)];
        multiplier := multiplier + 1;
      }
      forall b: nat ensures b <= highest <==> Reaches(Some(size), b) {
        Division(size, b);
      }
    }

    /** Boundaries that were known and lie above the size: one more measurement below. */
    method CountBelow(existing: set<nat>, size: nat)
      requires existing <= states.Keys
      modifies this
      ensures states.Keys == old(states).Keys
      ensures forall b :: b in states ==>
                states[b] == if b in existing && !Reaches(Some(size), b) then Measured(old(states)[b], b, Some(size)) else old(states)[b]
    {
      var rest := existing;
      while rest != {}
        invariant rest <= existing && states.Keys == old(states).Keys
        invariant forall b :: b in states ==>
          states[b] == if b in existing && b !in rest && !Reaches(Some(size), b)
                       then Measured(old(states)[b], b, Some(size)) else old(states)[b]
        decreases |rest|
      {
        var b :| b in rest;
        rest := rest - {b};
        if b * TEN_GB > size {
          var streak := states[b].belowStreak + 1;
          states := states[b := BoundaryState(states[b].armed || streak >= REARM, streak)];
        }
      }
    }
  }

  // ----- histories

  /** Measurements just before now that were numeric and below the boundary. */
  function Quiet(history: seq<Option<nat>>, boundary: nat): nat {
    if history == [] || !Below(history[|history| - 1], boundary) then 0
    else Quiet(history[..|history| - 1], boundary) + 1
  }

  ghost predicate EverReached(history: seq<Option<nat>>, boundary: nat) {
    exists i :: 0 <= i < |history| && Reaches(history[i], boundary)
  }

  /** Seven consecutive numeric measurements below the boundary, and none at or above it since. */
  ghost predicate Rearmed(history: seq<Option<nat>>, boundary: nat) {
    exists w :: WindowAt(history, boundary, w)
  }

  predicate WindowAt(history: seq<Option<nat>>, boundary: nat, w: int) {
    0 <= w <= |history| - REARM
    && (forall i :: w <= i < w + REARM ==> Below(history[i], boundary))
    && (forall i :: w <= i < |history| ==> !Reaches(history[i], boundary))
  }

  lemma {:induction false} QuietCounts(history: seq<Option<nat>>, boundary: nat, n: nat)
    requires n <= |history|
    ensures n <= Quiet(history, boundary) <==> forall i :: |history| - n <= i < |history| ==> Below(history[i], boundary)
    decreases |history|
  {
    if n > 0 {
      var last := |history| - 1;
      QuietCounts(history[..last], boundary, n - 1);
      assert (forall i :: |history| - n <= i < |history| ==> Below(history[i], boundary))
        <==> Below(history[last], boundary) && forall i :: |history| - n <= i < last ==> Below(history[..last][i], boundary);
    }
  }

  /** How a measurement moves the rearmed condition. */
  lemma RearmedStep(history: seq<Option<nat>>, m: Option<nat>, boundary: nat)
    ensures Rearmed(history + [m], boundary) <==>
              !Reaches(m, boundary) && (Rearmed(history, boundary) || Quiet(history + [m], boundary) >= REARM)
  {
    var longer := history + [m];
    assert longer[..|history|] == history;
    if Rearmed(longer, boundary) {
      var w :| WindowAt(longer, boundary, w);
      assert !Reaches(longer[|history|], boundary);
      if w + REARM <= |history| {
        assert forall i :: w <= i < |history| ==> history[i] == longer[i];
        assert WindowAt(history, boundary, w);
      } else {
        QuietCounts(longer, boundary, REARM);
      }
    }
    if !Reaches(m, boundary) && Rearmed(history, boundary) {
      var w :| WindowAt(history, boundary, w);
      assert WindowAt(longer, boundary, w);
    }
    if Quiet(longer, boundary) >= REARM {
      QuietBound(longer, boundary);
      QuietCounts(longer, boundary, REARM);
      assert WindowAt(longer, boundary, |longer| - REARM);
    }
  }

  lemma {:induction false} QuietBound(history: seq<Option<nat>>, boundary: nat)
    ensures Quiet(history, boundary) <= |history|
  {
    if history != [] {
      QuietBound(history[..|history| - 1], boundary);
    }
  }

  /** The table says what the history says: exactly the boundaries reached so far are known, each with its
      current quiet streak, and armed exactly when the history rearmed it. */
  ghost predicate Tracks(states: map<nat, BoundaryState>, history: seq<Option<nat>>) {
    (forall b :: b in states <==> b >= 1 && EverReached(history, b))
    && (forall b :: b in states ==> states[b] == BoundaryState(Rearmed(history, b), Quiet(history, b)))
  }

  lemma ReachedStep(history: seq<Option<nat>>, m: Option<nat>, boundary: nat)
    ensures EverReached(history + [m], boundary) <==> EverReached(history, boundary) || Reaches(m, boundary)
  {
    var longer := history + [m];
    if EverReached(history, boundary) {
      var i :| 0 <= i < |history| && Reaches(history[i], boundary);
      assert Reaches(longer[i], boundary);
    }
    if Reaches(m, boundary) {
      assert Reaches(longer[|history|], boundary);
    }
  }

  lemma RecordedTracks(before: map<nat, BoundaryState>, history: seq<Option<nat>>, m: Option<nat>, after: map<nat, BoundaryState>)
    requires Tracks(before, history) && Recorded(before, m, after)
    ensures Tracks(after, history + [m])
  {
    hide Rearmed, EverReached;
    forall b: nat
      ensures b in after <==> b >= 1 && EverReached(history + [m], b)
      ensures b in after ==> after[b] == BoundaryState(Rearmed(history + [m], b), Quiet(history + [m], b))
    {
      ReachedStep(history, m, b);
      RearmedStep(history, m, b);
      assert (history + [m])[..|history|] == history;
    }
  }

  /** A boundary alerts at a measurement exactly when the size is at or above it and it was never reached
      before, or seven consecutive numeric measurements below it came since it was last reached. */
  lemma AlertsExactly(states: map<nat, BoundaryState>, history: seq<Option<nat>>, m: Option<nat>, alerts: seq<nat>, boundary: nat)
    requires Tracks(states, history) && Alerts(states, m, alerts)
    ensures boundary in alerts <==>
              boundary >= 1 && Reaches(m, boundary) && (!EverReached(history, boundary) || Rearmed(history, boundary))
  {
  }

  /** A whole sequence of measurements through one table, alerts measurement by measurement. */
  method Replay(measurements: seq<Option<nat>>) returns (alerts: seq<seq<nat>>)
    ensures |alerts| == |measurements|
    ensures forall i, b: nat :: 0 <= i < |measurements| ==>
              (b in alerts[i] <==> b >= 1 && Reaches(measurements[i], b)
                                   && (!EverReached(measurements[..i], b) || Rearmed(measurements[..i], b)))
  {
    hide Rearmed, EverReached, Recorded, Alerts, Tracks;
    var table := new DatabaseSizeAlerts();
    NothingMeasured();
    alerts := [];
    for i := 0 to |measurements|
      invariant |alerts| == i && table.Valid() && Tracks(table.states, measurements[..i])
      invariant forall j, b: nat :: 0 <= j < i ==>
        (b in alerts[j] <==> b >= 1 && Reaches(measurements[j], b)
                             && (!EverReached(measurements[..j], b) || Rearmed(measurements[..j], b)))
    {
      var m := measurements[i];
      ghost var before := table.states;
      var valid, raised := table.RecordDatabaseSize(if m.Some? then Some(m.value as int) else None);
      assert m == if m.Some? then Some(m.value) else None;
      forall b: nat
        ensures b in raised <==> b >= 1 && Reaches(m, b) && (!EverReached(measurements[..i], b) || Rearmed(measurements[..i], b))
      {
        AlertsExactly(before, measurements[..i], m, raised, b);
      }
      RecordedTracks(before, measurements[..i], m, table.states);
      assert measurements[..i] + [m] == measurements[..i + 1];
      alerts := alerts + [raised];
    }
  }

  lemma NothingMeasured()
    ensures Tracks(map[], [])
  {
  }

  /** The known boundaries are always the multiples of 10 GB from the first up to some highest one. */
  lemma KnownBoundariesArePrefix(states: map<nat, BoundaryState>, history: seq<Option<nat>>, lower: nat, higher: nat)
    requires Tracks(states, history) && 1 <= lower <= higher && higher in states
    ensures lower in states
  {
    var i :| 0 <= i < |history| && Reaches(history[i], higher);
    assert Reaches(history[i], lower);
  }
}
