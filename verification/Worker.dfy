/** One round of a scrape worker: the calls it makes under one lease, whatever it is answered. */
module Worker {
  import opened Options
  import opened Contracts
  import opened DenialPolicy

  /** A call to the coordinator, the portal or the artifact service. */
  datatype Call =
    | Advertise
    | ClaimLease
    | Reserve
    | Fetch(route: Route)
    | Record(permit: NetworkPermit, classification: Classification, bytes: int)
    | DeferLease(code: Code, at: Time)
    | FailLease(code: Code)
    | StoreArtifact
    | CompleteLease(outcome: CaptureOutcome)

  /** What the transport brings back: a page, a failure with evidence, or an unexpected error. */
  datatype Fetched = Page(outcome: CaptureOutcome, missing: bool, bytes: int) | Refused(evidence: ResponseEvidence, bytes: int) | Broken
  datatype Completion = Acknowledged | Lost | Unreachable

  /** What every call is answered; None stands for an exception.  `writer` tells whether there is an artifact writer
      to call, `lost` at which of its four readings the heartbeat thread has lost the lease. */
  datatype Answers = Answers(
    stopped: bool, lease: Option<ScrapeLease>, now: Time, permit: Option<NetworkPermit>, fetched: Fetched,
    decision: Option<RouteDecision>, writer: bool, stored: Option<int>, completions: seq<Completion>, lostAfterFetch: bool, lost: seq<bool>)
  {
    predicate Valid() { |completions| == 3 && |lost| == 3 }
  }

  /** The round as a sequence of calls. */
  function AfterReserve(a: Answers): seq<Call> {
    if a.permit.None? then []
    else if !a.permit.value.granted then [DeferLease(BudgetExhausted, a.permit.value.availableAt)]
    else if a.permit.value.route.Unassigned? then []
    else [Fetch(a.permit.value.route)] + AfterFetch(a, a.permit.value)
  }

  function AfterFetch(a: Answers, permit: NetworkPermit): seq<Call> {
    match a.fetched
    case Refused(evidence, bytes) =>
      if a.lostAfterFetch then []
      else
        [Record(permit, ClassifyResponse(permit.route, evidence), bytes)] +
        (if a.decision.None? || a.decision.value.retryDirectAt.Some? then []
         else if a.decision.value.sourceCooldownUntil.Some? then [DeferLease(SourceCooldown, a.decision.value.sourceCooldownUntil.value)]
         else [FailLease(TransportError)])
    case Broken =>
      if a.lostAfterFetch then []
      else [Record(permit, ClassifyResponse(permit.route, ResponseEvidence(None, Some(OtherTransportFailure), false, None, false)), 0),
            FailLease(TransportError)]
    case Page(outcome, missing, bytes) =>
      if a.lostAfterFetch then []
      else [Record(permit, Success, bytes)] + if a.decision.None? then [] else AfterPage(a, outcome, missing)
  }

  function AfterPage(a: Answers, outcome: CaptureOutcome, missing: bool): seq<Call> {
    var discovery := a.lease.Some? && a.lease.value.taskClass.DiscoveryCapture?;
    var stores := a.writer && (discovery || missing);
    (if stores then [StoreArtifact] else [])
    + if discovery && (!a.writer || a.stored.None?) then [FailLease(ArtifactUnavailable)]
      else Completes(a, outcome.(artifactId := if stores then a.stored else None), 0)
  }

  /** The completion and its retries: the same outcome, at most three times, until it is acknowledged or the
      lease is lost. */
  function Completes(a: Answers, outcome: CaptureOutcome, attempt: nat): seq<Call>
    decreases 3 - attempt
  {
    if attempt >= 3 || attempt >= |a.completions| || attempt >= |a.lost| || a.lost[attempt] then []
    else [CompleteLease(outcome)] + if a.completions[attempt].Unreachable? then Completes(a, outcome, attempt + 1) else []
  }

  lemma NextCompletion(a: Answers, outcome: CaptureOutcome, attempt: nat)
    requires attempt < 3 && attempt < |a.completions| && attempt < |a.lost|
    ensures Completes(a, outcome, attempt)
            == if a.lost[attempt] then []
               else [CompleteLease(outcome)] + if a.completions[attempt].Unreachable? then Completes(a, outcome, attempt + 1) else []
  {
  }

  lemma NoCompletion(a: Answers, outcome: CaptureOutcome, attempt: nat)
    ensures attempt >= 3 ==> Completes(a, outcome, attempt) == []
  {
  }

  class ScrapeWorker {
    const source: Portal
    const parsers: set<Hash>
    const heartbeat: int      // microseconds between renewals

    constructor (source: Portal, parsers: set<Hash>, heartbeat: int)
      ensures this.source == source && this.parsers == parsers && this.heartbeat == heartbeat
    {
      this.source, this.parsers, this.heartbeat := source, parsers, heartbeat;
    }

    /** Whether the worker goes on with the lease it was given. */
    predicate Accepts(lease: ScrapeLease, now: Time) {
      lease.expiresAt - now > heartbeat && lease.source == source && lease.releaseHash in parsers
      && !lease.taskClass.ArtifactRecovery?
    }

    /** The calls of one round. */
    function Round(a: Answers): seq<Call> {
      if a.stopped then []
      else if parsers == {} then [Advertise]
      else if a.lease.None? || !Accepts(a.lease.value, a.now) then [Advertise, ClaimLease]
      else [Advertise, ClaimLease, Reserve] + AfterReserve(a)
    }

    /** `run_once`, call by call. */
    method RunOnce(a: Answers) returns (worked: bool, calls: seq<Call>)
      requires a.Valid()
      ensures calls == Round(a)
      ensures worked <==> !a.stopped && parsers != {} && a.lease.Some?
    {
      hide AfterReserve;
      calls := [];
      if a.stopped {
        return false, calls;
      }
      calls := calls + [Advertise];
      if parsers == {} {
        return false, calls;
      }
      calls := calls + [ClaimLease];
      if a.lease.None? {
        return false, calls;
      }
      worked := true;
      var lease := a.lease.value;
      if lease.expiresAt - a.now <= heartbeat || lease.source != source || lease.releaseHash !in parsers || lease.taskClass.ArtifactRecovery? {
        return;
      }
      calls := calls + [Reserve];
      assert calls == [Advertise, ClaimLease, Reserve];
      if a.permit.None? {
        NoPermit(a);
        return;
      }
      var rest := Work(a, a.permit.value);
      calls := calls + rest;
    }

    /** What follows the answer to the reservation. */
    method Work(a: Answers, permit: NetworkPermit) returns (calls: seq<Call>)
      requires a.Valid() && a.permit == Some(permit)
      ensures calls == AfterReserve(a)
    {
      hide AfterFetch;
      if !permit.granted {
        return [DeferLease(BudgetExhausted, permit.availableAt)];
      }
      if permit.route.Unassigned? {
        return [];
      }
      var rest := Report(a, permit);
      calls := [Fetch(permit.route)] + rest;
    }

    /** The outcome of the fetch, and what the coordinator's decision on it leads to. */
    method Report(a: Answers, permit: NetworkPermit) returns (calls: seq<Call>)
      requires a.Valid()
      ensures calls == AfterFetch(a, permit)
    {
      hide AfterPage;
      calls := [];
      if a.lostAfterFetch {
        return;
      }
      match a.fetched
      case Refused(evidence, bytes) =>
        calls := [Record(permit, ClassifyResponse(permit.route, evidence), bytes)];
        if a.decision.None? || a.decision.value.retryDirectAt.Some? {
          return;
        }
        calls := calls + [if a.decision.value.sourceCooldownUntil.Some?
                          then DeferLease(SourceCooldown, a.decision.value.sourceCooldownUntil.value) else FailLease(TransportError)];
      case Broken =>
        var evidence := ResponseEvidence(None, Some(OtherTransportFailure), false, None, false);
        calls := [Record(permit, ClassifyResponse(permit.route, evidence), 0), FailLease(TransportError)];
      case Page(outcome, missing, bytes) =>
        calls := [Record(permit, Success, bytes)];
        if a.decision.None? {
          return;
        }
        var rest := Deliver(a, outcome, missing);
        calls := calls + rest;
    }

    /** The artifact, if one is needed, and up to three completions. */
    method Deliver(a: Answers, outcome: CaptureOutcome, missing: bool) returns (calls: seq<Call>)
      requires a.Valid()
      ensures calls == AfterPage(a, outcome, missing)
    {
      calls := [];
      var discovery := a.lease.Some? && a.lease.value.taskClass.DiscoveryCapture?;
      var artifact: Option<int> := None;
      if discovery {
        if !a.writer {
          return [FailLease(ArtifactUnavailable)];
        }
        calls := [StoreArtifact];
        artifact := a.stored;
        if artifact.None? {
          return calls + [FailLease(ArtifactUnavailable)];
        }
      } else if missing && a.writer {
        calls := [StoreArtifact];
        artifact := a.stored;
      }
      var completions := CompleteWithRetries(a, outcome.(artifactId := artifact));
      calls := calls + completions;
    }

    /** The retries after lost answers. */
    method CompleteWithRetries(a: Answers, outcome: CaptureOutcome) returns (calls: seq<Call>)
      requires a.Valid()
      ensures calls == Completes(a, outcome, 0)
    {
      hide Completes;
      calls := [];
      var attempt: nat := 0;
      var lost, done := false, false;
      while attempt < 3 && !done && !lost
        invariant attempt <= 3
        invariant calls + (if done || lost then [] else Completes(a, outcome, attempt)) == Completes(a, outcome, 0)
        decreases 3 - attempt, !done, !lost
      {
        NextCompletion(a, outcome, attempt);
        if a.lost[attempt] {
          lost := true;
        } else {
          calls := calls + [CompleteLease(outcome)];
          match a.completions[attempt]
          case Acknowledged => done := true;
          case Lost => lost := true;
          case Unreachable => attempt := attempt + 1;
        }
      }
      NoCompletion(a, outcome, attempt);
      assert calls + [] == calls;
    }
  }

  lemma NoPermit(a: Answers)
    requires a.permit.None?
    ensures AfterReserve(a) == []
  {
  }

  // ----- what every round keeps

  function Fetches(calls: seq<Call>): nat {
    if calls == [] then 0 else (if calls[0].Fetch? then 1 else 0) + Fetches(calls[1..])
  }

  function Records(calls: seq<Call>): nat {
    if calls == [] then 0 else (if calls[0].Record? then 1 else 0) + Records(calls[1..])
  }

  function Completions(calls: seq<Call>): nat {
    if calls == [] then 0 else (if calls[0].CompleteLease? then 1 else 0) + Completions(calls[1..])
  }

  lemma {:induction false} CompletesOnly(a: Answers, outcome: CaptureOutcome, attempt: nat)
    ensures var calls := Completes(a, outcome, attempt);
            Fetches(calls) == 0 && Records(calls) == 0 && Completions(calls) == |calls| && |calls| <= (if attempt <= 3 then 3 - attempt else 0)
            && forall i :: 0 <= i < |calls| ==> calls[i] == CompleteLease(outcome)
    decreases 3 - attempt
  {
    var calls := Completes(a, outcome, attempt);
    if calls != [] {
      CompletesOnly(a, outcome, attempt + 1);
      assert calls[1..] == if a.completions[attempt].Unreachable? then Completes(a, outcome, attempt + 1) else [];
    }
  }

  lemma {:induction false} Tally(a: seq<Call>, b: seq<Call>)
    ensures Fetches(a + b) == Fetches(a) + Fetches(b)
    ensures Records(a + b) == Records(a) + Records(b)
    ensures Completions(a + b) == Completions(a) + Completions(b)
    decreases |a|
  {
    if a == [] {
      assert a + b == b;
    } else {
      Tally(a[1..], b);
      assert (a + b)[1..] == a[1..] + b;
    }
  }

  lemma PageCalls(a: Answers, outcome: CaptureOutcome, missing: bool)
    ensures var calls := AfterPage(a, outcome, missing);
            Fetches(calls) == 0 && Records(calls) == 0 && Completions(calls) <= 3
            && (forall i, j :: 0 <= i < |calls| && 0 <= j < |calls| && calls[i].CompleteLease? && calls[j].CompleteLease? ==> calls[i] == calls[j])
            && (forall i :: 0 <= i < |calls| ==> !calls[i].DeferLease? && !calls[i].Reserve?)
            && ((exists i :: 0 <= i < |calls| && calls[i].FailLease?) ==> Completions(calls) == 0)
  {
    hide Completes, Fetches, Records, Completions;
    StoreCalls();
    var discovery := a.lease.Some? && a.lease.value.taskClass.DiscoveryCapture?;
    var stores := a.writer && (discovery || missing);
    var head := if stores then [StoreArtifact] else [];
    if discovery && (!a.writer || a.stored.None?) {
      Tally(head, [FailLease(ArtifactUnavailable)]);
    } else {
      var final := outcome.(artifactId := if stores then a.stored else None);
      CompletesOnly(a, final, 0);
      Tally(head, Completes(a, final, 0));
    }
  }

  lemma StoreCalls()
    ensures Fetches([]) == Records([]) == Completions([]) == 0
    ensures Fetches([StoreArtifact]) == Records([StoreArtifact]) == Completions([StoreArtifact]) == 0
    ensures var calls := [FailLease(ArtifactUnavailable)]; Fetches(calls) == Records(calls) == Completions(calls) == 0
  {
  }

  /** The calls after a reservation: the fetch comes first, its outcome second, the rest neither. */
  lemma ReserveCalls(a: Answers)
    ensures var calls := AfterReserve(a);
            Fetches(calls) <= 1 && Records(calls) <= Fetches(calls) && Completions(calls) <= 3 * Records(calls)
            && (forall i :: 0 <= i < |calls| && calls[i].Fetch? ==>
                  i == 0 && a.permit.Some? && a.permit.value.granted && calls[i].route == a.permit.value.route)
            && (forall i :: 0 <= i < |calls| && calls[i].Record? ==> i == 1 && calls[0].Fetch? && a.permit == Some(calls[i].permit))
            && (forall i :: 0 <= i < |calls| && calls[i].DeferLease? && calls[i].code.BudgetExhausted? ==>
                  a.permit.Some? && !a.permit.value.granted && Fetches(calls) == 0)
            && (forall i, j :: 0 <= i < |calls| && 0 <= j < |calls| && calls[i].CompleteLease? && calls[j].CompleteLease? ==>
                  calls[i] == calls[j] && |calls| > 1 && calls[1].Record? && calls[1].classification.Success?)
  {
    var calls := AfterReserve(a);
    if calls == [] {
    } else if calls[0].Fetch? {
      FetchCalls(a, a.permit.value);
      assert calls[1..] == AfterFetch(a, a.permit.value);
    } else {
      assert calls[1..] == [];
    }
  }

  lemma FetchCalls(a: Answers, permit: NetworkPermit)
    ensures var calls := AfterFetch(a, permit);
            Fetches(calls) == 0 && Records(calls) <= 1 && Completions(calls) <= 3 * Records(calls)
            && (forall i :: 0 <= i < |calls| ==> !calls[i].Fetch?)
            && (forall i :: 0 <= i < |calls| && calls[i].Record? ==> i == 0 && calls[i].permit == permit)
            && (forall i :: 0 <= i < |calls| && calls[i].DeferLease? ==> calls[i].code.SourceCooldown?)
            && (forall i, j :: 0 <= i < |calls| && 0 <= j < |calls| && calls[i].CompleteLease? && calls[j].CompleteLease? ==>
                  calls[i] == calls[j] && calls[0].Record? && calls[0].classification.Success?)
  {
    var calls := AfterFetch(a, permit);
    if calls != [] {
      if a.fetched.Page? && a.decision.Some? {
        PageCalls(a, a.fetched.outcome, a.fetched.missing);
        NoCalls(AfterPage(a, a.fetched.outcome, a.fetched.missing));
        assert calls[1..] == AfterPage(a, a.fetched.outcome, a.fetched.missing);
      } else if |calls| == 2 {
        assert calls == [calls[0]] + [calls[1]];
        Tally([calls[0]], [calls[1]]);
        OneCall(calls[0]);
        OneCall(calls[1]);
      } else {
        assert calls[1..] == [];
      }
    }
  }

  lemma OneCall(c: Call)
    ensures Fetches([c]) == (if c.Fetch? then 1 else 0) && Records([c]) == (if c.Record? then 1 else 0)
    ensures Completions([c]) == if c.CompleteLease? then 1 else 0
  {
    assert [c][1..] == [];
  }

  lemma {:induction false} NoCalls(calls: seq<Call>)
    ensures Fetches(calls) == 0 ==> forall i :: 0 <= i < |calls| ==> !calls[i].Fetch?
    ensures Records(calls) == 0 ==> forall i :: 0 <= i < |calls| ==> !calls[i].Record?
    decreases |calls|
  {
    if calls != [] {
      NoCalls(calls[1..]);
      assert forall i :: 0 < i < |calls| ==> calls[i] == calls[1..][i - 1];
    }
  }

  /** One round fetches at most once, and only under a granted permit on its route; reports at most one network
      outcome, for that fetch; gives the attempt back as out of budget only if the permit was refused, and then
      fetches nothing; and completes at most three times, always with the same outcome and only after the
      fetch was recorded as a success. */
  lemma OneFetchPerPermit(worker: ScrapeWorker, a: Answers)
    ensures var calls := worker.Round(a);
            Fetches(calls) <= 1 && Records(calls) <= Fetches(calls) && Completions(calls) <= 3 * Records(calls)
            && (forall i :: 0 <= i < |calls| && calls[i].Fetch? ==>
                  a.permit.Some? && a.permit.value.granted && calls[i].route == a.permit.value.route)
            && (forall i :: 0 <= i < |calls| && calls[i].Record? ==> calls[i - 1].Fetch? && a.permit == Some(calls[i].permit))
            && (forall i :: 0 <= i < |calls| && calls[i].DeferLease? && calls[i].code.BudgetExhausted? ==>
                  a.permit.Some? && !a.permit.value.granted && Fetches(calls) == 0)
            && (forall i, j :: 0 <= i < |calls| && 0 <= j < |calls| && calls[i].CompleteLease? && calls[j].CompleteLease? ==>
                  calls[i] == calls[j] && calls[4].Record? && calls[4].classification.Success?)
  {
    hide AfterReserve;
    var calls := worker.Round(a);
    var head := [Advertise, ClaimLease, Reserve];
    assert Fetches([]) == 0;
    if |calls| >= 3 {
      ReserveCalls(a);
      Tally(head, AfterReserve(a));
      Preamble(head);
      assert forall i :: 3 <= i < |calls| ==> calls[i] == AfterReserve(a)[i - 3];
    } else {
      Preamble(calls);
    }
  }

  lemma {:induction false} Preamble(calls: seq<Call>)
    requires forall i :: 0 <= i < |calls| ==> calls[i].Advertise? || calls[i].ClaimLease? || calls[i].Reserve?
    ensures Fetches(calls) == 0 && Records(calls) == 0 && Completions(calls) == 0
  {
    if calls != [] {
      Preamble(calls[1..]);
    }
  }
  // ----- which call follows which answer

  predicate IsDiscovery(a: Answers) { a.lease.Some? && a.lease.value.taskClass == DiscoveryCapture }

  /** A page was fetched and its success is on record. */
  predicate PageRecorded(a: Answers) { a.fetched.Page? && !a.lostAfterFetch && a.decision.Some? }

  /** A discovery without its artifact. */
  predicate Unkept(a: Answers) { IsDiscovery(a) && (!a.writer || a.stored.None?) }

  predicate Stores(a: Answers) { a.writer && (IsDiscovery(a) || (a.fetched.Page? && a.fetched.missing)) }

  /** The calls that the page leads to. */
  predicate PageLeadsTo(a: Answers, call: Call)
    requires a.Valid()
  {
    PageRecorded(a)
    && match call
       case StoreArtifact => Stores(a)
       case FailLease(code) => Unkept(a) && code == ArtifactUnavailable
       case CompleteLease(outcome) => !Unkept(a) && !a.lost[0] && outcome == a.fetched.outcome.(artifactId := if Stores(a) then a.stored else None)
       case _ => false
  }

  /** The portal or the proxy refused the request, and the coordinator granted no direct retry. */
  predicate RefusedForGood(a: Answers) {
    a.fetched.Refused? && !a.lostAfterFetch && a.decision.Some? && a.decision.value.retryDirectAt.None?
  }

  /** The calls that the fetch leads to: what came back is reported; a refusal without a direct retry puts the task off
      until the source's cooldown ends, or fails it where there is none; a broken transport fails it. */
  predicate FetchLeadsTo(a: Answers, permit: NetworkPermit, call: Call)
    requires a.Valid()
  {
    PageLeadsTo(a, call)
    || match call
       case Record(p, c, bytes) =>
         !a.lostAfterFetch && p == permit
         && (match a.fetched
             case Page(_, _, n) => c == Success && bytes == n
             case Refused(evidence, n) => c == ClassifyResponse(permit.route, evidence) && bytes == n
             case Broken => c == TransportFailure && bytes == 0)
       case DeferLease(code, at) => RefusedForGood(a) && code == SourceCooldown && a.decision.value.sourceCooldownUntil == Some(at)
       case FailLease(code) =>
         code == TransportError
         && ((a.fetched.Broken? && !a.lostAfterFetch) || (RefusedForGood(a) && a.decision.value.sourceCooldownUntil.None?))
       case _ => false
  }

  /** The calls of a round. */
  predicate LeadsTo(worker: ScrapeWorker, a: Answers, call: Call)
    requires a.Valid()
  {
    var ready := !a.stopped && worker.parsers != {};
    var taken := ready && a.lease.Some?
                 && a.now + worker.heartbeat < a.lease.value.expiresAt && a.lease.value.source == worker.source
                 && a.lease.value.releaseHash in worker.parsers && a.lease.value.taskClass != ArtifactRecovery;
    var answered := taken && a.permit.Some?;
    var started := answered && a.permit.value.granted && a.permit.value.route != Unassigned;
    (call == Advertise && !a.stopped) || (call == ClaimLease && ready) || (call == Reserve && taken)
    || (answered && !a.permit.value.granted && call == DeferLease(BudgetExhausted, a.permit.value.availableAt))
    || (started && (call == Fetch(a.permit.value.route) || FetchLeadsTo(a, a.permit.value, call)))
  }

  lemma CompletionCalls(a: Answers, outcome: CaptureOutcome, call: Call)
    requires a.Valid()
    ensures call in Completes(a, outcome, 0) <==> !a.lost[0] && call == CompleteLease(outcome)
  {
    CompletesOnly(a, outcome, 0);
    NextCompletion(a, outcome, 0);
    hide Completes;
  }

  lemma PageCallsExactly(a: Answers, call: Call)
    requires a.Valid() && PageRecorded(a)
    ensures call in AfterPage(a, a.fetched.outcome, a.fetched.missing) <==> PageLeadsTo(a, call)
  {
    hide Completes;
    CompletionCalls(a, a.fetched.outcome.(artifactId := if Stores(a) then a.stored else None), call);
  }

  lemma FetchCallsExactly(a: Answers, permit: NetworkPermit, call: Call)
    requires a.Valid()
    ensures call in AfterFetch(a, permit) <==> FetchLeadsTo(a, permit, call)
  {
    hide AfterPage, PageLeadsTo;
    if PageRecorded(a) {
      PageCallsExactly(a, call);
    } else {
      NotFromPage(a, call);
    }
    BrokenIsTransport(permit.route);
    hide ClassifyResponse;
  }

  lemma NotFromPage(a: Answers, call: Call)
    requires a.Valid() && !PageRecorded(a)
    ensures !PageLeadsTo(a, call)
  {
  }

  lemma BrokenIsTransport(route: Route)
    ensures ClassifyResponse(route, ResponseEvidence(None, Some(OtherTransportFailure), false, None, false)) == TransportFailure
  {
  }

  /** Exactly these calls are made in a round: each follows from the answers so far. */
  lemma CallsExactly(worker: ScrapeWorker, a: Answers, call: Call)
    requires a.Valid()
    ensures call in worker.Round(a) <==> LeadsTo(worker, a, call)
  {
    hide AfterFetch, FetchLeadsTo;
    if a.permit.Some? {
      FetchCallsExactly(a, a.permit.value, call);
    }
  }
}
