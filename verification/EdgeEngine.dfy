/** The runner: recovers expired leases, then claims and settles up to one batch of commands. */
module EdgeEngine {
  import opened Common
  import opened EdgeTables
  import opened EdgeCommandInvariant
  import opened EdgeInvariant
  import opened EdgeRecovery
  import opened EdgeTransactions
  import opened EdgeOutcomes
  import opened EdgeStore
  import opened EdgeDecision
  import opened EdgeSettlement
  import opened EdgeRuns
  import opened EdgeWorld

  datatype RunSummary = RunSummary(
    recoveredLeases: nat, claimed: nat, succeeded: nat, retryableFailures: nat, permanentFailures: nat,
    ambiguousOutcomes: nat, recoveryProbes: nat, manualReviews: nat)

  // ---------- The pass as moves of a history ----------

  /** No claim was taken and none ended between the two. */
  predicate Quiet(h: History, longer: History) {
    Taken(longer) == Taken(h) && Committed(longer) == Committed(h)
  }

  lemma Recovering(h: History, at: int) returns (longer: History)
    requires h.Lawful() && h.Now().phase.Idle?
    ensures longer.Lawful() && longer.Extends(h)
    ensures longer.Now() == h.Now().(tables := Recovered(h.Now().tables, at, ExpiredIds(h.Now().tables, at)))
    ensures Quiet(h, longer)
  {
    var t := h.Now().tables;
    longer := Moved(h, Recover(at), h.Now().(tables := Recovered(t, at, ExpiredIds(t, at))));
    assert h.Extends(h);
  }

  lemma Taking(first: History, h: History, u: Tables, claim: ClaimedCommand, at: int, until: int, maxAttempts: nat)
    returns (longer: History)
    requires h.Lawful() && h.Extends(first) && h.Now().phase.Idle?
      && ClaimStep(h.Now().tables, u, claim, at, until, maxAttempts)
    ensures longer.Lawful() && longer.Extends(first) && longer.Now() == World(u, Holding(claim), h.Now().accepted)
    ensures Taken(longer) == Taken(h) + [claim] && Committed(longer) == Committed(h)
  {
    hide ClaimStep;
    longer := Moved(h, Take(at, until, maxAttempts, claim), World(u, Holding(claim), h.Now().accepted));
  }

  lemma Reporting(first: History, h: History, claim: ClaimedCommand, decision: Decision) returns (longer: History)
    requires h.Lawful() && h.Extends(first)
    ensures longer.Lawful() && longer.Extends(first)
    ensures longer.Now() == h.Now().(tables := WithDecidedHealth(h.Now().tables, claim, decision))
    ensures Quiet(h, longer)
  {
    longer := h;
    if decision.health.Some? {
      longer := Moved(h, Operate(Heartbeat(claim.request.deviceId, decision.health.value, true)),
        h.Now().(tables := WithDecidedHealth(h.Now().tables, claim, decision)));
    }
  }

  /** The device does what it does: `accepts` says how often it will then have accepted the command. */
  lemma Consulting(first: History, h: History, config: EngineConfig, session: Session, now: int, latest: int,
      accepts: (ClaimedCommand, nat) -> nat)
    returns (longer: History)
    requires h.Lawful() && h.Extends(first) && h.Now().phase.Holding?
    ensures longer.Lawful() && longer.Extends(first) && longer.Now().tables == h.Now().tables
    ensures longer.Now().phase ==
      Decided(h.Now().phase.claim, Decide(config, h.Now().phase.claim, session, now, latest).disposition)
    ensures Quiet(h, longer)
  {
    hide Decide;
    var w := h.Now();
    var id := w.phase.claim.request.commandId;
    var v := World(w.tables, Decided(w.phase.claim, Decide(config, w.phase.claim, session, now, latest).disposition),
      w.accepted[id := accepts(w.phase.claim, w.Accepted(id))]);
    longer := Moved(h, Consult(config, session, now, latest), v);
  }

  lemma Settling(first: History, h: History, u: Tables, limits: RetryLimits, at: int) returns (longer: History)
    requires h.Lawful() && h.Extends(first) && h.Now().phase.Decided?
    requires u == match h.Now().phase.disposition
      case Ok(disposition) =>
        After(h.Now().tables, FinishTx(h.Now().tables, h.Now().phase.claim, disposition, limits, at))
      case Err(_) => h.Now().tables
    ensures longer.Lawful() && longer.Extends(first) && longer.Now() == World(u, Idle, h.Now().accepted)
    ensures Taken(longer) == Taken(h)
    ensures Committed(longer) == Committed(h) + EndedBy(h.Now(), Settle(limits, at))
    ensures EndedBy(h.Now(), Settle(limits, at)) == [] ==> StuckOnAClaim(longer)
  {
    hide FinishTx;
    longer := Moved(h, Settle(limits, at), World(u, Idle, h.Now().accepted));
  }

  /** A command whose device does not deduplicate was accepted at most once more than operators sent it back. */
  predicate WithinRetries(w: World) {
    forall id :: id in w.tables.commands && !w.tables.commands[id].request.policy.DeviceDeduplicatedReplay? ==>
      w.Accepted(id) <= 1 + Retries(w.tables.commands[id].events)
  }

  lemma {:induction false} HonestIsWithinRetries(h: History)
    requires h.Lawful() && h.Honest()
    ensures WithinRetries(h.Now())
  {
    var w := h.Now();
    forall id | id in w.tables.commands && !w.tables.commands[id].request.policy.DeviceDeduplicatedReplay?
      ensures w.Accepted(id) <= 1 + Retries(w.tables.commands[id].events)
    {
      EffectsWithinOperatorRetries(h, id);
    }
  }

  /** One transaction of an operator, the cloud or a health report, on the shared store. */
  method Perform(store: EdgeStore, op: Foreign)
    requires store.Valid()
    modifies store
    ensures store.Valid() && Evolves(old(store.View()), store.View())
    ensures store.View() == Operated(old(store.View()), op)
  {
    hide Inv, Evolves;
    match op {
      case Register(d, descriptor, reason) => var _ := store.RegisterDevice(d, descriptor, reason);
      case ChangeMode(d, mode, reason, at) => var _ := store.ChangeControlMode(d, mode, reason, at);
      case Heartbeat(d, health, wellFormed) => var _ := store.RecordHeartbeat(d, health, wellFormed);
      case Submit(request, at) => var _ := store.Submit(request, at);
      case Resolve(id, reason) => var _ := store.ResolveManually(id, reason);
      case Cancel(id, reason) => var _ := store.CancelCommand(id, reason);
      case Retry(id, reason, at) => var _ := store.RetryAfterReview(id, reason, at);
    }
  }

  /** What other processes commit between two transactions of the runner. */
  method Interleave(store: EdgeStore, ops: seq<Foreign>, ghost first: History, ghost h: History)
    returns (ghost longer: History)
    requires store.Valid() && h.Lawful() && h.Extends(first) && h.Now().tables == store.View()
    modifies store
    ensures store.Valid() && Evolves(old(store.View()), store.View())
    ensures store.View() == OperatedAll(old(store.View()), ops)
    ensures longer.Lawful() && longer.Extends(first) && longer.Now() == h.Now().(tables := store.View())
    ensures Quiet(h, longer)
  {
    hide Inv, Evolves, Operated;
    longer := h;
    ghost var t := store.View();
    Unchanged(t);
    for i := 0 to |ops|
      invariant store.Valid() && Evolves(t, store.View()) && store.View() == OperatedAll(t, ops[..i])
      invariant longer.Lawful() && longer.Extends(first) && longer.Now() == h.Now().(tables := store.View())
      invariant Quiet(h, longer)
    {
      ghost var before := store.View();
      Perform(store, ops[i]);
      EvolvesTransitively(t, before, store.View());
      assert ops[..i + 1][..i] == ops[..i];
      longer := Moved(longer, Operate(ops[i]), longer.Now().(tables := store.View()));
    }
    assert ops[..|ops|] == ops;
  }

  function Claims(endings: seq<Ending>): seq<ClaimedCommand> {
    seq(|endings|, i requires 0 <= i < |endings| => endings[i].claim)
  }

  /** The summary of a pass that has recovered the leases that ran out and claimed nothing yet. */
  function AfterRecovery(t: Tables, at: int): RunSummary {
    RunSummary(|RanOut(t, at)|, 0, 0, 0, 0, 0, 0, |RanOutUnder(t, at, ReviewManually)|)
  }

  /** The last thing that happened is that a claim could not be ended. */
  predicate StuckOnAClaim(h: History) {
    h.Moved? && h.move.Settle? && EndedBy(h.past.Now(), h.move) == []
  }

  // ---------- The figures of a pass ----------

  datatype Figure =
    | Successes | RetryableFailures | PermanentFailures | AmbiguousOutcomes | RecoveryProbes | ManualReviews

  function Read(summary: RunSummary, figure: Figure): nat {
    match figure
    case Successes => summary.succeeded
    case RetryableFailures => summary.retryableFailures
    case PermanentFailures => summary.permanentFailures
    case AmbiguousOutcomes => summary.ambiguousOutcomes
    case RecoveryProbes => summary.recoveryProbes
    case ManualReviews => summary.manualReviews
  }

  /** The end of this claim adds one to the figure. */
  predicate AddsTo(e: Ending, session: Session, limits: RetryLimits, figure: Figure) {
    match figure
    case Successes => e.disposition.Success?
    case RetryableFailures => e.disposition.RetryLater?
    case PermanentFailures => e.disposition == Reject
    case AmbiguousOutcomes => e.disposition.Uncertain?
    case RecoveryProbes => e.claim.kind == RecoveryProbe && Reached(e.claim, session)
    case ManualReviews =>
      || e.disposition == Review
      || (e.disposition.RetryLater? && LastTry(e.claim, limits))
      || (e.disposition.Uncertain? && e.claim.request.policy == ReviewManually)
  }

  function Number(endings: seq<Ending>, sessions: ClaimedCommand -> Session, limits: RetryLimits, figure: Figure): nat {
    if endings == [] then 0
    else
      var e := endings[|endings| - 1];
      Number(endings[..|endings| - 1], sessions, limits, figure)
        + if AddsTo(e, sessions(e.claim), limits, figure) then 1 else 0
  }

  /** An engine exists only under a configuration that can make progress. */
  method Create(store: EdgeStore, config: EngineConfig, latest: int) returns (r: Result<EdgeEngine, EngineError>)
    ensures r.Ok? <==>
      && config.lease >= 1 && config.maxAttempts >= 1 && config.maxRecoveryProbes >= 1
      && 1 <= config.retryDelay <= config.retryDelayCap && 1 <= config.batchSize <= 1000
    ensures r.Ok? ==> r.value.store == store && r.value.config == config && r.value.latest == latest
    ensures r.Err? ==> r.error == InvalidConfig
  {
    if config.lease == 0 {
      return Err(InvalidConfig);
    }
    if config.retryDelay == 0 {
      return Err(InvalidConfig);
    }
    if config.retryDelayCap < config.retryDelay {
      return Err(InvalidConfig);
    }
    if config.maxAttempts == 0 {
      return Err(InvalidConfig);
    }
    if config.maxRecoveryProbes == 0 {
      return Err(InvalidConfig);
    }
    if !(1 <= config.batchSize <= 1_000) {
      return Err(InvalidConfig);
    }
    var engine := new EdgeEngine(store, config, latest);
    return Ok(engine);
  }

  class EdgeEngine {
    const store: EdgeStore
    const config: EngineConfig
    /** The last instant the clock can represent, in nanoseconds. */
    const latest: int

    constructor (store: EdgeStore, config: EngineConfig, latest: int)
      ensures this.store == store && this.config == config && this.latest == latest
    {
      this.store, this.config, this.latest := store, config, latest;
    }

    /** The summary after a claim ended this way. */
    function Ended(summary: RunSummary, claim: ClaimedCommand, disposition: Disposition, now: int): RunSummary {
      var completion := CompletionFor(claim, disposition, config.Limits(), Millis(now));
      summary.(succeeded := summary.succeeded + (if disposition.Success? then 1 else 0),
               retryableFailures := summary.retryableFailures + (if disposition.RetryLater? then 1 else 0),
               permanentFailures := summary.permanentFailures + (if disposition.Reject? then 1 else 0),
               ambiguousOutcomes := summary.ambiguousOutcomes + (if disposition.Uncertain? then 1 else 0),
               manualReviews := summary.manualReviews
                 + (if completion.Ok? && completion.value.target.ManualReview? then 1 else 0))
    }

    /** The summary once the adapter was asked: a probe counts exactly if the adapter got it. */
    function Probed(summary: RunSummary, claim: ClaimedCommand, decision: Decision): RunSummary {
      if decision.contacted && claim.kind.RecoveryProbe?
      then summary.(recoveryProbes := summary.recoveryProbes + 1)
      else summary
    }

    /** What ending the claim with this disposition means for the tables, the result and the summary. */
    ghost predicate Settles(t: Tables, u: Tables, claim: ClaimedCommand, disposition: Result<Disposition, EngineError>,
        now: int, summary: RunSummary, r: Result<RunSummary, EngineError>)
    {
      && (disposition.Err? ==> r.Err? && u == t)
      && (disposition.Ok? ==>
            && u == After(t, FinishTx(t, claim, disposition.value, config.Limits(), Millis(now)))
            && (r.Ok? <==>
                  HoldsLease(t, claim) && CompletionFor(claim, disposition.value, config.Limits(), Millis(now)).Ok?))
      && (r.Ok? ==> r.value == Ended(summary, claim, disposition.value, now))
    }

    /** The row of a command whose claim was ended, from the adapter's answers alone. */
    predicate AnsweredRow(c: Command, claim: ClaimedCommand, session: Session, now: int) {
      && (FailedWith(claim, session, Retryable) || Away(claim, session) ==>
            if LastTry(claim, RetryLimits(config.maxAttempts, config.maxRecoveryProbes)) then c.state == ManualReview
            else
              && c.state == (if claim.kind == Execute then RetryWait else RecoveryWait)
              && InMillis(c.nextAttemptAt, RetryInstant(config, claim, now)))
      && (FailedWith(claim, session, Ambiguous) ==>
            && InMillis(c.nextAttemptAt, RetryInstant(config, claim, now))
            && (claim.request.policy == DeviceDeduplicatedReplay ==> c.state == RetryWait)
            && (claim.request.policy == ProbeThenRetry ==> c.state == RecoveryWait)
            && (claim.request.policy == ReviewManually ==> c.state == ManualReview))
      && (claim.kind == Execute && FailedWith(claim, session, Permanent) ==> c.state == Failed)
      && (!HasAdapter(claim.request, session.adapter) || session.health == Reported(Faulted, true) ==>
            c.state == ManualReview)
      && (Reached(claim, session) && claim.kind == Execute && session.execute.Executed? ==>
            c.state == Succeeded && c.result == Some(session.execute.result))
    }

    /** What an ended claim leaves: its command as answered, its device automatic unless a person must look at it. */
    predicate Answered(u: Tables, claim: ClaimedCommand, session: Session, now: int) {
      && claim.request.commandId in u.commands && claim.request.deviceId in u.devices
      && AnsweredRow(u.commands[claim.request.commandId], claim, session, now)
      && u.devices[claim.request.deviceId].mode ==
         (if u.commands[claim.request.commandId].state == ManualReview then ManualFallback else Automatic)
    }

    lemma RowAsAnswered(c: Command, claim: ClaimedCommand, session: Session, now: int)
      requires var decided := Decide(config, claim, session, now, latest).disposition;
        && decided.Ok? && EndsIn(claim, decided.value, config.Limits(), c.state)
        && c.nextAttemptAt == DueAt(decided.value, Millis(now))
        && (decided.value.Success? ==> c.result == Some(decided.value.result))
      ensures AnsweredRow(c, claim, session, now)
    {
      hide Backoff.Delay;
    }

    lemma EndedAsAnswered(t: Tables, u: Tables, claim: ClaimedCommand, session: Session, now: int)
      requires Inv(t) && Issued(t, claim) && HoldsLease(t, claim)
      requires var decided := Decide(config, claim, session, now, latest).disposition;
        decided.Ok? && FinishTx(t, claim, decided.value, config.Limits(), Millis(now)) == Ok(u)
      ensures Answered(u, claim, session, now)
    {
      assert RowOk(t, claim.request.commandId);
      assert t.devices[claim.request.deviceId].mode == Automatic;
      hide Inv, RowOk, Issued, FinishTx, Decide, AnsweredRow, EndsIn, DueAt, NotedAs;
      EndLeaves(t, claim, Decide(config, claim, session, now, latest).disposition.value, config.Limits(), Millis(now));
      RowAsAnswered(u.commands[claim.request.commandId], claim, session, now);
    }

    method HandleFailure(claim: ClaimedCommand, failure: FailureClass, now: int, summary: RunSummary)
      returns (r: Result<RunSummary, EngineError>)
      requires store.Valid() && Issued(store.View(), claim)
      modifies store
      ensures store.Valid() && Evolves(old(store.View()), store.View())
      ensures
        Settles(old(store.View()), store.View(), claim, FailureDecision(config, claim, failure, now, latest),
          now, summary, r)
    {
      hide Inv, Evolves, Issued, HoldsLease, FinishedTables;
      Unchanged(store.View());
      match failure {
        case Retryable => r := RetryOrReview(claim, now, summary);
        case Permanent =>
          if claim.kind.RecoveryProbe? {
            r := SendToReview(claim, now, summary);
          } else {
            var done := store.PermanentFailure(claim, Millis(now));
            match done {
              case Err(e) => return Err(Store(e));
              case Ok(_) => return Ok(summary.(permanentFailures := summary.permanentFailures + 1));
            }
          }
        case Ambiguous =>
          var next := NextAttemptAt(config, RetryOrdinal(claim), now, latest);
          match next {
            case Err(e) => return Err(e);
            case Ok(at) =>
              var manual := store.AmbiguousFailure(claim, at, Millis(now));
              match manual {
                case Err(e) => return Err(Store(e));
                case Ok(review) =>
                  return Ok(summary.(ambiguousOutcomes := summary.ambiguousOutcomes + 1,
                                     manualReviews := summary.manualReviews + if review then 1 else 0));
              }
          }
      }
    }

    /** The end of a claim whose device cannot be used now. */
    method RetryOrReview(claim: ClaimedCommand, now: int, summary: RunSummary)
      returns (r: Result<RunSummary, EngineError>)
      requires store.Valid() && Issued(store.View(), claim)
      modifies store
      ensures store.Valid() && Evolves(old(store.View()), store.View())
      ensures
        Settles(old(store.View()), store.View(), claim, RetryDecision(config, claim, now, latest), now, summary, r)
    {
      hide Inv, Evolves, Issued, HoldsLease, FinishedTables;
      Unchanged(store.View());
      var next := NextAttemptAt(config, RetryOrdinal(claim), now, latest);
      match next {
        case Err(e) => return Err(e);
        case Ok(at) =>
          var exhausted := store.RetryableFailure(claim, at, config.Limits(), Millis(now));
          match exhausted {
            case Err(e) => return Err(Store(e));
            case Ok(review) =>
              return Ok(summary.(retryableFailures := summary.retryableFailures + 1,
                                 manualReviews := summary.manualReviews + if review then 1 else 0));
          }
      }
    }

    method SendToReview(claim: ClaimedCommand, now: int, summary: RunSummary)
      returns (r: Result<RunSummary, EngineError>)
      requires store.Valid() && Issued(store.View(), claim)
      modifies store
      ensures store.Valid() && Evolves(old(store.View()), store.View())
      ensures Settles(old(store.View()), store.View(), claim, Ok(Review), now, summary, r)
    {
      hide Inv, Evolves, Issued, HoldsLease, FinishedTables;
      var done := store.RequireManualReview(claim, Millis(now));
      match done {
        case Err(e) => return Err(Store(e));
        case Ok(_) => return Ok(summary.(manualReviews := summary.manualReviews + 1));
      }
    }

    method Complete(claim: ClaimedCommand, result: CommandResult, now: int, summary: RunSummary)
      returns (r: Result<RunSummary, EngineError>)
      requires store.Valid() && Issued(store.View(), claim)
      modifies store
      ensures store.Valid() && Evolves(old(store.View()), store.View())
      ensures Settles(old(store.View()), store.View(), claim, Ok(Success(result)), now, summary, r)
    {
      hide Inv, Evolves, Issued, HoldsLease, FinishedTables;
      Unchanged(store.View());
      var done := store.CompleteSuccess(claim, result, Millis(now));
      match done {
        case Err(e) => return Err(Store(e));
        case Ok(_) => return Ok(summary.(succeeded := summary.succeeded + 1));
      }
    }

    method ProcessProbe(claim: ClaimedCommand, reply: ProbeReply, now: int, summary: RunSummary)
      returns (r: Result<RunSummary, EngineError>)
      requires store.Valid() && Issued(store.View(), claim) && claim.kind.RecoveryProbe?
      modifies store
      ensures store.Valid() && Evolves(old(store.View()), store.View())
      ensures
        Settles(old(store.View()), store.View(), claim, ProbeDecision(config, claim, reply, now, latest),
          now, summary, r)
    {
      hide Inv, Evolves, Issued, HoldsLease, FinishedTables;
      Unchanged(store.View());
      match reply {
        case Completed(result) => r := Complete(claim, result, now, summary);
        case InProgress =>
          if claim.recoveryProbeCount >= config.maxRecoveryProbes {
            r := SendToReview(claim, now, summary);
          } else {
            var next := NextAttemptAt(config, claim.recoveryProbeCount, now, latest);
            match next {
              case Err(e) => return Err(e);
              case Ok(at) =>
                var done := store.DeferRecovery(claim, at, Millis(now));
                match done {
                  case Err(e) => return Err(Store(e));
                  case Ok(_) => return Ok(summary);
                }
            }
          }
        case Absent =>
          if claim.attempt >= config.maxAttempts {
            r := SendToReview(claim, now, summary);
          } else {
            var done := store.RecoveryNotFound(claim, Millis(now));
            match done {
              case Err(e) => return Err(Store(e));
              case Ok(_) => return Ok(summary);
            }
          }
        case Unclear => r := SendToReview(claim, now, summary);
        case ProbeFailed(failure) => r := HandleFailure(claim, failure, now, summary);
      }
    }

    /** The claim once its adapter reported well enough health. */
    method ProcessReachable(claim: ClaimedCommand, session: Session, now: int, summary: RunSummary)
      returns (r: Result<RunSummary, EngineError>)
      requires store.Valid() && Issued(store.View(), claim)
      modifies store
      ensures store.Valid() && Evolves(old(store.View()), store.View())
      ensures claim.kind.Execute? ==>
        Settles(old(store.View()), store.View(), claim, ExecuteDecision(config, claim, session.execute, now, latest),
          now, summary, r)
      ensures claim.kind.RecoveryProbe? ==>
        Settles(old(store.View()), store.View(), claim, ProbeDecision(config, claim, session.probe, now, latest), now,
          summary.(recoveryProbes := summary.recoveryProbes + 1), r)
    {
      hide Inv, Evolves, Issued, HoldsLease, FinishTx, CompletionFor;
      match claim.kind {
        case Execute =>
          match session.execute {
            case Executed(result) => r := Complete(claim, result, now, summary);
            case ExecuteFailed(failure) => r := HandleFailure(claim, failure, now, summary);
          }
        case RecoveryProbe =>
          r := ProcessProbe(claim, session.probe, now, summary.(recoveryProbes := summary.recoveryProbes + 1));
      }
    }

    predicate Usable(claim: ClaimedCommand, session: Session) {
      session.adapter.Some? && session.adapter.value.Serves(claim.request)
        && session.adapter.value.Supports(claim.request.policy)
    }

    /** Asks a usable adapter for its health and records the answer, which cannot fail: the device is registered. */
    method ReportHealth(claim: ClaimedCommand, session: Session, now: int)
      requires store.Valid() && Issued(store.View(), claim)
      modifies store
      ensures store.Valid() && Evolves(old(store.View()), store.View())
      ensures store.View() == WithDecidedHealth(old(store.View()), claim, Decide(config, claim, session, now, latest))
    {
      hide Inv, Evolves, Issued, ExecuteDecision, ProbeDecision, FailureDecision, RetryDecision;
      Unchanged(store.View());
      HealthKeepsClaim(store.View(), claim, Decide(config, claim, session, now, latest));
      if !Usable(claim, session) {
        return;
      }
      match session.health {
        case Unreachable(failure) =>
          var recorded := store.RecordHeartbeat(claim.request.deviceId, Offline, true);
          assert recorded.Ok?;
        case Reported(state, wellFormed) =>
          if wellFormed {
            var recorded := store.RecordHeartbeat(claim.request.deviceId, state, true);
            assert recorded.Ok?;
          }
      }
    }

    /** Ends the claim by what the adapter said. */
    method Conclude(claim: ClaimedCommand, session: Session, now: int, summary: RunSummary)
      returns (r: Result<RunSummary, EngineError>)
      requires store.Valid() && Issued(store.View(), claim)
      modifies store
      ensures store.Valid() && Evolves(old(store.View()), store.View())
      ensures var decision := Decide(config, claim, session, now, latest);
        Settles(old(store.View()), store.View(), claim, decision.disposition, now, Probed(summary, claim, decision), r)
    {
      hide Inv, Evolves, Issued, HoldsLease, FinishTx, CompletionFor, ExecuteDecision, ProbeDecision, FailureDecision,
        RetryDecision;
      Unchanged(store.View());
      if !Usable(claim, session) {
        r := SendToReview(claim, now, summary);
        return;
      }
      match session.health {
        case Unreachable(failure) => r := HandleFailure(claim, failure, now, summary);
        case Reported(state, wellFormed) =>
          if !wellFormed {
            return Err(Store(CorruptRecord));
          }
          if !state.PermitsAutomaticWork() {
            if state.Faulted? {
              r := SendToReview(claim, now, summary);
            } else {
              r := RetryOrReview(claim, now, summary);
            }
          } else {
            r := ProcessReachable(claim, session, now, summary);
          }
      }
    }

    /** The tables a claim is ended on: other transactions, the recorded health, and other transactions again. */
    function Meanwhile(
        t: Tables, claim: ClaimedCommand, session: Session, now: int, first: seq<Foreign>, second: seq<Foreign>): Tables
    {
      OperatedAll(WithDecidedHealth(OperatedAll(t, first), claim, Decide(config, claim, session, now, latest)), second)
    }

    /**
     Works on one claim while others use the store: `first` is what they commit before its health is recorded,
     `second` before it is ended. It takes part in the history as a consultation and a settlement.
     */
    method ProcessClaim(claim: ClaimedCommand, session: Session, now: int, summary: RunSummary,
        first: seq<Foreign>, second: seq<Foreign>, ghost accepts: (ClaimedCommand, nat) -> nat,
        ghost origin: History, ghost h: History)
      returns (r: Result<RunSummary, EngineError>, ghost longer: History)
      requires store.Valid() && Issued(store.View(), claim)
      requires h.Lawful() && h.Extends(origin) && h.Now().tables == store.View() && h.Now().phase == Holding(claim)
      modifies store
      ensures store.Valid() && Evolves(old(store.View()), store.View())
      ensures var decision := Decide(config, claim, session, now, latest);
        Settles(Meanwhile(old(store.View()), claim, session, now, first, second), store.View(), claim,
          decision.disposition, now, Probed(summary, claim, decision), r)
      ensures longer.Lawful() && longer.Extends(origin) && longer.Now().tables == store.View()
        && longer.Now().phase.Idle?
      ensures Taken(longer) == Taken(h)
      ensures var decided := Decide(config, claim, session, now, latest).disposition;
        Committed(longer) == Committed(h) + if r.Ok? then [Ending(claim, decided.value)] else []
      ensures r.Ok? ==> Answered(store.View(), claim, session, now)
      ensures r.Err? ==> StuckOnAClaim(longer)
    {
      hide Inv, Evolves, Issued, HoldsLease, FinishTx, CompletionFor, Decide, Operated, OperatedAll, WithDecidedHealth,
        Ended, Taken, Committed, Answered;
      ghost var t := store.View();
      longer := Interleave(store, first, origin, h);
      ghost var t1 := store.View();
      IssuedLasts(t, t1, claim);
      ReportHealth(claim, session, now);
      ghost var decision := Decide(config, claim, session, now, latest);
      longer := Reporting(origin, longer, claim, decision);
      longer := Consulting(origin, longer, config, session, now, latest, accepts);
      ghost var t2 := store.View();
      IssuedLasts(t1, t2, claim);
      longer := Interleave(store, second, origin, longer);
      ghost var t3 := store.View();
      IssuedLasts(t2, t3, claim);
      r := Conclude(claim, session, now, summary);
      if decision.disposition.Ok? {
        FinishKeeps(t3, claim, decision.disposition.value, config.Limits(), Millis(now));
        if r.Ok? {
          EndedAsAnswered(t3, store.View(), claim, session, now);
        }
      }
      longer := Settling(origin, longer, store.View(), config.Limits(), Millis(now));
      EvolvesTransitively(t, t1, t2);
      EvolvesTransitively(t, t2, t3);
      EvolvesTransitively(t, t3, store.View());
    }

    function Counts(summary: RunSummary): Tallies {
      Tallies(summary.claimed, summary.succeeded, summary.permanentFailures)
    }

    lemma CycleProgresses(before: Tables, t: Tables, c: Tables, u: Tables, claim: ClaimedCommand, session: Session,
        now: int, summary: RunSummary, first: seq<Foreign>, second: seq<Foreign>, r: Result<RunSummary, EngineError>)
      requires Inv(c) && Issued(c, claim) && Progress(before, t, Counts(summary), Millis(now), None)
      requires ClaimStep(t, c, claim, Millis(now), Millis(now) + config.lease / 1_000_000, config.maxAttempts)
      requires var decision := Decide(config, claim, session, now, latest);
        Settles(Meanwhile(c, claim, session, now, first, second), u, claim, decision.disposition, now,
          Probed(summary.(claimed := summary.claimed + 1), claim, decision), r)
      requires r.Ok?
      ensures Progress(before, u, Counts(r.value), Millis(now), None)
    {
      hide Inv, Evolves, Issued, HoldsLease, ClaimStep, Progress, FinishTx, CompletionFor, Decide, WithDecidedHealth,
        Operated, OperatedAll;
      var at := Millis(now);
      var decision := Decide(config, claim, session, now, latest);
      var counts := Tallies(summary.claimed + 1, summary.succeeded, summary.permanentFailures);
      var mine := Some(claim.request.commandId);
      ClaimProgresses(before, t, c, claim, Counts(summary), at, at + config.lease / 1_000_000, config.maxAttempts);
      ForeignersProgress(before, c, first, counts, at, mine);
      var t1 := OperatedAll(c, first);
      IssuedLasts(c, t1, claim);
      HealthKeepsClaim(t1, claim, decision);
      HealthProgresses(before, t1, claim, decision, counts, at, mine);
      var t2 := WithDecidedHealth(t1, claim, decision);
      ForeignersProgress(before, t2, second, counts, at, mine);
      var t3 := OperatedAll(t2, second);
      IssuedLasts(t2, t3, claim);
      FinishKeeps(t3, claim, decision.disposition.value, config.Limits(), at);
      FinishProgresses(before, t3, claim, decision.disposition.value, config.Limits(), counts, at);
    }

    /** The summary of a pass that began with `start` and ended these claims, all eight counters. */
    function Summed(start: RunSummary, endings: seq<Ending>, sessions: ClaimedCommand -> Session, now: int)
      : RunSummary
    {
      if endings == [] then start
      else
        var e := endings[|endings| - 1];
        var prior := Summed(start, endings[..|endings| - 1], sessions, now);
        Ended(Probed(prior.(claimed := prior.claimed + 1), e.claim,
                Decide(config, e.claim, sessions(e.claim), now, latest)), e.claim, e.disposition, now)
    }

    /** The claims a pass took since h are the ones it ended, each as decided, but for a last one that failed. */
    ghost predicate TookAndEnded(h: History, longer: History, endings: seq<Ending>, failed: bool,
        sessions: ClaimedCommand -> Session, now: int)
    {
      && Committed(longer) == Committed(h) + endings
      && Taken(h) + Claims(endings) <= Taken(longer)
      && |Taken(longer)| <= |Taken(h)| + |endings| + (if failed then 1 else 0)
      && forall i :: 0 <= i < |endings| ==> AsDecided(endings[i], sessions, now)
    }

    predicate AsDecided(e: Ending, sessions: ClaimedCommand -> Session, now: int) {
      Decide(config, e.claim, sessions(e.claim), now, latest).disposition == Ok(e.disposition)
    }

    lemma TookNothing(h: History, longer: History, failed: bool, sessions: ClaimedCommand -> Session, now: int)
      requires Quiet(h, longer)
      ensures TookAndEnded(h, longer, [], failed, sessions, now)
      ensures forall start :: Summed(start, [], sessions, now) == start
    {
      hide Taken, Committed;
    }

    /** One claim taken, and ended unless its turn failed. */
    lemma TookOne(h: History, longer: History, claim: ClaimedCommand, endings: seq<Ending>,
        sessions: ClaimedCommand -> Session, now: int)
      requires Taken(longer) == Taken(h) + [claim] && Committed(longer) == Committed(h) + endings
      requires endings == [] || (|endings| == 1 && endings[0].claim == claim && AsDecided(endings[0], sessions, now))
      ensures TookAndEnded(h, longer, endings, endings == [], sessions, now)
    {
      hide Taken, Committed, AsDecided;
    }

    lemma SummedOne(start: RunSummary, e: Ending, sessions: ClaimedCommand -> Session, now: int)
      ensures Summed(start, [e], sessions, now) ==
        Ended(Probed(start.(claimed := start.claimed + 1), e.claim,
                Decide(config, e.claim, sessions(e.claim), now, latest)), e.claim, e.disposition, now)
    {
      hide Ended, Probed, Decide;
      assert [e][..0] == [];
      assert Summed(start, [], sessions, now) == start;
    }

    /** Another turn after turns that went well. */
    lemma TookMore(h: History, sofar: History, longer: History, endings: seq<Ending>, turn: seq<Ending>, failed: bool,
        sessions: ClaimedCommand -> Session, now: int)
      requires TookAndEnded(h, sofar, endings, false, sessions, now)
      requires TookAndEnded(sofar, longer, turn, failed, sessions, now)
      ensures TookAndEnded(h, longer, endings + turn, failed, sessions, now)
    {
      hide Taken, Committed, AsDecided;
      assert Claims(endings + turn) == Claims(endings) + Claims(turn);
      assert Taken(sofar) == Taken(h) + Claims(endings);
      hide Claims;
    }

    lemma SummedMore(start: RunSummary, endings: seq<Ending>, turn: seq<Ending>,
        sessions: ClaimedCommand -> Session, now: int)
      requires |turn| <= 1
      ensures Summed(start, endings + turn, sessions, now) ==
        Summed(Summed(start, endings, sessions, now), turn, sessions, now)
    {
      hide Ended, Probed, Decide;
      if turn == [] {
        assert endings + turn == endings;
      } else {
        SummedOne(Summed(start, endings, sessions, now), turn[0], sessions, now);
        assert turn == [turn[0]];
        assert (endings + turn)[..|endings|] == endings;
      }
    }

    lemma OnlyClaimed(summary: RunSummary, figure: Figure)
      ensures Read(summary.(claimed := summary.claimed + 1), figure) == Read(summary, figure)
    {
    }

    lemma EndedAdds(summary: RunSummary, e: Ending, session: Session, now: int, figure: Figure)
      ensures var asked := Probed(summary, e.claim, Decide(config, e.claim, session, now, latest));
        Read(Ended(asked, e.claim, e.disposition, now), figure) ==
          Read(summary, figure) + if AddsTo(e, session, config.Limits(), figure) then 1 else 0
    {
      ReachedExactlyWhen(config, e.claim, session, now, latest);
      hide Decide, Reached;
    }

    /** Each figure of the summary is the number of claims that ended that way. */
    lemma {:induction false} SummedCounts(
        start: RunSummary, endings: seq<Ending>, sessions: ClaimedCommand -> Session, now: int)
      ensures Summed(start, endings, sessions, now).claimed == start.claimed + |endings|
      ensures Summed(start, endings, sessions, now).recoveredLeases == start.recoveredLeases
      ensures forall figure ::
        Read(Summed(start, endings, sessions, now), figure) ==
          Read(start, figure) + Number(endings, sessions, config.Limits(), figure)
    {
      hide Decide, CompletionFor, AddsTo, Read;
      if endings != [] {
        var e, rest := endings[|endings| - 1], endings[..|endings| - 1];
        SummedCounts(start, rest, sessions, now);
        var prior := Summed(start, rest, sessions, now);
        var next := prior.(claimed := prior.claimed + 1);
        forall figure
          ensures Read(Summed(start, endings, sessions, now), figure) ==
            Read(start, figure) + Number(endings, sessions, config.Limits(), figure)
        {
          EndedAdds(next, e, sessions(e.claim), now, figure);
          assert Read(next, figure) == Read(prior, figure) by {
            OnlyClaimed(prior, figure);
          }
        }
      }
    }

    /** The summary of a pass: leases that ran out before it, claims it took, and how they ended. */
    predicate SumsUp(summary: RunSummary, before: Tables, endings: seq<Ending>, sessions: ClaimedCommand -> Session,
        at: int)
    {
      var limits := RetryLimits(config.maxAttempts, config.maxRecoveryProbes);
      && summary.recoveredLeases == |RanOut(before, at)|
      && summary.claimed == |endings|
      && summary.succeeded == Number(endings, sessions, limits, Successes)
      && summary.retryableFailures == Number(endings, sessions, limits, RetryableFailures)
      && summary.permanentFailures == Number(endings, sessions, limits, PermanentFailures)
      && summary.ambiguousOutcomes == Number(endings, sessions, limits, AmbiguousOutcomes)
      && summary.recoveryProbes == Number(endings, sessions, limits, RecoveryProbes)
      && summary.manualReviews ==
         |RanOutUnder(before, at, ReviewManually)| + Number(endings, sessions, limits, ManualReviews)
    }

    lemma SummedIsTheSummary(before: Tables, endings: seq<Ending>, sessions: ClaimedCommand -> Session, now: int)
      ensures SumsUp(Summed(AfterRecovery(before, Millis(now)), endings, sessions, now), before, endings, sessions,
        Millis(now))
    {
      var start := AfterRecovery(before, Millis(now));
      var summary := Summed(start, endings, sessions, now);
      SummedCounts(start, endings, sessions, now);
      hide Number, RanOut, RanOutUnder;
      hide Summed;
      assert forall figure ::
        Read(summary, figure) == Read(start, figure) + Number(endings, sessions, config.Limits(), figure);
      assert Read(summary, Successes) == summary.succeeded && Read(summary, ManualReviews) == summary.manualReviews;
      assert Read(summary, RetryableFailures) == summary.retryableFailures;
      assert Read(summary, PermanentFailures) == summary.permanentFailures;
      assert Read(summary, AmbiguousOutcomes) == summary.ambiguousOutcomes;
      assert Read(summary, RecoveryProbes) == summary.recoveryProbes;
    }

    /** Why a pass breaks off: its last claim could not be ended, or no claim can be made. */
    predicate CannotGoOn(h: History, now: int) {
      StuckOnAClaim(h) || CannotClaim(h.Now().tables, Millis(now), config.lease / 1_000_000, config.maxAttempts)
    }

    /** One turn of the loop: claims the next command and settles it, or finds nothing to claim. */
    method Turn(now: int, sessions: ClaimedCommand -> Session, others: nat -> seq<Foreign>,
        ghost accepts: (ClaimedCommand, nat) -> nat, ghost origin: History, ghost h: History, ghost before: Tables,
        summary: RunSummary)
      returns (r: Result<RunSummary, EngineError>, done: bool, ghost longer: History, ghost endings: seq<Ending>)
      requires store.Valid() && Evolves(before, store.View())
      requires h.Lawful() && h.Extends(origin) && h.Now().phase.Idle? && h.Now().tables == store.View()
      requires Progress(before, store.View(), Counts(summary), Millis(now), None)
      modifies store
      ensures store.Valid() && Evolves(before, store.View())
      ensures longer.Lawful() && longer.Extends(origin) && longer.Now().tables == store.View()
        && longer.Now().phase.Idle?
      ensures r.Ok? ==>
        && Progress(before, store.View(), Counts(r.value), Millis(now), None)
        && r.value == Summed(summary, endings, sessions, now)
        && (endings == [] <==> done)
        && (done ==> NothingDue(store.View(), Millis(now), config.maxAttempts))
      ensures r.Err? ==> CannotGoOn(longer, now)
      ensures TookAndEnded(h, longer, endings, r.Err?, sessions, now) && |endings| <= 1
    {
      hide Inv, Evolves, Issued, HoldsLease, NothingDue, CannotClaim, ClaimStep, ClaimsFirst, Progress, FinishTx,
        CompletionFor, Answered, StuckOnAClaim, Decide, WithDecidedHealth, Operated, OperatedAll, Meanwhile, Taken,
        Committed, TookAndEnded, Summed, Ended, Probed;
      var at := Millis(now);
      var gap := 3 * summary.claimed;
      endings := [];
      ghost var t0 := store.View();
      ForeignersProgress(before, t0, others(gap), Counts(summary), at, None);
      longer := Interleave(store, others(gap), origin, h);
      ghost var t := store.View();
      EvolvesTransitively(before, t0, t);
      var next := store.ClaimNext(at, config.lease / 1_000_000, config.maxAttempts);
      ghost var c := store.View();
      EvolvesTransitively(before, t, c);
      TookNothing(h, longer, next.Err?, sessions, now);
      match next {
        case Err(e) => return Err(Store(e)), true, longer, [];
        case Ok(None) => return Ok(summary), true, longer, [];
        case Ok(Some(claim)) =>
          longer := Taking(origin, longer, c, claim, at, at + config.lease / 1_000_000, config.maxAttempts);
          r, longer := ProcessClaim(claim, sessions(claim), now, summary.(claimed := summary.claimed + 1),
            others(gap + 1), others(gap + 2), accepts, origin, longer);
          EvolvesTransitively(before, c, store.View());
          if r.Ok? {
            CycleProgresses(before, t, c, store.View(), claim, sessions(claim), now, summary, others(gap + 1),
              others(gap + 2), r);
            endings := [Ending(claim, Decide(config, claim, sessions(claim), now, latest).disposition.value)];
            SummedOne(summary, endings[0], sessions, now);
          }
          TookOne(h, longer, claim, endings, sessions, now);
          done := false;
      }
    }

    lemma EndedOnce(h: History, longer: History, endings: seq<Ending>, failed: bool,
        sessions: ClaimedCommand -> Session, now: int)
      requires longer.Lawful() && TookAndEnded(h, longer, endings, failed, sessions, now)
      ensures forall i :: 0 <= i < |endings| ==> Times(Committed(longer), endings[i].claim) == 1
    {
      hide Times, Committed, Taken, AsDecided;
      forall i | 0 <= i < |endings|
        ensures Times(Committed(longer), endings[i].claim) == 1
      {
        assert Committed(longer)[|Committed(h)| + i] == endings[i];
        EndedExactlyOnce(longer, endings[i]);
      }
    }

    /**
     One pass of the runner, with `others(k)` committed by other processes in the k-th gap between its transactions.
     A pass that succeeds has ended every claim it took exactly once, as its adapter's answers decide, and its summary
     counts those endings. Afterwards only commands that were already executing under an unexpired lease are executing,
     the attempts grew by exactly the claims, and a pass that stopped early left nothing to claim. A pass that fails
     leaves at most its last claim open. Whatever it did, it continued the history before it, and if the adapters kept
     their promise every command was accepted at most once more often than operators sent it back.
     */
    method RunOnce(now: int, sessions: ClaimedCommand -> Session, others: nat -> seq<Foreign>,
        ghost accepts: (ClaimedCommand, nat) -> nat, ghost h: History)
      returns (r: Result<RunSummary, EngineError>, ghost longer: History, ghost endings: seq<Ending>)
      requires store.Valid() && h.Lawful() && h.Now().phase.Idle? && h.Now().tables == store.View()
      modifies store
      ensures store.Valid() && Evolves(old(store.View()), store.View())
      ensures longer.Lawful() && longer.Extends(h) && longer.Now().tables == store.View() && longer.Now().phase.Idle?
      ensures longer.Honest() ==> WithinRetries(longer.Now())
      ensures TookAndEnded(h, longer, endings, r.Err?, sessions, now)
      ensures forall i :: 0 <= i < |endings| ==> Times(Committed(longer), endings[i].claim) == 1
      ensures r.Ok? ==>
        && SumsUp(r.value, old(store.View()), endings, sessions, Millis(now))
        && r.value.claimed <= config.batchSize
        && Progress(old(store.View()), store.View(), Counts(r.value), Millis(now), None)
        && (r.value.claimed < config.batchSize ==> NothingDue(store.View(), Millis(now), config.maxAttempts))
      ensures r.Err? ==> CannotGoOn(longer, now)
    {
      hide Inv, Evolves, Issued, HoldsLease, NothingDue, Recovered, RecoversTo, ClaimStep, Progress, FinishTx,
        CompletionFor, Decide, WithDecidedHealth, RanOut, RanOutUnder, Operated, OperatedAll, WithinRetries, Meanwhile,
        Under, Summed, TookAndEnded, Taken, Committed, SumsUp, CannotGoOn;
      var at := Millis(now);
      ghost var before := store.View();
      var recovered := store.RecoverExpiredLeases(at);
      longer := Recovering(h, at);
      endings := [];
      TookNothing(h, longer, false, sessions, now);
      RecoveryProgresses(before, at);
      match recovered {
        case Err(e) =>
          r := Err(Store(e));
        case Ok(leases) =>
          var summary := RunSummary(leases.replayable + leases.probesRequired + leases.manualReviews,
                                    0, 0, 0, 0, 0, 0, leases.manualReviews);
          assert summary == AfterRecovery(before, at);
          r := Ok(summary);
          var done := false;
          while r.Ok? && r.value.claimed < config.batchSize && !done
            invariant store.Valid() && Evolves(before, store.View())
            invariant longer.Lawful() && longer.Extends(h) && longer.Now().tables == store.View()
              && longer.Now().phase.Idle?
            invariant TookAndEnded(h, longer, endings, r.Err?, sessions, now)
            invariant r.Ok? ==>
              && r.value == Summed(summary, endings, sessions, now)
              && r.value.claimed == |endings| <= config.batchSize
              && Progress(before, store.View(), Counts(r.value), at, None)
            invariant r.Err? ==> CannotGoOn(longer, now)
            invariant done && r.Ok? ==> NothingDue(store.View(), at, config.maxAttempts)
            decreases if r.Ok? then config.batchSize - r.value.claimed else 0, if done then 0 else 1
          {
            ghost var turn;
            ghost var sofar := longer;
            r, done, longer, turn := Turn(now, sessions, others, accepts, h, longer, before, r.value);
            TookMore(h, sofar, longer, endings, turn, r.Err?, sessions, now);
            SummedMore(summary, endings, turn, sessions, now);
            endings := endings + turn;
            SummedCounts(summary, endings, sessions, now);
          }
      }
      if longer.Honest() {
        HonestIsWithinRetries(longer);
      }
      EndedOnce(h, longer, endings, r.Err?, sessions, now);
      SummedIsTheSummary(before, endings, sessions, now);
    }

    /** Accepts a command only when its registered adapter serves the device and can recover it as the policy asks. */
    method SubmitCommand(request: CommandRequest, adapter: Option<Adapter>, now: int)
      returns (r: Result<Submission, EngineError>)
      requires store.Valid()
      modifies store
      ensures store.Valid() && Evolves(old(store.View()), store.View())
      ensures r.Ok? <==>
        && adapter.Some? && request.deviceId in old(store.View()).devices
        && adapter.value.descriptor == old(store.View()).devices[request.deviceId].descriptor
        && HasAdapter(request, adapter)
        && SubmitTx(old(store.View()), request, Millis(now)).Ok?
      ensures r.Ok? ==> SubmitTx(old(store.View()), request, Millis(now)) == Ok((store.View(), r.value))
      ensures r.Err? ==> store.View() == old(store.View())
    {
      hide Inv, Evolves;
      Unchanged(store.View());
      if !request.Valid() {
        return Err(InvalidCommand);
      }
      if adapter.None? {
        return Err(AdapterNotRegistered);
      }
      if request.deviceId !in store.devices {
        return Err(Store(DeviceNotFound));
      }
      if adapter.value.descriptor != store.devices[request.deviceId].descriptor || !adapter.value.Serves(request) {
        return Err(AdapterConfigurationMismatch);
      }
      if !adapter.value.Supports(request.policy) {
        return Err(UnsupportedRecoveryPolicy);
      }
      var submitted := store.Submit(request, Millis(now));
      match submitted {
        case Err(e) => return Err(Store(e));
        case Ok(submission) => return Ok(submission);
      }
    }
  }
}
