/** Whole runs of the edge agent: every interleaving of its transactions, and what each run guarantees. */
module EdgeRuns {
  import opened Common
  import opened EdgeTables
  import opened EdgeCommandInvariant
  import opened EdgeInvariant
  import opened EdgeRecovery
  import opened EdgeTransactions

  datatype Op =
    | Register(device: DeviceId, descriptor: Descriptor, reason: string)
    | ChangeMode(device: DeviceId, mode: ControlMode, reason: string, at: int)
    | Heartbeat(device: DeviceId, health: HealthState, wellFormed: bool)
    | Submit(request: CommandRequest, at: int)
    | Resolve(command: CommandId, reason: string)
    | Cancel(command: CommandId, reason: string)
    | Retry(command: CommandId, reason: string, at: int)
    | RecoverLeases(at: int)
    | Claim(at: int, until: int, maxAttempts: nat, claim: ClaimedCommand)
    | Finish(claim: ClaimedCommand, disposition: Disposition, limits: RetryLimits, at: int)

  const EMPTY := Tables(map[], map[], 0)

  function AfterSubmit(t: Tables, request: CommandRequest, at: int): Tables {
    var r := SubmitTx(t, request, at);
    if r.Ok? then r.value.0 else t
  }

  /** What operators, the cloud and health reports may do at any time; the other transactions belong to the runner. */
  predicate ByOthers(op: Op) {
    !op.RecoverLeases? && !op.Claim? && !op.Finish?
  }

  function Operated(t: Tables, op: Op): Tables
    requires ByOthers(op)
  {
    match op
    case Register(d, descriptor, reason) => After(t, RegisterTx(t, d, descriptor, reason))
    case ChangeMode(d, mode, reason, at) => After(t, ChangeModeTx(t, d, mode, reason, at))
    case Heartbeat(d, health, wellFormed) => After(t, HeartbeatTx(t, d, health, wellFormed))
    case Submit(request, at) => AfterSubmit(t, request, at)
    case Resolve(id, reason) => After(t, ResolveTx(t, id, reason))
    case Cancel(id, reason) => After(t, CancelTx(t, id, reason))
    case Retry(id, reason, at) => After(t, RetryTx(t, id, reason, at))
  }

  type Foreign = op: Op | ByOthers(op) witness Resolve(0, "")

  function OperatedAll(t: Tables, ops: seq<Foreign>): Tables {
    if ops == [] then t else Operated(OperatedAll(t, ops[..|ops| - 1]), ops[|ops| - 1])
  }

  /** One transaction, whether it commits or refuses. */
  predicate Step(t: Tables, op: Op, u: Tables) {
    match op
    case RecoverLeases(at) => u == Recovered(t, at, ExpiredIds(t, at))
    case Claim(at, until, maxAttempts, claim) => ClaimStep(t, u, claim, at, until, maxAttempts)
    case Finish(claim, disposition, limits, at) => u == After(t, FinishTx(t, claim, disposition, limits, at))
    case _ => u == Operated(t, op)
  }

  /** A run from an empty database; a claim can be finished, any number of times, once it was handed out. */
  datatype Run = Start | Then(prior: Run, op: Op, tables: Tables) {
    function Last(): Tables {
      if Start? then EMPTY else tables
    }

    function HandedOut(): set<ClaimedCommand> {
      if Start? then {} else prior.HandedOut() + if op.Claim? then {op.claim} else {}
    }

    predicate Valid() {
      Then? ==> prior.Valid() && Step(prior.Last(), op, tables) && (op.Finish? ==> op.claim in prior.HandedOut())
    }

    predicate Extends(earlier: Run) {
      this == earlier || (Then? && prior.Extends(earlier))
    }
  }

  /** A submission changes nothing, or adds one row that waits or is for review. */
  lemma SubmittedShape(t: Tables, request: CommandRequest, at: int)
    requires RowsOk(t)
    ensures var u, id := AfterSubmit(t, request, at), request.commandId;
      || u == t
      || (&& id !in t.commands
          && (|| u == Put(t, id, Submitted(request, Queued, at))
              || u == Put(t, id, Submitted(request, ManualReview, at))))
  {
    if Candidates(t, request) == {} {
      NoCandidate(t, request);
    }
    hide RowsOk, Put, Submitted;
  }

  // ---------- The invariant holds along every run ----------

  lemma StepKeeps(t: Tables, op: Op, u: Tables)
    requires Inv(t) && Step(t, op, u) && (op.Finish? ==> Issued(t, op.claim))
    ensures Inv(u) && Evolves(t, u)
  {
    hide Inv, Evolves, Issued;
    match op
    case Register(d, descriptor, reason) => RegisterKeeps(t, d, descriptor, reason);
    case ChangeMode(d, mode, reason, at) => ChangeModeKeeps(t, d, mode, reason, at);
    case Heartbeat(d, health, wellFormed) => HeartbeatKeeps(t, d, health, wellFormed);
    case Submit(request, at) => SubmitKeeps(t, request, at); Unchanged(t);
    case Resolve(id, reason) => OperatorKeeps(t, id, reason, ResolvedManually, {ManualReview});
    case Cancel(id, reason) => OperatorKeeps(t, id, reason, Cancelled, {Queued, RetryWait, RecoveryWait, ManualReview});
    case Retry(id, reason, at) => RetryKeeps(t, id, reason, at);
    case RecoverLeases(at) => RecoveredKeeps(t, at, ExpiredIds(t, at));
    case Claim(at, until, maxAttempts, claim) => ClaimStepKeeps(t, u, claim, at, until, maxAttempts);
    case Finish(claim, disposition, limits, at) => FinishKeeps(t, claim, disposition, limits, at);
  }

  lemma {:induction false} RunKeeps(run: Run)
    requires run.Valid()
    ensures Inv(run.Last())
    ensures forall claim :: claim in run.HandedOut() ==> Issued(run.Last(), claim)
  {
    if run.Then? {
      hide Inv, Evolves, Issued;
      var t, u := run.prior.Last(), run.tables;
      RunKeeps(run.prior);
      StepKeeps(t, run.op, u);
      forall claim | claim in run.HandedOut() ensures Issued(u, claim) {
        if claim in run.prior.HandedOut() {
          IssuedLasts(t, u, claim);
        } else {
          ClaimStepKeeps(t, u, claim, run.op.at, run.op.until, run.op.maxAttempts);
        }
      }
    }
  }

  lemma {:induction false} RowKept(run: Run, id: CommandId)
    requires run.Valid() && id in run.Last().commands
    ensures RowOk(run.Last(), id)
  {
    RunKeeps(run);
  }

  /** Nothing a run recorded is ever rewritten later in the run. */
  lemma {:induction false} RunEvolves(run: Run, earlier: Run)
    requires run.Valid() && run.Extends(earlier)
    ensures earlier.Valid() && Inv(earlier.Last()) && Inv(run.Last()) && Evolves(earlier.Last(), run.Last())
    ensures earlier.HandedOut() <= run.HandedOut()
  {
    hide Inv, Evolves, Issued;
    RunKeeps(run);
    if run == earlier {
      Unchanged(run.Last());
    } else {
      RunKeeps(run.prior);
      RunEvolves(run.prior, earlier);
      StepKeeps(run.prior.Last(), run.op, run.tables);
      EvolvesTransitively(earlier.Last(), run.prior.Last(), run.tables);
    }
  }

  // ---------- Leases, attempts and fencing ----------

  /** Executing iff leased iff exactly one active attempt, and no second command of the device is executing. */
  lemma {:induction false} LeaseCorrespondence(run: Run, id: CommandId)
    requires run.Valid() && id in run.Last().commands
    ensures var c := run.Last().commands[id];
      && (c.state.Executing? <==> c.leaseToken.Some?)
      && (c.state.Executing? <==> c.leaseUntil.Some?)
      && (c.state.Executing? <==> ActiveCount(c.attempts) == 1)
      && (!c.state.Executing? <==> ActiveCount(c.attempts) == 0)
    ensures run.Last().commands[id].state.Executing? ==>
      forall other :: other in run.Last().commands && other != id && run.Last().commands[other].state.Executing? ==>
        run.Last().commands[other].request.deviceId != run.Last().commands[id].request.deviceId
  {
    RunKeeps(run);
    RowKept(run, id);
    ExactlyOneActive(run.Last().commands[id]);
  }

  /** A claim that lost its lease never gets it back, and finishing it is refused without a trace. */
  lemma {:induction false} StaleClaimIsFenced(run: Run, earlier: Run, claim: ClaimedCommand, disposition: Disposition,
      limits: RetryLimits, now: int)
    requires run.Valid() && run.Extends(earlier) && claim in earlier.HandedOut()
    requires !HoldsLease(earlier.Last(), claim)
    ensures FinishTx(run.Last(), claim, disposition, limits, now).Err?
    ensures After(run.Last(), FinishTx(run.Last(), claim, disposition, limits, now)) == run.Last()
  {
    hide Inv, Evolves, Issued;
    RunEvolves(run, earlier);
    RunKeeps(earlier);
    IssuedLasts(earlier.Last(), run.Last(), claim);
  }

  /** While a claim still holds its lease nothing has happened to its command since it was handed out. */
  lemma {:induction false} HeldClaimIsUntouched(run: Run, earlier: Run, claim: ClaimedCommand)
    requires run.Valid() && run.Extends(earlier) && claim in earlier.HandedOut() && HoldsLease(run.Last(), claim)
    ensures claim.request.commandId in earlier.Last().commands
    ensures run.Last().commands[claim.request.commandId] == earlier.Last().commands[claim.request.commandId]
  {
    RunEvolves(run, earlier);
    RunKeeps(earlier);
    IssuedLasts(earlier.Last(), run.Last(), claim);
  }

  function Finishes(run: Run, claim: ClaimedCommand): nat {
    if run.Start? then 0
    else
      Finishes(run.prior, claim) +
        if run.op.Finish? && run.op.claim == claim
          && FinishTx(run.prior.Last(), claim, run.op.disposition, run.op.limits, run.op.at).Ok? then 1 else 0
  }

  lemma FinishReleases(t: Tables, claim: ClaimedCommand, disposition: Disposition, limits: RetryLimits, now: int)
    requires FinishTx(t, claim, disposition, limits, now).Ok?
    ensures !HoldsLease(FinishTx(t, claim, disposition, limits, now).value, claim)
  {
  }

  /** However often it is tried, each claim commits at most one outcome. */
  lemma {:induction false} FinishedOnce(run: Run, claim: ClaimedCommand)
    requires run.Valid()
    ensures Finishes(run, claim) <= 1
    ensures Finishes(run, claim) == 1 ==> claim in run.HandedOut() && !HoldsLease(run.Last(), claim)
  {
    if run.Then? {
      hide Inv, Evolves, Issued;
      var t, u := run.prior.Last(), run.tables;
      FinishedOnce(run.prior, claim);
      if Finishes(run.prior, claim) == 1 {
        StaleClaimStaysStale(run, claim);
      } else if Finishes(run, claim) == 1 {
        FinishReleases(t, claim, run.op.disposition, run.op.limits, run.op.at);
      }
    }
  }

  lemma {:induction false} StaleClaimStaysStale(run: Run, claim: ClaimedCommand)
    requires run.Valid() && run.Then? && claim in run.prior.HandedOut() && !HoldsLease(run.prior.Last(), claim)
    ensures !HoldsLease(run.Last(), claim)
  {
    hide Inv, Evolves, Issued;
    assert run.prior.Extends(run.prior);
    RunEvolves(run, run.prior);
    RunKeeps(run.prior);
    IssuedLasts(run.prior.Last(), run.Last(), claim);
  }

  // ---------- Live work and control modes ----------

  lemma {:induction false} LiveOnlyOnAutomatic(run: Run, id: CommandId)
    requires run.Valid() && id in run.Last().commands && run.Last().commands[id].state.IsLive()
    ensures run.Last().commands[id].request.deviceId in run.Last().devices
    ensures run.Last().devices[run.Last().commands[id].request.deviceId].mode.Automatic?
  {
    RowKept(run, id);
  }

  /**
   What a device leaving automatic mode does to one command: its own live work waits for review, nothing else moves.
   */
  predicate SweptExactly(c: Command, d: Command, device: DeviceId) {
    if c.request.deviceId == device && c.state.IsLive()
    then d.state.ManualReview? && d.leaseToken.None? && ActiveCount(d.attempts) == 0 && HistoryGrows(c, d)
    else d == c
  }

  lemma CommandSwept(c: Command, now: int, d: DeviceId)
    requires CommandInv(c)
    ensures SweptExactly(c, if c.request.deviceId == d then Quarantined(c, now) else c, d)
  {
    QuarantinedKeeps(c, now);
    ExactlyOneActive(Quarantined(c, now));
  }

  lemma SweepIsExact(t: Tables, d: DeviceId, now: int, id: CommandId)
    requires RowsOk(t) && id in t.commands
    ensures SweptExactly(t.commands[id], Quarantine(t, d, now).commands[id], d)
  {
    assert RowOk(t, id);
    CommandSwept(t.commands[id], now, d);
  }

  /** Leaving automatic mode, by an operator or by a forced fallback, sweeps exactly that device. */
  lemma {:induction false} LeavingAutomaticSweepsExactly(run: Run, d: DeviceId, mode: ControlMode, reason: string,
      now: int, id: CommandId, other: DeviceId)
    requires run.Valid() && d in run.Last().devices && id in run.Last().commands && other in run.Last().devices
    requires ValidReason(reason) && !mode.Automatic?
    ensures var t := run.Last(); var r := ChangeModeTx(t, d, mode, reason, now);
      && r.Ok? && id in r.value.commands && SweptExactly(t.commands[id], r.value.commands[id], d)
      && other in r.value.devices && r.value.devices[d].mode == mode
      && (other != d ==> r.value.devices[other] == t.devices[other])
    ensures var t := run.Last(); var u := ForcedFallback(t, d, now);
      && id in u.commands && SweptExactly(t.commands[id], u.commands[id], d)
      && other in u.devices && u.devices[d].mode.ManualFallback?
      && (other != d ==> u.devices[other] == t.devices[other])
  {
    RunKeeps(run);
    assert RowsOk(run.Last());
    hide Inv, RowsOk, SweptExactly, ChangedMode, ForcedFallback;
    ModeChangeSweeps(run.Last(), d, mode, now, id, other);
    FallbackSweeps(run.Last(), d, now, id, other);
  }

  lemma ModeChangeSweeps(t: Tables, d: DeviceId, mode: ControlMode, now: int, id: CommandId, other: DeviceId)
    requires RowsOk(t) && d in t.devices && id in t.commands && other in t.devices && !mode.Automatic?
    ensures var u := ChangedMode(t, d, mode, now);
      && id in u.commands && SweptExactly(t.commands[id], u.commands[id], d)
      && other in u.devices && u.devices[d].mode == mode && (other != d ==> u.devices[other] == t.devices[other])
  {
    SweepIsExact(t, d, now, id);
    hide RowsOk, SweptExactly;
  }

  lemma FallbackSweeps(t: Tables, d: DeviceId, now: int, id: CommandId, other: DeviceId)
    requires RowsOk(t) && d in t.devices && id in t.commands && other in t.devices
    ensures var u := ForcedFallback(t, d, now);
      && id in u.commands && SweptExactly(t.commands[id], u.commands[id], d)
      && other in u.devices && u.devices[d].mode.ManualFallback?
      && (other != d ==> u.devices[other] == t.devices[other])
  {
    SweepIsExact(t, d, now, id);
    hide RowsOk, SweptExactly;
  }

  /** The device was automatic before the step and is not after it. */
  predicate LeftAutomatic(t: Tables, u: Tables, d: DeviceId) {
    d in t.devices && d in u.devices && t.devices[d].mode.Automatic? && !u.devices[d].mode.Automatic?
  }

  /**
   Finishing a claim touches no row and no device but those of its own device. If it takes that device out of
   automatic mode it sweeps the device exactly; if not, no row but the claim's own changes.
   */
  lemma {:induction false} FinishSweepsExactly(
      run: Run, claim: ClaimedCommand, disposition: Disposition, limits: RetryLimits, now: int, id: CommandId,
      other: DeviceId)
    requires run.Valid() && claim in run.HandedOut() && id in run.Last().commands && other in run.Last().devices
    ensures var t := run.Last(); var u := After(t, FinishTx(t, claim, disposition, limits, now));
      var d := claim.request.deviceId;
      && id in u.commands && other in u.devices
      && (other != d ==> u.devices[other] == t.devices[other])
      && (t.commands[id].request.deviceId != d ==> u.commands[id] == t.commands[id])
      && (LeftAutomatic(t, u, d) ==> SweptExactly(t.commands[id], u.commands[id], d))
      && (!LeftAutomatic(t, u, d) && id != claim.request.commandId ==> u.commands[id] == t.commands[id])
  {
    hide Inv, RowOk, Issued, SweptExactly, CompletionFor, FinishedTables;
    RunKeeps(run);
    var t := run.Last();
    if HoldsLease(t, claim) && CompletionFor(claim, disposition, limits, now).Ok? {
      RowKept(run, id);
      RowKept(run, claim.request.commandId);
      FinishedRowSwept(t, claim, disposition, limits, now, id);
    }
  }

  lemma FinishedRowSwept(t: Tables, claim: ClaimedCommand, disposition: Disposition, limits: RetryLimits, now: int,
      id: CommandId)
    requires Issued(t, claim) && HoldsLease(t, claim) && CompletionFor(claim, disposition, limits, now).Ok?
    requires id in t.commands && RowOk(t, id) && RowOk(t, claim.request.commandId)
    ensures claim.request.deviceId in t.devices
    ensures var completion := CompletionFor(claim, disposition, limits, now).value;
      var u := FinishedTables(t, claim, completion, now); var d := claim.request.deviceId;
      && id in u.commands && d in u.devices && t.devices[d].mode.Automatic?
      && u.devices == (if completion.manualFallback then SetMode(t, d, ManualFallback).devices else t.devices)
      && (if completion.manualFallback then SweptExactly(t.commands[id], u.commands[id], d)
          else id != claim.request.commandId ==> u.commands[id] == t.commands[id])
      && (t.commands[id].request.deviceId != d ==> u.commands[id] == t.commands[id])
  {
    hide CommandInv, SweptExactly, CompletionFor, Finished, Quarantined;
    assert t.commands[claim.request.commandId].request == claim.request;
    FinishedCommandSwept(t.commands[claim.request.commandId], claim, disposition, limits, now);
    CommandSwept(t.commands[id], now, claim.request.deviceId);
  }

  lemma FinishedCommandSwept(c: Command, claim: ClaimedCommand, disposition: Disposition, limits: RetryLimits, now: int)
    requires CommandInv(c) && c.state.Executing? && c.leaseToken == Some(claim.leaseToken) && IssuedFor(c, claim)
    requires CompletionFor(claim, disposition, limits, now).Ok?
    ensures var completion := CompletionFor(claim, disposition, limits, now).value;
      var d := Finished(c, claim.attemptId, completion);
      && d.request == c.request
      && (completion.manualFallback ==> Quarantined(d, now) == d && SweptExactly(c, d, c.request.deviceId))
  {
    var d := Finished(c, claim.attemptId, CompletionFor(claim, disposition, limits, now).value);
    FinishedKeeps(c, claim, disposition, limits, now);
    assert LeaseMatchesAttempt(d);
    hide CommandInv, HistoryGrows, LeaseMatchesAttempt;
    ExactlyOneActive(d);
  }

  /**
   Recovering leases sweeps exactly the devices it takes out of automatic mode; on every other device
   only the expired command itself changes, and goes where its policy sends it.
   */
  lemma {:induction false} RecoverySweepsExactly(run: Run, now: int, id: CommandId)
    requires run.Valid() && id in run.Last().commands
    ensures var t := run.Last();
      var u := Recovered(t, now, ExpiredIds(t, now));
      var d := t.commands[id].request.deviceId;
      && id in u.commands && d in t.devices && d in u.devices
      && (LeftAutomatic(t, u, d) ==> SweptExactly(t.commands[id], u.commands[id], d))
      && (!LeftAutomatic(t, u, d) ==>
            if Expired(t.commands[id], now)
            then u.commands[id].state == ExpiryTarget(t.commands[id].request.policy) && u.commands[id].leaseToken.None?
            else u.commands[id] == t.commands[id])
  {
    var t := run.Last();
    RowKept(run, id);
    hide RowOk;
    var d := t.commands[id].request.deviceId;
    if TakenDown(t, ExpiredIds(t, now), d) {
      var w :| w in ExpiredIds(t, now) && w in t.commands
        && t.commands[w].request.deviceId == d && t.commands[w].request.policy.ReviewManually?;
      RowKept(run, w);
      hide TakenDown, Recovered, SweptExactly;
      LeaseCorrespondence(run, id);
      RecoveredRowSwept(t, now, id, w);
    } else {
      hide SweptExactly;
      UnsweptRow(t, now, id);
    }
  }

  lemma UnsweptRow(t: Tables, now: int, id: CommandId)
    requires id in t.commands && RowOk(t, id) && !TakenDown(t, ExpiredIds(t, now), t.commands[id].request.deviceId)
    ensures var u := Recovered(t, now, ExpiredIds(t, now)); var d := t.commands[id].request.deviceId;
      && id in u.commands && d in t.devices && u.devices.Keys == t.devices.Keys && !LeftAutomatic(t, u, d)
      && if Expired(t.commands[id], now)
         then u.commands[id].state == ExpiryTarget(t.commands[id].request.policy) && u.commands[id].leaseToken.None?
         else u.commands[id] == t.commands[id]
  {
    hide TakenDown;
  }

  lemma RecoveredRowSwept(t: Tables, now: int, id: CommandId, down: CommandId)
    requires id in t.commands && RowOk(t, id) && down in ExpiredIds(t, now) && RowOk(t, down)
    requires t.commands[down].request.deviceId == t.commands[id].request.deviceId
      && t.commands[down].request.policy.ReviewManually?
    requires t.commands[id].state.Executing? ==> id == down
    ensures var u := Recovered(t, now, ExpiredIds(t, now)); var d := t.commands[id].request.deviceId;
      && id in u.commands && d in t.devices && d in u.devices && !u.devices[d].mode.Automatic?
      && t.devices[d].mode.Automatic? && SweptExactly(t.commands[id], u.commands[id], d)
  {
    assert TakenDown(t, ExpiredIds(t, now), t.commands[id].request.deviceId);
    hide TakenDown;
    QuarantinedKeeps(t.commands[id], now);
    ExactlyOneActive(Quarantined(t.commands[id], now));
  }

  lemma WhoLeavesAutomatic(t: Tables, op: Op, u: Tables, d: DeviceId)
    requires Step(t, op, u) && LeftAutomatic(t, u, d)
    ensures || op.RecoverLeases?
            || (op.Finish? && op.claim.request.deviceId == d)
            || (op.ChangeMode? && op.device == d && !op.mode.Automatic? && ValidReason(op.reason))
  {
    hide CompletionFor, Recovered;
  }

  /** Whatever transaction of whatever run takes a device out of automatic mode, it sweeps that device exactly. */
  lemma {:induction false} EveryDepartureSweeps(run: Run, d: DeviceId, id: CommandId)
    requires run.Valid() && run.Then? && LeftAutomatic(run.prior.Last(), run.Last(), d)
    requires id in run.prior.Last().commands && run.prior.Last().commands[id].request.deviceId == d
    ensures id in run.Last().commands && SweptExactly(run.prior.Last().commands[id], run.Last().commands[id], d)
  {
    var op := run.op;
    WhoLeavesAutomatic(run.prior.Last(), op, run.Last(), d);
    hide SweptExactly, LeftAutomatic, FinishTx, Recovered, ChangedMode, ForcedFallback;
    match op
    case RecoverLeases(at) => RecoverySweepsExactly(run.prior, at, id);
    case Finish(claim, disposition, limits, at) =>
      RowKept(run.prior, id);
      hide RowOk;
      FinishSweepsExactly(run.prior, claim, disposition, limits, at, id, d);
    case ChangeMode(device, mode, reason, at) =>
      RowKept(run.prior, id);
      LeavingAutomaticSweepsExactly(run.prior, d, mode, reason, at, id, d);
    case _ =>
  }

  // ---------- Logs and stored payloads ----------

  /** The log of a command: starts from nothing, chains, never leaves a terminal state, and ends in the stored state. */
  lemma {:induction false} LogReplaysToState(run: Run, id: CommandId, k: nat)
    requires run.Valid() && id in run.Last().commands && k < |run.Last().commands[id].events|
    ensures ReplaysAt(run.Last().commands[id], k)
  {
    RowKept(run, id);
    LogAt(run.Last().commands[id], k);
  }

  predicate ReplaysAt(c: Command, k: nat)
    requires k < |c.events|
  {
    && c.events[0].from.None?
    && (k > 0 ==> c.events[k].from == Some(c.events[k - 1].to) && !c.events[k - 1].to.IsTerminal())
    && c.events[|c.events| - 1].to == c.state
    && Starts(c.events) == |c.attempts|
    && (c.result.Some? <==> c.state.Succeeded?)
    && (c.resolutionNote.Some? <==> c.state.ResolvedManually?)
  }

  lemma LogAt(c: Command, k: nat)
    requires LogReplays(c) && PayloadMatchesState(c) && k < |c.events|
    ensures ReplaysAt(c, k)
  {
    ChainStarts(c.events);
    if k > 0 {
      ChainAt(c.events, k);
    }
  }

  lemma {:induction false} ChainStarts(events: seq<CommandEvent>)
    requires Chains(events)
    ensures events[0].from.None?
  {
    if |events| > 1 {
      ChainStarts(events[..|events| - 1]);
    }
  }

  lemma {:induction false} TerminalIsForever(run: Run, earlier: Run, id: CommandId)
    requires run.Valid() && run.Extends(earlier) && id in earlier.Last().commands
    requires earlier.Last().commands[id].state.IsTerminal()
    ensures id in run.Last().commands && run.Last().commands[id] == earlier.Last().commands[id]
  {
    RunEvolves(run, earlier);
  }

  lemma {:induction false} ControlLogReplaysToMode(run: Run, d: DeviceId, k: nat)
    requires run.Valid() && d in run.Last().devices && k < |run.Last().devices[d].controlEvents|
    ensures var log := run.Last().devices[d].controlEvents;
      && log[0] == ControlEvent(None, Disabled)
      && (k > 0 ==> log[k].from == Some(log[k - 1].to))
      && log[|log| - 1].to == run.Last().devices[d].mode
  {
    RunKeeps(run);
    ControlLogAt(run.Last(), d, k);
  }

  lemma ControlLogAt(t: Tables, d: DeviceId, k: nat)
    requires DevicesOk(t) && d in t.devices && k < |t.devices[d].controlEvents|
    ensures var log := t.devices[d].controlEvents;
      && log[0] == ControlEvent(None, Disabled)
      && (k > 0 ==> log[k].from == Some(log[k - 1].to))
      && log[|log| - 1].to == t.devices[d].mode
  {
    assert DeviceOk(t.devices[d]);
    ControlChainAt(t.devices[d].controlEvents, 0);
    ControlChainAt(t.devices[d].controlEvents, k);
  }

  lemma {:induction false} ControlChainAt(log: seq<ControlEvent>, k: nat)
    requires ControlChains(log) && k < |log|
    ensures if k == 0 then log[0] == ControlEvent(None, Disabled) else log[k].from == Some(log[k - 1].to)
  {
    if k < |log| - 1 {
      ControlChainAt(log[..|log| - 1], k);
    }
  }

  // ---------- Recovery history ----------

  /**
   Between an execution of unknown outcome and any later execution lies a probe that found nothing or an operator retry.
   */
  lemma {:induction false} NoBlindReexecution(run: Run, id: CommandId, i: nat, j: nat)
    requires run.Valid() && id in run.Last().commands
    requires !run.Last().commands[id].request.policy.DeviceDeduplicatedReplay?
    requires i < j < |run.Last().commands[id].attempts|
    requires Blind(run.Last().commands[id].attempts[i]) && run.Last().commands[id].attempts[j].kind.Execute?
    ensures ClearedBetween(run.Last().commands[id], i, j)
  {
    RowKept(run, id);
  }

  lemma {:induction false} ProbesBelongToTheirPolicy(run: Run, id: CommandId, claim: ClaimedCommand)
    requires run.Valid() && id in run.Last().commands
    ensures var c := run.Last().commands[id];
      && (c.state.RecoveryWait? ==> c.request.policy.ProbeThenRetry?)
      && (forall i :: 0 <= i < |c.attempts| && c.attempts[i].kind.RecoveryProbe? ==> c.request.policy.ProbeThenRetry?)
    ensures claim in run.HandedOut() && claim.kind.RecoveryProbe? ==> claim.request.policy.ProbeThenRetry?
  {
    RunKeeps(run);
    RowKept(run, id);
  }

  // ---------- Submission ----------

  predicate Recorded(t: Tables, request: CommandRequest) {
    request.commandId in t.commands && t.commands[request.commandId].request == request
  }

  lemma RecordedIsItsOnlyCandidate(t: Tables, request: CommandRequest)
    requires RowsOk(t) && IdentitiesUnique(t) && Recorded(t, request)
    ensures Candidates(t, request) == {request.commandId}
  {
    forall id | id in Candidates(t, request) ensures id == request.commandId {
      assert RowOk(t, id);
    }
    assert request.commandId in Candidates(t, request);
  }

  lemma RecordedReplays(t: Tables, request: CommandRequest, now: int)
    requires Inv(t) && Recorded(t, request) && request.Valid()
    ensures SubmitTx(t, request, now) == Ok((t, Replayed(t.commands[request.commandId])))
  {
    assert RowOk(t, request.commandId);
    RecordedIsItsOnlyCandidate(t, request);
  }

  lemma OverlapConflicts(t: Tables, request: CommandRequest, other: CommandRequest, now: int)
    requires Inv(t) && Recorded(t, request) && SharesIdentity(request, other) && other != request
    ensures SubmitTx(t, other, now).Err?
    ensures SubmissionFault(t, other).None? ==> SubmitTx(t, other, now).error == IdentityConflict
  {
    assert request.commandId in Candidates(t, other);
  }

  lemma {:induction false} AcceptedStaysRecorded(run: Run, accepted: Run)
    requires run.Valid() && run.Extends(accepted) && accepted.Then? && accepted.op.Submit?
    requires SubmitTx(accepted.prior.Last(), accepted.op.request, accepted.op.at).Ok?
    ensures Inv(run.Last()) && accepted.op.request.Valid() && Recorded(run.Last(), accepted.op.request)
  {
    hide Inv, Evolves;
    RunEvolves(run, accepted);
    SubmissionRecords(accepted.prior.Last(), accepted.op.request, accepted.op.at);
    RecordedLasts(accepted.Last(), run.Last(), accepted.op.request);
  }

  lemma SubmissionRecords(t: Tables, request: CommandRequest, at: int)
    requires SubmitTx(t, request, at).Ok?
    ensures request.Valid() && Recorded(AfterSubmit(t, request, at), request)
  {
  }

  lemma RecordedLasts(t: Tables, u: Tables, request: CommandRequest)
    requires Evolves(t, u) && Recorded(t, request)
    ensures Recorded(u, request)
  {
    assert CommandEvolves(t.commands[request.commandId], u.commands[request.commandId], t.nextUuid);
  }

  /**
   Once accepted, a submission replays its current record for the rest of the run, and no other request can take any
   part of its identity.
   */
  lemma {:induction false} SubmissionIsIdempotent(run: Run, accepted: Run, other: CommandRequest, now: int)
    requires run.Valid() && run.Extends(accepted) && accepted.Then? && accepted.op.Submit?
    requires SubmitTx(accepted.prior.Last(), accepted.op.request, accepted.op.at).Ok?
    ensures accepted.op.request.commandId in run.Last().commands
    ensures SubmitTx(run.Last(), accepted.op.request, now) ==
      Ok((run.Last(), Replayed(run.Last().commands[accepted.op.request.commandId])))
    ensures SharesIdentity(accepted.op.request, other) && other != accepted.op.request ==>
      SubmitTx(run.Last(), other, now).Err? && AfterSubmit(run.Last(), other, now) == run.Last()
  {
    hide Inv, Evolves;
    AcceptedStaysRecorded(run, accepted);
    RecordedReplays(run.Last(), accepted.op.request, now);
    if SharesIdentity(accepted.op.request, other) && other != accepted.op.request {
      OverlapConflicts(run.Last(), accepted.op.request, other, now);
    }
  }

  // ---------- Attempt accounting and budget ----------

  predicate ClaimsWithin(run: Run, max: nat) {
    run.Then? ==> ClaimsWithin(run.prior, max) && (run.op.Claim? ==> run.op.maxAttempts <= max)
  }

  lemma OnlyClaimsCount(t: Tables, op: Op, u: Tables, id: CommandId)
    requires RowsOk(t) && Step(t, op, u) && !op.Claim? && id in u.commands
    ensures u.commands[id].attemptCount == if id in t.commands then t.commands[id].attemptCount else 0
  {
    hide RowsOk;
    if op.Submit? && Candidates(t, op.request) == {} {
      NoCandidate(t, op.request);
    }
  }

  lemma {:induction false} AttemptsWithinBudget(run: Run, max: nat, id: CommandId)
    requires run.Valid() && ClaimsWithin(run, max) && id in run.Last().commands
    ensures run.Last().commands[id].attemptCount <= max
  {
    var t, u := run.prior.Last(), run.tables;
    if run.op.Claim? {
      if run.op.claim.request.commandId != id || t.commands[id].state.RecoveryWait? {
        AttemptsWithinBudget(run.prior, max, id);
      }
    } else {
      RunKeeps(run.prior);
      OnlyClaimsCount(t, run.op, u, id);
      if id in t.commands {
        AttemptsWithinBudget(run.prior, max, id);
      }
    }
  }

  /**
   Attempts are numbered 1..n, attempt_count counts the executions, and a fixed limit is never exceeded, operator
   retries included.
   */
  lemma {:induction false} AttemptAccounting(run: Run, max: nat, id: CommandId, i: nat)
    requires run.Valid() && ClaimsWithin(run, max) && id in run.Last().commands
    requires i < |run.Last().commands[id].attempts|
    ensures var c := run.Last().commands[id];
      && KindCount(c.attempts, Execute) == c.attemptCount <= max
      && c.attempts[i].sequence == i + 1
      && c.attempts[i].executionAttempt == KindCount(c.attempts[..i + 1], Execute)
  {
    RowKept(run, id);
    AttemptsWithinBudget(run, max, id);
  }

  /** What the runner is handed: the newest attempt, numbered by the executions and probes so far. */
  lemma {:induction false} ClaimDescribesItsAttempt(run: Run, claim: ClaimedCommand)
    requires run.Valid() && run.Then? && run.op.Claim? && run.op.claim == claim
    ensures claim.request.commandId in run.Last().commands
    ensures var c := run.Last().commands[claim.request.commandId];
      && c.attempts != []
      && claim.recoveryProbeCount == KindCount(c.attempts, RecoveryProbe)
      && claim.attempt == KindCount(c.attempts, Execute)
      && c.attempts[|c.attempts| - 1] == Attempt(claim.attemptId, |c.attempts|, claim.attempt, claim.kind, Active)
      && c.leaseToken == Some(claim.leaseToken)
  {
    RowKept(run, claim.request.commandId);
  }
}
