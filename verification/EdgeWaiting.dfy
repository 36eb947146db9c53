/** Between two tries: on every run, a command put off to a later time is not claimed before it. */
module EdgeWaiting {
  import opened Common
  import opened EdgeTables
  import opened EdgeInvariant
  import opened EdgeRecovery
  import opened EdgeTransactions
  import opened EdgeRuns
  import opened EdgeOutcomes

  /** Some step of the run after `earlier` is a claim of the command. */
  predicate ClaimedSince(run: Run, earlier: Run, id: CommandId) {
    && run != earlier && run.Then?
    && ((run.op.Claim? && run.op.claim.request.commandId == id) || ClaimedSince(run.prior, earlier, id))
  }

  /** Some step of the run after `earlier` is an operator's retry of the command. */
  predicate RetriedSince(run: Run, earlier: Run, id: CommandId) {
    && run != earlier && run.Then?
    && ((run.op.Retry? && run.op.command == id) || RetriedSince(run.prior, earlier, id))
  }

  /** No claim of the run after `earlier` was made at a later time than this. */
  predicate NoClaimLater(run: Run, earlier: Run, at: int) {
    run != earlier && run.Then? ==> NoClaimLater(run.prior, earlier, at) && (run.op.Claim? ==> run.op.at <= at)
  }

  /** After `earlier` the runner's clock never went back from one claim to the next. */
  predicate ClockMovesOn(run: Run, earlier: Run) {
    run != earlier && run.Then? ==>
      ClockMovesOn(run.prior, earlier) && (run.op.Claim? ==> NoClaimLater(run.prior, earlier, run.op.at))
  }

  /** The command waits until then, or has been taken out of the runner's reach. */
  predicate Held(c: Command, at: int) {
    || ((c.state == RetryWait || c.state == RecoveryWait) && c.nextAttemptAt == at)
    || c.state == ManualReview || c.state == ResolvedManually || c.state == Cancelled
  }

  lemma QuarantinedHolds(c: Command, now: int, at: int)
    requires Held(c, at)
    ensures Held(Quarantined(c, now), at)
  {
  }

  lemma UnleasedHolds(t: Tables, other: CommandId, reason: string, to: CommandState, allowed: set<CommandState>,
      id: CommandId, at: int)
    requires id in t.commands && Held(t.commands[id], at) && (to == ResolvedManually || to == Cancelled)
    ensures var u := After(t, OperatorTx(t, other, reason, to, allowed));
      id in u.commands && Held(u.commands[id], at)
  {
  }

  lemma SubmitHolds(t: Tables, request: CommandRequest, now: int, id: CommandId, at: int)
    requires RowsOk(t) && id in t.commands && Held(t.commands[id], at)
    ensures var u := AfterSubmit(t, request, now); id in u.commands && Held(u.commands[id], at)
  {
    SubmittedShape(t, request, now);
    hide RowsOk, Held, AfterSubmit, Submitted;
  }

  lemma ModeHolds(t: Tables, d: DeviceId, mode: ControlMode, reason: string, now: int, id: CommandId, at: int)
    requires id in t.commands && Held(t.commands[id], at)
    ensures var u := After(t, ChangeModeTx(t, d, mode, reason, now)); id in u.commands && Held(u.commands[id], at)
  {
    QuarantinedHolds(t.commands[id], now, at);
    hide Held, Quarantined;
  }

  lemma RetryHolds(t: Tables, other: CommandId, reason: string, now: int, id: CommandId, at: int)
    requires id in t.commands && Held(t.commands[id], at) && id != other
    ensures var u := After(t, RetryTx(t, other, reason, now)); id in u.commands && Held(u.commands[id], at)
  {
    hide Held, Unleased;
  }

  lemma OthersHold(t: Tables, op: Op, id: CommandId, at: int)
    requires RowsOk(t) && ByOthers(op) && id in t.commands && Held(t.commands[id], at)
    requires !(op.Retry? && op.command == id)
    ensures id in Operated(t, op).commands && Held(Operated(t, op).commands[id], at)
  {
    hide RowsOk, Held, AfterSubmit, ChangeModeTx, OperatorTx, RetryTx;
    match op
    case Submit(request, now) => SubmitHolds(t, request, now, id, at);
    case ChangeMode(d, mode, reason, now) => ModeHolds(t, d, mode, reason, now, id, at);
    case Resolve(other, note) => UnleasedHolds(t, other, note, ResolvedManually, {ManualReview}, id, at);
    case Cancel(other, reason) =>
      UnleasedHolds(t, other, reason, Cancelled, {Queued, RetryWait, RecoveryWait, ManualReview}, id, at);
    case Retry(other, reason, now) => RetryHolds(t, other, reason, now, id, at);
    case _ =>
  }

  lemma FinishHolds(t: Tables, claim: ClaimedCommand, disposition: Disposition, limits: RetryLimits, now: int,
      id: CommandId, at: int)
    requires id in t.commands && Held(t.commands[id], at)
    ensures var u := After(t, FinishTx(t, claim, disposition, limits, now));
      id in u.commands && Held(u.commands[id], at)
  {
    QuarantinedHolds(t.commands[id], now, at);
    hide CompletionFor, Quarantined;
    assert HoldsLease(t, claim) ==> claim.request.commandId != id;
    hide Held;
  }

  lemma RecoveryHolds(t: Tables, now: int, id: CommandId, at: int)
    requires id in t.commands && Held(t.commands[id], at)
    ensures var u := Recovered(t, now, ExpiredIds(t, now)); id in u.commands && Held(u.commands[id], at)
  {
    hide Recovered, TakenDown, Quarantined;
    QuarantinedHolds(t.commands[id], now, at);
    RowRecovered(t, now, ExpiredIds(t, now), id);
  }

  lemma ClaimHolds(t: Tables, u: Tables, claim: ClaimedCommand, now: int, until: int, maxAttempts: nat,
      id: CommandId, at: int)
    requires id in t.commands && Held(t.commands[id], at)
    requires ClaimStep(t, u, claim, now, until, maxAttempts) && claim.request.commandId != id
    ensures id in u.commands && Held(u.commands[id], at)
  {
    hide Held, Leased, IsNext;
  }

  lemma StepHolds(t: Tables, op: Op, u: Tables, id: CommandId, at: int)
    requires RowsOk(t) && Step(t, op, u) && id in t.commands && Held(t.commands[id], at)
    requires !(op.Retry? && op.command == id) && !(op.Claim? && op.claim.request.commandId == id)
    ensures id in u.commands && Held(u.commands[id], at)
  {
    hide RowsOk, Operated, Recovered, ClaimStep, FinishTx, Held;
    match op
    case RecoverLeases(now) => RecoveryHolds(t, now, id, at);
    case Claim(now, until, maxAttempts, claim) => ClaimHolds(t, u, claim, now, until, maxAttempts, id, at);
    case Finish(claim, disposition, limits, now) => FinishHolds(t, claim, disposition, limits, now, id, at);
    case _ => OthersHold(t, op, id, at);
  }

  /** Until somebody claims or retries it, the command is held. */
  lemma {:induction false} StaysHeld(run: Run, earlier: Run, id: CommandId, at: int)
    requires run.Valid() && run.Extends(earlier)
    requires id in earlier.Last().commands && Held(earlier.Last().commands[id], at)
    requires !ClaimedSince(run, earlier, id) && !RetriedSince(run, earlier, id)
    ensures id in run.Last().commands && Held(run.Last().commands[id], at)
  {
    if run != earlier {
      StaysHeld(run.prior, earlier, id, at);
      RunKeeps(run.prior);
      assert RowsOk(run.prior.Last());
      hide Inv, RowsOk, Held, Issued;
      StepHolds(run.prior.Last(), run.op, run.tables, id, at);
    }
  }

  /** The first claim after the command was held came no earlier than its time. */
  lemma {:induction false} FirstClaimInTime(run: Run, earlier: Run, id: CommandId, at: int, x: int)
    requires run.Valid() && run.Extends(earlier)
    requires id in earlier.Last().commands && Held(earlier.Last().commands[id], at)
    requires ClaimedSince(run, earlier, id) && !RetriedSince(run, earlier, id) && NoClaimLater(run, earlier, x)
    ensures at <= x
  {
    if ClaimedSince(run.prior, earlier, id) {
      FirstClaimInTime(run.prior, earlier, id, at, x);
    } else {
      StaysHeld(run.prior, earlier, id, at);
    }
  }

  lemma {:induction false} FinishedIsHeld(run: Run, earlier: Run)
    requires run.Valid() && run.Extends(earlier) && earlier.Then? && earlier.op.Finish?
    requires earlier.op.disposition.RetryLater? || earlier.op.disposition.Uncertain? || earlier.op.disposition.Defer?
    requires var op := earlier.op;
      FinishTx(earlier.prior.Last(), op.claim, op.disposition, op.limits, op.at).Ok?
    ensures earlier.op.claim.request.commandId in earlier.Last().commands
    ensures Held(earlier.Last().commands[earlier.op.claim.request.commandId], earlier.op.disposition.at)
  {
    hide Inv, Evolves, Issued, FinishTx;
    RunEvolves(run, earlier);
    RunKeeps(earlier.prior);
    EndLeaves(earlier.prior.Last(), earlier.op.claim, earlier.op.disposition, earlier.op.limits, earlier.op.at);
  }

  function Length(run: Run): nat {
    if run.Start? then 0 else 1 + Length(run.prior)
  }

  lemma {:induction false} NotItsOwnPrior(run: Run, earlier: Run)
    requires run.Then? && run.prior.Extends(earlier)
    ensures run != earlier
  {
    ExtendsIsLonger(run.prior, earlier);
  }

  lemma {:induction false} ExtendsIsLonger(run: Run, earlier: Run)
    requires run.Extends(earlier)
    ensures Length(earlier) <= Length(run)
  {
    if run != earlier {
      ExtendsIsLonger(run.prior, earlier);
    }
  }

  /**
   A failed, uncertain or unfinished try is not followed by a claim before the time it was put off to, unless an
   operator sends the command back: not by the next claim in any case, and not by any claim while the clock moves on.
   */
  lemma {:induction false} BackoffIsHonoured(run: Run, earlier: Run)
    requires run.Valid() && run.Then? && run.op.Claim? && run.prior.Extends(earlier)
    requires earlier.Then? && earlier.op.Finish?
    requires earlier.op.claim.request.commandId == run.op.claim.request.commandId
    requires earlier.op.disposition.RetryLater? || earlier.op.disposition.Uncertain? || earlier.op.disposition.Defer?
    requires var op := earlier.op;
      FinishTx(earlier.prior.Last(), op.claim, op.disposition, op.limits, op.at).Ok?
    requires !RetriedSince(run.prior, earlier, run.op.claim.request.commandId)
    ensures !ClaimedSince(run.prior, earlier, run.op.claim.request.commandId) || ClockMovesOn(run, earlier) ==>
      earlier.op.disposition.at <= run.op.at
  {
    var id, at := run.op.claim.request.commandId, earlier.op.disposition.at;
    FinishedIsHeld(run.prior, earlier);
    if ClaimedSince(run.prior, earlier, id) {
      if ClockMovesOn(run, earlier) {
        assert run != earlier by {
          NotItsOwnPrior(run, earlier);
        }
        FirstClaimInTime(run.prior, earlier, id, at, run.op.at);
      }
    } else {
      StaysHeld(run.prior, earlier, id, at);
    }
  }
}
