/** Why waiting needs a clock that moves on: a run in which it goes back and a command is claimed before its time. */
module EdgeWaitingLimits {
  import opened Common
  import opened EdgeTables
  import opened EdgeCommandInvariant
  import opened EdgeInvariant
  import opened EdgeTransactions
  import opened EdgeRuns
  import opened EdgeWorld
  import opened EdgeWaiting
  import EdgeWorldLimits

  /** The one command of one automatic device waits until `due`. */
  predicate WaitsUntil(t: Tables, state: CommandState, due: int, attempts: nat) {
    && t.commands.Keys == {7} && t.devices.Keys == {3}
    && t.commands[7].request == EdgeWorldLimits.REQUEST && t.commands[7].state == state
    && t.commands[7].nextAttemptAt == due && t.commands[7].attemptCount == attempts
    && t.devices[3].descriptor == EdgeWorldLimits.DESCRIPTOR && t.devices[3].mode.Automatic?
  }

  lemma Submitted() returns (run: Run, due: int)
    ensures run.Valid() && WaitsUntil(run.Last(), Queued, due, 0) && due <= 1
  {
    var h := EdgeWorldLimits.Queueing();
    HistoryIsARun(h);
    run, due := Transactions(h), h.Now().tables.commands[7].nextAttemptAt;
  }

  lemma Tried(run: Run, state: CommandState, due: int, attempts: nat, now: int) returns (later: Run)
    requires run.Valid() && WaitsUntil(run.Last(), state, due, attempts) && (state.Queued? || state.RetryWait?)
    requires due <= now && attempts < 8
    ensures later.Valid() && later.Then? && later.prior == run && later.op.Claim? && later.op.at == now
    ensures later.op.claim.request.commandId == 7 && later.op.claim.kind.Execute?
    ensures later.op.claim.attempt == attempts + 1 && HoldsLease(later.Last(), later.op.claim)
    ensures WaitsUntil(later.Last(), Executing, due, attempts + 1)
  {
    var t := run.Last();
    var claim := ClaimOf(t, 7, now + 10);
    assert !DeviceBusy(t, 3);
    assert Eligible(t, 7, now, 8);
    assert IsNext(t, 7, now, 8);
    later := Then(run, Claim(now, now + 10, 8, claim), Claimed(t, 7, now + 10));
  }

  lemma FinishedWaits(t: Tables, claim: ClaimedCommand, due: int, attempts: nat, at: int, now: int)
    requires HoldsLease(t, claim) && Issued(t, claim) && WaitsUntil(t, Executing, due, attempts)
    requires claim.request.commandId == 7 && claim.kind.Execute? && claim.attempt == attempts < 8
    ensures var r := FinishTx(t, claim, RetryLater(at), RetryLimits(8, 8), now);
      r.Ok? && WaitsUntil(r.value, RetryWait, at, attempts)
  {
    hide CloseMatching;
  }

  lemma PutOff(run: Run, due: int, attempts: nat, at: int, now: int) returns (later: Run)
    requires run.Valid() && run.Then? && run.op.Claim? && HoldsLease(run.Last(), run.op.claim)
    requires run.op.claim.request.commandId == 7 && run.op.claim.kind.Execute? && run.op.claim.attempt == attempts < 8
    requires WaitsUntil(run.Last(), Executing, due, attempts)
    ensures later.Valid() && later.Then? && later.prior == run
    ensures later.op == Finish(run.op.claim, RetryLater(at), RetryLimits(8, 8), now)
    ensures FinishTx(run.Last(), run.op.claim, RetryLater(at), RetryLimits(8, 8), now).Ok?
    ensures WaitsUntil(later.Last(), RetryWait, at, attempts)
  {
    hide Inv, Issued, FinishTx, WaitsUntil, HoldsLease, ClaimStep;
    var claim := run.op.claim;
    RunKeeps(run);
    FinishedWaits(run.Last(), claim, due, attempts, at, now);
    var r := FinishTx(run.Last(), claim, RetryLater(at), RetryLimits(8, 8), now);
    later := Then(run, Finish(claim, RetryLater(at), RetryLimits(8, 8), now), r.value);
  }

  /** Put off to 50, tried at 100, put off again, and tried at 20 by a clock that went back: before the first time. */
  lemma {:induction false} ClockGoingBackClaimsEarly() returns (run: Run, earlier: Run)
    ensures run.Valid() && run.Then? && run.op.Claim? && run.op.claim.request.commandId == 7
    ensures run.prior.Extends(earlier) && earlier.Then? && earlier.op.Finish?
    ensures earlier.op.claim.request.commandId == 7 && earlier.op.disposition.RetryLater?
    ensures var op := earlier.op; FinishTx(earlier.prior.Last(), op.claim, op.disposition, op.limits, op.at).Ok?
    ensures !RetriedSince(run.prior, earlier, 7) && run.op.at < earlier.op.disposition.at
  {
    hide WaitsUntil, HoldsLease, FinishTx, Step;
    var submitted, due := Submitted();
    var first := Tried(submitted, Queued, due, 0, 1);
    earlier := PutOff(first, due, 1, 50, 1);
    var second := Tried(earlier, RetryWait, 50, 1, 100);
    var again := PutOff(second, 50, 2, 20, 100);
    run := Tried(again, RetryWait, 20, 2, 20);
    assert earlier.Extends(earlier) && second.Extends(earlier);
    assert !RetriedSince(earlier, earlier, 7);
    assert !RetriedSince(second, earlier, 7);
  }
}
