/** The edge agent's transactions in terms of the stored columns: what each leaves in the rows it touches, and when. */
module EdgeOutcomes {
  import opened Common
  import opened EdgeTables
  import opened EdgeCommandInvariant
  import opened EdgeInvariant
  import opened EdgeRecovery
  import opened EdgeTransactions
  import Text

  // ---------- Ending a claim ----------

  /** The claim was its command's last try of this kind. */
  predicate LastTry(claim: ClaimedCommand, limits: RetryLimits) {
    || (claim.kind == Execute && limits.executionAttempts <= claim.attempt)
    || (claim.kind == RecoveryProbe && limits.recoveryProbes <= claim.recoveryProbeCount)
  }

  /** The state an ended claim leaves its command in. */
  predicate EndsIn(claim: ClaimedCommand, disposition: Disposition, limits: RetryLimits, state: CommandState) {
    match disposition
    case Success(_) => state == Succeeded
    case Reject => state == Failed
    case RetryLater(_) =>
      if LastTry(claim, limits) then state == ManualReview
      else state == if claim.kind == RecoveryProbe then RecoveryWait else RetryWait
    case Uncertain(_) =>
      && (claim.request.policy == ReviewManually ==> state == ManualReview)
      && (claim.request.policy == ProbeThenRetry ==> state == RecoveryWait)
      && (claim.request.policy == DeviceDeduplicatedReplay ==> state == RetryWait)
    case Defer(_) => state == RecoveryWait
    case AbsentDownstream => state == Queued
    case Review => state == ManualReview
  }

  /** When the command may be claimed again, if it may. */
  function DueAt(disposition: Disposition, now: int): int {
    match disposition
    case RetryLater(at) => at
    case Uncertain(at) => at
    case Defer(at) => at
    case _ => now
  }

  /** How the attempt is recorded. */
  function NotedAs(claim: ClaimedCommand, disposition: Disposition, limits: RetryLimits): AttemptState {
    match disposition
    case Success(_) => AttemptSucceeded
    case Reject => PermanentFailure
    case RetryLater(_) => if LastTry(claim, limits) then NeedsReview else RetryableFailure
    case Uncertain(_) => AmbiguousOutcome
    case Defer(_) => StillProcessing
    case AbsentDownstream => NothingFound
    case Review => NeedsReview
  }

  /** What the end of a claim leaves in its command's row and its device's. */
  predicate Ends(
      t: Tables, u: Tables, claim: ClaimedCommand, disposition: Disposition, limits: RetryLimits, now: int)
  {
    && claim.request.commandId in t.commands && claim.request.deviceId in t.devices
    && claim.request.commandId in u.commands && claim.request.deviceId in u.devices
    && var c, d := t.commands[claim.request.commandId], u.commands[claim.request.commandId];
    && EndsIn(claim, disposition, limits, d.state)
    && d.nextAttemptAt == DueAt(disposition, now)
    && d.leaseToken == None && d.leaseUntil == None
    && d.result == (if disposition.Success? then Some(disposition.result) else None)
    && |d.attempts| == |c.attempts| > 0
    && d.attempts[|d.attempts| - 1] ==
       c.attempts[|c.attempts| - 1].(state := NotedAs(claim, disposition, limits))
    && d.events == c.events + [CommandEvent(Some(Executing), d.state)]
    && u.devices[claim.request.deviceId].mode ==
       (if d.state == ManualReview then ManualFallback else t.devices[claim.request.deviceId].mode)
  }

  lemma CompletesExactlyWhen(claim: ClaimedCommand, disposition: Disposition, limits: RetryLimits, now: int)
    ensures CompletionFor(claim, disposition, limits, now).Ok? <==>
      && (disposition.Success? ==>
            disposition.result.wellFormed && disposition.result.deviceClass == claim.request.command.deviceClass)
      && (disposition.Defer? || disposition.AbsentDownstream? ==> claim.kind == RecoveryProbe)
  {
  }

  lemma LeasedIsExecuting(t: Tables, claim: ClaimedCommand)
    requires Inv(t) && Issued(t, claim)
    ensures HoldsLease(t, claim) <==> t.commands[claim.request.commandId].leaseToken == Some(claim.leaseToken)
  {
    assert RowOk(t, claim.request.commandId);
    assert LeaseMatchesAttempt(t.commands[claim.request.commandId]);
  }

  /** A claim is ended exactly while it holds its lease, with a result of its class, and only a probe as a probe. */
  lemma EndedExactlyWhen(t: Tables, claim: ClaimedCommand, disposition: Disposition, limits: RetryLimits, now: int)
    requires Inv(t) && Issued(t, claim)
    ensures FinishTx(t, claim, disposition, limits, now).Ok? <==>
      && t.commands[claim.request.commandId].leaseToken == Some(claim.leaseToken)
      && (disposition.Success? ==>
            disposition.result.wellFormed && disposition.result.deviceClass == claim.request.command.deviceClass)
      && (disposition.Defer? || disposition.AbsentDownstream? ==> claim.kind == RecoveryProbe)
  {
    LeasedIsExecuting(t, claim);
    CompletesExactlyWhen(claim, disposition, limits, now);
    FinishKeeps(t, claim, disposition, limits, now);
    hide FinishTx, Inv, IssuedFor, HoldsLease, CompletionFor, Evolves;
  }

  lemma CompletionIs(claim: ClaimedCommand, disposition: Disposition, limits: RetryLimits, now: int)
    requires CompletionFor(claim, disposition, limits, now).Ok?
    ensures var completion := CompletionFor(claim, disposition, limits, now).value;
      && EndsIn(claim, disposition, limits, completion.target)
      && completion.nextAttemptAt == DueAt(disposition, now)
      && completion.result == (if disposition.Success? then Some(disposition.result) else None)
      && completion.attemptState == NotedAs(claim, disposition, limits)
      && (completion.manualFallback <==> completion.target == ManualReview)
  {
  }

  lemma AttemptEnds(c: Command, claim: ClaimedCommand, completion: Completion)
    requires CommandInv(c) && c.state.Executing? && c.leaseToken == Some(claim.leaseToken) && IssuedFor(c, claim)
    ensures var d := Finished(c, claim.attemptId, completion);
      && |d.attempts| == |c.attempts| > 0
      && d.attempts[|d.attempts| - 1] == c.attempts[|c.attempts| - 1].(state := completion.attemptState)
  {
  }

  lemma RowsEnd(t: Tables, claim: ClaimedCommand, completion: Completion, now: int)
    requires HoldsLease(t, claim) && claim.request.deviceId in t.devices
    requires completion.manualFallback <==> completion.target == ManualReview
    ensures var u := FinishedTables(t, claim, completion, now); var id := claim.request.commandId;
      && id in u.commands && u.commands[id] == Finished(t.commands[id], claim.attemptId, completion)
      && claim.request.deviceId in u.devices
      && u.devices[claim.request.deviceId].mode ==
         (if completion.target == ManualReview then ManualFallback else t.devices[claim.request.deviceId].mode)
  {
    hide CloseMatching;
  }

  /** What a committed end leaves behind, from the claim, the disposition and the limits alone. */
  lemma EndLeaves(t: Tables, claim: ClaimedCommand, disposition: Disposition, limits: RetryLimits, now: int)
    requires Inv(t) && Issued(t, claim) && FinishTx(t, claim, disposition, limits, now).Ok?
    ensures Ends(t, FinishTx(t, claim, disposition, limits, now).value, claim, disposition, limits, now)
  {
    assert RowOk(t, claim.request.commandId);
    hide Inv, RowOk, EndsIn, DueAt, NotedAs, CompletionFor, FinishedTables, CommandInv;
    var completion := CompletionFor(claim, disposition, limits, now).value;
    CompletionIs(claim, disposition, limits, now);
    AttemptEnds(t.commands[claim.request.commandId], claim, completion);
    RowsEnd(t, claim, completion, now);
    hide CloseMatching;
  }

  // ---------- Recovering leases ----------

  /** The commands whose lease ends by `now`. */
  function RanOut(t: Tables, now: int): set<CommandId> {
    set id | id in t.commands && t.commands[id].state == Executing
      && t.commands[id].leaseUntil.Some? && t.commands[id].leaseUntil.value <= now
  }

  function RanOutUnder(t: Tables, now: int, policy: RecoveryPolicy): set<CommandId> {
    set id | id in RanOut(t, now) && t.commands[id].request.policy == policy
  }

  /** What recovery makes of one command, by its lease, the clock and its policy. */
  predicate RecoversTo(c: Command, d: Command, now: int) {
    && (c.state == Executing && c.leaseUntil.Some? && c.leaseUntil.value <= now ==>
          && d.nextAttemptAt == now && d.leaseToken == None && d.leaseUntil == None
          && (c.request.policy == DeviceDeduplicatedReplay ==> d.state == RetryWait)
          && (c.request.policy == ProbeThenRetry ==> d.state == RecoveryWait)
          && (c.request.policy == ReviewManually ==> d.state == ManualReview)
          && d.attemptCount == c.attemptCount && |d.attempts| == |c.attempts| > 0
          && d.attempts[|d.attempts| - 1] == c.attempts[|c.attempts| - 1].(state := Abandoned)
          && d.events == c.events + [CommandEvent(Some(Executing), d.state)])
    && (c.state == Executing && c.leaseUntil.Some? && c.leaseUntil.value > now ==> d == c)
    && (d.state == Executing ==> d.leaseUntil.Some? && d.leaseUntil.value > now)
  }

  /** A command still within its lease keeps its device: no other command of the device can be executing. */
  lemma OnlyItsDeviceFalls(t: Tables, now: int, id: CommandId)
    requires OneExecutingPerDevice(t) && id in t.commands && t.commands[id].state == Executing
    requires id !in ExpiredIds(t, now)
    ensures !TakenDown(t, ExpiredIds(t, now), t.commands[id].request.deviceId)
  {
  }

  lemma RowByTheClock(c: Command, expired: bool, taken: bool, now: int)
    requires LeaseMatchesAttempt(c) && (expired <==> Expired(c, now)) && (c.state == Executing && !expired ==> !taken)
    ensures RecoversTo(c, if expired then Revoked(c, ExpiryTarget(c.request.policy), now)
      else if taken then Quarantined(c, now) else c, now)
  {
  }

  /** Recovery takes exactly the leases that ran out, and leaves every other lease as it is. */
  lemma RecoveryByTheClock(t: Tables, now: int, id: CommandId)
    requires Inv(t) && id in t.commands
    ensures var u := Recovered(t, now, ExpiredIds(t, now));
      id in u.commands && RecoversTo(t.commands[id], u.commands[id], now)
  {
    var c := t.commands[id];
    assert RowOk(t, id);
    if c.state == Executing && id !in ExpiredIds(t, now) {
      OnlyItsDeviceFalls(t, now, id);
    }
    assert LeaseMatchesAttempt(c);
    hide Inv, RowOk, Recovered, TakenDown, CommandInv;
    RowRecovered(t, now, ExpiredIds(t, now), id);
    RowByTheClock(c, Expired(c, now), TakenDown(t, ExpiredIds(t, now), c.request.deviceId), now);
  }

  /** The leases recovery counts, all and by policy, are those that ran out. */
  lemma CountedByTheClock(t: Tables, now: int)
    ensures ExpiredIds(t, now) == RanOut(t, now)
    ensures forall policy ::
      RanOutUnder(t, now, policy) == set id | id in ExpiredIds(t, now) && t.commands[id].request.policy == policy
  {
  }

  // ---------- Claiming ----------

  /** The command waits, its time has come, and it may be tried again. */
  predicate Due(c: Command, now: int, maxAttempts: nat) {
    && c.nextAttemptAt <= now
    && (c.state == RecoveryWait || ((c.state == Queued || c.state == RetryWait) && c.attemptCount < maxAttempts))
  }

  predicate Occupied(t: Tables, d: DeviceId) {
    exists id :: id in t.commands && t.commands[id].request.deviceId == d && t.commands[id].state == Executing
  }

  /** Nothing can be claimed: whatever is due waits for another command of its device. */
  predicate NothingDue(t: Tables, now: int, maxAttempts: nat) {
    forall id :: id in t.commands && Due(t.commands[id], now, maxAttempts) ==>
      Occupied(t, t.commands[id].request.deviceId)
  }

  /** Earlier due time first, then earlier submission, then smaller id. */
  predicate NotBefore(c: Command, id: CommandId, than: Command, other: CommandId) {
    && than.nextAttemptAt <= c.nextAttemptAt
    && (than.nextAttemptAt == c.nextAttemptAt ==> than.createdAt <= c.createdAt)
    && (than.nextAttemptAt == c.nextAttemptAt && than.createdAt == c.createdAt ==> other <= id)
  }

  /** The command is due on an idle automatic device, and no other such command comes before it. */
  predicate FirstDue(t: Tables, id: CommandId, now: int, maxAttempts: nat) {
    && id in t.commands
    && var c := t.commands[id];
    && Due(c, now, maxAttempts) && !Occupied(t, c.request.deviceId)
    && c.request.deviceId in t.devices && t.devices[c.request.deviceId].mode == Automatic
    && forall other ::
         (other in t.commands && Due(t.commands[other], now, maxAttempts)
          && !Occupied(t, t.commands[other].request.deviceId)) ==> NotBefore(t.commands[other], other, c, id)
  }

  /** What a claim makes of its row: a lease until the given time, one more attempt, one more log entry. */
  predicate TakenAs(c: Command, d: Command, claim: ClaimedCommand, until: int) {
    && d.state == Executing && d.leaseUntil == Some(until) && d.leaseToken == Some(claim.leaseToken)
    && d.request == c.request == claim.request
    && (claim.kind == RecoveryProbe <==> c.state == RecoveryWait)
    && d.attemptCount == claim.attempt == c.attemptCount + (if c.state == RecoveryWait then 0 else 1)
    && d.attempts == c.attempts + [Attempt(claim.attemptId, |c.attempts| + 1, claim.attempt, claim.kind, Active)]
    && d.events == c.events + [CommandEvent(Some(c.state), Executing)]
    && d.nextAttemptAt == c.nextAttemptAt && d.createdAt == c.createdAt
  }

  /** A claim takes the first due command and changes nothing else. */
  predicate ClaimsFirst(t: Tables, u: Tables, claim: ClaimedCommand, now: int, until: int, maxAttempts: nat) {
    var id := claim.request.commandId;
    && FirstDue(t, id, now, maxAttempts)
    && id in u.commands && TakenAs(t.commands[id], u.commands[id], claim, until)
    && u.devices == t.devices
    && forall other :: other in t.commands && other != id ==>
         other in u.commands && u.commands[other] == t.commands[other]
  }

  /** One more try would leave the 32 bits of a counter. */
  predicate CountersFull(c: Command) {
    || c.attemptCount + (if c.state == RecoveryWait then 0 else 1) > 0xFFFF_FFFF
    || KindCount(c.attempts, RecoveryProbe) + (if c.state == RecoveryWait then 1 else 0) > 0xFFFF_FFFF
  }

  /** The command whose turn it is has no number left. */
  predicate NoNumberLeft(t: Tables, now: int, maxAttempts: nat) {
    exists id :: id in t.commands && FirstDue(t, id, now, maxAttempts) && CountersFull(t.commands[id])
  }

  /** The lease would end beyond 64 bits, or the command whose turn it is has no number left. */
  predicate CannotClaim(t: Tables, now: int, leaseMillis: nat, maxAttempts: nat) {
    || leaseMillis > 0x7FFF_FFFF_FFFF_FFFF || now + leaseMillis > 0x7FFF_FFFF_FFFF_FFFF
    || NoNumberLeft(t, now, maxAttempts)
  }

  lemma OneFirstDue(t: Tables, a: CommandId, b: CommandId, now: int, maxAttempts: nat)
    requires FirstDue(t, a, now, maxAttempts) && FirstDue(t, b, now, maxAttempts)
    ensures a == b
  {
    hide Due, Occupied;
  }

  lemma EligibleIsDue(t: Tables, id: CommandId, now: int, maxAttempts: nat)
    requires RowsOk(t) && id in t.commands
    ensures Eligible(t, id, now, maxAttempts) <==>
      Due(t.commands[id], now, maxAttempts) && !Occupied(t, t.commands[id].request.deviceId)
  {
    assert RowOk(t, id);
    hide RowsOk;
    assert DeviceBusy(t, t.commands[id].request.deviceId) <==> Occupied(t, t.commands[id].request.deviceId);
  }

  lemma NextIsFirstDue(t: Tables, id: CommandId, now: int, maxAttempts: nat)
    requires RowsOk(t) && IsNext(t, id, now, maxAttempts)
    ensures FirstDue(t, id, now, maxAttempts)
  {
    forall other | other in t.commands && Due(t.commands[other], now, maxAttempts)
        && !Occupied(t, t.commands[other].request.deviceId)
      ensures NotBefore(t.commands[other], other, t.commands[id], id)
    {
      EligibleIsDue(t, other, now, maxAttempts);
    }
    EligibleIsDue(t, id, now, maxAttempts);
    hide RowsOk, Due, Occupied, NotBefore;
  }

  lemma LeasedIsTaken(t: Tables, id: CommandId, until: int)
    requires id in t.commands && t.commands[id].request.commandId == id && CommandInv(t.commands[id])
    ensures TakenAs(t.commands[id], Claimed(t, id, until).commands[id], ClaimOf(t, id, until), until)
  {
    SequencesAreDense(t.commands[id].attempts);
  }

  lemma ClaimTakesTheFirstDue(
      t: Tables, u: Tables, claim: ClaimedCommand, now: int, until: int, maxAttempts: nat)
    requires Inv(t) && ClaimStep(t, u, claim, now, until, maxAttempts)
    ensures ClaimsFirst(t, u, claim, now, until, maxAttempts)
  {
    var id := claim.request.commandId;
    assert RowOk(t, id) && RowsOk(t);
    NextIsFirstDue(t, id, now, maxAttempts);
    LeasedIsTaken(t, id, until);
    hide RowsOk, Inv, FirstDue, IsNext, TakenAs, Leased;
  }

  /** There is nothing to claim exactly when everything due waits for its device. */
  lemma NothingToClaim(t: Tables, now: int, maxAttempts: nat)
    requires Inv(t)
    ensures NothingEligible(t, now, maxAttempts) <==> NothingDue(t, now, maxAttempts)
  {
    assert RowsOk(t);
    forall id | id in t.commands
      ensures Eligible(t, id, now, maxAttempts) <==>
        Due(t.commands[id], now, maxAttempts) && !Occupied(t, t.commands[id].request.deviceId)
    {
      EligibleIsDue(t, id, now, maxAttempts);
    }
    hide Inv, RowsOk, Due, Occupied, Eligible;
  }

  // ---------- Operators, submissions and health ----------

  predicate IsText(s: string, most: nat) {
    1 <= |Text.Trim(s)| <= most
  }

  /** One row moves to another state; nothing else changes. */
  predicate OnlyMoves(t: Tables, u: Tables, id: CommandId, to: CommandState, nextAt: int, note: Option<string>) {
    && id in t.commands
    && var c := t.commands[id];
    && u == t.(commands := t.commands[id := c.(state := to, nextAttemptAt := nextAt, resolutionNote := note,
                 events := c.events + [CommandEvent(Some(c.state), to)])])
  }

  /** An operator can cancel exactly what has not ended and is not executing. */
  lemma CancelExactlyWhen(t: Tables, id: CommandId, reason: string)
    requires Inv(t)
    ensures CancelTx(t, id, reason).Ok? <==>
      && IsText(reason, 1000) && id in t.commands
      && t.commands[id].state !in {Executing, Succeeded, Failed, ResolvedManually, Cancelled}
    ensures CancelTx(t, id, reason).Ok? ==>
      OnlyMoves(t, CancelTx(t, id, reason).value, id, Cancelled, t.commands[id].nextAttemptAt,
        t.commands[id].resolutionNote)
  {
    if id in t.commands {
      assert RowOk(t, id);
    }
  }

  /** An operator can settle by hand exactly what is up for review; the note is kept with it. */
  lemma ResolveExactlyWhen(t: Tables, id: CommandId, note: string)
    requires Inv(t)
    ensures ResolveTx(t, id, note).Ok? <==>
      IsText(note, 1000) && id in t.commands && t.commands[id].state == ManualReview
    ensures ResolveTx(t, id, note).Ok? ==>
      OnlyMoves(t, ResolveTx(t, id, note).value, id, ResolvedManually, t.commands[id].nextAttemptAt,
        Some(Text.Trim(note)))
  {
    if id in t.commands {
      assert RowOk(t, id);
    }
  }

  /** An operator can send back exactly what is up for review on an automatic device; it is due at once. */
  lemma RetryExactlyWhen(t: Tables, id: CommandId, reason: string, now: int)
    requires Inv(t)
    ensures RetryTx(t, id, reason, now).Ok? <==>
      && IsText(reason, 1000) && id in t.commands && t.commands[id].state == ManualReview
      && t.devices[t.commands[id].request.deviceId].mode == Automatic
    ensures RetryTx(t, id, reason, now).Ok? ==>
      OnlyMoves(t, RetryTx(t, id, reason, now).value, id, Queued, now, t.commands[id].resolutionNote)
  {
    if id in t.commands {
      assert RowOk(t, id);
    }
  }

  /** The request is one its device can take. */
  predicate Fits(t: Tables, request: CommandRequest) {
    && request.schemaVersion == 1 && request.command.wellFormed && request.deviceId in t.devices
    && var descriptor := t.devices[request.deviceId].descriptor;
    && descriptor.tenantId == request.tenantId && descriptor.facilityId == request.facilityId
    && descriptor.deviceClass == request.command.deviceClass
  }

  /** Neither the command id nor, on its device, the correlation or the idempotency key was used before. */
  predicate IsNew(t: Tables, request: CommandRequest) {
    && request.commandId !in t.commands
    && forall id :: id in t.commands && t.commands[id].request.deviceId == request.deviceId ==>
         && t.commands[id].request.correlationId != request.correlationId
         && t.commands[id].request.idempotencyKey != request.idempotencyKey
  }

  /** Exactly a fitting new request is accepted, for work if its device is automatic and for review if not. */
  lemma AcceptedExactlyWhen(t: Tables, request: CommandRequest, now: int)
    requires Inv(t)
    ensures var r := SubmitTx(t, request, now);
      (r.Ok? && r.value.1.Accepted?) <==> Fits(t, request) && IsNew(t, request)
    ensures Fits(t, request) && IsNew(t, request) ==>
      var state := if t.devices[request.deviceId].mode == Automatic then Queued else ManualReview;
      SubmitTx(t, request, now).value.0 == t.(commands := t.commands[request.commandId :=
        Command(request, state, 0, now, now, None, None, None, None, [], [CommandEvent(None, state)])])
  {
    if Fits(t, request) {
      NewExactlyWhenAlone(t, request);
    }
    hide Inv, IsNew, Candidates;
  }

  lemma NewExactlyWhenAlone(t: Tables, request: CommandRequest)
    requires Inv(t) && Fits(t, request)
    ensures IsNew(t, request) <==> Candidates(t, request) == {}
  {
    forall id | id in t.commands
      ensures id in Candidates(t, request) <==>
        || id == request.commandId
        || (&& t.commands[id].request.deviceId == request.deviceId
            && (|| t.commands[id].request.correlationId == request.correlationId
                || t.commands[id].request.idempotencyKey == request.idempotencyKey))
    {
      assert RowOk(t, id);
    }
    hide Inv;
  }

  /** Why a request is refused: it does not fit its device, in this order, or it overlaps an earlier one. */
  lemma RefusedBecause(t: Tables, request: CommandRequest, now: int)
    requires Inv(t)
    ensures SubmitTx(t, request, now) == Err(InvalidRequest) <==>
      request.schemaVersion != 1 || !request.command.wellFormed
    ensures request.schemaVersion == 1 && request.command.wellFormed ==>
      (SubmitTx(t, request, now) == Err(DeviceNotFound) <==> request.deviceId !in t.devices)
    ensures request.schemaVersion == 1 && request.command.wellFormed && request.deviceId in t.devices ==>
      var descriptor := t.devices[request.deviceId].descriptor;
      && (SubmitTx(t, request, now) == Err(ScopeMismatch) <==>
            descriptor.tenantId != request.tenantId || descriptor.facilityId != request.facilityId)
      && (SubmitTx(t, request, now) == Err(DeviceClassMismatch) <==>
            && descriptor.tenantId == request.tenantId && descriptor.facilityId == request.facilityId
            && descriptor.deviceClass != request.command.deviceClass)
    ensures SubmitTx(t, request, now) == Err(IdentityConflict) <==>
      && Fits(t, request) && !IsNew(t, request)
      && !(request.commandId in t.commands && t.commands[request.commandId].request == request)
  {
    if Fits(t, request) {
      NewExactlyWhenAlone(t, request);
      if request.commandId in t.commands && t.commands[request.commandId].request == request {
        OnlyItself(t, request);
      }
    }
    hide Inv, IsNew, Candidates;
  }

  lemma OnlyItself(t: Tables, request: CommandRequest)
    requires Inv(t) && request.commandId in t.commands && t.commands[request.commandId].request == request
    ensures Candidates(t, request) == {request.commandId}
  {
    assert forall id :: id in Candidates(t, request) ==> id == request.commandId;
  }

  /** A report sets the health and counts the reports in a row under which no work is done, up to 32 bits. */
  lemma HealthExactly(t: Tables, d: DeviceId, health: HealthState)
    requires d in t.devices
    ensures HeartbeatTx(t, d, health, true).Ok?
    ensures var u := HeartbeatTx(t, d, health, true).value;
      && u.commands == t.commands && u.devices.Keys == t.devices.Keys
      && (forall other :: other in t.devices && other != d ==> u.devices[other] == t.devices[other])
      && u.devices[d].health == health && u.devices[d].mode == t.devices[d].mode
      && (health == Healthy || health == Degraded ==> u.devices[d].healthFailures == 0)
      && (health == Offline || health == Faulted || health == Unknown ==>
            u.devices[d].healthFailures ==
              if t.devices[d].healthFailures < 0xFFFF_FFFF then t.devices[d].healthFailures + 1 else 0xFFFF_FFFF)
  {
  }

  /** A device starts disabled; registering it again with the same description changes nothing. */
  lemma RegisterExactlyWhen(t: Tables, d: DeviceId, descriptor: Descriptor, reason: string)
    ensures RegisterTx(t, d, descriptor, reason).Ok? <==>
      && IsText(descriptor.displayName, 200) && IsText(reason, 1000)
      && (d in t.devices ==> t.devices[d].descriptor == descriptor.(displayName := Text.Trim(descriptor.displayName)))
    ensures RegisterTx(t, d, descriptor, reason).Ok? ==>
      RegisterTx(t, d, descriptor, reason).value ==
        if d in t.devices then t
        else t.(devices := t.devices[d := Device(descriptor.(displayName := Text.Trim(descriptor.displayName)),
                  Disabled, Unknown, 0, [ControlEvent(None, Disabled)])])
  {
  }

  /** Any worded change of mode of a registered device goes through; to automatic, no command moves. */
  lemma ModeExactly(t: Tables, d: DeviceId, mode: ControlMode, reason: string, now: int)
    ensures ChangeModeTx(t, d, mode, reason, now).Ok? <==> IsText(reason, 1000) && d in t.devices
    ensures ChangeModeTx(t, d, mode, reason, now).Ok? ==>
      var u := ChangeModeTx(t, d, mode, reason, now).value;
      && (mode == Automatic ==> u.commands == t.commands)
      && u.devices == t.devices[d := t.devices[d].(mode := mode,
           controlEvents := t.devices[d].controlEvents + [ControlEvent(Some(t.devices[d].mode), mode)])]
  {
  }
}
