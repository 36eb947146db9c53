/** Each public store operation as one atomic step: the tables it commits, or the error that leaves them alone. */
module EdgeTransactions {
  import opened Common
  import opened EdgeTables
  import opened EdgeCommandInvariant
  import opened EdgeInvariant
  import opened EdgeRecovery
  import Text

  type Commit = Result<Tables, StoreError>

  function After(t: Tables, r: Commit): Tables {
    if r.Ok? then r.value else t
  }

  predicate ValidReason(reason: string) {
    0 < |Text.Trim(reason)| <= 1000
  }

  predicate ValidName(name: string) {
    0 < |Text.Trim(name)| <= 200
  }

  function RegisterTx(t: Tables, d: DeviceId, descriptor: Descriptor, reason: string): Commit {
    var trimmed := descriptor.(displayName := Text.Trim(descriptor.displayName));
    if !ValidName(descriptor.displayName) then Err(InvalidDescriptor)
    else if !ValidReason(reason) then Err(InvalidReason)
    else if d in t.devices then
      if t.devices[d].descriptor == trimmed then Ok(t) else Err(DeviceConfigurationConflict)
    else Ok(t.(devices := t.devices[d := NewDevice(trimmed)]))
  }

  function ChangeModeTx(t: Tables, d: DeviceId, mode: ControlMode, reason: string, now: int): Commit {
    if !ValidReason(reason) then Err(InvalidReason)
    else if d !in t.devices then Err(DeviceNotFound)
    else Ok(ChangedMode(t, d, mode, now))
  }

  function HeartbeatTx(t: Tables, d: DeviceId, health: HealthState, wellFormed: bool): Commit {
    if !wellFormed then Err(CorruptRecord)
    else if d !in t.devices then Err(DeviceNotFound)
    else Ok(WithHealth(t, d, health))
  }

  datatype Submission = Accepted(record: Command) | Replayed(record: Command)

  /** Everything the store checks before it looks at identities. */
  function SubmissionFault(t: Tables, request: CommandRequest): Option<StoreError> {
    if !request.Valid() then Some(InvalidRequest)
    else if request.deviceId !in t.devices then Some(DeviceNotFound)
    else
      var descriptor := t.devices[request.deviceId].descriptor;
      if descriptor.tenantId != request.tenantId || descriptor.facilityId != request.facilityId then Some(ScopeMismatch)
      else if descriptor.deviceClass != request.command.deviceClass then Some(DeviceClassMismatch)
      else None
  }

  function SubmitTx(t: Tables, request: CommandRequest, now: int): Result<(Tables, Submission), StoreError> {
    var fault := SubmissionFault(t, request);
    var id := request.commandId;
    if fault.Some? then Err(fault.value)
    else if Candidates(t, request) == {} then
      var state := if t.devices[request.deviceId].mode.Automatic? then Queued else ManualReview;
      Ok((Put(t, id, Submitted(request, state, now)), Accepted(Submitted(request, state, now))))
    else if id in t.commands && t.commands[id].request == request && Candidates(t, request) == {id} then
      Ok((t, Replayed(t.commands[id])))
    else Err(IdentityConflict)
  }

  function OperatorTx(t: Tables, id: CommandId, reason: string, to: CommandState, allowed: set<CommandState>): Commit {
    if !ValidReason(reason) then Err(InvalidReason)
    else if id !in t.commands then Err(CommandNotFound)
    else if t.commands[id].state !in allowed || t.commands[id].leaseToken.Some? then Err(InvalidTransition)
    else
      var note := if to.ResolvedManually? then Some(Text.Trim(reason)) else None;
      Ok(Put(t, id, Unleased(t.commands[id], to, None, note)))
  }

  function ResolveTx(t: Tables, id: CommandId, note: string): Commit {
    OperatorTx(t, id, note, ResolvedManually, {ManualReview})
  }

  function CancelTx(t: Tables, id: CommandId, reason: string): Commit {
    OperatorTx(t, id, reason, Cancelled, {Queued, RetryWait, RecoveryWait, ManualReview})
  }

  function RetryTx(t: Tables, id: CommandId, reason: string, now: int): Commit {
    if !ValidReason(reason) then Err(InvalidReason)
    else if id !in t.commands then Err(CommandNotFound)
    else
      var c := t.commands[id];
      if !c.state.ManualReview? then Err(InvalidTransition)
      else if c.request.deviceId !in t.devices then Err(DeviceNotFound)
      else if !t.devices[c.request.deviceId].mode.Automatic? then Err(DeviceNotAutomatic)
      else Ok(Put(t, id, Unleased(c, Queued, Some(now), None)))
  }

  /** u is t with the first row of the claim query leased, and claim is what the runner was handed. */
  predicate ClaimStep(t: Tables, u: Tables, claim: ClaimedCommand, now: int, until: int, maxAttempts: nat) {
    && var id := claim.request.commandId;
    && IsNext(t, id, now, maxAttempts)
    && u == Claimed(t, id, until)
    && claim == ClaimOf(t, id, until)
  }

  function FinishTx(t: Tables, claim: ClaimedCommand, disposition: Disposition, limits: RetryLimits, now: int): Commit {
    var completion := CompletionFor(claim, disposition, limits, now);
    if completion.Err? then Err(completion.error)
    else if !HoldsLease(t, claim) || claim.request.deviceId !in t.devices then Err(LeaseMismatch)
    else Ok(FinishedTables(t, claim, completion.value, now))
  }

  // ---------- Every transaction keeps the invariant ----------

  lemma RegisterKeeps(t: Tables, d: DeviceId, descriptor: Descriptor, reason: string)
    requires Inv(t)
    ensures var u := After(t, RegisterTx(t, d, descriptor, reason)); Inv(u) && Evolves(t, u)
  {
    EvolvesReflexively(t);
    if d !in t.devices {
      RegisteredKeeps(t, d, descriptor.(displayName := Text.Trim(descriptor.displayName)));
    }
  }

  lemma ChangeModeKeeps(t: Tables, d: DeviceId, mode: ControlMode, reason: string, now: int)
    requires Inv(t)
    ensures var u := After(t, ChangeModeTx(t, d, mode, reason, now)); Inv(u) && Evolves(t, u)
  {
    EvolvesReflexively(t);
    if d in t.devices {
      ChangedModeKeeps(t, d, mode, now);
    }
  }

  lemma HeartbeatKeeps(t: Tables, d: DeviceId, health: HealthState, wellFormed: bool)
    requires Inv(t)
    ensures var u := After(t, HeartbeatTx(t, d, health, wellFormed)); Inv(u) && Evolves(t, u)
  {
    EvolvesReflexively(t);
    if d in t.devices {
      HealthKeeps(t, d, health);
    }
  }

  lemma SubmitKeeps(t: Tables, request: CommandRequest, now: int)
    requires Inv(t)
    ensures var r := SubmitTx(t, request, now); r.Ok? ==> Inv(r.value.0) && Evolves(t, r.value.0)
  {
    EvolvesReflexively(t);
    if SubmissionFault(t, request).None? && Candidates(t, request) == {} {
      var initial := if t.devices[request.deviceId].mode.Automatic? then Queued else ManualReview;
      SubmittedTablesKeep(t, request, initial, now);
    }
  }

  lemma OperatorKeeps(t: Tables, id: CommandId, reason: string, to: CommandState, allowed: set<CommandState>)
    requires Inv(t) && (to.ResolvedManually? || to.Cancelled?)
    requires forall s :: s in allowed ==> !s.IsTerminal() && !s.Executing?
    ensures var u := After(t, OperatorTx(t, id, reason, to, allowed)); Inv(u) && Evolves(t, u)
  {
    EvolvesReflexively(t);
    if id in t.commands && t.commands[id].state in allowed {
      UnleasedTablesKeep(t, id, to, None, if to.ResolvedManually? then Some(Text.Trim(reason)) else None);
    }
  }

  lemma RetryKeeps(t: Tables, id: CommandId, reason: string, now: int)
    requires Inv(t)
    ensures var u := After(t, RetryTx(t, id, reason, now)); Inv(u) && Evolves(t, u)
  {
    EvolvesReflexively(t);
    if RetryTx(t, id, reason, now).Ok? {
      UnleasedTablesKeep(t, id, Queued, Some(now), None);
    }
  }

  lemma ClaimStepKeeps(t: Tables, u: Tables, claim: ClaimedCommand, now: int, until: int, maxAttempts: nat)
    requires Inv(t) && ClaimStep(t, u, claim, now, until, maxAttempts)
    ensures Inv(u) && Evolves(t, u) && Issued(u, claim) && HoldsLease(u, claim)
  {
    ClaimedKeeps(t, claim.request.commandId, now, maxAttempts, until);
  }

  lemma FinishKeeps(t: Tables, claim: ClaimedCommand, disposition: Disposition, limits: RetryLimits, now: int)
    requires Inv(t) && Issued(t, claim)
    ensures var u := After(t, FinishTx(t, claim, disposition, limits, now)); Inv(u) && Evolves(t, u)
    ensures FinishTx(t, claim, disposition, limits, now).Ok? <==>
      HoldsLease(t, claim) && CompletionFor(claim, disposition, limits, now).Ok?
  {
    hide Inv, Evolves, Issued, FinishedTables;
    Unchanged(t);
    if HoldsLease(t, claim) && CompletionFor(claim, disposition, limits, now).Ok? {
      FinishedTablesKeep(t, claim, disposition, limits, now);
    }
  }
}
