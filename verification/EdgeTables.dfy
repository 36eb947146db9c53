/**
 The edge agent's durable tables and, for each transaction on one row, the value it leaves behind.

 A command row carries its attempts and its transition log: both tables are keyed by the
 command they reference and are only ever read per command, in insertion order.
 */
module EdgeTables {
  import opened Common

  /** Identifiers: only equality and, for command ids in ORDER BY, the sort order matter. */
  type CommandId = nat
  type DeviceId = nat

  const COMMAND_SCHEMA_VERSION := 1
  const I64_MAX := 0x7FFF_FFFF_FFFF_FFFF

  datatype DeviceClass = Plc | Conveyor | Robotics | Sortation | Printer | Scale

  datatype RecoveryPolicy = DeviceDeduplicatedReplay | ProbeThenRetry | ReviewManually

  datatype CommandState =
    | Queued | Executing | RetryWait | RecoveryWait
    | Succeeded | Failed | ManualReview | ResolvedManually | Cancelled
  {
    predicate IsTerminal() {
      Succeeded? || Failed? || ResolvedManually? || Cancelled?
    }

    /** The states a device quarantine sweeps up. */
    predicate IsLive() {
      Queued? || Executing? || RetryWait? || RecoveryWait?
    }
  }

  datatype ControlMode = Disabled | Automatic | ManualFallback

  datatype HealthState = Unknown | Healthy | Degraded | Offline | Faulted {
    predicate PermitsAutomaticWork() {
      Healthy? || Degraded?
    }
  }

  datatype DeviceCommand = DeviceCommand(deviceClass: DeviceClass, payload: int, wellFormed: bool)

  datatype CommandResult = CommandResult(deviceClass: DeviceClass, body: int, wellFormed: bool) {
    predicate ValidFor(command: DeviceCommand) {
      wellFormed && deviceClass == command.deviceClass
    }
  }

  datatype CommandRequest = CommandRequest(
    schemaVersion: int,
    commandId: CommandId,
    tenantId: int,
    facilityId: int,
    deviceId: DeviceId,
    correlationId: int,
    idempotencyKey: int,
    policy: RecoveryPolicy,
    command: DeviceCommand)
  {
    predicate Valid() {
      schemaVersion == COMMAND_SCHEMA_VERSION && command.wellFormed
    }
  }

  datatype ClaimKind = Execute | RecoveryProbe

  datatype AttemptState =
    | Active | AttemptSucceeded | RetryableFailure | PermanentFailure | AmbiguousOutcome
    | NothingFound | StillProcessing | NeedsReview | Abandoned

  datatype Attempt = Attempt(
    id: nat, sequence: int, executionAttempt: nat, kind: ClaimKind, state: AttemptState)

  datatype CommandEvent = CommandEvent(from: Option<CommandState>, to: CommandState)

  datatype Command = Command(
    request: CommandRequest,
    state: CommandState,
    attemptCount: nat,
    createdAt: int,
    nextAttemptAt: int,
    leaseToken: Option<nat>,
    leaseUntil: Option<int>,
    result: Option<CommandResult>,
    resolutionNote: Option<string>,
    attempts: seq<Attempt>,
    events: seq<CommandEvent>)

  datatype ControlEvent = ControlEvent(from: Option<ControlMode>, to: ControlMode)

  datatype Descriptor = Descriptor(
    tenantId: int, facilityId: int, deviceClass: DeviceClass, displayName: string)

  datatype Device = Device(
    descriptor: Descriptor,
    mode: ControlMode,
    health: HealthState,
    healthFailures: nat,
    controlEvents: seq<ControlEvent>)

  /** The whole database; nextUuid is the supply of identifiers never handed out before. */
  datatype Tables = Tables(
    commands: map<CommandId, Command>,
    devices: map<DeviceId, Device>,
    nextUuid: nat)

  datatype StoreError =
    | InvalidDescriptor | InvalidReason | InvalidRequest | InvalidResult
    | DeviceNotFound | DeviceConfigurationConflict | IdentityConflict | CommandNotFound
    | ScopeMismatch | DeviceClassMismatch | InvalidTransition | LeaseMismatch
    | DeviceNotAutomatic | CorruptRecord | DurationOverflow

  datatype ClaimedCommand = ClaimedCommand(
    request: CommandRequest,
    attempt: nat,
    leaseToken: nat,
    attemptId: nat,
    kind: ClaimKind,
    recoveryProbeCount: nat)

  datatype RetryLimits = RetryLimits(executionAttempts: nat, recoveryProbes: nat)

  /** How the runner decided to end a claim, before the store turns it into a row update. */
  datatype Disposition =
    | Success(result: CommandResult)
    | RetryLater(at: int)
    | Reject
    | Uncertain(at: int)
    | Defer(at: int)
    | AbsentDownstream
    | Review

  datatype Completion = Completion(
    target: CommandState,
    attemptState: AttemptState,
    nextAttemptAt: int,
    result: Option<CommandResult>,
    manualFallback: bool)

  // ---------- Counting over a command's history ----------

  function ActiveCount(attempts: seq<Attempt>): nat {
    if attempts == [] then 0
    else ActiveCount(attempts[..|attempts| - 1]) + (if attempts[|attempts| - 1].state.Active? then 1 else 0)
  }

  function KindCount(attempts: seq<Attempt>, kind: ClaimKind): nat {
    if attempts == [] then 0
    else KindCount(attempts[..|attempts| - 1], kind) + (if attempts[|attempts| - 1].kind == kind then 1 else 0)
  }

  /** MAX(sequence), or 0 when there is no attempt. */
  function MaxSequence(attempts: seq<Attempt>): int {
    if attempts == [] then 0
    else
      var rest := MaxSequence(attempts[..|attempts| - 1]);
      var last := attempts[|attempts| - 1].sequence;
      if last > rest then last else rest
  }

  /** How many times the log entered Executing. */
  function Starts(events: seq<CommandEvent>): nat {
    if events == [] then 0
    else Starts(events[..|events| - 1]) + (if events[|events| - 1].to.Executing? then 1 else 0)
  }

  // ---------- Row updates ----------

  function CloseActive(attempts: seq<Attempt>, state: AttemptState): (closed: seq<Attempt>)
    ensures |closed| == |attempts|
  {
    seq(|attempts|, i requires 0 <= i < |attempts| =>
      if attempts[i].state.Active? then attempts[i].(state := state) else attempts[i])
  }

  function Matching(attempts: seq<Attempt>, id: nat): nat {
    if attempts == [] then 0
    else
      var last := attempts[|attempts| - 1];
      Matching(attempts[..|attempts| - 1], id) + (if last.id == id && last.state.Active? then 1 else 0)
  }

  function CloseMatching(attempts: seq<Attempt>, id: nat, state: AttemptState): (closed: seq<Attempt>)
    ensures |closed| == |attempts|
  {
    seq(|attempts|, i requires 0 <= i < |attempts| =>
      if attempts[i].id == id && attempts[i].state.Active? then attempts[i].(state := state) else attempts[i])
  }

  function Submitted(request: CommandRequest, state: CommandState, now: int): Command {
    Command(request, state, 0, now, now, None, None, None, None, [], [CommandEvent(None, state)])
  }

  function Unleased(c: Command, to: CommandState, nextAt: Option<int>, note: Option<string>): Command {
    c.(state := to,
       nextAttemptAt := if nextAt.Some? then nextAt.value else c.nextAttemptAt,
       resolutionNote := if note.Some? then note else c.resolutionNote,
       events := c.events + [CommandEvent(Some(c.state), to)])
  }

  /** An executing command whose lease is taken away: its attempt is abandoned. */
  function Revoked(c: Command, to: CommandState, now: int): Command {
    c.(state := to,
       nextAttemptAt := now,
       leaseToken := None,
       leaseUntil := None,
       attempts := CloseActive(c.attempts, Abandoned),
       events := c.events + [CommandEvent(Some(Executing), to)])
  }

  function KindFor(state: CommandState): ClaimKind {
    if state.RecoveryWait? then RecoveryProbe else Execute
  }

  function Leased(c: Command, token: nat, attemptId: nat, until: int): Command {
    var kind := KindFor(c.state);
    var count := c.attemptCount + (if kind.Execute? then 1 else 0);
    c.(state := Executing,
       attemptCount := count,
       leaseToken := Some(token),
       leaseUntil := Some(until),
       attempts := c.attempts + [Attempt(attemptId, MaxSequence(c.attempts) + 1, count, kind, Active)],
       events := c.events + [CommandEvent(Some(c.state), Executing)])
  }

  function Finished(c: Command, attemptId: nat, completion: Completion): Command {
    c.(state := completion.target,
       nextAttemptAt := completion.nextAttemptAt,
       leaseToken := None,
       leaseUntil := None,
       result := completion.result,
       resolutionNote := None,
       attempts := CloseMatching(c.attempts, attemptId, completion.attemptState),
       events := c.events + [CommandEvent(Some(Executing), completion.target)])
  }

  function Quarantined(c: Command, now: int): Command {
    if c.state.Executing? then Revoked(c, ManualReview, now)
    else if c.state.IsLive() then Unleased(c, ManualReview, None, None)
    else c
  }

  /** Where an expired lease sends its command. */
  function ExpiryTarget(policy: RecoveryPolicy): CommandState {
    match policy
    case DeviceDeduplicatedReplay => RetryWait
    case ProbeThenRetry => RecoveryWait
    case ReviewManually => ManualReview
  }

  // ---------- Whole-table transactions ----------

  function Quarantine(t: Tables, d: DeviceId, now: int): Tables {
    t.(commands := map id | id in t.commands ::
         if t.commands[id].request.deviceId == d then Quarantined(t.commands[id], now) else t.commands[id])
  }

  function SetMode(t: Tables, d: DeviceId, mode: ControlMode): Tables
    requires d in t.devices
  {
    var device := t.devices[d];
    t.(devices := t.devices[d := device.(mode := mode,
         controlEvents := device.controlEvents + [ControlEvent(Some(device.mode), mode)])])
  }

  function ChangedMode(t: Tables, d: DeviceId, mode: ControlMode, now: int): Tables
    requires d in t.devices
  {
    SetMode(if mode.Automatic? then t else Quarantine(t, d, now), d, mode)
  }

  function ForcedFallback(t: Tables, d: DeviceId, now: int): Tables
    requires d in t.devices
  {
    if t.devices[d].mode.ManualFallback? then Quarantine(t, d, now)
    else SetMode(Quarantine(t, d, now), d, ManualFallback)
  }

  function Put(t: Tables, id: CommandId, c: Command): Tables {
    t.(commands := t.commands[id := c])
  }

  // ---------- Identity of a submission ----------

  predicate SharesIdentity(a: CommandRequest, b: CommandRequest) {
    || a.commandId == b.commandId
    || (&& a.tenantId == b.tenantId
        && a.facilityId == b.facilityId
        && a.deviceId == b.deviceId
        && (a.correlationId == b.correlationId || a.idempotencyKey == b.idempotencyKey))
  }

  function Candidates(t: Tables, request: CommandRequest): set<CommandId> {
    set id | id in t.commands && SharesIdentity(t.commands[id].request, request)
  }

  // ---------- Claim selection ----------

  predicate DeviceBusy(t: Tables, d: DeviceId) {
    exists id :: id in t.commands && t.commands[id].request.deviceId == d && t.commands[id].state.Executing?
  }

  predicate Eligible(t: Tables, id: CommandId, now: int, maxAttempts: nat) {
    && id in t.commands
    && var c := t.commands[id];
    && (c.state.Queued? || c.state.RetryWait? || c.state.RecoveryWait?)
    && c.nextAttemptAt <= now
    && c.request.deviceId in t.devices
    && t.devices[c.request.deviceId].mode.Automatic?
    && (c.state.RecoveryWait? || c.attemptCount < maxAttempts)
    && !DeviceBusy(t, c.request.deviceId)
  }

  predicate NothingEligible(t: Tables, now: int, maxAttempts: nat) {
    forall id :: id in t.commands ==> !Eligible(t, id, now, maxAttempts)
  }

  /** ORDER BY next_attempt_at, created_at, command_id. */
  predicate Precedes(a: Command, aid: CommandId, b: Command, bid: CommandId) {
    || a.nextAttemptAt < b.nextAttemptAt
    || (a.nextAttemptAt == b.nextAttemptAt && a.createdAt < b.createdAt)
    || (a.nextAttemptAt == b.nextAttemptAt && a.createdAt == b.createdAt && aid <= bid)
  }

  predicate IsNext(t: Tables, id: CommandId, now: int, maxAttempts: nat) {
    && Eligible(t, id, now, maxAttempts)
    && forall other :: other in t.commands && Eligible(t, other, now, maxAttempts) ==>
         Precedes(t.commands[id], id, t.commands[other], other)
  }

  function Claimed(t: Tables, id: CommandId, until: int): Tables
    requires id in t.commands
  {
    Put(t, id, Leased(t.commands[id], t.nextUuid, t.nextUuid + 1, until)).(nextUuid := t.nextUuid + 2)
  }

  function ClaimOf(t: Tables, id: CommandId, until: int): ClaimedCommand
    requires id in t.commands
  {
    var c := Leased(t.commands[id], t.nextUuid, t.nextUuid + 1, until);
    ClaimedCommand(c.request, c.attemptCount, t.nextUuid, t.nextUuid + 1, KindFor(t.commands[id].state),
      KindCount(c.attempts, RecoveryProbe))
  }

  // ---------- Finishing a claim ----------

  predicate HoldsLease(t: Tables, claim: ClaimedCommand) {
    && claim.request.commandId in t.commands
    && t.commands[claim.request.commandId].state.Executing?
    && t.commands[claim.request.commandId].leaseToken == Some(claim.leaseToken)
  }

  predicate AttemptHeld(t: Tables, claim: ClaimedCommand)
    requires claim.request.commandId in t.commands
  {
    Matching(t.commands[claim.request.commandId].attempts, claim.attemptId) == 1
  }

  predicate Exhausted(claim: ClaimedCommand, limits: RetryLimits) {
    match claim.kind
    case Execute => claim.attempt >= limits.executionAttempts
    case RecoveryProbe => claim.recoveryProbeCount >= limits.recoveryProbes
  }

  /** The row update each finishing call asks for, or the error it raises before its transaction. */
  function CompletionFor(claim: ClaimedCommand, d: Disposition, limits: RetryLimits, now: int)
    : Result<Completion, StoreError>
  {
    match d
    case Success(result) =>
      if result.ValidFor(claim.request.command)
      then Ok(Completion(Succeeded, AttemptSucceeded, now, Some(result), false))
      else Err(InvalidResult)
    case RetryLater(at) =>
      if Exhausted(claim, limits) then Ok(Completion(ManualReview, NeedsReview, at, None, true))
      else if claim.kind.RecoveryProbe? then Ok(Completion(RecoveryWait, RetryableFailure, at, None, false))
      else Ok(Completion(RetryWait, RetryableFailure, at, None, false))
    case Reject => Ok(Completion(Failed, PermanentFailure, now, None, false))
    case Uncertain(at) =>
      var target := ExpiryTarget(claim.request.policy);
      Ok(Completion(target, AmbiguousOutcome, at, None, target.ManualReview?))
    case Defer(at) =>
      if claim.kind.RecoveryProbe? then Ok(Completion(RecoveryWait, StillProcessing, at, None, false))
      else Err(InvalidTransition)
    case AbsentDownstream =>
      if claim.kind.RecoveryProbe? then Ok(Completion(Queued, NothingFound, now, None, false))
      else Err(InvalidTransition)
    case Review => Ok(Completion(ManualReview, NeedsReview, now, None, true))
  }

  function FinishedTables(t: Tables, claim: ClaimedCommand, completion: Completion, now: int): Tables
    requires HoldsLease(t, claim) && claim.request.deviceId in t.devices
  {
    var id := claim.request.commandId;
    var done := Put(t, id, Finished(t.commands[id], claim.attemptId, completion));
    if completion.manualFallback then ForcedFallback(done, claim.request.deviceId, now) else done
  }

  // ---------- Lease recovery ----------

  predicate Expired(c: Command, now: int) {
    c.state.Executing? && c.leaseUntil.Some? && c.leaseUntil.value <= now
  }

  function ExpiredIds(t: Tables, now: int): set<CommandId> {
    set id | id in t.commands && Expired(t.commands[id], now)
  }

  /** Some command in `done` took its device down with it. */
  predicate TakenDown(t: Tables, done: set<CommandId>, d: DeviceId) {
    exists id :: id in done && id in t.commands
      && t.commands[id].request.deviceId == d && t.commands[id].request.policy.ReviewManually?
  }

  /**
   Every lease in `done` recovered at once: each goes where its policy sends it, and a
   manual-review expiry also quarantines its device and drops it to manual fallback.
   */
  function Recovered(t: Tables, now: int, done: set<CommandId>): Tables {
    t.(commands := map id | id in t.commands ::
         (var c := t.commands[id];
          if id in done then Revoked(c, ExpiryTarget(c.request.policy), now)
          else if TakenDown(t, done, c.request.deviceId) then Quarantined(c, now)
          else c),
       devices := map d | d in t.devices ::
         (var device := t.devices[d];
          if TakenDown(t, done, d) && !device.mode.ManualFallback?
          then device.(mode := ManualFallback,
                       controlEvents := device.controlEvents + [ControlEvent(Some(device.mode), ManualFallback)])
          else device))
  }

  // ---------- Heartbeats ----------

  function WithHealth(t: Tables, d: DeviceId, health: HealthState): Tables
    requires d in t.devices
  {
    var device := t.devices[d];
    var failures := if health.PermitsAutomaticWork() then 0 else Min(device.healthFailures + 1, U32_MAX);
    t.(devices := t.devices[d := device.(health := health, healthFailures := failures)])
  }
}
