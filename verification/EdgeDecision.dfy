/** What the runner decides to do with a claimed command, given how its adapter answers. */
module EdgeDecision {
  import opened Common
  import opened EdgeTables
  import Backoff

  datatype EngineConfig = EngineConfig(
    lease: nat, retryDelay: nat, retryDelayCap: nat,
    maxAttempts: nat, maxRecoveryProbes: nat, batchSize: nat)
  {
    function Limits(): RetryLimits {
      RetryLimits(maxAttempts, maxRecoveryProbes)
    }
  }

  datatype EngineError =
    | Store(error: StoreError) | InvalidCommand | InvalidConfig | AdapterNotRegistered
    | AdapterConfigurationMismatch | UnsupportedRecoveryPolicy | TimeOverflow

  datatype Adapter = Adapter(descriptor: Descriptor, duplicateProtection: bool, recoveryProbe: bool) {
    predicate Serves(request: CommandRequest) {
      && descriptor.tenantId == request.tenantId
      && descriptor.facilityId == request.facilityId
      && descriptor.deviceClass == request.command.deviceClass
    }

    predicate Supports(policy: RecoveryPolicy) {
      match policy
      case DeviceDeduplicatedReplay => duplicateProtection
      case ProbeThenRetry => recoveryProbe
      case ReviewManually => true
    }
  }

  /** Retryable and Permanent: the controller did not accept the command. Ambiguous: nobody knows. */
  datatype FailureClass = Retryable | Permanent | Ambiguous

  datatype HealthReply = Reported(state: HealthState, wellFormed: bool) | Unreachable(failure: FailureClass)

  datatype ExecuteReply = Executed(result: CommandResult) | ExecuteFailed(failure: FailureClass)

  datatype ProbeReply =
    | Completed(result: CommandResult) | InProgress | Absent | Unclear | ProbeFailed(failure: FailureClass)

  /** Everything the adapter says while one claim is processed; the engine reads only what it reaches. */
  datatype Session = Session(adapter: Option<Adapter>, health: HealthReply, execute: ExecuteReply, probe: ProbeReply)

  /** The health it records, whether it lets the command reach the device, and how it ends the claim. */
  datatype Decision = Decision(
    health: Option<HealthState>, contacted: bool, disposition: Result<Disposition, EngineError>)

  /** The store keeps milliseconds; the clock and the configuration count nanoseconds. */
  function Millis(nanos: int): int {
    nanos / 1_000_000
  }

  function RetryOrdinal(claim: ClaimedCommand): nat {
    if claim.kind.Execute? then claim.attempt else claim.recoveryProbeCount
  }

  /** The instant of the next attempt, unless it lies beyond the last one the clock can represent. */
  function NextAttemptAt(config: EngineConfig, attempt: nat, now: int, latest: int): Result<int, EngineError> {
    var at := now + Backoff.Delay(config.retryDelay, config.retryDelayCap, attempt);
    if at <= latest then Ok(Millis(at)) else Err(TimeOverflow)
  }

  function RetryDecision(config: EngineConfig, claim: ClaimedCommand, now: int, latest: int)
    : Result<Disposition, EngineError>
  {
    match NextAttemptAt(config, RetryOrdinal(claim), now, latest)
    case Ok(at) => Ok(RetryLater(at))
    case Err(e) => Err(e)
  }

  function FailureDecision(config: EngineConfig, claim: ClaimedCommand, failure: FailureClass, now: int, latest: int)
    : Result<Disposition, EngineError>
  {
    match failure
    case Retryable => RetryDecision(config, claim, now, latest)
    case Permanent => Ok(if claim.kind.RecoveryProbe? then Review else Reject)
    case Ambiguous =>
      match NextAttemptAt(config, RetryOrdinal(claim), now, latest)
      case Ok(at) => Ok(Uncertain(at))
      case Err(e) => Err(e)
  }

  function ExecuteDecision(config: EngineConfig, claim: ClaimedCommand, reply: ExecuteReply, now: int, latest: int)
    : Result<Disposition, EngineError>
  {
    match reply
    case Executed(result) => Ok(Success(result))
    case ExecuteFailed(failure) => FailureDecision(config, claim, failure, now, latest)
  }

  function ProbeDecision(config: EngineConfig, claim: ClaimedCommand, reply: ProbeReply, now: int, latest: int)
    : Result<Disposition, EngineError>
  {
    match reply
    case Completed(result) => Ok(Success(result))
    case InProgress =>
      if claim.recoveryProbeCount >= config.maxRecoveryProbes then Ok(Review)
      else
        (match NextAttemptAt(config, claim.recoveryProbeCount, now, latest)
         case Ok(at) => Ok(Defer(at))
         case Err(e) => Err(e))
    case Absent => Ok(if claim.attempt >= config.maxAttempts then Review else AbsentDownstream)
    case Unclear => Ok(Review)
    case ProbeFailed(failure) => FailureDecision(config, claim, failure, now, latest)
  }

  function Decide(config: EngineConfig, claim: ClaimedCommand, session: Session, now: int, latest: int): Decision {
    if session.adapter.None?
      || !session.adapter.value.Serves(claim.request)
      || !session.adapter.value.Supports(claim.request.policy)
    then Decision(None, false, Ok(Review))
    else
      match session.health
      case Unreachable(failure) => Decision(Some(Offline), false, FailureDecision(config, claim, failure, now, latest))
      case Reported(state, wellFormed) =>
        if !wellFormed then Decision(None, false, Err(Store(CorruptRecord)))
        else if state.Faulted? then Decision(Some(state), false, Ok(Review))
        else if !state.PermitsAutomaticWork() then
          Decision(Some(state), false, RetryDecision(config, claim, now, latest))
        else if claim.kind.Execute? then
          Decision(Some(state), true, ExecuteDecision(config, claim, session.execute, now, latest))
        else Decision(Some(state), true, ProbeDecision(config, claim, session.probe, now, latest))
  }

  // ---------- What each answer of the adapter leads to ----------

  /** There is an adapter of the command's tenant, facility and device class that can recover it as its policy asks. */
  predicate HasAdapter(request: CommandRequest, registered: Option<Adapter>) {
    && registered.Some?
    && var adapter := registered.value;
    && adapter.descriptor.tenantId == request.tenantId
    && adapter.descriptor.facilityId == request.facilityId
    && adapter.descriptor.deviceClass == request.command.deviceClass
    && (request.policy == DeviceDeduplicatedReplay ==> adapter.duplicateProtection)
    && (request.policy == ProbeThenRetry ==> adapter.recoveryProbe)
  }

  /** The device is well enough for the command to reach it. */
  predicate Reached(claim: ClaimedCommand, session: Session) {
    && HasAdapter(claim.request, session.adapter)
    && (session.health == Reported(Healthy, true) || session.health == Reported(Degraded, true))
  }

  /** The device is not there now, or cannot say how it is; nothing was sent to it. */
  predicate Away(claim: ClaimedCommand, session: Session) {
    && HasAdapter(claim.request, session.adapter)
    && (session.health == Reported(Offline, true) || session.health == Reported(Unknown, true))
  }

  /** The adapter failed this way, when asked for its health or when given the command. */
  predicate FailedWith(claim: ClaimedCommand, session: Session, failure: FailureClass) {
    || (HasAdapter(claim.request, session.adapter) && session.health == Unreachable(failure))
    || (Reached(claim, session) && claim.kind == Execute && session.execute == ExecuteFailed(failure))
    || (Reached(claim, session) && claim.kind == RecoveryProbe && session.probe == ProbeFailed(failure))
  }

  predicate ProbeSaid(claim: ClaimedCommand, session: Session, reply: ProbeReply) {
    Reached(claim, session) && claim.kind == RecoveryProbe && session.probe == reply
  }

  /** The instant of the next attempt, in nanoseconds. */
  function RetryInstant(config: EngineConfig, claim: ClaimedCommand, now: int): int {
    now + Backoff.Delay(config.retryDelay, config.retryDelayCap,
      if claim.kind == Execute then claim.attempt else claim.recoveryProbeCount)
  }

  /** A time in milliseconds: the last one not after the instant. */
  predicate InMillis(at: int, nanos: int) {
    at * 1_000_000 <= nanos < (at + 1) * 1_000_000
  }

  /** A person must look at it exactly in these cases. */
  lemma ReviewExactlyWhen(config: EngineConfig, claim: ClaimedCommand, session: Session, now: int, latest: int)
    ensures Decide(config, claim, session, now, latest).disposition == Ok(Review) <==>
      || !HasAdapter(claim.request, session.adapter)
      || session.health == Reported(Faulted, true)
      || (claim.kind == RecoveryProbe && FailedWith(claim, session, Permanent))
      || ProbeSaid(claim, session, Unclear)
      || (ProbeSaid(claim, session, InProgress) && config.maxRecoveryProbes <= claim.recoveryProbeCount)
      || (ProbeSaid(claim, session, Absent) && config.maxAttempts <= claim.attempt)
  {
  }

  /** It ends for good exactly when the adapter says it worked, or that it never will. */
  lemma FinalExactlyWhen(
      config: EngineConfig, claim: ClaimedCommand, session: Session, now: int, latest: int, result: CommandResult)
    ensures Decide(config, claim, session, now, latest).disposition == Ok(Success(result)) <==>
      || (Reached(claim, session) && claim.kind == Execute && session.execute == Executed(result))
      || ProbeSaid(claim, session, Completed(result))
    ensures Decide(config, claim, session, now, latest).disposition == Ok(Reject) <==>
      claim.kind == Execute && FailedWith(claim, session, Permanent)
    ensures Decide(config, claim, session, now, latest).disposition == Ok(AbsentDownstream) <==>
      ProbeSaid(claim, session, Absent) && claim.attempt < config.maxAttempts
  {
  }

  /** It is tried again later exactly in these cases, at the time the backoff says. */
  lemma LaterExactlyWhen(
      config: EngineConfig, claim: ClaimedCommand, session: Session, now: int, latest: int, at: int)
    ensures Decide(config, claim, session, now, latest).disposition == Ok(RetryLater(at)) <==>
      && (FailedWith(claim, session, Retryable) || Away(claim, session))
      && RetryInstant(config, claim, now) <= latest && InMillis(at, RetryInstant(config, claim, now))
    ensures Decide(config, claim, session, now, latest).disposition == Ok(Uncertain(at)) <==>
      && FailedWith(claim, session, Ambiguous)
      && RetryInstant(config, claim, now) <= latest && InMillis(at, RetryInstant(config, claim, now))
    ensures Decide(config, claim, session, now, latest).disposition == Ok(Defer(at)) <==>
      && ProbeSaid(claim, session, InProgress) && claim.recoveryProbeCount < config.maxRecoveryProbes
      && RetryInstant(config, claim, now) <= latest && InMillis(at, RetryInstant(config, claim, now))
  {
    hide Backoff.Delay;
  }

  /** It is left leased exactly when the health report is malformed or the next attempt lies beyond the clock. */
  lemma OpenExactlyWhen(config: EngineConfig, claim: ClaimedCommand, session: Session, now: int, latest: int)
    ensures Decide(config, claim, session, now, latest).disposition == Err(Store(CorruptRecord)) <==>
      HasAdapter(claim.request, session.adapter) && session.health.Reported? && !session.health.wellFormed
    ensures Decide(config, claim, session, now, latest).disposition == Err(TimeOverflow) <==>
      && latest < RetryInstant(config, claim, now)
      && (|| FailedWith(claim, session, Retryable) || FailedWith(claim, session, Ambiguous) || Away(claim, session)
          || (ProbeSaid(claim, session, InProgress) && claim.recoveryProbeCount < config.maxRecoveryProbes))
  {
    hide Backoff.Delay;
  }

  /** The device is reached exactly in good health; a usable adapter's health is recorded, its silence as offline. */
  lemma ReachedExactlyWhen(config: EngineConfig, claim: ClaimedCommand, session: Session, now: int, latest: int)
    ensures Decide(config, claim, session, now, latest).contacted <==> Reached(claim, session)
    ensures forall health :: Decide(config, claim, session, now, latest).health == Some(health) <==>
      && HasAdapter(claim.request, session.adapter)
      && (session.health == Reported(health, true) || (session.health.Unreachable? && health == Offline))
  {
    hide Backoff.Delay;
  }
}
