/** Local scheduling of one claimed task's lease, on monotonic time only. */
module LeaseMonitor {
  import opened Common

  type Instant = nat

  datatype Policy = Policy(actionGuard: nat, retryDelay: nat, requestTimeout: nat)

  datatype FailureKind = Retryable | Rejection

  datatype Outcome =
    | Succeeded(attempt: nat, at: Instant)
    | Failed(attempt: nat, at: Instant, kind: FailureKind, failures: nat)

  datatype HeartbeatState =
    | Scheduled(nextAt: Instant)
    | InFlight(attempt: nat, startedAt: Instant)
    | RetryScheduled(nextAt: Instant, failures: nat)
    | LeaseRejected

  datatype BlockReason = UnverifiedLease | LeaseExpiresSoon | LeaseExpired | LeaseWasRejected

  datatype LeaseError =
    | InvalidTimestamp | InvalidLeaseWindow | MonotonicTimeMovedBackwards | MonotonicOverflow
    | NoHeartbeatInFlight | MissingHeartbeatCycle | StaleHeartbeatAttempt | AttemptMismatch | TaskMismatch

  /** A server answer; a timestamp that does not parse is None. */
  datatype HeartbeatLease = HeartbeatLease(taskId: int, heartbeatAt: Option<int>, expiresAt: Option<int>)

  datatype Attempt = Attempt(id: nat, taskId: int, startedAt: Instant)

  datatype Monitor = Monitor(
    taskId: int,
    expiresAt: int,
    deadline: Instant,
    policy: Policy,
    state: HeartbeatState,
    lastOutcome: Option<Outcome>,
    nextAttemptId: nat,
    failures: nat,
    cycleStartedAt: Option<Instant>,
    verified: bool)

  // ---------- Clock arithmetic ----------

  function CheckedAdd(base: nat, delta: nat): Result<nat, LeaseError> {
    if base + delta <= MAX_DURATION then Ok(base + delta) else Err(MonotonicOverflow)
  }

  function SaturatingSub(a: nat, b: nat): nat {
    if a < b then 0 else a - b
  }

  /** How long after the start of a cycle the next one begins. */
  function HeartbeatOffset(lease: nat, policy: Policy): nat {
    var retryReserve := if policy.retryDelay * 2 <= MAX_DURATION then policy.retryDelay * 2 else MAX_DURATION;
    var reserve :=
      if policy.actionGuard + retryReserve <= MAX_DURATION then policy.actionGuard + retryReserve else MAX_DURATION;
    Min(lease / 2, SaturatingSub(lease, reserve))
  }

  /**
   The next heartbeat lies in the first half of the lease and leaves the guard and two retries before the deadline if
   the lease is that long; else it is due at once.
   */
  lemma OffsetLeavesReserve(lease: nat, policy: Policy)
    requires lease <= MAX_DURATION
    ensures policy.actionGuard + 2 * policy.retryDelay <= lease ==>
      HeartbeatOffset(lease, policy) + policy.actionGuard + 2 * policy.retryDelay <= lease
    ensures lease < policy.actionGuard + 2 * policy.retryDelay ==> HeartbeatOffset(lease, policy) == 0
    ensures 2 * HeartbeatOffset(lease, policy) <= lease
  {
  }

  /** No later offset does both. */
  lemma OffsetIsTheLatest(lease: nat, policy: Policy, offset: nat)
    requires lease <= MAX_DURATION
    requires 2 * offset <= lease && offset + policy.actionGuard + 2 * policy.retryDelay <= lease
    ensures offset <= HeartbeatOffset(lease, policy)
  {
  }

  // ---------- Queries ----------

  function ActionBlockAt(m: Monitor): Instant {
    SaturatingSub(m.deadline, m.policy.actionGuard)
  }

  predicate HeartbeatDue(m: Monitor, now: Instant) {
    && now < m.deadline
    && (m.state.Scheduled? || m.state.RetryScheduled?)
    && now >= m.state.nextAt
  }

  predicate RequestTimedOut(m: Monitor, now: Instant) {
    m.state.InFlight? && now >= m.state.startedAt && now - m.state.startedAt >= m.policy.requestTimeout
  }

  function ActionBlockReason(m: Monitor, now: Instant): Option<BlockReason> {
    if m.state.LeaseRejected? then Some(LeaseWasRejected)
    else if now >= m.deadline then Some(LeaseExpired)
    else if !m.verified then Some(UnverifiedLease)
    else if now >= ActionBlockAt(m) then Some(LeaseExpiresSoon)
    else None
  }

  predicate ActionsAllowed(m: Monitor, now: Instant) {
    ActionBlockReason(m, now).None?
  }

  function RequireInFlight(m: Monitor, attempt: nat): Result<Instant, LeaseError> {
    match m.state
    case InFlight(current, startedAt) =>
      if current == attempt then Ok(startedAt)
      else if attempt < current then Err(StaleHeartbeatAttempt)
      else Err(AttemptMismatch)
    case _ => if attempt < m.nextAttemptId then Err(StaleHeartbeatAttempt) else Err(NoHeartbeatInFlight)
  }

  // ---------- Transitions ----------

  function Anchored(taskId: int, expiresAt: Option<int>, wall: int, monotonic: Instant, policy: Policy)
    : Result<Monitor, LeaseError>
  {
    if expiresAt.None? then Err(InvalidTimestamp)
    else
      match CheckedAdd(monotonic, if expiresAt.value > wall then expiresAt.value - wall else 0)
      case Err(e) => Err(e)
      case Ok(deadline) =>
        Ok(Monitor(taskId, expiresAt.value, deadline, policy, Scheduled(monotonic), None, 1, 0, None, false))
  }

  function Begun(m: Monitor, now: Instant): Monitor
    requires HeartbeatDue(m, now)
  {
    m.(cycleStartedAt := if m.state.Scheduled? then Some(now) else m.cycleStartedAt,
       nextAttemptId := Min(m.nextAttemptId + 1, U64_MAX),
       state := InFlight(m.nextAttemptId, now))
  }

  /** The length of a granted lease, by the server's own two timestamps. */
  function LeaseWindow(response: HeartbeatLease): Result<nat, LeaseError> {
    if response.heartbeatAt.None? || response.expiresAt.None? then Err(InvalidTimestamp)
    else if response.expiresAt.value <= response.heartbeatAt.value then Err(InvalidLeaseWindow)
    else Ok(response.expiresAt.value - response.heartbeatAt.value)
  }

  function Renewed(m: Monitor, attempt: nat, response: HeartbeatLease, at: Instant): Result<Monitor, LeaseError> {
    match RequireInFlight(m, attempt)
    case Err(e) => Err(e)
    case Ok(startedAt) =>
      if at < startedAt then Err(MonotonicTimeMovedBackwards)
      else if m.cycleStartedAt.None? then Err(MissingHeartbeatCycle)
      else if startedAt < m.cycleStartedAt.value then Err(MonotonicTimeMovedBackwards)
      else if response.taskId != m.taskId then Err(TaskMismatch)
      else
        match LeaseWindow(response)
        case Err(e) => Err(e)
        case Ok(lease) =>
          var start := m.cycleStartedAt.value;
          if start + lease > MAX_DURATION then Err(MonotonicOverflow)
          else Ok(m.(expiresAt := response.expiresAt.value,
                     deadline := start + lease,
                     state := Scheduled(start + HeartbeatOffset(lease, m.policy)),
                     lastOutcome := Some(Succeeded(attempt, at)),
                     failures := 0,
                     cycleStartedAt := None,
                     verified := true))
  }

  function Missed(m: Monitor, attempt: nat, kind: FailureKind, at: Instant): Result<Monitor, LeaseError> {
    match RequireInFlight(m, attempt)
    case Err(e) => Err(e)
    case Ok(startedAt) =>
      var failures := Min(m.failures + 1, U32_MAX);
      var outcome := Some(Failed(attempt, at, kind, failures));
      if at < startedAt then Err(MonotonicTimeMovedBackwards)
      else if kind.Rejection? then
        Ok(m.(state := LeaseRejected, lastOutcome := outcome, failures := failures, cycleStartedAt := None))
      else if at + m.policy.retryDelay > MAX_DURATION then Err(MonotonicOverflow)
      else Ok(m.(state := RetryScheduled(Min(at + m.policy.retryDelay, ActionBlockAt(m)), failures),
                 lastOutcome := outcome, failures := failures))
  }

  function ExpiredAttempt(m: Monitor, now: Instant): Result<Monitor, LeaseError> {
    if RequestTimedOut(m, now) then Missed(m, m.state.attempt, Retryable, now) else Ok(m)
  }

  // ---------- What each transition means ----------

  /** Actions go ahead exactly under a verified, unrejected lease with more than the guard left. */
  lemma ActionsAllowedExactlyWhen(m: Monitor, now: Instant)
    ensures ActionsAllowed(m, now) <==> m.verified && !m.state.LeaseRejected? && now + m.policy.actionGuard < m.deadline
  {
  }

  /** A heartbeat begins exactly at or after its time and before the deadline, under the next number. */
  lemma BeginsExactlyWhen(m: Monitor, now: Instant)
    ensures HeartbeatDue(m, now) <==>
      && now < m.deadline
      && (|| (m.state.Scheduled? && m.state.nextAt <= now)
          || (m.state.RetryScheduled? && m.state.nextAt <= now))
    ensures HeartbeatDue(m, now) ==>
      Begun(m, now) == m.(state := InFlight(m.nextAttemptId, now),
        nextAttemptId := if m.nextAttemptId < 0xFFFF_FFFF_FFFF_FFFF then m.nextAttemptId + 1 else 0xFFFF_FFFF_FFFF_FFFF,
        cycleStartedAt := if m.state.RetryScheduled? then m.cycleStartedAt else Some(now))
  {
  }

  /** The answer belongs to the attempt in flight and comes after it. */
  predicate Answers(m: Monitor, attempt: nat, at: Instant) {
    m.state.InFlight? && m.state.attempt == attempt && m.state.startedAt <= at
  }

  /** An answer to an older attempt is stale; one to a later attempt never fits, in flight or not. */
  lemma RefusedExactly(m: Monitor, attempt: nat)
    ensures RequireInFlight(m, attempt) == Err(StaleHeartbeatAttempt) <==>
      attempt < if m.state.InFlight? then m.state.attempt else m.nextAttemptId
    ensures RequireInFlight(m, attempt) == Err(AttemptMismatch) <==> m.state.InFlight? && m.state.attempt < attempt
    ensures RequireInFlight(m, attempt) == Err(NoHeartbeatInFlight) <==>
      !m.state.InFlight? && m.nextAttemptId <= attempt
  {
  }

  /** An answer renews the lease exactly when it fits, for the server's window counted from the start of the cycle. */
  lemma RenewalIsAnchored(m: Monitor, attempt: nat, response: HeartbeatLease, at: Instant)
    ensures Renewed(m, attempt, response, at).Ok? <==>
      && Answers(m, attempt, at)
      && m.cycleStartedAt.Some? && m.cycleStartedAt.value <= m.state.startedAt
      && response.taskId == m.taskId && response.heartbeatAt.Some? && response.expiresAt.Some?
      && response.heartbeatAt.value < response.expiresAt.value
      && m.cycleStartedAt.value + (response.expiresAt.value - response.heartbeatAt.value) <= MAX_DURATION
    ensures Renewed(m, attempt, response, at).Ok? ==>
      var r := Renewed(m, attempt, response, at).value;
      && r.deadline - m.cycleStartedAt.value == response.expiresAt.value - response.heartbeatAt.value
      && r.expiresAt == response.expiresAt.value && r.verified && r.failures == 0 && r.cycleStartedAt == None
      && r.state.Scheduled? && r.lastOutcome == Some(Succeeded(attempt, at))
      && r.nextAttemptId == m.nextAttemptId && r.taskId == m.taskId && r.policy == m.policy
  {
    hide HeartbeatOffset;
  }

  /**
   A failure of the attempt in flight ends a rejected lease for good and otherwise schedules a retry: after the delay,
   but no later than actions stop.
   */
  lemma FailureExactly(m: Monitor, attempt: nat, kind: FailureKind, at: Instant)
    ensures Missed(m, attempt, kind, at).Ok? <==>
      Answers(m, attempt, at) && (kind == Retryable ==> at + m.policy.retryDelay <= MAX_DURATION)
    ensures Missed(m, attempt, kind, at).Ok? ==>
      var r := Missed(m, attempt, kind, at).value;
      && r.failures == (if m.failures < 0xFFFF_FFFF then m.failures + 1 else 0xFFFF_FFFF)
      && r.lastOutcome == Some(Failed(attempt, at, kind, r.failures))
      && r.deadline == m.deadline && r.expiresAt == m.expiresAt && r.verified == m.verified
      && r.nextAttemptId == m.nextAttemptId && r.taskId == m.taskId && r.policy == m.policy
      && (kind == Rejection ==> r.state == LeaseRejected && r.cycleStartedAt == None)
      && (kind == Retryable ==>
            && r.state.RetryScheduled? && r.state.failures == r.failures && r.cycleStartedAt == m.cycleStartedAt
            && (at + m.policy.retryDelay + m.policy.actionGuard <= m.deadline ==>
                  r.state.nextAt == at + m.policy.retryDelay)
            && (at + m.policy.retryDelay + m.policy.actionGuard > m.deadline >= m.policy.actionGuard ==>
                  r.state.nextAt + m.policy.actionGuard == m.deadline)
            && (m.deadline < m.policy.actionGuard ==> r.state.nextAt == 0))
  {
  }

  /** A timeout is a retryable failure, exactly once the request has been out for as long as it may be. */
  lemma TimeoutExactly(m: Monitor, now: Instant)
    ensures ExpiredAttempt(m, now) ==
      if m.state.InFlight? && m.state.startedAt + m.policy.requestTimeout <= now
      then Missed(m, m.state.attempt, Retryable, now) else Ok(m)
  {
  }

  /** A new monitor has until the server's expiry by the wall clock; it is unverified and due at once. */
  lemma AnchorExactly(taskId: int, expiresAt: Option<int>, wall: int, monotonic: Instant, policy: Policy)
    ensures var r := Anchored(taskId, expiresAt, wall, monotonic, policy);
      && (r.Ok? <==>
            && expiresAt.Some? && monotonic <= MAX_DURATION
            && monotonic + (expiresAt.value - wall) <= MAX_DURATION)
      && (r.Ok? ==>
            && (wall <= expiresAt.value ==> r.value.deadline - monotonic == expiresAt.value - wall)
            && (expiresAt.value < wall ==> r.value.deadline == monotonic)
            && r.value.expiresAt == expiresAt.value && r.value.taskId == taskId && r.value.policy == policy
            && r.value.state == Scheduled(monotonic) && !r.value.verified && r.value.nextAttemptId == 1
            && r.value.failures == 0 && r.value.cycleStartedAt == None && r.value.lastOutcome == None)
  {
  }

  /** The same monitor, updated in place. */
  class MovementLeaseMonitor {
    const taskId: int
    const policy: Policy
    var expiresAt: int
    var deadline: Instant
    var state: HeartbeatState
    var lastOutcome: Option<Outcome>
    var nextAttemptId: nat
    var failures: nat
    var cycleStartedAt: Option<Instant>
    var verified: bool

    function View(): Monitor
      reads this
    {
      Monitor(taskId, expiresAt, deadline, policy, state, lastOutcome, nextAttemptId, failures, cycleStartedAt,
        verified)
    }

    constructor (m: Monitor)
      ensures View() == m
    {
      taskId, policy, expiresAt, deadline := m.taskId, m.policy, m.expiresAt, m.deadline;
      state, lastOutcome, nextAttemptId := m.state, m.lastOutcome, m.nextAttemptId;
      failures, cycleStartedAt, verified := m.failures, m.cycleStartedAt, m.verified;
    }

    method BeginHeartbeat(now: Instant) returns (attempt: Option<Attempt>)
      modifies this
      ensures attempt.Some? <==> HeartbeatDue(old(View()), now)
      ensures attempt.None? ==> View() == old(View())
      ensures attempt.Some? ==> View() == Begun(old(View()), now)
      ensures attempt.Some? ==> attempt.value == Attempt(state.attempt, taskId, now)
    {
      if !HeartbeatDue(View(), now) {
        return None;
      }
      if state.Scheduled? {
        cycleStartedAt := Some(now);
      }
      var id := nextAttemptId;
      nextAttemptId := if nextAttemptId < U64_MAX then nextAttemptId + 1 else U64_MAX;
      state := InFlight(id, now);
      return Some(Attempt(id, taskId, now));
    }

    method HeartbeatSucceeded(attempt: nat, response: HeartbeatLease, at: Instant) returns (r: Result<(), LeaseError>)
      modifies this
      ensures var spec := Renewed(old(View()), attempt, response, at);
        && (r.Ok? <==> spec.Ok?)
        && View() == (if spec.Ok? then spec.value else old(View()))
        && (r.Err? ==> r.error == spec.error)
    {
      var started := RequireInFlight(View(), attempt);
      if started.Err? {
        return Err(started.error);
      }
      if at < started.value {
        return Err(MonotonicTimeMovedBackwards);
      }
      if cycleStartedAt.None? {
        return Err(MissingHeartbeatCycle);
      }
      if started.value < cycleStartedAt.value {
        return Err(MonotonicTimeMovedBackwards);
      }
      if response.taskId != taskId {
        return Err(TaskMismatch);
      }
      var window := LeaseWindow(response);
      if window.Err? {
        return Err(window.error);
      }
      var newDeadline := CheckedAdd(cycleStartedAt.value, window.value);
      if newDeadline.Err? {
        return Err(newDeadline.error);
      }
      OffsetWithinLease(window.value, policy);
      var nextAt := CheckedAdd(cycleStartedAt.value, HeartbeatOffset(window.value, policy));
      match nextAt {
        case Err(e) => return Err(e);
        case Ok(next) =>
          expiresAt := response.expiresAt.value;
          deadline := newDeadline.value;
          state := Scheduled(next);
          lastOutcome := Some(Succeeded(attempt, at));
          failures := 0;
          cycleStartedAt := None;
          verified := true;
          return Ok(());
      }
    }

    method HeartbeatFailed(attempt: nat, kind: FailureKind, at: Instant) returns (r: Result<(), LeaseError>)
      modifies this
      ensures var spec := Missed(old(View()), attempt, kind, at);
        && (r.Ok? <==> spec.Ok?)
        && View() == (if spec.Ok? then spec.value else old(View()))
        && (r.Err? ==> r.error == spec.error)
    {
      var started := RequireInFlight(View(), attempt);
      if started.Err? {
        return Err(started.error);
      }
      if at < started.value {
        return Err(MonotonicTimeMovedBackwards);
      }
      var count := if failures < U32_MAX then failures + 1 else U32_MAX;
      var next := LeaseRejected;
      if kind.Retryable? {
        var retryAt := CheckedAdd(at, policy.retryDelay);
        if retryAt.Err? {
          return Err(retryAt.error);
        }
        next := RetryScheduled(Min(retryAt.value, ActionBlockAt(View())), count);
      }
      lastOutcome := Some(Failed(attempt, at, kind, count));
      failures := count;
      state := next;
      if kind.Rejection? {
        cycleStartedAt := None;
      }
      return Ok(());
    }

    method ExpireTimedOutHeartbeat(now: Instant) returns (r: Result<Option<nat>, LeaseError>)
      modifies this
      ensures var spec := ExpiredAttempt(old(View()), now);
        && (r.Ok? <==> spec.Ok?)
        && View() == (if spec.Ok? then spec.value else old(View()))
      ensures r.Ok? ==> (r.value.Some? <==> RequestTimedOut(old(View()), now))
      ensures r.Ok? && r.value.Some? ==> r.value.value == old(state.attempt)
      ensures r.Err? ==> r.error == ExpiredAttempt(old(View()), now).error
    {
      if !RequestTimedOut(View(), now) {
        return Ok(None);
      }
      var attempt := state.attempt;
      var missed := HeartbeatFailed(attempt, Retryable, now);
      if missed.Err? {
        return Err(missed.error);
      }
      return Ok(Some(attempt));
    }
  }

  /** Anchors a server's expiry to a clock sample; an unreadable or unrepresentable expiry makes no monitor. */
  method Create(taskId: int, expiresAt: Option<int>, wall: int, monotonic: Instant, policy: Policy)
    returns (r: Result<MovementLeaseMonitor, LeaseError>)
    ensures var spec := Anchored(taskId, expiresAt, wall, monotonic, policy);
      && (r.Ok? <==> spec.Ok?)
      && (r.Ok? ==> r.value.View() == spec.value && Wf(spec.value))
      && (r.Err? ==> r.error == spec.error)
  {
    AnchoredIsWf(taskId, expiresAt, wall, monotonic, policy);
    var anchored := Anchored(taskId, expiresAt, wall, monotonic, policy);
    if anchored.Err? {
      return Err(anchored.error);
    }
    var monitor := new MovementLeaseMonitor(anchored.value);
    return Ok(monitor);
  }

  lemma OffsetWithinLease(lease: nat, policy: Policy)
    ensures HeartbeatOffset(lease, policy) <= lease
  {
  }

  // ---------- Runs of one monitor, whatever its caller does ----------

  datatype Event =
    | Begin(now: Instant)
    | Success(attempt: nat, response: HeartbeatLease, at: Instant)
    | Failure(attempt: nat, kind: FailureKind, at: Instant)
    | Timeout(now: Instant)

  function OrUnchanged(m: Monitor, r: Result<Monitor, LeaseError>): Monitor {
    if r.Ok? then r.value else m
  }

  function Next(m: Monitor, e: Event): Monitor {
    match e
    case Begin(now) => if HeartbeatDue(m, now) then Begun(m, now) else m
    case Success(attempt, response, at) => OrUnchanged(m, Renewed(m, attempt, response, at))
    case Failure(attempt, kind, at) => OrUnchanged(m, Missed(m, attempt, kind, at))
    case Timeout(now) => OrUnchanged(m, ExpiredAttempt(m, now))
  }

  function After(m: Monitor, events: seq<Event>): Monitor {
    if events == [] then m else Next(After(m, events[..|events| - 1]), events[|events| - 1])
  }

  /** A cycle is open exactly while a heartbeat is in flight or being retried. */
  predicate Wf(m: Monitor) {
    && (m.cycleStartedAt.Some? <==> m.state.InFlight? || m.state.RetryScheduled?)
    && 1 <= m.nextAttemptId <= U64_MAX
    && m.failures <= U32_MAX
    && (m.state.InFlight? ==> m.state.attempt <= m.nextAttemptId)
    && (m.state.InFlight? && m.nextAttemptId < U64_MAX ==> m.state.attempt < m.nextAttemptId)
    && (m.state.RetryScheduled? ==> m.state.nextAt <= ActionBlockAt(m))
  }

  lemma AnchoredIsWf(taskId: int, expiresAt: Option<int>, wall: int, monotonic: Instant, policy: Policy)
    ensures Anchored(taskId, expiresAt, wall, monotonic, policy).Ok? ==>
      Wf(Anchored(taskId, expiresAt, wall, monotonic, policy).value)
  {
  }

  lemma NextKeeps(m: Monitor, e: Event)
    requires Wf(m)
    ensures Wf(Next(m, e)) && m.nextAttemptId <= Next(m, e).nextAttemptId
    ensures m.state.LeaseRejected? ==> Next(m, e) == m
  {
  }

  /** The cycle an attempt belongs to is never missing. */
  lemma {:induction false} CycleNeverMissing(m: Monitor, events: seq<Event>, attempt: nat, response: HeartbeatLease,
      at: Instant)
    requires Wf(m)
    ensures Renewed(After(m, events), attempt, response, at) != Err(MissingHeartbeatCycle)
  {
    RunKeeps(m, events);
  }

  lemma {:induction false} RunKeeps(m: Monitor, events: seq<Event>)
    requires Wf(m)
    ensures Wf(After(m, events)) && m.nextAttemptId <= After(m, events).nextAttemptId
  {
    if events != [] {
      RunKeeps(m, events[..|events| - 1]);
      NextKeeps(After(m, events[..|events| - 1]), events[|events| - 1]);
    }
  }

  lemma {:induction false} RejectionIsFinal(m: Monitor, events: seq<Event>)
    requires Wf(m) && m.state.LeaseRejected?
    ensures After(m, events) == m
  {
    if events != [] {
      RejectionIsFinal(m, events[..|events| - 1]);
    }
  }

  /** An attempt below the next id that is not in flight now never comes back, so its late callback changes nothing. */
  lemma {:induction false} LateCallbackIsFenced(m: Monitor, events: seq<Event>, attempt: nat, late: Event)
    requires Wf(m) && attempt < m.nextAttemptId && !(m.state.InFlight? && m.state.attempt == attempt)
    requires (late.Success? || late.Failure?) && late.attempt == attempt
    ensures Next(After(m, events), late) == After(m, events)
    ensures !(After(m, events).state.InFlight? && After(m, events).state.attempt == attempt)
  {
    if events != [] {
      var prior := After(m, events[..|events| - 1]);
      RunKeeps(m, events[..|events| - 1]);
      NextKeeps(prior, events[|events| - 1]);
      LateCallbackIsFenced(m, events[..|events| - 1], attempt, late);
    }
  }

  /** The id lies below the next one, or both are the last; true of every id from the moment its attempt begins. */
  predicate Spent(m: Monitor, attempt: nat) {
    1 <= attempt && (attempt < m.nextAttemptId || attempt == m.nextAttemptId == U64_MAX)
  }

  lemma {:induction false} SpentLasts(m: Monitor, events: seq<Event>, attempt: nat)
    requires Wf(m) && Spent(m, attempt)
    ensures Wf(After(m, events)) && Spent(After(m, events), attempt)
  {
    RunKeeps(m, events);
  }

  /**
   The next heartbeat lets the late callback of an attempt that is over back in exactly when that attempt had the last
   id.
   */
  lemma {:induction false} LateCallbackTakenExactlyWhen(m: Monitor, events: seq<Event>, attempt: nat, now: Instant)
    requires Wf(m) && Spent(m, attempt) && HeartbeatDue(After(m, events), now)
    ensures RequireInFlight(Begun(After(m, events), now), attempt).Ok? <==> attempt == U64_MAX
  {
    SpentLasts(m, events, attempt);
  }

  /** After any renewal, on any run, the next heartbeat keeps its reserve or is already due. */
  lemma RenewalLeavesReserve(m: Monitor, attempt: nat, response: HeartbeatLease, at: Instant)
    requires Renewed(m, attempt, response, at).Ok?
    ensures var r := Renewed(m, attempt, response, at).value;
      var reserve := m.policy.actionGuard + 2 * m.policy.retryDelay;
      && r.verified && r.state.Scheduled?
      && (r.deadline - m.cycleStartedAt.value >= reserve ==> r.state.nextAt + reserve <= r.deadline)
      && (r.deadline - m.cycleStartedAt.value < reserve ==> r.state.nextAt == m.cycleStartedAt.value <= at)
  {
    OffsetLeavesReserve(LeaseWindow(response).value, m.policy);
  }

  /**
   And it comes as late as the reserve and half the lease allow: no instant after the cycle's start that keeps both lies
   after it. With room to spare it is not due at once.
   */
  lemma RenewalIsTheLatest(m: Monitor, attempt: nat, response: HeartbeatLease, at: Instant, instant: Instant)
    requires Renewed(m, attempt, response, at).Ok?
    ensures var r := Renewed(m, attempt, response, at).value;
      var reserve := m.policy.actionGuard + 2 * m.policy.retryDelay;
      && ((&& m.cycleStartedAt.value <= instant && instant + reserve <= r.deadline
           && instant - m.cycleStartedAt.value <= r.deadline - instant) ==> instant <= r.state.nextAt)
      && (r.deadline - m.cycleStartedAt.value >= reserve + 2 ==> m.cycleStartedAt.value < r.state.nextAt)
  {
    var lease := LeaseWindow(response).value;
    var reserve := m.policy.actionGuard + 2 * m.policy.retryDelay;
    if reserve + 2 <= lease {
      OffsetIsTheLatest(lease, m.policy, 1);
    }
    if m.cycleStartedAt.value <= instant {
      var offset := instant - m.cycleStartedAt.value;
      if 2 * offset <= lease && offset + reserve <= lease {
        OffsetIsTheLatest(lease, m.policy, offset);
      }
    }
    hide HeartbeatOffset;
  }

  /** A retry is never scheduled past the point where actions stop. */
  lemma {:induction false} RetryBeforeBlock(m: Monitor, events: seq<Event>)
    requires Wf(m)
    ensures After(m, events).state.RetryScheduled? ==> After(m, events).state.nextAt <= ActionBlockAt(After(m, events))
  {
    RunKeeps(m, events);
  }
}
