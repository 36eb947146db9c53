/** The edge agent's store: one method per transaction, working on a copy of the tables that is committed at the end. */
module EdgeStore {
  import opened Common
  import opened EdgeTables
  import opened EdgeCommandInvariant
  import opened EdgeInvariant
  import opened EdgeRecovery
  import opened EdgeTransactions
  import opened EdgeOutcomes
  import Text

  datatype ClaimedRow = ClaimedRow(row: Command, kind: ClaimKind, probes: nat)

  datatype LeaseRecoverySummary = LeaseRecoverySummary(replayable: nat, probesRequired: nat, manualReviews: nat)

  // ---------- Statements inside a transaction ----------

  method AbandonActiveAttempt(tx: Tables, id: CommandId) returns (r: Commit)
    requires id in tx.commands
    ensures r.Ok? <==> ActiveCount(tx.commands[id].attempts) == 1
    ensures r.Ok? ==>
      r.value == Put(tx, id, tx.commands[id].(attempts := CloseActive(tx.commands[id].attempts, Abandoned)))
    ensures r.Err? ==> r.error == CorruptRecord
  {
    var c := tx.commands[id];
    var changed := ActiveCount(c.attempts);
    if changed != 1 {
      return Err(CorruptRecord);
    }
    return Ok(tx.(commands := tx.commands[id := c.(attempts := CloseActive(c.attempts, Abandoned))]));
  }

  method TransitionLeasedWithoutToken(tx: Tables, id: CommandId, to: CommandState, now: int) returns (r: Commit)
    requires id in tx.commands
    ensures r.Ok? <==> tx.commands[id].state.Executing?
    ensures r.Ok? ==> r.value == Put(tx, id, Revoked(tx.commands[id], to, now).(attempts := tx.commands[id].attempts))
    ensures r.Err? ==> r.error == LeaseMismatch
  {
    var c := tx.commands[id];
    if !c.state.Executing? {
      return Err(LeaseMismatch);
    }
    c := c.(state := to, nextAttemptAt := now, leaseToken := None, leaseUntil := None);
    c := c.(events := c.events + [CommandEvent(Some(Executing), to)]);
    return Ok(tx.(commands := tx.commands[id := c]));
  }

  method TransitionUnleased(tx: Tables, id: CommandId, from: CommandState, to: CommandState, nextAt: Option<int>,
      note: Option<string>)
    returns (r: Commit)
    requires id in tx.commands
    ensures r.Ok? <==> tx.commands[id].state == from && tx.commands[id].leaseToken.None?
    ensures r.Ok? ==> r.value == Put(tx, id, Unleased(tx.commands[id], to, nextAt, note))
    ensures r.Err? ==> r.error == InvalidTransition
  {
    var c := tx.commands[id];
    if c.state != from || c.leaseToken.Some? {
      return Err(InvalidTransition);
    }
    if nextAt.Some? {
      c := c.(nextAttemptAt := nextAt.value);
    }
    if note.Some? {
      c := c.(resolutionNote := note);
    }
    c := c.(state := to, events := c.events + [CommandEvent(Some(from), to)]);
    return Ok(tx.(commands := tx.commands[id := c]));
  }

  /** What a live row must look like for its quarantine statement to change exactly one row. */
  predicate Quarantinable(c: Command) {
    if c.state.Executing? then ActiveCount(c.attempts) == 1 else c.leaseToken.None?
  }

  predicate OnDevice(c: Command, d: DeviceId) {
    c.request.deviceId == d && c.state.IsLive()
  }

  predicate Sweepable(t: Tables, d: DeviceId) {
    forall id :: id in t.commands && OnDevice(t.commands[id], d) ==> Quarantinable(t.commands[id])
  }

  method QuarantineOne(tx: Tables, id: CommandId, now: int) returns (r: Commit)
    requires id in tx.commands && tx.commands[id].state.IsLive()
    ensures r.Ok? <==> Quarantinable(tx.commands[id])
    ensures r.Ok? ==> r.value == Put(tx, id, Quarantined(tx.commands[id], now))
  {
    var from := tx.commands[id].state;
    if from.Executing? {
      r := AbandonActiveAttempt(tx, id);
      if r.Err? {
        return;
      }
      r := TransitionLeasedWithoutToken(r.value, id, ManualReview, now);
    } else {
      r := TransitionUnleased(tx, id, from, ManualReview, None, None);
    }
  }

  /** The row-by-row sweep of one device equals quarantining it at once, and fails only on a corrupt row. */
  method QuarantineDeviceCommands(tx: Tables, d: DeviceId, now: int) returns (r: Commit)
    ensures r.Ok? <==> Sweepable(tx, d)
    ensures r.Ok? ==> r.value == Quarantine(tx, d, now)
  {
    var todo := set id | id in tx.commands && OnDevice(tx.commands[id], d);
    var cur := tx;
    while todo != {}
      invariant forall id :: id in todo ==> id in tx.commands && OnDevice(tx.commands[id], d)
      invariant cur == tx.(commands := cur.commands) && cur.commands.Keys == tx.commands.Keys
      invariant forall id :: id in todo ==> cur.commands[id] == tx.commands[id]
      invariant forall id :: id in tx.commands && id !in todo ==>
        cur.commands[id] ==
          if tx.commands[id].request.deviceId == d then Quarantined(tx.commands[id], now) else tx.commands[id]
      invariant forall id :: id in tx.commands && OnDevice(tx.commands[id], d) && id !in todo ==>
        Quarantinable(tx.commands[id])
      decreases |todo|
    {
      var id := Pick(todo);
      var one := QuarantineOne(cur, id, now);
      if one.Err? {
        return one;
      }
      cur := one.value;
      todo := todo - {id};
    }
    assert cur.commands == Quarantine(tx, d, now).commands;
    return Ok(cur);
  }

  method UpdateDeviceMode(tx: Tables, d: DeviceId, mode: ControlMode) returns (next: Tables)
    requires d in tx.devices
    ensures next == SetMode(tx, d, mode)
  {
    var device := tx.devices[d];
    device := device.(controlEvents := device.controlEvents + [ControlEvent(Some(device.mode), mode)]);
    device := device.(mode := mode);
    next := tx.(devices := tx.devices[d := device]);
  }

  lemma InvIsSweepable(t: Tables, d: DeviceId)
    requires RowsOk(t)
    ensures Sweepable(t, d)
  {
    forall id | id in t.commands && OnDevice(t.commands[id], d) ensures Quarantinable(t.commands[id]) {
      assert RowOk(t, id);
      ExactlyOneActive(t.commands[id]);
    }
  }

  method ForceManualFallback(tx: Tables, d: DeviceId, now: int) returns (r: Commit)
    ensures r.Ok? <==> d in tx.devices && Sweepable(tx, d)
    ensures r.Ok? ==> r.value == ForcedFallback(tx, d, now)
    ensures d !in tx.devices ==> r == Err(DeviceNotFound)
  {
    if d !in tx.devices {
      return Err(DeviceNotFound);
    }
    var existing := tx.devices[d];
    r := QuarantineDeviceCommands(tx, d, now);
    if r.Err? {
      return;
    }
    if !existing.mode.ManualFallback? {
      var next := UpdateDeviceMode(r.value, d, ManualFallback);
      r := Ok(next);
    }
  }

  /** The first row of the claim query, whatever order the rows are scanned in. */
  method NextCandidate(t: Tables, now: int, maxAttempts: nat) returns (next: Option<CommandId>)
    ensures next.Some? ==> IsNext(t, next.value, now, maxAttempts)
    ensures next.None? ==> NothingEligible(t, now, maxAttempts)
  {
    next := None;
    var todo := t.commands.Keys;
    while todo != {}
      invariant todo <= t.commands.Keys
      invariant next.Some? ==> Eligible(t, next.value, now, maxAttempts)
      invariant forall id :: id in t.commands && id !in todo && Eligible(t, id, now, maxAttempts) ==>
        next.Some? && Precedes(t.commands[next.value], next.value, t.commands[id], id)
      decreases |todo|
    {
      var id := Pick(todo);
      todo := todo - {id};
      if Eligible(t, id, now, maxAttempts) {
        if next.None? || Precedes(t.commands[id], id, t.commands[next.value], next.value) {
          next := Some(id);
        }
      }
    }
  }

  lemma OneMember<T>(s: set<T>, x: T)
    requires |s| == 1 && x in s
    ensures s == {x}
  {
    assert |s - {x}| == 0;
    assert s - {x} == {};
  }

  /** The record this exact submission already produced, or a conflict when any part of its identity is taken. */
  method ExistingSubmission(t: Tables, request: CommandRequest) returns (r: Result<Option<Command>, StoreError>)
    requires RowsOk(t)
    ensures r == Ok(None) <==> Candidates(t, request) == {}
    ensures r.Ok? && r.value.Some? <==>
      (&& request.commandId in t.commands && t.commands[request.commandId].request == request
       && Candidates(t, request) == {request.commandId})
    ensures r.Ok? && r.value.Some? ==> r.value.value == t.commands[request.commandId]
    ensures r.Err? ==> r.error == IdentityConflict
  {
    var candidates := Candidates(t, request);
    if candidates == {} {
      return Ok(None);
    }
    if |candidates| != 1 {
      return Err(IdentityConflict);
    }
    var id := Pick(candidates);
    OneMember(candidates, id);
    assert RowOk(t, id);
    if t.commands[id].request != request {
      return Err(IdentityConflict);
    }
    return Ok(Some(t.commands[id]));
  }

  /** Builds the leased row and its attempt; fails only when a counter leaves 32 bits. */
  method LeaseRow(row: Command, token: nat, attemptId: nat, until: int) returns (r: Result<ClaimedRow, StoreError>)
    ensures r.Ok? ==> r.value.row == Leased(row, token, attemptId, until)
    ensures r.Ok? ==>
      && r.value.kind == KindFor(row.state)
      && r.value.probes == KindCount(r.value.row.attempts, RecoveryProbe)
    ensures r.Ok? <==>
      (var d := Leased(row, token, attemptId, until);
       d.attemptCount <= U32_MAX && KindCount(d.attempts, RecoveryProbe) <= U32_MAX)
  {
    var c := row;
    var kind := if c.state.RecoveryWait? then RecoveryProbe else Execute;
    c := c.(state := Executing, leaseToken := Some(token), leaseUntil := Some(until),
            attemptCount := c.attemptCount + if kind.Execute? then 1 else 0);
    if c.attemptCount > U32_MAX {
      return Err(CorruptRecord);
    }
    var sequence := MaxSequence(c.attempts) + 1;
    c := c.(attempts := c.attempts + [Attempt(attemptId, sequence, c.attemptCount, kind, Active)]);
    var probes := KindCount(c.attempts, RecoveryProbe);
    c := c.(events := c.events + [CommandEvent(Some(row.state), Executing)]);
    if probes > U32_MAX {
      return Err(CorruptRecord);
    }
    return Ok(ClaimedRow(c, kind, probes));
  }

  /** Selects the next row and leases it. */
  /** The claim query in terms of what is due. */
  lemma ClaimMeans(t: Tables, now: int, maxAttempts: nat)
    requires Inv(t)
    ensures NothingEligible(t, now, maxAttempts) <==> NothingDue(t, now, maxAttempts)
    ensures NothingDue(t, now, maxAttempts) ==> forall id :: !FirstDue(t, id, now, maxAttempts)
    ensures forall id :: IsNext(t, id, now, maxAttempts) ==>
      FirstDue(t, id, now, maxAttempts) && forall other :: FirstDue(t, other, now, maxAttempts) ==> other == id
  {
    NothingToClaim(t, now, maxAttempts);
    assert RowsOk(t);
    hide Inv, RowsOk, IsNext, NothingEligible, Due, Occupied;
    forall id | IsNext(t, id, now, maxAttempts)
      ensures FirstDue(t, id, now, maxAttempts)
      ensures forall other :: FirstDue(t, other, now, maxAttempts) ==> other == id
    {
      NextIsFirstDue(t, id, now, maxAttempts);
      forall other | FirstDue(t, other, now, maxAttempts) ensures other == id {
        OneFirstDue(t, id, other, now, maxAttempts);
      }
    }
  }

  lemma LeasedCounters(c: Command, token: nat, attemptId: nat, until: int)
    ensures CountersFull(c) <==>
      (var d := Leased(c, token, attemptId, until);
       d.attemptCount > U32_MAX || KindCount(d.attempts, RecoveryProbe) > U32_MAX)
  {
    var d := Leased(c, token, attemptId, until);
    assert d.attempts[..|c.attempts|] == c.attempts;
  }

  method ClaimRow(t: Tables, now: int, until: int, maxAttempts: nat) returns (r: Result<Option<ClaimedRow>, StoreError>)
    requires Inv(t)
    ensures r.Ok? && r.value.None? ==> NothingDue(t, now, maxAttempts)
    ensures r.Err? <==> NoNumberLeft(t, now, maxAttempts)
    ensures r.Ok? && r.value.Some? ==>
      (var leased := r.value.value; var id := leased.row.request.commandId;
       && IsNext(t, id, now, maxAttempts)
       && leased.row == Leased(t.commands[id], t.nextUuid, t.nextUuid + 1, until)
       && leased.kind == KindFor(t.commands[id].state)
       && leased.probes == KindCount(leased.row.attempts, RecoveryProbe))
  {
    ClaimMeans(t, now, maxAttempts);
    hide FirstDue, NothingDue, IsNext, NothingEligible, CountersFull, Leased;
    var candidate := NextCandidate(t, now, maxAttempts);
    if candidate.None? {
      return Ok(None);
    }
    var id := candidate.value;
    assert RowOk(t, id);
    var leased := LeaseRow(t.commands[id], t.nextUuid, t.nextUuid + 1, until);
    LeasedCounters(t.commands[id], t.nextUuid, t.nextUuid + 1, until);
    match leased {
      case Err(e) => return Err(e);
      case Ok(row) => return Ok(Some(row));
    }
  }

  function Under(t: Tables, ids: set<CommandId>, policy: RecoveryPolicy): set<CommandId> {
    set id | id in ids && id in t.commands && t.commands[id].request.policy == policy
  }

  function Tally(t: Tables, ids: set<CommandId>): LeaseRecoverySummary {
    LeaseRecoverySummary(
      |Under(t, ids, DeviceDeduplicatedReplay)|, |Under(t, ids, ProbeThenRetry)|, |Under(t, ids, ReviewManually)|)
  }

  function Counted(summary: LeaseRecoverySummary, policy: RecoveryPolicy): LeaseRecoverySummary {
    match policy
    case DeviceDeduplicatedReplay => summary.(replayable := summary.replayable + 1)
    case ProbeThenRetry => summary.(probesRequired := summary.probesRequired + 1)
    case ReviewManually => summary.(manualReviews := summary.manualReviews + 1)
  }

  lemma TallyGrows(t: Tables, ids: set<CommandId>, id: CommandId)
    requires id in t.commands && id !in ids
    ensures Tally(t, ids + {id}) == Counted(Tally(t, ids), t.commands[id].request.policy)
  {
    UnderGrows(t, ids, id, DeviceDeduplicatedReplay);
    UnderGrows(t, ids, id, ProbeThenRetry);
    UnderGrows(t, ids, id, ReviewManually);
  }

  lemma UnderGrows(t: Tables, ids: set<CommandId>, id: CommandId, policy: RecoveryPolicy)
    requires id in t.commands && id !in ids
    ensures |Under(t, ids + {id}, policy)| ==
      |Under(t, ids, policy)| + if t.commands[id].request.policy == policy then 1 else 0
  {
    var grown := Under(t, ids, policy) + if t.commands[id].request.policy == policy then {id} else {};
    assert Under(t, ids + {id}, policy) == grown;
  }

  lemma PolicyPartition(t: Tables, ids: set<CommandId>)
    requires ids <= t.commands.Keys
    ensures |ids| ==
      |Under(t, ids, DeviceDeduplicatedReplay)| + |Under(t, ids, ProbeThenRetry)| + |Under(t, ids, ReviewManually)|
  {
    var a := Under(t, ids, DeviceDeduplicatedReplay);
    var b := Under(t, ids, ProbeThenRetry);
    var c := Under(t, ids, ReviewManually);
    assert ids == a + b + c;
    assert a !! b && (a + b) !! c;
    assert |a + b| == |a| + |b|;
    assert |a + b + c| == |a + b| + |c|;
  }

  /** When the statements of one turn of the recovery loop each change exactly one row. */
  predicate Recoverable(t: Tables, id: CommandId, now: int)
    requires id in t.commands
  {
    var c := t.commands[id];
    && c.state.Executing? && ActiveCount(c.attempts) == 1
    && (c.request.policy.ReviewManually? ==>
          && c.request.deviceId in t.devices
          && Sweepable(Put(t, id, Revoked(c, ManualReview, now)), c.request.deviceId))
  }

  /** The statements of one turn of the recovery loop. */
  method RecoverRow(tx: Tables, id: CommandId, target: CommandState, now: int) returns (r: Commit)
    requires id in tx.commands && target == ExpiryTarget(tx.commands[id].request.policy)
    ensures r.Ok? <==> Recoverable(tx, id, now)
    ensures r.Ok? ==> r.value == RecoverOne(tx, id, now)
  {
    r := AbandonActiveAttempt(tx, id);
    if r.Err? {
      return;
    }
    r := TransitionLeasedWithoutToken(r.value, id, target, now);
    if r.Err? {
      return;
    }
    assert r.value == Put(tx, id, Revoked(tx.commands[id], target, now));
    if target.ManualReview? {
      r := ForceManualFallback(r.value, tx.commands[id].request.deviceId, now);
    }
  }

  lemma RecoverableRow(t: Tables, id: CommandId, now: int)
    requires Inv(t) && id in t.commands && t.commands[id].state.Executing?
    ensures Recoverable(t, id, now)
  {
    var c := t.commands[id];
    assert RowOk(t, id);
    ExactlyOneActive(c);
    RevokedKeeps(c, ExpiryTarget(c.request.policy), now);
    PutRows(t, id, Revoked(c, ExpiryTarget(c.request.policy), now));
    InvIsSweepable(Put(t, id, Revoked(c, ExpiryTarget(c.request.policy), now)), c.request.deviceId);
  }

  /**
   Whatever has been recovered so far, the next expired row is untouched, recoverable and adds one to its policy's
   counter.
   */
  lemma RecoveryStep(t: Tables, now: int, done: set<CommandId>, id: CommandId)
    requires Inv(t) && done <= ExpiredIds(t, now) && id in ExpiredIds(t, now) - done
    ensures Recovered(t, now, done).commands[id] == t.commands[id]
    ensures t.commands[id].request.deviceId in Recovered(t, now, done).devices
    ensures Recoverable(Recovered(t, now, done), id, now)
    ensures RecoverOne(Recovered(t, now, done), id, now) == Recovered(t, now, done + {id})
    ensures Tally(t, done + {id}) == Counted(Tally(t, done), t.commands[id].request.policy)
  {
    RecoverOneExtends(t, now, done, id);
    RecoveredKeeps(t, now, done);
    RecoverableRow(Recovered(t, now, done), id, now);
    TallyGrows(t, done, id);
  }

  /** The loop over the prefetched expired commands, statement by statement. */
  method RecoverAll(t: Tables, now: int) returns (r: Result<(Tables, LeaseRecoverySummary), StoreError>)
    requires Inv(t)
    ensures r == Ok((Recovered(t, now, ExpiredIds(t, now)), Tally(t, ExpiredIds(t, now))))
  {
    hide Inv;
    var expired := ExpiredIds(t, now);
    var tx := t;
    var summary := LeaseRecoverySummary(0, 0, 0);
    var done := {};
    NothingRecovered(t, now);
    while done != expired
      invariant done <= expired
      invariant tx == Recovered(t, now, done)
      invariant summary == Tally(t, done)
      decreases |expired - done|
    {
      var id := Pick(expired - done);
      RecoveryStep(t, now, done, id);
      var policy := tx.commands[id].request.policy;
      summary := match policy
        case DeviceDeduplicatedReplay => summary.(replayable := summary.replayable + 1)
        case ProbeThenRetry => summary.(probesRequired := summary.probesRequired + 1)
        case ReviewManually => summary.(manualReviews := summary.manualReviews + 1);
      var step := RecoverRow(tx, id, ExpiryTarget(policy), now);
      match step {
        case Err(e) => return Err(e);
        case Ok(next) => tx := next;
      }
      Visits(expired, done, id);
      done := done + {id};
    }
    return Ok((tx, summary));
  }

  lemma FinishedRowKeeps(t: Tables, claim: ClaimedCommand, disposition: Disposition, limits: RetryLimits, now: int)
    requires Inv(t) && Issued(t, claim) && HoldsLease(t, claim)
    requires CompletionFor(claim, disposition, limits, now).Ok?
    ensures var id := claim.request.commandId;
      Inv(Put(t, id, Finished(t.commands[id], claim.attemptId, CompletionFor(claim, disposition, limits, now).value)))
  {
    var id := claim.request.commandId;
    assert RowOk(t, id);
    FinishedKeeps(t.commands[id], claim, disposition, limits, now);
    PutKeeps(t, id, Finished(t.commands[id], claim.attemptId, CompletionFor(claim, disposition, limits, now).value));
  }

  /** A validated operator move of one row. */
  method OperatorTransition(tx: Tables, id: CommandId, reason: string, to: CommandState, allowed: set<CommandState>)
    returns (r: Commit)
    ensures r == OperatorTx(tx, id, reason, to, allowed)
  {
    if !ValidReason(reason) {
      return Err(InvalidReason);
    }
    if id !in tx.commands {
      return Err(CommandNotFound);
    }
    var from := tx.commands[id].state;
    if from !in allowed {
      return Err(InvalidTransition);
    }
    r := TransitionUnleased(tx, id, from, to, None, if to.ResolvedManually? then Some(Text.Trim(reason)) else None);
  }

  /** What a claim transaction would commit: the tables with the next command leased, and its claim. */
  method Grant(t: Tables, now: int, leaseMillis: nat, maxAttempts: nat)
    returns (r: Result<Option<(Tables, ClaimedCommand)>, StoreError>)
    requires Inv(t)
    ensures r.Err? <==> CannotClaim(t, now, leaseMillis, maxAttempts)
    ensures r.Ok? && r.value.None? ==> NothingDue(t, now, maxAttempts)
    ensures r.Ok? && r.value.Some? ==>
      var (tx, claim) := r.value.value;
      && ClaimStep(t, tx, claim, now, now + leaseMillis, maxAttempts)
      && ClaimsFirst(t, tx, claim, now, now + leaseMillis, maxAttempts)
      && Inv(tx) && Evolves(t, tx) && Issued(tx, claim) && HoldsLease(tx, claim)
  {
    hide Inv, Evolves, NoNumberLeft, NothingDue, IsNext, ClaimsFirst, Leased, KindCount, Issued, HoldsLease;
    if leaseMillis > I64_MAX || now + leaseMillis > I64_MAX {
      return Err(DurationOverflow);
    }
    var until := now + leaseMillis;
    var claimed := ClaimRow(t, now, until, maxAttempts);
    match claimed {
      case Err(e) => return Err(e);
      case Ok(None) => return Ok(None);
      case Ok(Some(ClaimedRow(row, kind, probes))) =>
        var id := row.request.commandId;
        var tx := t.(commands := t.commands[id := row], nextUuid := t.nextUuid + 2);
        var claim := ClaimedCommand(row.request, row.attemptCount, t.nextUuid, t.nextUuid + 1, kind, probes);
        assert ClaimStep(t, tx, claim, now, until, maxAttempts);
        ClaimStepKeeps(t, tx, claim, now, until, maxAttempts);
        ClaimTakesTheFirstDue(t, tx, claim, now, until, maxAttempts);
        return Ok(Some((tx, claim)));
    }
  }

  lemma RecoveryCounts(t: Tables, now: int)
    requires Inv(t)
    ensures ExpiredIds(t, now) == RanOut(t, now)
    ensures forall policy :: Under(t, ExpiredIds(t, now), policy) == RanOutUnder(t, now, policy)
    ensures var u := Recovered(t, now, ExpiredIds(t, now));
      forall id :: id in t.commands ==> id in u.commands && RecoversTo(t.commands[id], u.commands[id], now)
  {
    CountedByTheClock(t, now);
    forall policy
      ensures Under(t, ExpiredIds(t, now), policy) == RanOutUnder(t, now, policy)
    {
      assert forall id :: id in ExpiredIds(t, now) ==> id in t.commands;
    }
    hide Inv, Recovered, RecoversTo, RanOut, RanOutUnder, Under;
    forall id | id in t.commands
      ensures var u := Recovered(t, now, ExpiredIds(t, now));
        id in u.commands && RecoversTo(t.commands[id], u.commands[id], now)
    {
      RecoveryByTheClock(t, now, id);
    }
  }

  class EdgeStore {
    var commands: map<CommandId, Command>
    var devices: map<DeviceId, Device>
    var nextUuid: nat

    function View(): Tables
      reads this
    {
      Tables(commands, devices, nextUuid)
    }

    predicate Valid()
      reads this
    {
      Inv(View())
    }

    constructor ()
      ensures Valid() && View() == Tables(map[], map[], 0)
    {
      commands, devices, nextUuid := map[], map[], 0;
    }

    method Commit(tx: Tables)
      modifies this
      ensures View() == tx
    {
      commands, devices, nextUuid := tx.commands, tx.devices, tx.nextUuid;
    }

    method RegisterDevice(d: DeviceId, descriptor: Descriptor, reason: string) returns (r: Result<Device, StoreError>)
      requires Valid()
      modifies this
      ensures Valid() && Evolves(old(View()), View())
      ensures var tx := RegisterTx(old(View()), d, descriptor, reason);
        View() == After(old(View()), tx) && (r.Ok? <==> tx.Ok?) && (r.Err? ==> r.error == tx.error)
      ensures r.Ok? ==> d in devices && r.value == devices[d]
    {
      RegisterKeeps(View(), d, descriptor, reason);
      if !ValidName(descriptor.displayName) {
        return Err(InvalidDescriptor);
      }
      var trimmed := descriptor.(displayName := Text.Trim(descriptor.displayName));
      if !ValidReason(reason) {
        return Err(InvalidReason);
      }
      if d in devices {
        if devices[d].descriptor != trimmed {
          return Err(DeviceConfigurationConflict);
        }
        return Ok(devices[d]);
      }
      devices := devices[d := Device(trimmed, Disabled, Unknown, 0, [ControlEvent(None, Disabled)])];
      return Ok(devices[d]);
    }

    method ChangeControlMode(d: DeviceId, mode: ControlMode, reason: string, now: int)
      returns (r: Result<Device, StoreError>)
      requires Valid()
      modifies this
      ensures Valid() && Evolves(old(View()), View())
      ensures var tx := ChangeModeTx(old(View()), d, mode, reason, now);
        View() == After(old(View()), tx) && (r.Ok? <==> tx.Ok?) && (r.Err? ==> r.error == tx.error)
      ensures r.Ok? ==> d in devices && r.value == devices[d] && devices[d].mode == mode
    {
      ChangeModeKeeps(View(), d, mode, reason, now);
      if !ValidReason(reason) {
        return Err(InvalidReason);
      }
      if d !in devices {
        return Err(DeviceNotFound);
      }
      var tx := View();
      if !mode.Automatic? {
        InvIsSweepable(tx, d);
        var swept := QuarantineDeviceCommands(tx, d, now);
        match swept {
          case Err(e) => return Err(e);
          case Ok(next) => tx := next;
        }
      }
      tx := UpdateDeviceMode(tx, d, mode);
      Commit(tx);
      return Ok(devices[d]);
    }

    method RecordHeartbeat(d: DeviceId, health: HealthState, wellFormed: bool) returns (r: Result<Device, StoreError>)
      requires Valid()
      modifies this
      ensures Valid() && Evolves(old(View()), View())
      ensures var tx := HeartbeatTx(old(View()), d, health, wellFormed);
        View() == After(old(View()), tx) && (r.Ok? <==> tx.Ok?) && (r.Err? ==> r.error == tx.error)
      ensures r.Ok? ==> d in devices && r.value == devices[d]
    {
      HeartbeatKeeps(View(), d, health, wellFormed);
      if !wellFormed {
        return Err(CorruptRecord);
      }
      if d !in devices {
        return Err(DeviceNotFound);
      }
      var failures: nat := 0;
      if !health.PermitsAutomaticWork() {
        failures := if devices[d].healthFailures < U32_MAX then devices[d].healthFailures + 1 else U32_MAX;
      }
      devices := devices[d := devices[d].(health := health, healthFailures := failures)];
      return Ok(devices[d]);
    }

    method Submit(request: CommandRequest, now: int) returns (r: Result<Submission, StoreError>)
      requires Valid()
      modifies this
      ensures Valid() && Evolves(old(View()), View())
      ensures var tx := SubmitTx(old(View()), request, now);
        && (r.Ok? <==> tx.Ok?)
        && (r.Ok? ==> View() == tx.value.0 && r.value == tx.value.1)
        && (r.Err? ==> View() == old(View()) && r.error == tx.error)
    {
      assert RowsOk(View());
      hide Inv, RowsOk, Evolves, Candidates;
      SubmitKeeps(View(), request, now);
      Unchanged(View());
      var fault := SubmissionFault(View(), request);
      if fault.Some? {
        return Err(fault.value);
      }
      var existing := ExistingSubmission(View(), request);
      match existing {
        case Err(e) => return Err(e);
        case Ok(Some(record)) => return Ok(Replayed(record));
        case Ok(None) =>
      }
      var state := if devices[request.deviceId].mode.Automatic? then Queued else ManualReview;
      var record := Command(request, state, 0, now, now, None, None, None, None, [], []);
      record := record.(events := record.events + [CommandEvent(None, state)]);
      assert record == Submitted(request, state, now);
      commands := commands[request.commandId := record];
      return Ok(Accepted(record));
    }

    method ResolveManually(id: CommandId, note: string) returns (r: Result<Command, StoreError>)
      requires Valid()
      modifies this
      ensures Valid() && Evolves(old(View()), View())
      ensures View() == After(old(View()), ResolveTx(old(View()), id, note))
      ensures r.Ok? <==> ResolveTx(old(View()), id, note).Ok?
      ensures r.Ok? ==> id in commands && r.value == commands[id]
      ensures r.Err? ==> r.error == ResolveTx(old(View()), id, note).error
    {
      hide Inv, Evolves;
      OperatorKeeps(View(), id, note, ResolvedManually, {ManualReview});
      var moved := OperatorTransition(View(), id, note, ResolvedManually, {ManualReview});
      match moved {
        case Err(e) => return Err(e);
        case Ok(tx) =>
          Commit(tx);
          return Ok(commands[id]);
      }
    }

    method CancelCommand(id: CommandId, reason: string) returns (r: Result<Command, StoreError>)
      requires Valid()
      modifies this
      ensures Valid() && Evolves(old(View()), View())
      ensures View() == After(old(View()), CancelTx(old(View()), id, reason))
      ensures r.Ok? <==> CancelTx(old(View()), id, reason).Ok?
      ensures r.Ok? ==> id in commands && r.value == commands[id]
      ensures r.Err? ==> r.error == CancelTx(old(View()), id, reason).error
    {
      hide Inv, Evolves;
      OperatorKeeps(View(), id, reason, Cancelled, {Queued, RetryWait, RecoveryWait, ManualReview});
      var moved := OperatorTransition(View(), id, reason, Cancelled, {Queued, RetryWait, RecoveryWait, ManualReview});
      match moved {
        case Err(e) => return Err(e);
        case Ok(tx) =>
          Commit(tx);
          return Ok(commands[id]);
      }
    }

    method RetryAfterReview(id: CommandId, reason: string, now: int) returns (r: Result<Command, StoreError>)
      requires Valid()
      modifies this
      ensures Valid() && Evolves(old(View()), View())
      ensures var tx := RetryTx(old(View()), id, reason, now);
        View() == After(old(View()), tx) && (r.Ok? <==> tx.Ok?) && (r.Err? ==> r.error == tx.error)
      ensures r.Ok? ==> id in commands && r.value == commands[id]
    {
      RetryKeeps(View(), id, reason, now);
      if !ValidReason(reason) {
        return Err(InvalidReason);
      }
      if id !in commands {
        return Err(CommandNotFound);
      }
      var c := commands[id];
      if !c.state.ManualReview? {
        return Err(InvalidTransition);
      }
      if c.request.deviceId !in devices {
        return Err(DeviceNotFound);
      }
      if !devices[c.request.deviceId].mode.Automatic? {
        return Err(DeviceNotAutomatic);
      }
      assert RowOk(View(), id);
      var moved := TransitionUnleased(View(), id, c.state, Queued, Some(now), None);
      match moved {
        case Err(e) => return Err(e);
        case Ok(tx) =>
          Commit(tx);
          return Ok(commands[id]);
      }
    }

    /**
     The loop over the prefetched expired commands never meets a row it cannot change, although
     a manual-review expiry sweeps its whole device on the way; each policy has its own counter.
     */
    method RecoverExpiredLeases(now: int) returns (r: Result<LeaseRecoverySummary, StoreError>)
      requires Valid()
      modifies this
      ensures Valid() && Evolves(old(View()), View())
      ensures View() == Recovered(old(View()), now, ExpiredIds(old(View()), now))
      ensures r.Ok?
      ensures r.value == Tally(old(View()), ExpiredIds(old(View()), now))
      ensures r.value.replayable == |RanOutUnder(old(View()), now, DeviceDeduplicatedReplay)|
      ensures r.value.probesRequired == |RanOutUnder(old(View()), now, ProbeThenRetry)|
      ensures r.value.manualReviews == |RanOutUnder(old(View()), now, ReviewManually)|
      ensures r.value.replayable + r.value.probesRequired + r.value.manualReviews == |RanOut(old(View()), now)|
      ensures forall id :: id in old(commands) ==> id in commands && RecoversTo(old(commands)[id], commands[id], now)
    {
      RecoveryCounts(View(), now);
      var done := RecoverAll(View(), now);
      RecoveredKeeps(View(), now, ExpiredIds(View(), now));
      PolicyPartition(View(), ExpiredIds(View(), now));
      match done {
        case Err(e) => return Err(e);
        case Ok((tx, summary)) =>
          Commit(tx);
          return Ok(summary);
      }
    }

    method ClaimNext(now: int, leaseMillis: nat, maxAttempts: nat)
      returns (r: Result<Option<ClaimedCommand>, StoreError>)
      requires Valid()
      modifies this
      ensures Valid() && Evolves(old(View()), View())
      ensures r.Err? ==> View() == old(View())
      ensures r.Err? <==> CannotClaim(old(View()), now, leaseMillis, maxAttempts)
      ensures r.Ok? && r.value.None? ==> View() == old(View()) && NothingDue(View(), now, maxAttempts)
      ensures r.Ok? && r.value.Some? ==>
        ClaimsFirst(old(View()), View(), r.value.value, now, now + leaseMillis, maxAttempts)
      ensures r.Ok? && r.value.Some? ==>
        ClaimStep(old(View()), View(), r.value.value, now, now + leaseMillis, maxAttempts)
      ensures r.Ok? && r.value.Some? ==> Issued(View(), r.value.value) && HoldsLease(View(), r.value.value)
    {
      hide Inv, Evolves, Issued, HoldsLease, ClaimStep, ClaimsFirst, CannotClaim, NothingDue;
      Unchanged(View());
      var granted := Grant(View(), now, leaseMillis, maxAttempts);
      match granted {
        case Err(e) => return Err(e);
        case Ok(None) => return Ok(None);
        case Ok(Some((tx, claim))) =>
          Commit(tx);
          return Ok(Some(claim));
      }
    }

    /** Commits only under the lease the claim was issued with; otherwise nothing changes. */
    method FinishClaim(claim: ClaimedCommand, now: int, completion: Completion, ghost disposition: Disposition,
        ghost limits: RetryLimits)
      returns (r: Result<(), StoreError>)
      requires Valid() && Issued(View(), claim)
      requires CompletionFor(claim, disposition, limits, now) == Ok(completion)
      modifies this
      ensures Valid() && Evolves(old(View()), View())
      ensures View() == After(old(View()), FinishTx(old(View()), claim, disposition, limits, now))
      ensures r.Ok? <==> old(HoldsLease(View(), claim))
      ensures r.Ok? ==> Ends(old(View()), View(), claim, disposition, limits, now)
      ensures r.Err? ==> r.error == LeaseMismatch
    {
      FinishKeeps(View(), claim, disposition, limits, now);
      if HoldsLease(View(), claim) {
        EndLeaves(View(), claim, disposition, limits, now);
      }
      hide Ends;
      var id := claim.request.commandId;
      if !(id in commands && commands[id].state.Executing? && commands[id].leaseToken == Some(claim.leaseToken)) {
        return Err(LeaseMismatch);
      }
      HeldClaimHasItsAttempt(View(), claim);
      FinishedTablesKeep(View(), claim, disposition, limits, now);
      var c := commands[id].(state := completion.target, nextAttemptAt := completion.nextAttemptAt,
                             leaseToken := None, leaseUntil := None,
                             result := completion.result, resolutionNote := None);
      if Matching(c.attempts, claim.attemptId) != 1 {
        return Err(LeaseMismatch);
      }
      c := c.(attempts := CloseMatching(c.attempts, claim.attemptId, completion.attemptState));
      c := c.(events := c.events + [CommandEvent(Some(Executing), completion.target)]);
      var tx := View().(commands := commands[id := c]);
      assert tx == Put(View(), id, Finished(commands[id], claim.attemptId, completion));
      if completion.manualFallback {
        FinishedRowKeeps(View(), claim, disposition, limits, now);
        InvIsSweepable(tx, claim.request.deviceId);
        var fallen := ForceManualFallback(tx, claim.request.deviceId, now);
        match fallen {
          case Err(e) => return Err(e);
          case Ok(next) => tx := next;
        }
      }
      Commit(tx);
      return Ok(());
    }

    method CompleteSuccess(claim: ClaimedCommand, result: CommandResult, now: int) returns (r: Result<(), StoreError>)
      requires Valid() && Issued(View(), claim)
      modifies this
      ensures Valid() && Evolves(old(View()), View())
      ensures View() == After(old(View()), FinishTx(old(View()), claim, Success(result), RetryLimits(0, 0), now))
      ensures r.Ok? <==> old(HoldsLease(View(), claim)) && result.ValidFor(claim.request.command)
      ensures r.Ok? ==> Ends(old(View()), View(), claim, Success(result), RetryLimits(0, 0), now)
    {
      hide Ends;
      if !result.ValidFor(claim.request.command) {
        EvolvesReflexively(View());
        return Err(InvalidResult);
      }
      r := FinishClaim(claim, now, Completion(Succeeded, AttemptSucceeded, now, Some(result), false), Success(result),
        RetryLimits(0, 0));
    }

    method RetryableFailure(claim: ClaimedCommand, nextAttemptAt: int, limits: RetryLimits, now: int)
      returns (r: Result<bool, StoreError>)
      requires Valid() && Issued(View(), claim)
      modifies this
      ensures Valid() && Evolves(old(View()), View())
      ensures View() == After(old(View()), FinishTx(old(View()), claim, RetryLater(nextAttemptAt), limits, now))
      ensures r.Ok? <==> old(HoldsLease(View(), claim))
      ensures r.Ok? ==> Ends(old(View()), View(), claim, RetryLater(nextAttemptAt), limits, now)
      ensures r.Ok? ==> r.value == LastTry(claim, limits)
    {
      hide Ends;
      var exhausted := match claim.kind
        case Execute => claim.attempt >= limits.executionAttempts
        case RecoveryProbe => claim.recoveryProbeCount >= limits.recoveryProbes;
      var target := if exhausted then ManualReview else if claim.kind.RecoveryProbe? then RecoveryWait else RetryWait;
      var attemptState := if exhausted then NeedsReview else AttemptState.RetryableFailure;
      var done := FinishClaim(claim, now, Completion(target, attemptState, nextAttemptAt, None, exhausted),
        RetryLater(nextAttemptAt), limits);
      if done.Err? {
        return Err(done.error);
      }
      return Ok(exhausted);
    }

    method PermanentFailure(claim: ClaimedCommand, now: int) returns (r: Result<(), StoreError>)
      requires Valid() && Issued(View(), claim)
      modifies this
      ensures Valid() && Evolves(old(View()), View())
      ensures View() == After(old(View()), FinishTx(old(View()), claim, Reject, RetryLimits(0, 0), now))
      ensures r.Ok? <==> old(HoldsLease(View(), claim))
      ensures r.Ok? ==> Ends(old(View()), View(), claim, Reject, RetryLimits(0, 0), now)
    {
      hide Ends;
      r := FinishClaim(claim, now, Completion(Failed, AttemptState.PermanentFailure, now, None, false), Reject,
        RetryLimits(0, 0));
    }

    method AmbiguousFailure(claim: ClaimedCommand, nextAttemptAt: int, now: int) returns (r: Result<bool, StoreError>)
      requires Valid() && Issued(View(), claim)
      modifies this
      ensures Valid() && Evolves(old(View()), View())
      ensures View() ==
        After(old(View()), FinishTx(old(View()), claim, Uncertain(nextAttemptAt), RetryLimits(0, 0), now))
      ensures r.Ok? <==> old(HoldsLease(View(), claim))
      ensures r.Ok? ==> Ends(old(View()), View(), claim, Uncertain(nextAttemptAt), RetryLimits(0, 0), now)
      ensures r.Ok? ==> r.value == claim.request.policy.ReviewManually?
    {
      hide Ends;
      var target := match claim.request.policy
        case DeviceDeduplicatedReplay => RetryWait
        case ProbeThenRetry => RecoveryWait
        case ReviewManually => ManualReview;
      var done := FinishClaim(claim, now,
        Completion(target, AmbiguousOutcome, nextAttemptAt, None, target.ManualReview?),
        Uncertain(nextAttemptAt), RetryLimits(0, 0));
      if done.Err? {
        return Err(done.error);
      }
      return Ok(target.ManualReview?);
    }

    method DeferRecovery(claim: ClaimedCommand, nextAttemptAt: int, now: int) returns (r: Result<(), StoreError>)
      requires Valid() && Issued(View(), claim)
      modifies this
      ensures Valid() && Evolves(old(View()), View())
      ensures View() == After(old(View()), FinishTx(old(View()), claim, Defer(nextAttemptAt), RetryLimits(0, 0), now))
      ensures r.Ok? <==> old(HoldsLease(View(), claim)) && claim.kind.RecoveryProbe?
      ensures r.Ok? ==> Ends(old(View()), View(), claim, Defer(nextAttemptAt), RetryLimits(0, 0), now)
    {
      hide Ends;
      if !claim.kind.RecoveryProbe? {
        EvolvesReflexively(View());
        return Err(InvalidTransition);
      }
      r := FinishClaim(claim, now, Completion(RecoveryWait, StillProcessing, nextAttemptAt, None, false),
        Defer(nextAttemptAt), RetryLimits(0, 0));
    }

    method RecoveryNotFound(claim: ClaimedCommand, now: int) returns (r: Result<(), StoreError>)
      requires Valid() && Issued(View(), claim)
      modifies this
      ensures Valid() && Evolves(old(View()), View())
      ensures View() == After(old(View()), FinishTx(old(View()), claim, AbsentDownstream, RetryLimits(0, 0), now))
      ensures r.Ok? <==> old(HoldsLease(View(), claim)) && claim.kind.RecoveryProbe?
      ensures r.Ok? ==> Ends(old(View()), View(), claim, AbsentDownstream, RetryLimits(0, 0), now)
    {
      hide Ends;
      if !claim.kind.RecoveryProbe? {
        EvolvesReflexively(View());
        return Err(InvalidTransition);
      }
      r := FinishClaim(claim, now, Completion(Queued, NothingFound, now, None, false), AbsentDownstream,
        RetryLimits(0, 0));
    }

    method RequireManualReview(claim: ClaimedCommand, now: int) returns (r: Result<(), StoreError>)
      requires Valid() && Issued(View(), claim)
      modifies this
      ensures Valid() && Evolves(old(View()), View())
      ensures View() == After(old(View()), FinishTx(old(View()), claim, Review, RetryLimits(0, 0), now))
      ensures r.Ok? <==> old(HoldsLease(View(), claim))
      ensures r.Ok? ==> Ends(old(View()), View(), claim, Review, RetryLimits(0, 0), now)
    {
      hide Ends;
      r := FinishClaim(claim, now, Completion(ManualReview, NeedsReview, now, None, true), Review, RetryLimits(0, 0));
    }
  }
}
