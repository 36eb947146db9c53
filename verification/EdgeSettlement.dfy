/**
 What recovery, a claim, its end and other people's transactions do to every row: the counting behind a pass of the
 engine.
 */
module EdgeSettlement {
  import opened Common
  import opened EdgeTables
  import opened EdgeCommandInvariant
  import opened EdgeInvariant
  import opened EdgeRecovery
  import opened EdgeTransactions
  import opened EdgeDecision
  import opened EdgeRuns

  function WithDecidedHealth(t: Tables, claim: ClaimedCommand, decision: Decision): Tables {
    if decision.health.Some? then After(t, HeartbeatTx(t, claim.request.deviceId, decision.health.value, true)) else t
  }

  lemma HealthKeepsClaim(t: Tables, claim: ClaimedCommand, decision: Decision)
    requires Inv(t) && Issued(t, claim)
    ensures claim.request.deviceId in t.devices
    ensures var h := WithDecidedHealth(t, claim, decision);
      Inv(h) && Evolves(t, h) && Issued(h, claim) && h.commands == t.commands
  {
    assert RowOk(t, claim.request.commandId);
    Unchanged(t);
    if decision.health.Some? {
      HealthKeeps(t, claim.request.deviceId, decision.health.value);
    }
  }

  // ---------- Counting ----------

  function Attempts(t: Tables): set<(CommandId, nat)> {
    set id, i: nat | id in t.commands && i < |t.commands[id].attempts| :: (id, i)
  }

  function InState(t: Tables, state: CommandState): set<CommandId> {
    set id | id in t.commands && t.commands[id].state == state
  }

  /** Where the command a claim belonged to ended, and that every other row stayed or was swept with its device. */
  predicate OnlySettles(t: Tables, u: Tables, claimed: CommandId, target: CommandState, device: DeviceId) {
    && u.commands.Keys == t.commands.Keys
    && claimed in t.commands
    && t.commands[claimed].state.Executing?
    && |u.commands[claimed].attempts| == |t.commands[claimed].attempts|
    && u.commands[claimed].state == target && !target.Executing?
    && forall id :: id in t.commands && id != claimed ==> StayedOrSwept(t.commands[id], u.commands[id], device)
  }

  predicate StayedOrSwept(c: Command, d: Command, device: DeviceId) {
    || d == c
    || (&& c.request.deviceId == device && c.state.IsLive() && d.state.ManualReview?
        && |d.attempts| == |c.attempts|)
  }

  lemma SettlingStartsNothing(t: Tables, u: Tables, claimed: CommandId, target: CommandState, device: DeviceId)
    requires OnlySettles(t, u, claimed, target, device)
    ensures Attempts(u) == Attempts(t)
  {
  }

  lemma SettlingMovesOneCommand(t: Tables, u: Tables, claimed: CommandId, target: CommandState, device: DeviceId,
      state: CommandState)
    requires OnlySettles(t, u, claimed, target, device) && (state.Succeeded? || state.Failed?)
    ensures |InState(u, state)| == |InState(t, state)| + if target == state then 1 else 0
  {
    forall id | id in t.commands && id != claimed
      ensures u.commands[id].state == state <==> t.commands[id].state == state
    {
      assert StayedOrSwept(t.commands[id], u.commands[id], device);
    }
    hide OnlySettles, StayedOrSwept;
    OneMoves(InState(t, state), InState(u, state), claimed);
  }

  lemma OneMoves<T>(a: set<T>, b: set<T>, x: T)
    requires x !in a && forall y :: y != x ==> (y in a <==> y in b)
    ensures |b| == |a| + if x in b then 1 else 0
  {
    if x in b {
      assert b == a + {x};
    } else {
      assert b == a;
    }
  }

  // ---------- The end of one claim ----------

  lemma SettledRow(t: Tables, claim: ClaimedCommand, completion: Completion, at: int, id: CommandId)
    requires HoldsLease(t, claim) && claim.request.deviceId in t.devices && id in t.commands
      && id != claim.request.commandId
    ensures StayedOrSwept(t.commands[id], FinishedTables(t, claim, completion, at).commands[id], claim.request.deviceId)
  {
  }

  lemma CompletionsEnd(claim: ClaimedCommand, disposition: Disposition, limits: RetryLimits, at: int)
    requires CompletionFor(claim, disposition, limits, at).Ok?
    ensures var completion := CompletionFor(claim, disposition, limits, at).value;
      && !completion.target.Executing?
      && (completion.manualFallback ==> completion.target.ManualReview?)
      && (completion.target.Succeeded? <==> disposition.Success?)
      && (completion.target.Failed? <==> disposition.Reject?)
  {
  }

  /** Ending a claim settles its command and leaves every other row alone, or swept together with the claim's device. */
  lemma {:induction false} FinishSettles(t: Tables, claim: ClaimedCommand, disposition: Disposition,
      limits: RetryLimits, at: int)
    requires FinishTx(t, claim, disposition, limits, at).Ok?
    ensures CompletionFor(claim, disposition, limits, at).Ok?
    ensures OnlySettles(t, FinishTx(t, claim, disposition, limits, at).value, claim.request.commandId,
      CompletionFor(claim, disposition, limits, at).value.target, claim.request.deviceId)
  {
    var id := claim.request.commandId;
    var completion := CompletionFor(claim, disposition, limits, at).value;
    var u := FinishTx(t, claim, disposition, limits, at).value;
    CompletionsEnd(claim, disposition, limits, at);
    hide CompletionFor;
    forall other | other in t.commands && other != id
      ensures StayedOrSwept(t.commands[other], u.commands[other], claim.request.deviceId)
    {
      SettledRow(t, claim, completion, at, other);
    }
  }

  // ---------- The recovery pass ----------

  /** The command's lease, if it has one, ends after `now`. */
  predicate InTime(c: Command, now: int) {
    c.leaseUntil.Some? ==> now < c.leaseUntil.value
  }

  lemma RecoveryRow(t: Tables, now: int, id: CommandId)
    requires id in t.commands
    ensures var u := Recovered(t, now, ExpiredIds(t, now));
      && id in u.commands
      && |u.commands[id].attempts| == |t.commands[id].attempts|
      && (u.commands[id].state.Executing? ==> u.commands[id] == t.commands[id] && InTime(t.commands[id], now))
      && (u.commands[id].state.Succeeded? <==> t.commands[id].state.Succeeded?)
      && (u.commands[id].state.Failed? <==> t.commands[id].state.Failed?)
  {
    hide TakenDown;
  }

  // ---------- Progress of one pass ----------

  /**
   What executes in u, but for the command in hand, was already executing in t, under the same lease, with time left.
   */
  predicate StillExecuting(t: Tables, u: Tables, now: int, inHand: Option<CommandId>) {
    forall id :: id in u.commands && u.commands[id].state.Executing? && inHand != Some(id) ==>
      id in t.commands && u.commands[id] == t.commands[id] && InTime(t.commands[id], now)
  }

  datatype Tallies = Tallies(claimed: nat, succeeded: nat, failed: nat)

  /** The tables at some moment of a pass, against the tables before it and the counters so far. */
  predicate Progress(before: Tables, t: Tables, counts: Tallies, at: int, inHand: Option<CommandId>) {
    && |Attempts(t)| == |Attempts(before)| + counts.claimed
    && |InState(t, Succeeded)| == |InState(before, Succeeded)| + counts.succeeded
    && |InState(t, Failed)| == |InState(before, Failed)| + counts.failed
    && StillExecuting(before, t, at, inHand)
  }

  /** Recovery starts no attempt, finishes no command, and leaves executing only what still has time on its lease. */
  lemma RecoveryOnlyReleases(t: Tables, now: int)
    ensures var u := Recovered(t, now, ExpiredIds(t, now));
      && Attempts(u) == Attempts(t)
      && InState(u, Succeeded) == InState(t, Succeeded) && InState(u, Failed) == InState(t, Failed)
      && StillExecuting(t, u, now, None)
  {
    var u := Recovered(t, now, ExpiredIds(t, now));
    assert u.commands.Keys == t.commands.Keys;
    forall id | id in t.commands
      ensures |u.commands[id].attempts| == |t.commands[id].attempts|
      ensures u.commands[id].state.Executing? ==> u.commands[id] == t.commands[id] && InTime(t.commands[id], now)
      ensures u.commands[id].state.Succeeded? <==> t.commands[id].state.Succeeded?
      ensures u.commands[id].state.Failed? <==> t.commands[id].state.Failed?
    {
      RecoveryRow(t, now, id);
    }
    hide Recovered, ExpiredIds;
    SameCounts(t, u);
  }

  lemma RecoveryProgresses(t: Tables, now: int)
    ensures Progress(t, Recovered(t, now, ExpiredIds(t, now)), Tallies(0, 0, 0), now, None)
  {
    RecoveryOnlyReleases(t, now);
  }

  lemma SameCounts(t: Tables, u: Tables)
    requires t.commands.Keys <= u.commands.Keys
    requires forall id :: id in t.commands ==> |u.commands[id].attempts| == |t.commands[id].attempts|
    requires forall id :: id in t.commands ==> (u.commands[id].state.Succeeded? <==> t.commands[id].state.Succeeded?)
    requires forall id :: id in t.commands ==> (u.commands[id].state.Failed? <==> t.commands[id].state.Failed?)
    requires forall id :: id in u.commands && id !in t.commands ==>
      u.commands[id].attempts == [] && !u.commands[id].state.Succeeded? && !u.commands[id].state.Failed?
    ensures Attempts(u) == Attempts(t)
    ensures InState(u, Succeeded) == InState(t, Succeeded) && InState(u, Failed) == InState(t, Failed)
  {
  }

  /** A claim starts one attempt. */
  lemma ClaimProgresses(
      before: Tables, t: Tables, u: Tables, claim: ClaimedCommand, counts: Tallies, at: int, until: int,
      maxAttempts: nat)
    requires Progress(before, t, counts, at, None) && ClaimStep(t, u, claim, at, until, maxAttempts)
    ensures Progress(before, u, counts.(claimed := counts.claimed + 1), at, Some(claim.request.commandId))
  {
    ClaimStarts(t, claim.request.commandId, until);
    hide IsNext, Attempts, InState;
    ClaimExecutes(before, t, claim.request.commandId, at, until);
    hide StillExecuting;
  }

  lemma ClaimStarts(t: Tables, id: CommandId, until: int)
    requires id in t.commands && !t.commands[id].state.IsTerminal()
    ensures var u := Claimed(t, id, until);
      && |Attempts(u)| == |Attempts(t)| + 1
      && InState(u, Succeeded) == InState(t, Succeeded) && InState(u, Failed) == InState(t, Failed)
  {
    var u := Claimed(t, id, until);
    assert u.commands.Keys == t.commands.Keys && |u.commands[id].attempts| == |t.commands[id].attempts| + 1;
    assert forall other :: other in t.commands && other != id ==> u.commands[other] == t.commands[other];
    assert u.commands[id].state.Executing?;
    hide Claimed;
    OneMoreAttempt(t, u, id);
    SameInState(t, u, id, Succeeded);
    SameInState(t, u, id, Failed);
  }

  lemma OneMoreAttempt(t: Tables, u: Tables, id: CommandId)
    requires id in t.commands && u.commands.Keys == t.commands.Keys
    requires |u.commands[id].attempts| == |t.commands[id].attempts| + 1
    requires forall other :: other in t.commands && other != id ==> u.commands[other] == t.commands[other]
    ensures |Attempts(u)| == |Attempts(t)| + 1
  {
    var added := (id, |t.commands[id].attempts|);
    forall p: (CommandId, nat)
      ensures p in Attempts(u) <==> p in Attempts(t) || p == added
    {
    }
    assert added !in Attempts(t);
    hide Attempts;
    assert Attempts(u) == Attempts(t) + {added};
  }

  lemma SameInState(t: Tables, u: Tables, id: CommandId, state: CommandState)
    requires id in t.commands && u.commands.Keys == t.commands.Keys
    requires u.commands[id].state != state && t.commands[id].state != state
    requires forall other :: other in t.commands && other != id ==> u.commands[other] == t.commands[other]
    ensures InState(u, state) == InState(t, state)
  {
  }

  lemma ClaimExecutes(before: Tables, t: Tables, id: CommandId, at: int, until: int)
    requires id in t.commands && StillExecuting(before, t, at, None)
    ensures StillExecuting(before, Claimed(t, id, until), at, Some(id))
  {
  }

  /** Between t and u this row was neither started nor finished; a row that is new waits. */
  predicate NeitherStartedNorFinished(t: Tables, u: Tables, id: CommandId) {
    if id in t.commands then
      && id in u.commands && |u.commands[id].attempts| == |t.commands[id].attempts|
      && (u.commands[id].state.Executing? ==> u.commands[id] == t.commands[id])
      && (u.commands[id].state.Succeeded? <==> t.commands[id].state.Succeeded?)
      && (u.commands[id].state.Failed? <==> t.commands[id].state.Failed?)
    else
      id in u.commands ==>
        u.commands[id].attempts == [] && (u.commands[id].state.Queued? || u.commands[id].state.ManualReview?)
  }

  /** What a transaction of somebody else does to one row of a pass. */
  lemma ForeignRow(t: Tables, op: Op, id: CommandId)
    requires RowsOk(t) && ByOthers(op)
    ensures NeitherStartedNorFinished(t, Operated(t, op), id)
  {
    hide RowsOk;
    if op.Submit? && Candidates(t, op.request) == {} {
      NoCandidate(t, op.request);
    }
  }

  lemma ForeignProgresses(before: Tables, t: Tables, op: Op, counts: Tallies, at: int, inHand: Option<CommandId>)
    requires RowsOk(t) && ByOthers(op) && Progress(before, t, counts, at, inHand)
    ensures Progress(before, Operated(t, op), counts, at, inHand)
  {
    hide RowsOk, Operated, Progress, NeitherStartedNorFinished;
    forall id: CommandId
      ensures NeitherStartedNorFinished(t, Operated(t, op), id)
    {
      ForeignRow(t, op, id);
    }
    IdleProgresses(before, t, Operated(t, op), counts, at, inHand);
  }

  lemma IdleProgresses(
      before: Tables, t: Tables, u: Tables, counts: Tallies, at: int, inHand: Option<CommandId>)
    requires Progress(before, t, counts, at, inHand)
    requires forall id: CommandId :: NeitherStartedNorFinished(t, u, id)
    ensures Progress(before, u, counts, at, inHand)
  {
    forall id: CommandId
      ensures id in t.commands ==> id in u.commands && |u.commands[id].attempts| == |t.commands[id].attempts|
      ensures id in t.commands ==> (u.commands[id].state.Succeeded? <==> t.commands[id].state.Succeeded?)
      ensures id in t.commands ==> (u.commands[id].state.Failed? <==> t.commands[id].state.Failed?)
      ensures id in u.commands && id !in t.commands ==>
        u.commands[id].attempts == [] && (u.commands[id].state.Queued? || u.commands[id].state.ManualReview?)
      ensures id in u.commands && u.commands[id].state.Executing? ==>
        id in t.commands && u.commands[id] == t.commands[id]
    {
      assert NeitherStartedNorFinished(t, u, id);
    }
    hide NeitherStartedNorFinished;
    SameCounts(t, u);
    hide Attempts, InState;
    ExecutingOnlyShrinks(before, t, u, at, inHand, None);
    hide StillExecuting;
  }

  lemma ExecutingOnlyShrinks(
      before: Tables, t: Tables, u: Tables, at: int, inHand: Option<CommandId>, settled: Option<CommandId>)
    requires StillExecuting(before, t, at, inHand) && (settled.None? || settled == inHand)
    requires forall id :: id in u.commands && u.commands[id].state.Executing? ==>
      id in t.commands && u.commands[id] == t.commands[id] && settled != Some(id)
    ensures StillExecuting(before, u, at, if settled.Some? then None else inHand)
  {
  }

  lemma {:induction false} ForeignersProgress(
      before: Tables, t: Tables, ops: seq<Foreign>, counts: Tallies, at: int, inHand: Option<CommandId>)
    requires Inv(t) && Progress(before, t, counts, at, inHand)
    ensures Inv(OperatedAll(t, ops)) && Evolves(t, OperatedAll(t, ops))
    ensures Progress(before, OperatedAll(t, ops), counts, at, inHand)
  {
    hide Evolves, Progress, Operated;
    Unchanged(t);
    if ops != [] {
      var prior := OperatedAll(t, ops[..|ops| - 1]);
      var op := ops[|ops| - 1];
      ForeignersProgress(before, t, ops[..|ops| - 1], counts, at, inHand);
      assert Step(prior, op, Operated(prior, op));
      ForeignProgresses(before, prior, op, counts, at, inHand);
      hide Inv, Step;
      StepKeeps(prior, op, Operated(prior, op));
      EvolvesTransitively(t, prior, OperatedAll(t, ops));
    }
  }

  lemma HealthProgresses(
      before: Tables, t: Tables, claim: ClaimedCommand, decision: Decision, counts: Tallies, at: int,
      inHand: Option<CommandId>)
    requires Progress(before, t, counts, at, inHand)
    ensures Progress(before, WithDecidedHealth(t, claim, decision), counts, at, inHand)
  {
    var h := WithDecidedHealth(t, claim, decision);
    assert h.commands == t.commands;
    SameCounts(t, h);
  }

  /** Ending the claim counts as its disposition says, and nothing of this pass is executing any more. */
  lemma FinishProgresses(
      before: Tables, t: Tables, claim: ClaimedCommand, disposition: Disposition, limits: RetryLimits, counts: Tallies,
      at: int)
    requires Progress(before, t, counts, at, Some(claim.request.commandId))
      && FinishTx(t, claim, disposition, limits, at).Ok?
    ensures Progress(before, FinishTx(t, claim, disposition, limits, at).value,
      counts.(succeeded := counts.succeeded + if disposition.Success? then 1 else 0,
              failed := counts.failed + if disposition.Reject? then 1 else 0), at, None)
  {
    hide FinishTx, CompletionFor, OnlySettles, Attempts, InState, StillExecuting;
    FinishSettles(t, claim, disposition, limits, at);
    CompletionsEnd(claim, disposition, limits, at);
    var u := FinishTx(t, claim, disposition, limits, at).value;
    var id := claim.request.commandId;
    var target := CompletionFor(claim, disposition, limits, at).value.target;
    SettlingStartsNothing(t, u, id, target, claim.request.deviceId);
    SettlingMovesOneCommand(t, u, id, target, claim.request.deviceId, Succeeded);
    SettlingMovesOneCommand(t, u, id, target, claim.request.deviceId, Failed);
    SettlingExecutesNothing(t, u, id, target, claim.request.deviceId);
    ExecutingOnlyShrinks(before, t, u, at, Some(id), Some(id));
  }

  lemma SettlingExecutesNothing(t: Tables, u: Tables, claimed: CommandId, target: CommandState, device: DeviceId)
    requires OnlySettles(t, u, claimed, target, device)
    ensures forall id :: id in u.commands && u.commands[id].state.Executing? ==>
      id in t.commands && u.commands[id] == t.commands[id] && id != claimed
  {
    forall id | id in u.commands && u.commands[id].state.Executing? && id != claimed
      ensures u.commands[id] == t.commands[id]
    {
      assert StayedOrSwept(t.commands[id], u.commands[id], device);
    }
  }
}
