/** The bound on physical effects is reached: for every n, a history with n operator retries and n + 1 acceptances. */
module EdgeWorldLimits {
  import opened Common
  import opened EdgeTables
  import opened EdgeCommandInvariant
  import opened EdgeInvariant
  import opened EdgeTransactions
  import opened EdgeDecision
  import opened EdgeRuns
  import opened EdgeWorld

  const DESCRIPTOR := Descriptor(1, 1, Printer, "P")
  const REQUEST := CommandRequest(1, 7, 1, 1, 3, 5, 6, ReviewManually, DeviceCommand(Printer, 0, true))
  const CONFIG := EngineConfig(1, 1, 1, 8, 8, 1)

  function Answering(execute: ExecuteReply): Session {
    Session(Some(Adapter(DESCRIPTOR, false, false)), Reported(Healthy, true), execute, Unclear)
  }

  /** The request is the only command, on one registered device; operators sent it back `retries` times. */
  predicate Solo(t: Tables, state: CommandState, attempts: nat, retries: nat) {
    && t.commands.Keys == {7} && t.devices.Keys == {3}
    && t.commands[7].request == REQUEST && t.commands[7].state == state
    && t.commands[7].attemptCount == attempts && t.commands[7].nextAttemptAt <= 1
    && t.devices[3].descriptor == DESCRIPTOR
    && Retries(t.commands[7].events) == retries
  }

  predicate Waiting(w: World, attempts: nat, retries: nat) {
    w.phase.Idle? && Solo(w.tables, Queued, attempts, retries) && w.tables.devices[3].mode.Automatic?
  }

  lemma Continue(h: History, move: Move, v: World) returns (longer: History)
    requires h.Lawful() && h.Honest() && Moves(h.Now(), move, v) && Honours(h.Now(), move, v)
    ensures longer.Lawful() && longer.Honest() && longer.Now() == v
  {
    longer := Moved(h, move, v);
  }

  lemma ShortReason()
    ensures ValidReason("r") && ValidName("P")
  {
    assert "r"[0] == 'r' && "P"[0] == 'P';
  }

  // ---------- One command waits ----------

  lemma Registering()
    ensures RegisterTx(EMPTY, 3, DESCRIPTOR, "r") == Ok(EMPTY.(devices := map[3 := NewDevice(DESCRIPTOR)]))
  {
    ShortReason();
    assert DESCRIPTOR.displayName[0] == 'P';
    assert EMPTY.devices[3 := NewDevice(DESCRIPTOR)] == map[3 := NewDevice(DESCRIPTOR)];
  }

  lemma Submitting(t: Tables)
    requires t.commands == map[] && t.devices.Keys == {3}
    requires t.devices[3].descriptor == DESCRIPTOR && t.devices[3].mode.Automatic?
    ensures AfterSubmit(t, REQUEST, 0) == Put(t, 7, Submitted(REQUEST, Queued, 0))
    ensures Solo(Put(t, 7, Submitted(REQUEST, Queued, 0)), Queued, 0, 0)
  {
    assert Candidates(t, REQUEST) == {};
    RetriesAppend([], CommandEvent(None, Queued));
    assert [] + [CommandEvent(None, Queued)] == [CommandEvent(None, Queued)];
  }

  lemma Queueing() returns (h: History)
    ensures h.Lawful() && h.Honest() && Waiting(h.Now(), 0, 0) && h.Now().Accepted(7) == 0
  {
    Registering();
    ShortReason();
    var registered := EMPTY.(devices := map[3 := NewDevice(DESCRIPTOR)]);
    var automatic := SetMode(registered, 3, Automatic);
    assert ChangeModeTx(registered, 3, Automatic, "r", 0) == Ok(automatic);
    Submitting(automatic);
    hide RegisterTx, ChangeModeTx, AfterSubmit, Submitted, ValidReason;
    h := Continue(Boot, Operate(Register(3, DESCRIPTOR, "r")), World(registered, Idle, map[]));
    h := Continue(h, Operate(ChangeMode(3, Automatic, "r", 0)), World(automatic, Idle, map[]));
    var queued := Put(automatic, 7, Submitted(REQUEST, Queued, 0));
    h := Continue(h, Operate(Submit(REQUEST, 0)), World(queued, Idle, map[]));
  }

  // ---------- One round: accepted without an answer, reviewed, sent back ----------

  lemma SoloIsNext(t: Tables, attempts: nat, retries: nat)
    requires Solo(t, Queued, attempts, retries) && attempts < U32_MAX && t.devices[3].mode.Automatic?
    ensures IsNext(t, 7, 1, U32_MAX)
  {
    assert !DeviceBusy(t, 3);
    assert Eligible(t, 7, 1, U32_MAX);
  }

  lemma SoloLeased(t: Tables, attempts: nat, retries: nat)
    requires Solo(t, Queued, attempts, retries)
    ensures Solo(Claimed(t, 7, 11), Executing, attempts + 1, retries)
    ensures HoldsLease(Claimed(t, 7, 11), ClaimOf(t, 7, 11))
    ensures ClaimOf(t, 7, 11).request == REQUEST && ClaimOf(t, 7, 11).kind.Execute?
  {
    RetriesAppend(t.commands[7].events, CommandEvent(Some(Queued), Executing));
    hide Retries;
  }

  lemma TakeSolo(w: World, attempts: nat, retries: nat) returns (v: World, claim: ClaimedCommand)
    requires Waiting(w, attempts, retries) && attempts < U32_MAX
    ensures Moves(w, Take(1, 11, U32_MAX, claim), v) && v.phase == Holding(claim) && v.accepted == w.accepted
    ensures claim.request == REQUEST && claim.kind.Execute?
    ensures Solo(v.tables, Executing, attempts + 1, retries) && HoldsLease(v.tables, claim)
  {
    claim := ClaimOf(w.tables, 7, 11);
    v := World(Claimed(w.tables, 7, 11), Holding(claim), w.accepted);
    SoloIsNext(w.tables, attempts, retries);
    SoloLeased(w.tables, attempts, retries);
    hide IsNext, Claimed, ClaimOf, Solo, HoldsLease;
  }

  lemma ConsultSolo(w: World, execute: ExecuteReply) returns (v: World)
    requires w.phase.Holding? && w.phase.claim.request == REQUEST && w.phase.claim.kind.Execute?
    requires execute.Executed? || execute.failure.Ambiguous?
    ensures Moves(w, Consult(CONFIG, Answering(execute), 1_000_000, 9_000_000), v)
    ensures Honours(w, Consult(CONFIG, Answering(execute), 1_000_000, 9_000_000), v)
    ensures v.tables == w.tables && v.Accepted(7) == w.Accepted(7) + 1
    ensures v.phase.Decided? && v.phase.claim == w.phase.claim
    ensures execute.ExecuteFailed? ==> v.phase.disposition.Ok? && v.phase.disposition.value == Uncertain(1)
  {
    var decision := Decide(CONFIG, w.phase.claim, Answering(execute), 1_000_000, 9_000_000);
    v := World(w.tables, Decided(w.phase.claim, decision.disposition), w.accepted[7 := w.Accepted(7) + 1]);
  }

  lemma SettleSolo(w: World, attempts: nat, retries: nat) returns (v: World)
    requires w.phase.Decided? && w.phase.claim.request == REQUEST && w.phase.disposition == Ok(Uncertain(1))
    requires Solo(w.tables, Executing, attempts, retries) && HoldsLease(w.tables, w.phase.claim)
    ensures Moves(w, Settle(RetryLimits(8, 8), 1), v) && v.phase.Idle? && v.accepted == w.accepted
    ensures Solo(v.tables, ManualReview, attempts, retries)
  {
    hide Retries;
    SettledOwnRow(w.tables, w.phase.claim, Uncertain(1), RetryLimits(8, 8), 1);
    v := World(After(w.tables, FinishTx(w.tables, w.phase.claim, Uncertain(1), RetryLimits(8, 8), 1)), Idle,
      w.accepted);
  }

  lemma RequeueSolo(h: History, attempts: nat, retries: nat) returns (later: History)
    requires h.Lawful() && h.Honest() && h.Now().phase.Idle? && Solo(h.Now().tables, ManualReview, attempts, retries)
    ensures later.Lawful() && later.Honest() && later.Now().accepted == h.Now().accepted
    ensures Waiting(later.Now(), attempts, retries + 1)
  {
    ShortReason();
    var w := h.Now();
    var automatic := SetMode(w.tables, 3, Automatic);
    var requeued := Put(automatic, 7, Unleased(automatic.commands[7], Queued, Some(1), None));
    RetriesAppend(w.tables.commands[7].events, CommandEvent(Some(ManualReview), Queued));
    hide Retries;
    later := Continue(h, Operate(ChangeMode(3, Automatic, "r", 1)), w.(tables := automatic));
    later := Continue(later, Operate(Retry(7, "r", 1)), w.(tables := requeued));
  }

  lemma NotConsulted(w: World, move: Move, v: World)
    requires !move.Consult?
    ensures Honours(w, move, v)
  {
  }

  lemma Round(h: History, n: nat) returns (later: History)
    requires h.Lawful() && h.Honest() && Waiting(h.Now(), n, n) && n < U32_MAX
    ensures later.Lawful() && later.Honest() && Waiting(later.Now(), n + 1, n + 1)
    ensures later.Now().Accepted(7) == h.Now().Accepted(7) + 1
  {
    hide Moves, Honours, Solo, HoldsLease, Answering;
    var taken, claim := TakeSolo(h.Now(), n, n);
    NotConsulted(h.Now(), Take(1, 11, U32_MAX, claim), taken);
    later := Continue(h, Take(1, 11, U32_MAX, claim), taken);
    var lost := ConsultSolo(taken, ExecuteFailed(Ambiguous));
    later := Continue(later, Consult(CONFIG, Answering(ExecuteFailed(Ambiguous)), 1_000_000, 9_000_000), lost);
    var reviewed := SettleSolo(lost, n + 1, n);
    NotConsulted(lost, Settle(RetryLimits(8, 8), 1), reviewed);
    later := Continue(later, Settle(RetryLimits(8, 8), 1), reviewed);
    later := RequeueSolo(later, n + 1, n);
  }

  lemma {:induction false} Rounds(n: nat) returns (h: History)
    requires n < U32_MAX
    ensures h.Lawful() && h.Honest() && Waiting(h.Now(), n, n) && h.Now().Accepted(7) == n
  {
    if n == 0 {
      h := Queueing();
    } else {
      h := Rounds(n - 1);
      h := Round(h, n - 1);
    }
  }

  /**
   For every n that leaves room in the 32-bit attempt counter there is a history in which operators sent the command
   back n times, each time after an execution that had been accepted without an answer, and it was accepted n + 1 times.
   */
  lemma {:induction false} EveryRetryMayActAgain(n: nat) returns (h: History)
    requires n < U32_MAX
    ensures h.Lawful() && h.Honest() && 7 in h.Now().tables.commands
    ensures h.Now().Accepted(7) == n + 1 && Retries(h.Now().tables.commands[7].events) == n
    ensures h.Now().tables.commands[7].request.policy.ReviewManually?
  {
    hide Moves, Honours, HoldsLease, Answering, Retries;
    h := Rounds(n);
    var taken, claim := TakeSolo(h.Now(), n, n);
    NotConsulted(h.Now(), Take(1, 11, U32_MAX, claim), taken);
    h := Continue(h, Take(1, 11, U32_MAX, claim), taken);
    var result := CommandResult(Printer, 0, true);
    var done := ConsultSolo(taken, Executed(result));
    h := Continue(h, Consult(CONFIG, Answering(Executed(result)), 1_000_000, 9_000_000), done);
  }

  /** An ambiguous execution that had in fact been accepted, sent back by an operator, is accepted a second time. */
  lemma {:induction false} OperatorRetryAllowsASecondEffect() returns (h: History)
    ensures h.Lawful() && h.Honest() && 7 in h.Now().tables.commands
    ensures h.Now().Accepted(7) == 2 && Retries(h.Now().tables.commands[7].events) == 1
    ensures h.Now().tables.commands[7].request.policy.ReviewManually?
  {
    h := EveryRetryMayActAgain(1);
  }
}
