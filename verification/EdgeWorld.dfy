/** The runner among its operators, its crashes and the device: how often a command takes physical effect. */
module EdgeWorld {
  import opened Common
  import opened EdgeTables
  import opened EdgeCommandInvariant
  import opened EdgeInvariant
  import opened EdgeRecovery
  import opened EdgeTransactions
  import opened EdgeDecision
  import opened EdgeSettlement
  import opened EdgeRuns
  import Text

  /** Where the one runner of a store is between two of its transactions. */
  datatype Phase =
    | Idle
    | Holding(claim: ClaimedCommand)
    | Decided(claim: ClaimedCommand, disposition: Result<Disposition, EngineError>)

  /** `accepted` counts how often the controller accepted each command. */
  datatype World = World(tables: Tables, phase: Phase, accepted: map<CommandId, nat>) {
    function Accepted(id: CommandId): nat {
      if id in accepted then accepted[id] else 0
    }
  }

  datatype Move =
    | Operate(op: Op)
    | Recover(at: int)
    | Take(at: int, until: int, maxAttempts: nat, claim: ClaimedCommand)
    | Consult(config: EngineConfig, session: Session, now: int, latest: int)
    | Settle(limits: RetryLimits, at: int)
    | Crash

  /** What an adapter's answer says about acceptance by the controller. */
  predicate Contract(claim: ClaimedCommand, session: Session, contacted: bool, before: nat, after: nat) {
    if !contacted then after == before
    else if claim.kind.Execute? then
      match session.execute
      case Executed(_) => after == before + 1
      case ExecuteFailed(failure) => after == before || (failure.Ambiguous? && after == before + 1)
    else
      && after == before
      && (session.probe.Absent? ==> before == 0)
      && (session.probe.Completed? ==> before >= 1)
  }

  /**
   Operators and the cloud act at any time; recovering, claiming and settling belong to the runner;
   a crash forgets its claim.
   */
  predicate Moves(w: World, move: Move, v: World) {
    match move
    case Operate(op) => ByOthers(op) && v == w.(tables := Operated(w.tables, op))
    case Recover(at) => w.phase.Idle? && v == w.(tables := Recovered(w.tables, at, ExpiredIds(w.tables, at)))
    case Take(at, until, maxAttempts, claim) =>
      && w.phase.Idle? && ClaimStep(w.tables, v.tables, claim, at, until, maxAttempts)
      && v == World(v.tables, Holding(claim), w.accepted)
    case Consult(config, session, now, latest) =>
      && w.phase.Holding?
      && var id := w.phase.claim.request.commandId;
      && var decision := Decide(config, w.phase.claim, session, now, latest);
      && v == World(w.tables, Decided(w.phase.claim, decision.disposition), w.accepted[id := v.Accepted(id)])
    case Settle(limits, at) =>
      && w.phase.Decided?
      && v.phase.Idle? && v.accepted == w.accepted
      && v.tables == (match w.phase.disposition
                      case Ok(disposition) =>
                        After(w.tables, FinishTx(w.tables, w.phase.claim, disposition, limits, at))
                      case Err(_) => w.tables)
    case Crash => v == w.(phase := Idle)
  }

  /** In this move the adapter kept its promise about what the controller accepted. */
  predicate Honours(w: World, move: Move, v: World) {
    move.Consult? && w.phase.Holding? ==>
      var claim := w.phase.claim;
      Contract(claim, move.session, Decide(move.config, claim, move.session, move.now, move.latest).contacted,
        w.Accepted(claim.request.commandId), v.Accepted(claim.request.commandId))
  }

  // ---------- The invariant ----------

  /** How often an operator sent the command back to the queue. */
  function Retries(events: seq<CommandEvent>): nat {
    if events == [] then 0
    else Retries(events[..|events| - 1]) + if IsOperatorRetry(events[|events| - 1]) then 1 else 0
  }

  predicate Effects(state: CommandState, accepted: nat, retries: nat) {
    && accepted <= retries + 1
    && (state.Queued? || state.RetryWait? || state.Failed? ==> accepted <= retries)
    && (state.Succeeded? ==> accepted >= 1)
  }

  /** What the runner knows about acceptances of the command it works on. */
  predicate Known(phase: Phase, state: CommandState, accepted: nat, retries: nat) {
    match phase
    case Idle => true
    case Holding(claim) => claim.kind.Execute? ==> accepted <= retries && (state.Queued? ==> accepted < retries)
    case Decided(claim, Ok(disposition)) =>
      && (disposition.Success? ==> accepted >= 1)
      && (disposition.AbsentDownstream? || disposition.Reject? ==> accepted <= retries)
      && (disposition.RetryLater? && claim.kind.Execute? ==> accepted <= retries)
    case Decided(_, Err(_)) => true
  }

  /** The states of a command the runner works on: leased, or taken out of its hands meanwhile. */
  predicate InHand(state: CommandState) {
    state.Executing? || state.ManualReview? || state.ResolvedManually? || state.Cancelled? || state.Queued?
  }

  predicate SafeRow(c: Command, id: CommandId, accepted: nat, phase: Phase) {
    !c.request.policy.DeviceDeduplicatedReplay? ==>
      && Effects(c.state, accepted, Retries(c.events))
      && (!phase.Idle? && phase.claim.request.commandId == id ==>
            Known(phase, c.state, accepted, Retries(c.events)) && InHand(c.state))
  }

  predicate Safe(w: World, id: CommandId) {
    if id in w.tables.commands
    then SafeRow(w.tables.commands[id], id, w.Accepted(id), w.phase)
    else w.Accepted(id) == 0
  }

  ghost predicate WorldInv(w: World) {
    && Inv(w.tables)
    && (!w.phase.Idle? ==> Issued(w.tables, w.phase.claim))
    && forall id: CommandId :: Safe(w, id)
  }

  // ---------- Rows under each kind of transaction ----------

  lemma RetriesAppend(events: seq<CommandEvent>, e: CommandEvent)
    ensures Retries(events + [e]) == Retries(events) + if IsOperatorRetry(e) then 1 else 0
  {
    assert (events + [e])[..|events|] == events;
  }

  /** A row out of automatic hands, without an operator having sent it back. */
  predicate Parked(c: Command, d: Command) {
    && d.request == c.request && Retries(d.events) == Retries(c.events)
    && (d.state.ManualReview? || d.state.ResolvedManually? || d.state.Cancelled?)
  }

  predicate SentBack(c: Command, d: Command) {
    d.request == c.request && c.state.ManualReview? && d.state.Queued? && Retries(d.events) == Retries(c.events) + 1
  }

  lemma ParkedRow(c: Command, to: CommandState, nextAt: Option<int>, note: Option<string>)
    ensures !to.Queued? ==> Retries(Unleased(c, to, nextAt, note).events) == Retries(c.events)
    ensures c.state.ManualReview? && to.Queued? ==> SentBack(c, Unleased(c, to, nextAt, note))
  {
    RetriesAppend(c.events, CommandEvent(Some(c.state), to));
  }

  lemma QuarantinedRetries(c: Command, now: int)
    ensures Quarantined(c, now) == c || Parked(c, Quarantined(c, now))
  {
    RetriesAppend(c.events, CommandEvent(Some(c.state), ManualReview));
    RetriesAppend(c.events, CommandEvent(Some(Executing), ManualReview));
  }

  lemma OperatorRow(t: Tables, op: Op, id: CommandId)
    requires RowsOk(t) && ByOthers(op)
    ensures var u := Operated(t, op);
      && (id in t.commands ==>
            && id in u.commands
            && (|| u.commands[id] == t.commands[id]
                || Parked(t.commands[id], u.commands[id]) || SentBack(t.commands[id], u.commands[id])))
      && (id !in t.commands && id in u.commands ==>
            && Retries(u.commands[id].events) == 0
            && (u.commands[id].state.Queued? || u.commands[id].state.ManualReview?))
  {
    hide RowsOk, Retries, Parked, SentBack;
    match op
    case Submit(request, at) => SubmittedRow(t, request, at, id);
    case ChangeMode(d, mode, reason, at) =>
      if id in t.commands {
        QuarantinedRetries(t.commands[id], at);
      }
    case Resolve(command, reason) => OperatorRowMoved(t, id, ResolvedManually, Some(Text.Trim(reason)));
    case Cancel(command, reason) => OperatorRowMoved(t, id, Cancelled, None);
    case Retry(command, reason, at) =>
      if id in t.commands {
        ParkedRow(t.commands[id], Queued, Some(at), None);
      }
    case _ =>
  }

  lemma OperatorRowMoved(t: Tables, id: CommandId, to: CommandState, note: Option<string>)
    requires to.ResolvedManually? || to.Cancelled?
    ensures id in t.commands ==> Parked(t.commands[id], Unleased(t.commands[id], to, None, note))
  {
    if id in t.commands {
      ParkedRow(t.commands[id], to, None, note);
    }
  }

  lemma SubmittedRow(t: Tables, request: CommandRequest, at: int, id: CommandId)
    requires RowsOk(t)
    ensures var u := AfterSubmit(t, request, at);
      && (id in t.commands ==> id in u.commands && u.commands[id] == t.commands[id])
      && (id !in t.commands && id in u.commands ==>
            && Retries(u.commands[id].events) == 0
            && (u.commands[id].state.Queued? || u.commands[id].state.ManualReview?))
  {
    SubmittedShape(t, request, at);
    hide RowsOk, AfterSubmit;
    RetriesAppend([], CommandEvent(None, Queued));
    RetriesAppend([], CommandEvent(None, ManualReview));
    assert [] + [CommandEvent(None, Queued)] == [CommandEvent(None, Queued)];
    assert [] + [CommandEvent(None, ManualReview)] == [CommandEvent(None, ManualReview)];
  }

  lemma RecoveredRow(t: Tables, now: int, id: CommandId)
    requires id in t.commands && !t.commands[id].request.policy.DeviceDeduplicatedReplay?
    ensures var u := Recovered(t, now, ExpiredIds(t, now));
      && id in u.commands
      && var c, d := t.commands[id], u.commands[id];
      && (d == c || Parked(c, d)
          || (d.request == c.request && d.state.RecoveryWait? && Retries(d.events) == Retries(c.events)))
  {
    hide TakenDown, Retries;
    QuarantinedRetries(t.commands[id], now);
    RetriesAppend(t.commands[id].events, CommandEvent(Some(Executing), ManualReview));
    RetriesAppend(t.commands[id].events, CommandEvent(Some(Executing), RecoveryWait));
  }

  lemma SettledOtherRow(t: Tables, claim: ClaimedCommand, disposition: Disposition, limits: RetryLimits, at: int,
      id: CommandId)
    requires id in t.commands && id != claim.request.commandId
    ensures var u := After(t, FinishTx(t, claim, disposition, limits, at));
      id in u.commands && (u.commands[id] == t.commands[id] || Parked(t.commands[id], u.commands[id]))
  {
    hide Retries, CompletionFor, Parked;
    QuarantinedRetries(t.commands[id], at);
  }

  /** The row the claim belongs to: settled as decided while the lease is held, untouched otherwise. */
  lemma SettledOwnRow(t: Tables, claim: ClaimedCommand, disposition: Disposition, limits: RetryLimits, at: int)
    requires claim.request.commandId in t.commands
    ensures var c := t.commands[claim.request.commandId];
      var u := After(t, FinishTx(t, claim, disposition, limits, at));
      && claim.request.commandId in u.commands
      && var d := u.commands[claim.request.commandId];
      && (|| d == c
          || (&& CompletionFor(claim, disposition, limits, at).Ok? && d.request == c.request
              && Retries(d.events) == Retries(c.events)
              && d.state == CompletionFor(claim, disposition, limits, at).value.target))
  {
    hide Retries;
    if FinishTx(t, claim, disposition, limits, at).Ok? {
      CompletionsEnd(claim, disposition, limits, at);
      RetriesAppend(t.commands[claim.request.commandId].events,
        CommandEvent(Some(Executing), CompletionFor(claim, disposition, limits, at).value.target));
      hide CompletionFor;
    }
  }

  lemma SettledTarget(claim: ClaimedCommand, disposition: Disposition, limits: RetryLimits, at: int,
      state: CommandState, n: nat, retries: nat)
    requires CompletionFor(claim, disposition, limits, at).Ok? && !claim.request.policy.DeviceDeduplicatedReplay?
    requires n <= retries + 1 && Known(Decided(claim, Ok(disposition)), state, n, retries)
    ensures Effects(CompletionFor(claim, disposition, limits, at).value.target, n, retries)
  {
  }

  // ---------- Every move keeps the invariant ----------

  lemma OperateKeeps(w: World, v: World, op: Op, id: CommandId)
    requires RowsOk(w.tables) && Safe(w, id) && Moves(w, Operate(op), v)
    requires !w.phase.Idle? ==> w.phase.claim.request.commandId in w.tables.commands
    ensures Safe(v, id)
  {
    hide RowsOk, Operated, Retries, Parked, SentBack, SafeRow;
    OperatorRow(w.tables, op, id);
    if id in w.tables.commands {
      MovedRowSafe(w.tables.commands[id], v.tables.commands[id], id, w.Accepted(id), w.phase);
    } else if id in v.tables.commands {
      NewRowSafe(v.tables.commands[id], id, v.phase);
    }
  }

  lemma MovedRowSafe(c: Command, d: Command, id: CommandId, accepted: nat, phase: Phase)
    requires SafeRow(c, id, accepted, phase) && (d == c || Parked(c, d) || SentBack(c, d))
    ensures SafeRow(d, id, accepted, phase)
  {
    hide Retries;
  }

  lemma NewRowSafe(c: Command, id: CommandId, phase: Phase)
    requires Retries(c.events) == 0 && (c.state.Queued? || c.state.ManualReview?)
    requires phase.Idle? || phase.claim.request.commandId != id
    ensures SafeRow(c, id, 0, phase)
  {
    hide Retries;
  }

  lemma RecoverKeeps(w: World, v: World, at: int, id: CommandId)
    requires Safe(w, id) && Moves(w, Recover(at), v)
    ensures Safe(v, id)
  {
    hide Retries;
    if id in w.tables.commands && !w.tables.commands[id].request.policy.DeviceDeduplicatedReplay? {
      RecoveredRow(w.tables, at, id);
      hide Recovered;
    } else {
      hide TakenDown;
    }
  }

  lemma TakeKeeps(w: World, v: World, move: Move, id: CommandId)
    requires Safe(w, id) && move.Take? && Moves(w, move, v)
    ensures Safe(v, id)
  {
    hide Retries;
    if id in w.tables.commands {
      RetriesAppend(w.tables.commands[id].events, CommandEvent(Some(w.tables.commands[id].state), Executing));
    }
  }

  /** Consulting the adapter: what the runner decides agrees with what the device accepted. */
  lemma ConsultKnows(
      config: EngineConfig, claim: ClaimedCommand, session: Session, now: int, latest: int, state: CommandState,
      before: nat, after: nat, retries: nat)
    requires before <= retries + 1 && InHand(state) && Known(Holding(claim), state, before, retries)
    requires state.Queued? ==> before <= retries
    requires Contract(claim, session, Decide(config, claim, session, now, latest).contacted, before, after)
    ensures after <= retries + 1 && (state.Queued? ==> after <= retries)
    ensures Known(Decided(claim, Decide(config, claim, session, now, latest).disposition), state, after, retries)
  {
  }

  lemma ConsultKeeps(w: World, v: World, move: Move, id: CommandId)
    requires Safe(w, id) && move.Consult? && Moves(w, move, v) && Honours(w, move, v) && Issued(w.tables, w.phase.claim)
    ensures Safe(v, id)
  {
    hide Decide, Contract, Retries;
    var claim := w.phase.claim;
    if id == claim.request.commandId {
      var c := w.tables.commands[id];
      if !c.request.policy.DeviceDeduplicatedReplay? {
        ConsultKnows(move.config, claim, move.session, move.now, move.latest, c.state,
          w.Accepted(id), v.Accepted(id), Retries(c.events));
      }
    }
  }

  lemma SettleKeeps(w: World, v: World, move: Move, id: CommandId)
    requires Safe(w, id) && move.Settle? && Moves(w, move, v) && Issued(w.tables, w.phase.claim)
    ensures Safe(v, id)
  {
    var claim := w.phase.claim;
    hide FinishTx, CompletionFor, Retries;
    if w.phase.disposition.Ok? {
      var disposition := w.phase.disposition.value;
      SettledKeys(w.tables, claim, disposition, move.limits, move.at);
      if id == claim.request.commandId {
        SettledOwnRow(w.tables, claim, disposition, move.limits, move.at);
        SettledOwnSafe(w, v, move);
      } else if id in w.tables.commands {
        SettledOtherRow(w.tables, claim, disposition, move.limits, move.at, id);
      }
    }
  }

  lemma SettledOwnSafe(w: World, v: World, move: Move)
    requires move.Settle? && Moves(w, move, v) && Issued(w.tables, w.phase.claim) && w.phase.disposition.Ok?
    requires Safe(w, w.phase.claim.request.commandId)
    ensures Safe(v, w.phase.claim.request.commandId)
  {
    hide FinishTx, CompletionFor, Retries, Effects;
    var claim := w.phase.claim;
    var c := w.tables.commands[claim.request.commandId];
    var disposition := w.phase.disposition.value;
    SettledOwnRow(w.tables, claim, disposition, move.limits, move.at);
    if !claim.request.policy.DeviceDeduplicatedReplay? && CompletionFor(claim, disposition, move.limits, move.at).Ok? {
      WithinOne(c.state, w.Accepted(claim.request.commandId), Retries(c.events));
      SettledTarget(claim, disposition, move.limits, move.at, c.state, w.Accepted(claim.request.commandId),
        Retries(c.events));
    }
  }

  lemma WithinOne(state: CommandState, accepted: nat, retries: nat)
    requires Effects(state, accepted, retries)
    ensures accepted <= retries + 1
  {
  }

  lemma SettledKeys(t: Tables, claim: ClaimedCommand, disposition: Disposition, limits: RetryLimits, at: int)
    ensures After(t, FinishTx(t, claim, disposition, limits, at)).commands.Keys == t.commands.Keys
  {
    hide CompletionFor;
  }

  lemma TablesKeep(w: World, v: World, move: Move)
    requires Inv(w.tables) && (!w.phase.Idle? ==> Issued(w.tables, w.phase.claim)) && Moves(w, move, v)
    ensures Inv(v.tables) && Evolves(w.tables, v.tables)
    ensures !v.phase.Idle? ==> Issued(v.tables, v.phase.claim)
  {
    hide Inv, Evolves, Issued;
    Unchanged(w.tables);
    match move {
      case Operate(op) =>
        assert Step(w.tables, op, v.tables);
        StepKeeps(w.tables, op, v.tables);
      case Recover(at) => RecoveredKeeps(w.tables, at, ExpiredIds(w.tables, at));
      case Take(at, until, maxAttempts, claim) => ClaimStepKeeps(w.tables, v.tables, claim, at, until, maxAttempts);
      case Settle(limits, at) =>
        if w.phase.disposition.Ok? {
          FinishKeeps(w.tables, w.phase.claim, w.phase.disposition.value, limits, at);
        }
      case Consult(_, _, _, _) =>
      case Crash =>
    }
    if !v.phase.Idle? && v.phase == w.phase {
      IssuedLasts(w.tables, v.tables, w.phase.claim);
    }
  }

  lemma MoveKeeps(w: World, v: World, move: Move)
    requires WorldInv(w) && Moves(w, move, v) && Honours(w, move, v)
    ensures WorldInv(v)
  {
    TablesKeep(w, v, move);
    forall id: CommandId ensures Safe(v, id) {
      assert Safe(w, id);
      hide Evolves, Safe, Moves, Honours, RowsOk, OneExecutingPerDevice, IdentitiesUnique, DevicesOk;
      match move
      case Operate(op) => OperateKeeps(w, v, op, id);
      case Recover(at) => RecoverKeeps(w, v, at, id);
      case Take(_, _, _, _) => TakeKeeps(w, v, move, id);
      case Consult(_, _, _, _) => ConsultKeeps(w, v, move, id);
      case Settle(_, _) => SettleKeeps(w, v, move, id);
      case Crash => CrashKeeps(w, v, id);
    }
  }

  lemma CrashKeeps(w: World, v: World, id: CommandId)
    requires Safe(w, id) && Moves(w, Crash, v)
    ensures Safe(v, id)
  {
  }

  // ---------- Histories ----------

  /** A history from an empty database; nothing is presumed yet of what the adapters answer. */
  datatype History = Boot | Moved(past: History, move: Move, world: World) {
    function Now(): World {
      if Boot? then World(EMPTY, Idle, map[]) else world
    }

    predicate Lawful() {
      Moved? ==> past.Lawful() && Moves(past.Now(), move, world)
    }

    /** Every adapter answer so far agreed with what the controller accepted. */
    predicate Honest() {
      Moved? ==> past.Honest() && Honours(past.Now(), move, world)
    }

    predicate Extends(earlier: History) {
      this == earlier || (Moved? && past.Extends(earlier))
    }
  }

  lemma {:induction false} HistoryKeeps(h: History)
    requires h.Lawful() && h.Honest()
    ensures WorldInv(h.Now())
  {
    if h.Moved? {
      HistoryKeeps(h.past);
      hide WorldInv, Moves, Honours;
      MoveKeeps(h.past.Now(), h.world, h.move);
    } else {
      assert forall id: CommandId :: Safe(h.Now(), id);
    }
  }

  /**
   Through crashes, expired leases, restarts and operators, a command whose device does not deduplicate is
   accepted at most once more often than operators sent it back to the queue: no more often than that while
   it waits or once it failed, and at least once if it succeeded.
   */
  lemma {:induction false} EffectsWithinOperatorRetries(h: History, id: CommandId)
    requires h.Lawful() && h.Honest() && id in h.Now().tables.commands
    requires !h.Now().tables.commands[id].request.policy.DeviceDeduplicatedReplay?
    ensures var c, n := h.Now().tables.commands[id], h.Now().Accepted(id);
      && n <= 1 + Retries(c.events)
      && (c.state.Failed? || c.state.Queued? || c.state.RetryWait? ==> n <= Retries(c.events))
      && (c.state.Succeeded? ==> 1 <= n)
  {
    HistoryKeeps(h);
    assert Safe(h.Now(), id);
    assert RowOk(h.Now().tables, id);
  }

  predicate Unretried(events: seq<CommandEvent>) {
    forall k :: 0 <= k < |events| ==> !IsOperatorRetry(events[k])
  }

  lemma {:induction false} UnretriedCountsZero(events: seq<CommandEvent>)
    ensures Unretried(events) <==> Retries(events) == 0
  {
    if events != [] {
      var rest := events[..|events| - 1];
      UnretriedCountsZero(rest);
      if Retries(events) == 0 {
        forall k | 0 <= k < |events| ensures !IsOperatorRetry(events[k]) {
          assert k < |rest| ==> rest[k] == events[k];
        }
      }
      if Unretried(events) {
        forall k | 0 <= k < |rest| ensures !IsOperatorRetry(rest[k]) {
          assert rest[k] == events[k];
        }
      }
    }
  }

  /** A command no operator sent back is accepted at most once; never if it failed, exactly once if it succeeded. */
  lemma {:induction false} AtMostOnePhysicalEffect(h: History, id: CommandId)
    requires h.Lawful() && h.Honest() && id in h.Now().tables.commands
    requires !h.Now().tables.commands[id].request.policy.DeviceDeduplicatedReplay?
    requires Unretried(h.Now().tables.commands[id].events)
    ensures var c, n := h.Now().tables.commands[id], h.Now().Accepted(id);
      && n <= 1
      && (c.state.Failed? || c.state.Queued? || c.state.RetryWait? ==> n == 0)
      && (c.state.Succeeded? ==> n == 1)
  {
    EffectsWithinOperatorRetries(h, id);
    UnretriedCountsZero(h.Now().tables.commands[id].events);
  }

  // ---------- Histories as runs of transactions ----------

  /** The transactions of a history, without what happened at the device. */
  function Transactions(h: History): Run {
    match h
    case Boot => Start
    case Moved(past, move, world) =>
      match move
      case Operate(op) => Then(Transactions(past), op, world.tables)
      case Recover(at) => Then(Transactions(past), RecoverLeases(at), world.tables)
      case Take(at, until, maxAttempts, claim) =>
        Then(Transactions(past), Claim(at, until, maxAttempts, claim), world.tables)
      case Settle(limits, at) =>
        var phase := past.Now().phase;
        if phase.Decided? && phase.disposition.Ok?
        then Then(Transactions(past), Finish(phase.claim, phase.disposition.value, limits, at), world.tables)
        else Transactions(past)
      case _ => Transactions(past)
  }

  /** Every history is a run, so what holds of all runs holds of what the runner does among crashes and operators. */
  lemma {:induction false} HistoryIsARun(h: History)
    requires h.Lawful()
    ensures Transactions(h).Valid() && Transactions(h).Last() == h.Now().tables
    ensures !h.Now().phase.Idle? ==> h.Now().phase.claim in Transactions(h).HandedOut()
  {
    if h.Moved? {
      HistoryIsARun(h.past);
      hide FinishTx, Recovered, ClaimStep, Operated, Decide;
    }
  }

  // ---------- Claims taken and ended ----------

  /** A claim whose end was committed, and how it ended. */
  datatype Ending = Ending(claim: ClaimedCommand, disposition: Disposition)

  function Taken(h: History): seq<ClaimedCommand> {
    if h.Boot? then [] else Taken(h.past) + if h.move.Take? then [h.move.claim] else []
  }

  /** What one move commits as the end of a claim. */
  function EndedBy(w: World, move: Move): seq<Ending> {
    if move.Settle? && w.phase.Decided? && w.phase.disposition.Ok?
      && FinishTx(w.tables, w.phase.claim, w.phase.disposition.value, move.limits, move.at).Ok?
    then [Ending(w.phase.claim, w.phase.disposition.value)]
    else []
  }

  function Committed(h: History): seq<Ending> {
    if h.Boot? then [] else Committed(h.past) + EndedBy(h.past.Now(), h.move)
  }

  function Times(endings: seq<Ending>, claim: ClaimedCommand): nat {
    if endings == [] then 0
    else Times(endings[..|endings| - 1], claim) + if endings[|endings| - 1].claim == claim then 1 else 0
  }

  lemma TimesAppend(endings: seq<Ending>, e: Ending, claim: ClaimedCommand)
    ensures Times(endings + [e], claim) == Times(endings, claim) + if e.claim == claim then 1 else 0
  {
    assert (endings + [e])[..|endings|] == endings;
  }

  lemma {:induction false} TimesCounts(endings: seq<Ending>, e: Ending)
    requires e in endings
    ensures Times(endings, e.claim) >= 1
  {
    var last := endings[|endings| - 1];
    if last != e {
      assert endings == endings[..|endings| - 1] + [last];
      TimesCounts(endings[..|endings| - 1], e);
    }
  }

  lemma AtMostOneEnded(w: World, move: Move)
    ensures EndedBy(w, move) != [] ==> EndedBy(w, move) == [EndedBy(w, move)[0]]
  {
    hide FinishTx;
  }

  lemma MoveFinishes(h: History, claim: ClaimedCommand)
    requires h.Moved? && Transactions(h.past).Last() == h.past.Now().tables
    requires h.move.Operate? ==> ByOthers(h.move.op)
    ensures var ended := EndedBy(h.past.Now(), h.move);
      Finishes(Transactions(h), claim) ==
        Finishes(Transactions(h.past), claim) + if ended != [] && ended[0].claim == claim then 1 else 0
  {
    hide FinishTx;
  }

  lemma CommittedStep(h: History, claim: ClaimedCommand)
    requires h.Moved? && Transactions(h.past).Last() == h.past.Now().tables
    requires h.move.Operate? ==> ByOthers(h.move.op)
    requires Times(Committed(h.past), claim) == Finishes(Transactions(h.past), claim)
    ensures Times(Committed(h), claim) == Finishes(Transactions(h), claim)
  {
    hide EndedBy, Finishes, Transactions, Times;
    MoveFinishes(h, claim);
    var ended := EndedBy(h.past.Now(), h.move);
    if ended != [] {
      AtMostOneEnded(h.past.Now(), h.move);
      TimesAppend(Committed(h.past), ended[0], claim);
      assert Committed(h) == Committed(h.past) + [ended[0]];
    } else {
      assert Committed(h) == Committed(h.past);
    }
  }

  lemma {:induction false} CommittedAreFinishes(h: History, claim: ClaimedCommand)
    requires h.Lawful()
    ensures Times(Committed(h), claim) == Finishes(Transactions(h), claim)
  {
    if h.Moved? {
      CommittedAreFinishes(h.past, claim);
      HistoryIsARun(h.past);
      hide Committed, Finishes, Transactions, Times, Recovered, ClaimStep, FinishTx, Decide, Operated;
      CommittedStep(h, claim);
    }
  }

  /** A claim that was ended was ended once, however operators, crashes and later passes go on. */
  lemma {:induction false} EndedExactlyOnce(h: History, e: Ending)
    requires h.Lawful() && e in Committed(h)
    ensures Times(Committed(h), e.claim) == 1
  {
    TimesCounts(Committed(h), e);
    CommittedAreFinishes(h, e.claim);
    HistoryIsARun(h);
    FinishedOnce(Transactions(h), e.claim);
  }
}
