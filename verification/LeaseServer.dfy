/** The lease monitor against the server that grants, replays and refuses heartbeats over an unreliable network. */
module LeaseServer {
  import opened Common
  import opened LeaseMonitor

  /** One heartbeat request; all requests of a cycle carry the same idempotency key. */
  datatype Request = Request(attempt: nat, cycle: nat, sentAt: Instant)

  datatype Reply = Reply(attempt: nat, cycle: nat)

  datatype Grant = Grant(processedAt: Instant, lease: nat)

  /**
   `now` and the server's times are on the device's monotonic clock; what the server writes into an
   answer is on its own clock, `skew` away. Requests and answers stay in the network for good: they
   may be lost, late, repeated or reordered.
   */
  datatype System = System(
    monitor: Monitor,
    now: Instant,
    cycle: nat,
    requests: set<Request>,
    replies: set<Reply>,
    grants: map<nat, Grant>,
    expiry: int,
    skew: int)

  datatype Move =
    | Tick(to: Instant)
    | Send
    | Process(request: Request, lease: nat)
    | Deliver(reply: Reply)
    | Fail(attempt: nat, kind: FailureKind)
    | Expire
    | Extend(until: int)

  function Answer(s: System, reply: Reply): HeartbeatLease
    requires reply.cycle in s.grants
  {
    var grant := s.grants[reply.cycle];
    HeartbeatLease(s.monitor.taskId, Some(grant.processedAt + s.skew), Some(grant.processedAt + grant.lease + s.skew))
  }

  /**
   A request of a new cycle is granted while the server's lease lives and never shortens it; a repeated one is answered
   from the record.
   */
  predicate Moves(s: System, move: Move, v: System) {
    match move
    case Tick(to) => s.now <= to && v == s.(now := to)
    case Send =>
      && HeartbeatDue(s.monitor, s.now)
      && var cycle := s.cycle + (if s.monitor.state.Scheduled? then 1 else 0);
      && var m := Begun(s.monitor, s.now);
      && v == s.(monitor := m, cycle := cycle, requests := s.requests + {Request(m.state.attempt, cycle, s.now)})
    case Process(request, lease) =>
      && request in s.requests
      && var reply := Reply(request.attempt, request.cycle);
      && (if request.cycle in s.grants then v == s.(replies := s.replies + {reply})
          else
            && s.now < s.expiry <= s.now + lease && lease > 0
            && v == s.(replies := s.replies + {reply},
                       grants := s.grants[request.cycle := Grant(s.now, lease)], expiry := s.now + lease))
    case Deliver(reply) =>
      && reply in s.replies && reply.cycle in s.grants
      && v == s.(monitor := Next(s.monitor, Success(reply.attempt, Answer(s, reply), s.now)))
    case Fail(attempt, kind) => v == s.(monitor := Next(s.monitor, Failure(attempt, kind, s.now)))
    case Expire => v == s.(monitor := Next(s.monitor, Timeout(s.now)))
    case Extend(until) => s.expiry <= until && v == s.(expiry := until)
  }

  // ---------- The invariant ----------

  predicate CycleOk(s: System) {
    s.monitor.cycleStartedAt.Some? ==>
      var start := s.monitor.cycleStartedAt.value;
      && start <= s.now
      && (s.cycle in s.grants ==> start <= s.grants[s.cycle].processedAt)
      && (s.monitor.state.InFlight? ==> start <= s.monitor.state.startedAt)
  }

  /** Requests of the current cycle were sent after it began; an attempt in flight belongs to the current cycle. */
  predicate RequestOk(s: System, r: Request) {
    && r.attempt < s.monitor.nextAttemptId
    && r.cycle <= s.cycle
    && r.sentAt <= s.now
    && (s.monitor.cycleStartedAt.Some? && r.cycle == s.cycle ==> s.monitor.cycleStartedAt.value <= r.sentAt)
    && (s.monitor.state.InFlight? && s.monitor.state.attempt == r.attempt ==> r.cycle == s.cycle)
  }

  predicate ReplyOk(s: System, r: Reply) {
    && r.attempt < s.monitor.nextAttemptId
    && r.cycle in s.grants
    && (s.monitor.state.InFlight? && s.monitor.state.attempt == r.attempt ==> r.cycle == s.cycle)
  }

  predicate GrantOk(s: System, k: nat) {
    k in s.grants ==>
      && k <= s.cycle
      && s.grants[k].processedAt + s.grants[k].lease <= s.expiry
      && s.grants[k].lease > 0
  }

  ghost predicate Inv(s: System) {
    && Wf(s.monitor)
    && s.monitor.nextAttemptId < U64_MAX
    && CycleOk(s)
    && (forall r :: r in s.requests ==> RequestOk(s, r))
    && (forall r :: r in s.replies ==> ReplyOk(s, r))
    && (forall k :: k in s.grants ==> GrantOk(s, k))
    && (s.monitor.verified ==> s.monitor.deadline <= s.expiry)
  }

  lemma SendKeeps(s: System, v: System)
    requires Inv(s) && Moves(s, Send, v) && v.monitor.nextAttemptId < U64_MAX
    ensures Inv(v)
  {
    NextKeeps(s.monitor, Begin(s.now));
    forall r | r in v.requests ensures RequestOk(v, r) {
      assert r in s.requests ==> RequestOk(s, r);
    }
    forall r | r in v.replies ensures ReplyOk(v, r) {
      assert ReplyOk(s, r);
    }
    forall k | k in v.grants ensures GrantOk(v, k) {
      assert GrantOk(s, k);
    }
    assert s.cycle + 1 !in s.grants;
  }

  lemma ProcessKeeps(s: System, v: System, request: Request, lease: nat)
    requires Inv(s) && Moves(s, Process(request, lease), v)
    ensures Inv(v)
  {
    assert RequestOk(s, request);
    forall r | r in v.requests ensures RequestOk(v, r) {
      assert RequestOk(s, r);
    }
    forall r | r in v.replies ensures ReplyOk(v, r) {
      assert r in s.replies ==> ReplyOk(s, r);
    }
    forall k | k in v.grants ensures GrantOk(v, k) {
      assert k in s.grants ==> GrantOk(s, k);
    }
  }

  /** An answer that renews the lease belongs to the cycle in flight and was granted after that cycle began. */
  lemma DeliverKeeps(s: System, v: System, reply: Reply)
    requires Inv(s) && Moves(s, Deliver(reply), v)
    ensures Inv(v)
  {
    assert ReplyOk(s, reply);
    assert GrantOk(s, reply.cycle);
    CallbackKeeps(s, v, Success(reply.attempt, Answer(s, reply), s.now));
  }

  /** Callbacks close the attempt in flight or change nothing; only a renewal moves the deadline. */
  lemma CallbackKeeps(s: System, v: System, e: Event)
    requires Inv(s) && !e.Begin? && v == s.(monitor := Next(s.monitor, e))
    requires e.Timeout? ==> e.now == s.now
    requires v.monitor.verified ==> v.monitor.deadline <= v.expiry
    ensures Inv(v)
  {
    NextKeeps(s.monitor, e);
    forall r | r in v.requests ensures RequestOk(v, r) {
      assert RequestOk(s, r);
    }
    forall r | r in v.replies ensures ReplyOk(v, r) {
      assert ReplyOk(s, r);
    }
    forall k | k in v.grants ensures GrantOk(v, k) {
      assert GrantOk(s, k);
    }
  }

  lemma MoveKeeps(s: System, move: Move, v: System)
    requires Inv(s) && Moves(s, move, v) && v.monitor.nextAttemptId < U64_MAX
    ensures Inv(v)
  {
    match move
    case Tick(to) => ClockKeeps(s, v);
    case Send => SendKeeps(s, v);
    case Process(request, lease) => ProcessKeeps(s, v, request, lease);
    case Deliver(reply) => DeliverKeeps(s, v, reply);
    case Fail(attempt, kind) => CallbackKeeps(s, v, Failure(attempt, kind, s.now));
    case Expire => CallbackKeeps(s, v, Timeout(s.now));
    case Extend(until) => ClockKeeps(s, v);
  }

  lemma ClockKeeps(s: System, v: System)
    requires Inv(s) && v == s.(now := v.now, expiry := v.expiry) && s.now <= v.now && s.expiry <= v.expiry
    ensures Inv(v)
  {
    forall r | r in v.requests ensures RequestOk(v, r) {
      assert RequestOk(s, r);
    }
    forall r | r in v.replies ensures ReplyOk(v, r) {
      assert ReplyOk(s, r);
    }
    forall k | k in v.grants ensures GrantOk(v, k) {
      assert GrantOk(s, k);
    }
  }

  lemma IdsOnlyGrow(s: System, move: Move, v: System)
    requires Wf(s.monitor) && Moves(s, move, v)
    ensures Wf(v.monitor) && s.monitor.nextAttemptId <= v.monitor.nextAttemptId
  {
    match move
    case Send => NextKeeps(s.monitor, Begin(s.now));
    case Deliver(reply) => NextKeeps(s.monitor, Success(reply.attempt, Answer(s, reply), s.now));
    case Fail(attempt, kind) => NextKeeps(s.monitor, Failure(attempt, kind, s.now));
    case Expire => NextKeeps(s.monitor, Timeout(s.now));
    case _ =>
  }

  // ---------- Runs ----------

  datatype Run = Start(system: System) | Then(prior: Run, move: Move, system: System) {
    /** A run starts with a monitor fresh from a claim, whatever the server's own view of that lease. */
    predicate Valid() {
      match this
      case Start(s) =>
        && Wf(s.monitor) && s.monitor.state.Scheduled? && !s.monitor.verified
        && s.requests == {} && s.replies == {} && s.grants == map[]
      case Then(prior, move, s) => prior.Valid() && Moves(prior.system, move, s)
    }

    function Origin(): System {
      if Start? then system else prior.Origin()
    }
  }

  lemma {:induction false} RunWf(run: Run)
    requires run.Valid()
    ensures Wf(run.system.monitor)
  {
    if run.Then? {
      RunWf(run.prior);
      IdsOnlyGrow(run.prior.system, run.move, run.system);
    }
  }

  lemma {:induction false} RunKept(run: Run)
    requires run.Valid() && run.system.monitor.nextAttemptId < U64_MAX
    ensures Inv(run.system)
  {
    if run.Then? {
      RunWf(run.prior);
      IdsOnlyGrow(run.prior.system, run.move, run.system);
      RunKept(run.prior);
      MoveKeeps(run.prior.system, run.move, run.system);
    }
  }

  /**
   Until attempt ids run out, the local deadline never passes the server's, so whenever actions are allowed more than
   the guard remains.
   */
  lemma {:induction false} LeaseIsNeverOptimistic(run: Run)
    requires run.Valid() && run.system.monitor.nextAttemptId < U64_MAX
    ensures var s := run.system;
      && (s.monitor.verified ==> s.monitor.deadline <= s.expiry)
      && (ActionsAllowed(s.monitor, s.now) ==> s.now + s.monitor.policy.actionGuard < s.expiry)
  {
    RunKept(run);
  }
}
