/** Where the lease guarantee ends: a run that uses up the attempt ids and then trusts a late answer. */
module LeaseLimits {
  import opened Common
  import opened LeaseMonitor
  import opened LeaseServer

  const POLICY := Policy(60, 5, 15)

  /** A claim observed at time 0 whose server lease ends at 1000. */
  function Fresh(): Monitor {
    Monitor(42, 1000, 1000, POLICY, Scheduled(0), None, 1, 0, None, false)
  }

  lemma FreshIsAnchored()
    ensures Anchored(42, Some(1000), 0, 0, POLICY) == Ok(Fresh())
  {
  }

  /** Inside the guard window, n heartbeats have failed at once and no answer is on its way. */
  predicate Failing(s: System, n: nat) {
    && s.monitor.state == RetryScheduled(940, Min(n, U32_MAX)) && s.monitor.failures == Min(n, U32_MAX)
    && s.monitor.nextAttemptId == n + 1
    && s.monitor.deadline == 1000 && s.monitor.taskId == 42 && s.monitor.policy == POLICY
    && s.monitor.cycleStartedAt == Some(950) && !s.monitor.verified
    && s.now == 950 && s.cycle == 1 && s.replies == {} && s.grants == map[] && s.expiry == 1000 && s.skew == 0
  }

  lemma Continue(run: Run, move: Move, s: System) returns (longer: Run)
    requires run.Valid() && Moves(run.system, move, s)
    ensures longer.Valid() && longer.system == s && longer.Origin() == run.Origin()
  {
    longer := Then(run, move, s);
  }

  lemma FirstFailure() returns (run: Run)
    ensures run.Valid() && Failing(run.system, 1) && run.Origin().monitor == Fresh()
  {
    var s0 := System(Fresh(), 0, 0, {}, {}, map[], 1000, 0);
    var s1 := s0.(now := 950);
    var s2 := s1.(monitor := Begun(s1.monitor, 950), cycle := 1, requests := {Request(1, 1, 950)});
    var s3 := s2.(monitor := Next(s2.monitor, Failure(1, Retryable, 950)));
    assert s1.requests + {Request(1, 1, 950)} == s2.requests;
    run := Then(Then(Then(Start(s0), Tick(950), s1), Send, s2), Fail(1, Retryable), s3);
  }

  lemma NextFailure(run: Run, n: nat) returns (longer: Run)
    requires run.Valid() && Failing(run.system, n) && 1 <= n && n + 2 <= U64_MAX
    ensures longer.Valid() && Failing(longer.system, n + 1) && longer.Origin() == run.Origin()
  {
    var s := run.system;
    var sent := s.(monitor := Begun(s.monitor, 950), requests := s.requests + {Request(n + 1, 1, 950)});
    var failed := sent.(monitor := Next(sent.monitor, Failure(n + 1, Retryable, 950)));
    longer := Then(Then(run, Send, sent), Fail(n + 1, Retryable), failed);
  }

  lemma {:induction false} ManyFailures(n: nat) returns (run: Run)
    requires 1 <= n && n + 1 <= U64_MAX
    ensures run.Valid() && Failing(run.system, n) && run.Origin().monitor == Fresh()
    decreases n
  {
    if n == 1 {
      run := FirstFailure();
    } else {
      run := ManyFailures(n - 1);
      run := NextFailure(run, n - 1);
    }
  }

  /** One more attempt, with the last id, times out and is sent again; the server grants the retry at 967 for 600. */
  lemma LastIdGranted() returns (run: Run)
    ensures run.Valid() && run.Origin().monitor == Fresh() && Granted(run.system)
  {
    var r := ManyFailures(U64_MAX - 1);
    var s0 := r.system;
    var s1 := s0.(now := 951);
    var s2 := s1.(monitor := Begun(s1.monitor, 951), requests := s1.requests + {Request(U64_MAX, 1, 951)});
    var s3 := s2.(now := 966);
    var s4 := s3.(monitor := Next(s3.monitor, Timeout(966)));
    var s5 := s4.(monitor := Begun(s4.monitor, 966), requests := s4.requests + {Request(U64_MAX, 1, 966)});
    var s6 := s5.(now := 967);
    var s7 := s6.(replies := {Reply(U64_MAX, 1)}, grants := map[1 := Grant(967, 600)], expiry := 1567);
    assert s6.replies + {Reply(U64_MAX, 1)} == s7.replies;
    assert s6.grants[1 := Grant(967, 600)] == s7.grants;
    run := Continue(r, Tick(951), s1);
    run := Continue(run, Send, s2);
    run := Continue(run, Tick(966), s3);
    run := Continue(run, Expire, s4);
    run := Continue(run, Send, s5);
    run := Continue(run, Tick(967), s6);
    run := Continue(run, Process(Request(U64_MAX, 1, 966), 600), s7);
  }

  predicate Granted(s: System) {
    && s.monitor.state == InFlight(U64_MAX, 966) && s.monitor.cycleStartedAt == Some(950)
    && s.monitor.nextAttemptId == U64_MAX && s.monitor.taskId == 42 && s.monitor.policy == POLICY
    && s.now == 967 && s.skew == 0 && s.expiry == 1567
    && s.replies == {Reply(U64_MAX, 1)} && s.grants == map[1 := Grant(967, 600)]
  }

  /**
   With the ids used up, the answer of one cycle is taken again for the next: a run of the code, from a fresh
   claim, in which actions are allowed at 1600 although the server's lease ended at 1567.
   */
  lemma SaturatedIdsMakeTheLeaseOptimistic() returns (run: Run)
    ensures run.Valid() && Anchored(42, Some(1000), 0, 0, POLICY) == Ok(run.Origin().monitor)
    ensures run.system.monitor.nextAttemptId == U64_MAX
    ensures run.system.monitor.verified && run.system.monitor.deadline == 1850 && run.system.expiry == 1567
    ensures run.system.now == 1600 && ActionsAllowed(run.system.monitor, 1600)
  {
    FreshIsAnchored();
    var r := LastIdGranted();
    var s0 := r.system;
    var reply := Reply(U64_MAX, 1);
    var s1 := s0.(now := 968);
    var s2 := s1.(monitor := Next(s1.monitor, Success(U64_MAX, Answer(s1, reply), 968)));
    assert s2.monitor.state == Scheduled(1250) && s2.monitor.deadline == 1550;
    var s3 := s2.(now := 1250);
    var s4 := s3.(monitor := Begun(s3.monitor, 1250), cycle := s3.cycle + 1,
                  requests := s3.requests + {Request(U64_MAX, s3.cycle + 1, 1250)});
    var s5 := s4.(monitor := Next(s4.monitor, Success(U64_MAX, Answer(s4, reply), 1250)));
    assert s5.monitor.deadline == 1850;
    var s6 := s5.(now := 1600);
    run := Continue(r, Tick(968), s1);
    run := Continue(run, Deliver(reply), s2);
    run := Continue(run, Tick(1250), s3);
    run := Continue(run, Send, s4);
    run := Continue(run, Deliver(reply), s5);
    run := Continue(run, Tick(1600), s6);
  }
}
