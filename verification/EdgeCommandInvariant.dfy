/** What every transaction keeps about one command: its lease, attempts, log and recovery history. */
module EdgeCommandInvariant {
  import opened Common
  import opened EdgeTables

  // ---------- The invariant ----------

  /** Executing iff leased, with token and deadline, iff the newest attempt (and no other) is active. */
  predicate LeaseMatchesAttempt(c: Command) {
    && (c.leaseToken.Some? <==> c.state.Executing?)
    && (c.leaseUntil.Some? <==> c.state.Executing?)
    && (c.state.Executing? ==> c.attempts != [])
    && forall i :: 0 <= i < |c.attempts| ==>
         (c.attempts[i].state.Active? <==> c.state.Executing? && i == |c.attempts| - 1)
  }

  /** attempt_count is the number of execute attempts, and attempts are numbered 1..n. */
  predicate Accounted(c: Command) {
    && c.attemptCount == KindCount(c.attempts, Execute)
    && forall i :: 0 <= i < |c.attempts| ==>
         && c.attempts[i].sequence == i + 1
         && c.attempts[i].executionAttempt == KindCount(c.attempts[..i + 1], Execute)
  }

  /**
   The log starts from nothing, each event leaves the state the previous one entered, none leaves a terminal state.
   */
  predicate Chains(events: seq<CommandEvent>) {
    var n := |events|;
    && n > 0
    && (n == 1 ==> events[0].from.None?)
    && (n > 1 ==>
          && events[n - 1].from == Some(events[n - 2].to) && !events[n - 2].to.IsTerminal()
          && Chains(events[..n - 1]))
  }

  /** Replaying the log gives the stored state, and each attempt is one entry into Executing. */
  predicate LogReplays(c: Command) {
    && Chains(c.events)
    && c.events[|c.events| - 1].to == c.state
    && Starts(c.events) == |c.attempts|
  }

  predicate PayloadMatchesState(c: Command) {
    && (c.result.Some? <==> c.state.Succeeded?)
    && (c.result.Some? ==> c.result.value.ValidFor(c.request.command))
    && (c.resolutionNote.Some? <==> c.state.ResolvedManually?)
  }

  predicate ProbesOnlyByPolicy(c: Command) {
    && (c.state.RecoveryWait? ==> c.request.policy.ProbeThenRetry?)
    && forall i :: 0 <= i < |c.attempts| && c.attempts[i].kind.RecoveryProbe? ==> c.request.policy.ProbeThenRetry?
  }

  /** An execution whose physical outcome is unknown. */
  predicate Blind(a: Attempt) {
    a.kind.Execute? && (a.state.AmbiguousOutcome? || a.state.Abandoned?)
  }

  predicate FoundAbsent(a: Attempt) {
    a.kind.RecoveryProbe? && a.state.NothingFound?
  }

  predicate IsOperatorRetry(e: CommandEvent) {
    e.from == Some(ManualReview) && e.to.Queued?
  }

  /** After attempt i and before attempt j, a probe found nothing or an operator asked for a retry. */
  predicate ClearedBetween(c: Command, i: int, j: int) {
    || (exists m :: 0 <= m < |c.attempts| && i < m < j && FoundAbsent(c.attempts[m]))
    || (exists n :: 0 <= n < |c.events| && IsOperatorRetry(c.events[n]) && i < Starts(c.events[..n]) <= j)
  }

  predicate NoBlindRepeat(c: Command) {
    forall i, j :: 0 <= i < j < |c.attempts| && Blind(c.attempts[i]) && c.attempts[j].kind.Execute? ==>
      ClearedBetween(c, i, j)
  }

  predicate SafeToExecute(c: Command) {
    forall i :: 0 <= i < |c.attempts| && Blind(c.attempts[i]) ==> ClearedBetween(c, i, |c.attempts|)
  }

  /** Unless the device deduplicates, nothing is executed again while an earlier outcome is unknown. */
  predicate Disciplined(c: Command) {
    !c.request.policy.DeviceDeduplicatedReplay? ==>
      && NoBlindRepeat(c)
      && (c.state.Queued? || c.state.RetryWait? ==> SafeToExecute(c))
  }

  predicate CommandInv(c: Command) {
    && LeaseMatchesAttempt(c)
    && Accounted(c)
    && LogReplays(c)
    && PayloadMatchesState(c)
    && ProbesOnlyByPolicy(c)
    && Disciplined(c)
  }

  // ---------- Counting lemmas ----------

  lemma {:induction false} NoneActive(s: seq<Attempt>, id: nat)
    requires forall i :: 0 <= i < |s| ==> !s[i].state.Active?
    ensures ActiveCount(s) == 0 && Matching(s, id) == 0
  {
    if s != [] {
      NoneActive(s[..|s| - 1], id);
    }
  }

  /** Exactly one active attempt when executing, none otherwise. */
  lemma ExactlyOneActive(c: Command)
    requires LeaseMatchesAttempt(c)
    ensures ActiveCount(c.attempts) == if c.state.Executing? then 1 else 0
    ensures c.state.Executing? ==> Matching(c.attempts, c.attempts[|c.attempts| - 1].id) == 1
    ensures forall id: nat :: (Matching(c.attempts, id) == 1 <==>
      c.state.Executing? && c.attempts[|c.attempts| - 1].id == id)
  {
    forall id: nat
      ensures Matching(c.attempts, id) == 1 <==> c.state.Executing? && c.attempts[|c.attempts| - 1].id == id
    {
      if c.state.Executing? {
        NoneActive(c.attempts[..|c.attempts| - 1], id);
      } else {
        NoneActive(c.attempts, id);
      }
    }
    assert ActiveCount(c.attempts) == if c.state.Executing? then 1 else 0 by {
      if c.state.Executing? {
        NoneActive(c.attempts[..|c.attempts| - 1], 0);
      } else {
        NoneActive(c.attempts, 0);
      }
    }
  }

  lemma {:induction false} SequencesAreDense(s: seq<Attempt>)
    requires forall i :: 0 <= i < |s| ==> s[i].sequence == i + 1
    ensures MaxSequence(s) == |s|
  {
    if s != [] {
      SequencesAreDense(s[..|s| - 1]);
    }
  }

  /** What closing the one active attempt does, whichever statement closes it. */
  lemma ClosingShape(c: Command, id: nat, state: AttemptState)
    requires LeaseMatchesAttempt(c) && c.state.Executing?
    ensures CloseActive(c.attempts, state) == WithLast(c.attempts, state)
    ensures c.attempts[|c.attempts| - 1].id == id ==>
      CloseMatching(c.attempts, id, state) == WithLast(c.attempts, state)
  {
  }

  function WithLast(s: seq<Attempt>, state: AttemptState): seq<Attempt>
    requires s != []
  {
    s[|s| - 1 := s[|s| - 1].(state := state)]
  }

  lemma WithLastCounts(s: seq<Attempt>, state: AttemptState, kind: ClaimKind, i: nat)
    requires i < |s|
    ensures KindCount(WithLast(s, state)[..i + 1], kind) == KindCount(s[..i + 1], kind)
  {
    var w := WithLast(s, state);
    if i < |s| - 1 {
      assert w[..i + 1] == s[..i + 1];
    } else {
      assert w[..|s|] == w && s[..|s|] == s;
      assert w[..|s| - 1] == s[..|s| - 1];
    }
  }

  lemma Appended(events: seq<CommandEvent>, e: CommandEvent)
    ensures Starts(events + [e]) == Starts(events) + if e.to.Executing? then 1 else 0
    ensures
      (&& events != [] && Chains(events) && !events[|events| - 1].to.IsTerminal()
       && e.from == Some(events[|events| - 1].to)) ==> Chains(events + [e])
  {
    assert (events + [e])[..|events|] == events;
  }

  /** The chain, read at one position. */
  lemma {:induction false} ChainAt(events: seq<CommandEvent>, i: nat)
    requires Chains(events) && 0 < i < |events|
    ensures events[i].from == Some(events[i - 1].to) && !events[i - 1].to.IsTerminal()
  {
    if i < |events| - 1 {
      ChainAt(events[..|events| - 1], i);
    }
  }

  // ---------- Histories only grow ----------

  /** Finished attempts and logged events never change. */
  predicate HistoryGrows(c: Command, d: Command) {
    && c.request == d.request
    && c.events <= d.events
    && |c.attempts| <= |d.attempts|
    && forall i :: 0 <= i < |c.attempts| ==>
         && d.attempts[i].kind == c.attempts[i].kind
         && (!c.attempts[i].state.Active? ==> d.attempts[i] == c.attempts[i])
  }

  lemma ClearanceLasts(c: Command, d: Command, i: int, j: int, k: int)
    requires HistoryGrows(c, d) && j <= k && ClearedBetween(c, i, j)
    ensures ClearedBetween(d, i, k)
  {
    if m :| 0 <= m < |c.attempts| && i < m < j && FoundAbsent(c.attempts[m]) {
      assert FoundAbsent(d.attempts[m]);
    } else {
      var n :| 0 <= n < |c.events| && IsOperatorRetry(c.events[n]) && i < Starts(c.events[..n]) <= j;
      assert d.events[..n] == c.events[..n];
      assert d.events[n] == c.events[n];
    }
  }

  // ---------- A new command ----------

  lemma SubmittedKeeps(request: CommandRequest, state: CommandState, now: int)
    requires state.Queued? || state.ManualReview?
    ensures CommandInv(Submitted(request, state, now))
  {
    var c := Submitted(request, state, now);
    assert c.events == [] + [CommandEvent(None, state)];
    Appended([], CommandEvent(None, state));
  }

  // ---------- Moving an unleased command ----------

  predicate UnleasedMove(from: CommandState, to: CommandState) {
    && !from.IsTerminal() && !from.Executing?
    && (to.ManualReview? || to.ResolvedManually? || to.Cancelled? || (from.ManualReview? && to.Queued?))
  }

  lemma {:induction false} UnleasedKeeps(c: Command, to: CommandState, nextAt: Option<int>, note: Option<string>)
    requires CommandInv(c) && UnleasedMove(c.state, to)
    requires note.Some? <==> to.ResolvedManually?
    ensures CommandInv(Unleased(c, to, nextAt, note))
    ensures HistoryGrows(c, Unleased(c, to, nextAt, note))
  {
    Appended(c.events, CommandEvent(Some(c.state), to));
    UnleasedDiscipline(c, to, nextAt, note);
  }

  lemma UnleasedDiscipline(c: Command, to: CommandState, nextAt: Option<int>, note: Option<string>)
    requires Disciplined(c) && UnleasedMove(c.state, to) && Starts(c.events) == |c.attempts|
    ensures Disciplined(Unleased(c, to, nextAt, note))
  {
    var d := Unleased(c, to, nextAt, note);
    if !c.request.policy.DeviceDeduplicatedReplay? {
      KeepsNoBlindRepeat(c, d);
      if to.Queued? {
        var n := |c.events|;
        assert d.events[..n] == c.events;
        assert IsOperatorRetry(d.events[n]);
      }
    }
  }

  lemma KeepsNoBlindRepeat(c: Command, d: Command)
    requires HistoryGrows(c, d) && NoBlindRepeat(c)
    requires |d.attempts| == |c.attempts|
    requires forall i :: 0 <= i < |c.attempts| - 1 ==> d.attempts[i] == c.attempts[i]
    ensures NoBlindRepeat(d)
  {
    forall i, j | 0 <= i < j < |d.attempts| && Blind(d.attempts[i]) && d.attempts[j].kind.Execute?
      ensures ClearedBetween(d, i, j)
    {
      assert Blind(c.attempts[i]);
      ClearanceLasts(c, d, i, j, j);
    }
  }

  // ---------- Taking a lease ----------

  lemma {:induction false} LeasedKeeps(c: Command, token: nat, attemptId: nat, until: int)
    requires CommandInv(c)
    requires c.state.Queued? || c.state.RetryWait? || c.state.RecoveryWait?
    ensures CommandInv(Leased(c, token, attemptId, until))
    ensures HistoryGrows(c, Leased(c, token, attemptId, until))
  {
    Appended(c.events, CommandEvent(Some(c.state), Executing));
    LeasedShape(c, token, attemptId, until);
    LeasedAccounting(c, token, attemptId, until);
    LeasedDiscipline(c, token, attemptId, until);
  }

  lemma LeasedShape(c: Command, token: nat, attemptId: nat, until: int)
    requires LeaseMatchesAttempt(c) && ProbesOnlyByPolicy(c) && !c.state.Executing?
    ensures var d := Leased(c, token, attemptId, until);
      LeaseMatchesAttempt(d) && ProbesOnlyByPolicy(d) && HistoryGrows(c, d)
  {
  }

  lemma LeasedAccounting(c: Command, token: nat, attemptId: nat, until: int)
    requires Accounted(c)
    ensures Accounted(Leased(c, token, attemptId, until))
  {
    var d := Leased(c, token, attemptId, until);
    SequencesAreDense(c.attempts);
    assert d.attempts[..|c.attempts|] == c.attempts;
    assert d.attempts[..|d.attempts|] == d.attempts;
    forall i | 0 <= i < |c.attempts|
      ensures d.attempts[i].executionAttempt == KindCount(d.attempts[..i + 1], Execute)
    {
      assert d.attempts[..i + 1] == c.attempts[..i + 1];
    }
  }

  lemma {:induction false} LeasedDiscipline(c: Command, token: nat, attemptId: nat, until: int)
    requires Disciplined(c) && HistoryGrows(c, Leased(c, token, attemptId, until))
    requires c.state.Queued? || c.state.RetryWait? || c.state.RecoveryWait?
    ensures Disciplined(Leased(c, token, attemptId, until))
  {
    var d := Leased(c, token, attemptId, until);
    if !c.request.policy.DeviceDeduplicatedReplay? {
      forall i, j | 0 <= i < j < |d.attempts| && Blind(d.attempts[i]) && d.attempts[j].kind.Execute?
        ensures ClearedBetween(d, i, j)
      {
        assert Blind(c.attempts[i]);
        ClearanceLasts(c, d, i, j, j);
      }
    }
  }

  // ---------- Leaving execution ----------

  /** Where an attempt of this kind may send its command, given how it ended. */
  predicate AllowedExit(c: Command, attemptState: AttemptState, to: CommandState)
    requires c.attempts != []
  {
    var kind := c.attempts[|c.attempts| - 1].kind;
    && !attemptState.Active? && !to.Executing? && !to.ResolvedManually? && !to.Cancelled?
    && (to.RecoveryWait? ==> c.request.policy.ProbeThenRetry?)
    && (!c.request.policy.DeviceDeduplicatedReplay? && (to.Queued? || to.RetryWait?) ==>
          || (kind.Execute? && attemptState.RetryableFailure?)
          || (kind.RecoveryProbe? && attemptState.NothingFound?))
  }

  /** d is c after its lease ended with the attempt closed as `state`. */
  predicate Left(c: Command, d: Command, state: AttemptState)
    requires c.attempts != []
  {
    && d == c.(state := d.state, nextAttemptAt := d.nextAttemptAt, leaseToken := None, leaseUntil := None,
               result := d.result, resolutionNote := d.resolutionNote,
               attempts := WithLast(c.attempts, state),
               events := c.events + [CommandEvent(Some(Executing), d.state)])
  }

  lemma {:induction false} LeftKeeps(c: Command, d: Command, state: AttemptState)
    requires CommandInv(c) && c.state.Executing? && Left(c, d, state) && AllowedExit(c, state, d.state)
    requires PayloadMatchesState(d)
    ensures CommandInv(d) && HistoryGrows(c, d)
  {
    Appended(c.events, CommandEvent(Some(Executing), d.state));
    LeftShape(c, d, state);
    LeftAccounting(c, d, state);
    LeftDiscipline(c, d, state);
  }

  lemma LeftShape(c: Command, d: Command, state: AttemptState)
    requires LeaseMatchesAttempt(c) && ProbesOnlyByPolicy(c)
    requires c.state.Executing? && Left(c, d, state) && AllowedExit(c, state, d.state)
    ensures LeaseMatchesAttempt(d) && ProbesOnlyByPolicy(d) && HistoryGrows(c, d)
  {
  }

  lemma LeftAccounting(c: Command, d: Command, state: AttemptState)
    requires Accounted(c) && c.attempts != [] && Left(c, d, state)
    ensures Accounted(d)
  {
    forall i | 0 <= i < |d.attempts|
      ensures d.attempts[i].executionAttempt == KindCount(d.attempts[..i + 1], Execute)
    {
      WithLastCounts(c.attempts, state, Execute, i);
    }
    WithLastCounts(c.attempts, state, Execute, |c.attempts| - 1);
    assert c.attempts[..|c.attempts|] == c.attempts && d.attempts[..|d.attempts|] == d.attempts;
  }

  lemma {:induction false} LeftDiscipline(c: Command, d: Command, state: AttemptState)
    requires Disciplined(c) && HistoryGrows(c, d)
    requires c.attempts != [] && Left(c, d, state) && AllowedExit(c, state, d.state)
    ensures Disciplined(d)
  {
    if !c.request.policy.DeviceDeduplicatedReplay? {
      KeepsNoBlindRepeat(c, d);
      if d.state.Queued? || d.state.RetryWait? {
        LeftSafely(c, d, state);
      }
    }
  }

  lemma LeftSafely(c: Command, d: Command, state: AttemptState)
    requires NoBlindRepeat(c) && HistoryGrows(c, d)
    requires c.attempts != [] && Left(c, d, state) && AllowedExit(c, state, d.state)
    requires !c.request.policy.DeviceDeduplicatedReplay? && (d.state.Queued? || d.state.RetryWait?)
    ensures SafeToExecute(d)
  {
    var last := |c.attempts| - 1;
    forall i | 0 <= i < |d.attempts| && Blind(d.attempts[i])
      ensures ClearedBetween(d, i, |d.attempts|)
    {
      assert i < last;
      if c.attempts[last].kind.Execute? {
        assert Blind(c.attempts[i]);
        ClearanceLasts(c, d, i, last, |d.attempts|);
      } else {
        assert FoundAbsent(d.attempts[last]);
      }
    }
  }

  lemma {:induction false} RevokedKeeps(c: Command, to: CommandState, now: int)
    requires CommandInv(c) && c.state.Executing?
    requires to == ExpiryTarget(c.request.policy) || to.ManualReview?
    ensures CommandInv(Revoked(c, to, now)) && HistoryGrows(c, Revoked(c, to, now))
  {
    ClosingShape(c, 0, Abandoned);
    LeftKeeps(c, Revoked(c, to, now), Abandoned);
  }

  lemma QuarantinedKeeps(c: Command, now: int)
    requires CommandInv(c)
    ensures CommandInv(Quarantined(c, now)) && HistoryGrows(c, Quarantined(c, now))
    ensures !Quarantined(c, now).state.IsLive()
  {
    if c.state.Executing? {
      RevokedKeeps(c, ManualReview, now);
    } else if c.state.IsLive() {
      UnleasedKeeps(c, ManualReview, None, None);
    }
  }

  /** The claim was issued for this command, and its lease may or may not still be held. */
  predicate IssuedFor(c: Command, claim: ClaimedCommand) {
    && c.request == claim.request
    && (claim.kind.RecoveryProbe? ==> claim.request.policy.ProbeThenRetry?)
    && (c.leaseToken == Some(claim.leaseToken) ==>
          && c.attempts != []
          && c.attempts[|c.attempts| - 1].id == claim.attemptId
          && c.attempts[|c.attempts| - 1].kind == claim.kind)
  }

  lemma {:induction false} FinishedKeeps(c: Command, claim: ClaimedCommand, disposition: Disposition,
      limits: RetryLimits, now: int)
    requires CommandInv(c) && c.leaseToken == Some(claim.leaseToken) && IssuedFor(c, claim)
    requires CompletionFor(claim, disposition, limits, now).Ok?
    ensures var d := Finished(c, claim.attemptId, CompletionFor(claim, disposition, limits, now).value);
      CommandInv(d) && HistoryGrows(c, d) && !d.state.Executing?
  {
    var completion := CompletionFor(claim, disposition, limits, now).value;
    ClosingShape(c, claim.attemptId, completion.attemptState);
    LeftKeeps(c, Finished(c, claim.attemptId, completion), completion.attemptState);
  }
}
