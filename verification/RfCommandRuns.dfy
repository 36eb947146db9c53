/** What every run of the handheld's command store keeps, across crashes and reopenings. */
module RfCommandRuns {
  import opened Common
  import opened RfCommands

  // ---------- The invariant ----------

  /**
   Dispatching iff exactly the newest attempt is in flight; ordinals are 1..n; a response is final and never a retryable
   one.
   */
  predicate RecordOk(r: Record) {
    && Decodes(r)
    && r.attemptCount == |r.attempts|
    && (r.status.Dispatching? ==> r.attempts != [])
    && (forall i :: 0 <= i < |r.attempts| ==>
          && r.attempts[i].ordinal == i + 1
          && (r.attempts[i].status.InDispatch? <==> r.status.Dispatching? && i == |r.attempts| - 1))
    && (r.response.Some? ==> !IsRetryableStatus(r.response.value.status))
  }

  /** All attempts of one of this device's commands went to one server; while it is unresolved, to the current one. */
  predicate OneServer(r: Record, profile: Profile) {
    r.scope.deviceId == profile.deviceId ==>
      && (forall i :: 0 <= i < |r.attempts| ==> r.attempts[i].serverUrl == r.attempts[0].serverUrl)
      && (r.status.Unresolved() && r.attempts != [] ==> r.attempts[0].serverUrl == profile.serverUrl)
  }

  predicate RowsOk(db: Db) {
    forall i :: 0 <= i < |db.records| ==> RecordOk(db.records[i]) && OneServer(db.records[i], db.profile)
  }

  predicate OneUnresolved(db: Db) {
    forall i, j :: (0 <= i < j < |db.records| && db.records[i].status.Unresolved()
      && db.records[j].status.Unresolved()) ==>
      db.records[i].scope.deviceId != db.records[j].scope.deviceId
  }

  predicate Distinct(a: Record, b: Record) {
    && a.draft.commandId != b.draft.commandId
    && !(a.scope.tenantId == b.scope.tenantId && a.operation == b.operation
      && a.draft.idempotencyKey == b.draft.idempotencyKey)
  }

  predicate IdentitiesUnique(db: Db) {
    forall i, j :: 0 <= i < j < |db.records| ==> Distinct(db.records[i], db.records[j])
  }

  predicate Inv(db: Db) {
    RowsOk(db) && OneUnresolved(db) && IdentitiesUnique(db)
  }

  // ---------- What is never rewritten ----------

  predicate RecordEvolves(r: Record, s: Record) {
    && s.scope == r.scope && s.operation == r.operation && s.draft == r.draft && s.request == r.request
    && |r.attempts| <= |s.attempts|
    && (forall i :: 0 <= i < |r.attempts| ==>
          s.attempts[i].id == r.attempts[i].id && s.attempts[i].serverUrl == r.attempts[i].serverUrl)
    && (r.response.Some? ==> s.response == r.response && s.attempts == r.attempts)
    && (r.status.Final() ==> s == r)
  }

  predicate Evolves(db: Db, later: Db) {
    && later.profile.deviceId == db.profile.deviceId
    && |db.records| <= |later.records|
    && forall i :: 0 <= i < |db.records| ==> RecordEvolves(db.records[i], later.records[i])
  }

  lemma EvolvesTransitively(a: Db, b: Db, c: Db)
    requires Evolves(a, b) && Evolves(b, c)
    ensures Evolves(a, c)
  {
    forall i | 0 <= i < |a.records| ensures RecordEvolves(a.records[i], c.records[i]) {
      assert RecordEvolves(a.records[i], b.records[i]) && RecordEvolves(b.records[i], c.records[i]);
    }
  }

  // ---------- Updating one record ----------

  lemma UpdateKeeps(db: Db, id: int, s: Record)
    requires Inv(db) && 1 <= id <= |db.records|
    requires RecordEvolves(db.records[id - 1], s) && RecordOk(s) && OneServer(s, db.profile)
    requires s.status.Unresolved() ==> db.records[id - 1].status.Unresolved()
    ensures Inv(WithRecord(db, id, s)) && Evolves(db, WithRecord(db, id, s))
  {
    var u := WithRecord(db, id, s);
    assert forall i :: 0 <= i < |db.records| ==> u.records[i].scope == db.records[i].scope;
    forall i, j | 0 <= i < j < |u.records| ensures Distinct(u.records[i], u.records[j]) {
      assert Distinct(db.records[i], db.records[j]);
    }
  }

  lemma StartedKeeps(r: Record, profile: Profile, attemptId: nat)
    requires RecordOk(r) && OneServer(r, profile)
    requires r.status.Persisted? || r.status.Ambiguous? || r.status.Retryable?
    ensures var s := Started(r, attemptId, profile.serverUrl);
      RecordOk(s) && OneServer(s, profile) && RecordEvolves(r, s)
  {
  }

  lemma EndedKeeps(r: Record, profile: Profile, attemptId: nat, to: Status, attemptStatus: AttemptStatus,
      response: Option<HttpResponse>)
    requires RecordOk(r) && OneServer(r, profile) && r.status.Dispatching? && IsActive(r.attempts, attemptId)
    requires !attemptStatus.InDispatch? && (to.Ambiguous? || to.Retryable? || to.ResponseRecorded?)
    requires response.Some? <==> to.ResponseRecorded?
    requires response.Some? ==> !IsRetryableStatus(response.value.status)
    ensures var s := r.(status := to, attempts := Close(r.attempts, attemptId, attemptStatus),
                        response := if response.Some? then response else r.response);
      RecordOk(s) && OneServer(s, profile) && RecordEvolves(r, s)
  {
  }

  lemma InterruptedKeeps(r: Record, profile: Profile)
    requires RecordOk(r) && OneServer(r, profile)
    ensures RecordOk(Interrupted(r)) && OneServer(Interrupted(r), profile) && RecordEvolves(r, Interrupted(r))
    ensures Interrupted(r).status.Unresolved() == r.status.Unresolved()
    ensures !Interrupted(r).status.Dispatching?
    ensures Interrupted(Interrupted(r)) == Interrupted(r)
  {
    if r.status.Final() || r.response.Some? {
      assert Interrupted(r).attempts == r.attempts;
    }
  }

  // ---------- Every transaction keeps the invariant ----------

  function After(db: Db, r: Commit): Db {
    if r.Ok? then r.value else db
  }

  function AfterPersist(db: Db, scope: Scope, draft: Draft): Db {
    var r := PersistTx(db, scope, draft);
    if r.Ok? then r.value.0 else db
  }

  lemma Unchanged(db: Db)
    ensures Evolves(db, db)
  {
  }

  lemma PersistKeeps(db: Db, scope: Scope, draft: Draft)
    requires Inv(db)
    ensures Inv(AfterPersist(db, scope, draft)) && Evolves(db, AfterPersist(db, scope, draft))
  {
    Unchanged(db);
    var u := AfterPersist(db, scope, draft);
    if u != db {
      var r := u.records[|db.records|];
      assert u.records[..|db.records|] == db.records;
      forall i | 0 <= i < |db.records| ensures Distinct(db.records[i], r) {
        assert !SameKey(db.records[i], scope.tenantId, draft.operation, draft.idempotencyKey);
      }
    }
  }

  lemma BeginKeeps(db: Db, scope: Scope, id: int)
    requires Inv(db)
    ensures Inv(After(db, BeginTx(db, scope, id))) && Evolves(db, After(db, BeginTx(db, scope, id)))
  {
    Unchanged(db);
    if BeginTx(db, scope, id).Ok? {
      var s := Started(db.records[id - 1], db.nextAttemptId, db.profile.serverUrl);
      StartedKeeps(db.records[id - 1], db.profile, db.nextAttemptId);
      UpdateKeeps(db, id, s);
      SupplyKeeps(WithRecord(db, id, s), db.nextAttemptId + 1);
    }
  }

  lemma SupplyKeeps(db: Db, next: nat)
    requires Inv(db)
    ensures Inv(db.(nextAttemptId := next))
  {
    assert forall i :: 0 <= i < |db.records| ==> db.(nextAttemptId := next).records[i] == db.records[i];
  }

  lemma EndKeeps(db: Db, scope: Scope, id: int, attemptId: nat, to: Status, attemptStatus: AttemptStatus,
      response: Option<HttpResponse>)
    requires Inv(db)
    requires !attemptStatus.InDispatch? && (to.Ambiguous? || to.Retryable? || to.ResponseRecorded?)
    requires response.Some? <==> to.ResponseRecorded?
    requires response.Some? ==> !IsRetryableStatus(response.value.status)
    ensures var u := After(db, EndTx(db, scope, id, attemptId, to, attemptStatus, response)); Inv(u) && Evolves(db, u)
  {
    Unchanged(db);
    if EndTx(db, scope, id, attemptId, to, attemptStatus, response).Ok? {
      var r := db.records[id - 1];
      EndedKeeps(r, db.profile, attemptId, to, attemptStatus, response);
      UpdateKeeps(db, id, r.(status := to, attempts := Close(r.attempts, attemptId, attemptStatus),
                             response := if response.Some? then response else r.response));
    }
  }

  lemma FinalizeKeeps(db: Db, scope: Scope, id: int, status: Status)
    requires Inv(db)
    ensures Inv(After(db, FinalizeTx(db, scope, id, status)))
      && Evolves(db, After(db, FinalizeTx(db, scope, id, status)))
  {
    Unchanged(db);
    if FinalizeTx(db, scope, id, status).Ok? {
      UpdateKeeps(db, id, db.records[id - 1].(status := status));
    }
  }

  lemma ServerUrlKeeps(db: Db, url: Result<Option<string>, StoreError>)
    requires Inv(db)
    ensures Inv(After(db, SetServerUrlTx(db, url))) && Evolves(db, After(db, SetServerUrlTx(db, url)))
  {
    Unchanged(db);
    var u := After(db, SetServerUrlTx(db, url));
    if u != db {
      forall i | 0 <= i < |db.records| ensures OneServer(u.records[i], u.profile) {
        assert OneServer(db.records[i], db.profile);
      }
    }
  }

  lemma ReopenKeeps(db: Db)
    requires Inv(db)
    ensures Inv(Reopened(db)) && Evolves(db, Reopened(db))
  {
    var u := Reopened(db);
    forall i | 0 <= i < |db.records|
      ensures RecordOk(u.records[i]) && OneServer(u.records[i], u.profile) && RecordEvolves(db.records[i], u.records[i])
      ensures u.records[i].status.Unresolved() == db.records[i].status.Unresolved()
    {
      InterruptedKeeps(db.records[i], db.profile);
    }
    forall i, j | 0 <= i < j < |u.records| ensures Distinct(u.records[i], u.records[j]) {
      assert Distinct(db.records[i], db.records[j]);
    }
  }

  // ---------- Runs ----------

  datatype Op =
    | Persist(scope: Scope, draft: Draft)
    | Begin(scope: Scope, id: int)
    | MarkAmbiguous(scope: Scope, id: int, attemptId: nat)
    | RecordResponse(scope: Scope, id: int, attemptId: nat, response: HttpResponse)
    | RecordRetryable(scope: Scope, id: int, attemptId: nat, response: HttpResponse)
    | Finalize(scope: Scope, id: int, status: Status)
    | SetServerUrl(url: Result<Option<string>, StoreError>)
    | Reopen

  function Apply(db: Db, op: Op): Db {
    match op
    case Persist(scope, draft) => AfterPersist(db, scope, draft)
    case Begin(scope, id) => After(db, BeginTx(db, scope, id))
    case MarkAmbiguous(scope, id, attemptId) => After(db, AmbiguousTx(db, scope, id, attemptId))
    case RecordResponse(scope, id, attemptId, response) => After(db, ResponseTx(db, scope, id, attemptId, response))
    case RecordRetryable(scope, id, attemptId, response) => After(db, RetryableTx(db, scope, id, attemptId, response))
    case Finalize(scope, id, status) => After(db, FinalizeTx(db, scope, id, status))
    case SetServerUrl(url) => After(db, SetServerUrlTx(db, url))
    case Reopen => Reopened(db)
  }

  function Created(deviceId: string): Db {
    Db(Profile(deviceId, None), [], 0)
  }

  function Run(db: Db, ops: seq<Op>): Db {
    if ops == [] then db else Apply(Run(db, ops[..|ops| - 1]), ops[|ops| - 1])
  }

  lemma ApplyKeeps(db: Db, op: Op)
    requires Inv(db)
    ensures Inv(Apply(db, op)) && Evolves(db, Apply(db, op))
  {
    hide Inv, Evolves;
    Unchanged(db);
    match op
    case Persist(scope, draft) => PersistKeeps(db, scope, draft);
    case Begin(scope, id) => BeginKeeps(db, scope, id);
    case MarkAmbiguous(scope, id, attemptId) => EndKeeps(db, scope, id, attemptId, Ambiguous, WasAmbiguous, None);
    case RecordResponse(scope, id, attemptId, response) =>
      if !IsRetryableStatus(response.status) {
        EndKeeps(db, scope, id, attemptId, ResponseRecorded, Responded, Some(response));
      }
    case RecordRetryable(scope, id, attemptId, response) =>
      EndKeeps(db, scope, id, attemptId, Retryable, WasRetryable, None);
    case Finalize(scope, id, status) => FinalizeKeeps(db, scope, id, status);
    case SetServerUrl(url) => ServerUrlKeeps(db, url);
    case Reopen => ReopenKeeps(db);
  }

  lemma {:induction false} RunKeeps(db: Db, ops: seq<Op>)
    requires Inv(db)
    ensures Inv(Run(db, ops)) && Evolves(db, Run(db, ops))
  {
    hide Inv, Evolves;
    Unchanged(db);
    if ops != [] {
      var prior := Run(db, ops[..|ops| - 1]);
      RunKeeps(db, ops[..|ops| - 1]);
      ApplyKeeps(prior, ops[|ops| - 1]);
      EvolvesTransitively(db, prior, Run(db, ops));
    }
  }

  lemma {:induction false} CreatedKeeps(deviceId: string, ops: seq<Op>)
    ensures Inv(Run(Created(deviceId), ops))
  {
    RunKeeps(Created(deviceId), ops);
  }

  // ---------- Guarantees of every run ----------

  /** No two unresolved commands of one device, no two commands of one identity. */
  lemma {:induction false} OneUnresolvedPerDevice(deviceId: string, ops: seq<Op>, i: nat, j: nat)
    requires var db := Run(Created(deviceId), ops); i < j < |db.records|
    ensures var db := Run(Created(deviceId), ops);
      && (db.records[i].status.Unresolved() && db.records[j].status.Unresolved() ==>
            db.records[i].scope.deviceId != db.records[j].scope.deviceId)
      && Distinct(db.records[i], db.records[j])
  {
    CreatedKeeps(deviceId, ops);
  }

  /** A final command is frozen, and one awaiting reconciliation blocks every new command of its device. */
  lemma {:induction false} FinalIsFrozen(db: Db, ops: seq<Op>, i: nat, scope: Scope, draft: Draft)
    requires Inv(db) && i < |db.records| && db.records[i].status.Final()
    ensures i < |Run(db, ops).records| && Run(db, ops).records[i] == db.records[i]
    ensures (&& db.records[i].status.ReconcileRequired? && scope.deviceId == db.records[i].scope.deviceId
             && !HasCommand(Run(db, ops), draft.commandId)) ==> PersistTx(Run(db, ops), scope, draft).Err?
  {
    RunKeeps(db, ops);
    var u := Run(db, ops);
    assert RecordEvolves(db.records[i], u.records[i]);
    if Find(u.records, draft.commandId) < |u.records| {
      assert HasCommand(u, draft.commandId);
    }
  }

  /** Every attempt of a command of this device went to the same server, with the same request and key. */
  lemma {:induction false} AttemptsShareServerAndRequest(deviceId: string, ops: seq<Op>, more: seq<Op>, i: nat, a: nat,
      b: nat)
    requires i < |Run(Created(deviceId), ops).records|
    requires var later := Run(Run(Created(deviceId), ops), more);
      && i < |later.records| && later.records[i].scope.deviceId == deviceId
      && a < |later.records[i].attempts| && b < |later.records[i].attempts|
    ensures var r := Run(Created(deviceId), ops).records[i]; var s := Run(Run(Created(deviceId), ops), more).records[i];
      && s.attempts[a].serverUrl == s.attempts[b].serverUrl
      && s.request == r.request && s.draft.idempotencyKey == r.draft.idempotencyKey
  {
    var db := Run(Created(deviceId), ops);
    CreatedKeeps(deviceId, ops);
    RunKeeps(Created(deviceId), ops);
    RunKeeps(db, more);
    assert OneServer(Run(db, more).records[i], Run(db, more).profile);
    assert RecordEvolves(db.records[i], Run(db, more).records[i]);
  }

  /** No reachable record is ever refused by the decoder, and its attempts, status and response fit together. */
  lemma {:induction false} ReachableRecordsDecode(deviceId: string, ops: seq<Op>, id: int)
    requires 1 <= id <= |Run(Created(deviceId), ops).records|
    ensures var db := Run(Created(deviceId), ops);
      Load(db, id) == Ok(db.records[id - 1]) && RecordOk(db.records[id - 1])
  {
    CreatedKeeps(deviceId, ops);
  }

  /** A recorded response is never replaced, and is never one that should have been retried. */
  lemma {:induction false} ResponseIsWrittenOnce(db: Db, ops: seq<Op>, i: nat)
    requires Inv(db) && i < |db.records| && db.records[i].response.Some?
    ensures i < |Run(db, ops).records| && Run(db, ops).records[i].response == db.records[i].response
    ensures !IsRetryableStatus(db.records[i].response.value.status)
  {
    RunKeeps(db, ops);
    assert RecordEvolves(db.records[i], Run(db, ops).records[i]);
  }

  /**
   Reopening, at any point of any run: nothing is in flight, the same commands are unresolved, and doing it twice
   changes nothing more.
   */
  lemma {:induction false} ReopeningIsClean(deviceId: string, ops: seq<Op>, i: nat)
    requires i < |Run(Created(deviceId), ops).records|
    ensures var db := Run(Created(deviceId), ops);
      && !Reopened(db).records[i].status.Dispatching?
      && (forall k :: 0 <= k < |Reopened(db).records[i].attempts| ==>
        !Reopened(db).records[i].attempts[k].status.InDispatch?)
      && Reopened(db).records[i].status.Unresolved() == db.records[i].status.Unresolved()
      && Reopened(Reopened(db)) == Reopened(db)
  {
    CreatedKeeps(deviceId, ops);
    var db := Run(Created(deviceId), ops);
    ReopenTwice(db);
    InterruptedKeeps(db.records[i], db.profile);
  }

  lemma ReopenTwice(db: Db)
    requires RowsOk(db)
    ensures Reopened(Reopened(db)) == Reopened(db)
  {
    forall i | 0 <= i < |db.records| ensures Reopened(Reopened(db)).records[i] == Reopened(db).records[i] {
      InterruptedKeeps(db.records[i], db.profile);
    }
  }

  /** For the attempt in flight, each HTTP status is accepted by exactly one of the two recording calls. */
  lemma EveryStatusHasOneRecorder(db: Db, scope: Scope, id: int, attemptId: nat, response: HttpResponse)
    requires EndTx(db, scope, id, attemptId, Ambiguous, WasAmbiguous, None).Ok?
    ensures ResponseTx(db, scope, id, attemptId, response).Ok? <==> !IsRetryableStatus(response.status)
    ensures RetryableTx(db, scope, id, attemptId, response).Ok? <==> IsRetryableStatus(response.status)
  {
  }
}
