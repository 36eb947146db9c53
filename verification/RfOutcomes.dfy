/** The handheld store's transactions in terms of the stored columns: when each commits, and the record it leaves. */
module RfOutcomes {
  import opened Common
  import opened RfCommands
  import opened RfCommandRuns

  /** A tenant, an operator and a device id of 1 to 128 printable characters other than the space. */
  predicate ScopeFits(scope: Scope) {
    && scope.tenantId >= 1 && scope.operatorId >= 1 && 1 <= |scope.deviceId| <= 128
    && forall i :: 0 <= i < |scope.deviceId| ==> 33 <= scope.deviceId[i] as int <= 126
  }

  /** The record exists and belongs to the caller. */
  predicate Owns(db: Db, scope: Scope, id: int) {
    ScopeFits(scope) && 1 <= id <= |db.records| && db.records[id - 1].scope == scope
  }

  /** Everything but this record, and the supply of attempt numbers if none is used, stays. */
  predicate OnlyRecord(db: Db, u: Db, id: int, r: Record, attempts: nat) {
    && 1 <= id <= |db.records|
    && u == Db(db.profile, db.records[id - 1 := r], db.nextAttemptId + attempts)
  }

  lemma LoadsExactlyWhen(db: Db, scope: Scope, id: int)
    requires Inv(db)
    ensures LoadScoped(db, scope, id).Ok? <==> Owns(db, scope, id)
    ensures Owns(db, scope, id) ==> LoadScoped(db, scope, id) == Ok(db.records[id - 1])
  {
    if 1 <= id <= |db.records| {
      assert RecordOk(db.records[id - 1]);
    }
    hide Inv, Decodes;
  }

  /** A dispatch begins exactly for a command never sent, of unknown outcome or to be retried. */
  lemma BeginsExactlyWhen(db: Db, scope: Scope, id: int)
    requires Inv(db)
    ensures BeginTx(db, scope, id).Ok? <==>
      && Owns(db, scope, id)
      && db.records[id - 1].status in {Persisted, Ambiguous, Retryable}
      && |db.records[id - 1].attempts| < 0x7FFF_FFFF_FFFF_FFFF
    ensures BeginTx(db, scope, id).Ok? ==>
      var r := db.records[id - 1];
      var attempt := Attempt(db.nextAttemptId, |r.attempts| + 1, InDispatch, db.profile.serverUrl);
      OnlyRecord(db, BeginTx(db, scope, id).value, id,
        r.(status := Dispatching, attemptCount := |r.attempts| + 1, attempts := r.attempts + [attempt]), 1)
  {
    LoadsExactlyWhen(db, scope, id);
    if Owns(db, scope, id) {
      assert RecordOk(db.records[id - 1]);
    }
    hide Inv, Owns;
  }

  /** The command is being sent, and this is the attempt. */
  predicate BeingSent(db: Db, scope: Scope, id: int, attemptId: nat) {
    && Owns(db, scope, id)
    && var r := db.records[id - 1];
    && r.status == Dispatching && r.attempts != [] && r.attempts[|r.attempts| - 1].id == attemptId
  }

  /** The record once its attempt in flight ended this way. */
  function WithEnd(r: Record, to: Status, attemptStatus: AttemptStatus, response: Option<HttpResponse>): Record
    requires r.attempts != []
  {
    var last := |r.attempts| - 1;
    r.(status := to, attempts := r.attempts[last := r.attempts[last].(status := attemptStatus)], response := response)
  }

  lemma EndsExactlyWhen(db: Db, scope: Scope, id: int, attemptId: nat, to: Status, attemptStatus: AttemptStatus,
      response: Option<HttpResponse>)
    requires Inv(db)
    ensures EndTx(db, scope, id, attemptId, to, attemptStatus, response).Ok? <==> BeingSent(db, scope, id, attemptId)
    ensures BeingSent(db, scope, id, attemptId) ==>
      OnlyRecord(db, EndTx(db, scope, id, attemptId, to, attemptStatus, response).value, id,
        WithEnd(db.records[id - 1], to, attemptStatus, response), 0)
  {
    LoadsExactlyWhen(db, scope, id);
    if Owns(db, scope, id) {
      var r := db.records[id - 1];
      assert RecordOk(r);
      hide Inv;
      if r.status == Dispatching {
        assert IsActive(r.attempts, attemptId) <==> r.attempts[|r.attempts| - 1].id == attemptId;
        if r.attempts[|r.attempts| - 1].id == attemptId {
          assert Close(r.attempts, attemptId, attemptStatus) == WithEnd(r, to, attemptStatus, response).attempts;
        }
      }
    }
  }

  /** 401, 408, 429 and 500 to 599 leave open whether the server acted. */
  predicate LeavesOpen(status: nat) {
    status in {401, 408, 429} || status / 100 == 5
  }

  /** A response is stored exactly for the attempt in flight and a status that settles the matter. */
  lemma ResponseExactlyWhen(db: Db, scope: Scope, id: int, attemptId: nat, response: HttpResponse)
    requires Inv(db)
    ensures ResponseTx(db, scope, id, attemptId, response).Ok? <==>
      BeingSent(db, scope, id, attemptId) && !LeavesOpen(response.status)
    ensures ResponseTx(db, scope, id, attemptId, response).Ok? ==>
      OnlyRecord(db, ResponseTx(db, scope, id, attemptId, response).value, id,
        WithEnd(db.records[id - 1], ResponseRecorded, Responded, Some(response)), 0)
    ensures RetryableTx(db, scope, id, attemptId, response).Ok? <==>
      BeingSent(db, scope, id, attemptId) && LeavesOpen(response.status)
    ensures RetryableTx(db, scope, id, attemptId, response).Ok? ==>
      OnlyRecord(db, RetryableTx(db, scope, id, attemptId, response).value, id,
        WithEnd(db.records[id - 1], Retryable, WasRetryable, None), 0)
    ensures AmbiguousTx(db, scope, id, attemptId).Ok? <==> BeingSent(db, scope, id, attemptId)
    ensures AmbiguousTx(db, scope, id, attemptId).Ok? ==>
      OnlyRecord(db, AmbiguousTx(db, scope, id, attemptId).value, id,
        WithEnd(db.records[id - 1], Ambiguous, WasAmbiguous, None), 0)
  {
    EndsExactlyWhen(db, scope, id, attemptId, ResponseRecorded, Responded, Some(response));
    EndsExactlyWhen(db, scope, id, attemptId, Retryable, WasRetryable, None);
    EndsExactlyWhen(db, scope, id, attemptId, Ambiguous, WasAmbiguous, None);
    hide Inv, EndTx, OnlyRecord;
  }

  /** Why a record cannot be touched at all. */
  predicate Denied(db: Db, scope: Scope, id: int, e: StoreError) {
    if !ScopeFits(scope) then e == InvalidScope
    else if !(1 <= id <= |db.records|) then e == NotFound
    else db.records[id - 1].scope != scope && e == ScopeMismatch
  }

  lemma DeniedExactlyWhen(db: Db, scope: Scope, id: int, e: StoreError)
    requires Inv(db)
    ensures LoadScoped(db, scope, id) == Err(e) <==> Denied(db, scope, id, e)
  {
    if 1 <= id <= |db.records| {
      assert RecordOk(db.records[id - 1]);
    }
    hide Inv, Decodes;
  }

  /** Why a dispatch cannot begin or end, or a response not be finalised. */
  lemma RefusedBecause(db: Db, scope: Scope, id: int, attemptId: nat, e: StoreError)
    requires Inv(db)
    ensures BeginTx(db, scope, id) == Err(e) <==>
      || Denied(db, scope, id, e)
      || (&& Owns(db, scope, id) && db.records[id - 1].status !in {Persisted, Ambiguous, Retryable}
          && e == InvalidTransition)
      || (&& Owns(db, scope, id) && db.records[id - 1].status in {Persisted, Ambiguous, Retryable}
          && |db.records[id - 1].attempts| >= 0x7FFF_FFFF_FFFF_FFFF && e == CorruptRecord)
    ensures AmbiguousTx(db, scope, id, attemptId) == Err(e) <==>
      || Denied(db, scope, id, e)
      || (Owns(db, scope, id) && db.records[id - 1].status != Dispatching && e == InvalidTransition)
      || (&& Owns(db, scope, id) && db.records[id - 1].status == Dispatching
          && !BeingSent(db, scope, id, attemptId) && e == AttemptMismatch)
    ensures FinalizeTx(db, scope, id, Completed) == Err(e) <==>
      || Denied(db, scope, id, e)
      || (Owns(db, scope, id) && db.records[id - 1].status != ResponseRecorded && e == InvalidTransition)
  {
    DeniedExactlyWhen(db, scope, id, e);
    LoadsExactlyWhen(db, scope, id);
    EndsExactlyWhen(db, scope, id, attemptId, Ambiguous, WasAmbiguous, None);
    if Owns(db, scope, id) {
      assert RecordOk(db.records[id - 1]);
    }
    hide Inv, LoadScoped, IsActive, OnlyRecord;
  }

  /** On every run, no stored response leaves the matter open. */
  lemma {:induction false} StoredResponseSettles(deviceId: string, ops: seq<Op>, i: nat)
    requires i < |Run(Created(deviceId), ops).records|
    requires Run(Created(deviceId), ops).records[i].response.Some?
    ensures !LeavesOpen(Run(Created(deviceId), ops).records[i].response.value.status)
  {
    CreatedKeeps(deviceId, ops);
    assert RecordOk(Run(Created(deviceId), ops).records[i]);
  }

  /** Exactly a recorded response is finalised, to one of the three final states, and nothing else changes. */
  lemma FinalExactlyWhen(db: Db, scope: Scope, id: int, status: Status)
    requires Inv(db)
    ensures FinalizeTx(db, scope, id, status).Ok? <==>
      && Owns(db, scope, id) && db.records[id - 1].status == ResponseRecorded
      && status in {ReconcileRequired, Completed, Rejected}
    ensures FinalizeTx(db, scope, id, status).Ok? ==>
      OnlyRecord(db, FinalizeTx(db, scope, id, status).value, id, db.records[id - 1].(status := status), 0)
  {
    LoadsExactlyWhen(db, scope, id);
    hide Inv;
  }

  /** The device has a command that is neither completed nor rejected. */
  predicate Busy(db: Db, deviceId: string) {
    exists i :: 0 <= i < |db.records| && db.records[i].scope.deviceId == deviceId
      && db.records[i].status !in {Completed, Rejected}
  }

  /** Neither the command id nor, for its tenant and operation, the idempotency key is known. */
  predicate Unknown(db: Db, scope: Scope, draft: Draft) {
    forall i :: 0 <= i < |db.records| ==>
      && db.records[i].draft.commandId != draft.commandId
      && (db.records[i].scope.tenantId == scope.tenantId && db.records[i].operation == draft.operation ==>
            db.records[i].draft.idempotencyKey != draft.idempotencyKey)
  }

  /**
   Exactly an unknown, well-formed command of an idle device is added, under the next number; exactly a command that is
   known with the same scope and draft is answered from its record.
   */
  lemma PersistedExactlyWhen(db: Db, scope: Scope, draft: Draft)
    requires Inv(db)
    ensures var r := PersistTx(db, scope, draft);
      (r.Ok? && r.value.0 != db) <==>
        ScopeFits(scope) && draft.wellFormed && !Busy(db, scope.deviceId) && Unknown(db, scope, draft)
    ensures var r := PersistTx(db, scope, draft);
      r.Ok? && r.value.0 != db ==>
        && r.value.1 == |db.records| + 1
        && r.value.0 == db.(records := db.records + [Record(scope, draft.operation, draft,
             HttpRequest(draft.operation, draft.content, draft.idempotencyKey), Persisted, 0, None, [])])
    ensures var r := PersistTx(db, scope, draft);
      (r.Ok? && r.value.0 == db) <==>
        && ScopeFits(scope) && draft.wellFormed
        && exists i :: 0 <= i < |db.records| && db.records[i].scope == scope && db.records[i].draft == draft
    ensures var r := PersistTx(db, scope, draft);
      r.Ok? && r.value.0 == db ==>
        1 <= r.value.1 <= |db.records| && db.records[r.value.1 - 1].scope == scope
        && db.records[r.value.1 - 1].draft == draft
  {
    var i := Find(db.records, draft.commandId);
    if i < |db.records| {
      assert RecordOk(db.records[i]);
      assert forall j :: 0 <= j < |db.records| && db.records[j].draft == draft ==> j == i;
      hide Inv;
    } else {
      assert HasUnresolved(db, scope.deviceId) <==> Busy(db, scope.deviceId);
      hide Inv;
    }
  }

  /** The server changes exactly while the device is idle; naming the same one again is always fine. */
  lemma ServerExactlyWhen(db: Db, serverUrl: Option<string>)
    ensures SetServerUrlTx(db, Ok(serverUrl)).Ok? <==>
      serverUrl == db.profile.serverUrl || !Busy(db, db.profile.deviceId)
    ensures SetServerUrlTx(db, Ok(serverUrl)).Ok? ==>
      SetServerUrlTx(db, Ok(serverUrl)).value ==
        Db(Profile(db.profile.deviceId, serverUrl), db.records, db.nextAttemptId)
  {
    assert HasUnresolved(db, db.profile.deviceId) <==> Busy(db, db.profile.deviceId);
  }

  /** Opening the database makes what was being sent of unknown outcome, and changes nothing else. */
  lemma ReopenExactly(db: Db, i: nat)
    requires Inv(db) && i < |db.records|
    ensures Reopened(db).profile == db.profile && Reopened(db).nextAttemptId == db.nextAttemptId
    ensures |Reopened(db).records| == |db.records|
    ensures Reopened(db).records[i] ==
      if db.records[i].status == Dispatching then WithEnd(db.records[i], Ambiguous, WasAmbiguous, None)
      else db.records[i]
  {
    var r := db.records[i];
    assert RecordOk(r);
    hide Inv;
    if r.status == Dispatching {
      assert Interrupted(r).attempts == WithEnd(r, Ambiguous, WasAmbiguous, None).attempts;
    } else {
      assert Interrupted(r).attempts == r.attempts;
    }
  }
}
