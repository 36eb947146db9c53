/** The handheld's command store, statement by statement, one method per transaction. */
module RfCommandStore {
  import opened Common
  import opened RfCommands
  import opened RfCommandRuns
  import opened RfOutcomes

  class CommandStore {
    var profile: Profile
    var records: seq<Record>
    var nextAttemptId: nat

    function View(): Db
      reads this
    {
      Db(profile, records, nextAttemptId)
    }

    predicate Valid()
      reads this
    {
      Inv(View())
    }

    constructor (deviceId: string)
      ensures Valid() && View() == Created(deviceId)
    {
      profile, records, nextAttemptId := Profile(deviceId, None), [], 0;
    }

    /** Opening an existing database. */
    method RecoverInterruptedDispatches()
      requires Valid()
      modifies this
      ensures Valid() && Evolves(old(View()), View())
      ensures View() == Reopened(old(View()))
    {
      ReopenKeeps(View());
      records := seq(|records|, i requires 0 <= i < |records| reads this => Interrupted(records[i]));
    }

    method SetServerUrl(url: Result<Option<string>, StoreError>) returns (r: Result<Profile, StoreError>)
      requires Valid()
      modifies this
      ensures Valid() && Evolves(old(View()), View())
      ensures View() == After(old(View()), SetServerUrlTx(old(View()), url))
      ensures r.Ok? <==> SetServerUrlTx(old(View()), url).Ok?
      ensures r.Ok? ==> r.value == profile
      ensures r.Err? ==> r.error == SetServerUrlTx(old(View()), url).error
    {
      ServerUrlKeeps(View(), url);
      match url {
        case Err(_) => return Err(InvalidServerUrl);
        case Ok(serverUrl) =>
          if profile.serverUrl == serverUrl {
            return Ok(profile);
          }
          var pending := HasUnresolved(View(), profile.deviceId);
          if pending {
            return Err(ServerUrlChangeBlocked);
          }
          profile := profile.(serverUrl := serverUrl);
          return Ok(profile);
      }
    }

    method Persist(scope: Scope, draft: Draft) returns (r: Result<Record, StoreError>)
      requires Valid()
      modifies this
      ensures Valid() && Evolves(old(View()), View())
      ensures var tx := PersistTx(old(View()), scope, draft);
        && View() == AfterPersist(old(View()), scope, draft)
        && (r.Ok? <==> tx.Ok?)
        && (r.Ok? ==> 1 <= tx.value.1 <= |records| && r.value == records[tx.value.1 - 1])
        && (r.Err? ==> r.error == tx.error)
    {
      hide Inv, Evolves;
      PersistKeeps(View(), scope, draft);
      if !scope.Valid() {
        return Err(InvalidScope);
      }
      var built := BuildRequest(draft);
      if built.Err? {
        return Err(built.error);
      }
      var existing := Find(records, draft.commandId);
      if existing < |records| {
        var loaded := Load(View(), existing + 1);
        if loaded.Err? {
          return Err(loaded.error);
        }
        var found := loaded.value;
        if found.scope == scope && found.operation == draft.operation && found.draft == draft
          && found.request == built.value
        {
          return Ok(found);
        }
        return Err(IdentityConflict);
      }
      if HasUnresolved(View(), scope.deviceId) {
        return Err(UnresolvedCommandExists);
      }
      if HasKey(View(), scope.tenantId, draft.operation, draft.idempotencyKey) {
        return Err(IdentityConflict);
      }
      records := records + [Record(scope, draft.operation, draft, built.value, Persisted, 0, None, [])];
      return Ok(records[|records| - 1]);
    }

    method BeginAttempt(scope: Scope, id: int) returns (r: Result<nat, StoreError>)
      requires Valid()
      modifies this
      ensures Valid() && Evolves(old(View()), View())
      ensures View() == After(old(View()), BeginTx(old(View()), scope, id))
      ensures r.Ok? <==> BeginTx(old(View()), scope, id).Ok?
      ensures r.Ok? ==> 1 <= id <= |records| && IsActive(records[id - 1].attempts, r.value)
      ensures r.Err? ==> r.error == BeginTx(old(View()), scope, id).error
    {
      hide Inv, Evolves;
      BeginKeeps(View(), scope, id);
      var loaded := LoadScoped(View(), scope, id);
      if loaded.Err? {
        return Err(loaded.error);
      }
      var record := loaded.value;
      if !(record.status.Persisted? || record.status.Ambiguous? || record.status.Retryable?) {
        return Err(InvalidTransition);
      }
      if record.attemptCount + 1 > I64_MAX {
        return Err(CorruptRecord);
      }
      var ordinal := record.attemptCount + 1;
      var attempt := Attempt(nextAttemptId, ordinal, InDispatch, profile.serverUrl);
      record := record.(attempts := record.attempts + [attempt]);
      record := record.(status := Dispatching, attemptCount := ordinal);
      records := records[id - 1 := record];
      nextAttemptId := nextAttemptId + 1;
      assert records[id - 1].attempts[|record.attempts| - 1] == attempt;
      return Ok(attempt.id);
    }

    /** The part shared by the three ways a dispatch ends. */
    method EndAttempt(scope: Scope, id: int, attemptId: nat, to: Status, attemptStatus: AttemptStatus,
        response: Option<HttpResponse>)
      returns (r: Result<Record, StoreError>)
      requires Valid()
      requires !attemptStatus.InDispatch? && (to.Ambiguous? || to.Retryable? || to.ResponseRecorded?)
      requires response.Some? <==> to.ResponseRecorded?
      requires response.Some? ==> !IsRetryableStatus(response.value.status)
      modifies this
      ensures Valid() && Evolves(old(View()), View())
      ensures View() == After(old(View()), EndTx(old(View()), scope, id, attemptId, to, attemptStatus, response))
      ensures r.Ok? <==> EndTx(old(View()), scope, id, attemptId, to, attemptStatus, response).Ok?
      ensures r.Ok? ==> 1 <= id <= |records| && r.value == records[id - 1] && r.value.status == to
      ensures r.Err? ==> r.error == EndTx(old(View()), scope, id, attemptId, to, attemptStatus, response).error
    {
      hide Inv, Evolves;
      EndKeeps(View(), scope, id, attemptId, to, attemptStatus, response);
      var loaded := LoadScoped(View(), scope, id);
      if loaded.Err? {
        return Err(loaded.error);
      }
      var record := loaded.value;
      if !record.status.Dispatching? {
        return Err(InvalidTransition);
      }
      if !IsActive(record.attempts, attemptId) {
        return Err(AttemptMismatch);
      }
      record := record.(attempts := Close(record.attempts, attemptId, attemptStatus));
      record := record.(status := to);
      if response.Some? {
        record := record.(response := response);
      }
      records := records[id - 1 := record];
      return Ok(record);
    }

    method MarkAmbiguous(scope: Scope, id: int, attemptId: nat) returns (r: Result<Record, StoreError>)
      requires Valid()
      modifies this
      ensures Valid() && Evolves(old(View()), View())
      ensures View() == After(old(View()), AmbiguousTx(old(View()), scope, id, attemptId))
      ensures r.Ok? <==> AmbiguousTx(old(View()), scope, id, attemptId).Ok?
      ensures r.Ok? ==> 1 <= id <= |records| && r.value == records[id - 1]
      ensures r.Err? ==> r.error == AmbiguousTx(old(View()), scope, id, attemptId).error
    {
      r := EndAttempt(scope, id, attemptId, Ambiguous, WasAmbiguous, None);
    }

    method RecordResponse(scope: Scope, id: int, attemptId: nat, response: HttpResponse)
      returns (r: Result<Record, StoreError>)
      requires Valid()
      modifies this
      ensures Valid() && Evolves(old(View()), View())
      ensures View() == After(old(View()), ResponseTx(old(View()), scope, id, attemptId, response))
      ensures r.Ok? <==> ResponseTx(old(View()), scope, id, attemptId, response).Ok?
      ensures r.Ok? ==> 1 <= id <= |records| && r.value == records[id - 1]
      ensures r.Err? ==> r.error == ResponseTx(old(View()), scope, id, attemptId, response).error
      ensures r.Ok? ==> r.value.response == Some(response)
      ensures r.Ok? <==> old(BeingSent(View(), scope, id, attemptId)) && !LeavesOpen(response.status)
    {
      hide Inv, Evolves;
      ResponseExactlyWhen(View(), scope, id, attemptId, response);
      Unchanged(View());
      if !scope.Valid() {
        return Err(InvalidScope);
      }
      if IsRetryableStatus(response.status) {
        return Err(RetryableHttpStatus);
      }
      r := EndAttempt(scope, id, attemptId, ResponseRecorded, Responded, Some(response));
    }

    method RecordRetryableResponse(scope: Scope, id: int, attemptId: nat, response: HttpResponse)
      returns (r: Result<Record, StoreError>)
      requires Valid()
      modifies this
      ensures Valid() && Evolves(old(View()), View())
      ensures View() == After(old(View()), RetryableTx(old(View()), scope, id, attemptId, response))
      ensures r.Ok? <==> RetryableTx(old(View()), scope, id, attemptId, response).Ok?
      ensures r.Ok? ==> 1 <= id <= |records| && r.value == records[id - 1]
      ensures r.Err? ==> r.error == RetryableTx(old(View()), scope, id, attemptId, response).error
      ensures r.Ok? <==> old(BeingSent(View(), scope, id, attemptId)) && LeavesOpen(response.status)
    {
      hide Inv, Evolves;
      ResponseExactlyWhen(View(), scope, id, attemptId, response);
      Unchanged(View());
      if !scope.Valid() {
        return Err(InvalidScope);
      }
      if !IsRetryableStatus(response.status) {
        return Err(NonRetryableHttpStatus);
      }
      r := EndAttempt(scope, id, attemptId, Retryable, WasRetryable, None);
    }

    method Finalize(scope: Scope, id: int, status: Status) returns (r: Result<Record, StoreError>)
      requires Valid()
      modifies this
      ensures Valid() && Evolves(old(View()), View())
      ensures View() == After(old(View()), FinalizeTx(old(View()), scope, id, status))
      ensures r.Ok? <==> FinalizeTx(old(View()), scope, id, status).Ok?
      ensures r.Ok? ==> 1 <= id <= |records| && r.value == records[id - 1]
      ensures r.Err? ==> r.error == FinalizeTx(old(View()), scope, id, status).error
    {
      hide Inv, Evolves;
      FinalizeKeeps(View(), scope, id, status);
      if !scope.Valid() {
        return Err(InvalidScope);
      }
      if !status.Final() {
        return Err(InvalidTransition);
      }
      var loaded := LoadScoped(View(), scope, id);
      if loaded.Err? {
        return Err(loaded.error);
      }
      if !loaded.value.status.ResponseRecorded? {
        return Err(InvalidTransition);
      }
      records := records[id - 1 := loaded.value.(status := status)];
      return Ok(records[id - 1]);
    }

    /** The device's unresolved commands in record order: never more than one. */
    method UnresolvedForDevice(deviceId: string) returns (r: Result<seq<Record>, StoreError>)
      requires Valid()
      ensures r.Ok? <==> ValidDeviceId(deviceId)
      ensures r.Ok? ==> |r.value| <= 1
      ensures r.Ok? ==> (r.value != [] <==> HasUnresolved(View(), deviceId))
      ensures r.Ok? && r.value != [] ==>
        r.value[0] in records && r.value[0].scope.deviceId == deviceId && r.value[0].status.Unresolved()
    {
      if !ValidDeviceId(deviceId) {
        return Err(InvalidScope);
      }
      var found: seq<Record> := [];
      ghost var at := -1;
      for i := 0 to |records|
        invariant found == [] <==> at == -1
        invariant found == [] ==> forall k :: 0 <= k < i ==>
          !(records[k].scope.deviceId == deviceId && records[k].status.Unresolved())
        invariant found != [] ==>
          && 0 <= at < i && found == [records[at]]
          && records[at].scope.deviceId == deviceId && records[at].status.Unresolved()
      {
        if records[i].scope.deviceId == deviceId && records[i].status.Unresolved() {
          var loaded := Load(View(), i + 1);
          match loaded {
            case Err(e) => return Err(e);
            case Ok(record) =>
              found := found + [record];
              at := i;
          }
        }
      }
      return Ok(found);
    }
  }
}
