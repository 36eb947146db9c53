/**
 The handheld's durable commands: at most one unresolved per device, numbered dispatch attempts, one recorded response.
 */
module RfCommands {
  import opened Common

  const I64_MAX := 0x7FFF_FFFF_FFFF_FFFF

  datatype Scope = Scope(tenantId: int, operatorId: int, deviceId: string) {
    predicate Valid() {
      tenantId > 0 && operatorId > 0 && ValidDeviceId(deviceId)
    }
  }

  predicate ValidDeviceId(id: string) {
    0 < |id| <= 128 && forall i :: 0 <= i < |id| ==> '!' <= id[i] <= '~'
  }

  /** A typed command before it is sent; whether it can be turned into a request is a fact about its content. */
  datatype Draft = Draft(schemaVersion: nat, commandId: string, idempotencyKey: string, operation: nat, content: int,
    wellFormed: bool)

  datatype HttpRequest = HttpRequest(operation: nat, content: int, idempotencyKey: string)

  datatype HttpResponse = HttpResponse(status: nat, body: int, serverRequestId: Option<string>)

  datatype Status =
    | Persisted | Dispatching | Ambiguous | Retryable | ResponseRecorded | ReconcileRequired | Completed | Rejected
  {
    predicate Unresolved() {
      !Completed? && !Rejected?
    }

    predicate HasResponse() {
      ResponseRecorded? || ReconcileRequired? || Completed? || Rejected?
    }

    predicate Final() {
      ReconcileRequired? || Completed? || Rejected?
    }
  }

  datatype AttemptStatus = InDispatch | WasAmbiguous | WasRetryable | Responded

  /** `serverUrl` notes the server the profile named when the attempt began. */
  datatype Attempt = Attempt(id: nat, ordinal: int, status: AttemptStatus, serverUrl: Option<string>)

  datatype Record = Record(
    scope: Scope, operation: nat, draft: Draft, request: HttpRequest, status: Status,
    attemptCount: int, response: Option<HttpResponse>, attempts: seq<Attempt>)

  datatype Profile = Profile(deviceId: string, serverUrl: Option<string>)

  /** Record ids are 1, 2, ... in insertion order; rows are never deleted. */
  datatype Db = Db(profile: Profile, records: seq<Record>, nextAttemptId: nat)

  datatype StoreError =
    | InvalidScope | InvalidDraft | InvalidServerUrl | ServerUrlChangeBlocked
    | IdentityConflict | UnresolvedCommandExists
    | NotFound | ScopeMismatch | InvalidTransition | AttemptMismatch | CorruptRecord
    | NonRetryableHttpStatus | RetryableHttpStatus

  type Commit = Result<Db, StoreError>

  function BuildRequest(draft: Draft): Result<HttpRequest, StoreError> {
    if draft.wellFormed then Ok(HttpRequest(draft.operation, draft.content, draft.idempotencyKey))
    else Err(InvalidDraft)
  }

  /** 401, 408, 429 and every 5xx leave the outcome open. */
  predicate IsRetryableStatus(status: nat) {
    status == 401 || status == 408 || status == 429 || 500 <= status < 600
  }

  // ---------- Reading a record ----------

  predicate Decodes(r: Record) {
    && BuildRequest(r.draft) == Ok(r.request)
    && r.operation == r.draft.operation
    && (r.status.HasResponse() <==> r.response.Some?)
  }

  function Load(db: Db, id: int): Result<Record, StoreError> {
    if !(1 <= id <= |db.records|) then Err(NotFound)
    else if !Decodes(db.records[id - 1]) then Err(CorruptRecord)
    else Ok(db.records[id - 1])
  }

  function LoadScoped(db: Db, scope: Scope, id: int): Result<Record, StoreError> {
    if !scope.Valid() then Err(InvalidScope)
    else
      match Load(db, id)
      case Err(e) => Err(e)
      case Ok(r) => if r.scope == scope then Ok(r) else Err(ScopeMismatch)
  }

  predicate HasUnresolved(db: Db, deviceId: string) {
    exists i :: 0 <= i < |db.records| && db.records[i].scope.deviceId == deviceId && db.records[i].status.Unresolved()
  }

  predicate HasCommand(db: Db, commandId: string) {
    exists i :: 0 <= i < |db.records| && db.records[i].draft.commandId == commandId
  }

  predicate HasKey(db: Db, tenantId: int, operation: nat, key: string) {
    exists i :: 0 <= i < |db.records| && SameKey(db.records[i], tenantId, operation, key)
  }

  predicate SameKey(r: Record, tenantId: int, operation: nat, key: string) {
    r.scope.tenantId == tenantId && r.operation == operation && r.draft.idempotencyKey == key
  }

  // ---------- Transactions ----------

  function WithRecord(db: Db, id: int, r: Record): Db
    requires 1 <= id <= |db.records|
  {
    db.(records := db.records[id - 1 := r])
  }

  function NewRecord(scope: Scope, draft: Draft, request: HttpRequest): Record {
    Record(scope, draft.operation, draft, request, Persisted, 0, None, [])
  }

  /** The first record of a command id, or the number of records. */
  function Find(records: seq<Record>, commandId: string): (i: nat)
    ensures i <= |records|
    ensures i < |records| ==> records[i].draft.commandId == commandId
    ensures forall j :: 0 <= j < i ==> records[j].draft.commandId != commandId
  {
    if records == [] || records[0].draft.commandId == commandId then 0 else 1 + Find(records[1..], commandId)
  }

  function PersistTx(db: Db, scope: Scope, draft: Draft): Result<(Db, int), StoreError> {
    if !scope.Valid() then Err(InvalidScope)
    else
      match BuildRequest(draft)
      case Err(e) => Err(e)
      case Ok(request) =>
        var i := Find(db.records, draft.commandId);
        if i < |db.records| then
          match Load(db, i + 1)
          case Err(e) => Err(e)
          case Ok(r) =>
            if r.scope == scope && r.operation == draft.operation && r.draft == draft && r.request == request
            then Ok((db, i + 1)) else Err(IdentityConflict)
        else if HasUnresolved(db, scope.deviceId) then Err(UnresolvedCommandExists)
        else if HasKey(db, scope.tenantId, draft.operation, draft.idempotencyKey) then Err(IdentityConflict)
        else Ok((db.(records := db.records + [NewRecord(scope, draft, request)]), |db.records| + 1))
  }

  function Started(r: Record, attemptId: nat, serverUrl: Option<string>): Record {
    r.(status := Dispatching, attemptCount := r.attemptCount + 1,
       attempts := r.attempts + [Attempt(attemptId, r.attemptCount + 1, InDispatch, serverUrl)])
  }

  function BeginTx(db: Db, scope: Scope, id: int): Commit {
    match LoadScoped(db, scope, id)
    case Err(e) => Err(e)
    case Ok(r) =>
      if !(r.status.Persisted? || r.status.Ambiguous? || r.status.Retryable?) then Err(InvalidTransition)
      else if r.attemptCount >= I64_MAX then Err(CorruptRecord)
      else
        var started := Started(r, db.nextAttemptId, db.profile.serverUrl);
        Ok(WithRecord(db, id, started).(nextAttemptId := db.nextAttemptId + 1))
  }

  predicate IsActive(attempts: seq<Attempt>, attemptId: nat) {
    exists i :: 0 <= i < |attempts| && attempts[i].id == attemptId && attempts[i].status.InDispatch?
  }

  function Close(attempts: seq<Attempt>, attemptId: nat, status: AttemptStatus): (closed: seq<Attempt>)
    ensures |closed| == |attempts|
  {
    seq(|attempts|, i requires 0 <= i < |attempts| =>
      if attempts[i].id == attemptId && attempts[i].status.InDispatch? then attempts[i].(status := status)
      else attempts[i])
  }

  /** The shared end of a dispatch: the named attempt must be the one in flight. */
  function EndTx(db: Db, scope: Scope, id: int, attemptId: nat, to: Status, attemptStatus: AttemptStatus,
      response: Option<HttpResponse>): Commit
  {
    match LoadScoped(db, scope, id)
    case Err(e) => Err(e)
    case Ok(r) =>
      if !r.status.Dispatching? then Err(InvalidTransition)
      else if !IsActive(r.attempts, attemptId) then Err(AttemptMismatch)
      else Ok(WithRecord(db, id, r.(status := to, attempts := Close(r.attempts, attemptId, attemptStatus),
                                    response := if response.Some? then response else r.response)))
  }

  function AmbiguousTx(db: Db, scope: Scope, id: int, attemptId: nat): Commit {
    EndTx(db, scope, id, attemptId, Ambiguous, WasAmbiguous, None)
  }

  function ResponseTx(db: Db, scope: Scope, id: int, attemptId: nat, response: HttpResponse): Commit {
    if !scope.Valid() then Err(InvalidScope)
    else if IsRetryableStatus(response.status) then Err(RetryableHttpStatus)
    else EndTx(db, scope, id, attemptId, ResponseRecorded, Responded, Some(response))
  }

  function RetryableTx(db: Db, scope: Scope, id: int, attemptId: nat, response: HttpResponse): Commit {
    if !scope.Valid() then Err(InvalidScope)
    else if !IsRetryableStatus(response.status) then Err(NonRetryableHttpStatus)
    else EndTx(db, scope, id, attemptId, Retryable, WasRetryable, None)
  }

  function FinalizeTx(db: Db, scope: Scope, id: int, status: Status): Commit {
    if !scope.Valid() then Err(InvalidScope)
    else if !status.Final() then Err(InvalidTransition)
    else
      match LoadScoped(db, scope, id)
      case Err(e) => Err(e)
      case Ok(r) => if !r.status.ResponseRecorded? then Err(InvalidTransition)
        else Ok(WithRecord(db, id, r.(status := status)))
  }

  /** `url` is the outcome of normalising what the operator typed. */
  function SetServerUrlTx(db: Db, url: Result<Option<string>, StoreError>): Commit {
    match url
    case Err(_) => Err(InvalidServerUrl)
    case Ok(serverUrl) =>
      if db.profile.serverUrl == serverUrl then Ok(db)
      else if HasUnresolved(db, db.profile.deviceId) then Err(ServerUrlChangeBlocked)
      else Ok(db.(profile := db.profile.(serverUrl := serverUrl)))
  }

  function Interrupted(r: Record): Record {
    r.(status := if r.status.Dispatching? then Ambiguous else r.status,
       attempts := seq(|r.attempts|, i requires 0 <= i < |r.attempts| =>
         if r.attempts[i].status.InDispatch? then r.attempts[i].(status := WasAmbiguous) else r.attempts[i]))
  }

  /** Opening the database: whatever was in flight is now of unknown outcome. */
  function Reopened(db: Db): (reopened: Db)
    ensures |reopened.records| == |db.records|
  {
    db.(records := seq(|db.records|, i requires 0 <= i < |db.records| => Interrupted(db.records[i])))
  }
}
