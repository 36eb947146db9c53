/** The putaway and relocation workflow of the handheld: scans in order, then one durable command at a time. */
module MovementWorkflow {
  import opened Common
  import opened DurableLane
  import Text

  datatype Operation = Putaway | Relocation

  datatype Kind = Loose | LicensePlate

  datatype Work = LooseWork | PlateWork(barcode: string) {
    function Kind(): Kind {
      if LooseWork? then Loose else LicensePlate
    }
  }

  /** `source` is None when the task has no source location or its location has no barcode. */
  datatype Claim = Claim(operation: Operation, taskId: int, source: Option<string>, destination: Option<string>,
    work: Work, policy: int)

  datatype Command =
    | ClaimNext(kind: Kind)
    | ClaimById(taskId: int)
    | ConfirmLoose(taskId: int, destination: string)
    | ConfirmLicensePlate(taskId: int, plate: string, destination: string)
    | Release(taskId: int, reason: int, note: Option<string>)
  {
    predicate Confirms() {
      ConfirmLoose? || ConfirmLicensePlate?
    }
  }

  /** A putaway command also states the policy it expects the server to apply. */
  datatype Draft = Draft(commandId: string, idempotencyKey: string, operation: Operation, command: Command,
    policy: Option<int>)

  datatype Outcome =
    | Claimed(operation: Operation, claim: Option<Claim>)
    | Confirmed(operation: Operation, taskId: int)
    | Released(operation: Operation, taskId: int)
    | OtherOutcome

  datatype ScanStage = Source | Plate | Destination

  datatype Scan = Scan(stage: ScanStage, barcode: string)

  const PRODUCT_DEFAULT_POLICY := 0
  const OTHER_REASON := 0

  /** The scans a claim asks for before its destination, in order, with the barcodes they must show. */
  function Required(claim: Claim): seq<Scan> {
    (if claim.source.Some? then [Scan(Source, claim.source.value)] else [])
      + (if claim.work.PlateWork? then [Scan(Plate, claim.work.barcode)] else [])
  }

  /** A command leaving the workflow, with the claim and the scans it leaves on. */
  datatype Emission = Emission(draft: Draft, claim: Option<Claim>, evidence: seq<Scan>)

  /** A confirmation names its claim's task, barcodes and policy, and every required scan came before it, in order. */
  predicate Justified(e: Emission) {
    e.draft.command.Confirms() ==>
      && e.claim.Some?
      && e.evidence == Required(e.claim.value)
      && e.draft.operation == e.claim.value.operation
      && (e.draft.operation.Putaway? ==> e.draft.policy == Some(e.claim.value.policy))
      && e.draft.command.taskId == e.claim.value.taskId
      && Some(e.draft.command.destination) == e.claim.value.destination
      && (e.claim.value.work.PlateWork? <==> e.draft.command.ConfirmLicensePlate?)
      && (e.draft.command.ConfirmLicensePlate? ==> e.draft.command.plate == e.claim.value.work.barcode)
  }

  function Drafts(emissions: seq<Emission>): seq<Draft> {
    if emissions == [] then []
    else Drafts(emissions[..|emissions| - 1]) + [emissions[|emissions| - 1].draft]
  }

  lemma DraftsAppend(emissions: seq<Emission>, e: Emission)
    ensures Drafts(emissions + [e]) == Drafts(emissions) + [e.draft]
  {
    assert (emissions + [e])[..|emissions|] == emissions;
  }

  /** The draft under way, if any. */
  function Pending(lane: Lane<Draft>): seq<Draft> {
    if lane.Empty? then [] else [lane.draft]
  }

  predicate OutcomeMatches(draft: Draft, outcome: Outcome) {
    match outcome
    case Claimed(operation, claim) =>
      && draft.operation == operation
      && (|| draft.command.ClaimNext?
          || (draft.command.ClaimById? && claim.Some? && claim.value.taskId == draft.command.taskId))
    case Confirmed(operation, taskId) =>
      draft.operation == operation && draft.command.Confirms() && draft.command.taskId == taskId
    case Released(operation, taskId) =>
      draft.operation == operation && draft.command.Release? && draft.command.taskId == taskId
    case OtherOutcome => false
  }

  /** From the command's side: which outcomes answer it. */
  lemma AnsweredExactlyBy(draft: Draft, outcome: Outcome)
    ensures draft.command.Confirms() ==>
      (OutcomeMatches(draft, outcome) <==> outcome == Confirmed(draft.operation, draft.command.taskId))
    ensures draft.command.Release? ==>
      (OutcomeMatches(draft, outcome) <==> outcome == Released(draft.operation, draft.command.taskId))
    ensures draft.command.ClaimNext? ==>
      (OutcomeMatches(draft, outcome) <==> outcome.Claimed? && outcome.operation == draft.operation)
    ensures draft.command.ClaimById? ==>
      (OutcomeMatches(draft, outcome) <==>
         && outcome.Claimed? && outcome.operation == draft.operation
         && outcome.claim.Some? && outcome.claim.value.taskId == draft.command.taskId)
  {
  }

  predicate Blank(text: string) {
    Text.Trim(text) == ""
  }

  lemma BlankExactlyWhen(text: string)
    ensures Blank(text) <==> Text.AllSpace(text)
  {
    Text.EmptyExactlyWhen(text);
  }

  /** The note a release carries: trimmed, and none at all when nothing is left of it. */
  function Noted(note: Option<string>): Option<string> {
    if note.Some? && !Blank(note.value) then Some(Text.Trim(note.value)) else None
  }

  class MovementWorkflow {
    var operation: Operation
    var selectedKind: Kind
    var claim: Option<Claim>
    var lane: Lane<Draft>
    var sourceVerified: bool
    var plateScan: Option<string>
    var reconcile: bool
    /** The scans accepted for the current claim, every command ever emitted, and those an answer has ended. */
    ghost var evidence: seq<Scan>
    ghost var emitted: seq<Emission>
    ghost var settled: seq<Draft>

    /**
     Every command emitted was ended by its own outcome or rejection, in the order of emission, except the last one if
     it is still under way: no call drops, replaces or alters a command.
     */
    ghost predicate EveryCommandKept()
      reads this
    {
      Drafts(emitted) == settled + Pending(lane)
    }

    ghost predicate Valid()
      reads this
    {
      && (claim.None? ==> evidence == [] && !sourceVerified && plateScan.None?)
      && (claim.Some? ==>
            && claim.value.operation == operation
            && evidence <= Required(claim.value)
            && (sourceVerified ==> claim.value.source.Some?)
            && (plateScan.Some? ==> claim.value.work.PlateWork? && plateScan.value == claim.value.work.barcode)
            && (plateScan.Some? && claim.value.source.Some? ==> sourceVerified)
            && |evidence| == (if sourceVerified then 1 else 0) + (if plateScan.Some? then 1 else 0))
      && (!lane.Empty? ==> lane.draft.operation == operation)
      && (!lane.Empty? && lane.draft.command.Confirms() ==>
            claim.Some? && Justified(Emission(lane.draft, claim, evidence)))
      && EveryCommandKept()
      && forall i :: 0 <= i < |emitted| ==> Justified(emitted[i])
    }

    predicate Idle()
      reads this
    {
      !reconcile && lane.Empty? && claim.None?
    }

    predicate Active()
      reads this
    {
      !reconcile && lane.Empty? && claim.Some?
    }

    constructor ()
      ensures Valid() && Idle() && emitted == [] && settled == []
    {
      operation, selectedKind, claim, lane := Putaway, Loose, None, Empty;
      sourceVerified, plateScan, reconcile := false, None, false;
      evidence, emitted, settled := [], [], [];
    }

    method SelectOperation(chosen: Operation)
      requires Valid()
      modifies this`operation
      ensures Valid()
      ensures operation == if Idle() then chosen else old(operation)
    {
      if Idle() {
        operation := chosen;
      }
    }

    method SelectKind(kind: Kind)
      requires Valid()
      modifies this`selectedKind
      ensures Valid()
      ensures selectedKind == if Idle() then kind else old(selectedKind)
    {
      if Idle() {
        selectedKind := kind;
      }
    }

    function ExpectedScan(): Option<ScanStage>
      reads this
    {
      if !Active() then None
      else if claim.value.source.Some? && !sourceVerified then Some(Source)
      else if claim.value.work.PlateWork? && plateScan.None? then Some(Plate)
      else Some(Destination)
    }

    function PolicyFor(): Option<int>
      reads this
    {
      if operation.Relocation? then None
      else Some(if claim.Some? && claim.value.operation.Putaway? then claim.value.policy else PRODUCT_DEFAULT_POLICY)
    }

    /** Puts a command under way, unless its identity is blank; a justified one in a free lane keeps `Valid`. */
    method BeginCommand(commandId: string, idempotencyKey: string, command: Command) returns (effect: Option<Draft>)
      modifies this`lane, this`emitted
      ensures
        (&& old(Valid()) && old(lane.Empty?)
         && Justified(Emission(Draft(commandId, idempotencyKey, operation, command, PolicyFor()), claim, evidence))) ==>
        Valid()
      ensures effect.Some? <==> !Blank(commandId) && !Blank(idempotencyKey)
      ensures effect.Some? ==>
        && effect.value == Draft(commandId, idempotencyKey, operation, command, PolicyFor())
        && lane == Persisting(effect.value)
        && emitted == old(emitted) + [Emission(effect.value, claim, evidence)]
      ensures effect.None? ==> lane == old(lane) && emitted == old(emitted)
    {
      hide Drafts, Required, Blank;
      if Blank(commandId) || Blank(idempotencyKey) {
        return None;
      }
      var draft := Draft(commandId, idempotencyKey, operation, command, PolicyFor());
      DraftsAppend(emitted, Emission(draft, claim, evidence));
      lane := Persisting(draft);
      emitted := emitted + [Emission(draft, claim, evidence)];
      return Some(draft);
    }

    method BeginClaimNext(commandId: string, idempotencyKey: string) returns (effect: Option<Draft>)
      requires Valid()
      modifies this`lane, this`emitted
      ensures Valid()
      ensures effect.Some? <==> old(Idle()) && !Blank(commandId) && !Blank(idempotencyKey)
      ensures effect.Some? ==>
        && effect.value == Draft(commandId, idempotencyKey, operation, ClaimNext(selectedKind),
                             if operation == Putaway then Some(PRODUCT_DEFAULT_POLICY) else None)
        && lane == Persisting(effect.value)
        && emitted == old(emitted) + [Emission(effect.value, claim, evidence)]
      ensures effect.None? ==> lane == old(lane) && emitted == old(emitted)
    {
      if !Idle() {
        return None;
      }
      effect := BeginCommand(commandId, idempotencyKey, ClaimNext(selectedKind));
    }

    method BeginClaimById(taskId: int, commandId: string, idempotencyKey: string) returns (effect: Option<Draft>)
      requires Valid()
      modifies this`lane, this`emitted
      ensures Valid()
      ensures effect.Some? <==> old(Idle()) && taskId > 0 && !Blank(commandId) && !Blank(idempotencyKey)
      ensures effect.Some? ==>
        && effect.value == Draft(commandId, idempotencyKey, operation, ClaimById(taskId),
                             if operation == Putaway then Some(PRODUCT_DEFAULT_POLICY) else None)
        && lane == Persisting(effect.value)
        && emitted == old(emitted) + [Emission(effect.value, claim, evidence)]
      ensures effect.None? ==> lane == old(lane) && emitted == old(emitted)
    {
      if !Idle() || taskId <= 0 {
        return None;
      }
      effect := BeginCommand(commandId, idempotencyKey, ClaimById(taskId));
    }

    /** The scan is the one expected now and shows the claim's barcode. */
    predicate Fits(stage: ScanStage, scanned: string)
      reads this
    {
      && ExpectedScan() == Some(stage) && scanned != ""
      && match stage
         case Source => claim.value.source == Some(scanned)
         case Plate => claim.value.work == PlateWork(scanned)
         case Destination => claim.value.destination == Some(scanned)
    }

    /** What confirms the claim at its destination: its task, its barcodes and its policy. */
    predicate Confirmation(draft: Draft, destination: string)
      reads this
    {
      && claim.Some?
      && draft.command ==
         (if claim.value.work == LooseWork then ConfirmLoose(claim.value.taskId, destination)
          else ConfirmLicensePlate(claim.value.taskId, claim.value.work.barcode, destination))
      && draft.operation == claim.value.operation
      && draft.policy == (if claim.value.operation == Putaway then Some(claim.value.policy) else None)
    }

    /** The claim's destination was scanned after everything else it asks for. */
    method Confirm(scanned: string, commandId: string, idempotencyKey: string) returns (effect: Option<Draft>)
      requires Valid() && ExpectedScan() == Some(Destination) && claim.value.destination == Some(scanned)
      modifies this`lane, this`emitted
      ensures Valid() && evidence == Required(claim.value)
      ensures effect.Some? <==> !Blank(commandId) && !Blank(idempotencyKey)
      ensures effect.Some? ==>
        && effect.value.commandId == commandId && effect.value.idempotencyKey == idempotencyKey
        && Confirmation(effect.value, scanned) && lane == Persisting(effect.value)
        && emitted == old(emitted) + [Emission(effect.value, claim, evidence)]
      ensures effect.None? ==> lane == old(lane) && emitted == old(emitted)
    {
      hide Drafts, Blank;
      var command := if claim.value.work.LooseWork? then ConfirmLoose(claim.value.taskId, scanned)
                     else ConfirmLicensePlate(claim.value.taskId, plateScan.value, scanned);
      effect := BeginCommand(commandId, idempotencyKey, command);
    }

    /** A confirmation leaves only on the destination scan, once every required scan has been accepted. */
    method SubmitScan(text: string, commandId: string, idempotencyKey: string) returns (effect: Option<Draft>)
      requires Valid()
      modifies this`sourceVerified, this`plateScan, this`evidence, this`lane, this`emitted
      ensures Valid()
      ensures effect.Some? <==> old(Fits(Destination, Text.Trim(text))) && !Blank(commandId) && !Blank(idempotencyKey)
      ensures effect.Some? ==>
        && effect.value.commandId == commandId && effect.value.idempotencyKey == idempotencyKey
        && effect.value.command.Confirms() && lane == Persisting(effect.value)
        && evidence == Required(claim.value) && emitted == old(emitted) + [Emission(effect.value, claim, evidence)]
      ensures effect.Some? ==>
        && Some(Text.Trim(text)) == claim.value.destination && Confirmation(effect.value, Text.Trim(text))
        && (claim.value.source.Some? ==> Scan(Source, claim.value.source.value) in evidence)
        && (claim.value.work.PlateWork? ==> Scan(Plate, claim.value.work.barcode) in evidence)
        && (claim.value.source.Some? && claim.value.work.PlateWork? ==>
              evidence == [Scan(Source, claim.value.source.value), Scan(Plate, claim.value.work.barcode)])
      ensures effect.None? ==> lane == old(lane) && emitted == old(emitted)
      ensures evidence == old(evidence)
        + (if old(Fits(Source, Text.Trim(text))) then [Scan(Source, Text.Trim(text))] else [])
        + (if old(Fits(Plate, Text.Trim(text))) then [Scan(Plate, Text.Trim(text))] else [])
    {
      hide Drafts, Text.Trim, Blank;
      var stage := ExpectedScan();
      if stage.None? {
        return None;
      }
      var scanned := Text.Trim(text);
      if scanned == "" {
        return None;
      }
      match stage.value {
        case Source =>
          if claim.value.source == Some(scanned) {
            sourceVerified := true;
            evidence := evidence + [Scan(Source, scanned)];
          }
          return None;
        case Plate =>
          if claim.value.work.barcode == scanned {
            plateScan := Some(scanned);
            evidence := evidence + [Scan(Plate, scanned)];
          }
          return None;
        case Destination =>
          if claim.value.destination != Some(scanned) {
            return None;
          }
          effect := Confirm(scanned, commandId, idempotencyKey);
      }
    }

    method BeginRelease(commandId: string, idempotencyKey: string, reason: int, note: Option<string>)
      returns (effect: Option<Draft>)
      requires Valid()
      modifies this`lane, this`emitted
      ensures Valid()
      ensures effect.Some? <==>
        (&& old(Active()) && (reason == OTHER_REASON ==> note.Some? && Text.Trim(note.value) != "")
         && (note.Some? ==> |Text.Trim(note.value)| <= 500)
         && !Blank(commandId) && !Blank(idempotencyKey))
      ensures effect.Some? ==>
        && effect.value.command.Release?
        && effect.value == Draft(commandId, idempotencyKey, operation,
                             Release(claim.value.taskId, reason, effect.value.command.note),
                             if operation == Putaway then Some(claim.value.policy) else None)
        && (note.None? || Text.Trim(note.value) == "" ==> effect.value.command.note == None)
        && (note.Some? && Text.Trim(note.value) != "" ==> effect.value.command.note == Some(Text.Trim(note.value)))
        && lane == Persisting(effect.value)
        && emitted == old(emitted) + [Emission(effect.value, claim, evidence)]
      ensures effect.None? ==> lane == old(lane) && emitted == old(emitted)
    {
      if !Active() {
        return None;
      }
      var trimmed := Noted(note);
      if reason == OTHER_REASON && trimmed.None? {
        return None;
      }
      if trimmed.Some? && |trimmed.value| > 500 {
        return None;
      }
      effect := BeginCommand(commandId, idempotencyKey, Release(claim.value.taskId, reason, trimmed));
    }

    method CommandPersisted(commandId: string, recordId: int) returns (dispatch: bool)
      requires Valid()
      modifies this`lane
      ensures Valid()
      ensures dispatch <==> old(lane.Persisting? && lane.draft.commandId == commandId && recordId > 0)
      ensures lane == Next(old(lane), Stored(recordId, old(lane.Persisting? && lane.draft.commandId == commandId)))
    {
      if !lane.Persisting? || lane.draft.commandId != commandId || recordId <= 0 {
        return false;
      }
      lane := Ready(recordId, lane.draft);
      return true;
    }

    method DispatchStarted(recordId: int)
      requires Valid()
      modifies this`lane
      ensures Valid()
      ensures lane == Next(old(lane), Started(recordId))
    {
      if lane.Ready? && lane.recordId == recordId {
        lane := InFlight(recordId, lane.draft);
      }
    }

    method DispatchAmbiguous(recordId: int)
      requires Valid()
      modifies this`lane
      ensures Valid()
      ensures lane == Next(old(lane), Lost(recordId))
    {
      if lane.InFlight? && lane.recordId == recordId {
        lane := Ambiguous(recordId, lane.draft);
      }
    }

    method RetryAmbiguous() returns (dispatch: bool)
      requires Valid()
      modifies this`lane
      ensures Valid()
      ensures dispatch <==> old(lane.Ambiguous?)
      ensures lane == Next(old(lane), Retried)
    {
      if !lane.Ambiguous? {
        return false;
      }
      lane := Ready(lane.recordId, lane.draft);
      return true;
    }

    method ResetScans()
      modifies this`sourceVerified, this`plateScan, this`evidence
      ensures !sourceVerified && plateScan.None? && evidence == []
    {
      sourceVerified, plateScan := false, None;
      evidence := [];
    }

    /** The claim an outcome installs, or None when it must be reconciled instead. */
    function Installed(outcome: Outcome): Option<Option<Claim>>
      reads this
    {
      match outcome
      case Claimed(_, claim) =>
        if claim.Some? && (claim.value.operation != operation || claim.value.work.Kind() != selectedKind) then None
        else Some(claim)
      case _ => Some(None)
    }

    /**
     Only a matching outcome of the record in flight empties the lane; a conflicting one stops the workflow with the
     command still in it.
     */
    method OutcomeRecorded(recordId: int, outcome: Outcome)
      requires Valid()
      modifies this`lane, this`claim, this`sourceVerified, this`plateScan, this`evidence, this`reconcile,
        this`settled
      ensures Valid()
      ensures settled == old(settled) + if lane.Empty? then old(Pending(lane)) else []
      ensures old(lane.Awaits(recordId)) ==>
        (lane.Empty? <==>
           && OutcomeMatches(old(lane.draft), outcome)
           && (outcome.Claimed? && outcome.claim.Some? ==>
                 && outcome.claim.value.operation == operation
                 && (outcome.claim.value.work == LooseWork <==> selectedKind == Loose)))
      ensures old(lane.Awaits(recordId)) && lane.Empty? ==> claim == if outcome.Claimed? then outcome.claim else None
      ensures lane == Next(old(lane), Settled(recordId,
        old(lane.Awaits(recordId) && OutcomeMatches(lane.draft, outcome) && Installed(outcome).Some?)))
      ensures !old(lane.Awaits(recordId)) ==> lane == old(lane) && claim == old(claim) && reconcile == old(reconcile)
      ensures old(lane.Awaits(recordId) && !(OutcomeMatches(lane.draft, outcome) && Installed(outcome).Some?)) ==>
        reconcile && lane == old(lane) && claim == old(claim)
      ensures old(lane.Awaits(recordId) && OutcomeMatches(lane.draft, outcome) && Installed(outcome).Some?) ==>
        lane.Empty? && claim == old(Installed(outcome).value) && evidence == [] && reconcile == old(reconcile)
    {
      hide Drafts, Required;
      if !lane.Awaits(recordId) {
        return;
      }
      if lane.draft.operation != operation || !OutcomeMatches(lane.draft, outcome) {
        reconcile := true;
        return;
      }
      if outcome.Claimed? {
        if outcome.claim.Some? && outcome.claim.value.operation != operation {
          reconcile := true;
          return;
        }
        if outcome.claim.Some? && outcome.claim.value.work.Kind() != selectedKind {
          reconcile := true;
          return;
        }
        claim := outcome.claim;
      } else {
        claim := None;
      }
      ResetScans();
      settled := settled + [lane.draft];
      lane := Empty;
    }

    /** A rejection frees the lane but keeps the claim and its scans. */
    method RejectionRecorded(recordId: int)
      requires Valid()
      modifies this`lane, this`settled
      ensures Valid()
      ensures settled == old(settled) + if lane.Empty? then old(Pending(lane)) else []
      ensures lane == Next(old(lane), Settled(recordId, true))
    {
      if lane.Awaits(recordId) {
        settled := settled + [lane.draft];
        lane := Empty;
      }
    }

    method RequireReconciliation()
      requires Valid()
      modifies this`reconcile
      ensures Valid() && reconcile
    {
      reconcile := true;
    }
  }
}
