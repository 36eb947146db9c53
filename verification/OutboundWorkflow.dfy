/**
 The outbound-load workflow of the handheld: scans, one durable movement at a time, and the local copy of the load.
 */
module OutboundWorkflow {
  import opened Common
  import opened DurableLane
  import opened OutboundLoads
  import Text

  /** A movement's typed command, or the command of some other workflow. */
  datatype Command =
    | MoveCarton(expected: Expectation, source: string, carton: string, destination: string)
    | OtherCommand

  datatype Draft = Draft(commandId: string, idempotencyKey: string, command: Command)

  datatype Outcome = CartonMoved(result: MoveResult) | OtherOutcome

  datatype ScanStage = Source | CartonScan | Destination

  predicate OperationAllowed(load: OutboundLoad, operation: Operation) {
    && (match operation
        case Stage => load.status.Staging? || load.status.Loading?
        case Load => load.status.Loading?
        case Unload => load.status.Loading? || load.status.ReadyToDepart?
        case Unstage => load.status.Staging? || load.status.Loading?)
    && exists i :: 0 <= i < |load.cartons| && EligibleState(operation, load.cartons[i].state)
  }

  /** What a scan must equal, when the load decides it. */
  predicate ScanAccepted(load: OutboundLoad, operation: Operation, stage: ScanStage, scanned: string) {
    var atTrailer := load.trailerNumber.Some? && Text.EqualIgnoringCase(load.trailerNumber.value, scanned);
    var atStaging := Text.EqualIgnoringCase(load.stagingBarcode, scanned);
    match stage
    case Source =>
      (match operation case Load => atStaging case Unstage => atStaging case Unload => atTrailer case Stage => true)
    case CartonScan => MatchingCarton(load.cartons, operation, scanned) < |load.cartons|
    case Destination =>
      (match operation case Stage => atStaging case Unload => atStaging case Load => atTrailer case Unstage => true)
  }

  /** A carton with this barcode can be moved this way. */
  predicate Movable(carton: Carton, operation: Operation, scanned: string) {
    && Text.SameText(carton.barcode, scanned)
    && (operation == Stage ==> carton.state.Packed?)
    && (operation == Load || operation == Unstage ==> carton.state.Staged?)
    && (operation == Unload ==> carton.state.Loaded?)
  }

  /** The carton is the first one that can be moved this way under this barcode. */
  predicate FirstMovable(load: OutboundLoad, operation: Operation, scanned: string, i: nat) {
    && i < |load.cartons| && Movable(load.cartons[i], operation, scanned)
    && forall j :: 0 <= j < i ==> !Movable(load.cartons[j], operation, scanned)
  }

  /** Where a movement starts and ends: the staging location, the trailer, or anywhere for packed cartons. */
  predicate PlacesFit(load: OutboundLoad, operation: Operation, source: string, destination: string) {
    && (operation == Stage ==> Text.SameText(load.stagingBarcode, destination))
    && (operation == Load ==>
          && Text.SameText(load.stagingBarcode, source)
          && load.trailerNumber.Some? && Text.SameText(load.trailerNumber.value, destination))
    && (operation == Unload ==>
          && load.trailerNumber.Some? && Text.SameText(load.trailerNumber.value, source)
          && Text.SameText(load.stagingBarcode, destination))
    && (operation == Unstage ==> Text.SameText(load.stagingBarcode, source))
  }

  /** The scans the load accepts are those of a movable carton between the right places. */
  lemma AcceptedScansExactly(load: OutboundLoad, operation: Operation, source: string, carton: string,
      destination: string)
    ensures
      (ScanAccepted(load, operation, Source, source) && ScanAccepted(load, operation, Destination, destination)) <==>
      PlacesFit(load, operation, source, destination)
    ensures ScanAccepted(load, operation, CartonScan, carton) <==>
      exists i :: 0 <= i < |load.cartons| && Movable(load.cartons[i], operation, carton)
    ensures ScanAccepted(load, operation, CartonScan, carton) ==>
      FirstMovable(load, operation, carton, MatchingCarton(load.cartons, operation, carton))
  {
    Text.EqualExactlyWhen(load.stagingBarcode, source);
    Text.EqualExactlyWhen(load.stagingBarcode, destination);
    if load.trailerNumber.Some? {
      Text.EqualExactlyWhen(load.trailerNumber.value, source);
      Text.EqualExactlyWhen(load.trailerNumber.value, destination);
    }
    forall i | 0 <= i < |load.cartons|
      ensures EligibleCarton(load.cartons[i], operation, carton) <==> Movable(load.cartons[i], operation, carton)
    {
      Text.EqualExactlyWhen(load.cartons[i].barcode, carton);
    }
    hide Text.EqualIgnoringCase, Text.SameText;
  }

  /** An operation is offered exactly in these states of the load, with a carton to move. */
  lemma OfferedExactlyWhen(load: OutboundLoad, operation: Operation)
    ensures OperationAllowed(load, operation) <==>
      || (operation == Stage && load.status in {Staging, Loading} && exists c :: c in load.cartons && c.state.Packed?)
      || (operation == Load && load.status == Loading && exists c :: c in load.cartons && c.state.Staged?)
      || (operation == Unload && load.status in {Loading, ReadyToDepart}
          && exists c :: c in load.cartons && c.state.Loaded?)
      || (operation == Unstage && load.status in {Staging, Loading}
          && exists c :: c in load.cartons && c.state.Staged?)
  {
    forall i | 0 <= i < |load.cartons| ensures load.cartons[i] in load.cartons {
    }
  }

  function ScreenOrder(operation: Operation): nat {
    match operation case Stage => 0 case Load => 1 case Unload => 2 case Unstage => 3
  }

  class OutboundLoadWorkflow {
    var load: Option<OutboundLoad>
    var operation: Operation
    var lane: Lane<Draft>
    var sourceScan: Option<string>
    var cartonScan: Option<string>
    var destinationScan: Option<string>
    var reconcile: bool

    /** While a command is under way, the copy on screen is the very load its expectation was taken from. */
    predicate Valid()
      reads this
    {
      && (!lane.Empty? ==>
            && lane.draft.command.MoveCarton?
            && load == Some(lane.draft.command.expected.load)
            && operation == lane.draft.command.expected.operation)
      && (lane.Empty? ==>
            && (sourceScan.Some? ==> load.Some? && ScanAccepted(load.value, operation, Source, sourceScan.value))
            && (cartonScan.Some? ==> load.Some? && ScanAccepted(load.value, operation, CartonScan, cartonScan.value))
            && (destinationScan.Some? ==>
                  load.Some? && ScanAccepted(load.value, operation, Destination, destinationScan.value)))
    }

    /** The copy has unique carton ids and the movement under way started from an eligible carton. */
    predicate Sound()
      reads this
    {
      && (load.Some? ==> UniqueIds(load.value.cartons))
      && (!lane.Empty? && lane.draft.command.MoveCarton? ==> Grounded(lane.draft.command.expected))
    }

    predicate NoScans()
      reads this
    {
      sourceScan.None? && cartonScan.None? && destinationScan.None?
    }

    predicate Active()
      reads this
    {
      !reconcile && lane.Empty? && load.Some?
    }

    constructor ()
      ensures Valid() && Sound() && load.None? && lane.Empty? && !reconcile && NoScans() && operation == Stage
    {
      load, operation, lane, reconcile := None, Stage, Empty, false;
      sourceScan, cartonScan, destinationScan := None, None, None;
    }

    method ClearScans()
      modifies this`sourceScan, this`cartonScan, this`destinationScan
      ensures sourceScan.None? && cartonScan.None? && destinationScan.None?
    {
      sourceScan, cartonScan, destinationScan := None, None, None;
    }

    /** The first allowed operation in screen order, unless the current one is allowed. */
    method SelectFirstAvailable()
      requires load.Some? && lane.Empty? && sourceScan.None? && cartonScan.None? && destinationScan.None?
      modifies this`operation
      ensures OperationAllowed(load.value, old(operation)) ==> operation == old(operation)
      ensures OperationAllowed(load.value, operation) || operation == old(operation)
      ensures (exists o :: OperationAllowed(load.value, o)) ==> OperationAllowed(load.value, operation)
      ensures operation != old(operation) ==>
        forall o :: ScreenOrder(o) < ScreenOrder(operation) ==> !OperationAllowed(load.value, o)
    {
      if !OperationAllowed(load.value, operation) {
        var all := [Stage, Load, Unload, Unstage];
        var k := 0;
        while k < |all| && !OperationAllowed(load.value, all[k])
          invariant 0 <= k <= |all|
          invariant forall j :: 0 <= j < k ==> !OperationAllowed(load.value, all[j])
        {
          k := k + 1;
        }
        assert forall j :: 0 <= j < |all| ==> ScreenOrder(all[j]) == j;
        if k < |all| {
          forall o | ScreenOrder(o) < k ensures !OperationAllowed(load.value, o) {
            assert o == all[ScreenOrder(o)];
          }
          operation := all[k];
        } else {
          forall o ensures !OperationAllowed(load.value, o) {
            assert o == all[0] || o == all[1] || o == all[2] || o == all[3];
          }
        }
      }
    }

    method ResolveLoad(fetched: OutboundLoad)
      requires Valid()
      modifies this
      ensures Valid() && load == Some(fetched) && lane.Empty? && reconcile == old(reconcile) && NoScans()
      ensures OperationAllowed(fetched, old(operation)) ==> operation == old(operation)
      ensures (exists o :: OperationAllowed(fetched, o)) ==> OperationAllowed(fetched, operation)
      ensures UniqueIds(fetched.cartons) ==> Sound()
    {
      load := Some(fetched);
      lane := Empty;
      ClearScans();
      SelectFirstAvailable();
    }

    method ClearLoad()
      requires Valid()
      modifies this
      ensures Valid() && lane == old(lane) && reconcile == old(reconcile)
      ensures load == if old(Active()) then None else old(load)
      ensures operation == old(operation) && (old(Active()) ==> NoScans())
      ensures old(Sound()) ==> Sound()
    {
      if !Active() {
        return;
      }
      load := None;
      ClearScans();
    }

    method SelectOperation(chosen: Operation)
      requires Valid()
      modifies this
      ensures Valid() && load == old(load) && lane == old(lane) && reconcile == old(reconcile)
      ensures old(Sound()) ==> Sound()
      ensures operation == if old(Active() && OperationAllowed(load.value, chosen)) then chosen else old(operation)
      ensures old(Active() && OperationAllowed(load.value, chosen)) ==> NoScans()
    {
      if Active() && OperationAllowed(load.value, chosen) {
        operation := chosen;
        ClearScans();
      }
    }

    function ExpectedScan(): Option<ScanStage>
      reads this
    {
      if load.None? then None
      else if sourceScan.None? then Some(Source)
      else if cartonScan.None? then Some(CartonScan)
      else if destinationScan.None? then Some(Destination)
      else None
    }

    predicate Keeps(stage: ScanStage, text: string)
      reads this
    {
      && Active() && ExpectedScan() == Some(stage)
      && Text.Trim(text) != "" && ScanAccepted(load.value, operation, stage, Text.Trim(text))
    }

    /** A scan is kept only in its turn and only if the load accepts it. */
    method SubmitScan(text: string)
      requires Valid()
      modifies this
      ensures Valid() && load == old(load) && lane == old(lane) && operation == old(operation)
        && reconcile == old(reconcile)
      ensures old(sourceScan.None?) ==> cartonScan == old(cartonScan) && destinationScan == old(destinationScan)
      ensures old(cartonScan.None?) ==> destinationScan == old(destinationScan)
      ensures old(sourceScan.Some?) ==> sourceScan == old(sourceScan)
      ensures old(cartonScan.Some?) ==> cartonScan == old(cartonScan)
      ensures sourceScan == if old(Keeps(Source, text)) then Some(Text.Trim(text)) else old(sourceScan)
      ensures cartonScan == if old(Keeps(CartonScan, text)) then Some(Text.Trim(text)) else old(cartonScan)
      ensures destinationScan == if old(Keeps(Destination, text)) then Some(Text.Trim(text)) else old(destinationScan)
      ensures old(Sound()) ==> Sound()
    {
      if !Active() || ExpectedScan().None? {
        return;
      }
      var stage := ExpectedScan().value;
      var scanned := Text.Trim(text);
      if scanned == "" || !ScanAccepted(load.value, operation, stage, scanned) {
        return;
      }
      match stage {
        case Source => sourceScan := Some(scanned);
        case CartonScan => cartonScan := Some(scanned);
        case Destination => destinationScan := Some(scanned);
      }
    }

    /** A movement is emitted only with all three scans accepted, for a carton of the load that may move that way. */
    method BeginMovement(commandId: string, idempotencyKey: string) returns (draft: Option<Draft>)
      requires Valid()
      modifies this`lane
      ensures Valid()
      ensures draft.Some? <==> old(Active() && ExpectedScan().None?)
      ensures lane == if draft.Some? then Persisting(draft.value) else old(lane)
      ensures draft.Some? ==>
        && draft.value.command.MoveCarton?
        && draft.value.commandId == commandId && draft.value.idempotencyKey == idempotencyKey
        && var command := draft.value.command;
        && Some(command.expected.load) == load && command.expected.operation == operation
        && PlacesFit(command.expected.load, command.expected.operation, command.source, command.destination)
        && exists i :: 0 <= i < |command.expected.load.cartons|
             && FirstMovable(command.expected.load, command.expected.operation, command.carton, i)
             && command.expected.load.cartons[i].cartonId == command.expected.cartonId
      ensures old(Sound()) ==> Sound()
    {
      if !Active() || ExpectedScan().Some? {
        return None;
      }
      AcceptedScansExactly(load.value, operation, sourceScan.value, cartonScan.value, destinationScan.value);
      var i := MatchingCarton(load.value.cartons, operation, cartonScan.value);
      if i == |load.value.cartons| {
        return None;
      }
      var expected := Expectation(load.value, load.value.cartons[i].cartonId, operation);
      var emitted := Draft(commandId, idempotencyKey,
        MoveCarton(expected, sourceScan.value, cartonScan.value, destinationScan.value));
      lane := Persisting(emitted);
      return Some(emitted);
    }

    method CommandPersisted(commandId: string, recordId: int) returns (dispatch: bool)
      requires Valid()
      modifies this`lane
      ensures Valid() && (old(Sound()) ==> Sound())
      ensures dispatch <==> old(lane.Persisting? && lane.draft.commandId == commandId && recordId > 0)
      ensures lane == if dispatch then Ready(recordId, old(lane.draft)) else old(lane)
    {
      if !lane.Persisting? || lane.draft.commandId != commandId || recordId <= 0 {
        return false;
      }
      lane := Ready(recordId, lane.draft);
      return true;
    }

    method DispatchStarted(recordId: int)
      requires Valid()
      modifies this`lane
      ensures Valid() && (old(Sound()) ==> Sound())
      ensures lane ==
        if old(lane.Ready? && lane.recordId == recordId) then InFlight(recordId, old(lane.draft)) else old(lane)
    {
      if lane.Ready? && lane.recordId == recordId {
        lane := InFlight(recordId, lane.draft);
      }
    }

    method DispatchAmbiguous(recordId: int)
      requires Valid()
      modifies this`lane
      ensures Valid() && (old(Sound()) ==> Sound())
      ensures lane ==
        if old((lane.Ready? || lane.InFlight?) && lane.recordId == recordId) then Ambiguous(recordId, old(lane.draft))
        else old(lane)
    {
      if (lane.Ready? || lane.InFlight?) && lane.recordId == recordId {
        lane := Ambiguous(recordId, lane.draft);
      }
    }

    method RetryAmbiguous() returns (dispatch: bool)
      requires Valid()
      modifies this`lane
      ensures Valid() && (old(Sound()) ==> Sound())
      ensures dispatch <==> old(lane.Ambiguous?)
      ensures lane == if dispatch then Ready(old(lane.recordId), old(lane.draft)) else old(lane)
    {
      if !lane.Ambiguous? {
        return false;
      }
      lane := Ready(lane.recordId, lane.draft);
      return true;
    }

    /**
     A command read back after a restart brings its own load with it; `ambiguous` when it may already have been sent.
     */
    method Restore(recordId: int, draft: Draft, ambiguous: bool) returns (dispatch: bool)
      requires Valid()
      modifies this
      ensures Valid()
      ensures draft.command.MoveCarton? ==>
        && load == Some(draft.command.expected.load) && operation == draft.command.expected.operation
        && reconcile == old(reconcile)
        && lane == (if ambiguous then Ambiguous(recordId, draft) else Ready(recordId, draft))
      ensures draft.command.OtherCommand? ==> reconcile && lane == old(lane) && load == old(load)
      ensures dispatch <==> draft.command.MoveCarton? && !ambiguous
      ensures draft.command.MoveCarton? && Grounded(draft.command.expected) ==> Sound()
    {
      match draft.command {
        case OtherCommand =>
          reconcile := true;
          return false;
        case MoveCarton(expected, _, _, _) =>
          load := Some(expected.load);
          operation := expected.operation;
          lane := if ambiguous then Ambiguous(recordId, draft) else Ready(recordId, draft);
          return !ambiguous;
      }
    }

    predicate AcceptsOutcome(recordId: int, outcome: Outcome)
      reads this
    {
      && lane.Owns(recordId)
      && lane.draft.command.MoveCarton?
      && outcome.CartonMoved?
      && MovementMatches(lane.draft.command.expected, outcome.result)
    }

    /**
     An outcome that fits the saved expectation is applied to the copy, which then agrees with a
     recount; any other outcome stops the workflow and leaves the copy and the command alone.
     */
    method OutcomeRecorded(recordId: int, outcome: Outcome)
      requires Valid()
      modifies this
      ensures Valid() && (old(Sound()) ==> Sound())
      ensures !old(AcceptsOutcome(recordId, outcome)) ==> reconcile && lane == old(lane) && load == old(load)
      ensures old(AcceptsOutcome(recordId, outcome)) ==>
        && reconcile == old(reconcile) && lane.Empty? && NoScans()
        && load == Some(Applied(old(load.value), outcome.result))
        && (OperationAllowed(load.value, old(operation)) ==> operation == old(operation))
        && (old(Sound()) ==>
              && Agrees(load.value)
              && MovedAlongEdge(old(load.value), load.value, old(operation), outcome.result.movement.cartonId))
    {
      if !AcceptsOutcome(recordId, outcome) {
        reconcile := true;
        return;
      }
      var result := outcome.result;
      var copy := load.value;
      SoundCopy(copy, lane.draft.command.expected, result);
      var i := FirstWithId(copy.cartons, result.movement.cartonId);
      if i < |copy.cartons| {
        var carton := copy.cartons[i];
        carton := carton.(state := result.position.state);
        carton := carton.(revision := result.position.revision);
        carton := carton.(lastMovementId := Some(result.movement.movementId));
        copy := copy.(cartons := copy.cartons[i := carton]);
      }
      copy := copy.(status := result.status, revision := result.revision, progress := result.progress);
      load := Some(copy);
      lane := Empty;
      ClearScans();
      SelectFirstAvailable();
    }

    method RejectionRecorded(recordId: int)
      requires Valid()
      modifies this
      ensures Valid() && (old(Sound()) ==> Sound())
      ensures load == old(load) && reconcile == old(reconcile) && operation == old(operation)
      ensures lane == if old(lane.Owns(recordId)) then Empty else old(lane)
      ensures old(lane.Owns(recordId)) ==> NoScans()
    {
      if lane.Owns(recordId) {
        lane := Empty;
        ClearScans();
      }
    }
  }

  /** Only the named carton changed, by one revision, along an edge the operation allows. */
  predicate MovedAlongEdge(before: OutboundLoad, after: OutboundLoad, operation: Operation, id: int) {
    && |after.cartons| == |before.cartons|
    && forall j :: 0 <= j < |before.cartons| ==>
         if before.cartons[j].cartonId == id
         then FollowsEdge(operation, before.cartons[j].state, after.cartons[j].state)
              && after.cartons[j].revision == before.cartons[j].revision + 1
         else after.cartons[j] == before.cartons[j]
  }

  lemma SoundCopy(load: OutboundLoad, expected: Expectation, result: MoveResult)
    requires expected.load == load && MovementMatches(expected, result)
    ensures Grounded(expected) ==>
      && UniqueIds(Applied(load, result).cartons) && Agrees(Applied(load, result))
      && MovedAlongEdge(load, Applied(load, result), expected.operation, expected.cartonId)
  {
    if Grounded(expected) {
      UniqueIdsKeepTheCopyExact(expected, result, 0);
      GroundedFollowsEdge(expected, result);
      forall j | 0 <= j < |load.cartons|
        ensures load.cartons[j].cartonId == expected.cartonId ==> j == FirstWithId(load.cartons, expected.cartonId)
      {
      }
    }
  }
}
