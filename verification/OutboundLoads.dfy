/**
 Outbound loads as a handheld holds them: when a movement result fits the saved expectation, and what it does to the
 local copy.
 */
module OutboundLoads {
  import opened Common
  import Text

  const I64_MAX := 0x7FFF_FFFF_FFFF_FFFF

  datatype Operation = Stage | Load | Unload | Unstage

  datatype Position =
    | Packed(locationId: int)
    | Staged(stagedLoadId: int, stagingLocationId: int)
    | Loaded(loadedLoadId: int, loadSequence: nat)
    | Departed

  datatype Carton = Carton(
    outboundLoadCartonId: int, cartonId: int, barcode: string, shipmentId: int, sequence: nat,
    packedQuantity: int, state: Position, revision: int, lastMovementId: Option<int>)

  datatype Shipment = Shipment(shipmentId: int, ownerId: int)

  datatype Progress = Progress(plannedShipments: nat, plannedCartons: nat, staged: nat, loaded: nat)

  datatype LoadStatus = Planned | Staging | Loading | ReadyToDepart | Gone | Cancelled

  datatype OutboundLoad = OutboundLoad(
    loadId: int, facilityId: int, status: LoadStatus, revision: int, progress: Progress,
    stagingLocationId: int, stagingBarcode: string, trailerNumber: Option<string>,
    cartons: seq<Carton>, shipments: seq<Shipment>)

  datatype Expectation = Expectation(load: OutboundLoad, cartonId: int, operation: Operation)

  datatype Movement = Movement(
    movementId: int, loadId: int, outboundLoadCartonId: int, cartonId: int, kind: Operation,
    sourceLocationId: int, destinationLocationId: int, quantity: int, details: seq<int>)

  datatype CartonPosition = CartonPosition(
    cartonId: int, barcode: string, ownerId: int, facilityId: int, revision: int, contents: seq<int>, state: Position)

  datatype MoveResult = MoveResult(
    movement: Movement, position: CartonPosition, loadId: int, status: LoadStatus, revision: int, progress: Progress)

  // ---------- Searches and folds ----------

  /** The first carton with this id, or the number of cartons. */
  function FirstWithId(cartons: seq<Carton>, id: int): (i: nat)
    ensures i <= |cartons|
    ensures i < |cartons| ==> cartons[i].cartonId == id
    ensures forall j :: 0 <= j < i ==> cartons[j].cartonId != id
  {
    if cartons == [] || cartons[0].cartonId == id then 0 else 1 + FirstWithId(cartons[1..], id)
  }

  predicate EligibleState(operation: Operation, state: Position) {
    match operation
    case Stage => state.Packed?
    case Load => state.Staged?
    case Unload => state.Loaded?
    case Unstage => state.Staged?
  }

  predicate EligibleCarton(carton: Carton, operation: Operation, barcode: string) {
    Text.EqualIgnoringCase(carton.barcode, barcode) && EligibleState(operation, carton.state)
  }

  function MatchingCarton(cartons: seq<Carton>, operation: Operation, barcode: string): (i: nat)
    ensures i <= |cartons|
    ensures i < |cartons| ==> EligibleCarton(cartons[i], operation, barcode)
    ensures forall j :: 0 <= j < i ==> !EligibleCarton(cartons[j], operation, barcode)
  {
    if cartons == [] || EligibleCarton(cartons[0], operation, barcode) then 0
    else 1 + MatchingCarton(cartons[1..], operation, barcode)
  }

  function OwnerOf(shipments: seq<Shipment>, shipmentId: int): Option<int> {
    if shipments == [] then None
    else if shipments[0].shipmentId == shipmentId then Some(shipments[0].ownerId)
    else OwnerOf(shipments[1..], shipmentId)
  }

  function CheckedNext(revision: int): Option<int> {
    if revision < I64_MAX then Some(revision + 1) else None
  }

  /** A sum that gives up as soon as it leaves 64 bits. */
  function CheckedSum(quantities: seq<int>): Option<int> {
    if quantities == [] then Some(0)
    else
      match CheckedSum(quantities[..|quantities| - 1])
      case None => None
      case Some(total) =>
        var sum := total + quantities[|quantities| - 1];
        if -I64_MAX - 1 <= sum <= I64_MAX then Some(sum) else None
  }

  datatype Bucket = InStaging | InTrailer | Elsewhere

  function BucketOf(state: Position): Bucket {
    match state
    case Staged(_, _) => InStaging
    case Loaded(_, _) => InTrailer
    case _ => Elsewhere
  }

  /** How many cartons are in a bucket. */
  function Recount(cartons: seq<Carton>, bucket: Bucket): nat {
    if cartons == [] then 0
    else Recount(cartons[..|cartons| - 1], bucket) + if BucketOf(cartons[|cartons| - 1].state) == bucket then 1 else 0
  }

  function StagedAt(cartons: seq<Carton>): set<int> {
    set i | 0 <= i < |cartons| && cartons[i].state.Staged?
  }

  function LoadedAt(cartons: seq<Carton>): set<int> {
    set i | 0 <= i < |cartons| && cartons[i].state.Loaded?
  }

  lemma OneMoreCarton(cartons: seq<Carton>)
    requires cartons != []
    ensures var last, rest := |cartons| - 1, cartons[..|cartons| - 1];
      && last !in StagedAt(rest) && last !in LoadedAt(rest)
      && StagedAt(cartons) == (StagedAt(rest) + if cartons[last].state.Staged? then {last} else {})
      && LoadedAt(cartons) == (LoadedAt(rest) + if cartons[last].state.Loaded? then {last} else {})
  {
    var last, rest := |cartons| - 1, cartons[..|cartons| - 1];
    assert forall i :: 0 <= i < last ==> rest[i] == cartons[i];
  }

  /** The two buckets that are counted are the staged and the loaded cartons. */
  lemma {:induction false} RecountExactly(cartons: seq<Carton>)
    ensures Recount(cartons, InStaging) == |StagedAt(cartons)| && Recount(cartons, InTrailer) == |LoadedAt(cartons)|
  {
    if cartons != [] {
      RecountExactly(cartons[..|cartons| - 1]);
      OneMoreCarton(cartons);
      hide StagedAt, LoadedAt;
    }
  }

  /** The same count with every carton of the given id taken to be in the new state. */
  function ExpectedCount(cartons: seq<Carton>, id: int, state: Position, bucket: Bucket): nat {
    if cartons == [] then 0
    else
      var last := cartons[|cartons| - 1];
      ExpectedCount(cartons[..|cartons| - 1], id, state, bucket)
        + if BucketOf(if last.cartonId == id then state else last.state) == bucket then 1 else 0
  }

  // ---------- Matching a result ----------

  predicate StateMatches(operation: Operation, state: Position, load: OutboundLoad, carton: Carton) {
    match operation
    case Stage => state == Staged(load.loadId, load.stagingLocationId)
    case Unload => state == Staged(load.loadId, load.stagingLocationId)
    case Load => state == Loaded(load.loadId, carton.sequence)
    case Unstage => state.Packed?
  }

  /** Unloading a load that was ready to depart reopens it. */
  predicate Reopens(expected: Expectation) {
    expected.operation.Unload? && expected.load.status.ReadyToDepart?
  }

  predicate MovementMatches(expected: Expectation, result: MoveResult) {
    var load := expected.load;
    var i := FirstWithId(load.cartons, expected.cartonId);
    && i < |load.cartons|
    && var carton := load.cartons[i];
    && OwnerOf(load.shipments, carton.shipmentId) == Some(result.position.ownerId)
    && CheckedNext(carton.revision) == Some(result.position.revision)
    && result.loadId == load.loadId
    && result.movement.loadId == load.loadId
    && result.movement.outboundLoadCartonId == carton.outboundLoadCartonId
    && result.movement.cartonId == expected.cartonId
    && result.position.cartonId == expected.cartonId
    && result.position.barcode == carton.barcode
    && result.position.facilityId == load.facilityId
    && result.movement.kind == expected.operation
    && result.movement.quantity == carton.packedQuantity
    && result.movement.quantity > 0
    && result.movement.sourceLocationId != result.movement.destinationLocationId
    && result.movement.details != []
    && CheckedSum(result.movement.details) == Some(carton.packedQuantity)
    && result.position.contents != []
    && CheckedSum(result.position.contents) == Some(carton.packedQuantity)
    && StateMatches(expected.operation, result.position.state, load, carton)
    && (if Reopens(expected) then CheckedNext(load.revision) else Some(load.revision)) == Some(result.revision)
    && result.status == (if Reopens(expected) then Loading else load.status)
    && result.progress.plannedShipments == load.progress.plannedShipments
    && result.progress.plannedCartons == load.progress.plannedCartons
    && result.progress.staged == ExpectedCount(load.cartons, carton.cartonId, result.position.state, InStaging)
    && result.progress.loaded == ExpectedCount(load.cartons, carton.cartonId, result.position.state, InTrailer)
  }

  function Sum(quantities: seq<int>): int {
    if quantities == [] then 0 else Sum(quantities[..|quantities| - 1]) + quantities[|quantities| - 1]
  }

  /** No partial sum leaves 64 bits. */
  predicate SumsFit(quantities: seq<int>) {
    quantities != [] ==>
      && SumsFit(quantities[..|quantities| - 1])
      && -0x8000_0000_0000_0000 <= Sum(quantities) <= 0x7FFF_FFFF_FFFF_FFFF
  }

  lemma {:induction false} CheckedSumExactly(quantities: seq<int>)
    ensures CheckedSum(quantities) == if SumsFit(quantities) then Some(Sum(quantities)) else None
  {
    if quantities != [] {
      CheckedSumExactly(quantities[..|quantities| - 1]);
    }
  }

  lemma {:induction false} OwnerExactly(shipments: seq<Shipment>, shipmentId: int, k: nat)
    requires k < |shipments| && shipments[k].shipmentId == shipmentId
    requires forall j :: 0 <= j < k ==> shipments[j].shipmentId != shipmentId
    ensures OwnerOf(shipments, shipmentId) == Some(shipments[k].ownerId)
  {
    if k > 0 {
      OwnerExactly(shipments[1..], shipmentId, k - 1);
    }
  }

  /** The result is about this movement of this carton, and moves all of it from one place to another. */
  predicate SameMovement(expected: Expectation, carton: Carton, result: MoveResult) {
    && result.loadId == result.movement.loadId == expected.load.loadId
    && result.movement.cartonId == result.position.cartonId == carton.cartonId
    && result.movement.outboundLoadCartonId == carton.outboundLoadCartonId
    && result.movement.kind == expected.operation
    && result.position.barcode == carton.barcode && result.position.facilityId == expected.load.facilityId
    && OwnerOf(expected.load.shipments, carton.shipmentId) == Some(result.position.ownerId)
    && result.movement.quantity == carton.packedQuantity >= 1
    && result.movement.details != [] && SumsFit(result.movement.details)
    && Sum(result.movement.details) == carton.packedQuantity
    && result.position.contents != [] && SumsFit(result.position.contents)
    && Sum(result.position.contents) == carton.packedQuantity
    && result.movement.sourceLocationId != result.movement.destinationLocationId
  }

  /** Where the carton and the load are afterwards: one revision on for what changed, and in the place moved to. */
  predicate NewPosition(expected: Expectation, carton: Carton, result: MoveResult) {
    && result.position.revision == carton.revision + 1 <= 0x7FFF_FFFF_FFFF_FFFF
    && (expected.operation == Stage || expected.operation == Unload ==>
          result.position.state == Staged(expected.load.loadId, expected.load.stagingLocationId))
    && (expected.operation == Load ==> result.position.state == Loaded(expected.load.loadId, carton.sequence))
    && (expected.operation == Unstage ==> result.position.state.Packed?)
    && (if expected.operation == Unload && expected.load.status == ReadyToDepart
        then result.status == Loading && result.revision == expected.load.revision + 1 <= 0x7FFF_FFFF_FFFF_FFFF
        else result.status == expected.load.status && result.revision == expected.load.revision)
  }

  // ---------- Applying a result to the local copy ----------

  function Moved(carton: Carton, result: MoveResult): Carton {
    carton.(state := result.position.state, revision := result.position.revision,
      lastMovementId := Some(result.movement.movementId))
  }

  function Applied(load: OutboundLoad, result: MoveResult): OutboundLoad {
    var i := FirstWithId(load.cartons, result.movement.cartonId);
    load.(cartons := if i < |load.cartons| then load.cartons[i := Moved(load.cartons[i], result)] else load.cartons,
          status := result.status, revision := result.revision, progress := result.progress)
  }

  predicate UniqueIds(cartons: seq<Carton>) {
    forall i, j :: 0 <= i < j < |cartons| ==> cartons[i].cartonId != cartons[j].cartonId
  }

  /** The counters of the local copy equal a recount over its cartons. */
  predicate Agrees(load: OutboundLoad) {
    load.progress.staged == Recount(load.cartons, InStaging) && load.progress.loaded == Recount(load.cartons, InTrailer)
  }

  predicate AllIn(cartons: seq<Carton>, id: int, bucket: Bucket) {
    forall j :: 0 <= j < |cartons| && cartons[j].cartonId == id ==> BucketOf(cartons[j].state) == bucket
  }

  /**
   Counting the cartons of an id as moved exceeds a recount in the new bucket, and falls short elsewhere, by the cartons
   that did not move.
   */
  lemma {:induction false} CountsCompare(cartons: seq<Carton>, id: int, state: Position)
    ensures var b := BucketOf(state);
      && Recount(cartons, b) <= ExpectedCount(cartons, id, state, b)
      && (forall o :: o != b ==> ExpectedCount(cartons, id, state, o) <= Recount(cartons, o))
      && (AllIn(cartons, id, b) ==> forall o :: ExpectedCount(cartons, id, state, o) == Recount(cartons, o))
      && (!AllIn(cartons, id, b) ==> Recount(cartons, b) < ExpectedCount(cartons, id, state, b))
  {
    if cartons != [] {
      var rest := cartons[..|cartons| - 1];
      CountsCompare(rest, id, state);
      AllInLast(cartons, id, BucketOf(state));
    }
  }

  lemma AllInLast(cartons: seq<Carton>, id: int, bucket: Bucket)
    requires cartons != []
    ensures var last := cartons[|cartons| - 1];
      AllIn(cartons, id, bucket) <==>
        AllIn(cartons[..|cartons| - 1], id, bucket) && (last.cartonId == id ==> BucketOf(last.state) == bucket)
  {
    var rest := cartons[..|cartons| - 1];
    if AllIn(rest, id, bucket) && (cartons[|rest|].cartonId == id ==> BucketOf(cartons[|rest|].state) == bucket) {
      forall j | 0 <= j < |cartons| && cartons[j].cartonId == id ensures BucketOf(cartons[j].state) == bucket {
        assert j < |rest| ==> rest[j] == cartons[j];
      }
    }
    if AllIn(cartons, id, bucket) {
      forall j | 0 <= j < |rest| && rest[j].cartonId == id ensures BucketOf(rest[j].state) == bucket {
        assert rest[j] == cartons[j];
      }
    }
  }

  lemma {:induction false} BucketsPartition(cartons: seq<Carton>, id: int, state: Position)
    ensures Recount(cartons, InStaging) + Recount(cartons, InTrailer) + Recount(cartons, Elsewhere) == |cartons|
    ensures ExpectedCount(cartons, id, state, InStaging) + ExpectedCount(cartons, id, state, InTrailer)
      + ExpectedCount(cartons, id, state, Elsewhere) == |cartons|
  {
    if cartons != [] {
      BucketsPartition(cartons[..|cartons| - 1], id, state);
    }
  }

  lemma {:induction false} ExpectedIgnoresOldState(cartons: seq<Carton>, i: nat, c: Carton, state: Position,
      bucket: Bucket)
    requires i < |cartons| && c.cartonId == cartons[i].cartonId
    ensures ExpectedCount(cartons[i := c], c.cartonId, state, bucket) ==
      ExpectedCount(cartons, c.cartonId, state, bucket)
  {
    var u := cartons[i := c];
    if i < |cartons| - 1 {
      assert u[..|u| - 1] == cartons[..|cartons| - 1][i := c];
      ExpectedIgnoresOldState(cartons[..|cartons| - 1], i, c, state, bucket);
    } else {
      assert u[..|u| - 1] == cartons[..|cartons| - 1];
    }
  }

  /** No carton other than the first one of this id is anywhere but in the bucket. */
  predicate NoStray(cartons: seq<Carton>, id: int, bucket: Bucket) {
    forall j :: 0 <= j < |cartons| && j != FirstWithId(cartons, id) && cartons[j].cartonId == id ==>
      BucketOf(cartons[j].state) == bucket
  }

  /**
   After a matching result the counters agree with a recount exactly when every other carton of that id already was
   where the moved one now is.
   */
  lemma OutcomeAgreesWithRecount(expected: Expectation, result: MoveResult)
    requires MovementMatches(expected, result)
    ensures Agrees(Applied(expected.load, result)) <==>
      NoStray(expected.load.cartons, expected.cartonId, BucketOf(result.position.state))
  {
    var cartons := expected.load.cartons;
    var i := FirstWithId(cartons, expected.cartonId);
    var c := Moved(cartons[i], result);
    var u := cartons[i := c];
    var state := result.position.state;
    assert Applied(expected.load, result).cartons == u;
    ExpectedIgnoresOldState(cartons, i, c, state, InStaging);
    ExpectedIgnoresOldState(cartons, i, c, state, InTrailer);
    CountsCompare(u, expected.cartonId, state);
    BucketsPartition(u, expected.cartonId, state);
    assert AllIn(u, expected.cartonId, BucketOf(state)) <==> NoStray(cartons, expected.cartonId, BucketOf(state)) by {
      assert forall j :: 0 <= j < |u| && j != i ==> u[j] == cartons[j];
    }
  }

  /** With unique carton ids, a result is taken exactly when it is this movement, carried out and counted. */
  lemma MatchesExactlyWhen(expected: Expectation, result: MoveResult, j: nat)
    requires UniqueIds(expected.load.cartons) && j < |expected.load.cartons|
    requires expected.load.cartons[j].cartonId == expected.cartonId
    ensures var carton := expected.load.cartons[j];
      var cartons := expected.load.cartons[j := carton.(state := result.position.state)];
      MovementMatches(expected, result) <==>
        && SameMovement(expected, carton, result) && NewPosition(expected, carton, result)
        && result.progress == Progress(expected.load.progress.plannedShipments, expected.load.progress.plannedCartons,
             Recount(cartons, InStaging), Recount(cartons, InTrailer))
  {
    var carton := expected.load.cartons[j];
    var moved := carton.(state := result.position.state);
    var cartons := expected.load.cartons[j := moved];
    CheckedSumExactly(result.movement.details);
    CheckedSumExactly(result.position.contents);
    assert FirstWithId(expected.load.cartons, expected.cartonId) == j;
    ExpectedIgnoresOldState(expected.load.cartons, j, moved, moved.state, InStaging);
    ExpectedIgnoresOldState(expected.load.cartons, j, moved, moved.state, InTrailer);
    CountsCompare(cartons, expected.cartonId, moved.state);
    assert AllIn(cartons, expected.cartonId, BucketOf(moved.state)) by {
      assert forall k :: 0 <= k < |cartons| && k != j ==> cartons[k] == expected.load.cartons[k];
    }
    hide SumsFit, Sum, CheckedSum, Recount, ExpectedCount, OwnerOf, AllIn;
  }

  /** With unique carton ids the copy always agrees, and only the moved carton changed, its revision by one. */
  lemma UniqueIdsKeepTheCopyExact(expected: Expectation, result: MoveResult, j: nat)
    requires MovementMatches(expected, result) && UniqueIds(expected.load.cartons) && j < |expected.load.cartons|
    ensures var after := Applied(expected.load, result);
      && Agrees(after) && UniqueIds(after.cartons) && |after.cartons| == |expected.load.cartons|
      && (expected.load.cartons[j].cartonId != expected.cartonId ==> after.cartons[j] == expected.load.cartons[j])
      && (expected.load.cartons[j].cartonId == expected.cartonId ==>
            after.cartons[j] == expected.load.cartons[j].(state := result.position.state,
              revision := expected.load.cartons[j].revision + 1, lastMovementId := Some(result.movement.movementId)))
      && after == expected.load.(cartons := after.cartons, status := result.status, revision := result.revision,
           progress := result.progress)
  {
    OutcomeAgreesWithRecount(expected, result);
    var i := FirstWithId(expected.load.cartons, expected.cartonId);
    assert expected.load.cartons[j].cartonId == expected.cartonId ==> j == i;
  }

  lemma CountOfPair(a: Carton, b: Carton, id: int, state: Position, bucket: Bucket)
    requires a.cartonId == id && b.cartonId == id
    ensures ExpectedCount([a, b], id, state, bucket) == if BucketOf(state) == bucket then 2 else 0
  {
    assert [a, b][..1] == [a];
    assert [a][..0] == [];
    assert ExpectedCount([a], id, state, bucket) == if BucketOf(state) == bucket then 1 else 0;
  }

  /** Two cartons with one id: the result matches, yet the copy's counters miss the one that stayed. */
  lemma DuplicateIdsBreakTheCount()
    ensures exists expected: Expectation, result: MoveResult ::
      MovementMatches(expected, result) && !Agrees(Applied(expected.load, result))
  {
    var carton := Carton(1, 7, "C", 5, 0, 2, Packed(1), 1, None);
    var twin := carton.(outboundLoadCartonId := 2, barcode := "D");
    var load := OutboundLoad(44, 4, Staging, 1, Progress(1, 2, 0, 0), 101, "S", None, [carton, twin], [Shipment(5, 9)]);
    var state := Staged(44, 101);
    var expected := Expectation(load, 7, Stage);
    var result := MoveResult(Movement(3, 44, 1, 7, Stage, 1, 101, 2, [2]), CartonPosition(7, "C", 9, 4, 2, [2], state),
      44, Staging, 1, Progress(1, 2, 2, 0));
    assert FirstWithId(load.cartons, 7) == 0;
    assert [2][..0] == [] && CheckedSum([2]) == Some(2);
    CountOfPair(carton, twin, 7, state, InStaging);
    CountOfPair(carton, twin, 7, state, InTrailer);
    assert MovementMatches(expected, result);
    assert load.cartons[1] == twin;
    OutcomeAgreesWithRecount(expected, result);
  }

  /** The Packed - Staged - Loaded edges. */
  predicate FollowsEdge(operation: Operation, before: Position, after: Position) {
    match operation
    case Stage => before.Packed? && after.Staged?
    case Load => before.Staged? && after.Loaded?
    case Unload => before.Loaded? && after.Staged?
    case Unstage => before.Staged? && after.Packed?
  }

  /** The expectation was taken from an eligible carton of its load. */
  predicate Grounded(expected: Expectation) {
    && UniqueIds(expected.load.cartons)
    && exists i :: 0 <= i < |expected.load.cartons| && expected.load.cartons[i].cartonId == expected.cartonId
         && EligibleState(expected.operation, expected.load.cartons[i].state)
  }

  lemma GroundedFollowsEdge(expected: Expectation, result: MoveResult)
    requires MovementMatches(expected, result) && Grounded(expected)
    ensures var i := FirstWithId(expected.load.cartons, expected.cartonId);
      FollowsEdge(expected.operation, expected.load.cartons[i].state, Applied(expected.load, result).cartons[i].state)
  {
    var i := FirstWithId(expected.load.cartons, expected.cartonId);
    assert EligibleState(expected.operation, expected.load.cartons[i].state);
  }
}
