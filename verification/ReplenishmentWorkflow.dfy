/**
 The replenishment workflow of the handheld: five scans in order, a confirmation carrying them, and recovery after a
 restart.
 */
module ReplenishmentWorkflow {
  import opened Common
  import opened DurableLane
  import Text

  /** What the server is expected to have moved. */
  datatype Terms = Terms(
    planId: int, policyId: int, balanceId: int, batchId: int, itemId: int, uom: string, lot: Option<string>,
    serial: Option<string>, sourceLocationId: int, destinationLocationId: int, quantity: int)

  datatype Claim = Claim(
    workId: int, terms: Terms, sourceBarcode: string, itemBarcodes: seq<string>, destinationBarcode: string)

  datatype Command =
    | ClaimNext
    | ClaimById(workId: int)
    | Confirm(workId: int, expected: Terms, source: string, item: string, lot: Option<string>, serial: Option<string>,
      destination: string)
    | Release(workId: int)
    | OtherWorkflow

  datatype Draft = Draft(commandId: string, idempotencyKey: string, command: Command)

  datatype Outcome =
    | Claimed(claim: Option<Claim>)
    | Confirmed(workId: int, terms: Terms, confirmationId: int)
    | Released(workId: int)
    | OtherOutcome

  datatype ScanStage = SourceLocation | Item | Lot | Serial | DestinationPickFace

  datatype Scan = Scan(stage: ScanStage, barcode: string)

  predicate Shows(claim: Claim, scan: Scan) {
    match scan.stage
    case SourceLocation => scan.barcode == claim.sourceBarcode
    case Item => scan.barcode in claim.itemBarcodes
    case Lot => claim.terms.lot == Some(scan.barcode)
    case Serial => claim.terms.serial == Some(scan.barcode)
    case DestinationPickFace => scan.barcode == claim.destinationBarcode
  }

  /** The stages a claim goes through: a lot or a serial is asked for only if the claim names one. */
  function Stages(claim: Claim): seq<ScanStage> {
    [SourceLocation, Item]
      + (if claim.terms.lot.Some? then [Lot] else [])
      + (if claim.terms.serial.Some? then [Serial] else [])
      + [DestinationPickFace]
  }

  /** Accepted scans follow the claim's stages in order and show the claim's barcodes. */
  predicate Follows(evidence: seq<Scan>, claim: Claim) {
    && |evidence| <= |Stages(claim)|
    && forall i :: 0 <= i < |evidence| ==> evidence[i].stage == Stages(claim)[i] && Shows(claim, evidence[i])
  }

  /** The five scan slots of the screen. */
  datatype Scans = Scans(source: Option<string>, item: Option<string>, lot: Option<string>, serial: Option<string>,
    destination: Option<string>) {
    function InOrder(): seq<Scan> {
      (if source.Some? then [Scan(SourceLocation, source.value)] else [])
        + (if item.Some? then [Scan(Item, item.value)] else [])
        + (if lot.Some? then [Scan(Lot, lot.value)] else [])
        + (if serial.Some? then [Scan(Serial, serial.value)] else [])
        + (if destination.Some? then [Scan(DestinationPickFace, destination.value)] else [])
    }

    /** Each slot filled only after the ones before it, with what the claim shows. */
    predicate Fit(claim: Claim) {
      && (source.Some? ==> source.value == claim.sourceBarcode)
      && (item.Some? ==> source.Some? && item.value in claim.itemBarcodes)
      && (lot.Some? ==> item.Some? && lot == claim.terms.lot)
      && (serial.Some? ==> item.Some? && serial == claim.terms.serial && (claim.terms.lot.Some? ==> lot.Some?))
      && (destination.Some? ==>
            && item.Some? && destination.value == claim.destinationBarcode
            && (claim.terms.lot.Some? ==> lot.Some?) && (claim.terms.serial.Some? ==> serial.Some?))
    }
  }

  const NO_SCANS := Scans(None, None, None, None, None)

  /** Scans that fit follow the claim's stages; with a destination they are complete. */
  lemma CompleteScans(scans: Scans, claim: Claim)
    requires scans.Fit(claim) && scans.destination.Some?
    ensures Follows(scans.InOrder(), claim) && |scans.InOrder()| == |Stages(claim)|
    ensures scans.InOrder()[1].barcode == scans.item.value
  {
  }

  datatype Emission = Emission(draft: Draft, claim: Option<Claim>, evidence: seq<Scan>)

  /** A confirmation rests on a complete set of scans for its claim and carries that claim's barcodes and terms. */
  predicate Justified(e: Emission) {
    e.draft.command.Confirm? ==>
      && e.claim.Some?
      && Follows(e.evidence, e.claim.value) && |e.evidence| == |Stages(e.claim.value)|
      && e.draft.command.workId == e.claim.value.workId
      && e.draft.command.expected == e.claim.value.terms
      && e.draft.command.source == e.claim.value.sourceBarcode
      && e.draft.command.item == e.evidence[1].barcode && e.draft.command.item in e.claim.value.itemBarcodes
      && e.draft.command.lot == e.claim.value.terms.lot
      && e.draft.command.serial == e.claim.value.terms.serial
      && e.draft.command.destination == e.claim.value.destinationBarcode
  }

  /** A confirmation carries the claim's barcodes, each as it was scanned: source, item, lot, serial, destination. */
  predicate Carried(claim: Claim, command: Command, evidence: seq<Scan>) {
    && command.Confirm?
    && command.source == claim.sourceBarcode && command.destination == claim.destinationBarcode
    && command.item in claim.itemBarcodes && command.lot == claim.terms.lot && command.serial == claim.terms.serial
    && evidence == [Scan(SourceLocation, command.source), Scan(Item, command.item)]
         + (if command.lot.Some? then [Scan(Lot, command.lot.value)] else [])
         + (if command.serial.Some? then [Scan(Serial, command.serial.value)] else [])
         + [Scan(DestinationPickFace, command.destination)]
  }

  predicate OutcomeMatches(command: Command, outcome: Outcome) {
    match outcome
    case Claimed(claim) => command.ClaimNext?
      || (command.ClaimById? && claim.Some? && claim.value.workId == command.workId)
    case Confirmed(workId, terms, _) => command.Confirm? && workId == command.workId && terms == command.expected
    case Released(workId) => command.Release? && workId == command.workId
    case OtherOutcome => false
  }

  /** From the command's side: which outcomes answer it. */
  lemma AnsweredExactlyBy(command: Command, outcome: Outcome)
    ensures command.Confirm? ==>
      (OutcomeMatches(command, outcome) <==>
         outcome.Confirmed? && outcome.workId == command.workId && outcome.terms == command.expected)
    ensures command.Release? ==> (OutcomeMatches(command, outcome) <==> outcome == Released(command.workId))
    ensures command.ClaimNext? ==> (OutcomeMatches(command, outcome) <==> outcome.Claimed?)
    ensures command.ClaimById? ==>
      (OutcomeMatches(command, outcome) <==>
         outcome.Claimed? && outcome.claim.Some? && outcome.claim.value.workId == command.workId)
    ensures command.OtherWorkflow? ==> !OutcomeMatches(command, outcome)
  {
  }

  predicate Accepts(lane: Lane<Draft>, recordId: int, outcome: Outcome) {
    lane.Awaits(recordId) && OutcomeMatches(lane.draft.command, outcome)
  }

  predicate Blank(text: string) {
    Text.Trim(text) == ""
  }

  lemma BlankExactlyWhen(text: string)
    ensures Blank(text) <==> Text.AllSpace(text)
  {
    Text.EmptyExactlyWhen(text);
  }

  // ---------- Releasing ----------

  /** The lane after a release was asked for: it looks at the claim only, never at what is under way. */
  function ReleaseLane(lane: Lane<Draft>, claim: Option<Claim>, commandId: string, idempotencyKey: string)
    : Lane<Draft>
  {
    if claim.None? || Blank(commandId) || Blank(idempotencyKey) then lane
    else Persisting(Draft(commandId, idempotencyKey, Release(claim.value.workId)))
  }

  /**
   A release keeps the command under way exactly when nothing is claimed, its own identity is blank, or it is that very
   release waiting to be stored.
   */
  lemma ReleaseKeepsLaneExactlyWhen(lane: Lane<Draft>, claim: Option<Claim>, commandId: string, idempotencyKey: string)
    requires !lane.Empty?
    ensures ReleaseLane(lane, claim, commandId, idempotencyKey).Carries(lane) <==>
      || claim.None? || Blank(commandId) || Blank(idempotencyKey)
      || lane == Persisting(Draft(commandId, idempotencyKey, Release(claim.value.workId)))
  {
  }

  class ReplenishmentWorkflow {
    var claim: Option<Claim>
    var lane: Lane<Draft>
    var sourceScan: Option<string>
    var itemScan: Option<string>
    var lotScan: Option<string>
    var serialScan: Option<string>
    var destinationScan: Option<string>
    var reconcile: bool
    /** The scans accepted for the current claim, and every command ever emitted. */
    ghost var evidence: seq<Scan>
    ghost var emitted: seq<Emission>

    function Kept(): Scans
      reads this
    {
      Scans(sourceScan, itemScan, lotScan, serialScan, destinationScan)
    }

    ghost predicate Valid()
      reads this
    {
      && evidence == Kept().InOrder()
      && (claim.None? ==> Kept() == NO_SCANS)
      && (claim.Some? ==> Kept().Fit(claim.value))
      && forall i :: 0 <= i < |emitted| ==> Justified(emitted[i])
    }

    predicate Idle()
      reads this
    {
      !reconcile && lane.Empty? && claim.None?
    }

    predicate Active()
      reads this
    {
      !reconcile && lane.Empty? && claim.Some?
    }

    constructor ()
      ensures Valid() && Idle() && emitted == []
    {
      claim, lane, reconcile := None, Empty, false;
      sourceScan, itemScan, lotScan, serialScan, destinationScan := None, None, None, None, None;
      evidence, emitted := [], [];
    }

    function ExpectedScan(): Option<ScanStage>
      reads this
    {
      if claim.None? then None
      else if sourceScan.None? then Some(SourceLocation)
      else if itemScan.None? then Some(Item)
      else if claim.value.terms.lot.Some? && lotScan.None? then Some(Lot)
      else if claim.value.terms.serial.Some? && serialScan.None? then Some(Serial)
      else if destinationScan.None? then Some(DestinationPickFace)
      else None
    }

    method ResetScans()
      modifies this`sourceScan, this`itemScan, this`lotScan, this`serialScan, this`destinationScan, this`evidence
      ensures evidence == [] && Kept() == NO_SCANS
    {
      sourceScan, itemScan, lotScan, serialScan, destinationScan := None, None, None, None, None;
      evidence := [];
    }

    method Begin(command: Command, commandId: string, idempotencyKey: string) returns (effect: Option<Draft>)
      modifies this`lane, this`emitted
      ensures old(Valid()) && Justified(Emission(Draft(commandId, idempotencyKey, command), claim, evidence)) ==>
        Valid()
      ensures effect ==
        if Blank(commandId) || Blank(idempotencyKey) then None else Some(Draft(commandId, idempotencyKey, command))
      ensures effect.Some? ==>
        lane == Persisting(effect.value) && emitted == old(emitted) + [Emission(effect.value, claim, evidence)]
      ensures effect.None? ==> lane == old(lane) && emitted == old(emitted)
    {
      if Blank(commandId) || Blank(idempotencyKey) {
        return None;
      }
      var draft := Draft(commandId, idempotencyKey, command);
      lane := Persisting(draft);
      emitted := emitted + [Emission(draft, claim, evidence)];
      return Some(draft);
    }

    method BeginClaimNext(commandId: string, idempotencyKey: string) returns (effect: Option<Draft>)
      requires Valid()
      modifies this`lane, this`emitted
      ensures Valid()
      ensures effect.Some? <==> old(Idle()) && !Blank(commandId) && !Blank(idempotencyKey)
      ensures effect.Some? ==>
        && effect.value == Draft(commandId, idempotencyKey, ClaimNext) && lane == Persisting(effect.value)
        && emitted == old(emitted) + [Emission(effect.value, claim, evidence)]
      ensures effect.None? ==> lane == old(lane) && emitted == old(emitted)
    {
      if !Idle() {
        return None;
      }
      effect := Begin(ClaimNext, commandId, idempotencyKey);
    }

    method BeginClaimById(workId: int, commandId: string, idempotencyKey: string) returns (effect: Option<Draft>)
      requires Valid()
      modifies this`lane, this`emitted
      ensures Valid()
      ensures effect.Some? <==> old(Idle()) && workId > 0 && !Blank(commandId) && !Blank(idempotencyKey)
      ensures effect.Some? ==>
        && effect.value == Draft(commandId, idempotencyKey, ClaimById(workId)) && lane == Persisting(effect.value)
        && emitted == old(emitted) + [Emission(effect.value, claim, evidence)]
      ensures effect.None? ==> lane == old(lane) && emitted == old(emitted)
    {
      if workId <= 0 || !Idle() {
        return None;
      }
      effect := Begin(ClaimById(workId), commandId, idempotencyKey);
    }

    /** A scan is kept exactly when it is the one expected now and shows what the claim says. */
    method SubmitScan(text: string) returns (accepted: bool)
      requires Valid()
      modifies this`sourceScan, this`itemScan, this`lotScan, this`serialScan, this`destinationScan, this`evidence
      ensures Valid()
      ensures accepted <==>
        (&& old(Active() && ExpectedScan().Some?) && Text.Trim(text) != ""
         && Shows(claim.value, Scan(old(ExpectedScan().value), Text.Trim(text))))
      ensures evidence == old(evidence) + if accepted then [Scan(old(ExpectedScan().value), Text.Trim(text))] else []
    {
      if !Active() || ExpectedScan().None? {
        return false;
      }
      var stage := ExpectedScan().value;
      var scanned := Text.Trim(text);
      if scanned == "" || !Shows(claim.value, Scan(stage, scanned)) {
        return false;
      }
      match stage {
        case SourceLocation => sourceScan := Some(scanned);
        case Item => itemScan := Some(scanned);
        case Lot => lotScan := Some(scanned);
        case Serial => serialScan := Some(scanned);
        case DestinationPickFace => destinationScan := Some(scanned);
      }
      evidence := evidence + [Scan(stage, scanned)];
      return true;
    }

    /** A confirmation leaves only when no scan is missing. */
    method BeginConfirmation(commandId: string, idempotencyKey: string) returns (effect: Option<Draft>)
      requires Valid()
      modifies this`lane, this`emitted
      ensures Valid()
      ensures effect.Some? <==> old(Active() && ExpectedScan().None?) && !Blank(commandId) && !Blank(idempotencyKey)
      ensures effect.Some? ==>
        && effect.value.commandId == commandId && effect.value.idempotencyKey == idempotencyKey
        && effect.value.command.Confirm? && lane == Persisting(effect.value)
        && effect.value.command.workId == claim.value.workId && effect.value.command.expected == claim.value.terms
        && Carried(claim.value, effect.value.command, evidence)
        && emitted == old(emitted) + [Emission(effect.value, claim, evidence)]
      ensures effect.None? ==> lane == old(lane) && emitted == old(emitted)
    {
      if !Active() || ExpectedScan().Some? {
        return None;
      }
      CompleteScans(Kept(), claim.value);
      var c := claim.value;
      var command := Confirm(c.workId, c.terms, sourceScan.value, itemScan.value, lotScan, serialScan,
        destinationScan.value);
      effect := Begin(command, commandId, idempotencyKey);
    }

    /** Asks for a release whatever is under way. */
    method BeginRelease(commandId: string, idempotencyKey: string) returns (effect: Option<Draft>)
      requires Valid()
      modifies this`lane, this`emitted
      ensures Valid()
      ensures lane == ReleaseLane(old(lane), claim, commandId, idempotencyKey)
      ensures effect.Some? <==> claim.Some? && !Blank(commandId) && !Blank(idempotencyKey)
      ensures effect.Some? ==>
        && effect.value == Draft(commandId, idempotencyKey, Release(claim.value.workId))
        && emitted == old(emitted) + [Emission(effect.value, claim, evidence)]
      ensures effect.None? ==> emitted == old(emitted)
    {
      if claim.None? {
        return None;
      }
      effect := Begin(Release(claim.value.workId), commandId, idempotencyKey);
    }

    method CommandPersisted(commandId: string, recordId: int) returns (dispatch: bool)
      requires Valid()
      modifies this`lane
      ensures Valid()
      ensures dispatch <==> old(lane.Persisting? && lane.draft.commandId == commandId && recordId > 0)
      ensures lane == Next(old(lane), Stored(recordId, old(lane.Persisting? && lane.draft.commandId == commandId)))
    {
      if !lane.Persisting? || lane.draft.commandId != commandId || recordId <= 0 {
        return false;
      }
      lane := Ready(recordId, lane.draft);
      return true;
    }

    method DispatchStarted(recordId: int)
      requires Valid()
      modifies this`lane
      ensures Valid() && lane == Next(old(lane), Started(recordId))
    {
      if lane.Ready? && lane.recordId == recordId {
        lane := InFlight(recordId, lane.draft);
      }
    }

    method DispatchAmbiguous(recordId: int)
      requires Valid()
      modifies this`lane
      ensures Valid() && lane == Next(old(lane), Lost(recordId))
    {
      if lane.InFlight? && lane.recordId == recordId {
        lane := Ambiguous(recordId, lane.draft);
      }
    }

    method RetryAmbiguous() returns (dispatch: bool)
      requires Valid()
      modifies this`lane
      ensures Valid() && lane == Next(old(lane), Retried)
      ensures dispatch <==> old(lane.Ambiguous?)
    {
      if !lane.Ambiguous? {
        return false;
      }
      lane := Ready(lane.recordId, lane.draft);
      return true;
    }

    /** What an accepted outcome leaves depends on the command and the outcome alone, not on what was on screen. */
    method OutcomeRecorded(recordId: int, outcome: Outcome)
      requires Valid()
      modifies this
      ensures Valid() && emitted == old(emitted)
      ensures lane == Next(old(lane), Settled(recordId, old(Accepts(lane, recordId, outcome))))
      ensures old(Accepts(lane, recordId, outcome)) ==>
        claim == (if outcome.Claimed? then outcome.claim else None) && evidence == [] && reconcile == old(reconcile)
      ensures !old(Accepts(lane, recordId, outcome)) ==> reconcile && claim == old(claim) && evidence == old(evidence)
    {
      if !Accepts(lane, recordId, outcome) {
        reconcile := true;
        return;
      }
      lane := Empty;
      if outcome.Claimed? {
        claim := outcome.claim;
      } else {
        claim := None;
      }
      ResetScans();
    }

    /** A rejected confirmation must be scanned again; other rejections keep the scans. */
    method RejectionRecorded(recordId: int)
      requires Valid()
      modifies this
      ensures Valid() && emitted == old(emitted) && claim == old(claim) && reconcile == old(reconcile)
      ensures lane == Next(old(lane), Settled(recordId, true))
      ensures evidence == if old(lane.Awaits(recordId) && lane.draft.command.Confirm?) then [] else old(evidence)
    {
      if lane.Awaits(recordId) {
        var confirmed := lane.draft.command.Confirm?;
        lane := Empty;
        if confirmed {
          ResetScans();
        }
      }
    }

    method RestoreCurrentClaim(current: Option<Claim>)
      requires Valid()
      modifies this
      ensures Valid() && lane == old(lane) && emitted == old(emitted)
      ensures claim == if old(lane.Empty?) then current else old(claim)
      ensures evidence == (if old(lane.Empty?) then [] else old(evidence)) && reconcile == old(reconcile)
    {
      if lane.Empty? {
        claim := current;
        ResetScans();
      }
    }

    /**
     A command read back after a restart: it takes exactly the outcomes the lost workflow would have taken in flight.
     */
    method RestoreCommand(recordId: int, draft: Draft, ambiguous: bool) returns (dispatch: bool)
      requires Valid()
      modifies this`lane, this`reconcile
      ensures Valid()
      ensures dispatch <==> recordId > 0 && !draft.command.OtherWorkflow? && !ambiguous
      ensures recordId > 0 && !draft.command.OtherWorkflow? && ambiguous ==>
        forall id, outcome :: Accepts(lane, id, outcome) <==> Accepts(InFlight(recordId, draft), id, outcome)
      ensures recordId > 0 && !draft.command.OtherWorkflow? && !ambiguous ==>
        forall id, outcome :: Accepts(Next(lane, Started(recordId)), id, outcome) <==>
          Accepts(InFlight(recordId, draft), id, outcome)
      ensures recordId > 0 && !draft.command.OtherWorkflow? ==>
        && reconcile == old(reconcile)
        && lane == if ambiguous then Ambiguous(recordId, draft) else Ready(recordId, draft)
      ensures recordId <= 0 || draft.command.OtherWorkflow? ==> reconcile && lane == old(lane)
    {
      if recordId <= 0 || draft.command.OtherWorkflow? {
        reconcile := true;
        return false;
      }
      lane := if ambiguous then Ambiguous(recordId, draft) else Ready(recordId, draft);
      return !ambiguous;
    }
  }

  // ---------- A release under way over a confirmation ----------

  lemma PlainText(c: char)
    requires !Text.IsSpace(c)
    ensures Text.Trim([c]) == [c] && !Blank([c])
  {
  }

  /** Scans the three barcodes of a claim without lot and serial. */
  method ScanAll(w: ReplenishmentWorkflow, source: char, item: char, destination: char)
    requires w.Valid() && w.Active() && w.evidence == []
    requires w.claim.value.terms.lot.None? && w.claim.value.terms.serial.None?
    requires w.claim.value.sourceBarcode == [source] && [item] in w.claim.value.itemBarcodes
    requires w.claim.value.destinationBarcode == [destination]
    requires !Text.IsSpace(source) && !Text.IsSpace(item) && !Text.IsSpace(destination)
    modifies w
    ensures w.Valid() && w.Active() && w.ExpectedScan().None?
    ensures w.claim == old(w.claim) && w.emitted == old(w.emitted) && w.reconcile == old(w.reconcile)
  {
    PlainText(source);
    PlainText(item);
    PlainText(destination);
    var kept := w.SubmitScan([source]);
    kept := w.SubmitScan([item]);
    kept := w.SubmitScan([destination]);
  }

  /** A new workflow, by its own calls, with this work claimed. */
  method WorkClaimed(claim: Claim) returns (w: ReplenishmentWorkflow)
    ensures fresh(w) && w.Valid() && w.Active() && w.claim == Some(claim) && w.evidence == []
  {
    PlainText('a');
    hide Blank, Text.Trim;
    w := new ReplenishmentWorkflow();
    var claiming := w.BeginClaimNext("a", "a");
    var sent := w.CommandPersisted("a", 6);
    w.DispatchStarted(6);
    w.OutcomeRecorded(6, Claimed(Some(claim)));
  }

  /** A new workflow, by its own calls, to a confirmation in flight. */
  method ConfirmationInFlight(claim: Claim) returns (w: ReplenishmentWorkflow, confirmation: Draft)
    requires claim == Claim(42, claim.terms, "S", ["I"], "D") && claim.terms.lot.None? && claim.terms.serial.None?
    ensures fresh(w) && w.Valid() && w.claim == Some(claim) && w.lane == InFlight(7, confirmation)
    ensures confirmation.command.Confirm? && confirmation.command.workId == 42
    ensures confirmation.command.expected == claim.terms
    ensures w.emitted != [] && w.emitted[|w.emitted| - 1].draft == confirmation
  {
    PlainText('b');
    hide Blank, Text.Trim;
    w := WorkClaimed(claim);
    ScanAll(w, 'S', 'I', 'D');
    var confirming := w.BeginConfirmation("b", "b");
    confirmation := confirming.value;
    var sent := w.CommandPersisted("b", 7);
    w.DispatchStarted(7);
  }

  /**
   A confirmation is in flight, a release is asked for and takes its place, and when the confirmation's own outcome
   arrives, which would have been accepted before, it is refused and the workflow stops.
   */
  method ReleaseDropsAConfirmationInFlight() returns (w: ReplenishmentWorkflow, confirmation: Draft)
    ensures fresh(w) && w.Valid() && w.reconcile && confirmation.command.Confirm? && |w.emitted| >= 2
    ensures w.emitted[|w.emitted| - 2].draft == confirmation
    ensures w.lane == Persisting(w.emitted[|w.emitted| - 1].draft)
    ensures w.lane.draft.command == Release(confirmation.command.workId)
  {
    PlainText('c');
    hide Blank, Text.Trim;
    var terms := Terms(20, 10, 100, 5, 6, "ea", None, None, 1, 2, 3);
    w, confirmation := ConfirmationInFlight(Claim(42, terms, "S", ["I"], "D"));
    var outcome := Confirmed(42, terms, 1);
    assert Accepts(w.lane, 7, outcome);
    var releasing := w.BeginRelease("c", "c");
    w.OutcomeRecorded(7, outcome);
  }
}
