/** What every transaction keeps across the command, attempt, device and log tables. */
module EdgeInvariant {
  import opened Common
  import opened EdgeTables
  import opened EdgeCommandInvariant

  // ---------- The invariant ----------

  predicate Registered(t: Tables, request: CommandRequest) {
    && request.deviceId in t.devices
    && var descriptor := t.devices[request.deviceId].descriptor;
    && descriptor.tenantId == request.tenantId
    && descriptor.facilityId == request.facilityId
    && descriptor.deviceClass == request.command.deviceClass
  }

  predicate RowOk(t: Tables, id: CommandId)
    requires id in t.commands
  {
    var c := t.commands[id];
    && c.request.commandId == id
    && CommandInv(c)
    && Registered(t, c.request)
    && (c.state.IsLive() ==> t.devices[c.request.deviceId].mode.Automatic?)
    && (c.leaseToken.Some? ==> c.leaseToken.value < t.nextUuid)
  }

  predicate RowsOk(t: Tables) {
    forall id :: id in t.commands ==> RowOk(t, id)
  }

  predicate OneExecutingPerDevice(t: Tables) {
    forall a, b :: (a in t.commands && b in t.commands && a != b
                    && t.commands[a].state.Executing? && t.commands[b].state.Executing?) ==>
      t.commands[a].request.deviceId != t.commands[b].request.deviceId
  }

  predicate IdentitiesUnique(t: Tables) {
    forall a, b :: a in t.commands && b in t.commands && a != b ==>
      !SharesIdentity(t.commands[a].request, t.commands[b].request)
  }

  predicate ControlChains(events: seq<ControlEvent>) {
    var n := |events|;
    && n > 0
    && (n == 1 ==> events[0] == ControlEvent(None, Disabled))
    && (n > 1 ==> events[n - 1].from == Some(events[n - 2].to) && ControlChains(events[..n - 1]))
  }

  predicate DeviceOk(device: Device) {
    ControlChains(device.controlEvents) && device.controlEvents[|device.controlEvents| - 1].to == device.mode
  }

  predicate DevicesOk(t: Tables) {
    forall d :: d in t.devices ==> DeviceOk(t.devices[d])
  }

  predicate Inv(t: Tables) {
    RowsOk(t) && OneExecutingPerDevice(t) && IdentitiesUnique(t) && DevicesOk(t)
  }

  // ---------- What every step preserves about earlier rows ----------

  /** d is a later version of c; a lease issued before `issued` is still held only if nothing happened at all. */
  predicate CommandEvolves(c: Command, d: Command, issued: nat) {
    && HistoryGrows(c, d)
    && c.createdAt == d.createdAt
    && (c.state.IsTerminal() ==> d == c)
    && (d.leaseToken.Some? && d.leaseToken.value < issued ==> d == c)
  }

  predicate CommandsEvolve(t: Tables, u: Tables) {
    && t.commands.Keys <= u.commands.Keys
    && (forall id :: id in t.commands ==> CommandEvolves(t.commands[id], u.commands[id], t.nextUuid))
    && (forall id :: id in u.commands && id !in t.commands ==>
          u.commands[id].leaseToken.Some? ==> u.commands[id].leaseToken.value >= t.nextUuid)
  }

  predicate DevicesEvolve(t: Tables, u: Tables) {
    && t.devices.Keys <= u.devices.Keys
    && forall d :: d in t.devices ==>
         && u.devices[d].descriptor == t.devices[d].descriptor
         && t.devices[d].controlEvents <= u.devices[d].controlEvents
  }

  predicate Evolves(t: Tables, u: Tables) {
    t.nextUuid <= u.nextUuid && CommandsEvolve(t, u) && DevicesEvolve(t, u)
  }

  lemma CommandEvolvesTransitively(a: Command, b: Command, c: Command, issued: nat, later: nat)
    requires issued <= later && CommandEvolves(a, b, issued) && CommandEvolves(b, c, later)
    ensures CommandEvolves(a, c, issued)
  {
  }

  lemma EvolvesTransitively(t: Tables, u: Tables, v: Tables)
    requires Evolves(t, u) && Evolves(u, v)
    ensures Evolves(t, v)
  {
    forall id | id in t.commands
      ensures CommandEvolves(t.commands[id], v.commands[id], t.nextUuid)
    {
      CommandEvolvesTransitively(t.commands[id], u.commands[id], v.commands[id], t.nextUuid, u.nextUuid);
    }
    forall id | id in v.commands && id !in t.commands && v.commands[id].leaseToken.Some?
      ensures v.commands[id].leaseToken.value >= t.nextUuid
    {
      if id in u.commands {
        assert CommandEvolves(u.commands[id], v.commands[id], u.nextUuid);
      }
    }
    forall d | d in t.devices
      ensures v.devices[d].descriptor == t.devices[d].descriptor
      ensures t.devices[d].controlEvents <= v.devices[d].controlEvents
    {
      assert d in u.devices;
    }
  }

  lemma EvolvesReflexively(t: Tables)
    requires RowsOk(t)
    ensures Evolves(t, t)
  {
  }

  lemma Unchanged(t: Tables)
    requires Inv(t)
    ensures Evolves(t, t)
  {
    EvolvesReflexively(t);
  }

  // ---------- Updating one command ----------

  lemma PutKeeps(t: Tables, id: CommandId, c: Command)
    requires Inv(t) && id in t.commands
    requires CommandInv(c) && c.request == t.commands[id].request
    requires c.state.IsLive() ==> c.request.deviceId in t.devices && t.devices[c.request.deviceId].mode.Automatic?
    requires c.leaseToken.Some? ==> c.leaseToken.value < t.nextUuid
    requires c.state.Executing? && !t.commands[id].state.Executing? ==> !DeviceBusy(t, c.request.deviceId)
    ensures Inv(Put(t, id, c))
  {
    PutRows(t, id, c);
    SameRequestsStayUnique(t, Put(t, id, c));
    PutExecuting(t, id, c);
  }

  lemma PutRows(t: Tables, id: CommandId, c: Command)
    requires RowsOk(t) && id in t.commands
    requires CommandInv(c) && c.request == t.commands[id].request
    requires c.state.IsLive() ==> c.request.deviceId in t.devices && t.devices[c.request.deviceId].mode.Automatic?
    requires c.leaseToken.Some? ==> c.leaseToken.value < t.nextUuid
    ensures RowsOk(Put(t, id, c))
  {
    assert RowOk(t, id);
    assert RowOk(Put(t, id, c), id);
    RowsKept(t, Put(t, id, c), {id});
  }

  lemma RowsKept(t: Tables, u: Tables, changed: set<CommandId>)
    requires RowsOk(t) && u.devices == t.devices && u.nextUuid == t.nextUuid
    requires forall id :: id in u.commands && id !in changed ==> id in t.commands && u.commands[id] == t.commands[id]
    requires forall id :: id in u.commands && id in changed ==> RowOk(u, id)
    ensures RowsOk(u)
  {
    forall id | id in u.commands && id !in changed ensures RowOk(u, id) {
      assert RowOk(t, id);
    }
  }

  lemma SameRequestsStayUnique(t: Tables, u: Tables)
    requires IdentitiesUnique(t) && u.commands.Keys == t.commands.Keys
    requires forall id :: id in t.commands ==> u.commands[id].request == t.commands[id].request
    ensures IdentitiesUnique(u)
  {
    forall a, b | a in u.commands && b in u.commands && a != b
      ensures !SharesIdentity(u.commands[a].request, u.commands[b].request)
    {
      assert !SharesIdentity(t.commands[a].request, t.commands[b].request);
    }
  }

  lemma PutExecuting(t: Tables, id: CommandId, c: Command)
    requires OneExecutingPerDevice(t) && id in t.commands && c.request == t.commands[id].request
    requires c.state.Executing? && !t.commands[id].state.Executing? ==> !DeviceBusy(t, c.request.deviceId)
    ensures OneExecutingPerDevice(Put(t, id, c))
  {
  }

  lemma PutEvolves(t: Tables, id: CommandId, c: Command)
    requires RowsOk(t) && id in t.commands && CommandEvolves(t.commands[id], c, t.nextUuid)
    ensures Evolves(t, Put(t, id, c))
  {
    EvolvesReflexively(t);
  }

  predicate OnAutomaticDevice(t: Tables, id: CommandId)
    requires id in t.commands
  {
    var d := t.commands[id].request.deviceId;
    d in t.devices && t.devices[d].mode.Automatic?
  }

  /** Moving one unleased command keeps everything. */
  lemma UnleasedTablesKeep(t: Tables, id: CommandId, to: CommandState, nextAt: Option<int>, note: Option<string>)
    requires Inv(t) && id in t.commands && UnleasedMove(t.commands[id].state, to)
    requires note.Some? <==> to.ResolvedManually?
    requires to.Queued? ==> OnAutomaticDevice(t, id)
    ensures var u := Put(t, id, Unleased(t.commands[id], to, nextAt, note)); Inv(u) && Evolves(t, u)
  {
    assert RowOk(t, id);
    var d := Unleased(t.commands[id], to, nextAt, note);
    UnleasedKeeps(t.commands[id], to, nextAt, note);
    PutKeeps(t, id, d);
    PutEvolves(t, id, d);
  }

  // ---------- Adding a command ----------

  lemma SubmittedTablesKeep(t: Tables, request: CommandRequest, state: CommandState, now: int)
    requires Inv(t) && Registered(t, request) && Candidates(t, request) == {}
    requires state == if t.devices[request.deviceId].mode.Automatic? then Queued else ManualReview
    ensures var u := Put(t, request.commandId, Submitted(request, state, now)); Inv(u) && Evolves(t, u)
  {
    SubmittedKeeps(request, state, now);
    var u := Put(t, request.commandId, Submitted(request, state, now));
    NoCandidate(t, request);
    assert RowOk(u, request.commandId);
    RowsKept(t, u, {request.commandId});
    NewIdentityUnique(t, request, u.commands[request.commandId]);
    SubmittedEvolves(t, request, u.commands[request.commandId]);
  }

  lemma NoCandidate(t: Tables, request: CommandRequest)
    requires RowsOk(t) && Candidates(t, request) == {}
    ensures request.commandId !in t.commands
    ensures forall a :: a in t.commands ==> !SharesIdentity(t.commands[a].request, request)
  {
    forall a | a in t.commands ensures !SharesIdentity(t.commands[a].request, request) {
      assert a !in Candidates(t, request);
    }
    assert request.commandId in t.commands ==> RowOk(t, request.commandId);
  }

  lemma NewIdentityUnique(t: Tables, request: CommandRequest, c: Command)
    requires IdentitiesUnique(t) && c.request == request
    requires forall a :: a in t.commands ==> !SharesIdentity(t.commands[a].request, request)
    ensures IdentitiesUnique(Put(t, request.commandId, c))
  {
  }

  lemma SubmittedEvolves(t: Tables, request: CommandRequest, c: Command)
    requires RowsOk(t) && request.commandId !in t.commands && c.leaseToken.None?
    ensures Evolves(t, Put(t, request.commandId, c))
  {
    EvolvesReflexively(t);
  }

  // ---------- Quarantine and control modes ----------

  predicate NothingLive(t: Tables, d: DeviceId) {
    forall id :: id in t.commands && t.commands[id].request.deviceId == d ==> !t.commands[id].state.IsLive()
  }

  lemma {:induction false} QuarantineKeeps(t: Tables, d: DeviceId, now: int)
    requires Inv(t)
    ensures Inv(Quarantine(t, d, now)) && NothingLive(Quarantine(t, d, now), d) && Evolves(t, Quarantine(t, d, now))
  {
    QuarantineRows(t, d, now);
    QuarantineEvolves(t, d, now);
    SameRequestsStayUnique(t, Quarantine(t, d, now));
    QuarantineExecuting(t, d, now);
  }

  lemma QuarantineRows(t: Tables, d: DeviceId, now: int)
    requires RowsOk(t)
    ensures RowsOk(Quarantine(t, d, now)) && NothingLive(Quarantine(t, d, now), d)
  {
    forall id | id in t.commands
      ensures RowOk(Quarantine(t, d, now), id)
      ensures t.commands[id].request.deviceId == d ==> !Quarantine(t, d, now).commands[id].state.IsLive()
    {
      QuarantinedRow(t, d, now, id);
    }
  }

  lemma QuarantineEvolves(t: Tables, d: DeviceId, now: int)
    requires RowsOk(t)
    ensures Evolves(t, Quarantine(t, d, now))
  {
    forall id | id in t.commands
      ensures CommandEvolves(t.commands[id], Quarantine(t, d, now).commands[id], t.nextUuid)
    {
      QuarantinedRow(t, d, now, id);
    }
  }

  lemma QuarantinedRow(t: Tables, d: DeviceId, now: int, id: CommandId)
    requires id in t.commands && RowOk(t, id)
    ensures var u := Quarantine(t, d, now);
      && RowOk(u, id)
      && (t.commands[id].request.deviceId == d ==> !u.commands[id].state.IsLive())
      && CommandEvolves(t.commands[id], u.commands[id], t.nextUuid)
  {
    QuarantinedKeeps(t.commands[id], now);
  }

  lemma QuarantineExecuting(t: Tables, d: DeviceId, now: int)
    requires OneExecutingPerDevice(t)
    ensures OneExecutingPerDevice(Quarantine(t, d, now))
  {
    var u := Quarantine(t, d, now);
    assert forall id :: id in t.commands && u.commands[id].state.Executing? ==> t.commands[id].state.Executing?;
  }

  /** Changing devices only: rows stay good as long as their devices keep their descriptors and stay automatic. */
  lemma DevicesOnly(t: Tables, u: Tables)
    requires RowsOk(t) && u.commands == t.commands && u.nextUuid == t.nextUuid && DevicesEvolve(t, u)
    requires forall id ::
      (id in t.commands && t.commands[id].state.IsLive() && t.commands[id].request.deviceId in t.devices) ==>
      u.devices[t.commands[id].request.deviceId].mode == t.devices[t.commands[id].request.deviceId].mode
        || u.devices[t.commands[id].request.deviceId].mode.Automatic?
    ensures RowsOk(u) && Evolves(t, u)
  {
    forall id | id in u.commands ensures RowOk(u, id) {
      assert RowOk(t, id);
    }
    forall id | id in t.commands ensures CommandEvolves(t.commands[id], u.commands[id], t.nextUuid) {
    }
  }

  lemma ModeKeeps(t: Tables, d: DeviceId, mode: ControlMode)
    requires Inv(t) && d in t.devices && (mode.Automatic? || NothingLive(t, d))
    ensures Inv(SetMode(t, d, mode)) && Evolves(t, SetMode(t, d, mode))
  {
    var u := SetMode(t, d, mode);
    LoggedDeviceOk(t.devices[d], mode);
    assert DevicesEvolve(t, u) && DevicesOk(u);
    DevicesOnly(t, u);
  }

  lemma LoggedDeviceOk(device: Device, mode: ControlMode)
    requires DeviceOk(device)
    ensures DeviceOk(device.(mode := mode,
      controlEvents := device.controlEvents + [ControlEvent(Some(device.mode), mode)]))
  {
    var log := device.controlEvents + [ControlEvent(Some(device.mode), mode)];
    assert log[..|device.controlEvents|] == device.controlEvents;
  }

  lemma ChangedModeKeeps(t: Tables, d: DeviceId, mode: ControlMode, now: int)
    requires Inv(t) && d in t.devices
    ensures Inv(ChangedMode(t, d, mode, now)) && Evolves(t, ChangedMode(t, d, mode, now))
  {
    if mode.Automatic? {
      ModeKeeps(t, d, mode);
    } else {
      var q := Quarantine(t, d, now);
      QuarantineKeeps(t, d, now);
      ModeKeeps(q, d, mode);
      EvolvesTransitively(t, q, SetMode(q, d, mode));
    }
  }

  lemma ForcedFallbackKeeps(t: Tables, d: DeviceId, now: int)
    requires Inv(t) && d in t.devices
    ensures Inv(ForcedFallback(t, d, now)) && Evolves(t, ForcedFallback(t, d, now))
  {
    var q := Quarantine(t, d, now);
    QuarantineKeeps(t, d, now);
    if !t.devices[d].mode.ManualFallback? {
      ModeKeeps(q, d, ManualFallback);
      EvolvesTransitively(t, q, SetMode(q, d, ManualFallback));
    }
  }

  lemma HealthKeeps(t: Tables, d: DeviceId, health: HealthState)
    requires Inv(t) && d in t.devices
    ensures Inv(WithHealth(t, d, health)) && Evolves(t, WithHealth(t, d, health))
  {
    var u := WithHealth(t, d, health);
    assert DeviceOk(t.devices[d]);
    assert DevicesEvolve(t, u) && DevicesOk(u);
    DevicesOnly(t, u);
  }

  lemma RegisteredKeeps(t: Tables, d: DeviceId, descriptor: Descriptor)
    requires Inv(t) && d !in t.devices
    ensures var u := t.(devices := t.devices[d := NewDevice(descriptor)]); Inv(u) && Evolves(t, u)
  {
    var u := t.(devices := t.devices[d := NewDevice(descriptor)]);
    assert DevicesEvolve(t, u) && DevicesOk(u);
    DevicesOnly(t, u);
  }

  function NewDevice(descriptor: Descriptor): Device {
    Device(descriptor, Disabled, Unknown, 0, [ControlEvent(None, Disabled)])
  }

  // ---------- Claiming and finishing ----------

  lemma {:induction false} ClaimedKeeps(t: Tables, id: CommandId, now: int, maxAttempts: nat, until: int)
    requires Inv(t) && Eligible(t, id, now, maxAttempts)
    ensures Inv(Claimed(t, id, until)) && Evolves(t, Claimed(t, id, until))
    ensures Issued(Claimed(t, id, until), ClaimOf(t, id, until))
    ensures HoldsLease(Claimed(t, id, until), ClaimOf(t, id, until))
  {
    assert RowOk(t, id);
    var c := Leased(t.commands[id], t.nextUuid, t.nextUuid + 1, until);
    LeasedKeeps(t.commands[id], t.nextUuid, t.nextUuid + 1, until);
    var wider := t.(nextUuid := t.nextUuid + 2);
    SupplyKeeps(t, t.nextUuid + 2);
    PutKeeps(wider, id, c);
    assert Put(wider, id, c) == Claimed(t, id, until);
    PutEvolves(t, id, c);
  }

  lemma SupplyKeeps(t: Tables, next: nat)
    requires RowsOk(t) && t.nextUuid <= next
    ensures RowsOk(t.(nextUuid := next))
  {
    forall id | id in t.commands ensures RowOk(t.(nextUuid := next), id) {
      assert RowOk(t, id);
    }
  }

  /** The claim came from a claim transaction on these tables or on earlier ones. */
  predicate Issued(t: Tables, claim: ClaimedCommand) {
    && claim.request.commandId in t.commands
    && claim.leaseToken < t.nextUuid
    && IssuedFor(t.commands[claim.request.commandId], claim)
  }

  lemma IssuedLasts(t: Tables, u: Tables, claim: ClaimedCommand)
    requires Issued(t, claim) && Evolves(t, u)
    ensures Issued(u, claim)
    ensures HoldsLease(u, claim) ==> HoldsLease(t, claim)
    ensures HoldsLease(u, claim) ==> u.commands[claim.request.commandId] == t.commands[claim.request.commandId]
  {
    var id := claim.request.commandId;
    assert CommandEvolves(t.commands[id], u.commands[id], t.nextUuid);
  }

  /** A claim whose lease is held always finds its attempt active. */
  lemma HeldClaimHasItsAttempt(t: Tables, claim: ClaimedCommand)
    requires Inv(t) && Issued(t, claim) && HoldsLease(t, claim)
    ensures AttemptHeld(t, claim)
  {
    assert RowOk(t, claim.request.commandId);
    ExactlyOneActive(t.commands[claim.request.commandId]);
  }

  lemma FinishedTablesKeep(t: Tables, claim: ClaimedCommand, disposition: Disposition, limits: RetryLimits, now: int)
    requires Inv(t) && Issued(t, claim) && HoldsLease(t, claim)
    requires CompletionFor(claim, disposition, limits, now).Ok?
    ensures claim.request.deviceId in t.devices
    ensures var u := FinishedTables(t, claim, CompletionFor(claim, disposition, limits, now).value, now);
      Inv(u) && Evolves(t, u)
  {
    var id := claim.request.commandId;
    var completion := CompletionFor(claim, disposition, limits, now).value;
    assert RowOk(t, id);
    var c := Finished(t.commands[id], claim.attemptId, completion);
    FinishedKeeps(t.commands[id], claim, disposition, limits, now);
    PutKeeps(t, id, c);
    PutEvolves(t, id, c);
    if completion.manualFallback {
      var p := Put(t, id, c);
      ForcedFallbackKeeps(p, claim.request.deviceId, now);
      EvolvesTransitively(t, p, ForcedFallback(p, claim.request.deviceId, now));
    }
  }
}
