/** Recovering expired leases one row at a time equals recovering them all at once. */
module EdgeRecovery {
  import opened Common
  import opened EdgeTables
  import opened EdgeCommandInvariant
  import opened EdgeInvariant

  /** The body of the recovery loop for one expired command. */
  function RecoverOne(t: Tables, id: CommandId, now: int): Tables
    requires id in t.commands
    requires t.commands[id].request.policy.ReviewManually? ==> t.commands[id].request.deviceId in t.devices
  {
    var c := t.commands[id];
    var p := Put(t, id, Revoked(c, ExpiryTarget(c.request.policy), now));
    if c.request.policy.ReviewManually? then ForcedFallback(p, c.request.deviceId, now) else p
  }

  lemma RecoverOneKeeps(t: Tables, id: CommandId, now: int)
    requires Inv(t) && id in t.commands && t.commands[id].state.Executing?
    ensures t.commands[id].request.deviceId in t.devices
    ensures Inv(RecoverOne(t, id, now)) && Evolves(t, RecoverOne(t, id, now))
  {
    assert RowOk(t, id);
    var c := t.commands[id];
    var to := ExpiryTarget(c.request.policy);
    var p := Put(t, id, Revoked(c, to, now));
    RevokedKeeps(c, to, now);
    PutKeeps(t, id, Revoked(c, to, now));
    PutEvolves(t, id, Revoked(c, to, now));
    if c.request.policy.ReviewManually? {
      ForcedFallbackKeeps(p, c.request.deviceId, now);
      EvolvesTransitively(t, p, ForcedFallback(p, c.request.deviceId, now));
    }
  }

  /** An expired command not yet visited is untouched: no visited command shares its device. */
  lemma UnvisitedUntouched(t: Tables, now: int, done: set<CommandId>, id: CommandId)
    requires Inv(t) && done <= ExpiredIds(t, now) && id in ExpiredIds(t, now) - done
    ensures Recovered(t, now, done).commands[id] == t.commands[id]
    ensures !TakenDown(t, done, t.commands[id].request.deviceId)
  {
    forall other | other in done
      ensures t.commands[other].request.deviceId != t.commands[id].request.deviceId
    {
      assert other in ExpiredIds(t, now);
    }
  }

  lemma TakenDownGrows(t: Tables, done: set<CommandId>, id: CommandId, d: DeviceId)
    requires id in t.commands
    ensures TakenDown(t, done + {id}, d) <==>
      TakenDown(t, done, d) || (t.commands[id].request.deviceId == d && t.commands[id].request.policy.ReviewManually?)
  {
    if TakenDown(t, done, d) {
      var w :| w in done && w in t.commands && t.commands[w].request.deviceId == d
        && t.commands[w].request.policy.ReviewManually?;
      assert w in done + {id};
    }
    if t.commands[id].request.deviceId == d && t.commands[id].request.policy.ReviewManually? {
      assert id in done + {id};
    }
  }

  lemma KeysRecovered(t: Tables, now: int, done: set<CommandId>)
    ensures Recovered(t, now, done).commands.Keys == t.commands.Keys
    ensures Recovered(t, now, done).devices.Keys == t.devices.Keys
  {
    hide Revoked, Quarantined, TakenDown;
  }

  lemma RowRecovered(t: Tables, now: int, done: set<CommandId>, id: CommandId)
    requires id in t.commands
    ensures var c := t.commands[id];
      && id in Recovered(t, now, done).commands
      && Recovered(t, now, done).commands[id] ==
        if id in done then Revoked(c, ExpiryTarget(c.request.policy), now)
        else if TakenDown(t, done, c.request.deviceId) then Quarantined(c, now)
        else c
  {
    hide Revoked, Quarantined, TakenDown;
  }

  /** Sweeping leaves a row alone that was swept or sent to review before. */
  lemma SweptStaysSwept(c: Command, now: int)
    ensures Quarantined(Quarantined(c, now), now) == Quarantined(c, now)
    ensures Quarantined(Revoked(c, ManualReview, now), now) == Revoked(c, ManualReview, now)
    ensures Quarantined(c, now).request == c.request
    ensures forall to :: Revoked(c, to, now).request == c.request
  {
  }

  lemma OneTurn(t: Tables, id: CommandId, now: int, other: CommandId)
    requires id in t.commands && other in t.commands && t.commands[id].request.deviceId in t.devices
    ensures other in RecoverOne(t, id, now).commands
    ensures var c := t.commands[id];
      var row := if other == id then Revoked(c, ExpiryTarget(c.request.policy), now) else t.commands[other];
      RecoverOne(t, id, now).commands[other] ==
        if c.request.policy.ReviewManually? && row.request.deviceId == c.request.deviceId then Quarantined(row, now)
        else row
  {
    hide Revoked, Quarantined;
  }

  lemma CommandExtends(t: Tables, now: int, done: set<CommandId>, id: CommandId, other: CommandId)
    requires id in t.commands && id !in done && other in t.commands
    requires other in done ==> t.commands[other].request.deviceId != t.commands[id].request.deviceId
    requires t.commands[id].request.deviceId in t.devices
    requires Recovered(t, now, done).commands[id] == t.commands[id]
    ensures RecoverOne(Recovered(t, now, done), id, now).commands[other] ==
      Recovered(t, now, done + {id}).commands[other]
  {
    hide Recovered, RecoverOne, TakenDown, Revoked, Quarantined;
    KeysRecovered(t, now, done);
    TakenDownGrows(t, done, id, t.commands[other].request.deviceId);
    RowRecovered(t, now, done, other);
    RowRecovered(t, now, done + {id}, other);
    OneTurn(Recovered(t, now, done), id, now, other);
    SweptStaysSwept(t.commands[other], now);
  }

  lemma DeviceExtends(t: Tables, now: int, done: set<CommandId>, id: CommandId, d: DeviceId)
    requires id in t.commands && d in t.devices
    requires t.commands[id].request.deviceId in t.devices
    requires Recovered(t, now, done).commands[id] == t.commands[id]
    requires !TakenDown(t, done, t.commands[id].request.deviceId)
    ensures RecoverOne(Recovered(t, now, done), id, now).devices[d] == Recovered(t, now, done + {id}).devices[d]
  {
    TakenDownGrows(t, done, id, d);
  }

  /** One turn of the loop extends the closed form by one command. */
  lemma {:induction false} RecoverOneExtends(t: Tables, now: int, done: set<CommandId>, id: CommandId)
    requires Inv(t) && done <= ExpiredIds(t, now) && id in ExpiredIds(t, now) - done
    ensures t.commands[id].request.deviceId in t.devices
    ensures Recovered(t, now, done).commands[id] == t.commands[id]
    ensures RecoverOne(Recovered(t, now, done), id, now) == Recovered(t, now, done + {id})
  {
    UnvisitedUntouched(t, now, done, id);
    assert RowOk(t, id);
    CommandsExtend(t, now, done, id);
    DevicesExtend(t, now, done, id);
  }

  lemma CommandsExtend(t: Tables, now: int, done: set<CommandId>, id: CommandId)
    requires OneExecutingPerDevice(t)
    requires done <= ExpiredIds(t, now) && id in ExpiredIds(t, now) - done
    requires t.commands[id].request.deviceId in t.devices
    requires Recovered(t, now, done).commands[id] == t.commands[id]
    ensures RecoverOne(Recovered(t, now, done), id, now).commands == Recovered(t, now, done + {id}).commands
  {
    KeysRecovered(t, now, done);
    KeysRecovered(t, now, done + {id});
    assert RecoverOne(Recovered(t, now, done), id, now).commands.Keys == t.commands.Keys;
    hide Recovered, RecoverOne;
    forall other | other in t.commands
      ensures RecoverOne(Recovered(t, now, done), id, now).commands[other] ==
        Recovered(t, now, done + {id}).commands[other]
    {
      assert other in done ==> other in ExpiredIds(t, now);
      CommandExtends(t, now, done, id, other);
    }
    SameMap(RecoverOne(Recovered(t, now, done), id, now).commands, Recovered(t, now, done + {id}).commands);
  }

  lemma DevicesExtend(t: Tables, now: int, done: set<CommandId>, id: CommandId)
    requires id in t.commands
    requires t.commands[id].request.deviceId in t.devices
    requires Recovered(t, now, done).commands[id] == t.commands[id]
    requires !TakenDown(t, done, t.commands[id].request.deviceId)
    ensures RecoverOne(Recovered(t, now, done), id, now).devices == Recovered(t, now, done + {id}).devices
  {
    forall d | d in t.devices
      ensures RecoverOne(Recovered(t, now, done), id, now).devices[d] == Recovered(t, now, done + {id}).devices[d]
    {
      DeviceExtends(t, now, done, id, d);
    }
    SameMap(RecoverOne(Recovered(t, now, done), id, now).devices, Recovered(t, now, done + {id}).devices);
  }

  lemma SameMap<K, V>(a: map<K, V>, b: map<K, V>)
    requires a.Keys == b.Keys && forall k :: k in a ==> a[k] == b[k]
    ensures a == b
  {
  }

  lemma NothingRecovered(t: Tables, now: int)
    ensures Recovered(t, now, {}) == t
  {
    var u := Recovered(t, now, {});
    forall d ensures !TakenDown(t, {}, d) {
    }
    assert u.commands == t.commands;
    assert u.devices == t.devices;
  }

  /** Any set of expired leases can be recovered without breaking anything. */
  lemma {:induction false} RecoveredKeeps(t: Tables, now: int, done: set<CommandId>)
    requires Inv(t) && done <= ExpiredIds(t, now)
    ensures Inv(Recovered(t, now, done)) && Evolves(t, Recovered(t, now, done))
    decreases |done|
  {
    if done == {} {
      NothingRecovered(t, now);
      EvolvesReflexively(t);
    } else {
      var id :| id in done;
      var before := done - {id};
      assert before + {id} == done;
      RecoveredKeeps(t, now, before);
      RecoverOneExtends(t, now, before, id);
      RecoverOneKeeps(Recovered(t, now, before), id, now);
      EvolvesTransitively(t, Recovered(t, now, before), Recovered(t, now, done));
    }
  }
}
