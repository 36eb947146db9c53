/** The one durable command a workflow has under way, from its draft to its recorded outcome. */
module DurableLane {

  datatype Lane<D(==)> =
    | Empty
    | Persisting(draft: D)
    | Ready(recordId: int, draft: D)
    | InFlight(recordId: int, draft: D)
    | Ambiguous(recordId: int, draft: D)
  {
    predicate Owns(id: int) {
      (Ready? || InFlight? || Ambiguous?) && recordId == id
    }

    /** An outcome or rejection of this record can be taken now. */
    predicate Awaits(id: int) {
      (InFlight? || Ambiguous?) && recordId == id
    }

    /** The same command, at whatever stage; once it has a record number it keeps it. */
    predicate Carries(earlier: Lane<D>) {
      && !earlier.Empty? && !Empty?
      && draft == earlier.draft
      && (!earlier.Persisting? ==> !Persisting? && recordId == earlier.recordId)
    }
  }

  /** What can happen to a command under way; `accepted` says whether a callback named and fitted it. */
  datatype Event =
    | Stored(recordId: int, accepted: bool)
    | Started(recordId: int)
    | Lost(recordId: int)
    | Retried
    | Settled(recordId: int, accepted: bool)

  function Next<D>(lane: Lane<D>, e: Event): Lane<D> {
    match e
    case Stored(id, accepted) => if lane.Persisting? && accepted && id > 0 then Ready(id, lane.draft) else lane
    case Started(id) => if lane.Ready? && lane.recordId == id then InFlight(id, lane.draft) else lane
    case Lost(id) => if lane.InFlight? && lane.recordId == id then Ambiguous(id, lane.draft) else lane
    case Retried => if lane.Ambiguous? then Ready(lane.recordId, lane.draft) else lane
    case Settled(id, accepted) => if lane.Awaits(id) && accepted then Empty else lane
  }

  function After<D>(lane: Lane<D>, events: seq<Event>): Lane<D> {
    if events == [] then lane else Next(After(lane, events[..|events| - 1]), events[|events| - 1])
  }

  /**
   Through any number of losses and retries the command stays the same, until its own outcome or rejection ends it.
   */
  lemma {:induction false} CommandIsKept<D>(lane: Lane<D>, events: seq<Event>)
    requires !lane.Empty?
    ensures || After(lane, events).Carries(lane)
            || exists k ::
                 && 0 <= k < |events| && events[k].Settled? && events[k].accepted
                 && After(lane, events[..k]).Carries(lane)
                 && After(lane, events[..k]).Awaits(events[k].recordId)
  {
    if events != [] {
      var prior := events[..|events| - 1];
      CommandIsKept(lane, prior);
      if After(lane, prior).Carries(lane) {
        var k := |events| - 1;
        assert events[..k] == prior;
      } else {
        var k :| 0 <= k < |prior| && prior[k].Settled? && prior[k].accepted && After(lane, prior[..k]).Carries(lane)
          && After(lane, prior[..k]).Awaits(prior[k].recordId);
        assert events[..k] == prior[..k] && events[k] == prior[k];
      }
    }
  }

  // ---------- How often a command is sent ----------

  /** The event sends the command. */
  predicate Sends<D>(lane: Lane<D>, e: Event) {
    !lane.InFlight? && Next(lane, e).InFlight?
  }

  /** How often a run of events sends the command. */
  function Sent<D>(lane: Lane<D>, events: seq<Event>): nat {
    if events == [] then 0
    else
      var prior := events[..|events| - 1];
      Sent(lane, prior) + if Sends(After(lane, prior), events[|events| - 1]) then 1 else 0
  }

  /** How often the operator asked for it to be sent again while its outcome was unknown. */
  function Resent<D>(lane: Lane<D>, events: seq<Event>): nat {
    if events == [] then 0
    else
      var prior := events[..|events| - 1];
      Resent(lane, prior) + if After(lane, prior).Ambiguous? && events[|events| - 1].Retried? then 1 else 0
  }

  /** Nothing has settled the command yet. */
  predicate StillCarried<D>(lane: Lane<D>, events: seq<Event>) {
    forall k :: 0 <= k <= |events| ==> !After(lane, events[..k]).Empty?
  }

  /**
   A command is sent once, and once more only for each time the operator retried an unknown outcome: while it is out or
   unknown exactly that often, while it waits to be sent once less.
   */
  lemma {:induction false} SentOncePerRetry<D>(lane: Lane<D>, events: seq<Event>)
    requires lane.Persisting? && StillCarried(lane, events)
    ensures var now := After(lane, events);
      Sent(lane, events) + (if now.InFlight? || now.Ambiguous? then 0 else 1) == 1 + Resent(lane, events)
    ensures After(lane, events).Persisting? ==> Resent(lane, events) == 0
  {
    if events != [] {
      var prior := events[..|events| - 1];
      forall k | 0 <= k <= |prior| ensures !After(lane, prior[..k]).Empty? {
        assert prior[..k] == events[..k];
      }
      assert events[..|events|] == events && events[..|prior|] == prior;
      SentOncePerRetry(lane, prior);
    }
  }

  /** Each event moves the lane along one edge, for its own record, or not at all. */
  lemma NextExactly<D>(lane: Lane<D>, id: int, fits: bool)
    ensures Next(lane, Stored(id, fits)) ==
      if lane.Persisting? && fits && 0 < id then Ready(id, lane.draft) else lane
    ensures forall draft: D :: Next(Ready(id, draft), Started(id)) == InFlight(id, draft)
    ensures forall draft: D :: Next(InFlight(id, draft), Lost(id)) == Ambiguous(id, draft)
    ensures forall draft: D :: Next(Ambiguous(id, draft), Retried) == Ready(id, draft)
    ensures forall draft: D :: Next(InFlight(id, draft), Settled(id, true)) == Empty
    ensures forall draft: D :: Next(Ambiguous(id, draft), Settled(id, true)) == Empty
    ensures Next(lane, Settled(id, false)) == lane
    ensures !lane.Ready? ==> Next(lane, Started(id)) == lane
    ensures !lane.InFlight? ==> Next(lane, Lost(id)) == lane
    ensures !lane.Ambiguous? ==> Next(lane, Retried) == lane
    ensures !lane.InFlight? && !lane.Ambiguous? ==> Next(lane, Settled(id, true)) == lane
    ensures !lane.Empty? && !lane.Persisting? && lane.recordId != id ==>
      Next(lane, Started(id)) == Next(lane, Lost(id)) == Next(lane, Settled(id, true)) == lane
  {
  }
}
