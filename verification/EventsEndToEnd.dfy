/** From the version an approval's transaction commits to what a subject's listeners receive. */
module EventsEndToEnd {
  import opened Wrappers
  import opened Uris
  import opened VersionStream
  import EventProtocol
  import opened Approvals
  import opened ApprovalSteps
  import opened ApprovalRuns
  import opened ApprovalGuarantees

  /** What a client of one access should see: its committed notices, in order. */
  function CommittedEvents(db: Db, access: nat): (stream: seq<Update>)
    ensures |stream| == |Stream(db.bus, access)|
    ensures forall i :: 0 <= i < |stream| ==>
              stream[i] == Update(Stream(db.bus, access)[i].uri, Stream(db.bus, access)[i].version)
  {
    var notices := Stream(db.bus, access);
    seq(|notices|, i requires 0 <= i < |notices| => Update(notices[i].uri, notices[i].version))
  }

  lemma {:induction false} StreamUris(bus: seq<Notice>, access: nat, i: nat)
    requires forall j :: 0 <= j < |bus| ==> OdooUri(bus[j].uri)
    requires i < |Stream(bus, access)|
    ensures OdooUri(Stream(bus, access)[i].uri)
  {
    var before := bus[..|bus| - 1];
    if i < |Stream(before, access)| {
      StreamUris(before, access, i);
    } else {
      assert bus[|bus| - 1].uri == Stream(bus, access)[i].uri;
    }
  }

  /** Whatever transactions have committed: every access's events are numbered without a gap, so
      their versions increase, and each is parsed by the watcher as what was sent. */
  lemma CommittedStreamIsSound(store: Actions.Store, now: int, events: seq<Event>, access: nat)
    requires ApprovalRuns.Possible(ApprovalRuns.Initial(store, now), events)
    ensures var stream := CommittedEvents(ApprovalRuns.Run(ApprovalRuns.Initial(store, now), events).db, access);
            && Increasing(stream)
            && (forall i :: 0 <= i < |stream| ==> stream[i].version == i + 1)
            && (forall i :: 0 <= i < |stream| ==> ParseUpdate(Encode(stream[i])) == Some(stream[i]))
  {
    hide ParseUpdate;
    hide Encode;
    hide OdooUri;
    ApprovalGuarantees.InitialOk(store, now);
    hide ApprovalRuns.Initial;
    RunKeeps(ApprovalRuns.Initial(store, now), events);
    hide ApprovalRuns.Run;
    hide Inv;
    hide Follows;
    var db := ApprovalRuns.Run(ApprovalRuns.Initial(store, now), events).db;
    assert StreamOk(db, access);
    forall i | 0 <= i < |CommittedEvents(db, access)|
      ensures ParseUpdate(Encode(CommittedEvents(db, access)[i])) == Some(CommittedEvents(db, access)[i])
    {
      StreamUris(db.bus, access, i);
      EncodedUpdateParses(CommittedEvents(db, access)[i]);
    }
  }

  lemma LaterPart(stream: seq<Update>, start: nat)
    requires Increasing(stream) && start <= |stream|
    ensures Increasing(stream[start..])
  {
  }

  /** End to end: wherever in the access's history a subject begins to listen, and however the
      connections of its watcher come and go, as long as none of them goes back before that place or
      skips part of what the access committed after it, the subject's listeners have got each event
      of the part that was covered exactly once, in the order of its commit. */
  lemma ListenersSeeWhatWasCommitted(store: Actions.Store, now: int, events: seq<Event>, access: nat,
                                     steps: seq<EventProtocol.Step>, subject: string, start: nat, places: seq<nat>)
    requires ApprovalRuns.Possible(ApprovalRuns.Initial(store, now), events)
    requires EventProtocol.Possible(EventProtocol.Initial(), steps)
    requires var s := EventProtocol.Run(EventProtocol.Initial(), steps);
             !s.b.closed && 0 < EventProtocol.Live(s.sessions, subject)
    requires var stream := CommittedEvents(ApprovalRuns.Run(ApprovalRuns.Initial(store, now), events).db, access);
             && start <= |stream| && NoGaps(places) && Within(places, |stream| - start)
             && EventProtocol.Heard(EventProtocol.Run(EventProtocol.Initial(), steps), subject)
                == Pick(stream[start..], places)
    ensures var stream := CommittedEvents(ApprovalRuns.Run(ApprovalRuns.Initial(store, now), events).db, access);
            var s := EventProtocol.Run(EventProtocol.Initial(), steps);
            && subject in s.b.hub.handlers && start + Frontier(places) <= |stream|
            && EventProtocol.SentOn(s.b.hub.sent, s.b.hub.handlers[subject])
               == EventProtocol.UrisOf(stream[start..][..Frontier(places)])
  {
    hide ApprovalRuns.Run;
    hide EventProtocol.Run;
    hide ApprovalRuns.Initial;
    hide EventProtocol.Initial;
    hide Committed;
    CommittedStreamIsSound(store, now, events, access);
    var stream := CommittedEvents(ApprovalRuns.Run(ApprovalRuns.Initial(store, now), events).db, access);
    LaterPart(stream, start);
    EventProtocol.ListenersGetTheStream(steps, subject, stream[start..], places);
  }
}
