/** Any interleaving of subscriptions, unsubscriptions, watcher tasks ending, their completion
    callbacks, arriving messages and shutdown. */
module EventProtocol {
  import opened Wrappers
  import opened Json
  import opened VersionStream
  import opened EventBridges

  datatype Session = Session(subject: string, live: bool)

  /** heard is what arrived for a subject since its first live subscription, told what was passed on. */
  datatype System = System(
    b: Bridge,
    sessions: seq<Session>,
    heard: map<string, seq<Update>>,
    told: map<string, seq<Update>>)

  datatype Step =
    | Open(subject: string, watcher: Watcher)
    | Leave(i: nat)
    | End(watcher: Watcher)
    | Callback(watcher: Watcher)
    | Receive(watcher: Watcher, notification: Json)
    | CloseBegin
    | CloseEnd

  ghost predicate Enabled(s: System, step: Step) {
    match step
    case Open(subject, w) => subject != "" && w.subject == subject && w !in s.b.tasks
    case Leave(i) => i < |s.sessions| && s.sessions[i].live
    case End(w) => w in s.b.tasks && s.b.tasks[w] != Finished
    case Callback(w) => w in s.b.tasks && s.b.tasks[w] == Finished
    case Receive(w, _) => w in s.b.tasks && s.b.tasks[w] == Running
    case CloseBegin => true
    case CloseEnd => s.b.closed
  }

  function Heard(s: System, subject: string): seq<Update> {
    if subject in s.heard then s.heard[subject] else []
  }

  function Told(s: System, subject: string): seq<Update> {
    if subject in s.told then s.told[subject] else []
  }

  /** One element of a notification list, up to the next suspension point. */
  function Received(s: System, subject: string, notification: Json): System {
    match ParseUpdate(notification)
    case None => s
    case Some(u) =>
      var b := AfterMessage(s.b, subject, [u]);
      s.(b := b, heard := s.heard[subject := Heard(s, subject) + [u]],
         told := s.told[subject := Told(s, subject) + Deliver(s.b.versions, subject, [u]).published])
  }

  function Opened(s: System, subject: string, w: Watcher): System
    requires s.b.WellFormed()
  {
    if s.b.closed then s.(b := s.b.(hub := WithHandler(s.b.hub, subject)))
    else
      s.(b := AfterSubscribe(s.b, subject, if NeedsWatcher(s.b, subject) then Some(w) else None),
         sessions := s.sessions + [Session(subject, true)])
  }

  function Left(s: System, i: nat): System
    requires i < |s.sessions|
  {
    var subject := s.sessions[i].subject;
    var b := AfterUnsubscribe(s.b, subject);
    var over := subject !in b.references;
    s.(b := b, sessions := s.sessions[i := Session(subject, false)],
       heard := if over then s.heard - {subject} else s.heard, told := if over then s.told - {subject} else s.told)
  }

  ghost function Apply(s: System, step: Step): System
    requires s.b.WellFormed() && Enabled(s, step)
  {
    match step
    case Open(subject, w) => Opened(s, subject, w)
    case Leave(i) => Left(s, i)
    case End(w) => s.(b := s.b.(tasks := s.b.tasks[w := Finished]))
    case Callback(w) => s.(b := AfterDone(s.b, w.subject, w))
    case Receive(w, notification) => Received(s, w.subject, notification)
    case CloseBegin => s.(b := Closing(s.b))
    case CloseEnd => s.(b := Cleared(s.b))
  }

  function Live(sessions: seq<Session>, subject: string): nat {
    if sessions == [] then 0
    else
      var last := sessions[|sessions| - 1];
      Live(sessions[..|sessions| - 1], subject) + (if last.live && last.subject == subject then 1 else 0)
  }

  lemma LiveSnoc(sessions: seq<Session>, x: Session, subject: string)
    ensures Live(sessions + [x], subject) == Live(sessions, subject) + (if x.live && x.subject == subject then 1 else 0)
  {
    assert (sessions + [x])[..|sessions|] == sessions;
  }

  lemma {:induction false} LiveUpdate(sessions: seq<Session>, i: nat, subject: string)
    requires i < |sessions| && sessions[i].live
    ensures Live(sessions[i := Session(sessions[i].subject, false)], subject)
            == Live(sessions, subject) - (if sessions[i].subject == subject then 1 else 0)
    ensures sessions[i].subject == subject ==> 0 < Live(sessions, subject)
  {
    var n := |sessions| - 1;
    var after := sessions[i := Session(sessions[i].subject, false)];
    if i == n {
      assert after[..n] == sessions[..n];
    } else {
      LiveUpdate(sessions[..n], i, subject);
      assert after[..n] == sessions[..n][i := Session(sessions[i].subject, false)];
    }
  }

  /** The uris published on one bus, in order. */
  function SentOn(sent: seq<(nat, string)>, bus: nat): seq<string> {
    if sent == [] then []
    else
      var last := sent[|sent| - 1];
      if last.0 == bus then SentOn(sent[..|sent| - 1], bus) + [last.1] else SentOn(sent[..|sent| - 1], bus)
  }

  function UrisOf(updates: seq<Update>): (uris: seq<string>)
    ensures |uris| == |updates| && forall i :: 0 <= i < |uris| ==> uris[i] == updates[i].uri
  {
    seq(|updates|, i requires 0 <= i < |updates| => updates[i].uri)
  }

  /** A subject is counted while it has live subscriptions, and it has state only while counted. */
  ghost predicate SubjectOk(s: System, t: string) {
    && References(s.b, t) == Live(s.sessions, t)
    && (t in s.b.references ==> 0 < s.b.references[t])
    && (t in s.b.watchers ==>
          && t in s.b.references && s.b.watchers[t] in s.b.tasks && s.b.watchers[t].subject == t
          && s.b.tasks[s.b.watchers[t]] != Cancelling)
    && (t !in s.b.references ==> t !in s.heard && t !in s.told && forall uri :: (t, uri) !in s.b.versions)
  }

  /** A subject's handler listens on the subject's own bus, which has carried what was passed on. */
  ghost predicate BusOk(s: System, t: string) {
    var h := s.b.hub;
    && (t in h.buses <==> t in s.b.references) && (t in h.handlers <==> t in s.b.references)
    && (t in h.buses && t in h.handlers ==>
          h.handlers[t] == h.buses[t] && h.buses[t] < h.created && SentOn(h.sent, h.buses[t]) == UrisOf(Told(s, t)))
  }

  /** Versions and publications are those of one uninterrupted delivery of everything heard. */
  ghost predicate HistoryOk(s: System, t: string) {
    var d := Deliver(map[], t, Heard(s, t));
    Told(s, t) == d.published && forall uri :: Seen(s.b.versions, t, uri) == Seen(d.versions, t, uri)
  }

  /** Two subjects never share a bus, and no bus number is used before it is created. */
  ghost predicate HubOk(h: Hub) {
    && (forall t, t' :: t in h.buses && t' in h.buses && h.buses[t] == h.buses[t'] ==> t == t')
    && (forall i :: 0 <= i < |h.sent| ==> h.sent[i].0 < h.created)
    && (forall t :: t in h.buses ==> h.buses[t] < h.created)
  }

  /** A running watcher that nobody has cancelled is the registered one of its subject. */
  ghost predicate TasksOk(b: Bridge) {
    forall w :: w in b.tasks && b.tasks[w] == Running ==> w.subject in b.watchers && b.watchers[w.subject] == w
  }

  ghost predicate Inv(s: System) {
    && s.b.WellFormed()
    && if s.b.closed then forall w :: w in s.b.tasks ==> s.b.tasks[w] != Running
       else
         && TasksOk(s.b) && HubOk(s.b.hub)
         && forall t :: SubjectOk(s, t) && BusOk(s, t) && HistoryOk(s, t)
  }

  function Initial(): System {
    System(Bridge(map[], map[], map[], false, Hub(map[], map[], 0, []), map[]), [], map[], map[])
  }

  lemma InitialOk()
    ensures Inv(Initial())
  {
    var s := Initial();
    forall t
      ensures SubjectOk(s, t) && BusOk(s, t) && HistoryOk(s, t)
    {
    }
  }

  lemma SentSnoc(sent: seq<(nat, string)>, x: (nat, string), bus: nat)
    ensures SentOn(sent + [x], bus) == if x.0 == bus then SentOn(sent, bus) + [x.1] else SentOn(sent, bus)
  {
    assert (sent + [x])[..|sent|] == sent;
  }

  /** A new bus has carried nothing. */
  lemma {:induction false} SentNothing(sent: seq<(nat, string)>, bus: nat)
    requires forall i :: 0 <= i < |sent| ==> sent[i].0 < bus
    ensures SentOn(sent, bus) == []
  {
    if sent != [] {
      SentNothing(sent[..|sent| - 1], bus);
    }
  }

  lemma OpenSubject(s: System, subject: string, w: Watcher, t: string)
    requires s.b.WellFormed() && !s.b.closed && Enabled(s, Open(subject, w)) && SubjectOk(s, t)
    ensures SubjectOk(Opened(s, subject, w), t)
  {
    hide Live;
    LiveSnoc(s.sessions, Session(subject, true), t);
  }

  lemma OpenBus(s: System, subject: string, w: Watcher, t: string)
    requires s.b.WellFormed() && !s.b.closed && HubOk(s.b.hub)
    requires BusOk(s, t) && BusOk(s, subject) && SubjectOk(s, subject)
    ensures BusOk(Opened(s, subject, w), t)
  {
    if t == subject && t !in s.b.references {
      SentNothing(s.b.hub.sent, s.b.hub.created);
    }
  }

  lemma OpenHub(s: System, subject: string, w: Watcher)
    requires s.b.WellFormed() && !s.b.closed && HubOk(s.b.hub)
    ensures HubOk(Opened(s, subject, w).b.hub)
  {
  }

  lemma OpenTasks(s: System, subject: string, w: Watcher)
    requires s.b.WellFormed() && !s.b.closed && TasksOk(s.b) && Enabled(s, Open(subject, w))
    ensures TasksOk(Opened(s, subject, w).b) && Opened(s, subject, w).b.WellFormed()
  {
  }

  lemma LeaveSubject(s: System, i: nat, t: string)
    requires s.b.WellFormed() && TasksOk(s.b) && Enabled(s, Leave(i))
    requires SubjectOk(s, t) && SubjectOk(s, s.sessions[i].subject)
    ensures SubjectOk(Left(s, i), t)
  {
    hide Live;
    LiveUpdate(s.sessions, i, t);
    LiveUpdate(s.sessions, i, s.sessions[i].subject);
  }

  lemma LeaveBus(s: System, i: nat, t: string)
    requires Enabled(s, Leave(i)) && BusOk(s, t)
    ensures BusOk(Left(s, i), t)
  {
  }

  lemma LeaveHistory(s: System, i: nat, t: string)
    requires Enabled(s, Leave(i)) && HistoryOk(s, t)
    ensures HistoryOk(Left(s, i), t)
  {
    hide Deliver;
    var s' := Left(s, i);
    if t == s.sessions[i].subject && t !in s'.b.references {
      DeliverNothing(map[], t);
    }
  }

  lemma DeliverNothing(versions: Versions, subject: string)
    ensures Deliver(versions, subject, []) == Delivery(versions, [])
  {
  }

  lemma DeliverOne(versions: Versions, subject: string, u: Update)
    ensures Deliver(versions, subject, [u]) ==
            if u.version <= Seen(versions, subject, u.uri) then Delivery(versions, [])
            else Delivery(versions[(subject, u.uri) := u.version], [u])
  {
    DeliverNothing(versions, subject);
    DeliverSnoc(versions, subject, [], u);
    assert [] + [u] == [u];
  }

  lemma ReceiveHistory(s: System, subject: string, n: Json, t: string)
    requires HistoryOk(s, t)
    ensures HistoryOk(Received(s, subject, n), t)
  {
    hide Deliver;
    hide ParseUpdate;
    if ParseUpdate(n).Some? {
      var u := ParseUpdate(n).value;
      DeliverOne(s.b.versions, subject, u);
      if t == subject {
        ReceiveOwnHistory(s, t, n, u);
      }
    }
  }

  lemma ReceiveOwnHistory(s: System, t: string, n: Json, u: Update)
    requires HistoryOk(s, t) && ParseUpdate(n) == Some(u)
    ensures HistoryOk(Received(s, t, n), t)
  {
    hide Deliver;
    hide ParseUpdate;
    hide Seen;
    var s', d := Received(s, t, n), Deliver(map[], t, Heard(s, t));
    DeliverOne(s.b.versions, t, u);
    DeliverSnoc(map[], t, Heard(s, t), u);
    assert Told(s, t) + [] == Told(s, t);
    assert Heard(s', t) == Heard(s, t) + [u];
    forall uri
      ensures Seen(s'.b.versions, t, uri) == Seen(Deliver(map[], t, Heard(s', t)).versions, t, uri)
    {
      SeenAfter(s.b.versions, t, u, uri);
      SeenAfter(d.versions, t, u, uri);
    }
  }

  lemma ReceiveBus(s: System, subject: string, n: Json, t: string)
    requires BusOk(s, t) && BusOk(s, subject) && HubOk(s.b.hub) && subject in s.b.references
    ensures BusOk(Received(s, subject, n), t)
  {
    hide Deliver;
    hide ParseUpdate;
    hide SentOn;
    hide HubOk;
    hide AfterPublish;
    if ParseUpdate(n).Some? {
      var u := ParseUpdate(n).value;
      DeliverOne(s.b.versions, subject, u);
      PublishedOne(s.b.hub, subject, u);
      if Deliver(s.b.versions, subject, [u]).published == [] {
        assert Told(s, subject) + [] == Told(s, subject);
      } else {
        PublishSends(s.b.hub, subject, u.uri, t);
        assert UrisOf(Told(s, subject) + [u]) == UrisOf(Told(s, subject)) + [u.uri];
      }
    }
  }

  /** Publishing for a subject that has a bus reaches that bus and no other subject's. */
  lemma PublishSends(h: Hub, subject: string, uri: string, t: string)
    requires HubOk(h) && subject in h.buses
    ensures var h' := AfterPublish(h, subject, uri);
            && h'.buses == h.buses && h'.handlers == h.handlers && h'.created == h.created
            && (t in h.buses ==>
                  SentOn(h'.sent, h.buses[t])
                  == if t == subject then SentOn(h.sent, h.buses[t]) + [uri] else SentOn(h.sent, h.buses[t]))
  {
    hide SentOn;
    if t in h.buses {
      SentSnoc(h.sent, (h.buses[subject], uri), h.buses[t]);
    }
  }

  lemma PublishedOne(h: Hub, subject: string, u: Update)
    ensures PublishedAll(h, subject, []) == h
    ensures PublishedAll(h, subject, [u]) == AfterPublish(h, subject, u.uri)
  {
    PublishedSnoc(h, subject, [], u);
    assert [] + [u] == [u];
  }

  lemma ReceiveHub(s: System, subject: string, n: Json)
    requires HubOk(s.b.hub) && subject in s.b.hub.buses
    ensures HubOk(Received(s, subject, n).b.hub)
  {
    hide Deliver;
    hide ParseUpdate;
    if ParseUpdate(n).Some? {
      var u := ParseUpdate(n).value;
      DeliverOne(s.b.versions, subject, u);
      PublishedOne(s.b.hub, subject, u);
    }
  }

  lemma ReceiveSubject(s: System, subject: string, n: Json, t: string)
    requires SubjectOk(s, t) && subject in s.b.references
    ensures SubjectOk(Received(s, subject, n), t)
  {
    hide Deliver;
    hide ParseUpdate;
    if ParseUpdate(n).Some? {
      DeliverOne(s.b.versions, subject, ParseUpdate(n).value);
    }
  }

  lemma OpenKeeps(s: System, subject: string, w: Watcher)
    requires Inv(s) && !s.b.closed && Enabled(s, Open(subject, w))
    ensures Inv(Opened(s, subject, w))
  {
    hide SubjectOk;
    hide BusOk;
    hide TasksOk;
    hide HubOk;
    OpenTasks(s, subject, w);
    OpenHub(s, subject, w);
    forall t
      ensures SubjectOk(Opened(s, subject, w), t) && BusOk(Opened(s, subject, w), t)
      ensures HistoryOk(Opened(s, subject, w), t)
    {
      assert SubjectOk(s, subject) && SubjectOk(s, t) && BusOk(s, subject) && BusOk(s, t) && HistoryOk(s, t);
      OpenSubject(s, subject, w, t);
      OpenBus(s, subject, w, t);
    }
  }

  lemma LeaveKeeps(s: System, i: nat)
    requires Inv(s) && !s.b.closed && Enabled(s, Leave(i))
    ensures Inv(Left(s, i))
  {
    hide SubjectOk;
    hide BusOk;
    hide HistoryOk;
    forall t
      ensures SubjectOk(Left(s, i), t) && BusOk(Left(s, i), t) && HistoryOk(Left(s, i), t)
    {
      assert SubjectOk(s, s.sessions[i].subject) && SubjectOk(s, t) && BusOk(s, t) && HistoryOk(s, t);
      LeaveSubject(s, i, t);
      LeaveBus(s, i, t);
      LeaveHistory(s, i, t);
    }
  }

  lemma ReceiveKeeps(s: System, w: Watcher, n: Json)
    requires Inv(s) && !s.b.closed && Enabled(s, Receive(w, n))
    ensures Inv(Received(s, w.subject, n))
  {
    hide HubOk;
    hide BusOk;
    hide SubjectOk;
    hide HistoryOk;
    var subject := w.subject;
    assert SubjectOk(s, subject) && BusOk(s, subject);
    Registered(s, w);
    ReceiveHub(s, subject, n);
    forall t
      ensures SubjectOk(Received(s, subject, n), t) && BusOk(Received(s, subject, n), t)
      ensures HistoryOk(Received(s, subject, n), t)
    {
      assert SubjectOk(s, t) && BusOk(s, t) && HistoryOk(s, t);
      ReceiveSubject(s, subject, n, t);
      ReceiveBus(s, subject, n, t);
      ReceiveHistory(s, subject, n, t);
    }
  }

  lemma Registered(s: System, w: Watcher)
    requires TasksOk(s.b) && w in s.b.tasks && s.b.tasks[w] == Running && SubjectOk(s, w.subject) && BusOk(s, w.subject)
    ensures w.subject in s.b.references && w.subject in s.b.hub.buses
  {
  }

  lemma EndKeeps(s: System, w: Watcher)
    requires Inv(s) && !s.b.closed && Enabled(s, End(w))
    ensures Inv(Apply(s, End(w)))
  {
    hide BusOk;
    hide HistoryOk;
    var s' := Apply(s, End(w));
    forall t
      ensures SubjectOk(s', t) && BusOk(s', t) && HistoryOk(s', t)
    {
      assert SubjectOk(s, t) && BusOk(s, t) && HistoryOk(s, t);
      BusFrame(s, s', t);
      HistoryFrame(s, s', t);
    }
  }

  lemma CallbackKeeps(s: System, w: Watcher)
    requires Inv(s) && !s.b.closed && Enabled(s, Callback(w))
    ensures Inv(Apply(s, Callback(w)))
  {
    hide BusOk;
    hide HistoryOk;
    var s' := Apply(s, Callback(w));
    forall t
      ensures SubjectOk(s', t) && BusOk(s', t) && HistoryOk(s', t)
    {
      assert SubjectOk(s, t) && BusOk(s, t) && HistoryOk(s, t);
      BusFrame(s, s', t);
      HistoryFrame(s, s', t);
    }
  }

  lemma BusFrame(s: System, s': System, t: string)
    requires BusOk(s, t) && s'.b.hub == s.b.hub && s'.b.references == s.b.references && s'.told == s.told
    ensures BusOk(s', t)
  {
  }

  lemma HistoryFrame(s: System, s': System, t: string)
    requires HistoryOk(s, t) && s'.b.versions == s.b.versions && s'.heard == s.heard && s'.told == s.told
    ensures HistoryOk(s', t)
  {
  }

  /** Once closing has begun, no watcher runs and none is started. */
  lemma ClosedKeeps(s: System, step: Step)
    requires Inv(s) && Enabled(s, step) && (s.b.closed || step.CloseBegin?)
    ensures Inv(Apply(s, step)) && Apply(s, step).b.closed
  {
    if step.CloseBegin? && !s.b.closed {
      ClosingStops(s.b);
    }
  }

  lemma ClosingStops(b: Bridge)
    requires b.WellFormed() && TasksOk(b)
    ensures Closing(b).WellFormed()
    ensures forall w :: w in Closing(b).tasks ==> Closing(b).tasks[w] != Running
  {
    forall w | w in b.tasks && b.tasks[w] == Running
      ensures w in b.watchers.Values
    {
      assert b.watchers[w.subject] == w;
    }
  }

  lemma StepKeeps(s: System, step: Step)
    requires Inv(s) && Enabled(s, step)
    ensures Inv(Apply(s, step))
  {
    hide Inv;
    InvFormed(s);
    if s.b.closed || step.CloseBegin? {
      ClosedKeeps(s, step);
    } else {
      match step
      case Open(subject, w) => OpenKeeps(s, subject, w);
      case Leave(i) => LeaveKeeps(s, i);
      case End(w) => EndKeeps(s, w);
      case Callback(w) => CallbackKeeps(s, w);
      case Receive(w, n) => ReceiveKeeps(s, w, n);
    }
  }

  lemma InvFormed(s: System)
    requires Inv(s)
    ensures s.b.WellFormed()
  {
  }

  ghost predicate Possible(s: System, steps: seq<Step>)
    requires s.b.WellFormed()
    decreases |steps|
  {
    steps != [] ==>
      Enabled(s, steps[0]) && var s' := Apply(s, steps[0]); s'.b.WellFormed() && Possible(s', steps[1..])
  }

  ghost function Run(s: System, steps: seq<Step>): System
    requires s.b.WellFormed() && Possible(s, steps)
    decreases |steps|
  {
    if steps == [] then s else Run(Apply(s, steps[0]), steps[1..])
  }

  lemma {:induction false} RunKeeps(s: System, steps: seq<Step>)
    requires Inv(s) && Possible(s, steps)
    ensures Inv(Run(s, steps))
    decreases |steps|
  {
    hide Inv;
    hide Apply;
    InvFormed(s);
    if steps != [] {
      StepKeeps(s, steps[0]);
      RunKeeps(Apply(s, steps[0]), steps[1..]);
    }
  }

  /** Until shutdown begins, in every reachable state: reference counts are the numbers of live
      subscriptions, a registered watcher has somebody to watch for, and no subject has two running
      watchers that nobody has cancelled; from shutdown on, no watcher runs. */
  lemma EveryRunIsSafe(steps: seq<Step>, subject: string)
    requires Possible(Initial(), steps)
    ensures var s := Run(Initial(), steps);
            if s.b.closed then forall w :: w in s.b.tasks ==> s.b.tasks[w] != Running
            else
              && References(s.b, subject) == Live(s.sessions, subject)
              && (subject in s.b.watchers ==> 1 <= Live(s.sessions, subject))
              && (forall v, w :: RunsFor(s.b, v, subject) && RunsFor(s.b, w, subject) ==> v == w)
  {
    InitialOk();
    hide Initial;
    RunKeeps(Initial(), steps);
    hide Run;
    var s := Run(Initial(), steps);
    assert !s.b.closed ==> SubjectOk(s, subject);
  }

  predicate RunsFor(b: Bridge, w: Watcher, subject: string) {
    w in b.tasks && b.tasks[w] == Running && w.subject == subject
  }

  /** A subscription that joins an open bridge is watched for: by the watcher it started, or by the
      one that runs already. */
  lemma SubscribersAreWatched(s: System, subject: string, w: Watcher)
    requires Inv(s) && !s.b.closed && Enabled(s, Open(subject, w))
    ensures var b := Apply(s, Open(subject, w)).b;
            && subject in b.watchers && b.watchers[subject] in b.tasks && RunsFor(b, b.watchers[subject], subject)
            && (forall v :: RunsFor(s.b, v, subject) ==> b.watchers[subject] == v)
  {
    assert SubjectOk(s, subject);
  }

  /** However late a completion callback runs, every watcher that is running stays registered. */
  lemma LateCallbacksAreHarmless(s: System, w: Watcher, v: Watcher)
    requires Inv(s) && !s.b.closed && Enabled(s, Callback(w)) && RunsFor(s.b, v, v.subject)
    ensures var b := Apply(s, Callback(w)).b; v.subject in b.watchers && b.watchers[v.subject] == v
    ensures v.subject == w.subject ==> Apply(s, Callback(w)) == s
  {
    assert SubjectOk(s, v.subject);
  }

  /** The last subscription to leave takes with it everything its subject had, stops its watcher,
      and touches nothing of any other subject. */
  lemma LastOneOut(s: System, i: nat, t: string)
    requires Inv(s) && !s.b.closed && Enabled(s, Leave(i)) && Live(s.sessions, s.sessions[i].subject) == 1
    ensures var b, subject := Apply(s, Leave(i)).b, s.sessions[i].subject;
            && subject !in b.references && subject !in b.watchers
            && subject !in b.hub.buses && subject !in b.hub.handlers
            && (forall uri :: (subject, uri) !in b.versions)
            && (forall w :: !RunsFor(b, w, subject))
            && (t != subject ==> SameFor(s.b, b, t))
  {
    assert SubjectOk(s, s.sessions[i].subject);
  }

  /** Two bridges agree on everything that concerns one subject. */
  ghost predicate SameFor(b: Bridge, b': Bridge, t: string) {
    && References(b, t) == References(b', t)
    && (t in b.watchers <==> t in b'.watchers) && (t in b.watchers ==> b.watchers[t] == b'.watchers[t])
    && (forall uri :: Seen(b.versions, t, uri) == Seen(b'.versions, t, uri))
    && (t in b.hub.buses <==> t in b'.hub.buses) && (t in b.hub.buses ==> b.hub.buses[t] == b'.hub.buses[t])
    && (t in b.hub.handlers <==> t in b'.hub.handlers)
    && (forall w :: w in b.tasks && RunsFor(b, w, t) ==> RunsFor(b', w, t))
    && (forall w :: w in b'.tasks && RunsFor(b', w, t) ==> RunsFor(b, w, t))
  }

  /** While a subject has subscribers, its listeners' bus has carried, for each resource, exactly the
      strict running maxima of everything heard since the first of them came. */
  lemma ListenersGetTheMaxima(steps: seq<Step>, subject: string, uri: string)
    requires Possible(Initial(), steps)
    requires var s := Run(Initial(), steps); !s.b.closed && 0 < Live(s.sessions, subject)
    ensures var s := Run(Initial(), steps);
            && subject in s.b.hub.handlers
            && SentOn(s.b.hub.sent, s.b.hub.handlers[subject]) == UrisOf(Told(s, subject))
            && VersionsOf(Told(s, subject), uri) == Maxima(VersionsOf(Heard(s, subject), uri), 0)
  {
    InitialOk();
    hide Initial;
    RunKeeps(Initial(), steps);
    hide Run;
    var s := Run(Initial(), steps);
    assert SubjectOk(s, subject) && BusOk(s, subject) && HistoryOk(s, subject);
    PublishedAreMaxima(map[], subject, Heard(s, subject), uri);
  }

  /** If what was heard is replays without gaps of a stream with increasing versions, the listeners
      got each event of the covered part of the stream exactly once and in order. */
  lemma ListenersGetTheStream(steps: seq<Step>, subject: string, stream: seq<Update>, places: seq<nat>)
    requires Possible(Initial(), steps)
    requires var s := Run(Initial(), steps); !s.b.closed && 0 < Live(s.sessions, subject)
    requires Increasing(stream) && NoGaps(places) && Within(places, |stream|)
    requires Heard(Run(Initial(), steps), subject) == Pick(stream, places)
    ensures var s := Run(Initial(), steps);
            && subject in s.b.hub.handlers && Frontier(places) <= |stream|
            && SentOn(s.b.hub.sent, s.b.hub.handlers[subject]) == UrisOf(stream[..Frontier(places)])
  {
    InitialOk();
    hide Initial;
    RunKeeps(Initial(), steps);
    hide Run;
    hide Deliver;
    var s := Run(Initial(), steps);
    assert SubjectOk(s, subject) && BusOk(s, subject) && HistoryOk(s, subject);
    ReplaysPublishOnce(map[], subject, stream, places);
  }

  /** Closed and cleared: no subject is counted, watched or remembered. */
  ghost predicate Empty(s: System) {
    && s.b.closed && s.b.references == map[] && s.b.watchers == map[] && s.b.versions == map[]
    && forall w :: w in s.b.tasks ==> s.b.tasks[w] != Running
  }

  /** Once closing is done, everything is gone and stays so, whatever late subscribers, departures, task
      ends and callbacks still come. */
  lemma {:induction false} ClosedForGood(s: System, steps: seq<Step>)
    requires Inv(s) && s.b.closed && Possible(Apply(s, CloseEnd), steps)
    ensures Empty(Apply(s, CloseEnd)) && Apply(s, CloseEnd).b.hub.handlers == map[]
    ensures Apply(s, CloseEnd).b.hub.buses == map[]
    ensures Empty(Run(Apply(s, CloseEnd), steps))
  {
    StaysEmpty(Apply(s, CloseEnd), steps);
  }

  lemma {:induction false} StaysEmpty(s: System, steps: seq<Step>)
    requires Empty(s) && Possible(s, steps)
    ensures Empty(Run(s, steps))
    decreases |steps|
  {
    if steps != [] {
      EmptyStep(s, steps[0]);
      StaysEmpty(Apply(s, steps[0]), steps[1..]);
    }
  }

  lemma EmptyStep(s: System, step: Step)
    requires Empty(s) && s.b.WellFormed() && Enabled(s, step)
    ensures Empty(Apply(s, step))
  {
  }

  /** One watcher receives the elements of a message, one after another. */
  function ReceivedAll(s: System, subject: string, notifications: seq<Json>): System {
    if notifications == [] then s
    else
      var n := |notifications| - 1;
      Received(ReceivedAll(s, subject, notifications[..n]), subject, notifications[n])
  }

  function Receipts(w: Watcher, notifications: seq<Json>): (steps: seq<Step>)
    ensures |steps| == |notifications|
    ensures forall i :: 0 <= i < |steps| ==> steps[i] == Receive(w, notifications[i])
  {
    seq(|notifications|, i requires 0 <= i < |notifications| => Receive(w, notifications[i]))
  }

  /** One step at the end of a run. */
  lemma {:induction false} RunSnoc(s: System, steps: seq<Step>, step: Step)
    requires s.b.WellFormed() && Possible(s, steps)
    requires var s' := Run(s, steps); s'.b.WellFormed() && Enabled(s', step) && Apply(s', step).b.WellFormed()
    ensures Possible(s, steps + [step]) && Run(s, steps + [step]) == Apply(Run(s, steps), step)
    decreases |steps|
  {
    hide Apply;
    hide Enabled;
    if steps == [] {
      assert [] + [step] == [step] && [step][1..] == [];
    } else {
      RunSnoc(Apply(s, steps[0]), steps[1..], step);
      assert (steps + [step])[1..] == steps[1..] + [step];
    }
  }

  /** A message that is handled without interruption is its elements handled in turn; the versions
      and publications are then those of HandleMessage.  An interrupted one is a shorter message. */
  lemma {:induction false} MessageIsItsElements(s: System, w: Watcher, notifications: seq<Json>)
    requires s.b.WellFormed() && w in s.b.tasks && s.b.tasks[w] == Running
    ensures var steps := Receipts(w, notifications);
            && Possible(s, steps)
            && var s' := Run(s, steps);
               && s' == ReceivedAll(s, w.subject, notifications)
               && s'.b == AfterMessage(s.b, w.subject, Updates(notifications))
    decreases |notifications|
  {
    hide AfterMessage;
    hide Received;
    if notifications == [] {
      assert Receipts(w, []) == [];
      NothingReceived(s.b, w.subject);
    } else {
      hide Run;
      hide Possible;
      var n := |notifications| - 1;
      var before, last := notifications[..n], notifications[n];
      MessageIsItsElements(s, w, before);
      var s' := Run(s, Receipts(w, before));
      AfterMessageFormed(s.b, w.subject, Updates(before));
      OneElement(s, s', w.subject, before, last);
      NextUpdates(notifications, n);
      assert notifications[..n + 1] == notifications;
      AfterMessageFormed(s.b, w.subject, Updates(notifications));
      RunSnoc(s, Receipts(w, before), Receive(w, last));
      assert Receipts(w, notifications) == Receipts(w, before) + [Receive(w, last)];
    }
  }

  lemma NothingReceived(b: Bridge, subject: string)
    ensures AfterMessage(b, subject, Updates([])) == b
  {
  }

  lemma AfterMessageFormed(b: Bridge, subject: string, updates: seq<Update>)
    requires b.WellFormed()
    ensures AfterMessage(b, subject, updates).WellFormed() && AfterMessage(b, subject, updates).tasks == b.tasks
  {
    hide Deliver;
  }

  lemma OneElement(s: System, s': System, subject: string, before: seq<Json>, last: Json)
    requires s'.b == AfterMessage(s.b, subject, Updates(before))
    ensures var u := ParseUpdate(last);
            Received(s', subject, last).b ==
            AfterMessage(s.b, subject, if u.Some? then Updates(before) + [u.value] else Updates(before))
  {
    hide Deliver;
    hide ParseUpdate;
    hide PublishedAll;
    if ParseUpdate(last).Some? {
      var u, d := ParseUpdate(last).value, Deliver(s.b.versions, subject, Updates(before));
      DeliverOne(d.versions, subject, u);
      DeliverSnoc(s.b.versions, subject, Updates(before), u);
      PublishedOne(s'.b.hub, subject, u);
      PublishedSnoc(s.b.hub, subject, d.published, u);
    }
  }
}
