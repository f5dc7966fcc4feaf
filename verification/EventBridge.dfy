/** The event bridge of subscriptions.py: per subject a reference count, at most one watcher task,
    the versions it has seen, and the bus and handler of the publisher.

    Every method but one runs between two suspension points of the event loop, so it is one atomic
    step; module EventProtocol interleaves them.  HandleMessage may be suspended, and cancelled, at
    each publication: there each element of a message is a step of its own, and
    EventProtocol.MessageIsItsElements relates the two. */
module EventBridges {
  import opened Wrappers
  import opened Json
  import opened VersionStream

  /** A watcher task: running, told to stop, or finished (its callback runs some time later). */
  datatype Phase = Running | Cancelling | Finished

  class Watcher {
    const subject: string
    var phase: Phase

    constructor (subject: string)
      ensures this.subject == subject && phase == Running
    {
      this.subject, phase := subject, Running;
    }
  }

  /** The publisher: buses and the handlers listening on them are numbered; sent is the history of
      what was published on which bus. */
  datatype Hub = Hub(buses: map<string, nat>, handlers: map<string, nat>, created: nat, sent: seq<(nat, string)>)

  function WithBus(h: Hub, subject: string): (h': Hub)
    ensures subject in h'.buses
  {
    if subject in h.buses then h else h.(buses := h.buses[subject := h.created], created := h.created + 1)
  }

  function AfterPublish(h: Hub, subject: string, uri: string): Hub {
    var h' := WithBus(h, subject);
    h'.(sent := h'.sent + [(h'.buses[subject], uri)])
  }

  function WithHandler(h: Hub, subject: string): Hub {
    if subject in h.handlers then h
    else
      var h' := WithBus(h, subject);
      h'.(handlers := h'.handlers[subject := h'.buses[subject]])
  }

  function WithoutSubject(h: Hub, subject: string): Hub {
    h.(handlers := h.handlers - {subject}, buses := h.buses - {subject})
  }

  function PublishedAll(h: Hub, subject: string, updates: seq<Update>): Hub {
    if updates == [] then h
    else AfterPublish(PublishedAll(h, subject, updates[..|updates| - 1]), subject, updates[|updates| - 1].uri)
  }

  class SubscriptionPublisher {
    var buses: map<string, nat>
    var handlers: map<string, nat>
    var created: nat
    ghost var sent: seq<(nat, string)>

    ghost function Value(): Hub
      reads this
    {
      Hub(buses, handlers, created, sent)
    }

    constructor ()
      ensures Value() == Hub(map[], map[], 0, [])
    {
      buses, handlers, created, sent := map[], map[], 0, [];
    }

    method Bus(subject: string) returns (bus: nat)
      modifies this
      ensures Value() == WithBus(old(Value()), subject) && bus == Value().buses[subject]
    {
      if subject !in buses {
        buses, created := buses[subject := created], created + 1;
      }
      bus := buses[subject];
    }

    method Publish(subject: string, uri: string)
      modifies this
      ensures Value() == AfterPublish(old(Value()), subject, uri)
    {
      var bus := Bus(subject);
      sent := sent + [(bus, uri)];
    }

    method Handler(subject: string) returns (bus: nat)
      modifies this
      ensures Value() == WithHandler(old(Value()), subject)
      ensures subject in Value().handlers && bus == Value().handlers[subject]
    {
      if subject !in handlers {
        var own := Bus(subject);
        handlers := handlers[subject := own];
      }
      bus := handlers[subject];
    }

    method RemoveSubject(subject: string)
      modifies this
      ensures Value() == WithoutSubject(old(Value()), subject)
    {
      handlers := handlers - {subject};
      buses := buses - {subject};
    }

    method Close()
      modifies this
      ensures Value() == old(Value()).(handlers := map[], buses := map[])
    {
      handlers, buses := map[], map[];
    }
  }

  /** The value of the whole bridge; tasks holds every watcher ever started. */
  datatype Bridge = Bridge(
    watchers: map<string, Watcher>,
    references: map<string, nat>,
    versions: Versions,
    closed: bool,
    hub: Hub,
    tasks: map<Watcher, Phase>)
  {
    ghost predicate WellFormed() {
      forall s :: s in watchers ==> watchers[s] in tasks
    }
  }

  function References(b: Bridge, subject: string): nat {
    if subject in b.references then b.references[subject] else 0
  }

  /** Whether ensure_watcher starts a task. */
  predicate NeedsWatcher(b: Bridge, subject: string)
    requires b.WellFormed()
  {
    !(subject in b.watchers && b.tasks[b.watchers[subject]] != Finished)
  }

  function AfterEnsure(b: Bridge, subject: string, started: Option<Watcher>): Bridge {
    match started
    case None => b
    case Some(w) => b.(watchers := b.watchers[subject := w], tasks := b.tasks[w := Running])
  }

  /** Entering watch_subscription and taking the subject's handler: no suspension in between. */
  function AfterSubscribe(b: Bridge, subject: string, started: Option<Watcher>): Bridge {
    var b' := AfterEnsure(b.(references := b.references[subject := References(b, subject) + 1]), subject, started);
    b'.(hub := WithHandler(b'.hub, subject))
  }

  /** Cancelling a task that has finished changes nothing. */
  function Cancelled(tasks: map<Watcher, Phase>, w: Watcher): map<Watcher, Phase> {
    if w in tasks && tasks[w] == Running then tasks[w := Cancelling] else tasks
  }

  function WithoutVersions(versions: Versions, subject: string): Versions {
    map k | k in versions && k.0 != subject :: versions[k]
  }

  /** The finally block of watch_subscription. */
  function AfterUnsubscribe(b: Bridge, subject: string): Bridge {
    var count: int := if subject in b.references then b.references[subject] else 1;
    var remaining := count - 1;
    if remaining > 0 then b.(references := b.references[subject := remaining])
    else
      b.(references := b.references - {subject}, watchers := b.watchers - {subject},
         versions := WithoutVersions(b.versions, subject), hub := WithoutSubject(b.hub, subject),
         tasks := if subject in b.watchers then Cancelled(b.tasks, b.watchers[subject]) else b.tasks)
  }

  /** _watcher_done. */
  function AfterDone(b: Bridge, subject: string, w: Watcher): Bridge {
    if subject in b.watchers && b.watchers[subject] == w then b.(watchers := b.watchers - {subject}) else b
  }

  function AfterMessage(b: Bridge, subject: string, updates: seq<Update>): Bridge {
    var d := Deliver(b.versions, subject, updates);
    b.(versions := d.versions, hub := PublishedAll(b.hub, subject, d.published))
  }

  function Stopped(told: bool, phase: Phase): Phase {
    if told && phase == Running then Cancelling else phase
  }

  function StoppedAll(tasks: map<Watcher, Phase>, told: set<Watcher>): map<Watcher, Phase> {
    map w | w in tasks :: Stopped(w in told, tasks[w])
  }

  /** The first half of aclose. */
  function Closing(b: Bridge): Bridge {
    b.(closed := true, tasks := StoppedAll(b.tasks, b.watchers.Values))
  }

  /** The second half, once the cancelled tasks have ended. */
  function Cleared(b: Bridge): Bridge {
    b.(watchers := map[], references := map[], versions := map[],
       hub := b.hub.(handlers := map[], buses := map[]))
  }

  class OdooEventBridge {
    const eventsEnabled: bool
    const publisher: SubscriptionPublisher
    var watchers: map<string, Watcher>
    var references: map<string, nat>
    var versions: Versions
    var closed: bool
    ghost var tasks: map<Watcher, Phase>

    ghost predicate Valid()
      reads this, tasks.Keys
    {
      && (forall w :: w in tasks ==> tasks[w] == w.phase)
      && (forall s :: s in watchers ==> watchers[s] in tasks && watchers[s].subject == s)
    }

    ghost function Value(): Bridge
      reads this, publisher
    {
      Bridge(watchers, references, versions, closed, publisher.Value(), tasks)
    }

    constructor (eventsEnabled: bool, publisher: SubscriptionPublisher)
      ensures Valid() && this.publisher == publisher && this.eventsEnabled == eventsEnabled
      ensures Value() == Bridge(map[], map[], map[], false, publisher.Value(), map[])
    {
      this.eventsEnabled, this.publisher := eventsEnabled, publisher;
      watchers, references, versions, closed, tasks := map[], map[], map[], false, map[];
    }

    method EnsureWatcher(subject: string) returns (started: Option<Watcher>)
      requires Valid()
      modifies this`watchers, this`tasks
      ensures Valid() && Value() == AfterEnsure(old(Value()), subject, started)
      ensures started.Some? <==> !closed && eventsEnabled && subject != "" && NeedsWatcher(old(Value()), subject)
      ensures started.Some? ==> fresh(started.value) && started.value.subject == subject
    {
      if closed || !eventsEnabled || subject == "" {
        return None;
      }
      if subject in watchers && watchers[subject].phase != Finished {
        return None;
      }
      var task := new Watcher(subject);
      watchers, tasks := watchers[subject := task], tasks[task := Running];
      started := Some(task);
    }

    /** The part of a subscription before its handler starts to listen; it counts only if the
        bridge is open, events are enabled and the caller has a subject. */
    method Subscribe(subject: string) returns (started: Option<Watcher>)
      requires Valid()
      modifies this`watchers, this`references, this`tasks, publisher
      ensures Valid()
      ensures Value() ==
              if closed || !eventsEnabled || subject == ""
              then old(Value()).(hub := WithHandler(old(publisher.Value()), subject))
              else AfterSubscribe(old(Value()), subject, started)
      ensures started.Some? <==> !closed && eventsEnabled && subject != "" && NeedsWatcher(old(Value()), subject)
      ensures started.Some? ==> fresh(started.value) && started.value.subject == subject
    {
      started := None;
      if !closed && eventsEnabled && subject != "" {
        var count := if subject in references then references[subject] else 0;
        references := references[subject := count + 1];
        started := EnsureWatcher(subject);
      }
      var _ := publisher.Handler(subject);
    }

    /** task.cancel(). */
    method Cancel(task: Watcher)
      requires Valid() && task in tasks
      modifies this`tasks, task
      ensures Valid() && tasks == Cancelled(old(tasks), task)
    {
      if task.phase == Running {
        task.phase := Cancelling;
        tasks := tasks[task := Cancelling];
      }
    }

    method Unsubscribe(subject: string)
      requires Valid()
      modifies this`watchers, this`references, this`versions, this`tasks, publisher, tasks.Keys
      ensures Valid() && Value() == AfterUnsubscribe(old(Value()), subject)
    {
      var count: int := if subject in references then references[subject] else 1;
      var remaining := count - 1;
      if remaining > 0 {
        references := references[subject := remaining];
      } else {
        references := references - {subject};
        var task := if subject in watchers then Some(watchers[subject]) else None;
        watchers := watchers - {subject};
        versions := WithoutVersions(versions, subject);
        publisher.RemoveSubject(subject);
        if task.Some? {
          Cancel(task.value);
        }
      }
    }

    method WatcherDone(subject: string, task: Watcher)
      requires Valid()
      modifies this`watchers
      ensures Valid() && Value() == AfterDone(old(Value()), subject, task)
    {
      if subject in watchers && watchers[subject] == task {
        watchers := watchers - {subject};
      }
    }

    /** One WebSocket message; None is one that is not JSON. */
    method HandleMessage(subject: string, message: Option<Json>)
      requires Valid()
      modifies this`versions, publisher
      ensures Valid()
      ensures Value() == AfterMessage(old(Value()), subject,
                                      if message.Some? && message.value.Arr? then Updates(message.value.items) else [])
    {
      if message.None? || !message.value.Arr? {
        return;
      }
      var notifications := message.value.items;
      ghost var hub := publisher.Value();
      for i := 0 to |notifications|
        invariant watchers == old(watchers) && references == old(references)
        invariant closed == old(closed) && tasks == old(tasks)
        invariant Delivery(versions, Deliver(old(versions), subject, Updates(notifications[..i])).published)
                  == Deliver(old(versions), subject, Updates(notifications[..i]))
        invariant publisher.Value()
                  == PublishedAll(hub, subject, Deliver(old(versions), subject, Updates(notifications[..i])).published)
      {
        var update := ParseUpdate(notifications[i]);
        ghost var before := Updates(notifications[..i]);
        NextUpdates(notifications, i);
        if update.Some? {
          DeliverSnoc(old(versions), subject, before, update.value);
          var uri, version := update.value.uri, update.value.version;
          if version > Seen(versions, subject, uri) {
            versions := versions[(subject, uri) := version];
            publisher.Publish(subject, uri);
            PublishedSnoc(hub, subject, Deliver(old(versions), subject, before).published, update.value);
          }
        }
      }
      assert notifications[..|notifications|] == notifications;
    }

    /** The loop of aclose over the registered tasks. */
    method CancelAll(pending: set<Watcher>)
      requires Valid() && pending <= tasks.Keys
      modifies this`tasks, pending
      ensures Valid() && tasks == StoppedAll(old(tasks), pending)
    {
      var left := pending;
      ghost var was := tasks;
      while left != {}
        invariant Valid() && left <= pending && tasks.Keys == was.Keys
        invariant forall w :: w in tasks ==> tasks[w] == Stopped(w in pending && w !in left, was[w])
        decreases |left|
      {
        var task :| task in left;
        Cancel(task);
        left := left - {task};
      }
      assert tasks == StoppedAll(was, pending);
    }

    method CloseBegin()
      requires Valid()
      modifies this`closed, this`tasks, watchers.Values
      ensures Valid() && Value() == Closing(old(Value()))
    {
      closed := true;
      CancelAll(watchers.Values);
    }

    method CloseEnd()
      requires Valid()
      modifies this`watchers, this`references, this`versions, publisher
      ensures Valid() && Value() == Cleared(old(Value()))
    {
      watchers, references, versions := map[], map[], map[];
      publisher.Close();
    }
  }

  lemma NextUpdates(notifications: seq<Json>, i: nat)
    requires i < |notifications|
    ensures Updates(notifications[..i + 1]) ==
            var u := ParseUpdate(notifications[i]);
            if u.Some? then Updates(notifications[..i]) + [u.value] else Updates(notifications[..i])
  {
    assert notifications[..i + 1][..i] == notifications[..i];
  }

  lemma PublishedSnoc(h: Hub, subject: string, updates: seq<Update>, u: Update)
    ensures PublishedAll(h, subject, updates + [u]) == AfterPublish(PublishedAll(h, subject, updates), subject, u.uri)
  {
    assert (updates + [u])[..|updates|] == updates;
  }
}
