/** Every interleaving of the tasks that use one OperationQueue.

    A task's number is its order of arrival.  A task waits, is resumed into the slot or
    abandons the queue, and each of its locked sections is one of the registry functions
    of OperationQueues.  A waiter's future may be cancelled before its task notices, a
    granted task may still abandon, and an abandoning task may be granted. */
module QueueProtocol {
  import opened Wrappers
  import opened OperationQueues

  datatype Phase = Waiting | Abandoning | Holding | Served | Left

  datatype Task = Task(key: string, entry: Entry, waiter: Option<Future>, phase: Phase) {
    predicate InQueue() {
      phase == Waiting || phase == Abandoning
    }
  }

  /** The registry and its tasks, with four history variables: the task that created each
      future, the key each entry was created for, the slot owner of each key followed by
      the tasks in its deque, and the order in which slots were given. */
  datatype System = System(
    max: nat,
    reg: Registry,
    tasks: seq<Task>,
    claimant: map<Future, nat>,
    home: map<Entry, string>,
    line: map<string, seq<nat>>,
    grants: seq<nat>)

  datatype Step =
    | Arrive(key: string, answer: Entered)
    | Cancel(task: nat)
    | Resume(task: nat)
    | Abandon(task: nat)
    | Discard(task: nat)
    | Release(task: nat)

  function FutureOf(s: System, i: nat): Option<FutureState>
    requires i < |s.tasks|
  {
    match s.tasks[i].waiter
    case None => None
    case Some(w) => if w in s.reg.futures then Some(s.reg.futures[w]) else None
  }

  /** When a step may happen: nothing but a task's own progress is assumed. */
  ghost predicate Enabled(s: System, step: Step)
    requires s.reg.Closed()
  {
    match step
    case Arrive(key, answer) => Admits(s.reg, s.max, key, answer)
    case Cancel(i) => i < |s.tasks| && s.tasks[i].InQueue() && FutureOf(s, i) == Some(Pending)
    case Resume(i) => i < |s.tasks| && s.tasks[i].phase == Waiting && FutureOf(s, i) == Some(Granted)
    case Abandon(i) => i < |s.tasks| && s.tasks[i].phase == Waiting
    case Discard(i) =>
      && i < |s.tasks| && s.tasks[i].phase == Abandoning
      && s.tasks[i].entry in s.reg.heap && FutureOf(s, i).Some?
    case Release(i) => i < |s.tasks| && s.tasks[i].phase == Holding && s.tasks[i].entry in s.reg.heap
  }

  function SetPhase(s: System, i: nat, phase: Phase): System
    requires i < |s.tasks|
  {
    s.(tasks := s.tasks[i := s.tasks[i].(phase := phase)])
  }

  /** The tasks behind a key's deque, and the owner before them. */
  function Line(s: System, key: string): seq<nat> {
    if key in s.line then s.line[key] else []
  }

  /** Run _release_locked and record whom it served. */
  function PassOn(s: System, key: string, e: Entry): System
    requires s.reg.Closed() && e in s.reg.heap
  {
    var n := DonePrefix(s.reg.heap[e].waiters, s.reg.futures);
    var l := Line(s, key);
    if n + 1 < |l| then
      s.(reg := Released(s.reg, key, e), line := s.line[key := l[n + 1..]], grants := s.grants + [l[n + 1]])
    else
      s.(reg := Released(s.reg, key, e), line := s.line - {key})
  }

  /** A task finds its key free and takes the slot through the new entry e. */
  function Started(s: System, key: string, e: Entry): System {
    s.(reg := AfterEnter(s.reg, key, Immediate(e)),
       tasks := s.tasks + [Task(key, e, None, Holding)],
       home := s.home[e := key],
       line := s.line[key := [|s.tasks|]],
       grants := s.grants + [|s.tasks|])
  }

  /** A task joins the end of a deque. */
  function Joined(s: System, key: string, e: Entry, w: Future): System {
    s.(reg := AfterEnter(s.reg, key, Enqueued(e, w)),
       tasks := s.tasks + [Task(key, e, Some(w), Waiting)],
       claimant := s.claimant[w := |s.tasks|],
       line := s.line[key := Line(s, key) + [|s.tasks|]])
  }

  function Settle(s: System, i: nat, state: FutureState): System
    requires i < |s.tasks| && s.tasks[i].waiter.Some?
  {
    s.(reg := s.reg.(futures := s.reg.futures[s.tasks[i].waiter.value := state]))
  }

  /** An abandoning task removes its waiter from the deque. */
  function Withdrawn(s: System, i: nat): System
    requires i < |s.tasks| && s.tasks[i].waiter.Some? && s.reg.Closed()
    requires s.tasks[i].entry in s.reg.heap && s.tasks[i].waiter.value in s.reg.futures
  {
    var task, l := s.tasks[i], Line(s, s.tasks[i].key);
    var p := IndexOf(s.reg.heap[task.entry].waiters, task.waiter.value);
    SetPhase(s, i, Left).(
      reg := Discarded(s.reg, task.key, task.entry, task.waiter.value),
      line := s.line[task.key := if p + 1 < |l| then RemoveAt(l, p + 1) else l])
  }

  ghost function Apply(s: System, step: Step): System
    requires s.reg.Closed() && Enabled(s, step)
  {
    match step
    case Arrive(key, Full) => s
    case Arrive(key, Immediate(e)) => Started(s, key, e)
    case Arrive(key, Enqueued(e, w)) => Joined(s, key, e, w)
    case Cancel(i) => Settle(s, i, Cancelled)
    case Resume(i) => SetPhase(s, i, Holding)
    case Abandon(i) => SetPhase(s, i, Abandoning)
    case Discard(i) =>
      var e, w := s.tasks[i].entry, s.tasks[i].waiter.value;
      if w in s.reg.heap[e].waiters then Withdrawn(s, i)
      else if s.reg.futures[w] != Cancelled then PassOn(SetPhase(s, i, Left), s.tasks[i].key, e)
      else SetPhase(s, i, Left)
    case Release(i) => PassOn(SetPhase(s, i, Served), s.tasks[i].key, s.tasks[i].entry)
  }

  /** Each step changes the registry exactly as the queue's method for that section does. */
  lemma StepsAreTheMethods(s: System, step: Step)
    requires s.reg.Closed() && Enabled(s, step)
    ensures match step
            case Arrive(key, answer) => Apply(s, step).reg == AfterEnter(s.reg, key, answer)
            case Discard(i) =>
              Apply(s, step).reg == Discarded(s.reg, s.tasks[i].key, s.tasks[i].entry, s.tasks[i].waiter.value)
            case Release(i) => Apply(s, step).reg == Released(s.reg, s.tasks[i].key, s.tasks[i].entry)
            case _ => Apply(s, step).reg.entries == s.reg.entries && Apply(s, step).reg.heap == s.reg.heap
  {
  }

  /** Task i owns its key's slot: it holds it, or was granted it and has yet to notice. */
  predicate Owns(s: System, i: nat) {
    && i < |s.tasks|
    && (s.tasks[i].phase == Holding || (s.tasks[i].InQueue() && FutureOf(s, i) == Some(Granted)))
  }

  /** Task i is queued and may still be granted. */
  predicate Hopeful(s: System, i: nat) {
    i < |s.tasks| && s.tasks[i].InQueue() && FutureOf(s, i) == Some(Pending)
  }

  /** A registered key is active; its owner comes first, then its deque in arrival order. */
  ghost predicate KeyOk(s: System, k: string)
    requires k in s.reg.entries && s.reg.entries[k] in s.reg.heap
  {
    var e, l := s.reg.entries[k], Line(s, k);
    var ws := s.reg.heap[e].waiters;
    && s.reg.heap[e].active && e in s.home && s.home[e] == k
    && |ws| <= s.max && |l| == |ws| + 1
    && (forall p :: 0 <= p < |l| ==> l[p] < |s.tasks| && s.tasks[l[p]].key == k && s.tasks[l[p]].entry == e)
    && (forall p, q :: 0 <= p < q < |l| ==> l[p] < l[q])
    && Owns(s, l[0])
    && (forall p :: 0 <= p < |ws| ==> StillQueued(s, l[p + 1], ws[p]))
  }

  predicate StillQueued(s: System, i: nat, w: Future) {
    && i < |s.tasks| && s.tasks[i].InQueue() && s.tasks[i].waiter == Some(w)
    && FutureOf(s, i) != Some(Granted)
  }

  /** Whoever owns or may be granted a slot stands in its key's line, through the registered entry. */
  ghost predicate TaskOk(s: System, i: nat)
    requires i < |s.tasks|
  {
    var t := s.tasks[i];
    && t.entry in s.reg.heap
    && (t.InQueue() ==> t.waiter.Some?)
    && (Owns(s, i) || Hopeful(s, i) ==>
          t.key in s.reg.entries && s.reg.entries[t.key] == t.entry && i in Line(s, t.key))
    && (Owns(s, i) || (FutureOf(s, i) == Some(Granted)) ==> i in s.grants)
  }

  /** An active entry is the one registered under the key it was created for. */
  predicate AtHome(s: System, e: Entry) {
    e in s.home && s.home[e] in s.reg.entries && s.reg.entries[s.home[e]] == e
  }

  /** A future belongs to the task that created it. */
  ghost predicate Claims(s: System, i: nat)
    requires i < |s.tasks|
  {
    s.tasks[i].waiter.Some? ==>
      s.tasks[i].waiter.value in s.claimant && s.claimant[s.tasks[i].waiter.value] == i
  }

  /** Slots of a key are given in arrival order, and never past the tasks now in line. */
  ghost predicate GrantsOk(s: System) {
    && (forall a :: 0 <= a < |s.grants| ==> s.grants[a] < |s.tasks|)
    && (forall a, b :: 0 <= a < b < |s.grants| && s.tasks[s.grants[a]].key == s.tasks[s.grants[b]].key ==>
          s.grants[a] < s.grants[b])
    && (forall a :: 0 <= a < |s.grants| ==> Behind(s, s.grants[a]))
  }

  predicate Behind(s: System, g: nat) {
    && g < |s.tasks|
    && var l := Line(s, s.tasks[g].key);
       l != [] ==> g <= l[0]
  }

  /** Task i was given the slot: it took it free, or its future was granted. */
  predicate Given(s: System, i: nat) {
    i < |s.tasks| && (s.tasks[i].waiter.None? || FutureOf(s, i) == Some(Granted))
  }

  /** The history of slots given names nobody who was not given one. */
  predicate GivenOk(s: System) {
    forall a :: 0 <= a < |s.grants| ==> Given(s, s.grants[a])
  }

  ghost predicate Inv(s: System) {
    && s.reg.Closed()
    && s.line.Keys == s.reg.entries.Keys
    && s.claimant.Keys == s.reg.futures.Keys
    && (forall k :: k in s.reg.entries ==> KeyOk(s, k))
    && (forall i :: 0 <= i < |s.tasks| ==> TaskOk(s, i))
    && (forall i :: 0 <= i < |s.tasks| ==> Claims(s, i))
    && (forall e :: e in s.reg.heap && !s.reg.heap[e].active ==> s.reg.heap[e].waiters == [])
    && (forall e :: e in s.reg.heap && s.reg.heap[e].active ==> AtHome(s, e))
    && GrantsOk(s) && GivenOk(s)
  }

  function Initial(max: nat): System {
    System(max, Registry(map[], map[], map[]), [], map[], map[], map[], [])
  }

  lemma InitialOk(max: nat)
    ensures Inv(Initial(max))
  {
  }

  predicate SameTask(s: System, s': System, i: nat) {
    i < |s.tasks| && i < |s'.tasks| && s'.tasks[i] == s.tasks[i] && FutureOf(s', i) == FutureOf(s, i)
  }

  /** A future that was granted stays so. */
  predicate Settled(fs: map<Future, FutureState>, fs': map<Future, FutureState>) {
    forall w :: w in fs && fs[w] == Granted ==> w in fs' && fs'[w] == Granted
  }

  /** Nothing that was given is taken back, and what is given next is on record. */
  lemma GivenFrame(s: System, s': System)
    requires GivenOk(s) && Settled(s.reg.futures, s'.reg.futures) && |s.tasks| <= |s'.tasks|
    requires forall i :: 0 <= i < |s.tasks| ==> s'.tasks[i].waiter == s.tasks[i].waiter
    requires s'.grants == s.grants || exists j: nat :: Given(s', j) && s'.grants == s.grants + [j]
    ensures GivenOk(s')
  {
    forall a | 0 <= a < |s'.grants|
      ensures Given(s', s'.grants[a])
    {
      if a < |s.grants| {
        assert Given(s, s.grants[a]);
      }
    }
  }

  /** A key keeps its shape when its entry, its line and the tasks in its line do. */
  lemma KeyFrame(s: System, s': System, k: string)
    requires s.reg.Closed() && s'.reg.Closed()
    requires k in s.reg.entries && KeyOk(s, k)
    requires k in s'.reg.entries && s'.reg.entries[k] == s.reg.entries[k]
    requires s'.reg.heap[s.reg.entries[k]] == s.reg.heap[s.reg.entries[k]]
    requires Line(s', k) == Line(s, k) && s'.max == s.max
    requires s.reg.entries[k] in s'.home && s'.home[s.reg.entries[k]] == k
    requires forall p :: 0 <= p < |Line(s, k)| ==> SameTask(s, s', Line(s, k)[p])
    ensures KeyOk(s', k)
  {
    assert SameTask(s, s', Line(s, k)[0]);
    forall p | 0 <= p < |s.reg.heap[s.reg.entries[k]].waiters|
      ensures StillQueued(s', Line(s, k)[p + 1], s.reg.heap[s.reg.entries[k]].waiters[p])
    {
      assert SameTask(s, s', Line(s, k)[p + 1]);
    }
  }

  /** Behind the owner stand exactly the tasks of the deque, none of which owns the slot. */
  lemma LineBehind(s: System, k: string)
    requires s.reg.Closed() && k in s.reg.entries && KeyOk(s, k)
    ensures var ws, l := s.reg.heap[s.reg.entries[k]].waiters, Line(s, k);
            && |l| == |ws| + 1 && Owns(s, l[0])
            && (forall p :: 0 < p < |l| ==>
                  && l[p] < |s.tasks| && !Owns(s, l[p])
                  && s.tasks[l[p]].waiter.Some? && s.tasks[l[p]].waiter.value in ws)
  {
    var ws, l := s.reg.heap[s.reg.entries[k]].waiters, Line(s, k);
    forall p | 0 < p < |l|
      ensures l[p] < |s.tasks| && !Owns(s, l[p])
      ensures s.tasks[l[p]].waiter.Some? && s.tasks[l[p]].waiter.value in ws
    {
      assert StillQueued(s, l[p - 1 + 1], ws[p - 1]);
    }
  }

  /** The owner of a slot stands first in its key's line. */
  lemma OwnerFirst(s: System, i: nat)
    requires Inv(s) && Owns(s, i)
    ensures var k := s.tasks[i].key;
            && k in s.reg.entries && s.reg.entries[k] == s.tasks[i].entry
            && KeyOk(s, k) && Line(s, k) != [] && Line(s, k)[0] == i
  {
    var k := s.tasks[i].key;
    assert TaskOk(s, i) && KeyOk(s, k);
    LineBehind(s, k);
  }

  /** A task that may be granted waits in the registered deque of its key, behind a live owner. */
  lemma HopefulQueued(s: System, i: nat)
    requires Inv(s) && Hopeful(s, i)
    ensures var t := s.tasks[i];
            && t.entry in s.reg.heap && t.waiter.Some? && t.waiter.value in s.reg.heap[t.entry].waiters
            && t.key in s.reg.entries && s.reg.entries[t.key] == t.entry
            && KeyOk(s, t.key) && Line(s, t.key) != [] && Line(s, t.key)[0] < i
            && Owns(s, Line(s, t.key)[0]) && s.tasks[Line(s, t.key)[0]].key == t.key
  {
    var k := s.tasks[i].key;
    assert TaskOk(s, i) && KeyOk(s, k);
    LineBehind(s, k);
  }

  /** A waiter found in a deque belongs to its key's registered entry, one place behind in the line. */
  lemma QueuedPlace(s: System, i: nat, p: nat)
    requires Inv(s) && i < |s.tasks| && s.tasks[i].waiter.Some? && TaskOk(s, i)
    requires p < |s.reg.heap[s.tasks[i].entry].waiters|
    requires s.reg.heap[s.tasks[i].entry].waiters[p] == s.tasks[i].waiter.value
    ensures var k := s.tasks[i].key;
            && k in s.reg.entries && s.reg.entries[k] == s.tasks[i].entry
            && KeyOk(s, k) && Line(s, k)[p + 1] == i
  {
    var e := s.tasks[i].entry;
    assert s.reg.heap[e].active && AtHome(s, e);
    var k := s.home[e];
    assert KeyOk(s, k);
    var j := Line(s, k)[p + 1];
    assert StillQueued(s, j, s.reg.heap[e].waiters[p]);
    assert Claims(s, i) && Claims(s, j);
  }

  /** Noticing a grant, giving up, or leaving after being skipped moves one task and no future. */
  ghost predicate Moves(s: System, i: nat, phase: Phase) {
    && i < |s.tasks| && s.tasks[i].InQueue()
    && (|| phase == Abandoning
        || (phase == Holding && FutureOf(s, i) == Some(Granted))
        || (phase == Left && FutureOf(s, i) == Some(Cancelled) && s.tasks[i].entry in s.reg.heap
            && s.tasks[i].waiter.value !in s.reg.heap[s.tasks[i].entry].waiters))
  }

  lemma MoveKey(s: System, i: nat, phase: Phase, k: string)
    requires Moves(s, i, phase) && k in s.reg.entries && s.reg.entries[k] in s.reg.heap && KeyOk(s, k)
    ensures KeyOk(SetPhase(s, i, phase), k)
  {
    var s' := SetPhase(s, i, phase);
    forall p | 0 <= p < |s.reg.heap[s.reg.entries[k]].waiters|
      ensures StillQueued(s', Line(s, k)[p + 1], s.reg.heap[s.reg.entries[k]].waiters[p])
    {
      assert StillQueued(s, Line(s, k)[p + 1], s.reg.heap[s.reg.entries[k]].waiters[p]);
    }
  }

  lemma MoveTask(s: System, i: nat, phase: Phase, j: nat)
    requires Moves(s, i, phase) && j < |s.tasks| && TaskOk(s, j)
    ensures TaskOk(SetPhase(s, i, phase), j)
  {
  }

  lemma MoveKeeps(s: System, i: nat, phase: Phase)
    requires Inv(s) && Moves(s, i, phase)
    ensures Inv(SetPhase(s, i, phase))
  {
    hide KeyOk;
    hide TaskOk;
    var s' := SetPhase(s, i, phase);
    forall k | k in s'.reg.entries
      ensures KeyOk(s', k)
    {
      MoveKey(s, i, phase, k);
    }
    forall j | 0 <= j < |s'.tasks|
      ensures TaskOk(s', j) && Claims(s', j)
    {
      assert Claims(s, j);
      MoveTask(s, i, phase, j);
    }
    assert GrantsOk(s') by {
      assert forall a :: 0 <= a < |s.grants| ==> Behind(s, s.grants[a]);
    }
    GivenFrame(s, s');
  }

  /** Settling one task's future, and perhaps its phase, touches no other task. */
  lemma OthersSame(s: System, s': System, i: nat, j: nat)
    requires i < |s.tasks| && j < |s.tasks| && j != i && Claims(s, i) && Claims(s, j)
    requires |s'.tasks| == |s.tasks| && s'.tasks[j] == s.tasks[j] && s.tasks[i].waiter.Some?
    requires s'.reg.futures.Keys == s.reg.futures.Keys
    requires forall w :: w in s.reg.futures && w != s.tasks[i].waiter.value ==> s'.reg.futures[w] == s.reg.futures[w]
    ensures SameTask(s, s', j)
  {
  }

  /** Grant order survives when keys and grants stay and every line only advances. */
  lemma GrantsFrame(s: System, s': System)
    requires GrantsOk(s) && s'.grants == s.grants && |s.tasks| <= |s'.tasks|
    requires forall i :: 0 <= i < |s.tasks| ==> s'.tasks[i].key == s.tasks[i].key
    requires forall k :: Advances(s, s', k)
    ensures GrantsOk(s')
  {
    forall a | 0 <= a < |s.grants|
      ensures Behind(s', s.grants[a])
    {
      assert Behind(s, s.grants[a]) && Advances(s, s', s.tasks[s.grants[a]].key);
    }
  }

  predicate Advances(s: System, s': System, k: string) {
    Line(s', k) != [] ==>
      if Line(s, k) != [] then Line(s, k)[0] <= Line(s', k)[0] else |s.tasks| <= Line(s', k)[0]
  }

  lemma CancelKey(s: System, i: nat, k: string)
    requires i < |s.tasks| && s.tasks[i].InQueue() && FutureOf(s, i) == Some(Pending)
    requires forall j :: 0 <= j < |s.tasks| ==> Claims(s, j)
    requires k in s.reg.entries && s.reg.entries[k] in s.reg.heap && KeyOk(s, k)
    ensures KeyOk(Settle(s, i, Cancelled), k)
  {
    var s', e, l := Settle(s, i, Cancelled), s.reg.entries[k], Line(s, k);
    forall j | 0 <= j < |s.tasks| && j != i
      ensures SameTask(s, s', j)
    {
      OthersSame(s, s', i, j);
    }
    assert SameTask(s, s', l[0]);
    forall p | 0 <= p < |s.reg.heap[e].waiters|
      ensures StillQueued(s', l[p + 1], s.reg.heap[e].waiters[p])
    {
      assert StillQueued(s, l[p + 1], s.reg.heap[e].waiters[p]);
      assert l[p + 1] != i ==> SameTask(s, s', l[p + 1]);
    }
  }

  lemma CancelTask(s: System, i: nat, j: nat)
    requires i < |s.tasks| && s.tasks[i].InQueue() && FutureOf(s, i) == Some(Pending)
    requires j < |s.tasks| && TaskOk(s, j) && Claims(s, j) && Claims(s, i)
    ensures TaskOk(Settle(s, i, Cancelled), j) && Claims(Settle(s, i, Cancelled), j)
  {
    if j != i {
      OthersSame(s, Settle(s, i, Cancelled), i, j);
    }
  }

  lemma CancelKeeps(s: System, i: nat)
    requires Inv(s) && i < |s.tasks| && s.tasks[i].InQueue() && FutureOf(s, i) == Some(Pending)
    ensures Inv(Settle(s, i, Cancelled))
  {
    hide KeyOk;
    hide TaskOk;
    hide Claims;
    var s' := Settle(s, i, Cancelled);
    assert s'.claimant.Keys == s'.reg.futures.Keys;
    forall k | k in s'.reg.entries
      ensures KeyOk(s', k)
    {
      CancelKey(s, i, k);
    }
    forall j | 0 <= j < |s'.tasks|
      ensures TaskOk(s', j) && Claims(s', j)
    {
      CancelTask(s, i, j);
    }
    GrantsFrame(s, s');
    GivenFrame(s, s');
  }

  lemma StartKey(s: System, key: string, e: Entry, k: string)
    requires s.reg.Closed() && key !in s.reg.entries && e !in s.reg.heap
    requires k == key || (k in s.reg.entries && KeyOk(s, k))
    ensures KeyOk(Started(s, key, e), k)
  {
    var s' := Started(s, key, e);
    if k == key {
      assert Owns(s', |s.tasks|);
    } else {
      KeyFrame(s, s', k);
    }
  }

  lemma StartTask(s: System, key: string, e: Entry, j: nat)
    requires Inv(s) && key !in s.reg.entries && e !in s.reg.heap && j <= |s.tasks|
    ensures TaskOk(Started(s, key, e), j) && Claims(Started(s, key, e), j)
  {
    hide KeyOk;
    hide GrantsOk;
    if j < |s.tasks| {
      assert TaskOk(s, j) && Claims(s, j) && SameTask(s, Started(s, key, e), j);
    }
  }

  lemma StartGrants(s: System, key: string, e: Entry)
    requires GrantsOk(s) && key !in s.line
    ensures GrantsOk(Started(s, key, e))
  {
    var s' := Started(s, key, e);
    forall a | 0 <= a < |s'.grants|
      ensures Behind(s', s'.grants[a])
    {
      assert a < |s.grants| ==> Behind(s, s.grants[a]);
    }
  }

  /** A registered key is never found inactive, so a task is served at once only under a new entry. */
  lemma FreshOnly(s: System, key: string, e: Entry)
    requires Inv(s) && Admits(s.reg, s.max, key, Immediate(e))
    ensures key !in s.reg.entries && e !in s.reg.heap
  {
    RegisteredActive(s);
  }

  lemma RegisteredActive(s: System)
    requires Inv(s)
    ensures forall k :: k in s.reg.entries ==> s.reg.heap[s.reg.entries[k]].active
  {
    forall k | k in s.reg.entries
      ensures s.reg.heap[s.reg.entries[k]].active
    {
      assert KeyOk(s, k);
    }
  }

  lemma StartKeeps(s: System, key: string, e: Entry)
    requires Inv(s) && key !in s.reg.entries && e !in s.reg.heap
    ensures Inv(Started(s, key, e))
  {
    hide KeyOk;
    hide TaskOk;
    hide Claims;
    var s' := Started(s, key, e);
    forall k | k in s'.reg.entries
      ensures KeyOk(s', k)
    {
      StartKey(s, key, e, k);
    }
    forall j | 0 <= j < |s'.tasks|
      ensures TaskOk(s', j) && Claims(s', j)
    {
      StartTask(s, key, e, j);
    }
    StartGrants(s, key, e);
    assert Given(s', |s.tasks|);
    GivenFrame(s, s');
    hide GrantsOk;
    forall d | d in s'.reg.heap && s'.reg.heap[d].active
      ensures AtHome(s', d)
    {
      assert d != e ==> AtHome(s, d);
    }
  }

  /** A new future belongs to no earlier task. */
  lemma JoinOthers(s: System, key: string, e: Entry, w: Future)
    requires w !in s.reg.futures && s.claimant.Keys == s.reg.futures.Keys
    requires forall j :: 0 <= j < |s.tasks| ==> Claims(s, j)
    ensures forall j :: 0 <= j < |s.tasks| ==> SameTask(s, Joined(s, key, e, w), j)
  {
    forall j | 0 <= j < |s.tasks|
      ensures SameTask(s, Joined(s, key, e, w), j)
    {
      assert Claims(s, j);
    }
  }

  lemma JoinOwnKey(s: System, key: string, w: Future)
    requires s.reg.Closed() && key in s.reg.entries && KeyOk(s, key)
    requires |s.reg.heap[s.reg.entries[key]].waiters| < s.max
    requires forall j :: 0 <= j < |s.tasks| ==> SameTask(s, Joined(s, key, s.reg.entries[key], w), j)
    ensures KeyOk(Joined(s, key, s.reg.entries[key], w), key)
  {
    var e := s.reg.entries[key];
    var s', l, ws := Joined(s, key, e, w), Line(s, key), s.reg.heap[e].waiters;
    forall p | 0 <= p < |ws| + 1
      ensures StillQueued(s', (l + [|s.tasks|])[p + 1], (ws + [w])[p])
    {
      if p < |ws| {
        assert StillQueued(s, l[p + 1], ws[p]) && SameTask(s, s', l[p + 1]);
      }
    }
    assert SameTask(s, s', l[0]);
  }

  lemma JoinTask(s: System, key: string, w: Future, j: nat)
    requires s.reg.Closed() && key in s.reg.entries && KeyOk(s, key) && w !in s.reg.futures
    requires s.claimant.Keys == s.reg.futures.Keys && j <= |s.tasks|
    requires j < |s.tasks| ==> TaskOk(s, j) && Claims(s, j)
    ensures TaskOk(Joined(s, key, s.reg.entries[key], w), j) && Claims(Joined(s, key, s.reg.entries[key], w), j)
  {
    var s' := Joined(s, key, s.reg.entries[key], w);
    if j < |s.tasks| {
      assert SameTask(s, s', j);
    } else {
      assert Line(s', key)[|Line(s, key)|] == j;
    }
  }

  lemma JoinGrants(s: System, key: string, e: Entry, w: Future)
    requires Inv(s) && Admits(s.reg, s.max, key, Enqueued(e, w))
    ensures GrantsOk(Joined(s, key, e, w))
  {
    hide KeyOk;
    hide TaskOk;
    hide Claims;
    JoinOthers(s, key, e, w);
    LineNonempty(s, key);
    GrantsFrame(s, Joined(s, key, e, w));
  }

  lemma JoinGiven(s: System, key: string, e: Entry, w: Future)
    requires Inv(s) && Admits(s.reg, s.max, key, Enqueued(e, w))
    ensures GivenOk(Joined(s, key, e, w))
  {
    hide KeyOk;
    hide TaskOk;
    hide Claims;
    hide GrantsOk;
    hide GivenOk;
    GivenFrame(s, Joined(s, key, e, w));
  }

  lemma JoinKeeps(s: System, key: string, e: Entry, w: Future)
    requires Inv(s) && Admits(s.reg, s.max, key, Enqueued(e, w))
    ensures Inv(Joined(s, key, e, w))
  {
    hide KeyOk;
    hide TaskOk;
    hide Claims;
    hide GrantsOk;
    var s' := Joined(s, key, e, w);
    JoinOthers(s, key, e, w);
    JoinGrants(s, key, e, w);
    JoinGiven(s, key, e, w);
    hide GivenOk;
    forall k | k in s'.reg.entries
      ensures KeyOk(s', k)
    {
      if k == key {
        JoinOwnKey(s, key, w);
      } else {
        HomeOf(s, k);
        HomeOf(s, key);
        KeyFrame(s, s', k);
      }
    }
    forall j | 0 <= j < |s'.tasks|
      ensures TaskOk(s', j) && Claims(s', j)
    {
      JoinTask(s, key, w, j);
    }
    forall d | d in s'.reg.heap && s'.reg.heap[d].active
      ensures AtHome(s', d)
    {
      assert AtHome(s, d);
    }
  }

  lemma LineNonempty(s: System, k: string)
    requires s.reg.Closed() && k in s.reg.entries && KeyOk(s, k)
    ensures Line(s, k) != []
  {
  }

  lemma HomeOf(s: System, k: string)
    requires s.reg.Closed() && k in s.reg.entries && KeyOk(s, k)
    ensures s.reg.entries[k] in s.home && s.home[s.reg.entries[k]] == k
    ensures forall p :: 0 <= p < |Line(s, k)| ==> Line(s, k)[p] < |s.tasks| && s.tasks[Line(s, k)[p]].key == k
  {
  }

  /** The slot passes from its owner i to the first pending waiter, or the key is retired. */
  ghost function Passed(s: System, i: nat, phase: Phase): System
    requires s.reg.Closed() && i < |s.tasks| && s.tasks[i].entry in s.reg.heap
  {
    PassOn(SetPhase(s, i, phase), s.tasks[i].key, s.tasks[i].entry)
  }

  ghost predicate CanPass(s: System, i: nat, phase: Phase)
    requires s.reg.Closed()
  {
    && i < |s.tasks| && (phase == Served || phase == Left) && Owns(s, i)
    && s.tasks[i].key in s.reg.entries && s.reg.entries[s.tasks[i].key] == s.tasks[i].entry
    && KeyOk(s, s.tasks[i].key) && Line(s, s.tasks[i].key)[0] == i
  }

  /** How many queued tasks the owner's release skips. */
  ghost function Skipped(s: System, i: nat): (n: nat)
    requires s.reg.Closed() && i < |s.tasks| && s.tasks[i].entry in s.reg.heap
    ensures n <= |s.reg.heap[s.tasks[i].entry].waiters|
  {
    DonePrefix(s.reg.heap[s.tasks[i].entry].waiters, s.reg.futures)
  }

  /** Only the old owner and the task granted next change; skipped tasks were neither owners nor hopeful. */
  lemma PassOthers(s: System, i: nat, phase: Phase, j: nat)
    requires s.reg.Closed() && CanPass(s, i, phase)
    requires forall m :: 0 <= m < |s.tasks| ==> Claims(s, m)
    requires j < |s.tasks| && j != i
    requires Skipped(s, i) + 1 < |Line(s, s.tasks[i].key)| ==> j != Line(s, s.tasks[i].key)[Skipped(s, i) + 1]
    ensures SameTask(s, Passed(s, i, phase), j)
  {
    var k, n := s.tasks[i].key, Skipped(s, i);
    var ws := s.reg.heap[s.tasks[i].entry].waiters;
    assert Claims(s, j);
    if n < |ws| {
      assert StillQueued(s, Line(s, k)[n + 1], ws[n]) && Claims(s, Line(s, k)[n + 1]);
    }
  }

  /** A release that finds somebody to serve, spelt out. */
  lemma PassedGrants(s: System, i: nat, phase: Phase)
    requires s.reg.Closed() && CanPass(s, i, phase)
    requires Skipped(s, i) < |s.reg.heap[s.tasks[i].entry].waiters|
    ensures var k, e, n := s.tasks[i].key, s.tasks[i].entry, Skipped(s, i);
            var ws, l := s.reg.heap[e].waiters, Line(s, k);
            && |l| == |ws| + 1 && l[n + 1] < |s.tasks| && StillQueued(s, l[n + 1], ws[n])
            && s.reg.heap[e].active
            && Passed(s, i, phase) == SetPhase(s, i, phase).(
                 reg := s.reg.(heap := s.reg.heap[e := EntryValue(true, ws[n + 1..])],
                               futures := s.reg.futures[ws[n] := Granted]),
                 line := s.line[k := l[n + 1..]],
                 grants := s.grants + [l[n + 1]])
  {
    hide DonePrefix;
  }

  /** A release that finds nobody, spelt out. */
  lemma PassedRetires(s: System, i: nat, phase: Phase)
    requires s.reg.Closed() && CanPass(s, i, phase)
    requires Skipped(s, i) == |s.reg.heap[s.tasks[i].entry].waiters|
    ensures var k, e := s.tasks[i].key, s.tasks[i].entry;
            && |Line(s, k)| == |s.reg.heap[e].waiters| + 1
            && Passed(s, i, phase) == SetPhase(s, i, phase).(
                 reg := s.reg.(entries := s.reg.entries - {k}, heap := s.reg.heap[e := EntryValue(false, [])]),
                 line := s.line - {k})
  {
    hide DonePrefix;
  }

  /** Those behind the task that is served next stay queued. */
  lemma PassQueued(s: System, i: nat, phase: Phase, p: nat)
    requires s.reg.Closed() && CanPass(s, i, phase)
    requires forall m :: 0 <= m < |s.tasks| ==> Claims(s, m)
    requires Skipped(s, i) + 1 + p < |s.reg.heap[s.tasks[i].entry].waiters|
    ensures var n, ws, l := Skipped(s, i), s.reg.heap[s.tasks[i].entry].waiters, Line(s, s.tasks[i].key);
            |l| == |ws| + 1 && StillQueued(Passed(s, i, phase), l[n + 1 + p + 1], ws[n + 1 + p])
  {
    hide Passed;
    hide Skipped;
    var n, ws, l := Skipped(s, i), s.reg.heap[s.tasks[i].entry].waiters, Line(s, s.tasks[i].key);
    var j := l[n + 1 + p + 1];
    assert StillQueued(s, j, ws[n + 1 + p]);
    PassOthers(s, i, phase, j);
  }

  lemma PassOwnKey(s: System, i: nat, phase: Phase)
    requires s.reg.Closed() && CanPass(s, i, phase)
    requires forall m :: 0 <= m < |s.tasks| ==> Claims(s, m)
    requires Skipped(s, i) < |s.reg.heap[s.tasks[i].entry].waiters|
    ensures s.tasks[i].key in Passed(s, i, phase).reg.entries
    ensures Passed(s, i, phase).reg.Closed() && KeyOk(Passed(s, i, phase), s.tasks[i].key)
  {
    hide Passed;
    hide Skipped;
    hide StillQueued;
    hide Owns;
    PassClosed(s, i, phase);
    PassedGrants(s, i, phase);
    var n, s' := Skipped(s, i), Passed(s, i, phase);
    var ws, l := s.reg.heap[s.tasks[i].entry].waiters, Line(s, s.tasks[i].key);
    var ws', l' := ws[n + 1..], l[n + 1..];
    NewOwner(s, i, phase);
    forall p | 0 <= p < |ws'|
      ensures StillQueued(s', l'[p + 1], ws'[p])
    {
      PassQueued(s, i, phase, p);
    }
  }

  lemma PassClosed(s: System, i: nat, phase: Phase)
    requires s.reg.Closed() && CanPass(s, i, phase)
    ensures Passed(s, i, phase).reg.Closed()
  {
    hide Skipped;
    hide KeyOk;
    ReleasedClosed(s.reg, s.tasks[i].key, s.tasks[i].entry);
  }

  lemma NewOwner(s: System, i: nat, phase: Phase)
    requires s.reg.Closed() && CanPass(s, i, phase)
    requires Skipped(s, i) < |s.reg.heap[s.tasks[i].entry].waiters|
    ensures |Line(s, s.tasks[i].key)| == |s.reg.heap[s.tasks[i].entry].waiters| + 1
    ensures Owns(Passed(s, i, phase), Line(s, s.tasks[i].key)[Skipped(s, i) + 1])
  {
    hide Passed;
    hide Skipped;
    PassedGrants(s, i, phase);
  }

  lemma PassOtherKey(s: System, i: nat, phase: Phase, k: string)
    requires s.reg.Closed() && CanPass(s, i, phase)
    requires forall m :: 0 <= m < |s.tasks| ==> Claims(s, m)
    requires k in s.reg.entries && k != s.tasks[i].key && KeyOk(s, k)
    ensures Passed(s, i, phase).reg.Closed() && KeyOk(Passed(s, i, phase), k)
  {
    var s' := Passed(s, i, phase);
    HomeOf(s, s.tasks[i].key);
    HomeOf(s, k);
    ReleasedClosed(s.reg, s.tasks[i].key, s.tasks[i].entry);
    forall p | 0 <= p < |Line(s, k)|
      ensures SameTask(s, s', Line(s, k)[p])
    {
      PassOthers(s, i, phase, Line(s, k)[p]);
    }
    KeyFrame(s, s', k);
  }

  /** A task the release did not skip keeps its place behind the new owner. */
  lemma PassLine(s: System, i: nat, phase: Phase, j: nat)
    requires s.reg.Closed() && CanPass(s, i, phase)
    requires j < |s.tasks| && j != i && (Owns(s, j) || Hopeful(s, j))
    requires j in Line(s, s.tasks[i].key)
    ensures Skipped(s, i) < |s.reg.heap[s.tasks[i].entry].waiters|
    ensures j in Line(s, s.tasks[i].key)[Skipped(s, i) + 1..]
  {
    var n, ws, l := Skipped(s, i), s.reg.heap[s.tasks[i].entry].waiters, Line(s, s.tasks[i].key);
    var p :| 0 <= p < |l| && l[p] == j;
    assert p > 0 && StillQueued(s, l[p - 1 + 1], ws[p - 1]);
    assert p - 1 >= n;
    assert l[n + 1..][p - n - 1] == j;
  }

  lemma PassNext(s: System, i: nat, phase: Phase)
    requires s.reg.Closed() && CanPass(s, i, phase)
    requires Skipped(s, i) < |s.reg.heap[s.tasks[i].entry].waiters|
    ensures var j := Line(s, s.tasks[i].key)[Skipped(s, i) + 1];
            && j < |s.tasks| && j != i
            && (Claims(s, j) && TaskOk(s, j) ==> TaskOk(Passed(s, i, phase), j))
  {
    var k, n, s' := s.tasks[i].key, Skipped(s, i), Passed(s, i, phase);
    var ws, l := s.reg.heap[s.tasks[i].entry].waiters, Line(s, s.tasks[i].key);
    var j := l[n + 1];
    assert StillQueued(s, j, ws[n]);
    assert l[n + 1..][0] == j && s'.grants[|s.grants|] == j;
  }

  /** The old owner has left the queue. */
  lemma PassSelf(s: System, i: nat, phase: Phase)
    requires s.reg.Closed() && CanPass(s, i, phase) && TaskOk(s, i) && Claims(s, i)
    requires forall m :: 0 <= m < |s.tasks| ==> Claims(s, m)
    ensures i < |Passed(s, i, phase).tasks| && TaskOk(Passed(s, i, phase), i)
  {
    hide KeyOk;
    hide Passed;
    hide Skipped;
    if Skipped(s, i) < |s.reg.heap[s.tasks[i].entry].waiters| {
      PassedGrants(s, i, phase);
    } else {
      PassedRetires(s, i, phase);
    }
  }

  lemma PassBystander(s: System, i: nat, phase: Phase, j: nat)
    requires s.reg.Closed() && CanPass(s, i, phase) && j < |s.tasks| && TaskOk(s, j) && j != i
    requires forall m :: 0 <= m < |s.tasks| ==> Claims(s, m)
    requires Skipped(s, i) + 1 < |Line(s, s.tasks[i].key)| ==> j != Line(s, s.tasks[i].key)[Skipped(s, i) + 1]
    ensures j < |Passed(s, i, phase).tasks| && TaskOk(Passed(s, i, phase), j)
  {
    hide KeyOk;
    hide Passed;
    hide Skipped;
    var k := s.tasks[i].key;
    PassOthers(s, i, phase, j);
    if (Owns(s, j) || Hopeful(s, j)) && s.tasks[j].key == k {
      PassLine(s, i, phase, j);
    }
    if Skipped(s, i) < |s.reg.heap[s.tasks[i].entry].waiters| {
      PassedGrants(s, i, phase);
    } else {
      PassedRetires(s, i, phase);
    }
  }

  lemma PassClaims(s: System, i: nat, phase: Phase, j: nat)
    requires s.reg.Closed() && CanPass(s, i, phase) && j < |s.tasks| && Claims(s, j)
    ensures j < |Passed(s, i, phase).tasks| && Claims(Passed(s, i, phase), j)
  {
    hide KeyOk;
    hide Owns;
    hide DonePrefix;
  }

  lemma PassTask(s: System, i: nat, phase: Phase, j: nat)
    requires s.reg.Closed() && CanPass(s, i, phase) && j < |s.tasks| && TaskOk(s, j)
    requires forall m :: 0 <= m < |s.tasks| ==> Claims(s, m)
    ensures j < |Passed(s, i, phase).tasks| && TaskOk(Passed(s, i, phase), j) && Claims(Passed(s, i, phase), j)
  {
    hide KeyOk;
    hide TaskOk;
    hide Claims;
    hide Passed;
    hide Skipped;
    hide Owns;
    assert Claims(s, j) && Claims(s, i);
    PassClaims(s, i, phase, j);
    LineLength(s, s.tasks[i].key);
    if Skipped(s, i) < |s.reg.heap[s.tasks[i].entry].waiters| {
      PassNext(s, i, phase);
    }
    if j == i {
      PassSelf(s, i, phase);
    } else if !(Skipped(s, i) + 1 < |Line(s, s.tasks[i].key)| && j == Line(s, s.tasks[i].key)[Skipped(s, i) + 1]) {
      PassBystander(s, i, phase, j);
    }
  }

  /** The line after a release: shorter, or gone. */
  lemma PassedLine(s: System, i: nat, phase: Phase)
    requires s.reg.Closed() && CanPass(s, i, phase)
    ensures var k, s', n := s.tasks[i].key, Passed(s, i, phase), Skipped(s, i);
            && (forall m :: 0 <= m < |s.tasks| ==> s'.tasks[m].key == s.tasks[m].key) && |s'.tasks| == |s.tasks|
            && (forall l :: l != k ==> Line(s', l) == Line(s, l))
            && if n + 1 < |Line(s, k)|
               then Line(s', k) == Line(s, k)[n + 1..] && s'.grants == s.grants + [Line(s, k)[n + 1]]
               else Line(s', k) == [] && s'.grants == s.grants
  {
    hide KeyOk;
    hide DonePrefix;
  }

  lemma PassGrants(s: System, i: nat, phase: Phase)
    requires s.reg.Closed() && CanPass(s, i, phase) && GrantsOk(s)
    ensures GrantsOk(Passed(s, i, phase))
  {
    hide Passed;
    hide Skipped;
    hide Owns;
    hide StillQueued;
    PassedLine(s, i, phase);
    var s' := Passed(s, i, phase);
    forall a | 0 <= a < |s'.grants|
      ensures Behind(s', s'.grants[a])
    {
      assert a < |s.grants| ==> Behind(s, s.grants[a]);
    }
  }

  /** What a release leaves alone. */
  lemma PassShape(s: System, i: nat, phase: Phase)
    requires s.reg.Closed() && CanPass(s, i, phase) && s.line.Keys == s.reg.entries.Keys
    ensures var s', key, e := Passed(s, i, phase), s.tasks[i].key, s.tasks[i].entry;
            && s'.reg.Closed() && s'.line.Keys == s'.reg.entries.Keys
            && s'.reg.futures.Keys == s.reg.futures.Keys && s'.claimant == s.claimant && s'.home == s.home
            && |s'.tasks| == |s.tasks| && s'.reg.heap.Keys == s.reg.heap.Keys
            && (s'.reg.entries == s.reg.entries || s'.reg.entries == s.reg.entries - {key})
            && (forall d :: d in s.reg.heap && d != e ==> s'.reg.heap[d] == s.reg.heap[d])
            && (s'.reg.heap[e].active <==> key in s'.reg.entries)
            && (!s'.reg.heap[e].active ==> s'.reg.heap[e].waiters == [])
            && (key in s'.reg.entries <==> Skipped(s, i) < |s.reg.heap[e].waiters|)
  {
    hide KeyOk;
    hide Owns;
    hide Passed;
    hide Skipped;
    PassClosed(s, i, phase);
    if Skipped(s, i) < |s.reg.heap[s.tasks[i].entry].waiters| {
      PassedGrants(s, i, phase);
    } else {
      PassedRetires(s, i, phase);
    }
  }

  lemma PassKey(s: System, i: nat, phase: Phase, k: string)
    requires Inv(s) && CanPass(s, i, phase)
    requires Passed(s, i, phase).reg.Closed() && k in Passed(s, i, phase).reg.entries
    ensures KeyOk(Passed(s, i, phase), k)
  {
    hide KeyOk;
    hide TaskOk;
    hide GrantsOk;
    hide Passed;
    hide Skipped;
    PassShape(s, i, phase);
    if k == s.tasks[i].key {
      PassOwnKey(s, i, phase);
    } else {
      PassOtherKey(s, i, phase, k);
    }
  }

  lemma PassHome(s: System, i: nat, phase: Phase, d: Entry)
    requires Inv(s) && CanPass(s, i, phase)
    requires d in Passed(s, i, phase).reg.heap
    ensures Passed(s, i, phase).reg.heap[d].active ==> AtHome(Passed(s, i, phase), d)
    ensures !Passed(s, i, phase).reg.heap[d].active ==> Passed(s, i, phase).reg.heap[d].waiters == []
  {
    hide KeyOk;
    hide TaskOk;
    hide GrantsOk;
    hide Passed;
    hide Skipped;
    PassShape(s, i, phase);
    HomeOf(s, s.tasks[i].key);
    assert s.reg.heap[d].active ==> AtHome(s, d);
  }

  lemma PassGiven(s: System, i: nat, phase: Phase)
    requires s.reg.Closed() && CanPass(s, i, phase) && GivenOk(s)
    ensures GivenOk(Passed(s, i, phase))
  {
    hide KeyOk;
    hide Owns;
    hide Passed;
    hide Skipped;
    hide GivenOk;
    var s' := Passed(s, i, phase);
    if Skipped(s, i) < |s.reg.heap[s.tasks[i].entry].waiters| {
      PassedGrants(s, i, phase);
      assert Given(s', Line(s, s.tasks[i].key)[Skipped(s, i) + 1]);
    } else {
      PassedRetires(s, i, phase);
    }
    GivenFrame(s, s');
  }

  lemma PassKeeps(s: System, i: nat, phase: Phase)
    requires Inv(s) && CanPass(s, i, phase)
    ensures Inv(Passed(s, i, phase))
  {
    hide KeyOk;
    hide TaskOk;
    hide Claims;
    hide Passed;
    hide Skipped;
    var s' := Passed(s, i, phase);
    PassShape(s, i, phase);
    PassGrants(s, i, phase);
    PassGiven(s, i, phase);
    hide GrantsOk;
    hide GivenOk;
    hide AtHome;
    forall k | k in s'.reg.entries
      ensures KeyOk(s', k)
    {
      PassKey(s, i, phase, k);
    }
    forall j | 0 <= j < |s'.tasks|
      ensures TaskOk(s', j) && Claims(s', j)
    {
      PassTask(s, i, phase, j);
    }
    forall d | d in s'.reg.heap
      ensures s'.reg.heap[d].active ==> AtHome(s', d)
      ensures !s'.reg.heap[d].active ==> s'.reg.heap[d].waiters == []
    {
      PassHome(s, i, phase, d);
    }
  }

  lemma LineLength(s: System, k: string)
    requires s.reg.Closed() && k in s.reg.entries && KeyOk(s, k)
    ensures |Line(s, k)| == |s.reg.heap[s.reg.entries[k]].waiters| + 1
    ensures s.reg.heap[s.reg.entries[k]].active
  {
  }

  /** Task i has given up and its waiter still sits at position p of its deque. */
  ghost predicate CanWithdraw(s: System, i: nat, p: nat)
    requires s.reg.Closed()
  {
    && i < |s.tasks| && s.tasks[i].phase == Abandoning && s.tasks[i].waiter.Some?
    && s.tasks[i].key in s.reg.entries && s.reg.entries[s.tasks[i].key] == s.tasks[i].entry
    && KeyOk(s, s.tasks[i].key) && s.tasks[i].waiter.value in s.reg.futures
    && p == IndexOf(s.reg.heap[s.tasks[i].entry].waiters, s.tasks[i].waiter.value)
    && p < |s.reg.heap[s.tasks[i].entry].waiters| && Line(s, s.tasks[i].key)[p + 1] == i
  }

  lemma WithdrawnClosed(s: System, i: nat, p: nat)
    requires s.reg.Closed() && CanWithdraw(s, i, p)
    ensures Withdrawn(s, i).reg.Closed()
  {
  }

  /** The tasks that stay in line stay queued, at most one place further forward. */
  lemma WithdrawStays(s: System, i: nat, p: nat, q: nat)
    requires s.reg.Closed() && CanWithdraw(s, i, p)
    requires q + 1 < |s.reg.heap[s.tasks[i].entry].waiters|
    ensures var r := if q < p then q else q + 1;
            var j := Line(s, s.tasks[i].key)[r + 1];
            && j != i && StillQueued(s, j, s.reg.heap[s.tasks[i].entry].waiters[r])
  {
    var r := if q < p then q else q + 1;
    var l := Line(s, s.tasks[i].key);
    assert StillQueued(s, l[r + 1], s.reg.heap[s.tasks[i].entry].waiters[r]);
    assert l[p + 1] == i && r != p;
  }

  lemma WithdrawnShape(s: System, i: nat, p: nat)
    requires s.reg.Closed() && CanWithdraw(s, i, p)
    ensures var key, e := s.tasks[i].key, s.tasks[i].entry;
            Withdrawn(s, i) == SetPhase(s, i, Left).(
              reg := s.reg.(heap := s.reg.heap[e := EntryValue(true, RemoveAt(s.reg.heap[e].waiters, p))]),
              line := s.line[key := RemoveAt(Line(s, key), p + 1)])
  {
    hide RemoveAt;
  }

  /** A task in line stays queued when another one leaves. */
  lemma WithdrawOne(s: System, i: nat, p: nat, j: nat, w: Future)
    requires s.reg.Closed() && CanWithdraw(s, i, p) && j != i && StillQueued(s, j, w)
    ensures StillQueued(Withdrawn(s, i), j, w)
  {
    hide KeyOk;
    hide RemoveAt;
    hide Withdrawn;
    WithdrawnShape(s, i, p);
  }

  lemma WithdrawQueued(s: System, i: nat, p: nat)
    requires s.reg.Closed() && CanWithdraw(s, i, p)
    ensures var ws', l' := RemoveAt(s.reg.heap[s.tasks[i].entry].waiters, p), RemoveAt(Line(s, s.tasks[i].key), p + 1);
            forall q :: 0 <= q < |ws'| ==> StillQueued(Withdrawn(s, i), l'[q + 1], ws'[q])
  {
    hide RemoveAt;
    hide Withdrawn;
    hide StillQueued;
    hide Owns;
    var ws, l := s.reg.heap[s.tasks[i].entry].waiters, Line(s, s.tasks[i].key);
    var ws', l' := RemoveAt(ws, p), RemoveAt(l, p + 1);
    forall q | 0 <= q < |ws'|
      ensures StillQueued(Withdrawn(s, i), l'[q + 1], ws'[q])
    {
      WithdrawStays(s, i, p, q);
      var r := if q < p then q else q + 1;
      WithdrawOne(s, i, p, l[r + 1], ws[r]);
    }
  }

  lemma WithdrawOwnKey(s: System, i: nat, p: nat)
    requires s.reg.Closed() && CanWithdraw(s, i, p) && Withdrawn(s, i).reg.Closed()
    ensures KeyOk(Withdrawn(s, i), s.tasks[i].key)
  {
    hide RemoveAt;
    hide Withdrawn;
    WithdrawQueued(s, i, p);
    hide StillQueued;
    WithdrawnShape(s, i, p);
  }

  lemma WithdrawTask(s: System, i: nat, p: nat, j: nat)
    requires s.reg.Closed() && CanWithdraw(s, i, p) && j < |s.tasks| && TaskOk(s, j) && Claims(s, j)
    ensures TaskOk(Withdrawn(s, i), j) && Claims(Withdrawn(s, i), j)
  {
    hide KeyOk;
    hide RemoveAt;
    var l, s' := Line(s, s.tasks[i].key), Withdrawn(s, i);
    LineLength(s, s.tasks[i].key);
    if j != i && (Owns(s', j) || Hopeful(s', j)) && s.tasks[j].key == s.tasks[i].key {
      var q :| 0 <= q < |l| && l[q] == j;
      assert RemoveAt(l, p + 1)[if q < p + 1 then q else q - 1] == j;
    }
  }

  lemma WithdrawOtherKey(s: System, i: nat, p: nat, k: string)
    requires Inv(s) && CanWithdraw(s, i, p) && Withdrawn(s, i).reg.Closed()
    requires k in s.reg.entries && k != s.tasks[i].key
    ensures KeyOk(Withdrawn(s, i), k)
  {
    hide KeyOk;
    hide TaskOk;
    hide Claims;
    hide GrantsOk;
    hide RemoveAt;
    hide Withdrawn;
    WithdrawnShape(s, i, p);
    var s' := Withdrawn(s, i);
    HomeOf(s, s.tasks[i].key);
    HomeOf(s, k);
    forall q | 0 <= q < |Line(s, k)|
      ensures SameTask(s, s', Line(s, k)[q])
    {
      LineKey(s, k, q);
    }
    KeyFrame(s, s', k);
  }

  lemma LineKey(s: System, k: string, q: nat)
    requires s.reg.Closed() && k in s.reg.entries && KeyOk(s, k) && q < |Line(s, k)|
    ensures Line(s, k)[q] < |s.tasks| && s.tasks[Line(s, k)[q]].key == k
  {
  }

  lemma WithdrawHome(s: System, i: nat, p: nat, d: Entry)
    requires Inv(s) && CanWithdraw(s, i, p)
    requires d in Withdrawn(s, i).reg.heap
    ensures Withdrawn(s, i).reg.heap[d].active ==> AtHome(Withdrawn(s, i), d)
    ensures !Withdrawn(s, i).reg.heap[d].active ==> Withdrawn(s, i).reg.heap[d].waiters == []
  {
    hide KeyOk;
    hide TaskOk;
    hide Claims;
    hide GrantsOk;
    hide RemoveAt;
    hide Withdrawn;
    WithdrawnShape(s, i, p);
    HomeOf(s, s.tasks[i].key);
    assert s.reg.heap[d].active ==> AtHome(s, d);
  }

  lemma WithdrawGrants(s: System, i: nat, p: nat)
    requires Inv(s) && CanWithdraw(s, i, p)
    ensures GrantsOk(Withdrawn(s, i))
  {
    hide KeyOk;
    hide TaskOk;
    hide Claims;
    LineLength(s, s.tasks[i].key);
    GrantsFrame(s, Withdrawn(s, i));
  }

  lemma WithdrawKeeps(s: System, i: nat, p: nat)
    requires Inv(s) && CanWithdraw(s, i, p)
    ensures Inv(Withdrawn(s, i))
  {
    hide KeyOk;
    hide TaskOk;
    hide Claims;
    hide GrantsOk;
    hide AtHome;
    hide RemoveAt;
    hide Withdrawn;
    WithdrawnShape(s, i, p);
    WithdrawnClosed(s, i, p);
    WithdrawGrants(s, i, p);
    var s' := Withdrawn(s, i);
    GivenFrame(s, s');
    forall k | k in s'.reg.entries
      ensures KeyOk(s', k)
    {
      if k == s.tasks[i].key {
        WithdrawOwnKey(s, i, p);
      } else {
        WithdrawOtherKey(s, i, p, k);
      }
    }
    forall j | 0 <= j < |s'.tasks|
      ensures TaskOk(s', j) && Claims(s', j)
    {
      WithdrawTask(s, i, p, j);
    }
    forall d | d in s'.reg.heap
      ensures s'.reg.heap[d].active ==> AtHome(s', d)
      ensures !s'.reg.heap[d].active ==> s'.reg.heap[d].waiters == []
    {
      WithdrawHome(s, i, p, d);
    }
  }

  /** Every step of every task keeps the invariant. */
  lemma StepKeeps(s: System, step: Step)
    requires Inv(s) && Enabled(s, step)
    ensures Inv(Apply(s, step))
  {
    match step
    case Arrive(key, Full) =>
    case Arrive(key, Immediate(e)) =>
      FreshOnly(s, key, e);
      StartKeeps(s, key, e);
    case Arrive(key, Enqueued(e, w)) => JoinKeeps(s, key, e, w);
    case Cancel(i) => CancelKeeps(s, i);
    case Resume(i) => MoveKeeps(s, i, Holding);
    case Abandon(i) => MoveKeeps(s, i, Abandoning);
    case Release(i) =>
      OwnerFirst(s, i);
      PassKeeps(s, i, Served);
    case Discard(i) => DiscardKeeps(s, i);
  }

  lemma DiscardKeeps(s: System, i: nat)
    requires Inv(s) && Enabled(s, Discard(i))
    ensures Inv(Apply(s, Discard(i)))
  {
    var e, w := s.tasks[i].entry, s.tasks[i].waiter.value;
    var p := IndexOf(s.reg.heap[e].waiters, w);
    assert TaskOk(s, i);
    if p < |s.reg.heap[e].waiters| {
      QueuedPlace(s, i, p);
      WithdrawKeeps(s, i, p);
    } else if s.reg.futures[w] != Cancelled {
      NotInDeque(s, i);
      OwnerFirst(s, i);
      PassKeeps(s, i, Left);
    } else {
      MoveKeeps(s, i, Left);
    }
  }

  /** An abandoning task whose uncancelled waiter has left the deque was granted the slot. */
  lemma NotInDeque(s: System, i: nat)
    requires Inv(s) && i < |s.tasks| && s.tasks[i].InQueue() && TaskOk(s, i)
    requires s.tasks[i].waiter.value !in s.reg.heap[s.tasks[i].entry].waiters
    requires FutureOf(s, i).Some? && FutureOf(s, i) != Some(Cancelled)
    ensures Owns(s, i)
  {
    assert FutureOf(s, i).value == Pending || FutureOf(s, i).value == Granted;
    if Hopeful(s, i) {
      HopefulQueued(s, i);
      assert false;
    }
  }

  /** A schedule whose every step is enabled when its turn comes. */
  ghost predicate Possible(s: System, steps: seq<Step>)
    decreases |steps|
  {
    steps != [] ==>
      && s.reg.Closed() && Enabled(s, steps[0])
      && Possible(Apply(s, steps[0]), steps[1..])
  }

  ghost function Run(s: System, steps: seq<Step>): System
    requires Possible(s, steps)
    decreases |steps|
  {
    if steps == [] then s else Run(Apply(s, steps[0]), steps[1..])
  }

  lemma {:induction false} RunKeeps(s: System, steps: seq<Step>)
    requires Inv(s) && Possible(s, steps)
    ensures Inv(Run(s, steps))
    decreases |steps|
  {
    hide Inv;
    if steps != [] {
      StepKeeps(s, steps[0]);
      RunKeeps(Apply(s, steps[0]), steps[1..]);
    }
  }

  /** Slot safety, from an empty queue, after any schedule. */
  lemma SlotSafety(max: nat, steps: seq<Step>)
    requires Possible(Initial(max), steps)
    ensures var s := Run(Initial(max), steps);
            && s.reg.Closed()
            && (forall k :: k in s.reg.entries ==> HasOneOwner(s, k) && s.reg.heap[s.reg.entries[k]].active)
            && (forall i :: 0 <= i < |s.tasks| && Owns(s, i) ==>
                  s.tasks[i].key in s.reg.entries && s.reg.entries[s.tasks[i].key] == s.tasks[i].entry)
            && (forall k :: k in s.reg.entries ==> |s.reg.heap[s.reg.entries[k]].waiters| <= max)
            && (AllFinished(s) ==> s.reg.entries == map[])
  {
    var s := Run(Initial(max), steps);
    InitialOk(max);
    RunKeeps(Initial(max), steps);
    RunMax(Initial(max), steps);
    forall k | k in s.reg.entries
      ensures HasOneOwner(s, k) && s.reg.heap[s.reg.entries[k]].active
    {
      OneOwner(s, k);
    }
    forall i | 0 <= i < |s.tasks| && Owns(s, i)
      ensures s.tasks[i].key in s.reg.entries && s.reg.entries[s.tasks[i].key] == s.tasks[i].entry
    {
      assert TaskOk(s, i);
    }
    forall k | k in s.reg.entries
      ensures |s.reg.heap[s.reg.entries[k]].waiters| <= max
    {
      assert KeyOk(s, k);
    }
    QuietQueueIsEmpty(s);
  }

  ghost predicate AllFinished(s: System) {
    forall i :: 0 <= i < |s.tasks| ==> s.tasks[i].phase == Served || s.tasks[i].phase == Left
  }

  /** Exactly one task owns the slot of key k. */
  ghost predicate HasOneOwner(s: System, k: string) {
    && (exists i :: 0 <= i < |s.tasks| && Owns(s, i) && s.tasks[i].key == k)
    && (forall i: nat, j: nat :: Owns(s, i) && Owns(s, j) && s.tasks[i].key == k && s.tasks[j].key == k ==> i == j)
  }

  lemma OneOwner(s: System, k: string)
    requires Inv(s) && k in s.reg.entries
    ensures HasOneOwner(s, k) && s.reg.heap[s.reg.entries[k]].active
  {
    assert KeyOk(s, k);
    assert Owns(s, Line(s, k)[0]);
    forall i: nat | Owns(s, i) && s.tasks[i].key == k
      ensures i == Line(s, k)[0]
    {
      OwnerFirst(s, i);
    }
  }

  lemma {:induction false} RunMax(s: System, steps: seq<Step>)
    requires Possible(s, steps)
    ensures Run(s, steps).max == s.max
    decreases |steps|
  {
    if steps != [] {
      hide Apply;
      hide Enabled;
      StepMax(s, steps[0]);
      RunMax(Apply(s, steps[0]), steps[1..]);
    }
  }

  lemma StepMax(s: System, step: Step)
    requires s.reg.Closed() && Enabled(s, step)
    ensures Apply(s, step).max == s.max
  {
  }

  /** Slots of a key were given in arrival order, and no task still hoping was overtaken. */
  lemma FirstComeFirstServed(max: nat, steps: seq<Step>)
    requires Possible(Initial(max), steps)
    ensures var s := Run(Initial(max), steps);
            && (forall a :: 0 <= a < |s.grants| ==> s.grants[a] < |s.tasks|)
            && (forall a, b :: 0 <= a < b < |s.grants| && s.tasks[s.grants[a]].key == s.tasks[s.grants[b]].key ==>
                  s.grants[a] < s.grants[b])
            && (forall a: nat, i: nat ::
                  a < |s.grants| && Hopeful(s, i) && s.tasks[i].key == s.tasks[s.grants[a]].key ==> s.grants[a] < i)
  {
    var s := Run(Initial(max), steps);
    InitialOk(max);
    RunKeeps(Initial(max), steps);
    forall a: nat, i: nat | a < |s.grants| && Hopeful(s, i) && s.tasks[i].key == s.tasks[s.grants[a]].key
      ensures s.grants[a] < i
    {
      HopefulQueued(s, i);
      assert Behind(s, s.grants[a]);
    }
  }

  /** What an arrival is told depends on the tasks before it alone: it takes the slot exactly when its key
      has no owner, is refused exactly when the owner has as many tasks queued behind it as may be, and
      else joins the queue. */
  lemma ArrivalsAreToldExactly(s: System, key: string, answer: Entered)
    requires Inv(s)
    ensures Enabled(s, Arrive(key, answer)) <==>
              match answer
              case Immediate(e) => Line(s, key) == [] && e !in s.reg.heap
              case Full => |Line(s, key)| == s.max + 1
              case Enqueued(e, w) =>
                && 0 < |Line(s, key)| <= s.max && key in s.reg.entries && e == s.reg.entries[key]
                && w !in s.reg.futures
    ensures forall i :: i in Line(s, key) ==> i < |s.tasks| && s.tasks[i].key == key
  {
    hide TaskOk;
    hide Claims;
    hide GrantsOk;
    if key in s.reg.entries {
      assert KeyOk(s, key);
    }
  }

  /** When every task is finished the registry is empty again. */
  lemma QuietQueueIsEmpty(s: System)
    requires Inv(s)
    ensures AllFinished(s) ==> s.reg.entries == map[]
  {
    hide KeyOk;
    hide TaskOk;
    hide Claims;
    hide GrantsOk;
    hide AtHome;
    forall k | k in s.reg.entries
      ensures !AllFinished(s)
    {
      OneOwner(s, k);
    }
  }
}
