/** What an owner's turns are worth: every key is freed, and everybody waiting for it answered, by the
    tasks' own steps. */
module QueueProgress {
  import opened Wrappers
  import opened OperationQueues
  import opened QueueProtocol

  /** How much work is left before key k is free: three units a waiter, and up to two for its owner. */
  function Load(s: System, k: string): nat
    requires s.reg.Closed()
  {
    if k !in s.reg.entries then 0
    else 3 * |s.reg.heap[s.reg.entries[k]].waiters|
         + (if Line(s, k) != [] && Line(s, k)[0] < |s.tasks| && s.tasks[Line(s, k)[0]].phase == Waiting then 2 else 1)
  }

  /** What the owner of key k's slot does next. */
  function OwnerStep(s: System, k: string): Step
    requires Line(s, k) != [] && Line(s, k)[0] < |s.tasks|
  {
    var o := Line(s, k)[0];
    match s.tasks[o].phase
    case Waiting => Resume(o)
    case Abandoning => Discard(o)
    case _ => Release(o)
  }

  /** Passing the slot on lightens its key, and leaves every other key as it was. */
  lemma PassLoad(s: System, i: nat, phase: Phase, k: string)
    requires Inv(s) && CanPass(s, i, phase)
    ensures Passed(s, i, phase).reg.Closed()
    ensures if k == s.tasks[i].key then Load(Passed(s, i, phase), k) < Load(s, k)
            else Load(Passed(s, i, phase), k) == Load(s, k)
  {
    hide KeyOk;
    hide Claims;
    hide Owns;
    hide TaskOk;
    hide GrantsOk;
    var s', key := Passed(s, i, phase), s.tasks[i].key;
    LineLength(s, key);
    ReleasedClosed(s.reg, key, s.tasks[i].entry);
    if k in s.reg.entries && k != key {
      OtherEntry(s, key, k);
    }
  }

  /** Different keys are registered under different entries, and served by different tasks. */
  lemma OtherEntry(s: System, k: string, l: string)
    requires Inv(s) && k in s.reg.entries && l in s.reg.entries && k != l
    ensures s.reg.entries[k] != s.reg.entries[l]
    ensures Line(s, k) != [] && Line(s, l) != [] && Line(s, k)[0] != Line(s, l)[0]
  {
    HomeOf(s, k);
    HomeOf(s, l);
    LineNonempty(s, k);
    LineNonempty(s, l);
  }

  /** The owner can always act, and acting brings its key closer to free. */
  lemma OwnerProgress(s: System, k: string)
    requires Inv(s) && k in s.reg.entries
    ensures Line(s, k) != [] && Line(s, k)[0] < |s.tasks|
    ensures Enabled(s, OwnerStep(s, k))
    ensures Inv(Apply(s, OwnerStep(s, k)))
    ensures Load(Apply(s, OwnerStep(s, k)), k) < Load(s, k)
  {
    hide KeyOk;
    hide GrantsOk;
    LineOwner(s, k);
    var o := Line(s, k)[0];
    assert TaskOk(s, o) && Claims(s, o);
    StepKeeps(s, OwnerStep(s, k));
    OwnerLoad(s, k);
  }

  lemma OwnerLoad(s: System, k: string)
    requires Inv(s) && k in s.reg.entries && Line(s, k) != []
    requires var o := Line(s, k)[0]; Owns(s, o) && s.tasks[o].key == k && (CanPass(s, o, Served) && CanPass(s, o, Left))
    requires Enabled(s, OwnerStep(s, k))
    ensures Apply(s, OwnerStep(s, k)).reg.Closed()
    ensures Load(Apply(s, OwnerStep(s, k)), k) < Load(s, k)
  {
    hide KeyOk;
    hide TaskOk;
    hide Claims;
    hide GrantsOk;
    var o := Line(s, k)[0];
    match s.tasks[o].phase
    case Waiting =>
    case Holding => PassLoad(s, o, Served, k);
    case Abandoning =>
      OwnerNotQueued(s, o);
      PassLoad(s, o, Left, k);
    case _ =>
  }

  /** A granted waiter is no longer in its deque. */
  lemma OwnerNotQueued(s: System, o: nat)
    requires Inv(s) && Owns(s, o) && s.tasks[o].InQueue()
    ensures s.tasks[o].entry in s.reg.heap && s.tasks[o].waiter.Some?
    ensures s.tasks[o].waiter.value !in s.reg.heap[s.tasks[o].entry].waiters
  {
    OwnerFirst(s, o);
    assert TaskOk(s, o);
    var ws := s.reg.heap[s.tasks[o].entry].waiters;
    if s.tasks[o].waiter.value in ws {
      var p :| 0 <= p < |ws| && ws[p] == s.tasks[o].waiter.value;
      QueuedPlace(s, o, p);
    }
  }

  /** Only a new arrival under k can delay k; every other step of any task leaves k no further from free. */
  lemma OnlyArrivalsDelay(s: System, step: Step, k: string)
    requires Inv(s) && Enabled(s, step) && !(step.Arrive? && step.key == k)
    ensures Apply(s, step).reg.Closed()
    ensures Load(Apply(s, step), k) <= Load(s, k)
  {
    hide KeyOk;
    hide TaskOk;
    hide Claims;
    hide GrantsOk;
    hide PassOn;
    hide AtHome;
    match step
    case Arrive(key, Full) =>
    case Arrive(key, Immediate(e)) => FreshOnly(s, key, e);
    case Arrive(key, Enqueued(e, w)) =>
      if k in s.reg.entries {
        OtherEntry(s, key, k);
        HomeOf(s, k);
      }
    case Cancel(i) =>
    case Resume(i) =>
    case Abandon(i) =>
    case Release(i) =>
      OwnerFirst(s, i);
      PassLoad(s, i, Served, k);
    case Discard(i) =>
      DiscardLoad(s, i, k);
  }

  lemma DiscardLoad(s: System, i: nat, k: string)
    requires Inv(s) && Enabled(s, Discard(i))
    ensures Apply(s, Discard(i)).reg.Closed()
    ensures Load(Apply(s, Discard(i)), k) <= Load(s, k)
  {
    var e, w := s.tasks[i].entry, s.tasks[i].waiter.value;
    var p := IndexOf(s.reg.heap[e].waiters, w);
    assert TaskOk(s, i);
    hide KeyOk;
    hide TaskOk;
    hide GrantsOk;
    hide Load;
    if p < |s.reg.heap[e].waiters| {
      QueuedPlace(s, i, p);
      WithdrawnClosed(s, i, p);
      WithdrawLoad(s, i, p, k);
    } else if s.reg.futures[w] != Cancelled {
      NotInDeque(s, i);
      OwnerFirst(s, i);
      PassLoad(s, i, Left, k);
    } else {
      MoveLoad(s, i, Left, k);
    }
  }

  lemma MoveLoad(s: System, i: nat, phase: Phase, k: string)
    requires s.reg.Closed() && i < |s.tasks| && phase != Waiting
    ensures Load(SetPhase(s, i, phase), k) <= Load(s, k)
  {
  }

  lemma WithdrawLoad(s: System, i: nat, p: nat, k: string)
    requires Inv(s) && CanWithdraw(s, i, p) && Withdrawn(s, i).reg.Closed()
    ensures Load(Withdrawn(s, i), k) <= Load(s, k)
  {
    hide KeyOk;
    hide TaskOk;
    hide GrantsOk;
    hide RemoveAt;
    LineLength(s, s.tasks[i].key);
    HomeOf(s, s.tasks[i].key);
    if k in s.reg.entries && k != s.tasks[i].key {
      OtherEntry(s, s.tasks[i].key, k);
      HomeOf(s, k);
      LineNonempty(s, k);
    }
  }

  /** The owners of key k's slot act in turn until the key is free. */
  ghost function Drain(s: System, k: string): (steps: seq<Step>)
    requires Inv(s)
    decreases Load(s, k)
  {
    if k !in s.reg.entries then []
    else
      OwnerProgress(s, k);
      [OwnerStep(s, k)] + Drain(Apply(s, OwnerStep(s, k)), k)
  }

  /** From any reachable state, owners acting alone free the key within its load, and every task
      that was hoping for the slot is given it on the way; in the end all of the key's tasks that
      were ever given it have been served or have left. */
  lemma {:induction false} DrainServesAll(s: System, k: string)
    requires Inv(s)
    ensures |Drain(s, k)| <= Load(s, k)
    ensures Possible(s, Drain(s, k))
    ensures var s' := Run(s, Drain(s, k));
            && Inv(s') && k !in s'.reg.entries && s.grants <= s'.grants && SameKeys(s, s')
            && (forall i :: 0 <= i < |s.tasks| && Hopeful(s, i) && s.tasks[i].key == k ==> i in s'.grants)
            && (forall i :: i in s'.grants && i < |s'.tasks| && s'.tasks[i].key == k ==>
                  Given(s', i) && (s'.tasks[i].phase == Served || s'.tasks[i].phase == Left))
    decreases Load(s, k)
  {
    hide Inv;
    InvClosed(s);
    if k in s.reg.entries {
      hide Apply;
      OwnerProgress(s, k);
      var step := OwnerStep(s, k);
      var s' := Apply(s, step);
      assert Drain(s, k)[1..] == Drain(s', k);
      DrainServesAll(s', k);
      forall i | 0 <= i < |s.tasks| && Hopeful(s, i) && s.tasks[i].key == k
        ensures i in Run(s, Drain(s, k)).grants
      {
        HopeKept(s, k, i);
      }
      GrantsGrow(s, step);
      KeysStay(s, step);
    } else {
      forall i | 0 <= i < |s.tasks| && Hopeful(s, i)
        ensures s.tasks[i].key != k
      {
        HopefulQueued(s, i);
      }
      forall i | i in s.grants && i < |s.tasks| && s.tasks[i].key == k
        ensures Given(s, i) && (s.tasks[i].phase == Served || s.tasks[i].phase == Left)
      {
        GivenAndGone(s, i);
      }
    }
  }

  lemma InvClosed(s: System)
    requires Inv(s)
    ensures s.reg.Closed()
  {
  }

  /** Every earlier task keeps its number and its key. */
  predicate SameKeys(s: System, s': System) {
    |s.tasks| <= |s'.tasks| && forall i :: 0 <= i < |s.tasks| ==> s'.tasks[i].key == s.tasks[i].key
  }

  /** A task that was given the slot of a key that is free no longer has it. */
  lemma GivenAndGone(s: System, i: nat)
    requires Inv(s) && i in s.grants && i < |s.tasks| && s.tasks[i].key !in s.reg.entries
    ensures Given(s, i) && (s.tasks[i].phase == Served || s.tasks[i].phase == Left)
  {
    hide KeyOk;
    hide GrantsOk;
    hide Claims;
    var a :| 0 <= a < |s.grants| && s.grants[a] == i;
    assert Given(s, s.grants[a]);
    assert TaskOk(s, i);
  }

  lemma KeysStay(s: System, step: Step)
    requires s.reg.Closed() && Enabled(s, step)
    ensures SameKeys(s, Apply(s, step))
  {
    hide DonePrefix;
    hide Released;
    hide Discarded;
  }

  lemma GrantsGrow(s: System, step: Step)
    requires s.reg.Closed() && Enabled(s, step)
    ensures s.grants <= Apply(s, step).grants
  {
  }

  /** An owner's step either grants a hopeful task or leaves it hoping. */
  lemma HopeKept(s: System, k: string, i: nat)
    requires Inv(s) && Hopeful(s, i) && s.tasks[i].key == k && Line(s, k) != [] && Line(s, k)[0] < |s.tasks|
    requires Enabled(s, OwnerStep(s, k)) && k in s.reg.entries
    ensures var s' := Apply(s, OwnerStep(s, k));
            i < |s'.tasks| && s'.tasks[i].key == k && (Hopeful(s', i) || i in s'.grants)
  {
    hide KeyOk;
    hide TaskOk;
    hide GrantsOk;
    hide Claims;
    hide PassOn;
    var o := Line(s, k)[0];
    LineOwner(s, k);
    match s.tasks[o].phase
    case Waiting =>
    case Holding => HopePassed(s, o, Served, i);
    case Abandoning =>
      OwnerNotQueued(s, o);
      HopePassed(s, o, Left, i);
    case _ =>
  }

  /** The head of a line owns its key's slot and may pass it on. */
  lemma LineOwner(s: System, k: string)
    requires Inv(s) && k in s.reg.entries
    ensures Line(s, k) != [] && Owns(s, Line(s, k)[0]) && s.tasks[Line(s, k)[0]].key == k
    ensures CanPass(s, Line(s, k)[0], Served) && CanPass(s, Line(s, k)[0], Left)
  {
    hide TaskOk;
    hide Claims;
    hide GrantsOk;
    assert KeyOk(s, k);
    OwnerFirst(s, Line(s, k)[0]);
  }

  lemma HopePassed(s: System, o: nat, phase: Phase, i: nat)
    requires s.reg.Closed() && CanPass(s, o, phase) && Hopeful(s, i) && i != o
    requires forall m :: 0 <= m < |s.tasks| ==> Claims(s, m)
    ensures var s' := Passed(s, o, phase);
            i < |s'.tasks| && s'.tasks[i].key == s.tasks[i].key && (Hopeful(s', i) || i in s'.grants)
  {
    var n, l := Skipped(s, o), Line(s, s.tasks[o].key);
    if n + 1 < |l| && i == l[n + 1] {
      assert Passed(s, o, phase).grants[|s.grants|] == i;
    } else {
      PassOthers(s, o, phase, i);
    }
  }

  /** The steps of a schedule that are taken by whoever then owns key k's slot, towards freeing it. */
  ghost function OwnerTurns(s: System, steps: seq<Step>, k: string): nat
    requires Possible(s, steps)
    decreases |steps|
  {
    if steps == [] then 0
    else
      (if k in s.reg.entries && Line(s, k) != [] && Line(s, k)[0] < |s.tasks| && steps[0] == OwnerStep(s, k)
       then 1 else 0)
      + OwnerTurns(Apply(s, steps[0]), steps[1..], k)
  }

  predicate NoArrivals(steps: seq<Step>, k: string) {
    forall step :: step in steps ==> !(step.Arrive? && step.key == k)
  }

  /** Whatever else the tasks of any key do, a key that nobody joins is free after as many turns of
      its owners as its load says. */
  lemma {:induction false} TurnsFree(s: System, steps: seq<Step>, k: string)
    requires Inv(s) && Possible(s, steps) && NoArrivals(steps, k)
    ensures Inv(Run(s, steps)) && Run(s, steps).reg.Closed()
    ensures OwnerTurns(s, steps, k) + Load(Run(s, steps), k) <= Load(s, k)
    decreases |steps|
  {
    hide Inv;
    hide Apply;
    hide Load;
    InvClosed(s);
    if steps != [] {
      var step := steps[0];
      StepKeeps(s, step);
      OnlyArrivalsDelay(s, step, k);
      if k in s.reg.entries {
        OwnerProgress(s, k);
      }
      TurnsFree(Apply(s, step), steps[1..], k);
    }
  }

  /** Task i was given the slot, or has given up on it. */
  predicate Answered(s: System, i: nat) {
    i < |s.tasks| && (i in s.grants || FutureOf(s, i) == Some(Cancelled) || s.tasks[i].phase == Left)
  }

  /** A task in the queue stays there or is answered, and an answer is final. */
  lemma AnswersCome(s: System, step: Step, i: nat)
    requires Inv(s) && Enabled(s, step) && (Hopeful(s, i) || Answered(s, i))
    ensures Hopeful(Apply(s, step), i) || Answered(Apply(s, step), i)
  {
    hide Inv;
    hide PassOn;
    AllClaims(s);
    if i in s.grants {
      GrantsGrow(s, step);
      KeysStay(s, step);
      var a :| 0 <= a < |s.grants| && s.grants[a] == i;
      assert Apply(s, step).grants[a] == i;
    } else {
      match step
      case Arrive(key, Full) =>
      case Arrive(key, Immediate(e)) =>
      case Arrive(key, Enqueued(e, w)) => assert Claims(s, i);
      case Cancel(j) => assert Claims(s, i) && Claims(s, j);
      case Resume(j) =>
      case Abandon(j) =>
      case Release(j) =>
        OwnerFirst(s, j);
        OwnerGiven(s, j);
        AnswerPassed(s, j, Served, i);
      case Discard(j) => AnswerDiscard(s, j, i);
    }
  }

  lemma AllClaims(s: System)
    requires Inv(s)
    ensures s.reg.Closed() && s.claimant.Keys == s.reg.futures.Keys
    ensures forall m :: 0 <= m < |s.tasks| ==> Claims(s, m)
    ensures forall m :: 0 <= m < |s.tasks| && s.tasks[m].InQueue() ==> s.tasks[m].waiter.Some?
  {
    forall m | 0 <= m < |s.tasks| && s.tasks[m].InQueue()
      ensures s.tasks[m].waiter.Some?
    {
      assert TaskOk(s, m);
    }
  }

  lemma OwnerGiven(s: System, i: nat)
    requires Inv(s) && Owns(s, i)
    ensures i in s.grants
  {
    assert TaskOk(s, i);
  }

  lemma AnswerDiscard(s: System, j: nat, i: nat)
    requires Inv(s) && Enabled(s, Discard(j)) && (Hopeful(s, i) || Answered(s, i)) && i !in s.grants
    ensures Hopeful(Apply(s, Discard(j)), i) || Answered(Apply(s, Discard(j)), i)
  {
    hide KeyOk;
    hide GrantsOk;
    hide Claims;
    hide PassOn;
    assert TaskOk(s, j);
    var e, w := s.tasks[j].entry, s.tasks[j].waiter.value;
    if w !in s.reg.heap[e].waiters && s.reg.futures[w] != Cancelled {
      NotInDeque(s, j);
      OwnerFirst(s, j);
      AnswerPassed(s, j, Left, i);
    }
  }

  lemma AnswerPassed(s: System, o: nat, phase: Phase, i: nat)
    requires s.reg.Closed() && CanPass(s, o, phase) && (Hopeful(s, i) || Answered(s, i)) && o in s.grants
    requires forall m :: 0 <= m < |s.tasks| ==> Claims(s, m)
    ensures Hopeful(Passed(s, o, phase), i) || Answered(Passed(s, o, phase), i)
  {
    hide KeyOk;
    var n, l := Skipped(s, o), Line(s, s.tasks[o].key);
    if n + 1 < |l| && i == l[n + 1] {
      assert Passed(s, o, phase).grants[|s.grants|] == i;
    } else if i == o {
      PassedGrow(s, o, phase);
    } else {
      PassOthers(s, o, phase, i);
      PassedGrow(s, o, phase);
    }
  }

  lemma PassedGrow(s: System, o: nat, phase: Phase)
    requires s.reg.Closed() && o < |s.tasks| && s.tasks[o].entry in s.reg.heap
    ensures s.grants <= Passed(s, o, phase).grants && |Passed(s, o, phase).tasks| == |s.tasks|
  {
  }

  lemma {:induction false} AnswersLast(s: System, steps: seq<Step>, i: nat)
    requires Inv(s) && Possible(s, steps) && (Hopeful(s, i) || Answered(s, i))
    ensures Hopeful(Run(s, steps), i) || Answered(Run(s, steps), i)
    decreases |steps|
  {
    hide Inv;
    hide Apply;
    hide Hopeful;
    hide Answered;
    if steps != [] {
      StepKeeps(s, steps[0]);
      AnswersCome(s, steps[0], i);
      AnswersLast(Apply(s, steps[0]), steps[1..], i);
    }
  }

  lemma {:induction false} RunKeepsKeys(s: System, steps: seq<Step>)
    requires Inv(s) && Possible(s, steps)
    ensures SameKeys(s, Run(s, steps))
    decreases |steps|
  {
    hide Inv;
    hide Apply;
    InvClosed(s);
    if steps != [] {
      StepKeeps(s, steps[0]);
      KeysStay(s, steps[0]);
      RunKeepsKeys(Apply(s, steps[0]), steps[1..]);
    }
  }

  /** In any schedule that brings nobody new under key k and in which its owners get as many turns as
      its load, whatever the others do: k is free in the end, nobody owns or waits for its slot, every
      task that was waiting for it has been given it or has given up, and all of the key's tasks that
      were ever given it have been served or have left. */
  lemma AnyScheduleServesAll(s: System, steps: seq<Step>, k: string)
    requires Inv(s) && Possible(s, steps) && NoArrivals(steps, k)
    requires Load(s, k) <= OwnerTurns(s, steps, k)
    ensures var s' := Run(s, steps);
            && Inv(s') && k !in s'.reg.entries
            && (forall i :: 0 <= i < |s'.tasks| && s'.tasks[i].key == k ==> !Owns(s', i) && !Hopeful(s', i))
            && (forall i :: 0 <= i < |s.tasks| && Hopeful(s, i) && s.tasks[i].key == k ==> Answered(s', i))
            && (forall i :: i in s'.grants && i < |s'.tasks| && s'.tasks[i].key == k ==>
                  Given(s', i) && (s'.tasks[i].phase == Served || s'.tasks[i].phase == Left))
  {
    hide Inv;
    hide Possible;
    hide Run;
    hide Hopeful;
    hide Owns;
    hide Answered;
    TurnsFree(s, steps, k);
    RunKeepsKeys(s, steps);
    var s' := Run(s, steps);
    forall i | 0 <= i < |s'.tasks| && s'.tasks[i].key == k
      ensures !Owns(s', i) && !Hopeful(s', i)
    {
      FreeKeyIdle(s', i);
    }
    forall i | 0 <= i < |s.tasks| && Hopeful(s, i) && s.tasks[i].key == k
      ensures Answered(s', i)
    {
      AnswersLast(s, steps, i);
    }
    forall i | i in s'.grants && i < |s'.tasks| && s'.tasks[i].key == k
      ensures Given(s', i) && (s'.tasks[i].phase == Served || s'.tasks[i].phase == Left)
    {
      GivenAndGone(s', i);
    }
  }

  lemma FreeKeyIdle(s: System, i: nat)
    requires Inv(s) && i < |s.tasks| && s.tasks[i].key !in s.reg.entries
    ensures !Owns(s, i) && !Hopeful(s, i)
  {
    assert TaskOk(s, i);
  }
}
