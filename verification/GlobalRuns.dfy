/**
 Whole runs of the multiprocessor kernel: any interleaving of arrivals, job ends, blocks, kills and
 firings of begin and end events.
 */
module GlobalRuns {
  import opened Common
  import opened ReadyQueue
  import opened GlobalDispatch
  import opened GlobalSteps
  import opened Selection

  datatype Event =
    | Arrival(t: Task, now: int)
    | JobEnd(t: Task)
    | Blocked(t: Task)
    | Killed(t: Task)
    | NewPriority(t: Task, p: int)
    | BeginFires(c: Cpu)
    | EndFires(c: Cpu)

  /** What the simulator guarantees of its calls: a task arrives when it is not ready, ends while it
      executes, blocks while it is ready, is killed through terminate while it does not execute
      (Task::onKill), and gets a new priority between two jobs; an event fires when it is pending. */
  ghost predicate Enabled(s: Kernel, e: Event) {
    && Known(s.sched.models, s.sched.queue)
    && match e
       case Arrival(t, _) => t in s.sched.models && t !in s.sched.queue
       case JobEnd(t) => t in s.sched.queue && ProcessorOf(s, t).Some?
       case Blocked(t) => t in s.sched.queue
       case Killed(t) => t in s.sched.queue && ProcessorOf(s, t).None?
       case NewPriority(t, _) => t in s.sched.models && t !in s.sched.queue
       case BeginFires(c) => c in s.beginEv
       case EndFires(c) => c in s.endEv
  }

  /** A ready task in the middle of its switch. */
  ghost predicate MidSwitch(s: Kernel, t: Task) {
    t in s.disp && ProcessorOf(s, t).None?
  }

  /** What the two-phase protocol additionally needs: no task is blocked or killed in the middle of its
      switch, and dispatch() finds every CPU it selects guarded. */
  ghost predicate Safe(s: Kernel, e: Event)
    requires Enabled(s, e)
  {
    match e
    case Arrival(t, now) => DispatchSafe(s.(sched := s.sched.Insert(t, now)))
    case Blocked(t) => !MidSwitch(s, t) && DispatchSafe(Suspend(s, t))
    case Killed(t) => !MidSwitch(s, t)
    case _ => true
  }

  ghost function Step(s: Kernel, e: Event): Kernel
    requires Enabled(s, e)
  {
    match e
    case Arrival(t, now) => OnArrival(s, t, now)
    case JobEnd(t) => OnEnd(s, t)
    case Blocked(t) => Block(s, t)
    case Killed(t) => Terminate(s, t)
    case NewPriority(t, p) => s.(sched := s.sched.ChangePriority(t, p))
    case BeginFires(c) => OnBegin(s, c)
    case EndFires(c) => OnEndDispatch(s, c)
  }

  lemma StepKeepsInv(s: Kernel, e: Event)
    requires Inv(s) && Enabled(s, e) && Safe(s, e)
    ensures Inv(Step(s, e))
  {
    match e
    case Arrival(t, now) => ArrivalKeepsInv(s, t, now);
    case JobEnd(t) => RunningOn(s, t); OnEndKeepsInv(s, t);
    case Blocked(t) => RunningOn(s, t); BlockKeepsInv(s, t);
    case Killed(t) => RunningOn(s, t); TerminateKeepsInv(s, t);
    case NewPriority(t, p) => NewPriorityKeepsInv(s, t, p);
    case BeginFires(c) => OnBeginKeepsInv(s, c);
    case EndFires(c) => OnEndDispatchKeepsInv(s, c);
  }

  lemma NewPriorityKeepsInv(s: Kernel, t: Task, p: int)
    requires Inv(s) && t in s.sched.models && t !in s.sched.queue
    ensures Inv(s.(sched := s.sched.ChangePriority(t, p)))
  {
    var s' := s.(sched := s.sched.ChangePriority(t, p));
    assert s'.sched.Valid();
    assert Top(s') == Top(s);
    assert Placed(s') && Backed(s') && Phased(s');
  }

  // ---------- runs in two phases ----------

  ghost predicate ValidRun(s: Kernel, es: seq<Event>)
    decreases |es|
  {
    es == [] || (Enabled(s, es[0]) && Safe(s, es[0]) && ValidRun(Step(s, es[0]), es[1..]))
  }

  ghost function Run(s: Kernel, es: seq<Event>): Kernel
    requires ValidRun(s, es)
    decreases |es|
  {
    if es == [] then s else Run(Step(s, es[0]), es[1..])
  }

  lemma InitInv(ncpu: nat, sched: Sched)
    requires sched.Valid() && sched.queue == []
    ensures Inv(Init(ncpu, sched))
  {
    var s := Init(ncpu, sched);
    assert Missing(Top(s), s.disp) == {};
  }

  lemma {:induction false} RunKeepsInv(s: Kernel, es: seq<Event>)
    requires Inv(s) && ValidRun(s, es)
    ensures Inv(Run(s, es))
    decreases |es|
  {
    if es != [] {
      StepKeepsInv(s, es[0]);
      RunKeepsInv(Step(s, es[0]), es[1..]);
    }
  }

  ghost predicate AtRest(s: Kernel) { s.beginEv == {} && s.endEv == {} }

  /** Every executing task precedes every ready task that does not execute, and no CPU is left idle
      while a ready task waits. */
  ghost predicate GloballyScheduled(s: Kernel) {
    && s.exe.Values == Top(s)
    && |s.exe| == Min(s.ncpu, |s.sched.queue|)
    && Injective(s.exe)
    && forall x, w :: x in s.exe.Values && w in s.sched.queue && w !in s.exe.Values ==>
         x in s.sched.models && w in s.sched.models && Before(s.sched.models, x, w)
  }

  lemma ExecutingIsDispatchedAtRest(s: Kernel)
    requires Placed(s) && Backed(s) && Balanced(Top(s), s.disp, s.beginEv) && AtRest(s)
    ensures s.exe.Values == s.disp.Keys == Top(s) && Injective(s.exe)
  {
    assert Serving(Top(s), s.disp, s.beginEv) == {};
    assert Missing(Top(s), s.disp) == {};
    assert forall t :: t in Top(s) && t !in s.disp ==> t in Missing(Top(s), s.disp);
    forall t | t in s.disp ensures t in Top(s) && t in s.exe.Values {
    }
  }

  lemma AtRestIsGloballyScheduled(s: Kernel)
    requires Inv(s) && AtRest(s)
    ensures GloballyScheduled(s)
  {
    ExecutingIsDispatchedAtRest(s);
    TopSize(s);
    hide Balanced, Placed, Backed, Phased, AtRest, Sched.Valid, Top;
    ValuesSize(s.exe);
    TopPrecedes(s);
  }

  lemma ValuesSize(m: map<Cpu, Task>)
    requires Injective(m)
    ensures |m.Values| == |m|
  {
    ImageSize(m, m.Keys);
    assert Image(m, m.Keys) == m.Values;
  }

  /** Every task of the top precedes every other ready task. */
  lemma TopPrecedes(s: Kernel)
    requires s.sched.Valid()
    ensures forall x, w :: x in Top(s) && w in s.sched.queue && w !in Top(s) ==>
              x in s.sched.models && w in s.sched.models && Before(s.sched.models, x, w)
  {
    forall x, w | x in Top(s) && w in s.sched.queue && w !in Top(s)
      ensures x in s.sched.models && w in s.sched.models && Before(s.sched.models, x, w)
    {
      PrefixPrecedes(s.sched.models, s.sched.queue, Min(s.ncpu, |s.sched.queue|), x, w);
    }
  }

  lemma PrefixPrecedes(ms: Models, q: seq<Task>, n: nat, x: Task, w: Task)
    requires Known(ms, q) && Sorted(ms, q) && n <= |q| && x in q[..n] && w in q && w !in q[..n]
    ensures x in ms && w in ms && Before(ms, x, w)
  {
    var i :| 0 <= i < n && q[i] == x;
    var j :| 0 <= j < |q| && q[j] == w;
    assert forall k :: 0 <= k < n ==> q[k] == q[..n][k];
    assert n <= j;
  }

  /** Global scheduling is correct at rest, over every run of the two-phase protocol. */
  lemma GlobalSchedulingAtRest(ncpu: nat, sched: Sched, es: seq<Event>)
    requires sched.Valid() && sched.queue == [] && ValidRun(Init(ncpu, sched), es)
    ensures Owned(Run(Init(ncpu, sched), es))
    ensures AtRest(Run(Init(ncpu, sched), es)) ==> GloballyScheduled(Run(Init(ncpu, sched), es))
  {
    InitInv(ncpu, sched);
    RunKeepsInv(Init(ncpu, sched), es);
    if AtRest(Run(Init(ncpu, sched), es)) {
      AtRestIsGloballyScheduled(Run(Init(ncpu, sched), es));
    }
  }

  // ---------- settling ----------

  ghost function PendingWork(s: Kernel): nat { 2 * |s.beginEv| + |s.endEv| }

  ghost predicate IsFiring(e: Event) { e.BeginFires? || e.EndFires? }

  lemma FiringReducesWork(s: Kernel, e: Event)
    requires IsFiring(e) && Enabled(s, e)
    ensures PendingWork(Step(s, e)) < PendingWork(s)
    ensures Step(s, e).sched == s.sched && Step(s, e).ncpu == s.ncpu
  {
    match e
    case BeginFires(c) =>
      assert |s.beginEv - {c}| == |s.beginEv| - 1;
      assert |s.endEv + {c}| <= |s.endEv| + 1;
    case EndFires(c) =>
      assert |s.endEv - {c}| == |s.endEv| - 1;
  }

  lemma SomethingFires(s: Kernel)
    requires s.sched.Valid() && !AtRest(s)
    ensures exists e :: IsFiring(e) && Enabled(s, e) && Safe(s, e)
  {
    if c :| c in s.beginEv {
      assert Safe(s, BeginFires(c));
    } else {
      var c :| c in s.endEv;
      assert Safe(s, EndFires(c));
    }
  }

  /** Left alone, the pending events fire in some order, at most PendingWork of them, and whatever the
      order the same tasks end up executing. */
  lemma {:induction false} Settles(s: Kernel, es: seq<Event>)
    requires Inv(s) && ValidRun(s, es) && forall i :: 0 <= i < |es| ==> IsFiring(es[i])
    ensures |es| <= PendingWork(s)
    ensures Run(s, es).sched == s.sched
    ensures AtRest(Run(s, es)) ==> GloballyScheduled(Run(s, es)) && Run(s, es).exe.Values == Top(s)
    ensures !AtRest(Run(s, es)) ==> exists e :: IsFiring(e) && Enabled(Run(s, es), e) && Safe(Run(s, es), e)
    decreases |es|
  {
    if es == [] {
      if AtRest(s) {
        AtRestIsGloballyScheduled(s);
      } else {
        SomethingFires(s);
      }
    } else {
      StepKeepsInv(s, es[0]);
      FiringReducesWork(s, es[0]);
      Settles(Step(s, es[0]), es[1..]);
    }
  }

  // ---------- runs without delays ----------

  /** With zero delays the end event of a switch follows its begin event at once. */
  ghost function FusedStep(s: Kernel, e: Event): Kernel
    requires Enabled(s, e)
  {
    var s' := Step(s, e);
    if e.BeginFires? && e.c in s'.endEv then OnEndDispatch(s', e.c) else s'
  }

  ghost predicate ValidFusedRun(s: Kernel, es: seq<Event>)
    decreases |es|
  {
    es == [] || (Enabled(s, es[0]) && ValidFusedRun(FusedStep(s, es[0]), es[1..]))
  }

  ghost function FusedRun(s: Kernel, es: seq<Event>): Kernel
    requires ValidFusedRun(s, es)
    decreases |es|
  {
    if es == [] then s else FusedRun(FusedStep(s, es[0]), es[1..])
  }

  ghost predicate Unswitching(s: Kernel) { s.switching == {} && s.endEv == {} }

  lemma FusedStepKeepsInv(s: Kernel, e: Event)
    requires Inv(s) && Unswitching(s) && Enabled(s, e)
    ensures Inv(FusedStep(s, e)) && Unswitching(FusedStep(s, e))
  {
    UnswitchingIsSafe(s, e);
    StepKeepsInv(s, e);
    if e.BeginFires? {
      BeginOnlySwitches(s, e.c);
      if e.c in OnBegin(s, e.c).endEv {
        OnEndDispatchKeepsInv(OnBegin(s, e.c), e.c);
      }
    } else {
      StepKeepsUnswitching(s, e);
    }
  }

  lemma BeginOnlySwitches(s: Kernel, c: Cpu)
    requires Unswitching(s)
    ensures OnBegin(s, c).switching == OnBegin(s, c).endEv <= {c}
  {
  }

  lemma UnswitchingIsSafe(s: Kernel, e: Event)
    requires Owned(s) && Unswitching(s) && Enabled(s, e)
    ensures Safe(s, e)
  {
    match e
    case Blocked(t) => RunningOn(s, t);
    case Killed(t) => RunningOn(s, t);
    case _ =>
  }

  lemma StepKeepsUnswitching(s: Kernel, e: Event)
    requires Unswitching(s) && Enabled(s, e) && !e.BeginFires?
    ensures Unswitching(Step(s, e))
  {
  }

  /** With zero delays the guards hold by themselves: over every run, whenever no begin event is pending
      the executing tasks are exactly the min(ncpu, queue length) first ready ones. */
  lemma {:induction false} FusedRunKeepsInv(s: Kernel, es: seq<Event>)
    requires Inv(s) && Unswitching(s) && ValidFusedRun(s, es)
    ensures Inv(FusedRun(s, es)) && Unswitching(FusedRun(s, es))
    ensures FusedRun(s, es).beginEv == {} ==> GloballyScheduled(FusedRun(s, es))
    decreases |es|
  {
    if es == [] {
      if s.beginEv == {} {
        AtRestIsGloballyScheduled(s);
      }
    } else {
      FusedStepKeepsInv(s, es[0]);
      FusedRunKeepsInv(FusedStep(s, es[0]), es[1..]);
    }
  }
}
