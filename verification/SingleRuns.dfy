/**
 Whole runs of the single-processor kernel (src/kernel.cpp): whenever no begin event is pending, the first ready task
 has the processor, and a context switch is made exactly for a task other than the last one that had it.
 */
module SingleRuns {
  import opened Common
  import opened ReadyQueue
  import opened SingleKernel

  datatype Event =
    | Arrival(t: Task, now: int)
    | JobEnd(t: Task)
    | Blocked(t: Task)
    | Killed(t: Task)
    | NewPriority(t: Task, p: int)
    | Refresh
    | BeginFires
    | EndFires

  /** The current task ends its job; a ready task blocks; one that does not execute is killed; an event fires when it
      is pending. */
  ghost predicate Enabled(k: Rt, e: Event) {
    match e
    case Arrival(t, _) => t in k.sched.models && t !in k.sched.queue
    case JobEnd(t) => k.curr == Some(t)
    case Blocked(t) => t in k.sched.queue
    case Killed(t) => t in k.sched.queue && (k.curr == Some(t) ==> k.endEv)
    case NewPriority(t, _) => t in k.sched.models && t !in k.sched.queue
    case Refresh => true
    case BeginFires => k.beginEv
    case EndFires => k.endEv
  }

  ghost function Step(k: Rt, e: Event): Rt
    requires k.Valid() && Enabled(k, e)
  {
    match e
    case Arrival(t, now) => k.OnArrival(t, now)
    case JobEnd(t) => k.OnEnd(t)
    case Blocked(t) => k.Suspend(t).Dispatch()
    case Killed(t) => k.Terminate(t)
    case NewPriority(t, p) => k.(sched := k.sched.ChangePriority(t, p))
    case Refresh => k.Dispatch()
    case BeginFires => k.OnBegin()
    case EndFires => k.OnEndDispatch()
  }

  /** A kill in the middle of the task's own switch leaves the processor with a task that is not ready. */
  lemma TerminateKeepsValidIff(k: Rt, t: Task)
    requires k.Valid() && t in k.sched.queue
    ensures k.Terminate(t).Valid() <==> k.curr != Some(t)
  {
    ExtractKeepsValid(k.sched, t, 0);
    var q, q' := k.sched.queue, k.sched.Extract(t).queue;
    assert Elements(q') == Elements(q) - {t};
    assert forall x :: x in q' <==> x in Elements(q');
  }

  ghost predicate Sound(k: Rt, e: Event) { e.Killed? ==> k.curr != Some(e.t) }

  /** What an observer of the processor sees: the task that had it before the present one, and whether a switch has
      begun that has not ended. */
  datatype Watch = Watch(last: Option<Task>, open: bool)

  /** The processor changes from k.curr to k'.curr. */
  ghost function Record(k: Rt, w: Watch, e: Event, k': Rt): Watch {
    var last := if k.curr.Some? && k'.curr != k.curr then k.curr else w.last;
    var begins := e.BeginFires? && k'.curr.Some? && k'.curr != k.curr && k'.curr != last;
    Watch(last, begins || (w.open && !e.EndFires?))
  }

  /** A begin event is pending where one is needed, and the kernel's own records agree with the observer's. */
  ghost predicate Inv(k: Rt, w: Watch) {
    && k.Valid() && Attended(k)
    && k.pre == w.last
    && k.endEv == k.switching == w.open
  }

  lemma StepKeepsValid(k: Rt, e: Event)
    requires k.Valid() && Enabled(k, e) && Sound(k, e)
    ensures Step(k, e).Valid()
  {
    match e
    case Arrival(t, now) =>
      InsertKeepsValid(k.sched, t, now);
      assert forall x :: x in k.sched.queue ==> x in Elements(Step(k, e).sched.queue);
    case JobEnd(t) => ExtractKeepsValid(k.sched, t, 0);
    case Blocked(t) => Leaves(k, t);
    case Killed(t) => TerminateKeepsValidIff(k, t);
    case NewPriority(t, p) =>
    case Refresh =>
    case BeginFires => OnBeginTakesFirst(k);
    case EndFires =>
  }

  lemma Leaves(k: Rt, t: Task)
    requires k.Valid() && t in k.sched.queue
    ensures k.Suspend(t).Valid()
  {
    ExtractKeepsValid(k.sched, t, 0);
    assert forall x :: x in k.sched.queue && x != t ==> x in Elements(k.sched.Extract(t).queue);
  }

  /** A task that leaves from behind the front leaves the front. */
  lemma FrontStays(q: seq<Task>, t: Task)
    requires t in q && q[0] != t
    ensures Without(q, t) != [] && Without(q, t)[0] == q[0]
  {
  }

  lemma StepKeepsAttended(k: Rt, e: Event)
    requires k.Valid() && Attended(k) && Enabled(k, e) && Sound(k, e)
    ensures Attended(Step(k, e))
  {
    match e
    case Killed(t) =>
      if !k.beginEv {
        FrontStays(k.sched.queue, t);
      }
    case BeginFires => OnBeginTakesFirst(k);
    case _ =>
  }

  /** A begin event is pending after a step exactly when the step calls for one, or one was pending that did not
      fire. */
  lemma BeginIsPendingIff(k: Rt, e: Event)
    requires k.Valid() && Enabled(k, e)
    ensures Step(k, e).beginEv <==>
              || e.Arrival? || e.Blocked? || e.Refresh?
              || (e.JobEnd? && Step(k, e).sched.queue != [])
              || (k.beginEv && !e.BeginFires?)
  {
    if e.BeginFires? {
      OnBeginTakesFirst(k);
    }
  }

  lemma StepKeepsInv(k: Rt, w: Watch, e: Event)
    requires Inv(k, w) && Enabled(k, e) && Sound(k, e)
    ensures Inv(Step(k, e), Record(k, w, e, Step(k, e)))
  {
    StepKeepsValid(k, e);
    StepKeepsAttended(k, e);
    hide Attended, Sched.Valid, Sched.Insert, Sched.Extract;
  }

  ghost predicate ValidRun(k: Rt, es: seq<Event>)
    decreases |es|
  {
    es == [] || (k.Valid() && Enabled(k, es[0]) && Sound(k, es[0]) && ValidRun(Step(k, es[0]), es[1..]))
  }

  ghost function Run(k: Rt, w: Watch, es: seq<Event>): (Rt, Watch)
    requires ValidRun(k, es)
    decreases |es|
  {
    if es == [] then (k, w)
    else
      var k' := Step(k, es[0]);
      Run(k', Record(k, w, es[0], k'), es[1..])
  }

  /** At the start nothing is ready or pending, and nobody has had the processor. */
  lemma InitialInv(sched: Sched)
    requires sched.Valid() && sched.queue == []
    ensures Inv(Rt(sched, None, None, false, false, false), Watch(None, false))
  {
  }

  /** Over every run: unless a begin event is pending, the first ready task has the processor. A switch is open
      exactly when it was begun, for a task that was not the last to have the processor, and has not ended. */
  lemma {:induction false} ProcessorIsAttended(k: Rt, w: Watch, es: seq<Event>)
    requires Inv(k, w) && ValidRun(k, es)
    ensures var (k', w') := Run(k, w, es); Inv(k', w')
    decreases |es|
  {
    if es != [] {
      StepKeepsInv(k, w, es[0]);
      hide Inv, Step, Record, Enabled, Sound;
      var k' := Step(k, es[0]);
      ProcessorIsAttended(k', Record(k, w, es[0], k'), es[1..]);
    }
  }
}
