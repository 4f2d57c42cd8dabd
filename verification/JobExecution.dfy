/**
 The execution of whole jobs: the current instruction is started, stopped, slowed down and ended, and the task
 adds up the execution times (src/task.cpp, src/exeinstr.cpp).
 */
module JobExecution {
  import opened Common
  import E = ExecInstruction
  import T = TaskJobs

  type Time = int

  datatype Job = Job(task: T.TaskRec, instrs: seq<E.Instr>) {

    ghost predicate Shaped() { |instrs| == task.instrs && task.actInstr < |instrs| }

    function Current(): E.Instr
      requires task.actInstr < |instrs|
    {
      instrs[task.actInstr]
    }

    function With(i: E.Instr): Job
      requires task.actInstr < |instrs|
    {
      Job(task, instrs[task.actInstr := i])
    }

    /** handleArrival(): every instruction is reset. */
    function Begin(arr: Time): Job {
      Job(task.HandleArrival(arr), seq(|instrs|, n requires 0 <= n < |instrs| => instrs[n].Reset()))
    }

    function OnSched(t: Time, drawn: int): Job
      requires task.actInstr < |instrs|
    {
      var j := With(Current().Schedule(t, drawn));
      Job(task.(state := T.Exec), j.instrs)
    }

    function OnDesched(t: Time): Job
      requires task.actInstr < |instrs|
    {
      var j := With(Current().Deschedule(t));
      Job(task.(state := T.Ready), j.instrs)
    }

    function Refresh(t: Time, oldSpeed: real, newSpeed: real): Job
      requires task.actInstr < |instrs| && newSpeed > 0.0
    {
      With(Current().Refresh(t, oldSpeed, newSpeed))
    }

    /** The end event of the current instruction: ExecInstr::onEnd, then Task::onInstrEnd, which starts the next
        instruction while the task executes. */
    function InstrEnds(t: Time, drawn: int): Job
      requires Shaped()
    {
      var i := Current().OnEnd(t);
      var j := Job(task.OnInstrEnd(E.ExecTimeAt(i, t)), With(i).instrs);
      if task.actInstr + 1 < |instrs| && task.state == T.Exec then j.With(j.Current().Schedule(t, drawn)) else j
    }

    /** Task::getExecTime. */
    function ExecTimeAt(t: Time): Time
      requires task.actInstr < |instrs|
    {
      if task.IsActive() then task.execd + E.ExecTimeAt(Current(), t) else task.execd
    }
  }

  // ---------- events and the history of a job ----------

  datatype Event =
    | Begins(arr: Time)
    | Scheduled(t: Time, drawn: int)   // drawn is the cost, should the instruction be fresh
    | Descheduled(t: Time)
    | InstrEnd(t: Time, drawn: int)    // drawn is the cost of the next instruction
    | SpeedChange(t: Time, oldSpeed: real, newSpeed: real)

  /** A job begins while none is active; a ready task is scheduled; an executing one is descheduled, has its speed
      changed, or reaches the end event of its instruction. */
  ghost predicate Enabled(j: Job, e: Event) {
    && j.Shaped()
    && match e
       case Begins(_) => j.task.state == T.Idle
       case Scheduled(_, _) => j.task.state == T.Ready
       case Descheduled(_) => j.task.state == T.Exec
       case InstrEnd(t, _) => j.task.state == T.Exec && j.Current().end == Some(t)
       case SpeedChange(_, _, v) => j.task.state == T.Exec && v > 0.0
  }

  ghost function Step(j: Job, e: Event): Job
    requires Enabled(j, e)
  {
    match e
    case Begins(arr) => j.Begin(arr)
    case Scheduled(t, drawn) => j.OnSched(t, drawn)
    case Descheduled(t) => j.OnDesched(t)
    case InstrEnd(t, drawn) => j.InstrEnds(t, drawn)
    case SpeedChange(t, u, v) => j.Refresh(t, u, v)
  }

  /** What a watch on the processor reads: how long the current job has executed up to `since`, the last time it was
      looked at; and the costs drawn for the instructions of the job so far. */
  datatype Watch = Watch(total: Time, since: Time, drawn: seq<int>) {
    function At(t: Time): Watch { this.(total := total + (t - since), since := t) }

    function Draw(c: int): Watch { this.(drawn := drawn + [c]) }
  }

  ghost function Record(j: Job, w: Watch, e: Event): Watch
    requires Enabled(j, e)
  {
    match e
    case Begins(_) => Watch(0, w.since, [])
    case Scheduled(t, drawn) =>
      var w' := w.(since := t);
      if j.Current().flag then w'.Draw(drawn) else w'
    case Descheduled(t) => w.At(t)
    case InstrEnd(t, drawn) => if j.task.actInstr + 1 < |j.instrs| then w.At(t).Draw(drawn) else w.At(t)
    case SpeedChange(t, _, _) => w.At(t)
  }

  ghost predicate ValidRun(j: Job, es: seq<Event>)
    decreases |es|
  {
    es == [] || (Enabled(j, es[0]) && ValidRun(Step(j, es[0]), es[1..]))
  }

  ghost function Run(j: Job, w: Watch, es: seq<Event>): (Job, Watch)
    requires ValidRun(j, es)
    decreases |es|
  {
    if es == [] then (j, w) else Run(Step(j, es[0]), Record(j, w, es[0]), es[1..])
  }

  // ---------- execution time ----------

  /** An instruction that this job has not started. */
  ghost predicate Untouched(i: E.Instr) { i.flag && i.execd == 0 && i.act == 0 }

  /** Only the current instruction of an executing task executes, and the later ones are untouched. */
  ghost predicate InPhase(j: Job) {
    && j.Shaped() && j.task.state != T.Blocked
    && (forall n :: 0 <= n < |j.instrs| ==>
          (j.instrs[n].executing <==> n == j.task.actInstr && j.task.state == T.Exec))
    && (j.task.IsActive() ==> forall n :: j.task.actInstr < n < |j.instrs| ==> Untouched(j.instrs[n]))
    && (j.task.IsActive() && j.Current().flag ==> Untouched(j.Current()) && j.task.state == T.Ready)
  }

  /** The times recorded are those on the watch. */
  ghost predicate Timed(j: Job, w: Watch) {
    && InPhase(j)
    && w.total == j.task.execd + (if j.task.IsActive() then j.Current().execd else 0)
    && (j.task.state == T.Exec ==> j.Current().last == w.since)
  }

  lemma StepKeepsTime(j: Job, w: Watch, e: Event)
    requires Timed(j, w) && Enabled(j, e)
    ensures Timed(Step(j, e), Record(j, w, e))
  {
    hide E.Delay, E.Worked;
  }

  /** Over every run with any preemptions and speed changes, Task::getExecTime is the time for which the job has
      executed. */
  lemma {:induction false} ExecTimeIsTimeExecuted(j: Job, w: Watch, es: seq<Event>, t: Time)
    requires Timed(j, w) && ValidRun(j, es)
    ensures var (j', w') := Run(j, w, es);
            && Timed(j', w')
            && j'.ExecTimeAt(t) == w'.total + (if j'.task.state == T.Exec then t - w'.since else 0)
    decreases |es|
  {
    if es != [] {
      StepKeepsTime(j, w, es[0]);
      ExecTimeIsTimeExecuted(Step(j, es[0]), Record(j, w, es[0]), es[1..], t);
    }
  }

  // ---------- execution time and costs ----------

  function Sum(xs: seq<int>): int { if xs == [] then 0 else Sum(xs[..|xs| - 1]) + xs[|xs| - 1] }

  lemma SumAppend(xs: seq<int>, x: int)
    ensures Sum(xs + [x]) == Sum(xs) + x
  {
    assert (xs + [x])[..|xs|] == xs;
  }

  /** At full speed, with no event before the previous one or after a pending end event. */
  ghost predicate FullSpeed(j: Job, e: Event)
    requires Enabled(j, e)
  {
    match e
    case Begins(_) => true
    case Scheduled(_, drawn) => drawn >= 0
    case Descheduled(t) => j.Current().last <= t && j.Current().end.Some? && t <= j.Current().end.value
    case InstrEnd(_, drawn) => drawn >= 0
    case SpeedChange(_, _, _) => false
  }

  ghost predicate FullSpeedRun(j: Job, es: seq<Event>)
    requires ValidRun(j, es)
    decreases |es|
  {
    es == [] || (FullSpeed(j, es[0]) && FullSpeedRun(Step(j, es[0]), es[1..]))
  }

  /** The instruction in progress, of cost c, has executed for what it is accounted, and its end event is due when
      the rest has. */
  ghost predicate InProgress(i: E.Instr, c: int) {
    && i.cost == c && i.act == i.execd && 0 <= i.act <= i.cost
    && i.end == if i.executing then Some(i.last + i.cost - i.act) else None
  }

  /** The execution time added up is the sum of the costs of the instructions that ended. */
  ghost predicate Costed(j: Job, w: Watch) {
    && InPhase(j)
    && (!j.task.IsActive() ==> j.task.execd == Sum(w.drawn) && (w.drawn == [] || |w.drawn| == |j.instrs|))
    && (j.task.IsActive() ==>
          && |w.drawn| == j.task.actInstr + (if j.Current().flag then 0 else 1)
          && j.task.execd == Sum(w.drawn[..j.task.actInstr])
          && (!j.Current().flag ==> InProgress(j.Current(), w.drawn[j.task.actInstr])))
  }

  lemma ScheduleProgress(i: E.Instr, t: Time, drawn: int, c: int)
    requires if i.flag then drawn == c >= 0 else InProgress(i, c) && !i.executing
    ensures InProgress(i.Schedule(t, drawn), c) && !i.Schedule(t, drawn).flag && i.Schedule(t, drawn).executing
  {
    E.RemainingBounds(i.Schedule(t, drawn), 1.0);
  }

  lemma DescheduleProgress(i: E.Instr, t: Time, c: int)
    requires InProgress(i, c) && i.executing && i.last <= t <= i.last + i.cost - i.act
    ensures InProgress(i.Deschedule(t), c)
  {
    E.RemainingBounds(i, 1.0);
    E.IntervalWork(i, 1.0, t);
  }

  /** The end event is due when the instruction has executed for its cost. */
  lemma EndIsCost(i: E.Instr, t: Time, c: int)
    requires InProgress(i, c) && i.executing && i.end == Some(t)
    ensures E.ExecTimeAt(i.OnEnd(t), t) == c
  {
  }

  lemma StepKeepsCosts(j: Job, w: Watch, e: Event)
    requires Costed(j, w) && Enabled(j, e) && FullSpeed(j, e)
    ensures Costed(Step(j, e), Record(j, w, e))
  {
    match e
    case Begins(_) =>
    case Scheduled(t, drawn) => ScheduledKeepsCosts(j, w, t, drawn);
    case Descheduled(t) =>
      DescheduleProgress(j.Current(), t, w.drawn[j.task.actInstr]);
    case InstrEnd(t, drawn) => InstrEndKeepsCosts(j, w, t, drawn);
    case SpeedChange(_, _, _) =>
  }

  lemma ScheduledKeepsCosts(j: Job, w: Watch, t: Time, drawn: int)
    requires Costed(j, w) && j.task.state == T.Ready && drawn >= 0
    ensures Costed(j.OnSched(t, drawn), Record(j, w, Scheduled(t, drawn)))
  {
    var w' := Record(j, w, Scheduled(t, drawn));
    assert w'.drawn[..j.task.actInstr] == w.drawn[..j.task.actInstr];
    ScheduleProgress(j.Current(), t, drawn, w'.drawn[j.task.actInstr]);
    hide E.Instr.Schedule;
  }

  lemma InstrEndKeepsCosts(j: Job, w: Watch, t: Time, drawn: int)
    requires Costed(j, w) && j.task.state == T.Exec && j.Current().end == Some(t) && drawn >= 0
    ensures Costed(j.InstrEnds(t, drawn), Record(j, w, InstrEnd(t, drawn)))
  {
    var k := j.task.actInstr;
    EndIsCost(j.Current(), t, w.drawn[k]);
    assert w.drawn == w.drawn[..k] + [w.drawn[k]];
    SumAppend(w.drawn[..k], w.drawn[k]);
    if k + 1 < |j.instrs| {
      assert (w.drawn + [drawn])[..k + 1] == w.drawn;
      ScheduleProgress(j.instrs[k + 1], t, drawn, drawn);
    }
  }

  /** Over every run at full speed, however often it is preempted: a job ends only with its last instruction, and
      then its execution time is the sum of the costs drawn for all of them; before that it is the sum of the costs
      of those that ended. */
  lemma {:induction false} JobExecutesItsCosts(j: Job, w: Watch, es: seq<Event>)
    requires Costed(j, w) && ValidRun(j, es) && FullSpeedRun(j, es)
    ensures var (j', w') := Run(j, w, es);
            && Costed(j', w')
            && (!j'.task.IsActive() && w'.drawn != [] ==>
                  |w'.drawn| == |j'.instrs| && j'.task.execd == Sum(w'.drawn))
            && (j'.task.IsActive() ==>
                  j'.task.actInstr <= |w'.drawn| && j'.task.execd == Sum(w'.drawn[..j'.task.actInstr]))
    decreases |es|
  {
    if es != [] {
      StepKeepsCosts(j, w, es[0]);
      JobExecutesItsCosts(Step(j, es[0]), Record(j, w, es[0]), es[1..]);
    }
  }

  /** A new task with new instructions meets both invariants. */
  lemma NewJobIsTimedAndCosted(t: T.TaskRec, n: nat, since: Time)
    requires t.state == T.Idle && t.execd == 0 && t.actInstr == 0 && t.instrs == n > 0
    ensures var j := Job(t, seq(n, k => E.Instr(true, false, 0, 0, 0, 0, None)));
            Timed(j, Watch(0, since, [])) && Costed(j, Watch(0, since, []))
  {
  }

  // ---------- the task and its instructions as objects ----------

  class JobTask {
    const task: T.Task
    const instrs: seq<E.ExecInstr>

    ghost predicate Valid()
      reads this, task
    {
      Distinct(instrs) && |instrs| == task.instrs && task.actInstr < |instrs|
    }

    ghost function State(): Job
      reads this, task, instrs
    {
      Job(task.State(), seq(|instrs|, n requires 0 <= n < |instrs| reads instrs => instrs[n].State()))
    }

    constructor (task: T.Task, instrs: seq<E.ExecInstr>)
      ensures this.task == task && this.instrs == instrs
    {
      this.task := task;
      this.instrs := instrs;
    }

    method HandleArrival(arr: Time)
      requires Valid()
      modifies task, instrs
      ensures Valid() && State() == old(State()).Begin(arr)
    {
      task.HandleArrival(arr);
      for n := 0 to |instrs|
        invariant Valid() && task.State() == old(task.State()).HandleArrival(arr)
        invariant forall k :: 0 <= k < n ==> instrs[k].State() == old(instrs[k].State()).Reset()
        invariant forall k :: n <= k < |instrs| ==> instrs[k].State() == old(instrs[k].State())
      {
        instrs[n].Reset();
      }
    }

    method OnSched(t: Time, drawn: int)
      requires Valid()
      modifies task`state, instrs
      ensures Valid() && State() == old(State()).OnSched(t, drawn)
    {
      task.state := T.Exec;
      instrs[task.actInstr].Schedule(t, drawn);
    }

    method OnDesched(t: Time)
      requires Valid()
      modifies task`state, instrs
      ensures Valid() && State() == old(State()).OnDesched(t)
    {
      instrs[task.actInstr].Deschedule(t);
      task.state := T.Ready;
    }

    /** The end event of the current instruction. */
    method OnInstrEnd(t: Time, drawn: int)
      requires Valid()
      modifies task, instrs
      ensures Valid() && State() == old(State()).InstrEnds(t, drawn)
    {
      var executing := task.state == T.Exec;
      var i := instrs[task.actInstr];
      i.OnEnd(t);
      var e := i.GetExecTime(t);
      var last := task.actInstr + 1 == task.instrs;
      task.OnInstrEnd(e);
      if !last && executing {
        instrs[task.actInstr].Schedule(t, drawn);
      }
    }

    method GetExecTime(t: Time) returns (r: Time)
      requires Valid()
      ensures r == State().ExecTimeAt(t)
    {
      if task.state != T.Idle {
        var e := instrs[task.actInstr].GetExecTime(t);
        r := task.execdTime + e;
      } else {
        r := task.execdTime;
      }
    }
  }
}
