/**
 Jobs of a task: arrivals that start a job at once, wait in the arrival buffer or are dropped
 (src/task.cpp, with kill-on-miss off).
 */
module TaskJobs {
  import opened Common

  type Time = int

  datatype TaskState = Idle | Ready | Exec | Blocked

  /** The part of a Task that arrivals and ends act on. */
  datatype TaskRec = TaskRec(
    state: TaskState,
    numJobs: nat,
    arrQueue: seq<Time>,
    arrQueueSize: int,
    arrival: Time,
    lastArrival: Time,
    dl: Time,            // _dl
    rdl: Time,           // _rdl
    execd: Time,         // execdTime
    fakeArr: bool,       // fakeArrEvt is pending
    instrs: nat,         // the number of instructions
    actInstr: nat)       // the index of the current instruction
  {
    predicate IsActive() { state != Idle }

    function HandleArrival(arr: Time): TaskRec {
      this.(arrival := arr, execd := 0, actInstr := 0, state := Ready, dl := arr + rdl)
    }

    /** The test as coded: one arrival more than arrQueueSize fits. */
    function BuffArrival(now: Time): TaskRec {
      if |arrQueue| <= arrQueueSize then this.(arrQueue := arrQueue + [now]) else this
    }

    function OnArrival(now: Time): TaskRec {
      var t := this.(numJobs := numJobs + 1);
      if !IsActive() then t.HandleArrival(now) else t.BuffArrival(now)
    }

    function OnEndInstance(): TaskRec {
      this.(actInstr := 0, lastArrival := arrival, state := Idle, fakeArr := fakeArr || arrQueue != [])
    }

    /** onInstrEnd: the execution time of the instruction that ended is added up; the last one ends the job. */
    function OnInstrEnd(execTime: Time): TaskRec {
      var t := this.(execd := execd + execTime, actInstr := actInstr + 1);
      if actInstr + 1 == instrs then t.OnEndInstance() else t
    }

    function OnFakeArrival(): TaskRec
      requires arrQueue != []
    {
      this.(arrQueue := arrQueue[1..], fakeArr := false).HandleArrival(arrQueue[0])
    }
  }

  class Task {
    var state: TaskState
    var numJobs: nat
    var arrQueue: seq<Time>
    const arrQueueSize: int
    var arrival: Time
    var lastArrival: Time
    var dl: Time
    const rdl: Time
    var execdTime: Time
    var fakeArr: bool
    const instrs: nat
    var actInstr: nat

    ghost function State(): TaskRec
      reads this
    {
      TaskRec(state, numJobs, arrQueue, arrQueueSize, arrival, lastArrival, dl,
              rdl, execdTime, fakeArr, instrs, actInstr)
    }

    constructor (rdl: Time, phase: Time, qs: int, instrs: nat)
      ensures State() == TaskRec(Idle, 0, [], qs, phase, phase, 0, rdl, 0, false, instrs, 0)
    {
      this.instrs := instrs;
      actInstr := 0;
      this.rdl := rdl;
      arrQueueSize := qs;
      state, numJobs, arrQueue := Idle, 0, [];
      arrival, lastArrival, dl, execdTime, fakeArr := phase, phase, 0, 0, false;
    }

    method HandleArrival(arr: Time)
      modifies this`arrival, this`execdTime, this`actInstr, this`state, this`dl
      ensures State() == old(State()).HandleArrival(arr)
    {
      arrival := arr;
      execdTime := 0;
      actInstr := 0;
      state := Ready;
      dl := arrival + rdl;
    }

    method GetBuffArrival() returns (time: Time)
      requires arrQueue != []
      modifies this`arrQueue
      ensures time == old(arrQueue)[0] && arrQueue == old(arrQueue)[1..]
    {
      time := arrQueue[0];
      arrQueue := arrQueue[1..];
    }

    method BuffArrival(now: Time)
      modifies this`arrQueue
      ensures State() == old(State()).BuffArrival(now)
    {
      if |arrQueue| <= arrQueueSize {
        arrQueue := arrQueue + [now];
      }
    }

    method OnArrival(now: Time)
      modifies this
      ensures State() == old(State()).OnArrival(now)
    {
      numJobs := numJobs + 1;
      if state == Idle {
        HandleArrival(now);
      } else {
        BuffArrival(now);
      }
    }

    method OnEndInstance()
      modifies this`actInstr, this`lastArrival, this`state, this`fakeArr
      ensures State() == old(State()).OnEndInstance()
    {
      actInstr := 0;
      lastArrival := arrival;
      state := Idle;
      if arrQueue != [] {
        fakeArr := true;
      }
    }

    method OnFakeArrival()
      requires arrQueue != []
      modifies this
      ensures State() == old(State()).OnFakeArrival()
    {
      fakeArr := false;
      var a := GetBuffArrival();
      HandleArrival(a);
    }

    method OnInstrEnd(execTime: Time)
      modifies this`execdTime, this`actInstr, this`lastArrival, this`state, this`fakeArr
      ensures State() == old(State()).OnInstrEnd(execTime)
    {
      execdTime := execdTime + execTime;
      actInstr := actInstr + 1;
      if actInstr == instrs {
        OnEndInstance();
      }
    }
  }

  // ---------- the history of a task ----------

  /** A started job and the deadline it got. */
  datatype Job = Job(arrival: Time, deadline: Time)

  datatype History = History(arrived: nat, accepted: seq<Time>, started: seq<Job>, finished: nat, dropped: nat)

  datatype Event = Arrives(now: Time) | Ends | Buffered | Scheduled | Descheduled

  /** A job ends while it is active, the buffered start fires when it is pending, and no arrival comes between the
      end of a job and the buffered start that it triggers. */
  ghost predicate Enabled(t: TaskRec, e: Event) {
    match e
    case Arrives(_) => !t.fakeArr
    case Ends => t.IsActive()
    case Buffered => t.fakeArr && t.arrQueue != []
    case Scheduled => t.state == Ready
    case Descheduled => t.state == Exec
  }

  function Step(t: TaskRec, e: Event): TaskRec
    requires e.Buffered? ==> t.arrQueue != []
  {
    match e
    case Arrives(now) => t.OnArrival(now)
    case Ends => t.OnEndInstance()
    case Buffered => t.OnFakeArrival()
    case Scheduled => t.(state := Exec)
    case Descheduled => t.(state := Ready)
  }

  function Record(t: TaskRec, h: History, e: Event): History
    requires e.Buffered? ==> t.arrQueue != []
  {
    match e
    case Arrives(now) =>
      var h1 := h.(arrived := h.arrived + 1);
      if !t.IsActive() then h1.(accepted := h.accepted + [now], started := h.started + [Job(now, Step(t, e).dl)])
      else if |t.arrQueue| <= t.arrQueueSize then h1.(accepted := h.accepted + [now])
      else h1.(dropped := h.dropped + 1)
    case Ends => h.(finished := h.finished + 1)
    case Buffered => h.(started := h.started + [Job(t.arrQueue[0], Step(t, e).dl)])
    case _ => h
  }

  function ArrivalsOf(jobs: seq<Job>): seq<Time> {
    if jobs == [] then [] else ArrivalsOf(jobs[..|jobs| - 1]) + [jobs[|jobs| - 1].arrival]
  }

  /** Every arrival is started, buffered or dropped; jobs start in the order of their arrivals, with deadlines
      counted from their own arrivals; one job is active exactly when one more started than finished. The task has the
      arrival and the deadline of the job started last, and the last arrival of the one finished last. */
  ghost predicate Accounted(t: TaskRec, h: History) {
    && h.accepted == ArrivalsOf(h.started) + t.arrQueue
    && h.arrived == |h.started| + |t.arrQueue| + h.dropped == t.numJobs
    && |h.started| == h.finished + (if t.IsActive() then 1 else 0)
    && (forall k :: 0 <= k < |h.started| ==> h.started[k].deadline == h.started[k].arrival + t.rdl)
    && |t.arrQueue| <= Max0(t.arrQueueSize + 1)
    && (t.fakeArr <==> !t.IsActive() && t.arrQueue != [])
    && (h.started != [] ==>
          t.arrival == h.started[|h.started| - 1].arrival && t.dl == h.started[|h.started| - 1].deadline)
    && (h.finished > 0 ==> t.lastArrival == h.started[h.finished - 1].arrival)
  }

  lemma ArrivalsAppend(jobs: seq<Job>, j: Job)
    ensures ArrivalsOf(jobs + [j]) == ArrivalsOf(jobs) + [j.arrival]
  {
    assert (jobs + [j])[..|jobs|] == jobs;
  }

  lemma StepKeepsAccount(t: TaskRec, h: History, e: Event)
    requires Accounted(t, h) && Enabled(t, e)
    ensures Accounted(Step(t, e), Record(t, h, e))
  {
    match e
    case Arrives(now) => ArrivesKeepsAccount(t, h, now);
    case Buffered => BufferedKeepsAccount(t, h);
    case _ =>
  }

  lemma ArrivesKeepsAccount(t: TaskRec, h: History, now: Time)
    requires Accounted(t, h) && !t.fakeArr
    ensures Accounted(t.OnArrival(now), Record(t, h, Arrives(now)))
  {
    hide ArrivalsOf;
    if !t.IsActive() {
      StartsJob(t, h, now);
    } else {
      Waits(h.started, t.arrQueue, now);
    }
  }

  lemma Waits(jobs: seq<Job>, q: seq<Time>, now: Time)
    ensures ArrivalsOf(jobs) + (q + [now]) == ArrivalsOf(jobs) + q + [now]
  {
    hide ArrivalsOf;
  }

  /** An idle task with nothing buffered starts a job. */
  lemma StartsJob(t: TaskRec, h: History, now: Time)
    requires Accounted(t, h) && !t.IsActive() && !t.fakeArr
    ensures Accounted(t.OnArrival(now), Record(t, h, Arrives(now)))
  {
    hide ArrivalsOf;
    assert t.arrQueue == [];
    ArrivalsAppend(h.started, Job(now, now + t.rdl));
    Nobody(ArrivalsOf(h.started));
    Nobody(ArrivalsOf(h.started) + [now]);
  }

  lemma Nobody(xs: seq<Time>)
    ensures xs + [] == xs
  {
  }

  lemma BufferedKeepsAccount(t: TaskRec, h: History)
    requires Accounted(t, h) && t.fakeArr && t.arrQueue != []
    ensures Accounted(t.OnFakeArrival(), Record(t, h, Buffered))
  {
    hide ArrivalsOf;
    var a := t.arrQueue[0];
    ArrivalsAppend(h.started, Job(a, a + t.rdl));
    TakesFront(h.started, t.arrQueue);
  }

  lemma TakesFront(jobs: seq<Job>, q: seq<Time>)
    requires q != []
    ensures ArrivalsOf(jobs) + q == ArrivalsOf(jobs) + [q[0]] + q[1..]
  {
    hide ArrivalsOf;
    assert q == [q[0]] + q[1..];
  }

  /** A new task has an empty account. */
  lemma NewTaskIsAccounted(qs: int, phase: Time, rdl: Time, instrs: nat)
    ensures Accounted(TaskRec(Idle, 0, [], qs, phase, phase, 0, rdl, 0, false, instrs, 0), History(0, [], [], 0, 0))
  {
  }

  ghost predicate ValidRun(t: TaskRec, es: seq<Event>)
    decreases |es|
  {
    es == [] || (Enabled(t, es[0]) && ValidRun(Step(t, es[0]), es[1..]))
  }

  ghost function Run(t: TaskRec, h: History, es: seq<Event>): (TaskRec, History)
    requires ValidRun(t, es)
    decreases |es|
  {
    if es == [] then (t, h) else Run(Step(t, es[0]), Record(t, h, es[0]), es[1..])
  }

  lemma {:induction false} JobsAreAccounted(t: TaskRec, h: History, es: seq<Event>)
    requires Accounted(t, h) && ValidRun(t, es)
    ensures var (t', h') := Run(t, h, es); Accounted(t', h')
    decreases |es|
  {
    if es != [] {
      StepKeepsAccount(t, h, es[0]);
      JobsAreAccounted(Step(t, es[0]), Record(t, h, es[0]), es[1..]);
    }
  }

  // ---------- an arrival between an end and the buffered start ----------

  /** An arrival handled between the end of a job and the buffered start it triggers starts a job of its own, and the
      buffered start then replaces that job: two jobs more are started than finished, with one active. The account
      survives both steps exactly when no buffered start was pending. */
  lemma ArrivalBeforeBufferedStart(t: TaskRec, h: History, now: Time)
    requires Accounted(t, h) && t.arrQueue != []
    ensures var t1, h1 := Step(t, Arrives(now)), Record(t, h, Arrives(now));
            && t1.arrQueue != []
            && (t.fakeArr ==>
                  |Record(t1, h1, Buffered).started| == Record(t1, h1, Buffered).finished + 2)
            && (Accounted(t1, h1) <==> !t.fakeArr)
  {
    if !t.fakeArr {
      StepKeepsAccount(t, h, Arrives(now));
    }
  }

  /** Such an arrival can happen: a task gets a job at 0 and an arrival at 5, and ends its job. An arrival at 7, before
      the buffered start, makes two jobs started after the first, with one of them active. */
  lemma JobOverwritten()
    ensures var t0, h0 := TaskRec(Idle, 0, [], 1, 0, 0, 0, 10, 0, false, 1, 0), History(0, [], [], 0, 0);
            var es := [Arrives(0), Arrives(5), Ends];
            && Accounted(t0, h0) && ValidRun(t0, es)
            && (var (t, h) := Run(t0, h0, es);
                && t.fakeArr && t.arrQueue == [5]
                && (var t1, h1 := Step(t, Arrives(7)), Record(t, h, Arrives(7));
                    && t1.arrQueue == [5]
                    && Record(t1, h1, Buffered).started == [Job(0, 10), Job(7, 17), Job(5, 15)]
                    && Record(t1, h1, Buffered).finished == 1 && Step(t1, Buffered).IsActive()))
  {
    var t0, h0 := TaskRec(Idle, 0, [], 1, 0, 0, 0, 10, 0, false, 1, 0), History(0, [], [], 0, 0);
    var t1, h1 := Step(t0, Arrives(0)), Record(t0, h0, Arrives(0));
    var t2, h2 := Step(t1, Arrives(5)), Record(t1, h1, Arrives(5));
    var t3, h3 := Step(t2, Ends), Record(t2, h2, Ends);
    hide Accounted;
    NewTaskIsAccounted(1, 0, 10, 1);
    RunOf(t2, h2, Ends, []);
    RunOf(t1, h1, Arrives(5), [Ends] + []);
    RunOf(t0, h0, Arrives(0), [Arrives(5)] + ([Ends] + []));
    assert [Arrives(0), Arrives(5), Ends] == [Arrives(0)] + ([Arrives(5)] + ([Ends] + []));
    assert Run(t3, h3, []) == (t3, h3);
  }

  lemma RunOf(t: TaskRec, h: History, e: Event, es: seq<Event>)
    requires Enabled(t, e) && ValidRun(Step(t, e), es)
    ensures ValidRun(t, [e] + es) && Run(t, h, [e] + es) == Run(Step(t, e), Record(t, h, e), es)
  {
    assert ([e] + es)[1..] == es;
  }

  /** The buffer holds one arrival more than the size given, so a size of 0 still buffers one; a negative size
      buffers none instead of any number. */
  lemma BufferCapacity(t: TaskRec, now: Time)
    requires t.IsActive()
    ensures t.OnArrival(now).arrQueue == t.arrQueue + [now] <==> |t.arrQueue| < t.arrQueueSize + 1
    ensures t.arrQueueSize < 0 ==> t.OnArrival(now).arrQueue == t.arrQueue
  {
  }
}
