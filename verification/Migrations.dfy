/**
 The multiprocessor kernel's records of the past: where each task last executed, how often tasks migrated, how many
 dispatches were posted, and which switches have not ended (src/mrtkernel.cpp:162-316).
 */
module Migrations {
  import opened Common
  import opened ReadyQueue
  import opened GlobalDispatch
  import opened Selection
  import opened GlobalSteps
  import opened GlobalRuns
  import opened SoundRuns

  // ---------- where tasks executed ----------

  /** The CPU on which each task last executed, the present included, seen from who executes now. */
  ghost function LogOf(log: map<Task, Cpu>, exe: map<Cpu, Task>): map<Task, Cpu> {
    map t | t in log.Keys + exe.Values :: if t in exe.Values then (var p :| p in exe && exe[p] == t; p) else log[t]
  }

  /** The log knows where each task executes, and for every other task oldExe is the log. */
  ghost predicate Right(exe: map<Cpu, Task>, oldExe: map<Task, Cpu>, log: map<Task, Cpu>) {
    && (forall p :: p in exe ==> exe[p] in log && log[exe[p]] == p)
    && (forall t :: t !in exe.Values ==> (t in oldExe <==> t in log) && (t in oldExe ==> oldExe[t] == log[t]))
  }

  lemma NobodyMoves(exe: map<Cpu, Task>, oldExe: map<Task, Cpu>, log: map<Task, Cpu>)
    requires Injective(exe) && Right(exe, oldExe, log)
    ensures LogOf(log, exe) == log
  {
    forall t | t in exe.Values ensures t in log && log[t] == LogOf(log, exe)[t] {
    }
  }

  lemma Leaves(exe: map<Cpu, Task>, oldExe: map<Task, Cpu>, log: map<Task, Cpu>, p: Cpu)
    requires Injective(exe) && Right(exe, oldExe, log) && p in exe
    ensures Right(exe - {p}, oldExe[exe[p] := p], LogOf(log, exe - {p}))
  {
    var exe', log' := exe - {p}, LogOf(log, exe - {p});
    forall t | t !in exe'.Values && t != exe[p] ensures t !in exe.Values {
      if c :| c in exe && exe[c] == t {
        assert c in exe';
      }
    }
  }

  lemma Enters(exe: map<Cpu, Task>, oldExe: map<Task, Cpu>, log: map<Task, Cpu>, p: Cpu, t: Task)
    requires Injective(exe[p := t]) && p !in exe && Right(exe, oldExe, log)
    ensures Right(exe[p := t], oldExe, LogOf(log, exe[p := t]))
  {
    var exe' := exe[p := t];
    forall c | c in exe ensures exe[c] in exe'.Values {
      assert exe'[c] == exe[c];
    }
  }

  lemma ExecutingIsInjective(s: Kernel)
    requires Backed(s)
    ensures Injective(s.exe)
  {
  }

  // ---------- the observer ----------

  /** moves counts the begin events that gave a CPU to a task that last executed on another one; posts counts the
      dispatches that were due; unfinished holds the CPUs whose last switch has not ended, and begun the task of each
      CPU's last switch. */
  datatype Watch = Watch(log: map<Task, Cpu>, moves: nat, posts: nat, unfinished: set<Cpu>, begun: map<Cpu, Task>)

  const NOTHING_SEEN := Watch(map[], 0, 0, {}, map[])

  /** The task to which the begin event of c gave the CPU: the one dispatched to c afterwards. */
  ghost function Taken(s': Kernel, c: Cpu): Option<Task> {
    if c in s'.disp.Values then (var t :| t in s'.disp && s'.disp[t] == c; Some(t)) else None
  }

  /** An arrival and a block call for one CPU per task of the top without one, and the end of a job for its own. */
  ghost function Due(s: Kernel, e: Event): nat
    requires Enabled(s, e)
  {
    if Dispatches(e) then |Undispatched(AtDispatch(s, e))| else if e.JobEnd? then 1 else 0
  }

  ghost function Record(s: Kernel, w: Watch, e: Event, s': Kernel): Watch
    requires Enabled(s, e)
  {
    var taken := if e.BeginFires? then Taken(s', e.c) else None;
    Watch(LogOf(w.log, s'.exe),
          w.moves + (if taken.Some? && taken.value in w.log && w.log[taken.value] != e.c then 1 else 0),
          w.posts + Due(s, e),
          if taken.Some? then w.unfinished + {e.c} else if e.EndFires? then w.unfinished - {e.c} else w.unfinished,
          if taken.Some? then w.begun[e.c := taken.value] else w.begun)
  }

  /** The kernel's records agree with the observer's. */
  ghost predicate Agrees(s: Kernel, w: Watch) {
    && Right(s.exe, s.oldExe, w.log)
    && s.migrations == w.moves && s.contextSwitches == w.posts
    && s.switching == w.unfinished && s.endTask == w.begun
  }

  // ---------- the steps ----------

  lemma DispatchAgrees(s: Kernel)
    requires Scannable(s) && ScanEnds(s)
    ensures var s' := Dispatch(s);
            && s'.exe == s.exe && s'.oldExe == s.oldExe && s'.migrations == s.migrations
            && s'.switching == s.switching && s'.endTask == s.endTask
            && s'.contextSwitches == s.contextSwitches + |Undispatched(s)|
  {
    ScanPostsSize(s);
    hide ScanPosts, Undispatched, ScanEnds, Scannable;
  }

  lemma SuspendAgrees(s: Kernel, t: Task, log: map<Task, Cpu>)
    requires Owned(s) && t in s.sched.queue && t in s.sched.models && Right(s.exe, s.oldExe, log)
    ensures Right(Suspend(s, t).exe, Suspend(s, t).oldExe, LogOf(log, Suspend(s, t).exe))
  {
    ExecutingIsInjective(s);
    hide LogOf, Right, Sched.Extract, Owned;
    match ProcessorOf(s, t)
    case None => NobodyMoves(s.exe, s.oldExe, log);
    case Some(p) => Leaves(s.exe, s.oldExe, log, p);
  }

  lemma ArrivalAgrees(s: Kernel, w: Watch, e: Event)
    requires Owned(s) && Enabled(s, e) && e.Arrival? && Ends(s, e) && Agrees(s, w)
    ensures Agrees(Step(s, e), Record(s, w, e, Step(s, e)))
  {
    BeforeIsScannable(s, e);
    DispatchAgrees(AtDispatch(s, e));
    ExecutingIsInjective(s);
    NobodyMoves(s.exe, s.oldExe, w.log);
    hide LogOf, Right, Dispatch, Undispatched, Owned, Scannable;
  }

  lemma BlockAgrees(s: Kernel, w: Watch, e: Event)
    requires Owned(s) && Enabled(s, e) && e.Blocked? && Ends(s, e) && Agrees(s, w)
    ensures Agrees(Step(s, e), Record(s, w, e, Step(s, e)))
  {
    hide LogOf, Right, Dispatch, Undispatched, Owned, Scannable, ScanEnds, Known;
    BeforeIsScannable(s, e);
    DispatchAgrees(AtDispatch(s, e));
    SuspendAgrees(s, e.t, w.log);
  }

  lemma EndAgrees(s: Kernel, w: Watch, e: Event)
    requires Owned(s) && Enabled(s, e) && e.JobEnd? && Agrees(s, w)
    ensures Agrees(Step(s, e), Record(s, w, e, Step(s, e)))
  {
    ExecutingIsInjective(s);
    RunningOn(s, e.t);
    hide LogOf, Right, Owned;
    Leaves(s.exe, s.oldExe, w.log, ProcessorOf(s, e.t).value);
  }

  /** What the begin event of c does: the task that executed there leaves, and the one dispatched there afterwards is
      the one that its end event holds. */
  lemma BeginIs(s: Kernel, c: Cpu)
    requires Owned(s) && c in s.beginEv
    ensures var d, s' := Drop(s, c), OnBegin(s, c);
            && s'.exe == d.exe && s'.oldExe == d.oldExe && s'.contextSwitches == s.contextSwitches
            && match Taken(s', c)
               case None => s'.switching == s.switching && s'.endTask == s.endTask && s'.migrations == s.migrations
               case Some(t) =>
                 && t !in d.disp
                 && s'.switching == s.switching + {c} && s'.endTask == s.endTask[c := t]
                 && s'.migrations == s.migrations + if t in d.oldExe && d.oldExe[t] != c then 1 else 0
  {
    DropKeepsPlacement(s, c);
    TakeIs(Drop(s, c), c);
    DropLeaves(s, c);
    hide Owned, Placed, Backed, Phased, Drop, Take, Taken;
  }

  lemma DropLeaves(s: Kernel, c: Cpu)
    ensures var d := Drop(s, c);
            && d.switching == s.switching && d.endTask == s.endTask
            && d.migrations == s.migrations && d.contextSwitches == s.contextSwitches
  {
  }

  lemma TakeIs(d: Kernel, c: Cpu)
    requires c !in d.disp.Values
    ensures var s' := Take(d, c);
            && s'.exe == d.exe && s'.oldExe == d.oldExe && s'.contextSwitches == d.contextSwitches
            && match Taken(s', c)
               case None => s'.switching == d.switching && s'.endTask == d.endTask && s'.migrations == d.migrations
               case Some(t) =>
                 && t !in d.disp
                 && s'.switching == d.switching + {c} && s'.endTask == d.endTask[c := t]
                 && s'.migrations == d.migrations + if t in d.oldExe && d.oldExe[t] != c then 1 else 0
  {
    var i := FirstUndispatched(d.sched.queue, d.disp);
    if i < |d.sched.queue| {
      assert Take(d, c).disp[d.sched.queue[i]] == c;
    }
  }

  lemma BeginAgrees(s: Kernel, w: Watch, e: Event)
    requires Owned(s) && Enabled(s, e) && e.BeginFires? && Agrees(s, w)
    ensures Agrees(Step(s, e), Record(s, w, e, Step(s, e)))
  {
    var c, d := e.c, Drop(s, e.c);
    BeginIs(s, c);
    DropKeepsPlacement(s, c);
    ExecutingIsInjective(s);
    assert Right(d.exe, d.oldExe, LogOf(w.log, d.exe)) by {
      hide LogOf, Right;
      if c in s.exe {
        Leaves(s.exe, s.oldExe, w.log, c);
      } else {
        NobodyMoves(s.exe, s.oldExe, w.log);
      }
    }
    var taken := Taken(OnBegin(s, c), c);
    if taken.Some? {
      NotExecuting(d, taken.value);
      LogStays(s, w.log, c, taken.value);
    }
    hide LogOf, Owned, Placed, Backed, Phased, OnBegin, Drop, Taken;
  }

  lemma NotExecuting(s: Kernel, t: Task)
    requires Backed(s) && t !in s.disp
    ensures t !in s.exe.Values
  {
  }

  /** When c drops its task, the log of everybody stays, and the dropped task is logged at c. */
  lemma LogStays(s: Kernel, log: map<Task, Cpu>, c: Cpu, t: Task)
    requires Owned(s) && Right(s.exe, s.oldExe, log) && t !in Drop(s, c).exe.Values
    ensures t in log <==> t in LogOf(log, Drop(s, c).exe)
    ensures t in log ==> LogOf(log, Drop(s, c).exe)[t] == log[t]
  {
  }

  lemma FinishAgrees(s: Kernel, w: Watch, e: Event)
    requires Owned(s) && Enabled(s, e) && e.EndFires? && Agrees(s, w)
    ensures Agrees(Step(s, e), Record(s, w, e, Step(s, e)))
  {
    OnEndDispatchKeepsOwnership(s, e.c);
    ExecutingIsInjective(Step(s, e));
    assert e.c !in s.exe;
    hide LogOf, Right, Owned;
    Enters(s.exe, s.oldExe, w.log, e.c, s.endTask[e.c]);
  }

  lemma StepAgrees(s: Kernel, w: Watch, e: Event)
    requires Owned(s) && Enabled(s, e) && Ends(s, e) && Agrees(s, w)
    ensures Agrees(Step(s, e), Record(s, w, e, Step(s, e)))
  {
    if e.Killed? || e.NewPriority? {
      ExecutingIsInjective(s);
      NobodyMoves(s.exe, s.oldExe, w.log);
      hide LogOf, Right, Owned;
    } else {
      hide Agrees, Record, Step, Owned, Enabled, Ends;
      match e
      case Arrival(_, _) => ArrivalAgrees(s, w, e);
      case JobEnd(_) => EndAgrees(s, w, e);
      case Blocked(_) => BlockAgrees(s, w, e);
      case BeginFires(_) => BeginAgrees(s, w, e);
      case EndFires(_) => FinishAgrees(s, w, e);
      case _ =>
    }
  }

  // ---------- runs ----------

  ghost function WatchRun(s: Kernel, w: Watch, es: seq<Event>): Watch
    requires PossibleRun(s, es)
    decreases |es|
  {
    if es == [] then w
    else
      var s' := Step(s, es[0]);
      WatchRun(s', Record(s, w, es[0], s'), es[1..])
  }

  /** Over every run that keeps ownership: oldExe is the CPU on which each task that does not execute last did, every
      take by another CPU is counted as a migration and no other is, and every dispatch that was due as a switch. */
  lemma {:induction false} MigrationsAreCounted(s: Kernel, w: Watch, es: seq<Event>)
    requires PossibleRun(s, es) && OwnedThroughout(s, es) && Agrees(s, w)
    ensures Agrees(Follow(s, es), WatchRun(s, w, es))
    decreases |es|
  {
    hide Owned, Enabled, Step, Ends, Agrees, Record;
    if es != [] {
      StepAgrees(s, w, es[0]);
      var s' := Step(s, es[0]);
      MigrationsAreCounted(s', Record(s, w, es[0], s'), es[1..]);
    }
  }

  lemma InitAgrees(ncpu: nat, sched: Sched)
    ensures Agrees(Init(ncpu, sched), NOTHING_SEEN)
  {
  }
}
