/**
 The multiprocessor kernel as an object (src/mrtkernel.cpp). Every handler updates the kernel's maps
 in place and is proved to perform the corresponding step of the state machine.
 */
module MultiKernel {
  import opened Common
  import opened ReadyQueue
  import opened GlobalDispatch
  import opened GlobalSteps
  import opened DispatchScan
  import opened Selection

  class MRTKernel {
    const sched: Scheduler
    const ncpu: nat
    var exe: map<Cpu, Task>
    var disp: map<Task, Cpu>
    var oldExe: map<Task, Cpu>
    var switching: set<Cpu>
    var endTask: map<Cpu, Task>
    var beginEv: set<Cpu>
    var endEv: set<Cpu>
    var contextSwitches: nat
    var migrations: nat

    ghost function State(): Kernel
      reads this, sched
    {
      Kernel(ncpu, sched.State(), exe, disp, oldExe, switching, endTask, beginEv, endEv, contextSwitches, migrations)
    }

    constructor (sched: Scheduler, n: nat)
      ensures this.sched == sched && State() == Init(n, sched.State())
    {
      this.sched := sched;
      ncpu := n;
      exe, disp, oldExe, switching, endTask := map[], map[], map[], {}, map[];
      beginEv, endEv, contextSwitches, migrations := {}, {}, 0, 0;
    }

    /** Whether some task is dispatched to p. */
    method IsDispatched(p: Cpu) returns (b: bool)
      ensures b <==> p in disp.Values
    {
      var ts := disp.Keys;
      while ts != {}
        invariant ts <= disp.Keys
        invariant forall t :: t in disp && t !in ts ==> disp[t] != p
        decreases ts
      {
        var t :| t in ts;
        if disp[t] == p { return true; }
        ts := ts - {t};
      }
      return false;
    }

    /** The first CPU from s on that is idle and has no task dispatched, or e. */
    method GetNextFreeProc(s: Cpu, e: Cpu) returns (f: Cpu)
      requires s <= e
      ensures s <= f <= e
      ensures f < e ==> f !in exe && f !in disp.Values
      ensures forall p :: s <= p < f ==> p in exe || p in disp.Values
    {
      f := s;
      while f != e
        invariant s <= f <= e
        invariant forall p :: s <= p < f ==> p in exe || p in disp.Values
      {
        if f !in exe {
          var d := IsDispatched(f);
          if !d { return; }
        }
        f := f + 1;
      }
    }

    method GetProcessor(t: Task) returns (r: Option<Cpu>)
      ensures r == ProcessorOf(State(), t)
    {
      r := None;
      for p := 0 to ncpu
        invariant r == ProcessorBelow(exe, p, t)
      {
        if p in exe && exe[p] == t {
          r := Some(p);
        }
      }
    }

    method DispatchOn(p: Cpu)
      modifies this`contextSwitches, this`beginEv, this`endEv, this`disp
      ensures State() == DispatchCpu(old(State()), p)
    {
      contextSwitches := contextSwitches + 1;
      beginEv := beginEv - {p};
      if p in switching {
        beginEv := beginEv + {p};
        endEv := endEv - {p};
        if p in endTask {
          disp := disp - {endTask[p]};
        }
      } else {
        beginEv := beginEv + {p};
      }
    }

    /** Counts the tasks of the top that run nowhere, leaving i where the scan stopped. */
    method CountNewTasks() returns (num: nat, i: nat)
      requires Scannable(State())
      ensures num == |Undispatched(State())| && i == Min(ncpu, |sched.queue|)
    {
      num, i := 0, 0;
      var q := sched.queue;
      SortedIsDistinct(sched.models, q);
      assert q[..0] == [];
      assert Missing(Elements(q[..0]), disp) == {};
      while i < ncpu
        invariant 0 <= i <= Min(ncpu, |q|)
        invariant num == |Missing(Elements(q[..i]), disp)|
      {
        var t := sched.GetTaskN(i);
        if t.None? {
          break;
        }
        var p := GetProcessor(t.value);
        CountStep(State(), i);
        if p.None? && t.value !in disp {
          num := num + 1;
        }
        i := i + 1;
      }
    }

    /** The scan for the next victim: re-dispatches the CPU of the first dispatched task from rank start on, and
        returns the rank after it. With no such task left the original loop does not end; here ok is false. The
        ghost s0 is the state dispatch() started in. */
    method DispatchNextVictim(start: nat, ghost s0: Kernel) returns (ok: bool, i: nat)
      requires Scannable(s0) && ncpu == s0.ncpu && TopEnd(s0) <= start <= |s0.sched.queue|
      requires |Picked(s0, ncpu, start)| <= |Undispatched(s0)| && State() == Post(s0, Picked(s0, ncpu, start))
      modifies this`contextSwitches, this`beginEv, this`endEv, this`disp
      ensures start <= i <= |s0.sched.queue| && State() == Post(s0, Picked(s0, ncpu, i))
      ensures ok <==> exists j :: start <= j < |s0.sched.queue| && s0.sched.queue[j] in old(disp)
      ensures |Picked(s0, ncpu, i)| == |Picked(s0, ncpu, start)| + (if ok then 1 else 0)
      ensures !ok ==> i == |s0.sched.queue|
    {
      hide Scannable, Undispatched, Picked, DispatchCpu;
      PostLeaves(s0, Picked(s0, ncpu, start));
      ok, i := false, start;
      while i < |sched.queue|
        invariant start <= i <= |sched.queue|
        invariant Picked(s0, ncpu, i) == Picked(s0, ncpu, start)
        invariant State() == Post(s0, Picked(s0, ncpu, i)) && disp == old(disp)
        invariant forall j :: start <= j < i ==> sched.queue[j] !in disp
      {
        VictimStep(s0, i);
        var t := sched.GetTaskN(i);
        i := i + 1;
        if t.value in disp {
          DispatchOn(disp[t.value]);
          return true, i;
        }
      }
    }

    /** dispatch(): posts exactly the CPUs of the selection; it ends, with ok true, unless the scan for a victim runs
        off the queue. */
    method Dispatch() returns (ok: bool)
      requires Scannable(State())
      modifies this`contextSwitches, this`beginEv, this`endEv, this`disp
      ensures State() == Selection.Dispatch(old(State())) && (ok <==> ScanEnds(old(State())))
    {
      hide Scannable, Post, Picked, Undispatched, ScanPosts, ScanEnds, DispatchCpu;
      ghost var s0 := State();
      var num, i := CountNewTasks();
      ScanStart(s0);
      ok := true;
      var f := 0;
      while num > 0
        invariant f <= ncpu && TopEnd(s0) <= i <= |s0.sched.queue| && (f < ncpu ==> i == TopEnd(s0))
        invariant State() == Post(s0, Picked(s0, f, i))
        invariant ok && |Picked(s0, f, i)| + num == |Undispatched(s0)|
      {
        ghost var g := f;
        PostLeaves(s0, Picked(s0, f, i));
        f := GetNextFreeProc(f, ncpu);
        FreeStep(s0, g, f, i);
        if f != ncpu {
          DispatchOn(f);
          f := f + 1;
        } else {
          ok, i := DispatchNextVictim(i, s0);
          if !ok {
            VictimsDone(s0, i);
            return;
          }
        }
        num := num - 1;
      }
      ScanDone(s0, f, i);
    }

    /** Task::onArrival hands the task to the kernel. */
    method OnArrival(t: Task, now: int) returns (ok: bool)
      requires Owned(State()) && t in sched.models && t !in sched.queue
      modifies this`contextSwitches, this`beginEv, this`endEv, this`disp, sched
      ensures Known(old(sched.models), old(sched.queue))
      ensures State() == GlobalSteps.OnArrival(old(State()), t, now)
      ensures ok <==> ScanEnds(old(State()).(sched := old(State()).sched.Insert(t, now)))
    {
      ArrivalKeepsOwnership(State(), t, now);
      sched.Insert(t, now);
      ok := Dispatch();
    }

    method SuspendTask(t: Task)
      requires sched.State().Valid() && t in sched.queue
      modifies this`exe, this`oldExe, this`disp, sched
      ensures State() == Suspend(old(State()), t)
    {
      sched.Extract(t);
      var p := GetProcessor(t);
      if p.Some? {
        exe := exe - {p.value};
        oldExe := oldExe[t := p.value];
        disp := disp - {t};
      }
    }

    /** The kernel's part of Task::block, also for a task in the middle of its switch. */
    method BlockTask(t: Task) returns (ok: bool)
      requires Owned(State()) && t in sched.queue
      modifies this`exe, this`oldExe, this`contextSwitches, this`beginEv, this`endEv, this`disp, sched
      ensures t in old(State()).sched.models
      ensures State() == Block(old(State()), t) && (ok <==> ScanEnds(Suspend(old(State()), t)))
    {
      SuspendKeepsScannable(State(), t);
      SuspendTask(t);
      ok := Dispatch();
    }

    method OnEnd(t: Task)
      requires Owned(State()) && t in exe.Values
      modifies this`exe, this`oldExe, this`contextSwitches, this`beginEv, this`endEv, this`disp, sched
      ensures t in old(sched.queue) && t in old(sched.models) && ProcessorOf(old(State()), t).Some?
      ensures State() == GlobalSteps.OnEnd(old(State()), t)
    {
      RunningOn(State(), t);
      var p := GetProcessor(t);
      sched.Extract(t);
      oldExe := oldExe[t := p.value];
      exe := exe - {p.value};
      disp := disp - {t};
      DispatchOn(p.value);
    }

    method TerminateTask(t: Task)
      requires sched.State().Valid() && t in sched.queue
      modifies this`disp, sched
      ensures State() == Terminate(old(State()), t)
    {
      sched.Extract(t);
      disp := disp - {t};
    }

    /** The first non-dispatched task in the queue. */
    method SelectTask() returns (st: Option<Task>)
      ensures var i := FirstUndispatched(sched.queue, disp);
              st == if i < |sched.queue| then Some(sched.queue[i]) else None
    {
      var i := 0;
      st := sched.GetTaskN(i);
      while st.Some? && st.value in disp
        invariant i <= |sched.queue| && st == sched.State().TaskN(i)
        invariant forall j :: 0 <= j < i ==> sched.queue[j] in disp
        decreases |sched.queue| - i
      {
        i := i + 1;
        st := sched.GetTaskN(i);
      }
      assert i == FirstUndispatched(sched.queue, disp);
    }

    /** The first half of the begin event of p: its task is descheduled. */
    method DropTask(p: Cpu)
      modifies this`exe, this`oldExe, this`disp, this`beginEv
      ensures State() == Drop(old(State()), p)
    {
      beginEv := beginEv - {p};
      if p in exe {
        var dt := exe[p];
        oldExe := oldExe[dt := p];
        exe := exe - {p};
        disp := disp - {dt};
      }
    }

    /** The begin event of p. */
    method OnBeginDispatchMulti(p: Cpu)
      modifies this`exe, this`oldExe, this`disp, this`endTask, this`switching, this`migrations, this`beginEv, this`endEv
      ensures State() == OnBegin(old(State()), p)
    {
      hide Drop;
      DropTask(p);
      var st := SelectTask();
      if st.None? {
        return;
      }
      disp := disp[st.value := p];
      endTask := endTask[p := st.value];
      switching := switching + {p};
      if st.value in oldExe && oldExe[st.value] != p {
        migrations := migrations + 1;
      }
      endEv := endEv + {p};
    }

    /** The end event of p. */
    method OnEndDispatchMulti(p: Cpu)
      modifies this`exe, this`switching, this`endEv
      ensures State() == OnEndDispatch(old(State()), p)
    {
      endEv := endEv - {p};
      if p in endTask {
        exe := exe[p := endTask[p]];
      } else {
        exe := exe - {p};
      }
      switching := switching - {p};
    }
  }
}
