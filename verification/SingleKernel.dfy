/**
 The single-processor kernel (src/kernel.cpp). Handlers are atomic steps, and the begin and end
 dispatch events are flags that may fire at any later step.
 */
module SingleKernel {
  import opened Common
  import opened ReadyQueue

  datatype Rt = Rt(
    sched: Sched,
    curr: Option<Task>,     // _currExe
    pre: Option<Task>,      // _preExe
    switching: bool,        // _isContextSwitching
    beginEv: bool,          // beginDispatchEvt is pending
    endEv: bool)            // endDispatchEvt is pending
  {
    function Activate(t: Task, now: int): Rt
      requires t in sched.models && Known(sched.models, sched.queue)
    {
      this.(sched := sched.Insert(t, now))
    }

    function Suspend(t: Task): Rt
      requires t in sched.queue && t in sched.models
    {
      if curr == Some(t) then this.(sched := sched.Extract(t), curr := None, pre := Some(t))
      else this.(sched := sched.Extract(t))
    }

    /** A task that does not execute is killed: it only leaves the queue. */
    function Terminate(t: Task): Rt
      requires t in sched.queue && t in sched.models
    {
      this.(sched := sched.Extract(t))
    }

    function Dispatch(): Rt { this.(beginEv := true) }

    function OnArrival(t: Task, now: int): Rt
      requires t in sched.models && Known(sched.models, sched.queue)
    {
      Activate(t, now).Dispatch()
    }

    function OnEnd(t: Task): Rt
      requires t in sched.queue && t in sched.models
    {
      var s := sched.Extract(t);
      Rt(s, None, Some(t), switching, beginEv || s.queue != [], endEv)
    }

    /** The begin event fires: the first ready task becomes the current one, at once when it was the
        last to run and through a context switch otherwise. */
    function OnBegin(): Rt {
      var first := sched.TaskN(0);
      var s := this.(beginEv := false);
      if curr == first then s
      else
        var p := if curr.Some? then curr else pre;
        if first.None? then s.(pre := p)
        else if first != p then s.(pre := p, curr := first, switching := true, endEv := true)
        else s.(pre := p, curr := first)
    }

    function OnEndDispatch(): Rt { this.(endEv := false, switching := false) }

    /** The current task is a ready one. */
    ghost predicate Valid() {
      sched.Valid() && (curr.Some? ==> curr.value in sched.queue)
    }
  }

  /** After a begin event the current task is the first ready one, or none if there is none. */
  lemma OnBeginTakesFirst(k: Rt)
    requires k.Valid()
    ensures k.OnBegin().Valid() && k.OnBegin().curr == k.sched.TaskN(0)
    ensures k.OnBegin().sched == k.sched && !k.OnBegin().beginEv
    ensures forall t :: k.OnBegin().curr.Some? && t in k.sched.queue ==>
              k.sched.models[k.OnBegin().curr.value].prio <= k.sched.models[t].prio
  {
    var q, ms := k.sched.queue, k.sched.models;
    forall t | t in q ensures ms[q[0]].prio <= ms[t].prio {
      var i :| 0 <= i < |q| && q[i] == t;
      assert i == 0 || Before(ms, q[0], q[i]);
    }
  }

  /** The processor is with the first ready task, and free if there is none. */
  ghost predicate WithFirst(k: Rt) { k.curr == if k.sched.queue == [] then None else Some(k.sched.queue[0]) }

  /** It is, or a begin event will see to it. */
  ghost predicate Attended(k: Rt) { k.beginEv || WithFirst(k) }

  /** At rest the current task is at least as urgent as every ready one, and the processor is free only if none is. */
  lemma AttendedAtRest(k: Rt)
    requires k.Valid() && Attended(k) && !k.beginEv
    ensures k.curr.None? <==> k.sched.queue == []
    ensures forall t :: k.curr.Some? && t in k.sched.queue && t != k.curr.value ==>
              Before(k.sched.models, k.curr.value, t)
  {
    var q := k.sched.queue;
    forall t | t in q && t != q[0] ensures Before(k.sched.models, q[0], t) {
      var i :| 0 <= i < |q| && q[i] == t;
    }
  }

  class RTKernel {
    const sched: Scheduler
    var curr: Option<Task>
    var pre: Option<Task>
    var switching: bool
    var beginEv: bool
    var endEv: bool

    ghost function State(): Rt
      reads this, sched
    {
      Rt(sched.State(), curr, pre, switching, beginEv, endEv)
    }

    constructor (sched: Scheduler)
      ensures this.sched == sched
      ensures State() == Rt(sched.State(), None, None, false, false, false)
    {
      this.sched := sched;
      curr, pre := None, None;
      switching, beginEv, endEv := false, false, false;
    }

    method Activate(t: Task, now: int)
      requires sched.State().Valid() && t in sched.models && t !in sched.queue
      modifies sched`models, sched`queue
      ensures State() == old(State()).Activate(t, now) && sched.State().Valid()
    {
      sched.Insert(t, now);
    }

    method Suspend(t: Task)
      requires sched.State().Valid() && t in sched.queue
      modifies this`curr, this`pre, sched`models, sched`queue
      ensures State() == old(State()).Suspend(t) && sched.State().Valid()
    {
      sched.Extract(t);
      if curr == Some(t) {
        curr := None;
        pre := Some(t);
      }
    }

    method Terminate(t: Task)
      requires sched.State().Valid() && t in sched.queue
      modifies sched`models, sched`queue
      ensures State() == old(State()).Terminate(t) && sched.State().Valid()
    {
      sched.Extract(t);
    }

    method Dispatch()
      modifies this`beginEv
      ensures State() == old(State()).Dispatch()
    {
      beginEv := true;
    }

    method OnArrival(t: Task, now: int)
      requires sched.State().Valid() && t in sched.models && t !in sched.queue
      modifies this`beginEv, sched`models, sched`queue
      ensures State() == old(State()).OnArrival(t, now) && sched.State().Valid()
    {
      sched.Insert(t, now);
      if !switching {
        Dispatch();
      } else {
        beginEv := false;
        beginEv := true;
      }
    }

    method OnEnd(t: Task)
      requires sched.State().Valid() && t in sched.queue
      modifies this`curr, this`pre, this`beginEv, sched`models, sched`queue
      ensures State() == old(State()).OnEnd(t) && sched.State().Valid()
    {
      sched.Extract(t);
      curr := None;
      pre := Some(t);
      if sched.queue != [] {
        Dispatch();
      }
    }

    method OnBeginDispatch()
      modifies this
      ensures State() == old(State()).OnBegin()
    {
      beginEv := false;
      var newExe := sched.GetTaskN(0);
      if curr != newExe {
        if curr.Some? {
          pre := curr;
        }
        if newExe.Some? {
          if newExe != pre {
            switching := true;
            curr := newExe;
            endEv := true;
          } else {
            curr := newExe;
          }
        }
      }
    }

    method OnEndDispatch()
      modifies this`endEv, this`switching
      ensures State() == old(State()).OnEndDispatch()
    {
      endEv := false;
      switching := false;
    }
  }
}
