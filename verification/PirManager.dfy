/**
 The priority-inheritance manager as an object over the kernel, the scheduler and the resources it
 updates in place (src/piresman.cpp, src/kernel.cpp).
 */
module PirManagement {
  import opened Common
  import opened ReadyQueue
  import opened SingleKernel
  import opened Resources
  import opened PriorityInheritance

  class PIRManager {
    const kernel: RTKernel
    const res: map<ResName, Resource>
    var blocked: WaitLists
    var saved: map<(Task, ResName), int>

    /** The state the manager works on; which tasks are active is the tasks' own business. */
    ghost function State(jobs: set<Task>): PiState
      reads this, kernel, kernel.sched, res.Values
    {
      PiState(kernel.State(), jobs, TableOf(res), blocked, saved)
    }

    constructor (kernel: RTKernel, res: map<ResName, Resource>)
      ensures this.kernel == kernel && this.res == res && blocked == map[] && saved == map[]
    {
      this.kernel := kernel;
      this.res := res;
      blocked := map[];
      saved := map[];
    }

    /** PIRManager::request. */
    method Request(t: Task, r: ResName, now: int, ghost jobs: set<Task>) returns (ok: bool)
      requires DistinctResources(res) && r in res
      requires Inv(State(jobs)) && kernel.curr == Some(t) && HoldsNothing(TableOf(res), t)
      modifies this, kernel`curr, kernel`pre, kernel.sched`models, kernel.sched`queue, res[r]
      ensures ok <==> !old(res[r].State()).IsLocked()
      ensures !ok ==> Held(old(TableOf(res)), r) && Owner(old(TableOf(res)), r) in old(kernel.sched.queue)
      ensures !ok ==> t in old(kernel.State()).sched.Extract(Owner(old(TableOf(res)), r)).queue
      ensures !ok ==> Known(old(kernel.sched.models), Waiting(old(blocked), r))
      ensures State(jobs) == if ok then Lock(old(State(jobs)), t, r) else Inherit(old(State(jobs)), t, r, now)
    {
      var locked := res[r].IsLocked();
      if locked {
        OwnerIsAnother(State(jobs), t, r);
        RaiseOwner(kernel.sched.State(), t, Owner(TableOf(res), r), now);
        BlockTask(t, r, now);
        return false;
      }
      saved := saved[(t, r) := kernel.sched.models[t].prio];
      LockIn(res, r, t);
      return true;
    }

    /** The kernel's share of a request that blocks. */
    method RaiseOwnerAndSuspend(owner: Task, t: Task, now: int)
      requires kernel.sched.State().Valid() && t in kernel.sched.queue && owner in kernel.sched.queue && owner != t
      requires t in kernel.sched.State().Extract(owner).queue
      modifies kernel`curr, kernel`pre, kernel.sched`models, kernel.sched`queue
      ensures kernel.State() == RaiseAndSuspend(old(kernel.State()), owner, t, now)
    {
      var p := kernel.sched.models[t].prio;
      BothLeave(kernel.sched.State(), t, owner, p);
      hide Sched.Valid, Sched.Extract, Sched.Insert;
      kernel.sched.Extract(owner);
      kernel.Suspend(t);
      kernel.sched.ChangePriority(owner, p);
      kernel.Activate(owner, now);
    }

    method BlockTask(t: Task, r: ResName, now: int)
      requires r in res && Held(TableOf(res), r)
      requires kernel.sched.State().Valid() && t in kernel.sched.queue
      requires Owner(TableOf(res), r) in kernel.sched.queue && Owner(TableOf(res), r) != t
      requires t in kernel.sched.State().Extract(Owner(TableOf(res), r)).queue
      requires Known(kernel.sched.models, Waiting(blocked, r))
      modifies this`blocked, kernel`curr, kernel`pre, kernel.sched`models, kernel.sched`queue
      ensures forall jobs :: State(jobs) == Inherit(old(State(jobs)), t, r, now)
    {
      hide RaiseAndSuspend;
      RaiseOwnerAndSuspend(res[r].owner.value, t, now);
      blocked := blocked[r := InsertSorted(kernel.sched.models, Waiting(blocked, r), t)];
    }

    /** RTKernel::requestResource: a request that blocks is followed by a dispatch. */
    method RequestResource(t: Task, r: ResName, now: int, ghost jobs: set<Task>) returns (ok: bool)
      requires DistinctResources(res) && r in res
      requires Inv(State(jobs)) && kernel.curr == Some(t) && HoldsNothing(TableOf(res), t)
      modifies this, kernel`curr, kernel`pre, kernel`beginEv, kernel.sched`models, kernel.sched`queue, res[r]
      ensures ok <==> !old(res[r].State()).IsLocked()
      ensures State(jobs) == PriorityInheritance.RequestResource(old(State(jobs)), t, r, now)
    {
      hide Inv, Inherit, Lock;
      ok := Request(t, r, now, jobs);
      if !ok {
        kernel.Dispatch();
      }
    }

    /** The kernel's share of a hand-off. */
    method ResetAndServeInKernel(t: Task, p: int, isActive: bool, w: Task, now: int)
      requires kernel.sched.State().Valid() && t in kernel.sched.queue
      requires w in kernel.sched.models && w !in kernel.sched.queue
      modifies kernel`curr, kernel`pre, kernel.sched`models, kernel.sched`queue
      ensures kernel.State() == ResetAndServe(old(kernel.State()), t, p, isActive, w, now)
    {
      ServeSteps(kernel.sched.State(), t, p, w, now);
      hide Sched.Valid, Sched.Extract, Sched.Insert;
      kernel.Suspend(t);
      kernel.sched.ChangePriority(t, p);
      if isActive {
        kernel.Activate(t, now);
      }
      kernel.Activate(w, now);
    }

    /** The front waiter gets the resource just unlocked. */
    method ServeFront(t: Task, r: ResName, now: int, isActive: bool)
      requires DistinctResources(res) && r in res && r in blocked && blocked[r] != []
      requires kernel.sched.State().Valid() && t in kernel.sched.queue
      requires blocked[r][0] in kernel.sched.models && blocked[r][0] !in kernel.sched.queue
      modifies this`blocked, kernel`curr, kernel`pre, kernel.sched`models, kernel.sched`queue, res[r]
      ensures var w := old(blocked[r][0]);
              && blocked == old(blocked)[r := old(blocked[r])[1..]]
              && kernel.State() == ResetAndServe(old(kernel.State()), t, SavedPriority(t, r), isActive, w, now)
              && TableOf(res) == old(TableOf(res))[r := old(res[r].State()).Lock(w)]
    {
      hide ResetAndServe, Sched.Valid, Known;
      var w := blocked[r][0];
      blocked := blocked[r := blocked[r][1..]];
      ResetAndServeInKernel(t, SavedPriority(t, r), isActive, w, now);
      LockIn(res, r, w);
    }

    function SavedPriority(t: Task, r: ResName): int
      reads this`saved
    {
      if (t, r) in saved then saved[(t, r)] else 0
    }

    /** PIRManager::release. */
    method Release(t: Task, r: ResName, now: int, ghost jobs: set<Task>, isActive: bool)
      requires DistinctResources(res) && r in res && (t in jobs <==> isActive)
      requires kernel.sched.State().Valid() && t in kernel.sched.queue
      requires Waiting(blocked, r) != [] ==> Waiting(blocked, r)[0] in kernel.sched.models
      requires Waiting(blocked, r) != [] ==> Waiting(blocked, r)[0] !in kernel.sched.queue
      modifies this`blocked, kernel`curr, kernel`pre, kernel.sched`models, kernel.sched`queue, res[r]
      ensures State(jobs) == if Waiting(old(blocked), r) == [] then
                                old(State(jobs)).(res := old(TableOf(res))[r := old(res[r].State()).Unlock()])
                             else HandOff(old(State(jobs)), t, r, now)
    {
      hide ResetAndServe, Sched.Valid;
      UnlockIn(res, r);
      if r in blocked && blocked[r] != [] {
        ServeFront(t, r, now, isActive);
      }
    }

    /** RTKernel::releaseResource. */
    method ReleaseResource(t: Task, r: ResName, now: int, ghost jobs: set<Task>, isActive: bool)
      requires DistinctResources(res) && r in res && (t in jobs <==> isActive)
      requires Inv(State(jobs)) && kernel.curr == Some(t) && Held(TableOf(res), r) && Owner(TableOf(res), r) == t
      modifies this, kernel`curr, kernel`pre, kernel`beginEv, kernel.sched`models, kernel.sched`queue, res[r]
      ensures State(jobs) == PriorityInheritance.ReleaseResource(old(State(jobs)), t, r, now)
    {
      if Waiting(blocked, r) != [] {
        FrontIsOutside(State(jobs), r);
      }
      hide HandOff;
      Release(t, r, now, jobs, isActive);
      kernel.Dispatch();
    }
  }

  lemma FrontIsOutside(s: PiState, r: ResName)
    requires Inv(s) && Waiting(s.blocked, r) != []
    ensures Waiting(s.blocked, r)[0] in s.k.sched.models && Waiting(s.blocked, r)[0] !in s.k.sched.queue
  {
    assert Waiting(s.blocked, r)[0] in Waiting(s.blocked, r);
    assert Waiting(s.blocked, r)[0] !in Elements(s.k.sched.queue);
  }

  lemma ServeSteps(q: Sched, t: Task, p: int, w: Task, now: int)
    requires q.Valid() && t in q.queue && w in q.models && w !in q.queue
    ensures q.Extract(t).ChangePriority(t, p).Valid()
    ensures t !in q.Extract(t).queue && w !in q.Extract(t).queue
    ensures w !in q.Extract(t).ChangePriority(t, p).Insert(t, now).queue
  {
    ExtractKeepsValid(q, t, p);
    var q1 := q.Extract(t).ChangePriority(t, p);
    assert t !in Elements(q1.queue) && w !in Elements(q1.queue);
    InsertKeepsValid(q1, t, now);
    assert w !in Elements(q1.Insert(t, now).queue);
  }
}
