/**
 Priority inheritance on the single-processor kernel (src/piresman.cpp), for single-unit resources
 and tasks that hold at most one resource at a time.
 */
module PriorityInheritance {
  import opened Common
  import opened ReadyQueue
  import opened SingleKernel
  import opened Resources

  datatype PiState = PiState(
    k: Rt,
    jobs: set<Task>,                        // tasks whose isActive() is true
    res: ResTable,
    blocked: WaitLists,
    saved: map<(Task, ResName), int>)       // oldPriorities
  {
    /** oldPriorities[t][r]: a missing entry reads as 0. */
    function Saved(t: Task, r: ResName): int { if (t, r) in saved then saved[(t, r)] else 0 }
  }

  predicate Held(res: ResTable, r: ResName) { r in res && res[r].owner.Some? }

  function Owner(res: ResTable, r: ResName): Task
    requires Held(res, r)
  {
    res[r].owner.value
  }

  // ---------- the manager's operations ----------

  /** request() on a resource that is free. */
  function Lock(s: PiState, t: Task, r: ResName): PiState
    requires r in s.res && t in s.k.sched.models
  {
    s.(saved := s.saved[(t, r) := s.k.sched.models[t].prio], res := s.res[r := s.res[r].Lock(t)])
  }

  /** The owner o leaves the queue, t is suspended, and o comes back with the priority of t. */
  function RaiseAndSuspend(k: Rt, o: Task, t: Task, now: int): (k': Rt)
    requires Known(k.sched.models, k.sched.queue) && o in k.sched.queue && t in k.sched.Extract(o).queue
    ensures k'.sched.models.Keys == k.sched.models.Keys
  {
    var k1 := k.(sched := k.sched.Extract(o)).Suspend(t);
    k1.(sched := k1.sched.ChangePriority(o, k.sched.models[t].prio)).Activate(o, now)
  }

  /** request() on a resource that is locked: the owner inherits the priority of t, which blocks. */
  function Inherit(s: PiState, t: Task, r: ResName, now: int): PiState
    requires Held(s.res, r) && Known(s.k.sched.models, s.k.sched.queue)
    requires Owner(s.res, r) in s.k.sched.queue && t in s.k.sched.Extract(Owner(s.res, r)).queue
    requires Known(s.k.sched.models, Waiting(s.blocked, r))
  {
    var k2 := RaiseAndSuspend(s.k, Owner(s.res, r), t, now);
    s.(k := k2, blocked := s.blocked[r := InsertSorted(k2.sched.models, Waiting(s.blocked, r), t)])
  }

  /** t is suspended and comes back, while it is active, with priority p; then w comes in. */
  function ResetAndServe(k: Rt, t: Task, p: int, isActive: bool, w: Task, now: int): Rt
    requires Known(k.sched.models, k.sched.queue) && t in k.sched.queue && w in k.sched.models
  {
    var k1 := k.Suspend(t);
    var k2 := k1.(sched := k1.sched.ChangePriority(t, p));
    var k3 := if isActive then k2.Activate(t, now) else k2;
    k3.Activate(w, now)
  }

  /** release() with a task blocked: the priority of t is reset and the front waiter gets the resource. */
  function HandOff(s: PiState, t: Task, r: ResName, now: int): PiState
    requires r in s.res && t in s.k.sched.queue && Known(s.k.sched.models, s.k.sched.queue)
    requires Waiting(s.blocked, r) != [] && Waiting(s.blocked, r)[0] in s.k.sched.models
  {
    var w := Waiting(s.blocked, r)[0];
    s.(k := ResetAndServe(s.k, t, s.Saved(t, r), t in s.jobs, w, now),
       blocked := s.blocked[r := Waiting(s.blocked, r)[1..]],
       res := s.res[r := s.res[r].Unlock().Lock(w)])
  }

  // ---------- events ----------

  datatype Event =
    | Arrive(t: Task, now: int)
    | Retune(t: Task, p: int)          // a new priority between two jobs
    | Finish(t: Task)
    | Request(t: Task, r: ResName, now: int)
    | Release(t: Task, r: ResName, now: int)
    | BeginFires
    | EndFires

  ghost predicate HoldsNothing(res: ResTable, t: Task) {
    forall r :: Held(res, r) ==> Owner(res, r) != t
  }

  /** The current task requests while it holds nothing, releases what it holds, and finishes only after
      releasing; it may do so even before the end of its context switch, which is more than the kernel allows. */
  ghost predicate Enabled(s: PiState, e: Event) {
    match e
    case Arrive(t, _) => t in s.k.sched.models && t !in s.jobs
    case Retune(t, _) => t in s.k.sched.models && t !in s.jobs
    case Finish(t) => s.k.curr == Some(t) && HoldsNothing(s.res, t)
    case Request(t, r, _) => s.k.curr == Some(t) && r in s.res && HoldsNothing(s.res, t)
    case Release(t, r, _) => s.k.curr == Some(t) && Held(s.res, r) && Owner(s.res, r) == t
    case BeginFires => s.k.beginEv
    case EndFires => s.k.endEv
  }

  function Arrival(s: PiState, t: Task, now: int): PiState
    requires t in s.k.sched.models && Known(s.k.sched.models, s.k.sched.queue)
  {
    s.(jobs := s.jobs + {t}, k := s.k.OnArrival(t, now))
  }

  function Reprioritise(s: PiState, t: Task, p: int): PiState
    requires t in s.k.sched.models
  {
    s.(k := s.k.(sched := s.k.sched.ChangePriority(t, p)))
  }

  function JobEnd(s: PiState, t: Task): PiState
    requires t in s.k.sched.queue && t in s.k.sched.models
  {
    s.(jobs := s.jobs - {t}, k := s.k.OnEnd(t))
  }

  lemma OwnerIsAnother(s: PiState, t: Task, r: ResName)
    requires Inv(s) && s.k.curr == Some(t) && r in s.res && HoldsNothing(s.res, t) && s.res[r].IsLocked()
    ensures Held(s.res, r) && Owner(s.res, r) in s.k.sched.queue && Owner(s.res, r) != t
    ensures t in s.k.sched.Extract(Owner(s.res, r)).queue
  {
    assert Owner(s.res, r) in Elements(s.k.sched.queue);
    ExtractKeepsValid(s.k.sched, Owner(s.res, r), 0);
    assert t in Elements(s.k.sched.Extract(Owner(s.res, r)).queue);
  }

  /** RTKernel::requestResource. */
  ghost function RequestResource(s: PiState, t: Task, r: ResName, now: int): PiState
    requires Inv(s) && s.k.curr == Some(t) && r in s.res && HoldsNothing(s.res, t)
  {
    if s.res[r].IsLocked() then
      OwnerIsAnother(s, t, r);
      var s' := Inherit(s, t, r, now);
      s'.(k := s'.k.Dispatch())
    else Lock(s, t, r)
  }

  /** RTKernel::releaseResource. */
  ghost function ReleaseResource(s: PiState, t: Task, r: ResName, now: int): PiState
    requires Inv(s) && s.k.curr == Some(t) && Held(s.res, r) && Owner(s.res, r) == t
  {
    var s' := if Waiting(s.blocked, r) == [] then s.(res := s.res[r := s.res[r].Unlock()]) else HandOff(s, t, r, now);
    s'.(k := s'.k.Dispatch())
  }

  ghost function Step(s: PiState, e: Event): PiState
    requires Inv(s) && Enabled(s, e)
  {
    match e
    case Arrive(t, now) => Arrival(s, t, now)
    case Retune(t, p) => Reprioritise(s, t, p)
    case Finish(t) => JobEnd(s, t)
    case Request(t, r, now) => RequestResource(s, t, r, now)
    case Release(t, r, now) => ReleaseResource(s, t, r, now)
    case BeginFires => s.(k := s.k.OnBegin())
    case EndFires => s.(k := s.k.OnEndDispatch())
  }

  // ---------- the invariant ----------

  /** Single-unit resources, whose owners are ready tasks owning one resource each. */
  ghost predicate Owners(res: ResTable, ready: set<Task>) {
    && (forall r :: r in res ==> res[r].total == 1 && res[r].available == if res[r].owner.Some? then 0 else 1)
    && (forall r :: Held(res, r) ==> Owner(res, r) in ready)
    && (forall r, r' :: Held(res, r) && Held(res, r') && Owner(res, r) == Owner(res, r') ==> r == r')
  }

  /** One line of waiting tasks: they wait for a held resource, sorted, with a job and outside the ready queue. */
  ghost predicate LineOf(ms: Models, q: seq<Task>, held: bool, jobs: set<Task>, ready: set<Task>) {
    && (q != [] ==> held)
    && Known(ms, q) && Sorted(ms, q)
    && forall w :: w in q ==> w in jobs && w !in ready
  }

  ghost predicate OnePlace(b: WaitLists) {
    forall r, r', w :: w in Waiting(b, r) && w in Waiting(b, r') ==> r == r'
  }

  /** Every line is in order, and nobody waits in two of them. */
  ghost predicate Waiters(ms: Models, b: WaitLists, res: ResTable, jobs: set<Task>, ready: set<Task>) {
    (forall r :: LineOf(ms, Waiting(b, r), Held(res, r), jobs, ready)) && OnePlace(b)
  }

  /** Every owner has at least the priority of each task that waits for it. */
  ghost predicate OwnersInherit(ms: Models, res: ResTable, b: WaitLists) {
    forall r, w :: Held(res, r) && w in Waiting(b, r) && Owner(res, r) in ms && w in ms ==>
      ms[Owner(res, r)].prio <= ms[w].prio
  }

  /** The current task has at least the priority of each blocked task and of each owner. */
  ghost predicate CurrentDominates(ms: Models, curr: Option<Task>, res: ResTable, b: WaitLists) {
    curr.Some? && curr.value in ms ==>
      && (forall r, w :: w in Waiting(b, r) && w in ms ==> ms[curr.value].prio <= ms[w].prio)
      && (forall r :: Held(res, r) && Owner(res, r) in ms ==> ms[curr.value].prio <= ms[Owner(res, r)].prio)
  }

  ghost predicate Inv(s: PiState) {
    var ms, ready := s.k.sched.models, Elements(s.k.sched.queue);
    && s.k.Valid()
    && ready <= s.jobs
    && Owners(s.res, ready)
    && Waiters(ms, s.blocked, s.res, s.jobs, ready)
    && OwnersInherit(ms, s.res, s.blocked)
    && CurrentDominates(ms, s.k.curr, s.res, s.blocked)
  }

  /** Two models rank alike, whatever their other fields. */
  ghost predicate SameRank(ms: Models, ms': Models, x: Task) {
    x in ms && x in ms' && ms'[x].prio == ms[x].prio && ms'[x].insertTime == ms[x].insertTime
  }

  lemma FinishKernel(k: Rt, t: Task)
    requires k.Valid() && k.curr == Some(t)
    ensures k.OnEnd(t).Valid() && k.OnEnd(t).curr.None?
    ensures Elements(k.OnEnd(t).sched.queue) == Elements(k.sched.queue) - {t}
    ensures forall x :: x in k.sched.models ==> SameRank(k.sched.models, k.OnEnd(t).sched.models, x)
  {
    ExtractKeepsValid(k.sched, t, 0);
  }

  /** A step keeps the invariant when it leaves resources, lines, and the ranks of owners, waiters and the current
      task alone. */
  lemma InvStays(s: PiState, s': PiState)
    requires Inv(s) && s'.res == s.res && s'.blocked == s.blocked
    requires s'.k.Valid() && Elements(s'.k.sched.queue) <= s'.jobs
    requires s'.k.curr.None? || (s'.k.curr == s.k.curr && SameRank(s.k.sched.models, s'.k.sched.models, s.k.curr.value))
    requires forall r, x :: x in Waiting(s.blocked, r) ==>
               SameRank(s.k.sched.models, s'.k.sched.models, x) && x in s'.jobs && x !in Elements(s'.k.sched.queue)
    requires forall r :: Held(s.res, r) ==>
               SameRank(s.k.sched.models, s'.k.sched.models, Owner(s.res, r))
               && Owner(s.res, r) in Elements(s'.k.sched.queue)
    ensures Inv(s')
  {
    hide Rt.Valid, LineOf, OnePlace, Waiting, Held;
    WaitersStay(s.k.sched.models, s'.k.sched.models, s.blocked, s.res, s.res, s.jobs, s'.jobs,
                Elements(s.k.sched.queue), Elements(s'.k.sched.queue));
    hide Waiters;
    OwnersInheritStays(s.k.sched.models, s'.k.sched.models, s.res, s.blocked);
    CurrentDominatesStays(s.k.sched.models, s'.k.sched.models, s.k.curr, s'.k.curr, s.res, s.blocked);
  }

  lemma CurrentDominatesStays(ms: Models, ms': Models, curr: Option<Task>, curr': Option<Task>,
                              res: ResTable, b: WaitLists)
    requires CurrentDominates(ms, curr, res, b)
    requires curr'.None? || (curr' == curr && SameRank(ms, ms', curr.value))
    requires forall r, x :: x in Waiting(b, r) ==> SameRank(ms, ms', x)
    requires forall r :: Held(res, r) ==> SameRank(ms, ms', Owner(res, r))
    ensures CurrentDominates(ms', curr', res, b)
  {
    forall r, w | w in Waiting(b, r) && w in ms' && curr'.Some? ensures ms'[curr'.value].prio <= ms'[w].prio {
      assert SameRank(ms, ms', w);
    }
    forall r | Held(res, r) && curr'.Some? ensures ms'[curr'.value].prio <= ms'[Owner(res, r)].prio {
      assert SameRank(ms, ms', Owner(res, r));
    }
  }

  /** Who waits, owns and runs. */
  lemma Roles(s: PiState)
    requires Inv(s)
    ensures forall r, x :: x in Waiting(s.blocked, r) ==>
              x in s.k.sched.models && x in s.jobs && x !in Elements(s.k.sched.queue) && Held(s.res, r)
    ensures forall r :: Held(s.res, r) ==>
              Owner(s.res, r) in Elements(s.k.sched.queue) && Owner(s.res, r) in s.k.sched.models
    ensures s.k.curr.Some? ==> s.k.curr.value in Elements(s.k.sched.queue) && s.k.curr.value in s.k.sched.models
    ensures forall x :: x in Elements(s.k.sched.queue) ==> x in s.k.sched.models && x in s.jobs
  {
    hide Sorted, OwnersInherit, CurrentDominates, OnePlace, Waiting;
    assert forall x :: x in s.k.sched.queue ==> x in s.k.sched.models;
  }

  /** A task at least as urgent as every ready one dominates the owners, and through them the waiters. */
  lemma BestDominates(ms: Models, curr: Option<Task>, res: ResTable, b: WaitLists)
    requires OwnersInherit(ms, res, b)
    requires forall r, x :: x in Waiting(b, r) ==> Held(res, r)
    requires forall r :: Held(res, r) ==> Owner(res, r) in ms
    requires forall r :: Held(res, r) && curr.Some? && curr.value in ms ==>
               ms[curr.value].prio <= ms[Owner(res, r)].prio
    ensures CurrentDominates(ms, curr, res, b)
  {
  }

  lemma BeginKeepsInv(s: PiState)
    requires Inv(s)
    ensures Inv(s.(k := s.k.OnBegin()))
  {
    OnBeginTakesFirst(s.k);
    Roles(s);
    hide Rt.OnBegin, Rt.Valid, Waiters, Waiting, Held;
    assert forall x :: x in Elements(s.k.sched.queue) ==> x in s.k.sched.queue;
    BestDominates(s.k.sched.models, s.k.OnBegin().curr, s.res, s.blocked);
  }

  lemma ArriveKeepsInv(s: PiState, t: Task, now: int)
    requires Inv(s) && t in s.k.sched.models && t !in s.jobs
    ensures Inv(Arrival(s, t, now))
  {
    Roles(s);
    InsertKeepsValid(s.k.sched, t, now);
    hide Inv, Sched.Valid, InsertSorted, Waiting, Held;
    InvStays(s, Arrival(s, t, now));
  }

  lemma RetuneKeepsInv(s: PiState, t: Task, p: int)
    requires Inv(s) && t in s.k.sched.models && t !in s.jobs
    ensures Inv(Reprioritise(s, t, p))
  {
    Roles(s);
    assert t !in Elements(s.k.sched.queue);
    ReprioritiseOutside(s.k.sched, t, p);
    hide Inv, Sched.Valid, Waiting, Held;
    InvStays(s, Reprioritise(s, t, p));
  }

  lemma FinishKeepsInv(s: PiState, t: Task)
    requires Inv(s) && s.k.curr == Some(t) && HoldsNothing(s.res, t)
    ensures Inv(JobEnd(s, t))
  {
    Roles(s);
    FinishKernel(s.k, t);
    hide Inv, Rt.Valid, Rt.OnEnd, Waiting, Held;
    InvStays(s, JobEnd(s, t));
  }

  lemma OwnersInheritStays(ms: Models, ms': Models, res: ResTable, b: WaitLists)
    requires OwnersInherit(ms, res, b)
    requires forall r, x :: x in Waiting(b, r) ==> SameRank(ms, ms', x)
    requires forall r :: Held(res, r) ==> SameRank(ms, ms', Owner(res, r))
    ensures OwnersInherit(ms', res, b)
  {
    forall r, w | Held(res, r) && w in Waiting(b, r) && Owner(res, r) in ms' && w in ms'
      ensures ms'[Owner(res, r)].prio <= ms'[w].prio
    {
      assert SameRank(ms, ms', w) && SameRank(ms, ms', Owner(res, r));
    }
  }

  lemma SortedStays(ms: Models, ms': Models, q: seq<Task>)
    requires Known(ms, q) && Sorted(ms, q) && forall x :: x in q ==> SameRank(ms, ms', x)
    ensures Known(ms', q) && Sorted(ms', q)
  {
    assert forall i :: 0 <= i < |q| ==> q[i] in q;
  }

  lemma LineStays(ms: Models, ms': Models, q: seq<Task>, held: bool, held': bool,
                  jobs: set<Task>, jobs': set<Task>, ready: set<Task>, ready': set<Task>)
    requires LineOf(ms, q, held, jobs, ready) && (held ==> held')
    requires forall x :: x in q ==> SameRank(ms, ms', x) && x in jobs' && x !in ready'
    ensures LineOf(ms', q, held', jobs', ready')
  {
    SortedStays(ms, ms', q);
    hide Known, Sorted, SameRank;
  }

  /** What waiters need survives any change to tasks that do not wait. */
  lemma WaitersStay(ms: Models, ms': Models, b: WaitLists, res: ResTable, res': ResTable,
                    jobs: set<Task>, jobs': set<Task>, ready: set<Task>, ready': set<Task>)
    requires Waiters(ms, b, res, jobs, ready) && forall r :: Held(res, r) ==> Held(res', r)
    requires forall r, x :: x in Waiting(b, r) ==> SameRank(ms, ms', x) && x in jobs' && x !in ready'
    ensures Waiters(ms', b, res', jobs', ready')
  {
    hide LineOf, OnePlace, Waiting, Held, SameRank;
    forall r ensures LineOf(ms', Waiting(b, r), Held(res', r), jobs', ready') {
      LineStays(ms, ms', Waiting(b, r), Held(res, r), Held(res', r), jobs, jobs', ready, ready');
    }
  }

  lemma WaitingAfter(b: WaitLists, r: ResName, q: seq<Task>, r': ResName)
    ensures Waiting(b[r := q], r') == if r' == r then q else Waiting(b, r')
  {
  }

  /** The line of r may be exchanged for another one in order, whose tasks wait in no other line. */
  lemma ExchangeLine(ms: Models, b: WaitLists, res: ResTable, jobs: set<Task>, ready: set<Task>,
                    r: ResName, q: seq<Task>)
    requires Waiters(ms, b, res, jobs, ready) && LineOf(ms, q, Held(res, r), jobs, ready)
    requires forall r', x :: x in q && x in Waiting(b, r') ==> r' == r
    ensures Waiters(ms, b[r := q], res, jobs, ready)
  {
    OnePlaceStays(b, r, q);
    hide LineOf, OnePlace, Waiting, Held;
    forall r' ensures LineOf(ms, Waiting(b[r := q], r'), Held(res, r'), jobs, ready) {
      WaitingAfter(b, r, q, r');
    }
  }

  lemma OnePlaceStays(b: WaitLists, r: ResName, q: seq<Task>)
    requires OnePlace(b) && forall r', x :: x in q && x in Waiting(b, r') ==> r' == r
    ensures OnePlace(b[r := q])
  {
    hide Waiting;
    var b' := b[r := q];
    forall r1, r2, w | w in Waiting(b', r1) && w in Waiting(b', r2) ensures r1 == r2 {
      WaitingAfter(b, r, q, r1);
      WaitingAfter(b, r, q, r2);
    }
  }

  // ---------- request ----------

  lemma LockKeepsInv(s: PiState, t: Task, r: ResName)
    requires Inv(s) && s.k.curr == Some(t) && r in s.res && HoldsNothing(s.res, t) && !s.res[r].IsLocked()
    ensures Inv(Lock(s, t, r))
  {
    Roles(s);
    var ms, res', ready := s.k.sched.models, Lock(s, t, r).res, Elements(s.k.sched.queue);
    OwnersAfterLock(s.res, ready, t, r);
    hide Rt.Valid, Owners, Waiting, Held, Owner;
    hide LineOf, OnePlace;
    WaitersStay(ms, ms, s.blocked, s.res, res', s.jobs, s.jobs, ready, ready);
    hide Waiters;
    forall r', w | Held(res', r') && w in Waiting(s.blocked, r') && Owner(res', r') in ms && w in ms
      ensures ms[Owner(res', r')].prio <= ms[w].prio
    {
      assert Held(s.res, r');
    }
  }

  lemma OwnersAfterLock(res: ResTable, ready: set<Task>, t: Task, r: ResName)
    requires Owners(res, ready) && t in ready && HoldsNothing(res, t) && r in res && !res[r].IsLocked()
    ensures var res' := res[r := res[r].Lock(t)];
            && Owners(res', ready) && !Held(res, r) && Held(res', r) && Owner(res', r) == t
            && (forall r' :: Held(res, r') ==> Held(res', r') && Owner(res', r') == Owner(res, r'))
            && (forall r' :: Held(res', r') && r' != r ==> Held(res, r'))
  {
    var res' := res[r := res[r].Lock(t)];
    assert forall r' :: r' != r ==> (Held(res', r') <==> Held(res, r'));
    assert forall r' :: r' != r && Held(res, r') ==> Owner(res', r') == Owner(res, r');
  }

  /** The kernel's part of a request that blocks. */
  lemma InheritKernel(s: PiState, t: Task, r: ResName, now: int)
    requires Inv(s) && s.k.curr == Some(t) && r in s.res && HoldsNothing(s.res, t) && s.res[r].IsLocked()
    ensures Held(s.res, r) && Owner(s.res, r) in s.k.sched.queue && Owner(s.res, r) != t
    ensures t in s.k.sched.Extract(Owner(s.res, r)).queue
    ensures var k', o := Inherit(s, t, r, now).k, Owner(s.res, r);
            && k'.Valid() && k'.curr.None?
            && Elements(k'.sched.queue) == Elements(s.k.sched.queue) - {t}
            && k'.sched.models[o].prio == s.k.sched.models[t].prio
            && forall x :: x in s.k.sched.models && x != o ==> SameRank(s.k.sched.models, k'.sched.models, x)
  {
    OwnerIsAnother(s, t, r);
    RaiseOwner(s.k.sched, t, Owner(s.res, r), now);
  }

  lemma BothLeave(q: Sched, t: Task, o: Task, p: int)
    requires q.Valid() && t in q.queue && o in q.queue && t != o
    ensures q.Extract(o).Valid() && t in q.Extract(o).queue
    ensures var q2 := q.Extract(o).Extract(t);
            && q2.Valid() && o !in q2.queue && o in q2.models
            && Elements(q2.queue) == Elements(q.queue) - {o} - {t}
            && q2.ChangePriority(o, p).Valid()
  {
    ExtractKeepsValid(q, o, 0);
    var q1 := q.Extract(o);
    assert t in Elements(q1.queue) && o !in Elements(q1.queue);
    ExtractKeepsValid(q1, t, 0);
    var q2 := q1.Extract(t);
    assert o !in Elements(q2.queue);
    ReprioritiseOutside(q2, o, p);
  }

  lemma ReprioritiseOutside(q: Sched, t: Task, p: int)
    requires q.Valid() && t in q.models && t !in q.queue
    ensures q.ChangePriority(t, p).Valid()
  {
  }

  /** The queue after o inherited the priority of t and t left. */
  lemma RaiseOwner(q: Sched, t: Task, o: Task, now: int)
    requires q.Valid() && t in q.queue && o in q.queue && t != o
    ensures t in q.Extract(o).queue
    ensures var q' := q.Extract(o).Extract(t).ChangePriority(o, q.models[t].prio).Insert(o, now);
            && q'.Valid() && Elements(q'.queue) == Elements(q.queue) - {t}
            && q'.models[o].prio == q.models[t].prio
            && forall x :: x in q.models && x != o ==> SameRank(q.models, q'.models, x)
  {
    BothLeave(q, t, o, q.models[t].prio);
    InsertKeepsValid(q.Extract(o).Extract(t).ChangePriority(o, q.models[t].prio), o, now);
    assert Elements(q.queue) - {o} - {t} + {o} == Elements(q.queue) - {t};
  }

  /** A ready task enters the line of r. */
  lemma LineAfterInsert(ms: Models, q: seq<Task>, jobs: set<Task>, ready: set<Task>, t: Task)
    requires LineOf(ms, q, true, jobs, ready) && t in jobs && t !in ready && t !in q && t in ms
    ensures LineOf(ms, InsertSorted(ms, q, t), true, jobs, ready)
    ensures Elements(InsertSorted(ms, q, t)) == Elements(q) + {t}
    ensures forall x :: x in InsertSorted(ms, q, t) ==> x == t || x in q
  {
    InsertSortedKeepsOrder(ms, q, t);
    hide InsertSorted, Known, Sorted;
    assert forall x :: x in InsertSorted(ms, q, t) ==> x in Elements(q) + {t};
  }

  lemma BlockedListsAfterInsert(ms: Models, ms': Models, b: WaitLists, res: ResTable, jobs: set<Task>, ready: set<Task>,
                                t: Task, r: ResName)
    requires Waiters(ms, b, res, jobs, ready) && t in ready && t in jobs && Held(res, r) && t in ms'
    requires forall r', x :: x in Waiting(b, r') ==> SameRank(ms, ms', x)
    requires Known(ms', Waiting(b, r))
    ensures Waiters(ms', b[r := InsertSorted(ms', Waiting(b, r), t)], res, jobs, ready - {t})
    ensures Elements(Waiting(b[r := InsertSorted(ms', Waiting(b, r), t)], r)) == Elements(Waiting(b, r)) + {t}
  {
    var q := Waiting(b, r);
    WaitOutside(ms, b, res, jobs, ready);
    hide LineOf, Waiting, Held, InsertSorted, SameRank;
    WaitersStay(ms, ms', b, res, res, jobs, jobs, ready, ready - {t});
    LineAfterInsert(ms', q, jobs, ready - {t}, t);
    ExchangeLine(ms', b, res, jobs, ready - {t}, r, InsertSorted(ms', q, t));
    WaitingAfter(b, r, InsertSorted(ms', q, t), r);
  }

  lemma WaitOutside(ms: Models, b: WaitLists, res: ResTable, jobs: set<Task>, ready: set<Task>)
    requires Waiters(ms, b, res, jobs, ready)
    ensures forall r, x :: x in Waiting(b, r) ==> x in jobs && x !in ready && Held(res, r)
  {
    hide Known, Sorted, Waiting, OnePlace;
  }

  lemma InheritKeepsInv(s: PiState, t: Task, r: ResName, now: int)
    requires Inv(s) && s.k.curr == Some(t) && r in s.res && HoldsNothing(s.res, t) && s.res[r].IsLocked()
    ensures Inv(RequestResource(s, t, r, now))
  {
    Roles(s);
    InheritKernel(s, t, r, now);
    InheritShape(s, t, r, now);
    var s' := RequestResource(s, t, r, now);
    var ms, ms', ready := s.k.sched.models, s'.k.sched.models, Elements(s.k.sched.queue);
    hide RequestResource, Inherit, InsertSorted, Sched.Valid, Waiters, Waiting, Held, OwnersInherit, CurrentDominates;
    OwnersWithout(s.res, ready, t);
    OneEach(s.res, ready, r);
    BlockedListsAfterInsert(ms, ms', s.blocked, s.res, s.jobs, ready, t, r);
    OtherLines(s.blocked, r, InsertSorted(ms', Waiting(s.blocked, r), t));
    InheritDominates(ms, ms', s.res, s.blocked, s'.blocked, t, r);
    NobodyDominates(ms', s.res, s'.blocked);
  }

  /** What a request that blocks leaves alone. */
  lemma InheritShape(s: PiState, t: Task, r: ResName, now: int)
    requires Inv(s) && s.k.curr == Some(t) && r in s.res && HoldsNothing(s.res, t) && s.res[r].IsLocked()
    ensures Held(s.res, r) && Owner(s.res, r) in s.k.sched.queue && t in s.k.sched.Extract(Owner(s.res, r)).queue
    ensures Known(s.k.sched.models, Waiting(s.blocked, r))
    ensures var s' := RequestResource(s, t, r, now);
            && s'.k == Inherit(s, t, r, now).k.Dispatch()
            && s'.res == s.res && s'.saved == s.saved && s'.jobs == s.jobs
            && Known(s'.k.sched.models, Waiting(s.blocked, r)) && t in s'.k.sched.models
            && s'.blocked == s.blocked[r := InsertSorted(s'.k.sched.models, Waiting(s.blocked, r), t)]
  {
    OwnerIsAnother(s, t, r);
    hide Sched.Valid, Owners, OwnersInherit, CurrentDominates, Sorted, OnePlace, InsertSorted, RaiseAndSuspend;
  }

  lemma OwnersWithout(res: ResTable, ready: set<Task>, t: Task)
    requires Owners(res, ready) && HoldsNothing(res, t)
    ensures Owners(res, ready - {t})
  {
  }

  lemma OneEach(res: ResTable, ready: set<Task>, r: ResName)
    requires Owners(res, ready) && Held(res, r)
    ensures forall r' :: Held(res, r') && Owner(res, r') == Owner(res, r) ==> r' == r
  {
  }

  lemma OtherLines(b: WaitLists, r: ResName, q: seq<Task>)
    ensures forall r' :: r' != r ==> Waiting(b[r := q], r') == Waiting(b, r')
  {
  }

  lemma NobodyDominates(ms: Models, res: ResTable, b: WaitLists)
    ensures CurrentDominates(ms, None, res, b)
  {
  }

  lemma InheritDominates(ms: Models, ms': Models, res: ResTable, b: WaitLists, b': WaitLists, t: Task, r: ResName)
    requires OwnersInherit(ms, res, b) && CurrentDominates(ms, Some(t), res, b) && t in ms && t in ms'
    requires Held(res, r) && forall r' :: Held(res, r') && Owner(res, r') == Owner(res, r) ==> r' == r
    requires Owner(res, r) in ms' && ms'[Owner(res, r)].prio == ms[t].prio && ms'[t].prio == ms[t].prio
    requires forall x :: x in ms && x != Owner(res, r) ==> SameRank(ms, ms', x)
    requires forall r', x :: x in Waiting(b, r') ==> x in ms && x != Owner(res, r)
    requires forall r' :: r' != r ==> Waiting(b', r') == Waiting(b, r')
    requires Elements(Waiting(b', r)) == Elements(Waiting(b, r)) + {t}
    requires forall r' :: Held(res, r') ==> Owner(res, r') in ms
    ensures OwnersInherit(ms', res, b')
  {
    forall r', w | Held(res, r') && w in Waiting(b', r') && Owner(res, r') in ms' && w in ms'
      ensures ms'[Owner(res, r')].prio <= ms'[w].prio
    {
      if r' == r {
        assert w in Elements(Waiting(b', r));
        assert w == t || (w in Waiting(b, r) && SameRank(ms, ms', w));
      } else {
        assert w in Waiting(b, r');
        assert SameRank(ms, ms', w) && SameRank(ms, ms', Owner(res, r'));
      }
    }
  }

  // ---------- release ----------

  lemma UnlockKeepsInv(s: PiState, t: Task, r: ResName)
    requires Inv(s) && Held(s.res, r) && Waiting(s.blocked, r) == []
    ensures Inv(s.(res := s.res[r := s.res[r].Unlock()], k := s.k.Dispatch()))
  {
    var res' := s.res[r := s.res[r].Unlock()];
    assert forall r' :: Held(res', r') <==> Held(s.res, r') && r' != r;
    assert forall r' :: Held(res', r') ==> Owner(res', r') == Owner(s.res, r');
  }

  lemma HandOffQueue(q: Sched, t: Task, w: Task, p: int, now: int)
    requires q.Valid() && t in q.queue && w in q.models && w !in q.queue
    ensures var q' := q.Extract(t).ChangePriority(t, p).Insert(t, now).Insert(w, now);
            && q'.Valid() && Elements(q'.queue) == Elements(q.queue) + {w}
            && q'.models[t].prio == p && q'.models[w].prio == q.models[w].prio
            && forall x :: x in q.models && x != t && x != w ==> SameRank(q.models, q'.models, x)
  {
    RekeyKeepsValid(q, t, p, now);
    var q1 := q.Extract(t).ChangePriority(t, p).Insert(t, now);
    assert w !in Elements(q1.queue);
    InsertKeepsValid(q1, w, now);
  }

  /** The front waiter is served; it has the best priority of its list. */
  lemma FrontIsBest(ms: Models, q: seq<Task>)
    requires Known(ms, q) && Sorted(ms, q) && q != []
    ensures forall w :: w in q[1..] ==> w in ms && ms[q[0]].prio <= ms[w].prio && w != q[0]
    ensures Sorted(ms, q[1..])
  {
    forall w | w in q[1..] ensures w in ms && ms[q[0]].prio <= ms[w].prio && w != q[0] {
      var i :| 0 <= i < |q[1..]| && q[1..][i] == w;
      assert Before(ms, q[0], q[i + 1]);
    }
  }

  /** The front of the line of r becomes ready. */
  lemma ServeFront(ms: Models, ms': Models, b: WaitLists, res: ResTable, res': ResTable,
                   jobs: set<Task>, ready: set<Task>, r: ResName)
    requires Waiters(ms, b, res, jobs, ready) && Waiting(b, r) != []
    requires forall r' :: Held(res, r') ==> Held(res', r')
    requires forall r', x :: x in Waiting(b, r') && x != Waiting(b, r)[0] ==> SameRank(ms, ms', x)
    ensures Waiters(ms', b[r := Waiting(b, r)[1..]], res', jobs, ready + {Waiting(b, r)[0]})
  {
    var b' := b[r := Waiting(b, r)[1..]];
    WaitOutside(ms, b, res, jobs, ready);
    DropFront(ms, b, res, jobs, ready, r);
    hide Waiters, Waiting, Held, SameRank;
    WaitersStay(ms, ms', b', res, res', jobs, jobs, ready, ready + {Waiting(b, r)[0]});
  }

  lemma TailStays(ms: Models, q: seq<Task>, held: bool, jobs: set<Task>, ready: set<Task>)
    requires LineOf(ms, q, held, jobs, ready) && q != []
    ensures LineOf(ms, q[1..], held, jobs, ready)
    ensures q[0] in q && forall x :: x in q[1..] ==> x in q && x != q[0]
  {
    FrontIsBest(ms, q);
    hide Sorted;
  }

  /** Without its front the line of r is in order, and the front waits nowhere. */
  lemma DropFront(ms: Models, b: WaitLists, res: ResTable, jobs: set<Task>, ready: set<Task>, r: ResName)
    requires Waiters(ms, b, res, jobs, ready) && Waiting(b, r) != []
    ensures Waiters(ms, b[r := Waiting(b, r)[1..]], res, jobs, ready)
    ensures forall r', x :: x in Waiting(b[r := Waiting(b, r)[1..]], r') ==>
              x in Waiting(b, r') && x != Waiting(b, r)[0]
  {
    var q := Waiting(b, r);
    hide LineOf, Waiting, Held;
    TailStays(ms, q, Held(res, r), jobs, ready);
    ExchangeLine(ms, b, res, jobs, ready, r, q[1..]);
    forall r', x | x in Waiting(b[r := q[1..]], r') ensures x in Waiting(b, r') && x != q[0] {
      WaitingAfter(b, r, q[1..], r');
    }
  }

  lemma NewOwnerInherits(ms: Models, ms': Models, res: ResTable, res': ResTable, b: WaitLists, r: ResName)
    requires OwnersInherit(ms, res, b) && Known(ms, Waiting(b, r)) && Sorted(ms, Waiting(b, r))
    requires Held(res, r) && Waiting(b, r) != []
    requires forall r' :: Held(res, r') ==> Owner(res, r') in ms
    requires forall r', x :: x in Waiting(b, r') ==> x in ms
    requires res' == res[r := res[r].Unlock().Lock(Waiting(b, r)[0])]
    requires Waiting(b, r)[0] in ms' && ms'[Waiting(b, r)[0]].prio == ms[Waiting(b, r)[0]].prio
    requires forall x :: x in ms && x != Owner(res, r) && x != Waiting(b, r)[0] ==> SameRank(ms, ms', x)
    requires forall r' :: r' != r && Held(res, r') ==> Owner(res, r') != Owner(res, r)
    requires forall r' :: r' != r && Held(res, r') ==> Owner(res, r') != Waiting(b, r)[0]
    requires forall r', x :: x in Waiting(b, r') ==> x != Owner(res, r)
    requires forall r' :: r' != r ==> Waiting(b, r)[0] !in Waiting(b, r')
    ensures OwnersInherit(ms', res', b[r := Waiting(b, r)[1..]])
  {
    var q := Waiting(b, r);
    var b' := b[r := q[1..]];
    FrontIsBest(ms, q);
    forall r', w | Held(res', r') && w in Waiting(b', r') && Owner(res', r') in ms' && w in ms'
      ensures ms'[Owner(res', r')].prio <= ms'[w].prio
    {
      assert w in Waiting(b, r') && w != q[0];
      assert SameRank(ms, ms', w);
      if r' != r {
        assert Held(res, r') && SameRank(ms, ms', Owner(res, r'));
      }
    }
  }

  lemma HandOffKeepsInv(s: PiState, t: Task, r: ResName, now: int)
    requires Inv(s) && s.k.curr == Some(t) && Held(s.res, r) && Owner(s.res, r) == t && Waiting(s.blocked, r) != []
    ensures Inv(ReleaseResource(s, t, r, now))
    ensures ReleaseResource(s, t, r, now).k.sched.models[t].prio == s.Saved(t, r)
    ensures var ms, ms', w := s.k.sched.models, ReleaseResource(s, t, r, now).k.sched.models, Waiting(s.blocked, r)[0];
            && w in ms && w != t && w !in s.k.sched.queue && w in ms' && ms'[w].prio == ms[w].prio
            && forall x :: x in ms && x != t && x != w ==> SameRank(ms, ms', x)
  {
    Roles(s);
    HandOffShape(s, t, r, now);
    var w := Waiting(s.blocked, r)[0];
    assert w in Waiting(s.blocked, r) && w !in Elements(s.k.sched.queue);
    var s' := ReleaseResource(s, t, r, now);
    var ms, ms', ready := s.k.sched.models, s'.k.sched.models, Elements(s.k.sched.queue);
    hide ReleaseResource, Sched.Valid, Sched.Extract, Sched.Insert, Waiting, Held,
      OwnersInherit, CurrentDominates, Owners;
    HandOffQueue(s.k.sched, t, w, s.Saved(t, r), now);
    OwnersAfterHandOff(s.res, s'.res, ready, r, w);
    OneEach(s.res, ready, r);
    LineIsSorted(ms, s.blocked, s.res, s.jobs, ready, r);
    ServeFront(ms, ms', s.blocked, s.res, s'.res, s.jobs, ready, r);
    hide Waiters, SameRank;
    NewOwnerInherits(ms, ms', s.res, s'.res, s.blocked, r);
    NobodyDominates(ms', s'.res, s'.blocked);
  }

  lemma LineIsSorted(ms: Models, b: WaitLists, res: ResTable, jobs: set<Task>, ready: set<Task>, r: ResName)
    requires Waiters(ms, b, res, jobs, ready)
    ensures Known(ms, Waiting(b, r)) && Sorted(ms, Waiting(b, r))
    ensures forall r', w :: w in Waiting(b, r) && w in Waiting(b, r') ==> r' == r
  {
  }

  /** What a hand-off changes. */
  lemma HandOffShape(s: PiState, t: Task, r: ResName, now: int)
    requires Inv(s) && s.k.curr == Some(t) && Held(s.res, r) && Owner(s.res, r) == t && Waiting(s.blocked, r) != []
    ensures t in s.k.sched.queue && t in s.k.sched.models && Waiting(s.blocked, r)[0] in s.k.sched.models
    ensures Known(s.k.sched.models, s.k.sched.queue)
    ensures var s', w := ReleaseResource(s, t, r, now), Waiting(s.blocked, r)[0];
            && s'.k.sched == s.k.sched.Extract(t).ChangePriority(t, s.Saved(t, r)).Insert(t, now).Insert(w, now)
            && s'.k.curr == None && s'.jobs == s.jobs && s'.saved == s.saved
            && s'.res == s.res[r := s.res[r].Unlock().Lock(w)]
            && s'.blocked == s.blocked[r := Waiting(s.blocked, r)[1..]]
  {
    Roles(s);
    hide Sched.Extract, Sched.Insert, Sched.Valid, Owners, Waiters, OwnersInherit, CurrentDominates;
  }

  lemma OwnersAfterHandOff(res: ResTable, res': ResTable, ready: set<Task>, r: ResName, w: Task)
    requires Owners(res, ready) && Held(res, r) && w !in ready
    requires res' == res[r := res[r].Unlock().Lock(w)]
    ensures Owners(res', ready + {w})
    ensures forall r' :: Held(res', r') <==> Held(res, r')
  {
    assert forall r' :: Held(res', r') <==> Held(res, r');
    assert forall r' :: Held(res', r') && r' != r ==> Owner(res', r') == Owner(res, r');
  }
}
