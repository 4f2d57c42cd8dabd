/**
 A run under priority inheritance after which a release makes a task the most urgent one
 (src/piresman.cpp:33-95). Tasks 1, 2 and 3 have the priorities 10, 20 and 30 and share one resource.

 Task 3 takes the resource; task 2 preempts it, requests the resource and blocks; so does task 1; task 3 goes on
 and releases the resource. So task 1 gets it by hand-off, while task 2 still waits. Nothing was ever saved for
 task 1, and its release gives it priority 0. Every context switch ends before the task it starts acts.
 */
module HandedOver {
  import opened Common
  import opened ReadyQueue
  import opened SingleKernel
  import opened Resources
  import opened PriorityInheritance
  import opened InheritanceRuns

  const R: ResName := "R"

  function Model(prio: int, at: int, active: bool): TaskModel { TaskModel(prio, at, active, 0) }

  function Ms(a: TaskModel, b: TaskModel, c: TaskModel): Models { map[1 := a, 2 := b, 3 := c] }

  /** A state after task 3 took the resource, with no context switch in progress. */
  function At(ms: Models, q: seq<Task>, curr: Option<Task>, pre: Option<Task>, begin: bool, jobs: set<Task>,
              owner: Task, line: seq<Task>): PiState {
    PiState(Rt(Sched(ms, q), curr, pre, false, begin, false), jobs,
            map[R := ResState(1, 0, Some(owner))],
            if line == [] then map[] else map[R := line], map[(3, R) := 30])
  }

  const M0 := Ms(Model(10, 0, false), Model(20, 0, false), Model(30, 0, false))
  const M1 := Ms(Model(10, 0, false), Model(20, 0, false), Model(30, 0, true))
  const M4 := Ms(Model(10, 0, false), Model(20, 1, true), Model(30, 0, true))
  const M6 := Ms(Model(10, 0, false), Model(20, 1, false), Model(20, 2, true))
  const M8 := Ms(Model(10, 3, true), Model(20, 1, false), Model(20, 2, true))
  const M10 := Ms(Model(10, 3, false), Model(20, 1, false), Model(10, 4, true))
  const M12 := Ms(Model(10, 5, true), Model(20, 1, false), Model(30, 5, true))

  const FREE: ResTable := map[R := ResState(1, 1, None)]

  const S0 := PiState(Rt(Sched(M0, []), None, None, false, false, false), {}, FREE, map[], map[])
  const S1 := PiState(Rt(Sched(M1, [3]), None, None, false, true, false), {3}, FREE, map[], map[])
  const S2 := PiState(Rt(Sched(M1, [3]), Some(3), None, false, false, false), {3}, FREE, map[], map[])
  const S3 := At(M1, [3], Some(3), None, false, {3}, 3, [])
  const S5 := At(M4, [2, 3], Some(2), Some(3), false, {2, 3}, 3, [])
  const S7 := At(M6, [3], Some(3), Some(2), false, {2, 3}, 3, [2])
  const S9 := At(M8, [1, 3], Some(1), Some(3), false, {1, 2, 3}, 3, [2])
  const S11 := At(M10, [3], Some(3), Some(1), false, {1, 2, 3}, 3, [1, 2])
  const S13 := At(M12, [1, 3], Some(1), Some(3), false, {1, 2, 3}, 1, [2])

  const TAKING: seq<Event> := [Arrive(3, 0), BeginFires, EndFires, Request(3, R, 0)]
  const BLOCKING2: seq<Event> := [Arrive(2, 1), BeginFires, EndFires, Request(2, R, 2), BeginFires, EndFires]
  const BLOCKING1: seq<Event> := [Arrive(1, 3), BeginFires, EndFires, Request(1, R, 4), BeginFires, EndFires]
  const HANDING: seq<Event> := [Release(3, R, 5), BeginFires, EndFires]

  const EVENTS := TAKING + BLOCKING2 + BLOCKING1 + HANDING

  // ---------- runs ----------

  /** A run from s0 to s in which tasks act only while they execute. */
  ghost predicate LeadsTo(s0: PiState, es: seq<Event>, s: PiState) {
    Inv(s0) && ValidRun(s0, es) && ExecutingRun(s0, es) && Run(s0, es) == s && Inv(s)
  }

  lemma Nothing(s: PiState)
    requires Inv(s)
    ensures LeadsTo(s, [], s)
  {
  }

  lemma {:induction false} OneMore(s0: PiState, es: seq<Event>, s: PiState, e: Event)
    requires LeadsTo(s0, es, s) && Enabled(s, e) && Executing(s, e)
    ensures LeadsTo(s0, es + [e], Step(s, e))
    decreases |es|
  {
    hide Inv, Enabled, Step, Executing;
    if es == [] {
      StepKeepsInv(s, e);
      Nothing(Step(s, e));
      assert ([] + [e])[1..] == [];
      assert es + [e] == [] + [e];
    } else {
      StepKeepsInv(s0, es[0]);
      OneMore(Step(s0, es[0]), es[1..], s, e);
      assert (es + [e])[1..] == es[1..] + [e];
    }
  }

  /** A pending begin event starts a context switch to the first ready task, and the switch ends. */
  lemma SwitchTo(s0: PiState, es: seq<Event>, s: PiState, first: Task, pre: Option<Task>)
    requires LeadsTo(s0, es, s) && s.k.beginEv && !s.k.endEv
    requires s.k.sched.TaskN(0) == Some(first) && s.k.curr != Some(first) && pre != Some(first)
    requires pre == if s.k.curr.Some? then s.k.curr else s.k.pre
    ensures LeadsTo(s0, es + [BeginFires, EndFires], s.(k := Rt(s.k.sched, Some(first), pre, false, false, false)))
  {
    hide LeadsTo, Inv;
    OneMore(s0, es, s, BeginFires);
    var s1 := s.(k := Rt(s.k.sched, Some(first), pre, true, false, true));
    assert Step(s, BeginFires) == s1 by { Inside(s0, es, s); }
    Inside(s0, es + [BeginFires], s1);
    OneMore(s0, es + [BeginFires], s1, EndFires);
    assert es + [BeginFires] + [EndFires] == es + [BeginFires, EndFires];
  }

  lemma Inside(s0: PiState, es: seq<Event>, s: PiState)
    requires LeadsTo(s0, es, s)
    ensures Inv(s) && s.k.Valid()
  {
  }

  // ---------- queue operations by their results ----------

  lemma InsertIs(s: Sched, t: Task, now: int, q: seq<Task>)
    requires s.Valid() && t in s.models && t !in s.queue
    requires var ms := s.models[t := s.models[t].(insertTime := now, active := true)];
             Known(ms, q) && Sorted(ms, q) && Elements(q) == Elements(s.queue) + {t}
    ensures s.Insert(t, now) == Sched(s.models[t := s.models[t].(insertTime := now, active := true)], q)
  {
    InsertKeepsValid(s, t, now);
    var s' := s.Insert(t, now);
    SortedIsUnique(s'.models, s'.queue, q);
  }

  lemma ExtractIs(s: Sched, t: Task, q: seq<Task>)
    requires s.Valid() && t in s.queue
    requires Known(s.models, q) && Sorted(s.models, q) && Elements(q) == Elements(s.queue) - {t}
    ensures s.Extract(t) == Sched(s.models[t := s.models[t].(active := false)], q)
  {
    ExtractKeepsValid(s, t, 0);
    var s' := s.Extract(t);
    assert Sorted(s'.models, q);
    SortedIsUnique(s'.models, s'.queue, q);
  }

  /** A task more urgent than the only one in the queue goes ahead of it. */
  lemma EnterAhead(s: Sched, u: Task, t: Task, now: int)
    requires s.Valid() && s.queue == [u] && t in s.models && u in s.models && s.models[t].prio < s.models[u].prio
    ensures s.Insert(t, now) == Sched(s.models[t := s.models[t].(insertTime := now, active := true)], [t, u])
  {
    assert Elements([t, u]) == Elements([u]) + {t};
    assert u in s.queue;
    InsertIs(s, t, now, [t, u]);
  }

  lemma LeaveBehind(s: Sched, t: Task, u: Task)
    requires s.Valid() && s.queue == [u, t] && t != u
    ensures s.Extract(t) == Sched(s.models[t := s.models[t].(active := false)], [u]) && s.Extract(t).Valid()
  {
    assert t in s.queue && u in s.queue;
    ExtractIs(s, t, [u]);
    ExtractKeepsValid(s, t, 0);
  }

  lemma LeaveEmpty(s: Sched, t: Task)
    requires s.Valid() && s.queue == [t]
    ensures s.Extract(t) == Sched(s.models[t := s.models[t].(active := false)], []) && s.Extract(t).Valid()
  {
    ExtractIs(s, t, []);
    ExtractKeepsValid(s, t, 0);
  }

  lemma EnterEmpty(s: Sched, t: Task, now: int)
    requires t in s.models && s.queue == []
    ensures s.Insert(t, now) == Sched(s.models[t := s.models[t].(insertTime := now, active := true)], [t])
  {
  }

  lemma LineOfOne(ms: Models, t: Task)
    requires t in ms
    ensures InsertSorted(ms, [], t) == [t]
  {
  }

  lemma LineFront(ms: Models, q: seq<Task>, t: Task)
    requires t in ms && q != [] && Known(ms, q) && !Before(ms, q[0], t)
    ensures InsertSorted(ms, q, t) == [t] + q
  {
  }

  // ---------- arrivals ----------

  /** A task t more urgent than the executing task 3 arrives and takes over. */
  lemma Preempts(es: seq<Event>, s: PiState, t: Task, now: int, ms: Models)
    requires LeadsTo(S0, es, s) && !s.k.endEv && s.k.curr == Some(3) && s.k.sched.queue == [3]
    requires t in s.k.sched.models && 3 in s.k.sched.models && t !in s.jobs
    requires s.k.sched.models[t].prio < s.k.sched.models[3].prio
    requires ms == s.k.sched.models[t := s.k.sched.models[t].(insertTime := now, active := true)]
    ensures LeadsTo(S0, es + [Arrive(t, now), BeginFires, EndFires],
                    s.(jobs := s.jobs + {t}, k := Rt(Sched(ms, [t, 3]), Some(t), Some(3), false, false, false)))
  {
    Inside(S0, es, s);
    EnterAhead(s.k.sched, 3, t, now);
    hide LeadsTo, Inv, Sched.Insert, Sched.Valid;
    OneMore(S0, es, s, Arrive(t, now));
    var s' := s.(jobs := s.jobs + {t}, k := s.k.(sched := Sched(ms, [t, 3]), beginEv := true));
    assert Step(s, Arrive(t, now)) == s';
    hide Step, Enabled, Executing;
    SwitchTo(S0, es + [Arrive(t, now)], s', t, Some(3));
    assert es + [Arrive(t, now)] + [BeginFires, EndFires] == es + [Arrive(t, now), BeginFires, EndFires];
  }

  // ---------- requests ----------

  /** The queue when t gives way to the owner 3, which inherits its priority. */
  lemma GiveWay(s: Sched, t: Task, now: int)
    requires s.Valid() && s.queue == [t, 3] && t != 3
    ensures t in s.Extract(3).queue && 3 in s.models && t in s.models
    ensures s.Extract(3).Extract(t).ChangePriority(3, s.models[t].prio).Insert(3, now)
         == Sched(s.models[t := s.models[t].(active := false)]
                          [3 := s.models[3].(prio := s.models[t].prio, insertTime := now, active := true)], [3])
  {
    assert 3 in s.queue && t in s.queue;
    LeaveBehind(s, 3, t);
    var s1 := s.Extract(3);
    LeaveEmpty(s1, t);
    var s2 := s1.Extract(t).ChangePriority(3, s.models[t].prio);
    hide Sched.Extract, Sched.Insert;
    EnterEmpty(s2, 3, now);
  }

  /** The kernel when the current task t gives way. */
  lemma RaiseIs(k: Rt, t: Task, now: int, ms: Models)
    requires k.Valid() && k.sched.queue == [t, 3] && t != 3 && k.curr == Some(t)
        && t in k.sched.models && 3 in k.sched.models
    requires ms == k.sched.models[t := k.sched.models[t].(active := false)]
                                 [3 := k.sched.models[3].(prio := k.sched.models[t].prio,
                                                           insertTime := now, active := true)]
    ensures t in k.sched.Extract(3).queue
    ensures RaiseAndSuspend(k, 3, t, now) == k.(sched := Sched(ms, [3]), curr := None, pre := Some(t))
  {
    GiveWay(k.sched, t, now);
    hide Sched.Extract, Sched.Insert;
  }

  lemma HeldByThree(s: PiState, t: Task)
    requires s.res.Keys == {R} && s.res[R].owner == Some(3) && t != 3
    ensures HoldsNothing(s.res, t)
  {
  }

  /** The state in which the current task t blocks on the resource held by task 3. */
  lemma BlockIs(s: PiState, t: Task, now: int, ms: Models, line: seq<Task>)
    requires Inv(s) && s.k.curr == Some(t) && t != 3 && s.k.sched.queue == [t, 3]
    requires s.res == map[R := ResState(1, 0, Some(3))] && t in s.k.sched.models && 3 in s.k.sched.models
    requires ms == s.k.sched.models[t := s.k.sched.models[t].(active := false)]
                 [3 := s.k.sched.models[3].(prio := s.k.sched.models[t].prio, insertTime := now, active := true)]
    requires t in ms && Known(ms, Waiting(s.blocked, R)) && InsertSorted(ms, Waiting(s.blocked, R), t) == line
    ensures Enabled(s, Request(t, R, now))
    ensures Step(s, Request(t, R, now)) ==
            s.(k := s.k.(sched := Sched(ms, [3]), curr := None, pre := Some(t), beginEv := true),
               blocked := s.blocked[R := line])
  {
    HeldByThree(s, t);
    RaiseIs(s.k, t, now, ms);
    hide RaiseAndSuspend, Sched.Extract, InsertSorted, Waiting, Rt.Valid, Known;
    InheritShape(s, t, R, now);
    InheritedKernel(s, t, now);
    hide Inv, RequestResource, Inherit;
  }

  lemma InheritedKernel(s: PiState, t: Task, now: int)
    requires Inv(s) && Enabled(s, Request(t, R, now)) && s.res[R].IsLocked() && Held(s.res, R) && Owner(s.res, R) == 3
    requires 3 in s.k.sched.queue && t in s.k.sched.Extract(3).queue && Known(s.k.sched.models, s.k.sched.queue)
    requires Known(s.k.sched.models, Waiting(s.blocked, R))
    ensures Step(s, Request(t, R, now)) == RequestResource(s, t, R, now)
    ensures Inherit(s, t, R, now).k == RaiseAndSuspend(s.k, 3, t, now)
  {
    hide Inv, RaiseAndSuspend, Sched.Extract, Known;
  }

  /** The executing task t blocks, and task 3 goes on. */
  lemma Blocks(es: seq<Event>, s: PiState, t: Task, now: int, ms: Models, line: seq<Task>)
    requires LeadsTo(S0, es, s) && !s.k.endEv && s.k.curr == Some(t) && t != 3 && s.k.sched.queue == [t, 3]
    requires s.res == map[R := ResState(1, 0, Some(3))] && t in s.k.sched.models && 3 in s.k.sched.models
    requires ms == s.k.sched.models[t := s.k.sched.models[t].(active := false)]
                 [3 := s.k.sched.models[3].(prio := s.k.sched.models[t].prio, insertTime := now, active := true)]
    requires t in ms && Known(ms, Waiting(s.blocked, R)) && InsertSorted(ms, Waiting(s.blocked, R), t) == line
    ensures LeadsTo(S0, es + [Request(t, R, now), BeginFires, EndFires],
                    s.(k := Rt(Sched(ms, [3]), Some(3), Some(t), false, false, false), blocked := s.blocked[R := line]))
  {
    hide LeadsTo, Inv, InsertSorted, Known, Waiting, Enabled, Step;
    Inside(S0, es, s);
    BlockIs(s, t, now, ms, line);
    OneMore(S0, es, s, Request(t, R, now));
    SwitchTo(S0, es + [Request(t, R, now)], Step(s, Request(t, R, now)), 3, Some(t));
    assert es + [Request(t, R, now)] + [BeginFires, EndFires] == es + [Request(t, R, now), BeginFires, EndFires];
  }

  // ---------- the run ----------

  lemma Beginning()
    ensures Initial(S0) && Inv(S0)
  {
    InitialInv(S0);
  }

  /** Task 3 arrives at the idle processor, ... */
  lemma FirstArrival()
    requires Inv(S0)
    ensures Enabled(S0, Arrive(3, 0)) && Step(S0, Arrive(3, 0)) == S1
  {
    hide Inv, InsertSorted;
    EnterEmpty(S0.k.sched, 3, 0);
    assert M0[3 := Model(30, 0, true)] == M1;
    hide Sched.Insert;
  }

  /** ... and takes the free resource. */
  lemma FirstRequest()
    requires Inv(S2)
    ensures Enabled(S2, Request(3, R, 0)) && Executing(S2, Request(3, R, 0)) && Step(S2, Request(3, R, 0)) == S3
  {
    hide Inv, InsertSorted, Sched.Valid, Sched.Insert, Sched.Extract;
    assert HoldsNothing(S2.res, 3);
  }

  lemma Taking()
    requires Inv(S0)
    ensures LeadsTo(S0, TAKING, S3)
  {
    Nothing(S0);
    FirstArrival();
    hide LeadsTo, Inv, Enabled, Step, Sched.Insert, Sched.Valid, InsertSorted;
    OneMore(S0, [], S0, Arrive(3, 0));
    SwitchTo(S0, [] + [Arrive(3, 0)], S1, 3, None);
    var es := [] + [Arrive(3, 0)] + [BeginFires, EndFires];
    Inside(S0, es, S2);
    FirstRequest();
    OneMore(S0, es, S2, Request(3, R, 0));
    assert es + [Request(3, R, 0)] == TAKING;
  }

  lemma Blocking2()
    requires LeadsTo(S0, TAKING, S3)
    ensures LeadsTo(S0, TAKING + BLOCKING2, S7)
  {
    hide LeadsTo, InsertSorted;
    assert M1[2 := Model(20, 1, true)] == M4;
    Preempts(TAKING, S3, 2, 1, M4);
    assert {3} + {2} == {2, 3};
    assert M4[2 := Model(20, 1, false)][3 := Model(20, 2, true)] == M6;
    LineOfOne(M6, 2);
    Blocks(TAKING + [Arrive(2, 1), BeginFires, EndFires], S5, 2, 2, M6, [2]);
    assert S5.blocked[R := [2]] == S7.blocked;
    assert TAKING + [Arrive(2, 1), BeginFires, EndFires] + [Request(2, R, 2), BeginFires, EndFires]
        == TAKING + BLOCKING2;
  }

  lemma Blocking1(es: seq<Event>)
    requires LeadsTo(S0, es, S7)
    ensures LeadsTo(S0, es + BLOCKING1, S11)
  {
    hide LeadsTo, InsertSorted;
    assert M6[1 := Model(10, 3, true)] == M8;
    Preempts(es, S7, 1, 3, M8);
    assert {2, 3} + {1} == {1, 2, 3};
    assert M8[1 := Model(10, 3, false)][3 := Model(10, 4, true)] == M10;
    LineFront(M10, [2], 1);
    Blocks(es + [Arrive(1, 3), BeginFires, EndFires], S9, 1, 4, M10, [1, 2]);
    assert S9.blocked[R := [1, 2]] == S11.blocked;
    assert es + [Arrive(1, 3), BeginFires, EndFires] + [Request(1, R, 4), BeginFires, EndFires] == es + BLOCKING1;
  }

  const M11 := Ms(Model(10, 3, false), Model(20, 1, false), Model(30, 5, true))

  lemma Returns(s: Sched)
    requires s == Sched(M10, [3]) && s.Valid()
    ensures var s2 := s.Extract(3).ChangePriority(3, 30).Insert(3, 5); s2 == Sched(M11, [3]) && s2.Valid()
  {
    LeaveEmpty(s, 3);
    hide InsertSorted, Sched.Extract, Sched.Insert;
    var s1 := s.Extract(3).ChangePriority(3, 30);
    assert s1 == Sched(M10[3 := Model(30, 4, false)], []);
    assert s1.Valid();
    InsertKeepsValid(s1, 3, 5);
    hide Sched.Valid;
    EnterEmpty(s1, 3, 5);
    assert s1.models[3 := Model(30, 5, true)] == M11;
  }

  /** The queue when task 3 comes back with its own priority and task 1 after it. */
  lemma ComeBack(s: Sched)
    requires s == Sched(M10, [3]) && s.Valid()
    ensures s.Extract(3).ChangePriority(3, 30).Insert(3, 5).Insert(1, 5) == Sched(M12, [1, 3])
  {
    Returns(s);
    hide InsertSorted, Sched.Extract, Sched.Insert, Sched.Valid;
    var s2 := s.Extract(3).ChangePriority(3, 30).Insert(3, 5);
    EnterAhead(s2, 3, 1, 5);
    assert s2.models[1 := Model(10, 5, true)] == M12;
  }

  const S12 := At(M12, [1, 3], None, Some(3), true, {1, 2, 3}, 1, [2])

  lemma HandingStep()
    requires Inv(S11)
    ensures Enabled(S11, Release(3, R, 5)) && Step(S11, Release(3, R, 5)) == S12
  {
    ComeBack(S11.k.sched);
    hide InsertSorted, Sched.Extract, Sched.Insert, Sched.Valid;
    HandOffShape(S11, 3, R, 5);
    ReleasedKernel(S11, 3, 5);
    hide Inv, ReleaseResource;
    assert [1, 2][1..] == [2];
    assert S11.res[R := S11.res[R].Unlock().Lock(1)] == S12.res;
    assert S11.blocked[R := [2]] == S12.blocked;
  }

  lemma HandingShape()
    ensures Executing(S11, Release(3, R, 5))
    ensures S12.k.beginEv && !S12.k.endEv && S12.k.curr == None && S12.k.pre == Some(3)
    ensures S12.k.sched.TaskN(0) == Some(1) && S13 == S12.(k := Rt(S12.k.sched, Some(1), Some(3), false, false, false))
  {
  }

  lemma Handing(es: seq<Event>)
    requires LeadsTo(S0, es, S11)
    ensures LeadsTo(S0, es + HANDING, S13)
  {
    HandingShape();
    hide LeadsTo, Inv, Step, Enabled, Executing, Sched.TaskN, S11, S12, S13;
    Inside(S0, es, S11);
    HandingStep();
    OneMore(S0, es, S11, Release(3, R, 5));
    SwitchTo(S0, es + [Release(3, R, 5)], S12, 1, Some(3));
    assert es + [Release(3, R, 5)] + [BeginFires, EndFires] == es + HANDING;
  }

  lemma ReleasedKernel(s: PiState, t: Task, now: int)
    requires Inv(s) && Enabled(s, Release(t, R, now)) && Waiting(s.blocked, R) != []
    ensures Step(s, Release(t, R, now)) == ReleaseResource(s, t, R, now)
    ensures var k' := ReleaseResource(s, t, R, now).k; k' == Rt(k'.sched, None, Some(t), s.k.switching, true, s.k.endEv)
  {
  }

  lemma WholeRun()
    requires Inv(S0)
    ensures LeadsTo(S0, EVENTS, S13)
  {
    hide LeadsTo, Inv;
    Taking();
    Blocking2();
    Blocking1(TAKING + BLOCKING2);
    Handing(TAKING + BLOCKING2 + BLOCKING1);
  }

  /** The run is possible from the initial state and leaves task 1 with its own priority 10 as the owner; its
      release then gives it priority 0. */
  lemma HandedOwnerJumpsToTheTop()
    ensures Initial(S0) && Inv(S0) && ValidRun(S0, EVENTS) && ExecutingRun(S0, EVENTS)
    ensures var s := Run(S0, EVENTS);
            && Inv(s) && Enabled(s, Release(1, R, 6)) && Executing(s, Release(1, R, 6))
            && s.k.sched.models[1].prio == 10
            && 1 in Step(s, Release(1, R, 6)).k.sched.models
            && Step(s, Release(1, R, 6)).k.sched.models[1].prio == 0
  {
    Beginning();
    WholeRun();
    hide Inv, Step;
    HandOffOwnerGetsZero(S13, 1, R, 6);
  }
}
