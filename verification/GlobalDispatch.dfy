/**
 Global multiprocessor dispatch as a state machine (src/mrtkernel.cpp).

 A handler is one atomic step; a pending begin or end event is a flag of its CPU. The times of
 the events are abstracted: a pending event may fire at any later step, in any order, which
 covers every choice of context-switch and migration delays. CPUs are numbered in the order of
 the kernel's CPU map. A NULL entry of a pointer map is the absence of the key.
 */
module GlobalDispatch {
  import opened Common
  import opened ReadyQueue

  type Cpu = nat

  datatype Kernel = Kernel(
    ncpu: nat,
    sched: Sched,
    exe: map<Cpu, Task>,       // _m_currExe
    disp: map<Task, Cpu>,      // _m_dispatched
    oldExe: map<Task, Cpu>,    // _m_oldExe
    switching: set<Cpu>,       // _isContextSwitching
    endTask: map<Cpu, Task>,   // the task held by each CPU's end event, pending or not
    beginEv: set<Cpu>,         // CPUs whose begin event is pending
    endEv: set<Cpu>,           // CPUs whose end event is pending
    contextSwitches: nat,
    migrations: nat)

  function Init(ncpu: nat, sched: Sched): Kernel {
    Kernel(ncpu, sched, map[], map[], map[], {}, map[], {}, {}, 0, 0)
  }

  /** No two tasks are dispatched to one CPU. */
  ghost predicate Located(s: Kernel) { Injective(s.disp) && s.disp.Values <= Below(s.ncpu) }

  /** Only queued tasks are dispatched. */
  ghost predicate Queued(s: Kernel) { s.disp.Keys <= Elements(s.sched.queue) }

  ghost predicate Placed(s: Kernel) { Located(s) && Queued(s) }

  /** An executing task is dispatched to its CPU; a task held by a pending end event is dispatched to
      that CPU; and no other task is dispatched. */
  ghost predicate Backed(s: Kernel) {
    && (forall p :: p in s.exe ==> s.exe[p] in s.disp && s.disp[s.exe[p]] == p)
    && (forall p :: p in s.endEv ==> p in s.endTask && s.endTask[p] in s.disp && s.disp[s.endTask[p]] == p)
    && (forall t :: t in s.disp ==>
          || (s.disp[t] in s.exe && s.exe[s.disp[t]] == t)
          || (s.disp[t] in s.endEv && s.endTask[s.disp[t]] == t))
  }

  /** A switching CPU is idle, and at most one of its two events is pending. */
  ghost predicate Phased(s: Kernel) {
    && s.endEv <= s.switching <= s.endTask.Keys
    && s.exe.Keys !! s.switching
    && s.beginEv !! s.endEv
    && s.beginEv <= Below(s.ncpu)
  }

  /** Two-phase ownership. */
  ghost predicate Owned(s: Kernel) {
    s.sched.Valid() && Placed(s) && Backed(s) && Phased(s)
  }

  /** All of ownership, but a task that left the queue in the middle of its switch may still have its CPU. */
  ghost predicate Scannable(s: Kernel) {
    s.sched.Valid() && Located(s) && Backed(s) && Phased(s)
  }

  /** No task executes on two CPUs, and no executing task is about to start on another one. */
  lemma NoTaskOnTwoCpus(s: Kernel, p: Cpu, c: Cpu)
    requires Owned(s) && p in s.exe
    ensures c in s.exe && s.exe[c] == s.exe[p] ==> c == p
    ensures c in s.endEv ==> c != p && s.endTask[c] != s.exe[p]
  {
  }

  // ---------- ranks ----------

  function Min(a: nat, b: nat): nat { if a < b then a else b }

  /** The tasks that should be running: the first ncpu of the queue. */
  ghost function Top(s: Kernel): set<Task> {
    Elements(s.sched.queue[..Min(s.ncpu, |s.sched.queue|)])
  }

  ghost function Missing(top: set<Task>, disp: map<Task, Cpu>): set<Task> {
    set t | t in top && t !in disp
  }

  ghost function Undispatched(s: Kernel): set<Task> { Missing(Top(s), s.disp) }

  ghost function FreeCpus(s: Kernel): set<Cpu> { Below(s.ncpu) - s.disp.Values }

  /** CPUs that hold a task of the top. */
  ghost function TopCpus(s: Kernel): set<Cpu> { Image(s.disp, Top(s) * s.disp.Keys) }

  /** CPUs that hold a dispatched task below the top. */
  ghost function LowCpus(s: Kernel): set<Cpu> { Image(s.disp, s.disp.Keys - Top(s)) }

  lemma CpuPartition(s: Kernel)
    requires Placed(s)
    ensures Below(s.ncpu) == FreeCpus(s) + TopCpus(s) + LowCpus(s)
    ensures FreeCpus(s) !! TopCpus(s) !! LowCpus(s)
  {
    HostsPartition(s.disp, Top(s));
    hide Top;
    assert TopCpus(s) + LowCpus(s) == s.disp.Values;
  }

  /** The CPUs of the dispatched tasks, split by membership in the top. */
  lemma HostsPartition(disp: map<Task, Cpu>, top: set<Task>)
    requires Injective(disp)
    ensures Image(disp, top * disp.Keys) + Image(disp, disp.Keys - top) == disp.Values
    ensures Image(disp, top * disp.Keys) !! Image(disp, disp.Keys - top)
  {
    forall p | p in disp.Values ensures p in Image(disp, top * disp.Keys) + Image(disp, disp.Keys - top) {
      var t :| t in disp && disp[t] == p;
      assert t in top * disp.Keys || t in disp.Keys - top;
    }
  }

  lemma TopSize(s: Kernel)
    requires s.sched.Valid()
    ensures |Top(s)| == Min(s.ncpu, |s.sched.queue|)
  {
    var q := s.sched.queue;
    SortedIsDistinct(s.sched.models, q);
    DistinctSize(q[..Min(s.ncpu, |q|)]);
  }

  lemma CountByAssignment(cpus: set<Cpu>, top: set<Task>, disp: map<Task, Cpu>)
    requires Injective(disp) && disp.Values <= cpus
    ensures |cpus - disp.Values| + |Image(disp, disp.Keys - top)| == |Missing(top, disp)| + |cpus| - |top|
  {
    assert Missing(top, disp) == top - disp.Keys;
    SplitSize(top, disp.Keys);
    SplitSize(disp.Keys, top);
    SplitSize(cpus, disp.Values);
    ImageSize(disp, disp.Keys);
    ImageSize(disp, disp.Keys - top);
    assert Image(disp, disp.Keys) == disp.Values;
    assert cpus * disp.Values == disp.Values;
    assert disp.Keys * top == top * disp.Keys;
  }

  /** The pigeonhole: CPUs free or holding a task below the top make up for the undispatched top tasks
      and the CPUs the queue is too short to fill. */
  lemma Pigeonhole(s: Kernel)
    requires s.sched.Valid() && Placed(s)
    ensures |FreeCpus(s)| + |LowCpus(s)| == |Undispatched(s)| + s.ncpu - |Top(s)|
    ensures |Top(s)| == Min(s.ncpu, |s.sched.queue|)
    ensures |s.sched.queue| <= s.ncpu ==> LowCpus(s) == {}
  {
    TopSize(s);
    CountByAssignment(Below(s.ncpu), Top(s), s.disp);
    var q := s.sched.queue;
    if |q| <= s.ncpu {
      assert q[..|q|] == q;
    }
  }

  // ---------- dispatch(CPU*) ----------

  /** Re-dispatching CPU p is harmless when the task of its unfinished switch, if any, has not
      been taken by another CPU meanwhile. */
  predicate Guard(s: Kernel, p: Cpu) {
    p in s.switching && p in s.endTask && s.endTask[p] in s.disp ==> s.disp[s.endTask[p]] == p
  }

  function DispatchCpu(s: Kernel, p: Cpu): Kernel {
    var s1 := s.(contextSwitches := s.contextSwitches + 1, beginEv := s.beginEv + {p});
    if p in s.switching then
      s1.(endEv := s.endEv - {p}, disp := if p in s.endTask then s.disp - {s.endTask[p]} else s.disp)
    else s1
  }

  lemma DispatchCpuKeepsOwnershipIffGuard(s: Kernel, p: Cpu)
    requires Owned(s) && p < s.ncpu
    ensures Owned(DispatchCpu(s, p)) <==> Guard(s, p)
  {
    var s' := DispatchCpu(s, p);
    if p in s.switching {
      var t := s.endTask[p];
      if Guard(s, p) {
        assert s'.disp.Values <= s.disp.Values;
        assert Placed(s');
        assert Backed(s');
      } else {
        var c := s.disp[t];
        assert c != p && t !in s'.disp;
        assert (c in s'.exe && s'.exe[c] == t) || (c in s'.endEv && s'.endTask[c] == t);
      }
    }
  }

  // ---------- dispatch() ----------

  /** The tasks whose dispatch is withdrawn when the CPUs of ps are re-dispatched. */
  function Withdrawn(s: Kernel, ps: set<Cpu>): set<Task> {
    set p | p in ps && p in s.switching && p in s.endTask :: s.endTask[p]
  }

  /** The effect of dispatch(CPU*) on each CPU of ps. */
  function Post(s: Kernel, ps: set<Cpu>): Kernel {
    s.(beginEv := s.beginEv + ps,
       endEv := s.endEv - (ps * s.switching),
       disp := s.disp - Withdrawn(s, ps),
       contextSwitches := s.contextSwitches + |ps|)
  }

  lemma PostOne(s: Kernel, ps: set<Cpu>, p: Cpu)
    requires p !in ps
    ensures DispatchCpu(Post(s, ps), p) == Post(s, ps + {p})
  {
    assert s.beginEv + ps + {p} == s.beginEv + (ps + {p});
    assert |ps + {p}| == |ps| + 1;
    if p in s.switching {
      assert s.endEv - (ps * s.switching) - {p} == s.endEv - ((ps + {p}) * s.switching);
    } else {
      assert ps * s.switching == (ps + {p}) * s.switching;
    }
    if p in s.switching && p in s.endTask {
      assert Withdrawn(s, ps + {p}) == Withdrawn(s, ps) + {s.endTask[p]};
      assert s.disp - Withdrawn(s, ps) - {s.endTask[p]} == s.disp - Withdrawn(s, ps + {p});
    } else {
      assert Withdrawn(s, ps + {p}) == Withdrawn(s, ps);
    }
  }

  function Under(free: set<Cpu>, f: nat): set<Cpu> { set p | p in free && p < f }

  /** The first k CPUs of free in CPU order, found by a scan from f to n. */
  function FirstOf(free: set<Cpu>, n: nat, f: nat, k: nat): set<Cpu>
    requires f <= n
    decreases n - f
  {
    if |Under(free, f)| >= k || f == n then Under(free, f) else FirstOf(free, n, f + 1, k)
  }

  lemma UnderStep(free: set<Cpu>, f: nat)
    ensures Under(free, f + 1) == if f in free then Under(free, f) + {f} else Under(free, f)
    ensures |Under(free, f + 1)| == |Under(free, f)| + if f in free then 1 else 0
  {
    assert Under(free, f + 1) == if f in free then Under(free, f) + {f} else Under(free, f);
  }

  lemma {:induction false} FirstOfSize(free: set<Cpu>, n: nat, f: nat, k: nat)
    requires f <= n && |Under(free, f)| <= k <= |free| && free <= Below(n)
    ensures |FirstOf(free, n, f, k)| == k && FirstOf(free, n, f, k) <= free
    decreases n - f
  {
    if f == n {
      assert Under(free, f) == free;
    } else if |Under(free, f)| < k {
      UnderStep(free, f);
      FirstOfSize(free, n, f + 1, k);
    }
  }

  /** The CPUs dispatch() selects: free CPUs in order while there are enough, otherwise every CPU
      that does not hold a task of the top. */
  ghost function Chosen(s: Kernel): set<Cpu> {
    Select(FreeCpus(s), LowCpus(s), s.ncpu, |Undispatched(s)|)
  }

  function Select(free: set<Cpu>, low: set<Cpu>, n: nat, k: nat): set<Cpu> {
    if k <= |free| then FirstOf(free, n, 0, k) else free + low
  }

  /** dispatch() selects as many CPUs as there are undispatched top tasks, none of which holds a top
      task; with a queue of at least ncpu tasks it selects every other CPU. */
  lemma ChosenIsRight(s: Kernel)
    requires s.sched.Valid() && Placed(s)
    ensures |Chosen(s)| == |Undispatched(s)|
    ensures Chosen(s) <= FreeCpus(s) + LowCpus(s) && Chosen(s) <= Below(s.ncpu) && Chosen(s) !! TopCpus(s)
    ensures s.ncpu <= |s.sched.queue| ==> Chosen(s) == FreeCpus(s) + LowCpus(s)
  {
    Pigeonhole(s);
    CpuPartition(s);
    var k := |Undispatched(s)|;
    assert |FreeCpus(s) + LowCpus(s)| == |FreeCpus(s)| + |LowCpus(s)|;
    if k <= |FreeCpus(s)| {
      assert Under(FreeCpus(s), 0) == {};
      FirstOfSize(FreeCpus(s), s.ncpu, 0, k);
    }
    if s.ncpu <= |s.sched.queue| {
      SubsetSize(Chosen(s), FreeCpus(s) + LowCpus(s));
    }
  }

  ghost predicate DispatchSafe(s: Kernel) {
    forall p :: p in Chosen(s) ==> Guard(s, p)
  }

  lemma PostKeepsOthers(s: Kernel, ps: set<Cpu>, t: Task)
    requires forall p :: p in ps ==> Guard(s, p)
    requires t in s.disp && s.disp[t] !in ps
    ensures t in Post(s, ps).disp
  {
    assert t !in Withdrawn(s, ps);
  }

  /** Posting p, one of ps, harms nobody: it is guarded, or the CPU that took the task of its unfinished switch is
      still switching and posted as well. */
  ghost predicate Harmless(s: Kernel, ps: set<Cpu>, p: Cpu) {
    Guard(s, p) || (s.disp[s.endTask[p]] in ps && s.disp[s.endTask[p]] in s.endEv)
  }

  /** The exact condition under which posting any set of CPUs, in any order, keeps ownership. */
  lemma PostKeepsOwnershipIff(s: Kernel, ps: set<Cpu>)
    requires Owned(s) && ps <= Below(s.ncpu)
    ensures Owned(Post(s, ps)) <==> forall p :: p in ps ==> Harmless(s, ps, p)
  {
    PostOwnsIff(s, ps);
  }

  /** The same when a task may have left the queue in the middle of its switch: its dispatch has to be withdrawn. */
  lemma PostOwnsIff(s: Kernel, ps: set<Cpu>)
    requires Scannable(s) && ps <= Below(s.ncpu)
    ensures Owned(Post(s, ps)) <==>
              (forall p :: p in ps ==> Harmless(s, ps, p)) && s.disp.Keys - Withdrawn(s, ps) <= Elements(s.sched.queue)
  {
    if forall p :: p in ps ==> Harmless(s, ps, p) {
      HarmlessPosts(s, ps);
    } else {
      var p :| p in ps && !Harmless(s, ps, p);
      HarmfulPostUnbacks(s, ps, p);
    }
  }

  lemma HarmfulPostUnbacks(s: Kernel, ps: set<Cpu>, p: Cpu)
    requires Backed(s) && p in ps && !Harmless(s, ps, p)
    ensures !Backed(Post(s, ps))
  {
    var s' := Post(s, ps);
    var t := s.endTask[p];
    var c := s.disp[t];
    assert t in Withdrawn(s, ps) && t !in s'.disp;
    assert (c in s'.exe && s'.exe[c] == t) || (c in s'.endEv && s'.endTask[c] == t);
  }

  lemma HarmlessPosts(s: Kernel, ps: set<Cpu>)
    requires Scannable(s) && ps <= Below(s.ncpu)
    requires forall p :: p in ps ==> Harmless(s, ps, p)
    ensures Scannable(Post(s, ps)) && Post(s, ps).disp.Keys == s.disp.Keys - Withdrawn(s, ps)
  {
    var s' := Post(s, ps);
    assert s'.disp.Values <= s.disp.Values;
    assert Located(s');
    hide Sched.Valid, Located;
    HarmlessPostsKeepBacked(s, ps);
  }

  lemma HarmlessPostsKeepBacked(s: Kernel, ps: set<Cpu>)
    requires Backed(s) && Phased(s) && forall p :: p in ps ==> Harmless(s, ps, p)
    ensures Backed(Post(s, ps))
  {
    var s' := Post(s, ps);
    forall p | p in s'.exe ensures s'.exe[p] in s'.disp {
      assert s.exe[p] !in Withdrawn(s, ps);
    }
    forall p | p in s'.endEv ensures s'.endTask[p] in s'.disp {
      assert s.endTask[p] !in Withdrawn(s, ps);
    }
  }

  lemma PostKeepsOwnership(s: Kernel, ps: set<Cpu>)
    requires Owned(s) && ps <= Below(s.ncpu)
    requires forall p :: p in ps ==> Guard(s, p)
    ensures Owned(Post(s, ps))
  {
    assert forall p :: p in ps ==> Harmless(s, ps, p);
    PostKeepsOwnershipIff(s, ps);
  }

  lemma PostKeepsTop(s: Kernel, ps: set<Cpu>)
    requires ps !! TopCpus(s)
    requires forall p :: p in ps ==> Guard(s, p)
    ensures Top(Post(s, ps)) == Top(s)
    ensures Undispatched(Post(s, ps)) == Undispatched(s)
    ensures TopCpus(Post(s, ps)) == TopCpus(s)
    ensures LowCpus(Post(s, ps)) <= LowCpus(s)
  {
    var disp' := Post(s, ps).disp;
    forall t | t in Top(s) && t in s.disp ensures t in disp' {
      assert s.disp[t] in TopCpus(s);
      PostKeepsOthers(s, ps, t);
    }
    assert Top(s) * s.disp.Keys == Top(s) * disp'.Keys;
    assert disp'.Keys - Top(s) <= s.disp.Keys - Top(s);
  }

  // ---------- the invariant at every step ----------

  ghost predicate Hosts(top: set<Task>, disp: map<Task, Cpu>, p: Cpu) {
    exists t :: t in top && t in disp && disp[t] == p
  }

  /** The pending CPUs that do not hold a task of the top. */
  ghost function Serving(top: set<Task>, disp: map<Task, Cpu>, pending: set<Cpu>): set<Cpu> {
    set p | p in pending && !Hosts(top, disp, p)
  }

  ghost predicate Balanced(top: set<Task>, disp: map<Task, Cpu>, pending: set<Cpu>) {
    && (forall t :: t in disp && t !in top ==> disp[t] in pending)
    && |Missing(top, disp)| <= |Serving(top, disp, pending)|
  }

  /** Progress towards the right assignment: a task below the top that holds a CPU has a begin event
      pending there, and enough begin events are pending on CPUs without a top task to serve every
      undispatched top task. */
  ghost predicate Inv(s: Kernel) {
    Owned(s) && Balanced(Top(s), s.disp, s.beginEv)
  }

  lemma BalancedWhenChosen(s: Kernel, ps: set<Cpu>)
    requires ps <= s.beginEv && ps !! TopCpus(s) && |ps| == |Undispatched(s)|
    requires LowCpus(s) <= s.beginEv
    ensures Balanced(Top(s), s.disp, s.beginEv)
  {
    assert forall p :: Hosts(Top(s), s.disp, p) ==> p in TopCpus(s);
    SubsetSize(ps, Serving(Top(s), s.disp, s.beginEv));
    assert forall t :: t in s.disp && t !in Top(s) ==> s.disp[t] in LowCpus(s);
  }
}
