/**
 The CPUs that dispatch() posts, from the state before the call (src/mrtkernel.cpp:204-242).

 The scan looks at the state it changes. A post withdraws the dispatch of the task held by the CPU's end event;
 if another CPU took that task meanwhile, that CPU looks free from then on, and its task is no victim any more.
 */
module Selection {
  import opened Common
  import opened ReadyQueue
  import opened GlobalDispatch

  function TopEnd(s: Kernel): nat { Min(s.ncpu, |s.sched.queue|) }

  // ---------- the free CPUs ----------

  /** Posting f withdraws the dispatch of the task that c took. */
  predicate TakesFrom(s: Kernel, f: Cpu, c: Cpu) {
    f != c && f in s.switching && f in s.endTask && s.endTask[f] in s.disp && s.disp[s.endTask[f]] == c
  }

  /** CPUs in the middle of a switch that look free once an earlier free CPU is posted. */
  ghost function Freed(s: Kernel): set<Cpu> {
    set c | c in s.endEv && exists f :: f in FreeCpus(s) && f < c && TakesFrom(s, f, c)
  }

  ghost function Found(s: Kernel): set<Cpu> { FreeCpus(s) + Freed(s) }

  ghost function FreePosts(s: Kernel): set<Cpu> { FirstOf(Found(s), s.ncpu, 0, |Undispatched(s)|) }

  // ---------- the victims ----------

  /** CPUs of the tasks dispatched between the ranks a and b. */
  ghost function HostCpus(q: seq<Task>, disp: map<Task, Cpu>, a: nat, b: nat): set<Cpu>
    requires b <= |q|
  {
    set j | a <= j < b && q[j] in disp :: disp[q[j]]
  }

  /** CPUs of the first n dispatched tasks from rank i on. */
  function FirstHosts(q: seq<Task>, disp: map<Task, Cpu>, i: nat, n: nat): set<Cpu>
    decreases |q| - i
  {
    if n == 0 || i >= |q| then {}
    else if q[i] in disp then {disp[q[i]]} + FirstHosts(q, disp, i + 1, n - 1)
    else FirstHosts(q, disp, i + 1, n)
  }

  /** The number of dispatched tasks from rank i on. */
  function Left(q: seq<Task>, disp: map<Task, Cpu>, i: nat): nat
    decreases |q| - i
  {
    if i >= |q| then 0 else (if q[i] in disp then 1 else 0) + Left(q, disp, i + 1)
  }

  /** The dispatched map that the scan for victims starts with. */
  ghost function AfterFree(s: Kernel): map<Task, Cpu> { Post(s, FreePosts(s)).disp }

  ghost function VictimPosts(s: Kernel): set<Cpu> {
    var k, n := |Undispatched(s)|, |FreePosts(s)|;
    FirstHosts(s.sched.queue, AfterFree(s), TopEnd(s), if n < k then k - n else 0)
  }

  ghost function ScanPosts(s: Kernel): set<Cpu> { FreePosts(s) + VictimPosts(s) }

  /** The scan does not run out of victims. */
  ghost predicate ScanEnds(s: Kernel) {
    |Undispatched(s)| <= |FreePosts(s)| + Left(s.sched.queue, AfterFree(s), TopEnd(s))
  }

  ghost function Dispatch(s: Kernel): Kernel { Post(s, ScanPosts(s)) }

  // ---------- the first CPUs of a set ----------

  lemma {:induction false} FirstOfEnd(free: set<Cpu>, n: nat, g: nat, k: nat) returns (e: nat)
    requires g <= n
    ensures g <= e <= n && FirstOf(free, n, g, k) == Under(free, e)
    ensures |Under(free, e)| >= k || e == n
    ensures |Under(free, g)| <= k ==> |Under(free, e)| <= k
    decreases n - g
  {
    if |Under(free, g)| >= k || g == n {
      e := g;
    } else {
      UnderStep(free, g);
      e := FirstOfEnd(free, n, g + 1, k);
    }
  }

  /** If the CPUs below f are k, they are the first k. */
  lemma {:induction false} FirstOfIs(free: set<Cpu>, n: nat, g: nat, k: nat, f: nat)
    requires g <= f <= n && |Under(free, f)| == k
    ensures FirstOf(free, n, g, k) == Under(free, f)
    decreases n - g
  {
    assert Under(free, g) <= Under(free, f);
    SubsetSize(Under(free, g), Under(free, f));
    if |Under(free, g)| < k && g < n {
      FirstOfIs(free, n, g + 1, k, f);
    }
  }

  lemma FirstOfAll(free: set<Cpu>, n: nat, k: nat)
    requires free <= Below(n) && |free| <= k
    ensures FirstOf(free, n, 0, k) == free
  {
    assert Under(free, n) == free;
    var e := FirstOfEnd(free, n, 0, k);
    assert Under(free, e) <= free;
    SubsetSize(Under(free, e), free);
  }

  // ---------- the first hosts ----------

  /** The scan for n victims splits at any rank it passes. */
  lemma {:induction false} HostsSplit(q: seq<Task>, disp: map<Task, Cpu>, a: nat, i: nat, n: nat)
    requires a <= i <= |q| && Distinct(q) && Injective(disp) && |HostCpus(q, disp, a, i)| <= n
    ensures Left(q, disp, a) == |HostCpus(q, disp, a, i)| + Left(q, disp, i)
    ensures FirstHosts(q, disp, a, n)
         == HostCpus(q, disp, a, i) + FirstHosts(q, disp, i, n - |HostCpus(q, disp, a, i)|)
    decreases i - a
  {
    hide HostCpus, FirstHosts, Left, Distinct, Injective;
    if a == i {
      NoHosts(q, disp, a);
    } else {
      HostsFrom(q, disp, a, i);
      FirstHostsStep(q, disp, a, n);
      if q[a] in disp {
        var rest := HostCpus(q, disp, a + 1, i);
        OneMore(disp[q[a]], rest, FirstHosts(q, disp, i, n - 1 - |rest|));
        HostsSplit(q, disp, a + 1, i, n - 1);
      } else {
        HostsSplit(q, disp, a + 1, i, n);
      }
    }
  }

  lemma NoHosts(q: seq<Task>, disp: map<Task, Cpu>, a: nat)
    requires a <= |q|
    ensures HostCpus(q, disp, a, a) == {}
  {
  }

  lemma OneMore(p: Cpu, rest: set<Cpu>, later: set<Cpu>)
    requires p !in rest
    ensures |{p} + rest| == 1 + |rest| && {p} + (rest + later) == {p} + rest + later
  {
  }

  lemma FirstHostsStep(q: seq<Task>, disp: map<Task, Cpu>, a: nat, n: nat)
    requires a < |q|
    ensures Left(q, disp, a) == (if q[a] in disp then 1 else 0) + Left(q, disp, a + 1)
    ensures q[a] !in disp ==> FirstHosts(q, disp, a, n) == FirstHosts(q, disp, a + 1, n)
    ensures q[a] in disp && n > 0 ==> FirstHosts(q, disp, a, n) == {disp[q[a]]} + FirstHosts(q, disp, a + 1, n - 1)
  {
  }

  lemma HostsFrom(q: seq<Task>, disp: map<Task, Cpu>, a: nat, i: nat)
    requires a < i <= |q| && Distinct(q) && Injective(disp)
    ensures q[a] in disp ==> disp[q[a]] !in HostCpus(q, disp, a + 1, i)
    ensures q[a] in disp ==> HostCpus(q, disp, a, i) == {disp[q[a]]} + HostCpus(q, disp, a + 1, i)
    ensures q[a] !in disp ==> HostCpus(q, disp, a, i) == HostCpus(q, disp, a + 1, i)
  {
  }

  lemma {:induction false} FirstHostsAreHosts(q: seq<Task>, disp: map<Task, Cpu>, i: nat, n: nat, p: Cpu)
    requires p in FirstHosts(q, disp, i, n)
    ensures exists j :: i <= j < |q| && q[j] in disp && disp[q[j]] == p
    decreases |q| - i
  {
    if q[i] in disp {
      if p != disp[q[i]] {
        FirstHostsAreHosts(q, disp, i + 1, n - 1, p);
      }
    } else {
      FirstHostsAreHosts(q, disp, i + 1, n, p);
    }
  }

  lemma {:induction false} FirstHostsSize(q: seq<Task>, disp: map<Task, Cpu>, i: nat, n: nat)
    requires Distinct(q) && Injective(disp)
    ensures |FirstHosts(q, disp, i, n)| == Min(n, Left(q, disp, i))
    decreases |q| - i
  {
    if n > 0 && i < |q| {
      if q[i] in disp {
        FirstHostsSize(q, disp, i + 1, n - 1);
        var p, rest := disp[q[i]], FirstHosts(q, disp, i + 1, n - 1);
        if p in rest {
          FirstHostsAreHosts(q, disp, i + 1, n - 1, p);
          assert false;
        }
        assert |{p} + rest| == 1 + |rest|;
      } else {
        FirstHostsSize(q, disp, i + 1, n);
      }
    }
  }

  // ---------- what is posted ----------

  lemma WithdrawnOnly(s: Kernel, ps: set<Cpu>)
    ensures forall t :: t in Post(s, ps).disp <==> t in s.disp && t !in Withdrawn(s, ps)
    ensures forall t :: t in Post(s, ps).disp ==> Post(s, ps).disp[t] == s.disp[t]
  {
  }

  lemma PostLeaves(s: Kernel, ps: set<Cpu>)
    ensures Post(s, ps).sched == s.sched && Post(s, ps).ncpu == s.ncpu && Post(s, ps).exe == s.exe
  {
  }

  lemma FoundInRange(s: Kernel)
    requires Scannable(s)
    ensures Found(s) <= Below(s.ncpu)
  {
    forall c | c in Freed(s) ensures c in Below(s.ncpu) {
      assert c in s.disp.Values;
    }
  }

  /** A CPU found free and posted loses the task dispatched to it, if any. */
  lemma FreePostWithdraws(s: Kernel, p: Cpu, t: Task)
    requires Scannable(s) && p in FreePosts(s) && t in s.disp && s.disp[t] == p
    ensures t in Withdrawn(s, FreePosts(s))
  {
    FoundInRange(s);
    var e := FirstOfEnd(Found(s), s.ncpu, 0, |Undispatched(s)|);
    assert p in s.disp.Values && p in Found(s);
    var f :| f in FreeCpus(s) && f < p && TakesFrom(s, f, p);
    assert f in FreePosts(s) && s.endTask[f] == t;
  }

  /** No task stays dispatched to a CPU found free and posted. */
  lemma FreePostsHostNothing(s: Kernel, p: Cpu, t: Task)
    requires Scannable(s) && p in FreePosts(s) && t in AfterFree(s)
    ensures AfterFree(s)[t] != p
  {
    WithdrawnOnly(s, FreePosts(s));
    hide FreePosts, Withdrawn;
    if s.disp[t] == p {
      FreePostWithdraws(s, p, t);
    }
  }

  /** A victim is posted for a task below the top that is still dispatched to it. */
  lemma VictimHosts(s: Kernel, p: Cpu)
    requires p in VictimPosts(s)
    ensures exists j :: TopEnd(s) <= j < |s.sched.queue| && s.sched.queue[j] in AfterFree(s)
              && AfterFree(s)[s.sched.queue[j]] == p
  {
    var k, n := |Undispatched(s)|, |FreePosts(s)|;
    FirstHostsAreHosts(s.sched.queue, AfterFree(s), TopEnd(s), if n < k then k - n else 0, p);
  }

  lemma AfterFreeInjective(s: Kernel)
    requires Located(s)
    ensures Injective(AfterFree(s)) && AfterFree(s).Values <= s.disp.Values
  {
    WithdrawnOnly(s, FreePosts(s));
    hide FreePosts, Post;
  }

  lemma ScanPostsInRange(s: Kernel)
    requires Scannable(s)
    ensures ScanPosts(s) <= Below(s.ncpu)
  {
    FoundInRange(s);
    var e := FirstOfEnd(Found(s), s.ncpu, 0, |Undispatched(s)|);
    AfterFreeInjective(s);
    hide FreePosts, VictimPosts, AfterFree, FirstOf, Found, Undispatched;
    forall p | p in VictimPosts(s) ensures p in Below(s.ncpu) {
      VictimHosts(s, p);
      assert p in AfterFree(s).Values;
    }
  }

  /** dispatch() posts distinct CPUs, one for each undispatched top task if the scan ends. */
  lemma ScanPostsSize(s: Kernel)
    requires Scannable(s)
    ensures FreePosts(s) !! VictimPosts(s)
    ensures |ScanPosts(s)| <= |Undispatched(s)|
    ensures |ScanPosts(s)| == |Undispatched(s)| <==> ScanEnds(s)
  {
    FoundInRange(s);
    assert Under(Found(s), 0) == {};
    var e := FirstOfEnd(Found(s), s.ncpu, 0, |Undispatched(s)|);
    AfterFreeInjective(s);
    SortedIsDistinct(s.sched.models, s.sched.queue);
    var k, n := |Undispatched(s)|, |FreePosts(s)|;
    assert n <= k;
    hide FreePosts, AfterFree, FirstOf, Found, Undispatched, Scannable;
    FirstHostsSize(s.sched.queue, AfterFree(s), TopEnd(s), k - n);
    PhasesAreDisjoint(s);
    assert |FreePosts(s) + VictimPosts(s)| == n + |VictimPosts(s)|;
  }

  lemma PhasesAreDisjoint(s: Kernel)
    requires Scannable(s)
    ensures FreePosts(s) !! VictimPosts(s)
  {
    hide FreePosts, VictimPosts, AfterFree, Scannable;
    forall p | p in VictimPosts(s) ensures p !in FreePosts(s) {
      VictimHosts(s, p);
      var j :| TopEnd(s) <= j < |s.sched.queue| && s.sched.queue[j] in AfterFree(s)
        && AfterFree(s)[s.sched.queue[j]] == p;
      if p in FreePosts(s) {
        FreePostsHostNothing(s, p, s.sched.queue[j]);
      }
    }
  }

  // ---------- ownership ----------

  /** Posting a victim withdraws its own task at most. */
  lemma VictimIsGuarded(s: Kernel, p: Cpu)
    requires Scannable(s) && p in VictimPosts(s)
    ensures Guard(s, p)
  {
    VictimHosts(s, p);
    WithdrawnOnly(s, FreePosts(s));
    hide FreePosts, VictimPosts;
    assert p in s.disp.Values;
  }

  /** The posts of free CPUs harm nobody. */
  ghost predicate Undisturbed(s: Kernel) { forall p :: p in FreePosts(s) ==> Harmless(s, FreePosts(s), p) }

  lemma FreePostHarmlessIff(s: Kernel, p: Cpu)
    requires Scannable(s) && p in FreePosts(s)
    ensures Harmless(s, ScanPosts(s), p) <==> Harmless(s, FreePosts(s), p)
  {
    if !Guard(s, p) {
      var t := s.endTask[p];
      var c := s.disp[t];
      WithdrawnOnly(s, FreePosts(s));
      assert t in Withdrawn(s, FreePosts(s));
      if c in VictimPosts(s) {
        VictimHosts(s, c);
        assert false;
      }
    }
  }

  /** When dispatch() keeps ownership, or restores it after a task left in the middle of its switch. */
  lemma DispatchOwnsIff(s: Kernel)
    requires Scannable(s)
    ensures Owned(Dispatch(s)) <==>
              Undisturbed(s) && s.disp.Keys - Withdrawn(s, ScanPosts(s)) <= Elements(s.sched.queue)
  {
    ScanPostsInRange(s);
    PostOwnsIff(s, ScanPosts(s));
    hide FreePosts, VictimPosts, Scannable, Owned, Post, Harmless;
    forall p | p in FreePosts(s) ensures Harmless(s, ScanPosts(s), p) <==> Harmless(s, FreePosts(s), p) {
      FreePostHarmlessIff(s, p);
    }
    forall p | p in VictimPosts(s) ensures Harmless(s, ScanPosts(s), p) {
      VictimIsHarmless(s, p);
    }
    if Undisturbed(s) {
      assert forall p :: p in ScanPosts(s) ==> Harmless(s, ScanPosts(s), p);
    } else {
      var p :| p in FreePosts(s) && !Harmless(s, FreePosts(s), p);
      assert p in ScanPosts(s) && !Harmless(s, ScanPosts(s), p);
    }
  }

  lemma VictimIsHarmless(s: Kernel, p: Cpu)
    requires Scannable(s) && p in VictimPosts(s)
    ensures Harmless(s, ScanPosts(s), p)
  {
    VictimIsGuarded(s, p);
  }

  /** From ownership, dispatch() keeps it if and only if the free posts are harmless. */
  lemma DispatchKeepsOwnershipIff(s: Kernel)
    requires Owned(s)
    ensures Owned(Dispatch(s)) <==> Undisturbed(s)
  {
    DispatchOwnsIff(s);
  }

  // ---------- the end of the scan ----------

  /** The CPU of a task that a harmless post withdraws is posted as well. */
  lemma WithdrawnHostIsPosted(s: Kernel, t: Task)
    requires Undisturbed(s) && t in s.disp && t in Withdrawn(s, FreePosts(s))
    ensures s.disp[t] in FreePosts(s)
  {
    var f :| f in FreePosts(s) && f in s.switching && f in s.endTask && s.endTask[f] == t;
    hide FreePosts;
    assert Harmless(s, FreePosts(s), f);
  }

  /** A CPU with a task below the top is found, or left as a victim. */
  lemma LowIsFoundOrVictim(s: Kernel, t: Task)
    requires Owned(s) && Undisturbed(s) && t in s.disp && t !in Top(s)
    ensures s.disp[t] in FreePosts(s) + HostCpus(s.sched.queue, AfterFree(s), TopEnd(s), |s.sched.queue|)
  {
    WithdrawnOnly(s, FreePosts(s));
    if t in Withdrawn(s, FreePosts(s)) {
      WithdrawnHostIsPosted(s, t);
    } else {
      hide FreePosts, Undisturbed;
      var q := s.sched.queue;
      assert t in Elements(q);
      var j :| 0 <= j < |q| && q[j] == t;
      assert j >= TopEnd(s);
    }
  }

  /** While CPUs are missing, every free CPU is posted. */
  lemma FreeIsPosted(s: Kernel)
    requires Scannable(s) && |FreePosts(s)| < |Undispatched(s)|
    ensures FreeCpus(s) <= FreePosts(s)
  {
    FoundInRange(s);
    var e := FirstOfEnd(Found(s), s.ncpu, 0, |Undispatched(s)|);
    hide FirstOf, Undispatched;
    assert Under(Found(s), s.ncpu) == Found(s);
  }

  lemma LowAreFoundOrVictims(s: Kernel)
    requires Owned(s) && Undisturbed(s)
    ensures LowCpus(s) <= FreePosts(s) + HostCpus(s.sched.queue, AfterFree(s), TopEnd(s), |s.sched.queue|)
  {
    var all := FreePosts(s) + HostCpus(s.sched.queue, AfterFree(s), TopEnd(s), |s.sched.queue|);
    forall p | p in LowCpus(s) ensures p in all {
      var t :| t in s.disp && t !in Top(s) && s.disp[t] == p;
      hide FreePosts, AfterFree, HostCpus, Undisturbed;
      LowIsFoundOrVictim(s, t);
    }
  }

  /** From ownership, a scan whose free posts are harmless never runs off the queue. */
  lemma UndisturbedScanEnds(s: Kernel)
    requires Owned(s) && Undisturbed(s)
    ensures ScanEnds(s)
  {
    if |FreePosts(s)| < |Undispatched(s)| {
      var hosts := HostCpus(s.sched.queue, AfterFree(s), TopEnd(s), |s.sched.queue|);
      FreeIsPosted(s);
      LowAreFoundOrVictims(s);
      Pigeonhole(s);
      CpuPartition(s);
      AllHosts(s);
      hide FreeCpus, LowCpus, FreePosts, HostCpus, AfterFree, Left, Undispatched, Owned, Undisturbed;
      assert |FreeCpus(s) + LowCpus(s)| == |FreeCpus(s)| + |LowCpus(s)|;
      SubsetSize(FreeCpus(s) + LowCpus(s), FreePosts(s) + hosts);
    }
  }

  lemma AllHosts(s: Kernel)
    requires Scannable(s)
    ensures Left(s.sched.queue, AfterFree(s), TopEnd(s))
            == |HostCpus(s.sched.queue, AfterFree(s), TopEnd(s), |s.sched.queue|)|
  {
    var q, d := s.sched.queue, AfterFree(s);
    SortedIsDistinct(s.sched.models, q);
    AfterFreeInjective(s);
    hide AfterFree, HostCpus;
    HostsSplit(q, d, TopEnd(s), |q|, |HostCpus(q, d, TopEnd(s), |q|)|);
  }

  // ---------- progress ----------

  lemma PostedHostsNoTop(s: Kernel, p: Cpu)
    requires Scannable(s) && p in ScanPosts(s)
    ensures !Hosts(Top(s), Dispatch(s).disp, p)
  {
    PostMoreWithdraws(s, FreePosts(s), ScanPosts(s));
    hide FreePosts, VictimPosts, Post, Top;
    forall t | t in Top(s) && t in Dispatch(s).disp ensures Dispatch(s).disp[t] != p {
      assert t in AfterFree(s) && AfterFree(s)[t] == s.disp[t];
      if p in FreePosts(s) {
        FreePostsHostNothing(s, p, t);
      } else {
        VictimHostsNoTop(s, p, t);
      }
    }
  }

  lemma PostMoreWithdraws(s: Kernel, ps: set<Cpu>, ps': set<Cpu>)
    requires ps <= ps'
    ensures forall t :: t in Post(s, ps').disp ==>
              t in Post(s, ps).disp && Post(s, ps').disp[t] == Post(s, ps).disp[t] == s.disp[t]
  {
    assert Withdrawn(s, ps) <= Withdrawn(s, ps');
  }

  lemma VictimHostsNoTop(s: Kernel, p: Cpu, t: Task)
    requires Scannable(s) && p in VictimPosts(s) && t in Top(s) && t in AfterFree(s)
    ensures AfterFree(s)[t] != p
  {
    VictimHosts(s, p);
    AfterFreeInjective(s);
    SortedIsDistinct(s.sched.models, s.sched.queue);
    hide FreePosts, VictimPosts, AfterFree;
    var q := s.sched.queue;
    var j :| TopEnd(s) <= j < |q| && q[j] in AfterFree(s) && AfterFree(s)[q[j]] == p;
    var i :| 0 <= i < TopEnd(s) && q[..TopEnd(s)][i] == t;
    assert q[i] == t;
  }

  /** Every task below the top that stays dispatched is on a CPU with a pending begin event. */
  ghost predicate Covered(s: Kernel, ps: set<Cpu>) {
    forall t :: t in s.disp && t !in Top(s) && t !in Withdrawn(s, ps) ==> s.disp[t] in s.beginEv + ps
  }

  /** The top tasks whose dispatch the posts withdraw are no more than the other pending CPUs without a top task. */
  ghost predicate Enough(s: Kernel, ps: set<Cpu>) {
    |Top(s) * s.disp.Keys * Withdrawn(s, ps)| <= |Serving(Top(s), Post(s, ps).disp, s.beginEv - ps)|
  }

  /** The exact condition under which posting as many CPUs as there are undispatched top tasks, none of which keeps
      a top task, leaves enough pending begin events. */
  lemma PostBalancesIff(s: Kernel, ps: set<Cpu>)
    requires |ps| == |Undispatched(s)| && forall p :: p in ps ==> !Hosts(Top(s), Post(s, ps).disp, p)
    ensures Balanced(Top(s), Post(s, ps).disp, s.beginEv + ps) <==> Covered(s, ps) && Enough(s, ps)
  {
    var top, disp, w := Top(s), Post(s, ps).disp, Withdrawn(s, ps);
    WithdrawnOnly(s, ps);
    hide Top, Post, Withdrawn, Hosts;
    MissingAfter(top, s.disp, disp, w);
    ServingAfter(top, disp, s.beginEv, ps);
    hide Missing, Serving;
    assert Covered(s, ps) <==> forall t :: t in disp && t !in top ==> disp[t] in s.beginEv + ps;
  }

  lemma MissingAfter(top: set<Task>, disp: map<Task, Cpu>, disp': map<Task, Cpu>, w: set<Task>)
    requires forall t :: t in disp' <==> t in disp && t !in w
    ensures |Missing(top, disp')| == |Missing(top, disp)| + |top * disp.Keys * w|
  {
    assert Missing(top, disp') == Missing(top, disp) + top * disp.Keys * w;
    assert Missing(top, disp) !! top * disp.Keys * w;
  }

  lemma ServingAfter(top: set<Task>, disp: map<Task, Cpu>, pending: set<Cpu>, ps: set<Cpu>)
    requires forall p :: p in ps ==> !Hosts(top, disp, p)
    ensures |Serving(top, disp, pending + ps)| == |ps| + |Serving(top, disp, pending - ps)|
  {
    hide Hosts;
    assert Serving(top, disp, pending + ps) == ps + Serving(top, disp, pending - ps);
    assert ps !! Serving(top, disp, pending - ps);
  }

  /** When dispatch() leads to the progress invariant: ownership, and no top task withdrawn without a CPU for it. */
  lemma DispatchKeepsInvIff(s: Kernel)
    requires Scannable(s) && ScanEnds(s)
    ensures Inv(Dispatch(s)) <==> Owned(Dispatch(s)) && Covered(s, ScanPosts(s)) && Enough(s, ScanPosts(s))
  {
    ScanPostsSize(s);
    hide Scannable, ScanPosts, ScanEnds, Undispatched, Owned, Covered, Enough, Balanced;
    forall p | p in ScanPosts(s) ensures !Hosts(Top(s), Post(s, ScanPosts(s)).disp, p) {
      PostedHostsNoTop(s, p);
    }
    PostBalancesIff(s, ScanPosts(s));
    assert Top(Dispatch(s)) == Top(s);
  }

  // ---------- with every selected CPU guarded ----------

  lemma HostsAreLow(q: seq<Task>, disp: map<Task, Cpu>, a: nat)
    requires Distinct(q) && a <= |q| && disp.Keys <= Elements(q)
    ensures HostCpus(q, disp, a, |q|) == Image(disp, disp.Keys - Elements(q[..a]))
  {
    forall j | a <= j < |q| && q[j] in disp ensures disp[q[j]] in Image(disp, disp.Keys - Elements(q[..a])) {
      assert q[j] !in q[..a];
    }
    forall t | t in disp && t !in Elements(q[..a]) ensures disp[t] in HostCpus(q, disp, a, |q|) {
      assert t in Elements(q);
      var j :| 0 <= j < |q| && q[j] == t;
      assert forall k :: 0 <= k < a ==> q[..a][k] == q[k];
    }
  }

  /** Enough free CPUs: the scan never gets to a CPU that an unguarded post would free. */
  lemma EnoughFree(s: Kernel)
    requires |Undispatched(s)| <= |FreeCpus(s)|
    requires forall p :: p in FirstOf(FreeCpus(s), s.ncpu, 0, |Undispatched(s)|) ==> Guard(s, p)
    ensures FreePosts(s) == FirstOf(FreeCpus(s), s.ncpu, 0, |Undispatched(s)|)
    ensures |FreePosts(s)| == |Undispatched(s)|
  {
    var n, k, free := s.ncpu, |Undispatched(s)|, FreeCpus(s);
    hide Undispatched;
    assert Under(free, 0) == {};
    var e := FirstOfEnd(free, n, 0, k);
    FirstOfSize(free, n, 0, k);
    FreedAreLater(s, e);
    hide FreeCpus, Freed, FirstOf, Under;
    UnderSame(free, Freed(s), e);
    FirstOfIs(Found(s), n, 0, k, e);
  }

  lemma UnderSame(free: set<Cpu>, later: set<Cpu>, e: nat)
    requires forall c :: c in later ==> e <= c
    ensures Under(free + later, e) == Under(free, e)
  {
  }

  lemma FreedAreLater(s: Kernel, e: nat)
    requires forall p :: p in Under(FreeCpus(s), e) ==> Guard(s, p)
    ensures forall c :: c in Freed(s) ==> e <= c
  {
    hide FreeCpus;
    forall c | c in Freed(s) ensures e <= c {
      var f :| f in FreeCpus(s) && f < c && TakesFrom(s, f, c);
      assert f !in Under(FreeCpus(s), e);
    }
  }

  /** Too few: every free CPU is posted, and nothing is withdrawn. */
  lemma AllFree(s: Kernel)
    requires |FreeCpus(s)| < |Undispatched(s)| && forall p :: p in FreeCpus(s) ==> Guard(s, p)
    ensures FreePosts(s) == FreeCpus(s) && AfterFree(s) == s.disp
  {
    FreeWithdrawNothing(s);
    assert Freed(s) == {};
    hide Undispatched, FirstOf, Withdrawn, Freed;
    FirstOfAll(FreeCpus(s), s.ncpu, |Undispatched(s)|);
    assert Found(s) == FreeCpus(s);
  }

  lemma FreeWithdrawNothing(s: Kernel)
    requires forall p :: p in FreeCpus(s) ==> Guard(s, p)
    ensures s.disp - Withdrawn(s, FreeCpus(s)) == s.disp
  {
    forall t | t in s.disp ensures t !in Withdrawn(s, FreeCpus(s)) {
      assert s.disp[t] in s.disp.Values;
    }
  }

  lemma LowAreVictims(s: Kernel, n: nat)
    requires s.sched.Valid() && Placed(s) && n == |LowCpus(s)|
    ensures FirstHosts(s.sched.queue, s.disp, TopEnd(s), n) == LowCpus(s) && Left(s.sched.queue, s.disp, TopEnd(s)) == n
  {
    var q := s.sched.queue;
    SortedIsDistinct(s.sched.models, q);
    HostsAreLow(q, s.disp, TopEnd(s));
    HostsSplit(q, s.disp, TopEnd(s), |q|, n);
  }

  /** With every selected CPU guarded the scan ends, and it posts exactly the right CPUs. */
  lemma GuardedScanIsChosen(s: Kernel)
    requires Owned(s) && DispatchSafe(s)
    ensures ScanEnds(s) && ScanPosts(s) == Chosen(s)
  {
    if |Undispatched(s)| <= |FreeCpus(s)| {
      hide FirstOf, FreeCpus, LowCpus, Undispatched, FreePosts, Guard, Owned;
      EnoughFree(s);
      NoVictims(s);
    } else {
      GuardedVictims(s);
      hide FreeCpus, LowCpus, Undispatched, ScanPosts, ScanEnds;
    }
  }

  lemma NoVictims(s: Kernel)
    requires |FreePosts(s)| == |Undispatched(s)|
    ensures ScanEnds(s) && ScanPosts(s) == FreePosts(s)
  {
    hide FreePosts, Undispatched, AfterFree, Left;
    assert VictimPosts(s) == {};
  }

  lemma GuardedVictims(s: Kernel)
    requires Owned(s) && DispatchSafe(s) && |FreeCpus(s)| < |Undispatched(s)|
    ensures ScanEnds(s) && ScanPosts(s) == FreeCpus(s) + LowCpus(s)
  {
    ChosenIsRight(s);
    assert Chosen(s) == FreeCpus(s) + LowCpus(s);
    CpuPartition(s);
    hide Chosen, Undispatched, FreeCpus, LowCpus, Placed, Backed, Phased, Sched.Valid;
    assert |FreeCpus(s) + LowCpus(s)| == |FreeCpus(s)| + |LowCpus(s)|;
    AllFree(s);
    LowAreVictims(s, |LowCpus(s)|);
    hide FreePosts, AfterFree;
  }

  /** dispatch() establishes the invariant from ownership, as long as every CPU it selects is guarded. */
  lemma DispatchEstablishesInv(s: Kernel)
    requires Owned(s) && DispatchSafe(s)
    ensures Inv(Dispatch(s))
    ensures Top(Dispatch(s)) == Top(s) && Undispatched(Dispatch(s)) == Undispatched(s)
  {
    GuardedScanIsChosen(s);
    var s' := Dispatch(s);
    var ps := Chosen(s);
    ChosenIsRight(s);
    PostKeepsOwnership(s, ps);
    PostKeepsTop(s, ps);
    Pigeonhole(s);
    assert ps !! TopCpus(s);
    assert LowCpus(s) <= ps || LowCpus(s) == {};
    hide ScanPosts, Chosen, Owned;
    BalancedWhenChosen(s', ps);
  }
}
