/**
 The loops of dispatch(): what they have counted, found and posted at each point (src/mrtkernel.cpp:204-242).
 */
module DispatchScan {
  import opened Common
  import opened ReadyQueue
  import opened GlobalDispatch
  import opened GlobalSteps
  import opened Selection

  // ---------- counting the new tasks ----------

  lemma MissingStep(q: seq<Task>, i: nat, disp: map<Task, Cpu>)
    requires i < |q| && Distinct(q)
    ensures |Missing(Elements(q[..i + 1]), disp)|
            == |Missing(Elements(q[..i]), disp)| + if q[i] in disp then 0 else 1
  {
    assert q[..i + 1] == q[..i] + [q[i]];
    if q[i] in disp {
      assert Missing(Elements(q[..i + 1]), disp) == Missing(Elements(q[..i]), disp);
    } else {
      assert q[i] !in q[..i];
      assert Missing(Elements(q[..i + 1]), disp) == Missing(Elements(q[..i]), disp) + {q[i]};
    }
  }

  lemma CountStep(s: Kernel, i: nat)
    requires Scannable(s) && i < |s.sched.queue|
    ensures var t := s.sched.queue[i];
            |Missing(Elements(s.sched.queue[..i + 1]), s.disp)|
            == |Missing(Elements(s.sched.queue[..i]), s.disp)|
               + if ProcessorOf(s, t).None? && t !in s.disp then 1 else 0
  {
    assert ProcessorOf(s, s.sched.queue[i]).Some? ==> s.sched.queue[i] in s.disp;
    SortedIsDistinct(s.sched.models, s.sched.queue);
    MissingStep(s.sched.queue, i, s.disp);
  }

  // ---------- the free CPUs ----------

  /** The CPUs posted when the scan has looked at the CPUs below f and at the ranks from the end of the top to i. */
  ghost function Picked(s: Kernel, f: nat, i: nat): set<Cpu>
    requires i <= |s.sched.queue|
  {
    Under(Found(s), f) + HostCpus(s.sched.queue, AfterFree(s), TopEnd(s), i)
  }

  lemma ScanStart(s: Kernel)
    ensures Picked(s, 0, TopEnd(s)) == {} && Post(s, {}) == s
  {
    assert Withdrawn(s, {}) == {};
    assert s.disp - {} == s.disp;
  }

  /** A CPU is found when, with the ones found before it posted, it is idle and no task is dispatched to it. */
  lemma FoundNow(s: Kernel, p: Cpu)
    requires Scannable(s) && p < s.ncpu
    ensures p in Found(s) <==> p !in s.exe && p !in Post(s, Under(Found(s), p)).disp.Values
  {
    if p in Found(s) {
      FoundIsFree(s, p);
    } else if p !in s.exe {
      NotFoundIsHost(s, p);
    }
  }

  lemma FoundIsFree(s: Kernel, p: Cpu)
    requires Scannable(s) && p in Found(s)
    ensures p !in s.exe && p !in Post(s, Under(Found(s), p)).disp.Values
  {
    var ps := Under(Found(s), p);
    WithdrawnOnly(s, ps);
    if p in Freed(s) {
      var f :| f in FreeCpus(s) && f < p && TakesFrom(s, f, p);
      assert f in ps && s.endTask[f] in Withdrawn(s, ps);
    }
  }

  lemma NotFoundIsHost(s: Kernel, p: Cpu)
    requires Scannable(s) && p < s.ncpu && p !in Found(s) && p !in s.exe
    ensures p in Post(s, Under(Found(s), p)).disp.Values
  {
    var ps := Under(Found(s), p);
    WithdrawnOnly(s, ps);
    assert p in s.disp.Values;
    var t :| t in s.disp && s.disp[t] == p;
    HostKeepsTask(s, p, t);
    assert Post(s, ps).disp[t] == p;
  }

  /** No CPU found before p holds the task dispatched to p. */
  lemma HostKeepsTask(s: Kernel, p: Cpu, t: Task)
    requires Scannable(s) && p !in Found(s) && p !in s.exe && t in s.disp && s.disp[t] == p
    ensures t !in Withdrawn(s, Under(Found(s), p))
  {
    assert p in s.endEv;
    forall c | c in Under(Found(s), p) && c in s.switching && c in s.endTask ensures s.endTask[c] != t {
      assert s.endTask[c] == t ==> TakesFrom(s, c, p);
      assert c in Freed(s) ==> s.disp[s.endTask[c]] == c;
    }
  }

  /** No CPU is found among those that do not look free. */
  lemma {:induction false} NoneBetween(s: Kernel, g: nat, f: nat)
    requires Scannable(s) && g <= f <= s.ncpu
    requires forall p :: g <= p < f ==> p in s.exe || p in Post(s, Under(Found(s), g)).disp.Values
    ensures Under(Found(s), f) == Under(Found(s), g)
    decreases f - g
  {
    hide Scannable, Found, Post;
    if g < f {
      NoneBetween(s, g, f - 1);
      FoundNow(s, f - 1);
      UnderStep(Found(s), f - 1);
    }
  }

  lemma NotUnder(free: set<Cpu>, f: nat)
    ensures f !in Under(free, f)
  {
  }

  lemma PickedFree(s: Kernel, f: nat)
    ensures Picked(s, f, TopEnd(s)) == Under(Found(s), f)
  {
    assert HostCpus(s.sched.queue, AfterFree(s), TopEnd(s), TopEnd(s)) == {};
  }

  /** The next CPU that looks free is the next one found, and posting it extends the selection by it. */
  lemma FreeStep(s: Kernel, g: nat, f: nat, i: nat)
    requires Scannable(s) && g <= f <= s.ncpu && TopEnd(s) <= i <= |s.sched.queue| && (g < s.ncpu ==> i == TopEnd(s))
    requires f < s.ncpu ==> f !in s.exe && f !in Post(s, Picked(s, g, i)).disp.Values
    requires forall p :: g <= p < f ==> p in s.exe || p in Post(s, Picked(s, g, i)).disp.Values
    ensures Picked(s, f, i) == Picked(s, g, i)
    ensures f < s.ncpu ==>
              && Picked(s, f + 1, i) == Picked(s, g, i) + {f} && |Picked(s, f + 1, i)| == |Picked(s, g, i)| + 1
              && DispatchCpu(Post(s, Picked(s, g, i)), f) == Post(s, Picked(s, f + 1, i))
  {
    hide Scannable, Found, Post, Picked, DispatchCpu, TopEnd, Under;
    if g < s.ncpu {
      var found := Found(s);
      PickedFree(s, g);
      PickedFree(s, f);
      NoneBetween(s, g, f);
      if f < s.ncpu {
        PickedFree(s, f + 1);
        FoundNow(s, f);
        UnderStep(found, f);
        NotUnder(found, f);
        PostOne(s, Under(found, g), f);
      }
    }
  }

  // ---------- the victims ----------

  /** While CPUs are missing after all free ones, the free ones were all posted. */
  lemma AllFound(s: Kernel, i: nat)
    requires Scannable(s) && i <= |s.sched.queue| && |Picked(s, s.ncpu, i)| <= |Undispatched(s)|
    ensures Under(Found(s), s.ncpu) == Found(s) == FreePosts(s)
  {
    FoundInRange(s);
    hide Scannable, Found, AfterFree, HostCpus, Undispatched, FirstOf, Under;
    UnderAll(Found(s), s.ncpu);
    FoundIsPicked(s, i);
    hide Picked;
    SubsetSize(Found(s), Picked(s, s.ncpu, i));
    FirstOfAll(Found(s), s.ncpu, |Undispatched(s)|);
  }

  lemma UnderAll(free: set<Cpu>, n: nat)
    requires free <= Below(n)
    ensures Under(free, n) == free
  {
  }

  lemma FoundIsPicked(s: Kernel, i: nat)
    requires i <= |s.sched.queue| && Under(Found(s), s.ncpu) == Found(s)
    ensures Found(s) <= Picked(s, s.ncpu, i)
  {
    hide Found, AfterFree, HostCpus, Under;
  }

  lemma QueueIsDistinct(s: Kernel)
    requires Scannable(s)
    ensures Distinct(s.sched.queue) && Injective(s.disp)
  {
    SortedIsDistinct(s.sched.models, s.sched.queue);
  }

  /** Posting the victims found so far withdraws no task from rank i on. */
  lemma VictimsLeaveRest(s: Kernel, i: nat)
    requires Scannable(s) && TopEnd(s) <= i < |s.sched.queue| && |Picked(s, s.ncpu, i)| <= |Undispatched(s)|
    ensures s.sched.queue[i] in Post(s, Picked(s, s.ncpu, i)).disp <==> s.sched.queue[i] in AfterFree(s)
  {
    AllFound(s, i);
    QueueIsDistinct(s);
    var q, d, t := s.sched.queue, AfterFree(s), s.sched.queue[i];
    PostMoreWithdraws(s, FreePosts(s), Picked(s, s.ncpu, i));
    WithdrawnOnly(s, FreePosts(s));
    WithdrawnOnly(s, Picked(s, s.ncpu, i));
    hide FreePosts, Post, Scannable, Picked, AfterFree;
    forall c | c in Picked(s, s.ncpu, i) && c in s.switching && c in s.endTask
      ensures s.endTask[c] == t ==> t in Withdrawn(s, FreePosts(s))
    {
      VictimHoldsOther(s, i, c);
    }
  }

  /** A victim's end event holds a task before rank i. */
  lemma VictimHoldsOther(s: Kernel, i: nat, c: Cpu)
    requires Scannable(s) && TopEnd(s) <= i < |s.sched.queue| && c in s.switching && c in s.endTask
    requires c in Picked(s, s.ncpu, i) && Under(Found(s), s.ncpu) == Found(s) == FreePosts(s)
    ensures s.endTask[c] == s.sched.queue[i] ==> s.sched.queue[i] in Withdrawn(s, FreePosts(s))
  {
    if c !in FreePosts(s) {
      QueueIsDistinct(s);
      WithdrawnOnly(s, FreePosts(s));
      var j :| TopEnd(s) <= j < i && s.sched.queue[j] in AfterFree(s) && AfterFree(s)[s.sched.queue[j]] == c;
      assert s.disp[s.sched.queue[j]] == c && c in s.endEv;
      assert s.endTask[c] == s.sched.queue[j];
    }
  }

  /** The CPU of the next task still dispatched has not been posted yet. */
  lemma VictimIsNew(s: Kernel, i: nat)
    requires Scannable(s) && TopEnd(s) <= i < |s.sched.queue| && |Picked(s, s.ncpu, i)| <= |Undispatched(s)|
    requires s.sched.queue[i] in AfterFree(s)
    ensures AfterFree(s)[s.sched.queue[i]] !in Picked(s, s.ncpu, i)
  {
    AllFound(s, i);
    QueueIsDistinct(s);
    AfterFreeInjective(s);
    var p := AfterFree(s)[s.sched.queue[i]];
    if p in FreePosts(s) {
      FreePostsHostNothing(s, p, s.sched.queue[i]);
    }
  }

  lemma HostsTo(q: seq<Task>, disp: map<Task, Cpu>, a: nat, i: nat)
    requires a <= i < |q|
    ensures HostCpus(q, disp, a, i + 1) == HostCpus(q, disp, a, i) + if q[i] in disp then {disp[q[i]]} else {}
  {
  }

  /** The task at the next rank: if it is still dispatched, its CPU is posted next. */
  lemma VictimStep(s: Kernel, i: nat)
    requires Scannable(s) && TopEnd(s) <= i < |s.sched.queue| && |Picked(s, s.ncpu, i)| <= |Undispatched(s)|
    ensures var t, now := s.sched.queue[i], Post(s, Picked(s, s.ncpu, i));
            if t in now.disp then
              && Picked(s, s.ncpu, i + 1) == Picked(s, s.ncpu, i) + {now.disp[t]}
              && |Picked(s, s.ncpu, i + 1)| == |Picked(s, s.ncpu, i)| + 1
              && DispatchCpu(now, now.disp[t]) == Post(s, Picked(s, s.ncpu, i + 1))
            else Picked(s, s.ncpu, i + 1) == Picked(s, s.ncpu, i)
  {
    VictimsLeaveRest(s, i);
    WithdrawnOnly(s, FreePosts(s));
    WithdrawnOnly(s, Picked(s, s.ncpu, i));
    PickedTo(s, i);
    hide HostCpus, FreePosts, Scannable, Undispatched, Found, Post, Picked, DispatchCpu;
    if s.sched.queue[i] in AfterFree(s) {
      VictimIsNew(s, i);
      PostOne(s, Picked(s, s.ncpu, i), AfterFree(s)[s.sched.queue[i]]);
    }
  }

  lemma PickedTo(s: Kernel, i: nat)
    requires TopEnd(s) <= i < |s.sched.queue|
    ensures var t, d := s.sched.queue[i], AfterFree(s);
            Picked(s, s.ncpu, i + 1) == Picked(s, s.ncpu, i) + if t in d then {d[t]} else {}
  {
    HostsTo(s.sched.queue, AfterFree(s), TopEnd(s), i);
    hide HostCpus, AfterFree, Found, Under, TopEnd;
  }

  // ---------- the end of the scan ----------

  /** When as many CPUs are posted as there are undispatched top tasks, they are those of the selection. */
  lemma ScanDone(s: Kernel, f: nat, i: nat)
    requires Scannable(s) && f <= s.ncpu && TopEnd(s) <= i <= |s.sched.queue| && (f < s.ncpu ==> i == TopEnd(s))
    requires |Picked(s, f, i)| == |Undispatched(s)|
    ensures ScanPosts(s) == Picked(s, f, i) && ScanEnds(s)
  {
    if f < s.ncpu {
      assert HostCpus(s.sched.queue, AfterFree(s), TopEnd(s), TopEnd(s)) == {};
      hide HostCpus, AfterFree, Scannable, Found, Undispatched;
      FirstOfIs(Found(s), s.ncpu, 0, |Undispatched(s)|, f);
      hide FreePosts, FirstOf;
      assert FreePosts(s) == Picked(s, f, i);
      NoVictims(s);
    } else {
      VictimsDone(s, i);
    }
  }

  lemma VictimsDone(s: Kernel, i: nat)
    requires Scannable(s) && TopEnd(s) <= i <= |s.sched.queue| && |Picked(s, s.ncpu, i)| <= |Undispatched(s)|
    requires |Picked(s, s.ncpu, i)| == |Undispatched(s)| || i == |s.sched.queue|
    ensures ScanPosts(s) == Picked(s, s.ncpu, i)
    ensures ScanEnds(s) <==> |Picked(s, s.ncpu, i)| == |Undispatched(s)|
  {
    AllFound(s, i);
    QueueIsDistinct(s);
    AfterFreeInjective(s);
    PickedSize(s, i);
    hide Scannable, Found, FreePosts, AfterFree, HostCpus, Undispatched, Under;
    VictimPostsAre(s, i);
    hide VictimPosts, ScanEnds, TopEnd;
  }

  /** The victims when the scan stops at rank i. */
  lemma VictimPostsAre(s: Kernel, i: nat)
    requires TopEnd(s) <= i <= |s.sched.queue| && Distinct(s.sched.queue) && Injective(AfterFree(s))
    requires var n := |FreePosts(s)| + |HostCpus(s.sched.queue, AfterFree(s), TopEnd(s), i)|;
             n <= |Undispatched(s)| && (n == |Undispatched(s)| || i == |s.sched.queue|)
    ensures VictimPosts(s) == HostCpus(s.sched.queue, AfterFree(s), TopEnd(s), i)
    ensures ScanEnds(s) <==>
              |FreePosts(s)| + |HostCpus(s.sched.queue, AfterFree(s), TopEnd(s), i)| == |Undispatched(s)|
  {
    var q, d, n := s.sched.queue, AfterFree(s), |Undispatched(s)| - |FreePosts(s)|;
    hide FreePosts, AfterFree, HostCpus, Undispatched, TopEnd, FirstHosts, Left;
    HostsSplit(q, d, TopEnd(s), i, n);
    NothingFirst(q, d, i);
  }

  lemma NothingFirst(q: seq<Task>, d: map<Task, Cpu>, i: nat)
    ensures FirstHosts(q, d, i, 0) == {}
    ensures i == |q| ==> Left(q, d, i) == 0 && forall n: nat :: FirstHosts(q, d, i, n) == {}
  {
  }

  lemma PickedSize(s: Kernel, i: nat)
    requires Scannable(s) && TopEnd(s) <= i <= |s.sched.queue|
    requires Under(Found(s), s.ncpu) == Found(s) == FreePosts(s)
    ensures |Picked(s, s.ncpu, i)| == |FreePosts(s)| + |HostCpus(s.sched.queue, AfterFree(s), TopEnd(s), i)|
  {
    forall p | p in HostCpus(s.sched.queue, AfterFree(s), TopEnd(s), i) ensures p !in FreePosts(s) {
      var j :| TopEnd(s) <= j < i && s.sched.queue[j] in AfterFree(s) && AfterFree(s)[s.sched.queue[j]] == p;
      if p in FreePosts(s) {
        FreePostsHostNothing(s, p, s.sched.queue[j]);
      }
    }
  }
}
