/**
 The handlers of the multiprocessor kernel as steps, and what each of them keeps
 (src/mrtkernel.cpp).
 */
module GlobalSteps {
  import opened Common
  import opened ReadyQueue
  import opened GlobalDispatch
  import opened Selection

  // ---------- the handlers ----------

  /** getProcessor: the last CPU below n that executes t. */
  function ProcessorBelow(exe: map<Cpu, Task>, n: nat, t: Task): (r: Option<Cpu>)
    ensures r.Some? ==> r.value in exe && exe[r.value] == t && r.value < n
    ensures r.None? ==> forall p :: p in exe && p < n ==> exe[p] != t
  {
    if n == 0 then None
    else if n - 1 in exe && exe[n - 1] == t then Some(n - 1)
    else ProcessorBelow(exe, n - 1, t)
  }

  function ProcessorOf(s: Kernel, t: Task): Option<Cpu> { ProcessorBelow(s.exe, s.ncpu, t) }

  /** The position of the first task of q that is not dispatched. */
  function FirstUndispatched(q: seq<Task>, disp: map<Task, Cpu>): (i: nat)
    ensures i <= |q|
    ensures i < |q| ==> q[i] !in disp
    ensures forall j :: 0 <= j < i ==> q[j] in disp
  {
    if q == [] || q[0] !in disp then 0
    else
      var i := FirstUndispatched(q[1..], disp);
      assert forall j :: 1 <= j < i + 1 ==> q[j] == q[1..][j - 1];
      i + 1
  }

  function Remove(s: Kernel, t: Task): Kernel
    requires t in s.sched.queue && t in s.sched.models
  {
    s.(sched := s.sched.Extract(t))
  }

  function Suspend(s: Kernel, t: Task): Kernel
    requires t in s.sched.queue && t in s.sched.models
  {
    var s1 := Remove(s, t);
    match ProcessorOf(s, t)
    case None => s1
    case Some(p) => s1.(exe := s.exe - {p}, oldExe := s.oldExe[t := p], disp := s.disp - {t})
  }

  ghost function OnArrival(s: Kernel, t: Task, now: int): Kernel
    requires t in s.sched.models && Known(s.sched.models, s.sched.queue)
  {
    Dispatch(s.(sched := s.sched.Insert(t, now)))
  }

  /** Task::block: suspend, then dispatch. */
  ghost function Block(s: Kernel, t: Task): Kernel
    requires t in s.sched.queue && t in s.sched.models
  {
    Dispatch(Suspend(s, t))
  }

  function OnEnd(s: Kernel, t: Task): Kernel
    requires t in s.sched.queue && t in s.sched.models
    requires ProcessorOf(s, t).Some?
  {
    var p := ProcessorOf(s, t).value;
    DispatchCpu(Remove(s, t).(oldExe := s.oldExe[t := p], exe := s.exe - {p}, disp := s.disp - {t}), p)
  }

  function Terminate(s: Kernel, t: Task): Kernel
    requires t in s.sched.queue && t in s.sched.models
  {
    Remove(s, t).(disp := s.disp - {t})
  }

  /** The begin event of p fires: the task on p is dropped. */
  function Drop(s: Kernel, p: Cpu): Kernel {
    var s1 := s.(beginEv := s.beginEv - {p});
    if p in s.exe then
      s1.(oldExe := s.oldExe[s.exe[p] := p], exe := s.exe - {p}, disp := s.disp - {s.exe[p]})
    else s1
  }

  /** ... and the first undispatched task, if any, is dispatched to p. */
  function Take(s: Kernel, p: Cpu): Kernel {
    var i := FirstUndispatched(s.sched.queue, s.disp);
    if i == |s.sched.queue| then s
    else
      var st := s.sched.queue[i];
      s.(disp := s.disp[st := p], endTask := s.endTask[p := st], switching := s.switching + {p},
         migrations := s.migrations + (if st in s.oldExe && s.oldExe[st] != p then 1 else 0),
         endEv := s.endEv + {p})
  }

  function OnBegin(s: Kernel, p: Cpu): Kernel { Take(Drop(s, p), p) }

  function OnEndDispatch(s: Kernel, p: Cpu): Kernel {
    s.(endEv := s.endEv - {p}, switching := s.switching - {p},
       exe := if p in s.endTask then s.exe[p := s.endTask[p]] else s.exe - {p})
  }

  // ---------- ownership is kept ----------

  lemma ArrivalKeepsOwnership(s: Kernel, t: Task, now: int)
    requires Owned(s) && t in s.sched.models && t !in s.sched.queue
    ensures Owned(s.(sched := s.sched.Insert(t, now)))
  {
    InsertKeepsValid(s.sched, t, now);
  }

  lemma RunningOn(s: Kernel, t: Task)
    requires Owned(s)
    ensures ProcessorOf(s, t).Some? <==> t in s.exe.Values
    ensures ProcessorOf(s, t).Some? ==> t in s.disp && ProcessorOf(s, t).value == s.disp[t]
    ensures ProcessorOf(s, t).Some? ==> t in s.sched.queue && t in s.sched.models
  {
    if t in s.exe.Values {
      var p :| p in s.exe && s.exe[p] == t;
      assert p in s.disp.Values;
    }
    if ProcessorOf(s, t).Some? {
      assert t in Elements(s.sched.queue);
    }
  }

  /** Taking a ready task out of the queue, and off its CPU if it executes, ... */
  lemma SuspendKeepsScannable(s: Kernel, t: Task)
    requires Owned(s) && t in s.sched.queue
    ensures Scannable(Suspend(s, t))
    ensures Suspend(s, t).disp == if t in s.exe.Values then s.disp - {t} else s.disp
    ensures Elements(Suspend(s, t).sched.queue) == Elements(s.sched.queue) - {t}
  {
    RunningOn(s, t);
    ExtractKeepsValid(s.sched, t, 0);
    hide Sched.Extract, Sched.Valid;
    SuspendKeepsBacked(s, t);
    assert Suspend(s, t).disp.Values <= s.disp.Values;
  }

  /** ... keeps ownership exactly when it is not in the middle of its switch: a task that has a CPU but executes
      nowhere would stay dispatched without being ready. */
  lemma SuspendKeepsOwnershipIff(s: Kernel, t: Task)
    requires Owned(s) && t in s.sched.queue
    ensures Owned(Suspend(s, t)) <==> (t in s.disp ==> t in s.exe.Values)
  {
    SuspendKeepsScannable(s, t);
    hide Suspend, Located, Backed, Phased, Sched.Valid;
    assert Owned(Suspend(s, t)) <==> Queued(Suspend(s, t));
  }

  lemma SuspendKeepsBacked(s: Kernel, t: Task)
    requires Injective(s.disp) && Backed(s) && Phased(s) && t in s.sched.queue && t in s.sched.models
    requires ProcessorOf(s, t).Some? ==> t in s.disp && ProcessorOf(s, t).value == s.disp[t]
    ensures Backed(Suspend(s, t)) && Phased(Suspend(s, t))
  {
    hide Sched.Extract;
    if ProcessorOf(s, t).Some? {
      assert Suspend(s, t).disp == s.disp - {t};
    }
  }

  /** terminate() withdraws the dispatch of the task but leaves its CPU and a pending end event alone. */
  lemma TerminateKeepsOwnershipIff(s: Kernel, t: Task)
    requires Owned(s) && t in s.sched.queue
    ensures Owned(Terminate(s, t)) <==> t !in s.disp
  {
    ExtractKeepsValid(s.sched, t, 0);
    if t in s.disp {
      TerminateUnbacks(s, t);
    } else {
      TerminateKeepsPlacement(s, t);
    }
  }

  lemma TerminateUnbacks(s: Kernel, t: Task)
    requires Backed(s) && t in s.sched.queue && t in s.sched.models && t in s.disp
    ensures !Backed(Terminate(s, t))
  {
    var s' := Terminate(s, t);
    var p := s.disp[t];
    assert (p in s'.exe && s'.exe[p] == t) || (p in s'.endEv && s'.endTask[p] == t);
  }

  lemma TerminateKeepsPlacement(s: Kernel, t: Task)
    requires Placed(s) && Backed(s) && Phased(s) && t in s.sched.queue && t in s.sched.models && t !in s.disp
    requires Elements(s.sched.Extract(t).queue) == Elements(s.sched.queue) - {t}
    ensures Placed(Terminate(s, t)) && Backed(Terminate(s, t)) && Phased(Terminate(s, t))
  {
    hide Sched.Extract;
    assert s.disp - {t} == s.disp;
  }

  lemma DropKeepsPlacement(s: Kernel, p: Cpu)
    requires Placed(s) && Backed(s) && Phased(s) && p in s.beginEv
    ensures Placed(Drop(s, p)) && Backed(Drop(s, p)) && Phased(Drop(s, p))
    ensures p !in Drop(s, p).disp.Values && p !in Drop(s, p).exe
  {
    DropKeepsPlaced(s, p);
    DropKeepsBacked(s, p);
  }

  lemma DropKeepsPlaced(s: Kernel, p: Cpu)
    requires Placed(s)
    ensures Placed(Drop(s, p))
  {
    assert Drop(s, p).disp.Values <= s.disp.Values;
  }

  lemma DropKeepsBacked(s: Kernel, p: Cpu)
    requires Injective(s.disp) && Backed(s) && Phased(s) && p in s.beginEv
    ensures Backed(Drop(s, p)) && p !in Drop(s, p).disp.Values
  {
    assert p !in s.endEv;
  }

  lemma TakeKeepsPlacement(s: Kernel, p: Cpu)
    requires Placed(s) && Backed(s) && Phased(s)
    requires p < s.ncpu && p !in s.disp.Values && p !in s.exe && p !in s.beginEv
    ensures Placed(Take(s, p)) && Backed(Take(s, p)) && Phased(Take(s, p))
  {
    var i := FirstUndispatched(s.sched.queue, s.disp);
    if i < |s.sched.queue| {
      TakeKeepsPlaced(s, p);
      TakeKeepsBacked(s, p);
    }
  }

  lemma TakeKeepsBacked(s: Kernel, p: Cpu)
    requires Backed(s) && Phased(s) && p < s.ncpu && p !in s.disp.Values && p !in s.exe && p !in s.beginEv
    ensures Backed(Take(s, p)) && Phased(Take(s, p))
  {
    assert FirstUndispatched(s.sched.queue, s.disp) < |s.sched.queue| ==>
             s.sched.queue[FirstUndispatched(s.sched.queue, s.disp)] !in s.disp;
    hide FirstUndispatched;
    assert p !in s.endEv;
  }

  lemma TakeKeepsPlaced(s: Kernel, p: Cpu)
    requires Placed(s) && p < s.ncpu && p !in s.disp.Values
    ensures Placed(Take(s, p))
  {
    assert Take(s, p).disp.Values <= s.disp.Values + {p};
  }

  lemma OnBeginKeepsOwnership(s: Kernel, p: Cpu)
    requires Owned(s) && p in s.beginEv
    ensures Owned(OnBegin(s, p))
  {
    DropKeepsPlacement(s, p);
    TakeKeepsPlacement(Drop(s, p), p);
  }

  lemma OnEndDispatchKeepsOwnership(s: Kernel, p: Cpu)
    requires Owned(s) && p in s.endEv
    ensures Owned(OnEndDispatch(s, p))
    ensures OnEndDispatch(s, p).exe == s.exe[p := s.endTask[p]]
  {
    var s' := OnEndDispatch(s, p);
    assert Placed(s');
    assert Backed(s');
  }

  // ---------- balance is kept ----------

  /** A dispatched task gives up its CPU, which has a begin event pending. */
  lemma BalancedDrop(top: set<Task>, disp: map<Task, Cpu>, pending: set<Cpu>, t: Task)
    requires Injective(disp) && t in disp && Balanced(top, disp, pending)
    ensures Balanced(top, disp - {t}, pending + {disp[t]})
  {
    var p := disp[t];
    var before := Serving(top, disp, pending);
    var after := Serving(top, disp - {t}, pending + {p});
    assert before <= after && p in after;
    if t in top {
      assert Missing(top, disp - {t}) == Missing(top, disp) + {t};
      assert Hosts(top, disp, p);
      SubsetSize(before + {p}, after);
    } else {
      assert Missing(top, disp - {t}) == Missing(top, disp);
      SubsetSize(before, after);
    }
  }

  /** An undispatched task leaves the top. */
  lemma BalancedLeave(top: set<Task>, disp: map<Task, Cpu>, pending: set<Cpu>, t: Task)
    requires t in top && t !in disp && Balanced(top, disp, pending)
    ensures Balanced(top - {t}, disp, pending)
    ensures |Missing(top - {t}, disp)| < |Serving(top - {t}, disp, pending)|
  {
    assert Missing(top, disp) == Missing(top - {t}, disp) + {t};
    assert forall p :: Hosts(top, disp, p) <==> Hosts(top - {t}, disp, p);
    assert Serving(top, disp, pending) == Serving(top - {t}, disp, pending);
  }

  /** A task enters the top while there is one serving CPU to spare. */
  lemma BalancedEnter(top: set<Task>, disp: map<Task, Cpu>, pending: set<Cpu>, x: Task)
    requires Injective(disp) && x !in top && Balanced(top, disp, pending)
    requires |Missing(top, disp)| < |Serving(top, disp, pending)|
    ensures Balanced(top + {x}, disp, pending)
  {
    var before := Serving(top, disp, pending);
    var after := Serving(top + {x}, disp, pending);
    if x in disp {
      assert Missing(top + {x}, disp) == Missing(top, disp);
      assert before == after + {disp[x]};
    } else {
      assert Missing(top + {x}, disp) == Missing(top, disp) + {x};
      assert forall p :: Hosts(top, disp, p) <==> Hosts(top + {x}, disp, p);
      assert before == after;
    }
  }

  /** A free CPU with a begin event pending takes an undispatched task of the top. */
  lemma BalancedTake(top: set<Task>, disp: map<Task, Cpu>, pending: set<Cpu>, st: Task, p: Cpu)
    requires p in pending && p !in disp.Values && Balanced(top, disp, pending)
    requires st in top && st !in disp
    ensures Balanced(top, disp[st := p], pending - {p})
  {
    var d := disp[st := p];
    var before := Serving(top, disp, pending);
    var after := Serving(top, d, pending - {p});
    assert Missing(top, disp) == Missing(top, d) + {st};
    assert !Hosts(top, disp, p);
    assert forall c :: c != p ==> (Hosts(top, d, c) <==> Hosts(top, disp, c));
    assert before == after + {p};
  }

  /** The top after a task left the queue. */
  lemma TopAfterRemove(s: Kernel, t: Task)
    requires s.sched.Valid() && t in s.sched.queue
    ensures t !in Top(s) ==> Top(Remove(s, t)) == Top(s)
    ensures t in Top(s) && |s.sched.queue| <= s.ncpu ==> Top(Remove(s, t)) == Top(s) - {t}
    ensures t in Top(s) && s.ncpu < |s.sched.queue| ==>
              Top(Remove(s, t)) == Top(s) - {t} + {s.sched.queue[s.ncpu]} && s.sched.queue[s.ncpu] !in Top(s)
  {
    SortedIsDistinct(s.sched.models, s.sched.queue);
    PrefixAfterWithout(s.sched.queue, s.ncpu, t);
  }

  lemma PrefixAfterWithout(q: seq<Task>, m: nat, t: Task)
    requires Distinct(q) && t in q
    ensures var top := q[..Min(m, |q|)];
            var top' := Elements(Without(q, t)[..Min(m, |q| - 1)]);
            && (t !in top ==> top' == Elements(top))
            && (t in top && |q| <= m ==> top' == Elements(top) - {t})
            && (t in top && m < |q| ==> top' == Elements(top) - {t} + {q[m]} && q[m] !in top)
  {
    var k, q' := IndexOf(q, t), Without(q, t);
    if k >= m {
      assert q'[..Min(m, |q| - 1)] == q[..Min(m, |q|)];
      assert t !in q[..Min(m, |q|)];
    } else if m < |q| {
      PrefixSlides(q, m, k);
      assert q[..m][k] == t;
    } else {
      assert q[..|q|] == q && q'[..|q| - 1] == q';
      assert q == q[..k] + [t] + q[k + 1..];
      assert t !in q[..k] && t !in q[k + 1..];
    }
  }

  /** Without its element k a prefix is filled up by the next element. */
  lemma PrefixSlides(q: seq<Task>, m: nat, k: nat)
    requires k < m < |q| && Distinct(q)
    ensures Elements((q[..k] + q[k + 1..])[..m]) == Elements(q[..m]) - {q[k]} + {q[m]} && q[m] !in q[..m]
  {
    var rest := q[..k] + q[k + 1..m];
    assert (q[..k] + q[k + 1..])[..m] == rest + [q[m]];
    assert q[..m] == q[..k] + [q[k]] + q[k + 1..m];
    assert q[k] !in rest;
    assert Elements(q[..m]) == Elements(rest) + {q[k]};
  }

  lemma BalancedAfterRemove(s: Kernel, t: Task, pending: set<Cpu>)
    requires s.sched.Valid() && t in s.sched.queue && Placed(s) && t !in s.disp
    requires Balanced(Top(s), s.disp, pending)
    ensures Balanced(Top(Remove(s, t)), s.disp, pending)
  {
    TopAfterRemove(s, t);
    if t in Top(s) {
      BalancedLeave(Top(s), s.disp, pending, t);
      if s.ncpu < |s.sched.queue| {
        BalancedEnter(Top(s) - {t}, s.disp, pending, s.sched.queue[s.ncpu]);
      }
    }
  }

  // ---------- the invariant is kept ----------

  lemma ArrivalKeepsInv(s: Kernel, t: Task, now: int)
    requires Owned(s) && t in s.sched.models && t !in s.sched.queue
    requires DispatchSafe(s.(sched := s.sched.Insert(t, now)))
    ensures Inv(OnArrival(s, t, now))
  {
    ArrivalKeepsOwnership(s, t, now);
    DispatchEstablishesInv(s.(sched := s.sched.Insert(t, now)));
  }

  lemma BlockKeepsInv(s: Kernel, t: Task)
    requires Owned(s) && t in s.sched.queue
    requires t in s.disp ==> t in s.exe.Values
    requires DispatchSafe(Suspend(s, t))
    ensures Inv(Block(s, t))
  {
    SuspendKeepsOwnershipIff(s, t);
    DispatchEstablishesInv(Suspend(s, t));
  }

  lemma TerminateKeepsInv(s: Kernel, t: Task)
    requires Inv(s) && t in s.sched.queue && t !in s.disp
    ensures Inv(Terminate(s, t))
  {
    assert t in s.sched.models;
    hide Balanced, Placed, Backed, Phased, Sched.Valid, Sched.Extract, Top;
    TerminateKeepsOwnershipIff(s, t);
    TopOfTerminated(s, t);
    BalancedAfterRemove(s, t, s.beginEv);
  }

  lemma TopOfTerminated(s: Kernel, t: Task)
    requires t in s.sched.queue && t in s.sched.models && t !in s.disp
    ensures Terminate(s, t).disp == s.disp && Terminate(s, t).beginEv == s.beginEv
    ensures Top(Terminate(s, t)) == Top(Remove(s, t))
  {
  }

  /** The end of a job on p needs no dispatch of the whole system: p alone is enough. */
  lemma OnEndKeepsInv(s: Kernel, t: Task)
    requires Inv(s) && t in s.exe.Values
    ensures ProcessorOf(s, t).Some? && t in s.sched.queue
    ensures Inv(OnEnd(s, t))
  {
    RunningOn(s, t);
    SuspendKeepsOwnershipIff(s, t);
    var p := s.disp[t];
    var s1 := Suspend(s, t);
    assert p !in s1.switching;
    DispatchCpuKeepsOwnershipIffGuard(s1, p);
    BalancedDrop(Top(s), s.disp, s.beginEv, t);
    var dropped := s.(disp := s.disp - {t});
    assert Top(dropped) == Top(s);
    BalancedAfterRemove(dropped, t, s.beginEv + {p});
    assert Top(Remove(dropped, t)) == Top(OnEnd(s, t));
  }

  lemma DropKeepsInv(s: Kernel, p: Cpu)
    requires Inv(s) && p in s.beginEv
    ensures Owned(Drop(s, p)) && Top(Drop(s, p)) == Top(s)
    ensures Balanced(Top(s), Drop(s, p).disp, s.beginEv)
  {
    DropKeepsPlacement(s, p);
    if p in s.exe {
      assert s.exe[p] in s.disp && s.disp[s.exe[p]] == p;
      hide Backed, Phased, Sched.Valid, Balanced;
      BalancedDrop(Top(s), s.disp, s.beginEv, s.exe[p]);
      assert s.beginEv + {p} == s.beginEv;
    }
  }

  lemma AllTopDispatchedFillsCpus(s: Kernel)
    requires s.sched.Valid() && Placed(s) && s.ncpu <= |s.sched.queue|
    requires forall j :: 0 <= j < s.ncpu ==> s.sched.queue[j] in s.disp
    ensures FreeCpus(s) == {}
  {
    assert Undispatched(s) == {};
    Pigeonhole(s);
    assert |FreeCpus(s)| == 0;
  }

  /** While p is free, the first undispatched task is one of the top. */
  lemma FirstUndispatchedIsTop(s: Kernel, p: Cpu)
    requires s.sched.Valid() && Placed(s) && p < s.ncpu && p !in s.disp.Values
    requires FirstUndispatched(s.sched.queue, s.disp) < |s.sched.queue|
    ensures FirstUndispatched(s.sched.queue, s.disp) < s.ncpu
  {
    var q := s.sched.queue;
    var i := FirstUndispatched(q, s.disp);
    assert p in FreeCpus(s);
    if s.ncpu <= i {
      AllTopDispatchedFillsCpus(s);
      assert false;
    }
  }

  lemma OnBeginKeepsInv(s: Kernel, p: Cpu)
    requires Inv(s) && p in s.beginEv
    ensures Inv(OnBegin(s, p))
  {
    OnBeginKeepsOwnership(s, p);
    DropKeepsInv(s, p);
    DropKeepsPlacement(s, p);
    TakeKeepsBalance(Drop(s, p), p, s.beginEv);
  }

  lemma TakeKeepsBalance(s: Kernel, p: Cpu, pending: set<Cpu>)
    requires s.sched.Valid() && Placed(s) && p < s.ncpu && p !in s.disp.Values && p in pending
    requires Balanced(Top(s), s.disp, pending)
    ensures Top(Take(s, p)) == Top(s) && Balanced(Top(s), Take(s, p).disp, pending - {p})
  {
    var i := FirstUndispatched(s.sched.queue, s.disp);
    if i < |s.sched.queue| {
      FirstUndispatchedIsTop(s, p);
      assert s.sched.queue[..Min(s.ncpu, |s.sched.queue|)][i] == s.sched.queue[i];
      BalancedTake(Top(s), s.disp, pending, s.sched.queue[i], p);
    } else {
      assert Missing(Top(s), s.disp) == {};
    }
  }

  lemma OnEndDispatchKeepsInv(s: Kernel, p: Cpu)
    requires Inv(s) && p in s.endEv
    ensures Inv(OnEndDispatch(s, p))
  {
    OnEndDispatchKeepsOwnership(s, p);
  }
}
