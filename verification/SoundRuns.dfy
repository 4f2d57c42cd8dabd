/**
 Runs outside the guards: exactly when a step keeps two-phase ownership, and exactly when the pending events settle
 in a globally scheduled state (src/mrtkernel.cpp).
 */
module SoundRuns {
  import opened Common
  import opened ReadyQueue
  import opened GlobalDispatch
  import opened Selection
  import opened GlobalSteps
  import opened GlobalRuns

  // ---------- ownership, step by step ----------

  ghost predicate Dispatches(e: Event) { e.Arrival? || e.Blocked? }

  /** The state in which an arrival or a block calls dispatch(). */
  ghost function AtDispatch(s: Kernel, e: Event): Kernel
    requires Enabled(s, e) && Dispatches(e)
  {
    match e
    case Arrival(t, now) => s.(sched := s.sched.Insert(t, now))
    case Blocked(t) => Suspend(s, t)
  }

  /** The scan of dispatch() does not run off the queue. */
  ghost predicate Ends(s: Kernel, e: Event)
    requires Enabled(s, e)
  {
    Dispatches(e) ==> ScanEnds(AtDispatch(s, e))
  }

  /** The free posts of dispatch() are harmless; a task that blocks in the middle of its switch has its CPU posted;
      and no task is killed in the middle of its switch. */
  ghost predicate Sound(s: Kernel, e: Event)
    requires Enabled(s, e)
  {
    match e
    case Arrival(_, _) => Undisturbed(AtDispatch(s, e))
    case Blocked(t) => Undisturbed(AtDispatch(s, e)) && (MidSwitch(s, t) ==> s.disp[t] in ScanPosts(AtDispatch(s, e)))
    case Killed(t) => !MidSwitch(s, t)
    case _ => true
  }

  lemma BeforeIsScannable(s: Kernel, e: Event)
    requires Owned(s) && Enabled(s, e) && Dispatches(e)
    ensures Scannable(AtDispatch(s, e)) && Step(s, e) == Dispatch(AtDispatch(s, e))
  {
    match e
    case Arrival(t, now) => ArrivalKeepsOwnership(s, t, now);
    case Blocked(t) => SuspendKeepsScannable(s, t);
  }

  /** A task that left the queue in the middle of its switch is withdrawn exactly when its CPU is posted. */
  lemma WithdrawnIffPosted(s: Kernel, t: Task)
    requires Scannable(s) && Undisturbed(s) && t in s.disp && s.disp[t] in s.endEv
    ensures t in Withdrawn(s, ScanPosts(s)) <==> s.disp[t] in ScanPosts(s)
  {
    var c, ps := s.disp[t], ScanPosts(s);
    assert s.endTask[c] == t by { EndHoldsHost(s, t); }
    if t in Withdrawn(s, ps) {
      var p :| p in ps && p in s.switching && p in s.endTask && s.endTask[p] == t;
      HolderIsPosted(s, t, p);
    }
  }

  lemma HolderIsPosted(s: Kernel, t: Task, p: Cpu)
    requires Scannable(s) && Undisturbed(s) && t in s.disp
    requires p in ScanPosts(s) && p in s.switching && p in s.endTask && s.endTask[p] == t
    ensures s.disp[t] in ScanPosts(s)
  {
    hide FreePosts, VictimPosts;
    if p in VictimPosts(s) {
      VictimIsGuarded(s, p);
    } else {
      assert Harmless(s, FreePosts(s), p);
    }
  }

  lemma EndHoldsHost(s: Kernel, t: Task)
    requires Scannable(s) && t in s.disp && s.disp[t] in s.endEv
    ensures s.disp[t] in s.endTask && s.endTask[s.disp[t]] == t
  {
  }

  lemma BlockOwnsIff(s: Kernel, t: Task)
    requires Owned(s) && Enabled(s, Blocked(t))
    ensures Owned(Block(s, t)) <==> Sound(s, Blocked(t))
  {
    SuspendKeepsScannable(s, t);
    RunningOn(s, t);
    var s1 := Suspend(s, t);
    DispatchOwnsIff(s1);
    if MidSwitch(s, t) {
      assert s1.disp == s.disp && s1.endEv == s.endEv && s.disp[t] in s.endEv;
      if Undisturbed(s1) {
        WithdrawnIffPosted(s1, t);
      }
      hide Suspend, ScanPosts, Undisturbed, Dispatch, Withdrawn, Scannable;
      assert t !in Elements(s1.sched.queue) && s1.disp.Keys - {t} <= Elements(s1.sched.queue);
    } else {
      SuspendKeepsOwnershipIff(s, t);
    }
  }

  /** Exactly when a step keeps two-phase ownership. */
  lemma StepKeepsOwnershipIff(s: Kernel, e: Event)
    requires Owned(s) && Enabled(s, e)
    ensures Owned(Step(s, e)) <==> Sound(s, e)
  {
    hide Owned, Undisturbed, Dispatch, ScanPosts;
    match e
    case Arrival(t, now) =>
      ArrivalKeepsOwnership(s, t, now);
      DispatchKeepsOwnershipIff(AtDispatch(s, e));
    case JobEnd(t) => EndKeepsOwnership(s, t);
    case Blocked(t) => BlockOwnsIff(s, t);
    case Killed(t) =>
      TerminateKeepsOwnershipIff(s, t);
    case NewPriority(t, p) => NewPriorityKeepsOwnership(s, t, p);
    case BeginFires(c) => OnBeginKeepsOwnership(s, c);
    case EndFires(c) => OnEndDispatchKeepsOwnership(s, c);
  }

  lemma EndKeepsOwnership(s: Kernel, t: Task)
    requires Owned(s) && Enabled(s, JobEnd(t))
    ensures Owned(OnEnd(s, t))
  {
    RunningOn(s, t);
    SuspendKeepsOwnershipIff(s, t);
    assert s.disp[t] !in Suspend(s, t).switching;
    DispatchCpuKeepsOwnershipIffGuard(Suspend(s, t), s.disp[t]);
  }

  lemma NewPriorityKeepsOwnership(s: Kernel, t: Task, p: int)
    requires Owned(s) && t in s.sched.models && t !in s.sched.queue
    ensures Owned(s.(sched := s.sched.ChangePriority(t, p)))
  {
  }

  /** A sound step is one whose dispatch() ends, unless a task blocks in the middle of its switch. */
  lemma SoundStepEnds(s: Kernel, e: Event)
    requires Owned(s) && Enabled(s, e) && Sound(s, e) && !(e.Blocked? && MidSwitch(s, e.t))
    ensures Ends(s, e)
  {
    if Dispatches(e) {
      var s1 := AtDispatch(s, e);
      assert Owned(s1) by {
        if e.Arrival? {
          ArrivalKeepsOwnership(s, e.t, e.now);
        } else {
          SuspendKeepsOwnershipIff(s, e.t);
        }
      }
      UndisturbedScanEnds(s1);
    }
  }

  // ---------- ownership over runs ----------

  /** Every event can happen, and every dispatch() ends. */
  ghost predicate PossibleRun(s: Kernel, es: seq<Event>)
    decreases |es|
  {
    es == [] || (Enabled(s, es[0]) && Ends(s, es[0]) && PossibleRun(Step(s, es[0]), es[1..]))
  }

  ghost function Follow(s: Kernel, es: seq<Event>): Kernel
    requires PossibleRun(s, es)
    decreases |es|
  {
    if es == [] then s else Follow(Step(s, es[0]), es[1..])
  }

  ghost predicate SoundRun(s: Kernel, es: seq<Event>)
    requires PossibleRun(s, es)
    decreases |es|
  {
    es == [] || (Sound(s, es[0]) && SoundRun(Step(s, es[0]), es[1..]))
  }

  ghost predicate OwnedThroughout(s: Kernel, es: seq<Event>)
    requires PossibleRun(s, es)
    decreases |es|
  {
    Owned(s) && (es == [] || OwnedThroughout(Step(s, es[0]), es[1..]))
  }

  /** Over every run: two-phase ownership holds throughout exactly when each step is sound. */
  lemma {:induction false} OwnedThroughoutIffSound(s: Kernel, es: seq<Event>)
    requires Owned(s) && PossibleRun(s, es)
    ensures OwnedThroughout(s, es) <==> SoundRun(s, es)
    ensures SoundRun(s, es) ==> Owned(Follow(s, es))
    decreases |es|
  {
    hide Owned, Enabled, Step, Sound, Ends;
    if es != [] {
      StepKeepsOwnershipIff(s, es[0]);
      if Sound(s, es[0]) {
        OwnedThroughoutIffSound(Step(s, es[0]), es[1..]);
      } else {
        assert !OwnedThroughout(Step(s, es[0]), es[1..]);
      }
    }
  }

  /** The guards are enough: with them every dispatch() ends and every step is sound. */
  lemma SafeIsSound(s: Kernel, e: Event)
    requires Owned(s) && Enabled(s, e) && Safe(s, e)
    ensures Ends(s, e) && Sound(s, e)
  {
    if Dispatches(e) {
      var s1 := AtDispatch(s, e);
      assert Owned(s1) && DispatchSafe(s1) by {
        if e.Arrival? {
          ArrivalKeepsOwnership(s, e.t, e.now);
        } else {
          RunningOn(s, e.t);
          SuspendKeepsOwnershipIff(s, e.t);
        }
      }
      GuardedScanIsChosen(s1);
      hide FreePosts, VictimPosts, ScanEnds, Chosen, Owned, AtDispatch;
      assert forall p :: p in FreePosts(s1) ==> p in ScanPosts(s1) && Guard(s1, p);
    }
  }

  lemma {:induction false} SafeRunIsSound(s: Kernel, es: seq<Event>)
    requires Inv(s) && ValidRun(s, es)
    ensures PossibleRun(s, es) && SoundRun(s, es) && Follow(s, es) == Run(s, es)
    decreases |es|
  {
    if es != [] {
      SafeIsSound(s, es[0]);
      StepKeepsInv(s, es[0]);
      hide Inv, Enabled, Step, Sound, Ends, Safe;
      SafeRunIsSound(Step(s, es[0]), es[1..]);
    }
  }

  // ---------- settling ----------

  /** A pending CPU that gives up its task stays balanced, and unbalanced. */
  lemma DropBalancesIff(top: set<Task>, disp: map<Task, Cpu>, pending: set<Cpu>, t: Task)
    requires Injective(disp) && t in disp && disp[t] in pending
    ensures Balanced(top, disp - {t}, pending) <==> Balanced(top, disp, pending)
  {
    var p := disp[t];
    var before, after := Serving(top, disp, pending), Serving(top, disp - {t}, pending);
    DropHosts(top, disp, t);
    hide Hosts, Injective;
    if t in top {
      assert Missing(top, disp - {t}) == Missing(top, disp) + {t};
      assert after == before + {p} && p !in before;
    } else {
      assert Missing(top, disp - {t}) == Missing(top, disp);
      assert after == before;
    }
  }

  lemma DropHosts(top: set<Task>, disp: map<Task, Cpu>, t: Task)
    requires Injective(disp) && t in disp
    ensures forall c :: Hosts(top, disp - {t}, c) <==> Hosts(top, disp, c) && c != disp[t]
    ensures Hosts(top, disp, disp[t]) <==> t in top
  {
  }

  /** A free pending CPU takes a task of the top. */
  lemma TakeBalancesIff(top: set<Task>, disp: map<Task, Cpu>, pending: set<Cpu>, st: Task, p: Cpu)
    requires p in pending && p !in disp.Values && st in top && st !in disp
    ensures Balanced(top, disp[st := p], pending - {p}) <==> Balanced(top, disp, pending)
  {
    var d := disp[st := p];
    TakeHosts(top, disp, st, p);
    hide Hosts;
    assert Missing(top, disp) == Missing(top, d) + {st};
    assert Serving(top, disp, pending) == Serving(top, d, pending - {p}) + {p};
    assert forall t :: t in disp ==> disp[t] != p;
  }

  lemma TakeHosts(top: set<Task>, disp: map<Task, Cpu>, st: Task, p: Cpu)
    requires p !in disp.Values && st in top && st !in disp
    ensures forall c :: Hosts(top, disp[st := p], c) <==> Hosts(top, disp, c) || c == p
    ensures !Hosts(top, disp, p)
  {
    forall c ensures Hosts(top, disp[st := p], c) <==> Hosts(top, disp, c) || c == p {
      if Hosts(top, disp, c) {
        var t :| t in top && t in disp && disp[t] == c;
        assert disp[st := p][t] == c;
      }
      if c == p {
        assert disp[st := p][st] == p;
      }
    }
  }

  /** A free pending CPU finds nothing to take. */
  lemma IdleBalancesIff(top: set<Task>, disp: map<Task, Cpu>, pending: set<Cpu>, p: Cpu)
    requires p in pending && p !in disp.Values && Missing(top, disp) == {}
    ensures Balanced(top, disp, pending - {p}) <==> Balanced(top, disp, pending)
  {
    assert forall t :: t in disp ==> disp[t] != p;
  }

  lemma BeginBalancesIff(s: Kernel, c: Cpu)
    requires Owned(s) && c in s.beginEv
    ensures Inv(OnBegin(s, c)) <==> Inv(s)
  {
    OnBeginKeepsOwnership(s, c);
    DropKeepsPlacement(s, c);
    var d := Drop(s, c);
    assert Top(d) == Top(s);
    assert Balanced(Top(s), d.disp, s.beginEv) <==> Balanced(Top(s), s.disp, s.beginEv) by {
      if c in s.exe {
        DropBalancesIff(Top(s), s.disp, s.beginEv, s.exe[c]);
      }
    }
    TakenBalancesIff(d, c, s.beginEv);
    hide Owned, Balanced, Drop, Top, Missing;
  }

  lemma TakenBalancesIff(s: Kernel, p: Cpu, pending: set<Cpu>)
    requires s.sched.Valid() && Placed(s) && p < s.ncpu && p !in s.disp.Values && p in pending
    ensures Top(Take(s, p)) == Top(s)
    ensures Balanced(Top(s), Take(s, p).disp, pending - {p}) <==> Balanced(Top(s), s.disp, pending)
  {
    var i := FirstUndispatched(s.sched.queue, s.disp);
    if i < |s.sched.queue| {
      FirstUndispatchedIsTop(s, p);
      assert s.sched.queue[..Min(s.ncpu, |s.sched.queue|)][i] == s.sched.queue[i];
      hide Balanced;
      TakeBalancesIff(Top(s), s.disp, pending, s.sched.queue[i], p);
    } else {
      assert Missing(Top(s), s.disp) == {};
      hide Balanced;
      IdleBalancesIff(Top(s), s.disp, pending, p);
    }
  }

  lemma EndBalancesIff(s: Kernel, c: Cpu)
    requires Owned(s) && c in s.endEv
    ensures Owned(OnEndDispatch(s, c)) && (Inv(OnEndDispatch(s, c)) <==> Inv(s))
  {
    OnEndDispatchKeepsOwnership(s, c);
    hide Owned, Balanced;
    assert Top(OnEndDispatch(s, c)) == Top(s);
  }

  /** A firing neither makes nor mends the progress invariant. */
  lemma FiringInvIff(s: Kernel, e: Event)
    requires Owned(s) && IsFiring(e) && Enabled(s, e)
    ensures Owned(Step(s, e)) && (Inv(Step(s, e)) <==> Inv(s))
  {
    hide Inv, Owned;
    match e
    case BeginFires(c) =>
      OnBeginKeepsOwnership(s, c);
      BeginBalancesIff(s, c);
    case EndFires(c) => EndBalancesIff(s, c);
  }

  /** At rest, the invariant and global scheduling are the same. */
  lemma RestIsScheduledIff(s: Kernel)
    requires Owned(s) && AtRest(s)
    ensures GloballyScheduled(s) <==> Inv(s)
  {
    if Inv(s) {
      AtRestIsGloballyScheduled(s);
    }
    if GloballyScheduled(s) {
      assert forall t :: t in s.disp ==> t in s.exe.Values;
      assert forall t :: t in s.exe.Values ==> t in s.disp;
      assert Missing(Top(s), s.disp) == {};
    }
  }

  ghost predicate FiringRun(s: Kernel, fs: seq<Event>)
    decreases |fs|
  {
    fs == [] || (IsFiring(fs[0]) && Enabled(s, fs[0]) && FiringRun(Step(s, fs[0]), fs[1..]))
  }

  ghost function Settled(s: Kernel, fs: seq<Event>): Kernel
    requires FiringRun(s, fs)
    decreases |fs|
  {
    if fs == [] then s else Settled(Step(s, fs[0]), fs[1..])
  }

  /** From every owned state, the pending events settle, in any order, in a globally scheduled state exactly when
      the progress invariant holds. */
  lemma {:induction false} SettlesScheduledIff(s: Kernel, fs: seq<Event>)
    requires Owned(s) && FiringRun(s, fs) && AtRest(Settled(s, fs))
    ensures Owned(Settled(s, fs)) && (GloballyScheduled(Settled(s, fs)) <==> Inv(s))
    decreases |fs|
  {
    hide Inv, Owned, Enabled, Step, GloballyScheduled;
    if fs == [] {
      RestIsScheduledIff(s);
    } else {
      FiringInvIff(s, fs[0]);
      SettlesScheduledIff(Step(s, fs[0]), fs[1..]);
    }
  }

  /** Over every sound run that ends with an arrival or a block, and whatever the order in which the pending events
      then fire: the system comes to rest globally scheduled exactly when, in the state in which dispatch() was
      called, every task below the top that keeps its CPU has a begin event pending there and the top tasks whose
      dispatch is withdrawn are no more than the other pending CPUs without a top task. */
  lemma ScheduledAfterDispatchIff(ncpu: nat, sched: Sched, es: seq<Event>, e: Event, fs: seq<Event>)
    requires sched.Valid() && sched.queue == [] && PossibleRun(Init(ncpu, sched), es) && SoundRun(Init(ncpu, sched), es)
    requires var s := Follow(Init(ncpu, sched), es);
             && Enabled(s, e) && Dispatches(e) && Ends(s, e) && Sound(s, e)
             && FiringRun(Step(s, e), fs) && AtRest(Settled(Step(s, e), fs))
    ensures var s := Follow(Init(ncpu, sched), es);
            var s1 := AtDispatch(s, e);
            GloballyScheduled(Settled(Step(s, e), fs)) <==> Covered(s1, ScanPosts(s1)) && Enough(s1, ScanPosts(s1))
  {
    InitInv(ncpu, sched);
    OwnedThroughoutIffSound(Init(ncpu, sched), es);
    var s := Follow(Init(ncpu, sched), es);
    StepKeepsOwnershipIff(s, e);
    BeforeIsScannable(s, e);
    DispatchKeepsInvIff(AtDispatch(s, e));
    hide Inv, Owned, Scannable, GloballyScheduled, Enabled, AtDispatch, Sound, Covered, Enough, ScanPosts;
    SettlesScheduledIff(Step(s, e), fs);
  }

  /** Over every sound run and any firings after it: at rest the system is globally scheduled exactly when the
      progress invariant held after the run. */
  lemma GloballyScheduledIff(ncpu: nat, sched: Sched, es: seq<Event>, fs: seq<Event>)
    requires sched.Valid() && sched.queue == [] && PossibleRun(Init(ncpu, sched), es) && SoundRun(Init(ncpu, sched), es)
    requires FiringRun(Follow(Init(ncpu, sched), es), fs) && AtRest(Settled(Follow(Init(ncpu, sched), es), fs))
    ensures GloballyScheduled(Settled(Follow(Init(ncpu, sched), es), fs)) <==> Inv(Follow(Init(ncpu, sched), es))
  {
    InitInv(ncpu, sched);
    OwnedThroughoutIffSound(Init(ncpu, sched), es);
    SettlesScheduledIff(Follow(Init(ncpu, sched), es), fs);
  }
}
