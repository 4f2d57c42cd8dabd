/** Whole runs under priority inheritance: no unbounded inversion, and when a raised priority is undone. */
module InheritanceRuns {
  import opened Common
  import opened ReadyQueue
  import opened SingleKernel
  import opened Resources
  import opened PriorityInheritance

  lemma StepKeepsInv(s: PiState, e: Event)
    requires Inv(s) && Enabled(s, e)
    ensures Inv(Step(s, e))
  {
    hide Inv;
    match e
    case Arrive(t, now) => ArriveKeepsInv(s, t, now);
    case Retune(t, p) => RetuneKeepsInv(s, t, p);
    case Finish(t) => FinishKeepsInv(s, t);
    case Request(t, r, now) =>
      if s.res[r].IsLocked() {
        InheritKeepsInv(s, t, r, now);
      } else {
        LockKeepsInv(s, t, r);
      }
    case Release(t, r, now) =>
      if Waiting(s.blocked, r) == [] {
        UnlockKeepsInv(s, t, r);
      } else {
        HandOffKeepsInv(s, t, r, now);
      }
    case BeginFires => BeginKeepsInv(s);
    case EndFires => EndKeepsInv(s);
  }

  lemma EndKeepsInv(s: PiState)
    requires Inv(s)
    ensures Inv(s.(k := s.k.OnEndDispatch()))
  {
  }

  ghost predicate ValidRun(s: PiState, es: seq<Event>)
    requires Inv(s)
    decreases |es|
  {
    es == [] || (Enabled(s, es[0]) && (StepKeepsInv(s, es[0]); ValidRun(Step(s, es[0]), es[1..])))
  }

  ghost function Run(s: PiState, es: seq<Event>): PiState
    requires Inv(s) && ValidRun(s, es)
    decreases |es|
  {
    if es == [] then s
    else
      StepKeepsInv(s, es[0]);
      Run(Step(s, es[0]), es[1..])
  }

  /** At the start nothing is ready, held or pending. */
  ghost predicate Initial(s: PiState) {
    && s.k == Rt(s.k.sched, None, None, false, false, false)
    && s.k.sched.Valid() && s.k.sched.queue == []
    && s.jobs == {} && s.blocked == map[] && s.saved == map[]
    && forall r :: r in s.res ==> s.res[r] == ResState(1, 1, None)
  }

  lemma InitialInv(s: PiState)
    requires Initial(s)
    ensures Inv(s)
  {
  }

  /** While w waits for r, the owner of r is ready with at least the priority of w, and whatever task is
      current has at least that priority too. */
  ghost predicate NoInversion(s: PiState, r: ResName, w: Task) {
    w in Waiting(s.blocked, r) ==>
      && Held(s.res, r) && Owner(s.res, r) in s.k.sched.queue && w !in s.k.sched.queue
      && Owner(s.res, r) in s.k.sched.models && w in s.k.sched.models
      && s.k.sched.models[Owner(s.res, r)].prio <= s.k.sched.models[w].prio
      && (s.k.curr.Some? ==>
            && s.k.curr.value in s.k.sched.models
            && s.k.sched.models[s.k.curr.value].prio <= s.k.sched.models[w].prio)
  }

  lemma InvMeansNoInversion(s: PiState, r: ResName, w: Task)
    requires Inv(s)
    ensures NoInversion(s, r, w)
  {
    if w in Waiting(s.blocked, r) {
      assert Owner(s.res, r) in Elements(s.k.sched.queue);
      assert w !in Elements(s.k.sched.queue);
    }
  }

  lemma {:induction false} NoUnboundedInversion(s: PiState, es: seq<Event>, r: ResName, w: Task)
    requires Inv(s) && ValidRun(s, es)
    ensures Inv(Run(s, es)) && NoInversion(Run(s, es), r, w)
    decreases |es|
  {
    if es == [] {
      InvMeansNoInversion(s, r, w);
    } else {
      StepKeepsInv(s, es[0]);
      NoUnboundedInversion(Step(s, es[0]), es[1..], r, w);
    }
  }

  /** A blocked request never lowers the owner: the requester is at least as urgent. */
  lemma InheritanceOnlyRaises(s: PiState, t: Task, r: ResName, now: int)
    requires Inv(s) && Enabled(s, Request(t, r, now)) && s.res[r].IsLocked()
    ensures Held(s.res, r) && Owner(s.res, r) in s.k.sched.models
    ensures var o := Owner(s.res, r);
            var s' := Step(s, Request(t, r, now));
            && Inv(s') && o in s'.k.sched.models && t in s.k.sched.models
            && s'.k.sched.models[o].prio == s.k.sched.models[t].prio <= s.k.sched.models[o].prio
  {
    InheritKernel(s, t, r, now);
    InheritKeepsInv(s, t, r, now);
    CurrentIsBest(s, t, r);
  }

  lemma CurrentIsBest(s: PiState, t: Task, r: ResName)
    requires Inv(s) && s.k.curr == Some(t) && Held(s.res, r)
    ensures t in s.k.sched.models && Owner(s.res, r) in s.k.sched.models
    ensures s.k.sched.models[t].prio <= s.k.sched.models[Owner(s.res, r)].prio
  {
    assert Owner(s.res, r) in Elements(s.k.sched.queue);
  }

  // ---------- undoing the inheritance ----------

  /** History: the priority each owner had when it got its resource, the resources whose owner found them free
      rather than receiving them by hand-off, and the priority of each task when it last found a resource free. */
  datatype Grants = Grants(prio: map<ResName, int>, free: set<ResName>, locks: map<(Task, ResName), int>) {

    function FoundFree(t: Task, r: ResName, p: int): Grants { Grants(prio[r := p], free + {r}, locks[(t, r) := p]) }

    function HandedOn(r: ResName, p: int): Grants { Grants(prio[r := p], free - {r}, locks) }

    function GivenBack(r: ResName): Grants { Grants(prio - {r}, free - {r}, locks) }

    /** The priority of t when it last found r free, or 0 if it never did. */
    function LastLock(t: Task, r: ResName): int { if (t, r) in locks then locks[(t, r)] else 0 }
  }

  const NO_GRANTS := Grants(map[], {}, map[])

  ghost function Record(s: PiState, g: Grants, e: Event): Grants
    requires Inv(s) && Enabled(s, e)
  {
    match e
    case Request(t, r, _) => if s.res[r].IsLocked() then g else g.FoundFree(t, r, s.k.sched.models[t].prio)
    case Release(_, r, _) =>
      if Waiting(s.blocked, r) == [] then g.GivenBack(r)
      else g.HandedOn(r, s.k.sched.models[Waiting(s.blocked, r)[0]].prio)
    case _ => g
  }

  /** What the history says of one resource. */
  ghost predicate RecordedFor(s: PiState, g: Grants, r: ResName) {
    && (Held(s.res, r) ==>
          && r in g.prio && Owner(s.res, r) in s.k.sched.models
          && (Waiting(s.blocked, r) == [] ==> s.k.sched.models[Owner(s.res, r)].prio == g.prio[r])
          && (r in g.free ==> g.LastLock(Owner(s.res, r), r) == g.prio[r]))
    && (r in g.free ==> Held(s.res, r))
  }

  /** The history is right about every resource, and the saved entries are the priorities at the last locks. */
  ghost predicate Recorded(s: PiState, g: Grants) {
    (forall r :: RecordedFor(s, g, r)) && forall t, r :: s.Saved(t, r) == g.LastLock(t, r)
  }

  /** A step leaves alone what the history says of a resource. */
  ghost predicate Untouched(s: PiState, s': PiState, r: ResName) {
    && (Held(s'.res, r) <==> Held(s.res, r))
    && Waiting(s'.blocked, r) == Waiting(s.blocked, r)
    && (Held(s.res, r) ==>
          && Owner(s'.res, r) == Owner(s.res, r)
          && SameRank(s.k.sched.models, s'.k.sched.models, Owner(s.res, r)))
  }

  /** The history of the resource r changed, and perhaps its last lock by t. */
  lemma RecordedStays(s: PiState, g: Grants, s': PiState, g': Grants, r: ResName)
    requires Recorded(s, g) && RecordedFor(s', g', r)
    requires forall r' :: r' != r ==> Untouched(s, s', r')
    requires g'.prio - {r} == g.prio - {r} && g'.free - {r} == g.free - {r}
    requires forall t, r' :: r' != r ==> g'.LastLock(t, r') == g.LastLock(t, r')
    requires forall t, r' :: s'.Saved(t, r') == g'.LastLock(t, r')
    ensures Recorded(s', g')
  {
    forall r' ensures RecordedFor(s', g', r') {
      if r' != r {
        assert Untouched(s, s', r') && RecordedFor(s, g, r');
        assert r' in g'.free <==> r' in g.free - {r};
        assert r' in g'.prio.Keys <==> r' in (g.prio - {r}).Keys;
        assert r' in g.prio ==> g'.prio[r'] == (g.prio - {r})[r'];
      }
    }
  }

  lemma OwnersAreKnown(s: PiState)
    requires Inv(s)
    ensures forall r :: Held(s.res, r) ==>
              Owner(s.res, r) in s.k.sched.queue && Owner(s.res, r) in s.k.sched.models && Owner(s.res, r) in s.jobs
    ensures forall r, r' :: Held(s.res, r) && Held(s.res, r') && Owner(s.res, r) == Owner(s.res, r') ==> r == r'
    ensures forall r :: r in s.res ==> (s.res[r].IsLocked() <==> Held(s.res, r))
  {
    assert forall r :: Held(s.res, r) ==> Owner(s.res, r) in Elements(s.k.sched.queue);
  }

  lemma LockIsRecorded(s: PiState, g: Grants, t: Task, r: ResName)
    requires Inv(s) && Recorded(s, g) && s.k.curr == Some(t) && r in s.res
        && HoldsNothing(s.res, t) && !s.res[r].IsLocked()
    ensures Recorded(Lock(s, t, r), g.FoundFree(t, r, s.k.sched.models[t].prio))
  {
    OwnersAreKnown(s);
    var s', g' := Lock(s, t, r), g.FoundFree(t, r, s.k.sched.models[t].prio);
    hide Inv;
    LockLeavesOthers(s, t, r);
    assert forall u, r' :: s'.Saved(u, r') == if u == t && r' == r then s.k.sched.models[t].prio else s.Saved(u, r');
    assert forall u, r' ::
        g'.LastLock(u, r') == if u == t && r' == r then s.k.sched.models[t].prio else g.LastLock(u, r');
    RecordedStays(s, g, s', g', r);
  }

  lemma LockLeavesOthers(s: PiState, t: Task, r: ResName)
    requires r in s.res && t in s.k.sched.models
        && forall r' :: Held(s.res, r') ==> Owner(s.res, r') in s.k.sched.models
    ensures forall r' :: r' != r ==> Untouched(s, Lock(s, t, r), r')
    ensures Held(Lock(s, t, r).res, r) && Owner(Lock(s, t, r).res, r) == t
  {
  }

  /** The list of r grew; its owner may have a new priority. */
  lemma GrowthIsRecorded(s: PiState, g: Grants, s': PiState, r: ResName)
    requires Recorded(s, g) && Held(s.res, r) && s'.res == s.res && s'.saved == s.saved
    requires forall r' :: r' != r ==> Waiting(s'.blocked, r') == Waiting(s.blocked, r')
    requires Waiting(s'.blocked, r) != [] && Owner(s.res, r) in s'.k.sched.models
    requires forall r' :: r' != r && Held(s.res, r') ==> SameRank(s.k.sched.models, s'.k.sched.models, Owner(s.res, r'))
    ensures Recorded(s', g)
  {
    assert RecordedFor(s, g, r);
    assert forall t, r' :: s'.Saved(t, r') == s.Saved(t, r');
    forall r' | r' != r ensures Untouched(s, s', r') {
    }
    RecordedStays(s, g, s', g, r);
  }

  /** The resource r changed hands to w. */
  lemma GrantIsRecorded(s: PiState, g: Grants, s': PiState, r: ResName, w: Task)
    requires Recorded(s, g) && Held(s.res, r) && s'.saved == s.saved
    requires s'.res == s.res[r := s.res[r].Unlock().Lock(w)]
    requires forall r' :: r' != r ==> Waiting(s'.blocked, r') == Waiting(s.blocked, r')
    requires w in s.k.sched.models && w in s'.k.sched.models && s'.k.sched.models[w].prio == s.k.sched.models[w].prio
    requires forall r' :: r' != r && Held(s.res, r') ==> SameRank(s.k.sched.models, s'.k.sched.models, Owner(s.res, r'))
    ensures Recorded(s', g.HandedOn(r, s.k.sched.models[w].prio))
  {
    assert forall t, r' :: s'.Saved(t, r') == s.Saved(t, r');
    forall r' | r' != r ensures Untouched(s, s', r') {
    }
    RecordedStays(s, g, s', g.HandedOn(r, s.k.sched.models[w].prio), r);
  }

  lemma InheritIsRecorded(s: PiState, g: Grants, t: Task, r: ResName, now: int)
    requires Inv(s) && Recorded(s, g) && s.k.curr == Some(t) && r in s.res
        && HoldsNothing(s.res, t) && s.res[r].IsLocked()
    ensures Recorded(RequestResource(s, t, r, now), g)
  {
    OwnersAreKnown(s);
    InheritKernel(s, t, r, now);
    InheritShape(s, t, r, now);
    var s' := RequestResource(s, t, r, now);
    hide Inv, Inherit, RequestResource, Recorded, Held;
    var q := InsertSorted(s'.k.sched.models, Waiting(s.blocked, r), t);
    assert q != [];
    hide InsertSorted;
    OtherLines(s.blocked, r, q);
    WaitingAfter(s.blocked, r, q, r);
    hide Waiting;
    GrowthIsRecorded(s, g, s', r);
  }

  lemma UnlockIsRecorded(s: PiState, g: Grants, r: ResName)
    requires Inv(s) && Recorded(s, g) && Held(s.res, r)
    ensures Recorded(s.(res := s.res[r := s.res[r].Unlock()], k := s.k.Dispatch()), g.GivenBack(r))
  {
    OwnersAreKnown(s);
    var s' := s.(res := s.res[r := s.res[r].Unlock()], k := s.k.Dispatch());
    hide Inv;
    assert forall t, r' :: s'.Saved(t, r') == s.Saved(t, r');
    forall r' | r' != r ensures Untouched(s, s', r') {
    }
    RecordedStays(s, g, s', g.GivenBack(r), r);
  }

  lemma HandOffIsRecorded(s: PiState, g: Grants, t: Task, r: ResName, now: int)
    requires Inv(s) && Recorded(s, g) && Enabled(s, Release(t, r, now)) && Waiting(s.blocked, r) != []
    ensures Recorded(Step(s, Release(t, r, now)), Record(s, g, Release(t, r, now)))
  {
    OwnersAreKnown(s);
    HandOffKeepsInv(s, t, r, now);
    HandOffShape(s, t, r, now);
    var s', w := ReleaseResource(s, t, r, now), Waiting(s.blocked, r)[0];
    OtherLines(s.blocked, r, Waiting(s.blocked, r)[1..]);
    HandOffRecord(s, g, t, r, now);
    hide Inv, ReleaseResource, Recorded, Held, Waiting, Sched.Extract, Sched.Insert, Record, SameRank;
    assert forall r' :: r' != r && Held(s.res, r') ==>
        SameRank(s.k.sched.models, s'.k.sched.models, Owner(s.res, r')) by {
      forall r' | r' != r && Held(s.res, r') ensures Owner(s.res, r') != t && Owner(s.res, r') != w {
      }
    }
    GrantIsRecorded(s, g, s', r, w);
  }

  lemma HandOffRecord(s: PiState, g: Grants, t: Task, r: ResName, now: int)
    requires Inv(s) && Enabled(s, Release(t, r, now)) && Waiting(s.blocked, r) != []
    requires Waiting(s.blocked, r)[0] in s.k.sched.models
    ensures Step(s, Release(t, r, now)) == ReleaseResource(s, t, r, now)
    ensures Record(s, g, Release(t, r, now)) == g.HandedOn(r, s.k.sched.models[Waiting(s.blocked, r)[0]].prio)
  {
  }

  lemma OtherStepIsRecorded(s: PiState, g: Grants, e: Event)
    requires Inv(s) && Recorded(s, g) && Enabled(s, e) && !e.Request? && !e.Release?
    ensures Recorded(Step(s, e), g)
  {
    OtherStepLeavesAlone(s, e);
    var s' := Step(s, e);
    hide Step, Inv;
    forall r ensures RecordedFor(s', g, r) {
      assert RecordedFor(s, g, r) && Untouched(s, s', r);
    }
  }

  lemma OtherStepLeavesAlone(s: PiState, e: Event)
    requires Inv(s) && Enabled(s, e) && !e.Request? && !e.Release?
    ensures forall t, r :: Step(s, e).Saved(t, r) == s.Saved(t, r)
    ensures forall r :: Untouched(s, Step(s, e), r)
  {
    OwnersAreKnown(s);
    var s' := Step(s, e);
    hide Owners, Waiters, OwnersInherit, CurrentDominates, Known, Sorted, Sched.Valid, InsertSorted, Without;
    assert s'.res == s.res && s'.blocked == s.blocked && s'.saved == s.saved;
    assert forall x :: x in s.k.sched.models && x in s.jobs ==> SameRank(s.k.sched.models, s'.k.sched.models, x);
  }

  lemma StepIsRecorded(s: PiState, g: Grants, e: Event)
    requires Inv(s) && Recorded(s, g) && Enabled(s, e)
    ensures Recorded(Step(s, e), Record(s, g, e))
  {
    hide Inv, Recorded;
    match e
    case Request(t, r, now) =>
      if s.res[r].IsLocked() {
        InheritIsRecorded(s, g, t, r, now);
      } else {
        LockIsRecorded(s, g, t, r);
      }
    case Release(t, r, now) =>
      if Waiting(s.blocked, r) == [] {
        UnlockIsRecorded(s, g, r);
      } else {
        HandOffIsRecorded(s, g, t, r, now);
      }
    case _ => OtherStepIsRecorded(s, g, e);
  }

  /** The history of a run. */
  ghost function History(s: PiState, g: Grants, es: seq<Event>): Grants
    requires Inv(s) && ValidRun(s, es)
    decreases |es|
  {
    if es == [] then g
    else
      StepKeepsInv(s, es[0]);
      History(Step(s, es[0]), Record(s, g, es[0]), es[1..])
  }

  lemma {:induction false} HistoryIsRecorded(s: PiState, g: Grants, es: seq<Event>)
    requires Inv(s) && Recorded(s, g) && ValidRun(s, es)
    ensures Inv(Run(s, es)) && Recorded(Run(s, es), History(s, g, es))
    decreases |es|
  {
    if es != [] {
      StepKeepsInv(s, es[0]);
      StepIsRecorded(s, g, es[0]);
      HistoryIsRecorded(Step(s, es[0]), Record(s, g, es[0]), es[1..]);
    }
  }

  /** Over every run, a release gives the owner back the priority it had when it got the resource exactly when
      no task waits, the owner found the resource free, or the priority it had when it last found that resource
      free, 0 if it never did, happens to be the same. */
  lemma ReleaseUndoesInheritance(s0: PiState, es: seq<Event>, t: Task, r: ResName, now: int)
    requires Initial(s0) && Inv(s0) && ValidRun(s0, es)
    requires Inv(Run(s0, es)) && Enabled(Run(s0, es), Release(t, r, now))
    ensures var s, g := Run(s0, es), History(s0, NO_GRANTS, es);
            var s' := Step(s, Release(t, r, now));
            && r in g.prio && t in s'.k.sched.models
            && (s'.k.sched.models[t].prio == g.prio[r] <==>
                  Waiting(s.blocked, r) == [] || r in g.free || g.LastLock(t, r) == g.prio[r])
  {
    assert Recorded(s0, NO_GRANTS);
    HistoryIsRecorded(s0, NO_GRANTS, es);
    var s, g := Run(s0, es), History(s0, NO_GRANTS, es);
    assert RecordedFor(s, g, r);
    if Waiting(s.blocked, r) != [] {
      HandOffKeepsInv(s, t, r, now);
      assert s.Saved(t, r) == g.LastLock(t, r);
    }
  }

  /** An owner that received the resource by hand-off, and never found it free before, ends up with priority 0, the
      most urgent one, when it releases while others wait. */
  lemma HandOffOwnerGetsZero(s: PiState, t: Task, r: ResName, now: int)
    requires Inv(s) && Enabled(s, Release(t, r, now)) && Waiting(s.blocked, r) != [] && (t, r) !in s.saved
    ensures t in Step(s, Release(t, r, now)).k.sched.models
    ensures Step(s, Release(t, r, now)).k.sched.models[t].prio == 0
  {
    HandOffKeepsInv(s, t, r, now);
  }

  // ---------- the end event finds a task ----------

  /** The current task executes from the end of its context switch on, so requests, releases and ends come only
      after its end event. The results above hold without this. */
  ghost predicate Executing(s: PiState, e: Event) {
    e.Finish? || e.Request? || e.Release? ==> !s.k.endEv
  }

  ghost predicate ExecutingRun(s: PiState, es: seq<Event>)
    requires Inv(s) && ValidRun(s, es)
    decreases |es|
  {
    es == [] || (Executing(s, es[0]) && (StepKeepsInv(s, es[0]); ExecutingRun(Step(s, es[0]), es[1..])))
  }

  lemma StepKeepsSwitchTask(s: PiState, e: Event)
    requires Inv(s) && Enabled(s, e) && Executing(s, e) && (s.k.endEv ==> s.k.curr.Some?)
    ensures Step(s, e).k.endEv ==> Step(s, e).k.curr.Some?
  {
    hide Owners, Waiters, OwnersInherit, CurrentDominates, Sched.Extract, Sched.Insert, InsertSorted;
  }

  /** In every run whose tasks act only while they execute, the end event of a context switch finds a current task
      to schedule. */
  lemma {:induction false} EndEventFindsTask(s: PiState, es: seq<Event>)
    requires Inv(s) && ValidRun(s, es) && ExecutingRun(s, es) && (s.k.endEv ==> s.k.curr.Some?)
    ensures Run(s, es).k.endEv ==> Run(s, es).k.curr.Some?
    decreases |es|
  {
    hide Inv, Enabled, Step, Executing;
    if es != [] {
      StepKeepsInv(s, es[0]);
      StepKeepsSwitchTask(s, es[0]);
      EndEventFindsTask(Step(s, es[0]), es[1..]);
    }
  }
}
