/**
 First-come-first-served resources with any number of units, on the single-processor kernel
 (src/fcfsresmanager.cpp, src/resource.cpp). A request and a release move one unit, whatever
 number the caller passes.
 */
module Fcfs {
  import opened Common
  import opened ReadyQueue
  import opened SingleKernel
  import opened Resources

  datatype FcfsState = FcfsState(
    k: Rt,
    jobs: set<Task>,
    res: ResTable,
    blocked: WaitLists,
    users: map<ResName, Task>)     // _resAndCurrUsers

  /** request(): with no unit left the task is suspended at the back of the line. */
  function Request(s: FcfsState, t: Task, r: ResName): FcfsState
    requires r in s.res && t in s.k.sched.queue && t in s.k.sched.models
  {
    if s.res[r].IsLocked() then
      s.(k := s.k.Suspend(t), blocked := s.blocked[r := Waiting(s.blocked, r) + [t]])
    else
      s.(res := s.res[r := s.res[r].Lock(t)], users := s.users[r := t])
  }

  /** release(): the front of the line, if any, gets the unit and becomes ready. */
  function Release(s: FcfsState, r: ResName, now: int): FcfsState
    requires r in s.res && Known(s.k.sched.models, s.k.sched.queue)
    requires Waiting(s.blocked, r) != [] ==> Waiting(s.blocked, r)[0] in s.k.sched.models
  {
    var line := Waiting(s.blocked, r);
    if line == [] then s.(res := s.res[r := s.res[r].Unlock()], users := s.users - {r})
    else
      s.(res := s.res[r := s.res[r].Unlock().Lock(line[0])], users := s.users[r := line[0]],
         k := s.k.Activate(line[0], now), blocked := s.blocked[r := line[1..]])
  }

  datatype Event =
    | Arrive(t: Task, now: int)
    | Finish(t: Task)
    | Ask(t: Task, r: ResName)
    | Give(t: Task, r: ResName, now: int)
    | BeginFires
    | EndFires

  /** History of one resource: who holds units, who blocked in which order, who was served from the line, and who got
      the latest unit, unless one was given back since with nobody in the line. */
  datatype Log = Log(holders: multiset<Task>, blockedOrder: seq<Task>, served: seq<Task>, latest: Option<Task>)

  /** The current task asks; it gives back a unit it holds. */
  ghost predicate Enabled(s: FcfsState, logs: map<ResName, Log>, e: Event) {
    match e
    case Arrive(t, _) => t in s.k.sched.models && t !in s.jobs
    case Finish(t) => s.k.curr == Some(t)
    case Ask(t, r) => s.k.curr == Some(t) && r in s.res
    case Give(t, r, _) => s.k.curr == Some(t) && r in s.res && r in logs && t in logs[r].holders
    case BeginFires => s.k.beginEv
    case EndFires => s.k.endEv
  }

  /** Waiting tasks are active, outside the ready queue, and wait in one place. */
  ghost predicate Lines(s: FcfsState) {
    && s.k.Valid()
    && Elements(s.k.sched.queue) <= s.jobs
    && (forall r, i :: r in s.blocked && 0 <= i < |s.blocked[r]| ==>
          s.blocked[r][i] in s.k.sched.models && s.blocked[r][i] in s.jobs && s.blocked[r][i] !in s.k.sched.queue)
    && (forall r, r', i, j ::
          (r in s.blocked && r' in s.blocked && 0 <= i < |s.blocked[r]| && 0 <= j < |s.blocked[r']|
           && s.blocked[r][i] == s.blocked[r'][j]) ==> r == r' && i == j)
  }

  ghost function Step(s: FcfsState, logs: map<ResName, Log>, e: Event): FcfsState
    requires Lines(s) && Enabled(s, logs, e)
  {
    match e
    case Arrive(t, now) => s.(jobs := s.jobs + {t}, k := s.k.OnArrival(t, now))
    case Finish(t) => s.(jobs := s.jobs - {t}, k := s.k.OnEnd(t))
    case Ask(t, r) =>
      var s' := Request(s, t, r);
      if s.res[r].IsLocked() then s'.(k := s'.k.Dispatch()) else s'
    case Give(t, r, now) =>
      var s' := Release(s, r, now);
      s'.(k := s'.k.Dispatch())
    case BeginFires => s.(k := s.k.OnBegin())
    case EndFires => s.(k := s.k.OnEndDispatch())
  }

  ghost function Record(s: FcfsState, logs: map<ResName, Log>, e: Event): map<ResName, Log>
    requires Enabled(s, logs, e)
  {
    match e
    case Ask(t, r) =>
      if r !in logs then logs
      else if s.res[r].IsLocked() then logs[r := logs[r].(blockedOrder := logs[r].blockedOrder + [t])]
      else logs[r := logs[r].(holders := logs[r].holders + multiset{t}, latest := Some(t))]
    case Give(t, r, _) =>
      var line := Waiting(s.blocked, r);
      var rest := logs[r].holders - multiset{t};
      if line == [] then logs[r := logs[r].(holders := rest, latest := None)]
      else
        logs[r := logs[r].(holders := rest + multiset{line[0]}, served := logs[r].served + [line[0]],
                           latest := Some(line[0]))]
    case _ => logs
  }

  /** Units are conserved, nobody waits while a unit is free, the line is what is left of the blocking order after
      those served, and the recorded owner and user hold the latest unit. */
  ghost predicate Fair(s: FcfsState, logs: map<ResName, Log>, r: ResName) {
    r in s.res ==>
      && r in logs
      && s.res[r].available + |logs[r].holders| == s.res[r].total
      && 0 <= s.res[r].available <= s.res[r].total
      && (Waiting(s.blocked, r) != [] ==> s.res[r].available == 0)
      && logs[r].blockedOrder == logs[r].served + Waiting(s.blocked, r)
      && s.res[r].owner == logs[r].latest == (if r in s.users then Some(s.users[r]) else None)
  }

  lemma LinesStayForKernel(s: FcfsState, s': FcfsState)
    requires Lines(s) && s'.blocked == s.blocked && s'.k.Valid()
    requires Elements(s'.k.sched.queue) <= s'.jobs
    requires s'.k.sched.models.Keys == s.k.sched.models.Keys
    requires forall r, i :: r in s.blocked && 0 <= i < |s.blocked[r]| ==>
               s.blocked[r][i] in s'.jobs && s.blocked[r][i] !in Elements(s'.k.sched.queue)
    ensures Lines(s')
  {
    assert forall t :: t in s'.k.sched.queue ==> t in Elements(s'.k.sched.queue);
  }

  lemma SuspendedKernel(k: Rt, t: Task)
    requires k.Valid() && k.curr == Some(t)
    ensures k.Suspend(t).Valid() && k.Suspend(t).sched.models.Keys == k.sched.models.Keys
    ensures Elements(k.Suspend(t).sched.queue) == Elements(k.sched.queue) - {t}
    ensures forall x :: x in k.Suspend(t).sched.queue ==> x in k.sched.queue && x != t
  {
    ExtractKeepsValid(k.sched, t, 0);
    assert forall x :: x in k.sched.queue <==> x in Elements(k.sched.queue);
    assert forall x :: x in k.Suspend(t).sched.queue <==> x in Elements(k.Suspend(t).sched.queue);
  }

  lemma ServedKernel(k: Rt, w: Task, now: int)
    requires k.Valid() && w in k.sched.models && w !in k.sched.queue
    ensures k.Activate(w, now).Valid() && k.Activate(w, now).sched.models.Keys == k.sched.models.Keys
    ensures Elements(k.Activate(w, now).sched.queue) == Elements(k.sched.queue) + {w}
    ensures forall x :: x in k.Activate(w, now).sched.queue ==> x in k.sched.queue || x == w
  {
    InsertKeepsValid(k.sched, w, now);
    assert forall x :: x in k.sched.queue <==> x in Elements(k.sched.queue);
    assert forall x :: x in k.Activate(w, now).sched.queue <==> x in Elements(k.Activate(w, now).sched.queue);
  }

  lemma AskKeepsLines(s: FcfsState, t: Task, r: ResName)
    requires Lines(s) && s.k.curr == Some(t) && r in s.res
    ensures Lines(Request(s, t, r))
  {
    if s.res[r].IsLocked() {
      assert t in Elements(s.k.sched.queue);
      SuspendedKernel(s.k, t);
      hide Sched.Valid, Rt.Suspend;
      var s' := Request(s, t, r);
      assert s'.k == s.k.Suspend(t);
    }
  }

  lemma GiveKeepsLines(s: FcfsState, r: ResName, now: int)
    requires Lines(s) && r in s.res
    ensures Waiting(s.blocked, r) != [] ==> Waiting(s.blocked, r)[0] in s.k.sched.models
    ensures Lines(Release(s, r, now))
  {
    if Waiting(s.blocked, r) != [] {
      var w := s.blocked[r][0];
      ServedKernel(s.k, w, now);
      hide Sched.Valid, Rt.Activate;
      var s' := Release(s, r, now);
      assert s'.k == s.k.Activate(w, now);
    }
  }

  lemma StepKeepsLines(s: FcfsState, logs: map<ResName, Log>, e: Event)
    requires Lines(s) && Enabled(s, logs, e)
    ensures Lines(Step(s, logs, e))
  {
    match e
    case Arrive(t, now) =>
      InsertKeepsValid(s.k.sched, t, now);
      LinesStayForKernel(s, Step(s, logs, e));
    case Finish(t) =>
      ExtractKeepsValid(s.k.sched, t, 0);
      LinesStayForKernel(s, Step(s, logs, e));
    case Ask(t, r) => AskKeepsLines(s, t, r);
    case Give(_, r, now) => GiveKeepsLines(s, r, now);
    case BeginFires => OnBeginTakesFirst(s.k);
    case EndFires =>
  }

  lemma StepKeepsFair(s: FcfsState, logs: map<ResName, Log>, e: Event, r: ResName)
    requires Lines(s) && Enabled(s, logs, e) && Fair(s, logs, r)
    ensures Fair(Step(s, logs, e), Record(s, logs, e), r)
  {
    if e.Give? && e.r == r {
      GiveKeepsFair(s, logs, e.t, r, e.now);
    } else if e.Ask? && e.r == r {
      AskKeepsFair(s, logs, e.t, r);
    } else {
      hide Fair;
      OthersKeepFair(s, logs, e, r);
    }
  }

  lemma FairOf(s: FcfsState, logs: map<ResName, Log>, s': FcfsState, logs': map<ResName, Log>, r: ResName)
    requires Fair(s, logs, r)
    requires (r in s'.res <==> r in s.res) && (r in s.res ==> s'.res[r] == s.res[r])
    requires Waiting(s'.blocked, r) == Waiting(s.blocked, r)
    requires (r in s'.users <==> r in s.users) && (r in s.users ==> s'.users[r] == s.users[r])
    requires r in logs ==> r in logs' && logs'[r] == logs[r]
    ensures Fair(s', logs', r)
  {
  }

  lemma OthersKeepFair(s: FcfsState, logs: map<ResName, Log>, e: Event, r: ResName)
    requires Lines(s) && Enabled(s, logs, e) && Fair(s, logs, r)
    requires !(e.Give? && e.r == r) && !(e.Ask? && e.r == r)
    ensures Fair(Step(s, logs, e), Record(s, logs, e), r)
  {
    hide Fair;
    FairOf(s, logs, Step(s, logs, e), Record(s, logs, e), r);
  }

  lemma AskKeepsFair(s: FcfsState, logs: map<ResName, Log>, t: Task, r: ResName)
    requires Lines(s) && Enabled(s, logs, Ask(t, r)) && Fair(s, logs, r)
    ensures Fair(Step(s, logs, Ask(t, r)), Record(s, logs, Ask(t, r)), r)
  {
    var line := Waiting(s.blocked, r);
    assert logs[r].served + (line + [t]) == logs[r].served + line + [t];
  }

  lemma GiveKeepsFair(s: FcfsState, logs: map<ResName, Log>, t: Task, r: ResName, now: int)
    requires Lines(s) && Enabled(s, logs, Give(t, r, now)) && Fair(s, logs, r)
    ensures Fair(Step(s, logs, Give(t, r, now)), Record(s, logs, Give(t, r, now)), r)
  {
    var line, h := Waiting(s.blocked, r), logs[r].holders;
    GiveAndTake(h, t);
    if line != [] {
      assert line == [line[0]] + line[1..];
      assert logs[r].served + line == logs[r].served + [line[0]] + line[1..];
    }
  }

  lemma GiveAndTake(h: multiset<Task>, t: Task)
    requires t in h
    ensures |h - multiset{t}| == |h| - 1
    ensures forall w :: |h - multiset{t} + multiset{w}| == |h|
  {
  }

  // ---------- runs ----------

  ghost predicate ValidRun(s: FcfsState, logs: map<ResName, Log>, es: seq<Event>)
    requires Lines(s)
    decreases |es|
  {
    es == [] || (Enabled(s, logs, es[0])
                 && (StepKeepsLines(s, logs, es[0]);
                     ValidRun(Step(s, logs, es[0]), Record(s, logs, es[0]), es[1..])))
  }

  ghost function Run(s: FcfsState, logs: map<ResName, Log>, es: seq<Event>): (FcfsState, map<ResName, Log>)
    requires Lines(s) && ValidRun(s, logs, es)
    decreases |es|
  {
    if es == [] then (s, logs)
    else
      StepKeepsLines(s, logs, es[0]);
      Run(Step(s, logs, es[0]), Record(s, logs, es[0]), es[1..])
  }

  /** At the start every unit is free and nobody waits. */
  lemma InitialIsFair(s: FcfsState, logs: map<ResName, Log>, r: ResName)
    requires s.k.Valid() && Elements(s.k.sched.queue) <= s.jobs && s.blocked == map[]
    requires r in s.res ==> 0 <= s.res[r].available == s.res[r].total
    requires r in s.res ==> s.res[r].owner == None && r !in s.users
    requires r in s.res ==> r in logs && logs[r] == Log(multiset{}, [], [], None)
    ensures Lines(s) && Fair(s, logs, r)
  {
  }

  ghost function Gives(es: seq<Event>, r: ResName): nat {
    if es == [] then 0 else (if es[0].Give? && es[0].r == r then 1 else 0) + Gives(es[1..], r)
  }

  /** Over every run: units are conserved, and those served so far are a prefix of the blocking order. */
  lemma {:induction false} ConservedAndFair(s: FcfsState, logs: map<ResName, Log>, es: seq<Event>, r: ResName)
    requires Lines(s) && ValidRun(s, logs, es) && Fair(s, logs, r)
    ensures var (s', logs') := Run(s, logs, es); Lines(s') && Fair(s', logs', r)
    decreases |es|
  {
    if es != [] {
      StepKeepsLines(s, logs, es[0]);
      StepKeepsFair(s, logs, es[0], r);
      ConservedAndFair(Step(s, logs, es[0]), Record(s, logs, es[0]), es[1..], r);
    }
  }

  /** A later request never overtakes: it finds a unit free only when everybody who blocked was served. */
  lemma NoOvertaking(s: FcfsState, logs: map<ResName, Log>, t: Task, r: ResName)
    requires Lines(s) && Fair(s, logs, r) && Enabled(s, logs, Ask(t, r))
    ensures Step(s, logs, Ask(t, r)).res[r] != s.res[r] ==> logs[r].blockedOrder == logs[r].served
  {
  }

  /** The step of the line under one event. */
  lemma LineMoves(s: FcfsState, logs: map<ResName, Log>, e: Event, r: ResName, i: nat)
    requires Lines(s) && Enabled(s, logs, e) && i < |Waiting(s.blocked, r)|
    requires e.Give? && e.r == r ==> i > 0
    ensures var line', i' := Waiting(Step(s, logs, e).blocked, r), (if e.Give? && e.r == r then i - 1 else i);
            i' < |line'| && line'[i'] == Waiting(s.blocked, r)[i]
  {
  }

  /** Bounded waiting: whatever else happens, the waiter at place i of the line moves one place at each
      release. */
  lemma {:induction false} MovesUpAtReleases(s: FcfsState, logs: map<ResName, Log>, es: seq<Event>, r: ResName, i: nat)
    requires Lines(s) && ValidRun(s, logs, es) && i < |Waiting(s.blocked, r)|
    requires Gives(es, r) <= i
    ensures var line' := Waiting(Run(s, logs, es).0.blocked, r);
            var place := i - Gives(es, r);
            place < |line'| && line'[place] == Waiting(s.blocked, r)[i]
    decreases |es|
  {
    hide Lines, Enabled, Step, Record, Waiting;
    if es != [] {
      StepKeepsLines(s, logs, es[0]);
      LineMoves(s, logs, es[0], r, i);
      var i' := if es[0].Give? && es[0].r == r then i - 1 else i;
      MovesUpAtReleases(Step(s, logs, es[0]), Record(s, logs, es[0]), es[1..], r, i');
    }
  }

  /** The release that finds a task at the front of the line gives it the unit and makes it ready. */
  lemma ReleaseServesFront(s: FcfsState, logs: map<ResName, Log>, t: Task, r: ResName, now: int)
    requires Lines(s) && Enabled(s, logs, Give(t, r, now)) && Waiting(s.blocked, r) != []
    ensures var s' := Step(s, logs, Give(t, r, now));
            var w := Waiting(s.blocked, r)[0];
            s'.res[r].owner == Some(w) && s'.users[r] == w && w in s'.k.sched.queue
            && w in s'.k.sched.models && s'.k.sched.models[w].insertTime == now
            && Waiting(s'.blocked, r) == Waiting(s.blocked, r)[1..]
  {
    var w := s.blocked[r][0];
    InsertKeepsValid(s.k.sched, w, now);
    assert w in Elements(s.k.sched.Insert(w, now).queue);
  }

  // ---------- the processor is attended, and nobody is lost ----------

  /** An active task is ready or waits for a unit. */
  ghost predicate NobodyLost(s: FcfsState) {
    forall t :: t in s.jobs ==> t in Elements(s.k.sched.queue) || WaitsSomewhere(s.blocked, t)
  }

  lemma StepKeepsAttended(s: FcfsState, logs: map<ResName, Log>, e: Event)
    requires Lines(s) && Enabled(s, logs, e) && Attended(s.k)
    ensures Attended(Step(s, logs, e).k)
  {
    hide Sched.Insert, Sched.Extract;
    if e.BeginFires? {
      OnBeginTakesFirst(s.k);
    }
  }

  /** A begin event is pending after a step exactly when the step calls for one, or one was pending that did not
      fire. */
  lemma BeginIsPendingIff(s: FcfsState, logs: map<ResName, Log>, e: Event)
    requires Lines(s) && Enabled(s, logs, e)
    ensures Step(s, logs, e).k.beginEv <==>
              || e.Arrive? || e.Give?
              || (e.Finish? && Step(s, logs, e).k.sched.queue != [])
              || (e.Ask? && s.res[e.r].IsLocked())
              || (s.k.beginEv && !e.BeginFires?)
  {
    hide Sched.Insert, Sched.Extract;
    if e.BeginFires? {
      OnBeginTakesFirst(s.k);
    }
  }

  lemma AskLosesNobody(s: FcfsState, t: Task, r: ResName)
    requires Lines(s) && s.k.curr == Some(t) && r in s.res && s.res[r].IsLocked() && NobodyLost(s)
    ensures NobodyLost(Request(s, t, r))
  {
    SuspendedKernel(s.k, t);
    var s' := Request(s, t, r);
    hide Lines, Rt.Suspend;
    forall x | x in s'.jobs ensures x in Elements(s'.k.sched.queue) || WaitsSomewhere(s'.blocked, x) {
      if x == t {
        assert s'.blocked[r][|Waiting(s.blocked, r)|] == t;
        assert t in Waiting(s'.blocked, r);
      } else if WaitsSomewhere(s.blocked, x) {
        var r' :| x in Waiting(s.blocked, r');
        assert x in Waiting(s'.blocked, r');
      }
    }
  }

  lemma GiveLosesNobody(s: FcfsState, r: ResName, now: int)
    requires Lines(s) && r in s.res && NobodyLost(s)
    ensures Waiting(s.blocked, r) != [] ==> Waiting(s.blocked, r)[0] in s.k.sched.models
    ensures NobodyLost(Release(s, r, now))
  {
    var line := Waiting(s.blocked, r);
    if line != [] {
      assert s.blocked[r][0] == line[0];
      ServedKernel(s.k, line[0], now);
      var s' := Release(s, r, now);
      hide Lines, Rt.Activate;
      forall x | x in s'.jobs ensures x in Elements(s'.k.sched.queue) || WaitsSomewhere(s'.blocked, x) {
        if x != line[0] && WaitsSomewhere(s.blocked, x) {
          var r' :| x in Waiting(s.blocked, r');
          assert r' == r ==> x in line[1..];
          assert x in Waiting(s'.blocked, r');
        }
      }
    }
  }

  lemma StepLosesNobody(s: FcfsState, logs: map<ResName, Log>, e: Event)
    requires Lines(s) && Enabled(s, logs, e) && NobodyLost(s)
    ensures NobodyLost(Step(s, logs, e))
  {
    hide WaitsSomewhere;
    match e
    case Arrive(t, now) => InsertKeepsValid(s.k.sched, t, now);
    case Finish(t) => ExtractKeepsValid(s.k.sched, t, 0);
    case Ask(t, r) =>
      if s.res[r].IsLocked() {
        AskLosesNobody(s, t, r);
      }
    case Give(_, r, now) => GiveLosesNobody(s, r, now);
    case BeginFires => OnBeginTakesFirst(s.k);
    case EndFires =>
  }

  /** Over every run: unless a begin event is pending the first ready task has the processor, and every active task
      is ready or waits for a unit. */
  lemma {:induction false} RunsProgress(s: FcfsState, logs: map<ResName, Log>, es: seq<Event>)
    requires Lines(s) && ValidRun(s, logs, es) && Attended(s.k) && NobodyLost(s)
    ensures var s' := Run(s, logs, es).0; Attended(s'.k) && NobodyLost(s')
    decreases |es|
  {
    hide Lines, Enabled, Step, Record, Attended, NobodyLost;
    if es != [] {
      StepKeepsLines(s, logs, es[0]);
      StepKeepsAttended(s, logs, es[0]);
      StepLosesNobody(s, logs, es[0]);
      RunsProgress(Step(s, logs, es[0]), Record(s, logs, es[0]), es[1..]);
    }
  }

  // ---------- the manager ----------

  class FCFSResManager {
    const kernel: RTKernel
    const res: map<ResName, Resource>
    var blocked: WaitLists
    var users: map<ResName, Task>

    ghost function State(jobs: set<Task>): FcfsState
      reads this, kernel, kernel.sched, res.Values
    {
      FcfsState(kernel.State(), jobs, TableOf(res), blocked, users)
    }

    constructor (kernel: RTKernel, res: map<ResName, Resource>)
      ensures this.kernel == kernel && this.res == res && blocked == map[] && users == map[]
    {
      this.kernel := kernel;
      this.res := res;
      blocked := map[];
      users := map[];
    }

    method RequestUnit(t: Task, r: ResName, ghost jobs: set<Task>) returns (ok: bool)
      requires DistinctResources(res) && r in res && kernel.sched.State().Valid() && t in kernel.sched.queue
      modifies this, kernel`curr, kernel`pre, kernel.sched`models, kernel.sched`queue, res[r]
      ensures ok <==> !old(res[r].State()).IsLocked()
      ensures State(jobs) == Request(old(State(jobs)), t, r)
    {
      hide Sched.Valid, Sched.Extract;
      var locked := res[r].IsLocked();
      if locked {
        kernel.Suspend(t);
        blocked := blocked[r := Waiting(blocked, r) + [t]];
      } else {
        LockIn(res, r, t);
        users := users[r := t];
      }
      ok := !locked;
    }

    /** The front of the line gets the unit just freed and becomes ready. */
    method ServeFront(r: ResName, now: int)
      requires DistinctResources(res) && r in res && kernel.sched.State().Valid() && r in blocked && blocked[r] != []
      requires blocked[r][0] in kernel.sched.models && blocked[r][0] !in kernel.sched.queue
      modifies this, kernel.sched`models, kernel.sched`queue, res[r]
      ensures var w := old(blocked[r][0]);
              && TableOf(res) == old(TableOf(res))[r := old(res[r].State()).Lock(w)]
              && users == old(users)[r := w] && blocked == old(blocked)[r := old(blocked[r])[1..]]
              && kernel.State() == old(kernel.State()).Activate(w, now)
    {
      hide Sched.Valid, Sched.Insert;
      var w := blocked[r][0];
      LockIn(res, r, w);
      users := users[r := w];
      kernel.Activate(w, now);
      blocked := blocked[r := blocked[r][1..]];
    }

    method ReleaseUnit(r: ResName, now: int, ghost jobs: set<Task>)
      requires DistinctResources(res) && r in res && kernel.sched.State().Valid()
      requires Waiting(blocked, r) != [] ==>
                 Waiting(blocked, r)[0] in kernel.sched.models && Waiting(blocked, r)[0] !in kernel.sched.queue
      modifies this, kernel.sched`models, kernel.sched`queue, res[r]
      ensures State(jobs) == Release(old(State(jobs)), r, now)
    {
      hide Sched.Valid, Sched.Insert;
      UnlockIn(res, r);
      users := users - {r};
      if r in blocked && blocked[r] != [] {
        assert users == old(users) - {r} && blocked == old(blocked) && kernel.State() == old(kernel.State());
        var w := blocked[r][0];
        ServeFront(r, now);
        assert users == old(users)[r := w];
        assert TableOf(res) == old(TableOf(res))[r := old(res[r].State()).Unlock().Lock(w)];
      }
    }
  }
}
