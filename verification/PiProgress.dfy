/**
 What priority inheritance does to the tasks that take part (src/piresman.cpp, src/kernel.cpp): the processor is
 attended, no active task is lost, and a task that comes back to the queue goes behind its equals.
 */
module InheritanceProgress {
  import opened Common
  import opened ReadyQueue
  import opened SingleKernel
  import opened Resources
  import opened PriorityInheritance
  import opened InheritanceRuns

  // ---------- the processor is attended ----------

  lemma StepKeepsAttended(s: PiState, e: Event)
    requires Inv(s) && Enabled(s, e) && Attended(s.k)
    ensures Attended(Step(s, e).k)
  {
    hide Owners, Waiters, OwnersInherit, CurrentDominates, Known, Sorted, InsertSorted, Without;
    if e.BeginFires? {
      OnBeginTakesFirst(s.k);
    }
  }

  /** A begin event is pending after a step exactly when the step calls for one, or one was pending that did not fire:
      an arrival, the end of a job that leaves a task ready, a request that blocks, and every release call for one. */
  lemma BeginIsPendingIff(s: PiState, e: Event)
    requires Inv(s) && Enabled(s, e)
    ensures Step(s, e).k.beginEv <==>
              || e.Arrive? || e.Release?
              || (e.Finish? && Step(s, e).k.sched.queue != [])
              || (e.Request? && s.res[e.r].IsLocked())
              || (s.k.beginEv && !e.BeginFires?)
  {
    hide Owners, Waiters, OwnersInherit, CurrentDominates, Known, Sorted, InsertSorted, Without;
    if e.BeginFires? {
      OnBeginTakesFirst(s.k);
    }
  }

  // ---------- nobody is lost ----------

  /** An active task is ready or waits for a resource. */
  ghost predicate NobodyLost(s: PiState) {
    forall t :: t in s.jobs ==> t in Elements(s.k.sched.queue) || WaitsSomewhere(s.blocked, t)
  }

  /** The kernel after each event, as far as the queue goes. */
  lemma QueueAfter(s: PiState, e: Event)
    requires Inv(s) && Enabled(s, e) && !e.Request? && !e.Release?
    ensures Elements(Step(s, e).k.sched.queue) ==
              match e
              case Arrive(t, _) => Elements(s.k.sched.queue) + {t}
              case Finish(t) => Elements(s.k.sched.queue) - {t}
              case _ => Elements(s.k.sched.queue)
    ensures Step(s, e).blocked == s.blocked
  {
    Roles(s);
    hide Owners, Waiters, OwnersInherit, CurrentDominates, Sched.Insert, Sched.Extract;
    match e
    case Arrive(t, now) => InsertKeepsValid(s.k.sched, t, now);
    case Finish(t) => ExtractKeepsValid(s.k.sched, t, 0);
    case _ =>
  }

  lemma RequestLosesNobody(s: PiState, t: Task, r: ResName, now: int)
    requires Inv(s) && NobodyLost(s) && Enabled(s, Request(t, r, now)) && s.res[r].IsLocked()
    ensures NobodyLost(RequestResource(s, t, r, now))
  {
    InheritKernel(s, t, r, now);
    InheritShape(s, t, r, now);
    var s' := RequestResource(s, t, r, now);
    var q' := InsertSorted(s'.k.sched.models, Waiting(s.blocked, r), t);
    InsertedIsIn(s'.k.sched.models, Waiting(s.blocked, r), t);
    OtherLines(s.blocked, r, q');
    WaitingAfter(s.blocked, r, q', r);
    hide Inv, RequestResource, Inherit, InsertSorted, Waiting, Held;
    forall x | x in s'.jobs ensures x in Elements(s'.k.sched.queue) || WaitsSomewhere(s'.blocked, x) {
      if x == t {
        assert t in Waiting(s'.blocked, r);
      } else if WaitsSomewhere(s.blocked, x) {
        var r' :| x in Waiting(s.blocked, r');
        assert x in Waiting(s'.blocked, r');
      }
    }
  }

  lemma InsertedIsIn(ms: Models, q: seq<Task>, t: Task)
    requires Known(ms, q) && t in ms
    ensures t in InsertSorted(ms, q, t) && forall x :: x in q ==> x in InsertSorted(ms, q, t)
  {
    var p := Position(ms, q, t);
    var q' := InsertSorted(ms, q, t);
    assert q'[p] == t;
    forall x | x in q ensures x in q' {
      var i :| 0 <= i < |q| && q[i] == x;
      assert q'[if i < p then i else i + 1] == x;
    }
  }

  lemma HandOffLosesNobody(s: PiState, t: Task, r: ResName, now: int)
    requires Inv(s) && NobodyLost(s) && Enabled(s, Release(t, r, now)) && Waiting(s.blocked, r) != []
    ensures NobodyLost(ReleaseResource(s, t, r, now))
  {
    hide Inv, NobodyLost, ReleaseResource, Waiting;
    HandOffQueues(s, t, r, now);
    ServedIsReady(s, ReleaseResource(s, t, r, now), r);
  }

  /** The front of the line of r has become ready. */
  lemma ServedIsReady(s: PiState, s': PiState, r: ResName)
    requires NobodyLost(s) && Waiting(s.blocked, r) != [] && s'.jobs == s.jobs
    requires Elements(s'.k.sched.queue) == Elements(s.k.sched.queue) + {Waiting(s.blocked, r)[0]}
    requires s'.blocked == s.blocked[r := Waiting(s.blocked, r)[1..]]
    ensures NobodyLost(s')
  {
    hide Waiting;
    var q := Waiting(s.blocked, r);
    OtherLines(s.blocked, r, q[1..]);
    WaitingAfter(s.blocked, r, q[1..], r);
    forall x | x in s'.jobs ensures x in Elements(s'.k.sched.queue) || WaitsSomewhere(s'.blocked, x) {
      if x != q[0] && WaitsSomewhere(s.blocked, x) {
        var r' :| x in Waiting(s.blocked, r');
        assert r' == r ==> x in q[1..];
        assert x in Waiting(s'.blocked, r');
      }
    }
  }

  lemma HandOffQueues(s: PiState, t: Task, r: ResName, now: int)
    requires Inv(s) && Enabled(s, Release(t, r, now)) && Waiting(s.blocked, r) != []
    ensures var s', w := ReleaseResource(s, t, r, now), Waiting(s.blocked, r)[0];
            && Elements(s'.k.sched.queue) == Elements(s.k.sched.queue) + {w}
            && s'.jobs == s.jobs && s'.blocked == s.blocked[r := Waiting(s.blocked, r)[1..]]
  {
    Roles(s);
    HandOffShape(s, t, r, now);
    var w := Waiting(s.blocked, r)[0];
    assert w in Waiting(s.blocked, r) && w !in Elements(s.k.sched.queue);
    hide ReleaseResource, Sched.Extract, Sched.Insert, Waiting, Held;
    HandOffQueue(s.k.sched, t, w, s.Saved(t, r), now);
  }

  lemma StepLosesNobody(s: PiState, e: Event)
    requires Inv(s) && Enabled(s, e) && NobodyLost(s)
    ensures NobodyLost(Step(s, e))
  {
    if e.Request? && s.res[e.r].IsLocked() {
      RequestLosesNobody(s, e.t, e.r, e.now);
    } else if e.Release? && Waiting(s.blocked, e.r) != [] {
      HandOffLosesNobody(s, e.t, e.r, e.now);
    } else if !e.Request? && !e.Release? {
      QueueAfter(s, e);
      hide WaitsSomewhere;
    }
  }

  // ---------- the time of the last entry ----------

  /** The time at which each task last entered the queue: by its arrival, as the owner a request raised, or at the
      release that served it or took its inherited priority. */
  ghost function Entered(s: PiState, log: map<Task, int>, e: Event): map<Task, int>
    requires Inv(s) && Enabled(s, e)
  {
    match e
    case Arrive(t, now) => log[t := now]
    case Request(t, r, now) => if Held(s.res, r) then log[Owner(s.res, r) := now] else log
    case Release(t, r, now) =>
      if Waiting(s.blocked, r) == [] then log else log[t := now][Waiting(s.blocked, r)[0] := now]
    case _ => log
  }

  /** A ready task counts among its equals from the time of its last entry. */
  ghost predicate Stamped(s: PiState, log: map<Task, int>) {
    forall t :: t in Elements(s.k.sched.queue) && t in s.k.sched.models ==>
      t in log && s.k.sched.models[t].insertTime == log[t]
  }

  /** The tasks of `moved` entered at `now`, and no other task in the queue changed its rank. */
  lemma StampedAfter(s: PiState, log: map<Task, int>, s': PiState, log': map<Task, int>, moved: set<Task>, now: int)
    requires Stamped(s, log) && Elements(s'.k.sched.queue) <= Elements(s.k.sched.queue) + moved
    requires forall x :: x in Elements(s.k.sched.queue) ==> x in s.k.sched.models
    requires forall x :: x in s.k.sched.models && x !in moved ==> SameRank(s.k.sched.models, s'.k.sched.models, x)
    requires forall x :: x in moved ==> x in log' && log'[x] == now
    requires forall x :: x in moved && x in s'.k.sched.models ==> s'.k.sched.models[x].insertTime == now
    requires forall x :: x in log && x !in moved ==> x in log' && log'[x] == log[x]
    ensures Stamped(s', log')
  {
  }

  lemma RequestStamps(s: PiState, log: map<Task, int>, t: Task, r: ResName, now: int)
    requires Inv(s) && Stamped(s, log) && Enabled(s, Request(t, r, now)) && s.res[r].IsLocked()
    ensures Held(s.res, r) && Stamped(RequestResource(s, t, r, now), log[Owner(s.res, r) := now])
  {
    Roles(s);
    InheritKernel(s, t, r, now);
    InheritShape(s, t, r, now);
    RaisedAt(s, t, r, now);
    hide Inv, RequestResource, Inherit, InsertSorted, Waiting, Held, Sched.Valid, Sched.Extract, SameRank, Stamped;
    var o := Owner(s.res, r);
    StampedAfter(s, log, RequestResource(s, t, r, now), log[o := now], {o}, now);
  }

  lemma RaisedAt(s: PiState, t: Task, r: ResName, now: int)
    requires Inv(s) && Enabled(s, Request(t, r, now)) && s.res[r].IsLocked()
    requires Held(s.res, r) && Owner(s.res, r) in s.k.sched.queue && t in s.k.sched.Extract(Owner(s.res, r)).queue
    requires Known(s.k.sched.models, Waiting(s.blocked, r))
    ensures var k' := Inherit(s, t, r, now).k;
            Owner(s.res, r) in k'.sched.models && k'.sched.models[Owner(s.res, r)].insertTime == now
  {
    hide InsertSorted, Without;
  }

  lemma HandOffStamps(s: PiState, log: map<Task, int>, t: Task, r: ResName, now: int)
    requires Inv(s) && Stamped(s, log) && Enabled(s, Release(t, r, now)) && Waiting(s.blocked, r) != []
    ensures Stamped(ReleaseResource(s, t, r, now), log[t := now][Waiting(s.blocked, r)[0] := now])
  {
    hide Inv, ReleaseResource, Waiting, Sched.Valid, Sched.Extract, Sched.Insert, SameRank, Stamped;
    ReadyIsKnown(s);
    HandOffQueues(s, t, r, now);
    HandOffKeepsInv(s, t, r, now);
    HandOffTimes(s, t, r, now);
    var w := Waiting(s.blocked, r)[0];
    StampedAfter(s, log, ReleaseResource(s, t, r, now), log[t := now][w := now], {t, w}, now);
  }

  lemma ReadyIsKnown(s: PiState)
    requires Inv(s)
    ensures forall x :: x in Elements(s.k.sched.queue) ==> x in s.k.sched.models
  {
    Roles(s);
  }

  lemma HandOffTimes(s: PiState, t: Task, r: ResName, now: int)
    requires Inv(s) && Enabled(s, Release(t, r, now)) && Waiting(s.blocked, r) != []
    ensures var ms, w := ReleaseResource(s, t, r, now).k.sched.models, Waiting(s.blocked, r)[0];
            t in ms && w in ms && ms[t].insertTime == ms[w].insertTime == now
  {
    hide ReleaseResource, Waiting, Sched.Insert, Owners, Waiters, OwnersInherit, CurrentDominates;
    HandOffShape(s, t, r, now);
    InsertedAt(s.k.sched.Extract(t).ChangePriority(t, s.Saved(t, r)), t, Waiting(s.blocked, r)[0], now);
  }

  lemma InsertedAt(q: Sched, t: Task, w: Task, now: int)
    requires Known(q.models, q.queue) && t in q.models && w in q.models
    ensures var ms := q.Insert(t, now).Insert(w, now).models;
            t in ms && w in ms && ms[t].insertTime == ms[w].insertTime == now
  {
  }

  lemma StepStamps(s: PiState, log: map<Task, int>, e: Event)
    requires Inv(s) && Enabled(s, e) && Stamped(s, log)
    ensures Stamped(Step(s, e), Entered(s, log, e))
  {
    OwnersAreKnown(s);
    if e.Request? && s.res[e.r].IsLocked() {
      RequestStamps(s, log, e.t, e.r, e.now);
    } else if e.Release? && Waiting(s.blocked, e.r) != [] {
      HandOffStamps(s, log, e.t, e.r, e.now);
    } else if !e.Request? && !e.Release? {
      QueueAfter(s, e);
      hide Owners, Waiters, OwnersInherit, CurrentDominates, Sched.Valid, InsertSorted, Without;
    }
  }

  // ---------- runs ----------

  ghost function Entries(s: PiState, log: map<Task, int>, es: seq<Event>): map<Task, int>
    requires Inv(s) && ValidRun(s, es)
    decreases |es|
  {
    if es == [] then log
    else
      StepKeepsInv(s, es[0]);
      Entries(Step(s, es[0]), Entered(s, log, es[0]), es[1..])
  }

  /** Over every run: unless a begin event is pending the first ready task has the processor; every active task is
      ready or waits; and the insertion times are the times of the last entries. */
  lemma {:induction false} RunsProgress(s: PiState, log: map<Task, int>, es: seq<Event>)
    requires Inv(s) && ValidRun(s, es) && Attended(s.k) && NobodyLost(s) && Stamped(s, log)
    ensures Attended(Run(s, es).k) && NobodyLost(Run(s, es)) && Stamped(Run(s, es), Entries(s, log, es))
    decreases |es|
  {
    hide Inv, Enabled, Step, Attended, NobodyLost, Stamped, Entered;
    if es != [] {
      StepKeepsInv(s, es[0]);
      StepKeepsAttended(s, es[0]);
      StepLosesNobody(s, es[0]);
      StepStamps(s, log, es[0]);
      RunsProgress(Step(s, es[0]), Entered(s, log, es[0]), es[1..]);
    }
  }

  lemma InitialProgress(s: PiState)
    requires Initial(s)
    ensures Attended(s.k) && NobodyLost(s) && Stamped(s, map[])
  {
  }
}
