/**
 The ready queue: task models ordered by TaskModelCmp in a priority_list, and the Scheduler
 operations that move models in and out of it (src/scheduler.cpp, src/plist.hpp).

 A task is named by its task number, which the simulator draws from a counter, so two tasks
 never share one. Lower numbers mean higher priorities.
 */
module ReadyQueue {
  import opened Common

  type Task = nat

  datatype TaskModel = TaskModel(prio: int, insertTime: int, active: bool, threshold: int)

  type Models = map<Task, TaskModel>

  /** TaskModelCmp: priority, then insertion time, then task number. */
  predicate Before(ms: Models, a: Task, b: Task)
    requires a in ms && b in ms
  {
    if ms[a].prio < ms[b].prio then true
    else if ms[a].prio == ms[b].prio then
      if ms[a].insertTime < ms[b].insertTime then true
      else if ms[a].insertTime == ms[b].insertTime then a < b
      else false
    else false
  }

  lemma BeforeIsStrictTotalOrder(ms: Models, a: Task, b: Task, c: Task)
    requires a in ms && b in ms && c in ms
    ensures !Before(ms, a, a)
    ensures a != b ==> (Before(ms, a, b) <==> !Before(ms, b, a))
    ensures Before(ms, a, b) && Before(ms, b, c) ==> Before(ms, a, c)
  {
  }

  ghost predicate Known(ms: Models, q: seq<Task>) {
    forall i :: 0 <= i < |q| ==> q[i] in ms
  }

  ghost predicate Sorted(ms: Models, q: seq<Task>)
    requires Known(ms, q)
  {
    forall i, j :: 0 <= i < j < |q| ==> Before(ms, q[i], q[j])
  }

  /** The number of leading elements ahead of t: where std::set puts a new element. */
  function Position(ms: Models, q: seq<Task>, t: Task): (p: nat)
    requires Known(ms, q) && t in ms
    ensures p <= |q|
    ensures forall i :: 0 <= i < p ==> Before(ms, q[i], t)
    ensures p < |q| ==> !Before(ms, q[p], t)
  {
    if q == [] || !Before(ms, q[0], t) then 0
    else
      var p := Position(ms, q[1..], t);
      assert forall i :: 1 <= i < p + 1 ==> q[i] == q[1..][i - 1];
      p + 1
  }

  function InsertSorted(ms: Models, q: seq<Task>, t: Task): seq<Task>
    requires Known(ms, q) && t in ms
  {
    var p := Position(ms, q, t);
    q[..p] + [t] + q[p..]
  }

  function IndexOf(q: seq<Task>, t: Task): (i: nat)
    requires t in q
    ensures i < |q| && q[i] == t && t !in q[..i]
  {
    if q[0] == t then 0
    else
      var i := IndexOf(q[1..], t);
      assert q[..i + 1] == [q[0]] + q[1..][..i];
      i + 1
  }

  function Without(q: seq<Task>, t: Task): seq<Task>
    requires t in q
  {
    var i := IndexOf(q, t);
    q[..i] + q[i + 1..]
  }

  lemma InsertSortedKeepsOrder(ms: Models, q: seq<Task>, t: Task)
    requires Known(ms, q) && t in ms && t !in q && Sorted(ms, q)
    ensures Known(ms, InsertSorted(ms, q, t)) && Sorted(ms, InsertSorted(ms, q, t))
    ensures Elements(InsertSorted(ms, q, t)) == Elements(q) + {t}
  {
    var p := Position(ms, q, t);
    var r := InsertSorted(ms, q, t);
    assert forall i :: p <= i < |q| ==> Before(ms, t, q[i]);
    assert forall i :: 0 <= i < |r| ==> r[i] == if i < p then q[i] else if i == p then t else q[i - 1];
    assert r[p] == t;
    forall x | x in q ensures x in r {
      var i :| 0 <= i < |q| && q[i] == x;
      assert r[if i < p then i else i + 1] == x;
    }
  }

  lemma SortedIsDistinct(ms: Models, q: seq<Task>)
    requires Known(ms, q) && Sorted(ms, q)
    ensures Distinct(q)
  {
  }

  /** Erasing by identity. The key of the erased task plays no part: the rest may be in order without it. */
  lemma WithoutKeepsOrder(ms: Models, q: seq<Task>, t: Task)
    requires Known(ms, q) && t in q && Distinct(q)
    requires forall i, j :: 0 <= i < j < |q| && q[i] != t && q[j] != t ==> Before(ms, q[i], q[j])
    ensures Known(ms, Without(q, t)) && Sorted(ms, Without(q, t))
    ensures Elements(Without(q, t)) == Elements(q) - {t}
    ensures t !in Without(q, t)
  {
    var k := IndexOf(q, t);
    var r := Without(q, t);
    assert forall i :: 0 <= i < |r| ==> r[i] == if i < k then q[i] else q[i + 1];
    forall x | x in q && x != t ensures x in r {
      var i :| 0 <= i < |q| && q[i] == x;
      assert r[if i < k then i else i - 1] == x;
    }
  }

  /** A strictly sorted queue is determined by its members. */
  lemma {:induction false} SortedIsUnique(ms: Models, q: seq<Task>, r: seq<Task>)
    requires Known(ms, q) && Known(ms, r) && Sorted(ms, q) && Sorted(ms, r)
    requires Elements(q) == Elements(r)
    ensures q == r
  {
    DistinctSize(q);
    DistinctSize(r);
    if q != [] {
      var a, b := q[0], r[0];
      assert a in Elements(r) && b in Elements(q);
      var i :| 0 <= i < |r| && r[i] == a;
      var j :| 0 <= j < |q| && q[j] == b;
      assert a == b;
      assert Elements(q[1..]) == Elements(q) - {a} by {
        assert forall x :: x in q[1..] <==> x in q && x != a;
      }
      assert Elements(r[1..]) == Elements(r) - {a} by {
        assert forall x :: x in r[1..] <==> x in r && x != a;
      }
      SortedIsUnique(ms, q[1..], r[1..]);
      assert q == [a] + q[1..] && r == [a] + r[1..];
    }
  }

  /** The abstract state of a Scheduler. */
  datatype Sched = Sched(models: Models, queue: seq<Task>) {

    /** The queue holds exactly the active models, strictly sorted. */
    ghost predicate Valid() {
      && Known(models, queue)
      && Sorted(models, queue)
      && forall t :: t in models ==> (models[t].active <==> t in queue)
    }

    function Insert(t: Task, now: int): (r: Sched)
      requires t in models && Known(models, queue)
      ensures r.models.Keys == models.Keys && Known(r.models, r.queue)
    {
      var ms := models[t := models[t].(insertTime := now, active := true)];
      Sched(ms, InsertSorted(ms, queue, t))
    }

    function Extract(t: Task): (r: Sched)
      requires t in queue && t in models
      ensures r.models.Keys == models.Keys && (Known(models, queue) ==> Known(r.models, r.queue))
    {
      Sched(models[t := models[t].(active := false)], Without(queue, t))
    }

    /** TaskModel::changePriority on a model, wherever the model is. */
    function ChangePriority(t: Task, p: int): Sched
      requires t in models
    {
      this.(models := models[t := models[t].(prio := p)])
    }

    function TaskN(n: nat): Option<Task> {
      if n < |queue| then Some(queue[n]) else None
    }
  }

  lemma InsertKeepsValid(s: Sched, t: Task, now: int)
    requires s.Valid() && t in s.models && t !in s.queue
    ensures s.Insert(t, now).Valid()
    ensures Elements(s.Insert(t, now).queue) == Elements(s.queue) + {t}
  {
    var ms := s.Insert(t, now).models;
    assert Sorted(ms, s.queue);
    InsertSortedKeepsOrder(ms, s.queue, t);
    assert forall x :: x in Elements(s.Insert(t, now).queue) <==> x in s.queue || x == t;
  }

  /** Extraction may find the key of t already changed. */
  lemma ExtractKeepsValid(s: Sched, t: Task, p: int)
    requires s.Valid() && t in s.queue
    ensures s.ChangePriority(t, p).Extract(t).Valid()
    ensures s.Extract(t).Valid()
    ensures Elements(s.Extract(t).queue) == Elements(s.queue) - {t}
    ensures s.ChangePriority(t, p).Extract(t) == s.Extract(t).ChangePriority(t, p)
  {
    SortedIsDistinct(s.models, s.queue);
    var ms := s.Extract(t).models;
    WithoutKeepsOrder(ms, s.queue, t);
    var ms' := s.ChangePriority(t, p).Extract(t).models;
    WithoutKeepsOrder(ms', s.queue, t);
    assert forall x :: x in Elements(Without(s.queue, t)) <==> x in s.queue && x != t;
  }

  /** Extract, change the priority, insert: the queue is the sorted queue for the new keys. */
  lemma RekeyKeepsValid(s: Sched, t: Task, p: int, now: int)
    requires s.Valid() && t in s.queue
    ensures var s' := s.Extract(t).ChangePriority(t, p).Insert(t, now);
            s'.Valid() && Elements(s'.queue) == Elements(s.queue) && s'.models[t].prio == p
  {
    ExtractKeepsValid(s, t, p);
    var e := s.Extract(t);
    assert t !in Elements(e.queue);
    var c := e.ChangePriority(t, p);
    assert c.Valid();
    InsertKeepsValid(c, t, now);
  }

  /** Inserting and then extracting leaves the queue as it was. */
  lemma ExtractUndoesInsert(s: Sched, t: Task, now: int)
    requires s.Valid() && t in s.models && t !in s.queue
    ensures s.Insert(t, now).Valid() && t in s.Insert(t, now).queue
    ensures s.Insert(t, now).Extract(t).queue == s.queue
  {
    InsertKeepsValid(s, t, now);
    var i := s.Insert(t, now);
    assert t in Elements(i.queue);
    ExtractKeepsValid(i, t, 0);
    var e := i.Extract(t);
    assert Elements(e.queue) == Elements(s.queue);
    assert Sorted(e.models, s.queue);
    SortedIsUnique(e.models, e.queue, s.queue);
  }

  /** Rank: getTaskN(n) is the task with exactly n higher-priority ready tasks. */
  lemma RankIsHigherPriorityCount(s: Sched, n: nat)
    requires s.Valid() && n < |s.queue|
    ensures |set x | x in s.queue && x in s.models && Before(s.models, x, s.queue[n])| == n
  {
    var q := s.queue;
    SortedIsDistinct(s.models, q);
    DistinctSize(q[..n]);
    var ahead := set x | x in q && x in s.models && Before(s.models, x, q[n]);
    forall x | x in ahead ensures x in Elements(q[..n]) {
      var i :| 0 <= i < |q| && q[i] == x;
      assert i < n;
    }
    forall x | x in Elements(q[..n]) ensures x in ahead {
      var i :| 0 <= i < n && q[i] == x;
    }
    assert ahead == Elements(q[..n]);
  }

  class Scheduler {
    var models: Models
    var queue: seq<Task>
    var oldPriorities: map<Task, int>

    ghost function State(): Sched
      reads this
    {
      Sched(models, queue)
    }

    constructor ()
      ensures State() == Sched(map[], []) && State().Valid() && oldPriorities == map[]
    {
      models := map[];
      queue := [];
      oldPriorities := map[];
    }

    /** FPScheduler::addTask: a new model starts inactive, at time 0 with the largest threshold. */
    method AddTask(t: Task, prio: int)
      requires State().Valid() && t !in models
      modifies this`models
      ensures State() == Sched(old(models)[t := TaskModel(prio, 0, false, 0x7fff_ffff)], old(queue))
      ensures State().Valid()
    {
      models := models[t := TaskModel(prio, 0, false, 0x7fff_ffff)];
    }

    method Insert(t: Task, now: int)
      requires State().Valid() && t in models && t !in queue
      modifies this`models, this`queue
      ensures State() == old(State()).Insert(t, now)
      ensures State().Valid()
    {
      InsertKeepsValid(State(), t, now);
      models := models[t := models[t].(insertTime := now)];
      models := models[t := models[t].(active := true)];
      queue := InsertSorted(models, queue, t);
    }

    /** priority_list::erase: a linear search by identity, whatever the keys are. */
    method Erase(t: Task)
      requires t in queue
      modifies this`queue
      ensures queue == Without(old(queue), t)
    {
      var i := 0;
      while queue[i] != t
        invariant 0 <= i < |queue|
        invariant t in queue[i..] && t !in queue[..i]
        decreases |queue| - i
      {
        i := i + 1;
      }
      assert i == IndexOf(queue, t);
      queue := queue[..i] + queue[i + 1..];
    }

    /** Extracting an unknown task does nothing; extracting a known task that is not queued has no
        defined outcome, hence the second requirement. */
    method Extract(t: Task)
      requires State().Valid() && (t in models ==> t in queue)
      modifies this`models, this`queue
      ensures State() == if t in old(models) then old(State()).Extract(t) else old(State())
      ensures State().Valid()
    {
      if t in models {
        ExtractKeepsValid(State(), t, 0);
        Erase(t);
        models := models[t := models[t].(active := false)];
      }
    }

    method GetTaskN(n: nat) returns (r: Option<Task>)
      ensures r == State().TaskN(n)
    {
      if |queue| <= n {
        return None;
      }
      var it := 0;
      for i := 0 to n
        invariant it == i
      {
        it := it + 1;
      }
      return Some(queue[it]);
    }

    method ChangePriority(t: Task, p: int)
      requires t in models
      modifies this`models
      ensures State() == old(State()).ChangePriority(t, p)
    {
      models := models[t := models[t].(prio := p)];
    }

    method EnableThreshold(t: Task, now: int) returns (th: int)
      requires State().Valid() && t in queue
      modifies this
      ensures th == old(models[t].threshold)
      ensures State() == old(State()).Extract(t).ChangePriority(t, th).Insert(t, now)
      ensures State().Valid() && oldPriorities == old(oldPriorities)[t := old(models[t].prio)]
    {
      RekeyKeepsValid(State(), t, models[t].threshold, now);
      oldPriorities := oldPriorities[t := models[t].prio];
      Extract(t);
      th := models[t].threshold;
      ChangePriority(t, th);
      Insert(t, now);
    }

    method DisableThreshold(t: Task, now: int)
      requires State().Valid() && t in queue
      modifies this`models, this`queue
      ensures State() == old(State()).Extract(t).ChangePriority(t, old(models[t].prio)).Insert(t, now)
      ensures State().Valid()
    {
      RekeyKeepsValid(State(), t, models[t].prio, now);
      Extract(t);
      ChangePriority(t, models[t].prio);
      Insert(t, now);
    }
  }

  /** Disabling a threshold re-reads the current priority instead of the saved one, so the pair
      enable, disable restores the priority exactly when the threshold equals it. */
  lemma ThresholdRestoredIffEqual(s: Sched, t: Task, now: int, later: int)
    requires s.Valid() && t in s.queue
    ensures var e := s.Extract(t).ChangePriority(t, s.models[t].threshold).Insert(t, now);
            && e.Valid() && t in e.queue
            && var d := e.Extract(t).ChangePriority(t, e.models[t].prio).Insert(t, later);
            && d.Valid()
            && (d.models[t].prio == s.models[t].prio <==> s.models[t].threshold == s.models[t].prio)
  {
    RekeyKeepsValid(s, t, s.models[t].threshold, now);
    var e := s.Extract(t).ChangePriority(t, s.models[t].threshold).Insert(t, now);
    assert t in Elements(e.queue);
    RekeyKeepsValid(e, t, e.models[t].prio, later);
  }
}
