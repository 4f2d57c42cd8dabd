/**
 Concrete runs of the multiprocessor kernel, step by step: tasks 1 to 5, the lower number being the more urgent.
 */
module Scenario {
  import opened Common
  import opened ReadyQueue
  import opened GlobalDispatch
  import opened Selection
  import opened GlobalSteps
  import opened GlobalRuns
  import opened SoundRuns

  const TASKS: set<Task> := {1, 2, 3, 4, 5}

  function Ms(active: set<Task>): Models {
    map t | t in TASKS :: TaskModel(t, 0, t in active, 0)
  }

  function Start(n: nat): Kernel { Init(n, Sched(Ms({}), [])) }

  /** A state in which no task executes and every CPU with an end event is marked as switching. */
  function At(n: nat, q: seq<Task>, disp: map<Task, Cpu>, endTask: map<Cpu, Task>, beginEv: set<Cpu>, endEv: set<Cpu>,
              switches: nat): Kernel {
    Kernel(n, Sched(Ms(set t | t in q), q), map[], disp, map[], endTask.Keys, endTask, beginEv, endEv, switches, 0)
  }

  ghost predicate Ascending(q: seq<Task>) {
    (forall i, j :: 0 <= i < j < |q| ==> q[i] < q[j]) && Elements(q) <= TASKS
  }

  // ---------- the queue ----------

  lemma ValidAt(q: seq<Task>)
    requires Ascending(q)
    ensures Sched(Ms(Elements(q)), q).Valid()
  {
    assert forall i :: 0 <= i < |q| ==> q[i] in Elements(q);
    assert forall t :: t in q <==> t in Elements(q);
  }

  lemma InsertAt(q: seq<Task>, t: Task, q': seq<Task>)
    requires Ascending(q) && Ascending(q') && t in TASKS && t !in q && Elements(q') == Elements(q) + {t}
    ensures t in Ms(Elements(q)) && Known(Ms(Elements(q)), q)
    ensures Sched(Ms(Elements(q)), q).Insert(t, 0) == Sched(Ms(Elements(q')), q')
  {
    ValidAt(q);
    ValidAt(q');
    var s := Sched(Ms(Elements(q)), q);
    InsertKeepsValid(s, t, 0);
    assert s.Insert(t, 0).models == Ms(Elements(q'));
    hide Ms, InsertSorted;
    SortedIsUnique(s.Insert(t, 0).models, s.Insert(t, 0).queue, q');
  }

  lemma ExtractAt(q: seq<Task>, t: Task, q': seq<Task>)
    requires Ascending(q) && Ascending(q') && t in q && Elements(q') == Elements(q) - {t}
    ensures t in Ms(Elements(q))
    ensures Sched(Ms(Elements(q)), q).Extract(t) == Sched(Ms(Elements(q')), q')
  {
    ValidAt(q);
    ValidAt(q');
    var s := Sched(Ms(Elements(q)), q);
    assert t in Elements(q);
    ExtractKeepsValid(s, t, 0);
    assert s.Extract(t).models == Ms(Elements(q'));
    SortedIsUnique(s.Extract(t).models, s.Extract(t).queue, q');
  }

  // ---------- the scan ----------

  /** The CPUs found, when no free CPU holds a task that another one took. */
  lemma FoundGuarded(s: Kernel, free: set<Cpu>)
    requires FreeCpus(s) == free && forall f :: f in free ==> Guard(s, f)
    ensures Found(s) == free && Undisturbed(s)
  {
    assert Freed(s) == {};
    FreePostsFound(s);
    hide FreePosts, FreeCpus, Freed;
  }

  lemma FreePostsFound(s: Kernel)
    ensures FreePosts(s) <= Found(s)
  {
    var e := FirstOfEnd(Found(s), s.ncpu, 0, |Undispatched(s)|);
    hide Found, FirstOf, Undispatched;
  }

  /** Enough CPUs are found: the first of them are posted. */
  lemma FreeScan(s: Kernel, k: nat, f: nat, ps: set<Cpu>)
    requires |Undispatched(s)| == k == |ps| && f <= s.ncpu && Under(Found(s), f) == ps
    ensures ScanPosts(s) == ps && ScanEnds(s)
  {
    hide Undispatched, Found, FirstOf, Under;
    FirstOfIs(Found(s), s.ncpu, 0, k, f);
    NoVictims(s);
  }

  /** One CPU is missing, and the task at the first rank below the top is dispatched to c. */
  lemma VictimScan(s: Kernel, k: nat, found: set<Cpu>, c: Cpu)
    requires |Undispatched(s)| == k == |found| + 1 && Found(s) == found <= Below(s.ncpu)
    requires s.ncpu < |s.sched.queue| && s.sched.queue[s.ncpu] in Post(s, found).disp
    requires Post(s, found).disp[s.sched.queue[s.ncpu]] == c
    ensures ScanPosts(s) == found + {c} && ScanEnds(s)
  {
    hide Undispatched, Found, FirstOf, Below, Post;
    FirstOfAll(found, s.ncpu, k);
    var q, d := s.sched.queue, Post(s, found).disp;
    assert FreePosts(s) == found && AfterFree(s) == d;
    FirstHostsStep(q, d, s.ncpu, 1);
    hide FreePosts, AfterFree, Left;
    assert FirstHosts(q, d, s.ncpu + 1, 0) == {};
  }

  // ---------- steps ----------

  /** The models are those of the tasks in the queue. */
  ghost predicate Numbered(s: Kernel) { s.sched == Sched(Ms(Elements(s.sched.queue)), s.sched.queue) }

  ghost function With(s: Kernel, q: seq<Task>): Kernel { s.(sched := Sched(Ms(Elements(q)), q)) }

  /** t joins the queue q, which becomes q'. */
  ghost predicate Joins(q: seq<Task>, t: Task, q': seq<Task>) {
    Ascending(q) && Ascending(q') && t in TASKS && t !in q && Elements(q') == Elements(q) + {t}
  }

  lemma JoinsAt(q: seq<Task>, i: nat, t: Task)
    requires Ascending(q) && i <= |q| && t in TASKS && (i > 0 ==> q[i - 1] < t) && (i < |q| ==> t < q[i])
    ensures Joins(q, t, q[..i] + [t] + q[i..])
  {
    var q' := q[..i] + [t] + q[i..];
    hide TASKS;
    assert forall j :: 0 <= j < i ==> q[j] < t;
    assert forall j :: i <= j < |q| ==> t < q[j];
    SplicedElements(q, i, t);
    SplicedOrder(q, i, t);
  }

  lemma SplicedElements(q: seq<Task>, i: nat, t: Task)
    requires i <= |q|
    ensures Elements(q[..i] + [t] + q[i..]) == Elements(q) + {t}
  {
    assert q == q[..i] + q[i..];
  }

  lemma SplicedOrder(q: seq<Task>, i: nat, t: Task)
    requires i <= |q| && forall j, k :: 0 <= j < k < |q| ==> q[j] < q[k]
    requires (forall j :: 0 <= j < i ==> q[j] < t) && (forall j :: i <= j < |q| ==> t < q[j])
    ensures var q' := q[..i] + [t] + q[i..]; forall j, k :: 0 <= j < k < |q'| ==> q'[j] < q'[k]
  {
    var q' := q[..i] + [t] + q[i..];
    assert forall j :: 0 <= j < |q'| ==> q'[j] == if j < i then q[j] else if j == i then t else q[j - 1];
  }

  lemma JoinsOne(t: Task)
    requires t in TASKS
    ensures Joins([], t, [t])
  {
    JoinsAt([], 0, t);
    assert [][..0] + [t] + [][0..] == [t];
  }

  lemma JoinsBoth(u: Task, t: Task)
    requires u in TASKS && t in TASKS && t < u
    ensures Joins([u], t, [t, u])
  {
    JoinsAt([u], 0, t);
    assert [u][..0] + [t] + [u][0..] == [t, u];
  }

  lemma JoinsLast(u: Task, t: Task)
    requires u in TASKS && t in TASKS && u < t
    ensures Joins([u], t, [u, t])
  {
    JoinsAt([u], 1, t);
    assert [u][..1] + [t] + [u][1..] == [u, t];
  }

  lemma WithAt(n: nat, q: seq<Task>, disp: map<Task, Cpu>, endTask: map<Cpu, Task>, beginEv: set<Cpu>, endEv: set<Cpu>,
               switches: nat, q': seq<Task>)
    ensures var s := At(n, q, disp, endTask, beginEv, endEv, switches);
            && Numbered(s) && s.sched.queue == q && s.ncpu == n && s.exe == map[] && s.disp == disp
            && With(s, q') == At(n, q', disp, endTask, beginEv, endEv, switches)
  {
    assert (set t | t in q) == Elements(q);
    assert (set t | t in q') == Elements(q');
  }

  /** An arrival whose scan posts ps. */
  lemma Arrives(s: Kernel, t: Task, q: seq<Task>, ps: set<Cpu>, s': Kernel)
    requires Numbered(s) && Joins(s.sched.queue, t, q)
    requires ScanPosts(With(s, q)) == ps && ScanEnds(With(s, q)) && Post(With(s, q), ps) == s'
    ensures Enabled(s, Arrival(t, 0)) && Ends(s, Arrival(t, 0)) && Step(s, Arrival(t, 0)) == s'
    ensures Sound(s, Arrival(t, 0)) <==> Undisturbed(With(s, q))
  {
    InsertAt(s.sched.queue, t, q);
    hide Ms, Sched.Insert, ScanPosts, ScanEnds, Post, Undisturbed;
  }

  /** An arrival that finds enough CPUs, all of them guarded. */
  lemma ArrivesGuarded(s: Kernel, t: Task, q: seq<Task>, free: set<Cpu>, f: nat, ps: set<Cpu>, s': Kernel)
    requires Numbered(s) && Joins(s.sched.queue, t, q)
    requires var s1 := With(s, q);
             && FreeCpus(s1) == free && (forall c :: c in free ==> Guard(s1, c))
             && f <= s.ncpu && Under(free, f) == ps && |Undispatched(s1)| == |ps| && Post(s1, ps) == s'
    ensures Enabled(s, Arrival(t, 0)) && Ends(s, Arrival(t, 0)) && Sound(s, Arrival(t, 0))
    ensures Step(s, Arrival(t, 0)) == s'
  {
    var s1 := With(s, q);
    hide Ms, FreeCpus, Guard, Under, Undispatched, Post, Known, Joins;
    FoundGuarded(s1, free);
    hide Found;
    FreeScan(s1, |ps|, f, ps);
    hide ScanPosts, ScanEnds, Undisturbed, Numbered, With, Enabled, Ends, Sound, Step;
    Arrives(s, t, q, ps, s');
  }

  /** A ready task that has no CPU is killed. */
  lemma Dies(s: Kernel, t: Task, q: seq<Task>)
    requires Numbered(s) && Joins(q, t, s.sched.queue) && s.exe == map[] && t !in s.disp
    ensures Enabled(s, Killed(t)) && Ends(s, Killed(t)) && Sound(s, Killed(t)) && Step(s, Killed(t)) == With(s, q)
  {
    assert t in Elements(s.sched.queue) && t !in Elements(q);
    ValidAt(s.sched.queue);
    ExtractAt(s.sched.queue, t, q);
    hide Ms, Sched.Extract;
    assert s.disp - {t} == s.disp;
  }

  // ---------- runs ----------

  lemma Nothing(s: Kernel)
    ensures PossibleRun(s, []) && Follow(s, []) == s && SoundRun(s, [])
  {
  }

  lemma {:induction false} RunCons(s: Kernel, e: Event, es: seq<Event>)
    requires Enabled(s, e) && Ends(s, e) && PossibleRun(Step(s, e), es)
    ensures PossibleRun(s, [e] + es) && Follow(s, [e] + es) == Follow(Step(s, e), es)
    ensures SoundRun(s, [e] + es) <==> Sound(s, e) && SoundRun(Step(s, e), es)
  {
    assert ([e] + es)[1..] == es;
  }
}
