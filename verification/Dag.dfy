/**
 Tasks with precedence constraints (src/dagnode.cpp): a node that is no source is activated when a
 parent ends and every parent has finished more jobs than the node has.
 */
module Dag {
  import opened Common

  /** The graph: for each node the lists of its parents and children. */
  datatype Graph = Graph(parents: seq<seq<nat>>, children: seq<seq<nat>>) {
    ghost predicate Valid() {
      && |parents| == |children|
      && (forall v, k :: 0 <= v < |parents| && 0 <= k < |parents[v]| ==> parents[v][k] < |parents|)
      && (forall v, k :: 0 <= v < |children| && 0 <= k < |children[v]| ==> children[v][k] < |children|)
      && (forall v, c :: 0 <= v < |parents| && 0 <= c < |parents| ==> (c in children[v] <==> v in parents[c]))
    }

    predicate IsSource(v: nat)
      requires v < |parents|
    {
      parents[v] == []
    }
  }

  /** One node: its job index, whether a job is active, whether the arrival event or the buffered start is pending,
      how many arrivals are buffered, and the size of the buffer. */
  datatype Node = Node(job: nat, active: bool, arr: bool, fake: bool, buffered: nat, size: int)

  type Nodes = seq<Node>

  /** check_parents_job. */
  predicate ParentsAhead(g: Graph, s: Nodes, v: nat)
    requires |s| == |g.parents| && v < |s|
    requires forall k :: 0 <= k < |g.parents[v]| ==> g.parents[v][k] < |s|
  {
    forall k :: 0 <= k < |g.parents[v]| ==> s[g.parents[v][k]].job > s[v].job
  }

  ghost predicate Shaped(g: Graph, s: Nodes) { g.Valid() && |s| == |g.parents| }

  /** activate(). */
  ghost function Activated(g: Graph, s: Nodes, v: nat): Node
    requires Shaped(g, s) && v < |s|
  {
    if g.IsSource(v) || ParentsAhead(g, s, v) then s[v].(arr := true) else s[v]
  }

  /** activate_chilren(). */
  ghost function ChildrenActivated(g: Graph, s: Nodes, v: nat): (s': Nodes)
    requires Shaped(g, s) && v < |s|
    ensures |s'| == |s|
    ensures forall c :: 0 <= c < |s| ==> s'[c] == if c in g.children[v] then Activated(g, s, c) else s[c]
  {
    seq(|s|, c requires 0 <= c < |s| => if c in g.children[v] then Activated(g, s, c) else s[c])
  }

  function Finished(s: Nodes, v: nat): Nodes
    requires v < |s|
  {
    s[v := s[v].(active := false, job := s[v].job + 1)]
  }

  function Notified(s: Nodes, v: nat): Nodes
    requires v < |s|
  {
    s[v := s[v].(fake := s[v].fake || s[v].buffered > 0)]
  }

  /** onEndInstance(): the job index grows, then the children are activated, and a buffered arrival is started. */
  ghost function EndOf(g: Graph, s: Nodes, v: nat): Nodes
    requires Shaped(g, s) && v < |s|
  {
    Notified(ChildrenActivated(g, Finished(s, v), v), v)
  }

  /** onArrival(): the arrival starts a job. While one is active it is buffered, one more than the size at most. */
  function ArrivalOf(s: Nodes, v: nat): Nodes
    requires v < |s|
  {
    s[v := if !s[v].active then s[v].(arr := false, active := true)
           else s[v].(arr := false, buffered := s[v].buffered + if s[v].buffered <= s[v].size then 1 else 0)]
  }

  function FakeArrivalOf(s: Nodes, v: nat): Nodes
    requires v < |s| && s[v].buffered > 0
  {
    s[v := s[v].(fake := false, active := true, buffered := s[v].buffered - 1)]
  }

  // ---------- runs ----------

  datatype Event = Timer(v: nat) | Arrives(v: nat) | Ends(v: nat) | BufferedStart(v: nat)

  /** A timer belongs to a source; events fire when they are pending; a job ends while it is active. */
  ghost predicate Enabled(g: Graph, s: Nodes, e: Event)
    requires Shaped(g, s)
  {
    && e.v < |s|
    && match e
       case Timer(v) => g.IsSource(v)
       case Arrives(v) => s[v].arr
       case Ends(v) => s[v].active
       case BufferedStart(v) => s[v].fake && s[v].buffered > 0
  }

  predicate Busy(n: Node) { n.active || n.arr }

  /** Graph instances do not overlap: a node is idle, with no arrival pending, whenever a parent finishes. */
  ghost predicate NoOverlap(g: Graph, s: Nodes, e: Event)
    requires Shaped(g, s)
  {
    e.Ends? && e.v < |s| ==> forall c :: c in g.children[e.v] ==> !Busy(s[c])
  }

  ghost function Step(g: Graph, s: Nodes, e: Event): Nodes
    requires Shaped(g, s) && Enabled(g, s, e)
  {
    match e
    case Timer(v) => s[v := s[v].(arr := true)]
    case Arrives(v) => ArrivalOf(s, v)
    case Ends(v) => EndOf(g, s, v)
    case BufferedStart(v) => FakeArrivalOf(s, v)
  }

  /** History: the job indices for which each node was activated by a parent. */
  type Releases = seq<seq<nat>>

  ghost function Record(g: Graph, s: Nodes, rel: Releases, e: Event): Releases
    requires Shaped(g, s) && Enabled(g, s, e) && |rel| == |s|
  {
    if e.Ends? then
      var s1 := Finished(s, e.v);
      seq(|s|, c requires 0 <= c < |s| =>
        if c in g.children[e.v] && ParentsAhead(g, s1, c) then rel[c] + [s1[c].job] else rel[c])
    else rel
  }

  // ---------- precedence ----------

  /** A non-source node is never ahead of a parent; while it has a job it is strictly behind every parent, by one
      behind some parent; while it has none it is level with some parent; nothing is buffered; and it was
      released once for each job up to the current one. */
  ghost predicate Ordered(g: Graph, s: Nodes, rel: Releases, v: nat)
    requires Shaped(g, s) && |rel| == |s| && v < |s|
  {
    !g.IsSource(v) ==>
      && (forall p :: p in g.parents[v] ==> s[v].job <= s[p].job)
      && (Busy(s[v]) ==> forall p :: p in g.parents[v] ==> s[v].job < s[p].job)
      && (Busy(s[v]) ==> exists p :: p in g.parents[v] && s[p].job == s[v].job + 1)
      && (!Busy(s[v]) ==> exists p :: p in g.parents[v] && s[p].job == s[v].job)
      && !(s[v].active && s[v].arr) && s[v].buffered == 0 && !s[v].fake
      && |rel[v]| == s[v].job + (if Busy(s[v]) then 1 else 0)
      && (forall k :: 0 <= k < |rel[v]| ==> rel[v][k] == k)
  }

  ghost predicate Inv(g: Graph, s: Nodes, rel: Releases) {
    && Shaped(g, s) && |rel| == |s| && !SelfParent(g)
    && forall v :: 0 <= v < |s| ==> Ordered(g, s, rel, v)
  }

  ghost predicate SelfParent(g: Graph) { exists v :: 0 <= v < |g.parents| && v in g.parents[v] }

  /** A child is released by the end of its parent v exactly when v was the last parent it waited for. */
  lemma ReleasedByLastParent(g: Graph, s: Nodes, rel: Releases, v: nat, c: nat)
    requires Inv(g, s, rel) && v < |s| && s[v].active && c in g.children[v] && !Busy(s[c])
    ensures c < |s| && c != v
    ensures EndOf(g, s, v)[c].arr <==>
              s[v].job == s[c].job && forall p :: p in g.parents[c] && p != v ==> s[p].job > s[c].job
  {
    assert v in g.parents[c];
    assert Ordered(g, s, rel, c);
    var s1 := Finished(s, v);
    assert ParentsAhead(g, s1, c) <==> forall p :: p in g.parents[c] ==> s1[p].job > s1[c].job;
  }

  /** The node that ended is now level with the parent it was one behind. */
  lemma EndedIsOrdered(g: Graph, s: Nodes, rel: Releases, v: nat)
    requires Shaped(g, s) && |rel| == |s| && v < |s| && s[v].active && v !in g.parents[v] && Ordered(g, s, rel, v)
    ensures Ordered(g, EndOf(g, s, v), Record(g, s, rel, Ends(v)), v)
  {
    var s' := EndOf(g, s, v);
    assert v !in g.children[v];
    assert forall i :: 0 <= i < |s| && i != v ==> s'[i].job == s[i].job;
    if !g.IsSource(v) {
      var p :| p in g.parents[v] && s[p].job == s[v].job + 1;
      assert p != v && s'[p].job == s'[v].job;
    }
  }

  /** An idle child is released if this was the last parent it waited for, and waits on otherwise. */
  lemma ChildIsOrdered(g: Graph, s: Nodes, rel: Releases, v: nat, c: nat)
    requires Shaped(g, s) && |rel| == |s| && v < |s| && s[v].active && c < |s| && c != v
    requires c in g.children[v] && !Busy(s[c]) && Ordered(g, s, rel, c)
    ensures Ordered(g, EndOf(g, s, v), Record(g, s, rel, Ends(v)), c)
  {
    var s1, s' := Finished(s, v), EndOf(g, s, v);
    ReleaseOrWait(g, s, v, c);
    var ahead := ParentsAhead(g, s1, c);
    assert s'[c] == s[c].(arr := ahead);
    assert Record(g, s, rel, Ends(v))[c] == if ahead then rel[c] + [s[c].job] else rel[c];
    hide ParentsAhead, Record, Graph.Valid;
    assert forall i :: 0 <= i < |s| ==> s'[i].job == s1[i].job;
  }

  /** In terms of the job indices after the end of v. */
  lemma ReleaseOrWait(g: Graph, s: Nodes, v: nat, c: nat)
    requires Shaped(g, s) && v < |s| && c < |s| && c != v && c in g.children[v]
    requires forall p :: p in g.parents[c] ==> s[c].job <= s[p].job
    requires exists p :: p in g.parents[c] && s[p].job == s[c].job
    ensures var s1 := Finished(s, v);
            && (forall p :: p in g.parents[c] ==> p < |s| && s[c].job <= s1[p].job)
            && (ParentsAhead(g, s1, c) ==>
                  (forall p :: p in g.parents[c] ==> s[c].job < s1[p].job)
                  && exists p :: p in g.parents[c] && s1[p].job == s[c].job + 1)
            && (!ParentsAhead(g, s1, c) ==> exists p :: p in g.parents[c] && s1[p].job == s[c].job)
  {
    var s1 := Finished(s, v);
    assert v in g.parents[c];
    var p :| p in g.parents[c] && s[p].job == s[c].job;
    if ParentsAhead(g, s1, c) {
      assert s1[p].job > s1[c].job;
      assert p == v;
    } else {
      var k :| 0 <= k < |g.parents[c]| && s1[g.parents[c][k]].job <= s1[c].job;
      assert g.parents[c][k] in g.parents[c];
    }
  }

  lemma EndKeepsOrder(g: Graph, s: Nodes, rel: Releases, v: nat, c: nat)
    requires Inv(g, s, rel) && v < |s| && s[v].active && NoOverlap(g, s, Ends(v)) && c < |s|
    ensures Ordered(g, EndOf(g, s, v), Record(g, s, rel, Ends(v)), c)
  {
    assert Ordered(g, s, rel, c);
    if c == v {
      EndedIsOrdered(g, s, rel, v);
    } else if c in g.children[v] {
      ChildIsOrdered(g, s, rel, v, c);
    } else {
      assert v !in g.parents[c];
      var s' := EndOf(g, s, v);
      assert s'[c] == s[c] && forall i :: 0 <= i < |s| && i != v ==> s'[i].job == s[i].job;
    }
  }

  /** A node whose own record and parents' job indices stay is ordered as before. */
  lemma OrderedStays(g: Graph, s: Nodes, s': Nodes, rel: Releases, c: nat)
    requires Shaped(g, s) && |s'| == |s| == |rel| && c < |s|
    requires Ordered(g, s, rel, c)
    requires forall i :: 0 <= i < |s| ==> s'[i].job == s[i].job
    requires Busy(s'[c]) == Busy(s[c]) && s'[c].buffered == s[c].buffered && s'[c].fake == s[c].fake
    requires !(s'[c].active && s'[c].arr)
    ensures Ordered(g, s', rel, c)
  {
  }

  lemma StepKeepsInv(g: Graph, s: Nodes, rel: Releases, e: Event)
    requires Inv(g, s, rel) && Enabled(g, s, e) && NoOverlap(g, s, e)
    ensures Inv(g, Step(g, s, e), Record(g, s, rel, e))
  {
    var s' := Step(g, s, e);
    if e.Ends? {
      forall c | 0 <= c < |s| ensures Ordered(g, s', Record(g, s, rel, e), c) {
        EndKeepsOrder(g, s, rel, e.v, c);
      }
    } else {
      forall c | 0 <= c < |s| ensures Ordered(g, s', rel, c) {
        assert Ordered(g, s, rel, c) && Ordered(g, s, rel, e.v);
        if !g.IsSource(c) {
          OrderedStays(g, s, s', rel, c);
        }
      }
    }
  }

  /** The end of a job keeps the order exactly when no child is still busy: a busy child would be activated a second
      time for the same job. */
  lemma EndKeepsInvIffNoOverlap(g: Graph, s: Nodes, rel: Releases, v: nat)
    requires Inv(g, s, rel) && Enabled(g, s, Ends(v))
    ensures Inv(g, EndOf(g, s, v), Record(g, s, rel, Ends(v))) <==> NoOverlap(g, s, Ends(v))
  {
    if NoOverlap(g, s, Ends(v)) {
      StepKeepsInv(g, s, rel, Ends(v));
    } else {
      var c :| c in g.children[v] && Busy(s[c]);
      assert v in g.parents[c] && c != v;
      assert Ordered(g, s, rel, c);
      var s1 := Finished(s, v);
      assert ParentsAhead(g, s1, c) by {
        assert forall k :: 0 <= k < |g.parents[c]| ==> g.parents[c][k] in g.parents[c];
      }
      assert |Record(g, s, rel, Ends(v))[c]| == s[c].job + 2;
      assert !Ordered(g, EndOf(g, s, v), Record(g, s, rel, Ends(v)), c);
    }
  }

  // ---------- whole runs ----------

  ghost predicate ValidRun(g: Graph, s: Nodes, es: seq<Event>)
    requires Shaped(g, s)
    decreases |es|
  {
    es == [] || (Enabled(g, s, es[0]) && NoOverlap(g, s, es[0]) && ValidRun(g, Step(g, s, es[0]), es[1..]))
  }

  ghost function Run(g: Graph, s: Nodes, rel: Releases, es: seq<Event>): (Nodes, Releases)
    requires Shaped(g, s) && |rel| == |s| && ValidRun(g, s, es)
    decreases |es|
  {
    if es == [] then (s, rel) else Run(g, Step(g, s, es[0]), Record(g, s, rel, es[0]), es[1..])
  }

  ghost predicate Initial(g: Graph, s: Nodes, rel: Releases) {
    && Shaped(g, s) && |rel| == |s| && !SelfParent(g)
    && forall v :: 0 <= v < |s| ==> s[v] == Node(0, false, false, false, 0, s[v].size) && rel[v] == []
  }

  lemma InitialInv(g: Graph, s: Nodes, rel: Releases)
    requires Initial(g, s, rel)
    ensures Inv(g, s, rel)
  {
    forall v | 0 <= v < |s| ensures Ordered(g, s, rel, v) {
      if !g.IsSource(v) {
        assert g.parents[v][0] in g.parents[v];
      }
    }
  }

  lemma {:induction false} RunKeepsInv(g: Graph, s: Nodes, rel: Releases, es: seq<Event>)
    requires Inv(g, s, rel) && ValidRun(g, s, es)
    ensures var (s', rel') := Run(g, s, rel, es); Inv(g, s', rel')
    decreases |es|
  {
    if es != [] {
      StepKeepsInv(g, s, rel, es[0]);
      RunKeepsInv(g, Step(g, s, es[0]), Record(g, s, rel, es[0]), es[1..]);
    }
  }

  // ---------- a run that overlaps ----------

  /** A source and its child. */
  const TwoNodes: Graph := Graph([[], [0]], [[1], []])

  const Idle: Node := Node(0, false, false, false, 0, 0)

  /** The source finishes its first job, the child starts, and the source is at its second job. */
  const SecondJob: seq<Event> := [Timer(0), Arrives(0), Ends(0), Arrives(1), Timer(0), Arrives(0)]

  const ChildBusy: Nodes := [Idle.(job := 1, active := true), Idle.(active := true)]

  lemma TwoNodesValid()
    ensures TwoNodes.Valid() && !SelfParent(TwoNodes)
    ensures TwoNodes.IsSource(0) && !TwoNodes.IsSource(1)
  {
    assert TwoNodes.parents[1][0] == 0 && TwoNodes.children[0][0] == 1;
  }

  /** The end of the first job releases the child for the first time. */
  lemma FirstEnd()
    ensures TwoNodes.Valid()
    ensures var s := [Idle.(active := true), Idle];
            && EndOf(TwoNodes, s, 0) == [Idle.(job := 1), Idle.(arr := true)]
            && Record(TwoNodes, s, [[], []], Ends(0)) == [[], [0]]
            && NoOverlap(TwoNodes, s, Ends(0))
  {
    TwoNodesValid();
    var s := [Idle.(active := true), Idle];
    var s1 := Finished(s, 0);
    assert TwoNodes.children[0] == [1] && TwoNodes.parents[1] == [0];
    assert ParentsAhead(TwoNodes, s1, 1);
    assert 1 in TwoNodes.children[0] && 0 !in TwoNodes.children[0];
    assert EndOf(TwoNodes, s, 0) == [Idle.(job := 1), Idle.(arr := true)];
    var rel' := Record(TwoNodes, s, [[], []], Ends(0));
    assert |rel'| == 2 && rel'[0] == [] && rel'[1] == [0];
    assert rel' == [[], [0]];
  }

  /** The end of the second job releases the child again, for the same job. */
  lemma SecondEnd()
    ensures TwoNodes.Valid()
    ensures Enabled(TwoNodes, ChildBusy, Ends(0)) && !NoOverlap(TwoNodes, ChildBusy, Ends(0))
    ensures Record(TwoNodes, ChildBusy, [[], [0]], Ends(0)) == [[], [0, 0]]
  {
    TwoNodesValid();
    assert TwoNodes.children[0] == [1] && TwoNodes.parents[1] == [0];
    assert 1 in TwoNodes.children[0] && 0 !in TwoNodes.children[0];
    assert ParentsAhead(TwoNodes, Finished(ChildBusy, 0), 1);
    var rel' := Record(TwoNodes, ChildBusy, [[], [0]], Ends(0));
    assert |rel'| == 2 && rel'[0] == [] && rel'[1] == [0, 0];
    assert rel' == [[], [0, 0]];
  }

  /** The first four events: the source runs its first job, and the child starts. */
  lemma FirstJob(rest: seq<Event>)
    requires TwoNodes.Valid()
    requires var s := [Idle.(job := 1), Idle.(active := true)]; ValidRun(TwoNodes, s, rest)
    ensures var es := [Timer(0), Arrives(0), Ends(0), Arrives(1)] + rest;
            && ValidRun(TwoNodes, [Idle, Idle], es)
            && Run(TwoNodes, [Idle, Idle], [[], []], es)
               == Run(TwoNodes, [Idle.(job := 1), Idle.(active := true)], [[], [0]], rest)
  {
    TwoNodesValid();
    FirstEnd();
    hide EndOf, Graph.Valid;
    var s, rel := [Idle, Idle], [[], []];
    var t := [Idle.(job := 1), Idle.(arr := true)];
    assert Step(TwoNodes, t, Arrives(1)) == [Idle.(job := 1), Idle.(active := true)];
    OneMore(t, [[], [0]], Arrives(1), rest);
    var u := [Idle.(active := true), Idle];
    OneMore(u, rel, Ends(0), [Arrives(1)] + rest);
    assert Step(TwoNodes, [Idle.(arr := true), Idle], Arrives(0)) == u;
    OneMore([Idle.(arr := true), Idle], rel, Arrives(0), [Ends(0)] + ([Arrives(1)] + rest));
    assert Step(TwoNodes, s, Timer(0)) == [Idle.(arr := true), Idle];
    OneMore(s, rel, Timer(0), [Arrives(0)] + ([Ends(0)] + ([Arrives(1)] + rest)));
    assert [Timer(0), Arrives(0), Ends(0), Arrives(1)] + rest
        == [Timer(0)] + ([Arrives(0)] + ([Ends(0)] + ([Arrives(1)] + rest)));
  }

  /** The timer fires again while the child runs. */
  lemma SecondArrival()
    requires TwoNodes.Valid()
    ensures var s := [Idle.(job := 1), Idle.(active := true)];
            && ValidRun(TwoNodes, s, [Timer(0), Arrives(0)])
            && Run(TwoNodes, s, [[], [0]], [Timer(0), Arrives(0)]) == (ChildBusy, [[], [0]])
  {
    TwoNodesValid();
    hide Graph.Valid;
    var s := [Idle.(job := 1), Idle.(active := true)];
    var t := [Idle.(job := 1).(arr := true), Idle.(active := true)];
    assert Step(TwoNodes, t, Arrives(0)) == ChildBusy;
    OneMore(t, [[], [0]], Arrives(0), []);
    assert Step(TwoNodes, s, Timer(0)) == t;
    OneMore(s, [[], [0]], Timer(0), [Arrives(0)] + []);
    assert [Timer(0)] + ([Arrives(0)] + []) == [Timer(0), Arrives(0)];
  }

  lemma OneMore(s: Nodes, rel: Releases, e: Event, es: seq<Event>)
    requires Shaped(TwoNodes, s) && |rel| == |s| && Enabled(TwoNodes, s, e) && NoOverlap(TwoNodes, s, e)
    requires ValidRun(TwoNodes, Step(TwoNodes, s, e), es)
    ensures ValidRun(TwoNodes, s, [e] + es)
    ensures Run(TwoNodes, s, rel, [e] + es)
            == Run(TwoNodes, Step(TwoNodes, s, e), Record(TwoNodes, s, rel, e), es)
  {
    assert ([e] + es)[1..] == es;
  }

  /** Reached from idle nodes, without overlap up to the last end: the child's first job is released twice. */
  lemma BusyChildReleasedTwice()
    ensures Initial(TwoNodes, [Idle, Idle], [[], []]) && ValidRun(TwoNodes, [Idle, Idle], SecondJob)
    ensures Run(TwoNodes, [Idle, Idle], [[], []], SecondJob) == (ChildBusy, [[], [0]])
    ensures Enabled(TwoNodes, ChildBusy, Ends(0)) && !NoOverlap(TwoNodes, ChildBusy, Ends(0))
    ensures Record(TwoNodes, ChildBusy, [[], [0]], Ends(0)) == [[], [0, 0]]
  {
    TwoNodesValid();
    SecondEnd();
    SecondArrival();
    FirstJob([Timer(0), Arrives(0)]);
    hide EndOf, Record, NoOverlap, Enabled, Run, ValidRun, Graph.Valid;
    assert SecondJob == [Timer(0), Arrives(0), Ends(0), Arrives(1)] + [Timer(0), Arrives(0)];
  }

  /** A descending path: each node is a parent of the next one. */
  ghost predicate Path(g: Graph, path: seq<nat>) {
    && path != []
    && (forall k :: 0 <= k < |path| ==> path[k] < |g.parents|)
    && (forall k :: 0 <= k < |path| - 1 ==> path[k] in g.parents[path[k + 1]])
  }

  /** Over every run without overlap, a node's job index never exceeds that of any ancestor, is strictly below it
      while the node has a job, and each job was released exactly once, in order. */
  lemma Precedence(g: Graph, s: Nodes, rel: Releases, es: seq<Event>, path: seq<nat>)
    requires Initial(g, s, rel) && ValidRun(g, s, es) && Path(g, path) && |path| > 1
    ensures var (s', rel') := Run(g, s, rel, es);
            var top, v := path[0], path[|path| - 1];
            && |s'| == |rel'| == |g.parents|
            && s'[v].job <= s'[top].job
            && (Busy(s'[v]) ==> s'[v].job < s'[top].job)
            && |rel'[v]| == s'[v].job + (if Busy(s'[v]) then 1 else 0)
            && (forall k :: 0 <= k < |rel'[v]| ==> rel'[v][k] == k)
  {
    InitialInv(g, s, rel);
    RunKeepsInv(g, s, rel, es);
    var (s', rel') := Run(g, s, rel, es);
    BehindAncestor(g, s', rel', path);
    assert Ordered(g, s', rel', path[|path| - 1]);
    assert path[|path| - 2] in g.parents[path[|path| - 1]];
  }

  lemma {:induction false} BehindAncestor(g: Graph, s: Nodes, rel: Releases, path: seq<nat>)
    requires Inv(g, s, rel) && Path(g, path)
    ensures s[path[|path| - 1]].job <= s[path[0]].job
    ensures |path| > 1 && Busy(s[path[|path| - 1]]) ==> s[path[|path| - 1]].job < s[path[0]].job
    decreases |path|
  {
    if |path| > 1 {
      var n := |path| - 1;
      assert Path(g, path[..n]);
      BehindAncestor(g, s, rel, path[..n]);
      assert Ordered(g, s, rel, path[n]);
      assert path[n - 1] in g.parents[path[n]] && !g.IsSource(path[n]);
    }
  }

  // ---------- the nodes as objects ----------

  class DagNode {
    var parents: seq<DagNode>
    var children: seq<DagNode>
    var jobIndex: nat
    var active: bool
    var arrPending: bool
    var fakePending: bool
    var buffered: nat
    const size: int

    constructor (size: int)
      ensures parents == [] && children == [] && Snapshot() == Node(0, false, false, false, 0, size)
    {
      this.size := size;
      parents, children := [], [];
      jobIndex, active, arrPending, fakePending, buffered := 0, false, false, false, 0;
    }

    function Snapshot(): Node
      reads this
    {
      Node(jobIndex, active, arrPending, fakePending, buffered, size)
    }

    method AddChildTask(child: DagNode)
      modifies this`children, child`parents
      ensures children == old(children) + [child] && child.parents == old(child.parents) + [this]
    {
      children := children + [child];
      child.parents := child.parents + [this];
    }

    method CheckParentsJob() returns (b: bool)
      ensures b <==> forall p :: p in parents ==> p.jobIndex > jobIndex
    {
      var i := 0;
      while i < |parents|
        invariant i <= |parents|
        invariant forall k :: 0 <= k < i ==> parents[k].jobIndex > jobIndex
      {
        if parents[i].jobIndex <= jobIndex {
          return false;
        }
        i := i + 1;
      }
      return true;
    }

    ghost predicate Activatable()
      reads this, parents
    {
      parents == [] || forall p :: p in parents ==> p.jobIndex > jobIndex
    }

    method Activate()
      modifies this`arrPending
      ensures arrPending == (old(arrPending) || old(Activatable()))
    {
      if parents == [] {
        arrPending := true;
      } else {
        var ahead := CheckParentsJob();
        if ahead {
          arrPending := true;
        }
      }
    }

    method ActivateChildren()
      modifies children`arrPending
      ensures forall c :: c in children ==> c.arrPending == (old(c.arrPending) || old(c.Activatable()))
    {
      for i := 0 to |children|
        invariant forall k :: 0 <= k < i ==>
                  children[k].arrPending == (old(children[k].arrPending) || old(children[k].Activatable()))
        invariant forall c :: c in children && c !in children[..i] ==> c.arrPending == old(c.arrPending)
        invariant forall c :: c in children ==> c.Activatable() == old(c.Activatable())
      {
        children[i].Activate();
      }
    }

    /** The end of the job of node v of the graph g; nodes lists its objects. */
    method OnEndInstance(ghost g: Graph, ghost nodes: seq<DagNode>, ghost v: nat)
      requires Represents(nodes, g) && v < |nodes| && nodes[v] == this
      modifies this`active, this`jobIndex, this`fakePending, children`arrPending
      ensures |Snapshots(nodes)| == |g.parents| && g.Valid()
      ensures Snapshots(nodes) == EndOf(g, old(Snapshots(nodes)), v)
    {
      ghost var s := Snapshots(nodes);
      FinishJob(g, nodes, v);
      hide Represents, ChildrenActivated, Graph.Valid;
      ActivateAll(g, nodes, v);
      NotifyBuffered(nodes, v);
    }

    /** The node becomes idle and counts its job. */
    method FinishJob(ghost g: Graph, ghost nodes: seq<DagNode>, ghost v: nat)
      requires Represents(nodes, g) && v < |nodes| && nodes[v] == this
      modifies this`active, this`jobIndex
      ensures Represents(nodes, g) && |nodes| == |g.parents| == |g.children| && g.Valid()
      ensures Snapshots(nodes) == Finished(old(Snapshots(nodes)), v)
    {
      active := false;
      jobIndex := jobIndex + 1;
    }

    /** With an arrival buffered, the buffered start is posted. */
    method NotifyBuffered(ghost nodes: seq<DagNode>, ghost v: nat)
      requires Distinct(nodes) && v < |nodes| && nodes[v] == this
      modifies this`fakePending
      ensures Snapshots(nodes) == Notified(old(Snapshots(nodes)), v)
    {
      if buffered > 0 {
        fakePending := true;
      }
    }

    method ActivateAll(ghost g: Graph, ghost nodes: seq<DagNode>, ghost v: nat)
      requires Represents(nodes, g) && v < |nodes| && nodes[v] == this
      modifies children`arrPending
      ensures Distinct(nodes)
      ensures |nodes| == |g.parents| && g.Valid()
      ensures Snapshots(nodes) == ChildrenActivated(g, old(Snapshots(nodes)), v)
    {
      ghost var s1 := Snapshots(nodes);
      ghost var ready := set c | 0 <= c < |nodes| && nodes[c].Activatable();
      forall c | 0 <= c < |nodes|
        ensures c in ready <==> g.IsSource(c) || ParentsAhead(g, s1, c)
        ensures nodes[c] in children <==> c in g.children[v]
      {
        ActivatableInSnapshot(nodes, g, c);
        PickContains(nodes, g.children[v], c);
      }
      hide Represents, ParentsAhead, Graph.Valid, Activatable;
      label before:
      ActivateChildren();
      forall c | 0 <= c < |nodes| ensures nodes[c].Snapshot() == ChildrenActivated(g, s1, v)[c] {
        assert c in ready <==> old@before(nodes[c].Activatable());
        assert s1[c] == old@before(nodes[c].Snapshot());
        if c in g.children[v] {
          assert nodes[c].arrPending == (s1[c].arr || c in ready);
        }
      }
      SnapshotsAre(nodes, ChildrenActivated(g, s1, v));
    }

    method OnArrival()
      modifies this`active, this`arrPending, this`buffered
      ensures Snapshot() == ArrivalOf([old(Snapshot())], 0)[0]
    {
      arrPending := false;
      if !active {
        active := true;
      } else if buffered <= size {
        buffered := buffered + 1;
      }
    }

    method OnFakeArrival()
      requires buffered > 0
      modifies this`active, this`fakePending, this`buffered
      ensures old(Snapshot()).buffered > 0 && Snapshot() == FakeArrivalOf([old(Snapshot())], 0)[0]
    {
      fakePending := false;
      buffered := buffered - 1;
      active := true;
    }
  }

  ghost predicate IdsBelow(ids: seq<nat>, n: nat) { forall k :: 0 <= k < |ids| ==> ids[k] < n }

  ghost function Pick(nodes: seq<DagNode>, ids: seq<nat>): seq<DagNode>
    requires IdsBelow(ids, |nodes|)
  {
    seq(|ids|, k requires 0 <= k < |ids| => nodes[ids[k]])
  }

  lemma PickContains(nodes: seq<DagNode>, ids: seq<nat>, c: nat)
    requires IdsBelow(ids, |nodes|) && Distinct(nodes) && c < |nodes|
    ensures nodes[c] in Pick(nodes, ids) <==> c in ids
  {
    if c in ids {
      var k :| 0 <= k < |ids| && ids[k] == c;
      assert Pick(nodes, ids)[k] == nodes[c];
    }
  }

  ghost predicate Represents(nodes: seq<DagNode>, g: Graph)
    reads nodes
  {
    && g.Valid() && |nodes| == |g.parents| && Distinct(nodes)
    && forall v :: 0 <= v < |nodes| ==>
         && IdsBelow(g.parents[v], |nodes|) && IdsBelow(g.children[v], |nodes|)
         && nodes[v].parents == Pick(nodes, g.parents[v])
         && nodes[v].children == Pick(nodes, g.children[v])
  }

  ghost function Snapshots(nodes: seq<DagNode>): Nodes
    reads nodes
  {
    seq(|nodes|, v requires 0 <= v < |nodes| reads nodes => nodes[v].Snapshot())
  }

  lemma ActivatableInSnapshot(nodes: seq<DagNode>, g: Graph, c: nat)
    requires Represents(nodes, g) && c < |nodes|
    ensures nodes[c].Activatable() <==> g.IsSource(c) || ParentsAhead(g, Snapshots(nodes), c)
  {
    ParentsInSnapshot(nodes, g.parents[c], nodes[c].jobIndex);
  }

  lemma ParentsInSnapshot(nodes: seq<DagNode>, ids: seq<nat>, job: nat)
    requires IdsBelow(ids, |nodes|)
    ensures (forall p :: p in Pick(nodes, ids) ==> p.jobIndex > job)
            <==> (forall k :: 0 <= k < |ids| ==> Snapshots(nodes)[ids[k]].job > job)
  {
    var ps := Pick(nodes, ids);
    if forall p :: p in ps ==> p.jobIndex > job {
      forall k | 0 <= k < |ids| ensures Snapshots(nodes)[ids[k]].job > job {
        assert ps[k] in ps;
      }
    }
  }

  lemma SnapshotsAre(nodes: seq<DagNode>, s: Nodes)
    requires |s| == |nodes| && forall c :: 0 <= c < |nodes| ==> nodes[c].Snapshot() == s[c]
    ensures Snapshots(nodes) == s
  {
  }
}
