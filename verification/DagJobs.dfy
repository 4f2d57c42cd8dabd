/**
 The jobs of the nodes of a graph, sources included, over runs in which graph instances may overlap
 (src/dagnode.cpp:78-139, src/task.cpp:184-189, 321-325).
 */
module DagJobs {
  import opened Common
  import opened Dag

  /** What happened to one node: how often its timer fired, how many arrivals were handled, how many jobs they started,
      at once or from the buffer, how many arrivals were dropped, and how many jobs a buffered start overwrote. */
  datatype Tally = Tally(timers: nat, arrived: nat, started: nat, dropped: nat, overwritten: nat)

  function Count(s: Nodes, ts: seq<Tally>, e: Event): seq<Tally>
    requires e.v < |s| == |ts|
  {
    var v, t := e.v, ts[e.v];
    match e
    case Timer(_) => ts[v := t.(timers := t.timers + 1)]
    case Arrives(_) =>
      var t' := t.(arrived := t.arrived + 1);
      ts[v := if !s[v].active then t'.(started := t.started + 1)
              else if s[v].buffered <= s[v].size then t' else t'.(dropped := t.dropped + 1)]
    case Ends(_) => ts
    case BufferedStart(_) =>
      ts[v := t.(started := t.started + 1, overwritten := t.overwritten + if s[v].active then 1 else 0)]
  }

  /** Every arrival handled started a job, is buffered, or was dropped. Every job started was finished, is active, or
      was overwritten. An idle node with an arrival buffered has a buffered start pending. And no more arrivals came
      than the timer of a source fired, or the parents of another node released. */
  ghost predicate Settled(n: Node, t: Tally, source: bool, released: nat) {
    && t.arrived == t.started + n.buffered + t.dropped
    && t.started == n.job + (if n.active then 1 else 0) + t.overwritten
    && (!n.active && n.buffered > 0 ==> n.fake) && (n.fake ==> n.buffered > 0)
    && n.buffered <= Max0(n.size + 1)
    && t.arrived + (if n.arr then 1 else 0) <= (if source then t.timers else released)
  }

  ghost predicate Accounted(g: Graph, s: Nodes, rel: Releases, ts: seq<Tally>) {
    && Shaped(g, s) && |rel| == |ts| == |s|
    && forall v :: 0 <= v < |s| ==> Settled(s[v], ts[v], g.IsSource(v), |rel[v]|)
  }

  /** The node that ended, and every other node. */
  lemma EndSettles(g: Graph, s: Nodes, rel: Releases, ts: seq<Tally>, v: nat, c: nat)
    requires Accounted(g, s, rel, ts) && Enabled(g, s, Ends(v)) && c < |s|
    ensures Settled(EndOf(g, s, v)[c], ts[c], g.IsSource(c), |Record(g, s, rel, Ends(v))[c]|)
  {
    assert Settled(s[c], ts[c], g.IsSource(c), |rel[c]|);
    assert c in g.children[v] ==> v in g.parents[c] && !g.IsSource(c);
    assert c == v ==> !ParentsAhead(g, Finished(s, v), c) || g.parents[c] == [] || v !in g.parents[c];
  }

  lemma StepKeepsAccount(g: Graph, s: Nodes, rel: Releases, ts: seq<Tally>, e: Event)
    requires Accounted(g, s, rel, ts) && Enabled(g, s, e)
    ensures Accounted(g, Step(g, s, e), Record(g, s, rel, e), Count(s, ts, e))
  {
    var s' := Step(g, s, e);
    forall c | 0 <= c < |s|
      ensures Settled(s'[c], Count(s, ts, e)[c], g.IsSource(c), |Record(g, s, rel, e)[c]|)
    {
      if e.Ends? {
        EndSettles(g, s, rel, ts, e.v, c);
      } else {
        assert Settled(s[c], ts[c], g.IsSource(c), |rel[c]|);
      }
    }
  }

  // ---------- runs ----------

  ghost predicate PossibleRun(g: Graph, s: Nodes, es: seq<Event>)
    requires Shaped(g, s)
    decreases |es|
  {
    es == [] || (Enabled(g, s, es[0]) && PossibleRun(g, Step(g, s, es[0]), es[1..]))
  }

  ghost function Follow(g: Graph, s: Nodes, rel: Releases, ts: seq<Tally>, es: seq<Event>)
      : (Nodes, Releases, seq<Tally>)
    requires Shaped(g, s) && |rel| == |ts| == |s| && PossibleRun(g, s, es)
    decreases |es|
  {
    if es == [] then (s, rel, ts)
    else Follow(g, Step(g, s, es[0]), Record(g, s, rel, es[0]), Count(s, ts, es[0]), es[1..])
  }

  /** Over every run, whether or not graph instances overlap, every node's jobs are accounted for. */
  lemma {:induction false} NodesAreAccounted(g: Graph, s: Nodes, rel: Releases, ts: seq<Tally>, es: seq<Event>)
    requires Accounted(g, s, rel, ts) && PossibleRun(g, s, es)
    ensures var (s', rel', ts') := Follow(g, s, rel, ts, es); Accounted(g, s', rel', ts')
    decreases |es|
  {
    if es != [] {
      StepKeepsAccount(g, s, rel, ts, es[0]);
      hide Settled, Enabled, Step, Record, Count;
      NodesAreAccounted(g, Step(g, s, es[0]), Record(g, s, rel, es[0]), Count(s, ts, es[0]), es[1..]);
    }
  }

  lemma InitialAccount(g: Graph, s: Nodes, rel: Releases)
    requires Initial(g, s, rel)
    ensures Accounted(g, s, rel, seq(|s|, _ => Tally(0, 0, 0, 0, 0)))
  {
  }
}
