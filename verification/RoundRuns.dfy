/**
 Rounds on any number of processors (src/rrsched.cpp, src/mrtkernel.cpp:306-316): tasks begin to execute at any time,
 and each start sets the one timer again.
 */
module RoundRuns {
  import opened Common
  import opened ReadyQueue
  import opened RoundRobin

  // ---------- one round ----------

  /** The front has a slice and began to execute at least that long ago; a task that never began counts from 0. */
  ghost predicate UsedUp(slice: map<Task, int>, begun: map<Task, int>, t: Task, now: int) {
    t in slice && slice[t] > 0 && (if t in begun then begun[t] else 0) + slice[t] <= now
  }

  /** A task inserted again at the time it had comes back to its place. */
  lemma SameTimeSameQueue(s: Sched, now: int)
    requires s.Valid() && s.queue != [] && s.queue[0] in s.models && s.models[s.queue[0]].insertTime == now
    ensures Rotate(s, now) == s
  {
    var f := s.queue[0];
    RotateKeepsValid(s, now);
    assert s.models[f := s.models[f].(insertTime := now)] == s.models;
    RotateShape(s, now);
    hide Rotate, InsertSorted, Position, Sorted;
    assert Sched(s.models, s.queue).Valid();
    SortedIsUnique(s.models, Rotate(s, now).queue, s.queue);
  }

  /** round() changes the place or the insertion time of the front exactly when its slice is used up and it was not
      inserted at this very time. It changes nothing else in the queue. */
  lemma RoundChangesFrontIff(r: RrState, now: int)
    requires r.Valid() && r.sched.queue != []
    ensures r.sched.queue[0] in r.sched.models && r.sched.models[r.sched.queue[0]].active
    ensures var f, s, s' := r.sched.queue[0], r.sched, Round(r, now).sched;
            && (s' != s <==> UsedUp(r.slice, r.lastSched, f, now) && s.models[f].insertTime != now)
            && (s' != s ==> s'.models == s.models[f := s.models[f].(insertTime := now)])
            && s'.Valid() && Elements(s'.queue) == Elements(s.queue)
  {
    var f := r.sched.queue[0];
    assert f in r.sched.queue;
    RotateShape(r.sched, now);
    RotateKeepsValid(r.sched, now);
    FrontExists(r, now);
    if r.sched.models[f].insertTime == now {
      SameTimeSameQueue(r.sched, now);
    }
    hide Rotate, Sched.Valid, Position;
  }

  /** The timer is set again exactly when the slice of the front was used up and the new front has one. So a round
      that finds its slice unused ends the rounds, until another task begins. */
  lemma FireSetsTimerIff(r: RrState)
    requires r.Valid() && r.sched.queue != [] && r.timer.Some?
    ensures r.sched.queue[0] in r.sched.models && r.sched.models[r.sched.queue[0]].active
    ensures var now, r' := r.timer.value, Fire(r);
            && r'.sched.queue != []
            && r'.timer == if UsedUp(r.slice, r.lastSched, r.sched.queue[0], now) && r.Slice(r'.sched.queue[0]) != 0
                           then Some(now + r.Slice(r'.sched.queue[0])) else None
  {
    assert r.sched.queue[0] in r.sched.queue;
    FrontExists(r.(timer := None), r.timer.value);
    hide Rotate, Sched.Valid;
  }

  // ---------- runs ----------

  /** A task begins to execute, a processor idles, the timer fires, a task arrives, or leaves. */
  datatype Event = Begins(t: Task, now: int) | Idles | Fires | Joins(t: Task, now: int) | Leaves(t: Task)

  /** What an observer sees: the time, when each task last began, and when the next round is due. */
  datatype Watch = Watch(clock: int, begun: map<Task, int>, due: Option<int>)

  /** Time goes on, and not past the next round. */
  predicate InTime(w: Watch, now: int) { w.clock <= now && (w.due.Some? ==> now <= w.due.value) }

  ghost predicate Enabled(r: RrState, w: Watch, e: Event) {
    && Known(r.sched.models, r.sched.queue)
    && match e
       case Begins(t, now) => t in r.sched.queue && InTime(w, now)
       case Idles => true
       case Fires => r.timer.Some? && r.sched.queue != [] && r.sched.models[r.sched.queue[0]].active
       case Joins(t, now) => t in r.sched.models && t !in r.sched.queue && InTime(w, now)
       case Leaves(t) => t in r.sched.queue && t in r.sched.models
  }

  ghost function Step(r: RrState, w: Watch, e: Event): RrState
    requires Enabled(r, w, e)
  {
    match e
    case Begins(t, now) => r.Starts(t, now)
    case Idles => r.Stops()
    case Fires => Fire(r)
    case Joins(t, now) => r.(sched := r.sched.Insert(t, now))
    case Leaves(t) => r.(sched := r.sched.Extract(t))
  }

  /** A round is due when the task that began last, or the front of the last round, has had its slice from then on;
      a round whose front has not had its slice brings no other. */
  ghost function Record(r: RrState, w: Watch, e: Event, r': RrState): Watch
    requires Enabled(r, w, e)
  {
    match e
    case Begins(t, now) =>
      Watch(now, w.begun[t := now], if t in r.slice && r.slice[t] > 0 then Some(now + r.slice[t]) else None)
    case Idles => w.(due := None)
    case Fires =>
      if w.due.None? then w
      else
        var now := w.due.value;
        var goesOn := UsedUp(r.slice, w.begun, r.sched.queue[0], now)
                      && r'.sched.queue != [] && r'.sched.queue[0] in r.slice && r.slice[r'.sched.queue[0]] != 0;
        Watch(now, w.begun, if goesOn then Some(now + r.slice[r'.sched.queue[0]]) else None)
    case Joins(_, now) => w.(clock := now)
    case Leaves(_) => w
  }

  ghost predicate Inv(r: RrState, w: Watch) {
    && r.Valid()
    && r.lastSched == w.begun && r.timer == w.due
    && (w.due.Some? ==> w.clock <= w.due.value)
    && forall t :: t in r.slice ==> r.slice[t] >= 0
  }

  lemma FiresKeepsInv(r: RrState, w: Watch)
    requires Inv(r, w) && Enabled(r, w, Fires)
    ensures Inv(Fire(r), Record(r, w, Fires, Fire(r)))
  {
    FireSetsTimerIff(r);
    FireKeeps(r);
    hide Fire, RrState.Valid, UsedUp, Known;
  }

  lemma FireKeeps(r: RrState)
    requires r.Valid() && r.sched.queue != [] && r.timer.Some?
    ensures r.sched.queue[0] in r.sched.models && r.sched.models[r.sched.queue[0]].active
    ensures Fire(r).lastSched == r.lastSched && Fire(r).slice == r.slice
    ensures Fire(r).Valid()
  {
    RoundChangesFrontIff(r.(timer := None), r.timer.value);
    hide Sched.Valid, RoundQueue, Rotate;
  }

  lemma StepKeepsInv(r: RrState, w: Watch, e: Event)
    requires Inv(r, w) && Enabled(r, w, e)
    ensures Inv(Step(r, w, e), Record(r, w, e, Step(r, w, e)))
  {
    match e
    case Begins(t, now) =>
    case Idles =>
    case Fires => FiresKeepsInv(r, w);
    case Joins(t, now) => InsertKeepsValid(r.sched, t, now);
    case Leaves(t) => ExtractKeepsValid(r.sched, t, 0);
  }

  ghost predicate ValidRun(r: RrState, w: Watch, es: seq<Event>)
    decreases |es|
  {
    es == [] || (Enabled(r, w, es[0])
                 && ValidRun(Step(r, w, es[0]), Record(r, w, es[0], Step(r, w, es[0])), es[1..]))
  }

  ghost function Run(r: RrState, w: Watch, es: seq<Event>): (RrState, Watch)
    requires ValidRun(r, w, es)
    decreases |es|
  {
    if es == [] then (r, w)
    else
      var r' := Step(r, w, es[0]);
      Run(r', Record(r, w, es[0], r'), es[1..])
  }

  /** Over every run the timer fires when a round is due. */
  lemma {:induction false} RoundsAreDue(r: RrState, w: Watch, es: seq<Event>)
    requires Inv(r, w) && ValidRun(r, w, es)
    ensures var (r', w') := Run(r, w, es); Inv(r', w')
    decreases |es|
  {
    hide Inv, Enabled, Step, Record;
    if es != [] {
      StepKeepsInv(r, w, es[0]);
      RoundsAreDue(Step(r, w, es[0]), Record(r, w, es[0], Step(r, w, es[0])), es[1..]);
    }
  }

  /** Over every run, with starts at any time: the timer moves the front, or gives it a new insertion time, exactly
      when it has had its whole slice since it last began and did not arrive at this very time. */
  lemma MovedHadItsSlice(r: RrState, w: Watch, es: seq<Event>)
    requires Inv(r, w) && ValidRun(r, w, es)
    requires Enabled(Run(r, w, es).0, Run(r, w, es).1, Fires)
    ensures var (r1, w1) := Run(r, w, es);
            && w1.due.Some? && r1.sched.queue[0] in r1.sched.models
            && (Step(r1, w1, Fires).sched != r1.sched <==>
                  && UsedUp(r1.slice, w1.begun, r1.sched.queue[0], w1.due.value)
                  && r1.sched.models[r1.sched.queue[0]].insertTime != w1.due.value)
  {
    RoundsAreDue(r, w, es);
    var (r1, w1) := Run(r, w, es);
    RoundChangesFrontIff(r1.(timer := None), w1.due.value);
  }

  /** On two processors: task 1 begins at 0 with a slice of 5, task 2 at 3 with a slice of 1. The timer fires at 4, task
      1 keeps its place, and no other round is due: task 1 may go on past 5. */
  lemma UnusedSliceEndsRounds()
    ensures var ms := map[1 := TaskModel(PRIORITY, -1, true, 0), 2 := TaskModel(PRIORITY, -1, true, 0)];
            var r, w := RrState(Sched(ms, [1, 2]), map[1 := 5, 2 := 1], map[], None), Watch(0, map[], None);
            && Inv(r, w) && ValidRun(r, w, [Begins(1, 0), Begins(2, 3), Fires])
            && (var (r', w') := Run(r, w, [Begins(1, 0), Begins(2, 3), Fires]);
                r'.sched == r.sched && w'.clock == 4 && r'.timer == w'.due == None)
  {
    var ms := map[1 := TaskModel(PRIORITY, -1, true, 0), 2 := TaskModel(PRIORITY, -1, true, 0)];
    var r, w := RrState(Sched(ms, [1, 2]), map[1 := 5, 2 := 1], map[], None), Watch(0, map[], None);
    var r1, w1 := r.Starts(1, 0), Watch(0, map[1 := 0], Some(5));
    var r2, w2 := r1.Starts(2, 3), Watch(3, map[1 := 0, 2 := 3], Some(4));
    RunOf(r2, w2, Fires, []);
    RunOf(r1, w1, Begins(2, 3), [Fires] + []);
    RunOf(r, w, Begins(1, 0), [Begins(2, 3)] + ([Fires] + []));
    assert [Begins(1, 0), Begins(2, 3), Fires] == [Begins(1, 0)] + ([Begins(2, 3)] + ([Fires] + []));
  }

  lemma RunOf(r: RrState, w: Watch, e: Event, es: seq<Event>)
    requires Enabled(r, w, e)
    requires ValidRun(Step(r, w, e), Record(r, w, e, Step(r, w, e)), es)
    ensures ValidRun(r, w, [e] + es)
    ensures Run(r, w, [e] + es) == Run(Step(r, w, e), Record(r, w, e, Step(r, w, e)), es)
  {
    assert ([e] + es)[1..] == es;
  }

  lemma InitialInv(sched: Sched, slice: map<Task, int>)
    requires sched.Valid() && forall t :: t in sched.models ==> sched.models[t].prio == PRIORITY
    requires forall t :: t in slice ==> slice[t] >= 0
    ensures Inv(RrState(sched, slice, map[], None), Watch(0, map[], None))
  {
  }
}
