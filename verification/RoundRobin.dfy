/**
 Round-robin scheduling (src/rrsched.cpp): all priorities are equal, so the ready queue is ordered by
 insertion time, and an expired front task is inserted again with the current time.
 */
module RoundRobin {
  import opened Common
  import opened ReadyQueue

  /** RRModel::getPriority is 1 for every task. */
  const PRIORITY := 1

  datatype RrState = RrState(sched: Sched, slice: map<Task, int>, lastSched: map<Task, int>, timer: Option<int>) {

    function Slice(t: Task): int { if t in slice then slice[t] else 0 }

    function LastSched(t: Task): int { if t in lastSched then lastSched[t] else 0 }

    predicate Expired(t: Task, now: int) { Slice(t) > 0 && now - LastSched(t) >= Slice(t) }

    /** t begins to execute: Task::onSched records the time, and notify() sets the timer for its slice. */
    function Starts(t: Task, now: int): RrState {
      this.(lastSched := lastSched[t := now], timer := if Slice(t) > 0 then Some(now + Slice(t)) else None)
    }

    /** A processor has nothing to execute: notify() without a task. */
    function Stops(): RrState { this.(timer := None) }

    ghost predicate Valid() {
      sched.Valid() && forall t :: t in sched.models ==> sched.models[t].prio == PRIORITY
    }
  }

  /** The queue after round(): an expired front is erased and, being active, inserted with the current time. */
  function Rotate(s: Sched, now: int): Sched
    requires s.queue != [] && Known(s.models, s.queue)
  {
    var f := s.queue[0];
    if s.models[f].active then
      var ms := s.models[f := s.models[f].(insertTime := now)];
      Sched(ms, InsertSorted(ms, Without(s.queue, f), f))
    else
      Sched(s.models, Without(s.queue, f))
  }

  function RoundQueue(r: RrState, now: int): Sched
    requires r.sched.queue != [] && Known(r.sched.models, r.sched.queue)
  {
    if r.Expired(r.sched.queue[0], now) then Rotate(r.sched, now) else r.sched
  }

  /** round(): the queue turns, and the timer is set again for the slice of the new front, or of the same one
      when it is expired. */
  function Round(r: RrState, now: int): RrState
    requires r.sched.queue != [] && Known(r.sched.models, r.sched.queue) && r.sched.models[r.sched.queue[0]].active
  {
    var s' := RoundQueue(r, now);
    FrontExists(r, now);
    var first := s'.queue[0];
    r.(sched := s',
       timer := if r.Slice(first) == 0 then None
                else if first != r.sched.queue[0] || r.Expired(first, now) then Some(now + r.Slice(first))
                else r.timer)
  }

  lemma FrontExists(r: RrState, now: int)
    requires r.sched.queue != [] && Known(r.sched.models, r.sched.queue) && r.sched.models[r.sched.queue[0]].active
    ensures RoundQueue(r, now).queue != []
  {
  }

  class RRScheduler {
    const sched: Scheduler
    var slice: map<Task, int>
    var timer: Option<int>       // when _rrEvt fires

    ghost function State(lastSched: map<Task, int>): RrState
      reads this, sched
    {
      RrState(sched.State(), slice, lastSched, timer)
    }

    constructor (sched: Scheduler)
      ensures this.sched == sched && slice == map[] && timer == None
    {
      this.sched := sched;
      slice := map[];
      timer := None;
    }

    method IsRoundExpired(t: Task, now: int, last: map<Task, int>) returns (b: bool)
      ensures b == State(last).Expired(t, now)
    {
      var s := if t in slice then slice[t] else 0;
      var l := if t in last then last[t] else 0;
      b := s > 0 && now - l >= s;
    }

    /** notify(): the timer starts for the slice of the task that begins to execute. */
    method Notify(t: Option<Task>, now: int)
      modifies this`timer
      ensures t.Some? ==> forall last :: timer == old(State(last)).Starts(t.value, now).timer
      ensures t.None? ==> forall last :: timer == old(State(last)).Stops().timer
    {
      timer := None;
      if t.Some? && t.value in slice && slice[t.value] > 0 {
        timer := Some(now + slice[t.value]);
      }
    }

    method RoundExpires(now: int, last: map<Task, int>)
      requires sched.State().Valid() && sched.queue != []
      modifies this`timer, sched`queue, sched`models
      ensures Known(old(sched.models), old(sched.queue)) && old(sched.models[sched.queue[0]].active)
      ensures State(last) == Round(old(State(last)), now)
    {
      var model := sched.queue[0];
      assert sched.models[model].active;
      FrontExists(State(last), now);
      var expired := IsRoundExpired(model, now, last);
      if expired {
        sched.Erase(model);
        if sched.models[model].active {
          sched.models := sched.models[model := sched.models[model].(insertTime := now)];
          sched.queue := InsertSorted(sched.models, sched.queue, model);
        }
      }
      var first := sched.queue[0];
      var s := if first in slice then slice[first] else 0;
      if s == 0 {
        timer := None;
      } else {
        var again := IsRoundExpired(first, now, last);
        if first != model || again {
          timer := Some(now + s);
        }
      }
    }
  }

  // ---------- one expired round ----------

  lemma RotateKeepsValid(s: Sched, now: int)
    requires s.Valid() && s.queue != []
    ensures Rotate(s, now).Valid() && Elements(Rotate(s, now).queue) == Elements(s.queue)
  {
    var f := s.queue[0];
    SortedIsDistinct(s.models, s.queue);
    assert s.models[f].active;
    var ms := s.models[f := s.models[f].(insertTime := now)];
    WithoutKeepsOrder(ms, s.queue, f);
    var q := Without(s.queue, f);
    InsertSortedKeepsOrder(ms, q, f);
    assert forall x :: x in InsertSorted(ms, q, f) <==> x in Elements(InsertSorted(ms, q, f));
    assert forall x :: x in s.queue <==> x in Elements(s.queue);
  }

  /** The tasks ahead of a waiting task. */
  ghost function Ahead(s: Sched, w: Task): nat
    requires w in s.queue
  {
    IndexOf(s.queue, w)
  }

  /** Where round() puts the front back: behind every task whose key comes before its new one. */
  lemma RotateShape(s: Sched, now: int)
    requires s.Valid() && s.queue != []
    ensures var f := s.queue[0];
            var ms := s.models[f := s.models[f].(insertTime := now)];
            var q := s.queue[1..];
            Known(ms, q) && (var p := Position(ms, q, f);
            Rotate(s, now).queue == q[..p] + [f] + q[p..] && Rotate(s, now).models == ms)
  {
    var f := s.queue[0];
    assert s.models[f].active;
    assert Without(s.queue, f) == s.queue[1..];
  }

  lemma PositionIsPast(ms: Models, q: seq<Task>, t: Task, i: nat)
    requires Known(ms, q) && t in ms && Sorted(ms, q) && i < |q| && Before(ms, q[i], t)
    ensures i < Position(ms, q, t)
  {
    var p := Position(ms, q, t);
    if p < i {
      BeforeIsStrictTotalOrder(ms, q[p], q[i], t);
    }
  }

  lemma QueueIsDistinct(s: Sched)
    requires s.Valid()
    ensures Distinct(s.queue) && forall t :: t in s.queue ==> t in s.models
  {
    SortedIsDistinct(s.models, s.queue);
  }

  lemma PositionIsBefore(ms: Models, q: seq<Task>, t: Task, i: nat)
    requires Known(ms, q) && t in ms && i < |q| && Before(ms, t, q[i])
    ensures Position(ms, q, t) <= i
  {
    if i < Position(ms, q, t) {
      BeforeIsStrictTotalOrder(ms, q[i], t, t);
    }
  }

  /** w goes before a task that is inserted at `now`. */
  predicate GoesBefore(ms: Models, w: Task, t: Task, now: int)
    requires w in ms
  {
    ms[w].insertTime < now || (ms[w].insertTime == now && w < t)
  }

  /** At an expired round a waiting task moves up one place exactly when it goes before the old front: when it was
      inserted before the round ended, or at that time with a smaller number. */
  lemma MovesUpAtExpiredRoundIff(s: Sched, now: int, w: Task)
    requires s.Valid() && s.queue != [] && w in s.queue[1..]
    requires forall t :: t in s.models ==> s.models[t].prio == PRIORITY
    requires s.models[w].insertTime <= now
    ensures w in s.queue && w in Rotate(s, now).queue
    ensures Ahead(Rotate(s, now), w) == Ahead(s, w) - (if GoesBefore(s.models, w, s.queue[0], now) then 1 else 0)
  {
    RotateSplices(s, now);
    QueueIsDistinct(s);
    hide Rotate, Sched.Valid, IndexOf, Position, Known;
    var f, q := s.queue[0], s.queue[1..];
    var ms := s.models[f := s.models[f].(insertTime := now)];
    var p := Position(ms, q, f);
    var i :| 0 <= i < |q| && q[i] == w;
    assert s.queue[i + 1] == w && w != f;
    IndexIs(s.queue, i + 1);
    if GoesBefore(s.models, w, f, now) {
      assert Before(ms, w, f);
      PositionIsPast(ms, q, f, i);
    } else {
      assert Before(ms, f, w);
      PositionIsBefore(ms, q, f, i);
    }
    hide Sorted, Before;
    IndexAfterSplice(q, p, f, i);
  }

  /** The old front is put into a sorted, duplicate-free list. */
  lemma RotateSplices(s: Sched, now: int)
    requires s.Valid() && s.queue != []
    ensures var f, q := s.queue[0], s.queue[1..];
            var ms := s.models[f := s.models[f].(insertTime := now)];
            && Known(ms, q) && Sorted(ms, q)
            && (var p := Position(ms, q, f);
                Rotate(s, now).queue == q[..p] + [f] + q[p..] && Distinct(q[..p] + [f] + q[p..]))
  {
    RotateShape(s, now);
    SortedIsDistinct(s.models, s.queue);
    RotateKeepsValid(s, now);
    SortedIsDistinct(Rotate(s, now).models, Rotate(s, now).queue);
  }

  lemma IndexAfterSplice(q: seq<Task>, p: nat, f: Task, i: nat)
    requires p <= |q| && i < |q| && Distinct(q[..p] + [f] + q[p..])
    ensures var q' := q[..p] + [f] + q[p..]; q[i] in q' && IndexOf(q', q[i]) == if i < p then i else i + 1
  {
    var q' := q[..p] + [f] + q[p..];
    var i' := if i < p then i else i + 1;
    assert q'[i'] == q[i];
    IndexIs(q', i');
  }

  lemma IndexIs(q: seq<Task>, i: nat)
    requires Distinct(q) && i < |q|
    ensures q[i] in q && IndexOf(q, q[i]) == i
  {
  }

  /** A strictly later arrival does not go ahead of anybody. */
  lemma LaterArrivalStaysBehind(s: Sched, t: Task, now: int, w: Task)
    requires s.Valid() && t in s.models && t !in s.queue && w in s.queue
    requires forall x :: x in s.models ==> s.models[x].prio == PRIORITY
    requires s.models[w].insertTime < now
    ensures w in s.Insert(t, now).queue && Ahead(s.Insert(t, now), w) == Ahead(s, w)
  {
    var s' := s.Insert(t, now);
    InsertKeepsValid(s, t, now);
    SortedIsDistinct(s'.models, s'.queue);
    SortedIsDistinct(s.models, s.queue);
    var p := Position(s'.models, s.queue, t);
    var i := Ahead(s, w);
    assert Sorted(s'.models, s.queue);
    PositionIsPast(s'.models, s.queue, t, i);
    assert s'.queue[i] == w;
  }

  // ---------- bounded waiting ----------

  /** While w waits: another task arrives, the round of the front expires, another task leaves. */
  datatype Event = Joins(t: Task, now: int) | Expires(now: int) | Leaves(t: Task)

  /** Arrivals come strictly later than that of w, and rounds end no earlier. */
  ghost predicate Enabled(s: Sched, w: Task, e: Event) {
    && w in s.queue && w in s.models && Known(s.models, s.queue)
    && match e
       case Joins(t, now) => t in s.models && t !in s.queue && s.models[w].insertTime < now
       case Expires(now) => s.queue[0] != w && s.models[w].insertTime <= now
       case Leaves(t) => t in s.queue && t in s.models && t != w
  }

  ghost function Step(s: Sched, w: Task, e: Event): Sched
    requires Enabled(s, w, e)
  {
    match e
    case Joins(t, now) => s.Insert(t, now)
    case Expires(now) => Rotate(s, now)
    case Leaves(t) => s.Extract(t)
  }

  /** A round ends after which w goes before the old front. */
  ghost predicate Moves(s: Sched, w: Task, e: Event)
    requires Enabled(s, w, e)
  {
    e.Expires? && GoesBefore(s.models, w, s.queue[0], e.now)
  }

  /** A valid queue of equal priorities in which w waits. */
  ghost predicate Waits(s: Sched, w: Task) {
    s.Valid() && w in s.queue && forall t :: t in s.models ==> s.models[t].prio == PRIORITY
  }

  lemma LeavingHelps(s: Sched, w: Task, t: Task)
    requires Waits(s, w) && t in s.queue && t != w
    ensures Waits(s.Extract(t), w)
    ensures Ahead(s.Extract(t), w) == Ahead(s, w) - (if Ahead(s, t) < Ahead(s, w) then 1 else 0)
  {
    hide Without, IndexOf, Known, Sorted, Sched.Valid;
    QueueIsDistinct(s);
    ExtractKeepsValid(s, t, 0);
    assert t in s.models && w in s.models;
    IndexWithout(s.queue, t, w);
  }

  lemma IndexWithout(q: seq<Task>, t: Task, w: Task)
    requires Distinct(q) && t in q && w in q && t != w
    ensures w in Without(q, t)
    ensures IndexOf(Without(q, t), w) == IndexOf(q, w) - (if IndexOf(q, t) < IndexOf(q, w) then 1 else 0)
  {
    var k, i := IndexOf(q, t), IndexOf(q, w);
    var q' := Without(q, t);
    assert q' == q[..k] + q[k + 1..];
    hide IndexOf, Without;
    assert forall j :: 0 <= j < |q'| ==> q'[j] == q[if j < k then j else j + 1];
    var i' := if k < i then i - 1 else i;
    assert q'[i'] == w;
    IndexIs(q', i');
  }

  lemma StepKeepsWaiting(s: Sched, w: Task, e: Event)
    requires Waits(s, w) && Enabled(s, w, e)
    ensures Waits(Step(s, w, e), w)
    ensures Ahead(Step(s, w, e), w) <= Ahead(s, w) - (if Moves(s, w, e) then 1 else 0)
  {
    match e
    case Joins(t, now) =>
      InsertKeepsValid(s, t, now);
      LaterArrivalStaysBehind(s, t, now, w);
    case Expires(now) => ExpiryKeepsWaiting(s, w, now);
    case Leaves(t) => LeavingHelps(s, w, t);
  }

  lemma ExpiryKeepsWaiting(s: Sched, w: Task, now: int)
    requires Waits(s, w) && Enabled(s, w, Expires(now))
    ensures Waits(Rotate(s, now), w)
    ensures Ahead(Rotate(s, now), w) == Ahead(s, w) - (if GoesBefore(s.models, w, s.queue[0], now) then 1 else 0)
  {
    assert w in s.queue[1..];
    RotateShape(s, now);
    RotateKeepsValid(s, now);
    hide Sched.Valid, Rotate, IndexOf, Position;
    MovesUpAtExpiredRoundIff(s, now, w);
  }

  ghost predicate WaitingRun(s: Sched, w: Task, es: seq<Event>)
    decreases |es|
  {
    es == [] || (Enabled(s, w, es[0]) && WaitingRun(Step(s, w, es[0]), w, es[1..]))
  }

  ghost function Run(s: Sched, w: Task, es: seq<Event>): Sched
    requires WaitingRun(s, w, es)
    decreases |es|
  {
    if es == [] then s else Run(Step(s, w, es[0]), w, es[1..])
  }

  /** The rounds of a run after which w goes before the old front: all that end after w was inserted, and those that
      end at that time with an old front of a larger number. */
  ghost function Rounds(s: Sched, w: Task, es: seq<Event>): nat
    requires WaitingRun(s, w, es)
    decreases |es|
  {
    if es == [] then 0 else (if Moves(s, w, es[0]) then 1 else 0) + Rounds(Step(s, w, es[0]), w, es[1..])
  }

  /** Bounded waiting: through any later arrivals, departures and expired rounds, the tasks ahead of w and the rounds
      in which it moved together never exceed the tasks that were ahead at first. So after at most that many such
      rounds w leads. */
  lemma {:induction false} BoundedWaiting(s: Sched, w: Task, es: seq<Event>)
    requires Waits(s, w) && WaitingRun(s, w, es)
    ensures Waits(Run(s, w, es), w)
    ensures Ahead(Run(s, w, es), w) + Rounds(s, w, es) <= Ahead(s, w) < |s.queue|
    ensures Rounds(s, w, es) == Ahead(s, w) ==> Run(s, w, es).queue[0] == w
    decreases |es|
  {
    hide Waits, Enabled, Step, Moves;
    if es != [] {
      StepKeepsWaiting(s, w, es[0]);
      BoundedWaiting(Step(s, w, es[0]), w, es[1..]);
    }
  }

  // ---------- rounds without arrivals or departures ----------

  /** With everybody else inserted before now, the queue turns by one place. */
  lemma RotatesByOne(s: Sched, now: int)
    requires s.Valid() && s.queue != []
    requires forall t :: t in s.models ==> s.models[t].prio == PRIORITY
    requires forall t :: t in s.queue ==> s.models[t].insertTime < now
    ensures Rotate(s, now).queue == s.queue[1..] + [s.queue[0]]
  {
    RotateShape(s, now);
    SortedIsDistinct(s.models, s.queue);
    var f, q := s.queue[0], s.queue[1..];
    var ms := s.models[f := s.models[f].(insertTime := now)];
    if q != [] {
      assert Sorted(ms, q);
      assert q[|q| - 1] == s.queue[|q|];
      PositionIsPast(ms, q, f, |q| - 1);
    }
    assert q[..|q|] == q;
  }

  /** The timer fires, and is no longer pending when round() is called. */
  function Fire(r: RrState): RrState
    requires r.timer.Some? && r.sched.queue != [] && Known(r.sched.models, r.sched.queue)
    requires r.sched.models[r.sched.queue[0]].active
  {
    Round(r.(timer := None), r.timer.value)
  }

  /** ... and on one processor a new front starts to execute at once, with the timer set for its slice. */
  function Tick(r: RrState): RrState
    requires r.timer.Some? && r.sched.queue != [] && Known(r.sched.models, r.sched.queue)
    requires r.sched.models[r.sched.queue[0]].active
  {
    var now := r.timer.value;
    var r' := Fire(r);
    FrontExists(r.(timer := None), now);
    var first := r'.sched.queue[0];
    if first != r.sched.queue[0] then r'.Starts(first, now) else r'
  }

  /** The front has used up its slice when the timer fires, and everybody was inserted before. */
  ghost predicate Ticking(r: RrState) {
    && r.Valid() && r.sched.queue != [] && r.timer.Some?
    && r.timer.value - r.LastSched(r.sched.queue[0]) >= r.Slice(r.sched.queue[0])
    && forall t :: t in r.sched.queue ==> r.Slice(t) > 0 && r.sched.models[t].insertTime < r.timer.value
  }

  /** The rounds begin when the front starts to execute. */
  lemma RoundsBegin(r: RrState, now: int)
    requires r.Valid() && r.sched.queue != []
    requires forall t :: t in r.sched.queue ==> r.Slice(t) > 0 && r.sched.models[t].insertTime <= now
    ensures Ticking(r.Starts(r.sched.queue[0], now))
  {
    assert r.sched.queue[0] in r.sched.queue;
  }

  /** What a tick does: the front is expired, so the queue turns, and the next front gets its slice. */
  lemma TickIs(r: RrState)
    requires Ticking(r)
    ensures r.sched.models[r.sched.queue[0]].active && r.Expired(r.sched.queue[0], r.timer.value)
    ensures Tick(r).sched == Rotate(r.sched, r.timer.value) && Tick(r).slice == r.slice
    ensures var first := Rotate(r.sched, r.timer.value).queue;
            first != [] && (r.Slice(first[0]) > 0 ==>
              && Tick(r).timer == Some(r.timer.value + r.Slice(first[0]))
              && Tick(r).LastSched(first[0]) ==
                   if first[0] == r.sched.queue[0] then r.LastSched(first[0]) else r.timer.value)
  {
    var now, f := r.timer.value, r.sched.queue[0];
    assert f in r.sched.queue;
    FrontExists(r, now);
    hide Rotate, Sched.Valid, Known;
    assert r.Expired(f, now);
    assert RoundQueue(r, now) == Rotate(r.sched, now);
  }

  /** After the turn every insertion time is still before the next firing of the timer. */
  lemma RotateTimes(s: Sched, now: int, t: Task)
    requires s.Valid() && s.queue != [] && t in s.queue && s.models[t].insertTime < now
    requires forall x :: x in s.models ==> s.models[x].prio == PRIORITY
    ensures t in Rotate(s, now).models && Rotate(s, now).models[t].insertTime <= now
    ensures forall x :: x in Rotate(s, now).models ==> Rotate(s, now).models[x].prio == PRIORITY
  {
    RotateShape(s, now);
  }

  lemma TickRotates(r: RrState)
    requires Ticking(r)
    ensures r.sched.models[r.sched.queue[0]].active
    ensures Ticking(Tick(r)) && Tick(r).slice == r.slice
    ensures Tick(r).sched.queue == r.sched.queue[1..] + [r.sched.queue[0]]
  {
    var now, f := r.timer.value, r.sched.queue[0];
    assert f in r.sched.queue;
    TickIs(r);
    RotatesByOne(r.sched, now);
    RotateKeepsValid(r.sched, now);
    RotateTimes(r.sched, now, f);
    var q' := r.sched.queue[1..] + [f];
    assert q'[0] in r.sched.queue;
    hide Rotate, Tick, Sched.Valid;
    forall t | t in q' ensures r.Slice(t) > 0 && Rotate(r.sched, now).models[t].insertTime <= now {
      assert t in r.sched.queue;
      RotateTimes(r.sched, now, t);
    }
  }

  ghost function NextTick(r: RrState): (r': RrState)
    requires Ticking(r)
    ensures Ticking(r') && r'.sched.queue == r.sched.queue[1..] + [r.sched.queue[0]]
  {
    TickRotates(r);
    Tick(r)
  }

  ghost function Ticks(r: RrState, k: nat): RrState
    requires Ticking(r)
    ensures Ticking(Ticks(r, k))
  {
    if k == 0 then r else NextTick(Ticks(r, k - 1))
  }

  lemma TicksZero(r: RrState)
    requires Ticking(r)
    ensures Ticks(r, 0) == r && r.sched.queue != []
  {
  }

  lemma TickOnce(r: RrState, k: nat)
    requires Ticking(r)
    ensures Ticks(r, k).sched.queue != [] && Ticks(r, k + 1) == NextTick(Ticks(r, k))
    ensures Ticks(r, k + 1).sched.queue == Ticks(r, k).sched.queue[1..] + [Ticks(r, k).sched.queue[0]]
  {
  }

  lemma TurnOnce(q: seq<Task>, k: nat)
    requires k < |q|
    ensures (q[k..] + q[..k])[1..] + [(q[k..] + q[..k])[0]] == q[k + 1..] + q[..k + 1]
  {
  }

  /** After k rounds the queue has turned by k places. */
  lemma {:induction false} RoundsRotate(r: RrState, k: nat)
    requires Ticking(r) && k <= |r.sched.queue|
    ensures Ticks(r, k).sched.queue == r.sched.queue[k..] + r.sched.queue[..k]
  {
    hide Ticking, NextTick, Ticks;
    if k > 0 {
      RoundsRotate(r, k - 1);
      TickOnce(r, k - 1);
      TurnOnce(r.sched.queue, k - 1);
    } else {
      TicksZero(r);
    }
  }

  lemma {:induction false} TicksCompose(r: RrState, k: nat, n: nat)
    requires Ticking(r)
    ensures Ticks(r, k + n) == Ticks(Ticks(r, k), n)
  {
    hide Ticking, NextTick, Ticks;
    if n > 0 {
      TicksCompose(r, k, n - 1);
      TickOnce(r, k + n - 1);
      TickOnce(Ticks(r, k), n - 1);
    } else {
      TicksZero(Ticks(r, k));
    }
  }

  lemma {:induction false} SameLength(r: RrState, k: nat)
    requires Ticking(r)
    ensures |Ticks(r, k).sched.queue| == |r.sched.queue|
  {
    hide Ticking, NextTick, Ticks;
    if k > 0 {
      SameLength(r, k - 1);
      TickOnce(r, k - 1);
    } else {
      TicksZero(r);
    }
  }

  lemma TickingIsDistinct(r: RrState)
    requires Ticking(r)
    ensures Distinct(r.sched.queue)
  {
    SortedIsDistinct(r.sched.models, r.sched.queue);
  }

  /** In n rounds each of the n tasks leads exactly once, in queue order; and from any round on, n more rounds bring
      the queue back. */
  lemma EachLeadsOnce(r: RrState, k: nat)
    requires Ticking(r)
    ensures Distinct(r.sched.queue)
    ensures k < |r.sched.queue| ==> Ticks(r, k).sched.queue != [] && Ticks(r, k).sched.queue[0] == r.sched.queue[k]
    ensures |Ticks(r, k).sched.queue| == |r.sched.queue|
    ensures Ticks(r, k + |r.sched.queue|).sched.queue == Ticks(r, k).sched.queue
  {
    hide Ticking, NextTick, Ticks;
    TickingIsDistinct(r);
    if k < |r.sched.queue| {
      RoundsRotate(r, k);
    }
    SameLength(r, k);
    var s := Ticks(r, k);
    RoundsRotate(s, |s.sched.queue|);
    TicksCompose(r, k, |r.sched.queue|);
  }
}
