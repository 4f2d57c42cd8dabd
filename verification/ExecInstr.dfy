/**
 Execution of one instruction under preemption and speed changes (src/exeinstr.cpp).

 Times are whole units of the simulator's resolution; speeds are exact numbers in (0, 1]. The
 simulator's clock only moves forward, and no handler runs later than a pending end event.
 */
module ExecInstruction {
  import opened Common

  /** from_value of a floating value truncates it; ceil rounds it up. */
  function Truncate(x: real): int { x.Floor }

  function CeilR(x: real): int { -((-x).Floor) }

  lemma RoundBounds(x: real)
    ensures Truncate(x) as real <= x < Truncate(x) as real + 1.0
    ensures x <= CeilR(x) as real < x + 1.0
  {
  }

  /** The work accounted for an interval of length d at speed v. */
  function Worked(d: int, v: real): int { Truncate(d as real * v) }

  /** The delay of the end event at speed v, with `act` of `cost` done. */
  function Delay(cost: int, act: int, v: real): int
    requires v > 0.0
  {
    if cost > act then CeilR((cost - act) as real / v) else 0
  }

  datatype Instr = Instr(
    flag: bool,              // no execution of this instance has started yet
    executing: bool,
    cost: int,               // currentCost
    act: int,                // actTime: the work accounted for
    execd: int,              // execdTime
    last: int,               // lastTime
    end: Option<int>)        // the time of the pending end event
  {
    /** The delay until the end event at speed v. */
    function Remaining(v: real): int
      requires v > 0.0
    {
      Delay(cost, act, v)
    }

    /** schedule() at time t; a fresh instance draws its cost. The code assumes full speed. */
    function Schedule(t: int, drawn: int): Instr {
      var i := this.(last := t, executing := true);
      var i' := if flag then i.(execd := 0, act := 0, flag := false, cost := drawn) else i;
      i'.(end := Some(t + i'.Remaining(1.0)))
    }

    /** deschedule() at time t, again at an assumed full speed. */
    function Deschedule(t: int): Instr {
      var i := this.(end := None, executing := false);
      if executing then i.(act := act + Worked(t - last, 1.0), execd := execd + (t - last), last := t)
      else i
    }

    function OnEnd(t: int): Instr {
      this.(execd := execd + (t - last), flag := true, executing := false, last := t, act := 0, end := None)
    }

    function Refresh(t: int, oldSpeed: real, newSpeed: real): Instr
      requires newSpeed > 0.0
    {
      var i := this.(act := act + Worked(t - last, oldSpeed), execd := execd + (t - last), last := t);
      i.(end := Some(t + i.Remaining(newSpeed)))
    }

    /** reset() when a new job of the task arrives. */
    function Reset(): Instr { this.(act := 0, last := 0, flag := true, execd := 0, end := None) }
  }

  class ExecInstr {
    var flag: bool
    var executing: bool
    var currentCost: int
    var actTime: int
    var execdTime: int
    var lastTime: int
    var endEvt: Option<int>

    ghost function State(): Instr
      reads this
    {
      Instr(flag, executing, currentCost, actTime, execdTime, lastTime, endEvt)
    }

    constructor ()
      ensures State() == Instr(true, false, 0, 0, 0, 0, None)
    {
      flag, executing := true, false;
      currentCost, actTime, execdTime, lastTime, endEvt := 0, 0, 0, 0, None;
    }

    method Schedule(t: int, drawn: int)
      modifies this
      ensures State() == old(State()).Schedule(t, drawn)
    {
      hide Worked, Delay;
      lastTime := t;
      executing := true;
      if flag {
        execdTime := 0;
        actTime := 0;
        flag := false;
        currentCost := drawn;
      }
      var currentSpeed := 1.0;
      endEvt := Some(t + Delay(currentCost, actTime, currentSpeed));
    }

    method Deschedule(t: int)
      modifies this
      ensures State() == old(State()).Deschedule(t)
    {
      hide Worked, Delay;
      endEvt := None;
      if executing {
        var currentSpeed := 1.0;
        actTime := actTime + Worked(t - lastTime, currentSpeed);
        execdTime := execdTime + (t - lastTime);
        lastTime := t;
      }
      executing := false;
    }

    method OnEnd(t: int)
      modifies this
      ensures State() == old(State()).OnEnd(t)
    {
      execdTime := execdTime + (t - lastTime);
      flag := true;
      executing := false;
      lastTime := t;
      actTime := 0;
      endEvt := None;
    }

    method RefreshExec(t: int, oldSpeed: real, newSpeed: real)
      requires newSpeed > 0.0
      modifies this
      ensures State() == old(State()).Refresh(t, oldSpeed, newSpeed)
    {
      hide Worked, Delay;
      endEvt := None;
      actTime := actTime + Worked(t - lastTime, oldSpeed);
      execdTime := execdTime + (t - lastTime);
      lastTime := t;
      endEvt := Some(t + Delay(currentCost, actTime, newSpeed));
    }

    method GetExecTime(t: int) returns (r: int)
      ensures r == ExecTimeAt(State(), t)
    {
      if executing {
        r := execdTime + t - lastTime;
      } else {
        r := execdTime;
      }
    }

    method Reset()
      modifies this
      ensures State() == old(State()).Reset()
    {
      actTime, lastTime := 0, 0;
      flag := true;
      execdTime := 0;
      endEvt := None;
    }
  }

  function ExecTimeAt(i: Instr, t: int): int { if i.executing then i.execd + t - i.last else i.execd }

  // ---------- one instance: events and the work truly done ----------

  datatype Event =
    | Start(t: int, drawn: int)   // drawn is the cost for the first start of the instance
    | Stop(t: int)
    | Speed(t: int, v: real)      // the speed changes to v and refreshExec is told the old and the new one

  /** An instance in progress: the instruction, the actual speed, the time executed, the work truly done up to
      the last event, and the number of speed changes so far. */
  datatype Progress = Progress(i: Instr, speed: real, ran: int, work: real, refreshes: nat)

  /** No event comes before the previous one or after a pending end event; a stopped instruction starts, an
      executing one stops or has its speed changed. The code assumes full speed at starts and stops. */
  ghost predicate Enabled(p: Progress, e: Event) {
    match e
    case Start(t, drawn) => !p.i.executing && p.i.last <= t && p.speed == 1.0 && drawn >= 0
    case Stop(t) => p.i.executing && p.i.last <= t && p.i.end.Some? && t <= p.i.end.value && p.speed == 1.0
    case Speed(t, v) => p.i.executing && p.i.last <= t && p.i.end.Some? && t <= p.i.end.value && 0.0 < v <= 1.0
  }

  function Step(p: Progress, e: Event): Progress
    requires e.Speed? ==> e.v > 0.0
  {
    match e
    case Start(t, drawn) => p.(i := p.i.Schedule(t, drawn))
    case Stop(t) => Advance(p, t).(i := p.i.Deschedule(t))
    case Speed(t, v) => Advance(p, t).(i := p.i.Refresh(t, p.speed, v), speed := v, refreshes := p.refreshes + 1)
  }

  /** The processor has worked from the last event until t. */
  function Advance(p: Progress, t: int): Progress {
    p.(ran := p.ran + (t - p.i.last), work := p.work + (t - p.i.last) as real * p.speed)
  }

  /** An instance before its first start. */
  ghost predicate Fresh(p: Progress) {
    && p.i.flag && !p.i.executing && p.i.end.None?
    && p.speed == 1.0 && p.ran == 0 && p.work == 0.0 && p.refreshes == 0
  }

  /** The accounted work never exceeds the work truly done, lags it by less than one unit for each speed
      change, and stays within the cost; the end event is set for the time when the rest is done. */
  ghost predicate Accounted(p: Progress) {
    && !p.i.flag && 0.0 < p.speed <= 1.0
    && p.i.execd == p.ran
    && 0 <= p.i.act <= p.i.cost
    && p.i.act as real <= p.work <= (p.i.act + p.refreshes) as real
    && (p.refreshes == 0 ==> p.i.act == p.ran && p.speed == 1.0)
    && (p.i.executing <==> p.i.end.Some?)
    && (p.i.end.Some? ==> p.i.end.value == p.i.last + p.i.Remaining(p.speed))
  }

  lemma RemainingBounds(i: Instr, v: real)
    requires 0.0 < v <= 1.0 && i.act <= i.cost
    ensures i.Remaining(v) >= 0
    ensures (i.cost - i.act) as real <= i.Remaining(v) as real * v < (i.cost - i.act) as real + 1.0
    ensures v == 1.0 ==> i.Remaining(v) == i.cost - i.act
  {
    if i.cost > i.act {
      CeilAtSpeed(i.cost - i.act, v);
    }
  }

  lemma CeilAtSpeed(rest: int, v: real)
    requires 0.0 < v <= 1.0 && rest > 0
    ensures rest as real <= CeilR(rest as real / v) as real * v < rest as real + 1.0
    ensures CeilR(rest as real / v) >= 0
    ensures v == 1.0 ==> CeilR(rest as real / v) == rest
  {
    var x := rest as real / v;
    DivideBack(rest as real, v);
    RoundBounds(x);
    hide CeilR;
    var n := CeilR(x);
    ScaleBounds(x, n as real, v);
    if n < 0 {
      MulMonotone(n as real, 0.0, v);
    }
    if v == 1.0 {
      WholeCeiling(n, rest);
    }
  }

  lemma DivideBack(a: real, v: real)
    requires v > 0.0
    ensures a / v * v == a && (v == 1.0 ==> a / v == a)
  {
  }

  lemma WholeCeiling(n: int, rest: int)
    requires rest as real <= n as real < rest as real + 1.0
    ensures n == rest
  {
  }

  /** Rounding up by less than one, at a speed of at most one. */
  lemma ScaleBounds(x: real, n: real, v: real)
    requires x <= n < x + 1.0 && 0.0 < v <= 1.0
    ensures x * v <= n * v < x * v + 1.0
  {
    var d := n - x;
    assert n * v == x * v + d * v;
    MulBelow(d, v);
  }

  lemma MulMonotone(x: real, y: real, v: real)
    requires x <= y && v >= 0.0
    ensures x * v <= y * v
  {
  }

  lemma MulBelow(d: real, v: real)
    requires 0.0 <= d < 1.0 && 0.0 < v <= 1.0
    ensures 0.0 <= d * v < 1.0
  {
    MulMonotone(0.0, d, v);
    MulMonotone(v, 1.0, d);
    assert d * v == v * d;
  }

  lemma TruncateBetween(x: real, n: int)
    requires 0.0 <= x < n as real + 1.0
    ensures 0 <= Truncate(x) <= n
  {
    RoundBounds(x);
  }

  /** What an interval that ends no later than the end event adds. */
  lemma IntervalWork(i: Instr, v: real, t: int)
    requires 0.0 < v <= 1.0 && i.act <= i.cost && i.last <= t <= i.last + i.Remaining(v)
    ensures var done := (t - i.last) as real * v;
            && 0 <= Truncate(done) <= i.cost - i.act
            && Truncate(done) as real <= done < Truncate(done) as real + 1.0
            && (v == 1.0 ==> Truncate(done) == t - i.last && done == (t - i.last) as real)
  {
    RemainingBounds(i, v);
    WorkWithin(t - i.last, i.Remaining(v), i.cost - i.act, v);
  }

  lemma WorkWithin(d: int, n: int, rest: int, v: real)
    requires 0.0 < v <= 1.0 && 0 <= d <= n && n as real * v < rest as real + 1.0
    ensures var done := d as real * v;
            && 0 <= Truncate(done) <= rest
            && Truncate(done) as real <= done < Truncate(done) as real + 1.0
            && (v == 1.0 ==> Truncate(done) == d && done == d as real)
  {
    var done := d as real * v;
    MulMonotone(d as real, n as real, v);
    MulMonotone(0.0, d as real, v);
    assert 0.0 * v == 0.0;
    RoundBounds(done);
    TruncateBetween(done, rest);
  }

  lemma StopKeepsAccount(p: Progress, t: int)
    requires Accounted(p) && Enabled(p, Stop(t))
    ensures Accounted(Step(p, Stop(t)))
  {
    IntervalWork(p.i, p.speed, t);
    hide Instr.Remaining, Worked, Truncate;
    var d := t - p.i.last;
    assert d as real * 1.0 == d as real;
    assert p.i.Deschedule(t).act == p.i.act + d;
  }

  lemma SpeedKeepsAccount(p: Progress, t: int, v: real)
    requires Accounted(p) && Enabled(p, Speed(t, v))
    ensures Accounted(Step(p, Speed(t, v)))
  {
    IntervalWork(p.i, p.speed, t);
    hide Instr.Remaining, Worked, Truncate;
    var done := (t - p.i.last) as real * p.speed;
    var act' := p.i.act + Truncate(done);
    assert p.i.Refresh(t, p.speed, v).act == act';
    OneMoreChange(p.i.act, Truncate(done), p.work, done, p.refreshes);
    assert Advance(p, t).work == p.work + done;
  }

  lemma OneMoreChange(act: int, n: int, work: real, done: real, k: nat)
    requires n as real <= done < n as real + 1.0 && act as real <= work <= (act + k) as real
    ensures (act + n) as real <= work + done <= (act + n + (k + 1)) as real
  {
  }

  lemma StepKeepsAccount(p: Progress, e: Event)
    requires (Fresh(p) || Accounted(p)) && Enabled(p, e)
    ensures Accounted(Step(p, e))
  {
    match e
    case Start(_, _) =>
    case Stop(t) => StopKeepsAccount(p, t);
    case Speed(t, v) => SpeedKeepsAccount(p, t, v);
  }

  // ---------- whole instances ----------

  ghost predicate ValidRun(p: Progress, es: seq<Event>)
    decreases |es|
  {
    es == [] || (Enabled(p, es[0]) && ValidRun(Step(p, es[0]), es[1..]))
  }

  ghost function Run(p: Progress, es: seq<Event>): Progress
    requires ValidRun(p, es)
    decreases |es|
  {
    if es == [] then p else Run(Step(p, es[0]), es[1..])
  }

  ghost function SpeedChanges(es: seq<Event>): nat {
    if es == [] then 0 else (if es[0].Speed? then 1 else 0) + SpeedChanges(es[1..])
  }

  lemma {:induction false} RunKeepsAccount(p: Progress, es: seq<Event>)
    requires (Fresh(p) && es != []) || Accounted(p)
    requires ValidRun(p, es)
    ensures Accounted(Run(p, es)) && Run(p, es).refreshes == p.refreshes + SpeedChanges(es)
    decreases |es|
  {
    if es != [] {
      StepKeepsAccount(p, es[0]);
      RunKeepsAccount(Step(p, es[0]), es[1..]);
    }
  }

  /** After any starts, stops and k speed changes the work truly done exceeds the accounted work by at most k;
      and when the pending end event fires, the work done is at least the cost and less than the cost plus k + 1:
      speed changes never finish work early. */
  lemma NeverFinishesEarly(p: Progress, es: seq<Event>)
    requires Fresh(p) && es != [] && ValidRun(p, es)
    ensures var q, k := Run(p, es), SpeedChanges(es);
            && 0.0 <= q.work - q.i.act as real <= k as real
            && (q.i.end.Some? ==> q.i.cost as real <= Advance(q, q.i.end.value).work < (q.i.cost + k + 1) as real)
  {
    RunKeepsAccount(p, es);
    hide Run, ValidRun, SpeedChanges, Fresh;
    var q := Run(p, es);
    RemainingBounds(q.i, q.speed);
  }

  /** Without speed changes, preemption conserves work: the end event is due at the last start plus the cost minus
      what ran before, fires exactly when the executed intervals add up to the cost, and leaves that sum as the
      execution time of the instance. */
  lemma PreemptionConservesWork(p: Progress, es: seq<Event>)
    requires Fresh(p) && es != [] && ValidRun(p, es) && SpeedChanges(es) == 0
    ensures var q := Run(p, es);
            && q.i.act == q.i.execd == q.ran
            && (q.i.end.Some? <==> q.i.executing)
            && (q.i.end.Some? ==>
                  && q.i.end.value == q.i.last + q.i.cost - q.ran
                  && Advance(q, q.i.end.value).ran == q.i.cost
                  && q.i.OnEnd(q.i.end.value).execd == q.i.cost)
  {
    RunKeepsAccount(p, es);
    var q := Run(p, es);
    RemainingBounds(q.i, q.speed);
  }

  /** The end of the instance leaves the instruction fresh for the next one. */
  lemma EndIsFresh(i: Instr, t: int)
    ensures Fresh(Progress(i.OnEnd(t), 1.0, 0, 0.0, 0))
  {
  }

  // ---------- stopping at a reduced speed ----------

  /** deschedule() counts the last interval at full speed, so what it accounts for is what was done exactly when
      the speed was full or the interval empty. */
  lemma StopAccountsIffFullSpeed(i: Instr, t: int, v: real)
    requires i.executing && i.last <= t && 0.0 < v <= 1.0
    ensures (i.Deschedule(t).act - i.act) as real == (t - i.last) as real * v <==> v == 1.0 || t == i.last
  {
    var d := (t - i.last) as real;
    assert d * 1.0 == d;
    if t != i.last && v < 1.0 {
      assert d * v < d by {
        assert d * (1.0 - v) > 0.0;
        assert d * (1.0 - v) == d - d * v;
      }
    }
  }

  /** schedule() likewise sets the end event as if the speed were full, so from a start at speed v the work left is
      done when the event fires exactly when v is full or nothing was left. */
  lemma StartIsTimelyIffFullSpeed(i: Instr, t: int, drawn: int, v: real)
    requires 0.0 < v <= 1.0 && i.Schedule(t, drawn).act <= i.Schedule(t, drawn).cost
    ensures var i' := i.Schedule(t, drawn);
            && i'.end.Some?
            && ((i'.end.value - t) as real * v >= (i'.cost - i'.act) as real <==> v == 1.0 || i'.cost == i'.act)
  {
    var i' := i.Schedule(t, drawn);
    var rest := i'.cost - i'.act;
    RemainingBounds(i', 1.0);
    hide Delay;
    assert i'.end.value - t == rest;
    LessAtLowSpeed(rest, v);
  }

  lemma LessAtLowSpeed(d: int, v: real)
    requires 0.0 < v <= 1.0 && d >= 0
    ensures d as real * v >= d as real <==> v == 1.0 || d == 0
  {
    var x := d as real;
    assert x * (1.0 - v) == x - x * v;
    if d > 0 && v < 1.0 {
      assert x * (1.0 - v) > 0.0;
    }
  }

  /** A cost of 10, slowed to half speed from the start, preempted after 10 units and started again at full speed:
      the end event is due at once, with half of the work done. */
  lemma StoppedAtHalfSpeedFinishesEarly()
    ensures var i0 := Instr(true, false, 0, 0, 0, 0, None);
            var i1 := i0.Schedule(0, 10).Refresh(0, 1.0, 0.5).Deschedule(10).Schedule(20, 0);
            i1.cost == 10 && i1.end == Some(20) && 10 as real * 0.5 < i1.cost as real
  {
    var i0 := Instr(true, false, 0, 0, 0, 0, None);
    var i2 := i0.Schedule(0, 10).Refresh(0, 1.0, 0.5);
    assert i2.act == 0 && i2.last == 0;
    assert i2.Deschedule(10).act == 10;
  }
}
