/**
 Pfair windows (src/pfair_scheduler.cpp) for a task of weight C/T, where C is its worst-case time and
 T its period, both in quanta. The weight is an exact fraction here, a float in the code.
 */
module Pfair {
  import opened Common

  /** floor(a / b) and ceil(a / b). */
  function Floor(a: nat, b: nat): nat
    requires b > 0
  {
    a / b
  }

  function Ceil(a: nat, b: nat): nat
    requires b > 0
  {
    if a % b == 0 then a / b else a / b + 1
  }

  lemma FloorIsGreatest(a: nat, b: nat, n: nat)
    requires b > 0
    ensures n <= Floor(a, b) <==> n * b <= a
  {
    assert a == a / b * b + a % b;
    if n <= a / b {
      MulOrder(n, a / b, b);
    } else {
      MulOrder(a / b + 1, n, b);
      assert (a / b + 1) * b == a / b * b + b;
    }
  }

  lemma CeilIsLeast(a: nat, b: nat, n: nat)
    requires b > 0
    ensures Ceil(a, b) <= n <==> a <= n * b
  {
    assert a == a / b * b + a % b;
    if a % b == 0 {
      if a / b <= n {
        MulOrder(a / b, n, b);
      } else {
        MulOrder(n + 1, a / b, b);
        assert (n + 1) * b == n * b + b;
      }
    } else if a / b + 1 <= n {
      MulOrder(a / b + 1, n, b);
      assert (a / b + 1) * b == a / b * b + b;
    } else {
      MulOrder(n, a / b, b);
    }
  }

  lemma MulOrder(x: nat, y: nat, z: nat)
    requires x <= y
    ensures x * z <= y * z
  {
  }

  /** The weight of a task: 0 < C/T <= 1. */
  predicate Weight(c: nat, t: nat) { 0 < c <= t }

  /** Release and deadline of subtask j, in quanta: floor(j / w) and ceil((j + 1) / w). */
  function ReleaseOf(c: nat, t: nat, j: nat): nat
    requires c > 0
  {
    Floor(j * t, c)
  }

  function DeadlineOf(c: nat, t: nat, j: nat): nat
    requires c > 0
  {
    Ceil((j + 1) * t, c)
  }

  // ---------- the windows form a proper sequence ----------

  /** Every window has at least one slot, windows move forward, and each starts at the previous deadline or
      one slot before it. */
  lemma WindowsInSequence(c: nat, t: nat, j: nat)
    requires Weight(c, t)
    ensures ReleaseOf(c, t, j) < DeadlineOf(c, t, j)
    ensures ReleaseOf(c, t, j) <= ReleaseOf(c, t, j + 1) && DeadlineOf(c, t, j) <= DeadlineOf(c, t, j + 1)
    ensures DeadlineOf(c, t, j) - 1 <= ReleaseOf(c, t, j + 1) <= DeadlineOf(c, t, j)
  {
    var r, d := ReleaseOf(c, t, j), DeadlineOf(c, t, j);
    assert (j + 1) * t == j * t + t && (j + 2) * t == (j + 1) * t + t;
    FloorIsGreatest(j * t, c, r);
    CeilIsLeast((j + 1) * t, c, r);
    FloorIsGreatest((j + 1) * t, c, r);
    CeilIsLeast((j + 2) * t, c, DeadlineOf(c, t, j + 1));
    CeilIsLeast((j + 1) * t, c, DeadlineOf(c, t, j + 1));
    assert r < d by {
      assert r * c <= j * t;
      assert j * t < (j + 1) * t;
    }
  }

  /** One period later, C subtasks further: both ends move by T. */
  lemma WindowsRepeatEachPeriod(c: nat, t: nat, j: nat)
    requires Weight(c, t)
    ensures ReleaseOf(c, t, j + c) == ReleaseOf(c, t, j) + t
    ensures DeadlineOf(c, t, j + c) == DeadlineOf(c, t, j) + t
  {
    assert (j + c) * t == j * t + t * c;
    assert (j + c + 1) * t == (j + 1) * t + t * c;
    AddMultiple(j * t, t, c);
    AddMultiple((j + 1) * t, t, c);
  }

  lemma AddMultiple(a: nat, n: nat, b: nat)
    requires b > 0
    ensures (a + n * b) / b == a / b + n && (a + n * b) % b == a % b
  {
    var q, r := a / b, a % b;
    assert a + n * b == (q + n) * b + r by {
      assert (q + n) * b == q * b + n * b;
    }
    DivModUnique(a + n * b, b, q + n, r);
  }

  lemma DivModUnique(a: nat, b: nat, q: nat, r: nat)
    requires 0 <= r < b && a == q * b + r
    ensures a / b == q && a % b == r
  {
    var q', r' := a / b, a % b;
    assert a == q' * b + r';
    assert (q + 1) * b == q * b + b && (q' + 1) * b == q' * b + b;
    if q < q' {
      MulOrder(q + 1, q', b);
    } else if q' < q {
      MulOrder(q' + 1, q, b);
    }
  }

  // ---------- the lag bound ----------

  /** A schedule gives each time slot to at most one subtask of the task. */
  type Schedule = nat -> Option<nat>

  /** Every subtask runs in exactly one slot, and that slot lies in its window. */
  ghost predicate MeetsWindows(run: Schedule, c: nat, t: nat)
    requires c > 0
  {
    && (forall u: nat :: run(u).Some? ==> ReleaseOf(c, t, run(u).value) <= u < DeadlineOf(c, t, run(u).value))
    && (forall u: nat, v: nat :: run(u).Some? && run(u) == run(v) ==> u == v)
    && (forall j: nat :: exists u: nat :: run(u) == Some(j))
  }

  /** Each subtask runs in the first slot of its window. Only the least j with j / w at least u can start at u. */
  function Earliest(c: nat, t: nat, u: nat): Option<nat>
    requires Weight(c, t)
  {
    var j := Ceil(u * c, t);
    if ReleaseOf(c, t, j) == u then Some(j) else None
  }

  lemma RunsAtRelease(c: nat, t: nat, j: nat)
    requires Weight(c, t)
    ensures Ceil(ReleaseOf(c, t, j) * c, t) == j
  {
    var u := ReleaseOf(c, t, j);
    FloorIsGreatest(j * t, c, u);
    FloorIsGreatest(j * t, c, u + 1);
    CeilIsLeast(u * c, t, j);
    assert (u + 1) * c == u * c + c;
    if j > 0 {
      CeilIsLeast(u * c, t, j - 1);
      assert (j - 1) * t == j * t - t;
    }
  }

  lemma EarliestSlot(c: nat, t: nat, u: nat)
    requires Weight(c, t)
    ensures Earliest(c, t, u).Some? ==>
              ReleaseOf(c, t, Earliest(c, t, u).value) == u < DeadlineOf(c, t, Earliest(c, t, u).value)
  {
    if Earliest(c, t, u).Some? {
      WindowsInSequence(c, t, Earliest(c, t, u).value);
    }
  }

  lemma EarliestRuns(c: nat, t: nat, j: nat)
    requires Weight(c, t)
    ensures Earliest(c, t, ReleaseOf(c, t, j)) == Some(j)
  {
    RunsAtRelease(c, t, j);
  }

  function EarliestSchedule(c: nat, t: nat): Schedule
    requires Weight(c, t)
  {
    (u: nat) => Earliest(c, t, u)
  }

  /** For every weight there is a schedule that meets all windows. */
  lemma EarliestMeetsWindows(c: nat, t: nat)
    requires Weight(c, t)
    ensures MeetsWindows(EarliestSchedule(c, t), c, t)
  {
    hide Earliest, Floor, Ceil, ReleaseOf, DeadlineOf;
    var run := EarliestSchedule(c, t);
    forall u: nat | run(u).Some?
      ensures ReleaseOf(c, t, run(u).value) == u < DeadlineOf(c, t, run(u).value)
    {
      EarliestSlot(c, t, u);
    }
    forall u: nat, v: nat | run(u).Some? && run(u) == run(v) ensures u == v {
      assert ReleaseOf(c, t, run(u).value) == u && ReleaseOf(c, t, run(v).value) == v;
    }
    forall j: nat ensures exists u: nat :: run(u) == Some(j) {
      EarliestRuns(c, t, j);
      assert run(ReleaseOf(c, t, j)) == Some(j);
    }
    assert forall u: nat :: run(u).Some? ==> ReleaseOf(c, t, run(u).value) <= u < DeadlineOf(c, t, run(u).value);
    assert MeetsWindows(run, c, t);
  }

  /** The slots received before time n. */
  ghost function Received(run: Schedule, n: nat): set<nat> {
    set u: nat | u < n && run(u).Some?
  }

  ghost function Subtasks(run: Schedule, n: nat): set<nat> {
    set u: nat | u < n && run(u).Some? :: run(u).value
  }

  lemma OneSubtaskPerSlot(run: Schedule, n: nat)
    requires forall u: nat, v: nat :: run(u).Some? && run(u) == run(v) ==> u == v
    ensures |Subtasks(run, n)| == |Received(run, n)|
  {
    var m := map u | u in Received(run, n) :: run(u).value;
    assert m.Keys == Received(run, n);
    ImageSize(m, m.Keys);
    forall j | j in Subtasks(run, n) ensures j in Image(m, m.Keys) {
      var u: nat :| u < n && run(u).Some? && run(u).value == j;
      assert u in m && m[u] == j;
    }
    assert Image(m, m.Keys) <= Subtasks(run, n);
    assert Image(m, m.Keys) == Subtasks(run, n);
  }

  lemma WindowsAround(c: nat, t: nat, n: nat, j: nat)
    requires Weight(c, t)
    ensures j < Floor(n * c, t) <==> DeadlineOf(c, t, j) <= n
    ensures j < Ceil(n * c, t) <==> ReleaseOf(c, t, j) < n
  {
    FloorIsGreatest(n * c, t, j + 1);
    CeilIsLeast((j + 1) * t, c, n);
    CeilIsLeast(n * c, t, j);
    FloorIsGreatest(j * t, c, n);
  }

  lemma RanBefore(run: Schedule, c: nat, t: nat, n: nat, j: nat)
    requires Weight(c, t) && MeetsWindows(run, c, t) && j < Floor(n * c, t)
    ensures j in Subtasks(run, n)
  {
    WindowsAround(c, t, n, j);
    var u: nat :| run(u) == Some(j);
    assert u in Received(run, n);
  }

  lemma ReleasedBefore(run: Schedule, c: nat, t: nat, n: nat, j: nat)
    requires Weight(c, t) && MeetsWindows(run, c, t) && j in Subtasks(run, n)
    ensures j < Ceil(n * c, t)
  {
    var u :| u in Received(run, n) && run(u).value == j;
    WindowsAround(c, t, n, j);
  }

  /** Before time n the first floor(w n) subtasks have run, and none from ceil(w n) on. */
  lemma SubtasksBefore(run: Schedule, c: nat, t: nat, n: nat)
    requires Weight(c, t) && MeetsWindows(run, c, t)
    ensures Below(Floor(n * c, t)) <= Subtasks(run, n) <= Below(Ceil(n * c, t))
  {
    forall j: nat | j in Below(Floor(n * c, t)) ensures j in Subtasks(run, n) {
      RanBefore(run, c, t, n, j);
    }
    forall j | j in Subtasks(run, n) ensures j in Below(Ceil(n * c, t)) {
      ReleasedBefore(run, c, t, n, j);
    }
  }

  lemma NearestWhole(a: nat, t: nat, got: nat)
    requires t > 0 && Floor(a, t) <= got <= Ceil(a, t)
    ensures a - t < got * t < a + t && (a % t == 0 ==> got * t == a)
  {
    var q := a / t;
    assert a == q * t + a % t;
    assert (q + 1) * t == q * t + t;
    assert got == q || (got == q + 1 && a % t != 0);
  }

  /** The lag bound: at every time n the slots received lie between floor(w n) and ceil(w n), so they
      differ from w n by less than one slot and equal it whenever w n is a whole number. */
  lemma LagBound(run: Schedule, c: nat, t: nat, n: nat)
    requires Weight(c, t) && MeetsWindows(run, c, t)
    ensures var got := |Received(run, n)|;
            && Floor(n * c, t) <= got <= Ceil(n * c, t)
            && n * c - t < got * t < n * c + t
            && ((n * c) % t == 0 ==> got * t == n * c)
  {
    ReceivedBetween(run, c, t, n);
    NearestWhole(n * c, t, |Received(run, n)|);
  }

  lemma DistinctSubtasks(run: Schedule, c: nat, t: nat, n: nat)
    requires c > 0 && MeetsWindows(run, c, t)
    ensures |Subtasks(run, n)| == |Received(run, n)|
  {
    OneSubtaskPerSlot(run, n);
  }

  lemma ReceivedBetween(run: Schedule, c: nat, t: nat, n: nat)
    requires Weight(c, t) && MeetsWindows(run, c, t)
    ensures Floor(n * c, t) <= |Received(run, n)| <= Ceil(n * c, t)
  {
    hide MeetsWindows, Floor, Ceil, Received, Subtasks, Below;
    DistinctSubtasks(run, c, t, n);
    SubtasksBefore(run, c, t, n);
    SizeBetween(Floor(n * c, t), Subtasks(run, n), Ceil(n * c, t));
  }

  lemma SizeBetween(lo: nat, s: set<nat>, hi: nat)
    requires Below(lo) <= s <= Below(hi)
    ensures lo <= |s| <= hi
  {
    SubsetSize(Below(lo), s);
    SubsetSize(s, Below(hi));
  }

  /** At every period boundary the task has received exactly C slots per period. */
  lemma PeriodsAreMet(run: Schedule, c: nat, t: nat, k: nat)
    requires Weight(c, t) && MeetsWindows(run, c, t)
    ensures |Received(run, k * t)| == k * c
  {
    hide MeetsWindows, Floor, Ceil;
    LagBound(run, c, t, k * t);
    var got := |Received(run, k * t)|;
    CancelFactor(k, t, c, got);
  }

  lemma CancelFactor(k: nat, t: nat, c: nat, got: nat)
    requires t > 0 && ((k * t * c) % t == 0 ==> got * t == k * t * c)
    ensures got == k * c
  {
    assert k * t * c == k * c * t;
    DivModUnique(k * t * c, t, k * c, 0);
    DivModUnique(got * t, t, got, 0);
  }

  // ---------- the model object ----------

  class PfairModel {
    const c: nat           // job_length, in quanta
    const t: nat           // period, in quanta
    const quantum: nat
    var jobIndex: nat
    var nextActivation: nat
    var nextDeadline: nat
    var periodEnd: bool

    /** The fields describe the window of subtask j. */
    ghost predicate Describes(j: nat)
      reads this
    {
      && c > 0
      && nextActivation == ReleaseOf(c, t, j) * quantum
      && nextDeadline == DeadlineOf(c, t, j) * quantum
      && jobIndex == j + 1
      && (periodEnd <==> (j + 1) % c == 0)
    }

    constructor (c: nat, t: nat, quantum: nat)
      requires Weight(c, t)
      ensures Describes(0) && this.c == c && this.t == t && this.quantum == quantum
    {
      this.c := c;
      this.t := t;
      this.quantum := quantum;
      jobIndex := 0;
      nextActivation, nextDeadline, periodEnd := 0, 0, false;
      new;
      ComputeNextJobTime();
    }

    method ComputeNextJobTime()
      requires c > 0
      modifies this
      ensures Describes(old(jobIndex))
    {
      nextActivation := Floor(jobIndex * t, c) * quantum;
      nextDeadline := Ceil((jobIndex + 1) * t, c) * quantum;
      jobIndex := jobIndex + 1;
      if jobIndex % c == 0 {
        periodEnd := true;
      } else {
        periodEnd := false;
      }
    }
  }

  /** The period flag marks the subtask whose window ends on a period boundary, one in every C. */
  lemma PeriodEndIsPeriodBoundary(c: nat, t: nat, j: nat)
    requires Weight(c, t) && (j + 1) % c == 0
    ensures DeadlineOf(c, t, j) == (j + 1) / c * t
    ensures ReleaseOf(c, t, j + 1) == DeadlineOf(c, t, j)
  {
    var k := (j + 1) / c;
    assert j + 1 == k * c;
    assert (j + 1) * t == k * t * c;
    DivModUnique((j + 1) * t, c, k * t, 0);
  }
}
