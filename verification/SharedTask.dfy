/**
 Runs in which the two-phase protocol of the multiprocessor kernel goes wrong on two CPUs (src/mrtkernel.cpp).

 Task 3 begins its switch to CPU 0. Tasks 2 and 1 arrive, so CPU 0 is posted again and the dispatch of
 task 3 is withdrawn. Both are killed before they start, and CPU 1, whose begin event fires first, takes
 task 3. Then task 4 arrives: CPU 0 is free, its switch is still marked as unfinished, and posting it
 withdraws the dispatch of task 3 although CPU 1 is about to run it. CPU 0 takes task 3 as well.

 And when task 3 is killed in the middle of its switch, it executes after it left the ready queue.
 */
module SharedTask {
  import opened Common
  import opened ReadyQueue
  import opened GlobalDispatch
  import opened Selection
  import opened GlobalSteps
  import opened GlobalRuns
  import opened SoundRuns
  import opened Scenario

  const S0 := At(2, [], map[], map[], {}, {}, 0)
  const S1 := At(2, [3], map[], map[], {0}, {}, 1)
  const S2 := At(2, [3], map[3 := 0], map[0 := 3], {}, {0}, 1)
  const S3 := At(2, [2, 3], map[3 := 0], map[0 := 3], {1}, {0}, 2)
  const S4 := At(2, [1, 2, 3], map[], map[0 := 3], {0, 1}, {}, 4)
  const S5 := At(2, [1, 3], map[], map[0 := 3], {0, 1}, {}, 4)
  const S6 := At(2, [3], map[], map[0 := 3], {0, 1}, {}, 4)
  const S7 := At(2, [3], map[3 := 1], map[0 := 3, 1 := 3], {0}, {1}, 4)
  const S8 := At(2, [3, 4], map[], map[0 := 3, 1 := 3], {0}, {1}, 5)
  const S9 := At(2, [3, 4], map[3 := 0], map[0 := 3, 1 := 3], {}, {0, 1}, 5)

  const FRONT: seq<Event> := [
    Arrival(3, 0), BeginFires(0), Arrival(2, 0), Arrival(1, 0), Killed(2), Killed(1), BeginFires(1)]

  const BACK: seq<Event> := [Arrival(4, 0), BeginFires(0), EndFires(1), EndFires(0)]

  lemma TwoCpus(s: Kernel)
    requires s.ncpu == 2
    ensures FreeCpus(s) == {0, 1} - s.disp.Values
  {
    assert Below(2) == {0, 1};
  }

  lemma FirstOfTwo()
    ensures Under({0, 1}, 1) == {0}
  {
  }

  lemma LastOfTwo()
    ensures Under({1}, 2) == {1}
  {
  }

  lemma StartIs()
    ensures Start(2) == S0
  {
    assert (set t | t in S0.sched.queue) == {};
  }

  lemma Queues()
    ensures Joins([], 3, [3]) && Joins([3], 2, [2, 3]) && Joins([2, 3], 1, [1, 2, 3])
    ensures Joins([1, 3], 2, [1, 2, 3]) && Joins([3], 1, [1, 3]) && Joins([3], 4, [3, 4])
  {
    hide Joins, Ascending;
    JoinsOne(3);
    JoinsBoth(3, 2);
    JoinsBoth(3, 1);
    JoinsLast(3, 4);
    JoinsThree();
  }

  lemma JoinsThree()
    ensures Joins([2, 3], 1, [1, 2, 3]) && Joins([1, 3], 2, [1, 2, 3])
  {
    JoinsAt([2, 3], 0, 1);
    JoinsAt([1, 3], 1, 2);
    hide Joins, Ascending;
    assert [2, 3][..0] + [1] + [2, 3][0..] == [1, 2, 3];
    assert [1, 3][..1] + [2] + [1, 3][1..] == [1, 2, 3];
  }

  // ---------- the steps ----------

  const T1 := At(2, [3], map[], map[], {}, {}, 0)

  lemma Look1()
    ensures Undispatched(T1) == {3} && FreeCpus(T1) == {0, 1} && Post(T1, {0}) == S1
  {
    TwoCpus(T1);
    assert [3][..1] == [3];
    assert Withdrawn(T1, {0}) == {};
  }

  lemma Step1()
    ensures Enabled(S0, Arrival(3, 0)) && Ends(S0, Arrival(3, 0)) && Sound(S0, Arrival(3, 0))
    ensures Step(S0, Arrival(3, 0)) == S1
  {
    Look1();
    Queues();
    WithAt(2, [], map[], map[], {}, {}, 0, [3]);
    hide At, With, Numbered, Joins, Under, FreeCpus, Undispatched, Post, Ends, Sound, Step, Enabled;
    FirstOfTwo();
    assert |{3}| == |{0}|;
    ArrivesGuarded(S0, 3, [3], {0, 1}, 1, {0}, S1);
  }

  lemma Step2()
    ensures Enabled(S1, BeginFires(0)) && Ends(S1, BeginFires(0)) && Sound(S1, BeginFires(0))
    ensures Step(S1, BeginFires(0)) == S2
  {
    assert FirstUndispatched([3], map[]) == 0;
  }

  const T3 := At(2, [2, 3], map[3 := 0], map[0 := 3], {}, {0}, 1)

  lemma Look3()
    ensures Undispatched(T3) == {2} && FreeCpus(T3) == {1}
  {
    TwoCpus(T3);
    assert [2, 3][..2] == [2, 3];
    assert T3.disp[3] == 0;
    assert T3.disp.Values == {0};
  }

  lemma Post3()
    ensures Post(T3, {1}) == S3
  {
    assert Withdrawn(T3, {1}) == {};
  }

  lemma Step3()
    ensures Enabled(S2, Arrival(2, 0)) && Ends(S2, Arrival(2, 0)) && Sound(S2, Arrival(2, 0))
    ensures Step(S2, Arrival(2, 0)) == S3
  {
    Look3();
    Post3();
    Queues();
    WithAt(2, [3], map[3 := 0], map[0 := 3], {}, {0}, 1, [2, 3]);
    hide At, With, Numbered, Joins, Under, FreeCpus, Undispatched, Post, Ends, Sound, Step, Enabled;
    LastOfTwo();
    assert |{2}| == |{1}|;
    ArrivesGuarded(S2, 2, [2, 3], {1}, 2, {1}, S3);
  }

  const T4 := At(2, [1, 2, 3], map[3 := 0], map[0 := 3], {1}, {0}, 2)

  lemma Look4()
    ensures Undispatched(T4) == {1, 2} && FreeCpus(T4) == {1} && Post(T4, {1}).disp == map[3 := 0]
  {
    TwoCpus(T4);
    assert T4.disp[3] == 0;
    assert T4.disp.Values == {0};
    assert [1, 2, 3][..2] == [1, 2];
    assert Withdrawn(T4, {1}) == {};
  }

  lemma Post4()
    ensures Post(T4, {1} + {0}) == S4
  {
    assert {1} + {0} == {0, 1};
    assert Withdrawn(T4, {0, 1}) == {3};
    assert T4.disp - {3} == map[];
  }

  lemma Scan4()
    ensures ScanPosts(T4) == {1} + {0} && ScanEnds(T4) && Undisturbed(T4)
  {
    Look4();
    assert 1 in Below(2) && Guard(T4, 1) && T4.ncpu == 2 && T4.sched.queue == [1, 2, 3];
    hide At, FreeCpus, Undispatched, Post, ScanPosts, ScanEnds, Undisturbed, Below, Guard;
    FoundGuarded(T4, {1});
    hide Found;
    assert |{1, 2}| == 2 && |{1}| == 1;
    VictimScan(T4, 2, {1}, 0);
  }

  lemma Step4()
    ensures Enabled(S3, Arrival(1, 0)) && Ends(S3, Arrival(1, 0)) && Sound(S3, Arrival(1, 0))
    ensures Step(S3, Arrival(1, 0)) == S4
  {
    Post4();
    Scan4();
    Queues();
    WithAt(2, [2, 3], map[3 := 0], map[0 := 3], {1}, {0}, 2, [1, 2, 3]);
    hide At, With, Numbered, Joins, Post, ScanPosts, ScanEnds, Undisturbed, Ends, Sound, Step, Enabled;
    Arrives(S3, 1, [1, 2, 3], {1} + {0}, S4);
  }

  lemma Step5()
    ensures Enabled(S4, Killed(2)) && Ends(S4, Killed(2)) && Sound(S4, Killed(2)) && Step(S4, Killed(2)) == S5
  {
    Queues();
    WithAt(2, [1, 2, 3], map[], map[0 := 3], {0, 1}, {}, 4, [1, 3]);
    hide At, With, Numbered, Joins, Ends, Sound, Step, Enabled;
    Dies(S4, 2, [1, 3]);
  }

  lemma Step6()
    ensures Enabled(S5, Killed(1)) && Ends(S5, Killed(1)) && Sound(S5, Killed(1)) && Step(S5, Killed(1)) == S6
  {
    Queues();
    WithAt(2, [1, 3], map[], map[0 := 3], {0, 1}, {}, 4, [3]);
    hide At, With, Numbered, Joins, Ends, Sound, Step, Enabled;
    Dies(S5, 1, [3]);
  }

  lemma Step7()
    ensures Enabled(S6, BeginFires(1)) && Ends(S6, BeginFires(1)) && Sound(S6, BeginFires(1))
    ensures Step(S6, BeginFires(1)) == S7
  {
    assert FirstUndispatched([3], map[]) == 0;
  }

  const T8 := At(2, [3, 4], map[3 := 1], map[0 := 3, 1 := 3], {0}, {1}, 4)

  lemma Look8()
    ensures Undispatched(T8) == {4} && FreeCpus(T8) == {0} && Post(T8, {0}) == S8
  {
    TwoCpus(T8);
    assert T8.disp[3] == 1;
    assert T8.disp.Values == {1};
    assert [3, 4][..2] == [3, 4];
    assert Withdrawn(T8, {0}) == {3};
    assert T8.disp - {3} == map[];
  }

  lemma Scan8()
    ensures FreePosts(T8) == {0} && ScanPosts(T8) == {0} && ScanEnds(T8)
  {
    Look8();
    hide FreeCpus, Undispatched;
    assert Freed(T8) <= {1};
    hide Freed;
    assert Under(Found(T8), 1) == {0} && |{4}| == |{0}|;
    hide Found, Under, FirstOf;
    FirstOfIs(Found(T8), 2, 0, 1, 1);
    FreeScan(T8, 1, 1, {0});
  }

  lemma Disturbed8()
    ensures !Undisturbed(T8)
  {
    Scan8();
    hide FreePosts;
    assert !Harmless(T8, {0}, 0);
  }

  lemma Step8()
    ensures Enabled(S7, Arrival(4, 0)) && Ends(S7, Arrival(4, 0)) && !Sound(S7, Arrival(4, 0))
    ensures Step(S7, Arrival(4, 0)) == S8
  {
    Look8();
    Scan8();
    Disturbed8();
    Queues();
    WithAt(2, [3], map[3 := 1], map[0 := 3, 1 := 3], {0}, {1}, 4, [3, 4]);
    hide At, With, Numbered, Joins, Post, ScanPosts, ScanEnds, Undisturbed, Ends, Sound, Step, Enabled;
    Arrives(S7, 4, [3, 4], {0}, S8);
  }

  lemma Step9()
    ensures Enabled(S8, BeginFires(0)) && Ends(S8, BeginFires(0)) && Step(S8, BeginFires(0)) == S9
  {
    assert FirstUndispatched([3, 4], map[]) == 0;
  }

  lemma Steps1011()
    ensures Enabled(S9, EndFires(1))
    ensures var s := Step(S9, EndFires(1));
            Enabled(s, EndFires(0)) && Step(s, EndFires(0)).exe == map[0 := 3, 1 := 3]
  {
  }

  // ---------- the runs ----------

  lemma Front(rest: seq<Event>)
    requires PossibleRun(S7, rest)
    ensures PossibleRun(S0, FRONT + rest) && Follow(S0, FRONT + rest) == Follow(S7, rest)
    ensures SoundRun(S7, rest) ==> SoundRun(S0, FRONT + rest)
  {
    hide Step, Enabled, Ends, Sound, PossibleRun, SoundRun, Follow, At;
    Kills(rest);
    var r3 := [Arrival(1, 0), Killed(2), Killed(1), BeginFires(1)] + rest;
    Step3();
    RunCons(S2, Arrival(2, 0), r3);
    var r2 := [Arrival(2, 0)] + r3;
    Step2();
    RunCons(S1, BeginFires(0), r2);
    var r1 := [BeginFires(0)] + r2;
    Step1();
    RunCons(S0, Arrival(3, 0), r1);
    assert FRONT + rest == [Arrival(3, 0)] + r1;
  }

  lemma Kills(rest: seq<Event>)
    requires PossibleRun(S7, rest)
    ensures var es := [Arrival(1, 0), Killed(2), Killed(1), BeginFires(1)] + rest;
            PossibleRun(S3, es) && Follow(S3, es) == Follow(S7, rest) && (SoundRun(S7, rest) ==> SoundRun(S3, es))
  {
    hide Step, Enabled, Ends, Sound, PossibleRun, SoundRun, Follow, At;
    Step7();
    RunCons(S6, BeginFires(1), rest);
    var r6 := [BeginFires(1)] + rest;
    Step6();
    RunCons(S5, Killed(1), r6);
    var r5 := [Killed(1)] + r6;
    Step5();
    RunCons(S4, Killed(2), r5);
    var r4 := [Killed(2)] + r5;
    Step4();
    RunCons(S3, Arrival(1, 0), r4);
    assert [Arrival(1, 0), Killed(2), Killed(1), BeginFires(1)] + rest == [Arrival(1, 0)] + r4;
  }

  lemma Tail()
    ensures PossibleRun(S7, BACK) && Follow(S7, BACK).exe == map[0 := 3, 1 := 3]
  {
    hide Step, Enabled, At, PossibleRun, SoundRun, Follow;
    Steps1011();
    var s := Step(S9, EndFires(1));
    Nothing(Step(s, EndFires(0)));
    RunCons(s, EndFires(0), []);
    var r10 := [EndFires(0)] + [];
    RunCons(S9, EndFires(1), r10);
    var r9 := [EndFires(1)] + r10;
    Step9();
    RunCons(S8, BeginFires(0), r9);
    var r8 := [BeginFires(0)] + r9;
    Step8();
    RunCons(S7, Arrival(4, 0), r8);
    assert BACK == [Arrival(4, 0)] + r8;
  }

  /** The run is possible and sound up to its eighth event, which is not, and it leaves task 3 executing on both
      CPUs. */
  lemma TaskOnTwoCpus()
    ensures PossibleRun(Start(2), FRONT + BACK) && Follow(Start(2), FRONT + BACK).exe == map[0 := 3, 1 := 3]
    ensures PossibleRun(Start(2), FRONT) && SoundRun(Start(2), FRONT) && BACK[0] == Arrival(4, 0)
    ensures Enabled(Follow(Start(2), FRONT), BACK[0]) && !Sound(Follow(Start(2), FRONT), BACK[0])
  {
    hide Step, Enabled, Sound, At, PossibleRun, SoundRun, Follow;
    StartIs();
    Tail();
    Front(BACK);
    Step8();
    Nothing(S7);
    Front([]);
    assert FRONT + [] == FRONT;
  }

  /** A task killed in the middle of its switch executes although it is not ready any more. */
  lemma KilledTaskExecutes()
    ensures var es := [Arrival(3, 0), BeginFires(0), Killed(3), EndFires(0)];
            && PossibleRun(Start(2), es) && !SoundRun(Start(2), es)
            && Follow(Start(2), es).exe == map[0 := 3] && Follow(Start(2), es).sched.queue == []
  {
    StartIs();
    Step1();
    Step2();
    KillInSwitch();
    hide Step, Enabled, Sound, At, PossibleRun, SoundRun, Follow;
    var s3 := Step(S2, Killed(3));
    Nothing(Step(s3, EndFires(0)));
    RunCons(s3, EndFires(0), []);
    var r3 := [EndFires(0)] + [];
    RunCons(S2, Killed(3), r3);
    var r2 := [Killed(3)] + r3;
    RunCons(S1, BeginFires(0), r2);
    var r1 := [BeginFires(0)] + r2;
    RunCons(S0, Arrival(3, 0), r1);
    assert [Arrival(3, 0), BeginFires(0), Killed(3), EndFires(0)] == [Arrival(3, 0)] + r1;
  }

  lemma KillInSwitch()
    ensures Enabled(S2, Killed(3)) && Ends(S2, Killed(3)) && !Sound(S2, Killed(3))
    ensures Enabled(Step(S2, Killed(3)), EndFires(0)) && Ends(Step(S2, Killed(3)), EndFires(0))
    ensures var s := Step(Step(S2, Killed(3)), EndFires(0)); s.exe == map[0 := 3] && s.sched.queue == []
  {
    WithAt(2, [3], map[3 := 0], map[0 := 3], {}, {0}, 1, []);
    ExtractAt([3], 3, []);
    hide Ms, Sched.Extract;
  }
}
