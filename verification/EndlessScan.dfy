/**
 Scans of dispatch() that run off the queue, where the original loops for ever (src/mrtkernel.cpp:229-240).
 */
module EndlessScan {
  import opened Common
  import opened ReadyQueue
  import opened GlobalDispatch
  import opened Selection
  import opened GlobalSteps
  import opened GlobalRuns
  import opened SoundRuns
  import opened Scenario

  // ---------- a block in the middle of a switch ----------

  const S0 := At(1, [], map[], map[], {}, {}, 0)
  const S1 := At(1, [1], map[], map[], {0}, {}, 1)
  const S2 := At(1, [1], map[1 := 0], map[0 := 1], {}, {0}, 1)
  const S3 := At(1, [1, 2], map[1 := 0], map[0 := 1], {}, {0}, 1)

  /** Task 1 has left the queue, and still holds the CPU. */
  const BLOCKED := At(1, [2], map[1 := 0], map[0 := 1], {}, {0}, 1)

  lemma StartIs()
    ensures Start(1) == S0
  {
    assert (set t | t in S0.sched.queue) == {};
  }

  lemma OneCpu(s: Kernel)
    requires s.ncpu == 1
    ensures FreeCpus(s) == {0} - s.disp.Values
  {
    assert Below(1) == {0};
  }

  const T1 := At(1, [1], map[], map[], {}, {}, 0)

  lemma Look1()
    ensures Undispatched(T1) == {1} && FreeCpus(T1) == {0} && Post(T1, {0}) == S1 && Under({0}, 1) == {0}
  {
    OneCpu(T1);
    assert [1][..1] == [1];
    assert Withdrawn(T1, {0}) == {};
  }

  lemma Step1()
    ensures Enabled(S0, Arrival(1, 0)) && Ends(S0, Arrival(1, 0)) && Step(S0, Arrival(1, 0)) == S1
  {
    Look1();
    JoinsOne(1);
    WithAt(1, [], map[], map[], {}, {}, 0, [1]);
    hide At, With, Numbered, Joins, Under, FreeCpus, Undispatched, Post, Ends, Sound, Step, Enabled;
    assert |{1}| == |{0}|;
    ArrivesGuarded(S0, 1, [1], {0}, 1, {0}, S1);
  }

  lemma Step2()
    ensures Enabled(S1, BeginFires(0)) && Ends(S1, BeginFires(0)) && Step(S1, BeginFires(0)) == S2
  {
    assert FirstUndispatched([1], map[]) == 0;
  }

  lemma Look3()
    ensures Undispatched(S3) == {} && FreeCpus(S3) == {} && Post(S3, {}) == S3
  {
    OneCpu(S3);
    assert [1, 2][..1] == [1];
    assert S3.disp[1] == 0;
    assert Withdrawn(S3, {}) == {};
  }

  lemma Step3()
    ensures Enabled(S2, Arrival(2, 0)) && Ends(S2, Arrival(2, 0)) && Step(S2, Arrival(2, 0)) == S3
  {
    Look3();
    JoinsLast(1, 2);
    WithAt(1, [1], map[1 := 0], map[0 := 1], {}, {0}, 1, [1, 2]);
    assert Under({}, 0) == {};
    hide At, With, Numbered, Joins, Under, FreeCpus, Undispatched, Post, Ends, Sound, Step, Enabled;
    ArrivesGuarded(S2, 2, [1, 2], {}, 0, {}, S3);
  }

  lemma BlockedIs()
    ensures Enabled(S3, Blocked(1)) && MidSwitch(S3, 1) && AtDispatch(S3, Blocked(1)) == BLOCKED
  {
    WithAt(1, [1, 2], map[1 := 0], map[0 := 1], {}, {0}, 1, [2]);
    JoinsBoth(2, 1);
    ExtractAt([1, 2], 1, [2]);
    hide Ms, Sched.Extract;
  }

  /** No CPU looks free, and no ready task has one. */
  lemma NothingToPost()
    ensures !ScanEnds(BLOCKED)
  {
    OneCpu(BLOCKED);
    assert [2][..1] == [2];
    assert BLOCKED.disp[1] == 0;
    assert Undispatched(BLOCKED) == {2} && FreeCpus(BLOCKED) == {};
    NoneFound(BLOCKED);
    assert Left([2], BLOCKED.disp, 1) == 0;
  }

  lemma NoneFound(s: Kernel)
    requires FreeCpus(s) == {}
    ensures FreePosts(s) == {} && AfterFree(s) == s.disp
  {
    assert Found(s) == {};
    FreePostsFound(s);
    hide FreePosts;
    assert Withdrawn(s, {}) == {};
  }

  /** A run from an idle kernel on one CPU: task 1 blocks in the middle of its switch while task 2 is ready. */
  lemma BlockNeverEnds()
    ensures var es := [Arrival(1, 0), BeginFires(0), Arrival(2, 0)];
            && PossibleRun(Start(1), es) && Enabled(Follow(Start(1), es), Blocked(1))
            && !Ends(Follow(Start(1), es), Blocked(1))
  {
    StartIs();
    Step1();
    Step2();
    Step3();
    BlockedIs();
    NothingToPost();
    hide At, ScanEnds, Enabled, Sound, Step, PossibleRun, SoundRun, Follow;
    assert !Ends(S3, Blocked(1));
    Nothing(S3);
    RunCons(S2, Arrival(2, 0), []);
    var r2 := [Arrival(2, 0)] + [];
    RunCons(S1, BeginFires(0), r2);
    var r1 := [BeginFires(0)] + r2;
    RunCons(S0, Arrival(1, 0), r1);
    assert [Arrival(1, 0), BeginFires(0), Arrival(2, 0)] == [Arrival(1, 0)] + r1;
  }

  // ---------- a post outside the guards ----------

  /** CPU 3's old switch was for task 5, which CPU 0 took; tasks 1 to 4 are not dispatched. */
  const TAKEN := At(4, [1, 2, 3, 4, 5], map[5 := 0], map[0 := 5, 3 := 5], {1, 2}, {0}, 0)

  lemma TakenIsOwned()
    ensures Owned(TAKEN)
  {
    ValidAt([1, 2, 3, 4, 5]);
    WithAt(4, [1, 2, 3, 4, 5], map[5 := 0], map[0 := 5, 3 := 5], {1, 2}, {0}, 0, []);
    hide Ms, Sched.Valid;
    TakenIsBacked();
    hide Backed, Phased;
    assert 5 in Elements([1, 2, 3, 4, 5]) && TAKEN.disp[5] == 0;
  }

  lemma TakenIsBacked()
    ensures Backed(TAKEN) && Phased(TAKEN)
  {
    assert TAKEN.switching == {0, 3};
  }

  lemma TakenLook()
    ensures Undispatched(TAKEN) == {1, 2, 3, 4} && FreeCpus(TAKEN) == {1, 2, 3} && Freed(TAKEN) == {}
  {
    assert Below(4) == {0, 1, 2, 3};
    assert [1, 2, 3, 4, 5][..4] == [1, 2, 3, 4];
    assert TAKEN.disp[5] == 0;
    assert TAKEN.disp.Values == {0};
  }

  /** Every free CPU is posted, and task 5 loses its dispatch. */
  lemma TakenScan()
    ensures FreePosts(TAKEN) == {1, 2, 3} && AfterFree(TAKEN) == map[]
  {
    TakenLook();
    TakenPosts();
    assert TAKEN.ncpu == 4 && |{1, 2, 3, 4}| == 4 && |{1, 2, 3}| == 3 && {1, 2, 3} <= Below(4);
    hide Undispatched, FreeCpus, Freed, Below, FirstOf, Post, At;
    assert Found(TAKEN) == {1, 2, 3};
    FirstOfAll({1, 2, 3}, 4, 4);
  }

  lemma TakenPosts()
    ensures Post(TAKEN, {1, 2, 3}).disp == map[] && !Guard(TAKEN, 3)
  {
    assert Withdrawn(TAKEN, {1, 2, 3}) == {5};
    assert TAKEN.disp - {5} == map[];
  }

  /** From ownership: posting the free CPU 3 withdraws task 5, so there is no victim for the fourth task. */
  lemma UnguardedNeverEnds()
    ensures Owned(TAKEN) && !Guard(TAKEN, 3) && !ScanEnds(TAKEN)
  {
    TakenIsOwned();
    TakenLook();
    TakenScan();
    TakenPosts();
    hide FreePosts, AfterFree, Owned, Guard, Left, Undispatched;
    NoneLeft(TAKEN.sched.queue, TopEnd(TAKEN));
    assert |{1, 2, 3, 4}| == 4 && |{1, 2, 3}| == 3;
  }

  lemma NoneLeft(q: seq<Task>, i: nat)
    ensures Left(q, map[], i) == 0
    decreases |q| - i
  {
  }
}
