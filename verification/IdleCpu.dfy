/**
 A run on three CPUs that keeps two-phase ownership at every step and comes to rest with CPU 2 idle although task 5
 is ready (src/mrtkernel.cpp:222-258). Every begin event posted at once fires before any switch ends, and the switches
 take one and the same time.

 Task 4 begins its switch to CPU 0. Tasks 1, 2 and 3 arrive, so all CPUs are posted and the dispatch of task 4 is
 withdrawn; all four are killed. CPU 2 finds nothing to do. Tasks 4 and 5 arrive, and CPUs 0 and 1 are pending for
 them; CPU 1 takes task 4. Then task 1 arrives, so two CPUs are missing, for 1 and 5. Posting CPU 0 withdraws the
 dispatch of task 4, which its old switch was for, so CPU 1 looks free and is posted next. The begin events of
 CPUs 0 and 1 are all there are for the tasks 1, 4 and 5.
 */
module IdleCpu {
  import opened Common
  import opened ReadyQueue
  import opened GlobalDispatch
  import opened Selection
  import opened GlobalSteps
  import opened GlobalRuns
  import opened SoundRuns
  import opened Scenario

  const S0 := At(3, [], map[], map[], {}, {}, 0)
  const S1 := At(3, [4], map[], map[], {0}, {}, 1)
  const S2 := At(3, [4], map[4 := 0], map[0 := 4], {}, {0}, 1)
  const S3 := At(3, [1, 4], map[4 := 0], map[0 := 4], {1}, {0}, 2)
  const S4 := At(3, [1, 2, 4], map[4 := 0], map[0 := 4], {1, 2}, {0}, 4)
  const S5 := At(3, [1, 2, 3, 4], map[], map[0 := 4], {0, 1, 2}, {}, 7)
  const S6 := At(3, [2, 3, 4], map[], map[0 := 4], {0, 1, 2}, {}, 7)
  const S7 := At(3, [3, 4], map[], map[0 := 4], {0, 1, 2}, {}, 7)
  const S8 := At(3, [4], map[], map[0 := 4], {0, 1, 2}, {}, 7)
  const S9 := At(3, [], map[], map[0 := 4], {0, 1, 2}, {}, 7)
  const S10 := At(3, [], map[], map[0 := 4], {0, 1}, {}, 7)
  const S11 := At(3, [4], map[], map[0 := 4], {0, 1}, {}, 8)
  const S12 := At(3, [4, 5], map[], map[0 := 4], {0, 1}, {}, 10)
  const S13 := At(3, [4, 5], map[4 := 1], map[0 := 4, 1 := 4], {0}, {1}, 10)
  const S14 := At(3, [1, 4, 5], map[], map[0 := 4, 1 := 4], {0, 1}, {}, 12)
  const S15 := At(3, [1, 4, 5], map[1 := 0], map[0 := 1, 1 := 4], {1}, {0}, 12)
  const S16 := At(3, [1, 4, 5], map[1 := 0, 4 := 1], map[0 := 1, 1 := 4], {}, {0, 1}, 12)

  const ARRIVING: seq<Event> := [Arrival(4, 0), BeginFires(0), Arrival(1, 0), Arrival(2, 0), Arrival(3, 0)]
  const DYING: seq<Event> := [Killed(1), Killed(2), Killed(3), Killed(4), BeginFires(2)]
  const RETURNING: seq<Event> := [Arrival(4, 0), Arrival(5, 0), BeginFires(1)]
  const SETTLING: seq<Event> := [Arrival(1, 0), BeginFires(0), BeginFires(1), EndFires(0), EndFires(1)]

  lemma ThreeCpus(s: Kernel)
    requires s.ncpu == 3
    ensures FreeCpus(s) == {0, 1, 2} - s.disp.Values
  {
    assert Below(3) == {0, 1, 2};
  }

  lemma StartIs()
    ensures Start(3) == S0
  {
    assert (set t | t in S0.sched.queue) == {};
  }

  lemma FirstOfThree()
    ensures Under({0, 1, 2}, 1) == {0} && Under({0, 1, 2}, 2) == {0, 1}
  {
  }

  lemma FirstOfLast()
    ensures Under({1, 2}, 2) == {1} && Under({1, 2}, 3) == {1, 2}
  {
  }

  // ---------- the queues ----------

  lemma Pairs()
    ensures Joins([], 4, [4]) && Joins([4], 1, [1, 4]) && Joins([4], 3, [3, 4]) && Joins([4], 5, [4, 5])
  {
    hide Joins;
    JoinsOne(4);
    JoinsBoth(4, 1);
    JoinsBoth(4, 3);
    JoinsLast(4, 5);
  }

  lemma Triples()
    ensures Joins([1, 4], 2, [1, 2, 4]) && Joins([3, 4], 2, [2, 3, 4]) && Joins([4, 5], 1, [1, 4, 5])
  {
    JoinsAt([1, 4], 1, 2);
    JoinsAt([3, 4], 0, 2);
    JoinsAt([4, 5], 0, 1);
    hide Joins, Ascending;
    assert [1, 4][..1] + [2] + [1, 4][1..] == [1, 2, 4];
    assert [3, 4][..0] + [2] + [3, 4][0..] == [2, 3, 4];
    assert [4, 5][..0] + [1] + [4, 5][0..] == [1, 4, 5];
  }

  lemma Fours()
    ensures Joins([1, 2, 4], 3, [1, 2, 3, 4]) && Joins([2, 3, 4], 1, [1, 2, 3, 4])
  {
    JoinsAt([1, 2, 4], 2, 3);
    JoinsAt([2, 3, 4], 0, 1);
    hide Joins, Ascending;
    assert [1, 2, 4][..2] + [3] + [1, 2, 4][2..] == [1, 2, 3, 4];
    assert [2, 3, 4][..0] + [1] + [2, 3, 4][0..] == [1, 2, 3, 4];
  }

  // ---------- the first arrivals ----------

  const T1 := At(3, [4], map[], map[], {}, {}, 0)

  lemma Look1()
    ensures Undispatched(T1) == {4} && FreeCpus(T1) == {0, 1, 2} && Post(T1, {0}) == S1
  {
    ThreeCpus(T1);
    assert [4][..1] == [4];
    assert Withdrawn(T1, {0}) == {};
  }

  lemma Step1()
    ensures Enabled(S0, Arrival(4, 0)) && Ends(S0, Arrival(4, 0)) && Sound(S0, Arrival(4, 0))
    ensures Step(S0, Arrival(4, 0)) == S1
  {
    Look1();
    Pairs();
    FirstOfThree();
    WithAt(3, [], map[], map[], {}, {}, 0, [4]);
    hide At, With, Numbered, Joins, Under, FreeCpus, Undispatched, Post, Ends, Sound, Step, Enabled;
    assert |{4}| == |{0}|;
    ArrivesGuarded(S0, 4, [4], {0, 1, 2}, 1, {0}, S1);
  }

  lemma Step2()
    ensures Enabled(S1, BeginFires(0)) && Ends(S1, BeginFires(0)) && Sound(S1, BeginFires(0))
    ensures Step(S1, BeginFires(0)) == S2
  {
    assert FirstUndispatched([4], map[]) == 0;
  }

  const T3 := At(3, [1, 4], map[4 := 0], map[0 := 4], {}, {0}, 1)

  lemma Look3()
    ensures Undispatched(T3) == {1} && FreeCpus(T3) == {1, 2}
  {
    ThreeCpus(T3);
    assert [1, 4][..2] == [1, 4];
    assert T3.disp[4] == 0;
    assert T3.disp.Values == {0};
  }

  lemma Post3()
    ensures Post(T3, {1}) == S3
  {
    assert Withdrawn(T3, {1}) == {};
  }

  lemma Step3()
    ensures Enabled(S2, Arrival(1, 0)) && Ends(S2, Arrival(1, 0)) && Sound(S2, Arrival(1, 0))
    ensures Step(S2, Arrival(1, 0)) == S3
  {
    Look3();
    Post3();
    Pairs();
    FirstOfLast();
    WithAt(3, [4], map[4 := 0], map[0 := 4], {}, {0}, 1, [1, 4]);
    hide At, With, Numbered, Joins, Under, FreeCpus, Undispatched, Post, Ends, Sound, Step, Enabled;
    assert |{1}| == 1;
    ArrivesGuarded(S2, 1, [1, 4], {1, 2}, 2, {1}, S3);
  }

  const T4 := At(3, [1, 2, 4], map[4 := 0], map[0 := 4], {1}, {0}, 2)

  lemma Look4()
    ensures Undispatched(T4) == {1, 2} && FreeCpus(T4) == {1, 2}
  {
    ThreeCpus(T4);
    assert [1, 2, 4][..3] == [1, 2, 4];
    assert T4.disp[4] == 0;
    assert T4.disp.Values == {0};
  }

  lemma Post4()
    ensures Post(T4, {1, 2}) == S4
  {
    assert Withdrawn(T4, {1, 2}) == {};
  }

  lemma Step4()
    ensures Enabled(S3, Arrival(2, 0)) && Ends(S3, Arrival(2, 0)) && Sound(S3, Arrival(2, 0))
    ensures Step(S3, Arrival(2, 0)) == S4
  {
    Look4();
    Post4();
    Triples();
    FirstOfLast();
    WithAt(3, [1, 4], map[4 := 0], map[0 := 4], {1}, {0}, 2, [1, 2, 4]);
    hide At, With, Numbered, Joins, Under, FreeCpus, Undispatched, Post, Ends, Sound, Step, Enabled;
    assert |{1, 2}| == 2;
    ArrivesGuarded(S3, 2, [1, 2, 4], {1, 2}, 3, {1, 2}, S4);
  }

  const T5 := At(3, [1, 2, 3, 4], map[4 := 0], map[0 := 4], {1, 2}, {0}, 4)

  lemma Look5()
    ensures Undispatched(T5) == {1, 2, 3} && FreeCpus(T5) == {1, 2}
  {
    ThreeCpus(T5);
    assert [1, 2, 3, 4][..3] == [1, 2, 3];
    assert T5.disp[4] == 0;
    assert T5.disp.Values == {0};
  }

  lemma Free5()
    ensures Post(T5, {1, 2}).disp == map[4 := 0] && Guard(T5, 1) && Guard(T5, 2) && {1, 2} <= Below(3)
    ensures T5.ncpu == 3 && T5.sched.queue == [1, 2, 3, 4]
  {
    assert Withdrawn(T5, {1, 2}) == {};
  }

  lemma Post5()
    ensures Post(T5, {1, 2} + {0}) == S5
  {
    assert {1, 2} + {0} == {0, 1, 2};
    assert Withdrawn(T5, {0, 1, 2}) == {4};
    assert T5.disp - {4} == map[];
  }

  lemma Scan5()
    ensures ScanPosts(T5) == {1, 2} + {0} && ScanEnds(T5) && Undisturbed(T5)
  {
    Look5();
    Free5();
    hide At, FreeCpus, Undispatched, Post, ScanPosts, ScanEnds, Undisturbed, Below, Guard;
    FoundGuarded(T5, {1, 2});
    hide Found;
    assert |{1, 2, 3}| == 3 && |{1, 2}| == 2;
    VictimScan(T5, 3, {1, 2}, 0);
  }

  lemma Step5()
    ensures Enabled(S4, Arrival(3, 0)) && Ends(S4, Arrival(3, 0)) && Sound(S4, Arrival(3, 0))
    ensures Step(S4, Arrival(3, 0)) == S5
  {
    Post5();
    Scan5();
    Fours();
    WithAt(3, [1, 2, 4], map[4 := 0], map[0 := 4], {1, 2}, {0}, 4, [1, 2, 3, 4]);
    hide At, With, Numbered, Joins, Post, ScanPosts, ScanEnds, Undisturbed, Ends, Sound, Step, Enabled;
    Arrives(S4, 3, [1, 2, 3, 4], {1, 2} + {0}, S5);
  }

  // ---------- the kills ----------

  lemma Kill(q: seq<Task>, t: Task, q': seq<Task>)
    requires Joins(q', t, q)
    ensures var s := At(3, q, map[], map[0 := 4], {0, 1, 2}, {}, 7);
            && Enabled(s, Killed(t)) && Ends(s, Killed(t)) && Sound(s, Killed(t))
            && Step(s, Killed(t)) == At(3, q', map[], map[0 := 4], {0, 1, 2}, {}, 7)
  {
    WithAt(3, q, map[], map[0 := 4], {0, 1, 2}, {}, 7, q');
    hide At, With, Numbered, Joins, Ends, Sound, Step, Enabled;
    Dies(At(3, q, map[], map[0 := 4], {0, 1, 2}, {}, 7), t, q');
  }

  lemma Step10()
    ensures Enabled(S9, BeginFires(2)) && Ends(S9, BeginFires(2)) && Sound(S9, BeginFires(2))
    ensures Step(S9, BeginFires(2)) == S10
  {
    assert FirstUndispatched([], map[]) == 0;
    assert S9.beginEv - {2} == {0, 1};
  }

  // ---------- the second arrivals ----------

  const T11 := At(3, [4], map[], map[0 := 4], {0, 1}, {}, 7)

  lemma Look11()
    ensures Undispatched(T11) == {4} && FreeCpus(T11) == {0, 1, 2}
  {
    ThreeCpus(T11);
    assert [4][..1] == [4];
  }

  lemma Post11()
    ensures Post(T11, {0}) == S11
  {
    assert Withdrawn(T11, {0}) == {4};
    assert T11.disp - {4} == map[];
  }

  lemma Step11()
    ensures Enabled(S10, Arrival(4, 0)) && Ends(S10, Arrival(4, 0)) && Sound(S10, Arrival(4, 0))
    ensures Step(S10, Arrival(4, 0)) == S11
  {
    Look11();
    Post11();
    Pairs();
    FirstOfThree();
    WithAt(3, [], map[], map[0 := 4], {0, 1}, {}, 7, [4]);
    hide At, With, Numbered, Joins, Under, FreeCpus, Undispatched, Post, Ends, Sound, Step, Enabled;
    assert |{4}| == |{0}|;
    ArrivesGuarded(S10, 4, [4], {0, 1, 2}, 1, {0}, S11);
  }

  const T12 := At(3, [4, 5], map[], map[0 := 4], {0, 1}, {}, 8)

  lemma Look12()
    ensures Undispatched(T12) == {4, 5} && FreeCpus(T12) == {0, 1, 2}
  {
    ThreeCpus(T12);
    assert [4, 5][..2] == [4, 5];
  }

  lemma Post12()
    ensures Post(T12, {0, 1}) == S12
  {
    assert Withdrawn(T12, {0, 1}) == {4};
    assert T12.disp - {4} == map[];
  }

  lemma Step12()
    ensures Enabled(S11, Arrival(5, 0)) && Ends(S11, Arrival(5, 0)) && Sound(S11, Arrival(5, 0))
    ensures Step(S11, Arrival(5, 0)) == S12
  {
    Look12();
    Post12();
    Pairs();
    FirstOfThree();
    WithAt(3, [4], map[], map[0 := 4], {0, 1}, {}, 8, [4, 5]);
    hide At, With, Numbered, Joins, Under, FreeCpus, Undispatched, Post, Ends, Sound, Step, Enabled;
    assert |{4, 5}| == |{0, 1}|;
    ArrivesGuarded(S11, 5, [4, 5], {0, 1, 2}, 2, {0, 1}, S12);
  }

  lemma Step13()
    ensures Enabled(S12, BeginFires(1)) && Ends(S12, BeginFires(1)) && Sound(S12, BeginFires(1))
    ensures Step(S12, BeginFires(1)) == S13
  {
    assert FirstUndispatched([4, 5], map[]) == 0;
  }

  // ---------- the arrival outside the guards ----------

  const T14 := At(3, [1, 4, 5], map[4 := 1], map[0 := 4, 1 := 4], {0}, {1}, 10)

  lemma Look14()
    ensures Undispatched(T14) == {1, 5} && FreeCpus(T14) == {0, 2}
  {
    ThreeCpus(T14);
    assert [1, 4, 5][..3] == [1, 4, 5];
    assert T14.disp[4] == 1;
    assert T14.disp.Values == {1};
  }

  lemma Found14()
    ensures Found(T14) == {0, 1, 2}
  {
    Look14();
    hide FreeCpus;
    assert TakesFrom(T14, 0, 1) && 0 in FreeCpus(T14);
    assert Freed(T14) == {1};
  }

  lemma Post14()
    ensures Post(T14, {0, 1}) == S14 && Withdrawn(T14, {0, 1}) == {4}
  {
    assert Withdrawn(T14, {0, 1}) == {4};
    assert T14.disp - {4} == map[];
  }

  lemma Scan14()
    ensures FreePosts(T14) == {0, 1} && ScanPosts(T14) == {0, 1} && ScanEnds(T14)
  {
    Look14();
    Found14();
    FirstOfThree();
    assert |{1, 5}| == 2 && |{0, 1}| == 2;
    assert T14.ncpu == 3;
    hide At, FreeCpus, Undispatched, Found, Under, FirstOf;
    FirstOfIs(Found(T14), 3, 0, 2, 2);
    FreeScan(T14, 2, 2, {0, 1});
  }

  /** CPU 0 is unguarded, and its post is harmless because CPU 1 is posted too. */
  lemma Harmless14()
    ensures Undisturbed(T14) && !Guard(T14, 0)
  {
    Scan14();
    hide FreePosts;
    assert Harmless(T14, {0, 1}, 0) && Harmless(T14, {0, 1}, 1);
  }

  lemma NotEnough14()
    ensures !Enough(T14, ScanPosts(T14))
  {
    Scan14();
    Post14();
    hide ScanPosts, FreePosts;
    assert [1, 4, 5][..3] == [1, 4, 5];
    assert 4 in Top(T14) * T14.disp.Keys * Withdrawn(T14, {0, 1});
    assert T14.beginEv - {0, 1} == {};
    assert Serving(Top(T14), Post(T14, {0, 1}).disp, {}) == {};
  }

  lemma Step14()
    ensures Enabled(S13, Arrival(1, 0)) && Ends(S13, Arrival(1, 0)) && Sound(S13, Arrival(1, 0))
    ensures Step(S13, Arrival(1, 0)) == S14 && AtDispatch(S13, Arrival(1, 0)) == T14
  {
    Post14();
    Scan14();
    Harmless14();
    Triples();
    WithAt(3, [4, 5], map[4 := 1], map[0 := 4, 1 := 4], {0}, {1}, 10, [1, 4, 5]);
    hide At, Numbered, Joins, Post, ScanPosts, ScanEnds, Undisturbed, Ends, Sound, Step, Enabled;
    Arrives(S13, 1, [1, 4, 5], {0, 1}, S14);
  }

  // ---------- coming to rest ----------

  lemma Step15()
    ensures Enabled(S14, BeginFires(0)) && Ends(S14, BeginFires(0)) && Sound(S14, BeginFires(0))
    ensures Step(S14, BeginFires(0)) == S15
  {
    assert FirstUndispatched([1, 4, 5], map[]) == 0;
  }

  lemma Step16()
    ensures Enabled(S15, BeginFires(1)) && Ends(S15, BeginFires(1)) && Sound(S15, BeginFires(1))
    ensures Step(S15, BeginFires(1)) == S16
  {
    assert [1, 4, 5][1..] == [4, 5];
    assert FirstUndispatched([4, 5], map[1 := 0]) == 0;
    assert FirstUndispatched([1, 4, 5], map[1 := 0]) == 1;
  }

  lemma Steps1718()
    ensures Enabled(S16, EndFires(0)) && Ends(S16, EndFires(0)) && Sound(S16, EndFires(0))
    ensures var s := Step(S16, EndFires(0));
            && Enabled(s, EndFires(1)) && Ends(s, EndFires(1)) && Sound(s, EndFires(1))
            && Step(s, EndFires(1)).exe == map[0 := 1, 1 := 4] && AtRest(Step(s, EndFires(1)))
            && Step(s, EndFires(1)).sched.queue == [1, 4, 5] && Step(s, EndFires(1)).ncpu == 3
  {
  }

  lemma Idle(s: Kernel)
    requires s.ncpu == 3 && s.sched.queue == [1, 4, 5] && s.exe == map[0 := 1, 1 := 4]
    ensures 5 in s.sched.queue && 2 !in s.exe && !GloballyScheduled(s)
  {
    assert [1, 4, 5][..3] == [1, 4, 5];
    assert 5 in Top(s) && 5 !in s.exe.Values;
  }

  // ---------- the run ----------

  /** What a part of the run contributes: it leads on from s to s' soundly. */
  ghost predicate Leads(s: Kernel, es: seq<Event>, s': Kernel) {
    forall rest :: PossibleRun(s', rest) && SoundRun(s', rest) ==>
      PossibleRun(s, es + rest) && SoundRun(s, es + rest) && Follow(s, es + rest) == Follow(s', rest)
  }

  lemma LeadsNowhere(s: Kernel)
    ensures Leads(s, [], s)
  {
    forall rest | PossibleRun(s, rest) ensures [] + rest == rest {
    }
  }

  lemma LeadsOn(s: Kernel, e: Event, es: seq<Event>, s': Kernel)
    requires Enabled(s, e) && Ends(s, e) && Sound(s, e) && Leads(Step(s, e), es, s')
    ensures Leads(s, [e] + es, s')
  {
    hide Enabled, Ends, Sound, Step, PossibleRun, SoundRun, Follow;
    forall rest | PossibleRun(s', rest) && SoundRun(s', rest)
      ensures var all := [e] + es + rest;
              PossibleRun(s, all) && SoundRun(s, all) && Follow(s, all) == Follow(s', rest)
    {
      RunCons(s, e, es + rest);
      assert [e] + es + rest == [e] + (es + rest);
    }
  }

  lemma LeadsFurther(s: Kernel, es: seq<Event>, s': Kernel, es': seq<Event>, s'': Kernel)
    requires Leads(s, es, s') && Leads(s', es', s'')
    ensures Leads(s, es + es', s'')
  {
    hide PossibleRun, SoundRun, Follow;
    forall rest | PossibleRun(s'', rest) && SoundRun(s'', rest)
      ensures var all := es + es' + rest;
              PossibleRun(s, all) && SoundRun(s, all) && Follow(s, all) == Follow(s'', rest)
    {
      assert es + es' + rest == es + (es' + rest);
    }
  }

  lemma Arriving()
    ensures Leads(S0, ARRIVING, S5)
  {
    hide At, Enabled, Ends, Sound, Step, Leads;
    LeadsNowhere(S5);
    Step5();
    LeadsOn(S4, Arrival(3, 0), [], S5);
    var r4 := [Arrival(3, 0)] + [];
    Step4();
    LeadsOn(S3, Arrival(2, 0), r4, S5);
    var r3 := [Arrival(2, 0)] + r4;
    Step3();
    LeadsOn(S2, Arrival(1, 0), r3, S5);
    var r2 := [Arrival(1, 0)] + r3;
    Step2();
    LeadsOn(S1, BeginFires(0), r2, S5);
    var r1 := [BeginFires(0)] + r2;
    Step1();
    LeadsOn(S0, Arrival(4, 0), r1, S5);
    assert ARRIVING == [Arrival(4, 0)] + r1;
  }

  lemma Dying()
    ensures Leads(S5, DYING, S10)
  {
    Pairs();
    Triples();
    Fours();
    hide At, Joins, Enabled, Ends, Sound, Step, Leads;
    LeadsNowhere(S10);
    Step10();
    LeadsOn(S9, BeginFires(2), [], S10);
    var r9 := [BeginFires(2)] + [];
    Kill([4], 4, []);
    LeadsOn(S8, Killed(4), r9, S10);
    var r8 := [Killed(4)] + r9;
    Kill([3, 4], 3, [4]);
    LeadsOn(S7, Killed(3), r8, S10);
    var r7 := [Killed(3)] + r8;
    Kill([2, 3, 4], 2, [3, 4]);
    LeadsOn(S6, Killed(2), r7, S10);
    var r6 := [Killed(2)] + r7;
    Kill([1, 2, 3, 4], 1, [2, 3, 4]);
    LeadsOn(S5, Killed(1), r6, S10);
    assert DYING == [Killed(1)] + r6;
  }

  lemma Returning()
    ensures Leads(S10, RETURNING, S13)
  {
    hide At, Enabled, Ends, Sound, Step, Leads;
    LeadsNowhere(S13);
    Step13();
    LeadsOn(S12, BeginFires(1), [], S13);
    var r12 := [BeginFires(1)] + [];
    Step12();
    LeadsOn(S11, Arrival(5, 0), r12, S13);
    var r11 := [Arrival(5, 0)] + r12;
    Step11();
    LeadsOn(S10, Arrival(4, 0), r11, S13);
    assert RETURNING == [Arrival(4, 0)] + r11;
  }

  lemma Settling() returns (s: Kernel)
    ensures Leads(S13, SETTLING, s)
    ensures AtRest(s) && s.ncpu == 3 && s.sched.queue == [1, 4, 5] && s.exe == map[0 := 1, 1 := 4]
  {
    hide At, Enabled, Ends, Sound, Step, Leads;
    Steps1718();
    var s17 := Step(S16, EndFires(0));
    s := Step(s17, EndFires(1));
    LeadsNowhere(s);
    LeadsOn(s17, EndFires(1), [], s);
    var r17 := [EndFires(1)] + [];
    LeadsOn(S16, EndFires(0), r17, s);
    var r16 := [EndFires(0)] + r17;
    Step16();
    LeadsOn(S15, BeginFires(1), r16, s);
    var r15 := [BeginFires(1)] + r16;
    Step15();
    LeadsOn(S14, BeginFires(0), r15, s);
    var r14 := [BeginFires(0)] + r15;
    Step14();
    LeadsOn(S13, Arrival(1, 0), r14, s);
    assert SETTLING == [Arrival(1, 0)] + r14;
  }

  lemma UpToReturning()
    ensures Leads(S0, ARRIVING + DYING + RETURNING, S13)
  {
    hide At, Leads;
    Arriving();
    Dying();
    Returning();
    LeadsFurther(S0, ARRIVING, S5, DYING, S10);
    LeadsFurther(S0, ARRIVING + DYING, S10, RETURNING, S13);
  }

  /** The run is possible and sound, so ownership holds throughout; its fourteenth event calls dispatch() in a state
      in which two CPUs are not enough; and it comes to rest with CPU 2 idle and task 5 ready. */
  lemma IdleCpuAtRest()
    ensures var es, e := ARRIVING + DYING + RETURNING, SETTLING[0];
            && PossibleRun(Start(3), es + SETTLING) && SoundRun(Start(3), es + SETTLING)
            && PossibleRun(Start(3), es) && Enabled(Follow(Start(3), es), e) && Dispatches(e)
            && (var s1 := AtDispatch(Follow(Start(3), es), e);
                Undisturbed(s1) && !Guard(s1, 0) && !Enough(s1, ScanPosts(s1)))
            && (var s := Follow(Start(3), es + SETTLING);
                AtRest(s) && 5 in s.sched.queue && 2 !in s.exe && !GloballyScheduled(s))
  {
    hide At, Enabled, Ends, Sound, Step, PossibleRun, SoundRun, Follow, AtDispatch;
    hide Undisturbed, Enough, ScanPosts, Guard;
    hide AtRest, GloballyScheduled;
    StartIs();
    UpToReturning();
    var s := Settling();
    LeadsFurther(S0, ARRIVING + DYING + RETURNING, S13, SETTLING, s);
    Nothing(s);
    Nothing(S13);
    var es := ARRIVING + DYING + RETURNING;
    assert es + [] == es && es + SETTLING + [] == es + SETTLING;
    Step14();
    Harmless14();
    NotEnough14();
    Idle(s);
  }
}
