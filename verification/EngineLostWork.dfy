/**
 * A witness that the parallel drain can lose work: two root transitions of one logical group
 * share a key, the drain keeps only the first, and the run ends with the second enabled.
 */
module EngineLostWork {
  import opened Prelude
  import opened Net
  import opened ContextModel
  import opened Router
  import opened EngineModel
  import opened EngineQueue

  function Twin(id: Id): ExecSpec {
    ExecSpec(TransitionSpec(id, 0, AllOf), 0, 0, Gate, Some("g"), 0)
  }

  const TWINS: Cpn :=
    Cpn("x", ["a", "b"], map["a" := Twin("a"), "b" := Twin("b")], Graph({}, map[], map[], map[], map[], map[]))

  const SHARED_KEY: Key := "x:group:g"

  const PARALLEL: Config := Config(2, 1, Throughput)

  function Waits(id: Id): ReadyItem { ReadyItem(id, SHARED_KEY, 0, 0, false) }

  lemma TwinsNet()
    ensures WfNet(TWINS)
    ensures forall t :: In(TWINS, t) == [] && Out(TWINS, t) == []
    ensures RootKey(TWINS, "a") == RootKey(TWINS, "b") == SHARED_KEY
  {
    assert TWINS.graph == Graph({}, map[], map[], map[], map[], map[]);
    forall t ensures In(TWINS, t) == [] && Out(TWINS, t) == [] {
    }
    assert "x" + ":group:" + "g" == SHARED_KEY;
    assert TWINS.ids[0] == "a" && TWINS.ids[1] == "b";
  }

  lemma TwinsPush(s: State, id: Id)
    requires id in TWINS.specs && (id, SHARED_KEY) !in s.readySet && s.completedKeys == map[]
    ensures PushReady(TWINS, s, id, SHARED_KEY, false)
         == Ok(s.(ready := s.ready + [Waits(id)], readySet := s.readySet + {(id, SHARED_KEY)}))
  {
    assert TWINS.specs[id] == Twin(id);
  }

  lemma TwinsStart()
    ensures EnqueueRoots(TWINS, Initial(TWINS), ["a", "b"])
         == Ok(Initial(TWINS).(ready := [Waits("a"), Waits("b")], readySet := {("a", SHARED_KEY), ("b", SHARED_KEY)}))
  {
    hide PushReady;
    TwinsNet();
    var s0 := Initial(TWINS);
    var s1 := s0.(ready := [Waits("a")], readySet := {("a", SHARED_KEY)});
    var s2 := s1.(ready := [Waits("a"), Waits("b")], readySet := {("a", SHARED_KEY), ("b", SHARED_KEY)});
    TwinsPush(s0, "a");
    TwinsPush(s1, "b");
    assert s0.ready + [Waits("a")] == s1.ready && s1.ready + [Waits("b")] == s2.ready;
    assert s0.readySet + {("a", SHARED_KEY)} == s1.readySet && s1.readySet + {("b", SHARED_KEY)} == s2.readySet;
    assert ["a", "b"][1..] == ["b"] && ["b"][1..] == [];
    assert EnqueueRoots(TWINS, s2, []) == Ok(s2);
    assert EnqueueRoots(TWINS, s1, ["b"]) == Ok(s2);
  }

  lemma TwinsBatch()
    ensures ParallelBatch([Waits("a"), Waits("b")], 2) == [Waits("a")]
  {
    var items := [Waits("a"), Waits("b")];
    assert items[..1] == [Waits("a")] && [Waits("a")][..0] == [];
    assert FirstPerKey([Waits("a")]) == [Waits("a")];
    assert FirstPerKey(items) == [Waits("a")];
    assert [Waits("a")][1..] == [];
    assert Sort([Waits("a")], CmpReady) == [Waits("a")];
  }

  lemma TwinBuilds(runner: Runner, m: Machine)
    requires Wf(m.ctx) && m.st.completedKeys == map[] && m.st.cache == map[] && m.st.attempts == map[]
             && m.st.order == []
    ensures var m1 := m.(st := m.st.(cache := map[("a", SHARED_KEY) := []], order := ["a"]));
            BuildJobs(TWINS, runner, m, [Waits("a")])
            == Ok((m1, [Job(("a", SHARED_KEY), Twin("a"), 0, Trigger(SHARED_KEY, []), None)]))
  {
    TwinsNet();
    var s1 := m.st.(cache := map[("a", SHARED_KEY) := []]);
    assert IsTransitionReady(TWINS, m.st, "a", SHARED_KEY) == Ok(true);
    assert m.st.cache[("a", SHARED_KEY) := []] == s1.cache;
    assert EnsureTrigger(TWINS, m.st, "a", SHARED_KEY) == Ok((s1, Trigger(SHARED_KEY, [])));
    assert TWINS.specs["a"] == Twin("a") && [] + ["a"] == ["a"];
    var m1 := m.(st := m.st.(cache := map[("a", SHARED_KEY) := []], order := ["a"]));
    var job := Job(("a", SHARED_KEY), Twin("a"), 0, Trigger(SHARED_KEY, []), None);
    assert BuildJob(TWINS, runner, m, Waits("a")) == Ok((m1, [job]));
    assert [Waits("a")][1..] == [] && BuildJobs(TWINS, runner, m1, []) == Ok((m1, []));
    assert [job] + [] == [job];
  }

  lemma TwinRuns(runner: Runner, m: Machine, tick: nat)
    requires Wf(m.ctx)
    ensures RunJobs(runner, m, [Job(("a", SHARED_KEY), Twin("a"), 0, Trigger(SHARED_KEY, []), None)], tick)
         == Ok((m, [RunResult(Success, Null)]))
  {
    var job := Job(("a", SHARED_KEY), Twin("a"), 0, Trigger(SHARED_KEY, []), None);
    var run := RunResult(Success, Null);
    assert RunAttempt(m, Twin("a"), 0, Trigger(SHARED_KEY, []), runner, tick) == Ok((m, run));
    assert [job][1..] == [] && RunJobs(runner, m, [], tick + 1) == Ok((m, []));
    assert [run] + [] == [run];
  }

  lemma TwinMerges(m: Machine)
    requires Wf(m.ctx) && !m.stopped
    ensures var job := Job(("a", SHARED_KEY), Twin("a"), 0, Trigger(SHARED_KEY, []), None);
            var run := RunResult(Success, Null);
            MergeJobs(TWINS, m, [job], [run])
            == Ok(m.(st := MarkCompleted(m.st, FiringOf(m.st, "a", SHARED_KEY, run))))
  {
    TwinsNet();
    var job, run := Job(("a", SHARED_KEY), Twin("a"), 0, Trigger(SHARED_KEY, []), None), RunResult(Success, Null);
    var f := FiringOf(m.st, "a", SHARED_KEY, run);
    assert Out(TWINS, "a") == [];
    assert Complete(TWINS, m.st, "a", SHARED_KEY, run) == Ok(MarkCompleted(m.st, f));
    assert [job][1..] == [] && [run][1..] == [];
  }

  /** After one parallel round the queue is empty, although (b, key) is enabled and has not run. */
  lemma ParallelLosesWork(runner: Runner)
    ensures WfNet(TWINS) && Run(TWINS, PARALLEL, runner, FRESH, 1).Ok?
    ensures var m := Run(TWINS, PARALLEL, runner, FRESH, 1).value;
            && Halted(m) && !m.stopped
            && Idle(TWINS, m.st.placeTokens, m.st.completedKeys, ("b", SHARED_KEY))
  {
    hide BuildJobs, RunJobs, MergeJobs, ParallelBatch, EnqueueRoots, WfNet;
    TwinsNet();
    TwinsStart();
    TwinsBatch();
    var m := Start(TWINS, FRESH).value;
    var drained := set i | i in m.st.ready :: (i.transition, i.key);
    var m0 := m.(st := m.st.(ready := [], readySet := m.st.readySet - drained));
    TwinBuilds(runner, m0);
    var m1 := m0.(st := m0.st.(cache := map[("a", SHARED_KEY) := []], order := ["a"]));
    TwinRuns(runner, m1, 1);
    TwinMerges(m1);
    assert Run(TWINS, PARALLEL, runner, FRESH, 0) == Ok(m);
    assert m.st.ready == [Waits("a"), Waits("b")];
    assert !Halted(m);
    var m2 := m1.(st := MarkCompleted(m1.st, FiringOf(m1.st, "a", SHARED_KEY, RunResult(Success, Null))));
    assert ParallelRound(TWINS, PARALLEL, runner, m) == Ok(m2);
    assert Run(TWINS, PARALLEL, runner, FRESH, 1) == Ok(m2);
  }
}
