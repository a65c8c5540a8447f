/**
 * A witness that a parallel round can keep the writes of a Router it records as cancelled: a
 * Terminal and a Router run in one round, the Router commits first, the Terminal ends the merge.
 */
module EngineCutShort {
  import opened Prelude
  import opened Net
  import opened ContextModel
  import opened Router
  import opened EngineModel
  import opened EngineScheduling
  import opened EngineRouter

  function Racer(id: Id): ExecSpec {
    ExecSpec(TransitionSpec(id, 0, AllOf), 0, 0, if id == "a" then Terminal else RouterTo("s"), None, 0)
  }

  const RACERS: Cpn :=
    Cpn("x", ["a", "b"], map["a" := Racer("a"), "b" := Racer("b")], Graph({}, map[], map[], map[], map[], map[]))

  const KEY_A: Key := "x:a:root"

  const KEY_B: Key := "x:b:root"

  const TWO_AT_ONCE: Config := Config(2, 1, Throughput)

  const SLOT: ContextKey := ContextKey("n", "k", 100)

  const WRITE: InnerOp := Put(SLOT, SlotEntry(Null, SlotMeta(false, None, Low, "b")))

  /** Every run succeeds and puts one slot. */
  function Writer(): Runner { (spec, attempt, trigger, ctx, tick) => RunReport(Success, Null, [WRITE], false) }

  function Racing(id: Id): ReadyItem { ReadyItem(id, if id == "a" then KEY_A else KEY_B, 0, 0, false) }

  function JobA(): Job { Job(("a", KEY_A), Racer("a"), 0, Trigger(KEY_A, []), None) }

  function JobB(): Job { Job(("b", KEY_B), Racer("b"), 0, Trigger(KEY_B, []), Some(RunResult(Success, Null))) }

  lemma RacersNet()
    ensures WfNet(RACERS)
    ensures forall t :: In(RACERS, t) == [] && Out(RACERS, t) == []
    ensures RootKey(RACERS, "a") == KEY_A && RootKey(RACERS, "b") == KEY_B
  {
    assert RACERS.graph == Graph({}, map[], map[], map[], map[], map[]);
    forall t ensures In(RACERS, t) == [] && Out(RACERS, t) == [] {
    }
    assert "x" + ":" + "a" + ":root" == KEY_A && "x" + ":" + "b" + ":root" == KEY_B;
    assert RACERS.ids[0] == "a" && RACERS.ids[1] == "b";
  }

  lemma RacersPush(s: State, id: Id)
    requires id in RACERS.specs && (id, Racing(id).key) !in s.readySet && s.completedKeys == map[]
    ensures PushReady(RACERS, s, id, Racing(id).key, false)
         == Ok(s.(ready := s.ready + [Racing(id)], readySet := s.readySet + {(id, Racing(id).key)}))
  {
    assert RACERS.specs[id] == Racer(id);
  }

  lemma RacersStart()
    ensures EnqueueRoots(RACERS, Initial(RACERS), ["a", "b"])
         == Ok(Initial(RACERS).(ready := [Racing("a"), Racing("b")], readySet := {("a", KEY_A), ("b", KEY_B)}))
  {
    hide PushReady;
    RacersNet();
    var s0 := Initial(RACERS);
    var s1 := s0.(ready := [Racing("a")], readySet := {("a", KEY_A)});
    var s2 := s1.(ready := [Racing("a"), Racing("b")], readySet := {("a", KEY_A), ("b", KEY_B)});
    RacersPush(s0, "a");
    RacersPush(s1, "b");
    assert s0.ready + [Racing("a")] == s1.ready && s1.ready + [Racing("b")] == s2.ready;
    assert s0.readySet + {("a", KEY_A)} == s1.readySet && s1.readySet + {("b", KEY_B)} == s2.readySet;
    assert ["a", "b"][1..] == ["b"] && ["b"][1..] == [];
    assert EnqueueRoots(RACERS, s2, []) == Ok(s2);
    assert EnqueueRoots(RACERS, s1, ["b"]) == Ok(s2);
  }

  lemma RacersOrder()
    ensures CmpReady(Racing("a"), Racing("b")) == Less && KEY_A != KEY_B
  {
    assert KEY_A[2] == 'a' && KEY_B[2] == 'b';
  }

  lemma RacersSorted()
    ensures Sort([Racing("a"), Racing("b")], CmpReady) == [Racing("a"), Racing("b")]
  {
    RacersOrder();
    hide CmpReady, KEY_A, KEY_B;
    var none: seq<ReadyItem> := [];
    assert [Racing("a"), Racing("b")][1..] == [Racing("b")] && [Racing("b")][1..] == none;
    assert Sort([Racing("b")], CmpReady) == [Racing("b")];
    assert [Racing("a")] + [Racing("b")] == [Racing("a"), Racing("b")];
  }

  lemma RacersApart()
    ensures DistinctKeys([Racing("a"), Racing("b")])
  {
    RacersOrder();
  }

  lemma RacersBatch()
    ensures ParallelBatch([Racing("a"), Racing("b")], 2) == [Racing("a"), Racing("b")]
  {
    var items := [Racing("a"), Racing("b")];
    hide CmpReady, KEY_A, KEY_B, Sort, FirstPerKey;
    RacersApart();
    hide DistinctKeys, Racing;
    FirstPerKeyAll(items);
    RacersSorted();
  }

  /** The state once a pair without inputs is taken and its attempt entered in the order. */
  function Begun(s: State, id: Id, k: Key): State { s.(cache := s.cache[(id, k) := []], order := s.order + [id]) }

  lemma Takes(s: State, id: Id, k: Key)
    requires id in RACERS.specs && s.completedKeys == map[] && (id, k) !in s.cache
    ensures EnsureTrigger(RACERS, s, id, k) == Ok((s.(cache := s.cache[(id, k) := []]), Trigger(k, [])))
  {
    RacersNet();
    assert IsTransitionReady(RACERS, s, id, k) == Ok(true);
  }

  lemma BuildsA(m: Machine)
    requires Wf(m.ctx) && m.st.completedKeys == map[] && m.st.cache == map[] && m.st.attempts == map[]
    ensures BuildJob(RACERS, Writer(), m, Racing("a")) == Ok((m.(st := Begun(m.st, "a", KEY_A)), [JobA()]))
  {
    Takes(m.st, "a", KEY_A);
    assert RACERS.specs["a"] == Racer("a");
  }

  /** The Router commits while its job is built. */
  lemma BuildsB(m: Machine) returns (m': Machine)
    requires Wf(m.ctx) && m.ctx.active.None? && m.st.completedKeys == map[] && m.st.attempts == map[]
    requires ("b", KEY_B) !in m.st.cache && m.effects == []
    ensures Wf(m'.ctx) && BuildJob(RACERS, Writer(), m, Racing("b")) == Ok((m', [JobB()]))
    ensures m' == m.(st := Begun(m.st, "b", KEY_B), ctx := m'.ctx, router := m'.router, effects := m'.effects)
    ensures m'.effects == [Effect("b", KEY_B, [WRITE])]
  {
    Takes(m.st, "b", KEY_B);
    assert RACERS.specs["b"] == Racer("b");
    var m1 := m.(st := Begun(m.st, "b", KEY_B));
    var run := InSubgraph(Writer(), Racer("b"), 0, Trigger(KEY_B, []), |m.st.order|);
    RouterIsAtomic(m1.ctx, "s", m1.router, run, 0);
    assert !Skips(Racer("b"), Trigger(KEY_B, []));
    var r := RunAttempt(m1, Racer("b"), 0, Trigger(KEY_B, []), Writer(), |m.st.order|);
    assert r.Ok? && r.value.1 == RunResult(Success, Null);
    m' := r.value.0;
    assert [] + [Effect("b", KEY_B, [WRITE])] == [Effect("b", KEY_B, [WRITE])];
  }

  lemma RunsA(m: Machine, tick: nat)
    requires Wf(m.ctx)
    ensures RunJobs(Writer(), m, [JobA(), JobB()], tick)
         == Ok((m.(ctx := Steps(m.ctx, [WRITE]), effects := m.effects + [Effect("a", KEY_A, [WRITE])]),
                [RunResult(Success, Null), RunResult(Success, Null)]))
  {
    var m1 := m.(ctx := Steps(m.ctx, [WRITE]), effects := m.effects + [Effect("a", KEY_A, [WRITE])]);
    var run := RunResult(Success, Null);
    var ops: seq<InnerOp> := [WRITE];
    assert ops == [WRITE];
    assert RunAttempt(m, Racer("a"), 0, Trigger(KEY_A, []), Writer(), tick) == Ok((m1, run));
    assert [JobA(), JobB()][1..] == [JobB()] && [JobB()][1..] == [];
    assert RunJobs(Writer(), m1, [], tick + 2) == Ok((m1, []));
    assert [run] + [] == [run] && [run] + [run] == [run, run];
    assert RunJobs(Writer(), m1, [JobB()], tick + 1) == Ok((m1, [run]));
  }

  lemma MergesA(m: Machine)
    requires Wf(m.ctx) && !m.stopped
    ensures var run := RunResult(Success, Null);
            var s := MarkCompleted(m.st, FiringOf(m.st, "a", KEY_A, run));
            MergeJobs(RACERS, m, [JobA(), JobB()], [run, run])
            == Ok(m.(st := Shutdown(RACERS, s), batch := [], stopped := true))
  {
    RacersNet();
    var run := RunResult(Success, Null);
    var f := FiringOf(m.st, "a", KEY_A, run);
    assert Out(RACERS, "a") == [];
    assert Complete(RACERS, m.st, "a", KEY_A, run) == Ok(MarkCompleted(m.st, f));
  }

  /** One round from the start: both are built, `a` runs, and the merge ends with it. */
  lemma RacersRound(m: Machine) returns (end: Machine)
    requires Start(RACERS, FRESH) == Ok(m)
    requires m == Machine(Initial(RACERS).(ready := [Racing("a"), Racing("b")],
                                           readySet := {("a", KEY_A), ("b", KEY_B)}),
                          FRESH, ZERO_METRICS, [], false, [])
    ensures ParallelRound(RACERS, TWO_AT_ONCE, Writer(), m) == Ok(end) && end.stopped
    ensures "b" in end.st.outcomes && end.st.outcomes["b"] == Cancelled
    ensures !Succeeded(end.st.fired, ("b", KEY_B)) && HasEffect(end.effects, ("b", KEY_B))
  {
    hide BuildJob, RunJobs, MergeJobs, ParallelBatch, Start, Succeeded, HasEffect, Shutdown, MarkCompleted, Steps;
    RacersBatch();
    var drained := set i | i in m.st.ready :: (i.transition, i.key);
    var m0 := m.(st := m.st.(ready := [], readySet := m.st.readySet - drained));
    BuildsA(m0);
    var ma := m0.(st := Begun(m0.st, "a", KEY_A));
    var mb := BuildsB(ma);
    BuildsBoth(m0, ma, mb);
    RunsA(mb, |mb.st.order|);
    var mr := mb.(ctx := Steps(mb.ctx, [WRITE]), effects := mb.effects + [Effect("a", KEY_A, [WRITE])]);
    MergesA(mr);
    end := MergeJobs(RACERS, mr, [JobA(), JobB()], [RunResult(Success, Null), RunResult(Success, Null)]).value;
    Ended(mr, end);
  }

  lemma BuildsBoth(m0: Machine, ma: Machine, mb: Machine)
    requires Wf(m0.ctx) && Wf(ma.ctx) && Wf(mb.ctx)
    requires BuildJob(RACERS, Writer(), m0, Racing("a")) == Ok((ma, [JobA()]))
    requires BuildJob(RACERS, Writer(), ma, Racing("b")) == Ok((mb, [JobB()]))
    ensures BuildJobs(RACERS, Writer(), m0, [Racing("a"), Racing("b")]) == Ok((mb, [JobA(), JobB()]))
  {
    hide BuildJob, JobA, JobB, Racing;
    assert [Racing("a"), Racing("b")][1..] == [Racing("b")] && [Racing("b")][1..] == [];
    assert BuildJobs(RACERS, Writer(), mb, []) == Ok((mb, []));
    assert [JobB()] + [] == [JobB()] && [JobA()] + [JobB()] == [JobA(), JobB()];
    assert BuildJobs(RACERS, Writer(), ma, [Racing("b")]) == Ok((mb, [JobB()]));
  }

  /**
   * After one round the run is over, the Router is recorded as cancelled and has not succeeded,
   * and yet its writes are in the context.
   */
  lemma CommittedYetCancelled()
    ensures WfNet(RACERS) && Run(RACERS, TWO_AT_ONCE, Writer(), FRESH, 1).Ok?
    ensures var m := Run(RACERS, TWO_AT_ONCE, Writer(), FRESH, 1).value;
            && m.stopped && "b" in m.st.outcomes && m.st.outcomes["b"] == Cancelled
            && !Succeeded(m.st.fired, ("b", KEY_B)) && HasEffect(m.effects, ("b", KEY_B))
            && ("b", KEY_B) in Cut(RACERS, TWO_AT_ONCE, Writer(), FRESH, 1)
  {
    hide ParallelRound, EnqueueRoots, Cut, Succeeded, HasEffect;
    RacersNet();
    RacersStart();
    var m := Start(RACERS, FRESH).value;
    assert Run(RACERS, TWO_AT_ONCE, Writer(), FRESH, 0) == Ok(m);
    var end := RacersRound(m);
    assert Run(RACERS, TWO_AT_ONCE, Writer(), FRESH, 1) == Ok(end);
    RouterAtomicity(RACERS, TWO_AT_ONCE, Writer(), FRESH, 1);
    assert IsRouter(RACERS, "b") by { assert RACERS.specs["b"] == Racer("b"); }
  }

  lemma Ended(m: Machine, end: Machine)
    requires m.st.fired == [] && m.st.outcomes == map[]
    requires m.effects == [Effect("b", KEY_B, [WRITE]), Effect("a", KEY_A, [WRITE])]
    requires var s := MarkCompleted(m.st, FiringOf(m.st, "a", KEY_A, RunResult(Success, Null)));
             end == m.(st := Shutdown(RACERS, s), batch := [], stopped := true)
    ensures "b" in end.st.outcomes && end.st.outcomes["b"] == Cancelled
    ensures !Succeeded(end.st.fired, ("b", KEY_B)) && HasEffect(end.effects, ("b", KEY_B))
  {
    assert "b" in RACERS.specs;
    assert EffectPair(end.effects[0]) == ("b", KEY_B);
  }
}
