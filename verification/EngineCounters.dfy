/**
 * The Router counters of a run are those of its attempts: every attempt a Router executed is
 * counted once under its outcome, whether it was retried or completed its pair.
 */
module EngineCounters {
  import opened Prelude
  import opened Net
  import opened ContextModel
  import opened Router
  import opened EngineModel
  import opened EngineQueue
  import opened EngineScheduling
  import opened EngineRuns
  import opened EngineLedger
  import opened EngineRouter
  import opened EngineAnswers

  /** The Router was executed for this completion, not skipped over a bad input. */
  ghost predicate Executed(n: Cpn, t: Id, inputs: seq<TriggerInput>) {
    IsRouter(n, t) && !BadInput(n.specs[t], inputs)
  }

  ghost function OneOutcome(n: Cpn, t: Id, inputs: seq<TriggerInput>, outcome: Outcome): multiset<Outcome> {
    if Executed(n, t, inputs) then multiset{outcome} else multiset{}
  }

  /** The outcomes with which executed Routers completed their pairs. */
  ghost function FinalOutcomes(n: Cpn, fired: seq<Firing>): multiset<Outcome> {
    if fired == [] then multiset{}
    else
      var f := fired[|fired| - 1];
      FinalOutcomes(n, fired[..|fired| - 1]) + OneOutcome(n, f.transition, f.inputs, f.result.outcome)
  }

  ghost function RouterRuns(n: Cpn, retried: map<Pair, seq<RunResult>>): map<Pair, seq<RunResult>> {
    map tk | tk in retried && IsRouter(n, tk.0) :: retried[tk]
  }

  ghost function OutcomeBag(runs: seq<RunResult>): multiset<Outcome> {
    multiset(seq(|runs|, i requires 0 <= i < |runs| => runs[i].outcome))
  }

  /** The outcomes after which Routers were tried again. */
  ghost function RetryOutcomes(n: Cpn, retried: map<Pair, seq<RunResult>>): multiset<Outcome> {
    SumBag(RouterRuns(n, retried), OutcomeBag)
  }

  /** The counters count these outcomes, and nothing else. */
  ghost predicate Counts(metrics: RouterMetrics, outcomes: multiset<Outcome>) {
    && (forall o :: CountOf(metrics, o) == outcomes[o])
    && metrics.executeTotal == |outcomes|
    && metrics.commitTotal == outcomes[Success] && metrics.rollbackTotal == |outcomes| - outcomes[Success]
  }

  /** The counters count the retried, the final and the `open` attempts. */
  ghost predicate Counted(n: Cpn, m: Machine, open: multiset<Outcome>) {
    Counts(m.router, FinalOutcomes(n, m.st.fired) + RetryOutcomes(n, m.st.retried) + open)
  }

  lemma CountsOneMore(before: RouterMetrics, after: RouterMetrics, outcomes: multiset<Outcome>, outcome: Outcome)
    requires Counts(before, outcomes) && OneMore(before, after, outcome)
    ensures Counts(after, outcomes + multiset{outcome})
  {
    hide CountOf;
  }

  lemma AttemptCounted(n: Cpn, m: Machine, t: Id, a: nat, trigger: Trigger, runner: Runner, tick: nat,
                       open: multiset<Outcome>)
    requires Wf(m.ctx) && t in n.specs && Counted(n, m, open)
    requires RunAttempt(m, n.specs[t], a, trigger, runner, tick).Ok?
    ensures var (m', run) := RunAttempt(m, n.specs[t], a, trigger, runner, tick).value;
            Counted(n, m', open + OneOutcome(n, t, trigger.inputs, run.outcome)) && m'.st == m.st
  {
    var spec := n.specs[t];
    var bag := FinalOutcomes(n, m.st.fired) + RetryOutcomes(n, m.st.retried);
    var (m', run) := RunAttempt(m, spec, a, trigger, runner, tick).value;
    if !Skips(spec, trigger) && spec.kind.RouterTo? {
      var call := InSubgraph(runner, spec, a, trigger, tick);
      RouterIsAtomic(m.ctx, spec.kind.subgraph, m.router, call, spec.timeoutMs);
      hide ExecuteRouter, Step, FinalOutcomes, RetryOutcomes, OneMore, Counts, View, Written;
      CountsOneMore(m.router, m'.router, bag + open, run.outcome);
      assert bag + open + multiset{run.outcome} == bag + (open + multiset{run.outcome});
    } else {
      hide FinalOutcomes, RetryOutcomes, Counts, Steps;
      assert open + multiset{} == open;
    }
  }

  lemma FinalOneMore(n: Cpn, fired: seq<Firing>, f: Firing)
    ensures FinalOutcomes(n, fired + [f])
         == FinalOutcomes(n, fired) + OneOutcome(n, f.transition, f.inputs, f.result.outcome)
  {
    assert (fired + [f])[..|fired|] == fired;
  }

  lemma OutcomeBagMore(runs: seq<RunResult>, run: RunResult)
    ensures OutcomeBag(runs + [run]) == OutcomeBag(runs) + multiset{run.outcome}
    ensures OutcomeBag([]) == multiset{}
  {
    var more := runs + [run];
    assert seq(|more|, i requires 0 <= i < |more| => more[i].outcome)
        == seq(|runs|, i requires 0 <= i < |runs| => runs[i].outcome) + [run.outcome];
  }

  lemma RetryOneMore(n: Cpn, retried: map<Pair, seq<RunResult>>, tk: Pair, run: RunResult)
    ensures RetryOutcomes(n, retried[tk := GetOr(retried, tk, []) + [run]])
         == RetryOutcomes(n, retried) + if IsRouter(n, tk.0) then multiset{run.outcome} else multiset{}
  {
    var before := GetOr(retried, tk, []);
    var more := retried[tk := before + [run]];
    OutcomeBagMore(before, run);
    hide OutcomeBag;
    if IsRouter(n, tk.0) {
      assert RouterRuns(n, more) == RouterRuns(n, retried)[tk := before + [run]];
      SumBagSet(RouterRuns(n, retried), OutcomeBag, tk, before + [run]);
      if tk in retried {
        SumBagPeel(RouterRuns(n, retried), OutcomeBag, tk);
      } else {
        assert RouterRuns(n, retried) - {tk} == RouterRuns(n, retried);
      }
    } else {
      assert RouterRuns(n, more) == RouterRuns(n, retried);
    }
  }

  lemma RetryCounted(n: Cpn, m: Machine, tk: Pair, attempt: nat, run: RunResult, open: multiset<Outcome>)
    requires Wf(m.ctx) && tk.0 in n.specs && tk in m.st.cache
    requires Counted(n, m, open + OneOutcome(n, tk.0, m.st.cache[tk], run.outcome))
    requires BadInput(n.specs[tk.0], m.st.cache[tk]) ==> run == RunResult(Skipped, Null)
    requires Retryable(run.outcome) && attempt + 1 <= n.specs[tk.0].maxRetries
    requires Conclude(n, m, n.specs[tk.0], tk, attempt, run).Ok?
    ensures Counted(n, Conclude(n, m, n.specs[tk.0], tk, attempt, run).value, open)
  {
    var one := OneOutcome(n, tk.0, m.st.cache[tk], run.outcome);
    RetryFields(n, m, n.specs[tk.0], tk, attempt, run);
    RetryOneMore(n, m.st.retried, tk, run);
    ConcludeKeepsRouter(n, m, tk, attempt, run);
    assert one == if IsRouter(n, tk.0) then multiset{run.outcome} else multiset{};
    hide *;
    var final, retry := FinalOutcomes(n, m.st.fired), RetryOutcomes(n, m.st.retried);
    assert final + (retry + one) + open == final + retry + (open + one);
    SameSum(n, m, Conclude(n, m, n.specs[tk.0], tk, attempt, run).value, open + one, open);
  }

  lemma CompletionCounted(n: Cpn, m: Machine, tk: Pair, attempt: nat, run: RunResult, open: multiset<Outcome>)
    requires Wf(m.ctx) && tk.0 in n.specs && tk in m.st.cache
    requires Counted(n, m, open + OneOutcome(n, tk.0, m.st.cache[tk], run.outcome))
    requires !(Retryable(run.outcome) && attempt + 1 <= n.specs[tk.0].maxRetries)
    requires Conclude(n, m, n.specs[tk.0], tk, attempt, run).Ok?
    ensures Counted(n, Conclude(n, m, n.specs[tk.0], tk, attempt, run).value, open)
  {
    hide Conclude, Counted, FinalOutcomes, RetryOutcomes, OneOutcome, Retryable;
    var one := OneOutcome(n, tk.0, m.st.cache[tk], run.outcome);
    CompleteFields(n, m, n.specs[tk.0], tk, attempt, run);
    FinalOneMore(n, m.st.fired, FiringOf(m.st, tk.0, tk.1, run));
    ConcludeKeepsRouter(n, m, tk, attempt, run);
    assert GetOr(m.st.cache, tk, []) == m.st.cache[tk];
    var final, retry := FinalOutcomes(n, m.st.fired), RetryOutcomes(n, m.st.retried);
    assert final + one + retry + open == final + retry + (open + one);
    SameSum(n, m, Conclude(n, m, n.specs[tk.0], tk, attempt, run).value, open + one, open);
  }

  lemma SameSum(n: Cpn, m: Machine, z: Machine, open: multiset<Outcome>, open': multiset<Outcome>)
    requires Counted(n, m, open) && z.router == m.router
    requires FinalOutcomes(n, z.st.fired) + RetryOutcomes(n, z.st.retried) + open'
          == FinalOutcomes(n, m.st.fired) + RetryOutcomes(n, m.st.retried) + open
    ensures Counted(n, z, open')
  {
    hide FinalOutcomes, RetryOutcomes, Counts;
  }

  /** Concluding an attempt turns it from an open one into a retried or a final one. */
  lemma ConcludeCounted(n: Cpn, m: Machine, tk: Pair, attempt: nat, run: RunResult, open: multiset<Outcome>)
    requires Wf(m.ctx) && tk.0 in n.specs && tk in m.st.cache
    requires Counted(n, m, open + OneOutcome(n, tk.0, m.st.cache[tk], run.outcome))
    requires BadInput(n.specs[tk.0], m.st.cache[tk]) ==> run == RunResult(Skipped, Null)
    requires Conclude(n, m, n.specs[tk.0], tk, attempt, run).Ok?
    ensures Counted(n, Conclude(n, m, n.specs[tk.0], tk, attempt, run).value, open)
  {
    hide Counted, Conclude, OneOutcome, BadInput;
    if Retryable(run.outcome) && attempt + 1 <= n.specs[tk.0].maxRetries {
      RetryCounted(n, m, tk, attempt, run, open);
    } else {
      CompletionCounted(n, m, tk, attempt, run, open);
    }
  }

  lemma ConcludeKeepsRouter(n: Cpn, m: Machine, tk: Pair, attempt: nat, run: RunResult)
    requires Wf(m.ctx) && tk.0 in n.specs && Conclude(n, m, n.specs[tk.0], tk, attempt, run).Ok?
    ensures Conclude(n, m, n.specs[tk.0], tk, attempt, run).value.router == m.router
  {
    hide Complete, PushReady;
  }

  lemma SameCounted(n: Cpn, m: Machine, z: Machine, open: multiset<Outcome>)
    requires Counted(n, m, open) && z.router == m.router && z.st.fired == m.st.fired && z.st.retried == m.st.retried
    ensures Counted(n, z, open)
  {
    hide Counts, FinalOutcomes, RetryOutcomes;
  }

  lemma ItemCounted(n: Cpn, runner: Runner, m: Machine)
    requires WfNet(n) && Mid(n, m, {}, {}) && m.batch != [] && Counted(n, m, multiset{})
    ensures var r := ProcessItem(n, runner, m.(batch := m.batch[1..]), m.batch[0]);
            r.Ok? ==> Counted(n, r.value, multiset{})
  {
    hide Mid, WfNet, EnsureTrigger, RunAttempt, Counted, Conclude, Executed;
    var tk := ItemPair(m.batch[0]);
    UnqueueMid(n, m);
    var m0 := m.(batch := m.batch[1..], st := m.st.(readySet := m.st.readySet - {tk}));
    MidContext(n, m0, {tk}, {});
    StartSafe(n, m0, {tk}, {}, tk);
    var (s1, trigger) := EnsureTrigger(n, m0.st, tk.0, tk.1).value;
    var m1 := Started(m0, s1, tk.0);
    SameCounted(n, m, m1, multiset{});
    var attempt := GetOr(m0.st.attempts, tk, 0);
    if ProcessItem(n, runner, m.(batch := m.batch[1..]), m.batch[0]).Ok? {
      AttemptCounted(n, m1, tk.0, attempt, trigger, runner, |s1.order|, multiset{});
      AttemptSafe(m1, n.specs[tk.0], attempt, trigger, runner, |s1.order|);
      var (m2, run) := RunAttempt(m1, n.specs[tk.0], attempt, trigger, runner, |s1.order|).value;
      ConcludeCounted(n, m2, tk, attempt, run, multiset{});
    }
  }

  // ------------------------------------------------------------- the parallel path

  /** The outcomes of the jobs that executed a Router. */
  ghost function JobOutcomes(n: Cpn, jobs: seq<Job>): multiset<Outcome> {
    if jobs == [] then multiset{}
    else
      var j := jobs[0];
      JobOutcomes(n, jobs[1..])
      + if j.run.Some? then OneOutcome(n, j.tk.0, j.trigger.inputs, j.run.value.outcome) else multiset{}
  }

  lemma {:induction false} JobOutcomesAppend(n: Cpn, x: seq<Job>, y: seq<Job>)
    ensures JobOutcomes(n, x + y) == JobOutcomes(n, x) + JobOutcomes(n, y)
  {
    if x == [] {
      assert x + y == y;
    } else {
      assert (x + y)[1..] == x[1..] + y;
      JobOutcomesAppend(n, x[1..], y);
    }
  }

  lemma OneJob(n: Cpn, j: Job)
    ensures JobOutcomes(n, [j])
         == if j.run.Some? then OneOutcome(n, j.tk.0, j.trigger.inputs, j.run.value.outcome) else multiset{}
  {
    assert [j][1..] == [];
  }

  /** Router jobs are settled when they are built, and skipped ones are marked so. */
  ghost predicate Settles(n: Cpn, j: Job) {
    && j.tk.0 in n.specs && j.spec == n.specs[j.tk.0]
    && (IsRouter(n, j.tk.0) ==> j.run.Some?)
    && (BadInput(j.spec, j.trigger.inputs) ==> j.run == Some(RunResult(Skipped, Null)))
  }

  lemma BuildCounted(n: Cpn, runner: Runner, m: Machine, fly: set<Pair>, paid: set<Pair>, item: ReadyItem,
                     open: multiset<Outcome>)
    requires WfNet(n) && Mid(n, m, fly, paid) && ItemPair(item) in fly && ItemPair(item) !in paid
    requires Counted(n, m, open)
    ensures var r := BuildJob(n, runner, m, item);
            r.Ok? ==> && Counted(n, r.value.0, open + JobOutcomes(n, r.value.1))
                      && forall j :: j in r.value.1 ==> Settles(n, j)
  {
    hide Mid, WfNet, EnsureTrigger, RunAttempt, Counted, JobOutcomes, OneOutcome;
    var tk := ItemPair(item);
    MidContext(n, m, fly, paid);
    StartSafe(n, m, fly, paid, tk);
    if BuildJob(n, runner, m, item).Ok? {
      var (s1, trigger) := EnsureTrigger(n, m.st, tk.0, tk.1).value;
      var m1 := Started(m, s1, tk.0);
      var spec, attempt := n.specs[tk.0], GetOr(m.st.attempts, tk, 0);
      SameCounted(n, m, m1, open);
      if Skips(spec, trigger) || spec.kind.RouterTo? {
        AttemptCounted(n, m1, tk.0, attempt, trigger, runner, |s1.order|, open);
        AttemptSafe(m1, spec, attempt, trigger, runner, |s1.order|);
        var run := RunAttempt(m1, spec, attempt, trigger, runner, |s1.order|).value.1;
        var job := Job(tk, spec, attempt, trigger, Some(run));
        OneJob(n, job);
      } else {
        var job := Job(tk, spec, attempt, trigger, None);
        OneJob(n, job);
        assert open + multiset{} == open;
      }
    }
  }

  lemma {:induction false} BuildAllCounted(n: Cpn, runner: Runner, m: Machine, fly: set<Pair>, paid: set<Pair>,
                                           items: seq<ReadyItem>, open: multiset<Outcome>)
    requires WfNet(n) && Mid(n, m, fly, paid) && DistinctKeys(items)
    requires ItemPairs(items) <= fly && ItemPairs(items) !! paid && Counted(n, m, open)
    ensures var r := BuildJobs(n, runner, m, items);
            r.Ok? ==> && Counted(n, r.value.0, open + JobOutcomes(n, r.value.1))
                      && forall j :: j in r.value.1 ==> Settles(n, j)
    decreases |items|
  {
    hide Mid, WfNet, BuildJob, JobOk, Counted, Settles, OneOutcome;
    MidContext(n, m, fly, paid);
    if items == [] {
      assert open + JobOutcomes(n, []) == open;
    } else {
      HeadApart(items, fly, paid);
      BuildCounted(n, runner, m, fly, paid, items[0], open);
      BuiltOne(n, runner, m, fly, paid, items[0]);
      hide DistinctKeys, ItemPairs, JobOutcomes;
      if BuildJob(n, runner, m, items[0]).Ok? {
        var (m1, first) := BuildJob(n, runner, m, items[0]).value;
        assert Mid(n, m1, fly, paid + {ItemPair(items[0])});
        hide Built;
        BuildAllCounted(n, runner, m1, fly, paid + {ItemPair(items[0])}, items[1..], open + JobOutcomes(n, first));
        if BuildJobs(n, runner, m1, items[1..]).Ok? {
          var rest := BuildJobs(n, runner, m1, items[1..]).value.1;
          JobOutcomesAppend(n, first, rest);
          assert open + JobOutcomes(n, first) + JobOutcomes(n, rest) == open + JobOutcomes(n, first + rest);
        }
      }
    }
  }

  lemma {:induction false} RunAllCounted(n: Cpn, runner: Runner, m: Machine, jobs: seq<Job>, tick: nat,
                                         open: multiset<Outcome>)
    requires Wf(m.ctx) && Counted(n, m, open) && forall j :: j in jobs ==> Settles(n, j)
    ensures var r := RunJobs(runner, m, jobs, tick);
            r.Ok? ==> && Counted(n, r.value.0, open)
                      && forall i :: 0 <= i < |jobs| && jobs[i].run.Some? ==> r.value.1[i] == jobs[i].run.value
    decreases |jobs|
  {
    hide RunAttempt, Counted, BadInput;
    if jobs != [] {
      var j := jobs[0];
      assert j in jobs && forall x :: x in jobs[1..] ==> x in jobs;
      var m1 := m;
      if j.run.None? {
        assert Settles(n, j);
        if RunAttempt(m, j.spec, j.attempt, j.trigger, runner, tick).Err? {
          return;
        }
        AttemptCounted(n, m, j.tk.0, j.attempt, j.trigger, runner, tick, open);
        assert open + multiset{} == open;
        m1 := RunAttempt(m, j.spec, j.attempt, j.trigger, runner, tick).value.0;
      }
      RunAllCounted(n, runner, m1, jobs[1..], tick + 1, open);
    }
  }

  /** The jobs hold their trigger's inputs. */
  ghost predicate HoldTheirs(s: State, jobs: seq<Job>) {
    forall i :: 0 <= i < |jobs| ==> jobs[i].tk in s.cache && jobs[i].trigger.inputs == s.cache[jobs[i].tk]
  }

  lemma HoldTail(s: State, s': State, jobs: seq<Job>)
    requires HoldTheirs(s, jobs) && jobs != [] && OthersKept(s, s', jobs[0].tk)
    requires forall i, j :: 0 <= i < j < |jobs| ==> jobs[i].tk.1 != jobs[j].tk.1
    ensures HoldTheirs(s', jobs[1..])
  {
    forall i | 0 <= i < |jobs[1..]|
      ensures jobs[1..][i].tk in s'.cache && s'.cache[jobs[1..][i].tk] == s.cache[jobs[i + 1].tk]
    {
      var o := jobs[i + 1].tk;
      assert o != jobs[0].tk;
      assert GetOr(s.cache, o, []) == GetOr(s'.cache, o, []);
    }
  }

  lemma {:induction false} MergeCounted(n: Cpn, m: Machine, jobs: seq<Job>, runs: seq<RunResult>)
    requires WfNet(n) && Mid(n, m, JobPairs(jobs), JobPairs(jobs)) && Mergeable(n, m.st, jobs, runs)
    requires |jobs| == |runs| && HoldTheirs(m.st, jobs) && Counted(n, m, JobOutcomes(n, jobs))
    requires forall j :: j in jobs ==> Settles(n, j)
    requires forall i :: 0 <= i < |jobs| && jobs[i].run.Some? ==> runs[i] == jobs[i].run.value
    ensures var r := MergeJobs(n, m, jobs, runs);
            r.Ok? ==> exists open :: Counted(n, r.value, open) && (r.value.stopped || open == multiset{})
    decreases |jobs|
  {
    hide Mid, Over, WfNet, Conclude, OthersKept, Counted, Executed, Mergeable, JobPairs, JobOk, BadInput;
    MidContext(n, m, JobPairs(jobs), JobPairs(jobs));
    MergeableShape(n, m.st, jobs, runs);
    if jobs == [] {
      assert Counted(n, m, multiset{});
    } else {
      var j := jobs[0];
      var rest := JobOutcomes(n, jobs[1..]);
      assert j in jobs && forall x :: x in jobs[1..] ==> x in jobs;
      MergeableTailKeys(n, m.st, jobs, runs);
      ConcludeSafe(n, m, JobPairs(jobs), JobPairs(jobs), j.tk, j.attempt, runs[0]);
      assert Settles(n, j);
      JobCounted(n, jobs, runs);
      ConcludeCounted(n, m, j.tk, j.attempt, runs[0], rest);
      var m1 := Conclude(n, m, j.spec, j.tk, j.attempt, runs[0]).value;
      if m1.stopped {
        assert MergeJobs(n, m1, jobs[1..], runs[1..]) == Ok(m1);
        assert Counted(n, m1, rest);
      } else {
        MergeableTail(n, m.st, m1.st, jobs, runs);
        DistinctJobs(n, m.st, jobs, runs);
        HoldTail(m.st, m1.st, jobs);
        hide HoldTheirs, Settles, JobOutcomes;
        MergeCounted(n, m1, jobs[1..], runs[1..]);
      }
    }
  }

  lemma DistinctJobs(n: Cpn, s: State, jobs: seq<Job>, runs: seq<RunResult>)
    requires Mergeable(n, s, jobs, runs)
    ensures forall i, j :: 0 <= i < j < |jobs| ==> jobs[i].tk.1 != jobs[j].tk.1
  {}

  /** The first job's share of the open outcomes. */
  lemma JobCounted(n: Cpn, jobs: seq<Job>, runs: seq<RunResult>)
    requires jobs != [] && |jobs| == |runs| && Settles(n, jobs[0])
    requires jobs[0].run.Some? ==> runs[0] == jobs[0].run.value
    ensures JobOutcomes(n, jobs)
         == JobOutcomes(n, jobs[1..]) + OneOutcome(n, jobs[0].tk.0, jobs[0].trigger.inputs, runs[0].outcome)
  {
  }

  lemma JobsHoldTheirs(n: Cpn, s: State, jobs: seq<Job>)
    requires forall j :: j in jobs ==> JobOk(n, s, j)
    ensures HoldTheirs(s, jobs)
  {
    forall i | 0 <= i < |jobs| ensures JobOk(n, s, jobs[i]) {
      assert jobs[i] in jobs;
    }
  }

  lemma RoundCounted(n: Cpn, cfg: Config, runner: Runner, m: Machine)
    requires WfNet(n) && Mid(n, m, {}, {}) && m.batch == [] && Counted(n, m, multiset{})
    ensures var r := ParallelRound(n, cfg, runner, m);
            r.Ok? ==> exists open :: Counted(n, r.value, open) && (r.value.stopped || open == multiset{})
  {
    hide Mid, WfNet, BuildJobs, RunJobs, MergeJobs, ParallelBatch, Mergeable, JobOk, Counted, Settles, HoldTheirs,
         JobOutcomes;
    MidContext(n, m, {}, {});
    var m2, jobs, runs := RoundJobs(n, cfg, runner, m);
    if ParallelRound(n, cfg, runner, m).Ok? {
      var batch := ParallelBatch(m.st.ready, cfg.maxConcurrency);
      var m0, fly := Emptied(m), ItemPairs(batch);
      ParallelBatchFacts(m.st.ready, cfg.maxConcurrency);
      DrainMid(n, m, cfg.maxConcurrency);
      SameCounted(n, m, m0, multiset{});
      BuildAllCounted(n, runner, m0, fly, {}, batch, multiset{});
      BuildAllSafe(n, runner, m0, fly, {}, batch);
      var m1 := BuildJobs(n, runner, m0, batch).value.0;
      assert multiset{} + JobOutcomes(n, jobs) == JobOutcomes(n, jobs);
      RunAllCounted(n, runner, m1, jobs, |m1.st.order|, JobOutcomes(n, jobs));
      JobsHoldTheirs(n, m2.st, jobs);
      MergeCounted(n, m2, jobs, runs);
    }
  }

  // -------------------------------------------------------------------- whole runs

  lemma FreshCounted(n: Cpn, ctx: Store)
    requires WfNet(n)
    ensures Start(n, ctx).Ok? && Counted(n, Start(n, ctx).value, multiset{})
  {
    StartShape(n, ctx);
    hide Start, EnqueueRoots, WfNet;
    var none: map<Pair, seq<RunResult>> := map[];
    assert RouterRuns(n, none) == none;
    SumBagEmpty(none, OutcomeBag);
  }

  /**
   * At every turn of every run the Router counters are those of the attempts Routers executed: one
   * for each completion not skipped over a bad input and each retry, under its outcome. Only a
   * parallel round that a Terminal cuts short counts more.
   */
  lemma {:induction false} RouterCounters(n: Cpn, cfg: Config, runner: Runner, ctx: Store, i: nat)
    requires WfNet(n) && Wf(ctx) && Run(n, cfg, runner, ctx, i).Ok?
    ensures var m := Run(n, cfg, runner, ctx, i).value;
            exists open ::
              Counted(n, m, open) && (!m.stopped || cfg.maxConcurrency <= 1 ==> open == multiset{})
  {
    hide Mid, Over, WfNet, ProcessItem, NextBatch, ParallelRound, Start, Counted;
    RunSafe(n, cfg, runner, ctx, i);
    if i == 0 {
      FreshCounted(n, ctx);
    } else {
      RouterCounters(n, cfg, runner, ctx, i - 1);
      RunSafe(n, cfg, runner, ctx, i - 1);
      var m := Run(n, cfg, runner, ctx, i - 1).value;
      if !Halted(m) {
        TurnCounted(n, cfg, runner, m);
      }
    }
  }

  lemma TurnCounted(n: Cpn, cfg: Config, runner: Runner, m: Machine)
    requires WfNet(n) && Mid(n, m, {}, {}) && !Halted(m) && Counted(n, m, multiset{})
    ensures var r := Turn(n, cfg, runner, m);
            r.Ok? ==> exists open :: Counted(n, r.value, open)
                                     && (!r.value.stopped || cfg.maxConcurrency <= 1 ==> open == multiset{})
  {
    hide Mid, WfNet, ProcessItem, NextBatch, ParallelRound, Counted;
    MidContext(n, m, {}, {});
    if Turn(n, cfg, runner, m).Ok? {
      var none: multiset<Outcome> := multiset{};
      if m.batch != [] {
        ItemCounted(n, runner, m);
        assert Counted(n, Turn(n, cfg, runner, m).value, none);
      } else if cfg.maxConcurrency <= 1 {
        SameCounted(n, m, Turn(n, cfg, runner, m).value, none);
      } else {
        RoundCounted(n, cfg, runner, m);
      }
    }
  }
}
