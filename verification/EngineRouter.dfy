/**
 * Router transitions stay atomic through retries, over every run. The one thing that can go wrong
 * is named exactly: a parallel round commits its Routers before it merges, so a Router whose
 * commit lies behind a Terminal in such a round is recorded as cancelled with its writes kept.
 */
module EngineRouter {
  import opened Prelude
  import opened Net
  import opened ContextModel
  import opened Router
  import opened EngineModel
  import opened EngineSafety
  import opened EngineQueue
  import opened EngineScheduling
  import opened EngineRuns
  import opened EngineWakeups

  predicate IsRouter(n: Cpn, t: Id) { t in n.specs && n.specs[t].kind.RouterTo? }

  function EffectPair(e: Effect): Pair { (e.transition, e.key) }

  /** The view after the recorded effects, in order. */
  function Applied(view: Slots, effects: seq<Effect>): Slots {
    if effects == [] then view
    else Written(Applied(view, effects[..|effects| - 1]), effects[|effects| - 1].ops)
  }

  ghost predicate Succeeded(fired: seq<Firing>, tk: Pair) {
    exists j :: 0 <= j < |fired| && PairOf(fired[j]) == tk && fired[j].result.outcome == Success
  }

  ghost predicate HasEffect(effects: seq<Effect>, tk: Pair) {
    exists j :: 0 <= j < |effects| && EffectPair(effects[j]) == tk
  }

  /**
   * A Router pair has at most one lasting attempt. It has one if it succeeded, and has one without
   * having succeeded exactly if it is in `cut`.
   */
  ghost predicate RoutedBut(n: Cpn, effects: seq<Effect>, fired: seq<Firing>, cut: set<Pair>) {
    && (forall i, j :: 0 <= i < j < |effects| && IsRouter(n, effects[i].transition) ==>
          EffectPair(effects[i]) != EffectPair(effects[j]))
    && (forall tk: Pair :: IsRouter(n, tk.0) ==>
          && (Succeeded(fired, tk) ==> HasEffect(effects, tk))
          && (HasEffect(effects, tk) && !Succeeded(fired, tk) <==> tk in cut))
  }

  /** The context shows exactly the recorded effects, and all counters agree. */
  ghost predicate Accounted(ctx: Store, m: Machine) {
    && View(m.ctx) == Applied(View(ctx), m.effects)
    && Balanced(m.router) && m.ctx.rollbackTotal - ctx.rollbackTotal == m.router.rollbackTotal
  }

  lemma AppliedNone(view: Slots)
    ensures Applied(view, []) == view
  {
  }

  lemma AppliedSnoc(view: Slots, effects: seq<Effect>, e: Effect)
    ensures Applied(view, effects + [e]) == Written(Applied(view, effects), e.ops)
  {
    assert (effects + [e])[..|effects|] == effects;
  }

  lemma InnerView(s: Store, ops: seq<Op>)
    requires Wf(s) && forall op :: op in ops ==> Inner(op)
    ensures View(Steps(s, ops)) == Written(View(s), ops)
  {
    StepsRefine(s, ops);
    InnerSteps(Abs(s), ops);
  }

  /** One attempt: its writes last unless it is an unsuccessful Router attempt. */
  lemma AttemptAccounted(
    n: Cpn, ctx: Store, m: Machine, spec: ExecSpec, attempt: nat, trigger: Trigger, runner: Runner, tick: nat)
    requires Wf(m.ctx) && Accounted(ctx, m)
    requires RunAttempt(m, spec, attempt, trigger, runner, tick).Ok?
    ensures var (m', run) := RunAttempt(m, spec, attempt, trigger, runner, tick).value;
            && Accounted(ctx, m')
            && (m'.effects == m.effects
                || exists ops :: m'.effects == m.effects + [Effect(spec.transition.id, trigger.key, ops)])
            && (spec.kind.RouterTo? ==> (m'.effects != m.effects <==> run.outcome == Success))
  {
    hide View, Applied, Balanced;
    if !Skips(spec, trigger) {
      match spec.kind
      case RouterTo(subgraph) =>
        var run := InSubgraph(runner, spec, attempt, trigger, tick);
        RouterIsAtomic(m.ctx, subgraph, m.router, run, spec.timeoutMs);
        assert m.effects + [] == m.effects;
        AppliedSnoc(View(ctx), m.effects,
                    Effect(spec.transition.id, trigger.key, run(Step(m.ctx, Begin(subgraph)).0).ops));
      case Gate =>
      case _ =>
        var ops := runner(spec, attempt, trigger, m.ctx, tick).ops;
        assert forall op :: op in ops ==> Inner(op);
        InnerView(m.ctx, ops);
        InnerStepsFrame(m.ctx, ops);
        AppliedSnoc(View(ctx), m.effects, Effect(spec.transition.id, trigger.key, ops));
    }
  }

  lemma CompleteFires(n: Cpn, s: State, tk: Pair, run: RunResult)
    requires Complete(n, s, tk.0, tk.1, run).Ok?
    ensures Complete(n, s, tk.0, tk.1, run).value.fired == s.fired + [FiringOf(s, tk.0, tk.1, run)]
  {
    var f := FiringOf(s, tk.0, tk.1, run);
    EmitFrames(n, MarkCompleted(s, f), f, Out(n, tk.0));
  }

  lemma SkipView(ctx: Store, t: Id)
    requires Wf(ctx)
    ensures Wf(ctx.(skipped := ctx.skipped + {t})) && View(ctx.(skipped := ctx.skipped + {t})) == View(ctx)
  {
  }

  lemma PushKeepsFired(n: Cpn, s: State, tk: Pair)
    requires PushReady(n, s, tk.0, tk.1, true).Ok?
    ensures PushReady(n, s, tk.0, tk.1, true).value.fired == s.fired
  {
  }

  lemma ConcludeAccounted(n: Cpn, ctx: Store, m: Machine, spec: ExecSpec, tk: Pair, attempt: nat, run: RunResult)
    requires Wf(m.ctx) && Accounted(ctx, m) && Conclude(n, m, spec, tk, attempt, run).Ok?
    ensures var m' := Conclude(n, m, spec, tk, attempt, run).value;
            && Accounted(ctx, m') && m'.effects == m.effects
            && m'.st.fired == (if Retryable(run.outcome) && attempt + 1 <= spec.maxRetries then m.st.fired
                               else m.st.fired + [FiringOf(m.st, tk.0, tk.1, run)])
  {
    hide Applied, Complete, PushReady, View;
    SkipView(m.ctx, tk.0);
    if Retryable(run.outcome) && attempt + 1 <= spec.maxRetries {
      PushKeepsFired(n, Requeued(m.st, tk, attempt, run), tk);
    }
    if !(Retryable(run.outcome) && attempt + 1 <= spec.maxRetries) {
      CompleteFires(n, m.st, tk, run);
    }
  }

  /** A Router pair that has not fired gets its lasting attempt; until it fires it is in the cut. */
  lemma EffectStep(n: Cpn, effects: seq<Effect>, fired: seq<Firing>, effects': seq<Effect>, cut: set<Pair>, tk: Pair)
    requires RoutedBut(n, effects, fired, cut) && !HasFired(fired, tk) && tk !in cut
    requires effects' == effects || exists ops :: effects' == effects + [Effect(tk.0, tk.1, ops)]
    ensures RoutedBut(n, effects', fired, if IsRouter(n, tk.0) && effects' != effects then cut + {tk} else cut)
  {
    if effects' != effects {
      var cut' := if IsRouter(n, tk.0) then cut + {tk} else cut;
      assert !Succeeded(fired, tk);
      forall o: Pair ensures HasEffect(effects', o) <==> HasEffect(effects, o) || o == tk {
        if HasEffect(effects, o) {
          var j :| 0 <= j < |effects| && EffectPair(effects[j]) == o;
          assert effects'[j] == effects[j];
        }
        assert EffectPair(effects'[|effects|]) == tk;
      }
      forall i, j | 0 <= i < j < |effects'| && IsRouter(n, effects'[i].transition)
        ensures EffectPair(effects'[i]) != EffectPair(effects'[j])
      {
        assert j == |effects| ==> EffectPair(effects[i]) != tk || HasEffect(effects, tk);
      }
    }
  }

  /** The pair fires: a Router with a lasting attempt as Success, one without as something else. */
  lemma FireStep(n: Cpn, effects: seq<Effect>, fired: seq<Firing>, f: Firing, cut: set<Pair>)
    requires RoutedBut(n, effects, fired, cut) && !HasFired(fired, PairOf(f))
    requires IsRouter(n, f.transition) ==> (PairOf(f) in cut <==> f.result.outcome == Success)
    ensures RoutedBut(n, effects, fired + [f], cut - {PairOf(f)})
  {
    var fired' := fired + [f];
    var tk := PairOf(f);
    assert !Succeeded(fired, tk);
    forall o: Pair ensures Succeeded(fired', o) <==> Succeeded(fired, o) || (o == tk && f.result.outcome == Success) {
      if Succeeded(fired, o) {
        var i :| 0 <= i < |fired| && PairOf(fired[i]) == o && fired[i].result.outcome == Success;
        assert fired'[i] == fired[i];
      }
      assert fired'[|fired|] == f;
    }
  }

  lemma MidUnfired(n: Cpn, m: Machine, fly: set<Pair>, paid: set<Pair>, tk: Pair)
    requires WfNet(n) && Mid(n, m, fly, paid) && tk in fly
    ensures !HasFired(m.st.fired, tk) && tk.0 in n.specs && n.specs[tk.0].transition.id == tk.0
  {
    assert KeyOk(n, tk);
  }

  /** Whether the attempt is over for good, or is tried again. */
  predicate Concludes(spec: ExecSpec, attempt: nat, run: RunResult) {
    !(Retryable(run.outcome) && attempt + 1 <= spec.maxRetries)
  }

  lemma ConcludeRouted(n: Cpn, ctx: Store, m: Machine, spec: ExecSpec, tk: Pair, attempt: nat, run: RunResult,
                       cut: set<Pair>)
    requires Wf(m.ctx) && Accounted(ctx, m) && Conclude(n, m, spec, tk, attempt, run).Ok?
    requires RoutedBut(n, m.effects, m.st.fired, cut) && !HasFired(m.st.fired, tk)
    requires IsRouter(n, tk.0) ==> (tk in cut <==> run.outcome == Success)
    requires !IsRouter(n, tk.0) ==> tk !in cut
    ensures var m' := Conclude(n, m, spec, tk, attempt, run).value;
            Accounted(ctx, m') && RoutedBut(n, m'.effects, m'.st.fired, cut - {tk})
  {
    hide RoutedBut, Accounted, Conclude, HasFired;
    ConcludeAccounted(n, ctx, m, spec, tk, attempt, run);
    if Concludes(spec, attempt, run) {
      FireStep(n, m.effects, m.st.fired, FiringOf(m.st, tk.0, tk.1, run), cut);
    } else {
      assert cut - {tk} == cut;
    }
  }

  lemma ItemAccounted(n: Cpn, runner: Runner, ctx: Store, m: Machine)
    requires WfNet(n) && Mid(n, m, {}, {}) && m.batch != []
    requires Accounted(ctx, m) && RoutedBut(n, m.effects, m.st.fired, {})
    ensures var r := ProcessItem(n, runner, m.(batch := m.batch[1..]), m.batch[0]);
            r.Ok? ==> Accounted(ctx, r.value) && RoutedBut(n, r.value.effects, r.value.st.fired, {})
  {
    hide WfNet, Mid, EnsureTrigger, RunAttempt, Conclude, RoutedBut, View, Applied, Balanced, HasFired;
    var tk := ItemPair(m.batch[0]);
    UnqueueMid(n, m);
    var m0 := m.(batch := m.batch[1..], st := m.st.(readySet := m.st.readySet - {tk}));
    MidUnfired(n, m0, {tk}, {}, tk);
    StartSafe(n, m0, {tk}, {}, tk);
    MidContext(n, m0, {tk}, {});
    var (s1, trigger) := EnsureTrigger(n, m0.st, tk.0, tk.1).value;
    var m1 := Started(m0, s1, tk.0);
    var spec, attempt := n.specs[tk.0], GetOr(m0.st.attempts, tk, 0);
    if ProcessItem(n, runner, m.(batch := m.batch[1..]), m.batch[0]).Ok? {
      AttemptAccounted(n, ctx, m1, spec, attempt, trigger, runner, |s1.order|);
      var (m2, run) := RunAttempt(m1, spec, attempt, trigger, runner, |s1.order|).value;
      EffectStep(n, m.effects, m.st.fired, m2.effects, {}, tk);
      var cut := if IsRouter(n, tk.0) && m2.effects != m.effects then {} + {tk} else {};
      ConcludeRouted(n, ctx, m2, spec, tk, attempt, run, cut);
      assert cut - {tk} == {};
    }
  }

  // ------------------------------------------------------------------- the parallel path

  /** The Router jobs that have committed their writes and wait for the merge. */
  ghost function Committed(n: Cpn, jobs: seq<Job>): set<Pair> {
    set j | j in jobs && IsRouter(n, j.tk.0) && j.run.Some? && j.run.value.outcome == Success :: j.tk
  }

  lemma BuildAccounted(n: Cpn, ctx: Store, runner: Runner, m: Machine, fly: set<Pair>, paid: set<Pair>, item: ReadyItem,
                       cut: set<Pair>)
    requires WfNet(n) && Mid(n, m, fly, paid) && ItemPair(item) in fly && ItemPair(item) !in paid && cut <= paid
    requires Accounted(ctx, m) && RoutedBut(n, m.effects, m.st.fired, cut)
    ensures var r := BuildJob(n, runner, m, item);
            r.Ok? ==> && Accounted(ctx, r.value.0) && r.value.0.st.fired == m.st.fired
                      && RoutedBut(n, r.value.0.effects, m.st.fired, cut + Committed(n, r.value.1))
                      && forall j :: j in r.value.1 && IsRouter(n, j.tk.0) ==> j.run.Some?
  {
    hide WfNet, Mid, EnsureTrigger, RunAttempt, RoutedBut, View, Applied, Balanced, HasFired, Skips;
    var tk := ItemPair(item);
    MidUnfired(n, m, fly, paid, tk);
    StartSafe(n, m, fly, paid, tk);
    var (s1, trigger) := EnsureTrigger(n, m.st, tk.0, tk.1).value;
    var m1 := Started(m, s1, tk.0);
    var spec, attempt := n.specs[tk.0], GetOr(m.st.attempts, tk, 0);
    MidContext(n, m, fly, paid);
    if BuildJob(n, runner, m, item).Ok? {
      if Skips(spec, trigger) || spec.kind.RouterTo? {
        AttemptAccounted(n, ctx, m1, spec, attempt, trigger, runner, |s1.order|);
        var (m2, run) := RunAttempt(m1, spec, attempt, trigger, runner, |s1.order|).value;
        EffectStep(n, m.effects, m.st.fired, m2.effects, cut, tk);
        var job := Job(tk, spec, attempt, trigger, Some(run));
        assert Committed(n, [job]) == if IsRouter(n, tk.0) && run.outcome == Success then {tk} else {};
      } else {
        var job := Job(tk, spec, attempt, trigger, None);
        assert Committed(n, [job]) == {};
      }
      assert cut + {} == cut;
    }
  }

  lemma {:induction false} BuildAllAccounted(
    n: Cpn, ctx: Store, runner: Runner, m: Machine, fly: set<Pair>, paid: set<Pair>, items: seq<ReadyItem>,
    cut: set<Pair>)
    requires WfNet(n) && Mid(n, m, fly, paid) && DistinctKeys(items)
    requires ItemPairs(items) <= fly && ItemPairs(items) !! paid && cut <= paid
    requires Accounted(ctx, m) && RoutedBut(n, m.effects, m.st.fired, cut)
    ensures var r := BuildJobs(n, runner, m, items);
            r.Ok? ==> && Accounted(ctx, r.value.0) && r.value.0.st.fired == m.st.fired
                      && RoutedBut(n, r.value.0.effects, m.st.fired, cut + Committed(n, r.value.1))
                      && forall j :: j in r.value.1 && IsRouter(n, j.tk.0) ==> j.run.Some?
    decreases |items|
  {
    hide Mid, WfNet, BuildJob, JobOk, RoutedBut, Accounted;
    MidContext(n, m, fly, paid);
    if items == [] {
      assert cut + Committed(n, []) == cut;
    } else {
      var head := ItemPair(items[0]);
      HeadApart(items, fly, paid);
      BuildAccounted(n, ctx, runner, m, fly, paid, items[0], cut);
      BuiltOne(n, runner, m, fly, paid, items[0]);
      hide DistinctKeys, ItemPairs;
      if BuildJob(n, runner, m, items[0]).Ok? {
        var (m1, first) := BuildJob(n, runner, m, items[0]).value;
        assert Mid(n, m1, fly, paid + {head});
        assert Committed(n, first) <= {head} by { assert |first| == 1 && first[0].tk == head; }
        hide Built;
        BuildAllAccounted(n, ctx, runner, m1, fly, paid + {head}, items[1..], cut + Committed(n, first));
        if BuildJobs(n, runner, m1, items[1..]).Ok? {
          var rest := BuildJobs(n, runner, m1, items[1..]).value.1;
          assert cut + Committed(n, first) + Committed(n, rest) == cut + Committed(n, first + rest);
        }
      }
    }
  }

  lemma {:induction false} RunAllAccounted(
    n: Cpn, ctx: Store, runner: Runner, m: Machine, jobs: seq<Job>, tick: nat, cut: set<Pair>)
    requires Wf(m.ctx) && Accounted(ctx, m) && RoutedBut(n, m.effects, m.st.fired, cut)
    requires forall j :: j in jobs ==> && j.tk.0 in n.specs && j.spec == n.specs[j.tk.0] && j.trigger.key == j.tk.1
                                       && j.spec.transition.id == j.tk.0 && (IsRouter(n, j.tk.0) ==> j.run.Some?)
                                       && !HasFired(m.st.fired, j.tk)
    requires forall tk: Pair :: tk in cut ==> IsRouter(n, tk.0)
    ensures var r := RunJobs(runner, m, jobs, tick);
            r.Ok? ==> && Accounted(ctx, r.value.0) && RoutedBut(n, r.value.0.effects, m.st.fired, cut)
                      && forall i :: 0 <= i < |jobs| && jobs[i].run.Some? ==> r.value.1[i] == jobs[i].run.value
    decreases |jobs|
  {
    hide RunAttempt, RoutedBut, View, Applied, Balanced, HasFired;
    if jobs != [] {
      var j := jobs[0];
      assert j in jobs && forall x :: x in jobs[1..] ==> x in jobs;
      var m1 := m;
      if j.run.None? {
        if RunAttempt(m, j.spec, j.attempt, j.trigger, runner, tick).Err? {
          return;
        }
        AttemptAccounted(n, ctx, m, j.spec, j.attempt, j.trigger, runner, tick);
        m1 := RunAttempt(m, j.spec, j.attempt, j.trigger, runner, tick).value.0;
        EffectStep(n, m.effects, m.st.fired, m1.effects, cut, j.tk);
      }
      RunAllAccounted(n, ctx, runner, m1, jobs[1..], tick + 1, cut);
    }
  }

  /** The job is a Terminal whose attempt concludes, so the merge ends with it. */
  predicate Ends(job: Job, run: RunResult) { job.spec.kind.Terminal? && Concludes(job.spec, job.attempt, run) }

  /** The Router jobs whose attempt succeeded. */
  ghost function Successes(n: Cpn, jobs: seq<Job>, runs: seq<RunResult>): set<Pair>
    requires |jobs| == |runs|
  {
    set x | 0 <= x < |jobs| && IsRouter(n, jobs[x].tk.0) && runs[x].outcome == Success :: jobs[x].tk
  }

  /** Those of them that lie behind a Terminal that ends the merge. */
  ghost function CutOff(n: Cpn, jobs: seq<Job>, runs: seq<RunResult>): set<Pair>
    requires |jobs| == |runs|
  {
    set x | && 0 <= x < |jobs| && IsRouter(n, jobs[x].tk.0) && runs[x].outcome == Success
            && (exists y :: 0 <= y < x && Ends(jobs[y], runs[y])) :: jobs[x].tk
  }

  lemma CutOffTail(n: Cpn, jobs: seq<Job>, runs: seq<RunResult>)
    requires |jobs| == |runs| && jobs != []
    ensures CutOff(n, jobs, runs)
         == if Ends(jobs[0], runs[0]) then Successes(n, jobs[1..], runs[1..]) else CutOff(n, jobs[1..], runs[1..])
  {
    var js, rs := jobs[1..], runs[1..];
    assert forall x :: 0 <= x < |js| ==> js[x] == jobs[x + 1] && rs[x] == runs[x + 1];
    var tail := if Ends(jobs[0], runs[0]) then Successes(n, js, rs) else CutOff(n, js, rs);
    forall tk | tk in CutOff(n, jobs, runs) ensures tk in tail {
      var x :| 0 <= x < |jobs| && IsRouter(n, jobs[x].tk.0) && runs[x].outcome == Success && jobs[x].tk == tk
               && exists y :: 0 <= y < x && Ends(jobs[y], runs[y]);
      var y :| 0 <= y < x && Ends(jobs[y], runs[y]);
      assert js[x - 1] == jobs[x] && rs[x - 1] == runs[x];
      if y > 0 {
        assert js[y - 1] == jobs[y] && Ends(js[y - 1], rs[y - 1]);
      }
    }
    forall tk | tk in tail ensures tk in CutOff(n, jobs, runs) {
      var x :| 0 <= x < |js| && IsRouter(n, js[x].tk.0) && rs[x].outcome == Success && js[x].tk == tk
               && (Ends(jobs[0], runs[0]) || exists y :: 0 <= y < x && Ends(js[y], rs[y]));
      assert jobs[x + 1] == js[x] && runs[x + 1] == rs[x];
      if !Ends(jobs[0], runs[0]) {
        var y :| 0 <= y < x && Ends(js[y], rs[y]);
        assert Ends(jobs[y + 1], runs[y + 1]);
      }
    }
  }

  lemma SuccessesTail(n: Cpn, jobs: seq<Job>, runs: seq<RunResult>)
    requires |jobs| == |runs| && jobs != []
    requires forall i, j :: 0 <= i < j < |jobs| ==> jobs[i].tk.1 != jobs[j].tk.1
    ensures Successes(n, jobs, runs) - {jobs[0].tk} == Successes(n, jobs[1..], runs[1..])
    ensures IsRouter(n, jobs[0].tk.0) ==> (jobs[0].tk in Successes(n, jobs, runs) <==> runs[0].outcome == Success)
    ensures !IsRouter(n, jobs[0].tk.0) ==> jobs[0].tk !in Successes(n, jobs, runs)
  {
    var js, rs := jobs[1..], runs[1..];
    assert forall x :: 0 <= x < |js| ==> js[x] == jobs[x + 1] && rs[x] == runs[x + 1];
    forall tk | tk in Successes(n, jobs, runs) && tk != jobs[0].tk ensures tk in Successes(n, js, rs) {
      var x :| 0 <= x < |jobs| && IsRouter(n, jobs[x].tk.0) && runs[x].outcome == Success && jobs[x].tk == tk;
      assert js[x - 1] == jobs[x] && rs[x - 1] == runs[x];
    }
    forall tk | tk in Successes(n, js, rs) ensures tk in Successes(n, jobs, runs) && tk != jobs[0].tk {
      var x :| 0 <= x < |js| && IsRouter(n, js[x].tk.0) && rs[x].outcome == Success && js[x].tk == tk;
      assert jobs[x + 1] == js[x] && runs[x + 1] == rs[x];
    }
  }

  lemma ConcludeStops(n: Cpn, m: Machine, spec: ExecSpec, tk: Pair, attempt: nat, run: RunResult)
    requires Wf(m.ctx) && Conclude(n, m, spec, tk, attempt, run).Ok? && !m.stopped
    ensures Conclude(n, m, spec, tk, attempt, run).value.stopped
            <==> spec.kind.Terminal? && Concludes(spec, attempt, run)
  {
    hide Complete, PushReady, Shutdown;
  }

  /** The merge pairs each commit with its success, up to the Terminal that ends it. */
  lemma {:induction false} MergeAccounted(n: Cpn, ctx: Store, m: Machine, jobs: seq<Job>, runs: seq<RunResult>)
    requires WfNet(n) && Mid(n, m, JobPairs(jobs), JobPairs(jobs)) && Mergeable(n, m.st, jobs, runs)
    requires |jobs| == |runs|
    requires Accounted(ctx, m) && RoutedBut(n, m.effects, m.st.fired, Successes(n, jobs, runs))
    ensures var r := MergeJobs(n, m, jobs, runs);
            r.Ok? ==> && Accounted(ctx, r.value)
                      && RoutedBut(n, r.value.effects, r.value.st.fired, CutOff(n, jobs, runs))
                      && (CutOff(n, jobs, runs) != {} ==> r.value.stopped)
    decreases |jobs|
  {
    hide Mid, Over, WfNet, Conclude, OthersKept, RoutedBut, Accounted, Successes, CutOff, Ends;
    MidContext(n, m, JobPairs(jobs), JobPairs(jobs));
    if jobs == [] {
      NoJobs(n, jobs, runs);
    } else {
      var j := jobs[0];
      MergeableShape(n, m.st, jobs, runs);
      MergeableTailKeys(n, m.st, jobs, runs);
      SuccessesTail(n, jobs, runs);
      CutOffTail(n, jobs, runs);
      hide Mergeable;
      ConcludeSafe(n, m, JobPairs(jobs), JobPairs(jobs), j.tk, j.attempt, runs[0]);
      MidUnfired(n, m, JobPairs(jobs), JobPairs(jobs), j.tk);
      ConcludeRouted(n, ctx, m, j.spec, j.tk, j.attempt, runs[0], Successes(n, jobs, runs));
      ConcludeStops(n, m, j.spec, j.tk, j.attempt, runs[0]);
      EndsIs(j, runs[0]);
      var m1 := Conclude(n, m, j.spec, j.tk, j.attempt, runs[0]).value;
      if m1.stopped {
        assert MergeJobs(n, m1, jobs[1..], runs[1..]) == Ok(m1);
      } else {
        MergeableTail(n, m.st, m1.st, jobs, runs);
        MergeableShape(n, m1.st, jobs[1..], runs[1..]);
        MergeAccounted(n, ctx, m1, jobs[1..], runs[1..]);
      }
    }
  }

  lemma EndsIs(job: Job, run: RunResult)
    ensures Ends(job, run) <==> job.spec.kind.Terminal? && Concludes(job.spec, job.attempt, run)
  {
  }

  lemma NoJobs(n: Cpn, jobs: seq<Job>, runs: seq<RunResult>)
    requires jobs == [] && runs == []
    ensures Successes(n, jobs, runs) == {} == CutOff(n, jobs, runs)
  {
  }

  /** The pairs a round cuts off. */
  ghost function CutBy(n: Cpn, cfg: Config, runner: Runner, m: Machine): set<Pair>
    requires Wf(m.ctx)
  {
    match BuildJobs(n, runner, Emptied(m), ParallelBatch(m.st.ready, cfg.maxConcurrency))
    case Err(_) => {}
    case Ok((m1, jobs)) =>
      match RunJobs(runner, m1, jobs, |m1.st.order|)
      case Err(_) => {}
      case Ok((_, runs)) => CutOff(n, jobs, runs)
  }

  lemma JobFacts(n: Cpn, m: Machine, fly: set<Pair>, paid: set<Pair>, j: Job)
    requires WfNet(n) && Mid(n, m, fly, paid) && j.tk in fly && JobOk(n, m.st, j)
    ensures j.tk.0 in n.specs && j.spec == n.specs[j.tk.0] && j.trigger.key == j.tk.1
    ensures j.spec.transition.id == j.tk.0 && !HasFired(m.st.fired, j.tk)
  {
    MidUnfired(n, m, fly, paid, j.tk);
  }

  lemma SuccessesCommitted(n: Cpn, jobs: seq<Job>, runs: seq<RunResult>)
    requires |jobs| == |runs| && forall j :: j in jobs && IsRouter(n, j.tk.0) ==> j.run.Some?
    requires forall i :: 0 <= i < |jobs| && jobs[i].run.Some? ==> runs[i] == jobs[i].run.value
    ensures Successes(n, jobs, runs) == Committed(n, jobs)
  {
    forall tk | tk in Committed(n, jobs) ensures tk in Successes(n, jobs, runs) {
      var j :| j in jobs && IsRouter(n, j.tk.0) && j.run.Some? && j.run.value.outcome == Success && j.tk == tk;
      var x :| 0 <= x < |jobs| && jobs[x] == j;
      assert runs[x] == j.run.value;
    }
    forall tk | tk in Successes(n, jobs, runs) ensures tk in Committed(n, jobs) {
      var x :| 0 <= x < |jobs| && IsRouter(n, jobs[x].tk.0) && runs[x].outcome == Success && jobs[x].tk == tk;
      assert jobs[x] in jobs;
    }
  }

  lemma RoundAccounted(n: Cpn, cfg: Config, runner: Runner, ctx: Store, m: Machine)
    requires WfNet(n) && Mid(n, m, {}, {}) && m.batch == []
    requires Accounted(ctx, m) && RoutedBut(n, m.effects, m.st.fired, {})
    ensures var r := ParallelRound(n, cfg, runner, m);
            r.Ok? ==> && Accounted(ctx, r.value)
                      && RoutedBut(n, r.value.effects, r.value.st.fired, CutBy(n, cfg, runner, m))
                      && (CutBy(n, cfg, runner, m) != {} ==> r.value.stopped)
  {
    hide Mid, WfNet, BuildJobs, RunJobs, MergeJobs, ParallelBatch, Mergeable, Accounted, RoutedBut, JobOk, HasFired;
    hide Committed, Successes, CutOff;
    MidContext(n, m, {}, {});
    var m2, jobs, runs := RoundJobs(n, cfg, runner, m);
    if ParallelRound(n, cfg, runner, m).Ok? {
      var batch := ParallelBatch(m.st.ready, cfg.maxConcurrency);
      var m0, fly := Emptied(m), ItemPairs(batch);
      var m1 := BuildJobs(n, runner, m0, batch).value.0;
      ParallelBatchFacts(m.st.ready, cfg.maxConcurrency);
      DrainMid(n, m, cfg.maxConcurrency);
      assert Accounted(ctx, m0) by { SameAccount(ctx, m, m0); }
      BuildAllAccounted(n, ctx, runner, m0, fly, {}, batch, {});
      BuildAllSafe(n, runner, m0, fly, {}, batch);
      forall j | j in jobs
        ensures j.tk.0 in n.specs && j.spec == n.specs[j.tk.0] && j.trigger.key == j.tk.1
        ensures j.spec.transition.id == j.tk.0 && !HasFired(m1.st.fired, j.tk)
      {
        assert j.tk in JobPairs(jobs);
        JobFacts(n, m1, fly, {} + fly, j);
      }
      var cut := Committed(n, jobs);
      assert {} + cut == cut;
      CommittedRouters(n, jobs);
      RunAllAccounted(n, ctx, runner, m1, jobs, |m1.st.order|, cut);
      MergeableShape(n, m2.st, jobs, runs);
      SuccessesCommitted(n, jobs, runs);
      MergeAccounted(n, ctx, m2, jobs, runs);
    }
  }

  lemma SameAccount(ctx: Store, m: Machine, z: Machine)
    requires Accounted(ctx, m) && z.ctx == m.ctx && z.effects == m.effects && z.router == m.router
    ensures Accounted(ctx, z)
  {
  }

  lemma CommittedRouters(n: Cpn, jobs: seq<Job>)
    ensures forall tk: Pair :: tk in Committed(n, jobs) ==> IsRouter(n, tk.0)
  {
  }

  // -------------------------------------------------------------------------- whole runs

  /** What the rounds of the first `i` turns cut off. */
  ghost function Cut(n: Cpn, cfg: Config, runner: Runner, ctx: Store, i: nat): set<Pair>
    requires Wf(ctx)
  {
    if i == 0 then {}
    else
      Cut(n, cfg, runner, ctx, i - 1)
      + match Run(n, cfg, runner, ctx, i - 1)
        case Ok(m) => (if Drains(cfg, m) then CutBy(n, cfg, runner, m) else {})
        case Err(_) => {}
  }

  lemma TurnAccounted(n: Cpn, cfg: Config, runner: Runner, ctx: Store, m: Machine)
    requires WfNet(n) && Mid(n, m, {}, {}) && !Halted(m)
    requires Accounted(ctx, m) && RoutedBut(n, m.effects, m.st.fired, {})
    ensures var r := Turn(n, cfg, runner, m);
            var cut := if Drains(cfg, m) then CutBy(n, cfg, runner, m) else {};
            r.Ok? ==> && Accounted(ctx, r.value) && RoutedBut(n, r.value.effects, r.value.st.fired, cut)
                      && (cut != {} ==> r.value.stopped)
  {
    hide Mid, WfNet, ProcessItem, ParallelRound, NextBatch, Accounted, RoutedBut, CutBy;
    MidContext(n, m, {}, {});
    if m.batch != [] {
      ItemAccounted(n, runner, ctx, m);
    } else if cfg.maxConcurrency <= 1 {
      if Turn(n, cfg, runner, m).Ok? {
        SameAccount(ctx, m, Turn(n, cfg, runner, m).value);
      }
    } else {
      RoundAccounted(n, cfg, runner, ctx, m);
    }
  }

  /**
   * Router atomicity over every run, serial or parallel: the context view is the initial view plus
   * the lasting effects; executions, outcomes, commits and rollbacks add up; a Router pair has the
   * writes of at most one attempt in the context, has them if it succeeded, and has them without
   * having succeeded exactly if its commit lay behind a Terminal that cut its round short.
   */
  lemma {:induction false} RouterAtomicity(n: Cpn, cfg: Config, runner: Runner, ctx: Store, i: nat)
    requires WfNet(n) && Wf(ctx) && Run(n, cfg, runner, ctx, i).Ok?
    ensures var m := Run(n, cfg, runner, ctx, i).value;
            && Accounted(ctx, m) && RoutedBut(n, m.effects, m.st.fired, Cut(n, cfg, runner, ctx, i))
            && (Cut(n, cfg, runner, ctx, i) != {} ==> m.stopped)
  {
    hide Mid, Over, Turn, Start, Accounted, RoutedBut, CutBy, WfNet;
    if i == 0 {
      StartAccounted(n, ctx);
    } else {
      RouterAtomicity(n, cfg, runner, ctx, i - 1);
      RunSafe(n, cfg, runner, ctx, i - 1);
      var m := Run(n, cfg, runner, ctx, i - 1).value;
      var before := Cut(n, cfg, runner, ctx, i - 1);
      if !Halted(m) {
        TurnAccounted(n, cfg, runner, ctx, m);
        assert before == {};
      }
      assert before + {} == before;
      assert forall cut: set<Pair> :: {} + cut == cut;
    }
  }

  /** On the serial path no commit is ever cut off, so commits and successes coincide. */
  lemma {:induction false} SerialCutsNothing(n: Cpn, cfg: Config, runner: Runner, ctx: Store, i: nat)
    requires Wf(ctx) && cfg.maxConcurrency <= 1
    ensures Cut(n, cfg, runner, ctx, i) == {}
  {
    hide Run, CutBy;
    if i > 0 {
      SerialCutsNothing(n, cfg, runner, ctx, i - 1);
    }
  }

  lemma NothingRouted(n: Cpn)
    ensures RoutedBut(n, [], [], {})
  {
  }

  lemma ZeroBalanced()
    ensures Balanced(ZERO_METRICS)
  {
  }

  lemma FreshAccounted(n: Cpn, ctx: Store, m: Machine)
    requires m.ctx == ctx && m.router == ZERO_METRICS && m.effects == [] && m.st.fired == []
    ensures Accounted(ctx, m) && RoutedBut(n, m.effects, m.st.fired, {})
  {
    hide View, Applied, Balanced, RoutedBut;
    AppliedNone(View(ctx));
    ZeroBalanced();
    NothingRouted(n);
  }

  lemma StartAccounted(n: Cpn, ctx: Store)
    requires WfNet(n) && Wf(ctx)
    ensures Start(n, ctx).Ok?
    ensures Accounted(ctx, Start(n, ctx).value)
    ensures RoutedBut(n, Start(n, ctx).value.effects, Start(n, ctx).value.st.fired, {})
  {
    StartShape(n, ctx);
    hide *;
    FreshAccounted(n, ctx, Start(n, ctx).value);
  }
}
