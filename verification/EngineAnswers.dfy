/**
 * What a run's results mean: every recorded result, of a retried attempt or of a completion, is the
 * runner's own answer to that attempt, read by the rules for deadlines, joins and kinds; and the
 * context the runner was shown is what the lasting writes before it had made of it.
 */
module EngineAnswers {
  import opened Prelude
  import opened Net
  import opened ContextModel
  import opened Router
  import opened EngineModel
  import opened EngineSafety
  import opened EngineQueue
  import opened EngineScheduling
  import opened EngineRuns
  import opened EngineTheorems
  import opened EngineInputs
  import opened EngineRouter

  // ------------------------------------------------------------------ one attempt

  /** The context shows the initial view after the first `x` lasting effects. */
  ghost predicate SeenAt(ctx0: Store, effects: seq<Effect>, c: Store, x: nat) {
    x <= |effects| && View(c) == Applied(View(ctx0), effects[..x])
  }

  /** A Task or Terminal whose deadline is set and missed timed out; its writes last either way. */
  ghost predicate TaskAnswers(
    runner: Runner, ctx0: Store, effects: seq<Effect>, spec: ExecSpec, a: nat, trigger: Trigger, r: RunResult,
    c: Store, tick: nat, x: nat)
  {
    && SeenAt(ctx0, effects, c, x)
    && var report := runner(spec, a, trigger, c, tick);
    && r == RunResult(if spec.timeoutMs > 0 && report.overdue then Timeout else report.outcome, report.payload)
    && x < |effects| && effects[x] == Effect(spec.transition.id, trigger.key, report.ops)
  }

  /** A Router's success stands even if it is late; its writes last exactly on success. */
  ghost predicate RouterAnswers(
    runner: Runner, ctx0: Store, effects: seq<Effect>, spec: ExecSpec, a: nat, trigger: Trigger, r: RunResult,
    c: Store, tick: nat, x: nat)
  {
    && SeenAt(ctx0, effects, c, x)
    && var report := runner(spec, a, trigger, c, tick);
    && r.payload == report.payload
    && (report.outcome == Success ==> r.outcome == Success)
    && (report.outcome != Success ==>
          r.outcome == if spec.timeoutMs > 0 && report.overdue then Timeout else report.outcome)
    && (r.outcome == Success ==>
          x < |effects| && effects[x] == Effect(spec.transition.id, trigger.key, report.ops))
  }

  ghost predicate BadInput(spec: ExecSpec, inputs: seq<TriggerInput>) {
    spec.transition.join.AllOf? && exists i :: i in inputs && i.token.meta.outcome != Success
  }

  /** `r` is the answer to attempt `a` of the pair on these inputs. */
  ghost predicate Answers(
    runner: Runner, ctx0: Store, effects: seq<Effect>, spec: ExecSpec, k: Key, inputs: seq<TriggerInput>, a: nat,
    r: RunResult)
  {
    if BadInput(spec, inputs) then r == RunResult(Skipped, Null)
    else
      match spec.kind
      case Gate => r == RunResult(Success, Null)
      case RouterTo(_) =>
        exists c, tick, x :: RouterAnswers(runner, ctx0, effects, spec, a, Trigger(k, inputs), r, c, tick, x)
      case _ => exists c, tick, x :: TaskAnswers(runner, ctx0, effects, spec, a, Trigger(k, inputs), r, c, tick, x)
  }

  lemma SeenLonger(ctx0: Store, effects: seq<Effect>, more: seq<Effect>, c: Store, x: nat)
    requires SeenAt(ctx0, effects, c, x) && effects <= more
    ensures SeenAt(ctx0, more, c, x)
  {
    assert more[..x] == effects[..x];
  }

  lemma AnswersLonger(runner: Runner, ctx0: Store, effects: seq<Effect>, more: seq<Effect>, spec: ExecSpec, k: Key,
                      inputs: seq<TriggerInput>, a: nat, r: RunResult)
    requires Answers(runner, ctx0, effects, spec, k, inputs, a, r) && effects <= more
    ensures Answers(runner, ctx0, more, spec, k, inputs, a, r)
  {
    hide SeenAt, BadInput;
    var trigger := Trigger(k, inputs);
    if !BadInput(spec, inputs) && spec.kind.RouterTo? {
      var c, tick, x :| RouterAnswers(runner, ctx0, effects, spec, a, trigger, r, c, tick, x);
      SeenLonger(ctx0, effects, more, c, x);
      assert RouterAnswers(runner, ctx0, more, spec, a, trigger, r, c, tick, x);
    } else if !BadInput(spec, inputs) && !spec.kind.Gate? {
      var c, tick, x :| TaskAnswers(runner, ctx0, effects, spec, a, trigger, r, c, tick, x);
      SeenLonger(ctx0, effects, more, c, x);
      assert TaskAnswers(runner, ctx0, more, spec, a, trigger, r, c, tick, x);
    }
  }

  lemma BegunView(s: Store, id: string)
    requires Wf(s) && s.active.None?
    ensures View(Step(s, Begin(id)).0) == View(s)
  {
    MergeEmpty(Base(s));
    var b := Step(s, Begin(id)).0;
    assert Base(b) == Base(s) && Overlay(b) == map[] && Overlay(s) == map[];
  }

  /** An attempt gives the answer, and a lasting one leaves its writes as the next effect. */
  lemma AttemptAnswers(
    n: Cpn, ctx0: Store, m: Machine, spec: ExecSpec, a: nat, trigger: Trigger, runner: Runner, tick: nat)
    requires Wf(m.ctx) && Accounted(ctx0, m) && RunAttempt(m, spec, a, trigger, runner, tick).Ok?
    ensures var (m', run) := RunAttempt(m, spec, a, trigger, runner, tick).value;
            && Accounted(ctx0, m') && m.effects <= m'.effects
            && Answers(runner, ctx0, m'.effects, spec, trigger.key, trigger.inputs, a, run)
  {
    AttemptAccounted(n, ctx0, m, spec, a, trigger, runner, tick);
    var (m', run) := RunAttempt(m, spec, a, trigger, runner, tick).value;
    var x := |m.effects|;
    assert m.effects[..x] == m.effects;
    if !Skips(spec, trigger) && spec.kind.RouterTo? {
      RouterAnswer(ctx0, m, spec, a, trigger, runner, tick);
    } else if !Skips(spec, trigger) && !spec.kind.Gate? {
      TaskAnswer(ctx0, m, spec, a, trigger, runner, tick);
    }
    hide Balanced, View, Applied, TaskAnswers, RouterAnswers;
  }

  lemma TaskAnswer(ctx0: Store, m: Machine, spec: ExecSpec, a: nat, trigger: Trigger, runner: Runner, tick: nat)
    requires Wf(m.ctx) && Accounted(ctx0, m) && RunAttempt(m, spec, a, trigger, runner, tick).Ok?
    requires !Skips(spec, trigger) && (spec.kind.Task? || spec.kind.Terminal?)
    ensures var (m', run) := RunAttempt(m, spec, a, trigger, runner, tick).value;
            TaskAnswers(runner, ctx0, m'.effects, spec, a, trigger, run, m.ctx, tick, |m.effects|)
  {
    var m' := RunAttempt(m, spec, a, trigger, runner, tick).value.0;
    assert m'.effects[..|m.effects|] == m.effects;
    hide View, Applied, Balanced, Steps;
  }

  lemma RouterAnswer(ctx0: Store, m: Machine, spec: ExecSpec, a: nat, trigger: Trigger, runner: Runner, tick: nat)
    requires Wf(m.ctx) && Accounted(ctx0, m) && RunAttempt(m, spec, a, trigger, runner, tick).Ok?
    requires !Skips(spec, trigger) && spec.kind.RouterTo?
    ensures var (m', run) := RunAttempt(m, spec, a, trigger, runner, tick).value;
            RouterAnswers(runner, ctx0, m'.effects, spec, a, trigger, run,
                          Step(m.ctx, Begin(spec.kind.subgraph)).0, tick, |m.effects|)
  {
    var run := InSubgraph(runner, spec, a, trigger, tick);
    RouterIsAtomic(m.ctx, spec.kind.subgraph, m.router, run, spec.timeoutMs);
    BegunView(m.ctx, spec.kind.subgraph);
    var m' := RunAttempt(m, spec, a, trigger, runner, tick).value.0;
    hide View, Applied, Balanced, Step, ExecuteRouter, Written;
    assert m.effects + [] == m.effects;
    assert m'.effects[..|m.effects|] == m.effects;
  }

  // ------------------------------------------------------------- the recorded results

  ghost predicate HeldExplained(n: Cpn, runner: Runner, ctx0: Store, effects: seq<Effect>, tk: Pair,
                                inputs: seq<TriggerInput>, retried: seq<RunResult>)
  {
    && KeyOk(n, tk) && WellFed(n, tk.0, inputs)
    && forall i :: 0 <= i < |retried| ==>
         Answers(runner, ctx0, effects, n.specs[tk.0], tk.1, inputs, i, retried[i])
  }

  ghost predicate FiringExplained(n: Cpn, runner: Runner, ctx0: Store, effects: seq<Effect>, f: Firing) {
    && HeldExplained(n, runner, ctx0, effects, PairOf(f), f.inputs, f.retried)
    && Answers(runner, ctx0, effects, n.specs[f.transition], f.key, f.inputs, |f.retried|, f.result)
  }

  /** All inputs held and consumed were fed well, all results are answers, and the queues are in order. */
  ghost predicate Explained(n: Cpn, runner: Runner, ctx0: Store, effects: seq<Effect>, s: State) {
    && Fifo(s.placeTokens, s.tokenSequence)
    && (forall tk :: tk in s.cache ==>
          HeldExplained(n, runner, ctx0, effects, tk, s.cache[tk], GetOr(s.retried, tk, [])))
    && (forall j :: 0 <= j < |s.fired| ==> FiringExplained(n, runner, ctx0, effects, s.fired[j]))
  }

  lemma HeldLonger(n: Cpn, runner: Runner, ctx0: Store, effects: seq<Effect>, more: seq<Effect>, tk: Pair,
                   inputs: seq<TriggerInput>, retried: seq<RunResult>)
    requires HeldExplained(n, runner, ctx0, effects, tk, inputs, retried) && effects <= more
    ensures HeldExplained(n, runner, ctx0, more, tk, inputs, retried)
  {
    hide Answers, WellFed, KeyOk;
    assert tk.0 in n.specs by { assert KeyOk(n, tk); KeySpec(n, tk); }
    forall i | 0 <= i < |retried| ensures Answers(runner, ctx0, more, n.specs[tk.0], tk.1, inputs, i, retried[i]) {
      AnswersLonger(runner, ctx0, effects, more, n.specs[tk.0], tk.1, inputs, i, retried[i]);
    }
  }

  lemma KeySpec(n: Cpn, tk: Pair)
    requires KeyOk(n, tk)
    ensures tk.0 in n.specs
  {}

  /** More effects explain as much. */
  lemma ExplainedLonger(n: Cpn, runner: Runner, ctx0: Store, effects: seq<Effect>, more: seq<Effect>, s: State)
    requires Explained(n, runner, ctx0, effects, s) && effects <= more
    ensures Explained(n, runner, ctx0, more, s)
  {
    hide HeldExplained, Answers, Fifo;
    forall tk | tk in s.cache ensures HeldExplained(n, runner, ctx0, more, tk, s.cache[tk], GetOr(s.retried, tk, [])) {
      HeldLonger(n, runner, ctx0, effects, more, tk, s.cache[tk], GetOr(s.retried, tk, []));
    }
    forall j | 0 <= j < |s.fired| ensures FiringExplained(n, runner, ctx0, more, s.fired[j]) {
      var f := s.fired[j];
      assert FiringExplained(n, runner, ctx0, effects, f);
      HeldLonger(n, runner, ctx0, effects, more, PairOf(f), f.inputs, f.retried);
      HeldSpec(n, runner, ctx0, effects, PairOf(f), f.inputs, f.retried);
      AnswersLonger(runner, ctx0, effects, more, n.specs[f.transition], f.key, f.inputs, |f.retried|, f.result);
    }
  }

  lemma HeldSpec(n: Cpn, runner: Runner, ctx0: Store, effects: seq<Effect>, tk: Pair, inputs: seq<TriggerInput>,
                 retried: seq<RunResult>)
    requires HeldExplained(n, runner, ctx0, effects, tk, inputs, retried)
    ensures tk.0 in n.specs && KeyOk(n, tk)
  {}

  lemma TakeExplained(n: Cpn, runner: Runner, ctx0: Store, effects: seq<Effect>, s: State, fly: set<Pair>, tk: Pair)
    requires WfNet(n) && Safe(n, s, fly) && Settled(n, s) && tk in fly && Explained(n, runner, ctx0, effects, s)
    ensures EnsureTrigger(n, s, tk.0, tk.1).Ok?
    ensures Explained(n, runner, ctx0, effects, EnsureTrigger(n, s, tk.0, tk.1).value.0)
  {
    hide Safe, Settled, WfNet, Answers, WellFed, Fifo, ConsumeArcs, FiringExplained, KeyOk, IsTransitionReady;
    TakeSafe(n, s, fly, tk);
    if tk !in s.cache {
      FreshTake(n, s, fly, tk);
      TakeFed(n, s, fly, tk);
    }
  }

  lemma RetryExplained(n: Cpn, runner: Runner, ctx0: Store, effects: seq<Effect>, s: State, tk: Pair, attempt: nat,
                       run: RunResult)
    requires Explained(n, runner, ctx0, effects, s) && tk in s.cache && |GetOr(s.retried, tk, [])| == attempt
    requires tk.0 in n.specs && Answers(runner, ctx0, effects, n.specs[tk.0], tk.1, s.cache[tk], attempt, run)
    ensures Explained(n, runner, ctx0, effects, Requeued(s, tk, attempt, run))
  {
    hide Answers, WellFed, Fifo, FiringExplained, KeyOk;
    assert HeldExplained(n, runner, ctx0, effects, tk, s.cache[tk], GetOr(s.retried, tk, []));
  }

  lemma CompleteExplained(n: Cpn, runner: Runner, ctx0: Store, effects: seq<Effect>, s: State, tk: Pair, attempt: nat,
                          run: RunResult)
    requires Explained(n, runner, ctx0, effects, s) && tk in s.cache && |GetOr(s.retried, tk, [])| == attempt
    requires tk.0 in n.specs && Answers(runner, ctx0, effects, n.specs[tk.0], tk.1, s.cache[tk], attempt, run)
    requires Complete(n, s, tk.0, tk.1, run).Ok?
    ensures Explained(n, runner, ctx0, effects, Complete(n, s, tk.0, tk.1, run).value)
  {
    hide Answers, WellFed, Fifo, EmitArcs, KeyOk;
    assert HeldExplained(n, runner, ctx0, effects, tk, s.cache[tk], GetOr(s.retried, tk, []));
    var f := FiringOf(s, tk.0, tk.1, run);
    EmitFrames(n, MarkCompleted(s, f), f, Out(n, tk.0));
    EmitFifo(n, MarkCompleted(s, f), f, Out(n, tk.0));
    assert FiringExplained(n, runner, ctx0, effects, f);
  }

  lemma SameExplained(n: Cpn, runner: Runner, ctx0: Store, effects: seq<Effect>, s: State, s': State)
    requires Explained(n, runner, ctx0, effects, s)
    requires s'.cache == s.cache && s'.fired == s.fired && s'.retried == s.retried
    requires s'.placeTokens == s.placeTokens && s'.tokenSequence == s.tokenSequence
    ensures Explained(n, runner, ctx0, effects, s')
  {
    hide HeldExplained, FiringExplained, Fifo;
  }

  /** The machine's state is explained by its effects, and its context shows them. */
  ghost predicate Told(n: Cpn, runner: Runner, ctx0: Store, m: Machine) {
    Accounted(ctx0, m) && Explained(n, runner, ctx0, m.effects, m.st)
  }

  lemma PushExplained(n: Cpn, runner: Runner, ctx0: Store, effects: seq<Effect>, s: State, tk: Pair, retry: bool)
    requires Explained(n, runner, ctx0, effects, s) && PushReady(n, s, tk.0, tk.1, retry).Ok?
    ensures Explained(n, runner, ctx0, effects, PushReady(n, s, tk.0, tk.1, retry).value)
  {
    hide HeldExplained, FiringExplained, Fifo;
  }

  lemma ConcludeTold(n: Cpn, runner: Runner, ctx0: Store, m: Machine, tk: Pair, attempt: nat, run: RunResult)
    requires Wf(m.ctx) && Told(n, runner, ctx0, m) && tk in m.st.cache && tk.0 in n.specs
    requires |GetOr(m.st.retried, tk, [])| == attempt
    requires Answers(runner, ctx0, m.effects, n.specs[tk.0], tk.1, m.st.cache[tk], attempt, run)
    requires Conclude(n, m, n.specs[tk.0], tk, attempt, run).Ok?
    ensures var m' := Conclude(n, m, n.specs[tk.0], tk, attempt, run).value;
            Told(n, runner, ctx0, m') && m'.effects == m.effects
  {
    hide Answers, Complete, Explained, Accounted, PushReady, Shutdown;
    ConcludeAccounted(n, ctx0, m, n.specs[tk.0], tk, attempt, run);
    if Retryable(run.outcome) && attempt + 1 <= n.specs[tk.0].maxRetries {
      RetryExplained(n, runner, ctx0, m.effects, m.st, tk, attempt, run);
      PushExplained(n, runner, ctx0, m.effects, Requeued(m.st, tk, attempt, run), tk, true);
    } else {
      CompleteExplained(n, runner, ctx0, m.effects, m.st, tk, attempt, run);
      var s := Complete(n, m.st, tk.0, tk.1, run).value;
      ShutdownExplained(n, runner, ctx0, m.effects, s);
    }
  }

  lemma ShutdownExplained(n: Cpn, runner: Runner, ctx0: Store, effects: seq<Effect>, s: State)
    requires Explained(n, runner, ctx0, effects, s)
    ensures Explained(n, runner, ctx0, effects, Shutdown(n, s))
  {
    SameExplained(n, runner, ctx0, effects, s, Shutdown(n, s));
  }

  lemma MidTries(n: Cpn, m: Machine, fly: set<Pair>, paid: set<Pair>, tk: Pair)
    requires WfNet(n) && Mid(n, m, fly, paid)
    ensures |GetOr(m.st.retried, tk, [])| == GetOr(m.st.attempts, tk, 0)
  {
  }

  lemma SpecNamed(n: Cpn, t: Id)
    requires WfNet(n) && t in n.specs
    ensures n.specs[t].transition.id == t
  {}

  // --------------------------------------------------------------- the serial path

  /** A pair starts: its inputs are taken, and the attempt is entered in the order. */
  lemma StartTold(n: Cpn, runner: Runner, ctx0: Store, m: Machine, fly: set<Pair>, paid: set<Pair>, tk: Pair)
    requires WfNet(n) && Mid(n, m, fly, paid) && tk in fly && tk !in paid && Told(n, runner, ctx0, m)
    ensures EnsureTrigger(n, m.st, tk.0, tk.1).Ok?
    ensures Told(n, runner, ctx0, Started(m, EnsureTrigger(n, m.st, tk.0, tk.1).value.0, tk.0))
  {
    hide Mid, WfNet, EnsureTrigger, Explained, Safe, Settled, View, Applied, Balanced;
    MidSafe(n, m, fly, paid);
    StartSafe(n, m, fly, paid, tk);
    TakeExplained(n, runner, ctx0, m.effects, m.st, fly, tk);
    var s1 := EnsureTrigger(n, m.st, tk.0, tk.1).value.0;
    SameExplained(n, runner, ctx0, m.effects, s1, Started(m, s1, tk.0).st);
  }

  lemma AttemptTold(n: Cpn, runner: Runner, ctx0: Store, m: Machine, spec: ExecSpec, a: nat, trigger: Trigger,
                    tick: nat)
    requires Wf(m.ctx) && Told(n, runner, ctx0, m) && RunAttempt(m, spec, a, trigger, runner, tick).Ok?
    ensures var (m', run) := RunAttempt(m, spec, a, trigger, runner, tick).value;
            && Told(n, runner, ctx0, m') && m.effects <= m'.effects && m'.st == m.st
            && Answers(runner, ctx0, m'.effects, spec, trigger.key, trigger.inputs, a, run)
  {
    hide RunAttempt, Explained, Accounted, Answers;
    AttemptAnswers(n, ctx0, m, spec, a, trigger, runner, tick);
    ExplainedLonger(n, runner, ctx0, m.effects, RunAttempt(m, spec, a, trigger, runner, tick).value.0.effects, m.st);
  }

  lemma SameTold(n: Cpn, runner: Runner, ctx0: Store, m: Machine, z: Machine)
    requires Told(n, runner, ctx0, m) && z.ctx == m.ctx && z.router == m.router && z.effects == m.effects
    requires z.st.cache == m.st.cache && z.st.fired == m.st.fired && z.st.retried == m.st.retried
    requires z.st.placeTokens == m.st.placeTokens && z.st.tokenSequence == m.st.tokenSequence
    ensures Told(n, runner, ctx0, z)
  {
    hide View, Applied, Balanced, Explained;
    SameExplained(n, runner, ctx0, m.effects, m.st, z.st);
  }

  lemma ItemTold(n: Cpn, runner: Runner, ctx0: Store, m: Machine)
    requires WfNet(n) && Mid(n, m, {}, {}) && m.batch != [] && Told(n, runner, ctx0, m)
    ensures var r := ProcessItem(n, runner, m.(batch := m.batch[1..]), m.batch[0]);
            r.Ok? ==> Told(n, runner, ctx0, r.value)
  {
    hide Mid, WfNet, EnsureTrigger, RunAttempt, Told, Answers, Conclude;
    var tk := ItemPair(m.batch[0]);
    UnqueueMid(n, m);
    var m0 := m.(batch := m.batch[1..], st := m.st.(readySet := m.st.readySet - {tk}));
    SameTold(n, runner, ctx0, m, m0);
    MidTries(n, m0, {tk}, {}, tk);
    MidContext(n, m0, {tk}, {});
    StartSafe(n, m0, {tk}, {}, tk);
    StartTold(n, runner, ctx0, m0, {tk}, {}, tk);
    var (s1, trigger) := EnsureTrigger(n, m0.st, tk.0, tk.1).value;
    var m1 := Started(m0, s1, tk.0);
    var attempt := GetOr(m0.st.attempts, tk, 0);
    if ProcessItem(n, runner, m.(batch := m.batch[1..]), m.batch[0]).Ok? {
      AttemptTold(n, runner, ctx0, m1, n.specs[tk.0], attempt, trigger, |s1.order|);
      var (m2, run) := RunAttempt(m1, n.specs[tk.0], attempt, trigger, runner, |s1.order|).value;
      ConcludeTold(n, runner, ctx0, m2, tk, attempt, run);
    }
  }

  // ------------------------------------------------------------- the parallel path

  /** The job's result, if it has one, is the answer. */
  ghost predicate JobAnswered(runner: Runner, ctx0: Store, effects: seq<Effect>, j: Job) {
    j.run.Some? ==> Answers(runner, ctx0, effects, j.spec, j.trigger.key, j.trigger.inputs, j.attempt, j.run.value)
  }

  lemma JobsLonger(runner: Runner, ctx0: Store, effects: seq<Effect>, more: seq<Effect>, jobs: seq<Job>)
    requires effects <= more && forall j :: j in jobs ==> JobAnswered(runner, ctx0, effects, j)
    ensures forall j :: j in jobs ==> JobAnswered(runner, ctx0, more, j)
  {
    hide Answers;
    forall j | j in jobs ensures JobAnswered(runner, ctx0, more, j) {
      assert JobAnswered(runner, ctx0, effects, j);
      if j.run.Some? {
        AnswersLonger(runner, ctx0, effects, more, j.spec, j.trigger.key, j.trigger.inputs, j.attempt, j.run.value);
      }
    }
  }

  lemma BuildTold(n: Cpn, runner: Runner, ctx0: Store, m: Machine, fly: set<Pair>, paid: set<Pair>, item: ReadyItem)
    requires WfNet(n) && Mid(n, m, fly, paid) && ItemPair(item) in fly && ItemPair(item) !in paid
    requires Told(n, runner, ctx0, m)
    ensures var r := BuildJob(n, runner, m, item);
            r.Ok? ==> && Told(n, runner, ctx0, r.value.0) && m.effects <= r.value.0.effects
                      && forall j :: j in r.value.1 ==> JobAnswered(runner, ctx0, r.value.0.effects, j)
  {
    hide Mid, WfNet, EnsureTrigger, RunAttempt, Told, Answers, Skips;
    var tk := ItemPair(item);
    MidContext(n, m, fly, paid);
    StartSafe(n, m, fly, paid, tk);
    StartTold(n, runner, ctx0, m, fly, paid, tk);
    if BuildJob(n, runner, m, item).Ok? {
      var (s1, trigger) := EnsureTrigger(n, m.st, tk.0, tk.1).value;
      var m1 := Started(m, s1, tk.0);
      var spec, attempt := n.specs[tk.0], GetOr(m.st.attempts, tk, 0);
      if Skips(spec, trigger) || spec.kind.RouterTo? {
        AttemptTold(n, runner, ctx0, m1, spec, attempt, trigger, |s1.order|);
      }
    }
  }

  lemma {:induction false} BuildAllTold(
    n: Cpn, runner: Runner, ctx0: Store, m: Machine, fly: set<Pair>, paid: set<Pair>, items: seq<ReadyItem>)
    requires WfNet(n) && Mid(n, m, fly, paid) && DistinctKeys(items)
    requires ItemPairs(items) <= fly && ItemPairs(items) !! paid && Told(n, runner, ctx0, m)
    ensures var r := BuildJobs(n, runner, m, items);
            r.Ok? ==> && Told(n, runner, ctx0, r.value.0) && m.effects <= r.value.0.effects
                      && forall j :: j in r.value.1 ==> JobAnswered(runner, ctx0, r.value.0.effects, j)
    decreases |items|
  {
    hide Mid, WfNet, BuildJob, JobOk, Told, JobAnswered;
    MidContext(n, m, fly, paid);
    if items != [] {
      HeadApart(items, fly, paid);
      BuildTold(n, runner, ctx0, m, fly, paid, items[0]);
      BuiltOne(n, runner, m, fly, paid, items[0]);
      hide DistinctKeys, ItemPairs;
      if BuildJob(n, runner, m, items[0]).Ok? {
        var (m1, first) := BuildJob(n, runner, m, items[0]).value;
        assert Mid(n, m1, fly, paid + {ItemPair(items[0])});
        hide Built;
        BuildAllTold(n, runner, ctx0, m1, fly, paid + {ItemPair(items[0])}, items[1..]);
        if BuildJobs(n, runner, m1, items[1..]).Ok? {
          var (m2, rest) := BuildJobs(n, runner, m1, items[1..]).value;
          JobsLonger(runner, ctx0, m1.effects, m2.effects, first);
        }
      }
    }
  }

  /** Every run of the round is the answer to its job. */
  ghost predicate AllAnswered(runner: Runner, ctx0: Store, effects: seq<Effect>, jobs: seq<Job>, runs: seq<RunResult>) {
    && |jobs| == |runs|
    && forall i :: 0 <= i < |jobs| ==>
         Answers(runner, ctx0, effects, jobs[i].spec, jobs[i].trigger.key, jobs[i].trigger.inputs, jobs[i].attempt,
                 runs[i])
  }

  lemma {:induction false} RunAllTold(n: Cpn, runner: Runner, ctx0: Store, m: Machine, jobs: seq<Job>, tick: nat)
    requires Wf(m.ctx) && Told(n, runner, ctx0, m)
    requires forall j :: j in jobs ==> JobAnswered(runner, ctx0, m.effects, j)
    ensures var r := RunJobs(runner, m, jobs, tick);
            r.Ok? ==> && Told(n, runner, ctx0, r.value.0) && m.effects <= r.value.0.effects && r.value.0.st == m.st
                      && AllAnswered(runner, ctx0, r.value.0.effects, jobs, r.value.1)
    decreases |jobs|
  {
    hide RunAttempt, Told, Answers;
    if jobs != [] {
      var j := jobs[0];
      assert j in jobs && forall x :: x in jobs[1..] ==> x in jobs;
      var m1, run := m, RunResult(Skipped, Null);
      if j.run.None? {
        if RunAttempt(m, j.spec, j.attempt, j.trigger, runner, tick).Err? {
          return;
        }
        AttemptTold(n, runner, ctx0, m, j.spec, j.attempt, j.trigger, tick);
        m1 := RunAttempt(m, j.spec, j.attempt, j.trigger, runner, tick).value.0;
        run := RunAttempt(m, j.spec, j.attempt, j.trigger, runner, tick).value.1;
      } else {
        assert JobAnswered(runner, ctx0, m.effects, j);
        run := j.run.value;
      }
      JobsLonger(runner, ctx0, m.effects, m1.effects, jobs[1..]);
      hide JobAnswered;
      RunAllTold(n, runner, ctx0, m1, jobs[1..], tick + 1);
      if RunJobs(runner, m1, jobs[1..], tick + 1).Ok? {
        var m2 := RunJobs(runner, m1, jobs[1..], tick + 1).value.0;
        AnswersLonger(runner, ctx0, m1.effects, m2.effects, j.spec, j.trigger.key, j.trigger.inputs, j.attempt, run);
      }
    }
  }

  /** The results of a merge are the answers to what its pairs hold. */
  ghost predicate HeldAnswered(
    n: Cpn, runner: Runner, ctx0: Store, effects: seq<Effect>, s: State, jobs: seq<Job>, runs: seq<RunResult>)
  {
    && |jobs| == |runs|
    && forall i :: 0 <= i < |jobs| ==>
         && jobs[i].tk in s.cache && jobs[i].tk.0 in n.specs
         && Answers(runner, ctx0, effects, n.specs[jobs[i].tk.0], jobs[i].tk.1, s.cache[jobs[i].tk], jobs[i].attempt,
                    runs[i])
  }

  lemma HeldTail(n: Cpn, runner: Runner, ctx0: Store, effects: seq<Effect>, s: State, s': State, jobs: seq<Job>,
                 runs: seq<RunResult>)
    requires HeldAnswered(n, runner, ctx0, effects, s, jobs, runs) && jobs != [] && OthersKept(s, s', jobs[0].tk)
    requires forall i, j :: 0 <= i < j < |jobs| ==> jobs[i].tk.1 != jobs[j].tk.1
    ensures HeldAnswered(n, runner, ctx0, effects, s', jobs[1..], runs[1..])
  {
    hide Answers;
    forall i | 0 <= i < |jobs[1..]|
      ensures jobs[1..][i].tk in s'.cache && s'.cache[jobs[1..][i].tk] == s.cache[jobs[i + 1].tk]
    {
      var o := jobs[i + 1].tk;
      assert o != jobs[0].tk;
      assert GetOr(s.cache, o, []) == GetOr(s'.cache, o, []);
    }
  }

  lemma {:induction false} MergeTold(n: Cpn, runner: Runner, ctx0: Store, m: Machine, jobs: seq<Job>,
                                     runs: seq<RunResult>)
    requires WfNet(n) && Told(n, runner, ctx0, m) && HeldAnswered(n, runner, ctx0, m.effects, m.st, jobs, runs)
    requires Mid(n, m, JobPairs(jobs), JobPairs(jobs)) && Mergeable(n, m.st, jobs, runs)
    ensures var r := MergeJobs(n, m, jobs, runs); r.Ok? ==> Told(n, runner, ctx0, r.value)
    decreases |jobs|
  {
    hide Mid, Over, WfNet, Conclude, OthersKept, Answers, Told;
    MidContext(n, m, JobPairs(jobs), JobPairs(jobs));
    if jobs != [] {
      var j := jobs[0];
      MergeableTailKeys(n, m.st, jobs, runs);
      MidTries(n, m, JobPairs(jobs), JobPairs(jobs), j.tk);
      ConcludeSafe(n, m, JobPairs(jobs), JobPairs(jobs), j.tk, j.attempt, runs[0]);
      ConcludeTold(n, runner, ctx0, m, j.tk, j.attempt, runs[0]);
      var m1 := Conclude(n, m, j.spec, j.tk, j.attempt, runs[0]).value;
      MergeableTail(n, m.st, m1.st, jobs, runs);
      HeldTail(n, runner, ctx0, m.effects, m.st, m1.st, jobs, runs);
      hide Mergeable, HeldAnswered;
      if m1.stopped {
        assert MergeJobs(n, m1, jobs[1..], runs[1..]) == Ok(m1);
      } else {
        MergeTold(n, runner, ctx0, m1, jobs[1..], runs[1..]);
      }
    }
  }

  lemma JobsHeld(n: Cpn, runner: Runner, ctx0: Store, effects: seq<Effect>, s: State, jobs: seq<Job>,
                 runs: seq<RunResult>)
    requires AllAnswered(runner, ctx0, effects, jobs, runs) && forall j :: j in jobs ==> JobOk(n, s, j)
    ensures HeldAnswered(n, runner, ctx0, effects, s, jobs, runs)
  {
    hide Answers;
    forall i | 0 <= i < |jobs| ensures JobOk(n, s, jobs[i]) {
      assert jobs[i] in jobs;
    }
  }

  lemma RoundTold(n: Cpn, cfg: Config, runner: Runner, ctx0: Store, m: Machine)
    requires WfNet(n) && Mid(n, m, {}, {}) && m.batch == [] && Told(n, runner, ctx0, m)
    ensures var r := ParallelRound(n, cfg, runner, m); r.Ok? ==> Told(n, runner, ctx0, r.value)
  {
    hide Mid, WfNet, BuildJobs, RunJobs, MergeJobs, ParallelBatch, Mergeable, JobOk, Told, JobAnswered, AllAnswered,
         HeldAnswered;
    MidContext(n, m, {}, {});
    var m2, jobs, runs := RoundJobs(n, cfg, runner, m);
    if ParallelRound(n, cfg, runner, m).Ok? {
      var batch := ParallelBatch(m.st.ready, cfg.maxConcurrency);
      var m0, fly := Emptied(m), ItemPairs(batch);
      ParallelBatchFacts(m.st.ready, cfg.maxConcurrency);
      DrainMid(n, m, cfg.maxConcurrency);
      SameTold(n, runner, ctx0, m, m0);
      BuildAllTold(n, runner, ctx0, m0, fly, {}, batch);
      BuildAllSafe(n, runner, m0, fly, {}, batch);
      var m1 := BuildJobs(n, runner, m0, batch).value.0;
      RunAllTold(n, runner, ctx0, m1, jobs, |m1.st.order|);
      JobsHeld(n, runner, ctx0, m2.effects, m2.st, jobs, runs);
      MergeTold(n, runner, ctx0, m2, jobs, runs);
    }
  }

  // -------------------------------------------------------------------- whole runs

  lemma StartTelling(n: Cpn, runner: Runner, ctx: Store)
    requires WfNet(n) && Wf(ctx)
    ensures Start(n, ctx).Ok? && Told(n, runner, ctx, Start(n, ctx).value)
  {
    hide View, Applied, Balanced, EnqueueRoots, WfNet, Fifo;
    StartShape(n, ctx);
    FreshAccounted(n, ctx, Start(n, ctx).value);
    NoQueues(n);
  }

  lemma NoQueues(n: Cpn)
    ensures Fifo(Initial(n).placeTokens, 0)
  {
    assert forall p, k :: Tokens(Initial(n).placeTokens, p, k) == [];
  }

  lemma {:induction false} RunTold(n: Cpn, cfg: Config, runner: Runner, ctx: Store, i: nat)
    requires WfNet(n) && Wf(ctx) && Run(n, cfg, runner, ctx, i).Ok?
    ensures Told(n, runner, ctx, Run(n, cfg, runner, ctx, i).value)
  {
    hide Mid, Over, WfNet, ProcessItem, NextBatch, ParallelRound, Start, Told;
    RunSafe(n, cfg, runner, ctx, i);
    if i == 0 {
      StartTelling(n, runner, ctx);
    } else {
      RunTold(n, cfg, runner, ctx, i - 1);
      RunSafe(n, cfg, runner, ctx, i - 1);
      var m := Run(n, cfg, runner, ctx, i - 1).value;
      if !Halted(m) {
        if m.batch != [] {
          ItemTold(n, runner, ctx, m);
        } else if cfg.maxConcurrency > 1 {
          RoundTold(n, cfg, runner, ctx, m);
        } else {
          SameTold(n, runner, ctx, m, Turn(n, cfg, runner, m).value);
        }
      }
    }
  }

  /** The inputs were enough for the join and come arc by arc, oldest first. */
  ghost predicate Given(n: Cpn, tk: Pair, inputs: seq<TriggerInput>) {
    tk.0 in n.specs && May(n, tk.0, p => At(inputs, p)) && Ordered(In(n, tk.0), inputs)
  }

  /**
   * In every state of every run, serial or parallel: the inputs of each completed and each started
   * pair were enough for its join, and each of its results, retried ones included, is what the
   * runner answered to that attempt on those inputs; overdue Tasks and Terminals timed out, AllOf
   * pairs with a bad input were skipped, and the runner saw the context as the lasting writes up
   * to then had left it.
   */
  lemma ResultsAreAnswers(n: Cpn, cfg: Config, runner: Runner, ctx: Store, i: nat)
    requires WfNet(n) && Wf(ctx) && Run(n, cfg, runner, ctx, i).Ok?
    ensures var m := Run(n, cfg, runner, ctx, i).value;
            && (forall j :: 0 <= j < |m.st.fired| ==>
                  var f := m.st.fired[j];
                  && Given(n, PairOf(f), f.inputs)
                  && (forall a :: 0 <= a < |f.retried| ==>
                        Answers(runner, ctx, m.effects, n.specs[f.transition], f.key, f.inputs, a, f.retried[a]))
                  && Answers(runner, ctx, m.effects, n.specs[f.transition], f.key, f.inputs, |f.retried|, f.result))
            && (forall tk :: tk in m.st.cache ==>
                  var retried := GetOr(m.st.retried, tk, []);
                  && Given(n, tk, m.st.cache[tk])
                  && forall a :: 0 <= a < |retried| ==>
                       Answers(runner, ctx, m.effects, n.specs[tk.0], tk.1, m.st.cache[tk], a, retried[a]))
  {
    hide WfNet, Run, Answers, May, Ordered, Accounted, Fifo;
    RunTold(n, cfg, runner, ctx, i);
    var m := Run(n, cfg, runner, ctx, i).value;
    forall j | 0 <= j < |m.st.fired| ensures FiringExplained(n, runner, ctx, m.effects, m.st.fired[j]) {}
    forall tk | tk in m.st.cache
      ensures HeldExplained(n, runner, ctx, m.effects, tk, m.st.cache[tk], GetOr(m.st.retried, tk, []))
    {}
  }

  /** In every state of every run the tokens of each bucket stand in the order they were minted in. */
  lemma QueuesAreFifo(n: Cpn, cfg: Config, runner: Runner, ctx: Store, i: nat)
    requires WfNet(n) && Wf(ctx) && Run(n, cfg, runner, ctx, i).Ok?
    ensures forall p, k :: Rising(Tokens(StateAt(n, cfg, runner, ctx, i).placeTokens, p, k))
  {
    hide WfNet, Run, HeldExplained, FiringExplained, Rising, Tokens;
    RunTold(n, cfg, runner, ctx, i);
  }
}
