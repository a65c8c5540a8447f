/**
 * With a runner that looks at neither the context, the clock nor the token numbers, every result of
 * every run, serial or parallel, follows from the inputs of its pair.
 */
module EngineVerdicts {
  import opened Net
  import opened ContextModel
  import opened Router
  import opened EngineModel
  import opened EngineSafety
  import opened EngineInputs
  import opened EngineLedger
  import opened EngineRouter
  import opened EngineAnswers

  function BlindToken(t: Token): Token { t.(meta := t.meta.(sequence := 0)) }

  function BlindInputs(inputs: seq<TriggerInput>): (r: seq<TriggerInput>)
    ensures |r| == |inputs|
    ensures forall i :: 0 <= i < |r| ==> r[i] == inputs[i].(token := BlindToken(inputs[i].token))
  {
    seq(|inputs|, i requires 0 <= i < |inputs| => inputs[i].(token := BlindToken(inputs[i].token)))
  }

  /** The trigger without the sequence numbers. */
  function Blind(t: Trigger): Trigger { t.(inputs := BlindInputs(t.inputs)) }

  predicate SameVerdict(a: RunReport, b: RunReport) {
    a.outcome == b.outcome && a.payload == b.payload && a.overdue == b.overdue
  }

  /** The runner decides from the spec, the attempt and the blinded trigger alone. */
  ghost predicate Blindfolded(runner: Runner) {
    forall spec, attempt, trigger, ctx, tick ::
      SameVerdict(runner(spec, attempt, trigger, ctx, tick), runner(spec, attempt, Blind(trigger), FRESH, 0))
  }

  /** The result of an attempt, as a function of what the runner may look at. */
  function Verdict(runner: Runner, spec: ExecSpec, attempt: nat, trigger: Trigger): RunResult {
    var report := runner(spec, attempt, Blind(trigger), FRESH, 0);
    if Skips(spec, trigger) then RunResult(Skipped, Null)
    else
      match spec.kind
      case RouterTo(_) => RunResult(RouterOutcome(report, spec.timeoutMs), report.payload)
      case Gate => RunResult(Success, Null)
      case _ => RunResult(TaskOutcome(spec, report), report.payload)
  }

  /** A blindfolded runner's answer is the verdict. */
  lemma AnswerIsVerdict(runner: Runner, ctx0: Store, effects: seq<Effect>, spec: ExecSpec, k: Key,
                        inputs: seq<TriggerInput>, a: nat, r: RunResult)
    requires Blindfolded(runner) && Answers(runner, ctx0, effects, spec, k, inputs, a, r)
    ensures r == Verdict(runner, spec, a, Trigger(k, inputs))
  {
    hide SeenAt;
    var trigger := Trigger(k, inputs);
    if !BadInput(spec, inputs) && spec.kind.RouterTo? {
      var c, tick, x :| RouterAnswers(runner, ctx0, effects, spec, a, trigger, r, c, tick, x);
      assert SameVerdict(runner(spec, a, trigger, c, tick), runner(spec, a, Blind(trigger), FRESH, 0));
    } else if !BadInput(spec, inputs) && !spec.kind.Gate? {
      var c, tick, x :| TaskAnswers(runner, ctx0, effects, spec, a, trigger, r, c, tick, x);
      assert SameVerdict(runner(spec, a, trigger, c, tick), runner(spec, a, Blind(trigger), FRESH, 0));
    }
  }

  lemma VerdictBlind(runner: Runner, spec: ExecSpec, attempt: nat, a: Trigger, b: Trigger)
    requires Blind(a) == Blind(b)
    ensures Verdict(runner, spec, attempt, a) == Verdict(runner, spec, attempt, b)
  {
    assert |a.inputs| == |Blind(a).inputs| == |Blind(b).inputs| == |b.inputs|;
    forall i | 0 <= i < |a.inputs| ensures a.inputs[i].token.meta.outcome == b.inputs[i].token.meta.outcome {
      assert Blind(a).inputs[i] == Blind(b).inputs[i];
    }
    if Skips(spec, a) {
      var i :| 0 <= i < |a.inputs| && a.inputs[i].token.meta.outcome != Success;
      assert b.inputs[i] in b.inputs;
    }
    if Skips(spec, b) {
      var i :| 0 <= i < |b.inputs| && b.inputs[i].token.meta.outcome != Success;
      assert a.inputs[i] in a.inputs;
    }
  }

  // -------------------------------------------------- every firing is determined

  ghost predicate HeldDetermined(n: Cpn, runner: Runner, tk: Pair, inputs: seq<TriggerInput>, retried: seq<RunResult>) {
    && KeyOk(n, tk) && Shaped(FirstArcs(In(n, tk.0), {}), inputs)
    && forall i :: 0 <= i < |retried| ==> retried[i] == Verdict(runner, n.specs[tk.0], i, Trigger(tk.1, inputs))
  }

  ghost predicate FiringDetermined(n: Cpn, runner: Runner, f: Firing) {
    && HeldDetermined(n, runner, PairOf(f), f.inputs, f.retried)
    && f.result == Verdict(runner, n.specs[f.transition], |f.retried|, Trigger(f.key, f.inputs))
  }

  /** Inputs have the fixed shape, and results follow from the inputs. */
  ghost predicate Determined(n: Cpn, runner: Runner, s: State) {
    && (forall tk :: tk in s.cache ==> HeldDetermined(n, runner, tk, s.cache[tk], GetOr(s.retried, tk, [])))
    && (forall j :: 0 <= j < |s.fired| ==> FiringDetermined(n, runner, s.fired[j]))
  }

  lemma HeldFollows(n: Cpn, runner: Runner, ctx0: Store, effects: seq<Effect>, tk: Pair, inputs: seq<TriggerInput>,
                    retried: seq<RunResult>)
    requires OneProducer(n) && Waiting(n) && Blindfolded(runner)
    requires HeldExplained(n, runner, ctx0, effects, tk, inputs, retried)
    ensures HeldDetermined(n, runner, tk, inputs, retried)
  {
    hide OneProducer, Waiting, Blindfolded, Answers, Verdict, May, Ordered;
    forall i | 0 <= i < |retried| ensures retried[i] == Verdict(runner, n.specs[tk.0], i, Trigger(tk.1, inputs)) {
      AnswerIsVerdict(runner, ctx0, effects, n.specs[tk.0], tk.1, inputs, i, retried[i]);
    }
  }

  lemma ExplainedFollows(n: Cpn, runner: Runner, ctx0: Store, effects: seq<Effect>, s: State)
    requires OneProducer(n) && Waiting(n) && Blindfolded(runner) && Explained(n, runner, ctx0, effects, s)
    ensures Determined(n, runner, s)
  {
    hide OneProducer, Waiting, Blindfolded, Answers, Verdict, HeldExplained, HeldDetermined, Fifo;
    forall tk | tk in s.cache ensures HeldDetermined(n, runner, tk, s.cache[tk], GetOr(s.retried, tk, [])) {
      HeldFollows(n, runner, ctx0, effects, tk, s.cache[tk], GetOr(s.retried, tk, []));
    }
    forall j | 0 <= j < |s.fired| ensures FiringDetermined(n, runner, s.fired[j]) {
      var f := s.fired[j];
      assert FiringExplained(n, runner, ctx0, effects, f);
      HeldSpec(n, runner, ctx0, effects, PairOf(f), f.inputs, f.retried);
      HeldFollows(n, runner, ctx0, effects, PairOf(f), f.inputs, f.retried);
      AnswerIsVerdict(runner, ctx0, effects, n.specs[f.transition], f.key, f.inputs, |f.retried|, f.result);
    }
  }

  /** In every run each result is the verdict on the inputs of its pair, and nothing stops the run early. */
  lemma RunDetermined(n: Cpn, cfg: Config, runner: Runner, ctx: Store, i: nat)
    requires WfNet(n) && OneProducer(n) && Waiting(n) && Blindfolded(runner)
    requires Wf(ctx) && Run(n, cfg, runner, ctx, i).Ok?
    ensures Determined(n, runner, Run(n, cfg, runner, ctx, i).value.st) && !Run(n, cfg, runner, ctx, i).value.stopped
  {
    hide WfNet, OneProducer, Blindfolded, Run, Explained, Accounted, Entered, Recorded, Marked, Determined;
    RunTold(n, cfg, runner, ctx, i);
    var m := Run(n, cfg, runner, ctx, i).value;
    ExplainedFollows(n, runner, ctx, m.effects, m.st);
    RunBooks(n, cfg, runner, ctx, i);
  }
}
