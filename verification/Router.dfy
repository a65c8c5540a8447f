/** Subgraph boundary semantics: begin, run, then commit or roll back (`execution/router.rs`). */
module Router {
  import opened Prelude
  import opened ContextModel

  datatype Outcome = Success | Failure | Timeout | Cancelled | Skipped

  /** The context operations a runner may use: put, remove and commit_session. */
  type InnerOp = op: Op | Inner(op) witness CommitSession(0)

  /** One call of the runner: its verdict, its writes, and whether it overran its deadline. */
  datatype RunReport = RunReport(outcome: Outcome, payload: Json, ops: seq<InnerOp>, overdue: bool)

  datatype RouterMetrics = RouterMetrics(
    executeTotal: nat, successTotal: nat, failureTotal: nat, timeoutTotal: nat,
    cancelledTotal: nat, skippedTotal: nat, commitTotal: nat, rollbackTotal: nat)

  const ZERO_METRICS := RouterMetrics(0, 0, 0, 0, 0, 0, 0, 0)

  /** Only an unsuccessful run is reclassified when the deadline was missed. */
  function RouterOutcome(report: RunReport, timeoutMs: nat): Outcome {
    if timeoutMs > 0 && report.overdue && report.outcome != Success then Timeout else report.outcome
  }

  function Tally(m: RouterMetrics, outcome: Outcome): RouterMetrics {
    match outcome
    case Success => m.(successTotal := m.successTotal + 1, commitTotal := m.commitTotal + 1)
    case Failure => m.(failureTotal := m.failureTotal + 1, rollbackTotal := m.rollbackTotal + 1)
    case Timeout => m.(timeoutTotal := m.timeoutTotal + 1, rollbackTotal := m.rollbackTotal + 1)
    case Cancelled => m.(cancelledTotal := m.cancelledTotal + 1, rollbackTotal := m.rollbackTotal + 1)
    case Skipped => m.(skippedTotal := m.skippedTotal + 1, rollbackTotal := m.rollbackTotal + 1)
  }

  datatype Routed = Routed(outcome: Outcome, payload: Json, context: Store, metrics: RouterMetrics)

  function Settle(id: string, outcome: Outcome): Op {
    if outcome == Success then CommitOverlay(id) else RollbackOverlay(id)
  }

  function ExecuteRouter(context: Store, id: string, metrics: RouterMetrics, run: Store -> RunReport, timeoutMs: nat)
    : (r: Result<Routed, ContextError>)
    requires Wf(context)
    ensures r.Ok? ==> Wf(r.value.context)
  {
    var (begun, reply) := Step(context, Begin(id));
    if reply.Failed? then Err(reply.error) else
    var report := run(begun);
    var ran := Steps(begun, report.ops);
    var outcome := RouterOutcome(report, timeoutMs);
    var (settled, reply') := Step(ran, Settle(id, outcome));
    if reply'.Failed? then Err(reply'.error) else
    Ok(Routed(outcome, report.payload, settled, Tally(metrics.(executeTotal := metrics.executeTotal + 1), outcome)))
  }

  /** Every execution is counted under exactly one outcome, and settles the overlay once. */
  predicate Balanced(m: RouterMetrics) {
    && m.executeTotal == m.successTotal + m.failureTotal + m.timeoutTotal + m.cancelledTotal + m.skippedTotal
    && m.commitTotal == m.successTotal
    && m.rollbackTotal == m.executeTotal - m.successTotal
  }

  /** Inside a run nothing but the slots, the session version and the write counters moves. */
  lemma {:induction false} InnerStepsFrame(s: Store, ops: seq<Op>)
    requires Wf(s) && forall op :: op in ops ==> Inner(op)
    ensures Steps(s, ops).rollbackTotal == s.rollbackTotal && Steps(s, ops).active == s.active
    ensures Steps(s, ops).skipped == s.skipped
    decreases |ops|
  {
    if ops != [] {
      assert Inner(ops[0]) && forall op :: op in ops[1..] ==> op in ops;
      InnerStepsFrame(Step(s, ops[0]).0, ops[1..]);
    }
  }

  /** The counter of each outcome. */
  function CountOf(m: RouterMetrics, outcome: Outcome): nat {
    match outcome
    case Success => m.successTotal
    case Failure => m.failureTotal
    case Timeout => m.timeoutTotal
    case Cancelled => m.cancelledTotal
    case Skipped => m.skippedTotal
  }

  /** One more execution with this outcome, counted there, and as a commit or a rollback. */
  ghost predicate OneMore(before: RouterMetrics, after: RouterMetrics, outcome: Outcome) {
    && after.executeTotal == before.executeTotal + 1
    && (forall o :: CountOf(after, o) == CountOf(before, o) + if o == outcome then 1 else 0)
    && after.commitTotal == before.commitTotal + (if outcome == Success then 1 else 0)
    && after.rollbackTotal == before.rollbackTotal + (if outcome == Success then 0 else 1)
  }

  lemma TallyCounts(m: RouterMetrics, outcome: Outcome)
    ensures OneMore(m, Tally(m.(executeTotal := m.executeTotal + 1), outcome), outcome)
  {}

  lemma OneMoreBalances(before: RouterMetrics, after: RouterMetrics, outcome: Outcome)
    requires Balanced(before) && OneMore(before, after, outcome)
    ensures Balanced(after)
  {
    assert forall o :: CountOf(after, o) == CountOf(before, o) + if o == outcome then 1 else 0;
    assert after.successTotal == CountOf(after, Success) && after.failureTotal == CountOf(after, Failure);
    assert after.timeoutTotal == CountOf(after, Timeout) && after.cancelledTotal == CountOf(after, Cancelled);
    assert after.skippedTotal == CountOf(after, Skipped);
  }

  lemma BegunFrame(s: Store, id: string)
    requires Wf(s)
    ensures var (r, reply) := Step(s, Begin(id));
            if s.active.None? then reply == Done && r.rollbackTotal == s.rollbackTotal && r.skipped == s.skipped
            else reply.Failed?
  {}

  /** After the run the subgraph is still open, and settling it commits or undoes the writes. */
  lemma RunShape(s: Store, id: string, ops: seq<InnerOp>)
    requires Wf(s) && s.active.None?
    ensures var begun := Step(s, Begin(id)).0;
            var ran := Steps(begun, ops);
            && ran.active == Some(id) && ran.rollbackTotal == begun.rollbackTotal && ran.skipped == begun.skipped
            && forall outcome ::
                 var (r, reply) := Step(ran, Settle(id, outcome));
                 && reply == Done && r.active == None
                 && View(r) == if outcome == Success then Written(View(s), ops) else View(s)
  {
    assert forall op :: op in ops ==> Inner(op);
    Transaction(s, id, ops);
    InnerStepsFrame(Step(s, Begin(id)).0, ops);
    hide Steps, View, Written, Step;
  }

  lemma SettleFrame(s: Store, id: string, outcome: Outcome)
    requires Wf(s) && s.active == Some(id)
    ensures var r := Step(s, Settle(id, outcome)).0;
            && r.rollbackTotal == s.rollbackTotal + (if outcome == Success then 0 else 1)
            && r.skipped == s.skipped
  {}

  /**
   * A router attempt is atomic: without an open subgraph it never errs; a success stands even if
   * late, and of the rest what missed a set deadline is a Timeout; the view changes by the run's
   * writes exactly on Success; and the attempt is counted once, under its outcome.
   */
  lemma RouterIsAtomic(context: Store, id: string, metrics: RouterMetrics, run: Store -> RunReport, timeoutMs: nat)
    requires Wf(context)
    ensures ExecuteRouter(context, id, metrics, run, timeoutMs).Ok? <==> context.active.None?
    ensures context.active.None? ==>
      var r := ExecuteRouter(context, id, metrics, run, timeoutMs).value;
      var report := run(Step(context, Begin(id)).0);
      && (report.outcome == Success ==> r.outcome == Success)
      && (report.outcome != Success ==>
            r.outcome == if timeoutMs > 0 && report.overdue then Timeout else report.outcome)
      && r.payload == report.payload && r.context.active == None
      && View(r.context) == (if r.outcome == Success then Written(View(context), report.ops) else View(context))
      && OneMore(metrics, r.metrics, r.outcome) && (Balanced(metrics) ==> Balanced(r.metrics))
      && r.context.rollbackTotal - context.rollbackTotal == r.metrics.rollbackTotal - metrics.rollbackTotal
      && r.context.skipped == context.skipped
  {
    if context.active.None? {
      var begun := Step(context, Begin(id)).0;
      var report := run(begun);
      var ran := Steps(begun, report.ops);
      var outcome := RouterOutcome(report, timeoutMs);
      BegunFrame(context, id);
      RunShape(context, id, report.ops);
      SettleFrame(ran, id, outcome);
      TallyCounts(metrics, outcome);
      var counted := Tally(metrics.(executeTotal := metrics.executeTotal + 1), outcome);
      if Balanced(metrics) {
        OneMoreBalances(metrics, counted, outcome);
      }
      hide Step, Steps, Tally, Balanced, View, Written, Settle, CountOf;
      assert ExecuteRouter(context, id, metrics, run, timeoutMs)
          == Ok(Routed(outcome, report.payload, Step(ran, Settle(id, outcome)).0,
                       Tally(metrics.(executeTotal := metrics.executeTotal + 1), outcome)));
    }
  }

  method RunWrites(context: RuntimeContext, ops: seq<InnerOp>)
    requires context.Valid()
    modifies context
    ensures context.Valid() && context.Model() == Steps(old(context.Model()), ops)
  {
    for i := 0 to |ops|
      invariant context.Valid() && context.Model() == Steps(old(context.Model()), ops[..i])
    {
      assert ops[..i + 1] == ops[..i] + [ops[i]];
      StepsAppend(old(context.Model()), ops[..i], [ops[i]]);
      match ops[i] {
        case Put(key, entry) => context.Put(key, entry);
        case Remove(key) => context.Remove(key);
        case CommitSession(expected) => var _ := context.CommitSession(expected);
      }
    }
    assert ops[..|ops|] == ops;
  }

  method Execute(context: RuntimeContext, id: string, metrics: RouterMetrics, run: Store -> RunReport, timeoutMs: nat)
    returns (r: Result<(Outcome, Json), ContextError>, metrics': RouterMetrics)
    requires context.Valid()
    modifies context
    ensures context.Valid()
    ensures match ExecuteRouter(old(context.Model()), id, metrics, run, timeoutMs)
            case Err(e) => r == Err(e)
            case Ok(routed) =>
              && r == Ok((routed.outcome, routed.payload))
              && context.Model() == routed.context && metrics' == routed.metrics
  {
    metrics' := metrics.(executeTotal := metrics.executeTotal + 1);
    var reply := context.BeginSubgraph(id);
    if reply.Failed? {
      return Err(reply.error), metrics';
    }
    var report := run(context.Model());
    RunWrites(context, report.ops);
    var outcome := RouterOutcome(report, timeoutMs);
    if outcome == Success {
      reply := context.CommitOverlay(id);
    } else {
      reply := context.RollbackOverlay(id);
    }
    if reply.Failed? {
      return Err(reply.error), metrics';
    }
    return Ok((outcome, report.payload)), Tally(metrics', outcome);
  }
}
