/** Every step of a run succeeds and keeps the invariants; whole runs end within their budget. */
module EngineRuns {
  import opened Prelude
  import opened Net
  import opened ContextModel
  import opened Router
  import opened EngineModel
  import opened EngineTokens
  import opened EngineSafety
  import opened EngineQueue
  import opened EngineScheduling

  // ------------------------------------------------------------------ invariants

  /** Between two steps; `fly` is taken off the queue, `paid` is in the execution order. */
  ghost predicate Mid(n: Cpn, m: Machine, fly: set<Pair>, paid: set<Pair>)
    requires WfNet(n)
  {
    && Wf(m.ctx)
    && Safe(n, m.st, fly) && Settled(n, m.st)
    && QueueInv(m.batch, m.st.ready, m.st.readySet)
    && !m.stopped && |m.st.order| + Budget(n, m.st, paid) <= Bound(n)
  }

  /** After a Terminal transition: nothing is waiting any more. */
  ghost predicate Over(n: Cpn, m: Machine)
    requires WfNet(n)
  {
    && Wf(m.ctx)
    && Safe(n, m.st, {}) && Settled(n, m.st)
    && m.stopped && m.batch == [] && m.st.ready == [] && m.st.readySet == {} && |m.st.order| <= Bound(n)
  }

  ghost predicate Inv(n: Cpn, m: Machine)
    requires WfNet(n)
  {
    if m.stopped then Over(n, m) else Mid(n, m, {}, {})
  }

  /** The serial path forgets nothing. */
  ghost predicate NothingLost(n: Cpn, m: Machine, fly: set<Pair>) {
    !m.stopped ==> WakeInv(n, m.st.placeTokens, m.st.cache, m.st.completedKeys, m.st.readySet + fly)
  }

  /** `tk` holds its inputs and `run` is a legal result for them. */
  ghost predicate Holds(n: Cpn, s: State, tk: Pair, attempt: nat, run: RunResult) {
    && tk in s.cache && attempt == GetOr(s.attempts, tk, 0) && tk.0 in n.specs
    && (Skips(n.specs[tk.0], Trigger(tk.1, s.cache[tk])) ==> run == RunResult(Skipped, Null))
  }

  // --------------------------------------------------------- concluding an attempt

  lemma ConcludedFiring(n: Cpn, s: State, fly: set<Pair>, tk: Pair, attempt: nat, run: RunResult)
    requires Safe(n, s, fly) && tk in fly && Holds(n, s, tk, attempt, run)
    ensures attempt <= n.specs[tk.0].maxRetries && KeyOk(n, tk) && !IsDone(s.completedKeys, tk.0, tk.1)
    ensures !(Retryable(run.outcome) && attempt + 1 <= n.specs[tk.0].maxRetries)
            ==> FiringOk(n, FiringOf(s, tk.0, tk.1, run))
  {
    assert |GetOr(s.retried, tk, [])| == attempt;
    assert KeyOk(n, tk);
  }

  function Requeued(s: State, tk: Pair, attempt: nat, run: RunResult): State {
    s.(attempts := s.attempts[tk := attempt + 1], retryTotal := s.retryTotal + 1,
       retried := s.retried[tk := GetOr(s.retried, tk, []) + [run]])
  }

  lemma ConcludeRetry(n: Cpn, s: State, fly: set<Pair>, tk: Pair, attempt: nat, run: RunResult)
    requires Safe(n, s, fly) && tk in fly && Holds(n, s, tk, attempt, run)
    requires Retryable(run.outcome) && attempt + 1 <= n.specs[tk.0].maxRetries
    ensures var r := PushReady(n, Requeued(s, tk, attempt, run), tk.0, tk.1, true);
            && r.Ok? && Safe(n, r.value, fly - {tk})
            && r.value == Requeued(s, tk, attempt, run).(ready := r.value.ready, readySet := r.value.readySet)
            && (exists item :: ItemPair(item) == tk && r.value.ready == s.ready + [item])
            && r.value.readySet == s.readySet + {tk} && tk !in s.readySet
  {
    hide Safe, KeyOk, FiringOk, Skips, Enabled;
    RetrySafe(n, s, fly, tk, run);
    ConcludedFiring(n, s, fly, tk, attempt, run);
    InFlight(n, s, fly, tk);
    var s' := Requeued(s, tk, attempt, run);
    assert s' == s.(attempts := s.attempts[tk := GetOr(s.attempts, tk, 0) + 1], retryTotal := s.retryTotal + 1,
                    retried := s.retried[tk := GetOr(s.retried, tk, []) + [run]]);
    hide Holds;
    PushSafe(n, s', fly - {tk}, tk, true);
    var spec := n.specs[tk.0];
    assert ItemPair(ReadyItem(tk.0, tk.1, spec.topoLevel, spec.transition.priority, true)) == tk;
  }

  lemma InFlight(n: Cpn, s: State, fly: set<Pair>, tk: Pair)
    requires Safe(n, s, fly) && tk in fly
    ensures tk !in s.readySet
  {
  }

  /** What concluding `tk` leaves alone: every other pair's inputs, attempts and completion. */
  ghost predicate OthersKept(s: State, s': State, tk: Pair) {
    && s'.order == s.order
    && (forall o :: o != tk ==> && (o in s.cache <==> o in s'.cache)
                                && GetOr(s.cache, o, []) == GetOr(s'.cache, o, [])
                                && GetOr(s.attempts, o, 0) == GetOr(s'.attempts, o, 0)
                                && (IsDone(s.completedKeys, o.0, o.1) <==> IsDone(s'.completedKeys, o.0, o.1)))
  }

  lemma BudgetKept(n: Cpn, s: State, s': State, paid: set<Pair>, tk: Pair)
    requires WfNet(n) && KeyOk(n, tk) && OthersKept(s, s', tk) && tk in paid && !IsDone(s.completedKeys, tk.0, tk.1)
    requires IsDone(s'.completedKeys, tk.0, tk.1) || GetOr(s'.attempts, tk, 0) == GetOr(s.attempts, tk, 0) + 1
    requires GetOr(s.attempts, tk, 0) <= n.specs[tk.0].maxRetries
    ensures Budget(n, s', paid - {tk}) <= Budget(n, s, paid)
  {
    forall o: Pair | o.0 in n.specs
      ensures Left(n, s'.completedKeys, s'.attempts, paid - {tk}, o) <= Left(n, s.completedKeys, s.attempts, paid, o)
    {
      assert o != tk ==> GetOr(s.attempts, o, 0) == GetOr(s'.attempts, o, 0);
    }
    TotalSpends(n, s.completedKeys, s.attempts, paid, s'.completedKeys, s'.attempts, paid - {tk}, tk, 0,
                n.ids, Listed(RootKeys(n)));
  }

  /** Paying for an attempt takes one unit of budget. */
  lemma BudgetPays(n: Cpn, s: State, paid: set<Pair>, tk: Pair)
    requires WfNet(n) && KeyOk(n, tk) && tk !in paid && !IsDone(s.completedKeys, tk.0, tk.1)
    requires GetOr(s.attempts, tk, 0) <= n.specs[tk.0].maxRetries
    ensures Budget(n, s, paid + {tk}) + 1 <= Budget(n, s, paid)
  {
    TotalSpends(n, s.completedKeys, s.attempts, paid, s.completedKeys, s.attempts, paid + {tk}, tk, 1,
                n.ids, Listed(RootKeys(n)));
  }

  lemma ShutdownSafe(n: Cpn, s: State, fly: set<Pair>)
    requires Safe(n, s, fly)
    ensures Safe(n, Shutdown(n, s), {})
  {
  }

  lemma CompleteRest(n: Cpn, m: Machine, tk: Pair, run: RunResult)
    requires QueueInv(m.batch, m.st.ready, m.st.readySet) && Complete(n, m.st, tk.0, tk.1, run).Ok?
    ensures var s' := Complete(n, m.st, tk.0, tk.1, run).value;
            && QueueInv(m.batch, s'.ready, s'.readySet) && OthersKept(m.st, s', tk)
            && IsDone(s'.completedKeys, tk.0, tk.1)
  {
    var f := FiringOf(m.st, tk.0, tk.1, run);
    var s1 := MarkCompleted(m.st, f);
    QueueEmit(n, s1, m.batch, f, Out(n, tk.0));
    EmitFrames(n, s1, f, Out(n, tk.0));
  }

  lemma RequeueRest(n: Cpn, m: Machine, tk: Pair, attempt: nat, run: RunResult)
    requires QueueInv(m.batch, m.st.ready, m.st.readySet) && attempt == GetOr(m.st.attempts, tk, 0)
    requires PushReady(n, Requeued(m.st, tk, attempt, run), tk.0, tk.1, true).Ok?
    requires tk !in m.st.readySet && !IsDone(m.st.completedKeys, tk.0, tk.1)
    ensures var s' := PushReady(n, Requeued(m.st, tk, attempt, run), tk.0, tk.1, true).value;
            && QueueInv(m.batch, s'.ready, s'.readySet) && OthersKept(m.st, s', tk)
            && GetOr(s'.attempts, tk, 0) == attempt + 1
  {
    var spec := n.specs[tk.0];
    QueuePush(m.batch, m.st.ready, m.st.readySet,
              ReadyItem(tk.0, tk.1, spec.topoLevel, spec.transition.priority, true));
  }

  /** An attempt in flight is requeued or completed without error, and the invariants hold after. */
  lemma ConcludeSafe(n: Cpn, m: Machine, fly: set<Pair>, paid: set<Pair>, tk: Pair, attempt: nat, run: RunResult)
    requires WfNet(n) && Mid(n, m, fly, paid) && tk in fly && tk in paid && Holds(n, m.st, tk, attempt, run)
    requires forall o :: o in fly && o != tk ==> o.1 != tk.1
    ensures var r := Conclude(n, m, n.specs[tk.0], tk, attempt, run);
            && r.Ok? && OthersKept(m.st, r.value.st, tk) && r.value.ctx.active == m.ctx.active
            && if r.value.stopped then Over(n, r.value)
               else Mid(n, r.value, fly - {tk}, paid - {tk}) && r.value.batch == m.batch
  {
    hide Safe, Settled, QueueInv, OthersKept, Budget, Bound, WfNet, FiringOk, Complete, PushReady;
    ConcludedFiring(n, m.st, fly, tk, attempt, run);
    if Retryable(run.outcome) && attempt + 1 <= n.specs[tk.0].maxRetries {
      ConcludeRetry(n, m.st, fly, tk, attempt, run);
      RequeueRest(n, m, tk, attempt, run);
      var s' := PushReady(n, Requeued(m.st, tk, attempt, run), tk.0, tk.1, true).value;
      BudgetKept(n, m.st, s', paid, tk);
      SettledSame(n, m.st, s');
      OrderKept(m.st, s', tk);
    } else {
      CompleteSafe(n, m.st, fly, tk, run);
      CompleteRest(n, m, tk, run);
      var s' := Complete(n, m.st, tk.0, tk.1, run).value;
      BudgetKept(n, m.st, s', paid, tk);
      ShutdownSafe(n, s', fly - {tk});
      SettledSame(n, s', Shutdown(n, s'));
      OrderKept(m.st, s', tk);
      ShutdownKeeps(n, m.st, s', tk);
    }
  }

  lemma SettledSame(n: Cpn, s: State, s': State)
    requires s'.fired == s.fired && s'.tokenSequence == s.tokenSequence
    ensures Settled(n, s) <==> Settled(n, s')
  {
  }

  lemma OrderKept(s: State, s': State, tk: Pair)
    requires OthersKept(s, s', tk)
    ensures s'.order == s.order
  {
  }

  lemma ShutdownKeeps(n: Cpn, s: State, s': State, tk: Pair)
    requires OthersKept(s, s', tk)
    ensures OthersKept(s, Shutdown(n, s'), tk)
  {
  }

  // ------------------------------------------------------------ starting an attempt

  /** The machine after the inputs are taken and the attempt is entered in the order. */
  function Started(m: Machine, s1: State, t: Id): Machine {
    m.(st := s1.(order := s1.order + [t]))
  }

  lemma OrderSafe(n: Cpn, s: State, fly: set<Pair>, order: seq<Id>)
    requires Safe(n, s, fly)
    ensures Safe(n, s.(order := order), fly)
  {
  }

  lemma TakeTries(n: Cpn, s: State, fly: set<Pair>, tk: Pair)
    requires Safe(n, s, fly) && tk in fly
    ensures KeyOk(n, tk) && !IsDone(s.completedKeys, tk.0, tk.1)
    ensures GetOr(s.attempts, tk, 0) <= n.specs[tk.0].maxRetries
  {
    assert KeyOk(n, tk);
  }

  lemma TakeFrame(n: Cpn, s: State, tk: Pair)
    requires EnsureTrigger(n, s, tk.0, tk.1).Ok?
    ensures forall o :: o in s.cache ==> o in EnsureTrigger(n, s, tk.0, tk.1).value.0.cache
                                         && EnsureTrigger(n, s, tk.0, tk.1).value.0.cache[o] == s.cache[o]
  {
  }

  /** A pair in flight starts its attempt: the inputs are there and one unit of budget pays for it. */
  lemma StartSafe(n: Cpn, m: Machine, fly: set<Pair>, paid: set<Pair>, tk: Pair)
    requires WfNet(n) && Mid(n, m, fly, paid) && tk in fly && tk !in paid
    ensures var r := EnsureTrigger(n, m.st, tk.0, tk.1);
            && r.Ok? && tk.0 in n.specs && !IsDone(m.st.completedKeys, tk.0, tk.1)
            && tk in r.value.0.cache && r.value.1 == Trigger(tk.1, r.value.0.cache[tk])
            && r.value.0 == m.st.(placeTokens := r.value.0.placeTokens, cache := r.value.0.cache)
            && Mid(n, Started(m, r.value.0, tk.0), fly, paid + {tk})
  {
    hide Safe, QueueInv, WfNet, EnsureTrigger, Total, Bound;
    TakeTries(n, m.st, fly, tk);
    TakeSafe(n, m.st, fly, tk);
    var s1 := EnsureTrigger(n, m.st, tk.0, tk.1).value.0;
    OrderSafe(n, s1, fly, s1.order + [tk.0]);
    BudgetPays(n, m.st, paid, tk);
  }

  /** The only possible error: a Router attempt while a subgraph is open. */
  ghost predicate OpenSubgraph(e: EngineError, ctx: Store) { e.ContextFailed? && ctx.active.Some? }

  /** Running an attempt touches only the context and its metrics, and leaves no subgraph open. */
  lemma AttemptSafe(m: Machine, spec: ExecSpec, attempt: nat, trigger: Trigger, runner: Runner, tick: nat)
    requires Wf(m.ctx)
    ensures var r := RunAttempt(m, spec, attempt, trigger, runner, tick);
            && (r.Err? ==> OpenSubgraph(r.error, m.ctx))
            && (r.Ok? ==> && Wf(r.value.0.ctx) && r.value.0.ctx.active == m.ctx.active
                          && (Skips(spec, trigger) ==> r.value.1 == RunResult(Skipped, Null)))
  {
    if !Skips(spec, trigger) {
      match spec.kind
      case RouterTo(subgraph) =>
        RouterIsAtomic(m.ctx, subgraph, m.router, InSubgraph(runner, spec, attempt, trigger, tick), spec.timeoutMs);
      case Gate =>
      case _ =>
        var ops := runner(spec, attempt, trigger, m.ctx, tick).ops;
        assert forall op :: op in ops ==> Inner(op);
        InnerStepsFrame(m.ctx, ops);
    }
  }

  lemma AttemptMid(n: Cpn, m: Machine, m': Machine, fly: set<Pair>, paid: set<Pair>)
    requires WfNet(n) && Mid(n, m, fly, paid) && Wf(m'.ctx)
    requires m' == m.(ctx := m'.ctx, router := m'.router, effects := m'.effects)
    ensures Mid(n, m', fly, paid)
  {
    hide Safe, QueueInv, Budget, Bound, Settled;
  }

  // --------------------------------------------------------------- the serial path

  lemma UnqueueSafe(n: Cpn, s: State, tk: Pair)
    requires Safe(n, s, {}) && tk in s.readySet
    ensures Safe(n, s.(readySet := s.readySet - {tk}), {tk})
  {
  }

  lemma UnqueueMid(n: Cpn, m: Machine)
    requires WfNet(n) && Mid(n, m, {}, {}) && m.batch != []
    ensures var tk := ItemPair(m.batch[0]);
            Mid(n, m.(batch := m.batch[1..], st := m.st.(readySet := m.st.readySet - {tk})), {tk}, {})
  {
    hide Safe, QueueInv, Total, Bound, Mints;
    QueuePop(m.batch, m.st.ready, m.st.readySet);
    UnqueueSafe(n, m.st, ItemPair(m.batch[0]));
  }

  /**
   * `process_one_item` errs only on a Router with an open subgraph; otherwise it keeps the
   * invariants and enters one attempt in the order.
   */
  lemma ItemSafe(n: Cpn, runner: Runner, m: Machine)
    requires WfNet(n) && Mid(n, m, {}, {}) && m.batch != []
    ensures var r := ProcessItem(n, runner, m.(batch := m.batch[1..]), m.batch[0]);
            && (r.Err? ==> OpenSubgraph(r.error, m.ctx))
            && (r.Ok? ==> && Inv(n, r.value) && r.value.st.order == m.st.order + [m.batch[0].transition]
                          && r.value.ctx.active == m.ctx.active)
  {
    hide Mid, Over, WfNet, EnsureTrigger, RunAttempt, Conclude, OthersKept;
    var tk := ItemPair(m.batch[0]);
    UnqueueMid(n, m);
    var m0 := m.(batch := m.batch[1..], st := m.st.(readySet := m.st.readySet - {tk}));
    StartSafe(n, m0, {tk}, {}, tk);
    var (s1, trigger) := EnsureTrigger(n, m0.st, tk.0, tk.1).value;
    var m1 := Started(m0, s1, tk.0);
    var attempt := GetOr(m0.st.attempts, tk, 0);
    MidContext(n, m1, {tk}, {} + {tk});
    AttemptSafe(m1, n.specs[tk.0], attempt, trigger, runner, |s1.order|);
    if RunAttempt(m1, n.specs[tk.0], attempt, trigger, runner, |s1.order|).Ok? {
      var (m2, run) := RunAttempt(m1, n.specs[tk.0], attempt, trigger, runner, |s1.order|).value;
      AttemptMid(n, m1, m2, {tk}, {} + {tk});
      ConcludeSafe(n, m2, {tk}, {} + {tk}, tk, attempt, run);
      var m3 := Conclude(n, m2, n.specs[tk.0], tk, attempt, run).value;
      OrderKept(m2.st, m3.st, tk);
      assert {tk} - {tk} == {} && {} + {tk} - {tk} == {};
    }
  }

  lemma MidContext(n: Cpn, m: Machine, fly: set<Pair>, paid: set<Pair>)
    requires WfNet(n) && Mid(n, m, fly, paid)
    ensures Wf(m.ctx) && !m.stopped && |m.st.order| <= Bound(n)
  {
  }

  lemma BatchSafe(n: Cpn, cfg: Config, m: Machine)
    requires WfNet(n) && Mid(n, m, {}, {}) && m.batch == [] && m.st.ready != []
    ensures var (batch, ready) := NextBatch(cfg, m.st.ready);
            batch != [] && Mid(n, m.(batch := batch, st := m.st.(ready := ready)), {}, {})
  {
    hide QueueInv, NextBatch, Total, Bound, Mints;
    NextBatchQueue(cfg, m.st.ready, m.st.readySet);
    NextBatchSplits(cfg, m.st.ready);
  }

  // ------------------------------------------------------------- the parallel path

  /** The job holds its inputs, and a result computed early is legal for them. */
  ghost predicate JobOk(n: Cpn, s: State, j: Job) {
    && j.tk.0 in n.specs && j.spec == n.specs[j.tk.0]
    && j.tk in s.cache && j.trigger == Trigger(j.tk.1, s.cache[j.tk]) && j.attempt == GetOr(s.attempts, j.tk, 0)
    && (j.run.Some? && Skips(j.spec, j.trigger) ==> j.run.value == RunResult(Skipped, Null))
  }

  ghost function ItemPairs(items: seq<ReadyItem>): set<Pair> { set i | i in items :: ItemPair(i) }

  ghost function JobPairs(jobs: seq<Job>): set<Pair> { set j | j in jobs :: j.tk }

  lemma DrainSafe(n: Cpn, s: State, fly: set<Pair>)
    requires Safe(n, s, {}) && fly <= s.readySet
    ensures Safe(n, s.(ready := [], readySet := {}), fly)
  {
  }

  lemma DrainMid(n: Cpn, m: Machine, max: nat)
    requires WfNet(n) && Mid(n, m, {}, {}) && m.batch == []
    ensures var drained := set i | i in m.st.ready :: (i.transition, i.key);
            Mid(n, m.(st := m.st.(ready := [], readySet := m.st.readySet - drained)),
                ItemPairs(ParallelBatch(m.st.ready, max)), {})
  {
    hide Total, Bound, Mints, ParallelBatch;
    var fly := ItemPairs(ParallelBatch(m.st.ready, max));
    var drained := set i | i in m.st.ready :: (i.transition, i.key);
    ParallelBatchFacts(m.st.ready, max);
    DrainAll(m.st.ready, m.st.readySet);
    assert fly <= m.st.readySet by {
      forall tk | tk in fly ensures tk in m.st.readySet {
        var i :| i in ParallelBatch(m.st.ready, max) && ItemPair(i) == tk;
        assert i in m.st.ready;
      }
    }
    DrainSafe(n, m.st, fly);
  }

  lemma DrainAll(ready: seq<ReadyItem>, readySet: set<Pair>)
    requires QueueInv([], ready, readySet)
    ensures readySet == set i | i in ready :: (i.transition, i.key)
    ensures forall i :: i in ready ==> ItemPair(i) in readySet
  {
    assert [] + ready == ready;
    forall i | i in ready ensures ItemPair(i) in readySet {
      var x :| 0 <= x < |ready| && ready[x] == i;
      assert PairsOf(ready)[x] == ItemPair(i);
    }
  }

  /** `build_parallel_job`: the job holds its inputs and earlier jobs keep theirs. */
  lemma BuildSafe(n: Cpn, runner: Runner, m: Machine, fly: set<Pair>, paid: set<Pair>, item: ReadyItem)
    requires WfNet(n) && Mid(n, m, fly, paid) && ItemPair(item) in fly && ItemPair(item) !in paid
    ensures var r := BuildJob(n, runner, m, item);
            && (r.Err? ==> OpenSubgraph(r.error, m.ctx))
            && (r.Ok? ==>
                  && Mid(n, r.value.0, fly, paid + {ItemPair(item)}) && r.value.0.ctx.active == m.ctx.active
                  && |r.value.1| == 1 && r.value.1[0].tk == ItemPair(item) && JobOk(n, r.value.0.st, r.value.1[0])
                  && (forall j :: JobOk(n, m.st, j) ==> JobOk(n, r.value.0.st, j))
                  && r.value.0.st.order == m.st.order + [item.transition] && r.value.0.batch == m.batch)
  {
    hide Mid, WfNet, EnsureTrigger, RunAttempt, Skips;
    var tk := ItemPair(item);
    StartSafe(n, m, fly, paid, tk);
    TakeFrame(n, m.st, tk);
    var (s1, trigger) := EnsureTrigger(n, m.st, tk.0, tk.1).value;
    var m1 := Started(m, s1, tk.0);
    MidContext(n, m1, fly, paid + {tk});
    if Skips(n.specs[tk.0], trigger) || n.specs[tk.0].kind.RouterTo? {
      var attempt := GetOr(m.st.attempts, tk, 0);
      AttemptSafe(m1, n.specs[tk.0], attempt, trigger, runner, |s1.order|);
      if RunAttempt(m1, n.specs[tk.0], attempt, trigger, runner, |s1.order|).Ok? {
        AttemptMid(n, m1, RunAttempt(m1, n.specs[tk.0], attempt, trigger, runner, |s1.order|).value.0,
                   fly, paid + {tk});
      }
    }
  }

  /** What building the jobs of some items leaves: their inputs taken, their attempts begun. */
  ghost predicate Built(n: Cpn, m: Machine, fly: set<Pair>, paid: set<Pair>, items: seq<ReadyItem>,
                        m': Machine, jobs: seq<Job>)
    requires WfNet(n)
  {
    && Mid(n, m', fly, paid + ItemPairs(items)) && m'.ctx.active == m.ctx.active
    && |jobs| == |items| && (forall i :: 0 <= i < |items| ==> jobs[i].tk == ItemPair(items[i]))
    && (forall j :: j in jobs || JobOk(n, m.st, j) ==> JobOk(n, m'.st, j))
    && |m'.st.order| == |m.st.order| + |items| && m'.batch == m.batch
  }

  lemma BuiltOne(n: Cpn, runner: Runner, m: Machine, fly: set<Pair>, paid: set<Pair>, item: ReadyItem)
    requires WfNet(n) && Mid(n, m, fly, paid) && ItemPair(item) in fly && ItemPair(item) !in paid
    ensures var r := BuildJob(n, runner, m, item);
            && (r.Err? ==> OpenSubgraph(r.error, m.ctx))
            && (r.Ok? ==> Built(n, m, fly, paid, [item], r.value.0, r.value.1))
  {
    hide Mid, WfNet, BuildJob, JobOk;
    MidContext(n, m, fly, paid);
    BuildSafe(n, runner, m, fly, paid, item);
    assert ItemPairs([item]) == {ItemPair(item)};
  }

  lemma BuiltThen(n: Cpn, m: Machine, fly: set<Pair>, paid: set<Pair>, item: ReadyItem, items: seq<ReadyItem>,
                  m1: Machine, first: seq<Job>, m2: Machine, rest: seq<Job>)
    requires WfNet(n) && Built(n, m, fly, paid, [item], m1, first)
    requires Built(n, m1, fly, paid + {ItemPair(item)}, items, m2, rest)
    ensures Built(n, m, fly, paid, [item] + items, m2, first + rest)
  {
    hide Mid, JobOk, WfNet;
    var all := [item] + items;
    assert ItemPairs(all) == {ItemPair(item)} + ItemPairs(items);
    assert paid + {ItemPair(item)} + ItemPairs(items) == paid + ItemPairs(all);
    forall j | j in first + rest || JobOk(n, m.st, j) ensures JobOk(n, m2.st, j) {
      assert j in rest || JobOk(n, m1.st, j);
    }
  }

  lemma HeadApart(items: seq<ReadyItem>, fly: set<Pair>, paid: set<Pair>)
    requires items != [] && DistinctKeys(items) && ItemPairs(items) <= fly && ItemPairs(items) !! paid
    ensures ItemPair(items[0]) in fly && ItemPair(items[0]) !in paid && DistinctKeys(items[1..])
    ensures ItemPairs(items[1..]) <= fly && ItemPairs(items[1..]) !! paid + {ItemPair(items[0])}
    ensures ItemPairs([items[0]]) == {ItemPair(items[0])}
  {
    assert items[0] in items && forall i :: i in items[1..] ==> i in items;
    forall i | i in items[1..] ensures ItemPair(i) != ItemPair(items[0]) && ItemPair(i) in ItemPairs(items) {
      var x :| 0 <= x < |items[1..]| && items[1..][x] == i;
      assert items[x + 1] == i;
    }
  }

  lemma {:induction false} BuildAllSafe(
    n: Cpn, runner: Runner, m: Machine, fly: set<Pair>, paid: set<Pair>, items: seq<ReadyItem>)
    requires WfNet(n) && Mid(n, m, fly, paid) && DistinctKeys(items)
    requires ItemPairs(items) <= fly && ItemPairs(items) !! paid
    ensures var r := BuildJobs(n, runner, m, items);
            && (r.Err? ==> OpenSubgraph(r.error, m.ctx))
            && (r.Ok? ==> Built(n, m, fly, paid, items, r.value.0, r.value.1))
    decreases |items|
  {
    hide Mid, WfNet, BuildJob, JobOk;
    MidContext(n, m, fly, paid);
    if items == [] {
      assert paid + ItemPairs(items) == paid;
    } else {
      HeadApart(items, fly, paid);
      BuiltOne(n, runner, m, fly, paid, items[0]);
      hide DistinctKeys, ItemPairs;
      if BuildJob(n, runner, m, items[0]).Ok? {
        var (m1, first) := BuildJob(n, runner, m, items[0]).value;
        assert Mid(n, m1, fly, paid + {ItemPair(items[0])}) && m1.ctx.active == m.ctx.active;
        hide Built;
        BuildAllSafe(n, runner, m1, fly, paid + {ItemPair(items[0])}, items[1..]);
        if BuildJobs(n, runner, m1, items[1..]).Ok? {
          var (m2, rest) := BuildJobs(n, runner, m1, items[1..]).value;
          BuiltThen(n, m, fly, paid, items[0], items[1..], m1, first, m2, rest);
          assert [items[0]] + items[1..] == items;
        }
      }
    }
  }

  /** Running the open jobs: every result is legal for its job's inputs. */
  lemma {:induction false} RunAllSafe(
    n: Cpn, runner: Runner, m: Machine, fly: set<Pair>, paid: set<Pair>, jobs: seq<Job>, tick: nat)
    requires WfNet(n) && Mid(n, m, fly, paid) && forall j :: j in jobs ==> JobOk(n, m.st, j)
    ensures var r := RunJobs(runner, m, jobs, tick);
            && (r.Err? ==> OpenSubgraph(r.error, m.ctx))
            && (r.Ok? ==>
                  && Mid(n, r.value.0, fly, paid) && r.value.0.st == m.st && r.value.0.batch == m.batch
                  && r.value.0.ctx.active == m.ctx.active
                  && forall i :: 0 <= i < |jobs| ==> Holds(n, m.st, jobs[i].tk, jobs[i].attempt, r.value.1[i]))
    decreases |jobs|
  {
    hide Mid, WfNet, RunAttempt, Skips;
    if jobs != [] {
      var j := jobs[0];
      assert JobOk(n, m.st, j);
      MidContext(n, m, fly, paid);
      var m1 := m;
      if j.run.None? {
        AttemptSafe(m, j.spec, j.attempt, j.trigger, runner, tick);
        if RunAttempt(m, j.spec, j.attempt, j.trigger, runner, tick).Err? {
          return;
        }
        m1 := RunAttempt(m, j.spec, j.attempt, j.trigger, runner, tick).value.0;
        AttemptMid(n, m, m1, fly, paid);
      }
      RunAllSafe(n, runner, m1, fly, paid, jobs[1..], tick + 1);
    }
  }

  lemma HoldsKept(n: Cpn, s: State, s': State, tk: Pair, o: Pair, attempt: nat, run: RunResult)
    requires OthersKept(s, s', tk) && o != tk && Holds(n, s, o, attempt, run)
    ensures Holds(n, s', o, attempt, run)
  {
  }

  ghost predicate Mergeable(n: Cpn, s: State, jobs: seq<Job>, runs: seq<RunResult>) {
    && |jobs| == |runs|
    && (forall i, j :: 0 <= i < j < |jobs| ==> jobs[i].tk.1 != jobs[j].tk.1)
    && (forall i :: 0 <= i < |jobs| ==> Holds(n, s, jobs[i].tk, jobs[i].attempt, runs[i]))
    && (forall i :: 0 <= i < |jobs| ==> jobs[i].tk.0 in n.specs && jobs[i].spec == n.specs[jobs[i].tk.0])
  }

  lemma MergeableTail(n: Cpn, s: State, s': State, jobs: seq<Job>, runs: seq<RunResult>)
    requires Mergeable(n, s, jobs, runs) && jobs != [] && OthersKept(s, s', jobs[0].tk)
    ensures Mergeable(n, s', jobs[1..], runs[1..])
    ensures JobPairs(jobs) - {jobs[0].tk} == JobPairs(jobs[1..])
    ensures jobs[0].tk in JobPairs(jobs) && forall o :: o in JobPairs(jobs) && o != jobs[0].tk ==> o.1 != jobs[0].tk.1
  {
    hide OthersKept, Holds;
    forall i | 0 <= i < |jobs[1..]| ensures Holds(n, s', jobs[1..][i].tk, jobs[1..][i].attempt, runs[1..][i]) {
      assert jobs[1..][i] == jobs[i + 1] && runs[1..][i] == runs[i + 1];
      HoldsKept(n, s, s', jobs[0].tk, jobs[i + 1].tk, jobs[i + 1].attempt, runs[i + 1]);
    }
    assert jobs[0] in jobs && forall j :: j in jobs[1..] ==> j in jobs;
    forall o | o in JobPairs(jobs) && o != jobs[0].tk ensures o.1 != jobs[0].tk.1 && o in JobPairs(jobs[1..]) {
      var x :| 0 <= x < |jobs| && jobs[x].tk == o;
      assert x > 0 && jobs[1..][x - 1] == jobs[x];
    }
    forall o | o in JobPairs(jobs[1..]) ensures o in JobPairs(jobs) && o != jobs[0].tk {
      var x :| 0 <= x < |jobs[1..]| && jobs[1..][x].tk == o;
      assert jobs[x + 1] == jobs[1..][x];
    }
  }

  lemma {:induction false} MergeSafe(n: Cpn, m: Machine, jobs: seq<Job>, runs: seq<RunResult>)
    requires WfNet(n) && Mid(n, m, JobPairs(jobs), JobPairs(jobs)) && Mergeable(n, m.st, jobs, runs)
    ensures var r := MergeJobs(n, m, jobs, runs);
            && r.Ok? && Inv(n, r.value) && r.value.st.order == m.st.order && r.value.ctx.active == m.ctx.active
            && r.value.batch == (if r.value.stopped then [] else m.batch)
    decreases |jobs|
  {
    hide Mid, Over, WfNet, Conclude, OthersKept, Mergeable;
    MidContext(n, m, JobPairs(jobs), JobPairs(jobs));
    MergeableShape(n, m.st, jobs, runs);
    if jobs == [] {
      assert JobPairs(jobs) == {};
    } else {
      var j := jobs[0];
      MergeableTailKeys(n, m.st, jobs, runs);
      ConcludeSafe(n, m, JobPairs(jobs), JobPairs(jobs), j.tk, j.attempt, runs[0]);
      var m1 := Conclude(n, m, j.spec, j.tk, j.attempt, runs[0]).value;
      OrderKept(m.st, m1.st, j.tk);
      if m1.stopped {
        assert MergeJobs(n, m1, jobs[1..], runs[1..]) == Ok(m1);
        OverBatch(n, m1);
      } else {
        MergeableTail(n, m.st, m1.st, jobs, runs);
        MergeSafe(n, m1, jobs[1..], runs[1..]);
      }
    }
  }

  lemma OverBatch(n: Cpn, m: Machine)
    requires WfNet(n) && Over(n, m)
    ensures m.stopped && m.batch == [] && m.st.ready == [] && |m.st.order| <= Bound(n)
    ensures Wf(m.ctx)
  {
  }

  lemma MergeableShape(n: Cpn, s: State, jobs: seq<Job>, runs: seq<RunResult>)
    requires Mergeable(n, s, jobs, runs)
    ensures |jobs| == |runs|
    ensures jobs != [] ==> jobs[0].tk.0 in n.specs && jobs[0].spec == n.specs[jobs[0].tk.0]
                           && Holds(n, s, jobs[0].tk, jobs[0].attempt, runs[0])
  {
  }

  lemma MergeableTailKeys(n: Cpn, s: State, jobs: seq<Job>, runs: seq<RunResult>)
    requires Mergeable(n, s, jobs, runs) && jobs != []
    ensures jobs[0].tk in JobPairs(jobs) && forall o :: o in JobPairs(jobs) && o != jobs[0].tk ==> o.1 != jobs[0].tk.1
  {
    assert OthersKept(s, s, jobs[0].tk);
    MergeableTail(n, s, s, jobs, runs);
  }

  /** The machine once the parallel path has emptied the ready queue. */
  function Emptied(m: Machine): Machine {
    var drained := set i | i in m.st.ready :: (i.transition, i.key);
    m.(st := m.st.(ready := [], readySet := m.st.readySet - drained))
  }

  /** The machine, the jobs and their results with which the merge of a round begins. */
  ghost predicate Merges(
    n: Cpn, cfg: Config, runner: Runner, m: Machine, m2: Machine, jobs: seq<Job>, runs: seq<RunResult>)
    requires Wf(m.ctx)
  {
    var built := BuildJobs(n, runner, Emptied(m), ParallelBatch(m.st.ready, cfg.maxConcurrency));
    && built.Ok? && built.value.1 == jobs
    && RunJobs(runner, built.value.0, jobs, |built.value.0.st.order|) == Ok((m2, runs))
  }

  /** A round fails while its jobs are built or run, only like its Routers, or comes to a merge that is safe. */
  lemma RoundJobs(n: Cpn, cfg: Config, runner: Runner, m: Machine)
      returns (m2: Machine, jobs: seq<Job>, runs: seq<RunResult>)
    requires WfNet(n) && Mid(n, m, {}, {}) && m.batch == []
    ensures var r := ParallelRound(n, cfg, runner, m);
            if Merges(n, cfg, runner, m, m2, jobs, runs) then
              && Mid(n, m2, JobPairs(jobs), JobPairs(jobs)) && Mergeable(n, m2.st, jobs, runs)
              && JobPairs(jobs) == ItemPairs(ParallelBatch(m.st.ready, cfg.maxConcurrency))
              && r == MergeJobs(n, m2, jobs, runs) && m2.batch == [] && m2.ctx.active == m.ctx.active
              && |m2.st.order| == |m.st.order| + |ParallelBatch(m.st.ready, cfg.maxConcurrency)|
            else r.Err? && OpenSubgraph(r.error, m.ctx)
    ensures forall z, js, rs :: Merges(n, cfg, runner, m, z, js, rs) ==> z == m2 && js == jobs && rs == runs
  {
    hide Mid, Over, WfNet, BuildJobs, RunJobs, MergeJobs, ParallelBatch, JobOk, Holds, Mergeable;
    MidContext(n, m, {}, {});
    var batch := ParallelBatch(m.st.ready, cfg.maxConcurrency);
    ParallelBatchFacts(m.st.ready, cfg.maxConcurrency);
    DrainMid(n, m, cfg.maxConcurrency);
    var m0 := Emptied(m);
    var fly := ItemPairs(batch);
    m2, jobs, runs := m, [], [];
    BuildAllSafe(n, runner, m0, fly, {}, batch);
    if BuildJobs(n, runner, m0, batch).Ok? {
      var (m1, built) := BuildJobs(n, runner, m0, batch).value;
      jobs := built;
      MidContext(n, m1, fly, {} + fly);
      RunAllSafe(n, runner, m1, fly, {} + fly, jobs, |m1.st.order|);
      if RunJobs(runner, m1, jobs, |m1.st.order|).Ok? {
        m2, runs := RunJobs(runner, m1, jobs, |m1.st.order|).value.0, RunJobs(runner, m1, jobs, |m1.st.order|).value.1;
        assert JobPairs(jobs) == fly && {} + fly == fly by { JobsMatch(batch, jobs); }
        JobSpecs(n, m2.st, jobs);
        BatchMergeable(n, m2.st, batch, jobs, runs);
      }
    }
  }

  lemma BatchMergeable(n: Cpn, s: State, batch: seq<ReadyItem>, jobs: seq<Job>, runs: seq<RunResult>)
    requires DistinctKeys(batch) && |jobs| == |batch| == |runs|
    requires forall i :: 0 <= i < |batch| ==> jobs[i].tk == ItemPair(batch[i])
    requires forall i :: 0 <= i < |jobs| ==> Holds(n, s, jobs[i].tk, jobs[i].attempt, runs[i])
    requires forall i :: 0 <= i < |jobs| ==> jobs[i].tk.0 in n.specs && jobs[i].spec == n.specs[jobs[i].tk.0]
    ensures Mergeable(n, s, jobs, runs)
  {
    hide Holds;
  }

  /** A parallel round errs only like its Routers; otherwise it keeps the invariants and runs something. */
  lemma RoundSafe(n: Cpn, cfg: Config, runner: Runner, m: Machine)
    requires WfNet(n) && Mid(n, m, {}, {}) && m.batch == [] && m.st.ready != [] && cfg.maxConcurrency > 1
    ensures var r := ParallelRound(n, cfg, runner, m);
            && (r.Err? ==> OpenSubgraph(r.error, m.ctx))
            && (r.Ok? ==> && Inv(n, r.value) && |r.value.st.order| > |m.st.order| && r.value.batch == []
                          && r.value.ctx.active == m.ctx.active)
  {
    hide Mid, WfNet, ParallelRound, MergeJobs, ParallelBatch, Merges, Mergeable, Inv;
    MidContext(n, m, {}, {});
    ParallelBatchFacts(m.st.ready, cfg.maxConcurrency);
    var m2, jobs, runs := RoundJobs(n, cfg, runner, m);
    if Merges(n, cfg, runner, m, m2, jobs, runs) {
      MergeSafe(n, m2, jobs, runs);
    }
  }

  lemma JobSpecs(n: Cpn, s: State, jobs: seq<Job>)
    requires forall j :: j in jobs ==> JobOk(n, s, j)
    ensures forall i :: 0 <= i < |jobs| ==> jobs[i].tk.0 in n.specs && jobs[i].spec == n.specs[jobs[i].tk.0]
  {
    forall i | 0 <= i < |jobs| ensures jobs[i].tk.0 in n.specs && jobs[i].spec == n.specs[jobs[i].tk.0] {
      assert JobOk(n, s, jobs[i]);
    }
  }

  lemma JobsMatch(batch: seq<ReadyItem>, jobs: seq<Job>)
    requires |jobs| == |batch| && forall i :: 0 <= i < |batch| ==> jobs[i].tk == ItemPair(batch[i])
    ensures JobPairs(jobs) == ItemPairs(batch)
  {
    forall tk | tk in JobPairs(jobs) ensures tk in ItemPairs(batch) {
      var i :| 0 <= i < |jobs| && jobs[i].tk == tk;
      assert batch[i] in batch;
    }
    forall tk | tk in ItemPairs(batch) ensures tk in JobPairs(jobs) {
      var i :| 0 <= i < |batch| && ItemPair(batch[i]) == tk;
      assert jobs[i] in jobs;
    }
  }

  // ------------------------------------------------------------------- whole runs

  lemma InitialBag(n: Cpn, b: Buckets)
    requires forall p :: p in b ==> b[p] == map[]
    ensures BagInv(n, b, map[], [], [], 0)
  {
    forall p | p in b ensures BucketBag(b[p]) == multiset{} {
      SumBagEmpty(b[p], QueueBag);
    }
    SumBagEmpty(b, BucketBag);
    var none: map<Pair, seq<TriggerInput>> := map[];
    SumBagEmpty(none, InputBag);
    assert Minted(n, [], 0) == multiset{};
  }

  lemma InitialSafe(n: Cpn)
    ensures Safe(n, Initial(n), {}) && Settled(n, Initial(n))
  {
    InitialBag(n, Initial(n).placeTokens);
  }

  /** The roots enter the queue once each, under their root key. */
  lemma {:induction false} RootsSafe(n: Cpn, s: State, ids: seq<Id>)
    requires WfNet(n) && Safe(n, s, {}) && QueueInv([], s.ready, s.readySet) && forall t :: t in ids ==> t in n.specs
    ensures var r := EnqueueRoots(n, s, ids);
            && r.Ok? && Safe(n, r.value, {}) && QueueInv([], r.value.ready, r.value.readySet)
            && r.value == s.(ready := r.value.ready, readySet := r.value.readySet)
            && s.readySet <= r.value.readySet
            && (s.completedKeys == map[] ==>
                  forall t :: t in ids && In(n, t) == [] ==> (t, RootKey(n, t)) in r.value.readySet)
    decreases |ids|
  {
    hide Safe, QueueInv, WfNet;
    if ids != [] {
      assert ids[0] in ids && forall t :: t in ids[1..] ==> t in ids;
      if In(n, ids[0]) != [] {
        RootsSafe(n, s, ids[1..]);
      } else {
        var tk := (ids[0], RootKey(n, ids[0]));
        assert KeyOk(n, tk);
        PushSafe(n, s, {}, tk, false);
        var s' := PushReady(n, s, tk.0, tk.1, false).value;
        if s'.ready != s.ready {
          QueuePush([], s.ready, s.readySet, s'.ready[|s.ready|]);
        }
        RootsSafe(n, s', ids[1..]);
      }
    }
  }

  lemma StartShape(n: Cpn, ctx: Store)
    requires WfNet(n)
    ensures Start(n, ctx).Ok?
    ensures var m := Start(n, ctx).value;
            && m == Machine(m.st, ctx, ZERO_METRICS, [], false, [])
            && m.st == Initial(n).(ready := m.st.ready, readySet := m.st.readySet)
            && m.st.fired == [] && m.st.cache == map[] && m.st.retried == map[]
  {
    hide Safe, QueueInv, EnqueueRoots;
    InitialSafe(n);
    EmptyQueue();
    RootsSafe(n, Initial(n), n.ids);
  }

  lemma StartInv(n: Cpn, ctx: Store)
    requires WfNet(n) && Wf(ctx)
    ensures Start(n, ctx).Ok? && Inv(n, Start(n, ctx).value) && NothingLost(n, Start(n, ctx).value, {})
  {
    hide Safe, QueueInv;
    InitialSafe(n);
    assert QueueInv([], [], {}) by { EmptyQueue(); }
    RootsSafe(n, Initial(n), n.ids);
    TotalAtMost(n, n.ids, Listed(RootKeys(n)));
    var s := Start(n, ctx).value.st;
    forall tk: Pair | Idle(n, s.placeTokens, s.completedKeys, tk) ensures tk in s.readySet {
      assert forall p, k :: Tokens(s.placeTokens, p, k) == [];
    }
    SettledSame(n, Initial(n), s);
  }

  lemma EmptyQueue()
    ensures QueueInv([], [], {})
  {
  }

  /** One turn of the main loop: at most a Router error, the invariants stay, and the run moves on. */
  lemma TurnSafe(n: Cpn, cfg: Config, runner: Runner, m: Machine)
    requires WfNet(n) && Inv(n, m) && !Halted(m)
    ensures var r := Turn(n, cfg, runner, m);
            && (r.Err? ==> OpenSubgraph(r.error, m.ctx))
            && (r.Ok? ==> && Inv(n, r.value) && |m.st.order| <= |r.value.st.order| <= Bound(n)
                          && (|r.value.st.order| > |m.st.order| || (m.batch == [] && r.value.batch != []))
                          && r.value.ctx.active == m.ctx.active)
  {
    hide Mid, Over, WfNet, ProcessItem, ParallelRound, NextBatch, Bound;
    MidContext(n, m, {}, {});
    if m.batch != [] {
      ItemSafe(n, runner, m);
    } else if cfg.maxConcurrency <= 1 {
      BatchSafe(n, cfg, m);
    } else {
      RoundSafe(n, cfg, runner, m);
    }
    if Turn(n, cfg, runner, m).Ok? {
      InvBound(n, Turn(n, cfg, runner, m).value);
    }
  }

  lemma InvBound(n: Cpn, m: Machine)
    requires WfNet(n) && Inv(n, m)
    ensures |m.st.order| <= Bound(n) && Wf(m.ctx)
  {
  }

  /**
   * Internal errors are unreachable: for every validated net, scheduler and runner, the
   * invariants hold at every turn, and a turn can fail only because a Router finds the subgraph
   * open that was open when the run started. Without one, every turn succeeds.
   */
  lemma {:induction false} RunSafe(n: Cpn, cfg: Config, runner: Runner, ctx: Store, i: nat)
    requires WfNet(n) && Wf(ctx)
    ensures var r := Run(n, cfg, runner, ctx, i);
            && (r.Err? ==> OpenSubgraph(r.error, ctx))
            && (r.Ok? ==> Inv(n, r.value) && r.value.ctx.active == ctx.active)
  {
    hide Inv, Turn;
    if i == 0 {
      StartInv(n, ctx);
      StartShape(n, ctx);
    } else {
      RunSafe(n, cfg, runner, ctx, i - 1);
      if Run(n, cfg, runner, ctx, i - 1).Ok? && !Halted(Run(n, cfg, runner, ctx, i - 1).value) {
        TurnSafe(n, cfg, runner, Run(n, cfg, runner, ctx, i - 1).value);
      }
    }
  }

  /** Attempts entered so far, counting a filled batch as half a step. */
  ghost function Progress(m: Machine): nat { 2 * |m.st.order| + if m.batch != [] then 1 else 0 }

  lemma {:induction false} RunProgress(n: Cpn, cfg: Config, runner: Runner, ctx: Store, i: nat)
    requires WfNet(n) && Wf(ctx) && Run(n, cfg, runner, ctx, i).Ok?
    ensures Halted(Run(n, cfg, runner, ctx, i).value) || Progress(Run(n, cfg, runner, ctx, i).value) >= i
  {
    hide Inv, Turn;
    if i > 0 {
      RunProgress(n, cfg, runner, ctx, i - 1);
      RunSafe(n, cfg, runner, ctx, i - 1);
      var m := Run(n, cfg, runner, ctx, i - 1).value;
      if !Halted(m) {
        TurnSafe(n, cfg, runner, m);
      }
    }
  }

  /**
   * Every run ends, even on cyclic nets: after at most twice its budget of turns the machine
   * has halted or failed as above, and its execution order is no longer than root keys times
   * the sum of (max_retries + 1) over the transitions.
   */
  lemma RunTerminates(n: Cpn, cfg: Config, runner: Runner, ctx: Store)
    requires WfNet(n) && Wf(ctx)
    ensures var r := Run(n, cfg, runner, ctx, 2 * Bound(n) + 2);
            && (ctx.active.None? ==> r.Ok?)
            && (r.Ok? ==> Halted(r.value) && |r.value.st.order| <= |RootKeys(n)| * AttemptsPerKey(n, n.ids))
  {
    var i := 2 * Bound(n) + 2;
    RunSafe(n, cfg, runner, ctx, i);
    if Run(n, cfg, runner, ctx, i).Ok? {
      RunProgress(n, cfg, runner, ctx, i);
      InvBound(n, Run(n, cfg, runner, ctx, i).value);
    }
  }
}
