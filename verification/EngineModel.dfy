/**
 * The execution engine of `execution/engine.rs` as a state machine over values.
 *
 * Every function follows one function or method of the source and keeps its error branches.
 * `fired`, `retried` and `late` in `State`, and `effects` in `Machine`, are history variables: the
 * source has no counterpart for them and nothing else depends on them.
 */
module EngineModel {
  import opened Prelude
  import opened Net
  import opened ContextModel
  import opened Router

  // ---------------------------------------------------------------------- data

  datatype Kind = Task | RouterTo(subgraph: string) | Gate | Terminal

  datatype ExecSpec = ExecSpec(
    transition: TransitionSpec, timeoutMs: nat, maxRetries: nat, kind: Kind,
    logicalGroup: Option<string>, topoLevel: nat)

  /** A validated net: `ids` lists the keys of `specs` in their map order. */
  datatype Cpn = Cpn(execId: string, ids: seq<Id>, specs: map<Id, ExecSpec>, graph: Graph)

  datatype TokenMeta = TokenMeta(execId: string, transition: Id, group: string, sequence: nat, outcome: Outcome)

  datatype Token = Token(key: Key, payload: Json, meta: TokenMeta)

  datatype TriggerInput = TriggerInput(place: Id, arcLabel: Option<string>, token: Token)

  datatype Trigger = Trigger(key: Key, inputs: seq<TriggerInput>)

  datatype RunResult = RunResult(outcome: Outcome, payload: Json)

  datatype ReadyItem = ReadyItem(transition: Id, key: Key, topoLevel: nat, priority: int, retry: bool)

  type Pair = (Id, Key)

  type Buckets = map<Id, map<Key, seq<Token>>>

  datatype Firing = Firing(
    transition: Id, key: Key, inputs: seq<TriggerInput>, retried: seq<RunResult>, result: RunResult)

  datatype State = State(
    placeTokens: Buckets,
    cache: map<Pair, seq<TriggerInput>>,
    ready: seq<ReadyItem>,
    readySet: set<Pair>,
    attempts: map<Pair, nat>,
    order: seq<Id>,
    outcomes: map<Id, Outcome>,
    keyedOutcomes: map<Id, map<Key, Outcome>>,
    completedKeys: map<Id, set<Key>>,
    tokenSequence: nat,
    retryTotal: nat, cancelTotal: nat, lateTotal: nat, zombieTotal: nat,
    fired: seq<Firing>,
    retried: map<Pair, seq<RunResult>>,
    late: seq<Token>)

  datatype EngineError =
    | MissingTransition(t: Id)
    | NotReady(t: Id, k: Key)
    | MissingBucket(p: Id)
    | MissingPlace(p: Id)
    | ContextFailed(e: ContextError)

  /**
   * The runner closure. The last argument is the number of runs so far: it lets one function
   * stand for any behaviour, including one that depends on time or on hidden state.
   */
  type Runner = (ExecSpec, nat, Trigger, Store, nat) -> RunReport

  datatype SchedulerMode = Throughput | Deterministic

  datatype Config = Config(maxConcurrency: nat, maxParallelism: nat, mode: SchedulerMode)

  // ----------------------------------------------------------------- net access

  function In(n: Cpn, t: Id): seq<Arc> { GetOr(n.graph.inputs, t, []) }

  function Out(n: Cpn, t: Id): seq<Arc> { GetOr(n.graph.outputs, t, []) }

  /** `build_petri_net` accepted the net, and `specs` holds its transitions. */
  ghost predicate WfNet(n: Cpn) {
    && Distinct(n.ids) && (forall t :: t in n.ids <==> t in n.specs)
    && (forall t :: t in n.specs ==> n.specs[t].transition.id == t)
    && (forall t, a {:trigger a in In(n, t)} :: a in In(n, t) ==>
          t in n.specs && a.place in n.graph.places && a.place in n.graph.consumer && n.graph.consumer[a.place] == t)
    && (forall t, a {:trigger a in Out(n, t)} :: a in Out(n, t) ==> t in n.specs && a.place in n.graph.places)
    && (forall p :: p in n.graph.consumer ==> exists a :: a in In(n, n.graph.consumer[p]) && a.place == p)
  }

  function RootKey(n: Cpn, t: Id): Key
    requires t in n.specs
  {
    match n.specs[t].logicalGroup
    case Some(group) => n.execId + ":group:" + group
    case None => n.execId + ":" + t + ":root"
  }

  function Group(n: Cpn, t: Id): string {
    if t in n.specs && n.specs[t].logicalGroup.Some? then n.specs[t].logicalGroup.value else "default"
  }

  // --------------------------------------------------------------- state access

  function Tokens(b: Buckets, p: Id, k: Key): seq<Token> {
    if p in b then GetOr(b[p], k, []) else []
  }

  /** `is_key_done`. */
  predicate IsDone(done: map<Id, set<Key>>, t: Id, k: Key) { k in GetOr(done, t, {}) }

  function Initial(n: Cpn): State {
    State(map p | p in n.graph.places :: map[], map[], [], {}, map[], [], map[], map[], map[], 0, 0, 0, 0, 0,
          [], map[], [])
  }

  // ------------------------------------------------------------------ readiness

  predicate AllFilled(queues: seq<seq<Token>>) { forall q :: q in queues ==> q != [] }

  predicate AnyFilled(queues: seq<seq<Token>>) { exists q :: q in queues && q != [] }

  predicate AnySuccess(queues: seq<seq<Token>>) {
    exists q :: q in queues && exists t :: t in q && t.meta.outcome == Success
  }

  function TotalLength(queues: seq<seq<Token>>): nat {
    if queues == [] then 0 else |queues[0]| + TotalLength(queues[1..])
  }

  /** `evaluate_join_policy`. */
  predicate JoinReady(policy: JoinPolicy, queues: seq<seq<Token>>) {
    match policy
    case AllOf => queues != [] && AllFilled(queues)
    case AnyOf => AnyFilled(queues)
    case Quorum(k) => k == 0 || TotalLength(queues) >= k
    case FirstSuccess => AnySuccess(queues) || (queues != [] && AllFilled(queues))
    case FirstCompleted => AnyFilled(queues)
    case KeyedPair => |queues| == 2 && AllFilled(queues)
    case KeyedGroup => queues != [] && AllFilled(queues)
  }

  function Queues(b: Buckets, arcs: seq<Arc>, k: Key): (r: seq<seq<Token>>)
    ensures |r| == |arcs| && forall i :: 0 <= i < |arcs| ==> r[i] == Tokens(b, arcs[i].place, k)
  {
    seq(|arcs|, i requires 0 <= i < |arcs| => Tokens(b, arcs[i].place, k))
  }

  /** The enabling condition once the completed-key check and the spec lookup are past. */
  predicate Enabled(n: Cpn, b: Buckets, t: Id, k: Key)
    requires t in n.specs
  {
    || In(n, t) == []
    || ((forall a :: a in In(n, t) && a.required ==> Tokens(b, a.place, k) != [])
        && JoinReady(n.specs[t].transition.join, Queues(b, In(n, t), k)))
  }

  /** `is_transition_ready`. */
  function IsTransitionReady(n: Cpn, s: State, t: Id, k: Key): Result<bool, EngineError> {
    if IsDone(s.completedKeys, t, k) then Ok(false)
    else if t !in n.specs then Err(MissingTransition(t))
    else Ok(Enabled(n, s.placeTokens, t, k))
  }

  // -------------------------------------------------------------- ready queue

  /** `push_ready`: no duplicates, no completed keys. */
  function PushReady(n: Cpn, s: State, t: Id, k: Key, retry: bool): Result<State, EngineError> {
    if (t, k) in s.readySet || IsDone(s.completedKeys, t, k) then Ok(s)
    else if t !in n.specs then Err(MissingTransition(t))
    else
      var spec := n.specs[t];
      Ok(s.(ready := s.ready + [ReadyItem(t, k, spec.topoLevel, spec.transition.priority, retry)],
            readySet := s.readySet + {(t, k)}))
  }

  function EnqueueRoots(n: Cpn, s: State, ids: seq<Id>): Result<State, EngineError>
    decreases |ids|
  {
    if ids == [] then Ok(s)
    else if In(n, ids[0]) != [] then EnqueueRoots(n, s, ids[1..])
    else if ids[0] !in n.specs then Err(MissingTransition(ids[0]))
    else
      var s' :- PushReady(n, s, ids[0], RootKey(n, ids[0]), false);
      EnqueueRoots(n, s', ids[1..])
  }

  /** `cmp_ready`. */
  function CmpReady(a: ReadyItem, b: ReadyItem): Ordering {
    CmpInt(a.topoLevel, b.topoLevel)
    .Then(CmpInt(b.priority, a.priority))
    .Then(CmpString(a.transition, b.transition))
    .Then(CmpString(a.key, b.key))
    .Then(CmpBool(b.retry, a.retry))
  }

  function BatchSize(cfg: Config, waiting: nat): nat {
    var wanted := if cfg.maxParallelism < 1 then 1 else cfg.maxParallelism;
    var there := if waiting < 1 then 1 else waiting;
    if wanted < there then wanted else there
  }

  /** `next_batch`: the batch and the queue that stays. */
  function NextBatch(cfg: Config, ready: seq<ReadyItem>): (seq<ReadyItem>, seq<ReadyItem>) {
    var items := if cfg.mode.Deterministic? then Sort(ready, CmpReady) else ready;
    var size := BatchSize(cfg, |ready|);
    if |items| <= size then (items, []) else (items[..size], items[size..])
  }

  // ------------------------------------------------------------------- firing

  /** `consume_inputs_for_key`, arc by arc. */
  function ConsumeArcs(b: Buckets, arcs: seq<Arc>, k: Key): Result<(Buckets, seq<TriggerInput>), EngineError>
    decreases |arcs|
  {
    if arcs == [] then Ok((b, []))
    else if arcs[0].place !in b then Err(MissingBucket(arcs[0].place))
    else
      var p := arcs[0].place;
      var taken := AsInputs(arcs[0], Tokens(b, p, k));
      var rest :- ConsumeArcs(b[p := b[p] - {k}], arcs[1..], k);
      Ok((rest.0, taken + rest.1))
  }

  function AsInputs(a: Arc, tokens: seq<Token>): (r: seq<TriggerInput>)
    ensures |r| == |tokens|
    ensures forall i :: 0 <= i < |tokens| ==> r[i] == TriggerInput(a.place, a.arcLabel, tokens[i])
  {
    seq(|tokens|, i requires 0 <= i < |tokens| => TriggerInput(a.place, a.arcLabel, tokens[i]))
  }

  /** `ensure_trigger_inputs`: consumes once, later attempts reuse the cached inputs. */
  function EnsureTrigger(n: Cpn, s: State, t: Id, k: Key): Result<(State, Trigger), EngineError> {
    if (t, k) in s.cache then Ok((s, Trigger(k, s.cache[(t, k)])))
    else
      var ready :- IsTransitionReady(n, s, t, k);
      if !ready then Err(NotReady(t, k)) else
      var r :- ConsumeArcs(s.placeTokens, In(n, t), k);
      Ok((s.(placeTokens := r.0, cache := s.cache[(t, k) := r.1]), Trigger(k, r.1)))
  }

  function MakeToken(n: Cpn, f: Firing, sequence: nat): Token {
    Token(f.key, f.result.payload,
          TokenMeta(n.execId, f.transition, Group(n, f.transition), sequence, f.result.outcome))
  }

  function AddToken(b: Buckets, p: Id, token: Token): Buckets
    requires p in b
  {
    b[p := b[p][token.key := GetOr(b[p], token.key, []) + [token]]]
  }

  /** `insert_token`: a token for a completed key is a late token and is dropped. */
  function InsertToken(n: Cpn, s: State, p: Id, token: Token): Result<State, EngineError> {
    if p in n.graph.consumer && IsDone(s.completedKeys, n.graph.consumer[p], token.key) then
      Ok(s.(lateTotal := s.lateTotal + 1, zombieTotal := s.zombieTotal + 1, late := s.late + [token]))
    else if p !in s.placeTokens then Err(MissingPlace(p))
    else
      WakeConsumer(n, s.(placeTokens := AddToken(s.placeTokens, p, token)), p, token.key)
  }

  function WakeConsumer(n: Cpn, s: State, p: Id, k: Key): Result<State, EngineError> {
    if p !in n.graph.consumer then Ok(s)
    else
      var ready :- IsTransitionReady(n, s, n.graph.consumer[p], k);
      if ready then PushReady(n, s, n.graph.consumer[p], k, false) else Ok(s)
  }

  function EmitArcs(n: Cpn, s: State, f: Firing, arcs: seq<Arc>): Result<State, EngineError>
    decreases |arcs|
  {
    if arcs == [] then Ok(s)
    else
      var s1 := s.(tokenSequence := s.tokenSequence + 1);
      var s2 :- InsertToken(n, s1, arcs[0].place, MakeToken(n, f, s1.tokenSequence));
      EmitArcs(n, s2, f, arcs[1..])
  }

  function AddKey(done: map<Id, set<Key>>, t: Id, k: Key): map<Id, set<Key>> {
    done[t := GetOr(done, t, {}) + {k}]
  }

  function AddOutcome(keyed: map<Id, map<Key, Outcome>>, t: Id, k: Key, outcome: Outcome)
    : map<Id, map<Key, Outcome>>
  {
    keyed[t := GetOr(keyed, t, map[])[k := outcome]]
  }

  /** `mark_completed`, and the cache entry goes. */
  function MarkCompleted(s: State, f: Firing): State {
    s.(completedKeys := AddKey(s.completedKeys, f.transition, f.key),
       outcomes := s.outcomes[f.transition := f.result.outcome],
       keyedOutcomes := AddOutcome(s.keyedOutcomes, f.transition, f.key, f.result.outcome),
       cancelTotal := s.cancelTotal + (if f.result.outcome == Cancelled then 1 else 0),
       cache := s.cache - {(f.transition, f.key)},
       fired := s.fired + [f])
  }

  function FiringOf(s: State, t: Id, k: Key, run: RunResult): Firing {
    Firing(t, k, GetOr(s.cache, (t, k), []), GetOr(s.retried, (t, k), []), run)
  }

  /** `complete_transition`, up to the context's skip mark. */
  function Complete(n: Cpn, s: State, t: Id, k: Key, run: RunResult): Result<State, EngineError> {
    var f := FiringOf(s, t, k, run);
    EmitArcs(n, MarkCompleted(s, f), f, Out(n, t))
  }

  /** A Terminal transition empties the queue and cancels what has no outcome yet. */
  function Shutdown(n: Cpn, s: State): State {
    s.(ready := [], readySet := {},
       outcomes := (map t | t in n.specs :: Cancelled) + s.outcomes)
  }

  // ------------------------------------------------------------------ the run

  /** What one attempt wrote that stays in the context. */
  datatype Effect = Effect(transition: Id, key: Key, ops: seq<InnerOp>)

  datatype Machine = Machine(
    st: State, ctx: Store, router: RouterMetrics, batch: seq<ReadyItem>, stopped: bool, effects: seq<Effect>)

  predicate Skips(spec: ExecSpec, trigger: Trigger) {
    spec.transition.join.AllOf? && exists i :: i in trigger.inputs && i.token.meta.outcome != Success
  }

  function TaskOutcome(spec: ExecSpec, report: RunReport): Outcome {
    if spec.timeoutMs > 0 && report.overdue then Timeout else report.outcome
  }

  /** The closure a Router attempt runs inside its subgraph. */
  function InSubgraph(runner: Runner, spec: ExecSpec, attempt: nat, trigger: Trigger, tick: nat): Store -> RunReport {
    ctx => runner(spec, attempt, trigger, ctx, tick)
  }

  /** Runs one attempt: `run_transition_router`, `run_transition`, or a skip. */
  function RunAttempt(m: Machine, spec: ExecSpec, attempt: nat, trigger: Trigger, runner: Runner, tick: nat)
    : (r: Result<(Machine, RunResult), EngineError>)
    requires Wf(m.ctx)
    ensures r.Ok? ==> Wf(r.value.0.ctx)
    ensures r.Ok? ==> r.value.0 == m.(ctx := r.value.0.ctx, router := r.value.0.router, effects := r.value.0.effects)
  {
    if Skips(spec, trigger) then Ok((m, RunResult(Skipped, Null)))
    else
      match spec.kind
      case RouterTo(subgraph) =>
        var run := InSubgraph(runner, spec, attempt, trigger, tick);
        (match ExecuteRouter(m.ctx, subgraph, m.router, run, spec.timeoutMs)
         case Err(e) => Err(ContextFailed(e))
         case Ok(routed) =>
           var ops := run(Step(m.ctx, Begin(subgraph)).0).ops;
           var kept := if routed.outcome == Success then [Effect(spec.transition.id, trigger.key, ops)] else [];
           Ok((m.(ctx := routed.context, router := routed.metrics, effects := m.effects + kept),
               RunResult(routed.outcome, routed.payload))))
      case Gate => Ok((m, RunResult(Success, Null)))
      case _ =>
        var report := runner(spec, attempt, trigger, m.ctx, tick);
        Ok((m.(ctx := Steps(m.ctx, report.ops),
               effects := m.effects + [Effect(spec.transition.id, trigger.key, report.ops)]),
            RunResult(TaskOutcome(spec, report), report.payload)))
  }

  predicate Retryable(outcome: Outcome) { outcome == Failure || outcome == Timeout }

  /** What follows an attempt: requeue it, or complete the transition for this key. */
  function Conclude(n: Cpn, m: Machine, spec: ExecSpec, tk: Pair, attempt: nat, run: RunResult)
    : (r: Result<Machine, EngineError>)
    requires Wf(m.ctx)
    ensures r.Ok? ==> Wf(r.value.ctx)
  {
    if Retryable(run.outcome) && attempt + 1 <= spec.maxRetries then
      var s := m.st.(attempts := m.st.attempts[tk := attempt + 1], retryTotal := m.st.retryTotal + 1,
                     retried := m.st.retried[tk := GetOr(m.st.retried, tk, []) + [run]]);
      var s' :- PushReady(n, s, tk.0, tk.1, true);
      Ok(m.(st := s'))
    else
      var s :- Complete(n, m.st, tk.0, tk.1, run);
      var m' := m.(st := s,
                   ctx := if run.outcome == Skipped then m.ctx.(skipped := m.ctx.skipped + {tk.0}) else m.ctx);
      if spec.kind.Terminal? then Ok(m'.(st := Shutdown(n, s), batch := [], stopped := true)) else Ok(m')
  }

  /** `process_one_item`. */
  function ProcessItem(n: Cpn, runner: Runner, m: Machine, item: ReadyItem): (r: Result<Machine, EngineError>)
    requires Wf(m.ctx)
    ensures r.Ok? ==> Wf(r.value.ctx)
  {
    var tk := (item.transition, item.key);
    var s0 := m.st.(readySet := m.st.readySet - {tk});
    if IsDone(s0.completedKeys, tk.0, tk.1) then Ok(m.(st := s0)) else
    var (s1, trigger) :- EnsureTrigger(n, s0, tk.0, tk.1);
    if tk.0 !in n.specs then Err(MissingTransition(tk.0)) else
    var m1 := m.(st := s1.(order := s1.order + [tk.0]));
    var attempt := GetOr(s0.attempts, tk, 0);
    var (m2, run) :- RunAttempt(m1, n.specs[tk.0], attempt, trigger, runner, |s1.order|);
    Conclude(n, m2, n.specs[tk.0], tk, attempt, run)
  }

  // ------------------------------------------------- the parallel key-sharded path

  function FirstPerKey(items: seq<ReadyItem>): seq<ReadyItem> {
    if items == [] then []
    else
      var front := FirstPerKey(items[..|items| - 1]);
      var last := items[|items| - 1];
      if exists i :: i in front && i.key == last.key then front else front + [last]
  }

  /** The drained batch: one item per key, least first, at most `max`. What it leaves out is lost. */
  function ParallelBatch(ready: seq<ReadyItem>, max: nat): seq<ReadyItem> {
    var sorted := Sort(FirstPerKey(ready), CmpReady);
    if |sorted| <= max then sorted else sorted[..max]
  }

  datatype Job = Job(tk: Pair, spec: ExecSpec, attempt: nat, trigger: Trigger, run: Option<RunResult>)

  /** `build_parallel_job`: inputs are taken and Routers and skips are settled serially. */
  function BuildJob(n: Cpn, runner: Runner, m: Machine, item: ReadyItem): (r: Result<(Machine, seq<Job>), EngineError>)
    requires Wf(m.ctx)
    ensures r.Ok? ==> Wf(r.value.0.ctx)
  {
    var tk := (item.transition, item.key);
    if IsDone(m.st.completedKeys, tk.0, tk.1) then Ok((m, [])) else
    var (s1, trigger) :- EnsureTrigger(n, m.st, tk.0, tk.1);
    if tk.0 !in n.specs then Err(MissingTransition(tk.0)) else
    var spec := n.specs[tk.0];
    var m1 := m.(st := s1.(order := s1.order + [tk.0]));
    var attempt := GetOr(m.st.attempts, tk, 0);
    if Skips(spec, trigger) || spec.kind.RouterTo? then
      var (m2, run) :- RunAttempt(m1, spec, attempt, trigger, runner, |s1.order|);
      Ok((m2, [Job(tk, spec, attempt, trigger, Some(run))]))
    else Ok((m1, [Job(tk, spec, attempt, trigger, None)]))
  }

  function BuildJobs(n: Cpn, runner: Runner, m: Machine, items: seq<ReadyItem>)
    : (r: Result<(Machine, seq<Job>), EngineError>)
    requires Wf(m.ctx)
    ensures r.Ok? ==> Wf(r.value.0.ctx)
    decreases |items|
  {
    if items == [] then Ok((m, []))
    else
      var (m1, first) :- BuildJob(n, runner, m, items[0]);
      var (m2, rest) :- BuildJobs(n, runner, m1, items[1..]);
      Ok((m2, first + rest))
  }

  /** Runs the jobs left open; the threads' writes land in job order. */
  function RunJobs(runner: Runner, m: Machine, jobs: seq<Job>, tick: nat)
    : (r: Result<(Machine, seq<RunResult>), EngineError>)
    requires Wf(m.ctx)
    ensures r.Ok? ==> Wf(r.value.0.ctx) && |r.value.1| == |jobs|
    ensures r.Ok? ==> r.value.0 == m.(ctx := r.value.0.ctx, router := r.value.0.router, effects := r.value.0.effects)
    decreases |jobs|
  {
    if jobs == [] then Ok((m, []))
    else
      var j := jobs[0];
      var (m1, run) :-
        if j.run.Some? then Ok((m, j.run.value)) else RunAttempt(m, j.spec, j.attempt, j.trigger, runner, tick);
      var (m2, rest) :- RunJobs(runner, m1, jobs[1..], tick + 1);
      Ok((m2, [run] + rest))
  }

  function MergeJobs(n: Cpn, m: Machine, jobs: seq<Job>, runs: seq<RunResult>): (r: Result<Machine, EngineError>)
    requires Wf(m.ctx) && |jobs| == |runs|
    ensures r.Ok? ==> Wf(r.value.ctx)
    decreases |jobs|
  {
    if jobs == [] || m.stopped then Ok(m)
    else
      var m1 :- Conclude(n, m, jobs[0].spec, jobs[0].tk, jobs[0].attempt, runs[0]);
      MergeJobs(n, m1, jobs[1..], runs[1..])
  }

  function ParallelRound(n: Cpn, cfg: Config, runner: Runner, m: Machine): (r: Result<Machine, EngineError>)
    requires Wf(m.ctx)
    ensures r.Ok? ==> Wf(r.value.ctx)
  {
    var batch := ParallelBatch(m.st.ready, cfg.maxConcurrency);
    var drained := set i | i in m.st.ready :: (i.transition, i.key);
    var m0 := m.(st := m.st.(ready := [], readySet := m.st.readySet - drained));
    var (m1, jobs) :- BuildJobs(n, runner, m0, batch);
    var (m2, runs) :- RunJobs(runner, m1, jobs, |m1.st.order|);
    MergeJobs(n, m2, jobs, runs)
  }

  // ---------------------------------------------------------------- whole runs

  predicate Halted(m: Machine) { m.stopped || (m.batch == [] && m.st.ready == []) }

  /** One turn of the main loop: a batch item, a new batch, or a parallel round. */
  function Turn(n: Cpn, cfg: Config, runner: Runner, m: Machine): (r: Result<Machine, EngineError>)
    requires Wf(m.ctx)
    ensures r.Ok? ==> Wf(r.value.ctx)
  {
    if m.batch != [] then ProcessItem(n, runner, m.(batch := m.batch[1..]), m.batch[0])
    else if cfg.maxConcurrency <= 1 then
      var (batch, ready) := NextBatch(cfg, m.st.ready);
      Ok(m.(batch := batch, st := m.st.(ready := ready)))
    else ParallelRound(n, cfg, runner, m)
  }

  function Start(n: Cpn, ctx: Store): Result<Machine, EngineError> {
    var s :- EnqueueRoots(n, Initial(n), n.ids);
    Ok(Machine(s, ctx, ZERO_METRICS, [], false, []))
  }

  /** The machine after `i` turns; a halted machine stays. */
  function Run(n: Cpn, cfg: Config, runner: Runner, ctx: Store, i: nat): (r: Result<Machine, EngineError>)
    requires Wf(ctx)
    ensures r.Ok? ==> Wf(r.value.ctx)
  {
    if i == 0 then Start(n, ctx)
    else
      var m :- Run(n, cfg, runner, ctx, i - 1);
      if Halted(m) then Ok(m) else Turn(n, cfg, runner, m)
  }
}
