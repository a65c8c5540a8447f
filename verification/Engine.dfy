/** The engine as the source runs it: an object updated in place, step by step. */
module Engine {
  import opened Prelude
  import opened Net
  import opened ContextModel
  import opened Router
  import M = EngineModel
  import opened EngineModel

  lemma EmitUnfold(n: Cpn, s: State, f: Firing, arcs: seq<Arc>, i: nat)
    requires i < |arcs|
    ensures var s1 := s.(tokenSequence := s.tokenSequence + 1);
            EmitArcs(n, s, f, arcs[i..])
            == (match M.InsertToken(n, s1, arcs[i].place, MakeToken(n, f, s1.tokenSequence))
                case Ok(s2) => EmitArcs(n, s2, f, arcs[i + 1..])
                case Err(e) => Err(e))
  {
    assert arcs[i..][0] == arcs[i] && arcs[i..][1..] == arcs[i + 1..];
  }

  /** What consuming the first arcs collected, in front of what consuming the others does. */
  function Prepended(taken: seq<TriggerInput>, r: Result<(Buckets, seq<TriggerInput>), EngineError>)
    : Result<(Buckets, seq<TriggerInput>), EngineError>
  {
    match r
    case Ok((b, inputs)) => Ok((b, taken + inputs))
    case Err(e) => Err(e)
  }

  lemma ConsumeUnfold(b: Buckets, arcs: seq<Arc>, i: nat, k: Key, taken: seq<TriggerInput>)
    requires i < |arcs|
    ensures var p := arcs[i].place;
            Prepended(taken, ConsumeArcs(b, arcs[i..], k))
            == if p !in b then Err(MissingBucket(p))
               else
                 Prepended(taken + AsInputs(arcs[i], Tokens(b, p, k)),
                           ConsumeArcs(b[p := b[p] - {k}], arcs[i + 1..], k))
  {
    var p := arcs[i].place;
    assert arcs[i..][0] == arcs[i] && arcs[i..][1..] == arcs[i + 1..];
    if p in b && ConsumeArcs(b[p := b[p] - {k}], arcs[i + 1..], k).Ok? {
      var rest := ConsumeArcs(b[p := b[p] - {k}], arcs[i + 1..], k).value.1;
      var here := AsInputs(arcs[i], Tokens(b, p, k));
      assert taken + (here + rest) == taken + here + rest;
    }
  }

  lemma ConsumeEnd(b: Buckets, arcs: seq<Arc>, k: Key, taken: seq<TriggerInput>)
    ensures Prepended(taken, ConsumeArcs(b, arcs[|arcs|..], k)) == Ok((b, taken))
    ensures Prepended([], ConsumeArcs(b, arcs, k)) == ConsumeArcs(b, arcs, k)
  {
    assert arcs[|arcs|..] == [] && taken + [] == taken;
    if ConsumeArcs(b, arcs, k).Ok? {
      var all := ConsumeArcs(b, arcs, k).value.1;
      assert [] + all == all;
    }
  }

  lemma EmitEnd(n: Cpn, s: State, f: Firing, arcs: seq<Arc>)
    ensures EmitArcs(n, s, f, arcs[|arcs|..]) == Ok(s)
  {
  }

  lemma MarkedState(s: State, z: State, f: Firing)
    requires z == s.(completedKeys := z.completedKeys, outcomes := z.outcomes, keyedOutcomes := z.keyedOutcomes,
                     cancelTotal := z.cancelTotal, cache := z.cache, fired := z.fired)
    requires z.completedKeys == AddKey(s.completedKeys, f.transition, f.key)
    requires z.outcomes == s.outcomes[f.transition := f.result.outcome]
    requires z.keyedOutcomes == AddOutcome(s.keyedOutcomes, f.transition, f.key, f.result.outcome)
    requires z.cancelTotal == s.cancelTotal + if f.result.outcome == Cancelled then 1 else 0
    requires z.cache == s.cache - {(f.transition, f.key)} && z.fired == s.fired + [f]
    ensures z == M.MarkCompleted(s, f)
  {
    hide AddKey, AddOutcome;
  }

  class EngineState {
    const net: Cpn
    var placeTokens: Buckets
    var cache: map<Pair, seq<TriggerInput>>
    var ready: seq<ReadyItem>
    var readySet: set<Pair>
    var attempts: map<Pair, nat>
    var order: seq<Id>
    var outcomes: map<Id, Outcome>
    var keyedOutcomes: map<Id, map<Key, Outcome>>
    var completedKeys: map<Id, set<Key>>
    var tokenSequence: nat
    var retryTotal: nat
    var cancelTotal: nat
    var lateTotal: nat
    var zombieTotal: nat
    var router: RouterMetrics
    ghost var fired: seq<Firing>
    ghost var retried: map<Pair, seq<RunResult>>
    ghost var late: seq<Token>
    ghost var effects: seq<Effect>

    ghost function Model(): State
      reads this
    {
      State(placeTokens, cache, ready, readySet, attempts, order, outcomes, keyedOutcomes, completedKeys,
            tokenSequence, retryTotal, cancelTotal, lateTotal, zombieTotal, fired, retried, late)
    }

    ghost function Whole(context: RuntimeContext, batch: seq<ReadyItem>, stopped: bool): Machine
      reads this, context
    {
      Machine(Model(), context.Model(), router, batch, stopped, effects)
    }

    /** `r` and the present state are what the model says. */
    ghost predicate Follows(spec: Result<State, EngineError>, r: Result<(), EngineError>)
      reads this
    {
      match spec
      case Ok(s) => r == Ok(()) && Model() == s
      case Err(e) => r == Err(e)
    }

    constructor (n: Cpn)
      ensures net == n && Model() == Initial(n) && router == ZERO_METRICS && effects == []
    {
      net := n;
      placeTokens := map p | p in n.graph.places :: map[];
      cache, ready, readySet, attempts, order := map[], [], {}, map[], [];
      outcomes, keyedOutcomes, completedKeys := map[], map[], map[];
      tokenSequence, retryTotal, cancelTotal, lateTotal, zombieTotal := 0, 0, 0, 0, 0;
      router := ZERO_METRICS;
      fired, retried, late, effects := [], map[], [], [];
    }

    method PushReady(t: Id, k: Key, retry: bool) returns (r: Result<(), EngineError>)
      modifies this`ready, this`readySet
      ensures Follows(M.PushReady(net, old(Model()), t, k, retry), r)
    {
      if (t, k) in readySet || IsDone(completedKeys, t, k) {
        return Ok(());
      }
      if t !in net.specs {
        return Err(MissingTransition(t));
      }
      var spec := net.specs[t];
      ready := ready + [ReadyItem(t, k, spec.topoLevel, spec.transition.priority, retry)];
      readySet := readySet + {(t, k)};
      return Ok(());
    }

    method EnqueueRoots() returns (r: Result<(), EngineError>)
      modifies this`ready, this`readySet
      ensures Follows(M.EnqueueRoots(net, old(Model()), net.ids), r)
    {
      ghost var s0 := Model();
      for i := 0 to |net.ids|
        invariant M.EnqueueRoots(net, s0, net.ids) == M.EnqueueRoots(net, Model(), net.ids[i..])
      {
        var t := net.ids[i];
        assert net.ids[i..][0] == t && net.ids[i..][1..] == net.ids[i + 1..];
        if In(net, t) == [] {
          if t !in net.specs {
            return Err(MissingTransition(t));
          }
          var pushed := PushReady(t, RootKey(net, t), false);
          if pushed.Err? {
            return pushed;
          }
        }
      }
      return Ok(());
    }

    method NextBatch(cfg: Config) returns (batch: seq<ReadyItem>)
      modifies this`ready
      ensures (batch, ready) == M.NextBatch(cfg, old(ready))
    {
      var size := BatchSize(cfg, |ready|);
      var items := ready;
      if cfg.mode.Deterministic? {
        items := Sort(ready, CmpReady);
      }
      batch := [];
      ghost var all := items;
      for i := 0 to size
        invariant i <= |all| ==> batch == all[..i] && items == all[i..]
        invariant i > |all| ==> batch == all && items == []
      {
        if items != [] {
          batch := batch + [items[0]];
          items := items[1..];
        }
      }
      assert size == |all| ==> all[..size] == all && all[size..] == [];
      ready := items;
    }

    method IsTransitionReady(t: Id, k: Key) returns (r: Result<bool, EngineError>)
      ensures r == M.IsTransitionReady(net, Model(), t, k)
    {
      if IsDone(completedKeys, t, k) {
        return Ok(false);
      }
      if t !in net.specs {
        return Err(MissingTransition(t));
      }
      var arcs := In(net, t);
      if arcs == [] {
        return Ok(true);
      }
      var queues := [];
      for i := 0 to |arcs|
        invariant queues == Queues(placeTokens, arcs, k)[..i]
        invariant forall j :: 0 <= j < i && arcs[j].required ==> Tokens(placeTokens, arcs[j].place, k) != []
      {
        var tokens := Tokens(placeTokens, arcs[i].place, k);
        if arcs[i].required && tokens == [] {
          assert arcs[i] in In(net, t);
          return Ok(false);
        }
        queues := queues + [tokens];
      }
      assert queues == Queues(placeTokens, arcs, k);
      return Ok(JoinReady(net.specs[t].transition.join, queues));
    }

    method ConsumeInputs(t: Id, k: Key) returns (r: Result<seq<TriggerInput>, EngineError>)
      modifies this`placeTokens
      ensures match ConsumeArcs(old(placeTokens), In(net, t), k)
              case Ok((b, inputs)) => r == Ok(inputs) && placeTokens == b
              case Err(e) => r == Err(e)
    {
      hide ConsumeArcs, Tokens;
      var arcs := In(net, t);
      var all := [];
      ghost var spec := ConsumeArcs(placeTokens, arcs, k);
      ConsumeEnd(placeTokens, arcs, k, []);
      assert arcs[0..] == arcs;
      for i := 0 to |arcs|
        invariant spec == Prepended(all, ConsumeArcs(placeTokens, arcs[i..], k))
      {
        var p := arcs[i].place;
        ConsumeUnfold(placeTokens, arcs, i, k, all);
        if p !in placeTokens {
          return Err(MissingBucket(p));
        }
        all := all + AsInputs(arcs[i], Tokens(placeTokens, p, k));
        placeTokens := placeTokens[p := placeTokens[p] - {k}];
      }
      ConsumeEnd(placeTokens, arcs, k, all);
      return Ok(all);
    }

    method EnsureTriggerInputs(t: Id, k: Key) returns (r: Result<Trigger, EngineError>)
      modifies this`placeTokens, this`cache
      ensures match EnsureTrigger(net, old(Model()), t, k)
              case Ok((s, trigger)) => r == Ok(trigger) && Model() == s
              case Err(e) => r == Err(e)
    {
      if (t, k) in cache {
        return Ok(Trigger(k, cache[(t, k)]));
      }
      var ready :- IsTransitionReady(t, k);
      if !ready {
        return Err(NotReady(t, k));
      }
      var inputs :- ConsumeInputs(t, k);
      cache := cache[(t, k) := inputs];
      return Ok(Trigger(k, inputs));
    }

    method MarkCompleted(t: Id, k: Key, outcome: Outcome, ghost f: Firing)
      modifies this`completedKeys, this`outcomes, this`keyedOutcomes, this`cancelTotal, this`cache, this`fired
      ensures completedKeys == AddKey(old(completedKeys), t, k)
      ensures outcomes == old(outcomes)[t := outcome] && cache == old(cache) - {(t, k)}
      ensures keyedOutcomes == AddOutcome(old(keyedOutcomes), t, k, outcome)
      ensures cancelTotal == old(cancelTotal) + if outcome == Cancelled then 1 else 0
      ensures fired == old(fired) + [f]
    {
      completedKeys := AddKey(completedKeys, t, k);
      outcomes := outcomes[t := outcome];
      keyedOutcomes := AddOutcome(keyedOutcomes, t, k, outcome);
      if outcome == Cancelled {
        cancelTotal := cancelTotal + 1;
      }
      cache := cache - {(t, k)};
      fired := fired + [f];
    }

    method InsertToken(p: Id, token: Token) returns (r: Result<(), EngineError>)
      modifies this`lateTotal, this`zombieTotal, this`late, this`placeTokens, this`ready, this`readySet
      ensures Follows(M.InsertToken(net, old(Model()), p, token), r)
    {
      if p in net.graph.consumer && IsDone(completedKeys, net.graph.consumer[p], token.key) {
        lateTotal := lateTotal + 1;
        zombieTotal := zombieTotal + 1;
        late := late + [token];
        return Ok(());
      }
      if p !in placeTokens {
        return Err(MissingPlace(p));
      }
      placeTokens := placeTokens[p := placeTokens[p][token.key := GetOr(placeTokens[p], token.key, []) + [token]]];
      if p in net.graph.consumer {
        var t := net.graph.consumer[p];
        var ready :- IsTransitionReady(t, token.key);
        if ready {
          r := PushReady(t, token.key, false);
          return;
        }
      }
      return Ok(());
    }

    method CompleteTransition(t: Id, k: Key, run: RunResult, context: RuntimeContext)
      returns (r: Result<(), EngineError>)
      requires context.Valid()
      modifies this`completedKeys, this`outcomes, this`keyedOutcomes, this`cancelTotal, this`cache, this`fired,
               this`tokenSequence, this`lateTotal, this`zombieTotal, this`late, this`placeTokens, this`ready,
               this`readySet, context`skipped
      ensures Follows(Complete(net, old(Model()), t, k, run), r)
      ensures context.Valid()
      ensures context.Model() == if run.outcome == Skipped
                                 then old(context.Model()).(skipped := old(context.skipped) + {t})
                                 else old(context.Model())
    {
      hide EmitArcs, M.InsertToken, M.MarkCompleted, AddKey, AddOutcome;
      ghost var f := FiringOf(Model(), t, k, run);
      MarkCompleted(t, k, run.outcome, f);
      MarkedState(old(Model()), Model(), f);
      if run.outcome == Skipped {
        context.MarkSkipped(t);
      }
      r := EmitTokens(t, k, run, f);
    }

    /** One output arc: the next sequence number, a token, and its insertion. */
    method EmitOne(t: Id, k: Key, run: RunResult, arc: Arc, ghost f: Firing) returns (r: Result<(), EngineError>)
      requires f.transition == t && f.key == k && f.result == run
      modifies this`tokenSequence, this`lateTotal, this`zombieTotal, this`late, this`placeTokens, this`ready,
               this`readySet
      ensures var s1 := old(Model()).(tokenSequence := old(tokenSequence) + 1);
              Follows(M.InsertToken(net, s1, arc.place, MakeToken(net, f, s1.tokenSequence)), r)
    {
      hide M.InsertToken;
      tokenSequence := tokenSequence + 1;
      var token := Token(k, run.payload, TokenMeta(net.execId, t, Group(net, t), tokenSequence, run.outcome));
      r := InsertToken(arc.place, token);
    }

    method EmitTokens(t: Id, k: Key, run: RunResult, ghost f: Firing) returns (r: Result<(), EngineError>)
      requires f.transition == t && f.key == k && f.result == run
      modifies this`tokenSequence, this`lateTotal, this`zombieTotal, this`late, this`placeTokens, this`ready,
               this`readySet
      ensures Follows(EmitArcs(net, old(Model()), f, Out(net, t)), r)
    {
      hide EmitArcs, M.InsertToken;
      var arcs := Out(net, t);
      ghost var spec := EmitArcs(net, Model(), f, arcs);
      assert arcs[0..] == arcs;
      for i := 0 to |arcs|
        invariant spec == EmitArcs(net, Model(), f, arcs[i..])
      {
        EmitUnfold(net, Model(), f, arcs, i);
        var emitted := EmitOne(t, k, run, arcs[i], f);
        if emitted.Err? {
          return emitted;
        }
      }
      EmitEnd(net, Model(), f, arcs);
      return Ok(());
    }

    /** The attempt itself; a Router runs in its own subgraph. */
    method RunTransition(spec: ExecSpec, attempt: nat, trigger: Trigger, context: RuntimeContext, runner: Runner,
                         tick: nat, ghost batch: seq<ReadyItem>)
      returns (r: Result<RunResult, EngineError>)
      requires context.Valid()
      modifies this`router, this`effects, context
      ensures context.Valid()
      ensures match RunAttempt(old(Whole(context, batch, false)), spec, attempt, trigger, runner, tick)
              case Ok((m, run)) => r == Ok(run) && Whole(context, batch, false) == m
              case Err(e) => r == Err(e)
    {
      if Skips(spec, trigger) {
        return Ok(RunResult(Skipped, Null));
      }
      match spec.kind {
        case RouterTo(_) =>
          r := RunRouter(spec, attempt, trigger, context, runner, tick, batch);
        case Gate =>
          return Ok(RunResult(Success, Null));
        case _ =>
          var report := runner(spec, attempt, trigger, context.Model(), tick);
          RunWrites(context, report.ops);
          effects := effects + [Effect(spec.transition.id, trigger.key, report.ops)];
          return Ok(RunResult(TaskOutcome(spec, report), report.payload));
      }
    }

    /** `run_transition_router`. */
    method RunRouter(spec: ExecSpec, attempt: nat, trigger: Trigger, context: RuntimeContext, runner: Runner,
                     tick: nat, ghost batch: seq<ReadyItem>)
      returns (r: Result<RunResult, EngineError>)
      requires context.Valid() && spec.kind.RouterTo? && !Skips(spec, trigger)
      modifies this`router, this`effects, context
      ensures context.Valid()
      ensures match RunAttempt(old(Whole(context, batch, false)), spec, attempt, trigger, runner, tick)
              case Ok((m, run)) => r == Ok(run) && Whole(context, batch, false) == m
              case Err(e) => r == Err(e)
    {
      hide ExecuteRouter, Skips;
      var subgraph := spec.kind.subgraph;
      var run := InSubgraph(runner, spec, attempt, trigger, tick);
      ghost var ops := run(Step(context.Model(), Begin(subgraph)).0).ops;
      var routed, metrics := Router.Execute(context, subgraph, router, run, spec.timeoutMs);
      if routed.Err? {
        return Err(ContextFailed(routed.error));
      }
      router := metrics;
      effects := effects + if routed.value.0 == Success then [Effect(spec.transition.id, trigger.key, ops)] else [];
      return Ok(RunResult(routed.value.0, routed.value.1));
    }

    method CountRetry(tk: Pair, attempt: nat, run: RunResult)
      modifies this`retried, this`attempts, this`retryTotal
      ensures Model() == old(Model()).(attempts := old(attempts)[tk := attempt + 1], retryTotal := old(retryTotal) + 1,
                                       retried := old(retried)[tk := GetOr(old(retried), tk, []) + [run]])
    {
      attempts := attempts[tk := attempt + 1];
      retryTotal := retryTotal + 1;
      retried := retried[tk := GetOr(retried, tk, []) + [run]];
    }

    /** Requeues the attempt or completes the pair; true when a Terminal fired. */
    method Settle(spec: ExecSpec, t: Id, k: Key, attempt: nat, run: RunResult, context: RuntimeContext,
                  ghost batch: seq<ReadyItem>)
      returns (r: Result<bool, EngineError>)
      requires context.Valid()
      modifies this, context`skipped
      ensures context.Valid()
      ensures match Conclude(net, old(Whole(context, batch, false)), spec, (t, k), attempt, run)
              case Ok(m) => r == Ok(m.stopped) && Whole(context, if m.stopped then [] else batch, m.stopped) == m
              case Err(e) => r == Err(e)
    {
      hide Complete, M.PushReady, Shutdown, GetOr;
      if Retryable(run.outcome) && attempt + 1 <= spec.maxRetries {
        CountRetry((t, k), attempt, run);
        var _ :- PushReady(t, k, true);
        return Ok(false);
      }
      r := Finish(spec, t, k, run, context);
    }

    method Finish(spec: ExecSpec, t: Id, k: Key, run: RunResult, context: RuntimeContext)
      returns (r: Result<bool, EngineError>)
      requires context.Valid()
      modifies this`completedKeys, this`outcomes, this`keyedOutcomes, this`cancelTotal, this`cache, this`fired,
               this`tokenSequence, this`lateTotal, this`zombieTotal, this`late, this`placeTokens, this`ready,
               this`readySet, context`skipped
      ensures match Complete(net, old(Model()), t, k, run)
              case Ok(s) =>
                r == Ok(spec.kind.Terminal?) && Model() == if spec.kind.Terminal? then Shutdown(net, s) else s
              case Err(e) => r == Err(e)
      ensures context.Valid()
      ensures context.Model() == if run.outcome == Skipped
                                 then old(context.Model()).(skipped := old(context.skipped) + {t})
                                 else old(context.Model())
    {
      hide Complete, Shutdown;
      var _ :- CompleteTransition(t, k, run, context);
      if spec.kind.Terminal? {
        Terminate();
      }
      return Ok(spec.kind.Terminal?);
    }

    method Terminate()
      modifies this`ready, this`readySet, this`outcomes
      ensures Model() == Shutdown(net, old(Model()))
    {
      ready := [];
      readySet := {};
      CancelRest();
    }

    method CancelRest()
      modifies this`outcomes
      ensures outcomes == (map t | t in net.specs :: Cancelled) + old(outcomes)
    {
      var todo := net.specs.Keys;
      while todo != {}
        invariant todo <= net.specs.Keys
        invariant outcomes == (map t | t in net.specs.Keys - todo :: Cancelled) + old(outcomes)
      {
        var t :| t in todo;
        if t !in outcomes {
          outcomes := outcomes[t := Cancelled];
        }
        todo := todo - {t};
      }
      assert net.specs.Keys - todo == net.specs.Keys;
    }

    /** The second half of `process_one_item`: the attempt and what follows it. */
    method RunAndSettle(t: Id, k: Key, attempt: nat, trigger: Trigger, context: RuntimeContext, runner: Runner,
                        tick: nat, ghost batch: seq<ReadyItem>)
      returns (r: Result<bool, EngineError>)
      requires context.Valid() && t in net.specs
      modifies this, context
      ensures context.Valid()
      ensures match RunAttempt(old(Whole(context, batch, false)), net.specs[t], attempt, trigger, runner, tick)
              case Err(e) => r == Err(e)
              case Ok((m2, run)) =>
                match Conclude(net, m2, net.specs[t], (t, k), attempt, run)
                case Ok(m) => r == Ok(m.stopped) && Whole(context, if m.stopped then [] else batch, m.stopped) == m
                case Err(e) => r == Err(e)
    {
      hide RunAttempt, Conclude;
      var run :- RunTransition(net.specs[t], attempt, trigger, context, runner, tick, batch);
      r := Settle(net.specs[t], t, k, attempt, run, context, batch);
    }

    /** `process_one_item`; true when a Terminal transition fired. */
    method ProcessOneItem(item: ReadyItem, context: RuntimeContext, runner: Runner, ghost batch: seq<ReadyItem>)
      returns (r: Result<bool, EngineError>)
      requires context.Valid()
      modifies this, context
      ensures context.Valid()
      ensures match ProcessItem(net, runner, old(Whole(context, batch, false)), item)
              case Ok(m) => r == Ok(m.stopped) && Whole(context, if m.stopped then [] else batch, m.stopped) == m
              case Err(e) => r == Err(e)
    {
      hide EnsureTrigger, RunAttempt, Conclude, IsDone, GetOr;
      var t, k := item.transition, item.key;
      readySet := readySet - {(t, k)};
      if IsDone(completedKeys, t, k) {
        return Ok(false);
      }
      var attempt := GetOr(attempts, (t, k), 0);
      var trigger :- EnsureTriggerInputs(t, k);
      if t !in net.specs {
        return Err(MissingTransition(t));
      }
      var tick := |order|;
      order := order + [t];
      r := RunAndSettle(t, k, attempt, trigger, context, runner, tick, batch);
    }

    // ------------------------------------------------------- the parallel path

    /** Empties the queue; keeps the first item per key, least first, at most `max` of them. */
    method DrainBatch(max: nat) returns (batch: seq<ReadyItem>)
      modifies this`ready, this`readySet
      ensures batch == ParallelBatch(old(ready), max) && ready == []
      ensures readySet == old(readySet) - (set i | i in old(ready) :: (i.transition, i.key))
    {
      var first: seq<ReadyItem> := [];
      ghost var all := ready;
      ghost var i := 0;
      while ready != []
        invariant i <= |all| && ready == all[i..]
        invariant first == FirstPerKey(all[..i])
        invariant readySet == old(readySet) - (set x | x in all[..i] :: (x.transition, x.key))
        decreases |ready|
      {
        var item := ready[0];
        ready := ready[1..];
        readySet := readySet - {(item.transition, item.key)};
        assert all[..i + 1] == all[..i] + [item] && all[..i + 1][..i] == all[..i];
        if !exists x :: x in first && x.key == item.key {
          first := first + [item];
        }
        i := i + 1;
      }
      assert all[..i] == all;
      var sorted := Sort(first, CmpReady);
      batch := if |sorted| <= max then sorted else sorted[..max];
    }

    method BuildParallelJob(item: ReadyItem, context: RuntimeContext, runner: Runner)
      returns (r: Result<seq<Job>, EngineError>)
      requires context.Valid()
      modifies this, context
      ensures context.Valid()
      ensures match BuildJob(net, runner, old(Whole(context, [], false)), item)
              case Ok((m, jobs)) => r == Ok(jobs) && Whole(context, [], false) == m
              case Err(e) => r == Err(e)
    {
      hide EnsureTrigger, RunAttempt, Skips;
      var tk := (item.transition, item.key);
      if IsDone(completedKeys, tk.0, tk.1) {
        return Ok([]);
      }
      var attempt := GetOr(attempts, tk, 0);
      var trigger :- EnsureTriggerInputs(tk.0, tk.1);
      if tk.0 !in net.specs {
        return Err(MissingTransition(tk.0));
      }
      var spec := net.specs[tk.0];
      var tick := |order|;
      order := order + [tk.0];
      if Skips(spec, trigger) || spec.kind.RouterTo? {
        var run :- RunTransition(spec, attempt, trigger, context, runner, tick, []);
        return Ok([Job(tk, spec, attempt, trigger, Some(run))]);
      }
      return Ok([Job(tk, spec, attempt, trigger, None)]);
    }

    method BuildParallelJobs(batch: seq<ReadyItem>, context: RuntimeContext, runner: Runner)
      returns (r: Result<seq<Job>, EngineError>)
      requires context.Valid()
      modifies this, context
      ensures context.Valid()
      ensures match BuildJobs(net, runner, old(Whole(context, [], false)), batch)
              case Ok((m, jobs)) => r == Ok(jobs) && Whole(context, [], false) == m
              case Err(e) => r == Err(e)
    {
      hide BuildJob;
      var jobs := [];
      ghost var spec := BuildJobs(net, runner, Whole(context, [], false), batch);
      assert batch[0..] == batch && (spec.Ok? ==> [] + spec.value.1 == spec.value.1);
      for i := 0 to |batch|
        invariant context.Valid()
        invariant match BuildJobs(net, runner, Whole(context, [], false), batch[i..])
                  case Ok((m, rest)) => spec == Ok((m, jobs + rest))
                  case Err(e) => spec == Err(e)
      {
        assert batch[i..][0] == batch[i] && batch[i..][1..] == batch[i + 1..];
        var job :- BuildParallelJob(batch[i], context, runner);
        ghost var rest := BuildJobs(net, runner, Whole(context, [], false), batch[i + 1..]);
        assert rest.Ok? ==> jobs + (job + rest.value.1) == (jobs + job) + rest.value.1;
        jobs := jobs + job;
      }
      assert batch[|batch|..] == [] && jobs + [] == jobs;
      return Ok(jobs);
    }

    /** The runner threads, in job order. */
    method RunParallelJobs(jobs: seq<Job>, context: RuntimeContext, runner: Runner, tick: nat)
      returns (r: Result<seq<RunResult>, EngineError>)
      requires context.Valid()
      modifies this`router, this`effects, context
      ensures context.Valid()
      ensures match RunJobs(runner, old(Whole(context, [], false)), jobs, tick)
              case Ok((m, runs)) => r == Ok(runs) && Whole(context, [], false) == m
              case Err(e) => r == Err(e)
    {
      hide RunAttempt;
      var runs := [];
      ghost var spec := RunJobs(runner, Whole(context, [], false), jobs, tick);
      assert jobs[0..] == jobs && (spec.Ok? ==> [] + spec.value.1 == spec.value.1);
      for i := 0 to |jobs|
        invariant context.Valid()
        invariant match RunJobs(runner, Whole(context, [], false), jobs[i..], tick + i)
                  case Ok((m, rest)) => spec == Ok((m, runs + rest))
                  case Err(e) => spec == Err(e)
      {
        var j := jobs[i];
        assert jobs[i..][0] == j && jobs[i..][1..] == jobs[i + 1..];
        var run;
        if j.run.Some? {
          run := j.run.value;
        } else {
          run :- RunTransition(j.spec, j.attempt, j.trigger, context, runner, tick + i, []);
        }
        ghost var rest := RunJobs(runner, Whole(context, [], false), jobs[i + 1..], tick + i + 1);
        assert rest.Ok? ==> runs + ([run] + rest.value.1) == (runs + [run]) + rest.value.1;
        runs := runs + [run];
      }
      assert jobs[|jobs|..] == [] && runs + [] == runs;
      return Ok(runs);
    }

    method MergeParallelJobs(jobs: seq<Job>, runs: seq<RunResult>, context: RuntimeContext)
      returns (r: Result<bool, EngineError>)
      requires context.Valid() && |jobs| == |runs|
      modifies this, context
      ensures context.Valid()
      ensures match MergeJobs(net, old(Whole(context, [], false)), jobs, runs)
              case Ok(m) => r == Ok(m.stopped) && Whole(context, [], m.stopped) == m
              case Err(e) => r == Err(e)
    {
      hide Conclude;
      ghost var spec := MergeJobs(net, Whole(context, [], false), jobs, runs);
      assert jobs[0..] == jobs && runs[0..] == runs;
      for i := 0 to |jobs|
        invariant context.Valid()
        invariant spec == MergeJobs(net, Whole(context, [], false), jobs[i..], runs[i..])
      {
        var j := jobs[i];
        assert jobs[i..][0] == j && jobs[i..][1..] == jobs[i + 1..];
        assert runs[i..][0] == runs[i] && runs[i..][1..] == runs[i + 1..];
        var stopped :- Settle(j.spec, j.tk.0, j.tk.1, j.attempt, runs[i], context, []);
        if stopped {
          return Ok(true);
        }
      }
      return Ok(false);
    }

    /** One parallel round; true when a Terminal transition fired. */
    method RunRound(cfg: Config, context: RuntimeContext, runner: Runner) returns (r: Result<bool, EngineError>)
      requires context.Valid()
      modifies this, context
      ensures context.Valid()
      ensures match ParallelRound(net, cfg, runner, old(Whole(context, [], false)))
              case Ok(m) => r == Ok(m.stopped) && Whole(context, [], m.stopped) == m
              case Err(e) => r == Err(e)
    {
      hide BuildJobs, RunJobs, MergeJobs, ParallelBatch;
      var batch := DrainBatch(cfg.maxConcurrency);
      var jobs :- BuildParallelJobs(batch, context, runner);
      var runs :- RunParallelJobs(jobs, context, runner, |order|);
      r := MergeParallelJobs(jobs, runs, context);
    }
  }
}
