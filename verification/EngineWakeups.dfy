/**
 * No lost wake-up, for every run. What a drain of the parallel path drops is the only thing a run
 * can forget, and it stays forgotten until it is queued again: at every turn the pairs that should
 * run are exactly the incomplete ones that are queued or were dropped.
 */
module EngineWakeups {
  import opened Prelude
  import opened Net
  import opened ContextModel
  import opened EngineModel
  import opened EngineTokens
  import opened EngineSafety
  import opened EngineQueue
  import opened EngineScheduling
  import opened EngineRuns
  import opened EngineTheorems

  /** The pair holds its inputs or is enabled with a reason to run, and is not complete. */
  ghost predicate Wants(n: Cpn, s: State, tk: Pair) {
    !IsDone(s.completedKeys, tk.0, tk.1) && (tk in s.cache || Idle(n, s.placeTokens, s.completedKeys, tk))
  }

  /** Every incomplete pair of the set should run. */
  ghost predicate Reasoned(
    n: Cpn, b: Buckets, c: map<Pair, seq<TriggerInput>>, done: map<Id, set<Key>>, q: set<Pair>)
  {
    forall tk: Pair :: tk in q && !IsDone(done, tk.0, tk.1) ==> tk in c || Idle(n, b, done, tk)
  }

  /** The pairs that should run are in the set, and the set's incomplete pairs should run. */
  ghost predicate Known(n: Cpn, s: State, q: set<Pair>) {
    && WakeInv(n, s.placeTokens, s.cache, s.completedKeys, q)
    && Reasoned(n, s.placeTokens, s.cache, s.completedKeys, q)
  }

  lemma KnownWants(n: Cpn, s: State, fly: set<Pair>, q: set<Pair>)
    requires Safe(n, s, fly) && Known(n, s, q)
    ensures forall tk: Pair :: Wants(n, s, tk) <==> tk in q && !IsDone(s.completedKeys, tk.0, tk.1)
  {
    hide Idle, TokenInv, FiredInv, DoneInv, TriesInv, LateInv, BagInv, ReadyInv;
  }

  // -------------------------------------------------------------- taking the inputs

  lemma ReasonTake(n: Cpn, b: Buckets, b': Buckets, c: map<Pair, seq<TriggerInput>>, done: map<Id, set<Key>>,
                   q: set<Pair>, tk: Pair, inputs: seq<TriggerInput>)
    requires WfNet(n) && Reasoned(n, b, c, done, q) && Drained(b, b', In(n, tk.0), tk.1)
    ensures Reasoned(n, b', c[tk := inputs], done, q)
  {
    forall o: Pair | o in q && !IsDone(done, o.0, o.1) && o != tk && o !in c ensures Idle(n, b', done, o) {
      AwakeLocal(n, b, b', o);
    }
  }

  lemma TakeKnown(n: Cpn, s: State, fly: set<Pair>, tk: Pair, q: set<Pair>)
    requires WfNet(n) && Safe(n, s, fly) && tk in fly && tk in q && Known(n, s, q)
    ensures var r := EnsureTrigger(n, s, tk.0, tk.1);
            r.Ok? && Known(n, r.value.0, q) && r.value.0.readySet == s.readySet
  {
    TakeSafe(n, s, fly, tk);
    if tk !in s.cache {
      var b := s.placeTokens;
      ConsumeDrains(b, In(n, tk.0), tk.1);
      var (b', inputs) := ConsumeArcs(b, In(n, tk.0), tk.1).value;
      hide Safe, WakeInv, Reasoned, ConsumeArcs, Drained, WfNet;
      WakeTake(n, b, b', s.cache, s.completedKeys, q, tk, inputs);
      ReasonTake(n, b, b', s.cache, s.completedKeys, q, tk, inputs);
    }
  }

  // ------------------------------------------------------------------- completing

  lemma MarkKnown(n: Cpn, s: State, f: Firing, q: set<Pair>)
    requires Known(n, s, q)
    ensures Known(n, MarkCompleted(s, f), q) && Known(n, MarkCompleted(s, f), q - {PairOf(f)})
  {
    hide Awake, Enabled;
    WakeMark(n, s, f, q);
    var s' := MarkCompleted(s, f);
    assert forall t, k :: IsDone(s'.completedKeys, t, k) <==> IsDone(s.completedKeys, t, k) || (t, k) == PairOf(f);
  }

  lemma ReasonAdd(n: Cpn, b: Buckets, c: map<Pair, seq<TriggerInput>>, done: map<Id, set<Key>>, q: set<Pair>,
                  p: Id, token: Token)
    requires p in b && Reasoned(n, b, c, done, q)
    ensures Reasoned(n, AddToken(b, p, token), c, done, q)
  {
    var b' := AddToken(b, p, token);
    AddChanges(b, p, token);
    forall o: Pair | o in q && !IsDone(done, o.0, o.1) && o !in c ensures Idle(n, b', done, o) {
      EnabledMonotone(n, b, b', o.0, o.1);
      if In(n, o.0) != [] {
        var a :| a in In(n, o.0) && Tokens(b, a.place, o.1) != [];
        assert Tokens(b', a.place, o.1) != [];
      }
    }
  }

  /** The consumer is queued only if the new token gives it a reason to run. */
  lemma ReasonWake(n: Cpn, s: State, p: Id, k: Key, fly: set<Pair>)
    requires WfNet(n) && WakeConsumer(n, s, p, k).Ok? && Tokens(s.placeTokens, p, k) != []
    requires Reasoned(n, s.placeTokens, s.cache, s.completedKeys, s.readySet + fly)
    ensures var s' := WakeConsumer(n, s, p, k).value;
            Reasoned(n, s'.placeTokens, s'.cache, s'.completedKeys, s'.readySet + fly)
  {
    if p in n.graph.consumer {
      var t := n.graph.consumer[p];
      var a :| a in In(n, t) && a.place == p;
      assert Awake(n, s.placeTokens, (t, k));
      assert a.place in n.graph.consumer;
      hide Enabled, WfNet, Awake;
    }
  }

  lemma InsertKnown(n: Cpn, s: State, p: Id, token: Token, fly: set<Pair>)
    requires WfNet(n) && Known(n, s, s.readySet + fly) && InsertToken(n, s, p, token).Ok?
    ensures var s' := InsertToken(n, s, p, token).value; Known(n, s', s'.readySet + fly)
  {
    hide Idle, WakeInv, Reasoned, WakeConsumer, WfNet;
    WakeInsert(n, s, p, token, fly);
    if !(p in n.graph.consumer && IsDone(s.completedKeys, n.graph.consumer[p], token.key)) {
      var s1 := s.(placeTokens := AddToken(s.placeTokens, p, token));
      ReasonAdd(n, s.placeTokens, s.cache, s.completedKeys, s.readySet + fly, p, token);
      AddChanges(s.placeTokens, p, token);
      ReasonWake(n, s1, p, token.key, fly);
    }
  }

  lemma {:induction false} EmitKnown(n: Cpn, s: State, f: Firing, arcs: seq<Arc>, fly: set<Pair>)
    requires WfNet(n) && Known(n, s, s.readySet + fly) && EmitArcs(n, s, f, arcs).Ok?
    ensures var s' := EmitArcs(n, s, f, arcs).value; Known(n, s', s'.readySet + fly)
    decreases |arcs|
  {
    hide WfNet, WakeInv, Reasoned, InsertToken;
    if arcs != [] {
      var s1 := s.(tokenSequence := s.tokenSequence + 1);
      var token := MakeToken(n, f, s1.tokenSequence);
      InsertKnown(n, s1, arcs[0].place, token, fly);
      EmitKnown(n, InsertToken(n, s1, arcs[0].place, token).value, f, arcs[1..], fly);
    }
  }

  /** `rest` is `fly` without the concluded pair, or with it where a drain had dropped it before. */
  ghost predicate Less(fly: set<Pair>, rest: set<Pair>, tk: Pair) { rest == fly || rest == fly - {tk} }

  lemma CompleteKnown(n: Cpn, s: State, tk: Pair, run: RunResult, fly: set<Pair>, rest: set<Pair>)
    requires WfNet(n) && Known(n, s, s.readySet + fly) && tk !in s.readySet && Less(fly, rest, tk)
    requires Complete(n, s, tk.0, tk.1, run).Ok?
    ensures var s' := Complete(n, s, tk.0, tk.1, run).value; Known(n, s', s'.readySet + rest)
  {
    hide Known, WfNet, EmitArcs;
    var f := FiringOf(s, tk.0, tk.1, run);
    MarkKnown(n, s, f, s.readySet + fly);
    assert s.readySet + rest == s.readySet + fly || s.readySet + rest == s.readySet + fly - {tk};
    EmitKnown(n, MarkCompleted(s, f), f, Out(n, tk.0), rest);
  }

  lemma RequeueKnown(n: Cpn, s: State, tk: Pair, attempt: nat, run: RunResult, fly: set<Pair>, rest: set<Pair>)
    requires Known(n, s, s.readySet + fly) && tk in fly && Less(fly, rest, tk) && !IsDone(s.completedKeys, tk.0, tk.1)
    requires PushReady(n, Requeued(s, tk, attempt, run), tk.0, tk.1, true).Ok?
    ensures var s' := PushReady(n, Requeued(s, tk, attempt, run), tk.0, tk.1, true).value;
            Known(n, s', s'.readySet + rest)
  {
    hide WakeInv, Reasoned;
    var s' := PushReady(n, Requeued(s, tk, attempt, run), tk.0, tk.1, true).value;
    assert s'.readySet + rest == s.readySet + fly;
  }

  lemma ConcludeKnown(n: Cpn, m: Machine, tk: Pair, attempt: nat, run: RunResult, fly: set<Pair>, rest: set<Pair>)
    requires WfNet(n) && Wf(m.ctx) && tk.0 in n.specs && Known(n, m.st, m.st.readySet + fly) && !m.stopped
    requires tk in fly && Less(fly, rest, tk) && tk !in m.st.readySet && !IsDone(m.st.completedKeys, tk.0, tk.1)
    requires Conclude(n, m, n.specs[tk.0], tk, attempt, run).Ok?
    ensures var m' := Conclude(n, m, n.specs[tk.0], tk, attempt, run).value;
            !m'.stopped ==> Known(n, m'.st, m'.st.readySet + rest)
  {
    hide Known, WfNet, Complete, PushReady, Shutdown;
    if Retryable(run.outcome) && attempt + 1 <= n.specs[tk.0].maxRetries {
      RequeueKnown(n, m.st, tk, attempt, run, fly, rest);
    } else {
      CompleteKnown(n, m.st, tk, run, fly, rest);
    }
  }

  // --------------------------------------------------------------- the serial path

  lemma SameWants(n: Cpn, s: State, z: State, q: set<Pair>, r: set<Pair>)
    requires Known(n, s, q) && q == r
    requires z.placeTokens == s.placeTokens && z.cache == s.cache && z.completedKeys == s.completedKeys
    ensures Known(n, z, r)
  {
    hide WakeInv, Reasoned;
  }

  lemma MidQueued(n: Cpn, m: Machine)
    requires WfNet(n) && Mid(n, m, {}, {}) && m.batch != []
    ensures ItemPair(m.batch[0]) in m.st.readySet
  {
    QueuePop(m.batch, m.st.ready, m.st.readySet);
  }

  lemma ItemKnown(n: Cpn, runner: Runner, m: Machine, lost: set<Pair>)
    requires WfNet(n) && Mid(n, m, {}, {}) && m.batch != [] && Known(n, m.st, m.st.readySet + lost)
    ensures var r := ProcessItem(n, runner, m.(batch := m.batch[1..]), m.batch[0]);
            r.Ok? && !r.value.stopped ==> Known(n, r.value.st, r.value.st.readySet + lost)
  {
    hide Mid, Known, WfNet, EnsureTrigger, RunAttempt, Conclude, Safe;
    var tk := ItemPair(m.batch[0]);
    MidContext(n, m, {}, {});
    UnqueueMid(n, m);
    MidQueued(n, m);
    var m0 := m.(batch := m.batch[1..], st := m.st.(readySet := m.st.readySet - {tk}));
    var fly := {tk} + lost;
    SameWants(n, m.st, m0.st, m.st.readySet + lost, m0.st.readySet + fly);
    StartSafe(n, m0, {tk}, {}, tk);
    MidSafe(n, m0, {tk}, {});
    TakeKnown(n, m0.st, {tk}, tk, m0.st.readySet + fly);
    var (s1, trigger) := EnsureTrigger(n, m0.st, tk.0, tk.1).value;
    var m1 := Started(m0, s1, tk.0);
    var attempt := GetOr(m0.st.attempts, tk, 0);
    if ProcessItem(n, runner, m.(batch := m.batch[1..]), m.batch[0]).Ok? {
      SameWants(n, s1, m1.st, m0.st.readySet + fly, m1.st.readySet + fly);
      var (m2, run) := RunAttempt(m1, n.specs[tk.0], attempt, trigger, runner, |s1.order|).value;
      assert Less(fly, lost, tk);
      ConcludeKnown(n, m2, tk, attempt, run, fly, lost);
    }
  }

  // ------------------------------------------------------------- the parallel path

  /** The pairs a drain takes off the queue without running them. */
  ghost function DroppedBy(ready: seq<ReadyItem>, max: nat): set<Pair> {
    ItemPairs(ready) - ItemPairs(ParallelBatch(ready, max))
  }

  lemma DrainKnown(n: Cpn, m: Machine, max: nat, lost: set<Pair>)
    requires WfNet(n) && Mid(n, m, {}, {}) && m.batch == [] && Known(n, m.st, m.st.readySet + lost)
    ensures var drained := set i | i in m.st.ready :: (i.transition, i.key);
            var s0 := m.st.(ready := [], readySet := m.st.readySet - drained);
            && s0.readySet == {}
            && Known(n, s0, s0.readySet + (ItemPairs(ParallelBatch(m.st.ready, max))
                                           + (lost + DroppedBy(m.st.ready, max))))
  {
    hide Known, Safe, Total, Bound, Mints, ParallelBatch;
    var ready := m.st.ready;
    var fly := ItemPairs(ParallelBatch(ready, max));
    ParallelBatchFacts(ready, max);
    DrainAll(ready, m.st.readySet);
    assert ItemPairs(ready) == m.st.readySet;
    assert fly <= ItemPairs(ready) by {
      forall tk | tk in fly ensures tk in ItemPairs(ready) {
        var i :| i in ParallelBatch(ready, max) && ItemPair(i) == tk;
        assert i in ready;
      }
    }
    var s0 := m.st.(ready := [], readySet := m.st.readySet - m.st.readySet);
    SameWants(n, m.st, s0, m.st.readySet + lost, s0.readySet + (fly + (lost + DroppedBy(ready, max))));
  }

  lemma BuildKnown(n: Cpn, runner: Runner, m: Machine, fly: set<Pair>, paid: set<Pair>, item: ReadyItem, q: set<Pair>)
    requires WfNet(n) && Mid(n, m, fly, paid) && ItemPair(item) in fly && ItemPair(item) !in paid
    requires fly <= q && Known(n, m.st, q)
    ensures var r := BuildJob(n, runner, m, item);
            r.Ok? ==> Known(n, r.value.0.st, q) && r.value.0.st.readySet == m.st.readySet
  {
    hide Mid, WfNet, EnsureTrigger, RunAttempt, Skips, Safe, Known;
    var tk := ItemPair(item);
    MidContext(n, m, fly, paid);
    MidSafe(n, m, fly, paid);
    TakeKnown(n, m.st, fly, tk, q);
    StartSafe(n, m, fly, paid, tk);
    var s1 := EnsureTrigger(n, m.st, tk.0, tk.1).value.0;
    SameWants(n, s1, s1.(order := s1.order + [tk.0]), q, q);
  }

  lemma {:induction false} BuildAllKnown(
    n: Cpn, runner: Runner, m: Machine, fly: set<Pair>, paid: set<Pair>, items: seq<ReadyItem>, q: set<Pair>)
    requires WfNet(n) && Mid(n, m, fly, paid) && DistinctKeys(items)
    requires ItemPairs(items) <= fly && ItemPairs(items) !! paid && fly <= q && Known(n, m.st, q)
    ensures var r := BuildJobs(n, runner, m, items);
            r.Ok? ==> Known(n, r.value.0.st, q) && r.value.0.st.readySet == m.st.readySet
    decreases |items|
  {
    hide Mid, WfNet, BuildJob, JobOk, Known;
    MidContext(n, m, fly, paid);
    if items != [] {
      HeadApart(items, fly, paid);
      BuildKnown(n, runner, m, fly, paid, items[0], q);
      BuiltOne(n, runner, m, fly, paid, items[0]);
      hide DistinctKeys, ItemPairs;
      if BuildJob(n, runner, m, items[0]).Ok? {
        var (m1, first) := BuildJob(n, runner, m, items[0]).value;
        assert Mid(n, m1, fly, paid + {ItemPair(items[0])});
        hide Built;
        BuildAllKnown(n, runner, m1, fly, paid + {ItemPair(items[0])}, items[1..], q);
      }
    }
  }

  lemma FlightFacts(n: Cpn, m: Machine, fly: set<Pair>, paid: set<Pair>, tk: Pair)
    requires WfNet(n) && Mid(n, m, fly, paid) && tk in fly
    ensures tk.0 in n.specs && tk !in m.st.readySet && !IsDone(m.st.completedKeys, tk.0, tk.1)
  {
  }

  lemma {:induction false} MergeKnown(n: Cpn, m: Machine, jobs: seq<Job>, runs: seq<RunResult>, lost: set<Pair>)
    requires WfNet(n) && Mid(n, m, JobPairs(jobs), JobPairs(jobs)) && Mergeable(n, m.st, jobs, runs)
    requires Known(n, m.st, m.st.readySet + (JobPairs(jobs) + lost))
    ensures var r := MergeJobs(n, m, jobs, runs);
            r.Ok? && !r.value.stopped ==> Known(n, r.value.st, r.value.st.readySet + lost)
    decreases |jobs|
  {
    hide Mid, Over, WfNet, Conclude, OthersKept, Mergeable, Known;
    MidContext(n, m, JobPairs(jobs), JobPairs(jobs));
    MergeableShape(n, m.st, jobs, runs);
    if jobs == [] {
      assert JobPairs(jobs) == {} && {} + lost == lost;
    } else {
      var j := jobs[0];
      var fly, rest := JobPairs(jobs) + lost, JobPairs(jobs[1..]) + lost;
      MergeableTailKeys(n, m.st, jobs, runs);
      ConcludeSafe(n, m, JobPairs(jobs), JobPairs(jobs), j.tk, j.attempt, runs[0]);
      FlightFacts(n, m, JobPairs(jobs), JobPairs(jobs), j.tk);
      var m1 := Conclude(n, m, j.spec, j.tk, j.attempt, runs[0]).value;
      MergeableTail(n, m.st, m1.st, jobs, runs);
      assert Less(fly, rest, j.tk);
      ConcludeKnown(n, m, j.tk, j.attempt, runs[0], fly, rest);
      if !m1.stopped {
        MergeKnown(n, m1, jobs[1..], runs[1..], lost);
      }
    }
  }

  /** A round forgets what its drain drops, and nothing else. */
  lemma RoundKnown(n: Cpn, cfg: Config, runner: Runner, m: Machine, lost: set<Pair>)
    requires WfNet(n) && Mid(n, m, {}, {}) && m.batch == [] && Known(n, m.st, m.st.readySet + lost)
    ensures var r := ParallelRound(n, cfg, runner, m);
            r.Ok? && !r.value.stopped ==>
              Known(n, r.value.st, r.value.st.readySet + (lost + DroppedBy(m.st.ready, cfg.maxConcurrency)))
  {
    hide Mid, Over, WfNet, BuildJobs, RunJobs, MergeJobs, ParallelBatch, JobOk, Holds, Known, DroppedBy;
    hide Mergeable, Built;
    MidContext(n, m, {}, {});
    if ParallelRound(n, cfg, runner, m).Ok? {
      var batch := ParallelBatch(m.st.ready, cfg.maxConcurrency);
      var lost' := lost + DroppedBy(m.st.ready, cfg.maxConcurrency);
      DrainKnown(n, m, cfg.maxConcurrency, lost);
      DrainMid(n, m, cfg.maxConcurrency);
      ParallelBatchFacts(m.st.ready, cfg.maxConcurrency);
      var m0 := Emptied(m);
      var fly := ItemPairs(batch);
      BuildAllKnown(n, runner, m0, fly, {}, batch, m0.st.readySet + (fly + lost'));
      var m2, jobs, runs := RoundJobs(n, cfg, runner, m);
      assert m2.st == BuildJobs(n, runner, m0, batch).value.0.st;
      MergeKnown(n, m2, jobs, runs, lost');
    }
  }

  // -------------------------------------------------------------------- whole runs

  /** Everything the drains of the first `i` turns dropped. */
  ghost function Dropped(n: Cpn, cfg: Config, runner: Runner, ctx: Store, i: nat): set<Pair>
    requires Wf(ctx)
  {
    if i == 0 then {}
    else
      Dropped(n, cfg, runner, ctx, i - 1)
      + match Run(n, cfg, runner, ctx, i - 1)
        case Ok(m) => (if Drains(cfg, m) then DroppedBy(m.st.ready, cfg.maxConcurrency) else {})
        case Err(_) => {}
  }

  /** The next turn is a parallel round. */
  predicate Drains(cfg: Config, m: Machine) { !Halted(m) && m.batch == [] && cfg.maxConcurrency > 1 }

  lemma TurnKnown(n: Cpn, cfg: Config, runner: Runner, m: Machine, lost: set<Pair>)
    requires WfNet(n) && Mid(n, m, {}, {}) && !Halted(m) && Known(n, m.st, m.st.readySet + lost)
    ensures var r := Turn(n, cfg, runner, m);
            r.Ok? && !r.value.stopped ==>
              Known(n, r.value.st, r.value.st.readySet
                                   + (lost + if Drains(cfg, m) then DroppedBy(m.st.ready, cfg.maxConcurrency) else {}))
  {
    hide Mid, WfNet, ProcessItem, ParallelRound, NextBatch, Known, DroppedBy;
    MidContext(n, m, {}, {});
    assert lost + {} == lost;
    if m.batch != [] {
      ItemKnown(n, runner, m, lost);
    } else if cfg.maxConcurrency <= 1 {
      var s := m.st.(ready := NextBatch(cfg, m.st.ready).1);
      SameWants(n, m.st, s, m.st.readySet + lost, s.readySet + lost);
    } else {
      RoundKnown(n, cfg, runner, m, lost);
    }
  }

  lemma StartKnown(n: Cpn, ctx: Store)
    requires WfNet(n) && Wf(ctx)
    ensures Start(n, ctx).Ok? && var s := Start(n, ctx).value.st; Known(n, s, s.readySet + {})
  {
    StartInv(n, ctx);
    StartShape(n, ctx);
    RootsReasoned(n, Initial(n), n.ids);
  }

  lemma {:induction false} RootsReasoned(n: Cpn, s: State, ids: seq<Id>)
    requires EnqueueRoots(n, s, ids).Ok?
    requires Reasoned(n, s.placeTokens, s.cache, s.completedKeys, s.readySet)
    ensures var r := EnqueueRoots(n, s, ids).value; Reasoned(n, r.placeTokens, r.cache, r.completedKeys, r.readySet)
    decreases |ids|
  {
    hide JoinReady, Queues;
    if ids != [] {
      if In(n, ids[0]) != [] {
        RootsReasoned(n, s, ids[1..]);
      } else {
        RootsReasoned(n, PushReady(n, s, ids[0], RootKey(n, ids[0]), false).value, ids[1..]);
      }
    }
  }

  lemma {:induction false} RunKnown(n: Cpn, cfg: Config, runner: Runner, ctx: Store, i: nat)
    requires WfNet(n) && Wf(ctx) && Run(n, cfg, runner, ctx, i).Ok?
    ensures var m := Run(n, cfg, runner, ctx, i).value;
            !m.stopped ==> Known(n, m.st, m.st.readySet + Dropped(n, cfg, runner, ctx, i))
  {
    hide Mid, Over, Known, WfNet, Turn, DroppedBy, Start;
    if i == 0 {
      StartKnown(n, ctx);
    } else {
      RunKnown(n, cfg, runner, ctx, i - 1);
      RunSafe(n, cfg, runner, ctx, i - 1);
      var m := Run(n, cfg, runner, ctx, i - 1).value;
      var lost := Dropped(n, cfg, runner, ctx, i - 1);
      if !Halted(m) {
        TurnKnown(n, cfg, runner, m, lost);
      } else {
        assert lost + {} == lost;
      }
    }
  }

  /**
   * At every turn of every run, serial or parallel, the pairs that should run are exactly the
   * incomplete ones that are queued or that some drain dropped.
   */
  lemma NeverLost(n: Cpn, cfg: Config, runner: Runner, ctx: Store, i: nat)
    requires WfNet(n) && Wf(ctx) && Run(n, cfg, runner, ctx, i).Ok? && !Run(n, cfg, runner, ctx, i).value.stopped
    ensures var s := StateAt(n, cfg, runner, ctx, i);
            forall tk: Pair ::
              Wants(n, s, tk) <==> && !IsDone(s.completedKeys, tk.0, tk.1)
                                   && (tk in s.readySet || tk in Dropped(n, cfg, runner, ctx, i))
  {
    hide Safe, Known, WfNet, Run, Dropped;
    RunKnown(n, cfg, runner, ctx, i);
    ReachedSafe(n, cfg, runner, ctx, i);
    var s := StateAt(n, cfg, runner, ctx, i);
    KnownWants(n, s, {}, s.readySet + Dropped(n, cfg, runner, ctx, i));
  }

  /**
   * A run that ends without a Terminal has nothing left to do, no held inputs and nothing idle,
   * if and only if every pair its drains dropped has completed after all.
   */
  lemma Quiescent(n: Cpn, cfg: Config, runner: Runner, ctx: Store, i: nat)
    requires WfNet(n) && Wf(ctx) && Run(n, cfg, runner, ctx, i).Ok?
    requires Halted(Run(n, cfg, runner, ctx, i).value) && !Run(n, cfg, runner, ctx, i).value.stopped
    ensures var s := StateAt(n, cfg, runner, ctx, i);
            && ((s.cache == map[] && forall tk :: !Idle(n, s.placeTokens, s.completedKeys, tk))
                <==> forall tk :: tk in Dropped(n, cfg, runner, ctx, i) ==> IsDone(s.completedKeys, tk.0, tk.1))
            && (forall tk :: Wants(n, s, tk) <==>
                  tk in Dropped(n, cfg, runner, ctx, i) && !IsDone(s.completedKeys, tk.0, tk.1))
  {
    hide Idle, WfNet, Run, Dropped, Safe;
    NeverLost(n, cfg, runner, ctx, i);
    RunSafe(n, cfg, runner, ctx, i);
    ReachedSafe(n, cfg, runner, ctx, i);
    var m := Run(n, cfg, runner, ctx, i).value;
    HaltedQueue(n, m);
    CachedOpen(n, m.st);
    assert forall tk :: tk in m.st.cache ==> Wants(n, m.st, tk);
    IdleOpen(n, m.st);
    assert forall tk :: Idle(n, m.st.placeTokens, m.st.completedKeys, tk) ==> Wants(n, m.st, tk);
  }

  lemma HaltedQueue(n: Cpn, m: Machine)
    requires WfNet(n) && Inv(n, m) && Halted(m)
    ensures m.st.readySet == {}
  {
    hide Safe;
  }

  lemma CachedOpen(n: Cpn, s: State)
    requires Safe(n, s, {})
    ensures forall tk :: tk in s.cache ==> !IsDone(s.completedKeys, tk.0, tk.1)
  {
  }

  lemma IdleOpen(n: Cpn, s: State)
    ensures forall tk :: Idle(n, s.placeTokens, s.completedKeys, tk) ==> !IsDone(s.completedKeys, tk.0, tk.1)
  {
  }

  // -------------------------------------------------- when a drain drops something

  lemma PairsSplit(front: seq<ReadyItem>, last: ReadyItem)
    ensures ItemPairs(front + [last]) == ItemPairs(front) + {ItemPair(last)}
    ensures Distinct(PairsOf(front + [last])) ==> Distinct(PairsOf(front))
  {
    var items := front + [last];
    assert forall i :: 0 <= i < |front| ==> PairsOf(front)[i] == PairsOf(items)[i];
  }

  lemma {:induction false} PairsCount(items: seq<ReadyItem>)
    ensures |ItemPairs(items)| <= |items|
    ensures Distinct(PairsOf(items)) ==> |ItemPairs(items)| == |items|
  {
    if items != [] {
      var front, last := items[..|items| - 1], items[|items| - 1];
      assert items == front + [last];
      PairsSplit(front, last);
      PairsCount(front);
      hide ItemPairs, Distinct, PairsOf;
      if Distinct(PairsOf(items)) {
        LastNew(items);
      }
    }
  }

  lemma LastNew(items: seq<ReadyItem>)
    requires items != [] && Distinct(PairsOf(items))
    ensures ItemPair(items[|items| - 1]) !in ItemPairs(items[..|items| - 1])
  {
    var front := items[..|items| - 1];
    forall i | i in front ensures ItemPair(i) != ItemPair(items[|items| - 1]) {
      var x :| 0 <= x < |front| && front[x] == i;
      assert PairsOf(items)[x] != PairsOf(items)[|items| - 1];
    }
  }

  /** A drain drops nothing if and only if the queued keys differ and all items fit in one batch. */
  lemma DropsNothing(ready: seq<ReadyItem>, max: nat)
    requires Distinct(PairsOf(ready))
    ensures DroppedBy(ready, max) == {} <==> DistinctKeys(ready) && |ready| <= max
  {
    hide ParallelBatch;
    var batch := ParallelBatch(ready, max);
    ParallelDrainKeepsAll(ready, max);
    if DistinctKeys(ready) && |ready| <= max {
      SameMembers(batch, ready);
    } else {
      PairsCount(ready);
      PairsCount(batch);
      BatchShorter(ready, max);
      hide ItemPairs, DistinctKeys;
      if DroppedBy(ready, max) == {} {
        forall tk | tk in ItemPairs(ready) ensures tk in ItemPairs(batch) {
          assert tk in ItemPairs(batch) || tk in DroppedBy(ready, max);
        }
        SubsetSize(ItemPairs(ready), ItemPairs(batch));
      }
    }
  }

  lemma {:induction false} SubsetSize(a: set<Pair>, b: set<Pair>)
    requires a <= b
    ensures |a| <= |b|
  {
    if a != {} {
      var x :| x in a;
      SubsetSize(a - {x}, b - {x});
    }
  }

  lemma BatchShorter(ready: seq<ReadyItem>, max: nat)
    requires !(DistinctKeys(ready) && |ready| <= max)
    ensures |ParallelBatch(ready, max)| < |ready|
  {
    FirstPerKeyLength(ready);
    FirstPerKeyShorter(ready);
    hide CmpReady, FirstPerKey, DistinctKeys;
  }

  /** The next turn, if it is a parallel round, has room for every queued pair. */
  ghost predicate Room(cfg: Config, m: Machine) {
    Drains(cfg, m) ==> DistinctKeys(m.st.ready) && |m.st.ready| <= cfg.maxConcurrency
  }

  lemma UnbatchedDistinct(ready: seq<ReadyItem>, readySet: set<Pair>)
    requires QueueInv([], ready, readySet)
    ensures Distinct(PairsOf(ready))
  {
    assert [] + ready == ready;
  }

  lemma MidQueue(n: Cpn, m: Machine)
    requires WfNet(n) && Mid(n, m, {}, {})
    ensures QueueInv(m.batch, m.st.ready, m.st.readySet)
  {
    hide WfNet, Safe, Settled, QueueInv, Bound, Budget;
  }

  lemma QueueDistinct(n: Cpn, m: Machine)
    requires WfNet(n) && Inv(n, m) && m.batch == []
    ensures Distinct(PairsOf(m.st.ready))
  {
    hide WfNet, Mid, Over, QueueInv, Distinct, PairsOf;
    if m.stopped {
      OverBatch(n, m);
      UnbatchedDistinct([], {}) by { NothingQueued(); }
    } else {
      MidQueue(n, m);
      UnbatchedDistinct(m.st.ready, m.st.readySet);
    }
  }

  lemma NothingQueued()
    ensures QueueInv([], [], {})
  {
  }

  /** A run has dropped nothing if and only if every round so far had room for its whole queue. */
  lemma {:induction false} DroppedNothing(n: Cpn, cfg: Config, runner: Runner, ctx: Store, i: nat)
    requires WfNet(n) && Wf(ctx) && Run(n, cfg, runner, ctx, i).Ok?
    ensures Dropped(n, cfg, runner, ctx, i) == {} <==>
            forall j :: 0 <= j < i ==> Run(n, cfg, runner, ctx, j).Ok? && Room(cfg, Run(n, cfg, runner, ctx, j).value)
  {
    hide WfNet, Inv, Turn, DroppedBy, Start, DistinctKeys;
    if i > 0 {
      DroppedNothing(n, cfg, runner, ctx, i - 1);
      RunSafe(n, cfg, runner, ctx, i - 1);
      var m := Run(n, cfg, runner, ctx, i - 1).value;
      if Drains(cfg, m) {
        QueueDistinct(n, m);
        DropsNothing(m.st.ready, cfg.maxConcurrency);
      }
      assert Room(cfg, m) <==> (if Drains(cfg, m) then DroppedBy(m.st.ready, cfg.maxConcurrency) else {}) == {};
    }
  }

  /** With room in every round, and so always on the serial path, nothing is ever lost. */
  lemma NothingLostWithRoom(n: Cpn, cfg: Config, runner: Runner, ctx: Store, i: nat)
    requires WfNet(n) && Wf(ctx) && Run(n, cfg, runner, ctx, i).Ok?
    requires forall j :: 0 <= j < i && Run(n, cfg, runner, ctx, j).Ok? ==> Room(cfg, Run(n, cfg, runner, ctx, j).value)
    ensures NothingLost(n, Run(n, cfg, runner, ctx, i).value, {})
    ensures var m := Run(n, cfg, runner, ctx, i).value;
            Halted(m) && !m.stopped ==>
              m.st.cache == map[] && forall tk :: !Idle(n, m.st.placeTokens, m.st.completedKeys, tk)
  {
    hide WfNet, Run, Idle, Room;
    forall j | 0 <= j < i ensures Run(n, cfg, runner, ctx, j).Ok? { RunEarlier(n, cfg, runner, ctx, i, j); }
    DroppedNothing(n, cfg, runner, ctx, i);
    RunKnown(n, cfg, runner, ctx, i);
    var m := Run(n, cfg, runner, ctx, i).value;
    if Halted(m) && !m.stopped {
      Quiescent(n, cfg, runner, ctx, i);
    }
  }

  lemma {:induction false} RunEarlier(n: Cpn, cfg: Config, runner: Runner, ctx: Store, i: nat, j: nat)
    requires Wf(ctx) && j <= i && Run(n, cfg, runner, ctx, i).Ok?
    ensures Run(n, cfg, runner, ctx, j).Ok?
  {
    hide Turn, Start;
    if j < i {
      RunEarlier(n, cfg, runner, ctx, i - 1, j);
    }
  }

  /**
   * Right after a drain, a run that had lost nothing has all its enabled pairs in the batch if and
   * only if the round had room.
   */
  lemma DrainForgets(n: Cpn, cfg: Config, runner: Runner, ctx: Store, i: nat)
    requires WfNet(n) && Wf(ctx) && Run(n, cfg, runner, ctx, i).Ok? && Dropped(n, cfg, runner, ctx, i) == {}
    requires Drains(cfg, Run(n, cfg, runner, ctx, i).value)
    ensures var m := Run(n, cfg, runner, ctx, i).value;
            NothingLost(n, Emptied(m), ItemPairs(ParallelBatch(m.st.ready, cfg.maxConcurrency))) <==> Room(cfg, m)
  {
    hide WfNet, Run, Idle, Safe, ParallelBatch, DistinctKeys;
    var m := Run(n, cfg, runner, ctx, i).value;
    RunKnown(n, cfg, runner, ctx, i);
    RunSafe(n, cfg, runner, ctx, i);
    QueueDistinct(n, m);
    DropsNothing(m.st.ready, cfg.maxConcurrency);
    DrainKnown(n, m, cfg.maxConcurrency, {});
    QueuedOpen(n, m);
    DrainAll(m.st.ready, m.st.readySet);
    var fly := ItemPairs(ParallelBatch(m.st.ready, cfg.maxConcurrency));
    var lost := DroppedBy(m.st.ready, cfg.maxConcurrency);
    var m0 := Emptied(m);
    if lost != {} {
      var tk :| tk in lost;
      assert tk in m.st.readySet && !IsDone(m0.st.completedKeys, tk.0, tk.1);
      assert tk in m0.st.readySet + (fly + ({} + lost));
      assert tk !in m0.st.readySet + fly;
    } else {
      assert m0.st.readySet + (fly + ({} + lost)) == m0.st.readySet + fly;
    }
  }

  lemma QueuedOpen(n: Cpn, m: Machine)
    requires WfNet(n) && Mid(n, m, {}, {})
    ensures forall tk :: tk in m.st.readySet ==> !IsDone(m.st.completedKeys, tk.0, tk.1)
    ensures m.batch == [] ==> QueueInv([], m.st.ready, m.st.readySet)
  {
  }
}
