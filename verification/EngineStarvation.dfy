/**
 * What the parallel drain does to keys: every queued key is served if and only if the keys fit one
 * batch, and a key that is not served is frozen for the rest of the run.
 */
module EngineStarvation {
  import opened Prelude
  import opened Net
  import opened ContextModel
  import opened EngineModel
  import opened EngineSafety
  import opened EngineQueue
  import opened EngineScheduling
  import opened EngineRuns
  import opened EngineTheorems
  import opened EngineWakeups
  import opened EngineColumns

  // ---------------------------------------------------------------- which keys are served

  ghost function KeysOf(items: seq<ReadyItem>): set<Key> { set i | i in items :: i.key }

  lemma {:induction false} DistinctKeysCount(items: seq<ReadyItem>)
    ensures |KeysOf(items)| <= |items|
    ensures DistinctKeys(items) ==> |KeysOf(items)| == |items|
  {
    if items != [] {
      var front, last := items[..|items| - 1], items[|items| - 1];
      assert items == front + [last];
      DistinctKeysCount(front);
      assert KeysOf(items) == KeysOf(front) + {last.key};
      if DistinctKeys(items) {
        assert forall i :: i in front ==> i.key != last.key;
      }
    }
  }

  lemma {:induction false} FirstPerKeyKeys(items: seq<ReadyItem>)
    ensures KeysOf(FirstPerKey(items)) == KeysOf(items)
  {
    if items != [] {
      var front, last := items[..|items| - 1], items[|items| - 1];
      assert items == front + [last];
      FirstPerKeyKeys(front);
      assert KeysOf(items) == KeysOf(front) + {last.key};
      assert KeysOf(FirstPerKey(front) + [last]) == KeysOf(FirstPerKey(front)) + {last.key};
      if exists i :: i in FirstPerKey(front) && i.key == last.key {
        assert last.key in KeysOf(FirstPerKey(front));
      }
    }
  }

  lemma {:induction false} FewerKeys(a: set<Key>, b: set<Key>)
    requires a <= b
    ensures |a| <= |b|
  {
    if a != {} {
      var x :| x in a;
      FewerKeys(a - {x}, b - {x});
    }
  }

  /** Every queued key has an item in the batch if and only if there are no more keys than places. */
  lemma KeysServed(ready: seq<ReadyItem>, max: nat)
    ensures KeysOf(ParallelBatch(ready, max)) == KeysOf(ready) <==> |KeysOf(ready)| <= max
  {
    var first := FirstPerKey(ready);
    var sorted := Sort(first, CmpReady);
    FirstPerKeyFacts(ready);
    FirstPerKeyKeys(ready);
    DistinctKeysCount(first);
    SameMembers(sorted, first);
    assert KeysOf(sorted) == KeysOf(first);
    DistinctKeysCount(ParallelBatch(ready, max));
    hide Sort, FirstPerKey, CmpReady;
  }

  // ------------------------------------------------------------------ other keys pass by

  lemma TakeElsewhere(n: Cpn, s: State, t: Id, key: Key, k: Key)
    requires EnsureTrigger(n, s, t, key).Ok? && key != k
    ensures var s1 := EnsureTrigger(n, s, t, key).value.0; SameColumn(s, s1.(order := s1.order + [t]), k)
  {
    hide IsTransitionReady, ConsumeArcs, Tokens, IsDone;
    if (t, key) !in s.cache {
      ConsumeElsewhere(s.placeTokens, In(n, t), key, k);
    }
  }

  lemma {:induction false} ConsumeElsewhere(b: Buckets, arcs: seq<Arc>, key: Key, k: Key)
    requires ConsumeArcs(b, arcs, key).Ok? && key != k
    ensures var b' := ConsumeArcs(b, arcs, key).value.0;
            b'.Keys == b.Keys && forall p :: Tokens(b', p, k) == Tokens(b, p, k)
    decreases |arcs|
  {
    if arcs != [] {
      var p := arcs[0].place;
      ConsumeElsewhere(b[p := b[p] - {key}], arcs[1..], key, k);
    }
  }

  lemma BuildElsewhere(n: Cpn, runner: Runner, m: Machine, item: ReadyItem, k: Key)
    requires Wf(m.ctx) && item.key != k
    ensures var r := BuildJob(n, runner, m, item); r.Ok? ==> SameColumn(m.st, r.value.0.st, k)
  {
    hide EnsureTrigger, RunAttempt, Skips, SameColumn;
    ColumnRefl(m.st, k);
    if BuildJob(n, runner, m, item).Ok? && !IsDone(m.st.completedKeys, item.transition, item.key) {
      TakeElsewhere(n, m.st, item.transition, item.key, k);
    }
  }

  lemma {:induction false} BuildAllElsewhere(n: Cpn, runner: Runner, m: Machine, items: seq<ReadyItem>, k: Key)
    requires Wf(m.ctx) && forall i :: i in items ==> i.key != k
    ensures var r := BuildJobs(n, runner, m, items); r.Ok? ==> SameColumn(m.st, r.value.0.st, k)
    decreases |items|
  {
    hide BuildJob, SameColumn;
    ColumnRefl(m.st, k);
    if items != [] {
      BuildElsewhere(n, runner, m, items[0], k);
      if BuildJob(n, runner, m, items[0]).Ok? {
        var m1 := BuildJob(n, runner, m, items[0]).value.0;
        BuildAllElsewhere(n, runner, m1, items[1..], k);
        if BuildJobs(n, runner, m1, items[1..]).Ok? {
          ColumnTrans(m.st, m1.st, BuildJobs(n, runner, m1, items[1..]).value.0.st, k);
        }
      }
    }
  }

  lemma ConcludePassesBy(n: Cpn, m: Machine, spec: ExecSpec, tk: Pair, attempt: nat, run: RunResult, k: Key)
    requires Wf(m.ctx) && Conclude(n, m, spec, tk, attempt, run).Ok? && tk.1 != k
    ensures var m' := Conclude(n, m, spec, tk, attempt, run).value; !m'.stopped ==> SameColumn(m.st, m'.st, k)
  {
    hide SameColumn, Complete, PushReady, Shutdown;
    if Retryable(run.outcome) && attempt + 1 <= spec.maxRetries {
      RequeueElsewhere(n, m.st, tk, attempt, run, k);
    } else {
      CompleteElsewhere(n, m.st, tk, run, k);
    }
  }

  lemma StaysStopped(n: Cpn, m: Machine, jobs: seq<Job>, runs: seq<RunResult>)
    requires Wf(m.ctx) && |jobs| == |runs| && MergeJobs(n, m, jobs, runs).Ok?
    ensures m.stopped ==> MergeJobs(n, m, jobs, runs).value.stopped
  {
    hide Conclude;
  }

  lemma {:induction false} MergeElsewhere(n: Cpn, m: Machine, jobs: seq<Job>, runs: seq<RunResult>, k: Key)
    requires Wf(m.ctx) && |jobs| == |runs| && forall j :: j in jobs ==> j.tk.1 != k
    ensures var r := MergeJobs(n, m, jobs, runs); r.Ok? && !r.value.stopped ==> SameColumn(m.st, r.value.st, k)
    decreases |jobs|
  {
    hide Conclude, SameColumn;
    ColumnRefl(m.st, k);
    if jobs != [] && !m.stopped && Conclude(n, m, jobs[0].spec, jobs[0].tk, jobs[0].attempt, runs[0]).Ok? {
      var m1 := Conclude(n, m, jobs[0].spec, jobs[0].tk, jobs[0].attempt, runs[0]).value;
      ConcludePassesBy(n, m, jobs[0].spec, jobs[0].tk, jobs[0].attempt, runs[0], k);
      MergeElsewhere(n, m1, jobs[1..], runs[1..], k);
      var r := MergeJobs(n, m1, jobs[1..], runs[1..]);
      if r.Ok? && !r.value.stopped {
        StaysStopped(n, m1, jobs[1..], runs[1..]);
        ColumnTrans(m.st, m1.st, MergeJobs(n, m1, jobs[1..], runs[1..]).value.st, k);
      }
    }
  }

  /** A round whose batch does not serve the key leaves its column as the drain left it. */
  lemma RoundElsewhere(n: Cpn, cfg: Config, runner: Runner, m: Machine, k: Key)
    requires WfNet(n) && Mid(n, m, {}, {}) && m.batch == []
    requires k !in KeysOf(ParallelBatch(m.st.ready, cfg.maxConcurrency))
    ensures var r := ParallelRound(n, cfg, runner, m);
            r.Ok? && !r.value.stopped ==> SameColumn(Emptied(m).st, r.value.st, k) && r.value.batch == []
  {
    hide Mid, WfNet, BuildJobs, RunJobs, MergeJobs, ParallelBatch, Mergeable, SameColumn, Inv;
    MidContext(n, m, {}, {});
    var m2, jobs, runs := RoundJobs(n, cfg, runner, m);
    if ParallelRound(n, cfg, runner, m).Ok? {
      var batch := ParallelBatch(m.st.ready, cfg.maxConcurrency);
      BuildAllElsewhere(n, runner, Emptied(m), batch, k);
      MidContext(n, m2, JobPairs(jobs), JobPairs(jobs));
      forall j | j in jobs ensures j.tk.1 != k {
        assert j.tk in JobPairs(jobs);
      }
      MergeableShape(n, m2.st, jobs, runs);
      MergeElsewhere(n, m2, jobs, runs, k);
      MergeSafe(n, m2, jobs, runs);
      assert m2.st == BuildJobs(n, runner, Emptied(m), batch).value.0.st;
      if !MergeJobs(n, m2, jobs, runs).value.stopped {
        ColumnTrans(Emptied(m).st, m2.st, MergeJobs(n, m2, jobs, runs).value.st, k);
      }
    }
  }

  /** A key with nothing queued stays so, and the drain does not touch its column. */
  lemma UnqueuedKey(n: Cpn, m: Machine, max: nat, k: Key)
    requires WfNet(n) && Mid(n, m, {}, {}) && m.batch == [] && forall t :: (t, k) !in m.st.readySet
    ensures k !in KeysOf(ParallelBatch(m.st.ready, max)) && SameColumn(m.st, Emptied(m).st, k)
  {
    hide Safe, ParallelBatch;
    ParallelBatchFacts(m.st.ready, max);
    DrainAll(m.st.ready, m.st.readySet);
    forall i | i in ParallelBatch(m.st.ready, max) ensures i.key != k {
      assert ItemPair(i) in m.st.readySet;
    }
  }

  // ------------------------------------------------------------------------- whole runs

  lemma Frozen(s: State, z: State, k: Key)
    requires SameColumn(s, z, k) && forall t :: (t, k) !in s.readySet
    ensures forall t :: (t, k) !in z.readySet
  {
  }

  lemma EmptiedQueue(n: Cpn, m: Machine)
    requires WfNet(n) && Mid(n, m, {}, {}) && m.batch == []
    ensures Emptied(m).st.readySet == {}
  {
    hide Safe;
    DrainAll(m.st.ready, m.st.readySet);
  }

  /**
   * Starvation: a key that a drain does not serve is never queued again before a Terminal. All its
   * tokens, inputs, attempts and completions stay for the rest of the run as the drain found them.
   */
  lemma {:induction false} KeyStarves(n: Cpn, cfg: Config, runner: Runner, ctx: Store, i: nat, j: nat, k: Key)
    requires WfNet(n) && Wf(ctx) && i < j && Run(n, cfg, runner, ctx, j).Ok? && Run(n, cfg, runner, ctx, i).Ok?
    requires var m := Run(n, cfg, runner, ctx, i).value;
             Drains(cfg, m) && k !in KeysOf(ParallelBatch(m.st.ready, cfg.maxConcurrency))
    requires !Run(n, cfg, runner, ctx, j).value.stopped
    ensures var m, z := Run(n, cfg, runner, ctx, i).value, Run(n, cfg, runner, ctx, j).value;
            SameColumn(Emptied(m).st, z.st, k) && z.batch == [] && forall t :: (t, k) !in z.st.readySet
    decreases j
  {
    hide WfNet, Mid, Over, Start, ParallelRound, ProcessItem, NextBatch, SameColumn, ParallelBatch, KeysOf;
    RunSafe(n, cfg, runner, ctx, i);
    RunSafe(n, cfg, runner, ctx, j - 1);
    var m, z := Run(n, cfg, runner, ctx, i).value, Run(n, cfg, runner, ctx, j).value;
    var y := Run(n, cfg, runner, ctx, j - 1).value;
    EmptiedQueue(n, m);
    if j == i + 1 {
      RoundElsewhere(n, cfg, runner, m, k);
      Frozen(Emptied(m).st, z.st, k);
    } else if Halted(y) {
      KeyStarves(n, cfg, runner, ctx, i, j - 1, k);
    } else {
      KeyStarves(n, cfg, runner, ctx, i, j - 1, k);
      UnqueuedKey(n, y, cfg.maxConcurrency, k);
      RoundElsewhere(n, cfg, runner, y, k);
      ColumnTrans(Emptied(m).st, y.st, Emptied(y).st, k);
      ColumnTrans(Emptied(m).st, Emptied(y).st, z.st, k);
      Frozen(Emptied(m).st, z.st, k);
    }
  }

  /**
   * So as soon as more keys are queued than a round has places, some pair is lost for good: it is
   * incomplete, should run and is not queued at every later turn before a Terminal.
   */
  lemma TooManyKeysLoseWork(n: Cpn, cfg: Config, runner: Runner, ctx: Store, i: nat) returns (tk: Pair)
    requires WfNet(n) && Wf(ctx) && Run(n, cfg, runner, ctx, i).Ok? && Drains(cfg, Run(n, cfg, runner, ctx, i).value)
    requires |KeysOf(Run(n, cfg, runner, ctx, i).value.st.ready)| > cfg.maxConcurrency
    ensures forall j :: i < j && Run(n, cfg, runner, ctx, j).Ok? && !Run(n, cfg, runner, ctx, j).value.stopped ==>
              var s := StateAt(n, cfg, runner, ctx, j); Wants(n, s, tk) && tk !in s.readySet
  {
    hide WfNet, Mid, Run, SameColumn, ParallelBatch, Wants, Dropped, Over;
    var m := Run(n, cfg, runner, ctx, i).value;
    RunSafe(n, cfg, runner, ctx, i);
    KeysServed(m.st.ready, cfg.maxConcurrency);
    ParallelBatchFacts(m.st.ready, cfg.maxConcurrency);
    var k :| k in KeysOf(m.st.ready) && k !in KeysOf(ParallelBatch(m.st.ready, cfg.maxConcurrency));
    var item :| item in m.st.ready && item.key == k;
    tk := ItemPair(item);
    UnservedDropped(m.st.ready, cfg.maxConcurrency, item);
    forall j | i < j && Run(n, cfg, runner, ctx, j).Ok? && !Run(n, cfg, runner, ctx, j).value.stopped
      ensures var s := StateAt(n, cfg, runner, ctx, j); Wants(n, s, tk) && tk !in s.readySet
    {
      LostForGood(n, cfg, runner, ctx, i, j, item);
    }
  }

  lemma UnservedDropped(ready: seq<ReadyItem>, max: nat, item: ReadyItem)
    requires item in ready && item.key !in KeysOf(ParallelBatch(ready, max))
    ensures ItemPair(item) in DroppedBy(ready, max)
  {
    hide ParallelBatch;
  }

  lemma LostForGood(n: Cpn, cfg: Config, runner: Runner, ctx: Store, i: nat, j: nat, item: ReadyItem)
    requires WfNet(n) && Wf(ctx) && i < j && Run(n, cfg, runner, ctx, j).Ok? && Run(n, cfg, runner, ctx, i).Ok?
    requires !Run(n, cfg, runner, ctx, j).value.stopped && Drains(cfg, Run(n, cfg, runner, ctx, i).value)
    requires var m := Run(n, cfg, runner, ctx, i).value;
             item in m.st.ready && item.key !in KeysOf(ParallelBatch(m.st.ready, cfg.maxConcurrency))
    ensures var s := StateAt(n, cfg, runner, ctx, j); Wants(n, s, ItemPair(item)) && ItemPair(item) !in s.readySet
  {
    hide WfNet, Mid, Run, ParallelBatch, Wants, Over, KeysOf;
    var m, z := Run(n, cfg, runner, ctx, i).value, Run(n, cfg, runner, ctx, j).value;
    var tk := ItemPair(item);
    RunSafe(n, cfg, runner, ctx, i);
    KeyStarves(n, cfg, runner, ctx, i, j, item.key);
    UnservedDropped(m.st.ready, cfg.maxConcurrency, item);
    DroppedStays(n, cfg, runner, ctx, i, j, tk);
    NeverLost(n, cfg, runner, ctx, j);
    QueuedItem(n, m, item);
    assert !IsDone(m.st.completedKeys, item.transition, item.key);
    assert IsDone(Emptied(m).st.completedKeys, item.transition, item.key)
       <==> IsDone(z.st.completedKeys, item.transition, item.key);
  }

  lemma QueuedItem(n: Cpn, m: Machine, item: ReadyItem)
    requires WfNet(n) && Mid(n, m, {}, {}) && m.batch == [] && item in m.st.ready
    ensures !IsDone(m.st.completedKeys, item.transition, item.key)
  {
    DrainAll(m.st.ready, m.st.readySet);
    assert ItemPair(item) in m.st.readySet;
    QueuedOpen(n, m);
  }

  lemma {:induction false} DroppedStays(n: Cpn, cfg: Config, runner: Runner, ctx: Store, i: nat, j: nat, tk: Pair)
    requires Wf(ctx) && i < j && Run(n, cfg, runner, ctx, i).Ok? && Drains(cfg, Run(n, cfg, runner, ctx, i).value)
    requires tk in DroppedBy(Run(n, cfg, runner, ctx, i).value.st.ready, cfg.maxConcurrency)
    ensures tk in Dropped(n, cfg, runner, ctx, j)
    decreases j
  {
    hide Run, DroppedBy, Drains;
    if j > i + 1 {
      DroppedStays(n, cfg, runner, ctx, i, j - 1, tk);
    }
  }
}
