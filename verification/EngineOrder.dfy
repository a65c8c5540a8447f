/**
 * In which order a run starts its pairs: in Throughput mode as they were queued, in Deterministic
 * mode and on the parallel path by level, priority and name, as the specs have them.
 */
module EngineOrder {
  import opened Prelude
  import opened Net
  import opened ContextModel
  import opened Router
  import opened EngineModel
  import opened EngineSafety
  import opened EngineQueue
  import opened EngineScheduling
  import opened EngineRuns
  import opened EngineTheorems
  import opened EngineWakeups
  import opened EngineLedger

  // ------------------------------------------------- the queue only grows at its end

  /** The item carries its transition's level and priority, and a retry follows a failed attempt. */
  ghost predicate Titled(n: Cpn, attempts: map<Pair, nat>, i: ReadyItem) {
    && i.transition in n.specs
    && i.topoLevel == n.specs[i.transition].topoLevel && i.priority == n.specs[i.transition].transition.priority
    && (i.retry ==> GetOr(attempts, ItemPair(i), 0) > 0)
  }

  /** The new queue is the old one with titled items behind it. */
  ghost predicate Queues(n: Cpn, s: State, s': State) {
    && s.ready <= s'.ready
    && forall i :: i in s'.ready[|s.ready|..] ==> Titled(n, s'.attempts, i)
  }

  lemma QueuesTrans(n: Cpn, a: State, b: State, c: State)
    requires Queues(n, a, b) && Queues(n, b, c) && b.attempts == c.attempts
    ensures Queues(n, a, c)
  {
    hide Titled;
    assert c.ready[|a.ready|..] == b.ready[|a.ready|..] + c.ready[|b.ready|..];
  }

  lemma PushQueues(n: Cpn, s: State, t: Id, k: Key, retry: bool)
    requires PushReady(n, s, t, k, retry).Ok? && (retry ==> GetOr(s.attempts, (t, k), 0) > 0)
    ensures var s' := PushReady(n, s, t, k, retry).value; Queues(n, s, s') && s'.attempts == s.attempts
  {
  }

  lemma InsertQueues(n: Cpn, s: State, p: Id, token: Token)
    requires InsertToken(n, s, p, token).Ok?
    ensures var s' := InsertToken(n, s, p, token).value; Queues(n, s, s') && s'.attempts == s.attempts
  {
    hide IsTransitionReady, PushReady;
    if p in s.placeTokens && p in n.graph.consumer {
      var s1 := s.(placeTokens := AddToken(s.placeTokens, p, token));
      if PushReady(n, s1, n.graph.consumer[p], token.key, false).Ok? {
        PushQueues(n, s1, n.graph.consumer[p], token.key, false);
      }
    }
  }

  lemma {:induction false} EmitQueues(n: Cpn, s: State, f: Firing, arcs: seq<Arc>)
    requires EmitArcs(n, s, f, arcs).Ok?
    ensures var s' := EmitArcs(n, s, f, arcs).value; Queues(n, s, s') && s'.attempts == s.attempts
    decreases |arcs|
  {
    hide InsertToken, Titled;
    if arcs != [] {
      var s1 := s.(tokenSequence := s.tokenSequence + 1);
      var token := MakeToken(n, f, s1.tokenSequence);
      InsertQueues(n, s1, arcs[0].place, token);
      var s2 := InsertToken(n, s1, arcs[0].place, token).value;
      EmitQueues(n, s2, f, arcs[1..]);
      QueuesTrans(n, s, s2, EmitArcs(n, s2, f, arcs[1..]).value);
    }
  }

  /** No pair's count of failed attempts goes back. */
  ghost predicate Tries(s: State, s': State) {
    forall tk :: GetOr(s.attempts, tk, 0) <= GetOr(s'.attempts, tk, 0)
  }

  /** Concluding an attempt queues behind what waits, unless a Terminal empties the queue. */
  lemma ConcludeQueues(n: Cpn, m: Machine, spec: ExecSpec, tk: Pair, attempt: nat, run: RunResult)
    requires Wf(m.ctx) && attempt == GetOr(m.st.attempts, tk, 0) && !m.stopped
    requires Conclude(n, m, spec, tk, attempt, run).Ok?
    ensures var m' := Conclude(n, m, spec, tk, attempt, run).value;
            && Tries(m.st, m'.st) && m'.st.order == m.st.order
            && if m'.stopped then m'.batch == [] && m'.st.ready == []
               else m'.batch == m.batch && Queues(n, m.st, m'.st)
  {
    hide EmitArcs, PushReady, Titled;
    if Retryable(run.outcome) && attempt + 1 <= spec.maxRetries {
      var s := Requeued(m.st, tk, attempt, run);
      PushQueues(n, s, tk.0, tk.1, true);
      PushFrames(n, s, tk);
    } else {
      var f := FiringOf(m.st, tk.0, tk.1, run);
      EmitQueues(n, MarkCompleted(m.st, f), f, Out(n, tk.0));
      EmitFrames(n, MarkCompleted(m.st, f), f, Out(n, tk.0));
    }
  }

  /** A retried pair goes to the end of the queue, marked as a retry, and its failed attempts count one more. */
  lemma RetriedLast(n: Cpn, m: Machine, spec: ExecSpec, tk: Pair, attempt: nat, run: RunResult)
    requires Wf(m.ctx) && tk !in m.st.readySet && !IsDone(m.st.completedKeys, tk.0, tk.1)
    requires run.outcome == Failure || run.outcome == Timeout
    requires attempt < spec.maxRetries && Conclude(n, m, spec, tk, attempt, run).Ok?
    ensures var m' := Conclude(n, m, spec, tk, attempt, run).value;
            && |m'.st.ready| == |m.st.ready| + 1 && m.st.ready <= m'.st.ready
            && ItemPair(m'.st.ready[|m.st.ready|]) == tk && m'.st.ready[|m.st.ready|].retry
            && m'.st.readySet == m.st.readySet + {tk} && m'.st.attempts == m.st.attempts[tk := attempt + 1]
  {
  }

  lemma PushFrames(n: Cpn, s: State, tk: Pair)
    requires PushReady(n, s, tk.0, tk.1, true).Ok?
    ensures PushReady(n, s, tk.0, tk.1, true).value.order == s.order
  {}

  // --------------------------------------------------------------- the serial path

  function ItemNames(items: seq<ReadyItem>): (r: seq<Id>)
    ensures |r| == |items| && forall i :: 0 <= i < |r| ==> r[i] == items[i].transition
  {
    seq(|items|, i requires 0 <= i < |items| => items[i].transition)
  }

  /** What has been started, followed by what waits. */
  function StartedThenWaiting(m: Machine): seq<Id> { m.st.order + ItemNames(m.batch + m.st.ready) }

  /** All waiting items carry their specs' level and priority. */
  ghost predicate AllTitled(n: Cpn, m: Machine) {
    forall i :: i in m.batch + m.st.ready ==> Titled(n, m.st.attempts, i)
  }

  lemma TitledLater(n: Cpn, s: State, s': State, i: ReadyItem)
    requires Titled(n, s.attempts, i) && Tries(s, s')
    ensures Titled(n, s'.attempts, i)
  {
    assert GetOr(s.attempts, ItemPair(i), 0) <= GetOr(s'.attempts, ItemPair(i), 0);
  }

  /** A serial item moves from the front of the line to the order, and others join at the end. */
  lemma ItemInLine(n: Cpn, runner: Runner, m: Machine)
    requires WfNet(n) && Mid(n, m, {}, {}) && m.batch != [] && AllTitled(n, m)
    ensures var r := ProcessItem(n, runner, m.(batch := m.batch[1..]), m.batch[0]);
            r.Ok? ==> && AllTitled(n, r.value)
                      && r.value.st.order == m.st.order + [m.batch[0].transition]
                      && (!r.value.stopped ==> StartedThenWaiting(m) <= StartedThenWaiting(r.value))
  {
    hide Mid, WfNet, EnsureTrigger, RunAttempt, Conclude, Titled;
    var tk := ItemPair(m.batch[0]);
    UnqueueMid(n, m);
    var m0 := m.(batch := m.batch[1..], st := m.st.(readySet := m.st.readySet - {tk}));
    MidContext(n, m0, {tk}, {});
    MidContext(n, m, {}, {});
    StartSafe(n, m0, {tk}, {}, tk);
    var (s1, trigger) := EnsureTrigger(n, m0.st, tk.0, tk.1).value;
    var m1 := Started(m0, s1, tk.0);
    var spec, attempt := n.specs[tk.0], GetOr(m0.st.attempts, tk, 0);
    var r := ProcessItem(n, runner, m.(batch := m.batch[1..]), m.batch[0]);
    if r.Ok? {
      var (m2, run) := RunAttempt(m1, spec, attempt, trigger, runner, |s1.order|).value;
      ConcludeQueues(n, m2, spec, tk, attempt, run);
      hide RunAttempt;
      LineMoves(n, m, m2, r.value);
    }
  }

  lemma LineMoves(n: Cpn, m: Machine, m2: Machine, z: Machine)
    requires m.batch != [] && AllTitled(n, m)
    requires m2.st.order == m.st.order + [m.batch[0].transition] && m2.batch == m.batch[1..]
    requires m2.st.ready == m.st.ready && m2.st.attempts == m.st.attempts
    requires Tries(m2.st, z.st) && z.st.order == m2.st.order
    requires if z.stopped then z.batch == [] && z.st.ready == [] else z.batch == m2.batch && Queues(n, m2.st, z.st)
    ensures AllTitled(n, z) && (!z.stopped ==> StartedThenWaiting(m) <= StartedThenWaiting(z))
  {
    hide Titled, Tries;
    assert AllTitled(n, m2) by {
      assert m.batch + m.st.ready == [m.batch[0]] + (m2.batch + m2.st.ready);
    }
    JobInLine(n, m2, z);
    if !z.stopped {
      var more := z.st.ready[|m.st.ready|..];
      assert z.st.ready == m.st.ready + more;
      hide AllTitled, Queues;
      HeadLeaves(m.st.order, m.batch, m.st.ready, more);
    }
  }

  lemma HeadLeaves(order: seq<Id>, batch: seq<ReadyItem>, ready: seq<ReadyItem>, more: seq<ReadyItem>)
    requires batch != []
    ensures order + ItemNames(batch + ready)
         <= order + [batch[0].transition] + ItemNames(batch[1..] + (ready + more))
  {
    var rest := batch[1..] + ready;
    assert batch + ready == [batch[0]] + rest && batch[1..] + (ready + more) == rest + more;
    assert ItemNames([batch[0]] + rest) == [batch[0].transition] + ItemNames(rest);
    assert ItemNames(rest + more) == ItemNames(rest) + ItemNames(more);
  }

  // ------------------------------------------------------------- the parallel path

  lemma NamesHead(items: seq<ReadyItem>, order: seq<Id>)
    requires items != []
    ensures order + [items[0].transition] + ItemNames(items[1..]) == order + ItemNames(items)
  {
    assert ItemNames(items) == [items[0].transition] + ItemNames(items[1..]);
  }

  lemma {:induction false} BuildInOrder(n: Cpn, runner: Runner, m: Machine, fly: set<Pair>, paid: set<Pair>,
                                        items: seq<ReadyItem>)
    requires WfNet(n) && Mid(n, m, fly, paid) && DistinctKeys(items)
    requires ItemPairs(items) <= fly && ItemPairs(items) !! paid
    ensures var r := BuildJobs(n, runner, m, items);
            r.Ok? ==> && r.value.0.st.order == m.st.order + ItemNames(items)
                      && r.value.0.st.ready == m.st.ready && r.value.0.st.attempts == m.st.attempts
    decreases |items|
  {
    hide Mid, WfNet, BuildJob, JobOk;
    MidContext(n, m, fly, paid);
    if items == [] {
      assert m.st.order + ItemNames(items) == m.st.order;
    } else {
      HeadApart(items, fly, paid);
      BuiltOne(n, runner, m, fly, paid, items[0]);
      OneInOrder(n, runner, m, fly, paid, items[0]);
      NamesHead(items, m.st.order);
      hide DistinctKeys, ItemPairs, ItemNames;
      if BuildJob(n, runner, m, items[0]).Ok? {
        var m1 := BuildJob(n, runner, m, items[0]).value.0;
        assert Mid(n, m1, fly, paid + {ItemPair(items[0])});
        hide Built;
        BuildInOrder(n, runner, m1, fly, paid + {ItemPair(items[0])}, items[1..]);
      }
    }
  }

  lemma OneInOrder(n: Cpn, runner: Runner, m: Machine, fly: set<Pair>, paid: set<Pair>, item: ReadyItem)
    requires WfNet(n) && Mid(n, m, fly, paid) && ItemPair(item) in fly && ItemPair(item) !in paid
    ensures var r := BuildJob(n, runner, m, item);
            r.Ok? ==> && r.value.0.st.order == m.st.order + [item.transition]
                      && r.value.0.st.ready == m.st.ready && r.value.0.st.attempts == m.st.attempts
  {
    hide Mid, WfNet, EnsureTrigger, RunAttempt, Skips;
    MidContext(n, m, fly, paid);
    StartSafe(n, m, fly, paid, ItemPair(item));
  }

  lemma {:induction false} MergeInOrder(n: Cpn, m: Machine, jobs: seq<Job>, runs: seq<RunResult>)
    requires WfNet(n) && Mid(n, m, JobPairs(jobs), JobPairs(jobs)) && Mergeable(n, m.st, jobs, runs)
    requires AllTitled(n, m)
    ensures var r := MergeJobs(n, m, jobs, runs);
            r.Ok? ==> AllTitled(n, r.value) && r.value.st.order == m.st.order
    decreases |jobs|
  {
    hide Mid, Over, WfNet, Conclude, OthersKept, Mergeable, AllTitled;
    MidContext(n, m, JobPairs(jobs), JobPairs(jobs));
    MergeableShape(n, m.st, jobs, runs);
    if jobs != [] {
      var j := jobs[0];
      MergeableTailKeys(n, m.st, jobs, runs);
      ConcludeSafe(n, m, JobPairs(jobs), JobPairs(jobs), j.tk, j.attempt, runs[0]);
      ConcludeQueues(n, m, j.spec, j.tk, j.attempt, runs[0]);
      var m1 := Conclude(n, m, j.spec, j.tk, j.attempt, runs[0]).value;
      JobInLine(n, m, m1);
      if m1.stopped {
        assert MergeJobs(n, m1, jobs[1..], runs[1..]) == Ok(m1);
      } else {
        MergeableTail(n, m.st, m1.st, jobs, runs);
        MergeInOrder(n, m1, jobs[1..], runs[1..]);
      }
    }
  }

  lemma JobInLine(n: Cpn, m: Machine, z: Machine)
    requires AllTitled(n, m) && Tries(m.st, z.st)
    requires if z.stopped then z.batch == [] && z.st.ready == [] else z.batch == m.batch && Queues(n, m.st, z.st)
    ensures AllTitled(n, z)
  {
    hide Titled, Tries;
    if !z.stopped {
      var more := z.st.ready[|m.st.ready|..];
      assert z.batch + z.st.ready == (m.batch + m.st.ready) + more;
      forall i | i in z.batch + z.st.ready ensures Titled(n, z.st.attempts, i) {
        if i !in more {
          TitledLater(n, m.st, z.st, i);
        }
      }
    }
  }

  /** A round starts the pairs of its batch, in the batch's order. */
  lemma RoundInOrder(n: Cpn, cfg: Config, runner: Runner, m: Machine)
    requires WfNet(n) && Mid(n, m, {}, {}) && m.batch == []
    ensures var r := ParallelRound(n, cfg, runner, m);
            r.Ok? ==> && AllTitled(n, r.value)
                      && r.value.st.order == m.st.order + ItemNames(ParallelBatch(m.st.ready, cfg.maxConcurrency))
  {
    hide Mid, WfNet, BuildJobs, RunJobs, MergeJobs, ParallelBatch, Mergeable, ItemNames, DistinctKeys, ItemPairs;
    MidContext(n, m, {}, {});
    var m2, jobs, runs := RoundJobs(n, cfg, runner, m);
    if ParallelRound(n, cfg, runner, m).Ok? {
      var batch := ParallelBatch(m.st.ready, cfg.maxConcurrency);
      ParallelBatchFacts(m.st.ready, cfg.maxConcurrency);
      DrainMid(n, m, cfg.maxConcurrency);
      BuildInOrder(n, runner, Emptied(m), ItemPairs(batch), {}, batch);
      assert AllTitled(n, m2) by { assert m2.batch + m2.st.ready == []; }
      MergeInOrder(n, m2, jobs, runs);
    }
  }

  /** The first sequence is the second with some elements left out. */
  ghost predicate Within(xs: seq<Pair>, ys: seq<Pair>)
    decreases |ys|
  {
    xs == [] || (ys != [] && ((xs[0] == ys[0] && Within(xs[1..], ys[1..])) || Within(xs, ys[1..])))
  }

  function JobTks(jobs: seq<Job>): (r: seq<Pair>)
    ensures |r| == |jobs| && forall i :: 0 <= i < |r| ==> r[i] == jobs[i].tk
  {
    seq(|jobs|, i requires 0 <= i < |jobs| => jobs[i].tk)
  }

  function FiringTks(fired: seq<Firing>): (r: seq<Pair>)
    ensures |r| == |fired| && forall i :: 0 <= i < |r| ==> r[i] == PairOf(fired[i])
  {
    seq(|fired|, i requires 0 <= i < |fired| => PairOf(fired[i]))
  }

  lemma ConcludeFires(n: Cpn, m: Machine, spec: ExecSpec, tk: Pair, attempt: nat, run: RunResult)
      returns (one: seq<Firing>)
    requires Wf(m.ctx) && Conclude(n, m, spec, tk, attempt, run).Ok?
    ensures Conclude(n, m, spec, tk, attempt, run).value.st.fired == m.st.fired + one
    ensures one == [] || (|one| == 1 && PairOf(one[0]) == tk)
  {
    if Retryable(run.outcome) && attempt + 1 <= spec.maxRetries {
      RetryFields(n, m, spec, tk, attempt, run);
      one := [];
    } else {
      CompleteFields(n, m, spec, tk, attempt, run);
      one := [FiringOf(m.st, tk.0, tk.1, run)];
    }
    hide Conclude;
  }

  lemma WithinOne(one: seq<Firing>, more: seq<Firing>, jobs: seq<Job>)
    requires jobs != [] && Within(FiringTks(more), JobTks(jobs[1..]))
    requires one == [] || (|one| == 1 && PairOf(one[0]) == jobs[0].tk)
    ensures Within(FiringTks(one + more), JobTks(jobs))
  {
    assert JobTks(jobs)[1..] == JobTks(jobs[1..]);
    if one == [] {
      assert one + more == more;
    } else {
      assert FiringTks(one + more)[1..] == FiringTks(more);
    }
  }

  /** A merge completes pairs in the order of its jobs. */
  lemma {:induction false} MergeFires(n: Cpn, m: Machine, jobs: seq<Job>, runs: seq<RunResult>)
    requires Wf(m.ctx) && |jobs| == |runs|
    ensures var r := MergeJobs(n, m, jobs, runs);
            r.Ok? ==> exists more :: r.value.st.fired == m.st.fired + more && Within(FiringTks(more), JobTks(jobs))
    decreases |jobs|
  {
    hide Conclude, Within, JobTks;
    var r := MergeJobs(n, m, jobs, runs);
    if r.Ok? && (jobs == [] || m.stopped) {
      NoneWithin(JobTks(jobs));
      assert r.value.st.fired == m.st.fired + [] && FiringTks([]) == [];
    } else if r.Ok? {
      var j := jobs[0];
      var m1 := Conclude(n, m, j.spec, j.tk, j.attempt, runs[0]).value;
      var one := ConcludeFires(n, m, j.spec, j.tk, j.attempt, runs[0]);
      MergeFires(n, m1, jobs[1..], runs[1..]);
      hide MergeJobs, FiringTks;
      var more :| r.value.st.fired == m1.st.fired + more && Within(FiringTks(more), JobTks(jobs[1..]));
      WithinOne(one, more, jobs);
      assert r.value.st.fired == m.st.fired + (one + more);
    }
  }

  lemma NoneWithin(ys: seq<Pair>)
    ensures Within([], ys)
  {}

  // -------------------------------------------------------------------- whole runs

  lemma FillInLine(n: Cpn, cfg: Config, m: Machine, batch: seq<ReadyItem>, rest: seq<ReadyItem>)
    requires m.batch == [] && (batch, rest) == NextBatch(cfg, m.st.ready) && AllTitled(n, m)
    ensures AllTitled(n, m.(batch := batch, st := m.st.(ready := rest)))
    ensures cfg.mode.Throughput? ==>
              StartedThenWaiting(m.(batch := batch, st := m.st.(ready := rest))) == StartedThenWaiting(m)
  {
    hide Titled;
    NextBatchSplits(cfg, m.st.ready);
    SameMembers(batch + rest, m.st.ready);
    assert m.batch + m.st.ready == m.st.ready;
    hide NextBatch;
  }

  /** One turn: the order grows at its end, and in Throughput mode from the front of the line. */
  lemma TurnInOrder(n: Cpn, cfg: Config, runner: Runner, m: Machine)
    requires WfNet(n) && Mid(n, m, {}, {}) && !Halted(m) && AllTitled(n, m)
    ensures var r := Turn(n, cfg, runner, m);
            r.Ok? ==> && AllTitled(n, r.value) && m.st.order <= r.value.st.order
                      && (cfg.maxConcurrency <= 1 && cfg.mode.Throughput? && !r.value.stopped ==>
                            StartedThenWaiting(m) <= StartedThenWaiting(r.value))
  {
    hide Mid, WfNet, ProcessItem, ParallelRound, NextBatch, AllTitled, ItemNames;
    MidContext(n, m, {}, {});
    if m.batch != [] {
      ItemInLine(n, runner, m);
    } else if cfg.maxConcurrency <= 1 {
      FillInLine(n, cfg, m, NextBatch(cfg, m.st.ready).0, NextBatch(cfg, m.st.ready).1);
    } else {
      RoundInOrder(n, cfg, runner, m);
    }
  }

  /** The roots of the net, in the order of the ids. */
  function Roots(n: Cpn, ids: seq<Id>): seq<Id> {
    if ids == [] then [] else (if In(n, ids[0]) == [] then [ids[0]] else []) + Roots(n, ids[1..])
  }

  lemma RootPushed(n: Cpn, s: State, s1: State, r: State, item: ReadyItem)
    requires s1.ready == s.ready + [item] && Queues(n, s1, r)
    ensures forall i :: i in r.ready[|s.ready|..] ==> i == item || i in r.ready[|s1.ready|..]
  {
    assert r.ready[|s.ready|..] == [item] + r.ready[|s1.ready|..];
  }

  lemma RootQueued(n: Cpn, s: State, t: Id) returns (item: ReadyItem)
    requires t in n.specs && PushReady(n, s, t, RootKey(n, t), false).Ok?
    requires (t, RootKey(n, t)) !in s.readySet && s.completedKeys == map[]
    ensures var s1 := PushReady(n, s, t, RootKey(n, t), false).value;
            && s1 == s.(ready := s.ready + [item], readySet := s.readySet + {(t, RootKey(n, t))})
            && Queues(n, s, s1)
    ensures item.transition == t && item.key == RootKey(n, t)
    ensures ItemNames(s.ready + [item]) == ItemNames(s.ready) + [t]
  {
    PushQueues(n, s, t, RootKey(n, t), false);
    item := PushReady(n, s, t, RootKey(n, t), false).value.ready[|s.ready|];
  }

  lemma RootsTail(n: Cpn, ids: seq<Id>, names: seq<Id>)
    requires ids != []
    ensures In(n, ids[0]) != [] ==> names + Roots(n, ids) == names + Roots(n, ids[1..])
    ensures In(n, ids[0]) == [] ==> names + Roots(n, ids) == names + [ids[0]] + Roots(n, ids[1..])
  {}

  lemma {:induction false} RootsInLine(n: Cpn, s: State, ids: seq<Id>)
    requires EnqueueRoots(n, s, ids).Ok? && Distinct(ids) && s.completedKeys == map[]
    requires forall t, k :: t in ids ==> (t, k) !in s.readySet
    ensures var r := EnqueueRoots(n, s, ids).value;
            && Queues(n, s, r) && r.attempts == s.attempts
            && ItemNames(r.ready) == ItemNames(s.ready) + Roots(n, ids)
            && forall i :: i in r.ready[|s.ready|..] ==> i.transition in n.specs && i.key == RootKey(n, i.transition)
    decreases |ids|
  {
    hide Titled, PushReady, RootKey, ItemNames;
    if ids == [] {
      assert ItemNames(s.ready) + Roots(n, ids) == ItemNames(s.ready);
    } else {
      var t, rest := ids[0], ids[1..];
      assert forall x :: x in rest ==> x in ids && x != t;
      RootsTail(n, ids, ItemNames(s.ready));
      if In(n, t) != [] {
        RootsInLine(n, s, rest);
      } else {
        var item := RootQueued(n, s, t);
        var s1 := PushReady(n, s, t, RootKey(n, t), false).value;
        RootsInLine(n, s1, rest);
        hide Queues, Roots;
        var r := EnqueueRoots(n, s1, rest).value;
        QueuesTrans(n, s, s1, r);
        RootPushed(n, s, s1, r, item);
      }
    }
  }

  lemma StartInOrder(n: Cpn, ctx: Store)
    requires WfNet(n)
    ensures Start(n, ctx).Ok? && AllTitled(n, Start(n, ctx).value)
    ensures StartedThenWaiting(Start(n, ctx).value) == Roots(n, n.ids)
    ensures forall i :: i in Start(n, ctx).value.st.ready ==>
              i.transition in n.specs && i.key == RootKey(n, i.transition)
  {
    StartShape(n, ctx);
    IdsDistinct(n);
    RootsInLine(n, Initial(n), n.ids);
    hide Titled, EnqueueRoots, Roots, WfNet, RootKey, ItemNames;
    NoneWaiting(n, Start(n, ctx).value.st.ready);
  }

  lemma IdsDistinct(n: Cpn)
    requires WfNet(n)
    ensures Distinct(n.ids)
  {}

  lemma NoneWaiting(n: Cpn, ready: seq<ReadyItem>)
    ensures ready[0..] == [] + ready == ready
    ensures [] + ItemNames(ready) == ItemNames(ready) && ItemNames([]) == [] && [] + Roots(n, n.ids) == Roots(n, n.ids)
  {}

  lemma {:induction false} RunTitled(n: Cpn, cfg: Config, runner: Runner, ctx: Store, i: nat)
    requires WfNet(n) && Wf(ctx) && Run(n, cfg, runner, ctx, i).Ok?
    ensures AllTitled(n, Run(n, cfg, runner, ctx, i).value)
  {
    hide Mid, Over, WfNet, Turn, Start, AllTitled;
    if i == 0 {
      StartInOrder(n, ctx);
    } else {
      RunTitled(n, cfg, runner, ctx, i - 1);
      RunSafe(n, cfg, runner, ctx, i - 1);
      if !Halted(Run(n, cfg, runner, ctx, i - 1).value) {
        TurnInOrder(n, cfg, runner, Run(n, cfg, runner, ctx, i - 1).value);
      }
    }
  }

  /** In every run the execution order only ever grows at its end. */
  lemma {:induction false} OrderGrows(n: Cpn, cfg: Config, runner: Runner, ctx: Store, i: nat, j: nat)
    requires WfNet(n) && Wf(ctx) && i <= j && Run(n, cfg, runner, ctx, j).Ok?
    ensures Run(n, cfg, runner, ctx, i).Ok?
    ensures StateAt(n, cfg, runner, ctx, i).order <= StateAt(n, cfg, runner, ctx, j).order
    decreases j
  {
    hide Mid, Over, WfNet, Turn, Start, AllTitled;
    if i < j {
      OrderGrows(n, cfg, runner, ctx, i, j - 1);
      RunTitled(n, cfg, runner, ctx, j - 1);
      RunSafe(n, cfg, runner, ctx, j - 1);
      if !Halted(Run(n, cfg, runner, ctx, j - 1).value) {
        TurnInOrder(n, cfg, runner, Run(n, cfg, runner, ctx, j - 1).value);
      }
    }
  }

  /**
   * First in, first out: on the serial path in Throughput mode what has been started followed by
   * what waits only ever grows at its end, so pairs start in the order in which they were queued,
   * beginning with the roots in the order of their ids.
   */
  lemma {:induction false} FirstInFirstOut(n: Cpn, cfg: Config, runner: Runner, ctx: Store, i: nat, j: nat)
    requires WfNet(n) && Wf(ctx) && cfg.maxConcurrency <= 1 && cfg.mode.Throughput?
    requires i <= j && Run(n, cfg, runner, ctx, j).Ok? && !Run(n, cfg, runner, ctx, j).value.stopped
    ensures Run(n, cfg, runner, ctx, i).Ok?
    ensures StartedThenWaiting(Run(n, cfg, runner, ctx, i).value)
         <= StartedThenWaiting(Run(n, cfg, runner, ctx, j).value)
    ensures Roots(n, n.ids) <= StartedThenWaiting(Run(n, cfg, runner, ctx, j).value)
    decreases j
  {
    hide Mid, Over, WfNet, Turn, Start, AllTitled, StartedThenWaiting, Roots;
    if j == 0 {
      StartInOrder(n, ctx);
    } else {
      RunSafe(n, cfg, runner, ctx, j - 1);
      var m := Run(n, cfg, runner, ctx, j - 1).value;
      FirstInFirstOut(n, cfg, runner, ctx, if i < j then i else j - 1, j - 1);
      RunTitled(n, cfg, runner, ctx, j - 1);
      if !Halted(m) {
        TurnInOrder(n, cfg, runner, m);
      }
    }
  }

  /** The order of urgency in terms of the specs: level, then priority, then id, then key. */
  ghost predicate MoreUrgent(n: Cpn, a: Pair, b: Pair)
    requires a.0 in n.specs && b.0 in n.specs
  {
    var x, y := n.specs[a.0], n.specs[b.0];
    x.topoLevel < y.topoLevel
    || (x.topoLevel == y.topoLevel
        && (x.transition.priority > y.transition.priority
            || (x.transition.priority == y.transition.priority
                && (CmpString(a.0, b.0) == Less || (a.0 == b.0 && CmpString(a.1, b.1) == Less)))))
  }

  lemma TitledOrder(n: Cpn, attempts: map<Pair, nat>, a: ReadyItem, b: ReadyItem)
    requires Titled(n, attempts, a) && Titled(n, attempts, b)
    ensures Precedes(a, b) <==> MoreUrgent(n, ItemPair(a), ItemPair(b))
  {
  }

  /** Nothing in `rest` is more urgent than, or the same as, anything in `batch`, which is in order itself. */
  ghost predicate MostUrgent(n: Cpn, batch: seq<ReadyItem>, rest: seq<ReadyItem>) {
    && (forall i :: i in batch + rest ==> i.transition in n.specs)
    && (forall b, x :: b in batch && x in rest ==> MoreUrgent(n, ItemPair(b), ItemPair(x)))
    && (forall i, j :: 0 <= i < j < |batch| ==> MoreUrgent(n, ItemPair(batch[i]), ItemPair(batch[j])))
  }

  /** A Deterministic batch of any run takes the most urgent pairs of its queue, the most urgent first. */
  lemma DeterministicRuns(n: Cpn, cfg: Config, runner: Runner, ctx: Store, i: nat)
    requires WfNet(n) && Wf(ctx) && cfg.maxConcurrency <= 1 && cfg.mode.Deterministic?
    requires Run(n, cfg, runner, ctx, i).Ok?
    requires var m := Run(n, cfg, runner, ctx, i).value; !Halted(m) && m.batch == []
    ensures Run(n, cfg, runner, ctx, i + 1).Ok?
    ensures var z := Run(n, cfg, runner, ctx, i + 1).value; MostUrgent(n, z.batch, z.st.ready)
  {
    hide Mid, Over, WfNet, NextBatch, Start, Titled, MoreUrgent;
    RunTitled(n, cfg, runner, ctx, i);
    RunSafe(n, cfg, runner, ctx, i);
    var m := Run(n, cfg, runner, ctx, i).value;
    QueueDistinct(n, m);
    var (batch, rest) := NextBatch(cfg, m.st.ready);
    FillInLine(n, cfg, m, batch, rest);
    BatchUrgent(n, cfg, m.st.attempts, m.st.ready);
  }

  lemma BatchUrgent(n: Cpn, cfg: Config, attempts: map<Pair, nat>, q: seq<ReadyItem>)
    requires cfg.mode.Deterministic? && Distinct(PairsOf(q))
    requires forall i :: i in NextBatch(cfg, q).0 + NextBatch(cfg, q).1 ==> Titled(n, attempts, i)
    ensures MostUrgent(n, NextBatch(cfg, q).0, NextBatch(cfg, q).1)
  {
    var (batch, rest) := NextBatch(cfg, q);
    DeterministicBatch(cfg, q, q);
    NextBatchSplits(cfg, q);
    PairsPermute(q, batch + rest);
    DistinctPermutes(PairsOf(q), PairsOf(batch + rest));
    hide NextBatch, Precedes, MoreUrgent, CmpReady;
    forall i | i in batch + rest ensures i.transition in n.specs { assert Titled(n, attempts, i); }
    forall b, x | b in batch && x in rest ensures MoreUrgent(n, ItemPair(b), ItemPair(x)) {
      assert b in batch + rest && x in batch + rest;
      UrgentFirst(cfg, q, b, x);
      TitledOrder(n, attempts, b, x);
    }
    forall i, j | 0 <= i < j < |batch| ensures MoreUrgent(n, ItemPair(batch[i]), ItemPair(batch[j])) {
      assert batch[i] in batch + rest && batch[j] in batch + rest;
      assert PairsOf(batch + rest)[i] == ItemPair(batch[i]) && PairsOf(batch + rest)[j] == ItemPair(batch[j]);
      LessPrecedes(batch[i], batch[j]);
      TitledOrder(n, attempts, batch[i], batch[j]);
    }
  }

  /**
   * A parallel round of any run starts the most urgent of the pairs that were queued first for
   * their keys, the most urgent first.
   */
  lemma RoundsByUrgency(n: Cpn, cfg: Config, runner: Runner, ctx: Store, i: nat)
    requires WfNet(n) && Wf(ctx) && Run(n, cfg, runner, ctx, i).Ok? && Run(n, cfg, runner, ctx, i + 1).Ok?
    requires Drains(cfg, Run(n, cfg, runner, ctx, i).value)
    ensures var m, z := Run(n, cfg, runner, ctx, i).value, Run(n, cfg, runner, ctx, i + 1).value;
            var kept := FirstPerKey(m.st.ready);
            exists batch, left ::
              && z.st.order == m.st.order + ItemNames(batch) && multiset(batch + left) == multiset(kept)
              && |batch| == (if |kept| < cfg.maxConcurrency then |kept| else cfg.maxConcurrency)
              && MostUrgent(n, batch, left)
  {
    hide Mid, Over, WfNet, ParallelRound, Start, Titled, FirstPerKey, MostUrgent, ParallelBatch;
    RunTitled(n, cfg, runner, ctx, i);
    RunSafe(n, cfg, runner, ctx, i);
    var m := Run(n, cfg, runner, ctx, i).value;
    RoundInOrder(n, cfg, runner, m);
    var left := RoundUrgent(n, m.st.attempts, m.st.ready, cfg.maxConcurrency) by {
      assert m.batch + m.st.ready == m.st.ready;
    }
    ParallelBatchIsLeast(m.st.ready, cfg.maxConcurrency);
    var batch := ParallelBatch(m.st.ready, cfg.maxConcurrency);
    assert multiset(batch + left) == multiset(FirstPerKey(m.st.ready)) && MostUrgent(n, batch, left);
  }

  lemma SplitUrgent(n: Cpn, batch: seq<ReadyItem>, left: seq<ReadyItem>)
    requires forall i :: i in batch + left ==> i.transition in n.specs
    requires forall i, j :: 0 <= i < j < |batch + left| ==>
               MoreUrgent(n, ItemPair((batch + left)[i]), ItemPair((batch + left)[j]))
    ensures MostUrgent(n, batch, left)
  {
    hide MoreUrgent;
    var sorted := batch + left;
    forall b, x | b in batch && x in left ensures MoreUrgent(n, ItemPair(b), ItemPair(x)) {
      var i :| 0 <= i < |batch| && batch[i] == b;
      var j :| 0 <= j < |left| && left[j] == x;
      assert sorted[i] == b && sorted[|batch| + j] == x;
    }
    forall i, j | 0 <= i < j < |batch| ensures MoreUrgent(n, ItemPair(batch[i]), ItemPair(batch[j])) {
      assert sorted[i] == batch[i] && sorted[j] == batch[j];
    }
  }

  lemma RoundUrgent(n: Cpn, attempts: map<Pair, nat>, q: seq<ReadyItem>, max: nat) returns (left: seq<ReadyItem>)
    requires forall i :: i in q ==> Titled(n, attempts, i)
    ensures multiset(ParallelBatch(q, max) + left) == multiset(FirstPerKey(q))
    ensures MostUrgent(n, ParallelBatch(q, max), left)
  {
    var sorted, batch := Sort(FirstPerKey(q), CmpReady), ParallelBatch(q, max);
    left := sorted[|batch|..];
    assert sorted == batch + left;
    FirstPerKeyFacts(q);
    DistinctKeysPermute(FirstPerKey(q), sorted);
    SameMembers(sorted, FirstPerKey(q));
    CmpReadyLawful();
    SortSorted(FirstPerKey(q), CmpReady);
    hide Sort, FirstPerKey, ParallelBatch, CmpReady, Lawful, MoreUrgent, Titled, DistinctKeys, MostUrgent;
    forall i | i in sorted ensures i.transition in n.specs {
      TitledSpec(n, attempts, i);
    }
    forall i, j | 0 <= i < j < |sorted| ensures MoreUrgent(n, ItemPair(sorted[i]), ItemPair(sorted[j])) {
      KeptUrgent(n, attempts, sorted, i, j);
    }
    SplitUrgent(n, batch, left);
  }

  lemma TitledSpec(n: Cpn, attempts: map<Pair, nat>, i: ReadyItem)
    requires Titled(n, attempts, i)
    ensures i.transition in n.specs
  {}

  lemma KeptUrgent(n: Cpn, attempts: map<Pair, nat>, items: seq<ReadyItem>, i: nat, j: nat)
    requires DistinctKeys(items) && i < j < |items| && CmpReady(items[i], items[j]) != Greater
    requires Titled(n, attempts, items[i]) && Titled(n, attempts, items[j])
    ensures MoreUrgent(n, ItemPair(items[i]), ItemPair(items[j]))
  {
    KeptStrictly(items, i, j);
    assert items[i].key != items[j].key;
    hide CmpReady, DistinctKeys;
    LessPrecedes(items[i], items[j]);
    TitledOrder(n, attempts, items[i], items[j]);
  }

  /** A parallel round of any run completes its pairs in the order in which it started them. */
  lemma RoundsFireInOrder(n: Cpn, cfg: Config, runner: Runner, ctx: Store, i: nat)
    requires WfNet(n) && Wf(ctx) && Run(n, cfg, runner, ctx, i).Ok? && Run(n, cfg, runner, ctx, i + 1).Ok?
    requires Drains(cfg, Run(n, cfg, runner, ctx, i).value)
    ensures var m, z := Run(n, cfg, runner, ctx, i).value, Run(n, cfg, runner, ctx, i + 1).value;
            exists more :: z.st.fired == m.st.fired + more
                          && Within(FiringTks(more), PairsOf(ParallelBatch(m.st.ready, cfg.maxConcurrency)))
  {
    hide Mid, Over, WfNet, Start, BuildJobs, RunJobs, MergeJobs, ParallelBatch, Mergeable, JobOk, DistinctKeys;
    RunSafe(n, cfg, runner, ctx, i);
    var m := Run(n, cfg, runner, ctx, i).value;
    var m2, jobs, runs := RoundJobs(n, cfg, runner, m);
    var batch := ParallelBatch(m.st.ready, cfg.maxConcurrency);
    ParallelBatchFacts(m.st.ready, cfg.maxConcurrency);
    DrainMid(n, m, cfg.maxConcurrency);
    BuildAllSafe(n, runner, Emptied(m), ItemPairs(batch), {}, batch);
    BuildAllFrame(n, runner, Emptied(m), batch);
    MergeableShape(n, m2.st, jobs, runs);
    MergeFires(n, m2, jobs, runs);
    assert JobTks(jobs) == PairsOf(batch);
  }

  lemma {:induction false} BuildAllFrame(n: Cpn, runner: Runner, m: Machine, items: seq<ReadyItem>)
    requires Wf(m.ctx) && BuildJobs(n, runner, m, items).Ok?
    ensures BuildJobs(n, runner, m, items).value.0.st.fired == m.st.fired
    decreases |items|
  {
    hide EnsureTrigger, RunAttempt, Skips, IsDone;
    if items != [] {
      var m1 := BuildJob(n, runner, m, items[0]).value.0;
      if !IsDone(m.st.completedKeys, items[0].transition, items[0].key) {
        TakeFires(n, m.st, items[0].transition, items[0].key);
      }
      BuildAllFrame(n, runner, m1, items[1..]);
    }
  }

  lemma TakeFires(n: Cpn, s: State, t: Id, k: Key)
    requires EnsureTrigger(n, s, t, k).Ok?
    ensures EnsureTrigger(n, s, t, k).value.0.fired == s.fired
  {}
}
