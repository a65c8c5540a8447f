/**
 * Key non-interference: concluding an attempt of (t, k) touches only column `k` of the engine
 * state, and its effect there depends only on that column. So the jobs of a parallel batch,
 * whose keys differ, may be concluded in any order.
 */
module EngineColumns {
  import opened Prelude
  import opened Net
  import opened ContextModel
  import opened Router
  import opened EngineModel
  import opened EngineTokens
  import opened EngineSafety
  import opened EngineRuns
  import opened EngineWakeups
  import opened EngineVerdicts

  function BlindTokens(q: seq<Token>): (r: seq<Token>)
    ensures |r| == |q| && forall i :: 0 <= i < |r| ==> r[i] == BlindToken(q[i])
  {
    seq(|q|, i requires 0 <= i < |q| => BlindToken(q[i]))
  }

  function OutcomeOf(keyed: map<Id, map<Key, Outcome>>, t: Id, k: Key): Option<Outcome> {
    if t in keyed && k in keyed[t] then Some(keyed[t][k]) else None
  }

  /** The two states agree on key `k`, up to token numbers and the order of the queue. */
  ghost predicate SameColumn(s: State, z: State, k: Key) {
    && s.placeTokens.Keys == z.placeTokens.Keys
    && (forall p :: BlindTokens(Tokens(s.placeTokens, p, k)) == BlindTokens(Tokens(z.placeTokens, p, k)))
    && (forall t :: IsDone(s.completedKeys, t, k) <==> IsDone(z.completedKeys, t, k))
    && (forall t :: OutcomeOf(s.keyedOutcomes, t, k) == OutcomeOf(z.keyedOutcomes, t, k))
    && (forall t :: (t, k) in s.readySet <==> (t, k) in z.readySet)
    && (forall t :: (t, k) in s.cache <==> (t, k) in z.cache)
    && (forall t :: BlindInputs(GetOr(s.cache, (t, k), [])) == BlindInputs(GetOr(z.cache, (t, k), [])))
    && (forall t :: GetOr(s.attempts, (t, k), 0) == GetOr(z.attempts, (t, k), 0))
  }

  lemma ColumnTrans(a: State, b: State, c: State, k: Key)
    requires SameColumn(a, b, k) && SameColumn(b, c, k)
    ensures SameColumn(a, c, k)
  {
  }

  lemma ColumnSym(a: State, b: State, k: Key)
    requires SameColumn(a, b, k)
    ensures SameColumn(b, a, k)
  {
  }

  // ---------------------------------------------------------- other columns are kept

  lemma AddElsewhere(s: State, p: Id, token: Token, k: Key)
    requires p in s.placeTokens && token.key != k
    ensures SameColumn(s, s.(placeTokens := AddToken(s.placeTokens, p, token)), k)
  {
    AddChanges(s.placeTokens, p, token);
  }

  lemma WakeElsewhere(n: Cpn, s: State, p: Id, key: Key, k: Key)
    requires WakeConsumer(n, s, p, key).Ok? && key != k
    ensures SameColumn(s, WakeConsumer(n, s, p, key).value, k)
  {
    hide Enabled;
  }

  lemma InsertElsewhere(n: Cpn, s: State, p: Id, token: Token, k: Key)
    requires InsertToken(n, s, p, token).Ok? && token.key != k
    ensures SameColumn(s, InsertToken(n, s, p, token).value, k)
  {
    if !(p in n.graph.consumer && IsDone(s.completedKeys, n.graph.consumer[p], token.key)) {
      hide SameColumn, WakeConsumer;
      var s' := s.(placeTokens := AddToken(s.placeTokens, p, token));
      AddElsewhere(s, p, token, k);
      WakeElsewhere(n, s', p, token.key, k);
      ColumnTrans(s, s', InsertToken(n, s, p, token).value, k);
    }
  }

  lemma {:induction false} EmitElsewhere(n: Cpn, s: State, f: Firing, arcs: seq<Arc>, k: Key)
    requires EmitArcs(n, s, f, arcs).Ok? && f.key != k
    ensures SameColumn(s, EmitArcs(n, s, f, arcs).value, k)
    decreases |arcs|
  {
    hide InsertToken, SameColumn;
    if arcs == [] {
      ColumnRefl(s, k);
    } else {
      var s1 := s.(tokenSequence := s.tokenSequence + 1);
      var token := MakeToken(n, f, s1.tokenSequence);
      var s2 := InsertToken(n, s1, arcs[0].place, token).value;
      Renumbered(s, s1, k);
      InsertElsewhere(n, s1, arcs[0].place, token, k);
      EmitElsewhere(n, s2, f, arcs[1..], k);
      ColumnTrans(s, s1, s2, k);
      ColumnTrans(s, s2, EmitArcs(n, s, f, arcs).value, k);
    }
  }

  lemma ColumnRefl(s: State, k: Key)
    ensures SameColumn(s, s, k)
  {
  }

  lemma Renumbered(s: State, z: State, k: Key)
    requires z == s.(tokenSequence := z.tokenSequence)
    ensures SameColumn(s, z, k)
  {
  }

  lemma MarkElsewhere(s: State, f: Firing, k: Key)
    requires f.key != k
    ensures SameColumn(s, MarkCompleted(s, f), k)
  {
  }

  /** Completing (t, k) leaves every other column as it was. */
  lemma CompleteElsewhere(n: Cpn, s: State, tk: Pair, run: RunResult, k: Key)
    requires Complete(n, s, tk.0, tk.1, run).Ok? && tk.1 != k
    ensures SameColumn(s, Complete(n, s, tk.0, tk.1, run).value, k)
  {
    hide SameColumn, EmitArcs;
    var f := FiringOf(s, tk.0, tk.1, run);
    MarkElsewhere(s, f, k);
    EmitElsewhere(n, MarkCompleted(s, f), f, Out(n, tk.0), k);
    ColumnTrans(s, MarkCompleted(s, f), Complete(n, s, tk.0, tk.1, run).value, k);
  }

  lemma RequeueElsewhere(n: Cpn, s: State, tk: Pair, attempt: nat, run: RunResult, k: Key)
    requires PushReady(n, Requeued(s, tk, attempt, run), tk.0, tk.1, true).Ok? && tk.1 != k
    ensures SameColumn(s, PushReady(n, Requeued(s, tk, attempt, run), tk.0, tk.1, true).value, k)
  {
  }

  lemma ConcludeElsewhere(n: Cpn, m: Machine, spec: ExecSpec, tk: Pair, attempt: nat, run: RunResult, k: Key)
    requires Wf(m.ctx) && Conclude(n, m, spec, tk, attempt, run).Ok? && tk.1 != k && !spec.kind.Terminal?
    ensures SameColumn(m.st, Conclude(n, m, spec, tk, attempt, run).value.st, k)
  {
    hide SameColumn, Complete, PushReady;
    if Retryable(run.outcome) && attempt + 1 <= spec.maxRetries {
      RequeueElsewhere(n, m.st, tk, attempt, run, k);
    } else {
      CompleteElsewhere(n, m.st, tk, run, k);
    }
  }

  // ------------------------------------------------- the own column is a function of itself

  lemma {:induction false} TotalLengthBlind(x: seq<seq<Token>>, y: seq<seq<Token>>)
    requires |x| == |y| && forall i :: 0 <= i < |x| ==> |x[i]| == |y[i]|
    ensures TotalLength(x) == TotalLength(y)
  {
    if x != [] {
      assert forall i :: 0 <= i < |x[1..]| ==> x[1..][i] == x[i + 1] && y[1..][i] == y[i + 1];
      TotalLengthBlind(x[1..], y[1..]);
    }
  }

  lemma JoinBlindHalf(policy: JoinPolicy, x: seq<seq<Token>>, y: seq<seq<Token>>)
    requires |x| == |y| && forall i :: 0 <= i < |x| ==> BlindTokens(x[i]) == BlindTokens(y[i])
    requires JoinReady(policy, x)
    ensures JoinReady(policy, y)
  {
    assert forall i :: 0 <= i < |x| ==> |x[i]| == |BlindTokens(x[i])| == |BlindTokens(y[i])| == |y[i]|;
    TotalLengthBlind(x, y);
    if AllFilled(x) {
      assert forall i :: 0 <= i < |x| ==> x[i] in x;
      assert AllFilled(y);
    }
    if AnyFilled(x) {
      var i :| 0 <= i < |x| && x[i] != [];
      assert y[i] in y;
      assert AnyFilled(y);
    }
    if AnySuccess(x) {
      var i :| 0 <= i < |x| && exists t :: t in x[i] && t.meta.outcome == Success;
      var t :| t in x[i] && t.meta.outcome == Success;
      var j :| 0 <= j < |x[i]| && x[i][j] == t;
      assert BlindTokens(x[i])[j] == BlindTokens(y[i])[j];
      assert y[i][j] in y[i] && y[i] in y;
      assert AnySuccess(y);
    }
  }

  lemma EnabledBlindHalf(n: Cpn, b: Buckets, c: Buckets, t: Id, k: Key)
    requires t in n.specs && Enabled(n, b, t, k)
    requires forall p :: BlindTokens(Tokens(b, p, k)) == BlindTokens(Tokens(c, p, k))
    ensures Enabled(n, c, t, k)
  {
    forall a | a in In(n, t) && a.required ensures In(n, t) == [] || Tokens(c, a.place, k) != [] {
      assert |Tokens(c, a.place, k)| == |BlindTokens(Tokens(b, a.place, k))|;
    }
    if In(n, t) != [] {
      JoinBlindHalf(n.specs[t].transition.join, Queues(b, In(n, t), k), Queues(c, In(n, t), k));
    }
  }

  lemma EnabledBlind(n: Cpn, s: State, z: State, t: Id, k: Key)
    requires t in n.specs && SameColumn(s, z, k)
    ensures Enabled(n, s.placeTokens, t, k) <==> Enabled(n, z.placeTokens, t, k)
  {
    if Enabled(n, s.placeTokens, t, k) {
      EnabledBlindHalf(n, s.placeTokens, z.placeTokens, t, k);
    }
    if Enabled(n, z.placeTokens, t, k) {
      EnabledBlindHalf(n, z.placeTokens, s.placeTokens, t, k);
    }
  }

  lemma AddBlind(s: State, z: State, p: Id, x: Token, y: Token, k: Key)
    requires SameColumn(s, z, k) && BlindToken(x) == BlindToken(y) && x.key == k && p in s.placeTokens
    ensures p in z.placeTokens
    ensures SameColumn(s.(placeTokens := AddToken(s.placeTokens, p, x)),
                       z.(placeTokens := AddToken(z.placeTokens, p, y)), k)
  {
    assert y.key == BlindToken(y).key == BlindToken(x).key == k;
    AddChanges(s.placeTokens, p, x);
    AddChanges(z.placeTokens, p, y);
    forall q ensures BlindTokens(Tokens(AddToken(s.placeTokens, p, x), q, k))
                  == BlindTokens(Tokens(AddToken(z.placeTokens, p, y), q, k)) {
      assert BlindTokens(Tokens(s.placeTokens, q, k)) == BlindTokens(Tokens(z.placeTokens, q, k));
      if q == p {
        assert BlindTokens(Tokens(s.placeTokens, q, k) + [x])
            == BlindTokens(Tokens(s.placeTokens, q, k)) + [BlindToken(x)];
        assert BlindTokens(Tokens(z.placeTokens, q, k) + [y])
            == BlindTokens(Tokens(z.placeTokens, q, k)) + [BlindToken(y)];
      }
    }
  }

  lemma PushBlind(n: Cpn, s: State, z: State, t: Id, k: Key, retry: bool)
    requires SameColumn(s, z, k) && PushReady(n, s, t, k, retry).Ok? && PushReady(n, z, t, k, retry).Ok?
    ensures SameColumn(PushReady(n, s, t, k, retry).value, PushReady(n, z, t, k, retry).value, k)
  {
  }

  lemma WakeBlind(n: Cpn, s: State, z: State, p: Id, k: Key)
    requires SameColumn(s, z, k) && WakeConsumer(n, s, p, k).Ok? && WakeConsumer(n, z, p, k).Ok?
    ensures SameColumn(WakeConsumer(n, s, p, k).value, WakeConsumer(n, z, p, k).value, k)
  {
    hide Enabled, PushReady;
    if p in n.graph.consumer {
      var t := n.graph.consumer[p];
      if !IsDone(s.completedKeys, t, k) {
        EnabledBlind(n, s, z, t, k);
        if Enabled(n, s.placeTokens, t, k) {
          PushBlind(n, s, z, t, k, false);
        }
      }
    }
  }

  lemma InsertBlind(n: Cpn, s: State, z: State, p: Id, x: Token, y: Token, k: Key)
    requires SameColumn(s, z, k) && BlindToken(x) == BlindToken(y) && x.key == k
    requires InsertToken(n, s, p, x).Ok? && InsertToken(n, z, p, y).Ok?
    ensures SameColumn(InsertToken(n, s, p, x).value, InsertToken(n, z, p, y).value, k)
  {
    assert y.key == BlindToken(y).key == BlindToken(x).key == k;
    if p in n.graph.consumer && IsDone(s.completedKeys, n.graph.consumer[p], k) {
    } else {
      hide WakeConsumer;
      AddBlind(s, z, p, x, y, k);
      WakeBlind(n, s.(placeTokens := AddToken(s.placeTokens, p, x)),
                z.(placeTokens := AddToken(z.placeTokens, p, y)), p, k);
    }
  }

  lemma {:induction false} EmitBlind(n: Cpn, s: State, z: State, f: Firing, g: Firing, arcs: seq<Arc>)
    requires SameColumn(s, z, f.key) && PairOf(f) == PairOf(g) && f.result == g.result
    requires EmitArcs(n, s, f, arcs).Ok? && EmitArcs(n, z, g, arcs).Ok?
    ensures SameColumn(EmitArcs(n, s, f, arcs).value, EmitArcs(n, z, g, arcs).value, f.key)
    decreases |arcs|
  {
    hide InsertToken, SameColumn;
    if arcs != [] {
      var s1, z1 := s.(tokenSequence := s.tokenSequence + 1), z.(tokenSequence := z.tokenSequence + 1);
      var x, y := MakeToken(n, f, s1.tokenSequence), MakeToken(n, g, z1.tokenSequence);
      Renumbered(s, s1, f.key);
      Renumbered(z, z1, f.key);
      ColumnSym(s, s1, f.key);
      ColumnTrans(s1, s, z, f.key);
      ColumnTrans(s1, z, z1, f.key);
      InsertBlind(n, s1, z1, arcs[0].place, x, y, f.key);
      EmitBlind(n, InsertToken(n, s1, arcs[0].place, x).value, InsertToken(n, z1, arcs[0].place, y).value,
                f, g, arcs[1..]);
    }
  }

  lemma DoneBlind(s: State, z: State, f: Firing, k: Key)
    requires forall t :: IsDone(s.completedKeys, t, k) <==> IsDone(z.completedKeys, t, k)
    ensures forall t :: IsDone(AddKey(s.completedKeys, f.transition, f.key), t, k)
                        <==> IsDone(AddKey(z.completedKeys, f.transition, f.key), t, k)
  {
    forall t ensures IsDone(AddKey(s.completedKeys, f.transition, f.key), t, k)
                     <==> IsDone(AddKey(z.completedKeys, f.transition, f.key), t, k) {
      assert IsDone(s.completedKeys, t, k) <==> IsDone(z.completedKeys, t, k);
    }
  }

  lemma OutcomeBlind(a: map<Id, map<Key, Outcome>>, b: map<Id, map<Key, Outcome>>, u: Id, k: Key, outcome: Outcome)
    requires forall t :: OutcomeOf(a, t, k) == OutcomeOf(b, t, k)
    ensures forall t :: OutcomeOf(AddOutcome(a, u, k, outcome), t, k) == OutcomeOf(AddOutcome(b, u, k, outcome), t, k)
  {
    forall t ensures OutcomeOf(AddOutcome(a, u, k, outcome), t, k) == OutcomeOf(AddOutcome(b, u, k, outcome), t, k) {
      assert OutcomeOf(a, t, k) == OutcomeOf(b, t, k);
    }
  }

  lemma MarkBlind(s: State, z: State, f: Firing, g: Firing)
    requires SameColumn(s, z, f.key) && PairOf(f) == PairOf(g) && f.result == g.result
    ensures SameColumn(MarkCompleted(s, f), MarkCompleted(z, g), f.key)
  {
    hide AddKey, AddOutcome, IsDone, OutcomeOf;
    DoneBlind(s, z, f, f.key);
    OutcomeBlind(s.keyedOutcomes, z.keyedOutcomes, f.transition, f.key, f.result.outcome);
  }

  /** The effect on the own column depends only on that column. */
  lemma CompleteBlind(n: Cpn, s: State, z: State, tk: Pair, run: RunResult)
    requires SameColumn(s, z, tk.1) && Complete(n, s, tk.0, tk.1, run).Ok? && Complete(n, z, tk.0, tk.1, run).Ok?
    ensures SameColumn(Complete(n, s, tk.0, tk.1, run).value, Complete(n, z, tk.0, tk.1, run).value, tk.1)
  {
    hide SameColumn, EmitArcs;
    var f, g := FiringOf(s, tk.0, tk.1, run), FiringOf(z, tk.0, tk.1, run);
    MarkBlind(s, z, f, g);
    EmitBlind(n, MarkCompleted(s, f), MarkCompleted(z, g), f, g, Out(n, tk.0));
  }

  lemma ConcludeBlind(n: Cpn, m: Machine, w: Machine, spec: ExecSpec, tk: Pair, attempt: nat, run: RunResult)
    requires Wf(m.ctx) && Wf(w.ctx) && SameColumn(m.st, w.st, tk.1) && !spec.kind.Terminal?
    requires Conclude(n, m, spec, tk, attempt, run).Ok? && Conclude(n, w, spec, tk, attempt, run).Ok?
    ensures SameColumn(Conclude(n, m, spec, tk, attempt, run).value.st,
                       Conclude(n, w, spec, tk, attempt, run).value.st, tk.1)
  {
    hide SameColumn, Complete, PushReady;
    if Retryable(run.outcome) && attempt + 1 <= spec.maxRetries {
      RequeueBlind(m.st, w.st, tk, attempt, run);
      PushBlind(n, Requeued(m.st, tk, attempt, run), Requeued(w.st, tk, attempt, run), tk.0, tk.1, true);
    } else {
      CompleteBlind(n, m.st, w.st, tk, run);
    }
  }

  lemma RequeueBlind(s: State, z: State, tk: Pair, attempt: nat, run: RunResult)
    requires SameColumn(s, z, tk.1)
    ensures SameColumn(Requeued(s, tk, attempt, run), Requeued(z, tk, attempt, run), tk.1)
  {
  }

  // ------------------------------------------------------------------ whole batches

  ghost predicate NoTerminal(jobs: seq<Job>) { forall j :: j in jobs ==> !j.spec.kind.Terminal? }

  lemma JobConcludes(n: Cpn, m: Machine, jobs: seq<Job>, runs: seq<RunResult>, i: nat)
    requires WfNet(n) && Mid(n, m, JobPairs(jobs), JobPairs(jobs)) && Mergeable(n, m.st, jobs, runs) && i < |jobs|
    ensures var j := jobs[i];
            && Conclude(n, m, j.spec, j.tk, j.attempt, runs[i]).Ok?
            && OthersKept(m.st, Conclude(n, m, j.spec, j.tk, j.attempt, runs[i]).value.st, j.tk)
  {
    hide Mid, Conclude, OthersKept, WfNet, Holds;
    var j := jobs[i];
    assert j in jobs;
    forall o | o in JobPairs(jobs) && o != j.tk ensures o.1 != j.tk.1 {
      var x :| 0 <= x < |jobs| && jobs[x].tk == o;
    }
    ConcludeSafe(n, m, JobPairs(jobs), JobPairs(jobs), j.tk, j.attempt, runs[i]);
  }

  /** After a batch without a Terminal, column `k` is what its own job makes of it, or unchanged. */
  lemma {:induction false} MergedColumn(n: Cpn, m: Machine, jobs: seq<Job>, runs: seq<RunResult>, k: Key)
    requires WfNet(n) && Mid(n, m, JobPairs(jobs), JobPairs(jobs)) && Mergeable(n, m.st, jobs, runs) && NoTerminal(jobs)
    ensures MergeJobs(n, m, jobs, runs).Ok?
    ensures forall i :: 0 <= i < |jobs| && jobs[i].tk.1 == k ==>
              && Conclude(n, m, jobs[i].spec, jobs[i].tk, jobs[i].attempt, runs[i]).Ok?
              && SameColumn(MergeJobs(n, m, jobs, runs).value.st,
                            Conclude(n, m, jobs[i].spec, jobs[i].tk, jobs[i].attempt, runs[i]).value.st, k)
    ensures (forall i :: 0 <= i < |jobs| ==> jobs[i].tk.1 != k) ==>
              SameColumn(MergeJobs(n, m, jobs, runs).value.st, m.st, k)
    decreases |jobs|
  {
    hide Mid, Over, WfNet, Conclude, OthersKept, Mergeable, SameColumn;
    MergeSafe(n, m, jobs, runs);
    MidContext(n, m, JobPairs(jobs), JobPairs(jobs));
    MergeableShape(n, m.st, jobs, runs);
    if jobs == [] {
      ColumnRefl(m.st, k);
    } else {
      var j, rest := jobs[0], jobs[1..];
      assert j in jobs && forall x :: x in rest ==> x in jobs;
      MergeableTailKeys(n, m.st, jobs, runs);
      ConcludeSafe(n, m, JobPairs(jobs), JobPairs(jobs), j.tk, j.attempt, runs[0]);
      var m1 := Conclude(n, m, j.spec, j.tk, j.attempt, runs[0]).value;
      ConcludeGoesOn(n, m, j.spec, j.tk, j.attempt, runs[0]);
      MergeableTail(n, m.st, m1.st, jobs, runs);
      MergedColumn(n, m1, rest, runs[1..], k);
      MergedStep(n, m, m1, jobs, runs, k);
    }
  }

  lemma ConcludeGoesOn(n: Cpn, m: Machine, spec: ExecSpec, tk: Pair, attempt: nat, run: RunResult)
    requires Wf(m.ctx) && Conclude(n, m, spec, tk, attempt, run).Ok? && !spec.kind.Terminal?
    ensures Conclude(n, m, spec, tk, attempt, run).value.stopped == m.stopped
  {
  }

  lemma MergedStep(n: Cpn, m: Machine, m1: Machine, jobs: seq<Job>, runs: seq<RunResult>, k: Key)
    requires WfNet(n) && Mid(n, m, JobPairs(jobs), JobPairs(jobs)) && Mergeable(n, m.st, jobs, runs) && NoTerminal(jobs)
    requires jobs != [] && Conclude(n, m, jobs[0].spec, jobs[0].tk, jobs[0].attempt, runs[0]) == Ok(m1)
    requires Mergeable(n, m1.st, jobs[1..], runs[1..]) && Wf(m1.ctx) && !m1.stopped
    requires MergeJobs(n, m1, jobs[1..], runs[1..]).Ok?
    requires forall i :: 0 <= i < |jobs[1..]| && jobs[1..][i].tk.1 == k ==>
              && Conclude(n, m1, jobs[1..][i].spec, jobs[1..][i].tk, jobs[1..][i].attempt, runs[1..][i]).Ok?
              && SameColumn(MergeJobs(n, m1, jobs[1..], runs[1..]).value.st,
                            Conclude(n, m1, jobs[1..][i].spec, jobs[1..][i].tk, jobs[1..][i].attempt, runs[1..][i])
                            .value.st, k)
    requires (forall i :: 0 <= i < |jobs[1..]| ==> jobs[1..][i].tk.1 != k)
             ==> SameColumn(MergeJobs(n, m1, jobs[1..], runs[1..]).value.st, m1.st, k)
    ensures MergeJobs(n, m, jobs, runs) == MergeJobs(n, m1, jobs[1..], runs[1..])
    ensures forall i :: 0 <= i < |jobs| && jobs[i].tk.1 == k ==>
              && Conclude(n, m, jobs[i].spec, jobs[i].tk, jobs[i].attempt, runs[i]).Ok?
              && SameColumn(MergeJobs(n, m, jobs, runs).value.st,
                            Conclude(n, m, jobs[i].spec, jobs[i].tk, jobs[i].attempt, runs[i]).value.st, k)
    ensures (forall i :: 0 <= i < |jobs| ==> jobs[i].tk.1 != k) ==>
              SameColumn(MergeJobs(n, m, jobs, runs).value.st, m.st, k)
  {
    hide Mid, WfNet, Conclude, SameColumn, Holds;
    MidContext(n, m, JobPairs(jobs), JobPairs(jobs));
    var end := MergeJobs(n, m1, jobs[1..], runs[1..]).value;
    var j := jobs[0];
    assert j in jobs;
    if j.tk.1 == k {
      forall i | 0 <= i < |jobs[1..]| ensures jobs[1..][i].tk.1 != k {
        assert jobs[1..][i] == jobs[i + 1];
      }
    } else {
      ConcludeElsewhere(n, m, j.spec, j.tk, j.attempt, runs[0], k);
      ColumnSym(m.st, m1.st, k);
      forall i | 0 <= i < |jobs| && jobs[i].tk.1 == k
        ensures Conclude(n, m, jobs[i].spec, jobs[i].tk, jobs[i].attempt, runs[i]).Ok?
        ensures SameColumn(end.st, Conclude(n, m, jobs[i].spec, jobs[i].tk, jobs[i].attempt, runs[i]).value.st, k)
      {
        var x := jobs[i];
        assert x in jobs && jobs[1..][i - 1] == x && runs[1..][i - 1] == runs[i];
        JobConcludes(n, m, jobs, runs, i);
        ConcludeBlind(n, m1, m, x.spec, x.tk, x.attempt, runs[i]);
        ColumnTrans(end.st, Conclude(n, m1, x.spec, x.tk, x.attempt, runs[i]).value.st,
                    Conclude(n, m, x.spec, x.tk, x.attempt, runs[i]).value.st, k);
      }
      if forall i :: 0 <= i < |jobs| ==> jobs[i].tk.1 != k {
        forall i | 0 <= i < |jobs[1..]| ensures jobs[1..][i].tk.1 != k {
          assert jobs[1..][i] == jobs[i + 1];
        }
        ColumnTrans(end.st, m1.st, m.st, k);
      }
    }
  }

  ghost predicate Occurs(job: Job, run: RunResult, jobs: seq<Job>, runs: seq<RunResult>) {
    |jobs| == |runs| && exists j :: 0 <= j < |jobs| && jobs[j] == job && runs[j] == run
  }

  /** Every job with its result occurs in the other order too. */
  ghost predicate Reordered(jobs: seq<Job>, runs: seq<RunResult>, jobs': seq<Job>, runs': seq<RunResult>) {
    && |jobs| == |runs| && |jobs'| == |runs'|
    && (forall i :: 0 <= i < |jobs| ==> Occurs(jobs[i], runs[i], jobs', runs'))
    && (forall i :: 0 <= i < |jobs'| ==> Occurs(jobs'[i], runs'[i], jobs, runs))
  }

  /** Concluding a batch without Terminals in any order gives the same state for every key. */
  lemma OrderIrrelevant(
    n: Cpn, m: Machine, jobs: seq<Job>, runs: seq<RunResult>, jobs': seq<Job>, runs': seq<RunResult>, k: Key)
    requires WfNet(n) && Mid(n, m, JobPairs(jobs), JobPairs(jobs)) && NoTerminal(jobs)
    requires Mergeable(n, m.st, jobs, runs) && Mergeable(n, m.st, jobs', runs') && Reordered(jobs, runs, jobs', runs')
    ensures MergeJobs(n, m, jobs, runs).Ok? && MergeJobs(n, m, jobs', runs').Ok?
    ensures SameColumn(MergeJobs(n, m, jobs, runs).value.st, MergeJobs(n, m, jobs', runs').value.st, k)
  {
    hide Mid, WfNet, Conclude, SameColumn, Mergeable, MergeJobs, NoTerminal, JobPairs;
    MidContext(n, m, JobPairs(jobs), JobPairs(jobs));
    assert JobPairs(jobs') == JobPairs(jobs) && NoTerminal(jobs') by { SameJobs(jobs, runs, jobs', runs'); }
    MergedColumn(n, m, jobs, runs, k);
    MergedColumn(n, m, jobs', runs', k);
    var a, b := MergeJobs(n, m, jobs, runs).value.st, MergeJobs(n, m, jobs', runs').value.st;
    if i :| 0 <= i < |jobs| && jobs[i].tk.1 == k {
      assert Occurs(jobs[i], runs[i], jobs', runs');
      var j :| 0 <= j < |jobs'| && jobs'[j] == jobs[i] && runs'[j] == runs[i];
      var c := Conclude(n, m, jobs[i].spec, jobs[i].tk, jobs[i].attempt, runs[i]).value.st;
      ColumnSym(b, c, k);
      ColumnTrans(a, c, b, k);
    } else {
      forall j | 0 <= j < |jobs'| ensures jobs'[j].tk.1 != k {
        assert Occurs(jobs'[j], runs'[j], jobs, runs);
      }
      ColumnSym(b, m.st, k);
      ColumnTrans(a, m.st, b, k);
    }
  }

  lemma SameJobs(jobs: seq<Job>, runs: seq<RunResult>, jobs': seq<Job>, runs': seq<RunResult>)
    requires Reordered(jobs, runs, jobs', runs') && NoTerminal(jobs)
    ensures JobPairs(jobs') == JobPairs(jobs) && NoTerminal(jobs')
  {
    forall x | x in jobs ensures x in jobs' {
      var i :| 0 <= i < |jobs| && jobs[i] == x;
      assert Occurs(jobs[i], runs[i], jobs', runs');
    }
    forall x | x in jobs' ensures x in jobs {
      var i :| 0 <= i < |jobs'| && jobs'[i] == x;
      assert Occurs(jobs'[i], runs'[i], jobs, runs);
    }
  }

  /** The same jobs with the same results, in another order. */
  ghost predicate Shuffled(jobs: seq<Job>, runs: seq<RunResult>, jobs': seq<Job>, runs': seq<RunResult>) {
    Reordered(jobs, runs, jobs', runs') && forall i, j :: 0 <= i < j < |jobs'| ==> jobs'[i].tk.1 != jobs'[j].tk.1
  }

  lemma ShuffledMergeable(
    n: Cpn, s: State, jobs: seq<Job>, runs: seq<RunResult>, jobs': seq<Job>, runs': seq<RunResult>)
    requires Mergeable(n, s, jobs, runs) && Shuffled(jobs, runs, jobs', runs')
    ensures Mergeable(n, s, jobs', runs')
  {
    hide Holds;
    forall i | 0 <= i < |jobs'|
      ensures Holds(n, s, jobs'[i].tk, jobs'[i].attempt, runs'[i])
      ensures jobs'[i].tk.0 in n.specs && jobs'[i].spec == n.specs[jobs'[i].tk.0]
    {
      assert Occurs(jobs'[i], runs'[i], jobs, runs);
    }
  }

  /**
   * In every reachable round without a Terminal, merging the results in any other order would give
   * the next turn's state for every key, up to token numbers and queue order.
   */
  lemma RoundOrderIrrelevant(
    n: Cpn, cfg: Config, runner: Runner, ctx: Store, i: nat, m2: Machine, jobs: seq<Job>, runs: seq<RunResult>,
    jobs': seq<Job>, runs': seq<RunResult>, k: Key)
    requires WfNet(n) && Wf(ctx) && Run(n, cfg, runner, ctx, i).Ok? && Drains(cfg, Run(n, cfg, runner, ctx, i).value)
    requires Merges(n, cfg, runner, Run(n, cfg, runner, ctx, i).value, m2, jobs, runs)
    requires NoTerminal(jobs) && Shuffled(jobs, runs, jobs', runs') && Wf(m2.ctx) && |jobs'| == |runs'|
    ensures Run(n, cfg, runner, ctx, i + 1).Ok? && MergeJobs(n, m2, jobs', runs').Ok?
    ensures SameColumn(Run(n, cfg, runner, ctx, i + 1).value.st, MergeJobs(n, m2, jobs', runs').value.st, k)
  {
    hide Mid, WfNet, SameColumn, Mergeable, MergeJobs, NoTerminal, Merges, Reordered, Start, ParallelRound;
    RunSafe(n, cfg, runner, ctx, i);
    var m := Run(n, cfg, runner, ctx, i).value;
    var z, js, rs := RoundJobs(n, cfg, runner, m);
    ShuffledMergeable(n, m2.st, jobs, runs, jobs', runs');
    OrderIrrelevant(n, m2, jobs, runs, jobs', runs', k);
    MergeableShape(n, m2.st, jobs, runs);
    assert Turn(n, cfg, runner, m) == MergeJobs(n, m2, jobs, runs);
  }
}
