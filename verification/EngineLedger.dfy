/**
 * The books of a run: what `ExecutionOutput` reports about order, outcomes and counters is what
 * happened. Holds for every net, scheduler and runner, validated or not.
 */
module EngineLedger {
  import opened Prelude
  import opened Net
  import opened ContextModel
  import opened Router
  import opened EngineModel
  import opened EngineQueue
  import opened EngineRuns

  /** How many completions were Cancelled. */
  function Cancels(fired: seq<Firing>): nat {
    if fired == [] then 0
    else Cancels(fired[..|fired| - 1]) + if fired[|fired| - 1].result.outcome == Cancelled then 1 else 0
  }

  /** The outcome of each transition's latest completion. */
  function Latest(fired: seq<Firing>): map<Id, Outcome> {
    if fired == [] then map[]
    else
      var last := fired[|fired| - 1];
      Latest(fired[..|fired| - 1])[last.transition := last.result.outcome]
  }

  /** `map` of every transition of the net to Cancelled. */
  function AllCancelled(n: Cpn): map<Id, Outcome> { map t | t in n.specs :: Cancelled }

  /** The transitions of the completions, one entry each. */
  function Names(fired: seq<Firing>): (r: seq<Id>)
    ensures |r| == |fired| && forall i :: 0 <= i < |r| ==> r[i] == fired[i].transition
  {
    seq(|fired|, i requires 0 <= i < |fired| => fired[i].transition)
  }

  ghost function NameBag(runs: (Id, seq<RunResult>)): multiset<Id> { multiset(seq(|runs.1|, i => runs.0)) }

  ghost function Named(retried: map<Pair, seq<RunResult>>): map<Pair, (Id, seq<RunResult>)> {
    map tk | tk in retried :: (tk.0, retried[tk])
  }

  /** The transitions of the retried attempts, one entry each. */
  ghost function RetryNames(retried: map<Pair, seq<RunResult>>): multiset<Id> { SumBag(Named(retried), NameBag) }

  ghost predicate IsTerminal(n: Cpn, t: Id) { t in n.specs && n.specs[t].kind.Terminal? }

  ghost predicate SkippedIn(fired: seq<Firing>, t: Id) {
    exists j :: 0 <= j < |fired| && fired[j].transition == t && fired[j].result.outcome == Skipped
  }

  /** A Terminal's completion ends the run at once, and nothing else does. */
  ghost predicate StopsAtTerminal(n: Cpn, fired: seq<Firing>, stopped: bool) {
    && (stopped <==> fired != [] && IsTerminal(n, fired[|fired| - 1].transition))
    && forall j :: 0 <= j < |fired| - 1 ==> !IsTerminal(n, fired[j].transition)
  }

  /** Each entry of the order is a completion, a retry, or one of the `open` attempts. */
  ghost predicate Entered(s: State, open: multiset<Id>) {
    && multiset(s.order) == multiset(Names(s.fired)) + RetryNames(s.retried) + open
    && s.retryTotal == |RetryNames(s.retried)|
  }

  /** Outcomes and cancellations are those of the completions; a Terminal cancels what has none. */
  ghost predicate Recorded(n: Cpn, s: State, stopped: bool) {
    && s.cancelTotal == Cancels(s.fired)
    && s.outcomes == if stopped then AllCancelled(n) + Latest(s.fired) else Latest(s.fired)
  }

  /** The context marks what it did before and what was skipped. */
  ghost predicate Marked(skipped: set<string>, marks: set<string>, fired: seq<Firing>) {
    forall t :: t in marks <==> t in skipped || SkippedIn(fired, t)
  }

  /**
   * Every attempt entered in the order has completed its pair, was retried, or is one of the
   * `open` attempts not concluded yet; the other books are those of the completions.
   */
  ghost predicate Ledger(n: Cpn, skipped: set<string>, m: Machine, open: multiset<Id>) {
    && Entered(m.st, open) && Recorded(n, m.st, m.stopped)
    && Marked(skipped, m.ctx.skipped, m.st.fired) && StopsAtTerminal(n, m.st.fired, m.stopped)
  }

  lemma FiredOneMore(fired: seq<Firing>, f: Firing)
    ensures Cancels(fired + [f]) == Cancels(fired) + if f.result.outcome == Cancelled then 1 else 0
    ensures Latest(fired + [f]) == Latest(fired)[f.transition := f.result.outcome]
    ensures Names(fired + [f]) == Names(fired) + [f.transition]
    ensures forall t :: SkippedIn(fired + [f], t)
                        <==> SkippedIn(fired, t) || (t == f.transition && f.result.outcome == Skipped)
  {
    var more := fired + [f];
    assert more[..|fired|] == fired;
    forall t ensures SkippedIn(more, t) <==> SkippedIn(fired, t) || (t == f.transition && f.result.outcome == Skipped) {
      if SkippedIn(fired, t) {
        var j :| 0 <= j < |fired| && fired[j].transition == t && fired[j].result.outcome == Skipped;
        assert more[j] == fired[j];
      }
      assert more[|fired|] == f;
    }
  }

  lemma NameBagMore(t: Id, runs: seq<RunResult>, run: RunResult)
    ensures NameBag((t, runs + [run])) == NameBag((t, runs)) + multiset{t}
    ensures NameBag((t, [])) == multiset{}
  {
    assert seq(|runs + [run]|, i => t) == seq(|runs|, i => t) + [t];
  }

  lemma RetriedOneMore(retried: map<Pair, seq<RunResult>>, tk: Pair, run: RunResult)
    ensures RetryNames(retried[tk := GetOr(retried, tk, []) + [run]]) == RetryNames(retried) + multiset{tk.0}
  {
    var before := GetOr(retried, tk, []);
    var v := (tk.0, before + [run]);
    assert Named(retried[tk := before + [run]]) == Named(retried)[tk := v];
    SumBagSet(Named(retried), NameBag, tk, v);
    NameBagMore(tk.0, before, run);
    hide NameBag;
    if tk in retried {
      SumBagPeel(Named(retried), NameBag, tk);
    } else {
      assert Named(retried) - {tk} == Named(retried);
    }
  }

  lemma Terminates(n: Cpn, fired: seq<Firing>, f: Firing)
    requires StopsAtTerminal(n, fired, false)
    ensures StopsAtTerminal(n, fired + [f], IsTerminal(n, f.transition))
  {
    forall j | 0 <= j < |fired| ensures !IsTerminal(n, fired[j].transition) {
      assert j == |fired| - 1 || j < |fired| - 1;
    }
  }

  lemma CompletedFields(n: Cpn, s: State, tk: Pair, run: RunResult)
    requires Complete(n, s, tk.0, tk.1, run).Ok?
    ensures var s' := Complete(n, s, tk.0, tk.1, run).value;
            && s'.fired == s.fired + [FiringOf(s, tk.0, tk.1, run)]
            && s'.order == s.order && s'.retried == s.retried && s'.retryTotal == s.retryTotal
            && s'.cancelTotal == s.cancelTotal + (if run.outcome == Cancelled then 1 else 0)
            && s'.outcomes == s.outcomes[tk.0 := run.outcome]
  {
    hide EmitArcs;
    var f := FiringOf(s, tk.0, tk.1, run);
    EmitFrames(n, MarkCompleted(s, f), f, Out(n, tk.0));
  }

  /** What completing changes of the books. */
  lemma CompleteFields(n: Cpn, m: Machine, spec: ExecSpec, tk: Pair, attempt: nat, run: RunResult)
    requires Wf(m.ctx) && !(Retryable(run.outcome) && attempt + 1 <= spec.maxRetries)
    requires Conclude(n, m, spec, tk, attempt, run).Ok?
    ensures var m' := Conclude(n, m, spec, tk, attempt, run).value;
            && m'.st.fired == m.st.fired + [FiringOf(m.st, tk.0, tk.1, run)]
            && m'.st.order == m.st.order && m'.st.retried == m.st.retried && m'.st.retryTotal == m.st.retryTotal
            && m'.st.cancelTotal == m.st.cancelTotal + (if run.outcome == Cancelled then 1 else 0)
            && m'.stopped == (m.stopped || spec.kind.Terminal?)
            && m'.ctx.skipped == (if run.outcome == Skipped then m.ctx.skipped + {tk.0} else m.ctx.skipped)
            && m'.st.outcomes == (if spec.kind.Terminal? then AllCancelled(n) + m.st.outcomes[tk.0 := run.outcome]
                                  else m.st.outcomes[tk.0 := run.outcome])
  {
    CompletedFields(n, m.st, tk, run);
    hide Complete, FiringOf;
  }

  lemma EnteredCompletes(s: State, s': State, f: Firing, open: multiset<Id>)
    requires Entered(s, open) && f.transition in open
    requires s'.fired == s.fired + [f] && s'.order == s.order
    requires s'.retried == s.retried && s'.retryTotal == s.retryTotal
    ensures Entered(s', open - multiset{f.transition})
  {
    FiredOneMore(s.fired, f);
    hide RetryNames;
  }

  lemma CompleteBooks(n: Cpn, skipped: set<string>, m: Machine, spec: ExecSpec, tk: Pair, attempt: nat, run: RunResult,
                      open: multiset<Id>)
    requires Wf(m.ctx) && Ledger(n, skipped, m, open) && tk.0 in open && !m.stopped
    requires tk.0 in n.specs && spec == n.specs[tk.0] && !(Retryable(run.outcome) && attempt + 1 <= spec.maxRetries)
    requires Conclude(n, m, spec, tk, attempt, run).Ok?
    ensures Ledger(n, skipped, Conclude(n, m, spec, tk, attempt, run).value, open - multiset{tk.0})
  {
    var f := FiringOf(m.st, tk.0, tk.1, run);
    CompleteFields(n, m, spec, tk, attempt, run);
    hide Conclude, Cancels, Latest, StopsAtTerminal, SkippedIn, AllCancelled, Retryable, Entered;
    FiredOneMore(m.st.fired, f);
    Terminates(n, m.st.fired, f);
    EnteredCompletes(m.st, Conclude(n, m, spec, tk, attempt, run).value.st, f, open);
  }

  lemma RetryFields(n: Cpn, m: Machine, spec: ExecSpec, tk: Pair, attempt: nat, run: RunResult)
    requires Wf(m.ctx) && Retryable(run.outcome) && attempt + 1 <= spec.maxRetries
    requires Conclude(n, m, spec, tk, attempt, run).Ok?
    ensures var m' := Conclude(n, m, spec, tk, attempt, run).value;
            && m'.st.order == m.st.order && m'.st.fired == m.st.fired && m'.st.outcomes == m.st.outcomes
            && m'.st.retried == m.st.retried[tk := GetOr(m.st.retried, tk, []) + [run]]
            && m'.st.retryTotal == m.st.retryTotal + 1 && m'.st.cancelTotal == m.st.cancelTotal
            && m'.ctx == m.ctx && m'.stopped == m.stopped
  {
  }

  lemma RetryBooks(n: Cpn, skipped: set<string>, m: Machine, spec: ExecSpec, tk: Pair, attempt: nat, run: RunResult,
                   open: multiset<Id>)
    requires Wf(m.ctx) && Ledger(n, skipped, m, open) && tk.0 in open && !m.stopped
    requires Retryable(run.outcome) && attempt + 1 <= spec.maxRetries && Conclude(n, m, spec, tk, attempt, run).Ok?
    ensures Ledger(n, skipped, Conclude(n, m, spec, tk, attempt, run).value, open - multiset{tk.0})
  {
    RetryFields(n, m, spec, tk, attempt, run);
    RetriedOneMore(m.st.retried, tk, run);
    hide Conclude, Recorded, Marked, RetryNames, StopsAtTerminal, Names;
  }

  /** Concluding an attempt settles it: it counts as a retry or as a completion, never as both. */
  lemma ConcludeBooks(n: Cpn, skipped: set<string>, m: Machine, spec: ExecSpec, tk: Pair, attempt: nat, run: RunResult,
                      open: multiset<Id>)
    requires Wf(m.ctx) && Ledger(n, skipped, m, open) && tk.0 in open && !m.stopped
    requires tk.0 in n.specs && spec == n.specs[tk.0] && Conclude(n, m, spec, tk, attempt, run).Ok?
    ensures Ledger(n, skipped, Conclude(n, m, spec, tk, attempt, run).value, open - multiset{tk.0})
  {
    hide Ledger, Conclude;
    if Retryable(run.outcome) && attempt + 1 <= spec.maxRetries {
      RetryBooks(n, skipped, m, spec, tk, attempt, run, open);
    } else {
      CompleteBooks(n, skipped, m, spec, tk, attempt, run, open);
    }
  }

  /** The books after an attempt of the pair has been entered in the order. */
  lemma BeginBooks(n: Cpn, skipped: set<string>, m: Machine, t: Id, k: Key, open: multiset<Id>)
    requires Ledger(n, skipped, m, open) && EnsureTrigger(n, m.st, t, k).Ok?
    ensures Ledger(n, skipped, Started(m, EnsureTrigger(n, m.st, t, k).value.0, t), open + multiset{t})
  {
    hide Cancels, Latest, RetryNames, StopsAtTerminal, SkippedIn, ConsumeArcs, IsTransitionReady, Names;
  }

  /** An attempt leaves the books alone: only a completion marks a transition as skipped. */
  lemma AttemptBooks(n: Cpn, skipped: set<string>, m: Machine, spec: ExecSpec, a: nat, trigger: Trigger, runner: Runner,
                     tick: nat, open: multiset<Id>)
    requires Wf(m.ctx) && Ledger(n, skipped, m, open) && RunAttempt(m, spec, a, trigger, runner, tick).Ok?
    ensures var m' := RunAttempt(m, spec, a, trigger, runner, tick).value.0;
            Ledger(n, skipped, m', open) && m'.stopped == m.stopped && m'.st == m.st
  {
    AttemptMarks(m, spec, a, trigger, runner, tick);
    hide RunAttempt, Cancels, Latest, RetryNames, StopsAtTerminal, SkippedIn, Names;
  }

  lemma AttemptMarks(m: Machine, spec: ExecSpec, a: nat, trigger: Trigger, runner: Runner, tick: nat)
    requires Wf(m.ctx) && RunAttempt(m, spec, a, trigger, runner, tick).Ok?
    ensures RunAttempt(m, spec, a, trigger, runner, tick).value.0.ctx.skipped == m.ctx.skipped
  {
    if !Skips(spec, trigger) {
      match spec.kind
      case RouterTo(subgraph) =>
        RouterIsAtomic(m.ctx, subgraph, m.router, InSubgraph(runner, spec, a, trigger, tick), spec.timeoutMs);
      case Gate =>
      case _ =>
        var ops := runner(spec, a, trigger, m.ctx, tick).ops;
        assert forall op :: op in ops ==> Inner(op);
        InnerStepsFrame(m.ctx, ops);
    }
  }

  lemma SameBooks(n: Cpn, skipped: set<string>, m: Machine, z: Machine, open: multiset<Id>)
    requires Ledger(n, skipped, m, open)
    requires z == m.(batch := z.batch, st := m.st.(ready := z.st.ready, readySet := z.st.readySet))
    ensures Ledger(n, skipped, z, open)
  {
    hide Cancels, Latest, RetryNames, StopsAtTerminal, SkippedIn, Names;
  }

  lemma ItemBooks(n: Cpn, runner: Runner, skipped: set<string>, m: Machine, item: ReadyItem)
    requires Wf(m.ctx) && Ledger(n, skipped, m, multiset{}) && !m.stopped
    ensures var r := ProcessItem(n, runner, m, item); r.Ok? ==> Ledger(n, skipped, r.value, multiset{})
  {
    hide EnsureTrigger, RunAttempt, Conclude, Ledger, IsDone;
    var tk := (item.transition, item.key);
    var m0 := m.(st := m.st.(readySet := m.st.readySet - {tk}));
    SameBooks(n, skipped, m, m0, multiset{});
    if ProcessItem(n, runner, m, item).Ok? && !IsDone(m0.st.completedKeys, tk.0, tk.1) {
      BeginBooks(n, skipped, m0, tk.0, tk.1, multiset{});
      var (s1, trigger) := EnsureTrigger(n, m0.st, tk.0, tk.1).value;
      var m1 := Started(m0, s1, tk.0);
      var attempt := GetOr(m0.st.attempts, tk, 0);
      assert multiset{} + multiset{tk.0} == multiset{tk.0} && multiset{tk.0} - multiset{tk.0} == multiset{};
      AttemptBooks(n, skipped, m1, n.specs[tk.0], attempt, trigger, runner, |s1.order|, multiset{tk.0});
      var (m2, run) := RunAttempt(m1, n.specs[tk.0], attempt, trigger, runner, |s1.order|).value;
      ConcludeBooks(n, skipped, m2, n.specs[tk.0], tk, attempt, run, multiset{tk.0});
    }
  }

  function JobNames(jobs: seq<Job>): (r: seq<Id>)
    ensures |r| == |jobs| && forall i :: 0 <= i < |r| ==> r[i] == jobs[i].tk.0
  {
    seq(|jobs|, i requires 0 <= i < |jobs| => jobs[i].tk.0)
  }

  lemma JobNamesAppend(x: seq<Job>, y: seq<Job>)
    ensures multiset(JobNames(x + y)) == multiset(JobNames(x)) + multiset(JobNames(y))
  {
    assert JobNames(x + y) == JobNames(x) + JobNames(y);
  }

  /** The jobs carry the specs of their transitions. */
  predicate Specified(n: Cpn, jobs: seq<Job>) {
    forall j :: j in jobs ==> j.tk.0 in n.specs && j.spec == n.specs[j.tk.0]
  }

  lemma BuildBooks(n: Cpn, runner: Runner, skipped: set<string>, m: Machine, item: ReadyItem, open: multiset<Id>)
    requires Wf(m.ctx) && Ledger(n, skipped, m, open)
    ensures var r := BuildJob(n, runner, m, item);
            r.Ok? ==> && Ledger(n, skipped, r.value.0, open + multiset(JobNames(r.value.1)))
                      && r.value.0.stopped == m.stopped && Specified(n, r.value.1)
  {
    hide EnsureTrigger, RunAttempt, Skips, Ledger, IsDone;
    var tk := (item.transition, item.key);
    assert open + multiset(JobNames([])) == open;
    if BuildJob(n, runner, m, item).Ok? && !IsDone(m.st.completedKeys, tk.0, tk.1) {
      BeginBooks(n, skipped, m, tk.0, tk.1, open);
      var (s1, trigger) := EnsureTrigger(n, m.st, tk.0, tk.1).value;
      var m1 := Started(m, s1, tk.0);
      var spec, attempt := n.specs[tk.0], GetOr(m.st.attempts, tk, 0);
      assert JobNames(BuildJob(n, runner, m, item).value.1) == [tk.0];
      if Skips(spec, trigger) || spec.kind.RouterTo? {
        AttemptBooks(n, skipped, m1, spec, attempt, trigger, runner, |s1.order|, open + multiset{tk.0});
      }
    }
  }

  lemma {:induction false} BuildAllBooks(n: Cpn, runner: Runner, skipped: set<string>, m: Machine,
                                         items: seq<ReadyItem>, open: multiset<Id>)
    requires Wf(m.ctx) && Ledger(n, skipped, m, open)
    ensures var r := BuildJobs(n, runner, m, items);
            r.Ok? ==> && Ledger(n, skipped, r.value.0, open + multiset(JobNames(r.value.1)))
                      && r.value.0.stopped == m.stopped && Specified(n, r.value.1)
    decreases |items|
  {
    hide BuildJob, Ledger;
    if items == [] {
      assert open + multiset(JobNames([])) == open;
    } else {
      BuildBooks(n, runner, skipped, m, items[0], open);
      if BuildJob(n, runner, m, items[0]).Ok? {
        var (m1, first) := BuildJob(n, runner, m, items[0]).value;
        BuildAllBooks(n, runner, skipped, m1, items[1..], open + multiset(JobNames(first)));
        if BuildJobs(n, runner, m1, items[1..]).Ok? {
          var rest := BuildJobs(n, runner, m1, items[1..]).value.1;
          JobNamesAppend(first, rest);
          hide JobNames;
          assert open + multiset(JobNames(first)) + multiset(JobNames(rest)) == open + multiset(JobNames(first + rest));
        }
      }
    }
  }

  lemma {:induction false} RunAllBooks(n: Cpn, runner: Runner, skipped: set<string>, m: Machine, jobs: seq<Job>,
                                       tick: nat, open: multiset<Id>)
    requires Wf(m.ctx) && Ledger(n, skipped, m, open)
    ensures var r := RunJobs(runner, m, jobs, tick);
            r.Ok? ==> Ledger(n, skipped, r.value.0, open) && r.value.0.stopped == m.stopped
    decreases |jobs|
  {
    hide RunAttempt, Ledger;
    if jobs != [] {
      var j := jobs[0];
      var m1 := m;
      if j.run.None? {
        if RunAttempt(m, j.spec, j.attempt, j.trigger, runner, tick).Err? {
          return;
        }
        AttemptBooks(n, skipped, m, j.spec, j.attempt, j.trigger, runner, tick, open);
        m1 := RunAttempt(m, j.spec, j.attempt, j.trigger, runner, tick).value.0;
      }
      RunAllBooks(n, runner, skipped, m1, jobs[1..], tick + 1, open);
    }
  }

  lemma HeadName(jobs: seq<Job>)
    requires jobs != []
    ensures jobs[0].tk.0 in multiset(JobNames(jobs))
    ensures multiset(JobNames(jobs)) - multiset{jobs[0].tk.0} == multiset(JobNames(jobs[1..]))
  {
    assert JobNames(jobs) == [jobs[0].tk.0] + JobNames(jobs[1..]);
  }

  lemma {:induction false} MergeBooks(n: Cpn, skipped: set<string>, m: Machine, jobs: seq<Job>, runs: seq<RunResult>)
    requires Wf(m.ctx) && |jobs| == |runs| && Specified(n, jobs) && !m.stopped
    requires Ledger(n, skipped, m, multiset(JobNames(jobs)))
    ensures var r := MergeJobs(n, m, jobs, runs);
            r.Ok? ==> exists open :: Ledger(n, skipped, r.value, open) && (r.value.stopped || open == multiset{})
    decreases |jobs|
  {
    hide Conclude, Ledger;
    if jobs == [] {
      assert multiset(JobNames(jobs)) == multiset{};
      assert Ledger(n, skipped, m, multiset{});
    } else {
      var j := jobs[0];
      HeadName(jobs);
      assert j in jobs && forall x :: x in jobs[1..] ==> x in jobs;
      hide JobNames;
      if Conclude(n, m, j.spec, j.tk, j.attempt, runs[0]).Ok? {
        ConcludeBooks(n, skipped, m, j.spec, j.tk, j.attempt, runs[0], multiset(JobNames(jobs)));
        var m1 := Conclude(n, m, j.spec, j.tk, j.attempt, runs[0]).value;
        if m1.stopped {
          assert Ledger(n, skipped, m1, multiset(JobNames(jobs[1..])));
        } else {
          MergeBooks(n, skipped, m1, jobs[1..], runs[1..]);
        }
      }
    }
  }

  lemma RoundBooks(n: Cpn, cfg: Config, runner: Runner, skipped: set<string>, m: Machine)
    requires Wf(m.ctx) && Ledger(n, skipped, m, multiset{}) && !m.stopped
    ensures var r := ParallelRound(n, cfg, runner, m);
            r.Ok? ==> exists open :: Ledger(n, skipped, r.value, open) && (r.value.stopped || open == multiset{})
  {
    hide BuildJobs, RunJobs, MergeJobs, ParallelBatch, Ledger, Specified;
    if ParallelRound(n, cfg, runner, m).Ok? {
      var batch := ParallelBatch(m.st.ready, cfg.maxConcurrency);
      var m0 := Emptied(m);
      SameBooks(n, skipped, m, m0, multiset{});
      BuildAllBooks(n, runner, skipped, m0, batch, multiset{});
      var (m1, jobs) := BuildJobs(n, runner, m0, batch).value;
      assert multiset{} + multiset(JobNames(jobs)) == multiset(JobNames(jobs));
      RunAllBooks(n, runner, skipped, m1, jobs, |m1.st.order|, multiset(JobNames(jobs)));
      var (m2, runs) := RunJobs(runner, m1, jobs, |m1.st.order|).value;
      MergeBooks(n, skipped, m2, jobs, runs);
    }
  }

  lemma {:induction false} RootsBooks(n: Cpn, s: State, ids: seq<Id>)
    requires EnqueueRoots(n, s, ids).Ok?
    ensures var r := EnqueueRoots(n, s, ids).value; r == s.(ready := r.ready, readySet := r.readySet)
    decreases |ids|
  {
    if ids != [] {
      if In(n, ids[0]) != [] {
        RootsBooks(n, s, ids[1..]);
      } else {
        RootsBooks(n, PushReady(n, s, ids[0], RootKey(n, ids[0]), false).value, ids[1..]);
      }
    }
  }

  /**
   * At every turn of every run the execution order has one entry for each completion and each
   * retry, the counters count the retries and the Cancelled completions, the outcome map holds
   * each transition's latest completion, and the context marks exactly what was skipped. The run
   * ends early exactly with a Terminal's completion, which marks Cancelled what never completed;
   * only a parallel round it cuts short leaves attempts unaccounted for.
   */
  lemma {:induction false} RunBooks(n: Cpn, cfg: Config, runner: Runner, ctx: Store, i: nat)
    requires Wf(ctx) && Run(n, cfg, runner, ctx, i).Ok?
    ensures var m := Run(n, cfg, runner, ctx, i).value;
            exists open ::
              Ledger(n, ctx.skipped, m, open) && (!m.stopped || cfg.maxConcurrency <= 1 ==> open == multiset{})
  {
    hide Ledger, ProcessItem, ParallelRound, NextBatch, EnqueueRoots;
    if i == 0 {
      RootsBooks(n, Initial(n), n.ids);
      FreshBooks(n, Start(n, ctx).value);
    } else {
      RunBooks(n, cfg, runner, ctx, i - 1);
      var m := Run(n, cfg, runner, ctx, i - 1).value;
      if !Halted(m) {
        TurnBooks(n, cfg, runner, ctx.skipped, m);
      }
    }
  }

  lemma FreshBooks(n: Cpn, m: Machine)
    requires m.st == Initial(n).(ready := m.st.ready, readySet := m.st.readySet) && !m.stopped
    ensures Ledger(n, m.ctx.skipped, m, multiset{})
  {
    assert Names([]) == [];
  }

  lemma TurnBooks(n: Cpn, cfg: Config, runner: Runner, skipped: set<string>, m: Machine)
    requires Wf(m.ctx) && Ledger(n, skipped, m, multiset{}) && !m.stopped
    ensures var r := Turn(n, cfg, runner, m);
            r.Ok? ==> exists open :: Ledger(n, skipped, r.value, open)
                                     && (!r.value.stopped || cfg.maxConcurrency <= 1 ==> open == multiset{})
  {
    hide Ledger, ProcessItem, ParallelRound, NextBatch;
    if Turn(n, cfg, runner, m).Ok? {
      if m.batch != [] {
        SameBooks(n, skipped, m, m.(batch := m.batch[1..]), multiset{});
        ItemBooks(n, runner, skipped, m.(batch := m.batch[1..]), m.batch[0]);
      } else if cfg.maxConcurrency <= 1 {
        SameBooks(n, skipped, m, Turn(n, cfg, runner, m).value, multiset{});
      } else {
        RoundBooks(n, cfg, runner, skipped, m);
      }
    }
  }
}
