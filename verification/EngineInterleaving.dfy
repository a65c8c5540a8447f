/**
 * The worker threads of a parallel round may interleave their context writes in any way. Running
 * them one after another loses nothing: whatever the threads return and however their writes
 * interleave, some runner makes the sequential round return the same and leave the same context.
 */
module EngineInterleaving {
  import opened ContextModel
  import opened Router
  import opened EngineModel

  /** A job of a worker thread that calls the runner. */
  predicate CallsRunner(j: Job) {
    j.run.None? && !Skips(j.spec, j.trigger) && (j.spec.kind.Task? || j.spec.kind.Terminal?)
  }

  /** Settled jobs keep their result, gates succeed, and the threads that call the runner return anything. */
  ghost predicate Returned(jobs: seq<Job>, runs: seq<RunResult>) {
    && |jobs| == |runs|
    && forall i :: 0 <= i < |jobs| && !CallsRunner(jobs[i]) ==>
         if jobs[i].run.Some? then runs[i] == jobs[i].run.value
         else !Skips(jobs[i].spec, jobs[i].trigger) && jobs[i].spec.kind.Gate? && runs[i] == RunResult(Success, Null)
  }

  /** Answers each run as recorded and makes all writes in the one with index `last`. */
  function Script(runs: seq<RunResult>, tick: nat, last: nat, ops: seq<InnerOp>): Runner {
    (spec, attempt, trigger, ctx, t) =>
      if tick <= t < tick + |runs| then
        RunReport(runs[t - tick].outcome, runs[t - tick].payload, if t - tick == last then ops else [], false)
      else RunReport(Success, Null, [], false)
  }

  lemma ScriptedRun(m: Machine, j: Job, runs: seq<RunResult>, tick: nat, last: nat, ops: seq<InnerOp>, x: nat)
    requires Wf(m.ctx) && x < |runs| && (CallsRunner(j) || (j.run.None? && j.spec.kind.Gate?))
    requires !Skips(j.spec, j.trigger) && (!CallsRunner(j) ==> runs[x] == RunResult(Success, Null) && x != last)
    ensures var r := RunAttempt(m, j.spec, j.attempt, j.trigger, Script(runs, tick, last, ops), tick + x);
            r.Ok? && r.value.1 == runs[x] && r.value.0.ctx == (if x == last then Steps(m.ctx, ops) else m.ctx)
  {
    var none: seq<InnerOp> := [];
    assert Steps(m.ctx, none) == m.ctx;
  }

  lemma {:induction false} ScriptedJobs(m: Machine, jobs: seq<Job>, runs: seq<RunResult>, tick: nat, last: nat,
                                        ops: seq<InnerOp>, x: nat)
    requires Wf(m.ctx) && Returned(jobs, runs) && x <= |jobs| && last < |jobs| && CallsRunner(jobs[last])
    ensures var r := RunJobs(Script(runs, tick, last, ops), m, jobs[x..], tick + x);
            && r.Ok? && r.value.1 == runs[x..]
            && r.value.0.ctx == (if x <= last then Steps(m.ctx, ops) else m.ctx)
    decreases |jobs| - x
  {
    hide RunAttempt, Skips, Script, Steps;
    if x < |jobs| {
      var j := jobs[x];
      var runner := Script(runs, tick, last, ops);
      assert jobs[x..][0] == j && jobs[x..][1..] == jobs[x + 1..] && runs[x..] == [runs[x]] + runs[x + 1..];
      var m1 := m;
      if j.run.None? {
        ScriptedRun(m, j, runs, tick, last, ops, x);
        m1 := RunAttempt(m, j.spec, j.attempt, j.trigger, runner, tick + x).value.0;
      }
      ScriptedJobs(m1, jobs, runs, tick, last, ops, x + 1);
    }
  }

  /**
   * For all results the threads of a round return and every order `ops` in which their writes
   * reach the context, there is a runner with which the modelled round returns the same results
   * and leaves the same context.
   */
  lemma ThreadsAreSomeRunner(m: Machine, jobs: seq<Job>, runs: seq<RunResult>, tick: nat, ops: seq<InnerOp>)
      returns (runner: Runner)
    requires Wf(m.ctx) && Returned(jobs, runs) && exists i :: 0 <= i < |jobs| && CallsRunner(jobs[i])
    ensures var r := RunJobs(runner, m, jobs, tick);
            && r.Ok? && r.value.1 == runs && r.value.0.ctx == Steps(m.ctx, ops)
            && r.value.0.st == m.st && r.value.0.router == m.router
  {
    var last :| 0 <= last < |jobs| && CallsRunner(jobs[last]);
    runner := Script(runs, tick, last, ops);
    assert jobs[0..] == jobs && runs[0..] == runs;
    ScriptedJobs(m, jobs, runs, tick, last, ops, 0);
    ScriptedFrame(m, jobs, runs, tick, last, ops);
  }

  lemma {:induction false} JobsKeepRouter(runner: Runner, m: Machine, jobs: seq<Job>, tick: nat)
    requires Wf(m.ctx) && RunJobs(runner, m, jobs, tick).Ok?
    requires forall j :: j in jobs && j.run.None? ==> !j.spec.kind.RouterTo?
    ensures RunJobs(runner, m, jobs, tick).value.0.router == m.router
    decreases |jobs|
  {
    if jobs != [] {
      assert jobs[0] in jobs && forall j :: j in jobs[1..] ==> j in jobs;
      var m1 :=
        if jobs[0].run.Some? then m
        else RunAttempt(m, jobs[0].spec, jobs[0].attempt, jobs[0].trigger, runner, tick).value.0;
      JobsKeepRouter(runner, m1, jobs[1..], tick + 1);
    }
  }

  lemma ScriptedFrame(m: Machine, jobs: seq<Job>, runs: seq<RunResult>, tick: nat, last: nat, ops: seq<InnerOp>)
    requires Wf(m.ctx) && Returned(jobs, runs) && RunJobs(Script(runs, tick, last, ops), m, jobs, tick).Ok?
    ensures RunJobs(Script(runs, tick, last, ops), m, jobs, tick).value.0.router == m.router
  {
    forall j | j in jobs && j.run.None? ensures !j.spec.kind.RouterTo? {
      var i :| 0 <= i < |jobs| && jobs[i] == j;
    }
    JobsKeepRouter(Script(runs, tick, last, ops), m, jobs, tick);
  }

  /** Built jobs are of these kinds, so the threads' results are always as above. */
  lemma {:induction false} BuiltJobsReturn(n: Cpn, runner: Runner, m: Machine, items: seq<ReadyItem>)
    requires Wf(m.ctx) && BuildJobs(n, runner, m, items).Ok?
    ensures forall j :: j in BuildJobs(n, runner, m, items).value.1 && j.run.None? ==>
              !Skips(j.spec, j.trigger) && (CallsRunner(j) || j.spec.kind.Gate?)
    decreases |items|
  {
    hide RunAttempt, Skips, EnsureTrigger;
    if items != [] {
      BuiltJobsReturn(n, runner, BuildJob(n, runner, m, items[0]).value.0, items[1..]);
    }
  }
}
