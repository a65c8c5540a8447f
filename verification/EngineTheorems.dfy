/** What the invariants say about whole runs. */
module EngineTheorems {
  import opened Prelude
  import opened Net
  import opened ContextModel
  import opened Router
  import opened EngineModel
  import opened EngineTokens
  import opened EngineSafety
  import opened EngineScheduling
  import opened EngineRuns

  /** The state after `i` turns of a run. */
  ghost function StateAt(n: Cpn, cfg: Config, runner: Runner, ctx: Store, i: nat): State
    requires Wf(ctx) && Run(n, cfg, runner, ctx, i).Ok?
  {
    Run(n, cfg, runner, ctx, i).value.st
  }

  lemma ReachedSafe(n: Cpn, cfg: Config, runner: Runner, ctx: Store, i: nat)
    requires WfNet(n) && Wf(ctx) && Run(n, cfg, runner, ctx, i).Ok?
    ensures Safe(n, StateAt(n, cfg, runner, ctx, i), {}) && Settled(n, StateAt(n, cfg, runner, ctx, i))
  {
    hide Safe, Settled, Run;
    RunSafe(n, cfg, runner, ctx, i);
    InvSafe(n, Run(n, cfg, runner, ctx, i).value);
  }

  lemma InvSafe(n: Cpn, m: Machine)
    requires WfNet(n) && Inv(n, m)
    ensures Safe(n, m.st, {}) && Settled(n, m.st)
  {
    if !m.stopped {
      MidSafe(n, m, {}, {});
    }
  }

  lemma MidSafe(n: Cpn, m: Machine, fly: set<Pair>, paid: set<Pair>)
    requires WfNet(n) && Mid(n, m, fly, paid)
    ensures Safe(n, m.st, fly) && Settled(n, m.st)
  {
  }

  // --------------------------------------------------------------- the keys of a run

  lemma Cancel(p: string, a: string, b: string)
    ensures p + a == p + b <==> a == b
  {
    if p + a == p + b {
      assert a == (p + a)[|p|..] && b == (p + b)[|p|..];
    }
  }

  lemma CancelEnd(a: string, b: string, e: string)
    ensures a + e == b + e <==> a == b
  {
    if a + e == b + e {
      assert a == (a + e)[..|a|] && b == (b + e)[..|b|];
    }
  }

  /**
   * Two roots run under one key exactly if they are in one group, or are one root, or one has a
   * group and the other, without one, is named to look like it.
   */
  lemma RootKeysMeet(n: Cpn, t: Id, u: Id)
    requires t in n.specs && u in n.specs
    ensures RootKey(n, t) == RootKey(n, u) <==>
            match (n.specs[t].logicalGroup, n.specs[u].logicalGroup)
            case (Some(g), Some(h)) => g == h
            case (None, None) => t == u
            case (Some(g), None) => "group:" + g == u + ":root"
            case (None, Some(h)) => "group:" + h == t + ":root"
  {
    forall x | x in n.specs
      ensures RootKey(n, x) == n.execId + ":" + match n.specs[x].logicalGroup
                                                case Some(g) => "group:" + g
                                                case None => x + ":root"
    {
      if n.specs[x].logicalGroup.Some? {
        var g := n.specs[x].logicalGroup.value;
        assert n.execId + ":group:" + g == n.execId + ":" + ("group:" + g);
      } else {
        assert n.execId + ":" + x + ":root" == n.execId + ":" + (x + ":root");
      }
    }
    hide RootKey;
    var gt := match n.specs[t].logicalGroup case Some(g) => "group:" + g case None => t + ":root";
    var gu := match n.specs[u].logicalGroup case Some(g) => "group:" + g case None => u + ":root";
    Cancel(n.execId + ":", gt, gu);
    if n.specs[t].logicalGroup.Some? && n.specs[u].logicalGroup.Some? {
      Cancel("group:", n.specs[t].logicalGroup.value, n.specs[u].logicalGroup.value);
    }
    CancelEnd(t, u, ":root");
  }

  // ------------------------------------------------- at-most-once completion, retries

  /**
   * In every run each (transition, key) completes at most once, under a root's key, after at most
   * `max_retries` failed attempts; it completes as Failure or Timeout only when all are used up.
   */
  lemma CompletesAtMostOnce(n: Cpn, cfg: Config, runner: Runner, ctx: Store, i: nat)
    requires WfNet(n) && Wf(ctx) && Run(n, cfg, runner, ctx, i).Ok?
    ensures var s := StateAt(n, cfg, runner, ctx, i);
            && (forall x, y :: 0 <= x < y < |s.fired| ==> PairOf(s.fired[x]) != PairOf(s.fired[y]))
            && (forall x :: 0 <= x < |s.fired| ==>
                  var f := s.fired[x];
                  && f.transition in n.specs && f.key in RootKeys(n)
                  && |f.retried| <= n.specs[f.transition].maxRetries
                  && (forall r :: r in f.retried ==> r.outcome == Failure || r.outcome == Timeout)
                  && (f.result.outcome == Failure || f.result.outcome == Timeout ==>
                        |f.retried| == n.specs[f.transition].maxRetries))
  {
    hide WfNet, Run, ReadyInv, TokenInv, CacheInv, DoneInv, TriesInv, BagInv, LateInv, Settled, InputOk, Skips;
    ReachedSafe(n, cfg, runner, ctx, i);
    var s := StateAt(n, cfg, runner, ctx, i);
    forall x | 0 <= x < |s.fired| ensures FiringOk(n, s.fired[x]) {}
  }

  // ------------------------------------------------------------- token conservation

  ghost function OutputArcs(n: Cpn, fired: seq<Firing>): nat {
    if fired == [] then 0
    else OutputArcs(n, fired[..|fired| - 1]) + |Out(n, fired[|fired| - 1].transition)|
  }

  lemma {:induction false} MintsCount(n: Cpn, fired: seq<Firing>)
    ensures |Mints(n, fired)| == OutputArcs(n, fired)
  {
    if fired != [] {
      MintsCount(n, fired[..|fired| - 1]);
    }
  }

  lemma MintedOnce(n: Cpn, fired: seq<Firing>, token: Token)
    ensures Minted(n, fired, |Mints(n, fired)|)[token] <= 1
  {
    var m := Mints(n, fired);
    assert m[..|m|] == m;
    forall i, j | 0 <= i < j < |m| ensures MintTokens(m)[i] != MintTokens(m)[j] {
      MintFacts(n, fired, i);
      MintFacts(n, fired, j);
    }
    DistinctOnce(MintTokens(m), token);
  }

  lemma ConservedState(n: Cpn, s: State)
    requires BagInv(n, s.placeTokens, s.cache, s.fired, s.late, s.tokenSequence) && Settled(n, s)
    ensures s.tokenSequence == |Resident(s.placeTokens)| + |Cached(s.cache)| + |Consumed(s.fired)| + |s.late|
    ensures s.tokenSequence == OutputArcs(n, s.fired)
    ensures forall token ::
              Resident(s.placeTokens)[token] + Cached(s.cache)[token] + Consumed(s.fired)[token]
              + multiset(s.late)[token] <= 1
  {
    hide Mints;
    MintsCount(n, s.fired);
    assert |Minted(n, s.fired, s.tokenSequence)| == s.tokenSequence;
    forall token
      ensures Resident(s.placeTokens)[token] + Cached(s.cache)[token] + Consumed(s.fired)[token]
              + multiset(s.late)[token] <= 1
    {
      MintedOnce(n, s.fired, token);
    }
  }

  /**
   * In every state of every run the token counter equals tokens waiting, held, consumed and
   * dropped, and also the output arcs of the completed pairs; and no token (so no sequence
   * number) is in two of these accounts, or twice in one.
   */
  lemma Conservation(n: Cpn, cfg: Config, runner: Runner, ctx: Store, i: nat)
    requires WfNet(n) && Wf(ctx) && Run(n, cfg, runner, ctx, i).Ok?
    ensures var s := StateAt(n, cfg, runner, ctx, i);
            && s.tokenSequence == |Resident(s.placeTokens)| + |Cached(s.cache)| + |Consumed(s.fired)| + s.lateTotal
            && s.tokenSequence == OutputArcs(n, s.fired)
            && forall token ::
                 Resident(s.placeTokens)[token] + Cached(s.cache)[token] + Consumed(s.fired)[token]
                 + multiset(s.late)[token] <= 1
  {
    hide WfNet, Run, ReadyInv, TokenInv, CacheInv, FiredInv, DoneInv, TriesInv, LateInv, BagInv, Settled;
    ReachedSafe(n, cfg, runner, ctx, i);
    ConservedState(n, StateAt(n, cfg, runner, ctx, i));
  }

  /** A dropped token's consumer has completed that key. */
  lemma DroppedOnlyLate(n: Cpn, cfg: Config, runner: Runner, ctx: Store, i: nat, token: Token)
    requires WfNet(n) && Wf(ctx) && Run(n, cfg, runner, ctx, i).Ok? && token in StateAt(n, cfg, runner, ctx, i).late
    ensures var s := StateAt(n, cfg, runner, ctx, i);
            exists p :: (p in n.graph.consumer && IsDone(s.completedKeys, n.graph.consumer[p], token.key)
                         && MintedAt(n, s.fired, s.tokenSequence, p, token, |s.fired|))
  {
    hide WfNet, Run, ReadyInv, TokenInv, CacheInv, FiredInv, DoneInv, TriesInv, BagInv, Settled;
    ReachedSafe(n, cfg, runner, ctx, i);
  }

  // --------------------------------------------------- causality and failure propagation

  /**
   * The firing with index `i` made the token of the input: for that place, under its own key, with
   * the payload and the outcome it ended with, and under its own name and logical group.
   */
  ghost predicate MadeBy(n: Cpn, s: State, i: nat, input: TriggerInput) {
    && i < |s.fired| && s.fired[i].transition in n.specs
    && var (f, token, group) := (s.fired[i], input.token, n.specs[s.fired[i].transition].logicalGroup);
    && (exists a :: a in Out(n, f.transition) && a.place == input.place)
    && token.key == f.key && token.payload == f.result.payload && token.meta.outcome == f.result.outcome
    && token.meta.transition == f.transition && token.meta.execId == n.execId
    && token.meta.group == (if group.Some? then group.value else "default")
    && 1 <= token.meta.sequence <= s.tokenSequence
    && f.transition in s.keyedOutcomes && f.key in s.keyedOutcomes[f.transition]
    && s.keyedOutcomes[f.transition][f.key] == token.meta.outcome
  }

  /** Firing `i` produced a token that firing `j` consumed. */
  ghost predicate Feeds(n: Cpn, s: State, i: nat, j: nat) {
    j < |s.fired| && exists input :: input in s.fired[j].inputs && MadeBy(n, s, i, input)
  }

  /** One of the first `bound` firings made the token. */
  ghost predicate Caused(n: Cpn, s: State, input: TriggerInput, bound: nat) {
    exists i: nat :: i < bound && MadeBy(n, s, i, input)
  }

  lemma FiringKept(n: Cpn, s: State, fly: set<Pair>, i: nat)
    requires Safe(n, s, fly) && i < |s.fired|
    ensures var f := s.fired[i];
            && f.transition in n.specs
            && f.transition in s.keyedOutcomes && f.key in s.keyedOutcomes[f.transition]
            && s.keyedOutcomes[f.transition][f.key] == f.result.outcome
  {
    hide TokenInv, CacheInv, TriesInv, LateInv, BagInv, ReadyInv, InputOk;
    assert FiringOk(n, s.fired[i]);
    assert IsDone(s.completedKeys, s.fired[i].transition, s.fired[i].key);
  }

  lemma MintMadeBy(n: Cpn, s: State, fly: set<Pair>, input: TriggerInput, bound: nat)
    requires Safe(n, s, fly) && MintedAt(n, s.fired, s.tokenSequence, input.place, input.token, bound)
    ensures Caused(n, s, input, bound)
  {
    hide Safe;
    var q := input.token.meta.sequence - 1;
    MintFacts(n, s.fired, q);
    var i := Mints(n, s.fired)[q].origin;
    FiringKept(n, s, fly, i);
    assert MadeBy(n, s, i, input);
  }

  lemma WaitingCaused(n: Cpn, s: State, p: Id, k: Key, token: Token)
    requires Safe(n, s, {}) && token in Tokens(s.placeTokens, p, k)
    ensures token.key == k && Caused(n, s, TriggerInput(p, None, token), |s.fired|)
  {
    hide MadeBy, MintedAt, ReadyInv, CacheInv, FiredInv, DoneInv, TriesInv, BagInv, LateInv, Caused, Tokens;
    MintMadeBy(n, s, {}, TriggerInput(p, None, token), |s.fired|);
  }

  lemma HeldCaused(n: Cpn, s: State, tk: Pair, input: TriggerInput)
    requires Safe(n, s, {}) && tk in s.cache && input in s.cache[tk]
    ensures input.token.key == tk.1 && Caused(n, s, input, |s.fired|)
  {
    hide MadeBy, MintedAt, ReadyInv, TokenInv, FiredInv, DoneInv, TriesInv, BagInv, LateInv, Caused;
    assert InputOk(n, s.fired, s.tokenSequence, tk, input, |s.fired|);
    MintMadeBy(n, s, {}, input, |s.fired|);
  }

  lemma ConsumedCaused(n: Cpn, s: State, j: nat, input: TriggerInput)
    requires Safe(n, s, {}) && j < |s.fired| && input in s.fired[j].inputs
    ensures input.token.key == s.fired[j].key && Caused(n, s, input, j)
  {
    hide MadeBy, MintedAt, ReadyInv, TokenInv, CacheInv, DoneInv, TriesInv, BagInv, LateInv, Caused;
    assert InputOk(n, s.fired, s.tokenSequence, PairOf(s.fired[j]), input, j);
    MintMadeBy(n, s, {}, input, j);
  }

  /**
   * Causality, in every state of every run: each token that waits at a place, is held by a running
   * pair or was consumed by a completed one was made for that place by a firing under the same key,
   * and carries the payload, the final outcome, the name and the group of that firing. What a
   * firing consumed was made by an earlier one.
   */
  lemma Causality(n: Cpn, cfg: Config, runner: Runner, ctx: Store, turn: nat)
    requires WfNet(n) && Wf(ctx) && Run(n, cfg, runner, ctx, turn).Ok?
    ensures var s := StateAt(n, cfg, runner, ctx, turn);
            && (forall p, k, token :: token in Tokens(s.placeTokens, p, k) ==>
                  token.key == k && Caused(n, s, TriggerInput(p, None, token), |s.fired|))
            && (forall tk, input :: tk in s.cache && input in s.cache[tk] ==>
                  input.token.key == tk.1 && Caused(n, s, input, |s.fired|))
            && (forall j, input :: 0 <= j < |s.fired| && input in s.fired[j].inputs ==>
                  input.token.key == s.fired[j].key && Caused(n, s, input, j))
  {
    hide WfNet, StateAt, Safe, Settled, Caused, Tokens;
    var s := StateAt(n, cfg, runner, ctx, turn);
    ReachedSafe(n, cfg, runner, ctx, turn);
    forall p, k, token | token in Tokens(s.placeTokens, p, k)
      ensures token.key == k && Caused(n, s, TriggerInput(p, None, token), |s.fired|)
    {
      WaitingCaused(n, s, p, k, token);
    }
    forall tk, input | tk in s.cache && input in s.cache[tk]
      ensures input.token.key == tk.1 && Caused(n, s, input, |s.fired|)
    {
      HeldCaused(n, s, tk, input);
    }
    forall j, input | 0 <= j < |s.fired| && input in s.fired[j].inputs
      ensures input.token.key == s.fired[j].key && Caused(n, s, input, j)
    {
      ConsumedCaused(n, s, j, input);
    }
  }

  /** A chain of firings, each feeding the next, that passes only through AllOf joins. */
  ghost predicate AllOfChain(n: Cpn, s: State, chain: seq<nat>) {
    && chain != [] && (forall x :: 0 <= x < |chain| ==> chain[x] < |s.fired|)
    && (forall x :: 0 < x < |chain| ==> Feeds(n, s, chain[x - 1], chain[x]) && JoinsAll(n, s.fired[chain[x]]))
  }

  ghost predicate JoinsAll(n: Cpn, f: Firing) {
    f.transition in n.specs && n.specs[f.transition].transition.join.AllOf?
  }

  lemma SuccessNeedsSuccess(n: Cpn, s: State, i: nat, j: nat)
    requires FiredInv(n, s.fired, s.tokenSequence) && Feeds(n, s, i, j) && JoinsAll(n, s.fired[j])
    requires s.fired[j].result.outcome == Success
    ensures i < |s.fired| && s.fired[i].result.outcome == Success
  {
    hide InputOk;
    assert FiringOk(n, s.fired[j]);
    var input :| input in s.fired[j].inputs && MadeBy(n, s, i, input);
    assert input in Trigger(s.fired[j].key, s.fired[j].inputs).inputs;
  }

  /**
   * Failure propagation: along AllOf joins a Success needs a Success at every ancestor, however
   * far away.
   */
  lemma {:induction false} SuccessPropagates(n: Cpn, s: State, chain: seq<nat>)
    requires FiredInv(n, s.fired, s.tokenSequence) && AllOfChain(n, s, chain)
    requires s.fired[chain[|chain| - 1]].result.outcome == Success
    ensures forall x :: 0 <= x < |chain| ==> s.fired[chain[x]].result.outcome == Success
    decreases |chain|
  {
    hide FiredInv, Feeds, JoinsAll;
    if |chain| > 1 {
      var last := |chain| - 1;
      SuccessNeedsSuccess(n, s, chain[last - 1], chain[last]);
      SuccessPropagates(n, s, chain[..last]);
    }
  }

  /** The same for the states of every run. */
  lemma AllOfAncestorsSucceeded(n: Cpn, cfg: Config, runner: Runner, ctx: Store, turn: nat, chain: seq<nat>)
    requires WfNet(n) && Wf(ctx) && Run(n, cfg, runner, ctx, turn).Ok?
    requires AllOfChain(n, StateAt(n, cfg, runner, ctx, turn), chain)
    requires StateAt(n, cfg, runner, ctx, turn).fired[chain[|chain| - 1]].result.outcome == Success
    ensures var s := StateAt(n, cfg, runner, ctx, turn);
            forall x :: 0 <= x < |chain| ==> s.fired[chain[x]].result.outcome == Success
  {
    hide WfNet, StateAt, Feeds, FiredInv, ReadyInv, TokenInv, CacheInv, DoneInv, TriesInv, BagInv, LateInv, Settled;
    ReachedSafe(n, cfg, runner, ctx, turn);
    SuccessPropagates(n, StateAt(n, cfg, runner, ctx, turn), chain);
  }
}
