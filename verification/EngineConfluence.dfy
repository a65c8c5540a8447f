/**
 * Confluence: the schedule does not matter. On nets with one producer arc per place, only all-input
 * joins and no Terminal, and with a runner that looks at neither the context, the clock nor the token
 * numbers, whatever any run does is what every complete run does.
 */
module EngineConfluence {
  import opened Prelude
  import opened Net
  import opened ContextModel
  import opened EngineModel
  import opened EngineTokens
  import opened EngineSafety
  import opened EngineQueue
  import opened EngineTheorems
  import opened EngineWakeups
  import opened EngineInputs
  import opened EngineVerdicts

  // ------------------------------------------------------------------- agreement

  /** A state between two turns, in which every result so far follows from its inputs. */
  ghost predicate Reached(n: Cpn, runner: Runner, s: State) {
    Safe(n, s, {}) && Settled(n, s) && Determined(n, runner, s)
  }

  /** Nothing is held and nothing is left to do. */
  ghost predicate Final(n: Cpn, runner: Runner, s: State) {
    Reached(n, runner, s) && s.cache == map[] && forall tk :: !Idle(n, s.placeTokens, s.completedKeys, tk)
  }

  ghost predicate Matches(f: Firing, g: Firing) {
    && PairOf(f) == PairOf(g) && f.retried == g.retried && f.result == g.result
    && BlindInputs(f.inputs) == BlindInputs(g.inputs)
  }

  ghost predicate Matched(f: Firing, fired: seq<Firing>) {
    exists i :: 0 <= i < |fired| && Matches(f, fired[i])
  }

  /** The token with the number after `q` was minted for place `p` under key `k`. */
  ghost predicate MintedFor(n: Cpn, s: State, q: nat, token: Token, p: Id, k: Key) {
    && q < |Mints(n, s.fired)| && Mints(n, s.fired)[q].token == token && Mints(n, s.fired)[q].place == p
    && token.key == k && token.meta.sequence == q + 1
  }

  lemma WaitingThere(n: Cpn, s: State, q: nat, token: Token, p: Id, k: Key)
    requires TokenInv(n, s.placeTokens, s.fired, s.tokenSequence) && MintedFor(n, s, q, token, p, k)
    requires token in Resident(s.placeTokens)
    ensures Tokens(s.placeTokens, p, k) != []
  {
    hide Resident;
    var p', k' := ResidentMember(s.placeTokens, token);
    assert MintedAt(n, s.fired, s.tokenSequence, p', token, |s.fired|);
  }

  lemma ConsumedThere(n: Cpn, s: State, q: nat, token: Token, p: Id, k: Key)
    requires FiredInv(n, s.fired, s.tokenSequence) && MintedFor(n, s, q, token, p, k) && token in Consumed(s.fired)
    requires p in n.graph.consumer
    ensures HasFired(s.fired, (n.graph.consumer[p], k))
  {
    hide FiringOk, Consumed;
    var j, input := ConsumedMember(s.fired, token);
    assert InputOk(n, s.fired, s.tokenSequence, PairOf(s.fired[j]), input, j);
    assert PairOf(s.fired[j]) == (n.graph.consumer[p], k);
  }

  lemma DroppedThere(n: Cpn, s: State, q: nat, token: Token, p: Id, k: Key)
    requires LateInv(n, s.late, s.fired, s.tokenSequence, s.completedKeys) && MintedFor(n, s, q, token, p, k)
    requires DoneInv(s.completedKeys, s.keyedOutcomes, s.fired) && token in s.late && p in n.graph.consumer
    ensures HasFired(s.fired, (n.graph.consumer[p], k))
  {
    assert IsDone(s.completedKeys, n.graph.consumer[p], k);
  }

  lemma TokenAccounted(n: Cpn, s: State, q: nat, token: Token, p: Id, k: Key)
    requires BagInv(n, s.placeTokens, s.cache, s.fired, s.late, s.tokenSequence) && s.cache == map[]
    requires Settled(n, s) && MintedFor(n, s, q, token, p, k)
    ensures token in Resident(s.placeTokens) || token in Consumed(s.fired) || token in s.late
  {
    hide Resident, Consumed, Mints;
    var all := Mints(n, s.fired);
    assert all[..s.tokenSequence] == all;
    assert MintTokens(all)[q] == token;
    assert token in Minted(n, s.fired, s.tokenSequence);
    SumBagEmpty(s.cache, InputBag);
  }

  /** A token minted for `p` under `k` still waits there, unless the consumer has fired under `k`. */
  lemma Delivered(n: Cpn, runner: Runner, s: State, o: nat, a: Arc, t: Id)
    requires WfNet(n) && Final(n, runner, s) && o < |s.fired| && a in Out(n, s.fired[o].transition)
    requires a.place in n.graph.consumer && n.graph.consumer[a.place] == t
    ensures Tokens(s.placeTokens, a.place, s.fired[o].key) != [] || HasFired(s.fired, (t, s.fired[o].key))
  {
    hide WfNet, Determined, Idle, TokenInv, FiredInv, LateInv, DoneInv, BagInv, ReadyInv, TriesInv, CacheInv;
    hide Settled, HasFired, Resident, Consumed;
    var k := s.fired[o].key;
    var q := MintExists(n, s.fired, o, a);
    MintFacts(n, s.fired, q);
    var token := Mints(n, s.fired)[q].token;
    hide Mints;
    TokenAccounted(n, s, q, token, a.place, k);
    if token in Resident(s.placeTokens) {
      WaitingThere(n, s, q, token, a.place, k);
    } else if token in Consumed(s.fired) {
      ConsumedThere(n, s, q, token, a.place, k);
    } else {
      DroppedThere(n, s, q, token, a.place, k);
    }
  }

  /** If every earlier firing of one run happened in the other, so does the next one. */
  lemma MustFire(n: Cpn, runner: Runner, s: State, z: State, j: nat)
    requires WfNet(n) && Waiting(n) && Reached(n, runner, s) && Final(n, runner, z) && j < |s.fired|
    requires forall i :: 0 <= i < j ==> Matched(s.fired[i], z.fired)
    ensures HasFired(z.fired, PairOf(s.fired[j]))
  {
    hide Matched, Reached, Final, WfNet, Waiting;
    var tk := PairOf(s.fired[j]);
    ReachedFiring(n, runner, s, j);
    if forall a :: a in In(n, tk.0) ==> Tokens(z.placeTokens, a.place, tk.1) != [] {
      FilledFires(n, runner, z, tk);
    } else {
      var a :| a in In(n, tk.0) && Tokens(z.placeTokens, a.place, tk.1) == [];
      FilledFromBefore(n, runner, s, z, j, a);
    }
  }

  lemma FilledFires(n: Cpn, runner: Runner, s: State, tk: Pair)
    requires Waiting(n) && Final(n, runner, s) && KeyOk(n, tk)
    requires forall a :: a in In(n, tk.0) ==> Tokens(s.placeTokens, a.place, tk.1) != []
    ensures HasFired(s.fired, tk)
  {
    hide Determined, Settled, ReadyInv, TriesInv, LateInv, BagInv, TokenInv, CacheInv, FiredInv, Enabled, Awake;
    FilledEnables(n, s.placeTokens, tk.0, tk.1);
    AwakeFilled(n, s.placeTokens, tk);
    assert !Idle(n, s.placeTokens, s.completedKeys, tk);
  }

  lemma AwakeFilled(n: Cpn, b: Buckets, tk: Pair)
    requires KeyOk(n, tk) && forall a :: a in In(n, tk.0) ==> Tokens(b, a.place, tk.1) != []
    ensures Awake(n, b, tk)
  {
    if In(n, tk.0) != [] {
      assert In(n, tk.0)[0] in In(n, tk.0);
    }
  }

  /** The firing's input from `a` was made by an earlier firing. */
  lemma InputMaker(n: Cpn, runner: Runner, s: State, j: nat, x: nat) returns (i: nat)
    requires Reached(n, runner, s) && j < |s.fired| && x < |s.fired[j].inputs|
    ensures i < j && MadeBy(n, s, i, s.fired[j].inputs[x])
    ensures s.fired[i].key == s.fired[j].key
  {
    hide Determined, ReadyInv, TriesInv, LateInv, BagInv, TokenInv, CacheInv, DoneInv, Idle, MintedAt, FiringOk, MadeBy;
    var input := s.fired[j].inputs[x];
    assert InputOk(n, s.fired, s.tokenSequence, PairOf(s.fired[j]), input, j);
    MintMadeBy(n, s, {}, input, j);
    i :| i < j && MadeBy(n, s, i, input);
    MadeByKey(n, s, i, input);
  }

  lemma MadeByKey(n: Cpn, s: State, i: nat, input: TriggerInput)
    requires MadeBy(n, s, i, input)
    ensures i < |s.fired| && s.fired[i].key == input.token.key
    ensures exists a :: a in Out(n, s.fired[i].transition) && a.place == input.place
    ensures BlindToken(input.token) == BlindToken(MakeToken(n, s.fired[i], 0))
  {
  }

  lemma FiringShaped(n: Cpn, runner: Runner, s: State, j: nat)
    requires Determined(n, runner, s) && j < |s.fired|
    ensures s.fired[j].transition in n.specs
    ensures Shaped(FirstArcs(In(n, s.fired[j].transition), {}), s.fired[j].inputs)
  {
    assert FiringDetermined(n, runner, s.fired[j]);
  }

  /** What a firing of the other run made for one of the pair's places has reached the pair in this one. */
  lemma Fed(n: Cpn, runner: Runner, z: State, f: Firing, a: Arc, t: Id)
    requires WfNet(n) && Final(n, runner, z) && Matched(f, z.fired) && a in In(n, t)
    requires exists out :: out in Out(n, f.transition) && out.place == a.place
    ensures Tokens(z.placeTokens, a.place, f.key) != [] || HasFired(z.fired, (t, f.key))
  {
    hide Final, HasFired;
    var o :| 0 <= o < |z.fired| && Matches(f, z.fired[o]);
    var out :| out in Out(n, f.transition) && out.place == a.place;
    Delivered(n, runner, z, o, out, t);
  }

  lemma FilledFromBefore(n: Cpn, runner: Runner, s: State, z: State, j: nat, a: Arc)
    requires WfNet(n) && Reached(n, runner, s) && Final(n, runner, z)
    requires j < |s.fired| && a in In(n, s.fired[j].transition)
    requires forall i :: 0 <= i < j ==> Matched(s.fired[i], z.fired)
    ensures Tokens(z.placeTokens, a.place, s.fired[j].key) != [] || HasFired(z.fired, PairOf(s.fired[j]))
  {
    hide Determined, Safe, Settled, Idle, MadeBy, FirstArcs, WfNet, HasFired, Matched;
    var f := s.fired[j];
    FiringShaped(n, runner, s, j);
    FirstArcsCover(In(n, f.transition), {}, a);
    var x :| 0 <= x < |f.inputs| && f.inputs[x].place == a.place;
    var i := InputMaker(n, runner, s, j, x);
    MadeByKey(n, s, i, f.inputs[x]);
    Fed(n, runner, z, s.fired[i], a, f.transition);
  }

  /** Both runs feed the pair the same tokens, up to their numbers. */
  lemma SameInputs(n: Cpn, runner: Runner, s: State, z: State, j: nat, y: nat)
    requires OneProducer(n) && Reached(n, runner, s) && Reached(n, runner, z)
    requires j < |s.fired| && y < |z.fired| && PairOf(s.fired[j]) == PairOf(z.fired[y])
    requires forall i :: 0 <= i < j ==> Matched(s.fired[i], z.fired)
    ensures BlindInputs(s.fired[j].inputs) == BlindInputs(z.fired[y].inputs)
  {
    hide Determined, Safe, Settled, Idle, MadeBy, FirstArcs, OneProducer, Matched;
    FiringShaped(n, runner, s, j);
    FiringShaped(n, runner, z, y);
    var xs, ys := s.fired[j].inputs, z.fired[y].inputs;
    forall x | 0 <= x < |xs| ensures BlindInputs(xs)[x] == BlindInputs(ys)[x] {
      SameInput(n, runner, s, z, j, y, x);
    }
  }

  lemma ProducerOf(n: Cpn, t: Id, u: Id, p: Id)
    requires OneProducer(n)
    requires exists a :: a in Out(n, t) && a.place == p
    requires exists a :: a in Out(n, u) && a.place == p
    ensures t == u
  {
    var i :| 0 <= i < |Out(n, t)| && Out(n, t)[i].place == p;
    var j :| 0 <= j < |Out(n, u)| && Out(n, u)[j].place == p;
  }

  lemma SameInput(n: Cpn, runner: Runner, s: State, z: State, j: nat, y: nat, x: nat)
    requires OneProducer(n) && Reached(n, runner, s) && Reached(n, runner, z)
    requires j < |s.fired| && y < |z.fired| && PairOf(s.fired[j]) == PairOf(z.fired[y])
    requires forall i :: 0 <= i < j ==> Matched(s.fired[i], z.fired)
    requires x < |s.fired[j].inputs| && x < |z.fired[y].inputs|
    requires s.fired[j].inputs[x].place == z.fired[y].inputs[x].place
    ensures BlindToken(s.fired[j].inputs[x].token) == BlindToken(z.fired[y].inputs[x].token)
  {
    hide Determined, Safe, Settled, Idle, MadeBy, OneProducer;
    var i := InputMaker(n, runner, s, j, x);
    var o := InputMaker(n, runner, z, y, x);
    MadeByKey(n, s, i, s.fired[j].inputs[x]);
    MadeByKey(n, z, o, z.fired[y].inputs[x]);
    ProducerOf(n, s.fired[i].transition, z.fired[o].transition, s.fired[j].inputs[x].place);
    assert Matched(s.fired[i], z.fired);
    var o' :| 0 <= o' < |z.fired| && Matches(s.fired[i], z.fired[o']);
    FiredOnce(n, runner, z, o, o');
  }

  lemma FiredOnce(n: Cpn, runner: Runner, s: State, i: nat, j: nat)
    requires Reached(n, runner, s) && i < |s.fired| && j < |s.fired| && PairOf(s.fired[i]) == PairOf(s.fired[j])
    ensures i == j
  {
    hide Determined, Settled, Idle, FiringOk, InputOk;
  }

  /** The same inputs give the same attempts and the same result. */
  lemma SameResults(n: Cpn, runner: Runner, f: Firing, g: Firing)
    requires FiringDetermined(n, runner, f) && FiringDetermined(n, runner, g) && FiringOk(n, f) && FiringOk(n, g)
    requires PairOf(f) == PairOf(g) && BlindInputs(f.inputs) == BlindInputs(g.inputs)
    ensures Matches(f, g)
  {
    hide Verdict, Shaped, FirstArcs, Skips;
    var spec := n.specs[f.transition];
    var x, y := Trigger(f.key, f.inputs), Trigger(g.key, g.inputs);
    forall a: nat ensures Verdict(runner, spec, a, x) == Verdict(runner, spec, a, y) {
      VerdictBlind(runner, spec, a, x, y);
    }
    assert |f.retried| == |g.retried|;
    assert f.retried == g.retried;
  }

  lemma {:induction false} Agree(n: Cpn, runner: Runner, s: State, z: State, j: nat)
    requires WfNet(n) && OneProducer(n) && Waiting(n)
    requires Reached(n, runner, s) && Final(n, runner, z) && j < |s.fired|
    ensures Matched(s.fired[j], z.fired)
    decreases j
  {
    hide WfNet, OneProducer, Waiting, Reached, Matches;
    assert Reached(n, runner, z);
    hide Final;
    forall i | 0 <= i < j ensures Matched(s.fired[i], z.fired) {
      Agree(n, runner, s, z, i);
    }
    MustFire(n, runner, s, z, j);
    var y :| 0 <= y < |z.fired| && PairOf(z.fired[y]) == PairOf(s.fired[j]);
    SameInputs(n, runner, s, z, j, y);
    ReachedFiring(n, runner, s, j);
    ReachedFiring(n, runner, z, y);
    SameResults(n, runner, s.fired[j], z.fired[y]);
  }

  lemma ReachedFiring(n: Cpn, runner: Runner, s: State, j: nat)
    requires Reached(n, runner, s) && j < |s.fired|
    ensures FiringDetermined(n, runner, s.fired[j]) && FiringOk(n, s.fired[j])
  {
  }

  // ------------------------------------------------------------- what is left over

  /** Where one run has a token waiting or held for the pair, the other has delivered one. */
  lemma WantedFed(n: Cpn, runner: Runner, s: State, z: State, tk: Pair, a: Arc)
    requires WfNet(n) && Waiting(n) && Reached(n, runner, s) && Final(n, runner, z) && Wants(n, s, tk)
    requires forall j :: 0 <= j < |s.fired| ==> Matched(s.fired[j], z.fired)
    requires a in In(n, tk.0)
    ensures Tokens(z.placeTokens, a.place, tk.1) != [] || HasFired(z.fired, tk)
  {
    hide Safe, Settled, MadeBy, WfNet, HasFired, Matched, Waiting, Final, Enabled, Awake, FirstArcs, Caused, Tokens;
    var input: TriggerInput;
    if tk in s.cache {
      assert HeldDetermined(n, runner, tk, s.cache[tk], GetOr(s.retried, tk, []));
      FirstArcsCover(In(n, tk.0), {}, a);
      var x :| 0 <= x < |s.cache[tk]| && s.cache[tk][x].place == a.place;
      input := s.cache[tk][x];
      HeldCaused(n, s, tk, input);
    } else {
      EnabledFills(n, s.placeTokens, tk.0, tk.1, a);
      var token := Tokens(s.placeTokens, a.place, tk.1)[0];
      input := TriggerInput(a.place, None, token);
      WaitingCaused(n, s, a.place, tk.1, token);
    }
    CausedFeeds(n, runner, s, z, input, a, tk.0);
  }

  lemma CausedFeeds(n: Cpn, runner: Runner, s: State, z: State, input: TriggerInput, a: Arc, t: Id)
    requires WfNet(n) && Final(n, runner, z) && Caused(n, s, input, |s.fired|)
    requires input.place == a.place && a in In(n, t)
    requires forall j :: 0 <= j < |s.fired| ==> Matched(s.fired[j], z.fired)
    ensures Tokens(z.placeTokens, a.place, input.token.key) != [] || HasFired(z.fired, (t, input.token.key))
  {
    hide MadeBy, WfNet, HasFired, Matched, Final, Tokens;
    var i: nat :| i < |s.fired| && MadeBy(n, s, i, input);
    MadeByKey(n, s, i, input);
    Fed(n, runner, z, s.fired[i], a, t);
  }

  lemma WantedKey(n: Cpn, runner: Runner, s: State, tk: Pair)
    requires WfNet(n) && Reached(n, runner, s) && Wants(n, s, tk)
    ensures KeyOk(n, tk)
  {
    hide Safe, Settled, Enabled, MadeBy, Tokens;
    if tk in s.cache {
      assert HeldDetermined(n, runner, tk, s.cache[tk], GetOr(s.retried, tk, []));
    } else if In(n, tk.0) != [] {
      var a :| a in In(n, tk.0) && Tokens(s.placeTokens, a.place, tk.1) != [];
      var token := Tokens(s.placeTokens, a.place, tk.1)[0];
      WaitingCaused(n, s, a.place, tk.1, token);
      var i: nat :| i < |s.fired| && MadeBy(n, s, i, TriggerInput(a.place, None, token));
      MadeByKey(n, s, i, TriggerInput(a.place, None, token));
      assert HeldDetermined(n, runner, PairOf(s.fired[i]), s.fired[i].inputs, s.fired[i].retried);
    }
  }

  /** A pair that should still run in one run has completed in every complete one. */
  lemma WantedFires(n: Cpn, runner: Runner, s: State, z: State, tk: Pair)
    requires WfNet(n) && Waiting(n) && Reached(n, runner, s) && Final(n, runner, z) && Wants(n, s, tk)
    requires forall j :: 0 <= j < |s.fired| ==> Matched(s.fired[j], z.fired)
    ensures HasFired(z.fired, tk)
  {
    hide WfNet, Waiting, Reached, Final, Wants, Matched, HasFired, KeyOk, Tokens;
    WantedKey(n, runner, s, tk);
    if forall a :: a in In(n, tk.0) ==> Tokens(z.placeTokens, a.place, tk.1) != [] {
      FilledFires(n, runner, z, tk);
    } else {
      var a :| a in In(n, tk.0) && Tokens(z.placeTokens, a.place, tk.1) == [];
      WantedFed(n, runner, s, z, tk, a);
    }
  }

  // -------------------------------------------------------------------- whole runs

  lemma RunReached(n: Cpn, cfg: Config, runner: Runner, ctx: Store, i: nat)
    requires WfNet(n) && OneProducer(n) && Waiting(n) && Blindfolded(runner)
    requires Wf(ctx) && Run(n, cfg, runner, ctx, i).Ok?
    ensures Reached(n, runner, StateAt(n, cfg, runner, ctx, i)) && !Run(n, cfg, runner, ctx, i).value.stopped
  {
    hide WfNet, OneProducer, Waiting, Blindfolded, Run, Safe, Settled, Determined;
    RunDetermined(n, cfg, runner, ctx, i);
    ReachedSafe(n, cfg, runner, ctx, i);
  }

  /** The run is over and every pair its drains dropped has completed after all. */
  ghost predicate Thorough(n: Cpn, cfg: Config, runner: Runner, ctx: Store, i: nat)
    requires Wf(ctx) && Run(n, cfg, runner, ctx, i).Ok?
  {
    && Halted(Run(n, cfg, runner, ctx, i).value)
    && forall tk :: tk in Dropped(n, cfg, runner, ctx, i) ==>
         IsDone(StateAt(n, cfg, runner, ctx, i).completedKeys, tk.0, tk.1)
  }

  /** Finished runs with room in every round are thorough, and so are all finished serial runs. */
  lemma RoomIsThorough(n: Cpn, cfg: Config, runner: Runner, ctx: Store, i: nat)
    requires WfNet(n) && Wf(ctx) && Run(n, cfg, runner, ctx, i).Ok? && Halted(Run(n, cfg, runner, ctx, i).value)
    requires forall j :: 0 <= j < i && Run(n, cfg, runner, ctx, j).Ok? ==> Room(cfg, Run(n, cfg, runner, ctx, j).value)
    ensures Thorough(n, cfg, runner, ctx, i)
  {
    hide WfNet, Run, Room, Dropped;
    forall j | 0 <= j < i ensures Run(n, cfg, runner, ctx, j).Ok? { RunEarlier(n, cfg, runner, ctx, i, j); }
    DroppedNothing(n, cfg, runner, ctx, i);
  }

  lemma ThoroughFinal(n: Cpn, cfg: Config, runner: Runner, ctx: Store, i: nat)
    requires WfNet(n) && OneProducer(n) && Waiting(n) && Blindfolded(runner)
    requires Wf(ctx) && Run(n, cfg, runner, ctx, i).Ok? && Halted(Run(n, cfg, runner, ctx, i).value)
    ensures Reached(n, runner, StateAt(n, cfg, runner, ctx, i)) && !Run(n, cfg, runner, ctx, i).value.stopped
    ensures Thorough(n, cfg, runner, ctx, i) <==> Final(n, runner, StateAt(n, cfg, runner, ctx, i))
  {
    hide WfNet, OneProducer, Waiting, Blindfolded, Run, Reached, Idle, Wants, Dropped;
    RunReached(n, cfg, runner, ctx, i);
    Quiescent(n, cfg, runner, ctx, i);
  }

  /**
   * No run goes astray: whatever has happened at any turn of any run, serial or parallel, also
   * happens in every thorough run under any settings and any context, with the same inputs up to
   * token numbers, the same attempts, the same outcome and the same payload.
   */
  lemma NoRunGoesAstray(
    n: Cpn, runner: Runner, cfg: Config, ctx: Store, i: nat, cfg': Config, ctx': Store, i': nat)
    requires WfNet(n) && OneProducer(n) && Waiting(n) && Blindfolded(runner) && Wf(ctx) && Wf(ctx')
    requires Run(n, cfg, runner, ctx, i).Ok?
    requires Run(n, cfg', runner, ctx', i').Ok? && Thorough(n, cfg', runner, ctx', i')
    ensures var s, z := StateAt(n, cfg, runner, ctx, i), StateAt(n, cfg', runner, ctx', i');
            && (forall j :: 0 <= j < |s.fired| ==> Matched(s.fired[j], z.fired))
            && (forall t, k :: IsDone(s.completedKeys, t, k) ==>
                  && IsDone(z.completedKeys, t, k)
                  && t in s.keyedOutcomes && k in s.keyedOutcomes[t] && t in z.keyedOutcomes && k in z.keyedOutcomes[t]
                  && s.keyedOutcomes[t][k] == z.keyedOutcomes[t][k])
  {
    hide WfNet, OneProducer, Waiting, Blindfolded, Run, StateAt, Reached, Final, Matched, Dropped;
    var s, z := StateAt(n, cfg, runner, ctx, i), StateAt(n, cfg', runner, ctx', i');
    RunReached(n, cfg, runner, ctx, i);
    ThoroughFinal(n, cfg', runner, ctx', i');
    forall j | 0 <= j < |s.fired| ensures Matched(s.fired[j], z.fired) {
      Agree(n, runner, s, z, j);
    }
    FinalReached(n, runner, z);
    forall t, k | IsDone(s.completedKeys, t, k)
      ensures IsDone(z.completedKeys, t, k)
      ensures t in s.keyedOutcomes && k in s.keyedOutcomes[t] && t in z.keyedOutcomes && k in z.keyedOutcomes[t]
      ensures s.keyedOutcomes[t][k] == z.keyedOutcomes[t][k]
    {
      SameOutcomes(n, runner, s, z, t, k);
    }
  }

  lemma FinalReached(n: Cpn, runner: Runner, s: State)
    requires Final(n, runner, s)
    ensures Reached(n, runner, s)
  {
  }

  lemma SameOutcomes(n: Cpn, runner: Runner, s: State, z: State, t: Id, k: Key)
    requires Reached(n, runner, s) && Reached(n, runner, z) && IsDone(s.completedKeys, t, k)
    requires forall j :: 0 <= j < |s.fired| ==> Matched(s.fired[j], z.fired)
    ensures IsDone(z.completedKeys, t, k)
    ensures t in s.keyedOutcomes && k in s.keyedOutcomes[t] && t in z.keyedOutcomes && k in z.keyedOutcomes[t]
    ensures s.keyedOutcomes[t][k] == z.keyedOutcomes[t][k]
  {
    hide Determined, Settled, Idle, TokenInv, CacheInv, FiredInv, TriesInv, LateInv, BagInv, ReadyInv;
    var j :| 0 <= j < |s.fired| && PairOf(s.fired[j]) == (t, k);
    assert Matched(s.fired[j], z.fired);
    var i :| 0 <= i < |z.fired| && Matches(s.fired[j], z.fired[i]);
    assert IsDone(z.completedKeys, z.fired[i].transition, z.fired[i].key);
  }

  /**
   * Confluence: two thorough runs of such a net, serial or parallel, under any two settings and any
   * two contexts, complete exactly the same pairs with the same inputs up to token numbers, the same
   * attempts, outcomes and payloads.
   */
  lemma Confluence(
    n: Cpn, runner: Runner, cfg: Config, ctx: Store, i: nat, cfg': Config, ctx': Store, i': nat)
    requires WfNet(n) && OneProducer(n) && Waiting(n) && Blindfolded(runner) && Wf(ctx) && Wf(ctx')
    requires Run(n, cfg, runner, ctx, i).Ok? && Thorough(n, cfg, runner, ctx, i)
    requires Run(n, cfg', runner, ctx', i').Ok? && Thorough(n, cfg', runner, ctx', i')
    ensures var s, z := StateAt(n, cfg, runner, ctx, i), StateAt(n, cfg', runner, ctx', i');
            && (forall j :: 0 <= j < |s.fired| ==> Matched(s.fired[j], z.fired))
            && (forall j :: 0 <= j < |z.fired| ==> Matched(z.fired[j], s.fired))
            && (forall t, k :: IsDone(s.completedKeys, t, k) <==> IsDone(z.completedKeys, t, k))
            && (forall t, k :: IsDone(s.completedKeys, t, k) ==>
                  && t in s.keyedOutcomes && k in s.keyedOutcomes[t] && t in z.keyedOutcomes && k in z.keyedOutcomes[t]
                  && s.keyedOutcomes[t][k] == z.keyedOutcomes[t][k])
  {
    hide *;
    NoRunGoesAstray(n, runner, cfg, ctx, i, cfg', ctx', i');
    NoRunGoesAstray(n, runner, cfg', ctx', i', cfg, ctx, i);
  }

  /**
   * A finished run, serial or parallel, completes everything a thorough run completes if and only if
   * it is thorough itself: what its drains dropped for good is all that is missing.
   */
  lemma AgreementCondition(
    n: Cpn, runner: Runner, cfg: Config, ctx: Store, i: nat, cfg': Config, ctx': Store, i': nat)
    requires WfNet(n) && OneProducer(n) && Waiting(n) && Blindfolded(runner) && Wf(ctx) && Wf(ctx')
    requires Run(n, cfg, runner, ctx, i).Ok? && Halted(Run(n, cfg, runner, ctx, i).value)
    requires Run(n, cfg', runner, ctx', i').Ok? && Thorough(n, cfg', runner, ctx', i')
    ensures var s, z := StateAt(n, cfg, runner, ctx, i), StateAt(n, cfg', runner, ctx', i');
            (forall t, k :: IsDone(z.completedKeys, t, k) ==> IsDone(s.completedKeys, t, k))
            <==> Thorough(n, cfg, runner, ctx, i)
  {
    hide WfNet, OneProducer, Waiting, Blindfolded, Run, Reached, Final, Matched, Dropped, Wants, HasFired;
    var s, z := StateAt(n, cfg, runner, ctx, i), StateAt(n, cfg', runner, ctx', i');
    NoRunGoesAstray(n, runner, cfg, ctx, i, cfg', ctx', i');
    ThoroughFinal(n, cfg, runner, ctx, i);
    ThoroughFinal(n, cfg', runner, ctx', i');
    Quiescent(n, cfg, runner, ctx, i);
    if Thorough(n, cfg, runner, ctx, i) {
      NoRunGoesAstray(n, runner, cfg', ctx', i', cfg, ctx, i);
    } else {
      var tk :| tk in Dropped(n, cfg, runner, ctx, i) && !IsDone(s.completedKeys, tk.0, tk.1);
      WantedFires(n, runner, s, z, tk);
      FiredDone(n, runner, z, tk);
    }
  }

  lemma FiredDone(n: Cpn, runner: Runner, s: State, tk: Pair)
    requires Final(n, runner, s) && HasFired(s.fired, tk)
    ensures IsDone(s.completedKeys, tk.0, tk.1)
  {
    hide Determined, Settled, Idle, TokenInv, CacheInv, FiredInv, TriesInv, LateInv, BagInv, ReadyInv;
  }
}
