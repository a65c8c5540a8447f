/**
 * The invariants of the engine, kept by every step of a run.
 *
 * `fly` is the set of (transition, key) pairs taken off the queue whose attempt is not yet
 * concluded: at most one on the serial path, one per key on the parallel path.
 */
module EngineSafety {
  import opened Prelude
  import opened Net
  import opened ContextModel
  import opened Router
  import opened EngineModel
  import opened EngineTokens

  // ------------------------------------------------------------------ invariants

  ghost function RootKeys(n: Cpn): set<Key> {
    set t | t in n.specs && In(n, t) == [] :: RootKey(n, t)
  }

  /** Keys enter a run only at its roots. */
  ghost predicate KeyOk(n: Cpn, tk: Pair) {
    && tk.0 in n.specs && tk.1 in RootKeys(n)
    && (In(n, tk.0) == [] ==> tk.1 == RootKey(n, tk.0))
  }

  function PairOf(f: Firing): Pair { (f.transition, f.key) }

  /** Waiting tokens carry their bucket's key and sit where they were sent. */
  ghost predicate TokenInv(n: Cpn, b: Buckets, fired: seq<Firing>, q: nat) {
    forall p, k, token :: token in Tokens(b, p, k) ==> token.key == k && MintedAt(n, fired, q, p, token, |fired|)
  }

  /** An input of (t, k) was minted for `t`'s place under `k` by a firing older than `bound`. */
  ghost predicate InputOk(n: Cpn, fired: seq<Firing>, q: nat, tk: Pair, i: TriggerInput, bound: nat) {
    && i.token.key == tk.1 && i.place in n.graph.consumer && n.graph.consumer[i.place] == tk.0
    && MintedAt(n, fired, q, i.place, i.token, bound)
  }

  ghost predicate CacheInv(
    n: Cpn, c: map<Pair, seq<TriggerInput>>, done: map<Id, set<Key>>, fired: seq<Firing>, q: nat)
  {
    && (forall tk :: tk in c ==> !IsDone(done, tk.0, tk.1))
    && (forall tk, i :: tk in c && i in c[tk] ==> InputOk(n, fired, q, tk, i, |fired|))
  }

  /** Retries are bounded and were needed; an AllOf join with a bad input is skipped. */
  ghost predicate FiringOk(n: Cpn, f: Firing) {
    && KeyOk(n, PairOf(f))
    && var spec := n.specs[f.transition];
    && |f.retried| <= spec.maxRetries
    && (forall r :: r in f.retried ==> Retryable(r.outcome))
    && (Retryable(f.result.outcome) ==> |f.retried| == spec.maxRetries)
    && (Skips(spec, Trigger(f.key, f.inputs)) ==> f.result == RunResult(Skipped, Null))
  }

  ghost predicate FiredInv(n: Cpn, fired: seq<Firing>, q: nat) {
    && (forall i, j :: 0 <= i < j < |fired| ==> PairOf(fired[i]) != PairOf(fired[j]))
    && (forall j :: 0 <= j < |fired| ==> FiringOk(n, fired[j]))
    && (forall j, i :: 0 <= j < |fired| && i in fired[j].inputs ==> InputOk(n, fired, q, PairOf(fired[j]), i, j))
  }

  ghost predicate HasFired(fired: seq<Firing>, tk: Pair) {
    exists j :: 0 <= j < |fired| && PairOf(fired[j]) == tk
  }

  /** The completed keys and the keyed outcomes are exactly the firings. */
  ghost predicate DoneInv(done: map<Id, set<Key>>, keyed: map<Id, map<Key, Outcome>>, fired: seq<Firing>) {
    && (forall t, k :: IsDone(done, t, k) <==> HasFired(fired, (t, k)))
    && (forall t, k :: IsDone(done, t, k) <==> t in keyed && k in keyed[t])
    && (forall j :: 0 <= j < |fired| ==>
          && IsDone(done, fired[j].transition, fired[j].key)
          && keyed[fired[j].transition][fired[j].key] == fired[j].result.outcome)
  }

  /** The attempt counter counts failed attempts, and a retried pair keeps its inputs. */
  ghost predicate TriesInv(
    n: Cpn, attempts: map<Pair, nat>, retried: map<Pair, seq<RunResult>>, c: map<Pair, seq<TriggerInput>>,
    done: map<Id, set<Key>>)
  {
    forall tk :: var a := GetOr(attempts, tk, 0);
      && |GetOr(retried, tk, [])| == a
      && (a > 0 ==> && tk.0 in n.specs && a <= n.specs[tk.0].maxRetries
                    && (IsDone(done, tk.0, tk.1) || tk in c)
                    && forall r :: r in GetOr(retried, tk, []) ==> Retryable(r.outcome))
  }

  /** A token is dropped only when its consumer has completed that key. */
  ghost predicate LateInv(n: Cpn, late: seq<Token>, fired: seq<Firing>, q: nat, done: map<Id, set<Key>>) {
    forall token :: token in late ==> exists p ::
      && p in n.graph.consumer && IsDone(done, n.graph.consumer[p], token.key)
      && MintedAt(n, fired, q, p, token, |fired|)
  }

  /** Queued readiness is stable: what is queued or in flight can run. */
  ghost predicate ReadyInv(
    n: Cpn, b: Buckets, c: map<Pair, seq<TriggerInput>>, done: map<Id, set<Key>>, readySet: set<Pair>, fly: set<Pair>)
  {
    && readySet !! fly
    && (forall tk :: tk in readySet + fly ==>
          KeyOk(n, tk) && !IsDone(done, tk.0, tk.1) && (tk in c || Enabled(n, b, tk.0, tk.1)))
  }

  ghost predicate Safe(n: Cpn, s: State, fly: set<Pair>) {
    && s.placeTokens.Keys == n.graph.places
    && TokenInv(n, s.placeTokens, s.fired, s.tokenSequence)
    && CacheInv(n, s.cache, s.completedKeys, s.fired, s.tokenSequence)
    && FiredInv(n, s.fired, s.tokenSequence)
    && DoneInv(s.completedKeys, s.keyedOutcomes, s.fired)
    && TriesInv(n, s.attempts, s.retried, s.cache, s.completedKeys)
    && |s.late| == s.lateTotal == s.zombieTotal
    && LateInv(n, s.late, s.fired, s.tokenSequence, s.completedKeys)
    && BagInv(n, s.placeTokens, s.cache, s.fired, s.late, s.tokenSequence)
    && ReadyInv(n, s.placeTokens, s.cache, s.completedKeys, s.readySet, fly)
  }

  /** All tokens of the recorded firings are out. */
  ghost predicate Settled(n: Cpn, s: State) { s.tokenSequence == |Mints(n, s.fired)| }

  // --------------------------------------------------------- taking the inputs

  lemma TakeReady(n: Cpn, s: State, fly: set<Pair>, tk: Pair, b': Buckets, inputs: seq<TriggerInput>)
    requires WfNet(n) && ReadyInv(n, s.placeTokens, s.cache, s.completedKeys, s.readySet, fly) && tk in fly
    requires Drained(s.placeTokens, b', In(n, tk.0), tk.1)
    ensures ReadyInv(n, b', s.cache[tk := inputs], s.completedKeys, s.readySet, fly)
  {
    forall o | o in s.readySet + fly && o != tk && o !in s.cache ensures Enabled(n, b', o.0, o.1) {
      EnabledLocal(n, s.placeTokens, b', o.0, o.1);
    }
  }

  lemma TakeInput(n: Cpn, b: Buckets, fired: seq<Firing>, q: nat, tk: Pair, i: TriggerInput)
    requires WfNet(n) && TokenInv(n, b, fired, q)
    requires i.token in Tokens(b, i.place, tk.1)
    requires exists a :: a in In(n, tk.0) && a.place == i.place && a.arcLabel == i.arcLabel
    ensures InputOk(n, fired, q, tk, i, |fired|)
  {
  }

  lemma TakeCache(n: Cpn, s: State, tk: Pair, inputs: seq<TriggerInput>)
    requires CacheInv(n, s.cache, s.completedKeys, s.fired, s.tokenSequence)
    requires !IsDone(s.completedKeys, tk.0, tk.1)
    requires forall i :: i in inputs ==> InputOk(n, s.fired, s.tokenSequence, tk, i, |s.fired|)
    ensures CacheInv(n, s.cache[tk := inputs], s.completedKeys, s.fired, s.tokenSequence)
  {
  }

  lemma TakeTokens(n: Cpn, b: Buckets, b': Buckets, fired: seq<Firing>, q: nat, tk: Pair)
    requires TokenInv(n, b, fired, q) && Drained(b, b', In(n, tk.0), tk.1)
    ensures TokenInv(n, b', fired, q)
  {
    forall p, k, token | token in Tokens(b', p, k) ensures token in Tokens(b, p, k) {
      assert k == tk.1 ==> forall a :: a in In(n, tk.0) ==> a.place != p;
    }
  }

  lemma TakeBag(n: Cpn, s: State, tk: Pair)
    requires BagInv(n, s.placeTokens, s.cache, s.fired, s.late, s.tokenSequence)
    requires ConsumeArcs(s.placeTokens, In(n, tk.0), tk.1).Ok? && tk !in s.cache
    ensures var (b', inputs) := ConsumeArcs(s.placeTokens, In(n, tk.0), tk.1).value;
            BagInv(n, b', s.cache[tk := inputs], s.fired, s.late, s.tokenSequence)
  {
    ConsumeConserves(s.placeTokens, In(n, tk.0), tk.1);
    SumBagSet(s.cache, InputBag, tk, ConsumeArcs(s.placeTokens, In(n, tk.0), tk.1).value.1);
    assert s.cache - {tk} == s.cache;
  }

  lemma TakeFresh(n: Cpn, s: State, fly: set<Pair>, tk: Pair)
    requires WfNet(n) && Safe(n, s, fly) && tk in fly && tk !in s.cache
    ensures var r := ConsumeArcs(s.placeTokens, In(n, tk.0), tk.1);
            r.Ok? && Safe(n, s.(placeTokens := r.value.0, cache := s.cache[tk := r.value.1]), fly)
  {
    ConsumeDrains(s.placeTokens, In(n, tk.0), tk.1);
    var (b', inputs) := ConsumeArcs(s.placeTokens, In(n, tk.0), tk.1).value;
    forall i | i in inputs ensures InputOk(n, s.fired, s.tokenSequence, tk, i, |s.fired|) {
      ConsumeOrigin(s.placeTokens, In(n, tk.0), tk.1, i);
      TakeInput(n, s.placeTokens, s.fired, s.tokenSequence, tk, i);
    }
    TakeCache(n, s, tk, inputs);
    TakeReady(n, s, fly, tk, b', inputs);
    TakeTokens(n, s.placeTokens, b', s.fired, s.tokenSequence, tk);
    TakeBag(n, s, tk);
  }

  /** `ensure_trigger_inputs` never errs on a pair in flight, and keeps the invariants. */
  lemma TakeSafe(n: Cpn, s: State, fly: set<Pair>, tk: Pair)
    requires WfNet(n) && Safe(n, s, fly) && tk in fly
    ensures var r := EnsureTrigger(n, s, tk.0, tk.1);
            && r.Ok? && tk in r.value.0.cache
            && r.value.0 == s.(placeTokens := r.value.0.placeTokens, cache := r.value.0.cache)
            && r.value.1 == Trigger(tk.1, r.value.0.cache[tk])
            && Safe(n, r.value.0, fly)
  {
    if tk !in s.cache {
      TakeFresh(n, s, fly, tk);
      assert IsTransitionReady(n, s, tk.0, tk.1) == Ok(true);
    }
  }

  // ---------------------------------------------------------------- completing

  lemma MarkFired(n: Cpn, s: State, f: Firing, tk: Pair)
    requires FiredInv(n, s.fired, s.tokenSequence) && FiringOk(n, f) && PairOf(f) == tk && !HasFired(s.fired, tk)
    requires forall i :: i in f.inputs ==> InputOk(n, s.fired, s.tokenSequence, tk, i, |s.fired|)
    ensures FiredInv(n, s.fired + [f], s.tokenSequence)
  {
    MintedGrow(n, s.fired, f);
    var fired' := s.fired + [f];
    forall j, i | 0 <= j < |fired'| && i in fired'[j].inputs
      ensures InputOk(n, fired', s.tokenSequence, PairOf(fired'[j]), i, j)
    {
      assert j < |s.fired| ==> InputOk(n, s.fired, s.tokenSequence, PairOf(s.fired[j]), i, j);
    }
  }

  lemma MarkDone(s: State, f: Firing)
    requires DoneInv(s.completedKeys, s.keyedOutcomes, s.fired) && !HasFired(s.fired, PairOf(f))
    ensures var s' := MarkCompleted(s, f); DoneInv(s'.completedKeys, s'.keyedOutcomes, s'.fired)
  {
    var s' := MarkCompleted(s, f);
    forall t, k ensures HasFired(s'.fired, (t, k)) <==> HasFired(s.fired, (t, k)) || PairOf(f) == (t, k) {
      if HasFired(s.fired, (t, k)) {
        var j :| 0 <= j < |s.fired| && PairOf(s.fired[j]) == (t, k);
        assert s'.fired[j] == s.fired[j];
      }
      if PairOf(f) == (t, k) {
        assert PairOf(s'.fired[|s.fired|]) == (t, k);
      }
    }
    forall j | 0 <= j < |s'.fired|
      ensures IsDone(s'.completedKeys, s'.fired[j].transition, s'.fired[j].key)
           && s'.keyedOutcomes[s'.fired[j].transition][s'.fired[j].key] == s'.fired[j].result.outcome
    {
      if j < |s.fired| {
        assert PairOf(s.fired[j]) != PairOf(f);
      }
    }
  }

  lemma MarkBag(n: Cpn, s: State, f: Firing, tk: Pair)
    requires BagInv(n, s.placeTokens, s.cache, s.fired, s.late, s.tokenSequence) && tk in s.cache
    requires f.inputs == s.cache[tk]
    ensures BagInv(n, s.placeTokens, s.cache - {tk}, s.fired + [f], s.late, s.tokenSequence)
  {
    MintedGrow(n, s.fired, f);
    assert Mints(n, s.fired)[..s.tokenSequence] == Mints(n, s.fired + [f])[..s.tokenSequence];
    SumBagPeel(s.cache, InputBag, tk);
    assert (s.fired + [f])[..|s.fired|] == s.fired;
  }

  lemma MarkTokens(n: Cpn, s: State, f: Firing, tk: Pair)
    requires TokenInv(n, s.placeTokens, s.fired, s.tokenSequence)
    requires CacheInv(n, s.cache, s.completedKeys, s.fired, s.tokenSequence) && PairOf(f) == tk
    ensures var s' := MarkCompleted(s, f);
            && TokenInv(n, s'.placeTokens, s'.fired, s'.tokenSequence)
            && CacheInv(n, s'.cache, s'.completedKeys, s'.fired, s'.tokenSequence)
  {
    MintedGrow(n, s.fired, f);
  }

  lemma MarkLate(n: Cpn, s: State, f: Firing)
    requires LateInv(n, s.late, s.fired, s.tokenSequence, s.completedKeys)
    ensures var s' := MarkCompleted(s, f); LateInv(n, s'.late, s'.fired, s'.tokenSequence, s'.completedKeys)
  {
    MintedGrow(n, s.fired, f);
    var s' := MarkCompleted(s, f);
    forall token | token in s'.late
      ensures exists p :: p in n.graph.consumer && IsDone(s'.completedKeys, n.graph.consumer[p], token.key)
                          && MintedAt(n, s'.fired, s'.tokenSequence, p, token, |s'.fired|)
    {
      var p :| p in n.graph.consumer && IsDone(s.completedKeys, n.graph.consumer[p], token.key)
               && MintedAt(n, s.fired, s.tokenSequence, p, token, |s.fired|);
    }
  }

  lemma MarkQueue(n: Cpn, s: State, f: Firing, fly: set<Pair>, tk: Pair)
    requires TriesInv(n, s.attempts, s.retried, s.cache, s.completedKeys) && PairOf(f) == tk && tk in fly
    requires ReadyInv(n, s.placeTokens, s.cache, s.completedKeys, s.readySet, fly)
    ensures var s' := MarkCompleted(s, f);
            && TriesInv(n, s'.attempts, s'.retried, s'.cache, s'.completedKeys)
            && ReadyInv(n, s'.placeTokens, s'.cache, s'.completedKeys, s'.readySet, fly - {tk})
  {
    var s' := MarkCompleted(s, f);
    assert forall t, k :: IsDone(s'.completedKeys, t, k) <==> IsDone(s.completedKeys, t, k) || (t, k) == tk;
  }

  /** Completion happens at most once per pair, and leaves its tokens to be emitted. */
  lemma MarkSafe(n: Cpn, s: State, f: Firing, fly: set<Pair>, tk: Pair)
    requires Safe(n, s, fly) && Settled(n, s) && tk in fly && tk in s.cache
    requires PairOf(f) == tk && FiringOk(n, f) && f.inputs == s.cache[tk]
    ensures Safe(n, MarkCompleted(s, f), fly - {tk})
    ensures Mints(n, s.fired + [f]) == Mints(n, s.fired) + MintsOf(n, f, s.tokenSequence, |s.fired|)
  {
    assert !HasFired(s.fired, tk);
    MarkFired(n, s, f, tk);
    MarkDone(s, f);
    MarkBag(n, s, f, tk);
    MarkTokens(n, s, f, tk);
    MarkLate(n, s, f);
    MarkQueue(n, s, f, fly, tk);
    MintsSnoc(n, s.fired, f);
  }

  // ------------------------------------------------------------- emitting a token

  /** `token` is the next one due at place `p`. */
  ghost predicate Due(n: Cpn, s: State, p: Id, token: Token) {
    && s.tokenSequence < |Mints(n, s.fired)|
    && Mints(n, s.fired)[s.tokenSequence].place == p && Mints(n, s.fired)[s.tokenSequence].token == token
  }

  lemma DueFacts(n: Cpn, s: State, p: Id, token: Token)
    requires WfNet(n) && Due(n, s, p, token) && FiredInv(n, s.fired, s.tokenSequence)
    ensures p in n.graph.places && token.key in RootKeys(n)
    ensures MintedAt(n, s.fired, s.tokenSequence + 1, p, token, |s.fired|)
  {
    var q, m := s.tokenSequence, Mints(n, s.fired);
    MintFacts(n, s.fired, q);
    var a :| a in Out(n, s.fired[m[q].origin].transition) && a.place == p;
    assert KeyOk(n, PairOf(s.fired[m[q].origin])) by {
      assert FiringOk(n, s.fired[m[q].origin]);
    }
  }

  lemma DueMinted(n: Cpn, s: State, p: Id, token: Token)
    requires Due(n, s, p, token)
    ensures Minted(n, s.fired, s.tokenSequence + 1) == Minted(n, s.fired, s.tokenSequence) + multiset{token}
  {
    var q, m := s.tokenSequence, Mints(n, s.fired);
    assert m[..q + 1] == m[..q] + [m[q]];
    assert MintTokens(m[..q + 1]) == MintTokens(m[..q]) + [token];
  }

  /** Numbering one more token changes nothing else. */
  lemma NextSequence(n: Cpn, b: Buckets, fired: seq<Firing>, q: nat, next: nat)
    requires TokenInv(n, b, fired, q) && next == q + 1
    ensures TokenInv(n, b, fired, next)
  {
    forall p, k, token | token in Tokens(b, p, k)
      ensures token.key == k && MintedAt(n, fired, next, p, token, |fired|)
    {
      assert MintedAt(n, fired, q, p, token, |fired|);
    }
  }

  lemma NextSequenceCache(
    n: Cpn, c: map<Pair, seq<TriggerInput>>, done: map<Id, set<Key>>, fired: seq<Firing>, q: nat, next: nat)
    requires CacheInv(n, c, done, fired, q) && next == q + 1
    ensures CacheInv(n, c, done, fired, next)
  {
    forall tk, i | tk in c && i in c[tk] ensures InputOk(n, fired, next, tk, i, |fired|) {
      assert InputOk(n, fired, q, tk, i, |fired|);
    }
  }

  lemma NextSequenceHistory(n: Cpn, s: State)
    requires FiredInv(n, s.fired, s.tokenSequence)
    requires LateInv(n, s.late, s.fired, s.tokenSequence, s.completedKeys)
    ensures FiredInv(n, s.fired, s.tokenSequence + 1)
    ensures LateInv(n, s.late, s.fired, s.tokenSequence + 1, s.completedKeys)
  {
    forall token | token in s.late
      ensures exists p :: p in n.graph.consumer && IsDone(s.completedKeys, n.graph.consumer[p], token.key)
                          && MintedAt(n, s.fired, s.tokenSequence + 1, p, token, |s.fired|)
    {
      var p :| p in n.graph.consumer && IsDone(s.completedKeys, n.graph.consumer[p], token.key)
               && MintedAt(n, s.fired, s.tokenSequence, p, token, |s.fired|);
    }
    forall j, i | 0 <= j < |s.fired| && i in s.fired[j].inputs
      ensures InputOk(n, s.fired, s.tokenSequence + 1, PairOf(s.fired[j]), i, j)
    {
      assert InputOk(n, s.fired, s.tokenSequence, PairOf(s.fired[j]), i, j);
    }
  }

  lemma LateSafe(n: Cpn, s: State, fly: set<Pair>, p: Id, token: Token)
    requires WfNet(n) && Safe(n, s, fly) && Due(n, s, p, token)
    requires p in n.graph.consumer && IsDone(s.completedKeys, n.graph.consumer[p], token.key)
    ensures Safe(n, s.(tokenSequence := s.tokenSequence + 1, lateTotal := s.lateTotal + 1,
                       zombieTotal := s.zombieTotal + 1, late := s.late + [token]), fly)
  {
    hide TokenInv, CacheInv, FiredInv, DoneInv, LateInv, TriesInv, ReadyInv, Enabled, WfNet, MintedAt;
    DueFacts(n, s, p, token);
    DueMinted(n, s, p, token);
    NextSequence(n, s.placeTokens, s.fired, s.tokenSequence, s.tokenSequence + 1);
    NextSequenceCache(n, s.cache, s.completedKeys, s.fired, s.tokenSequence, s.tokenSequence + 1);
    NextSequenceHistory(n, s);
    LateGrows(n, s, p, token);
  }

  lemma LateGrows(n: Cpn, s: State, p: Id, token: Token)
    requires LateInv(n, s.late, s.fired, s.tokenSequence + 1, s.completedKeys)
    requires MintedAt(n, s.fired, s.tokenSequence + 1, p, token, |s.fired|)
    requires p in n.graph.consumer && IsDone(s.completedKeys, n.graph.consumer[p], token.key)
    ensures LateInv(n, s.late + [token], s.fired, s.tokenSequence + 1, s.completedKeys)
  {
  }

  lemma AddReady(n: Cpn, b: Buckets, c: map<Pair, seq<TriggerInput>>, done: map<Id, set<Key>>,
                 readySet: set<Pair>, fly: set<Pair>, p: Id, token: Token)
    requires ReadyInv(n, b, c, done, readySet, fly) && p in b
    ensures ReadyInv(n, AddToken(b, p, token), c, done, readySet, fly)
  {
    AddChanges(b, p, token);
    forall o | o in readySet + fly && o !in c ensures Enabled(n, AddToken(b, p, token), o.0, o.1) {
      EnabledMonotone(n, b, AddToken(b, p, token), o.0, o.1);
    }
  }

  lemma AddTokens(n: Cpn, b: Buckets, fired: seq<Firing>, q: nat, p: Id, token: Token)
    requires TokenInv(n, b, fired, q) && p in b && MintedAt(n, fired, q, p, token, |fired|)
    ensures TokenInv(n, AddToken(b, p, token), fired, q)
  {
    AddChanges(b, p, token);
  }

  lemma PlaceSafe(n: Cpn, s: State, fly: set<Pair>, p: Id, token: Token)
    requires WfNet(n) && Safe(n, s, fly) && Due(n, s, p, token) && p in s.placeTokens
    ensures Safe(n, s.(tokenSequence := s.tokenSequence + 1, placeTokens := AddToken(s.placeTokens, p, token)), fly)
  {
    hide TokenInv, CacheInv, FiredInv, DoneInv, LateInv, TriesInv, ReadyInv, Enabled, WfNet, MintedAt;
    DueFacts(n, s, p, token);
    DueMinted(n, s, p, token);
    NextSequence(n, s.placeTokens, s.fired, s.tokenSequence, s.tokenSequence + 1);
    NextSequenceCache(n, s.cache, s.completedKeys, s.fired, s.tokenSequence, s.tokenSequence + 1);
    NextSequenceHistory(n, s);
    AddTokens(n, s.placeTokens, s.fired, s.tokenSequence + 1, p, token);
    AddConserves(s.placeTokens, p, token);
    AddReady(n, s.placeTokens, s.cache, s.completedKeys, s.readySet, fly, p, token);
  }

  lemma PushSafe(n: Cpn, s: State, fly: set<Pair>, tk: Pair, retry: bool)
    requires Safe(n, s, fly) && KeyOk(n, tk) && tk !in fly
    requires IsDone(s.completedKeys, tk.0, tk.1) || tk in s.cache || Enabled(n, s.placeTokens, tk.0, tk.1)
    ensures PushReady(n, s, tk.0, tk.1, retry).Ok? && Safe(n, PushReady(n, s, tk.0, tk.1, retry).value, fly)
  {
    hide TokenInv, CacheInv, FiredInv, DoneInv, LateInv, BagInv, TriesInv, Enabled;
  }

  lemma WakeSafe(n: Cpn, s: State, fly: set<Pair>, p: Id, key: Key)
    requires WfNet(n) && Safe(n, s, fly) && key in RootKeys(n)
    requires forall o :: o in fly ==> o.1 != key
    ensures var r := WakeConsumer(n, s, p, key);
            && r.Ok? && Safe(n, r.value, fly)
            && r.value.tokenSequence == s.tokenSequence && r.value.fired == s.fired
  {
    hide Safe, Enabled;
    if p in n.graph.consumer {
      var t := n.graph.consumer[p];
      var a :| a in In(n, t) && a.place == p;
      if Enabled(n, s.placeTokens, t, key) {
        PushSafe(n, s, fly, (t, key), false);
      }
    }
  }

  lemma DuePlaced(n: Cpn, s: State, fly: set<Pair>, p: Id, token: Token)
    requires WfNet(n) && Safe(n, s, fly) && Due(n, s, p, token)
    ensures p in s.placeTokens && token.key in RootKeys(n)
  {
    DueFacts(n, s, p, token);
  }

  /** `insert_token` never errs on the token that is due, and keeps the invariants. */
  lemma InsertSafe(n: Cpn, s: State, fly: set<Pair>, p: Id, token: Token)
    requires WfNet(n) && Safe(n, s, fly) && Due(n, s, p, token)
    requires forall o :: o in fly ==> o.1 != token.key
    ensures var r := InsertToken(n, s.(tokenSequence := s.tokenSequence + 1), p, token);
            && r.Ok? && Safe(n, r.value, fly)
            && r.value.tokenSequence == s.tokenSequence + 1 && r.value.fired == s.fired
  {
    hide Safe;
    if p in n.graph.consumer && IsDone(s.completedKeys, n.graph.consumer[p], token.key) {
      LateSafe(n, s, fly, p, token);
    } else {
      DuePlaced(n, s, fly, p, token);
      PlaceSafe(n, s, fly, p, token);
      var s' := s.(tokenSequence := s.tokenSequence + 1, placeTokens := AddToken(s.placeTokens, p, token));
      WakeSafe(n, s', fly, p, token.key);
    }
  }

  // -------------------------------------------------------------- whole operations

  /** `s` has emitted the first `i` tokens of its last firing `f`. */
  ghost predicate Emitting(n: Cpn, s: State, f: Firing, i: nat) {
    && i <= |Out(n, f.transition)| && s.fired != [] && s.fired[|s.fired| - 1] == f
    && s.tokenSequence == |Mints(n, s.fired[..|s.fired| - 1])| + i
  }

  lemma EmittingDue(n: Cpn, s: State, f: Firing, i: nat)
    requires Emitting(n, s, f, i)
    ensures i < |Out(n, f.transition)| ==>
              Due(n, s, Out(n, f.transition)[i].place, MakeToken(n, f, s.tokenSequence + 1))
    ensures i == |Out(n, f.transition)| ==> Settled(n, s)
  {
  }

  /** The emission loop: after `i` of the firing's arcs, token `i` is the next one due. */
  lemma {:induction false} EmitSafe(n: Cpn, s: State, fly: set<Pair>, f: Firing, i: nat)
    requires WfNet(n) && Safe(n, s, fly) && Emitting(n, s, f, i)
    requires forall o :: o in fly ==> o.1 != f.key
    ensures var r := EmitArcs(n, s, f, Out(n, f.transition)[i..]);
            r.Ok? && Safe(n, r.value, fly) && Settled(n, r.value) && r.value.fired == s.fired
    decreases |Out(n, f.transition)| - i
  {
    hide Safe, WfNet, InsertToken, Mints;
    EmittingDue(n, s, f, i);
    var arcs := Out(n, f.transition);
    if i < |arcs| {
      var token := MakeToken(n, f, s.tokenSequence + 1);
      InsertSafe(n, s, fly, arcs[i].place, token);
      var s' := InsertToken(n, s.(tokenSequence := s.tokenSequence + 1), arcs[i].place, token).value;
      assert arcs[i..][1..] == arcs[i + 1..];
      EmitSafe(n, s', fly, f, i + 1);
    }
  }

  /** `complete_transition` never errs on a pair in flight that holds its inputs. */
  lemma CompleteSafe(n: Cpn, s: State, fly: set<Pair>, tk: Pair, run: RunResult)
    requires WfNet(n) && Safe(n, s, fly) && Settled(n, s) && tk in fly && tk in s.cache
    requires FiringOk(n, FiringOf(s, tk.0, tk.1, run))
    requires forall o :: o in fly && o != tk ==> o.1 != tk.1
    ensures var r := Complete(n, s, tk.0, tk.1, run);
            && r.Ok? && Safe(n, r.value, fly - {tk}) && Settled(n, r.value)
            && r.value.fired == s.fired + [FiringOf(s, tk.0, tk.1, run)]
  {
    hide Safe;
    var f := FiringOf(s, tk.0, tk.1, run);
    MarkSafe(n, s, f, fly, tk);
    var s' := MarkCompleted(s, f);
    assert s'.fired[..|s.fired|] == s.fired;
    assert Out(n, tk.0)[0..] == Out(n, tk.0);
    EmitSafe(n, s', fly - {tk}, f, 0);
  }

  lemma RetrySafe(n: Cpn, s: State, fly: set<Pair>, tk: Pair, run: RunResult)
    requires Safe(n, s, fly) && tk in fly && tk in s.cache
    requires Retryable(run.outcome) && GetOr(s.attempts, tk, 0) + 1 <= n.specs[tk.0].maxRetries
    ensures var a := GetOr(s.attempts, tk, 0) + 1;
            var s' := s.(attempts := s.attempts[tk := a], retryTotal := s.retryTotal + 1,
                         retried := s.retried[tk := GetOr(s.retried, tk, []) + [run]]);
            Safe(n, s', fly - {tk}) && KeyOk(n, tk)
  {
    hide TokenInv, CacheInv, FiredInv, DoneInv, LateInv, BagInv, Enabled;
    NotDoneCached(n, s, fly, tk);
  }

  lemma NotDoneCached(n: Cpn, s: State, fly: set<Pair>, tk: Pair)
    requires Safe(n, s, fly) && tk in fly
    ensures !IsDone(s.completedKeys, tk.0, tk.1) && tk.0 in n.specs
  {}
}
