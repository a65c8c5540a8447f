/**
 * The ready queue: its shadow set agrees with it, nothing enabled is forgotten on the serial
 * path, and a budget of attempts bounds the whole run.
 */
module EngineQueue {
  import opened Net
  import opened EngineModel
  import opened EngineTokens
  import opened EngineSafety

  // --------------------------------------------------------- what an emission changes

  /** The fields that emitting tokens may change. */
  ghost predicate EmitFrame(s: State, s': State) {
    s' == s.(placeTokens := s'.placeTokens, ready := s'.ready, readySet := s'.readySet,
             tokenSequence := s'.tokenSequence, lateTotal := s'.lateTotal, zombieTotal := s'.zombieTotal,
             late := s'.late)
  }

  lemma InsertFrames(n: Cpn, s: State, p: Id, token: Token)
    requires InsertToken(n, s, p, token).Ok?
    ensures EmitFrame(s, InsertToken(n, s, p, token).value)
  {
  }

  lemma {:induction false} EmitFrames(n: Cpn, s: State, f: Firing, arcs: seq<Arc>)
    requires EmitArcs(n, s, f, arcs).Ok?
    ensures EmitFrame(s, EmitArcs(n, s, f, arcs).value)
    decreases |arcs|
  {
    hide InsertToken;
    if arcs != [] {
      var s1 := s.(tokenSequence := s.tokenSequence + 1);
      var token := MakeToken(n, f, s1.tokenSequence);
      InsertFrames(n, s1, arcs[0].place, token);
      EmitFrames(n, InsertToken(n, s1, arcs[0].place, token).value, f, arcs[1..]);
    }
  }

  // ------------------------------------------------------------ the queue's shadow set

  function ItemPair(i: ReadyItem): Pair { (i.transition, i.key) }

  function PairsOf(items: seq<ReadyItem>): (r: seq<Pair>)
    ensures |r| == |items| && forall i :: 0 <= i < |items| ==> r[i] == ItemPair(items[i])
  {
    seq(|items|, i requires 0 <= i < |items| => ItemPair(items[i]))
  }

  /** Each waiting pair is there once, and `ready_set` holds exactly the waiting pairs. */
  ghost predicate QueueInv(batch: seq<ReadyItem>, ready: seq<ReadyItem>, readySet: set<Pair>) {
    && Distinct(PairsOf(batch + ready))
    && (forall tk :: tk in readySet <==> tk in PairsOf(batch + ready))
  }

  lemma QueuePush(batch: seq<ReadyItem>, ready: seq<ReadyItem>, readySet: set<Pair>, item: ReadyItem)
    requires QueueInv(batch, ready, readySet) && ItemPair(item) !in readySet
    ensures QueueInv(batch, ready + [item], readySet + {ItemPair(item)})
  {
    assert PairsOf(batch + (ready + [item])) == PairsOf(batch + ready) + [ItemPair(item)];
  }

  lemma QueueWake(n: Cpn, s: State, batch: seq<ReadyItem>, p: Id, token: Token)
    requires QueueInv(batch, s.ready, s.readySet) && InsertToken(n, s, p, token).Ok?
    ensures var s' := InsertToken(n, s, p, token).value; QueueInv(batch, s'.ready, s'.readySet)
  {
    var s' := InsertToken(n, s, p, token).value;
    if s'.ready != s.ready {
      QueuePush(batch, s.ready, s.readySet, s'.ready[|s.ready|]);
    }
  }

  lemma {:induction false} QueueEmit(n: Cpn, s: State, batch: seq<ReadyItem>, f: Firing, arcs: seq<Arc>)
    requires QueueInv(batch, s.ready, s.readySet) && EmitArcs(n, s, f, arcs).Ok?
    ensures var s' := EmitArcs(n, s, f, arcs).value; QueueInv(batch, s'.ready, s'.readySet)
    decreases |arcs|
  {
    hide QueueInv, InsertToken;
    if arcs != [] {
      var s1 := s.(tokenSequence := s.tokenSequence + 1);
      var token := MakeToken(n, f, s1.tokenSequence);
      QueueWake(n, s1, batch, arcs[0].place, token);
      QueueEmit(n, InsertToken(n, s1, arcs[0].place, token).value, batch, f, arcs[1..]);
    }
  }

  lemma QueuePop(batch: seq<ReadyItem>, ready: seq<ReadyItem>, readySet: set<Pair>)
    requires QueueInv(batch, ready, readySet) && batch != []
    ensures ItemPair(batch[0]) in readySet
    ensures QueueInv(batch[1..], ready, readySet - {ItemPair(batch[0])})
  {
    var rest := batch[1..] + ready;
    assert batch + ready == [batch[0]] + rest;
    assert PairsOf(batch + ready) == [ItemPair(batch[0])] + PairsOf(rest);
    assert PairsOf(batch + ready)[0] == ItemPair(batch[0]);
    forall tk ensures tk in PairsOf(rest) <==> tk in readySet && tk != ItemPair(batch[0]) {
      if tk in PairsOf(rest) {
        var i :| 0 <= i < |rest| && PairsOf(rest)[i] == tk;
        assert PairsOf(batch + ready)[i + 1] == tk;
      }
    }
    forall i, j | 0 <= i < j < |rest| ensures PairsOf(rest)[i] != PairsOf(rest)[j] {
      assert PairsOf(batch + ready)[i + 1] != PairsOf(batch + ready)[j + 1];
    }
  }

  // --------------------------------------------------------------- no lost wake-up

  /** (t, k) has been given a reason to run. */
  ghost predicate Awake(n: Cpn, b: Buckets, tk: Pair) {
    || (In(n, tk.0) == [] && tk.0 in n.specs && tk.1 == RootKey(n, tk.0))
    || exists a :: a in In(n, tk.0) && Tokens(b, a.place, tk.1) != []
  }

  /** (t, k) should run and has not. */
  ghost predicate Idle(n: Cpn, b: Buckets, done: map<Id, set<Key>>, tk: Pair) {
    tk.0 in n.specs && !IsDone(done, tk.0, tk.1) && Awake(n, b, tk) && Enabled(n, b, tk.0, tk.1)
  }

  /** Every enabled pair with a waiting token, and every pair holding inputs, is queued or in flight. */
  ghost predicate WakeInv(
    n: Cpn, b: Buckets, c: map<Pair, seq<TriggerInput>>, done: map<Id, set<Key>>, queued: set<Pair>)
  {
    && c.Keys <= queued
    && (forall tk: Pair :: Idle(n, b, done, tk) ==> tk in queued)
  }

  lemma AwakeLocal(n: Cpn, b: Buckets, b': Buckets, tk: Pair)
    requires tk.0 in n.specs
    requires forall a :: a in In(n, tk.0) ==> Tokens(b, a.place, tk.1) == Tokens(b', a.place, tk.1)
    ensures Awake(n, b, tk) <==> Awake(n, b', tk)
    ensures Enabled(n, b, tk.0, tk.1) <==> Enabled(n, b', tk.0, tk.1)
  {
    EnabledLocal(n, b, b', tk.0, tk.1);
  }

  lemma WakeTake(n: Cpn, b: Buckets, b': Buckets, c: map<Pair, seq<TriggerInput>>, done: map<Id, set<Key>>,
                 queued: set<Pair>, tk: Pair, inputs: seq<TriggerInput>)
    requires WfNet(n) && WakeInv(n, b, c, done, queued) && tk in queued && Drained(b, b', In(n, tk.0), tk.1)
    ensures WakeInv(n, b', c[tk := inputs], done, queued)
  {
    forall o | Idle(n, b', done, o) && o != tk ensures o in queued {
      AwakeLocal(n, b, b', o);
    }
  }

  lemma WakeMark(n: Cpn, s: State, f: Firing, queued: set<Pair>)
    requires WakeInv(n, s.placeTokens, s.cache, s.completedKeys, queued)
    ensures var s' := MarkCompleted(s, f);
            WakeInv(n, s'.placeTokens, s'.cache, s'.completedKeys, queued - {PairOf(f)})
  {
    var s' := MarkCompleted(s, f);
    assert forall t, k :: IsDone(s'.completedKeys, t, k) <==> IsDone(s.completedKeys, t, k) || (t, k) == PairOf(f);
  }

  lemma WakeAdd(n: Cpn, b: Buckets, done: map<Id, set<Key>>, queued: set<Pair>, p: Id, token: Token)
    requires WfNet(n) && p in b && forall o :: Idle(n, b, done, o) ==> o in queued
    ensures forall o :: Idle(n, AddToken(b, p, token), done, o) ==>
              o in queued || (p in n.graph.consumer && o == (n.graph.consumer[p], token.key))
  {
    AddChanges(b, p, token);
    forall o | Idle(n, AddToken(b, p, token), done, o)
               && !(p in n.graph.consumer && o == (n.graph.consumer[p], token.key))
      ensures o in queued
    {
      AwakeLocal(n, b, AddToken(b, p, token), o);
    }
  }

  lemma WakeWakes(n: Cpn, s: State, p: Id, k: Key, fly: set<Pair>)
    requires WakeConsumer(n, s, p, k).Ok? && s.cache.Keys <= s.readySet + fly
    requires forall o :: Idle(n, s.placeTokens, s.completedKeys, o) ==>
               o in s.readySet + fly || (p in n.graph.consumer && o == (n.graph.consumer[p], k))
    ensures var s' := WakeConsumer(n, s, p, k).value;
            WakeInv(n, s'.placeTokens, s'.cache, s'.completedKeys, s'.readySet + fly)
  {
  }

  /** Inserting a token queues its consumer whenever the token enables it. */
  lemma WakeInsert(n: Cpn, s: State, p: Id, token: Token, fly: set<Pair>)
    requires WfNet(n) && WakeInv(n, s.placeTokens, s.cache, s.completedKeys, s.readySet + fly)
    requires InsertToken(n, s, p, token).Ok?
    ensures var s' := InsertToken(n, s, p, token).value;
            WakeInv(n, s'.placeTokens, s'.cache, s'.completedKeys, s'.readySet + fly)
  {
    hide Idle, WakeConsumer;
    if !(p in n.graph.consumer && IsDone(s.completedKeys, n.graph.consumer[p], token.key)) {
      WakeAdd(n, s.placeTokens, s.completedKeys, s.readySet + fly, p, token);
      WakeWakes(n, s.(placeTokens := AddToken(s.placeTokens, p, token)), p, token.key, fly);
    }
  }

  lemma {:induction false} WakeEmit(n: Cpn, s: State, f: Firing, arcs: seq<Arc>, fly: set<Pair>)
    requires WfNet(n) && WakeInv(n, s.placeTokens, s.cache, s.completedKeys, s.readySet + fly)
    requires EmitArcs(n, s, f, arcs).Ok?
    ensures var s' := EmitArcs(n, s, f, arcs).value;
            WakeInv(n, s'.placeTokens, s'.cache, s'.completedKeys, s'.readySet + fly)
    decreases |arcs|
  {
    hide WfNet, WakeInv, InsertToken;
    if arcs != [] {
      var s1 := s.(tokenSequence := s.tokenSequence + 1);
      var token := MakeToken(n, f, s1.tokenSequence);
      WakeInsert(n, s1, arcs[0].place, token, fly);
      WakeEmit(n, InsertToken(n, s1, arcs[0].place, token).value, f, arcs[1..], fly);
    }
  }

  // ----------------------------------------------------------------------- budget

  /** Attempts the pair may still start; a paid attempt is already on its way. */
  ghost function Left(n: Cpn, done: map<Id, set<Key>>, attempts: map<Pair, nat>, paid: set<Pair>, tk: Pair): nat
    requires tk.0 in n.specs
  {
    var max, used := n.specs[tk.0].maxRetries, GetOr(attempts, tk, 0) + if tk in paid then 1 else 0;
    if IsDone(done, tk.0, tk.1) || used > max then 0 else max + 1 - used
  }

  ghost function Row(
    n: Cpn, done: map<Id, set<Key>>, attempts: map<Pair, nat>, paid: set<Pair>, t: Id, keys: seq<Key>): nat
    requires t in n.specs
  {
    if keys == [] then 0
    else Left(n, done, attempts, paid, (t, keys[0])) + Row(n, done, attempts, paid, t, keys[1..])
  }

  ghost function Total(
    n: Cpn, done: map<Id, set<Key>>, attempts: map<Pair, nat>, paid: set<Pair>, ids: seq<Id>, keys: seq<Key>): nat
    requires forall t :: t in ids ==> t in n.specs
  {
    if ids == [] then 0
    else Row(n, done, attempts, paid, ids[0], keys) + Total(n, done, attempts, paid, ids[1..], keys)
  }

  /** The pairs' budgets only shrink, and the one of `tk` by at least one. */
  ghost predicate Spends(
    n: Cpn, done: map<Id, set<Key>>, attempts: map<Pair, nat>, paid: set<Pair>,
    done': map<Id, set<Key>>, attempts': map<Pair, nat>, paid': set<Pair>, tk: Pair, cost: nat)
  {
    && (forall o: Pair :: o.0 in n.specs ==> Left(n, done', attempts', paid', o) <= Left(n, done, attempts, paid, o))
    && tk.0 in n.specs && Left(n, done', attempts', paid', tk) + cost <= Left(n, done, attempts, paid, tk)
  }

  lemma {:induction false} RowSpends(
    n: Cpn, done: map<Id, set<Key>>, attempts: map<Pair, nat>, paid: set<Pair>,
    done': map<Id, set<Key>>, attempts': map<Pair, nat>, paid': set<Pair>, tk: Pair, cost: nat, t: Id, keys: seq<Key>)
    requires Spends(n, done, attempts, paid, done', attempts', paid', tk, cost) && t in n.specs
    ensures Row(n, done', attempts', paid', t, keys) + (if t == tk.0 && tk.1 in keys then cost else 0)
         <= Row(n, done, attempts, paid, t, keys)
  {
    if keys != [] {
      RowSpends(n, done, attempts, paid, done', attempts', paid', tk, cost, t, keys[1..]);
    }
  }

  lemma {:induction false} TotalSpends(
    n: Cpn, done: map<Id, set<Key>>, attempts: map<Pair, nat>, paid: set<Pair>,
    done': map<Id, set<Key>>, attempts': map<Pair, nat>, paid': set<Pair>, tk: Pair, cost: nat,
    ids: seq<Id>, keys: seq<Key>)
    requires Spends(n, done, attempts, paid, done', attempts', paid', tk, cost)
    requires forall t :: t in ids ==> t in n.specs
    ensures Total(n, done', attempts', paid', ids, keys) + (if tk.0 in ids && tk.1 in keys then cost else 0)
         <= Total(n, done, attempts, paid, ids, keys)
  {
    if ids != [] {
      RowSpends(n, done, attempts, paid, done', attempts', paid', tk, cost, ids[0], keys);
      TotalSpends(n, done, attempts, paid, done', attempts', paid', tk, cost, ids[1..], keys);
    }
  }

  /** The attempts all transitions may make for one key. */
  ghost function AttemptsPerKey(n: Cpn, ids: seq<Id>): nat
    requires forall t :: t in ids ==> t in n.specs
  {
    if ids == [] then 0 else n.specs[ids[0]].maxRetries + 1 + AttemptsPerKey(n, ids[1..])
  }

  lemma {:induction false} RowAtMost(n: Cpn, t: Id, keys: seq<Key>)
    requires t in n.specs
    ensures Row(n, map[], map[], {}, t, keys) == |keys| * (n.specs[t].maxRetries + 1)
  {
    if keys != [] {
      RowAtMost(n, t, keys[1..]);
    }
  }

  lemma {:induction false} TotalAtMost(n: Cpn, ids: seq<Id>, keys: seq<Key>)
    requires forall t :: t in ids ==> t in n.specs
    ensures Total(n, map[], map[], {}, ids, keys) == |keys| * AttemptsPerKey(n, ids)
  {
    if ids != [] {
      RowAtMost(n, ids[0], keys);
      TotalAtMost(n, ids[1..], keys);
      Distributes(|keys|, n.specs[ids[0]].maxRetries + 1, AttemptsPerKey(n, ids[1..]));
    }
  }

  lemma Distributes(a: nat, x: nat, y: nat)
    ensures a * (x + y) == a * x + a * y
  {
  }

  ghost function Listed<T(!new)>(s: set<T>): (r: seq<T>)
    ensures |r| == |s| && forall x :: x in s <==> x in r
  {
    if s == {} then []
    else
      var x :| x in s;
      [x] + Listed(s - {x})
  }

  /** What is left of the run's budget. */
  ghost function Budget(n: Cpn, s: State, paid: set<Pair>): nat
    requires WfNet(n)
  {
    Total(n, s.completedKeys, s.attempts, paid, n.ids, Listed(RootKeys(n)))
  }

  /** Root keys times the sum over transitions of (max_retries + 1). */
  ghost function Bound(n: Cpn): nat
    requires WfNet(n)
  {
    |RootKeys(n)| * AttemptsPerKey(n, n.ids)
  }
}
