/** Where the Quorum join (`execution/engine.rs`) does not mean what it says, and exactly when it does. */
module EngineQuorum {
  import opened Net
  import opened ContextModel
  import opened EngineModel
  import opened EngineQueue
  import opened EngineTheorems
  import opened EngineWakeups

  function Drain(b: Buckets, p: Id, k: Key): Buckets
    requires p in b
  {
    b[p := b[p] - {k}]
  }

  lemma QueuesTail(b: Buckets, arcs: seq<Arc>, k: Key)
    requires arcs != []
    ensures TotalLength(Queues(b, arcs, k)) == |Tokens(b, arcs[0].place, k)| + TotalLength(Queues(b, arcs[1..], k))
  {
    assert Queues(b, arcs, k)[1..] == Queues(b, arcs[1..], k);
  }

  /** Draining a place lowers the count exactly if some arc still counts its tokens. */
  lemma {:induction false} DrainLowers(b: Buckets, arcs: seq<Arc>, p: Id, k: Key)
    requires p in b
    ensures var now, before := TotalLength(Queues(Drain(b, p, k), arcs, k)), TotalLength(Queues(b, arcs, k));
            now <= before && (now == before <==> (Tokens(b, p, k) == [] || forall a :: a in arcs ==> a.place != p))
  {
    if arcs != [] {
      DrainLowers(b, arcs[1..], p, k);
      QueuesTail(b, arcs, k);
      QueuesTail(Drain(b, p, k), arcs, k);
      assert arcs == [arcs[0]] + arcs[1..];
      hide TotalLength, Queues;
    }
  }

  /** No place with waiting tokens is on two input arcs. */
  ghost predicate CountedOnce(b: Buckets, arcs: seq<Arc>, k: Key) {
    forall i, j :: 0 <= i < j < |arcs| && arcs[i].place == arcs[j].place ==> Tokens(b, arcs[i].place, k) == []
  }

  lemma CountedTail(b: Buckets, arcs: seq<Arc>, k: Key)
    requires arcs != [] && arcs[0].place in b
    ensures var p := arcs[0].place;
            CountedOnce(b, arcs, k) <==> && CountedOnce(Drain(b, p, k), arcs[1..], k)
                                         && (Tokens(b, p, k) == [] || forall a :: a in arcs[1..] ==> a.place != p)
  {
    var p, rest := arcs[0].place, arcs[1..];
    var d := Drain(b, p, k);
    assert forall q :: q != p ==> Tokens(d, q, k) == Tokens(b, q, k);
    assert Tokens(d, p, k) == [];
    if CountedOnce(b, arcs, k) {
      forall i, j | 0 <= i < j < |rest| && rest[i].place == rest[j].place ensures Tokens(d, rest[i].place, k) == [] {
        assert arcs[i + 1] == rest[i] && arcs[j + 1] == rest[j];
      }
      if a :| a in rest && a.place == p {
        var j :| 0 <= j < |rest| && rest[j] == a;
        assert arcs[j + 1].place == arcs[0].place;
      }
    } else {
      var i, j :| 0 <= i < j < |arcs| && arcs[i].place == arcs[j].place && Tokens(b, arcs[i].place, k) != [];
      assert rest[j - 1] == arcs[j] && rest[j - 1] in rest;
      if i > 0 && arcs[i].place != p {
        assert rest[i - 1] == arcs[i];
      }
    }
  }

  /**
   * A quorum counts tokens per arc, the trigger gets them per place: the count is what the trigger
   * will receive exactly if no place with waiting tokens is on two of the transition's arcs.
   */
  lemma {:induction false} QuorumCountsTheInputs(b: Buckets, arcs: seq<Arc>, k: Key)
    requires ConsumeArcs(b, arcs, k).Ok?
    ensures |ConsumeArcs(b, arcs, k).value.1| <= TotalLength(Queues(b, arcs, k))
    ensures |ConsumeArcs(b, arcs, k).value.1| == TotalLength(Queues(b, arcs, k)) <==> CountedOnce(b, arcs, k)
    decreases |arcs|
  {
    if arcs != [] {
      var p := arcs[0].place;
      QueuesTail(b, arcs, k);
      DrainLowers(b, arcs[1..], p, k);
      CountedTail(b, arcs, k);
      QuorumCountsTheInputs(Drain(b, p, k), arcs[1..], k);
      hide TotalLength, Queues, CountedOnce;
    }
  }

  /** So one token on a doubled arc fills a quorum of two. */
  lemma OneTokenFillsTwo(b: Buckets, a: Arc, c: Arc, k: Key)
    requires a.place == c.place && |Tokens(b, a.place, k)| == 1
    ensures JoinReady(Quorum(2), Queues(b, [a, c], k))
  {
    QueuesTail(b, [a, c], k);
    assert [a, c][1..] == [c];
    QueuesTail(b, [c], k);
  }

  /** A Quorum(0) transition with optional inputs, none of which has a token under the key. */
  predicate Hollow(n: Cpn, b: Buckets, t: Id, k: Key)
    requires t in n.specs
  {
    && n.specs[t].transition.join == Quorum(0) && In(n, t) != []
    && forall a :: a in In(n, t) ==> !a.required && Tokens(b, a.place, k) == []
  }

  lemma {:induction false} NothingCounted(b: Buckets, arcs: seq<Arc>, k: Key)
    requires forall a :: a in arcs ==> Tokens(b, a.place, k) == []
    ensures TotalLength(Queues(b, arcs, k)) == 0
  {
    if arcs != [] {
      assert arcs[0] in arcs && forall a :: a in arcs[1..] ==> a in arcs;
      QueuesTail(b, arcs, k);
      NothingCounted(b, arcs[1..], k);
    }
  }

  /** The only pairs that are enabled without a reason to run, roots under foreign keys aside. */
  lemma EnabledAsleep(n: Cpn, b: Buckets, t: Id, k: Key)
    requires t in n.specs && (In(n, t) != [] || k == RootKey(n, t))
    ensures Enabled(n, b, t, k) && !Awake(n, b, (t, k)) <==> Hollow(n, b, t, k)
  {
    var arcs := In(n, t);
    var queues := Queues(b, arcs, k);
    if arcs != [] && forall a :: a in arcs ==> Tokens(b, a.place, k) == [] {
      NothingCounted(b, arcs, k);
      assert forall q :: q in queues ==> q == [];
      assert queues[0] in queues;
      hide TotalLength;
    }
  }

  /**
   * `Quorum(0)` counts as ready without tokens, but only tokens and being a root queue a pair. At
   * every turn of every run the incomplete pairs that are enabled and were neither queued nor
   * dropped by a drain are exactly those of a Quorum(0) without waiting or held inputs.
   */
  lemma QuorumZeroSleeps(n: Cpn, cfg: Config, runner: Runner, ctx: Store, i: nat, t: Id, k: Key)
    requires WfNet(n) && Wf(ctx) && Run(n, cfg, runner, ctx, i).Ok? && !Run(n, cfg, runner, ctx, i).value.stopped
    requires t in n.specs && (In(n, t) != [] || k == RootKey(n, t))
    requires !IsDone(StateAt(n, cfg, runner, ctx, i).completedKeys, t, k)
    ensures var s := StateAt(n, cfg, runner, ctx, i);
            && Enabled(n, s.placeTokens, t, k) && (t, k) !in s.readySet && (t, k) !in Dropped(n, cfg, runner, ctx, i)
            <==> Hollow(n, s.placeTokens, t, k) && (t, k) !in s.cache
  {
    hide WfNet, Run, Enabled, Awake, Hollow, Dropped;
    NeverLost(n, cfg, runner, ctx, i);
    var s := StateAt(n, cfg, runner, ctx, i);
    EnabledAsleep(n, s.placeTokens, t, k);
    assert Wants(n, s, (t, k)) <==> (t, k) in s.readySet || (t, k) in Dropped(n, cfg, runner, ctx, i);
  }
}
