/** Batch selection: `cmp_ready` is a total order on the queue, and batches split the queue. */
module EngineScheduling {
  import opened Prelude
  import opened Net
  import opened EngineModel
  import opened EngineQueue

  // -------------------------------------------------------------------- cmp_ready

  lemma CmpReadyTrans(a: ReadyItem, b: ReadyItem, c: ReadyItem)
    requires CmpReady(a, b) != Greater && CmpReady(b, c) != Greater
    ensures CmpReady(a, c) != Greater
  {
    hide CmpString;
    if CmpString(a.transition, b.transition) != Greater && CmpString(b.transition, c.transition) != Greater {
      StringLeTrans(a.transition, b.transition, c.transition);
      CmpStringEqual(a.transition, b.transition);
      CmpStringEqual(b.transition, c.transition);
    }
    if CmpString(a.key, b.key) != Greater && CmpString(b.key, c.key) != Greater {
      StringLeTrans(a.key, b.key, c.key);
      CmpStringEqual(a.key, b.key);
      CmpStringEqual(b.key, c.key);
    }
  }

  lemma CmpReadyLawful()
    ensures Lawful(CmpReady)
  {
    forall a, b ensures CmpReady(b, a) == CmpReady(a, b).Flip() {
      CmpStringFlip(a.transition, b.transition);
      CmpStringFlip(a.key, b.key);
    }
    forall a, b, c | CmpReady(a, b) != Greater && CmpReady(b, c) != Greater ensures CmpReady(a, c) != Greater {
      CmpReadyTrans(a, b, c);
    }
  }

  /** Ties mean the same transition and key, so a queue without duplicates has none. */
  lemma CmpReadyTies(q: seq<ReadyItem>, a: ReadyItem, b: ReadyItem)
    requires Distinct(PairsOf(q)) && a in q && b in q && CmpReady(a, b) == Equal
    ensures a == b
  {
    CmpStringEqual(a.transition, b.transition);
    CmpStringEqual(a.key, b.key);
    var i :| 0 <= i < |q| && q[i] == a;
    var j :| 0 <= j < |q| && q[j] == b;
    assert PairsOf(q)[i] == PairsOf(q)[j];
  }

  // ----------------------------------------------------------------- permutations

  lemma Unplug<T>(s: seq<T>, i: nat)
    requires i < |s|
    ensures multiset(s) == multiset(s[..i] + s[i + 1..]) + multiset{s[i]}
  {
    assert s == s[..i] + [s[i]] + s[i + 1..];
  }

  lemma PairsUnplug(s: seq<ReadyItem>, i: nat)
    requires i < |s|
    ensures multiset(PairsOf(s)) == multiset(PairsOf(s[..i] + s[i + 1..])) + multiset{ItemPair(s[i])}
  {
    Unplug(PairsOf(s), i);
    assert PairsOf(s[..i] + s[i + 1..]) == PairsOf(s)[..i] + PairsOf(s)[i + 1..];
  }

  lemma {:induction false} PairsPermute(a: seq<ReadyItem>, b: seq<ReadyItem>)
    requires multiset(a) == multiset(b)
    ensures multiset(PairsOf(a)) == multiset(PairsOf(b))
  {
    assert |a| == |multiset(a)| && |b| == |multiset(b)|;
    if a != [] {
      assert a[0] in multiset(b);
      var i :| 0 <= i < |b| && b[i] == a[0];
      var rest := b[..i] + b[i + 1..];
      Unplug(b, i);
      TailBag(a);
      assert multiset(rest) == multiset(b) - multiset{b[i]};
      PairsPermute(a[1..], rest);
      PairsUnplug(b, i);
      PairsUnplug(a, 0);
      assert a[..0] + a[1..] == a[1..];
    }
  }

  lemma {:induction false} DistinctOnce<T>(s: seq<T>, x: T)
    requires Distinct(s)
    ensures multiset(s)[x] <= 1
  {
    if s != [] {
      assert s == [s[0]] + s[1..];
      DistinctOnce(s[1..], x);
      if x == s[0] {
        assert x !in s[1..];
      }
    }
  }

  lemma DistinctPermutes<T>(a: seq<T>, b: seq<T>)
    requires Distinct(a) && multiset(a) == multiset(b)
    ensures Distinct(b)
  {
    forall i, j | 0 <= i < j < |b| ensures b[i] != b[j] {
      DistinctOnce(a, b[i]);
      assert b == b[..i] + [b[i]] + b[i + 1..j] + [b[j]] + b[j + 1..];
    }
  }

  // ---------------------------------------------------------------------- batches

  /**
   * In both modes the batch and the rest are together the queue, and the batch is as long as the
   * parallelism, at least one, and the queue allow; in Throughput mode it is the front of the queue.
   */
  lemma NextBatchSplits(cfg: Config, ready: seq<ReadyItem>)
    ensures var (batch, rest) := NextBatch(cfg, ready);
            var wanted := if cfg.maxParallelism > 1 then cfg.maxParallelism else 1;
            && multiset(batch + rest) == multiset(ready)
            && (cfg.mode.Throughput? ==> batch + rest == ready)
            && |batch| == (if |ready| < wanted then |ready| else wanted)
            && (ready != [] ==> batch != [])
  {
    var items := if cfg.mode.Deterministic? then Sort(ready, CmpReady) else ready;
    var (batch, rest) := NextBatch(cfg, ready);
    assert batch + rest == items;
  }

  /** Sorting a queue without duplicates: strictly increasing, whatever the queue's order was. */
  lemma SortQueue(q: seq<ReadyItem>, r: seq<ReadyItem>)
    requires Distinct(PairsOf(q)) && multiset(q) == multiset(r)
    ensures Sort(q, CmpReady) == Sort(r, CmpReady)
    ensures var items := Sort(q, CmpReady);
            forall i, j :: 0 <= i < j < |items| ==> CmpReady(items[i], items[j]) == Less
  {
    CmpReadyLawful();
    SortSorted(q, CmpReady);
    SortSorted(r, CmpReady);
    var items := Sort(q, CmpReady);
    SameMembers(items, q);
    forall a, b | a in items && b in items && CmpReady(a, b) == Equal ensures a == b {
      CmpReadyTies(q, a, b);
    }
    SortedUnique(items, Sort(r, CmpReady), CmpReady);
    PairsPermute(q, items);
    DistinctPermutes(PairsOf(q), PairsOf(items));
    forall i, j | 0 <= i < j < |items| ensures CmpReady(items[i], items[j]) == Less {
      assert PairsOf(items)[i] != PairsOf(items)[j];
      assert CmpReady(items[i], items[j]) != Greater;
    }
  }

  /**
   * The Deterministic batch does not depend on the queue's order, and consists of the least
   * elements of the queue, least first.
   */
  lemma DeterministicBatch(cfg: Config, q: seq<ReadyItem>, r: seq<ReadyItem>)
    requires cfg.mode.Deterministic? && Distinct(PairsOf(q)) && multiset(q) == multiset(r)
    ensures NextBatch(cfg, q) == NextBatch(cfg, r)
    ensures var (batch, rest) := NextBatch(cfg, q);
            && (forall i, j :: 0 <= i < j < |batch| ==> CmpReady(batch[i], batch[j]) == Less)
            && (forall i, j :: 0 <= i < |batch| && 0 <= j < |rest| ==> CmpReady(batch[i], rest[j]) == Less)
  {
    hide CmpReady, Sort;
    SortQueue(q, r);
    assert |q| == |multiset(q)| == |multiset(r)| == |r|;
    var items := Sort(q, CmpReady);
    var (batch, rest) := NextBatch(cfg, q);
    assert items == batch + rest;
    forall i, j | 0 <= i < |batch| && 0 <= j < |rest| ensures CmpReady(batch[i], rest[j]) == Less {
      assert items[i] == batch[i] && items[|batch| + j] == rest[j];
    }
  }

  /** The lower level first, then the higher priority, then the ids and the keys in their order. */
  ghost predicate Precedes(a: ReadyItem, b: ReadyItem) {
    a.topoLevel < b.topoLevel
    || (a.topoLevel == b.topoLevel
        && (a.priority > b.priority
            || (a.priority == b.priority
                && (CmpString(a.transition, b.transition) == Less
                    || (a.transition == b.transition && CmpString(a.key, b.key) == Less)))))
  }

  /** On different pairs `cmp_ready` is this order. */
  lemma LessPrecedes(a: ReadyItem, b: ReadyItem)
    requires ItemPair(a) != ItemPair(b)
    ensures CmpReady(a, b) == Less <==> Precedes(a, b)
  {
    CmpStringEqual(a.transition, b.transition);
    CmpStringEqual(a.key, b.key);
    hide CmpString;
  }

  /** What waits behind a Deterministic batch comes after it. */
  lemma UrgentFirst(cfg: Config, q: seq<ReadyItem>, b: ReadyItem, r: ReadyItem)
    requires cfg.mode.Deterministic? && Distinct(PairsOf(q)) && b in NextBatch(cfg, q).0 && r in NextBatch(cfg, q).1
    ensures Precedes(b, r)
  {
    DeterministicBatch(cfg, q, q);
    var (batch, rest) := NextBatch(cfg, q);
    var i :| 0 <= i < |batch| && batch[i] == b;
    var j :| 0 <= j < |rest| && rest[j] == r;
    NextBatchSplits(cfg, q);
    PairsPermute(q, batch + rest);
    DistinctPermutes(PairsOf(q), PairsOf(batch + rest));
    hide Sort, BatchSize, NextBatch, CmpReady, Precedes;
    assert CmpReady(batch[i], rest[j]) == Less;
    assert PairsOf(batch + rest)[i] == ItemPair(b) && PairsOf(batch + rest)[|batch| + j] == ItemPair(r);
    LessPrecedes(b, r);
  }

  lemma NextBatchQueue(cfg: Config, ready: seq<ReadyItem>, readySet: set<Pair>)
    requires QueueInv([], ready, readySet)
    ensures var (batch, rest) := NextBatch(cfg, ready); QueueInv(batch, rest, readySet)
  {
    var (batch, rest) := NextBatch(cfg, ready);
    NextBatchSplits(cfg, ready);
    assert [] + ready == ready;
    PairsPermute(ready, batch + rest);
    DistinctPermutes(PairsOf(ready), PairsOf(batch + rest));
    SameMembers(PairsOf(ready), PairsOf(batch + rest));
  }

  // -------------------------------------------------------------- the parallel batch

  ghost predicate DistinctKeys(items: seq<ReadyItem>) {
    forall i, j :: 0 <= i < j < |items| ==> items[i].key != items[j].key
  }

  lemma {:induction false} FirstPerKeyFacts(items: seq<ReadyItem>)
    ensures DistinctKeys(FirstPerKey(items))
    ensures forall i :: i in FirstPerKey(items) ==> i in items
    ensures items != [] ==> FirstPerKey(items) != []
  {
    if items != [] {
      FirstPerKeyFacts(items[..|items| - 1]);
      assert items == items[..|items| - 1] + [items[|items| - 1]];
    }
  }

  lemma DistinctKeysPermute(a: seq<ReadyItem>, b: seq<ReadyItem>)
    requires DistinctKeys(a) && multiset(a) == multiset(b)
    ensures DistinctKeys(b)
  {
    assert Distinct(a);
    DistinctPermutes(a, b);
    SameMembers(a, b);
    forall i, j | 0 <= i < j < |b| ensures b[i].key != b[j].key {
      assert b[i] in a && b[j] in a;
      var x :| 0 <= x < |a| && a[x] == b[i];
      var y :| 0 <= y < |a| && a[y] == b[j];
    }
  }

  /** A parallel batch has pairwise distinct keys and comes from the queue. */
  lemma ParallelBatchFacts(ready: seq<ReadyItem>, max: nat)
    ensures var batch := ParallelBatch(ready, max);
            && DistinctKeys(batch) && |batch| <= max
            && (forall i :: i in batch ==> i in ready)
            && (ready != [] && max > 0 ==> batch != [])
  {
    FirstPerKeyFacts(ready);
    var first := FirstPerKey(ready);
    var sorted := Sort(first, CmpReady);
    SameMembers(sorted, first);
    DistinctKeysPermute(first, sorted);
  }

  /** The drain keeps, for every queued key, the item queued first. */
  lemma {:induction false} FirstPerKeyIsFirst(items: seq<ReadyItem>, x: nat)
    requires x < |items| && forall y :: 0 <= y < x ==> items[y].key != items[x].key
    ensures items[x] in FirstPerKey(items)
  {
    var last := |items| - 1;
    var front := items[..last];
    if x < last {
      assert front[x] == items[x] && forall y :: 0 <= y < x ==> front[y] == items[y];
      FirstPerKeyIsFirst(front, x);
    } else {
      FirstPerKeyFacts(front);
      assert forall i :: i in front ==> i.key != items[last].key;
    }
  }

  lemma KeptStrictly(items: seq<ReadyItem>, i: nat, j: nat)
    requires DistinctKeys(items) && i < j < |items| && CmpReady(items[i], items[j]) != Greater
    ensures CmpReady(items[i], items[j]) == Less
  {
    assert items[i].key != items[j].key;
    CmpStringEqual(items[i].key, items[j].key);
  }

  /**
   * The parallel batch is the least of the items kept per key, least first: as many as there are
   * places, and nothing left out comes before anything in it.
   */
  lemma ParallelBatchIsLeast(ready: seq<ReadyItem>, max: nat)
    ensures var batch, kept := ParallelBatch(ready, max), FirstPerKey(ready);
            && |batch| == (if |kept| < max then |kept| else max)
            && (forall i :: i in batch ==> i in kept)
            && (forall i, j :: 0 <= i < j < |batch| ==> CmpReady(batch[i], batch[j]) == Less)
            && (forall b, x :: b in batch && x in kept && x !in batch ==> CmpReady(b, x) == Less)
  {
    hide CmpReady, FirstPerKey, DistinctKeys;
    FirstPerKeyFacts(ready);
    CmpReadyLawful();
    var kept := FirstPerKey(ready);
    var sorted := Sort(kept, CmpReady);
    SortSorted(kept, CmpReady);
    SameMembers(sorted, kept);
    DistinctKeysPermute(kept, sorted);
    hide Sort, Lawful;
    forall i, j | 0 <= i < j < |sorted| ensures CmpReady(sorted[i], sorted[j]) == Less {
      KeptStrictly(sorted, i, j);
    }
    var batch := ParallelBatch(ready, max);
    assert forall y :: 0 <= y < |batch| ==> sorted[y] == batch[y] && batch[y] in batch;
    forall b, x | b in batch && x in kept && x !in batch ensures CmpReady(b, x) == Less {
      var i :| 0 <= i < |batch| && batch[i] == b;
      var j :| 0 <= j < |sorted| && sorted[j] == x;
      assert sorted[i] == b;
    }
  }

  lemma {:induction false} FirstPerKeyShorter(items: seq<ReadyItem>)
    ensures |FirstPerKey(items)| <= |items|
  {
    if items != [] {
      FirstPerKeyShorter(items[..|items| - 1]);
    }
  }

  lemma {:induction false} FirstPerKeyAll(items: seq<ReadyItem>)
    requires DistinctKeys(items)
    ensures FirstPerKey(items) == items
  {
    if items != [] {
      var last := |items| - 1;
      var front := items[..last];
      assert forall i :: 0 <= i < last ==> front[i] == items[i];
      FirstPerKeyAll(front);
      assert forall i :: i in front ==> i.key != items[last].key;
      assert items == front + [items[last]];
    }
  }

  /** Keeping one item per key keeps all exactly when the keys differ. */
  lemma {:induction false} FirstPerKeyLength(items: seq<ReadyItem>)
    ensures |FirstPerKey(items)| == |items| <==> DistinctKeys(items)
  {
    if DistinctKeys(items) {
      FirstPerKeyAll(items);
    } else {
      var last := |items| - 1;
      var front := items[..last];
      FirstPerKeyShorter(front);
      FirstPerKeyLength(front);
      if DistinctKeys(front) {
        FirstPerKeyAll(front);
        var i, j :| 0 <= i < j < |items| && items[i].key == items[j].key;
        assert j == last && front[i] == items[i];
        assert front[i] in FirstPerKey(front);
      }
    }
  }

  /** The parallel drain keeps every waiting item exactly when the keys differ and all fit in one batch. */
  lemma ParallelDrainKeepsAll(ready: seq<ReadyItem>, max: nat)
    ensures multiset(ParallelBatch(ready, max)) == multiset(ready) <==> DistinctKeys(ready) && |ready| <= max
  {
    FirstPerKeyLength(ready);
    FirstPerKeyShorter(ready);
    if DistinctKeys(ready) {
      FirstPerKeyAll(ready);
    }
    hide CmpReady, FirstPerKey, DistinctKeys;
    var batch := ParallelBatch(ready, max);
    assert |Sort(FirstPerKey(ready), CmpReady)| == |multiset(FirstPerKey(ready))| == |FirstPerKey(ready)|;
    assert |batch| == |multiset(batch)| && |ready| == |multiset(ready)|;
  }
}
