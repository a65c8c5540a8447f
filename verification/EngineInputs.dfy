/**
 * What a pair is given when it starts: all that waits for it, arc by arc and oldest first, and
 * enough of it for its join.
 */
module EngineInputs {
  import opened Prelude
  import opened Net
  import opened Router
  import opened EngineModel
  import opened EngineTokens
  import opened EngineSafety
  import opened EngineTheorems

  // ------------------------------------------------------ what a join asks for

  /** How many tokens the arcs deliver, counted arc by arc. */
  ghost function Supply(arcs: seq<Arc>, at: Id -> seq<Token>): nat {
    if arcs == [] then 0 else |at(arcs[0].place)| + Supply(arcs[1..], at)
  }

  ghost predicate EachFilled(arcs: seq<Arc>, at: Id -> seq<Token>) {
    forall a :: a in arcs ==> at(a.place) != []
  }

  /** The policy in terms of the tokens that wait, or waited, at each input arc's place. */
  ghost predicate Meets(policy: JoinPolicy, arcs: seq<Arc>, at: Id -> seq<Token>) {
    match policy
    case AllOf => EachFilled(arcs, at)
    case KeyedGroup => EachFilled(arcs, at)
    case KeyedPair => |arcs| == 2 && EachFilled(arcs, at)
    case AnyOf => exists a :: a in arcs && at(a.place) != []
    case FirstCompleted => exists a :: a in arcs && at(a.place) != []
    case FirstSuccess =>
      EachFilled(arcs, at) || exists a, x :: a in arcs && x in at(a.place) && x.meta.outcome == Success
    case Quorum(k) => Supply(arcs, at) >= k
  }

  /** Roots always may run; others need their required arcs and their policy. */
  ghost predicate May(n: Cpn, t: Id, at: Id -> seq<Token>)
    requires t in n.specs
  {
    || In(n, t) == []
    || ((forall a :: a in In(n, t) && a.required ==> at(a.place) != [])
        && Meets(n.specs[t].transition.join, In(n, t), at))
  }

  lemma {:induction false} SupplyTotal(b: Buckets, arcs: seq<Arc>, k: Key)
    ensures TotalLength(Queues(b, arcs, k)) == Supply(arcs, p => Tokens(b, p, k))
  {
    if arcs != [] {
      assert Queues(b, arcs, k)[1..] == Queues(b, arcs[1..], k);
      SupplyTotal(b, arcs[1..], k);
    }
  }

  lemma FilledQueues(b: Buckets, arcs: seq<Arc>, k: Key)
    ensures AllFilled(Queues(b, arcs, k)) <==> EachFilled(arcs, p => Tokens(b, p, k))
    ensures AnyFilled(Queues(b, arcs, k)) <==> exists a :: a in arcs && Tokens(b, a.place, k) != []
    ensures AnySuccess(Queues(b, arcs, k))
            <==> exists a, x :: a in arcs && x in Tokens(b, a.place, k) && x.meta.outcome == Success
  {
    var q := Queues(b, arcs, k);
    forall a | a in arcs ensures Tokens(b, a.place, k) in q {
      var i :| 0 <= i < |arcs| && arcs[i] == a;
      assert q[i] == Tokens(b, a.place, k);
    }
    forall x | x in q ensures exists a :: a in arcs && Tokens(b, a.place, k) == x {
      var i :| 0 <= i < |q| && q[i] == x;
      assert arcs[i] in arcs;
    }
  }

  /** `is_transition_ready` asks for exactly this. */
  lemma EnabledMeaning(n: Cpn, b: Buckets, t: Id, k: Key)
    requires t in n.specs
    ensures Enabled(n, b, t, k) <==> May(n, t, p => Tokens(b, p, k))
  {
    hide Tokens;
    SupplyTotal(b, In(n, t), k);
    FilledQueues(b, In(n, t), k);
    hide Supply, TotalLength, EachFilled, AllFilled, AnyFilled, AnySuccess;
  }

  lemma {:induction false} SupplySame(arcs: seq<Arc>, x: Id -> seq<Token>, y: Id -> seq<Token>)
    requires forall a :: a in arcs ==> x(a.place) == y(a.place)
    ensures Supply(arcs, x) == Supply(arcs, y)
  {
    if arcs != [] {
      assert arcs[0] in arcs;
      SupplySame(arcs[1..], x, y);
    }
  }

  lemma MaySame(n: Cpn, t: Id, x: Id -> seq<Token>, y: Id -> seq<Token>)
    requires t in n.specs && May(n, t, x) && forall a :: a in In(n, t) ==> x(a.place) == y(a.place)
    ensures May(n, t, y)
  {
    SupplySame(In(n, t), x, y);
    hide Supply;
  }

  // ------------------------------------------------------- what consumption hands out

  /** The tokens of the inputs from one place, in order. */
  ghost function At(inputs: seq<TriggerInput>, p: Id): seq<Token> {
    if inputs == [] then []
    else (if inputs[0].place == p then [inputs[0].token] else []) + At(inputs[1..], p)
  }

  lemma {:induction false} AtAppend(x: seq<TriggerInput>, y: seq<TriggerInput>, p: Id)
    ensures At(x + y, p) == At(x, p) + At(y, p)
  {
    if x == [] {
      assert x + y == y;
    } else {
      assert (x + y)[1..] == x[1..] + y;
      AtAppend(x[1..], y, p);
    }
  }

  lemma {:induction false} AtArc(a: Arc, tokens: seq<Token>, p: Id)
    ensures At(AsInputs(a, tokens), p) == if p == a.place then tokens else []
  {
    if tokens != [] {
      assert AsInputs(a, tokens)[1..] == AsInputs(a, tokens[1..]);
      AtArc(a, tokens[1..], p);
    }
  }

  lemma {:induction false} AtNowhere(inputs: seq<TriggerInput>, p: Id)
    requires forall i :: i in inputs ==> i.place != p
    ensures At(inputs, p) == []
  {
    if inputs != [] {
      AtNowhere(inputs[1..], p);
    }
  }

  /** Each input place gives all its tokens of the key, in their order. */
  lemma {:induction false} ConsumeAt(b: Buckets, arcs: seq<Arc>, k: Key, p: Id)
    requires ConsumeArcs(b, arcs, k).Ok? && exists a :: a in arcs && a.place == p
    ensures At(ConsumeArcs(b, arcs, k).value.1, p) == Tokens(b, p, k)
    decreases |arcs|
  {
    var a := arcs[0];
    var b1 := b[a.place := b[a.place] - {k}];
    var here, rest := AsInputs(a, Tokens(b, a.place, k)), ConsumeArcs(b1, arcs[1..], k).value.1;
    AtArc(a, Tokens(b, a.place, k), p);
    AtAppend(here, rest, p);
    if a.place == p {
      forall i | i in rest ensures i.place != p {
        ConsumeOrigin(b1, arcs[1..], k, i);
      }
      AtNowhere(rest, p);
    } else {
      ConsumeAt(b1, arcs[1..], k, p);
    }
  }

  /** The index of the first arc from or to the place. */
  function FirstAt(arcs: seq<Arc>, p: Id): nat {
    if arcs == [] || arcs[0].place == p then 0 else 1 + FirstAt(arcs[1..], p)
  }

  ghost predicate Rising(q: seq<Token>) {
    forall i, j :: 0 <= i < j < |q| ==> q[i].meta.sequence < q[j].meta.sequence
  }

  /** Arc by arc, each place at its first arc and under that arc's label, and oldest token first. */
  ghost predicate Ordered(arcs: seq<Arc>, inputs: seq<TriggerInput>) {
    && (forall x :: 0 <= x < |inputs| ==>
          var i := FirstAt(arcs, inputs[x].place);
          i < |arcs| && arcs[i].place == inputs[x].place && arcs[i].arcLabel == inputs[x].arcLabel)
    && (forall x, y :: 0 <= x < y < |inputs| ==>
          if inputs[x].place == inputs[y].place
          then inputs[x].token.meta.sequence < inputs[y].token.meta.sequence
          else FirstAt(arcs, inputs[x].place) < FirstAt(arcs, inputs[y].place))
  }

  lemma OrderedCons(a: Arc, tokens: seq<Token>, arcs: seq<Arc>, rest: seq<TriggerInput>)
    requires Rising(tokens) && Ordered(arcs, rest) && forall i :: i in rest ==> i.place != a.place
    ensures Ordered([a] + arcs, AsInputs(a, tokens) + rest)
  {
    var all, inputs := [a] + arcs, AsInputs(a, tokens) + rest;
    assert all[1..] == arcs && FirstAt(all, a.place) == 0;
    forall x | 0 <= x < |inputs|
      ensures x >= |tokens| ==> FirstAt(all, inputs[x].place) == 1 + FirstAt(arcs, inputs[x].place)
    {
      if x >= |tokens| {
        assert inputs[x] == rest[x - |tokens|];
      }
    }
  }

  lemma {:induction false} ConsumeOrdered(b: Buckets, arcs: seq<Arc>, k: Key)
    requires ConsumeArcs(b, arcs, k).Ok? && forall p :: Rising(Tokens(b, p, k))
    ensures Ordered(arcs, ConsumeArcs(b, arcs, k).value.1)
    decreases |arcs|
  {
    if arcs != [] {
      var a := arcs[0];
      var b1 := b[a.place := b[a.place] - {k}];
      var rest := ConsumeArcs(b1, arcs[1..], k).value.1;
      forall p ensures Rising(Tokens(b1, p, k)) {
        assert Tokens(b1, p, k) == Tokens(b, p, k) || Tokens(b1, p, k) == [];
      }
      ConsumeOrdered(b1, arcs[1..], k);
      forall i | i in rest ensures i.place != a.place {
        ConsumeOrigin(b1, arcs[1..], k, i);
      }
      OrderedCons(a, Tokens(b, a.place, k), arcs[1..], rest);
      assert [a] + arcs[1..] == arcs;
    }
  }

  // ----------------------------------------------------------- first in, first out

  /** In every bucket the tokens stand in the order in which they were minted. */
  ghost predicate Fifo(b: Buckets, q: nat) {
    && (forall p, k :: Rising(Tokens(b, p, k)))
    && (forall p, k, token :: token in Tokens(b, p, k) ==> token.meta.sequence <= q)
  }

  lemma AddFifo(b: Buckets, q: nat, p: Id, token: Token)
    requires Fifo(b, q) && p in b && token.meta.sequence == q + 1
    ensures Fifo(AddToken(b, p, token), q + 1)
  {
    AddChanges(b, p, token);
    forall p', k ensures Rising(Tokens(AddToken(b, p, token), p', k)) {
      assert Rising(Tokens(b, p', k));
    }
  }

  lemma InsertFifo(n: Cpn, s: State, p: Id, token: Token)
    requires Fifo(s.placeTokens, s.tokenSequence) && token.meta.sequence == s.tokenSequence + 1
    requires InsertToken(n, s.(tokenSequence := s.tokenSequence + 1), p, token).Ok?
    ensures var s' := InsertToken(n, s.(tokenSequence := s.tokenSequence + 1), p, token).value;
            Fifo(s'.placeTokens, s'.tokenSequence) && s'.tokenSequence == s.tokenSequence + 1
  {
    hide IsTransitionReady;
    if p in s.placeTokens {
      AddFifo(s.placeTokens, s.tokenSequence, p, token);
    }
  }

  lemma {:induction false} EmitFifo(n: Cpn, s: State, f: Firing, arcs: seq<Arc>)
    requires Fifo(s.placeTokens, s.tokenSequence) && EmitArcs(n, s, f, arcs).Ok?
    ensures var s' := EmitArcs(n, s, f, arcs).value; Fifo(s'.placeTokens, s'.tokenSequence)
    decreases |arcs|
  {
    hide InsertToken, Fifo;
    if arcs != [] {
      var token := MakeToken(n, f, s.tokenSequence + 1);
      InsertFifo(n, s, arcs[0].place, token);
      EmitFifo(n, InsertToken(n, s.(tokenSequence := s.tokenSequence + 1), arcs[0].place, token).value, f, arcs[1..]);
    }
  }

  lemma DrainFifo(b: Buckets, b': Buckets, arcs: seq<Arc>, k: Key, q: nat)
    requires Fifo(b, q) && Drained(b, b', arcs, k)
    ensures Fifo(b', q)
  {
    forall p, k' ensures Tokens(b', p, k') == Tokens(b, p, k') || Tokens(b', p, k') == [] {}
  }

  // ------------------------------------------------------------ one token per place

  /** No two output arcs of the net lead to the same place. */
  ghost predicate OneProducer(n: Cpn) {
    forall t, u, i, j :: 0 <= i < |Out(n, t)| && 0 <= j < |Out(n, u)| && Out(n, t)[i].place == Out(n, u)[j].place
                         ==> t == u && i == j
  }

  /** Every join waits for all its inputs, pairs have two, and nothing stops the run early. */
  ghost predicate Waiting(n: Cpn) {
    forall t :: t in n.specs ==>
      && !n.specs[t].kind.Terminal?
      && (n.specs[t].transition.join.AllOf? || n.specs[t].transition.join.KeyedGroup?
          || (n.specs[t].transition.join.KeyedPair? && |In(n, t)| == 2))
  }

  /** The arcs that deliver: the first one of each place. */
  function FirstArcs(arcs: seq<Arc>, seen: set<Id>): seq<Arc> {
    if arcs == [] then []
    else if arcs[0].place in seen then FirstArcs(arcs[1..], seen)
    else [arcs[0]] + FirstArcs(arcs[1..], seen + {arcs[0].place})
  }

  ghost predicate Shaped(arcs: seq<Arc>, inputs: seq<TriggerInput>) {
    |inputs| == |arcs| && forall i :: 0 <= i < |arcs| ==>
      inputs[i].place == arcs[i].place && inputs[i].arcLabel == arcs[i].arcLabel
  }

  lemma {:induction false} FirstArcsCover(arcs: seq<Arc>, seen: set<Id>, a: Arc)
    requires a in arcs && a.place !in seen
    ensures exists i :: 0 <= i < |FirstArcs(arcs, seen)| && FirstArcs(arcs, seen)[i].place == a.place
    decreases |arcs|
  {
    if arcs[0].place == a.place {
      assert FirstArcs(arcs, seen)[0].place == a.place;
    } else {
      assert a in arcs[1..];
      if arcs[0].place in seen {
        FirstArcsCover(arcs[1..], seen, a);
        assert FirstArcs(arcs, seen) == FirstArcs(arcs[1..], seen);
      } else {
        FirstArcsCover(arcs[1..], seen + {arcs[0].place}, a);
        var i :| 0 <= i < |FirstArcs(arcs[1..], seen + {arcs[0].place})|
                 && FirstArcs(arcs[1..], seen + {arcs[0].place})[i].place == a.place;
        assert FirstArcs(arcs, seen)[i + 1].place == a.place;
      }
    }
  }

  /** With one token in each place, consumption takes one token per delivering arc. */
  lemma {:induction false} ConsumeShape(b: Buckets, arcs: seq<Arc>, k: Key, seen: set<Id>)
    requires ConsumeArcs(b, arcs, k).Ok?
    requires forall a :: a in arcs ==> |Tokens(b, a.place, k)| == if a.place in seen then 0 else 1
    ensures Shaped(FirstArcs(arcs, seen), ConsumeArcs(b, arcs, k).value.1)
    decreases |arcs|
  {
    if arcs != [] {
      var p := arcs[0].place;
      assert arcs[0] in arcs;
      var b1 := b[p := b[p] - {k}];
      forall a | a in arcs[1..] ensures |Tokens(b1, a.place, k)| == if a.place in seen + {p} then 0 else 1 {
        assert a in arcs;
      }
      ConsumeShape(b1, arcs[1..], k, seen + {p});
      assert p in seen ==> seen + {p} == seen;
    }
  }

  lemma QueueResident(b: Buckets, p: Id, k: Key, token: Token)
    ensures multiset(Tokens(b, p, k))[token] <= Resident(b)[token]
  {
    if p in b && k in b[p] {
      SumBagPeel(b, BucketBag, p);
      SumBagPeel(b[p], QueueBag, k);
    }
  }

  /** A place gets at most one token per key. */
  lemma SameProducer(n: Cpn, fired: seq<Firing>, q: nat, r: nat)
    requires OneProducer(n) && q < |Mints(n, fired)| && r < |Mints(n, fired)|
    requires forall i, j :: 0 <= i < j < |fired| ==> PairOf(fired[i]) != PairOf(fired[j])
    requires Mints(n, fired)[q].place == Mints(n, fired)[r].place
    requires Mints(n, fired)[q].token.key == Mints(n, fired)[r].token.key
    ensures q == r
  {
    SameOrigin(n, fired, q, r);
    hide Mints;
    if q < r {
      MintSplit(n, fired, q, r);
    } else if r < q {
      MintSplit(n, fired, r, q);
    }
  }

  lemma SameOrigin(n: Cpn, fired: seq<Firing>, q: nat, r: nat)
    requires OneProducer(n) && q < |Mints(n, fired)| && r < |Mints(n, fired)|
    requires forall i, j :: 0 <= i < j < |fired| ==> PairOf(fired[i]) != PairOf(fired[j])
    requires Mints(n, fired)[q].place == Mints(n, fired)[r].place
    requires Mints(n, fired)[q].token.key == Mints(n, fired)[r].token.key
    ensures Mints(n, fired)[q].origin == Mints(n, fired)[r].origin < |fired|
  {
    hide Mints;
    MintFacts(n, fired, q);
    MintFacts(n, fired, r);
    var i, j := Mints(n, fired)[q].origin, Mints(n, fired)[r].origin;
    var p := Mints(n, fired)[q].place;
    var a :| a in Out(n, fired[i].transition) && a.place == p;
    var b :| b in Out(n, fired[j].transition) && b.place == p;
    var x :| 0 <= x < |Out(n, fired[i].transition)| && Out(n, fired[i].transition)[x] == a;
    var y :| 0 <= y < |Out(n, fired[j].transition)| && Out(n, fired[j].transition)[y] == b;
    assert PairOf(fired[i]) == PairOf(fired[j]);
  }

  lemma NoTwice(n: Cpn, s: State, p: Id, k: Key, token: Token)
    requires BagInv(n, s.placeTokens, s.cache, s.fired, s.late, s.tokenSequence) && Settled(n, s)
    ensures multiset(Tokens(s.placeTokens, p, k))[token] <= 1
  {
    hide Mints;
    QueueResident(s.placeTokens, p, k, token);
    MintedOnce(n, s.fired, token);
  }

  lemma SameToken(n: Cpn, s: State, p: Id, k: Key, x: Token, y: Token)
    requires OneProducer(n) && TokenInv(n, s.placeTokens, s.fired, s.tokenSequence)
    requires FiredInv(n, s.fired, s.tokenSequence)
    requires x in Tokens(s.placeTokens, p, k) && y in Tokens(s.placeTokens, p, k)
    ensures x == y
  {
    hide Mints, FiringOk, InputOk, OneProducer;
    assert MintedAt(n, s.fired, s.tokenSequence, p, x, |s.fired|);
    assert MintedAt(n, s.fired, s.tokenSequence, p, y, |s.fired|);
    SameProducer(n, s.fired, x.meta.sequence - 1, y.meta.sequence - 1);
  }

  /** A place never holds two tokens of one key. */
  lemma OneToken(n: Cpn, s: State, fly: set<Pair>, p: Id, k: Key)
    requires OneProducer(n) && Safe(n, s, fly) && Settled(n, s)
    ensures |Tokens(s.placeTokens, p, k)| <= 1
  {
    hide CacheInv, DoneInv, TriesInv, LateInv, ReadyInv, BagInv, TokenInv, FiredInv, OneProducer, Settled;
    var queue := Tokens(s.placeTokens, p, k);
    if |queue| > 1 {
      assert queue == [queue[0], queue[1]] + queue[2..];
      SameToken(n, s, p, k, queue[0], queue[1]);
      NoTwice(n, s, p, k, queue[0]);
    }
  }

  lemma EnabledFills(n: Cpn, b: Buckets, t: Id, k: Key, a: Arc)
    requires Waiting(n) && t in n.specs && Enabled(n, b, t, k) && a in In(n, t)
    ensures Tokens(b, a.place, k) != []
  {
    var i :| 0 <= i < |In(n, t)| && In(n, t)[i] == a;
    assert Queues(b, In(n, t), k)[i] in Queues(b, In(n, t), k);
  }

  lemma FilledEnables(n: Cpn, b: Buckets, t: Id, k: Key)
    requires Waiting(n) && t in n.specs && forall a :: a in In(n, t) ==> Tokens(b, a.place, k) != []
    ensures Enabled(n, b, t, k)
  {
    var q := Queues(b, In(n, t), k);
    forall x | x in q ensures x != [] {
      var i :| 0 <= i < |q| && q[i] == x;
      assert In(n, t)[i] in In(n, t);
    }
  }

  // ------------------------------------------------------------------- being fed

  /** The inputs were enough for the join, come in order, and on simple nets are one per place. */
  ghost predicate WellFed(n: Cpn, t: Id, inputs: seq<TriggerInput>)
    requires t in n.specs
  {
    && May(n, t, p => At(inputs, p))
    && Ordered(In(n, t), inputs)
    && (OneProducer(n) && Waiting(n) ==> Shaped(FirstArcs(In(n, t), {}), inputs))
  }

  lemma FreshTake(n: Cpn, s: State, fly: set<Pair>, tk: Pair)
    requires WfNet(n) && Safe(n, s, fly) && tk in fly && tk !in s.cache
    ensures KeyOk(n, tk) && Enabled(n, s.placeTokens, tk.0, tk.1) && GetOr(s.retried, tk, []) == []
    ensures ConsumeArcs(s.placeTokens, In(n, tk.0), tk.1).Ok? && !IsDone(s.completedKeys, tk.0, tk.1)
    ensures Drained(s.placeTokens, ConsumeArcs(s.placeTokens, In(n, tk.0), tk.1).value.0, In(n, tk.0), tk.1)
  {
    assert KeyOk(n, tk);
    assert |GetOr(s.retried, tk, [])| == GetOr(s.attempts, tk, 0);
    ConsumeDrains(s.placeTokens, In(n, tk.0), tk.1);
  }

  lemma FreshShape(n: Cpn, s: State, fly: set<Pair>, tk: Pair)
    requires WfNet(n) && Safe(n, s, fly) && Settled(n, s) && tk in fly && tk !in s.cache
    requires OneProducer(n) && Waiting(n)
    ensures ConsumeArcs(s.placeTokens, In(n, tk.0), tk.1).Ok?
    ensures Shaped(FirstArcs(In(n, tk.0), {}), ConsumeArcs(s.placeTokens, In(n, tk.0), tk.1).value.1)
  {
    hide Safe, Settled;
    FreshTake(n, s, fly, tk);
    forall a | a in In(n, tk.0) ensures |Tokens(s.placeTokens, a.place, tk.1)| == 1 {
      EnabledFills(n, s.placeTokens, tk.0, tk.1, a);
      OneToken(n, s, fly, a.place, tk.1);
    }
    ConsumeShape(s.placeTokens, In(n, tk.0), tk.1, {});
  }

  /** What a pair takes when it starts feeds it well. */
  lemma TakeFed(n: Cpn, s: State, fly: set<Pair>, tk: Pair)
    requires WfNet(n) && Safe(n, s, fly) && Settled(n, s) && tk in fly && tk !in s.cache
    requires Fifo(s.placeTokens, s.tokenSequence)
    ensures KeyOk(n, tk) && ConsumeArcs(s.placeTokens, In(n, tk.0), tk.1).Ok?
    ensures var (b', inputs) := ConsumeArcs(s.placeTokens, In(n, tk.0), tk.1).value;
            WellFed(n, tk.0, inputs) && Fifo(b', s.tokenSequence)
  {
    hide Safe, Settled, WfNet, OneProducer, Waiting, Ordered, Enabled, May, ConsumeArcs, Rising, Tokens;
    FreshTake(n, s, fly, tk);
    var b, arcs := s.placeTokens, In(n, tk.0);
    var (b', inputs) := ConsumeArcs(b, arcs, tk.1).value;
    EnabledMeaning(n, b, tk.0, tk.1);
    forall a | a in arcs ensures At(inputs, a.place) == Tokens(b, a.place, tk.1) {
      ConsumeAt(b, arcs, tk.1, a.place);
    }
    MaySame(n, tk.0, p => Tokens(b, p, tk.1), p => At(inputs, p));
    ConsumeOrdered(b, arcs, tk.1);
    DrainFifo(b, b', arcs, tk.1, s.tokenSequence);
    if OneProducer(n) && Waiting(n) {
      FreshShape(n, s, fly, tk);
    }
  }
}
