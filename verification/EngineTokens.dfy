/**
 * Where tokens come from and where they go: the tokens a run mints are a function of its
 * firings, and consuming or inserting a token moves it between accounts without losing it.
 */
module EngineTokens {
  import opened Prelude
  import opened Net
  import opened Router
  import opened EngineModel

  // ---------------------------------------------------------------------- mints

  /** A minted token, the place it was sent to, and the index of the firing that made it. */
  datatype Mint = Mint(place: Id, token: Token, origin: nat)

  ghost function MintsOf(n: Cpn, f: Firing, base: nat, origin: nat): (r: seq<Mint>)
    ensures |r| == |Out(n, f.transition)|
    ensures forall i :: 0 <= i < |r| ==>
      r[i] == Mint(Out(n, f.transition)[i].place, MakeToken(n, f, base + i + 1), origin)
  {
    var arcs := Out(n, f.transition);
    seq(|arcs|, i requires 0 <= i < |arcs| => Mint(arcs[i].place, MakeToken(n, f, base + i + 1), origin))
  }

  /** All tokens minted by a sequence of firings: one per output arc, numbered from one. */
  ghost function Mints(n: Cpn, fired: seq<Firing>): seq<Mint> {
    if fired == [] then []
    else
      var last := |fired| - 1;
      var front := Mints(n, fired[..last]);
      front + MintsOf(n, fired[last], |front|, last)
  }

  lemma MintsSnoc(n: Cpn, fired: seq<Firing>, f: Firing)
    ensures Mints(n, fired + [f]) == Mints(n, fired) + MintsOf(n, f, |Mints(n, fired)|, |fired|)
  {
    assert (fired + [f])[..|fired|] == fired;
  }

  /** The token with number `q` was made by a recorded firing, for one of its output arcs. */
  lemma {:induction false} MintFacts(n: Cpn, fired: seq<Firing>, q: nat)
    requires q < |Mints(n, fired)|
    ensures var m := Mints(n, fired)[q];
            && m.origin < |fired| && m.token == MakeToken(n, fired[m.origin], q + 1)
            && exists a :: a in Out(n, fired[m.origin].transition) && a.place == m.place
  {
    var last := |fired| - 1;
    var front := Mints(n, fired[..last]);
    if q < |front| {
      MintFacts(n, fired[..last], q);
    } else {
      var arcs := Out(n, fired[last].transition);
      assert arcs[q - |front|] in arcs;
    }
  }

  /** Every output arc of every firing has its token. */
  lemma {:induction false} MintExists(n: Cpn, fired: seq<Firing>, origin: nat, a: Arc) returns (q: nat)
    requires origin < |fired| && a in Out(n, fired[origin].transition)
    ensures q < |Mints(n, fired)| && Mints(n, fired)[q] == Mint(a.place, MakeToken(n, fired[origin], q + 1), origin)
  {
    var last := |fired| - 1;
    var front := Mints(n, fired[..last]);
    if origin < last {
      q := MintExists(n, fired[..last], origin, a);
    } else {
      var i :| 0 <= i < |Out(n, fired[last].transition)| && Out(n, fired[last].transition)[i] == a;
      q := |front| + i;
    }
  }

  /** Two tokens of one firing at one place come from two output arcs. */
  lemma {:induction false} MintSplit(n: Cpn, fired: seq<Firing>, q: nat, r: nat)
    requires q < r < |Mints(n, fired)|
    requires Mints(n, fired)[q].origin == Mints(n, fired)[r].origin
    ensures Mints(n, fired)[q].origin < |fired|
    ensures var arcs := Out(n, fired[Mints(n, fired)[q].origin].transition);
            exists i, j :: (0 <= i < j < |arcs| && arcs[i].place == Mints(n, fired)[q].place
                            && arcs[j].place == Mints(n, fired)[r].place)
  {
    var last := |fired| - 1;
    var front := Mints(n, fired[..last]);
    MintFacts(n, fired, q);
    if r < |front| {
      MintSplit(n, fired[..last], q, r);
    } else if q < |front| {
      MintFacts(n, fired[..last], q);
    } else {
      var arcs := Out(n, fired[last].transition);
      assert arcs[q - |front|].place == Mints(n, fired)[q].place;
      assert arcs[r - |front|].place == Mints(n, fired)[r].place;
    }
  }

  /** `token` sits where the firing that minted it sent it, and that firing is older than `bound`. */
  ghost predicate MintedAt(n: Cpn, fired: seq<Firing>, q: nat, p: Id, token: Token, bound: nat) {
    var m, i := Mints(n, fired), token.meta.sequence;
    1 <= i <= q && i <= |m| && m[i - 1].place == p && m[i - 1].token == token && m[i - 1].origin < bound
  }

  lemma MintedGrow(n: Cpn, fired: seq<Firing>, f: Firing)
    ensures Mints(n, fired) <= Mints(n, fired + [f])
  {
    MintsSnoc(n, fired, f);
  }

  // ----------------------------------------------------------------------- bags

  ghost function QueueBag(q: seq<Token>): multiset<Token> { multiset(q) }

  ghost function BucketBag(m: map<Key, seq<Token>>): multiset<Token> { SumBag(m, QueueBag) }

  /** All tokens waiting in places. */
  ghost function Resident(b: Buckets): multiset<Token> { SumBag(b, BucketBag) }

  ghost function InputTokens(inputs: seq<TriggerInput>): (r: seq<Token>)
    ensures |r| == |inputs| && forall i :: 0 <= i < |r| ==> r[i] == inputs[i].token
  {
    seq(|inputs|, i requires 0 <= i < |inputs| => inputs[i].token)
  }

  ghost function InputBag(inputs: seq<TriggerInput>): multiset<Token> { multiset(InputTokens(inputs)) }

  /** All tokens held by transitions that still run. */
  ghost function Cached(c: map<Pair, seq<TriggerInput>>): multiset<Token> { SumBag(c, InputBag) }

  /** All tokens consumed by completed firings. */
  ghost function Consumed(fired: seq<Firing>): multiset<Token> {
    if fired == [] then multiset{}
    else Consumed(fired[..|fired| - 1]) + InputBag(fired[|fired| - 1].inputs)
  }

  ghost function MintTokens(mints: seq<Mint>): (r: seq<Token>)
    ensures |r| == |mints| && forall i :: 0 <= i < |r| ==> r[i] == mints[i].token
  {
    seq(|mints|, i requires 0 <= i < |mints| => mints[i].token)
  }

  /** The first `q` minted tokens. */
  ghost function Minted(n: Cpn, fired: seq<Firing>, q: nat): multiset<Token>
    requires q <= |Mints(n, fired)|
  {
    multiset(MintTokens(Mints(n, fired)[..q]))
  }

  /** Every minted token is in exactly one account. */
  ghost predicate BagInv(
    n: Cpn, b: Buckets, c: map<Pair, seq<TriggerInput>>, fired: seq<Firing>, late: seq<Token>, q: nat)
  {
    && q <= |Mints(n, fired)|
    && Minted(n, fired, q) == Resident(b) + Cached(c) + Consumed(fired) + multiset(late)
  }

  // ----------------------------------------------------------------- consumption

  /** `b'` is `b` without the key-`k` tokens of the arcs' places. */
  ghost predicate Drained(b: Buckets, b': Buckets, arcs: seq<Arc>, k: Key) {
    && b'.Keys == b.Keys
    && (forall a :: a in arcs ==> Tokens(b', a.place, k) == [])
    && (forall p, k' :: (k' != k || forall a :: a in arcs ==> a.place != p) ==> Tokens(b', p, k') == Tokens(b, p, k'))
  }

  lemma {:induction false} ConsumeDrains(b: Buckets, arcs: seq<Arc>, k: Key)
    requires forall a :: a in arcs ==> a.place in b
    ensures ConsumeArcs(b, arcs, k).Ok?
    ensures Drained(b, ConsumeArcs(b, arcs, k).value.0, arcs, k)
    decreases |arcs|
  {
    if arcs != [] {
      assert arcs[0] in arcs && forall a :: a in arcs[1..] ==> a in arcs;
      var p := arcs[0].place;
      var b1 := b[p := b[p] - {k}];
      ConsumeDrains(b1, arcs[1..], k);
      var b' := ConsumeArcs(b, arcs, k).value.0;
      assert Drained(b1, b', arcs[1..], k);
      forall a | a in arcs ensures Tokens(b', a.place, k) == [] {
        if a !in arcs[1..] {
          assert a == arcs[0];
          if forall a :: a in arcs[1..] ==> a.place != p {
            assert Tokens(b', p, k) == Tokens(b1, p, k) == [];
          }
        }
      }
      forall p', k' | k' != k || forall a :: a in arcs ==> a.place != p'
        ensures Tokens(b', p', k') == Tokens(b, p', k')
      {
        assert Tokens(b1, p', k') == Tokens(b, p', k');
      }
    }
  }

  /** What consumption hands out was waiting at an input place under this key. */
  lemma {:induction false} ConsumeOrigin(b: Buckets, arcs: seq<Arc>, k: Key, i: TriggerInput)
    requires ConsumeArcs(b, arcs, k).Ok? && i in ConsumeArcs(b, arcs, k).value.1
    ensures i.token in Tokens(b, i.place, k)
    ensures exists a :: a in arcs && a.place == i.place && a.arcLabel == i.arcLabel
    decreases |arcs|
  {
    var p := arcs[0].place;
    var b1 := b[p := b[p] - {k}];
    if i in AsInputs(arcs[0], Tokens(b, p, k)) {
      assert arcs[0] in arcs;
    } else {
      ConsumeOrigin(b1, arcs[1..], k, i);
      assert i.token in Tokens(b1, i.place, k);
      var a :| a in arcs[1..] && a.place == i.place && a.arcLabel == i.arcLabel;
      assert a in arcs;
    }
  }

  lemma ResidentSet(b: Buckets, p: Id, m: map<Key, seq<Token>>)
    requires p in b
    ensures Resident(b) == SumBag(b - {p}, BucketBag) + BucketBag(b[p])
    ensures Resident(b[p := m]) == SumBag(b - {p}, BucketBag) + BucketBag(m)
  {
    SumBagPeel(b, BucketBag, p);
    SumBagSet(b, BucketBag, p, m);
  }

  lemma BucketSplit(m: map<Key, seq<Token>>, k: Key)
    ensures BucketBag(m) == BucketBag(m - {k}) + multiset(GetOr(m, k, []))
  {
    if k in m {
      SumBagPeel(m, QueueBag, k);
    } else {
      assert m - {k} == m;
    }
  }

  lemma InputBagAppend(x: seq<TriggerInput>, y: seq<TriggerInput>)
    ensures InputBag(x + y) == InputBag(x) + InputBag(y)
  {
    assert InputTokens(x + y) == InputTokens(x) + InputTokens(y);
  }

  /** Consumption loses nothing: what leaves the places is what is handed out. */
  lemma {:induction false} ConsumeConserves(b: Buckets, arcs: seq<Arc>, k: Key)
    requires ConsumeArcs(b, arcs, k).Ok?
    ensures var r := ConsumeArcs(b, arcs, k).value; Resident(b) == Resident(r.0) + InputBag(r.1)
    decreases |arcs|
  {
    if arcs == [] {
      assert InputTokens([]) == [];
    } else {
      var p := arcs[0].place;
      var b1 := b[p := b[p] - {k}];
      var taken := AsInputs(arcs[0], Tokens(b, p, k));
      ResidentSet(b, p, b[p] - {k});
      BucketSplit(b[p], k);
      assert InputTokens(taken) == Tokens(b, p, k);
      ConsumeConserves(b1, arcs[1..], k);
      InputBagAppend(taken, ConsumeArcs(b1, arcs[1..], k).value.1);
    }
  }

  // ------------------------------------------------------------------- insertion

  lemma AddConserves(b: Buckets, p: Id, token: Token)
    requires p in b
    ensures Resident(AddToken(b, p, token)) == Resident(b) + multiset{token}
  {
    var k := token.key;
    var m := b[p][k := GetOr(b[p], k, []) + [token]];
    ResidentSet(b, p, m);
    BucketSplit(b[p], k);
    BucketSplit(m, k);
    assert m - {k} == b[p] - {k};
  }

  lemma AddChanges(b: Buckets, p: Id, token: Token)
    requires p in b
    ensures AddToken(b, p, token).Keys == b.Keys
    ensures forall p', k' ::
              Tokens(AddToken(b, p, token), p', k')
              == Tokens(b, p', k') + (if p' == p && k' == token.key then [token] else [])
  {
  }

  lemma ResidentMember(b: Buckets, token: Token) returns (p: Id, k: Key)
    requires token in Resident(b)
    ensures token in Tokens(b, p, k)
  {
    SumBagMember(b, BucketBag, token);
    p :| p in b && token in BucketBag(b[p]);
    SumBagMember(b[p], QueueBag, token);
    k :| k in b[p] && token in QueueBag(b[p][k]);
  }

  lemma {:induction false} ConsumedMember(fired: seq<Firing>, token: Token) returns (f: nat, i: TriggerInput)
    requires token in Consumed(fired)
    ensures f < |fired| && i in fired[f].inputs && i.token == token
  {
    var last := |fired| - 1;
    if token in InputBag(fired[last].inputs) {
      assert token in InputTokens(fired[last].inputs);
      var j :| 0 <= j < |fired[last].inputs| && InputTokens(fired[last].inputs)[j] == token;
      f, i := last, fired[last].inputs[j];
    } else {
      f, i := ConsumedMember(fired[..last], token);
    }
  }

  // ------------------------------------------------------------------- readiness

  lemma {:induction false} TotalLengthMono(x: seq<seq<Token>>, y: seq<seq<Token>>)
    requires |x| == |y| && forall i :: 0 <= i < |x| ==> x[i] <= y[i]
    ensures TotalLength(x) <= TotalLength(y)
  {
    if x != [] {
      assert forall i :: 0 <= i < |x[1..]| ==> x[1..][i] == x[i + 1] && y[1..][i] == y[i + 1];
      TotalLengthMono(x[1..], y[1..]);
    }
  }

  /** Every join policy is monotone: more tokens never disable it. */
  lemma JoinMonotone(policy: JoinPolicy, x: seq<seq<Token>>, y: seq<seq<Token>>)
    requires |x| == |y| && forall i :: 0 <= i < |x| ==> x[i] <= y[i]
    requires JoinReady(policy, x)
    ensures JoinReady(policy, y)
  {
    TotalLengthMono(x, y);
    if AllFilled(x) {
      assert forall i :: 0 <= i < |x| ==> x[i] in x;
      assert AllFilled(y);
    }
    if AnyFilled(x) {
      var i :| 0 <= i < |x| && x[i] != [];
      assert y[i] in y;
      assert AnyFilled(y);
    }
    if AnySuccess(x) {
      var i :| 0 <= i < |x| && exists t :: t in x[i] && t.meta.outcome == Success;
      var t :| t in x[i] && t.meta.outcome == Success;
      assert t in y[i] && y[i] in y;
      assert AnySuccess(y);
    }
  }

  lemma EnabledMonotone(n: Cpn, b: Buckets, b': Buckets, t: Id, k: Key)
    requires t in n.specs && Enabled(n, b, t, k)
    requires forall a :: a in In(n, t) ==> Tokens(b, a.place, k) <= Tokens(b', a.place, k)
    ensures Enabled(n, b', t, k)
  {
    if In(n, t) != [] {
      assert forall i :: 0 <= i < |In(n, t)| ==> In(n, t)[i] in In(n, t);
      JoinMonotone(n.specs[t].transition.join, Queues(b, In(n, t), k), Queues(b', In(n, t), k));
    }
  }

  /** Readiness of (t, k) depends only on the key-`k` tokens of the input places of `t`. */
  lemma EnabledLocal(n: Cpn, b: Buckets, b': Buckets, t: Id, k: Key)
    requires t in n.specs
    requires forall a :: a in In(n, t) ==> Tokens(b, a.place, k) == Tokens(b', a.place, k)
    ensures Enabled(n, b, t, k) <==> Enabled(n, b', t, k)
  {
    if Enabled(n, b, t, k) {
      EnabledMonotone(n, b, b', t, k);
    }
    if Enabled(n, b', t, k) {
      EnabledMonotone(n, b', b, t, k);
    }
  }
}
