/** Shared vocabulary: results, orderings, a stable sort and multiset sums over maps. */
module Prelude {
  datatype Option<+T> = None | Some(value: T)

  /** The source's `Result<T, E>`; failure-compatible, so `:-` reads like Rust's `?`. */
  datatype Result<+T, +E> = Ok(value: T) | Err(error: E) {
    predicate IsFailure() { Err? }
    function PropagateFailure<U>(): Result<U, E>
      requires Err?
    {
      Err(error)
    }
    function Extract(): T
      requires Ok?
    {
      value
    }
  }

  // ---------------------------------------------------------------- orderings

  datatype Ordering = Less | Equal | Greater {
    function Flip(): Ordering {
      match this
      case Less => Greater
      case Equal => Equal
      case Greater => Less
    }

    /** Rust's `Ordering::then_with`. */
    function Then(next: Ordering): Ordering {
      if Equal? then next else this
    }
  }

  function CmpInt(a: int, b: int): Ordering {
    if a < b then Less else if a == b then Equal else Greater
  }

  /** `false < true`, as Rust orders booleans. */
  function CmpBool(a: bool, b: bool): Ordering {
    if a == b then Equal else if b then Less else Greater
  }

  /** Code-point order on strings, which is the byte order Rust uses on UTF-8. */
  function CmpString(a: string, b: string): Ordering {
    if a == [] then (if b == [] then Equal else Less)
    else if b == [] then Greater
    else if a[0] < b[0] then Less
    else if b[0] < a[0] then Greater
    else CmpString(a[1..], b[1..])
  }

  lemma {:induction false} CmpStringEqual(a: string, b: string)
    ensures CmpString(a, b) == Equal <==> a == b
  {
    if a != [] && b != [] && a[0] == b[0] {
      CmpStringEqual(a[1..], b[1..]);
      assert a == [a[0]] + a[1..] && b == [b[0]] + b[1..];
    }
  }

  /** One string comes before another if it is cut short or has the lesser character where they part. */
  lemma {:induction false} CmpStringMeaning(a: string, b: string)
    ensures CmpString(a, b) == Less <==>
            exists i :: 0 <= i <= |a| && i < |b| && a[..i] == b[..i] && (i == |a| || a[i] < b[i])
  {
    forall i | 0 < i <= |a| && i < |b| && a[..i] == b[..i] ensures a[0] == b[0] {
      assert a[..i][0] == a[0] && b[..i][0] == b[0];
    }
    if a != [] && b != [] && a[0] == b[0] {
      CmpStringMeaning(a[1..], b[1..]);
      if i :| 0 <= i <= |a[1..]| && i < |b[1..]| && a[1..][..i] == b[1..][..i]
              && (i == |a[1..]| || a[1..][i] < b[1..][i]) {
        assert a[..i + 1] == [a[0]] + a[1..][..i] && b[..i + 1] == [b[0]] + b[1..][..i];
      }
      if i :| 0 <= i <= |a| && i < |b| && a[..i] == b[..i] && (i == |a| || a[i] < b[i]) {
        assert i > 0;
        assert a[1..][..i - 1] == a[..i][1..] && b[1..][..i - 1] == b[..i][1..];
        assert i - 1 == |a[1..]| || a[1..][i - 1] < b[1..][i - 1];
      }
    } else {
      assert a[..0] == b[..0];
    }
  }

  lemma {:induction false} CmpStringFlip(a: string, b: string)
    ensures CmpString(b, a) == CmpString(a, b).Flip()
  {
    if a != [] && b != [] && a[0] == b[0] {
      CmpStringFlip(a[1..], b[1..]);
    }
  }

  lemma {:induction false} CmpStringTrans(a: string, b: string, c: string)
    requires CmpString(a, b) == Less && CmpString(b, c) == Less
    ensures CmpString(a, c) == Less
  {
    if a != [] && a[0] == b[0] && b[0] == c[0] {
      CmpStringTrans(a[1..], b[1..], c[1..]);
    }
  }

  lemma StringLeTrans(a: string, b: string, c: string)
    requires CmpString(a, b) != Greater && CmpString(b, c) != Greater
    ensures CmpString(a, c) != Greater
    ensures CmpString(a, c) == Equal ==> CmpString(a, b) == Equal && CmpString(b, c) == Equal
  {
    CmpStringEqual(a, b);
    CmpStringEqual(b, c);
    CmpStringFlip(a, b);
    CmpStringFlip(b, c);
    CmpStringFlip(a, c);
    CmpStringEqual(a, c);
    if CmpString(a, b) == Less && CmpString(b, c) == Less {
      CmpStringTrans(a, b, c);
    }
  }

  /** A comparison that is a total preorder. */
  ghost predicate Lawful<T(!new)>(cmp: (T, T) -> Ordering) {
    && (forall a, b :: cmp(b, a) == cmp(a, b).Flip())
    && (forall a, b, c :: cmp(a, b) != Greater && cmp(b, c) != Greater ==> cmp(a, c) != Greater)
  }

  /** A non-empty set has a least element. */
  lemma {:induction false} LeastOf<T(!new)>(s: set<T>, cmp: (T, T) -> Ordering) returns (m: T)
    requires s != {} && Lawful(cmp)
    ensures m in s && forall q :: q in s ==> cmp(m, q) != Greater
    decreases |s|
  {
    var x :| x in s;
    assert cmp(x, x) == cmp(x, x).Flip();
    assert cmp(x, x) != Greater;
    var rest := s - {x};
    assert forall q :: q in s ==> q == x || q in rest;
    m := x;
    if rest != {} {
      var l := LeastOf(rest, cmp);
      assert cmp(x, l) == cmp(l, x).Flip();
      if cmp(l, x) == Greater {
        forall q | q in s && q != x ensures cmp(x, q) != Greater {
          assert q in rest;
        }
      } else {
        m := l;
      }
    }
  }

  lemma CmpStringLawful()
    ensures Lawful(CmpString)
  {
    forall a, b ensures CmpString(b, a) == CmpString(a, b).Flip() {
      CmpStringFlip(a, b);
    }
    forall a, b, c | CmpString(a, b) != Greater && CmpString(b, c) != Greater ensures CmpString(a, c) != Greater {
      StringLeTrans(a, b, c);
    }
  }

  ghost predicate Sorted<T>(s: seq<T>, cmp: (T, T) -> Ordering) {
    forall i, j :: 0 <= i < j < |s| ==> cmp(s[i], s[j]) != Greater
  }

  function Insert<T>(x: T, s: seq<T>, cmp: (T, T) -> Ordering): (r: seq<T>)
    ensures multiset(r) == multiset(s) + multiset{x}
    ensures |r| == |s| + 1
  {
    if s == [] then [x]
    else if cmp(x, s[0]) != Greater then [x] + s
    else
      assert s == [s[0]] + s[1..];
      [s[0]] + Insert(x, s[1..], cmp)
  }

  /** Stable sort, the reading of `sort_by`. */
  function Sort<T>(s: seq<T>, cmp: (T, T) -> Ordering): (r: seq<T>)
    ensures multiset(r) == multiset(s)
    ensures |r| == |s|
  {
    if s == [] then []
    else
      assert s == [s[0]] + s[1..];
      Insert(s[0], Sort(s[1..], cmp), cmp)
  }

  lemma SameMembers<T>(r: seq<T>, s: seq<T>)
    requires multiset(r) == multiset(s)
    ensures forall x :: x in r <==> x in s
  {
    forall x ensures x in r <==> x in s {
      assert x in r <==> x in multiset(r);
      assert x in s <==> x in multiset(s);
    }
  }

  lemma {:induction false} InsertSorted<T(!new)>(x: T, s: seq<T>, cmp: (T, T) -> Ordering)
    requires Lawful(cmp) && Sorted(s, cmp)
    ensures Sorted(Insert(x, s, cmp), cmp)
  {
    if s != [] && cmp(x, s[0]) == Greater {
      InsertSorted(x, s[1..], cmp);
      var rest := Insert(x, s[1..], cmp);
      SameMembers(rest, s[1..] + [x]);
      forall j | 0 <= j < |rest| ensures cmp(s[0], rest[j]) != Greater {
        assert rest[j] in s[1..] + [x];
        if rest[j] != x {
          var m :| 0 <= m < |s[1..]| && s[1..][m] == rest[j];
          assert s[m + 1] == rest[j];
        } else {
          assert cmp(s[0], x) == cmp(x, s[0]).Flip();
        }
      }
    }
  }

  lemma {:induction false} SortSorted<T(!new)>(s: seq<T>, cmp: (T, T) -> Ordering)
    requires Lawful(cmp)
    ensures Sorted(Sort(s, cmp), cmp)
  {
    if s != [] {
      SortSorted(s[1..], cmp);
      InsertSorted(s[0], Sort(s[1..], cmp), cmp);
    }
  }

  lemma SortedHeads<T(!new)>(r: seq<T>, s: seq<T>, cmp: (T, T) -> Ordering)
    requires Lawful(cmp) && Sorted(r, cmp) && Sorted(s, cmp)
    requires r != [] && s != [] && s[0] in r && r[0] in s
    requires forall a, b :: a in r && b in r && cmp(a, b) == Equal ==> a == b
    ensures r[0] == s[0]
  {
    var i :| 0 <= i < |s| && s[i] == r[0];
    var j :| 0 <= j < |r| && r[j] == s[0];
    if i != 0 && j != 0 {
      assert cmp(s[0], s[i]) != Greater && cmp(r[0], r[j]) != Greater;
      assert cmp(s[0], r[0]) == cmp(r[0], s[0]).Flip();
    }
  }

  /** Sorted sequences with the same elements are equal when ties are equalities. */
  lemma {:induction false} SortedUnique<T(!new)>(r: seq<T>, s: seq<T>, cmp: (T, T) -> Ordering)
    requires Lawful(cmp) && Sorted(r, cmp) && Sorted(s, cmp)
    requires multiset(r) == multiset(s)
    requires forall a, b :: a in r && b in r && cmp(a, b) == Equal ==> a == b
    ensures r == s
  {
    assert |r| == |multiset(r)| && |s| == |multiset(s)|;
    if r != [] {
      SameMembers(r, s);
      SortedHeads(r, s, cmp);
      TailBag(r);
      TailBag(s);
      SortedUnique(r[1..], s[1..], cmp);
    }
  }

  lemma TailBag<T>(s: seq<T>)
    requires s != []
    ensures multiset(s[1..]) == multiset(s) - multiset{s[0]}
    ensures s == [s[0]] + s[1..]
  {
    assert s == [s[0]] + s[1..];
  }

  // ------------------------------------------------- multiset sums over a map

  /** The multiset union of `bag(v)` over all values `v` of a map. */
  ghost function SumBag<K(!new), V, T>(m: map<K, V>, bag: V -> multiset<T>): multiset<T> {
    if m == map[] then multiset{}
    else
      var k :| k in m;
      bag(m[k]) + SumBag(m - {k}, bag)
  }

  /** The sum may be peeled at any key, so it does not depend on the choices above. */
  lemma {:induction false} SumBagPeel<K(!new), V, T>(m: map<K, V>, bag: V -> multiset<T>, k: K)
    requires k in m
    ensures SumBag(m, bag) == bag(m[k]) + SumBag(m - {k}, bag)
    decreases |m|
  {
    var c :| c in m && SumBag(m, bag) == bag(m[c]) + SumBag(m - {c}, bag);
    if c != k {
      SumBagPeel(m - {c}, bag, k);
      SumBagPeel(m - {k}, bag, c);
      assert m - {c} - {k} == m - {k} - {c};
    }
  }

  lemma SumBagSet<K(!new), V, T>(m: map<K, V>, bag: V -> multiset<T>, k: K, v: V)
    ensures SumBag(m[k := v], bag) == SumBag(m - {k}, bag) + bag(v)
  {
    SumBagPeel(m[k := v], bag, k);
    assert m[k := v] - {k} == m - {k};
  }

  lemma {:induction false} SumBagMember<K(!new), V, T>(m: map<K, V>, bag: V -> multiset<T>, x: T)
    requires x in SumBag(m, bag)
    ensures exists k :: k in m && x in bag(m[k])
    decreases |m|
  {
    var c :| c in m && SumBag(m, bag) == bag(m[c]) + SumBag(m - {c}, bag);
    if x !in bag(m[c]) {
      SumBagMember(m - {c}, bag, x);
      var k :| k in m - {c} && x in bag((m - {c})[k]);
      assert k in m && x in bag(m[k]);
    }
  }

  lemma {:induction false} SumBagEmpty<K(!new), V, T>(m: map<K, V>, bag: V -> multiset<T>)
    requires forall k :: k in m ==> bag(m[k]) == multiset{}
    ensures SumBag(m, bag) == multiset{}
    decreases |m|
  {
    if m != map[] {
      var c :| c in m && SumBag(m, bag) == bag(m[c]) + SumBag(m - {c}, bag);
      SumBagEmpty(m - {c}, bag);
    }
  }
}
