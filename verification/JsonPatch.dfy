/**
 * How a JSON patch reaches its value: the pointers of RFC 6901, sections 3 and 4, and the
 * replacement of the value they lead to.
 */
module JsonPatch {
  import opened Prelude
  import opened TextPatch

  datatype JsonDoc = Atom(text: string) | Items(items: seq<JsonDoc>) | Object(members: map<string, JsonDoc>)

  // ------------------------------------------------------------------ pointer tokens

  /** `~` followed by `code` means `stands`. */
  function Decode(s: string, code: char, stands: char): string {
    if s == "" then ""
    else if |s| >= 2 && s[0] == '~' && s[1] == code then [stands] + Decode(s[2..], code, stands)
    else [s[0]] + Decode(s[1..], code, stands)
  }

  /** First `~1`, then `~0`: the other way round `~01` would become a slash. */
  function Unescape(s: string): string { Decode(Decode(s, '1', '/'), '0', '~') }

  function Escape(s: string): string {
    if s == "" then ""
    else (if s[0] == '~' then "~0" else if s[0] == '/' then "~1" else [s[0]]) + Escape(s[1..])
  }

  /** The escaped string with its slashes restored. */
  function HalfEscape(s: string): string {
    if s == "" then "" else (if s[0] == '~' then "~0" else [s[0]]) + HalfEscape(s[1..])
  }

  lemma {:induction false} EscapeHalves(s: string)
    ensures Decode(Escape(s), '1', '/') == HalfEscape(s)
  {
    if s != "" {
      EscapeHalves(s[1..]);
      var rest := Escape(s[1..]);
      if s[0] == '~' {
        assert Escape(s) == ['~'] + (['0'] + rest);
        assert (['~'] + (['0'] + rest))[1..] == ['0'] + rest && (['0'] + rest)[1..] == rest;
      } else if s[0] == '/' {
        assert Escape(s)[2..] == rest;
      } else {
        assert Escape(s)[1..] == rest;
      }
    }
  }

  lemma {:induction false} HalvesDecode(s: string)
    ensures Decode(HalfEscape(s), '0', '~') == s
  {
    if s != "" {
      HalvesDecode(s[1..]);
      if s[0] == '~' {
        assert HalfEscape(s)[2..] == HalfEscape(s[1..]);
      } else {
        assert HalfEscape(s)[1..] == HalfEscape(s[1..]);
      }
      assert [s[0]] + s[1..] == s;
    }
  }

  lemma {:induction false} EscapeHidesSlashes(s: string)
    ensures '/' !in Escape(s)
  {
    if s != "" {
      EscapeHidesSlashes(s[1..]);
    }
  }

  /** The tokens of a pointer; none if it does not begin with a slash. */
  function Segments(pointer: string): Option<seq<string>> {
    if pointer == "" then Some([])
    else if pointer[0] != '/' then None
    else Some(Unescaped(Split(pointer[1..], '/')))
  }

  function Unescaped(parts: seq<string>): (r: seq<string>)
    ensures |r| == |parts| && forall i :: 0 <= i < |r| ==> r[i] == Unescape(parts[i])
  {
    seq(|parts|, i requires 0 <= i < |parts| => Unescape(parts[i]))
  }

  function PointerTo(path: seq<string>): string {
    if path == [] then "" else "/" + Escape(path[0]) + PointerTo(path[1..])
  }

  function Escaped(path: seq<string>): (r: seq<string>)
    ensures |r| == |path| && forall i :: 0 <= i < |r| ==> r[i] == Escape(path[i])
  {
    seq(|path|, i requires 0 <= i < |path| => Escape(path[i]))
  }

  lemma {:induction false} PointerJoins(path: seq<string>)
    requires path != []
    ensures PointerTo(path) == ['/'] + Join(Escaped(path), '/')
  {
    hide Escape;
    var first, parts := Escape(path[0]), Escaped(path);
    assert parts[0] == first;
    if |path| > 1 {
      PointerJoins(path[1..]);
      assert parts[1..] == Escaped(path[1..]);
      var rest := Join(parts[1..], '/');
      assert "/" + first + (['/'] + rest) == ['/'] + (first + ['/'] + rest);
    } else {
      assert path[1..] == [];
      assert "/" + first + "" == ['/'] + first;
    }
  }

  /** Every path of tokens, whatever characters they hold, has a pointer that leads along it. */
  lemma PointersReachAll(path: seq<string>)
    ensures Segments(PointerTo(path)) == Some(path)
  {
    if path != [] {
      PointerJoins(path);
      var parts := Escaped(path);
      forall part | part in parts ensures '/' !in part {
        var i :| 0 <= i < |parts| && parts[i] == part;
        EscapeHidesSlashes(path[i]);
      }
      JoinSplits(parts, '/');
      assert PointerTo(path)[1..] == Join(parts, '/');
      forall i | 0 <= i < |path| ensures Unescaped(parts)[i] == path[i] {
        EscapeHalves(path[i]);
        HalvesDecode(path[i]);
      }
      assert Unescaped(parts) == path;
    }
  }

  // ------------------------------------------------------------------ array indexes

  predicate IsDigit(c: char) { '0' <= c <= '9' }

  function Digit(c: char): (d: nat)
    requires IsDigit(c)
    ensures d <= 9
  {
    (c - '0') as nat
  }

  function Number(s: string): nat
    requires forall c :: c in s ==> IsDigit(c)
  {
    if s == "" then 0 else 10 * Number(s[..|s| - 1]) + Digit(s[|s| - 1])
  }

  /** A plain decimal number, without sign and leading zeros. */
  predicate Canonical(s: string) {
    s != "" && (forall c :: c in s ==> IsDigit(c)) && (s[0] == '0' ==> |s| == 1)
  }

  function Index(s: string): Option<nat> { if Canonical(s) then Some(Number(s)) else None }

  lemma {:induction false} NumberSize(s: string)
    requires Canonical(s)
    ensures s[0] != '0' ==> Number(s) > 0
    ensures |s| > 1 ==> Number(s) >= 10
    ensures |s| == 1 ==> Number(s) <= 9
  {
    assert s[0] in s;
    if |s| == 1 {
      assert s[..0] == "";
      assert Number(s) == Digit(s[0]);
    } else {
      NumberSize(s[..|s| - 1]);
    }
  }

  /** Different tokens are different indexes. */
  lemma {:induction false} IndexUnique(a: string, b: string)
    requires Canonical(a) && Canonical(b) && Number(a) == Number(b)
    ensures a == b
    decreases |a|
  {
    NumberSize(a);
    NumberSize(b);
    var x, y := a[..|a| - 1], b[..|b| - 1];
    assert a == x + [a[|a| - 1]] && b == y + [b[|b| - 1]];
    assert a[|a| - 1] in a && b[|b| - 1] in b;
    if |a| > 1 {
      assert Canonical(x) && Canonical(y);
      IndexUnique(x, y);
    }
  }

  function Decimal(n: nat): (s: string)
    ensures Canonical(s) && Number(s) == n
    decreases n
  {
    var last: char := '0' + ((n % 10) as char);
    if n < 10 then
      var s: string := [last];
      assert s[..0] == "";
      s
    else
      var front := Decimal(n / 10);
      var s := front + [last];
      assert s[..|s| - 1] == front;
      assert front[0] == '0' ==> Number(front) == 0 by { assert front[..0] == ""; }
      s
  }

  // ------------------------------------------------------------- reading and replacing

  function JsonAt(doc: JsonDoc, path: seq<string>): Option<JsonDoc>
    decreases |path|
  {
    if path == [] then Some(doc)
    else
      match doc
      case Atom(_) => None
      case Object(members) => if path[0] in members then JsonAt(members[path[0]], path[1..]) else None
      case Items(items) =>
        var i := Index(path[0]);
        if i.Some? && i.value < |items| then JsonAt(items[i.value], path[1..]) else None
  }

  function JsonReplace(doc: JsonDoc, path: seq<string>, value: JsonDoc): Option<JsonDoc>
    decreases |path|
  {
    if path == [] then Some(value)
    else
      match doc
      case Atom(_) => None
      case Object(members) =>
        if path[0] !in members then None
        else
          var inner := JsonReplace(members[path[0]], path[1..], value);
          if inner.None? then None else Some(Object(members[path[0] := inner.value]))
      case Items(items) =>
        var i := Index(path[0]);
        if i.None? || i.value >= |items| then None
        else
          var inner := JsonReplace(items[i.value], path[1..], value);
          if inner.None? then None else Some(Items(items[i.value := inner.value]))
  }

  /** Both hold the same keys, or equally many items. */
  predicate SameShape(a: JsonDoc, b: JsonDoc) {
    || (a.Object? && b.Object? && a.members.Keys == b.members.Keys)
    || (a.Items? && b.Items? && |a.items| == |b.items|)
  }

  /**
   * `after` is `doc` with this value at the path and nowhere else: the value stands there, all
   * paths apart from it read as before, and what it passes through keeps its keys and its length.
   */
  ghost predicate OnlyThere(doc: JsonDoc, path: seq<string>, value: JsonDoc, after: JsonDoc) {
    && JsonAt(doc, path).Some? && JsonAt(after, path) == Some(value)
    && (forall other :: Apart(path, other) ==> JsonAt(after, other) == JsonAt(doc, other))
    && (forall q :: 0 <= q < |path| ==>
          && JsonAt(doc, path[..q]).Some? && JsonAt(after, path[..q]).Some?
          && SameShape(JsonAt(doc, path[..q]).value, JsonAt(after, path[..q]).value))
  }

  /** The replacement exists exactly for paths that lead somewhere, and stands there alone. */
  lemma {:induction false} JsonReplaced(doc: JsonDoc, path: seq<string>, value: JsonDoc)
    ensures JsonReplace(doc, path, value).Some? <==> JsonAt(doc, path).Some?
    ensures JsonReplace(doc, path, value).Some? ==> OnlyThere(doc, path, value, JsonReplace(doc, path, value).value)
    decreases |path|
  {
    if path != [] && doc.Object? && path[0] in doc.members {
      JsonReplaced(doc.members[path[0]], path[1..], value);
    } else if path != [] && doc.Items? && Index(path[0]).Some? && Index(path[0]).value < |doc.items| {
      JsonReplaced(doc.items[Index(path[0]).value], path[1..], value);
    }
    if JsonReplace(doc, path, value).Some? && path != [] {
      var after := JsonReplace(doc, path, value).value;
      forall other | Apart(path, other) ensures JsonAt(after, other) == JsonAt(doc, other) {
        ReplacedElsewhere(doc, path, value, other);
      }
      forall q | 0 <= q < |path|
        ensures JsonAt(doc, path[..q]).Some? && JsonAt(after, path[..q]).Some?
        ensures SameShape(JsonAt(doc, path[..q]).value, JsonAt(after, path[..q]).value)
      {
        ShapesKept(doc, path, value, q);
      }
    }
  }

  lemma {:induction false} ReplacedElsewhere(doc: JsonDoc, path: seq<string>, value: JsonDoc, other: seq<string>)
    requires JsonReplace(doc, path, value).Some? && Apart(path, other)
    ensures JsonAt(JsonReplace(doc, path, value).value, other) == JsonAt(doc, other)
    decreases |path|
  {
    assert path != [] && other != [];
    ApartTail(path, other);
    if doc.Object? {
      if path[0] == other[0] {
        ReplacedElsewhere(doc.members[path[0]], path[1..], value, other[1..]);
      }
    } else {
      var i := Index(path[0]);
      if Index(other[0]) == i {
        IndexUnique(path[0], other[0]);
        ReplacedElsewhere(doc.items[i.value], path[1..], value, other[1..]);
      }
    }
  }

  lemma {:induction false} ShapesKept(doc: JsonDoc, path: seq<string>, value: JsonDoc, q: nat)
    requires JsonReplace(doc, path, value).Some? && q < |path|
    ensures var after := JsonReplace(doc, path, value).value;
            && JsonAt(doc, path[..q]).Some? && JsonAt(after, path[..q]).Some?
            && SameShape(JsonAt(doc, path[..q]).value, JsonAt(after, path[..q]).value)
    decreases |path|
  {
    if q > 0 {
      var inner := if doc.Object? then doc.members[path[0]] else doc.items[Index(path[0]).value];
      ShapesKept(inner, path[1..], value, q - 1);
      assert path[..q][0] == path[0] && path[..q][1..] == path[1..][..q - 1];
    }
  }

  lemma MemberAt(doc: JsonDoc, k: string)
    requires doc.Object? && k in doc.members
    ensures JsonAt(doc, [k]) == Some(doc.members[k])
  {
    assert [k][1..] == [] && JsonAt(doc.members[k], []) == Some(doc.members[k]);
  }

  lemma ItemAt(doc: JsonDoc, j: nat)
    requires doc.Items? && j < |doc.items|
    ensures JsonAt(doc, [Decimal(j)]) == Some(doc.items[j])
  {
    assert [Decimal(j)][1..] == [] && JsonAt(doc.items[j], []) == Some(doc.items[j]);
  }

  /** No other document meets that description. */
  lemma {:induction false} JsonOnlyOne(doc: JsonDoc, path: seq<string>, value: JsonDoc, after: JsonDoc)
    requires OnlyThere(doc, path, value, after)
    ensures JsonReplace(doc, path, value) == Some(after)
    decreases |path|
  {
    if path != [] {
      assert path[..0] == [];
      assert SameShape(doc, after);
      if doc.Object? {
        OnlyInside(doc, path, value, after, doc.members[path[0]], after.members[path[0]]);
        JsonOnlyOne(doc.members[path[0]], path[1..], value, after.members[path[0]]);
        forall k | k in doc.members && k != path[0] ensures after.members[k] == doc.members[k] {
          ApartTail(path, [k]);
          MemberAt(doc, k);
          MemberAt(after, k);
        }
        assert after.members == doc.members[path[0] := after.members[path[0]]];
      } else {
        var i := Index(path[0]).value;
        OnlyInside(doc, path, value, after, doc.items[i], after.items[i]);
        JsonOnlyOne(doc.items[i], path[1..], value, after.items[i]);
        forall j: nat | j < |doc.items| && j != i ensures after.items[j] == doc.items[j] {
          var k := Decimal(j);
          ApartTail(path, [k]);
          ItemAt(doc, j);
          ItemAt(after, j);
        }
        assert after.items == doc.items[i := after.items[i]];
      }
    }
  }

  lemma OnlyInside(doc: JsonDoc, path: seq<string>, value: JsonDoc, after: JsonDoc, inner: JsonDoc, inner': JsonDoc)
    requires OnlyThere(doc, path, value, after) && path != []
    requires forall rest :: JsonAt(doc, [path[0]] + rest) == JsonAt(inner, rest)
    requires forall rest :: JsonAt(after, [path[0]] + rest) == JsonAt(inner', rest)
    ensures OnlyThere(inner, path[1..], value, inner')
  {
    assert path == [path[0]] + path[1..];
    forall other | Apart(path[1..], other) ensures JsonAt(inner', other) == JsonAt(inner, other) {
      assert ([path[0]] + other)[1..] == other;
      ApartTail(path, [path[0]] + other);
    }
    forall q | 0 <= q < |path[1..]|
      ensures JsonAt(inner, path[1..][..q]).Some? && JsonAt(inner', path[1..][..q]).Some?
      ensures SameShape(JsonAt(inner, path[1..][..q]).value, JsonAt(inner', path[1..][..q]).value)
    {
      assert path[..q + 1] == [path[0]] + path[1..][..q];
    }
  }
}
