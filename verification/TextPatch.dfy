/**
 * How one patch rewrites a document (`kernel/auto_update.rs`): a text replacement that must find
 * its target once, and a TOML value reached by a dotted key.
 */
module TextPatch {
  import opened Prelude

  // ----------------------------------------------------------------- text patches

  predicate OccursAt(text: string, find: string, i: nat) {
    i + |find| <= |text| && text[i..i + |find|] == find
  }

  /** The leftmost occurrence at or after `from`, or the length of the text. */
  function FindFrom(text: string, find: string, from: nat): (i: nat)
    requires from <= |text| && find != ""
    ensures from <= i <= |text|
    ensures i < |text| ==> OccursAt(text, find, i)
    ensures forall k: nat :: from <= k < i ==> !OccursAt(text, find, k)
    ensures i == |text| ==> forall k: nat :: from <= k ==> !OccursAt(text, find, k)
    decreases |text| - from
  {
    if from == |text| then from
    else if OccursAt(text, find, from) then from
    else FindFrom(text, find, from + 1)
  }

  /** How many matches a scan from the left finds, each search resuming behind the last match. */
  function CountFrom(text: string, find: string, from: nat): nat
    requires from <= |text| && find != ""
    decreases |text| - from
  {
    var i := FindFrom(text, find, from);
    if i == |text| then 0 else 1 + CountFrom(text, find, i + |find|)
  }

  datatype TextError = NotFound | Ambiguous(occurrences: nat)

  function ApplyText(original: string, find: string, replace: string): Result<string, TextError>
    requires find != ""
  {
    var n := CountFrom(original, find, 0);
    if n == 0 then Err(NotFound)
    else if n > 1 then Err(Ambiguous(n))
    else
      var i := FindFrom(original, find, 0);
      Ok(original[..i] + replace + original[i + |find|..])
  }

  /** The matches all lie within the leftmost one's reach. */
  ghost predicate AllOverlapFirst(text: string, find: string) {
    exists i: nat :: OccursAt(text, find, i) && forall k: nat :: OccursAt(text, find, k) ==> i <= k < i + |find|
  }

  lemma CountMeaning(text: string, find: string)
    requires find != ""
    ensures CountFrom(text, find, 0) == 0 <==> forall k: nat :: !OccursAt(text, find, k)
    ensures CountFrom(text, find, 0) == 1 <==> AllOverlapFirst(text, find)
  {
    var i := FindFrom(text, find, 0);
    if i < |text| {
      assert OccursAt(text, find, i);
      assert i + |find| <= |text|;
      var j := FindFrom(text, find, i + |find|);
      hide OccursAt;
      if j < |text| {
        assert OccursAt(text, find, j);
      } else {
        assert forall k: nat :: OccursAt(text, find, k) ==> i <= k < i + |find|;
      }
    }
  }

  /** A patch applies exactly when the target occurs and every occurrence overlaps the leftmost. */
  lemma AppliesExactly(original: string, find: string, replace: string)
    requires find != ""
    ensures ApplyText(original, find, replace).Ok? <==> AllOverlapFirst(original, find)
    ensures ApplyText(original, find, replace) == Err(NotFound) <==> forall k: nat :: !OccursAt(original, find, k)
  {
    CountMeaning(original, find);
    hide OccursAt;
    hide CountFrom;
    hide AllOverlapFirst;
  }

  /** An applied patch replaces the leftmost occurrence and nothing else. */
  lemma ReplacesLeftmost(original: string, find: string, replace: string)
    requires find != "" && ApplyText(original, find, replace).Ok?
    ensures exists before, after ::
              && original == before + find + after
              && ApplyText(original, find, replace).value == before + replace + after
              && forall k: nat :: OccursAt(original, find, k) ==> |before| <= k
  {
    var i := FindFrom(original, find, 0);
    var before, after := original[..i], original[i + |find|..];
    assert i < |original|;
    assert original == before + original[i..i + |find|] + after;
    assert ApplyText(original, find, replace).value == before + replace + after;
    assert |before| == i;
  }

  /**
   * `updated` is the original with this text in the place of the leftmost occurrence of the target,
   * which all other occurrences overlap.
   */
  ghost predicate TextRewritten(original: string, find: string, replace: string, updated: string) {
    exists before, after ::
      && original == before + find + after && updated == before + replace + after
      && forall k: nat :: OccursAt(original, find, k) ==> |before| <= k < |before| + |find|
  }

  lemma AppliedRewrites(original: string, find: string, replace: string)
    requires find != "" && ApplyText(original, find, replace).Ok?
    ensures TextRewritten(original, find, replace, ApplyText(original, find, replace).value)
  {
    AppliesExactly(original, find, replace);
    var i: nat :| OccursAt(original, find, i)
                  && forall k: nat :: OccursAt(original, find, k) ==> i <= k < i + |find|;
    var first := FindFrom(original, find, 0);
    assert first == i;
    var before, after := original[..i], original[i + |find|..];
    assert original == before + find + after by { assert original[i..i + |find|] == find; }
    hide OccursAt, FindFrom, CountFrom;
    assert ApplyText(original, find, replace).value == before + replace + after;
  }

  lemma RewrittenApplies(original: string, find: string, replace: string, updated: string)
    requires find != "" && TextRewritten(original, find, replace, updated)
    ensures ApplyText(original, find, replace) == Ok(updated)
  {
    var before, after :| original == before + find + after && updated == before + replace + after
      && forall k: nat :: OccursAt(original, find, k) ==> |before| <= k < |before| + |find|;
    StandsThere(original, before, find, after);
    assert AllOverlapFirst(original, find);
    AppliesExactly(original, find, replace);
    assert FindFrom(original, find, 0) == |before|;
    hide OccursAt, FindFrom, CountFrom;
    assert original[..|before|] == before && original[|before| + |find|..] == after;
  }

  /** A patch applies exactly where that is possible, and that is what it does. */
  lemma TextRewrites(original: string, find: string, replace: string, updated: string)
    requires find != ""
    ensures ApplyText(original, find, replace) == Ok(updated) <==> TextRewritten(original, find, replace, updated)
  {
    hide ApplyText, TextRewritten;
    if ApplyText(original, find, replace) == Ok(updated) {
      AppliedRewrites(original, find, replace);
    }
    if TextRewritten(original, find, replace, updated) {
      RewrittenApplies(original, find, replace, updated);
    }
  }

  lemma StandsThere(original: string, before: string, find: string, after: string)
    requires original == before + find + after
    ensures OccursAt(original, find, |before|)
  {
    assert original[|before|..|before| + |find|] == find;
  }

  /** No proper prefix of the string is also a suffix of it. */
  ghost predicate Borderless(find: string) {
    forall b :: 0 < b < |find| ==> find[..b] != find[|find| - b..]
  }

  ghost predicate OccursOnce(text: string, find: string) {
    exists i: nat :: OccursAt(text, find, i) && forall k: nat :: OccursAt(text, find, k) ==> k == i
  }

  lemma OverlapMakesBorder(text: string, find: string, i: nat, k: nat)
    requires OccursAt(text, find, i) && OccursAt(text, find, k) && i < k < i + |find|
    ensures !Borderless(find)
  {
    var b := i + |find| - k;
    assert find[|find| - b..] == text[i..i + |find|][k - i..] == text[k..i + |find|];
    assert find[..b] == text[k..k + |find|][..b] == text[k..k + b];
  }

  /** A target that overlaps itself is accepted twice over: "aa" in "aaa", for one. */
  lemma BorderIsAmbiguous(find: string, b: nat) returns (text: string)
    requires 0 < b < |find| && find[..b] == find[|find| - b..]
    ensures forall replace :: ApplyText(text, find, replace).Ok?
    ensures !OccursOnce(text, find)
  {
    text := find + find[b..];
    var k := |find| - b;
    assert text[0..|find|] == find;
    assert text[k..k + |find|] == find[k..] + find[b..] == find[..b] + find[b..] == find;
    assert OccursAt(text, find, 0) && OccursAt(text, find, k);
    forall replace ensures ApplyText(text, find, replace).Ok? {
      AppliesExactly(text, find, replace);
    }
  }

  /**
   * The patcher means to demand a single occurrence. It does so for every text exactly when the
   * target has no border; otherwise overlapping occurrences pass as one.
   */
  lemma SingleOccurrenceGuard(find: string)
    requires find != ""
    ensures Borderless(find) <==>
            forall text: string, replace: string :: ApplyText(text, find, replace).Ok? ==> OccursOnce(text, find)
  {
    if Borderless(find) {
      forall text: string, replace: string | ApplyText(text, find, replace).Ok? ensures OccursOnce(text, find) {
        AppliesExactly(text, find, replace);
        var i: nat :| OccursAt(text, find, i)
                      && forall k: nat :: OccursAt(text, find, k) ==> i <= k < i + |find|;
        forall k: nat | OccursAt(text, find, k) ensures k == i {
          if i < k {
            OverlapMakesBorder(text, find, i, k);
          }
        }
      }
    } else {
      var b :| 0 < b < |find| && find[..b] == find[|find| - b..];
      var text := BorderIsAmbiguous(find, b);
      assert ApplyText(text, find, "").Ok?;
    }
  }

  // ----------------------------------------------------------------- dotted TOML keys

  /** `str::split` on one character. */
  function Split(s: string, c: char): (parts: seq<string>)
    ensures parts != []
  {
    if s == "" then [""]
    else
      var rest := Split(s[1..], c);
      if s[0] == c then [""] + rest else [[s[0]] + rest[0]] + rest[1..]
  }

  function Join(parts: seq<string>, c: char): string {
    if parts == [] then "" else if |parts| == 1 then parts[0] else parts[0] + [c] + Join(parts[1..], c)
  }

  lemma {:induction false} SplitJoins(s: string, c: char)
    ensures Join(Split(s, c), c) == s
    ensures forall part :: part in Split(s, c) ==> c !in part
  {
    if s != "" {
      var rest := Split(s[1..], c);
      SplitJoins(s[1..], c);
      if s[0] == c {
        assert ([""] + rest)[1..] == rest;
      } else {
        var parts := [[s[0]] + rest[0]] + rest[1..];
        assert parts[1..] == rest[1..];
        assert forall part :: part in rest[1..] ==> part in rest;
      }
    }
  }

  lemma {:induction false} SplitNone(s: string, c: char)
    requires c !in s
    ensures Split(s, c) == [s]
  {
    if s != "" {
      SplitNone(s[1..], c);
      assert [s[0]] + s[1..] == s;
    }
  }

  lemma {:induction false} SplitFirst(s: string, c: char, rest: string)
    requires c !in s
    ensures Split(s + [c] + rest, c) == [s] + Split(rest, c)
  {
    var all := s + [c] + rest;
    if s == "" {
      assert all[1..] == rest;
    } else {
      assert all[1..] == s[1..] + [c] + rest;
      SplitFirst(s[1..], c, rest);
      assert [s[0]] + s[1..] == s;
    }
  }

  /** Joining parts without the separator and splitting again gives the parts. */
  lemma {:induction false} JoinSplits(parts: seq<string>, c: char)
    requires parts != [] && forall part :: part in parts ==> c !in part
    ensures Split(Join(parts, c), c) == parts
  {
    assert parts[0] in parts;
    if |parts| == 1 {
      SplitNone(parts[0], c);
    } else {
      JoinSplits(parts[1..], c);
      SplitFirst(parts[0], c, Join(parts[1..], c));
    }
  }

  /** The part stands in the string between two separators, or between one and an end. */
  predicate StandsAt(s: string, c: char, part: string, i: nat) {
    && i + |part| <= |s| && s[i..i + |part|] == part
    && (i == 0 || s[i - 1] == c) && (i + |part| == |s| || s[i + |part|] == c)
  }

  lemma {:induction false} SplitAppend(a: string, c: char, b: string)
    ensures Split(a + [c] + b, c) == Split(a, c) + Split(b, c)
  {
    var all := a + [c] + b;
    if a == "" {
      assert all[1..] == b;
    } else {
      assert all[1..] == a[1..] + [c] + b;
      SplitAppend(a[1..], c, b);
    }
  }

  lemma StandsLater(s: string, c: char, part: string, r: nat)
    requires s != "" && StandsAt(s[1..], c, part, r) && (r > 0 || s[0] == c)
    ensures StandsAt(s, c, part, r + 1)
  {
    assert s[1..][r..r + |part|] == s[r + 1..r + 1 + |part|];
  }

  lemma StandsLonger(s: string, c: char, part: string)
    requires s != "" && StandsAt(s[1..], c, part, 0)
    ensures StandsAt(s, c, [s[0]] + part, 0)
  {
    assert s[0..1 + |part|] == [s[0]] + s[1..][0..|part|];
  }

  lemma {:induction false} PartStands(s: string, c: char, k: nat) returns (i: nat)
    requires k < |Split(s, c)|
    ensures StandsAt(s, c, Split(s, c)[k], i)
    ensures i == 0 <==> k == 0
  {
    i := 0;
    if s != "" {
      var rest := Split(s[1..], c);
      if s[0] != c || k > 0 {
        var from := if s[0] == c then k - 1 else k;
        var r := PartStands(s[1..], c, from);
        hide StandsAt;
        if k > 0 {
          StandsLater(s, c, rest[from], r);
          i := r + 1;
        } else {
          StandsLonger(s, c, rest[0]);
        }
      }
    }
  }

  /** Splitting gives exactly the pieces between separators. */
  lemma SplitFinds(s: string, c: char, part: string)
    ensures part in Split(s, c) <==> c !in part && exists i: nat :: StandsAt(s, c, part, i)
  {
    if part in Split(s, c) {
      SplitJoins(s, c);
      var k :| 0 <= k < |Split(s, c)| && Split(s, c)[k] == part;
      var i := PartStands(s, c, k);
    } else if c !in part {
      forall i: nat ensures !StandsAt(s, c, part, i) {
        if StandsAt(s, c, part, i) {
          StandingFound(s, c, part, i);
        }
      }
    }
  }

  lemma StandingFound(s: string, c: char, part: string, i: nat)
    requires c !in part && StandsAt(s, c, part, i)
    ensures part in Split(s, c)
  {
    var right := s[i..];
    assert right == part + s[i + |part|..];
    if i + |part| < |s| {
      assert right == part + [c] + s[i + |part| + 1..];
      SplitFirst(part, c, s[i + |part| + 1..]);
    } else {
      assert right == part;
      SplitNone(part, c);
    }
    assert Split(right, c)[0] == part;
    if i == 0 {
      assert right == s;
    } else {
      assert s == s[..i - 1] + [c] + right;
      SplitAppend(s[..i - 1], c, right);
    }
  }

  datatype Toml = Scalar(text: string) | Array(items: seq<Toml>) | Table(entries: map<string, Toml>)

  datatype TomlError = NotATable(segment: string) | KeyNotFound | EmptyKey

  /** What the cursor walk computes: the document with the value at the path replaced. */
  function ReplaceAt(document: Toml, path: seq<string>, replacement: Toml): Result<Toml, TomlError>
    decreases |path|
  {
    if path == [] then Err(EmptyKey)
    else if !document.Table? then Err(NotATable(path[0]))
    else if path[0] !in document.entries then Err(KeyNotFound)
    else if |path| == 1 then Ok(Table(document.entries[path[0] := replacement]))
    else
      var inner :- ReplaceAt(document.entries[path[0]], path[1..], replacement);
      Ok(Table(document.entries[path[0] := inner]))
  }

  function ValueAt(document: Toml, path: seq<string>): Option<Toml>
    decreases |path|
  {
    if path == [] then Some(document)
    else if document.Table? && path[0] in document.entries then ValueAt(document.entries[path[0]], path[1..])
    else None
  }

  /** The replacement succeeds exactly on existing keys, and then stands at its path. */
  lemma {:induction false} ReplacedThere(document: Toml, path: seq<string>, replacement: Toml)
    ensures ReplaceAt(document, path, replacement).Ok? <==> path != [] && ValueAt(document, path).Some?
    ensures ReplaceAt(document, path, replacement).Ok? ==>
              ValueAt(ReplaceAt(document, path, replacement).value, path) == Some(replacement)
    decreases |path|
  {
    if path != [] && document.Table? && path[0] in document.entries {
      var inner := document.entries[path[0]];
      if |path| > 1 {
        ReplacedThere(inner, path[1..], replacement);
      } else {
        assert path[1..] == [];
      }
    }
  }

  /** Every path that neither contains nor extends the replaced one reads as before. */
  lemma {:induction false} UntouchedElsewhere(document: Toml, path: seq<string>, replacement: Toml, other: seq<string>)
    requires ReplaceAt(document, path, replacement).Ok?
    requires !(path <= other) && !(other <= path)
    ensures ValueAt(ReplaceAt(document, path, replacement).value, other) == ValueAt(document, other)
    decreases |path|
  {
    if other != [] && other[0] == path[0] && |path| > 1 {
      assert path == [path[0]] + path[1..] && other == [other[0]] + other[1..];
      UntouchedElsewhere(document.entries[path[0]], path[1..], replacement, other[1..]);
    }
  }

  predicate Apart(a: seq<string>, b: seq<string>) { !(a <= b) && !(b <= a) }

  lemma ApartTail(path: seq<string>, other: seq<string>)
    requires path != [] && other != []
    ensures Apart(path, other) <==> path[0] != other[0] || Apart(path[1..], other[1..])
  {
    assert path == [path[0]] + path[1..] && other == [other[0]] + other[1..];
    if path[0] == other[0] {
      assert path <= other <==> path[1..] <= other[1..];
      assert other <= path <==> other[1..] <= path[1..];
    }
  }

  /** The value stands at the path, which was there before, and all paths apart from it read as before. */
  ghost predicate TomlOnlyThere(document: Toml, path: seq<string>, value: Toml, after: Toml) {
    && path != [] && ValueAt(document, path).Some? && ValueAt(after, path) == Some(value)
    && forall other :: Apart(path, other) ==> ValueAt(after, other) == ValueAt(document, other)
  }

  lemma KeyAt(document: Toml, k: string)
    ensures ValueAt(document, [k])
         == if document.Table? && k in document.entries then Some(document.entries[k]) else None
  {
    assert [k][1..] == [];
    if document.Table? && k in document.entries {
      assert ValueAt(document.entries[k], []) == Some(document.entries[k]);
    }
  }

  lemma {:induction false} TomlOnlyOne(document: Toml, path: seq<string>, value: Toml, after: Toml)
    requires TomlOnlyThere(document, path, value, after)
    ensures ReplaceAt(document, path, value) == Ok(after)
    decreases |path|
  {
    var inner, inner' := document.entries[path[0]], after.entries[path[0]];
    forall k ensures k != path[0] ==>
      (k in after.entries <==> k in document.entries)
      && (k in after.entries ==> after.entries[k] == document.entries[k])
    {
      ApartTail(path, [k]);
      KeyAt(document, k);
      KeyAt(after, k);
    }
    if |path| > 1 {
      forall other | Apart(path[1..], other) ensures ValueAt(inner', other) == ValueAt(inner, other) {
        assert ([path[0]] + other)[1..] == other;
        ApartTail(path, [path[0]] + other);
        assert ValueAt(after, [path[0]] + other) == ValueAt(document, [path[0]] + other);
      }
      TomlOnlyOne(inner, path[1..], value, inner');
    } else {
      assert path[1..] == [] && ValueAt(inner', []) == Some(inner');
    }
    assert after.entries == document.entries[path[0] := inner'];
  }

  /** The replacement is the one document that meets this description. */
  lemma TomlReplaces(document: Toml, path: seq<string>, value: Toml, after: Toml)
    ensures ReplaceAt(document, path, value) == Ok(after) <==> TomlOnlyThere(document, path, value, after)
  {
    ReplacedThere(document, path, value);
    if ReplaceAt(document, path, value) == Ok(after) {
      forall other | Apart(path, other) ensures ValueAt(after, other) == ValueAt(document, other) {
        UntouchedElsewhere(document, path, value, other);
      }
    }
    if TomlOnlyThere(document, path, value, after) {
      TomlOnlyOne(document, path, value, after);
    }
  }

  /** Putting the old value back undoes the replacement. */
  lemma {:induction false} ReplaceBack(document: Toml, path: seq<string>, replacement: Toml)
    requires path != [] && ValueAt(document, path).Some?
    ensures ReplaceAt(document, path, replacement).Ok?
    ensures ReplaceAt(ReplaceAt(document, path, replacement).value, path, ValueAt(document, path).value)
         == Ok(document)
    decreases |path|
  {
    ReplacedThere(document, path, replacement);
    var k := path[0];
    var inner := document.entries[k];
    if |path| == 1 {
      assert path[1..] == [] && ValueAt(inner, []) == Some(inner);
      assert document.entries[k := replacement][k := inner] == document.entries;
    } else {
      ReplaceBack(inner, path[1..], replacement);
      var changed := ReplaceAt(inner, path[1..], replacement).value;
      assert document.entries[k := changed][k := inner] == document.entries;
    }
  }

  // --------------------------------------------------------- the cursor walk, in place

  /** The tables passed on the way down, closed again around the value below. */
  function Rebuild(spine: seq<map<string, Toml>>, keys: seq<string>, below: Toml): Toml
    requires |spine| == |keys|
    decreases |spine|
  {
    if spine == [] then below
    else
      var last := |spine| - 1;
      Rebuild(spine[..last], keys[..last], Table(spine[last][keys[last] := below]))
  }

  function RebuildResult(spine: seq<map<string, Toml>>, keys: seq<string>, below: Result<Toml, TomlError>):
      Result<Toml, TomlError>
    requires |spine| == |keys|
  {
    match below
    case Ok(toml) => Ok(Rebuild(spine, keys, toml))
    case Err(e) => Err(e)
  }

  /** `replace_toml_dotted_value`: walks a cursor down, writes through it, returns the document. */
  method ReplaceTomlDottedValue(document: Toml, segments: seq<string>, replacement: Toml)
      returns (r: Result<Toml, TomlError>)
    ensures r == ReplaceAt(document, segments, replacement)
  {
    var cursor := document;
    var spine: seq<map<string, Toml>> := [];
    for i := 0 to |segments|
      invariant |spine| == i
      invariant i == |segments| ==> segments == []
      invariant ReplaceAt(document, segments, replacement)
             == RebuildResult(spine, segments[..i], ReplaceAt(cursor, segments[i..], replacement))
    {
      var segment := segments[i];
      assert segments[i..][0] == segment && segments[i..][1..] == segments[i + 1..];
      if !cursor.Table? {
        return Err(NotATable(segment));
      }
      if segment !in cursor.entries {
        return Err(KeyNotFound);
      }
      if i + 1 == |segments| {
        return Ok(Rebuild(spine, segments[..i], Table(cursor.entries[segment := replacement])));
      }
      assert segments[..i + 1][..i] == segments[..i];
      assert (spine + [cursor.entries])[..i] == spine;
      spine := spine + [cursor.entries];
      cursor := cursor.entries[segment];
    }
    return Err(EmptyKey);
  }
}