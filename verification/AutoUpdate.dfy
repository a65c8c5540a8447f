/**
 * The automatic update transaction (`kernel/auto_update.rs`): apply every patch, verify, and put
 * every file back unless the update is promoted. Any write may fail and leave anything behind.
 */
module AutoUpdate {
  import opened Prelude
  import opened TextPatch
  import opened JsonPatch

  /** A file's content; only text can be read by a patch. */
  datatype Content = Text(text: string) | Binary(bytes: seq<nat>)

  /** The files behind the workspace's paths; two paths may lead to one file. */
  type Files = map<string, Content>

  datatype PatchKind = TextKind | JsonKind | TomlKind

  datatype FilePatch = FilePatch(
    path: string,
    kind: PatchKind,
    find: string,
    replace: string,
    pointer: Option<string>,
    dottedKey: Option<string>,
    value: Option<JsonDoc>)

  datatype Error =
    | WorkspaceUnavailable
    | ShapeInvalid(path: string)
    | InvalidPath(path: string)
    | OutsideWorkspace(path: string)
    | Io(path: string)
    | PatternNotFound(path: string, pattern: string)
    | PatchInvalid(path: string)
    | VerifyFailed(message: string)

  /**
   * What the file system and the JSON and TOML libraries do: the file a path leads to, whether
   * that file lies inside the workspace, and the codecs.
   */
  datatype Host = Host(
    locate: string -> string,
    inside: string -> bool,
    parseJson: string -> Option<JsonDoc>,
    printJson: JsonDoc -> Option<string>,
    parseToml: string -> Option<Toml>,
    toToml: JsonDoc -> Option<Toml>,
    printToml: Toml -> Option<string>)

  datatype Verification = Verification(testsPassed: bool, safetyChecksPassed: bool, qualityScore: nat)

  datatype UpdateResult = UpdateResult(
    changedPaths: set<string>,
    rolledBack: bool,
    testsPassed: bool,
    safetyChecksPassed: bool,
    qualityScore: nat,
    verdict: string)

  /** `RollbackFailed` is the one error after which files may differ from the start. */
  datatype Outcome = Done(result: UpdateResult) | Failed(error: Error) | RollbackFailed(error: Error)

  datatype Backup = Backup(path: string, original: string)

  predicate ValidShape(p: FilePatch) {
    match p.kind
    case TextKind => p.find != ""
    case JsonKind => p.pointer.Some? && p.pointer.value != "" && p.value.Some?
    case TomlKind => p.dottedKey.Some? && p.dottedKey.value != "" && p.value.Some?
  }

  /** Relative, and without a `..` component. */
  predicate ValidPath(path: string) {
    (path == "" || path[0] != '/') && ".." !in Split(path, '/')
  }

  function PatchText(h: Host, p: FilePatch, original: string): Result<string, Error>
    requires ValidShape(p)
  {
    match p.kind
    case TextKind => (
      match ApplyText(original, p.find, p.replace)
      case Ok(updated) => Ok(updated)
      case Err(NotFound) => Err(PatternNotFound(p.path, p.find))
      case Err(Ambiguous(_)) => Err(PatchInvalid(p.path)))
    case JsonKind => PatchJson(h, p, original)
    case TomlKind => PatchToml(h, p, original)
  }

  function PatchJson(h: Host, p: FilePatch, original: string): Result<string, Error>
    requires ValidShape(p) && p.kind.JsonKind?
  {
    var document, path := h.parseJson(original), Segments(p.pointer.value);
    if document.None? || path.None? then Err(PatchInvalid(p.path))
    else
      match JsonReplace(document.value, path.value, p.value.value)
      case None => Err(PatchInvalid(p.path))
      case Some(json) =>
        match h.printJson(json)
        case Some(updated) => Ok(updated)
        case None => Err(Io(p.path))
  }

  function PatchToml(h: Host, p: FilePatch, original: string): Result<string, Error>
    requires ValidShape(p) && p.kind.TomlKind?
  {
    var value, document := h.toToml(p.value.value), h.parseToml(original);
    if value.None? || document.None? then Err(PatchInvalid(p.path))
    else
      match ReplaceAt(document.value, Split(p.dottedKey.value, '.'), value.value)
      case Err(_) => Err(PatchInvalid(p.path))
      case Ok(toml) =>
        match h.printToml(toml)
        case Some(updated) => Ok(updated)
        case None => Err(Io(p.path))
  }

  /** Everything one patch does before it writes: the original text and the updated one. */
  function Prepare(h: Host, files: Files, p: FilePatch): (r: Result<(string, string), Error>)
    ensures r.Ok? ==> h.locate(p.path) in files && files[h.locate(p.path)] == Text(r.value.0)
  {
    if !ValidShape(p) then Err(ShapeInvalid(p.path))
    else if !ValidPath(p.path) then Err(InvalidPath(p.path))
    else if !h.inside(p.path) then Err(OutsideWorkspace(p.path))
    else if h.locate(p.path) !in files || !files[h.locate(p.path)].Text? then Err(Io(p.path))
    else
      var original := files[h.locate(p.path)].text;
      var updated :- PatchText(h, p, original);
      Ok((original, updated))
  }

  /** The patches applied left to right, each to what the ones before it left. */
  function ApplyAll(h: Host, files: Files, patches: seq<FilePatch>): Result<Files, Error>
    decreases |patches|
  {
    if patches == [] then Ok(files)
    else
      var before :- ApplyAll(h, files, patches[..|patches| - 1]);
      var p := patches[|patches| - 1];
      var texts :- Prepare(h, before, p);
      Ok(before[h.locate(p.path) := Text(texts.1)])
  }

  // ---------------------------------------------------- what a patch means for its file

  ghost predicate JsonRewritten(h: Host, p: FilePatch, original: string, updated: string) {
    && p.pointer.Some? && p.value.Some?
    && exists document, path, after ::
         && h.parseJson(original) == Some(document) && Segments(p.pointer.value) == Some(path)
         && OnlyThere(document, path, p.value.value, after) && h.printJson(after) == Some(updated)
  }

  /** The dotted key is these parts, joined with dots. */
  predicate Dotted(key: string, path: seq<string>) {
    path != [] && Join(path, '.') == key && forall part :: part in path ==> '.' !in part
  }

  ghost predicate TomlRewritten(h: Host, p: FilePatch, original: string, updated: string) {
    && p.dottedKey.Some? && p.value.Some?
    && exists document, path, value, after ::
         && h.parseToml(original) == Some(document) && Dotted(p.dottedKey.value, path)
         && h.toToml(p.value.value) == Some(value)
         && TomlOnlyThere(document, path, value, after) && h.printToml(after) == Some(updated)
  }

  /** The patch may turn the original into this text. */
  ghost predicate Rewritten(h: Host, p: FilePatch, original: string, updated: string) {
    match p.kind
    case TextKind => TextRewritten(original, p.find, p.replace, updated)
    case JsonKind => JsonRewritten(h, p, original, updated)
    case TomlKind => TomlRewritten(h, p, original, updated)
  }

  /** Why the patch cannot be applied to the original. */
  ghost predicate Refused(h: Host, p: FilePatch, original: string, e: Error) {
    match p.kind
    case TextKind =>
      if forall k: nat :: !OccursAt(original, p.find, k) then e == PatternNotFound(p.path, p.find)
      else
        && e == PatchInvalid(p.path)
        && exists i: nat, k: nat :: OccursAt(original, p.find, i) && OccursAt(original, p.find, k) && i + |p.find| <= k
    case JsonKind =>
      && p.pointer.Some?
      && var document, path := h.parseJson(original), Segments(p.pointer.value);
         if document.Some? && path.Some? && JsonAt(document.value, path.value).Some?
         then e == Io(p.path) && forall updated :: !JsonRewritten(h, p, original, updated)
         else e == PatchInvalid(p.path)
    case TomlKind =>
      && p.dottedKey.Some? && p.value.Some?
      && var document := h.parseToml(original);
         if document.Some? && h.toToml(p.value.value).Some?
            && exists path :: Dotted(p.dottedKey.value, path) && ValueAt(document.value, path).Some?
         then e == Io(p.path) && forall updated :: !TomlRewritten(h, p, original, updated)
         else e == PatchInvalid(p.path)
  }

  lemma DottedParts(key: string, path: seq<string>)
    ensures Dotted(key, path) <==> path == Split(key, '.')
  {
    SplitJoins(key, '.');
    if Dotted(key, path) {
      JoinSplits(path, '.');
    }
  }

  lemma JsonRewrites(h: Host, p: FilePatch, original: string)
    requires ValidShape(p) && p.kind.JsonKind?
    ensures forall updated :: PatchJson(h, p, original) == Ok(updated) <==> JsonRewritten(h, p, original, updated)
    ensures forall e :: PatchJson(h, p, original) == Err(e) <==> Refused(h, p, original, e)
  {
    var document, path := h.parseJson(original), Segments(p.pointer.value);
    if document.Some? && path.Some? {
      JsonReplaced(document.value, path.value, p.value.value);
      forall after | OnlyThere(document.value, path.value, p.value.value, after)
        ensures JsonReplace(document.value, path.value, p.value.value) == Some(after)
      {
        JsonOnlyOne(document.value, path.value, p.value.value, after);
      }
    }
    hide JsonReplace, JsonAt, OnlyThere, Segments;
  }

  lemma TomlRewrites(h: Host, p: FilePatch, original: string)
    requires ValidShape(p) && p.kind.TomlKind?
    ensures forall updated :: PatchToml(h, p, original) == Ok(updated) <==> TomlRewritten(h, p, original, updated)
    ensures forall e :: PatchToml(h, p, original) == Err(e) <==> Refused(h, p, original, e)
  {
    var document, value := h.parseToml(original), h.toToml(p.value.value);
    var path := Split(p.dottedKey.value, '.');
    forall parts ensures Dotted(p.dottedKey.value, parts) <==> parts == path {
      DottedParts(p.dottedKey.value, parts);
    }
    if document.Some? && value.Some? {
      ReplacedThere(document.value, path, value.value);
      forall after
        ensures ReplaceAt(document.value, path, value.value) == Ok(after)
                <==> TomlOnlyThere(document.value, path, value.value, after)
      {
        TomlReplaces(document.value, path, value.value, after);
      }
    }
    hide ReplaceAt, ValueAt, TomlOnlyThere, Split, Dotted;
  }

  lemma TextRefused(p: FilePatch, original: string)
    requires p.find != ""
    ensures ApplyText(original, p.find, p.replace).Err? && ApplyText(original, p.find, p.replace).error.Ambiguous? <==>
              exists i: nat, k: nat ::
                OccursAt(original, p.find, i) && OccursAt(original, p.find, k) && i + |p.find| <= k
  {
    AppliesExactly(original, p.find, p.replace);
    var first := FindFrom(original, p.find, 0);
    hide CountFrom, FindFrom;
    if !AllOverlapFirst(original, p.find) && exists k: nat :: OccursAt(original, p.find, k) {
      var k: nat :| OccursAt(original, p.find, k) && !(first <= k < first + |p.find|);
      assert OccursAt(original, p.find, first);
    }
    hide OccursAt;
  }

  /** A well-shaped patch does exactly what it means, and is refused exactly where it means nothing. */
  lemma PatchMeans(h: Host, p: FilePatch, original: string)
    requires ValidShape(p)
    ensures forall updated :: PatchText(h, p, original) == Ok(updated) <==> Rewritten(h, p, original, updated)
    ensures forall e :: PatchText(h, p, original) == Err(e) <==> Refused(h, p, original, e)
  {
    match p.kind
    case TextKind =>
      AppliesExactly(original, p.find, p.replace);
      TextRefused(p, original);
      forall updated
        ensures ApplyText(original, p.find, p.replace) == Ok(updated)
                <==> TextRewritten(original, p.find, p.replace, updated)
      {
        TextRewrites(original, p.find, p.replace, updated);
      }
      hide ApplyText, TextRewritten, OccursAt;
    case JsonKind => JsonRewrites(h, p, original);
    case TomlKind => TomlRewrites(h, p, original);
  }

  /** The fields the kind needs are there and not empty. */
  predicate Complete(p: FilePatch) {
    match p.kind
    case TextKind => |p.find| > 0
    case JsonKind => p.value.Some? && p.pointer.Some? && |p.pointer.value| > 0
    case TomlKind => p.value.Some? && p.dottedKey.Some? && |p.dottedKey.value| > 0
  }

  /** Relative, and nowhere between slashes or ends do two dots stand alone. */
  ghost predicate StaysBelow(path: string) {
    !("/" <= path) && forall i: nat :: !StandsAt(path, '/', "..", i)
  }

  /** The patch takes the text of its file from `original` to `updated`. */
  ghost predicate Lands(h: Host, files: Files, p: FilePatch, original: string, updated: string) {
    && Complete(p) && StaysBelow(p.path) && h.inside(p.path)
    && h.locate(p.path) in files && files[h.locate(p.path)] == Text(original)
    && Rewritten(h, p, original, updated)
  }

  /** The first thing that is wrong with the patch. */
  ghost predicate RefusedAt(h: Host, files: Files, p: FilePatch, e: Error) {
    if !Complete(p) then e == ShapeInvalid(p.path)
    else if !StaysBelow(p.path) then e == InvalidPath(p.path)
    else if !h.inside(p.path) then e == OutsideWorkspace(p.path)
    else if h.locate(p.path) !in files || files[h.locate(p.path)].Binary? then e == Io(p.path)
    else Refused(h, p, files[h.locate(p.path)].text, e)
  }

  lemma PathStaysBelow(path: string)
    ensures ValidPath(path) <==> StaysBelow(path)
  {
    SplitFinds(path, '/', "..");
    assert path != "" && path[0] == '/' ==> path[..1] == "/";
    hide StandsAt, Split;
  }

  lemma PrepareMeans(h: Host, files: Files, p: FilePatch)
    ensures forall original, updated ::
              Prepare(h, files, p) == Ok((original, updated)) <==> Lands(h, files, p, original, updated)
    ensures forall e :: Prepare(h, files, p) == Err(e) <==> RefusedAt(h, files, p, e)
  {
    PathStaysBelow(p.path);
    assert ValidShape(p) <==> Complete(p);
    if ValidShape(p) && h.locate(p.path) in files && files[h.locate(p.path)].Text? {
      PatchMeans(h, p, files[h.locate(p.path)].text);
    }
    hide ValidPath, StaysBelow, PatchText, Rewritten, Refused, ValidShape, Complete;
  }

  /** The patches land one after the other, each on what the ones before it left. */
  ghost predicate Patched(h: Host, files: Files, patches: seq<FilePatch>, after: Files)
    decreases |patches|
  {
    if patches == [] then after == files
    else
      var p := patches[|patches| - 1];
      exists before, original, updated ::
        && Patched(h, files, patches[..|patches| - 1], before)
        && Lands(h, before, p, original, updated) && after == before[h.locate(p.path) := Text(updated)]
  }

  lemma {:induction false} AppliedMeans(h: Host, files: Files, patches: seq<FilePatch>)
    requires ApplyAll(h, files, patches).Ok?
    ensures Patched(h, files, patches, ApplyAll(h, files, patches).value)
    decreases |patches|
  {
    hide Prepare, Lands;
    if patches != [] {
      var front, p := patches[..|patches| - 1], patches[|patches| - 1];
      AppliedMeans(h, files, front);
      var before := ApplyAll(h, files, front).value;
      PrepareMeans(h, before, p);
      var (original, updated) := Prepare(h, before, p).value;
      assert Lands(h, before, p, original, updated);
    }
  }

  lemma {:induction false} MeantApplies(h: Host, files: Files, patches: seq<FilePatch>, after: Files)
    requires Patched(h, files, patches, after)
    ensures ApplyAll(h, files, patches) == Ok(after)
    decreases |patches|
  {
    hide Prepare, Lands;
    if patches != [] {
      var front, p := patches[..|patches| - 1], patches[|patches| - 1];
      var before, original, updated :| Patched(h, files, front, before) && Lands(h, before, p, original, updated)
        && after == before[h.locate(p.path) := Text(updated)];
      MeantApplies(h, files, front, before);
      PrepareMeans(h, before, p);
      assert Prepare(h, before, p) == Ok((original, updated));
    }
  }

  /** The fold of the patches is what they mean together. */
  lemma ApplyAllMeans(h: Host, files: Files, patches: seq<FilePatch>)
    ensures forall after :: ApplyAll(h, files, patches) == Ok(after) <==> Patched(h, files, patches, after)
  {
    hide ApplyAll, Patched;
    forall after ensures ApplyAll(h, files, patches) == Ok(after) <==> Patched(h, files, patches, after) {
      if ApplyAll(h, files, patches) == Ok(after) {
        AppliedMeans(h, files, patches);
      }
      if Patched(h, files, patches, after) {
        MeantApplies(h, files, patches, after);
      }
    }
  }

  /** The backups written back, last one first. */
  function Restore(h: Host, files: Files, backups: seq<Backup>): Files
    decreases |backups|
  {
    if backups == [] then files
    else
      var last := |backups| - 1;
      Restore(h, files[h.locate(backups[last].path) := Text(backups[last].original)], backups[..last])
  }

  /** A backup taken before a write undoes whatever the write left, wherever in the list it is. */
  lemma BackupUndoesWrite(h: Host, files: Files, backups: seq<Backup>, path: string, original: string, left: Content)
    requires h.locate(path) in files && files[h.locate(path)] == Text(original)
    ensures Restore(h, files[h.locate(path) := left], backups + [Backup(path, original)])
         == Restore(h, files, backups)
  {
    var all := backups + [Backup(path, original)];
    assert all[..|backups|] == backups;
    assert files[h.locate(path) := left][h.locate(path) := Text(original)] == files;
  }

  /** Both states agree on every file that none of these paths leads to. */
  ghost predicate SameElsewhere(h: Host, paths: set<string>, before: Files, after: Files) {
    forall f :: (forall p :: p in paths ==> h.locate(p) != f) ==>
      (f in after <==> f in before) && (f in after ==> after[f] == before[f])
  }

  /** The backups a full application leaves: each file as its patch found it. */
  function BackupsOf(h: Host, files: Files, patches: seq<FilePatch>): seq<Backup>
    requires ApplyAll(h, files, patches).Ok?
    decreases |patches|
  {
    if patches == [] then []
    else
      var before, p := patches[..|patches| - 1], patches[|patches| - 1];
      BackupsOf(h, files, before) + [Backup(p.path, Prepare(h, ApplyAll(h, files, before).value, p).value.0)]
  }

  /** Several patches to one file included, restoring in reverse undoes them all. */
  lemma {:induction false} RestoreUndoesAll(h: Host, files: Files, patches: seq<FilePatch>)
    requires ApplyAll(h, files, patches).Ok?
    ensures Restore(h, ApplyAll(h, files, patches).value, BackupsOf(h, files, patches)) == files
    decreases |patches|
  {
    if patches != [] {
      var before, p := patches[..|patches| - 1], patches[|patches| - 1];
      RestoreUndoesAll(h, files, before);
      var mid := ApplyAll(h, files, before).value;
      var texts := Prepare(h, mid, p).value;
      BackupUndoesWrite(h, mid, BackupsOf(h, files, before), p.path, texts.0, Text(texts.1));
    }
  }

  /** The reverse order matters: first to last, a file patched twice would stay half patched. */
  lemma ForwardOrderLeavesFirstPatch(h: Host, path: string, first: string, second: string, now: Content)
    requires first != second
    ensures var files := map[h.locate(path) := now];
            var backups := [Backup(path, first), Backup(path, second)];
            && Restore(h, files, backups) == map[h.locate(path) := Text(first)]
            && Restore(h, files, [backups[1], backups[0]]) == map[h.locate(path) := Text(second)]
  {
    var a, b := Backup(path, first), Backup(path, second);
    assert [a, b][..1] == [a] && [b, a][..1] == [b] && [a][..0] == [] && [b][..0] == [];
    var file := h.locate(path);
    assert map[file := now][file := Text(first)] == map[file := Text(first)];
    assert map[file := now][file := Text(second)] == map[file := Text(second)];
    assert map[file := Text(first)][file := Text(second)] == map[file := Text(second)];
    assert map[file := Text(second)][file := Text(first)] == map[file := Text(first)];
    assert Restore(h, map[file := Text(second)], [a]) == Restore(h, map[file := Text(first)], []);
    assert Restore(h, map[file := Text(first)], [b]) == Restore(h, map[file := Text(second)], []);
  }

  /** The fold changes no file that no patch names, and creates none. */
  lemma {:induction false} ApplyAllLocal(h: Host, files: Files, patches: seq<FilePatch>)
    requires ApplyAll(h, files, patches).Ok?
    ensures ApplyAll(h, files, patches).value.Keys == files.Keys
    ensures SameElsewhere(h, PathsOf(patches), files, ApplyAll(h, files, patches).value)
    decreases |patches|
  {
    if patches != [] {
      var before, p := patches[..|patches| - 1], patches[|patches| - 1];
      ApplyAllLocal(h, files, before);
      assert PathsOf(before) <= PathsOf(patches) && p.path in PathsOf(patches);
    }
  }

  /** Why the patches did not all land: one was refused, or it landed and its write failed. */
  ghost predicate StopsAt(h: Host, files: Files, patches: seq<FilePatch>, i: nat, e: Error) {
    && i < |patches|
    && exists before ::
         && Patched(h, files, patches[..i], before)
         && (RefusedAt(h, before, patches[i], e)
             || (e == Io(patches[i].path)
                 && exists original, updated :: Lands(h, before, patches[i], original, updated)))
  }

  /** The verification callback: what it leaves of the files, and its verdict. */
  type Verifier = Files -> (Files, Result<Verification, string>)

  /** The error came before the verification. */
  ghost predicate FailsEarly(h: Host, files: Files, patches: seq<FilePatch>, e: Error) {
    e == WorkspaceUnavailable || exists i: nat :: StopsAt(h, files, patches, i, e)
  }

  /** All patches landed and the verification itself failed. */
  ghost predicate FailsVerify(h: Host, files: Files, patches: seq<FilePatch>, verify: Verifier, e: Error) {
    && ApplyAll(h, files, patches).Ok?
    && var verdict := verify(ApplyAll(h, files, patches).value).1;
       verdict.Err? && e == VerifyFailed(verdict.error)
  }

  predicate Agree(a: Files, b: Files, file: string) {
    (file in a <==> file in b) && (file in a ==> a[file] == b[file])
  }

  ghost predicate Led(h: Host, paths: set<string>, file: string) { exists p :: p in paths && h.locate(p) == file }

  /** Every file a patch leads to is as before the transaction, every other as the verifier left it. */
  ghost predicate Undone(h: Host, paths: set<string>, before: Files, verified: Files, after: Files) {
    forall file :: Agree(after, if Led(h, paths, file) then before else verified, file)
  }

  /** A verifier that writes nothing: undone means that all files are as before. */
  lemma UndoneQuietly(h: Host, before: Files, patches: seq<FilePatch>, after: Files)
    requires ApplyAll(h, before, patches).Ok?
    requires Undone(h, PathsOf(patches), before, ApplyAll(h, before, patches).value, after)
    ensures after == before
  {
    ApplyAllLocal(h, before, patches);
    var paths, all := PathsOf(patches), ApplyAll(h, before, patches).value;
    hide ApplyAll, PathsOf;
    forall file ensures Agree(after, before, file) {
      assert Agree(after, if Led(h, paths, file) then before else all, file);
      assert Led(h, paths, file) || forall p :: p in paths ==> h.locate(p) != file;
    }
    assert after.Keys == before.Keys by {
      forall file ensures file in after.Keys <==> file in before.Keys { assert Agree(after, before, file); }
    }
    forall file | file in after ensures after[file] == before[file] { assert Agree(after, before, file); }
  }

  /** Whatever else has happened to the files, a backed up file is restored to its oldest backup. */
  lemma {:induction false} RestoreEach(h: Host, a: Files, b: Files, backups: seq<Backup>, file: string)
    ensures if Led(h, Paths(backups), file) then Agree(Restore(h, a, backups), Restore(h, b, backups), file)
            else Agree(Restore(h, a, backups), a, file)
    decreases |backups|
  {
    if backups != [] {
      var front, last := backups[..|backups| - 1], backups[|backups| - 1];
      assert backups == front + [last];
      assert Paths(backups) == Paths(front) + {last.path};
      var a', b' := a[h.locate(last.path) := Text(last.original)], b[h.locate(last.path) := Text(last.original)];
      RestoreEach(h, a', b', front, file);
      RestoreEach(h, b', a', front, file);
      assert Led(h, Paths(backups), file) <==> Led(h, Paths(front), file) || h.locate(last.path) == file;
    }
  }

  lemma RestoreUndoes(h: Host, backups: seq<Backup>, before: Files, applied: Files, verified: Files)
    requires Restore(h, applied, backups) == before
    ensures Undone(h, Paths(backups), before, verified, Restore(h, verified, backups))
  {
    forall file
      ensures Agree(Restore(h, verified, backups), if Led(h, Paths(backups), file) then before else verified, file)
    {
      RestoreEach(h, verified, applied, backups, file);
    }
  }

  function Paths(backups: seq<Backup>): set<string> {
    set b | b in backups :: b.path
  }

  function PathsOf(patches: seq<FilePatch>): set<string> {
    set i | 0 <= i < |patches| :: patches[i].path
  }

  lemma OnePatchMore(h: Host, files: Files, patches: seq<FilePatch>, i: nat)
    requires i < |patches| && ApplyAll(h, files, patches[..i]).Ok?
    ensures var before, p := ApplyAll(h, files, patches[..i]).value, patches[i];
            ApplyAll(h, files, patches[..i + 1])
            == match Prepare(h, before, p)
               case Ok((_, updated)) => Ok(before[h.locate(p.path) := Text(updated)])
               case Err(e) => Err(e)
    ensures PathsOf(patches[..i + 1]) == PathsOf(patches[..i]) + {patches[i].path}
    ensures patches[i].path in PathsOf(patches)
  {
    assert patches[..i + 1][..i] == patches[..i] && patches[..i + 1][i] == patches[i];
  }

  lemma StoppedHere(h: Host, files: Files, patches: seq<FilePatch>, i: nat, e: Error)
    requires i < |patches| && ApplyAll(h, files, patches[..i]).Ok?
    requires var plan := Prepare(h, ApplyAll(h, files, patches[..i]).value, patches[i]);
             plan == Err(e) || (plan.Ok? && e == Io(patches[i].path))
    ensures exists k: nat :: StopsAt(h, files, patches, k, e)
  {
    var before := ApplyAll(h, files, patches[..i]).value;
    ApplyAllMeans(h, files, patches[..i]);
    PrepareMeans(h, before, patches[i]);
    var plan := Prepare(h, before, patches[i]);
    hide ApplyAll, Prepare, Patched, RefusedAt, Lands;
    assert plan.Ok? ==> Lands(h, before, patches[i], plan.value.0, plan.value.1);
    assert StopsAt(h, files, patches, i, e);
  }

  class AutoUpdater {
    const host: Host
    var files: Files

    constructor (host: Host, files: Files)
      ensures this.host == host && this.files == files
    {
      this.host, this.files := host, files;
    }

    /** A write that fails may leave anything in the file. */
    method WriteFile(path: string, text: string) returns (ok: bool, ghost left: Content)
      modifies this`files
      ensures files == old(files)[host.locate(path) := left]
      ensures ok ==> left == Text(text)
    {
      ok := *;
      if ok {
        left := Text(text);
        files := files[host.locate(path) := Text(text)];
      } else {
        var junk: Content := *;
        left := junk;
        files := files[host.locate(path) := junk];
      }
    }

    /** One patch: the backup is recorded before the file is touched. */
    method ApplyOne(patch: FilePatch, backups: seq<Backup>, changed: set<string>)
        returns (r: Result<(), Error>, backups': seq<Backup>, changed': set<string>)
      modifies this`files
      ensures Restore(host, files, backups') == Restore(host, old(files), backups)
      ensures Paths(backups') <= Paths(backups) + {patch.path}
      ensures var plan := Prepare(host, old(files), patch);
              match r
              case Ok(_) =>
                && plan.Ok? && Lands(host, old(files), patch, plan.value.0, plan.value.1)
                && files == old(files)[host.locate(patch.path) := Text(plan.value.1)]
                && changed' == changed + {patch.path} && Paths(backups') == Paths(backups) + {patch.path}
              case Err(e) => plan == Err(e) || (plan.Ok? && e == Io(patch.path))
      ensures SameElsewhere(host, {patch.path}, old(files), files)
    {
      backups', changed' := backups, changed;
      PrepareMeans(host, files, patch);
      hide Lands, RefusedAt;
      var plan := Prepare(host, files, patch);
      if plan.Err? {
        return Err(plan.error), backups', changed';
      }
      var (original, updated) := plan.value;
      backups' := backups + [Backup(patch.path, original)];
      var ok, left := WriteFile(patch.path, updated);
      BackupUndoesWrite(host, old(files), backups, patch.path, original, left);
      if !ok {
        return Err(Io(patch.path)), backups', changed';
      }
      changed' := changed + {patch.path};
      assert backups'[|backups|].path == patch.path;
      r := Ok(());
    }

    /** Writes the backups back in reverse order; stops at the first that cannot be written. */
    method Rollback(backups: seq<Backup>) returns (r: Result<(), Error>)
      modifies this`files
      ensures r.Ok? ==> files == Restore(host, old(files), backups)
      ensures SameElsewhere(host, Paths(backups), old(files), files)
    {
      var workspaceFound: bool := *;
      if !workspaceFound {
        return Err(WorkspaceUnavailable);
      }
      assert backups[..|backups|] == backups;
      for i := |backups| downto 0
        invariant Restore(host, files, backups[..i]) == Restore(host, old(files), backups)
        invariant SameElsewhere(host, Paths(backups), old(files), files)
      {
        var contained: bool := *;
        if !contained {
          return Err(OutsideWorkspace(backups[i].path));
        }
        assert backups[..i + 1][..i] == backups[..i];
        assert backups[i].path in Paths(backups);
        var ok, _ := WriteFile(backups[i].path, backups[i].original);
        if !ok {
          return Err(Io(backups[i].path));
        }
      }
      return Ok(());
    }

    /** The patch loop of `execute`; on an error the backups still undo everything written. */
    method ApplyPatches(patches: seq<FilePatch>)
        returns (r: Result<(), Error>, backups: seq<Backup>, changed: set<string>)
      modifies this`files
      ensures Restore(host, files, backups) == old(files)
      ensures Paths(backups) <= PathsOf(patches)
      ensures SameElsewhere(host, PathsOf(patches), old(files), files)
      ensures r.Ok? ==> && ApplyAll(host, old(files), patches) == Ok(files)
                        && Patched(host, old(files), patches, files)
                        && changed == PathsOf(patches) == Paths(backups)
      ensures r.Err? ==> exists i: nat :: StopsAt(host, old(files), patches, i, r.error)
    {
      backups, changed := [], {};
      for i := 0 to |patches|
        invariant ApplyAll(host, old(files), patches[..i]) == Ok(files)
        invariant Restore(host, files, backups) == old(files)
        invariant changed == PathsOf(patches[..i]) == Paths(backups)
        invariant Paths(backups) <= PathsOf(patches)
        invariant SameElsewhere(host, PathsOf(patches), old(files), files)
      {
        OnePatchMore(host, old(files), patches, i);
        hide *;
        ghost var before := files;
        r, backups, changed := ApplyOne(patches[i], backups, changed);
        SameElsewhereTrans(host, {patches[i].path}, PathsOf(patches), old(files), before, files);
        if r.Err? {
          StoppedHere(host, old(files), patches, i, r.error);
          return;
        }
      }
      assert patches[..|patches|] == patches;
      ApplyAllMeans(host, old(files), patches);
      r := Ok(());
    }

    /**
     * One update transaction. Unless its own rollback fails, it ends with every patch landed in
     * order, or with every file as it was but for what the verifier itself wrote to other files;
     * and only an accepted verification promotes.
     */
    method Execute(patches: seq<FilePatch>, verify: Verifier) returns (r: Outcome)
      modifies this`files
      ensures var all := ApplyAll(host, old(files), patches);
              match r
              case Done(result) =>
                && all.Ok? && Patched(host, old(files), patches, all.value) && verify(all.value).1.Ok?
                && var (verified, v) := (verify(all.value).0, verify(all.value).1.value);
                   var accepted := v.testsPassed && v.safetyChecksPassed;
                && (if accepted then files == verified
                    else Undone(host, PathsOf(patches), old(files), verified, files))
                && result == UpdateResult(PathsOf(patches), !accepted, v.testsPassed, v.safetyChecksPassed,
                                          v.qualityScore, if accepted then "promote" else "rollback")
              case Failed(e) =>
                || (FailsEarly(host, old(files), patches, e) && files == old(files))
                || (FailsVerify(host, old(files), patches, verify, e)
                    && Undone(host, PathsOf(patches), old(files), verify(all.value).0, files))
              case RollbackFailed(_) =>
                || SameElsewhere(host, PathsOf(patches), old(files), files)
                || (all.Ok? && SameElsewhere(host, PathsOf(patches), verify(all.value).0, files))
    {
      hide Restore, ApplyAll, PathsOf, Paths, SameElsewhere, Undone, Patched, StopsAt;
      var workspaceFound: bool := *;
      if !workspaceFound {
        return Failed(WorkspaceUnavailable);
      }
      var applied, backups, changed := ApplyPatches(patches);
      ghost var written := files;
      if applied.Err? {
        var undone := Rollback(backups);
        SameElsewhereTrans(host, Paths(backups), PathsOf(patches), old(files), written, files);
        return if undone.Err? then RollbackFailed(undone.error) else Failed(applied.error);
      }
      var verdict: Result<Verification, string>;
      files, verdict := verify(files).0, verify(files).1;
      RestoreUndoes(host, backups, old(files), written, files);
      if verdict.Err? {
        var undone := Rollback(backups);
        return if undone.Err? then RollbackFailed(undone.error) else Failed(VerifyFailed(verdict.error));
      }
      var v := verdict.value;
      var accepted := v.testsPassed && v.safetyChecksPassed;
      if !accepted {
        var undone := Rollback(backups);
        if undone.Err? {
          return RollbackFailed(undone.error);
        }
      }
      return Done(UpdateResult(changed, !accepted, v.testsPassed, v.safetyChecksPassed, v.qualityScore,
                               if accepted then "promote" else "rollback"));
    }
  }

  lemma SameElsewhereTrans(h: Host, fewer: set<string>, paths: set<string>, a: Files, b: Files, c: Files)
    requires fewer <= paths && SameElsewhere(h, paths, a, b) && SameElsewhere(h, fewer, b, c)
    ensures SameElsewhere(h, paths, a, c)
  {}
}