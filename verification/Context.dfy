/**
 * The layered slot store of `context/mod.rs`: overlay with tombstones, then
 * request, session and global layers, with one overlay transaction at a time.
 */
module ContextModel {
  import opened Prelude

  datatype Json = Null | Raw(text: string)

  datatype ContextKey = ContextKey(namespace: string, name: string, version: nat)

  datatype Sensitivity = Low | Internal | Sensitive

  datatype SlotMeta = SlotMeta(required: bool, ttlMs: Option<nat>, sensitivity: Sensitivity, owner: string)

  datatype SlotEntry = SlotEntry(value: Json, meta: SlotMeta)

  type Slots = map<ContextKey, SlotEntry>
  /** `None` is a tombstone. */
  type Delta = map<ContextKey, Option<SlotEntry>>

  datatype Store = Store(
    global: Slots, session: Slots, request: Slots,
    overlays: map<string, Delta>, active: Option<string>,
    version: nat, skipped: set<string>,
    readTotal: nat, writeTotal: nat, rollbackTotal: nat, conflictTotal: nat)

  const FRESH: Store := Store(map[], map[], map[], map[], None, 0, {}, 0, 0, 0, 0)

  datatype ContextError =
    | SubgraphAlreadyActive(current: string)
    | SubgraphNotFound(id: string)
    | CommitConflict(expected: nat, actual: nat)
    | VersionIncompatible(key: ContextKey, actual: nat)

  /** An overlay exists exactly for the active subgraph, so no `expect` can fail. */
  ghost predicate Wf(s: Store) {
    match s.active
    case None => s.overlays == map[]
    case Some(id) => s.overlays.Keys == {id}
  }

  function Overlay(s: Store): Delta {
    if s.active.Some? && s.active.value in s.overlays then s.overlays[s.active.value] else map[]
  }

  /** A layer with a delta applied on top: insert the entries, drop the tombstones. */
  function Merge(base: Slots, delta: Delta): Slots {
    map k | k in base.Keys + delta.Keys && (k in delta ==> delta[k].Some?)
      :: if k in delta then delta[k].value else base[k]
  }

  /** What the three committed layers show together. */
  function Base(s: Store): Slots {
    s.global + s.session + s.request
  }

  /** The visible state: every exact-key read agrees with this one map. */
  function View(s: Store): Slots {
    Merge(Base(s), Overlay(s))
  }

  function Tombstones(delta: Delta): set<ContextKey> {
    set k | k in delta && delta[k].None?
  }

  // ------------------------------------------------------------------- reading

  predicate Conflicts(e: ContextKey, key: ContextKey) {
    e.namespace == key.namespace && e.name == key.name && e.version / 100 != key.version / 100
  }

  /** The versions of the key's slot in a layer that have another major version. */
  function ConflictsIn(slots: Slots, key: ContextKey): set<nat> {
    set e | e in slots && Conflicts(e, key) :: e.version
  }

  ghost predicate SchemaConflict(s: Store, key: ContextKey) {
    exists e :: e in s.request.Keys + s.session.Keys + s.global.Keys && Conflicts(e, key)
  }

  lemma LeastExists(s: set<nat>)
    requires s != {}
    ensures exists m :: m in s && forall n :: n in s ==> m <= n
  {
    var m :| m in s;
    while exists n :: n in s && n < m
      invariant m in s
      decreases m
    {
      var n :| n in s && n < m;
      m := n;
    }
  }

  function Least(s: set<nat>): (m: nat)
    requires s != {}
    ensures m in s && forall n :: n in s ==> m <= n
  {
    LeastExists(s);
    var m :| m in s && forall n :: n in s ==> m <= n;
    m
  }

  /** A miss: the first layer with a conflicting version of the slot names its least one. */
  function Miss(s: Store, key: ContextKey): Result<Option<SlotEntry>, ContextError> {
    var r, e, g := ConflictsIn(s.request, key), ConflictsIn(s.session, key), ConflictsIn(s.global, key);
    if r != {} then Err(VersionIncompatible(key, Least(r)))
    else if e != {} then Err(VersionIncompatible(key, Least(e)))
    else if g != {} then Err(VersionIncompatible(key, Least(g)))
    else Ok(None)
  }

  lemma MissMeaning(s: Store, key: ContextKey)
    ensures Miss(s, key).Err? <==> SchemaConflict(s, key)
    ensures Miss(s, key).Ok? ==> Miss(s, key).value == None
  {
    forall e | e in s.request.Keys + s.session.Keys + s.global.Keys && Conflicts(e, key)
      ensures e.version in ConflictsIn(s.request, key) + ConflictsIn(s.session, key) + ConflictsIn(s.global, key)
    {}
  }

  /** A version conflicts exactly if it lies outside the hundred that the key's version lies in. */
  lemma ConflictMeaning(e: ContextKey, key: ContextKey, major: nat)
    requires 100 * major <= key.version < 100 * (major + 1)
    ensures Conflicts(e, key) <==> e.namespace == key.namespace && e.name == key.name
                                   && !(100 * major <= e.version < 100 * (major + 1))
  {
    assert key.version / 100 == major;
  }

  /** The version that a conflict names: the least conflicting one of the topmost layer that has any. */
  ghost predicate Named(layer: Slots, key: ContextKey, v: nat) {
    && (exists e :: e in layer && Conflicts(e, key) && e.version == v)
    && forall e :: e in layer && Conflicts(e, key) ==> v <= e.version
  }

  ghost predicate Agrees(layer: Slots, key: ContextKey) { forall e :: e in layer ==> !Conflicts(e, key) }

  lemma NamedLeast(layer: Slots, key: ContextKey, v: nat)
    ensures Agrees(layer, key) <==> ConflictsIn(layer, key) == {}
    ensures Named(layer, key, v) <==> ConflictsIn(layer, key) != {} && v == Least(ConflictsIn(layer, key))
  {
    hide Conflicts;
    var all := ConflictsIn(layer, key);
    forall e | e in layer && Conflicts(e, key) ensures e.version in all {}
    if all != {} {
      var least := Least(all);
      assert least in all;
    }
  }

  /** A miss is an error exactly with this key and the version of the topmost conflicting layer. */
  lemma MissNames(s: Store, key: ContextKey, e: ContextError)
    ensures Miss(s, key) == Err(e) <==>
            && e.VersionIncompatible? && e.key == key
            && (Named(s.request, key, e.actual)
                || (Agrees(s.request, key) && Named(s.session, key, e.actual))
                || (Agrees(s.request, key) && Agrees(s.session, key) && Named(s.global, key, e.actual)))
    ensures Miss(s, key).Ok? <==> Agrees(s.request, key) && Agrees(s.session, key) && Agrees(s.global, key)
  {
    var v := if e.VersionIncompatible? then e.actual else 0;
    NamedLeast(s.request, key, v);
    NamedLeast(s.session, key, v);
    NamedLeast(s.global, key, v);
    hide Named, Agrees, ConflictsIn;
  }

  /** `lookup_slot_entry`: overlay hit, then request, session, global, then the schema check. */
  function Lookup(s: Store, key: ContextKey): Result<Option<SlotEntry>, ContextError> {
    if key in Overlay(s) then Ok(Overlay(s)[key])
    else if key in s.request then Ok(Some(s.request[key]))
    else if key in s.session then Ok(Some(s.session[key]))
    else if key in s.global then Ok(Some(s.global[key]))
    else Miss(s, key)
  }

  /** A read finds exactly the visible entry; a miss is an error only for an unmasked schema conflict. */
  lemma LookupIsView(s: Store, key: ContextKey)
    ensures key in View(s) <==> Lookup(s, key).Ok? && Lookup(s, key).value.Some?
    ensures key in View(s) ==> Lookup(s, key) == Ok(Some(View(s)[key]))
    ensures Lookup(s, key).Err? <==> key !in View(s) && key !in Overlay(s) && SchemaConflict(s, key)
  {
    MissMeaning(s, key);
    hide Miss, SchemaConflict;
  }

  /** The derived order of keys: namespace, name, version. */
  function CmpKey(a: ContextKey, b: ContextKey): Ordering {
    CmpString(a.namespace, b.namespace).Then(CmpString(a.name, b.name)).Then(CmpInt(a.version, b.version))
  }

  lemma CmpKeyTrans(a: ContextKey, b: ContextKey, c: ContextKey)
    requires CmpKey(a, b) != Greater && CmpKey(b, c) != Greater
    ensures CmpKey(a, c) != Greater
  {
    hide CmpString;
    StringLeTrans(a.namespace, b.namespace, c.namespace);
    if CmpString(a.name, b.name) != Greater && CmpString(b.name, c.name) != Greater {
      StringLeTrans(a.name, b.name, c.name);
    }
    CmpStringEqual(a.namespace, b.namespace);
    CmpStringEqual(b.namespace, c.namespace);
    CmpStringEqual(a.name, b.name);
    CmpStringEqual(b.name, c.name);
  }

  lemma CmpKeyLawful()
    ensures Lawful(CmpKey)
    ensures forall a, b :: CmpKey(a, b) == Equal <==> a == b
  {
    hide CmpString;
    forall a, b ensures CmpKey(b, a) == CmpKey(a, b).Flip() && (CmpKey(a, b) == Equal <==> a == b) {
      CmpStringFlip(a.namespace, b.namespace);
      CmpStringFlip(a.name, b.name);
      CmpStringEqual(a.namespace, b.namespace);
      CmpStringEqual(a.name, b.name);
    }
    forall a, b, c | CmpKey(a, b) != Greater && CmpKey(b, c) != Greater ensures CmpKey(a, c) != Greater {
      CmpKeyTrans(a, b, c);
    }
  }

  /** The list of a set of keys in key order. */
  ghost predicate Lists(list: seq<ContextKey>, keys: set<ContextKey>) {
    && (forall k :: k in list <==> k in keys)
    && (forall i, j :: 0 <= i < j < |list| ==> CmpKey(list[i], list[j]) == Less)
  }

  function InNamespace(keys: set<ContextKey>, namespace: string): set<ContextKey> {
    set k | k in keys && k.namespace == namespace
  }

  // ----------------------------------------------------------------- operations

  datatype Op =
    | Put(key: ContextKey, entry: SlotEntry)
    | Remove(key: ContextKey)
    | Begin(id: string)
    | CommitOverlay(id: string)
    | RollbackOverlay(id: string)
    | CommitSession(expected: nat)

  datatype Reply = Done | Failed(error: ContextError)

  function Write(s: Store, key: ContextKey, delta: Option<SlotEntry>): (r: Store)
    requires Wf(s)
    ensures Wf(r)
  {
    var s1 := s.(writeTotal := s.writeTotal + 1);
    match s.active
    case Some(id) => s1.(overlays := s.overlays[id := s.overlays[id][key := delta]])
    case None =>
      match delta
      case Some(entry) => s1.(request := s.request[key := entry])
      case None => s1.(request := s.request - {key}, session := s.session - {key}, global := s.global - {key})
  }

  /** The overlay moves into the request layer; tombstones clear all three layers. */
  function Flush(s: Store): (r: Store)
    requires Wf(s) && s.active.Some?
    ensures Wf(r)
  {
    var delta := Overlay(s);
    s.(overlays := s.overlays - {s.active.value}, active := None,
       request := Merge(s.request, delta),
       session := s.session - Tombstones(delta), global := s.global - Tombstones(delta))
  }

  function Step(s: Store, op: Op): (r: (Store, Reply))
    requires Wf(s)
    ensures Wf(r.0)
  {
    match op
    case Put(key, entry) => (Write(s, key, Some(entry)), Done)
    case Remove(key) => (Write(s, key, None), Done)
    case Begin(id) =>
      if s.active.Some? then (s, Failed(SubgraphAlreadyActive(s.active.value)))
      else (s.(overlays := s.overlays[id := map[]], active := Some(id)), Done)
    case CommitOverlay(id) =>
      if s.active != Some(id) then (s, Failed(SubgraphNotFound(id))) else (Flush(s), Done)
    case RollbackOverlay(id) =>
      if s.active != Some(id) then (s, Failed(SubgraphNotFound(id)))
      else (s.(overlays := s.overlays - {id}, active := None, rollbackTotal := s.rollbackTotal + 1), Done)
    case CommitSession(expected) =>
      if s.version != expected then
        (s.(conflictTotal := s.conflictTotal + 1), Failed(CommitConflict(expected, s.version)))
      else
        (s.(version := s.version + 1, session := s.session + s.request, request := map[]), Done)
  }

  function Steps(s: Store, ops: seq<Op>): (r: Store)
    requires Wf(s)
    ensures Wf(r)
    decreases |ops|
  {
    if ops == [] then s else Steps(Step(s, ops[0]).0, ops[1..])
  }

  // ------------------------------------------- the plain map with one saved copy

  datatype Saved = Saved(id: string, view: Slots)

  datatype Plain = Plain(view: Slots, saved: Option<Saved>, version: nat)

  function PlainStep(p: Plain, op: Op): (Plain, Reply) {
    match op
    case Put(key, entry) => (p.(view := p.view[key := entry]), Done)
    case Remove(key) => (p.(view := p.view - {key}), Done)
    case Begin(id) =>
      if p.saved.Some? then (p, Failed(SubgraphAlreadyActive(p.saved.value.id)))
      else (p.(saved := Some(Saved(id, p.view))), Done)
    case CommitOverlay(id) =>
      if p.saved.Some? && p.saved.value.id == id then (p.(saved := None), Done)
      else (p, Failed(SubgraphNotFound(id)))
    case RollbackOverlay(id) =>
      if p.saved.Some? && p.saved.value.id == id then (p.(view := p.saved.value.view, saved := None), Done)
      else (p, Failed(SubgraphNotFound(id)))
    case CommitSession(expected) =>
      if p.version != expected then (p, Failed(CommitConflict(expected, p.version)))
      else (p.(version := p.version + 1), Done)
  }

  function PlainSteps(p: Plain, ops: seq<Op>): Plain
    decreases |ops|
  {
    if ops == [] then p else PlainSteps(PlainStep(p, ops[0]).0, ops[1..])
  }

  function Abs(s: Store): Plain {
    Plain(View(s), if s.active.Some? then Some(Saved(s.active.value, Base(s))) else None, s.version)
  }

  lemma MergeEmpty(base: Slots)
    ensures Merge(base, map[]) == base
  {
  }

  /** A write recorded in the delta is a write to the merged map. */
  lemma MergeWrite(base: Slots, d: Delta, key: ContextKey, delta: Option<SlotEntry>)
    ensures Merge(base, d[key := delta])
         == if delta.Some? then Merge(base, d)[key := delta.value] else Merge(base, d) - {key}
  {
  }

  lemma BaseWrite(g: Slots, s: Slots, r: Slots, key: ContextKey, e: SlotEntry)
    ensures g + s + r[key := e] == (g + s + r)[key := e]
  {
  }

  lemma BaseRemove(g: Slots, s: Slots, r: Slots, key: ContextKey)
    ensures (g - {key}) + (s - {key}) + (r - {key}) == (g + s + r) - {key}
  {
  }

  lemma WriteRefines(s: Store, key: ContextKey, delta: Option<SlotEntry>)
    requires Wf(s)
    ensures View(Write(s, key, delta)) == if delta.Some? then View(s)[key := delta.value] else View(s) - {key}
    ensures s.active.Some? ==> Base(Write(s, key, delta)) == Base(s)
  {
    var w := Write(s, key, delta);
    if s.active.Some? {
      MergeWrite(Base(s), Overlay(s), key, delta);
    } else {
      MergeEmpty(Base(s));
      MergeEmpty(Base(w));
      match delta {
        case Some(e) => BaseWrite(s.global, s.session, s.request, key, e);
        case None => BaseRemove(s.global, s.session, s.request, key);
      }
    }
  }

  lemma FlushLayers(g: Slots, s: Slots, r: Slots, d: Delta)
    ensures (g - Tombstones(d)) + (s - Tombstones(d)) + Merge(r, d) == Merge(g + s + r, d)
  {
  }

  /** Committing an overlay moves data between layers and leaves the view alone. */
  lemma FlushKeepsView(s: Store)
    requires Wf(s) && s.active.Some?
    ensures View(Flush(s)) == View(s)
  {
    var d, f := Overlay(s), Flush(s);
    MergeEmpty(Base(f));
    assert Overlay(f) == map[];
    assert Base(f) == Merge(Base(s), d) by {
      FlushLayers(s.global, s.session, s.request, d);
    }
    hide Merge, Base, Flush;
  }

  lemma PutRemoveRefine(s: Store, op: Op)
    requires Wf(s) && (op.Put? || op.Remove?)
    ensures Abs(Step(s, op).0) == PlainStep(Abs(s), op).0
    ensures Step(s, op).1 == PlainStep(Abs(s), op).1
  {
    WriteRefines(s, op.key, if op.Put? then Some(op.entry) else None);
    hide View, Base;
  }

  lemma SessionRefines(s: Store, expected: nat)
    requires Wf(s)
    ensures Abs(Step(s, CommitSession(expected)).0) == PlainStep(Abs(s), CommitSession(expected)).0
    ensures Step(s, CommitSession(expected)).1 == PlainStep(Abs(s), CommitSession(expected)).1
  {
    assert s.version == expected ==> Base(Step(s, CommitSession(expected)).0) == Base(s);
    hide Base, Merge;
  }

  lemma OverlayRefines(s: Store, id: string)
    requires Wf(s)
    ensures Abs(Step(s, CommitOverlay(id)).0) == PlainStep(Abs(s), CommitOverlay(id)).0
    ensures Step(s, CommitOverlay(id)).1 == PlainStep(Abs(s), CommitOverlay(id)).1
  {
    hide View, Base, Tombstones, Overlay, Merge;
    if s.active == Some(id) {
      FlushKeepsView(s);
    }
  }

  lemma BeginRefines(s: Store, op: Op)
    requires Wf(s) && (op.Begin? || op.RollbackOverlay?)
    ensures Abs(Step(s, op).0) == PlainStep(Abs(s), op).0
    ensures Step(s, op).1 == PlainStep(Abs(s), op).1
  {
    MergeEmpty(Base(s));
    var r := Step(s, op).0;
    assert Base(r) == Base(s);
    hide Merge, Base;
  }

  /** Every operation of the four-layer store is the same operation on the plain map. */
  lemma StepRefines(s: Store, op: Op)
    requires Wf(s)
    ensures Abs(Step(s, op).0) == PlainStep(Abs(s), op).0
    ensures Step(s, op).1 == PlainStep(Abs(s), op).1
  {
    hide Abs, Step, PlainStep, Wf;
    match op
    case Put(_, _) => PutRemoveRefine(s, op);
    case Remove(_) => PutRemoveRefine(s, op);
    case Begin(_) => BeginRefines(s, op);
    case RollbackOverlay(_) => BeginRefines(s, op);
    case CommitOverlay(id) => OverlayRefines(s, id);
    case CommitSession(expected) => SessionRefines(s, expected);
  }

  /** The same over every sequence of operations. */
  lemma {:induction false} StepsRefine(s: Store, ops: seq<Op>)
    requires Wf(s)
    ensures Abs(Steps(s, ops)) == PlainSteps(Abs(s), ops)
    decreases |ops|
  {
    if ops != [] {
      StepRefines(s, ops[0]);
      StepsRefine(Step(s, ops[0]).0, ops[1..]);
    }
  }

  /** How many of the operations, run in order, are of a kind and end in a kind of reply. */
  function Count(s: Store, ops: seq<Op>, which: (Op, Reply) -> bool): nat
    requires Wf(s)
    decreases |ops|
  {
    if ops == [] then 0
    else
      var (next, reply) := Step(s, ops[0]);
      (if which(ops[0], reply) then 1 else 0) + Count(next, ops[1..], which)
  }

  /** Every counter counts its own operations, whatever the layers do. */
  lemma {:induction false} StepsCount(s: Store, ops: seq<Op>)
    requires Wf(s)
    ensures var r := Steps(s, ops);
            && r.writeTotal == s.writeTotal + Count(s, ops, (op: Op, reply) => op.Put? || op.Remove?)
            && r.rollbackTotal
               == s.rollbackTotal + Count(s, ops, (op: Op, reply: Reply) => op.RollbackOverlay? && reply.Done?)
            && r.conflictTotal
               == s.conflictTotal + Count(s, ops, (op: Op, reply: Reply) => op.CommitSession? && reply.Failed?)
            && r.version == s.version + Count(s, ops, (op: Op, reply: Reply) => op.CommitSession? && reply.Done?)
            && r.readTotal == s.readTotal && r.skipped == s.skipped
    decreases |ops|
  {
    if ops != [] {
      StepCounts(s, ops[0]);
      hide Step;
      StepsCount(Step(s, ops[0]).0, ops[1..]);
    }
  }

  lemma StepCounts(s: Store, op: Op)
    requires Wf(s)
    ensures var (r, reply) := Step(s, op);
            && r.writeTotal == s.writeTotal + (if op.Put? || op.Remove? then 1 else 0)
            && r.rollbackTotal == s.rollbackTotal + (if op.RollbackOverlay? && reply.Done? then 1 else 0)
            && r.conflictTotal == s.conflictTotal + (if op.CommitSession? && reply.Failed? then 1 else 0)
            && r.version == s.version + (if op.CommitSession? && reply.Done? then 1 else 0)
            && r.readTotal == s.readTotal && r.skipped == s.skipped
  {
    hide Merge;
  }

  // ----------------------------------------------------- consequences for callers

  /** Operations that stay inside an open transaction. */
  predicate Inner(op: Op) {
    op.Put? || op.Remove? || op.CommitSession?
  }

  /** The effect of a run of writes on a plain map. */
  function Written(view: Slots, ops: seq<Op>): Slots
    decreases |ops|
  {
    if ops == [] then view
    else
      Written(match ops[0]
              case Put(key, entry) => view[key := entry]
              case Remove(key) => view - {key}
              case _ => view,
              ops[1..])
  }

  lemma {:induction false} InnerSteps(p: Plain, ops: seq<Op>)
    requires forall op :: op in ops ==> Inner(op)
    ensures PlainSteps(p, ops).view == Written(p.view, ops)
    ensures PlainSteps(p, ops).saved == p.saved
    decreases |ops|
  {
    if ops != [] {
      assert Inner(ops[0]);
      assert forall op :: op in ops[1..] ==> op in ops;
      InnerSteps(PlainStep(p, ops[0]).0, ops[1..]);
    }
  }

  lemma {:induction false} StepsAppend(s: Store, a: seq<Op>, b: seq<Op>)
    requires Wf(s)
    ensures Steps(s, a + b) == Steps(Steps(s, a), b)
    decreases |a|
  {
    if a == [] {
      assert a + b == b;
    } else {
      assert (a + b)[1..] == a[1..] + b;
      StepsAppend(Step(s, a[0]).0, a[1..], b);
    }
  }

  /**
   * One level of undo: after begin, any writes and session commits, rollback restores the
   * view at begin and commit keeps the writes; either way no transaction stays open.
   */
  lemma Transaction(s: Store, id: string, ops: seq<Op>)
    requires Wf(s) && s.active.None? && forall op :: op in ops ==> Inner(op)
    ensures var t := Steps(Step(s, Begin(id)).0, ops);
            && t.active == Some(id)
            && View(t) == Written(View(s), ops)
            && Step(t, RollbackOverlay(id)).1 == Done && View(Step(t, RollbackOverlay(id)).0) == View(s)
            && Step(t, CommitOverlay(id)).1 == Done && View(Step(t, CommitOverlay(id)).0) == View(t)
            && Step(t, RollbackOverlay(id)).0.active == Step(t, CommitOverlay(id)).0.active == None
  {
    var b := Step(s, Begin(id)).0;
    var t := Steps(b, ops);
    StepRefines(s, Begin(id));
    StepsRefine(b, ops);
    InnerSteps(Abs(b), ops);
    StepRefines(t, RollbackOverlay(id));
    StepRefines(t, CommitOverlay(id));
  }

  /** A key removed outside a transaction never comes back without a put, whatever layers held it. */
  lemma {:induction false} RemovedStaysRemoved(p: Plain, key: ContextKey, ops: seq<Op>)
    requires key !in p.view && (p.saved.Some? ==> key !in p.saved.value.view)
    requires forall op :: op in ops ==> !(op.Put? && op.key == key)
    ensures key !in PlainSteps(p, ops).view
    decreases |ops|
  {
    if ops != [] {
      assert ops[0] in ops && forall op :: op in ops[1..] ==> op in ops;
      RemovedStaysRemoved(PlainStep(p, ops[0]).0, key, ops[1..]);
    }
  }

  lemma RemoveIsFinal(s: Store, key: ContextKey, ops: seq<Op>)
    requires Wf(s) && s.active.None?
    requires forall op :: op in ops ==> !(op.Put? && op.key == key)
    ensures key !in View(Steps(Step(s, Remove(key)).0, ops))
  {
    var r := Step(s, Remove(key)).0;
    StepRefines(s, Remove(key));
    StepsRefine(r, ops);
    RemovedStaysRemoved(Abs(r), key, ops);
  }

  // ------------------------------------------------- the window inside commit_session

  /** The first half of `commit_session`; `request` is unlocked after it. */
  function CommitCopy(s: Store): (r: Store)
    requires Wf(s)
    ensures Wf(r)
  {
    s.(version := s.version + 1, session := s.session + s.request)
  }

  /** The second half, after `request` is locked again. */
  function CommitClear(s: Store): (r: Store)
    requires Wf(s)
    ensures Wf(r)
  {
    s.(request := map[])
  }

  /** Uninterrupted, the halves are the commit; in general the clear keeps the view exactly when
      each visible request entry is also what the layers below hold. */
  lemma CommitWindow(s: Store, t: Store)
    requires Wf(s) && Wf(t)
    ensures CommitClear(CommitCopy(s)) == Step(s, CommitSession(s.version)).0
    ensures View(CommitClear(t)) == View(t) <==>
            forall k :: k in t.request && k !in Overlay(t) ==>
              k in t.global + t.session && (t.global + t.session)[k] == t.request[k]
  {
    var below := t.global + t.session;
    var c := CommitClear(t);
    assert Base(c) == below;
    forall k ensures k !in Overlay(t) ==> (k in View(t) <==> k in below || k in t.request) {}
    if View(c) == View(t) {
      forall k | k in t.request && k !in Overlay(t) ensures k in below && below[k] == t.request[k] {
        assert View(t)[k] == t.request[k];
      }
    }
  }

  /**
   * What other threads can do in the window, while `session` stays locked: whole operations that
   * do not need that lock, and the first halves of those that do and then wait for it.
   */
  datatype WindowStep = Whole(op: Op) | FlushHalf(id: string) | RemoveHalf(key: ContextKey)

  predicate Permitted(s: Store, step: WindowStep) {
    match step
    case Whole(Put(_, _)) => true
    case Whole(Remove(_)) => s.active.Some?
    case Whole(Begin(_)) => true
    case Whole(CommitOverlay(id)) => s.active != Some(id) || Tombstones(Overlay(s)) == {}
    case Whole(RollbackOverlay(_)) => true
    case Whole(CommitSession(expected)) => s.version != expected
    case FlushHalf(id) => s.active == Some(id)
    case RemoveHalf(_) => s.active.None?
  }

  function WindowNext(s: Store, step: WindowStep): (r: Store)
    requires Wf(s) && Permitted(s, step)
    ensures Wf(r)
  {
    match step
    case Whole(op) => Step(s, op).0
    case FlushHalf(id) =>
      s.(overlays := s.overlays - {id}, active := None, request := Merge(s.request, Overlay(s)))
    case RemoveHalf(key) => s.(request := s.request - {key}, writeTotal := s.writeTotal + 1)
  }

  ghost predicate AllPermitted(s: Store, steps: seq<WindowStep>)
    requires Wf(s)
    decreases |steps|
  {
    steps == [] || (Permitted(s, steps[0]) && AllPermitted(WindowNext(s, steps[0]), steps[1..]))
  }

  function WindowSteps(s: Store, steps: seq<WindowStep>): (r: Store)
    requires Wf(s) && AllPermitted(s, steps)
    ensures Wf(r)
    decreases |steps|
  {
    if steps == [] then s else WindowSteps(WindowNext(s, steps[0]), steps[1..])
  }

  lemma WindowKeepsBelow(s: Store, step: WindowStep)
    requires Wf(s) && Permitted(s, step)
    ensures WindowNext(s, step).session == s.session && WindowNext(s, step).global == s.global
  {
    if step.Whole? && step.op.CommitOverlay? && s.active == Some(step.op.id) {
      assert s.session - {} == s.session && s.global - {} == s.global;
    }
    hide Merge, Overlay;
  }

  lemma {:induction false} WindowKeepsAllBelow(s: Store, steps: seq<WindowStep>)
    requires Wf(s) && AllPermitted(s, steps)
    ensures WindowSteps(s, steps).session == s.session && WindowSteps(s, steps).global == s.global
    decreases |steps|
  {
    hide Permitted, WindowNext;
    if steps != [] {
      WindowKeepsBelow(s, steps[0]);
      WindowKeepsAllBelow(WindowNext(s, steps[0]), steps[1..]);
    }
  }

  /**
   * Whatever other threads do in the window, everything of it that reached the request layer is
   * lost: the view ends as the committed one before the commit, under the overlay that is then open.
   */
  lemma WindowWritesVanish(s: Store, steps: seq<WindowStep>)
    requires Wf(s) && AllPermitted(CommitCopy(s), steps)
    ensures var t := WindowSteps(CommitCopy(s), steps);
            && View(CommitClear(t)) == Merge(Base(s), Overlay(t))
            && (t.active.None? ==> View(CommitClear(t)) == Base(s))
  {
    WindowKeepsAllBelow(CommitCopy(s), steps);
    hide AllPermitted, WindowSteps, Merge, Base, View, CommitClear;
    ClearedView(s, WindowSteps(CommitCopy(s), steps));
  }

  lemma ClearedView(s: Store, t: Store)
    requires Wf(s) && Wf(t) && t.session == s.session + s.request && t.global == s.global
    ensures View(CommitClear(t)) == Merge(Base(s), Overlay(t))
    ensures t.active.None? ==> View(CommitClear(t)) == Base(s)
  {
    hide Merge;
    assert Base(CommitClear(t)) == Base(s);
    MergeEmpty(Base(s));
  }

  // --------------------------------------------------------------------- cloning

  /** `repaired_subgraph_state`. */
  function Repaired(active: Option<string>, overlays: map<string, Delta>): (Option<string>, map<string, Delta>) {
    if active.None? || active.value !in overlays then (None, map[])
    else (active, map[active.value := overlays[active.value]])
  }

  function Clone(s: Store): Store {
    var (a, o) := Repaired(s.active, s.overlays);
    s.(active := a, overlays := o)
  }

  /** Repair turns any torn pair into a well-formed one; a consistent store clones to an equal one. */
  lemma CloneRepairs(s: Store)
    ensures Wf(Clone(s))
    ensures Overlay(Clone(s)) == Overlay(s) && View(Clone(s)) == View(s)
    ensures Wf(s) <==> Clone(s) == s
  {
    if Wf(s) && s.active.Some? {
      assert s.overlays == map[s.active.value := s.overlays[s.active.value]];
    }
  }

  // ------------------------------------------------------------------- the object

  /** The context object, updated in place; `Model()` is its value. */
  class RuntimeContext {
    var global: Slots
    var session: Slots
    var request: Slots
    var overlays: map<string, Delta>
    var active: Option<string>
    var version: nat
    var skipped: set<string>
    var readTotal: nat
    var writeTotal: nat
    var rollbackTotal: nat
    var conflictTotal: nat

    function Model(): Store
      reads this
    {
      Store(global, session, request, overlays, active, version, skipped, readTotal, writeTotal, rollbackTotal,
            conflictTotal)
    }

    ghost predicate Valid()
      reads this
    {
      Wf(Model())
    }

    constructor ()
      ensures Valid() && Model() == FRESH
    {
      global, session, request, overlays := map[], map[], map[], map[];
      active, version, skipped := None, 0, {};
      readTotal, writeTotal, rollbackTotal, conflictTotal := 0, 0, 0, 0;
    }

    method LookupEntry(key: ContextKey) returns (r: Result<Option<SlotEntry>, ContextError>)
      requires Valid()
      ensures r == Lookup(Model(), key)
    {
      if active.Some? {
        var overlay := overlays[active.value];
        if key in overlay {
          return Ok(overlay[key]);
        }
      }
      if key in request {
        return Ok(Some(request[key]));
      }
      if key in session {
        return Ok(Some(session[key]));
      }
      if key in global {
        return Ok(Some(global[key]));
      }
      r := SchemaCheck(key);
    }

    /** The scan over the keys of request, session and global, each in key order. */
    method SchemaCheck(key: ContextKey) returns (r: Result<Option<SlotEntry>, ContextError>)
      ensures r == Miss(Model(), key)
    {
      var layers := [request, session, global];
      for i := 0 to 3
        invariant forall j :: 0 <= j < i ==> ConflictsIn(layers[j], key) == {}
      {
        var versions := ConflictsIn(layers[i], key);
        if versions != {} {
          assert layers[0] == request && layers[1] == session && layers[2] == global;
          assert i >= 1 ==> ConflictsIn(layers[0], key) == {};
          assert i >= 2 ==> ConflictsIn(layers[1], key) == {};
          return Err(VersionIncompatible(key, Least(versions)));
        }
      }
      assert layers[0] == request && layers[1] == session && layers[2] == global;
      return Ok(None);
    }

    method Contains(key: ContextKey) returns (found: bool)
      requires Valid()
      modifies this`readTotal
      ensures Valid() && Model() == old(Model()).(readTotal := old(readTotal) + 1)
      ensures found <==> key in View(Model())
    {
      readTotal := readTotal + 1;
      var r := LookupEntry(key);
      LookupIsView(Model(), key);
      found := r.Ok? && r.value.Some?;
    }

    /** Lists exactly the keys of the namespace that `Contains` would find, in key order. */
    method ListByNs(namespace: string) returns (list: seq<ContextKey>)
      requires Valid()
      modifies this`readTotal
      ensures Valid() && Model() == old(Model()).(readTotal := old(readTotal) + 1)
      ensures Lists(list, InNamespace(View(Model()).Keys, namespace))
    {
      readTotal := readTotal + 1;
      var overlay: Delta := if active.Some? then overlays[active.value] else map[];
      var found := InNamespace(request.Keys, namespace);
      found := found + InNamespace(session.Keys, namespace);
      found := found + InNamespace(global.Keys, namespace);
      assert found == InNamespace(Base(Model()).Keys, namespace);
      found := ApplyDelta(found, overlay, namespace);
      assert found == InNamespace(View(Model()).Keys, namespace);
      list := InOrder(found);
    }

    /** The ordered set read out. */
    method InOrder(keys: set<ContextKey>) returns (list: seq<ContextKey>)
      ensures Lists(list, keys)
    {
      CmpKeyLawful();
      hide CmpKey, Lawful;
      list := [];
      var rest := keys;
      while rest != {}
        invariant rest <= keys && Lists(list, keys - rest)
        invariant forall a, b :: a in list && b in rest ==> CmpKey(a, b) == Less
      {
        ghost var least := LeastOf(rest, CmpKey);
        var key :| key in rest && forall q :: q in rest ==> CmpKey(key, q) != Greater;
        list := list + [key];
        rest := rest - {key};
      }
      assert keys - rest == keys;
    }

    method ApplyDelta(keys: set<ContextKey>, overlay: Delta, namespace: string) returns (found: set<ContextKey>)
      ensures forall k :: k in found <==>
        if k in overlay && k.namespace == namespace then overlay[k].Some? else k in keys
    {
      found := keys;
      var todo := overlay.Keys;
      while todo != {}
        invariant todo <= overlay.Keys
        invariant forall k :: k in found <==>
          if k in overlay && k !in todo && k.namespace == namespace then overlay[k].Some? else k in keys
      {
        var key :| key in todo;
        if key.namespace == namespace {
          found := if overlay[key].Some? then found + {key} else found - {key};
        }
        todo := todo - {key};
      }
    }

    method Put(key: ContextKey, entry: SlotEntry)
      requires Valid()
      modifies this
      ensures Valid() && Model() == Step(old(Model()), Op.Put(key, entry)).0
    {
      writeTotal := writeTotal + 1;
      if active.Some? {
        overlays := overlays[active.value := overlays[active.value][key := Some(entry)]];
      } else {
        request := request[key := entry];
      }
    }

    method Remove(key: ContextKey)
      requires Valid()
      modifies this
      ensures Valid() && Model() == Step(old(Model()), Op.Remove(key)).0
    {
      writeTotal := writeTotal + 1;
      if active.Some? {
        overlays := overlays[active.value := overlays[active.value][key := None]];
      } else {
        request := request - {key};
        session := session - {key};
        global := global - {key};
      }
    }

    method MarkSkipped(node: string)
      modifies this`skipped
      ensures Model() == old(Model()).(skipped := old(skipped) + {node})
    {
      skipped := skipped + {node};
    }

    method BeginSubgraph(id: string) returns (r: Reply)
      requires Valid()
      modifies this
      ensures Valid() && (Model(), r) == Step(old(Model()), Begin(id))
    {
      if active.Some? {
        return Failed(SubgraphAlreadyActive(active.value));
      }
      overlays := overlays[id := map[]];
      active := Some(id);
      r := Done;
    }

    method CommitOverlay(id: string) returns (r: Reply)
      requires Valid()
      modifies this
      ensures Valid() && (Model(), r) == Step(old(Model()), Op.CommitOverlay(id))
    {
      if active != Some(id) {
        return Failed(SubgraphNotFound(id));
      }
      var overlay := overlays[id];
      overlays := overlays - {id};
      active := None;
      var tombstones := FlushRequest(overlay);
      SweepTombstones(tombstones);
      r := Done;
    }

    method FlushRequest(overlay: Delta) returns (tombstones: set<ContextKey>)
      modifies this`request
      ensures request == Merge(old(request), overlay) && tombstones == Tombstones(overlay)
    {
      tombstones := {};
      var todo := overlay.Keys;
      ghost var applied: Delta := map[];
      MergeEmpty(request);
      while todo != {}
        invariant todo <= overlay.Keys && applied.Keys == overlay.Keys - todo
        invariant forall k :: k in applied ==> applied[k] == overlay[k]
        invariant tombstones == Tombstones(applied)
        invariant request == Merge(old(request), applied)
      {
        var key :| key in todo;
        MergeWrite(old(request), applied, key, overlay[key]);
        match overlay[key] {
          case Some(entry) => request := request[key := entry];
          case None => request := request - {key}; tombstones := tombstones + {key};
        }
        applied := applied[key := overlay[key]];
        todo := todo - {key};
      }
      assert applied == overlay;
    }

    method SweepTombstones(tombstones: set<ContextKey>)
      modifies this`session, this`global
      ensures session == old(session) - tombstones && global == old(global) - tombstones
    {
      var todo := tombstones;
      while todo != {}
        invariant todo <= tombstones
        invariant session == old(session) - (tombstones - todo)
        invariant global == old(global) - (tombstones - todo)
      {
        var key :| key in todo;
        session := session - {key};
        global := global - {key};
        todo := todo - {key};
      }
    }

    method RollbackOverlay(id: string) returns (r: Reply)
      requires Valid()
      modifies this
      ensures Valid() && (Model(), r) == Step(old(Model()), Op.RollbackOverlay(id))
    {
      if active != Some(id) {
        return Failed(SubgraphNotFound(id));
      }
      overlays := overlays - {id};
      active := None;
      rollbackTotal := rollbackTotal + 1;
      r := Done;
    }

    method CommitSession(expected: nat) returns (r: Reply)
      requires Valid()
      modifies this
      ensures Valid() && (Model(), r) == Step(old(Model()), Op.CommitSession(expected))
    {
      if version != expected {
        conflictTotal := conflictTotal + 1;
        return Failed(CommitConflict(expected, version));
      }
      version := version + 1;
      var todo := request.Keys;
      while todo != {}
        invariant todo <= request.Keys && request == old(request)
        invariant Model() == old(Model()).(version := old(version) + 1, session := session)
        invariant forall k :: k in session <==> k in old(session) || k in request.Keys - todo
        invariant forall k :: k in session ==>
                    session[k] == if k in request.Keys - todo then request[k] else old(session)[k]
      {
        var key :| key in todo;
        session := session[key := request[key]];
        todo := todo - {key};
      }
      assert session == old(session) + request;
      request := map[];
      r := Done;
    }
  }
}
