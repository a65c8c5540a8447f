/** Colored Petri net schema and its validation (`execution/net.rs`). */
module Net {
  import opened Prelude

  type Id = string
  type Key = string

  datatype JoinPolicy =
    | AllOf | AnyOf | Quorum(k: nat) | FirstSuccess | FirstCompleted | KeyedPair | KeyedGroup

  datatype TransitionSpec = TransitionSpec(id: Id, priority: int, join: JoinPolicy)

  datatype ArcDirection = PlaceToTransition | TransitionToPlace

  datatype Arc = Arc(
    arcId: Id, place: Id, transition: Id, direction: ArcDirection, arcLabel: Option<string>, required: bool)

  datatype PetriNetSpec = PetriNetSpec(places: seq<Id>, transitions: seq<TransitionSpec>, arcs: seq<Arc>)

  datatype Graph = Graph(
    places: set<Id>,
    transitions: map<Id, TransitionSpec>,
    inputs: map<Id, seq<Arc>>,
    outputs: map<Id, seq<Arc>>,
    consumer: map<Id, Id>,
    producers: map<Id, set<Id>>)

  datatype BuildError =
    | DuplicatePlaceId(place: Id)
    | DuplicateTransitionId(transition: Id)
    | DuplicateArcId(arcId: Id)
    | ArcPlaceNotFound(arcId: Id, place: Id)
    | ArcTransitionNotFound(arcId: Id, transition: Id)
    | PlaceMultipleConsumers(place: Id, consumers: set<Id>)

  function GetOr<K, V>(m: map<K, V>, k: K, default: V): V {
    if k in m then m[k] else default
  }

  /** The arcs of `t` in one direction, in declaration order. */
  function ArcsOf(arcs: seq<Arc>, t: Id, d: ArcDirection): seq<Arc> {
    if arcs == [] then []
    else
      var last := arcs[|arcs| - 1];
      ArcsOf(arcs[..|arcs| - 1], t, d) + if last.transition == t && last.direction == d then [last] else []
  }

  lemma {:induction false} ArcsOfMember(arcs: seq<Arc>, t: Id, d: ArcDirection, a: Arc)
    ensures a in ArcsOf(arcs, t, d) <==> a in arcs && a.transition == t && a.direction == d
  {
    if arcs != [] {
      ArcsOfMember(arcs[..|arcs| - 1], t, d, a);
      assert arcs == arcs[..|arcs| - 1] + [arcs[|arcs| - 1]];
    }
  }

  /** The transitions on the far end of a place's arcs in one direction. */
  ghost function Neighbours(arcs: seq<Arc>, p: Id, d: ArcDirection): set<Id> {
    set a | a in arcs && a.place == p && a.direction == d :: a.transition
  }

  // ------------------------------------------------------------ what is valid

  ghost predicate Distinct<T>(s: seq<T>) {
    forall i, j :: 0 <= i < j < |s| ==> s[i] != s[j]
  }

  function TransitionIds(ts: seq<TransitionSpec>): (r: seq<Id>)
    ensures |r| == |ts|
    ensures forall i :: 0 <= i < |ts| ==> r[i] == ts[i].id
  {
    seq(|ts|, i requires 0 <= i < |ts| => ts[i].id)
  }

  function ArcIds(arcs: seq<Arc>): (r: seq<Id>)
    ensures |r| == |arcs|
    ensures forall i :: 0 <= i < |arcs| ==> r[i] == arcs[i].arcId
  {
    seq(|arcs|, i requires 0 <= i < |arcs| => arcs[i].arcId)
  }

  ghost predicate CleanArcs(spec: PetriNetSpec, n: nat)
    requires n <= |spec.arcs|
  {
    && Distinct(ArcIds(spec.arcs[..n]))
    && (forall a :: a in spec.arcs[..n] ==> a.place in spec.places)
    && (forall a :: a in spec.arcs[..n] ==> a.transition in TransitionIds(spec.transitions))
  }

  ghost predicate SingleConsumer(spec: PetriNetSpec) {
    forall a, b :: (a in spec.arcs && b in spec.arcs && a.direction.PlaceToTransition?
                    && b.direction.PlaceToTransition? && a.place == b.place) ==> a.transition == b.transition
  }

  ghost predicate Valid(spec: PetriNetSpec) {
    && Distinct(spec.places)
    && Distinct(TransitionIds(spec.transitions))
    && CleanArcs(spec, |spec.arcs|)
    && SingleConsumer(spec)
  }

  /** `e` names the first defect in the order in which the builder looks. */
  ghost predicate Explains(spec: PetriNetSpec, e: BuildError) {
    match e
    case DuplicatePlaceId(p) =>
      exists i :: 0 <= i < |spec.places| && spec.places[i] == p && p in spec.places[..i] && Distinct(spec.places[..i])
    case DuplicateTransitionId(t) =>
      && Distinct(spec.places)
      && var ids := TransitionIds(spec.transitions);
      exists i :: 0 <= i < |ids| && ids[i] == t && t in ids[..i] && Distinct(ids[..i])
    case PlaceMultipleConsumers(p, cs) =>
      && Distinct(spec.places) && Distinct(TransitionIds(spec.transitions)) && CleanArcs(spec, |spec.arcs|)
      && Crowded(spec.arcs, p, cs)
    case _ =>
      && Distinct(spec.places) && Distinct(TransitionIds(spec.transitions))
      && exists i :: 0 <= i < |spec.arcs| && CleanArcs(spec, i) && ArcDefect(spec, i, e)
  }

  ghost predicate ArcDefect(spec: PetriNetSpec, i: nat, e: BuildError)
    requires i < |spec.arcs|
  {
    var a := spec.arcs[i];
    match e
    case DuplicateArcId(id) => id == a.arcId && id in ArcIds(spec.arcs[..i])
    case ArcPlaceNotFound(id, p) =>
      id == a.arcId && p == a.place && id !in ArcIds(spec.arcs[..i]) && p !in spec.places
    case ArcTransitionNotFound(id, t) =>
      && id == a.arcId && t == a.transition && id !in ArcIds(spec.arcs[..i]) && a.place in spec.places
      && t !in TransitionIds(spec.transitions)
    case _ => false
  }

  // --------------------------------------------------------------- the indexes

  /** `m` groups the `d`-arcs of `arcs` by transition. */
  ghost predicate Collects(arcs: seq<Arc>, m: map<Id, seq<Arc>>, d: ArcDirection) {
    && (forall t :: GetOr(m, t, []) == ArcsOf(arcs, t, d))
    && (forall t :: t in m ==> m[t] != [])
  }

  /** `m` groups the transitions of the `d`-arcs of `arcs` by place. */
  ghost predicate Connects(arcs: seq<Arc>, m: map<Id, set<Id>>, d: ArcDirection) {
    && (forall p :: GetOr(m, p, {}) == Neighbours(arcs, p, d))
    && (forall p :: p in m ==> m[p] != {})
  }

  /** The graph indexes exactly the spec; `consumer` is a function because the net is valid. */
  ghost predicate Indexes(spec: PetriNetSpec, g: Graph) {
    && g.places == (set p | p in spec.places)
    && (forall t :: t in g.transitions <==> t in TransitionIds(spec.transitions))
    && (forall t :: t in spec.transitions ==> t.id in g.transitions && g.transitions[t.id] == t)
    && (forall t :: GetOr(g.inputs, t, []) == ArcsOf(spec.arcs, t, PlaceToTransition))
    && (forall t :: GetOr(g.outputs, t, []) == ArcsOf(spec.arcs, t, TransitionToPlace))
    && (forall t :: t in g.inputs ==> g.inputs[t] != [])
    && (forall p :: (if p in g.consumer then {g.consumer[p]} else {}) == Neighbours(spec.arcs, p, PlaceToTransition))
    && (forall p :: GetOr(g.producers, p, {}) == Neighbours(spec.arcs, p, TransitionToPlace))
  }

  function Grown<K, V>(m: map<K, seq<V>>, k: K, v: V): map<K, seq<V>> {
    m[k := GetOr(m, k, []) + [v]]
  }

  function Joined<K, V>(m: map<K, set<V>>, k: K, v: V): map<K, set<V>> {
    m[k := GetOr(m, k, {}) + {v}]
  }

  lemma CollectsSnoc(arcs: seq<Arc>, a: Arc, m: map<Id, seq<Arc>>, d: ArcDirection)
    requires Collects(arcs, m, d)
    ensures Collects(arcs + [a], if a.direction == d then Grown(m, a.transition, a) else m, d)
  {
    assert (arcs + [a])[..|arcs|] == arcs;
    var m' := if a.direction == d then Grown(m, a.transition, a) else m;
    forall t ensures GetOr(m', t, []) == ArcsOf(arcs + [a], t, d) {
      assert GetOr(m, t, []) == ArcsOf(arcs, t, d);
    }
  }

  lemma ConnectsSnoc(arcs: seq<Arc>, a: Arc, m: map<Id, set<Id>>, d: ArcDirection)
    requires Connects(arcs, m, d)
    ensures Connects(arcs + [a], if a.direction == d then Joined(m, a.place, a.transition) else m, d)
  {
    var m' := if a.direction == d then Joined(m, a.place, a.transition) else m;
    forall p ensures GetOr(m', p, {}) == Neighbours(arcs + [a], p, d) {
      assert GetOr(m, p, {}) == Neighbours(arcs, p, d);
      assert forall b :: b in arcs + [a] <==> b in arcs || b == a;
    }
  }

  lemma ConsumersDecideValidity(spec: PetriNetSpec)
    ensures SingleConsumer(spec) <==> forall p :: |Neighbours(spec.arcs, p, PlaceToTransition)| <= 1
  {
    if SingleConsumer(spec) {
      forall p ensures |Neighbours(spec.arcs, p, PlaceToTransition)| <= 1 {
        var ns := Neighbours(spec.arcs, p, PlaceToTransition);
        if ns != {} {
          var t :| t in ns;
          assert ns == {t};
        }
      }
    } else {
      var a, b :| a in spec.arcs && b in spec.arcs && a.direction.PlaceToTransition?
                  && b.direction.PlaceToTransition? && a.place == b.place && a.transition != b.transition;
      var ns := Neighbours(spec.arcs, a.place, PlaceToTransition);
      assert {a.transition, b.transition} <= ns;
      assert |ns - {a.transition}| >= 1 by { assert b.transition in ns - {a.transition}; }
    }
  }

  // ---------------------------------------------------------------- the builder

  method IndexPlaces(ids: seq<Id>) returns (r: Result<set<Id>, BuildError>)
    ensures r.Ok? <==> Distinct(ids)
    ensures r.Ok? ==> r.value == set p | p in ids
    ensures r.Err? ==> exists i :: 0 <= i < |ids| && r.error == DuplicatePlaceId(ids[i])
                                   && ids[i] in ids[..i] && Distinct(ids[..i])
  {
    var places := {};
    for i := 0 to |ids|
      invariant places == set p | p in ids[..i]
      invariant Distinct(ids[..i])
    {
      if ids[i] in places {
        return Err(DuplicatePlaceId(ids[i]));
      }
      places := places + {ids[i]};
      assert ids[..i + 1] == ids[..i] + [ids[i]];
    }
    assert ids[..|ids|] == ids;
    return Ok(places);
  }

  method IndexTransitions(ts: seq<TransitionSpec>) returns (r: Result<map<Id, TransitionSpec>, BuildError>)
    ensures r.Ok? <==> Distinct(TransitionIds(ts))
    ensures r.Ok? ==> && (forall t :: t in r.value <==> t in TransitionIds(ts))
                      && (forall t :: t in ts ==> t.id in r.value && r.value[t.id] == t)
    ensures r.Err? ==> exists i :: 0 <= i < |ts| && r.error == DuplicateTransitionId(ts[i].id)
                                   && ts[i].id in TransitionIds(ts)[..i] && Distinct(TransitionIds(ts)[..i])
  {
    var m: map<Id, TransitionSpec> := map[];
    var ids := TransitionIds(ts);
    for i := 0 to |ts|
      invariant forall t :: t in m <==> t in ids[..i]
      invariant forall j :: 0 <= j < i ==> ts[j].id in m && m[ts[j].id] == ts[j]
      invariant Distinct(ids[..i])
    {
      if ts[i].id in m {
        return Err(DuplicateTransitionId(ts[i].id));
      }
      m := m[ts[i].id := ts[i]];
      assert ids[..i + 1] == ids[..i] + [ids[i]];
    }
    assert ids[..|ids|] == ids;
    return Ok(m);
  }

  datatype ArcMaps = ArcMaps(
    inputs: map<Id, seq<Arc>>, outputs: map<Id, seq<Arc>>,
    consumers: map<Id, set<Id>>, producers: map<Id, set<Id>>)

  ghost predicate Indexed(arcs: seq<Arc>, m: ArcMaps) {
    && Collects(arcs, m.inputs, PlaceToTransition)
    && Collects(arcs, m.outputs, TransitionToPlace)
    && Connects(arcs, m.consumers, PlaceToTransition)
    && Connects(arcs, m.producers, TransitionToPlace)
  }

  /** One round of the indexing loop. */
  method IndexArc(m: ArcMaps, arc: Arc, ghost arcs: seq<Arc>) returns (r: ArcMaps)
    requires Indexed(arcs, m)
    ensures Indexed(arcs + [arc], r)
  {
    CollectsSnoc(arcs, arc, m.inputs, PlaceToTransition);
    CollectsSnoc(arcs, arc, m.outputs, TransitionToPlace);
    ConnectsSnoc(arcs, arc, m.consumers, PlaceToTransition);
    ConnectsSnoc(arcs, arc, m.producers, TransitionToPlace);
    match arc.direction
    case PlaceToTransition =>
      r := m.(consumers := Joined(m.consumers, arc.place, arc.transition),
              inputs := Grown(m.inputs, arc.transition, arc));
    case TransitionToPlace =>
      r := m.(producers := Joined(m.producers, arc.place, arc.transition),
              outputs := Grown(m.outputs, arc.transition, arc));
  }

  method CheckArc(spec: PetriNetSpec, i: nat, arcIds: set<Id>, places: set<Id>, transitions: map<Id, TransitionSpec>)
    returns (defect: Option<BuildError>)
    requires places == set p | p in spec.places
    requires forall t :: t in transitions <==> t in TransitionIds(spec.transitions)
    requires i < |spec.arcs| && CleanArcs(spec, i) && arcIds == set id | id in ArcIds(spec.arcs[..i])
    ensures defect.Some? ==> ArcDefect(spec, i, defect.value) && !CleanArcs(spec, |spec.arcs|)
    ensures defect.None? ==> && CleanArcs(spec, i + 1)
                             && spec.arcs[..i + 1] == spec.arcs[..i] + [spec.arcs[i]]
                             && ArcIds(spec.arcs[..i + 1]) == ArcIds(spec.arcs[..i]) + [spec.arcs[i].arcId]
  {
    var arc := spec.arcs[i];
    if arc.arcId in arcIds {
      defect := Some(DuplicateArcId(arc.arcId));
    } else if arc.place !in places {
      defect := Some(ArcPlaceNotFound(arc.arcId, arc.place));
    } else if arc.transition !in transitions {
      defect := Some(ArcTransitionNotFound(arc.arcId, arc.transition));
    } else {
      CleanSnoc(spec, i);
      return None;
    }
    NotClean(spec, i, defect.value);
  }

  method IndexArcs(spec: PetriNetSpec, places: set<Id>, transitions: map<Id, TransitionSpec>)
    returns (r: Result<ArcMaps, BuildError>)
    requires places == set p | p in spec.places
    requires forall t :: t in transitions <==> t in TransitionIds(spec.transitions)
    ensures r.Ok? <==> CleanArcs(spec, |spec.arcs|)
    ensures r.Ok? ==> Indexed(spec.arcs, r.value)
    ensures r.Err? ==> exists i :: 0 <= i < |spec.arcs| && CleanArcs(spec, i) && ArcDefect(spec, i, r.error)
  {
    var arcIds := {};
    var maps := ArcMaps(map[], map[], map[], map[]);
    for i := 0 to |spec.arcs|
      invariant arcIds == set id | id in ArcIds(spec.arcs[..i])
      invariant CleanArcs(spec, i)
      invariant Indexed(spec.arcs[..i], maps)
    {
      var defect := CheckArc(spec, i, arcIds, places, transitions);
      if defect.Some? {
        return Err(defect.value);
      }
      maps := IndexArc(maps, spec.arcs[i], spec.arcs[..i]);
      arcIds := arcIds + {spec.arcs[i].arcId};
    }
    assert spec.arcs[..|spec.arcs|] == spec.arcs;
    return Ok(maps);
  }

  lemma NotClean(spec: PetriNetSpec, i: nat, e: BuildError)
    requires i < |spec.arcs| && ArcDefect(spec, i, e)
    ensures !CleanArcs(spec, |spec.arcs|)
  {
    var arcs, a := spec.arcs, spec.arcs[i];
    assert arcs[..|arcs|] == arcs && a in arcs;
    if a.arcId in ArcIds(arcs[..i]) {
      var j :| 0 <= j < i && arcs[..i][j].arcId == a.arcId;
      assert ArcIds(arcs)[j] == ArcIds(arcs)[i];
    }
  }

  lemma CleanSnoc(spec: PetriNetSpec, i: nat)
    requires i < |spec.arcs| && CleanArcs(spec, i)
    requires spec.arcs[i].arcId !in ArcIds(spec.arcs[..i])
    requires spec.arcs[i].place in spec.places
    requires spec.arcs[i].transition in TransitionIds(spec.transitions)
    ensures CleanArcs(spec, i + 1)
    ensures spec.arcs[..i + 1] == spec.arcs[..i] + [spec.arcs[i]]
    ensures ArcIds(spec.arcs[..i + 1]) == ArcIds(spec.arcs[..i]) + [spec.arcs[i].arcId]
  {
    assert spec.arcs[..i + 1] == spec.arcs[..i] + [spec.arcs[i]];
    assert ArcIds(spec.arcs[..i + 1]) == ArcIds(spec.arcs[..i]) + [spec.arcs[i].arcId];
  }

  /** The last loop: each consumed place has one consumer, or the least place with more is named. */
  method IndexConsumers(arcs: seq<Arc>, consumers: map<Id, set<Id>>) returns (r: Result<map<Id, Id>, BuildError>)
    requires Connects(arcs, consumers, PlaceToTransition)
    ensures r.Ok? <==> forall p :: |Neighbours(arcs, p, PlaceToTransition)| <= 1
    ensures r.Ok? ==> forall p :: (if p in r.value then {r.value[p]} else {}) == Neighbours(arcs, p, PlaceToTransition)
    ensures r.Err? ==> && r.error.PlaceMultipleConsumers? && Crowded(arcs, r.error.place, r.error.consumers)
  {
    hide CmpString, Neighbours, Lawful;
    CmpStringLawful();
    var consumer: map<Id, Id> := map[];
    var todo := consumers.Keys;
    while todo != {}
      invariant todo <= consumers.Keys
      invariant consumer.Keys == consumers.Keys - todo
      invariant forall p :: p in consumer ==> {consumer[p]} == consumers[p]
    {
      ghost var least := LeastOf(todo, CmpString);
      var p :| p in todo && forall q :: q in todo ==> CmpString(p, q) != Greater;
      var cs := consumers[p];
      assert cs == GetOr(consumers, p, {});
      if |cs| > 1 {
        forall q | |Neighbours(arcs, q, PlaceToTransition)| > 1 ensures CmpString(p, q) != Greater {
          assert GetOr(consumers, q, {}) == Neighbours(arcs, q, PlaceToTransition);
        }
        return Err(PlaceMultipleConsumers(p, cs));
      }
      var c :| c in cs;
      assert cs == {c} by { assert |cs - {c}| == 0; }
      consumer := consumer[p := c];
      todo := todo - {p};
    }
    forall p ensures |Neighbours(arcs, p, PlaceToTransition)| <= 1 {
      assert GetOr(consumers, p, {}) == Neighbours(arcs, p, PlaceToTransition);
    }
    return Ok(consumer);
  }

  /** The place, with its consumers, is the least that has several. */
  ghost predicate Crowded(arcs: seq<Arc>, p: Id, consumers: set<Id>) {
    && consumers == Neighbours(arcs, p, PlaceToTransition) && |consumers| > 1
    && forall q :: |Neighbours(arcs, q, PlaceToTransition)| > 1 ==> CmpString(p, q) != Greater
  }

  /**
   * `build_petri_net`: accepts exactly the valid nets and returns their indexes;
   * otherwise reports the first defect.
   */
  method BuildPetriNet(spec: PetriNetSpec) returns (r: Result<Graph, BuildError>)
    ensures r.Ok? <==> Valid(spec)
    ensures r.Ok? ==> Indexes(spec, r.value)
    ensures r.Err? ==> Explains(spec, r.error)
  {
    var places :- IndexPlaces(spec.places);
    var transitions :- IndexTransitions(spec.transitions);
    var maps :- IndexArcs(spec, places, transitions);
    ConsumersDecideValidity(spec);
    var consumer :- IndexConsumers(spec.arcs, maps.consumers);
    return Ok(Graph(places, transitions, maps.inputs, maps.outputs, consumer, maps.producers));
  }
}
