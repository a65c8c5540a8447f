/** `execute_net`: validation, the main loop, and the output. */
module ExecuteNet {
  import opened Prelude
  import opened Net
  import opened ContextModel
  import opened Router
  import opened EngineModel
  import opened EngineQueue
  import opened EngineRuns
  import opened EngineTokens
  import opened EngineSafety
  import opened EngineTheorems
  import opened EngineLedger
  import opened EngineCounters
  import opened Engine
  import Scheduling = EngineScheduling

  datatype ExecNet = ExecNet(places: seq<Id>, transitions: seq<ExecSpec>, arcs: seq<Arc>)

  datatype Output = Output(
    execId: string, order: seq<Id>, outcomes: map<Id, Outcome>, keyedOutcomes: map<Id, map<Key, Outcome>>,
    retryTotal: nat, cancelTotal: nat, lateTotal: nat, zombieTotal: nat, router: RouterMetrics)

  datatype Cause = BadNet(e: BuildError) | BadPair(t: Id, arcs: nat) | RunFailed(error: EngineError)

  /** Every failure is reported in one envelope. */
  datatype ExecutionFailed = ExecutionFailed(execId: string, cause: Cause)

  function Specs(ts: seq<ExecSpec>): (r: seq<TransitionSpec>)
    ensures |r| == |ts| && forall i :: 0 <= i < |ts| ==> r[i] == ts[i].transition
  {
    seq(|ts|, i requires 0 <= i < |ts| => ts[i].transition)
  }

  function Petri(net: ExecNet): PetriNetSpec {
    PetriNetSpec(net.places, Specs(net.transitions), net.arcs)
  }

  function SpecMap(ts: seq<ExecSpec>): map<Id, ExecSpec> {
    if ts == [] then map[] else SpecMap(ts[..|ts| - 1])[ts[|ts| - 1].transition.id := ts[|ts| - 1]]
  }

  function CpnOf(execId: string, net: ExecNet, g: Graph): Cpn {
    Cpn(execId, Sort(TransitionIds(Specs(net.transitions)), CmpString), SpecMap(net.transitions), g)
  }

  ghost predicate PairsHaveTwo(n: Cpn) {
    forall t :: t in n.specs && n.specs[t].transition.join.KeyedPair? ==> |In(n, t)| == 2
  }

  lemma {:induction false} SpecMapKeys(ts: seq<ExecSpec>)
    requires Distinct(TransitionIds(Specs(ts)))
    ensures forall t :: t in SpecMap(ts) <==> t in TransitionIds(Specs(ts))
    ensures forall i :: 0 <= i < |ts| ==>
              ts[i].transition.id in SpecMap(ts) && SpecMap(ts)[ts[i].transition.id] == ts[i]
    ensures forall t :: t in SpecMap(ts) ==> SpecMap(ts)[t].transition.id == t
  {
    if ts != [] {
      var last := |ts| - 1;
      var ids := TransitionIds(Specs(ts));
      assert ids == TransitionIds(Specs(ts[..last])) + [ts[last].transition.id];
      assert forall i :: 0 <= i < last ==> TransitionIds(Specs(ts[..last]))[i] == ids[i];
      SpecMapKeys(ts[..last]);
      forall i | 0 <= i < last ensures ts[i].transition.id != ts[last].transition.id {
        assert ids[i] != ids[last];
      }
    }
  }

  ghost predicate Before(arcs: seq<Arc>, a: Arc, b: Arc) {
    exists x, y :: 0 <= x < y < |arcs| && arcs[x] == a && arcs[y] == b
  }

  /** Each transition is there under its id with its own spec, and the ids are in order. */
  ghost predicate MirrorsSpecs(net: ExecNet, n: Cpn) {
    && |n.ids| == |net.transitions|
    && (forall i, j :: 0 <= i < j < |n.ids| ==> CmpString(n.ids[i], n.ids[j]) == Less)
    && (forall t :: t in n.ids <==> t in n.specs)
    && (forall t :: t in n.specs <==> exists i :: 0 <= i < |net.transitions| && net.transitions[i].transition.id == t)
    && (forall i :: 0 <= i < |net.transitions| ==>
          net.transitions[i].transition.id in n.specs
          && n.specs[net.transitions[i].transition.id] == net.transitions[i])
  }

  /** The arcs are each at their transition once, in the order of declaration. */
  ghost predicate MirrorsArcs(net: ExecNet, n: Cpn) {
    && (forall t, a :: a in In(n, t) <==> a in net.arcs && a.transition == t && a.direction == PlaceToTransition)
    && (forall t, a :: a in Out(n, t) <==> a in net.arcs && a.transition == t && a.direction == TransitionToPlace)
    && (forall t, i, j :: 0 <= i < j < |In(n, t)| ==> Before(net.arcs, In(n, t)[i], In(n, t)[j]))
    && (forall t, i, j :: 0 <= i < j < |Out(n, t)| ==> Before(net.arcs, Out(n, t)[i], Out(n, t)[j]))
  }

  /** The engine's net is the given one. */
  ghost predicate Mirrors(execId: string, net: ExecNet, n: Cpn) {
    && n.execId == execId && n.graph.places == (set p | p in net.places)
    && MirrorsSpecs(net, n) && MirrorsArcs(net, n)
  }

  lemma {:induction false} ArcsInOrder(arcs: seq<Arc>, t: Id, d: ArcDirection)
    ensures forall i, j :: 0 <= i < j < |ArcsOf(arcs, t, d)| ==>
              Before(arcs, ArcsOf(arcs, t, d)[i], ArcsOf(arcs, t, d)[j])
  {
    if arcs != [] {
      var last := |arcs| - 1;
      var front, some := arcs[..last], ArcsOf(arcs[..last], t, d);
      ArcsInOrder(front, t, d);
      forall i, j | 0 <= i < j < |ArcsOf(arcs, t, d)|
        ensures Before(arcs, ArcsOf(arcs, t, d)[i], ArcsOf(arcs, t, d)[j])
      {
        if j < |some| {
          assert Before(front, some[i], some[j]);
          var x, y :| 0 <= x < y < |front| && front[x] == some[i] && front[y] == some[j];
          assert arcs[x] == some[i] && arcs[y] == some[j];
        } else {
          ArcsOfMember(front, t, d, some[i]);
          var x :| 0 <= x < |front| && front[x] == some[i];
          assert arcs[x] == some[i] && arcs[last] == ArcsOf(arcs, t, d)[j];
        }
      }
    }
  }

  lemma SortedIds(ids: seq<Id>)
    requires Distinct(ids)
    ensures var sorted := Sort(ids, CmpString);
            && Distinct(sorted) && (forall t :: t in sorted <==> t in ids)
            && forall i, j :: 0 <= i < j < |sorted| ==> CmpString(sorted[i], sorted[j]) == Less
  {
    var sorted := Sort(ids, CmpString);
    SameMembers(sorted, ids);
    Scheduling.DistinctPermutes(ids, sorted);
    CmpStringLawful();
    SortSorted(ids, CmpString);
    forall i, j | 0 <= i < j < |sorted| ensures CmpString(sorted[i], sorted[j]) == Less {
      CmpStringEqual(sorted[i], sorted[j]);
      assert sorted[i] != sorted[j];
    }
  }

  lemma ArcsValidated(n: Cpn, spec: PetriNetSpec)
    requires Valid(spec) && Indexes(spec, n.graph) && forall t :: t in TransitionIds(spec.transitions) ==> t in n.specs
    ensures forall t, a {:trigger a in In(n, t)} :: a in In(n, t) ==>
              t in n.specs && a.place in n.graph.places && a.place in n.graph.consumer && n.graph.consumer[a.place] == t
    ensures forall t, a {:trigger a in Out(n, t)} :: a in Out(n, t) ==> t in n.specs && a.place in n.graph.places
    ensures forall p :: p in n.graph.consumer ==> exists a :: a in In(n, n.graph.consumer[p]) && a.place == p
  {
    hide Valid, Indexes;
    forall t, a {:trigger a in In(n, t)} | a in In(n, t)
      ensures t in n.specs && a.place in n.graph.places && a.place in n.graph.consumer && n.graph.consumer[a.place] == t
    {
      InputArc(spec, n.graph, t, a);
    }
    forall t, a {:trigger a in Out(n, t)} | a in Out(n, t) ensures t in n.specs && a.place in n.graph.places {
      OutputArc(spec, n.graph, t, a);
    }
    forall p | p in n.graph.consumer ensures exists a :: a in In(n, n.graph.consumer[p]) && a.place == p {
      ConsumerArc(spec, n.graph, p);
    }
  }

  /** A net the builder accepts has everything the engine relies on, and is the one that was given. */
  lemma ValidatedNet(execId: string, net: ExecNet, g: Graph)
    requires Valid(Petri(net)) && Indexes(Petri(net), g)
    ensures WfNet(CpnOf(execId, net, g)) && Mirrors(execId, net, CpnOf(execId, net, g))
  {
    hide Sort, Valid, Indexes, Before, Mirrors;
    var n := CpnOf(execId, net, g);
    ValidParts(Petri(net), g);
    SpecMapKeys(net.transitions);
    SortedIds(TransitionIds(Specs(net.transitions)));
    ArcsValidated(n, Petri(net));
    Mirrored(execId, net, g);
  }

  lemma Mirrored(execId: string, net: ExecNet, g: Graph)
    requires Valid(Petri(net)) && Indexes(Petri(net), g)
    ensures Mirrors(execId, net, CpnOf(execId, net, g))
  {
    ValidParts(Petri(net), g);
    IndexedArcs(Petri(net), g);
    MirroredSpecs(execId, net, g);
    MirroredArcs(execId, net, g);
    hide Valid, Indexes, Sort, SpecMap, MirrorsSpecs, MirrorsArcs;
  }

  lemma MirroredSpecs(execId: string, net: ExecNet, g: Graph)
    requires Distinct(TransitionIds(Specs(net.transitions)))
    ensures MirrorsSpecs(net, CpnOf(execId, net, g))
  {
    hide Sort, SpecMap;
    var n := CpnOf(execId, net, g);
    SpecMapKeys(net.transitions);
    var ids := TransitionIds(Specs(net.transitions));
    SortedIds(ids);
    forall t ensures t in n.specs <==> exists i :: 0 <= i < |net.transitions| && net.transitions[i].transition.id == t {
      if t in n.specs {
        var i :| 0 <= i < |ids| && ids[i] == t;
        assert net.transitions[i].transition.id == t;
      }
    }
  }

  lemma MirroredArcs(execId: string, net: ExecNet, g: Graph)
    requires forall t :: GetOr(g.inputs, t, []) == ArcsOf(net.arcs, t, PlaceToTransition)
    requires forall t :: GetOr(g.outputs, t, []) == ArcsOf(net.arcs, t, TransitionToPlace)
    ensures MirrorsArcs(net, CpnOf(execId, net, g))
  {
    hide Before, Sort, SpecMap, ArcsOf;
    var n := CpnOf(execId, net, g);
    forall t, a
      ensures a in In(n, t) <==> a in net.arcs && a.transition == t && a.direction == PlaceToTransition
      ensures a in Out(n, t) <==> a in net.arcs && a.transition == t && a.direction == TransitionToPlace
    {
      ArcsOfMember(net.arcs, t, PlaceToTransition, a);
      ArcsOfMember(net.arcs, t, TransitionToPlace, a);
    }
    forall t, i, j | 0 <= i < j < |In(n, t)| ensures Before(net.arcs, In(n, t)[i], In(n, t)[j]) {
      ArcsInOrder(net.arcs, t, PlaceToTransition);
    }
    forall t, i, j | 0 <= i < j < |Out(n, t)| ensures Before(net.arcs, Out(n, t)[i], Out(n, t)[j]) {
      ArcsInOrder(net.arcs, t, TransitionToPlace);
    }
  }

  lemma IndexedArcs(spec: PetriNetSpec, g: Graph)
    requires Indexes(spec, g)
    ensures g.places == (set p | p in spec.places)
    ensures forall t :: GetOr(g.inputs, t, []) == ArcsOf(spec.arcs, t, PlaceToTransition)
    ensures forall t :: GetOr(g.outputs, t, []) == ArcsOf(spec.arcs, t, TransitionToPlace)
  {}

  lemma ValidParts(spec: PetriNetSpec, g: Graph)
    requires Valid(spec) && Indexes(spec, g)
    ensures Distinct(TransitionIds(spec.transitions))
  {
  }

  lemma OutputArc(spec: PetriNetSpec, g: Graph, t: Id, a: Arc)
    requires Valid(spec) && Indexes(spec, g) && a in GetOr(g.outputs, t, [])
    ensures t in TransitionIds(spec.transitions) && a.place in g.places
  {
    ArcsOfMember(spec.arcs, t, TransitionToPlace, a);
    assert spec.arcs[..|spec.arcs|] == spec.arcs;
  }

  lemma InputArc(spec: PetriNetSpec, g: Graph, t: Id, a: Arc)
    requires Valid(spec) && Indexes(spec, g) && a in GetOr(g.inputs, t, [])
    ensures t in TransitionIds(spec.transitions) && a.place in g.places
    ensures a.place in g.consumer && g.consumer[a.place] == t
  {
    ArcsOfMember(spec.arcs, t, PlaceToTransition, a);
    assert spec.arcs[..|spec.arcs|] == spec.arcs;
    assert t in Neighbours(spec.arcs, a.place, PlaceToTransition);
  }

  lemma ConsumerArc(spec: PetriNetSpec, g: Graph, p: Id)
    requires Indexes(spec, g) && p in g.consumer
    ensures exists a :: a in GetOr(g.inputs, g.consumer[p], []) && a.place == p
  {
    assert g.consumer[p] in Neighbours(spec.arcs, p, PlaceToTransition);
    var a :| a in spec.arcs && a.place == p && a.direction == PlaceToTransition && a.transition == g.consumer[p];
    ArcsOfMember(spec.arcs, g.consumer[p], PlaceToTransition, a);
  }

  /** The entry check on KeyedPair joins. */
  method CheckPairs(n: Cpn) returns (bad: Option<(Id, nat)>)
    requires forall t :: t in n.ids <==> t in n.specs
    ensures bad.None? <==> PairsHaveTwo(n)
    ensures bad.Some? ==> bad.value.0 in n.specs && n.specs[bad.value.0].transition.join.KeyedPair?
                          && bad.value.1 == |In(n, bad.value.0)| != 2
    ensures bad.Some? ==> exists i :: 0 <= i < |n.ids| && n.ids[i] == bad.value.0 && forall j :: 0 <= j < i ==>
                            !(n.specs[n.ids[j]].transition.join.KeyedPair? && |In(n, n.ids[j])| != 2)
  {
    for i := 0 to |n.ids|
      invariant forall j :: 0 <= j < i && n.specs[n.ids[j]].transition.join.KeyedPair? ==> |In(n, n.ids[j])| == 2
    {
      var t := n.ids[i];
      if n.specs[t].transition.join.KeyedPair? && |In(n, t)| != 2 {
        return Some((t, |In(n, t)|));
      }
    }
    return None;
  }

  // -------------------------------------------------------------------- the output

  ghost predicate Completed(fired: seq<Firing>, t: Id) {
    exists j :: 0 <= j < |fired| && fired[j].transition == t
  }

  /** The firing with index `j` is its transition's last. */
  ghost predicate IsLast(fired: seq<Firing>, j: nat) {
    j < |fired| && forall i :: j < i < |fired| ==> fired[i].transition != fired[j].transition
  }

  /** The outcome map: the latest completion of each transition, and what a Terminal cancelled. */
  ghost predicate TellsOutcomes(n: Cpn, fired: seq<Firing>, stopped: bool, outcomes: map<Id, Outcome>) {
    && (forall t :: t in outcomes <==> Completed(fired, t) || (stopped && t in n.specs))
    && (forall j: nat :: IsLast(fired, j) ==> outcomes[fired[j].transition] == fired[j].result.outcome)
    && (forall t :: t in outcomes && !Completed(fired, t) ==> outcomes[t] == Cancelled)
  }

  /** The outcomes by key: exactly the completions. */
  ghost predicate TellsKeyed(fired: seq<Firing>, keyed: map<Id, map<Key, Outcome>>) {
    && (forall t, k :: t in keyed && k in keyed[t] <==> HasFired(fired, (t, k)))
    && (forall j :: 0 <= j < |fired| ==>
          fired[j].transition in keyed && fired[j].key in keyed[fired[j].transition]
          && keyed[fired[j].transition][fired[j].key] == fired[j].result.outcome)
  }

  /** Every attempt is in the order once; only what a Terminal cut off is in it without a result. */
  ghost predicate TellsOrder(cfg: Config, m: Machine, order: seq<Id>) {
    exists open :: && multiset(order) == multiset(Names(m.st.fired)) + RetryNames(m.st.retried) + open
                   && (!m.stopped || cfg.maxConcurrency <= 1 ==> open == multiset{})
  }

  /** Every counter has its own account. */
  ghost predicate TellsCounters(n: Cpn, s: State, o: Output) {
    && o.retryTotal == |RetryNames(s.retried)|
    && o.cancelTotal == |set j | 0 <= j < |s.fired| && s.fired[j].result.outcome == Cancelled|
    && o.lateTotal == o.zombieTotal == |s.late|
    && OutputArcs(n, s.fired)
       == |Resident(s.placeTokens)| + |Cached(s.cache)| + |Consumed(s.fired)| + o.lateTotal
  }

  ghost predicate TellsRouter(n: Cpn, cfg: Config, m: Machine, metrics: RouterMetrics) {
    exists open :: && Counts(metrics, FinalOutcomes(n, m.st.fired) + RetryOutcomes(n, m.st.retried) + open)
                   && (!m.stopped || cfg.maxConcurrency <= 1 ==> open == multiset{})
  }

  /** The output tells what the run did. */
  ghost predicate Tells(n: Cpn, cfg: Config, m: Machine, o: Output) {
    && TellsOutcomes(n, m.st.fired, m.stopped, o.outcomes)
    && TellsKeyed(m.st.fired, o.keyedOutcomes)
    && TellsOrder(cfg, m, o.order)
    && TellsCounters(n, m.st, o)
    && TellsRouter(n, cfg, m, o.router)
    && StopsAtTerminal(n, m.st.fired, m.stopped)
  }

  lemma CompletedMore(fired: seq<Firing>, f: Firing)
    ensures forall t :: Completed(fired + [f], t) <==> Completed(fired, t) || t == f.transition
  {
    var more := fired + [f];
    forall t ensures Completed(more, t) <==> Completed(fired, t) || t == f.transition {
      if Completed(fired, t) {
        var j :| 0 <= j < |fired| && fired[j].transition == t;
        assert more[j].transition == t;
      }
      assert more[|fired|] == f;
    }
  }

  lemma {:induction false} LatestIsLast(fired: seq<Firing>)
    ensures forall t :: t in Latest(fired) <==> Completed(fired, t)
    ensures forall j: nat :: IsLast(fired, j) ==>
              fired[j].transition in Latest(fired) && Latest(fired)[fired[j].transition] == fired[j].result.outcome
  {
    if fired != [] {
      var last := |fired| - 1;
      var front := fired[..last];
      assert fired == front + [fired[last]];
      LatestIsLast(front);
      CompletedMore(front, fired[last]);
      hide Completed;
      forall j: nat | IsLast(fired, j)
        ensures fired[j].transition in Latest(fired) && Latest(fired)[fired[j].transition] == fired[j].result.outcome
      {
        if j < last {
          assert fired[last].transition != fired[j].transition;
          assert IsLast(front, j);
        }
      }
    }
  }

  lemma {:induction false} CancelsCount(fired: seq<Firing>)
    ensures Cancels(fired) == |set j | 0 <= j < |fired| && fired[j].result.outcome == Cancelled|
  {
    if fired != [] {
      var last := |fired| - 1;
      var front := fired[..last];
      CancelsCount(front);
      var before := set j | 0 <= j < |front| && front[j].result.outcome == Cancelled;
      var now := set j | 0 <= j < |fired| && fired[j].result.outcome == Cancelled;
      assert now == if fired[last].result.outcome == Cancelled then before + {last} else before;
    }
  }

  lemma BooksTell(n: Cpn, skipped: set<string>, m: Machine, open: multiset<Id>)
    requires Ledger(n, skipped, m, open)
    ensures TellsOutcomes(n, m.st.fired, m.stopped, m.st.outcomes)
    ensures m.st.retryTotal == |RetryNames(m.st.retried)|
    ensures m.st.cancelTotal == |set j | 0 <= j < |m.st.fired| && m.st.fired[j].result.outcome == Cancelled|
    ensures multiset(m.st.order) == multiset(Names(m.st.fired)) + RetryNames(m.st.retried) + open
    ensures StopsAtTerminal(n, m.st.fired, m.stopped)
  {
    LatestIsLast(m.st.fired);
    CancelsCount(m.st.fired);
    hide Latest, Completed, Cancels, RetryNames, Marked, StopsAtTerminal;
    assert forall j: nat :: IsLast(m.st.fired, j) ==> m.st.fired[j].transition in m.st.outcomes;
  }

  lemma KeyedTell(n: Cpn, s: State)
    requires Safe(n, s, {})
    ensures TellsKeyed(s.fired, s.keyedOutcomes) && |s.late| == s.lateTotal == s.zombieTotal
  {
    hide TokenInv, CacheInv, FiredInv, TriesInv, LateInv, BagInv, ReadyInv;
  }

  /** What the run reports is what it did. */
  lemma OutputTells(n: Cpn, cfg: Config, runner: Runner, ctx: Store, i: nat, o: Output)
    requires WfNet(n) && Wf(ctx) && Run(n, cfg, runner, ctx, i).Ok?
    requires var m := Run(n, cfg, runner, ctx, i).value;
             && o.order == m.st.order && o.outcomes == m.st.outcomes && o.keyedOutcomes == m.st.keyedOutcomes
             && o.retryTotal == m.st.retryTotal && o.cancelTotal == m.st.cancelTotal
             && o.lateTotal == m.st.lateTotal && o.zombieTotal == m.st.zombieTotal && o.router == m.router
    ensures Tells(n, cfg, Run(n, cfg, runner, ctx, i).value, o)
  {
    hide WfNet, Run, Ledger, Safe, Settled, Counts, TellsOutcomes, TellsKeyed, StopsAtTerminal, RetryNames,
         FinalOutcomes, RetryOutcomes, OutputArcs, Consumed, Resident, Cached;
    var m := Run(n, cfg, runner, ctx, i).value;
    RunBooks(n, cfg, runner, ctx, i);
    var open :| Ledger(n, ctx.skipped, m, open) && (!m.stopped || cfg.maxConcurrency <= 1 ==> open == multiset{});
    BooksTell(n, ctx.skipped, m, open);
    ReachedSafe(n, cfg, runner, ctx, i);
    KeyedTell(n, m.st);
    Conservation(n, cfg, runner, ctx, i);
    RouterCounters(n, cfg, runner, ctx, i);
    var more :| Counted(n, m, more) && (!m.stopped || cfg.maxConcurrency <= 1 ==> more == multiset{});
    assert TellsRouter(n, cfg, m, o.router);
    assert TellsOrder(cfg, m, o.order);
  }

  lemma RunOn(n: Cpn, cfg: Config, runner: Runner, ctx: Store, i: nat, m: Machine)
    requires WfNet(n) && Wf(ctx) && Run(n, cfg, runner, ctx, i) == Ok(m) && !Halted(m)
    ensures Inv(n, m) && Run(n, cfg, runner, ctx, i + 1) == Turn(n, cfg, runner, m)
    ensures Turn(n, cfg, runner, m).Ok? ==> |m.st.order| <= |Turn(n, cfg, runner, m).value.st.order| <= Bound(n)
    ensures Turn(n, cfg, runner, m).Ok? && (m.batch != [] || Turn(n, cfg, runner, m).value.batch == [])
            ==> |m.st.order| < |Turn(n, cfg, runner, m).value.st.order|
  {
    hide Inv, Turn, Start, WfNet;
    RunSafe(n, cfg, runner, ctx, i);
    TurnSafe(n, cfg, runner, m);
  }

  /** The items of one serial batch, until it is empty or a Terminal fires. */
  method RunBatch(es: EngineState, context: RuntimeContext, cfg: Config, runner: Runner, batch: seq<ReadyItem>,
                  ghost ctx0: Store, ghost start: nat)
    returns (r: Result<bool, EngineError>, ghost turns: nat)
    requires context.Valid() && WfNet(es.net) && Wf(ctx0) && batch != []
    requires Run(es.net, cfg, runner, ctx0, start) == Ok(es.Whole(context, batch, false))
    modifies es, context
    ensures context.Valid()
    ensures match r
            case Ok(stopped) =>
              && Run(es.net, cfg, runner, ctx0, turns) == Ok(es.Whole(context, [], stopped))
              && old(|es.order|) < |es.order| <= Bound(es.net)
            case Err(e) => Run(es.net, cfg, runner, ctx0, turns) == Err(e)
  {
    hide WfNet, Run, ProcessItem, Bound, NextBatch, ParallelRound;
    var n := es.net;
    turns := start;
    var stopped := false;
    var i := 0;
    ghost var rest := batch;
    while i < |batch| && !stopped
      invariant context.Valid() && es.net == n && i <= |batch|
      invariant rest == if stopped then [] else batch[i..]
      invariant Run(n, cfg, runner, ctx0, turns) == Ok(es.Whole(context, rest, stopped))
      invariant if i == 0 then es.order == old(es.order) else old(|es.order|) < |es.order| <= Bound(n)
      invariant stopped ==> i > 0
      decreases |batch| - i, !stopped
    {
      ghost var m := es.Whole(context, rest, stopped);
      RunOn(n, cfg, runner, ctx0, turns, m);
      assert rest[0] == batch[i] && rest[1..] == batch[i + 1..];
      turns := turns + 1;
      rest := batch[i + 1..];
      stopped :- es.ProcessOneItem(batch[i], context, runner, rest);
      if stopped {
        rest := [];
      }
      assert Turn(n, cfg, runner, m) == Ok(es.Whole(context, rest, stopped));
      i := i + 1;
    }
    assert rest == [];
    return Ok(stopped), turns;
  }

  /**
   * `execute_net`: a rejected net or pair is reported as such; otherwise the given net is run to its
   * end, within the bound, and the output tells what that run did; without an open subgraph it
   * never fails.
   */
  method ExecuteNet(execId: string, net: ExecNet, cfg: Config, context: RuntimeContext, runner: Runner)
    returns (r: Result<Output, ExecutionFailed>, ghost n: Cpn, ghost turns: nat)
    requires context.Valid()
    modifies context
    ensures context.Valid()
    ensures r.Err? ==> r.error.execId == execId
    ensures (r.Err? && r.error.cause.BadNet?) <==> !Valid(Petri(net))
    ensures r.Err? && r.error.cause.BadNet? ==> Explains(Petri(net), r.error.cause.e)
    ensures Valid(Petri(net)) ==> Mirrors(execId, net, n) && WfNet(n)
    ensures Valid(Petri(net)) ==> ((r.Err? && r.error.cause.BadPair?) <==> !PairsHaveTwo(n))
    ensures Valid(Petri(net)) && PairsHaveTwo(n) ==>
              match r
              case Ok(output) =>
                && Run(n, cfg, runner, old(context.Model()), turns).Ok?
                && var m := Run(n, cfg, runner, old(context.Model()), turns).value;
                && Halted(m) && output.execId == execId && Tells(n, cfg, m, output) && context.Model() == m.ctx
                && |output.order| <= Bound(n)
              case Err(e) =>
                e.cause.RunFailed? && Run(n, cfg, runner, old(context.Model()), turns) == Err(e.cause.error)
    ensures Valid(Petri(net)) && PairsHaveTwo(n) && old(context.active).None? ==> r.Ok?
  {
    n, turns := Cpn(execId, [], map[], Graph({}, map[], map[], map[], map[], map[])), 0;
    var built := BuildPetriNet(Petri(net));
    if built.Err? {
      return Err(ExecutionFailed(execId, BadNet(built.error))), n, turns;
    }
    var cpn := CpnOf(execId, net, built.value);
    n := cpn;
    ValidatedNet(execId, net, built.value);
    var bad := CheckPairs(cpn);
    if bad.Some? {
      return Err(ExecutionFailed(execId, BadPair(bad.value.0, bad.value.1))), n, turns;
    }
    var result;
    result, turns := RunToEnd(execId, cpn, cfg, context, runner);
    match result {
      case Ok(output) => r := Ok(output);
      case Err(e) => r := Err(ExecutionFailed(execId, RunFailed(e)));
    }
  }

  /** The engine with its roots queued. */
  method Begun(n: Cpn, ghost cfg: Config, context: RuntimeContext, ghost runner: Runner) returns (es: EngineState)
    requires context.Valid() && WfNet(n)
    ensures fresh(es) && es.net == n && |es.order| <= Bound(n)
    ensures Run(n, cfg, runner, context.Model(), 0) == Ok(es.Whole(context, [], false))
  {
    hide WfNet, Bound, EnqueueRoots, Inv;
    es := new EngineState(n);
    var enqueued := es.EnqueueRoots();
    StartShape(n, context.Model());
    RunSafe(n, cfg, runner, context.Model(), 0);
    InvBound(n, es.Whole(context, [], false));
  }

  method RunToEnd(execId: string, n: Cpn, cfg: Config, context: RuntimeContext, runner: Runner)
    returns (r: Result<Output, EngineError>, ghost turns: nat)
    requires context.Valid() && WfNet(n)
    modifies context
    ensures context.Valid()
    ensures match r
            case Ok(output) =>
              && Run(n, cfg, runner, old(context.Model()), turns).Ok?
              && var m := Run(n, cfg, runner, old(context.Model()), turns).value;
              && Halted(m) && output.execId == execId && Tells(n, cfg, m, output) && context.Model() == m.ctx
              && |output.order| <= Bound(n)
            case Err(e) => Run(n, cfg, runner, old(context.Model()), turns) == Err(e)
    ensures old(context.active).None? ==> r.Ok?
  {
    hide WfNet, Run, ProcessItem, Bound, NextBatch, ParallelRound, Inv;
    ghost var ctx0 := context.Model();
    turns := 0;
    var es := Begun(n, cfg, context, runner);
    var stopped := false;
    while es.ready != [] && !stopped
      invariant context.Valid() && es.net == n && fresh(es) && |es.order| <= Bound(n)
      invariant Run(n, cfg, runner, ctx0, turns) == Ok(es.Whole(context, [], stopped))
      decreases Bound(n) - |es.order|, !stopped
    {
      RunOn(n, cfg, runner, ctx0, turns, es.Whole(context, [], stopped));
      var before := |es.order|;
      var step: Result<bool, EngineError>;
      if cfg.maxConcurrency <= 1 {
        NextBatchNonEmpty(cfg, es.ready);
        var batch := es.NextBatch(cfg);
        turns := turns + 1;
        step, turns := RunBatch(es, context, cfg, runner, batch, ctx0, turns);
      } else {
        turns := turns + 1;
        step := es.RunRound(cfg, context, runner);
      }
      if step.Err? {
        RunSafe(n, cfg, runner, ctx0, turns);
        return Err(step.error), turns;
      }
      stopped := step.value;
    }
    var output := Output(execId, es.order, es.outcomes, es.keyedOutcomes, es.retryTotal, es.cancelTotal,
                         es.lateTotal, es.zombieTotal, es.router);
    OutputTells(n, cfg, runner, ctx0, turns, output);
    return Ok(output), turns;
  }

  lemma NextBatchNonEmpty(cfg: Config, ready: seq<ReadyItem>)
    requires ready != []
    ensures NextBatch(cfg, ready).0 != []
  {
    Scheduling.NextBatchSplits(cfg, ready);
  }
}
