/**
 * The five mutexes of the context (`context/mod.rs`) and the order in which its methods take
 * them, one lock action a step and any number of threads: the system can get stuck exactly when a
 * session commit runs beside another commit or a lookup below the request layer.
 */
module Locks {
  datatype Lock = ActiveSubgraph | Overlays | Request | Session | Global {
    function Rank(): nat {
      match this
      case ActiveSubgraph => 0
      case Overlays => 1
      case Request => 2
      case Session => 3
      case Global => 4
    }
  }

  datatype Action = Acquire(lock: Lock) | Release(lock: Lock)

  /** A method call, with the data-dependent choices that select its path. */
  datatype Call =
    | Lookup(subgraph: bool, overlayHit: bool, hitIn: Lock)
    | ListByNs(subgraph: bool)
    | Put(subgraph: bool)
    | Remove(subgraph: bool)
    | BeginSubgraph(alreadyActive: bool)
    | CommitOverlay(unknown: bool, tombstones: bool)
    | RollbackOverlay(unknown: bool)
    | CommitSession(conflict: bool)

  /** A guard that lives for one statement. */
  function Briefly(lock: Lock): seq<Action> { [Acquire(lock), Release(lock)] }

  /** A lookup's walk through the layers: each lock is kept until the lookup returns. */
  function Layers(hitIn: Lock): seq<Action> {
    var r1 := [Release(Request)] + [Release(ActiveSubgraph)];
    var r2 := [Release(Session)] + r1;
    if hitIn == Request then [Acquire(Request)] + r1
    else [Acquire(Request)] + ([Acquire(Session)] + if hitIn == Session then r2 else Briefly(Global) + r2)
  }

  function Below(subgraph: bool, overlayHit: bool, hitIn: Lock): seq<Action> {
    (if subgraph then Briefly(Overlays) else [])
    + if subgraph && overlayHit then [Release(ActiveSubgraph)] else Layers(hitIn)
  }

  /** The end of a transaction: both subgraph locks are given up before the layers are touched. */
  function Close(rest: seq<Action>): seq<Action> {
    [Acquire(ActiveSubgraph)] + ([Acquire(Overlays)] + ([Release(ActiveSubgraph)] + ([Release(Overlays)] + rest)))
  }

  /** The lock actions of one call, in program order. */
  function Path(c: Call): seq<Action> {
    match c
    case Lookup(subgraph, overlayHit, hitIn) => [Acquire(ActiveSubgraph)] + Below(subgraph, overlayHit, hitIn)
    case ListByNs(subgraph) =>
      Briefly(ActiveSubgraph)
      + ((if subgraph then Briefly(Overlays) else []) + (Briefly(Request) + (Briefly(Session) + Briefly(Global))))
    case Put(subgraph) =>
      [Acquire(ActiveSubgraph)] + Briefly(if subgraph then Overlays else Request) + [Release(ActiveSubgraph)]
    case Remove(subgraph) =>
      [Acquire(ActiveSubgraph)]
      + (if subgraph then Briefly(Overlays) else Briefly(Request) + Briefly(Session) + Briefly(Global))
      + [Release(ActiveSubgraph)]
    case BeginSubgraph(alreadyActive) =>
      [Acquire(ActiveSubgraph)] + (if alreadyActive then [] else Briefly(Overlays)) + [Release(ActiveSubgraph)]
    case CommitOverlay(unknown, tombstones) =>
      if unknown then Briefly(ActiveSubgraph)
      else
        Close(Briefly(Request)
              + if tombstones then [Acquire(Session)] + (Briefly(Global) + [Release(Session)]) else [])
    case RollbackOverlay(unknown) =>
      if unknown then Briefly(ActiveSubgraph) else Close([])
    case CommitSession(conflict) =>
      if conflict then []
      else [Acquire(Request), Acquire(Session), Release(Request)] + Briefly(Request) + [Release(Session)]
  }

  /** The locks a path takes, in order, each with those it holds then. */
  function Grants(held: set<Lock>, todo: seq<Action>): seq<(set<Lock>, Lock)>
    decreases |todo|
  {
    if todo == [] then []
    else
      match todo[0]
      case Acquire(l) => [(held, l)] + Grants(held + {l}, todo[1..])
      case Release(l) => Grants(held - {l}, todo[1..])
  }

  /** What a lookup below the overlay takes until it finds the slot. */
  function Descent(hitIn: Lock): seq<(set<Lock>, Lock)> {
    var a, ar, ars := {ActiveSubgraph}, {ActiveSubgraph, Request}, {ActiveSubgraph, Request, Session};
    if hitIn == Request then [(a, Request)]
    else if hitIn == Session then [(a, Request), (ar, Session)]
    else [(a, Request), (ar, Session), (ars, Global)]
  }

  /** The locks of what a method looks at or changes, in its order, and what it holds meanwhile. */
  function Needs(c: Call): seq<(set<Lock>, Lock)> {
    var a: set<Lock> := {ActiveSubgraph};
    var free: set<Lock> := {};
    var first := [(free, ActiveSubgraph)];
    match c
    case Lookup(subgraph, overlayHit, hitIn) =>
      first + ((if subgraph then [(a, Overlays)] else []) + if subgraph && overlayHit then [] else Descent(hitIn))
    case ListByNs(subgraph) =>
      first + ((if subgraph then [(free, Overlays)] else []) + [(free, Request), (free, Session), (free, Global)])
    case Put(subgraph) => first + [(a, if subgraph then Overlays else Request)]
    case Remove(subgraph) => first + if subgraph then [(a, Overlays)] else [(a, Request), (a, Session), (a, Global)]
    case BeginSubgraph(alreadyActive) => first + if alreadyActive then [] else [(a, Overlays)]
    case CommitOverlay(unknown, tombstones) =>
      first + if unknown then []
              else [(a, Overlays)] + ([(free, Request)]
                                      + if tombstones then [(free, Session), ({Session}, Global)] else [])
    case RollbackOverlay(unknown) => first + if unknown then [] else [(a, Overlays)]
    case CommitSession(conflict) =>
      if conflict then [] else [(free, Request), ({Request}, Session), ({Session}, Request)]
  }

  function Program(calls: seq<Call>): seq<Action> {
    if calls == [] then [] else Path(calls[0]) + Program(calls[1..])
  }

  // ------------------------------------------------------------------ the threads

  datatype Thread = Thread(held: set<Lock>, todo: seq<Action>)

  type System = seq<Thread>

  predicate IsFree(s: System, lock: Lock) {
    forall i :: 0 <= i < |s| ==> lock !in s[i].held
  }

  predicate CanStep(s: System, i: nat) {
    i < |s| && s[i].todo != [] && (s[i].todo[0].Acquire? ==> IsFree(s, s[i].todo[0].lock))
  }

  function StepThread(s: System, i: nat): System
    requires CanStep(s, i)
  {
    var t := s[i];
    var held := if t.todo[0].Acquire? then t.held + {t.todo[0].lock} else t.held - {t.todo[0].lock};
    s[i := Thread(held, t.todo[1..])]
  }

  /** The system after scheduling the threads in this order; blocked picks change nothing. */
  function Schedule(s: System, picks: seq<nat>): System
    decreases |picks|
  {
    if picks == [] then s
    else Schedule(if CanStep(s, picks[0]) then StepThread(s, picks[0]) else s, picks[1..])
  }

  function Start(programs: seq<seq<Call>>): System {
    seq(|programs|, i requires 0 <= i < |programs| => Thread({}, Program(programs[i])))
  }

  predicate Finished(s: System) { forall i :: 0 <= i < |s| ==> s[i].todo == [] }

  predicate Stuck(s: System) { !Finished(s) && forall i: nat :: i < |s| ==> !CanStep(s, i) }

  // ------------------------------------------------------------- the lock discipline

  /**
   * How a thread climbs. A flat thread never waits while it holds `request`; a climbing one may;
   * a committing one may also wait for `request` while it holds just `session`.
   */
  datatype Kind = Flat | Climbing | Committing

  function KindOf(c: Call): Kind {
    match c
    case Lookup(subgraph, overlayHit, hitIn) =>
      if (subgraph && overlayHit) || hitIn == Request then Flat else Climbing
    case CommitSession(conflict) => if conflict then Flat else Committing
    case _ => Flat
  }

  predicate AtMost(a: Kind, b: Kind) { a == b || a.Flat? || b.Committing? }

  function ProgramKind(calls: seq<Call>): (kind: Kind)
    ensures forall c :: c in calls ==> AtMost(KindOf(c), kind)
    ensures kind != Flat ==> exists i :: 0 <= i < |calls| && KindOf(calls[i]) == kind
  {
    if calls == [] then Flat
    else
      var rest := ProgramKind(calls[1..]);
      assert forall i :: 0 <= i < |calls[1..]| ==> calls[1..][i] == calls[i + 1];
      assert forall c :: c in calls ==> c == calls[0] || c in calls[1..];
      if AtMost(KindOf(calls[0]), rest) then rest else KindOf(calls[0])
  }

  predicate Above(held: set<Lock>, l: Lock) { forall h :: h in held ==> h.Rank() < l.Rank() }

  predicate MayTake(kind: Kind, held: set<Lock>, l: Lock) {
    match kind
    case Flat => Above(held, l) && Request !in held
    case Climbing => Above(held, l)
    case Committing => Above(held, l) || (held == {Session} && l == Request)
  }

  /** Every lock is taken as the thread's kind allows, and all are given back at the end. */
  predicate Disciplined(kind: Kind, held: set<Lock>, todo: seq<Action>)
    decreases |todo|
  {
    if todo == [] then held == {}
    else
      match todo[0]
      case Acquire(l) => MayTake(kind, held, l) && Disciplined(kind, held + {l}, todo[1..])
      case Release(l) => l in held && Disciplined(kind, held - {l}, todo[1..])
  }

  lemma {:induction false} DisciplinedAppend(kind: Kind, held: set<Lock>, a: seq<Action>, b: seq<Action>)
    requires Disciplined(kind, held, a) && Disciplined(kind, {}, b)
    ensures Disciplined(kind, held, a + b)
    decreases |a|
  {
    if a == [] {
      assert a + b == b;
    } else {
      assert (a + b)[0] == a[0] && (a + b)[1..] == a[1..] + b;
      match a[0]
      case Acquire(l) => DisciplinedAppend(kind, held + {l}, a[1..], b);
      case Release(l) => DisciplinedAppend(kind, held - {l}, a[1..], b);
    }
  }

  lemma {:induction false} DisciplinedWeaken(a: Kind, b: Kind, held: set<Lock>, todo: seq<Action>)
    requires Disciplined(a, held, todo) && AtMost(a, b)
    ensures Disciplined(b, held, todo)
    decreases |todo|
  {
    if todo != [] {
      match todo[0]
      case Acquire(l) => DisciplinedWeaken(a, b, held + {l}, todo[1..]);
      case Release(l) => DisciplinedWeaken(a, b, held - {l}, todo[1..]);
    }
  }

  lemma Take(kind: Kind, held: set<Lock>, l: Lock, rest: seq<Action>)
    requires MayTake(kind, held, l) && Disciplined(kind, held + {l}, rest)
    ensures Disciplined(kind, held, [Acquire(l)] + rest)
  {
    assert ([Acquire(l)] + rest)[1..] == rest;
  }

  lemma Give(kind: Kind, held: set<Lock>, l: Lock, rest: seq<Action>)
    requires l in held && Disciplined(kind, held - {l}, rest)
    ensures Disciplined(kind, held, [Release(l)] + rest)
  {
    assert ([Release(l)] + rest)[1..] == rest;
  }

  lemma Hold(kind: Kind, held: set<Lock>, l: Lock, rest: seq<Action>)
    requires l !in held && MayTake(kind, held, l) && Disciplined(kind, held, rest)
    ensures Disciplined(kind, held, Briefly(l) + rest)
  {
    assert held + {l} - {l} == held;
    Give(kind, held + {l}, l, rest);
    Take(kind, held, l, [Release(l)] + rest);
    assert Briefly(l) + rest == [Acquire(l)] + ([Release(l)] + rest);
  }

  /** What a lookup does below the overlay, still holding active. */
  lemma LayersDisciplined(hitIn: Lock)
    ensures Disciplined(if hitIn == Request then Flat else Climbing, {ActiveSubgraph}, Layers(hitIn))
  {
    var kind := if hitIn == Request then Flat else Climbing;
    var a, ar, ars := {ActiveSubgraph}, {ActiveSubgraph, Request}, {ActiveSubgraph, Request, Session};
    assert ar - {Request} == a && ars - {Session} == ar && a + {Request} == ar && ar + {Session} == ars;
    var r0 := [Release(ActiveSubgraph)];
    Give(kind, a, ActiveSubgraph, []);
    hide Disciplined;
    var r1 := [Release(Request)] + r0;
    Give(kind, ar, Request, r0);
    var r2 := [Release(Session)] + r1;
    Give(kind, ars, Session, r1);
    if hitIn == Request {
      Take(kind, a, Request, r1);
    } else {
      Hold(kind, ars, Global, r2);
      var inner := if hitIn == Session then r2 else Briefly(Global) + r2;
      Take(kind, ar, Session, inner);
      Take(kind, a, Request, [Acquire(Session)] + inner);
    }
  }

  lemma LookupDisciplined(subgraph: bool, overlayHit: bool, hitIn: Lock)
    ensures Disciplined(KindOf(Lookup(subgraph, overlayHit, hitIn)), {}, Path(Lookup(subgraph, overlayHit, hitIn)))
  {
    var kind := KindOf(Lookup(subgraph, overlayHit, hitIn));
    var a := {ActiveSubgraph};
    Give(kind, a, ActiveSubgraph, []);
    LayersDisciplined(hitIn);
    hide Disciplined;
    hide Layers;
    var deep := if subgraph && overlayHit then [Release(ActiveSubgraph)] else Layers(hitIn);
    assert {} + a == a;
    Hold(kind, a, Overlays, deep);
    Take(kind, {}, ActiveSubgraph, Below(subgraph, overlayHit, hitIn)) by {
      assert [] + deep == deep;
    }
  }

  lemma ListDisciplined(subgraph: bool)
    ensures Disciplined(Flat, {}, Path(ListByNs(subgraph)))
  {
    Hold(Flat, {}, Global, []);
    assert Briefly(Global) + [] == Briefly(Global);
    hide Disciplined;
    Hold(Flat, {}, Session, Briefly(Global));
    var layers := Briefly(Request) + (Briefly(Session) + Briefly(Global));
    Hold(Flat, {}, Request, Briefly(Session) + Briefly(Global));
    if subgraph {
      Hold(Flat, {}, Overlays, layers);
      Hold(Flat, {}, ActiveSubgraph, Briefly(Overlays) + layers);
    } else {
      assert [] + layers == layers;
      Hold(Flat, {}, ActiveSubgraph, layers);
    }
  }

  lemma WriteDisciplined(subgraph: bool)
    ensures Disciplined(Flat, {}, Path(Put(subgraph)))
    ensures Disciplined(Flat, {}, Path(BeginSubgraph(subgraph)))
  {
    var a := {ActiveSubgraph};
    assert {} + a == a;
    var back := [Release(ActiveSubgraph)];
    Give(Flat, a, ActiveSubgraph, []);
    hide Disciplined;
    var target := if subgraph then Overlays else Request;
    Hold(Flat, a, target, back);
    Take(Flat, {}, ActiveSubgraph, Briefly(target) + back);
    assert Path(Put(subgraph)) == [Acquire(ActiveSubgraph)] + (Briefly(target) + back);
    Hold(Flat, a, Overlays, back);
    var begin := if subgraph then back else Briefly(Overlays) + back;
    Take(Flat, {}, ActiveSubgraph, begin);
    assert Path(BeginSubgraph(subgraph)) == [Acquire(ActiveSubgraph)] + begin;
  }

  lemma RemoveDisciplined(subgraph: bool)
    ensures Disciplined(Flat, {}, Path(Remove(subgraph)))
  {
    var a := {ActiveSubgraph};
    assert {} + a == a;
    var back := [Release(ActiveSubgraph)];
    Give(Flat, a, ActiveSubgraph, []);
    hide Disciplined;
    if subgraph {
      Hold(Flat, a, Overlays, back);
      Take(Flat, {}, ActiveSubgraph, Briefly(Overlays) + back);
      assert Path(Remove(subgraph)) == [Acquire(ActiveSubgraph)] + (Briefly(Overlays) + back);
    } else {
      Hold(Flat, a, Global, back);
      Hold(Flat, a, Session, Briefly(Global) + back);
      var layers := Briefly(Request) + (Briefly(Session) + (Briefly(Global) + back));
      Hold(Flat, a, Request, Briefly(Session) + (Briefly(Global) + back));
      Take(Flat, {}, ActiveSubgraph, layers);
      assert Path(Remove(subgraph)) == [Acquire(ActiveSubgraph)] + layers;
    }
  }

  lemma EndDisciplined(unknown: bool, tombstones: bool)
    ensures Disciplined(Flat, {}, Path(CommitOverlay(unknown, tombstones)))
    ensures Disciplined(Flat, {}, Path(RollbackOverlay(unknown)))
  {
    Hold(Flat, {}, ActiveSubgraph, []);
    assert Briefly(ActiveSubgraph) + [] == Briefly(ActiveSubgraph);
    var sweep := if tombstones then [Acquire(Session)] + (Briefly(Global) + [Release(Session)]) else [];
    Give(Flat, {Session}, Session, []);
    Hold(Flat, {Session}, Global, [Release(Session)]);
    assert {} + {Session} == {Session};
    Take(Flat, {}, Session, Briefly(Global) + [Release(Session)]);
    Hold(Flat, {}, Request, sweep);
    CloseDisciplined([]);
    CloseDisciplined(Briefly(Request) + sweep);
    hide Disciplined, Close;
  }

  lemma CloseDisciplined(rest: seq<Action>)
    requires Disciplined(Flat, {}, rest)
    ensures Disciplined(Flat, {}, Close(rest))
  {
    var a, ao, o := {ActiveSubgraph}, {ActiveSubgraph, Overlays}, {Overlays};
    assert o - {Overlays} == {} && ao - {ActiveSubgraph} == o && a + {Overlays} == ao && {} + a == a;
    Give(Flat, o, Overlays, rest);
    Give(Flat, ao, ActiveSubgraph, [Release(Overlays)] + rest);
    Take(Flat, a, Overlays, [Release(ActiveSubgraph)] + ([Release(Overlays)] + rest));
    Take(Flat, {}, ActiveSubgraph,
         [Acquire(Overlays)] + ([Release(ActiveSubgraph)] + ([Release(Overlays)] + rest)));
  }

  lemma SessionDisciplined(conflict: bool)
    ensures Disciplined(KindOf(CommitSession(conflict)), {}, Path(CommitSession(conflict)))
  {
    if !conflict {
      var s, rs, r := {Session}, {Request, Session}, {Request};
      assert rs - {Request} == s && r + {Session} == rs && {} + r == r && s - {Session} == {};
      Give(Committing, s, Session, []);
      Hold(Committing, s, Request, [Release(Session)]);
      var clear := Briefly(Request) + [Release(Session)];
      Give(Committing, rs, Request, clear);
      Take(Committing, r, Session, [Release(Request)] + clear);
      Take(Committing, {}, Request, [Acquire(Session)] + ([Release(Request)] + clear));
      assert Path(CommitSession(conflict))
          == [Acquire(Request)] + ([Acquire(Session)] + ([Release(Request)] + clear));
    }
  }

  /** Each method keeps the discipline of its kind. */
  lemma PathDisciplined(c: Call)
    ensures Disciplined(KindOf(c), {}, Path(c))
  {
    match c
    case Lookup(subgraph, overlayHit, hitIn) => LookupDisciplined(subgraph, overlayHit, hitIn);
    case ListByNs(subgraph) => ListDisciplined(subgraph);
    case Put(subgraph) => WriteDisciplined(subgraph);
    case Remove(subgraph) => RemoveDisciplined(subgraph);
    case BeginSubgraph(alreadyActive) => WriteDisciplined(alreadyActive);
    case CommitOverlay(unknown, tombstones) => EndDisciplined(unknown, tombstones);
    case RollbackOverlay(unknown) => EndDisciplined(unknown, false);
    case CommitSession(conflict) => SessionDisciplined(conflict);
  }

  lemma {:induction false} ProgramDisciplined(kind: Kind, calls: seq<Call>)
    requires forall c :: c in calls ==> AtMost(KindOf(c), kind)
    ensures Disciplined(kind, {}, Program(calls))
  {
    if calls != [] {
      PathDisciplined(calls[0]);
      DisciplinedWeaken(KindOf(calls[0]), kind, {}, Path(calls[0]));
      ProgramDisciplined(kind, calls[1..]);
      DisciplinedAppend(kind, {}, Path(calls[0]), Program(calls[1..]));
    }
  }

  // ------------------------------------------------------------------ what a path takes

  lemma Taken(held: set<Lock>, l: Lock, rest: seq<Action>)
    ensures Grants(held, [Acquire(l)] + rest) == [(held, l)] + Grants(held + {l}, rest)
  {
    assert ([Acquire(l)] + rest)[1..] == rest;
  }

  lemma Given(held: set<Lock>, l: Lock, rest: seq<Action>)
    ensures Grants(held, [Release(l)] + rest) == Grants(held - {l}, rest)
  {
    assert ([Release(l)] + rest)[1..] == rest;
  }

  lemma Held(held: set<Lock>, l: Lock, rest: seq<Action>)
    requires l !in held
    ensures Grants(held, Briefly(l) + rest) == [(held, l)] + Grants(held, rest)
  {
    assert Briefly(l) + rest == [Acquire(l)] + ([Release(l)] + rest);
    Taken(held, l, [Release(l)] + rest);
    Given(held + {l}, l, rest);
    assert held + {l} - {l} == held;
  }

  lemma LastGiven(l: Lock)
    ensures Grants({l}, [Release(l)]) == [] == Grants({}, [])
  {
    Given({l}, l, []);
    assert [Release(l)] + [] == [Release(l)];
  }

  lemma LayersTaken(hitIn: Lock)
    ensures Grants({ActiveSubgraph}, Layers(hitIn)) == Descent(hitIn)
  {
    var a, ar, ars := {ActiveSubgraph}, {ActiveSubgraph, Request}, {ActiveSubgraph, Request, Session};
    assert a + {Request} == ar && ar + {Session} == ars && ars - {Session} == ar && ar - {Request} == a;
    var r0 := [Release(ActiveSubgraph)];
    LastGiven(ActiveSubgraph);
    hide Grants;
    var r1 := [Release(Request)] + r0;
    Given(ar, Request, r0);
    var r2 := [Release(Session)] + r1;
    Given(ars, Session, r1);
    if hitIn == Request {
      Taken(a, Request, r1);
    } else {
      Held(ars, Global, r2);
      var inner := if hitIn == Session then r2 else Briefly(Global) + r2;
      Taken(ar, Session, inner);
      Taken(a, Request, [Acquire(Session)] + inner);
    }
  }

  lemma LookupTakes(subgraph: bool, overlayHit: bool, hitIn: Lock)
    ensures Grants({}, Path(Lookup(subgraph, overlayHit, hitIn))) == Needs(Lookup(subgraph, overlayHit, hitIn))
  {
    var a := {ActiveSubgraph};
    var deep := if subgraph && overlayHit then [Release(ActiveSubgraph)] else Layers(hitIn);
    LayersTaken(hitIn);
    LastGiven(ActiveSubgraph);
    assert {} + a == a && [] + deep == deep;
    hide Grants, Layers, Descent;
    Held(a, Overlays, deep);
    Taken({}, ActiveSubgraph, Below(subgraph, overlayHit, hitIn));
    assert [] + Descent(hitIn) == Descent(hitIn);
  }

  lemma ListTakes(subgraph: bool)
    ensures Grants({}, Path(ListByNs(subgraph))) == Needs(ListByNs(subgraph))
  {
    LastGiven(Global);
    hide Grants;
    Held({}, Global, []);
    assert Briefly(Global) + [] == Briefly(Global);
    Held({}, Session, Briefly(Global));
    var layers := Briefly(Request) + (Briefly(Session) + Briefly(Global));
    Held({}, Request, Briefly(Session) + Briefly(Global));
    if subgraph {
      Held({}, Overlays, layers);
      Held({}, ActiveSubgraph, Briefly(Overlays) + layers);
    } else {
      assert [] + layers == layers;
      Held({}, ActiveSubgraph, layers);
    }
    hide Briefly;
  }

  lemma WriteTakes(subgraph: bool)
    ensures Grants({}, Path(Put(subgraph))) == Needs(Put(subgraph))
    ensures Grants({}, Path(BeginSubgraph(subgraph))) == Needs(BeginSubgraph(subgraph))
  {
    var a := {ActiveSubgraph};
    var back := [Release(ActiveSubgraph)];
    LastGiven(ActiveSubgraph);
    assert {} + a == a;
    hide Grants;
    var target := if subgraph then Overlays else Request;
    Held(a, target, back);
    Taken({}, ActiveSubgraph, Briefly(target) + back);
    assert Path(Put(subgraph)) == [Acquire(ActiveSubgraph)] + (Briefly(target) + back);
    Held(a, Overlays, back);
    var begin := if subgraph then back else Briefly(Overlays) + back;
    Taken({}, ActiveSubgraph, begin);
    assert Path(BeginSubgraph(subgraph)) == [Acquire(ActiveSubgraph)] + begin;
    hide Path;
  }

  lemma RemoveTakes(subgraph: bool)
    ensures Grants({}, Path(Remove(subgraph))) == Needs(Remove(subgraph))
  {
    var a := {ActiveSubgraph};
    var back := [Release(ActiveSubgraph)];
    LastGiven(ActiveSubgraph);
    assert {} + a == a;
    hide Grants;
    if subgraph {
      Held(a, Overlays, back);
      Taken({}, ActiveSubgraph, Briefly(Overlays) + back);
      assert Path(Remove(subgraph)) == [Acquire(ActiveSubgraph)] + (Briefly(Overlays) + back);
    } else {
      Held(a, Global, back);
      Held(a, Session, Briefly(Global) + back);
      var layers := Briefly(Request) + (Briefly(Session) + (Briefly(Global) + back));
      Held(a, Request, Briefly(Session) + (Briefly(Global) + back));
      Taken({}, ActiveSubgraph, layers);
      assert Path(Remove(subgraph)) == [Acquire(ActiveSubgraph)] + layers;
    }
    hide Path;
  }

  lemma CloseTakes(rest: seq<Action>)
    ensures Grants({}, Close(rest)) == [({}, ActiveSubgraph)] + ([({ActiveSubgraph}, Overlays)] + Grants({}, rest))
  {
    var a, ao, o := {ActiveSubgraph}, {ActiveSubgraph, Overlays}, {Overlays};
    assert o - {Overlays} == {} && ao - {ActiveSubgraph} == o && a + {Overlays} == ao && {} + a == a;
    Given(o, Overlays, rest);
    Given(ao, ActiveSubgraph, [Release(Overlays)] + rest);
    Taken(a, Overlays, [Release(ActiveSubgraph)] + ([Release(Overlays)] + rest));
    Taken({}, ActiveSubgraph, [Acquire(Overlays)] + ([Release(ActiveSubgraph)] + ([Release(Overlays)] + rest)));
    hide Grants;
  }

  lemma EndTakes(unknown: bool, tombstones: bool)
    ensures Grants({}, Path(CommitOverlay(unknown, tombstones))) == Needs(CommitOverlay(unknown, tombstones))
    ensures Grants({}, Path(RollbackOverlay(unknown))) == Needs(RollbackOverlay(unknown))
  {
    LastGiven(Session);
    hide Grants;
    Held({}, ActiveSubgraph, []);
    assert Briefly(ActiveSubgraph) + [] == Briefly(ActiveSubgraph);
    var sweep := if tombstones then [Acquire(Session)] + (Briefly(Global) + [Release(Session)]) else [];
    assert {} + {Session} == {Session};
    Held({Session}, Global, [Release(Session)]);
    Taken({}, Session, Briefly(Global) + [Release(Session)]);
    Held({}, Request, sweep);
    CloseTakes([]);
    CloseTakes(Briefly(Request) + sweep);
    hide Close, Briefly;
  }

  lemma SessionTakes(conflict: bool)
    ensures Grants({}, Path(CommitSession(conflict))) == Needs(CommitSession(conflict))
  {
    if !conflict {
      var s, rs, r := {Session}, {Request, Session}, {Request};
      assert rs - {Request} == s && r + {Session} == rs && {} + r == r;
      LastGiven(Session);
      hide Grants;
      Held(s, Request, [Release(Session)]);
      var clear := Briefly(Request) + [Release(Session)];
      Given(rs, Request, clear);
      Taken(r, Session, [Release(Request)] + clear);
      Taken({}, Request, [Acquire(Session)] + ([Release(Request)] + clear));
      assert Path(CommitSession(conflict))
          == [Acquire(Request)] + ([Acquire(Session)] + ([Release(Request)] + clear));
      hide Path, Briefly;
    }
  }

  /** Each method takes exactly the locks of what it looks at or changes, in this order and so nested. */
  lemma PathTakes(c: Call)
    ensures Grants({}, Path(c)) == Needs(c)
  {
    hide Grants, Path, Needs;
    match c
    case Lookup(subgraph, overlayHit, hitIn) => LookupTakes(subgraph, overlayHit, hitIn);
    case ListByNs(subgraph) => ListTakes(subgraph);
    case Put(subgraph) => WriteTakes(subgraph);
    case Remove(subgraph) => RemoveTakes(subgraph);
    case BeginSubgraph(alreadyActive) => WriteTakes(alreadyActive);
    case CommitOverlay(unknown, tombstones) => EndTakes(unknown, tombstones);
    case RollbackOverlay(unknown) => EndTakes(unknown, false);
    case CommitSession(conflict) => SessionTakes(conflict);
  }

  // ---------------------------------------------------------------- every reachable state

  /** At most one kind of trouble: a committing thread meets flat threads only. */
  predicate Compatible(kinds: seq<Kind>) {
    forall i, j :: 0 <= i < |kinds| && 0 <= j < |kinds| && i != j && kinds[i].Committing? ==> kinds[j].Flat?
  }

  predicate Inv(kinds: seq<Kind>, s: System) {
    && |kinds| == |s|
    && (forall i :: 0 <= i < |s| ==> Disciplined(kinds[i], s[i].held, s[i].todo))
    && (forall i, j :: 0 <= i < |s| && 0 <= j < |s| && i != j ==> s[i].held !! s[j].held)
  }

  function Kinds(programs: seq<seq<Call>>): (kinds: seq<Kind>)
    ensures |kinds| == |programs|
  {
    seq(|programs|, i requires 0 <= i < |programs| => ProgramKind(programs[i]))
  }

  lemma StartInv(programs: seq<seq<Call>>)
    ensures Inv(Kinds(programs), Start(programs))
  {
    forall i | 0 <= i < |programs|
      ensures Disciplined(Kinds(programs)[i], Start(programs)[i].held, Start(programs)[i].todo)
    {
      ProgramDisciplined(ProgramKind(programs[i]), programs[i]);
    }
  }

  /** Mutual exclusion and the discipline survive every step of every thread. */
  lemma StepInv(kinds: seq<Kind>, s: System, i: nat)
    requires Inv(kinds, s) && CanStep(s, i)
    ensures Inv(kinds, StepThread(s, i))
  {}

  lemma {:induction false} ScheduleInv(kinds: seq<Kind>, s: System, picks: seq<nat>)
    requires Inv(kinds, s)
    ensures Inv(kinds, Schedule(s, picks))
    decreases |picks|
  {
    if picks != [] {
      if CanStep(s, picks[0]) {
        StepInv(kinds, s, picks[0]);
        ScheduleInv(kinds, StepThread(s, picks[0]), picks[1..]);
      } else {
        ScheduleInv(kinds, s, picks[1..]);
      }
    }
  }

  /** How far up a thread waits: a release never waits, the out-of-order wait comes next. */
  function Wait(t: Thread): nat
    requires t.todo != []
  {
    if t.todo[0].Release? then 0
    else if t.held == {Session} && t.todo[0].lock == Request then 1
    else 6 - t.todo[0].lock.Rank()
  }

  /** Following the holders of the awaited locks upwards ends at a thread that can move. */
  lemma {:induction false} SomeThreadMoves(kinds: seq<Kind>, s: System, i: nat) returns (mover: nat)
    requires Inv(kinds, s) && Compatible(kinds)
    requires i < |s| && s[i].todo != []
    ensures CanStep(s, mover)
    decreases Wait(s[i])
  {
    if CanStep(s, i) {
      mover := i;
    } else {
      var l := s[i].todo[0].lock;
      var j :| 0 <= j < |s| && l in s[j].held;
      assert s[j].todo != [];
      assert MayTake(kinds[i], s[i].held, l);
      assert j != i;
      mover := SomeThreadMoves(kinds, s, j);
    }
  }

  /** A system of compatible threads is stuck in none of its reachable states. */
  lemma NeverStuck(programs: seq<seq<Call>>, picks: seq<nat>)
    requires Compatible(Kinds(programs))
    ensures !Stuck(Schedule(Start(programs), picks))
  {
    var s := Schedule(Start(programs), picks);
    StartInv(programs);
    ScheduleInv(Kinds(programs), Start(programs), picks);
    if !Finished(s) {
      var i :| 0 <= i < |s| && s[i].todo != [];
      var mover := SomeThreadMoves(Kinds(programs), s, i);
    }
  }

  function Remaining(s: System): nat {
    if s == [] then 0 else |s[0].todo| + Remaining(s[1..])
  }

  lemma {:induction false} StepShortens(s: System, i: nat)
    requires CanStep(s, i)
    ensures Remaining(StepThread(s, i)) == Remaining(s) - 1
  {
    if i > 0 {
      var t := s[1..];
      assert t[i - 1] == s[i];
      assert forall k :: 0 <= k < |t| ==> t[k] == s[k + 1];
      StepShortens(t, i - 1);
      assert StepThread(s, i)[1..] == StepThread(t, i - 1);
    } else {
      assert StepThread(s, 0)[1..] == s[1..];
    }
  }

  /** From every reachable state some schedule lets every call return. */
  lemma {:induction false} CanFinish(kinds: seq<Kind>, s: System) returns (picks: seq<nat>)
    requires Inv(kinds, s) && Compatible(kinds)
    ensures Finished(Schedule(s, picks))
    decreases Remaining(s)
  {
    if Finished(s) {
      picks := [];
    } else {
      var i :| 0 <= i < |s| && s[i].todo != [];
      var mover := SomeThreadMoves(kinds, s, i);
      StepInv(kinds, s, mover);
      StepShortens(s, mover);
      var rest := CanFinish(kinds, StepThread(s, mover));
      picks := [mover] + rest;
      assert picks[1..] == rest;
    }
  }

  // --------------------------------------------- the schedules that get stuck otherwise

  lemma {:induction false} ScheduleAppend(s: System, a: seq<nat>, b: seq<nat>)
    ensures Schedule(s, a + b) == Schedule(Schedule(s, a), b)
    decreases |a|
  {
    if a == [] {
      assert a + b == b;
    } else {
      assert (a + b)[0] == a[0] && (a + b)[1..] == a[1..] + b;
      ScheduleAppend(if CanStep(s, a[0]) then StepThread(s, a[0]) else s, a[1..], b);
    }
  }

  function After(held: set<Lock>, a: seq<Action>): set<Lock>
    decreases |a|
  {
    if a == [] then held
    else After(if a[0].Acquire? then held + {a[0].lock} else held - {a[0].lock}, a[1..])
  }

  /** The thread can take these actions while the other threads hold `others`. */
  predicate Unhindered(held: set<Lock>, a: seq<Action>, others: set<Lock>)
    decreases |a|
  {
    a == []
    || (if a[0].Acquire? then
          a[0].lock !in held && a[0].lock !in others && Unhindered(held + {a[0].lock}, a[1..], others)
        else Unhindered(held - {a[0].lock}, a[1..], others))
  }

  function Times(i: nat, n: nat): seq<nat> {
    if n == 0 then [] else [i] + Times(i, n - 1)
  }

  lemma {:induction false} RunAlone(s: System, i: nat, a: seq<Action>, rest: seq<Action>, others: set<Lock>)
    requires i < |s| && s[i].todo == a + rest
    requires forall k :: 0 <= k < |s| && k != i ==> s[k].held <= others
    requires Unhindered(s[i].held, a, others)
    ensures Schedule(s, Times(i, |a|)) == s[i := Thread(After(s[i].held, a), rest)]
    decreases |a|
  {
    if a == [] {
      assert a + rest == rest;
    } else {
      assert (a + rest)[0] == a[0] && (a + rest)[1..] == a[1..] + rest;
      assert IsFree(s, a[0].lock) || a[0].Release?;
      var t := StepThread(s, i);
      RunAlone(t, i, a[1..], rest, others);
      assert Times(i, |a|)[1..] == Times(i, |a| - 1);
      assert t[i := Thread(After(t[i].held, a[1..]), rest)] == s[i := Thread(After(s[i].held, a), rest)];
    }
  }

  lemma {:induction false} DisciplinedRuns(kind: Kind, held: set<Lock>, a: seq<Action>)
    requires Disciplined(kind, held, a)
    ensures Unhindered(held, a, {}) && After(held, a) == {}
    decreases |a|
  {
    if a != [] {
      DisciplinedRuns(kind, if a[0].Acquire? then held + {a[0].lock} else held - {a[0].lock}, a[1..]);
    }
  }

  lemma SplitTail(calls: seq<Call>, c: nat)
    requires 0 < c < |calls|
    ensures calls[..c] != [] && calls[..c][0] == calls[0] && calls[..c][1..] == calls[1..][..c - 1]
    ensures calls[1..][c - 1] == calls[c] && calls[1..][c..] == calls[c + 1..]
  {
  }

  lemma Regroup(a: seq<Action>, b: seq<Action>, c: seq<Action>)
    ensures a + (b + c) == (a + b) + c
  {
  }

  lemma {:induction false} ProgramSplit(calls: seq<Call>, c: nat)
    requires c < |calls|
    ensures Program(calls) == Program(calls[..c]) + (Path(calls[c]) + Program(calls[c + 1..]))
  {
    hide Path;
    if c == 0 {
      assert Program(calls[..0]) == [];
    } else {
      ProgramSplit(calls[1..], c - 1);
      SplitTail(calls, c);
      Regroup(Path(calls[0]), Program(calls[1..][..c - 1]), Path(calls[c]) + Program(calls[c + 1..]));
    }
  }

  /** Thread i, alone in holding nothing, runs to just before its call c. */
  lemma RunToCall(s: System, i: nat, calls: seq<Call>, c: nat, rest: seq<Action>) returns (picks: seq<nat>)
    requires i < |s| && c <= |calls| && s[i] == Thread({}, Program(calls[..c]) + rest)
    requires forall k :: 0 <= k < |s| ==> s[k].held == {}
    ensures Schedule(s, picks) == s[i := Thread({}, rest)]
  {
    var a := Program(calls[..c]);
    ProgramDisciplined(Committing, calls[..c]);
    DisciplinedRuns(Committing, {}, a);
    RunAlone(s, i, a, rest, {});
    picks := Times(i, |a|);
  }

  /** The threads below n other than i and j run to their ends. */
  lemma {:induction false} RunOthers(programs: seq<seq<Call>>, n: nat, i: nat, j: nat) returns (picks: seq<nat>)
    requires n <= |programs|
    ensures var s := Schedule(Start(programs), picks);
            && |s| == |programs|
            && forall k :: 0 <= k < |s| ==>
                 s[k] == Thread({}, if k < n && k != i && k != j then [] else Program(programs[k]))
  {
    if n == 0 {
      picks := [];
    } else {
      var before := RunOthers(programs, n - 1, i, j);
      var k := n - 1;
      if k == i || k == j {
        picks := before;
      } else {
        var s := Schedule(Start(programs), before);
        var calls := programs[k];
        assert calls[..|calls|] == calls && Program(calls) + [] == Program(calls);
        var run := RunToCall(s, k, calls, |calls|, []);
        ScheduleAppend(Start(programs), before, run);
        picks := before + run;
      }
    }
  }

  /** The first steps of a call that ends up holding request and waiting for session. */
  function Approach(c: Call): (n: nat)
    requires KindOf(c) != Flat
    ensures n < |Path(c)|
  {
    if c.CommitSession? then 1 else if c.Lookup? && c.subgraph then 4 else 2
  }

  lemma ApproachHolds(c: Call)
    requires KindOf(c) != Flat
    ensures Unhindered({}, Path(c)[..Approach(c)], {Session})
    ensures Request in After({}, Path(c)[..Approach(c)])
    ensures Path(c)[Approach(c)] == Acquire(Session)
  {
    var a := Path(c)[..Approach(c)];
    var o := {Session};
    var last := [Acquire(Request)];
    assert last[1..] == [];
    assert forall held: set<Lock> :: Request in After(held, last);
    assert forall held: set<Lock> :: Request !in held ==> Unhindered(held, last, o);
    if c.CommitSession? {
      assert a == last;
    } else {
      var h := {ActiveSubgraph};
      if c.subgraph {
        assert a == [Acquire(ActiveSubgraph), Acquire(Overlays), Release(Overlays), Acquire(Request)];
        assert a[1..] == [Acquire(Overlays), Release(Overlays), Acquire(Request)];
        assert a[1..][1..] == [Release(Overlays), Acquire(Request)];
        assert a[1..][1..][1..] == last;
        assert Unhindered(h + {Overlays}, a[1..][1..], o);
        assert Unhindered(h, a[1..], o) && After(h, a[1..]) == After(h + {Overlays} - {Overlays}, last);
      } else {
        assert a == [Acquire(ActiveSubgraph), Acquire(Request)];
        assert a[1..] == last;
        assert Unhindered(h, a[1..], o);
      }
      assert {} + h == h;
    }
  }

  /** Three steps into a session commit: `session` is held and `request` wanted again. */
  lemma CommitHoldsSession(s: System, i: nat, c: Call, todo: seq<Action>) returns (picks: seq<nat>)
    requires i < |s| && KindOf(c) == Committing && Path(c) <= todo && s[i] == Thread({}, todo)
    requires forall k :: 0 <= k < |s| ==> s[k].held == {}
    ensures |todo| > 3 && todo[3] == Acquire(Request)
    ensures Schedule(s, picks) == s[i := Thread({Session}, todo[3..])]
  {
    var a := [Acquire(Request), Acquire(Session), Release(Request)];
    assert Path(c)[..3] == a && Path(c)[3] == Acquire(Request);
    assert a[1..] == [Acquire(Session), Release(Request)] && a[1..][1..] == [Release(Request)];
    assert a[1..][1..][1..] == [];
    assert todo == a + todo[3..];
    assert After({}, a) == {Session};
    RunAlone(s, i, a, todo[3..], {});
    picks := Times(i, 3);
  }

  /** Beside a holder of `session`, a climbing call gets as far as holding `request`. */
  lemma ClimberHoldsRequest(s: System, j: nat, c: Call, todo: seq<Action>) returns (picks: seq<nat>, held: set<Lock>)
    requires j < |s| && KindOf(c) != Flat && Path(c) <= todo && s[j] == Thread({}, todo)
    requires forall k :: 0 <= k < |s| && k != j ==> s[k].held <= {Session}
    ensures var n := Approach(c);
            && n < |todo| && todo[n] == Acquire(Session) && Request in held
            && Schedule(s, picks) == s[j := Thread(held, todo[n..])]
  {
    var n := Approach(c);
    ApproachHolds(c);
    hide Path, Unhindered, After;
    var a := Path(c)[..n];
    PrefixSplit(Path(c), todo, n);
    RunAlone(s, j, a, todo[n..], {Session});
    picks := Times(j, |a|);
    held := After({}, a);
  }

  lemma PrefixSplit(path: seq<Action>, todo: seq<Action>, n: nat)
    requires path <= todo && n < |path|
    ensures todo == path[..n] + todo[n..] && todo[n] == path[n]
  {
    assert path == todo[..|path|];
    assert path[..n] == todo[..n];
  }

  lemma Collide(s: System, i: nat, j: nat, ci: Call, cj: Call, ri: seq<Action>, rj: seq<Action>)
      returns (p: seq<nat>, q: seq<nat>)
    requires i < |s| && j < |s| && i != j
    requires KindOf(ci) == Committing && KindOf(cj) != Flat
    requires Path(ci) <= ri && Path(cj) <= rj
    requires s[i] == Thread({}, ri) && s[j] == Thread({}, rj)
    requires forall k :: 0 <= k < |s| && k != i && k != j ==> s[k] == Thread({}, [])
    ensures Stuck(Schedule(Schedule(s, p), q))
  {
    hide Path, KindOf;
    p := CommitHoldsSession(s, i, ci, ri);
    var t := Schedule(s, p);
    var held;
    q, held := ClimberHoldsRequest(t, j, cj, rj);
    hide Schedule;
    var u := Schedule(t, q);
    assert u[i] == Thread({Session}, ri[3..]) && u[i].todo[0] == Acquire(Request);
    assert Request in u[j].held && u[j].todo[0] == Acquire(Session);
  }

  /** Thread i is about to commit a session and thread j to climb; nobody holds a lock. */
  lemma ReachCalls(programs: seq<seq<Call>>, i: nat, j: nat, ci: nat, cj: nat)
      returns (picks: seq<nat>, ri: seq<Action>, rj: seq<Action>)
    requires i < |programs| && j < |programs| && i != j && ci < |programs[i]| && cj < |programs[j]|
    ensures Path(programs[i][ci]) <= ri && Path(programs[j][cj]) <= rj
    ensures var s := Schedule(Start(programs), picks);
            && |s| == |programs| && s[i] == Thread({}, ri) && s[j] == Thread({}, rj)
            && forall k :: 0 <= k < |s| && k != i && k != j ==> s[k] == Thread({}, [])
  {
    var p0 := RunOthers(programs, |programs|, i, j);
    hide Schedule, Program, Path;
    var s0 := Schedule(Start(programs), p0);
    var p1;
    p1, ri := RunUpTo(s0, i, programs[i], ci);
    var s1 := Schedule(s0, p1);
    var p2;
    p2, rj := RunUpTo(s1, j, programs[j], cj);
    ScheduleAppend(Start(programs), p0, p1);
    ScheduleAppend(Start(programs), p0 + p1, p2);
    picks := p0 + p1 + p2;
  }

  /** Thread i, while nobody holds a lock, runs to just before its call c. */
  lemma RunUpTo(s: System, i: nat, calls: seq<Call>, c: nat) returns (picks: seq<nat>, rest: seq<Action>)
    requires i < |s| && c < |calls| && s[i] == Thread({}, Program(calls))
    requires forall k :: 0 <= k < |s| ==> s[k].held == {}
    ensures Path(calls[c]) <= rest && Schedule(s, picks) == s[i := Thread({}, rest)]
  {
    hide Schedule, Program, Path;
    rest := Path(calls[c]) + Program(calls[c + 1..]);
    ProgramSplit(calls, c);
    picks := RunToCall(s, i, calls, c, rest);
  }

  /**
   * `commit_session` waits for `request` while it holds `session`. Whenever another thread's call
   * holds `request` and waits for `session`, a schedule runs both into each other for good.
   */
  lemma IncompatibleGetsStuck(programs: seq<seq<Call>>) returns (picks: seq<nat>)
    requires !Compatible(Kinds(programs))
    ensures Stuck(Schedule(Start(programs), picks))
  {
    var kinds := Kinds(programs);
    var i, j :| 0 <= i < |kinds| && 0 <= j < |kinds| && i != j && kinds[i].Committing? && !kinds[j].Flat?;
    var ci :| 0 <= ci < |programs[i]| && KindOf(programs[i][ci]) == Committing;
    var cj :| 0 <= cj < |programs[j]| && KindOf(programs[j][cj]) == kinds[j];
    hide Schedule, Path, KindOf, Stuck, Start;
    var before, ri, rj := ReachCalls(programs, i, j, ci, cj);
    var p, q := Collide(Schedule(Start(programs), before), i, j, programs[i][ci], programs[j][cj], ri, rj);
    ScheduleAppend(Start(programs), before, p);
    ScheduleAppend(Start(programs), before + p, q);
    picks := before + p + q;
  }

  ghost predicate CanDeadlock(s: System) {
    exists picks: seq<nat> :: Stuck(Schedule(s, picks))
  }

  /**
   * Exactly when the context can deadlock: some thread commits a session while another thread
   * looks below the request layer or commits a session too.
   */
  lemma DeadlockCondition(programs: seq<seq<Call>>)
    ensures CanDeadlock(Start(programs)) <==> !Compatible(Kinds(programs))
  {
    if Compatible(Kinds(programs)) {
      forall picks: seq<nat> ensures !Stuck(Schedule(Start(programs), picks)) {
        NeverStuck(programs, picks);
      }
    } else {
      var picks := IncompatibleGetsStuck(programs);
      assert Stuck(Schedule(Start(programs), picks));
    }
  }

  lemma {:induction false} OrdinaryKind(calls: seq<Call>)
    requires forall c :: c in calls ==> !c.CommitSession?
    ensures !ProgramKind(calls).Committing?
  {
    if calls != [] {
      OrdinaryKind(calls[1..]);
    }
  }

  /** In particular the ordinary methods never deadlock, however many threads call them. */
  lemma OrdinaryCallsNeverStuck(programs: seq<seq<Call>>, picks: seq<nat>)
    requires forall i, c :: 0 <= i < |programs| && c in programs[i] ==> !c.CommitSession?
    ensures !Stuck(Schedule(Start(programs), picks))
  {
    forall i | 0 <= i < |programs| ensures !Kinds(programs)[i].Committing? {
      OrdinaryKind(programs[i]);
    }
    NeverStuck(programs, picks);
  }
}