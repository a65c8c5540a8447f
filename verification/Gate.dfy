/** Gate decisions (`execution/gate.rs`): when to wait, complete, or cancel the pending branches. */
module Gate {
  import opened Prelude
  import opened Router

  type Node = string

  datatype GatePolicy = AllOf | AnyOf | FirstSuccess | FirstCompleted | AtLeast(k: nat)

  datatype Decision = Wait | CompleteSuccess | CompleteFailure | CompleteAndCancel(success: bool, cancel: seq<Node>)

  type Outcomes = map<Node, Outcome>

  /** Every recorded outcome is terminal. */
  predicate IsTerminal(outcome: Outcome) {
    outcome.Success? || outcome.Failure? || outcome.Timeout? || outcome.Cancelled? || outcome.Skipped?
  }

  // ----------------------------------------------------- what each policy decides

  predicate Has(o: Outcomes, n: Node, outcome: Outcome) { n in o && o[n] == outcome }

  predicate Failed(o: Outcomes, n: Node) { Has(o, n, Failure) || Has(o, n, Timeout) }

  predicate AllRecorded(up: seq<Node>, o: Outcomes) { forall n :: n in up ==> n in o }

  /** The pending nodes other than the winner, in order. */
  function Pending(up: seq<Node>, winner: Node, o: Outcomes): seq<Node> {
    if up == [] then []
    else Pending(up[..|up| - 1], winner, o)
         + if up[|up| - 1] != winner && up[|up| - 1] !in o then [up[|up| - 1]] else []
  }

  predicate Candidate(up: seq<Node>, o: Outcomes, wantSuccess: bool, n: Node) {
    n in up && n in o && (wantSuccess ==> o[n] == Success)
  }

  /** The first node of the completion order that can win. */
  function Winner(up: seq<Node>, o: Outcomes, order: seq<Node>, wantSuccess: bool): (r: Option<Node>)
    ensures r.Some? ==> Candidate(up, o, wantSuccess, r.value)
  {
    if order == [] then None
    else if Candidate(up, o, wantSuccess, order[0]) then Some(order[0])
    else Winner(up, o, order[1..], wantSuccess)
  }

  function Successes(up: seq<Node>, o: Outcomes): nat {
    if up == [] then 0 else Successes(up[..|up| - 1], o) + if Has(o, up[|up| - 1], Success) then 1 else 0
  }

  function Missing(up: seq<Node>, o: Outcomes): nat {
    if up == [] then 0 else Missing(up[..|up| - 1], o) + if up[|up| - 1] !in o then 1 else 0
  }

  function Decide(policy: GatePolicy, up: seq<Node>, o: Outcomes, order: seq<Node>): Decision {
    match policy
    case AllOf =>
      if exists n :: n in up && Failed(o, n) then CompleteFailure
      else if forall n :: n in up ==> Has(o, n, Success) then CompleteSuccess
      else Wait
    case AnyOf =>
      if exists n :: n in up && Has(o, n, Success) then CompleteSuccess
      else if AllRecorded(up, o) then CompleteFailure
      else Wait
    case FirstSuccess =>
      var w := Winner(up, o, order, true);
      if w.Some? then CompleteAndCancel(true, Pending(up, w.value, o))
      else if up != [] && AllRecorded(up, o) then CompleteFailure
      else Wait
    case FirstCompleted =>
      var w := Winner(up, o, order, false);
      if w.None? then Wait
      else
        var cancel := Pending(up, w.value, o);
        if cancel != [] then CompleteAndCancel(o[w.value] == Success, cancel)
        else if o[w.value] == Success then CompleteSuccess else CompleteFailure
    case AtLeast(k) =>
      if k == 0 || Successes(up, o) >= k then CompleteSuccess
      else if Successes(up, o) + Missing(up, o) < k then CompleteFailure
      else Wait
  }

  // ------------------------------------------------------------------ the gate loops

  method EvalAllOf(up: seq<Node>, o: Outcomes) returns (d: Decision)
    ensures d == Decide(AllOf, up, o, [])
  {
    if up == [] {
      return CompleteSuccess;
    }
    var allSuccess := true;
    for i := 0 to |up|
      invariant allSuccess <==> forall n :: n in up[..i] ==> Has(o, n, Success)
      invariant forall n :: n in up[..i] ==> !Failed(o, n)
    {
      if up[i] in o {
        match o[up[i]] {
          case Success =>
          case Failure => assert Failed(o, up[i]); return CompleteFailure;
          case Timeout => assert Failed(o, up[i]); return CompleteFailure;
          case _ => allSuccess := false;
        }
      } else {
        allSuccess := false;
      }
      assert up[..i + 1] == up[..i] + [up[i]];
      assert up[i] in up[..i + 1];
    }
    assert up[..|up|] == up;
    return if allSuccess then CompleteSuccess else Wait;
  }

  method EvalAnyOf(up: seq<Node>, o: Outcomes) returns (d: Decision)
    ensures d == Decide(AnyOf, up, o, [])
  {
    if up == [] {
      return CompleteFailure;
    }
    var allTerminal := true;
    for i := 0 to |up|
      invariant allTerminal <==> AllRecorded(up[..i], o)
      invariant forall n :: n in up[..i] ==> !Has(o, n, Success)
    {
      if up[i] in o {
        if o[up[i]] == Success {
          assert Has(o, up[i], Success);
          return CompleteSuccess;
        }
      } else {
        allTerminal := false;
      }
      assert up[..i + 1] == up[..i] + [up[i]] && up[i] in up[..i + 1];
    }
    assert up[..|up|] == up;
    return if allTerminal then CompleteFailure else Wait;
  }

  method PendingNodes(up: seq<Node>, winner: Node, o: Outcomes) returns (cancel: seq<Node>)
    ensures cancel == Pending(up, winner, o)
  {
    cancel := [];
    for i := 0 to |up|
      invariant cancel == Pending(up[..i], winner, o)
    {
      assert up[..i + 1][..i] == up[..i];
      if up[i] != winner && !(up[i] in o && IsTerminal(o[up[i]])) {
        cancel := cancel + [up[i]];
      }
    }
    assert up[..|up|] == up;
  }

  method EvalFirstSuccess(up: seq<Node>, o: Outcomes, order: seq<Node>) returns (d: Decision)
    ensures d == Decide(FirstSuccess, up, o, order)
  {
    var first: Option<Node> := None;
    var i := 0;
    while i < |order| && first.None?
      invariant i <= |order|
      invariant Winner(up, o, order, true) == if first.Some? then first else Winner(up, o, order[i..], true)
      decreases |order| - i, first.None?
    {
      var node := order[i];
      assert order[i..][0] == node && order[i..][1..] == order[i + 1..];
      if node in up && node in o && o[node] == Success {
        first := Some(node);
      } else {
        i := i + 1;
      }
    }
    if first.Some? {
      var cancel := PendingNodes(up, first.value, o);
      return CompleteAndCancel(true, cancel);
    }
    var allTerminal := up != [] && forall n :: n in up ==> n in o && IsTerminal(o[n]);
    return if allTerminal then CompleteFailure else Wait;
  }

  method EvalFirstCompleted(up: seq<Node>, o: Outcomes, order: seq<Node>) returns (d: Decision)
    ensures d == Decide(FirstCompleted, up, o, order)
  {
    for i := 0 to |order|
      invariant Winner(up, o, order, false) == Winner(up, o, order[i..], false)
    {
      var node := order[i];
      assert order[i..][0] == node && order[i..][1..] == order[i + 1..];
      if node in up && node in o {
        var cancel := PendingNodes(up, node, o);
        if o[node] == Success {
          return if cancel == [] then CompleteSuccess else CompleteAndCancel(true, cancel);
        }
        return if cancel == [] then CompleteFailure else CompleteAndCancel(false, cancel);
      }
    }
    return Wait;
  }

  method EvalAtLeast(k: nat, up: seq<Node>, o: Outcomes) returns (d: Decision)
    ensures d == Decide(AtLeast(k), up, o, [])
  {
    if k == 0 {
      return CompleteSuccess;
    }
    var success, possibleMore := 0, 0;
    for i := 0 to |up|
      invariant success == Successes(up[..i], o) && possibleMore == Missing(up[..i], o)
    {
      assert up[..i + 1][..i] == up[..i];
      if up[i] !in o {
        possibleMore := possibleMore + 1;
      } else if o[up[i]] == Success {
        success := success + 1;
      }
    }
    assert up[..|up|] == up;
    if success >= k {
      return CompleteSuccess;
    }
    return if success + possibleMore < k then CompleteFailure else Wait;
  }

  method EvaluateGate(policy: GatePolicy, up: seq<Node>, o: Outcomes, order: seq<Node>) returns (d: Decision)
    ensures d == Decide(policy, up, o, order)
  {
    match policy {
      case AllOf => d := EvalAllOf(up, o);
      case AnyOf => d := EvalAnyOf(up, o);
      case FirstSuccess => d := EvalFirstSuccess(up, o, order);
      case FirstCompleted => d := EvalFirstCompleted(up, o, order);
      case AtLeast(k) => d := EvalAtLeast(k, up, o);
    }
  }

  // --------------------------------------------------------------------- stability

  /** The success flag of a decision; none while waiting. */
  function Flag(d: Decision): Option<bool> {
    match d
    case Wait => None
    case CompleteSuccess => Some(true)
    case CompleteFailure => Some(false)
    case CompleteAndCancel(success, _) => Some(success)
  }

  /** Outcomes and completion order only grow. */
  ghost predicate Extends(o: Outcomes, order: seq<Node>, o': Outcomes, order': seq<Node>) {
    order <= order' && forall n :: n in o ==> n in o' && o'[n] == o[n]
  }

  /** The completion order lists exactly the nodes with outcomes. */
  ghost predicate Lists(order: seq<Node>, o: Outcomes) {
    forall n :: n in order <==> n in o
  }

  lemma {:induction false} WinnerFacts(up: seq<Node>, o: Outcomes, order: seq<Node>, wantSuccess: bool)
    ensures Winner(up, o, order, wantSuccess).Some? <==> exists n :: n in order && Candidate(up, o, wantSuccess, n)
  {
    if order != [] {
      WinnerFacts(up, o, order[1..], wantSuccess);
      assert forall n :: n in order <==> n == order[0] || n in order[1..];
    }
  }

  lemma {:induction false} WinnerStays(
    up: seq<Node>, o: Outcomes, order: seq<Node>, o': Outcomes, order': seq<Node>, wantSuccess: bool)
    requires Extends(o, order, o', order') && Winner(up, o, order, wantSuccess).Some?
    requires forall n :: n in order ==> n in o
    ensures Winner(up, o', order', wantSuccess) == Winner(up, o, order, wantSuccess)
    decreases |order|
  {
    assert order[0] == order'[0] && order[0] in order;
    if !Candidate(up, o, wantSuccess, order[0]) {
      WinnerStays(up, o, order[1..], o', order'[1..], wantSuccess);
    }
  }

  lemma {:induction false} CountsMove(up: seq<Node>, o: Outcomes, o': Outcomes)
    requires Extends(o, [], o', [])
    ensures Successes(up, o) <= Successes(up, o')
    ensures Successes(up, o') + Missing(up, o') <= Successes(up, o) + Missing(up, o)
  {
    if up != [] {
      CountsMove(up[..|up| - 1], o, o');
    }
  }

  /** Stability: once a gate has decided, its success flag never changes, under any policy. */
  lemma DecisionIsStable(
    policy: GatePolicy, up: seq<Node>, o: Outcomes, order: seq<Node>, o': Outcomes, order': seq<Node>)
    requires Extends(o, order, o', order') && Lists(order, o) && Lists(order', o')
    requires !Decide(policy, up, o, order).Wait?
    ensures Flag(Decide(policy, up, o', order')) == Flag(Decide(policy, up, o, order))
  {
    match policy
    case AllOf =>
    case AnyOf =>
    case FirstSuccess =>
      WinnerFacts(up, o, order, true);
      WinnerFacts(up, o', order', true);
      if Winner(up, o, order, true).Some? {
        WinnerStays(up, o, order, o', order', true);
      }
    case FirstCompleted =>
      WinnerFacts(up, o, order, false);
      WinnerStays(up, o, order, o', order', false);
    case AtLeast(k) =>
      CountsMove(up, o, o');
  }

  /**
   * FirstSuccess reports failure although an upstream succeeded exactly when every upstream is
   * recorded and the completion order lists none of the successful ones.
   */
  lemma FalseFailure(up: seq<Node>, o: Outcomes, order: seq<Node>)
    requires exists n :: n in up && Has(o, n, Success)
    ensures Decide(FirstSuccess, up, o, order) == CompleteFailure
            <==> AllRecorded(up, o) && forall n :: n in up && Has(o, n, Success) ==> n !in order
  {
    WinnerFacts(up, o, order, true);
  }

  /** Such a failure happens, and it is taken back once the order catches up. */
  lemma FalseFailureHappens()
    ensures Decide(FirstSuccess, ["a"], map["a" := Success], []) == CompleteFailure
    ensures Flag(Decide(FirstSuccess, ["a"], map["a" := Success], ["a"])) == Some(true)
  {
    assert "a" in ["a"];
    WinnerFacts(["a"], map["a" := Success], ["a"], true);
    assert Candidate(["a"], map["a" := Success], true, "a");
  }

  // --------------------------------------------------------------------- tightness

  lemma {:induction false} AnySuccess(up: seq<Node>, o: Outcomes)
    ensures Successes(up, o) >= 1 <==> exists n :: n in up && Has(o, n, Success)
    ensures Missing(up, o) == 0 <==> AllRecorded(up, o)
  {
    if up != [] {
      AnySuccess(up[..|up| - 1], o);
      assert up == up[..|up| - 1] + [up[|up| - 1]];
    }
  }

  /** AnyOf is AtLeast(1), for every upstream list. */
  lemma AnyOfIsAtLeastOne(up: seq<Node>, o: Outcomes, order: seq<Node>)
    ensures Decide(AnyOf, up, o, order) == Decide(AtLeast(1), up, o, order)
  {
    AnySuccess(up, o);
  }

  /** The extension in which every missing upstream ends with `outcome`. */
  function Filled(up: seq<Node>, o: Outcomes, outcome: Outcome): Outcomes {
    map n | n in o.Keys + (set m | m in up) :: if n in o then o[n] else outcome
  }

  lemma {:induction false} FilledCounts(up: seq<Node>, all: seq<Node>, o: Outcomes)
    requires forall n :: n in up ==> n in all
    ensures Successes(up, Filled(all, o, Success)) == Successes(up, o) + Missing(up, o)
    ensures Successes(up, Filled(all, o, Failure)) == Successes(up, o)
    ensures Missing(up, Filled(all, o, Success)) == Missing(up, Filled(all, o, Failure)) == 0
  {
    if up != [] {
      FilledCounts(up[..|up| - 1], all, o);
      assert up[|up| - 1] in all;
    }
  }

  ghost predicate CanDecide(policy: GatePolicy, up: seq<Node>, o: Outcomes, flag: bool) {
    exists o' :: Extends(o, [], o', []) && Flag(Decide(policy, up, o', [])) == Some(flag)
  }

  /** Tightness: AtLeast(k) waits exactly as long as both decisions are still possible. */
  lemma AtLeastIsTight(k: nat, up: seq<Node>, o: Outcomes)
    ensures Decide(AtLeast(k), up, o, []).Wait?
            <==> CanDecide(AtLeast(k), up, o, true) && CanDecide(AtLeast(k), up, o, false)
  {
    if Decide(AtLeast(k), up, o, []).Wait? {
      FilledCounts(up, up, o);
      assert Extends(o, [], Filled(up, o, Success), []) && Extends(o, [], Filled(up, o, Failure), []);
      assert Flag(Decide(AtLeast(k), up, Filled(up, o, Success), [])) == Some(true);
      assert Flag(Decide(AtLeast(k), up, Filled(up, o, Failure), [])) == Some(false);
    } else {
      forall o' | Extends(o, [], o', [])
        ensures Flag(Decide(AtLeast(k), up, o', [])) == Flag(Decide(AtLeast(k), up, o, []))
      {
        CountsMove(up, o, o');
      }
    }
  }

  /**
   * A waiting AllOf gate waits forever exactly when every upstream is recorded: a Skipped or
   * Cancelled upstream blocks it for good.
   */
  lemma AllOfMayWaitForever(up: seq<Node>, o: Outcomes)
    requires Decide(AllOf, up, o, []).Wait?
    ensures (forall o' :: Extends(o, [], o', []) ==> Decide(AllOf, up, o', []).Wait?) <==> AllRecorded(up, o)
  {
    if !AllRecorded(up, o) {
      var n :| n in up && n !in o;
      var o' := o[n := Failure];
      assert Extends(o, [], o', []) && Failed(o', n);
    }
  }

  // ------------------------------------------------------------- what decisions mean

  /** The flag is the success: which policies' flags are set, and cleared, by which outcomes. */
  ghost predicate Means(policy: GatePolicy, up: seq<Node>, o: Outcomes, order: seq<Node>, success: bool) {
    match policy
    case AllOf =>
      if success then forall n :: n in up ==> n in o && o[n].Success?
      else exists n :: n in up && n in o && (o[n].Failure? || o[n].Timeout?)
    case AnyOf =>
      if success then exists n :: n in up && n in o && o[n].Success?
      else forall n :: n in up ==> n in o && !o[n].Success?
    case FirstSuccess =>
      if success then exists n :: n in up && n in order && n in o && o[n].Success?
      else up != [] && (forall n :: n in up ==> n in o) && forall n :: n in up && n in order ==> !o[n].Success?
    case FirstCompleted =>
      exists i :: 0 <= i < |order| && order[i] in up && order[i] in o && (o[order[i]].Success? <==> success)
                  && forall j :: 0 <= j < i ==> !(order[j] in up && order[j] in o)
    case AtLeast(k) =>
      if success then |set i | 0 <= i < |up| && up[i] in o && o[up[i]].Success?| >= k
      else |set i | 0 <= i < |up| && (up[i] in o ==> o[up[i]].Success?)| < k
  }

  lemma {:induction false} SuccessesCount(up: seq<Node>, o: Outcomes)
    ensures Successes(up, o) == |set i | 0 <= i < |up| && up[i] in o && o[up[i]].Success?|
  {
    if up != [] {
      var last := |up| - 1;
      var front := up[..last];
      SuccessesCount(front, o);
      var was := set i | 0 <= i < |front| && front[i] in o && o[front[i]].Success?;
      var now := set i | 0 <= i < |up| && up[i] in o && o[up[i]].Success?;
      assert now == if up[last] in o && o[up[last]].Success? then was + {last} else was;
    }
  }

  lemma {:induction false} PossibleCount(up: seq<Node>, o: Outcomes)
    ensures Successes(up, o) + Missing(up, o) == |set i | 0 <= i < |up| && (up[i] in o ==> o[up[i]].Success?)|
  {
    if up != [] {
      var last := |up| - 1;
      var front := up[..last];
      PossibleCount(front, o);
      var was := set i | 0 <= i < |front| && (front[i] in o ==> o[front[i]].Success?);
      var now := set i | 0 <= i < |up| && (up[i] in o ==> o[up[i]].Success?);
      assert now == if up[last] in o ==> o[up[last]].Success? then was + {last} else was;
    }
  }

  lemma {:induction false} WinnerIsFirst(up: seq<Node>, o: Outcomes, order: seq<Node>, wantSuccess: bool)
    requires Winner(up, o, order, wantSuccess).Some?
    ensures exists i :: 0 <= i < |order| && order[i] == Winner(up, o, order, wantSuccess).value
                        && forall j :: 0 <= j < i ==> !Candidate(up, o, wantSuccess, order[j])
  {
    if !Candidate(up, o, wantSuccess, order[0]) {
      WinnerIsFirst(up, o, order[1..], wantSuccess);
      var i :| 0 <= i < |order[1..]| && order[1..][i] == Winner(up, o, order, wantSuccess).value
               && forall j :: 0 <= j < i ==> !Candidate(up, o, wantSuccess, order[1..][j]);
      assert order[i + 1] == order[1..][i];
      forall j | 0 <= j < i + 1 ensures !Candidate(up, o, wantSuccess, order[j]) {
        assert j > 0 ==> order[j] == order[1..][j - 1];
      }
    }
  }

  /** A gate decides success, or failure, exactly when its policy's meaning of it holds. */
  lemma DecisionMeans(policy: GatePolicy, up: seq<Node>, o: Outcomes, order: seq<Node>)
    ensures forall success ::
              Flag(Decide(policy, up, o, order)) == Some(success) <==> Means(policy, up, o, order, success)
  {
    match policy
    case AllOf =>
    case AnyOf =>
    case FirstSuccess => WinnerFacts(up, o, order, true);
    case FirstCompleted =>
      WinnerFacts(up, o, order, false);
      assert forall i :: 0 <= i < |order| ==> order[i] in order;
      if Winner(up, o, order, false).Some? {
        WinnerIsFirst(up, o, order, false);
      } else {
        assert forall i :: 0 <= i < |order| ==> !Candidate(up, o, false, order[i]);
      }
    case AtLeast(k) =>
      SuccessesCount(up, o);
      PossibleCount(up, o);
  }

  lemma {:induction false} PendingFacts(up: seq<Node>, winner: Node, o: Outcomes)
    ensures forall n :: multiset(Pending(up, winner, o))[n]
                        == if n != winner && n !in o then multiset(up)[n] else 0
  {
    if up != [] {
      var front, last := up[..|up| - 1], up[|up| - 1];
      assert up == front + [last];
      PendingFacts(front, winner, o);
    }
  }

  lemma {:induction false} PendingOrdered(up: seq<Node>, more: seq<Node>, winner: Node, o: Outcomes)
    ensures Pending(up + more, winner, o) == Pending(up, winner, o) + Pending(more, winner, o)
  {
    if more == [] {
      assert up + more == up;
    } else {
      var front := more[..|more| - 1];
      assert (up + more)[..|up + more| - 1] == up + front;
      PendingOrdered(up, front, winner, o);
    }
  }

  /**
   * A gate that cancels has a winner in the completion order and cancels exactly the upstreams that
   * have no outcome, as often as they are listed; FirstCompleted cancels whenever there are some.
   */
  lemma CancelsThePending(policy: GatePolicy, up: seq<Node>, o: Outcomes, order: seq<Node>)
    ensures var d := Decide(policy, up, o, order);
            && (d.CompleteAndCancel? ==>
                  && (policy.FirstSuccess? || policy.FirstCompleted?)
                  && forall n :: multiset(d.cancel)[n] == if n !in o then multiset(up)[n] else 0)
            && (policy.FirstCompleted? && !d.Wait? ==> (d.CompleteAndCancel? <==> exists n :: n in up && n !in o))
            && (policy.FirstSuccess? ==> !d.CompleteSuccess?)
  {
    var d := Decide(policy, up, o, order);
    var w := WhoWins(policy, up, o, order);
    hide Decide;
    if w.Some? {
      PendingOf(up, w.value, o);
      hide Pending;
    }
  }

  /** A gate that cancels has a winner with an outcome, and cancels what is pending beside it. */
  lemma WhoWins(policy: GatePolicy, up: seq<Node>, o: Outcomes, order: seq<Node>) returns (w: Option<Node>)
    ensures w.Some? ==> w.value in o
    ensures var d := Decide(policy, up, o, order);
            && (d.CompleteAndCancel? ==>
                  (policy.FirstSuccess? || policy.FirstCompleted?) && w.Some? && d.cancel == Pending(up, w.value, o))
            && (policy.FirstCompleted? && !d.Wait? ==>
                  w.Some? && (d.CompleteAndCancel? <==> Pending(up, w.value, o) != []))
            && (policy.FirstSuccess? ==> !d.CompleteSuccess?)
  {
    hide Pending;
    w := Winner(up, o, order, policy.FirstSuccess?);
    hide Winner;
  }

  lemma PendingOf(up: seq<Node>, winner: Node, o: Outcomes)
    requires winner in o
    ensures forall n :: multiset(Pending(up, winner, o))[n] == if n !in o then multiset(up)[n] else 0
    ensures Pending(up, winner, o) != [] <==> exists n :: n in up && n !in o
  {
    PendingFacts(up, winner, o);
    var cancel := Pending(up, winner, o);
    hide Pending;
    if n :| n in up && n !in o {
      assert multiset(cancel)[n] > 0;
    } else if cancel != [] {
      assert multiset(cancel)[cancel[0]] > 0;
    }
  }

  /**
   * AllOf is AtLeast of them all, exactly as long as no upstream was skipped or cancelled while
   * none has failed.
   */
  lemma AllOfIsAtLeastAll(up: seq<Node>, o: Outcomes)
    ensures Decide(AllOf, up, o, []) == Decide(AtLeast(|up|), up, o, [])
            <==> (exists n :: n in up && Failed(o, n))
                 || forall n :: n in up && n in o ==> !o[n].Skipped? && !o[n].Cancelled?
  {
    CountsBound(up, o);
  }

  lemma {:induction false} CountsBound(up: seq<Node>, o: Outcomes)
    ensures Successes(up, o) + Missing(up, o) <= |up|
    ensures Successes(up, o) + Missing(up, o) < |up| <==> exists n :: n in up && n in o && !o[n].Success?
    ensures Successes(up, o) == |up| <==> forall n :: n in up ==> Has(o, n, Success)
  {
    if up != [] {
      var front, last := up[..|up| - 1], up[|up| - 1];
      assert up == front + [last];
      CountsBound(front, o);
    }
  }

  /** With an order that lists what is recorded, FirstSuccess decides like AnyOf, but never on no upstreams. */
  lemma FirstSuccessIsAnyOf(up: seq<Node>, o: Outcomes, order: seq<Node>)
    requires Lists(order, o)
    ensures Flag(Decide(FirstSuccess, up, o, order))
         == if up == [] then None else Flag(Decide(AnyOf, up, o, order))
  {
    WinnerFacts(up, o, order, true);
    assert up != [] ==> up[0] in up;
  }
}
