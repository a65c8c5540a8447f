/**
 * The registry of background services (`context/mod.rs`): starts check, start, re-check and insert;
 * stops take entries under the lock and call `stop` outside it. Any number of calls interleave.
 */
module Services {
  type Instance = nat

  /** Where a `start_service` call is: past the first check, or past a successful `start`. */
  datatype Phase = Checked | Launched

  /**
   * The registry, the calls in flight and the history. A start call and the instance it was given
   * share their number. `keyOf` is the key each instance carries with it; `started` are the
   * instances whose `start` succeeded.
   */
  datatype State = State(
    entries: map<string, Instance>,
    zombies: seq<Instance>,
    calls: map<Instance, Phase>,
    taken: map<Instance, bool>,
    stopped: set<Instance>,
    abandoned: set<Instance>,
    keyOf: map<Instance, string>,
    started: set<Instance>)

  const EMPTY := State(map[], [], map[], map[], {}, {}, map[], {})

  function ServiceKey(path: string, node: string): string { path + "::" + node }

  predicate BelongsTo(key: string, path: string) {
    path + "::" <= key || path + "/" <= key
  }

  /** One atomic step of some thread; the flags are what the service itself decides. */
  datatype Step =
    | Check(call: Instance, path: string, node: string)
    | Launch(call: Instance, ok: bool)
    | Register(call: Instance)
    | TakePlugin(path: string, timed: bool)
    | TakeAll
    | StopOne(instance: Instance, inTime: bool)
    | KillZombies(path: string, stuck: set<Instance>)

  function Matching(entries: map<string, Instance>, path: string): map<string, Instance> {
    map k | k in entries && BelongsTo(k, path) :: entries[k]
  }

  function TakeEntries(s: State, out: map<string, Instance>, timed: bool): State {
    s.(entries := s.entries - out.Keys,
       taken := s.taken + map i | i in out.Values :: timed)
  }

  /** The zombies whose key belongs to the path, or the others, in list order. */
  function Zombies(keyOf: map<Instance, string>, zombies: seq<Instance>, path: string, matching: bool): seq<Instance>
  {
    if zombies == [] then []
    else
      var z := zombies[0];
      var rest := Zombies(keyOf, zombies[1..], path, matching);
      if (z in keyOf && BelongsTo(keyOf[z], path)) == matching then [z] + rest else rest
  }

  /** A step that its call is not ready for changes nothing. */
  function Next(s: State, step: Step): State {
    match step
    case Check(call, path, node) =>
      var key := ServiceKey(path, node);
      if call in s.keyOf || key in s.entries then s
      else s.(calls := s.calls[call := Checked], keyOf := s.keyOf[call := key])
    case Launch(call, ok) =>
      if call !in s.calls || s.calls[call] != Checked then s
      else if !ok then s.(calls := s.calls - {call})
      else s.(calls := s.calls[call := Launched], started := s.started + {call})
    case Register(call) =>
      if call !in s.calls || s.calls[call] != Launched || call !in s.keyOf then s
      else if s.keyOf[call] in s.entries then s.(calls := s.calls - {call}, stopped := s.stopped + {call})
      else s.(calls := s.calls - {call}, entries := s.entries[s.keyOf[call] := call])
    case TakePlugin(path, timed) => TakeEntries(s, Matching(s.entries, path), timed)
    case TakeAll => TakeEntries(s, s.entries, false)
    case StopOne(i, inTime) =>
      if i !in s.taken then s
      else if inTime || !s.taken[i] then s.(taken := s.taken - {i}, stopped := s.stopped + {i})
      else s.(taken := s.taken - {i}, zombies := s.zombies + [i])
    case KillZombies(path, stuck) =>
      var matched := set z | z in Zombies(s.keyOf, s.zombies, path, true);
      s.(zombies := Zombies(s.keyOf, s.zombies, path, false),
         stopped := s.stopped + (matched - stuck),
         abandoned := s.abandoned + (matched * stuck))
  }

  function RunSteps(s: State, steps: seq<Step>): State
    decreases |steps|
  {
    if steps == [] then s else RunSteps(Next(s, steps[0]), steps[1..])
  }

  // -------------------------------------------------------------- where instances are

  function Starting(s: State): set<Instance> { set i | i in s.calls && s.calls[i] == Launched }

  function ZombieSet(s: State): set<Instance> { set i | i in s.zombies }

  /** The six places are disjoint and together hold what was started. */
  predicate Placed(starting: set<Instance>, registered: set<Instance>, taken: set<Instance>, zombies: set<Instance>,
                   stopped: set<Instance>, abandoned: set<Instance>, started: set<Instance>)
  {
    && starting !! registered !! taken !! zombies !! stopped !! abandoned
    && started == starting + registered + taken + zombies + stopped + abandoned
  }

  /** Every instance is filed under the key it carries, and call numbers are not reused. */
  predicate Filed(s: State) {
    && Unique(s.zombies)
    && (forall k :: k in s.entries ==> s.entries[k] in s.keyOf && s.keyOf[s.entries[k]] == k)
    && s.started + s.calls.Keys <= s.keyOf.Keys
    && (forall i :: i in s.calls && s.calls[i] == Checked ==> i !in s.started)
  }

  /** Every started instance is in exactly one place. */
  predicate Inv(s: State) {
    && Placed(Starting(s), s.entries.Values, s.taken.Keys, ZombieSet(s), s.stopped, s.abandoned, s.started)
    && Filed(s)
  }

  predicate Unique(xs: seq<Instance>) {
    forall i, j :: 0 <= i < j < |xs| ==> xs[i] != xs[j]
  }

  lemma {:induction false} ZombiesPartition(keyOf: map<Instance, string>, zombies: seq<Instance>, path: string)
    requires Unique(zombies)
    ensures var m, r := Zombies(keyOf, zombies, path, true), Zombies(keyOf, zombies, path, false);
            && Unique(m) && Unique(r)
            && (forall z :: z in m <==> z in zombies && z in keyOf && BelongsTo(keyOf[z], path))
            && (forall z :: z in r <==> z in zombies && !(z in keyOf && BelongsTo(keyOf[z], path)))
  {
    if zombies != [] {
      var rest := zombies[1..];
      assert zombies == [zombies[0]] + rest;
      assert zombies[0] !in rest;
      ZombiesPartition(keyOf, rest, path);
    }
  }

  // The moves between the places, as facts about sets.

  lemma OneLaunches(a: set<Instance>, b: set<Instance>, c: set<Instance>, z: set<Instance>, d: set<Instance>,
                    e: set<Instance>, started: set<Instance>, i: Instance)
    requires Placed(a, b, c, z, d, e, started) && i !in started
    ensures Placed(a + {i}, b, c, z, d, e, started + {i})
  {}

  lemma OneSettles(a: set<Instance>, b: set<Instance>, c: set<Instance>, z: set<Instance>, d: set<Instance>,
                   e: set<Instance>, started: set<Instance>, i: Instance)
    requires Placed(a, b, c, z, d, e, started) && i in a
    ensures Placed(a - {i}, b + {i}, c, z, d, e, started) && Placed(a - {i}, b, c, z, d + {i}, e, started)
  {}

  lemma SomeTaken(a: set<Instance>, b: set<Instance>, c: set<Instance>, z: set<Instance>, d: set<Instance>,
                  e: set<Instance>, started: set<Instance>, rest: set<Instance>, out: set<Instance>)
    requires Placed(a, b, c, z, d, e, started) && b == rest + out && rest !! out
    ensures Placed(a, rest, c + out, z, d, e, started)
  {}

  lemma OneStops(a: set<Instance>, b: set<Instance>, c: set<Instance>, z: set<Instance>, d: set<Instance>,
                 e: set<Instance>, started: set<Instance>, i: Instance)
    requires Placed(a, b, c, z, d, e, started) && i in c
    ensures Placed(a, b, c - {i}, z, d + {i}, e, started) && Placed(a, b, c - {i}, z + {i}, d, e, started)
    ensures i !in z
  {}

  lemma SomeKilled(a: set<Instance>, b: set<Instance>, c: set<Instance>, z: set<Instance>, d: set<Instance>,
                   e: set<Instance>, started: set<Instance>, rest: set<Instance>, out: set<Instance>,
                   stuck: set<Instance>)
    requires Placed(a, b, c, z, d, e, started) && z == rest + out && rest !! out
    ensures Placed(a, b, c, rest, d + (out - stuck), e + (out * stuck), started)
  {}

  lemma TakeKeepsInv(s: State, out: map<string, Instance>, timed: bool)
    requires Inv(s) && forall k :: k in out ==> k in s.entries && s.entries[k] == out[k]
    ensures Inv(TakeEntries(s, out, timed))
  {
    hide Placed;
    var n := TakeEntries(s, out, timed);
    TakenValues(s.entries, out, s.keyOf);
    SomeTaken(Starting(s), s.entries.Values, s.taken.Keys, ZombieSet(s), s.stopped, s.abandoned, s.started,
              n.entries.Values, out.Values);
    assert n.taken.Keys == s.taken.Keys + out.Values;
    assert Starting(n) == Starting(s) && ZombieSet(n) == ZombieSet(s);
  }

  /** Taking entries out takes their instances out, since no two keys share one. */
  lemma TakenValues(entries: map<string, Instance>, out: map<string, Instance>, keyOf: map<Instance, string>)
    requires forall k :: k in out ==> k in entries && entries[k] == out[k]
    requires forall k :: k in entries ==> entries[k] in keyOf && keyOf[entries[k]] == k
    ensures (entries - out.Keys).Values !! out.Values
    ensures entries.Values == (entries - out.Keys).Values + out.Values
  {
    var rest := entries - out.Keys;
    forall i | i in entries.Values ensures i in rest.Values + out.Values {
      var k :| k in entries && entries[k] == i;
      assert k in out || k in rest;
    }
    forall i | i in out.Values ensures i in entries.Values {
      var k :| k in out && out[k] == i;
      assert entries[k] == i;
    }
    forall i | i in rest.Values ensures i in entries.Values {
      var k :| k in rest && rest[k] == i;
      assert entries[k] == i;
    }
  }

  lemma RegisterKeepsInv(s: State, call: Instance)
    requires Inv(s)
    ensures Inv(Next(s, Register(call)))
  {
    hide Placed;
    var n := Next(s, Register(call));
    if n != s {
      OneSettles(Starting(s), s.entries.Values, s.taken.Keys, ZombieSet(s), s.stopped, s.abandoned, s.started, call);
      assert Starting(n) == Starting(s) - {call} && ZombieSet(n) == ZombieSet(s);
      if s.keyOf[call] !in s.entries {
        AddedValue(s.entries, s.keyOf[call], call);
      }
    }
  }

  lemma AddedValue(entries: map<string, Instance>, key: string, i: Instance)
    requires key !in entries
    ensures entries[key := i].Values == entries.Values + {i}
  {
    var n := entries[key := i];
    assert n[key] == i;
    forall x | x in entries.Values ensures x in n.Values {
      var k :| k in entries && entries[k] == x;
      assert n[k] == x;
    }
  }

  lemma KillKeepsInv(s: State, path: string, stuck: set<Instance>)
    requires Inv(s)
    ensures Inv(Next(s, KillZombies(path, stuck)))
  {
    hide Placed;
    var n := Next(s, KillZombies(path, stuck));
    ZombiesPartition(s.keyOf, s.zombies, path);
    hide Zombies, BelongsTo;
    assert Starting(n) == Starting(s);
    var matched := set z | z in Zombies(s.keyOf, s.zombies, path, true);
    assert ZombieSet(s) == ZombieSet(n) + matched && ZombieSet(n) !! matched;
    SomeKilled(Starting(s), s.entries.Values, s.taken.Keys, ZombieSet(s), s.stopped, s.abandoned, s.started,
               ZombieSet(n), matched, stuck);
  }

  lemma CallKeepsInv(s: State, step: Step)
    requires Inv(s) && (step.Check? || step.Launch?)
    ensures Inv(Next(s, step))
  {
    hide Placed;
    var n := Next(s, step);
    if n != s {
      assert ZombieSet(n) == ZombieSet(s);
      if step.Launch? && step.ok {
        OneLaunches(Starting(s), s.entries.Values, s.taken.Keys, ZombieSet(s), s.stopped, s.abandoned, s.started,
                    step.call);
        assert Starting(n) == Starting(s) + {step.call};
      } else {
        assert Starting(n) == Starting(s);
      }
    }
  }

  lemma StopKeepsInv(s: State, i: Instance, inTime: bool)
    requires Inv(s)
    ensures Inv(Next(s, StopOne(i, inTime)))
  {
    hide Placed;
    if i in s.taken {
      OneStops(Starting(s), s.entries.Values, s.taken.Keys, ZombieSet(s), s.stopped, s.abandoned, s.started, i);
      var n := Next(s, StopOne(i, inTime));
      assert n.taken.Keys == s.taken.Keys - {i};
      assert Starting(n) == Starting(s);
      assert ZombieSet(n) == ZombieSet(s) + if n.zombies == s.zombies then {} else {i};
      assert ZombieSet(s) + {} == ZombieSet(s);
    }
  }

  /** No step of any thread loses an instance, duplicates one or files one under a foreign key. */
  lemma NextKeepsInv(s: State, step: Step)
    requires Inv(s)
    ensures Inv(Next(s, step))
  {
    hide Inv;
    hide Next;
    match step
    case Check(_, _, _) => CallKeepsInv(s, step);
    case Launch(_, _) => CallKeepsInv(s, step);
    case Register(call) => RegisterKeepsInv(s, call);
    case TakePlugin(path, timed) => TakeMatchingKeepsInv(s, path, timed);
    case TakeAll => TakeAllKeepsInv(s);
    case StopOne(i, inTime) => StopKeepsInv(s, i, inTime);
    case KillZombies(path, stuck) => KillKeepsInv(s, path, stuck);
  }

  lemma TakeMatchingKeepsInv(s: State, path: string, timed: bool)
    requires Inv(s)
    ensures Inv(Next(s, TakePlugin(path, timed)))
  {
    TakeKeepsInv(s, Matching(s.entries, path), timed);
  }

  lemma TakeAllKeepsInv(s: State)
    requires Inv(s)
    ensures Inv(Next(s, TakeAll))
  {
    TakeKeepsInv(s, s.entries, false);
  }

  /** In every interleaving of any number of starts, stops and kills. */
  lemma {:induction false} ReachableInv(s: State, steps: seq<Step>)
    requires Inv(s)
    ensures Inv(RunSteps(s, steps))
    decreases |steps|
  {
    if steps != [] {
      NextKeepsInv(s, steps[0]);
      ReachableInv(Next(s, steps[0]), steps[1..]);
    }
  }

  /**
   * Once no call is in flight, each instance that ever started is still registered under its own
   * key, has been stopped, waits as a zombie, or was given up by a kill: none is orphaned.
   */
  lemma NoneOrphaned(steps: seq<Step>, i: Instance)
    requires var s := RunSteps(EMPTY, steps); s.calls == map[] && s.taken == map[] && i in s.started
    ensures var s := RunSteps(EMPTY, steps);
            || (i in s.keyOf && s.keyOf[i] in s.entries && s.entries[s.keyOf[i]] == i)
            || i in s.stopped || i in s.zombies || i in s.abandoned
  {
    ReachableInv(EMPTY, steps);
    var s := RunSteps(EMPTY, steps);
    if i in s.entries.Values {
      var k :| k in s.entries && s.entries[k] == i;
    }
  }

  lemma AbandonedStep(s: State, step: Step)
    requires step.KillZombies? ==> step.stuck == {}
    ensures Next(s, step).abandoned == s.abandoned
  {
    hide Zombies;
    hide Matching;
    hide ServiceKey;
  }

  /** Only a kill that finds its zombie still stuck gives an instance up. */
  lemma {:induction false} AbandonedOnlyByKill(s: State, steps: seq<Step>)
    requires forall step :: step in steps && step.KillZombies? ==> step.stuck == {}
    ensures RunSteps(s, steps).abandoned == s.abandoned
    decreases |steps|
  {
    if steps != [] {
      AbandonedStep(s, steps[0]);
      hide Next;
      AbandonedOnlyByKill(Next(s, steps[0]), steps[1..]);
    }
  }

  /**
   * Where a stop leaves an instance that was taken out: stopped if it was in time or had no limit,
   * a zombie exactly if it had a limit and missed it; nothing else makes a zombie.
   */
  lemma StopEnds(s: State, step: Step, i: Instance)
    requires Inv(s)
    ensures i in s.taken && step == StopOne(i, true) ==> i in Next(s, step).stopped
    ensures i in s.taken && step == StopOne(i, false) ==>
              if s.taken[i] then i in Next(s, step).zombies else i in Next(s, step).stopped
    ensures i in Next(s, step).zombies && i !in s.zombies ==>
              step == StopOne(i, false) && i in s.taken && s.taken[i]
    ensures i in s.zombies && i !in Next(s, step).zombies ==>
              step.KillZombies? && i in s.keyOf && BelongsTo(s.keyOf[i], step.path)
  {
    hide BelongsTo, ServiceKey, Matching, Placed;
    if step.KillZombies? {
      ZombiesPartition(s.keyOf, s.zombies, step.path);
      if i in s.zombies {
        ZombieKeys(s, i);
      }
      hide Zombies;
    }
  }

  lemma ZombieKeys(s: State, i: Instance)
    requires Inv(s) && i in s.zombies
    ensures i in s.keyOf
  {
    assert i in ZombieSet(s);
  }

  /** A kill joins the plugin's zombies that have ended, gives up those that are stuck, and leaves the others. */
  lemma KillEnds(s: State, path: string, stuck: set<Instance>, i: Instance)
    requires Inv(s) && i in s.zombies
    ensures i in s.keyOf
    ensures var n := Next(s, KillZombies(path, stuck));
            if !BelongsTo(s.keyOf[i], path) then i in n.zombies
            else i !in n.zombies && if i in stuck then i in n.abandoned else i in n.stopped
  {
    ZombieKeys(s, i);
    ZombiesPartition(s.keyOf, s.zombies, path);
    hide Zombies, BelongsTo;
  }

  /** As long as every stop is in time, no zombie comes into being. */
  lemma {:induction false} TimelyStopsLeaveNoZombies(s: State, steps: seq<Step>)
    requires Inv(s) && forall step :: step in steps && step.StopOne? ==> step.inTime
    ensures forall i :: i in RunSteps(s, steps).zombies ==> i in s.zombies
    decreases |steps|
  {
    if steps != [] {
      NextKeepsInv(s, steps[0]);
      forall i | i in Next(s, steps[0]).zombies ensures i in s.zombies {
        StopEnds(s, steps[0], i);
      }
      hide Next, Inv;
      TimelyStopsLeaveNoZombies(Next(s, steps[0]), steps[1..]);
    }
  }

  lemma UntimedStep(s: State, step: Step)
    requires forall i :: i in s.taken ==> !s.taken[i]
    requires step.TakePlugin? ==> !step.timed
    ensures forall i :: i in Next(s, step).taken ==> !Next(s, step).taken[i]
  {
    hide Matching, Zombies, ServiceKey;
  }

  /** Nor while every stop waits without a limit, as a shutdown does. */
  lemma {:induction false} UntimedStopsLeaveNoZombies(s: State, steps: seq<Step>)
    requires Inv(s) && forall i :: i in s.taken ==> !s.taken[i]
    requires forall step :: step in steps && step.TakePlugin? ==> !step.timed
    ensures forall i :: i in RunSteps(s, steps).zombies ==> i in s.zombies
    decreases |steps|
  {
    if steps != [] {
      NextKeepsInv(s, steps[0]);
      forall i | i in Next(s, steps[0]).zombies ensures i in s.zombies {
        StopEnds(s, steps[0], i);
      }
      UntimedStep(s, steps[0]);
      hide Next, Inv;
      UntimedStopsLeaveNoZombies(Next(s, steps[0]), steps[1..]);
    }
  }

  /** A start of a key that is taken is refused at once: it starts no instance and changes nothing. */
  lemma SecondStartDoesNothing(s: State, call: Instance, path: string, node: string, ok: bool)
    requires call !in s.keyOf && call !in s.calls && ServiceKey(path, node) in s.entries
    ensures RunSteps(s, [Check(call, path, node), Launch(call, ok), Register(call)]) == s
  {
    var rest := [Launch(call, ok), Register(call)];
    assert [Check(call, path, node), Launch(call, ok), Register(call)][1..] == rest;
    assert rest[1..] == [Register(call)] && [Register(call)][1..] == [];
    assert RunSteps(s, []) == s;
    assert RunSteps(s, [Register(call)]) == s;
    assert RunSteps(s, rest) == s;
  }

  /** A start of a free key that succeeds and meets no other is registered under that key. */
  lemma StartRegisters(s: State, call: Instance, path: string, node: string)
    requires call !in s.keyOf && ServiceKey(path, node) !in s.entries
    ensures var n := RunSteps(s, [Check(call, path, node), Launch(call, true), Register(call)]);
            && n.entries == s.entries[ServiceKey(path, node) := call] && n.started == s.started + {call}
            && n.calls == s.calls - {call} && n.stopped == s.stopped
  {
    var key := ServiceKey(path, node);
    hide ServiceKey;
    var rest := [Launch(call, true), Register(call)];
    assert [Check(call, path, node), Launch(call, true), Register(call)][1..] == rest;
    assert rest[1..] == [Register(call)] && [Register(call)][1..] == [];
    var a := Next(s, Check(call, path, node));
    assert a == s.(calls := s.calls[call := Checked], keyOf := s.keyOf[call := key]);
    var b := Next(a, Launch(call, true));
    assert b == a.(calls := a.calls[call := Launched], started := s.started + {call});
    var c := Next(b, Register(call));
    assert c == b.(calls := b.calls - {call}, entries := s.entries[key := call]);
    hide Next;
    assert RunSteps(c, []) == c;
    assert RunSteps(b, [Register(call)]) == c;
    assert RunSteps(a, rest) == c;
    assert b.calls - {call} == s.calls - {call};
  }

  /** What has stopped never comes back: not into the registry, nor to any later stop or kill. */
  lemma {:induction false} StoppedForGood(s: State, steps: seq<Step>, i: Instance)
    requires Inv(s) && i in s.stopped
    ensures var n := RunSteps(s, steps);
            i in n.stopped && i !in n.entries.Values && i !in n.taken && i !in n.zombies && i !in n.abandoned
    decreases |steps|
  {
    if steps == [] {
    } else {
      NextKeepsInv(s, steps[0]);
      StoppedForGood(Next(s, steps[0]), steps[1..], i);
    }
  }

  /**
   * Two starts of one key race past the first check: whatever order they register in, the first
   * owns the key and the second is stopped, not leaked.
   */
  lemma RaceHasOneWinner(s: State, a: Instance, b: Instance)
    requires Inv(s) && a != b && a in Starting(s) && b in Starting(s)
    requires s.keyOf[a] == s.keyOf[b] && s.keyOf[a] !in s.entries
    ensures var n := RunSteps(s, [Register(a), Register(b)]);
            n.entries == s.entries[s.keyOf[a] := a] && n.stopped == s.stopped + {b}
            && a !in n.calls && b !in n.calls
  {
    assert a in s.calls && s.calls[a] == Launched && b in s.calls && s.calls[b] == Launched;
    assert a in s.keyOf && b in s.keyOf;
    hide Inv;
    var n := Next(s, Register(a));
    assert n == s.(calls := s.calls - {a}, entries := s.entries[s.keyOf[a] := a]);
    var m := Next(n, Register(b));
    assert m == n.(calls := n.calls - {b}, stopped := n.stopped + {b});
    hide Next;
    assert [Register(a), Register(b)][1..] == [Register(b)] && [Register(b)][1..] == [];
    assert RunSteps(n, [Register(b)]) == RunSteps(m, []) == m;
  }

  // ------------------------------------------------------------- whose services stop

  /** The plugin's own services and those of its descendants. */
  predicate InSubtree(owner: string, path: string) { owner == path || path + "/" <= owner }

  /** Neither path, with its boundary, runs into the other. */
  predicate Apart(owner: string, path: string) {
    !(path + "::" <= owner + "::") && !(owner + "::" <= path + "::")
  }

  lemma PrefixesMeet(a: string, b: string, whole: string)
    requires a <= whole && b <= whole
    ensures a <= b || b <= a
  {
    assert a == whole[..|a|] && b == whole[..|b|];
  }

  /** A slash boundary and a colon boundary cannot fall together. */
  lemma SlashApart(owner: string, path: string)
    ensures path + "/" <= owner + "::" ==> path + "/" <= owner
    ensures owner + "::" <= path + "/" ==> owner + "::" <= path + "::"
  {
    if path + "/" <= owner + "::" {
      assert (path + "/")[|path|] == '/' && (owner + "::")[|path|] == '/';
      assert path + "/" == (owner + "::")[..|path| + 1] == owner[..|path| + 1];
    }
    if owner + "::" <= path + "/" {
      assert (path + "/")[|owner| + 1] == (owner + "::")[|owner| + 1] == ':';
      assert owner + "::" == (path + "/")[..|owner| + 2] == (path + "::")[..|owner| + 2];
    }
  }

  lemma ApartNeverMatches(owner: string, node: string, path: string)
    requires Apart(owner, path) && !InSubtree(owner, path)
    ensures !BelongsTo(ServiceKey(owner, node), path)
  {
    var key := ServiceKey(owner, node);
    assert key == (owner + "::") + node;
    if path + "::" <= key {
      PrefixesMeet(path + "::", owner + "::", key);
    }
    if path + "/" <= key {
      PrefixesMeet(path + "/", owner + "::", key);
      SlashApart(owner, path);
    }
  }

  lemma SubtreeAlwaysMatches(owner: string, node: string, path: string)
    requires InSubtree(owner, path)
    ensures BelongsTo(ServiceKey(owner, node), path)
  {
    var key := ServiceKey(owner, node);
    if owner == path {
      assert key[..|path| + 2] == path + "::";
    } else {
      assert key[..|path| + 1] == owner[..|path| + 1] == path + "/";
    }
  }

  /** A node name with which the key test takes the owner for one of the plugin's own. */
  lemma OverlapMatches(owner: string, path: string) returns (node: string)
    requires !Apart(owner, path)
    ensures BelongsTo(ServiceKey(owner, node), path)
  {
    if path + "::" <= owner + "::" {
      node := "";
      assert ServiceKey(owner, node) == owner + "::";
    } else {
      node := (path + "::")[|owner| + 2..];
      assert ServiceKey(owner, node) == (path + "::")[..|owner| + 2] + (path + "::")[|owner| + 2..] == path + "::";
    }
  }

  ghost predicate BoundaryHolds(owner: string, path: string) {
    forall node :: BelongsTo(ServiceKey(owner, node), path) <==> InSubtree(owner, path)
  }

  /**
   * The key test tells a plugin's services from a foreign owner's, for every node name, exactly if
   * the owner is in the plugin's subtree or neither path runs into the other at its boundary.
   */
  lemma BoundaryCondition(owner: string, path: string)
    ensures BoundaryHolds(owner, path) <==> InSubtree(owner, path) || Apart(owner, path)
  {
    hide BelongsTo, ServiceKey, Apart, InSubtree;
    if InSubtree(owner, path) {
      forall node ensures BelongsTo(ServiceKey(owner, node), path) {
        SubtreeAlwaysMatches(owner, node, path);
      }
    } else if Apart(owner, path) {
      forall node ensures !BelongsTo(ServiceKey(owner, node), path) {
        ApartNeverMatches(owner, node, path);
      }
    } else {
      var node := OverlapMatches(owner, path);
    }
  }

  predicate NoColon(s: string) { forall i :: 0 <= i < |s| ==> s[i] != ':' }

  lemma NoOverlap(a: string, b: string)
    requires NoColon(b)
    ensures a + "::" <= b + "::" ==> a == b
  {
    if a + "::" <= b + "::" {
      assert (a + "::")[|a|] == ':' && (b + "::")[|a|] == ':';
      assert |a| == |b|;
      assert a == (a + "::")[..|a|] == (b + "::")[..|a|] == b;
    }
  }

  /** Paths without colons never run into each other, so for them the boundary always holds. */
  lemma BelongsToSubtree(owner: string, node: string, path: string)
    requires NoColon(owner) && NoColon(path)
    ensures BelongsTo(ServiceKey(owner, node), path) <==> InSubtree(owner, path)
    ensures owner != path ==> Apart(owner, path)
  {
    NoOverlap(owner, path);
    NoOverlap(path, owner);
    BoundaryCondition(owner, path);
  }

  /** With a colon in a path the boundary can be lost: stopping one plugin stops an unrelated one. */
  lemma ColonsMislead()
    ensures BelongsTo(ServiceKey("a::b", "n"), "a") && !InSubtree("a::b", "a") && !Apart("a::b", "a")
    ensures BelongsTo(ServiceKey("a", "b::n"), "a::b") && !InSubtree("a", "a::b") && !Apart("a", "a::b")
  {
    assert ServiceKey("a::b", "n")[..3] == "a::" && "a::b"[1] == ':';
    assert ServiceKey("a", "b::n")[..6] == "a::b::";
    assert ("a::b" + "::")[..3] == "a" + "::";
  }

  /** A stop takes exactly the subtree of its path out of the registry wherever the boundary holds. */
  lemma TakesTheSubtree(s: State, path: string, timed: bool, owner: string, node: string)
    requires Inv(s) && (InSubtree(owner, path) || Apart(owner, path)) && ServiceKey(owner, node) in s.entries
    ensures var n, key := Next(s, TakePlugin(path, timed)), ServiceKey(owner, node);
            if InSubtree(owner, path) then key !in n.entries && s.entries[key] in n.taken
            else key in n.entries && n.entries[key] == s.entries[key] && s.entries[key] !in n.taken
  {
    var key := ServiceKey(owner, node);
    BoundaryCondition(owner, path);
    assert BelongsTo(key, path) <==> InSubtree(owner, path);
    var n := Next(s, TakePlugin(path, timed));
    TakeMatchingKeepsInv(s, path, timed);
    if BelongsTo(key, path) {
      assert Matching(s.entries, path)[key] == s.entries[key];
    } else {
      assert n.entries[key] == s.entries[key];
    }
  }

  lemma {:induction false} ZombiesAppend(keyOf: map<Instance, string>, a: seq<Instance>, z: Instance, path: string,
                                         matching: bool)
    ensures Zombies(keyOf, a + [z], path, matching)
         == Zombies(keyOf, a, path, matching) + Zombies(keyOf, [z], path, matching)
  {
    if a == [] {
      assert [] + [z] == [z];
    } else {
      assert (a + [z])[0] == a[0] && (a + [z])[1..] == a[1..] + [z];
      ZombiesAppend(keyOf, a[1..], z, path, matching);
    }
  }

  // ------------------------------------------------------------ the registry in place

  /** The registry's critical sections. Each runs under its lock, so it is one step above. */
  class ServiceRegistry {
    var entries: map<string, Instance>
    var zombies: seq<Instance>
    var keyOf: map<Instance, string>

    constructor ()
      ensures entries == map[] && zombies == [] && keyOf == map[]
    {
      entries, zombies, keyOf := map[], [], map[];
    }

    /** The last section of `start_service`: re-check, then insert or stop the fresh instance. */
    method Register(key: string, instance: Instance) returns (ok: bool)
      modifies this`entries
      ensures ok <==> key !in old(entries)
      ensures entries == if ok then old(entries)[key := instance] else old(entries)
    {
      if key in entries {
        return false;
      }
      entries := entries[key := instance];
      return true;
    }

    /** The locked part of both stops: moves out the entries of a plugin and its descendants. */
    method TakePlugin(path: string) returns (out: map<string, Instance>)
      modifies this`entries
      ensures out == Matching(old(entries), path)
      ensures entries == old(entries) - out.Keys
    {
      hide BelongsTo;
      out := map[];
      var keys := entries.Keys;
      while keys != {}
        invariant keys <= old(entries).Keys
        invariant forall k :: k in out <==> k in old(entries) && k !in keys && BelongsTo(k, path)
        invariant forall k :: k in entries <==> k in old(entries) && k !in out
        invariant forall k :: k in out ==> out[k] == old(entries)[k]
        invariant forall k :: k in entries ==> entries[k] == old(entries)[k]
        decreases |keys|
      {
        var key :| key in keys;
        if BelongsTo(key, path) {
          out := out[key := entries[key]];
          entries := entries - {key};
        }
        keys := keys - {key};
      }
    }

    /** Splits the zombies of a plugin and its descendants off, keeping both lists in order. */
    method Partition(path: string) returns (matched: seq<Instance>, rest: seq<Instance>)
      ensures matched == Zombies(keyOf, zombies, path, true)
      ensures rest == Zombies(keyOf, zombies, path, false)
    {
      hide BelongsTo;
      matched, rest := [], [];
      for i := 0 to |zombies|
        invariant matched == Zombies(keyOf, zombies[..i], path, true)
        invariant rest == Zombies(keyOf, zombies[..i], path, false)
      {
        assert zombies[..i + 1] == zombies[..i] + [zombies[i]];
        ZombiesAppend(keyOf, zombies[..i], zombies[i], path, true);
        ZombiesAppend(keyOf, zombies[..i], zombies[i], path, false);
        if zombies[i] in keyOf && BelongsTo(keyOf[zombies[i]], path) {
          matched := matched + [zombies[i]];
        } else {
          rest := rest + [zombies[i]];
        }
      }
      assert zombies[..|zombies|] == zombies;
    }

    /** `kill_zombie_services`: joins or abandons the matching zombies, keeps the others in order. */
    method KillZombies(path: string, stuck: set<Instance>) returns (killed: nat, abandoned: set<Instance>)
      modifies this`zombies
      ensures zombies == Zombies(keyOf, old(zombies), path, false)
      ensures killed == |Zombies(keyOf, old(zombies), path, true)|
      ensures abandoned == (set z | z in Zombies(keyOf, old(zombies), path, true)) * stuck
    {
      hide Zombies;
      var matched, rest := Partition(path);
      killed, abandoned := |matched|, {};
      for i := 0 to |matched|
        invariant abandoned == (set z | z in matched[..i]) * stuck
      {
        if matched[i] in stuck {
          abandoned := abandoned + {matched[i]};
        }
      }
      assert matched[..|matched|] == matched;
      zombies := rest;
    }
  }
}
