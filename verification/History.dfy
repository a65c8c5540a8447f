/**
 * The history filter (`agent.rs`): strips calls to the kernel introspection tools, and their
 * results, from a chat before it is kept for later turns.
 */
module History {
  import opened Prelude

  /** A tool call, with the fields that are not read kept as `rest`. */
  datatype ToolCall = ToolCall(id: Option<string>, name: Option<string>, rest: string)

  /** A chat message. `toolCalls` is present when the field is an array. */
  datatype Message = Message(
    role: string,
    content: Option<string>,
    toolCalls: Option<seq<ToolCall>>,
    toolCallId: Option<string>,
    rest: string)

  const KERNEL_INTROSPECTION_TOOLS: seq<string> := [
    "get_runtime_status", "list_plugins", "list_nodes", "get_kernel_status", "get_kernel_issues"
  ]

  predicate IsIntrospection(call: ToolCall) {
    call.name.Some? && call.name.value in KERNEL_INTROSPECTION_TOOLS
  }

  /** Unicode white space, which `trim` removes. */
  predicate IsSpace(c: char) {
    var n := c as int;
    || 0x9 <= n <= 0xD || n == 0x20 || n == 0x85 || n == 0xA0 || n == 0x1680 || 0x2000 <= n <= 0x200A
    || n == 0x2028 || n == 0x2029 || n == 0x202F || n == 0x205F || n == 0x3000
  }

  predicate HasText(m: Message) {
    m.content.Some? && exists i :: 0 <= i < |m.content.value| && !IsSpace(m.content.value[i])
  }

  /** The calls of one side of the partition, in order. */
  function Pick(calls: seq<ToolCall>, introspection: bool): (r: seq<ToolCall>)
    ensures forall c :: c in r <==> c in calls && IsIntrospection(c) == introspection
  {
    if calls == [] then []
    else
      var rest := Pick(calls[1..], introspection);
      if IsIntrospection(calls[0]) == introspection then [calls[0]] + rest else rest
  }

  function IdsOf(calls: seq<ToolCall>): seq<string> {
    if calls == [] then []
    else (if calls[0].id.Some? then [calls[0].id.value] else []) + IdsOf(calls[1..])
  }

  predicate CallsTools(m: Message) {
    m.role == "assistant" && m.toolCalls.Some? && m.toolCalls.value != []
  }

  function SkipsAfter(m: Message, skip: seq<string>): seq<string> {
    if CallsTools(m) then skip + IdsOf(Pick(m.toolCalls.value, true)) else skip
  }

  /** What one message becomes once these results are to be dropped. */
  function Cleaned(m: Message, skip: seq<string>): seq<Message> {
    if CallsTools(m) then
      var others := Pick(m.toolCalls.value, false);
      if Pick(m.toolCalls.value, true) == [] then [m]
      else if others != [] then [m.(toolCalls := Some(others))]
      else if HasText(m) then [m.(toolCalls := None)]
      else []
    else if m.role == "tool" && m.toolCallId.Some? && m.toolCallId.value in skip then []
    else [m]
  }

  function FilterFrom(messages: seq<Message>, skip: seq<string>): seq<Message> {
    if messages == [] then []
    else
      var m := messages[0];
      Cleaned(m, skip) + FilterFrom(messages[1..], SkipsAfter(m, skip))
  }

  function Filter(messages: seq<Message>): seq<Message> { FilterFrom(messages, []) }

  // ------------------------------------------------------------------- call chains

  datatype Event = Called(call: ToolCall) | Answered(id: string)

  function Calls(calls: seq<ToolCall>): seq<Event> {
    if calls == [] then [] else [Called(calls[0])] + Calls(calls[1..])
  }

  function EventsOf(m: Message): seq<Event> {
    if CallsTools(m) then Calls(m.toolCalls.value)
    else if m.role == "tool" && m.toolCallId.Some? then [Answered(m.toolCallId.value)]
    else []
  }

  /** The calls and results of a chat, in order. */
  function Events(messages: seq<Message>): seq<Event> {
    if messages == [] then [] else EventsOf(messages[0]) + Events(messages[1..])
  }

  /** Every call has an id of its own, and every result follows its call. */
  predicate ValidFrom(events: seq<Event>, seen: set<string>) {
    if events == [] then true
    else
      match events[0]
      case Called(c) => c.id.Some? && c.id.value !in seen && ValidFrom(events[1..], seen + {c.id.value})
      case Answered(id) => id in seen && ValidFrom(events[1..], seen)
  }

  ghost predicate ValidChain(messages: seq<Message>) { ValidFrom(Events(messages), {}) }

  function IntrospectionIds(events: seq<Event>): set<string> {
    set e | e in events && e.Called? && IsIntrospection(e.call) && e.call.id.Some? :: e.call.id.value
  }

  predicate Dropped(e: Event, ids: set<string>) {
    match e
    case Called(c) => IsIntrospection(c)
    case Answered(id) => id in ids
  }

  /** The events without introspection calls and without the results under these ids. */
  function Erase(events: seq<Event>, ids: set<string>): (r: seq<Event>)
    ensures forall e :: e in r <==> e in events && !Dropped(e, ids)
  {
    if events == [] then []
    else
      var rest := Erase(events[1..], ids);
      if Dropped(events[0], ids) then rest else [events[0]] + rest
  }

  /** As the filter goes: an id counts from the moment its introspection call has gone by. */
  function EraseFrom(events: seq<Event>, skip: set<string>): seq<Event> {
    if events == [] then []
    else
      var e := events[0];
      (if Dropped(e, skip) then [] else [e]) + EraseFrom(events[1..], skip + IntrospectionIds([e]))
  }

  // ------------------------------------------------------- what the filter does to chains

  lemma {:induction false} EventsAppend(a: seq<Message>, b: seq<Message>)
    ensures Events(a + b) == Events(a) + Events(b)
  {
    if a == [] {
      assert a + b == b;
    } else {
      assert (a + b)[0] == a[0] && (a + b)[1..] == a[1..] + b;
      EventsAppend(a[1..], b);
    }
  }

  lemma {:induction false} EraseFromAppend(a: seq<Event>, b: seq<Event>, skip: set<string>)
    ensures EraseFrom(a + b, skip) == EraseFrom(a, skip) + EraseFrom(b, skip + IntrospectionIds(a))
  {
    if a == [] {
      assert a + b == b;
      assert skip + IntrospectionIds(a) == skip;
    } else {
      assert (a + b)[0] == a[0] && (a + b)[1..] == a[1..] + b;
      var next := skip + IntrospectionIds([a[0]]);
      EraseFromAppend(a[1..], b, next);
      assert next + IntrospectionIds(a[1..]) == skip + IntrospectionIds(a) by {
        assert a == [a[0]] + a[1..];
      }
    }
  }

  function SetOf(ids: seq<string>): set<string> { set id | id in ids }

  /** Within one message: its other calls stay, and its introspection ids are learnt. */
  lemma {:induction false} CallsErased(calls: seq<ToolCall>, skip: set<string>)
    ensures EraseFrom(Calls(calls), skip) == Calls(Pick(calls, false))
    ensures IntrospectionIds(Calls(calls)) == SetOf(IdsOf(Pick(calls, true)))
  {
    if calls != [] {
      var rest := calls[1..];
      var e := Called(calls[0]);
      CallsErased(rest, skip + IntrospectionIds([e]));
      assert Calls(calls)[1..] == Calls(rest) && Calls(calls) == [e] + Calls(rest);
      assert IntrospectionIds(Calls(calls)) == IntrospectionIds([e]) + IntrospectionIds(Calls(rest));
      var first := if IsIntrospection(calls[0]) then [calls[0]] else [];
      assert Pick(calls, true) == first + Pick(rest, true);
      assert first != [] ==> (first + Pick(rest, true))[1..] == Pick(rest, true);
      assert !IsIntrospection(calls[0]) ==> ([calls[0]] + Pick(rest, false))[1..] == Pick(rest, false);
    }
  }

  lemma CleanedEvents(m: Message, skip: seq<string>)
    ensures Events(Cleaned(m, skip)) == EraseFrom(EventsOf(m), SetOf(skip))
    ensures SetOf(SkipsAfter(m, skip)) == SetOf(skip) + IntrospectionIds(EventsOf(m))
  {
    assert forall x: Message :: [x][1..] == [] && Events([x]) == EventsOf(x) + Events([]) == EventsOf(x);
    if CallsTools(m) {
      var calls := m.toolCalls.value;
      CallsErased(calls, SetOf(skip));
      NothingPicked(calls);
      assert SetOf(skip + IdsOf(Pick(calls, true))) == SetOf(skip) + SetOf(IdsOf(Pick(calls, true)));
    } else {
      assert forall e: Event :: [e][1..] == [];
    }
  }

  lemma {:induction false} NonePicked(calls: seq<ToolCall>, introspection: bool)
    requires forall c :: c in calls ==> IsIntrospection(c) != introspection
    ensures Pick(calls, introspection) == []
  {
    if calls != [] {
      NonePicked(calls[1..], introspection);
    }
  }

  lemma {:induction false} NothingPicked(calls: seq<ToolCall>)
    ensures Pick(calls, true) == [] ==> Pick(calls, false) == calls
  {
    if calls != [] {
      NothingPicked(calls[1..]);
    }
  }

  /** For every chat, valid or not, the filter erases just these events and keeps the others in order. */
  lemma {:induction false} FilterErases(messages: seq<Message>, skip: seq<string>)
    ensures Events(FilterFrom(messages, skip)) == EraseFrom(Events(messages), SetOf(skip))
  {
    if messages != [] {
      var m := messages[0];
      CleanedEvents(m, skip);
      EventsAppend(Cleaned(m, skip), FilterFrom(messages[1..], SkipsAfter(m, skip)));
      FilterErases(messages[1..], SkipsAfter(m, skip));
      EraseFromAppend(EventsOf(m), Events(messages[1..]), SetOf(skip));
    }
  }

  /** In a valid chain a call still to come has none of the ids seen so far. */
  lemma {:induction false} IdsAreNew(events: seq<Event>, seen: set<string>)
    requires ValidFrom(events, seen)
    ensures IntrospectionIds(events) !! seen
  {
    if events != [] {
      var e := events[0];
      IdsAreNew(events[1..], if e.Called? then seen + {e.call.id.value} else seen);
      assert events == [e] + events[1..];
    }
  }

  /**
   * In a valid chain the filter drops exactly the introspection calls and the results that answer
   * them, and what remains is a valid chain again.
   */
  lemma {:induction false} EraseValid(events: seq<Event>, seen: set<string>, skip: set<string>, ids: set<string>)
    requires ValidFrom(events, seen) && skip <= seen && ids == skip + IntrospectionIds(events)
    ensures EraseFrom(events, skip) == Erase(events, ids)
    ensures ValidFrom(Erase(events, ids), seen - skip)
  {
    if events != [] {
      var e := events[0];
      var rest := events[1..];
      assert events == [e] + rest;
      IdsAreNew(events, seen);
      match e
      case Called(c) =>
        var id := c.id.value;
        if IsIntrospection(c) {
          assert IntrospectionIds([e]) == {id};
          EraseValid(rest, seen + {id}, skip + {id}, ids);
          assert seen + {id} - (skip + {id}) == seen - skip;
        } else {
          assert IntrospectionIds([e]) == {} && skip + {} == skip;
          EraseValid(rest, seen + {id}, skip, ids);
          assert seen + {id} - skip == seen - skip + {id};
          assert ([e] + Erase(rest, ids))[1..] == Erase(rest, ids);
        }
      case Answered(id) =>
        assert IntrospectionIds([e]) == {} && skip + {} == skip;
        EraseValid(rest, seen, skip, ids);
        assert ([e] + Erase(rest, ids))[1..] == Erase(rest, ids);
    }
  }

  /** The filter on valid chats: the calls and results that remain, and the validity it keeps. */
  lemma FilterKeepsChainsValid(messages: seq<Message>)
    requires ValidChain(messages)
    ensures Events(Filter(messages)) == Erase(Events(messages), IntrospectionIds(Events(messages)))
    ensures ValidChain(Filter(messages))
  {
    FilterErases(messages, []);
    EraseValid(Events(messages), {}, {}, IntrospectionIds(Events(messages)));
    var none: set<string> := {};
    assert none - none == none && SetOf([]) == none;
  }

  /** Each surviving call still has its answer, and each answered introspection call lost its. */
  lemma AnswersKept(messages: seq<Message>, call: ToolCall)
    requires ValidChain(messages) && Called(call) in Events(messages) && call.id.Some?
    ensures Called(call) in Events(Filter(messages)) <==> !IsIntrospection(call)
    ensures Answered(call.id.value) in Events(Filter(messages))
       <==> !IsIntrospection(call) && Answered(call.id.value) in Events(messages)
  {
    FilterKeepsChainsValid(messages);
    if !IsIntrospection(call) && call.id.value in IntrospectionIds(Events(messages)) {
      var e :| e in Events(messages) && e.Called? && IsIntrospection(e.call) && e.call.id == call.id;
      CallIdsUnique(Events(messages), {}, call, e.call);
    }
  }

  lemma {:induction false} CallIdsUnique(events: seq<Event>, seen: set<string>, a: ToolCall, b: ToolCall)
    requires ValidFrom(events, seen) && Called(a) in events && Called(b) in events
    requires a.id.Some? && a.id == b.id
    ensures a == b && a.id.value !in seen
  {
    var e := events[0];
    var rest := events[1..];
    assert events == [e] + rest;
    if e.Called? {
      var next := seen + {e.call.id.value};
      if Called(a) in rest && Called(b) in rest {
        CallIdsUnique(rest, next, a, b);
      } else if Called(a) in rest {
        CallIdsUnique(rest, next, a, a);
      } else if Called(b) in rest {
        CallIdsUnique(rest, next, b, b);
      }
    } else {
      CallIdsUnique(rest, seen, a, b);
    }
  }

  // ------------------------------------------------------------- every chat, valid or not

  ghost predicate Clean(messages: seq<Message>) {
    forall m, c :: m in messages && CallsTools(m) && c in m.toolCalls.value ==> !IsIntrospection(c)
  }

  lemma {:induction false} OutputIsClean(messages: seq<Message>, skip: seq<string>)
    ensures Clean(FilterFrom(messages, skip))
  {
    if messages != [] {
      OutputIsClean(messages[1..], SkipsAfter(messages[0], skip));
    }
  }

  lemma {:induction false} CleanPasses(messages: seq<Message>)
    requires Clean(messages)
    ensures FilterFrom(messages, []) == messages
  {
    if messages != [] {
      var m := messages[0];
      assert messages == [m] + messages[1..];
      assert m in messages;
      if CallsTools(m) {
        NonePicked(m.toolCalls.value, true);
      }
      assert Cleaned(m, []) == [m] && SkipsAfter(m, []) == [];
      assert forall x :: x in messages[1..] ==> x in messages;
      CleanPasses(messages[1..]);
    }
  }

  /** The filter is the identity exactly on the chats without introspection calls. */
  lemma CleanUnchanged(messages: seq<Message>)
    ensures Clean(messages) <==> Filter(messages) == messages
  {
    OutputIsClean(messages, []);
    if Clean(messages) {
      CleanPasses(messages);
    }
  }

  /** Filtering twice is filtering once. */
  lemma FilterIdempotent(messages: seq<Message>)
    ensures Filter(Filter(messages)) == Filter(messages)
  {
    OutputIsClean(messages, []);
    CleanUnchanged(Filter(messages));
  }

  /** The message without its introspection calls; without the field, if no call is left. */
  ghost function Stripped(m: Message): Message {
    if !CallsTools(m) || forall c :: c in m.toolCalls.value ==> !IsIntrospection(c) then m
    else if forall c :: c in m.toolCalls.value ==> IsIntrospection(c) then m.(toolCalls := None)
    else m.(toolCalls := Some(Pick(m.toolCalls.value, false)))
  }

  /** The output is the input with messages left out and introspection calls stripped, and nothing else changed. */
  ghost predicate Keeps(output: seq<Message>, input: seq<Message>)
    decreases |input|
  {
    || output == []
    || (input != []
        && ((output[0] == Stripped(input[0]) && Keeps(output[1..], input[1..])) || Keeps(output, input[1..])))
  }

  lemma CleanedIsStripped(m: Message, skip: seq<string>)
    ensures Cleaned(m, skip) == [] || Cleaned(m, skip) == [Stripped(m)]
  {
    if CallsTools(m) {
      var calls := m.toolCalls.value;
      assert calls[0] in calls;
      if Pick(calls, true) == [] {
        assert forall c :: c in calls ==> c !in Pick(calls, true);
      } else {
        assert Pick(calls, true)[0] in calls;
        if Pick(calls, false) != [] {
          assert Pick(calls, false)[0] in calls;
        } else {
          assert forall c :: c in calls ==> c !in Pick(calls, false);
        }
      }
    }
    hide Pick;
  }

  /**
   * No message is reordered, repeated or changed but for its introspection calls, and none without
   * calls or answers goes.
   */
  lemma {:induction false} FilterKeepsMessages(messages: seq<Message>, skip: seq<string>)
    ensures Keeps(FilterFrom(messages, skip), messages)
    ensures forall m :: m in messages && !CallsTools(m) && !(m.role == "tool" && m.toolCallId.Some?) ==>
              m in FilterFrom(messages, skip)
  {
    if messages != [] {
      var m, rest := messages[0], FilterFrom(messages[1..], SkipsAfter(messages[0], skip));
      FilterKeepsMessages(messages[1..], SkipsAfter(m, skip));
      var here := Cleaned(m, skip);
      CleanedIsStripped(m, skip);
      assert !CallsTools(m) && !(m.role == "tool" && m.toolCallId.Some?) ==> here == [m];
      hide Cleaned, SkipsAfter, Stripped;
      if here == [] {
        assert here + rest == rest;
      } else {
        assert (here + rest)[0] == here[0] && (here + rest)[1..] == rest;
      }
      assert forall x :: x in messages <==> x == m || x in messages[1..];
    }
  }

  /** What was said: the messages with text that are no tool results. */
  function Said(messages: seq<Message>): seq<(string, string)> {
    if messages == [] then []
    else
      var m := messages[0];
      (if m.role != "tool" && HasText(m) then [(m.role, m.content.value)] else []) + Said(messages[1..])
  }

  lemma {:induction false} SaidAppend(a: seq<Message>, b: seq<Message>)
    ensures Said(a + b) == Said(a) + Said(b)
  {
    if a == [] {
      assert a + b == b;
    } else {
      assert (a + b)[0] == a[0] && (a + b)[1..] == a[1..] + b;
      SaidAppend(a[1..], b);
    }
  }

  /** No text of the conversation is lost or reordered. */
  lemma {:induction false} NothingSaidIsLost(messages: seq<Message>, skip: seq<string>)
    ensures Said(FilterFrom(messages, skip)) == Said(messages)
  {
    if messages != [] {
      var m := messages[0];
      assert forall x: Message :: [x][1..] == [] && Said([x]) == Said([x]) + Said([]);
      NothingSaidIsLost(messages[1..], SkipsAfter(m, skip));
      SaidAppend(Cleaned(m, skip), FilterFrom(messages[1..], SkipsAfter(m, skip)));
    }
  }

  // ----------------------------------------------------------------- reused call ids

  /** The event at `r` goes: an introspection call, or a result whose id such a call had before it. */
  predicate Goes(events: seq<Event>, r: nat)
    requires r < |events|
  {
    Dropped(events[r], IntrospectionIds(events[..r]))
  }

  /** The events that stay, each judged by what came before it. */
  function Survivors(events: seq<Event>): seq<Event> {
    if events == [] then []
    else
      var last := |events| - 1;
      Survivors(events[..last]) + if Goes(events, last) then [] else [events[last]]
  }

  lemma {:induction false} EraseIsSurvival(events: seq<Event>)
    ensures EraseFrom(events, {}) == Survivors(events)
  {
    if events != [] {
      var last := |events| - 1;
      var front, e := events[..last], events[last];
      assert events == front + [e];
      EraseIsSurvival(front);
      EraseFromAppend(front, [e], {});
      assert {} + IntrospectionIds(front) == IntrospectionIds(front) && [e][1..] == [];
    }
  }

  /** For every chat, the filter keeps exactly the events that do not go, in order. */
  lemma FilterSurvives(messages: seq<Message>)
    ensures Events(Filter(messages)) == Survivors(Events(messages))
  {
    FilterErases(messages, []);
    assert SetOf([]) == {};
    EraseIsSurvival(Events(messages));
  }

  predicate CallsWith(events: seq<Event>, x: nat, id: string, introspection: bool)
    requires x < |events|
  {
    events[x].Called? && events[x].call.id == Some(id) && IsIntrospection(events[x].call) == introspection
  }

  /** The result at `r` answers the ordinary call at `q`, the last call of its id before it. */
  predicate Answers(events: seq<Event>, q: nat, r: nat) {
    && q < r < |events| && events[r].Answered? && CallsWith(events, q, events[r].id, false)
    && forall x :: q < x < r ==> !CallsWith(events, x, events[r].id, true) && !CallsWith(events, x, events[r].id, false)
  }

  /** Every result of an ordinary call stays. */
  predicate OrdinaryResultsStay(events: seq<Event>) {
    forall q, r :: 0 <= q < r < |events| && Answers(events, q, r) ==> !Goes(events, r)
  }

  /** No ordinary call that is answered reuses the id of an earlier introspection call. */
  predicate IdsNotReused(events: seq<Event>) {
    forall p, q, r :: 0 <= p < q < r < |events| && Answers(events, q, r) ==> !CallsWith(events, p, events[r].id, true)
  }

  /** The filter keeps every ordinary call's result exactly if no such id is reused. */
  lemma OrdinaryResultsKept(messages: seq<Message>)
    ensures OrdinaryResultsStay(Events(messages)) <==> IdsNotReused(Events(messages))
    ensures Events(Filter(messages)) == Survivors(Events(messages))
  {
    FilterSurvives(messages);
    var events := Events(messages);
    hide Events, Filter, Survivors;
    forall q, r | 0 <= q < r < |events| && Answers(events, q, r)
      ensures Goes(events, r) <==> exists p :: 0 <= p < q && CallsWith(events, p, events[r].id, true)
    {
      LostOnlyByReuse(events, q, r);
    }
    hide Goes, Answers, CallsWith;
  }

  lemma LostOnlyByReuse(events: seq<Event>, q: nat, r: nat)
    requires Answers(events, q, r)
    ensures Goes(events, r) <==> exists p :: 0 <= p < q && CallsWith(events, p, events[r].id, true)
  {
    var id, before := events[r].id, events[..r];
    if Goes(events, r) {
      var e :| e in before && e.Called? && IsIntrospection(e.call) && e.call.id.Some? && e.call.id.value == id;
      var p :| 0 <= p < |before| && before[p] == e;
      assert CallsWith(events, p, id, true);
    }
    if p :| 0 <= p < q && CallsWith(events, p, id, true) {
      assert before[p] == events[p] && before[p] in before;
      assert before[p].call.id.value in IntrospectionIds(before);
    }
  }

  lemma FilterHead(m: Message, rest: seq<Message>, skip: seq<string>)
    ensures FilterFrom([m] + rest, skip) == Cleaned(m, skip) + FilterFrom(rest, SkipsAfter(m, skip))
  {
    assert ([m] + rest)[0] == m && ([m] + rest)[1..] == rest;
  }

  /** A message that is just one tool call. */
  function Lone(id: string, name: string, body: string): Message {
    Message("assistant", None, Some([ToolCall(Some(id), Some(name), body)]), None, body)
  }

  lemma LoneCleaned(id: string, name: string, body: string, skip: seq<string>)
    ensures name in KERNEL_INTROSPECTION_TOOLS ==>
              Cleaned(Lone(id, name, body), skip) == [] && SkipsAfter(Lone(id, name, body), skip) == skip + [id]
    ensures name !in KERNEL_INTROSPECTION_TOOLS ==>
              Cleaned(Lone(id, name, body), skip) == [Lone(id, name, body)]
              && SkipsAfter(Lone(id, name, body), skip) == skip
  {
    hide KERNEL_INTROSPECTION_TOOLS;
    var call := ToolCall(Some(id), Some(name), body);
    assert [call][1..] == [] && Pick([], true) == [] && Pick([], false) == [] && IdsOf([]) == [];
    assert skip + [] == skip && IdsOf([call]) == [id];
  }

  /** With a reused id an ordinary call does lose its result. */
  lemma ReusedIdLosesResult(body: string)
    ensures var chat := [Lone("1", "list_nodes", body), Lone("1", "write_file", body),
                         Message("tool", Some("done"), None, Some("1"), body)];
            Filter(chat) == [chat[1]]
  {
    var a, b := Lone("1", "list_nodes", body), Lone("1", "write_file", body);
    var c := Message("tool", Some("done"), None, Some("1"), body);
    assert KERNEL_INTROSPECTION_TOOLS[2] == "list_nodes" && "write_file" !in KERNEL_INTROSPECTION_TOOLS;
    LoneCleaned("1", "list_nodes", body, []);
    LoneCleaned("1", "write_file", body, ["1"]);
    assert [] + ["1"] == ["1"] && Cleaned(c, ["1"]) == [];
    FilterHead(c, [], ["1"]);
    FilterHead(b, [c], ["1"]);
    FilterHead(a, [b, c], []);
    hide Cleaned, SkipsAfter;
    assert [c] + [] == [c] && [b] + [c] == [b, c] && [a] + [b, c] == [a, b, c];
    assert FilterFrom([], ["1"]) == [];
  }

  // --------------------------------------------------------------------- the filter loop

  lemma {:induction false} FilterAppend(a: seq<Message>, m: Message, skip: seq<string>)
    ensures FilterFrom(a + [m], skip) == FilterFrom(a, skip) + Cleaned(m, SkipsThrough(a, skip))
  {
    if a == [] {
      assert a + [m] == [m] && [m][1..] == [];
    } else {
      assert (a + [m])[0] == a[0] && (a + [m])[1..] == a[1..] + [m];
      FilterAppend(a[1..], m, SkipsAfter(a[0], skip));
    }
  }

  function SkipsThrough(a: seq<Message>, skip: seq<string>): seq<string> {
    if a == [] then skip else SkipsThrough(a[1..], SkipsAfter(a[0], skip))
  }

  lemma {:induction false} SkipsAppend(a: seq<Message>, m: Message, skip: seq<string>)
    ensures SkipsThrough(a + [m], skip) == SkipsAfter(m, SkipsThrough(a, skip))
  {
    if a == [] {
      assert a + [m] == [m] && [m][1..] == [];
    } else {
      assert (a + [m])[0] == a[0] && (a + [m])[1..] == a[1..] + [m];
      SkipsAppend(a[1..], m, SkipsAfter(a[0], skip));
    }
  }

  /** `filter_kernel_introspection_messages`: one pass over the chat. */
  method FilterKernelIntrospectionMessages(messages: seq<Message>) returns (out: seq<Message>)
    ensures out == Filter(messages)
  {
    var skipToolIds: seq<string> := [];
    out := [];
    for i := 0 to |messages|
      invariant out == FilterFrom(messages[..i], [])
      invariant skipToolIds == SkipsThrough(messages[..i], [])
    {
      var msg := messages[i];
      assert messages[..i + 1] == messages[..i] + [msg];
      FilterAppend(messages[..i], msg, []);
      SkipsAppend(messages[..i], msg, []);
      if msg.role == "assistant" {
        if msg.toolCalls.Some? && msg.toolCalls.value != [] {
          var kernelCalls := Pick(msg.toolCalls.value, true);
          var otherCalls := Pick(msg.toolCalls.value, false);
          if kernelCalls == [] {
            assert skipToolIds + IdsOf([]) == skipToolIds;
            out := out + [msg];
            continue;
          }
          skipToolIds := skipToolIds + IdsOf(kernelCalls);
          if otherCalls == [] {
            if !HasText(msg) {
              continue;
            }
            out := out + [msg.(toolCalls := None)];
            continue;
          }
          out := out + [msg.(toolCalls := Some(otherCalls))];
          continue;
        }
        out := out + [msg];
        continue;
      }
      if msg.role == "tool" && msg.toolCallId.Some? && msg.toolCallId.value in skipToolIds {
        continue;
      }
      out := out + [msg];
    }
    assert messages[..|messages|] == messages;
  }
}