/** The crate's examples run through the model: rules filed into the builder
    as the parser files them, the model built, and events processed by the
    generated state machine. Rust fragments are opaque `Code` tokens; what
    they mean is fixed by `Meaning` below. */
module Scenarios {
  import opened Syntax
  import opened RuleParser
  import opened Parser
  import opened Model
  import opened Runtime
  import opened RoundTrip

  /** Event and state payloads used by the examples. */
  datatype Data = Button(index: int, down: bool) | StateData(n: int)

  const Index1: Fragment := [Code("MyEventData { index: 1, down: false }")]
  const Index42: Fragment := [Code("MyEventData { index: 42, down: false }")]
  const GuardOk: Fragment := [Code("ctx.guard()")]
  const GuardFail: Fragment := [Code("ctx.guard_fail()")]
  const Count: Token := Code("ctx.action();")
  const Count1: Token := Code("ctx.count_transition1();")
  const Count2: Token := Code("ctx.count_transition2();")
  const Action1: Token := Code("ctx.action1();")
  const Action2: Token := Code("ctx.action2();")
  const DataType: Fragment := [Ident("MyStateData")]
  const Data42: Fragment := [Code("MyStateData(42)")]

  /** What the examples' fragments do: the two button patterns match their
      payloads, `ctx.guard()` holds and `ctx.guard_fail()` does not, every
      action increments a counter context, and `MyStateData(42)` evaluates
      to its payload. */
  function Meaning(): Semantics<int, Data> {
    Semantics(
      (p, d) => (p == Index1 && d == Some(Button(1, false))) || (p == Index42 && d == Some(Button(42, false))),
      (g, e, s, c) => g == GuardOk,
      (a, e, s, c) => c + 1,
      (x, e, s, c) => StateData(42))
  }

  function Unit(name: string): States<Data> {
    States(name, None)
  }

  function Signal(name: string): Events<Data> {
    Events(name, None)
  }

  /** A rule `[*]from + event = to` with no optional part. */
  function Simple(start: bool, from: string, event: string, to: string): Rule {
    Rule(start, event, None, Some(Variant(from, None)), to, None, None, None)
  }

  /** The views of a three-rule list, rule by rule. */
  lemma ThreeRules(a: Rule, b: Rule, c: Rule, s: string)
    ensures NumStart([a, b, c]) == NumStart([a]) + NumStart([b]) + NumStart([c])
    ensures InNames([a, b, c]) == InNames([a]) + InNames([b]) + InNames([c])
    ensures RulesFrom([a, b, c], s) == RulesFrom([a], s) + RulesFrom([b], s) + RulesFrom([c], s)
  {
    assert [a, b, c][..2] == [a, b] && [a, b][..1] == [a] && [a][..0] == [];
    assert RulesFrom([], s) + RulesFrom([a], s) == RulesFrom([a], s);
  }

  /** The rules filed one by one into a fresh builder, and the model built
      from it. */
  method BuildExplicit(ts: seq<Rule>) returns (model: ParsedStateMachine)
    requires NumStart(ts) == 1 && forall i | 0 <= i < |ts| :: !ts[i].IsWildcard()
    ensures forall i | 0 <= i < |ts| && ts[i].start :: ts[i].inState == Some(model.startingState)
    ensures model.states.Keys == InNames(ts) + OutNames(ts)
    ensures model.mapping.Keys == InNames(ts)
    ensures forall s | s in model.mapping :: model.mapping[s] == RulesFrom(ts, s)
  {
    var builder := new Parser.StateMachine();
    for i := 0 to |ts|
      invariant builder.Value() == Machine(ts[..i], [], [])
    {
      builder.AddTransition(ts[i]);
      assert ts[..i + 1] == ts[..i] + [ts[i]];
    }
    assert ts[..|ts|] == ts;
    var built := Build(builder);
    model := built.value;
    forall s | s in model.mapping ensures model.mapping[s] == RulesFrom(ts, s) {
      assert RulesFrom(ts, s) + [] == RulesFrom(ts, s);
    }
  }

  // ---------------------------------------------------------------------
  // examples/ex2.rs: a loop between State2 and State3

  const Loop1 := Simple(true, "State1", "Event1", "State2")
  const Loop2 := Simple(false, "State2", "Event2", "State3")
  const Loop3 := Simple(false, "State3", "Event3", "State2")

  /** The rule list's views: one marked rule, three sources, one rule each. */
  lemma LoopViews()
    ensures var ts := [Loop1, Loop2, Loop3];
      && NumStart(ts) == 1 && InNames(ts) == {"State1", "State2", "State3"}
      && RulesFrom(ts, "State1") == [Loop1] && RulesFrom(ts, "State2") == [Loop2]
      && RulesFrom(ts, "State3") == [Loop3]
  {
    ThreeRules(Loop1, Loop2, Loop3, "State1");
    ThreeRules(Loop1, Loop2, Loop3, "State2");
    ThreeRules(Loop1, Loop2, Loop3, "State3");
    assert [Loop1] + [] + [] == [Loop1] && [] + [Loop2] + [] == [Loop2] && [] + [] + [Loop3] == [Loop3];
  }

  method BuildLoop() returns (model: ParsedStateMachine)
    ensures model.startingState == Variant("State1", None)
    ensures model.mapping.Keys == {"State1", "State2", "State3"}
    ensures model.mapping["State1"] == [Loop1] && model.mapping["State2"] == [Loop2]
    ensures model.mapping["State3"] == [Loop3]
  {
    LoopViews();
    model := BuildExplicit([Loop1, Loop2, Loop3]);
    assert [Loop1, Loop2, Loop3][0].start;
  }

  /** `Event1, Event2, Event3, Event2, Event3` from `State1` visit
      `State2, State3, State2, State3, State2`. */
  method RunLoop(sm: Runtime.StateMachine<int, Data>) returns (seen: seq<Result<States<Data>, DispatchError>>)
    requires sm.model.mapping.Keys == {"State1", "State2", "State3"}
    requires sm.model.mapping["State1"] == [Loop1] && sm.model.mapping["State2"] == [Loop2]
    requires sm.model.mapping["State3"] == [Loop3]
    requires sm.state == Unit("State1")
    modifies sm
    ensures seen == [Ok(Unit("State2")), Ok(Unit("State3")), Ok(Unit("State2")), Ok(Unit("State3")), Ok(Unit("State2"))]
    ensures sm.state == Unit("State2")
  {
    var r1 := sm.ProcessEvent(Signal("Event1"));
    var r2 := sm.ProcessEvent(Signal("Event2"));
    var r3 := sm.ProcessEvent(Signal("Event3"));
    var r4 := sm.ProcessEvent(Signal("Event2"));
    var r5 := sm.ProcessEvent(Signal("Event3"));
    seen := [r1, r2, r3, r4, r5];
  }

  /** After the loop, `Event1` is no longer accepted and the state stays. */
  method Ex2() returns (seen: seq<Result<States<Data>, DispatchError>>, last: Result<States<Data>, DispatchError>,
                        state: States<Data>)
    ensures seen == [Ok(Unit("State2")), Ok(Unit("State3")), Ok(Unit("State2")), Ok(Unit("State3")), Ok(Unit("State2"))]
    ensures last == Err(InvalidEvent) && state == Unit("State2")
  {
    var model := BuildLoop();
    var sm := new Runtime.StateMachine.New(model, Meaning(), 0);
    seen := RunLoop(sm);
    last := sm.ProcessEvent(Signal("Event1"));
    state := sm.state;
  }

  // ---------------------------------------------------------------------
  // examples/ex1.rs: an output-only state refuses every event; its two
  // rules are the first two of ex2

  /** The rule list's views: one marked rule, two sources, and `State3` a
      target only. */
  lemma Ex1Views()
    ensures var ts := [Loop1, Loop2];
      && NumStart(ts) == 1 && InNames(ts) == {"State1", "State2"} && "State3" in OutNames(ts)
      && RulesFrom(ts, "State1") == [Loop1] && RulesFrom(ts, "State2") == [Loop2]
  {
    AppendRule([], Loop1);
    AppendRule([Loop1], Loop2);
    assert [] + [Loop1] == [Loop1] && [Loop1] + [Loop2] == [Loop1, Loop2];
  }

  /** `State3` is registered as a state but gets no dispatch list. */
  method BuildEx1() returns (model: ParsedStateMachine)
    ensures model.startingState == Variant("State1", None)
    ensures model.mapping.Keys == {"State1", "State2"}
    ensures model.mapping["State1"] == [Loop1] && model.mapping["State2"] == [Loop2]
    ensures "State3" in model.states
  {
    Ex1Views();
    model := BuildExplicit([Loop1, Loop2]);
    assert [Loop1, Loop2][0].start;
  }

  /** `State3` has no dispatch list: after reaching it both events are
      refused and the state stays. */
  method RunEx1(sm: Runtime.StateMachine<int, Data>) returns (seen: seq<Result<States<Data>, DispatchError>>)
    requires sm.model.mapping.Keys == {"State1", "State2"}
    requires sm.model.mapping["State1"] == [Loop1] && sm.model.mapping["State2"] == [Loop2]
    requires sm.state == Unit("State1")
    modifies sm
    ensures seen == [Ok(Unit("State2")), Ok(Unit("State3")), Err(InvalidEvent), Err(InvalidEvent)]
    ensures sm.state == Unit("State3")
  {
    var r1 := sm.ProcessEvent(Signal("Event1"));
    var r2 := sm.ProcessEvent(Signal("Event2"));
    var r3 := sm.ProcessEvent(Signal("Event1"));
    var r4 := sm.ProcessEvent(Signal("Event2"));
    seen := [r1, r2, r3, r4];
  }

  /** The machine starts in `State1` and gets stuck in `State3`. */
  method Ex1() returns (first: States<Data>, seen: seq<Result<States<Data>, DispatchError>>, last: States<Data>)
    ensures first == Unit("State1")
    ensures seen == [Ok(Unit("State2")), Ok(Unit("State3")), Err(InvalidEvent), Err(InvalidEvent)]
    ensures last == Unit("State3")
  {
    var model := BuildEx1();
    var sm := new Runtime.StateMachine.New(model, Meaning(), 0);
    first := sm.State();
    seen := RunEx1(sm);
    last := sm.State();
  }

  // ---------------------------------------------------------------------
  // examples/context.rs: a refused event runs no action

  const Counted1 := Rule(true, "Event1", None, Some(Variant("State1", None)), "State2", None, None, Some(Count1))
  const Counted2 := Rule(false, "Event2", None, Some(Variant("State2", None)), "State1", None, None, Some(Count2))

  lemma CountViews()
    ensures var ts := [Counted1, Counted2];
      && NumStart(ts) == 1 && InNames(ts) == {"State1", "State2"}
      && RulesFrom(ts, "State1") == [Counted1] && RulesFrom(ts, "State2") == [Counted2]
  {
    AppendRule([], Counted1);
    AppendRule([Counted1], Counted2);
    assert [] + [Counted1] == [Counted1] && [Counted1] + [Counted2] == [Counted1, Counted2];
  }

  method BuildCounts() returns (model: ParsedStateMachine)
    ensures model.startingState == Variant("State1", None)
    ensures model.mapping.Keys == {"State1", "State2"}
    ensures model.mapping["State1"] == [Counted1] && model.mapping["State2"] == [Counted2]
  {
    CountViews();
    model := BuildExplicit([Counted1, Counted2]);
    assert [Counted1, Counted2][0].start;
  }

  /** `Event1, Event1, Event2` from `State1`: the second `Event1` is refused
      and does not count, so the counter ends at 2. */
  method RunCounts(sm: Runtime.StateMachine<int, Data>) returns (ok: seq<bool>, count: int)
    requires sm.sem == Meaning() && sm.model.mapping.Keys == {"State1", "State2"}
    requires sm.model.mapping["State1"] == [Counted1] && sm.model.mapping["State2"] == [Counted2]
    requires sm.state == Unit("State1") && sm.context == 0
    modifies sm
    ensures ok == [true, false, true] && count == 2
  {
    var r1 := sm.ProcessEvent(Signal("Event1"));
    assert sm.state == Unit("State2") && sm.context == 1;
    var r2 := sm.ProcessEvent(Signal("Event1"));
    assert sm.state == Unit("State2") && sm.context == 1;
    var r3 := sm.ProcessEvent(Signal("Event2"));
    ok, count := [r1.Ok?, r2.Ok?, r3.Ok?], sm.context;
  }

  /** A counter context starting at 0 ends at 2. */
  method CountTransitions() returns (ok: seq<bool>, count: int)
    ensures ok == [true, false, true] && count == 2
  {
    var model := BuildCounts();
    var sm := new Runtime.StateMachine.New(model, Meaning(), 0);
    ok, count := RunCounts(sm);
  }

  // ---------------------------------------------------------------------
  // tests/compile-fail/no_starting_state.rs

  /** No rule carries `*`: building fails with the exact message. */
  method NoStart() returns (r: Result<ParsedStateMachine, Error>)
    ensures r == Err(NoStartingState)
    ensures Message(r.error) == "No starting state defined, indicate the starting state with a *."
  {
    var builder := new Parser.StateMachine();
    builder.AddTransition(Simple(false, "State1", "Event1", "State2"));
    builder.AddTransition(Simple(false, "State2", "Event2", "State3"));
    AppendRule([], Simple(false, "State1", "Event1", "State2"));
    assert [] + [Simple(false, "State1", "Event1", "State2")] == [Simple(false, "State1", "Event1", "State2")];
    AppendRule([Simple(false, "State1", "Event1", "State2")], Simple(false, "State2", "Event2", "State3"));
    r := Build(builder);
  }

  // ---------------------------------------------------------------------
  // examples/event_patterns.rs: the payload selects the rule

  const Pattern1 := Rule(true, "Event1", Some(Index1), Some(Variant("State1", None)), "State3", None, None, None)
  const Pattern42 := Rule(false, "Event1", Some(Index42), Some(Variant("State1", None)), "State2", None, None, None)

  lemma PatternViews()
    ensures var ts := [Pattern1, Pattern42];
      && NumStart(ts) == 1 && InNames(ts) == {"State1"} && RulesFrom(ts, "State1") == [Pattern1, Pattern42]
  {
    AppendRule([], Pattern1);
    AppendRule([Pattern1], Pattern42);
    assert [] + [Pattern1] == [Pattern1] && [Pattern1] + [Pattern42] == [Pattern1, Pattern42];
  }

  /** Both rules leave `State1`, in source order. */
  method BuildPatterns() returns (model: ParsedStateMachine)
    ensures model.startingState == Variant("State1", None)
    ensures model.mapping.Keys == {"State1"} && model.mapping["State1"] == [Pattern1, Pattern42]
  {
    PatternViews();
    model := BuildExplicit([Pattern1, Pattern42]);
    assert [Pattern1, Pattern42][0].start;
  }

  /** Payloads `{1, true}` and `{2084, false}` match no pattern; `{1, false}`
      matches the first rule's. */
  method RunPatterns(sm: Runtime.StateMachine<int, Data>) returns (a: Result<States<Data>, DispatchError>,
                                                                   b: Result<States<Data>, DispatchError>,
                                                                   c: Result<States<Data>, DispatchError>)
    requires sm.sem == Meaning() && "State1" in sm.model.mapping
    requires sm.model.mapping["State1"] == [Pattern1, Pattern42] && sm.state == Unit("State1")
    modifies sm
    ensures a == Err(InvalidEvent) && b == Err(InvalidEvent) && c == Ok(Unit("State3"))
  {
    a := sm.ProcessEvent(Events("Event1", Some(Button(1, true))));
    b := sm.ProcessEvent(Events("Event1", Some(Button(2084, false))));
    c := sm.ProcessEvent(Events("Event1", Some(Button(1, false))));
  }

  method EventPatterns() returns (a: Result<States<Data>, DispatchError>, b: Result<States<Data>, DispatchError>,
                                  c: Result<States<Data>, DispatchError>)
    ensures a == Err(InvalidEvent) && b == Err(InvalidEvent) && c == Ok(Unit("State3"))
  {
    var model := BuildPatterns();
    var sm := new Runtime.StateMachine.New(model, Meaning(), 0);
    a, b, c := RunPatterns(sm);
  }

  // ---------------------------------------------------------------------
  // examples/state_with_data.rs: the target carries data

  const WithData1 := Rule(true, "Event1", None, Some(Variant("State1", None)), "State2", Some(Data42), None, None)
  const WithData2 := Rule(false, "Event2", None, Some(Variant("State2", Some(DataType))), "State1", None, None, None)

  /** The rule list's views: `State2` is declared with its payload type, and
      `State1` has the one rule. */
  lemma WithDataViews()
    ensures var ts := [WithData1, WithData2];
      && NumStart(ts) == 1 && StateDecl(ts, "State2") == Variant("State2", Some(DataType))
      && "State2" in InNames(ts) && RulesFrom(ts, "State1") == [WithData1]
  {
    AppendRule([], WithData1);
    AppendRule([WithData1], WithData2);
    assert [] + [WithData1] == [WithData1] && [WithData1] + [WithData2] == [WithData1, WithData2];
  }

  /** `State2` is registered with its payload type, and `State1` has the
      one rule. */
  method BuildWithData() returns (model: ParsedStateMachine)
    ensures model.startingState == Variant("State1", None)
    ensures "State2" in model.states && model.states["State2"] == Variant("State2", Some(DataType))
    ensures "State1" in model.mapping && model.mapping["State1"] == [WithData1]
  {
    var builder := new Parser.StateMachine();
    builder.AddTransition(WithData1);
    builder.AddTransition(WithData2);
    assert builder.transitions == [WithData1, WithData2];
    WithDataViews();
    var built := Build(builder);
    model := built.value;
    assert builder.transitions[0].start;
  }

  /** `Event1` moves to `State2(MyStateData(42))`. */
  method StateWithData() returns (registered: Variant, r: Result<States<Data>, DispatchError>)
    ensures registered == Variant("State2", Some(DataType))
    ensures r == Ok(States("State2", Some(StateData(42))))
  {
    var model := BuildWithData();
    registered := model.states["State2"];
    var sm := new Runtime.StateMachine.New(model, Meaning(), 0);
    r := sm.ProcessEvent(Signal("Event1"));
  }

  // ---------------------------------------------------------------------
  // examples/reuse_action.rs: one action on two rules

  const Reuse1 := Rule(true, "Event1", None, Some(Variant("State1", None)), "State2", None, None, Some(Count))
  const Reuse2 := Rule(false, "Event2", None, Some(Variant("State1", None)), "State3", None, None, Some(Count))
  const Reuse3 := Simple(false, "State2", "Event2", "State1")

  lemma ReuseViews()
    ensures var ts := [Reuse1, Reuse2, Reuse3];
      && NumStart(ts) == 1 && InNames(ts) == {"State1", "State2"}
      && RulesFrom(ts, "State1") == [Reuse1, Reuse2] && RulesFrom(ts, "State2") == [Reuse3]
  {
    ThreeRules(Reuse1, Reuse2, Reuse3, "State1");
    ThreeRules(Reuse1, Reuse2, Reuse3, "State2");
    assert [Reuse1] + [Reuse2] + [] == [Reuse1, Reuse2] && [] + [] + [Reuse3] == [Reuse3];
  }

  method BuildReuse() returns (model: ParsedStateMachine)
    ensures model.startingState == Variant("State1", None)
    ensures model.mapping.Keys == {"State1", "State2"}
    ensures model.mapping["State1"] == [Reuse1, Reuse2] && model.mapping["State2"] == [Reuse3]
  {
    ReuseViews();
    model := BuildExplicit([Reuse1, Reuse2, Reuse3]);
    assert [Reuse1, Reuse2, Reuse3][0].start;
  }

  /** The action runs on the first and third transitions only: the counter
      reads 1, 1, 2. */
  method RunReuse(sm: Runtime.StateMachine<int, Data>) returns (states: seq<Result<States<Data>, DispatchError>>,
                                                                   counts: seq<int>)
    requires sm.sem == Meaning() && sm.model.mapping.Keys == {"State1", "State2"}
    requires sm.model.mapping["State1"] == [Reuse1, Reuse2] && sm.model.mapping["State2"] == [Reuse3]
    requires sm.state == Unit("State1") && sm.context == 0
    modifies sm
    ensures states == [Ok(Unit("State2")), Ok(Unit("State1")), Ok(Unit("State3"))]
    ensures counts == [1, 1, 2]
  {
    var r1 := sm.ProcessEvent(Signal("Event1"));
    assert r1 == Ok(Unit("State2")) && sm.context == 1;
    var c1 := sm.context;
    var r2 := sm.ProcessEvent(Signal("Event2"));
    assert r2 == Ok(Unit("State1")) && sm.context == 1;
    var c2 := sm.context;
    assert sm.state == Unit("State1");
    assert !Fires(Meaning(), Reuse1, Signal("Event2"), None, 1);
    assert FirstFiring(Meaning(), [Reuse1, Reuse2], Signal("Event2"), None, 1, 0) == Some(1);
    var r3 := sm.ProcessEvent(Signal("Event2"));
    assert r3 == Ok(Unit("State3"));
    states, counts := [r1, r2, r3], [c1, c2, sm.context];
  }

  method ReuseAction() returns (states: seq<Result<States<Data>, DispatchError>>, counts: seq<int>)
    ensures states == [Ok(Unit("State2")), Ok(Unit("State1")), Ok(Unit("State3"))]
    ensures counts == [1, 1, 2]
  {
    var model := BuildReuse();
    var sm := new Runtime.StateMachine.New(model, Meaning(), 0);
    states, counts := RunReuse(sm);
  }

  // ---------------------------------------------------------------------
  // examples/ex3.rs: a failing guard, a wildcard, an output-only state

  const Guarded1 := Rule(true, "Event1", None, Some(Variant("State1", None)), "State2", None, Some(GuardOk), Some(Action1))
  const Guarded2 := Rule(false, "Event2", None, Some(Variant("State2", None)), "State3", None, Some(GuardFail), Some(Action2))
  const Guarded3 := Simple(false, "State2", "Event3", "State5")
  const Anywhere4 := Rule(false, "Event4", None, None, "State4", None, None, None)

  /** The guard of `Event1` holds and its action runs; the guard of `Event2`
      fails, so nothing runs and the state stays; the wildcard takes `Event4`
      to `State4`, which has no rules of its own, so `Event4` is then
      refused there. */
  method RunGuards(sm: Runtime.StateMachine<int, Data>) returns (states: seq<Result<States<Data>, DispatchError>>,
                                                              counts: seq<int>)
    requires sm.sem == Meaning() && sm.model.mapping.Keys == {"State1", "State2"}
    requires sm.model.mapping["State1"] == [Guarded1, Anywhere4]
    requires sm.model.mapping["State2"] == [Guarded2, Guarded3, Anywhere4]
    requires sm.state == Unit("State1") && sm.context == 0
    modifies sm
    ensures states == [Ok(Unit("State2")), Err(InvalidEvent), Ok(Unit("State4")), Err(InvalidEvent)]
    ensures counts == [1, 1, 1, 1]
  {
    var r1 := sm.ProcessEvent(Signal("Event1"));
    assert sm.state == Unit("State2") && sm.context == 1;
    var c1 := sm.context;
    assert !Fires(Meaning(), Guarded2, Signal("Event2"), None, 1) by {
      assert Meaning().guard(GuardFail, Signal("Event2"), None, 1) == (GuardFail == GuardOk);
    }
    assert FirstFiring(Meaning(), [Guarded2, Guarded3, Anywhere4], Signal("Event2"), None, 1, 0) == None;
    var r2 := sm.ProcessEvent(Signal("Event2"));
    assert sm.state == Unit("State2") && sm.context == 1;
    var c2 := sm.context;
    RejectedArmSkipped(Meaning(), [Guarded2, Guarded3, Anywhere4], Signal("Event4"), None, 1, 0);
    RejectedArmSkipped(Meaning(), [Guarded2, Guarded3, Anywhere4], Signal("Event4"), None, 1, 1);
    var r3 := sm.ProcessEvent(Signal("Event4"));
    assert sm.state == Unit("State4");
    var c3 := sm.context;
    var r4 := sm.ProcessEvent(Signal("Event4"));
    states, counts := [r1, r2, r3, r4], [c1, c2, c3, sm.context];
  }

  /** The rule lists' views: one marked rule, two sources, and the
      wildcard's target. */
  lemma GuardViews()
    ensures var ts := [Guarded1, Guarded2, Guarded3];
      && NumStart(ts) == 1 && InNames(ts) == {"State1", "State2"}
      && RulesFrom(ts, "State1") == [Guarded1] && RulesFrom(ts, "State2") == [Guarded2, Guarded3]
      && "State4" in OutNames([Anywhere4])
  {
    ThreeRules(Guarded1, Guarded2, Guarded3, "State1");
    ThreeRules(Guarded1, Guarded2, Guarded3, "State2");
    assert [Guarded1] + [] + [] == [Guarded1] && [] + [Guarded2] + [Guarded3] == [Guarded2, Guarded3];
    AppendRule([], Anywhere4);
    assert [] + [Anywhere4] == [Anywhere4];
  }

  /** The four rules, printed and parsed back: the wildcard goes to the
      builder's wildcard list, the others stay in order. */
  method ParseGuards() returns (builder: Parser.StateMachine)
    ensures builder.transitions == [Guarded1, Guarded2, Guarded3] && builder.wildcards == [Anywhere4]
    ensures builder.statesAttrs == []
  {
    var rs := [Guarded1, Guarded2, Guarded3, Anywhere4];
    assert WellFormed(Guarded1) && WellFormed(Guarded2) && WellFormed(Guarded3) && WellFormed(Anywhere4);
    SplitAppend([Guarded1, Guarded2, Guarded3], [Anywhere4]);
    SplitAppend([Guarded1, Guarded2], [Guarded3]);
    SplitAppend([Guarded1], [Guarded2]);
    assert [Guarded1, Guarded2, Guarded3] + [Anywhere4] == rs;
    assert [Guarded1, Guarded2] + [Guarded3] == [Guarded1, Guarded2, Guarded3];
    assert [Guarded1] + [Guarded2] == [Guarded1, Guarded2];
    builder := ParseTransitionsBody(rs);
  }

  /** The builder files the wildcard after each state's explicit rules. */
  method BuildGuards() returns (model: ParsedStateMachine)
    ensures model.startingState == Variant("State1", None)
    ensures model.mapping.Keys == {"State1", "State2"}
    ensures model.mapping["State1"] == [Guarded1, Anywhere4]
    ensures model.mapping["State2"] == [Guarded2, Guarded3, Anywhere4]
    ensures "State4" in model.states && "State4" !in model.mapping
  {
    var builder := ParseGuards();
    GuardViews();
    var built := Build(builder);
    model := built.value;
    assert builder.transitions[0].start;
  }

  method Ex3() returns (states: seq<Result<States<Data>, DispatchError>>, counts: seq<int>)
    ensures states == [Ok(Unit("State2")), Err(InvalidEvent), Ok(Unit("State4")), Err(InvalidEvent)]
    ensures counts == [1, 1, 1, 1]
  {
    var model := BuildGuards();
    var sm := new Runtime.StateMachine.New(model, Meaning(), 0);
    states, counts := RunGuards(sm);
  }
}
