/** `ParsedStateMachine::new`: checks that exactly one explicit rule carries
    the start marker `*`, then builds the state registry (every state the
    rules mention, with its payload type) and, for every state that has
    explicit rules, the ordered list of rules the runtime tries from it:
    its explicit rules in source order followed by every wildcard. */
module Model {
  import opened Syntax
  import opened Parser

  /** The checked model handed to the code generator. */
  datatype ParsedStateMachine = ParsedStateMachine(
    startingState: Variant,
    states: map<string, Variant>,
    mapping: map<string, seq<Rule>>,
    statesAttrs: seq<string>)

  // ---------------------------------------------------------------------
  // The start marker

  /** `num_start`: how many of the rules carry the start marker. */
  function NumStart(ts: seq<Rule>): (n: nat)
    ensures n <= |ts|
  {
    if ts == [] then 0
    else NumStart(ts[..|ts| - 1]) + (if ts[|ts| - 1].start then 1 else 0)
  }

  /** No start is counted exactly when no rule is marked. */
  lemma {:induction false} NumStartZero(ts: seq<Rule>)
    ensures NumStart(ts) == 0 <==> forall i | 0 <= i < |ts| :: !ts[i].start
  {
    if ts != [] {
      var init := ts[..|ts| - 1];
      NumStartZero(init);
      assert forall i | 0 <= i < |init| :: init[i] == ts[i];
    }
  }

  /** Two marked rules count at least twice. */
  lemma {:induction false} NumStartTwo(ts: seq<Rule>, a: nat, b: nat)
    requires a < b < |ts| && ts[a].start && ts[b].start
    ensures NumStart(ts) >= 2
  {
    var init := ts[..|ts| - 1];
    if b < |ts| - 1 {
      assert init[a] == ts[a] && init[b] == ts[b];
      NumStartTwo(init, a, b);
    } else {
      assert init[a] == ts[a];
      NumStartZero(init);
    }
  }

  /** With a count of one, the marked rule is unique. */
  lemma NumStartOne(ts: seq<Rule>, a: nat, b: nat)
    requires NumStart(ts) == 1 && a < |ts| && b < |ts| && ts[a].start && ts[b].start
    ensures a == b
  {
    if a < b {
      NumStartTwo(ts, a, b);
    } else if b < a {
      NumStartTwo(ts, b, a);
    }
  }

  /** A start marker on a `_` rule is not counted: the parser files the rule
      as a wildcard, out of the list whose markers are counted. */
  lemma WildcardStartIgnored(rs: seq<Rule>, w: Rule)
    requires w.IsWildcard()
    ensures NumStart(Explicit(rs + [w])) == NumStart(Explicit(rs))
  {
    SplitAppend(rs, [w]);
    assert Explicit([w]) == [];
    assert Explicit(rs) + [] == Explicit(rs);
  }

  // ---------------------------------------------------------------------
  // The reference view of the registry and the dispatch lists

  predicate Declares(r: Rule, s: string) {
    r.inState.Some? && r.inState.value.name == s
  }

  /** The names declared as input states. */
  function InNames(ts: seq<Rule>): set<string> {
    if ts == [] then {}
    else
      var last := ts[|ts| - 1];
      InNames(ts[..|ts| - 1]) + (if last.inState.Some? then {last.inState.value.name} else {})
  }

  /** The names used as output states. */
  function OutNames(rs: seq<Rule>): set<string> {
    if rs == [] then {} else OutNames(rs[..|rs| - 1]) + {rs[|rs| - 1].outState}
  }

  /** The unit variant registered for a state seen only as an output. */
  function Unit(s: string): Variant {
    Variant(s, None)
  }

  /** What the registry holds for `s`: its last input declaration among `ts`,
      or the unit variant when it is never declared. */
  function StateDecl(ts: seq<Rule>, s: string): Variant {
    if ts == [] then Unit(s)
    else if Declares(ts[|ts| - 1], s) then ts[|ts| - 1].inState.value
    else StateDecl(ts[..|ts| - 1], s)
  }

  /** The rules of `ts` declared from state `s`, in source order. */
  function RulesFrom(ts: seq<Rule>, s: string): seq<Rule> {
    if ts == [] then []
    else RulesFrom(ts[..|ts| - 1], s) + (if Declares(ts[|ts| - 1], s) then [ts[|ts| - 1]] else [])
  }

  /** How each view grows when one rule is appended. */
  lemma AppendRule(ts: seq<Rule>, t: Rule)
    ensures NumStart(ts + [t]) == NumStart(ts) + (if t.start then 1 else 0)
    ensures InNames(ts + [t]) == InNames(ts) + (if t.inState.Some? then {t.inState.value.name} else {})
    ensures OutNames(ts + [t]) == OutNames(ts) + {t.outState}
    ensures forall s :: RulesFrom(ts + [t], s) == RulesFrom(ts, s) + (if Declares(t, s) then [t] else [])
    ensures forall s :: StateDecl(ts + [t], s) == if Declares(t, s) then t.inState.value else StateDecl(ts, s)
  {
    assert (ts + [t])[..|ts|] == ts;
  }

  lemma {:induction false} InNamesDeclared(ts: seq<Rule>, s: string)
    ensures s in InNames(ts) <==> exists i | 0 <= i < |ts| :: Declares(ts[i], s)
  {
    if ts != [] {
      var init := ts[..|ts| - 1];
      InNamesDeclared(init, s);
      assert forall i | 0 <= i < |init| :: init[i] == ts[i];
      if s in InNames(ts) && s !in InNames(init) {
        assert Declares(ts[|ts| - 1], s);
      }
    }
  }

  lemma {:induction false} OutNamesUsed(rs: seq<Rule>, s: string)
    ensures s in OutNames(rs) <==> exists i | 0 <= i < |rs| :: rs[i].outState == s
  {
    if rs != [] {
      var init := rs[..|rs| - 1];
      OutNamesUsed(init, s);
      assert forall i | 0 <= i < |init| :: init[i] == rs[i];
    }
  }

  /** A state never declared as an input is registered as a unit variant. */
  lemma {:induction false} UndeclaredIsUnit(ts: seq<Rule>, s: string)
    requires s !in InNames(ts)
    ensures StateDecl(ts, s) == Unit(s)
  {
    if ts != [] {
      UndeclaredIsUnit(ts[..|ts| - 1], s);
    }
  }

  /** The last declaration wins: a rule declaring `s` that no later rule
      redeclares decides the registry entry. */
  lemma {:induction false} LastDeclarationWins(ts: seq<Rule>, s: string, i: nat)
    requires i < |ts| && Declares(ts[i], s)
    requires forall j | i < j < |ts| :: !Declares(ts[j], s)
    ensures StateDecl(ts, s) == ts[i].inState.value
  {
    if i < |ts| - 1 {
      var init := ts[..|ts| - 1];
      assert init[i] == ts[i];
      assert forall j | i < j < |init| :: init[j] == ts[j];
      LastDeclarationWins(init, s, i);
    }
  }

  /** The registry entry of a state is named after it. */
  lemma {:induction false} StateDeclName(ts: seq<Rule>, s: string)
    ensures StateDecl(ts, s).name == s
  {
    if ts != [] && !Declares(ts[|ts| - 1], s) {
      StateDeclName(ts[..|ts| - 1], s);
    }
  }

  /** Every rule of a dispatch list starts from that state, and every rule
      declared from the state is in it. */
  lemma {:induction false} RulesFromMembers(ts: seq<Rule>, s: string, r: Rule)
    ensures r in RulesFrom(ts, s) <==> r in ts && Declares(r, s)
  {
    if ts != [] {
      var init := ts[..|ts| - 1];
      RulesFromMembers(init, s, r);
      assert ts == init + [ts[|ts| - 1]];
    }
  }

  // ---------------------------------------------------------------------
  // The builder

  /** The `add_out_state` closure: registers an output state as a unit
      variant unless the state is already known. */
  function WithOutState(states: map<string, Variant>, t: Rule): (r: map<string, Variant>)
    ensures r.Keys == states.Keys + {t.outState}
    ensures forall s | s in states :: r[s] == states[s]
    ensures t.outState !in states ==> r[t.outState] == Unit(t.outState)
  {
    if t.outState in states then states else states[t.outState := Unit(t.outState)]
  }

  /** One explicit rule keeps the registry equal to its reference view. */
  lemma RegisterStatesStep(pre: seq<Rule>, t: Rule, states: map<string, Variant>)
    requires t.inState.Some?
    requires states.Keys == InNames(pre) + OutNames(pre)
    requires forall s | s in states :: states[s] == StateDecl(pre, s)
    ensures var v := t.inState.value; var st := WithOutState(states[v.name := v], t);
      && st.Keys == InNames(pre + [t]) + OutNames(pre + [t])
      && forall s | s in st :: st[s] == StateDecl(pre + [t], s)
  {
    var v := t.inState.value;
    assert (pre + [t])[..|pre|] == pre;
    if t.outState !in states && t.outState != v.name {
      UndeclaredIsUnit(pre + [t], t.outState);
    }
  }

  /** One explicit rule keeps the dispatch lists equal to their reference
      view. */
  lemma RegisterMappingStep(pre: seq<Rule>, t: Rule, mapping: map<string, seq<Rule>>)
    requires t.inState.Some?
    requires mapping.Keys == InNames(pre)
    requires forall s | s in mapping :: mapping[s] == RulesFrom(pre, s)
    ensures var n := t.inState.value.name;
      var mp := mapping[n := (if n in mapping then mapping[n] else []) + [t]];
      && mp.Keys == InNames(pre + [t])
      && forall s | s in mp :: mp[s] == RulesFrom(pre + [t], s)
  {
    var n := t.inState.value.name;
    assert (pre + [t])[..|pre|] == pre;
    if n !in mapping {
      UndeclaredRulesFrom(pre, n);
    }
  }

  /** A state never declared as an input has no rules. */
  lemma {:induction false} UndeclaredRulesFrom(ts: seq<Rule>, s: string)
    requires s !in InNames(ts)
    ensures RulesFrom(ts, s) == []
  {
    if ts != [] {
      UndeclaredRulesFrom(ts[..|ts| - 1], s);
    }
  }

  /** The loop over the explicit rules: every input state is (re)declared,
      the rule is pushed onto its state's list, and the output state is
      registered. */
  method RegisterTransitions(ts: seq<Rule>) returns (states: map<string, Variant>, mapping: map<string, seq<Rule>>)
    requires forall i | 0 <= i < |ts| :: !ts[i].IsWildcard()
    ensures states.Keys == InNames(ts) + OutNames(ts)
    ensures forall s | s in states :: states[s] == StateDecl(ts, s)
    ensures mapping.Keys == InNames(ts)
    ensures forall s | s in mapping :: mapping[s] == RulesFrom(ts, s)
  {
    states := map[];
    mapping := map[];
    var i := 0;
    while i < |ts|
      invariant i <= |ts|
      invariant states.Keys == InNames(ts[..i]) + OutNames(ts[..i])
      invariant forall s | s in states :: states[s] == StateDecl(ts[..i], s)
      invariant mapping.Keys == InNames(ts[..i])
      invariant forall s | s in mapping :: mapping[s] == RulesFrom(ts[..i], s)
    {
      var t := ts[i];
      var state := t.inState.value;
      RegisterStatesStep(ts[..i], t, states);
      RegisterMappingStep(ts[..i], t, mapping);
      assert ts[..i + 1] == ts[..i] + [t];
      states := states[state.name := state];
      if state.name !in mapping {
        mapping := mapping[state.name := []];
      }
      mapping := mapping[state.name := mapping[state.name] + [t]];
      states := WithOutState(states, t);
      i := i + 1;
    }
    assert ts[..i] == ts;
  }

  /** The inner loop over the dispatch lists: pushes the wildcard onto every
      list. */
  method AppendToAll(mapping: map<string, seq<Rule>>, wc: Rule) returns (r: map<string, seq<Rule>>)
    ensures r.Keys == mapping.Keys
    ensures forall s | s in r :: r[s] == mapping[s] + [wc]
  {
    r := mapping;
    var todo := mapping.Keys;
    while todo != {}
      invariant todo <= mapping.Keys && r.Keys == mapping.Keys
      invariant forall s | s in r :: r[s] == mapping[s] + (if s in todo then [] else [wc])
      decreases todo
    {
      var s :| s in todo;
      r := r[s := r[s] + [wc]];
      todo := todo - {s};
    }
  }

  /** The loop over the wildcards: each is appended to every dispatch list
      and its output state registered. */
  method AddWildcards(states0: map<string, Variant>, mapping0: map<string, seq<Rule>>, ws: seq<Rule>)
    returns (states: map<string, Variant>, mapping: map<string, seq<Rule>>)
    ensures states.Keys == states0.Keys + OutNames(ws)
    ensures forall s | s in states0 :: states[s] == states0[s]
    ensures forall s | s in states && s !in states0 :: states[s] == Unit(s)
    ensures mapping.Keys == mapping0.Keys
    ensures forall s | s in mapping :: mapping[s] == mapping0[s] + ws
  {
    states, mapping := states0, mapping0;
    var j := 0;
    while j < |ws|
      invariant j <= |ws|
      invariant states.Keys == states0.Keys + OutNames(ws[..j])
      invariant forall s | s in states0 :: states[s] == states0[s]
      invariant forall s | s in states && s !in states0 :: states[s] == Unit(s)
      invariant mapping.Keys == mapping0.Keys
      invariant forall s | s in mapping :: mapping[s] == mapping0[s] + ws[..j]
    {
      assert ws[..j + 1][..j] == ws[..j];
      assert ws[..j + 1] == ws[..j] + [ws[j]];
      mapping := AppendToAll(mapping, ws[j]);
      states := WithOutState(states, ws[j]);
      j := j + 1;
    }
    assert ws[..j] == ws;
  }

  /** `ParsedStateMachine::new`. */
  method Build(sm: StateMachine) returns (r: Result<ParsedStateMachine, Error>)
    requires forall i | 0 <= i < |sm.transitions| :: !sm.transitions[i].IsWildcard()
    ensures r == Err(NoStartingState) <==> NumStart(sm.transitions) == 0
    ensures r == Err(MultipleStartingStates) <==> NumStart(sm.transitions) > 1
    ensures r.Ok? <==> NumStart(sm.transitions) == 1
    ensures r.Ok? ==>
      var ts, m := sm.transitions, r.value;
      && (forall i | 0 <= i < |ts| && ts[i].start :: ts[i].inState == Some(m.startingState))
      && m.states.Keys == InNames(ts) + OutNames(ts) + OutNames(sm.wildcards)
      && (forall s | s in m.states :: m.states[s] == StateDecl(ts, s))
      && m.mapping.Keys == InNames(ts)
      && (forall s | s in m.mapping :: m.mapping[s] == RulesFrom(ts, s) + sm.wildcards)
      && m.statesAttrs == sm.statesAttrs
  {
    var ts := sm.transitions;
    var numStart := NumStart(ts);
    if numStart == 0 {
      return Err(NoStartingState);
    } else if numStart > 1 {
      return Err(MultipleStartingStates);
    }
    // The `find` of the marked rule.
    NumStartZero(ts);
    ghost var w :| 0 <= w < |ts| && ts[w].start;
    var k := 0;
    while !ts[k].start
      invariant k <= w
      decreases w - k
    {
      k := k + 1;
    }
    forall i | 0 <= i < |ts| && ts[i].start
      ensures ts[i] == ts[k]
    {
      NumStartOne(ts, i, k);
    }
    var startingState := ts[k].inState.value;
    var states, mapping := RegisterTransitions(ts);
    ghost var registered := states;
    states, mapping := AddWildcards(states, mapping, sm.wildcards);
    forall s | s in states
      ensures states[s] == StateDecl(ts, s)
    {
      if s !in registered {
        UndeclaredIsUnit(ts, s);
      }
    }
    return Ok(ParsedStateMachine(startingState, states, mapping, sm.statesAttrs));
  }
}
