/** `StateMachine::parse`: the body of the `statemachine!` macro is a
    comma-separated list of sections,
      transitions: { rule, rule, ... }
      states_attr: #[...] #[...]
    collected into a `StateMachine` builder whose `transitions` hold the
    explicit rules, `wildcards` the `_` rules and `statesAttrs` the state
    attributes, each in source order. A list ends at its end or at the first
    item not followed by a comma; where it stopped is returned. */
module Parser {
  import opened Syntax
  import opened RuleParser

  /** The contents of the builder, as a value. */
  datatype Machine = Machine(transitions: seq<Rule>, wildcards: seq<Rule>, statesAttrs: seq<string>)

  /** The builder `StateMachine`, which the parse loop fills in place. */
  class StateMachine {
    var transitions: seq<Rule>
    var wildcards: seq<Rule>
    var statesAttrs: seq<string>

    function Value(): Machine
      reads this
    {
      Machine(transitions, wildcards, statesAttrs)
    }

    /** `StateMachine::new`: all three lists empty. */
    constructor ()
      ensures Value() == Machine([], [], [])
    {
      transitions := [];
      wildcards := [];
      statesAttrs := [];
    }

    /** `add_transition`: pushes an explicit rule. */
    method AddTransition(t: Rule)
      modifies this
      ensures Value() == old(Value()).(transitions := old(transitions) + [t])
    {
      transitions := transitions + [t];
    }

    /** `add_wildcard`: pushes a `_` rule. */
    method AddWildcard(t: Rule)
      modifies this
      ensures Value() == old(Value()).(wildcards := old(wildcards) + [t])
    {
      wildcards := wildcards + [t];
    }

    /** `add_state_attrs`: extends the attributes, keeping their order. */
    method AddStateAttrs(attrs: seq<string>)
      modifies this
      ensures Value() == old(Value()).(statesAttrs := old(statesAttrs) + attrs)
    {
      statesAttrs := statesAttrs + attrs;
    }
  }

  // ---------------------------------------------------------------------
  // The explicit / wildcard split

  /** The explicit rules of `rs`, in order. */
  function Explicit(rs: seq<Rule>): seq<Rule> {
    if rs == [] then []
    else Explicit(rs[..|rs| - 1]) + (if rs[|rs| - 1].IsWildcard() then [] else [rs[|rs| - 1]])
  }

  /** The `_` rules of `rs`, in order. */
  function Wildcards(rs: seq<Rule>): seq<Rule> {
    if rs == [] then []
    else Wildcards(rs[..|rs| - 1]) + (if rs[|rs| - 1].IsWildcard() then [rs[|rs| - 1]] else [])
  }

  /** Both lists keep source order: splitting distributes over concatenation. */
  lemma {:induction false} SplitAppend(a: seq<Rule>, b: seq<Rule>)
    ensures Explicit(a + b) == Explicit(a) + Explicit(b)
    ensures Wildcards(a + b) == Wildcards(a) + Wildcards(b)
    decreases |b|
  {
    if b == [] {
      assert a + b == a;
    } else {
      var b' := b[..|b| - 1];
      assert (a + b)[..|a + b| - 1] == a + b';
      SplitAppend(a, b');
    }
  }

  /** Every rule goes to exactly one list: explicit rules to `transitions` and
      `_` rules to `wildcards`. */
  lemma {:induction false} SplitPartition(rs: seq<Rule>)
    ensures forall r :: r in Explicit(rs) <==> r in rs && !r.IsWildcard()
    ensures forall r :: r in Wildcards(rs) <==> r in rs && r.IsWildcard()
    decreases |rs|
  {
    if rs != [] {
      var init := rs[..|rs| - 1];
      SplitPartition(init);
      assert rs == init + [rs[|rs| - 1]];
    }
  }

  /** Nothing is lost and nothing added: together the two lists hold each
      rule as often as `rs` does. */
  lemma {:induction false} SplitCounts(rs: seq<Rule>)
    ensures multiset(Explicit(rs)) + multiset(Wildcards(rs)) == multiset(rs)
    decreases |rs|
  {
    if rs != [] {
      var init, last := rs[..|rs| - 1], rs[|rs| - 1];
      SplitCounts(init);
      assert rs == init + [last];
      assert multiset(rs) == multiset(init) + multiset{last};
      if last.IsWildcard() {
        assert Explicit(rs) == Explicit(init) && Wildcards(rs) == Wildcards(init) + [last];
      } else {
        assert Explicit(rs) == Explicit(init) + [last] && Wildcards(rs) == Wildcards(init);
      }
    }
  }

  // ---------------------------------------------------------------------
  // Sections

  datatype Section = Transitions(rules: seq<Rule>) | StatesAttr(attrs: seq<string>)

  /** `Attribute::parse_outer`: the longest run of outer attributes. */
  function OuterAttributes(toks: seq<Token>, pos: nat): (r: Parsed<seq<string>>)
    requires pos <= |toks|
    ensures pos <= r.next <= |toks| && |r.value| == r.next - pos
    ensures forall i :: pos <= i < r.next ==> toks[i] == Attr(r.value[i - pos])
    ensures r.next == |toks| || !toks[r.next].Attr?
    decreases |toks| - pos
  {
    if pos < |toks| && toks[pos].Attr? then
      var rest := OuterAttributes(toks, pos + 1);
      Parsed([toks[pos].text] + rest.value, rest.next)
    else
      Parsed([], pos)
  }

  // ---------------------------------------------------------------------
  // Comma-separated lists

  /** A reader of one list element, as `input.parse::<T>()`. */
  type Reader<T> = (seq<Token>, nat) --> Result<Parsed<T>, Error>

  /** `item` can read from any position of any token list, and what it reads
      ends further on. */
  ghost predicate Advances<T>(item: Reader<T>) {
    && (forall toks: seq<Token>, pos: nat | pos <= |toks| :: item.requires(toks, pos))
    && (forall toks: seq<Token>, pos: nat | pos <= |toks| && item.requires(toks, pos) && item(toks, pos).Ok? ::
          pos < item(toks, pos).value.next <= |toks|)
  }

  /** The elements `item` reads from `pos` on, after the elements `done`
      already read: an element, then either a comma and more elements, or
      the end of the list. This is the loop shape of both the rules of a
      `transitions` block and the sections of the macro body. */
  function Items<T>(item: Reader<T>, toks: seq<Token>, pos: nat, done: seq<T>): (r: Result<Parsed<seq<T>>, Error>)
    requires Advances(item) && pos <= |toks|
    ensures r.Ok? ==> pos <= r.value.next <= |toks|
    decreases |toks| - pos
  {
    if pos == |toks| then Ok(Parsed(done, pos))
    else
      match item(toks, pos)
      case Err(e) => Err(e)
      case Ok(p) =>
        if p.next < |toks| && toks[p.next] == Comma then Items(item, toks, p.next + 1, done + [p.value])
        else Ok(Parsed(done + [p.value], p.next))
  }

  /** One section: its keyword, a colon and its contents. `transitions:` not
      followed by a block contributes no rule. */
  function ParseSection(toks: seq<Token>, pos: nat): (r: Result<Parsed<Section>, Error>)
    requires pos <= |toks|
    ensures r.Ok? ==> pos < r.value.next <= |toks|
  {
    var keyword :- ParseIdent(toks, pos);
    if keyword.value == "transitions" then
      var colon :- Expect(toks, keyword.next, Colon, "`:`");
      if colon < |toks| && toks[colon].Brace? then
        var rules :- Items(ParseRule, toks[colon].body, 0, []);
        Ok(Parsed(Transitions(rules.value), colon + 1))
      else
        Ok(Parsed(Transitions([]), colon))
    else if keyword.value == "states_attr" then
      var colon :- Expect(toks, keyword.next, Colon, "`:`");
      var attrs := OuterAttributes(toks, colon);
      Ok(Parsed(StatesAttr(attrs.value), attrs.next))
    else
      Err(UnknownKeyword(keyword.value))
  }

  /** The rules of all `transitions` sections, in order. */
  function AllRules(ss: seq<Section>): seq<Rule> {
    if ss == [] then []
    else AllRules(ss[..|ss| - 1]) + (if ss[|ss| - 1].Transitions? then ss[|ss| - 1].rules else [])
  }

  /** The attributes of all `states_attr` sections, in order. */
  function AllAttrs(ss: seq<Section>): seq<string> {
    if ss == [] then []
    else AllAttrs(ss[..|ss| - 1]) + (if ss[|ss| - 1].StatesAttr? then ss[|ss| - 1].attrs else [])
  }

  /** The builder after one more section: its explicit rules pushed onto
      `transitions`, its `_` rules onto `wildcards`, its attributes onto
      `statesAttrs`. */
  function AddSection(m: Machine, s: Section): Machine {
    match s
    case Transitions(rs) => m.(transitions := m.transitions + Explicit(rs), wildcards := m.wildcards + Wildcards(rs))
    case StatesAttr(attrs) => m.(statesAttrs := m.statesAttrs + attrs)
  }

  /** The builder after adding every section in order to a new one. */
  function Collect(ss: seq<Section>): Machine {
    if ss == [] then Machine([], [], [])
    else AddSection(Collect(ss[..|ss| - 1]), ss[|ss| - 1])
  }

  /** The parsed machine holds exactly the explicit rules of all `transitions`
      sections and exactly their `_` rules, each in source order, and the
      attributes of all `states_attr` sections in order. */
  lemma {:induction false} CollectSplit(ss: seq<Section>)
    ensures Collect(ss) == Machine(Explicit(AllRules(ss)), Wildcards(AllRules(ss)), AllAttrs(ss))
    decreases |ss|
  {
    if ss != [] {
      var init := ss[..|ss| - 1];
      CollectSplit(init);
      SplitAppend(AllRules(init), if ss[|ss| - 1].Transitions? then ss[|ss| - 1].rules else []);
    }
  }

  /** What `StateMachine::parse` produces from the macro body, with the
      position where it stopped. */
  function ParseModel(toks: seq<Token>): Result<Parsed<Machine>, Error> {
    var ss :- Items(ParseSection, toks, 0, []);
    Ok(Parsed(Collect(ss.value), ss.next))
  }

  // ---------------------------------------------------------------------
  // Properties of the lists

  /** After an element, a comma continues the list. */
  lemma ItemsContinue<T>(item: Reader<T>, toks: seq<Token>, pos: nat, done: seq<T>, x: T, next: nat)
    requires Advances(item) && pos < |toks| && item(toks, pos) == Ok(Parsed(x, next))
    requires next < |toks| && toks[next] == Comma
    ensures Items(item, toks, pos, done) == Items(item, toks, next + 1, done + [x])
  {
  }

  /** An element not followed by a comma is the last of the list, whether
      the tokens end there or not. */
  lemma MissingCommaEnds<T>(item: Reader<T>, toks: seq<Token>, pos: nat, done: seq<T>, x: T, next: nat)
    requires Advances(item) && pos < |toks| && item(toks, pos) == Ok(Parsed(x, next))
    requires next == |toks| || toks[next] != Comma
    ensures Items(item, toks, pos, done) == Ok(Parsed(done + [x], next))
  {
  }

  /** A comma after the last element is accepted. */
  lemma TrailingComma<T>(item: Reader<T>, toks: seq<Token>, pos: nat, done: seq<T>, x: T)
    requires Advances(item) && pos < |toks| && item(toks, pos) == Ok(Parsed(x, |toks| - 1))
    requires toks[|toks| - 1] == Comma
    ensures Items(item, toks, pos, done) == Ok(Parsed(done + [x], |toks|))
  {
    ItemsContinue(item, toks, pos, done, x, |toks| - 1);
  }

  /** A failing element fails the whole list. */
  lemma ItemFails<T>(item: Reader<T>, toks: seq<Token>, pos: nat, done: seq<T>)
    requires Advances(item) && pos < |toks| && item(toks, pos).Err?
    ensures Items(item, toks, pos, done) == Err(item(toks, pos).error)
  {
  }

  /** The elements already read are kept, in order, in front of those read
      next. */
  lemma {:induction false} ItemsKeepDone<T>(item: Reader<T>, toks: seq<Token>, pos: nat, done: seq<T>)
    requires Advances(item) && pos <= |toks| && Items(item, toks, pos, done).Ok?
    ensures |done| <= |Items(item, toks, pos, done).value.value|
    ensures Items(item, toks, pos, done).value.value[..|done|] == done
    decreases |toks| - pos
  {
    if pos < |toks| {
      var p := item(toks, pos).value;
      if p.next < |toks| && toks[p.next] == Comma {
        ItemsKeepDone(item, toks, p.next + 1, done + [p.value]);
        assert (done + [p.value])[..|done|] == done;
      }
    }
  }

  /** A keyword other than `transitions` and `states_attr` fails the whole
      parse, and the message names it. */
  lemma UnknownKeywordFails(toks: seq<Token>, pos: nat, done: seq<Section>, k: string)
    requires pos < |toks| && toks[pos] == Ident(k) && k != "transitions" && k != "states_attr"
    ensures Items(ParseSection, toks, pos, done) == Err(UnknownKeyword(k))
    ensures var msg := Message(Items(ParseSection, toks, pos, done).error); msg[16..16 + |k|] == k
  {
  }

  /** `transitions:` not followed by a block is an empty section: the builder
      is left as it was. */
  lemma TransitionsWithoutBlock(toks: seq<Token>, pos: nat, m: Machine)
    requires pos + 2 <= |toks| && toks[pos] == Ident("transitions") && toks[pos + 1] == Colon
    requires pos + 2 == |toks| || !toks[pos + 2].Brace?
    ensures ParseSection(toks, pos) == Ok(Parsed(Transitions([]), pos + 2))
    ensures AddSection(m, Transitions([])) == m
  {
    assert Explicit([]) == [] && Wildcards([]) == [];
  }

  // ---------------------------------------------------------------------
  // The parse loops

  /** Files a parsed rule: a `_` rule as a wildcard, any other as an explicit
      transition. */
  method AddRule(sm: StateMachine, rule: Rule)
    modifies sm
    ensures sm.transitions == old(sm.transitions) + Explicit([rule])
    ensures sm.wildcards == old(sm.wildcards) + Wildcards([rule])
    ensures sm.statesAttrs == old(sm.statesAttrs)
  {
    if rule.IsWildcard() {
      sm.AddWildcard(rule);
    } else {
      sm.AddTransition(rule);
    }
  }

  /** The inner loop of `StateMachine::parse` over the rules of one
      `transitions` block: each rule is pushed as it is read. The rule
      reader is a parameter; the section loop passes `ParseRule`. */
  method ParseTransitions(sm: StateMachine, body: seq<Token>, item: Reader<Rule>) returns (r: Result<nat, Error>)
    requires Advances(item)
    modifies sm
    ensures sm.statesAttrs == old(sm.statesAttrs)
    ensures r.Ok? <==> Items(item, body, 0, []).Ok?
    ensures r.Ok? ==>
      var p := Items(item, body, 0, []).value;
      && r.value == p.next
      && sm.transitions == old(sm.transitions) + Explicit(p.value)
      && sm.wildcards == old(sm.wildcards) + Wildcards(p.value)
    ensures r.Err? ==> r.error == Items(item, body, 0, []).error
  {
    var pos := 0;
    ghost var done: seq<Rule> := [];
    ghost var whole := Items(item, body, 0, []);
    while pos < |body|
      invariant pos <= |body|
      invariant whole == Items(item, body, pos, done)
      invariant sm.transitions == old(sm.transitions) + Explicit(done)
      invariant sm.wildcards == old(sm.wildcards) + Wildcards(done)
      invariant sm.statesAttrs == old(sm.statesAttrs)
      decreases |body| - pos
    {
      var parsed := item(body, pos);
      if parsed.Err? {
        return Err(parsed.error);
      }
      var rule := parsed.value;
      AddRule(sm, rule.value);
      SplitAppend(done, [rule.value]);
      done := done + [rule.value];
      // No comma after the rule: the list ends here.
      if rule.next == |body| || body[rule.next] != Comma {
        return Ok(rule.next);
      }
      pos := rule.next + 1;
    }
    return Ok(pos);
  }

  /** One pass of the section loop of `StateMachine::parse`: the keyword,
      the colon, and the section's contents added to the builder. */
  method ParseSectionInto(sm: StateMachine, toks: seq<Token>, pos: nat) returns (r: Result<nat, Error>)
    requires pos <= |toks|
    modifies sm
    ensures r.Ok? <==> ParseSection(toks, pos).Ok?
    ensures r.Ok? ==> r.value == ParseSection(toks, pos).value.next
                      && sm.Value() == AddSection(old(sm.Value()), ParseSection(toks, pos).value.value)
    ensures r.Err? ==> r.error == ParseSection(toks, pos).error
  {
    var keyword :- ParseIdent(toks, pos);
    if keyword.value == "transitions" {
      var colon :- Expect(toks, keyword.next, Colon, "`:`");
      if colon < |toks| && toks[colon].Brace? {
        var stop :- ParseTransitions(sm, toks[colon].body, ParseRule);
        return Ok(colon + 1);
      }
      assert Explicit([]) == [] && Wildcards([]) == [];
      return Ok(colon);
    } else if keyword.value == "states_attr" {
      var colon :- Expect(toks, keyword.next, Colon, "`:`");
      var attrs := OuterAttributes(toks, colon);
      sm.AddStateAttrs(attrs.value);
      return Ok(attrs.next);
    } else {
      return Err(UnknownKeyword(keyword.value));
    }
  }

  /** `StateMachine::parse`: a new builder filled section by section. */
  method ParseStateMachine(toks: seq<Token>) returns (r: Result<Parsed<StateMachine>, Error>)
    ensures r.Ok? <==> ParseModel(toks).Ok?
    ensures r.Ok? ==> fresh(r.value.value) && r.value.value.Value() == ParseModel(toks).value.value
                      && r.value.next == ParseModel(toks).value.next
    ensures r.Err? ==> r.error == ParseModel(toks).error
  {
    var sm := new StateMachine();
    var next :- ParseSectionsInto(sm, toks, ParseSection);
    CollectSplit([]);
    return Ok(Parsed(sm, next));
  }

  /** The section loop of `StateMachine::parse`. The loop calls
      `ParseSectionInto` itself; `item` is a ghost stand-in for
      `ParseSection` that keeps the section grammar out of the loop's
      proof. */
  method ParseSectionsInto(sm: StateMachine, toks: seq<Token>, ghost item: Reader<Section>) returns (r: Result<nat, Error>)
    requires Advances(item)
    requires forall t: seq<Token>, p: nat {:trigger ParseSection(t, p)} | p <= |t| :: item(t, p) == ParseSection(t, p)
    requires sm.Value() == Machine([], [], [])
    modifies sm
    ensures r.Ok? <==> Items(item, toks, 0, []).Ok?
    ensures r.Ok? ==> r.value == Items(item, toks, 0, []).value.next
                      && sm.Value() == Collect(Items(item, toks, 0, []).value.value)
    ensures r.Err? ==> r.error == Items(item, toks, 0, []).error
  {
    var pos := 0;
    ghost var done: seq<Section> := [];
    ghost var whole := Items(item, toks, 0, []);
    while pos < |toks|
      invariant pos <= |toks|
      invariant whole == Items(item, toks, pos, done)
      invariant sm.Value() == Collect(done)
      decreases |toks| - pos
    {
      ghost var section := ParseSection(toks, pos);
      var next :- ParseSectionInto(sm, toks, pos);
      assert (done + [section.value.value])[..|done|] == done;
      done := done + [section.value.value];
      // No comma after the section: the body ends here.
      if next == |toks| || toks[next] != Comma {
        return Ok(next);
      }
      pos := next + 1;
    }
    return Ok(pos);
  }
}
