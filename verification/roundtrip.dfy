/** The parse of a whole `transitions: { ... }` body, proved by printing a
    rule list back: every well-formed rule list, printed with a comma after
    each rule, parses into a builder holding its explicit rules and its `_`
    rules, each in source order. This lifts the rule-level round trip
    `RuleParser.ParseUnparse` to the comma-separated list of
    `StateMachine::parse` and to the builder it fills. */
module RoundTrip {
  import opened Syntax
  import opened RuleParser
  import opened Parser

  /** Elements printed by `show`, each followed by a comma (the list parser
      accepts the trailing comma). */
  function CommaList<T>(show: T -> seq<Token>, xs: seq<T>): seq<Token> {
    if xs == [] then [] else show(xs[0]) + [Comma] + CommaList(show, xs[1..])
  }

  /** Rules printed back, each followed by a comma. */
  function UnparseRules(rs: seq<Rule>): seq<Token> {
    CommaList(Unparse, rs)
  }

  /** From `pos` on, `item` reads the elements of `xs` one after the other,
      each followed by a comma, up to the end of the tokens. */
  ghost predicate ReadsAll<T>(item: Reader<T>, toks: seq<Token>, pos: nat, xs: seq<T>)
    requires Advances(item)
    decreases |xs|
  {
    if xs == [] then pos == |toks|
    else
      && pos <= |toks| && item(toks, pos).Ok?
      && var p := item(toks, pos).value;
      && p.value == xs[0] && p.next < |toks| && toks[p.next] == Comma
      && ReadsAll(item, toks, p.next + 1, xs[1..])
  }

  /** The list parser collects what `item` reads one after the other. */
  lemma {:induction false} ItemsReadAll<T>(item: Reader<T>, xs: seq<T>, toks: seq<Token>, pos: nat, done: seq<T>)
    requires Advances(item) && pos <= |toks| && ReadsAll(item, toks, pos, xs)
    ensures Items(item, toks, pos, done) == Ok(Parsed(done + xs, |toks|))
    decreases |xs|
  {
    if xs == [] {
      assert done + xs == done;
    } else {
      var p := item(toks, pos).value;
      ItemsContinue(item, toks, pos, done, xs[0], p.next);
      ItemsReadAll(item, xs[1..], toks, p.next + 1, done + [xs[0]]);
      ConsAppend(done, xs);
    }
  }

  /** Moving the head of `xs` onto `done`. */
  lemma ConsAppend<T>(done: seq<T>, xs: seq<T>)
    requires xs != []
    ensures done + [xs[0]] + xs[1..] == done + xs
  {
    assert xs == [xs[0]] + xs[1..];
  }

  /** `ParseUnparse` where a comma follows the rule. */
  lemma ParseUnparseBeforeComma(r: Rule, toks: seq<Token>, pos: nat, rest: seq<Token>)
    requires WellFormed(r) && pos <= |toks| && toks[pos..] == Unparse(r) + [Comma] + rest
    ensures ParseRule(toks, pos) == Ok(Parsed(r, pos + |Unparse(r)|))
  {
    assert Unparse(r) + [Comma] + rest == Unparse(r) + ([Comma] + rest);
    ParseUnparse(r, toks, pos, [Comma] + rest);
  }

  /** One more element read in front of a list `item` reads all of. */
  lemma ReadsOne<T>(item: Reader<T>, toks: seq<Token>, pos: nat, x: T, next: nat, xs: seq<T>)
    requires Advances(item) && pos <= |toks|
    requires item(toks, pos) == Ok(Parsed(x, next)) && next < |toks| && toks[next] == Comma
    requires ReadsAll(item, toks, next + 1, xs)
    ensures ReadsAll(item, toks, pos, [x] + xs)
  {
    assert ([x] + xs)[1..] == xs;
  }

  /** `item` reads `x` back wherever its printed form stands before a comma. */
  ghost predicate ReadsBack<T>(item: Reader<T>, show: T -> seq<Token>, x: T)
    requires Advances(item)
  {
    forall toks: seq<Token>, pos: nat {:trigger item(toks, pos)}
      | pos + |show(x)| < |toks| && toks[pos..pos + |show(x)|] == show(x) && toks[pos + |show(x)|] == Comma
      :: item(toks, pos) == Ok(Parsed(x, pos + |show(x)|))
  }

  /** `ParseRule` reads a well-formed rule back before a comma. */
  lemma ParseRuleReadsBack(r: Rule)
    requires WellFormed(r)
    ensures ReadsBack(ParseRule, Unparse, r)
  {
    forall toks: seq<Token>, pos: nat
      | pos + |Unparse(r)| < |toks| && toks[pos..pos + |Unparse(r)|] == Unparse(r) && toks[pos + |Unparse(r)|] == Comma
      ensures ParseRule(toks, pos) == Ok(Parsed(r, pos + |Unparse(r)|))
    {
      var rest := CommaThen(toks, pos, Unparse(r));
      ParseUnparseBeforeComma(r, toks, pos, rest);
    }
  }

  /** What follows `printed` and a comma at `pos`. */
  lemma CommaThen(toks: seq<Token>, pos: nat, printed: seq<Token>) returns (rest: seq<Token>)
    requires pos + |printed| < |toks| && toks[pos..pos + |printed|] == printed && toks[pos + |printed|] == Comma
    ensures toks[pos..] == printed + [Comma] + rest
  {
    var n := pos + |printed|;
    rest := toks[n + 1..];
    assert toks[pos..] == toks[pos..n] + [toks[n]] + toks[n + 1..];
  }

  /** `item` reads back every element of `xs`. */
  ghost predicate AllReadBack<T>(item: Reader<T>, show: T -> seq<Token>, xs: seq<T>)
    requires Advances(item)
    decreases |xs|
  {
    xs != [] ==> ReadsBack(item, show, xs[0]) && AllReadBack(item, show, xs[1..])
  }

  /** `ReadsBack` applied at `pos`, with where the comma and the rest stand. */
  lemma ReadBackAt<T>(item: Reader<T>, show: T -> seq<Token>, x: T, toks: seq<Token>, pos: nat, rest: seq<Token>)
    requires Advances(item) && ReadsBack(item, show, x)
    requires pos <= |toks| && toks[pos..] == show(x) + [Comma] + rest
    ensures item(toks, pos) == Ok(Parsed(x, pos + |show(x)|))
    ensures pos + |show(x)| < |toks| && toks[pos + |show(x)|] == Comma && toks[pos + |show(x)| + 1..] == rest
  {
    var n := pos + |show(x)|;
    assert toks[pos..][..|show(x)|] == toks[pos..n];
    assert toks[pos..][|show(x)|] == toks[n];
    assert toks[pos..][|show(x)| + 1..] == toks[n + 1..];
  }

  /** A reader that reads each element back reads a printed list back whole. */
  lemma {:induction false} ListReadsAll<T>(item: Reader<T>, show: T -> seq<Token>, xs: seq<T>, toks: seq<Token>, pos: nat)
    requires Advances(item) && AllReadBack(item, show, xs)
    requires pos <= |toks| && toks[pos..] == CommaList(show, xs)
    ensures ReadsAll(item, toks, pos, xs)
    decreases |xs|
  {
    if xs != [] {
      var x := xs[0];
      var next := pos + |show(x)|;
      ReadBackAt(item, show, x, toks, pos, CommaList(show, xs[1..]));
      ListReadsAll(item, show, xs[1..], toks, next + 1);
      ReadsOne(item, toks, pos, x, next, xs[1..]);
      assert [x] + xs[1..] == xs;
    } else {
      assert |toks[pos..]| == 0;
    }
  }

  /** `ParseRule` reads back every rule of a well-formed list. */
  lemma {:induction false} ParseRuleReadsAll(rs: seq<Rule>)
    requires forall i | 0 <= i < |rs| :: WellFormed(rs[i])
    ensures AllReadBack(ParseRule, Unparse, rs)
    decreases |rs|
  {
    if rs != [] {
      ParseRuleReadsBack(rs[0]);
      ParseRuleReadsAll(rs[1..]);
    }
  }

  /** A printed rule list reads back to the same rules, up to its end. */
  lemma ParseUnparseRules(rs: seq<Rule>)
    requires forall i | 0 <= i < |rs| :: WellFormed(rs[i])
    ensures Items(ParseRule, UnparseRules(rs), 0, []) == Ok(Parsed(rs, |UnparseRules(rs)|))
  {
    ParseRuleReadsAll(rs);
    ListReadsAll(ParseRule, Unparse, rs, UnparseRules(rs), 0);
    ItemsReadAll(ParseRule, rs, UnparseRules(rs), 0, []);
    assert [] + rs == rs;
  }

  /** The body of a machine whose only section is a `transitions` block. */
  function TransitionsBody(rs: seq<Rule>, comma: bool): seq<Token> {
    [Ident("transitions"), Colon, Brace(UnparseRules(rs))] + (if comma then [Comma] else [])
  }

  /** A body made of one `transitions` section, with or without a comma
      after it, parses to a builder whose explicit list holds the rules
      with an in-state and whose wildcard list the rest, in order, and no
      state attributes. */
  lemma ParseUnparseBody(rs: seq<Rule>, comma: bool)
    requires forall i | 0 <= i < |rs| :: WellFormed(rs[i])
    ensures ParseModel(TransitionsBody(rs, comma)) == Ok(Parsed(Machine(Explicit(rs), Wildcards(rs), []), |TransitionsBody(rs, comma)|))
  {
    var toks := TransitionsBody(rs, comma);
    ParseUnparseRules(rs);
    assert ParseSection(toks, 0) == Ok(Parsed(Transitions(rs), 3));
    if comma {
      ItemsContinue(ParseSection, toks, 0, [], Transitions(rs), 3);
    } else {
      MissingCommaEnds(ParseSection, toks, 0, [], Transitions(rs), 3);
    }
    assert [] + [Transitions(rs)] == [Transitions(rs)];
    assert Collect([Transitions(rs)]) == AddSection(Machine([], [], []), Transitions(rs));
    assert Machine([], [], []).transitions + Explicit(rs) == Explicit(rs);
    assert Machine([], [], []).wildcards + Wildcards(rs) == Wildcards(rs);
  }

  /** `StateMachine::parse` on a printed `transitions` body: the builder it
      fills splits the rules into explicit and `_` rules, in order. */
  method ParseTransitionsBody(rs: seq<Rule>) returns (sm: StateMachine)
    requires forall i | 0 <= i < |rs| :: WellFormed(rs[i])
    ensures sm.Value() == Machine(Explicit(rs), Wildcards(rs), [])
  {
    ParseUnparseBody(rs, false);
    var parsed := ParseStateMachine(TransitionsBody(rs, false));
    sm := parsed.value.value;
  }
}
