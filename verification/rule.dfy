/** `StateTransition::parse`: one rule of the DSL,
      [*] (Variant | _) + Event [(pattern)] [[guard]] [/ action] = Out [(expr)]
    read from a token cursor. Every step either consumes exactly the tokens of
    its part or fails, so a parsed rule can be printed back to the very tokens
    it was read from (`Unparse`), and those tokens parse to it again. */
module RuleParser {
  import opened Syntax

  /** `input.parse::<Token![t]>()`: consume `t` or fail. */
  function Expect(toks: seq<Token>, pos: nat, t: Token, what: string): (r: Result<nat, Error>)
    ensures r.Ok? <==> pos < |toks| && toks[pos] == t
    ensures r.Ok? ==> r.value == pos + 1
    ensures r.Err? ==> r.error == Expected(what)
  {
    if pos < |toks| && toks[pos] == t then Ok(pos + 1) else Err(Expected(what))
  }

  /** `input.parse::<Ident>()`. */
  function ParseIdent(toks: seq<Token>, pos: nat): (r: Result<Parsed<string>, Error>)
    ensures r.Ok? <==> pos < |toks| && toks[pos].Ident?
    ensures r.Ok? ==> r.value == Parsed(toks[pos].name, pos + 1)
  {
    if pos < |toks| && toks[pos].Ident? then Ok(Parsed(toks[pos].name, pos + 1))
    else Err(Expected("identifier"))
  }

  /** The input state: a `Variant` (a name, then an optional parenthesised
      payload type), else the wildcard `_`, else a failure. */
  function ParseInState(toks: seq<Token>, pos: nat): (r: Result<Parsed<Option<Variant>>, Error>)
    requires pos <= |toks|
    ensures r.Ok? ==> pos < r.value.next <= |toks|
  {
    if pos < |toks| && toks[pos].Ident? then
      if pos + 1 < |toks| && toks[pos + 1].Paren? then
        Ok(Parsed(Some(Variant(toks[pos].name, Some(toks[pos + 1].body))), pos + 2))
      else
        Ok(Parsed(Some(Variant(toks[pos].name, None)), pos + 1))
    else if pos < |toks| && toks[pos] == Underscore then
      Ok(Parsed(None, pos + 1))
    else
      Err(Expected("underscore"))
  }

  datatype Delimiter = Parenthesis | Bracketed

  predicate IsGroup(t: Token, d: Delimiter) {
    match d
    case Parenthesis => t.Paren?
    case Bracketed => t.Bracket?
  }

  /** An optional pattern, guard or expression: when the next token is a group
      of the given kind, its body is taken whole; an empty body fails, as `syn`
      finds no pattern or expression in it. */
  function OptionalGroup(toks: seq<Token>, pos: nat, d: Delimiter, what: string)
    : (r: Result<Parsed<Option<Fragment>>, Error>)
    requires pos <= |toks|
    ensures r.Ok? ==> r.value.next <= |toks|
    ensures r.Ok? && r.value.value.None? ==> r.value.next == pos && (pos == |toks| || !IsGroup(toks[pos], d))
    ensures r.Ok? && r.value.value.Some? ==>
      r.value.next == pos + 1 && IsGroup(toks[pos], d) && toks[pos].body == r.value.value.value != []
  {
    if pos < |toks| && IsGroup(toks[pos], d) then
      if toks[pos].body == [] then Err(Expected(what))
      else Ok(Parsed(Some(toks[pos].body), pos + 1))
    else Ok(Parsed(None, pos))
  }

  /** A statement: one opaque statement or a block. */
  predicate IsStatement(t: Token) {
    t.Code? || t.Brace?
  }

  /** An optional action: `/` followed by a statement. */
  function OptionalAction(toks: seq<Token>, pos: nat): (r: Result<Parsed<Option<Token>>, Error>)
    requires pos <= |toks|
    ensures r.Ok? ==> r.value.next <= |toks|
    ensures r.Ok? && r.value.value.None? ==> r.value.next == pos && (pos == |toks| || toks[pos] != Slash)
    ensures r.Ok? && r.value.value.Some? ==>
      r.value.next == pos + 2 && toks[pos] == Slash && toks[pos + 1] == r.value.value.value &&
      IsStatement(r.value.value.value)
  {
    if pos < |toks| && toks[pos] == Slash then
      if pos + 1 < |toks| && IsStatement(toks[pos + 1]) then Ok(Parsed(Some(toks[pos + 1]), pos + 2))
      else Err(Expected("statement"))
    else Ok(Parsed(None, pos))
  }

  /** The part of a rule before its options: `[*] (Variant | _) + Event`. */
  datatype Head = Head(start: bool, inState: Option<Variant>, event: string)

  /** The optional parts between the event and `=`. */
  datatype Options = Options(pattern: Option<Fragment>, guard: Option<Fragment>, action: Option<Token>)

  /** The part after `=`: the output state and its optional data expression. */
  datatype Tail = Tail(outState: string, data: Option<Fragment>)

  function ParseHead(toks: seq<Token>, pos: nat): (r: Result<Parsed<Head>, Error>)
    requires pos <= |toks|
    ensures r.Ok? ==> pos < r.value.next <= |toks|
  {
    var start := pos < |toks| && toks[pos] == Star;
    var i0 := if start then pos + 1 else pos;
    var inState :- ParseInState(toks, i0);
    var afterPlus :- Expect(toks, inState.next, Plus, "`+`");
    var event :- ParseIdent(toks, afterPlus);
    var h := Head(start, inState.value, event.value);
    Ok(Parsed(h, event.next))
  }

  function ParseOptions(toks: seq<Token>, pos: nat): (r: Result<Parsed<Options>, Error>)
    requires pos <= |toks|
    ensures r.Ok? ==> pos <= r.value.next <= |toks|
  {
    var pattern :- OptionalGroup(toks, pos, Parenthesis, "pattern");
    var guard :- OptionalGroup(toks, pattern.next, Bracketed, "expression");
    var action :- OptionalAction(toks, guard.next);
    var o := Options(pattern.value, guard.value, action.value);
    Ok(Parsed(o, action.next))
  }

  function ParseTail(toks: seq<Token>, pos: nat): (r: Result<Parsed<Tail>, Error>)
    requires pos <= |toks|
    ensures r.Ok? ==> pos < r.value.next <= |toks|
  {
    var afterEq :- Expect(toks, pos, Eq, "`=`");
    var out :- ParseIdent(toks, afterEq);
    var data :- OptionalGroup(toks, out.next, Parenthesis, "expression");
    var t := Tail(out.value, data.value);
    Ok(Parsed(t, data.next))
  }

  /** What follows the head of a rule: its options, then its target. */
  function ParseRest(toks: seq<Token>, pos: nat): (r: Result<Parsed<(Options, Tail)>, Error>)
    requires pos <= |toks|
    ensures r.Ok? ==> pos < r.value.next <= |toks|
  {
    var options :- ParseOptions(toks, pos);
    var tail :- ParseTail(toks, options.next);
    Ok(Parsed((options.value, tail.value), tail.next))
  }

  /** One rule starting at `pos` (`StateTransition::parse`). */
  function ParseRule(toks: seq<Token>, pos: nat): (r: Result<Parsed<Rule>, Error>)
    requires pos <= |toks|
    ensures r.Ok? ==> pos < r.value.next <= |toks|
  {
    var head :- ParseHead(toks, pos);
    var rest :- ParseRest(toks, head.next);
    Ok(Parsed(Assemble(head.value, rest.value.0, rest.value.1), rest.next))
  }

  function Assemble(h: Head, o: Options, t: Tail): Rule {
    Rule(h.start, h.event, o.pattern, h.inState, t.outState, t.data, o.guard, o.action)
  }

  // ----- printing a rule back to tokens -----

  function UnparseGroup(f: Option<Fragment>, d: Delimiter): seq<Token> {
    match f
    case None => []
    case Some(body) => [if d == Parenthesis then Paren(body) else Bracket(body)]
  }

  function UnparseAction(a: Option<Token>): seq<Token> {
    match a
    case None => []
    case Some(stmt) => [Slash, stmt]
  }

  function UnparseInState(s: Option<Variant>): seq<Token> {
    match s
    case None => [Underscore]
    case Some(Variant(name, None)) => [Ident(name)]
    case Some(Variant(name, Some(ty))) => [Ident(name), Paren(ty)]
  }

  function UnparseHead(h: Head): seq<Token> {
    (if h.start then [Star] else []) + UnparseInState(h.inState) + [Plus, Ident(h.event)]
  }

  function UnparseOptions(o: Options): seq<Token> {
    UnparseGroup(o.pattern, Parenthesis) + UnparseGroup(o.guard, Bracketed) + UnparseAction(o.action)
  }

  function UnparseTail(t: Tail): seq<Token> {
    [Eq, Ident(t.outState)] + UnparseGroup(t.data, Parenthesis)
  }

  /** The tokens of a rule, in the order the grammar reads them. */
  function Unparse(r: Rule): seq<Token> {
    UnparseHead(Head(r.start, r.inState, r.event))
    + UnparseOptions(Options(r.eventPattern, r.guard, r.action))
    + UnparseTail(Tail(r.outState, r.outStateData))
  }

  /** What the grammar can produce: fragments are non-empty and an action is a
      statement. */
  predicate WellFormed(r: Rule) {
    && (r.eventPattern.Some? ==> r.eventPattern.value != [])
    && (r.guard.Some? ==> r.guard.value != [])
    && (r.outStateData.Some? ==> r.outStateData.value != [])
    && (r.action.Some? ==> IsStatement(r.action.value))
  }

  /** A rule's tokens can be absorbed into it only by a trailing paren group
      when it has no output data expression. */
  predicate CanFollow(r: Rule, rest: seq<Token>) {
    rest == [] || r.outStateData.Some? || !rest[0].Paren?
  }

  lemma SliceJoin(s: seq<Token>, a: nat, b: nat, c: nat)
    requires a <= b <= c <= |s|
    ensures s[a..c] == s[a..b] + s[b..c]
  {
  }

  lemma SlicePair(s: seq<Token>, i: nat)
    requires i + 2 <= |s|
    ensures s[i..i + 2] == [s[i], s[i + 1]]
  {
  }

  lemma InStateInverse(toks: seq<Token>, pos: nat)
    requires pos <= |toks| && ParseInState(toks, pos).Ok?
    ensures var p := ParseInState(toks, pos).value;
      toks[pos..p.next] == UnparseInState(p.value) &&
      (p.value.Some? && p.value.value.payload.None? ==> p.next == |toks| || !toks[p.next].Paren?)
  {
  }

  lemma GroupInverse(toks: seq<Token>, pos: nat, d: Delimiter, what: string)
    requires pos <= |toks| && OptionalGroup(toks, pos, d, what).Ok?
    ensures var p := OptionalGroup(toks, pos, d, what).value;
      toks[pos..p.next] == UnparseGroup(p.value, d)
  {
  }

  lemma ActionInverse(toks: seq<Token>, pos: nat)
    requires pos <= |toks| && OptionalAction(toks, pos).Ok?
    ensures var p := OptionalAction(toks, pos).value;
      toks[pos..p.next] == UnparseAction(p.value)
  {
    var p := OptionalAction(toks, pos).value;
    if p.value.Some? { SlicePair(toks, pos); }
  }

  lemma HeadInverse(toks: seq<Token>, pos: nat)
    requires pos <= |toks| && ParseHead(toks, pos).Ok?
    ensures var p := ParseHead(toks, pos).value;
      toks[pos..p.next] == UnparseHead(p.value)
  {
    var start := pos < |toks| && toks[pos] == Star;
    var i0 := if start then pos + 1 else pos;
    var inState := ParseInState(toks, i0).value;
    var event := ParseIdent(toks, inState.next + 1).value;
    assert ParseHead(toks, pos).value == Parsed(Head(start, inState.value, event.value), event.next);
    InStateInverse(toks, i0);
    SliceJoin(toks, pos, i0, inState.next);
    SliceJoin(toks, pos, inState.next, event.next);
    SlicePair(toks, inState.next);
  }

  lemma OptionsInverse(toks: seq<Token>, pos: nat)
    requires pos <= |toks| && ParseOptions(toks, pos).Ok?
    ensures var p := ParseOptions(toks, pos).value;
      toks[pos..p.next] == UnparseOptions(p.value)
  {
    var pattern := OptionalGroup(toks, pos, Parenthesis, "pattern").value;
    var guard := OptionalGroup(toks, pattern.next, Bracketed, "expression").value;
    var action := OptionalAction(toks, guard.next).value;
    assert ParseOptions(toks, pos).value == Parsed(Options(pattern.value, guard.value, action.value), action.next);
    GroupInverse(toks, pos, Parenthesis, "pattern");
    GroupInverse(toks, pattern.next, Bracketed, "expression");
    ActionInverse(toks, guard.next);
    SliceJoin(toks, pos, pattern.next, guard.next);
    SliceJoin(toks, pos, guard.next, action.next);
  }

  lemma TailInverse(toks: seq<Token>, pos: nat)
    requires pos <= |toks| && ParseTail(toks, pos).Ok?
    ensures var p := ParseTail(toks, pos).value;
      toks[pos..p.next] == UnparseTail(p.value) &&
      (p.value.data.None? ==> p.next == |toks| || !toks[p.next].Paren?)
  {
    var out := ParseIdent(toks, pos + 1).value;
    var data := OptionalGroup(toks, out.next, Parenthesis, "expression").value;
    assert ParseTail(toks, pos).value == Parsed(Tail(out.value, data.value), data.next);
    GroupInverse(toks, out.next, Parenthesis, "expression");
    SliceJoin(toks, pos, out.next, data.next);
    SlicePair(toks, pos);
  }

  /** Whatever `ParseRule` accepts is a well-formed rule printed as tokens:
      exactly the consumed tokens, and no more could have been taken. */
  lemma {:induction false} ParseRuleInverse(toks: seq<Token>, pos: nat)
    requires pos <= |toks| && ParseRule(toks, pos).Ok?
    ensures var p := ParseRule(toks, pos).value;
      WellFormed(p.value) && toks[pos..p.next] == Unparse(p.value) && CanFollow(p.value, toks[p.next..])
  {
    var head := ParseHead(toks, pos).value;
    var options := ParseOptions(toks, head.next).value;
    var tail := ParseTail(toks, options.next).value;
    assert ParseRest(toks, head.next).value == Parsed((options.value, tail.value), tail.next);
    var r := Assemble(head.value, options.value, tail.value);
    assert ParseRule(toks, pos) == Ok(Parsed(r, tail.next));
    HeadInverse(toks, pos);
    OptionsInverse(toks, head.next);
    TailInverse(toks, options.next);
    SliceJoin(toks, pos, head.next, options.next);
    SliceJoin(toks, pos, options.next, tail.next);
    assert toks[pos..tail.next] == Unparse(r);
  }

  lemma SliceAt(toks: seq<Token>, pos: nat, u: seq<Token>, k: nat)
    requires pos + |u| <= |toks| && toks[pos..pos + |u|] == u && k < |u|
    ensures toks[pos + k] == u[k]
  {
    assert toks[pos..pos + |u|][k] == toks[pos + k];
  }

  /** Splits a slice known to be `a + b` into its two parts. */
  lemma SliceSplit(toks: seq<Token>, pos: nat, a: seq<Token>, b: seq<Token>)
    requires pos + |a| + |b| <= |toks| && toks[pos..pos + |a| + |b|] == a + b
    ensures toks[pos..pos + |a|] == a && toks[pos + |a|..pos + |a| + |b|] == b
  {
    assert toks[pos..pos + |a|] == toks[pos..pos + |a| + |b|][..|a|];
    assert toks[pos + |a|..pos + |a| + |b|] == toks[pos..pos + |a| + |b|][|a|..];
  }

  lemma InStateUnparse(s: Option<Variant>, toks: seq<Token>, pos: nat)
    requires pos + |UnparseInState(s)| < |toks| && toks[pos..pos + |UnparseInState(s)|] == UnparseInState(s)
    requires toks[pos + |UnparseInState(s)|] == Plus
    ensures ParseInState(toks, pos) == Ok(Parsed(s, pos + |UnparseInState(s)|))
  {
    var u := UnparseInState(s);
    SliceAt(toks, pos, u, 0);
    if |u| == 2 { SliceAt(toks, pos, u, 1); }
  }

  lemma GroupUnparse(f: Option<Fragment>, d: Delimiter, what: string, toks: seq<Token>, pos: nat)
    requires f.Some? ==> f.value != []
    requires pos + |UnparseGroup(f, d)| <= |toks| && toks[pos..pos + |UnparseGroup(f, d)|] == UnparseGroup(f, d)
    requires f.None? ==> pos == |toks| || !IsGroup(toks[pos], d)
    ensures OptionalGroup(toks, pos, d, what) == Ok(Parsed(f, pos + |UnparseGroup(f, d)|))
  {
    if f.Some? { SliceAt(toks, pos, UnparseGroup(f, d), 0); }
  }

  lemma ActionUnparse(a: Option<Token>, toks: seq<Token>, pos: nat)
    requires a.Some? ==> IsStatement(a.value)
    requires pos + |UnparseAction(a)| <= |toks| && toks[pos..pos + |UnparseAction(a)|] == UnparseAction(a)
    requires a.None? ==> pos == |toks| || toks[pos] != Slash
    ensures OptionalAction(toks, pos) == Ok(Parsed(a, pos + |UnparseAction(a)|))
  {
    if a.Some? {
      SliceAt(toks, pos, UnparseAction(a), 0);
      SliceAt(toks, pos, UnparseAction(a), 1);
    }
  }

  lemma HeadUnparse(h: Head, toks: seq<Token>, pos: nat)
    requires pos + |UnparseHead(h)| <= |toks| && toks[pos..pos + |UnparseHead(h)|] == UnparseHead(h)
    ensures ParseHead(toks, pos) == Ok(Parsed(h, pos + |UnparseHead(h)|))
  {
    var a: seq<Token> := if h.start then [Star] else [];
    var b := UnparseInState(h.inState);
    var c := [Plus, Ident(h.event)];
    var i0 := pos + |a|;
    var i1 := i0 + |b|;
    SliceSplit(toks, pos, a + b, c);
    SliceSplit(toks, pos, a, b);
    SliceAt(toks, i1, c, 0);
    SliceAt(toks, i1, c, 1);
    if h.start { SliceAt(toks, pos, a, 0); } else { SliceAt(toks, i0, b, 0); }
    InStateUnparse(h.inState, toks, i0);
    ComposeHead(toks, pos, h, i0, i1);
  }

  /** A head whose marker, input state, `+` and event are found one after the
      other parses as a whole. */
  lemma ComposeHead(toks: seq<Token>, pos: nat, h: Head, i0: nat, i1: nat)
    requires pos <= |toks| && (pos < |toks| && toks[pos] == Star) == h.start
    requires i0 == if h.start then pos + 1 else pos
    requires i0 <= |toks| && ParseInState(toks, i0) == Ok(Parsed(h.inState, i1))
    requires i1 + 2 <= |toks| && toks[i1] == Plus && toks[i1 + 1] == Ident(h.event)
    ensures ParseHead(toks, pos) == Ok(Parsed(h, i1 + 2))
  {
  }

  /** Options whose three parts parse one after the other parse as a whole. */
  lemma ComposeOptions(toks: seq<Token>, pos: nat, o: Options, i1: nat, i2: nat, i3: nat)
    requires pos <= |toks|
    requires OptionalGroup(toks, pos, Parenthesis, "pattern") == Ok(Parsed(o.pattern, i1))
    requires OptionalGroup(toks, i1, Bracketed, "expression") == Ok(Parsed(o.guard, i2))
    requires OptionalAction(toks, i2) == Ok(Parsed(o.action, i3))
    ensures ParseOptions(toks, pos) == Ok(Parsed(o, i3))
  {
  }

  /** The printed guard (or its absence) parses back when the printed action
      and then `=` follow it. */
  lemma GuardUnparse(o: Options, toks: seq<Token>, i1: nat, i2: nat, i3: nat)
    requires o.guard.Some? ==> o.guard.value != []
    requires i1 <= i2 <= i3 < |toks| && toks[i3] == Eq
    requires toks[i1..i2] == UnparseGroup(o.guard, Bracketed) && toks[i2..i3] == UnparseAction(o.action)
    ensures OptionalGroup(toks, i1, Bracketed, "expression") == Ok(Parsed(o.guard, i2))
  {
    if o.guard.None? && o.action.Some? { SliceAt(toks, i2, UnparseAction(o.action), 0); }
    GroupUnparse(o.guard, Bracketed, "expression", toks, i1);
  }

  /** The printed pattern (or its absence) parses back when the printed guard,
      action and then `=` follow it. */
  lemma PatternUnparse(o: Options, toks: seq<Token>, pos: nat, i1: nat, i2: nat, i3: nat)
    requires o.pattern.Some? ==> o.pattern.value != []
    requires pos <= i1 <= i2 <= i3 < |toks| && toks[i3] == Eq
    requires toks[pos..i1] == UnparseGroup(o.pattern, Parenthesis)
    requires toks[i1..i2] == UnparseGroup(o.guard, Bracketed) && toks[i2..i3] == UnparseAction(o.action)
    ensures OptionalGroup(toks, pos, Parenthesis, "pattern") == Ok(Parsed(o.pattern, i1))
  {
    if o.pattern.None? {
      if o.guard.Some? {
        SliceAt(toks, i1, UnparseGroup(o.guard, Bracketed), 0);
      } else if o.action.Some? {
        SliceAt(toks, i2, UnparseAction(o.action), 0);
      }
    }
    GroupUnparse(o.pattern, Parenthesis, "pattern", toks, pos);
  }

  lemma OptionsUnparse(o: Options, toks: seq<Token>, pos: nat)
    requires (o.pattern.Some? ==> o.pattern.value != []) && (o.guard.Some? ==> o.guard.value != [])
    requires o.action.Some? ==> IsStatement(o.action.value)
    requires pos + |UnparseOptions(o)| < |toks| && toks[pos..pos + |UnparseOptions(o)|] == UnparseOptions(o)
    requires toks[pos + |UnparseOptions(o)|] == Eq
    ensures ParseOptions(toks, pos) == Ok(Parsed(o, pos + |UnparseOptions(o)|))
  {
    var a := UnparseGroup(o.pattern, Parenthesis);
    var b := UnparseGroup(o.guard, Bracketed);
    var c := UnparseAction(o.action);
    var i1 := pos + |a|;
    var i2 := i1 + |b|;
    var i3 := i2 + |c|;
    SliceSplit(toks, pos, a + b, c);
    SliceSplit(toks, pos, a, b);
    ActionUnparse(o.action, toks, i2);
    GuardUnparse(o, toks, i1, i2, i3);
    PatternUnparse(o, toks, pos, i1, i2, i3);
    ComposeOptions(toks, pos, o, i1, i2, i3);
  }

  lemma TailUnparse(t: Tail, toks: seq<Token>, pos: nat)
    requires t.data.Some? ==> t.data.value != []
    requires pos + |UnparseTail(t)| <= |toks| && toks[pos..pos + |UnparseTail(t)|] == UnparseTail(t)
    requires t.data.None? && pos + 2 < |toks| ==> !toks[pos + 2].Paren?
    ensures ParseTail(toks, pos) == Ok(Parsed(t, pos + |UnparseTail(t)|))
  {
    var u := UnparseTail(t);
    SliceAt(toks, pos, u, 0);
    SliceAt(toks, pos, u, 1);
    assert toks[pos + 2..pos + |u|] == UnparseGroup(t.data, Parenthesis) by {
      assert toks[pos + 2..pos + |u|] == toks[pos..pos + |u|][2..];
    }
    GroupUnparse(t.data, Parenthesis, "expression", toks, pos + 2);
  }

  /** The tokens of a printed rule, followed by `rest`, cut into its three parts. */
  lemma UnparseParts(r: Rule, toks: seq<Token>, pos: nat, rest: seq<Token>)
    requires pos <= |toks| && toks[pos..] == Unparse(r) + rest
    ensures var h, o, t := Head(r.start, r.inState, r.event), Options(r.eventPattern, r.guard, r.action),
                           Tail(r.outState, r.outStateData);
      var i1 := pos + |UnparseHead(h)|;
      var i2 := i1 + |UnparseOptions(o)|;
      var i3 := i2 + |UnparseTail(t)|;
      && i3 <= |toks| && toks[pos..i1] == UnparseHead(h) && toks[i1..i2] == UnparseOptions(o)
      && toks[i2..i3] == UnparseTail(t) && toks[i3..] == rest
      && i2 < |toks| && toks[i2] == Eq && (i3 < |toks| ==> rest != [] && toks[i3] == rest[0])
  {
    var h, o, t := Head(r.start, r.inState, r.event), Options(r.eventPattern, r.guard, r.action),
                   Tail(r.outState, r.outStateData);
    var u := Unparse(r);
    assert toks[pos..pos + |u|] == u by {
      assert toks[pos..pos + |u|] == toks[pos..][..|u|];
    }
    assert toks[pos + |u|..] == rest by {
      assert toks[pos + |u|..] == toks[pos..][|u|..];
    }
    SliceSplit(toks, pos, UnparseHead(h) + UnparseOptions(o), UnparseTail(t));
    SliceSplit(toks, pos, UnparseHead(h), UnparseOptions(o));
    SliceAt(toks, pos + |UnparseHead(h)| + |UnparseOptions(o)|, UnparseTail(t), 0);
  }

  /** The head of a printed rule parses back. */
  lemma HeadOfRule(r: Rule, toks: seq<Token>, pos: nat, rest: seq<Token>)
    requires WellFormed(r) && pos <= |toks| && toks[pos..] == Unparse(r) + rest && CanFollow(r, rest)
    ensures var h := Head(r.start, r.inState, r.event);
      ParseHead(toks, pos) == Ok(Parsed(h, pos + |UnparseHead(h)|))
  {
    UnparseParts(r, toks, pos, rest);
    HeadUnparse(Head(r.start, r.inState, r.event), toks, pos);
  }

  /** The options of a printed rule parse back after its head. */
  lemma OptionsOfRule(r: Rule, toks: seq<Token>, pos: nat, rest: seq<Token>)
    requires WellFormed(r) && pos <= |toks| && toks[pos..] == Unparse(r) + rest && CanFollow(r, rest)
    ensures var h, o := Head(r.start, r.inState, r.event), Options(r.eventPattern, r.guard, r.action);
      var i1 := pos + |UnparseHead(h)|;
      ParseOptions(toks, i1) == Ok(Parsed(o, i1 + |UnparseOptions(o)|))
  {
    UnparseParts(r, toks, pos, rest);
    OptionsUnparse(Options(r.eventPattern, r.guard, r.action), toks,
                   pos + |UnparseHead(Head(r.start, r.inState, r.event))|);
  }

  /** The tail of a printed rule parses back after its options. */
  lemma TailOfRule(r: Rule, toks: seq<Token>, pos: nat, rest: seq<Token>)
    requires WellFormed(r) && pos <= |toks| && toks[pos..] == Unparse(r) + rest && CanFollow(r, rest)
    ensures var h, o, t := Head(r.start, r.inState, r.event), Options(r.eventPattern, r.guard, r.action),
                           Tail(r.outState, r.outStateData);
      var i2 := pos + |UnparseHead(h)| + |UnparseOptions(o)|;
      ParseTail(toks, i2) == Ok(Parsed(t, i2 + |UnparseTail(t)|))
  {
    UnparseParts(r, toks, pos, rest);
    TailUnparse(Tail(r.outState, r.outStateData), toks,
                pos + |UnparseHead(Head(r.start, r.inState, r.event))|
                    + |UnparseOptions(Options(r.eventPattern, r.guard, r.action))|);
  }

  /** Options and tail of a printed rule parse back after its head, which
      ends at `mid`. */
  lemma RestOfRule(r: Rule, toks: seq<Token>, pos: nat, rest: seq<Token>, mid: nat)
    requires WellFormed(r) && pos <= |toks| && toks[pos..] == Unparse(r) + rest && CanFollow(r, rest)
    requires mid == pos + |UnparseHead(Head(r.start, r.inState, r.event))|
    ensures ParseRest(toks, mid) == Ok(Parsed((Options(r.eventPattern, r.guard, r.action),
                                               Tail(r.outState, r.outStateData)), pos + |Unparse(r)|))
  {
    var o, t := Options(r.eventPattern, r.guard, r.action), Tail(r.outState, r.outStateData);
    var i2 := mid + |UnparseOptions(o)|;
    OptionsOfRule(r, toks, pos, rest);
    TailOfRule(r, toks, pos, rest);
    ComposeRest(toks, mid, o, t, i2, pos + |Unparse(r)|);
  }

  /** Options then a tail that parse one after the other parse as the rest of a rule. */
  lemma ComposeRest(toks: seq<Token>, pos: nat, o: Options, t: Tail, i2: nat, i3: nat)
    requires pos <= |toks|
    requires ParseOptions(toks, pos) == Ok(Parsed(o, i2))
    requires ParseTail(toks, i2) == Ok(Parsed(t, i3))
    ensures ParseRest(toks, pos) == Ok(Parsed((o, t), i3))
  {
  }

  /** A rule whose head and rest parse is the rule they assemble. */
  lemma ComposeRule(toks: seq<Token>, pos: nat, r: Rule, i1: nat, i3: nat)
    requires pos <= |toks|
    requires ParseHead(toks, pos) == Ok(Parsed(Head(r.start, r.inState, r.event), i1))
    requires ParseRest(toks, i1) == Ok(Parsed((Options(r.eventPattern, r.guard, r.action),
                                               Tail(r.outState, r.outStateData)), i3))
    ensures ParseRule(toks, pos) == Ok(Parsed(r, i3))
  {
  }

  /** Printing a well-formed rule and parsing it back gives the rule again,
      with the cursor just after its tokens. */
  lemma {:induction false} ParseUnparse(r: Rule, toks: seq<Token>, pos: nat, rest: seq<Token>)
    requires WellFormed(r) && pos <= |toks| && toks[pos..] == Unparse(r) + rest && CanFollow(r, rest)
    ensures ParseRule(toks, pos) == Ok(Parsed(r, pos + |Unparse(r)|))
  {
    var h, o, t := Head(r.start, r.inState, r.event), Options(r.eventPattern, r.guard, r.action),
                   Tail(r.outState, r.outStateData);
    var mid, end := pos + |UnparseHead(h)|, pos + |Unparse(r)|;
    assert ParseHead(toks, pos) == Ok(Parsed(h, mid)) by {
      HeadOfRule(r, toks, pos, rest);
    }
    assert ParseRest(toks, mid) == Ok(Parsed((o, t), end)) by {
      RestOfRule(r, toks, pos, rest, mid);
    }
    ComposeRule(toks, pos, r, mid, end);
  }

  /** A rule always contains its `+` and its `=`: where either is missing,
      `ParseRule` fails. A leading `*` is exactly what marks the start. */
  lemma ParsedRuleShape(toks: seq<Token>, pos: nat)
    requires pos <= |toks| && ParseRule(toks, pos).Ok?
    ensures var p := ParseRule(toks, pos).value;
      && Plus in toks[pos..p.next] && Eq in toks[pos..p.next]
      && (p.value.start <==> toks[pos] == Star)
  {
    ParseRuleInverse(toks, pos);
    var p := ParseRule(toks, pos).value;
    var r := p.value;
    var h := UnparseHead(Head(r.start, r.inState, r.event));
    var o := UnparseOptions(Options(r.eventPattern, r.guard, r.action));
    var t := UnparseTail(Tail(r.outState, r.outStateData));
    var u := toks[pos..p.next];
    assert u == h + o + t;
    assert u[|h| - 2] == Plus;
    assert u[|h| + |o|] == Eq;
    assert toks[pos] == u[0] == h[0];
  }
}
