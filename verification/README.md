# smlang: the `statemachine!` DSL compiler, modelled in Dafny

smlang's procedural macro `statemachine!` reads a body such as

    transitions: {
        *State1 + Event1 [ctx.guard()] / ctx.action(); = State2,
        State2(MyStateData) + Event2 = State1,
        _ + Event4 = State4,
    },
    states_attr: #[derive(Debug)]

and generates a `States` enum and a `StateMachine` struct whose
`process_event` moves between the states. This project models the three
stages of that compiler and proves what each one promises.

- **Parsing** (`syntax.dfy`, `rule.dfy`, `parser.dfy`, `roundtrip.dfy`). The macro input is a
  sequence of abstract tokens. `RuleParser` reads one rule
  (`StateTransition::parse`); the result can be printed back to exactly the
  tokens it was read from, and those tokens parse back to it. `Parser` is
  `StateMachine::parse`: a `StateMachine` builder class filled in place by a
  section loop and a rule loop. Each loop is proved against a functional
  specification (`Items`, `ParseSection`, `Collect`). The proofs show how
  rules are split into explicit rules and `_` wildcards, how commas end or
  continue a list, and what happens to unknown keywords. `RoundTrip` lifts
  the rule round trip to whole lists: a printed `transitions` body parses
  back to a builder holding its explicit and `_` rules in order.
- **Building the model** (`model.dfy`). `ParsedStateMachine::new` counts
  start markers and fails with the crate's exact messages. It then fills
  the state registry and the per-state dispatch lists in loops. These are
  proved equal to reference views of the rule list:
  - `InNames`, `OutNames` and `StateDecl` (the last input declaration wins);
  - `RulesFrom` (the explicit rules of a state, followed by every wildcard).
- **Code generation and the generated runtime** (`codegen.dfy`,
  `runtime.dfy`). `generate_code` computes the `States` list: the
  registry's variants sorted by name. That list holds each state exactly
  once, strictly ordered, whatever order the `HashMap` iterates in. The
  emitted `StateMachine` is a class with `state` and `context` fields.
  `ProcessEvent` scans the current state's list with a loop and takes the
  first arm whose event, pattern and guard match. It runs the arm's action,
  then assigns the target. It is proved equal to the function `Step`, whose
  first-match, guard-skip and wildcard-order properties are lemmas.
- **Scenarios** (`scenarios.dfy`). The crate's examples and its
  `no_starting_state` compile-fail test, run through the model with
  concrete meanings for their guards, actions and patterns. Each example
  is built with `Build`, started with `New` and then fed its events; the
  rules of `ex3` are first parsed from their printed form.

Behaviour of `macros/src` that the model keeps:
- The error messages are those of `macros/src/parser.rs:58`, `63` and `265`:
  "... indicate the starting state with a *.", "... (indicated with *),
  remove duplicates." and "Unknown keyword K. Support keywords: [...]".
- The dispatch-list keys are the input states of explicit rules only
  (`parser.rs:104-106`). They are not every registered state, so a state
  reached only as an output has no list and refuses every event.
- No builder error is raised for an output state whose payload constructor
  is missing: `parser.rs` has no such check.
- A state declared twice with different payloads is not an error; the last
  declaration wins (`parser.rs:101`).

## Model

| member | source | states |
|---|---|---|
| Syntax.Message | macros/src/parser.rs:261-268 | the unknown-keyword message contains the offending keyword, right after "Unknown keyword " |
| RuleParser.Expect | macros/src/parser.rs:166 | succeeds exactly when the next token is the expected punctuation, consuming one token; otherwise fails with `Expected` |
| RuleParser.ParseIdent | macros/src/parser.rs:167 | succeeds exactly on an identifier token and returns its name |
| RuleParser.ParseInState | macros/src/parser.rs:158-163 | a successful read of `Variant` or `_` consumes at least one token and stays within the input |
| RuleParser.OptionalGroup | macros/src/parser.rs:170-185 | absent when the next token is not a group of the kind; otherwise the group's non-empty body, one token consumed; an empty body fails |
| RuleParser.OptionalAction | macros/src/parser.rs:188-192 | no action unless the next token is `/`; after `/` a statement must follow, and both tokens are consumed |
| RuleParser.ParseHead | macros/src/parser.rs:148-167 | a parsed `[*] (Variant or _) + Event` ends strictly after it starts |
| RuleParser.ParseOptions | macros/src/parser.rs:170-192 | the optional pattern, guard and action stay within the input |
| RuleParser.ParseTail | macros/src/parser.rs:194-203 | the mandatory `= Out` with its optional data ends strictly after it starts |
| RuleParser.ParseRest | macros/src/parser.rs:170-203 | the options then the tail consume at least one token |
| RuleParser.ParseRule | macros/src/parser.rs:145-216 | a parsed rule consumes at least one token and stays within the input |
| RuleParser.InStateInverse | macros/src/parser.rs:158-163 | the tokens consumed by the input state print back from the parsed `Variant` or `_`; a unit variant is not followed by a group |
| RuleParser.GroupInverse | macros/src/parser.rs:170-185 | the tokens consumed by an optional group print back from the parsed fragment |
| RuleParser.ActionInverse | macros/src/parser.rs:188-192 | the tokens consumed by an optional action print back from it |
| RuleParser.HeadInverse | macros/src/parser.rs:148-167 | the tokens consumed by the head print back from the parsed start marker, input state and event |
| RuleParser.OptionsInverse | macros/src/parser.rs:170-192 | the tokens consumed by the options print back from the parsed pattern, guard and action |
| RuleParser.TailInverse | macros/src/parser.rs:194-203 | the tokens consumed by the tail print back from it; an absent data expression means no group follows |
| RuleParser.ParseRuleInverse | macros/src/parser.rs:145-216 | a parsed rule is well formed, its consumed tokens are exactly its printed form, and what follows could not have extended it |
| RuleParser.HeadUnparse | macros/src/parser.rs:148-167 | a printed head parses back to itself, consuming exactly its tokens |
| RuleParser.ComposeHead | macros/src/parser.rs:148-167 | the start marker, input state, `+` and event read in sequence form the head |
| RuleParser.ComposeOptions | macros/src/parser.rs:170-192 | pattern, guard and action read in sequence form the options |
| RuleParser.GuardUnparse | macros/src/parser.rs:179-185 | a printed guard followed by a printed action and `=` parses back to the guard |
| RuleParser.PatternUnparse | macros/src/parser.rs:170-176 | a printed pattern followed by guard, action and `=` parses back to the pattern |
| RuleParser.OptionsUnparse | macros/src/parser.rs:170-192 | printed options followed by `=` parse back to themselves |
| RuleParser.TailUnparse | macros/src/parser.rs:194-203 | a printed tail, not followed by a group when it has no data, parses back to itself |
| RuleParser.HeadOfRule | macros/src/parser.rs:148-167 | the head of a printed rule parses back |
| RuleParser.OptionsOfRule | macros/src/parser.rs:170-192 | the options of a printed rule parse back after its head |
| RuleParser.TailOfRule | macros/src/parser.rs:194-203 | the tail of a printed rule parses back after its options |
| RuleParser.RestOfRule | macros/src/parser.rs:170-203 | options and tail of a printed rule parse back together |
| RuleParser.ComposeRest | macros/src/parser.rs:170-203 | options then tail read in sequence form the rest of a rule |
| RuleParser.ComposeRule | macros/src/parser.rs:145-216 | a head and a rest read in sequence form the rule they assemble |
| RuleParser.ParseUnparse | macros/src/parser.rs:145-216 | a well-formed rule, printed and followed by tokens that cannot extend it, parses back to itself with the cursor just after it |
| RuleParser.ParsedRuleShape | macros/src/parser.rs:148-196 | every parsed rule contains `+` and `=` (either missing is an error), and it is start-marked exactly when it begins with `*` |
| Parser.StateMachine.constructor | macros/src/parser.rs:16-22 | a new builder has no transitions, wildcards or attributes |
| Parser.StateMachine.AddTransition | macros/src/parser.rs:24-26 | pushes the rule onto `transitions`; nothing else changes |
| Parser.StateMachine.AddWildcard | macros/src/parser.rs:28-30 | pushes the rule onto `wildcards`; nothing else changes |
| Parser.StateMachine.AddStateAttrs | macros/src/parser.rs:32-34 | appends the attributes in order; nothing else changes |
| Parser.SplitAppend | macros/src/parser.rs:240-244 | the explicit and wildcard lists keep source order: splitting distributes over concatenation |
| Parser.SplitPartition | macros/src/parser.rs:240-244 | a rule is in the wildcard list exactly when its input is `_`, and in the explicit list exactly when it is not |
| Parser.SplitCounts | macros/src/parser.rs:240-244 | the two lists together hold every rule exactly as often as the input does |
| Parser.OuterAttributes | macros/src/parser.rs:259 | takes the longest run of attribute tokens, their texts in order |
| Parser.Items | macros/src/parser.rs:234-254 | a comma-separated list ends within the input |
| Parser.ParseSection | macros/src/parser.rs:228-270 | a parsed section consumes at least its keyword |
| Parser.CollectSplit | macros/src/parser.rs:229-260 | the filled builder holds the explicit rules of all `transitions` sections and their `_` rules, both in source order, and all `states_attr` attributes in order |
| Parser.ItemsContinue | macros/src/parser.rs:251-253 | after an element, a comma continues the list |
| Parser.MissingCommaEnds | macros/src/parser.rs:246-253 | an element not followed by a comma ends the list, whatever follows |
| Parser.TrailingComma | macros/src/parser.rs:222-227 | a comma after the last element is accepted and consumed |
| Parser.ItemFails | macros/src/parser.rs:239 | a failing element fails the whole list with its error |
| Parser.ItemsKeepDone | macros/src/parser.rs:234-254 | elements already read stay, in order, in front of the ones read next |
| Parser.UnknownKeywordFails | macros/src/parser.rs:261-268 | a keyword other than `transitions` and `states_attr` fails the parse with an error naming it |
| Parser.TransitionsWithoutBlock | macros/src/parser.rs:229-231 | `transitions:` not followed by a brace group adds nothing to the builder |
| Parser.AddRule | macros/src/parser.rs:240-244 | a `_` rule is pushed onto the wildcards and any other rule onto the transitions |
| Parser.ParseTransitions | macros/src/parser.rs:234-254 | the rule loop succeeds exactly when the rule list does; it then pushes the list's explicit rules onto `transitions` and its `_` rules onto `wildcards`, in order, and otherwise reports the list's error |
| Parser.ParseSectionInto | macros/src/parser.rs:228-270 | one pass of the section loop succeeds exactly when the section parses, and adds that section to the builder |
| Parser.ParseSectionsInto | macros/src/parser.rs:222-280 | the section loop succeeds exactly when the section list does, leaving the builder equal to the collected sections |
| Parser.ParseStateMachine | macros/src/parser.rs:218-284 | `StateMachine::parse` returns a new builder holding exactly what the sections specify, or their error |
| RoundTrip.ItemsReadAll | macros/src/parser.rs:234-254 | when `item` reads the elements one after the other, each followed by a comma, the list parser collects exactly those elements, in order, to the end of the input |
| RoundTrip.ParseUnparseBeforeComma | macros/src/parser.rs:145-216 | a well-formed rule printed before a comma parses back to itself, stopping at the comma |
| RoundTrip.ReadsOne | macros/src/parser.rs:234-254 | reading one element and a comma in front of a readable list gives a readable longer list |
| RoundTrip.ParseRuleReadsBack | macros/src/parser.rs:145-216 | `ParseRule` reads a well-formed rule back wherever its printed form stands before a comma |
| RoundTrip.CommaThen | macros/src/parser.rs:246-253 | tokens holding a printed element and then a comma split into that element, the comma and the rest |
| RoundTrip.ReadBackAt | macros/src/parser.rs:234-254 | a reader that reads an element back yields it at the position of its printed form, and the comma and the rest follow |
| RoundTrip.ListReadsAll | macros/src/parser.rs:234-254 | a reader that reads back each element reads a printed comma list back whole, element by element |
| RoundTrip.ParseRuleReadsAll | macros/src/parser.rs:145-216 | `ParseRule` reads back every rule of a well-formed list |
| RoundTrip.ParseUnparseRules | macros/src/parser.rs:234-254 | a printed list of well-formed rules, a comma after each, parses back to the same rules and consumes it all |
| RoundTrip.ParseUnparseBody | macros/src/parser.rs:222-254 | a body holding one printed `transitions` block, with or without a comma after it, parses to a builder whose `transitions` are the rules with an input state and whose `wildcards` are the `_` rules, both in source order, with no attributes |
| RoundTrip.ParseTransitionsBody | macros/src/parser.rs:218-284 | `StateMachine::parse` of such a body fills the builder with the explicit rules and the `_` rules, in order |
| Model.NumStart | macros/src/parser.rs:49-53 | the start count is at most the number of rules |
| Model.NumStartZero | macros/src/parser.rs:49-59 | the count is zero exactly when no explicit rule carries `*` |
| Model.NumStartTwo | macros/src/parser.rs:49-65 | two start-marked rules make the count at least two |
| Model.NumStartOne | macros/src/parser.rs:68-75 | with a count of one, the start-marked rule is unique |
| Model.WildcardStartIgnored | macros/src/parser.rs:49-53 | a `*` on a `_` rule is not counted |
| Model.AppendRule | macros/src/parser.rs:97-114 | how the start count, input and output names, per-state rules and declarations grow with one more rule |
| Model.InNamesDeclared | macros/src/parser.rs:97-101 | a name is an input name exactly when some rule declares it |
| Model.OutNamesUsed | macros/src/parser.rs:81-95 | a name is an output name exactly when some rule targets it |
| Model.UndeclaredIsUnit | macros/src/parser.rs:81-95 | a state never declared as an input is registered as a unit variant |
| Model.LastDeclarationWins | macros/src/parser.rs:99-101 | the last explicit declaration of a state decides its registry entry |
| Model.StateDeclName | macros/src/parser.rs:99-101 | a registry entry is named after its key |
| Model.RulesFromMembers | macros/src/parser.rs:103-111 | a state's list holds exactly the rules declared from that state |
| Model.WithOutState | macros/src/parser.rs:81-95 | registering an output state adds its key, never overwrites an existing entry, and adds a new state as a unit variant |
| Model.RegisterStatesStep | macros/src/parser.rs:97-114 | one more explicit rule keeps the registry equal to its reference view |
| Model.RegisterMappingStep | macros/src/parser.rs:103-111 | one more explicit rule keeps the dispatch lists equal to their reference view |
| Model.UndeclaredRulesFrom | macros/src/parser.rs:103-106 | a state never declared as an input has no rules |
| Model.RegisterTransitions | macros/src/parser.rs:97-114 | the explicit-rule loop registers exactly the input and output names, each with its last declaration or as a unit variant. The list keys are exactly the input names, each holding its state's rules in source order |
| Model.AppendToAll | macros/src/parser.rs:118-120 | pushes the wildcard onto every dispatch list and adds no key |
| Model.AddWildcards | macros/src/parser.rs:117-122 | every wildcard is appended, in order, to every list. Their targets are registered as unit variants unless already known, and existing entries are untouched |
| Model.Build | macros/src/parser.rs:47-130 | fails with `NoStartingState` exactly when no rule is marked, and with `MultipleStartingStates` exactly when more than one is. On success: the starting state is the marked rule's input; every input and output state is registered, each with its last declaration or as a unit; the list keys are the explicit input states, each list being its rules then all wildcards; the attributes are copied |
| Runtime.Fires | macros/src/codegen.rs:37-56 | an arm accepts an event when the event's name matches, its pattern (if any) matches the payload and its guard (if any) holds; its properties are stated by `FirstFiring`, `StepTakesFirstMatch` and `RejectedArmSkipped` |
| Runtime.Target | macros/src/codegen.rs:48-58 | the new state is the arm's output state, with data exactly when the arm has a data expression |
| Runtime.FirstFiring | macros/src/codegen.rs:56-71 | the index found accepts the event and no earlier arm does; no index means no arm accepts it |
| Runtime.Step | macros/src/codegen.rs:65-71 | the per-state `match` of `process_event` (codegen.rs:138-143) as a function: no list or no accepting arm gives `InvalidEvent`, otherwise the first accepting arm's target and context; its properties are the lemmas below, and `ProcessEvent` is proved equal to it |
| Runtime.StepTakesFirstMatch | macros/src/codegen.rs:138-143 | a step is taken exactly when some arm of the state's list accepts the event; it is then the first such arm, its action and target deciding the result |
| Runtime.RejectedArmSkipped | macros/src/codegen.rs:42-46 | an arm that rejects the event, a false guard for instance, only makes the scan go on to the next arm |
| Runtime.ExplicitBeforeWildcards | macros/src/parser.rs:117-122 | in a list of explicit rules followed by wildcards, a wildcard is taken only when no explicit rule accepts the event |
| Runtime.WildcardsShifted | macros/src/parser.rs:117-122 | scanning the wildcard suffix of a list finds what scanning the wildcards alone finds, shifted by the explicit rules |
| Runtime.StepStaysRegistered | macros/src/codegen.rs:58 | from a model whose targets are registered, a step lands in a registered state |
| Runtime.BuiltTargetsRegistered | macros/src/parser.rs:113-121 | the lists the builder makes only target registered states |
| Runtime.StateMachine.New | macros/src/codegen.rs:100-105 | starts in the model's starting state with the given context |
| Runtime.StateMachine.NewWithState | macros/src/codegen.rs:109-114 | starts in the supplied state with the given context |
| Runtime.StateMachine.State | macros/src/codegen.rs:118-120 | `state()` reads the current state; it is the value `ProcessEvent`'s contract states |
| Runtime.StateMachine.Context | macros/src/codegen.rs:124-126 | `context()` reads the current context; it is the value `ProcessEvent` and `ContextMut` change |
| Runtime.StateMachine.ContextMut | macros/src/codegen.rs:130-132 | the context is changed by the caller and the state is left alone |
| Runtime.StateMachine.ProcessEvent | macros/src/codegen.rs:138-143 | on a taken step, returns `Ok` of the new state and sets the state and context as `Step` says. Otherwise returns `InvalidEvent` with state and context unchanged, so no action ran |
| Codegen.NameLe | macros/src/codegen.rs:12 | `String::cmp` as a predicate: the empty name comes first, otherwise the first characters decide and equal ones pass to the rest; its order properties are the three lemmas below |
| Codegen.NameLeTotal | macros/src/codegen.rs:12 | any two names are ordered one way or the other |
| Codegen.NameLeAntisymmetric | macros/src/codegen.rs:12 | names ordered both ways are equal |
| Codegen.NameLeTransitive | macros/src/codegen.rs:12 | the name order is transitive |
| Codegen.Insert | macros/src/codegen.rs:12 | inserting into a sorted list keeps it sorted and adds exactly the one variant |
| Codegen.SortByName | macros/src/codegen.rs:11-12 | the sorted list is sorted by name and a permutation of its input |
| Codegen.SortedStrictly | macros/src/codegen.rs:11-12 | sorted with no repeated name means strictly sorted |
| Codegen.StrictlySortedUnique | macros/src/codegen.rs:11-12 | two strictly sorted lists with the same variants are equal |
| Codegen.StateList | macros/src/codegen.rs:11-12 | the `States` list has one variant per registry entry |
| Codegen.Collect | macros/src/codegen.rs:11 | the collected values follow the iteration order |
| Codegen.CollectDistinct | macros/src/codegen.rs:11 | variants registered under their own distinct names are collected with distinct names |
| Codegen.StateListContents | macros/src/codegen.rs:11-12 | the emitted `States` list holds each registered variant, and only those, strictly ordered by name |
| Codegen.StateListDeterministic | macros/src/codegen.rs:11-12 | the emitted list does not depend on the registry's iteration order |
| Scenarios.BuildExplicit | macros/src/parser.rs:218-254 | rules filed one by one into a new builder build a model whose starting state is the marked rule's input, whose registry holds the input and output names, and whose lists are the input states' rules |
| Scenarios.BuildLoop | examples/ex2.rs:20-26 | the loop's three rules build a model starting in `State1`, each state's list holding its one rule |
| Scenarios.RunLoop | examples/ex2.rs:37-51 | `Event1, Event2, Event3, Event2, Event3` visit `State2, State3, State2, State3, State2` |
| Scenarios.Ex2 | examples/ex2.rs:31-56 | built and started with `New`, the machine visits the loop's states as `RunLoop` states, then refuses `Event1` and stays in `State2` |
| Scenarios.BuildEx1 | examples/ex1.rs:18-23 | the two rules build a model starting in `State1`; `State3` is registered but has no list |
| Scenarios.RunEx1 | examples/ex1.rs:32-45 | from `State1`, `Event1` and `Event2` reach `State3`, where both are refused and the state stays |
| Scenarios.Ex1 | examples/ex1.rs:28-45 | built and started with `New`, the machine starts in `State1`, gives those results and ends in `State3` |
| Scenarios.NoStart | tests/compile-fail/no_starting_state.rs:13-19 | rules without `*` fail to build with exactly the crate's message |
| Scenarios.BuildPatterns | examples/event_patterns.rs:22-28 | both rules leave `State1`, in source order |
| Scenarios.RunPatterns | examples/event_patterns.rs:46-62 | payloads matching no pattern are refused; the matching payload takes its rule to `State3` |
| Scenarios.EventPatterns | examples/event_patterns.rs:44-62 | built and started with `New`, the machine gives those three results |
| Scenarios.BuildWithData | examples/state_with_data.rs:23-29 | `State2` is registered with its payload type |
| Scenarios.StateWithData | examples/state_with_data.rs:34-38 | built and started with `New`, `Event1` moves to `State2(MyStateData(42))` |
| Scenarios.BuildReuse | examples/reuse_action.rs:19-25 | `State1` lists both of its rules in order and `State2` its one rule |
| Scenarios.RunReuse | examples/reuse_action.rs:42-53 | the shared action runs on the first and third transitions only, the counter reading 1, 1, 2 |
| Scenarios.ReuseAction | examples/reuse_action.rs:36-53 | built and started with `New` and a counter at 0, the machine gives those states and counts |
| Scenarios.BuildCounts | examples/context.rs:17-22 | each of the two states lists its one counting rule |
| Scenarios.RunCounts | examples/context.rs:44-48 | a refused event runs no action: the counter ends at 2 |
| Scenarios.CountTransitions | examples/context.rs:40-48 | built and started with `New` and a counter at 0, the machine accepts, refuses, accepts, and the counter ends at 2 |
| Scenarios.ParseGuards | examples/ex3.rs:26-35 | the four rules of lines 28-31, printed and parsed by `StateMachine::parse`, leave the wildcard in `wildcards` and the other three in `transitions`, in order |
| Scenarios.BuildGuards | examples/ex3.rs:26-35 | the parsed rules build a model starting in `State1`; the wildcard is filed after each state's explicit rules, and its target is registered without a list |
| Scenarios.RunGuards | examples/ex3.rs:62-85 | the passing guard runs its action; the failing guard refuses the event with no action; the wildcard then takes `Event4` to `State4`, which refuses it |
| Scenarios.Ex3 | examples/ex3.rs:62-85 | parsed, built and started with `New`, the machine gives those results and counts |

## Left out

- `macros/src/diagramgen.rs` (the Graphviz output) is not part of this model: it only formats text.
- The `quote!` token emission of `generate_code` is not modelled as text. The per-state match arms are the dispatch lists themselves, which `Runtime` interprets.
- Spans, and `syn`'s lexing and parsing of Rust `Variant`, `Pat`, `Expr`, `Stmt` and `Attribute`, are not modelled. A variant is an identifier with an optional parenthesised payload type; a pattern, guard or expression is the non-empty body of a group; a statement is one opaque `Code` token or a brace block; an attribute is one `Attr` token.
- `syn`'s "unexpected token" errors for input left over after a list ends without a comma are not modelled. `Items`, `ParseSection` and the loops return the position where they stopped instead.
- `Parser.ParseStateMachine`: the printed-body round trip (`RoundTrip.ParseUnparseBody`) covers bodies with one `transitions` section. Bodies with several sections or a `states_attr` section are not printed back.
- `Attribute::parse_outer` cannot fail here, because attributes are single tokens.
- The panic of `expect("underscore")` (`parser.rs:161`) is modelled as the parse error `Expected("underscore")`.
- `Expected` errors carry a short description, not `syn`'s message text.
- `Parser.ParseTransitions` takes the rule reader as a parameter; its caller passes `ParseRule`. `Parser.ParseSectionsInto` takes a ghost reader that its requires ties to `ParseSection`; the loop itself calls `ParseSectionInto`.
- `Runtime.StateMachine.New`: requires a unit starting state. The generated `new` writes the starting state's declaration `States::S(T)` as an expression (`codegen.rs:102`). That does not compile unless the payload type's name `T` is also a value (a unit struct), and that case is excluded by the requires.
- Guards, actions, patterns and payload expressions are not Rust code here. A `Semantics` value gives them meaning as functions of the event, the state data and the context.
- A guard cannot change the context. Async actions, `smol::block_on` and `println!` output are not modelled.
- `Runtime.StateMachine.ContextMut`: the mutable borrow is modelled as a change function applied to the context.
- `state()` and `context()` are modelled as the reading functions `State` and `Context`.
- `String::cmp` is modelled as lexicographic order on characters; Rust compares UTF-8 bytes, which orders the same way.
- The `HashMap` iteration order is a parameter of `StateList`; the result is proved not to depend on it.
- The examples' older API shapes (`Option` results, a context passed to `process_event`) are read as the `Result` form with a context owned by the machine.
- The rules of `examples/ex3.rs:32-33` that lack `= State` are not in the scenario, because the parser rejects them (see `ParsedRuleShape`).
- The `Event4` steps of `Scenarios.RunGuards` are not in the example: they exercise the wildcard and the output-only `State4`.
- The `states_attr` attributes are parsed and copied into the model by `Build` (`parser.rs:128`). `generate_code` never reads them: it puts only its fixed attributes on `States` (`codegen.rs:80-83`). The model keeps them in `statesAttrs` and does nothing further with them.
