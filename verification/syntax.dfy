/** The vocabulary shared by the parser, the model builder and the runtime:
    the token stream the `statemachine!` macro receives, the raw transition
    rule it parses (`StateTransition`), and the errors it reports. */
module Syntax {

  datatype Option<+T> = None | Some(value: T)

  datatype Result<+T, +E> = Ok(value: T) | Err(error: E) {
    predicate IsFailure() { Err? }

    function PropagateFailure<U>(): Result<U, E>
      requires Err?
    {
      Err(error)
    }

    function Extract(): T
      requires Ok?
    {
      value
    }
  }

  /** A value parsed from a token sequence and the position just after it. */
  datatype Parsed<+T> = Parsed(value: T, next: nat)

  /** One token tree of the macro input. Rust sub-grammars that the parser
      hands to `syn` whole are single opaque items: `Code` is one statement
      (an action such as `ctx.action1();`) and `Attr` one outer attribute
      `#[...]`. Groups carry the token trees between their delimiters. */
  datatype Token =
    | Star | Underscore | Plus | Eq | Slash | Comma | Colon
    | Ident(name: string)
    | Paren(body: seq<Token>)
    | Bracket(body: seq<Token>)
    | Brace(body: seq<Token>)
    | Code(text: string)
    | Attr(text: string)

  /** A pattern, guard or expression: the non-empty body of a delimited group,
      kept as tokens. */
  type Fragment = seq<Token>

  /** An input-state declaration (`syn::Variant`): a name and, when the state
      carries data, the parenthesised payload type. */
  datatype Variant = Variant(name: string, payload: Option<Fragment>)

  /** One parsed rule (`StateTransition`).
      `inState == None` is the wildcard `_`. */
  datatype Rule = Rule(
    start: bool,
    event: string,
    eventPattern: Option<Fragment>,
    inState: Option<Variant>,
    outState: string,
    outStateData: Option<Fragment>,
    guard: Option<Fragment>,
    action: Option<Token>)
  {
    predicate IsWildcard() { inState.None? }
  }

  /** Errors of parsing and model building. `Expected` stands for the errors
      `syn` raises when a token of the rule grammar is missing; their text
      belongs to `syn` and is not modelled. */
  datatype Error =
    | Expected(what: string)
    | UnknownKeyword(keyword: string)
    | NoStartingState
    | MultipleStartingStates

  /** The message the macro reports for each error the crate itself raises. */
  function Message(e: Error): (msg: string)
    ensures e.UnknownKeyword? ==> |msg| > 16 + |e.keyword| && msg[16..16 + |e.keyword|] == e.keyword
  {
    match e
    case Expected(what) => "expected " + what
    case UnknownKeyword(k) =>
      "Unknown keyword " + k + ". Support keywords: [\"transitions\", \"states_attr\"]"
    case NoStartingState =>
      "No starting state defined, indicate the starting state with a *."
    case MultipleStartingStates =>
      "More than one starting state defined (indicated with *), remove duplicates."
  }
}
