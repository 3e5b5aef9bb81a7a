/** The `StateMachine` the generated code defines: a current state, an owned
    context, and `process_event`, which matches the current state and then
    the event against the state's dispatch list, first match wins.
    The Rust fragments of a rule (event pattern, guard, action, output
    data expression) are given meaning by a `Semantics` value. */
module Runtime {
  import opened Syntax
  import M = Model

  /** A value of the generated `States` enum: a variant and its data. */
  datatype States<V> = States(name: string, data: Option<V>)

  /** A value of the user's `Events` enum. */
  datatype Events<V> = Events(name: string, data: Option<V>)

  /** The generated `Error` enum. */
  datatype DispatchError = InvalidEvent

  /** What the Rust fragments mean, over event data, state data and the
      context `C`:
      `pattern` matches an event's payload against `(ref event_data @ p)`,
      `guard` evaluates `if g`, `action` runs the statement on the context,
      and `data` evaluates the output state's payload expression. */
  datatype Semantics<!C, !V> = Semantics(
    pattern: (Fragment, Option<V>) -> bool,
    guard: (Fragment, Events<V>, Option<V>, C) -> bool,
    action: (Token, Events<V>, Option<V>, C) -> C,
    data: (Fragment, Events<V>, Option<V>, C) -> V)

  // ---------------------------------------------------------------------
  // The meaning of one match arm

  /** A match arm `Events::E (ref event_data @ p) if g` accepts the event. */
  predicate Fires<C, V>(sem: Semantics<C, V>, t: Rule, e: Events<V>, sdata: Option<V>, ctx: C) {
    && t.event == e.name
    && (t.eventPattern.None? || sem.pattern(t.eventPattern.value, e.data))
    && (t.guard.None? || sem.guard(t.guard.value, e, sdata, ctx))
  }

  /** The context after the arm's action runs; no action leaves it alone. */
  function AfterAction<C, V>(sem: Semantics<C, V>, t: Rule, e: Events<V>, sdata: Option<V>, ctx: C): C {
    if t.action.Some? then sem.action(t.action.value, e, sdata, ctx) else ctx
  }

  /** The state the arm assigns, its data computed after the action. */
  function Target<C, V>(sem: Semantics<C, V>, t: Rule, e: Events<V>, sdata: Option<V>, ctx: C): (s: States<V>)
    ensures s.name == t.outState
    ensures s.data.Some? <==> t.outStateData.Some?
  {
    var ctx' := AfterAction(sem, t, e, sdata, ctx);
    States(t.outState, if t.outStateData.Some? then Some(sem.data(t.outStateData.value, e, sdata, ctx')) else None)
  }

  /** The first arm from `from` on that accepts the event, if any. */
  function FirstFiring<C, V>(sem: Semantics<C, V>, ts: seq<Rule>, e: Events<V>, sdata: Option<V>, ctx: C, from: nat): (r: Option<nat>)
    requires from <= |ts|
    ensures r.Some? ==> from <= r.value < |ts| && Fires(sem, ts[r.value], e, sdata, ctx)
    ensures r.Some? ==> forall j | from <= j < r.value :: !Fires(sem, ts[j], e, sdata, ctx)
    ensures r.None? ==> forall j | from <= j < |ts| :: !Fires(sem, ts[j], e, sdata, ctx)
    decreases |ts| - from
  {
    if from == |ts| then None
    else if Fires(sem, ts[from], e, sdata, ctx) then Some(from)
    else FirstFiring(sem, ts, e, sdata, ctx, from + 1)
  }

  /** `process_event` as a function of the state, the context and the event:
      the new state and context, or `InvalidEvent`. */
  function Step<C, V>(mapping: map<string, seq<Rule>>, sem: Semantics<C, V>, s: States<V>, ctx: C, e: Events<V>)
    : Result<(States<V>, C), DispatchError>
  {
    if s.name !in mapping then Err(InvalidEvent)
    else
      var ts := mapping[s.name];
      match FirstFiring(sem, ts, e, s.data, ctx, 0)
      case None => Err(InvalidEvent)
      case Some(i) => Ok((Target(sem, ts[i], e, s.data, ctx), AfterAction(sem, ts[i], e, s.data, ctx)))
  }

  // ---------------------------------------------------------------------
  // Properties of a step

  /** A step is taken exactly when some arm of the state's list accepts the
      event; the taken arm is the first such, and its action and target
      decide the result. */
  lemma StepTakesFirstMatch<C, V>(mapping: map<string, seq<Rule>>, sem: Semantics<C, V>, s: States<V>, ctx: C, e: Events<V>)
    ensures Step(mapping, sem, s, ctx, e).Ok? <==>
      s.name in mapping && exists i | 0 <= i < |mapping[s.name]| :: Fires(sem, mapping[s.name][i], e, s.data, ctx)
    ensures Step(mapping, sem, s, ctx, e).Ok? ==>
      var ts := mapping[s.name];
      exists i | 0 <= i < |ts| ::
        && Fires(sem, ts[i], e, s.data, ctx)
        && (forall j | 0 <= j < i :: !Fires(sem, ts[j], e, s.data, ctx))
        && Step(mapping, sem, s, ctx, e).value == (Target(sem, ts[i], e, s.data, ctx), AfterAction(sem, ts[i], e, s.data, ctx))
  {
  }

  /** An arm that does not accept the event (for instance because its guard
      is false) is skipped: the scan goes on with the next arm. */
  lemma RejectedArmSkipped<C, V>(sem: Semantics<C, V>, ts: seq<Rule>, e: Events<V>, sdata: Option<V>, ctx: C, from: nat)
    requires from < |ts| && !Fires(sem, ts[from], e, sdata, ctx)
    ensures FirstFiring(sem, ts, e, sdata, ctx, from) == FirstFiring(sem, ts, e, sdata, ctx, from + 1)
  {
  }

  /** Explicit rules come before wildcards: a wildcard is taken only when no
      explicit rule of the state accepts the event. */
  lemma {:induction false} ExplicitBeforeWildcards<C, V>(sem: Semantics<C, V>, xs: seq<Rule>, ws: seq<Rule>, e: Events<V>,
                                                       sdata: Option<V>, ctx: C, from: nat)
    requires from <= |xs|
    ensures var r := FirstFiring(sem, xs + ws, e, sdata, ctx, from);
      match FirstFiring(sem, xs, e, sdata, ctx, from)
      case Some(i) => r == Some(i)
      case None =>
        match FirstFiring(sem, ws, e, sdata, ctx, 0)
        case Some(k) => r == Some(|xs| + k)
        case None => r == None
    decreases |xs| - from
  {
    if from < |xs| {
      assert (xs + ws)[from] == xs[from];
      ExplicitBeforeWildcards(sem, xs, ws, e, sdata, ctx, from + 1);
    } else {
      WildcardsShifted(sem, xs, ws, e, sdata, ctx, 0);
    }
  }

  lemma {:induction false} WildcardsShifted<C, V>(sem: Semantics<C, V>, xs: seq<Rule>, ws: seq<Rule>, e: Events<V>,
                                                sdata: Option<V>, ctx: C, k: nat)
    requires k <= |ws|
    ensures var r := FirstFiring(sem, xs + ws, e, sdata, ctx, |xs| + k);
      match FirstFiring(sem, ws, e, sdata, ctx, k)
      case Some(j) => r == Some(|xs| + j)
      case None => r == None
    decreases |ws| - k
  {
    if k < |ws| {
      assert (xs + ws)[|xs| + k] == ws[k];
      WildcardsShifted(sem, xs, ws, e, sdata, ctx, k + 1);
    }
  }

  /** The builder's lists are closed: every target is a registered state. */
  predicate TargetsRegistered(m: M.ParsedStateMachine) {
    forall s, t | s in m.mapping && t in m.mapping[s] :: t.outState in m.states
  }

  /** A step from a built model lands in a registered state. */
  lemma StepStaysRegistered<C, V>(m: M.ParsedStateMachine, sem: Semantics<C, V>, s: States<V>, ctx: C, e: Events<V>)
    requires TargetsRegistered(m)
    requires Step(m.mapping, sem, s, ctx, e).Ok?
    ensures Step(m.mapping, sem, s, ctx, e).value.0.name in m.states
  {
    var i := FirstFiring(sem, m.mapping[s.name], e, s.data, ctx, 0).value;
    assert m.mapping[s.name][i] in m.mapping[s.name];
  }

  // ---------------------------------------------------------------------
  // The generated struct

  class StateMachine<C, V> {
    /** The model the code was generated from, and what its fragments mean. */
    const model: M.ParsedStateMachine
    const sem: Semantics<C, V>
    var state: States<V>
    var context: C

    /** `new(context)`: starts in the starting state. The starting state's
        declaration is emitted as the expression, so it must be a unit
        variant for the generated code to compile. */
    constructor New(model: M.ParsedStateMachine, sem: Semantics<C, V>, context: C)
      requires model.startingState.payload.None?
      ensures this.model == model && this.sem == sem
      ensures state == States(model.startingState.name, None) && this.context == context
    {
      this.model := model;
      this.sem := sem;
      state := States(model.startingState.name, None);
      this.context := context;
    }

    /** `new_with_state(context, initial_state)`. */
    constructor NewWithState(model: M.ParsedStateMachine, sem: Semantics<C, V>, context: C, initialState: States<V>)
      ensures this.model == model && this.sem == sem
      ensures state == initialState && this.context == context
    {
      this.model := model;
      this.sem := sem;
      state := initialState;
      this.context := context;
    }

    /** `state()`. */
    function State(): States<V>
      reads this
    {
      state
    }

    /** `context()`. */
    function Context(): C
      reads this
    {
      context
    }

    /** `context_mut()`: the caller changes the context in place; the state
        is left alone. */
    method ContextMut(change: C -> C)
      modifies this
      ensures context == change(old(context)) && state == old(state)
    {
      context := change(context);
    }

    /** `process_event`: scans the current state's list for the first arm
        that accepts the event, runs its action, and moves to its target. */
    method ProcessEvent(e: Events<V>) returns (r: Result<States<V>, DispatchError>)
      modifies this
      ensures match Step(model.mapping, sem, old(state), old(context), e)
        case Ok(next) => r == Ok(state) && state == next.0 && context == next.1
        case Err(err) => r == Err(err) && state == old(state) && context == old(context)
    {
      if state.name !in model.mapping {
        return Err(InvalidEvent);
      }
      var ts := model.mapping[state.name];
      var i := 0;
      while i < |ts|
        invariant i <= |ts|
        invariant FirstFiring(sem, ts, e, state.data, context, 0) == FirstFiring(sem, ts, e, state.data, context, i)
      {
        var t := ts[i];
        if Fires(sem, t, e, state.data, context) {
          var sdata := state.data;
          if t.action.Some? {
            context := sem.action(t.action.value, e, sdata, context);
          }
          var data := if t.outStateData.Some? then Some(sem.data(t.outStateData.value, e, sdata, context)) else None;
          state := States(t.outState, data);
          return Ok(state);
        }
        i := i + 1;
      }
      return Err(InvalidEvent);
    }
  }

  /** The builder's lists target registered states. */
  lemma BuiltTargetsRegistered(ts: seq<Rule>, ws: seq<Rule>, m: M.ParsedStateMachine)
    requires m.states.Keys == M.InNames(ts) + M.OutNames(ts) + M.OutNames(ws)
    requires forall s | s in m.mapping :: m.mapping[s] == M.RulesFrom(ts, s) + ws
    ensures TargetsRegistered(m)
  {
    forall s, t | s in m.mapping && t in m.mapping[s]
      ensures t.outState in m.states
    {
      if t in ws {
        var i :| 0 <= i < |ws| && ws[i] == t;
        M.OutNamesUsed(ws, t.outState);
      } else {
        assert t in M.RulesFrom(ts, s);
        M.RulesFromMembers(ts, s, t);
        var i :| 0 <= i < |ts| && ts[i] == t;
        M.OutNamesUsed(ts, t.outState);
      }
    }
  }
}
