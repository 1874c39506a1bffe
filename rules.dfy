/**
 * The transition table of a state-machine record and the questions asked of it:
 * which actions and states it knows, whether an action may fire from a state,
 * and which target state a fired action writes.
 */
module Rules {
  import opened Wrappers

  /** One transition rule: action `on` leads from any state listed in `from` to `to`.
      `from` is the already-flattened list of source states. */
  datatype Rule = Rule(from: seq<string>, to: string, on: string)

  /** The configuration properties the mixin reads from the model; `None` is an unset property. */
  datatype Config = Config(
    transitions: Option<seq<Rule>>,
    initialState: Option<string>,
    fieldState: Option<string>,
    useChangeAt: Option<bool>)

  /** The rules, in declaration order; no rules when the property is unset. */
  function Transitions(c: Config): seq<Rule> {
    c.transitions.GetOr([])
  }

  /** The state a record starts in. */
  function InitialState(c: Config): string {
    c.initialState.GetOr("initiated")
  }

  /** The name of the attribute that holds the current state. */
  function FieldName(c: Config): string {
    c.fieldState.GetOr("state")
  }

  /** Whether per-state entry timestamps are kept. */
  predicate TracksChangeAt(c: Config) {
    c.useChangeAt.GetOr(false)
  }

  lemma ConfigDefaults(c: Config)
    ensures c.transitions.None? ==> Transitions(c) == []
    ensures c.initialState.None? ==> InitialState(c) == "initiated"
    ensures c.fieldState.None? ==> FieldName(c) == "state"
    ensures c.useChangeAt.None? ==> !TracksChangeAt(c)
    ensures c.transitions.Some? ==> Transitions(c) == c.transitions.value
    ensures c.initialState.Some? ==> InitialState(c) == c.initialState.value
    ensures c.fieldState.Some? ==> FieldName(c) == c.fieldState.value
    ensures c.useChangeAt.Some? ==> TracksChangeAt(c) == c.useChangeAt.value
  {
  }

  /** PHP's `empty()` on a string, which is also exactly when a string is falsy. */
  predicate IsEmpty(s: string) {
    s == "" || s == "0"
  }

  /** The value of the state field once the lazy initialisation has looked at it. */
  function Initialised(c: Config, s: string): string {
    if IsEmpty(s) then InitialState(c) else s
  }

  /** After lazy initialisation the field holds a non-empty value, provided the initial
      state is itself non-empty; a non-empty value is kept as it was. */
  lemma InitialisedNonEmpty(c: Config, s: string)
    ensures !IsEmpty(s) ==> Initialised(c, s) == s
    ensures IsEmpty(s) ==> Initialised(c, s) == InitialState(c)
    ensures !IsEmpty(InitialState(c)) ==> !IsEmpty(Initialised(c, s))
  {
  }

  /** Initialising twice is initialising once. */
  lemma InitialisedIdempotent(c: Config, s: string)
    ensures Initialised(c, Initialised(c, s)) == Initialised(c, s)
  {
  }

  /** Some rule is triggered by `a`, whatever its source states. */
  predicate HasRuleOn(rules: seq<Rule>, a: string) {
    exists i :: 0 <= i < |rules| && rules[i].on == a
  }

  /** Some rule triggered by `a` lists `s` among its source states. */
  predicate CanFire(rules: seq<Rule>, s: string, a: string) {
    exists i :: 0 <= i < |rules| && rules[i].on == a && s in rules[i].from
  }

  /** `a` is the non-empty action of some rule. */
  predicate KnownAction(rules: seq<Rule>, a: string) {
    exists i :: 0 <= i < |rules| && !IsEmpty(rules[i].on) && rules[i].on == a
  }

  /** `s` is the initial state, or a source or target state of some rule. */
  predicate KnownState(c: Config, s: string) {
    var rules := Transitions(c);
    s == InitialState(c) || exists i :: 0 <= i < |rules| && (s in rules[i].from || s == rules[i].to)
  }

  /** A known action is the action of some rule; for a non-empty name the converse holds too. */
  lemma KnownActionIffRule(rules: seq<Rule>, a: string)
    ensures KnownAction(rules, a) ==> HasRuleOn(rules, a)
    ensures !IsEmpty(a) ==> (KnownAction(rules, a) <==> HasRuleOn(rules, a))
  {
  }

  /** An action no rule names cannot fire from any state. */
  lemma CanFireNeedsRule(rules: seq<Rule>, s: string, a: string)
    ensures CanFire(rules, s, a) ==> HasRuleOn(rules, a)
  {
  }

  /** The target of the last rule triggered by `a`, or None when no rule is. */
  function LastTo(rules: seq<Rule>, a: string): (r: Option<string>)
    ensures r.None? <==> !HasRuleOn(rules, a)
    ensures r.Some? ==> exists i :: 0 <= i < |rules| && rules[i].on == a && rules[i].to == r.value
                                   && forall j :: i < j < |rules| ==> rules[j].on != a
  {
    if rules == [] then None
    else if rules[|rules| - 1].on == a then Some(rules[|rules| - 1].to)
    else
      var r := LastTo(rules[..|rules| - 1], a);
      assert forall j :: 0 <= j < |rules| - 1 ==> rules[..|rules| - 1][j] == rules[j];
      r
  }

  /** Splitting the table anywhere: a match in the later part overrides every match before it. */
  lemma {:induction false} LastToAppend(front: seq<Rule>, back: seq<Rule>, a: string)
    ensures LastTo(front + back, a) == if LastTo(back, a).Some? then LastTo(back, a) else LastTo(front, a)
    decreases |back|
  {
    if back == [] {
      assert front + back == front;
    } else {
      var n := |back| - 1;
      assert (front + back)[..|front + back| - 1] == front + back[..n];
      assert (front + back)[|front + back| - 1] == back[n];
      LastToAppend(front, back[..n], a);
    }
  }

  /** The state a fired action writes is always a known state. */
  lemma FiredStateIsKnown(c: Config, a: string)
    ensures LastTo(Transitions(c), a).Some? ==> KnownState(c, LastTo(Transitions(c), a).value)
  {
  }

  /** The target written is that of the last rule named `a`, even when only an earlier rule
      allows the current state: the source states are never consulted when writing. */
  lemma SaveStateIgnoresFrom()
    ensures var rules := [Rule(["draft"], "submitted", "go"), Rule(["archived"], "restored", "go")];
            CanFire(rules, "draft", "go") && "draft" !in rules[1].from
            && LastTo(rules, "go") == Some("restored")
  {
    var rules := [Rule(["draft"], "submitted", "go"), Rule(["archived"], "restored", "go")];
    assert rules[0].on == "go" && "draft" in rules[0].from;
  }
}
