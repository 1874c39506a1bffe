/**
 * The state-machine record: a persisted model whose state field, state-history map and
 * pending-transition scratch fields are updated in place by the guard queries, the
 * transition step, the history stamp, the save hooks and the method-name dispatcher.
 */
module StateMachine {
  import opened Wrappers
  import opened Rules
  import opened Naming

  /** What a dynamically called name yields. `Unhandled` stands for the call being passed on
      to the parent class's `__call`. */
  datatype Outcome<T> =
    | Answer(holds: bool)
    | ChangedAt(at: Option<T>)
    | Saved(ok: bool)
    | InvalidStateTransition(from: string, action: string)
    | Unhandled

  class Record {
    const config: Config
    /** The attribute named by FieldName(config); "" stands for an unset attribute. */
    var state: string
    /** The `state_change_at` attribute: state name to entry timestamp; an unset one is empty. */
    var history: map<string, string>
    var fromTransition: Option<string>
    var toTransition: Option<string>

    constructor (config: Config, state: string, history: map<string, string>)
      ensures this.config == config && this.state == state && this.history == history
      ensures fromTransition == None && toTransition == None
    {
      this.config := config;
      this.state := state;
      this.history := history;
      fromTransition := None;
      toTransition := None;
    }

    /** Returns the name of the state attribute, first writing the initial state into an
        empty state field. */
    method GetFieldState() returns (name: string)
      modifies this`state
      ensures name == FieldName(config)
      ensures state == Initialised(config, old(state))
      ensures !IsEmpty(old(state)) ==> state == old(state)
      ensures !IsEmpty(InitialState(config)) ==> !IsEmpty(state)
    {
      name := FieldName(config);
      if IsEmpty(state) {
        state := InitialState(config);
      }
    }

    /** Whether `action` may fire from the current state. The field is lazily initialised
        only when some rule names `action`, since only then is it looked at. */
    method Can(action: string) returns (b: bool)
      modifies this`state
      ensures b <==> CanFire(Transitions(config), Initialised(config, old(state)), action)
      ensures state == if HasRuleOn(Transitions(config), action) then Initialised(config, old(state)) else old(state)
    {
      var rules := Transitions(config);
      for i := 0 to |rules|
        invariant forall j :: 0 <= j < i ==> !(rules[j].on == action && Initialised(config, old(state)) in rules[j].from)
        invariant state == if exists j :: 0 <= j < i && rules[j].on == action then Initialised(config, old(state)) else old(state)
      {
        if action == rules[i].on {
          var _ := GetFieldState();
          if state in rules[i].from {
            return true;
          }
        }
      }
      return false;
    }

    /** Whether the record is in state `s`: exact equality with the initialised field. */
    method IsState(s: string) returns (b: bool)
      modifies this`state
      ensures state == Initialised(config, old(state))
      ensures b <==> s == state
    {
      var _ := GetFieldState();
      b := s == state;
    }

    /** Whether `action` is the non-empty action of some rule; scans the rules in order. */
    method IsAvailableAction(action: string) returns (b: bool)
      ensures b <==> KnownAction(Transitions(config), action)
    {
      var rules := Transitions(config);
      for i := 0 to |rules|
        invariant forall j :: 0 <= j < i ==> !(!IsEmpty(rules[j].on) && rules[j].on == action)
      {
        var valid := rules[i].on;
        if !IsEmpty(valid) && valid == action {
          return true;
        }
      }
      return false;
    }

    /** Whether `s` is a known state: the initial state, or a source or target of a rule.
        Collects every such state, then looks `s` up. */
    method IsAvailableState(s: string) returns (b: bool)
      ensures b <==> KnownState(config, s)
    {
      var rules := Transitions(config);
      var states := [InitialState(config)];
      for i := 0 to |rules|
        invariant forall x :: x in states <==>
          x == InitialState(config) || exists j :: 0 <= j < i && (x in rules[j].from || x == rules[j].to)
      {
        states := states + rules[i].from + [rules[i].to];
      }
      b := s in states;
    }

    /** The transition step: records the current state as the origin, then writes the target
        of every rule named `action`, so the last such rule wins; source states are not
        checked. `persisted` is the outcome of the persistence layer's save. */
    method SaveState(action: string, persisted: bool) returns (ok: bool)
      modifies this`state, this`fromTransition, this`toTransition
      ensures ok == persisted
      ensures fromTransition == Some(Initialised(config, old(state)))
      ensures LastTo(Transitions(config), action).Some? ==>
        state == LastTo(Transitions(config), action).value && toTransition == LastTo(Transitions(config), action)
      ensures LastTo(Transitions(config), action).None? ==>
        state == Initialised(config, old(state)) && toTransition == old(toTransition)
    {
      var rules := Transitions(config);
      var _ := GetFieldState();
      fromTransition := Some(state);
      for i := 0 to |rules|
        invariant fromTransition == Some(Initialised(config, old(state)))
        invariant LastTo(rules[..i], action).Some? ==>
          state == LastTo(rules[..i], action).value && toTransition == LastTo(rules[..i], action)
        invariant LastTo(rules[..i], action).None? ==>
          state == Initialised(config, old(state)) && toTransition == old(toTransition)
      {
        assert rules[..i + 1][..i] == rules[..i];
        if action == rules[i].on {
          toTransition := Some(rules[i].to);
          state := rules[i].to;
        }
      }
      assert rules[..|rules|] == rules;
      ok := persisted;
    }

    /** The history stamp: when tracking, records `now` as the entry time of the current
        (initialised) state, keeping every other entry. */
    method SetStateChangeAt(now: string)
      modifies this`state, this`history
      ensures !TracksChangeAt(config) ==> state == old(state) && history == old(history)
      ensures TracksChangeAt(config) ==> state == Initialised(config, old(state))
      ensures TracksChangeAt(config) && IsEmpty(state) ==> history == old(history)
      ensures TracksChangeAt(config) && !IsEmpty(state) ==> history == old(history)[state := now]
    {
      if TracksChangeAt(config) {
        var stamps := history;
        var _ := GetFieldState();
        if !IsEmpty(state) {
          stamps := stamps[state := now];
        }
        history := stamps;
      }
    }

    /** The entry time recorded for `s` (or for its snake-case form), parsed; absent when
        tracking is off, whatever the history holds. A missing entry is parsed as the text
        "Not Found", which a parser rejects. */
    function StateChangeAt<T>(s: string, snake: string -> string, parse: string -> Option<T>): (r: Option<T>)
      reads this
      ensures !TracksChangeAt(config) ==> r == None
      ensures TracksChangeAt(config) && s in history ==> r == parse(history[s])
      ensures TracksChangeAt(config) && s !in history && snake(s) in history ==> r == parse(history[snake(s)])
      ensures TracksChangeAt(config) && s !in history && snake(s) !in history ==> r == parse("Not Found")
    {
      if TracksChangeAt(config) then
        var time := if s in history then history[s] else if snake(s) in history then history[snake(s)] else "Not Found";
        parse(time)
      else
        None
    }

    /** The `creating` hook: defaults an empty state field to the initial state, then stamps
        the history. */
    method Creating(now: string)
      modifies this`state, this`history
      ensures state == Initialised(config, old(state))
      ensures !TracksChangeAt(config) || IsEmpty(state) ==> history == old(history)
      ensures TracksChangeAt(config) && !IsEmpty(state) ==> history == old(history)[state := now]
    {
      var _ := GetFieldState();
      if IsEmpty(state) {
        state := InitialState(config);
      }
      SetStateChangeAt(now);
    }

    /** The `saving` hook: stamps the history (which initialises the field only when tracking). */
    method Saving(now: string)
      modifies this`state, this`history
      ensures state == if TracksChangeAt(config) then Initialised(config, old(state)) else old(state)
      ensures !TracksChangeAt(config) || IsEmpty(state) ==> history == old(history)
      ensures TracksChangeAt(config) && !IsEmpty(state) ==> history == old(history)[state := now]
    {
      SetStateChangeAt(now);
    }

    /** The method-name dispatcher. `snake` is the snake-case conversion, `parse` the timestamp
        parser and `persisted` the outcome of the save a fired action performs. */
    method Call<T>(name: string, snake: string -> string, parse: string -> Option<T>, persisted: bool)
      returns (r: Outcome<T>)
      modifies this`state, this`fromTransition, this`toTransition
      ensures Classify(name).CanQuery? ==>
        var a, rules := Classify(name).action, Transitions(config);
        if KnownAction(rules, a) || KnownAction(rules, snake(a)) then
          var s := Initialised(config, old(state));
          r == Answer(CanFire(rules, s, a) || CanFire(rules, s, snake(a))) && state == s
        else
          r == Unhandled && state == old(state)
      ensures Classify(name).IsQuery? ==>
        var q := Classify(name).state;
        if KnownState(config, q) || KnownState(config, snake(q)) then
          var s := Initialised(config, old(state));
          r == Answer(q == s || snake(q) == s) && state == s
        else
          r == Unhandled && state == old(state)
      ensures Classify(name).AtQuery? ==>
        var q := Classify(name).state;
        state == old(state) &&
        if KnownState(config, q) || KnownState(config, snake(q)) then
          r == ChangedAt(StateChangeAt(q, snake, parse).Or(StateChangeAt(snake(q), snake, parse)))
        else
          r == Unhandled
      ensures !Classify(name).Bare? ==>
        fromTransition == old(fromTransition) && toTransition == old(toTransition)
      ensures Classify(name).Bare? ==>
        var rules, s := Transitions(config), Initialised(config, old(state));
        if !KnownAction(rules, name) then
          r == Unhandled && state == old(state)
          && fromTransition == old(fromTransition) && toTransition == old(toTransition)
        else if CanFire(rules, s, name) || CanFire(rules, s, snake(name)) then
          r == Saved(persisted) && fromTransition == Some(s)
          && LastTo(rules, name).Some? && state == LastTo(rules, name).value && toTransition == LastTo(rules, name)
        else
          r == InvalidStateTransition(s, name) && state == s
          && fromTransition == old(fromTransition) && toTransition == old(toTransition)
    {
      var rules := Transitions(config);
      match Classify(name) {
      case CanQuery(a) =>
        var known := IsAvailableAction(a);
        if !known {
          known := IsAvailableAction(snake(a));
        }
        if known {
          KnownActionIffRule(rules, a);
          KnownActionIffRule(rules, snake(a));
          var b := Can(a);
          if !b {
            b := Can(snake(a));
          }
          return Answer(b);
        }
      case IsQuery(q) =>
        var known := IsAvailableState(q);
        if !known {
          known := IsAvailableState(snake(q));
        }
        if known {
          var b := IsState(q);
          if !b {
            b := IsState(snake(q));
          }
          return Answer(b);
        }
      case AtQuery(q) =>
        var known := IsAvailableState(q);
        if !known {
          known := IsAvailableState(snake(q));
        }
        if known {
          return ChangedAt(StateChangeAt(q, snake, parse).Or(StateChangeAt(snake(q), snake, parse)));
        }
      case Bare(_) =>
        var known := IsAvailableAction(name);
        if known {
          KnownActionIffRule(rules, name);
          var legal := Can(name);
          if !legal {
            legal := Can(snake(name));
          }
          if legal {
            var ok := SaveState(name, persisted);
            return Saved(ok);
          } else {
            var _ := GetFieldState();
            return InvalidStateTransition(state, name);
          }
        }
      }
      r := Unhandled;
    }
  }
}
