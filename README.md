# eloquent-state-machine, modelled in Dafny

A model of the `StateMachine` mixin of eloquent-state-machine: a finite-state machine
attached to a persisted record. The record holds its current state in one attribute
(named `state` unless configured), an optional map `state_change_at` from state name to
entry timestamp, and two scratch fields, `fromTransition` and `toTransition`, that hold the
pending transition. The configuration is an ordered table of rules `{from, to, on}`, an
initial state (default `"initiated"`) and a flag that turns history tracking on.

Files:

- `wrappers.dfy`: `Option`, for PHP's nullable values and unset properties.
- `rules.dfy`: module `Rules`, the rule table and configuration as values, and the
  reference definitions the record's methods are proved against, with lemmas about them.
  The configuration readers are `Transitions` (`getTransitions`), `InitialState`
  (`getInitialState`), `FieldName` (the attribute-name default in `getFieldState`) and
  `TracksChangeAt` (`isActiveStateChangeAt`). `Initialised` is the lazy write of the initial
  state into an empty field. `CanFire`, `KnownAction` and `KnownState` are what `can`,
  `isAvailableAction` and `isAvailableState` compute. `LastTo` is the target the transition
  step writes.
- `naming.dfy`: module `Naming`, the classification of a dynamically called method name
  into `can…`, `is…`, `…At` or a bare action.
- `machine.dfy`: module `StateMachine`, class `Record` with the fields the mixin updates in
  place and one method per operation; each loop is proved against the reference definition
  it computes.
- `scenario.dfy`: a client that submits and approves a draft through the dispatcher.

PHP's `empty()` and string truthiness are both modelled as `IsEmpty`: the empty string or
`"0"`. An unset state attribute is modelled as `""`, an unset history as the empty map.

The model follows the code on these points, where a state-machine user might expect
something else:

- The transition step never consults `from` lists and has no early exit. Every rule whose
  `on` equals the action overwrites the state, so the last one wins. The legality check
  happens only in the dispatcher, and it may be passed by a different rule. A user might
  expect the step to write a target only after checking its rule's `from` list; it does not.
  `Rules.SaveStateIgnoresFrom` shows a table where the two differ.
- A `can…`, `is…` or `…At` name whose remainder is unknown, in both its verbatim and
  snake-case forms, is handed on to the parent class's `__call`. It does not answer false.
- The guard queries are not pure: `can` and `isState` initialise an empty state field.
  `can` does so only when some rule names the action.
- When no rule names the action, the transition step still initialises the state field.

## Model

| member | source | states |
|---|---|---|
| `Rules.ConfigDefaults` | src/StateMachine.php:121-134 | unset transitions, initial state, state attribute name and tracking flag default to `[]`, `"initiated"`, `"state"` and off; set ones are used as given |
| `Rules.InitialisedNonEmpty` | src/StateMachine.php:112-124 | a non-empty field is left as it is; an empty one becomes the initial state; the result is non-empty whenever the initial state is |
| `Rules.InitialisedIdempotent` | src/StateMachine.php:112-119 | lazy initialisation changes nothing the second time |
| `Rules.KnownActionIffRule` | src/StateMachine.php:146-155 | an available action is the `on` of some rule; for a non-empty name, being some rule's `on` is also sufficient |
| `Rules.CanFireNeedsRule` | src/StateMachine.php:77-90 | an action that no rule names can never fire |
| `Rules.LastTo` | src/StateMachine.php:175-182 | None exactly when no rule is named by the action; otherwise the `to` of a rule named by it with no later rule named by it |
| `Rules.LastToAppend` | src/StateMachine.php:175-182 | over a table split in two, a match in the later part overrides every earlier match |
| `Rules.FiredStateIsKnown` | src/StateMachine.php:157-182 | the state written by the transition step is always an available state |
| `Rules.SaveStateIgnoresFrom` | src/StateMachine.php:170-183 | for a concrete table, the action is legal from `draft` through its first rule, but the step writes the target of its last rule, whose `from` excludes `draft` |
| `Naming.Classify` | src/StateMachine.php:44-62 | a name is a `can` query iff it starts with `can` and then a capital; an `is` query iff it is not a `can` query and starts with `is` and then a capital; a timestamp query iff neither and it ends in `At` after a `[A-z]` character; otherwise a bare action. The remainder recomposes the name |
| `Naming.PatternOrder` | src/StateMachine.php:44-62 | overlapping names go to the first pattern: `canAt` is a `can` query, `isAt` an `is` query, `canceledAt` a timestamp query, `At` a bare name |
| `StateMachine.Record.constructor` | src/StateMachine.php:10-11 | a record starts with no pending transition and the given state and history |
| `StateMachine.Record.GetFieldState` | src/StateMachine.php:112-119 | returns the state attribute name and leaves the field initialised: unchanged when non-empty, the initial state when empty |
| `StateMachine.Record.Can` | src/StateMachine.php:77-90 | true iff some rule named by the action lists the initialised state in `from`; the field is initialised exactly when some rule is named by the action |
| `StateMachine.Record.IsState` | src/StateMachine.php:92-96 | true iff the argument equals the initialised state exactly |
| `StateMachine.Record.IsAvailableAction` | src/StateMachine.php:146-155 | true iff some rule has a non-empty `on` equal to the argument |
| `StateMachine.Record.IsAvailableState` | src/StateMachine.php:157-168 | true iff the argument is the initial state, in some rule's `from` or some rule's `to` |
| `StateMachine.Record.SaveState` | src/StateMachine.php:170-184 | `fromTransition` is the initialised pre-call state; when some rule is named by the action, the state and `toTransition` are the `to` of the last such rule; otherwise the state is the initialised old state and `toTransition` is unchanged; returns the save's result |
| `StateMachine.Record.SetStateChangeAt` | src/StateMachine.php:186-197 | tracking off: nothing changes. Tracking on: the field is initialised; if it is non-empty, the history is the old history updated to map it to `now`, so every other entry keeps its value |
| `StateMachine.Record.StateChangeAt` | src/StateMachine.php:98-110 | absent whenever tracking is off, whatever the history holds; otherwise the parse of the entry for the name, else of the entry for its snake-case form, else of the text `Not Found` |
| `StateMachine.Record.Creating` | src/StateMachine.php:22-29 | the state field is initialised, then the current state is stamped with `now` when tracking and non-empty, and the history is unchanged otherwise |
| `StateMachine.Record.Saving` | src/StateMachine.php:33-36 | stamps the history exactly as `SetStateChangeAt`, which initialises the field only when tracking |
| `StateMachine.Record.Call` | src/StateMachine.php:42-75 | `can` query: unhandled unless the remainder or its snake form is an available action, else the OR of `can` over both. `is` query: unhandled unless one form is an available state, else whether either form equals the state. Timestamp query: unhandled unless one form is an available state, else the first present of the two lookups, with the state untouched. Bare name: unhandled unless an available action; if `can` holds for it or its snake form, the transition step runs with the name; otherwise `InvalidStateTransition` carries the initialised state and the name, and the state field and scratch fields are left as they were, apart from the lazy initialisation |

## Left out

- Persistence: `save()` is represented by its boolean result, passed in as `persisted`.
  The `saving`/`creating` hooks that `save()` itself fires are separate methods. They are
  not invoked from `SaveState`.
- Hook registration and firing order in `bootStateMachine`: only the `creating` and `saving` hook bodies are modelled. The `created` and `saved` hooks only call `afterTransition`, and `beforeTransition` and `afterTransition` are empty by default, so they are left out.
- `parent::__call` is the `Unhandled` outcome. `getCasts` (the attribute cast of the history) is not modelled.
- The clock: `Carbon::now()->toW3cString()` is the `now` parameter. Carbon's parser, and the exception it swallows, are the `parse` parameter, which returns an `Option`.
- `snake_case` is the uninterpreted `snake` parameter. `saveState` computes the snake-case form of its action but never uses it, so the model does not compute it.
- `array_flatten` on `from`: a rule's `from` is already a flat list, and a bare string is a one-element list.
- `array_get` dot-notation keys (a key containing `.` looks into nested arrays) are not modelled. Neither are PHP's integer-like array keys. Lookups are plain map lookups.
- Rules with a missing `on` or `to` key, which PHP reads as null, are not modelled. Every rule carries both strings.
- Numeric-string coercion: `in_array` in `can` and `isAvailableState` compares loosely, so `"1"` matches `"01"`. The model compares exactly.
- Regular expressions: the three patterns are stated directly as predicates. A name ending in `At` followed by a newline also matches PCRE's `$`, and the model does not include that case.
- A `null` state attribute and a `null` history are modelled as `""` and the empty map. Assigning the history on a record whose history was unset turns null into an empty array, which the model does not distinguish.
