# fsm: a guarded state-machine engine, modelled in Dafny

The Go package `fsm` decides whether a subject may move from its current
state to a goal state, and applies the move if it may. A `RuleSet` maps a
transition key `T{O, E}` (origin, exit) to an ordered list of guards. An
attempt is looked up under the key (subject's current state, goal). An
absent key is denied. A present key is permitted when every guard under it
returns true. A `Machine` pairs a `*RuleSet` with a subject (`Stater`). Its
`Transition(goal)` calls `SetState(goal)` only when the attempt is
permitted; otherwise it returns `ErrInvalidTransition`.

The model is one module, `Fsm`, in `fsm.dfy`:

- `T` is a datatype with the accessors `Origin` and `Exit`.
- A guard is `DefaultOrigin(o)` (the guard `AddTransition` registers) or
  `Custom(f)`, a total function of (current state, goal).
- `RuleSet` is a class whose field `rules: map<T, seq<Guard>>` is updated
  in place, as the Go map is. `AddRule`, `AddTransition` and
  `CreateRuleSet` are methods proved against the functions `AddedRule`,
  `AddedTransition` and `Created`.
- `RuleSet.Permitted` is a method with the source's drain loop, proved
  against the loop-free predicate `Allows`.
- `Subject` stands for a caller's `Stater`. `Machine` holds a `RuleSet` and
  a `Subject`.

`AddRule` with zero guards creates no entry for the key: its loop
(fsm.go:40-42) never runs in that case. `AddedRule` states this. An empty
guard list can therefore arise only from a map built by hand, and `Allows`
permits such an entry vacuously, as the code does (fsm.go:80-89).

## Model

| member | source | states |
|---|---|---|
| `Fsm.KeyFromAccessors` | fsm.go:25-33 | `Origin` and `Exit` return the two components of `T{O, E}`, and rebuilding a key from them gives the same key |
| `Fsm.DefaultGuardHolds` | fsm.go:47-48 | the default guard for `t` holds iff the subject's current state is `t.Origin()`, whatever the goal |
| `Fsm.AddedRule` | fsm.go:39-43 | the entry for `t` becomes the old entry (nil if absent) followed by the new guards, in order; every other key keeps its entry and membership; with zero guards the map is unchanged, so no entry for `t` is created |
| `Fsm.Allows` | fsm.go:68-92 | fail-closed: a permitted attempt always has a registered key; a registered key with an empty guard list is permitted vacuously |
| `Fsm.Drain` | fsm.go:80-89 | the receive loop returns true iff every received outcome is true (false at the first false) |
| `Fsm.AllHoldAppend` | fsm.go:41 | the conjunction over appended guard lists is the conjunction of the two parts |
| `Fsm.AllowsAfterAddRule` | fsm.go:39-43 | after `AddRule(t, gs)` only the attempt keyed `t` can change its decision, and with `gs` non-empty it becomes "old guards all hold and new guards all hold" |
| `Fsm.AllowsAfterAddTransition` | fsm.go:46-50 | `AddTransition(t)` permits exactly one new attempt, `t` itself, and only when `t` had no entry; an existing entry keeps its decision |
| `Fsm.CreatedKeys` | fsm.go:54-62 | the key set of `CreateRuleSet(ts)` is exactly the transitions listed in `ts` |
| `Fsm.CreatedEntries` | fsm.go:54-62 | each key of `CreateRuleSet(ts)` holds one default guard per occurrence of that key in `ts` |
| `Fsm.CreatedPermitted` | fsm.go:54-71 | for a RuleSet from `CreateRuleSet(ts)`, attempting `goal` from `current` is permitted iff `T{current, goal}` is in `ts` |
| `Fsm.ArrivalOrderIrrelevant` | fsm.go:72-89 | whatever order the concurrently computed guard outcomes arrive in, draining them gives the conjunction of all guards |
| `Fsm.IdleRunningExample` | fsm.go:54-92 | with rules created from Idle -> Running, Running is permitted from Idle and denied from Running |
| `Fsm.ConjunctionExample` | fsm.go:80-89 | guards [true, false] deny a transition, guards [true, true] permit it |
| `Fsm.Subject.constructor` | fsm.go:96-99 | a subject starts in the state it is given |
| `Fsm.Subject.CurrentState` | fsm.go:97 | reports the current state |
| `Fsm.Subject.SetState` | fsm.go:98 | sets the state unconditionally |
| `Fsm.RuleSet.constructor` | fsm.go:55 | `RuleSet{}` is the empty map |
| `Fsm.RuleSet.AddRule` | fsm.go:39-43 | appending the guards one by one leaves the map `AddedRule(old map, t, guards)` |
| `Fsm.RuleSet.AddTransition` | fsm.go:46-50 | appends exactly the one default guard for `t` to the entry for `t` |
| `Fsm.RuleSet.Permitted` | fsm.go:68-92 | the result is `Allows(rules, subject's current state, goal)`: key registered and every guard true |
| `Fsm.CreateRuleSet` | fsm.go:54-62 | returns a fresh RuleSet whose map is `AddTransition` folded over `ts` from the empty map |
| `Fsm.Machine.New` | fsm.go:120-126 | the machine stores exactly the given rules and subject |
| `Fsm.Machine.Transition` | fsm.go:110-117 | if the attempt is permitted the subject's state becomes `goal` and the result is success; otherwise the result is `ErrInvalidTransition` and the state is unchanged |

## Left out

- Concurrency in `Permitted` (fsm.go:72-87). The model evaluates guards one after another in list order. `ArrivalOrderIrrelevant` shows that any arrival order of the outcomes gives the same answer. Guards that keep running after an early `false`, and the goroutines left blocked on the unbuffered channel, have no functional result and are not modelled.
- Guards that do not terminate, that mutate the subject, or that depend on anything other than (current state, goal). A guard is a total, pure function of those two states.
- The `Transition` interface as a map key. The model keys the map by the pair `T` only. Go code looks rules up with a concrete `T` (fsm.go:69), so rules registered under another implementation of the interface would never match.
- Data races: concurrent `Transition` calls sharing one subject (the lost-update race), and replacing `Machine.Rules` or `Machine.Subject` during a call (fsm.go:101-107).
- A nil `*RuleSet` in a `Machine` and the panic it causes. `Machine.rules` is a non-null reference.
- `Stater` is an interface that callers implement. The model has one concrete `Subject` class with the behaviour the interface requires.
- `ErrInvalidTransition` is a constructor of a result datatype, not an `errors.New` value.
- `RuleSet`: the model's rule set always holds a map. A Go `RuleSet` may be a nil map (`var r fsm.RuleSet`), on which `AddRule` with at least one guard and `AddTransition` panic at fsm.go:41, while zero-guard `AddRule` does nothing and `Permitted` returns false. The model covers non-nil maps only.
- `AddedRule`: its "other keys keep their entries" clause assumes that no two entries share slice storage. In Go, entries built by hand from one slice with spare capacity (`s := make([]Guard, 0, 4); r := RuleSet{t1: s, t2: s}`) alias, so `append` at fsm.go:41 for one key can overwrite guards the other key reads. Maps built only through `CreateRuleSet`, `AddTransition` and `AddRule` never alias this way. The model treats guard lists as values.
