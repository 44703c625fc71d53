/**
  A guarded finite-state-machine engine (package fsm, fsm.go).

  A RuleSet maps a transition key (origin, exit) to an ordered list of
  guards; a transition attempt from the subject's current state to a goal
  is permitted when the key (current, goal) is registered and every guard
  registered under it holds. A Machine couples a RuleSet with a Subject and
  moves the subject to the goal only when the attempt is permitted.
 */
module Fsm {

  /** States are opaque identifiers, only ever compared for equality. */
  type State = int

  /** The transition key `T{O, E}`: an origin state and an exit (goal) state. */
  datatype T = T(O: State, E: State) {
    function Origin(): State { O }
    function Exit(): State { E }
  }

  /** Building a key from the accessors of a key gives back that key. */
  lemma KeyFromAccessors(t: T, o: State, e: State)
    ensures T(t.Origin(), t.Exit()) == t
    ensures T(o, e).Origin() == o && T(o, e).Exit() == e
  {
  }

  /**
    A guard, evaluated on (current state of the subject, goal state).
    `DefaultOrigin(o)` is the guard that AddTransition registers: it holds
    exactly when the subject is currently in state `o`. `Custom(f)` is any
    caller-supplied guard, taken to be a total, pure function.
   */
  datatype Guard = DefaultOrigin(o: State) | Custom(f: (State, State) -> bool)

  function Holds(g: Guard, current: State, goal: State): bool
  {
    match g
    case DefaultOrigin(o) => current == o
    case Custom(f) => f(current, goal)
  }

  /** The default guard for `t` holds exactly when the subject is at `t`'s origin, whatever the goal. */
  lemma DefaultGuardHolds(t: T, current: State, goal: State)
    ensures Holds(DefaultGuard(t), current, goal) <==> current == t.Origin()
  {
  }

  function DefaultGuard(t: T): Guard
  {
    DefaultOrigin(t.Origin())
  }

  /** The single error value of the package. */
  datatype Error = ErrInvalidTransition

  /** The result of Machine.Transition: Go's `nil` or an error. */
  datatype Outcome = Pass | Fail(error: Error)

  /** The guards registered for `t`; an absent key reads as the empty (nil) list. */
  function Guards(r: map<T, seq<Guard>>, t: T): seq<Guard>
  {
    if t in r then r[t] else []
  }

  predicate AllHold(gs: seq<Guard>, current: State, goal: State)
  {
    forall i :: 0 <= i < |gs| ==> Holds(gs[i], current, goal)
  }

  /**
    The decision of RuleSet.Permitted, loop-free: the key (current, goal) is
    registered and every guard under it holds.
   */
  predicate Allows(r: map<T, seq<Guard>>, current: State, goal: State)
    // fail-closed: an unregistered transition is never permitted
    ensures Allows(r, current, goal) ==> T(current, goal) in r
    // a registered key with no guards is permitted vacuously
    ensures T(current, goal) in r && |r[T(current, goal)]| == 0 ==> Allows(r, current, goal)
  {
    T(current, goal) in r && AllHold(r[T(current, goal)], current, goal)
  }

  /**
    The map that AddRule leaves behind: `gs` appended after the guards
    already registered for `t`; with no guards nothing is touched, so no
    entry is created for an unregistered `t`.
   */
  function AddedRule(r: map<T, seq<Guard>>, t: T, gs: seq<Guard>): (r': map<T, seq<Guard>>)
    ensures t in r' <==> t in r || |gs| > 0
    ensures |gs| > 0 ==> r'[t] == Guards(r, t) + gs
    ensures |gs| == 0 ==> r' == r
    ensures forall k :: k != t ==> (k in r' <==> k in r)
    ensures forall k :: k != t && k in r ==> r'[k] == r[k]
  {
    if |gs| == 0 then r else r[t := Guards(r, t) + gs]
  }

  /** The map that AddTransition leaves behind. */
  function AddedTransition(r: map<T, seq<Guard>>, t: T): map<T, seq<Guard>>
  {
    AddedRule(r, t, [DefaultGuard(t)])
  }

  /** The map CreateRuleSet builds: AddTransition folded over `ts`, left to right. */
  function Created(ts: seq<T>): map<T, seq<Guard>>
  {
    if |ts| == 0 then map[] else AddedTransition(Created(ts[..|ts| - 1]), ts[|ts| - 1])
  }

  /**
    The receive loop of Permitted: `outcomes` are the guard results in the
    order they arrive; the first false ends it with false, otherwise true.
   */
  function Drain(outcomes: seq<bool>): (b: bool)
    ensures b <==> forall k :: 0 <= k < |outcomes| ==> outcomes[k]
  {
    if |outcomes| == 0 then true
    else if !outcomes[0] then false
    else Drain(outcomes[1..])
  }

  // ----------------------------------------------------------------------
  // Lemmas about registration and permission
  // ----------------------------------------------------------------------

  lemma {:induction false} AllHoldAppend(a: seq<Guard>, b: seq<Guard>, current: State, goal: State)
    ensures AllHold(a + b, current, goal) <==> AllHold(a, current, goal) && AllHold(b, current, goal)
  {
    if AllHold(a, current, goal) && AllHold(b, current, goal) {
      forall i | 0 <= i < |a + b| ensures Holds((a + b)[i], current, goal) {
        if i < |a| { assert (a + b)[i] == a[i]; } else { assert (a + b)[i] == b[i - |a|]; }
      }
    }
    if AllHold(a + b, current, goal) {
      forall i | 0 <= i < |a| ensures Holds(a[i], current, goal) { assert (a + b)[i] == a[i]; }
      forall i | 0 <= i < |b| ensures Holds(b[i], current, goal) { assert (a + b)[|a| + i] == b[i]; }
    }
  }

  /**
    Adding guards to `t` only ever affects the attempt whose key is `t`, and
    there the decision becomes the conjunction of the old and new guards.
   */
  lemma AllowsAfterAddRule(r: map<T, seq<Guard>>, t: T, gs: seq<Guard>, current: State, goal: State)
    ensures Allows(AddedRule(r, t, gs), current, goal) ==
      if T(current, goal) == t && |gs| > 0
      then AllHold(Guards(r, t), current, goal) && AllHold(gs, current, goal)
      else Allows(r, current, goal)
  {
    if T(current, goal) == t && |gs| > 0 {
      AllHoldAppend(Guards(r, t), gs, current, goal);
    }
  }

  /**
    AddTransition(t) permits exactly one more attempt, `t` itself, and only
    if `t` had no entry; an existing entry keeps its decision, because the
    default guard always holds when the lookup key's origin is the current state.
   */
  lemma AllowsAfterAddTransition(r: map<T, seq<Guard>>, t: T, current: State, goal: State)
    ensures Allows(AddedTransition(r, t), current, goal) ==
      (Allows(r, current, goal) || (T(current, goal) == t && t !in r))
  {
    AllowsAfterAddRule(r, t, [DefaultGuard(t)], current, goal);
    if T(current, goal) == t {
      assert AllHold([DefaultGuard(t)], current, goal);
    }
  }

  /** The keys of CreateRuleSet(ts) are exactly the transitions listed in `ts`. */
  lemma {:induction false} CreatedKeys(ts: seq<T>)
    ensures forall k :: k in Created(ts) <==> k in ts
  {
    if |ts| > 0 {
      var prefix, last := ts[..|ts| - 1], ts[|ts| - 1];
      assert ts == prefix + [last];
      CreatedKeys(prefix);
    }
  }

  /** Each key of CreateRuleSet(ts) holds one default guard per occurrence in `ts`. */
  lemma {:induction false} CreatedEntries(ts: seq<T>, k: T)
    ensures |Guards(Created(ts), k)| == multiset(ts)[k]
    ensures forall i :: 0 <= i < |Guards(Created(ts), k)| ==> Guards(Created(ts), k)[i] == DefaultGuard(k)
  {
    if |ts| > 0 {
      var prefix, last := ts[..|ts| - 1], ts[|ts| - 1];
      assert ts == prefix + [last];
      assert multiset(ts) == multiset(prefix) + multiset{last};
      CreatedEntries(prefix, k);
    }
  }

  /**
    For a RuleSet built by CreateRuleSet(ts), the attempt (current, goal) is
    permitted exactly when the transition (current, goal) is listed in `ts`.
   */
  lemma CreatedPermitted(ts: seq<T>, current: State, goal: State)
    ensures Allows(Created(ts), current, goal) <==> T(current, goal) in ts
  {
    var key := T(current, goal);
    CreatedKeys(ts);
    CreatedEntries(ts, key);
    if key in ts {
      forall i | 0 <= i < |Created(ts)[key]| ensures Holds(Created(ts)[key][i], current, goal) {
        DefaultGuardHolds(key, current, goal);
      }
    }
  }

  /**
    Permitted evaluates the guards concurrently and drains their results in
    whatever order they arrive. For every arrival order that delivers each
    guard's result once, the drained answer is the conjunction of all
    guards, so a sequential evaluation decides the same.
   */
  lemma ArrivalOrderIrrelevant(gs: seq<Guard>, order: seq<nat>, current: State, goal: State)
    requires |order| == |gs|
    requires forall k :: 0 <= k < |order| ==> order[k] < |gs|
    requires forall i :: 0 <= i < |gs| ==> i in order
    ensures Drain(seq(|order|, k requires 0 <= k < |order| => Holds(gs[order[k]], current, goal)))
            == AllHold(gs, current, goal)
  {
    var outcomes := seq(|order|, k requires 0 <= k < |order| => Holds(gs[order[k]], current, goal));
    if !AllHold(gs, current, goal) {
      var i :| 0 <= i < |gs| && !Holds(gs[i], current, goal);
      assert i in order;
      var k :| 0 <= k < |order| && order[k] == i;
      assert !outcomes[k];
    }
  }

  /**
    States Idle = 0 and Running = 1, rules created from Idle -> Running:
    from Idle, Running is permitted; from Running, Running is not, because
    the lookup key (Running, Running) is not registered.
   */
  lemma IdleRunningExample()
    ensures Allows(Created([T(0, 1)]), 0, 1)
    ensures !Allows(Created([T(0, 1)]), 1, 1)
  {
    CreatedPermitted([T(0, 1)], 0, 1);
    CreatedPermitted([T(0, 1)], 1, 1);
  }

  /** Guards [always true, always false] deny the transition; [always true, always true] permit it. */
  lemma ConjunctionExample(t: T)
    ensures !Allows(AddedRule(map[], t, [Custom((c, g) => true), Custom((c, g) => false)]), t.O, t.E)
    ensures Allows(AddedRule(map[], t, [Custom((c, g) => true), Custom((c, g) => true)]), t.O, t.E)
  {
    var deny := [Custom((c, g) => true), Custom((c, g) => false)];
    var allow := [Custom((c, g) => true), Custom((c, g) => true)];
    AllowsAfterAddRule(map[], t, deny, t.O, t.E);
    assert !Holds(deny[1], t.O, t.E);
    AllowsAfterAddRule(map[], t, allow, t.O, t.E);
  }

  // ----------------------------------------------------------------------
  // Objects
  // ----------------------------------------------------------------------

  /** A subject (the Stater interface): it reports and accepts a current state. */
  class Subject {
    var state: State

    constructor (initial: State)
      ensures state == initial
    {
      state := initial;
    }

    method CurrentState() returns (s: State)
      ensures s == state
    {
      s := state;
    }

    /** Never rejects: any validation is the guards' business. */
    method SetState(s: State)
      modifies this
      ensures state == s
    {
      state := s;
    }
  }

  /** A RuleSet: a mutable map from transition keys to ordered guard lists. */
  class RuleSet {
    var rules: map<T, seq<Guard>>

    /** The empty RuleSet, `RuleSet{}`. */
    constructor ()
      ensures rules == map[]
    {
      rules := map[];
    }

    /** Appends `guards`, one at a time and in order, to the list registered for `t`. */
    method AddRule(t: T, guards: seq<Guard>)
      modifies this
      ensures rules == AddedRule(old(rules), t, guards)
    {
      for i := 0 to |guards|
        invariant rules == AddedRule(old(rules), t, guards[..i])
      {
        assert guards[..i + 1] == guards[..i] + [guards[i]];
        assert Guards(rules, t) + [guards[i]] == Guards(old(rules), t) + guards[..i + 1];
        rules := rules[t := Guards(rules, t) + [guards[i]]];
      }
      assert guards[..|guards|] == guards;
    }

    /** Registers `t` with the single default guard "current state == t.Origin()". */
    method AddTransition(t: T)
      modifies this
      ensures rules == AddedTransition(old(rules), t)
    {
      AddRule(t, [DefaultGuard(t)]);
    }

    /**
      Looks up (subject's current state, goal); an absent key is denied,
      otherwise the guards' results are drained until one is false.
     */
    method Permitted(subject: Subject, goal: State) returns (ok: bool)
      ensures ok == Allows(rules, subject.state, goal)
    {
      var current := subject.CurrentState();
      var attempt := T(current, goal);
      if attempt in rules {
        var guards := rules[attempt];
        for i := 0 to |guards|
          invariant forall j :: 0 <= j < i ==> Holds(guards[j], current, goal)
        {
          if !Holds(guards[i], current, goal) {
            return false;
          }
        }
        return true;
      }
      return false;
    }
  }

  /** CreateRuleSet: a fresh RuleSet with AddTransition applied to each of `ts` in order. */
  method CreateRuleSet(ts: seq<T>) returns (r: RuleSet)
    ensures fresh(r)
    ensures r.rules == Created(ts)
  {
    r := new RuleSet();
    for i := 0 to |ts|
      invariant fresh(r)
      invariant r.rules == Created(ts[..i])
    {
      assert ts[..i + 1][..i] == ts[..i];
      r.AddTransition(ts[i]);
    }
    assert ts[..|ts|] == ts;
  }

  /** A Machine: a pairing of rules and a subject, both replaceable at any time. */
  class Machine {
    var rules: RuleSet
    var subject: Subject

    /** New: stores exactly the given rules and subject, validating nothing. */
    constructor New(rules: RuleSet, subject: Subject)
      ensures this.rules == rules && this.subject == subject
    {
      this.rules := rules;
      this.subject := subject;
    }

    /**
      Moves the subject to `goal` when the attempt is permitted; otherwise
      reports ErrInvalidTransition and leaves the subject as it was.
     */
    method Transition(goal: State) returns (result: Outcome)
      modifies subject
      ensures old(Allows(rules.rules, subject.state, goal)) ==> result == Pass && subject.state == goal
      ensures !old(Allows(rules.rules, subject.state, goal)) ==>
        result == Fail(ErrInvalidTransition) && subject.state == old(subject.state)
    {
      var permitted := rules.Permitted(subject, goal);
      if permitted {
        subject.SetState(goal);
        return Pass;
      }
      return Fail(ErrInvalidTransition);
    }
  }

  /**
    Usage example, not a model of a source operation: CreateRuleSet, New and
    Transition together, driving a machine through Idle -> Running.
   */
  method IdleRunningScenario()
  {
    var rules := CreateRuleSet([T(0, 1)]);
    var subject := new Subject(0);
    var m := new Machine.New(rules, subject);
    IdleRunningExample();
    var first := m.Transition(1);
    assert first == Pass && subject.state == 1;
    var second := m.Transition(1);
    assert second == Fail(ErrInvalidTransition) && subject.state == 1;
  }
}
