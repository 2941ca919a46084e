/** Runs of a state machine: what follows when something holds of its steps. */
module Machine {
  /** Where a machine is after some steps. */
  function Run<S, T>(step: (S, T) -> S, s: S, steps: seq<T>): S
    decreases |steps|
  {
    if steps == [] then s else Run(step, step(s, steps[0]), steps[1..])
  }

  /** Every step of the run is one of those allowed where it is taken. */
  ghost predicate Allowed<S, T>(step: (S, T) -> S, ok: (S, T) -> bool, s: S, steps: seq<T>)
    decreases |steps|
  {
    steps == [] || (ok(s, steps[0]) && Allowed(step, ok, step(s, steps[0]), steps[1..]))
  }

  ghost predicate Preserved<S(!new), T(!new)>(step: (S, T) -> S, ok: (S, T) -> bool, inv: S -> bool) {
    forall s, t :: inv(s) && ok(s, t) ==> inv(step(s, t))
  }

  /** What every allowed step preserves holds after every allowed run. */
  lemma {:induction false} RunKeeps<S(!new), T(!new)>(
    step: (S, T) -> S, ok: (S, T) -> bool, inv: S -> bool, s: S, steps: seq<T>)
    requires Preserved(step, ok, inv) && inv(s) && Allowed(step, ok, s, steps)
    ensures inv(Run(step, s, steps))
    decreases |steps|
  {
    if steps != [] { RunKeeps(step, ok, inv, step(s, steps[0]), steps[1..]); }
  }

  ghost predicate Invariant<S(!new), T(!new)>(step: (S, T) -> S, inv: S -> bool) {
    forall s, t :: inv(s) ==> inv(step(s, t))
  }

  /** What every step preserves holds after every run. */
  lemma {:induction false} EveryRunKeeps<S(!new), T(!new)>(step: (S, T) -> S, inv: S -> bool, s: S, steps: seq<T>)
    requires Invariant(step, inv) && inv(s)
    ensures inv(Run(step, s, steps))
    decreases |steps|
  {
    if steps != [] { EveryRunKeeps(step, inv, step(s, steps[0]), steps[1..]); }
  }

  // ---- what can be reached ----

  ghost predicate Leads<S, T(!new)>(step: (S, T) -> S, s: S, t: S) { exists steps :: Run(step, s, steps) == t }

  lemma {:induction false} RunThen<S, T>(step: (S, T) -> S, s: S, steps: seq<T>, last: T)
    ensures Run(step, s, steps + [last]) == step(Run(step, s, steps), last)
    decreases |steps|
  {
    if steps == [] {
      assert steps + [last] == [last] && [last][1..] == [];
    } else {
      assert (steps + [last])[1..] == steps[1..] + [last];
      RunThen(step, step(s, steps[0]), steps[1..], last);
    }
  }

  lemma Here<S, T(!new)>(step: (S, T) -> S, s: S)
    ensures Leads(step, s, s)
  {
    assert Run(step, s, []) == s;
  }

  /** One step further. */
  lemma On<S, T(!new)>(step: (S, T) -> S, s: S, t: S, next: T) returns (u: S)
    requires Leads(step, s, t)
    ensures Leads(step, s, u) && u == step(t, next)
  {
    var steps: seq<T> :| Run(step, s, steps) == t;
    RunThen(step, s, steps, next);
    u := step(t, next);
  }

  // ---- one after another ----

  /** Each is related to the next. */
  ghost predicate Chain<S(!new)>(rel: (S, S) -> bool, path: seq<S>)
    decreases |path|
  {
    |path| < 2 || (Chain(rel, path[..|path| - 1]) && rel(path[|path| - 2], path[|path| - 1]))
  }

  lemma Lengthened<S(!new)>(rel: (S, S) -> bool, path: seq<S>, next: S)
    requires Chain(rel, path) && path != [] && rel(path[|path| - 1], next)
    ensures Chain(rel, path + [next])
  {
    var longer := path + [next];
    assert longer[..|longer| - 1] == path;
  }

  lemma {:induction false} ChainLink<S(!new)>(rel: (S, S) -> bool, path: seq<S>, i: nat)
    requires Chain(rel, path) && i + 1 < |path|
    ensures rel(path[i], path[i + 1])
    decreases |path|
  {
    if i + 2 < |path| { ChainLink(rel, path[..|path| - 1], i); }
  }

  /** What a relation that composes says of each link, it says of the ends. */
  lemma {:induction false} ChainComposes<S(!new)>(rel: (S, S) -> bool, far: (S, S) -> bool, path: seq<S>)
    requires Chain(rel, path) && |path| > 1
    requires forall a, b :: rel(a, b) ==> far(a, b)
    requires forall a, b, c :: far(a, b) && far(b, c) ==> far(a, c)
    ensures far(path[0], path[|path| - 1])
    decreases |path|
  {
    if |path| > 2 { ChainComposes(rel, far, path[..|path| - 1]); }
  }
}
