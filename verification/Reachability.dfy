/** Runs of the admission machine, and what holds in every state one of them leads to. */
module Reachability {
  import opened Admission
  import opened AdmissionBounds
  import opened WakeUps
  import opened Draining

  ghost predicate Reachable(par: nat, s: State) {
    exists run :: Leads(par, EMPTY, run, s)
  }

  predicate Leads(par: nat, s: State, run: seq<Action>, t: State) {
    Legal(par, s, run) && Exec(par, s, run) == t
  }

  lemma {:induction false} Append(par: nat, s: State, run: seq<Action>, t: State, a: Action)
    requires Leads(par, s, run, t) && Enabled(t, a)
    ensures Leads(par, s, run + [a], Apply(par, t, a))
    decreases |run|
  {
    if run == [] {
      assert ([a])[1..] == [];
    } else {
      Append(par, Apply(par, s, run[0]), run[1..], t, a);
      assert (run + [a])[1..] == run[1..] + [a];
    }
  }

  lemma Advance(par: nat, s: State, a: Action)
    requires Reachable(par, s) && Enabled(s, a)
    ensures Reachable(par, Apply(par, s, a))
  {
    var run :| Leads(par, EMPTY, run, s);
    Append(par, EMPTY, run, s, a);
  }

  /** What every step keeps. */
  ghost predicate AllOk(par: nat, s: State) {
    CountsOk(par, s) && WakeOk(s) && DrainOk(s)
  }

  lemma AllStep(par: nat, s: State, a: Action)
    requires AllOk(par, s) && Enabled(s, a)
    ensures AllOk(par, Apply(par, s, a))
  {
    CountsStep(par, s, a);
    WakeStep(par, s, a);
    ShapeStep(par, s, a);
  }

  lemma ReachableOk(par: nat, s: State)
    requires Reachable(par, s)
    ensures AllOk(par, s)
  {
    var run :| Leads(par, EMPTY, run, s);
    StartsOk(par);
    CountsRun(par, EMPTY, run);
    WakeRun(par, EMPTY, run);
    ShapeRun(par, EMPTY, run);
  }
}
