/** Runs of the machine: composition and reachability. */
module Runs {
  import opened Options
  import opened Machine

  lemma RunSnoc(s: State, steps: seq<Step>, a: Step)
    ensures Run(s, steps + [a]) == match Run(s, steps) case None => None case Some(t) => Do(t, a)
  {
    assert (steps + [a])[..|steps|] == steps;
  }

  lemma {:induction false} RunAppend(s: State, a: seq<Step>, b: seq<Step>)
    ensures Run(s, a + b) == match Run(s, a) case None => None case Some(t) => Run(t, b)
    decreases |b|
  {
    if b == [] {
      assert a + b == a;
    } else {
      var init, last := b[..|b| - 1], b[|b| - 1];
      RunAppend(s, a, init);
      assert a + b == (a + init) + [last];
      RunSnoc(s, a + init, last);
    }
  }

  lemma ReachableStep(s: State, a: Step, s': State)
    requires Reachable(s) && Do(s, a) == Some(s')
    ensures Reachable(s')
  {
    var bad, steps :| Run(Start0(bad), steps) == Some(s);
    RunSnoc(Start0(bad), steps, a);
    assert Run(Start0(bad), steps + [a]) == Some(s');
  }

  lemma ReachableRun(s: State, steps: seq<Step>, s': State)
    requires Reachable(s) && Run(s, steps) == Some(s')
    ensures Reachable(s')
  {
    var bad, before :| Run(Start0(bad), before) == Some(s);
    RunAppend(Start0(bad), before, steps);
    assert Run(Start0(bad), before + steps) == Some(s');
  }
}
