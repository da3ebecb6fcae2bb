/** The main loop of every script folds one pass at a time over its inputs.
    The facts here hold for any pass function, so each script's run inherits
    them. */
module Runs {
  import opened Shared

  /** Passes applied left to right, effects appended in order. */
  function Run(step: (Globals, Input) -> Outcome, g: Globals, inputs: seq<Input>): Outcome {
    if inputs == [] then Outcome(g, [])
    else
      var before := Run(step, g, inputs[..|inputs| - 1]);
      var last := step(before.next, inputs[|inputs| - 1]);
      Outcome(last.next, before.effects + last.effects)
  }

  /** A run splits at any pass: the second part starts from where the first
      ended, and the effects are those of the parts in order. */
  lemma {:induction false} RunSplit(step: (Globals, Input) -> Outcome, g: Globals, a: seq<Input>, b: seq<Input>)
    ensures Run(step, g, a + b).next == Run(step, Run(step, g, a).next, b).next
    ensures Run(step, g, a + b).effects == Run(step, g, a).effects + Run(step, Run(step, g, a).next, b).effects
  {
    if b != [] {
      var front := b[..|b| - 1];
      assert (a + b)[..|a + b| - 1] == a + front;
      assert (a + b)[|a + b| - 1] == b[|b| - 1];
      RunSplit(step, g, a, front);
      var mid := Run(step, g, a);
      var rest := Run(step, mid.next, front);
      var last := step(rest.next, b[|b| - 1]);
      assert (mid.effects + rest.effects) + last.effects == mid.effects + (rest.effects + last.effects);
    } else {
      assert a + b == a;
    }
  }
}
