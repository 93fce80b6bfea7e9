/** A left-to-right loop that threads one piece of state through a sequence of
    steps: the particle loop of one exposure and the exposure loop of a run
    both carry the propagator's scattering-vector cache this way. The first
    failing step ends the loop with its error. */
module Threading {
  import opened Wrappers

  /** What one step hands back: its output and the state after it. */
  datatype Stepped<E, S> = Stepped(output: E, state: S)

  /** What the loop hands back: the outputs in input order and the final state. */
  datatype Threaded<E, S> = Threaded(outputs: seq<E>, state: S)

  /** The step may be taken on every input, whatever the state. */
  ghost predicate Enabled<D, E, S(!new), Err>(step: (S, D) --> Result<Stepped<E, S>, Err>, ds: seq<D>) {
    forall s, i :: 0 <= i < |ds| ==> step.requires(s, ds[i])
  }

  function Thread<D, E, S(!new), Err>(step: (S, D) --> Result<Stepped<E, S>, Err>, state: S, ds: seq<D>): (r: Result<Threaded<E, S>, Err>)
    requires Enabled(step, ds)
    ensures r.Success? ==> |r.value.outputs| == |ds|
    decreases |ds|
  {
    if ds == [] then Success(Threaded([], state))
    else
      var n := |ds| - 1;
      var before :- Thread(step, state, ds[..n]);
      var next :- step(before.state, ds[n]);
      Success(Threaded(before.outputs + [next.output], next.state))
  }

  /** Output i of a successful loop is what the step makes of input i in the
      state the first i steps left behind. */
  lemma {:induction false} ThreadOutput<D, E, S(!new), Err>(step: (S, D) --> Result<Stepped<E, S>, Err>, state: S, ds: seq<D>, i: nat)
    requires Enabled(step, ds) && i < |ds|
    requires Thread(step, state, ds).Success?
    ensures Thread(step, state, ds[..i]).Success?
    ensures step(Thread(step, state, ds[..i]).value.state, ds[i]).Success?
    ensures Thread(step, state, ds).value.outputs[i] ==
            step(Thread(step, state, ds[..i]).value.state, ds[i]).value.output
    decreases |ds|
  {
    var n := |ds| - 1;
    var before := Thread(step, state, ds[..n]);
    assert before.Success?;
    var next := step(before.value.state, ds[n]);
    assert next.Success?;
    assert Thread(step, state, ds).value.outputs == before.value.outputs + [next.value.output];
    if i < n {
      assert ds[..n][..i] == ds[..i];
      assert ds[..n][i] == ds[i];
      ThreadOutput(step, state, ds[..n], i);
    } else {
      assert ds[..i] == ds[..n];
    }
  }

  /** A failure within the first m inputs is the failure of the whole loop. */
  lemma {:induction false} ThreadFailureFinal<D, E, S(!new), Err>(step: (S, D) --> Result<Stepped<E, S>, Err>, state: S, ds: seq<D>, m: nat)
    requires Enabled(step, ds) && m <= |ds|
    requires Thread(step, state, ds[..m]).Failure?
    ensures Thread(step, state, ds) == Thread(step, state, ds[..m])
    decreases |ds|
  {
    if m == |ds| {
      assert ds[..m] == ds;
    } else {
      var n := |ds| - 1;
      assert ds[..n][..m] == ds[..m];
      ThreadFailureFinal(step, state, ds[..n], m);
    }
  }

  /** The loop from the empty prefix one input further. */
  lemma ThreadExtend<D, E, S(!new), Err>(step: (S, D) --> Result<Stepped<E, S>, Err>, state: S, ds: seq<D>, i: nat)
    requires Enabled(step, ds) && i < |ds|
    requires Thread(step, state, ds[..i]).Success?
    ensures Thread(step, state, ds[..i + 1]) ==
      var before := Thread(step, state, ds[..i]).value;
      var next := step(before.state, ds[i]);
      if next.Failure? then Failure(next.error)
      else Success(Threaded(before.outputs + [next.value.output], next.value.state))
  {
    assert ds[..i + 1][..i] == ds[..i];
    assert ds[..i + 1][i] == ds[i];
  }

  /** Two states are interchangeable for a step on input d when the step
      succeeds from both or from neither, with the same output, and both
      states it leaves satisfy the invariant. */
  ghost predicate Interchangeable<D, E, S, Err>(step: (S, D) --> Result<Stepped<E, S>, Err>, inv: S -> bool, s1: S, s2: S, d: D)
    requires step.requires(s1, d) && step.requires(s2, d)
  {
    && (step(s1, d).Success? <==> step(s2, d).Success?)
    && (step(s1, d).Success? ==>
          && step(s1, d).value.output == step(s2, d).value.output
          && inv(step(s1, d).value.state)
          && inv(step(s2, d).value.state))
  }

  /** When any two states satisfying the invariant are interchangeable for
      every step, they are interchangeable for the whole loop: the state is
      transparent. */
  lemma {:induction false} ThreadTransparent<D, E, S(!new), Err>(step: (S, D) --> Result<Stepped<E, S>, Err>, inv: S -> bool, s1: S, s2: S, ds: seq<D>)
    requires Enabled(step, ds)
    requires forall a, b, i {:trigger Interchangeable(step, inv, a, b, ds[i])} ::
      0 <= i < |ds| && inv(a) && inv(b) ==> Interchangeable(step, inv, a, b, ds[i])
    requires inv(s1) && inv(s2)
    ensures Thread(step, s1, ds).Success? <==> Thread(step, s2, ds).Success?
    ensures Thread(step, s1, ds).Success? ==>
      && Thread(step, s1, ds).value.outputs == Thread(step, s2, ds).value.outputs
      && inv(Thread(step, s1, ds).value.state)
      && inv(Thread(step, s2, ds).value.state)
    decreases |ds|
  {
    if ds != [] {
      var n := |ds| - 1;
      var prefix := ds[..n];
      assert Enabled(step, prefix);
      forall a, b, i | 0 <= i < |prefix| && inv(a) && inv(b)
        ensures Interchangeable(step, inv, a, b, prefix[i])
      {
        assert prefix[i] == ds[i];
      }
      ThreadTransparent(step, inv, s1, s2, prefix);
      var b1 := Thread(step, s1, prefix);
      var b2 := Thread(step, s2, prefix);
      if b1.Success? {
        assert Interchangeable(step, inv, b1.value.state, b2.value.state, ds[n]);
      }
    }
  }
}
