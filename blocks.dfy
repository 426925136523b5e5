/** The standard blocks of the loops package.
 *
 *  Every block has a fixed number of inputs and outputs and a Step that reads
 *  one value per input from `input` and writes one value per output into the
 *  caller's `output` buffer, in place.  Signal values are `real` numbers: the
 *  float64 rounding of the Go code is not modelled.  The package-wide step
 *  size DT is passed to the stateful blocks as the parameter `dt`.
 *
 *  Step only demands buffers at least as long as the block's arity (a shorter
 *  one would make the Go code index out of range), and reads its inputs
 *  through `old(input[..])`, so a caller passing the same array twice is covered.
 */
module Blocks {

  /** Scale multiplies its input with a constant factor.  A value receiver:
      Step has no state to change. */
  datatype Scale = Scale(factor: real) {
    function Inputs(): nat { 1 }
    function Outputs(): nat { 1 }

    method Step(input: array<real>, output: array<real>)
      requires input.Length >= Inputs() && output.Length >= Outputs()
      modifies output
      ensures output[0] == factor * old(input[0])
      ensures forall k :: Outputs() <= k < output.Length ==> output[k] == old(output[k])
    {
      output[0] := factor * input[0];
    }
  }

  /** Add sums its two inputs.  An empty struct in the Go code. */
  datatype Add = Add {
    function Inputs(): nat { 2 }
    function Outputs(): nat { 1 }

    method Step(input: array<real>, output: array<real>)
      requires input.Length >= Inputs() && output.Length >= Outputs()
      modifies output
      ensures output[0] == old(input[0]) + old(input[1])
      ensures forall k :: Outputs() <= k < output.Length ==> output[k] == old(output[k])
    {
      output[0] := input[0] + input[1];
    }
  }

  /** Integrate does explicit Euler time integration: its State, which the
      owner may set as the initial condition, is updated in place. */
  class Integrate {
    var State: real

    constructor (x0: real)
      ensures State == x0
    {
      State := x0;
    }

    function Inputs(): nat { 1 }
    function Outputs(): nat { 1 }

    method Step(dt: real, input: array<real>, output: array<real>)
      requires input.Length >= Inputs() && output.Length >= Outputs()
      modifies this, output
      ensures State == old(State) + old(input[0]) * dt
      ensures output[0] == State
      ensures old(input[0]) == 0.0 ==> State == old(State)
      ensures forall k :: Outputs() <= k < output.Length ==> output[k] == old(output[k])
    {
      State := State + input[0] * dt;
      output[0] := State;
    }

    /** Steps the integrator once per element of `ins`, in order, the way a
        worker of System.Start drives its block: one input and one output
        buffer, reused for every call.  The state follows the fold
        Integrated, and the k-th output is the state after k + 1 steps. */
    method Run(dt: real, ins: seq<real>) returns (outs: seq<real>)
      modifies this
      ensures State == Integrated(old(State), dt, ins)
      ensures |outs| == |ins|
      ensures forall k :: 0 <= k < |ins| ==> outs[k] == Integrated(old(State), dt, ins[..k + 1])
    {
      var x := new real[Inputs()];
      var y := new real[Outputs()];
      outs := [];
      var k := 0;
      while k < |ins|
        invariant 0 <= k <= |ins|
        invariant State == Integrated(old(State), dt, ins[..k])
        invariant |outs| == k
        invariant forall j :: 0 <= j < k ==> outs[j] == Integrated(old(State), dt, ins[..j + 1])
      {
        x[0] := ins[k];
        IntegratedStep(old(State), dt, ins[..k], ins[k]);
        assert ins[..k + 1] == ins[..k] + [ins[k]];
        Step(dt, x, y);
        outs := outs + [y[0]];
        k := k + 1;
      }
      assert ins[..k] == ins;
    }
  }

  /** The integrator's State after one Step per element of `ins`, in order,
      starting from State `x0` with step size `dt`. */
  function Integrated(x0: real, dt: real, ins: seq<real>): real
  {
    if ins == [] then x0 else Integrated(x0, dt, ins[..|ins| - 1]) + ins[|ins| - 1] * dt
  }

  /** One more Step adds `v * dt` to the accumulated state, exactly as
      Integrate.Step does. */
  lemma {:induction false} IntegratedStep(x0: real, dt: real, ins: seq<real>, v: real)
    ensures Integrated(x0, dt, ins + [v]) == Integrated(x0, dt, ins) + v * dt
  {
    assert (ins + [v])[..|ins|] == ins;
  }

  /** Derivative zero: an integrator fed only zeros keeps its initial state. */
  lemma {:induction false} IntegratedZeroInput(x0: real, dt: real, ins: seq<real>)
    requires forall k :: 0 <= k < |ins| ==> ins[k] == 0.0
    ensures Integrated(x0, dt, ins) == x0
  {
    if ins != [] {
      IntegratedZeroInput(x0, dt, ins[..|ins| - 1]);
    }
  }

  /** A constant input `c` for `n` steps moves the state by `n * c * dt`. */
  lemma {:induction false} IntegratedConstantInput(x0: real, dt: real, c: real, n: nat)
    ensures Integrated(x0, dt, seq(n, _ => c)) == x0 + (n as real) * c * dt
  {
    if n > 0 {
      var ins := seq(n, _ => c);
      assert ins[..n - 1] == seq(n - 1, _ => c);
      IntegratedConstantInput(x0, dt, c, n - 1);
    }
  }

  /** Source emits its constant each time it is stepped; it has no inputs. */
  datatype Source = Source(value: real) {
    function Inputs(): nat { 0 }
    function Outputs(): nat { 1 }

    method Step(input: array<real>, output: array<real>)
      requires input.Length >= Inputs() && output.Length >= Outputs()
      modifies output
      ensures output[0] == value
      ensures forall k :: Outputs() <= k < output.Length ==> output[k] == old(output[k])
    {
      output[0] := value;
    }
  }

  /** Print is a terminal block: it shows time and input on the console (not
      modelled) and advances its own simulated time by one step size. */
  class Print {
    var time: real

    constructor ()
      ensures time == 0.0
    {
      time := 0.0;
    }

    function Inputs(): nat { 1 }
    function Outputs(): nat { 0 }

    method Step(dt: real, input: array<real>, output: array<real>)
      requires input.Length >= Inputs() && output.Length >= Outputs()
      modifies this
      ensures time == old(time) + dt
      ensures output[..] == old(output[..])
    {
      time := time + dt;
    }
  }

  /** Tee copies its single input to both of its outputs. */
  datatype Tee = Tee {
    function Inputs(): nat { 1 }
    function Outputs(): nat { 2 }

    method Step(input: array<real>, output: array<real>)
      requires input.Length >= Inputs() && output.Length >= Outputs()
      modifies output
      ensures output[0] == old(input[0]) && output[1] == old(input[0])
      ensures forall k :: Outputs() <= k < output.Length ==> output[k] == old(output[k])
    {
      var x := input[0];
      output[0] := x;
      output[1] := x;
    }
  }
}
