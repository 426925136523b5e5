/** Clients of the container, after the tests of the loops package.
 *
 *  The tests pass Connect's port arguments as (source output, destination
 *  input), while Connect takes (destination input, source output).
 *  Ode1Blocks registers the blocks of the first-order example x' = -x from
 *  ode1_test.go and shows that the test's own call for "tee -> neg" names an
 *  input the Scale block does not have, while the transposed call is accepted.
 */
module Ode1 {
  import Blocks
  import opened Loops

  /** The seven blocks of ode1_test.go get the indices 0 to 6 in the order
      they are added, with the slot counts of their kinds. */
  method Ode1Blocks() returns (s: System)
    ensures |s.blocks| == 7
    ensures s.blocks[0].block.IntegrateBlock? && s.blocks[0].block.integrate.State == 1.0
    ensures s.blocks[1].block == Other(1, 0)
    ensures s.blocks[5].block == SourceBlock(Blocks.Source(0.0))
    ensures s.blocks[6].block == Other(1, 1)
    ensures s.blocks[2].block == ScaleBlock(Blocks.Scale(-1.0)) && |s.blocks[2].In| == 1
    ensures s.blocks[4].block == TeeBlock(Blocks.Tee) && |s.blocks[4].Out| == 2
    ensures s.blocks[3].block == AddBlock(Blocks.Add) && |s.blocks[3].In| == 2
    ensures !CanConnect(s.blocks, |s.In|, |s.Out|, 4, 2, 1, 0)
    ensures CanConnect(s.blocks, |s.In|, |s.Out|, 4, 2, 0, 1)
    ensures CheckResult(s.blocks) == Some(InputNotConnected(0, 0))
  {
    var inte := new Blocks.Integrate(1.0);
    s := new System(0, 0);
    s.Add(IntegrateBlock(inte));               // 0
    s.Add(Other(1, 0));                        // 1: the plot, one channel
    s.Add(ScaleBlock(Blocks.Scale(-1.0)));     // 2: neg
    s.Add(AddBlock(Blocks.Add));               // 3
    s.Add(TeeBlock(Blocks.Tee));               // 4
    s.Add(SourceBlock(Blocks.Source(0.0)));    // 5: zeros
    s.Add(Other(1, 1));                        // 6: the stop block
    CheckReportsFirstUnbound(s.blocks, InputNotConnected(0, 0));
  }

  /** A constant source feeding a Scale block: Check names the Scale block's
      unbound output until it is connected to the container's boundary output
      1, after which Start reports success. */
  method SourceIntoScale() returns (before: Option<CheckError>, after: Option<CheckError>)
    ensures before == Some(OutputNotConnected(1, 0))
    ensures after == None
  {
    var s := new System(0, 2);
    s.Add(SourceBlock(Blocks.Source(1.0)));    // 0
    s.Add(ScaleBlock(Blocks.Scale(-1.0)));     // 1
    s.Connect(0, 1, 0, 0);                     // source output 0 -> scale input 0
    assert s.blocks[1].In[0] == Chan(0) && s.blocks[1].Out[0] == Nil;
    before := s.Check();
    CheckReportsFirstUnbound(s.blocks, OutputNotConnected(1, 0));
    s.Connect(1, 0, -1, 0);                    // scale output 0 -> boundary output 1
    after := s.Start();
  }
}
