/** The System container of the loops package: a table that binds every port
 *  of every registered block to a channel, validated before the run starts.
 *
 *  A channel made by `make(chan float64)` is modelled by a number drawn from
 *  the container's counter `nextChan`; an unbound (nil) slot is `Nil`.  The
 *  object invariant Valid() says that every bound slot holds a number below
 *  the counter, so the next number is a channel nobody holds yet.
 */
module Loops {
  import Blocks

  /** The Block interface: anything with a Step and a fixed arity.  One variant
      per standard block, and any other application block (the plot, the stop
      block) by its arity alone.  A System is not among them: its Step takes
      channel slices, so it does not have the interface's Step. */
  datatype Block =
    | ScaleBlock(scale: Blocks.Scale)
    | AddBlock(add: Blocks.Add)
    | IntegrateBlock(integrate: Blocks.Integrate)
    | SourceBlock(source: Blocks.Source)
    | PrintBlock(printer: Blocks.Print)
    | TeeBlock(tee: Blocks.Tee)
    | Other(inputs: nat, outputs: nat)
  {
    function Inputs(): nat
    {
      match this
      case ScaleBlock(b) => b.Inputs()
      case AddBlock(b) => b.Inputs()
      case IntegrateBlock(b) => b.Inputs()
      case SourceBlock(b) => b.Inputs()
      case PrintBlock(b) => b.Inputs()
      case TeeBlock(b) => b.Inputs()
      case Other(n, _) => n
    }

    function Outputs(): nat
    {
      match this
      case ScaleBlock(b) => b.Outputs()
      case AddBlock(b) => b.Outputs()
      case IntegrateBlock(b) => b.Outputs()
      case SourceBlock(b) => b.Outputs()
      case PrintBlock(b) => b.Outputs()
      case TeeBlock(b) => b.Outputs()
      case Other(_, m) => m
    }
  }

  /** The fixed arities of the standard blocks. */
  lemma Arities(sc: Blocks.Scale, ad: Blocks.Add, ig: Blocks.Integrate, src: Blocks.Source,
                pr: Blocks.Print, te: Blocks.Tee)
    ensures ScaleBlock(sc).Inputs() == 1 && ScaleBlock(sc).Outputs() == 1
    ensures AddBlock(ad).Inputs() == 2 && AddBlock(ad).Outputs() == 1
    ensures IntegrateBlock(ig).Inputs() == 1 && IntegrateBlock(ig).Outputs() == 1
    ensures SourceBlock(src).Inputs() == 0 && SourceBlock(src).Outputs() == 1
    ensures PrintBlock(pr).Inputs() == 1 && PrintBlock(pr).Outputs() == 0
    ensures TeeBlock(te).Inputs() == 1 && TeeBlock(te).Outputs() == 2
  {
  }

  /** A port's binding: nil, or the channel with the given number. */
  datatype Channel = Nil | Chan(id: nat)

  /** A registered block with one slot per input and one per output. */
  datatype IoBlock = IoBlock(block: Block, In: seq<Channel>, Out: seq<Channel>)

  /** The configuration error Check reports: which block, which port. */
  datatype CheckError =
    | InputNotConnected(block: nat, port: nat)
    | OutputNotConnected(block: nat, port: nat)

  datatype Option<T> = None | Some(value: T)

  /** `n` unbound slots. */
  function Unbound(n: nat): (r: seq<Channel>)
    ensures |r| == n && forall p :: 0 <= p < n ==> r[p] == Nil
  {
    seq(n, _ => Nil)
  }

  predicate Bound(ports: seq<Channel>)
  {
    forall p :: 0 <= p < |ports| ==> ports[p].Chan?
  }

  /** Every input and every output slot of every block holds a channel. */
  predicate Connected(bs: seq<IoBlock>)
  {
    forall b :: 0 <= b < |bs| ==> Bound(bs[b].In) && Bound(bs[b].Out)
  }

  /** Every channel number held by `ports` is below `n`. */
  predicate Below(ports: seq<Channel>, n: nat)
  {
    forall p :: 0 <= p < |ports| ==> ports[p].Nil? || ports[p].id < n
  }

  /** The position of the first unbound slot of `ports`, or |ports| if every
      slot is bound: the inner loops of Check. */
  function FirstNil(ports: seq<Channel>): (r: nat)
    ensures r <= |ports|
    ensures forall p :: 0 <= p < r ==> ports[p].Chan?
    ensures r < |ports| ==> ports[r].Nil?
  {
    if ports == [] || ports[0].Nil? then 0 else 1 + FirstNil(ports[1..])
  }

  /** Check's scan from block `b` on: inputs before outputs, block by block. */
  function CheckFrom(bs: seq<IoBlock>, b: nat): Option<CheckError>
    requires b <= |bs|
    decreases |bs| - b
  {
    if b == |bs| then None
    else if FirstNil(bs[b].In) < |bs[b].In| then Some(InputNotConnected(b, FirstNil(bs[b].In)))
    else if FirstNil(bs[b].Out) < |bs[b].Out| then Some(OutputNotConnected(b, FirstNil(bs[b].Out)))
    else CheckFrom(bs, b + 1)
  }

  /** What Check returns for the block table `bs`. */
  function CheckResult(bs: seq<IoBlock>): Option<CheckError>
  {
    CheckFrom(bs, 0)
  }

  /** `e` names an unbound slot and every slot scanned before it, from block
      `from` on, is bound: the declarative meaning of Check's report. */
  predicate FirstUnboundFrom(bs: seq<IoBlock>, from: nat, e: CheckError)
  {
    from <= e.block < |bs| &&
    (forall j :: from <= j < e.block ==> Bound(bs[j].In) && Bound(bs[j].Out)) &&
    match e
    case InputNotConnected(k, p) =>
      p < |bs[k].In| && bs[k].In[p].Nil? &&
      forall q :: 0 <= q < p ==> bs[k].In[q].Chan?
    case OutputNotConnected(k, p) =>
      Bound(bs[k].In) && p < |bs[k].Out| && bs[k].Out[p].Nil? &&
      forall q :: 0 <= q < p ==> bs[k].Out[q].Chan?
  }

  predicate IsFirstUnbound(bs: seq<IoBlock>, e: CheckError)
  {
    FirstUnboundFrom(bs, 0, e)
  }

  lemma {:induction false} CheckFromNoneIff(bs: seq<IoBlock>, b: nat)
    requires b <= |bs|
    ensures CheckFrom(bs, b) == None <==>
            forall k :: b <= k < |bs| ==> Bound(bs[k].In) && Bound(bs[k].Out)
    decreases |bs| - b
  {
    if b < |bs| {
      CheckFromNoneIff(bs, b + 1);
      if Bound(bs[b].In) && Bound(bs[b].Out) {
        assert FirstNil(bs[b].In) == |bs[b].In|;
        assert FirstNil(bs[b].Out) == |bs[b].Out|;
      }
    }
  }

  /** Check reports nothing exactly when every slot of every block is bound. */
  lemma {:induction false} CheckNoneIffConnected(bs: seq<IoBlock>)
    ensures CheckResult(bs) == None <==> Connected(bs)
  {
    CheckFromNoneIff(bs, 0);
  }

  /** In a table where every block has one slot per declared port, Check finds
      nothing exactly when every declared input and output port is bound. */
  lemma {:induction false} CheckNoneIffDeclaredPortsBound(bs: seq<IoBlock>)
    requires Shaped(bs)
    ensures CheckResult(bs) == None <==>
      (forall b, p :: 0 <= b < |bs| && 0 <= p < bs[b].block.Inputs() ==> bs[b].In[p].Chan?) &&
      (forall b, p :: 0 <= b < |bs| && 0 <= p < bs[b].block.Outputs() ==> bs[b].Out[p].Chan?)
  {
    CheckNoneIffConnected(bs);
  }

  lemma {:induction false} CheckFromIsFirst(bs: seq<IoBlock>, b: nat, e: CheckError)
    requires b <= |bs|
    ensures CheckFrom(bs, b) == Some(e) <==> FirstUnboundFrom(bs, b, e)
    decreases |bs| - b
  {
    if b < |bs| {
      CheckFromIsFirst(bs, b + 1, e);
      var ins, outs := bs[b].In, bs[b].Out;
      if FirstUnboundFrom(bs, b, e) && e.block == b {
        match e
        case InputNotConnected(_, p) =>
          assert FirstNil(ins) == p;
        case OutputNotConnected(_, p) =>
          assert FirstNil(ins) == |ins|;
          assert FirstNil(outs) == p;
      }
      if Bound(ins) && Bound(outs) {
        assert FirstNil(ins) == |ins| && FirstNil(outs) == |outs|;
      }
    }
  }

  /** When Check fails, it names the first unbound slot in block order,
      inputs before outputs, and no other. */
  lemma {:induction false} CheckReportsFirstUnbound(bs: seq<IoBlock>, e: CheckError)
    ensures CheckResult(bs) == Some(e) <==> IsFirstUnbound(bs, e)
  {
    CheckFromIsFirst(bs, 0, e);
  }

  /** Registering one more block keeps an earlier report; otherwise the new
      block's first input (or, with no inputs, first output) is reported. */
  lemma {:induction false} CheckAfterAdd(bs: seq<IoBlock>, blk: Block, n: nat, m: nat)
    ensures CheckResult(bs + [IoBlock(blk, Unbound(n), Unbound(m))]) ==
            if CheckResult(bs).Some? then CheckResult(bs)
            else if n > 0 then Some(InputNotConnected(|bs|, 0))
            else if m > 0 then Some(OutputNotConnected(|bs|, 0))
            else None
  {
    var bs' := bs + [IoBlock(blk, Unbound(n), Unbound(m))];
    var r := CheckResult(bs');
    CheckNoneIffConnected(bs);
    match CheckResult(bs)
    case Some(e) =>
      CheckReportsFirstUnbound(bs, e);
      CheckReportsFirstUnbound(bs', e);
    case None =>
      if n > 0 {
        CheckReportsFirstUnbound(bs', InputNotConnected(|bs|, 0));
      } else if m > 0 {
        CheckReportsFirstUnbound(bs', OutputNotConnected(|bs|, 0));
      } else {
        CheckNoneIffConnected(bs');
      }
  }

  /** The arguments Connect accepts: a non-negative port index names a slot of
      a registered block; a negative one names the container's boundary slot
      at its negation, which therefore never reaches boundary slot 0. */
  predicate CanConnect(bs: seq<IoBlock>, nIn: nat, nOut: nat, src: int, dst: int, i: int, o: int)
  {
    (i < 0 ==> -i < nOut) &&
    (i >= 0 ==> 0 <= dst < |bs| && i < |bs[dst].In|) &&
    (o < 0 ==> -o < nIn) &&
    (o >= 0 ==> 0 <= src < |bs| && o < |bs[src].Out|)
  }

  /** The block table after Connect stores channel `c` in dst's input slot
      `i` (when i >= 0) and then in src's output slot `o` (when o >= 0). */
  function Bind(bs: seq<IoBlock>, src: int, dst: int, i: int, o: int, c: Channel): seq<IoBlock>
    requires i >= 0 ==> 0 <= dst < |bs| && i < |bs[dst].In|
    requires o >= 0 ==> 0 <= src < |bs| && o < |bs[src].Out|
  {
    var bs1 := if i >= 0 then bs[dst := bs[dst].(In := bs[dst].In[i := c])] else bs;
    if o >= 0 then bs1[src := bs1[src].(Out := bs1[src].Out[o := c])] else bs1
  }

  /** A boundary array after Connect stores `c` at slot -k, for negative k. */
  function BindBoundary(ports: seq<Channel>, k: int, c: Channel): seq<Channel>
    requires k < 0 ==> -k < |ports|
  {
    if k < 0 then ports[-k := c] else ports
  }

  /** Connect keeps the table's shape and the blocks, puts `c` in the two
      named slots, and leaves every other slot as it was. */
  lemma BindSlots(bs: seq<IoBlock>, src: int, dst: int, i: int, o: int, c: Channel)
    requires i >= 0 ==> 0 <= dst < |bs| && i < |bs[dst].In|
    requires o >= 0 ==> 0 <= src < |bs| && o < |bs[src].Out|
    ensures var r := Bind(bs, src, dst, i, o, c);
      |r| == |bs| &&
      (forall b :: 0 <= b < |r| ==>
         r[b].block == bs[b].block && |r[b].In| == |bs[b].In| && |r[b].Out| == |bs[b].Out|) &&
      (i >= 0 ==> r[dst].In[i] == c) &&
      (o >= 0 ==> r[src].Out[o] == c) &&
      (forall b, p :: 0 <= b < |r| && 0 <= p < |r[b].In| && !(i >= 0 && b == dst && p == i) ==>
         r[b].In[p] == bs[b].In[p]) &&
      (forall b, p :: 0 <= b < |r| && 0 <= p < |r[b].Out| && !(o >= 0 && b == src && p == o) ==>
         r[b].Out[p] == bs[b].Out[p])
  {
  }

  /** Every registered block has one slot per port it declares. */
  predicate Shaped(bs: seq<IoBlock>)
  {
    forall b :: 0 <= b < |bs| ==>
      |bs[b].In| == bs[b].block.Inputs() && |bs[b].Out| == bs[b].block.Outputs()
  }

  /** Every channel number in the block table is below `n`. */
  predicate TableBelow(bs: seq<IoBlock>, n: nat)
  {
    forall b :: 0 <= b < |bs| ==> Below(bs[b].In, n) && Below(bs[b].Out, n)
  }

  /** One point-to-point edge: a channel that no slot held before is, after
      Connect, read at exactly one input slot (dst's input i, or the boundary
      output -i) and written at exactly one output slot (src's output o, or
      the boundary input -o). */
  lemma {:induction false} BindSingleEdge(bs: seq<IoBlock>, ins: seq<Channel>, outs: seq<Channel>,
                                          src: int, dst: int, i: int, o: int, n: nat)
    requires CanConnect(bs, |ins|, |outs|, src, dst, i, o)
    requires TableBelow(bs, n) && Below(ins, n) && Below(outs, n)
    ensures var r, rIn, rOut := Bind(bs, src, dst, i, o, Chan(n)),
                               BindBoundary(ins, o, Chan(n)), BindBoundary(outs, i, Chan(n));
      (forall b, p :: 0 <= b < |r| && 0 <= p < |r[b].In| ==>
         (r[b].In[p] == Chan(n) <==> i >= 0 && b == dst && p == i)) &&
      (forall b, p :: 0 <= b < |r| && 0 <= p < |r[b].Out| ==>
         (r[b].Out[p] == Chan(n) <==> o >= 0 && b == src && p == o)) &&
      (forall p :: 0 <= p < |rOut| ==> (rOut[p] == Chan(n) <==> i < 0 && p == -i)) &&
      (forall p :: 0 <= p < |rIn| ==> (rIn[p] == Chan(n) <==> o < 0 && p == -o))
  {
    BindSlots(bs, src, dst, i, o, Chan(n));
  }

  /** Connect keeps every channel number below the advanced counter. */
  lemma {:induction false} BindBelow(bs: seq<IoBlock>, ins: seq<Channel>, outs: seq<Channel>,
                                     src: int, dst: int, i: int, o: int, n: nat)
    requires CanConnect(bs, |ins|, |outs|, src, dst, i, o)
    requires TableBelow(bs, n) && Below(ins, n) && Below(outs, n)
    ensures TableBelow(Bind(bs, src, dst, i, o, Chan(n)), n + 1)
    ensures Below(BindBoundary(ins, o, Chan(n)), n + 1) && Below(BindBoundary(outs, i, Chan(n)), n + 1)
  {
    BindSlots(bs, src, dst, i, o, Chan(n));
  }

  /** A System registers blocks and binds their ports to channels.  Its own
      boundary slots In and Out are meant for use as a sub-system; Inputs and
      Outputs report their lengths. */
  class System {
    var In: seq<Channel>
    var Out: seq<Channel>
    var blocks: seq<IoBlock>
    var nextChan: nat

    ghost predicate Valid()
      reads this
    {
      Below(In, nextChan) && Below(Out, nextChan) && TableBelow(blocks, nextChan) &&
      Shaped(blocks)
    }

    /** Some slot of the container holds channel `c`. */
    ghost predicate Holds(c: Channel)
      reads this
    {
      c in In || c in Out ||
      exists b :: 0 <= b < |blocks| && (c in blocks[b].In || c in blocks[b].Out)
    }

    /** A container with the given numbers of unbound boundary slots and no
        blocks. */
    constructor (inputs: nat, outputs: nat)
      ensures Valid()
      ensures In == Unbound(inputs) && Out == Unbound(outputs)
      ensures blocks == [] && nextChan == 0
      ensures Inputs() == inputs && Outputs() == outputs
    {
      In := Unbound(inputs);
      Out := Unbound(outputs);
      blocks := [];
      nextChan := 0;
    }

    /** The number of boundary input slots; Add and Connect keep it. */
    function Inputs(): (r: nat)
      reads this
      ensures r == |In|
    {
      |In|
    }

    /** The number of boundary output slots; Add and Connect keep it. */
    function Outputs(): (r: nat)
      reads this
      ensures r == |Out|
    {
      |Out|
    }

    /** Registers `b` as block number old(|blocks|), with as many unbound
        input and output slots as `b` declares. */
    method Add(b: Block)
      requires Valid()
      modifies this
      ensures Valid()
      ensures blocks == old(blocks) + [IoBlock(b, Unbound(b.Inputs()), Unbound(b.Outputs()))]
      ensures In == old(In) && Out == old(Out) && nextChan == old(nextChan)
      ensures Inputs() == old(Inputs()) && Outputs() == old(Outputs())
    {
      var io := IoBlock(b, Unbound(b.Inputs()), Unbound(b.Outputs()));
      blocks := blocks + [io];
    }

    /** Makes one new channel and stores it in dst's input slot i (or the
        boundary output -i) and in src's output slot o (or the boundary input
        -o).  Whatever those two slots held is overwritten; BindSlots and
        BindSingleEdge say what that leaves in every slot. */
    method Connect(src: int, dst: int, i: int, o: int)
      requires Valid()
      requires CanConnect(blocks, |In|, |Out|, src, dst, i, o)
      modifies this
      ensures Valid()
      ensures nextChan == old(nextChan) + 1
      ensures !old(Holds(Chan(nextChan)))
      ensures blocks == Bind(old(blocks), src, dst, i, o, Chan(old(nextChan)))
      ensures Out == BindBoundary(old(Out), i, Chan(old(nextChan)))
      ensures In == BindBoundary(old(In), o, Chan(old(nextChan)))
      ensures Inputs() == old(Inputs()) && Outputs() == old(Outputs())
    {
      var c := Chan(nextChan);
      BindBelow(blocks, In, Out, src, dst, i, o, nextChan);
      BindSlots(blocks, src, dst, i, o, c);
      nextChan := nextChan + 1;
      if i < 0 {
        Out := Out[-i := c];
      } else {
        blocks := blocks[dst := blocks[dst].(In := blocks[dst].In[i := c])];
      }
      if o < 0 {
        In := In[-o := c];
      } else {
        blocks := blocks[src := blocks[src].(Out := blocks[src].Out[o := c])];
      }
    }

    /** Walks the blocks in order, each block's inputs before its outputs, and
        returns the first unbound slot; the boundary slots are not examined. */
    method Check() returns (err: Option<CheckError>)
      ensures err == CheckResult(blocks)
      ensures err == None <==> Connected(blocks)
    {
      CheckNoneIffConnected(blocks);
      var i := 0;
      while i < |blocks|
        invariant 0 <= i <= |blocks|
        invariant CheckFrom(blocks, i) == CheckResult(blocks)
      {
        var b := blocks[i];
        var k := 0;
        while k < |b.In|
          invariant 0 <= k <= |b.In|
          invariant forall q :: 0 <= q < k ==> b.In[q].Chan?
        {
          if b.In[k] == Nil {
            return Some(InputNotConnected(i, k));
          }
          k := k + 1;
        }
        k := 0;
        while k < |b.Out|
          invariant 0 <= k <= |b.Out|
          invariant forall q :: 0 <= q < k ==> b.Out[q].Chan?
        {
          if b.Out[k] == Nil {
            return Some(OutputNotConnected(i, k));
          }
          k := k + 1;
        }
        i := i + 1;
      }
      return None;
    }

    /** The sequential part of Start: a failed Check is returned before any
        worker is started.  Starting the workers is not part of this model. */
    method Start() returns (err: Option<CheckError>)
      ensures err == CheckResult(blocks)
      ensures err == None <==> Connected(blocks)
    {
      err := Check();
    }
  }
}
