# loops: the block container and the standard blocks, in Dafny

The loops package (Go) simulates block diagrams in the style of Simulink. Each
block has a fixed number of inputs and outputs and a `Step` that turns one
value per input into one value per output. A `System` registers blocks and
connects an output port of one block to an input port of another with a
fresh channel. Before any block runs, it checks that every port is bound.

This project models two parts of the package:

- `blocks.dfy`, module `Blocks`: the standard blocks `Scale`, `Add`,
  `Integrate`, `Source`, `Print` and `Tee`. Each has its arity and a `Step`
  that writes into the caller's output buffer (an `array<real>`) in place.
  `Integrate` and `Print` are classes, because their `Step` also updates the
  receiver's `State` or `time`. The others are datatypes, because they are
  value receivers.
- `loops.dfy`, module `Loops`: the `Block` interface as a tagged datatype and
  the `System` container as a class. The class has the fields `In`, `Out`
  (boundary slots), `blocks` (the registered blocks with their slot arrays)
  and `nextChan`. It has the methods `Add`, `Connect`, `Check` and `Start`
  (its sequential part), and the functions `Inputs` and `Outputs`.
  `Check` is proved against the pure function `CheckResult`. Lemmas
  characterise that function's result: `None` exactly when every slot is
  bound, and otherwise the first unbound slot in scan order. `Connect` is
  proved against the pure function `Bind`. Lemmas show that `Bind` writes
  exactly the two named slots and that the new channel has exactly one reader
  slot and one writer slot.
- `ode1.dfy`, module `Ode1`: client methods after the package's tests.

How the model represents the source:

- A channel made by `make(chan float64)` is `Chan(id)`, where `id` is drawn
  from the container's counter `nextChan`. A nil slot is `Nil`. The class
  invariant `Valid()` keeps every bound id below the counter, so each new
  channel is one that no slot holds. It also keeps every registered block's
  slot counts equal to its declared arity, so `Check` returning nil means
  every declared port is bound.
- Signal values are `real`. The package-wide step size `DT` (loops.go:7)
  becomes a parameter `dt` of `Integrate.Step` and `Print.Step`.
- Application blocks that are not standard blocks, such as the plot and the
  stop block of the tests, are `Block.Other(inputs, outputs)`. Only their
  arity is used.
- A `Step` requires buffers at least as long as the block's arity. A shorter
  buffer makes the Go code index out of range. `Step` reads its inputs through
  `old(...)`, so passing the same array as input and output is covered.

Parts of the source that do not compile as written are read as follows:

- `s.in` / `s.out` in `Inputs` and `Outputs` are read as `s.In` / `s.Out`
  (loops.go:37-38).
- `s.blocks[dst][i]` is read as `s.blocks[dst].In[i]`, and `s.blocks[src][o]`
  as `s.blocks[src].Out[o]` (loops.go:65, 70).
- `b[i].In` / `b[i].Out` are read as `b.In` / `b.Out`, and `nli` as `nil`
  (loops.go:78-84).
- `s.check()` is read as `s.Check()` (loops.go:95).

Where the code and its tests or comments disagree, the model follows the code:

- `Connect(src, dst, i, o)` takes the destination's input index third and the
  source's output index fourth (loops.go:58-60). The tests pass the source
  output third and the destination input fourth (ode1_test.go:49-55). For
  example, ode1_test.go:51 calls `Connect(4, 2, 1, 0)` for "tee -> neg".
  Under the code's order, that call names input 1 of the one-input Scale
  block. `Ode1.Ode1Blocks` proves that this call is outside `Connect`'s
  precondition, and that the transposed call `Connect(4, 2, 0, 1)` is inside it.
- A negative port index binds the boundary slot at its negation: `s.Out[-i]`
  and `s.In[-o]`. So boundary slot 0 can never be bound through `Connect`.
  The model keeps this (`CanConnect` demands `0 < -i < |Out|`).
- The `Block` interface's `Step` returns nothing (loops.go:16), while the
  plot block (plot/plot.go:41) and the `Add3` block of ode2_test.go:16 return
  a `bool`. The model follows the interface: a `Step` returns nothing.
- The comment at loops.go:28-30 says a System satisfies the `Block` interface
  and can be nested. Its `Step` takes channel slices (loops.go:39), so it does
  not have the interface's `Step`. A System cannot be registered in another
  System, and `Block` has no System variant.

## Model

| member | source | states |
|---|---|---|
| `Blocks.Scale.Step` | blocks.go:21-23 | output 0 becomes factor × input 0; every output slot at or beyond the arity (1) is unchanged; the value receiver has no state to change |
| `Blocks.Add.Step` | blocks.go:30-32 | output 0 becomes input 0 + input 1; output slots at or beyond the arity (1) are unchanged |
| `Blocks.Integrate.constructor` | blocks.go:36-38 | the owner sets the initial state |
| `Blocks.Integrate.Step` | blocks.go:42-45 | State grows by input 0 × dt; output 0 is the updated State; a zero input leaves State unchanged; output slots at or beyond the arity (1) are unchanged |
| `Blocks.Integrate.Run` | loops.go:107-119 | an integrator stepped once per input, through one reused input and output buffer as a worker of Start drives it, ends in the state `Integrated(x0, dt, ins)`, and its k-th output is `Integrated(x0, dt, ins[..k+1])`; this ties the fold `Integrated` and the lemmas below to `Integrate.Step` |
| `Blocks.IntegratedZeroInput` | blocks.go:42-45 | an integrator fed only zeros keeps its initial state, however many steps it takes |
| `Blocks.IntegratedConstantInput` | blocks.go:42-45 | after n steps of a constant input c, the state is x0 + n × c × dt |
| `Blocks.Source.Step` | blocks.go:52-54 | output 0 becomes the constant; the (empty) input is not read; output slots at or beyond the arity (1) are unchanged |
| `Blocks.Print.constructor` | blocks.go:59-61 | a new Print block starts at time 0 |
| `Blocks.Print.Step` | blocks.go:65-68 | time advances by dt per call; no output slot is written |
| `Blocks.Tee.Step` | blocks.go:75-78 | both outputs 0 and 1 become input 0 unchanged; slots at or beyond the arity (2) are unchanged |
| `Loops.Arities` | blocks.go:19-74 | the arities are the constants Scale 1/1, Add 2/1, Integrate 1/1, Source 0/1, Print 1/0, Tee 1/2 |
| `Loops.FirstNil` | loops.go:78-87 | the scan of one slot array stops at the first unbound slot: every earlier slot is bound, and the result is the array's length when all are bound |
| `Loops.CheckFromNoneIff` | loops.go:77-89 | scanning from block b finds nothing exactly when every slot of blocks b onwards is bound |
| `Loops.CheckNoneIffConnected` | loops.go:76-90 | Check's result is nil exactly when every input and output slot of every registered block is bound; boundary slots play no part |
| `Loops.CheckNoneIffDeclaredPortsBound` | loops.go:76-90 | when every block has one slot per declared port (part of `Valid()`), Check's result is nil exactly when every declared input and output port of every block is bound |
| `Loops.CheckFromIsFirst` | loops.go:77-87 | scanning from block b reports e exactly when e is the first unbound slot from block b on, in scan order |
| `Loops.CheckReportsFirstUnbound` | loops.go:77-87 | Check reports e exactly when e is the first unbound slot in block order, a block's inputs before its outputs |
| `Loops.CheckAfterAdd` | loops.go:49-90 | after one more block is registered, an earlier report is kept; otherwise Check reports the new block's input 0, or its output 0 when it has no inputs, or nothing |
| `Loops.BindSlots` | loops.go:60-72 | Connect's table keeps its length, blocks and slot counts; it holds the channel at dst's input i and src's output o, overwriting silently; every other slot is unchanged |
| `Loops.BindSingleEdge` | loops.go:60-72 | a channel that no slot held before is, after Connect, read at exactly one slot (dst's input i, or boundary Out[-i]) and written at exactly one slot (src's output o, or boundary In[-o]) |
| `Loops.BindBelow` | loops.go:61-71 | Connect keeps every channel number below the advanced counter, so the next channel is again fresh |
| `Loops.System.constructor` | loops.go:31-35 | a new container has unbound boundary slots of the given sizes and no blocks; the invariant `Valid()` holds, which also says that every block has exactly as many slots as it declares ports |
| `Loops.System.Inputs` | loops.go:37 | the number of boundary input slots; the constructor sets it and `Add` and `Connect` keep it |
| `Loops.System.Outputs` | loops.go:38 | the number of boundary output slots; the constructor sets it and `Add` and `Connect` keep it |
| `Loops.System.Add` | loops.go:49-56 | appends exactly one block at the old block count as index, leaving earlier blocks unchanged; its In has b.Inputs() and its Out has b.Outputs() slots, all unbound; nothing else changes |
| `Loops.System.Connect` | loops.go:60-72 | makes one channel that no slot held before; stores it in dst.In[i] (or Out[-i] when i < 0) and src.Out[o] (or In[-o] when o < 0); the new table is `Bind` of the old one; keeps the invariant |
| `Loops.System.Check` | loops.go:76-90 | reads only and returns CheckResult of the block table, so repeated calls agree; nil exactly when every block slot is bound |
| `Loops.System.Start` | loops.go:93-97 | returns Check's error, before any worker would be started, and changes nothing |
| `Ode1.Ode1Blocks` | ode1_test.go:36-51 | the seven blocks get indices 0 to 6 in order of registration, each of the seven pinned to its kind (block 0 an integrator with state 1, block 1 the one-channel plot, block 5 the zero source, block 6 the stop block); the test's own "tee -> neg" call is outside Connect's precondition and the transposed call is inside it; with nothing connected, Check names block 0's input 0 |
| `Ode1.SourceIntoScale` | loops.go:60-97 | a Source wired into a Scale block: Check names the Scale block's output 0 until that output is bound to boundary output 1, after which Start returns nil |

## Left out

- The worker goroutines of `Start` (loops.go:99-123) are left out. They hold
  the receive, step and send cycle over unbuffered channels, and their
  behaviour is concurrent. `Start` is modelled up to the point where it would
  spawn them, so initial-condition delivery, deadlock and termination are not
  modelled. `Integrate.Run` models the sequential receive, step and send cycle
  of one integrator's worker, with its input channel replaced by a sequence of
  values.
- `System.Step` (loops.go:39-45) is left out. It starts a sub-system lazily,
  refers to an undefined `initialized` and does not have the `Block`
  interface's `Step`. So nesting one System in another is not modelled.
- `AddIC` and the `Stop` block are used by the tests but defined in neither
  loops.go nor blocks.go. The stop block appears only by its arity.
- The plot block (plot/plot.go) draws images, prints and writes PNG files. It
  appears only by its arity, as `Other(NumChannels, 0)`.
- `Print.Step`'s console output (blocks.go:66) is left out.
- Float64 arithmetic is modelled as exact `real` arithmetic. The integrator
  lemmas hold for reals, not for IEEE rounding.
- Channel numbers are unique within one System. Channels made by different
  Systems may share a number, unlike Go channels.
- `Connect` requires in-range indices. The Go code panics on an index out of
  range, and the model does not represent that panic.
- `Ode1.Ode1Blocks` registers the blocks of ode1_test.go but does not make the
  test's seven connections. Connecting and checking are covered on the
  smaller system of `Ode1.SourceIntoScale`.
