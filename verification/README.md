# TIM-VX graph rewriting, modelled in Dafny

TIM-VX builds a neural-network graph and rewrites it before a driver runs it. This project
models the rewriting and the bookkeeping around it and proves what they are for:

- **Layout inference.** The queue-driven pass of `LayoutInference`, the permutation algebra it
  rests on, the transposition of dense tensors, and the handlers of five families of
  operations (the default handler, single-input operations, transposes, element-wise
  operations, two-dimensional pooling).
- **Mean/stddev normalisation fusion.** The matcher of an eleven-operation pattern, its removal
  from three linked structures, and the operation put in its place, with the meaning of both
  over real numbers.
- **The graph store.** Creation and binding, the consumer and producer maps, the counters that
  compilation warns about, and the cache of constant tensors.
- **Tracing and documentation.** The binary log of recorded parameters and its replay, the names
  of traced objects, and the in-place template splice that generates the operator page.

The main results:

- The set of operations layout inference handles is the least set closed under its firing rule,
  whatever the order of the queue and of the consumer lists; every live operation is handled,
  exactly once, and tensors are served first in, first out. If the operations keep the graph outputs they write, the graph it builds can be
  evaluated, and whatever evaluates it gives every graph output the value the source computes
  (`NewGraphComputes`). This holds for any handlers that carry values (`AnyHandlerPreserves`), which
  the five families do (`HandleSound`), and in every order of handling where no layout but the
  aligned one is given or asked for (`AlignedComputes`). No transpose it emits leaves its operand as
  it is (`EveryTransposeMoves`).
- Permute vectors of one rank form a group under `Add`, and transposing tensors is an action of
  that group that conserves size and moves every element where the documentation says.
- The matcher accepts exactly the operations at the top of the pattern's diagram; removal takes
  out exactly the pattern and the producers of its private side inputs, and forgets exactly the
  readers of the pattern's constants. Over every run of fusion steps whose sources keep their
  writers the bookkeeping of live operations stays true, and whatever evaluates the last graph
  from the first one's sources gives every surviving tensor the value it had in the first.
  Matches that take nothing from one another stay matches, so conditions on the first graph are
  enough (`SitesPreserveMeaning`).
- Over every run of the building interface every list is in the order of the run, the consumer
  lists count the bindings and the counters are tensors created minus tensors bound; the cache
  returns payloads below 512 bytes exactly and agrees with longer ones on their first 512
  (`CacheExact`).
- A recorded parameter reads back as it was dumped, and object names are distinct, exactly up to
  the 32-bit limits.

Where a law the code suggests is false, the exact condition is proved instead:

- Fusing a reduction over one dimension counts the dimension from the other end, although
  `ReduceMean` and `LayerNormalization` number dimensions alike. The rewrite is right for every
  input exactly when the dimension is the middle one or both dimensions have length one
  (`LayerFusionExactlyWhen`, and `AxisRightExactlyWhen` on a whole graph; dimension 0 of shape
  [2, 3] is a wrong one). The instance normalisation put in place of several reduced
  dimensions is right exactly when those are dimensions 1 and 2 (`InstanceFusionExactlyWhen`).
- The matcher computes, but never tests, whether `Mean0` reads the tensor `Sub0` and `Mul1` share
  (`MeanInputUnchecked`). `OtherMeanBreaks` gives a well-formed graph in which it reads another
  one: the graph is matched and the result after the step differs.
- The removal erases the producers of the inputs of inner operations. If an inner operation also
  reads the source of the pattern, the source loses its writer, and exactly then the step does
  not keep the meaning (`SourceKeptExactlyWhen`, `MeaningKeptExactlyWhen`). `OwnExponentBreaks` is
  such a graph: the source holds twos and is its own exponent.
- After a step the lists of readers are exact precisely if no operation that stays reads a constant
  of the pattern (`FusedLinksTrue`); what every step keeps is weaker (`StepKeepsLinks`).
- A graph output has a permute vector before anything produced it, so its reader may be handled
  before its writer. A reader that waits for nothing else and reads a graph input is handled after
  the writer in every order exactly if the tensor is no graph output (`ReaderWaitsExactlyWhen`;
  `ReaderBeforeWriter` is an instance); one that reads no graph input always comes after the
  operations that are ready with one (`ConstantReaderWaits`). For other readers one direction is
  proved: the producer goes first whenever the reader cannot be reached without it
  (`PrecedesOutside`).
- So the tensor handed to the caller for a graph output is not always written. It is, exactly if an
  operation that writes the output finds it still mapped to that tensor or does not want it aligned
  (`OutputWrittenExactlyWhen`), and with one writer for each tensor all of them are exactly if every
  operation keeps its outputs so (`AllKeptExactlyWhen`). No layout but the aligned one is enough for
  that (`AlignedKeeps`), and so is writing before reading (`WritesFirstKeeps`). Any element-wise
  reader that is ready at the start and wants the output in another layout loses it in some order
  (`EarlyReaderLoses`; `EarlyOutputLost` is an instance, and `EarlyAligned` the same graph where the
  reader does no harm). An output given a layout of its own is written as in the source all the same:
  an early reader that leaves it in the layout given gets its result right exactly if the operation
  makes the same of the tensor in either layout (`StaleRightExactlyWhen`).
- A fusion step keeps the outputs of a graph exactly if none of them is written by an operation that
  goes, the result of the pattern aside (`OutputsKeptExactlyWhen`); the matcher does not ask.
  `MeanOutputLost` has the mean among the outputs.
- The permutation used to re-lay constant data comes from a table and is right for every constant
  exactly for four permute vectors; a constant of lower rank comes out blank
  (`ConstantRightExactlyWhen`, `MirroredVectors`).
- Swapping a bound input for a converted copy drops the old tensor's whole consumer list, which
  is right exactly when nobody else reads it (`RenewTruthfulIffPrivate`).
- The comparison of quantizations is symmetric exactly where neither or both sides are
  fixed-point or the fraction lengths differ (`QuantSymmetricIff`), and the cache shows it
  (`FixedPointLeaks`).
- The byte size of a specification is true exactly for elements that are not 64 bits wide
  (`ByteSizeTrueExactlyWhen`); in the cache key all widths are (`KeyWidths`).
- `Reverse` undoes a vector exactly when it has no repeated entry, which its list constructor
  does not check (`ReverseUndoesIffInjective`).
- Two prefixes of traced objects can give one name exactly when one is the other followed by digits
  that do not start with zero and, with a zero behind them, still fit 32 bits
  (`CollideExactlyWhen`).

How the files fit together: `Permutations`, `PermuteVector`, `TensorLayout`, `ConstantLayout`
(vectors and tensors); `GraphModel` (graphs); `LayoutWorklist` (the loop for any handler),
`LayoutHandlers`, `LayoutContext` (the pass), `LayoutWrites`, `LayoutRun`, `LayoutOutputs`,
`LayoutTransposes` (what the new graph writes), `LayoutMeaning`, `LayoutPhases`, `LayoutStarts`, `LayoutSound`, `LayoutExecutes` (what it
means), `LayoutExample`, `LayoutReadFirst`,
`LayoutStale` (networks and failing families);
`GraphStore`, `GraphObject`, `TensorCache` (building); `Broadcast`, `Normalize`, `NormalizePattern`,
`NormalizeAxes` (the arithmetic of the pattern); `FusionMatch`, `FusionRemove`, `FusionMeaning`,
`FusionResult`, `FusionSound`, `FusionOutputs`, `FusionRun`, `FusionSites`, `FusionPass`, `FusionExample`
(the fusion); `TraceLog`,
`ObjectNames`, `DocsSplice`. Code that works in place is a class or a method with loops, tied by its
contract to a function about which the lemmas speak. `dafny verify dfyconfig.toml` checks everything.

## Model

| member | source | states |
|---|---|---|
| Permutations.GroupLaws | src/tim/transform/permute_vector.h:143-163 | Permute vectors of one rank form a group under Add: closed, associative, the aligned vector neutral, Reverse the inverse on both sides |
| Permutations.ReverseInverts | src/tim/transform/permute_vector.h:143-149 | The scatter loop fills every slot of the result and inverts the vector from both sides |
| Permutations.ReverseOfAdd | src/tim/transform/permute_vector.h:143-163 | The inverse of a composition is the composition of the inverses in the other order |
| Permutations.ReverseUndoesIffInjective | src/tim/transform/permute_vector.h:110-117 | Reverse undoes an in-range vector exactly when no entry repeats, which the list constructor does not check |
| Permutations.InverseUnique | src/tim/transform/permute_vector.h:143-163 | A vector that composes with p to the aligned vector is Reverse of p |
| Permutations.RealignVector | src/tim/transform/ops/op_layout_inference.cc:274-278 | The vector a handler computes between two layouts leads from one to the other, and is aligned exactly when they are the same |
| PermuteVectors.PermuteVector.constructor | src/tim/transform/permute_vector.h:88-92 | A new vector is the aligned one of its rank |
| PermuteVectors.PermuteVector.FromList | src/tim/transform/permute_vector.h:110-117 | The list constructor stores the list |
| PermuteVectors.PermuteVector.Widen | src/tim/transform/permute_vector.h:119-126 | Widening keeps the leading entries, fixes the rest, and keeps permutations permutations |
| PermuteVectors.PermuteVector.IsAligned | src/tim/transform/permute_vector.h:134-141 | The test holds exactly for the neutral element |
| PermuteVectors.PermuteVector.Reverse | src/tim/transform/permute_vector.h:143-149 | The loop computes the scatter inverse; of a permutation it is a two-sided inverse |
| PermuteVectors.PermuteVector.ReInitialize | src/tim/transform/permute_vector.h:151-155 | The vector becomes aligned |
| PermuteVectors.PermuteVector.Add | src/tim/transform/permute_vector.h:157-163 | The loop computes the composition, identity past the other's rank, and is closed on permutations |
| PermuteVectors.PermuteVector.AsStdVec | src/tim/transform/permute_vector.h:173-180 | The exported list is the value |
| PermuteVectors.MakeShared | src/tim/transform/permute_vector.h:192-220 | Ranks to ten give the aligned vector, a scalar one of rank one, larger ranks none |
| TensorLayout.SizeConserved | src/tim/vx/tensor.cc:511-517 | Permuting the dimensions conserves the element count for every rank and shape |
| TensorLayout.Strides | src/tim/transform/ops/op_layout_inference.cc:333-336 | In the flat buffer a step along one dimension moves past all elements of the dimensions before it: dimension 0 varies fastest, which is why the host utility is handed the reversed shape |
| TensorLayout.TransposeAt | include/tim/vx/ops/transpose.h:33-41 | Each element moves to the index whose dimension i is dimension perm[i] of its old one |
| TensorLayout.TransposeTwice | src/tim/transform/permute_vector.h:61-77 | Transposing by a and then b is transposing once by a.Add(b), on shape and every element |
| TensorLayout.TransposeRoundTrip | src/tim/transform/permute_vector.h:143-163 | Transposing by p and by its Reverse, in either order, restores the tensor |
| TensorLayout.OffsetBijection | src/tim/transform/permute_vector.h:143-149 | On flat offsets a transposition is a bijection whose inverse is the transposition by Reverse |
| TensorLayout.Realign | src/tim/transform/ops/op_layout_inference.cc:274-278 | A tensor in layout p, transposed by p.Reverse().Add(r), is the tensor in layout r |
| ConstantLayout.ConstantRightExactlyWhen | src/tim/transform/ops/op_layout_inference.cc:322-390 | The looked-up permutation re-lays all constants rightly exactly when it mirrors the permute vector; a shorter vector gives a blank buffer, which is never right |
| ConstantLayout.MirroredVectors | src/tim/transform/ops/op_layout_inference.cc:338-350 | It does so for exactly four vectors |
| ConstantLayout.InverseLayoutWrong | src/tim/transform/ops/op_layout_inference.cc:338-350 | The inverse of the pooling layout is one it gets wrong |
| LayoutWorklist.HandledIsLeastFixpoint | src/tim/transform/layout_inference.cc:394-408 | When the queue is empty the handled set is closed under the firing rule and contained in every closed set |
| LayoutWorklist.FirstInFirstOut | src/tim/transform/layout_inference.cc:394-408 | The tensors served are those enqueued before the loop, then everything the handlers returned in the order of handling, and each is served by its consumers in the order they are listed |
| LayoutWorklist.SeedExactlyWhen | src/tim/vx/operation.cc:80-93 | A tensor is enqueued before the loop exactly if it is a graph input or read by an operation that reads nothing but constants, of a two-dimensional convolution its first input only |
| LayoutWorklist.QueueListed | src/tim/vx/graph.cc:82-89 | The queue starts with the graph inputs, and the constants of an operation stand behind those of the operations before it |
| LayoutWorklist.HandledIndependentOfOrder | src/tim/transform/layout_inference.cc:394-408 | Two runs with reordered queues and consumer lists, and different handlers, handle the same set |
| LayoutWorklist.HandledOnce | src/tim/transform/layout_inference.cc:121-128 | No operation is handled twice, however often it is listed or its inputs are queued |
| LayoutWorklist.HandledExactlyLive | src/tim/transform/layout_inference.cc:130-140 | On an acyclic graph an operation is handled exactly when it is live: of a kind other than -1, with an input that is a seed or written by a live operation, and every relevant input such an input or a graph output |
| LayoutWorklist.EverythingHandled | src/tim/transform/layout_inference.cc:358-408 | On an acyclic graph whose operations have a source for each input, every operation of kind other than -1 is handled |
| LayoutWorklist.ProducersFirst | src/tim/transform/layout_inference.cc:394-408 | A tensor that is neither a seed nor a graph output is written before any operation that reads it is handled |
| LayoutWorklist.PrecedesOutside | src/tim/transform/layout_inference.cc:394-408 | p is handled before every operation outside a set that is closed under the firing rule for all operations but p |
| LayoutWorklist.ReaderWaitsExactlyWhen | src/tim/transform/layout_inference.cc:356-408 | In every order of graph inputs and lists, constants queued after inputs, the writer of t precedes a reader that waits for t alone and reads a graph input, exactly if t is no graph output |
| LayoutWorklist.ConstantReaderWaits | src/tim/transform/layout_inference.cc:356-408 | A reader of no graph input is handled, if at all, after every operation that is ready at the start with a graph input |
| LayoutWorklist.ReaderBeforeWriter | src/tim/transform/layout_inference.cc:383-392 | With a graph output that is read, a well-formed graph has its reader handled before its writer, whatever the handlers do |
| LayoutWorklist.ReachedWritesFirst | src/tim/transform/layout_inference.cc:394-408 | If the readers of every read graph output cannot be reached without its writer, every run writes it before it is read |
| LayoutHandlers.HandlersMeetContract | src/tim/transform/ops/op_layout_inference.cc:36-60 | The modelled handlers lay out every output and return outputs only, among them every one that is read |
| LayoutHandlers.PlaceholdersSkipped | src/tim/transform/ops/op_layout_inference.cc:286-308 | The handler without a layout rule does with a list of inputs what it does with the list of those that are bound |
| LayoutHandlers.ReturnedExactly | src/tim/transform/ops/op_layout_inference.cc:36-60 | What a handler hands back to the queue is its outputs in their order without the graph outputs nobody reads |
| LayoutHandlers.ReferenceIsLargest | src/tim/transform/ops/op_layout_inference.cc:240-253 | The scan of an element-wise operation settles on the layout of the first variable input of largest rank |
| LayoutHandlers.SetUpStarts | src/tim/transform/layout_inference.cc:356-392 | After the three set-up loops exactly inputs, seeds and outputs have vectors and exactly inputs and seeds are queued |
| LayoutOutputs.SetUpLayouts | src/tim/transform/layout_inference.cc:356-392 | After them every graph input, constant seed and graph output has the layout given for it, or the one with its dimensions in their order, of rank one for a scalar |
| LayoutRun.OutputWrittenExactlyWhen | src/tim/transform/ops/op_layout_inference.cc:83-145 | The tensor the io map returns for a graph output is written by an emitted operation exactly if some operation that writes the output, when it is handled, finds the output mapped to that tensor or wants it in a layout that is not aligned |
| LayoutRun.AllKeptExactlyWhen | src/tim/transform/ops/op_layout_inference.cc:36-60 | Where tensors have one writer, every graph output that is written has its returned tensor written exactly if every operation keeps its outputs in this way |
| LayoutRun.WrittenOnce | src/tim/transform/ops/op_layout_inference.cc:83-145 | Then no tensor of the new graph is written twice |
| LayoutRun.IoMapListed | src/tim/transform/layout_inference.cc:409-415 | The io map has exactly the graph inputs and outputs, and no two of them lead to one tensor |
| LayoutTransposes.EveryTransposeMoves | src/tim/transform/ops/op_layout_inference.cc:274-278 | Whatever the graph and the layouts given, no transpose the pass emits leaves its operand as it is |
| LayoutTransposes.LayoutPassesThrough | src/tim/transform/ops/op_layout_inference.cc:240-285 | A single-input operation, or an element-wise one whose inputs are in one layout, is rebuilt alone on the tensors mapped there, its result in that layout and handed back |
| LayoutOutputs.AlignedKeeps | src/tim/transform/layout_inference.cc:383-408 | If the layouts given are aligned, no pooling is channel-first and no output is a constant, every output is kept, in whatever order operations are handled |
| LayoutOutputs.WritesFirstKeeps | src/tim/transform/layout_inference.cc:394-408 | Outputs that are written before they are read are kept |
| LayoutOutputs.DisplacedIsLost | src/tim/transform/ops/op_layout_inference.cc:94-111 | An output that is moved before it is written, and that its writers want aligned, has its returned tensor written by nobody |
| LayoutOutputs.EarlyReaderLoses | src/tim/transform/ops/op_layout_inference.cc:241-284 | For every graph with an element-wise reader of an output that is ready at the start and settles on another layout, and writers that want the output aligned, there is an order of inputs and lists in which nobody writes the returned tensor |
| LayoutSound.HandleSound | src/tim/transform/layout_inference.cc:193-199 | Handling an operation keeps a plan of what the new tensors stand for: what has a layout stands in it, every emitted operation is right about it, and the outputs written get their own tensors |
| LayoutMeaning.PoolLayoutGathers | src/tim/transform/ops/op_layout_inference.h:36 | The layout of channel-first pooling takes dimensions c, w, h, n to w, h, c, n |
| LayoutMeaning.PoolLayoutMoves | src/tim/transform/ops/pool2d_layout_inference.h:40-52 | A tensor is the transpose by that layout exactly if it has at (w, h, c, n) what the operand has at (c, w, h, n); so the meaning of pooling is stated by index |
| LayoutExecutes.AnyHandlerPreserves | src/tim/transform/layout_inference.cc:342-416 | Whatever the handlers, if along the run each turns inputs standing in their layouts into outputs standing in theirs, any values solving the new graph give each graph output that is written, through the io map, the value the source computes |
| LayoutExecutes.AnyHandlerSolvable | src/tim/transform/layout_inference.cc:342-416 | With such handlers the new graph has no cycle, reads only what is fed or written, and has a solution with the inputs fed in the layouts given |
| LayoutExecutes.MeaningPreserved | src/tim/transform/layout_inference.cc:342-416 | For the five families: if outputs are kept, those read before they are written start aligned, and those read are written, any values solving the new graph give each graph output that is written the value the source computes |
| LayoutExecutes.EveryOutputPreserved | src/tim/transform/layout_inference.cc:342-416 | On an acyclic graph with fed operations this covers every graph output that an operation writes |
| LayoutExecutes.InferredInOrder | src/tim/transform/layout_inference.cc:394-408 | Graph outputs are written before they are read if none is read or the readers of each are reached through its writer only |
| LayoutExecutes.InOrderFaithful | src/tim/transform/layout_inference.cc:394-408 | That order meets the condition of MeaningPreserved |
| LayoutExecutes.AlignedFaithful | src/tim/transform/layout_inference.cc:383-408 | So does every order, on a complete graph, where no layout but the aligned one is given or asked for |
| LayoutReadFirst.EarlyOutputLost | src/tim/transform/ops/op_layout_inference.cc:94-111 | A network of the failing family: its reader goes first, and no operation of the new graph writes the tensor returned for the output |
| LayoutStale.StaleRightExactlyWhen | src/tim/transform/ops/op_layout_inference.cc:241-284 | An element-wise operation handled first, that reads a graph input and a graph output both given in a layout that is not aligned, gives its own output the source's value exactly if it makes the same of the output read in that layout and as it is |
| LayoutReadFirst.EarlyAligned | src/tim/transform/layout_inference.cc:383-408 | On the same graph without the layout given, still read before it is written, the condition of MeaningPreserved holds |
| LayoutExecutes.NewGraphSolvable | src/tim/transform/layout_inference.cc:342-416 | Under the same condition the new graph can be evaluated: a level rises along every operation, what is read is fed or written, no tensor is written twice where the source has one writer for each, and there are values satisfying every operation with the inputs fed in the layouts given |
| LayoutExecutes.NewGraphComputes | src/tim/transform/layout_inference.cc:342-416 | The two together on a complete graph: the new graph can be evaluated and then holds every graph output of the source |
| LayoutExecutes.AlignedComputes | src/tim/transform/layout_inference.cc:342-416 | Without other layouts the same holds on every complete graph whose outputs are neither inputs nor constants, whatever the order |
| LayoutExample.BinaryFollowsLayout | src/tim/transform/ops/elementwise_layout_inference.h:71-75 | An operation computing a binary element-wise function of operands of one rank commutes with every layout, as the handlers ask |
| LayoutExample.UnaryFollowsLayout | src/tim/transform/ops/simple_ops_layout_inference.h:43-56 | The same for one operand |
| LayoutExample.ExampleInferred | src/tim/transform/layout_inference.cc:342-416 | On a network with a unary operation whose result is a graph output and read, a sum with a constant, and the input given in the pooling layout, all hypotheses hold for every input and constant, and both outputs have the values of the source |
| LayoutExample.ValuesComputed | src/tim/transform/layout_inference.cc:342-416 | Values for that network exist for every input and constant that can be added |
| LayoutContext.LayoutInferContext.IsReadyForInfer | src/tim/transform/layout_inference.cc:130-140 | The loop decides readiness: every input that is no constant and no placeholder has a vector |
| LayoutContext.LayoutInferContext.HandleLayoutInfer | src/tim/transform/layout_inference.cc:234-339 | One handled operation changes the context as the worklist's step says |
| LayoutContext.GetConstantInputs | src/tim/vx/graph.cc:82-89 | The collected list is what the all-constant operations enqueue, in order |
| LayoutContext.ConstantInputsTensor | src/tim/vx/ops/conv2d.cc:91-98 | The query gives all inputs of an all-constant operation, of a convolution the first |
| LayoutContext.ServeConsumers | src/tim/transform/layout_inference.cc:397-407 | Serving one consumer list refines the functional step |
| LayoutContext.RunWorklist | src/tim/transform/layout_inference.cc:394-408 | The loop terminates and ends in the state of the functional run |
| LayoutContext.LayoutInference | src/tim/transform/layout_inference.cc:342-416 | The whole pass ends in the inferred context and returns the io map of inputs and outputs |
| GraphStore.EveryRunConsistent | src/tim/vx/graph.cc:209-241 | Over every run, consumer lists count the bindings, producer entries name writers, and both counters are created minus bound |
| GraphStore.RunRecorded | src/tim/vx/builtin_op_impl.cc:43-63 | Over every run each operation has the inputs and outputs the run bound in the order of binding, each tensor its readers in that order, and operations, graph inputs and graph outputs are listed in the order they were made |
| GraphStore.ProducerIsLastWriter | src/tim/vx/graph.cc:234-241 | The producer entry is the operation of the last step that bound the tensor as output |
| GraphStore.WarningsJustified | src/tim/vx/graph.cc:364-376 | A positive input counter means some INPUT tensor was never bound; with no OUTPUT bound twice the output counter is the number of unbound ones |
| GraphStore.RenewTruthfulIffPrivate | src/tim/vx/graph.cc:218-232 | After an input is swapped the consumer lists are truthful exactly when nobody else read the old tensor |
| GraphStore.RenewSlot | src/tim/vx/ops/conv2d.cc:101-117 | The swap changes the one slot of the one operation, and no other binding |
| GraphObject.GraphImpl.CreateTensor | src/tim/vx/graph.cc:267-286 | Creation changes the state as the step function says |
| GraphObject.GraphImpl.CreateOperation | include/tim/vx/graph.h:78-83 | The operation is appended to the list with empty bindings |
| GraphObject.GraphImpl.UpdateTensorConsumersMap | src/tim/vx/graph.cc:209-216 | The loop appends the operation once if it is listed |
| GraphObject.GraphImpl.UpdateTensorProducerMap | src/tim/vx/graph.cc:234-241 | The loop records the operation if it is listed |
| GraphObject.GraphImpl.BindInput | src/tim/vx/operation.cc:43-48 | Binding updates list, counter and consumer map together |
| GraphObject.GraphImpl.BindOutput | src/tim/vx/operation.cc:50-54 | Binding updates list, counter and producer map together |
| GraphObject.GraphImpl.BindInputs | src/tim/vx/operation.cc:64-70 | The list is appended, first to last, to the inputs of the operation |
| GraphObject.GraphImpl.BindOutputs | src/tim/vx/operation.cc:72-78 | The list is appended, first to last, to the outputs of the operation |
| GraphObject.GraphImpl.RenewTensorConsumersMap | src/tim/vx/ops/conv2d.cc:101-117 | The swap of a bound input, and when it leaves the consumer lists truthful |
| TensorCache.GetElementNum | src/tim/vx/tensor.cc:511-517 | The loop computes the product of the dimensions |
| TensorCache.ByteSizeTrueExactlyWhen | src/tim/vx/tensor.cc:519-540 | The byte size is the size of the elements exactly if they are not 64 bits wide, or there are none |
| TensorCache.ByteSizeConserved | src/tim/vx/tensor.cc:538-540 | A transposition conserves the byte size |
| TensorCache.QuantSymmetricIff | src/tim/vx/tensor.cc:551-560 | The comparison is symmetric at a pair exactly when both or neither are fixed-point or the fraction lengths differ |
| TensorCache.QuantEqualsMeans | src/tim/vx/tensor.cc:551-560 | A fixed-point left side compares equal exactly to what has its fraction length, any other exactly to what agrees with it on everything else |
| TensorCache.SpecEqualsMeans | src/tim/vx/tensor.cc:542-560 | Without fixed-point the comparison is equality up to the unused fraction length |
| TensorCache.KeyByteLoop | src/tim/vx/graph.cc:110-130 | The 32-bit size loop ends in the number of bytes the elements take modulo 2^32, for every type of whole bytes |
| TensorCache.KeyWidths | src/tim/vx/graph.cc:114-130 | In the key every type of whole bytes has its true width, listed type by type |
| TensorCache.CacheTransparent | src/tim/vx/graph.cc:140-152 | After any run without fixed-point requests the tensor returned has the requested specification and agrees on every byte the key covers |
| TensorCache.LookupMatches | src/tim/vx/graph.cc:140-152 | After any run of requests the tensor returned has the type, shape and attributes asked for, and the fraction length if it is fixed-point or everything else of the quantization if it is not |
| TensorCache.CacheExact | src/tim/vx/graph.cc:131-152 | After any run of requests with whole payloads below 2^32 bytes the tensor returned holds exactly a payload shorter than 512 bytes, and of a longer one the length and the first 512 bytes |
| TensorCache.FixedPointTransparent | src/tim/vx/graph.cc:140-152 | Where all requests are fixed-point the tensor returned is so too, with the fraction length asked for |
| TensorCache.SharedIffPrefixAgrees | src/tim/vx/graph.cc:131-136 | Two requests of one specification share a tensor exactly when their covered bytes agree |
| TensorCache.FixedPointLeaks | src/tim/vx/tensor.cc:551-560 | A fixed-point entry answers a request of another kind, and not the other way round |
| TensorCache.CachedTensors.CalculateCacheKey | src/tim/vx/graph.cc:107-138 | The key is the digest of the covered bytes: of a whole payload all of them below 512, the first 512 otherwise |
| TensorCache.CachedTensors.GetTensorFromCache | src/tim/vx/graph.cc:140-152 | A lookup reuses or replaces as specified, keeps every entry honest, and returns a tensor that matches the specification |
| FusionMatch.MatchExactlyDiagram | src/tim/transform/mean_stddev_normalize_fusion.cc:319-393 | The matcher accepts exactly the operations that head the diagram, with the eleven operations in their places |
| FusionMatch.MatchKinds | src/tim/transform/mean_stddev_normalize_fusion.cc:347-393 | The eleven operations of a match have, in order, the kinds 59, 34, 1, 73, 59, 0, 39, 1, 1, 0 and 34 of the driver |
| FusionMatch.MatchSound | src/tim/transform/mean_stddev_normalize_fusion.cc:347-393 | On an acyclic graph with two-operand arithmetic an accepted match is eleven different operations joined by exactly the interior edges, Sub0 and Mul1 sharing their other operand |
| FusionMatch.MeanInputUnchecked | src/tim/transform/mean_stddev_normalize_fusion.cc:187-210 | With the consumer lists as they are, the matcher's answer does not depend on the input list of Mean0 |
| FusionRemove.RemovalExact | src/tim/transform/mean_stddev_normalize_fusion.cc:108-165 | Removal never erases an absent operation, takes out exactly the pattern and its private producers in order, keeps every reader count except those of the pattern's constants, which become zero, and leaves true producers for the rest |
| FusionRemove.GoneExactly | src/tim/transform/mean_stddev_normalize_fusion.cc:147-162 | Besides the pattern go exactly the operations that write a tensor, no constant, which Mul2, Pow, Mean1, Add0, Rsqrt, Mul0 or Sub1 reads |
| FusionRemove.SpoiledExactly | src/tim/transform/mean_stddev_normalize_fusion.cc:115-162 | The constants whose readers are forgotten are exactly those that a place other than the last addition reads |
| FusionRemove.MatchIsCuttable | src/tim/transform/mean_stddev_normalize_fusion.cc:108-165 | An accepted match whose side inputs other than constants are private satisfies what exact removal needs |
| Broadcast.BinaryCommutes | src/tim/transform/ops/elementwise_layout_inference.h:71-75 | Permuting both operands of an element-wise operation permutes its result, whatever is broadcast |
| Broadcast.UnaryCommutes | src/tim/transform/ops/simple_ops_layout_inference.h:43-56 | The same for one operand |
| Broadcast.ExpandedCommutes | src/tim/transform/ops/op_layout_inference.cc:268-272 | An operand of lower rank, its shape filled up with ones, may be permuted with the other |
| NormalizePattern.PatternNormalizes | src/tim/transform/mean_stddev_normalize_fusion.cc:319-342 | Over real numbers the pattern computes (x - mean) * rsqrt(variance + eps) * gamma + beta, in either order of the commuting operands |
| NormalizePattern.MeanOfAnotherTensor | src/tim/transform/mean_stddev_normalize_fusion.cc:187-215 | When Mean0 reads another tensor the pattern's result differs from the normalisation of what it reads |
| Normalize.MeanOfDeviations | src/tim/transform/mean_stddev_normalize_fusion.cc:319-342 | The mean of squared deviations is the mean of squares minus the square of the mean |
| NormalizeAxes.ReshapedParameters | src/tim/transform/mean_stddev_normalize_fusion.cc:246-252 | Parameters reshaped along the same dimension give the same normalisation |
| NormalizeAxes.DifferentAxesDiffer | src/tim/transform/mean_stddev_normalize_fusion.cc:218-222 | Averaging different dimensions gives different results on some input, whatever the parameters |
| NormalizeAxes.LayerFusionExactlyWhen | src/tim/transform/mean_stddev_normalize_fusion.cc:218-261 | The layer normalisation with the reversed dimension is right for every input exactly when the dimension is the middle one or both have length one |
| NormalizeAxes.InstanceFusionExactlyWhen | src/tim/transform/mean_stddev_normalize_fusion.cc:269-316 | The instance normalisation is right for every input exactly when the pattern averages dimensions 1 and 2, lengths of one aside |
| FusionMeaning.MatchEquations | src/tim/transform/mean_stddev_normalize_fusion.cc:319-342 | Values solving the graph satisfy the pattern's equations at a match whose operands sit in the slots the code reads |
| FusionResult.EpsSlotFindsEpsilon | src/tim/transform/mean_stddev_normalize_fusion.cc:226-233 | The slot test finds the operand of Add0 that is not Mean1's output |
| FusionResult.EpsilonRead | src/tim/transform/mean_stddev_normalize_fusion.cc:226-236 | The number read is that of the constant, whether Add0 reads the constant or a converted copy of it, and it is what Add0 adds |
| FusionResult.MatchIsSite | src/tim/transform/mean_stddev_normalize_fusion.cc:347-402 | What the matcher accepts, with private sides, meets the hypotheses of the results below |
| FusionResult.FusedIs | src/tim/transform/mean_stddev_normalize_fusion.cc:216-265 | At a site the operation put in place is of kind 58 with the reversed dimension for one reduced dimension and of kind 60 for any other number; it reads source, beta and gamma and writes the result of the pattern |
| FusionResult.FusedComputes | src/tim/transform/mean_stddev_normalize_fusion.cc:246-265 | The fused operation, given the reshaped parameters, computes the pattern's result when the dimensions agree |
| FusionResult.FusedLinksTrue | src/tim/transform/mean_stddev_normalize_fusion.cc:245-265 | After a step in a graph with exact bookkeeping the operations are those that stay and the fused one, every output names its producer, and every live operation is listed exactly as often as it binds a tensor (the fused one once more for its source) precisely if no operation that stays reads a constant of the pattern |
| FusionResult.StepKeepsLinks | src/tim/transform/mean_stddev_normalize_fusion.cc:263-265 | A step keeps the weaker invariant that suffices for the next one: writers exact, readers of non-constant tensors exact as sets |
| FusionSound.Determined | src/tim/transform/mean_stddev_normalize_fusion.cc:344-405 | On an acyclic graph two solutions with the same sources agree everywhere |
| FusionSound.Solvable | src/tim/transform/mean_stddev_normalize_fusion.cc:344-405 | An acyclic graph has a solution for every choice of its sources |
| FusionSound.SourceKeptExactlyWhen | src/tim/transform/mean_stddev_normalize_fusion.cc:147-162 | After the step the written source of the pattern still has its writer exactly if no inner operation reads it |
| FusionSound.FusionPreservesMeaning | src/tim/transform/mean_stddev_normalize_fusion.cc:344-405 | If the source keeps its writer, whatever solves the new graph from the old graph's unwritten tensors gives every tensor a live operation reads or writes its old value |
| FusionSound.MeaningKeptExactlyWhen | src/tim/transform/mean_stddev_normalize_fusion.cc:344-405 | All solutions of the new graph keep the old values exactly when the source keeps its writer |
| FusionOutputs.OutputsKeptExactlyWhen | src/tim/transform/mean_stddev_normalize_fusion.cc:108-165 | All solutions of the graph after a step give the graph outputs their old values exactly if no output is written by an operation that goes, the result of the pattern aside |
| FusionRun.StepSound | src/tim/transform/mean_stddev_normalize_fusion.cc:344-405 | One step keeps the bookkeeping, the order of the graph, its solution and the constants' data |
| FusionRun.RunPreservesMeaning | src/tim/transform/mean_stddev_normalize_fusion.cc:344-405 | Over every run of steps, whatever solves the last graph from the first one's sources gives every tensor of a live operation the value it had in the first graph |
| FusionSites.OtherApplicable | src/tim/transform/mean_stddev_normalize_fusion.cc:344-405 | A step at one site leaves another site, of which it takes no operation, exactly as applicable as before |
| FusionSites.SitesRun | src/tim/transform/mean_stddev_normalize_fusion.cc:344-405 | Sites of one graph that spare one another can all be fused, one after another |
| FusionSites.SitesPreserveMeaning | src/tim/transform/mean_stddev_normalize_fusion.cc:344-405 | After fusing all of them whatever solves the last graph from the first one's sources keeps the first graph's values, under conditions on the first graph alone |
| FusionExample.ExampleMatched | src/tim/transform/mean_stddev_normalize_fusion.cc:319-342 | The normalisation written out as eleven operations, and two variants with exact bookkeeping, are matched and meet the structural hypotheses of the fusion results |
| FusionExample.ExampleSupported | src/tim/transform/mean_stddev_normalize_fusion.cc:319-342 | For every input, epsilon, parameters and reciprocal square root there are values that solve the graph and that the fused operation can take over |
| FusionExample.AxisRightExactlyWhen | src/tim/transform/mean_stddev_normalize_fusion.cc:218-261 | On the graph written out, for every shape and dimension, every solution after the step has the old result for every input exactly when the dimension is the middle one or both have length one |
| FusionExample.MeanOutputLost | src/tim/transform/mean_stddev_normalize_fusion.cc:108-165 | With the mean of the matched graph among the outputs, a solution after the step gives it another value |
| FusionExample.OwnExponentBreaks | src/tim/transform/mean_stddev_normalize_fusion.cc:147-162 | With the source as its own exponent the step erases the source's writer and a solution of the new graph has another result |
| FusionExample.OtherMeanBreaks | src/tim/transform/mean_stddev_normalize_fusion.cc:187-215 | With Mean0 reading another tensor every solution after the step has another result |
| FusionExample.OtherMeanSolved | src/tim/transform/mean_stddev_normalize_fusion.cc:187-215 | Such solutions exist |
| FusionExample.FeedsFit | src/tim/transform/mean_stddev_normalize_fusion.cc:218-222 | Inputs with a right and with a wrong dimension, and inputs for both failures, exist |
| FusionPass.OpkindInConsumers | src/tim/transform/mean_stddev_normalize_fusion.cc:51-61 | The search decides the predicate |
| FusionPass.UpdateTempVector | src/tim/transform/mean_stddev_normalize_fusion.cc:83-105 | The vector grows by the consumers asked for, or stays |
| FusionPass.CheckMul0 | src/tim/transform/mean_stddev_normalize_fusion.cc:167-185 | Mul1 is found as the other consumer of Mul0 |
| FusionPass.SharesInput | src/tim/transform/mean_stddev_normalize_fusion.cc:187-210 | The intersection is non-empty exactly when Sub0 and Mul1 share an input |
| FusionPass.MatchPattern | src/tim/transform/mean_stddev_normalize_fusion.cc:347-393 | The chain of tests computes the specified match |
| FusionPass.RemoveTensorsAndOps | src/tim/transform/mean_stddev_normalize_fusion.cc:108-165 | The loops over three fields compute the specified removal, or report the undefined erase |
| FusionPass.EpsTensor | src/tim/transform/mean_stddev_normalize_fusion.cc:226-236 | Epsilon is read from the slot the producer test names, or from the first input of its producer |
| FusionPass.Connect | src/tim/transform/mean_stddev_normalize_fusion.cc:245-265 | Removal, creation and binding make the graph the results are stated about |
| FusionPass.FuseStep | src/tim/transform/mean_stddev_normalize_fusion.cc:344-405 | One turn leaves the graph alone without a match and fuses exactly the match otherwise |
| TraceLog.Contiguous | include/tim/experimental/trace/tracer.h:439-450 | Recorded ranges follow one another from the start of the log to its end and hold what was dumped |
| TraceLog.Covered | include/tim/experimental/trace/tracer.h:439-450 | Every byte of the log lies in exactly one range |
| TraceLog.ReplayRoundTrip | include/tim/experimental/trace/replayer.h:83-100 | After any interleaving of dumps, a range that starts below 2^32 reads back as dumped exactly when it has fewer than 2^32 elements |
| TraceLog.TrueOffset | include/tim/experimental/trace/tracer.h:446-449 | The recorded offset is the true one exactly below 2^32 |
| TraceLog.WrappedReplay | include/tim/experimental/trace/tracer.h:446-449 | After 2^32 bytes a dump reads back as the first byte of the log |
| TraceLog.Tracer.DumpData | include/tim/experimental/trace/tracer.h:439-450 | One call appends the bytes and advances the 32-bit offset |
| TraceLog.Tracer.LoggingParam | include/tim/experimental/trace/tracer.h:260-286 | The log line names the dump's offset and 32-bit length |
| TraceLog.Replayer.GetVector | include/tim/experimental/trace/replayer.h:83-100 | Seeking and reading give the range's elements, or nothing if the log is too short |
| TraceLog.Replayer.GetArray | include/tim/experimental/trace/replayer.h:102-109 | The array receives what was read and keeps the rest |
| ObjectNames.CollideExactlyWhen | include/tim/experimental/trace/tracer.h:415-422 | Two prefixes can produce one name from 32-bit counters exactly when one is the other followed by digits not starting with zero whose value times ten is below 2^32 |
| ObjectNames.TablePrefixesApart | include/tim/experimental/trace/tracer.h:392-397 | The prefixes in use, the default and the empty one included, never collide |
| ObjectNames.NamesDistinctExactlyWhen | include/tim/experimental/trace/tracer.h:415-422 | Over every run with such prefixes names are pairwise distinct exactly until a prefix is used more than 2^32 times |
| ObjectNames.NameAllocator.AllocateObjName | include/tim/experimental/trace/tracer.h:415-422 | Each call returns the name its place in the run determines |
| DocsSplice.Splice | docs/gen_docs.py:59-71 | The splice with a running offset gives the template with every marked line replaced by all blocks; with one line that has the text {DOCS} it is what stands before, each block followed by a line feed in order, and what stands behind |
| DocsSplice.MarkedExactlyWhen | docs/gen_docs.py:62 | A line is marked exactly if it is some text, {DOCS} and some text |
| DocsSplice.PageSole | docs/gen_docs.py:61-71 | A page with one marked line is the lines before it, each block followed by a line feed in order, and the lines behind it |
| DocsSplice.ExpandSplits | docs/gen_docs.py:61-71 | Replacement acts on each line by itself |
| DocsSplice.ExpandSize | docs/gen_docs.py:61-71 | The length counts marked lines, and a template without any is unchanged |

## Left out

- Operations and tensors are handles; an operation's input and output lists live in the graph's
  table of nodes instead of in a separate object, so aliasing between operation objects is not
  modelled.
- The counters are unbounded integers where the source has `int32_t`, and element counts are
  unbounded where it has `int64_t`.
- TensorLayout.TransposeTwice: covers vectors of equal rank; `Add` with a shorter vector is only specified by its method.
- ConstantLayout.ConstantRightExactlyWhen: leaves out constants with more dimensions than the permutation looked up has entries; there the source reads past the end of a list.
- LayoutContext.LayoutInference: dispatches to the five families of handlers that are modelled; the others enter only through the contract assumed by the worklist theorems.
- LayoutExecutes.MeaningPreserved: covers those five families (LayoutExecutes.AnyHandlerPreserves any handlers that meet the contract on values), element-wise operations with operands of one rank of which one is no constant. It asks that no placeholder is bound and that no tensor is a scalar (a scalar gets a vector of rank one), that constants which element-wise operations read can follow the layouts given (otherwise a layout may be any permutation), and that the operations handled are acyclic. A graph output that is read before it is written and is given another layout is excluded, see LayoutStale.StaleRightExactlyWhen.
- LayoutExecutes.EveryOutputPreserved: has the same restrictions.
- LayoutExecutes.NewGraphComputes: has the same restrictions.
- LayoutExecutes.AlignedComputes: has the same restrictions apart from those on the order.
- LayoutExecutes.NewGraphSolvable: has the same restrictions; shapes recorded for new tensors are not modelled (the source gives the copy of a graph input its old shape even under a layout that is not aligned).
- LayoutSound.HandleSound: covers the five families, under the restrictions of LayoutExecutes.MeaningPreserved.
- LayoutStale.StaleRightExactlyWhen: covers a reader with two operands that is handled first.
- LayoutOutputs.EarlyReaderLoses: covers element-wise readers, which alone choose a layout from several operands; pooling displaces an output in the same way when it is channel-first.
- Broadcast.BinaryCommutes: covers operands of one rank; Broadcast.ExpandedCommutes reduces an operand of lower rank to it.
- LayoutWorklist.PrecedesOutside: is one direction for readers that are not ready at the start; in which of them a first-in-first-out queue can still serve before p depends on the lengths of the paths to them.
- LayoutHandlers.HandlersMeetContract: quantization parameters, data types and ranks above ten are not modelled.
- GraphObject.GraphImpl.CreateTensor: leaves out the branch that returns a cached constant tensor, which TensorCache models by itself.
- FusionSound.FusionPreservesMeaning: asks for the operand slots, the exponent two, the single epsilon and constant parameters the code takes for granted, none of which it checks.
- NormalizeAxes.LayerFusionExactlyWhen: dimensions are natural numbers; a negative one, which the driver's parameter can hold, makes the reversed dimension exceed the rank, and the source then writes past the end of the shape.
- FusionRun.RunPreservesMeaning: asks at every step what the matcher's acceptance and FusionResult.MatchIsSite give at the first one (FusionSites.SitesRun gives it for sites that spare one another); the matcher itself counts readers, which after a step may include operations that are gone.
- FusionPass.FuseStep: models one turn; the outer loop appends to and erases from the vector it iterates over, which is undefined in the source.
- FusionPass.Connect: covers both connections, which differ in the kind of the new operation; the conversion of parameters to 32-bit floating point is not modelled, and the new parameter tensors are taken to be new.
- What the driver computes is taken from the documentation of its operations, over real numbers;
  reciprocal square root is an arbitrary function.
- Reading past the end of an empty consumer list, which the source does when `Sub1` has no reader,
  is an outcome of its own and not pursued.
- The digest behind the cache key is taken to be injective; later writes to a cached tensor are not
  modelled.
- TraceLog.Replayer.GetArray: the array that the source leaves uninitialised after a short read is modelled as keeping its contents.
- Element types and their textual names, message caches and macros of the tracer, file opening and
  environment variables.
- Extraction of documentation blocks from header files, and the table of contents: text processing
  without state or a law that spans its calls.
- Compilation, execution, device management and the binary-graph runtime: calls into the driver.
