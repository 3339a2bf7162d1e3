# Verified models of oneDNN examples and scripts

This project models, in Dafny, the algorithms that oneDNN's examples and
maintenance scripts carry themselves, and proves what they promise for all
inputs, runs and orders of execution. Library kernels are parameters: arbitrary
functions on logical tensors, or plain real arithmetic where their meaning
matters.

* **Grouped-query attention training** (`RealSums`, `DualNumbers`, `Softmax`,
  `AttentionAdjoint`, `Dataflow`, `TensorOps`, `GqaGraph`, `GqaEquations`,
  `GqaAdjoint`, `GqaForward`, `GqaTraining`). The two operation graphs are built as the example
  builds them and run by a small evaluator whose numbers carry a value and a
  derivative, with minus infinity for masked scores. The hand-decomposed backward
  graph is the adjoint of the forward one, for every schedule of either.
* **Layouts and conditional reorders** (`Layouts`, `Nets`, `CnnTraining`,
  `CnnBuild`, `ConvRelu`). Tensors lie in buffers under layouts; a primitive only
  runs on memories with its own descriptors. Every choice of layouts computes
  what the layout-free reference computes.
* **Graph partitions and memory pool** (`AnyLayout`, `PartitionDriver`,
  `MemoryPool`). The two-pass layout analysis, the loop that compiles and executes
  partitions with its two caches, and the size-bucketed allocator over all runs.
* **Header guard fixer** (`HeaderText`, `Splicing`, `Conditionals`, `GuardSearch`,
  `DirectiveScan`, `PragmaRemoval`, `HeaderGuard`, `GuardContent`, `GuardSettled`,
  `GuardEdits`, `GuardIdempotence`, `ConditionalWords`, `GuardBreaks`,
  `GuardSurvival`, `GuardRounds`, `GuardLimits`, `GuardReports`, `GuardExamples`). Text in, text out: splicing, the stack parser,
  the search, and the edits at precomputed coordinates, on strings; what a run
  keeps of a header, and exactly when a second run agrees with the first.
* **Recurrent networks** (`FlatIndex`, `DecoderAttention`, `DecoderContext`,
  `DecoderRun`, `PackedSequences`). Attention in flat arrays, both softmax
  variants, the decoder loop around it with its sliding handles, and two padded
  batches in one buffer.
* **Enumerator names and stacked views** (`EnumNames`, `StackedViews`).

`Common` holds what several of them share.

Where code and comments disagree, the model follows the code:

* The pool's scan claims every free block of the size and returns one
  (graph_example_utils.hpp:535-542); the others are stranded.
* The int8 softmax says it finds a maximum (cpu_rnn_inference_int8.cpp:138-141);
  the scan finds the last ascent. The result is the softmax all the same.
* The int8 compensation sums runs of the weights while the product needs column
  sums (cpu_rnn_inference_int8.cpp:72-81, 778).
* `insert_guard` rebinds its list when an editor trailer follows, so the caller's
  list never gets the #endif (fix_header_guards.py:183-188).
* `no_code` reads on after a comment even when nothing follows it, so a comment
  that ends its line counts as code (fix_header_guards.py:196-206); the star that
  opens a comment may also be the one that ends it.
* The line numbers of a guard's #endif are not moved when its #define is put in
  (fix_header_guards.py:407-433).
* A fully masked softmax row has probabilities and statistics zero
  (src/graph/backend/dnnl/passes/transform.cpp:3368-3369).

`dafny verify dfyconfig.toml` checks everything.

## Model

| member | source | states |
|---|---|---|
| `GqaTraining.TrainingRunIsAdjoint` | examples/graph/gqa_training.cpp:254-407 | For all sizes, inputs, masks and output gradients, whatever schedule each graph is run in and with or without type casts: <dO, O'> = <dquery, Q'> + <dkey_reduced, K'> + <dvalue_reduced, V'>, where O' is the derivative the forward graph itself carries |
| `GqaTraining.MaskedGradientRowSumsToZero` | examples/graph/gqa_training.cpp:319-345 | Every row of the gradient of the masked score sums to zero, fully masked rows included |
| `GqaTraining.MaskedGradientValue` | examples/graph/gqa_training.cpp:311-345 | The computed gradient of the masked score is P * (dP - rowsum(O * dO)) of the forward probabilities |
| `GqaForward.ForwardRunIsAttention` | examples/graph/gqa_training.cpp:123-169 | In every schedule an output entry is the mean of the values of its group weighted by exp(Q K^T / scale + mask), in plain sums over tensor entries, and zero where all is masked |
| `GqaForward.ForwardIsAttention` | examples/graph/gqa_training.cpp:126-160 | The same of every solution of the forward graph |
| `GqaForward.ForwardProbability` | examples/graph/gqa_training.cpp:147-154 | The probabilities are those exponentials over their sum |
| `GqaForward.HeadsAreSharedIff` | examples/graph/gqa_training.cpp:481-485 | The tensors have as many query heads as asked for exactly if the key/value heads divide them, and never more |
| `GqaForward.EveryHeadHasAGroup` | examples/graph/gqa_training.cpp:481-485 | Then each query head is one place of one group |
| `GqaAdjoint.BackwardIsAdjoint` | examples/graph/gqa_training.cpp:254-383 | The adjoint identity for every pair of solved graphs, type casts or not |
| `GqaAdjoint.StepIsAdjoint` | examples/graph/gqa_training.cpp:254-383 | The adjoint identity summed over batches, key/value heads and query heads |
| `GqaAdjoint.ReductionIsAdjoint` | examples/graph/gqa_training.cpp:303-309 | Summing a gradient over axis 2 is the adjoint of broadcasting a key or value over the query heads of a group |
| `GqaAdjoint.HeadIdentity` | examples/graph/gqa_training.cpp:254-375 | The adjoint identity of one head, stated on the graphs' tensors |
| `GqaAdjoint.BackwardHead` | examples/graph/gqa_training.cpp:296-375 | What the backward graph computes for one head before the reductions |
| `GqaAdjoint.BackwardProbs` | examples/graph/gqa_training.cpp:275-285 | exp(masked_score - stats) equals the forward probabilities |
| `GqaAdjoint.ForwardOutput` | examples/graph/gqa_training.cpp:126-160 | The forward output of a head is P V, and its tangent is the product rule applied to the softmax tangent |
| `GqaEquations.ForwardSolved` | examples/graph/gqa_training.cpp:126-160 | A run of the forward operations satisfies the attention equations |
| `GqaEquations.BackwardSolved` | examples/graph/gqa_training.cpp:254-383 | A run of the backward operations satisfies the same equations with and without type casts |
| `GqaGraph.BuildForward` | examples/graph/gqa_training.cpp:123-169 | The operations and identifiers the counter hands out in the forward graph |
| `GqaGraph.BuildBackward` | examples/graph/gqa_training.cpp:251-407 | The operations of the backward graph, in the order they are added, and the identifiers of its results |
| `GqaGraph.ForwardGraphIsValid` | examples/graph/gqa_training.cpp:123-169 | No tensor or operation identifier is used twice, and the order of addition is an order of execution |
| `GqaGraph.CreatedGraphIsValid` | examples/graph/gqa_training.cpp:251-383 | In creation order the backward graph is valid and runnable, and its counter never meets an external identifier |
| `GqaGraph.BackwardGraphIsValid` | examples/graph/gqa_training.cpp:385-407 | The backward graph as added is the same graph: valid, and scheduled by creation order |
| `GqaGraph.AddOrderIsNotASchedule` | examples/graph/gqa_training.cpp:403-407 | With type casts the order of addition cannot be executed, since casts are added after their consumers |
| `Dataflow.ScheduleIndependence` | examples/graph/cpu_getting_started.cpp:184-185 | All schedules of a valid graph end in the same environment, so the order of adding operations does not matter |
| `Dataflow.RunSolves` | examples/graph/cpu_getting_started.cpp:184-185 | Running a valid graph solves every operation's equation and keeps the external tensors |
| `Dataflow.SolutionIsUnique` | examples/graph/cpu_getting_started.cpp:184-185 | A runnable graph has one solution over given inputs |
| `AttentionAdjoint.HeadAdjoint` | examples/graph/gqa_training.cpp:296-375 | One head as matrices: the three products are the adjoint of the derivative of attention, for every P |
| `AttentionAdjoint.SoftmaxAdjoint` | examples/graph/gqa_training.cpp:319-345 | The decomposed softmax gradient is the adjoint of the softmax derivative |
| `AttentionAdjoint.CorrectionIsRowSum` | examples/graph/gqa_training.cpp:319-333 | rowsum(O * dO) equals rowsum(P * dP) |
| `AttentionAdjoint.GradientRowSumsToZero` | examples/graph/gqa_training.cpp:335-345 | A gradient row sums to zero where the probabilities sum to one |
| `Softmax.SoftmaxRow` | doc/graph_api/operations/Softmax.md:9-31 | Probabilities of a row with masked entries: non-negative, summing to one or all zero when everything is masked, with the softmax derivative as tangent |
| `Softmax.Recovered` | examples/graph/gqa_training.cpp:147-154 | The statistics are what makes exp(x - stats) the probability, also in fully masked rows |
| `AnyLayout.SetAnyLayout` | examples/graph/graph_example_utils.hpp:43-106 | The set returned: with producers listed no later than consumers it gains exactly the identifiers a supported partition produces, one consumes, and only supported partitions consume; in any order it is right about a tensor exactly if an unsupported use is listed at or after a supported producer |
| `AnyLayout.PromiseKept` | examples/graph/graph_example_utils.hpp:43-106 | With producers listed no later than consumers, an identifier is added exactly if a supported partition produces it, one consumes it and every consumer is supported |
| `AnyLayout.PromiseKeptIff` | examples/graph/graph_example_utils.hpp:59-83 | In any order of partitions: the analysis is right about a tensor exactly if an unsupported use, when there is one, is listed at or after a supported producer |
| `AnyLayout.PromiseFailsOutOfOrder` | examples/graph/graph_example_utils.hpp:59-83 | Partitions in an order for which an unsupported consumer is missed |
| `PartitionDriver.AllocateGraphMem` | examples/graph/graph_example_utils.hpp:163-192 | Bindings, buffers and the output cache after one call |
| `PartitionDriver.RunPartitions` | examples/graph/cpu_getting_started.cpp:293-357 | The caches, buffers and executions of the whole loop; the supported partitions are executed in order, each on tensors as the next row says |
| `PartitionDriver.RunIsCompiled` | examples/graph/cpu_getting_started.cpp:303-342 | Every execution: an input nobody produced has its port's type, the user's shape and a strided layout; an output is what the library reports for the partition compiled with the tensors its inputs are bound to and outputs of unknown shape, layout any exactly for the chosen ones |
| `PartitionDriver.LogIs` | examples/graph/cpu_getting_started.cpp:293-357 | The executed partitions are strictly ascending and are exactly the supported ones, each once and with its own bindings |
| `PartitionDriver.CachesAgree` | examples/graph/cpu_getting_started.cpp:303-357 | After every iteration both caches hold exactly the outputs of the supported partitions so far, and agree on them |
| `PartitionDriver.InputReusesProducer` | examples/graph/cpu_getting_started.cpp:306-349 | A consumed output is bound to the queried tensor and the buffer of its last producer |
| `PartitionDriver.NewBuffersAreDistinct` | examples/graph/graph_example_utils.hpp:182-190 | All other bindings of a run have pairwise different new buffers |
| `PartitionDriver.AnyLayoutStaysInside` | examples/graph/cpu_getting_started.cpp:317-336 | An output compiled with layout any is consumed by supported partitions only, and they get the tensor and buffer reported for it |
| `MemoryPool.SimpleMemoryPool.AllocateHost` | examples/graph/graph_example_utils.hpp:525-553 | The new tables and the pointer, as the scan without a break leaves them |
| `MemoryPool.SimpleMemoryPool.DeallocateHost` | examples/graph/graph_example_utils.hpp:575-578 | The pointer is marked free and nothing else changes |
| `MemoryPool.SimpleMemoryPool.Clear` | examples/graph/graph_example_utils.hpp:579-583 | Both tables are emptied |
| `MemoryPool.EveryRunIsSafe` | examples/graph/graph_example_utils.hpp:525-578 | In every interleaving a returned pointer is not live and has the requested size, memory is requested only when no block of the size is free, none is free right after, and blocks = live + free + stranded |
| `MemoryPool.StepKeepsInv` | examples/graph/graph_example_utils.hpp:525-583 | Live pointers are distinct blocks of the sizes asked for, and no live block is marked free, after every step |
| `MemoryPool.AllocationIsSafe` | examples/graph/graph_example_utils.hpp:525-553 | One allocation hands out no live pointer and the exact size |
| `MemoryPool.NullOnlyIf` | examples/graph/graph_example_utils.hpp:525-553 | Zero bytes give null and change nothing; otherwise null is returned only if memory was refused now, or was refused before for that size and null was released |
| `MemoryPool.Conservation` | examples/graph/graph_example_utils.hpp:525-583 | Blocks of a size are live, free or stranded, each exactly one of these |
| `MemoryPool.AllocationStrands` | examples/graph/graph_example_utils.hpp:534-542 | An allocation strands all free blocks of the size except the one returned |
| `MemoryPool.ReuseStrandsAllButOne` | examples/graph/graph_example_utils.hpp:534-542 | A reuse with k free blocks strands k - 1 |
| `MemoryPool.ReleaseFrees` | examples/graph/graph_example_utils.hpp:575-578 | A release frees the block and strands nothing |
| `MemoryPool.StrandedForGood` | examples/graph/graph_example_utils.hpp:532-551 | Stranded blocks stay stranded until the pool is cleared |
| `MemoryPool.StrandedIsNeverReused` | examples/graph/graph_example_utils.hpp:532-551 | A stranded block is never handed out again before a clear |
| `MemoryPool.NothingStrandedIff` | examples/graph/graph_example_utils.hpp:532-583 | After any run, with failed requests and clears, nothing is stranded exactly if each allocation since the last clear returned the only free block of its size or found none |
| `MemoryPool.CannotStrandIff` | examples/graph/graph_example_utils.hpp:532-542 | Known before the call: an allocation can strand no block, whichever one the scan returns, exactly if at most one block of the size is marked free, a failed request counted |
| `MemoryPool.StrandingHappens` | examples/graph/graph_example_utils.hpp:532-551 | Two free blocks: one is handed out, the other lost, and the next request asks for memory again |
| `MemoryPool.TwoFreeBlocksAreReachable` | examples/graph/graph_example_utils.hpp:525-578 | Clients reach that state |
| `Layouts.RoundTripIff` | examples/cpu_cnn_training_f32.c:107-151 | Storing under a layout and reading back is the identity exactly if no two elements share a place |
| `Layouts.GatherUndoesScatter` | examples/cpu_cnn_training_f32.c:107-151 | What is stored is read back, whatever the padding holds |
| `Nets.ExecuteComputes` | examples/cpu_cnn_training_f32.c:673-675 | A primitive handed memories with its descriptors, inputs written, leaves its outputs computed and changes nothing else |
| `Nets.RunNet` | examples/cpu_cnn_training_f32.c:672-675 | The execution loop, stopping at a primitive that cannot run |
| `CnnBuild.PrepareReorder` | examples/cpu_cnn_training_f32.c:107-151 | A reorder takes the next slot, and a memory is created, exactly if the descriptors differ; earlier slots keep their steps |
| `CnnBuild.BuildPool` | examples/cpu_cnn_training_f32.c:401-429 | With the slot reserved and the index moved back, pooling and its reorder fill consecutive slots in execution order |
| `CnnBuild.BuildForward` | examples/cpu_cnn_training_f32.c:157-429 | The forward net fills slots 0..n-1 of ten, in order, and every memory it names exists with its descriptor |
| `CnnBuild.BuildConvBwd` | examples/cpu_cnn_training_f32.c:597-662 | The backward convolution and the reorders around it fill consecutive slots |
| `CnnBuild.BuildBackward` | examples/cpu_cnn_training_f32.c:431-662 | The backward net fills slots 0..n-1 of ten, in order, and every memory it names exists with its descriptor |
| `CnnBuild.SimpleNet` | examples/cpu_cnn_training_f32.c:153-697 | Building and training never fails, and the user ends up with the parameters and outputs of layout-free training |
| `CnnTraining.ForwardRuns` | examples/cpu_cnn_training_f32.c:157-429 | For every choice of layouts the forward net runs, reads only written memory, and leaves the reference output with the user |
| `CnnTraining.BackwardRuns` | examples/cpu_cnn_training_f32.c:431-662 | For every choice of layouts the backward net runs and leaves the reference gradients of weights and bias |
| `CnnTraining.ReorderedIn` | examples/cpu_cnn_training_f32.c:251-279 | After a reorder, or none, the chosen memory holds the user's tensor in the layout wanted and only the internal memory has changed |
| `CnnTraining.ReorderedOut` | examples/cpu_cnn_training_f32.c:408-416 | After a reorder, or none, the user's memory holds the primitive's result |
| `CnnTraining.IterationRuns` | examples/cpu_cnn_training_f32.c:671-697 | One iteration from any contents of the internal memories gives what it gives without layouts and keeps the user's inputs |
| `CnnTraining.TrainingRuns` | examples/cpu_cnn_training_f32.c:671-697 | The same for any number of iterations |
| `CnnTraining.LayoutsDoNotMatter` | examples/cpu_cnn_training_f32.c:251-279 | Any two choices of layouts give the user the same tensors |
| `ConvRelu.ConvReluNaive` | examples/performance_profiling.cpp:148-204 | The destination holds relu(conv(src, wei)); sources are unchanged |
| `ConvRelu.ConvReluBlocked` | examples/performance_profiling.cpp:229-328 | The same in the layouts the convolution prefers, also when its destination is the user's |
| `ConvRelu.ConvReluFused` | examples/performance_profiling.cpp:361-448 | The same with ReLU fused |
| `ConvRelu.PerformanceProfiling` | examples/performance_profiling.cpp:545-564 | Each implementation, and all three in sequence on one destination, leave the same result; an unknown name runs nothing |
| `ConvRelu.Prepare` | examples/performance_profiling.cpp:278-293 | A memory in the wanted layout with the user's tensor: the user's own, or a new one |
| `ConvRelu.ExecuteRelu` | examples/performance_profiling.cpp:118-129 | In-place ReLU on the raw buffer is ReLU of the logical tensor |
| `ConvRelu.ReluIsMax` | examples/performance_profiling.cpp:118-129 | ReLU gives each element the least number that is neither below it nor negative |
| `Splicing.Continuations` | scripts/fix_header_guards.py:234-243 | Each group's first and last line and its joined text |
| `Splicing.TileCovers` | scripts/fix_header_guards.py:234-243 | The groups and a final run ending in a backslash are contiguous and cover all lines |
| `Splicing.TileIsUnique` | scripts/fix_header_guards.py:234-243 | No other tiling exists |
| `Splicing.SplicingIsTextual` | scripts/fix_header_guards.py:329-330 | Deleting backslash-newline pairs from the joined text splices the lines, as phase 2 of section 5.1.1.2 of ISO/IEC 9899:2011 says |
| `Splicing.ReadsBack` | scripts/fix_header_guards.py:445-449 | The file written is read back as the lines without trailing blanks |
| `Splicing.TrimmingKeepsDirectives` | scripts/fix_header_guards.py:445-449 | Trimming keeps every directive unless the file then ends in a backslash |
| `Conditionals.ScanFailsIffUnbalanced` | scripts/fix_header_guards.py:344-368 | The stack parser fails exactly on unbalanced conditionals; otherwise its tree pairs every opener with its #endif and flattens to the directives in order |
| `Conditionals.MatchIsUnique` | scripts/fix_header_guards.py:344-351 | An opener has one matching #endif |
| `ConditionalWords.DirectiveReads` | scripts/fix_header_guards.py:339-341 | A line with blanks around its # reads as the word and the arguments after it |
| `ConditionalWords.WordScansIff` | scripts/fix_header_guards.py:344-360 | A directive put into a header that scans leaves one that scans exactly if its word is not if, ifdef, ifndef or endif |
| `ConditionalWords.ThreeWordsOpen` | scripts/fix_header_guards.py:344-360 | Around any lines that scan, a line with if, ifdef or ifndef and an #endif are one block of the tree |
| `ConditionalWords.ConditionalIsBlock` | scripts/fix_header_guards.py:344-360 | Inside that block is what the lines' own blocks are made of |
| `DirectiveScan.ScanDirectives` | scripts/fix_header_guards.py:323-368 | Tree, definitions and license end of a header; a lone # is not survived, an extra #endif stops the scan |
| `DirectiveScan.AcceptDirective` | scripts/fix_header_guards.py:344-360 | One directive on the two stacks |
| `GuardSettled.ScanSucceedsIff` | scripts/fix_header_guards.py:329-368 | The scan gives a tree exactly if no directive is a lone # and the conditionals balance |
| `GuardSearch.FindGuardBlocks` | scripts/fix_header_guards.py:151-170 | The outermost guards, the #pragma once blocks outside them, and the alternate |
| `GuardSearch.FirstGuard` | scripts/fix_header_guards.py:151-170 | The first guard found is the first of its name in the file, and others are found exactly if the name appears after it |
| `GuardSearch.GuardsAreCounted` | scripts/fix_header_guards.py:157-167 | Guards are found exactly if the name appears in an #ifndef |
| `GuardSearch.AlternateIff` | scripts/fix_header_guards.py:151-170 | There is an alternate exactly if blocks that are alone at their levels lead through #if and #ifdef to it, an #ifndef |
| `GuardSearch.PragmasAre` | scripts/fix_header_guards.py:157-167 | Without #pragma once inside guards, every one in the file is found, in order |
| `PragmaRemoval.PragmasRemoved` | scripts/fix_header_guards.py:328-376 | Deleting the #pragma once blocks one after another at their corrected coordinates removes exactly them, and every other recorded coordinate names its original text |
| `PragmaRemoval.RestIsLocated` | scripts/fix_header_guards.py:328-357 | The corrected coordinates are those of a fresh scan of what remains |
| `HeaderGuard.IsNoCode` | scripts/fix_header_guards.py:191-209 | The comment reader's verdict on a section |
| `GuardContent.NoCodeIff` | scripts/fix_header_guards.py:191-209 | A section is free of code exactly if it has nothing but comments, directives and blanks and no block comment, on one line or several, ends its logical line |
| `GuardContent.HasContentIff` | scripts/fix_header_guards.py:383-396 | There is content exactly if there is code before, between or after the top-level blocks, whatever is inside them |
| `GuardContent.EndifReplacedIff` | scripts/fix_header_guards.py:413-431 | When an #endif is rewritten, for nothing after it, for a comment of either kind, and for other text |
| `HeaderGuard.InsertGuard` | scripts/fix_header_guards.py:173-188 | The caller's lines after a guard was added; below an editor trailer the closing lines go to a copy |
| `HeaderGuard.InsertDefine` | scripts/fix_header_guards.py:212-215 | The definition goes after the opener, at the coordinates returned |
| `HeaderGuard.ReplaceGuard` | scripts/fix_header_guards.py:218-231 | Opener, definitions and #endif overwritten at their coordinates |
| `HeaderGuard.AdjustContent` | scripts/fix_header_guards.py:320-452 | The report and the lines written, for every header, guard name and options |
| `GuardRounds.FixIsIdempotent` | scripts/fix_header_guards.py:320-452 | After an in-place run that writes a regular header all lines but the guard's own are still there, in order; unless an editor trailer follows an added guard, or a definition was added and the #endif rewritten, a second run reports a correct guard and writes the same text and a check passes; in those two cases a check rejects the result |
| `GuardRounds.LastsIff` | scripts/fix_header_guards.py:320-452 | What was written for a regular header lasts exactly if neither of the two cases holds, and exactly then a check passes |
| `GuardRounds.OkThenRejectedIff` | scripts/fix_header_guards.py:370-452 | An in-place run that reports no problem leaves a header that a check rejects exactly if there is a #pragma once with no guard and nothing to guard, or what was written does not settle |
| `GuardSurvival.LinesSurvive` | scripts/fix_header_guards.py:370-452 | Without the lines the fixer wrote, its result is the header without its #pragma once lines and the old guard's lines, in order |
| `GuardIdempotence.RepairLasts` | scripts/fix_header_guards.py:402-442 | A kept or repaired guard lasts, also when its definition had to be added |
| `GuardIdempotence.InsertLasts` | scripts/fix_header_guards.py:384-401 | An added guard lasts when it was put between conditionals and no editor trailer follows |
| `GuardSettled.CorrectIsSettled` | scripts/fix_header_guards.py:378-452 | A header with a correct guard is reported as such and left alone |
| `GuardBreaks.TrailerBreaksTheGuard` | scripts/fix_header_guards.py:183-188 | Above an editor trailer an added guard is never closed, and the next run, with any options, rejects the file |
| `GuardBreaks.UndefinedGuardLosesALine` | scripts/fix_header_guards.py:407-433 | A missing definition together with a rewritten #endif overwrites the line above the #endif and leaves the old #endif |
| `GuardBreaks.UndefinedGuardBreaks` | scripts/fix_header_guards.py:407-433 | A check rejects every such result: the conditionals no longer balance, or the guard still has the wrong #endif |
| `GuardExamples.PragmaHeader` | scripts/fix_header_guards.py:370-400 | A header on which every check fails and no in-place run changes anything |
| `GuardExamples.TrailerHeader` | scripts/fix_header_guards.py:183-188 | A header whose added guard is never closed |
| `GuardExamples.UndefinedHeader` | scripts/fix_header_guards.py:407-433 | A header that loses its only line, and that the next run rejects |
| `GuardExamples.LicenseHeader` | scripts/fix_header_guards.py:323-400 | A header with a license gets its guard below it |
| `GuardExamples.InnerIfdefHeader` | scripts/fix_header_guards.py:344-360 | A correct guard around an #ifdef is found |
| `GuardExamples.CommentNeedsAGuard` | scripts/fix_header_guards.py:191-209 | A header of one comment is reported to lack a guard |
| `GuardSurvival.OnlyGuardLinesChange` | scripts/fix_header_guards.py:218-231 | A repair writes guard lines over the guard's own lines and changes no other |
| `GuardLimits.LicenseFirstIsClean` | scripts/fix_header_guards.py:331-343 | With the license ahead of all directives a guard is added between conditionals |
| `GuardLimits.LicenseEndsAt` | scripts/fix_header_guards.py:323-336 | The recorded end of the license is the last line of the first logical line without a star after the first block comment, and line 0 without one |
| `GuardLimits.GuardGoesBelowTheLicense` | scripts/fix_header_guards.py:400-400 | An added guard begins at that line: the lines before it stay, then come a blank line, #ifndef and #define, then the rest |
| `GuardReports.CheckIsSound` | scripts/fix_header_guards.py:370-452 | If a check passes, an in-place run reports the same and leaves the lines alone |
| `GuardReports.CheckPassesIff` | scripts/fix_header_guards.py:370-452 | Without #pragma once a check passes exactly if the directives have a correct guard, or there is no guard, none under another name, and nothing to guard |
| `GuardReports.FoundCorrectIff` | scripts/fix_header_guards.py:402-452 | It reports a correct guard exactly in the first case |
| `GuardReports.ReportsIff` | scripts/fix_header_guards.py:344-398 | When a check reports mismatched conditionals, too many guards, or a missing guard, in terms of the directives |
| `GuardReports.GuardIsReported` | scripts/fix_header_guards.py:402-442 | What is reported of the block taken for the guard, in a check and in place, by its name, definition and #endif |
| `GuardReports.PragmaIsReportedIff` | scripts/fix_header_guards.py:445-447 | An in-place run that writes reports a replaced #pragma once exactly if there was one |
| `DecoderAttention.SoftmaxPlain` | examples/cpu_rnn_inference_f32.cpp:111-127 | Every column becomes its softmax, in place |
| `DecoderAttention.SoftmaxShifted` | examples/cpu_rnn_inference_int8.cpp:133-164 | The same softmax, although each column is shifted by the entry the scan found |
| `DecoderAttention.SoftmaxInPlace` | examples/cpu_rnn_inference_f32.cpp:111-127 | What either leaves at i * batch + j, as exponentials and a sum over the entries of the array |
| `DecoderAttention.FindShiftIndex` | examples/cpu_rnn_inference_int8.cpp:142-149 | The scan finds the last position at which the column rises |
| `DecoderAttention.ShiftChangesNothing` | examples/cpu_rnn_inference_int8.cpp:138-141 | A shift by any amount leaves the softmax as it is |
| `DecoderAttention.WeightsSumToOne` | examples/cpu_rnn_inference_int8.cpp:161-164 | Weights of a column are positive and sum to one |
| `DecoderAttention.LastAscentDominates` | examples/cpu_rnn_inference_int8.cpp:142-149 | No later entry exceeds the one at that index |
| `DecoderAttention.LastAscentIsMaxIff` | examples/cpu_rnn_inference_int8.cpp:138-149 | It is a maximum exactly if the column does not rise after some largest entry |
| `DecoderAttention.LastAscentIsNotAlwaysMax` | examples/cpu_rnn_inference_int8.cpp:138-149 | A column for which it is not |
| `DecoderContext.ComputeContext` | examples/cpu_rnn_inference_f32.cpp:129-144 | Context halves hold the weighted sums of annotations; hidden halves and further rows are unchanged |
| `DecoderContext.ContextInPlace` | examples/cpu_rnn_inference_f32.cpp:129-144 | Entry feature_size + j of row i is the sum over k of alignment k * batch + i times annotation j + feature_size * (i + batch * k); the hidden half of the row is unchanged |
| `DecoderContext.ComputeAttention` | examples/cpu_rnn_inference_int8.cpp:133-184 | Both variants compute the same softmax weights and the context vectors from them |
| `DecoderContext.ContextLiesBetween` | examples/cpu_rnn_inference_int8.cpp:166-184 | Each context element lies between the least and the largest of its dequantised annotations |
| `DecoderContext.CopyContext` | examples/cpu_rnn_inference_f32.cpp:147-158 | Every layer's context half becomes layer 0's; hidden halves and layer 0 are unchanged |
| `DecoderContext.CopyOrderDoesNotMatter` | examples/cpu_rnn_inference_f32.cpp:147-158 | Any two orders of the parallel iterations give the same array |
| `DecoderContext.CopyContextIsAnyOrder` | examples/cpu_rnn_inference_f32.cpp:147-158 | The loops give what any order of the iterations gives |
| `DecoderRun.ComputeSumOfRows` | examples/cpu_rnn_inference_int8.cpp:72-81 | Each entry is the sum of one contiguous run |
| `DecoderRun.RunIsSum` | examples/cpu_rnn_inference_int8.cpp:72-81 | A run is the sum of consecutive entries of the array |
| `DecoderRun.CompensationIsExactIff` | examples/cpu_rnn_inference_int8.cpp:111-125 | Subtracting shift times that sum removes the shift exactly if there is none or the row and column sums agree |
| `DecoderRun.CompensationCanFail` | examples/cpu_rnn_inference_int8.cpp:72-81 | Weights for which it does not |
| `DecoderRun.Attend` | examples/cpu_rnn_inference_f32.cpp:770-793 | Softmax weights of the source's alignments; every layer's context half is the annotations' sum by those weights, hidden halves are unchanged |
| `DecoderRun.ContextsInPlace` | examples/cpu_rnn_inference_f32.cpp:129-158 | The same in every layer, on the array of states |
| `DecoderRun.Decode` | examples/cpu_rnn_inference_f32.cpp:763-823 | Iteration i reads segment i-1, or zeros, and writes segment i, once and in bounds; outputs and last state are those of the recurrence of attention, context copies and net |
| `DecoderRun.SegmentInPlace` | examples/cpu_rnn_inference_f32.cpp:817-822 | Segment i is the stretch of the output array from i times the segment size, and iteration i reads the one before |
| `DecoderRun.OutputsAreDetermined` | examples/cpu_rnn_inference_f32.cpp:763-823 | That recurrence has one solution, whichever softmax variant computes it |
| `PackedSequences.ForwardPacked` | examples/rnn_training_f32.cpp:392-413 | Every sequence gets the states it has by itself, over its own length, wherever it lies in the buffer and whatever the padding holds |
| `PackedSequences.PackingChangesNothing` | examples/rnn_training_f32.cpp:205-218 | In the buffer a sequence has the states of the recurrence over its rows alone |
| `PackedSequences.RowOnView` | examples/rnn_training_f32.cpp:209-218 | Channel k of entry n at step t of a view is the element (start + t) * (N0 + N1) * C + n * C + k of the buffer |
| `PackedSequences.OnlyOwnCellsMatter` | examples/rnn_training_f32.cpp:39-63 | States of a sequence do not change with padding or other sequences |
| `PackedSequences.ForwardIsDetermined` | examples/rnn_training_f32.cpp:392-413 | Two buffers that hold the same sequences give the same results |
| `PackedSequences.IsAlwaysPacked` | examples/rnn_training_f32.cpp:39-63 | Every buffer of the size holds sequences of the two lengths |
| `PackedSequences.RightmostContinues` | examples/rnn_training_f32.cpp:288-304 | Starting from the handed-over states of the first batch continues its sequences |
| `PackedSequences.ViewsAreApart` | examples/rnn_training_f32.cpp:209-218 | The two source views are in bounds and disjoint |
| `PackedSequences.ViewsCoverIff` | examples/rnn_training_f32.cpp:39-63 | A place of the padded buffer is seen by a view exactly if it is not padding |
| `EnumNames.FuncToStr` | scripts/generate_dnnl_debug.py:243-271 | The lines of the generated printer |
| `EnumNames.StrToFunc` | scripts/generate_dnnl_debug.py:281-333 | The lines of the generated parser and its default; none without an undefined enumerator |
| `EnumNames.NameReadsBack` | scripts/generate_dnnl_debug.py:201-333 | The printed name of an enabled enumerator is read back as its number; a last one gives the default |
| `EnumNames.ParserUndoesPrinter` | scripts/generate_dnnl_debug.py:243-333 | For enumerators that share numbers and any macro setting, the parser maps the printed name back to the number exactly if the first enumerator printed is not a last one or has the default's number |
| `EnumNames.LastIsNotReadBack` | scripts/generate_dnnl_debug.py:243-333 | An enumeration whose last enumerator is read back as the default |
| `EnumNames.SanitizedIsPlain` | scripts/generate_dnnl_debug.py:201-212 | A sanitized ordinary name contains neither the prefix nor a special word |
| `EnumNames.PrintsWithoutPrefix` | scripts/generate_dnnl_debug.py:201-212 | A name is printed without the prefix, and without the word of its mode for the five modes |
| `EnumNames.FullNameReads` | scripts/generate_dnnl_debug.py:281-333 | The full name of an enabled enumerator is read as its number too |
| `StackedViews.ViewIsStacked` | examples/graph/sdpa_stacked_qkv.cpp:130-133 | View v at (b, h, s, d) is the stacked element (b, s, h, v, d) |
| `StackedViews.ViewsAreApart` | examples/graph/sdpa_stacked_qkv.cpp:237-241 | The views are in bounds, and no two elements of the three share a place |
| `StackedViews.ViewsCover` | examples/graph/sdpa_stacked_qkv.cpp:123-136 | Every place of the stacked buffer is an element of a view |

## Left out

- Rounding, overflow and not-a-number arithmetic: tensors hold reals, and type casts keep the value.
- Kernels behind primitives (convolution, LRN, pooling, LSTM, matrix multiplication in the decoder), and how a graph is cut into partitions: parameters.
- What `malloc` returns and what a compiled partition reports are parameters; a request may fail.
- Engines, streams, SYCL, OpenCL and TBB variants, timing and benchmark loops, data initialisation, and the user's own code between passes beyond arbitrary update functions.
- Padding of a layout: a buffer may have any, and nothing is said about what it holds.
- AllocateHost: atomic, since the source holds a lock for the whole call; the order in which a multimap lists equal keys is the order of insertion.
- Clear: modelled as a step only when no pointer is live, as the source says it is not thread safe.
- Argument nodes of the training net as heap objects, and destroying memories and primitives at its end.
- ComputeSumOfRows: does not model 32-bit wrap-around, which needs more than 2^24 rows.
- Of the header guard fixer: deriving the guard's name from the path, command line options, colours, walking directories and the warning about repetitive file names.
- AdjustContent: reading decodes text and translates line endings before the model starts.
- FixIsIdempotent: for headers that `IsRegular` describes: not ending in a backslash, without #pragma once inside a guard of the right name, with a guard to be added between conditionals, and with the directives of a guard to be repaired on one line each. That these are necessary is not shown.
- LinesSurvive: for the same headers, unless a definition is added and the #endif rewritten, which overwrites a line.
- Decode: one run; a second run of the loop would start from handles the first has moved. Matrix products and tanh of the alignment model are one parameter.
- NameReadsBack: for enumerations whose ordinary names are the prefix and what is printed, all printed names different, and no name with both any and undef in it.
- HasContentIff: for top-level blocks that follow each other from the end of the license on.
- CheckPassesIff: for headers without #pragma once and without a lone #; so are FoundCorrectIff and ReportsIff.
- EndifReplacedIff: for comments of one word, and the words header guard.
- InputReusesProducer: when several supported partitions list the same output, it names the last one.
- AnyLayoutStaysInside: the binding of a consumer is stated for outputs listed once by their producer.
- ForwardPacked: the backward pass and the recurrent cell's weights are left out.
- FuncToStr: formatting, the extra lines for internal primitive and algorithm kinds, and enumerations without a parser are left out.
- ViewIsStacked: positions count elements; byte offsets are the element's size times that.
- Filling inputs and masks, whose loops carry no hard property.
