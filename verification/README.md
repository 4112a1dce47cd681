# Attention kernels and export lists: a verified model

This project models the hand-scheduled attention kernels of `kernels/attention/` and the static
export-list evaluator of `scripts/list_stable_apis.py`, and proves that their schedules, their
arithmetic and their address maps do what they are meant to.

- **Pipelines.** `Machine` is a workgroup: waves with instruction streams, FIFOs of asynchronous copies
  that land one line at a time, counted waits and rendezvous barriers. `Rings` turns facts that hold
  wave by wave into whole-run guarantees. `Dualwave`, `Fp8Ring`, `PagedRing` and `MlaRing` are the four
  schedules as programs of that machine; vector-memory operations retire in issue order.
- **Softmax.** `Softmax` and `ScaledSoftmax` are the real-number theory, with exp2 known by its laws
  only. `DualwaveRow`, `GenericRow`, `Fp8Row`, `SealedRow`, `MlaRow` and `SplitK` run one query row and
  one output column through the kernels' loops and meet one specification: direct attention over
  exactly the visible keys (`Masks`, `Rows`). Because the simple loop and the pipelined ones have the same
  postcondition, each pipelined form refines the simple one.
- **Both together.** `Observed` feeds the rows with the tiles that a wave's reads really saw in a completed run
  of its schedule.
- **Arithmetic.** `Tiles` and `PageTable` (tile bounds, KV splits, block-table window), `PagedLoops`
  (loop splitting), `MlaRows` (row resolution), `KBands`, `Workspace` and `Grid` (address maps, thread
  maps and grid mappings).
- **Export lists.** `ExportLists` has the two mutually recursive functions as methods with loops, and
  compares them with a semantics that keeps no stack.

A property that the code does not have is stated as it is: the host's page-window check does not
bound segments once there are 1024 or more splits. `Tiles.WindowHoldsExactlyWhen` gives the exact condition and
`Tiles.WindowFailsAt1024` a launch that breaks it. Likewise `Fp8Row.AboveTheBoundARunOverflows` shows why the lazy
threshold must not exceed log2(448).

## Model

| member | source | states |
|---|---|---|
| Machine.Observes | kernels/attention/flash_attn_gfx950.py:399-874 | In every run of a valid wave program, under any interleaving of instructions, DMA landings and barriers, each LDS read saw exactly the one tile that its own program order says was last sent there by every wave |
| Machine.NoOverwriteWhileReadable | kernels/attention/flash_attn_gfx950.py:489-655 | While some wave still has to read a region before its next barrier, no wave has an outstanding copy to it |
| Machine.RunsAreBounded | kernels/attention/flash_attn_gfx950.py:399-874 | No run takes more steps than the work in the program text |
| Machine.Progress | kernels/attention/flash_attn_gfx950.py:399-874 | Waits and barriers never deadlock: while a wave is not done, some step is enabled |
| Machine.StuckOnlyWhenDone | kernels/attention/flash_attn_gfx950.py:399-874 | A run that cannot be extended has brought every wave to its end |
| Rings.ScheduledIsValid | kernels/attention/flash_attn_gfx950.py:399-874 | Per-wave facts about what is in flight, plus the slot distance of a ring, give the static discipline of the machine |
| Rings.ReadsInOrder | kernels/attention/flash_attn_gfx950.py:399-874 | Every complete run of a scheduled pipeline reads each kind of tile in order, whole, from its ring slot, up to the count consumed |
| Rings.InFlightAllowed | kernels/attention/flash_attn_fp8_gfx950.py:196-202 | What is really in flight at the start of a segment is among the copies the facts allow |
| Dualwave.SegIsCluster | kernels/attention/flash_attn_gfx950.py:489-874 | The program of loop and epilogue is one four-cluster pattern over the tile index, with the loads that fall off the end left out |
| Dualwave.TilesInOrder | kernels/attention/flash_attn_gfx950.py:399-874 | For every even n >= 4, with and without stagger and bias, every wave reads K, V and its bias tiles t0 .. t0+n-1 once each, in order, with both groups' DMAs landed |
| Dualwave.NoTileOverwritten | kernels/attention/flash_attn_gfx950.py:399-874 | No in-flight DMA of either group targets a buffer that some wave still has to read before its next barrier |
| Dualwave.EqualBarriers | kernels/attention/flash_attn_gfx950.py:426-436 | Both stagger groups execute the same number of barriers: the extra one that opens the shift is matched by the one that closes it |
| Softmax.Normalised | kernels/attention/flash_attn_utils.py:464-468 | Any online state (sums relative to any reference point, times any positive factor) normalises to direct softmax attention, 0 for rows that see nothing |
| Softmax.DirectIs | kernels/attention/flash_attn_generic.py:318-502 | What direct attention means: the average of the values, each weighted by exp2 of its logit; minus infinity weighs nothing, a sink weighs without a value, a row that sees nothing is 0 |
| Softmax.Rebased | kernels/attention/flash_attn_utils.py:469-475 | Moving the reference point from m to m' multiplies both sums by exp2(m - m') |
| DualwaveRow.FinishSoftmax | kernels/attention/flash_attn_gfx950.py:515-524 | The second exp2 pass completes the tile's probabilities and adds their sum to l |
| DualwaveRow.Rescale | kernels/attention/flash_attn_utils.py:3977-4054 | Lazy or eager, under any ballot: the new maximum is the old one if all lanes are within the threshold, and otherwise the larger of it and the tile's; O, l and the pending P move to it by one common factor |
| DualwaveRow.ProductCluster | kernels/attention/flash_attn_gfx950.py:541-577 | PV step 0, a rescale that also scales the pending P, and PV steps 1 to 3 amount to the whole tile's product at the new maximum |
| DualwaveRow.EpilogueCluster | kernels/attention/flash_attn_gfx950.py:715-733 | The epilogue's full product and unconditional rescale of O to the larger of the maximum and the tile's; the factor for l is handed to a later cluster |
| DualwaveRow.HalfIteration | kernels/attention/flash_attn_gfx950.py:503-577 | Clusters 0-3 (and 4-7): O and l stay the exact sums over the visible keys of the tiles done, and the next tile's logits exceed m by at most the threshold |
| DualwaveRow.EpilogueStep | kernels/attention/flash_attn_gfx950.py:669-792 | The same for an epilogue tile, with l rescaled only after the factor owed from the cluster before is paid |
| DualwaveRow.SegmentRow | kernels/attention/flash_attn_gfx950.py:441-868 | A whole segment: O and l are the sums over exactly the visible keys, for every lazy or eager setting and every sequence of ballots; the maxima never decrease, each is the causal floor or the maximum of a tile seen, and no tile's logits exceed its own by more than the threshold |
| DualwaveRow.ProbabilitiesBounded | kernels/attention/flash_attn_utils.py:4021-4054 | Hence every probability of the run is at most exp2(threshold), or 1 when eager |
| DualwaveRow.AttentionRow | kernels/attention/flash_attn_gfx950.py:441-874 | The unsplit row equals direct softmax attention over exactly the keys it may see (Rows.AllKeysAre); blocks that end before the first diagonal are zeroed, which is the same value |
| DualwaveRow.AttentionRowWithSink | kernels/attention/flash_attn_utils.py:3993-3999 | With a sink the result is attention with that extra logit counted once |
| DualwaveRow.SinkFolded | kernels/attention/flash_attn_utils.py:3993-3999 | Folding the sink at any maximum yields attention with the sink as extra mass |
| GenericRow.OnlineTile | kernels/attention/flash_attn_generic.py:385-492 | One tile of the simple loop keeps the sums exact at the largest of the old maximum, the tile's and the floor |
| GenericRow.KvMaskIsComplete | kernels/attention/flash_attn_utils.py:3099-3145 | The simple kernel's mask leaves exactly the visible keys, also where it is skipped |
| GenericRow.AttentionRow | kernels/attention/flash_attn_generic.py:295-502 | The simple per-tile loop meets the specification that the pipelined rows meet, so they refine it |
| DualwaveRow.RefinesSimpleLoop | kernels/attention/flash_attn_generic.py:318-502 | The pipelined row and the simple loop give the same output on the same row, whatever the rescale setting, the ballots and the block sizes |
| Masks.ColumnsOnce | kernels/attention/flash_attn_utils.py:4059-4076 | The 2 x 16 scores of the two half-waves are the 64 columns of a tile, each exactly once, for both K layouts |
| Masks.VisibleIs | kernels/attention/flash_attn_utils.py:3606 | The diagonal is bottom-right aligned: a row sees a key if its distance to the last query is at most the key's to the last key |
| Masks.VisibleCount | kernels/attention/flash_attn_utils.py:4070 | The last query sees every key, and each query before it one key less |
| Masks.RowsOnce | kernels/attention/flash_attn_utils.py:1049-1056 | The waves' lanes are the rows of the block, each exactly once |
| Masks.UnmaskedPoints | kernels/attention/flash_attn_gfx950.py:541-623 | Mask calls are left out of loop tiles only: all of them for non-causal rows, the odd ones for square causal rows |
| Masks.PairsAreThresholds | kernels/attention/flash_attn_utils.py:481-502 | The immediates of the mask instruction pairs are the column offsets of the lane's scores |
| Masks.ApplyMaskPairs | kernels/attention/flash_attn_utils.py:505-516 | In place, exactly the scores right of the limit become minus infinity |
| Masks.CausalMaskInPlace | kernels/attention/flash_attn_utils.py:4059-4076 | Both halves: exactly the columns above the row's diagonal are masked, all others keep their score |
| Masks.SeqPadMaskInPlace | kernels/attention/flash_attn_utils.py:4108-4139 | Both halves: exactly the columns at or past seqlen_kv are masked |
| Masks.MaskingIsComplete | kernels/attention/flash_attn_utils.py:4078-4139 | A key survives the masks of its tile's program point (prologue, even or odd loop tile, epilogue) exactly when the row may see it, for square, cross and non-causal launches and any split |
| Rows.MaskedTile | kernels/attention/flash_attn_gfx950.py:604-623 | The masked tile is the tile with exactly the invisible keys at minus infinity |
| Rows.AllKeysAre | kernels/attention/flash_attn_utils.py:3606 | The specification's keys one by one: own logit and value, minus infinity exactly where the bottom-right aligned diagonal hides the key |
| Rows.UnsplitCovers | kernels/attention/flash_attn_utils.py:3733-3749 | Tiles 0 .. max_num_tiles-1 contain every visible key of every row of the block |
| Rows.CoveredSums | kernels/attention/flash_attn_utils.py:3733-3763 | Tiles that cover the visible keys have the mass and weighted sum of the whole sequence |
| Tiles.TileContext.InitTileBounds | kernels/attention/flash_attn_utils.py:3733-3763 | The step-by-step context computes the tile count and this workgroup's split bounds |
| Tiles.TileContext.InitSplit | kernels/attention/flash_attn_utils.py:3751-3763 | Its second half: start, end and non-emptiness of the split |
| Tiles.TilesCoverVisibleKeys | kernels/attention/flash_attn_utils.py:3733-3749 | The tile count is even, at least 4, and reaches every visible key |
| Tiles.SplitLength | kernels/attention/flash_attn_utils.py:3751-3763 | A nonempty split has an even number of tiles between 4 and chunk + 2 |
| Tiles.SplitsPartition | kernels/attention/flash_attn_utils.py:4788-4795 | A tile lies in the segment of split s exactly when s is its owner: the nonempty splits partition the tiles |
| Tiles.EmptyStoreExactlyOnOthers | kernels/attention/flash_attn_utils.py:4449-4467 | store_empty_split fires exactly on the splits without tiles of their own |
| Tiles.WindowHoldsExactlyWhen | kernels/attention/flash_attn_interface.py:733-741 | After the host check every active segment fits the 2048-entry window if and only if no split gets a full chunk plus an absorbed tail; the condition is on tile count and split count |
| Tiles.WindowHoldsUpTo1023 | kernels/attention/flash_attn_interface.py:733-741 | With at most 1023 splits the host check is enough |
| Tiles.WindowFailsAt1024 | kernels/attention/flash_attn_interface.py:733-741 | With 1024 splits it is not: a launch with 134086784 keys passes the check, its blocks have 2095106 tiles, and split 1022 gets 2050 of them |
| PageTable.LoadBlockTable | kernels/attention/flash_attn_utils.py:3798-3827 | Window entry x is block-table entry t0 + x, and 0 for tiles past the last |
| PageTable.PipelinePages | kernels/attention/flash_attn_gfx950.py:484-668 | Each K and V load of the pipeline uses the page id of its own tile, also the id carried across iterations |
| PageTable.SplitPages | kernels/attention/flash_attn_interface.py:733-741 | A split of a checked launch loads every K and V tile t of its segment once, in order, from page table[t] (page 0 if the tile starts past the last key) |
| Fp8Ring.IssueV | kernels/attention/flash_attn_utils.py:5353-5372 | The V DMA loop of a wave issues the instructions it should, in range |
| Fp8Ring.PassesAreIssued | kernels/attention/flash_attn_utils.py:5262-5269 | The K passes that are counted are those that the loader issues |
| Fp8Ring.IssueK | kernels/attention/flash_attn_utils.py:5261-5279 | The K DMA loops issue every pass of every band once, as many instructions as are counted |
| Fp8Ring.EveryWaveIssuesEnough | kernels/attention/flash_attn_utils.py:2046-2053 | For all wave counts and head widths no wave issues fewer DMAs per pair than dualwave_fp8_dma_per_iter |
| Fp8Ring.RingIndexIs | kernels/attention/flash_attn_fp8_gfx950.py:248-253 | The ring index carried by conditional wrap is (t0 + 2p) mod 6 |
| Fp8Ring.TilesInOrder | kernels/attention/flash_attn_fp8_gfx950.py:215-361 | In every run every wave reads K and V tiles t0, t0+1, .. in order, whole, from slot t mod 6 |
| Fp8Ring.OnlyNewestPairInFlight | kernels/attention/flash_attn_fp8_gfx950.py:196-202 | When an iteration starts, only the DMAs issued in the iteration before are still in flight |
| Fp8Ring.NoTileOverwritten | kernels/attention/flash_attn_fp8_gfx950.py:253-361 | No DMA targets a slot that a wave still has to read in its iteration |
| ScaledSoftmax.ScaledSums | kernels/attention/flash_attn_utils.py:5897-5928 | Sums of exp2(x (s - m) + b) are 2^b times the sums of the scaled logits |
| Fp8Row.PairMaskIsComplete | kernels/attention/flash_attn_utils.py:5825-5880 | One causal branch per pair, or padding masks tile by tile, leave exactly the visible keys |
| Fp8Row.CorrectKeeps | kernels/attention/flash_attn_utils.py:6020-6042 | The lazy correction keeps the state exact whether it is a no-op or raises the maximum |
| Fp8Row.CorrectedMax | kernels/attention/flash_attn_utils.py:5987-6042 | The corrected maximum is the old one if the test passes on all lanes, and otherwise the larger of the old one and the pair's |
| Fp8Row.PairMaxAttained | kernels/attention/flash_attn_utils.py:5771-5778 | A pair's maximum is a score of the pair, or the floor |
| Fp8Row.RunMaxIsAScore | kernels/attention/flash_attn_utils.py:5987-6042 | The maximum of any run is one of its logits, or the floor |
| Fp8Row.SubtileKeeps | kernels/attention/flash_attn_fp8_gfx950.py:209-214 | Probabilities, row sum and product of one tile add exactly that tile's keys |
| Fp8Row.IterateKeeps | kernels/attention/flash_attn_fp8_gfx950.py:253-361 | A pair iteration adds exactly its two tiles |
| Fp8Row.RunKeeps | kernels/attention/flash_attn_fp8_gfx950.py:253-361 | Whatever pair calls a wave makes and whatever its ballots, the state stays 2^bias times the sums over the visible keys of the tiles so far |
| Fp8Row.PairLoop | kernels/attention/flash_attn_fp8_gfx950.py:253-361 | A pair loop leaves the state that its calls, in order after those before, lead to |
| Fp8Row.DenseSegment | kernels/attention/flash_attn_fp8_gfx950.py:253-361 | The dense loop over one segment has exact sums |
| Fp8Row.DenseRow | kernels/attention/flash_attn_fp8_gfx950.py:253-369 | The dense FP8 row is attention on the scaled logits times the value scale: the headroom factor cancels |
| Fp8Row.FitsE4m3 | kernels/attention/flash_attn_utils.py:5894-5919 | A logit within the slack of the maximum gives a probability of at most 448 |
| Fp8Row.HeadroomIsUsed | kernels/attention/flash_attn_utils.py:5894-5919 | Within the threshold's bound the largest logit that may be cast gives exactly 448 |
| Fp8Row.OverflowsAbove | kernels/attention/flash_attn_utils.py:5894-5919 | With a lazy threshold above log2(448) some logit that the test lets pass exceeds 448 |
| Fp8Row.AboveTheBoundARunOverflows | kernels/attention/flash_attn_utils.py:5894-6042 | Above that threshold the dense loop reaches, on four tiles, a pair whose ballot passes and that hands more than 448 to the cast |
| Fp8Row.NothingOverflows | kernels/attention/flash_attn_utils.py:5894-6042 | In every run, lazy with threshold at most log2(448) or eager, every probability given to the e4m3 cast is at most 448 |
| PagedLoops.PlanInOrder | kernels/attention/flash_attn_fp8_paged_gfx950.py:367-428 | Whatever a wave decides, its loops concatenate to the pairs t0, t0+2, .., t_end-2 |
| PagedLoops.CallFrom | kernels/attention/flash_attn_fp8_paged_gfx950.py:367-428 | What the flags of a call say about its pair |
| PagedLoops.UnmaskedStoresAreValid | kernels/attention/flash_attn_fp8_paged_gfx950.py:367-375 | No iteration without V masks stores a token at or past seqlen_kv |
| PagedLoops.UnmaskedScoresAreVisible | kernels/attention/flash_attn_fp8_paged_gfx950.py:403-417 | No iteration without causal masks scores a key above the diagonal of a row of its wave |
| PagedRing.EqualBarriers | kernels/attention/flash_attn_fp8_paged_gfx950.py:355-365 | Waves that choose different loops execute the same number of barriers |
| PagedRing.TilesInOrder | kernels/attention/flash_attn_fp8_paged_gfx950.py:236-365 | Whatever each wave decides, K ring, V ring and register-staged V hold the right tiles at every pair, for 6 and 8 slots |
| PagedRing.NoTileOverwritten | kernels/attention/flash_attn_fp8_paged_gfx950.py:285-365 | Nobody writes to a slot that a wave still has to read |
| PagedRing.UnmaskedStoresAreValid | kernels/attention/flash_attn_fp8_paged_gfx950.py:285-375 | In terms of the program: no V store of an iteration without V masks has a token at or past seqlen_kv |
| PagedRing.UnmaskedScoresAreVisible | kernels/attention/flash_attn_fp8_paged_gfx950.py:285-417 | And no K tile that an iteration without causal masks scores has a key above the diagonal |
| SealedRow.ScoreIsBounded | kernels/attention/flash_attn_fp8_paged_gfx950.py:250-262 | A product of a query row with finite e4m3 keys is at most the product of 448s with its magnitudes |
| SealedRow.UpperBoundHolds | kernels/attention/flash_attn_fp8_paged_gfx950.py:250-262 | The kernel's upper bound dominates every logit of the row |
| SealedRow.UpperBoundIs | kernels/attention/flash_attn_fp8_paged_gfx950.py:250-262 | That bound is 2 * 448 times the sum of the query row's magnitudes |
| SealedRow.SealTestIsWorstCase | kernels/attention/flash_attn_fp8_paged_gfx950.py:24-30 | The safe test passes exactly when the scale is positive and a pair whose maximum is the bound would take the no-op branch |
| SealedRow.SealedIsBelow | kernels/attention/flash_attn_fp8_paged_gfx950.py:24-30 | A lane whose bound is safe stays within the threshold at every later pair |
| SealedRow.SkipIsNoOp | kernels/attention/flash_attn_fp8_paged_gfx950.py:329-340 | If a lane and its peers are below, the pair without a maximum equals the pair with one |
| SealedRow.SealedRunIsSlowRun | kernels/attention/flash_attn_fp8_paged_gfx950.py:386-412 | After every pair, each lane of a sealed wave has the same m, l and O as in the run that looks for the maximum each time, where every correction takes its no-op branch |
| SealedRow.PagedRow | kernels/attention/flash_attn_fp8_paged_gfx950.py:269-438 | The paged row, through whatever loops, is attention on the scaled logits of exactly the visible keys times the value scale, and its calls are the planned ones |
| SealedRow.SafeTestSeals | kernels/attention/flash_attn_fp8_paged_gfx950.py:24-30 | The safe test on 2 * 448 * sum of magnitudes after the first pair is all that a lane with e4m3 keys needs: its plan is a fast one and it has sealed |
| SealedRow.SlowPlanIsUnsealedPlan | kernels/attention/flash_attn_fp8_paged_gfx950.py:386-412 | The fast loops make the calls of the slow loops, except that they skip the maximum |
| SealedRow.SealedWaveIsSlowWave | kernels/attention/flash_attn_fp8_paged_gfx950.py:252-412 | A wave whose test passes on every lane and that takes the fast loops ends, on every lane, with the m, l and O that the slow loops would have left |
| SealedRow.PagedNeverOverflows | kernels/attention/flash_attn_utils.py:5894-5919 | No probability of a paged run exceeds 448, sealed by the kernel's own test or not |
| SplitK.ReduceMMax | kernels/attention/flash_attn_utils.py:6278-6282 | The maximum over the splits' maxima, attained by one of them |
| SplitK.StoredStandsFor | kernels/attention/flash_attn_gfx950.py:866-881 | A normalised partial with its m and l still stands for the split's sums |
| SplitK.AccumulateSplits | kernels/attention/flash_attn_utils.py:6306-6334 | Weighting normalised partials by exp2(m_s - m_max) l_s and skipping l_s = 0 gives the sums over all splits |
| SplitK.CombineRow | kernels/attention/flash_attn_utils.py:6278-6350 | The combined row is attention over the keys of all splits, times the value scale |
| SplitK.CombineRowWithSink | kernels/attention/flash_attn_utils.py:6284-6304 | Folding the sink in the combine only, the sink counts exactly once |
| SplitK.SplitsConcatenate | kernels/attention/flash_attn_utils.py:3751-3763 | The segments of the splits, one after the other, are the tiles of the block |
| SplitK.SplitRow | kernels/attention/flash_attn_gfx950.py:866-936 | A split row, from segments and empty stores to the combine, equals the unsplit row: direct attention |
| SplitK.SplitRowWithSink | kernels/attention/flash_attn_gfx950.py:921-936 | The same with a sink: equal to fold_sink in the unsplit epilogue |
| SplitK.SplitRow8 | kernels/attention/flash_attn_utils.py:6089-6111 | The FP8 split row: headroom factor and scaled maxima cancel in the combine |
| Workspace.RowIdxInjective | kernels/attention/flash_attn_utils.py:951-956 | Different (split, head, row) triples have different row indices |
| Workspace.RegionsAreDisjoint | kernels/attention/flash_attn_utils.py:6432-6439 | O_partial, Mrow and Lrow are disjoint, lie below dualwave_splitk_workspace_elems, and no word belongs to two rows |
| Workspace.EveryWordHasARow | kernels/attention/flash_attn_utils.py:6432-6439 | The workspace is no larger than it has to be: every word belongs to a row |
| Workspace.FormsAgree | kernels/attention/flash_attn_utils.py:937-956 | The addresses behind per-split descriptors are those of the flat form, and the descriptor bounds drop none of them |
| Workspace.StorePartial | kernels/attention/flash_attn_utils.py:4491-4505 | A row's store fills its words, leaves all others, and rows past the sequence store nothing |
| Workspace.StoreAll | kernels/attention/flash_attn_utils.py:6089-6111 | All splits' stores in any order: in the end every row has what was stored for it |
| Workspace.CombineLoad | kernels/attention/flash_attn_utils.py:6198-6209 | A combine lane's loads return the m, the l and the two words of its columns that that split stored for its row |
| Workspace.CombineCoversOnce | kernels/attention/flash_attn_utils.py:6184-6196 | Every four columns of every row are combined by exactly one launched thread, also when lanes do not divide the block |
| KBands.BuildBands | kernels/attention/flash_attn_utils.py:1937-1954 | For every head_dim a multiple of 64 the band loop tiles the columns and the LDS tile without gap or overlap, in bands of 128 columns and a last one of 64 if needed |
| KBands.LocateStrips | kernels/attention/flash_attn_utils.py:1948-1954 | The strip tables locate each 64-column strip in its band |
| KBands.StripReadsRow | kernels/attention/flash_attn_utils.py:5693-5705 | The strip read for (key, ws) returns elements 64 ws .. 64 ws + 63 of row key, as the DMA lane map wrote them |
| KBands.WritesDisjoint | kernels/attention/flash_attn_utils.py:5260-5279 | Two DMA stores to one LDS element come from the same wave, band, pass, lane and byte |
| KBands.PassesAreFull | kernels/attention/flash_attn_utils.py:5262-5279 | All lanes of all passes of a band are active exactly when its rows fill whole passes |
| KBands.FullBands | kernels/attention/flash_attn_utils.py:5262-5279 | That is so for four waves always, and for eight waves in the 128-column bands only |
| KBands.InactiveLeavesRows | kernels/attention/flash_attn_utils.py:5321-5330 | A switched-off lane's address lies past the rows of its wave's line |
| Grid.GridContext.InitThreadMapping | kernels/attention/flash_attn_utils.py:979-1045 | The context's head, block, batch and split come from the grid ids by the branch the launch selects |
| Grid.GridContext.Init | kernels/attention/flash_attn_utils.py:3528-3569 | Mapping and longest-first order together leave the workgroup's work in the context |
| Grid.SlotForth | kernels/attention/flash_attn_utils.py:988-1015 | Each of the swizzled, interleaved (both layouts), split and plain id mappings can be undone |
| Grid.IdEquations | kernels/attention/flash_attn_utils.py:988-1031 | Which work goes where: the swizzle keeps the linear id but counts head by head, interleaving puts a group of batches side by side in x in either layout, splits are the minor digit of z |
| Grid.HeadsForth | kernels/attention/flash_attn_utils.py:1042-1045 | The GQA order is one-to-one and gives kv_head = q_head / group size |
| Grid.EveryWorkgroupWorks | kernels/attention/flash_attn_utils.py:979-1045 | Every launched workgroup has one piece of work, and no two the same |
| Grid.AllWorkIsDone | kernels/attention/flash_attn_utils.py:3528-3569 | Every (batch, split, head, query block) is done by a launched workgroup |
| Grid.LongestFirst | kernels/attention/flash_attn_utils.py:3528-3533 | Causal blocks are issued in order of non-increasing tile count |
| Grid.GroupMustDivide | kernels/attention/flash_attn_fp8_gfx950.py:526-530 | The interleaved grid reaches all batches if and only if the group divides the batch |
| Grid.DenseGroup | kernels/attention/flash_attn_interface.py:247-251 | The dense group divides the batch and is used for unsplit causal launches only |
| Grid.PagedGroup | kernels/attention/flash_attn_interface.py:519-533 | The paged group divides the batch |
| Grid.ChosenGroupsAreOk | kernels/attention/flash_attn_interface.py:677-690 | Launches with the host's groups, dense ones of any kind and the causal unsplit paged ones that it accepts, meet what the grid mapping relies on |
| MlaRing.TilesInOrder | kernels/attention/mla_fwd_decode_m16x8_fp8_fp8.py:1661-1973 | In every run every wave scores and multiplies the rows of tiles 0 .. n-1 in order from buffer t mod 2, with zero-filled rows of a partial last tile |
| MlaRing.NoTileOverwritten | kernels/attention/mla_fwd_decode_m16x8_fp8_fp8.py:1817-1973 | Nobody writes to a buffer that some wave still has to read before its next barrier |
| MlaRing.OutputBounceIsSafe | kernels/attention/mla_fwd_decode_m16x8_fp8_fp8.py:1937-1973 | The output bounce goes through a buffer that no wave reads any more and no DMA targets |
| MlaRows.GetKvLdRow | kernels/attention/mla_fwd_decode_m16x8_fp8_fp8.py:363-378 | Row lookup with and without boundary check, reading the page table only at the item's own keys |
| MlaRows.WorkItem | kernels/attention/mla_fwd_decode_m16x8_fp8_fp8.py:1570-1755 | Tile t is fetched two ahead to buffer t mod 2 with its own physical rows, its fetch checks for missing rows exactly when it is partial, and only a partial last tile is masked |
| MlaRows.UncheckedRowsExist | kernels/attention/mla_fwd_decode_m16x8_fp8_fp8.py:458-530 | Unchecked fetches are of existing keys; missing rows belong to a partial last tile |
| MlaRows.EveryKeyOnce | kernels/attention/mla_fwd_decode_m16x8_fp8_fp8.py:1577-1582 | Every key of the item is in exactly one row of one tile |
| MlaRows.Map950 | kernels/attention/mla_fwd_decode_m16x8_fp8_fp8.py:363-378 | Every row and 4-column group of a block is fetched by exactly one thread and pass (gfx950) |
| MlaRows.Map942 | kernels/attention/mla_fwd_decode_m16x8_fp8_fp8.py:363-378 | The same for the other architectures |
| MlaRows.MaskColumns | kernels/attention/mla_fwd_decode_m16x8_fp8_fp8.py:815-835 | The masked positions are the tile's columns, each once per lane group |
| MlaRow.ProcessTile | kernels/attention/mla_fwd_decode_m16x8_fp8_fp8.py:837-915 | One tile: scores masked as the flag says, the maximum raised to the tile's, softmax and product keep the sums exact over the keys reached |
| MlaRow.ItemRow | kernels/attention/mla_fwd_decode_m16x8_fp8_fp8.py:1817-2001 | For every kv_len >= 1 the item's output is softmax attention over exactly kv_start .. kv_end-1 of the page table, m is the largest of their logits, and m, l are their log-sum-exp |
| Observed.DualwaveRun | kernels/attention/flash_attn_gfx950.py:399-868 | In a completed run, under any interleaving, the row's sums are over what its wave's K and V reads saw: the x-th V read is the tile whose probabilities come from the x-th K read |
| Observed.DenseRun | kernels/attention/flash_attn_fp8_gfx950.py:215-361 | The same for the dense FP8 ring: pair p scores and multiplies what reads 2p and 2p+1 saw |
| Observed.PagedRun | kernels/attention/flash_attn_fp8_paged_gfx950.py:236-438 | The same for the paged ring, whatever loops the waves take: the output is attention over what the reads saw |
| Observed.MlaRun | kernels/attention/mla_fwd_decode_m16x8_fp8_fp8.py:1570-2001 | The same for an MLA work item: scores from the first read of each tile, values from the second or from its transposed copy, zero-filled rows apart |
| ExportLists.ExportListValue | scripts/list_stable_apis.py:75-109 | The recursive evaluator, with its loops and its order of errors, computes the value of the expression |
| ExportLists.LiteralIsItself | scripts/list_stable_apis.py:77-87 | A literal list of strings is those strings in order |
| ExportLists.WrappersAddNothing | scripts/list_stable_apis.py:80-97 | A starred expression adds all of its list, list(e) and tuple(e) are the list of e, other calls are refused |
| ExportLists.JoinsConcatenate | scripts/list_stable_apis.py:77-89 | Joined literals and additions are the first list followed by the second, or the first failure |
| ExportLists.ReferencesAreLists | scripts/list_stable_apis.py:98-109 | m.__all__ is the list of the file that m is bound to; unknown names, files that do not parse and other elements are errors |
| ExportLists.FoundIsFirst | scripts/list_stable_apis.py:98-108 | The module found is that of the first import statement and name that bind it to an existing file, and none is found only if there is none |
| ExportLists.ModuleFileIs | scripts/list_stable_apis.py:192-203 | A relative import of level n starts n - 1 directories up and takes the module file before the package |
| ExportLists.EvalIs | scripts/list_stable_apis.py:112-130 | A file on the stack is a cycle; any other is evaluated with itself on the stack, after the parse and nested-scope checks |
| ExportLists.AssignThenExtend | scripts/list_stable_apis.py:132-167 | An assignment and a later += give both lists joined, two assignments the second, none an error, whatever other statements stand between |
| ExportLists.FirstErrorWins | scripts/list_stable_apis.py:144-170 | The first statement that goes wrong decides the error, and which of its checks comes first |
| ExportLists.NestedIs | scripts/list_stable_apis.py:117-130 | An assignment counts as nested however deep it is below a compound statement, and only then |
| ExportLists.FindRelativeModule | scripts/list_stable_apis.py:98-108 | The first relative import that binds the name to an existing module file |
| ExportLists.StringList | scripts/list_stable_apis.py:112-171 | The list of a file: cycle check, nested-scope check, assignments and additions in order |
| ExportLists.WalkFindsNested | scripts/list_stable_apis.py:117-130 | The breadth-first walk finds an assignment below module scope exactly when there is one |
| ExportLists.EvalEnds | scripts/list_stable_apis.py:112-115 | Evaluation with a stack ends on every module graph, cyclic or not |
| ExportLists.CycleExactlyWhenEndless | scripts/list_stable_apis.py:112-115 | The cycle error is raised exactly when evaluation without a stack would never end |
| ExportLists.StackDoesNotMatter | scripts/list_stable_apis.py:75-171 | Otherwise the result does not depend on the active set: it is the file's plain meaning |
| ExportLists.DefiniteIsPlain | scripts/list_stable_apis.py:75-171 | Any other result is the stack-free meaning, reached within as many references as there are files left |
| ExportLists.ListIsConcatenation | scripts/list_stable_apis.py:132-171 | A file has a list if and only if nothing nested assigns it, every targeting statement is an assignment or += of known value, and an assignment comes first; the list is the last assignment followed by the later additions |

## Left out

- Rounding, bf16 and fp8 conversion, fast-math and MFMA numerics: values are reals, a matrix product is an exact sum, and raw logits are finite; 32-bit index arithmetic is unbounded.
- LDS reads are one step: every cluster waits for its LDS reads before the barrier that ends it, so a read never spans a barrier. Query loads and waits that the compiler adds are not in the queues.
- A tile load is one machine step that issues all of a wave's lines. Page-size-1 loads fill per token with zeros.
- Re-reads of a V slot fragment by fragment (head width 192/128) count as one read of the slot.
- Loads past the last tile of the FP8 rings are modelled as loads of tiles that nobody reads.
- The ping-pong phases of the dense FP8 kernel, and the hand-over between MLA work items: one work item with at least one key is modelled.
- Lane shuffles, byte permutes, the V transposes and the row permutation of V stores are fixed finite maps; each lane is taken to hold its own row and column.
- The generic kernel's K double buffer, three-buffer prefetch and SKIP_KV_PAD_MASK build: its loop is modelled as the reference form only.
- Bias and ALiBi values are part of a key's logit; the log-sum-exp stores appear only as the m and l they are computed from.
- Scheduler hints, priorities, JIT and compile wrappers, stream handling, torch validation and tuning heuristics.
- ExportLists: files are resolved paths without symbolic links, `name` is `__all__`, and messages are kinds without line numbers. An annotation `__all__: T` without a value makes the code fail on a missing line number instead of raising its own error; the model keeps that as NoLineNumber.
- The collectors that call `_string_list`, the documentation parser and the snapshot comparison of `list_stable_apis.py`.
- KBands.StripReadsRow: takes the switched-off lanes of a partial-wave K DMA to write nothing, because the K loader masks them (flash_attn_utils.py:5321-5330). A comment on the V loader (flash_attn_utils.py:5345-5347) says that the LDS write strides by lane whatever the mask, so that such a pass would still write past its span; KBands.InactiveLeavesRows says where. By KBands.PassesAreFull and KBands.FullBands nothing depends on this for four waves or for bands of 128 columns; with eight waves and a 64-column band it does.
- Tiles.TileContext.InitTileBounds: does not model 32-bit wrap-around of the sum of query start, block rows and delta, because sequence lengths are far below it.
