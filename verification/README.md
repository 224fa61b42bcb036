# Serving engine: verified model

A Dafny model of the host-side algorithms of an LLM serving engine: speculative decoding over device
KV caches, the two-lane forward, the snapshot pool and the scheduler, attention decompositions, the
streaming splitter and the tool-call parser, JSON, the copy index and the activation quantizer.
`dafny verify dfyconfig.toml` checks all of it.

The model is abstract in the numbers and exact in control, state and algebra. Embeddings, attention,
experts and token selection are functions of the model (`Transformer.dfy`); a cache is the
sequence of KV rows each layer holds, with its capacities; the exchange with the expert nodes is a
bounded FIFO. The reference everything is compared with is the full-history model: every row of
every layer computed from all tokens, nothing ever dropped.

## How it hangs together

- `DeviceKv.dfy` is the cache class, method by method; `KvSound.dfy` says what a cache stands for
  (the newest rows of a token history) and that every operation keeps it; `KvRuns.dfy` puts these
  together over whole runs of one cache.
- `Lanes.dfy` runs a pass of segments over one or two lanes against the FIFO; `Chunks.dfy` and
  `Prefill.dfy` build prompt prefill on it, `Speculate.dfy` the verify step, `VerifyLengths.dfy` the
  choice of verify lengths, `CopyIndex.dfy` the copied proposals, `Decode.dfy` whole requests.
- `Snapshots.dfy`, `DeviceHits.dfy`, `Pool.dfy` and `Banks.dfy` are the snapshot cache.
- `Lifecycle.dfy` says what each step of the scheduler does to the requests, as their clients see
  it, and what every run of such steps keeps; `Scheduler.dfy` runs prompts, requests and pool
  together and is shown to take these steps and no others; `Intake.dfy` is its admission loop,
  `Queue.dfy` the bounded queue in front of it.
- `Softmax.dfy`, `Ring.dfy` and `Paged.dfy` are the attention decompositions and their stores, over
  reals with an exponential that satisfies `e(a + b) == e(a) * e(b)` and `e > 0`, and an explicit
  minus infinity.
- `Markup.dfy`, `Stream.dfy`, `ToolCalls.dfy` and `ParserLoops.dfy` are the text side;
  `Json.dfy` is the grammar and the printers (RFC 8259, section 7 for strings), `JsonReader.dfy`
  the cursor parser and the writer.
- `Quantizer.dfy` is quantizer v1 over exact powers of two, rounding to nearest with ties to even
  (section 4.3.1 of IEEE 754-2019).

## What turned out not to hold

- A verify block of a single request is split over two lanes
  (`crates/mimo26-coordinator/src/dforward.rs:1755-1757`) and each half is appended on its own. The
  comment on `truncate` (lines 435-438) says a compaction always keeps the window before the block;
  for the second half it counts the first half instead. `KvSound.SplitBlockWindow` gives the exact
  condition, `KvSound.SplitBlockLosesRows` a real configuration that loses three rows,
  `Speculate.SpecStep` carries the condition through a step, and `Speculate.SafeExactly` gives the
  test on the cache before the step that fails in just the caches in which a block can lose its
  window. `Decode.OutgrowsExactly` says for which requests there is such a cache on the way: those
  whose prompt and budget are more than the window and its slack of 64 rows. `Decode.ServeAll`,
  `Scheduling.Scheduler.Run` and `Intake.Loop.Run` split lone blocks as the code does, and stop
  only at a round whose split did cost such a request the window.
- `device_hit_for` (`crates/mimo26-coordinator/src/api.rs:466-480`) can pass over a point that would
  serve a sampled request exactly: `DeviceHits.HitForServes` says when, `SlotPool.MuteHitHides`
  and `SlotPool.MutePool` show a pool.
- The parameter scan of the tool-call parser (`crates/mimo26-api/src/parser.rs:180-188`) makes no
  progress on text starting with an unknown `<`: `ToolCalls.HangsExactly`. `ToolCalls.CompletionHangs`
  says exactly on which completions the parser never ends, `ToolCalls.StrayHangs` gives one.
- The ring drops visible rows when many rows share a position, which it accepts
  (`crates/mimo26-attn/src/cache.rs:319-330`): `Ring.TrimLoses`, `Ring.RepeatedPositions`.
- With chunks of one row, an odd prompt of 128 tokens or more gets an empty paired chunk:
  `Chunks.ChunkSpans`, `Prefill.Forward`.

## Model

| member | source | states |
|---|---|---|
| Transformer.HidCausal | crates/mimo26-coordinator/src/dforward.rs:1310-1384 | The reference: a row of any layer depends only on the tokens up to its own position, whatever follows |
| Transformer.HistPrefix | crates/mimo26-coordinator/src/dforward.rs:435-438 | The KV rows of a prefix are the first rows of the KV rows of the whole, so rolling back never has to recompute a row |
| Transformer.VisibleRun | crates/mimo26-attn/src/attn.rs:59-66 | Over consecutive rows reaching back to the oldest visible position, the position mask selects exactly one contiguous run |
| Transformer.TailSees | crates/mimo26-attn/src/attn.rs:59-66 | A query sees the same rows in a tail of the history that reaches its window as in the whole history up to it |
| DeviceKvCache.DeviceKv.constructor | crates/mimo26-coordinator/src/dforward.rs:381-421 | A fresh cache has one empty layer per model layer, windowed layers at window - 1 plus the slack |
| DeviceKvCache.DeviceKv.Reset | crates/mimo26-coordinator/src/dforward.rs:423-429 | Drops every row and the token count, and changes no capacity |
| DeviceKvCache.DeviceKv.Truncate | crates/mimo26-coordinator/src/dforward.rs:439-446 | Fails exactly when a layer is shorter than the drop or the target lies ahead; otherwise every layer loses exactly its newest rows |
| DeviceKvCache.DeviceKv.ShrinkGa | crates/mimo26-coordinator/src/dforward.rs:451-461 | Empties the cache and returns grown GA layers to the build capacity, no other |
| DeviceKvCache.DeviceKv.ShrinkSwa | crates/mimo26-coordinator/src/dforward.rs:464-487 | Only windowed layers grown past the build capacity change: they keep their last window - 1 rows |
| DeviceKvCache.DeviceKv.ReserveGa | crates/mimo26-coordinator/src/dforward.rs:545-555 | Grows GA capacity to the page-rounded request, and no rows change |
| DeviceKvCache.DeviceKv.ReserveSwa | crates/mimo26-coordinator/src/dforward.rs:853-864 | Grows windowed capacity to one prefill chunk beside the window, and no rows change |
| DeviceKvCache.DeviceKv.RewindGa | crates/mimo26-coordinator/src/dforward.rs:740-751 | Fails exactly when a GA layer is shorter than the target; otherwise GA layers keep exactly their first rows |
| DeviceKvCache.DeviceKv.ForkGa | crates/mimo26-coordinator/src/dforward.rs:755-770 | Fails when the source is too short; otherwise GA layers become copies of the first rows of the source |
| DeviceKvCache.DeviceKv.SaveState | crates/mimo26-coordinator/src/dforward.rs:675-706 | Succeeds if and only if the windowed layers agree on the rows to keep; then the state is the newest rows of each, and their number is the count returned |
| DeviceKvCache.DeviceKv.LoadState | crates/mimo26-coordinator/src/dforward.rs:709-737 | Fails exactly on more rows than the window before a query; otherwise windowed layers hold the saved rows and the other layers are untouched |
| DeviceKvCache.DeviceKv.Append | crates/mimo26-coordinator/src/dforward.rs:788-830 | Compacts or grows one layer exactly when the block does not fit, then appends; no other layer changes |
| KvSound.AppendHolds | crates/mimo26-coordinator/src/dforward.rs:788-830 | One append leaves a layer holding the newest rows, and at least a whole window of rows before the block however it compacted |
| KvSound.RollbackHolds | crates/mimo26-coordinator/src/dforward.rs:435-446 | After a one-append block any number of the rows of the block can be dropped: the truncate cannot fail and the layer still holds its window |
| KvSound.KernelSees | crates/mimo26-coordinator/src/dforward.rs:1579-1650 | The rows handed to the decode kernel contain exactly what each block row may attend to under the position mask |
| KvSound.PrefillSees | crates/mimo26-coordinator/src/dforward.rs:2108-2184 | The index mask of the prefill kernel over the stored rows selects the same rows as the position mask over the full history |
| KvSound.SplitBlockWindow | crates/mimo26-coordinator/src/dforward.rs:1755-1757 | The exact condition for a block appended in two halves: the truncate of the rejected rows is possible and leaves the windowed layer holding its window if and only if the second append did not compact past the window, or the whole first half was accepted, or the history is still shorter than the window; and with a first half no longer than the window the truncate itself is always possible |
| KvSound.SplitBlockLosesRows | crates/mimo26-coordinator/src/dforward.rs:435-438 | The comment on truncate is not true of split blocks: with a window of 128, 191 rows of capacity and 187 in use, a block of 8 split 4 and 4 with one row accepted leaves 124 rows where the next query sees 127 |
| KvSound.ShrinkStands | crates/mimo26-coordinator/src/dforward.rs:464-487 | Shrinking never changes what a cache stands for |
| KvSound.ShrunkGaStands | crates/mimo26-coordinator/src/dforward.rs:451-461 | Giving a slot back leaves a cache that stands for no tokens |
| KvSound.SaveAgrees | crates/mimo26-coordinator/src/dforward.rs:675-706 | The disagreement error of saving is unreachable from a cache of the right shape |
| KvSound.SaveSound | crates/mimo26-coordinator/src/dforward.rs:675-706 | What is saved at a history is the window of that history, layer by layer |
| KvSound.LoadStands | crates/mimo26-coordinator/src/dforward.rs:709-751 | Rewinding the GA layers and loading a state saved at a prefix gives the cache a cold prefill of that prefix gives |
| KvSound.ForkHolds | crates/mimo26-coordinator/src/dforward.rs:755-770 | A fork holds the GA rows of the prefix copied |
| KvRuns.RunCovers | crates/mimo26-coordinator/src/dforward.rs:439-487 | Over every run of one-append blocks, truncates within the last append, shrinks, reserves, saves and resumes: every GA layer holds positions 0 to tokens - 1, every windowed layer a contiguous run ending at tokens - 1 of at least min(tokens, window - 1) rows, all windowed layers agree on their row count, and neither a truncate nor a save can fail |
| KvRuns.FreshRuns | crates/mimo26-coordinator/src/dforward.rs:381-429 | A fresh or reset cache is the start of such a run |
| KvRuns.ExtendKeeps | crates/mimo26-coordinator/src/dforward.rs:788-830 | A block appended to every layer keeps all of that, and all its rows can be dropped again |
| KvRuns.CutKeeps | crates/mimo26-coordinator/src/dforward.rs:439-446 | Several truncates that together stay within the last append keep it |
| KvRuns.ResumeKeeps | crates/mimo26-coordinator/src/dforward.rs:709-751 | Resuming a snapshot taken at any earlier prefix keeps it |
| Lanes.Wire.Send | crates/mimo26-coordinator/src/dforward.rs:2186-2261 | An exchange joins the back of the FIFO, and only as many as there are lanes fit |
| Lanes.Wire.Recv | crates/mimo26-coordinator/src/dforward.rs:2263-2299 | The oldest exchange is answered, with the answer of its own layer |
| Lanes.SegSees | crates/mimo26-coordinator/src/dforward.rs:2108-2184 | Over a cache holding the history before a segment, both kernels give each row exactly its visible rows of the full history |
| Lanes.AttnSeg | crates/mimo26-coordinator/src/dforward.rs:2108-2184 | One segment: its reference KV rows are appended, and its rows come out as the reference attention gives them |
| Lanes.FlightHead | crates/mimo26-coordinator/src/dforward.rs:2263-2299 | Whenever a lane collects, the head of the FIFO is the exchange that this lane sent at its last MoE layer |
| Lanes.FlightBound | crates/mimo26-coordinator/src/dforward.rs:1310-1384 | At most one exchange per lane is ever in flight |
| Lanes.LaneLayer | crates/mimo26-coordinator/src/dforward.rs:1346-1370 | One lane through one layer keeps the FIFO exactly what the schedule owes and never finds it full or empty |
| Lanes.RunPass | crates/mimo26-coordinator/src/dforward.rs:1310-1384 | For any layer count and any pattern of dense and MoE layers, the two-lane pass never fails, leaves the FIFO empty, and gives the hidden rows and the KV of every layer that the reference gives running the chunks one after another |
| Chunks.ChunkSpans | crates/mimo26-coordinator/src/dforward.rs:2306-2323 | Spans lie end to end over exactly n tokens, at most the chunk size, longest first; paired they differ by at most one row and come in an even number from 128 tokens on; none is empty if and only if not (paired, chunk size 1, odd n of at least 128) |
| Chunks.PairedBounds | crates/mimo26-coordinator/src/dforward.rs:2306-2323 | The exact configuration in which there are more paired chunks than tokens |
| Prefill.ForwardGroup | crates/mimo26-coordinator/src/dforward.rs:1310-1384 | A group of one or two chunks leaves the cache standing for the longer history, and its last row is the reference row |
| Prefill.Forward | crates/mimo26-coordinator/src/dforward.rs:1244-1290 | The last row of a prefill is the reference row of the whole history for every chunk size, transport and kernel, and the cache stands for it; it fails exactly on no tokens, on a cache of another chunk size, and on the empty-lane configuration |
| VerifyLengths.ChainLength | crates/mimo26-coordinator/src/dforward.rs:981-990 | The proposals verified are exactly the leading ones, within the cap, whose chain probability is at least tau |
| VerifyLengths.ChanceFalls | crates/mimo26-coordinator/src/dforward.rs:994-1006 | A deeper proposal is never more likely to be accepted |
| VerifyLengths.SortedOf | crates/mimo26-coordinator/src/dforward.rs:1007-1016 | The stable sort keeps the rows of each request in depth order, so the skip of a row out of order is never taken before the break |
| VerifyLengths.CutBest | crates/mimo26-coordinator/src/dforward.rs:1017-1021 | At any price per row, cutting a chain where its probability falls below the price gains the most |
| VerifyLengths.Look | crates/mimo26-coordinator/src/dforward.rs:1007-1021 | At every turn of the loop the next row is the next of its request, and the break test asks whether it pays at the present rate |
| VerifyLengths.VerifyLengths | crates/mimo26-coordinator/src/dforward.rs:994-1022 | The lengths chosen are within the caps and maximise expected tokens over a + b * rows among all length vectors within the caps |
| CopyWindows.OccurrencesAre | crates/mimo26-coordinator/src/copy.rs:46-57 | The chain from head through prev is every earlier end of the last 8 tokens, newest first |
| CopyWindows.Chain | crates/mimo26-coordinator/src/copy.rs:46-57 | head names the newest occurrence and each prev link the newest before it |
| CopyWindows.BackIsMatch | crates/mimo26-coordinator/src/copy.rs:61-65 | The length of a candidate is that of the longest common ending, from 8 up to the cap of 64 |
| CopyWindows.BestIsLongest | crates/mimo26-coordinator/src/copy.rs:59-74 | The candidate kept is at least as long as all tried and longer than every more recent one |
| CopyWindows.CapWins | crates/mimo26-coordinator/src/copy.rs:66-71 | Stopping at the cap chooses as trying all 64 candidates would |
| CopyWindows.CopiedRepeats | crates/mimo26-coordinator/src/copy.rs:75-81 | Each copied token repeats the token the same distance back, also inside the copy: overlapping copies are periodic and never read past what is there |
| CopyWindows.ProposalFollowsBest | crates/mimo26-coordinator/src/copy.rs:41-82 | A proposal has the length asked for and continues the longest match among the newest 64 occurrences, the most recent of equals |
| CopyWindows.ProposalEmpty | crates/mimo26-coordinator/src/copy.rs:41-57 | Nothing is proposed exactly when fewer than 2 tokens are asked for, the context is no longer than a gram, or its last gram is new |
| CopyWindows.CopyIndex.Propose | crates/mimo26-coordinator/src/copy.rs:41-82 | Over any sequence of calls on a growing context the answer is that of a fresh search of the whole context |
| CopyWindows.CopyIndex.IndexNext | crates/mimo26-coordinator/src/copy.rs:47-54 | Indexing one position keeps head and prev those of the context so far |
| CopyWindows.CopyIndex.Choose | crates/mimo26-coordinator/src/copy.rs:59-74 | Following the links finds the best candidate of the naive search |
| Speculate.PlanValid | crates/mimo26-coordinator/src/dforward.rs:1752-1764 | Every way of dealing blocks to lanes is a valid pass |
| Speculate.LanesInOrder | crates/mimo26-coordinator/src/dforward.rs:1765-1843 | The rows of the lanes one after another are the rows in block order |
| Speculate.VerifyBatch | crates/mimo26-coordinator/src/dforward.rs:1734-1843 | The verify pass fails exactly on blocks or lanes outside its limits and then changes nothing; otherwise each row gets the selection the model makes after the history and the block up to that row |
| Speculate.EmittedFollows | crates/mimo26-coordinator/src/dforward.rs:1702-1717 | Whatever was proposed, the accepted prefix and the token after it are what one-token decoding emits, and the rows kept are those of the history |
| Speculate.RolledBack | crates/mimo26-coordinator/src/dforward.rs:1713 | After a verify pass the truncate is possible and leaves the cache standing for the history with the emitted tokens but the last, if and only if the window was kept, which is always the case for a block appended at once |
| Speculate.SpecStep | crates/mimo26-coordinator/src/dforward.rs:1655-1724 | A speculative step over any proposals emits, for every request, exactly the leading proposals that agree with the selections and the selection after them, 1 to k + 1 tokens that one-token decoding emits, and leaves each cache at the history minus its last token exactly when the window was kept; blocks that are not admitted fail and change nothing, beyond that only the truncate of a split block in a window no longer than a block can fail, and a failed step leaves slots that can be given back |
| Speculate.SplitKeeps | crates/mimo26-coordinator/src/dforward.rs:1755-1757 | A condition on the cache before the step under which splitting a block cannot cost the window, whatever is accepted |
| Speculate.SafeExactly | crates/mimo26-coordinator/src/dforward.rs:1755-1757 | That condition is exact: where it fails, some block split in that cache loses the window for some number of proposals accepted |
| Speculate.RisksExactly | crates/mimo26-coordinator/src/dforward.rs:1755-1757 | There is a cache that stands for a history and in which a split block within the budget left can lose the window if and only if the model has a windowed layer, at least 3 tokens are left, and the history and the longest block exceed the rows such a layer is built for |
| Decode.AbsorbedRun | crates/mimo26-coordinator/src/api.rs:1042-1055 | Cutting the tokens of a step at the first end token or at the budget gives the same history as stopping the one-token run there |
| Decode.RunExtends | crates/mimo26-coordinator/src/api.rs:1042-1055 | The one-token run extends its start and never passes the budget |
| Decode.Active.Send | crates/mimo26-coordinator/src/api.rs:1043-1055 | A request takes the tokens of a step up to the first end token, the budget or a gone client, and says whether it ended |
| Decode.Round | crates/mimo26-coordinator/src/api.rs:1023-1063 | One round takes every request further along its own one-token run, ends it exactly at an end token, at its budget or with the token its client does not take, and states exactly when its cache follows; a round that fails sends nothing |
| Decode.RoundStops | crates/mimo26-coordinator/src/dforward.rs:1740-1764 | Blocks of as many requests as the chunk size holds pass the limits in one lane and in two, and their truncates cannot fail, unless the window is no longer than a block and the split of a lone block costs the request its window |
| Decode.OutgrowsExactly | crates/mimo26-coordinator/src/dforward.rs:381-421 | Along a prompt and its whole budget there is a point with such a cache if and only if the model has a windowed layer and they are more tokens than the window and its slack |
| Decode.ServeAll | crates/mimo26-coordinator/src/api.rs:1023-1063 | Requests run to their end in rounds of one verify lane or two, chosen freely in every round: whatever is proposed in any round, the history of each is its one-token-per-step run, cut at the first end token or the budget. The rounds stop before that only at a request left alone, in a round of two lanes, whose block was split in a cache that stood for the history it had then and so lost it the window; what it was sent is still a part of its run, and its prompt and budget are more than the window and its slack, so shorter requests always run to their end |
| Snapshots.CommonIsPrefix | crates/mimo26-coordinator/src/api.rs:448-462 | The common length of two sequences is the largest at which they agree |
| Snapshots.PointsMove | crates/mimo26-coordinator/src/api.rs:448-462 | A point of one history is a point of every history that agrees with it up to the length of the point |
| Snapshots.PointLoads | crates/mimo26-coordinator/src/api.rs:274-278 | Loading a point where its GA rows are never fails and gives the cache a cold prefill of its tokens gives |
| Snapshots.CaptureOk | crates/mimo26-coordinator/src/hostcache.rs:278-374 | Storing a point of a slot to RAM gives a sound snapshot |
| Snapshots.RestoreStands | crates/mimo26-coordinator/src/hostcache.rs:409-438 | A restored RAM snapshot stands for its tokens |
| Snapshots.ReleaseHeals | crates/mimo26-coordinator/src/api.rs:385-392 | Giving back a slot whose windowed layers had come apart makes it uniform again |
| Snapshots.LookupLongest | crates/mimo26-coordinator/src/hostcache.rs:378-393 | The snapshot found is a prefix of the prompt, and no longer one is stored |
| Snapshots.LookupForLongest | crates/mimo26-coordinator/src/hostcache.rs:398-405 | The snapshot found can serve the request, and nothing longer in the tier could |
| DeviceHits.DeviceHit | crates/mimo26-coordinator/src/api.rs:448-461 | The hit is the longest point shared with the prompt, of equals the first at the end of its slot |
| DeviceHits.HitUnique | crates/mimo26-coordinator/src/api.rs:448-461 | That description admits one hit only |
| DeviceHits.DeviceHitFor | crates/mimo26-coordinator/src/api.rs:466-472 | The hit for a request kind: the best hit, or the best shorter one when it cannot give the first token |
| DeviceHits.HitForServes | crates/mimo26-coordinator/src/api.rs:466-472 | An exact resume always serves the request; and the hit is the longest that can serve if and only if not (the best hit is mute while another point of the same length is not) |
| SlotPool.Pool.constructor | crates/mimo26-coordinator/src/api.rs:360-368 | A new pool holds every slot free and is sound |
| SlotPool.Pool.Store | crates/mimo26-coordinator/src/api.rs:376-383 | What RAM holds afterwards: unchanged without a RAM tier, what is known of the next token merged into a snapshot of the same tokens, else the snapshots deleted for room gone and the new one added if there was room; where RAM deletes nothing and has room, all that it had and the point |
| SlotPool.Pool.Release | crates/mimo26-coordinator/src/api.rs:385-392 | Any slot left by a failed forward goes back to the free list clean |
| SlotPool.Pool.EvictLru | crates/mimo26-coordinator/src/api.rs:394-405 | The least recently used retained slot, the first of equals, is freed, and where RAM keeps what it is given all its points are there; nothing else changes |
| SlotPool.Pool.TakeFree | crates/mimo26-coordinator/src/api.rs:407-417 | A clean slot is found exactly when the pool is not empty, and nothing is evicted while a free one is left |
| SlotPool.Pool.MakeRoom | crates/mimo26-coordinator/src/api.rs:419-446 | Slots are evicted, least recently used first, until the request fits and no longer; it fails only when it does not fit with nothing retained; and where RAM keeps what it is given the points of every slot evicted are there |
| SlotPool.Pool.Fork | crates/mimo26-coordinator/src/api.rs:484-585 | A point is forked exactly when the copy fits beside what is retained and is granted; the fork stands for the prefix of the point, and the retained slot only has its use noted |
| SlotPool.Pool.InPlace | crates/mimo26-coordinator/src/api.rs:484-585 | Resuming a slot in place rewinds it to the point and keeps exactly its points up to there; the later ones are in RAM where RAM keeps what it is given; it fails only where memory is refused, and then the slot is moved to RAM with its points, or put back without a RAM tier |
| SlotPool.Pool.HitSound | crates/mimo26-coordinator/src/api.rs:448-480 | Every device hit is a prefix of the prompt, held by the rows of its slot, and at full length knows the first token |
| SlotPool.Pool.StoredServes | crates/mimo26-coordinator/src/api.rs:484-585 | A point put in RAM is found again by any prompt it is a prefix of |
| SlotPool.Pool.Admit | crates/mimo26-coordinator/src/api.rs:484-585 | Whatever happens an admitted slot stands for the prefix of the prompt it resumes at, and an exact resume serves the request kind; a request is refused only when there is no slot or memory was refused with nothing retained; and where no memory is refused and RAM keeps what it is given, the prefix is at least what the device or the RAM tier could give |
| SlotPool.Pool.Retire | crates/mimo26-coordinator/src/api.rs:587-613 | A retired slot is cut back to its history without the last token and stays with its points and one at its end, a point already retained at the same tokens is refreshed instead; a slot that cannot be cut back keeps the points it has; and the pool stays sound |
| SlotPool.Pool.Park | crates/mimo26-coordinator/src/api.rs:615-632 | An abandoned prefill keeps its position as a point |
| SlotPool.Pool.Start | crates/mimo26-coordinator/src/api.rs:707-744 | The prompt end becomes a point unless too short or already one; a request whose first token is its last is retired at once |
| SlotPool.MuteHitHides | crates/mimo26-coordinator/src/api.rs:466-472 | For any sound points: a turn point at the end of its slot hides a prompt point of the same tokens, with a later turn in its slot, from a sampled request, which then gets no hit although that point could serve it |
| SlotPool.MutePool | crates/mimo26-coordinator/src/api.rs:466-472 | A sound pool in which this is so, built by saving and retaining the points of two requests |
| Banks.Scan | crates/mimo26-coordinator/src/api.rs:640-651 | Counts the points of a bank over retained and running slots and finds the least recently used |
| Banks.EvictOldest | crates/mimo26-coordinator/src/api.rs:655-669 | Evicting the least recently used point of a bank takes it and no other from the device, one off its bank and none off the other, also when its slot goes with it; it is in RAM where RAM keeps what it is given |
| Banks.EnforceBanks | crates/mimo26-coordinator/src/api.rs:637-672 | Afterwards each bank holds the lesser of its old count and its limit; every point that left was last used no later than every point of its bank that stayed, and is in RAM where RAM keeps what it is given; running requests keep their slots, and every slot stays in the pool or with its request |
| Lifecycle.RunSelects | crates/mimo26-coordinator/src/api.rs:1023-1063 | Each token of the one-token run is the selection after the tokens before it |
| Lifecycle.RunFrom | crates/mimo26-coordinator/src/api.rs:1042-1055 | The one-token run is its own continuation from any point on it, and stops at the first end token or at the budget and nowhere else |
| Lifecycle.StepKeeps | crates/mimo26-coordinator/src/api.rs:781-1112 | Every step of the scheduler keeps what each request was sent a part of its one-token run, proper while it runs and whole when it ended with its client still there; what is over stays as it is |
| Lifecycle.StepConserves | crates/mimo26-coordinator/src/api.rs:781-1112 | Every step leaves the bag of all requests prefilling, running and over as it was, plus the one it admits |
| Lifecycle.OrderKept | crates/mimo26-coordinator/src/api.rs:693-695 | No step makes a prompt in flight extend one of at least 512 tokens admitted before it, if what it admits extends none in flight |
| Lifecycle.StepWorks | crates/mimo26-coordinator/src/api.rs:781-1112 | Every segment, round, failure and departure leaves strictly less work, and nothing but an admission adds any |
| Lifecycle.RunSound | crates/mimo26-coordinator/src/api.rs:781-1112 | Over every run, what has been sent lies on the one-token runs |
| Lifecycle.RunConserves | crates/mimo26-coordinator/src/api.rs:781-1112 | Over every run, each request admitted is prefilling, running or over, and in one of these places only |
| Lifecycle.RunEnds | crates/mimo26-coordinator/src/api.rs:781-1112 | A run without arrivals takes no more steps than there is work at its start, and one that takes as many ends every request |
| Lifecycle.RunOrdered | crates/mimo26-coordinator/src/api.rs:693-695 | Over every run that defers what extends a prompt in flight, the prompts in flight stay in order |
| Scheduling.Scheduler.PoolStep | crates/mimo26-coordinator/src/api.rs:369-689 | What the pool does with its own slots disturbs no other |
| Scheduling.Scheduler.FirstOf | crates/mimo26-coordinator/src/api.rs:842-846 | The first token taken from a snapshot of the whole prompt, the argmax or, where it can be drawn, a draw from the kept row, is the selection the model makes after the prompt |
| Scheduling.Scheduler.Resume | crates/mimo26-coordinator/src/api.rs:842-857 | A request whose whole prompt was resumed starts with that token, or, exactly where it is sampled and the draw fails, has failed, its slot going back to the pool |
| Scheduling.Scheduler.AdmitJob | crates/mimo26-coordinator/src/api.rs:822-871 | An admitted request joins the prompts at the position it resumes at, or starts with its first token, or fails because that could not be drawn or for want of prefill memory; a refused one changes nothing for the others, and is refused only when every slot is taken or memory was refused, with nothing retained, on a question asked in this call |
| Scheduling.Scheduler.PrefillOne | crates/mimo26-coordinator/src/api.rs:933-1000 | One segment of the prompt at the front: the lesser of the segment and what is left is done and it goes to the back, or it is through and starts decoding, or ends, with the reference first token; it fails exactly when the forward fails or leaves a lane empty, or its first token cannot be drawn, and gives the slot back |
| Scheduling.Scheduler.ParkFront | crates/mimo26-coordinator/src/api.rs:933-938 | An abandoned prompt leaves the line and gives its slot back with its position kept |
| Scheduling.Scheduler.DecodeRound | crates/mimo26-coordinator/src/api.rs:1023-1063 | One round, in one lane or two as given: every running request is sent at least one and at most a block of tokens more of its one-token run, those that end leave exactly where they end, the others stay in order; it fails only when the pass does, its blocks exceed the lanes, or the split block of the one running request cannot be cut back in a window no longer than a block, and then every running request fails with what it had; a split that cost the one running request its window is told with the cache it was in, and then all slots but that one are as they should be |
| Scheduling.Scheduler.CancelAt | crates/mimo26-coordinator/src/api.rs:1008-1018 | A running request whose client has gone is taken out and retired with what it was sent, and the last one takes its place |
| Scheduling.Scheduler.GrowActive | crates/mimo26-coordinator/src/api.rs:674-688 | Where no memory is refused every running slot ends with room for the next rounds; nothing that was sent or is held changes |
| Scheduling.Scheduler.LimitBanks | crates/mimo26-coordinator/src/api.rs:872-873 | Afterwards both banks are within their limit over running and retained slots; nothing a client could see changes |
| Scheduling.Scheduler.Run | crates/mimo26-coordinator/src/api.rs:781-1112 | Over every sequence of arrivals, segments, departures, rounds, cancellations, failures, growth and bank limits: each event does exactly the step named for it, so each request admitted is prefilling, running or over, the refused ones are named with the questions on which memory was refused, everything sent lies on the one-token run from a cold start, and each slot is in exactly one of free, retained, prefilling and running. The run stops early only at a two-lane round of one running request whose split block lost it the window in a cache that stood for its history, and never while every request fits the window and its slack |
| Intake.Loop.Offer | crates/mimo26-coordinator/src/api.rs:805-838 | The fate of a request in hand: lost if its client has gone, else deferred if it extends a prompt in flight, else admitted, else, memory having been refused on a question of this turn, stalled while others hold any and lost if nobody does |
| Intake.Loop.Pass | crates/mimo26-coordinator/src/api.rs:784-873 | A pass is turns until every slot is taken, a request waits for memory, or nobody is next; the queue is waited on only when nothing at all is held |
| Intake.Loop.Run | crates/mimo26-coordinator/src/api.rs:781-1112 | Over every sequence of requests coming, passes and everything that happens to the scheduler: each does exactly the moves named for it, and each request that came is waiting, deferred, stalled, prefilling, running, over or lost, and in one of these places only. The run stops early only at a round of the scheduler that does, and never while every request fits the window and its slack |
| Intake.MoveConserves | crates/mimo26-coordinator/src/api.rs:781-1112 | A move of the loop brings at most the request that arrives and loses or doubles none |
| Intake.RunAccounts | crates/mimo26-coordinator/src/api.rs:781-1112 | So does every run |
| Intake.RunInOrder | crates/mimo26-coordinator/src/api.rs:693-695 | Over every run no prompt in flight extends one of at least 512 tokens admitted before it, and what was sent lies on the one-token runs |
| Intake.RunLoses | crates/mimo26-coordinator/src/api.rs:822-838 | Over every run, a request is lost only at its own turn, and only if its client had gone by then or memory was refused on a question of that turn while no other request was held |
| Intake.RunSpares | crates/mimo26-coordinator/src/api.rs:822-838 | Where memory is never refused, no request stalls and the only requests lost are those whose clients had gone |
| Intake.TurnWorks | crates/mimo26-coordinator/src/api.rs:784-873 | A turn that stalls nobody leaves less for the pass to look at, so a pass ends |
| Intake.Loop.Turn | crates/mimo26-coordinator/src/api.rs:784-804 | Who is next: the stalled request, else the first deferred one that is ready, else the oldest waiting; and that request meets its fate |
| RequestQueue.StepInv | crates/mimo26-coordinator/src/api.rs:1229-1260 | Every step of any caller keeps: queued equals the places held and is at most the depth, waiters equals the callers waiting and is at most the depth, and no free place is forgotten while someone sleeps |
| RequestQueue.RunInv | crates/mimo26-coordinator/src/api.rs:1229-1260 | So does every interleaving; no counter goes below zero |
| RequestQueue.FreshRun | crates/mimo26-coordinator/src/api.rs:1229-1260 | From an empty queue of any depth |
| RequestQueue.NoLostWake | crates/mimo26-coordinator/src/api.rs:1256-1259 | While a place is free and a caller sleeps, some caller can still look at it or wake a sleeper |
| RequestQueue.ReturnsOnce | crates/mimo26-coordinator/src/api.rs:1256-1259 | Each place is given back at most once, by a caller that held it; who was turned away stays so |
| RequestQueue.RefusedWhenFull | crates/mimo26-coordinator/src/api.rs:1235-1253 | A caller is turned away only at a moment when every place is held, on arriving or after its deadline; one that wakes to a free place takes it even past its deadline |
| Softmax.Partial.Fold | crates/mimo26-attn/src/attn.rs:243-266 | After any folds the sums times e(max) are the exact sums of e(score) and of e(score) times value, at the exact maximum |
| Softmax.FoldedAt | crates/mimo26-attn/src/attn.rs:243-266 | Rescaling a sum to a new maximum and adding a row keeps it exact |
| Softmax.FoldRange | crates/mimo26-attn/src/attn.rs:270-310 | Folding a range of rows adds exactly its visible rows |
| Softmax.MergedAt | crates/mimo26-attn/src/attn.rs:314-366 | Moving the sum of a part to the common maximum keeps it exact |
| Softmax.ReducePartials | crates/mimo26-attn/src/attn.rs:314-366 | Any number of parts, some without a visible row, reduce to the sums of all their rows with the sink in the denominator once |
| Softmax.MeanIs | crates/mimo26-attn/src/attn.rs:314-366 | Numerator over denominator is the weighted mean at whatever maximum they are kept, and zero when no row is visible |
| Softmax.Attention | crates/mimo26-attn/src/attn.rs:124-220 | The two-pass form is the weighted mean over the visible rows, the sink taking weight and giving nothing, and the zero row when none is visible |
| Softmax.SplitKv | crates/mimo26-attn/src/attn.rs:381-433 | For every split count the result equals the two-pass form over the whole history |
| Softmax.Chunked | crates/mimo26-attn/src/attn.rs:439-489 | So it does for every chunk size |
| Ring.NeverTrims | crates/mimo26-attn/src/cache.rs:319-330 | With strictly increasing positions the length limit never drops a row the window keeps, and at most window - 1 rows and the batch remain |
| Ring.TrimLoses | crates/mimo26-attn/src/cache.rs:319-330 | With positions that may repeat, which the store accepts, a row still in the window is dropped if and only if more than window + batch rows are |
| Ring.RepeatedPositions | crates/mimo26-attn/src/cache.rs:319-330 | Three rows at one position in a window of one lose a visible row |
| Ring.AppendKeepsWindow | crates/mimo26-attn/src/cache.rs:279-315 | An append leaves exactly the history from the window of the first query of the batch on |
| Ring.RunKeepsWindow | oracle/mimo26/kv.py:56-91 | Over any run of batches with strictly increasing positions the ring is exactly that suffix of the history, at most window - 1 rows and the batch |
| Ring.RingAttends | crates/mimo26-attn/src/cache.rs:279-336 | Attention of a query of the batch or any later one over the ring equals attention over the whole history |
| Ring.LowerBound | crates/mimo26-attn/src/cache.rs:338-349 | Bisection finds the number of rows before a position where rows are sorted |
| Ring.BisectIsBelow | crates/mimo26-attn/src/cache.rs:338-349 | On sorted rows where bisection ends is the number of rows before the position |
| Ring.SwaRing.Append | crates/mimo26-attn/src/cache.rs:279-315 | For any batch: refuses one that starts before the last row and then changes nothing; otherwise the rows are those of the eviction rule, and stay sorted if the rows and the batch were |
| Ring.Drops | crates/mimo26-attn/src/cache.rs:319-330 | Both stores drop the greater of what lies before the window and what exceeds the length limit |
| Ring.Buffer.Append | oracle/mimo26/kv.py:56-91 | For any batch, the growing buffer with in-place eviction holds the same rows |
| Ring.Buffer.Grow | oracle/mimo26/kv.py:47-54 | Doubling keeps the contents and ends with room enough |
| Ring.Buffer.ShiftDown | oracle/mimo26/kv.py:85-90 | Shifting the kept rows to the front in place loses none of them |
| Paged.GaPaged.Append | crates/mimo26-attn/src/cache.rs:422-446 | For any append sizes and page size the store holds all rows appended, scaled, in order |
| Paged.GaPaged.RowsRange | crates/mimo26-attn/src/cache.rs:449-466 | Reading a range through the page table is the slice of all rows appended |
| Paged.GaPaged.PageRowsOf | crates/mimo26-attn/src/cache.rs:469-475 | A page read on its own is its slice |
| Paged.InPage | crates/mimo26-attn/src/cache.rs:449-466 | Rows within one page lie where the page table says |
| Paged.FillPage | crates/mimo26-attn/src/cache.rs:422-446 | Rows added to the last page disturb no other |
| Paged.AttentionPaged | crates/mimo26-attn/src/attn.rs:499-566 | Equals two-pass attention over all rows for every number of pages per chunk and any positions; fails exactly when there is not one position per row |
| Streaming.HeldSuffix | crates/mimo26-api/src/chat.rs:342-353 | What is held back is the longest end of the text that may still become one of the tags, and nothing longer may |
| Streaming.NoneUnheld | crates/mimo26-api/src/chat.rs:263-321 | Where what is left is neither a tag nor the start of one, no tag starts in any continuation |
| Streaming.StreamSplit.Push | crates/mimo26-api/src/chat.rs:263-321 | After every delta, whatever the text goes on to be, what was sent and what the rest will yield is the scan of the whole |
| Streaming.StreamSplit.Finish | crates/mimo26-api/src/chat.rs:323-338 | At the end everything sent is the scan of the whole completion |
| Streaming.Stream | crates/mimo26-api/src/chat.rs:251-353 | Every way of cutting a completion into deltas sends the same content, reasoning and block count, and no content delta holds a complete opening tag |
| ParserLoops.StreamedIsParsed | crates/mimo26-api/src/chat.rs:360-405 | What is streamed is exactly what the parser makes of the text before the first top-level tool call: its content and its reasoning |
| ParserLoops.StreamedAll | crates/mimo26-api/src/chat.rs:401-420 | Unless the cursor reaches a call with a stray <, and with no parse error, the streamed content begins the content of the parser, and the streamed reasoning followed by the blocks after those already streamed is all the reasoning of the parser |
| ParserLoops.BeforeParsed | crates/mimo26-api/src/parser.rs:62-105 | The text before the first tool call parses to the content and the blocks of the scan, with no call, report or error |
| ParserLoops.ParseLoop | crates/mimo26-api/src/parser.rs:62-105 | The cursor loop computes the recursive parse, and does not end exactly on the completions on which the cursor reaches a call with a stray < |
| ParserLoops.ReadCallLoop | crates/mimo26-api/src/parser.rs:109-200 | So does the loop over one call |
| ParserLoops.ReadParamsLoop | crates/mimo26-api/src/parser.rs:140-189 | So does the loop over the parameters |
| ToolCalls.HangsExactly | crates/mimo26-api/src/parser.rs:180-188 | The parameter scan never ends if and only if it reaches text starting with a < that begins none of its tags |
| ToolCalls.CompletionHangs | crates/mimo26-api/src/parser.rs:62-200 | Parsing a completion never ends if and only if the cursor reaches, within the cap on calls, a call the scan of whose parameters reaches such text |
| ToolCalls.StrayHangs | crates/mimo26-api/src/parser.rs:180-188 | A completion on which it never ends |
| ToolCalls.StringComesBack | crates/mimo26-api/src/parser.rs:204-228 | A string without a schema comes back if and only if it neither starts nor ends with a newline and is not JSON |
| ToolCalls.ValueComesBack | crates/mimo26-coordinator/src/chat.rs:167-173 | Any other value comes back from the JSON the template writes |
| ToolCalls.ParamsBack | crates/mimo26-coordinator/src/chat.rs:175-189 | Rendered parameters are read back in order with no report |
| ToolCalls.CallBack | crates/mimo26-coordinator/src/chat.rs:175-189 | A rendered call is read back as itself whatever follows it |
| ToolCalls.RenderedCalls | crates/mimo26-coordinator/src/chat.rs:175-189 | Parsing the rendering of any list of such calls gives the calls in order, with no content, report or error |
| ToolCalls.ClosingTagTruncates | crates/mimo26-api/src/parser.rs:164-178 | A string holding the closing parameter tag never comes back |
| Json.RoundTrip | crates/mimo26-api/src/json.rs:60-332 | Every value with whole numbers below 9e15 and arbitrary strings is read back from what the API writes and from what the template writes |
| Json.ValueBack | crates/mimo26-api/src/json.rs:279-332 | It is read back whatever follows it, in either style |
| Json.CharsBack | crates/mimo26-api/src/json.rs:316-332 | Arbitrary characters are read back from their escapes |
| Json.NumberBack | crates/mimo26-api/src/json.rs:245-268 | Whole numbers are read back up to where they end |
| Json.PairBack | crates/mimo26-api/src/json.rs:216-234 | Every supplementary code point written as an escaped surrogate pair is read as itself |
| Json.HalvesRejected | crates/mimo26-api/src/json.rs:216-234 | An escape is rejected if and only if it is a low half, or a high half without a low half next |
| JsonReader.Reader.ReadAll | crates/mimo26-api/src/json.rs:60-72 | The cursor parser computes the grammar on every text, errors included |
| JsonReader.Reader.ReadValue | crates/mimo26-api/src/json.rs:97-108 | One value from the cursor on |
| JsonReader.Reader.ReadString | crates/mimo26-api/src/json.rs:169-214 | One string from the cursor on, with every escape |
| JsonReader.Reader.ReadNumber | crates/mimo26-api/src/json.rs:245-268 | One number from the cursor on |
| JsonReader.Reader.ReadArray | crates/mimo26-api/src/json.rs:148-167 | An array, item by item |
| JsonReader.Reader.ReadObject | crates/mimo26-api/src/json.rs:118-146 | An object, pair by pair in order |
| JsonReader.Writer.Put | crates/mimo26-coordinator/src/chat.rs:113-148 | Pushing onto the output writes what the printer function says |
| JsonReader.Writer.PutString | crates/mimo26-api/src/json.rs:316-332 | So for strings |
| Quantizer.ScaleIsLeast | oracle/lattice/quant_v1.py:31-34 | The scale exponent is the least k with a <= 448 * 2^k |
| Quantizer.ScaleUnique | oracle/lattice/quant_v1.py:31-34 | No other integer is |
| Quantizer.ScaleByteRange | oracle/lattice/quant_v1.py:22-34 | Scale bytes lie in 105..247 |
| Quantizer.MagOrder | oracle/lattice/quant_v1.py:37-45 | Codes decode in increasing order |
| Quantizer.SaturatesAt | oracle/lattice/quant_v1.py:67-69 | The clamp is taken exactly above 464, the tie between 448 and the next step |
| Quantizer.Nearest | oracle/lattice/quant_v1.py:48-71 | The code is a nearest grid value, the even code of two nearest ones, and never a not-a-number code |
| Quantizer.ExactOnGrid | oracle/lattice/quant_v1.py:48-71 | A grid value is encoded as its own code |
| Quantizer.ErrorBound | oracle/lattice/quant_v1.py:48-71 | The error is at most a sixteenth of the magnitude or 2^-10 |
| Quantizer.ScaledFits | oracle/lattice/quant_v1.py:82-86 | In its block every value scales into the grid, so the clamp is unreachable |
| Quantizer.BlockError | oracle/lattice/quant_v1.py:74-100 | A value through the quantizer and back keeps its sign and is off by at most max(abs(h)/16, 2^(k-10)) |
| Quantizer.ScaleDropsAtMostOne | oracle/lattice/quant_v1.py:74-100 | The scale of a rebuilt block is that of the block or one less |
| Quantizer.Idempotent | oracle/lattice/quant_v1.py:74-100 | Quantizing a non-faulting reconstruction again reproduces it exactly, also when the scale drops |

## Left out

- Scheduling.Scheduler.Run: what a slot that has lost its window answers afterwards is not modelled; the run stops there, as do `Decode.ServeAll` and `Intake.Loop.Run`.
- Scheduling.Scheduler.Run: a forward that fails leaves any rows in the slots it was given and nothing in the exchange; what a broken connection leaves there is not modelled.
- Prefill.Forward: a cache is one value per layer, so the copies between device buffers and their error returns are not there.
- JsonReader.Reader.ReadAll: characters, not bytes, so invalid UTF-8 and its errors are not modelled.
- Json.RoundTrip: fractional numbers and exponents are read but not printed, as their printing depends on float formatting.
- ToolCalls.RenderedCalls: without a schema; the schema-directed part of `coerce` would only add single-body cases.
- Quantizer.BlockError: blocks of finite values; the fault on a value that is not finite and the check of the scale byte on decoding are not modelled, nor is the torch variant.
- VerifyLengths.VerifyLengths: for prices above zero and probabilities that are numbers, clamped as the code does; a zero price per row and NaN are not modelled.
- CopyWindows.CopyIndex.Propose: tokens are not cut to 32 bits.
- Ring.SwaRing.Append, Paged.GaPaged.Append: rows are reals with the value scale applied; the encoded 8-bit store modes are not modelled.
- Several heads: the attention members are one head; the loops over heads repeat them.
- `prefill_batch` and `decode_batch` are passes of `Lanes.RunPass` with other segments and are not written out.
- Draft model, its rings and noise, the image overlay, vision, sampling numerics, the vocabulary check.
- Time: segment sizing, budgets and deadlines are free choices of the caller; a deadline is a flag on a step.
- Device memory: whether a slot to be grown fits, and whether an allocation succeeds, are answers to numbered questions (`SlotPool.World`); any answers are covered.
- The RAM tier holds exact snapshots and deletes which it likes of them to make room; its own choice, its pages and hashes are not modelled.
- CUDA, RDMA, HTTP framing, SSE formatting, environment variables, logging, bug-oracle switches.
