# Bounded KV caches and their benchmark harness

A Dafny model of the bounded key/value caches of the Gemma experiments and of the harness that
measures them, with proofs of what they promise over whole runs.

Four cache layers read the same unbounded token stream in arbitrary chunks and keep a bounded
summary: `SinkRingLayer` (sink and ring), `BankedRingLayer` (segments that merge),
`RoutedBankLayer` (clusters of tokens with streaming top-k) and `RoutedSpanLayer` (whole spans with
farthest-point retention). Every layer is a class with the fields of the source; its `Update` is
proved equal to a step function of state, chunk and decision log, and the run properties are proved
about that function. A ghost history ties each state to all tokens ever seen.

| files | subject |
|---|---|
| `Lists`, `Tokens`, `Eviction`, `OpLog`, `TopK`, `Features` | shared vocabulary: exact means, the sink/pending/ring bookkeeping, the shared decision log, top-k |
| `SinkRing` | the sink and ring layer and its mask |
| `BankSpec`, `BankedRing` | the banked layer |
| `Routed`, `RoutedBankSpec`, `RoutedBank` | the routed layer; `Routed` is shared with spans |
| `SpanSplit`, `SpanRetention`, `RoutedSpanSpec`, `SpanBounds`, `SpanLeader`, `SpanMean`, `RoutedSpan` | the span layer |
| `PaddedBatch` | padded batch decoding |
| `StaticRing`, `GraphWarmup`, `StaticParity`, `NativeGraph` | fixed buffers, warm-up and capture, static against dynamic tokens, the native graph check |
| `Bytes`, `SseBuffer`, `StreamReassembly` | the stream client |
| `Fingerprint` | canonical encodings behind the fingerprints |
| `SubmissionOrder` | request order and histories |

Modelling choices. A token is a pair of real vectors; only the sequence dimension of the tensors is
kept. Means are exact reals. Cosines, unit vectors, the network, JSON decoding and the hash are
function parameters, so the theorems hold for all of them. `topk` is specified by what it selects,
with any tie-break. A run of the shared log is leader first, as the model executes its layers.

Where the code does less, or other, than its comments and names promise, the model follows the code:

- A captured step runs the host code of `update` once, so the constructor of `GraphedStep` leaves every
  `cumulative_length` one too high, although its comment says that capture leaves the cache untouched.
  Buffers and pointers are exact (`GraphWarmup.GraphedStep.constructor`). The native checker restores
  after capture and is exact in its counters too.
- `SinkRingLayer` keeps the promised contents exactly when `window >= 1` or the sink has not overflowed
  (`SinkRing.ChunkingIsInvisible`); static buffers match it under the same condition from the second
  step on (`StaticRing.SameVisibleSet`).
- Greedy retention can select a span twice exactly when `dup_floor <= -1`
  (`SpanRetention.NeverTwiceIffFloor`); the span layer is modelled with `dup_floor > -1`.
- The running mean of RoutedSpanLayer takes in the whole tail at every fold, so tokens that stay pending are
  taken in again by the next one. It counts every evicted token once exactly when every tail ended at a break
  or held none (`RoutedSpan.MeanCountsOnceIff`, one fold later `RoutedSpan.MeanAfterFold`);
  `RoutedSpan.TailCountedTwice` is a run where it does not. RoutedBankLayer routes its whole tail, and its mean is
  exact (`RoutedBank.MeanStep`).
- The first routing decision of RoutedBankLayer stops on an assertion when it finds fewer tokens than slots. No
  stream and no cut makes it do so exactly when `route_chunk >= m_slots` (`RoutedBank.NeverTripsIff`), and
  `RoutedBank.RunAlone` says on which ones it does.
- `to_static_cache` converts in place and refuses at the first layer below capacity, with the layers before it
  already converted (`GraphWarmup.ToStaticCache`).
- Static rings emit the tokens of the dynamic layers on every cache at capacity exactly when no layer is a
  SinkRingLayer with an empty window, or one step is taken (`StaticParity.StaticEqualsDynamicIff`).
- The sliding layer of a static clone shows what the native layer returns exactly when the window holds more
  than one token, or in the first step: the slice of the native layer keeps everything at a window of one
  (`NativeGraph.SlidingCloneMatchesIff`).
- An error in the event stream costs the events that the same chunk had completed before it. A cut of a stream
  can lose events exactly when some chunk closes an event, after its first, with a payload not seen before
  (`SseBuffer.EventsCanBeLostIff`; `SseBuffer.OneChunkLoses` is such a loss). The one caller iterates the response
  line by line, and so never loses any (`SseBuffer.LinesLoseNothing`).
- A stream whose deciding event has no right count can be misread; the exact condition is
  `StreamReassembly.ReconstructsIff`, and the closing check always notices when the last count is right.

## Model

| member | source | states |
|---|---|---|
| Tokens.AbsorbIsMean | experiments/gemma_recurrent_poc.py:421-424 | after a block joins a running mean, count times mean is again the exact sum of all tokens seen, in every coordinate of key and value |
| Tokens.MergeIsMean | experiments/gemma_recurrent_poc.py:249-252 | the count-weighted mean of two means is the mean of the two token runs together |
| Eviction.AdmitTokens | experiments/gemma_recurrent_poc.py:287-301 | sink, pending and ring written one after another, as the layers do, equal the one-step admission function |
| Eviction.AdmitHolds | experiments/gemma_recurrent_poc.py:287-301 | for every history and chunk: sink, pending and ring stay exactly the first tokens, the tokens between, and the last tokens of the whole history |
| Eviction.AdmitAppends | experiments/gemma_recurrent_poc.py:485-498 | admission loses and reorders nothing: read in order, the buffers just grow by the chunk |
| Eviction.ReleaseHolds | experiments/gemma_recurrent_poc.py:206-209 | taking the oldest pending tokens keeps the buffers in place, and those tokens are the next unfolded ones of the history |
| SinkRing.SinkRingLayer.Update | experiments/gemma_recurrent_poc.py:101-123 | one update returns everything stored plus the chunk, and its state is that of a run over the recorded chunks |
| SinkRing.SinkRingLayer.GetMaskSizes | experiments/gemma_recurrent_poc.py:125-129 | the mask is as wide as what the next update returns, its positions end with the last query, and it shows each query exactly the entries whose true position is not after it, for every window |
| SinkRing.RunIsEnds | experiments/gemma_recurrent_poc.py:101-119 | with a window of at least one, any run stores the first `sink` and last `window` tokens of its history, or all of it below capacity |
| SinkRing.ChunkingIsInvisible | experiments/gemma_recurrent_poc.py:113-117 | any cut of any history leaves the promised contents if and only if the window is not empty or the sink has not overflowed (the slice `[-0:]` keeps everything) |
| SinkRing.MaskIsExact | experiments/gemma_recurrent_poc.py:125-129 | for every run, window, query and entry: the returned entry is the token at its true position, and the causal mask over contiguous positions admits it exactly when that position is not after the query |
| SinkRing.StoredPositions | experiments/gemma_recurrent_poc.py:101-119 | with a window of at least one the true positions of the stored entries are the two ends of the stream |
| TopK.TopKIndices | experiments/gemma_recurrent_poc.py:405 | the kept indices are increasing, `min(k, n)` many, and nothing left out beats anything kept |
| TopK.StreamingStep | experiments/gemma_recurrent_poc.py:403-407 | selecting the best of the survivors and the new scores is selecting the best of all scores ever seen |
| TopK.TopKUnique | experiments/gemma_recurrent_poc.py:405 | any two selections of the k best, however ties break, hold the same scores as multisets |
| BankedRing.ChooseRepresentatives | experiments/gemma_recurrent_poc.py:212-217 | the kept tokens of a segment are the `reps - 1` whose keys are least similar to its mean key |
| BankedRing.ChooseMerge | experiments/gemma_recurrent_poc.py:229-246 | the merged pair is the first most similar adjacent one, and the kept tokens are those of its pool least similar to the merged mean |
| BankedRing.FoldSegment | experiments/gemma_recurrent_poc.py:206-224 | leader and follower alike make the bank the fold step of the log; the leader never fails and appends the most novel tokens as its choice, a follower leaves the log alone |
| BankedRing.MergeOnce | experiments/gemma_recurrent_poc.py:226-262 | the same for one merge, where the choice is the first most similar adjacent pair and the most novel tokens of its pool |
| BankedRing.FoldAll | experiments/gemma_recurrent_poc.py:302-303 | the fold loop ends and is as many fold steps as whole segments are pending; at a deciding layer every one of them logged the most novel tokens of the segment it found |
| BankedRing.MergeAll | experiments/gemma_recurrent_poc.py:304-305 | the merge loop ends and is as many merge steps as segments exceed `k_states`; at a deciding layer every one of them logged the most similar pair of the segments it found |
| BankedRing.BankedRingLayer.Update | experiments/gemma_recurrent_poc.py:278-307 | one update is `Step` on the resulting log; it returns what was stored plus the chunk and keeps every segment exact; a deciding layer always succeeds, and all it logged are the choices of its folds and merges, each on the bank as it then was |
| BankedRing.StoredKeys | experiments/gemma_recurrent_poc.py:264-273 | after any run the stored keys are the first tokens of the history, every segment as the mean of its span and its kept tokens, and the last tokens; the segments tile the folded tokens; before the first fold the keys are the history |
| BankSpec.FoldOneSound | experiments/gemma_recurrent_poc.py:206-224 | a fold keeps the segments tiling and exact: count, mean of its span, representatives with their positions |
| BankSpec.MergeSound | experiments/gemma_recurrent_poc.py:226-262 | a merge keeps the segments tiling and exact, representatives strictly increasing inside the joined span |
| BankSpec.FillsIsQuotient | experiments/gemma_recurrent_poc.py:302-303 | the number of folds is the integer quotient of the pending length by `seg` |
| BankSpec.StepSound | experiments/gemma_recurrent_poc.py:278-307 | every update keeps: segments tile the folded span, n times mean is the exact sum, segment count is `min(k_states, folded / seg)`, pending is short of a segment |
| BankSpec.LengthsIgnoreChunking | experiments/gemma_recurrent_poc.py:278-307 | two runs over equally long streams agree on folded tokens, segment count and all buffer lengths however the streams were cut |
| BankSpec.FlatMemory | experiments/gemma_recurrent_poc.py:264-273 | the materialised length has a bound that no history length enters |
| BankSpec.Layout | experiments/gemma_recurrent_poc.py:264-273 | in every reachable state each stored key is the history token of its position or the exact mean of the span of its segment; every segment has its mean, and the length is exactly sink + the sum of 1 + kept tokens + pending + ring |
| BankSpec.ReplayAgrees | experiments/gemma_recurrent_poc.py:186-196 | a layer in the structure of the leader that replays the log never faults and ends in the structure of the leader, with its own keys and values |
| BankedRing.BuildCache | experiments/gemma_recurrent_poc.py:790-817 | fresh layers on one fresh log, the first the leader, are in step |
| BankedRing.ForwardChunk | experiments/gemma_recurrent_poc.py:186-196 | one forward pass leader first: no follower reads past the log or finds an op of the wrong kind, and all cursors and structures agree again |
| BankedRing.ForwardAll | experiments/gemma_recurrent_poc.py:186-196 | the same for any number of passes; each layer has seen exactly its own stream |
| Routed.MembersGrow | experiments/gemma_recurrent_poc.py:417-420 | the tokens routed to a slot after a fold are those before and those of the chunk with its label |
| Routed.Conservation | experiments/gemma_recurrent_poc.py:410-424 | sink, slot counts, pending and ring add up to the tokens seen; slot counts add up to the evicted tokens; count times mean is the exact sum per slot |
| Routed.LayoutIndexes | experiments/gemma_recurrent_poc.py:443-456 | the layout is as long as the stored keys, and each entry tells what its key is: the token at that absolute position, or the mean of exactly the tokens routed to that slot |
| Routed.ExactPositionsDistinct | experiments/gemma_recurrent_poc.py:443-456 | no absolute position occurs twice in the layout, and positions increase within a slot |
| Routed.FoldFreeUpdateAppends | experiments/gemma_recurrent_poc.py:485-498 | an update that does not fold appends its chunk to the materialised keys and changes nothing else |
| Routed.ExactBeforeFirstFold | experiments/gemma_recurrent_poc.py:458-469 | until the first fold the stored keys are the whole history |
| Routed.ChunksGrow | experiments/gemma_recurrent_poc.py:413-416 | the traced chunks stay contiguous and cover exactly the evicted positions |
| Routed.FindAssignment | experiments/gemma_recurrent_poc.py:435-441 | the slot recorded for a position, total on the evicted positions and nothing elsewhere |
| Features.FarthestPoint | experiments/gemma_recurrent_poc.py:385-393 | each chosen centre is one of the features, and its largest similarity to a centre before it is the least that any feature has |
| Features.DistanceIsHalfGap | experiments/gemma_recurrent_poc.py:642-650 | of unit features, one minus the cosine is half the squared Euclidean distance |
| RoutedBank.RouteFeatures | experiments/gemma_recurrent_poc.py:384-399 | old or farthest-point centroids attract the features; each that attracts some then moves, in every coordinate, by the same share 1 - momentum of the way to their exact mean, and distances are taken to the moved ones |
| RoutedBank.CentroidOverRun | experiments/gemma_recurrent_poc.py:384-398 | over any run the centroid of a slot is momentum to the n-th power times its farthest-point start plus the geometrically weighted exact means of the features it attracted, one for each of the n decisions that gave it a token |
| RoutedBank.KeepDistant | experiments/gemma_recurrent_poc.py:399-407 | per touched slot the kept indices are the `reps` most distant of old and new candidates |
| RoutedBank.RouteDecisions | experiments/gemma_recurrent_poc.py:371-408 | the whole decision: features (the value, the key, or the key less the mean that includes the chunk), routing, distances to the moved centroids, kept indices and scores |
| RoutedBank.MeanStep | experiments/gemma_recurrent_poc.py:375-381 | with the residual route the running mean, once it has taken in the pending tokens, is the exact mean of all tokens evicted so far and these |
| RoutedBank.ApplyRoute | experiments/gemma_recurrent_poc.py:410-433 | applying a decision slot after slot is the fold function |
| RoutedBank.FoldFull | experiments/gemma_recurrent_poc.py:499-507 | at a full chunk a leader, unless its first decision finds too few tokens, logs and records exactly one decision, the one the code takes on these tokens; scores and kept positions stay the top ones by the recorded distances; a follower replays |
| RoutedBank.LeadStep | experiments/gemma_recurrent_poc.py:399-408 | a decision keeps the record complete from the first decision on, each on exactly its tokens of the history, and scores, positions and running mean consistent with it |
| RoutedBankSpec.RouteFoldSound | experiments/gemma_recurrent_poc.py:410-433 | a fold keeps every slot exact: count, mean, and representatives at their true positions |
| RoutedBankSpec.StepSound | experiments/gemma_recurrent_poc.py:475-509 | so does every update, whoever decided |
| RoutedBankSpec.FlatMemory | experiments/gemma_recurrent_poc.py:458-469 | the materialised length has a bound that no history length enters |
| RoutedBankSpec.ReplayAgrees | experiments/gemma_recurrent_poc.py:410-433 | replaying the log gives the structure of the leader: counts, kept positions, labels, lengths |
| RoutedBankSpec.TopSlotStep | experiments/gemma_recurrent_poc.py:401-433 | keep-indices that select the best scores at the leader select the aligned positions and tokens; kept scores and positions stay index by index in line |
| RoutedBankSpec.StreamingIsOffline | experiments/gemma_recurrent_poc.py:399-408 | if scores and positions of a slot are a top selection of all scores, they equal any other offline selection as multisets |
| RoutedBank.TopOfEverything | experiments/gemma_recurrent_poc.py:399-408 | on every reachable state of a deciding layer, in every slot: the kept scores are, as a multiset, those of any offline top-`reps` selection from the recorded distances of all tokens ever routed there |
| RoutedBank.RunAlone | experiments/gemma_recurrent_poc.py:475-509 | a fresh layer fed any chunks fails exactly when the stream, cut like this, makes its first decision find fewer tokens than slots; else it holds in every slot the top of the recorded distances, with its record anchored to exactly that stream |
| RoutedBank.NeverTripsIff | experiments/gemma_recurrent_poc.py:385-386 | no stream and no cut trips the assertion of the first decision if and only if `route_chunk >= m_slots` |
| RoutedBank.FollowersKeepTheTop | experiments/gemma_recurrent_poc.py:410-433 | after any run each follower holds, slot by slot, the positions of a top-`reps` selection by the distances of the leader, and at them its own tokens |
| RoutedBank.RoutedBankLayer.SlotLayout | experiments/gemma_recurrent_poc.py:443-456 | on every reachable state the layout indexes the stored keys |
| RoutedBank.RoutedBankLayer.AssignmentOf | experiments/gemma_recurrent_poc.py:435-441 | the recorded slot of exactly the evicted positions |
| RoutedBank.RoutedBankLayer.Update | experiments/gemma_recurrent_poc.py:475-509 | one update is `Step` on the resulting log; a deciding layer fails exactly on a first decision over fewer tokens than slots, else its log and its record grow by the one decision the code takes on the admitted tail; a follower succeeds exactly when the log holds its op |
| RoutedBank.BuildCache | experiments/gemma_recurrent_poc.py:790-817 | fresh layers on one fresh log are in step |
| RoutedBank.ForwardChunk | experiments/gemma_recurrent_poc.py:186-196 | a pass fails exactly where the first decision of the leader does; no follower faults and all layers agree again |
| RoutedBank.ForwardAll | experiments/gemma_recurrent_poc.py:186-196 | the same for any number of passes once the leader is past its first decision, or from the start when `route_chunk >= m_slots` |
| SpanSplit.FindBreaks | experiments/gemma_recurrent_poc.py:569-577 | the break list holds exactly the breaks: mask inside the mask, every `fallback_span` offset past it |
| SpanSplit.SplitSpans | experiments/gemma_recurrent_poc.py:566-591 | spans are non-empty and tile the routed part; every break ends a span and none lies strictly inside one; in a chunk with a break every span that does not end at one is exactly `max_span` long and none is longer; in a chunk without one, all spans before the last are `fallback_span` long |
| SpanSplit.SplitIsUnique | experiments/gemma_recurrent_poc.py:566-591 | position, length and breaks of a chunk determine the split: no other spans and no other routed length meet these conditions |
| SpanSplit.SentenceStaysWhole | experiments/gemma_recurrent_poc.py:580-591 | what lies between two neighbouring breaks, or before the first, is one span if and only if it is no longer than `max_span` |
| SpanSplit.TailIsQuiet | experiments/gemma_recurrent_poc.py:582-591 | what stays pending has no masked break, and past the mask is shorter than one fallback span |
| SpanSplit.QuietPrefixIsRouted | experiments/gemma_recurrent_poc.py:582-591 | a quiet prefix is always consumed, so the new tail is shorter than what came after it or than a fallback span |
| SpanRetention.Greedy | experiments/gemma_recurrent_poc.py:647-659 | the loop ends; its selection starts with the span farthest from the mean direction, continues with the farthest from those chosen, and stopped for one of the three reasons of the code |
| SpanRetention.SelectionIsApart | experiments/gemma_recurrent_poc.py:651-659 | no candidate twice, and every two selected spans at least `dup_floor` apart |
| SpanRetention.NeverTwiceIffFloor | experiments/gemma_recurrent_poc.py:652-656 | selecting a candidate twice is impossible for all inputs if and only if `dup_floor > -1`, because selected candidates are masked with -1 |
| SpanRetention.WithinBudget | experiments/gemma_recurrent_poc.py:649-659 | the budget is exceeded by a single first span only |
| SpanRetention.StopReasons | experiments/gemma_recurrent_poc.py:651-656 | it stops only when the budget is used, the farthest candidate does not fit, or all others are within `dup_floor` of a kept one |
| SpanLeader.SpanFeatures | experiments/gemma_recurrent_poc.py:593-608 | the feature of a span is the unit value of its token least similar to the mean |
| SpanLeader.AssignOne | experiments/gemma_recurrent_poc.py:628-638 | a span joins its nearest open slot, whose centroid moves by the share 1 - momentum of the way to its feature, or opens a slot when it is novel and one is left; no other centroid moves |
| SpanLeader.AssignSpans | experiments/gemma_recurrent_poc.py:627-638 | the spans one after another |
| SpanLeader.CentroidsDrift | experiments/gemma_recurrent_poc.py:627-638 | the centroid of an open slot ends at momentum to the n-th power times where it was plus the geometrically weighted features of the n spans it got |
| SpanLeader.OpenSlots | experiments/gemma_recurrent_poc.py:615-626 | first decision: farthest-point centres over at most `m_slots` spans |
| SpanLeader.RetainSlot | experiments/gemma_recurrent_poc.py:641-661 | retention of one slot: greedy selection, first pick included, among its old and new spans, features kept in line |
| SpanLeader.DecideSpans | experiments/gemma_recurrent_poc.py:610-662 | the whole decision: split, features, assignment in turn and retention; it is bounded, and afterwards each kept span has a feature of its own tokens and in every slot they are `dup_floor` apart |
| SpanLeader.DecisionOk | experiments/gemma_recurrent_poc.py:639-662 | a decision on a bounded state leaves a bounded state whose kept features belong to the kept spans and are apart, over any number of refills of a slot |
| RoutedSpanSpec.NewSpansArePicked | experiments/gemma_recurrent_poc.py:677-690 | the tokens of the spans given to a slot are exactly the tokens labelled with it |
| RoutedSpanSpec.BlocksGrow | experiments/gemma_recurrent_poc.py:669-676 | the routed spans of all folds tile the evicted positions, each with one slot |
| RoutedSpanSpec.RouteFoldSound | experiments/gemma_recurrent_poc.py:665-697 | a fold keeps every slot exact and made of whole spans |
| RoutedSpanSpec.StepSound | experiments/gemma_recurrent_poc.py:731-765 | so does every update, whoever decided |
| RoutedSpanSpec.KeptSpansAreWhole | experiments/gemma_recurrent_poc.py:677-696 | every kept span is one whole span of a decision this layer has read from the log, with the tokens of its positions, all routed to this one slot |
| RoutedSpanSpec.AnchoredStep | experiments/gemma_recurrent_poc.py:665-697 | after every update the routed spans are exactly those of the decisions read so far, and the evicted tokens are what they routed |
| RoutedSpanSpec.BlockIsLogged | experiments/gemma_recurrent_poc.py:570-591 | every routed span is span `j` of logged decision `k`, which split the tail it found, of the length recorded for it, at its sentence breaks and up to the last one |
| RoutedSpan.KeptSpansWereCut | experiments/gemma_recurrent_poc.py:570-697 | after any run, at leader and followers alike: each kept span is one whole span that a logged decision cut from the tail it found, at its sentence breaks and up to the last one, and sent to this slot, with the own tokens of the layer in it |
| SpanBounds.ReplayAgrees | experiments/gemma_recurrent_poc.py:665-697 | replaying the log gives the structure of the leader |
| SpanBounds.FlatStep | experiments/gemma_recurrent_poc.py:755-763 | the tail stays within `max(route_chunk + C - 2, fallback_span - 1)`, and a tail of a routing chunk or more holds no break |
| SpanBounds.FlatMemory | experiments/gemma_recurrent_poc.py:699-711 | the materialised length is at most sink + window + that bound + `m_slots * (1 + max(span_budget, max_span, fallback_span))` |
| RoutedSpan.ApplyRoute | experiments/gemma_recurrent_poc.py:677-696 | applying a decision span by span, slot after slot, is the fold function |
| RoutedSpan.FoldFull | experiments/gemma_recurrent_poc.py:755-763 | at most one fold per update; a leader logs exactly one decision, split, featured, assigned in turn and retained as the code does, first pick included, and keeps the distance and budget invariants |
| RoutedSpan.Digest | experiments/gemma_recurrent_poc.py:731-765 | admission and fold together are `Step`, and keep the flat-memory invariant at the leader |
| RoutedSpan.RoutedSpanLayer.SlotLayout | experiments/gemma_recurrent_poc.py:713-725 | on every reachable state the layout indexes the stored keys |
| RoutedSpan.RoutedSpanLayer.AssignmentOf | experiments/gemma_recurrent_poc.py:435-441 | the recorded slot of exactly the evicted positions |
| RoutedSpan.RoutedSpanLayer.Update | experiments/gemma_recurrent_poc.py:731-765 | one update is `Step` on the resulting log; a deciding layer always succeeds and logs the decision its features call for; the routed spans grow by exactly those of the decision read |
| RoutedSpan.BuildCache | experiments/gemma_recurrent_poc.py:790-817 | fresh layers on one fresh log are in step |
| RoutedSpan.ForwardChunk | experiments/gemma_recurrent_poc.py:186-196 | no follower faults and all layers agree again |
| RoutedSpan.SyncedIsFlat | experiments/gemma_recurrent_poc.py:699-711 | leader and followers alike stay within the flat bound |
| RoutedSpan.SyncedWithinBudget | experiments/gemma_recurrent_poc.py:647-659 | after any run, at leader and followers alike: a slot holds a single span or at most `span_budget` tokens |
| SpanMean.NothingLeftIff | experiments/gemma_recurrent_poc.py:582-591 | a decision leaves nothing pending if and only if the tail it found ends at a break or holds none |
| SpanMean.EachOnceIff | experiments/gemma_recurrent_poc.py:593-608 | the tails of a log, one after another, are the stream up to the end of the last tail if and only if no earlier decision left a tail |
| RoutedSpan.MeanCountsOnceIff | experiments/gemma_recurrent_poc.py:593-608 | on every reachable state of a deciding layer the mean is exactly that of the tails its decisions found, and it has counted just the evicted tokens if and only if every tail ended at a break or held none |
| RoutedSpan.MeanAfterFold | experiments/gemma_recurrent_poc.py:593-608 | one fold later the mean covers the evicted and the pending tokens, each once, if and only if every tail before the last ended at a break or held none |
| RoutedSpan.TailCountedTwice | experiments/gemma_recurrent_poc.py:593-608 | a run of two updates after which the leader has counted five tokens with four evicted, and its mean is not the mean of those four |
| RoutedSpan.ForwardAll | experiments/gemma_recurrent_poc.py:731-765 | any number of passes: in step, each layer its own stream, every cache within the bound |
| PaddedBatch.PaddingIsHidden | experiments/gemma_recurrent_poc.py:973-989 | reading a padded row through its mask gives the row |
| PaddedBatch.RowAppends | experiments/gemma_recurrent_poc.py:731-765 | below the routing chunk the own layer of a row neither folds nor raises and only appends |
| PaddedBatch.PaddedRoutedSpanDecodeLayer.Update | experiments/gemma_recurrent_poc.py:937-955 | it raises exactly on chunks that are not one token per row or when the shared tail reaches the routing chunk; else each row, read through the mask, is what its own layer would return, and mask and keys have one width |
| PaddedBatch.PadAndStack | experiments/gemma_recurrent_poc.py:973-989 | all rows get the longest length, and the mask shows exactly each row |
| PaddedBatch.MergeGuard | experiments/gemma_recurrent_poc.py:992-1013 | the first complaint in the order of the code (totals, then routing chunks, then tails, then reach of a fold), none exactly for rows in step that cannot reach a fold |
| PaddedBatch.MergePadded | experiments/gemma_recurrent_poc.py:992-1026 | the merge succeeds exactly under the guard and starts as the rows themselves |
| PaddedBatch.DecodedIsOwnRun | experiments/gemma_recurrent_poc.py:911-955 | the reference for a row, its own layer fed token by token from any log, never folds or raises below the routing chunk and holds its keys plus the tokens |
| PaddedBatch.DecodeAll | experiments/gemma_recurrent_poc.py:1389-1414 | no step of an admitted decode fails; every row ends in the state of its own layer fed the same tokens, and shows exactly its keys |
| PaddedBatch.PaddedDecodeMask | experiments/gemma_recurrent_poc.py:1360-1385 | one mask for all padded layers, refused exactly when their masks differ; the old mask and one visible column |
| StaticRing.WriteShifts | experiments/gemma_recurrent_poc.py:1456-1463 | a write in place puts the token behind everything kept and drops the oldest of the ring |
| StaticRing.StaticRefinesDynamic | experiments/gemma_recurrent_poc.py:1437-1443 | at capacity, after any number of steps, the buffer read from the pointer is the sink and a rotation of what the dynamic layer returns |
| StaticRing.ReadoutsAgree | experiments/gemma_recurrent_poc.py:1424-1443 | every readout of one step that ignores the order of entries agrees |
| StaticRing.SameVisibleSet | experiments/gemma_recurrent_poc.py:1437-1443 | for every prefill and every decode: the same tokens as SinkRingLayer if and only if the window is not empty or it is the first step |
| StaticRing.StaticRingLayer.Update | experiments/gemma_recurrent_poc.py:1456-1466 | in place at the pointer, which wraps inside the ring; returns the whole buffer |
| StaticRing.ToStatic | experiments/gemma_recurrent_poc.py:1486-1510 | refused unless the layer stores exactly its capacity; else the stored keys and one zeroed slot |
| StaticRing.DecodeSideBySide | experiments/gemma_recurrent_poc.py:1456-1466 | both layers decode as their step functions say; with a window of at least one they keep the same tokens at every step |
| GraphWarmup.ToStaticCache | experiments/gemma_recurrent_poc.py:1478-1515 | layer after layer into separate buffers, refused at the first layer below capacity, which leaves the layers before it converted |
| GraphWarmup.UpdatesStayOnVisited | experiments/gemma_recurrent_poc.py:1535-1543 | any number of updates, wrapping or not, changes only the slots on the walk of the pointer |
| GraphWarmup.TakeSnapshot | experiments/gemma_recurrent_poc.py:1535-1543 | the snapshot holds exactly the slots the warm-up will visit, in order, with their contents |
| GraphWarmup.Restore | experiments/gemma_recurrent_poc.py:1552-1556 | after the warm-up the snapshot alone gives back the whole buffer, the pointer and the counter |
| GraphWarmup.GraphedStep.constructor | experiments/gemma_recurrent_poc.py:1528-1561 | for any network and any number of warm-up iterations buffers, pointers and position end as they were; each host counter ends one higher, from the captured update |
| GraphWarmup.GraphedStep.GraphedDecode | experiments/gemma_recurrent_poc.py:1578-1591 | replay emits the tokens of the step function and leaves its buffers |
| GraphWarmup.StaticGreedyDecode | experiments/gemma_recurrent_poc.py:1613-1630 | so does eager decoding |
| GraphWarmup.TokenIdentity | experiments/gemma_recurrent_poc.py:2400-2411 | on equal caches replay after warm-up and capture gives the tokens and buffers of eager decoding |
| StaticParity.MirrorSteps | experiments/gemma_recurrent_poc.py:1424-1443 | for every network that ignores the order of entries and any number of steps: the same ids on rings and on dynamic layers, whose contents go on mirroring each other |
| StaticParity.StaticEqualsDynamicIff | experiments/gemma_recurrent_poc.py:2377-2399 | for every cache at capacity and every number of steps: all such networks emit the same tokens on static rings as on the dynamic layers if and only if every layer stays at its capacity or at most one step is taken |
| StaticParity.DynamicGreedyDecode | experiments/gemma_recurrent_poc.py:1595-1609 | greedy decoding on the dynamic layers emits the tokens of the step function and leaves its caches |
| StaticParity.RunGate | experiments/gemma_recurrent_poc.py:2377-2411 | refused unless every layer is at capacity; else each decoding emits the tokens of its step function from the position reached, replay those of eager static decoding, and for a network that ignores the order of entries, on layers that stay at capacity, both are those of the dynamic layers |
| NativeGraph.StaticSlidingDecodeLayer.Update | experiments/native_gemma_graph_check.py:59-69 | one token, in place, wrapping; refused for any other chunk length |
| NativeGraph.StaticRoutedSpanDecodeLayer.Update | experiments/native_gemma_graph_check.py:125-139 | one token in place and its mask slot opened; refused for other chunk lengths and before the routing chunk is reached |
| NativeGraph.AllOpenTheSameSlot | experiments/native_gemma_graph_check.py:125-139 | when all routed layers stand on one slot the shared mask opens exactly that slot |
| NativeGraph.StaysAligned | experiments/native_gemma_graph_check.py:125-139 | with headroom the pointers stay together, never wrap, and the mask is exactly the slots before them |
| NativeGraph.MaskShowsPrefixAndDecoded | experiments/native_gemma_graph_check.py:250-266 | the mask exposes in every routed layer exactly its stored prefix and the tokens decoded so far |
| NativeGraph.CloneHasHeadroom | experiments/native_gemma_graph_check.py:250-266 | the guard of the clone leaves slots and routing room for warm-up, run and capture |
| NativeGraph.CloneShows | experiments/native_gemma_graph_check.py:250-266 | along every run of at most out + warmup + 3 steps no pointer wraps and the mask shows the native keys plus the decoded tokens |
| NativeGraph.CommonLayout | experiments/native_gemma_graph_check.py:238-249 | the one layout of the routed layers, refused exactly when there is none |
| NativeGraph.StaticClone | experiments/native_gemma_graph_check.py:229-295 | refused exactly when no layout makes the native cache cloneable, with no routed layer, then differing layouts, then the fold boundary, then the first unfit layer as the reason; else fresh separate buffers holding the native keys |
| NativeGraph.SlidingCloneShows | experiments/native_gemma_graph_check.py:33-69 | after any number of steps the buffer of a sliding clone, read oldest first from the pointer, is the native keys and the decoded tokens, the last ones the window holds |
| NativeGraph.SlidingCloneMatchesIff | wkvm/runner/gemma_runner.py:390-401 | in every step the sliding layer of a clone shows the tokens that the native layer returns if and only if the window holds more than one token or this is the first step |
| NativeGraph.StaticGemmaGraphCache.Forward | experiments/native_gemma_graph_check.py:167-211 | raises exactly when the host code runs and some layer would cross its routing chunk; else tensors step unless captured, counters step unless replayed |
| NativeGraph.StaticGemmaGraphCache.Snapshot | experiments/native_gemma_graph_check.py:201-206 | every layer and the mask |
| NativeGraph.StaticGemmaGraphCache.Restore | experiments/native_gemma_graph_check.py:207-211 | gives back buffers, pointers, counters and mask whatever ran since |
| NativeGraph.GraphedGemmaStep.constructor | experiments/native_gemma_graph_check.py:338-364 | with room nothing raises, and buffers, pointers, mask and host counters all end exactly as they were |
| NativeGraph.GraphedGemmaStep.Decode | experiments/native_gemma_graph_check.py:373-385 | replay emits the tokens of the step function; the host counters stay |
| NativeGraph.StaticEagerDecode | experiments/native_gemma_graph_check.py:298-317 | eager decoding with room never raises and emits the tokens of the step function |
| NativeGraph.Run | experiments/native_gemma_graph_check.py:424-446 | whenever the cache can be cloned nothing raises and eager and graph tokens are equal: those of the network on the clone, from the position the native cache has reached |
| SseBuffer.SSEEventBuffer.Feed | experiments/gemma_multiturn_http_bench.py:399-420 | one call parses every complete line of the buffered bytes; on an error the events of the call are lost and the rest of the bytes stays |
| SseBuffer.SSEEventBuffer.FinishEvent | experiments/gemma_multiturn_http_bench.py:429-447 | the data lines joined by line feeds become one event, or none |
| SseBuffer.SSEEventBuffer.Finish | experiments/gemma_multiturn_http_bench.py:422-427 | accepts exactly a blank rest and no open event |
| SseBuffer.DrainSplit | experiments/gemma_multiturn_http_bench.py:399-420 | bytes that arrive later are parsed from where the earlier ones left off |
| SseBuffer.NoDataIsInvisible | experiments/gemma_multiturn_http_bench.py:415-419 | inserting or removing a non-blank line without the `data:` prefix at any line boundary of any stream changes neither events nor open event nor error |
| SseBuffer.CutsAreInvisible | experiments/gemma_multiturn_http_bench.py:399-420 | for every stream and every cut: the events and the state of one-shot parsing; with an error the same error and unread bytes, and delivered are exactly the events of the chunks before the failing one |
| SseBuffer.EventsCanBeLostIff | experiments/gemma_multiturn_http_bench.py:399-420 | for every cut of every stream: some parse loses an event to an error if and only if some chunk closes an event, after its first, whose payload occurs in no earlier event |
| SseBuffer.LinesLoseNothing | experiments/gemma_multiturn_http_bench.py:498-500 | fed line by line, as the one caller iterates a response, every event before the error is delivered, whatever the parse |
| SseBuffer.OneChunkLoses | experiments/gemma_multiturn_http_bench.py:399-420 | two events in one chunk, the second unparsable: nothing is delivered, where one-shot parsing yields the first |
| SseBuffer.LinesSurvive | experiments/gemma_multiturn_http_bench.py:409-419 | printed payload lines come back exactly if and only if none contains a line feed, none ends in a carriage return before a bare line feed, and none printed without a space behind the prefix starts with one |
| SseBuffer.ParseUndoesPrint | experiments/gemma_multiturn_http_bench.py:399-447 | parsing any number of printed events, with event names, comments and keep-alives anywhere between their data lines, gives the payloads back in order, up to the first that does not parse |
| SseBuffer.RoundTrip | experiments/gemma_multiturn_http_bench.py:399-447 | the same fed in any pieces; when a payload does not parse, delivered are exactly those of the chunks before the one that fails |
| SseBuffer.TextSurvives | experiments/gemma_multiturn_http_bench.py:429-433 | a text of any number of lines, printed as one data line each, reaches the decoder as that text |
| SseBuffer.TruncationIsNoticed | experiments/gemma_multiturn_http_bench.py:422-427 | a stream cut anywhere is accepted by finish exactly at an event boundary |
| SseBuffer.BlankRestIsAccepted | experiments/gemma_multiturn_http_bench.py:422-427 | behind a complete stream `finish` accepts an unfinished line if and only if it holds only blanks |
| StreamReassembly.StreamReader.OnEvent | experiments/gemma_multiturn_http_bench.py:579-605 | one event: count, delta and mode; a set mode stays, the output only grows |
| StreamReassembly.StreamReader.Accepted | experiments/gemma_multiturn_http_bench.py:666-674 | accepts exactly when no event was rejected and, once some event carried ids, the count in force is their number |
| StreamReassembly.NoneRejected | experiments/gemma_multiturn_http_bench.py:366-371 | no divergence is counted if and only if no event found a cumulative reader whose output its ids do not extend |
| StreamReassembly.ModeIsFinal | experiments/gemma_multiturn_http_bench.py:355-387 | once set the mode never changes; a cumulative reader takes exactly the events that extend its output and rejects all others |
| StreamReassembly.UndecidedIsRight | experiments/gemma_multiturn_http_bench.py:374-375 | before the deciding event both kinds of stream are read right |
| StreamReassembly.ReconstructsIff | experiments/gemma_multiturn_http_bench.py:355-387 | for every server that keeps to one kind, with any counts, missing or stale: the output is right if and only if, at the first event that finds output, the count in force and the prefix test choose that kind |
| StreamReassembly.CountedStreamsAreExact | experiments/gemma_multiturn_http_bench.py:355-387 | with a right count on every event both kinds come out exactly, no event is rejected and the mode is never wrong |
| StreamReassembly.AcceptedMeansExact | experiments/gemma_multiturn_http_bench.py:668-674 | when the last count in force is right the closing check accepts if and only if the output is exact: a misread stream never passes |
| StreamReassembly.UncountedRepeatIsLost | experiments/gemma_multiturn_http_bench.py:384-386 | without counts the incremental stream [7], [7] is misread |
| Bytes.LittleRoundTrip | experiments/bench_prompt_utils.py:71-73 | fixed-width little-endian numbers read back |
| Bytes.FromLittleConcat | experiments/bench_prompt_utils.py:71-73 | later bytes weigh more: what follows a string counts in units of 256 to its length |
| Bytes.SignedRoundTrip | experiments/bench_prompt_utils.py:73 | signed 64-bit tokens read back, and are written as their residue modulo 2^64 |
| Fingerprint.PromptsRoundTrip | experiments/bench_prompt_utils.py:67-73 | decoding the prompt-set bytes gives the prompts |
| Fingerprint.ReadPromptsRoundTrip | experiments/bench_prompt_utils.py:67-73 | whatever decodes is the encoding of what it decodes to |
| Fingerprint.PromptsAreDecodable | experiments/bench_prompt_utils.py:67-73 | two prompt sets have equal bytes if and only if they are equal, although their number is not written |
| Fingerprint.PromptSetFingerprint | experiments/bench_prompt_utils.py:60-82 | hashes exactly those bytes, reports the lengths and their sum, fails exactly on a number that does not fit |
| Fingerprint.SortedIsOrdered | experiments/bench_prompt_utils.py:120 | ordered, and the same entries |
| Fingerprint.LessIsPrecedes | experiments/bench_prompt_utils.py:120 | the order is the lexicographic one: at the first place where they differ the smaller byte, or the end of the string, comes first |
| Fingerprint.PreimageIsTheMap | experiments/bench_prompt_utils.py:125-147 | the hashed bytes of two request lists are equal if and only if the lists are the same map from id to tokens |
| Fingerprint.OrderDoesNotMatter | experiments/bench_prompt_utils.py:120-147 | reordering requests changes neither acceptance nor bytes |
| Fingerprint.GeneratedOutputFingerprint | experiments/bench_prompt_utils.py:98-151 | fails exactly on ill-formed requests, then repeated ids, then numbers that do not fit; else ids in ascending lexicographic order of their bytes, their counts, and the hash of those bytes |
| SubmissionOrder.ShuffleInPlace | experiments/gemma_multiturn_bench.py:176-180 | the in-place loop is the shuffle function |
| SubmissionOrder.ShuffleSettles | experiments/gemma_multiturn_bench.py:176-180 | one draw settles the last open place: the session drawn stays there and the places behind it are not touched again |
| SubmissionOrder.StepsBack | experiments/gemma_multiturn_bench.py:177 | the generator can be run backwards, so no two states have the same successor |
| SubmissionOrder.OrderIsPermutation | experiments/gemma_multiturn_bench.py:154-180 | for every policy, seed and turn the order is a permutation |
| SubmissionOrder.RequestOrderIndices | experiments/gemma_multiturn_bench.py:154-180 | a permutation, or the first error; forward keeps the order, alternating keeps it on even turns and reverses it on odd ones |
| SubmissionOrder.RestoreLogicalOrder | experiments/gemma_multiturn_bench.py:183-191 | refused exactly for unequal lengths or an incomplete permutation; else value `i` is at place `order[i]` |
| SubmissionOrder.RestoreUndoesSubmit | experiments/gemma_multiturn_bench.py:183-191 | restoring undoes submitting, and no other list does |
| SubmissionOrder.AppendDeltas | experiments/gemma_multiturn_bench.py:933-939 | every history grows by its delta; on unequal lengths it raises with the common part extended |
| SubmissionOrder.AppendOutputs | experiments/gemma_multiturn_bench.py:955-961 | every history grows by its output, a failed one by nothing |
| SubmissionOrder.TurnPrompts | experiments/gemma_multiturn_bench.py:942-952 | the prompts of a turn, with the new inputs taken in after the first |
| SubmissionOrder.Generate | experiments/gemma_multiturn_bench.py:1705-1754 | submission in the order of the turn and restoring give every session its own answer |
| SubmissionOrder.HasErrors | experiments/gemma_multiturn_bench.py:964-979 | whether any output is missing or of another length |
| SubmissionOrder.RunTurn | experiments/gemma_multiturn_bench.py:1694-1812 | one turn sends the prompts of the sessions alone and leaves their histories, in any order |
| SubmissionOrder.Run | experiments/gemma_multiturn_bench.py:1694-1812 | for every policy and seed the number of turns run (it stops after the first with an error), all prompts and the final histories are those each session would have alone |
| SubmissionOrder.PromptsExtend | experiments/gemma_multiturn_bench.py:942-961 | each prompt is the previous prompt, its output and the new input |
| SubmissionOrder.LengthIsRequired | experiments/gemma_multiturn_bench.py:2387-2391 | with outputs of the expected length the final history is exactly `required_model_len` |
| SubmissionOrder.PromptsFit | experiments/gemma_multiturn_bench.py:2387-2391 | and no prompt with its output ever needs more |

## Left out

- RoutedBankLayer and RoutedSpanLayer with more than one batch row, `batch_repeat_interleave` and the exact structural merge: the padded batch is the modelled form of batching.
- RoutedBank.RoutedBankLayer.Update: `m_slots` and `route_chunk` are at least one (with an empty routing chunk the mean of no tokens is not a number); after the failed assertion the partly updated fields are not described, only that the update raised and that the log lost nothing.
- RoutedSpan.RoutedSpanLayer.Update: the break mask is fixed for the life of a layer, because the flat bound and the record of tails need it; every harness sets it once, before the first token. A configuration with `dup_floor <= -1` is not modelled (no caller sets it, the default is 0.10): there and only there retention can select one span twice (`SpanRetention.NeverTwiceIffFloor`), and kept positions are no longer distinct.
- RoutedSpan.BuildCache: the same configurations, with `dup_floor > -1`.
- RoutedSpan.RoutedSpanLayer: the features of the kept spans live beside the slots in the state of the leader, not inside the span records, so that followers carry none; the parallel `_rep_pos` list is read off the spans.
- BankedRing.BankedRingLayer.Update: after a fault the partly updated fields are not described, only that the update raised.
- StaticRing.StaticRefinesDynamic: the sliding layer is what the comment of StaticRingLayer says of it, the last `window - 1` tokens; DynamicSlidingWindowLayer is not part of this model.
- StaticParity.RunGate: the static layers are converted from the very layers that decode, where the source prefills the prompt once more for each run; the tie-aware rule for rounding differences is left out.
- NativeGraph.StaticClone: of NativeRoutedSpanLayer the model has the lengths and counters the clone reads, of NativeSlidingWindowLayer also the slice its update keeps; batch replication is left out.
- PaddedBatch.MergePadded: shape and dtype complaints of the tensor stacking are left out, since rows are lists of tokens here.
- SseBuffer.SSEEventBuffer.Feed: the type check on chunks, UTF-8 and JSON decoding are one function of the bytes of an event.
- StreamReassembly.StreamReader.OnEvent: malformed field types and the OpenAI and wkvm event forms are left out.
- Fingerprint.GeneratedOutputFingerprint: request ids are their UTF-8 bytes; the hash is a parameter, so nothing is said about collisions.
- SubmissionOrder.Run: the case of an engine that returns a wrong number of outputs (all marked failed), telemetry and teacher forcing are left out.
- Tracing off: the assignment log is always recorded.
- Floating point: rounding, dtypes and ties broken by rounding.
- CUDA streams, graph capture of kernels, attention arithmetic, model loading, HTTP transport, timing, GPU sampling, report and contract scripts, argument parsers.
