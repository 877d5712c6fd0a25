# A verified model of the NTL node

NTL nodes pass *signals* to each other over weighted links called *synapses*, and learn from
*receipts* which links are worth using. This project models the decision core of one node and
the run-level protocol around it, and proves what its documentation and tests promise - or,
where a promise fails, exactly when it holds.

`dafny verify dfyconfig.toml` checks everything.

## How it is laid out

| files | what they model |
|---|---|
| `Base`, `Sorting`, `RealProducts` | saturating 64-bit clocks, outcomes, sequences; the library's stable sort; products of reals behind names |
| `Activation`, `ActivationRuns`, `PotentialRuns` | the activation gate: a bounded queue with three overflow policies, batched weight-ordered firing, a refractory deadline and a starvation guard; every run of it; and when it fires, read off its inputs |
| `Rng`, `Sampling`, `SoftmaxDraws`, `Propagation` | Lemire rejection, SplitMix64, sampling without replacement by swap-remove, and the choice of synapses for a signal |
| `Learning`, `Normalization`, `OutboundWeights`, `Synapses` | capped Hebbian updates, decay, divisive normalisation with a floor, the synapse lifecycle and pruning |
| `Store`, `Nodes` | the in-memory store (dedup map, journal, influence log, synapse table) and the node's learning operations over it |
| `NodeRuns`, `ExactlyOnce`, `InfluenceCap`, `Lessons`, `PruneRuns`, `Cooldowns` | every interleaving of decisions, receipts, sweeps, transport failures, bad signatures and reconnections |
| `Signals`, `Network` | header rules, and propagation across a network under any scheduler, loss and choice of next hops |
| `Handshake` | mutual authentication with symbolic signatures and an active network |
| `Frames` | length-prefixed framing |
| `Reception`, `Runtime`, `RuntimeLedger`, `RuntimeSteps`, `RuntimeAccount`, `Provenance`, `RuntimeRuns`, `RuntimeWire` | the read loop's handling of an arrival, the maintenance poll, and every run of the two: what receipts say, what one step does, when it keeps the account of arrivals with any number of copies queued, where everything held came from, whole runs, and what is put on the wire |

Each stateful object of the program is a class whose methods update fields in place; the
`ensures` clause of each method equates the new state with a function of the old one, and the
lemmas are about those functions and about runs of them.

Conventions. `f32` weights are `real`. Nanosecond readings are `u64` with saturation written
out. Clock readings, random draws, scores, forwarding plans and the liveness of sessions are
inputs, so that every statement holds for all of them; `exp` is any positive function
(where softmax shares are compared an increasing one, 1 at 0, under which exponents add) and
`exp2` any function under which exponents add. Signal, node and synapse ids are natural numbers, of
which only equality and order are used. A step of the runtime is one whole iteration of the
read loop, or one whole poll. Every lemma turns automatic induction off, so each inductive
argument is written out.

## What is proved

* **Gate.** An offer makes the gate fire if and only if the last fire's refractory period is
  over and either what the offers since then contribute, with this one, meets the rule of its
  function or a queued signal starves. Over any run of offers, polls, drains, checkpoints and
  restarts, what was offered
  is what fired, was dropped, is queued or was lost to a restart, and the queue keeps its
  bound. A restart goes back to the last checkpoint, so the gate may forget fires: its count is
  that of the fires it remembers, and right if and only if it remembers all. Those it remembers
  are a refractory period apart unless one was drained, which bounds their release rate; and
  under a steady clock the next fire is sure to keep its distance from a given one if and only
  if no restart has forgotten it (or the gate has fired since, or the distance has passed). A
  run with a stale restart fires twice within one period. Without fires the queue holds the
  heaviest signals ever offered; a starving signal behind r others leaves within
  r / batch + 1 effective polls. For every valid configuration a saturated gate always fires if
  and only if it is not a sigmoid one and its ceiling - twice `base_threshold` for a dynamic
  threshold - is within `max_potential`, or its leak is certain. The configuration check asks
  for only once the base; below the ceiling saturated gates that have not fired are reached, and
  a step gate without a latency guard that has filled up fires on no further offer or poll.
* **Learning loop.** Every application of an outcome, in every run, moves the weight by exactly
  what that outcome teaches: a delivery by the learning rate times the signal's weight or what
  is left of the peer's budget, each failure by its own share of it whatever the budget. A
  journal entry has one outcome for ever. Each decision is learnt from
  exactly once, with that outcome, if and only if no failed forward reads the very clock value
  at which its decision was already resolved; strictly rising readings suffice, equal ones do
  not. In any interval of one influence window a peer's recorded rises stay within its cap,
  whatever the clock does, and its weight ends at most the cap above where it began, or above
  the initial weight if it reconnected, which is not charged; penalties are never suppressed; a
  receipt from one peer raises no other peer's weight. Every run keeps every weight in range if
  and only if the initial weight is in range and the synapse's own ceiling no lower than the
  floor, neither of which validation asks; the results on weights assume that much
  (`NodeConfig.KeepsRange`), the others no more than a prune threshold of at least one. After
  every resolved outcome the total outbound weight is at most the budget plus one floor per
  synapse; one normalisation meets the budget if and only if no scaled weight falls below the
  floor, and repeating it brings the excess below every bound if and only if the floors alone
  fit the budget.
* **Pruning.** For every threshold k and window, 2k - 1 signature failures within one window
  always prune and no fewer always do; k do if the window has no length or spans the whole
  clock. Once the clock is past its first window 2k - 2 do, and again no fewer. A prune needs k
  within one window. All this holds with receipts, timeouts, normalisations and reconnections
  interleaved, since a synapse's standing follows from its own failures alone. After a prune
  nothing makes the peer's synapses carry before the cooldown is over, and the cooldown runs
  from the latest of the prune, later prunes and outcomes that come in late.
* **Propagation.** Every run of the network is finite, even if every dedup cache forgets,
  with an explicit bound; with live dedup no node forwards an id twice. A flood's bound on hops
  holds in every run if and only if it is at most 64 or the ttl is no larger: the trace it is
  counted on stops at 64. An acknowledged signal is never refused for weight under one
  network-wide floor, and over a link exactly when the receiver's floor is no higher.
* **Randomness.** Every accepted Lemire draw is perfectly uniform; SplitMix64 is a bijection
  walked with full period; sampled paths are distinct, in range and in score order, and a
  softmax sample is the one that shares of exp(score / temperature) give.
* **Handshake, framing, deduplication.** Whatever messages a side gets, it accepts a key if and
  only if the first is a hello from it and the second its proof for this side's challenge; a
  failed check is final. Recent aliveness of an uncompromised peer, which, if
  such keys sign proofs in handshakes only, had verified a hello with this challenge; any prefix
  of written frames reads back as a prefix of the signals; whatever the clock readings, the
  dedup map answers otherwise than the full history of sightings would exactly when a purge at a
  reading later than the query's removed a sighting still unexpired for it and none has been
  accepted since.
* **Runtime.** In every run each receipt has the status that what was done with its signal
  calls for: the refusals for want of a route are exactly the acknowledged arrivals that had
  been here before or fired at once with nowhere to go, and a signal of which nothing was sent
  is receipted as delivered exactly when it had waited in the queue with nowhere to go. Copies
  of a signal queued together, after the dedup map has forgotten the first, share one cached
  body. In a run whose copies agree on what their signature covers, at every step the cache
  mirrors the queue, its backstop has never evicted, every release has had its body, and every
  arrival that is neither a duplicate nor still queued has had exactly one event and, if
  acknowledged, exactly one receipt attempt addressed to its own origin, if and only if nothing
  that leaves by a poll, an eviction or another arrival's batch has a twin in the queue, and of
  an arrival's own copies none fires when it or one of them is turned away, at most one when it
  is refused for want of a route, and otherwise not all of them if some were queued before it.
  A dedup window that outlasts each stay in the queue leaves no copies to meet. Of two concrete
  runs that queue copies together one releases a signal without a body and the other answers
  all three of its arrivals. Every copy sent is one hop on from a signal that came in, as the
  network model's nodes send it, over a planned link that was live.

Where the code and its comments differ the model follows the code: `read_signal` documents
`Closed` as a clean end of stream but also returns it for a torn length header
(`runtime/ntl-net/src/frame.rs:52-56`); the signature-failure window is anchored at its first
failure and does not slide (`runtime/ntl-core/src/synapse.rs:447-452`); the normalised total
can end above its budget (`runtime/ntl-core/src/learning.rs:338-340`); a routeless signal that
fires on arrival is refused while one released later is receipted as delivered
(`runtime/ntl-core/src/node.rs:335-350`, `runtime/ntl-net/src/runtime.rs:1134-1146`).

## Model

| member | source | states |
|---|---|---|
| `Activation.ActivationState.constructor` | runtime/ntl-core/src/activation.rs:296-320 | a new gate is empty and at its base threshold, with batch size and depth forced to at least one |
| `Activation.ActivationState.AdmitSignal` | runtime/ntl-core/src/activation.rs:346-378 | the whole new gate and outcome: contribute capped potential, enqueue, recompute a dynamic threshold, and fire only outside the refractory period, on the threshold rule or on starvation |
| `Activation.ActivationState.EnqueueSignal` | runtime/ntl-core/src/activation.rs:381-446 | the new queue and the drop under each of the three policies, and both counters rise exactly on a drop |
| `Activation.ActivationState.FireBatch` | runtime/ntl-core/src/activation.rs:449-469 | the batch and the rest of the queue, potential back to zero, deadline set, count raised |
| `Activation.ActivationState.DrainStarving` | runtime/ntl-core/src/activation.rs:534-539 | the poll fires exactly when a signal starves outside the refractory period, and otherwise changes nothing |
| `Activation.ActivationState.Drain` | runtime/ntl-core/src/activation.rs:545-551 | draining fires whatever the refractory deadline |
| `Activation.ActivationState.RestoreFrom` | runtime/ntl-core/src/activation.rs:323-330 | a restart restores potential (clamped), threshold, deadline and fire count, and not the queue |
| `Activation.FireTakesTheFront` | runtime/ntl-core/src/activation.rs:449-469 | a fire releases the first signals in weight-descending, id-ascending order, in that order, and keeps every other one |
| `Activation.BatchIsHeaviest` | runtime/ntl-core/src/activation.rs:449-469 | the batch is the heaviest of the queue, heaviest first, equals by id, and as many as the batch size and the queue allow |
| `Activation.ValidConfigIsKept` | runtime/ntl-core/src/activation.rs:296-320 | a valid configuration is kept as it stands, its milliseconds as nanoseconds up to the end of the clock |
| `Activation.EnqueueAccounts` | runtime/ntl-core/src/activation.rs:381-446 | queue and arrival are the new queue and the drop, as multisets; the bound holds; a drop happens exactly when the queue was full |
| `Activation.LightestIsDropped` | runtime/ntl-core/src/activation.rs:418-442 | the drop is a lightest of queue and arrival, and a queued signal yields only to a strictly heavier one |
| `Activation.OldestIsDropped` | runtime/ntl-core/src/activation.rs:396-417 | the drop is the queued signal that waited longest, of those the one with the least id, and the arrival is queued |
| `Activation.AdmitEffect` | runtime/ntl-core/src/activation.rs:346-378 | for any draw, an offer conserves signals, keeps the bound, moves the counters by what happened and sets the deadline exactly on a fire |
| `ActivationRuns.NothingIsLost` | runtime/ntl-core/src/activation.rs:323-551 | over any run: offered = fired + dropped + queued + lost to restarts as multisets; both drop counters equal the drops since the last restart, and the fire counter the signals of the fires the gate remembers |
| `ActivationRuns.CountIsExactIff` | runtime/ntl-core/src/node.rs:1040-1047 | the fire counter equals all signals ever fired if and only if no restart has loaded a checkpoint older than a fire |
| `ActivationRuns.FiresAreSpaced` | runtime/ntl-core/src/activation.rs:362-371 | of the fires the gate remembers, the j-th comes at least (j - i) refractory periods after the i-th, unless one between was drained or the clock saturated |
| `ActivationRuns.SpacingHoldsIff` | runtime/ntl-core/src/node.rs:813-829 | for a gate some offer can fire, under a clock that never goes back, the next fire is sure to come a refractory period after fire i if and only if the gate still takes account of fire i or a later one, or that time has passed |
| `ActivationRuns.StaleRestartFiresEarly` | runtime/ntl-core/src/node.rs:1040-1047 | a checkpoint, a fire, a restart from the checkpoint and a second fire one nanosecond after the first, whatever the period; the fire counter then misses the first |
| `ActivationRuns.DrainIgnoresTheDeadline` | runtime/ntl-core/src/activation.rs:545-551 | a drain of a non-empty queue is a fire at its own reading, whatever the deadline |
| `ActivationRuns.ReleaseRateIsBounded` | runtime/ntl-core/src/activation.rs:449-469 | the number of signals released between two remembered fires is at most a batch for each refractory period between them, and one batch more |
| `ActivationRuns.HeaviestAreKept` | runtime/ntl-core/src/activation.rs:381-446 | over any stretch without fires, no dropped signal outweighs a queued one |
| `ActivationRuns.SurvivorsAreTheTopK` | runtime/ntl-core/src/activation.rs:381-446 | the queued weights are the top of the sorted weights of everything queued at first or offered since |
| `ActivationRuns.StarvationIsBounded` | runtime/ntl-core/src/activation.rs:499-539 | with arrivals stopped, a starving signal with r ahead of it has left after r / batch + 1 polls outside the refractory period |
| `ActivationRuns.SaturationFiresIff` | runtime/ntl-core/src/activation.rs:175-212 | for every valid configuration: a saturated gate outside its refractory period fires whatever the load and the draw if and only if its ceiling is within `max_potential`, or its leak is certain, and never under a sigmoid |
| `ActivationRuns.SaturationIsReached` | runtime/ntl-core/src/activation.rs:346-378 | where the ceiling is out of reach, a full queue of weightless offers and one heavy offer lead from a new gate to a saturated, full one that has never fired |
| `ActivationRuns.FullGateIsStuck` | runtime/ntl-core/src/activation.rs:489-497 | below that, a full step gate without a latency guard fires on no further offer or poll |
| `PotentialRuns.PotentialSinceFire` | runtime/ntl-core/src/activation.rs:346-378 | in every run the potential is the sum of weight times synapse weight over the offers since the last fire, capped at each, 0 right after the fire, and the deadline is that fire's, as long as no restart came since |
| `PotentialRuns.FiresIff` | runtime/ntl-core/src/activation.rs:346-378 | when an offer, a poll or a drain fires, for every function, threshold kind and guard, read off the inputs since the last fire and the queue |
| `PotentialRuns.StepFiresOnContributions` | runtime/ntl-core/src/activation.rs:472-490 | a step gate without the guard fires on an offer only if the contributions since its last fire reach its threshold |
| `PotentialRuns.RestartRecalls` | runtime/ntl-core/src/activation.rs:323-330 | a restart has the threshold, deadline and count of the last checkpoint, its potential within the bounds, and an empty queue |
| `Rng.DrawStream.NextBelow` | runtime/ntl-core/src/rng.rs:54-68 | the result is the slot of the first accepted word, every earlier word was rejected, and a stream with an accepted word ends the loop |
| `Rng.LemireIsUniform` | runtime/ntl-core/src/rng.rs:54-68 | each r below n is hit by exactly floor(2^64 / n) accepted words |
| `Rng.MostWordsAreAccepted` | runtime/ntl-core/src/rng.rs:54-68 | more than half of all words are accepted, for every n |
| `Rng.SplitMix64.NextU64` | runtime/ntl-core/src/rng.rs:105-113 | the state steps by the odd constant modulo 2^64 and the output is the mix of the new state |
| `Rng.MixIsBijective` | runtime/ntl-core/src/rng.rs:105-113 | the output function has a two-sided inverse on 64-bit words |
| `Rng.DrawsAreDistinct` | runtime/ntl-core/src/rng.rs:105-113 | any 2^64 consecutive draws from any seed are pairwise distinct |
| `Rng.EveryStateIsReached` | runtime/ntl-core/src/rng.rs:105-113 | the state walk visits every 64-bit state |
| `Sampling.WalkSlots` | runtime/ntl-core/src/learning.rs:440-450 | the loop that subtracts weights from the target stops at the slot the specification names |
| `Sampling.WalkLandsInSlot` | runtime/ntl-core/src/learning.rs:440-450 | slot s is picked if and only if the target lies in its cumulative interval |
| `Sampling.PickFollowsTheDraw` | runtime/ntl-core/src/learning.rs:434-450 | for a draw in [0, 1) the picked slot is the one whose interval holds the draw's share of the total weight |
| `Sampling.DrawWithoutReplacement` | runtime/ntl-core/src/learning.rs:414-468 | the loop over swap-removed candidates yields the specified picks |
| `Sampling.PicksAreTaken` | runtime/ntl-core/src/learning.rs:414-469 | picks without replacement are a sub-multiset of the candidates, as many as asked for |
| `Sampling.SoftmaxSample` | runtime/ntl-core/src/learning.rs:414-469 | the sampler returns the specified selections, marked explored unless they are the best candidate |
| `Sampling.SoftmaxIsSound` | runtime/ntl-core/src/learning.rs:414-469 | min(k, n) distinct in-range picks with their scores, at most one of them unexplored |
| `Sampling.EpsilonGreedySample` | runtime/ntl-core/src/learning.rs:471-509 | the sampler returns the specified selections |
| `Sampling.EpsilonIsSound` | runtime/ntl-core/src/learning.rs:471-509 | the k - 1 best are always kept and nothing left out outscores them; the last pick explores exactly if more than k compete and the draw is below epsilon, and is then the drawn one outside the k best, otherwise the k-th best |
| `SoftmaxDraws.LengthsFollowScores` | runtime/ntl-core/src/learning.rs:424-446 | of the intervals a draw is compared with, the longer is the higher score's; two are as exp of their score difference over the temperature; the best one's has length 1 |
| `SoftmaxDraws.DrawsByShares` | runtime/ntl-core/src/learning.rs:424-446 | a draw picks a candidate exactly if it falls in that candidate's share, by exp(score / temperature) with nothing subtracted |
| `SoftmaxDraws.SampleByShares` | runtime/ntl-core/src/learning.rs:410-466 | a whole sample is the one those shares give for the same draws, each pick from what the earlier ones left |
| `Sampling.SamplePaths` | runtime/ntl-core/src/learning.rs:387-411 | either policy, sorted by score, with the empty cases returning nothing |
| `Sampling.PathsAreSound` | runtime/ntl-core/src/learning.rs:387-411 | exactly min(k, n) distinct in-range candidates in descending score order, for any draws |
| `Propagation.SelectSynapses` | runtime/ntl-core/src/propagation.rs:256-345 | the loops, the direct short-circuit, the flood and the sample return the specified choices |
| `Propagation.SelectionIsSound` | runtime/ntl-core/src/propagation.rs:256-345 | no choice is ineligible or repeated; order and number are as the scope asks; a flood takes all, a direct peer gets the signal alone |
| `Propagation.EligibleIff` | runtime/ntl-core/src/propagation.rs:256-285 | the eligible are the active and weakening synapses but the arrival's, no lighter than the scope's floor |
| `Propagation.OthersAreSampled` | runtime/ntl-core/src/propagation.rs:286-345 | every other choice is the sampler's, with its scores and what it explores, as wide as the scope asks |
| `Learning.RewardIsCapped` | runtime/ntl-core/src/learning.rs:233-269 | a weight stays in range, only a delivery raises it and by no more than the peer's headroom, and a penalty applies in full down to the floor |
| `Learning.RewardIsExact` | runtime/ntl-core/src/learning.rs:233-269 | a delivery raises a weight by the learning rate times the signal's weight, or what is left of the budget if less, up to the maximum; a timeout lowers it by a quarter of that, a rejection or transport failure by half, a signature failure by all, down to the floor, whatever the budget; and when an update counts as capped |
| `Learning.PenaltyLowers` | runtime/ntl-core/src/learning.rs:276-278 | a signature penalty takes its share of the weight, no further than the floor |
| `Learning.DecayComposes` | runtime/ntl-core/src/learning.rs:286-305 | decaying in two stretches is decaying once: decay may be applied lazily on read |
| `Learning.HalfLivesHalve` | runtime/ntl-core/src/learning.rs:286-305 | over k half-lives a weight is halved k times, down to the floor |
| `Normalization.NormalizeOutbound` | runtime/ntl-core/src/learning.rs:332-342 | the array is rescaled in place to the specified list, and the factor is reported exactly when the total exceeds the budget |
| `Normalization.NormalizationExcess` | runtime/ntl-core/src/learning.rs:332-342 | an excess e shrinks to at most k m e / (W + e) for k floored entries, and to nothing if and only if k = 0 |
| `Normalization.BudgetHeldIff` | runtime/ntl-core/src/learning.rs:332-342 | the result is within budget if and only if no scaled weight is below the floor |
| `Normalization.NormalizedTotalBound` | runtime/ntl-core/src/learning.rs:332-342 | the total after normalisation is at most the budget plus one floor per entry |
| `Normalization.NormalizationIsMonotone` | runtime/ntl-core/src/learning.rs:332-342 | no weight rises or drops below the floor, and weak order is kept |
| `Normalization.ExcessContracts` | runtime/ntl-core/src/learning.rs:332-342 | one more normalisation multiplies the excess by at most n m / W |
| `Normalization.ExcessContractsPower` | runtime/ntl-core/src/learning.rs:332-342 | repetition contracts the excess geometrically |
| `Normalization.ExcessContractsStrictly` | runtime/ntl-core/src/learning.rs:332-342 | where the floors fit the budget the factor is (n - 1) m / W, below one |
| `Normalization.ExcessVanishesIff` | runtime/ntl-core/src/learning.rs:332-342 | repetition brings the excess below every positive bound if and only if n m <= W |
| `OutboundWeights.ListingTotal` | runtime/ntl-core/src/node.rs:642-654 | summing a listing of the table, in any order, gives the table's total |
| `OutboundWeights.TableIsMonotone` | runtime/ntl-core/src/node.rs:642-664 | normalising the table raises no weight and keeps the weak order between any two synapses |
| `OutboundWeights.TableTotalBound` | runtime/ntl-core/src/node.rs:642-664 | the table's total afterwards is at most the budget plus one floor per synapse |
| `Synapses.Synapse.UpdateState` | runtime/ntl-core/src/synapse.rs:500-512 | the state follows the weight, except that Pruned and Forming stand |
| `Synapses.Synapse.ApplyOutcome` | runtime/ntl-core/src/synapse.rs:402-431 | the reward is applied, the weight held under the synapse's maximum, and the state updated |
| `Synapses.Synapse.ApplySignatureFailure` | runtime/ntl-core/src/synapse.rs:434-472 | the penalty, the anchored count, and a prune stamped with the time when the threshold is met |
| `Synapses.Synapse.Reactivate` | runtime/ntl-core/src/synapse.rs:335-340 | only a dormant synapse returns, at its initial weight |
| `Synapses.PruneNeedsABurst` | runtime/ntl-core/src/synapse.rs:434-472 | a prune implies k failures within one influence window |
| `Synapses.BurstForcesPrune` | runtime/ntl-core/src/synapse.rs:434-472 | any 2k - 1 failures within one window prune, whatever came before |
| `Synapses.LateBurstForcesPrune` | runtime/ntl-core/src/synapse.rs:434-472 | 2k - 2 suffice once the clock is past its first window |
| `Synapses.EnoughToPruneIff` | runtime/ntl-core/src/synapse.rs:434-472 | n failures within one window prune every synapse below the threshold if and only if n >= 2k - 1, or n >= k where the window has no length or spans the clock, for every k and window |
| `Synapses.EarlyBurstHolds` | runtime/ntl-core/src/synapse.rs:447-452 | for every k and window, 2k - 2 failures across the end of the first window leave a clear synapse in place |
| `Synapses.LateBurstHolds` | runtime/ntl-core/src/synapse.rs:447-452 | for every k, window and first failure past it, 2k - 3 more within one window leave the synapse in place |
| `Store.MemoryStore.CheckAndSet` | runtime/ntl-core/src/store/memory.rs:215-228 | the answer and the new map: an unexpired sighting stands, anything else is recorded afresh |
| `Store.MemoryStore.PurgeSeen` | runtime/ntl-core/src/store/memory.rs:239-244 | exactly the unexpired entries remain, and the number removed is returned |
| `Store.MemoryStore.ListSynapses` | runtime/ntl-core/src/store/memory.rs:128-155 | every passing record once, heaviest first, ties by id |
| `Store.MemoryStore.AppendDecision` | runtime/ntl-core/src/store/memory.rs:262-278 | the entry is appended under the next id |
| `Store.MemoryStore.ResolveDecision` | runtime/ntl-core/src/store/memory.rs:280-299 | a pending entry takes the outcome and the time, a resolved one is returned as it stands, a missing one is reported |
| `Store.MemoryStore.RecordInfluence` | runtime/ntl-core/src/store/memory.rs:352-370 | the magnitude is logged and the peer's total since the window start returned |
| `Store.ListingHas` | runtime/ntl-core/src/store/memory.rs:142-149 | a listing has exactly the records in the asked states, or all if none is asked, heaviest first and equals by id |
| `Store.ListingIsUnique` | runtime/ntl-core/src/store/memory.rs:142-149 | the order leaves one possible listing of a table |
| `Store.DedupDiffersIff` | runtime/ntl-core/src/store/memory.rs:215-244 | in every run, whatever its readings, a check answers otherwise than the history exactly when a purge at a later reading removed a sighting unexpired for it and none unexpired was accepted since; and then only by forgetting |
| `Store.DedupAnswersFromHistory` | runtime/ntl-core/src/store/memory.rs:215-244 | as long as no purge so far was at a later reading, with the checks at any readings, a check answers true exactly when an accepted sighting is unexpired |
| `Store.OncePerWindow` | runtime/ntl-core/src/node.rs:257-264 | two accepted sightings of one id are at least a dedup window apart |
| `Store.PurgeFromTheFuture` | runtime/ntl-core/src/store/memory.rs:239-244 | a run in which a purge at a later reading forgets a sighting unexpired for the next check |
| `Nodes.Node.NormalizeOutboundWeights` | runtime/ntl-core/src/node.rs:642-664 | the synapse table becomes its normalisation and nothing else changes |
| `Nodes.Node.ApplyOutcomeToSynapse` | runtime/ntl-core/src/node.rs:583-636 | cap, reward, influence record, stamp and normalisation; a missing synapse changes nothing |
| `Nodes.Node.ApplyReceipt` | runtime/ntl-core/src/node.rs:508-542 | only a pending decision for this signal and this peer is resolved and learnt from; an unmatched receipt changes nothing |
| `Nodes.Node.SweepTimeouts` | runtime/ntl-core/src/node.rs:555-579 | the expired decisions, in order, are timed out and learnt from, and counted |
| `Nodes.Node.FailForward` | runtime/ntl-core/src/node.rs:396-416 | the decision is resolved as a transport failure and learnt from if its resolution reads now |
| `Nodes.Node.PlanForwarding` | runtime/ntl-core/src/node.rs:419-497 | a flood at its depth plans nothing; otherwise the selection over the eligible listing, each choice journalled as pending |
| `Nodes.Node.PenalizeSignatureFailure` | runtime/ntl-core/src/node.rs:670-690 | the synapse's record after one more failure, and whether it was pruned |
| `Nodes.Node.UpsertSynapse` | runtime/ntl-core/src/node.rs:695-790 | a new synapse is formed active, a dormant one reactivated, a pruned one re-formed only after its cooldown, any other returned unchanged |
| `NodeRuns.EveryRunIsSound` | runtime/ntl-core/src/node.rs:396-790 | in every reachable state, whatever the configuration: one synapse per peer, journal ids rising, each decision naming its synapse's peer; and all weights in range where the configuration keeps them there |
| `NodeRuns.RangeKeptIff` | runtime/ntl-core/src/config.rs:156-187 | for every configuration validation accepts: all runs keep all weights in range if and only if the initial weight is in range and the synapse's ceiling is no lower than the floor |
| `NodeRuns.ChoicesAreAdmissible` | runtime/ntl-core/src/node.rs:419-497 | what the node chooses from its listing names synapses of its table under their own peers, as every run assumes of a decision |
| `ExactlyOnce.OutcomeIsFinal` | runtime/ntl-core/src/store/memory.rs:280-299 | once an entry has an outcome no later input changes it |
| `ExactlyOnce.ExactlyOnceIff` | runtime/ntl-core/src/node.rs:396-416 | every decision is learnt from exactly once, with its journalled outcome, if and only if no failed forward repeats the reading of its decision's resolution |
| `ExactlyOnce.RisingClockIsExact` | runtime/ntl-core/src/node.rs:508-579 | strictly rising readings make learning exactly-once in every interleaving |
| `ExactlyOnce.SameReadingLearnsTwice` | runtime/ntl-core/src/node.rs:408-415 | a concrete run with equal readings learns a delivery and then a failure from one decision |
| `ExactlyOnce.SweepTimesOutExactly` | runtime/ntl-core/src/node.rs:555-579 | for every limit, a sweep times out a decision if and only if it was pending, made more than a receipt window ago, and fewer than the limit such precede it |
| `ExactlyOnce.ForwardsNameTheirDecisions` | runtime/ntl-core/src/node.rs:466-496 | each planned forward names its own new journal entry, pending, with this signal and its weight, the choice's synapse, peer, score and exploration, and the reading |
| `InfluenceCap.InfluenceIsCapped` | runtime/ntl-core/src/node.rs:583-636 | in any interval of one influence window a peer's recorded rises sum to at most its cap, and all its rises to at most the cap plus one f32 spacing an update |
| `InfluenceCap.WeightRiseIsCapped` | runtime/ntl-core/src/node.rs:583-790 | within one window a peer's synapse ends at most the cap and a spacing an update above where it began or, if the peer reconnected, above the initial weight where that is higher |
| `InfluenceCap.ReconnectionIsUncharged` | runtime/ntl-core/src/node.rs:737-746 | a run in which a reconnection lifts a dormant synapse by more than the cap with nothing charged |
| `InfluenceCap.PenaltyIsNeverSuppressed` | runtime/ntl-core/src/learning.rs:233-269 | a failure's whole penalty is applied down to the floor, whatever influence was used |
| `InfluenceCap.OutcomesAreBudgeted` | runtime/ntl-core/src/node.rs:623-664 | after any input that resolved an outcome the total is at most the budget plus one floor per synapse |
| `InfluenceCap.OthersNeverRise` | runtime/ntl-core/src/node.rs:508-542 | a receipt from one peer raises no other peer's weight |
| `Lessons.EveryLessonIsExact` | runtime/ntl-core/src/node.rs:583-636 | in every run each application of an outcome moved the weight it found by exactly what the outcome teaches with what the peer's earlier applications within one window left of its budget |
| `Lessons.FirstOutcomeTeaches` | runtime/ntl-core/src/node.rs:583-636 | settling a pending decision resolves it, teaches its synapse one such lesson up to its own ceiling with the state that goes with the weight, normalises only over budget, and touches nothing else |
| `Lessons.ReceiptTeaches` | runtime/ntl-core/src/node.rs:508-553 | a receipt anywhere in a run does so for the first decision that awaits it, as delivered or rejected, and nothing if none does |
| `Lessons.FailureCosts` | runtime/ntl-core/src/synapse.rs:434-472 | a signature failure takes its share of the weight down to the floor, counts within the window its first failure opened, prunes and stamps at the threshold and otherwise leaves the state the weight calls for |
| `Lessons.ConnectionGives` | runtime/ntl-core/src/node.rs:695-790 | a connecting peer gets a new active synapse at the initial weight, a pruned one only after its cooldown and with a clear count, a dormant one its own back at the initial weight; any other stands as it was |
| `Cooldowns.PrunedCarriesNothing` | runtime/ntl-core/src/node.rs:695-757 | after a prune no mix of inputs lets a synapse to that peer carry before the cooldown is over |
| `Cooldowns.ReformsIffCooled` | runtime/ntl-core/src/node.rs:716-748 | a reconnection brings a pruned synapse back if and only if its cooldown is over, and is otherwise refused unchanged |
| `Cooldowns.ReformsIffStampCooled` | runtime/ntl-core/src/node.rs:629-748 | a synapse pruned since is re-formed if and only if the cooldown has run from the latest of the prune, later prunes and late outcomes; from the prune itself where there were none |
| `PruneRuns.StandingFollowsFailures` | runtime/ntl-core/src/node.rs:583-790 | in every run a synapse's failure count, window and prune are what its own failures since it was last formed make of a clear one |
| `PruneRuns.PrunedByItsFailures` | runtime/ntl-core/src/node.rs:670-690 | in every run a pruned synapse had k failures within one window since it was last formed |
| `PruneRuns.BurstPrunesInRun` | runtime/ntl-core/src/node.rs:670-690 | in every run enough failures within one window, whatever came between, leave the synapse pruned until it is re-formed |
| `Signals.RelayedSignal.HopOver` | runtime/ntl-core/src/signal.rs:362-367 | ttl falls to no less than zero and the trace grows to no more than its limit |
| `Signals.RelayedSignal.Attenuate` | runtime/ntl-core/src/signal.rs:412-420 | the acknowledged floor applies while ttl remains, and the weight ends in [0, 1] |
| `Signals.RelayedSignal.ClampInbound` | runtime/ntl-core/src/propagation.rs:415-430 | out-of-range headers are brought in range and reported exactly when they were out of range |
| `Signals.ClampedIsWithin` | runtime/ntl-core/src/propagation.rs:415-430 | inbound headers are brought to the nearest allowed value, kept if allowed, and nothing else changes |
| `Network.PropagationQuiesces` | runtime/ntl-net/src/runtime.rs:1156-1206 | no run of the network is longer than the measure of its start, whatever the scheduler, losses and forgotten dedup entries |
| `Network.OneEmissionQuiesces` | runtime/ntl-core/src/signal.rs:362-367 | one emission causes at most 2 (F + 1)^ttl - 1 steps |
| `Network.ForwardedAtMostOnce` | runtime/ntl-core/src/node.rs:257-264 | while dedup entries are live no node releases or refuses an id twice, or does both, and every release is on record |
| `Network.ForgottenForwardsTwice` | runtime/ntl-core/src/node.rs:257-264 | one run in which an expired entry lets a node release an id twice |
| `Network.LinksAreBounded` | runtime/ntl-core/src/propagation.rs:449-454 | a copy crosses at most ttl links, a flood of at most 64 hops at most that many, and no trace repeats a node |
| `Network.GatesStayWithin` | runtime/ntl-core/src/propagation.rs:357-430 | in every run, whatever headers come in, what waits in a gate has a ttl within the node's bound, a weight between its floor and 1, and has not been there before |
| `Network.FloodStopsAtItsDepth` | runtime/ntl-core/src/propagation.rs:432-454 | the depth test holds exactly when the links crossed reach the bound; for bounds over 64 it never holds |
| `Network.HopBoundHoldsIff` | runtime/ntl-core/src/signal.rs:362-367 | every run of a flood, under any rules, respects its bound on hops if and only if the bound is at most 64 or the ttl is no larger |
| `Network.AcknowledgedIsNeverBelow` | runtime/ntl-core/src/propagation.rs:357-375 | under one network-wide floor an acknowledged signal is never refused as below threshold, on any path |
| `Network.FloorCarriesIff` | runtime/ntl-core/src/signal.rs:412-420 | over a link this holds for every signal if and only if the receiver's floor is no higher than the sender's |
| `Handshake.Session.Receive` | runtime/ntl-net/src/runtime.rs:678-771 | one side's checks in order: what it abandons on, what it signs in answer, and whom it accepts |
| `Handshake.HelloAcceptedIff` | runtime/ntl-net/src/runtime.rs:629-654 | a hello passes exactly when it is a Discovery signed by the key it carries, under another identity that is that key's, with a 32-byte challenge |
| `Handshake.AcceptedIff` | runtime/ntl-net/src/runtime.rs:678-771 | for any messages a side gets: it has accepted a key if and only if the first is a hello from it and the second its proof for this side's challenge, and it signs one answer, to the hello, and no more |
| `Handshake.FailureIsFinal` | runtime/ntl-net/src/runtime.rs:724-760 | a message that fails its check ends the handshake: nothing after it is accepted or answered |
| `Handshake.RefusedFor` | runtime/ntl-net/src/runtime.rs:628-660 | which fault each refusal of a hello or a proof reports |
| `Handshake.RecentAliveness` | runtime/ntl-net/src/runtime.rs:678-771 | whoever authenticates an uncompromised peer has authenticated another node, which signed a proof of this challenge after it was generated |
| `Handshake.PeerRanTheProtocol` | runtime/ntl-net/src/runtime.rs:678-771 | if uncompromised keys sign proofs in handshakes only, that peer had itself, after the challenge was generated, verified a hello carrying it in a session of its own |
| `Handshake.HonestPairSucceeds` | runtime/ntl-net/src/runtime.rs:678-771 | two undisturbed nodes under distinct identities authenticate each other |
| `Frames.FrameStream.ReadSignal` | runtime/ntl-net/src/frame.rs:47-70 | a read yields a signal or an error and consumes what the specification says |
| `Frames.FrameStream.WriteSignal` | runtime/ntl-net/src/frame.rs:78-92 | a write appends exactly one frame, or nothing when the encoding is over the maximum |
| `Frames.WriteRefusesIff` | runtime/ntl-net/src/frame.rs:78-92 | a frame is refused exactly when the encoding is over the maximum, and is otherwise its big-endian length and the encoding |
| `Frames.ReadIsOneFrame` | runtime/ntl-net/src/frame.rs:47-70 | a read returns a signal if and only if the stream begins with a frame that decodes to it, and leaves the rest |
| `Frames.FailureSays` | runtime/ntl-net/src/frame.rs:47-70 | every other read says what was wrong - header cut short, nothing or too much claimed, body cut short, body that does not decode - and leaves the stream after what it read |
| `Frames.PrefixReads` | runtime/ntl-net/src/frame.rs:47-93 | any prefix of written frames reads as the signals whose frames are whole, then closed on a boundary or torn header, an I/O error in a torn body |
| `Frames.WholeFramesFill` | runtime/ntl-net/src/frame.rs:78-92 | the whole frames and the bytes left over account for every byte of the prefix |
| `Frames.StreamRoundTrip` | runtime/ntl-net/src/frame.rs:47-93 | reading everything written yields every signal, then a clean end |
| `Runtime.NodeRuntime.ReceiveSignal` | runtime/ntl-core/src/node.rs:248-360 | a duplicate does nothing; otherwise rules, admission and disposition, with the dedup claim kept even on refusal |
| `Runtime.NodeRuntime.ForwardSignal` | runtime/ntl-net/src/runtime.rs:1156-1206 | each forward is sent, hopped and attenuated, or recorded as failed; delivered if and only if one was sent |
| `Runtime.NodeRuntime.ReleaseSignal` | runtime/ntl-net/src/runtime.rs:1075-1147 | one event, the forwards, and the receipt the outcome calls for |
| `Runtime.NodeRuntime.RememberBody` | runtime/ntl-net/src/runtime.rs:1035-1052 | the body is cached, after the backstop evicts the least id from a cache twice the queue |
| `Runtime.NodeRuntime.OnArrival` | runtime/ntl-net/src/runtime.rs:938-1021 | one iteration of the read loop takes the whole state to the specified one |
| `Runtime.NodeRuntime.Poll` | runtime/ntl-net/src/runtime.rs:424-452 | one poll releases the starving batch through the same path |
| `RuntimeRuns.CacheMirrorsQueue` | runtime/ntl-net/src/runtime.rs:1011-1052 | while every input is kept track of (`RuntimeAccount.IsKeptTrackOf`), the cache holds exactly the bodies of queued signals, the backstop never evicts and every release finds its body, however many copies are queued |
| `RuntimeRuns.EveryArrivalIsAnswered` | runtime/ntl-net/src/runtime.rs:938-1147 | in such runs arrivals = one event each + still queued; acknowledged arrivals, by id and origin, = one receipt attempt each, addressed to that origin, + still queued; planned forwards = sent + failed |
| `RuntimeRuns.SoundThroughoutIff` | runtime/ntl-net/src/runtime.rs:938-1052 | where copies of a signal agree on what its signature covers, at every step of a run the cache mirrors the queue, all releases had bodies, and events and receipt attempts account for the arrivals, if and only if every input is kept track of: what it makes leave has no twin in the queue, but for copies of the arrival that leave with its body and are each told of |
| `RuntimeAccount.AccountSurvivesIff` | runtime/ntl-net/src/runtime.rs:938-1052 | from any state whose account holds, with any number of copies queued, the step keeps it if and only if the input is kept track of |
| `RuntimeAccount.PollKeepsAccountIff` | runtime/ntl-net/src/runtime.rs:424-452 | a poll keeps the account exactly when nothing it releases has a twin in the queue, released with it or left behind |
| `RuntimeAccount.ArriveKeepsAccountIff` | runtime/ntl-core/src/node.rs:285-360 | an arrival keeps the account exactly when it is a duplicate, is refused by the rules, or, whatever the gate fires and drops, no other signal that leaves has a twin, and of its own copies none fires if one of them is turned away, at most one if it calls for a receipt and has no route, and otherwise not all of them if one was queued before |
| `Provenance.EverythingArrived` | runtime/ntl-net/src/runtime.rs:938-1101 | in every run whatever is queued or told of came in, under that id, origin and delivery class, and every cached or released body is a signal that came in as it stands and met the propagation rules |
| `RuntimeRuns.NoReadmissionIsHarmless` | runtime/ntl-core/src/node.rs:257-264 | if no signal is admitted again while one with its id is queued, no two queued signals share an id and every input is kept track of |
| `RuntimeRuns.OutlastingWindowSuffices` | runtime/ntl-core/src/node.rs:257-264 | a dedup window that outlasts every stay in the queue rules re-admission out, whatever checkpoints purge |
| `RuntimeRuns.CheckpointForgetsExpired` | runtime/ntl-core/src/store/memory.rs:239-244 | a checkpoint forgets exactly the expired sightings and changes no later answer of the dedup map |
| `RuntimeSteps.DisposeAccounts` | runtime/ntl-core/src/node.rs:285-360 | whatever the gate did, what leaves by a disposition is exactly what it fired and dropped, and the arrival is kept exactly when it is queued |
| `RuntimeLedger.ReceiptsSayWhatHappened` | runtime/ntl-net/src/runtime.rs:1075-1147 | in every run the receipts are those the exits call for, in order, and one reads delivered with nothing sent exactly when the signal had waited in the queue and its plan was empty |
| `RuntimeLedger.NoRouteIsExact` | runtime/ntl-core/src/node.rs:323-350 | in every run the refusals for want of a route are, in order, the acknowledged arrivals that had been here before or fired at once with an empty plan |
| `RuntimeRuns.SecondFindsNoBody` | runtime/ntl-net/src/runtime.rs:1075-1101 | any batch that releases two queued copies under one id, set off by a poll or by another arrival, releases the second without a body |
| `RuntimeRuns.ReadmissionLosesABody` | runtime/ntl-net/src/runtime.rs:1006-1021 | one run in which a dedup entry lapses while its signal is queued, both copies queue, and the guard releases one of them without a body |
| `RuntimeRuns.QueuedCopiesAreAnswered` | runtime/ntl-net/src/runtime.rs:938-1147 | one run in which two copies queue, a third arrival releases two of the three with its own body and a poll the last with the cached one: three events and three receipt attempts to the origin, and nothing left queued or cached |
| `RuntimeWire.EverySentCopyIsOneHopOn` | runtime/ntl-net/src/runtime.rs:1156-1206 | in every run what was sent is, in order, one copy for each sent forward of each exit, of that exit's body with its ttl one lower, the node on its trace while there is room and the attenuated, floored weight; and that body came in |
| `RuntimeWire.NetworkSendsTheSame` | runtime/ntl-net/src/runtime.rs:1173-1180 | such a copy is the one a node of the network model under the same rules puts on the link |
| `RuntimeWire.SentCopiesRunDown` | runtime/ntl-net/src/runtime.rs:1156-1206 | each copy sent has one hop less to go than an arrival with its id, whose trace did not name the node and now does while there is room |
| `RuntimeWire.EveryExitIsLet` | runtime/ntl-net/src/runtime.rs:938-1206 | in every run what an input lets through goes by its planner's plan, over exactly those planned links that are live, in order, with the cause and body that input gives; and what it turns away is turned away for the first rule it fails, for want of room, or for want of a route it calls for |
| `RuntimeWire.CacheIsBounded` | runtime/ntl-net/src/runtime.rs:1035-1052 | in every run, whatever returns while queued, the cache holds at most twice as many bodies as the queue may hold signals |
| `RuntimeWire.RememberedIsBounded` | runtime/ntl-net/src/runtime.rs:1035-1052 | a body is cached as it stands and costs another its place only if the cache is full, and then the least id |

## Left out

- CBOR, Ed25519, BLAKE3 and ULID internals: the codec is any pair of functions with decode undoing encode, signatures are symbolic, identities are any function of the key.
- Floating-point rounding, NaN and infinities: weights are reals, so the branches for non-finite weights and for degenerate softmax totals are not modelled.
- Sampling.SoftmaxSample: the fallback to a uniform draw for a total that is not finite and positive is unreachable over reals and is not modelled.
- Synapses.Synapse.ApplyOutcome: the count of outcomes by signal type that the program updates beside the weight is not modelled, as it only feeds the score.
- Nodes.Node.ApplyOutcomeToSynapse: likewise leaves the count by signal type out.
- Store.MemoryStore.ListSynapses: only the filter by state is modelled; the minimum weight, last-active bound and limit of the filter are used by no caller here.
- Nodes.Node.UpsertSynapse: the peer record stored beside a new synapse is not modelled; nothing here reads it.
- Runtime.NodeRuntime.ForwardSignal: the journal's resolution of failed forwards is `Nodes.Node.FailForward`, in the learning loop, and the event counting the peers reached is not modelled.
- Handshake.PeerRanTheProtocol: a Discovery with a proof in it that the application itself emits is excluded, as the run's hypothesis says; that the peer meant to authenticate this node, rather than another, is not claimed.
- The SQLite and Postgres backends, store errors and poisoned locks: the in-memory store is the baseline and its calls succeed.
- Type affinity, latency and error-rate statistics, and the score itself: a score is any function of a synapse record.
- Nodes.Node.PlanForwarding: the decay applied on read is any function of the record; its own law is `Learning.DecayComposes`.
- The journal's and the influence log's trimming operations: no part of the node calls them.
- Signal history, peer records, learning health, configuration files and defaults: no hard property.
- Lost updates in the learning loop: a receipt, a sweep, a failed forward and a signature penalty are each one atomic step, while the program reads and writes back a synapse over separate store calls with no lock around them (`runtime/ntl-core/src/node.rs:583-636`), so that of two interleaved updates of one synapse one can be lost.
- Sending receipts: an attempt is recorded with the origin it is addressed to; it may go by the arriving peer, or by no one (`runtime/ntl-net/src/runtime.rs:1222-1270`).
- Sockets, tasks, time-outs, session tables and back-off: a step is atomic, and the await points between enqueueing a signal and caching its body are not interleaved.
- Runtime.NodeRuntime.ReceiveSignal: the synapse weight it looks up, the forwarding plan and the liveness of sessions are inputs, so the effect of forwarding failures on weights is proved separately, in the learning loop.
- Handshake.Session.Receive: registering the synapse after authentication, which may refuse a peer in its cooldown, is modelled in `Nodes.Node.UpsertSynapse` only.
- Verification of a signal's origin and the dropping of unverifiable arrivals before routing: only the penalty they cause is modelled.
- The application's own emissions through the runtime: only the decision on them is given, in `Reception.ReceiveLocal`.
- Wrap-around of the gate's and the store's 64-bit counters: counters are unbounded.
- Statistical behaviour of exploration over many decisions: not decided on a single run.
