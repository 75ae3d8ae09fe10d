# Cross-shard payment netting, verified

This project models the cross-shard payment netting pipeline of block-emulator-x and proves what it promises: the
matcher, the Vector-Cut window manager, the batch builder with its two-level Merkle commitments, the Beacon's validator
and store, the Solver with its crashes, and the registry, settlement and fallback operations of the shards. Two smaller
cores stand beside it: PBFT rounds within a shard, and the incremental shard weights of CLPA partitioning.

Code that updates objects in place is modelled by classes and methods with loops (`Group`, `Manager`, `Process`,
`StateDB`, `Account`, `Inbox`, `BeaconDB`, `ConsensusMeta`, `CLPAState`), each proved against functions on values; the
results about whole runs are proved of those functions.

How the parts meet:

1. A `Manager` seals windows that partition the accepted streams (`WindowSeal`, `WindowOrder`, `WindowHistory`).
2. The Solver builds each window into a batch, persists it with its own state and dispatches it (`Solver`,
   `SolverProofs`, `SolverNode`): one chain of batches, whatever crashes.
3. The Beacon accepts each of them in turn (`SolverToBeacon`) and never consumes an intent twice (`BeaconStore`).
4. What the Beacon commits is what shards may confirm (`ConfirmedBatches`), so value is conserved and every part of an
   intent is paid at most once over every run of the shards (`NettingSystem`).
5. On a shard, all records share the storage words of one account (`Slots`, `SlotStorage`, `RegistrySlots`,
   `RegistryAccount`).

`dafny verify dfyconfig.toml` checks everything.

## Model

| member | source | states |
|---|---|---|
| `MatcherRun.MatchWithMode` | pkg/netting/matcher/matcher.go:78-110 | fails exactly on batches with a malformed or repeated intent and otherwise returns the netting that the set of intents determines; in particular no matching-invariant error is ever returned |
| `MatcherRun.Prepare` | pkg/netting/matcher/matcher.go:123-177 | succeeds exactly on acceptable batches and files every intent, in input order, under its unordered shard pair, asset and direction |
| `MatcherRun.ValidateGroup` | pkg/netting/matcher/matcher.go:438-456 | accepts exactly the groups whose two directions are matched by equal totals and whose intents are conserved |
| `Matcher.MatchOrderIndependent` | pkg/netting/matcher/matcher.go:78-110 | permuting the input changes neither acceptance nor the results nor the allocation sequence |
| `Matcher.Group.MatchExact` | pkg/netting/matcher/matcher.go:221-240 | the loop over buckets of equal amounts yields exactly the specified pairing in descending amount and identifier order |
| `Matcher.Group.MatchRemaining` | pkg/netting/matcher/matcher.go:242-312 | the best-fit and split loops over the re-keyed tree yield exactly the specified allocations and leave exactly the specified remainders |
| `Matcher.Group.Draw` | pkg/netting/matcher/matcher.go:272-308 | an item changes its key only while it is outside the tree, and is back in it exactly when something of it remains |
| `Matcher.FindLowerBound` | pkg/netting/matcher/matcher.go:400-409 | finds the smallest amount at or above the wanted one, smallest identifier first, or nothing exactly when there is none |
| `Matcher.LargestSmallestId` | pkg/netting/matcher/matcher.go:411-418 | finds the smallest identifier among the items of the largest amount |
| `MatchingProofs.FullIsMaximal` | pkg/netting/matcher/matcher.go:242-312 | full mode matches, in each direction of every group, exactly the minimum of the two directional totals |
| `MatchingProofs.NeverExhausted` | pkg/netting/matcher/matcher.go:291-308 | in no mode does a split run out of counter intents, so the tree is never found empty |
| `MatchingProofs.TotalBounded` | pkg/netting/matcher/matcher.go:242-312 | no mode matches more than the smaller directional total |
| `MatchingProofs.AllocationBound` | pkg/netting/matcher/matcher.go:221-312 | a group of n intents yields at most n - 1 allocations, in every mode |
| `MatchingProofs.ModesOrdered` | pkg/netting/matcher/matcher.go:88-104 | per group, exact_only matches at most what best_fit matches and best_fit at most what full matches |
| `MatchingProofs.BestFitLeftovers` | pkg/netting/matcher/matcher.go:271-289 | after best_fit every active intent with something left exceeds every counter intent with something left |
| `MatchingProofs.GroupConserves` | pkg/netting/matcher/matcher.go:327-341 | in every mode both directions lose the same total and no intent is overdrawn |
| `WindowSeal.SealKeeps` | pkg/netting/window/manager.go:289-335 | sealing keeps the state true to its past: cuts abut, the window holds exactly the accepted hash-linked blocks between its cuts and exactly their intents, and every accepted intent is pending or assigned to the one window that covers its block |
| `WindowStates.RepresentedIsValid` | pkg/netting/window/state.go:80-240 | every state true to its past, with no block waiting at the next height, passes validateState |
| `WindowStates.CheckState` | pkg/netting/window/state.go:80-240 | the validation loops accept exactly the states that validateState's conditions describe |
| `WindowHistory.ReachableIsValid` | pkg/netting/window/state.go:80-116 | every state reached from New by accepted or rejected receipts, closes and acknowledgements, in any order and number, passes validateState |
| `WindowHistory.SameWatermarks` | pkg/netting/window/manager.go:208-248 | two runs delivered the same conflict-free receipts, in any order and however often, reach the same watermark and hash on every shard |
| `WindowOrder.ArrivalOrderIrrelevant` | pkg/netting/window/manager.go:114-145 | two managers true to their pasts that were delivered the same conflict-free receipts have accepted the same chain on every shard |
| `WindowOrder.ReceiveKeeps` | pkg/netting/window/manager.go:114-145 | accepted or rejected, a receipt leaves the manager true to a past that only grew |
| `WindowManager.New` | pkg/netting/window/manager.go:74-112 | an error exactly on a bad configuration or missing checkpoints; otherwise a manager true to the empty past of its checkpoints |
| `WindowManager.Manager.AddReceipt` | pkg/netting/window/manager.go:114-145 | state, error, window and clock readings are those of the specified step, the invariant is kept and the receipt is recorded as delivered |
| `WindowManager.Manager.Close` | pkg/netting/window/manager.go:147-166 | TryClose between receipts keeps the invariant and seals exactly when the window is full or overdue |
| `WindowManager.Manager.AcknowledgeFrozen` | pkg/netting/window/manager.go:195-206 | removes the oldest window exactly when its number is named, keeps the invariant, and the queue holds the latest windows |
| `WindowManager.Manager.SealWindow` | pkg/netting/window/manager.go:289-335 | the loops over shards, heights and pending intents build exactly the specified window, in the specified order, from Go maps read in any order |
| `WindowManager.Manager.AdvanceStream` | pkg/netting/window/manager.go:208-248 | the loop accepts buffered blocks until the next is missing or unacceptable, as specified, dropping the unacceptable one |
| `WindowManager.Restore` | pkg/netting/window/state.go:32-61 | succeeds exactly on states validateState accepts and resumes from exactly that state |
| `WindowManager.SnapshotRoundTrip` | pkg/netting/window/state.go:32-78 | the snapshot of a manager between calls is always accepted, and the restored manager has the same state and invariant |
| `Model.CanonicalInjective` | pkg/core/intent/intent.go:113-139 | the identifier encoding loses nothing of an intent but its signature |
| `Model.ResultValidIffConstructed` | pkg/netting/model/result.go:27-73 | a result passes Validate exactly when NewIntentResult could have made it |
| `Merkle.Build` | pkg/netting/merkle/tree.go:53-104 | an error exactly on an empty domain or a repeated key; otherwise the levels of the key-ordered leaves |
| `Merkle.Proof` | pkg/netting/merkle/tree.go:114-136 | the path of the leaf with the key, or LeafNotFound exactly when no leaf has it |
| `Merkle.VerifyProof` | pkg/netting/merkle/tree.go:138-149 | the running hash accepts exactly the climbs that end in the expected root |
| `Merkle.ProofsVerify` | pkg/netting/merkle/tree.go:114-149 | for every number of leaves, odd levels included, the proof of each leaf verifies against the root |
| `Merkle.VerifySound` | pkg/netting/merkle/tree.go:138-149 | if no two hashed inputs collide, Verify accepts only payloads of actual leaves, and none against the empty root |
| `Merkle.RootDeterminesPayloads` | pkg/netting/merkle/tree.go:72-104 | if no two hashed inputs collide and payloads are pairwise distinct, equal roots mean equal payload sequences, although odd levels repeat their last node |
| `Merkle.DuplicationCollides` | pkg/netting/merkle/tree.go:84-96 | distinctness is needed: three leaves and the same with the last repeated have one root, for every hash |
| `Packages.PackageSound` | pkg/netting/batch/builder.go:242-274 | if no two hashed inputs collide, a package that verifies against a committing header carries exactly the results committed for its shard and chunk, up to signatures |
| `Packages.PackagesVerify` | pkg/netting/batch/builder.go:169-240 | every package made from committed settlements verifies |
| `Packages.AppendResults` | pkg/netting/batch/builder.go:369-396 | the loop writes exactly the length-prefixed payloads of the results, or fails exactly when one of them is invalid |
| `PackageBuilding.BuildSettlementPackages` | pkg/netting/batch/builder.go:169-240 | succeeds exactly when the header commits to the well-chunked settlements, and returns one package per chunk in shard and chunk order |
| `Builder.BuildBatch` | pkg/netting/batch/builder.go:42-100 | fails exactly on windows that cannot be built and otherwise derives exactly the specified proposal |
| `Builder.CanonicalCuts` | pkg/netting/batch/builder.go:276-291 | the cuts in shard order and their shards, or an error exactly on a negative shard, a backward cut or a repeated shard |
| `Builder.Distribute` | pkg/netting/batch/builder.go:293-345 | every result joins the outgoing side of its source and, if matched, the incoming side of its destination; an error exactly when a shard has no cut |
| `BuilderProofs.BuildableIff` | pkg/netting/batch/builder.go:42-100 | a batch is built exactly from a non-empty window of acceptable intents between shards of good cuts |
| `BuilderProofs.BuiltOrderIndependent` | pkg/netting/batch/builder.go:42-100 | the order of a window's intents and cuts does not reach the proposal |
| `BuilderProofs.BuiltCommitted` | pkg/netting/batch/builder.go:293-345 | a built header commits to exactly the proposal's settlements, one chunk per shard, and its batch identifier and match root are derived from its roots |
| `BuilderExecutes.DirectionsEqual` | pkg/netting/settlement/executor.go:157-209 | in a built batch any two shards send each other equal matched totals of an asset |
| `BuilderExecutes.BuiltExecutes` | pkg/netting/settlement/executor.go:50-138 | a package of a built batch verifies and executes: with its outgoing intents reserved and the escrow backed, no error, insufficient-balance or rollback branch is reachable |
| `BeaconValidator.ValidateProposal` | pkg/netting/beacon/validator.go:40-97 | no error exactly when the proposal follows the tip, its receipts cover its cuts, its intents are fresh and unexpired, and the Builder derives the same batch |
| `BeaconValidator.ValidateReceiptCoverage` | pkg/netting/beacon/validator.go:142-206 | succeeds exactly when the receipts are the consecutive hash-linked heights of every cut from the tip's, and returns their intents and highest epoch |
| `BeaconStore.BeaconDB.Commit` | pkg/netting/beacon/store.go:112-172 | commits exactly unseen batches on the current tip, and then writes block, sidecar, consumed intents and tip together |
| `BeaconStore.BeaconDB.HasIntent` | pkg/netting/beacon/store.go:100-110 | an intent is reported exactly if a committed batch consumed it |
| `BeaconStore.ValidationIsCurrent` | pkg/netting/beacon/validator.go:128-140 | a committed proposal validated at any earlier state was in fact validated at the state it was committed on |
| `BeaconStore.NoIntentTwice` | pkg/netting/beacon/store.go:112-172 | over every history of commits validated at stale states, no two committed batches consume one intent |
| `BeaconStore.CutsChain` | pkg/netting/beacon/validator.go:142-206 | for every shard named in the tip, the receipts of all batches form one gapless hash-linked chain back to the first batch |
| `SolverToBeacon.SolverBatchAccepted` | pkg/netting/beacon/validator.go:40-97 | every batch the Builder makes of a sealed window with unexpired intents is accepted when the tip is the batch before, although the validator rebuilds from receipt order |
| `SolverToBeacon.WindowBuilds` | pkg/netting/solver/node.go:266-300 | a sealed window of well-formed intents to shards of the network always builds |
| `SolverProofs.OneChain` | pkg/netting/solver/node.go:266-300 | over every run of receipts, closes, drains, dispatches, finalizations and crashes that restore the last persisted state, the batches form one chain by hash with windows 1, 2, 3, … |
| `SolverProofs.DispatchedInChain` | pkg/netting/solver/node.go:311-335 | every dispatched proposal is the batch of its window in that chain |
| `SolverProofs.OneContentPerWindow` | pkg/netting/solver/node.go:311-335 | no window number is dispatched with two contents, however often the node crashed in between |
| `SolverProofs.NoIntentInTwoBatches` | pkg/netting/solver/node.go:266-335 | no intent is in two dispatched batches |
| `SolverProofs.PendingIsStored` | pkg/netting/batchstore/store.go:80-99 | every pending identifier, in memory or persisted, has its proposal in the store |
| `SolverProofs.RestoreSucceeds` | pkg/netting/solver/node.go:337-356 | whatever was persisted is accepted by Restore, so no crash leaves the node unable to start |
| `SolverProofs.DispatchedAccepted` | pkg/netting/beacon/validator.go:40-97 | every dispatched batch of unexpired intents is accepted by a Beacon that has committed the batches before it |
| `SolverNode.Process.HandleReceipt` | pkg/netting/solver/node.go:154-178 | whatever the outcome, the handler is a run of the machine's steps; messages of other nodes and shards change nothing, and success means the state is persisted |
| `SolverNode.Process.InitializeManager` | pkg/netting/solver/node.go:227-264 | the manager starts below the lowest receipt of every shard and is given the collected receipts, as steps of the machine |
| `SolverNode.Process.DrainFrozen` | pkg/netting/solver/node.go:266-300 | windows are built, acknowledged and stored with the state one by one, as steps of the machine; without an error none is left |
| `SolverNode.Process.DispatchPending` | pkg/netting/solver/node.go:311-335 | never fails to find its proposal, and sends the oldest pending batch exactly if it was not sent since the process started |
| `SolverNode.Process.HandleFinalized` | pkg/netting/solver/node.go:184-205 | the oldest pending batch leaves the queue and the state is persisted, or an error leaves queue, marks and store as they were |
| `SolverNode.Process.Tick` | pkg/netting/solver/node.go:113-130 | closing, draining and dispatching are steps of the machine |
| `SolverNode.Process.Restart` | pkg/netting/solver/node.go:337-356 | after a crash restore always succeeds and the node resumes exactly the persisted state |
| `SolverNode.SentInOneChain` | pkg/netting/solver/node.go:311-335 | after any handlers, ticks and restarts, what the node has sent lies on one chain and no window number was sent with two contents |
| `Settlements.StateDB.Reserve` | pkg/netting/registry/registry.go:79-125 | the error of the first failing check with an unchanged state, or the reservation with the amount moved to escrow and the nonce advanced |
| `Settlements.StateDB.Consume` | pkg/netting/registry/registry.go:162-187 | marks exactly a reserved intent of the same amount as consumed, with its parts and batch |
| `Settlements.StateDB.CreateFallback` | pkg/netting/fallback/outbox.go:54-93 | once per key, moves the amount out of escrow into a pending outbox entry |
| `Settlements.StateDB.Complete` | pkg/netting/fallback/outbox.go:112-123 | idempotent on created keys, an error on all others |
| `Settlements.StateDB.ExecuteCredit` | pkg/netting/fallback/executor.go:27-77 | the error of the first failing check, or the credit given once per key |
| `Settlements.StateDB.Execute` | pkg/netting/settlement/executor.go:50-138 | the loops and the rollback yield exactly the specified state or the unchanged one, with the same error |
| `SettlementProofs.ApplySettlementKeeps` | pkg/netting/settlement/executor.go:73-138 | an executed settlement keeps escrow equal to the reserved amounts and the shard's value, whatever package passed the checks |
| `NettingSystem.RunConserves` | pkg/netting/settlement/executor.go:50-138 | over every run, with any packages and with messages duplicated and reordered, each shard's escrow equals its reserved amounts and the total of balances, escrow and uncredited fallbacks changes only by counted initial balances |
| `NettingSystem.VerifiedSettles` | pkg/netting/batch/builder.go:242-274 | a package from anyone that verifies against a confirmed header settles what the batch committed to |
| `NettingSystem.CreditedAtMostOnce` | pkg/netting/settlement/executor.go:67-69 | over every run an intent's recipient is credited the matched part at most once and the fallback part at most once, in the whole system |
| `NettingSystem.PartsSumToAmount` | pkg/netting/settlement/executor.go:110-134 | once both parts are credited they sum to the intent's amount and went to its recipient on its destination shard |
| `NettingSystem.CompletedIsCredited` | pkg/netting/fallback/publisher.go:111-139 | a fallback marked completed at its source, on a completion message delivered at any time, has its credit in the log of its destination |
| `ConfirmedBatches.ConfirmEnabled` | pkg/chain/settlement.go:24-47 | every batch of a Beacon's history is well formed, fresh and disjoint from those confirmed before it, in any order of confirmation |
| `ConfirmedBatches.FedIsRun` | pkg/netting/beacon/store.go:112-172 | every run whose confirmations come from a Beacon's history is a run of the settlement system, so its results hold of whatever the Beacon commits |
| `ConfirmedBatches.BeaconExactlyOnce` | pkg/netting/settlement/executor.go:67-69 | over every run fed by a Beacon's history no part of an intent is credited twice |
| `ConfirmedBatches.BuiltWellFormed` | pkg/netting/batch/builder.go:293-345 | the batch of a Builder's proposal lists valid results by identifier and commits to settlements made of them |
| `SettlementInbox.Inbox.AddPackage` | pkg/netting/settlement/inbox.go:74-94 | a package of this shard is in the pool or waits for its root; no chunk is in the pool twice and everything there carries its confirmed header |
| `SettlementInbox.Inbox.Confirm` | pkg/netting/settlement/inbox.go:52-72 | on success every package that waited for the root is in the pool and no other waiting package is touched |
| `SettlementInbox.Inbox.ConfirmMatchRoot` | pkg/chain/settlement.go:24-47 | only headers derived from their roots are confirmed, and a confirmed root is never replaced |
| `Slots.PreimageInjective` | pkg/netting/registry/registry.go:229-243 | no two of the thirteen kinds of slots on the registry account are derived from the same bytes |
| `SlotStorage.RecordPreimageInjective` | pkg/netting/fallback/outbox.go:176-183 | the bytes a record key is derived from determine the fallback key |
| `SlotStorage.CollisionFreeSound` | pkg/netting/fallback/outbox.go:176-216 | if the hash does not collide on the bytes hashed for slots and records in use, no two of them share a word |
| `SlotStorage.CreateRepresents` | pkg/netting/fallback/outbox.go:73-92 | the words Create writes hold the outbox with the new item at its end and all others intact |
| `SlotStorage.Reassembles` | pkg/netting/fallback/outbox.go:129-147 | 32-byte chunks read back and cut to the stored length are the bytes that were stored |
| `RegistrySlots.ReserveRefines` | pkg/netting/registry/registry.go:112-124 | the words Reserve writes hold exactly the new reservation and nonce beside the old ones, and touch no other slot |
| `RegistrySlots.ConsumeRefines` | pkg/netting/registry/registry.go:162-187 | the words Consume writes hold exactly the consumed reservation beside the old ones, and touch no other slot |
| `RegistrySlots.ReadsBack` | pkg/netting/registry/registry.go:127-152 | reading the words of an intent gives its reservation, or not-found exactly when there is none |
| `RegistryAccount.EmptyHolds` | pkg/netting/registry/registry.go:75-77 | storage without any word stands for a shard before any netting |
| `RegistryAccount.ReserveHeld` | pkg/netting/registry/registry.go:79-125 | reserving on words keeps the outbox and all marks of the shared account |
| `RegistryAccount.AppendHeld` | pkg/netting/fallback/outbox.go:54-93 | creating a fallback on words keeps reservations, nonces and all marks of the shared account |
| `RegistryAccount.Account.Reserve` | pkg/netting/registry/registry.go:79-125 | on storage words, the same error and the same abstract state as the operation on maps |
| `RegistryAccount.Account.Consume` | pkg/netting/registry/registry.go:162-187 | on storage words, the same error and the same abstract state as the operation on maps |
| `RegistryAccount.Account.Create` | pkg/netting/fallback/outbox.go:54-93 | on storage words, the same error and the same abstract state as the operation on maps and an ordered list |
| `RegistryAccount.Account.Complete` | pkg/netting/fallback/outbox.go:112-123 | on storage words, the same error and the same abstract state as the operation on maps |
| `RegistryAccount.Account.ListPending` | pkg/netting/fallback/outbox.go:95-110 | exactly the created and uncompleted items in the order of creation, with their payloads intact |
| `RegistryAccount.Account.MarkExecuted` | pkg/netting/settlement/executor.go:247-253 | marks exactly the chunk as executed and keeps everything else the account holds |
| `RegistryAccount.Account.IsExecuted` | pkg/netting/settlement/executor.go:140-147 | the mark of a chunk is set exactly if the chunk was executed |
| `RegistryAccount.Account.MarkCredited` | pkg/netting/fallback/executor.go:70-74 | marks exactly the fallback as credited and keeps everything else the account holds |
| `Pbft.Agreement` | consensus/pbft/pbftmeta.go:85-174 | with 3f + 1 nodes of which at most f are faulty and no catch-up, no two correct nodes finish one view and sequence with different digests, under any message schedule |
| `Pbft.QuorumsMeetIff` | consensus/pbft/pbftmeta.go:59-83 | quorums of the configured fault bound are sure to share a correct node exactly when the number of nodes is one more than a multiple of three |
| `PbftDisagreement.DisagreementPossible` | consensus/pbft/pbftmeta.go:59-83 | with more than three nodes whose number is not one more than a multiple of three there is an execution with a faulty leader and no more faults than configured in which two correct nodes finish one round with different digests |
| `PbftNode.ConsensusMeta.CurateMsg` | consensus/pbft/pbftmeta.go:85-131 | takes the leader's proposal if there is one and none yet, and counts exactly the senders of agreeing votes |
| `PbftNode.ConsensusMeta.HandleMsg` | consensus/pbft/node.go:275-356 | out-of-date messages change nothing and all others join the queue of their kind |
| `PbftNode.ConsensusMeta.StepStages` | consensus/pbft/node.go:422-473 | the stage loop has exactly the specified outcome: round, broadcasts and decision |
| `PbftNode.PriorityQueue.ReadMsgs` | consensus/pbft/basicstructs/pool.go:24-106 | removes and returns exactly the messages that are not later than the given view and sequence |
| `Clpa.IncrementalIff` | pkg/partition/clpa.go:107-124 | from exact weights, the incremental update after a move is exact if and only if the moved account has no edge to itself |
| `Clpa.SelfEdgeBreaks` | pkg/partition/graph.go:31-40 | after AddEdge(u, u) a move of u leaves wrong weights, whatever the rest of the graph |
| `Clpa.SelfEdgeExample` | pkg/partition/clpa.go:107-124 | one account that pays itself and moves from shard 0 to 1 leaves scaled weights -2 and 0 where 0 and 2 are right |
| `Clpa.AddEdgeSymmetric` | pkg/partition/graph.go:31-40 | adding any edge keeps every edge listed at both ends equally often |
| `ClpaRun.CLPAState.ComputeEdges2Shard` | pkg/partition/clpa.go:68-105 | the weights computed are the exact ones, in whatever order the lists are read |
| `ClpaRun.CLPAState.ChangeShardRecompute` | pkg/partition/clpa.go:107-124 | the loop adds and subtracts exactly the specified amounts |
| `ClpaRun.CLPAState.Move` | pkg/partition/clpa.go:126-193 | counts stay true, no shard is emptied, and exact weights stay exact if the account has no edge to itself |
| `ClpaRun.CLPAState.CLPAPartition` | pkg/partition/clpa.go:126-193 | weights are exact at the end, counts are true, no shard is emptied, and the result lists exactly the accounts that moved, with their final shard |

## Left out

- SHA-256 is a parameter: soundness results assume that no two of the byte strings actually hashed collide.
- Identifiers, hashes and addresses are bounded naturals; bytes.Compare on them is numeric order (`ByteStrings.LexIsNumeric`).
- A nil `big.Int` is a negative amount; both fail the same checks. Nil and empty slices are identified.
- 256-bit amounts do not overflow on addition; heights stay below 2^64 - 1 and encoded lengths below 2^32.
- Go map iteration is any listing of the keys, the B-tree is its ordered key sequence, and a heap pop is any minimal item.
- The clock does not go back; system addresses are not users' addresses.
- The gob encoding of outbox items is assumed to decode to what was encoded; Bolt transactions are atomic writes.
- ReservationExpired is never written by the code and is not modelled.
- The registry's error for a reservation of another amount is reported as InvalidStatus.
- Settlement and credit execution are proved on the shard state; on storage words only their marks and the registry and outbox operations they are made of.
- NettingSystem: fallback items come from some shard's outbox, and every shard sees a batch confirmed at the same moment.
- SolverNode: sending is the log of dispatched proposals; a window number or height beyond 64 bits stops the drain.
- Pbft.Agreement: no catch-up, no view change, senders sign with their own name, and whether a proposal is valid is any answer.
- ClpaRun.CLPAState.CLPAPartition: the scores that pick a target shard are any choice among the neighbours' shards, and the returned number of cross-shard edges is omitted.
- PackageBuilding.BuildSettlementPackages: builds a shard's chunk tree again for its proofs instead of keeping it.
- Network, metrics, supervisor, transaction pools, EVM, tries, relay and broker transactions, account migration and configuration.
- Signatures are never checked by the code and carry no obligation here.
- Liveness: republishing intervals and that messages arrive.
