# qeth wallet: a model of its stateful core, with proofs

qeth is a desktop wallet for EVM chains and Tron. This project models the parts of it that keep state over whole
runs, or that must agree with a much simpler specification, and proves that they do. Each source component is one
module; code that changes things in place is a class or a method with loop invariants, proved against functions on
which the properties are then proved; code shared between threads or coroutines is a step system whose steps are the
locked blocks (or await-free segments) of the source, with an inductive invariant and consequences for whole runs.

| module | component |
|---|---|
| `ForkDb`, `StateReader` | the lazily filled state database behind transaction preview, and the memoising reader and prefetch under it |
| `TxSaver`, `TxMerge` | the coalescing background writer and the merge of transaction histories |
| `RpcChains`, `RpcHistory`, `RpcOvertaking`, `AddChain` | what chain each dapp sees, and coalesced "add network" prompts |
| `StoreSave`, `StoreAccounts` | numbered snapshots and writes of the settings file; the account table with its default per family |
| `AbiTypes`, `MultiSend`, `ProxyAbi` | signature types, Safe's packed batches, and ABI resolution through proxies |
| `Address` (with `Radix`, `Text`) | base58 and Tron addresses |
| `Multicall` | batched reads in chunks, each stamped with its own height |
| `TxActivity` | the activity column built in four passes |
| `UnlockCache` | the one unlocked hot wallet, its clock and its timers |
| `DeviceService` | the single device thread |

The first result of each component, in one sentence:

* For every reader and every run of reads, writes and checkpoints, the lazy database answers as an eager snapshot with
  one ordinary journal does, and its marker journal has the value journal's checkpoints and marks exactly what is held.
* Whatever a hint says and whichever seed requests fail, a later read gives exactly the number, account or code that the
  node's answers write, and no key is answered twice.
* In every interleaving of submitter and worker, what `flush` or `close` leaves written for each view is the last
  snapshot submitted.
* Once all broadcasts are through, every subscription of a dapp last saw the chain the server reports for it, in every run
  in which no dapp leaves or pins a chain while a broadcast is in the middle of telling it; and a broadcast is overtaken
  only by such an event. That chain is the one the dapp last switched to, else the last one picked in the wallet.
* At most one prompt per chain id is open, those who shared it share its answer, and only what it showed is stored.
* While writes succeed the settings file always holds the last numbered snapshot and every saved change.
* Parsing a printed type rebuilds its ABI tree and printing that tree gives the text back, for all type trees.
* Nested ABI merging equals one deduplication of the flat depth-first list, on any proxy graph, fetching no address twice;
  overloads are kept and only repetitions dropped.
* Base58 decoding and encoding undo each other both ways, and a Tron address is 34 characters starting with "T".
* A batched call has the result it would have alone, with its own chunk's height.
* The emitted activity batches, overlaid in order, are the returned dictionary, which no completion order changes, and a
  row shows as out what the viewer sent and as in what it received.
* An unlocked key is returned exactly while it is the installed one and its age is at least zero and below the TTL.
* Device jobs run one at a time in submission order, and none is left behind when the worker exits.

## How to read the step systems

`State` holds the shared fields together with what each thread is in the middle of; `Enabled` and `Apply` give the
steps; `Runs(s, es, t)` says that the steps `es` lead from `s` to `t`. A class beside it carries the same fields, and
each of its methods is shown to perform exactly one step; every kind of step has its method, those of the environment
included (a timer going off, a user's answer, a caller cancelling), but for the clock, which is an argument, and a
submission after `close`, which changes nothing. Fields marked `ghost` in those classes are history or another thread's
position, which the source does not store.

## Where the code and its comments disagree

The comment at the head of `qeth/pyevm_fork.py` (lines 20-22) says a slot seeded inside a reverted frame is not fetched
again. The code reverts the "already seeded" marker together with the value, so the slot is read again, through the
reader's memo. The model follows the code: `ForkDb.SeedRevertsWithFrame` states it, and `ForkDb.ForkAccountDb.GetStorage`
states that such a second read makes no new request.

Chain broadcasts can overtake each other. A broadcast goes over the sockets in one order and over a socket's list in
another, both fixed, stops at the first subscription that matches, and waits its turn there; so a later one passes an
earlier one only where that is held in a send to a subscription the later does not tell (`RpcChains.ScanMeaning` and
`RpcChains.PassesExactly`, both ways). That takes an event that hits the earlier one in its send: the subscription it is
telling, or one it has still to tell on that socket, leaves, or the dapp it is telling pins a chain of its own
(`RpcChains.OvertakenLostItsPlace`, `RpcChains.PlaceLostUncleanly`). In every run without such an event all dapps end up
to date (`RpcChains.SubscribersSeeTheirChain`). Neither kind of event could be left out of that condition: with one
unsubscription a dapp ends on an old chain (`RpcOvertaking.OvertakingBreaks`), and so it does with one switch, even when
all dapps share a socket (`RpcOvertaking.OvertakingOnOneSocket`). When two broadcasts do reach a dapp the wrong way round,
it ends up to date exactly when they carry the same chain (`RpcChains.Overtaken`).

Three properties hold only under a condition, which is proved exact:

* A `wallet_switchEthereumChain` request without an origin is announced to every subscriber. Subscribers keep seeing
  their own chain exactly when all of them were on that chain already (`RpcChains.OriginlessSwitch`, with a concrete
  failure in `RpcOvertaking.OriginlessSwitchBreaks`).
* `set_default_account` does not look the account up. The account table stays sound exactly when the named record
  exists and works on that family (`StoreAccounts.DefaultMustExist`, with a concrete failure in
  `StoreAccounts.MissingDefaultBreaks`).
* The settings file's sequence number advances before the write, so one failed write can make an older save return
  without reaching the disk (`StoreSave.FailedWriteLosesAnother`). A change is in the file exactly when the last write
  that reached the disk was of a snapshot numbered at or above the first one taken after the change
  (`StoreSave.SavedExactlyWhen`).

## Model

| member | source | states |
|---|---|---|
| `ForkDb.LazyRefinesEager` | qeth/pyevm_fork.py:401-445 | for every reader and every run from empty, each operation answers as the eager snapshot with one journal does, and the marker journal stays in lockstep with the value journal |
| `ForkDb.LazyEqualsEager` | qeth/pyevm_fork.py:413-425 | with the reader reachable throughout, the two give equal answers |
| `ForkDb.StepSimulates` | qeth/pyevm_fork.py:413-445 | one operation keeps the simulation at every outstanding checkpoint and answers alike, or fails only because the reader could not be reached |
| `ForkDb.RunSimulates` | qeth/pyevm_fork.py:413-445 | the simulation holds through any run from any pair of states it holds for |
| `ForkDb.SetLockstep` | qeth/pyevm_fork.py:427-432 | a write or seed puts value and marker at the same checkpoint, whatever the value, zero included |
| `ForkDb.CommitViews` | qeth/pyevm_fork.py:439-441 | committing to any outstanding checkpoint keeps all that was visible and leaves the levels below alone |
| `ForkDb.DiscardViews` | qeth/pyevm_fork.py:443-445 | discarding to any outstanding checkpoint restores what was visible when it was recorded |
| `ForkDb.SeedRevertsWithFrame` | qeth/pyevm_fork.py:401-445 | a slot first read inside a frame is forgotten, value and marker, when the frame is discarded |
| `ForkDb.ForkAccountDb.GetStorage` | qeth/pyevm_fork.py:413-425 | performs the model's read over the memoising reader; a slot not held is seeded with exactly the number the node's answer writes, zero for a missing or empty one; a held slot, or one already in the memo, makes no request |
| `ForkDb.ForkAccountDb.SetStorage` | qeth/pyevm_fork.py:427-432 | performs the model's write |
| `ForkDb.ForkAccountDb.RecordCheckpoint` | qeth/pyevm_fork.py:434-437 | both journals record the same new checkpoint |
| `ForkDb.ForkAccountDb.CommitCheckpoint` | qeth/pyevm_fork.py:439-441 | both journals commit to the checkpoint, or neither is touched when it is unknown |
| `ForkDb.ForkAccountDb.DiscardCheckpoint` | qeth/pyevm_fork.py:443-445 | both journals go back to the checkpoint, or neither is touched when it is unknown |
| `StateReader.StorageKeyExact` | qeth/pyevm_fork.py:178-183 | two storage reads share a memo entry exactly when they are of one slot of one account, however the address is cased |
| `StateReader.HexQuantityShape` | qeth/pyevm_fork.py:178-183 | the slot parameter is `0x` and hexadecimal digits without a leading zero, writing that slot |
| `StateReader.StorageOfExactly` | qeth/pyevm_fork.py:178-183 | an answer is read as n exactly when it writes n in base 16 after an optional prefix, or nothing is written and n is 0 |
| `StateReader.CodeOfExactly` | qeth/pyevm_fork.py:168-176 | an answer is read as a code exactly when it is the hexadecimal text of those bytes after its first two characters, or missing or empty and the code empty |
| `StateReader.RpcStateReader.Rpc` | qeth/pyevm_fork.py:162-166 | a memoised answer is the node's own and costs nothing; a new one is asked for once |
| `StateReader.RpcStateReader.GetStorage` | qeth/pyevm_fork.py:178-183 | whatever the memo holds, an answered read gives n exactly when the node's answer for that address, slot and block writes n in base 16, or is missing, empty or `0x` and n is 0 |
| `StateReader.RpcStateReader.GetAccount` | qeth/pyevm_fork.py:168-176 | whatever the memo holds, an answered account is the balance, nonce and code that the node's three answers write; a static account is empty and asks nothing |
| `StateReader.RpcStateReader.PlanSeed` | qeth/pyevm_fork.py:288-309 | the loops of the seed planner compute the keys the hint asks for, within the cap |
| `StateReader.RpcStateReader.Prefetch` | qeth/pyevm_fork.py:185-201 | for every hint and every failing subset, the memo gains exactly the answered planned keys, each one the node's answer, and at most 512 of them |
| `StateReader.RpcStateReader.SeedAll` | qeth/pyevm_fork.py:310-334 | each planned key is asked for once and stored only when answered |
| `StateReader.AddKeysPlan` | qeth/pyevm_fork.py:280-286 | a plan never repeats a key, asks for none already held, stays within the cap, and below it covers all that was wanted |
| `StateReader.HintedSlotIsRead` | qeth/pyevm_fork.py:305-309 | a hinted slot, however spelled, is seeded under the very key the lazy read uses |
| `StateReader.HintedSlotIsSeeded` | qeth/pyevm_fork.py:267-309 | below the cap, a slot named by the last entry about an account is held or planned |
| `StateReader.ParsedHint` | qeth/pyevm_fork.py:267-309 | a hint whose slots all write numbers is planned from |
| `StateReader.SeededAccounts` | qeth/pyevm_fork.py:288-309 | below the cap, the sender, the target and every hinted account that is not static have balance, nonce and code held or planned |
| `StateReader.OnlyHintedSeeded` | qeth/pyevm_fork.py:288-309 | nothing is planned for an account that is neither sender, target nor hinted |
| `TxSaver.DrainsAndWritesInOrder` | qeth/transactions_cache.py:229-249 | in every interleaving a pending view has exactly one drain promised and any other none, and a view's writes follow the order of its submissions |
| `TxSaver.FlushedMeansWritten` | qeth/transactions_cache.py:251-262 | when `flush` or `close` returns, the last snapshot written for each view is the last one submitted |
| `TxSaver.WaitingEnds` | qeth/transactions_cache.py:251-262 | until `flush` or `close` may return the worker has a step to take, and each leaves less to do |
| `TxSaver.WritesOnlyGrow` | qeth/transactions_cache.py:242-249 | no step undoes a write |
| `TxSaver.SubmittedAsCalled` | qeth/transactions_cache.py:229-235 | what counts as submitted is what callers submitted, in order, each under its chain and lower-cased address |
| `TxSaver.SubmissionsAreTaken` | qeth/transactions_cache.py:229-262 | in every run a submission is taken exactly until `close` begins, and ignored from then on |
| `TxSaver.StepKeeps` | qeth/transactions_cache.py:219-262 | every step keeps: one drain per pending view, nothing lost, writes in order, the flush marker last |
| `TxSaver.AsyncTransactionSaver.SubmitTable` | qeth/transactions_cache.py:229-235 | the locked half of `submit` is one step |
| `TxSaver.AsyncTransactionSaver.SubmitQueue` | qeth/transactions_cache.py:236-240 | a drain is queued unless one is promised already |
| `TxSaver.AsyncTransactionSaver.TakeNext` | qeth/transactions_cache.py:219-227 | the one worker takes the oldest job; a flush's marker lets that flush return |
| `TxSaver.AsyncTransactionSaver.DrainTable` | qeth/transactions_cache.py:242-244 | the locked half of `_drain` takes the newest snapshot, if there is one |
| `TxSaver.AsyncTransactionSaver.HandOverWrite` | qeth/transactions_cache.py:245-249 | the write of what a drain took is one step |
| `TxSaver.AsyncTransactionSaver.BeginFlush` | qeth/transactions_cache.py:251-257 | `flush` queues its marker behind every drain |
| `TxSaver.AsyncTransactionSaver.BeginClose` | qeth/transactions_cache.py:259-262 | `close` shuts out later submissions before it waits |
| `TxSaver.AsyncTransactionSaver.EndFlush` | qeth/transactions_cache.py:251-257 | `flush` returns once its marker was passed |
| `TxSaver.AsyncTransactionSaver.EndClose` | qeth/transactions_cache.py:259-262 | `close` returns once the worker has nothing left |
| `TxMerge.MergeTxs` | qeth/transactions_cache.py:73-94 | the loop and sort compute the merge specified and characterised below |
| `TxMerge.MergeMeaning` | qeth/transactions_cache.py:73-94 | the merge is descending by nonce, or by timestamp where there is no nonce, a permutation of the fetched rows and the unseen cached ones, and stable on ties |
| `TxMerge.MergeIdempotent` | qeth/transactions_cache.py:73-94 | merging the same fetch again gives the same list |
| `TxMerge.SortIsStable` | qeth/transactions.py:91-96 | the sort is descending, a permutation, and keeps each group of equal keys as it was |
| `TxMerge.StableSortUnique` | qeth/transactions_cache.py:93-94 | there is only one descending list with given groups of ties |
| `RpcChains.SubscribersSeeTheirChain` | qeth/rpc.py:678-748 | in every run of picks, switches, sockets, subscriptions and sends, in which no subscription leaves or is pinned while a broadcast is in a send to it (or has it listed there), once all is through every subscription of a dapp last saw the chain reported for that dapp |
| `RpcChains.StepKeeps` | qeth/rpc.py:698-748 | every such clean step keeps broadcasts in order and every dapp coherent: it has seen, or is last to be told, its own chain |
| `RpcChains.StepSound` | qeth/rpc.py:605-618 | every step at all keeps the listings and the broadcasts sound: they start in the order made, their sends ask for a lock one at a time, and the last of each kind carries the chain reported |
| `RpcChains.ScanMeaning` | qeth/rpc.py:726-745 | from where it is, a broadcast stops at the first matching subscription, in socket order and then in listing order, and is through exactly when there is none |
| `RpcChains.PassesExactly` | qeth/rpc.py:726-745 | a broadcast passes a socket ahead of it exactly when nothing matches on its way up to and including that socket |
| `RpcChains.OvertakenLostItsPlace` | qeth/rpc.py:498-511 | in any state of any run, a broadcast overtakes an earlier one of its kind only when a subscription that one is telling, or has still to tell there, is unlisted or pinned |
| `RpcChains.PlaceLostUncleanly` | qeth/rpc.py:678-696 | and that comes only of an unsubscription or a switch that hit that broadcast in its send |
| `RpcChains.Overtaken` | qeth/rpc.py:498-511 | when two broadcasts reach a coherent dapp the later first, it ends up to date exactly when both carry the same chain |
| `RpcOvertaking.OvertakingBreaks` | qeth/rpc.py:723-745 | a run from a fresh server, on two sockets and with one unsubscription, that leaves a dapp on a chain no longer reported |
| `RpcOvertaking.OvertakingOnOneSocket` | qeth/rpc.py:498-511 | the same on one shared socket, with one switch |
| `RpcChains.NeverStuck` | qeth/rpc.py:498-511 | while a broadcast is not through, some broadcast can start or make its send |
| `RpcChains.CoherentUnderSwitch` | qeth/rpc.py:919-939 | a switch pins its own dapp, which is told by the broadcast it begins, and disturbs no other |
| `RpcChains.NewcomerCoherent` | qeth/rpc.py:678-691 | a new subscription starts from the chain reported for it, and the later broadcasts of its kind find it if any does |
| `RpcChains.CoherentUnderDeliver` | qeth/rpc.py:730-745 | a send leaves every dapp coherent, the one it tells included |
| `RpcChains.ReportedChainIsEvm` | qeth/rpc.py:515-525 | in every run the chain reported for any origin is a known EVM chain |
| `RpcChains.DappIsRemembered` | qeth/store.py:455-465 | the chain dapps see by default is the remembered one, which is the current one whenever that is EVM |
| `RpcChains.StoreKept` | qeth/store.py:473-479 | picking a chain keeps: a current EVM chain is also the dapp chain |
| `RpcHistory.ReportedIsDue` | qeth/rpc.py:515-525 | in every run the chain reported for a dapp is the one it last switched to, else the EVM chain last picked in the wallet, else the one remembered at the start, read off the history of the run alone |
| `RpcHistory.SubscribersSeeWhatIsDue` | qeth/rpc.py:678-748 | in every clean run, once all broadcasts are through, every subscription of a dapp last saw exactly that chain |
| `RpcHistory.KnownAfterRun` | qeth/rpc.py:919-921 | in every run a switch to a chain is accepted exactly when it was an EVM chain from the start or has been added |
| `RpcHistory.AddThenSwitch` | qeth/rpc.py:919-925 | once a network was added, a dapp's switch to it is accepted, and it stays the chain reported to that dapp until the dapp switches elsewhere |
| `RpcHistory.AddThenPick` | qeth/store.py:473-479 | once a network was added, a pick of it in the wallet is what every dapp that never switched is reported, until the next pick |
| `RpcHistory.DappChainMeaning` | qeth/store.py:448-465 | whatever the settings file holds, the current chain is the first with the current id, else the first; dapps see it when it is EVM, else the remembered EVM chain, else the first EVM one, else the current one |
| `RpcHistory.ListingStep` | qeth/rpc.py:678-696 | a subscription is listed from when it is made until it is dropped, on its socket and under its origin |
| `RpcChains.OriginlessSwitch` | qeth/rpc.py:698-748 | once a switch without an origin is delivered to all, every dapp is up to date exactly when each was on that chain already |
| `RpcOvertaking.OriginlessSwitchBreaks` | qeth/rpc.py:919-939 | a clean run from a fresh server in which such a switch leaves a dapp shown a chain the server does not report |
| `RpcChains.RpcServer.SetCurrentChain` | qeth/store.py:473-479 | picking a chain is one step: an EVM pick is also remembered for dapps |
| `RpcChains.RpcServer.GetCurrentChain` | qeth/store.py:448-453 | the loop finds the chain with the current id, else the first |
| `RpcChains.RpcServer.GetDappChain` | qeth/store.py:455-465 | the loops find the specified chain for dapps |
| `RpcChains.RpcServer.ReportChain` | qeth/rpc.py:515-525 | the reported chain is the origin's own, else the dapp chain |
| `RpcChains.RpcServer.AnnounceChain` | qeth/ui.py:1709-1727 | announcing a pick is one step: a broadcast is queued exactly when the wallet is on an EVM chain |
| `RpcChains.RpcServer.NextSend` | qeth/rpc.py:726-745 | the two loops, taken up anywhere, run on to the specified next send |
| `RpcChains.RpcServer.FirstSend` | qeth/rpc.py:723-726 | without sockets there is nothing to send; else the loops begin at the first |
| `RpcChains.RpcServer.SwitchChain` | qeth/rpc.py:919-935 | a switch runs on to its broadcast's first send in one step, and raises exactly when the chain is not a known EVM one |
| `RpcChains.RpcServer.OpenSocket` | qeth/rpc.py:689-690 | a socket is listed from its first subscription on, after those listed before |
| `RpcChains.RpcServer.RegisterSubscription` | qeth/rpc.py:678-691 | a subscription is listed last on its socket, under a new id |
| `RpcChains.RpcServer.UnregisterSubscription` | qeth/rpc.py:692-696 | a subscription is unlisted, its socket staying listed |
| `RpcChains.RpcServer.StartBroadcast` | qeth/rpc.py:723-745 | a broadcast lists the sockets when it starts, not when it is scheduled, and runs on to its first send |
| `RpcChains.RpcServer.DeliverAndGoOn` | qeth/rpc.py:498-511 | a send through, the broadcast runs on in the same step and asks for the next lock behind those waiting |
| `RpcChains.RpcServer.AddChain` | qeth/store.py:658-663 | an unknown chain id joins the list, at its end and as an EVM chain |
| `AddChain.PromptsAreShared` | qeth/rpc.py:941-993 | in every interleaving at most one prompt per chain id is open, requests that shared one end alike (added, declined or failed), and what is stored through one is what it showed |
| `AddChain.ArrivalMeaning` | qeth/rpc.py:941-984 | in every run a request that arrives is answered as known, refused for its URLs, or added without asking, in that order of precedence; else it joins the one open prompt for its chain, and opens one exactly when there is none |
| `AddChain.EndedRightly` | qeth/rpc.py:941-993 | in every interleaving a request ends as known or added only for a stored network, as refused exactly when its URLs are unsafe and the network was not known, and otherwise just as its prompt was answered |
| `AddChain.OnlyShownEntriesLand` | qeth/rpc.py:1094-1117 | a request stores a network only by the approval of exactly what the prompt showed |
| `AddChain.WaiterStoresNothing` | qeth/rpc.py:974-993 | a requester that joined a prompt finds its chain stored and changes nothing |
| `AddChain.StepKeeps` | qeth/rpc.py:941-993 | every step keeps the prompt table, the requests and the store consistent |
| `AddChain.EntriesStay` | qeth/store.py:658-663 | a stored network keeps its entry through every run |
| `AddChain.ShownKept` | qeth/rpc.py:974-993 | a network stored through a prompt stays that prompt's, as shown |
| `AddChain.ChainAdder.AddToStore` | qeth/store.py:658-663 | a known chain id keeps its entry, a new one is stored |
| `AddChain.ChainAdder.Dispatch` | qeth/rpc.py:941-984 | a request up to its first wait is one step: answered at once, joined to the open prompt, or owner of a new one |
| `AddChain.ChainAdder.AnswerPrompt` | qeth/rpc.py:1108 | the prompt's outcome, a yes, a no or an exception, is one step |
| `AddChain.ChainAdder.OwnerResume` | qeth/rpc.py:1105-1117 | the owner's return is one step: the future settled, the slot freed, its own entry added on a yes |
| `AddChain.ChainAdder.WaiterResume` | qeth/rpc.py:1101-1103 | a joined request's return is one step |
| `StoreSave.FileHoldsSavedChanges` | qeth/store.py:328-386 | while writes succeed, the file holds the snapshot numbered `_last_written_seq` and every change whose save returned, however savers interleave |
| `StoreSave.NeverRegresses` | qeth/store.py:377-386 | neither the sequence number nor the file's contents go back, with or without failing writes |
| `StoreSave.StepKeeps` | qeth/store.py:328-386 | snapshots are numbered in order and extend one another, and every saver's change is in its own snapshot |
| `StoreSave.SavedExactlyWhen` | qeth/store.py:377-386 | in every run, failing writes included, a change is in the file exactly when the last write that reached the disk carries at least the number of the first snapshot taken after the change |
| `StoreSave.FailedWriteLosesAnother` | qeth/store.py:377-386 | a run in which one failed write makes an older save return with its change not in the file |
| `StoreSave.SaveSide.TakeSnapshot` | qeth/store.py:328-374 | the first locked block is one step: the next number and a copy of memory |
| `StoreSave.SaveSide.WriteSnapshot` | qeth/store.py:377-386 | the second locked block is one step: skip if older than what was written |
| `StoreSave.SaveSide.FailWrite` | qeth/store.py:381-386 | a write that raises keeps the number it took |
| `StoreAccounts.AlwaysSound` | qeth/store.py:388-501 | in every run, records are unique by lower-cased address and path, each default names a usable record and is absent exactly when there is none, and a remembered path names a live record |
| `StoreAccounts.AddKeeps` | qeth/store.py:388-402 | adding keeps the table sound, refuses exactly a record already there, and makes the record the default of exactly those of its families that had none |
| `StoreAccounts.RemoveKeeps` | qeth/store.py:404-446 | removing drops exactly the matching records, says whether any matched, and keeps the table sound |
| `StoreAccounts.RemoveRepairs` | qeth/store.py:404-446 | after a removal each family's default is as before when of another address, kept without a removed path when the address still works there, else the first record that works there, else none; removing nothing changes nothing |
| `StoreAccounts.WithoutAppend` | qeth/store.py:413-421 | what a removal leaves keeps its order |
| `StoreAccounts.RepairFixes` | qeth/store.py:404-446 | the default of a family is sound again after its record went |
| `StoreAccounts.ReorderPermutes` | qeth/store.py:481-501 | reordering is a permutation |
| `StoreAccounts.ReorderFollowsKeys` | qeth/store.py:481-501 | of two records in the new order, the later is named only by keys after one that names the earlier |
| `StoreAccounts.ReorderKeepsRest` | qeth/store.py:481-501 | records no key names stay in their order, after those that are named |
| `StoreAccounts.DefaultMustExist` | qeth/store.py:604-631 | setting a default keeps the table sound exactly when the named record exists on that family |
| `StoreAccounts.MissingDefaultBreaks` | qeth/store.py:604-612 | a concrete table of one account that a default for another address makes unsound |
| `StoreAccounts.SignerMeaning` | qeth/store.py:633-656 | with a family named or not, a signer is found exactly when the address has a usable record, and is the first usable record with the path asked for, else with the path the connected account remembers, else of that address |
| `StoreAccounts.ExactSigner` | qeth/store.py:633-652 | in a sound table, the record of the address and path asked for is the one found |
| `StoreAccounts.Store.AddAccount` | qeth/store.py:388-402 | the method computes the specified table and answer |
| `StoreAccounts.Store.RemoveAccount` | qeth/store.py:404-446 | the method computes the specified table and answer |
| `StoreAccounts.Store.ReorderAccounts` | qeth/store.py:481-501 | the loop computes the specified order |
| `StoreAccounts.Store.SetDefaultLockedFields` | qeth/store.py:622-631 | the two fields and the dictionary together hold one default per family |
| `AbiTypes.SplitTopLevelLoop` | qeth/abi.py:505-523 | the scan computes the split of the text at top-level commas |
| `AbiTypes.SplitOfJoin` | qeth/abi.py:505-523 | splitting a comma-joined list of balanced texts gives the pieces that are not blank, in order and without the whitespace around them |
| `AbiTypes.PeelLoop` | qeth/abi.py:529-534 | the loop moves all trailing array groups to the suffix, or raises as `rindex` does |
| `AbiTypes.ParseOfPrint` | qeth/abi.py:526-542 | parsing the printed form of any type tree, with any whitespace around it, rebuilds its ABI input tree |
| `AbiTypes.PrintOfInput` | qeth/abi.py:526-542 | printing that input tree gives the original text |
| `AbiTypes.TypeRoundTrip` | qeth/abi.py:526-542 | on the text of any type tree, reading and printing give the text back |
| `AbiTypes.ComponentNames` | qeth/abi.py:535-541 | the components of a read tuple are named "f" and their position |
| `AbiTypes.DecimalWrites` | qeth/abi.py:539 | that position is written in decimal, without leading zeros |
| `MultiSend.UnpackMultisend` | qeth/abi.py:627-649 | the loop computes the record-by-record reading of the whole blob |
| `MultiSend.UnpackAfterPack` | qeth/abi.py:618-625 | every list of in-range records is recovered from its packing |
| `MultiSend.PackAfterUnpack` | qeth/abi.py:627-649 | what is read packs back to exactly the input bytes |
| `MultiSend.UnpackedIsExact` | qeth/abi.py:627-649 | the answer is the records that pack to the blob, or None exactly when no non-empty list does |
| `MultiSend.UnpackExactly` | qeth/abi.py:627-649 | a blob is refused exactly when no records pack to it, and otherwise only one list does |
| `ProxyAbi.DedupBySelector` | qeth/abi.py:426-457 | the loop computes the specified deduplication; on entries alone: where names hold no "(" and types no ",", every entry stays, in order, but a function with the name and input types of an earlier one |
| `ProxyAbi.DedupKeepsFirst` | qeth/abi.py:426-445 | exactly the first entry of every key and every entry without one stay, in order |
| `ProxyAbi.KeyTellsApart` | qeth/abi.py:448-457 | two such functions have one key exactly when they have the same name and the same input types |
| `ProxyAbi.FirstsOfPlain` | qeth/abi.py:426-457 | so deduplication keeps overloads, and drops only repetitions |
| `ProxyAbi.DedupParts` | qeth/abi.py:426-445 | deduplicating a part early changes nothing in the whole |
| `ProxyAbi.ResolveIsDedupOfFlat` | qeth/abi.py:118-159 | on a v2 page the nested merges come to one deduplication of the flat depth-first list |
| `ProxyAbi.FlatListsFetched` | qeth/abi.py:118-183 | the flat list is what the explorer lists for the addresses fetched, in the order they were fetched |
| `ProxyAbi.ResolvedEntries` | qeth/abi.py:118-159 | a v2 page resolves to the entries of the addresses fetched, its own leading, without the functions that repeat an earlier one |
| `ProxyAbi.ImplsAreVisited` | qeth/abi.py:138-148 | short of the depth limit every implementation a page names is fetched, unless it was before |
| `ProxyAbi.ResolveAgrees` | qeth/abi.py:118-183 | merging and flat listing make the same walk, raise the same errors and deduplicate to the same entries |
| `ProxyAbi.FetchesAtMostOnce` | qeth/abi.py:118-159 | on any proxy graph, cyclic or not, a resolution ends and fetches no address twice |
| `ProxyAbi.ResolveFetchesOnce` | qeth/abi.py:118-159 | the same from the middle of a walk: it only adds to what was seen and fetched |
| `ProxyAbi.Resolver.FetchRecursive` | qeth/abi.py:118-183 | the recursion on the shared `seen` set computes the specified walk |
| `ProxyAbi.Resolver.Fetch` | qeth/abi.py:111-116 | a resolution from nothing seen fetches no address twice and gives a v2 page the entries of all addresses fetched, its own first, without repeated functions |
| `Address.B58Encode` | qeth/address.py:41-48 | the loop computes the base-58 text, leading zero bytes kept as ones |
| `Address.B58Decode` | qeth/address.py:51-60 | the loop computes the bytes of a base-58 text, or None when a letter is not in the alphabet |
| `Address.DecodeAfterEncode` | qeth/address.py:41-60 | decoding an encoding gives the bytes back, for all byte strings |
| `Address.EncodeAfterDecode` | qeth/address.py:41-60 | encoding a decoding gives the text back, for all base-58 texts |
| `Address.TronTextShape` | qeth/address.py:28-71 | every Tron address has 34 characters and starts with "T", for any 4-byte checksum |
| `Address.TronFromHexMeaning` | qeth/address.py:63-71 | every spelling of a body (optional `0x`, optional `41`, any casing, whitespace between bytes) gives that body's address, and nothing else is accepted |
| `Text.FromHexExactly` | qeth/address.py:63-71 | `bytes.fromhex` succeeds exactly on the hexadecimal text of the bytes, in any casing and with whitespace between bytes |
| `Text.StripPadded` | qeth/address.py:74-78 | stripping takes all whitespace off both ends of a text |
| `Text.PadsOfStrip` | qeth/address.py:74-78 | and nothing but whitespace |
| `Address.TronToHexAccepts` | qeth/address.py:74-84 | a text is accepted exactly when it is, up to surrounding whitespace, the address of some body, and then gives that body |
| `Address.TronRoundTripFromHex` | qeth/address.py:63-84 | from hexadecimal to Tron text and back is the same address |
| `Address.TronRoundTripFromText` | qeth/address.py:63-84 | from Tron text to hexadecimal and back is the same text |
| `Radix.RecodeInverse` | qeth/address.py:41-60 | recoding between two radices with leading zeros kept undoes itself |
| `Multicall.Batch.Add` | qeth/chain.py:577-587 | the call and a fresh pending of its own join the queue |
| `Multicall.Batch.Flush` | qeth/chain.py:643-710 | every pending is settled by its own position in its own chunk and nothing else: its own node's answer to its own call, decoded, stamped with the rollup's number when that call gave a non-zero word, else the block number when that call gave a word, else nothing; and the recorded heights are the chunks' |
| `Multicall.FateMeaning` | qeth/chain.py:643-710 | the same of one pending, on the answers of its chunk's node alone |
| `Multicall.Batch.SettleChunk` | qeth/chain.py:664-710 | a failed chunk marks only its own pendings; otherwise results are dealt out in order |
| `Multicall.Batch.MinBlock` | qeth/chain.py:622-630 | None exactly when no chunk reported, else the least height reported |
| `Multicall.FateIsDirect` | qeth/chain.py:643-710 | for every queue, batch size and tracking, a pending whose chunk met a node that executes what it is sent, or does not answer, ends as if its call had been made there alone |
| `Multicall.Batch.FlushDirect` | qeth/chain.py:643-710 | a flush to such nodes gives every pending what its own call would have got alone |
| `Multicall.BatchIsDirect` | qeth/chain.py:653-710 | the same of one slice of the queue on one node: the injected results never shift the others |
| `Multicall.HeightsAreChunks` | qeth/chain.py:643-710 | the recorded heights are exactly those of the chunks of the queued calls |
| `Multicall.HeadBalances` | qeth/chain.py:434-468 | a token is reported exactly when it was read, with the 32-byte number and the chunk height of its last reading; the native balance likewise; and the overall block is the least height a chunk reported, by the rollup's number where there is one |
| `Multicall.ReadingMeaning` | qeth/chain.py:434-468 | a reading is usable exactly when its node answered the balance call with a word, and then it is that number at the height its chunk ran at |
| `Multicall.RecordedExactly` | qeth/chain.py:676-695 | a height is recorded exactly when some chunk ran at it |
| `Multicall.HeadReadingIsDirect` | qeth/chain.py:434-468 | on a node that executes what it is sent, a reading is that call made alone |
| `TxActivity.FetchActivities` | qeth/tx_activity.py:506-643 | for distinct hashes and every completion order: a row for every transaction; an approval shows the approved token alone, under its symbol or "?", without an arrow; any other row shows as out exactly the assets the viewer sent and as in exactly those it received or the trace found; a row is muted exactly when it failed; its verb is the name found for its selector, else the selector; the emitted batches overlaid in order are that result, and no batch ever shows a verb that is not final |
| `TxActivity.FinalPictured` | qeth/tx_activity.py:376-384 | a final row shows its sides, its arrow and its muting as stated, on the transaction and the explorer's rows alone |
| `TxActivity.FinalVerbed` | qeth/tx_activity.py:506-516 | its verb is "send", "deploy", the name first found on disk for its callee, the resolved name, or the selector |
| `TxActivity.GainedMeaning` | qeth/tx_activity.py:360-373 | a trace adds a coin exactly when a token was sent, nothing received, the call is no approval or transfer, and the trace found a positive amount |
| `TxActivity.FinalIsUnique` | qeth/tx_activity.py:506-643 | the final dictionary is determined by the rows, so no completion order changes it |
| `TxActivity.Early` | qeth/tx_activity.py:518-536 | pass 0 emits exactly the rows whose verb is at hand, with that verb and no coins |
| `TxActivity.EarlyVerbsAreFinal` | qeth/tx_activity.py:518-572 | a verb shown by pass 0 is the one pass 1 finds, whatever the cache on disk has become |
| `TxActivity.Coined` | qeth/tx_activity.py:560-583 | pass 1 holds every row and emits exactly those not waiting for a callee |
| `TxActivity.ResolveOne` | qeth/tx_activity.py:594-603 | a callee's batch is exactly its cold rows, with its names |
| `TxActivity.ResolvePass` | qeth/tx_activity.py:585-603 | in any completion order, pass 2 names every cold row and tells the listener each of them |
| `TxActivity.Traced` | qeth/tx_activity.py:605-641 | in any completion order, pass 3 adds the received coin to exactly the rows whose trace found one |
| `TxActivity.CoinsMeaning` | qeth/tx_activity.py:252-293 | an asset is listed as out exactly when the viewer sent it, and as in exactly when the viewer received it |
| `TxActivity.KeysTellAssets` | qeth/tx_activity.py:262-268 | two legs are one asset exactly when of one token contract, or both the coin under one symbol |
| `TxActivity.CoinsFromRows` | qeth/tx_activity.py:252-293 | every leg is the coin or a transferred token, under its row's symbol |
| `TxActivity.CoinsAreDistinct` | qeth/tx_activity.py:252-293 | no asset is listed twice on a side, and the transaction's own value leads |
| `TxActivity.NamesStick` | qeth/tx_activity.py:212-231 | names once loaded stay for the rest of the build |
| `UnlockCache.GetIsLatestPut` | qeth/hot_wallet.py:163-221 | in every run `get` answers only with the key of the most recent put, made for that address, neither replaced nor cleared since, and aged at least zero and less than the TTL |
| `UnlockCache.KeptPutIsAnswered` | qeth/hot_wallet.py:163-192 | and `get` does answer, with the key last put for the address, whenever that was neither replaced nor cleared and is younger than the TTL |
| `UnlockCache.PutAsCalled` | qeth/hot_wallet.py:170-175 | a put is made with the lower-cased address, the key and the time of its call |
| `UnlockCache.GetIsCurrentAndFresh` | qeth/hot_wallet.py:182-192 | what `get` answers is the installed put's key, whose timer is the stored one and not cancelled |
| `UnlockCache.ReplacedKeysStayLocked` | qeth/hot_wallet.py:170-180 | installing a put ends every other for good |
| `UnlockCache.ClearedKeysStayLocked` | qeth/hot_wallet.py:182-221 | a key forgotten, not retained, found expired, or timed out is never returned again |
| `UnlockCache.LateTimerIsHarmless` | qeth/hot_wallet.py:209-214 | a timer whose entry was replaced changes nothing |
| `UnlockCache.EntryHasLiveTimer` | qeth/hot_wallet.py:170-180 | the stored timer belongs to the stored entry and is still going to end it |
| `UnlockCache.StepKeeps` | qeth/hot_wallet.py:163-221 | every step keeps: the stored timer is the stored entry's and all other installed ones are cancelled |
| `UnlockCache.Cache.PutLocked` | qeth/hot_wallet.py:176-179 | the locked part of `put` is one step |
| `UnlockCache.Cache.PreparePut` | qeth/hot_wallet.py:173-175 | the unlocked start of `put` builds the entry and its timer |
| `UnlockCache.Cache.StartTimerOf` | qeth/hot_wallet.py:180 | the timer is started after the lock is released |
| `UnlockCache.Cache.GetKey` | qeth/hot_wallet.py:182-192 | `get` is one step and answers as specified |
| `UnlockCache.Cache.ForgetKey` | qeth/hot_wallet.py:194-199 | `forget` is one step |
| `UnlockCache.Cache.RetainOnly` | qeth/hot_wallet.py:201-207 | `retain` is one step |
| `UnlockCache.Cache.ExpireLocked` | qeth/hot_wallet.py:209-214 | the timer's callback is one step |
| `DeviceService.ServedInOrder` | qeth/device_thread.py:51-128 | in every interleaving no job waits behind a stop sentinel, two workers are never alive, and jobs run one at a time in submission order, each followed by exactly one cleanup |
| `DeviceService.NothingLeftAtExit` | qeth/device_thread.py:108-128 | when a worker has exited, every accepted job was run, cleaned up after and completed, or was cancelled by its caller |
| `DeviceService.FutureGetsOutcome` | qeth/device_thread.py:113-128 | in every interleaving a future's result says how its job ended, a return or an exception, and a job that ended and was cleaned up after has that result unless cancelled |
| `DeviceService.StoppedForGood` | qeth/device_thread.py:51-55 | once stopped, no further job is accepted |
| `DeviceService.StepKeeps` | qeth/device_thread.py:51-128 | every step keeps one worker, the queue in order, settled jobs settled, and the history serial |
| `DeviceService.DeviceJobService.SubmitLocked` | qeth/device_thread.py:51-63 | `submit` is one step, and raises exactly when stopped |
| `DeviceService.DeviceJobService.ShutdownLocked` | qeth/device_thread.py:87-96 | the locked part of the shutdown is one step |
| `DeviceService.DeviceJobService.TakeNext` | qeth/device_thread.py:108-112 | the worker takes the head of the queue, and exits on the sentinel |
| `DeviceService.DeviceJobService.StartJob` | qeth/device_thread.py:113-116 | a job is started exactly when it was not cancelled while it waited |
| `DeviceService.DeviceJobService.FinishJob` | qeth/device_thread.py:115-122 | a job's return or exception leads to the cleanup |
| `DeviceService.DeviceJobService.CleanUpAfter` | qeth/device_thread.py:126-128 | the hook runs before the future is completed |
| `DeviceService.DeviceJobService.CancelJob` | qeth/device_thread.py:113 | a caller may cancel a future until it is completed |
| `DeviceService.DeviceJobService.CompleteJob` | qeth/device_thread.py:117-124 | a future is completed exactly when it was not cancelled meanwhile |

## Left out

- py-evm and web3: tries, the account cache, execution; `delete_storage` and `delete_account`, reads that bypass the journal, and the account fields of the fork database (only storage is journalled here).
- Hash functions: sha256 and keccak are parameters of fixed output size, and EIP-55 casing is any recasing that depends on the address alone.
- Checksumming of malformed addresses: `to_checksum_address` is total here, and does not raise.
- Hexadecimal integers with a sign, underscores or surrounding whitespace, Unicode whitespace and digits: `int(s, 16)` reads digits after an optional `0x`.
- Concurrent seed requests: they touch disjoint keys and are made in list order; which of them fail is arbitrary.
- Several submitting threads for the transaction writer, and a writer that raises: one thread drives it and a hand-over is a write.
- RpcChains.RpcServer.RegisterSubscription: a dapp's query of its chain and its subscription are one step; a dapp that asks first and subscribes later can start from a stale answer.
- Closed sockets and failing sends, the replies that share a socket's lock, and the `networkChanged` twin of `chainChanged`; a closing socket, like an unsubscription, could let one broadcast overtake another.
- RpcChains.SubscribersSeeTheirChain: asks for runs without the two kinds of event that let broadcasts overtake; which of the other runs end well is not characterised beyond the pairwise `RpcChains.Overtaken`.
- A requester that leaves while it waits on another's prompt, and the parsing of an add-network request (here a chain id, an entry and whether its URLs are safe).
- Loading, migrating and formatting the settings file, file modes, and `persist=False`.
- Tree labels, account labels and source order in the account table; families the two known ones do not cover.
- The Etherscan, routed and Tron ABI sources, and the 4-byte selector: entries are deduplicated by the signature text the source builds.
- ABI encoding of the `aggregate3` call and the name, symbol and decimals helpers of `Multicall`.
- TxActivity.FetchActivities: asks for distinct hashes and completion orders that list each future once; fetching of transfers over HTTP, the Tron activities, and the dictionaries `cold`, `by_hash` and `coins`, which are one list of rows here.
- Duplicate hashes in one activity build: the source keys everything by hash.
- The `None` entries `retain` skips: its addresses are texts, of which the empty one is skipped.
- A future cancelled between the device worker's check and its completion, a cleanup hook that raises, and caller-side timeouts.
- Qt, cameras, hardware wallets, the Helios process, explorers and prices: input, output and user interface.
