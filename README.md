# Block service model

This project models the orchestration layer of the block service in
`blockservice/blockservice.go`. The block service sits between a caller
and four collaborators:

- a local blockstore;
- an optional network exchange, which fetches blocks and is told about new ones;
- an optional provider, which advertises stored blocks;
- a CID allowlist, the hash-security policy.

The model covers:

- construction with its options;
- the write path: `AddBlock` and `AddBlocks`;
- the single read path: `getBlock`;
- the batch read path: `getBlocks`, run as a sequential producer;
- `DeleteBlock` and `Close`;
- the lazily initialised `Session`;
- the selectors that read a service's allowlist and provider through its interface.

How the model is built:

- **Collaborator answers.** They are an input (`Types.Oracle`): which identifiers make the store's `Has`, `Get`, `Put` and `DeleteBlock` fail, and with what error; the same for notifications and advertisements; and what the single and batched fetches return.
- **Trace.** Calls to the blockstore, the exchange and its fetchers, the provider and the fetch factory are appended to a ghost trace of `Types.Event`s. Allowlist checks are pure and leave no event. Opening an exchange session is not an event either; it shows in the `Session`'s `initialised` flag and its fetcher. Properties such as "no store access", "at most one write" or "announced before emitted" are stated over that trace.
- **Specification functions.** For each operation, a pure function in `WriteSpec` or `ReadSpec` gives its result, the store afterwards and its calls.
- **Imperative code.** The classes in `Service` do the work step by step, with the source's loops and early returns. Each method is proved to produce exactly what its specification function says.
- **Lemmas.** The properties the source promises are proved as lemmas about those functions.

Files:

| file | contents |
|---|---|
| `types.dfy` | identifiers, blocks, errors, collaborator answers, events |
| `options.dfy` | configuration and the option fold of `New` |
| `validation.dfy` | allowlist filtering, including the two-pass filter of `getBlocks` |
| `write_spec.dfy` | `AddBlock`, `AddBlocks` and `DeleteBlock` as functions, with their properties |
| `read_spec.dfy` | `getBlock` and `getBlocks` as functions, with their properties |
| `round_trips.dfy` | how writes and reads fit together |
| `selectors.dfy` | the allowlist and provider selectors of the read path |
| `service.dfy` | the `BlockService` and `Session` classes |

Cancellation of `getBlocks` works like this. Its context is modelled as cancelled once a given number of blocks has been emitted (`cancel: Option<nat>`). Every `select` after that point takes its `ctx.Done()` branch.

One quirk of `getBlocks` validation (lines 340-361) is modelled as written. When every identifier is valid, the range loop leaves `lastAllValidIndex` at the last position, not at the length. The second pass therefore always runs on a non-empty input, and re-checks the last identifier. `Validation.DropUnsafeCids` does the same and is proved correct in every case: the re-check is redundant, and the result is still the order-preserving filter.

## Model

| member | source | states |
|---|---|---|
| Types.ValidateCid | blockservice/blockservice.go:173-178 | the hash-security check passes exactly for identifiers the allowlist accepts; otherwise its error names that identifier |
| Types.HasAnswer | blockservice/blockservice.go:180 | a successful existence check says whether the store holds the identifier |
| Types.GetAnswer | blockservice/blockservice.go:280-288 | a successful Get returns the stored block; an identifier that is absent and not faulted gives "not found" |
| Types.NotifyAnswer | blockservice/blockservice.go:243 | a batched notification succeeds exactly when no listed block's notification fails |
| Types.PutAllWrites | blockservice/blockservice.go:236 | a batched put adds exactly the written identifiers, leaves every other entry unchanged, and keeps the store well keyed |
| Types.PutAllStores | blockservice/blockservice.go:236 | after a batched put, each written identifier holds the last block of the batch with that identifier |
| Options.Defaults | blockservice/blockservice.go:127-132 | before options run: existence check on, no provider, the given exchange and the default allowlist |
| Options.LastAllowlist | blockservice/blockservice.go:108-112 | the allowlist is the one carried by the last `WithAllowlist` in the list (any `WithAllowlist` followed by no other one determines it), or the previous value when none is given |
| Options.LastProvider | blockservice/blockservice.go:115-119 | the provider is the one carried by the last `WithProvider` in the list (any `WithProvider` followed by no other one determines it), or the previous value when none is given |
| Options.Apply | blockservice/blockservice.go:101-119 | one option: `WriteThrough` turns the existence check off, `WithAllowlist` and `WithProvider` replace their setting, and nothing else changes |
| Options.ApplyAll | blockservice/blockservice.go:134-136 | options apply in order: `WriteThrough` anywhere turns the check off, the last allowlist and provider win, the exchange is untouched |
| Options.NewConfig | blockservice/blockservice.go:122-139 | `New`: check on unless `WriteThrough` is given, the last allowlist or the default, the last provider or none, the given exchange |
| Service.BlockService.constructor | blockservice/blockservice.go:122-139 | the constructed service has the configuration `NewConfig` describes, the given store and an empty trace |
| Validation.FirstInvalid | blockservice/blockservice.go:210-215 | the position of the first rejected identifier: all before it are accepted, the one at it is rejected |
| Validation.Allowlisted | blockservice/blockservice.go:338-361 | the filter returns only identifiers the allowlist accepts |
| Validation.AllowlistedMembers | blockservice/blockservice.go:352-359 | the filter keeps exactly the accepted identifiers of the input |
| Validation.AllowlistedIdentity | blockservice/blockservice.go:340-348 | the filter returns its input exactly when every identifier is accepted |
| Validation.AllowlistedSnoc | blockservice/blockservice.go:352-359 | filtering one more identifier appends it exactly when it is accepted |
| Validation.DropUnsafeCids | blockservice/blockservice.go:338-361 | the two-pass validation of `getBlocks` yields the order-preserving allowlist filter of the input, wherever the first rejected identifier is, when all are accepted, and for empty input |
| WriteSpec.Announcements | blockservice/blockservice.go:241-253 | the announcements after a batch write: one notification if there is an exchange, one advertisement per block if there is a provider |
| WriteSpec.AnnouncementsShape | blockservice/blockservice.go:241-253 | announcements are only notifications and advertisements; the notification of the written blocks is there exactly when an exchange is configured; the per-block advertisements close the list |
| WriteSpec.AddBlockSpec | blockservice/blockservice.go:170-203 | AddBlock, branch by branch: a rejected identifier fails with no call; a failing existence check is returned and nothing is written; a present block ends in success with no write; otherwise the block is put; a failing put is returned with the store unchanged; after a successful put the announcements run and the result is success |
| WriteSpec.AddBlockWritesAtMostOnce | blockservice/blockservice.go:179-200 | AddBlock writes at most once, only the given block; the store changes by that block or not at all; success with an accepted identifier leaves it stored |
| WriteSpec.AddBlockSwallowsAnnouncementErrors | blockservice/blockservice.go:191-202 | AddBlock's result and store do not depend on notification or advertisement failures |
| WriteSpec.AddBlockTwiceWritesOnce | blockservice/blockservice.go:179-183 | with the existence check on, adding a block twice writes and announces it once; the second call only asks the store |
| WriteSpec.HasScan | blockservice/blockservice.go:216-227 | the existence scan of AddBlocks makes only existence checks |
| WriteSpec.AbsentMembers | blockservice/blockservice.go:224-226 | a block is kept exactly when it is in the input and its identifier is not stored |
| WriteSpec.HasScanKeepsAbsent | blockservice/blockservice.go:216-227 | when no check fails, the scan asks about every block in order and keeps exactly the absent ones, in input order |
| WriteSpec.HasScanStopsAtError | blockservice/blockservice.go:220-223 | the first failing check is the scan's outcome; no block after it is asked about |
| WriteSpec.HasScanSticks | blockservice/blockservice.go:220-223 | once the scan of a prefix failed, the scan of the whole list is that failure |
| WriteSpec.HasScanFromInput | blockservice/blockservice.go:216-227 | the scan keeps only input blocks and makes at most one check per block |
| WriteSpec.AddBlocksSpec | blockservice/blockservice.go:205-256 | AddBlocks: the first rejected identifier fails the batch before any store access; otherwise the checked batch is written |
| WriteSpec.HasScanCovers | blockservice/blockservice.go:216-227 | when no existence check fails, every block of the batch is either already stored or kept for writing |
| WriteSpec.ToPut | blockservice/blockservice.go:216-230 | the blocks chosen for writing: only existence checks are made, and in write-through mode the whole batch is chosen with no call |
| WriteSpec.WriteBatchSpec | blockservice/blockservice.go:232-253 | nothing to write is success with no call; otherwise the first call is the batched put of exactly those blocks, its error is the result, and the store gains them exactly when it succeeds |
| WriteSpec.AddCheckedSpec | blockservice/blockservice.go:216-256 | a failing existence check is the batch's result; any failure leaves the store unchanged |
| WriteSpec.AddBlocksWritesAtMostOnce | blockservice/blockservice.go:216-239 | AddBlocks writes at most once, in one batched put of a non-empty list of input blocks; in write-through mode it never asks whether a block is present |
| WriteSpec.AddCheckedWritesAtMostOnce | blockservice/blockservice.go:216-253 | the same for the part after validation |
| WriteSpec.BatchWritesAtMostOnce | blockservice/blockservice.go:232-253 | the write half adds at most one write, the batched put of the whole non-empty list, and no existence check |
| WriteSpec.AddBlocksStore | blockservice/blockservice.go:232-239 | the store changes only on success, only by the batched put of the blocks chosen, and stays well keyed |
| WriteSpec.AddBlocksWritesAbsent | blockservice/blockservice.go:216-253 | with the check on and no check failing: exactly the absent blocks are written, in input order, in one batched put; none absent is success with no write or announcement; a failed put is returned; a successful one is followed by one notification of all of them and one advertisement each |
| WriteSpec.AddBlocksHasErrorAborts | blockservice/blockservice.go:219-223 | with the check on, the first failing check aborts the batch with its error; nothing is written or announced |
| WriteSpec.AddBlocksWriteThrough | blockservice/blockservice.go:228-239 | in write-through mode a non-empty valid batch is put whole, present or not, and on success is announced |
| WriteSpec.DeleteBlockSpec | blockservice/blockservice.go:442-451 | DeleteBlock does no validation and makes one delete call, whose error is returned; a failed delete leaves the store alone; a successful one removes that identifier and nothing else |
| ReadSpec.FetchAndCache | blockservice/blockservice.go:297-319 | the network half of getBlock: a fetch error is returned with nothing written; the fetched block is written before any announcement; a failed write is returned with the store unchanged; after a successful write the block stays stored whatever follows; a failing notification or advertisement is the result; success returns exactly the fetched block |
| ReadSpec.GetBlockSpec | blockservice/blockservice.go:272-320 | getBlock: a rejected identifier fails with no call; a local hit is returned without asking the fetch factory; a store error other than "not found" is returned unchanged; "not found" without a fetcher returns that error; with one it goes to the network |
| ReadSpec.CacheFetched | blockservice/blockservice.go:302-317 | a fetched block is written first; the store gains it exactly when the write succeeds; the result is success exactly when the write and both announcements succeed |
| ReadSpec.GetBlockAsksFactory | blockservice/blockservice.go:280-294 | getBlock asks the fetch factory exactly when the identifier is accepted and the store answers "not found" |
| ReadSpec.GetBlockSuccess | blockservice/blockservice.go:280-319 | a successful getBlock either found the block locally with one Get, or returns the fetched block after writing it; the store stays well keyed |
| ReadSpec.NetStepFields | blockservice/blockservice.go:405-435 | one received block: written unless its put fails, emitted exactly when write, notification and advertisement all succeed, and the first failure ends the producer |
| ReadSpec.NetStepCalls | blockservice/blockservice.go:405-429 | the calls for one received block are those up to its first failure |
| ReadSpec.GetBlocksSpec | blockservice/blockservice.go:332-439 | getBlocks never checks existence, never batch-writes and never deletes |
| ReadSpec.LocalStep | blockservice/blockservice.go:366-376 | one identifier: one Get and no store change; a failed Get, for any reason, makes it a miss; an emitted block is the stored one; only a cancelled context at a hit ends the producer |
| ReadSpec.LocalScan | blockservice/blockservice.go:365-377 | a finished producer stays finished; each identifier yields at most one emitted block or one miss |
| ReadSpec.NetScan | blockservice/blockservice.go:393-436 | the network phase adds no miss and emits each arrival at most once |
| ReadSpec.GetBlocksAsksFactory | blockservice/blockservice.go:372-379 | getBlocks asks the fetch factory exactly when its local phase runs to the end |
| ReadSpec.GetBlocksDispatched | blockservice/blockservice.go:379-388 | with misses and a fetcher, the local phase is followed by the factory call, the batch fetch of the misses and, if it succeeds, the network phase |
| ReadSpec.LocalScanShape | blockservice/blockservice.go:363-377 | the local phase only reads the store and only makes Get calls |
| ReadSpec.NetScanShape | blockservice/blockservice.go:393-436 | the network phase only appends to the output and only adds Put, Notify and Provide calls |
| ReadSpec.NetStepShape | blockservice/blockservice.go:393-436 | the same for one received block |
| ReadSpec.MissesMembers | blockservice/blockservice.go:365-370 | an identifier is a miss exactly when it was requested and its Get failed, for any reason |
| ReadSpec.HitsMembers | blockservice/blockservice.go:366-373 | every hit is the stored block of a requested identifier |
| ReadSpec.LocalScanComplete | blockservice/blockservice.go:365-377 | without cancellation the local phase looks every identifier up once, in order, emits the hits in that order and collects the misses |
| ReadSpec.LocalPhaseComplete | blockservice/blockservice.go:338-377 | the same, for the filtered input of getBlocks |
| ReadSpec.Delivered | blockservice/blockservice.go:405-429 | the number of arrivals that go through before the first one that does not |
| ReadSpec.NetStepPasses | blockservice/blockservice.go:405-435 | a block whose write and announcements succeed is stored, emitted and leaves its write, notification and advertisement on the trace |
| ReadSpec.NetStepFails | blockservice/blockservice.go:405-429 | a block whose write or announcement fails is not emitted and ends the producer; it stays stored if only its announcement failed |
| ReadSpec.NetScanOutput | blockservice/blockservice.go:393-436 | the network phase emits the arrivals in order, up to the first failing one, which is not emitted and ends the phase |
| ReadSpec.NetScanStore | blockservice/blockservice.go:405-410 | the network phase stores the blocks it delivers, and the first failing one if its write succeeded |
| ReadSpec.NetScanAnnounces | blockservice/blockservice.go:405-435 | every emitted network block was written, notified (with an exchange) and advertised (with a provider) first |
| ReadSpec.GetBlocksOutput | blockservice/blockservice.go:363-436 | without cancellation, getBlocks emits the local hits in filtered input order, then the delivered network blocks in arrival order; the store gains exactly the network blocks that were written |
| ReadSpec.GetBlocksCalls | blockservice/blockservice.go:363-388 | one Get per accepted identifier, in order, then the fetch factory; the batch fetch is asked exactly when there are misses and a fetcher, and it is asked for exactly the misses |
| ReadSpec.FetchedCalls | blockservice/blockservice.go:379-388 | the calls when the batch fetch is dispatched |
| ReadSpec.UnfetchedCalls | blockservice/blockservice.go:379-382 | the calls when it is not dispatched |
| ReadSpec.GetCalls | blockservice/blockservice.go:366-367 | one Get per identifier |
| ReadSpec.GetCallsAreGets | blockservice/blockservice.go:366-367 | the i-th Get is for the i-th identifier |
| ReadSpec.LocalScanCancel | blockservice/blockservice.go:372-376 | a cancelled local phase emits a prefix of the uncancelled one, and stops at exactly the cancellation point if it differs |
| ReadSpec.NetScanCancel | blockservice/blockservice.go:395-435 | the same for the network phase |
| ReadSpec.CancellationTruncates | blockservice/blockservice.go:372-376 | cancelling after k emissions makes getBlocks emit the first k blocks of the uncancelled output (all of them if fewer), with a prefix of its calls |
| RoundTrips.AddThenGet | blockservice/blockservice.go:170-203 | after a successful AddBlock, getBlock finds the block in the store with one Get and no network call |
| RoundTrips.DeleteThenGet | blockservice/blockservice.go:442-451 | after a successful DeleteBlock, getBlock without a fetcher fails with "not found" |
| RoundTrips.DeleteThenAdd | blockservice/blockservice.go:442-451 | after a successful DeleteBlock, AddBlock of that block asks whether it is present (when the check is on), finds it absent, writes it and announces it, and leaves it stored |
| RoundTrips.AddBlocksThenGet | blockservice/blockservice.go:205-288 | after a successful AddBlocks, getBlock finds every identifier of the batch with one Get and no network call; with the check off it returns the batch's last block with that identifier |
| Selectors.GrabAllowlist | blockservice/blockservice.go:511-516 | the service's own allowlist when it exposes one, the default otherwise |
| Selectors.GrabProvider | blockservice/blockservice.go:519-524 | the service's provider when it exposes one, none otherwise |
| Selectors.OwnHandle | blockservice/blockservice.go:69-85 | for this service, which exposes both, the read path acts on its own configuration |
| Selectors.GetBlockNeverAdvertises | blockservice/blockservice.go:312-317 | getBlock through a service that exposes no provider never advertises |
| Selectors.GetBlocksNeverAdvertise | blockservice/blockservice.go:391-429 | getBlocks through a service that exposes no provider never advertises |
| Selectors.NetScanNoProvide | blockservice/blockservice.go:423-429 | without a provider the network phase adds no advertisement |
| Service.BlockService.CheckPresence | blockservice/blockservice.go:216-227 | the existence loop produces the scan's outcome and calls |
| Service.BlockService.ProvideEach | blockservice/blockservice.go:247-253 | one advertisement per written block, in order |
| Service.BlockService.AddBlock | blockservice/blockservice.go:170-203 | AddBlock produces exactly `AddBlockSpec`'s result, store and calls, and keeps the store well keyed |
| Service.BlockService.AddBlocks | blockservice/blockservice.go:205-256 | AddBlocks produces exactly `AddBlocksSpec`'s result, store and calls |
| Service.BlockService.CheckBatch | blockservice/blockservice.go:209-215 | validation fails exactly when some identifier is rejected, with the error of the first one |
| Service.BlockService.ChooseToPut | blockservice/blockservice.go:216-230 | the choice of blocks to write produces exactly `ToPut`'s outcome and calls |
| Service.BlockService.AddCheckedBlocks | blockservice/blockservice.go:216-256 | AddBlocks after validation produces exactly `AddCheckedSpec`'s result, store and calls |
| Service.BlockService.WriteBatch | blockservice/blockservice.go:232-253 | the write half produces exactly `WriteBatchSpec`'s result, store and calls |
| Service.BlockService.Announce | blockservice/blockservice.go:241-253 | the announcements after a batch write are exactly `Announcements` |
| Service.BlockService.DeleteBlock | blockservice/blockservice.go:442-451 | DeleteBlock produces exactly `DeleteBlockSpec`'s result, store and calls |
| Service.BlockService.Close | blockservice/blockservice.go:453-459 | without an exchange, Close succeeds with no call; with one, it closes the exchange and returns its error |
| Service.BlockService.GetBlock | blockservice/blockservice.go:260-270 | GetBlock is getBlock with the service's exchange as fetcher |
| Service.BlockService.GetBlocks | blockservice/blockservice.go:325-330 | GetBlocks is getBlocks with the service's exchange as fetcher |
| Service.ExchangeFetcherOf | blockservice/blockservice.go:268-270 | the service's fetch factory hands out its exchange, or nothing without one |
| Service.SessionFetcherFor | blockservice/blockservice.go:476-486 | a session's fetcher: none without an exchange, a session of the exchange (with the captured context) when it can open one, the exchange itself otherwise |
| Service.Session.constructor | blockservice/blockservice.go:165-167 | NewSession creates nothing, captures the context, and fixes the fetcher the session will hand out |
| Service.Session.Grabbed | blockservice/blockservice.go:470-490 | the fetcher a session hands out is determined by the exchange and the context it was created with |
| Service.Session.GrabSession | blockservice/blockservice.go:470-490 | the first call creates the fetcher from the original context and drops the context; every call returns that same fetcher, and a later call changes nothing |
| Service.Session.GetBlock | blockservice/blockservice.go:493-498 | a session's GetBlock is getBlock with the session's fetcher; the session is set up exactly when the read reaches the fetch factory, and is untouched otherwise |
| Service.Session.GetBlocks | blockservice/blockservice.go:501-506 | a session's GetBlocks is getBlocks with the session's fetcher; the session is set up exactly when the read reaches the fetch factory, and is untouched otherwise |
| Service.AskFactory | blockservice/blockservice.go:290 | asking the fetch factory returns its fetcher, records the call, leaves later answers unchanged, and sets up a session source |
| Service.GetBlockWith | blockservice/blockservice.go:272-320 | getBlock produces exactly `GetBlockSpec`'s result, store and calls, with the fetcher the factory hands out; a session source is set up exactly when the factory is asked |
| Service.FetchAndCacheWith | blockservice/blockservice.go:297-319 | the network half produces exactly `FetchAndCache`'s result, store and calls |
| Service.CacheFetchedWith | blockservice/blockservice.go:302-317 | write, notify and advertise a fetched block, stopping at the first failure |
| Service.GetBlocksWith | blockservice/blockservice.go:332-439 | getBlocks emits exactly `GetBlocksSpec`'s output, with its store and calls; a session source is set up exactly when the factory is asked |
| Service.LocalPhase | blockservice/blockservice.go:363-377 | the local loop produces the local phase's output, misses and calls |
| Service.NetPhase | blockservice/blockservice.go:390-436 | the network loop produces the network phase's output, store and calls |
| Service.CacheAndAnnounce | blockservice/blockservice.go:405-429 | one received block is written and announced, and goes through exactly when all three succeed |

## Left out

- Tracing spans and logging are not modelled. They are observability only and do not affect results.
- The goroutine, the output channel and the nondeterministic `select`s of `getBlocks` are not modelled. The producer runs sequentially, and its output is the sequence the consumer receives. The channel of network arrivals is modelled as a finite sequence.
- Cancellation is modelled as the context becoming done after a given number of emissions; `cancel == Some(0)` is a context done before the first block. A context that becomes done between receiving a network block and emitting it is not modelled, nor is Go's random choice among several ready `select` cases (the model always takes the cancellation branch once the context is done).
- The emit `select` of the network phase (lines 431-435) never takes its cancellation branch in the model. Cancellation happens only at emissions, and none happens between receiving a block and emitting it.
- The thread safety of `sync.Once` in `Session` is not modelled. Only the one-shot transition is.
- The rules of the hash-security policy are not modelled. An allowlist is a set of accepted multihash codes. The default allowlist is a parameter of the constructor.
- Blockstore, exchange and provider internals are not modelled. Their answers come from `Types.Oracle`, and one answer per identifier holds for the whole call.
- A failed `PutMany` is modelled as leaving the store unchanged. A real blockstore may have written part of the batch.
- Go interface identity is not modelled. The exchange is either present or absent, so a non-nil interface that wraps a nil value has no counterpart.
- The accessors `Blockstore`, `Exchange`, `Allowlist` and `Provider` (lines 142-157) are plain field reads of the `BlockService` class and have no members of their own.
- The read path of the classes uses the service's own configuration. `Selectors` states what a service that exposes no allowlist or no provider would see instead.
- Service.BlockService.constructor requires the initial store to be well keyed: every block sits under its own identifier. A real blockstore keys blocks by their CID, so this holds by construction.
