# Concurrency protocols, routing and encodings of blocks-genesis

This project models the stateful parts of a multi-tenant service toolkit and proves what they
keep in every interleaving. Each stateful component comes in two forms.

- A **machine** over values: `Step` takes a state and an action, `RunFrom` (or `StateAt`) a
  whole sequence of them. An asyncio action is the stretch of one coroutine between two awaits;
  a thread action is one operation on shared state. Everything the outside world decides (clock
  readings, outcomes of calls, who runs next, random bytes) is part of the action, and an action
  that is not possible leaves the state alone, so a theorem about all sequences is one about all
  interleavings, outcomes and clocks.
- A **class** in the source's own form: dictionaries and lists updated in place, loops where the
  source loops. Each method is proved to be exactly the machine's step of that name, or to extend
  the ghost `trace` by the steps it takes, with other tasks running in between as a `script` has
  it. What those others do is taken from the machine; the class's own changes to shared state
  are written out. The theorems about the machine are therefore about the class.

| module | models |
|---|---|
| TokenCache, TokenAnswers, TokenBurst, SweepGap, TokenProvider, TokenResponse | the per-grant token cache with double-checked single flight, sweep and invalidation |
| GrantChain, GrantStore | delegation grants: who may write one, chains of sends, the store with expiry |
| Settlement, Workers, SettledTokens | how both message workers settle a message and release its grant, and what that means for the token cache |
| TraceBatches, TraceProgress, TraceExporter, LogBatches | the two exporters that drain a queue into batches |
| LoadTable, ProviderStore, TenantService | deduplicated loads; the tenant cache as a fold of update messages |
| Senders, SenderQueues, MessageClient, LockRenewal | one sender per destination, rebuilt and retried; the lock renewal loop |
| Algorithms, Selection, Validation | choosing an identity provider, its decode options and its key |
| Signature, ContextTransport | the signature input and the context over repeated hops |
| HandleCache | database handles and clients under threads |
| Options, Sequences, AsyncLocks, Text | an option type, duplicate-free sequences, the asyncio lock, and the string predicates the routing relies on |

## What the code does not promise

Where the code and its own comments part, the model follows the code.

- Single flight is relative to lock removal. `invalidate` drops a grant's lock even while it is
  held, and a sweep can drop it between a release and the woken waiter's resumption
  (`InvalidateAdmitsSecondExchange`, `SweepInWakeUpGapAdmitsSecondExchange`; `TwoExchangesWithoutInvalidate`
  is a whole run of 64 callers in which a sweep alone does it). `SingleFlight` says that nothing else
  ever lets two exchanges of one grant overlap.
- A comment in the grant factory wants no send to break over delegation, but only the write of the
  grant is guarded: a failing read of the held one is not caught. `SendRaisesIff` gives the exact
  condition.
- The sender client means to spare the next caller a sender with a dead link. It does so after a
  failed first attempt only, not after a failed retry; `FailedSenderStaysIffRetry`.
- Validation re-checks what selection matched, but a provider whose issuer is whitespace without
  being empty is selected for tokens without an issuer and then refuses them;
  a list of audiences with something other than strings in it is routed by its strings and then
  refused. `SelectionAgreesWithChecks` gives both exact conditions, `BlankIssuerIsSelectedThenRefused`
  and `MixedAudienceIsSelectedThenRefused` an instance of each.
- With a 300 s lock and a 270 s interval, bounding each round's overshoot plus renewal by 30 s is
  not enough when a renewal returns late (`PerRoundBoundIsNotEnough`); what must stay within the
  lock's lifetime is the time from one renewal to the next (`NeverLapsesIff`).
- A token answered with a lifetime of at most 60 s is never served from the cache (`ServedFor`).
- Log documents still queued when the logger stops are not flushed: `Batching` says what is
  missing is exactly what was queued.
- One sanitising does not fix the wire form of a phone number of one to three characters
  (`WireSettles`).

## Model

| member | source | states |
|---|---|---|
| TokenCache.SingleFlight | blocks_genesis/_delegation/token_provider.py:98-130 | in every interleaving, two calls are inside the exchange of one grant at once only if that grant's lock entry was removed by a step at which one of them had begun and the other had not |
| TokenCache.RemovalCause | blocks_genesis/_delegation/token_provider.py:125-130 | a lock entry leaves the table only through `invalidate` on that grant, or a sweep (every 64th call) that finds an unusable token and a lock nobody holds, so never under a running exchange |
| TokenCache.LoneExchangeHasNoToken | blocks_genesis/_delegation/token_provider.py:101-123 | a call that has exchanged alone since it started has no cached token for its grant |
| TokenCache.OverlapIsReal | blocks_genesis/_delegation/token_provider.py:98-123 | the record of overlapping exchanges used by that theorem holds only calls that really ran side by side at some moment |
| TokenCache.WaitersCanProceed | blocks_genesis/_delegation/token_provider.py:98-123 | no wake-up is lost: behind every waiting call stands a call exchanging the same grant under that very lock, or a free lock whose head waiter may resume |
| TokenCache.InvalidateAdmitsSecondExchange | blocks_genesis/_delegation/token_provider.py:125-130 | after `invalidate`, a new call exchanges beside the one in flight |
| TokenCache.SweepInWakeUpGapAdmitsSecondExchange | blocks_genesis/_delegation/token_provider.py:216-224 | a sweep in the gap between release and resumption leads to two exchanges at once |
| SweepGap.TwoExchangesWithoutInvalidate | blocks_genesis/_delegation/token_provider.py:94-123 | a run from the start of the process that gets there: 64 callers, no `invalidate`, two exchanges of one grant at once |
| TokenCache.SameCountWithoutRemoval | blocks_genesis/_delegation/token_provider.py:98-130 | with no removal between the starts of two calls, both took their lock from the same generation of the table entry |
| TokenCache.ReachableInv | blocks_genesis/_delegation/token_provider.py:79-130 | every reachable state keeps the lock discipline: table entries name their grant's current lock, holders and waiters match the suspended calls |
| TokenCache.OneExchangePerGeneration | blocks_genesis/_delegation/token_provider.py:98-123 | of the calls whose locks date from after the last removal of the grant's entry at most one exchanges |
| TokenCache.OneExchangeWhileNoRemoval | blocks_genesis/_delegation/token_provider.py:98-123 | while a grant's lock was never removed at most one call exchanges it |
| TokenBurst.ExchangeCountFrom | blocks_genesis/_delegation/token_provider.py:98-123 | a burst of callers on a cold grant, beginning at any moment of any run at which no call on the grant is under way and any cached token is stale, with no lock removal or cancellation and the winning token usable until the last is served, makes as many exchanges as failures before the first success plus one, or one per caller if all fail; each failure empties one caller, every other caller gets the one winning token |
| TokenBurst.ExchangeCount | blocks_genesis/_delegation/token_provider.py:98-123 | the same for the first burst of a process |
| TokenBurst.CalmRunKeepsBurst | blocks_genesis/_delegation/token_provider.py:98-123 | throughout such a burst the failed callers are as many as the failed exchanges and the cache holds the leftover token, none, or the winning one |
| TokenAnswers.ExchangeAnswersItsCall | blocks_genesis/_delegation/token_provider.py:113-123 | whatever is invalidated or swept meanwhile, a call whose exchange ends with a token is told that token, for good, and one whose exchange brings none is told nothing |
| TokenAnswers.AnswersComeFromExchanges | blocks_genesis/_delegation/token_provider.py:98-123 | in every run each token told or cached was brought by an exchange of that very grant; a call told nothing had its own exchange fail; one without an answer was cancelled |
| TokenAnswers.CachedAnswersAreUsable | blocks_genesis/_delegation/token_provider.py:98-110 | a call answered from the cache gets a token that at its reading of the clock has more than 60 s left |
| TokenAnswers.WonTokenIsServed | blocks_genesis/_delegation/token_provider.py:98-123 | after an exchange, also one during which the grant was invalidated, every later caller is told its token at once until the grant is invalidated, exchanged again, or the token found within 60 s of its end |
| TokenAnswers.Every64thCallSweeps | blocks_genesis/_delegation/token_provider.py:94-96 | every 64th call and no other sweeps: it leaves no token within 60 s of its end, spares every other, and takes with a token exactly a lock nobody holds |
| TokenAnswers.CallsAreCounted | blocks_genesis/_delegation/token_provider.py:94-94 | the counter is the number of calls made |
| TokenAnswers.QueueIsFair | blocks_genesis/_delegation/token_provider.py:104-104 | those who queue for a grant stand in the order in which they came |
| TokenProvider.DelegatedTokenProvider.GetToken | blocks_genesis/_delegation/token_provider.py:79-112 | the stretch up to the first await is the machine's Begin; without a grant or tenant nothing changes and the answer is empty |
| TokenProvider.DelegatedTokenProvider.CountCall | blocks_genesis/_delegation/token_provider.py:94-96 | every 64th call sweeps |
| TokenProvider.DelegatedTokenProvider.LookUp | blocks_genesis/_delegation/token_provider.py:98-106 | fast path, setdefault of the lock, immediate acquisition or queueing |
| TokenProvider.DelegatedTokenProvider.UnderLock | blocks_genesis/_delegation/token_provider.py:105-112 | the re-check under the lock: an answer, or the start of the exchange with the stale token gone |
| TokenProvider.DelegatedTokenProvider.Wake | blocks_genesis/_delegation/token_provider.py:104-112 | the head waiter's resumption is the machine's Resume |
| TokenProvider.DelegatedTokenProvider.Exchanged | blocks_genesis/_delegation/token_provider.py:113-123 | the end of an exchange stores and returns the token, whether or not the lock entry is still there, or returns empty, and releases the lock |
| TokenProvider.DelegatedTokenProvider.Abort | blocks_genesis/_delegation/token_provider.py:104-123 | cancellation leaves the queue or releases the lock, and stores nothing |
| TokenProvider.DelegatedTokenProvider.Forget | blocks_genesis/_delegation/token_provider.py:125-130 | drops token and lock entry, whether or not the lock is held |
| TokenProvider.DelegatedTokenProvider.SweepExpired | blocks_genesis/_delegation/token_provider.py:216-224 | the loop removes exactly the unusable tokens, and of their locks exactly those nobody holds |
| TokenResponse.ServedFor | blocks_genesis/_delegation/token_provider.py:191-214 | how long a token just read is served: its stated lifetime (any value `int` takes, fractions and booleans included) less 60 s, or 60 s when none is stated; never exactly when the stated one is at most 60 s |
| TokenResponse.FirstOfIs | blocks_genesis/_delegation/token_provider.py:227-231 | the first spelling that is present supplies the value |
| TokenResponse.TokenIsRead | blocks_genesis/_delegation/token_provider.py:191-214 | the token read is the text under the first present of the three spellings, if it is not empty and the lifetime not infinite |
| TokenResponse.NoTokenIsRead | blocks_genesis/_delegation/token_provider.py:198-200 | an absent, null, false, zero or empty value is no token |
| GrantChain.ChainKeepsSubject | blocks_genesis/_delegation/grant_factory.py:39-159 | a chain of worker sends of any length keeps its root's tenant, organization and user with version and stamp, or tenant, organization and client, whatever contexts the messages carried |
| GrantChain.WrittenRecordsNameOneSubject | blocks_genesis/_delegation/grant_store.py:77-126 | every record ever written names exactly one kind of subject, completely |
| GrantChain.EveryGrantIsVouchedFor | blocks_genesis/_delegation/grant_factory.py:63-141 | behind every grant stands one with the same subject written under validated claims that carry its credentials |
| GrantChain.WorkerSendNeedsHeldGrant | blocks_genesis/_delegation/grant_factory.py:125-159 | without validated claims a send writes a grant only for the subject of the live, well-formed grant it holds |
| GrantChain.WorkerSendChains | blocks_genesis/_delegation/grant_factory.py:63-141 | the converse: a context naming the held grant's subject obtains a grant for it |
| GrantChain.PlannedGrants | blocks_genesis/_delegation/grant_factory.py:39-159 | a planned record names one subject, that of the held grant or one the claims vouch for |
| GrantChain.SendRaisesIff | blocks_genesis/_delegation/grant_factory.py:107-141 | a send raises exactly when it needs the held grant, holds a well-formed one, and the store read fails |
| GrantChain.UserSendObtainsIff | blocks_genesis/_delegation/grant_factory.py:103-141 | a user's send obtains a grant if and only if the claims carry both credentials, or neither and the held grant is readable and the same tenant's, user's and organization's; the whole record then written |
| GrantChain.ClientSendObtainsIff | blocks_genesis/_delegation/grant_factory.py:63-101 | a client's send obtains a grant if and only if the claims are a client's or the held grant is one of that client's in that tenant; the whole record then written |
| GrantChain.OthersObtainNothing | blocks_genesis/_delegation/grant_factory.py:41-61 | no one else's send obtains a grant or raises |
| GrantChain.StoreChanges | blocks_genesis/_delegation/grant_store.py:128-148 | which entries each step adds, takes away and leaves alone |
| GrantChain.RecordFollowsContext | blocks_genesis/_delegation/grant_store.py:77-126 | a record's tenant, user and a user's organization are the context's; it names an impersonation session or home tenant only while the context impersonates |
| GrantChain.ReadsUntilExpiry | blocks_genesis/_delegation/grant_store.py:128-138 | a written record reads back until its lifetime (the stated one if positive, else two days) has passed, and not after |
| GrantChain.Reachable | blocks_genesis/_delegation/grant_store.py:128-138 | every stored record is one that was written, every written or pending one is justified |
| GrantStore.DelegationGrants.WriteAsync | blocks_genesis/_delegation/grant_store.py:128-138 | the planned record is stored under a fresh well-formed id with a positive lifetime and reads back at once; every other entry is untouched |
| GrantStore.DelegationGrants.DeleteAsync | blocks_genesis/_delegation/grant_store.py:140-148 | removes exactly a well-formed id's entry; a malformed id or a failing removal changes nothing |
| GrantStore.DelegationGrants.GetAsync | blocks_genesis/_delegation/grant_store.py:150-168 | a record is returned for a well-formed, unexpired id only |
| GrantStore.DelegationGrants.CreateForSendAsync | blocks_genesis/_delegation/grant_factory.py:39-61 | plans exactly what the specification of a send decides, raises exactly when it does |
| GrantStore.DelegationGrants.CreateForUser | blocks_genesis/_delegation/grant_factory.py:103-141 | plans what the decision for a user says: claims first, then the held grant of the same user and organization |
| GrantStore.DelegationGrants.CreateForClient | blocks_genesis/_delegation/grant_factory.py:63-101 | the client of validated claims, or of a held client grant the context agrees with |
| Settlement.SettleOrder | blocks_genesis/_message/azure/azure_message_worker.py:179-225 | in every run of both workers a grant is removed only for a delivery that carried it, after its handler succeeded, its ack or complete returned and its cached token was dropped, in that order |
| Settlement.GrantKeptUntilRemoved | blocks_genesis/_message/azure/azure_message_worker.py:215-225 | from any moment at which it is stored, through any failures and abandons, a grant keeps its record and expiry until it is removed |
| Settlement.RedeliveryFindsGrant | blocks_genesis/_message/rabbit_mq/rabbit_message_worker.py:158-180 | a grant in the store at any moment of any run reads back unchanged at every later moment before its expiry, unless a delivery carrying it was handled and settled |
| Settlement.RedeliveryFindsWrittenGrant | blocks_genesis/_message/azure/azure_message_worker.py:191-225 | the same for a grant written during the run, while other deliveries are in flight |
| Settlement.HandlerSeesOwnGrant | blocks_genesis/_message/azure/azure_message_worker.py:136-143 | whatever ran before, a handler's ambient grant is its own message's header when that is well formed, else none |
| Settlement.IdleAzureLaneHoldsNothing | blocks_genesis/_message/azure/azure_message_worker.py:208-213 | between messages an Azure receiver holds no grant |
| Settlement.InterruptReleasesNothing | blocks_genesis/_message/rabbit_mq/rabbit_message_worker.py:149-180 | a cancelled handler never releases its grant: the Azure one is cleared away unsettled, the RabbitMQ one acked first |
| Settlement.Reachable | blocks_genesis/_message/azure/azure_message_worker.py:126-225 | every lane's state matches its delivery's progress |
| Workers.MessageWorkers.MessageHandler | blocks_genesis/_message/azure/azure_message_worker.py:126-213 | settled exactly when handler and complete both succeeded; then handled before acked before the token dropped, and the grant gone if its removal worked; otherwise abandoned and raised with the context cleared |
| Workers.MessageWorkers.CompleteMessage | blocks_genesis/_message/azure/azure_message_worker.py:189-193 | complete, then release; a failing complete leads to the abandon |
| Workers.MessageWorkers.ProcessAzureMessage | blocks_genesis/_message/azure/azure_message_worker.py:100-114 | one message of the receive loop, including the second abandon after a raise |
| Workers.MessageWorkers.HandleRabbitMessage | blocks_genesis/_message/rabbit_mq/rabbit_message_worker.py:123-180 | a handled message is acked whether or not its handler succeeded, the grant released only after success; an ack that fails, or an exception that escapes before the handler, leaves the header's well-formed grant set |
| Workers.MessageWorkers.AckRabbitMessage | blocks_genesis/_message/rabbit_mq/rabbit_message_worker.py:167-180 | ack, then release only if processed, then clear |
| Workers.MessageWorkers.ReleaseGrant | blocks_genesis/_message/azure/azure_message_worker.py:215-225 | the removal that is awaited after the token was dropped: an absent header releases nothing; a successful removal leaves the id out of the store for good |
| Workers.MessageWorkers.SettleReturns | blocks_genesis/_message/azure/azure_message_worker.py:189-224 | after a successful ack or complete of a handled message with a grant header, `invalidate` drops the cached token in the same stretch |
| Workers.MessageWorkers.Deliver | blocks_genesis/_message/azure/azure_message_worker.py:129-143 | a decoded message's well-formed header becomes the ambient grant, any other none; one that cannot be decoded goes to the loop's abandon or ends the callback |
| Workers.GoneStaysGone | blocks_genesis/_delegation/grant_store.py:140-148 | an id once used and removed is never stored again |
| SettledTokens.SecondExchangeNeedsSweepOrSettle | blocks_genesis/_message/azure/azure_message_worker.py:215-225 | in a process of message lanes and token redemptions, two exchanges of one grant overlap only if between their starts its lock was removed by a sweep or for a handled and settled delivery of that grant |
| SettledTokens.Reachable | blocks_genesis/_delegation/token_provider.py:125-130 | every `invalidate` the workers make is for a delivery that carried the grant and was handled and settled |
| SettledTokens.ReleaseDropsToken | blocks_genesis/_message/azure/azure_message_worker.py:215-225 | a settled delivery's release leaves the provider without token and lock for the grant |
| TraceBatches.Reachable | blocks_genesis/_lmt/mongo_trace_exporter.py:77-127 | in every interleaving the multiset of accepted documents is queue plus all thread buffers plus what was handed to inserts, and every batch of the worker's loop holds 1 to max(1, batch_size), fewer than that only when the queue ran dry |
| TraceBatches.TenantOrder | blocks_genesis/_lmt/mongo_trace_exporter.py:77-102 | with the worker as the only consumer each tenant's inserted documents keep the order they were accepted in |
| TraceBatches.ShutdownHandsOverAll | blocks_genesis/_lmt/mongo_trace_exporter.py:104-127 | a flush begun after the last export, with worker and all flushers ended, leaves nothing behind: all accepted documents were handed over exactly once |
| TraceBatches.FlushIgnoresWhatOthersHold | blocks_genesis/_lmt/mongo_trace_exporter.py:104-121 | a flush can return while another thread still holds documents, so the join matters |
| TraceBatches.ThreadEndsAfterStop | blocks_genesis/_lmt/mongo_trace_exporter.py:77-127 | after the stop event and the last export every thread ends within as many own steps as its rank, however the threads interleave |
| TraceBatches.StepConserves | blocks_genesis/_lmt/mongo_trace_exporter.py:36-47 | every single step of any thread conserves the accepted documents |
| TraceProgress.QueueAndLoops | blocks_genesis/_lmt/mongo_trace_exporter.py:36-47 | in every run the queue is the tail of what was accepted, within its capacity, and the worker leaves its loop only after the stop event |
| TraceProgress.ExportsAreAccepted | blocks_genesis/_lmt/mongo_trace_exporter.py:36-47 | an export is accepted unless a bounded queue is full |
| TraceProgress.TakenAreHanded | blocks_genesis/_lmt/mongo_trace_exporter.py:97-114 | what has left the queue is inserted or in some thread's hands |
| TraceProgress.WorkerDelivers | blocks_genesis/_lmt/mongo_trace_exporter.py:77-95 | a worker that is not stopped delivers: after a bounded number of its own steps, with any exports in between, all that had been accepted is inserted |
| TraceExporter.AppendHolds | blocks_genesis/_lmt/mongo_trace_exporter.py:83-87 | the per-tenant dictionary built by setdefault and append is the grouping of the entries taken, tenants in order of first appearance |
| TraceExporter.TailHolds | blocks_genesis/_lmt/mongo_trace_exporter.py:97-102 | dropping the first tenant's list leaves the grouping of everyone else's entries |
| TraceExporter.TotalIsCount | blocks_genesis/_lmt/mongo_trace_exporter.py:85-85 | the lengths in the dictionary add up to the number of entries taken |
| TraceExporter.SumLengths | blocks_genesis/_lmt/mongo_trace_exporter.py:85-85 | the loop's measure is that number |
| TraceExporter.TaggedDocsAre | blocks_genesis/_lmt/mongo_trace_exporter.py:97-100 | the list inserted for a tenant is exactly that tenant's entries in order |
| TraceExporter.MongoDBTraceExporter.Export | blocks_genesis/_lmt/mongo_trace_exporter.py:36-47 | all spans are queued in order, or a prefix of them and then the queue was full |
| TraceExporter.MongoDBTraceExporter.CollectBatch | blocks_genesis/_lmt/mongo_trace_exporter.py:82-89 | the batch dictionary groups exactly the entries taken from the queue |
| TraceExporter.MongoDBTraceExporter.FlushToMongo | blocks_genesis/_lmt/mongo_trace_exporter.py:97-102 | every tenant's list is inserted and the buffer ends empty, whatever other threads do meanwhile |
| TraceExporter.MongoDBTraceExporter.InsertMany | blocks_genesis/_lmt/mongo_trace_exporter.py:98-100 | one insert hands over one tenant's documents and leaves the others buffered |
| TraceExporter.MongoDBTraceExporter.FlushRemaining | blocks_genesis/_lmt/mongo_trace_exporter.py:104-114 | drains the queue, inserts what was drained and ends with nothing held |
| TraceExporter.MongoDBTraceExporter.Run | blocks_genesis/_lmt/mongo_trace_exporter.py:77-95 | the worker ends, holding nothing, once the stop event comes |
| TraceExporter.MongoDBTraceExporter.Pass | blocks_genesis/_lmt/mongo_trace_exporter.py:80-93 | one turn of the loop starts and ends with an empty buffer |
| TraceExporter.MongoDBTraceExporter.ForceFlush | blocks_genesis/_lmt/mongo_trace_exporter.py:116-121 | waits for an empty queue for a bounded time, then drains in a flush of its own; whatever was queued at the call is then inserted or in another thread's hands, and without a later export the queue is empty |
| TraceExporter.MongoDBTraceExporter.Shutdown | blocks_genesis/_lmt/mongo_trace_exporter.py:123-127 | stop, join for a bounded time or until the worker has ended, drain; what was accepted before is inserted or in another thread's hands; with every thread through and no later export the database holds exactly what was accepted |
| LogBatches.Batching | blocks_genesis/_lmt/mongo_log_exporter.py:99-137 | inserted batches, batch in hand and queue spell what was enqueued, in order; batches hold 1 to batch_size documents, exactly batch_size while not stopping; the loop head has fewer pending; what is missing at the end is what was still queued |
| LogBatches.WorkerDelivers | blocks_genesis/_lmt/mongo_log_exporter.py:111-126 | while nobody stops it, three worker steps per queued document and three more suffice for all that had been enqueued to be inserted, in order, or to start the one batch in hand |
| LogBatches.AcceptedIsEnqueued | blocks_genesis/_lmt/mongo_log_exporter.py:99-109 | what the logger accepts is what its callers enqueued, in order |
| LogBatches.WorkerEndsAfterStop | blocks_genesis/_lmt/mongo_log_exporter.py:113-132 | once stopped the worker ends within four steps of its own |
| LogBatches.MongoBatchLogger.Pass | blocks_genesis/_lmt/mongo_log_exporter.py:113-126 | one turn of the loop: wait, append, flush when due |
| LogBatches.MongoBatchLogger.InsertMany | blocks_genesis/_lmt/mongo_log_exporter.py:120-126 | hands over the whole batch in hand and clears it |
| LogBatches.MongoBatchLogger.BackgroundWorker | blocks_genesis/_lmt/mongo_log_exporter.py:111-132 | the worker ends after the stop event with nothing in hand |
| LoadTable.ReleaseKeepsInv | blocks_genesis/_auth/third_party_provider_store.py:60-66 | the identity check: a returning waiter never removes a newer load's entry, and every running load stays in the table |
| LoadTable.OneRunningLoad | blocks_genesis/_auth/third_party_provider_store.py:54-58 | two running loads of one id are the same load |
| ProviderStore.OneLoadPerTenant | blocks_genesis/_auth/third_party_provider_store.py:40-69 | in every interleaving at most one load per tenant runs at a time |
| ProviderStore.AnswersWereLoaded | blocks_genesis/_auth/third_party_provider_store.py:46-69 | every answer is the result of a completed load for that very tenant; one from the cache was recorded at most 60 s before |
| ProviderStore.ServedWhileFresh | blocks_genesis/_auth/third_party_provider_store.py:49-69 | through any run that neither invalidates the tenant nor collects another load for it, a collected list answers exactly the callers of the next 60 s at once; the time counts from the waiter's resumption |
| ProviderStore.InvalidateForcesLoad | blocks_genesis/_auth/third_party_provider_store.py:54-74 | after `invalidate` the next caller awaits a load, the one already in flight if there is one |
| ProviderStore.LateWaiterKeepsNewerLoad | blocks_genesis/_auth/third_party_provider_store.py:60-66 | a waiter that comes back late leaves a newer load joinable |
| ProviderStore.LoadReachesItsWaiters | blocks_genesis/_auth/third_party_provider_store.py:60-69 | what a load brings reaches everyone who waits for it, however late, and is what each then records |
| ProviderStore.MissAwaitsALoad | blocks_genesis/_auth/third_party_provider_store.py:49-61 | a caller that finds nothing fresh awaits the load in the table, or the one it starts |
| ProviderStore.EntriesAreAwaited | blocks_genesis/_auth/third_party_provider_store.py:60-66 | in every run the table holds only loads somebody still awaits, so a finished load is never joined after its first waiter is back |
| ProviderStore.ThirdPartyJwtProviderStore.GetActive | blocks_genesis/_auth/third_party_provider_store.py:46-61 | blank id, fresh cache entry, or a joined or started load |
| ProviderStore.ThirdPartyJwtProviderStore.Resume | blocks_genesis/_auth/third_party_provider_store.py:60-69 | clears its own load's entry, records the list with the time, returns it |
| ProviderStore.ThirdPartyJwtProviderStore.Drop | blocks_genesis/_auth/third_party_provider_store.py:71-74 | forgets the cached list and leaves a load in flight alone |
| TenantService.CacheKeysAndLoads | blocks_genesis/_tenant/tenant_service.py:74-133 | in every reachable state each tenant is cached under its own id and at most one load per id runs |
| TenantService.LoadedTenantIsServed | blocks_genesis/_tenant/tenant_service.py:77-97 | a tenant found by a load answers every later caller at once under the id it carries itself, through any run that leaves that entry alone |
| TenantService.LoadReachesItsWaiters | blocks_genesis/_tenant/tenant_service.py:89-97 | what a load brings reaches everyone who waits for it, and a tenant is cached under its own id |
| TenantService.MissAwaitsALoad | blocks_genesis/_tenant/tenant_service.py:74-90 | no id, a cached tenant, or the load in the table or newly started |
| TenantService.EntriesAreAwaited | blocks_genesis/_tenant/tenant_service.py:90-94 | in every run the table holds only loads somebody still awaits |
| TenantService.FoundTenantIsCached | blocks_genesis/_tenant/tenant_service.py:131-134 | a tenant found by its domain is cached under its own id, and nobody else's entry changes |
| TenantService.LastMessageWins | blocks_genesis/_tenant/tenant_service.py:210-267 | after any messages the cache holds for a tenant what the last valid message naming it left |
| TenantService.UnnamedUntouched | blocks_genesis/_tenant/tenant_service.py:210-267 | messages that do not validly name a tenant leave its entry as it was |
| TenantService.HandleUpdateEffect | blocks_genesis/_tenant/tenant_service.py:217-267 | what one message does to any tenant's entry |
| TenantService.MessageMeans | blocks_genesis/_tenant/tenant_service.py:217-267 | a valid upsert stores its document, or drops a disabled tenant, a valid removal drops the entry, and nothing else touches it |
| TenantService.ValidMessages | blocks_genesis/_tenant/tenant_service.py:210-245 | which messages are valid for which tenant, in terms of the message's own fields |
| TenantService.UpdatesCommute | blocks_genesis/_tenant/tenant_service.py:247-267 | messages about different tenants commute |
| TenantService.NormalizeIdempotent | blocks_genesis/_tenant/tenant_service.py:217-245 | normalising twice is normalising once |
| TenantService.PublishedFormHasSameEffect | blocks_genesis/_tenant/tenant_service.py:182-202 | publishing the normalised form changes nothing for a subscriber |
| TenantService.MessagesFold | blocks_genesis/_tenant/tenant_service.py:291-312 | over messages alone the running cache is the fold of the messages |
| TenantService.TenantServiceState.GetTenant | blocks_genesis/_tenant/tenant_service.py:74-88 | empty id, cached tenant, or a joined or started load |
| TenantService.TenantServiceState.Resume | blocks_genesis/_tenant/tenant_service.py:89-97 | clears its own load's entry and caches a found tenant under the tenant's own id |
| TenantService.TenantServiceState.ApplyUpdateMessage | blocks_genesis/_tenant/tenant_service.py:247-267 | remove, drop a disabled tenant, or store |
| TenantService.TenantServiceState.CacheFoundTenant | blocks_genesis/_tenant/tenant_service.py:131-134 | a tenant found by its domain is cached under its own id |
| Senders.SenderExclusion | blocks_genesis/_message/azure/azure_message_client.py:145-165 | in every run no sender object ever has two sends inside it |
| Senders.AttemptsAndRebuilds | blocks_genesis/_message/azure/azure_message_client.py:152-165 | no call makes more than two attempts, and a sender that failed a first attempt is never sent through again by anyone |
| Senders.RightKind | blocks_genesis/_message/azure/azure_message_client.py:66-82 | the sender a call is inside was built for its destination, of the configured kind |
| Senders.FailedSenderStaysIffRetry | blocks_genesis/_message/azure/azure_message_client.py:84-97 | a failed sender stays stored exactly when the failed attempt was the retry |
| Senders.EndsAsAttemptsSay | blocks_genesis/_message/azure/azure_message_client.py:152-179 | a call ends well exactly if its last attempt succeeded, badly only after two failed ones |
| Senders.SendersAreShared | blocks_genesis/_message/azure/azure_message_client.py:79-97 | a destination's sender stays the shared one until a first attempt on it fails |
| SenderQueues.WaitersCanProceed | blocks_genesis/_message/azure/azure_message_client.py:152-152 | no wake-up is lost: behind every waiting call there is a call inside its destination's sender, or a free lock whose head waiter may resume |
| SenderQueues.QueueIsFair | blocks_genesis/_message/azure/azure_message_client.py:152-152 | those who wait for a destination stand in the order in which they came |
| Senders.Reachable | blocks_genesis/_message/azure/azure_message_client.py:58-97 | table, locks, calls and attempts agree in every reachable state; a lock is held only by a call inside its destination's sender |
| MessageClient.AzureMessageClient.constructor | blocks_genesis/_message/azure/azure_message_client.py:36-64 | one sender per configured destination |
| MessageClient.AzureMessageClient.InitializeSenders | blocks_genesis/_message/azure/azure_message_client.py:58-64 | the loop over queues and topics builds each name's sender |
| MessageClient.AzureMessageClient.FindSender | blocks_genesis/_message/azure/azure_message_client.py:79-82 | the stored sender, built if it is missing |
| MessageClient.AzureMessageClient.PopStale | blocks_genesis/_message/azure/azure_message_client.py:84-92 | the failed sender leaves the table before it is closed |
| MessageClient.AzureMessageClient.Retry | blocks_genesis/_message/azure/azure_message_client.py:93-97 | after the close the retry runs on a sender built just then |
| MessageClient.AzureMessageClient.SendToAzureBus | blocks_genesis/_message/azure/azure_message_client.py:145-179 | published after one attempt if the first succeeds, after two if only the second does, raised after two if both fail, each step one of the machine's |
| LockRenewal.StartAutoRenewalTask | blocks_genesis/_message/azure/azure_message_worker.py:253-300 | for a positive interval the loop ends; before its last round every round renewed within the limit with the handler at work; in the last one the handler ends, the limit has passed or the renewal fails, whichever it reports; renewals times interval stay within the limit |
| LockRenewal.LastRoundMeans | blocks_genesis/_message/azure/azure_message_worker.py:271-298 | which round is the last, in terms of the handler, the limit and the renewals alone |
| LockRenewal.RenewalBound | blocks_genesis/_message/azure/azure_message_worker.py:271-292 | renewals times interval never exceed the maximum processing time |
| LockRenewal.EndsWithin | blocks_genesis/_message/azure/azure_message_worker.py:271-287 | whatever the world does there is a last round, before the interval has passed more often than fits the limit |
| LockRenewal.HeldUntilIff | blocks_genesis/_message/azure/azure_message_worker.py:271-298 | after any number of renewals the lock is held without a break up to any later moment exactly when every stretch between renewals, and the one left, fits its lifetime |
| LockRenewal.NeverLapsesIff | blocks_genesis/_message/azure/azure_message_worker.py:271-298 | from start to end of the loop, a last call included, the lock never lapses exactly when every stretch from one renewal to the next fits the lock's lifetime |
| LockRenewal.ConfiguredLockHolds | blocks_genesis/_message/azure/config_azure_service_bus.py:41 | with a 300 s lock and a 270 s interval, under 30 s beside the interval from renewal to renewal, and up to the end of a round the loop reaches, keeps the lock until that end; so until the handler ends, in a wait or during a call, or the limit stops the loop |
| LockRenewal.PerRoundBoundIsNotEnough | blocks_genesis/_message/message_configuration.py:23-24 | 30 s per round does not suffice: a world in which the lock lapses between two renewals |
| Algorithms.WireNamesAreExact | blocks_genesis/_auth/jwt_signing_algorithm.py:54-68 | the wire names are the configured algorithms', each once, and no others |
| Algorithms.ToWireNamesOf | blocks_genesis/_auth/jwt_signing_algorithm.py:54-68 | the loop computes that list |
| Algorithms.NamesShareFamily | blocks_genesis/_auth/jwt_signing_algorithm.py:71-85 | with one key source the names are there and all of one family |
| Algorithms.NumbersAndNames | blocks_genesis/_auth/jwt_signing_algorithm.py:14-51 | each stored number's algorithm has the wire name of its family and hash |
| Algorithms.KnownAlgorithmsAre | blocks_genesis/_auth/third_party_provider.py:141-153 | a stored number this build does not know is dropped, every other kept |
| Algorithms.SingleKeySourceMeans | blocks_genesis/_auth/jwt_signing_algorithm.py:71-85 | one key source: something configured, all of it named, and all or none of it MACs |
| Selection.SelectedIffChosen | blocks_genesis/_auth/third_party_selector.py:63-145 | a provider is selected if and only if it is in the token's issuer lane, accepts its audience, and is the only such entry or the first such one the header names |
| Selection.OutcomeSays | blocks_genesis/_auth/third_party_selector.py:63-133 | which outcome is reported, in terms of the lane, the audience and the header |
| Selection.OrderDoesNotMatter | blocks_genesis/_auth/third_party_selector.py:63-133 | with unique keys the outcome does not depend on the order of the list |
| Selection.OnlyTheLaneMatters | blocks_genesis/_auth/third_party_selector.py:72-89 | lists with the same non-empty lane give the same outcome |
| Selection.OutsiderIgnored | blocks_genesis/_auth/third_party_selector.py:72-89 | a provider of another issuer can be added or removed anywhere without effect |
| Validation.SelectionAgreesWithChecks | blocks_genesis/_auth/auth.py:1144-1165 | the routed token passes a selected provider's audience check except exactly when its audience list holds something other than strings and the provider checks audiences, and its issuer check except exactly for a whitespace-only, non-empty issuer the token does not carry |
| Validation.BlankIssuerIsSelectedThenRefused | blocks_genesis/_auth/third_party_selector.py:72-80 | an instance of the issuer exception |
| Validation.MixedAudienceIsSelectedThenRefused | blocks_genesis/_auth/third_party_selector.py:136-145 | an instance of the audience exception |
| Validation.KeyKindMatchesAlgorithms | blocks_genesis/_auth/auth.py:692-757 | whenever a key is resolved the accepted names are non-empty, exactly the configured ones, and MACs if and only if the key is the decrypted secret |
| Validation.KeyIs | blocks_genesis/_auth/auth.py:579-757 | exactly when a key is found and which: the decrypted secret for MACs, else the JWKS key when one is configured, else the certificate's, opened with its decrypted passphrase |
| Validation.OptionsInsist | blocks_genesis/_auth/auth.py:1151-1165 | for any token the options make the decoder insist on a provider's issuer and audiences whenever it has any |
| Validation.ProviderForToken | blocks_genesis/_auth/auth.py:541-557 | the provider for a token in terms of its own claims: the only one it belongs to and that accepts it, or the first such the header names |
| Signature.SignatureInputInjective | blocks_genesis/_delegation/constants.py:52-54 | equal inputs imply equal tenant, id, nonce and time, even for tenants containing the separator |
| Signature.ReadBuilt | blocks_genesis/_delegation/constants.py:52-54 | the input can be read back from the right |
| Signature.WellFormedIffGenerated | blocks_genesis/_delegation/signature.py:21-40 | the well-formed ids are exactly the generated ones, each from one choice of bytes |
| Signature.WellFormedMeans | blocks_genesis/_delegation/signature.py:31-40 | well formed is dg_ and 64 lower-case hexadecimal characters |
| Signature.NoLeadingZero | blocks_genesis/_delegation/constants.py:52-54 | the time is written without needless zeros |
| Signature.BytesOfHex | blocks_genesis/_delegation/signature.py:26-28 | a nonce's hex determines its bytes |
| ContextTransport.SanitizeThenRestore | blocks_genesis/_auth/blocks_context.py:118-175 | restoring a sanitised context gives it back but for masked email and phone, blank token, filled original tenant and dropped impersonation session |
| ContextTransport.CarriedIsRebuilt | blocks_genesis/_auth/blocks_context.py:157-175 | the same for any payload in which each field is found under either of its spellings |
| ContextTransport.SnakeCaseRestoresTheSame | blocks_genesis/_auth/blocks_context.py:168-173 | a snake_case payload restores the same context as the wire names |
| ContextTransport.UnknownKeysAreIgnored | blocks_genesis/_auth/blocks_context.py:161-175 | a key that names no field changes nothing |
| ContextTransport.WireSettles | blocks_genesis/_auth/blocks_context.py:118-155 | the wire form is fixed from the second sanitising on for every context, and from the first exactly unless the phone has one to three characters and is not three asterisks |
| ContextTransport.IdentityTravels | blocks_genesis/_auth/blocks_context.py:97-175 | tenant, user, roles, permissions, organization, client and session, and every other field that is not masked, are the same after any number of hops; no token or impersonation session ever arrives |
| ContextTransport.MaskPhoneTwice | blocks_genesis/_auth/blocks_context.py:131-132 | masking a phone number twice is masking it once exactly unless it is short; three times is always twice |
| ContextTransport.MaskEmailTwice | blocks_genesis/_auth/blocks_context.py:128-129 | masking an address twice is masking it once |
| ContextTransport.EmailHidesTheRest | blocks_genesis/_auth/blocks_context.py:128-129 | of an address only the domain travels |
| ContextTransport.PhoneShowsTheEnd | blocks_genesis/_auth/blocks_context.py:131-132 | of a phone number only the last four characters travel, or all of a shorter one |
| ContextTransport.WireIdentity | blocks_genesis/_auth/blocks_context.py:136-155 | who a message speaks for, key for key |
| ContextTransport.WireDetails | blocks_genesis/_auth/blocks_context.py:136-155 | the rest of the wire form, key for key |
| ContextTransport.RebuiltIdentity | blocks_genesis/_auth/blocks_context.py:168-175 | who a context rebuilt from any payload is, key by key in both spellings |
| ContextTransport.RebuiltDetails | blocks_genesis/_auth/blocks_context.py:168-175 | the rest of a rebuilt context |
| ContextTransport.RestoredOrNot | blocks_genesis/_auth/blocks_context.py:165-175 | an empty payload restores nothing, any other a context unless a field has a value of another type |
| ContextTransport.NamesDiffer | blocks_genesis/_auth/blocks_context.py:97-116 | no two fields share a name in either spelling or across them |
| ContextTransport.RestoreFromTransport | blocks_genesis/_auth/blocks_context.py:157-175 | the loop over the field table restores what the specification says |
| HandleCache.OneClientPerConnection | blocks_genesis/_database/mongo_context.py:72-86 | under any thread interleaving at most one client is ever created for a connection |
| HandleCache.AnswersAreAFunction | blocks_genesis/_database/mongo_context.py:47-64 | equal requests get the same handle, different ones different handles, each from its own connection's client |
| HandleCache.AnsweredOnceAnsweredAlways | blocks_genesis/_database/mongo_context.py:53-56 | once a request was answered every later one like it gets the same handle without the lock |
| HandleCache.Reachable | blocks_genesis/_database/mongo_context.py:47-86 | lock, threads, stored handles and clients agree in every reachable state |
| HandleCache.MongoDbContextProvider.GetDatabaseByConnection | blocks_genesis/_database/mongo_context.py:47-64 | an empty string is refused, a stored handle is answered at once and changes nothing, otherwise the lock is taken and a missing handle built and stored |
| HandleCache.MongoDbContextProvider.UnderLock | blocks_genesis/_database/mongo_context.py:58-64 | looks again under the lock, builds what is still missing, releases in every case |
| HandleCache.MongoDbContextProvider.GetClient | blocks_genesis/_database/mongo_context.py:72-86 | the stored client, or a new one kept for its connection |

## Left out

- Foreign services (Redis, MongoDB, Service Bus, RabbitMQ, HTTP, the key vault): abstract maps, queues and outcomes.
- Cryptography, certificates, JWKS and JWT decoding: the model keeps the options passed in and the kind of key that comes out; HMAC values and `verify` are not modelled.
- Logging, tracing spans, FastAPI wiring, middleware, startup, secret loading, subscription usage, permission queries, base entities: no property that spans steps.
- asyncio locks: free for a newcomer only when nobody holds them and nobody waits, with a gap between a release and the head waiter's resumption; the load locks of the provider store and tenant service guard stretches without awaits, so taking them is part of one atomic step.
- Thread steps of the exporters: taking an entry and appending it to a thread-local dictionary is one step, as the dictionary is not shared.
- Inserts that fail: an insert counts as handing the documents over whether or not the database takes them; an exception that is not a driver error would end the trace worker and is not modelled.
- Grant ids: fresh random bytes are assumed never to repeat an id already used.
- JSON and ISO dates: assumed inverse encodings; the record's own JSON form is not modelled, and neither is pydantic's coercion of values of another type, nor a payload date that does not parse.
- Token exchange request: building and sending the form is an outcome.
- Claims of odd types: an `aud` that is neither string nor list, and an `iss` that is no string, raise in routing or in the decoder and are not modelled.
- Handler code: it may fail, raise or be cancelled, but does not itself change the ambient grant or cancel the loads it awaits; callers of the provider store and tenant service are not cancelled, since that cancels a shared load.
- Azure renewal table: `_active_message_renewals` is only an index of events and is left to `LockRenewal`, which takes event, clock and broker as given by the world; a wait that times out is taken to last at least the interval.
- Several processes: `SettledTokens` follows the token provider of one; the others share the store.
- Sender construction and JSON encoding failures in a send: `_build_sender` is taken not to raise.
- `get_tenant_by_domain`: the scan by domain is left out, its cache write is an action of the machine.
- Tenant ids with non-ASCII case: `Lower` maps the ASCII letters only, which is all that comparing with `upsert` and `remove` needs.
- Impersonation fields of a chained grant come from the message context and are not part of the subject that chains keep.
