# Drukbox: a model of the host protocol and its helpers

Drukbox rents out sandbox hosts: virtual machines at several providers, behind one table of rows. Many processes work on
that table at once. Requests create a host or claim a warm one, provision it in six statuses, stamp its lease and record
an idempotency key; renewals, deletes, the pool maintainer and the janitor run against the same rows; and any process may
stop anywhere. The first half of this project is a model of that protocol as a step system, with theorems about every
reachable state and every run. The second half models the parts around it that have a rule of their own to keep: the plan
of a pool tick, the secrets exchange, the shared SFTP server, the shared device poller, the header swap of the proxy, and
the texts that one process writes and another parses.

## How it is built

- `hosts/HostModel.dfy` and `hosts/HostProtocol.dfy` hold the data and the step system. One state has the clock, the rows,
  the keys, the machines at the providers, the processes with their program counters, and the running pool ticks. A step
  is one transaction or one provider call of one process. Row locks and advisory locks are read off the program counters,
  so a process that stops lets go of them. `IsRun` is a run of any length.
- `hosts/HostSafety.dfy` proves the invariant under every theorem (`Safe`), step by step. `HostClaims`, `HostIdempotency`,
  `HostLosers`, `HostLeases`, `HostStamp`, `HostTeardown`, `HostOwn`, `HostCapacity` and `PoolBound` each prove one family of
  theorems over runs; `PoolOverlap` has the runs that reach the bound of the last. `hosts/HostReachable.dfy` shows that the start of
  the service has every invariant these ask for, and states them for every reachable state.
- `hosts/HostHazards.dfy` has runs in which the code does not do what one might expect. The theorems need a condition where
  such a run exists, and `hosts/HostForced.dfy` shows for every state of the kind, not only for one, that the condition is
  exact: the theorem is one half and a run that goes wrong is the other.
- `hosts/HostStore.dfy` is the service as a class over mutable tables. Each method is the code between two points where
  others may run; its contract says what it leaves in the tables and which step of the protocol it is.
  `hosts/HostRequests.dfy` builds whole requests, deletes and reaps from these methods. Before each statement any others may
  take any steps. The service logs the run, so the theorems about runs are theorems about what these methods answer.
- `secrets/SecretsProtocol.dfy` is the exchange as a step system. `SecretsSchedules` and `SecretsDeliveries` prove what holds
  over every schedule, `SecretsOrigins` where a value comes from and what begins when, and `SecretsExchange` is the exchange
  over objects, each method being one step of it.
- `pool/`, `gateway/` and `networking/` follow the source's classes and loops. In the concurrent ones a method is the code
  between two awaits, or under one lock; the class invariant is then what holds at every await or at every release of the
  lock.
- `proxy/` and `providers/` hold printers beside the parsers that read their output; `providers/Pattern.dfy` has the regular
  expressions of the environment as such.

Where the code and the words around it differ, the model follows the code:

- The setup script of exe.dev is limited in characters of the encoded text; the message calls them bytes.
- The module of the pool says that overlapping ticks exceed the target by one batch at most. Three ticks that count before
  any of them creates can exceed it by two batches: `PoolOverlap.PoolReachesExactly` has the exact maximum, one batch for
  each tick but one. Lost races may hand members back on top (`PoolBound.PoolStaysBounded`).
- The janitor says that the lease is validated under the row lock. So it is, but with a device to release the commit of
  the cleared device ends that lock before the machine and the row go.
- The proxy catches the errors of base64 and of UTF-8, but not the one that a Basic credential outside ASCII raises
  before either (`PlaceholderIn.RaisesExactlyOnForeignBasic`). The request is then not rewritten.
- No value is delivered twice by pushes that follow each other. Pushes of one entry that overlap are not kept apart:
  `SecretsDeliveries.OverlappingPushesDeliverTwice` is such a schedule, and `DeliveredOnceExactly` says which ones are.
- The docstring of the device waiter says that two calls for one host name do not happen. The contracts of
  `DeviceWaiter.Waiter.Register` and `Resume` say what happens if they do, and that nothing else strands a waiter.

## Assumptions

- Providers keep the host name they were asked for. A clock reading and the statement that uses it are one instant, except
  where the code stores the reading: the claim, the failure and the release of a loser keep their own.
- The database is PostgreSQL at read committed. A row lock lasts to the next commit of its session; the insert of a key
  waits for the lock of its host, as a foreign key does.
- A creator that stops takes its provider call with it; `ReapsAbandoned` asks that no create_vm call is under way.
- A secret object is named by the fetch that brought it, an entry object by the step that made it. Two of them are one
  object exactly if these names are equal.
- `Row.writer` and `Row.permanent` are history: the table has no such columns. They say which statement wrote a lease.
- Every assignment of a column is written, also when the value is the same.
- Creates of one tick may overlap in the model, a tick may list what it sheds at any moments after its count, and a janitor
  may pick any row, so the theorems cover more runs than the code has.
- A settings value of zero for a limit, a target or a lifetime means that there is none, as in the source.
- A process of the sandbox whose close raises is gone.
- Header names are ASCII. The header multimap is that of mitmproxy, which is not part of this model beyond three
  operations: a delete drops every field of a name, a set gives the value to the first field of the name and drops the
  others, and names compare without case.
- Base64 refuses padding after a whole group, as section 4 of RFC 4648 has it.

## Model

| member | source | states |
|---|---|---|
| HostClaims.ExclusiveClaims | src/hosts/service.py:172-208 | in every state of every run a host is in the hands of at most one request, a pool member in someone's hands is claimed, and only pool members are claimed or shed |
| HostClaims.ClaimLasts | src/hosts/service.py:363-388 | no step but its holder's own release clears or moves a claim |
| HostIdempotency.IdempotencyConverges | src/hosts/service.py:108-162 | any two requests with one key that answer, at any time and in any interleaving, answer with the host of the record, while the record neither expires nor loses its host |
| HostIdempotency.NoRequestConverges | src/hosts/service.py:323-342 | a state in which no request with the key has begun is a start from which the requests converge |
| HostLosers.LoserReturnsWinner | src/hosts/service.py:150-162 | a request that lost the race answers with another host; its own is deleted, expired, or back in the pool with claim and account cleared, unless a step of another process leased it anew between its release and the answer |
| HostLosers.ReleaseWritesLoser | src/hosts/service.py:363-388 | right after the release the loser's host is back in the pool unclaimed, or has expired if it never was of the pool |
| HostLosers.LoserLetGo | src/hosts/service.py:150-158 | every loser that looks for its winner has let its own host go in a step of its own, whatever ran since |
| HostIdempotency.RecordIsSafeExactly | src/hosts/service.py:338-342 | in any state, no step takes away a record whose host stays if and only if no delete of that key is under way |
| HostIdempotency.RecordPersists | src/hosts/service.py:344-361 | a record that neither expires nor loses its host is never replaced |
| HostLeases.NothingLeaks | src/hosts/janitor.py:27-32 | in every reachable state a row that is not active expires, an errored row has expired, and no end means an active permanent host on a provider without a maximum lifetime |
| HostLeases.OutcomesAreFinal | src/hosts/service.py:629-644 | active never turns to error, and an errored row keeps its status and its end until it is deleted |
| HostLeases.RowEvolves | src/hosts/service.py:491-603 | a step keeps the identity of a row, and a row once there never changes its name, provider or pool |
| HostLeases.StaysGone | src/hosts/service.py:487-489 | a deleted host never comes back, over every run |
| HostStamp.StampOverRun | src/hosts/service.py:272-321 | from the insert to the stamp: if no renewal and no claim reached the row in between it still has its safety term, and a row with that term ends at the requested end or where the provider stops the machine, whichever is first, at that stop if the request is permanent, and nowhere if there is neither; any other row stays as it is |
| HostLeases.StampSparesWriters | src/hosts/service.py:308-321 | one step of the stamp, by the writer of the lease it finds: a term nobody wrote gives way to the lease asked for, cut to the lifetime of the provider |
| HostLeases.ClaimGetsItsEnd | src/hosts/service.py:186-203 | a claim with an explicit end gets exactly that end, and every claim ends where its request asks, cut to the lifetime of the provider |
| HostLeases.LeaseChangesAreOwned | src/hosts/service.py:308-319 | only a renewal, the claim, the release by the loser, the failure and the stamp of the creator change a lease |
| HostTeardown.NoVmIsOrphaned | src/hosts/service.py:437-489 | in every state of every run, whatever steps fail and whichever processes stop, each machine at a provider is named by a row, if no reap takes a row while its create_vm call is under way |
| HostForced.ReapOrphansExactly | src/hosts/janitor.py:15-43 | from every state in which the janitor is about to lock an expired row that is still provisioning, a machine can be orphaned if and only if the create_vm call of the row is under way |
| HostTeardown.StatusesSplit | src/hosts/service.py:44-57 | the three early statuses are the blocked ones, and the other set has the other three |
| HostTeardown.GuardedDelete | src/hosts/service.py:446-488 | a shed removes the row unclaimed and a reap removes it after its lease, at the moment the row goes, when the lock lasts |
| HostTeardown.LockLastsExactlyWithoutDevice | src/hosts/service.py:462-472 | a delete that comes to its row still holds the lock if and only if there was no device to release at the lock |
| HostForced.ReapGuardExactly | src/hosts/service.py:455-488 | from every state in which a reap is about to lock an expired row that may still be renewed, a run exists that takes a live lease away if and only if the row has a device to release |
| HostForced.ShedGuardExactly | src/hosts/service.py:451-488 | from every state in which a shed is about to lock a warm member that a request is about to claim, a run exists that takes the claimed host away if and only if the row has a device to release |
| HostCapacity.ProviderCapacity | src/hosts/service.py:294-299 | the live hosts of a limited provider stay within its limit in every run in which no step is about to extend a lapsed row of it |
| HostCapacity.AccountCapacity | src/hosts/service.py:113-122 | the live hosts of an account stay within its limit in every run in which no lapsed row is extended and no claim of the account loses its race |
| HostCapacity.StepKeepsLimitExactly | src/hosts/service.py:294-299 | any step of any process keeps the limit of a provider if and only if it is not about to extend a lapsed row of it, read off the row, the action and the program counter before the step, or there is room for one more |
| HostCapacity.RevivesExactly | src/hosts/service.py:308-442 | what the renewal, the claim, the stamp and the release of a pool host would write decides before the step whether a lapsed row comes back to life, and no other step does that |
| HostForced.AccountOverrunExactly | src/hosts/service.py:192-225 | from every state with a claim under the account lock, one place left and a rival waiting to count, a run exists that takes the account over its limit if and only if the claim is lost |
| PoolBound.PoolStaysBounded | src/hosts/pool.py:29-37 | with K tick slots the warm members of a provider never exceed the larger of the start and target + (K-1) * min(cap, target), plus the lost-race returns |
| PoolOverlap.PoolReachesExactly | src/hosts/pool.py:29-112 | from an empty pool, the runs of K tick slots with whole plans and no lost-race return reach n warm members of the only pooled provider if and only if n <= target + (K-1) * min(cap, target) |
| PoolOverlap.OverlapsAddUp | src/hosts/pool.py:98-137 | from w warm members below the target, K idle tick slots reach w + K * min(cap, target - w), each tick making its hosts one after the other to the end |
| HostReachable.StartIsSound | src/hosts/service.py:86-162 | the start of the service satisfies every invariant that the theorems ask of their first state |
| HostReachable.ReachableIsSafe | src/hosts/service.py:86-162 | every reachable state satisfies the invariants |
| HostReachable.OneHostPerKey | src/hosts/service.py:108-162 | from the start: all requests with one key that answer, answer with one host |
| HostReachable.LosersAnswerWithWinner | src/hosts/service.py:150-162 | from the start: a loser lets its host go and answers with the winner's |
| HostReachable.OneHolderPerHost | src/hosts/service.py:172-208 | in every reachable state no host is in two hands |
| HostReachable.JanitorSeesAll | src/hosts/janitor.py:27-32 | in every reachable state nothing leaks past the janitor |
| HostReachable.EveryVmHasItsRow | src/hosts/service.py:437-489 | from the start: each machine is named by a row |
| HostReachable.ProviderStaysWithin | src/hosts/service.py:294-299 | from the start: a provider stays within its limit while no step is about to extend a lapsed row of it |
| HostReachable.AccountStaysWithin | src/hosts/service.py:113-122 | from the start: an account stays within its limit |
| HostReachable.PoolFromEmpty | src/hosts/pool.py:29-37 | from the start: the warm members of a provider number at most target + (K-1) * min(cap, target) plus the lost-race returns |
| HostHazards.ShedTakesClaimedHost | src/hosts/service.py:462-488 | a run in which a shed deletes a host that was claimed after the device was cleared |
| HostHazards.StaleDeleteDiverges | src/hosts/service.py:338-342 | a run in which a late delete of a stale key drops a fresh record, and one key answers with two hosts |
| HostHazards.RenewalExceedsLimit | src/hosts/service.py:403-421 | a renewal of a lapsed row that lifts its provider over the limit |
| HostHazards.LostClaimExceedsLimit | src/hosts/service.py:192-208 | a run in which the commit of a lost claim gives up the account lock, and the account ends over its limit |
| HostStore.HostService.FindRecord | src/hosts/service.py:323-326 | the select of the record is one protocol step, and gives the record of the key |
| HostStore.HostService.FindRecordedHost | src/hosts/service.py:327-337 | an unexpired record with a host answers, another account is refused, anything else is stale |
| HostStore.HostService.CollectStaleKey | src/hosts/service.py:338-342 | the key has no record afterwards, whatever record it had, and every other key keeps its own |
| HostStore.HostService.CheckAccountLimit | src/hosts/service.py:113-137 | only an account other than admin is limited; it is admitted if and only if its hosts that are neither errored nor expired are below the limit, and then a plain request for a provider with a pool goes to the warm hosts and every other one makes its own |
| HostStore.HostService.SelectCandidate | src/hosts/service.py:172-189 | the picked host is unclaimed, active, within its lease, of the provider and young enough, no such host is older, and only without any a new one is made |
| HostStore.HostService.ClaimCandidate | src/hosts/service.py:192-208 | the conditional update claims if and only if the row is unclaimed; account, claim and lease are all that it changes, the lease ends where the request asks or the provider stops, and it commits either way |
| HostStore.HostService.MintDraft | src/hosts/service.py:259-293 | a fresh uuid and the later of the requested end and the safety term, or a refusal that draws none |
| HostStore.HostService.CheckProviderLimit | src/hosts/service.py:294-297 | a limited provider admits if and only if its hosts that are neither errored nor expired are below the limit |
| HostStore.HostService.InsertHost | src/hosts/service.py:278-299 | a host with a new name is inserted with every column as the draft and the request have it, and no other row changes |
| HostStore.HostService.CommitStatus | src/hosts/service.py:491-603 | each status commit changes one status and dies if and only if the row is gone; a machine of a tailnet is made only with Tailscale, and then its device is awaited |
| HostStore.HostService.NoteFailure | src/hosts/service.py:509-530 | a failure is noted with the clock that the row will expire at |
| HostStore.HostService.CreateVm | src/hosts/service.py:546-557 | a call that succeeds makes the machine, and one that fails may |
| HostStore.HostService.StoreDevice | src/hosts/service.py:579-591 | the device is stored if and only if the row is there |
| HostStore.HostService.FailHost | src/hosts/service.py:629-644 | the row is errored, expires at the time that was noted, is not live any more, and nothing else changes |
| HostStore.HostService.ReplaceSafetyTerm | src/hosts/service.py:311-321 | the stamp writes if and only if the row still carries the safety term, and changes nothing but the lease: to the requested end, or the stop of the provider if that is first or the request is permanent |
| HostStore.HostService.RecordIdempotencyKey | src/hosts/service.py:344-361 | the insert wins if and only if the key is free and the host is there, and changes no other record |
| HostStore.HostService.LoadIdempotencyLoser | src/hosts/service.py:363-369 | what the release reads of the row and the clock |
| HostStore.HostService.ReleaseIdempotencyLoser | src/hosts/service.py:363-388 | a claimed host loses claim and account and ends at the age limit of the pool or the stop of the provider, a fresh one has expired, and nothing else changes |
| HostStore.HostService.RenewHost | src/hosts/service.py:403-421 | each refusal has its exact condition and changes nothing; a renewed row ends at the given end, or at the default term from now, cut to the lifetime of the provider, and nothing else changes |
| HostStore.HostService.LockForDelete | src/hosts/service.py:446-465 | a delete goes on if and only if a shed finds the row unclaimed, a reap finds it expired, and any other mode than a reap finds it bootstrapping, active or errored; then it holds the row lock |
| HostStore.HostService.DropDeviceOf | src/hosts/service.py:465-472 | the cleared device is all that changes, and the row lock is gone |
| HostStore.HostService.DropVm | src/hosts/service.py:473-486 | the machine of the host goes, and no other |
| HostStore.HostService.DeleteHostRow | src/hosts/service.py:487-489 | exactly the row and the keys that point to it go |
| HostStore.HostService.DeleteHost | src/hosts/service.py:437-489 | an undisturbed delete: which outcome comes when, and what each leaves of rows, keys and machines |
| HostStore.HostService.ReapExpiredHosts | src/hosts/janitor.py:27-58 | exactly the expired hosts whose provider calls succeed go, each once, and a failure stops no other |
| HostRequests.GetOrCreateHost | src/hosts/service.py:84-162 | a whole request among any others is one process of a logged run; it answers with the host it returned, is refused, or waits for a lock; a customized request, or one for a provider without a pool, never came to the warm hosts, and the host in its hands is one that it inserted |
| HostRequests.AnswersAgree | src/hosts/service.py:108-162 | any two answered requests with one key got one host, by the log of the service |
| HostOwn.OwnRequestGetsItsOwn | src/hosts/service.py:124-148 | over every run from the start: a request that is customized, or for a provider without a pool, never stands at the warm hosts, and what it has in hand is a host it inserted itself |
| HostOwn.LateRequestReplays | src/hosts/service.py:108-112 | over every run: a request that arrives while its key has a living record counts, claims and creates nothing, and answers with the recorded host or is refused |
| HostRequests.Lookup | src/hosts/service.py:323-342 | a lookup answers, is refused, or goes on once a stale record is gone |
| HostRequests.CreateHost | src/hosts/service.py:227-321 | a creation ends with its host in hand or refused, through every failure of provisioning |
| HostRequests.RecordOrYield | src/hosts/service.py:150-162 | the record of the key, or the release of the own host and the lookup of the winner |
| HostRequests.DeleteAmongOthers | src/hosts/service.py:437-489 | among any others: the delete is reported removed if and only if it ended with the row gone, which it had locked within its guard; kept if and only if it ended without; else it still waits |
| HostRequests.ReapAmongOthers | src/hosts/janitor.py:27-58 | among any others: exactly the hosts expired at the selection are tried, each once and in turn; the reaped ones are those whose delete locked them expired and removed them, and they are gone at the end; any other delete was over without that, or still waits |
| PoolMaintenance.PlanBatch | src/hosts/pool.py:93-111 | the batch has min(cap, sum of deficits) creates, none above its deficit, and no provider is two ahead of one whose deficit is open, although the loop deletes from the map it walks |
| PoolMaintenance.SelectExcess | src/hosts/pool.py:71-91 | the shed list is the surplus of each provider, oldest first, in the order of the sweep |
| PoolMaintenance.ShedListDistinct | src/hosts/pool.py:71-91 | no host is listed twice, although each provider is listed at a moment of its own |
| PoolMaintenance.SurplusIsShedList | src/hosts/pool.py:78-91 | what a query lists, at whatever moment it runs, is a list that the protocol allows |
| PoolMaintenance.SurplusIsOldest | src/hosts/pool.py:79-90 | nothing that is shed is newer than what stays |
| PoolMaintenance.SurplusLeavesTarget | src/hosts/pool.py:74-77 | the list takes the excess of the count, as far as it goes; if nothing changed since the count, each provider is left at its target, or as it was below it, and one that has no target is shed to zero |
| PoolMaintenance.PlanTick | src/hosts/pool.py:50-111 | the counts and the batch of a tick are a plan that the protocol allows, and the fullest fair one |
| PoolMaintenance.TopUp | src/hosts/pool.py:113-137 | the creates stop at the first three failures in a row, and nowhere else |
| RefreshableSecrets.BackoffDoubles | src/secrets_exchange/secrets.py:108-110 | the doubled and capped wait is min(5 * 2^n, 60) seconds for every n, written out |
| RefreshableSecrets.RefreshableSecret.RetryLater | src/secrets_exchange/secrets.py:108-110 | the retry counts from the failure, and the next wait doubles |
| RefreshableSecrets.RefreshableSecret.Refresh | src/secrets_exchange/secrets.py:98-106 | after n failures the wait is the n-th, and an attempt starts no sooner after a failure than the wait before it |
| RefreshableSecrets.RefreshableSecret.Push | src/secrets_exchange/secrets.py:116-138 | one push that nothing overlaps: it delivers a secret never delivered before and valid when it began, and `pushed` is the last one delivered |
| SecretsSchedules.ServedIsFresh | src/secrets_exchange/secrets.py:161-173 | over every schedule, whatever `current` returns is valid at its last check and was fetched at or after every order that precedes the call |
| SecretsOrigins.ServedComesFromAFetch | src/secrets_exchange/secrets.py:51-80 | over every schedule, a served value is what an issuer answered to a fetch for the same key, and it is served before the expiry that answer stated, or before the lifetime from the answer is over |
| SecretsOrigins.ServedNearItsEndIsRefreshed | src/secrets_exchange/secrets.py:166-170 | over every schedule, a value served within a minute of its end has a background refresh of its entry under way, and one served earlier starts nothing |
| SecretsOrigins.VisitsPushWhatIsDue | src/secrets_exchange/secrets.py:175-182 | over every schedule, a visit begins a push if and only if the provider needs the value, has none or one within a minute of its end, and the wait is over |
| SecretsOrigins.OrdersFetchAtOnce | src/secrets_exchange/secrets.py:195-213 | over every schedule, an order fetches at once for an entry of its own, to push the value or to hold it as the provider needs |
| SecretsOrigins.OrdersAreAnswered | src/secrets_exchange/secrets.py:199-213 | over every schedule, an order is done when the provider took the value or the entry holds one, and raises otherwise |
| SecretsSchedules.CallsAreAnswered | src/secrets_exchange/secrets.py:161-173 | over every schedule, a held valid value is always served without raising, and a call whose fetch ends is answered if and only if its entry then holds a valid value |
| SecretsSchedules.OneBackgroundTask | src/secrets_exchange/secrets.py:140-143 | in every state of every schedule at most one background fetch of an entry object runs |
| SecretsSchedules.AttemptsWait | src/secrets_exchange/secrets.py:98-114 | over every schedule, overlaps included: after n failures the wait is min(5 * 2^n, 60) seconds, and no attempt starts sooner than the n-th wait after the n-th failure |
| SecretsSchedules.PushesAreSound | src/secrets_exchange/secrets.py:124-137 | in every state of every schedule what is handed over was valid when its push began, and `pushed` is the last value delivered |
| SecretsDeliveries.DeliveredOnce | src/secrets_exchange/secrets.py:116-138 | over every schedule in which pushes of one entry do not overlap, no secret object is delivered twice |
| SecretsDeliveries.DeliveredOnceExactly | src/secrets_exchange/secrets.py:126-137 | over every schedule, nothing is delivered twice or on its way to be if and only if no visit finds, and no fetch of a push that fails leaves, a value to hand over that its entry has delivered or is delivering |
| SecretsDeliveries.StepRepeatsExactly | src/secrets_exchange/secrets.py:116-182 | whether a step begins such a hand-over is decided by the state and the event before it |
| SecretsDeliveries.RepeatBecomesTwice | src/secrets_exchange/secrets.py:126-137 | once such a hand-over began, two more steps deliver one object twice |
| SecretsDeliveries.OverlappingPushesDeliverTwice | src/secrets_exchange/secrets.py:175-208 | a schedule in which an order and a visit deliver one object twice |
| SecretsProtocol.StepOk | src/secrets_exchange/secrets.py:146-213 | every step keeps that entries hold only what was fetched after they were made, and know their background task |
| SecretsExchange.RunSchedule | src/secrets_exchange/secrets.py:146-213 | run on the objects, every schedule gives one outcome per moment, and each is the outcome of the protocol |
| SecretsExchange.Secrets.Call | src/secrets_exchange/secrets.py:161-170 | `current` up to its first await is the step of the protocol |
| SecretsExchange.Secrets.Order | src/secrets_exchange/secrets.py:195-213 | an order puts a new entry object under the key, and is the step of the protocol |
| SecretsExchange.Secrets.VisitProvider | src/secrets_exchange/secrets.py:175-182 | `push` up to its first await is the step of the protocol, also when the entry must fetch first |
| SecretsExchange.Secrets.BackgroundRuns | src/secrets_exchange/secrets.py:98-99 | a background refresh asks the issuer when it runs, unless the wait is not over |
| SecretsExchange.Secrets.FetchEnds | src/secrets_exchange/secrets.py:51-106 | the entry object that the task holds takes the answer, whatever object its key has by then: its value, with the expiry it states or else the end of the lifetime from now, unless that is over |
| SecretsExchange.Secrets.DeliveryEnds | src/secrets_exchange/secrets.py:129-137 | a delivery that succeeds is the pushed value, one that fails waits and doubles the wait |
| SecretsExchange.Secrets.Callback | src/secrets_exchange/secrets.py:140-143 | the done callback frees the entry for another background refresh |
| SecretsExchange.Secrets.ForgetDeletedHosts | src/secrets_exchange/secrets.py:156-159 | exactly the keys of deleted hosts go |
| ExecReader.Reader.ReadExactly | src/gateway/backend.py:37-45 | a read takes exactly the next bytes however they arrive, and at the end reports all that is left |
| ExecReader.Reader.ReadFrames | src/gateway/backend.py:28-45 | reads of given lengths cut the output at those lengths only |
| SftpBackend.Backend.Promises | src/gateway/backend.py:71-96 | at every release of the lock: at most one process, no operation with a stale handler, and one closer if and only if a process is idle |
| SftpBackend.Backend.Acquire | src/gateway/backend.py:109-120 | an operation shares the live process or opens one, no closer is left, and a failed opening leaves no process |
| SftpBackend.Backend.Release | src/gateway/backend.py:122-126 | the last operation leaves exactly one new closer |
| SftpBackend.Backend.CloseAfterIdle | src/gateway/backend.py:163-168 | a closer that runs finds no operation and leaves no process |
| SftpBackend.Backend.Aclose | src/gateway/backend.py:128-133 | a closed backend has no process and no closer, whatever was in flight |
| SftpBackend.Backend.Open | src/gateway/backend.py:135-161 | a handshake that fails at any point leaves no process and no receive loop |
| SftpBackend.Backend.Teardown | src/gateway/backend.py:170-182 | nothing is left, in whatever state the opening was |
| DeviceWaiter.FirstMatchIsFirst | src/networking/tailscale.py:315-318 | the id a waiter gets is that of the first listed device with its host name |
| DeviceWaiter.Waiter.Register | src/networking/tailscale.py:279-285 | a new waiter always has a poll task that is not done; a second call for a host name strands the first if and only if it still waits |
| DeviceWaiter.Waiter.Expire | src/networking/tailscale.py:286-291 | a timeout settles a pending future once, and leaves a settled one |
| DeviceWaiter.Waiter.Resume | src/networking/tailscale.py:286-293 | a call returns only the id of a listed device with its host name; leaving the map strands another call if and only if one waits under that name |
| DeviceWaiter.Waiter.Poll | src/networking/tailscale.py:295-301 | the poller ends only when nobody waits |
| DeviceWaiter.Waiter.ListingArrives | src/networking/tailscale.py:311-319 | every pending future that the listing names is settled with its first match, and no other future changes |
| DeviceWaiter.Waiter.ListingFails | src/networking/tailscale.py:307-310 | a listing that fails for another reason keeps the poller and every waiter |
| DeviceWaiter.Waiter.AuthorizationFails | src/networking/tailscale.py:302-306 | an authorization failure fails exactly the pending futures, and strands none |
| HeaderSwap.Flow.RequestHeaders | deploy/proxy/swap.py:170-182 | all or nothing: with a response or an error the fields are as they were; without, every credential stands once, and that happens if and only if everything was authorized |
| HeaderSwap.Flow.Exchange | deploy/proxy/swap.py:184-214 | every placeholder is authorized for the connection, which is named by the handshake before the address, with headers that differ by more than case, before any field changes; the first answer that is not good decides between 403, 503 and an error |
| HeaderSwap.Flow.Replace | deploy/proxy/swap.py:211-214 | the fields named neither by a placeholder nor by a credential keep their place and value |
| HeaderSwap.Flow.Find | deploy/proxy/swap.py:175-179 | the fields that hold a placeholder, in order, or an error |
| HeaderSwap.SwappedHoldsNone | deploy/proxy/swap.py:184-214 | no field that the swap kept holds a placeholder |
| HeaderSwap.SwappedByName | deploy/proxy/swap.py:184-214 | after the swap every field that spells the header of a credential in any case has the credential, no field spells the name of one that held a placeholder, and the others are as they were |
| HeaderSwap.SetChangesOneName | deploy/proxy/swap.py:213-214 | setting a header gives it one value and touches no other name |
| PlaceholderIn.FoundExactlyWhereCarried | deploy/proxy/swap.py:45-59 | a placeholder is found if and only if it is all that the value carries: bare, after bearer or token in any case, or as the password of Basic in any case |
| PlaceholderIn.FoundHasFourParts | deploy/proxy/swap.py:57-59 | every result has exactly four dot-separated parts, the first being drk |
| PlaceholderIn.SentPlaceholderComesBack | deploy/proxy/swap.py:45-59 | what the exchange prints and a client sends in any of the ways, with the scheme in any case and any gaps around, the proxy finds and the exchange reads back |
| PlaceholderIn.RaisesExactlyOnForeignBasic | deploy/proxy/swap.py:52-56 | the values that raise are the Basic credentials with a character outside ASCII |
| PlaceholderIn.CommonHeadersAreFound | deploy/proxy/swap.py:45-59 | a minted placeholder is found after "Bearer ", after "token " and in a Basic credential |
| Text.LowerIgnoresCase | deploy/proxy/swap.py:48-51 | two texts have one lower case if and only if they differ in the case of letters only |
| Text.LowerIsTheSmallSpelling | deploy/proxy/swap.py:188-190 | the lower case of a text is its one spelling without capitals |
| Placeholder.ReadUndoesStr | src/host_secrets/placeholder.py:20-28 | read gives back host id, service and secret, bare and after the scheme |
| Placeholder.StrIsInjective | src/host_secrets/placeholder.py:27-28 | two placeholders never print alike |
| Placeholder.HexIsPositional | src/host_secrets/placeholder.py:27-28 | the host id is printed as 32 hexadecimal digits, the highest first |
| Base64.DecodesWhatItEncodes | deploy/proxy/swap.py:52-56 | decoding undoes encoding for every byte string |
| Base64.AlphabetIsStandard | deploy/proxy/swap.py:52-56 | the digits are the characters of the standard alphabet in its order |
| Utf8.TextRoundTrip | deploy/proxy/swap.py:52-56 | decoding undoes encoding for every text |
| Utf8.TextIsCanonical | deploy/proxy/swap.py:52-56 | each text has one byte form: overlong forms and surrogates are refused |
| Environment.GetExport | src/providers/environment.py:25-32 | the lines, or the first name that no shell accepts |
| Environment.GetPersist | src/providers/environment.py:35-54 | the lines if and only if every entry is accepted, or the first fault of the first entry that is not |
| Pattern.AcceptedIsThePattern | src/providers/environment.py:8-19 | an entry is accepted if and only if both regular expressions match it and its line has at most 8191 characters |
| Pattern.ValuesAreThePattern | src/providers/environment.py:10-16 | exactly the values that the expression matches pass, by an independent matcher of regular expressions |
| Pattern.NamesAreThePattern | src/providers/environment.py:8 | exactly the names that the expression matches pass |
| Environment.PersistedEnvironmentReadsBack | src/providers/environment.py:35-54 | the shell runs the lines of an accepted environment, and pam_env reads exactly that environment after whatever a clean file had before |
| Environment.ReadsOn | src/providers/environment.py:10-19 | lines that follow a file whose every line is read are read after it |
| Environment.ReadsBackExactlyWhenLinesFit | src/providers/environment.py:16-19 | with valid names and values the file reads back if and only if every line fits the buffer |
| Environment.ReadsUpToTheFirstLongLine | src/providers/environment.py:17-19 | the reader gets the entries before the first one that is too long for its line, and no more |
| Environment.LineReadsBack | src/providers/environment.py:10-15 | a value of the pattern passes through the line reader unchanged |
| Environment.ExportedEnvironmentIsExact | src/providers/environment.py:25-32 | the export lines give the script each variable with its value, whatever characters it has |
| Environment.ScriptRuns | src/providers/environment.py:96-110 | any mix of export and persist lines, joined by newlines, does just what its lines say |
| Shell.QuoteRoundTrip | src/providers/environment.py:31-53 | the shell reads a quoted string back, whatever is in it and whatever follows |
| SetupScript.PassesAreOneMap | src/providers/exe/api.py:36-37 | the three replace passes are one map over the characters |
| SetupScript.ParserUndoesEncode | src/providers/exe/api.py:28-37 | the command parser gives back the script and leaves the rest of the command |
| SetupScript.EncodedLength | src/providers/exe/api.py:36-37 | the encoded script is as long as the script, plus one for each escape, plus two |
| SetupScript.SetupScriptArgument | src/providers/exe/api.py:107-114 | a script is refused if and only if its encoded length is over the limit, and an accepted one is read back |

## Left out

- HostIdempotency.IdempotencyConverges: asks that no delete of the key's record is under way at the start; RecordIsSafeExactly says that the condition is exact, and from the start of the service it holds.
- HostTeardown.NoVmIsOrphaned: asks that the janitor locks no row while its create_vm call is under way, which the code leaves to the grace period; ReapOrphansExactly says that the condition is exact.
- HostForced.AccountOverrunExactly: of requests whose providers have no limit, and a rival that takes no warm host.
- HostStore.HostService.DeleteHost: a delete that nothing disturbs; HostRequests.DeleteAmongOthers is the one among others.
- HostStore.HostService.ReapExpiredHosts: a sweep that nothing disturbs; HostRequests.ReapAmongOthers is the one among others.
- HostRequests.ReapAmongOthers: a delete that still waits when its part of the script ends is passed over, as after an error of the database; the code waits on until the lock is free or the statement fails.
- PoolOverlap.PoolReachesExactly: of the only provider with a pool, and one without a limit of its own; with more of them a plan is shared, and PoolStaysBounded still bounds each.
- PoolBound.PoolStaysBounded: counts planned creates with the live members, so it starts from members and plans together.
- RefreshableSecrets.RefreshableSecret.Push: one push that no other attempt on its entry overlaps; SecretsDeliveries has every schedule.
- SecretsExchange.RunSchedule: entries with a fixed value, and errors of an issuer that are not IssuerError, are not events.
- HostRequests.GetOrCreateHost: a caller's request; the creates of a pool tick take the same steps in the protocol, and have no method that runs them to the end.
- DeviceWaiter.Waiter.Resume: aclose of the poller is not modelled.
- SftpBackend.Backend.Teardown: a receive loop that ends on its own is not an event of the model.
- SftpBackend.Backend.Acquire: no task but the idle closer is cancelled; a cancellation inside the handshake is not modelled.
- Placeholder.ReadUndoesStr: the other spellings that uuid.UUID accepts (braces, hyphens, a urn prefix) are refused by the model, and no printed placeholder has them.
- HeaderSwap.Flow.RequestHeaders: the name that urlsplit finds in the Host header, the reachability of the address and the answers of the exchange are parameters.
- Environment.PersistedEnvironmentReadsBack: a file that ends in the middle of a line, or in one that joins the next, takes the first new line into its last.
- The rest of the shell, of pam_env and of exe.dev's parser: the readers cover what the printed texts can hold.
- The bashrc, certificate and git lines of a setup script, and the order of its parts: they have no reader beside them.
- Templates and their janitor: the same shape as the host protocol, and weaker.
- Delivery and storage of secrets, private keys, known hosts, hashing, HMAC and encryption: opaque to every property here.
- The upstream list of the proxy, its address checks and its TLS hooks: short branches.
- Provider, issuer and Tailscale calls: steps that succeed, fail or find nothing.
- SQLite, which has no advisory locks: the limits hold on PostgreSQL.
- HTTP routes, settings, logging, migrations and the Cloudflare worker.
