# RentnerProxy: proved models

Machine-checked models of the parts of RentnerProxy whose guarantees come from the order of
writes, from accounting across several operations, or from canonical forms. Every module is
verified by Dafny; `dafny verify dfyconfig.toml` checks the whole project.

- **Activation of the proxy configuration** (`Durability`, `ConfigurationActivation`): fence,
  snapshot and authority files under lost, unsynchronised and completed writes; an engine that may
  reject, fail or die; crashes and power losses at any moment.
- **Shared response cache** (`ResponseEligibility`, `ResponseStore`, `ResponseLedger`,
  `ResponseCapture`, `ResponseEpochs`, `ResponseTraffic`, `CacheProtocol`, `CacheKey`): freshness of
  every hit, exact accounting, who owes the store what over any number of requests, every
  interleaving of reads, fills, mutations and clean-up, and the injective key.
- **Managed backups** (`BackupJournal`, `BackupRetention`, `BackupEngine`, `BackupSafety`,
  `BackupRuns`, `BackupAcceptance`, `BackupTick`, `BackupExposure`, `BackupLate`, `BackupCopies`,
  `BackupHistory`, `BackupAudit`): the engine as atomic steps on the committed journal, what it
  accepts, retention beside control operations, reserved audit room, the schedule, what the audit
  events tell, and the outbox of remote-store changes under failing writes.
- **Production restore** (`RestoreJournal`): the restore journal and the key swap, crashed
  anywhere and resumed.
- **State archives** (`TarPath`, `TarIndex`, `TarScan`, `TarWrite`) and **DNS challenge records**
  (`DnsReconciliation`).
- **Canonical configuration** (`KeyOrder`, `ProxyConfiguration`, `ProxyValidation`).

## How storage is modelled

A write completes, is lost, or is renamed and then reports a failed synchronisation. For the
activation each file is free to fall back on its own after a power loss. For the backup journal
and the restore, whose files share one directory, renames of that directory are taken to become
durable in their order. The source of remote-store changes is taken to keep one pending record
under a fresh request id until it is acknowledged. Classes carry a trail of every state the directory has
passed through, so what holds of the trail holds wherever a process stops.

## What turned out not to hold

- `jobEvents` is 53 (`web/src/config/backups.config.ts`): requested, started, outcome and 50
  removals. The one event of a restore found to have succeeded late is not in it. A backup
  requested by hand can lose its last removal record exactly when it is accepted while such a
  restore is open, all 50 places are taken, and one backup is to be kept or an update may still say
  so (`BackupExposure.StrandsIffExposed`); scheduled backups cannot, since they are admitted and
  started in one step (`BackupRuns.AcceptedWorkCommits`); a new store can get there
  (`BackupExposure.StrandingIsReachable`); and 54 events suffice without a condition
  (`BackupRuns.LargerReservationSuffices`).
- A restore asks for four places, the last for its late success. Once it has failed or was
  interrupted nothing keeps that place: an update or remote change while nothing is active, or the
  last removal of a backup, may take it, and then the recovery throws out of `tick`
  (`BackupLate.RefusedIffFull`, `BackupLate.WhoCrowds`). It does so in some continuation if and only
  if the place was taken (`BackupLate.CrowdingDecides`, `BackupLate.RefusedIffCrowded`), every retry
  does (`BackupLate.CrowdedIsRefused`), a new store can get there (`BackupLate.RefusalIsReachable`),
  and acknowledging events helps if and only if a number is left (`BackupLate.RetryIff`). No larger
  reservation for jobs helps against an update or a remote change.
- `safeName` refuses a drive prefix before it normalises, so a name it returns may begin with one,
  and it would refuse its own result (`TarPath.DriveComesOut`). It does so exactly of such names
  (`TarPath.SafeNameIsCanonical`), which come only of names that begin with `./`
  (`TarPath.DriveOnlyAfterDot`).
- `headerSize` stops counting once 16 KiB are passed. A header that only the added date takes beyond
  that may be charged for less than its size (`ResponseEligibility.HeaderSize` says exactly when),
  but the charge still covers its bytes (`ResponseLedger.ChargeCovers`).
- After a write of the audit journal that renamed but did not synchronise, the reload adopts and
  publishes the event. A power loss takes a published event back if and only if it reveals an image
  older than the first that carries it (`BackupAudit.PublishedSurvivesIff`), and then its number
  may be used again (`BackupAudit.LostNumbersMayBeReused`). Exactly-once recording holds in all
  cases in which renames become durable in their order, and not if each file could fall back on
  its own (`BackupAudit.AloneMayLose`).
- An engine marked available always serves the revision verified last. A restoration may leave it
  with another rendering of it if and only if it kept a process against a shutdown, which a run
  records as `lingering`: starting an engine that still runs only checks its revision
  (`ConfigurationActivation.OtherRenderingIff`).

## Model

| member | source | states |
|---|---|---|
| `ConfigurationActivation.EveryBootIsConfirmed` | core/src/runtime/apply.rs:123-193 | Whatever moment of a run a crash or power loss strikes, the next boot recovers nothing or a configuration the engine had confirmed by a probe before that moment; never a persisted, unconfirmed candidate. |
| `ConfigurationActivation.GuardedIsSafe` | core/src/runtime/configuration.rs:23-40 | If the fence is certainly up, or nothing else is in flight and what stands there was confirmed, every directory image recovers only confirmed configurations. |
| `ConfigurationActivation.ImageIsGuarded` | core/src/runtime/configuration.rs:23-50 | Booting from any image a power loss may reveal starts guarded again. |
| `ConfigurationActivation.OperationKeepsGuard` | core/src/runtime/configuration.rs:53-166 | Each file operation made in the permitted order keeps the guard at both of its instants: renamed but not synchronised, and synchronised. |
| `ConfigurationActivation.FenceRecoversLess` | core/src/runtime/configuration.rs:96-104 | Raising the fence, durably or not, makes nothing recoverable that was not. |
| `ConfigurationActivation.AuthorizedStays` | core/src/runtime/apply.rs:123-152 | Rewriting the configuration that is already authorised makes nothing new recoverable. |
| `ConfigurationActivation.AfterCrash` | core/src/runtime/lifecycle.rs:32-143 | The record of a run cut off at any moment, with or without power loss, is again a valid start. |
| `ConfigurationActivation.RecoveredIsConfirmed` | core/src/runtime/configuration.rs:23-40 | What the running process itself would recover now has been confirmed. |
| `ConfigurationActivation.LatestCommit` | core/src/runtime/apply.rs:16-39 | A request newer than every commit may be committed next; the order stays strictly increasing. |
| `ConfigurationActivation.ProxyRuntime.FenceActivation` | core/src/runtime/configuration.rs:96-104 | Success leaves the fence durably up; failure leaves the directory as it was or with a fence that may or may not last. |
| `ConfigurationActivation.ProxyRuntime.Persist` | core/src/runtime/configuration.rs:53-94 | Success leaves snapshot and authority both durably on the candidate; under the fence no failure exposes it, and without a fence the same content is only rewritten. |
| `ConfigurationActivation.ProxyRuntime.FinishActivation` | core/src/runtime/configuration.rs:106-136 | An unlink that happened counts as finished even if its synchronisation failed; otherwise nothing changed. |
| `ConfigurationActivation.ProxyRuntime.RestoreRecovery` | core/src/runtime/configuration.rs:138-166 | The rollback ends with the fence certainly up or with recovery on the previous configuration, and on the previous one if no write failed. |
| `ConfigurationActivation.ProxyRuntime.Initialize` | core/src/runtime/lifecycle.rs:32-143 | Start-up sets the active configuration only to what recovery gave and the engine confirmed, or to none; a failure has its cause, and with nothing in the way what the directory authorises becomes active. |
| `ConfigurationActivation.ProxyRuntime.Stage` | core/src/runtime/apply.rs:123-152 | Staging makes the candidate durable behind a certain fence, or fails with nothing new recoverable. |
| `ConfigurationActivation.ProxyRuntime.Activate` | core/src/runtime/apply.rs:153-193 | Load and probe commit the candidate, or every failure edge returns memory, engine and directory to the verified configuration; it fails only for a refused load, an unanswered probe, a certificate not committed or a storage fault. |
| `ConfigurationActivation.ProxyRuntime.Convince` | core/src/runtime/apply.rs:153-180 | The engine answers for the candidate only with its rendering loaded; a failure is a refused load or an unanswered probe, never a probe for another revision. |
| `ConfigurationActivation.ProxyRuntime.Attempt` | core/src/runtime/apply.rs:110-193 | Failure leaves memory valid and nothing recoverable that was not before, except the active configuration, and has a cause; what is already active and recoverable stays recoverable at every moment. |
| `ConfigurationActivation.ProxyRuntime.Commit` | core/src/runtime/apply.rs:193-236 | Memory takes the confirmed configuration and appends the request number to a strictly increasing list of commits. |
| `ConfigurationActivation.ProxyRuntime.ApplyLocked` | core/src/runtime/apply.rs:89-236 | Success: engine, memory and next boot agree on the request, and it is reported unchanged exactly if its rendering and revision were active. Failure: memory keeps the old configuration, nothing new is recoverable but the active one, no commit. Every refusal has one of its causes. |
| `ConfigurationActivation.ProxyRuntime.Apply` | core/src/runtime/apply.rs:16-39 | Busy is answered only after a timeout or for a newer request, and a superseded request changes nothing; every other refusal has its cause; commits of concurrent calls are in increasing request number. |
| `ConfigurationActivation.ProxyRuntime.ApplyNewest` | core/src/runtime/apply.rs:16-39 | The newest request, if the world refuses nothing, is applied and committed. |
| `ConfigurationActivation.ProxyRuntime.ApplyStaged` | core/src/runtime/apply.rs:41-87 | New certificate material for the active configuration never changes which configuration is active or recoverable; it is loaded if the configuration refers to it, and a refusal has its cause. |
| `ConfigurationActivation.ProxyRuntime.Run` | core/src/runtime/apply.rs:16-270 | Any sequence of applies, staged applies, supervision and crashes at any moment keeps the whole invariant. |
| `ConfigurationActivation.ProxyRuntime.RestoreVerified` | core/src/runtime/apply.rs:238-270 | After a failed activation an engine marked available serves the revision verified last; the outcome is that of `Restoring` for the answers the engine gave, and `lingering` is set exactly if it kept a process or had before. |
| `ConfigurationActivation.ProxyRuntime.CrashAt` | core/src/runtime/configuration.rs:23-40 | A crash at any recorded moment leaves a valid start with empty memory; without power loss an engine process may outlive the controller. |
| `ConfigurationActivation.RenderingIsRestored` | core/src/runtime/apply.rs:238-270 | A restoration that keeps no process against a shutdown, and so leaves `lingering` as it was, makes the engine available only with the very rendering verified last. |
| `ConfigurationActivation.OtherRenderingIff` | core/src/runtime/apply.rs:172-193 | After a staged certificate that could not be committed, the restoration may mark the engine available with that other rendering if and only if it keeps a process, which sets `lingering` in the run. |
| `ResponseEligibility.GrantIsFresh` | core/caddy-modules/responsecache/eligibility.go:190-219 | Within its granted duration a response is younger than the handler limit and than s-maxage or else max-age, not past Expires when that governs, and by the arithmetic of section 4.2.3 of RFC 9111 exceeds its lifetime by less than one second, wherever the body delivery fell. |
| `ResponseEligibility.HeaderSize` | core/caddy-modules/responsecache/eligibility.go:111-123 | The loop over fields and values computes the conservative size; once the limit is passed it stops, and then gives the whole size exactly if no field was left. |
| `ResponseEligibility.FullSizePermuted` | core/caddy-modules/responsecache/eligibility.go:111-123 | The size does not depend on the order in which the header map is visited. |
| `ResponseEligibility.CacheControl` | core/caddy-modules/responsecache/eligibility.go:150-190 | The directive loop accepts exactly the storable lists (public, nothing that bars sharing, at most one well-formed age of each kind) and returns those ages. |
| `ResponseEligibility.EligibleResponse` | core/caddy-modules/responsecache/eligibility.go:124-219 | A grant is given exactly to eligible responses, with the promised length, the remaining lifetime and the initial age; the response is public and nothing in it bars sharing. |
| `ResponseEligibility.StorableIffShared` | core/caddy-modules/responsecache/eligibility.go:150-190 | Storable are exactly the lists with a bare public, no barring directive and at most one well-formed age of each kind. |
| `ResponseEligibility.PolicyTells` | core/caddy-modules/responsecache/eligibility.go:163-188 | The ages of a storable response are those its directives give. |
| `ResponseEligibility.LongestGrant` | core/caddy-modules/responsecache/eligibility.go:190-219 | The granted duration is the longest that the handler limit, s-maxage or else max-age, or without both Expires allow, by the declared age and the age since Date. |
| `ResponseEligibility.FullSizeCovers` | core/caddy-modules/responsecache/eligibility.go:111-123 | The conservative size covers the bytes of all names and values. |
| `ResponseEligibility.DurationFits` | core/caddy-modules/responsecache/eligibility.go:190-219 | The age and the lifetime multiplication never leave 64 bits. |
| `ResponseStore.RetiredIsAccounted` | core/caddy-modules/responsecache/cache.go:47-58 | Retiring keeps bytes and count equal to live entries, reservations and readers. |
| `ResponseStore.PinnedIsAccounted` | core/caddy-modules/responsecache/cache.go:59-89 | Pinning and unpinning a reader keeps the accounting exact. |
| `ResponseStore.Dropped` | core/caddy-modules/responsecache/cache.go:79-89 | Freeing a retired entry with its last reader keeps index and accounting exact. |
| `ResponseStore.Installed` | core/caddy-modules/responsecache/cache.go:117-138 | A new entry at the front keeps index, list and accounting exact. |
| `ResponseStore.Drained` | core/caddy-modules/responsecache/cache.go:47-147 | With no request in flight and nothing visible, every entry is gone and the counters are zero. |
| `ResponseStore.Store.Retire` | core/caddy-modules/responsecache/cache.go:47-58 | Exactly one entry leaves index and list; its bytes go now or with its last reader. |
| `ResponseStore.Store.Get` | core/caddy-modules/responsecache/cache.go:59-78 | Returns and pins exactly the unexpired entry of the key if a reader fits, retires it if expired, changes nothing else. |
| `ResponseStore.Store.Release` | core/caddy-modules/responsecache/cache.go:79-89 | One reader less; the last reader of a retired entry frees it. |
| `ResponseStore.Store.Expire` | core/caddy-modules/responsecache/cache.go:97-104 | Exactly the expired entries are retired, the rest keep their order. |
| `ResponseStore.Store.MakeRoom` | core/caddy-modules/responsecache/cache.go:105-111 | Evicts from the back, no more than needed; fails only when nothing is left to evict. |
| `ResponseStore.Store.Reserve` | core/caddy-modules/responsecache/cache.go:90-116 | A slot is taken with only expired and least recently used entries gone, and refused only at 16 fills or with nothing left to evict. |
| `ResponseStore.Store.Finish` | core/caddy-modules/responsecache/cache.go:117-138 | One reservation is given back; an entry within its reservation is always installed, so the recheck never rejects it. |
| `ResponseStore.Store.Invalidate` | core/caddy-modules/responsecache/cache.go:139-147 | Exactly the visible entries of the namespace go, in whatever order the map is visited. |
| `ResponseLedger.UnexpiredIsFresh` | core/caddy-modules/responsecache/cache.go:59-69 | Every entry of the store that has not expired is fresh: the promises of its grant hold of it at lookup. |
| `ResponseLedger.ChargeCovers` | core/caddy-modules/responsecache/handler.go:201-201 | What an entry is charged covers the bytes of its body, header and key. |
| `ResponseLedger.HeaderIsShown` | core/caddy-modules/responsecache/handler.go:126-136 | An entry shows every field of the response it was granted for, its own date or the date of its request, and nothing else. |
| `ResponseLedger.SharedCache.BytesAreBounded` | core/caddy-modules/responsecache/cache.go:12-22 | The real bytes of all entries, visible or still being sent, with every open reservation and reader share, stay within 64 MiB. |
| `ResponseLedger.PinnedMore` | core/caddy-modules/responsecache/cache.go:73-76 | One more holder is one more pin of exactly that entry. |
| `ResponseLedger.PinnedLess` | core/caddy-modules/responsecache/cache.go:79-89 | One holder less is one pin less, and the last one frees the entry. |
| `ResponseLedger.OwedRetained` | core/caddy-modules/responsecache/cache.go:47-58 | Retiring entries leaves every reservation, every pin and every grant as they were. |
| `ResponseLedger.OwedInstalled` | core/caddy-modules/responsecache/cache.go:133-137 | An installed entry is pinned by nobody and grounded in the response it was granted for. |
| `ResponseLedger.SharedCache.Get` | core/caddy-modules/responsecache/cache.go:59-78 | What a lookup returns is fresh at that moment and pinned for its request; it returns something exactly if an unexpired entry of the key is visible and a reader fits. |
| `ResponseLedger.SharedCache.Release` | core/caddy-modules/responsecache/cache.go:79-89 | Whoever holds a pin can give it back, once. |
| `ResponseLedger.SharedCache.Reserve` | core/caddy-modules/responsecache/cache.go:90-116 | A reservation is noted for its request, and refused only if all slots are taken or nothing is left to evict; entries only become fewer. |
| `ResponseLedger.SharedCache.Finish` | core/caddy-modules/responsecache/cache.go:117-138 | Whoever holds a reservation can give it back, once; a grounded entry within it is installed. |
| `ResponseLedger.SharedCache.Drains` | core/caddy-modules/responsecache/cache.go:47-147 | With nothing owed and nothing visible the store is empty and its counters are zero. |
| `ResponseCapture.Handler.Cleanup` | core/caddy-modules/responsecache/handler.go:52-60 | The handler is stopped and none of its entries is visible. |
| `ResponseCapture.CaptureWriter.Reject` | core/caddy-modules/responsecache/handler.go:174-182 | The slot is given back exactly once; every other writer keeps its own. |
| `ResponseCapture.CaptureWriter.WriteHeader` | core/caddy-modules/responsecache/handler.go:116-145 | Only the first final 200 of an eligible response takes a slot, and it does unless the handler is stopped or the store has none; it settles response, header, length, lifetime and age, which a later call does not change. |
| `ResponseCapture.CaptureWriter.Write` | core/caddy-modules/responsecache/handler.go:146-159 | A capture goes on exactly if the write is whole, without error and not too long; its body is then what the client received and the grant stays. |
| `ResponseCapture.CaptureWriter.Finish` | core/caddy-modules/responsecache/handler.go:183-206 | What was taken has been given back; the capture is installed exactly when it is complete, current, unexpired and still eligible, with the bytes the client received, the header of the granted response with a date, its lifetime and age, and charged for its size. |
| `ResponseCapture.CaptureWriter.CaptureFits` | core/caddy-modules/responsecache/handler.go:116-145 | What an open capture keeps in memory fits into its reservation. |
| `ResponseCapture.FinalIsJudged` | core/caddy-modules/responsecache/handler.go:190-200 | At its end a response is judged by its final header with the length promised at its start. |
| `ResponseCapture.CaptureWriter.Stays` | core/caddy-modules/responsecache/handler.go:102-114 | A writer is not disturbed by what others do to the store. |
| `ResponseTraffic.Traffic.Load` | core/caddy-modules/responsecache/handler.go:67-71 | The epoch is read without a lock and goes into the digested key; requests, entries and invalidations stay in time. |
| `ResponseTraffic.Traffic.Lookup` | core/caddy-modules/responsecache/handler.go:72-78 | Among any number of requests, a hit is fresh now, pinned until it is delivered, of a handler that is not stopped, and was filled by a request for the same digest that read its epoch after every invalidation of the handler finished by now; there is a hit exactly if the handler runs, an unexpired entry is visible and a reader fits. |
| `ResponseTraffic.Traffic.Bump` | core/caddy-modules/responsecache/handler.go:217-221 | The first half of an invalidation: the epoch grows under the write lock. |
| `ResponseTraffic.Traffic.Sweep` | core/caddy-modules/responsecache/handler.go:222-224 | The second half: no entry of the handler stays visible, and from now on every hit was filled after this invalidation. |
| `ResponseEpochs.HitFollowsFences` | core/caddy-modules/responsecache/handler.go:72-78 | Outside the write lock a visible entry found under the digest of a request is of that handler and was filled after every finished invalidation. |
| `ResponseEpochs.CaptureInstalled` | core/caddy-modules/responsecache/handler.go:183-206 | An entry installed into its own epoch of a running handler is in time, and so is everything else. |
| `ResponseEpochs.TicketDrawn` | core/caddy-modules/responsecache/eligibility.go:89-108 | A digest that collides with no other text names one key, so what was filled under it stays filled for that key. |
| `ResponseEpochs.EpochBumped` | core/caddy-modules/responsecache/handler.go:217-221 | After the increment nothing read or filled before is of the current epoch. |
| `ResponseEpochs.FenceStands` | core/caddy-modules/responsecache/handler.go:222-224 | After the sweep the lock may go: every visible entry is again of the current epoch. |
| `ResponseTraffic.Traffic.Deliver` | core/caddy-modules/responsecache/handler.go:79-91 | The pin of a delivered hit can always be released. |
| `ResponseTraffic.Traffic.End` | core/caddy-modules/responsecache/handler.go:95-99 | When a response is over its reservation has been given back exactly as often as it was taken, at most once. |
| `ResponseTraffic.Traffic.Clean` | core/caddy-modules/responsecache/handler.go:52-60 | A clean-up beside open captures and held pins disturbs none of them. |
| `ResponseTraffic.Traffic.Run` | core/caddy-modules/responsecache/handler.go:61-100 | In every interleaving of epoch reads, lookups, deliveries, captures, halves of invalidations and clean-ups no step lacks what it gives back, and every entry stays in time. |
| `ResponseTraffic.Traffic.Ended` | core/caddy-modules/responsecache/cache.go:47-147 | Once every request has ended, no reservation and no pin is left; with nothing visible bytes and count are zero. |
| `ResponseCapture.Handler.Invalidate` | core/caddy-modules/responsecache/handler.go:217-224 | The epoch grows by one and no entry of the handler stays visible. |
| `ResponseCapture.CostFits` | core/caddy-modules/responsecache/cache.go:12-22 | Body, header and key bounds keep every capture within its reservation. |
| `ResponseCapture.DateFits` | core/caddy-modules/responsecache/handler.go:126-142 | Setting the Date header costs no more than the slack that the bound allows for. |
| `CacheProtocol.StepKeepsInv` | core/caddy-modules/responsecache/handler.go:52-114 | Every step of every interleaving keeps the invariant on epochs, entries, mutations and hits. |
| `CacheProtocol.HitsFollowMutations` | core/caddy-modules/responsecache/handler.go:61-100 | In every interleaving a hit was filled by a request that read its epoch after the closing increment of every mutation that ended before the lookup. |
| `CacheProtocol.NothingAfterCleanup` | core/caddy-modules/responsecache/handler.go:52-60 | After a cleanup has swept, no entry of its handler is visible in any later state and no later lookup hits. |
| `CacheProtocol.CompletedIsVisibleIff` | core/caddy-modules/responsecache/handler.go:183-206 | A completed fill becomes visible exactly in its own epoch of a running handler, with the time its request read the epoch, and touches no other key. |
| `CacheProtocol.LookupHitsIff` | core/caddy-modules/responsecache/handler.go:72-95 | A lookup hits exactly if its handler runs and its key is visible; a miss of a running handler is filled. |
| `CacheProtocol.MutationSweeps` | core/caddy-modules/responsecache/handler.go:61-66 | A mutation raises the epoch, bars lookups until its sweep, and the sweep leaves exactly the entries of other handlers. |
| `CacheKey.EncodingIsInjective` | core/caddy-modules/responsecache/eligibility.go:89-108 | Length-prefixed parts decode in one way only. |
| `CacheKey.KeyIsInjective` | core/caddy-modules/responsecache/eligibility.go:89-108 | Equal encodings mean equal namespace, epoch, configuration, scheme, host, path and value lists of all negotiation headers. |
| `CacheKey.DecimalInjective` | core/caddy-modules/responsecache/eligibility.go:89-108 | Decimal numerals are distinct for distinct numbers. |
| `CacheKey.AppendValues` | core/caddy-modules/responsecache/eligibility.go:93-104 | The value loop appends every value with its size and stops exactly when the limit is passed. |
| `CacheKey.RequestParts` | core/caddy-modules/responsecache/eligibility.go:89-108 | The parts are built exactly when no header has too many or too large values. |
| `BackupJournal.DroppedKeeps` | scripts/backup/managed-jobs.ts:43-56 | Dropping removes only finished, unretained jobs other than the latest success, and fails only for want of them. |
| `BackupJournal.Trim` | scripts/backup/managed-jobs.ts:43-56 | The splice loop computes exactly that drop. |
| `BackupJournal.AdmissionTrims` | scripts/backup/managed-jobs.ts:43-56 | With at most 100 jobs, 50 retained and none active, the trim before an admission never throws and never drops a retained job or the latest success. |
| `BackupJournal.TrimTakes` | scripts/backup/managed-jobs.ts:43-56 | A trim takes no active or retained job and not the last success with an artifact, and no more than it must. |
| `BackupRetention.PlanStops` | scripts/backup/managed-jobs.ts:596-614 | A plan is empty exactly when the pool is down to the kept count; a candidate always exists otherwise. |
| `BackupRetention.PlanIsSafe` | scripts/backup/managed-jobs.ts:596-614 | A planned removal is a retained success that is neither the replacement nor the pinned remote success. |
| `BackupRetention.PlanIs` | scripts/backup/managed-jobs.ts:596-614 | The whole plan in its own terms: nothing is removed exactly if the pool is down to the retention count, of at least one, or of two beside the last verified copy after a failed upload; otherwise the earliest retained success goes that is neither the replacement nor that copy. |
| `BackupRetention.PinIsProtected` | scripts/backup/managed-jobs.ts:602-607 | The pinned job is exactly the last retained success with a verified remote copy, if the upload of the replacement failed. |
| `BackupRetention.PruneStep` | scripts/backup/managed-jobs.ts:643-658 | An acknowledged removal takes exactly the candidate out of the pool and retains the replacement. |
| `BackupRetention.PrunePin` | scripts/backup/managed-jobs.ts:602-607 | The job pinned after a failed upload stays the pinned job. |
| `BackupRetention.UnderwayStep` | scripts/backup/managed-jobs.ts:596-660 | At every turn of the loop the plan is justified and its acknowledgement leads on within the same bounds. |
| `BackupRetention.Retention.Remove` | scripts/backup/managed-jobs.ts:628-637 | May only be called with a different, committed, just verified and stored replacement. |
| `BackupRetention.Retention.Turn` | scripts/backup/managed-jobs.ts:617-658 | One turn dispatches at most one removal, justified and not of the last verified copy, and goes on only with one other retained job less. |
| `BackupRetention.Retention.Prune` | scripts/backup/managed-jobs.ts:617-660 | Beside configuration updates, every removal is justified, the replacement and the last verified copy keep their artifacts, the loop terminates, and it stops short of the configured count only for a failed verification, removal or write or a changed count. |
| `BackupEngine.Audit` | scripts/backup/managed-jobs.ts:92-106 | An event is recorded exactly when there is room, and only appended. |
| `BackupEngine.Step` | scripts/backup/managed-jobs.ts:116-145 | No step but an acknowledgement rewrites or drops a published event. |
| `BackupSafety.AuditKeeps` | scripts/backup/managed-jobs.ts:35-41 | Numbers stay contiguous and one place of room is used. |
| `BackupSafety.AdmittedKeeps` | scripts/backup/managed-jobs.ts:235-272 | An admission leaves one queued job, all bounds, and the reserved places less one. |
| `BackupSafety.StartKeeps` | scripts/backup/managed-jobs.ts:285-303 | A manual admission keeps the invariant and, unless the journal is exposed, leaves room for every step the job may still have to record. |
| `BackupSafety.NextRunIs` | scripts/backup/managed-jobs.ts:734-737 | The next run lies in (now, now + interval] and is congruent to the slot modulo the interval. |
| `BackupSafety.LaunchKeeps` | scripts/backup/managed-jobs.ts:717-746 | Taking up a job or admitting a due slot keeps exclusion, bounds, slot order and funding. |
| `BackupSafety.CompleteKeeps` | scripts/backup/managed-jobs.ts:778-795 | Completion keeps at most 50 retained, never fails to trim and always finds audit room when funded. |
| `BackupSafety.DispatchKeeps` | scripts/backup/managed-jobs.ts:617-636 | A dispatched removal is removable and not the replacement. |
| `BackupSafety.RemovalKeeps` | scripts/backup/managed-jobs.ts:641-658 | An acknowledged removal keeps the invariant and is never refused when funded. |
| `BackupSafety.SettleKeeps` | scripts/backup/managed-jobs.ts:799-807 | The final retained flag keeps at most 50 retained and the engine becomes idle. |
| `BackupSafety.UpdateKeeps` | scripts/backup/managed-jobs.ts:502-546 | A concurrent configuration update never takes room that an accepted job or active maintenance needs. |
| `BackupSafety.AfterIs` | scripts/backup/managed-jobs.ts:556-559 | Acknowledging a number drops exactly the events up to it. |
| `BackupSafety.AcknowledgeKeeps` | scripts/backup/managed-jobs.ts:548-564 | An acknowledgement keeps the last number and never reduces room. |
| `BackupSafety.RequestKeeps` | scripts/backup/managed-jobs.ts:305-378 | A maintenance request keeps the invariant and reserves its events. |
| `BackupSafety.RunMaintenanceKeeps` | scripts/backup/managed-jobs.ts:380-400 | Starting maintenance keeps exclusion and never lacks audit room. |
| `BackupSafety.ProgressKeeps` | scripts/backup/managed-jobs.ts:419-436 | Reported progress keeps the invariant. |
| `BackupSafety.FinishKeeps` | scripts/backup/managed-jobs.ts:447-478 | Finishing maintenance keeps the bounds and never lacks audit room. |
| `BackupSafety.BeginRecoveryKeeps` | scripts/backup/managed-jobs.ts:664-680 | A late restore recovery starts only while nothing else runs. |
| `BackupSafety.EndRecoveryKeeps` | scripts/backup/managed-jobs.ts:680-708 | The end of a late recovery, recorded or refused, keeps the invariant and the funding of an accepted job. |
| `BackupSafety.ChangeKeeps` | scripts/backup/managed-jobs.ts:566-594 | Asking for and allowing a remote-store change keep mutual exclusion. |
| `BackupSafety.DownloadKeeps` | scripts/backup/managed-jobs.ts:482-500 | Downloads keep mutual exclusion. |
| `BackupSafety.UpdateTakes` | scripts/backup/managed-jobs.ts:502-546 | An accepted update takes one place, changes the configuration alone, and beside accepted work was accepted only with the whole reservation left. |
| `BackupSafety.ReconcileKeeps` | scripts/backup/managed-jobs.ts:147-189 | A pending remote change keeps other work fenced until reconciled. |
| `BackupSafety.RecordKeeps` | scripts/backup/managed-jobs.ts:156-173 | Recording a remote change always finds audit room. |
| `BackupSafety.RestartKeeps` | scripts/backup/managed-jobs.ts:191-228 | A restart interrupts a running job, requeues a running deletion, settles a running restore, and always finds audit room. |
| `BackupRuns.StepKeeps` | scripts/backup/managed-jobs.ts:116-145 | Every step keeps the whole invariant, and a funded engine stays funded and strands none of its work unless the step accepts a manual request on an exposed journal. (The late record of a restore is `BackupLate`.) |
| `BackupRuns.AcceptedWorkCommits` | scripts/backup/managed-jobs.ts:35-41 | Over every run without such a request, scheduled backups included, no accepted backup, no active maintenance and no remote change is ever refused one of its own steps; the late record of a restore that is no longer active is not among them. |
| `BackupRuns.LargerReservationSuffices` | scripts/backup/managed-jobs.ts:250-252 | With a reservation of at least 54 events that holds over every run; it does not fund the late record of a restore once nothing is active. |
| `BackupRuns.RunKeepsInv` | scripts/backup/managed-jobs.ts:58-823 | The invariant holds in every state of every run, restarts included. |
| `BackupRuns.EveryReachableState` | scripts/backup/managed-jobs.ts:58-823 | In every reachable state: at most 100 jobs, 50 retained, one active; contiguous numbers within capacity; at most one of task, download and remote change; strictly increasing admitted slots; the admission trim never throws. |
| `BackupRuns.AdmissionSchedules` | scripts/backup/managed-jobs.ts:725-741 | A scheduled admission takes a new slot and moves the next run just beyond now, congruent to the slot. |
| `BackupRuns.RunExtends` | scripts/backup/managed-jobs.ts:92-106 | Over every run no published event is renumbered, rewritten or lost before it is acknowledged. |
| `BackupExposure.ExposedJobMayStrand` | scripts/backup/managed-jobs.ts:664-708 | Every accepted manual request on an exposed journal has a continuation in which a removal of its retention is dispatched and its record refused for want of room, while the journal goes on listing the backup as retained. |
| `BackupExposure.StrandsIffExposed` | scripts/backup/managed-jobs.ts:250-252 | After an accepted manual request, some continuation strands work if and only if the journal was exposed: the configured reservation, 50 retained backups, an open restore, and one backup to keep or numbers enough left for an update to say so. |
| `BackupExposure.StrandingIsReachable` | scripts/backup/managed-jobs.ts:250-252 | Some run of a new store comes to such a refused record. |
| `BackupLate.RefusedIffFull` | scripts/backup/managed-jobs.ts:682-705 | The late record of a restore is refused if and only if no place is left when it ends; then only the task is over, otherwise the restore is recorded as a success. |
| `BackupLate.StepHears` | scripts/backup/managed-jobs.ts:92-106 | For every step: the place of an open restore is lost if and only if one place was left and the step is an accepted update, remote change or removal. |
| `BackupLate.WhoCrowds` | scripts/backup/managed-jobs.ts:512-522 | An update or a remote change takes that place only while nothing is active; a removal of a funded backup only with the configured reservation. |
| `BackupLate.FinishHears` | scripts/backup/managed-jobs.ts:447-478 | A restore that fails at its end still has the last of its four places. |
| `BackupLate.RestartHears` | scripts/backup/managed-jobs.ts:191-228 | So does one that a restart interrupts. |
| `BackupLate.UncrowdedIsHeard` | scripts/backup/managed-jobs.ts:664-709 | Over every run in which no step takes the last place of an open restore, no late record is refused. |
| `BackupLate.CrowdedIsRefused` | scripts/backup/managed-jobs.ts:664-709 | From every state in which the place is taken, the recovery of the next boot is refused and changes nothing, so every retry is. |
| `BackupLate.RefusedIffCrowded` | scripts/backup/managed-jobs.ts:664-709 | For every state: some continuation without a further such step refuses a late record if and only if the place is taken. |
| `BackupLate.CrowdingDecides` | scripts/backup/managed-jobs.ts:664-709 | For every step of an engine that still has the place: some such continuation refuses the record if and only if this step takes the place. |
| `BackupLate.NothingIsRefused` | scripts/backup/managed-jobs.ts:35-41 | Over every run that takes no such place and accepts no request on an exposed journal, nothing at all is refused. |
| `BackupLate.RetryIff` | scripts/backup/managed-jobs.ts:548-564 | After a refusal the success can still be recorded if and only if a number is left: acknowledging the events and trying again does it. |
| `BackupLate.ExhaustedRun` | scripts/backup/managed-jobs.ts:35-41 | With the last number used an open restore stays open for ever. |
| `BackupLate.RefusalIsReachable` | scripts/backup/managed-jobs.ts:664-709 | Some run of a new store comes to a refused late record. |
| `BackupAcceptance.AdmittedIff` | scripts/backup/managed-jobs.ts:235-272 | A backup is admitted if and only if the engine is still, no job is active and the whole of it has room: neither the trim nor the record fails. |
| `BackupAcceptance.DueIsAdmittedIff` | scripts/backup/managed-jobs.ts:717-741 | A due slot of an enabled schedule is admitted and started if and only if the engine is still, no job is active and there is room. |
| `BackupAcceptance.QueuedIsTaken` | scripts/backup/managed-jobs.ts:717-746 | A queued job is taken up whenever the engine is still. |
| `BackupAcceptance.UpdateIff` | scripts/backup/managed-jobs.ts:502-546 | An update is accepted if and only if its values are in range, its revision is current, the remote store is at rest and accepted work keeps its room; the next run moves exactly if the schedule changed. |
| `BackupAcceptance.RequestIff` | scripts/backup/managed-jobs.ts:305-378 | Maintenance is accepted if and only if the engine is still, no job is active, the target is listed, a backup to be restored is a retained success, and four places are left. |
| `BackupAcceptance.AcknowledgeIff` | scripts/backup/managed-jobs.ts:548-564 | An acknowledgement is accepted if and only if it names an event still held, and exactly those up to it go. |
| `BackupAcceptance.CompletionRecords` | scripts/backup/managed-jobs.ts:778-795 | A completed backup is recorded as it ended and retained if fewer than 50 others are; every other job stays. |
| `BackupAcceptance.MaintenanceIsTakenIff` | scripts/backup/managed-jobs.ts:380-400 | Queued maintenance is started if and only if nothing else is going on. |
| `BackupAcceptance.ProgressIff` | scripts/backup/managed-jobs.ts:419-436 | Progress of a restore is taken over if and only if it does not fall and does not claim the end. |
| `BackupAcceptance.MaintenanceEnds` | scripts/backup/managed-jobs.ts:447-473 | Maintenance ends as it did; only a deletion that succeeded takes its target, and only that, off the list. |
| `BackupAcceptance.OpensIff` | scripts/backup/managed-jobs.ts:482-500 | A download is opened and a remote change asked for if and only if nothing else is going on. |
| `BackupAcceptance.AllowedIff` | scripts/backup/managed-jobs.ts:566-594 | A remote change is allowed if and only if the engine is at rest and can record it. |
| `BackupAcceptance.ReconciledIff` | scripts/backup/managed-jobs.ts:147-189 | A reconciliation that succeeds lifts the fence and has recorded a pending change once. |
| `BackupCopies.PlanSpares` | scripts/backup/managed-jobs.ts:602-611 | The candidate of a plan is never the last verified copy beside a failed upload. |
| `BackupCopies.NoRunRemovesTheCopy` | scripts/backup/managed-jobs.ts:617-658 | In every state of every run of a new store, what is being removed is not the last verified copy beside a failed upload. |
| `BackupCopies.CopyOutlasts` | scripts/backup/managed-jobs.ts:617-660 | Until a backup whose upload failed is settled, the last verified copy stays listed, retained and protected, whatever runs beside it. |
| `BackupHistory.JobMoves` | scripts/backup/managed-jobs.ts:779-795 | A job that changes its state is told once and the others are untouched. |
| `BackupHistory.AdmittedTells` | scripts/backup/managed-jobs.ts:252-271 | An admission is told as queued, and trimmed jobs need no telling. |
| `BackupHistory.LaunchTells` | scripts/backup/managed-jobs.ts:717-746 | Taking up a job, or admitting and starting a due one, is told step by step. |
| `BackupHistory.RemovedTells` | scripts/backup/managed-jobs.ts:643-658 | A removal is told once, for the backup that is then no longer retained. |
| `BackupHistory.EndedTells` | scripts/backup/managed-jobs.ts:447-475 | The outcome of maintenance is told as it is. |
| `BackupHistory.RestartTells` | scripts/backup/managed-jobs.ts:191-228 | A restart tells what it settled and nothing twice. |
| `BackupHistory.RunTells` | scripts/backup/managed-jobs.ts:92-106 | Over every run, replaying the new events takes a reader from agreement to agreement, and each of them is news. |
| `BackupHistory.RunLogs` | scripts/backup/managed-jobs.ts:92-106 | Over every run the history is numbered from one without a gap and the journal holds what of it is not acknowledged. |
| `BackupHistory.EventsTellEverything` | scripts/backup/managed-jobs.ts:92-106 | Replaying all events ever published by a new store gives the state of every listed job and of the maintenance operation and the revision of the configuration; no listed backup told removed is still retained; no event repeats what was known. |
| `BackupTick.ForeignLeavesTask` | scripts/backup/managed-jobs.ts:380-400 | While a task is open, whatever other callers do leaves it, the jobs and the maintenance operation alone. |
| `BackupTick.CompleteCloses` | scripts/backup/managed-jobs.ts:778-798 | A completed backup goes on to pruning if it succeeded and closes otherwise. |
| `BackupTick.RemovalGoesOn` | scripts/backup/managed-jobs.ts:641-658 | An acknowledged removal leaves fewer other retained jobs, so the loop ends. |
| `BackupTick.ManagedBackups.Wait` | scripts/backup/managed-jobs.ts:614-616 | Any control operations while a task waits keep the invariant, the task, the funding and the place of a late record. |
| `BackupTick.ManagedBackups.Perform` | scripts/backup/managed-jobs.ts:747-811 | A backup taken up runs to its end beside any controls, leaves the engine idle and no job active, and when funded is refused none of its steps. |
| `BackupTick.ManagedBackups.PruneOne` | scripts/backup/managed-jobs.ts:618-658 | One turn plans, verifies, plans again, removes and acknowledges, and goes on only with one other retained job less. |
| `BackupTick.ManagedBackups.Prune` | scripts/backup/managed-jobs.ts:617-660 | The loop, interleaved with controls, is a run of the engine, terminates and is refused nothing when funded. |
| `BackupTick.ManagedBackups.RecoverRestartedRestore` | scripts/backup/managed-jobs.ts:664-709 | A late recovery that was started is closed again; its record is refused only if its place was taken before the call, and it is still taken then; otherwise nothing is refused. |
| `BackupTick.ManagedBackups.RunMaintenance` | scripts/backup/managed-jobs.ts:380-479 | Queued maintenance is run exactly if nothing else is going on, and is over at the end; otherwise nothing changes. |
| `BackupTick.ManagedBackups.Reconcile` | scripts/backup/managed-jobs.ts:147-189 | Reconciling, interleaved with other callers, is a run of the engine that opens no task. |
| `BackupTick.ManagedBackups.Tick` | scripts/backup/managed-jobs.ts:711-811 | The whole tick is a run of the engine that closes whatever it opened and refuses funded work nothing; it throws only for a late record whose place was taken before the turn; maintenance, a queued job or a due slot whose turn it is has been served at its end. |
| `BackupAudit.StepKeeps` | scripts/backup/managed-jobs.ts:108-189 | Every step keeps all images faithful, and what was published stays, except in a crash that reveals an image older than those which carry it. |
| `BackupAudit.RunKeeps` | scripts/backup/managed-jobs.ts:108-189 | The same over every run. |
| `BackupAudit.PublishedSurvivesIff` | scripts/backup/managed-jobs.ts:108-114 | A crash keeps what was published if and only if it reveals an image at or beyond the oldest that carries it. |
| `BackupAudit.LostNumbersMayBeReused` | scripts/backup/managed-jobs.ts:108-114 | Every other crash has a continuation in which a published number belongs to another event. |
| `BackupAudit.AdoptionIsReachable` | scripts/backup/managed-jobs.ts:108-114 | Such an older image is possible: a reload may adopt a journal that was renamed but not synchronised. |
| `BackupAudit.NumbersAreNotReused` | scripts/backup/managed-jobs.ts:92-114 | Over every run whose crashes reveal images that carry what was published, numbers keep their events. |
| `BackupAudit.RecordedExactlyOnce` | scripts/backup/managed-jobs.ts:147-189 | In every image any run may leave behind, a change whose source record is gone is in the journal exactly once, a pending one at most once. |
| `BackupAudit.AloneMayLose` | scripts/backup/managed-jobs.ts:174-178 | If each file could fall back on its own, an unsynchronised acknowledgement of the source would clear a change that an older journal does not record. |
| `BackupAudit.CommitKeeps` | scripts/backup/managed-jobs.ts:116-145 | A write that succeeds, fails or commits and still throws keeps every directory image faithful. |
| `BackupAudit.RecordKeeps` | scripts/backup/managed-jobs.ts:147-173 | The recovering mutation with its receipt keeps every image faithful, reloads included. |
| `BackupAudit.AcknowledgeKeeps` | scripts/backup/managed-jobs.ts:174-178 | The source is cleared only with its change recorded in that image. |
| `BackupAudit.ReconciliationClears` | scripts/backup/managed-jobs.ts:147-189 | From whatever state, a reconciliation whose writes succeed leaves the pending change recorded once and cleared at its source. |
| `BackupAudit.MutationAppends` | scripts/backup/managed-jobs.ts:116-145 | A mutation that is written appends exactly its events. |
| `BackupAudit.ChangeIsPending` | scripts/backup/managed-jobs.ts:566-594 | A change that is written is pending at its source. |
| `BackupAudit.FailedRecordIsUncertain` | scripts/backup/managed-jobs.ts:108-145 | After a record that failed and could not be read back nothing is mutated before a reload succeeds. |
| `RestoreJournal.JournalSurvives` | docker/web/bootstrap-secrets.ts:401-436 | A journal in every image that a power loss could reveal is lost by no crash of any run: where it is gone, a command has removed it. |
| `RestoreJournal.RecordSurvives` | docker/web/bootstrap-secrets.ts:586-638 | The same of a pending key record. |
| `RestoreJournal.SecretsOutlast` | docker/web/bootstrap-secrets.ts:586-638 | Over any stretch of allowed changes the other secrets stay and a key moves only under a pending record. |
| `RestoreJournal.SinceThen` | docker/web/bootstrap-secrets.ts:586-638 | So it is since any moment after the last crash of any run. |
| `RestoreJournal.JournalEndsWithItsKey` | docker/web/bootstrap-secrets.ts:427-436 | A stretch of proper changes that loses a journal has passed through the key of its backup in place with nothing pending. |
| `RestoreJournal.GivenUpProperly` | docker/web/bootstrap-secrets.ts:427-436 | So it is of every trail of a restore since the last crash. |
| `RestoreJournal.RestoreTarget.Materialize` | docker/web/bootstrap-secrets.ts:547-559 | Success within eight attempts, beside any other commands, means the runtime secrets equal the persisted state or a record is pending; alone it means they are equal; it gives up only for a fault, a lost state, or a state that moved every time. |
| `RestoreJournal.RestoreTarget.Rivals` | docker/web/bootstrap-secrets.ts:547-559 | Commands of other processes leave the runtime secrets materialised, a record pending, or nothing moved. |
| `RestoreJournal.RestoreTarget.BeginProduction` | docker/web/bootstrap-secrets.ts:401-425 | Only a new journal or the same backup resumed is accepted, and is if nothing fails; nothing else changes. |
| `RestoreJournal.RestoreTarget.BeginKey` | docker/web/bootstrap-secrets.ts:599-638 | Success leaves the record with the new key in place; an existing record is taken up only under a journal and for its own key; a failed swap is rolled back unless that fails too; if nothing fails it succeeds exactly when it may. |
| `RestoreJournal.RestoreTarget.CompleteProduction` | docker/web/bootstrap-secrets.ts:427-436 | The journal of this backup is removed unless a key is pending, always so if nothing fails, and nothing else changes. |
| `RestoreJournal.RestoreTarget.Restore` | scripts/production-restore.ts:133-262 | Success leaves no journal, nothing pending and the key of the backup; another backup or a missing resume flag changes nothing; every change is proper and every image resumable; if nothing fails, a first restore is completed exactly on a fresh target and a resumed one exactly if it is resumable. |
| `RestoreJournal.RestoreTarget.Campaign` | scripts/production-restore.ts:133-262 | The restore of one backup crashed anywhere and resumed, beside start-ups, exports and rollbacks: at every moment there is no journal or the restore can be resumed, the journal goes only with its key in place, and no crash reveals an image from before the last synchronisation. |
| `RestoreJournal.RestoreTarget.Run` | scripts/production-restore.ts:133-262 | Any sequence of any commands and crashes keeps every image coherent and every change allowed, and no crash reveals an image from before the last synchronisation. |
| `RestoreJournal.RestoreTarget.Put` | docker/web/bootstrap-secrets.ts:448-480 | Every link, rename or unlink obeys the rules of change, at every point where a crash may stop it. |
| `RestoreJournal.RestoreTarget.Initialize` | docker/web/bootstrap-secrets.ts:561-575 | Started under a journal or a pending key it fails and changes nothing; success means materialised secrets and nothing pending; if nothing fails it succeeds exactly on a fresh target. |
| `RestoreJournal.RestoreTarget.ExportKey` | docker/web/bootstrap-secrets.ts:577-584 | A key is exported only with no journal and nothing pending, always so if nothing fails, and it is the stored one. |
| `RestoreJournal.RestoreTarget.RollbackPending` | docker/web/bootstrap-secrets.ts:586-597 | Success restores the previous key and removes the record, and only a fault prevents it. |
| `RestoreJournal.RestoreTarget.CompleteKey` | docker/web/bootstrap-secrets.ts:640-651 | The record goes only with the new key in place. |
| `RestoreJournal.RestoreTarget.RollbackKey` | docker/web/bootstrap-secrets.ts:653-658 | Without a record nothing changes; otherwise it is rolled back. |
| `RestoreJournal.RestoreTarget.Crash` | scripts/production-restore.ts:133-262 | A crash anywhere in an operation, with or without power loss, leaves an image that could be revealed since the floor at which the operation began. |
| `DnsReconciliation.Retained` | core/src/runtime/acme.rs:364-376 | What is kept are unconfirmed intents of the list. |
| `DnsReconciliation.ProgressStep` | core/src/runtime/acme.rs:365-376 | One intent is kept exactly if it is unconfirmed with an empty read, otherwise it must be cleaned. |
| `DnsReconciliation.ProgressCovers` | core/src/runtime/acme.rs:380-385 | The list written after a removal holds every intent not yet cleaned. |
| `DnsReconciliation.Reconciler.Reconcile` | core/src/runtime/acme.rs:356-388 | At every moment what a crash reveals lists every intent not yet cleaned; success returns the unconfirmed intents with an empty read in their order, and the stored list equals it; it fails only for a failed read, removal or write. |
| `DnsReconciliation.Reconciler.CleanAndWrite` | core/src/runtime/acme.rs:377-385 | A confirmed removal and the shorter list keep that cover at both of their instants. |
| `DnsReconciliation.Reconciler.Prepare` | core/src/runtime/acme.rs:308-337 | What a new order may start from is unconfirmed, small enough and delegated, and it is refused only otherwise; the test for confirmed leftovers never fires. |
| `DnsReconciliation.Reconciler.Cleanup` | core/src/runtime/acme.rs:339-354 | Success leaves nothing listed and everything cleaned; without a failure only an unconfirmed intent that stays listed prevents it. |
| `TarPath.SafeNameIsRelative` | scripts/backup/format.ts:87-100 | The parts of an accepted name are plain: no control characters, no backslash, no leading slash, no empty, `.` or `..` part. What may be left is a drive prefix. |
| `TarPath.SafeNameIsCanonical` | scripts/backup/format.ts:87-100 | The result is accepted again as itself, unless it begins with a drive prefix: then it is refused, since the code looks for one before it normalises. |
| `TarPath.DriveComesOut` | scripts/backup/format.ts:87-100 | Such a result exists: `./C:/x` comes out as `C:/x`. |
| `TarPath.DriveOnlyAfterDot` | scripts/backup/format.ts:87-100 | It comes only of a name that begins with `./`. |
| `TarPath.RefusedIff` | scripts/backup/format.ts:87-100 | Refused are exactly names that are too long, hold a control or delete character or a backslash, begin with a slash or a drive, or have a part `..`. |
| `TarPath.SplitJoin` | scripts/backup/format.ts:97-99 | Splitting undoes joining. |
| `TarPath.JoinSplit` | scripts/backup/format.ts:97-99 | Joining undoes splitting. |
| `TarIndex.AcceptedIffTiled` | scripts/backup/format.ts:111-203 | For every byte string: the scan accepts it with this index exactly when it is a sequence of acceptable members, headers and padded bodies end to end, before a trailer of at least two zero blocks. |
| `TarIndex.AcceptedIsSafe` | scripts/backup/format.ts:111-203 | Bodies do not overlap and lie before the trailer, names are distinct and relative, no file is a directory of another member, at most 200000 entries. |
| `TarIndex.ScanTiles` | scripts/backup/format.ts:111-203 | From acceptance to the members. |
| `TarIndex.TilesScan` | scripts/backup/format.ts:111-203 | From the members to acceptance. |
| `TarIndex.TakeLays` | scripts/backup/format.ts:158-200 | Each accepted member extends the index without overlap or duplicate. |
| `TarIndex.PlacedIs` | scripts/backup/format.ts:182-197 | A CrowdSec archive holds four directories and six files, of which all but the database and its log are at most 64 KiB. |
| `TarWrite.SizeComesBack` | scripts/backup/format.ts:153-158 | The size written in a ustar header is read back; a header with a set-user-id, set-group-id or sticky bit is refused. |
| `TarWrite.WrongSumRefused` | scripts/backup/format.ts:153-156 | A header with another sum than its own is refused. |
| `TarWrite.NameComesBack` | scripts/backup/format.ts:170-177 | The name and prefix written in a ustar header are read back. |
| `TarWrite.WrittenIsIndexed` | scripts/backup/format.ts:111-203 | For every list of legal members, written in the ustar Interchange Format with GNU long names, the index is exactly their names, kinds, places and sizes. |
| `TarWrite.BodiesComeBack` | scripts/backup/format.ts:216-220 | The bytes at the place and of the size that the index gives are the body that was written. |
| `TarScan.ConflictFree` | scripts/backup/format.ts:102-109 | The loop over prefixes accepts exactly when no file is a directory of another member. |
| `TarScan.Generator.Enter` | scripts/backup/format.ts:169-200 | The name table check accepts exactly what the scan accepts, and table and list stay in step. |
| `TarScan.Generator.OnHeader` | scripts/backup/format.ts:121-157 | A header leads to the trailer, a member or a refusal as the scan does. |
| `TarScan.Generator.OnMember` | scripts/backup/format.ts:158-200 | A member leads to a long name or an entry as the scan does. |
| `TarScan.Generator.OnTrailer` | scripts/backup/format.ts:122-134 | Chunked reading of the trailer decides what the scan decides. |
| `TarScan.Generator.Close` | scripts/backup/format.ts:135-152 | The final checks accept exactly a complete, conflict-free index. |
| `TarScan.Generator.Next` | scripts/backup/format.ts:111-203 | Every resumption is a request within the archive, or the outcome of the scan; requests come to an end. |
| `TarScan.ValidateArchive` | scripts/backup/format.ts:205-220 | The driver over a buffer terminates with exactly the index of the bytes. |
| `TarScan.ReadFileRange` | scripts/backup/artifact-file.ts:7-20 | Short reads are joined to exactly the requested bytes. |
| `TarScan.ValidateArchiveFile` | scripts/backup/format.ts:222-241 | The driver over a file terminates and, unless stopped, finds the same index as the driver over the same bytes. |
| `KeyOrder.SortIs` | core/src/proxy/revision.rs:120-128 | Sorting permutes and orders. |
| `KeyOrder.OneOrder` | core/src/proxy/revision.rs:120-128 | A sorted list is determined by what is in it. |
| `ProxyConfiguration.OrderDoesNotMatter` | core/src/proxy/mod.rs:69-205 | Reordering hosts, domains of a host or authorities changes neither the verdict nor the validated configuration. |
| `ProxyConfiguration.RevisionForgetsOrder` | core/src/proxy/revision.rs:57-72 | Nor the revision. |
| `ProxyConfiguration.RevisionTells` | core/src/proxy/revision.rs:57-72 | Without a digest collision, equal revisions come from the same hosts, redirects, settings, site and authorities. |
| `ProxyConfiguration.RevisionIff` | core/src/proxy/revision.rs:57-72 | For every acceptable request, another has its revision if and only if it differs in order alone. |
| `ProxyConfiguration.OneConfiguration` | core/src/proxy/mod.rs:69-205 | Two accepted requests with one revision give one validated configuration. |
| `ProxyConfiguration.NeatMeans` | core/src/proxy/revision.rs:120-128 | Hosts count as the same exactly if id, body and the domains in whatever order agree. |
| `ProxyConfiguration.VersionIs` | core/src/proxy/upstream_pool.rs:39-51 | The version is 9 exactly with a failover pool, 7 exactly without pools, and 8 otherwise. |
| `ProxyConfiguration.RestoreGivesBack` | core/src/runtime/configuration.rs:23-94 | A validated configuration, persisted and restored, passes every check and comes back the same, revision included. |
| `ProxyConfiguration.CanonicalIsSame` | core/src/proxy/revision.rs:120-128 | The canonical list holds the same hosts and is its own canonical list. |
| `ProxyConfiguration.SameVersion` | core/src/proxy/upstream_pool.rs:39-51 | The version does not depend on the order of hosts. |
| `ProxyConfiguration.RenewedIsSame` | core/src/proxy/mod.rs:443-457 | Canonical authorities certify again to themselves. |
| `ProxyValidation.ValidateDomains` | core/src/proxy/mod.rs:50-65 | Accepts exactly canonical, unseen domains within the total. |
| `ProxyValidation.PassHosts` | core/src/proxy/mod.rs:92-131 | The pass with its sets of ids, domains and policies accepts exactly the sound host lists. |
| `ProxyValidation.PassRedirects` | core/src/proxy/mod.rs:133-149 | The same for redirects, beside the hosts. |
| `ProxyValidation.PassAuthorities` | core/src/proxy/mod.rs:443-457 | Accepts exactly distinct certified authorities and rewrites each in place. |
| `ProxyValidation.Referenced` | core/src/proxy/mod.rs:164-168 | Collects exactly the authorities that hosts refer to. |
| `ProxyValidation.ValidateProxyConfig` | core/src/proxy/mod.rs:69-205 | The whole validation, pass by pass, gives exactly the validated configuration of the specification. |

## Left out

- Rendering of engine configuration and host sources, TLS material, CrowdSec providers: a rendering is a value with the configuration it renders.
- SHA-256, JSON, base64, X.509, AES-GCM and UTF-8 decoding: digests that do not collide in the run at hand, exact round trips, or functions left open as parameters.
- The certificate store, the DNS provider client, ACME ordering and HTTP transport: only the list of pending records is kept.
- Tasks, promises, semaphores and timers: each locked region, each `mutate` and each check followed by a flag without waiting is one step. That the continuation of a committed `mutate` sets `executing` before the next one runs is taken from the order of promise callbacks.
- File permissions, link and inode checks, path and size checks of stored files.
- Deduplication of backup, maintenance and configuration requests by request id, and the receipts kept for it, except for remote-store changes.
- The `uploading` mark of a running backup, timestamps and durations of jobs, actor ids, and backup records from stores older than the acknowledged number.
- BackupEngine.Step: failed and uncertain writes of the engine's own steps appear there as steps that do not happen or tasks that are aborted; `BackupAudit` treats them.
- BackupAudit.RecordedExactlyOnce: rests on renames of one directory becoming durable in their order; `BackupAudit.AloneMayLose` shows that it does not hold otherwise.
- BackupRetention.Retention.Controls: only the retention count changes while the loop waits; `BackupSafety` proves that other work is excluded meanwhile.
- RestoreJournal.RestoreTarget.Campaign: an operator who begins another key or closes the journal by hand in the middle of a restore is among the steps of `Run`, not of the campaign; the command that closes a journal does not itself check the key.
- ProxyConfiguration.RestoreGivesBack: asks that certifying a canonical bundle gives it back, at the moment of the restore; expiry of an authority between persist and restore is not covered.
- DnsReconciliation.Reconciler.Reconcile: starts from the pending list in memory; after a failed write the stored list may already be the shorter one until the next success.
- The single-field checks of hosts, domains, headers, policies and pools, and of the backup schemas: opaque predicates.
- Which error is reported where several would apply; web routes, user interface, shell and container commands.
