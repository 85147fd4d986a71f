# Verified models of the platform's stateful cores

This project models seven parts of the backend in Dafny and proves what each is for. Every part keeps
real state or does real arithmetic and meets the outside at a boundary that is a parameter here: the
clock, the cipher, the forge, the object store, the database.

- **Promotions** (`Windows`, `Promotions`, `Gate`, `PromotionStore`, `PromotionRuns`,
  `PromotionBackend`, `PromotionTick`, `PromotionService`). The weekly calendar, the gate decisions,
  the store's contract as functions on database values, every interleaving of what any number of
  instances ask of it from snapshots of any age, and the service's methods working against a store the
  others keep changing between any two of their calls.
- **Encrypted backups** (`Envelope`, `EnvelopeStream`, `Upload`). The chunked stream over an ideal
  AEAD, a log of sealed records in which only a logged record opens, with nonces built as in section
  3.1 of RFC 5116 and used once as section 8 of NIST SP 800-38D asks; the writer and reader as
  classes; the multipart upload of the same bytes.
- **Git lists** (`Cursors`, `GenerationCache`). The two-level cursor over fixed-size pages, and the
  cache that a rotating generation invalidates while fetches are in flight.
- **Function runs** (`FnStore`, `FnRuns`, `FnSafety`, `FnCron`, `FnBackend`, `FnService`, `FnLambda`,
  `FnTick`, `FnMemory`). The in-memory store, every interleaving of single store calls by nodes and
  backends, what follows for starts, limits, tokens and crons, the service's methods with others in
  between, and the store's fit to the model.
- **Branch globs** (`GlobRegex`, `Glob`, `GlobPatterns`, `GlobMatcher`). Patterns and expressions as token
  sequences with a meaning each, the compiler between them, what a pattern means by its text, and the
  cached matcher.
- **Teams** (`TeamSync`). The reconciler of role teams and the role decision under it.
- **Compact cores** (`Waker`, `Wav`). The start limiter of the CI runner, and the WAV writer and chunk
  parser after Multimedia Programming Interface and Data Specifications 1.0.

Interference is modelled alike everywhere. A step is what one actor does in one store call; a run is any
sequence of steps; `EveryRunIsGood` is the invariant of all of them. A service method works on a store
that plays an arbitrary script of the others' steps between its own, and whose calls may fail. Its contract
says what holds under any interference, giving for every outcome what the store did or held at a moment of
the call, or that a call failed, and, when nobody else is at work (`Quiet`), exactly what it does.

A function that a method and its contract share is pinned down a second time, in terms of instants, bytes,
statuses and conditions written out: in the method's own contract, or by a lemma beside the function, most
often one whose name ends in `Means`.

## What does not hold as one might expect

Where a promise is false of the code the code was kept, and the exact condition is proved:

- A clean end proves a backup stream only up to 2^32 chunks: then the counter comes round and a longer
  stream reads cleanly too (`Envelope.CleanEndProvesStream`, `Envelope.RepeatedReadsCleanly`). Its nonces
  differ up to one chunk more (`Envelope.NoncesAreDistinct`).
- An upload takes `io.ErrUnexpectedEOF` from its source for the end of the data: it succeeds exactly
  when no call fails and the source ends in any way but another error (`Upload.PutStream`).
- A cursor is taken back exactly up to page 1000000, and one past it can be handed out
  (`Cursors.NextIsAccepted`, `Cursors.FollowCursors`); a team that fills its pages is read
  whole exactly up to 10000 members (`Cursors.TeamMembers`).
- A list call that fails to read the generation can return a value older than the last invalidation; calls
  are fresh exactly if they read it or nothing was invalidated before (`GenerationCache.FreshExactlyWhen`,
  `GenerationCache.BlindReadsCanBeStale`).
- A cron is due at every tick, on any clock, exactly when its schedule has no next instant
  (`FnCron.FiresWithoutAnInstant`).
- Revoking does not kill a token that is about to be minted; it suffices exactly when no mint is under way
  (`FnLambda.RevocationHoldsExactlyWhen`, `FnSafety.RevocationAloneIsNotEnough`).
- Compiled patterns mean what the patterns mean exactly on names without a newline
  (`Glob.NewlinesAreNotMatched`).
- A member entitled to a team place keeps it exactly when the login can be looked up
  (`TeamSync.FailedLookupRemoves`), although the comment above the removal speaks of people without an
  entitlement.
- WAV files keep their samples exactly up to 32-bit sizes (`Wav.RoundTrip`).
- `start` reports a held slot exactly when the store refuses the claim, so also when the candidate itself is
  no longer approved: a pass can end without starting anything in an idle environment
  (`PromotionTick.StartPromotion`, `PromotionTick.StaleCandidate`).

## Model

| member | source | states |
|---|---|---|
| Windows.OpenAtIffIsOpen | internal/environments/window.go:83-96 | For valid windows, looking at the local day and the day before decides whether any day's instance of any window, midnight crossing included, contains the instant. |
| Windows.WindowOpen | internal/environments/window.go:83-96 | The loop answers open exactly when some instance contains the instant (or no window is configured); the closing instant is that of the first such window: it stays open until then and is closed at it. |
| Windows.OpenByTheClock | internal/environments/window.go:52-96 | What open means on the wall clock: on the weekdays it runs, from its opening to its closing minute; a window that closes at or before its opening minute is open from the opening minute on, and before the closing minute if it ran the day before. |
| Windows.AcrossMidnight | internal/environments/window.go:73-117 | The window from 22:00 to 02:00 is open at 01:00 until 02:00, and from noon on opens first at 22:00. |
| Windows.NextStartExists | internal/environments/window.go:99-117 | Every valid window starts again within the days searched, and the start found is the least one after the instant. |
| Windows.EarliestStartIsLeast | internal/environments/window.go:99-117 | The best start over all windows exists and is the minimum of the windows' next starts. |
| Windows.NextOpenIsFirst | internal/environments/window.go:99-117 | The answer is the least open instant at or after the argument; the 24-hour fallback is never reached. |
| Windows.OpenAtOrAfter | internal/environments/window.go:99-117 | The nested loops compute that least open instant. |
| Windows.ClosedUntilNextStart | internal/environments/window.go:99-117 | A window that is closed now stays closed until its next start. |
| Gate.CountApprovals | internal/environments/gate.go:12-24 | The loop counts the approvals that are not self-approvals, or all of them when the policy allows those. |
| Gate.CountIsUsers | internal/environments/gate.go:12-24 | When every user decides once, the count is the number of distinct users whose approval counts. |
| Gate.CountOnPrefix | internal/environments/gate.go:12-24 | Decisions that arrive later never lower the count. |
| Gate.IsApprover | internal/environments/gate.go:66-80 | The loop answers yes exactly when some reviewer names the user, or a non-empty role the user holds. |
| Gate.AcceptedExactlyWhen | internal/environments/service.go:237-259 | A decision is accepted if and only if the promotion is in a state that takes it, the actor is a listed reviewer (an admin in production), self-approval is allowed where it is one, and the actor has not decided before. |
| Gate.RefusedBecause | internal/environments/service.go:237-259 | Which of the four refusals a decision gets, in terms of status, reviewers, role, policy and earlier decisions. |
| Gate.ApprovedExactlyWhenOpen | internal/environments/gate.go:28-39 | Approved exactly when quorum is at least the minutes to wait ago and a window is open; not_before is absent exactly then. |
| Gate.NotBeforeIsEarliest | internal/environments/gate.go:28-39 | not_before is the first instant at which the minutes to wait have passed and a window is open, and every re-evaluation before it gives the same not_before. |
| Gate.AdvanceByCases | internal/environments/gate.go:43-62 | Pending stays pending while fewer distinct people than required approved; then, or past quorum, approved or waiting by the wait from the recorded quorum (else from now) and the windows; anything else is left alone, and a change is reported exactly when status or not_before differ. |
| Gate.AdvanceIsFixpoint | internal/environments/gate.go:43-62 | Advance applied to its own result at the same instant reports no change. |
| Gate.WaitingIsStable | internal/environments/gate.go:28-62 | A promotion left waiting is left alone by every later advance until not_before and is approved at it. |
| PromotionStore.CreateMeans | internal/repository/environment_repo.go:504-547 | A promotion is created unless its id exists, its requester used its key before, or its commit is active in the environment. |
| PromotionStore.DecisionMeans | internal/repository/environment_repo.go:560-628 | A decision is taken by its status only, refused to somebody who has decided, a rejection ends the promotion, and an approval leaves it pending until the distinct people whose approval counts are as many as required. |
| PromotionStore.TransitionMeans | internal/repository/environment_repo.go:630-662 | A transition is made exactly from one of its statuses, to deploying only while nothing deploys in the environment; which fields it writes. |
| PromotionStore.ExpiryMeans | internal/repository/environment_repo.go:680-700 | Exactly what has not started deploying and whose expiry has come expires, and nothing else changes. |
| PromotionRuns.CallFollows | internal/environments/store.go:77-85 | Every store call moves each promotion along the state graph, keeps what was requested, and only adds decisions at the end. |
| PromotionRuns.CallKeepsOneDeploying | internal/environments/store.go:77-85 | No call makes two promotions of an environment deploy at once. |
| PromotionRuns.CallKeepsOneActive | internal/environments/store.go:72-74 | No call makes two promotions of one commit active in one environment. |
| PromotionRuns.StepIsGood | internal/environments/tick.go:72-301 | One step of any service, taken from snapshots of any age, keeps everything below at every moment of the run. |
| PromotionRuns.EveryRunIsGood | internal/environments/tick.go:72-301 | The invariant over every interleaving of requests, decisions, cancels, expiries, policy edits and Tick steps of any number of instances. |
| PromotionRuns.OneDeployingAlways | internal/environments/tick.go:204-244 | At every moment of every run an environment has at most one deploying promotion. |
| PromotionRuns.DeployingOnlyFromApproved | internal/environments/tick.go:204-244 | Deploying is entered only from approved. |
| PromotionRuns.EndStatesAreFinal | internal/environments/store.go:77-85 | Success, failed, rejected, cancelled and expired are never left and a promotion never turns into another request. |
| PromotionRuns.StatusMoves | internal/environments/store.go:77-85 | The only moves of a status in any run: what has not started deploying may be rejected, cancelled or expire, deploying succeeds or fails, and four more. |
| PromotionRuns.RequestedMeans | internal/environments/promotions.go:297-344 | A request expires after 72 hours, is pending exactly when approvals are required, and otherwise approved exactly when there is nothing to wait for and a window is open. |
| PromotionRuns.LeavingPending | internal/environments/promotions.go:391-424 | A pending promotion passes quorum only by a decision or an advance whose own snapshot of the policy counted enough approvals. |
| PromotionRuns.QuorumWasReal | internal/environments/promotions.go:325-424 | Every promotion seen past pending had, at the step where it left pending, at least the required number of approvals from distinct users, each accepted by canDecide before, none the requester's unless that step's policy allowed it. |
| PromotionRuns.ApprovedOnlyInsideWindow | internal/environments/gate.go:28-62 | A promotion becomes approved only by a step under whose policy and at whose instant a window is open and the minutes to wait since quorum have passed. |
| PromotionBackend.Store.Perform | internal/environments/store.go:77-85 | One store call after exactly the others' next turn: it fails, and then nothing happened but that turn, or it happens atomically on the state the others left. |
| PromotionBackend.Store.ListActive | internal/repository/environment_repo.go:486-489 | The oldest active promotions, oldest first, up to the limit, as they are at one moment. |
| PromotionBackend.OldestActiveMeans | internal/repository/environment_repo.go:486-489 | What is listed is ordered by creation time and then id, and every active promotion left out is younger than all that are listed, which then reach the limit. |
| PromotionBackend.LegalLater | internal/environments/tick.go:102-118 | What a service decided from its snapshots stays what it asks for, whatever happened since. |
| PromotionTick.AdvancePromotion | internal/environments/tick.go:102-118 | The result is the advanced promotion exactly when the store made the transition during this call; the snapshot comes back when there was nothing to change, the store refused it, or the call failed; left alone the row and the result are what Advance computes. |
| PromotionTick.AdvancesMeans | internal/environments/tick.go:102-118 | The one transition an advance asks for, from the status that was read, and none when nothing would change. |
| PromotionTick.FinishPromotion | internal/environments/tick.go:259-271 | The ended promotion comes back only if the store made the transition in this call, the snapshot only if it refused it or the call failed; left alone a deploying row is ended with its time and any other is untouched. |
| PromotionTick.Launch | internal/environments/tick.go:246-257 | The deployment that was created is recorded, or the promotion is failed, unless a call failed; left alone the row is exactly that. |
| PromotionTick.Poll | internal/environments/tick.go:274-301 | Left alone it succeeds exactly when the deployment did; it fails exactly when the deployment stopped, ran past the timeout, or is missing two minutes after the claim with its recorded source gone; with the source there it is launched again; the row is exactly that. Under interference the end is reported only if the store made it in this call. |
| PromotionTick.PollsMean | internal/environments/tick.go:274-301 | Which call the poll makes under any interference, by what the deployment did: the end as a success, the end as a failure, the launch, or none. |
| PromotionTick.StartPromotion | internal/environments/tick.go:204-244 | Under any interference: claimed means the check passed and the row went from approved to deploying while nothing else deployed there; a held slot means the check passed and at some moment of the call the row was not approved or its environment was deploying; not started means the check did not pass or a call failed; which of the first two it is depends exactly on whether the store allows the claim when it is made. |
| PromotionTick.StartMeans | internal/environments/tick.go:204-257 | The calls of an attempt under any interference: the cancellation of a refused candidate, or the claim, and after it the deployment that was created or the failure. |
| PromotionTick.ClaimMeans | internal/environments/tick.go:229-240 | A claim the store made took the slot; a claim it refused found the row not approved or the environment deploying. |
| PromotionTick.StaleCandidate | internal/environments/tick.go:229-240 | A run in which the candidate is cancelled just before its claim: the slot is reported held although the environment is idle and another candidate is approved. |
| PromotionTick.Survey | internal/environments/tick.go:138-186 | The candidates of an environment are exactly the approved promotions seen, in age order, and it is busy exactly when a listed deployment of it still runs. |
| PromotionTick.ExactMeans | internal/environments/tick.go:170-186 | A promotion is a candidate of an environment exactly when it was seen approved there, and an environment is busy exactly while a deployment of it that was listed goes on. |
| PromotionTick.StartInEnv | internal/environments/tick.go:187-200 | Under any interference the candidates are tried in order up to the first that took the slot or whose claim was refused, every one passed over failed its check (or a call failed), and every outcome is explained by what the store did in this call; left alone each is started exactly when its check passes. |
| PromotionTick.StartNext | internal/environments/tick.go:187-200 | Every environment with candidates is tried unless busy, each attempt with the same explanation. |
| PromotionTick.BeginPass | internal/environments/tick.go:154-168 | The overdue promotions expire and the oldest active ones are listed as they are at one moment; only failed calls keep either from happening. |
| PromotionTick.NotBusyIsIdle | internal/environments/tick.go:138-200 | After an undisturbed survey of all active promotions, an environment that is not busy has nothing deploying. |
| PromotionTick.Tick | internal/environments/tick.go:138-200 | One pass under any interference: what is listed at a moment of the pass, what each listed promotion became and why, who is ready and busy, and for every environment that is not busy that the oldest ready promotion for which start did not fail was started or found the slot held at a moment of this pass; left alone it is started in every idle environment, and only inside its window. |
| PromotionService.DecidePromotion | internal/environments/promotions.go:391-424 | Recorded exactly when canDecide allows it on what was read in this call and the store agrees; every other answer is tied to what was read, what the store answered, or a failed call; left alone the answer is canDecide's, the store never refuses what it allows, and the row is the decided one. |
| PromotionService.AcceptedIsRecorded | internal/environments/promotions.go:391-424 | The checks of canDecide and of the store agree: what one accepts the other records on the same row. |
| PromotionService.DecidedMeans | internal/environments/promotions.go:391-424 | The answer and the row of an undisturbed decision: a rejection ends it, an approval short of quorum only joins, the last one lets it through at once exactly when there is nothing to wait for and a window is open. |
| PromotionService.CancelPromotion | internal/environments/promotions.go:437-463 | Only the requester or an admin cancels, only before deploying, and a conflict is reported exactly when the store found it too late; every answer is tied to its cause; left alone each answer is given exactly when its cause holds, and the row is cancelled with its time. |
| PromotionService.RequestPromotion | internal/environments/promotions.go:297-344 | A new promotion is stored as asked, pending exactly when approvals are required, else judged at once; refused only when the store says the commit or the key is taken; left alone exactly then. |
| PromotionService.Reevaluate | internal/environments/tick.go:72-99 | Everything active at a moment of the call was judged: what the new policy refuses was asked to be cancelled, what it accepts to be advanced; left alone exactly the rows of this environment change, refused ones are cancelled, accepted ones advanced, and trouble in the check or a running deployment changes nothing. |
| PromotionService.PolicyMeans | internal/environments/tick.go:72-99 | Row by row, what a new policy does: cancelled when it refuses the commit, kept when that could not be told or the promotion deploys or has ended, else moved where Advance says. |
| PromotionService.PutEnvironment | internal/environments/service.go:377-404 | A policy edit stores the policy and judges what is active under it; it fails only when a call failed; left alone the policies and every row afterwards are determined. |
| Envelope.NonceCollision | internal/backup/envelope.go:82-90 | Two nonces agree exactly when the counters agree modulo 2^32 and the last flags agree. |
| Envelope.NoncesAreDistinct | internal/backup/envelope.go:82-90 | The nonces of one stream all differ if and only if it has at most 2^32 full chunks before the last. |
| Envelope.StreamRecords | internal/backup/envelope.go:122-170 | The canonical chunking: full chunks, then one last chunk, empty only for no data. |
| Envelope.HeaderBytes | internal/backup/envelope.go:104-120 | The sixteen bytes of the header. |
| Envelope.NonceBytes | internal/backup/envelope.go:82-90 | The twelve bytes of a nonce: prefix, position modulo 2^32 with the most significant byte first, last flag. |
| Envelope.NotABackupExactly | internal/backup/envelope.go:195-206 | Fewer than sixteen bytes are truncated; others are no backup exactly when they do not begin with the nine fixed bytes. |
| Envelope.HowItEnds | internal/backup/envelope.go:208-243 | Which verdicts a failing and which an ending source can get, and when a short rest is truncated. |
| Envelope.OpensOnlyInPlace | internal/backup/envelope.go:208-243 | Under an ideal AEAD the ciphertext of a chunk opens at its own position only. |
| Envelope.OnlyTheStreamReadsCleanly | internal/backup/envelope.go:195-261 | Whatever bytes are presented, the reader hands out a prefix of the plaintext and ends cleanly exactly on the stream itself. |
| Envelope.CounterComesRound | internal/backup/envelope.go:82-90 | From 2^32 full chunks on, position 2^32 accepts the first chunk again. |
| Envelope.RepeatedReadsCleanly | internal/backup/envelope.go:195-261 | Then the first 2^32 chunks followed by the whole stream read to a clean end and are another stream. |
| Envelope.CleanEndProvesStream | internal/backup/envelope.go:195-261 | A clean end proves the stream if and only if it has at most 2^32 chunks. |
| EnvelopeStream.EncryptWriter.Write | internal/backup/envelope.go:142-161 | A write of any length leaves the writer holding exactly the canonical chunks of all data so far and the rest in its buffer. |
| EnvelopeStream.EncryptWriter.Close | internal/backup/envelope.go:164-170 | Closing completes the canonical stream. |
| EnvelopeStream.DecryptReader.Next | internal/backup/envelope.go:208-243 | One chunk more of the decoded plaintext, or its verdict. |
| EnvelopeStream.DecryptReader.Read | internal/backup/envelope.go:245-261 | A read of any size returns the next bytes of the decoded plaintext, its inner loop taking at most two rounds. |
| EnvelopeStream.EncryptAll | internal/backup/envelope.go:122-170 | However the plaintext is split into writes the bytes are the same. |
| EnvelopeStream.DecryptAll | internal/backup/envelope.go:195-261 | However the reads are sized they deliver the decoded plaintext in order and the verdict only at its end. |
| EnvelopeStream.RoundTrip | internal/backup/envelope.go:104-261 | Written in any pieces and read in any sizes: the plaintext, then a clean end. |
| Upload.PutParts | internal/backup/store.go:93-116 | Parts 1..k are the bytes in order, all full but the last, the last not empty after a clean end. |
| Upload.PutStream | internal/backup/store.go:64-124 | It succeeds exactly when no call fails and the source ends in any way but an error other than an unexpected end, which is taken for the end; then the object is exactly the bytes read and the size their number; failure leaves no object. |
| Cursors.ClampLimit | internal/gitcore/cache.go:129-137 | The limit used is between 1 and 100: the one asked for when that is, 30 when none is given, 100 for anything above. |
| Cursors.FetchPaged | internal/gitcore/cache.go:158-211 | Items returned, followed by what the returned cursor stands for, are what the given cursor stood for; never more than the limit; every call gets further, by four pages at most; with full pages the call is as full as it may be; past the last page nothing is returned and the walk goes on only while upstream claims that more follows. |
| Cursors.FourPagesAreEnough | internal/gitcore/cache.go:173-210 | With full upstream pages the loop never runs out of its four rounds. |
| Cursors.HasMoreMeans | internal/gitcore/cache.go:138-153 | The link header, then the total, then the flag decide whether more follows, in that order; without any a full page is not the last. |
| Cursors.NextIsAccepted | internal/gitcore/cache.go:105-127 | A cursor handed out is accepted back if and only if its page number is at most 1000000. |
| Cursors.FollowCursors | internal/gitcore/cache.go:95-211 | Following the cursors from the first page with any limits yields each item once, in order, and ends: with the whole list up to 1000000 pages, refused before its end past 1000003. |
| Cursors.ServedIsTheList | internal/gitcore/cache.go:140-153 | Whatever truthful headers a server sends on each page, the walk ends at the right page: the pages are the list, no item twice and none missing. |
| Cursors.ServerHasPages | internal/gitcore/cache.go:140-153 | So a server with a list and truthful headers always meets what FollowCursors asks. |
| Cursors.TeamMembers | internal/gitcore/admin.go:237-254 | The 100-call loop returns the first members, and exactly the first 10000 when pages are full: larger teams are cut off. |
| GenerationCache.StepIsGood | internal/gitcore/cache.go:25-82 | Every step of every call, invalidation, eviction and upstream change keeps cached entries and calls in flight true since their generation was set. |
| GenerationCache.ReturnsAreFresh | internal/gitcore/cache.go:25-82 | What a call returns upstream held no earlier than the last invalidation completed before the call computed its key, if its own generation read succeeded or nothing was invalidated before. |
| GenerationCache.BlindReadsCanBeStale | internal/gitcore/cache.go:27-36 | After an invalidation at any moment a call whose generation read fails can return any value replaced before it. |
| GenerationCache.FreshExactlyWhen | internal/gitcore/cache.go:25-82 | Calls are always fresh if and only if they read the generation or nothing was invalidated before them. |
| GenerationCache.Service.Cached | internal/gitcore/cache.go:57-82 | The cached call with everybody else in between its steps: what it returns was held since the last invalidation, and it fails only when upstream lacked the key; left alone it returns the cached value or the current one, which it then caches. |
| GenerationCache.Service.InvalidateRepo | internal/gitcore/cache.go:39-53 | Rotating the generation makes everything cached unreachable; a failed write changes nothing. |
| FnStore.MemStore.CreateFunction | internal/fn/memstore.go:27-38 | A function is stored unless its project already has one of that name. |
| FnStore.MemStore.CASLastCron | internal/fn/memstore.go:89-101 | Sets the time exactly when it still is the one given. |
| FnStore.MemStore.TryStart | internal/fn/memstore.go:134-153 | Starts a run exactly when it is queued and fewer runs of its function are running than max_concurrency; writes its status, node and start. |
| FnStore.MemStore.FinishRun | internal/fn/memstore.go:154-163 | Writes the report into the run. |
| FnStore.MemStore.RevokeRunTokens | internal/fn/memstore.go:204-214 | Revokes every unrevoked token of the run and no other. |
| FnMemory.Perform | internal/fn/memstore.go:27-214 | The store call of every step of the interleaving model leaves the in-memory store as the step leaves the model's database. |
| FnRuns.StepKeepsTokens | internal/fn/lambdarun.go:221-244 | No step gives a run two unrevoked tokens or a token other scopes than the run. |
| FnRuns.StepKeepsLimits | internal/fn/memstore.go:134-163 | No step lets a function run more often than it may. |
| FnRuns.EveryRunIsGood | internal/fn/service.go:140-378 | The invariant over every interleaving of nodes, dispatchers, reports, cancels, reapers and crons. |
| FnRuns.TimePasses | internal/fn/memstore.go:102-214 | Over any run: ranks never drop, scopes and functions of runs never change, a revoked token stays revoked. |
| FnSafety.NeverOverLimit | internal/fn/memstore.go:134-153 | No function ever has more than max_concurrency running runs. |
| FnSafety.RankNeverDrops | internal/fn/service.go:347-378 | A run goes from queued to running to ended and never back, given reports of ends. |
| FnSafety.StartedAtMostOnce | internal/fn/memstore.go:134-153 | At most one TryStart of a run ever succeeds. |
| FnSafety.ActiveMeansLive | internal/fn/service.go:403-421 | An introspection that says active is right about the moment it read the token, and its scopes are those the function declared. |
| FnSafety.LiveMeansActive | internal/fn/service.go:403-421 | A token live all along is called active while its function exists. |
| FnSafety.EndedMeansInactive | internal/fn/service.go:403-421 | Once a run has ended none of its tokens is ever active again. |
| FnSafety.MintReplaces | internal/fn/lambdarun.go:221-244 | After a mint the new token is the run's only unrevoked one. |
| FnSafety.RevocationAloneIsNotEnough | internal/fn/lambdarun.go:221-244 | A run ended just after a batch checked it keeps an unrevoked token that only the status makes inactive. |
| FnLambda.RevocationHoldsExactlyWhen | internal/fn/lambdarun.go:221-244 | An ended run whose tokens are revoked has no unrevoked token in any continuation if and only if no mint for it is under way. |
| FnCron.NoInstantFiresTwice | internal/fn/service.go:159-189 | While the schedule has a next instant: last_cron_at strictly increases, every firing consumes an interval holding a scheduled instant, and no two consume the same instant. |
| FnCron.NoInstantIsLost | internal/fn/service.go:159-189 | No instant between the first and the last firing is left out. |
| FnCron.NoInstantRunsTwice | internal/fn/service.go:159-190 | Over all Tick loops: every run a cron enqueues is for one firing, no firing has two, and no two runs are for the same scheduled instant. |
| FnCron.FiresWithoutAnInstant | internal/fn/service.go:171-182 | The cron is due at every Tick, on any clock, even one that moves last_cron_at back, if and only if the schedule has no next instant within its horizon. |
| FnBackend.Backend.QueuedRuns | internal/fn/memstore.go:109-128 | The oldest queued runs, oldest first, up to the limit. |
| FnBackend.Backend.TryStart | internal/fn/memstore.go:134-153 | One start after any interference; success makes the run this backend's. |
| FnBackend.Backend.PutToken | internal/fn/memstore.go:189-194 | A fresh token for a run this backend started, or a failure without effect. |
| FnBackend.Backend.EnqueueRun | internal/fn/service.go:140-156 | A new queued run with a copy of the function's scopes, by hand or for a firing of this backend that has no run yet. |
| FnService.Claim | internal/fn/service.go:241-284 | The run returned was started, at the time of the call, and its token minted by this call; every older run of the queue it read, or all when it returns nothing, could not be given to a node at a moment of this call or a call failed; left alone it takes the first run in the queue that can start, and nothing only when none can. |
| FnService.ClaimTokenOutlastsRun | internal/fn/service.go:196-271 | The token of a claim does not expire within the timeout and the five minutes of grace after the start. |
| FnService.Introspect | internal/fn/service.go:403-421 | Active exactly when the token read first is unrevoked and unexpired, its run read second is running, and its function read third exists; the claims are those of the token, the run and the function. |
| FnService.EndRun | internal/fn/service.go:358-371 | The run ends, every token it had is revoked, nothing else changes. |
| FnService.FinishReported | internal/fn/service.go:347-356 | A report on a run that was not running when it was read is ignored; otherwise it ends the run and revokes its tokens. |
| FnService.Cancel | internal/fn/service.go:373-378 | A queued or running snapshot ends the run, however old the snapshot is. |
| FnLambda.Mint | internal/fn/lambdarun.go:221-244 | A token only for a run found running; it is then the only unrevoked one, whatever the others did meanwhile. |
| FnLambda.RunBatches | internal/fn/lambdaexec.go:109-161 | Every batch has the whole of its slice or of the time left, resumes where the one before stopped and has a token of its own minted by this call; totals and status are those of the answers; the loop ends by the deadline, and early only when the run was not running at a moment of this call or a token could not be stored; left alone it stops exactly when the run is not running. |
| FnTick.FireCron | internal/fn/service.go:159-190 | A cron that is due fires unless its compare-and-set is refused; a run is enqueued for that firing only, one at most, exactly when none of the function waits in the queue. |
| FnTick.Reap | internal/fn/service.go:191-204 | Every run found running has ended or was not overdue at a moment of the call; left alone exactly the running runs of existing functions that started longer ago than the timeout and five minutes are timed out, exactly their tokens are revoked, and every other run is unchanged. |
| FnTick.ReapedAfterItsToken | internal/fn/service.go:191-271 | After any continuation of a claim the reaper takes its run exactly when the token of the claim has expired. |
| FnTick.Tick | internal/fn/service.go:159-205 | Each function fires at most once per pass, with at most one run, and a cron that was due fired or had its compare-and-set refused; overdue runs have ended; left alone all due crons fire and no running run is left past its timeout and grace. |
| FnTick.DispatchLambda | internal/fn/lambdarun.go:141-178 | Every run returned was started by this call and awaits its batches, every other of the queue could not start at a moment of this call; left alone no queued Lambda run that could start is left. |
| FnLambda.ForOneOfThem | internal/fn/lambdarun.go:141-178 | The runs of enabled functions are for the nodes or for the backend, never for both. |
| Glob.AcceptsConcat | internal/gitapi/glob.go:40-97 | A balanced pattern followed by another matches in two halves. |
| Glob.SameAlternatives | internal/gitapi/glob.go:68-91 | The alternatives of a group are those of the braces, nested ones included. |
| Glob.SameMeaning | internal/gitapi/glob.go:40-97 | The expression emitted for a pattern matches exactly the spans the pattern accepts. |
| Glob.Anchored | internal/gitapi/glob.go:40-97 | Searched for between both anchors, the expression matches the whole name or nothing. |
| Glob.CompilingKeepsMeaning | internal/gitapi/glob.go:40-97 | The compiled expression finds exactly the names the direct matcher accepts, unclosed and unmatched braces included. |
| Glob.NewlinesAreNotMatched | internal/gitapi/glob.go:50-56 | The compiled expressions find what the patterns mean, for every pattern, if and only if the name holds no newline. |
| Glob.PlainIsExact | internal/gitapi/glob.go:20-26 | A pattern without wildcards means itself only. |
| GlobPatterns.CharactersMean | internal/gitapi/glob.go:40-97 | The empty pattern, the question mark, a plain character, a brace or comma that delimits nothing and a bracket never closed, on any name and with any rest of the pattern. |
| GlobPatterns.StarsMean | internal/gitapi/glob.go:40-97 | A star means any text without a slash and two stars any text, with any rest of the pattern. |
| GlobPatterns.ListsMeans | internal/gitapi/glob.go:56-67 | A class lists its characters and its ranges. |
| GlobPatterns.RangesMustBeOrdered | internal/gitapi/glob.go:56-67 | The expression of a class compiles exactly when no range in it is reversed. |
| GlobPatterns.ClassMeans | internal/gitapi/glob.go:56-67 | A class means one character it lists, after an exclamation mark or a caret one it does not list. |
| GlobPatterns.BracesMean | internal/gitapi/glob.go:68-83 | Braces mean either of their two alternatives in their place. |
| GlobMatcher.CompileGlob | internal/gitapi/glob.go:40-97 | The loop with its depth counter writes exactly the expression of the pattern, or none when a range is reversed. |
| GlobMatcher.Matcher.MatchGlob | internal/gitapi/glob.go:20-44 | A name matches when it equals the pattern or the pattern means it; the cache never changes the answer and stays bounded. |
| GlobPatterns.OpenBraceMeans | internal/gitapi/glob.go:68-91 | A brace that is never closed extends to the end of the pattern. |
| TeamSync.ResolveBounds | internal/authz/authz.go:98-133 | Who is admin, deployer, viewer or nothing, one condition each on the organization role, the mode and the explicit role; hidden is exactly a member without a role. |
| TeamSync.OneTeamEach | internal/forgejo/core.go:458-492 | Nobody is entitled to two teams. |
| TeamSync.AddMembers | internal/forgejo/core.go:458-492 | Every member is added to the team of its role; the pending list is exact; nothing is added on teams in step. |
| TeamSync.RemoveOthers | internal/forgejo/core.go:493-503 | What is not desired goes, nothing else. |
| TeamSync.SyncProject | internal/forgejo/core.go:385-515 | It succeeds exactly when no call fails; then the admin team holds exactly the existing logins of owners, organization admins and plain members made admin, likewise the deployer and the viewer team, and the pending list is exact; even on failure nobody entitled was taken out and nobody else put in. |
| TeamSync.SyncTwice | internal/forgejo/core.go:385-515 | A second run changes nothing and finds the same members pending. |
| TeamSync.FailedLookupRemoves | internal/forgejo/core.go:466-474 | After a synchronization a member with an existing login, entitled by its role, is in its team if and only if the login could be looked up. |
| Waker.Runner.DropOld | internal/ciwake/ciwake.go:184-191 | The in-place filter keeps exactly the starts of the last hour, in order. |
| Waker.Runner.Wake | internal/ciwake/ciwake.go:146-208 | Started exactly when stopped, not debounced, fewer starts than the cap lie within the last hour and the call works; every start ever made stays sound and the slice is the last hour of them. |
| Waker.StaysSpaced | internal/ciwake/ciwake.go:184-199 | A start allowed by the cap keeps every start an hour or more after the one max places before it. |
| Waker.StartsInAnHour | internal/ciwake/ciwake.go:184-199 | No span of an hour, wherever it begins, holds more than MaxPerHour starts. |
| Wav.WAV | internal/aimm/sonic.go:367-384 | The header filled in place and the samples are the canonical file. |
| Wav.HeaderFields | internal/aimm/sonic.go:367-384 | Every byte of the file: names, sizes, rates and numbers of 16-bit mono PCM, little-endian and cut to 32 bits, then the samples. |
| Wav.PCMFromWAV | internal/aimm/sonic.go:387-420 | The chunk walk is total on every byte string and equals the recursive parse. |
| Wav.NotWavExactly | internal/aimm/sonic.go:387-392 | A byte string is no WAV file exactly when it is shorter than 44 bytes or lacks one of the two names. |
| Wav.SkipsChunks | internal/aimm/sonic.go:397-418 | Well-formed chunks that are not known are skipped, odd sizes with their padding. |
| Wav.ParsesFile | internal/aimm/sonic.go:387-420 | Unknown chunks before the format or between it and the data, and anything after the data, change nothing. |
| Wav.RoundTrip | internal/aimm/sonic.go:367-420 | Reading back what WAV wrote gives samples and rate if and only if both fit 32 bits. |

## Left out

- Windows.OpenAtOrAfter: zones have a fixed offset, so a window's days all have 24 hours; instants before the zero time are excluded because the loop uses that time as "nothing found".
- Window parsing: `parseHM` and `ValidateWindow` are the predicate `Windows.Valid` on minutes and weekdays; the texts they read are not modelled.
- PromotionTick.Tick: an environment that is not busy is known to be idle only in passes left alone with fewer than 500 active promotions, the number the loop lists; whether a call failed is told for the whole pass.
- PromotionTick.BeginPass: environments read for the events of expired promotions, which fill the pass's cache a little earlier.
- PromotionTick.StartPromotion: the commit, check and security look-ups of `checkStatic` are one answer of pass, refusal or trouble.
- PromotionService.CancelPromotion: the promotion is read again to answer; that this read may fail after the cancellation is not modelled.
- PromotionService.RequestPromotion: a repeated request with the same idempotency key is refused by the store here; replaying the earlier answer and the check that somebody can approve are not modelled.
- PromotionRuns.EveryRunIsGood: environments are created and edited but never deleted, users are never deleted, and a store call either happens or has no effect (no commit whose outcome is unknown).
- Promotion events, audit entries, notifications and the pending lists: side effects that no decision depends on.
- Envelope.OnlyTheStreamReadsCleanly: the cipher is ideal, one key serves one stream, and key wrapping, randomness and AES itself are not modelled.
- EnvelopeStream.EncryptWriter.Write: the writer underneath does not fail.
- Upload.PutStream: the store's own limit on the number of parts, checksums and metadata are not modelled.
- Cursors.FollowCursors: the listing does not change during the walk and upstream pages hold at most 50 items; between 1000001 and 1000003 pages whether the walk ends depends on the limits.
- Cursor texts: base64 and JSON are left out; a cursor is its page and skip.
- GenerationCache.ReturnsAreFresh: generations are never drawn twice and the generation entry itself does not expire; the size limit on entries is the `stored` choice of each write.
- FnRuns.EveryRunIsGood: store calls and reads succeed, except that minting a token may fail; a revocation that fails before a mint would leave two unrevoked tokens.
- FnRuns.EveryRunIsGood: reports carry a terminal status, which the report handler checks (internal/server/handlers/vpnfn.go:510-516); "the first terminal state wins" is stated for undisturbed calls only, since the read and the write are two calls.
- FnService.Claim: tunnels, their credentials, the run environment and its audit entries are not modelled; runs queued at the same instant may come in any order.
- FnTick.Reap: that it ends no other run is stated for a backend left alone, since others end runs too.
- FnLambda.RunBatches: the clock moves between batches; a tunnel that is switched off, which stops a run too; logs, the relay and its byte counts, and cancelling an invocation in flight are not modelled.
- FnTick.Tick: invalid cron texts are left out; a schedule is a function from an instant to the next one.
- GlobMatcher.Matcher.MatchGlob: the meaning of a pattern is stated for ASCII patterns whose classes are not empty and hold no backslash and no opening bracket, which the expression engine reads in its own ways; the engine is its denotation here.
- TeamSync.SyncProject: members have distinct logins, logins are compared in lower case (ASCII), teams already exist and are read whole; the delegate that replaces this path and the provisioning calls are not modelled.
- TeamSync.RemoveOthers: the two nested loops over teams and logins are one loop with the role as a variable; the map orders do not matter.
- Waker.Runner.Wake: the clock does not go back; counters other than the starts are left out.
- Volume restore, prices and quotas, resampling, redaction, configuration, HTTP handlers, the permission service and the database, forge and cloud clients: shell, floating point or plumbing that would add easy members only.
