# Coins, generation jobs, purchases: a verified model

This project models the stateful core of a music generation backend and proves what its
transactions keep, over whole runs. Functions specify each transaction; classes carry out the
updates in place, statement by statement, and are proved equal to those functions; lemmas then
prove properties of every run.

| file | subject |
|---|---|
| `Options`, `Decimal`, `Sums` | option type, decimal text with its inverse, sums over rows |
| `Keys` | StoreKit dedup keys and the ledger's idempotency keys, as text |
| `Wallets`, `Writers`, `CoinDatabase` | every writer of `coin_wallets` and `credit_ledger` |
| `Jobs`, `Song`, `Cover`, `Video`, `Pipelines` | the three job pipelines and their runner |
| `Generation`, `GenerationDatabase` | interleaved `create_job` calls, starts, reports, recovery and merges over the wallets |
| `Recovery`, `Stranding` | what recovery pays back, and the reserves that never come back |
| `Billing`, `Ownership`, `BillingDatabase` | StoreKit transactions, coin grants, subscription chains |
| `Adapty` | Adapty webhook events |
| `Lyrics` | the lyrics charge/refund saga |
| `Guests` | guest sign-in, Apple sign-in and promotion |
| `RateLimit` | the token bucket |
| `Subtitles` | lyric lines, cue timing, SRT text and its reader |
| `Migration` | migration 0016 on the stored keys |

One `session.begin()` block is one atomic step that rolls back when it raises, and everything may
interleave between steps. A pipeline start and a report handler are one step each. Answers of the
fal provider, ffmpeg and the language model are arbitrary inputs (`Jobs.Env`), so each claim holds
for every outcome. Handlers of one job run one at a time.

## Assumptions and findings

* **Replay has an exact guard.** Each ledger kind has its own effect on `coins_available`: a job's
  capture has none, a lyrics capture debits, and `debit_adjustment` is stored positive. The ledger
  stays an exact account of a balance if and only if the operation is `Wallets.Accountable`. The
  operations outside it are a refund or release for a user without a wallet row (the ledger row is
  written, the coins are not), a CRM grant of a product with a negative coin count, and merging a
  user with coins into himself. The caller in `app/auth/sessions.py` excludes the last one.
* **Settlement needs each accepted request to be reported once.** The handlers guard on the current
  stage and not on the status, and a failed report is not checked against the stage at all. For
  arbitrary handler calls the exact condition is `Pipelines.Harmless`: the call is ignored as stale,
  or the job is unfinished, or the handler makes the gate call that settled the job, which the
  ledger key then stops. `Pipelines.FinishedSongSurvivesIff` and its two siblings spell it out.
  `Generation.StrayKeepsInvIff` is the same for the ledger and the whole system, where a failed report
  for another stage also leaves the outstanding request of a waiting job behind, and
  `Pipelines.SecondReportSettlesTwice` is an input that fails. The one-track property needs no such
  assumption.
* **A merge while a call is under way strands its reserve.** `create_job` reserves and inserts in two
  transactions and releases, when the submission fails, on the row object it inserted, so for the
  caller and not for the current owner. There are two windows. Merged between reserve and insert, the
  guest's wallet is gone while the call still inserts a job for him. Merged between insert and a
  failing start, the row has moved to the target but the release still goes to the guest. Either way
  the release burns its key and credits nobody, and the coins stay in the target's reserve
  (`Stranding.MergeWhilePendingRun`, `Stranding.MergeBeforeFailedStartRun`). The exact conditions are
  `Generation.MergeKeepsBackedIff` and `Generation.StartKeepsInvIff`. Recovery releases on a listed
  row in the same way (`Generation.RecoverKeepsInvIff`). The theorems over runs of `Generation` are
  stated for runs whose steps are `Sound`, which is exact for the steps of the model: the invariant
  holds throughout a run if and only if each of its steps is sound.
* **A lyrics retry is refunded at the price of the moment.** A repeated charge moves nothing but
  answers with the current price, and a failure refunds that. Refunds stay within charges if and only
  if the refunded attempt saw at most the charged price (`LyricsSaga.RefundsWithinChargesIff`). When
  the payer is merged before the failure, the refund burns its key and reaches nobody
  (`LyricsSaga.MergedPayerLosesRefund`).
* **A lost client-key race keeps the reserve.** When two calls pass the lookup and the insert of one
  violates the unique index, its coins stay reserved over every further run
  (`Stranding.LostRaceNeverReturnsReserve`). The backing invariant counts them explicitly.
* **The single-owner property needs the original transaction id.** A transfer looks for
  `original or transaction_id` in `original_transaction_id`, a column that is empty for a
  transaction without an original. Two users presenting one receipt are both active exactly when it
  does not name its original (`Ownership.TwoActiveIffOriginalUnknown`).
* **Access is order-sensitive, coins are not.** For Adapty events the wallets and the ledger depend
  only on the set of delivered events. The subscription status is the one set by the user's last
  first-delivered deciding event, so two orders agree exactly when that event sets the same status.
* **Subtitles tile the audio exactly when it lasts longer than half a second per line but the
  last.** Otherwise the half-second floor starts a cue at or after the end.
* **Migration 0016 raises on a scoped twin.** The `UPDATE` of ledger keys fails exactly when a later
  row already holds the new key of an earlier one, that is, when two granted transaction ids differ
  by the prefix `Production:`. The file's comment says that without the ledger backfill a restored
  receipt would be paid again. In the current code the purchase row already stops that
  (`Billing.RecordedTransactionMovesNoCoins` needs the row only), and the backfill is what keeps
  rows and ledger in agreement.

## Model

| member | source | states |
|---|---|---|
| Keys.DedupKeyInjective | app/domain/services/billing_service.py:63-91 | two StoreKit keys are equal iff environment and transaction id agree and, for Xcode, user and purchase time too; ids are arbitrary strings |
| Keys.KeyTextInjective | app/domain/repositories/credits.py:58-94 | the text of an idempotency key determines its family and argument, so no flow can hit another flow's key |
| Keys.SharedAcrossUsersIff | app/domain/services/billing_service.py:63-91 | a receipt has one key for all users iff its claim is not Xcode, and the Production key iff the claim is neither Xcode nor Sandbox, unknown claims included |
| Wallets.ApplyKeepsReplayIff | app/domain/services/credits.py:41-197 | a transaction keeps every balance equal to the by-kind fold of that user's ledger, and not negative, iff its guard holds |
| Wallets.LedgerReplaysAfterAnyRun | app/domain/services/credits.py:41-197 | the same after any run of all writers in any order |
| Wallets.MergeKeepsReplay | app/domain/services/merge.py:30-55 | after a merge the target's balance is the fold over the united ledger |
| Wallets.ApplyKeepsUniqueKeys | app/domain/repositories/credits.py:58-94 | no transaction writes a key twice |
| Wallets.ApplyKeepsKeys | app/domain/repositories/credits.py:58-94 | a written key is never lost, not even when its row changes owner |
| Wallets.KeyWrittenByItsOperation | app/domain/repositories/credits.py:58-94 | a fresh key can only come from the operation that owns it, as the one appended row |
| Wallets.RepeatMovesNothing | app/domain/services/credits.py:149-197 | a repeated keyed operation moves no coins and writes no row |
| Wallets.RepeatAfterAnyRun | app/domain/services/credits.py:149-197 | once a keyed operation took effect it is a repeat after any further run |
| Wallets.RefusalLeavesNoTrace | app/domain/services/credits.py:41-113 | a refused operation changes nothing, and a reserve or charge is refused for funds iff its positive price exceeds the balance and it is no repeat |
| Wallets.MergeConservesCoins | app/domain/services/merge.py:22-55 | merging two users adds available and reserved, empties the guest, leaves everybody else alone and moves every ledger row |
| Wallets.SecondMergeChangesNothing | app/domain/services/merge.py:30-55 | a second merge of the same pair is the identity |
| Wallets.SelfMergeDeletesWallet | app/auth/sessions.py:152-161 | merging a user into himself keeps the account exact iff the wallet holds nothing |
| Wallets.SelfMergeLosesCoins | app/auth/sessions.py:152-161 | concrete loss without the distinctness guard |
| Writers.ReserveWrites | app/domain/services/credits.py:41-69 | refused with the balance, or the price moves from available to reserved of that user only, with one unkeyed row |
| Writers.ChargeWrites | app/domain/services/credits.py:71-113 | free, repeated, refused, or debited once, with one row under the operation id of its endpoint |
| Writers.RefundWrites | app/domain/services/credits.py:115-147 | a first positive refund is booked, and credited iff the wallet exists |
| Writers.CaptureWrites | app/domain/services/credits.py:149-174 | a first capture clears at most what is reserved and leaves the balance |
| Writers.ReleaseWrites | app/domain/services/credits.py:176-197 | a first release credits the units and clears at most what is reserved |
| Writers.StoreKitGrantWrites | app/domain/services/billing_service.py:237-277 | positive coins under a free key are credited with one row that names the transaction |
| Writers.AdaptyGrantWrites | app/domain/services/adapty_webhook_service.py:356-386 | positive coins under a free key are credited with one row |
| Writers.CrmAdjustWrites | app/domain/services/crm_admin_service.py:165-198 | zero and overdraft are rejected, everything else moves the balance; a debit row is positive |
| Writers.CrmGrantWrites | app/domain/services/crm_admin_service.py:200-276 | a first grant is booked whatever its amount, and credited when positive |
| Writers.AdminCreditsWrites | app/domain/services/admin_service.py:30-52 | overdraft is rejected, everything else moves the balance |
| Writers.AdminSubscriptionWrites | app/domain/services/admin_service.py:54-89 | positive coins are credited, with one unkeyed row |
| CoinTables.CoinDatabase.EnsureWallet | app/domain/repositories/credits.py:41-56 | the row exists afterwards with the old values, or zero |
| CoinTables.CoinDatabase.AppendLedger | app/domain/repositories/credits.py:58-94 | reports a new row iff the key was free, and writes nothing otherwise |
| CoinTables.CoinDatabase.Reserve | app/domain/services/credits.py:41-69 | both tables and the answer equal the atomic reserve, rolled back when funds are short |
| CoinTables.CoinDatabase.Charge | app/domain/services/credits.py:71-113 | both tables and the answer equal the atomic charge; a refusal burns no key |
| CoinTables.CoinDatabase.Refund | app/domain/services/credits.py:115-147 | both tables and the answer equal the atomic refund |
| CoinTables.CoinDatabase.Capture | app/domain/services/credits.py:149-174 | both tables and the answer equal the atomic capture |
| CoinTables.CoinDatabase.Release | app/domain/services/credits.py:176-197 | both tables and the answer equal the atomic release |
| CoinTables.CoinDatabase.GrantCoins | app/domain/services/billing_service.py:237-277 | both tables and the answer equal the atomic store grant, StoreKit or Adapty |
| CoinTables.CoinDatabase.AdjustTokens | app/domain/services/crm_admin_service.py:165-198 | both tables and the answer equal the atomic adjustment, rolled back when the balance would go negative |
| CoinTables.CoinDatabase.GrantCrmSubscription | app/domain/services/crm_admin_service.py:200-276 | both tables and the answer equal the atomic CRM grant |
| CoinTables.CoinDatabase.GrantAdminCredits | app/domain/services/admin_service.py:30-52 | both tables and the answer equal the atomic promo grant |
| CoinTables.CoinDatabase.GrantAdminSubscription | app/domain/services/admin_service.py:54-89 | both tables and the answer equal the atomic admin grant |
| CoinTables.CoinDatabase.MergeCoinWallets | app/domain/services/merge.py:30-50 | the guest's wallet row is added to the target's and deleted |
| CoinTables.CoinDatabase.ReassignAll | app/domain/services/merge.py:53-55 | both tables equal the merged store |
| Jobs.SkipMissingOnlySkips | app/domain/services/pipelines/song.py:224-230 | marking unrecorded stages changes the stage log only and leaves nothing running |
| Jobs.SkipMissingFillsLog | app/domain/services/pipelines/song.py:224-230 | exactly the unrecorded stages become skipped, recorded ones stay |
| Jobs.JobTables.DeliverTrack | app/domain/services/pipelines/song.py:249-279 | the row after capture, one track per job and completed status |
| Jobs.JobTables.FailJob | app/domain/services/pipelines/base.py:138-153 | with no stage running the failure ends the job: exactly one release, status failed |
| Jobs.DeliveryEnds | app/domain/services/pipelines/song.py:235-279 | the delivery ends the job with one gate call that matches its status, whole reserve captured |
| Jobs.DeliveryKeepsOneTrack | app/domain/repositories/tracks.py:18-31 | a delivery leaves at most one track row, soft-deleted ones counting, and a completed job has it |
| SongPipeline.StartSong | app/domain/services/pipelines/song.py:27-104 | the row after the start equals the specification, and whether the submission error escapes |
| SongPipeline.AdvanceSong | app/domain/services/pipelines/song.py:106-139 | the row after a completed report equals the specification |
| SongPipeline.SubmitVocalTts | app/domain/services/pipelines/song.py:141-172 | the row after clone and speech submission, with both failure paths |
| SongPipeline.FailSong | app/domain/services/pipelines/song.py:174-183 | the row after a failed or canceled report |
| SongPipeline.TryMusicFallback | app/domain/services/pipelines/song.py:185-222 | taken iff unused, not already on a fallback model and accepted |
| SongPipeline.FinalizeSong | app/domain/services/pipelines/song.py:224-280 | the row after finalising, with and without an output |
| SongPipeline.MaybeMix | app/domain/services/pipelines/song.py:282-319 | mixing stage and mixed file, for every ffmpeg outcome |
| SongPipeline.StartWaitsOrRaises | app/domain/services/pipelines/song.py:27-104 | a started song waits with one submission, or raised with nothing submitted and nothing running |
| SongPipeline.StartedSong | app/domain/services/pipelines/song.py:27-104 | which lyrics a new song will sing, what its stage log says for each lyrics outcome, and which request it waits for |
| SongPipeline.SungSong | app/domain/services/pipelines/song.py:106-172 | a music report with voice and lyrics leaves the row waiting for the vocals: request, cloned voice, stored url and log |
| SongPipeline.FallbackSong | app/domain/services/pipelines/song.py:174-222 | when the fallback is taken, and that it is the singing model iff there are lyrics |
| SongPipeline.FinishedSongLog | app/domain/services/pipelines/song.py:224-319 | the stage log of a finished song, stage by stage |
| SongPipeline.CompletedReportMovesOn | app/domain/services/pipelines/song.py:106-172 | the report starts the vocals iff wanted and accepted, and otherwise ends the job with exactly one gate call |
| SongPipeline.FailedReportMovesOn | app/domain/services/pipelines/song.py:174-222 | the one fallback is taken iff open and accepted, and cannot be taken again; otherwise one release |
| SongPipeline.FinalizedEnds | app/domain/services/pipelines/song.py:224-280 | finalising always ends the job, nothing left running |
| SongPipeline.DeliversMixElseMusic | app/domain/services/pipelines/song.py:224-360 | a song completes iff there is music; its track carries the mix when mixing succeeds, else the music |
| SongPipeline.AdvanceKeepsOneTrack | app/domain/services/pipelines/song.py:251-279 | any completed report, stale or repeated, keeps at most one track |
| SongPipeline.FailKeepsOneTrack | app/domain/services/pipelines/song.py:174-222 | so does any failed one |
| SongPipeline.MusicAloneCompletes | app/domain/services/pipelines/song.py:135-139 | a song without a voice completes on its music report |
| SongPipeline.AdvanceActs | app/domain/services/pipelines/song.py:106-280 | in any state a completed report submits the vocals, captures, or releases, decided by voice, lyrics, queue and music url |
| SongPipeline.FailActs | app/domain/services/pipelines/song.py:174-222 | in any state a failed report takes the fallback or releases |
| CoverPipeline.StartCover | app/domain/services/pipelines/cover.py:24-52 | the row after the start equals the specification |
| CoverPipeline.AdvanceCover | app/domain/services/pipelines/cover.py:54-88 | the row after a completed report equals the specification |
| CoverPipeline.SubmitVoiceConversion | app/domain/services/pipelines/cover.py:90-123 | the row after the conversion submission, accepted or not |
| CoverPipeline.FailCover | app/domain/services/pipelines/cover.py:125-129 | when only the reported stage runs, the job has ended with exactly one release and nothing running |
| CoverPipeline.FinalizeCover | app/domain/services/pipelines/cover.py:131-185 | the row after finalising |
| CoverPipeline.Mix | app/domain/services/pipelines/cover.py:187-226 | delivered file and mixing stage for every tool outcome |
| CoverPipeline.PickStem | app/domain/services/pipelines/cover.py:244-253 | the usable url under a key |
| CoverPipeline.CollectInstrumentalUrls | app/domain/services/pipelines/cover.py:229-241 | the collected urls equal the specification |
| CoverPipeline.InstrumentalsAreTheOtherStems | app/domain/services/pipelines/cover.py:229-241 | a url is an instrumental iff some usable stem other than the vocal carries it |
| CoverPipeline.StartWaitsOrEnds | app/domain/services/pipelines/cover.py:24-52 | no source ends the job with one release; else it waits with one submission or raised with none |
| CoverPipeline.StartedCover | app/domain/services/pipelines/cover.py:24-52 | status, log, request and gate call of a started cover for each input |
| CoverPipeline.SeparatedCover | app/domain/services/pipelines/cover.py:54-123 | after the separation the stems are on the row and the conversion waits, is skipped or has failed |
| CoverPipeline.VocalStemIff | app/domain/services/pipelines/cover.py:244-253 | the vocal is what the report offers under `vocals`, as text or object, else under `vocal` |
| CoverPipeline.InstrumentalIff | app/domain/services/pipelines/cover.py:229-241 | a url is an instrumental iff some other key offers it, as text or object |
| CoverPipeline.InstrumentalsInOrder | app/domain/services/pipelines/cover.py:229-241 | instrumentals keep the order of the report |
| CoverPipeline.FinishedCoverLog | app/domain/services/pipelines/cover.py:131-226 | the stage log of a finished cover, stage by stage |
| CoverPipeline.CompletedReportMovesOn | app/domain/services/pipelines/cover.py:54-123 | the report starts the conversion iff a vocal stem exists and the queue accepts, and otherwise ends the job |
| CoverPipeline.FailedReportEnds | app/domain/services/pipelines/cover.py:125-129 | one release and a failed status |
| CoverPipeline.DeliversMixElseVocals | app/domain/services/pipelines/cover.py:131-226 | a cover completes iff there are converted vocals; its track carries the mix when mixing succeeds, else the vocals |
| CoverPipeline.HandlersKeepOneTrack | app/domain/services/pipelines/cover.py:161-184 | any handler call keeps at most one track |
| CoverPipeline.AdvanceActs | app/domain/services/pipelines/cover.py:54-185 | in any state a completed report submits the conversion, captures, or releases, decided by stems, queue and converted vocals |
| VideoPipeline.StartVideo | app/domain/services/pipelines/video.py:90-246 | the row after the start of each mode equals the specification |
| VideoPipeline.AdvanceVideo | app/domain/services/pipelines/video.py:283-328 | the row after a completed report equals the specification |
| VideoPipeline.RenderLyrics | app/domain/services/pipelines/video.py:330-392 | lyrics mode fails the job on every ffmpeg fault |
| VideoPipeline.MuxAudioTrack | app/domain/services/pipelines/video.py:394-424 | clip mode degrades to the muted clip; the url is the mux only when the tool delivers |
| VideoPipeline.FinalizeVideo | app/domain/services/pipelines/video.py:426-464 | the row after capture, the asset with the delivered url, and completion |
| VideoPipeline.FailVideo | app/domain/services/pipelines/video.py:477-481 | when only the reported stage runs, the job has ended with exactly one release and nothing running |
| VideoPipeline.StartWaitsOrEnds | app/domain/services/pipelines/video.py:90-246 | invalid input of a mode ends the job with one release; else it waits at the mode's stage or raised |
| VideoPipeline.RefusedVideo | app/domain/services/pipelines/video.py:90-140 | which input is refused, with the blamed stage and one release |
| VideoPipeline.StartedVideo | app/domain/services/pipelines/video.py:90-246 | stage, request and log of a valid start in each mode |
| VideoPipeline.ClipLog | app/domain/services/pipelines/video.py:303-464 | the stage log of a delivered clip or avatar video |
| VideoPipeline.RenderedLog | app/domain/services/pipelines/video.py:330-392 | the stage log of lyrics mode for every fault |
| VideoPipeline.CompletedReportEnds | app/domain/services/pipelines/video.py:283-464 | a video always ends on its one report, completed iff there is media and, in lyrics mode, ffmpeg delivers |
| VideoPipeline.FailedReportEnds | app/domain/services/pipelines/video.py:477-481 | one release and a failed status |
| VideoPipeline.AdvanceActs | app/domain/services/pipelines/video.py:283-464 | in any state a completed report captures iff there is media and, in lyrics mode, ffmpeg delivers, and creates one asset with the delivered file exactly then |
| Pipelines.Launch | app/domain/services/generation_service.py:202-218 | the row after start and, when it raised, release of a reserve and failed status |
| Pipelines.Deliver | app/domain/services/pipelines/runner.py:62-102 | the row after the final report of the outstanding request |
| Pipelines.LaunchWaitsOrFails | app/domain/services/generation_service.py:202-218 | a launched job waits for its first report, or failed with its reserve released once and nothing submitted |
| Pipelines.ReportMovesOn | app/domain/services/pipelines/runner.py:62-102 | a final report of any pipeline submits one more request with fewer left, or ends the job with one matching gate call |
| Pipelines.ReportKeepsSettledOnce | app/domain/services/pipelines/base.py:138-165 | a once-only report keeps the settlement invariant and decreases the measure |
| Pipelines.RunKeepsSettledOnce | app/domain/services/pipelines/base.py:138-165 | so does every run of reports, and enough of them make the job terminal |
| Pipelines.EveryRunSettlesOnce | app/domain/services/pipelines/base.py:138-165 | completed means one capture of the reserve, failed one release, active neither; at most 3, 2 or 1 submissions; that many reports end the job with no stage running |
| Pipelines.SongSings | app/domain/services/pipelines/song.py:27-172 | from start to music report: a new song with voice and lyrics waits for its vocals with these lyrics, any other is finished with its track |
| Pipelines.HandlerActs | app/domain/services/pipelines/runner.py:62-102 | in any state and for any stage a handler does nothing, makes one determined gate call with its status, or submits once |
| Pipelines.CallKeepsSettlementIff | app/domain/services/pipelines/base.py:138-165 | a handler call keeps gate calls and status in agreement iff it is ignored, the job is unfinished, or the call is the one that settled it |
| Pipelines.SettledThroughoutIff | app/domain/services/pipelines/base.py:138-165 | with no assumption on the reports, the agreement holds throughout a run of handler calls iff each call was harmless |
| Pipelines.SettlesTwiceIff | app/domain/services/pipelines/base.py:138-165 | a finished job becomes both captured and released iff the handler makes the other call |
| Pipelines.OnceOnlyRunsMatch | app/domain/services/pipelines/base.py:138-165 | runs that report each request once leave gate calls and status in agreement |
| Pipelines.FinishedSongSurvivesIff | app/domain/services/pipelines/song.py:106-222 | the condition for a finished song, with or without vocals, completed or failed |
| Pipelines.FinishedCoverSurvivesIff | app/domain/services/pipelines/cover.py:54-129 | the condition for a finished cover |
| Pipelines.FinishedVideoSurvivesIff | app/domain/services/pipelines/video.py:283-328 | the condition for a finished video |
| Pipelines.SecondReportSettlesTwice | app/domain/services/pipelines/song.py:116-121 | an input for which it fails: a finished song, then a cancel report |
| Pipelines.CallKeepsOneTrack | app/domain/services/pipelines/song.py:251-279 | one start, handler call, recovery or soft deletion keeps at most one track, completed only with it |
| Pipelines.OneTrackUnderAnyCalls | app/domain/repositories/tracks.py:18-31 | from any row with at most one track, the same under any sequence of starts, repeated, reordered and stale reports, recoveries and deletions |
| Pipelines.NewJobsHaveOneTrack | app/domain/repositories/tracks.py:18-31 | in particular for every new job after its start |
| Generation.ReserveIsCovered | app/domain/services/credits.py:149-197 | the wallet of an unsettled job covers its whole reserve, so the clamp never cuts |
| Generation.FirstSettlement | app/domain/services/credits.py:149-197 | a first capture or release takes the job's reserve from its own user and gives it back only on release |
| Generation.StepKeepsInvIff | app/domain/services/generation_service.py:169-218 | every step of calls, crashes, starts, reports, strays, recovery, merges and other writers keeps replay, backing and settlement iff its guard holds; the guard restricts strays, merges, releases for a former owner and other writers only |
| Generation.StartKeepsInvIff | app/domain/services/generation_service.py:202-218 | a start keeps the invariant iff, when its submission fails on a priced job, the caller still owns the row: the release goes to the row object he inserted |
| Generation.CrashInStartKeepsInvIff | app/domain/services/generation_service.py:202-218 | the same for a start that crashes after its release |
| Generation.RecoverKeepsInvIff | app/domain/services/recovery.py:16-27 | a recovery release keeps the invariant iff the listed owner still owns the row, or nothing is left to release |
| Generation.InvThroughoutIff | app/domain/services/generation_service.py:169-218 | the invariant holds throughout a run iff every step of it was sound |
| Generation.RunKeepsInv | app/domain/services/generation_service.py:169-218 | it holds after every sound run |
| Generation.EveryRunBacksAndSettles | app/domain/services/generation_service.py:169-218 | after every sound run `coins_reserved` equals pending and lost calls plus unsettled jobs; keys are unique; each priced job is captured or released exactly by its status |
| Generation.LookupDeduplicates | app/domain/services/generation_service.py:169-176 | a call is closed by its lookup iff the user has a job under the same non-empty key, and touches neither rows nor coins |
| Generation.LaterCallsAreDeduplicated | app/domain/services/generation_service.py:169-176 | once a row under a key is inserted, every later call of that user under it is closed before reserving, over every run without a merge of him |
| Generation.ReserveTakesPrice | app/domain/services/generation_service.py:178-184 | the caller pays exactly the price, or nobody anything |
| Generation.InsertedRow | app/domain/services/generation_service.py:186-200 | the row carries the input and the reserved units of its call, or the unique index refuses it |
| Generation.ReportMovesOwnReserve | app/domain/services/pipelines/base.py:138-165 | a report moves the job's own reserve of its own user, and no other coin |
| Stranding.LostStaysLost | app/domain/services/generation_service.py:182-200 | a lost reserve stays lost over every run |
| Stranding.LostRaceNeverReturnsReserve | app/domain/services/generation_service.py:182-200 | after a lost client-key race no run returns the units: they stay in the reserve of the user or of whom he is merged into |
| Stranding.LostRaceRun | app/domain/services/generation_service.py:169-200 | two paid calls under one client key, reachable from the empty system: the second insert is lost with 30 coins |
| Generation.MergeKeepsBackedIff | app/domain/services/merge.py:22-55 | a merge keeps every reserved coin backed iff the guest has no coins pending between reserve and insert |
| Generation.MergeKeepsInvIff | app/domain/services/merge.py:22-55 | a merge moves jobs with their reserved coins and keeps the invariant iff nothing is pending, or it raises on a shared client key |
| Stranding.MergeWhilePendingLosesCoins | app/domain/services/generation_service.py:180-218 | otherwise a failed start releases to nobody: the coins stay in the target reserve without an owner, and the ledger no longer explains the guest balance |
| Stranding.MergeWhilePendingRun | app/auth/sessions.py:152-161 | a six-step run from the empty system that ends there |
| Stranding.MergeBeforeFailedStartLosesCoins | app/domain/services/generation_service.py:186-218 | a merge between insert and a failing start is sound itself, but the release then credits nobody and the coins stay in the target reserve |
| Stranding.MergeBeforeFailedStartRun | app/domain/services/generation_service.py:186-218 | a six-step run from the empty system that ends there |
| Generation.StrayKeepsInvIff | app/domain/services/pipelines/base.py:138-165 | a repeated or stale report keeps the system invariant iff it is ignored or settles a finished job the same way again, where the ledger key stops it |
| Generation.ReleaseAfterCaptureRefunds | app/domain/services/credits.py:176-197 | the damage of the other kind: both keys on the ledger, the price paid back, the reserve cut at zero |
| Recovery.RecoverPaysOwed | app/domain/services/recovery.py:24-37 | one recovery transaction pays out of what is owed, whether or not it crashes before the status |
| Recovery.RecoveryRunConserves | app/domain/services/recovery.py:13-37 | coins plus what is owed stay constant over any recovery run |
| Recovery.RecoveryRunRecovers | app/domain/services/recovery.py:13-37 | recovery touches orphans only, and they stay orphans or have failed |
| Recovery.RecoveryPaysEachReserveOnce | app/domain/services/recovery.py:13-37 | with crashes and reruns, once no orphan is left each got its reserve back exactly once and failed |
| Recovery.PassIsARecoveryRun | app/domain/services/recovery.py:13-37 | one pass over the rows is a sound run of recovery steps |
| Recovery.FullPassLeavesNoOrphans | app/domain/services/recovery.py:13-37 | a full pass ends recovery, and a second pass does nothing |
| Recovery.FullPassPaysEachReserve | app/domain/services/recovery.py:13-37 | an undisturbed pass pays every user what it owes and owes nothing afterwards |
| Recovery.PassFailsStuckRows | app/domain/repositories/jobs.py:92-98 | a pass fails the queued and running rows without a provider request, and changes no other |
| GenerationTables.GenerationDatabase.LookUp | app/domain/services/generation_service.py:169-176 | answers iff the user has a job under the same non-empty client key, with such a job |
| GenerationTables.GenerationDatabase.ReserveFor | app/domain/services/generation_service.py:178-184 | the reserve step of the composite system |
| GenerationTables.GenerationDatabase.InsertRow | app/domain/services/generation_service.py:186-200 | the insert step, refused by the unique index |
| GenerationTables.GenerationDatabase.StartPipeline | app/domain/services/generation_service.py:202-218 | rows and wallets after the start equal the composite step, the release of a failed submission going to the caller |
| GenerationTables.GenerationDatabase.CreateJob | app/domain/services/generation_service.py:135-218 | deduplicated iff the key is known, without touching rows or coins; 402 iff the key is not known and the price is not covered; a job is added iff accepted or its submission failed |
| GenerationTables.GenerationDatabase.HandleReport | app/domain/services/pipelines/runner.py:62-102 | job row and wallets after a report equal the composite step |
| GenerationTables.GenerationDatabase.HandleStray | app/domain/services/pipelines/runner.py:62-102 | job row and wallets after a stray equal the composite step |
| GenerationTables.GenerationDatabase.MergeAccounts | app/domain/services/merge.py:22-55 | wallets, ledger and jobs after a merge equal the composite step; refused iff both hold a client key |
| GenerationTables.GenerationDatabase.RecoverOrphanJobs | app/domain/services/recovery.py:13-37 | rows and wallets after the loop equal one pass |
| Billing.GrantedExactlyOnce | app/domain/services/billing_service.py:93-277 | over any run by any users, `purchase:{k}` is in the ledger iff a row with key k and positive coins exists, and StoreKit coins equal the sum over rows |
| Billing.RunKeepsMatch | app/domain/services/billing_service.py:93-277 | the agreement is kept from any state that has it |
| Billing.AppliedKeepsMatch | app/domain/services/billing_service.py:93-190 | all four outcomes of one transaction keep it |
| Billing.MergeKeepsMatch | app/domain/services/merge.py:22-55 | so does a merge that moves rows and ledger |
| Billing.RecordedTransactionMovesNoCoins | app/domain/services/billing_service.py:93-162 | repeats, rejections and transfers of a recorded transaction move no coins and add no row |
| Billing.NewTransactionIsRecorded | app/domain/services/billing_service.py:93-189 | an unrecorded transaction adds one row with its data and its claimant, and moves a chain only for a subscription outside Xcode |
| Billing.NewTransactionPays | app/domain/services/billing_service.py:237-277 | it pays its user the product coins once, with one row that names it, and nobody else |
| Billing.UnrecordedKeyIsFree | app/domain/services/billing_service.py:86-91 | in every reachable state the ledger key of an unrecorded transaction is free |
| Billing.RecordedTransaction | app/domain/services/billing_service.py:118-162 | own repeat, transferred subscription or rejection, with rows and answer of each |
| Billing.AccessAfter | app/domain/services/billing_service.py:118-235 | who is active on what after an accepted transaction |
| Billing.TransferEndsOthers | app/domain/services/billing_service.py:192-219 | a transfer ends every other active subscription on the chain |
| Billing.IgnoredIff | app/domain/services/billing_service.py:39-45 | ignored iff an id is missing or the catalogue does not know the product, without effect |
| Billing.LowerIgnoresCase | app/domain/repositories/products.py:18-37 | ids that differ in case find the same product |
| Billing.NoticeDoes | app/domain/services/billing_service.py:47-61 | a renewal is applied like any transaction; the other notices end the subscription with their status and nothing else |
| Billing.RenewalPays | app/domain/services/billing_service.py:47-61 | a new renewal pays its coins and is recorded |
| Billing.RunKeepsRecorded | app/domain/repositories/products.py:48-107 | a purchase row never loses its key, whoever owns it |
| Billing.Find | app/domain/repositories/products.py:83-86 | the first row with the key, or none |
| Billing.Reassigned | app/domain/repositories/products.py:88-107 | exactly the rows of chain and environment change owner |
| Ownership.AppliedKeepsInv | app/domain/services/billing_service.py:118-219 | every outcome keeps one owner per chain and active users among owners, the own repeat without a transfer included |
| Ownership.RunKeepsInv | app/domain/services/billing_service.py:118-219 | so does every run of verify, restore and notifications |
| Ownership.OneActiveOwnerPerChain | app/domain/services/billing_service.py:118-219 | all subscription rows of a chain have one owner, an active user is that owner, at most one user is active |
| Ownership.ClaimMovesRowIffOriginalKnown | app/domain/services/billing_service.py:192-219 | a foreign claim moves the row iff the transaction names its original |
| Ownership.OldOwnerStaysActiveIff | app/domain/services/billing_service.py:192-219 | after a foreign claim the old owner stays active iff the transaction does not name its original |
| Ownership.TwoActiveIffOriginalUnknown | app/domain/services/billing_service.py:192-219 | for any catalogue and subscription transaction presented by two users, both are active iff it does not name its original |
| BillingTables.BillingDatabase.RecordPurchase | app/domain/repositories/products.py:48-81 | reports a new row iff the key was free |
| BillingTables.BillingDatabase.ReassignOriginalTransaction | app/domain/repositories/products.py:88-107 | the rows after the bulk update |
| BillingTables.BillingDatabase.FindUserByOriginalTransaction | app/domain/repositories/products.py:109-125 | an owner of a matching row or subscription, none iff there is none |
| BillingTables.BillingDatabase.ExpireForeignSubscriptions | app/domain/repositories/credits.py:130-147 | exactly the other users' active subscriptions on the chain expire |
| BillingTables.BillingDatabase.TransferSubscriptionChain | app/domain/services/billing_service.py:192-219 | rows and subscriptions after the transfer |
| BillingTables.BillingDatabase.ApplyTransaction | app/domain/services/billing_service.py:93-190 | all three tables and the answer equal the specification |
| BillingTables.BillingDatabase.HandleRevocation | app/domain/services/billing_service.py:279-289 | the subscription ends, coins stay |
| BillingTables.BillingDatabase.ApplyNotification | app/domain/services/billing_service.py:47-61 | the notification acts for a user the lookup may answer, or for nobody |
| Adapty.AdaptyDatabase.Handle | app/domain/services/adapty_webhook_service.py:207-386 | events seen, subscriptions and wallets equal the specification |
| Adapty.RunHoldsItsGrants | app/domain/services/adapty_webhook_service.py:207-386 | after any deliveries the books show the grants of the set of events, each once |
| Adapty.OrderAndDuplicatesDoNotMatter | app/domain/services/adapty_webhook_service.py:207-386 | two sequences with the same events end with the same wallets and ledger rows, balances grown by the sum over periods |
| Adapty.OneGrantPerPeriod | app/domain/services/adapty_webhook_service.py:356-386 | two grants of one paid period are the same grant |
| Adapty.EarningIsNewOrBooked | app/domain/services/adapty_webhook_service.py:356-386 | in any reached state an event earns iff it earned at the start and its grant is not booked yet |
| Adapty.OutcomeIff | app/domain/services/adapty_webhook_service.py:129-278 | by event type: when an event is ignored, a duplicate, or applied |
| Adapty.PayingEvent | app/domain/services/adapty_webhook_service.py:246-386 | a new paying event activates the subscription with its fields and pays once per transaction, else original transaction, else event id |
| Adapty.EndingEvent | app/domain/services/adapty_webhook_service.py:323-354 | a new ending event sets the status by its type, keeps the rest and takes no coins |
| Adapty.InformingEvent | app/domain/providers/billing/adapty.py:203-222 | every other known event changes neither access nor coins |
| Adapty.RenewalIsPaidAgain | app/domain/services/adapty_webhook_service.py:256-264 | two paying events are paid twice iff their transactions differ, whatever their originals |
| Adapty.LastFirstDeliveryDecides | app/domain/services/adapty_webhook_service.py:207-354 | the status after any sequence is the one set by the last first-delivered deciding event of the user |
| Adapty.OrdersAgreeIff | app/domain/services/adapty_webhook_service.py:301-354 | two new deciding events of a user leave the same status in both orders iff they set the same status |
| Adapty.AccessDependsOnOrder | app/domain/services/adapty_webhook_service.py:301-354 | a pair for which the orders differ |
| LyricsSaga.LyricsDatabase.Pay | app/domain/services/lyrics_service.py:38-46 | the charge transaction and what the attempt may do next |
| LyricsSaga.LyricsDatabase.Complete | app/domain/services/lyrics_service.py:47-72 | coins and drafts after success or failure of what follows |
| LyricsSaga.LyricsDatabase.Generate | app/domain/services/lyrics_service.py:27-72 | an undisturbed attempt equals the two steps |
| LyricsSaga.ChargeStep | app/domain/services/credits.py:71-113 | a refused charge changes nothing and leaves no key; a repeated one passes without a debit and answers the current price |
| LyricsSaga.StepKeepsInv | app/domain/services/lyrics_service.py:27-72 | every step keeps keys, attempts and coins in agreement |
| LyricsSaga.SagaSettles | app/domain/services/lyrics_service.py:27-112 | any number of overlapping attempts under changing prices move the coins by the price the first passing attempt saw and by what the first failing one gets back; no refund without a charge |
| LyricsSaga.RefundsWithinChargesIff | app/domain/services/credits.py:97-147 | refunds stay within charges iff the refunded attempt saw at most the charged price, and cancel it iff it saw the same |
| LyricsSaga.RetryAtHigherPriceGains | app/domain/services/credits.py:97-147 | charged p, retried at a higher q that fails: the user gains q - p |
| LyricsSaga.SagaChargesAtMostOnce | app/domain/services/lyrics_service.py:27-112 | at one price the attempts cost it iff one passed the charge and none has failed after it, else nothing |
| LyricsSaga.OneDraftPerServedAttempt | app/domain/services/lyrics_service.py:47-62 | generation stores one draft per served attempt, assistance none |
| LyricsSaga.ServedTextIsStored | app/domain/services/lyrics_service.py:47-62 | the stored draft is the model text for the paying user; assistance and failure store nothing |
| LyricsSaga.RetryIsFree | app/domain/services/lyrics_service.py:27-72 | once charged, refunded or not, a retry under the id is served without a charge |
| LyricsSaga.RefundReachesPayerIff | app/domain/services/credits.py:115-147 | a first refund keeps the ledger an exact account, and pays, iff its user still has a wallet |
| LyricsSaga.MergedPayerLosesRefund | app/auth/sessions.py:152-161 | a merge of the payer before the failure leaves the refund without a receiver |
| RateLimit.TokenBucket.Consume | app/middleware/rate_limit.py:26-35 | new tokens, verdict and delay equal the specification |
| RateLimit.OneTokenPerRequest | app/middleware/rate_limit.py:26-35 | let through iff a whole token is there after the refill up to capacity; a refusal takes nothing |
| RateLimit.BurstIsAdmitted | app/middleware/rate_limit.py:26-35 | a bucket holding n tokens lets n simultaneous requests through |
| RateLimit.NoRefillAnswersAMinute | app/middleware/rate_limit.py:33-34 | without refill a refusal answers sixty seconds and is final |
| RateLimit.BudgetHolds | app/middleware/rate_limit.py:26-35 | admitted requests plus tokens left never exceed the allowance since the window began |
| RateLimit.WindowBound | app/middleware/rate_limit.py:26-56 | in any window of length T at most capacity plus refill times T requests pass |
| RateLimit.RetryAfterIsExact | app/middleware/rate_limit.py:26-35 | after a refusal a next request is admitted iff at least the answered delay has passed |
| Guests.AuthDatabase.AddIdentityIfAbsent | app/domain/repositories/users.py:63-83 | claims iff free, never overwrites |
| Guests.AuthDatabase.CreateGuestUser | app/auth/sessions.py:110-131 | the claim, and the winner of a lost one if still a guest |
| Guests.AuthDatabase.CreateGuest | app/auth/sessions.py:53-108 | the guest who owns the device, else a new guest under the free device or a synthetic subject; without a device always a new one; a session either way |
| Guests.AuthDatabase.ReassignSessions | app/auth/sessions.py:194-207 | every session of the guest moves |
| Guests.AuthDatabase.SignInWithApple | app/auth/sessions.py:133-192 | which account is signed in, which are merged, that these differ and that the guest keeps no session |
| Guests.StepKeepsInv | app/auth/sessions.py:84-131 | every step keeps in-flight users private and identities owned by known users |
| Guests.ReturnedUserIsGuest | app/auth/sessions.py:84-131 | the user a call ends with is a guest: a promoted account is never returned |
| Guests.IdentityKeepsOwner | app/domain/repositories/users.py:63-83 | no step changes the owner of an identity |
| Guests.RunKeepsInvAndOwners | app/auth/sessions.py:84-131 | both over every run |
| Guests.RacingCallsAgree | app/auth/sessions.py:84-131 | any number of racing calls of one device get the same user, the identity's owner, as long as that owner is not promoted; other promotions may happen |
| Guests.PromotedDeviceGetsNewGuests | app/auth/sessions.py:84-131 | over any run, each call of a promoted device ends with a new account of its own, and the device stays with the promoted one |
| Guests.CallersWithoutDeviceAreStrangers | app/auth/sessions.py:84-108 | over any run, callers without a device get new accounts that differ pairwise |
| Guests.PromotionEndsGuest | app/auth/sessions.py:133-192 | promotion binds the Apple id, ends being a guest, and concerns nobody else |
| Subtitles.SplitLyricLines | app/domain/services/video_mux.py:285-299 | the trimmed shown lines, first 200 |
| Subtitles.LyricLinesAreClean | app/domain/services/video_mux.py:285-299 | at most 200 lines, none blank, none a section mark, none with a line break |
| Subtitles.OneLineShown | app/domain/services/video_mux.py:285-299 | a line is kept stripped unless it is blank or a section mark |
| Subtitles.ShownInOrder | app/domain/services/video_mux.py:285-299 | lines are kept in order, each by itself |
| Subtitles.FirstTwoHundred | app/domain/services/video_mux.py:285-299 | of more than 200 shown lines the first 200 |
| Subtitles.StripTakesEnds | app/domain/services/video_mux.py:285-299 | stripping takes spaces at the two ends and nothing else |
| Subtitles.LastLineIsFound | app/domain/services/video_mux.py:285-299 | lines written one below the other are found again, a last one without line end too |
| Subtitles.LineEndSeparates | app/domain/services/video_mux.py:285-299 | every line end of `splitlines` separates two lines |
| Subtitles.WindowsLinesShown | app/domain/services/video_mux.py:285-299 | a Windows line end shows no empty line |
| Subtitles.CuesTileIff | app/domain/services/video_mux.py:302-312 | non-empty cues cover [0, duration] without gap or overlap iff twice the duration exceeds the number of lines less one |
| Subtitles.MillisMonotone | app/domain/services/video_mux.py:318-325 | later times never get an earlier stamp, rounding half to even |
| Subtitles.StampIsNearest | app/domain/services/video_mux.py:318-325 | a stamp is the nearest millisecond, ties to the even one |
| Subtitles.ClockOf | app/domain/services/video_mux.py:318-325 | stamp fields are in range and add up |
| Subtitles.StampRoundTrip | app/domain/services/video_mux.py:318-325 | the printed stamp reads back to the millisecond |
| Subtitles.StampForm | app/domain/services/video_mux.py:318-325 | below a hundred hours a stamp has the form hh:mm:ss,mmm |
| Subtitles.NoBracesWritten | app/domain/services/video_mux.py:328-330 | no brace reaches the file and no other character changes |
| Subtitles.WriteSrt | app/domain/services/video_mux.py:302-315 | the written text equals the specification |
| Subtitles.SrtRoundTrip | app/domain/services/video_mux.py:302-330 | parsing the text recovers numbers, both stamps and escaped lines |
| Subtitles.LyricsReadBack | app/domain/services/video_mux.py:285-330 | for any lyrics the file reads back to the shown lines, and the printed stamps tile when the cues do |
| Migration.MigrationTables.UpdateLedgerKeys | migrations/versions/0016_purchase_dedup_key.py:66-71 | one `UPDATE` checked row by row against the unique index: it succeeds iff no collision, and then rewrites every selected row |
| Migration.MigrationTables.Upgrade | migrations/versions/0016_purchase_dedup_key.py:30-71 | both tables after the upgrade, or unchanged when it raises |
| Migration.MigrationTables.Downgrade | migrations/versions/0016_purchase_dedup_key.py:74-94 | both tables after the downgrade, or unchanged when it raises |
| Migration.ScopedDistinctIff | migrations/versions/0016_purchase_dedup_key.py:47-61 | the new unique constraint holds iff transaction ids are distinct |
| Migration.DuplicatesRaise | migrations/versions/0016_purchase_dedup_key.py:55-94 | with two purchases of one transaction both directions raise |
| Migration.RewriteKeepsUnique | migrations/versions/0016_purchase_dedup_key.py:66-71 | ledger keys stay unique |
| Migration.TransactionRowRewritten | migrations/versions/0016_purchase_dedup_key.py:66-81 | a row of a transaction is rewritten iff its key is the prefix and its own id |
| Migration.OtherRowsUntouched | migrations/versions/0016_purchase_dedup_key.py:66-81 | no other row is rewritten, whatever its key looks like |
| Migration.OtherFlowsUntouched | migrations/versions/0016_purchase_dedup_key.py:63-71 | keys of all other flows are neither lost nor made, in both directions |
| Migration.RewriteUndoneIff | migrations/versions/0016_purchase_dedup_key.py:66-81 | rewriting back restores every key iff none was scoped before |
| Migration.RoundTripIff | migrations/versions/0016_purchase_dedup_key.py:30-94 | downgrade after upgrade succeeds and restores the tables iff transaction ids are distinct, no row is scoped and no needed key is taken |
| Migration.UpgradeSucceedsIff | migrations/versions/0016_purchase_dedup_key.py:66-71 | from an old-format database the upgrade raises only on a scoped twin |
| Migration.OldFormatRoundTripIff | migrations/versions/0016_purchase_dedup_key.py:30-94 | from an old-format database upgrade and downgrade restore everything iff no two granted transaction ids differ by the scope, in either order |
| Migration.UpgradeMigrates | migrations/versions/0016_purchase_dedup_key.py:30-71 | the statements write exactly the scoped keys in rows and ledger |
| Migration.MigratedMatches | app/domain/services/billing_service.py:86-91 | the migrated rows and ledger agree as the StoreKit grant property needs |
| Migration.OldTransactionsNeverPayAgain | migrations/versions/0016_purchase_dedup_key.py:14-16 | after migration and any further run, an old Production transaction moves no coins for any user |

## Left out

- HTTP routes, schemas, OpenAPI, logging, analytics, push notifications and moderation: plumbing.
- Cryptography and token handling: decoded transactions and authenticated events are inputs.
- The fal client, ffmpeg, downloads, uploads and language model calls: arbitrary answers in `Jobs.Env`.
- Isolation below one transaction, row locks, and two handlers of one job at the same time.
- A crash or a merge inside a report handler: `Generation` lets crashes fall inside `create_job`, a start and recovery only, and recovery does not run beside a start.
- Errors of the database inside release or capture, which the handlers log and swallow.
- A job row left in status `created` by a crash before its start: recovery does not select it, so it keeps its reserve.
- Voice-clone jobs, which finish without a capture.
- VideoPipeline.FinalizeVideo: asset duration, title, style and quality flag are not modelled; a redelivered report creates another asset.
- CoinTables.CoinDatabase.GrantCrmSubscription: the coins only; the subscription row it extends and the user and product checks are not modelled.
- CoinTables.CoinDatabase.GrantAdminSubscription: the coins only; the subscription row is not modelled.
- Adapty.AdaptyDatabase.Handle: the `provider` column of the subscription row is not modelled, being the same for every event.
- Payload fields that do not steer a pipeline (prompts, styles, durations, voice kind), variant stems, track titles and metadata.
- Ledger columns `source`, `reason`, `category` and timestamps, and the 160-character limit of the key column.
- User existence checks (404) of the CRM and admin services.
- StoreKit subscription expiry dates; Adapty's JSON field parsers and user resolution: an event carries its parsed fields and its user.
- StoreKit purchase times are integers already; product ids are folded to lower case for ASCII letters only.
- Guest merges and Adapty events inside the single-owner property: neither moves nor expires another user's subscription.
- Floating point: token counts and cue times are exact reals.
- The rate limiter's map of buckets per client and the rounding of the Retry-After header.
- The price list: a reserve or charge takes the price it reads as a parameter.
- Ledger keys outside the modelled families (manual ones) appear in `Migration` as text only; `Wallets` keeps keys structured, which `Keys.KeyTextInjective` justifies.
- Pipelines log their gate calls on the row and `GenerationDatabase` replays them on the wallets after the handler, in the same order.
- Lyrics drafts carry user and content only; merges of the paying user are not steps of the saga's runs, only of the two lemmas about its refund.
- CRM listings, statistics, catalogue seeds and price hints: display only.
