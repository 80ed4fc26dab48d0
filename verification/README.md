# HAMS in Dafny

A model of the parts of the hospital asset management system whose correctness depends on many
requests running at once, and proofs of what they keep. `dafny verify dfyconfig.toml` checks all of it.

| files | subject |
|---|---|
| `Image*.dfy` | managed images: upload intents, verification, claims, expiry, the cleanup queue and its leased workers |
| `Loan*.dfy` | asset loans, due-date extensions, asset status edits, disposals and transfers |
| `ResendPolicy.dfy`, `ResendLimiter.dfy` | the limiter of verification mails |
| `ObjectLocks.dfy`, `NormalizerSlots.dfy` | the per-object lock and the normaliser's slot queue |
| `LocalVerification.dfy` | the retryable verification of a locally stored image |
| `SessionLifetime.dfy` | session expiry under concurrent checks |
| `TwoFactor.dfy`, `TwoFactorService.dfy` | the two-factor lockout and recovery codes |
| `ClaimFingerprint.dfy` | the canonical form behind the claim fingerprint |
| `Presentation*.dfy` | the demonstration fixture, its rules, its writer and the database check |

## How the models are built

Each subsystem has a state (`World`), total functions for its durable transactions, and a `Step` for every
transaction, every read made outside one, every external call and every tick of the clock. `Run` applies
any sequence of steps, so a statement about every run is a statement about every interleaving of those
steps, by any number of requests and workers. A transaction that is refused, or whose compare-and-swap
misses, leaves the state as it was. What a process remembers between its steps (a lease job, a reserved
attempt, a row it read) is kept in sets the steps draw on or is an argument of the step, so a stale worker
may act at any later time.

The transactions run at PostgreSQL's default isolation, where other commits are seen between two
statements. One whose every write is guarded by what it relies on, in that write or by a row it has locked
before, takes effect at its last guard and is one step. Three are not of that kind and are split: a move to
LOST, whose cascade does not lock the asset it then writes; a due-date extension; and the withdrawal of
one, both of which write without looking again. Between the two halves the transaction is in
`World.pending`, its writes unseen; a step that would write a row it has locked waits, that is, changes
nothing (`Waits`). A step whose transaction is abandoned leaves nothing (`GiveUp`).

Contracts are written in the stored columns and in plain numbers. `ImageTerms.dfy`, `LoanTerms.dfy` and
`PresentationRules.dfy` hold the conditions they share; no service and no transaction computes with those.

The services themselves are methods over fields, with their early returns, guards and rollbacks, proved
equal to those functions. The longer operations (`CompleteUpload`, `CreateWithImage`, `UpdateWithImage`,
`ExecuteSweep`, `UpdateStatus`, `RequestDisposal`, `CreateExtension`, `CancelExtension`, `EnforceSession`)
take the steps other processes make in their gaps as arguments.

Digests are injective and UUIDs and lease tokens are fresh. Provider calls, the normaliser, file
operations and token verification succeed or fail as their arguments say. Instants are milliseconds
from one clock that does not run backwards.

## What the proofs found

- `SecondCreateOutcome`, `SecondUpdateOutcome`: of two identical saves the loser does not always answer with
  the winner's asset. If its retry look-up came before the winner's commit and its early check after, it is
  refused with a conflict; in every other order it answers with the winner, provided its early check passed.
  `SecondSaveIsRefused` is such a run from an empty database.
- `StepKeepsExactly`: the status guard looks only at BORROWED and RESERVED, so an edit back to NORMAL while
  a loan is PENDING_RETURN or IN_PICKUP, and a disposal proposal for a reserved asset (or one borrowed since
  it was read), break the loan invariant; so does a move to LOST whose asset was released and requested
  again around its cascade. Nothing else does, registration as lent apart. `EditDuringReturnLendsTwice`,
  `ReservationsDoGetStranded` and `LostStrandsALaterLoan` show the consequences, and `StrandedLoansStay`
  that no later step undoes the last two.
- `ReturnRevivesDisposedAsset`: completing a return writes NORMAL and AVAILABLE over whatever the asset has
  become, a disposal included.
- `StepKeepsHistory`: the history of extensions is kept exactly by commits that are not stale.
  `DeskExtensionsCross` and `WithdrawalHidesAGrant` are stale ones: two grants of one round counted once, and
  a granted request filed as withdrawn. Served one transaction at a time it always holds
  (`SerialRunsTelescope`).
- `AcceptedFixturesPassExactly`: validation does not ask that a completed repair has a track, that prices are
  not negative, or that same-instant transfers agree; apart from these an accepted fixture always passes,
  and each of the three has a witness.

## Model

| member | source | states |
|---|---|---|
| ImagePolicy.PublicIdIsInjective | backend/src/images/image-upload-policy.ts:61-67 | Two uploads, of whatever purposes, never share a provider public id. |
| ImagePolicy.LoadedConfigIsValid | backend/src/images/image-upload-policy.ts:116-229 | Every configuration the services accept has windows of at most an hour, a settlement horizon of at least a minute, an attempt limit of 1 to 100 and a request budget that covers one object. |
| ImagePolicy.AcceptedEnvironments | backend/src/images/image-upload-policy.ts:116-229 | Exactly which environments are accepted, each variable with its range and default, and the configuration they give. |
| ImagePolicy.RetryDelay | backend/src/images/image-cleanup.service.ts:436-444 | A retry is never scheduled sooner than 0.8 s nor later than the configured longest back-off. |
| ImagePolicy.BackoffDoubles | backend/src/images/image-cleanup.service.ts:436-444 | A first retry waits a second at mid-jitter, each later one twice as long up to the longest back-off or twenty doublings, and jitter scales the wait from 0.8 to 1.2. |
| ImageInvariant.StepKeeps | backend/src/images/image-cleanup.service.ts:124-470 | Any one transaction, provider call or clock tick of any service keeps the whole image invariant (rows, queue, attachments, objects, tickets, workers, logs). |
| ImageInvariant.RunKeeps | backend/src/images/image-cleanup.service.ts:124-470 | So does any sequence of them, in any interleaving. |
| ImageInvariant.QueuedObjectsAreUnreferenced | backend/src/images/image-cleanup.service.ts:285-339 | Whenever an object is queued, no asset shows it and the upload it belongs to is over. |
| ImageSafety.NoShownImageIsDeleted | backend/src/images/image-cleanup.service.ts:256-408 | Over every run: a worker that calls the provider, its lease expired or not, deletes only for an expired, rejected or superseded upload; no asset shows that object then, nor at any later time. |
| ImageSafety.ShownImagesAreHeld | backend/src/images/image-cleanup.service.ts:372-408 | In every reachable state the provider still holds every image an asset shows. |
| ImageSafety.JobsAreForFinishedUploads | backend/src/images/image-cleanup.service.ts:316-368 | Every lease ever granted is for an upload that is over, with the clock at least a minute past its signature and intent deadlines. |
| ImageSafety.DeletionsStartAfterSettlement | backend/src/images/image-upload.service.ts:164-175 | Every deletion ever started is at least 60 s after both deadlines of its upload, and after every instant at which bytes for it could begin to be accepted. |
| ImageSafety.AttachmentsAreOneToOne | backend/src/images/image-attachment.service.ts:197-289 | Assets with a managed image and CLAIMED uploads correspond one to one, the claim naming the asset, and no other asset shows the same image. |
| ImageSafety.AtMostOneAssetPerUpload | backend/src/asset/asset.service.ts:189-239 | Over a whole run one upload becomes at most one new asset. |
| ImageSafety.LaterCreatesReplayTheWinner | backend/src/images/image-attachment.service.ts:213-230 | After a create has won, every later create for that upload by the same user and token changes nothing and answers with the winner when its fingerprint is the same, a conflict when it differs, at the retry look-up too. |
| ImageSafety.ClaimsArePermanent | backend/src/images/image-attachment.service.ts:236-260 | A claim, once written, names the same asset, time and fingerprint for good. |
| ImageGuarantees.QueueIsExact | backend/src/images/image-cleanup.persistence.ts:53-98 | An identity is queued exactly when some upload with that identity is EXPIRED, REJECTED or SUPERSEDED. |
| ImageGuarantees.LeasesAreNeverDeferred | backend/src/images/image-cleanup.service.ts:292-339 | The RETAINED and UPLOAD_NOT_TERMINAL branches are unreachable. |
| ImageGuarantees.LeasesAreGrantedExactlyWhenDue | backend/src/images/image-cleanup.service.ts:256-369 | In every reachable state a lease is granted exactly on a row that is not completed and whose deadline has come: no queued deletion is ever stuck. |
| ImageGuarantees.FailedDeletionsComeBack | backend/src/images/image-cleanup.service.ts:430-470 | Over every run, whatever workers took, lost or failed: a queued deletion not yet confirmed can be leased again once its time has come and the longer of a lease and the longest back-off has passed. |
| ImageGuarantees.CompletionIsFinal | backend/src/images/image-cleanup.service.ts:410-428 | A COMPLETED row records a deletion the provider confirmed, and no later step changes it. |
| ImageGuarantees.LostLeaseStaysLost | backend/src/images/image-cleanup.service.ts:341-353 | A worker that no longer holds its lease never holds it again. |
| ImageGuarantees.ReplacedWorkersAreInert | backend/src/images/image-cleanup.service.ts:410-470 | A worker whose token was replaced can write neither outcome, then or later. |
| ImageGuarantees.VerificationsAreBounded | backend/src/images/image-upload.service.ts:395-427 | However many completions overlap, the provider is asked at most the attempt limit of times per upload, each ask paid for by one increment of the counter. |
| ImageGuarantees.UploadsMoveForward | backend/src/images/image-upload.service.ts:341-514 | Statuses only move forward in their order; what was verified or claimed is never rewritten. |
| ImageGuarantees.CompletionIsNotRepeated | backend/src/images/image-upload.service.ts:472-510 | Once a completion commits, no further attempt can be reserved and no other evidence recorded, whatever runs in between. |
| ImageGuarantees.ClaimedImagesAreTimelyAndSmall | backend/src/images/image-attachment.service.ts:386-424 | Every upload ever claimed was claimed before provider creation plus the attachment window, and is a one-page JPEG within its purpose's edge limit. |
| ImageGuarantees.ReplacementsSucceedExactlyWhenDue | backend/src/asset/asset.service.ts:702-775 | In every reachable state replacing an asset's image succeeds exactly when the caller's own upload is ready for that asset and the row did not move: the image already there never stands in the way. |
| ImageServices.EnqueueImageCleanup | backend/src/images/image-cleanup.persistence.ts:53-98 | A new identity is queued with these columns, a retained row starts again with them, and any other row stays as it was. |
| ImageServices.ExpireUpload | backend/src/images/image-cleanup.service.ts:210-232 | Expires exactly an AUTHORIZED upload whose intent deadline has passed or a VERIFIED_PENDING one whose attachment deadline has; only its status changes, and its object is queued for the matching reason from the later of settlement and its deadline. |
| ImageServices.MarkExpired | backend/src/images/image-upload.service.ts:825-860 | The same at the current instant, and otherwise nothing changes. |
| ImageServices.MarkRejected | backend/src/images/image-upload.service.ts:862-889 | Exactly an authorised upload becomes REJECTED, no other row changes, and its object, queued by nobody before, is then due at its settlement time. |
| ImageServices.Intend | backend/src/images/image-upload.service.ts:126-246 | Accepted exactly for a new id and an existing target; the row then holds the requester, the identity under the configured account, the token hash or the target, and the three deadlines counted from now. |
| ImageServices.ReceiveLocalUpload | backend/src/images/image-upload.service.ts:291-339 | Begins exactly for the owner of an authorised upload inside both windows under the configured account; every refusal, and the one that expires the upload. |
| ImageServices.BuyAttempt | backend/src/images/image-upload.service.ts:395-407 | One attempt is bought exactly while the upload is authorised, its intent open and an attempt left; the counter and the ticket show it. |
| ImageServices.VerifyUploadedObject | backend/src/images/image-upload.service.ts:429-440 | A reserved ticket is spent on one provider call, which can only describe an object the provider holds. |
| ImageServices.RecordVerified | backend/src/images/image-upload.service.ts:472-487 | The evidence columns are written exactly while the row is still authorised, with the window counted from the object's creation. |
| ImageServices.CommittedTargetForRetry | backend/src/images/image-attachment.service.ts:139-174 | Names a target exactly when the upload is the caller's, meant for this save and claimed by the same fields (for an update, for the same asset), which is when a claim would be a replay of it; finds nothing exactly when it is not the caller's or not yet claimed; and is otherwise a conflict. |
| ImageServices.PreflightClaim | backend/src/images/image-attachment.service.ts:122-137 | Passes exactly an upload of the caller's, meant for this save, of the account and rules in force, verified as a small enough JPEG and inside its window; and which error otherwise. |
| ImageServices.MarkSuperseded | backend/src/images/image-attachment.service.ts:495-536 | Finds exactly the claimed upload behind a locator shown by the target, marks it SUPERSEDED and queues it from the later of settlement and now. |
| ImageServices.ClaimInTransaction | backend/src/images/image-attachment.service.ts:197-289 | Which of its five answers a claim gives, in terms of the stored columns, and what it writes when it goes through. |
| ImageWorkers.CreateAsset | backend/src/asset/asset.service.ts:189-239 | Saved exactly for a new asset and an attachable upload; replayed exactly for the save that claimed it; every other answer, and the rows written or left alone. |
| ImageWorkers.UpdateAssetImage | backend/src/asset/asset.service.ts:702-767 | Saved exactly for an attachable upload, a whole previous record and an unmoved row; replayed exactly for the same fields on the same asset, refused for others; the rows written or left alone. |
| ImageWorkers.Lease | backend/src/images/image-cleanup.service.ts:256-369 | A row is taken exactly when it is pending, retryable or expired in its lease and due, with a new token; the lease runs the configured time; each outcome with its row. |
| ImageWorkers.DeleteAllocatedObject | backend/src/images/image-cleanup.service.ts:372-408 | The provider is called exactly on a copy that agrees with its upload and the configured account; what is logged and what is gone after each way it can end. |
| ImageWorkers.Complete | backend/src/images/image-cleanup.service.ts:410-428 | The row is completed, counted and dated exactly when the caller still holds its lease, otherwise nothing changes; the lease is gone either way and no other row is touched. |
| ImageWorkers.Reschedule | backend/src/images/image-cleanup.service.ts:430-470 | A row whose lease the caller still holds is due again after at least 0.8 s and within the longest back-off, otherwise nothing changes; the lease is gone either way and no other row is touched. |
| ImageOperations.CompleteUpload | backend/src/images/image-upload.service.ts:341-514 | The answer and the row for every status an upload can have and everything the provider can say, with whatever runs in its three gaps; a success is verified with this evidence inside its window, and repeating it changes nothing. |
| ImageOperations.VerifyAndRecord | backend/src/images/image-upload.service.ts:389-514 | Reservation, provider call and recording are a run of the protocol, and the answer and the row are told from the states others left before each of the three: which attempt is bought, what is asked, what is kept. |
| ImageOperations.RecordEvidence | backend/src/images/image-upload.service.ts:450-514 | Accepted exactly if the policy's columns hold, both windows are open and the row, as others left it, is still authorised or holds the same evidence; rejected or expired otherwise, with the row to match. |
| ImageOperations.CreateWithImage | backend/src/asset/asset.service.ts:156-240 | The three database visits of a create, with anything between them: the answer is determined by the states they found, and a saved asset is new and shows its upload; with nothing between them, each answer exactly when its columns say so. |
| ImageOperations.UpdateWithImage | backend/src/asset/asset.service.ts:602-768 | The same for an update: a saved asset shows its upload, and only if its status did not move since it was read. |
| ImageRaces.SecondCreateOutcome | backend/src/images/image-attachment.service.ts:122-230 | For every order of the visits: a create identical to one that went through answers with the winner's asset if and only if its retry look-up came after the winner's commit, or its early check came before that commit and found the upload claimable; with the commit between the two it is refused with a conflict. |
| ImageRaces.SecondSaveIsRefused | backend/src/asset/asset.service.ts:189-200 | Six steps from an empty database, with any valid configuration, a create goes through and an identical one is refused; had its early check come one step sooner it would have answered with the winner's asset. |
| ImageRaces.SecondUpdateOutcome | backend/src/asset/asset.service.ts:630-660 | The same equivalence for two identical image updates of one asset. |
| ImageRaces.LaterUpdatesReplayTheWinner | backend/src/images/image-attachment.service.ts:139-174 | After an update has gone through, every later one with that upload by the same user for the same asset changes nothing: with the same fields it is answered as saved, with any others refused, at the retry look-up and in the transaction. |
| ImageSweep.FindDueUploads | backend/src/images/image-cleanup.service.ts:197-208 | At most a batch, each past its deadline; if the batch has room, every AUTHORIZED upload past its intent deadline and every VERIFIED_PENDING one past its attachment deadline. |
| ImageSweep.ExpireDueUploads | backend/src/images/image-cleanup.service.ts:193-235 | Exactly the chosen uploads are expired; with room in the batch none past its deadline is left; each one's object is newly queued for its reason from the later of settlement and its deadline, and nothing else in the queue changes. |
| ImageSweep.FindEligibleCleanups | backend/src/images/image-cleanup.service.ts:237-254 | At most the limit, each due; all that are due if they fit. |
| ImageSweep.SelectBatch | backend/src/images/image-cleanup.service.ts:124-200 | The sweep's first half: everything overdue is expired if it fits the batch, and every due object is taken up if it fits the batch and the provider budget at nine requests each. |
| ImageSweep.TurnOf | backend/src/images/image-cleanup.service.ts:154-175 | One object's turn of the sweep, with other processes between its three transactions. |
| ImageSweep.DeleteAndRecord | backend/src/images/image-cleanup.service.ts:166-174 | Delete, then complete or reschedule, whatever happened to the lease in between. |
| ImageSweep.TurnsAreNeverPutOff | backend/src/images/image-cleanup.service.ts:155-164 | No turn of any sweep counts an object as retained or not terminal. |
| ImageSweep.QuietTurnsComplete | backend/src/images/image-cleanup.service.ts:154-175 | Left alone, an object's turn takes it up exactly when its row is due and the token new; it deletes it and completes the row if the account is the configured one and the provider answers, and otherwise leaves it to be retried within the longest back-off. |
| ImageSweep.ExecuteSweep | backend/src/images/image-cleanup.service.ts:124-191 | One instant for every object; the whole of the overdue and due rows that fit; the provider budget; and tallies that count what happened. |
| LoanProtocol.StepKeepsExactly | backend/src/asset-borrow/asset-borrow.service.ts:224-1213 | A step keeps the loan invariant if and only if it is not an edit back to NORMAL under a loan awaiting return, a move to LOST committing over an active loan its cascade did not cancel, a disposal proposal for an asset reserved or on loan, or a registration as already lent. |
| LoanProtocol.SafeRunsKeep | backend/src/asset-borrow/asset-borrow.service.ts:224-1213 | So every run without such a step keeps it. |
| LoanProtocol.LoanStepKeeps | backend/src/asset-borrow/asset-borrow.service.ts:224-1213 | Every loan operation keeps it, unconditionally. |
| LoanProtocol.EditKeepsExactly | backend/src/asset/asset.service.ts:702-768 | A status edit without a gap between its statements keeps it exactly when it does not put an asset with an active loan back into service. |
| LoanProtocol.LostKeepsExactly | backend/src/asset/asset.service.ts:801-828 | A move to LOST that goes through keeps it exactly when every loan then active on an asset seen as lent is one its cascade cancelled. |
| LoanProtocol.FinishKeepsExactly | backend/src/asset/asset.service.ts:801-828 | The last statement and commit of any open transaction keeps it exactly when it is not such a move to LOST. |
| LoanProtocol.DisposalKeepsExactly | backend/src/asset-viability/asset-viability.service.ts:773-849 | A disposal keeps it exactly when the asset is not reserved or on loan at the write. |
| LoanProtocol.RegisterKeepsExactly | backend/src/asset/asset.service.ts:246-254 | Registering an asset keeps it exactly when the asset is not registered as lent. |
| LoanSafety.AssetsAreLentOnce | backend/src/asset-borrow/asset-borrow.service.ts:318-386 | Over every safe run: at most one active loan per asset, availability the function of that loan's status, RESERVED or BORROWED only in condition NORMAL and with such a loan. |
| LoanSafety.AssetGuardsNeverMiss | backend/src/asset-borrow/asset-borrow.service.ts:541-554 | While the invariant holds, an operation is refused only for its loan's status or its caller's rights; the asset-side conflict branches are unreachable. |
| LoanSafety.ClosedLoansReleaseTheAsset | backend/src/asset-borrow/asset-borrow.service.ts:867-910 | After a rejection, cancellation or good return the asset can be lent again; after a damaged return it is DAMAGED and out of reach; no active loan is left. |
| LoanSafety.WithdrawnRequestsLeaveNoTrace | backend/src/asset-borrow/asset-borrow.service.ts:1079-1213 | Rejecting or cancelling a fresh self-service request restores every asset. |
| LoanSafety.LoansMoveForward | backend/src/asset-borrow/asset-borrow.service.ts:224-1213 | A loan keeps its asset and borrower, only moves forward, and is never reopened, over any run. |
| LoanSafety.LentAssetsAreNotEdited | backend/src/asset/asset.service.ts:490-508 | No status edit and no disposal changes an asset reserved or on loan under a loan, except a move to LOST, which cancels that loan. |
| LoanSafety.HeldRowsStay | backend/src/asset/asset.service.ts:523-600 | The loans, jobs and movements a move to LOST has cancelled, closed and deleted are the same rows until it ends, whatever others do: its row locks hold. |
| LoanSafety.OperationsWaitForTheirLoan | backend/src/asset/asset.service.ts:540-552 | A loan operation waits exactly while a move to LOST under way has cancelled its loan; a new loan never waits. |
| LoanSafety.LostLeavesExactlyLaterLoans | backend/src/asset/asset.service.ts:801-828 | With anything between the cascade and the guarded write: it commits exactly when the asset still looks as it was read; a committed move to LOST of a lent asset leaves a loan active on it if and only if that loan was opened in between; it touches no other loan or asset, and a refused one touches nothing. |
| LoanSafety.LostClosesRepairs | backend/src/asset/asset.service.ts:555-600 | From UNDER_REPAIR, with anything between the cascade and the write: exactly the jobs open when the cascade ran are cancelled, each with the note on a line after its old solution; a movement is gone exactly if it was a pending withdrawal of such a job then; every other job and movement, and the ledger of WITHDRAW and RETURN, is as the others left it. |
| LoanSafety.OtherEditsCascadeNothing | backend/src/asset/asset.service.ts:801-828 | An edit without a gap touches loans only on a move to LOST of a lent asset, jobs and movements only on one from UNDER_REPAIR, and never another asset. |
| LoanSafety.GoneAssetsStayGone | backend/src/asset/asset.service.ts:34-41 | An asset lost, disposed of or waiting to be, with no active loan, is never lent or put back into service, over any run. |
| LoanStranding.EditDuringReturnLendsTwice | backend/src/asset/asset.service.ts:490-508 | From any state with a loan awaiting pick-up: recording damage and then repair lets the asset be lent a second time. |
| LoanStranding.LoansDoAwaitReturn | backend/src/asset-borrow/asset-borrow.service.ts:632-737 | Such a state is three ordinary steps from an empty database. |
| LoanStranding.ReturnRevivesDisposedAsset | backend/src/asset-borrow/asset-borrow.service.ts:862-885 | From any state with a loan awaiting pick-up: the asset can be disposed of, and a return in good order then puts it back on the shelf; both steps keep the loan invariant. |
| LoanStranding.StrandedLoansStay | backend/src/asset-borrow/asset-borrow.service.ts:489-630 | A loan short of hand-over on an asset out of service and out of reach is never handed over, rejected, cancelled or closed, over any run. |
| LoanStranding.ProposalStrandsReservation | backend/src/asset-viability/asset-viability.service.ts:800-849 | A disposal proposed for a reserved asset leaves its loan active and the asset out of service and out of reach. |
| LoanStranding.ReservationsDoGetStranded | backend/src/asset-viability/asset-viability.service.ts:800-849 | Such a state is three ordinary steps from an empty database. |
| LoanStranding.LostStrandsALaterLoan | backend/src/asset/asset.service.ts:801-828 | Six steps from an empty database: read as reserved, rejected, cascaded over, requested again and then written LOST, the asset is lost and the second loan stranded; only the last step breaks the invariant. |
| LoanExtensions.ExtensionsTelescope | backend/src/asset-borrow/asset-borrow.service.ts:1513-1848 | For every loan after every run without a stale commit: the count is the number of APPROVED extensions, their rounds are exactly 1 to it, at most one is PENDING, each starts where the one before ended and ends strictly later, and the loan is due when the last one says. |
| LoanExtensions.StepKeepsHistory | backend/src/asset-borrow/asset-borrow.service.ts:1513-1848 | A step keeps that history if and only if it is not a stale commit: an extension written after the loan was extended or another request came to wait, or a withdrawal of a request granted meanwhile. |
| LoanExtensions.ExtensionKeepsExactly | backend/src/asset-borrow/asset-borrow.service.ts:1583-1647 | Writing a prepared extension keeps it exactly when its round is still the next and no request waits. |
| LoanExtensions.WithdrawalKeepsExactly | backend/src/asset-borrow/asset-borrow.service.ts:1843-1846 | Withdrawing keeps it exactly when the request is not granted. |
| LoanExtensions.SerialRunsTelescope | backend/src/asset-borrow/asset-borrow.service.ts:1539-1661 | When every transaction commits right after its read, whatever the requests and their order, no commit is stale and the whole of that history holds for every loan. |
| LoanExtensions.DeskExtensionsCross | backend/src/asset-borrow/asset-borrow.service.ts:1583-1611 | Two desk extensions that both read the loan before either writes are both granted as the same round, and counted once. |
| LoanExtensions.WithdrawalHidesAGrant | backend/src/asset-borrow/asset-borrow.service.ts:1843-1846 | A request approved between its withdrawal's read and write moves the due date and count and ends CANCELLED. |
| LoanExtensions.LaterRoundsEndLater | backend/src/asset-borrow/asset-borrow.service.ts:1570-1581 | Of two granted extensions the later round starts no earlier than the other ends. |
| LoanServices.Registry.CreateBorrow | backend/src/asset-borrow/asset-borrow.service.ts:224-405 | Accepted exactly for a lendable asset, a new loan and a future due date, with each refusal; then the loan stands with its dates, the only active one on the asset if the invariant held, the asset is reserved or lent, and nothing else changes. |
| LoanServices.Registry.ApproveBorrow | backend/src/asset-borrow/asset-borrow.service.ts:407-487 | Accepted exactly on a waiting request, which alone changes; while the invariant holds the hand-over can then go through at any time. |
| LoanServices.Registry.HandoverAsset | backend/src/asset-borrow/asset-borrow.service.ts:489-558 | Accepted exactly on an approved loan of an asset still RESERVED; loan, hand-over date and availability change together or not at all. |
| LoanServices.Registry.RejectBorrow | backend/src/asset-borrow/asset-borrow.service.ts:560-630 | Accepted exactly on a waiting request of an asset still RESERVED, which becomes AVAILABLE; together or not at all. |
| LoanServices.Registry.RequestReturn | backend/src/asset-borrow/asset-borrow.service.ts:632-737 | Accepted exactly on a loan that is out, for a permitted caller, of an asset still BORROWED, which becomes UNAVAILABLE; together or not at all. |
| LoanServices.Registry.ClaimPickup | backend/src/asset-borrow/asset-borrow.service.ts:739-791 | Accepted exactly on a return awaiting pick-up, which alone changes; while the invariant holds the inspected return can then be completed either way. |
| LoanServices.Registry.CompleteReturn | backend/src/asset-borrow/asset-borrow.service.ts:793-914 | Accepted exactly on a return awaiting pick-up or picked up; the asset is written NORMAL and AVAILABLE, or DAMAGED and UNAVAILABLE, whatever it has become. |
| LoanServices.Registry.ReturnAsset | backend/src/asset-borrow/asset-borrow.service.ts:916-1077 | Accepted exactly on a loan that is out, for a permitted caller, of an asset still BORROWED; the asset is AVAILABLE in its condition, or DAMAGED and UNAVAILABLE. |
| LoanServices.Registry.CancelBorrow | backend/src/asset-borrow/asset-borrow.service.ts:1079-1213 | Staff cancel waiting and approved loans, a related user waiting ones, of an asset still RESERVED, which becomes AVAILABLE; every refusal. |
| LoanServices.Registry.CreateExtension | backend/src/asset-borrow/asset-borrow.service.ts:1513-1661 | With anything between read and write: a success was due on a loan handed over, without a waiting request, for a later date, and leaves a request of the next round from the loan's own date; at the desk date and count move with it; every refusal; the history survives exactly when the write is not stale. |
| LoanServices.Registry.ReviewExtension | backend/src/asset-borrow/asset-borrow.service.ts:1663-1806 | Approval moves the due date and the count together, rejection needs a reason and moves neither; only a waiting request is reviewed. |
| LoanServices.Registry.CancelExtension | backend/src/asset-borrow/asset-borrow.service.ts:1808-1848 | With anything between read and write: accepted exactly on a request waiting when read, by its owner; the request ends withdrawn; with nothing in between no loan and no other request changes and the history is kept. |
| LoanServices.Registry.CascadeCancelActiveRepairJobs | backend/src/asset/asset.service.ts:555-600 | The job loop closes exactly the jobs open on the asset, each with the note after its old solution, and picks exactly the pending withdrawals of those jobs. |
| LoanServices.Registry.CommitStatus | backend/src/asset/asset.service.ts:801-828 | The edit's transaction, with anything between its cascade and its guarded write: done exactly when the asset still looks as read, with the condition asked for and the availability that goes with it; a move to LOST of a lent asset then leaves active only loans opened in between. |
| LoanServices.Registry.UpdateStatus | backend/src/asset/asset.service.ts:779-830 | Read, judge by the transition table and the lending guard, commit, with anything between the read and the transaction and between its statements: what is reported done has the target status and, for LOST, leaves active only loans opened after the cascade. |
| LoanServices.Registry.CreateDisposal | backend/src/asset/asset.service.ts:877-929 | Accepted exactly when the asset still looks as read, not lent, disposed of or lost, with each refusal; then it alone changes, to DISPOSAL and UNAVAILABLE; the invariant is kept and only loans awaiting return can still be active on it. |
| LoanServices.Registry.RequestDisposal | backend/src/asset-viability/asset-viability.service.ts:773-849 | Judged on the read, written without looking again: WAIT_DISPOSAL and UNAVAILABLE whatever others did in between; every refusal. |
| ResendPolicy.WaitIsTight | backend/src/auth/email-verification-resend-policy.ts:14-38 | For any history in any order: the wait is zero exactly when the cooldown has passed and the window has room, and otherwise is the least whole number of seconds after which it is zero, and stays zero. |
| ResendPolicy.OpensAt | backend/src/auth/email-verification-resend-policy.ts:27-33 | The millisecond from which a request is allowed and before which it never is. |
| ResendPolicy.LongCooldownsAreForgotten | backend/src/auth/email-verification-resend-policy.ts:23-29 | With a cooldown longer than the window the wait opens too early: why the result asks for a cooldown within the window. |
| ResendLimiter.StepKeeps | backend/src/auth/email-verification-resend-policy.ts:53-122 | Cleaning up or judging a request keeps the stored rows in agreement with the full log, and the log well spaced. |
| ResendLimiter.ForgettingChangesNoDecision | backend/src/auth/email-verification-resend-policy.ts:95-105 | In every reachable state the pruned and expired rows give the same wait as the full history. |
| ResendLimiter.ResendsAreLimited | backend/src/auth/email-verification-resend-policy.ts:64-79 | Over every run, any hour holds at most three accepted account resends, successive ones at least five minutes apart, and any minute at most sixty counted requests of an address. |
| ResendLimiter.LogsRecordDecisions | backend/src/auth/email-verification-resend-policy.ts:106-122 | An account's log gains exactly the accepted requests; an address's also those its account rule refused. |
| ResendLimiter.ResendLimits.ReserveResend | backend/src/auth/email-verification-resend-policy.ts:87-125 | Accepted exactly when the address has had fewer than sixty requests in the last minute and the account fewer than three resends in the last hour and none in five minutes; otherwise the wait is the least number of seconds until then; and exactly which rows are written. |
| ResendLimiter.ResendLimits.DeleteExpired | backend/src/auth/email-verification-resend-policy.ts:53-55 | Exactly the rows past their expiry go, and for every address and account every decision from then on is the one the rows before would have given. |
| ResendLimiter.RowsAreCovered | backend/src/auth/email-verification-resend-policy.ts:105-120 | In every reachable table a row outlives each window its times are in, which is what expiry relies on. |
| ObjectLocks.LocksExcludeInOrder | backend/src/images/local-filesystem-storage.adapter.ts:693-710 | For any number of callers: never two holders of one public id, nobody enters before an earlier caller has finished, and the map has an entry exactly while one has not. |
| ObjectLocks.LocksAreFair | backend/src/images/local-filesystem-storage.adapter.ts:693-710 | Callers of one public id hold it in order of arrival. |
| ObjectLocks.FirstCallerMayEnter | backend/src/images/local-filesystem-storage.adapter.ts:703-703 | The earliest unfinished caller of a public id holds it or can go in: nobody waits for ever on a free lock. |
| ObjectLocks.Locks.Request | backend/src/images/local-filesystem-storage.adapter.ts:697-702 | The newcomer may go in at once exactly when nobody earlier on its public id is unfinished; the invariant is kept. |
| ObjectLocks.Locks.Resume | backend/src/images/local-filesystem-storage.adapter.ts:703-705 | The operation begins exactly once the previous promise is resolved. |
| ObjectLocks.Locks.Finish | backend/src/images/local-filesystem-storage.adapter.ts:706-709 | The caller is done, the invariant is kept, and the earliest caller left on its public id may go in. |
| NormalizerSlots.SlotsAreNeverLost | backend/src/images/image-normalizer.ts:187-210 | Over any run: at most one holder and three waiters, the counter exact, waiters only behind a holder, slots granted in order of admission. |
| NormalizerSlots.RepeatedReleaseIsIdle | backend/src/images/image-normalizer.ts:202-205 | Releasing twice is releasing once, whatever happened in between. |
| NormalizerSlots.RefusalMeansFull | backend/src/images/image-normalizer.ts:188-194 | Over every run a job is refused exactly when four admitted before it have not given their slot back, and a refusal changes nothing. |
| NormalizerSlots.ImageNormalizer.AcquireSlot | backend/src/images/image-normalizer.ts:187-200 | Granted at once, queued, or refused. |
| NormalizerSlots.ImageNormalizer.ReleaseSlot | backend/src/images/image-normalizer.ts:203-209 | The slot goes to the first waiter, or back. |
| LocalVerification.SuccessesAgree | backend/src/images/local-filesystem-storage.adapter.ts:371-460 | However often and wherever verification of one received source fails, every success reports the time of receipt, a marker means a valid output carrying it, and the source is there until the marker is. |
| LocalVerification.VerifyKeeps | backend/src/images/local-filesystem-storage.adapter.ts:371-460 | One call keeps that, and a success leaves the valid stamped output, the marker and no source. |
| LocalVerification.TroubleFreeTriesSucceed | backend/src/images/local-filesystem-storage.adapter.ts:371-460 | A try that meets no fault succeeds whatever earlier ones left behind. |
| LocalVerification.LocalObject.VerifyUploadedObjectLocked | backend/src/images/local-filesystem-storage.adapter.ts:371-460 | What one call answers and leaves behind for every state it can find and every stage that can fail; it goes at most one call deep. |
| LocalVerification.LocalObject.RecheckExisting | backend/src/images/local-filesystem-storage.adapter.ts:385-404 | From any state earlier tries leave: success means the valid output stamped with the time of receipt, the marker, and no source; a fault leaves the source and an output; what every state satisfies still holds. |
| LocalVerification.LocalObject.NormalizeSource | backend/src/images/local-filesystem-storage.adapter.ts:405-425 | From any state without an output: success means a valid output stamped with the time of receipt and the marker; the source stays; what every state satisfies still holds. |
| LocalVerification.LocalObject.EnsureVerifiedMarker | backend/src/images/local-filesystem-storage.adapter.ts:876-895 | Success means the marker is there, and it is never lost; it appears only on success or when a failing call made it all the same; on a valid stamped output what every state satisfies still holds. |
| SessionLifetime.AcceptancesAreTimely | backend/src/auth/session-lifetime.service.ts:24-133 | However checks overlap, a request let through came less than 12 hours after sign-in and less than 8 after sign-in or activity already recorded; and so did every recorded activity. |
| SessionLifetime.ActivityNeverGoesBack | backend/src/auth/session-lifetime.service.ts:61-83 | Recorded activity never goes back, a written expiry never exceeds either lifetime, and a deleted session does not return. |
| SessionLifetime.OnlyExpiredSessionsAreDeleted | backend/src/auth/session-lifetime.service.ts:53-59 | Over every run: a session that went without a sign-out was deleted by a check at a moment when the row, as it stood and as that check had read it, had expired. |
| SessionLifetime.ActivityRenewsExactly | backend/src/auth/session-lifetime.service.ts:61-83 | A check with activity keeps a live session live for exactly eight hours more, or until twelve after its creation if sooner; one without changes nothing about how long. |
| SessionLifetime.SessionTable.Round | backend/src/auth/session-lifetime.service.ts:33-93 | One round, with anything between its read, its clock and its write: deleted, renewed, clamped, accepted or tried again exactly as the row read, the clock and the row that then stands say, and the three expiries it reports. |
| SessionLifetime.SessionTable.EnforceSession | backend/src/auth/session-lifetime.service.ts:24-111 | Ends within eight rounds and one read and answers as the round or read that decided found, with its three expiries; lets a request through only on an acceptance made during the call; left alone it answers in one round, exactly when the session is live. |
| TwoFactor.FailuresAreLimited | backend/src/auth/two-factor.service.ts:368-414 | lockedUntil is set exactly when failedAttempts is 5, and any ten minutes without a success see at most five failures, across every entry point. |
| TwoFactor.StepKeeps | backend/src/auth/two-factor.service.ts:112-197 | Every entry point keeps the count equal to the failures since the last success or spent lock. |
| TwoFactor.CodesAreSpentOnce | backend/src/auth/two-factor.service.ts:460-475 | Until codes are issued again, acceptances of a hash and its copies still listed add up to those at the start. |
| TwoFactor.AcceptedAtMostAsIssued | backend/src/auth/two-factor.service.ts:309-347 | Between two issues each hash is accepted at most as often as it was issued. |
| TwoFactorService.Account.GenerateSecret | backend/src/auth/two-factor.service.ts:45-90 | Accepted exactly before enrolment and before codes are issued; an existing row and its count are untouched; unless locked, a valid first token then issues codes. |
| TwoFactorService.Account.RecordFailure | backend/src/auth/two-factor.service.ts:477-486 | A spent lock clears the count before the failure is added; the fifth locks for ten minutes. |
| TwoFactorService.Account.VerifySensitiveTotp | backend/src/auth/two-factor.service.ts:368-414 | Refused exactly while locked; otherwise answered with whether the code was right, a right one clearing the count and a wrong one adding to it. |
| TwoFactorService.Account.VerifyAndEnroll | backend/src/auth/two-factor.service.ts:112-197 | Codes are issued exactly on a valid first token for the same secret; each refusal, and which of them count as failures. |
| TwoFactorService.Account.ConfirmBackupCodesSaved | backend/src/auth/two-factor.service.ts:199-213 | Accepted exactly with a row and ten codes seen; enrolment is then complete, and codes, count and lock are as they were. |
| TwoFactorService.Account.VerifyCurrentTotp | backend/src/auth/two-factor.service.ts:349-366 | Answers exactly when enrolled and not locked, and then with whether the code was right; a right one clears the count, a wrong one locks only as the fifth failure in a row; codes, enrolment and any replacement are untouched. |
| TwoFactorService.Account.StartAuthenticatorReplacement | backend/src/auth/two-factor.service.ts:229-257 | The same check; afterwards a replacement is pending exactly if one was or the code was right. |
| TwoFactorService.Account.CompleteAuthenticatorReplacement | backend/src/auth/two-factor.service.ts:267-307 | The same check, answered only while a replacement is pending; it stays pending exactly unless the code was right. |
| TwoFactorService.Account.RegenerateRecoveryCodes | backend/src/auth/two-factor.service.ts:309-347 | The same check; the codes are replaced exactly if the code was right. |
| TwoFactorService.Account.VerifyToken | backend/src/auth/two-factor.service.ts:423-509 | Signs in exactly when enrolled, not locked, and the six digits are right or the recovery code is listed, which is then taken out once; a wrong one never does, counts, and reports the attempts left; an error exactly while locked or for a recovery code when none is left. |
| ClaimFingerprint.NormalFormsDecide | backend/src/images/image-attachment.service.ts:632-644 | Two nested values have equal normal forms if and only if they are equal up to key order, undefined members and dates against their ISO text. |
| ClaimFingerprint.NormalizingIsIdempotent | backend/src/images/image-attachment.service.ts:632-644 | Normalising twice is normalising once, and a value is the same as its normal form. |
| ClaimFingerprint.DroppingCommutes | backend/src/images/image-attachment.service.ts:605-618 | Dropping the ignored fields after normalising is normalising what is left after dropping them. |
| ClaimFingerprint.FingerprintsDecide | backend/src/images/image-attachment.service.ts:592-630 | Two saves have one fingerprint if and only if user, purpose, operation and target agree and the fields that count are the same once every undefined list item is read as null. |
| ClaimFingerprint.FieldsThatCount | backend/src/images/image-attachment.service.ts:599-616 | Exactly which fields tell saves apart: all but the upload's own two, the two bookkeeping columns, the password, and an image URL that is null or empty. |
| ClaimFingerprint.SamenessIs | backend/src/images/image-attachment.service.ts:632-644 | What counts as the same: a date is its text, lists item by item in order, records by their present fields in any order, anything else only itself. |
| ClaimFingerprint.RequestFingerprintsDecide | backend/src/images/image-attachment.service.ts:592-630 | For fields without an undefined list item, as everything decoded from a request is: one fingerprint if and only if user, purpose, operation and target agree and it is the same save up to the order of fields, absent fields and date formats. |
| ClaimFingerprint.JsonFillsGaps | backend/src/images/image-attachment.service.ts:619-644 | The JSON text of a normal form is the normal form of the value with undefined list items made null. |
| PresentationFixture.ValidateFixture | backend/prisma/presentation/fixtures.ts:867-1095 | A fixture is accepted if and only if it meets every rule, notifications included. |
| PresentationFixture.AreDistinct | backend/prisma/presentation/fixtures.ts:868-871 | Duplicate keys are found. |
| PresentationFixture.AssetIsValid | backend/prisma/presentation/fixtures.ts:896-934 | An asset's state is judged against its active loans and open jobs. |
| PresentationFixture.WorkflowsAreValid | backend/prisma/presentation/fixtures.ts:936-993 | The rules for assets, loans and extensions. |
| PresentationFixture.LedgersAreValid | backend/prisma/presentation/fixtures.ts:994-1094 | The rules for repairs, parts, transfers, disposals and notifications, the balance by a running total. |
| PresentationRules.AssetFitsExactly | backend/prisma/presentation/fixtures.ts:896-934 | An asset has at most one active loan or open repair, and the availability and condition that one, or none, calls for. |
| PresentationRules.BorrowRule | backend/prisma/presentation/fixtures.ts:936-967 | A loan of the fixture is accepted exactly with known asset and borrower, its dates in order and not in the future, and handed over and returned as its status says. |
| PresentationRules.RepairRule | backend/prisma/presentation/fixtures.ts:994-1014 | A repair is accepted exactly with known people, steps within its track, dates in order, an assignee once tracked, and closed only when all its steps are done. |
| PresentationRules.PeriodsRule | backend/prisma/presentation/fixtures.ts:968-985 | In an accepted fixture, of two loans of one asset the one handed over first came back before the other went out. |
| PresentationRecords.ReceiptsAddUp | backend/prisma/presentation/parts.ts:12-33 | A part's receipts are positive lots that add up to what it opens with, and to nothing if it opens below zero. |
| PresentationRecords.Store.CreatePartWithReceipts | backend/prisma/presentation/parts.ts:36-79 | A part is created empty and its stock raised receipt by receipt to their total. |
| PresentationRules.WrittenPartRow | backend/prisma/presentation/parts.ts:12-33 | Four fifths of the opening stock come in a first lot of at least one, the rest in a second. |
| PresentationRecords.Store.WriteLoans | backend/prisma/presentation/records.ts:168-262 | Loans with their approved extensions counted, then the extensions. |
| PresentationRules.GrantedCountIs | backend/prisma/presentation/records.ts:183-196 | A loan's written extension count is the number of its approved extensions. |
| PresentationRecords.Store.WriteRepairs | backend/prisma/presentation/records.ts:270-398 | Repairs with the steps of their track, complete up to the count. |
| PresentationRules.WrittenRepairRow | backend/prisma/presentation/records.ts:330-370 | A repair has a step row for each of its track's six or eight steps, dated evenly up to its end as far as it is complete. |
| PresentationRecords.Store.WriteStock | backend/prisma/presentation/records.ts:409-451 | Every movement changes the stock of its own part only, and only if internal and not pending. |
| PresentationRecords.Store.WritePresentationRecords | backend/prisma/presentation/records.ts:21-524 | The tables hold exactly the written form of the fixture. |
| PresentationRecords.NotificationsPointSomewhere | backend/prisma/presentation/records.ts:494-516 | Every notification of an accepted fixture is written with the id of a row that is there. |
| PresentationCheck.AcceptedFixturesPassExactly | backend/prisma/presentation/check.ts:85-240 | An accepted fixture, once written, passes every rule if and only if its opening lots have no negative price, its completed repairs have a track, and transfers tied at an asset's latest instant agree on where it went. |
| PresentationCheck.TiesDecide | backend/prisma/presentation/check.ts:230-240 | In an accepted fixture, tied latest transfers agree with each other if and only if each of them ends at the asset's section. |
| PresentationCheck.DistinctInstantsSuffice | backend/prisma/presentation/check.ts:230-240 | Distinct transfer instants per asset are enough for the last of these. |
| PresentationCheck.CompletedWithoutTrackIsAccepted | backend/prisma/presentation/fixtures.ts:1008-1012 | A fixture with a repair completed without a track is accepted and fails the check. |
| PresentationCheck.NegativePriceIsAccepted | backend/prisma/presentation/fixtures.ts:1053-1055 | A fixture with an opening lot at a negative price is accepted and fails the check. |
| PresentationCheck.TiedTransfersAreAccepted | backend/prisma/presentation/fixtures.ts:1056-1077 | A fixture with two transfers of an asset at its latest instant is accepted and can fail the check. |
| PresentationCheck.WrittenRepair | backend/prisma/presentation/check.ts:137-157 | A written repair passes exactly when it is not completed without a track. |
| PresentationCheck.WrittenPart | backend/prisma/presentation/check.ts:158-211 | A written part passes exactly when no lot of it has a negative price; the two ways of netting returns agree. |
| PresentationCheck.StockIsAccountedFor | backend/prisma/presentation/check.ts:171-187 | Stock written equals its recount from receipts and movements, and equals the fixture's own balance if and only if the part does not open below zero. |
| PresentationCheck.CheckAssets | backend/prisma/presentation/check.ts:85-126 | No error exactly when every asset matches its workflows. |
| PresentationCheck.CheckJob | backend/prisma/presentation/check.ts:137-157 | The walk with its flag finds exactly the repairs with skipped or missing steps. |
| PresentationRules.JobCheck | backend/prisma/presentation/check.ts:137-157 | A stored repair passes exactly with an assignee once it has steps, no step complete before a lower-numbered one, and, if closed, a date and every step complete. |
| PresentationCheck.CheckPart | backend/prisma/presentation/check.ts:158-211 | No error exactly when receipts, ledger and returns are in order. |
| PresentationRules.PartCheck | backend/prisma/presentation/check.ts:158-211 | A stored part passes exactly if each lot is positive and not priced below zero, stock is what came in and moved, and no return exceeds what was out. |
| PresentationCheck.CheckWorkflows | backend/prisma/presentation/check.ts:85-229 | No error exactly when assets, loans, repairs, extensions and disposals pass. |
| PresentationRules.TransferCheck | backend/prisma/presentation/check.ts:230-240 | An asset's transfers pass exactly if each of the latest ends at the asset's section. |
| PresentationCheck.CheckPresentation | backend/prisma/presentation/check.ts:85-244 | No error if every rule passes, and every rule passes if there is none, whichever latest transfers the database returns. |

## Left out

- Users as image targets: claims attach to assets only, and the lease check looks at assets only; the user service is not part of this model.
- Hourly upload budgets, source size and type checks, and the error and rejection codes stored on rows.
- Role, section and ban checks enter as booleans (`permitted`, `staff`, `related`); their tables are data.
- The branch of a claim, loan operation or lease whose compare-and-swap misses only because of a commit inside its own transaction: such a transaction is one step at its last guard, so the row it judges is the row it writes. `SKIP LOCKED` is not modelled for the same reason.
- LoanSafety.LostClosesRepairs: the statements inside one cascade are one step, so a withdrawal entered on a found job between its closing and the deletion of its withdrawals counts as entered after; a statement that waits for a row is taken to start when it gets it.
- LoanServices.Registry.CreateBorrow: the asset's section is judged at the write; a transfer committing between that check and the guarded write is not separated.
- The order in which a sweep chooses among due rows: any order is allowed. Sweep scheduling (`inFlight`, `interval`) and backlog counts.
- `managedImageLocator`: an asset has a whole locator or none; a partly filled one is not represented. An external URL typed to equal a managed one is not a locator.
- Cleanup rows without an upload id appear only as the branch a worker takes on them.
- One configuration per run; changing the storage account is a step.
- ImageOperations.CompleteUpload: the fingerprint of the provider evidence enters as its hash.
- ImagePolicy.LoadedConfigIsValid: does not say that a lease outlasts a sweep, because one sweep uses one instant for every lease and the configuration only covers one object.
- ResendLimiter.ResendsAreLimited: each reservation is one step at the instant it reads from the database clock; two reservations with different keys whose commits cross are ordered by that instant.
- ResendPolicy.WaitIsTight: for instants not before 1970 and at least one allowed request, as the rules in use have.
- Writes to assets by the repairs service, which is not part of this model; its jobs and part movements may change in any way between steps.
- Loan numbers, remarks, notifications, delivery and return methods, borrower look-ups.
- PresentationRecords.Store.WritePresentationRecords: ids are the keys they are derived from; documents, labels, people, receipt dates and the texts of notifications are not written, nor the manifest.
- PresentationFixture.ValidateFixture: every date is a finite instant, so the test for non-finite loan dates never fires.
- PresentationRecords.ReceiptsAddUp: four fifths is exact arithmetic; the floating-point product may split some lots one unit differently, with the same sum.
- PresentationCheck.CheckPresentation: the section, manifest, image and two-factor warnings are not checked; receipt documents and their authors are taken to be present.
- ClaimFingerprint.NormalFormsDecide: property names are compared by character code, where the source uses the locale's order; any total order gives the same result. Invalid dates, which throw, are not values here. A list item that is `undefined`, which no request body can carry, is covered by `FingerprintsDecide`.
- LocalVerification.SuccessesAgree: one received source; the deletions made to recover are taken to succeed, and links and real paths are not modelled.
- SessionLifetime.AcceptancesAreTimely: one session, identified by its row.
- TwoFactor.FailuresAreLimited: password checks, secrets and deletion of the row by an administrator are left out.
- Controllers, guards, cookies, document generation, forecasts, viability scoring and look-up tables: they would add only easy members.
