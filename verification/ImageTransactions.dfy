/**
 * The durable transactions of the image services as functions of the shared state. A transaction
 * that the services refuse, or whose compare-and-swap misses, leaves the state as it was.
 */
module ImageTransactions {
  import opened Prelude
  import opened ImagePolicy
  import opened ImageState

  // ---- Cleanup queue ----------------------------------------------------------------------

  function QueuedCleanup(id: UploadId, reason: CleanupReason, eligibleAt: Time, version: Option<int>): Cleanup {
    Cleanup(Some(id), version, reason, Pending, eligibleAt, 0, None, None, None, None)
  }

  /** Insert unless the identity is already queued; a retained row is put back in the queue. */
  function Enqueue(cleanups: map<Identity, Cleanup>, id: UploadId, u: Upload, reason: CleanupReason,
                   eligibleAt: Time, version: Option<int>): map<Identity, Cleanup> {
    var k := CleanupIdentity(u);
    if k in cleanups && !cleanups[k].status.Retained? then cleanups
    else cleanups[k := QueuedCleanup(id, reason, eligibleAt, version)]
  }

  function VersionOf(u: Upload): Option<int> {
    if u.verified.Some? then Some(u.verified.value.version) else None
  }

  /** The reason an upload may be expired at `now`, if it may. */
  function ExpiryReason(u: Upload, now: Time): Option<CleanupReason> {
    if u.status.Authorized? then
      (if u.intentExpiresAt > now then None else Some(UnreportedUpload))
    else if u.status.VerifiedPending? then
      (if u.verified.None? || u.verified.value.attachmentExpiresAt > now then None else Some(ExpiredUpload))
    else None
  }

  function ExpiredEligibleAt(u: Upload, now: Time): Time {
    Max(u.reconciliationAfter, if u.verified.Some? then u.verified.value.attachmentExpiresAt else now)
  }

  function Expire(s: World, id: UploadId, now: Time): World {
    if now > s.clock || id !in s.uploads then s
    else
      var u := s.uploads[id];
      match ExpiryReason(u, now)
      case None => s
      case Some(reason) =>
        s.(uploads := s.uploads[id := u.(status := Expired)],
           cleanups := Enqueue(s.cleanups, id, u, reason, ExpiredEligibleAt(u, now), VersionOf(u)))
  }

  function Reject(s: World, id: UploadId, now: Time): World {
    if now > s.clock || id !in s.uploads || !s.uploads[id].status.Authorized? then s
    else
      var u := s.uploads[id];
      s.(uploads := s.uploads[id := u.(status := Rejected)],
         cleanups := Enqueue(s.cleanups, id, u, RejectedUpload, u.reconciliationAfter, None))
  }

  // ---- Upload intents and completion ------------------------------------------------------

  function NewUpload(cfg: Config, storage: StorageContext, id: UploadId, actor: UserId, purpose: Purpose,
                     target: Option<AssetId>, token: string, now: Time): Upload {
    var signature := now + cfg.signatureMs;
    var intent := now + cfg.intentMs;
    Upload(actor, purpose, target, if target.Some? then None else Some(Sha256(token)),
           Identity(storage, PublicIdFor(purpose, id), DeliveryFor(purpose)), POLICY_REVISION, 0, Authorized,
           now, signature, intent, Max(signature, intent) + cfg.settlementMs, None, None)
  }

  function CreateIntent(s: World, id: UploadId, actor: UserId, purpose: Purpose, target: Option<AssetId>,
                        token: string, now: Time): World {
    if now > s.clock || id in s.uploads then s
    else if purpose.AssetImage? && target.Some? && target.value !in s.assets then s
    else s.(uploads := s.uploads[id := NewUpload(s.cfg, s.storage, id, actor, purpose, target, token, now)])
  }

  predicate MayReceive(s: World, id: UploadId, actor: UserId, now: Time) {
    && now <= s.clock && id in s.uploads
    && var u := s.uploads[id];
       && u.uploader == actor && u.status.Authorized?
       && now < u.intentExpiresAt && now < u.signatureExpiresAt
       && u.identity.context == s.storage
  }

  function BeginReceive(s: World, id: UploadId, actor: UserId, now: Time): World {
    if MayReceive(s, id, actor, now) then s.(acceptances := s.acceptances + {Acceptance(now, id)}) else s
  }

  function Arrive(s: World, key: ObjectKey): World {
    s.(objects := s.objects + {key}, arrived := s.arrived + {key})
  }

  predicate MayReserve(s: World, id: UploadId, now: Time) {
    && now <= s.clock && id in s.uploads
    && var u := s.uploads[id];
       u.status.Authorized? && u.intentExpiresAt > now && u.attempts < s.cfg.attemptLimit
  }

  /** Buy one provider verification: the attempt counter is the price. */
  function ReserveAttempt(s: World, id: UploadId, now: Time): World {
    if !MayReserve(s, id, now) then s
    else
      var u := s.uploads[id];
      s.(uploads := s.uploads[id := u.(attempts := u.attempts + 1)],
         tickets := s.tickets + {Ticket(id, u.attempts + 1)})
  }

  /** Spend a ticket on asking the provider, which can only describe an object it holds. */
  function AskProvider(s: World, t: Ticket, found: Option<ProviderObject>): World {
    if t !in s.tickets || t.uploadId !in s.uploads then s
    else
      var s1 := s.(tickets := s.tickets - {t}, calls := s.calls + {t});
      if found.Some? && KeyOf(s.uploads[t.uploadId].identity) in s.objects
      then s1.(answers := s.answers + {Answer(t, found.value)})
      else s1
  }

  predicate ObjectMeetsPolicy(u: Upload, o: ProviderObject) {
    && o.publicId == u.identity.publicId
    && o.delivery == u.identity.delivery
    && o.policyRevision == u.policyRevision
    && u.issuedAt - 300_000 <= o.createdAt <= u.signatureExpiresAt
    && o.format == "jpg" && o.pages == 1 && o.bytes >= 1
    && 1 <= o.width <= MaxEdge(u.purpose)
    && 1 <= o.height <= MaxEdge(u.purpose)
  }

  function EvidenceFrom(cfg: Config, o: ProviderObject, hash: Digest): Evidence {
    Evidence(o.createdAt, o.createdAt + cfg.attachmentMs, o.version, o.format, o.bytes, o.width, o.height, o.pages, hash)
  }

  predicate MayCommit(s: World, a: Answer, hash: Digest, now: Time) {
    && now <= s.clock && a in s.answers && a.ticket.uploadId in s.uploads
    && var u := s.uploads[a.ticket.uploadId];
       && ObjectMeetsPolicy(u, a.found)
       && now < u.intentExpiresAt
       && now < a.found.createdAt + s.cfg.attachmentMs
       && u.status.Authorized?
  }

  /** Record a verified object: the swap succeeds only while the upload is still authorized. */
  function CommitVerified(s: World, a: Answer, hash: Digest, now: Time): World {
    if !MayCommit(s, a, hash, now) then s
    else
      var id := a.ticket.uploadId;
      s.(uploads := s.uploads[id := s.uploads[id].(status := VerifiedPending,
                                                   verified := Some(EvidenceFrom(s.cfg, a.found, hash)))])
  }

  // ---- Claims -----------------------------------------------------------------------------

  datatype Operation = CreateTarget | UpdateTarget

  /** `permitted` is the outcome of the role and ban check made on the current user row. */
  datatype ClaimRequest = ClaimRequest(
    actor: UserId, permitted: bool, purpose: Purpose, uploadId: UploadId, operation: Operation,
    target: AssetId, token: Option<string>, fingerprint: Digest)

  datatype ClaimError = Forbidden | UploadNotFound | NotClaimable | UploadGone | TargetMissing | StaleWrite | BadImage

  datatype ClaimOutcome = Attached(locator: Locator, url: Url) | Replayed(target: AssetId) | Refused(error: ClaimError)

  function ContextHash(token: Option<string>): Option<Digest> {
    if token.None? || token.value == "" then None else Some(Sha256(token.value))
  }

  predicate TargetContextMatches(u: Upload, r: ClaimRequest) {
    if r.operation.CreateTarget? then
      u.target.None? && ContextHash(r.token).Some? && u.contextHash == ContextHash(r.token)
    else
      r.token.None? && u.target == Some(r.target) && u.contextHash.None?
  }

  /** A claimed or superseded upload answers only a repetition of the request that claimed it. */
  predicate SameClaim(u: Upload, r: ClaimRequest) {
    && u.claim.Some?
    && u.claim.value.fingerprint == r.fingerprint
    && (r.operation.UpdateTarget? ==> u.claim.value.target == r.target)
  }

  predicate CurrentEnvironment(s: World, id: UploadId, u: Upload) {
    && u.identity == Identity(s.storage, PublicIdFor(u.purpose, id), DeliveryFor(u.purpose))
    && u.policyRevision == POLICY_REVISION
  }

  predicate WindowPassed(u: Upload, now: Time) {
    u.status.Expired? || (u.status.VerifiedPending? && (u.verified.None? || u.verified.value.attachmentExpiresAt <= now))
  }

  predicate VerifiedForClaim(u: Upload) {
    && u.status.VerifiedPending? && u.verified.Some?
    && var v := u.verified.value;
       && v.version != 0 && v.format == "jpg" && v.pages == 1 && v.bytes >= 1
       && 1 <= v.width <= MaxEdge(u.purpose) && 1 <= v.height <= MaxEdge(u.purpose)
  }

  predicate PreviousRecordConsistent(purpose: Purpose, previous: Option<Locator>, url: Option<Url>) {
    previous.Some? ==>
      && previous.value.identity.delivery == DeliveryFor(purpose)
      && (if purpose.AssetImage? then url == Some(ProviderUrl(previous.value)) else url.None?)
  }

  function LocatorOf(u: Upload): Locator
    requires u.verified.Some?
  {
    Locator(CleanupIdentity(u), u.verified.value.version)
  }

  /** The claimed upload behind a locator that a target is about to give up. */
  predicate IsPredecessor(u: Upload, l: Locator, target: AssetId) {
    && u.status.Claimed? && u.identity == l.identity
    && u.verified.Some? && u.verified.value.version == l.version
    && u.claim.Some? && u.claim.value.target == target
  }

  predicate HasPredecessor(s: World, l: Locator, target: AssetId) {
    exists id :: id in s.uploads && IsPredecessor(s.uploads[id], l, target)
  }

  ghost function Predecessor(s: World, l: Locator, target: AssetId): (id: UploadId)
    requires HasPredecessor(s, l, target)
    ensures id in s.uploads && IsPredecessor(s.uploads[id], l, target)
  {
    var id :| id in s.uploads && IsPredecessor(s.uploads[id], l, target);
    id
  }

  function Supersede(s: World, id: UploadId, version: int, now: Time): World
    requires id in s.uploads
  {
    var u := s.uploads[id];
    s.(uploads := s.uploads[id := u.(status := Superseded)],
       cleanups := Enqueue(s.cleanups, id, u, SupersededAttachment, Max(now, u.reconciliationAfter), Some(version)))
  }

  /** What a claim answers before it writes anything; `None` means it goes on to the swap. */
  function ClaimRefusal(s: World, r: ClaimRequest, previous: Option<Locator>, url: Option<Url>, now: Time): Option<ClaimOutcome> {
    if !r.permitted then Some(Refused(Forbidden))
    else if r.uploadId !in s.uploads || s.uploads[r.uploadId].uploader != r.actor then Some(Refused(UploadNotFound))
    else
      var u := s.uploads[r.uploadId];
      if u.purpose != r.purpose || !TargetContextMatches(u, r) then Some(Refused(NotClaimable))
      else if u.status.Claimed? || u.status.Superseded? then
        (if SameClaim(u, r) then Some(Replayed(u.claim.value.target)) else Some(Refused(NotClaimable)))
      else if !CurrentEnvironment(s, r.uploadId, u) then Some(Refused(NotClaimable))
      else if WindowPassed(u, now) then Some(Refused(UploadGone))
      else if !VerifiedForClaim(u) || !PreviousRecordConsistent(r.purpose, previous, url) then Some(Refused(NotClaimable))
      else None
  }

  /** What a repeated save is told before it tries anything: the target its first attempt was committed to. */
  function PriorTarget(s: World, r: ClaimRequest): Result<Option<AssetId>, ClaimError> {
    if !r.permitted then Err(Forbidden)
    else if r.uploadId !in s.uploads || s.uploads[r.uploadId].uploader != r.actor then Ok(None)
    else
      var u := s.uploads[r.uploadId];
      if u.purpose != r.purpose then Err(NotClaimable)
      else if !u.status.Claimed? && !u.status.Superseded? then Ok(None)
      else if !TargetContextMatches(u, r) || !SameClaim(u, r) then Err(NotClaimable)
      else Ok(Some(u.claim.value.target))
  }

  /** The early check: anything but an upload ready to be claimed is an error, even one claimed by this very request. */
  function PreflightError(s: World, r: ClaimRequest, now: Time): Option<ClaimError> {
    match ClaimRefusal(s, r, None, None, now)
    case None => None
    case Some(Refused(e)) => Some(e)
    case Some(_) => Some(NotClaimable)
  }

  function MarkClaimed(s: World, r: ClaimRequest, now: Time): World
    requires r.uploadId in s.uploads
  {
    s.(uploads := s.uploads[r.uploadId := s.uploads[r.uploadId].(status := Claimed,
                                                                 claim := Some(ClaimRecord(r.target, now, r.fingerprint)))])
  }

  /** The claim inside its caller's transaction; a refusal rolls that transaction back. */
  ghost function ClaimUpload(s: World, r: ClaimRequest, previous: Option<Locator>, url: Option<Url>, now: Time)
    : (World, ClaimOutcome)
  {
    var refusal := ClaimRefusal(s, r, previous, url, now);
    if refusal.Some? then (s, refusal.value)
    else
      var l := LocatorOf(s.uploads[r.uploadId]);
      var s1 := MarkClaimed(s, r, now);
      if previous.None? then (s1, Attached(l, ProviderUrl(l)))
      else if !HasPredecessor(s1, previous.value, r.target) then (s, Refused(NotClaimable))
      else (Supersede(s1, Predecessor(s1, previous.value, r.target), previous.value.version, now), Attached(l, ProviderUrl(l)))
  }

  datatype SaveOutcome = Saved(asset: AssetId) | ReplayedSave(asset: AssetId) | Failed(error: ClaimError)

  /** The row the database accepts: its check constraint demands a public, versioned locator. */
  predicate LocatorConstraint(l: Locator) {
    l.identity.delivery.PublicDelivery? && l.version >= 1
  }

  ghost function CreateAssetWithImage(s: World, r: ClaimRequest, now: Time): (World, SaveOutcome)
  {
    if now > s.clock || r.operation.UpdateTarget? || r.purpose.EmployeePhoto? then (s, Failed(BadImage))
    else
      var (s1, outcome) := ClaimUpload(s, r, None, None, now);
      match outcome
      case Refused(e) => (s, Failed(e))
      case Replayed(a) => (s, if a in s.assets then ReplayedSave(a) else Failed(TargetMissing))
      case Attached(l, url) =>
        if r.target in s.assets || !LocatorConstraint(l) then (s, Failed(BadImage))
        else (s1.(assets := s.assets[r.target := AssetRow(Some(l), Some(url))]), Saved(r.target))
  }

  /** `unmoved` is false when the asset's status moved since it was read, which rolls the update back. */
  ghost function ReplaceAssetImage(s: World, r: ClaimRequest, now: Time, unmoved: bool): (World, SaveOutcome)
  {
    if now > s.clock || r.operation.CreateTarget? || r.purpose.EmployeePhoto? then (s, Failed(BadImage))
    else if r.target !in s.assets then (s, Failed(TargetMissing))
    else
      var row := s.assets[r.target];
      var (s1, outcome) := ClaimUpload(s, r, row.locator, row.imageUrl, now);
      match outcome
      case Refused(e) => (s, Failed(e))
      case Replayed(a) => (s, if a == r.target then ReplayedSave(a) else Failed(BadImage))
      case Attached(l, url) =>
        if !unmoved || !LocatorConstraint(l) then (s, Failed(StaleWrite))
        else (s1.(assets := s.assets[r.target := AssetRow(Some(l), Some(url))]), Saved(r.target))
  }

  function CreateAssetPlain(s: World, a: AssetId, url: Option<Url>): World {
    if a in s.assets then s
    else s.(assets := s.assets[a := AssetRow(None, url)])
  }

  /** An edit without an upload never touches a managed image. */
  function EditImageUrl(s: World, a: AssetId, url: Option<Url>): World {
    if a !in s.assets || s.assets[a].locator.Some? then s
    else s.(assets := s.assets[a := AssetRow(None, url)])
  }

  // ---- Cleanup workers --------------------------------------------------------------------

  datatype LeaseOutcome = NoLease | RetainedReference | DeferredUpload | Granted(job: Job)

  predicate Due(c: Cleanup, now: Time) {
    || (c.status.Pending? && c.eligibleAt <= now)
    || (c.status.Retry? && c.nextAttemptAt.Some? && c.nextAttemptAt.value <= now)
    || (c.status.Leased? && c.leaseExpiresAt.Some? && c.leaseExpiresAt.value <= now)
  }

  predicate Referenced(s: World, k: Identity) {
    exists a :: a in s.assets && Shows(s, a, k)
  }

  predicate UploadStillLive(s: World, c: Cleanup) {
    c.uploadId.Some? && c.uploadId.value in s.uploads && !Terminal(s.uploads[c.uploadId.value].status)
  }

  function AcquireLease(s: World, k: Identity, now: Time, token: Token): (World, LeaseOutcome) {
    if now > s.clock || k !in s.cleanups || !Due(s.cleanups[k], now) || (exists j :: j in s.jobs && j.token == token)
    then (s, NoLease)
    else
      var c := s.cleanups[k];
      if Referenced(s, k) then
        (s.(cleanups := s.cleanups[k := c.(status := Retained, completedAt := Some(now), leaseToken := None,
                                           leaseExpiresAt := None, nextAttemptAt := None)]), RetainedReference)
      else if UploadStillLive(s, c) then
        (s.(cleanups := s.cleanups[k := c.(status := Retry, nextAttemptAt := Some(now + 60_000),
                                           leaseToken := None, leaseExpiresAt := None)]), DeferredUpload)
      else
        var job := Job(k, c.uploadId, c.attemptCount, token);
        (s.(cleanups := s.cleanups[k := c.(status := Leased, leaseToken := Some(token),
                                           leaseExpiresAt := Some(now + s.cfg.leaseMs), nextAttemptAt := None)],
            jobs := s.jobs + {job}), Granted(job))
  }

  /** How a provider deletion ends: the objects may be gone even when the call reports a failure. */
  datatype DeleteOutcome = ObjectsGone | FailedIntact | FailedButGone

  /** The checks a worker makes on its copy of the row before it calls the provider. */
  predicate DeletionAllowed(s: World, job: Job) {
    && job in s.jobs
    && (job.uploadId.Some? ==>
          && job.uploadId.value in s.uploads
          && var u := s.uploads[job.uploadId.value];
             && job.identity.publicId == PublicIdFor(u.purpose, job.uploadId.value)
             && job.identity.delivery == u.identity.delivery
             && job.identity.context == u.identity.context)
    && job.identity.context == s.storage
  }

  function DeleteObjects(s: World, job: Job, outcome: DeleteOutcome): World {
    if !DeletionAllowed(s, job) then s
    else
      s.(deletions := s.deletions + {Deletion(s.clock, job)},
         objects := if outcome.FailedIntact? then s.objects else s.objects - {KeyOf(job.identity)},
         finished := if outcome.ObjectsGone? then s.finished + {job} else s.finished)
  }

  predicate HoldsLease(s: World, job: Job) {
    && job.identity in s.cleanups
    && s.cleanups[job.identity].status.Leased?
    && s.cleanups[job.identity].leaseToken == Some(job.token)
  }

  function MarkCompleted(s: World, job: Job, now: Time): World {
    if now > s.clock || job !in s.finished || !HoldsLease(s, job) then s
    else
      var c := s.cleanups[job.identity];
      s.(cleanups := s.cleanups[job.identity := c.(status := Completed, attemptCount := c.attemptCount + 1,
                                                   completedAt := Some(now), leaseToken := None,
                                                   leaseExpiresAt := None, nextAttemptAt := None)])
  }

  function ScheduleRetry(s: World, job: Job, now: Time, jitter: nat): World {
    if now > s.clock || job !in s.jobs || jitter > 400 || s.cfg.maxBackoffMs < 1000 || !HoldsLease(s, job) then s
    else
      var c := s.cleanups[job.identity];
      var delay := RetryDelay(job.attemptCount + 1, jitter, s.cfg.maxBackoffMs);
      s.(cleanups := s.cleanups[job.identity := c.(status := Retry, attemptCount := c.attemptCount + 1,
                                                   nextAttemptAt := Some(now + delay), completedAt := None,
                                                   leaseToken := None, leaseExpiresAt := None)])
  }
}
