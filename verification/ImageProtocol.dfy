/**
 * Every interleaving of the image services: one step per transaction, per provider call and per
 * tick of the clock. `Apply` is total, a step that is not enabled changes nothing, so a run is any
 * sequence of steps whatsoever.
 */
module ImageProtocol {
  import opened Prelude
  import opened ImagePolicy
  import opened ImageState
  import opened ImageTransactions

  datatype Step =
    | Tick(now: Time)
    | SwitchStorage(context: StorageContext)
    | Intend(id: UploadId, actor: UserId, purpose: Purpose, target: Option<AssetId>, secret: string, now: Time)
    | Receive(id: UploadId, actor: UserId, now: Time)
    | ObjectArrives(key: ObjectKey)
    | ReserveStep(id: UploadId, now: Time)
    | AskStep(ticket: Ticket, reply: Option<ProviderObject>)
    | CommitStep(answer: Answer, hash: Digest, now: Time)
    | ExpireStep(id: UploadId, now: Time)
    | RejectStep(id: UploadId, now: Time)
    | CreateStep(request: ClaimRequest, now: Time)
    | ReplaceStep(request: ClaimRequest, now: Time, unmoved: bool)
    | CreatePlain(asset: AssetId, url: Option<Url>)
    | EditUrl(asset: AssetId, url: Option<Url>)
    | LeaseStep(identity: Identity, now: Time, token: Token)
    | DeleteStep(job: Job, outcome: DeleteOutcome)
    | CompleteStep(job: Job, now: Time)
    | RetryStep(job: Job, now: Time, jitter: nat)

  ghost function Apply(s: World, step: Step): World {
    match step
    case Tick(now) => if now < s.clock then s else s.(clock := now)
    case SwitchStorage(context) => s.(storage := context)
    case Intend(id, actor, purpose, target, token, now) => CreateIntent(s, id, actor, purpose, target, token, now)
    case Receive(id, actor, now) => BeginReceive(s, id, actor, now)
    case ObjectArrives(key) => Arrive(s, key)
    case ReserveStep(id, now) => ReserveAttempt(s, id, now)
    case AskStep(ticket, reply) => AskProvider(s, ticket, reply)
    case CommitStep(answer, hash, now) => CommitVerified(s, answer, hash, now)
    case ExpireStep(id, now) => Expire(s, id, now)
    case RejectStep(id, now) => Reject(s, id, now)
    case CreateStep(r, now) => CreateAssetWithImage(s, r, now).0
    case ReplaceStep(r, now, unmoved) => ReplaceAssetImage(s, r, now, unmoved).0
    case CreatePlain(a, url) => CreateAssetPlain(s, a, url)
    case EditUrl(a, url) => EditImageUrl(s, a, url)
    case LeaseStep(k, now, token) => AcquireLease(s, k, now, token).0
    case DeleteStep(job, outcome) => DeleteObjects(s, job, outcome)
    case CompleteStep(job, now) => MarkCompleted(s, job, now)
    case RetryStep(job, now, jitter) => ScheduleRetry(s, job, now, jitter)
  }

  ghost function Run(s: World, steps: seq<Step>): World
    decreases |steps|
  {
    if steps == [] then s else Run(Apply(s, steps[0]), steps[1..])
  }

  lemma {:induction false} RunAppend(s: World, a: seq<Step>, b: seq<Step>)
    ensures Run(s, a + b) == Run(Run(s, a), b)
    decreases |a|
  {
    hide Apply;
    if a == [] {
      assert a + b == b;
    } else {
      assert (a + b)[0] == a[0] && (a + b)[1..] == a[1..] + b;
      RunAppend(Apply(s, a[0]), a[1..], b);
    }
  }

  // ---- What every reachable state satisfies -------------------------------------------------

  predicate EvidenceOk(cfg: Config, u: Upload, v: Evidence) {
    && v.attachmentExpiresAt == v.providerCreatedAt + cfg.attachmentMs
    && v.format == "jpg" && v.pages == 1 && v.bytes >= 1
    && 1 <= v.width <= MaxEdge(u.purpose) && 1 <= v.height <= MaxEdge(u.purpose)
    && u.issuedAt - 300_000 <= v.providerCreatedAt <= u.signatureExpiresAt
  }

  predicate RowOk(cfg: Config, id: UploadId, u: Upload) {
    && u.identity.publicId == PublicIdFor(u.purpose, id)
    && u.identity.delivery == DeliveryFor(u.purpose)
    && u.policyRevision == POLICY_REVISION
    && u.reconciliationAfter == Max(u.signatureExpiresAt, u.intentExpiresAt) + cfg.settlementMs
    && u.attempts <= cfg.attemptLimit
    && (u.target.None? <==> u.contextHash.Some?)
    && (u.verified.Some? ==> EvidenceOk(cfg, u, u.verified.value))
    && (u.status.Authorized? || u.status.Rejected? ==> u.verified.None?)
    && (u.status.VerifiedPending? || u.status.Claimed? || u.status.Superseded? ==> u.verified.Some?)
    && (u.claim.Some? <==> u.status.Claimed? || u.status.Superseded?)
    && (u.claim.Some? ==>
          && u.claim.value.at < u.verified.value.attachmentExpiresAt
          && u.purpose.AssetImage? && u.verified.value.version >= 1
          && (u.target.Some? ==> u.target.value == u.claim.value.target))
  }

  predicate RowsOk(s: World) {
    forall id :: id in s.uploads ==> RowOk(s.cfg, id, s.uploads[id])
  }

  /** A cleanup row belongs to one upload that has reached a terminal status. */
  predicate CleanupRowOk(s: World, k: Identity, c: Cleanup) {
    && c.uploadId.Some? && c.uploadId.value in s.uploads
    && s.uploads[c.uploadId.value].identity == k
    && Terminal(s.uploads[c.uploadId.value].status)
    && s.uploads[c.uploadId.value].reconciliationAfter <= c.eligibleAt
    && !c.status.Retained?
    && (!c.status.Pending? ==> c.eligibleAt <= s.clock)
    && (c.status.Leased? <==> c.leaseToken.Some?)
    && (c.status.Leased? <==> c.leaseExpiresAt.Some?)
    && (c.status.Retry? <==> c.nextAttemptAt.Some?)
  }

  predicate CleanupsOk(s: World) {
    && (forall k :: k in s.cleanups ==> CleanupRowOk(s, k, s.cleanups[k]))
    && (forall id :: id in s.uploads && Terminal(s.uploads[id].status) ==> s.uploads[id].identity in s.cleanups)
  }

  /** The upload behind an asset's managed image. */
  predicate AttachedTo(s: World, a: AssetId, id: UploadId) {
    && a in s.assets && id in s.uploads
    && s.uploads[id].status.Claimed? && s.uploads[id].claim.Some? && s.uploads[id].verified.Some?
    && s.uploads[id].claim.value.target == a
    && s.assets[a] == AssetRow(Some(LocatorOf(s.uploads[id])), Some(ProviderUrl(LocatorOf(s.uploads[id]))))
  }

  predicate AttachmentsOk(s: World) {
    && (forall id :: id in s.uploads && s.uploads[id].status.Claimed? ==>
          s.uploads[id].claim.Some? && AttachedTo(s, s.uploads[id].claim.value.target, id))
    && (forall a :: a in s.assets && s.assets[a].locator.Some? ==>
          exists id :: id in s.uploads && AttachedTo(s, a, id))
  }

  /** A live upload's object has never been deleted, once it arrived. */
  predicate ObjectsOk(s: World) {
    && (forall id :: id in s.uploads && !Terminal(s.uploads[id].status) && KeyOf(s.uploads[id].identity) in s.arrived
          ==> KeyOf(s.uploads[id].identity) in s.objects)
    && (forall id :: id in s.uploads && s.uploads[id].verified.Some? ==> KeyOf(s.uploads[id].identity) in s.arrived)
    && (forall a :: a in s.answers ==>
          a.ticket.uploadId in s.uploads && KeyOf(s.uploads[a.ticket.uploadId].identity) in s.arrived)
    && s.objects <= s.arrived
    && (forall key :: key in s.arrived && key !in s.objects ==> exists d :: d in s.deletions && KeyOf(d.job.identity) == key)
  }

  predicate TicketOk(s: World, t: Ticket) {
    t.uploadId in s.uploads && 1 <= t.number <= s.uploads[t.uploadId].attempts
  }

  predicate TicketsOk(s: World) {
    && (forall t :: t in s.tickets ==> TicketOk(s, t))
    && (forall t :: t in s.calls ==> TicketOk(s, t))
    && s.tickets !! s.calls
  }

  predicate JobOk(s: World, j: Job) {
    && j.identity in s.cleanups
    && s.cleanups[j.identity].uploadId == j.uploadId
    && s.cleanups[j.identity].eligibleAt <= s.clock
    && !s.cleanups[j.identity].status.Pending?
  }

  predicate WorkersOk(s: World) {
    && (forall j :: j in s.jobs ==> JobOk(s, j))
    && (forall i, j :: i in s.jobs && j in s.jobs && i.token == j.token ==> i == j)
    && (forall k :: k in s.cleanups && s.cleanups[k].leaseToken.Some? ==>
          exists j :: j in s.jobs && j.identity == k && j.token == s.cleanups[k].leaseToken.value)
    && s.finished <= s.jobs
    && (forall k :: k in s.cleanups && s.cleanups[k].status.Completed? ==> exists j :: j in s.finished && j.identity == k)
  }

  predicate DeletionOk(s: World, d: Deletion) {
    && d.job in s.jobs && d.job.identity in s.cleanups
    && d.at <= s.clock && s.cleanups[d.job.identity].eligibleAt <= d.at
  }

  predicate LogsOk(s: World) {
    && (forall d :: d in s.deletions ==> DeletionOk(s, d))
    && (forall a :: a in s.acceptances ==>
          && a.uploadId in s.uploads
          && a.at < s.uploads[a.uploadId].signatureExpiresAt
          && a.at < s.uploads[a.uploadId].intentExpiresAt)
    && (forall j :: j in s.finished ==> exists d :: d in s.deletions && d.job == j)
  }

  predicate Inv(s: World) {
    && ValidConfig(s.cfg)
    && RowsOk(s) && CleanupsOk(s) && AttachmentsOk(s) && ObjectsOk(s)
    && TicketsOk(s) && WorkersOk(s) && LogsOk(s)
  }
}
