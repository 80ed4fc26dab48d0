/**
 * The shared state of the managed-image subsystem: upload, cleanup and asset rows, the objects
 * the storage provider holds, and append-only logs of what the services have asked of it.
 */
module ImageState {
  import opened Prelude
  import opened ImagePolicy

  type AssetId = string
  type UserId = string
  type Token = nat

  datatype StorageContext = StorageContext(provider: string, accountId: string)

  /** The five columns the cleanup table is unique on; the resource type is always `image`. */
  datatype Identity = Identity(context: StorageContext, publicId: string, delivery: Delivery)

  datatype Locator = Locator(identity: Identity, version: int)

  /** `ProviderUrl` is the versioned URL the provider derives from a locator. */
  datatype Url = ProviderUrl(of: Locator) | ExternalUrl(text: string)

  datatype UploadStatus = Authorized | VerifiedPending | Claimed | Superseded | Expired | Rejected

  /** The verified columns, which `complete` writes together. */
  datatype Evidence = Evidence(
    providerCreatedAt: Time, attachmentExpiresAt: Time, version: int, format: string,
    bytes: int, width: int, height: int, pages: int, hash: Digest)

  /** The claim columns, which a claim writes together. */
  datatype ClaimRecord = ClaimRecord(target: AssetId, at: Time, fingerprint: Digest)

  datatype Upload = Upload(
    uploader: UserId, purpose: Purpose, target: Option<AssetId>, contextHash: Option<Digest>,
    identity: Identity, policyRevision: string, attempts: nat, status: UploadStatus,
    issuedAt: Time, signatureExpiresAt: Time, intentExpiresAt: Time, reconciliationAfter: Time,
    verified: Option<Evidence>, claim: Option<ClaimRecord>)

  datatype CleanupStatus = Pending | Leased | Retry | Completed | Retained

  datatype CleanupReason = SupersededAttachment | ExpiredUpload | RejectedUpload | UnreportedUpload

  datatype Cleanup = Cleanup(
    uploadId: Option<UploadId>, version: Option<int>, reason: CleanupReason, status: CleanupStatus,
    eligibleAt: Time, attemptCount: nat, nextAttemptAt: Option<Time>,
    leaseToken: Option<Token>, leaseExpiresAt: Option<Time>, completedAt: Option<Time>)

  datatype AssetRow = AssetRow(locator: Option<Locator>, imageUrl: Option<Url>)

  /** A cleanup row as its worker copied it when it took the lease. */
  datatype Job = Job(identity: Identity, uploadId: Option<UploadId>, attemptCount: nat, token: Token)

  /** The provider keeps one set of variants per account and public id. */
  datatype ObjectKey = ObjectKey(context: StorageContext, publicId: string)

  /** A reserved right to ask the provider once; `number` is the attempt counter it was bought at. */
  datatype Ticket = Ticket(uploadId: UploadId, number: nat)

  datatype ProviderObject = ProviderObject(
    publicId: string, delivery: Delivery, policyRevision: string, version: int, createdAt: Time,
    format: string, bytes: int, width: int, height: int, pages: int)

  datatype Answer = Answer(ticket: Ticket, found: ProviderObject)

  datatype Deletion = Deletion(at: Time, job: Job)

  datatype Acceptance = Acceptance(at: Time, uploadId: UploadId)

  datatype World = World(
    cfg: Config,
    storage: StorageContext,                // the provider account the running process is configured for
    clock: Time,
    uploads: map<UploadId, Upload>,
    cleanups: map<Identity, Cleanup>,
    assets: map<AssetId, AssetRow>,
    objects: set<ObjectKey>,                // what the provider holds now
    arrived: set<ObjectKey>,                // what it ever held
    tickets: set<Ticket>,                   // attempts reserved and not yet spent
    calls: set<Ticket>,                     // provider verifications made
    answers: set<Answer>,                   // what those verifications returned
    jobs: set<Job>,                         // every lease ever granted
    finished: set<Job>,                     // jobs whose provider deletion succeeded
    deletions: set<Deletion>,               // every provider deletion started
    acceptances: set<Acceptance>)           // every time receiving upload bytes was begun

  function Start(cfg: Config, storage: StorageContext, clock: Time): World {
    World(cfg, storage, clock, map[], map[], map[], {}, {}, {}, {}, {}, {}, {}, {}, {})
  }

  predicate Terminal(status: UploadStatus) {
    status.Expired? || status.Rejected? || status.Superseded?
  }

  function KeyOf(identity: Identity): ObjectKey {
    ObjectKey(identity.context, identity.publicId)
  }

  /** The identity under which a deletion of `u` is queued: its delivery comes from the purpose. */
  function CleanupIdentity(u: Upload): Identity {
    u.identity.(delivery := DeliveryFor(u.purpose))
  }

  /** True when asset `a` displays the image stored under `identity`. */
  predicate Shows(s: World, a: AssetId, identity: Identity) {
    a in s.assets && s.assets[a].locator.Some? && s.assets[a].locator.value.identity == identity
  }
}
