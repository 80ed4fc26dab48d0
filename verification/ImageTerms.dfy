/**
 * The conditions of the image services in terms of the stored columns. Contracts are written in these;
 * no service and no transaction computes with them.
 */
module ImageTerms {
  import opened Prelude
  import opened ImagePolicy
  import opened ImageState
  import opened ImageTransactions

  // ---- Uploads -----------------------------------------------------------------------------------------

  /** A deadline of the upload has passed and it may be expired. */
  predicate Overdue(u: Upload, now: Time) {
    || (u.status.Authorized? && u.intentExpiresAt <= now)
    || (u.status.VerifiedPending? && u.verified.Some? && u.verified.value.attachmentExpiresAt <= now)
  }

  /** The later of settlement and the attachment deadline, or of settlement and now if nothing was verified. */
  function DeletableFrom(u: Upload, now: Time): Time {
    var deadline := if u.verified.Some? then u.verified.value.attachmentExpiresAt else now;
    if deadline <= u.reconciliationAfter then u.reconciliationAfter else deadline
  }

  function IdentityUnder(context: StorageContext, purpose: Purpose, id: UploadId): Identity {
    if purpose.AssetImage? then Identity(context, "hams-asset-image-" + id, PublicDelivery)
    else Identity(context, "hams-employee-photo-" + id, AuthenticatedDelivery)
  }

  /** What the provider must report of an upload's object. */
  predicate Acceptable(u: Upload, o: ProviderObject) {
    && o.publicId == u.identity.publicId && o.delivery == u.identity.delivery && o.policyRevision == u.policyRevision
    && u.issuedAt <= o.createdAt + 300_000 && o.createdAt <= u.signatureExpiresAt
    && SmallJpeg(u.purpose, o.format, o.pages, o.bytes, o.width, o.height)
  }

  predicate SmallJpeg(purpose: Purpose, format: string, pages: int, bytes: int, width: int, height: int) {
    && format == "jpg" && pages == 1 && bytes >= 1 && width >= 1 && height >= 1
    && (purpose.AssetImage? ==> width <= 1600 && height <= 1600)
    && (purpose.EmployeePhoto? ==> width <= 512 && height <= 512)
  }

  // ---- The cleanup queue --------------------------------------------------------------------------------

  /**
   * `u`'s object is queued with these columns; one queued before stays as it was, unless it was
   * retained, which starts again.
   */
  predicate Queues(before: map<Identity, Cleanup>, after: map<Identity, Cleanup>, id: UploadId, u: Upload,
                   version: Option<int>, reason: CleanupReason, eligibleAt: Time) {
    var k := Identity(u.identity.context, u.identity.publicId, if u.purpose.AssetImage? then PublicDelivery else AuthenticatedDelivery);
    after == if k in before && !before[k].status.Retained? then before
             else before[k := Cleanup(Some(id), version, reason, Pending, eligibleAt, 0, None, None, None, None)]
  }

  predicate Takeable(c: Cleanup, now: Time) {
    || (c.status.Pending? && c.eligibleAt <= now)
    || (c.status.Retry? && c.nextAttemptAt.Some? && c.nextAttemptAt.value <= now)
    || (c.status.Leased? && c.leaseExpiresAt.Some? && c.leaseExpiresAt.value <= now)
  }

  /** The job holds the lease of its row. */
  predicate Holder(s: World, job: Job) {
    job.identity in s.cleanups && s.cleanups[job.identity].status.Leased? && s.cleanups[job.identity].leaseToken == Some(job.token)
  }

  /** The worker's copy agrees with the upload it names, if it names one. */
  predicate Trustworthy(s: World, job: Job) {
    job.uploadId.Some? ==>
      && job.uploadId.value in s.uploads
      && var u := s.uploads[job.uploadId.value];
         && job.identity.context == u.identity.context && job.identity.delivery == u.identity.delivery
         && job.identity.publicId == (if u.purpose.AssetImage? then "hams-asset-image-" else "hams-employee-photo-") + job.uploadId.value
  }

  // ---- Claims -------------------------------------------------------------------------------------------

  predicate Owned(s: World, r: ClaimRequest) {
    r.uploadId in s.uploads && s.uploads[r.uploadId].uploader == r.actor
  }

  /** The upload was asked for with this save in mind: by its creation token, or for its target. */
  predicate MeantFor(u: Upload, r: ClaimRequest) {
    && u.purpose == r.purpose
    && (r.operation.CreateTarget? ==>
          u.target.None? && r.token.Some? && r.token.value != "" && u.contextHash == Some(Sha256(r.token.value)))
    && (r.operation.UpdateTarget? ==> r.token.None? && u.target == Some(r.target) && u.contextHash.None?)
  }

  predicate Taken(u: Upload) { u.status.Claimed? || u.status.Superseded? }

  /** The save that claimed the upload, asked for again. */
  predicate Repeats(u: Upload, r: ClaimRequest) {
    Taken(u) && u.claim.Some? && u.claim.value.fingerprint == r.fingerprint
    && (r.operation.UpdateTarget? ==> u.claim.value.target == r.target)
  }

  /** The upload belongs to the account and rules in force. */
  predicate Current(s: World, id: UploadId, u: Upload) {
    u.identity == IdentityUnder(s.storage, u.purpose, id) && u.policyRevision == "image-normalization-v1"
  }

  predicate TooLate(u: Upload, now: Time) {
    u.status.Expired? || (u.status.VerifiedPending? && (u.verified.None? || u.verified.value.attachmentExpiresAt <= now))
  }

  predicate Attachable(s: World, id: UploadId, u: Upload, now: Time) {
    && Current(s, id, u) && u.status.VerifiedPending? && u.verified.Some?
    && var v := u.verified.value;
       now < v.attachmentExpiresAt && v.version != 0 && SmallJpeg(u.purpose, v.format, v.pages, v.bytes, v.width, v.height)
  }

  /** The image being replaced is whole: of the purpose's delivery, and shown under its own URL. */
  predicate WholeRecord(purpose: Purpose, previous: Option<Locator>, url: Option<Url>) {
    previous.None?
    || (purpose.AssetImage? && previous.value.identity.delivery.PublicDelivery? && url == Some(ProviderUrl(previous.value)))
    || (purpose.EmployeePhoto? && previous.value.identity.delivery.AuthenticatedDelivery? && url.None?)
  }

  /** Upload `id` is the one shown under `l` by `target`. */
  predicate Behind(s: World, id: UploadId, l: Locator, target: AssetId) {
    && id in s.uploads
    && var u := s.uploads[id];
       && u.status.Claimed? && u.claim.Some? && u.claim.value.target == target
       && u.identity == l.identity && u.verified.Some? && u.verified.value.version == l.version
  }

  function LocatorFor(u: Upload): Locator
    requires u.verified.Some?
  {
    Locator(Identity(u.identity.context, u.identity.publicId, if u.purpose.AssetImage? then PublicDelivery else AuthenticatedDelivery),
            u.verified.value.version)
  }

  function MarkedFor(s: World, r: ClaimRequest, now: Time): World
    requires r.uploadId in s.uploads
  {
    s.(uploads := s.uploads[r.uploadId := s.uploads[r.uploadId].(status := Claimed, claim := Some(ClaimRecord(r.target, now, r.fingerprint)))])
  }

  /** What a claim that goes through writes: its own row and, if an image was there, that image's row and queue entry. */
  ghost predicate Claims(s: World, t: World, r: ClaimRequest, previous: Option<Locator>, now: Time)
    requires r.uploadId in s.uploads
  {
    var m := MarkedFor(s, r, now);
    if previous.None? then t == m
    else
      exists p :: p in m.uploads && Behind(m, p, previous.value, r.target) && Supersedes(m, t, p, previous.value.version, now)
  }

  predicate Supersedes(s: World, t: World, p: UploadId, version: int, now: Time)
    requires p in s.uploads
  {
    && t == s.(uploads := s.uploads[p := s.uploads[p].(status := Superseded)], cleanups := t.cleanups)
    && Queues(s.cleanups, t.cleanups, p, s.uploads[p], Some(version), SupersededAttachment,
              if now <= s.uploads[p].reconciliationAfter then s.uploads[p].reconciliationAfter else now)
  }

  /** Which of its answers a claim gives. */
  ghost predicate ClaimAnswers(s: World, r: ClaimRequest, previous: Option<Locator>, url: Option<Url>, now: Time, outcome: ClaimOutcome) {
    if !r.permitted then outcome == Refused(Forbidden)
    else if !Owned(s, r) then outcome == Refused(UploadNotFound)
    else
      var u := s.uploads[r.uploadId];
      && (outcome == Refused(UploadGone) <==> MeantFor(u, r) && !Taken(u) && Current(s, r.uploadId, u) && TooLate(u, now))
      && (outcome.Replayed? <==> MeantFor(u, r) && Repeats(u, r))
      && (outcome.Replayed? ==> outcome.target == u.claim.value.target)
      && (outcome.Attached? <==>
            && MeantFor(u, r) && Attachable(s, r.uploadId, u, now) && WholeRecord(r.purpose, previous, url)
            && (previous.Some? ==> exists p :: p in s.uploads && Behind(MarkedFor(s, r, now), p, previous.value, r.target)))
      && (outcome.Attached? ==> outcome.locator == LocatorFor(u) && outcome.url == ProviderUrl(LocatorFor(u)))
      && (outcome.Refused? ==> outcome.error in {UploadGone, NotClaimable})
  }

  lemma ClaimInTerms(s: World, r: ClaimRequest, previous: Option<Locator>, url: Option<Url>, now: Time)
    ensures ClaimAnswers(s, r, previous, url, now, ClaimUpload(s, r, previous, url, now).1)
    ensures ClaimUpload(s, r, previous, url, now).1.Attached? ==>
              r.uploadId in s.uploads && Claims(s, ClaimUpload(s, r, previous, url, now).0, r, previous, now)
    ensures !ClaimUpload(s, r, previous, url, now).1.Attached? ==> ClaimUpload(s, r, previous, url, now).0 == s
  {
    hide ClaimUpload;
    RefusalInTerms(s, r, previous, url, now);
    if ClaimRefusal(s, r, previous, url, now).None? {
      hide ClaimRefusal, Attachable, MeantFor, Current, TooLate, WholeRecord;
      ClaimWrites(s, r, previous, url, now);
    } else {
      RefusedClaim(s, r, previous, url, now);
    }
  }

  lemma RefusedClaim(s: World, r: ClaimRequest, previous: Option<Locator>, url: Option<Url>, now: Time)
    requires ClaimRefusal(s, r, previous, url, now).Some?
    ensures ClaimUpload(s, r, previous, url, now) == (s, ClaimRefusal(s, r, previous, url, now).value)
  {
  }

  lemma RefusalInTerms(s: World, r: ClaimRequest, previous: Option<Locator>, url: Option<Url>, now: Time)
    ensures var refusal := ClaimRefusal(s, r, previous, url, now);
            if !r.permitted then refusal == Some(Refused(Forbidden))
            else if !Owned(s, r) then refusal == Some(Refused(UploadNotFound))
            else
              var u := s.uploads[r.uploadId];
              && (refusal == Some(Refused(UploadGone)) <==> MeantFor(u, r) && !Taken(u) && Current(s, r.uploadId, u) && TooLate(u, now))
              && (refusal.Some? && refusal.value.Replayed? <==> MeantFor(u, r) && Repeats(u, r))
              && (refusal.Some? && refusal.value.Replayed? ==> refusal.value.target == u.claim.value.target)
              && (refusal.None? <==> MeantFor(u, r) && Attachable(s, r.uploadId, u, now) && WholeRecord(r.purpose, previous, url))
              && (refusal.Some? && refusal.value.Refused? ==> refusal.value.error in {UploadGone, NotClaimable})
              && (refusal.Some? ==> !refusal.value.Attached?)
  {
  }

  lemma ClaimWrites(s: World, r: ClaimRequest, previous: Option<Locator>, url: Option<Url>, now: Time)
    requires ClaimRefusal(s, r, previous, url, now).None? && Owned(s, r) && s.uploads[r.uploadId].verified.Some?
    ensures var (t, outcome) := ClaimUpload(s, r, previous, url, now);
            var u := s.uploads[r.uploadId];
            && (outcome.Attached? <==> (previous.Some? ==> exists p :: p in s.uploads && Behind(MarkedFor(s, r, now), p, previous.value, r.target)))
            && (outcome.Attached? ==> outcome == Attached(LocatorFor(u), ProviderUrl(LocatorFor(u))) && Claims(s, t, r, previous, now))
            && (!outcome.Attached? ==> outcome == Refused(NotClaimable) && t == s)
  {
    hide ClaimRefusal;
    var m := MarkedFor(s, r, now);
    assert m == MarkClaimed(s, r, now);
    if previous.Some? {
      forall p ensures Behind(m, p, previous.value, r.target) <==> p in m.uploads && IsPredecessor(m.uploads[p], previous.value, r.target) { }
      if HasPredecessor(m, previous.value, r.target) {
        var p := Predecessor(m, previous.value, r.target);
        assert Supersedes(m, Supersede(m, p, previous.value.version, now), p, previous.value.version, now);
      }
    }
  }

  // ---- Saves --------------------------------------------------------------------------------------------

  /** What a create answers and writes. */
  ghost predicate CreateAnswers(s: World, t: World, r: ClaimRequest, now: Time, result: SaveOutcome) {
    if !r.permitted then result == Failed(Forbidden) && t == s
    else if !Owned(s, r) then result == Failed(UploadNotFound) && t == s
    else
      var u := s.uploads[r.uploadId];
      var ready := MeantFor(u, r) && Attachable(s, r.uploadId, u, now);
      && (result.Saved? <==> ready && u.verified.value.version >= 1 && r.target !in s.assets)
      && (result.ReplayedSave? <==> MeantFor(u, r) && Repeats(u, r) && u.claim.value.target in s.assets)
      && (result.ReplayedSave? ==> result.asset == u.claim.value.target)
      && (result == Failed(UploadGone) <==> MeantFor(u, r) && !Taken(u) && Current(s, r.uploadId, u) && TooLate(u, now))
      && (result == Failed(TargetMissing) <==> MeantFor(u, r) && Repeats(u, r) && u.claim.value.target !in s.assets)
      && (result == Failed(BadImage) <==> ready && (u.verified.value.version < 1 || r.target in s.assets))
      && (result.Failed? ==> result.error in {UploadGone, TargetMissing, BadImage, NotClaimable})
      && (result.Saved? ==>
            result.asset == r.target
            && t == MarkedFor(s, r, now).(assets := s.assets[r.target := AssetRow(Some(LocatorFor(u)), Some(ProviderUrl(LocatorFor(u))))]))
      && (!result.Saved? ==> t == s)
  }

  lemma CreateInTerms(s: World, r: ClaimRequest, now: Time)
    requires now <= s.clock && r.operation.CreateTarget? && r.purpose.AssetImage?
    ensures CreateAnswers(s, CreateAssetWithImage(s, r, now).0, r, now, CreateAssetWithImage(s, r, now).1)
  {
    hide ClaimUpload, Attachable, MeantFor, Current, TooLate, Repeats;
    ClaimInTerms(s, r, None, None, now);
    if r.permitted && Owned(s, r) && MeantFor(s.uploads[r.uploadId], r) { AttachableIsPublic(s, r, now); }
  }

  lemma AttachableIsPublic(s: World, r: ClaimRequest, now: Time)
    requires r.purpose.AssetImage? && Owned(s, r) && MeantFor(s.uploads[r.uploadId], r)
    ensures var u := s.uploads[r.uploadId];
            Attachable(s, r.uploadId, u, now) ==>
              u.verified.Some? && (LocatorConstraint(LocatorFor(u)) <==> u.verified.value.version >= 1)
  {
  }

  /** What an update with an image answers and writes. */
  ghost predicate UpdateAnswers(s: World, t: World, r: ClaimRequest, now: Time, unmoved: bool, result: SaveOutcome) {
    if r.target !in s.assets then result == Failed(TargetMissing) && t == s
    else if !r.permitted then result == Failed(Forbidden) && t == s
    else if !Owned(s, r) then result == Failed(UploadNotFound) && t == s
    else
      var u, row := s.uploads[r.uploadId], s.assets[r.target];
      var ready := MeantFor(u, r) && Attachable(s, r.uploadId, u, now) && WholeRecord(r.purpose, row.locator, row.imageUrl)
                   && (row.locator.Some? ==> exists p :: p in s.uploads && Behind(MarkedFor(s, r, now), p, row.locator.value, r.target));
      && (result.Saved? <==> ready && u.verified.value.version >= 1 && unmoved)
      && (result.ReplayedSave? <==> MeantFor(u, r) && Repeats(u, r))
      && (result == Failed(UploadGone) <==> MeantFor(u, r) && !Taken(u) && Current(s, r.uploadId, u) && TooLate(u, now))
      && (result == Failed(StaleWrite) <==> ready && (u.verified.value.version < 1 || !unmoved))
      && (result.Failed? ==> result.error in {UploadGone, StaleWrite, NotClaimable})
      && (!result.Failed? ==> result.asset == r.target)
      && (result.Saved? ==>
            exists m: World :: Claims(s, m, r, row.locator, now)
                 && t == m.(assets := s.assets[r.target := AssetRow(Some(LocatorFor(u)), Some(ProviderUrl(LocatorFor(u))))]))
      && (!result.Saved? ==> t == s)
  }

  lemma UpdateInTerms(s: World, r: ClaimRequest, now: Time, unmoved: bool)
    requires now <= s.clock && r.operation.UpdateTarget? && r.purpose.AssetImage?
    ensures UpdateAnswers(s, ReplaceAssetImage(s, r, now, unmoved).0, r, now, unmoved, ReplaceAssetImage(s, r, now, unmoved).1)
  {
    hide ClaimUpload, Attachable, MeantFor, Current, TooLate, WholeRecord, Claims;
    if r.target in s.assets {
      var row := s.assets[r.target];
      ClaimInTerms(s, r, row.locator, row.imageUrl, now);
      if r.permitted && Owned(s, r) && MeantFor(s.uploads[r.uploadId], r) { AttachableIsPublic(s, r, now); }
      var m := ClaimUpload(s, r, row.locator, row.imageUrl, now).0;
    }
  }
}
