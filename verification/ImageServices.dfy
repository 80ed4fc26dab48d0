/**
 * The image services as code over the database. Each method makes the reads, guarded updates and
 * early returns of the service it models and is proved to have the effect of that service's
 * transaction; `clock.now()` is the database clock.
 */
module ImageServices {
  import opened Prelude
  import opened ImagePolicy
  import opened ImageState
  import opened ImageTransactions
  import opened ImageProtocol
  import opened ImageInvariant
  import opened ImageSafety
  import opened ImageDatabase
  import opened ImageTerms

  // ---- image-cleanup.persistence.ts -----------------------------------------------------------------

  method EnqueueImageCleanup(db: Database, id: UploadId, u: Upload, reason: CleanupReason, eligibleAt: Time, version: Option<int>)
    modifies db`cleanups
    ensures db.cleanups == Enqueue(old(db.cleanups), id, u, reason, eligibleAt, version)
    ensures Queues(old(db.cleanups), db.cleanups, id, u, version, reason, eligibleAt)
  {
    var k := CleanupIdentity(u);
    if k !in db.cleanups {
      db.cleanups := db.cleanups[k := QueuedCleanup(id, reason, eligibleAt, version)];
    }
    if db.cleanups[k].status.Retained? {
      db.cleanups := db.cleanups[k := db.cleanups[k].(uploadId := Some(id), version := version, reason := reason,
                                                      status := Pending, eligibleAt := eligibleAt, attemptCount := 0,
                                                      nextAttemptAt := None, leaseToken := None,
                                                      leaseExpiresAt := None, completedAt := None)];
    }
  }

  // ---- image-upload.service.ts ------------------------------------------------------------------------

  method ExpireUpload(db: Database, id: UploadId, now: Time) returns (changed: bool)
    requires now <= db.clock
    modifies db`uploads, db`cleanups
    ensures db.State() == Expire(old(db.State()), id, now)
    ensures changed <==>
              && id in old(db.uploads)
              && var u := old(db.uploads[id]);
                 || (u.status.Authorized? && u.intentExpiresAt <= now)
                 || (u.status.VerifiedPending? && u.verified.Some? && u.verified.value.attachmentExpiresAt <= now)
    ensures !changed ==> db.State() == old(db.State())
    ensures changed ==>
              var u := old(db.uploads[id]);
              && db.uploads == old(db.uploads)[id := u.(status := Expired)]
              && Queues(old(db.cleanups), db.cleanups, id, u, if u.verified.Some? then Some(u.verified.value.version) else None,
                        if u.status.Authorized? then UnreportedUpload else ExpiredUpload, DeletableFrom(u, now))
  {
    if id !in db.uploads { return false; }
    var upload := db.uploads[id];
    var reason := ExpiryReason(upload, now);
    if reason.None? { return false; }
    db.uploads := db.uploads[id := upload.(status := Expired)];
    EnqueueImageCleanup(db, id, upload, reason.value, ExpiredEligibleAt(upload, now), VersionOf(upload));
    return true;
  }

  method MarkExpired(db: Database, id: UploadId)
    modifies db`uploads, db`cleanups
    ensures db.State() == Expire(old(db.State()), id, old(db.clock))
    ensures if id in old(db.uploads) && Overdue(old(db.uploads[id]), db.clock)
            then db.uploads == old(db.uploads)[id := old(db.uploads[id]).(status := Expired)]
            else db.State() == old(db.State())
  {
    var _ := ExpireUpload(db, id, db.clock);
  }

  method MarkRejected(db: Database, id: UploadId)
    modifies db`uploads, db`cleanups
    ensures db.State() == Reject(old(db.State()), id, old(db.clock))
    ensures db.uploads.Keys == old(db.uploads).Keys && db.uploads - {id} == old(db.uploads) - {id}
    ensures if id in old(db.uploads) && old(db.uploads[id]).status.Authorized? then db.uploads[id].status.Rejected?
            else db.State() == old(db.State())
    ensures Inv(old(db.State())) ==> Inv(db.State())
    ensures Inv(old(db.State())) && db.State() != old(db.State()) ==>
              var k := db.uploads[id].identity;
              k !in old(db.cleanups) && k in db.cleanups && Due(db.cleanups[k], db.uploads[id].reconciliationAfter)
    ensures id in old(db.uploads) && old(db.uploads[id]).status.Authorized? ==>
              Queues(old(db.cleanups), db.cleanups, id, old(db.uploads[id]), None, RejectedUpload, old(db.uploads[id]).reconciliationAfter)
  {
    hide Inv;
    if Inv(db.State()) { RejectKeeps(db.State(), id, db.clock); RejectionQueues(db.State(), id); }
    if id !in db.uploads { return; }
    var upload := db.uploads[id];
    if !upload.status.Authorized? { return; }
    db.uploads := db.uploads[id := upload.(status := Rejected)];
    EnqueueImageCleanup(db, id, upload, RejectedUpload, upload.reconciliationAfter, None);
  }

  lemma RejectionQueues(s: World, id: UploadId)
    requires Inv(s)
    ensures id in s.uploads && s.uploads[id].status.Authorized? ==>
              var k := s.uploads[id].identity;
              var t := Reject(s, id, s.clock);
              k !in s.cleanups && k in t.cleanups && Due(t.cleanups[k], s.uploads[id].reconciliationAfter)
  {
    if id in s.uploads && s.uploads[id].status.Authorized? {
      hide RowsOk, CleanupsOk, AttachmentsOk, ObjectsOk, TicketsOk, WorkersOk, LogsOk;
      RowHolds(s, id);
      RetireQueuesANewRow(s, id, Rejected, RejectedUpload, s.uploads[id].reconciliationAfter, None);
    }
  }

  method Intend(db: Database, id: UploadId, actor: UserId, purpose: Purpose, target: Option<AssetId>, token: string, now: Time)
    returns (accepted: bool)
    requires now <= db.clock
    modifies db`uploads
    ensures db.State() == CreateIntent(old(db.State()), id, actor, purpose, target, token, now)
    ensures accepted <==> id !in old(db.uploads) && !(purpose.AssetImage? && target.Some? && target.value !in db.assets)
    ensures !accepted ==> db.State() == old(db.State())
    ensures accepted ==>
              && id in db.uploads && db.uploads - {id} == old(db.uploads)
              && var u := db.uploads[id];
                 && u.uploader == actor && u.purpose == purpose && u.target == target && u.attempts == 0
                 && u.status.Authorized? && u.verified.None? && u.claim.None?
                 && u.contextHash == (if target.None? then Some(Sha256(token)) else None)
                 && u.identity == Identity(db.storage, (if purpose.AssetImage? then "hams-asset-image-" else "hams-employee-photo-") + id,
                                           if purpose.AssetImage? then PublicDelivery else AuthenticatedDelivery)
                 && u.policyRevision == "image-normalization-v1" && u.issuedAt == now
                 && u.signatureExpiresAt == now + db.cfg.signatureMs && u.intentExpiresAt == now + db.cfg.intentMs
                 && (u.reconciliationAfter == u.signatureExpiresAt + db.cfg.settlementMs
                     || u.reconciliationAfter == u.intentExpiresAt + db.cfg.settlementMs)
                 && u.signatureExpiresAt + db.cfg.settlementMs <= u.reconciliationAfter
                 && u.intentExpiresAt + db.cfg.settlementMs <= u.reconciliationAfter
  {
    if id in db.uploads || (purpose.AssetImage? && target.Some? && target.value !in db.assets) { return false; }
    var signatureExpiresAt := now + db.cfg.signatureMs;
    var intentExpiresAt := now + db.cfg.intentMs;
    var reconciliationAfter := Max(signatureExpiresAt, intentExpiresAt) + db.cfg.settlementMs;
    var contextHash := if target.Some? then None else Some(Sha256(token));
    var identity := Identity(db.storage, PublicIdFor(purpose, id), DeliveryFor(purpose));
    db.uploads := db.uploads[id := Upload(actor, purpose, target, contextHash, identity, POLICY_REVISION, 0, Authorized,
                                          now, signatureExpiresAt, intentExpiresAt, reconciliationAfter, None, None)];
    return true;
  }

  datatype UploadError = NotFound | NotAllowed | Conflict | Gone | RateLimited | Unavailable

  /** Begin receiving bytes: the window is checked before the first byte is read. */
  method ReceiveLocalUpload(db: Database, id: UploadId, actor: UserId) returns (r: Result<Time, UploadError>)
    modifies db
    ensures r.Ok? <==> MayReceive(old(db.State()), id, actor, old(db.clock))
    ensures r.Ok? ==> db.State() == BeginReceive(old(db.State()), id, actor, old(db.clock)) && r.value == old(db.clock)
                      && Acceptance(r.value, id) in db.acceptances
    ensures r.Ok? <==>
              && id in old(db.uploads)
              && var u := old(db.uploads[id]);
                 && u.uploader == actor && u.status.Authorized? && db.clock < u.intentExpiresAt && db.clock < u.signatureExpiresAt
                 && u.identity.context == db.storage
    ensures r == Err(NotFound) <==> id !in old(db.uploads) || old(db.uploads[id]).uploader != actor
    ensures r == Err(Gone) <==>
              && id in old(db.uploads)
              && var u := old(db.uploads[id]);
                 u.uploader == actor && u.status.Authorized? && (u.intentExpiresAt <= db.clock || u.signatureExpiresAt <= db.clock)
    ensures r.Err? ==> r.error in {NotFound, Gone, Conflict}
    ensures r.Err? ==>
              if r.error.Gone? && old(db.uploads[id]).intentExpiresAt <= db.clock
              then db.State() == Expire(old(db.State()), id, old(db.clock))
                   && db.uploads == old(db.uploads)[id := old(db.uploads[id]).(status := Expired)]
              else db.State() == old(db.State())
  {
    if id !in db.uploads || db.uploads[id].uploader != actor { return Err(NotFound); }
    var upload := db.uploads[id];
    var now := db.clock;
    if !upload.status.Authorized? { return Err(Conflict); }
    if upload.intentExpiresAt <= now {
      MarkExpired(db, id);
      return Err(Gone);
    }
    if upload.signatureExpiresAt <= now { return Err(Gone); }
    if upload.identity.context != db.storage { return Err(Conflict); }
    db.acceptances := db.acceptances + {Acceptance(now, id)};
    return Ok(now);
  }

  method BuyAttempt(db: Database, id: UploadId, startedAt: Time) returns (ticket: Option<Ticket>)
    requires startedAt <= db.clock
    modifies db`uploads, db`tickets
    ensures db.State() == ReserveAttempt(old(db.State()), id, startedAt)
    ensures ticket.Some? <==>
              && id in old(db.uploads)
              && var u := old(db.uploads[id]);
                 u.status.Authorized? && startedAt < u.intentExpiresAt && u.attempts < db.cfg.attemptLimit
    ensures ticket.None? ==> db.State() == old(db.State())
    ensures ticket.Some? ==>
              && ticket.value == Ticket(id, old(db.uploads[id]).attempts + 1) && db.tickets == old(db.tickets) + {ticket.value}
              && db.uploads == old(db.uploads)[id := old(db.uploads[id]).(attempts := old(db.uploads[id]).attempts + 1)]
    ensures ticket.Some? ==> ticket.value in db.tickets && ticket.value.uploadId == id && id in db.uploads
  {
    if id !in db.uploads { return None; }
    var upload := db.uploads[id];
    if !(upload.status.Authorized? && upload.intentExpiresAt > startedAt && upload.attempts < db.cfg.attemptLimit) {
      return None;
    }
    db.uploads := db.uploads[id := upload.(attempts := upload.attempts + 1)];
    db.tickets := db.tickets + {Ticket(id, upload.attempts + 1)};
    return Some(Ticket(id, upload.attempts + 1));
  }

  method VerifyUploadedObject(db: Database, ticket: Ticket, reply: Option<ProviderObject>) returns (answer: Option<Answer>)
    requires ticket in db.tickets && ticket.uploadId in db.uploads
    modifies db`tickets, db`calls, db`answers
    ensures db.State() == AskProvider(old(db.State()), ticket, reply)
    ensures answer.Some? <==>
              && reply.Some?
              && var i := db.uploads[ticket.uploadId].identity; ObjectKey(i.context, i.publicId) in db.objects
    ensures answer.Some? ==> reply.Some? && answer.value == Answer(ticket, reply.value) && answer.value in db.answers
    ensures ticket !in db.tickets && ticket in db.calls && (answer.None? ==> db.answers == old(db.answers))
  {
    db.tickets := db.tickets - {ticket};
    db.calls := db.calls + {ticket};
    if reply.None? || KeyOf(db.uploads[ticket.uploadId].identity) !in db.objects { return None; }
    db.answers := db.answers + {Answer(ticket, reply.value)};
    return Some(Answer(ticket, reply.value));
  }

  method RecordVerified(db: Database, a: Answer, hash: Digest, now: Time) returns (changed: bool)
    requires now <= db.clock && a in db.answers && a.ticket.uploadId in db.uploads
    requires ObjectMeetsPolicy(db.uploads[a.ticket.uploadId], a.found)
    requires now < db.uploads[a.ticket.uploadId].intentExpiresAt && now < a.found.createdAt + db.cfg.attachmentMs
    modifies db`uploads
    ensures db.State() == CommitVerified(old(db.State()), a, hash, now)
    ensures changed <==> old(db.uploads[a.ticket.uploadId].status).Authorized?
    ensures !changed ==> db.State() == old(db.State())
    ensures changed ==>
              var id, o := a.ticket.uploadId, a.found;
              var u := old(db.uploads[id]);
              db.uploads == old(db.uploads)[id := u.(
                status := VerifiedPending,
                verified := Some(Evidence(o.createdAt, o.createdAt + db.cfg.attachmentMs, o.version, o.format, o.bytes,
                                          o.width, o.height, o.pages, hash)))]
  {
    var id := a.ticket.uploadId;
    if !db.uploads[id].status.Authorized? { return false; }
    var o := a.found;
    db.uploads := db.uploads[id := db.uploads[id].(
                               status := VerifiedPending,
                               verified := Some(Evidence(o.createdAt, o.createdAt + db.cfg.attachmentMs, o.version, o.format,
                                                         o.bytes, o.width, o.height, o.pages, hash)))];
    return true;
  }

  // ---- image-attachment.service.ts --------------------------------------------------------------------

  /** The answer to a repeated save whose first attempt already committed. */
  method CommittedTargetForRetry(db: Database, r: ClaimRequest) returns (result: Result<Option<AssetId>, ClaimError>)
    ensures result == PriorTarget(db.State(), r)
    ensures forall a, previous, url, now ::
              result == Ok(Some(a)) <==> ClaimRefusal(db.State(), r, previous, url, now) == Some(Replayed(a))
    ensures result.Err? ==> forall previous, url, now :: ClaimRefusal(db.State(), r, previous, url, now) == Some(Refused(result.error))
    ensures result == Err(Forbidden) <==> !r.permitted
    ensures result == Ok(None) <==>
              r.permitted
              && (Owned(db.State(), r) ==> db.uploads[r.uploadId].purpose == r.purpose && !Taken(db.uploads[r.uploadId]))
    ensures forall a ::
              result == Ok(Some(a)) <==>
                && r.permitted && Owned(db.State(), r)
                && var u := db.uploads[r.uploadId]; MeantFor(u, r) && Repeats(u, r) && a == u.claim.value.target
    ensures result.Err? ==> result.error in {Forbidden, NotClaimable}
  {
    if !r.permitted { return Err(Forbidden); }
    if r.uploadId !in db.uploads || db.uploads[r.uploadId].uploader != r.actor { return Ok(None); }
    var upload := db.uploads[r.uploadId];
    if upload.purpose != r.purpose { return Err(NotClaimable); }
    if !upload.status.Claimed? && !upload.status.Superseded? { return Ok(None); }
    if !TargetContextMatches(upload, r) { return Err(NotClaimable); }
    if upload.claim.None? || upload.claim.value.fingerprint != r.fingerprint { return Err(NotClaimable); }
    if r.operation.UpdateTarget? && upload.claim.value.target != r.target { return Err(NotClaimable); }
    return Ok(Some(upload.claim.value.target));
  }

  method PreflightClaim(db: Database, r: ClaimRequest) returns (error: Option<ClaimError>)
    ensures error == PreflightError(db.State(), r, db.clock)
    ensures error.None? <==>
              && r.permitted && Owned(db.State(), r)
              && var u := db.uploads[r.uploadId]; MeantFor(u, r) && Attachable(db.State(), r.uploadId, u, db.clock)
    ensures error == Some(Forbidden) <==> !r.permitted
    ensures error == Some(UploadNotFound) <==> r.permitted && !Owned(db.State(), r)
    ensures error == Some(UploadGone) <==>
              && r.permitted && Owned(db.State(), r)
              && var u := db.uploads[r.uploadId]; MeantFor(u, r) && Current(db.State(), r.uploadId, u) && TooLate(u, db.clock)
    ensures error.Some? ==> error.value in {Forbidden, UploadNotFound, UploadGone, NotClaimable}
  {
    if !r.permitted { return Some(Forbidden); }
    if r.uploadId !in db.uploads || db.uploads[r.uploadId].uploader != r.actor { return Some(UploadNotFound); }
    var upload := db.uploads[r.uploadId];
    if upload.purpose != r.purpose || !TargetContextMatches(upload, r) { return Some(NotClaimable); }
    if !CurrentEnvironment(db.State(), r.uploadId, upload) { return Some(NotClaimable); }
    if WindowPassed(upload, db.clock) { return Some(UploadGone); }
    if !VerifiedForClaim(upload) { return Some(NotClaimable); }
    return None;
  }

  /** Each upload row carries the public id allocated to it, which the table keeps unique. */
  predicate Addressed(uploads: map<UploadId, Upload>) {
    forall id :: id in uploads ==> uploads[id].identity.publicId == PublicIdFor(uploads[id].purpose, id)
  }

  method MarkSuperseded(db: Database, l: Locator, target: AssetId, now: Time) returns (done: bool)
    requires Addressed(db.uploads)
    modifies db`uploads, db`cleanups
    ensures done <==> HasPredecessor(old(db.State()), l, target)
    ensures done ==> db.State() == Supersede(old(db.State()), Predecessor(old(db.State()), l, target), l.version, now)
    ensures !done ==> db.State() == old(db.State())
    ensures done <==> exists id :: id in old(db.uploads) && Behind(old(db.State()), id, l, target)
    ensures done ==>
              exists id :: id in old(db.uploads) && Behind(old(db.State()), id, l, target)
                           && Supersedes(old(db.State()), db.State(), id, l.version, now)
  {
    forall id ensures Behind(db.State(), id, l, target) <==> id in db.uploads && IsPredecessor(db.uploads[id], l, target) { }
    if !exists id :: id in db.uploads && IsPredecessor(db.uploads[id], l, target) { return false; }
    var id :| id in db.uploads && IsPredecessor(db.uploads[id], l, target);
    OnePredecessor(db.State(), l, target, id);
    var previous := db.uploads[id];
    db.uploads := db.uploads[id := previous.(status := Superseded)];
    EnqueueImageCleanup(db, id, previous, SupersededAttachment, Max(now, previous.reconciliationAfter), Some(l.version));
    assert Supersedes(old(db.State()), db.State(), id, l.version, now);
    return true;
  }

  lemma OnePredecessor(s: World, l: Locator, target: AssetId, id: UploadId)
    requires Addressed(s.uploads) && id in s.uploads && IsPredecessor(s.uploads[id], l, target)
    ensures HasPredecessor(s, l, target) && Predecessor(s, l, target) == id
  {
    var p := Predecessor(s, l, target);
    PublicIdIsInjective(s.uploads[p].purpose, p, s.uploads[id].purpose, id);
  }

  /** Runs inside the caller's transaction, which must be rolled back when the claim is refused. */
  method ClaimInTransaction(db: Database, r: ClaimRequest, previous: Option<Locator>, url: Option<Url>, now: Time)
    returns (outcome: ClaimOutcome)
    requires Inv(db.State())
    modifies db`uploads, db`cleanups
    ensures outcome == ClaimUpload(old(db.State()), r, previous, url, now).1
    ensures !outcome.Refused? ==> db.State() == ClaimUpload(old(db.State()), r, previous, url, now).0
    ensures ClaimAnswers(old(db.State()), r, previous, url, now, outcome)
    ensures outcome.Attached? ==> Claims(old(db.State()), db.State(), r, previous, now)
    ensures outcome.Replayed? ==> db.State() == old(db.State())
  {
    RowsAreAddressed(db.State());
    hide ClaimAnswers, Claims;
    ClaimInTerms(db.State(), r, previous, url, now);
    hide RowsOk, CleanupsOk, AttachmentsOk, ObjectsOk, TicketsOk, WorkersOk, LogsOk;
    if !r.permitted { return Refused(Forbidden); }
    if r.uploadId !in db.uploads || db.uploads[r.uploadId].uploader != r.actor { return Refused(UploadNotFound); }
    var upload := db.uploads[r.uploadId];
    if upload.purpose != r.purpose || !TargetContextMatches(upload, r) { return Refused(NotClaimable); }
    if upload.status.Claimed? || upload.status.Superseded? {
      if !SameClaim(upload, r) { return Refused(NotClaimable); }
      return Replayed(upload.claim.value.target);
    }
    if !CurrentEnvironment(db.State(), r.uploadId, upload) { return Refused(NotClaimable); }
    if WindowPassed(upload, now) { return Refused(UploadGone); }
    if !VerifiedForClaim(upload) { return Refused(NotClaimable); }
    if !PreviousRecordConsistent(r.purpose, previous, url) { return Refused(NotClaimable); }
    var attached := LocatorOf(upload);
    db.uploads := db.uploads[r.uploadId := upload.(status := Claimed, claim := Some(ClaimRecord(r.target, now, r.fingerprint)))];
    if previous.Some? {
      var done := MarkSuperseded(db, previous.value, r.target, now);
      if !done { return Refused(NotClaimable); }
    }
    return Attached(attached, ProviderUrl(attached));
  }

  lemma RowsAreAddressed(s: World)
    requires RowsOk(s)
    ensures Addressed(s.uploads)
  {
  }
}
