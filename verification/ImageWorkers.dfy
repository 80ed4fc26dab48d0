/** Asset saves with an image and the cleanup worker's single transactions, as code over the database. */
module ImageWorkers {
  import opened Prelude
  import opened ImagePolicy
  import opened ImageState
  import opened ImageTransactions
  import opened ImageProtocol
  import opened ImageInvariant
  import opened ImageDatabase
  import opened ImageServices
  import opened ImageTerms

  // ---- asset.service.ts -----------------------------------------------------------------------------------

  /** The transaction of `AssetService.create` with an image; a throw puts both tables back. */
  method CreateAsset(db: Database, r: ClaimRequest, now: Time) returns (result: SaveOutcome)
    requires Inv(db.State()) && now <= db.clock && r.operation.CreateTarget? && r.purpose.AssetImage?
    modifies db`uploads, db`cleanups, db`assets
    ensures (db.State(), result) == CreateAssetWithImage(old(db.State()), r, now)
    ensures CreateAnswers(old(db.State()), db.State(), r, now, result)
  {
    hide Inv, ClaimAnswers, Claims, CreateAnswers;
    CreateInTerms(db.State(), r, now);
    var uploads, cleanups := db.uploads, db.cleanups;
    var claim := ClaimInTransaction(db, r, None, None, now);
    match claim
    case Refused(e) =>
      db.uploads, db.cleanups := uploads, cleanups;
      return Failed(e);
    case Replayed(a) =>
      if a !in db.assets { return Failed(TargetMissing); }
      return ReplayedSave(a);
    case Attached(l, url) =>
      if r.target in db.assets || !LocatorConstraint(l) {
        db.uploads, db.cleanups := uploads, cleanups;
        return Failed(BadImage);
      }
      db.assets := db.assets[r.target := AssetRow(Some(l), Some(url))];
      return Saved(r.target);
  }

  /** The transaction of `AssetService.update` with an image, under the row lock it takes first. */
  method UpdateAssetImage(db: Database, r: ClaimRequest, now: Time, unmoved: bool) returns (result: SaveOutcome)
    requires Inv(db.State()) && now <= db.clock && r.operation.UpdateTarget? && r.purpose.AssetImage?
    modifies db`uploads, db`cleanups, db`assets
    ensures (db.State(), result) == ReplaceAssetImage(old(db.State()), r, now, unmoved)
    ensures UpdateAnswers(old(db.State()), db.State(), r, now, unmoved, result)
  {
    hide Inv, ClaimAnswers, Claims, UpdateAnswers;
    UpdateInTerms(db.State(), r, now, unmoved);
    if r.target !in db.assets { return Failed(TargetMissing); }
    var uploads, cleanups := db.uploads, db.cleanups;
    var current := db.assets[r.target];
    var claim := ClaimInTransaction(db, r, current.locator, current.imageUrl, now);
    match claim
    case Refused(e) =>
      db.uploads, db.cleanups := uploads, cleanups;
      return Failed(e);
    case Replayed(a) =>
      if a != r.target { return Failed(BadImage); }
      return ReplayedSave(a);
    case Attached(l, url) =>
      if !unmoved || !LocatorConstraint(l) {
        db.uploads, db.cleanups := uploads, cleanups;
        return Failed(StaleWrite);
      }
      db.assets := db.assets[r.target := AssetRow(Some(l), Some(url))];
      return Saved(r.target);
  }

  // ---- image-cleanup.service.ts ---------------------------------------------------------------------------

  method Lease(db: Database, k: Identity, now: Time, token: Token) returns (outcome: LeaseOutcome)
    requires now <= db.clock
    modifies db`cleanups, db`jobs
    ensures (db.State(), outcome) == AcquireLease(old(db.State()), k, now, token)
    ensures outcome.NoLease? <==>
              (exists j :: j in old(db.jobs) && j.token == token) || k !in old(db.cleanups) || !Takeable(old(db.cleanups[k]), now)
    ensures outcome.NoLease? ==> db.State() == old(db.State())
    ensures outcome.RetainedReference? ==>
              exists a :: a in db.assets && db.assets[a].locator.Some? && db.assets[a].locator.value.identity == k
    ensures outcome.DeferredUpload? ==>
              var c := old(db.cleanups[k]);
              c.uploadId.Some? && c.uploadId.value in db.uploads && db.uploads[c.uploadId.value].status in {Authorized, VerifiedPending, Claimed}
    ensures outcome.Granted? ==>
              var c := old(db.cleanups[k]);
              && (forall a :: a in db.assets && db.assets[a].locator.Some? ==> db.assets[a].locator.value.identity != k)
              && (c.uploadId.Some? && c.uploadId.value in db.uploads ==>
                    db.uploads[c.uploadId.value].status in {Expired, Rejected, Superseded})
              && outcome.job == Job(k, c.uploadId, c.attemptCount, token) && db.jobs == old(db.jobs) + {outcome.job}
              && db.cleanups == old(db.cleanups)[k := c.(status := Leased, leaseToken := Some(token), nextAttemptAt := None,
                                                         leaseExpiresAt := Some(now + db.cfg.leaseMs))]
    ensures outcome.RetainedReference? ==>
              db.jobs == old(db.jobs)
              && db.cleanups == old(db.cleanups)[k := old(db.cleanups[k]).(status := Retained, completedAt := Some(now),
                                                 leaseToken := None, leaseExpiresAt := None, nextAttemptAt := None)]
    ensures outcome.DeferredUpload? ==>
              db.jobs == old(db.jobs)
              && db.cleanups == old(db.cleanups)[k := old(db.cleanups[k]).(status := Retry, nextAttemptAt := Some(now + 60_000),
                                                 leaseToken := None, leaseExpiresAt := None)]
  {
    if exists j :: j in db.jobs && j.token == token { return NoLease; }
    if k !in db.cleanups || !Due(db.cleanups[k], now) { return NoLease; }
    var cleanup := db.cleanups[k];
    if exists a :: a in db.assets && Shows(db.State(), a, k) {
      db.cleanups := db.cleanups[k := cleanup.(status := Retained, completedAt := Some(now), leaseToken := None,
                                               leaseExpiresAt := None, nextAttemptAt := None)];
      return RetainedReference;
    }
    if cleanup.uploadId.Some? && cleanup.uploadId.value in db.uploads {
      var upload := db.uploads[cleanup.uploadId.value];
      if !upload.status.Expired? && !upload.status.Rejected? && !upload.status.Superseded? {
        db.cleanups := db.cleanups[k := cleanup.(status := Retry, nextAttemptAt := Some(now + 60_000),
                                                 leaseToken := None, leaseExpiresAt := None)];
        return DeferredUpload;
      }
    }
    db.cleanups := db.cleanups[k := cleanup.(status := Leased, leaseToken := Some(token),
                                             leaseExpiresAt := Some(now + db.cfg.leaseMs), nextAttemptAt := None)];
    var job := Job(k, cleanup.uploadId, cleanup.attemptCount, token);
    db.jobs := db.jobs + {job};
    return Granted(job);
  }

  datatype WorkerError = IdentityInvalid | ProviderUnavailable

  /** Check the leased row against its upload and the configured account, then call the provider. */
  method DeleteAllocatedObject(db: Database, job: Job, outcome: DeleteOutcome) returns (r: Result<(), WorkerError>)
    requires job in db.jobs
    modifies db`objects, db`finished, db`deletions
    ensures db.State() == DeleteObjects(old(db.State()), job, outcome)
    ensures r.Ok? <==> Trustworthy(old(db.State()), job) && job.identity.context == db.storage && outcome.ObjectsGone?
    ensures r == Err(IdentityInvalid) <==> !Trustworthy(old(db.State()), job)
    ensures var called := Trustworthy(old(db.State()), job) && job.identity.context == db.storage;
            && db.deletions == (if called then old(db.deletions) + {Deletion(db.clock, job)} else old(db.deletions))
            && db.objects == (if called && !outcome.FailedIntact?
                              then old(db.objects) - {ObjectKey(job.identity.context, job.identity.publicId)} else old(db.objects))
    ensures db.finished == if r.Ok? then old(db.finished) + {job} else old(db.finished)
  {
    if job.uploadId.Some? {
      if job.uploadId.value !in db.uploads { return Err(IdentityInvalid); }
      var upload := db.uploads[job.uploadId.value];
      if job.identity.publicId != PublicIdFor(upload.purpose, job.uploadId.value)
         || job.identity.delivery != upload.identity.delivery
         || job.identity.context != upload.identity.context { return Err(IdentityInvalid); }
    }
    if job.identity.context != db.storage { return Err(ProviderUnavailable); }
    db.deletions := db.deletions + {Deletion(db.clock, job)};
    match outcome
    case FailedIntact =>
      return Err(ProviderUnavailable);
    case FailedButGone =>
      db.objects := db.objects - {KeyOf(job.identity)};
      return Err(ProviderUnavailable);
    case ObjectsGone =>
      db.objects := db.objects - {KeyOf(job.identity)};
      db.finished := db.finished + {job};
      return Ok(());
  }

  method Complete(db: Database, job: Job, now: Time)
    requires now <= db.clock && job in db.finished
    modifies db`cleanups
    ensures db.State() == MarkCompleted(old(db.State()), job, now)
    ensures !HoldsLease(db.State(), job) && db.cleanups - {job.identity} == old(db.cleanups) - {job.identity}
    ensures if Holder(old(db.State()), job)
            then db.cleanups[job.identity] == old(db.cleanups[job.identity]).(
                   status := Completed, attemptCount := old(db.cleanups[job.identity]).attemptCount + 1, completedAt := Some(now),
                   leaseToken := None, leaseExpiresAt := None, nextAttemptAt := None)
            else db.State() == old(db.State())
    ensures Inv(old(db.State())) ==> Inv(db.State())
  {
    hide Inv;
    if Inv(db.State()) { CompleteKeeps(db.State(), job, now); }
    if job.identity in db.cleanups {
      var row := db.cleanups[job.identity];
      if row.status.Leased? && row.leaseToken == Some(job.token) {
        db.cleanups := db.cleanups[job.identity := row.(status := Completed, attemptCount := row.attemptCount + 1,
                                                        completedAt := Some(now), leaseToken := None,
                                                        leaseExpiresAt := None, nextAttemptAt := None)];
      }
    }
  }

  method Reschedule(db: Database, job: Job, now: Time, jitter: nat)
    requires now <= db.clock && job in db.jobs && jitter <= 400 && db.cfg.maxBackoffMs >= 1000
    modifies db`cleanups
    ensures db.State() == ScheduleRetry(old(db.State()), job, now, jitter)
    ensures !HoldsLease(db.State(), job) && db.cleanups - {job.identity} == old(db.cleanups) - {job.identity}
    ensures if Holder(old(db.State()), job)
            then && Takeable(db.cleanups[job.identity], now + db.cfg.maxBackoffMs) && !Takeable(db.cleanups[job.identity], now + 799)
                 && db.cleanups[job.identity] == old(db.cleanups[job.identity]).(
                      status := Retry, attemptCount := old(db.cleanups[job.identity]).attemptCount + 1, completedAt := None,
                      nextAttemptAt := Some(now + RetryDelay(job.attemptCount + 1, jitter, db.cfg.maxBackoffMs)),
                      leaseToken := None, leaseExpiresAt := None)
            else db.State() == old(db.State())
    ensures Inv(old(db.State())) ==> Inv(db.State())
  {
    hide Inv;
    if Inv(db.State()) { RetryKeeps(db.State(), job, now, jitter); }
    var delayMs := RetryDelay(job.attemptCount + 1, jitter, db.cfg.maxBackoffMs);
    if job.identity in db.cleanups {
      var row := db.cleanups[job.identity];
      if row.status.Leased? && row.leaseToken == Some(job.token) {
        db.cleanups := db.cleanups[job.identity := row.(status := Retry, attemptCount := row.attemptCount + 1,
                                                        nextAttemptAt := Some(now + delayMs), completedAt := None,
                                                        leaseToken := None, leaseExpiresAt := None)];
      }
    }
  }

  /** One step of any other process, carried out by the service it belongs to. */
  method Perform(db: Database, step: Step)
    requires Inv(db.State())
    modifies db
    ensures db.State() == Apply(old(db.State()), step)
  {
    hide Inv, Apply;
    if step.Tick? || step.SwitchStorage? || step.ObjectArrives? || step.CreatePlain? || step.EditUrl? {
      PerformOutside(db, step);
    } else {
      PerformService(db, step);
    }
  }

  method PerformOutside(db: Database, step: Step)
    requires step.Tick? || step.SwitchStorage? || step.ObjectArrives? || step.CreatePlain? || step.EditUrl?
    modifies db
    ensures db.State() == Apply(old(db.State()), step)
  {
    hide CreateIntent, BeginReceive, ReserveAttempt, AskProvider, CommitVerified, Expire, Reject, CreateAssetWithImage,
         ReplaceAssetImage, AcquireLease, DeleteObjects, MarkCompleted, ScheduleRetry;
    match step
    case Tick(now) => if now >= db.clock { db.clock := now; }
    case SwitchStorage(context) => db.storage := context;
    case ObjectArrives(key) => db.objects, db.arrived := db.objects + {key}, db.arrived + {key};
    case CreatePlain(a, url) => if a !in db.assets { db.assets := db.assets[a := AssetRow(None, url)]; }
    case EditUrl(a, url) => if a in db.assets && db.assets[a].locator.None? { db.assets := db.assets[a := AssetRow(None, url)]; }
  }

  method PerformService(db: Database, step: Step)
    requires Inv(db.State())
    requires !(step.Tick? || step.SwitchStorage? || step.ObjectArrives? || step.CreatePlain? || step.EditUrl?)
    modifies db
    ensures db.State() == Apply(old(db.State()), step)
  {
    if step.LeaseStep? || step.DeleteStep? || step.CompleteStep? || step.RetryStep? {
      PerformWorker(db, step);
    } else if step.CreateStep? || step.ReplaceStep? {
      PerformSave(db, step);
    } else {
      PerformUpload(db, step);
    }
  }

  method PerformWorker(db: Database, step: Step)
    requires Inv(db.State()) && (step.LeaseStep? || step.DeleteStep? || step.CompleteStep? || step.RetryStep?)
    modifies db
    ensures db.State() == Apply(old(db.State()), step)
  {
    hide RowsOk, CleanupsOk, AttachmentsOk, ObjectsOk, TicketsOk, WorkersOk, LogsOk;
    match step
    case LeaseStep(k, now, token) => if now <= db.clock { var _ := Lease(db, k, now, token); }
    case DeleteStep(job, outcome) => if job in db.jobs { var _ := DeleteAllocatedObject(db, job, outcome); }
    case CompleteStep(job, now) => if now <= db.clock && job in db.finished { Complete(db, job, now); }
    case RetryStep(job, now, jitter) =>
      if now <= db.clock && job in db.jobs && jitter <= 400 { Reschedule(db, job, now, jitter); }
  }

  method PerformSave(db: Database, step: Step)
    requires Inv(db.State()) && (step.CreateStep? || step.ReplaceStep?)
    modifies db
    ensures db.State() == Apply(old(db.State()), step)
  {
    hide Inv, ClaimUpload;
    var r := step.request;
    if step.now > db.clock || r.purpose.EmployeePhoto? { return; }
    if step.CreateStep? && r.operation.CreateTarget? {
      var _ := CreateAsset(db, r, step.now);
    } else if step.ReplaceStep? && r.operation.UpdateTarget? {
      var _ := UpdateAssetImage(db, r, step.now, step.unmoved);
    }
  }

  method PerformUpload(db: Database, step: Step)
    requires Inv(db.State())
    requires step.Intend? || step.Receive? || step.ReserveStep? || step.AskStep? || step.CommitStep?
             || step.ExpireStep? || step.RejectStep?
    modifies db
    ensures db.State() == Apply(old(db.State()), step)
  {
    hide RowsOk, CleanupsOk, AttachmentsOk, ObjectsOk, TicketsOk, WorkersOk, LogsOk;
    match step
    case Intend(id, actor, purpose, target, secret, now) =>
      if now <= db.clock { var _ := ImageServices.Intend(db, id, actor, purpose, target, secret, now); }
    case Receive(id, actor, now) =>
      if MayReceive(db.State(), id, actor, now) { db.acceptances := db.acceptances + {Acceptance(now, id)}; }
    case ReserveStep(id, now) => if now <= db.clock { var _ := BuyAttempt(db, id, now); }
    case AskStep(ticket, reply) =>
      if ticket in db.tickets && ticket.uploadId in db.uploads { var _ := VerifyUploadedObject(db, ticket, reply); }
    case CommitStep(answer, hash, now) =>
      if MayCommit(db.State(), answer, hash, now) { var _ := RecordVerified(db, answer, hash, now); }
    case ExpireStep(id, now) => if now <= db.clock { var _ := ExpireUpload(db, id, now); }
    case RejectStep(id, now) => if now <= db.clock { MarkRejected(db, id); }
  }
}
