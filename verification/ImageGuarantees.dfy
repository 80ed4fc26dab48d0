/** Cleanup bookkeeping, verification budgets and claim conditions over every run. */
module ImageGuarantees {
  import opened Prelude
  import opened ImagePolicy
  import opened ImageState
  import opened ImageTransactions
  import opened ImageProtocol
  import opened ImageInvariant
  import opened ImageSafety

  // ---- Cleanup bookkeeping ------------------------------------------------------------------------

  /** An object is queued exactly when an upload allocated to it has expired, been rejected or replaced. */
  lemma QueueIsExact(cfg: Config, storage: StorageContext, clock: Time, steps: seq<Step>, k: Identity)
    requires ValidConfig(cfg)
    ensures var s := Run(Start(cfg, storage, clock), steps);
            k in s.cleanups <==> exists id :: id in s.uploads && s.uploads[id].identity == k && Terminal(s.uploads[id].status)
  {
    var s := Run(Start(cfg, storage, clock), steps);
    StartHolds(cfg, storage, clock);
    RunKeeps(Start(cfg, storage, clock), steps);
    if k in s.cleanups {
      CleanupHolds(s, k);
      assert s.cleanups[k].uploadId.value in s.uploads;
    }
  }

  /** No lease attempt ever finds a displayed object or a live upload behind a queued row. */
  lemma LeasesAreNeverDeferred(cfg: Config, storage: StorageContext, clock: Time, steps: seq<Step>,
                               k: Identity, now: Time, token: Token)
    requires ValidConfig(cfg)
    ensures var s := Run(Start(cfg, storage, clock), steps);
            && !AcquireLease(s, k, now, token).1.RetainedReference?
            && !AcquireLease(s, k, now, token).1.DeferredUpload?
            && (forall j :: j in s.cleanups ==> !s.cleanups[j].status.Retained?)
  {
    var s := Run(Start(cfg, storage, clock), steps);
    StartHolds(cfg, storage, clock);
    RunKeeps(Start(cfg, storage, clock), steps);
    if k in s.cleanups { QueuedObjectsAreUnreferenced(s, k); }
    forall j | j in s.cleanups ensures !s.cleanups[j].status.Retained? { CleanupHolds(s, j); }
  }

  /** When a queued row may next be taken. */
  function Deadline(c: Cleanup): Time {
    match c.status
    case Retry => if c.nextAttemptAt.Some? then c.nextAttemptAt.value else 0
    case Leased => if c.leaseExpiresAt.Some? then c.leaseExpiresAt.value else 0
    case _ => c.eligibleAt
  }

  /** No queued deletion is lost: a lease is granted exactly on a row not completed whose deadline has come. */
  lemma LeasesAreGrantedExactlyWhenDue(cfg: Config, storage: StorageContext, clock: Time, steps: seq<Step>,
                                       k: Identity, now: Time, token: Token)
    requires ValidConfig(cfg)
    ensures var s := Run(Start(cfg, storage, clock), steps);
            AcquireLease(s, k, now, token).1.Granted? <==>
              && k in s.cleanups && !s.cleanups[k].status.Completed? && Deadline(s.cleanups[k]) <= now <= s.clock
              && forall j :: j in s.jobs ==> j.token != token
  {
    var s := Run(Start(cfg, storage, clock), steps);
    StartHolds(cfg, storage, clock);
    RunKeeps(Start(cfg, storage, clock), steps);
    if k in s.cleanups {
      QueuedObjectsAreUnreferenced(s, k);
      CleanupHolds(s, k);
    }
  }

  /** A row under lease or waiting to be retried is free again within the longer of the two windows. */
  predicate WaitsAtMost(s: World, k: Identity) {
    k in s.cleanups && (s.cleanups[k].status.Leased? || s.cleanups[k].status.Retry?) ==>
      Deadline(s.cleanups[k]) <= s.clock + Max(s.cfg.leaseMs, s.cfg.maxBackoffMs)
  }

  lemma WaitStep(s: World, step: Step, k: Identity)
    requires Inv(s) && WaitsAtMost(s, k)
    ensures WaitsAtMost(Apply(s, step), k)
  {
    hide RowsOk, CleanupsOk, AttachmentsOk, ObjectsOk, TicketsOk, WorkersOk, LogsOk, ClaimUpload;
    if step.ExpireStep? || step.RejectStep? || step.CreateStep? || step.ReplaceStep? {
      QueueingWaits(s, step, k);
    } else if step.LeaseStep? && k in s.cleanups {
      QueuedObjectsAreUnreferenced(s, k);
      CleanupHolds(s, k);
    }
  }

  lemma QueueingWaits(s: World, step: Step, k: Identity)
    requires step.ExpireStep? || step.RejectStep? || step.CreateStep? || step.ReplaceStep?
    requires WaitsAtMost(s, k)
    ensures WaitsAtMost(Apply(s, step), k)
  {
    if step.CreateStep? {
      ClaimWaits(s, k, step.request, None, None, step.now);
    } else if step.ReplaceStep? && step.request.target in s.assets {
      var row := s.assets[step.request.target];
      ClaimWaits(s, k, step.request, row.locator, row.imageUrl, step.now);
    }
  }

  lemma ClaimWaits(s: World, k: Identity, r: ClaimRequest, previous: Option<Locator>, url: Option<Url>, now: Time)
    requires WaitsAtMost(s, k)
    ensures var t := ClaimUpload(s, r, previous, url, now).0; WaitsAtMost(t, k) && t.clock == s.clock && t.cfg == s.cfg
  {
  }

  lemma {:induction false} WaitsStayBounded(s: World, steps: seq<Step>, k: Identity)
    requires Inv(s) && WaitsAtMost(s, k)
    ensures WaitsAtMost(Run(s, steps), k)
    decreases |steps|
  {
    hide Inv, Apply, WaitsAtMost;
    if steps != [] {
      StepKeeps(s, steps[0]);
      WaitStep(s, steps[0], k);
      WaitsStayBounded(Apply(s, steps[0]), steps[1..], k);
    }
  }

  /**
   * Over every run, whatever workers took, lost or failed: a queued deletion not yet confirmed can be
   * leased once its time has come and the longer of a lease and the longest back-off has passed.
   */
  lemma FailedDeletionsComeBack(cfg: Config, storage: StorageContext, clock: Time, steps: seq<Step>,
                                k: Identity, now: Time, token: Token)
    requires ValidConfig(cfg)
    ensures var s := Run(Start(cfg, storage, clock), steps);
            && k in s.cleanups && !s.cleanups[k].status.Completed? && (forall j :: j in s.jobs ==> j.token != token)
            && Max(s.cleanups[k].eligibleAt, s.clock + Max(cfg.leaseMs, cfg.maxBackoffMs)) <= now
            ==> AcquireLease(Run(s, [Tick(now)]), k, now, token).1.Granted?
  {
    hide Inv, AcquireLease;
    var s0 := Start(cfg, storage, clock);
    var s := Run(s0, steps);
    StartHolds(cfg, storage, clock);
    RunEvolves(s0, steps);
    WaitsStayBounded(s0, steps, k);
    RunAppend(s0, steps, [Tick(now)]);
    assert Run(s, [Tick(now)]) == Run(Apply(s, Tick(now)), []) == Apply(s, Tick(now));
    LeasesAreGrantedExactlyWhenDue(cfg, storage, clock, steps + [Tick(now)], k, now, token);
  }

  /** A completed row is the record of a deletion the provider confirmed, and no later step rewrites it. */
  lemma CompletionIsFinal(cfg: Config, storage: StorageContext, clock: Time, before: seq<Step>, later: seq<Step>, k: Identity)
    requires ValidConfig(cfg)
    ensures var s := Run(Start(cfg, storage, clock), before);
            var w := Run(s, later);
            k in s.cleanups && s.cleanups[k].status.Completed? ==>
              && k in w.cleanups && w.cleanups[k] == s.cleanups[k]
              && exists d :: d in s.deletions && d.job in s.finished && d.job.identity == k
  {
    var s := Run(Start(cfg, storage, clock), before);
    StartHolds(cfg, storage, clock);
    RunKeeps(Start(cfg, storage, clock), before);
    RunEvolves(s, later);
    if k in s.cleanups && s.cleanups[k].status.Completed? {
      assert CleanupEvolves(s.cleanups[k], Run(s, later).cleanups[k]);
      ConfirmedDeletion(s, k);
    }
  }

  lemma ConfirmedDeletion(s: World, k: Identity)
    requires WorkersOk(s) && LogsOk(s) && k in s.cleanups && s.cleanups[k].status.Completed?
    ensures exists d :: d in s.deletions && d.job in s.finished && d.job.identity == k
  {
  }

  /** A lease once lost is never held again: later leases carry tokens no job has had. */
  lemma LostLeaseStep(s: World, job: Job, step: Step)
    requires Inv(s) && job in s.jobs && !HoldsLease(s, job)
    ensures job in Apply(s, step).jobs && !HoldsLease(Apply(s, step), job)
  {
    hide RowsOk, CleanupsOk, AttachmentsOk, ObjectsOk, TicketsOk, LogsOk, ClaimUpload, Referenced, RetryDelay;
    if step.ExpireStep? || step.RejectStep? || step.CreateStep? || step.ReplaceStep? {
      QueueingGrantsNothing(s, job, step);
    }
  }

  lemma QueueingGrantsNothing(s: World, job: Job, step: Step)
    requires step.ExpireStep? || step.RejectStep? || step.CreateStep? || step.ReplaceStep?
    requires job in s.jobs && !HoldsLease(s, job)
    ensures job in Apply(s, step).jobs && !HoldsLease(Apply(s, step), job)
  {
    if step.CreateStep? {
      ClaimGrantsNothing(s, job, step.request, None, None, step.now);
    } else if step.ReplaceStep? && step.request.target in s.assets {
      var row := s.assets[step.request.target];
      ClaimGrantsNothing(s, job, step.request, row.locator, row.imageUrl, step.now);
    }
  }

  lemma ClaimGrantsNothing(s: World, job: Job, r: ClaimRequest, previous: Option<Locator>, url: Option<Url>, now: Time)
    requires job in s.jobs && !HoldsLease(s, job)
    ensures var t := ClaimUpload(s, r, previous, url, now).0; job in t.jobs && !HoldsLease(t, job)
  {
  }

  lemma {:induction false} LostLeaseStaysLost(s: World, job: Job, steps: seq<Step>)
    requires Inv(s) && job in s.jobs && !HoldsLease(s, job)
    ensures job in Run(s, steps).jobs && !HoldsLease(Run(s, steps), job)
    decreases |steps|
  {
    hide Inv, Apply;
    if steps != [] {
      StepKeeps(s, steps[0]);
      LostLeaseStep(s, job, steps[0]);
      LostLeaseStaysLost(Apply(s, steps[0]), job, steps[1..]);
    }
  }

  /** A worker whose lease was taken over can write neither outcome, then or later. */
  lemma ReplacedWorkersAreInert(s: World, job: Job, steps: seq<Step>, now: Time, jitter: nat)
    requires Inv(s) && job in s.jobs && !HoldsLease(s, job)
    ensures var w := Run(s, steps); MarkCompleted(w, job, now) == w && ScheduleRetry(w, job, now, jitter) == w
  {
    LostLeaseStaysLost(s, job, steps);
  }

  // ---- Verification ---------------------------------------------------------------------------------

  function CallsFor(s: World, id: UploadId): set<Ticket> {
    set t | t in s.calls && t.uploadId == id
  }

  lemma TicketsAreFew(tickets: set<Ticket>, id: UploadId, n: nat)
    requires forall t :: t in tickets ==> t.uploadId == id && 1 <= t.number <= n
    ensures |tickets| <= n
  {
    if n == 0 {
      if t :| t in tickets { assert false; }
    } else {
      var rest := tickets - {Ticket(id, n)};
      TicketsAreFew(rest, id, n - 1);
      assert |tickets| <= |rest| + 1;
    }
  }

  /** However many completions run at once, the provider is asked at most `attemptLimit` times per upload. */
  lemma VerificationsAreBounded(cfg: Config, storage: StorageContext, clock: Time, steps: seq<Step>, id: UploadId)
    requires ValidConfig(cfg)
    ensures var s := Run(Start(cfg, storage, clock), steps);
            |CallsFor(s, id)| <= cfg.attemptLimit && (id in s.uploads ==> |CallsFor(s, id)| <= s.uploads[id].attempts)
  {
    var s := Run(Start(cfg, storage, clock), steps);
    StartHolds(cfg, storage, clock);
    RunKeeps(Start(cfg, storage, clock), steps);
    RunEvolves(Start(cfg, storage, clock), steps);
    forall t | t in CallsFor(s, id) ensures TicketOk(s, t) { }
    if id in s.uploads {
      RowHolds(s, id);
      TicketsAreFew(CallsFor(s, id), id, s.uploads[id].attempts);
    } else {
      TicketsAreFew(CallsFor(s, id), id, 0);
    }
  }

  /** Statuses move forward only, and verified and claim columns are written once. */
  lemma UploadsMoveForward(cfg: Config, storage: StorageContext, clock: Time, before: seq<Step>, later: seq<Step>, id: UploadId)
    requires ValidConfig(cfg)
    ensures var s := Run(Start(cfg, storage, clock), before);
            id in s.uploads ==> id in Run(s, later).uploads && RowEvolves(s.uploads[id], Run(s, later).uploads[id])
  {
    var s := Run(Start(cfg, storage, clock), before);
    StartHolds(cfg, storage, clock);
    RunKeeps(Start(cfg, storage, clock), before);
    RunEvolves(s, later);
  }

  /** After one completion commits, no further attempt on the upload is bought or committed. */
  lemma CompletionIsNotRepeated(s: World, a: Answer, hash: Digest, now: Time, steps: seq<Step>,
                                again: Answer, other: Digest, when: Time)
    requires Inv(s) && MayCommit(s, a, hash, now) && again.ticket.uploadId == a.ticket.uploadId
    ensures var w := Run(CommitVerified(s, a, hash, now), steps);
            && CommitVerified(w, again, other, when) == w
            && ReserveAttempt(w, a.ticket.uploadId, when) == w
            && a.ticket.uploadId in w.uploads && w.uploads[a.ticket.uploadId].verified.Some?
            && w.uploads[a.ticket.uploadId].verified.value.hash == hash
  {
    hide RowsOk, CleanupsOk, AttachmentsOk, ObjectsOk, TicketsOk, WorkersOk, LogsOk;
    var t := CommitVerified(s, a, hash, now);
    assert t == Apply(s, CommitStep(a, hash, now));
    StepKeeps(s, CommitStep(a, hash, now));
    RunEvolves(t, steps);
    var id := a.ticket.uploadId;
    assert RowEvolves(t.uploads[id], Run(t, steps).uploads[id]);
  }

  /** Everything ever claimed was claimed inside its attachment window and is a small enough JPEG. */
  lemma ClaimedImagesAreTimelyAndSmall(cfg: Config, storage: StorageContext, clock: Time, steps: seq<Step>)
    requires ValidConfig(cfg)
    ensures var s := Run(Start(cfg, storage, clock), steps);
            forall id :: id in s.uploads && s.uploads[id].claim.Some? ==>
              && s.uploads[id].verified.Some?
              && var v := s.uploads[id].verified.value;
                 && s.uploads[id].claim.value.at < v.providerCreatedAt + cfg.attachmentMs
                 && v.format == "jpg" && v.pages == 1
                 && 1 <= v.width <= MaxEdge(s.uploads[id].purpose) && 1 <= v.height <= MaxEdge(s.uploads[id].purpose)
                 && v.providerCreatedAt <= s.uploads[id].signatureExpiresAt
  {
    var s := Run(Start(cfg, storage, clock), steps);
    StartHolds(cfg, storage, clock);
    RunKeeps(Start(cfg, storage, clock), steps);
    RunEvolves(Start(cfg, storage, clock), steps);
    forall id | id in s.uploads ensures RowOk(s.cfg, id, s.uploads[id]) { RowHolds(s, id); }
  }

  // ---- When a replacement is accepted ------------------------------------------------------------------

  /** What a caller can check before asking to put `r.uploadId` on an existing asset. */
  predicate ReplacementIsDue(s: World, r: ClaimRequest, now: Time) {
    && r.permitted && r.uploadId in s.uploads && r.target in s.assets
    && var u := s.uploads[r.uploadId];
       && u.uploader == r.actor && u.purpose == r.purpose && u.target == Some(r.target) && r.token.None?
       && u.status.VerifiedPending? && u.verified.Some?
       && now < u.verified.value.attachmentExpiresAt && u.verified.value.version >= 1
       && u.identity.context == s.storage
  }

  /**
   * In every reachable state a replacement is saved exactly when it is due and the asset row has not
   * moved: the image already on the asset never stands in the way, because its record is always
   * complete and its upload can always be found and superseded.
   */
  lemma ReplacementsSucceedExactlyWhenDue(cfg: Config, storage: StorageContext, clock: Time, steps: seq<Step>,
                                          r: ClaimRequest, now: Time, unmoved: bool)
    requires ValidConfig(cfg)
    requires r.purpose.AssetImage? && r.operation.UpdateTarget? && now <= Run(Start(cfg, storage, clock), steps).clock
    ensures var s := Run(Start(cfg, storage, clock), steps);
            ReplaceAssetImage(s, r, now, unmoved).1.Saved? <==> unmoved && ReplacementIsDue(s, r, now)
  {
    hide ObjectsOk, TicketsOk, WorkersOk, LogsOk;
    var s := Run(Start(cfg, storage, clock), steps);
    StartHolds(cfg, storage, clock);
    RunKeeps(Start(cfg, storage, clock), steps);
    if r.uploadId in s.uploads && r.target in s.assets {
      DueClaimIsNotRefused(s, r, now);
      var row := s.assets[r.target];
      if row.locator.Some? && ClaimRefusal(s, r, row.locator, row.imageUrl, now).None? {
        RowHolds(s, r.uploadId);
        var out := AttachmentOf(s, r.target);
        ReplacementFindsItsPredecessor(s, r, now, out);
      }
    }
  }

  lemma DueClaimIsNotRefused(s: World, r: ClaimRequest, now: Time)
    requires RowsOk(s) && AttachmentsOk(s) && r.purpose.AssetImage? && r.operation.UpdateTarget?
    requires r.uploadId in s.uploads && r.target in s.assets
    ensures var row := s.assets[r.target];
            (ClaimRefusal(s, r, row.locator, row.imageUrl, now).None? && s.uploads[r.uploadId].verified.value.version >= 1)
            <==> ReplacementIsDue(s, r, now)
  {
  }

  lemma ReplacementFindsItsPredecessor(s: World, r: ClaimRequest, now: Time, out: UploadId)
    requires RowsOk(s) && r.uploadId in s.uploads && r.target in s.assets && AttachedTo(s, r.target, out)
    requires s.uploads[r.uploadId].status.VerifiedPending?
    ensures HasPredecessor(MarkClaimed(s, r, now), s.assets[r.target].locator.value, r.target)
  {
    RowHolds(s, out);
    var s1 := MarkClaimed(s, r, now);
    assert IsPredecessor(s1.uploads[out], s.assets[r.target].locator.value, r.target);
  }
}
