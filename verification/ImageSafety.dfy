/** What holds of every run of the image services, from an empty database on. */
module ImageSafety {
  import opened Prelude
  import opened ImagePolicy
  import opened ImageState
  import opened ImageTransactions
  import opened ImageProtocol
  import opened ImageInvariant

  // ---- Rows only move forward ---------------------------------------------------------------------

  /** What was fixed when the intent was authorised. */
  predicate SameIntent(u: Upload, v: Upload) {
    v == u.(attempts := v.attempts, status := v.status, verified := v.verified, claim := v.claim)
  }

  predicate Onward(a: UploadStatus, b: UploadStatus) {
    || a == b
    || a.Authorized?
    || (a.VerifiedPending? && (b.Claimed? || b.Superseded? || b.Expired?))
    || (a.Claimed? && b.Superseded?)
  }

  predicate RowEvolves(u: Upload, v: Upload) {
    && SameIntent(u, v) && Onward(u.status, v.status) && u.attempts <= v.attempts
    && (u.verified.Some? ==> v.verified == u.verified)
    && (u.claim.Some? ==> v.claim == u.claim)
  }

  predicate CleanupEvolves(c: Cleanup, d: Cleanup) {
    d.uploadId == c.uploadId && d.eligibleAt == c.eligibleAt && (c.status.Completed? ==> d == c)
  }

  predicate Evolves(s: World, t: World) {
    && t.cfg == s.cfg && s.clock <= t.clock
    && (forall id :: id in s.uploads ==> id in t.uploads && RowEvolves(s.uploads[id], t.uploads[id]))
    && (forall k :: k in s.cleanups ==> k in t.cleanups && CleanupEvolves(s.cleanups[k], t.cleanups[k]))
    && s.assets.Keys <= t.assets.Keys
    && s.jobs <= t.jobs && s.deletions <= t.deletions && s.calls <= t.calls && s.answers <= t.answers
    && s.finished <= t.finished && s.acceptances <= t.acceptances
  }

  lemma EvolvesTransitively(s: World, t: World, w: World)
    requires Evolves(s, t) && Evolves(t, w)
    ensures Evolves(s, w)
  {
    forall id | id in s.uploads ensures id in w.uploads && RowEvolves(s.uploads[id], w.uploads[id]) {
      assert RowEvolves(t.uploads[id], w.uploads[id]);
    }
    forall k | k in s.cleanups ensures k in w.cleanups && CleanupEvolves(s.cleanups[k], w.cleanups[k]) {
      assert CleanupEvolves(t.cleanups[k], w.cleanups[k]);
    }
  }

  /** One upload row and the queue move; everything else stands still. */
  lemma RowWriteEvolves(s: World, id: UploadId, u: Upload, cleanups: map<Identity, Cleanup>)
    requires id in s.uploads ==> RowEvolves(s.uploads[id], u)
    requires forall k :: k in s.cleanups ==> k in cleanups && CleanupEvolves(s.cleanups[k], cleanups[k])
    ensures Evolves(s, s.(uploads := s.uploads[id := u], cleanups := cleanups))
  {
  }

  lemma EnqueueEvolves(s: World, id: UploadId, u: Upload, reason: CleanupReason, eligibleAt: Time, version: Option<int>)
    requires CleanupsOk(s)
    ensures var q := Enqueue(s.cleanups, id, u, reason, eligibleAt, version);
            forall k :: k in s.cleanups ==> k in q && CleanupEvolves(s.cleanups[k], q[k])
  {
  }

  lemma RetiringEvolves(s: World, step: Step)
    requires Inv(s) && (step.ExpireStep? || step.RejectStep?)
    ensures Evolves(s, Apply(s, step))
  {
    hide RowsOk, CleanupsOk, AttachmentsOk, ObjectsOk, TicketsOk, WorkersOk, LogsOk;
    var t := Apply(s, step);
    if t == s {
      SelfEvolves(s);
    } else if step.ExpireStep? {
      var u := s.uploads[step.id];
      EnqueueEvolves(s, step.id, u, ExpiryReason(u, step.now).value, ExpiredEligibleAt(u, step.now), VersionOf(u));
      RowWriteEvolves(s, step.id, t.uploads[step.id], t.cleanups);
    } else {
      var u := s.uploads[step.id];
      EnqueueEvolves(s, step.id, u, RejectedUpload, u.reconciliationAfter, None);
      RowWriteEvolves(s, step.id, t.uploads[step.id], t.cleanups);
    }
  }

  /** Logs only grow, and the provider's side may do as it likes. */
  lemma SideTablesEvolve(s: World, t: World, w: World)
    requires Evolves(s, t) && t.clock <= w.clock
    requires w == t.(clock := w.clock, storage := w.storage, objects := w.objects, arrived := w.arrived,
                     tickets := w.tickets, calls := w.calls, answers := w.answers, jobs := w.jobs,
                     finished := w.finished, deletions := w.deletions, acceptances := w.acceptances)
    requires t.calls <= w.calls && t.answers <= w.answers && t.finished <= w.finished
    requires t.jobs <= w.jobs && t.deletions <= w.deletions && t.acceptances <= w.acceptances
    ensures Evolves(s, w)
  {
  }

  lemma VerifyingEvolves(s: World, step: Step)
    requires Inv(s) && (step.ReserveStep? || step.CommitStep? || step.Intend?)
    ensures Evolves(s, Apply(s, step))
  {
    hide RowsOk, CleanupsOk, AttachmentsOk, ObjectsOk, TicketsOk, WorkersOk, LogsOk;
    var t := Apply(s, step);
    SelfEvolves(s);
    if t != s {
      var id := if step.CommitStep? then step.answer.ticket.uploadId else step.id;
      if id in s.uploads { RowHolds(s, id); }
      RowWriteEvolves(s, id, t.uploads[id], s.cleanups);
      hide Evolves;
      SideTablesEvolve(s, s.(uploads := s.uploads[id := t.uploads[id]], cleanups := s.cleanups), t);
    }
  }

  lemma OtherStepEvolves(s: World, step: Step)
    requires step.Tick? || step.SwitchStorage? || step.Receive? || step.ObjectArrives? || step.AskStep? || step.DeleteStep?
             || step.CreatePlain? || step.EditUrl?
    ensures Evolves(s, Apply(s, step))
  {
    SelfEvolves(s);
    hide Evolves;
    if Apply(s, step) != s {
      if step.CreatePlain? || step.EditUrl? {
        AssetWriteEvolves(s, s, step.asset, AssetRow(None, step.url));
      } else {
        SideTablesEvolve(s, s, Apply(s, step));
      }
    }
  }

  lemma QueueWriteEvolves(s: World, k: Identity, c: Cleanup)
    requires k in s.cleanups && CleanupEvolves(s.cleanups[k], c)
    ensures Evolves(s, s.(cleanups := s.cleanups[k := c]))
  {
  }

  lemma LeaseEvolves(s: World, step: Step)
    requires step.LeaseStep?
    ensures Evolves(s, Apply(s, step))
  {
    hide Referenced, UploadStillLive, Evolves;
    var t := AcquireLease(s, step.identity, step.now, step.token).0;
    SelfEvolves(s);
    if t != s {
      var k := step.identity;
      QueueWriteEvolves(s, k, t.cleanups[k]);
      SideTablesEvolve(s, s.(cleanups := s.cleanups[k := t.cleanups[k]]), t);
    }
  }

  lemma OutcomeEvolves(s: World, step: Step)
    requires step.CompleteStep? || step.RetryStep?
    ensures Evolves(s, Apply(s, step))
  {
    hide RetryDelay;
    var t := Apply(s, step);
    SelfEvolves(s);
    if t != s {
      var k := step.job.identity;
      QueueWriteEvolves(s, k, t.cleanups[k]);
      assert t == s.(cleanups := s.cleanups[k := t.cleanups[k]]);
    }
  }

  lemma SupersedeEvolves(s: World, id: UploadId, version: int, now: Time)
    requires CleanupsOk(s) && id in s.uploads && s.uploads[id].status.Claimed?
    ensures Evolves(s, Supersede(s, id, version, now))
  {
    hide CleanupsOk;
    var u := s.uploads[id];
    EnqueueEvolves(s, id, u, SupersededAttachment, Max(now, u.reconciliationAfter), Some(version));
    var t := Supersede(s, id, version, now);
    RowWriteEvolves(s, id, t.uploads[id], t.cleanups);
  }

  lemma ClaimEvolves(s: World, r: ClaimRequest, previous: Option<Locator>, url: Option<Url>, now: Time)
    requires RowsOk(s) && CleanupsOk(s)
    ensures Evolves(s, ClaimUpload(s, r, previous, url, now).0)
  {
    hide RowsOk, CleanupsOk;
    if ClaimRefusal(s, r, previous, url, now).Some? {
      SelfEvolves(s);
    } else {
      RowHolds(s, r.uploadId);
      var s1 := MarkClaimed(s, r, now);
      RowWriteEvolves(s, r.uploadId, s1.uploads[r.uploadId], s1.cleanups);
      if previous.Some? && HasPredecessor(s1, previous.value, r.target) {
        var out := Predecessor(s1, previous.value, r.target);
        QueueFollowsRows(s, s1, r.uploadId);
        SupersedeEvolves(s1, out, previous.value.version, now);
        EvolvesTransitively(s, s1, Supersede(s1, out, previous.value.version, now));
      } else {
        SelfEvolves(s);
      }
    }
  }

  lemma QueueFollowsRows(s: World, t: World, id: UploadId)
    requires CleanupsOk(s) && id in s.uploads && !Terminal(s.uploads[id].status)
    requires id in t.uploads && t == s.(uploads := s.uploads[id := t.uploads[id]]) && !Terminal(t.uploads[id].status)
    ensures CleanupsOk(t)
  {
  }

  /** Showing a new image on an asset hides no other change. */
  lemma AssetWriteEvolves(s: World, t: World, a: AssetId, row: AssetRow)
    requires Evolves(s, t) && s.assets.Keys <= t.assets.Keys
    ensures Evolves(s, t.(assets := t.assets[a := row]))
  {
  }

  lemma ClaimingEvolves(s: World, step: Step)
    requires Inv(s) && (step.CreateStep? || step.ReplaceStep?)
    ensures Evolves(s, Apply(s, step))
  {
    hide RowsOk, CleanupsOk, AttachmentsOk, ObjectsOk, TicketsOk, WorkersOk, LogsOk;
    var r := step.request;
    SelfEvolves(s);
    if step.CreateStep? {
      ClaimEvolves(s, r, None, None, step.now);
      hide Evolves, ClaimUpload;
      var claimed := ClaimUpload(s, r, None, None, step.now);
      if Apply(s, step) != s {
        ClaimLeavesAssets(s, r, None, None, step.now);
        AssetWriteEvolves(s, claimed.0, r.target, Apply(s, step).assets[r.target]);
      }
    } else if r.target in s.assets {
      ClaimEvolves(s, r, s.assets[r.target].locator, s.assets[r.target].imageUrl, step.now);
      hide Evolves, ClaimUpload;
      var claimed := ClaimUpload(s, r, s.assets[r.target].locator, s.assets[r.target].imageUrl, step.now);
      if Apply(s, step) != s {
        ClaimLeavesAssets(s, r, s.assets[r.target].locator, s.assets[r.target].imageUrl, step.now);
        AssetWriteEvolves(s, claimed.0, r.target, Apply(s, step).assets[r.target]);
      }
    }
  }

  lemma ClaimLeavesAssets(s: World, r: ClaimRequest, previous: Option<Locator>, url: Option<Url>, now: Time)
    ensures ClaimUpload(s, r, previous, url, now).0.assets == s.assets
  {
  }

  lemma StepEvolves(s: World, step: Step)
    requires Inv(s)
    ensures Evolves(s, Apply(s, step))
  {
    hide Inv, Evolves, Apply;
    if step.CreateStep? || step.ReplaceStep? {
      ClaimingEvolves(s, step);
    } else if step.ExpireStep? || step.RejectStep? {
      RetiringEvolves(s, step);
    } else if step.ReserveStep? || step.CommitStep? || step.Intend? {
      VerifyingEvolves(s, step);
    } else if step.LeaseStep? {
      LeaseEvolves(s, step);
    } else if step.CompleteStep? || step.RetryStep? {
      OutcomeEvolves(s, step);
    } else {
      OtherStepEvolves(s, step);
    }
  }

  lemma {:induction false} RunEvolves(s: World, steps: seq<Step>)
    requires Inv(s)
    ensures Inv(Run(s, steps)) && Evolves(s, Run(s, steps))
    decreases |steps|
  {
    hide Inv, Apply, Evolves;
    if steps == [] {
      SelfEvolves(s);
    } else {
      var t := Apply(s, steps[0]);
      StepKeeps(s, steps[0]);
      StepEvolves(s, steps[0]);
      RunEvolves(t, steps[1..]);
      EvolvesTransitively(s, t, Run(t, steps[1..]));
    }
  }

  lemma SelfEvolves(s: World)
    ensures Evolves(s, s)
  {
  }

  // ---- Cleanup never takes an image a record shows -----------------------------------------------

  /** The upload a lease was granted for is over, and was over before anything could still arrive. */
  lemma JobsAreForFinishedUploads(s: World, job: Job)
    requires Inv(s) && job in s.jobs
    ensures job.uploadId.Some? && job.uploadId.value in s.uploads
    ensures var u := s.uploads[job.uploadId.value];
            && Terminal(u.status) && u.identity == job.identity
            && Max(u.signatureExpiresAt, u.intentExpiresAt) + MIN_SETTLEMENT_MS <= s.clock
  {
  }

  lemma FinishedUploadsAreNotShown(s: World, id: UploadId, a: AssetId)
    requires RowsOk(s) && AttachmentsOk(s) && id in s.uploads && Terminal(s.uploads[id].status)
    requires a in s.assets && s.assets[a].locator.Some?
    ensures KeyOf(s.assets[a].locator.value.identity) != KeyOf(s.uploads[id].identity)
  {
    var i := AttachmentOf(s, a);
    RowHolds(s, i);
    RowHolds(s, id);
    if KeyOf(s.assets[a].locator.value.identity) == KeyOf(s.uploads[id].identity) {
      SameIdentity(s, i, id);
    }
  }

  /**
   * However the services interleave, when a worker calls the provider to delete an object, lease
   * expired or not, the upload it belongs to is over and stays so, and neither then nor at any later
   * time does an asset show an image stored under that object.
   */
  lemma NoShownImageIsDeleted(cfg: Config, storage: StorageContext, clock: Time,
                              before: seq<Step>, job: Job, outcome: DeleteOutcome, later: seq<Step>)
    requires ValidConfig(cfg)
    requires DeletionAllowed(Run(Start(cfg, storage, clock), before), job)
    ensures var s := Run(Start(cfg, storage, clock), before);
            var w := Run(Apply(s, DeleteStep(job, outcome)), later);
            && job.uploadId.Some? && job.uploadId.value in s.uploads && job.uploadId.value in w.uploads
            && Terminal(s.uploads[job.uploadId.value].status)
            && w.uploads[job.uploadId.value].status == s.uploads[job.uploadId.value].status
            && (forall a :: a in s.assets && s.assets[a].locator.Some? ==>
                  KeyOf(s.assets[a].locator.value.identity) != KeyOf(job.identity))
            && (forall a :: a in w.assets && w.assets[a].locator.Some? ==>
                  KeyOf(w.assets[a].locator.value.identity) != KeyOf(job.identity))
  {
    hide RowsOk, CleanupsOk, AttachmentsOk, ObjectsOk, TicketsOk, WorkersOk, LogsOk;
    var s0 := Start(cfg, storage, clock);
    var s := Run(s0, before);
    var t := Apply(s, DeleteStep(job, outcome));
    var w := Run(t, later);
    StartHolds(cfg, storage, clock);
    RunKeeps(s0, before);
    JobsAreForFinishedUploads(s, job);
    StepKeeps(s, DeleteStep(job, outcome));
    RunEvolves(t, later);
    NothingShows(s, job.uploadId.value);
    NothingShows(w, job.uploadId.value);
  }

  lemma NothingShows(s: World, id: UploadId)
    requires Inv(s) && id in s.uploads && Terminal(s.uploads[id].status)
    ensures forall a :: a in s.assets && s.assets[a].locator.Some? ==>
              KeyOf(s.assets[a].locator.value.identity) != KeyOf(s.uploads[id].identity)
  {
    hide RowsOk, CleanupsOk, AttachmentsOk, ObjectsOk, TicketsOk, WorkersOk, LogsOk;
    forall a | a in s.assets && s.assets[a].locator.Some?
      ensures KeyOf(s.assets[a].locator.value.identity) != KeyOf(s.uploads[id].identity)
    {
      FinishedUploadsAreNotShown(s, id, a);
    }
  }

  /** In every reachable state the provider still holds every image an asset shows. */
  lemma ShownImagesAreHeld(cfg: Config, storage: StorageContext, clock: Time, steps: seq<Step>)
    requires ValidConfig(cfg)
    ensures var s := Run(Start(cfg, storage, clock), steps);
            forall a :: a in s.assets && s.assets[a].locator.Some? ==>
              KeyOf(s.assets[a].locator.value.identity) in s.objects
  {
    var s := Run(Start(cfg, storage, clock), steps);
    StartHolds(cfg, storage, clock);
    RunKeeps(Start(cfg, storage, clock), steps);
    forall a | a in s.assets && s.assets[a].locator.Some?
      ensures KeyOf(s.assets[a].locator.value.identity) in s.objects
    {
      AttachedImageIsHeld(s, a);
    }
  }

  lemma AttachedImageIsHeld(s: World, a: AssetId)
    requires RowsOk(s) && AttachmentsOk(s) && ObjectsOk(s) && a in s.assets && s.assets[a].locator.Some?
    ensures KeyOf(s.assets[a].locator.value.identity) in s.objects
  {
  }

  /** Every deletion ever started came at least a minute after the last instant bytes could be accepted. */
  lemma DeletionsStartAfterSettlement(cfg: Config, storage: StorageContext, clock: Time, steps: seq<Step>)
    requires ValidConfig(cfg)
    ensures var s := Run(Start(cfg, storage, clock), steps);
            forall d :: d in s.deletions ==>
              && d.job.uploadId.Some? && d.job.uploadId.value in s.uploads
              && (var u := s.uploads[d.job.uploadId.value];
                  Max(u.signatureExpiresAt, u.intentExpiresAt) + 60_000 <= d.at)
              && forall a :: a in s.acceptances && a.uploadId == d.job.uploadId.value ==> a.at + 60_000 < d.at
  {
    var s := Run(Start(cfg, storage, clock), steps);
    StartHolds(cfg, storage, clock);
    RunKeeps(Start(cfg, storage, clock), steps);
    forall d | d in s.deletions
      ensures && d.job.uploadId.Some? && d.job.uploadId.value in s.uploads
              && (var u := s.uploads[d.job.uploadId.value];
                  Max(u.signatureExpiresAt, u.intentExpiresAt) + 60_000 <= d.at)
              && forall a :: a in s.acceptances && a.uploadId == d.job.uploadId.value ==> a.at + 60_000 < d.at
    {
      DeletionIsLate(s, d);
    }
  }

  lemma DeletionIsLate(s: World, d: Deletion)
    requires Inv(s) && d in s.deletions
    ensures d.job.uploadId.Some? && d.job.uploadId.value in s.uploads
    ensures var u := s.uploads[d.job.uploadId.value]; Max(u.signatureExpiresAt, u.intentExpiresAt) + 60_000 <= d.at
    ensures forall a :: a in s.acceptances && a.uploadId == d.job.uploadId.value ==> a.at + 60_000 < d.at
  {
  }

  // ---- Exactly-once attachment -------------------------------------------------------------------

  /** Managed images and claimed uploads correspond one to one, with the claim naming the asset. */
  lemma AttachmentsAreOneToOne(cfg: Config, storage: StorageContext, clock: Time, steps: seq<Step>)
    requires ValidConfig(cfg)
    ensures var s := Run(Start(cfg, storage, clock), steps);
            && (forall a :: a in s.assets && s.assets[a].locator.Some? ==>
                  exists id :: id in s.uploads && AttachedTo(s, a, id)
                               && forall other :: other in s.uploads && AttachedTo(s, a, other) ==> other == id)
            && (forall id :: id in s.uploads && s.uploads[id].status.Claimed? ==>
                  exists a :: a in s.assets && AttachedTo(s, a, id)
                              && forall b :: b in s.assets && b != a ==> !Shows(s, b, s.uploads[id].identity))
  {
    var s := Run(Start(cfg, storage, clock), steps);
    StartHolds(cfg, storage, clock);
    RunKeeps(Start(cfg, storage, clock), steps);
    forall a | a in s.assets && s.assets[a].locator.Some?
      ensures exists id :: id in s.uploads && AttachedTo(s, a, id)
                           && forall other :: other in s.uploads && AttachedTo(s, a, other) ==> other == id
    {
      var id := AttachmentOf(s, a);
      AttachmentIsUnique(s, a);
    }
    forall id | id in s.uploads && s.uploads[id].status.Claimed?
      ensures exists a :: a in s.assets && AttachedTo(s, a, id)
                          && forall b :: b in s.assets && b != a ==> !Shows(s, b, s.uploads[id].identity)
    {
      ClaimedUploadIsShownOnce(s, id);
    }
  }

  lemma ClaimedUploadIsShownOnce(s: World, id: UploadId)
    requires RowsOk(s) && AttachmentsOk(s) && id in s.uploads && s.uploads[id].status.Claimed?
    ensures exists a :: a in s.assets && AttachedTo(s, a, id)
                        && forall b :: b in s.assets && b != a ==> !Shows(s, b, s.uploads[id].identity)
  {
    var a := s.uploads[id].claim.value.target;
    forall b | b in s.assets && Shows(s, b, s.uploads[id].identity) ensures b == a {
      var i := AttachmentOf(s, b);
      RowHolds(s, i);
      RowHolds(s, id);
      SameIdentity(s, i, id);
    }
    assert AttachedTo(s, a, id);
  }

  /** `step` turns upload `id` into a new asset. */
  ghost predicate Creates(s: World, step: Step, id: UploadId) {
    step.CreateStep? && step.request.uploadId == id && CreateAssetWithImage(s, step.request, step.now).1.Saved?
  }

  ghost function Creations(s: World, steps: seq<Step>, id: UploadId): nat
    decreases |steps|
  {
    if steps == [] then 0
    else (if Creates(s, steps[0], id) then 1 else 0) + Creations(Apply(s, steps[0]), steps[1..], id)
  }

  lemma {:induction false} ClaimedUploadsCreateNothing(s: World, steps: seq<Step>, id: UploadId)
    requires Inv(s) && id in s.uploads && (s.uploads[id].status.Claimed? || s.uploads[id].status.Superseded?)
    ensures Creations(s, steps, id) == 0
    decreases |steps|
  {
    hide Inv, Apply;
    if steps != [] {
      StepKeeps(s, steps[0]);
      StepEvolves(s, steps[0]);
      ClaimedUploadsCreateNothing(Apply(s, steps[0]), steps[1..], id);
    }
  }

  lemma CreatedIsClaimed(s: World, step: Step, id: UploadId)
    requires Creates(s, step, id)
    ensures id in s.uploads && id in Apply(s, step).uploads
    ensures Apply(s, step).uploads[id].status.Claimed?
    ensures Apply(s, step).uploads[id].claim == Some(ClaimRecord(step.request.target, step.now, step.request.fingerprint))
    ensures step.request.target !in s.assets && step.request.target in Apply(s, step).assets
  {
  }

  /** Over a whole run, one upload becomes at most one new asset. */
  lemma {:induction false} AtMostOneAssetPerUpload(s: World, steps: seq<Step>, id: UploadId)
    requires Inv(s)
    ensures Creations(s, steps, id) <= 1
    decreases |steps|
  {
    hide Inv, Apply;
    if steps != [] {
      StepKeeps(s, steps[0]);
      if Creates(s, steps[0], id) {
        CreatedIsClaimed(s, steps[0], id);
        ClaimedUploadsCreateNothing(Apply(s, steps[0]), steps[1..], id);
      } else {
        AtMostOneAssetPerUpload(Apply(s, steps[0]), steps[1..], id);
      }
    }
  }

  /**
   * Once a create request has won, every later create request for that upload by the same user with
   * the same creation token changes nothing: it answers with the winner's asset when its
   * fingerprint is the winner's, and is refused when it is not.
   */
  lemma LaterCreatesReplayTheWinner(s: World, r: ClaimRequest, now: Time, steps: seq<Step>, retry: ClaimRequest, when: Time)
    requires Inv(s) && Creates(s, CreateStep(r, now), r.uploadId)
    requires retry == r.(target := retry.target, fingerprint := retry.fingerprint)
    requires when <= Run(Apply(s, CreateStep(r, now)), steps).clock
    ensures var w := Run(Apply(s, CreateStep(r, now)), steps);
            CreateAssetWithImage(w, retry, when) ==
              (w, if retry.fingerprint == r.fingerprint then ReplayedSave(r.target) else Failed(NotClaimable))
    ensures var w := Run(Apply(s, CreateStep(r, now)), steps);
            PriorTarget(w, retry) == if retry.fingerprint == r.fingerprint then Ok(Some(r.target)) else Err(NotClaimable)
  {
    hide Inv;
    var t := Apply(s, CreateStep(r, now));
    StepKeeps(s, CreateStep(r, now));
    CreatedIsClaimed(s, CreateStep(r, now), r.uploadId);
    StepEvolves(s, CreateStep(r, now));
    RunEvolves(t, steps);
    var w := Run(t, steps);
    assert RowEvolves(s.uploads[r.uploadId], t.uploads[r.uploadId]);
    assert RowEvolves(t.uploads[r.uploadId], w.uploads[r.uploadId]);
  }

  /** A claim names one asset for good. */
  lemma ClaimsArePermanent(s: World, steps: seq<Step>, id: UploadId)
    requires Inv(s) && id in s.uploads && s.uploads[id].claim.Some?
    ensures id in Run(s, steps).uploads && Run(s, steps).uploads[id].claim == s.uploads[id].claim
  {
    RunEvolves(s, steps);
    assert RowEvolves(s.uploads[id], Run(s, steps).uploads[id]);
  }
}
