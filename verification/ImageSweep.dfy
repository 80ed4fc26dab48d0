/** The cleanup sweep: expire what is due, pick a batch, and take each object through its lease. */
module ImageSweep {
  import opened Prelude
  import opened ImagePolicy
  import opened ImageState
  import opened ImageTransactions
  import opened ImageProtocol
  import opened ImageInvariant
  import opened ImageSafety
  import opened ImageDatabase
  import opened ImageServices
  import opened ImageWorkers
  import opened ImageOperations
  import opened ImageTerms

  /** Everything about one object's turn that the sweep does not decide. */
  datatype Turn = Turn(beforeLease: seq<Step>, beforeDelete: seq<Step>, beforeRecord: seq<Step>,
                       token: Token, outcome: DeleteOutcome, jitter: nat)

  datatype Verdict = Skipped | KeptReference | PutOff | Deleted | FailedToDelete

  /** One object's turn as a function: lease, delete, record, with the other processes' steps between. */
  ghost function TakeTurn(s: World, k: Identity, now: Time, turn: Turn): (World, Verdict) {
    var s1 := Run(s, turn.beforeLease);
    var (s2, lease) := AcquireLease(s1, k, now, turn.token);
    match lease
    case NoLease => (s2, Skipped)
    case RetainedReference => (s2, KeptReference)
    case DeferredUpload => (s2, PutOff)
    case Granted(job) =>
      var s3 := Run(s2, turn.beforeDelete);
      var s4 := DeleteObjects(s3, job, turn.outcome);
      var s5 := Run(s4, turn.beforeRecord);
      if DeletionAllowed(s3, job) && turn.outcome.ObjectsGone? then (MarkCompleted(s5, job, now), Deleted)
      else (ScheduleRetry(s5, job, now, turn.jitter), FailedToDelete)
  }

  ghost function TakeTurns(s: World, ks: seq<Identity>, now: Time, turns: seq<Turn>): (World, seq<Verdict>)
    requires |turns| == |ks|
    decreases |ks|
  {
    if ks == [] then (s, [])
    else
      var last := |ks| - 1;
      var (s1, vs) := TakeTurns(s, ks[..last], now, turns[..last]);
      var (s2, v) := TakeTurn(s1, ks[last], now, turns[last]);
      (s2, vs + [v])
  }

  lemma WithoutNothing(steps: seq<Step>)
    ensures Without(steps, None) == steps
  {
  }

  lemma ApplyWorker(s: World, k: Identity, now: Time, token: Token, job: Job, outcome: DeleteOutcome, jitter: nat)
    ensures Apply(s, LeaseStep(k, now, token)) == AcquireLease(s, k, now, token).0
    ensures Apply(s, DeleteStep(job, outcome)) == DeleteObjects(s, job, outcome)
    ensures Apply(s, CompleteStep(job, now)) == MarkCompleted(s, job, now)
    ensures Apply(s, RetryStep(job, now, jitter)) == ScheduleRetry(s, job, now, jitter)
  {
  }

  lemma GrantedJobIsKept(s: World, k: Identity, now: Time, token: Token)
    ensures AcquireLease(s, k, now, token).1.Granted? ==>
              AcquireLease(s, k, now, token).1.job in AcquireLease(s, k, now, token).0.jobs
  {
  }

  /** What a process may rely on after others have run. */
  lemma Since(s: World, steps: seq<Step>, t: World)
    requires Reaches(s, steps, t)
    ensures Inv(t) && t == Run(s, steps) && s.clock <= t.clock && s.jobs <= t.jobs && s.finished <= t.finished && t.cfg == s.cfg
  {
    hide Inv, Run;
  }

  method TurnOf(db: Database, k: Identity, now: Time, turn: Turn) returns (verdict: Verdict)
    requires Inv(db.State()) && now <= db.clock && turn.jitter <= 400
    modifies db
    ensures (db.State(), verdict) == TakeTurn(old(db.State()), k, now, turn)
    ensures Inv(db.State()) && old(db.clock) <= db.clock
  {
    hide Inv, Evolves, Run, Reaches, Apply, AcquireLease, DeleteObjects, MarkCompleted, ScheduleRetry, DeletionAllowed;
    WithoutNothing(turn.beforeLease);
    RunOthers(db, turn.beforeLease, None);
    ghost var s1 := db.State();
    Since(old(db.State()), turn.beforeLease, s1);
    OneStep(s1, LeaseStep(k, now, turn.token));
    var lease := Lease(db, k, now, turn.token);
    ghost var s2 := db.State();
    ApplyWorker(s1, k, now, turn.token, Job(k, None, 0, 0), turn.outcome, turn.jitter);
    GrantedJobIsKept(s1, k, now, turn.token);
    Since(s1, [LeaseStep(k, now, turn.token)], s2);
    match lease
    case NoLease => return Skipped;
    case RetainedReference => return KeptReference;
    case DeferredUpload => return PutOff;
    case Granted(job) => verdict := DeleteAndRecord(db, job, now, turn);
  }

  method DeleteAndRecord(db: Database, job: Job, now: Time, turn: Turn) returns (verdict: Verdict)
    requires Inv(db.State()) && now <= db.clock && turn.jitter <= 400 && job in db.jobs
    modifies db
    ensures var s3 := Run(old(db.State()), turn.beforeDelete);
            var s5 := Run(DeleteObjects(s3, job, turn.outcome), turn.beforeRecord);
            (db.State(), verdict) ==
            if DeletionAllowed(s3, job) && turn.outcome.ObjectsGone? then (MarkCompleted(s5, job, now), Deleted)
            else (ScheduleRetry(s5, job, now, turn.jitter), FailedToDelete)
    ensures Inv(db.State()) && old(db.clock) <= db.clock
  {
    ConfigHolds(db.State());
    hide Inv, Evolves, Run, Reaches, Apply, DeleteObjects, MarkCompleted, ScheduleRetry, DeletionAllowed;
    WithoutNothing(turn.beforeDelete);
    RunOthers(db, turn.beforeDelete, None);
    ghost var s3 := db.State();
    Since(old(db.State()), turn.beforeDelete, s3);
    OneStep(s3, DeleteStep(job, turn.outcome));
    var deleted := DeleteAllocatedObject(db, job, turn.outcome);
    ghost var s4 := db.State();
    ApplyWorker(s3, job.identity, now, 0, job, turn.outcome, turn.jitter);
    Since(s3, [DeleteStep(job, turn.outcome)], s4);
    WithoutNothing(turn.beforeRecord);
    RunOthers(db, turn.beforeRecord, None);
    ghost var s5 := db.State();
    Since(s4, turn.beforeRecord, s5);
    ApplyWorker(s5, job.identity, now, 0, job, turn.outcome, turn.jitter);
    if deleted.Ok? {
      OneStep(s5, CompleteStep(job, now));
      Complete(db, job, now);
      Since(s5, [CompleteStep(job, now)], db.State());
      return Deleted;
    } else {
      OneStep(s5, RetryStep(job, now, turn.jitter));
      Reschedule(db, job, now, turn.jitter);
      Since(s5, [RetryStep(job, now, turn.jitter)], db.State());
      return FailedToDelete;
    }
  }

  lemma ConfigHolds(s: World)
    requires Inv(s)
    ensures ValidConfig(s.cfg)
  {
  }

  // ---- expireDueUploads -----------------------------------------------------------------------------------

  predicate ExpiryDue(u: Upload, now: Time) {
    ExpiryReason(u, now).Some?
  }

  ghost function ExpireAll(s: World, ids: seq<UploadId>, now: Time): World
    decreases |ids|
  {
    if ids == [] then s else Expire(ExpireAll(s, ids[..|ids| - 1], now), ids[|ids| - 1], now)
  }

  /** At most a batch of the uploads due now, and all of them if they fit. */
  method FindDueUploads(db: Database, now: Time, batchSize: nat) returns (ids: seq<UploadId>)
    ensures |ids| <= batchSize && Distinct(ids)
    ensures forall id :: id in ids ==> id in db.uploads && Overdue(db.uploads[id], now)
    ensures |ids| < batchSize ==>
              forall id :: id in db.uploads ==>
                var u := db.uploads[id];
                (u.status.Authorized? && u.intentExpiresAt <= now)
                || (u.status.VerifiedPending? && u.verified.Some? && u.verified.value.attachmentExpiresAt <= now)
                ==> id in ids
  {
    ids := [];
    while |ids| < batchSize && exists id :: id in db.uploads && ExpiryDue(db.uploads[id], now) && id !in ids
      invariant |ids| <= batchSize && Distinct(ids)
      invariant forall id :: id in ids ==> id in db.uploads && ExpiryDue(db.uploads[id], now)
      decreases batchSize - |ids|
    {
      var id :| id in db.uploads && ExpiryDue(db.uploads[id], now) && id !in ids;
      ids := ids + [id];
    }
  }

  lemma {:induction false} ExpireAllAt(s: World, ids: seq<UploadId>, now: Time, id: UploadId)
    requires now <= s.clock && id in s.uploads
    ensures var t := ExpireAll(s, ids, now);
            && t.clock == s.clock && id in t.uploads
            && t.uploads[id] == if id in ids && ExpiryDue(s.uploads[id], now) then s.uploads[id].(status := Expired) else s.uploads[id]
    decreases |ids|
  {
    if ids != [] {
      var rest := ids[..|ids| - 1];
      ExpireAllAt(s, rest, now, id);
      assert ids == rest + [ids[|ids| - 1]];
    }
  }

  lemma {:induction false} ExpiringReaches(s: World, ids: seq<UploadId>, now: Time)
    requires Inv(s)
    ensures Inv(ExpireAll(s, ids, now)) && s.clock <= ExpireAll(s, ids, now).clock && ExpireAll(s, ids, now).cfg == s.cfg
    decreases |ids|
  {
    hide Inv;
    if ids != [] {
      var t := ExpireAll(s, ids[..|ids| - 1], now);
      ExpiringReaches(s, ids[..|ids| - 1], now);
      StepKeeps(t, ExpireStep(ids[|ids| - 1], now));
    }
  }

  lemma {:induction false} NothingAppears(s: World, ids: seq<UploadId>, now: Time)
    ensures ExpireAll(s, ids, now).uploads.Keys == s.uploads.Keys
    decreases |ids|
  {
    if ids != [] { NothingAppears(s, ids[..|ids| - 1], now); }
  }

  /** The object of upload `id`, queued by nobody before, is queued for the reason and from the time it should be. */
  predicate NewlyQueued(s: World, t: World, id: UploadId, now: Time) {
    && id in s.uploads
    && var u := s.uploads[id];
       && u.identity !in s.cleanups && u.identity in t.cleanups
       && t.cleanups[u.identity] == Cleanup(Some(id), if u.verified.Some? then Some(u.verified.value.version) else None,
                                            if u.status.Authorized? then UnreportedUpload else ExpiredUpload, Pending,
                                            DeletableFrom(u, now), 0, None, None, None, None)
  }

  lemma ExpireQueues(s: World, id: UploadId, now: Time)
    requires Inv(s) && now <= s.clock && id in s.uploads && Overdue(s.uploads[id], now)
    ensures NewlyQueued(s, Expire(s, id, now), id, now)
    ensures Expire(s, id, now).cleanups - {s.uploads[id].identity} == s.cleanups
  {
    hide RowsOk, CleanupsOk, AttachmentsOk, ObjectsOk, TicketsOk, WorkersOk, LogsOk;
    var u := s.uploads[id];
    RowHolds(s, id);
    RetireQueuesANewRow(s, id, Expired, ExpiryReason(u, now).value, ExpiredEligibleAt(u, now), VersionOf(u));
  }

  /** Each upload of the batch is queued, and nothing else in the queue changes. */
  lemma {:induction false} ExpireAllQueues(s: World, ids: seq<UploadId>, now: Time)
    requires Inv(s) && now <= s.clock && Distinct(ids) && forall id :: id in ids ==> id in s.uploads && Overdue(s.uploads[id], now)
    ensures var t := ExpireAll(s, ids, now);
            && (forall id :: id in ids ==> NewlyQueued(s, t, id, now))
            && (forall k :: k in s.cleanups ==> k in t.cleanups && t.cleanups[k] == s.cleanups[k])
            && (forall k :: k in t.cleanups && k !in s.cleanups ==> exists id :: id in ids && s.uploads[id].identity == k)
    decreases |ids|
  {
    hide Inv;
    if ids != [] {
      var rest, last := ids[..|ids| - 1], ids[|ids| - 1];
      assert ids == rest + [last];
      var t := ExpireAll(s, rest, now);
      ExpireAllQueues(s, rest, now);
      ExpiringReaches(s, rest, now);
      ExpireAllAt(s, rest, now, last);
      assert last !in rest;
      ExpireQueues(t, last, now);
      hide ExpireAll, Expire;
      assert s.uploads[last] == t.uploads[last];
    }
  }

  /** One transaction: the batch is chosen, then each row is expired and its object queued. */
  method ExpireDueUploads(db: Database, now: Time, batchSize: nat) returns (expired: nat, ghost ids: seq<UploadId>)
    requires now <= db.clock
    modifies db`uploads, db`cleanups
    ensures db.State() == ExpireAll(old(db.State()), ids, now)
    ensures expired == |ids| <= batchSize
    ensures forall id :: id in old(db.uploads) ==>
              id in db.uploads && db.uploads[id] == if id in ids then old(db.uploads[id]).(status := Expired) else old(db.uploads[id])
    ensures forall id :: id in ids ==> id in old(db.uploads) && Overdue(old(db.uploads[id]), now)
    ensures expired < batchSize ==> forall id :: id in old(db.uploads) && Overdue(old(db.uploads[id]), now) ==> id in ids
    ensures expired < batchSize ==>
              forall id :: id in db.uploads ==>
                var u := db.uploads[id];
                && !(u.status.Authorized? && u.intentExpiresAt <= now)
                && !(u.status.VerifiedPending? && u.verified.Some? && u.verified.value.attachmentExpiresAt <= now)
    ensures Inv(old(db.State())) ==>
              && (forall id :: id in ids ==> NewlyQueued(old(db.State()), db.State(), id, now))
              && (forall k :: k in old(db.cleanups) ==> k in db.cleanups && db.cleanups[k] == old(db.cleanups)[k])
              && (forall k :: k in db.cleanups && k !in old(db.cleanups) ==> exists id :: id in ids && old(db.uploads[id]).identity == k)
  {
    hide Inv, ExpireAll, Expire, NewlyQueued, Distinct;
    var due := FindDueUploads(db, now, batchSize);
    ghost var s := db.State();
    expired := ExpireEach(db, due, now);
    ids := due;
    forall id | id in s.uploads
      ensures id in db.uploads && db.uploads[id] == if id in ids then s.uploads[id].(status := Expired) else s.uploads[id]
    {
      ExpireAllAt(s, due, now, id);
    }
    NothingAppears(s, due, now);
    if Inv(s) { ExpireAllQueues(s, due, now); }
  }

  method ExpireEach(db: Database, due: seq<UploadId>, now: Time) returns (expired: nat)
    requires now <= db.clock && Distinct(due) && forall id :: id in due ==> id in db.uploads && Overdue(db.uploads[id], now)
    modifies db`uploads, db`cleanups
    ensures db.State() == ExpireAll(old(db.State()), due, now) && expired == |due|
  {
    hide Expire;
    ghost var s := db.State();
    expired := 0;
    var i := 0;
    while i < |due|
      invariant 0 <= i <= |due| && expired == i
      invariant db.State() == ExpireAll(s, due[..i], now)
    {
      ExpireAllAt(s, due[..i], now, due[i]);
      assert due[..i + 1][..i] == due[..i];
      var changed := ExpireUpload(db, due[i], now);
      if changed { expired := expired + 1; }
      i := i + 1;
    }
    assert due[..|due|] == due;
  }

  // ---- executeSweep -----------------------------------------------------------------------------------------

  method FindEligibleCleanups(db: Database, now: Time, limit: nat) returns (ks: seq<Identity>)
    ensures |ks| <= limit && Distinct(ks)
    ensures forall k :: k in ks ==> k in db.cleanups && Takeable(db.cleanups[k], now)
    ensures |ks| < limit ==> forall k :: k in db.cleanups && Takeable(db.cleanups[k], now) ==> k in ks
  {
    ks := [];
    while |ks| < limit && exists k :: k in db.cleanups && Due(db.cleanups[k], now) && k !in ks
      invariant |ks| <= limit && Distinct(ks)
      invariant forall k :: k in ks ==> k in db.cleanups && Due(db.cleanups[k], now)
      decreases limit - |ks|
    {
      var k :| k in db.cleanups && Due(db.cleanups[k], now) && k !in ks;
      ks := ks + [k];
    }
  }

  datatype SweepResult = SweepResult(expiredUploads: nat, attemptedObjects: nat, deletedOrAbsent: nat, retained: nat, deferred: nat)

  function Count(vs: seq<Verdict>, v: Verdict): nat {
    if vs == [] then 0 else Count(vs[..|vs| - 1], v) + if vs[|vs| - 1] == v then 1 else 0
  }

  ghost function Places(vs: seq<Verdict>, v: Verdict): set<int> {
    set i | 0 <= i < |vs| && vs[i] == v
  }

  lemma OnePlaceMore(vs: seq<Verdict>, v: Verdict)
    requires vs != []
    ensures var n := |vs| - 1; Places(vs, v) == Places(vs[..n], v) + if vs[n] == v then {n} else {}
  {
    var n := |vs| - 1;
    forall i ensures i in Places(vs, v) <==> i in Places(vs[..n], v) || (i == n && vs[n] == v) {
      if 0 <= i < n { assert vs[..n][i] == vs[i]; }
    }
  }

  lemma {:induction false} CountIs(vs: seq<Verdict>, v: Verdict)
    ensures Count(vs, v) == |Places(vs, v)|
  {
    if vs != [] {
      CountIs(vs[..|vs| - 1], v);
      OnePlaceMore(vs, v);
      assert |vs| - 1 !in Places(vs[..|vs| - 1], v);
      hide Places;
    }
  }

  /** In a reachable state an object's turn never finds it shown, nor its upload still live. */
  lemma TurnsAreNeverPutOff(s: World, k: Identity, now: Time, turn: Turn)
    requires Inv(s)
    ensures !TakeTurn(s, k, now, turn).1.KeptReference? && !TakeTurn(s, k, now, turn).1.PutOff?
  {
    hide Inv, Apply, Run;
    RunKeeps(s, turn.beforeLease);
    LeaseIsGrantedOrNothing(Run(s, turn.beforeLease), k, now, turn.token);
  }

  /**
   * Left alone, an object's turn takes it up exactly when its row is due and the lease token is new; it
   * then deletes it and completes the row if the account is still the configured one and the provider
   * answers, and otherwise leaves the row to be retried within the longest back-off.
   */
  lemma QuietTurnsComplete(s: World, k: Identity, now: Time, turn: Turn)
    requires Inv(s) && now <= s.clock && turn.jitter <= 400 && turn.beforeLease == turn.beforeDelete == turn.beforeRecord == []
    ensures var (t, verdict) := TakeTurn(s, k, now, turn);
            var taken := k in s.cleanups && Takeable(s.cleanups[k], now) && forall j :: j in s.jobs ==> j.token != turn.token;
            && (verdict.Skipped? <==> !taken)
            && (verdict.Deleted? <==> taken && k.context == s.storage && turn.outcome.ObjectsGone?)
            && (verdict.FailedToDelete? <==> taken && !(k.context == s.storage && turn.outcome.ObjectsGone?))
            && (verdict.Skipped? ==> t == s)
            && (verdict.Deleted? ==> k in t.cleanups && t.cleanups[k].status.Completed? && KeyOf(k) !in t.objects)
            && (verdict.FailedToDelete? ==>
                  k in t.cleanups && t.cleanups[k].status.Retry?
                  && Takeable(t.cleanups[k], now + s.cfg.maxBackoffMs) && !Takeable(t.cleanups[k], now + 799))
  {
    hide Inv, TakeTurn, AcquireLease, DeleteObjects, MarkCompleted, ScheduleRetry, DeletionAllowed, Takeable;
    QuietTurn(s, k, now, turn);
    QuietLease(s, k, now, turn.token);
    var (s2, lease) := AcquireLease(s, k, now, turn.token);
    if lease.Granted? {
      QuietDeletion(s, s2, lease.job, turn.outcome);
      var s4 := DeleteObjects(s2, lease.job, turn.outcome);
      if k.context == s.storage && turn.outcome.ObjectsGone? {
        Completes(s4, lease.job, now);
      } else {
        ConfigHolds(s);
        ComesBack(s4, lease.job, now, turn.jitter);
      }
    }
  }

  lemma QuietTurn(s: World, k: Identity, now: Time, turn: Turn)
    requires turn.beforeLease == turn.beforeDelete == turn.beforeRecord == []
    ensures var (s2, lease) := AcquireLease(s, k, now, turn.token);
            TakeTurn(s, k, now, turn) ==
              match lease
              case NoLease => (s2, Skipped)
              case RetainedReference => (s2, KeptReference)
              case DeferredUpload => (s2, PutOff)
              case Granted(job) =>
                var s4 := DeleteObjects(s2, job, turn.outcome);
                if DeletionAllowed(s2, job) && turn.outcome.ObjectsGone? then (MarkCompleted(s4, job, now), Deleted)
                else (ScheduleRetry(s4, job, now, turn.jitter), FailedToDelete)
  {
    hide AcquireLease, DeleteObjects, MarkCompleted, ScheduleRetry, DeletionAllowed;
  }

  /** A lease is granted exactly on a due row with a new token; the job then holds it. */
  lemma QuietLease(s: World, k: Identity, now: Time, token: Token)
    requires Inv(s) && now <= s.clock
    ensures var (t, lease) := AcquireLease(s, k, now, token);
            && (lease.Granted? <==> k in s.cleanups && Takeable(s.cleanups[k], now) && forall j :: j in s.jobs ==> j.token != token)
            && (lease.Granted? || (lease.NoLease? && t == s))
            && (lease.Granted? ==>
                  && lease.job.identity == k && lease.job.uploadId == s.cleanups[k].uploadId && lease.job in t.jobs && HoldsLease(t, lease.job)
                  && t == s.(cleanups := t.cleanups, jobs := t.jobs))
  {
    hide Inv;
    LeaseIsGrantedOrNothing(s, k, now, token);
    hide Referenced, UploadStillLive;
  }

  /** What it may delete, and what that leaves. */
  lemma QuietDeletion(s: World, t: World, job: Job, outcome: DeleteOutcome)
    requires Inv(s) && job in t.jobs && t == s.(cleanups := t.cleanups, jobs := t.jobs)
    requires job.identity in s.cleanups && job.uploadId == s.cleanups[job.identity].uploadId && HoldsLease(t, job)
    ensures DeletionAllowed(t, job) <==> job.identity.context == s.storage
    ensures var w := DeleteObjects(t, job, outcome);
            && w.clock == s.clock && w.cfg == s.cfg && HoldsLease(w, job) && job in w.jobs
            && (DeletionAllowed(t, job) && outcome.ObjectsGone? ==> job in w.finished && KeyOf(job.identity) !in w.objects)
  {
    hide RowsOk, CleanupsOk, AttachmentsOk, ObjectsOk, TicketsOk, WorkersOk, LogsOk;
    CleanupHolds(s, job.identity);
    RowHolds(s, s.cleanups[job.identity].uploadId.value);
  }

  lemma Completes(s: World, job: Job, now: Time)
    requires HoldsLease(s, job) && job in s.finished && now <= s.clock
    ensures var t := MarkCompleted(s, job, now);
            job.identity in t.cleanups && t.cleanups[job.identity].status.Completed? && t.objects == s.objects
  {
  }

  lemma ComesBack(s: World, job: Job, now: Time, jitter: nat)
    requires HoldsLease(s, job) && job in s.jobs && now <= s.clock && jitter <= 400 && s.cfg.maxBackoffMs >= 1000
    ensures var t := ScheduleRetry(s, job, now, jitter);
            && job.identity in t.cleanups && t.cleanups[job.identity].status.Retry?
            && Takeable(t.cleanups[job.identity], now + s.cfg.maxBackoffMs) && !Takeable(t.cleanups[job.identity], now + 799)
  {
  }

  lemma LeaseIsGrantedOrNothing(s: World, k: Identity, now: Time, token: Token)
    requires Inv(s)
    ensures AcquireLease(s, k, now, token).1.NoLease? || AcquireLease(s, k, now, token).1.Granted?
  {
    hide RowsOk, CleanupsOk, AttachmentsOk, ObjectsOk, TicketsOk, WorkersOk, LogsOk;
    if k in s.cleanups { QueuedObjectsAreUnreferenced(s, k); }
  }

  /** Each object's turn in order, tallied; at one instant `now` whatever the clock says by then. */
  method RunTurns(db: Database, candidates: seq<Identity>, now: Time, turns: seq<Turn>)
    returns (attempted: int, deleted: int, retained: int, deferred: int, ghost verdicts: seq<Verdict>)
    requires Inv(db.State()) && now <= db.clock && |turns| == |candidates| && forall t :: t in turns ==> t.jitter <= 400
    modifies db
    ensures (db.State(), verdicts) == TakeTurns(old(db.State()), candidates, now, turns)
    ensures retained == 0 && deleted == Count(verdicts, Deleted) && deferred == Count(verdicts, FailedToDelete)
    ensures attempted == deleted + deferred <= |candidates|
    ensures Inv(db.State())
  {
    hide Inv, Evolves, Run, Reaches, TakeTurn;
    attempted, deleted, retained, deferred, verdicts := 0, 0, 0, 0, [];
    ghost var s0 := db.State();
    var i := 0;
    while i < |candidates|
      invariant 0 <= i <= |candidates| && now <= db.clock && Inv(db.State())
      invariant (db.State(), verdicts) == TakeTurns(s0, candidates[..i], now, turns[..i])
      invariant retained == 0 && deleted == Count(verdicts, Deleted) && deferred == Count(verdicts, FailedToDelete)
      invariant attempted == deleted + deferred <= i
    {
      TurnsAreNeverPutOff(db.State(), candidates[i], now, turns[i]);
      var verdict := TurnOf(db, candidates[i], now, turns[i]);
      assert candidates[..i + 1][..i] == candidates[..i] && turns[..i + 1][..i] == turns[..i];
      assert (verdicts + [verdict])[..|verdicts|] == verdicts;
      verdicts := verdicts + [verdict];
      match verdict {
        case Skipped =>
        case KeptReference => retained := retained + 1;
        case PutOff => deferred := deferred + 1;
        case Deleted => attempted, deleted := attempted + 1, deleted + 1;
        case FailedToDelete => attempted, deferred := attempted + 1, deferred + 1;
      }
      i := i + 1;
    }
    assert candidates[..i] == candidates && turns[..i] == turns;
  }

  /**
   * The sweep's first half: the batch of uploads whose deadline has passed is expired, all of them if
   * they fit; then, after `beforeSelect`, the batch of objects to delete is chosen, all that are due if
   * they fit and the provider's budget, at nine requests each, has room.
   */
  method SelectBatch(db: Database, beforeSelect: seq<Step>)
    returns (now: Time, expired: nat, candidates: seq<Identity>, ghost ids: seq<UploadId>)
    requires Inv(db.State())
    modifies db
    ensures now == old(db.clock) <= db.clock && Inv(db.State()) && expired == |ids|
    ensures db.State() == Run(ExpireAll(old(db.State()), ids, now), beforeSelect)
    ensures forall id :: id in ids ==> id in old(db.uploads) && Overdue(old(db.uploads[id]), now)
    ensures |ids| < db.cfg.batchSize ==> forall id :: id in old(db.uploads) && Overdue(old(db.uploads[id]), now) ==> id in ids
    ensures Distinct(candidates) && |candidates| <= db.cfg.batchSize && 9 * |candidates| <= db.cfg.requestBudget
    ensures forall k :: k in candidates ==> k in db.cleanups && Takeable(db.cleanups[k], now)
    ensures |candidates| < db.cfg.batchSize && 9 * (|candidates| + 1) <= db.cfg.requestBudget ==>
              forall k :: k in db.cleanups && Takeable(db.cleanups[k], now) ==> k in candidates
  {
    ConfigHolds(db.State());
    hide Inv, Evolves, Run, Reaches, ExpireAll, Takeable, NewlyQueued, Distinct, Overdue;
    now := db.clock;
    ghost var s0 := db.State();
    expired, ids := ExpireDueUploads(db, now, db.cfg.batchSize);
    ExpiringReaches(s0, ids, now);
    ghost var s1 := db.State();
    WithoutNothing(beforeSelect);
    RunOthers(db, beforeSelect, None);
    Since(s1, beforeSelect, db.State());
    candidates := FindBatch(db, now);
  }

  /** As many due objects as the batch and the provider's request budget allow. */
  method FindBatch(db: Database, now: Time) returns (candidates: seq<Identity>)
    requires db.cfg.batchSize >= 0 && db.cfg.requestBudget >= 0
    ensures Distinct(candidates) && |candidates| <= db.cfg.batchSize && 9 * |candidates| <= db.cfg.requestBudget
    ensures forall k :: k in candidates ==> k in db.cleanups && Takeable(db.cleanups[k], now)
    ensures |candidates| < db.cfg.batchSize && 9 * (|candidates| + 1) <= db.cfg.requestBudget ==>
              forall k :: k in db.cleanups && Takeable(db.cleanups[k], now) ==> k in candidates
  {
    hide Distinct, Takeable;
    var objectLimit := Min(db.cfg.batchSize, db.cfg.requestBudget / PROVIDER_REQUESTS_PER_OBJECT);
    candidates := FindEligibleCleanups(db, now, objectLimit);
  }

  /**
   * One sweep, at one instant used for every object, with anything in its gaps. It stays inside its
   * provider budget, keeps nothing and puts nothing off except what failed to delete.
   */
  method ExecuteSweep(db: Database, beforeSelect: seq<Step>, turns: seq<Turn>)
    returns (r: SweepResult, ghost ids: seq<UploadId>, ghost ks: seq<Identity>, ghost selected: World, ghost verdicts: seq<Verdict>)
    requires Inv(db.State()) && |turns| >= db.cfg.batchSize && forall t :: t in turns ==> t.jitter <= 400
    modifies db
    ensures selected == Run(ExpireAll(old(db.State()), ids, old(db.clock)), beforeSelect)
    ensures forall id :: id in ids ==> id in old(db.uploads) && Overdue(old(db.uploads[id]), old(db.clock))
    ensures |ids| < db.cfg.batchSize ==> forall id :: id in old(db.uploads) && Overdue(old(db.uploads[id]), old(db.clock)) ==> id in ids
    ensures Distinct(ks) && |ks| <= |turns| && forall k :: k in ks ==> k in selected.cleanups && Takeable(selected.cleanups[k], old(db.clock))
    ensures |ks| < db.cfg.batchSize && 9 * (|ks| + 1) <= db.cfg.requestBudget ==>
              forall k :: k in selected.cleanups && Takeable(selected.cleanups[k], old(db.clock)) ==> k in ks
    ensures (db.State(), verdicts) == TakeTurns(selected, ks, old(db.clock), turns[..|ks|])
    ensures r == SweepResult(|ids|, Count(verdicts, Deleted) + Count(verdicts, FailedToDelete), Count(verdicts, Deleted),
                             0, Count(verdicts, FailedToDelete))
    ensures 9 * r.attemptedObjects <= db.cfg.requestBudget && r.attemptedObjects <= db.cfg.batchSize
    ensures Inv(db.State())
  {
    hide Inv, Run, TakeTurns, ExpireAll, Overdue, Takeable, Distinct, Count;
    var now, expired, candidates;
    now, expired, candidates, ids := SelectBatch(db, beforeSelect);
    selected, ks := db.State(), candidates;
    var attempted, deleted, retained, deferred;
    attempted, deleted, retained, deferred, verdicts := RunTurns(db, candidates, now, turns[..|candidates|]);
    r := SweepResult(expired, attempted, deleted, retained, deferred);
  }
}
