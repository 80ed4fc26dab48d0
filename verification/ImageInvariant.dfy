/** Every step of every service keeps the invariant of the image subsystem. */
module ImageInvariant {
  import opened Prelude
  import opened ImagePolicy
  import opened ImageState
  import opened ImageTransactions
  import opened ImageProtocol

  predicate Core(s: World) {
    ValidConfig(s.cfg) && RowsOk(s) && CleanupsOk(s) && ObjectsOk(s) && TicketsOk(s) && WorkersOk(s) && LogsOk(s)
  }

  lemma SameIdentity(s: World, a: UploadId, b: UploadId)
    requires a in s.uploads && b in s.uploads && RowOk(s.cfg, a, s.uploads[a]) && RowOk(s.cfg, b, s.uploads[b])
    requires s.uploads[a].identity.publicId == s.uploads[b].identity.publicId
    ensures a == b
  {
    PublicIdIsInjective(s.uploads[a].purpose, a, s.uploads[b].purpose, b);
  }

  lemma IdentitiesAreDistinct(s: World)
    requires RowsOk(s)
    ensures forall a, b :: a in s.uploads && b in s.uploads && s.uploads[a].identity == s.uploads[b].identity ==> a == b
    ensures forall a, b :: a in s.uploads && b in s.uploads && KeyOf(s.uploads[a].identity) == KeyOf(s.uploads[b].identity) ==> a == b
  {
    forall a, b | a in s.uploads && b in s.uploads && s.uploads[a].identity.publicId == s.uploads[b].identity.publicId
      ensures a == b
    {
      SameIdentity(s, a, b);
    }
  }

  lemma RowHolds(s: World, id: UploadId)
    requires RowsOk(s) && id in s.uploads
    ensures RowOk(s.cfg, id, s.uploads[id])
  {
  }

  lemma CleanupHolds(s: World, k: Identity)
    requires CleanupsOk(s) && k in s.cleanups
    ensures CleanupRowOk(s, k, s.cleanups[k])
  {
  }

  lemma AttachmentOf(s: World, a: AssetId) returns (id: UploadId)
    requires AttachmentsOk(s) && a in s.assets && s.assets[a].locator.Some?
    ensures id in s.uploads && AttachedTo(s, a, id)
  {
    id :| id in s.uploads && AttachedTo(s, a, id);
  }

  // ---- Each rule looks at a few tables only ----------------------------------------------------

  lemma RowsFrame(s: World, t: World)
    requires RowsOk(s) && t.cfg == s.cfg && t.uploads == s.uploads
    ensures RowsOk(t)
  {
  }

  lemma CleanupsFrame(s: World, t: World)
    requires CleanupsOk(s) && t.uploads == s.uploads && t.cleanups == s.cleanups && s.clock <= t.clock
    ensures CleanupsOk(t)
  {
  }

  lemma AttachmentsFrame(s: World, t: World)
    requires AttachmentsOk(s) && t.uploads == s.uploads && t.assets == s.assets
    ensures AttachmentsOk(t)
  {
  }

  lemma ObjectsFrame(s: World, t: World)
    requires ObjectsOk(s) && t.uploads == s.uploads && t.objects == s.objects && t.arrived == s.arrived
    requires t.answers == s.answers && t.deletions == s.deletions
    ensures ObjectsOk(t)
  {
  }

  lemma TicketsFrame(s: World, t: World)
    requires TicketsOk(s) && t.uploads == s.uploads && t.tickets == s.tickets && t.calls == s.calls
    ensures TicketsOk(t)
  {
  }

  lemma WorkersFrame(s: World, t: World)
    requires WorkersOk(s) && t.cleanups == s.cleanups && t.jobs == s.jobs && t.finished == s.finished && s.clock <= t.clock
    ensures WorkersOk(t)
  {
  }

  lemma LogsFrame(s: World, t: World)
    requires LogsOk(s) && t.uploads == s.uploads && t.cleanups == s.cleanups && s.jobs <= t.jobs && s.clock <= t.clock
    requires t.deletions == s.deletions && t.acceptances == s.acceptances && t.finished == s.finished
    ensures LogsOk(t)
  {
  }

  /** A live upload moves to a terminal status and its cleanup is queued. */
  function Retire(s: World, id: UploadId, status: UploadStatus, reason: CleanupReason, eligibleAt: Time, version: Option<int>): World
    requires id in s.uploads
  {
    s.(uploads := s.uploads[id := s.uploads[id].(status := status)],
       cleanups := Enqueue(s.cleanups, id, s.uploads[id], reason, eligibleAt, version))
  }

  predicate MayRetire(s: World, id: UploadId, status: UploadStatus, eligibleAt: Time) {
    && id in s.uploads && !Terminal(s.uploads[id].status) && Terminal(status)
    && RowOk(s.cfg, id, s.uploads[id].(status := status))
    && s.uploads[id].reconciliationAfter <= eligibleAt
  }

  lemma RetireQueuesANewRow(s: World, id: UploadId, status: UploadStatus, reason: CleanupReason, eligibleAt: Time, version: Option<int>)
    requires RowsOk(s) && CleanupsOk(s) && MayRetire(s, id, status, eligibleAt)
    ensures s.uploads[id].identity !in s.cleanups
    ensures Retire(s, id, status, reason, eligibleAt, version).cleanups
         == s.cleanups[s.uploads[id].identity := QueuedCleanup(id, reason, eligibleAt, version)]
  {
    IdentitiesAreDistinct(s);
    var k := s.uploads[id].identity;
    assert k in s.cleanups ==> CleanupRowOk(s, k, s.cleanups[k]);
    assert CleanupIdentity(s.uploads[id]) == k;
  }

  lemma RetireKeepsCleanups(s: World, id: UploadId, status: UploadStatus, reason: CleanupReason, eligibleAt: Time, version: Option<int>)
    requires RowsOk(s) && CleanupsOk(s) && MayRetire(s, id, status, eligibleAt)
    ensures CleanupsOk(Retire(s, id, status, reason, eligibleAt, version))
  {
    RetireQueuesANewRow(s, id, status, reason, eligibleAt, version);
    var t := Retire(s, id, status, reason, eligibleAt, version);
    forall j | j in t.cleanups ensures CleanupRowOk(t, j, t.cleanups[j]) {
      if j != s.uploads[id].identity { assert CleanupRowOk(s, j, s.cleanups[j]); }
    }
  }

  lemma RetireKeepsObjects(s: World, id: UploadId, status: UploadStatus, reason: CleanupReason, eligibleAt: Time, version: Option<int>)
    requires ObjectsOk(s) && MayRetire(s, id, status, eligibleAt)
    ensures ObjectsOk(Retire(s, id, status, reason, eligibleAt, version))
  {
  }

  lemma RetireKeepsWorkers(s: World, id: UploadId, status: UploadStatus, reason: CleanupReason, eligibleAt: Time, version: Option<int>)
    requires RowsOk(s) && CleanupsOk(s) && WorkersOk(s) && MayRetire(s, id, status, eligibleAt)
    ensures WorkersOk(Retire(s, id, status, reason, eligibleAt, version))
  {
    RetireQueuesANewRow(s, id, status, reason, eligibleAt, version);
    var t := Retire(s, id, status, reason, eligibleAt, version);
    forall j | j in t.jobs ensures JobOk(t, j) { assert JobOk(s, j); }
  }

  lemma RetireKeepsLogs(s: World, id: UploadId, status: UploadStatus, reason: CleanupReason, eligibleAt: Time, version: Option<int>)
    requires RowsOk(s) && CleanupsOk(s) && LogsOk(s) && MayRetire(s, id, status, eligibleAt)
    ensures LogsOk(Retire(s, id, status, reason, eligibleAt, version))
  {
  }

  lemma RetireKeepsTickets(s: World, id: UploadId, status: UploadStatus, reason: CleanupReason, eligibleAt: Time, version: Option<int>)
    requires TicketsOk(s) && MayRetire(s, id, status, eligibleAt)
    ensures TicketsOk(Retire(s, id, status, reason, eligibleAt, version))
  {
  }

  lemma RetireKeepsRows(s: World, id: UploadId, status: UploadStatus, reason: CleanupReason, eligibleAt: Time, version: Option<int>)
    requires RowsOk(s) && MayRetire(s, id, status, eligibleAt)
    ensures RowsOk(Retire(s, id, status, reason, eligibleAt, version))
  {
  }

  lemma RetireKeepsCore(s: World, id: UploadId, status: UploadStatus, reason: CleanupReason, eligibleAt: Time, version: Option<int>)
    requires Core(s) && MayRetire(s, id, status, eligibleAt)
    ensures Core(Retire(s, id, status, reason, eligibleAt, version))
  {
    hide RowsOk, CleanupsOk, AttachmentsOk, ObjectsOk, TicketsOk, WorkersOk, LogsOk;
    RetireKeepsRows(s, id, status, reason, eligibleAt, version);
    RetireKeepsCleanups(s, id, status, reason, eligibleAt, version);
    RetireKeepsObjects(s, id, status, reason, eligibleAt, version);
    RetireKeepsWorkers(s, id, status, reason, eligibleAt, version);
    RetireKeepsLogs(s, id, status, reason, eligibleAt, version);
    RetireKeepsTickets(s, id, status, reason, eligibleAt, version);
  }

  /** A live upload's row changes and stays live; nothing is queued. */
  predicate MayRewrite(s: World, id: UploadId, u: Upload) {
    && id in s.uploads && !Terminal(s.uploads[id].status) && !Terminal(u.status)
    && RowOk(s.cfg, id, u)
    && u.identity == s.uploads[id].identity
    && u.reconciliationAfter == s.uploads[id].reconciliationAfter
    && u.signatureExpiresAt == s.uploads[id].signatureExpiresAt
    && u.intentExpiresAt == s.uploads[id].intentExpiresAt
    && s.uploads[id].attempts <= u.attempts
    && (u.verified.Some? ==> KeyOf(u.identity) in s.arrived)
  }

  lemma RewriteKeepsCleanups(s: World, id: UploadId, u: Upload)
    requires CleanupsOk(s) && MayRewrite(s, id, u)
    ensures CleanupsOk(s.(uploads := s.uploads[id := u]))
  {
  }

  lemma RewriteKeepsTickets(s: World, id: UploadId, u: Upload)
    requires TicketsOk(s) && MayRewrite(s, id, u)
    ensures TicketsOk(s.(uploads := s.uploads[id := u]))
  {
  }

  lemma RewriteKeepsWorkers(s: World, id: UploadId, u: Upload)
    requires WorkersOk(s)
    ensures WorkersOk(s.(uploads := s.uploads[id := u]))
  {
  }

  lemma RewriteKeepsLogs(s: World, id: UploadId, u: Upload)
    requires LogsOk(s) && MayRewrite(s, id, u)
    ensures LogsOk(s.(uploads := s.uploads[id := u]))
  {
  }

  lemma RewriteKeepsRows(s: World, id: UploadId, u: Upload)
    requires RowsOk(s) && ObjectsOk(s) && MayRewrite(s, id, u)
    ensures RowsOk(s.(uploads := s.uploads[id := u])) && ObjectsOk(s.(uploads := s.uploads[id := u]))
  {
  }

  lemma RewriteKeepsCore(s: World, id: UploadId, u: Upload)
    requires Core(s) && MayRewrite(s, id, u)
    ensures Core(s.(uploads := s.uploads[id := u]))
  {
    hide RowsOk, CleanupsOk, AttachmentsOk, ObjectsOk, TicketsOk, WorkersOk, LogsOk;
    RewriteKeepsRows(s, id, u);
    RewriteKeepsCleanups(s, id, u);
    RewriteKeepsTickets(s, id, u);
    RewriteKeepsWorkers(s, id, u);
    RewriteKeepsLogs(s, id, u);
  }

  /** Attachments are not disturbed by writes to a row that is not claimed before or after. */
  lemma UnclaimedWriteKeepsAttachments(s: World, id: UploadId, u: Upload, cleanups: map<Identity, Cleanup>)
    requires AttachmentsOk(s) && id in s.uploads
    requires !s.uploads[id].status.Claimed? && !u.status.Claimed?
    ensures AttachmentsOk(s.(uploads := s.uploads[id := u], cleanups := cleanups))
  {
    var t := s.(uploads := s.uploads[id := u], cleanups := cleanups);
    forall i | i in t.uploads && t.uploads[i].status.Claimed?
      ensures t.uploads[i].claim.Some? && AttachedTo(t, t.uploads[i].claim.value.target, i)
    {
      assert AttachedTo(s, s.uploads[i].claim.value.target, i);
    }
    forall a | a in t.assets && t.assets[a].locator.Some?
      ensures exists i :: i in t.uploads && AttachedTo(t, a, i)
    {
      var i :| i in s.uploads && AttachedTo(s, a, i);
      assert AttachedTo(t, a, i);
    }
  }

  lemma ExpireKeeps(s: World, id: UploadId, now: Time)
    requires Inv(s)
    ensures Inv(Expire(s, id, now))
  {
    hide RowsOk, CleanupsOk, AttachmentsOk, ObjectsOk, TicketsOk, WorkersOk, LogsOk;
    if now <= s.clock && id in s.uploads && ExpiryReason(s.uploads[id], now).Some? {
      var u := s.uploads[id];
      RowHolds(s, id);
      RetireKeepsCore(s, id, Expired, ExpiryReason(u, now).value, ExpiredEligibleAt(u, now), VersionOf(u));
      UnclaimedWriteKeepsAttachments(s, id, u.(status := Expired), Expire(s, id, now).cleanups);
    }
  }

  lemma RejectKeeps(s: World, id: UploadId, now: Time)
    requires Inv(s)
    ensures Inv(Reject(s, id, now))
  {
    hide RowsOk, CleanupsOk, AttachmentsOk, ObjectsOk, TicketsOk, WorkersOk, LogsOk;
    if now <= s.clock && id in s.uploads && s.uploads[id].status.Authorized? {
      var u := s.uploads[id];
      RowHolds(s, id);
      RetireKeepsCore(s, id, Rejected, RejectedUpload, u.reconciliationAfter, None);
      UnclaimedWriteKeepsAttachments(s, id, u.(status := Rejected), Reject(s, id, now).cleanups);
    }
  }

  lemma BoughtTicketIsNew(s: World, id: UploadId)
    requires TicketsOk(s) && id in s.uploads
    ensures TicketsOk(s.(uploads := s.uploads[id := s.uploads[id].(attempts := s.uploads[id].attempts + 1)],
                         tickets := s.tickets + {Ticket(id, s.uploads[id].attempts + 1)}))
  {
  }

  lemma ReserveKeeps(s: World, id: UploadId, now: Time)
    requires Inv(s)
    ensures Inv(ReserveAttempt(s, id, now))
  {
    hide RowsOk, CleanupsOk, AttachmentsOk, ObjectsOk, TicketsOk, WorkersOk, LogsOk;
    if MayReserve(s, id, now) {
      var u := s.uploads[id].(attempts := s.uploads[id].attempts + 1);
      RowHolds(s, id);
      BoughtTicketIsNew(s, id);
      RewriteKeepsCore(s, id, u);
      UnclaimedWriteKeepsAttachments(s, id, u, s.cleanups);
      IgnoresTickets(s.(uploads := s.uploads[id := u]), s.tickets + {Ticket(id, u.attempts)}, s.calls);
    }
  }

  /** Only the ticket rule looks at tickets and calls. */
  lemma IgnoresTickets(s: World, tickets: set<Ticket>, calls: set<Ticket>)
    requires Inv(s) && TicketsOk(s.(tickets := tickets, calls := calls))
    ensures Inv(s.(tickets := tickets, calls := calls))
  {
    hide RowsOk, CleanupsOk, AttachmentsOk, ObjectsOk, TicketsOk, WorkersOk, LogsOk;
    var t := s.(tickets := tickets, calls := calls);
    RowsFrame(s, t);
    CleanupsFrame(s, t);
    AttachmentsFrame(s, t);
    ObjectsFrame(s, t);
    WorkersFrame(s, t);
    LogsFrame(s, t);
  }

  lemma AnswerArrived(s: World, a: Answer)
    requires ObjectsOk(s) && a in s.answers
    ensures a.ticket.uploadId in s.uploads && KeyOf(s.uploads[a.ticket.uploadId].identity) in s.arrived
  {
  }

  lemma CommitKeeps(s: World, a: Answer, hash: Digest, now: Time)
    requires Inv(s)
    ensures Inv(CommitVerified(s, a, hash, now))
  {
    hide RowsOk, CleanupsOk, AttachmentsOk, ObjectsOk, TicketsOk, WorkersOk, LogsOk;
    if MayCommit(s, a, hash, now) {
      var id := a.ticket.uploadId;
      var u := s.uploads[id].(status := VerifiedPending, verified := Some(EvidenceFrom(s.cfg, a.found, hash)));
      RowHolds(s, id);
      AnswerArrived(s, a);
      RewriteKeepsCore(s, id, u);
      UnclaimedWriteKeepsAttachments(s, id, u, s.cleanups);
    }
  }

  // ---- Steps that write no upload, cleanup or asset row ----------------------------------------

  /** Nothing but the clock, the storage account, the objects, the answers and the acceptances moves. */
  predicate OnlyOutside(s: World, t: World) {
    && t == s.(clock := t.clock, storage := t.storage, objects := t.objects, arrived := t.arrived,
               answers := t.answers, acceptances := t.acceptances)
    && s.clock <= t.clock
  }

  lemma OutsideKeeps(s: World, t: World)
    requires RowsOk(s) && CleanupsOk(s) && AttachmentsOk(s) && TicketsOk(s) && WorkersOk(s) && OnlyOutside(s, t)
    ensures RowsOk(t) && CleanupsOk(t) && AttachmentsOk(t) && TicketsOk(t) && WorkersOk(t)
  {
    hide RowsOk, CleanupsOk, AttachmentsOk, ObjectsOk, TicketsOk, WorkersOk, LogsOk;
    RowsFrame(s, t);
    CleanupsFrame(s, t);
    AttachmentsFrame(s, t);
    TicketsFrame(s, t);
    WorkersFrame(s, t);
  }

  /** Objects may arrive, and answers may come, but only about objects that have arrived. */
  lemma OutsideKeepsObjects(s: World, t: World)
    requires ObjectsOk(s) && OnlyOutside(s, t)
    requires exists more :: t.objects == s.objects + more && t.arrived == s.arrived + more
    requires forall a :: a in t.answers && a !in s.answers ==>
               a.ticket.uploadId in s.uploads && KeyOf(s.uploads[a.ticket.uploadId].identity) in s.arrived
    ensures ObjectsOk(t)
  {
  }

  lemma OutsideKeepsLogs(s: World, t: World)
    requires LogsOk(s) && OnlyOutside(s, t)
    requires forall a :: a in t.acceptances && a !in s.acceptances ==>
               && a.uploadId in s.uploads
               && a.at < s.uploads[a.uploadId].signatureExpiresAt && a.at < s.uploads[a.uploadId].intentExpiresAt
    ensures LogsOk(t)
  {
  }

  lemma OutsideStepKeeps(s: World, step: Step)
    requires Inv(s) && (step.Tick? || step.SwitchStorage? || step.Receive? || step.ObjectArrives?)
    ensures Inv(Apply(s, step))
  {
    hide RowsOk, CleanupsOk, AttachmentsOk, ObjectsOk, TicketsOk, WorkersOk, LogsOk;
    var t := Apply(s, step);
    OutsideKeeps(s, t);
    var more := if step.ObjectArrives? then {step.key} else {};
    assert t.objects == s.objects + more && t.arrived == s.arrived + more;
    OutsideKeepsObjects(s, t);
    OutsideKeepsLogs(s, t);
  }

  lemma SpendTicket(s: World, ticket: Ticket)
    requires TicketsOk(s) && ticket in s.tickets
    ensures TicketsOk(s.(tickets := s.tickets - {ticket}, calls := s.calls + {ticket}))
  {
  }

  lemma ObjectArrived(s: World, key: ObjectKey)
    requires ObjectsOk(s) && key in s.objects
    ensures key in s.arrived
  {
  }

  lemma AskKeeps(s: World, ticket: Ticket, reply: Option<ProviderObject>)
    requires Inv(s)
    ensures Inv(AskProvider(s, ticket, reply))
  {
    hide RowsOk, CleanupsOk, AttachmentsOk, ObjectsOk, TicketsOk, WorkersOk, LogsOk;
    if ticket in s.tickets && ticket.uploadId in s.uploads {
      SpendTicket(s, ticket);
      var s1 := s.(tickets := s.tickets - {ticket}, calls := s.calls + {ticket});
      IgnoresTickets(s, s1.tickets, s1.calls);
      var t := AskProvider(s, ticket, reply);
      var key := KeyOf(s.uploads[ticket.uploadId].identity);
      if key in s.objects { ObjectArrived(s, key); }
      OutsideKeeps(s1, t);
      assert t.objects == s1.objects + {} && t.arrived == s1.arrived + {};
      OutsideKeepsObjects(s1, t);
      OutsideKeepsLogs(s1, t);
    }
  }

  // ---- A new upload row ------------------------------------------------------------------------

  lemma NewRowKeepsRows(s: World, id: UploadId, u: Upload)
    requires RowsOk(s) && RowOk(s.cfg, id, u)
    ensures RowsOk(s.(uploads := s.uploads[id := u]))
  {
  }

  lemma NewRowKeepsObjects(s: World, id: UploadId, u: Upload)
    requires RowsOk(s) && CleanupsOk(s) && ObjectsOk(s) && LogsOk(s)
    requires id !in s.uploads && RowOk(s.cfg, id, u) && u.verified.None?
    ensures ObjectsOk(s.(uploads := s.uploads[id := u]))
  {
    var key := KeyOf(u.identity);
    if key in s.arrived && key !in s.objects {
      var d :| d in s.deletions && KeyOf(d.job.identity) == key;
      assert DeletionOk(s, d);
      assert CleanupRowOk(s, d.job.identity, s.cleanups[d.job.identity]);
      var other := s.cleanups[d.job.identity].uploadId.value;
      PublicIdIsInjective(u.purpose, id, s.uploads[other].purpose, other);
      assert false;
    }
  }

  lemma NewRowKeepsBooks(s: World, id: UploadId, u: Upload)
    requires CleanupsOk(s) && TicketsOk(s) && WorkersOk(s) && LogsOk(s)
    requires id !in s.uploads && !Terminal(u.status)
    ensures CleanupsOk(s.(uploads := s.uploads[id := u])) && TicketsOk(s.(uploads := s.uploads[id := u]))
    ensures WorkersOk(s.(uploads := s.uploads[id := u])) && LogsOk(s.(uploads := s.uploads[id := u]))
  {
  }

  lemma NewRowKeepsAttachments(s: World, id: UploadId, u: Upload)
    requires AttachmentsOk(s) && id !in s.uploads && !u.status.Claimed?
    ensures AttachmentsOk(s.(uploads := s.uploads[id := u]))
  {
    var t := s.(uploads := s.uploads[id := u]);
    forall i | i in t.uploads && t.uploads[i].status.Claimed?
      ensures t.uploads[i].claim.Some? && AttachedTo(t, t.uploads[i].claim.value.target, i)
    {
      assert AttachedTo(s, s.uploads[i].claim.value.target, i);
    }
    forall a | a in t.assets && t.assets[a].locator.Some?
      ensures exists i :: i in t.uploads && AttachedTo(t, a, i)
    {
      var i :| i in s.uploads && AttachedTo(s, a, i);
      assert AttachedTo(t, a, i);
    }
  }

  lemma IntendKeeps(s: World, id: UploadId, actor: UserId, purpose: Purpose, target: Option<AssetId>, secret: string, now: Time)
    requires Inv(s)
    ensures Inv(CreateIntent(s, id, actor, purpose, target, secret, now))
  {
    hide RowsOk, CleanupsOk, AttachmentsOk, ObjectsOk, TicketsOk, WorkersOk, LogsOk;
    var t := CreateIntent(s, id, actor, purpose, target, secret, now);
    if t != s {
      var u := t.uploads[id];
      NewRowKeepsRows(s, id, u);
      NewRowKeepsObjects(s, id, u);
      NewRowKeepsBooks(s, id, u);
      NewRowKeepsAttachments(s, id, u);
    }
  }

  // ---- Assets ------------------------------------------------------------------------------------

  /** Nothing but attachments depends on asset rows. */
  lemma AssetWriteKeepsCore(s: World, assets: map<AssetId, AssetRow>)
    requires Core(s)
    ensures Core(s.(assets := assets))
  {
    hide RowsOk, CleanupsOk, AttachmentsOk, ObjectsOk, TicketsOk, WorkersOk, LogsOk;
    var t := s.(assets := assets);
    RowsFrame(s, t);
    CleanupsFrame(s, t);
    ObjectsFrame(s, t);
    TicketsFrame(s, t);
    WorkersFrame(s, t);
    LogsFrame(s, t);
  }

  lemma PlainWriteKeeps(s: World, a: AssetId, row: AssetRow)
    requires Inv(s) && row.locator.None? && (a in s.assets ==> s.assets[a].locator.None?)
    ensures Inv(s.(assets := s.assets[a := row]))
  {
    AssetWriteKeepsCore(s, s.assets[a := row]);
    var t := s.(assets := s.assets[a := row]);
    forall i | i in t.uploads && t.uploads[i].status.Claimed?
      ensures t.uploads[i].claim.Some? && AttachedTo(t, t.uploads[i].claim.value.target, i)
    {
      assert AttachedTo(s, s.uploads[i].claim.value.target, i);
    }
    forall b | b in t.assets && t.assets[b].locator.Some?
      ensures exists i :: i in t.uploads && AttachedTo(t, b, i)
    {
      var i :| i in s.uploads && AttachedTo(s, b, i);
      assert AttachedTo(t, b, i);
    }
  }

  lemma VerifiedArrived(s: World, id: UploadId)
    requires ObjectsOk(s) && id in s.uploads && s.uploads[id].verified.Some?
    ensures KeyOf(s.uploads[id].identity) in s.arrived
  {
  }

  lemma ClaimMarkKeepsCore(s: World, r: ClaimRequest, previous: Option<Locator>, url: Option<Url>, now: Time)
    requires Core(s) && ClaimRefusal(s, r, previous, url, now).None?
    requires r.purpose.AssetImage? && LocatorConstraint(LocatorOf(s.uploads[r.uploadId]))
    ensures Core(MarkClaimed(s, r, now))
  {
    hide RowsOk, CleanupsOk, AttachmentsOk, ObjectsOk, TicketsOk, WorkersOk, LogsOk;
    var u := MarkClaimed(s, r, now).uploads[r.uploadId];
    RowHolds(s, r.uploadId);
    VerifiedArrived(s, r.uploadId);
    RewriteKeepsCore(s, r.uploadId, u);
  }

  lemma CreateKeeps(s: World, r: ClaimRequest, now: Time)
    requires Inv(s)
    ensures Inv(CreateAssetWithImage(s, r, now).0)
  {
    hide RowsOk, CleanupsOk, AttachmentsOk, ObjectsOk, TicketsOk, WorkersOk, LogsOk;
    var t := CreateAssetWithImage(s, r, now).0;
    if t != s {
      var l := LocatorOf(s.uploads[r.uploadId]);
      var row := AssetRow(Some(l), Some(ProviderUrl(l)));
      var s1 := MarkClaimed(s, r, now);
      assert t == s1.(assets := s.assets[r.target := row]);
      ClaimMarkKeepsCore(s, r, None, None, now);
      AssetWriteKeepsCore(s1, t.assets);
      NewAttachment(s, t, r.uploadId, r.target);
    }
  }

  /** An upload becomes claimed by an asset that was not showing a managed image. */
  lemma NewAttachment(s: World, t: World, id: UploadId, a: AssetId)
    requires AttachmentsOk(s) && id in s.uploads && id in t.uploads && !s.uploads[id].status.Claimed?
    requires a in s.assets ==> s.assets[a].locator.None?
    requires t.uploads == s.uploads[id := t.uploads[id]] && AttachedTo(t, a, id)
    requires t.assets == s.assets[a := t.assets[a]]
    ensures AttachmentsOk(t)
  {
    forall i | i in t.uploads && t.uploads[i].status.Claimed?
      ensures t.uploads[i].claim.Some? && AttachedTo(t, t.uploads[i].claim.value.target, i)
    {
      if i != id { assert AttachedTo(s, s.uploads[i].claim.value.target, i); }
    }
    forall b | b in t.assets && t.assets[b].locator.Some?
      ensures exists i :: i in t.uploads && AttachedTo(t, b, i)
    {
      if b == a {
        assert AttachedTo(t, b, id);
      } else {
        var i :| i in s.uploads && AttachedTo(s, b, i);
        assert AttachedTo(t, b, i);
      }
    }
  }

  /** The only claimed upload an asset's locator can name is the one attached to it. */
  lemma PredecessorIsAttached(s: World, a: AssetId, out: UploadId, id: UploadId)
    requires RowsOk(s) && AttachedTo(s, a, out)
    requires id in s.uploads && IsPredecessor(s.uploads[id], s.assets[a].locator.value, a)
    ensures id == out
  {
    assert RowOk(s.cfg, out, s.uploads[out]) && RowOk(s.cfg, id, s.uploads[id]);
    SameIdentity(s, id, out);
  }

  /** While the replacing upload is being claimed, the replaced one is still found, and no other. */
  lemma PredecessorIsTheAttachment(s: World, r: ClaimRequest, now: Time, a: AssetId, out: UploadId)
    requires r.uploadId in s.uploads && !s.uploads[r.uploadId].status.Claimed? && AttachedTo(s, a, out)
    requires RowsOk(s) && RowsOk(MarkClaimed(s, r, now))
    ensures HasPredecessor(MarkClaimed(s, r, now), s.assets[a].locator.value, a)
    ensures Predecessor(MarkClaimed(s, r, now), s.assets[a].locator.value, a) == out
  {
    var s1 := MarkClaimed(s, r, now);
    assert RowOk(s.cfg, out, s.uploads[out]);
    assert s1.uploads[out] == s.uploads[out];
    assert IsPredecessor(s1.uploads[out], s.assets[a].locator.value, a);
    PredecessorIsAttached(s1, a, out, Predecessor(s1, s.assets[a].locator.value, a));
  }

  /** One claimed upload gives way to another on the same asset. */
  lemma ReplacedAttachment(s: World, t: World, a: AssetId, out: UploadId, id: UploadId)
    requires AttachmentsOk(s) && out in s.uploads && id in s.uploads && out != id
    requires AttachedTo(s, a, out) && !s.uploads[id].status.Claimed?
    requires forall i :: i in s.uploads && AttachedTo(s, a, i) ==> i == out
    requires t.uploads.Keys == s.uploads.Keys && !t.uploads[out].status.Claimed?
    requires forall i :: i in s.uploads && i != out && i != id ==> t.uploads[i] == s.uploads[i]
    requires AttachedTo(t, a, id) && t.assets == s.assets[a := t.assets[a]]
    ensures AttachmentsOk(t)
  {
  }

  /** The state after `r.uploadId` has taken over from `out` on asset `r.target`. */
  function Swapped(s: World, r: ClaimRequest, now: Time, out: UploadId): World
    requires r.uploadId in s.uploads && out in s.uploads && r.uploadId != out
    requires s.uploads[r.uploadId].verified.Some? && s.uploads[out].verified.Some?
  {
    var l := LocatorOf(s.uploads[r.uploadId]);
    Supersede(MarkClaimed(s, r, now), out, s.uploads[out].verified.value.version, now)
    .(assets := s.assets[r.target := AssetRow(Some(l), Some(ProviderUrl(l)))])
  }

  predicate MaySwap(s: World, r: ClaimRequest, now: Time, out: UploadId) {
    && r.uploadId in s.uploads && r.target in s.assets && AttachedTo(s, r.target, out)
    && ClaimRefusal(s, r, s.assets[r.target].locator, s.assets[r.target].imageUrl, now).None?
    && r.purpose.AssetImage? && LocatorConstraint(LocatorOf(s.uploads[r.uploadId]))
  }

  lemma SupersedeKeepsCore(s: World, id: UploadId, version: int, now: Time)
    requires Core(s) && id in s.uploads && s.uploads[id].status.Claimed?
    ensures Core(Supersede(s, id, version, now))
  {
    hide RowsOk, CleanupsOk, AttachmentsOk, ObjectsOk, TicketsOk, WorkersOk, LogsOk;
    RowHolds(s, id);
    RetireKeepsCore(s, id, Superseded, SupersededAttachment, Max(now, s.uploads[id].reconciliationAfter), Some(version));
  }

  lemma SupersedeAndShowKeepsCore(s: World, id: UploadId, version: int, now: Time, assets: map<AssetId, AssetRow>)
    requires Core(s) && id in s.uploads && s.uploads[id].status.Claimed?
    ensures Core(Supersede(s, id, version, now).(assets := assets))
  {
    hide RowsOk, CleanupsOk, AttachmentsOk, ObjectsOk, TicketsOk, WorkersOk, LogsOk;
    SupersedeKeepsCore(s, id, version, now);
    AssetWriteKeepsCore(Supersede(s, id, version, now), assets);
  }

  lemma SwapKeepsCore(s: World, r: ClaimRequest, now: Time, out: UploadId)
    requires MaySwap(s, r, now, out) && Core(MarkClaimed(s, r, now))
    ensures Core(Swapped(s, r, now, out))
  {
    hide RowsOk, CleanupsOk, AttachmentsOk, ObjectsOk, TicketsOk, WorkersOk, LogsOk;
    SupersedeAndShowKeepsCore(MarkClaimed(s, r, now), out, s.uploads[out].verified.value.version, now,
                              Swapped(s, r, now, out).assets);
  }

  lemma SwapKeepsAttachments(s: World, r: ClaimRequest, now: Time, out: UploadId)
    requires RowsOk(s) && AttachmentsOk(s) && MaySwap(s, r, now, out)
    ensures AttachmentsOk(Swapped(s, r, now, out))
  {
    AttachmentIsUnique(s, r.target);
    assert RowOk(s.cfg, r.uploadId, s.uploads[r.uploadId]);
    ReplacedAttachment(s, Swapped(s, r, now, out), r.target, out, r.uploadId);
  }

  lemma ReplacementIsASwap(s: World, r: ClaimRequest, now: Time, out: UploadId)
    requires Core(s) && MaySwap(s, r, now, out)
    requires now <= s.clock && r.operation.UpdateTarget?
    ensures ReplaceAssetImage(s, r, now, true) == (Swapped(s, r, now, out), Saved(r.target))
  {
    ClaimMarkKeepsCore(s, r, s.assets[r.target].locator, s.assets[r.target].imageUrl, now);
    PredecessorIsTheAttachment(s, r, now, r.target, out);
  }

  lemma ReplaceKeeps(s: World, r: ClaimRequest, now: Time, unmoved: bool)
    requires Inv(s)
    ensures Inv(ReplaceAssetImage(s, r, now, unmoved).0)
  {
    hide RowsOk, CleanupsOk, AttachmentsOk, ObjectsOk, TicketsOk, WorkersOk, LogsOk;
    var t := ReplaceAssetImage(s, r, now, unmoved).0;
    if t != s {
      var before := s.assets[r.target];
      if before.locator.None? {
        ClaimMarkKeepsCore(s, r, before.locator, before.imageUrl, now);
        AssetWriteKeepsCore(MarkClaimed(s, r, now), t.assets);
        NewAttachment(s, t, r.uploadId, r.target);
      } else {
        var out := AttachmentOf(s, r.target);
        ReplacementIsASwap(s, r, now, out);
        ClaimMarkKeepsCore(s, r, before.locator, before.imageUrl, now);
        SwapKeepsCore(s, r, now, out);
        SwapKeepsAttachments(s, r, now, out);
      }
    }
  }

  lemma AttachmentIsUnique(s: World, a: AssetId)
    requires RowsOk(s)
    ensures forall i, j :: i in s.uploads && j in s.uploads && AttachedTo(s, a, i) && AttachedTo(s, a, j) ==> i == j
  {
    IdentitiesAreDistinct(s);
    forall i, j | i in s.uploads && j in s.uploads && AttachedTo(s, a, i) && AttachedTo(s, a, j)
      ensures i == j
    {
      assert RowOk(s.cfg, i, s.uploads[i]) && RowOk(s.cfg, j, s.uploads[j]);
      assert s.uploads[i].identity == s.uploads[j].identity;
    }
  }

  // ---- Cleanup workers ----------------------------------------------------------------------------

  /** Neither branch that keeps a queued object can be reached: nothing shows it, its upload is over. */
  lemma QueuedObjectsAreUnreferenced(s: World, k: Identity)
    requires Inv(s) && k in s.cleanups
    ensures !Referenced(s, k) && !UploadStillLive(s, s.cleanups[k])
  {
    assert CleanupRowOk(s, k, s.cleanups[k]);
    var id := s.cleanups[k].uploadId.value;
    forall a | a in s.assets && Shows(s, a, k) ensures false {
      var i :| i in s.uploads && AttachedTo(s, a, i);
      assert RowOk(s.cfg, i, s.uploads[i]) && RowOk(s.cfg, id, s.uploads[id]);
      SameIdentity(s, i, id);
    }
  }

  /** A cleanup row changes hands; whose upload it is and when it became eligible never change. */
  predicate SameCharge(c: Cleanup, d: Cleanup) {
    d.uploadId == c.uploadId && d.eligibleAt == c.eligibleAt && !d.status.Pending? && !d.status.Retained?
  }

  lemma CleanupWriteKeepsRows(s: World, k: Identity, c: Cleanup)
    requires RowsOk(s) && ObjectsOk(s) && CleanupsOk(s) && AttachmentsOk(s) && TicketsOk(s)
    requires k in s.cleanups && CleanupRowOk(s, k, c)
    ensures RowsOk(s.(cleanups := s.cleanups[k := c])) && ObjectsOk(s.(cleanups := s.cleanups[k := c]))
    ensures CleanupsOk(s.(cleanups := s.cleanups[k := c]))
    ensures AttachmentsOk(s.(cleanups := s.cleanups[k := c])) && TicketsOk(s.(cleanups := s.cleanups[k := c]))
  {
    hide RowsOk, ObjectsOk, AttachmentsOk, TicketsOk;
    var t := s.(cleanups := s.cleanups[k := c]);
    RowsFrame(s, t);
    ObjectsFrame(s, t);
    AttachmentsFrame(s, t);
    TicketsFrame(s, t);
    forall j | j in t.cleanups ensures CleanupRowOk(t, j, t.cleanups[j]) {
      assert CleanupRowOk(s, j, s.cleanups[j]);
    }
  }

  lemma CleanupWriteKeepsLogs(s: World, k: Identity, c: Cleanup)
    requires LogsOk(s) && k in s.cleanups && SameCharge(s.cleanups[k], c)
    ensures LogsOk(s.(cleanups := s.cleanups[k := c]))
  {
  }

  /** A worker's write that frees the lease, leaving the row's charge alone. */
  lemma ReleaseKeepsWorkers(s: World, k: Identity, c: Cleanup)
    requires WorkersOk(s) && k in s.cleanups && SameCharge(s.cleanups[k], c) && c.leaseToken.None?
    requires c.status.Completed? ==> exists j :: j in s.finished && j.identity == k
    ensures WorkersOk(s.(cleanups := s.cleanups[k := c]))
  {
  }

  lemma LeaseKeeps(s: World, k: Identity, now: Time, token: Token)
    requires Inv(s)
    ensures Inv(AcquireLease(s, k, now, token).0)
  {
    hide RowsOk, CleanupsOk, AttachmentsOk, ObjectsOk, TicketsOk, WorkersOk, LogsOk;
    var (t, outcome) := AcquireLease(s, k, now, token);
    if t != s {
      QueuedObjectsAreUnreferenced(s, k);
      CleanupHolds(s, k);
      GrantKeeps(s, k, now, token);
    }
  }

  lemma GrantKeeps(s: World, k: Identity, now: Time, token: Token)
    requires Inv(s) && k in s.cleanups && CleanupRowOk(s, k, s.cleanups[k])
    requires AcquireLease(s, k, now, token).1.Granted?
    ensures Inv(AcquireLease(s, k, now, token).0)
  {
    hide RowsOk, CleanupsOk, AttachmentsOk, ObjectsOk, TicketsOk, WorkersOk, LogsOk;
    var (t, outcome) := AcquireLease(s, k, now, token);
    LeaseKeepsWorkers(s, k, now, token);
    CleanupWriteKeepsRows(s, k, t.cleanups[k]);
    CleanupWriteKeepsLogs(s, k, t.cleanups[k]);
    IgnoresJobs(s.(cleanups := t.cleanups), t);
  }

  /** Granting one more lease disturbs nothing but the worker rules. */
  lemma IgnoresJobs(s: World, t: World)
    requires t == s.(jobs := t.jobs) && s.jobs <= t.jobs
    requires RowsOk(s) && ObjectsOk(s) && CleanupsOk(s) && AttachmentsOk(s) && TicketsOk(s) && LogsOk(s)
    ensures RowsOk(t) && ObjectsOk(t) && CleanupsOk(t) && AttachmentsOk(t) && TicketsOk(t) && LogsOk(t)
  {
    hide RowsOk, CleanupsOk, AttachmentsOk, ObjectsOk, TicketsOk, WorkersOk, LogsOk;
    RowsFrame(s, t);
    CleanupsFrame(s, t);
    AttachmentsFrame(s, t);
    ObjectsFrame(s, t);
    TicketsFrame(s, t);
    LogsFrame(s, t);
  }

  lemma LeaseKeepsWorkers(s: World, k: Identity, now: Time, token: Token)
    requires WorkersOk(s) && k in s.cleanups && CleanupRowOk(s, k, s.cleanups[k])
    requires AcquireLease(s, k, now, token).1.Granted?
    ensures WorkersOk(AcquireLease(s, k, now, token).0)
    ensures CleanupRowOk(s, k, AcquireLease(s, k, now, token).0.cleanups[k])
  {
  }

  lemma DeleteKeeps(s: World, job: Job, outcome: DeleteOutcome)
    requires Inv(s)
    ensures Inv(DeleteObjects(s, job, outcome))
  {
    var t := DeleteObjects(s, job, outcome);
    hide RowsOk, CleanupsOk, AttachmentsOk, ObjectsOk, TicketsOk, WorkersOk, LogsOk;
    if t != s {
      JobHolds(s, job);
      CleanupHolds(s, job.identity);
      DeleteKeepsBooks(s, job, outcome);
      DeleteKeepsLogs(s, job, outcome);
      DeleteKeepsObjects(s, job, outcome);
    }
  }

  lemma JobHolds(s: World, job: Job)
    requires WorkersOk(s) && job in s.jobs
    ensures JobOk(s, job)
  {
  }

  lemma DeleteKeepsBooks(s: World, job: Job, outcome: DeleteOutcome)
    requires RowsOk(s) && CleanupsOk(s) && AttachmentsOk(s) && TicketsOk(s) && WorkersOk(s) && DeletionAllowed(s, job)
    ensures var t := DeleteObjects(s, job, outcome);
            RowsOk(t) && CleanupsOk(t) && AttachmentsOk(t) && TicketsOk(t) && WorkersOk(t)
  {
    hide RowsOk, CleanupsOk, AttachmentsOk, TicketsOk;
    var t := DeleteObjects(s, job, outcome);
    RowsFrame(s, t);
    CleanupsFrame(s, t);
    AttachmentsFrame(s, t);
    TicketsFrame(s, t);
    forall j | j in t.jobs ensures JobOk(t, j) { assert JobOk(s, j); }
  }

  lemma DeleteKeepsLogs(s: World, job: Job, outcome: DeleteOutcome)
    requires LogsOk(s) && DeletionAllowed(s, job) && JobOk(s, job)
    ensures LogsOk(DeleteObjects(s, job, outcome))
  {
  }

  lemma DeleteKeepsObjects(s: World, job: Job, outcome: DeleteOutcome)
    requires RowsOk(s) && ObjectsOk(s) && DeletionAllowed(s, job) && JobOk(s, job)
    requires CleanupRowOk(s, job.identity, s.cleanups[job.identity])
    ensures ObjectsOk(DeleteObjects(s, job, outcome))
  {
    var t := DeleteObjects(s, job, outcome);
    var mine := job.uploadId.value;
    forall id | id in t.uploads && !Terminal(t.uploads[id].status) && KeyOf(t.uploads[id].identity) in t.arrived
      ensures KeyOf(t.uploads[id].identity) in t.objects
    {
      if KeyOf(t.uploads[id].identity) == KeyOf(job.identity) {
        assert RowOk(s.cfg, id, s.uploads[id]) && RowOk(s.cfg, mine, s.uploads[mine]);
        SameIdentity(s, id, mine);
      }
    }
    assert Deletion(s.clock, job) in t.deletions;
    forall key | key in t.arrived && key !in t.objects
      ensures exists d :: d in t.deletions && KeyOf(d.job.identity) == key
    {
      if key != KeyOf(job.identity) {
        var d :| d in s.deletions && KeyOf(d.job.identity) == key;
        assert d in t.deletions;
      }
    }
  }

  lemma CompleteKeeps(s: World, job: Job, now: Time)
    requires Inv(s)
    ensures Inv(MarkCompleted(s, job, now))
  {
    hide RowsOk, CleanupsOk, AttachmentsOk, ObjectsOk, TicketsOk, WorkersOk, LogsOk;
    var t := MarkCompleted(s, job, now);
    if t != s {
      CleanupHolds(s, job.identity);
      CleanupWriteKeepsRows(s, job.identity, t.cleanups[job.identity]);
      CleanupWriteKeepsLogs(s, job.identity, t.cleanups[job.identity]);
      ReleaseKeepsWorkers(s, job.identity, t.cleanups[job.identity]);
    }
  }

  lemma RetryKeeps(s: World, job: Job, now: Time, jitter: nat)
    requires Inv(s)
    ensures Inv(ScheduleRetry(s, job, now, jitter))
  {
    hide RowsOk, CleanupsOk, AttachmentsOk, ObjectsOk, TicketsOk, WorkersOk, LogsOk;
    var t := ScheduleRetry(s, job, now, jitter);
    if t != s {
      CleanupHolds(s, job.identity);
      CleanupWriteKeepsRows(s, job.identity, t.cleanups[job.identity]);
      CleanupWriteKeepsLogs(s, job.identity, t.cleanups[job.identity]);
      ReleaseKeepsWorkers(s, job.identity, t.cleanups[job.identity]);
    }
  }

  // ---- All steps, all runs ---------------------------------------------------------------------------

  lemma StartHolds(cfg: Config, storage: StorageContext, clock: Time)
    requires ValidConfig(cfg)
    ensures Inv(Start(cfg, storage, clock))
  {
  }

  lemma UploadStepKeeps(s: World, step: Step)
    requires Inv(s)
    requires step.Intend? || step.ReserveStep? || step.AskStep? || step.CommitStep? || step.ExpireStep? || step.RejectStep?
    ensures Inv(Apply(s, step))
  {
    hide Inv;
    match step
    case Intend(id, actor, purpose, target, secret, now) => IntendKeeps(s, id, actor, purpose, target, secret, now);
    case ReserveStep(id, now) => ReserveKeeps(s, id, now);
    case AskStep(ticket, reply) => AskKeeps(s, ticket, reply);
    case CommitStep(answer, hash, now) => CommitKeeps(s, answer, hash, now);
    case ExpireStep(id, now) => ExpireKeeps(s, id, now);
    case RejectStep(id, now) => RejectKeeps(s, id, now);
  }

  lemma AssetStepKeeps(s: World, step: Step)
    requires Inv(s)
    requires step.CreateStep? || step.ReplaceStep? || step.CreatePlain? || step.EditUrl?
    ensures Inv(Apply(s, step))
  {
    hide Inv;
    match step
    case CreateStep(r, now) => CreateKeeps(s, r, now);
    case ReplaceStep(r, now, unmoved) => ReplaceKeeps(s, r, now, unmoved);
    case CreatePlain(a, url) => if a !in s.assets { PlainWriteKeeps(s, a, AssetRow(None, url)); }
    case EditUrl(a, url) => if a in s.assets && s.assets[a].locator.None? { PlainWriteKeeps(s, a, AssetRow(None, url)); }
  }

  lemma WorkerStepKeeps(s: World, step: Step)
    requires Inv(s)
    requires step.LeaseStep? || step.DeleteStep? || step.CompleteStep? || step.RetryStep?
    ensures Inv(Apply(s, step))
  {
    hide Inv;
    match step
    case LeaseStep(k, now, token) => LeaseKeeps(s, k, now, token);
    case DeleteStep(job, outcome) => DeleteKeeps(s, job, outcome);
    case CompleteStep(job, now) => CompleteKeeps(s, job, now);
    case RetryStep(job, now, jitter) => RetryKeeps(s, job, now, jitter);
  }

  lemma StepKeeps(s: World, step: Step)
    requires Inv(s)
    ensures Inv(Apply(s, step))
  {
    hide Inv, Apply;
    if step.Tick? || step.SwitchStorage? || step.Receive? || step.ObjectArrives? {
      OutsideStepKeeps(s, step);
    } else if step.LeaseStep? || step.DeleteStep? || step.CompleteStep? || step.RetryStep? {
      WorkerStepKeeps(s, step);
    } else if step.CreateStep? || step.ReplaceStep? || step.CreatePlain? || step.EditUrl? {
      AssetStepKeeps(s, step);
    } else {
      UploadStepKeeps(s, step);
    }
  }

  lemma {:induction false} RunKeeps(s: World, steps: seq<Step>)
    requires Inv(s)
    ensures Inv(Run(s, steps))
    decreases |steps|
  {
    hide Inv, Apply;
    if steps != [] {
      StepKeeps(s, steps[0]);
      RunKeeps(Apply(s, steps[0]), steps[1..]);
    }
  }
}
