/**
 * The image services' longer operations: several transactions, with anything the other processes
 * may do in between. Each is proved to be a run of the protocol, so every invariant survives it.
 */
module ImageOperations {
  import opened Prelude
  import opened ImagePolicy
  import opened ImageState
  import opened ImageTransactions
  import opened ImageProtocol
  import opened ImageInvariant
  import opened ImageSafety
  import opened ImageDatabase
  import opened ImageServices
  import opened ImageWorkers
  import opened ImageTerms

  // ---- Traces -----------------------------------------------------------------------------------------

  /** `s` leads to `t` by `trace`, keeping every invariant and moving rows forward only. */
  ghost predicate Reaches(s: World, trace: seq<Step>, t: World) {
    Inv(s) && t == Run(s, trace) && Inv(t) && Evolves(s, t)
  }

  lemma Here(s: World)
    requires Inv(s)
    ensures Reaches(s, [], s)
  {
    hide Inv, Evolves;
    SelfEvolves(s);
  }

  lemma Onwards(s: World, trace: seq<Step>, t: World, more: seq<Step>)
    requires Reaches(s, trace, t)
    ensures Reaches(s, trace + more, Run(t, more))
  {
    hide Inv, Evolves, Apply;
    RunAppend(s, trace, more);
    RunEvolves(t, more);
    EvolvesTransitively(s, t, Run(t, more));
  }

  lemma Then(s: World, trace: seq<Step>, t: World, step: Step)
    requires Reaches(s, trace, t)
    ensures Reaches(s, trace + [step], Apply(t, step))
  {
    hide Reaches, Inv, Apply;
    Onwards(s, trace, t, [step]);
    assert Run(t, [step]) == Run(Apply(t, step), []);
  }

  /** The steps others take while a request holds `mine`: nobody else spends its ticket. */
  function Without(steps: seq<Step>, mine: Option<Ticket>): seq<Step> {
    if steps == [] then []
    else (if steps[0].AskStep? && mine == Some(steps[0].ticket) then [] else [steps[0]]) + Without(steps[1..], mine)
  }

  lemma TicketIsKept(s: World, step: Step, mine: Ticket)
    requires mine in s.tickets && !(step.AskStep? && step.ticket == mine)
    ensures mine in Apply(s, step).tickets
  {
    hide ClaimUpload;
    if step.CreateStep? {
      ClaimLeavesTickets(s, step.request, None, None, step.now);
    } else if step.ReplaceStep? && step.request.target in s.assets {
      ClaimLeavesTickets(s, step.request, s.assets[step.request.target].locator, s.assets[step.request.target].imageUrl, step.now);
    }
  }

  lemma ClaimLeavesTickets(s: World, r: ClaimRequest, previous: Option<Locator>, url: Option<Url>, now: Time)
    ensures ClaimUpload(s, r, previous, url, now).0.tickets == s.tickets
  {
  }

  lemma SkipOne(steps: seq<Step>, i: nat, mine: Option<Ticket>, done: seq<Step>)
    requires i < |steps| && done + Without(steps[i..], mine) == Without(steps, mine)
    ensures done + (if steps[i].AskStep? && mine == Some(steps[i].ticket) then [] else [steps[i]]) + Without(steps[i + 1..], mine)
            == Without(steps, mine)
  {
  }

  /** Whatever the other processes do before this one goes on. */
  method RunOthers(db: Database, steps: seq<Step>, mine: Option<Ticket>)
    requires Inv(db.State())
    requires mine.Some? ==> mine.value in db.tickets
    modifies db
    ensures Reaches(old(db.State()), Without(steps, mine), db.State())
    ensures mine.Some? ==> mine.value in db.tickets
  {
    hide Inv, Apply, Evolves, Run, Reaches, Without;
    var i := 0;
    ghost var done: seq<Step> := [];
    Here(db.State());
    assert steps[0..] == steps;
    while i < |steps|
      invariant 0 <= i <= |steps|
      invariant done + Without(steps[i..], mine) == Without(steps, mine)
      invariant Reaches(old(db.State()), done, db.State()) && Inv(db.State())
      invariant mine.Some? ==> mine.value in db.tickets
    {
      SkipOne(steps, i, mine, done);
      if !(steps[i].AskStep? && mine == Some(steps[i].ticket)) {
        ghost var s := db.State();
        Perform(db, steps[i]);
        Then(old(db.State()), done, s, steps[i]);
        StepKeeps(s, steps[i]);
        if mine.Some? { TicketIsKept(s, steps[i], mine.value); }
        done := done + [steps[i]];
      }
      i := i + 1;
    }
    WithoutNone(steps[i..], mine);
    assert done == Without(steps, mine);
  }

  lemma WithoutNone(steps: seq<Step>, mine: Option<Ticket>)
    ensures steps == [] ==> Without(steps, mine) == []
  {
  }

  // ---- image-upload.service.ts: complete ----------------------------------------------------------------

  lemma OneStep(s: World, step: Step)
    requires Inv(s)
    ensures Reaches(s, [step], Apply(s, step))
  {
    hide Inv, Apply, Evolves;
    StepKeeps(s, step);
    StepEvolves(s, step);
    assert Run(s, [step]) == Run(Apply(s, step), []);
  }

  lemma Chain(s: World, a: seq<Step>, t: World, b: seq<Step>, w: World)
    requires Reaches(s, a, t) && Reaches(t, b, w)
    ensures Reaches(s, a + b, w)
  {
    hide Inv, Apply, Evolves;
    Onwards(s, a, t, b);
  }

  /** What a row read earlier still says about the row now. */
  lemma RowSince(s: World, trace: seq<Step>, t: World, id: UploadId)
    requires Reaches(s, trace, t) && id in s.uploads
    ensures s.clock <= t.clock && t.cfg == s.cfg && s.answers <= t.answers && id in t.uploads && RowEvolves(s.uploads[id], t.uploads[id])
  {
    hide Inv, Run;
  }

  lemma Arrived(s: World, trace: seq<Step>, t: World)
    requires Reaches(s, trace, t)
    ensures Inv(t) && t == Run(s, trace) && (trace == [] ==> t == s)
  {
    hide Inv;
  }

  method GiveUp(db: Database, id: UploadId) returns (ghost trace: seq<Step>)
    requires Inv(db.State())
    modifies db
    ensures Reaches(old(db.State()), trace, db.State())
    ensures id in old(db.uploads) ==> id in db.uploads
    ensures if id in old(db.uploads) && Overdue(old(db.uploads[id]), old(db.clock))
            then db.uploads == old(db.uploads)[id := old(db.uploads[id]).(status := Expired)]
            else db.State() == old(db.State())
  {
    hide Inv, Evolves, Run;
    trace := [ExpireStep(id, db.clock)];
    OneStep(db.State(), trace[0]);
    MarkExpired(db, id);
  }

  method Discard(db: Database, id: UploadId) returns (ghost trace: seq<Step>)
    requires Inv(db.State())
    modifies db
    ensures Reaches(old(db.State()), trace, db.State())
    ensures if id in old(db.uploads) && old(db.uploads[id]).status.Authorized?
            then db.uploads == old(db.uploads)[id := old(db.uploads[id]).(status := Rejected)]
            else db.State() == old(db.State())
  {
    hide Inv, Evolves, Run;
    trace := [RejectStep(id, db.clock)];
    OneStep(db.State(), trace[0]);
    MarkRejected(db, id);
  }

  /** What a successful completion hands back: the row as it stands, verified and inside its window. */
  predicate Completed(s: World, id: UploadId, u: Upload, hash: Digest, since: Time) {
    && id in s.uploads && u == s.uploads[id] && u.status.VerifiedPending? && u.verified.Some?
    && u.verified.value.hash == hash && since < u.verified.value.attachmentExpiresAt
  }

  /**
   * What becomes of an upload when the provider has described its object: `s` is where that is judged,
   * `s1` where it is recorded, after whatever others did in between.
   */
  ghost predicate Judged(s: World, s1: World, t: World, id: UploadId, o: ProviderObject, hash: Digest, r: Result<Upload, UploadError>)
    requires id in s.uploads
  {
    var u := s.uploads[id];
    if !Acceptable(u, o) then r == Err(Conflict) && t.uploads == s.uploads[id := if u.status.Authorized? then u.(status := Rejected) else u]
    else if u.intentExpiresAt <= s.clock || o.createdAt + s.cfg.attachmentMs <= s.clock then
      r == Err(Gone) && t.uploads == s.uploads[id := if Overdue(u, s.clock) then u.(status := Expired) else u]
    else
      && id in s1.uploads
      && var c := s1.uploads[id];
         if c.status.Authorized? then
           var v := c.(status := VerifiedPending,
                       verified := Some(Evidence(o.createdAt, o.createdAt + s.cfg.attachmentMs, o.version, o.format, o.bytes,
                                                 o.width, o.height, o.pages, hash)));
           r == Ok(v) && t == s1.(uploads := s1.uploads[id := v])
         else
           && t == s1
           && r == if c.status.VerifiedPending? && c.verified.Some? && c.verified.value.hash == hash
                      && s.clock < c.verified.value.attachmentExpiresAt then Ok(c)
                   else if c.status.Expired? then Err(Gone) else Err(Conflict)
  }

  lemma PolicyInTerms(u: Upload, o: ProviderObject)
    ensures ObjectMeetsPolicy(u, o) <==> Acceptable(u, o)
  {
  }

  lemma MeetsPolicyStill(u: Upload, v: Upload, o: ProviderObject)
    requires SameIntent(u, v)
    ensures ObjectMeetsPolicy(u, o) <==> ObjectMeetsPolicy(v, o)
  {
  }

  /** From the provider's description to the recorded evidence; `upload` is the row read at the start. */
  method RecordEvidence(db: Database, upload: Upload, answer: Answer, hash: Digest, others: seq<Step>)
    returns (r: Result<Upload, UploadError>, ghost trace: seq<Step>)
    requires Inv(db.State()) && answer in db.answers && answer.ticket.uploadId in db.uploads
    requires RowEvolves(upload, db.uploads[answer.ticket.uploadId])
    modifies db
    ensures Reaches(old(db.State()), trace, db.State())
    ensures r.Ok? ==> Completed(db.State(), answer.ticket.uploadId, r.value, hash, old(db.clock))
    ensures Judged(old(db.State()), Run(old(db.State()), Without(others, None)), db.State(), answer.ticket.uploadId, answer.found, hash, r)
  {
    hide Inv, Evolves, Run, Reaches, Apply, ObjectMeetsPolicy;
    var id := answer.ticket.uploadId;
    ghost var s0 := db.State();
    hide Acceptable;
    MeetsPolicyStill(upload, db.uploads[id], answer.found);
    PolicyInTerms(db.uploads[id], answer.found);
    if !ObjectMeetsPolicy(upload, answer.found) {
      trace := Discard(db, id);
      return Err(Conflict), trace;
    }
    var now := db.clock;
    if upload.intentExpiresAt <= now || answer.found.createdAt + db.cfg.attachmentMs <= now {
      trace := GiveUp(db, id);
      return Err(Gone), trace;
    }
    RunOthers(db, others, None);
    trace := Without(others, None);
    ghost var s1 := db.State();
    RowSince(s0, trace, s1, id);
    Arrived(s0, trace, s1);
    MeetsPolicyStill(upload, db.uploads[id], answer.found);
    Then(s0, trace, s1, CommitStep(answer, hash, now));
    ApplyCommit(s1, answer, hash, now);
    trace := trace + [CommitStep(answer, hash, now)];
    var changed := RecordVerified(db, answer, hash, now);
    if changed {
      return Ok(db.uploads[id]), trace;
    }
    var current := db.uploads[id];
    if current.status.VerifiedPending? && current.verified.Some? && current.verified.value.hash == hash
       && current.verified.value.attachmentExpiresAt > now {
      return Ok(current), trace;
    }
    if current.status.Expired? || (current.status.Authorized? && current.intentExpiresAt <= now) {
      ghost var s2 := db.State();
      Arrived(s0, trace, s2);
      ghost var more := GiveUp(db, id);
      Chain(s0, trace, s2, more, db.State());
      return Err(Gone), trace + more;
    }
    return Err(Conflict), trace;
  }

  lemma ApplyCommit(s: World, a: Answer, hash: Digest, now: Time)
    ensures Apply(s, CommitStep(a, hash, now)) == CommitVerified(s, a, hash, now)
  {
  }

  lemma ApplyReserve(s: World, id: UploadId, now: Time)
    ensures Apply(s, ReserveStep(id, now)) == ReserveAttempt(s, id, now)
  {
  }

  lemma ApplyAsk(s: World, ticket: Ticket, reply: Option<ProviderObject>)
    ensures Apply(s, AskStep(ticket, reply)) == AskProvider(s, ticket, reply)
  {
  }

  /** The same when the provider is asked, in `s`: it may not answer, or refuse the object itself. */
  ghost predicate Asked(s: World, t: World, ticket: Ticket, hash: Digest, reply: Option<ProviderObject>, refused: bool,
                        after: seq<Step>, r: Result<Upload, UploadError>) {
    var id := ticket.uploadId;
    && id in s.uploads
    && var u := s.uploads[id];
       if reply.None? || ObjectKey(u.identity.context, u.identity.publicId) !in s.objects
       then r == Err(Unavailable) && t.uploads == s.uploads[id := if refused && u.status.Authorized? then u.(status := Rejected) else u]
       else
         var asked := AskProvider(s, ticket, reply);
         id in asked.uploads && Judged(asked, Run(asked, Without(after, None)), t, id, reply.value, hash, r)
  }

  /** Ask the provider on a reserved ticket and record what it found; the request owns its ticket. */
  method AskAndRecord(db: Database, upload: Upload, ticket: Ticket, hash: Digest, reply: Option<ProviderObject>, refused: bool,
                      during: seq<Step>, after: seq<Step>)
    returns (r: Result<Upload, UploadError>, ghost trace: seq<Step>)
    requires Inv(db.State()) && ticket in db.tickets && ticket.uploadId in db.uploads
    requires RowEvolves(upload, db.uploads[ticket.uploadId])
    modifies db
    ensures Reaches(old(db.State()), trace, db.State())
    ensures r.Ok? ==> Completed(db.State(), ticket.uploadId, r.value, hash, old(db.clock))
    ensures Asked(Run(old(db.State()), Without(during, Some(ticket))), db.State(), ticket, hash, reply, refused, after, r)
  {
    hide Inv, Evolves, Run, Reaches, Apply, ObjectMeetsPolicy;
    var id := ticket.uploadId;
    ghost var s0 := db.State();
    RunOthers(db, during, Some(ticket));
    trace := Without(during, Some(ticket));
    ghost var s1 := db.State();
    RowSince(s0, trace, s1, id);
    Arrived(s0, trace, s1);
    ApplyAsk(s1, ticket, reply);
    Then(s0, trace, s1, AskStep(ticket, reply));
    trace := trace + [AskStep(ticket, reply)];
    var answer := VerifyUploadedObject(db, ticket, reply);
    ghost var s2 := db.State();
    Arrived(s0, trace, s2);
    ghost var more := [];
    if answer.None? {
      r := Err(Unavailable);
      if refused { more := Discard(db, id); } else { Here(s2); }
    } else {
      r, more := RecordEvidence(db, upload, answer.value, hash, after);
    }
    Chain(s0, trace, s2, more, db.State());
    trace := trace + more;
  }

  /** The same from the reservation on, made in `s`: without an attempt left, nothing is asked. */
  ghost predicate Verified(s: World, t: World, startedAt: Time, id: UploadId, hash: Digest, reply: Option<ProviderObject>, refused: bool,
                           during: seq<Step>, after: seq<Step>, r: Result<Upload, UploadError>) {
    && id in s.uploads
    && var u := s.uploads[id];
       if u.status.Authorized? && startedAt < u.intentExpiresAt && u.attempts < s.cfg.attemptLimit then
         var ticket := Ticket(id, u.attempts + 1);
         Asked(Run(ReserveAttempt(s, id, startedAt), Without(during, Some(ticket))), t, ticket, hash, reply, refused, after, r)
       else if u.status.Authorized? && u.attempts >= s.cfg.attemptLimit then r == Err(RateLimited) && t == s
       else if u.status.Authorized? && u.intentExpiresAt <= s.clock then r == Err(Gone) && t.uploads == s.uploads[id := u.(status := Expired)]
       else r == Err(Conflict) && t == s
  }

  /** Reserve an attempt, then use it. */
  method VerifyAndRecord(db: Database, upload: Upload, id: UploadId, hash: Digest, reply: Option<ProviderObject>, refused: bool,
                         before: seq<Step>, during: seq<Step>, after: seq<Step>)
    returns (r: Result<Upload, UploadError>, ghost trace: seq<Step>)
    requires Inv(db.State()) && id in db.uploads && RowEvolves(upload, db.uploads[id])
    modifies db
    ensures Reaches(old(db.State()), trace, db.State())
    ensures r.Ok? ==> Completed(db.State(), id, r.value, hash, old(db.clock))
    ensures Verified(Run(old(db.State()), Without(before, None)), db.State(), old(db.clock), id, hash, reply, refused, during, after, r)
  {
    hide Inv, Evolves, Run, Reaches, Apply, ObjectMeetsPolicy;
    var startedAt := db.clock;
    ghost var s0 := db.State();
    RunOthers(db, before, None);
    trace := Without(before, None);
    ghost var s1 := db.State();
    RowSince(s0, trace, s1, id);
    Arrived(s0, trace, s1);
    ApplyReserve(s1, id, startedAt);
    Then(s0, trace, s1, ReserveStep(id, startedAt));
    trace := trace + [ReserveStep(id, startedAt)];
    var ticket := BuyAttempt(db, id, startedAt);
    ghost var s2 := db.State();
    Arrived(s0, trace, s2);
    ghost var more := [];
    if reply.Some? { MeetsPolicyStill(s1.uploads[id], s2.uploads[id], reply.value); }
    if ticket.Some? {
      r, more := AskAndRecord(db, upload, ticket.value, hash, reply, refused, during, after);
    } else {
      var current := db.uploads[id];
      if current.status.Authorized? && current.attempts >= db.cfg.attemptLimit {
        r := Err(RateLimited);
        Here(s2);
      } else if current.status.Authorized? && current.intentExpiresAt <= db.clock {
        more := GiveUp(db, id);
        r := Err(Gone);
      } else {
        r := Err(Conflict);
        Here(s2);
      }
    }
    Chain(s0, trace, s2, more, db.State());
    trace := trace + more;
  }

  /**
   * The owner's answer and the row, from every status an upload can have, with whatever others do before
   * the reservation, while the provider is asked, and before the answer is recorded.
   */
  ghost predicate Completes(s: World, t: World, actor: UserId, permitted: bool, id: UploadId, hash: Digest, reply: Option<ProviderObject>,
                            refused: bool, before: seq<Step>, during: seq<Step>, after: seq<Step>, r: Result<Upload, UploadError>) {
    if id !in s.uploads || s.uploads[id].uploader != actor then r == Err(NotFound) && t == s
    else if !permitted then r == Err(NotAllowed) && t == s
    else
      var u := s.uploads[id];
      match u.status
      case VerifiedPending =>
        if u.verified.None? || u.verified.value.hash != hash then r == Err(Conflict) && t == s
        else if u.verified.value.attachmentExpiresAt <= s.clock then r == Err(Gone) && t.uploads == s.uploads[id := u.(status := Expired)]
        else r == Ok(u) && t == s
      case Authorized =>
        if u.intentExpiresAt <= s.clock then r == Err(Gone) && t.uploads == s.uploads[id := u.(status := Expired)]
        else Verified(Run(s, Without(before, None)), t, s.clock, id, hash, reply, refused, during, after, r)
      case Expired => r == Err(Gone) && t == s
      case _ => r == Err(Conflict) && t == s
  }

  predicate AlreadyComplete(s: World, id: UploadId, hash: Digest) {
    && id in s.uploads && s.uploads[id].status.VerifiedPending? && s.uploads[id].verified.Some?
    && s.uploads[id].verified.value.hash == hash && s.clock < s.uploads[id].verified.value.attachmentExpiresAt
  }

  /**
   * `complete`: whatever other processes do in its gaps, success means the upload is verified with
   * this evidence and inside its window; repeating a success changes nothing; and the answer and the row are those
   * of `Completes`.
   */
  method CompleteUpload(db: Database, actor: UserId, permitted: bool, id: UploadId, hash: Digest,
                        reply: Option<ProviderObject>, refused: bool, before: seq<Step>, during: seq<Step>, after: seq<Step>)
    returns (r: Result<Upload, UploadError>, ghost trace: seq<Step>)
    requires Inv(db.State())
    modifies db
    ensures Reaches(old(db.State()), trace, db.State())
    ensures r.Ok? ==> Completed(db.State(), id, r.value, hash, old(db.clock)) && r.value.uploader == actor && permitted
    ensures id in old(db.uploads) && old(db.uploads[id]).uploader == actor && permitted && AlreadyComplete(old(db.State()), id, hash)
            ==> r == Ok(old(db.uploads[id])) && db.State() == old(db.State())
    ensures Completes(old(db.State()), db.State(), actor, permitted, id, hash, reply, refused, before, during, after, r)
  {
    hide Inv, Evolves, Run, Apply, ObjectMeetsPolicy;
    Here(db.State());
    hide Reaches;
    trace := [];
    if id !in db.uploads || db.uploads[id].uploader != actor { return Err(NotFound), trace; }
    if !permitted { return Err(NotAllowed), trace; }
    var upload := db.uploads[id];
    if upload.status.VerifiedPending? {
      if upload.verified.None? || upload.verified.value.hash != hash { return Err(Conflict), trace; }
      if upload.verified.value.attachmentExpiresAt <= db.clock {
        trace := GiveUp(db, id);
        return Err(Gone), trace;
      }
      return Ok(upload), trace;
    }
    if upload.status.Expired? { return Err(Gone), trace; }
    if !upload.status.Authorized? { return Err(Conflict), trace; }
    if upload.intentExpiresAt <= db.clock {
      trace := GiveUp(db, id);
      return Err(Gone), trace;
    }
    ghost var s0 := db.State();
    r, trace := VerifyAndRecord(db, upload, id, hash, reply, refused, before, during, after);
    RowSince(s0, trace, db.State(), id);
  }

  // ---- asset.service.ts: create with an image --------------------------------------------------------------

  /** What `create` answers, given the states its three database visits found. */
  ghost function CreateOutcome(atRetry: World, atPreflight: World, atClaim: World, r: ClaimRequest): SaveOutcome {
    match PriorTarget(atRetry, r)
    case Err(e) => Failed(e)
    case Ok(Some(a)) => if a in atRetry.assets then ReplayedSave(a) else Failed(TargetMissing)
    case Ok(None) =>
      match PreflightError(atPreflight, r, atPreflight.clock)
      case Some(e) => Failed(e)
      case None => CreateAssetWithImage(atClaim, r, atClaim.clock).1
  }

  /** With nothing between its visits a create answers as its transaction alone would. */
  lemma CreateAtOnce(s: World, r: ClaimRequest)
    requires r.operation.CreateTarget? && r.purpose.AssetImage?
    ensures CreateOutcome(s, s, s, r) == CreateAssetWithImage(s, r, s.clock).1
    ensures !CreateOutcome(s, s, s, r).Saved? ==> CreateAssetWithImage(s, r, s.clock).0 == s
    ensures CreateAnswers(s, CreateAssetWithImage(s, r, s.clock).0, r, s.clock, CreateAssetWithImage(s, r, s.clock).1)
  {
    CreateInTerms(s, r, s.clock);
    hide CreateAnswers;
  }

  /** A saved asset shows the image, names its upload, and did not exist before. */
  method CreateWithImage(db: Database, r: ClaimRequest, beforePreflight: seq<Step>, beforeClaim: seq<Step>)
    returns (result: SaveOutcome, ghost atPreflight: World, ghost atClaim: World)
    requires Inv(db.State()) && r.operation.CreateTarget? && r.purpose.AssetImage?
    modifies db
    ensures Reaches(old(db.State()), Without(beforePreflight, None), atPreflight) || atPreflight == old(db.State())
    ensures Reaches(atPreflight, Without(beforeClaim, None), atClaim) || atClaim == atPreflight
    ensures db.State() == atClaim || Reaches(atClaim, [CreateStep(r, atClaim.clock)], db.State())
    ensures result == CreateOutcome(old(db.State()), atPreflight, atClaim, r)
    ensures beforePreflight == beforeClaim == [] ==> CreateAnswers(old(db.State()), db.State(), r, old(db.clock), result)
    ensures result.Saved? ==> result.asset == r.target && r.target !in atClaim.assets && AttachedTo(db.State(), r.target, r.uploadId)
    ensures Inv(db.State())
  {
    hide Inv, Evolves, Run, Reaches, ClaimRefusal, ClaimUpload, TargetContextMatches, PriorTarget, PreflightError, CreateAssetWithImage,
         CreateAnswers, Owned, MeantFor, Repeats, Attachable, TooLate, Current;
    atPreflight, atClaim := db.State(), db.State();
    CreateAtOnce(db.State(), r);
    var prior := CommittedTargetForRetry(db, r);
    if prior.Err? { return Failed(prior.error), atPreflight, atClaim; }
    if prior.value.Some? {
      if prior.value.value !in db.assets { return Failed(TargetMissing), atPreflight, atClaim; }
      return ReplayedSave(prior.value.value), atPreflight, atClaim;
    }
    RunOthers(db, beforePreflight, None);
    Arrived(old(db.State()), Without(beforePreflight, None), db.State());
    atPreflight, atClaim := db.State(), db.State();
    var error := PreflightClaim(db, r);
    if error.Some? { return Failed(error.value), atPreflight, atClaim; }
    RunOthers(db, beforeClaim, None);
    Arrived(atPreflight, Without(beforeClaim, None), db.State());
    atClaim := db.State();
    OneStep(atClaim, CreateStep(r, db.clock));
    result := CreateAsset(db, r, db.clock);
    Arrived(atClaim, [CreateStep(r, db.clock)], db.State());
    if result.Saved? { CreatedIsAttached(atClaim, r); }
  }

  lemma CreatedIsAttached(s: World, r: ClaimRequest)
    requires CreateAssetWithImage(s, r, s.clock).1.Saved? && Inv(Apply(s, CreateStep(r, s.clock)))
    ensures CreateAssetWithImage(s, r, s.clock).1.asset == r.target && r.target !in s.assets
    ensures AttachedTo(Apply(s, CreateStep(r, s.clock)), r.target, r.uploadId)
  {
    hide Apply, RowsOk, CleanupsOk, ObjectsOk, TicketsOk, WorkersOk, LogsOk;
    assert Creates(s, CreateStep(r, s.clock), r.uploadId);
    CreatedIsClaimed(s, CreateStep(r, s.clock), r.uploadId);
  }

  // ---- asset.service.ts: update with an image --------------------------------------------------------------

  /** What `update` answers, given the states its database visits found; `unmoved` as in its transaction. */
  ghost function UpdateOutcome(atRetry: World, atPreflight: World, atClaim: World, r: ClaimRequest, unmoved: bool): SaveOutcome {
    if r.target !in atRetry.assets then Failed(TargetMissing)
    else
      match PriorTarget(atRetry, r)
      case Err(e) => Failed(e)
      case Ok(Some(a)) => ReplayedSave(r.target)
      case Ok(None) =>
        match PreflightError(atPreflight, r, atPreflight.clock)
        case Some(e) => Failed(e)
        case None => ReplaceAssetImage(atClaim, r, atClaim.clock, unmoved).1
  }

  lemma UpdateAtOnce(s: World, r: ClaimRequest, unmoved: bool)
    requires r.operation.UpdateTarget? && r.purpose.AssetImage?
    ensures UpdateOutcome(s, s, s, r, unmoved) == ReplaceAssetImage(s, r, s.clock, unmoved).1
    ensures !UpdateOutcome(s, s, s, r, unmoved).Saved? ==> ReplaceAssetImage(s, r, s.clock, unmoved).0 == s
    ensures UpdateAnswers(s, ReplaceAssetImage(s, r, s.clock, unmoved).0, r, s.clock, unmoved, ReplaceAssetImage(s, r, s.clock, unmoved).1)
  {
    UpdateInTerms(s, r, s.clock, unmoved);
    hide UpdateAnswers;
  }

  /** A saved asset shows the image; the upload it showed before, if any, is superseded. */
  method UpdateWithImage(db: Database, r: ClaimRequest, unmoved: bool, beforePreflight: seq<Step>, beforeClaim: seq<Step>)
    returns (result: SaveOutcome, ghost atPreflight: World, ghost atClaim: World)
    requires Inv(db.State()) && r.operation.UpdateTarget? && r.purpose.AssetImage?
    modifies db
    ensures Reaches(old(db.State()), Without(beforePreflight, None), atPreflight) || atPreflight == old(db.State())
    ensures Reaches(atPreflight, Without(beforeClaim, None), atClaim) || atClaim == atPreflight
    ensures db.State() == atClaim || Reaches(atClaim, [ReplaceStep(r, atClaim.clock, unmoved)], db.State())
    ensures result == UpdateOutcome(old(db.State()), atPreflight, atClaim, r, unmoved)
    ensures beforePreflight == beforeClaim == [] ==> UpdateAnswers(old(db.State()), db.State(), r, old(db.clock), unmoved, result)
    ensures result.Saved? ==> result.asset == r.target && unmoved && AttachedTo(db.State(), r.target, r.uploadId)
    ensures Inv(db.State())
  {
    hide Inv, Evolves, Run, Reaches, ClaimRefusal, ClaimUpload, TargetContextMatches, PriorTarget, PreflightError, ReplaceAssetImage,
         UpdateAnswers, Owned, MeantFor, Repeats, Attachable, TooLate, Current;
    atPreflight, atClaim := db.State(), db.State();
    UpdateAtOnce(db.State(), r, unmoved);
    if r.target !in db.assets { return Failed(TargetMissing), atPreflight, atClaim; }
    var prior := CommittedTargetForRetry(db, r);
    if prior.Err? { return Failed(prior.error), atPreflight, atClaim; }
    if prior.value.Some? { return ReplayedSave(r.target), atPreflight, atClaim; }
    RunOthers(db, beforePreflight, None);
    Arrived(old(db.State()), Without(beforePreflight, None), db.State());
    atPreflight, atClaim := db.State(), db.State();
    var error := PreflightClaim(db, r);
    if error.Some? { return Failed(error.value), atPreflight, atClaim; }
    RunOthers(db, beforeClaim, None);
    Arrived(atPreflight, Without(beforeClaim, None), db.State());
    atClaim := db.State();
    OneStep(atClaim, ReplaceStep(r, db.clock, unmoved));
    result := UpdateAssetImage(db, r, db.clock, unmoved);
    Arrived(atClaim, [ReplaceStep(r, db.clock, unmoved)], db.State());
    if result.Saved? { ReplacedIsAttached(atClaim, r, unmoved); }
  }

  lemma ReplacedIsAttached(s: World, r: ClaimRequest, unmoved: bool)
    requires Inv(s) && ReplaceAssetImage(s, r, s.clock, unmoved).1.Saved? && Inv(Apply(s, ReplaceStep(r, s.clock, unmoved)))
    ensures ReplaceAssetImage(s, r, s.clock, unmoved).1.asset == r.target && unmoved
    ensures AttachedTo(Apply(s, ReplaceStep(r, s.clock, unmoved)), r.target, r.uploadId)
  {
    ReplacedIsClaimed(s, r, s.clock, unmoved);
    hide Apply, RowsOk, CleanupsOk, ObjectsOk, TicketsOk, WorkersOk, LogsOk, ReplaceAssetImage;
  }

  /** A replacement that goes through leaves its upload claimed by its own request. */
  lemma ReplacedIsClaimed(s: World, r: ClaimRequest, now: Time, unmoved: bool)
    requires Inv(s) && ReplaceAssetImage(s, r, now, unmoved).1.Saved?
    ensures var t := Apply(s, ReplaceStep(r, now, unmoved));
            && ReplaceAssetImage(s, r, now, unmoved).1.asset == r.target && unmoved && r.target in t.assets
            && r.uploadId in s.uploads && r.uploadId in t.uploads && t.uploads[r.uploadId].status.Claimed?
            && t.uploads[r.uploadId].claim == Some(ClaimRecord(r.target, now, r.fingerprint))
  {
    hide RowsOk, CleanupsOk, AttachmentsOk, ObjectsOk, TicketsOk, WorkersOk, LogsOk;
    if s.assets[r.target].locator.Some? {
      var out := AttachmentOf(s, r.target);
      ReplacementIsASwap(s, r, now, out);
    }
  }
}
