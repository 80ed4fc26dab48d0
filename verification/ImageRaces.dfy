/**
 * Two identical save requests for one upload: what the second is told, for every order of its three
 * database visits and the first one's commit.
 */
module ImageRaces {
  import opened Prelude
  import opened ImagePolicy
  import opened ImageState
  import opened ImageTransactions
  import opened ImageProtocol
  import opened ImageInvariant
  import opened ImageSafety
  import opened ImageOperations

  lemma Split(s: World, steps: seq<Step>, i: nat, j: nat)
    requires i <= j <= |steps|
    ensures Run(s, steps[..j]) == Run(Run(s, steps[..i]), steps[i..j])
  {
    assert steps[..j] == steps[..i] + steps[i..j];
    RunAppend(s, steps[..i], steps[i..j]);
  }

  lemma OneMore(s: World, steps: seq<Step>, w: nat)
    requires w < |steps|
    ensures Run(s, steps[..w + 1]) == Apply(Run(s, steps[..w]), steps[w])
  {
    hide Apply;
    Split(s, steps, w, w + 1);
    var last := steps[w..w + 1];
    assert last[0] == steps[w] && last[1..] == [];
    assert Run(Run(s, steps[..w]), last) == Run(Apply(Run(s, steps[..w]), last[0]), last[1..]);
  }

  // ---- Creates ----------------------------------------------------------------------------------------------

  /** Once the winner has committed, its claim answers every visit of the same request. */
  lemma AfterTheWinner(s: World, winner: ClaimRequest, when: Time, steps: seq<Step>, r: ClaimRequest)
    requires Inv(s) && Creates(s, CreateStep(winner, when), winner.uploadId) && r == winner.(target := r.target)
    ensures var t := Run(Apply(s, CreateStep(winner, when)), steps);
            && PriorTarget(t, r) == Ok(Some(winner.target)) && winner.target in t.assets
            && PreflightError(t, r, t.clock) == Some(NotClaimable)
            && CreateAssetWithImage(t, r, t.clock).1 == ReplayedSave(winner.target)
  {
    hide Inv, Apply;
    var t := Run(Apply(s, CreateStep(winner, when)), steps);
    LaterCreatesReplayTheWinner(s, winner, when, steps, r, t.clock);
    ReplayIsForeseen(t, r, winner.target);
  }

  lemma ReplayIsForeseen(s: World, r: ClaimRequest, a: AssetId)
    requires CreateAssetWithImage(s, r, s.clock).1 == ReplayedSave(a)
    ensures PriorTarget(s, r) == Ok(Some(a)) && a in s.assets
    ensures PreflightError(s, r, s.clock) == Some(NotClaimable)
  {
  }

  lemma NothingCommittedYet(s0: World, s: World, winner: ClaimRequest, when: Time, r: ClaimRequest)
    requires Evolves(s0, s) && Creates(s, CreateStep(winner, when), winner.uploadId) && r == winner.(target := r.target)
    ensures PriorTarget(s0, r) == Ok(None)
  {
  }

  /** The `w`th step of the run is a create that goes through. */
  ghost predicate Wins(s: World, steps: seq<Step>, w: nat, winner: ClaimRequest, when: Time) {
    w < |steps| && steps[w] == CreateStep(winner, when) && Creates(Run(s, steps[..w]), steps[w], winner.uploadId)
  }

  lemma WinnerSeen(s: World, steps: seq<Step>, w: nat, winner: ClaimRequest, when: Time, r: ClaimRequest, k: nat)
    requires Inv(s) && Wins(s, steps, w, winner, when) && r == winner.(target := r.target) && k <= |steps|
    ensures var t := Run(s, steps[..k]);
            if w < k then
              && PriorTarget(t, r) == Ok(Some(winner.target)) && winner.target in t.assets
              && PreflightError(t, r, t.clock) == Some(NotClaimable)
              && CreateAssetWithImage(t, r, t.clock).1 == ReplayedSave(winner.target)
            else PriorTarget(t, r) == Ok(None)
  {
    hide Inv, Apply, Creates;
    RunEvolves(s, steps[..w]);
    if w < k {
      OneMore(s, steps, w);
      Split(s, steps, w + 1, k);
      RunKeeps(s, steps[..w]);
      AfterTheWinner(Run(s, steps[..w]), winner, when, steps[w + 1..k], r);
    } else {
      RunEvolves(s, steps[..k]);
      RunKeeps(s, steps[..k]);
      Split(s, steps, k, w);
      RunEvolves(Run(s, steps[..k]), steps[k..w]);
      NothingCommittedYet(Run(s, steps[..k]), Run(s, steps[..w]), winner, when, r);
    }
  }

  /**
   * A create identical to one that goes through at step `w`, and whose transaction comes later, looks
   * for an earlier save after `i` steps and makes its early check after `j`. It answers with the
   * winner's asset exactly when it looked after the winner's commit, or its check came before that
   * commit and found the upload claimable; with the commit between look-up and check it is refused.
   */
  lemma SecondCreateOutcome(s: World, steps: seq<Step>, i: nat, j: nat, w: nat, winner: ClaimRequest, when: Time, r: ClaimRequest)
    requires Inv(s) && i <= j <= |steps| && Wins(s, steps, w, winner, when) && r == winner.(target := r.target)
    ensures var atCheck := Run(s, steps[..j]);
            var claimable := PreflightError(atCheck, r, atCheck.clock);
            var outcome := CreateOutcome(Run(s, steps[..i]), atCheck, Run(s, steps), r);
            && (outcome == ReplayedSave(winner.target) <==> w < i || (j <= w && claimable.None?))
            && (i <= w < j ==> outcome == Failed(NotClaimable))
            && (j <= w && claimable.Some? ==> outcome == Failed(claimable.value))
  {
    hide Inv, Apply, Creates, Wins, PriorTarget, PreflightError, CreateAssetWithImage;
    assert steps[..|steps|] == steps && w < |steps| by { WinsInRange(s, steps, w, winner, when); }
    WinnerSeen(s, steps, w, winner, when, r, i);
    WinnerSeen(s, steps, w, winner, when, r, j);
    WinnerSeen(s, steps, w, winner, when, r, |steps|);
  }

  lemma WinsInRange(s: World, steps: seq<Step>, w: nat, winner: ClaimRequest, when: Time)
    requires Wins(s, steps, w, winner, when)
    ensures w < |steps|
  {
  }

  // ---- A run to each outcome -----------------------------------------------------------------------------------

  /** What one upload, its verified object and the request to save it look like. */
  datatype Case = Case(id: UploadId, actor: UserId, secret: string, hash: Digest, target: AssetId, fingerprint: Digest)

  function Shown(c: Case): ProviderObject {
    ProviderObject(PublicIdFor(AssetImage, c.id), PublicDelivery, POLICY_REVISION, 1, 0, "jpg", 1, 1, 1, 1)
  }

  function Winner(c: Case): ClaimRequest {
    ClaimRequest(c.actor, true, AssetImage, c.id, CreateTarget, c.target, Some(c.secret), c.fingerprint)
  }

  /** Ask for an upload, send the object, reserve an attempt, ask the provider, record its answer, save. */
  function History(c: Case, storage: StorageContext): seq<Step> {
    [ Intend(c.id, c.actor, AssetImage, None, c.secret, 0),
      ObjectArrives(ObjectKey(storage, PublicIdFor(AssetImage, c.id))),
      ReserveStep(c.id, 0),
      AskStep(Ticket(c.id, 1), Some(Shown(c))),
      CommitStep(Answer(Ticket(c.id, 1), Shown(c)), c.hash, 0),
      CreateStep(Winner(c), 0) ]
  }

  /** After the first five steps: the upload is verified and the provider holds its object. */
  ghost function Recorded(c: Case, cfg: Config, storage: StorageContext): World {
    var key := ObjectKey(storage, PublicIdFor(AssetImage, c.id));
    var row := NewUpload(cfg, storage, c.id, c.actor, AssetImage, None, c.secret, 0);
    var answer := Answer(Ticket(c.id, 1), Shown(c));
    Start(cfg, storage, 0).(
      uploads := map[c.id := row.(attempts := 1, status := VerifiedPending, verified := Some(EvidenceFrom(cfg, Shown(c), c.hash)))],
      objects := {key}, arrived := {key}, calls := {Ticket(c.id, 1)}, answers := {answer})
  }

  /** After three: the object is there and an attempt is reserved. */
  ghost function Reserved(c: Case, cfg: Config, storage: StorageContext): World {
    Recorded(c, cfg, storage).(
      uploads := map[c.id := NewUpload(cfg, storage, c.id, c.actor, AssetImage, None, c.secret, 0).(attempts := 1)],
      tickets := {Ticket(c.id, 1)}, calls := {}, answers := {})
  }

  lemma ThreeSteps(c: Case, cfg: Config, storage: StorageContext)
    requires ValidConfig(cfg)
    ensures Run(Start(cfg, storage, 0), History(c, storage)[..3]) == Reserved(c, cfg, storage)
  {
    var s0 := Start(cfg, storage, 0);
    assert Run(s0, []) == s0;
    hide Run;
    var steps := History(c, storage);
    var key := ObjectKey(storage, PublicIdFor(AssetImage, c.id));
    var s1 := s0.(uploads := map[c.id := NewUpload(cfg, storage, c.id, c.actor, AssetImage, None, c.secret, 0)]);
    var s2 := s1.(objects := {key}, arrived := {key});
    assert Apply(s0, steps[0]) == s1;
    assert Apply(s1, steps[1]) == s2;
    assert Apply(s2, steps[2]) == Reserved(c, cfg, storage);
    hide Apply;
    assert steps[..0] == [];
    OneMore(s0, steps, 0);
    OneMore(s0, steps, 1);
    OneMore(s0, steps, 2);
  }

  lemma FiveSteps(c: Case, cfg: Config, storage: StorageContext)
    requires ValidConfig(cfg)
    ensures Run(Start(cfg, storage, 0), History(c, storage)[..5]) == Recorded(c, cfg, storage)
  {
    hide Run, CommitVerified;
    var s0, steps := Start(cfg, storage, 0), History(c, storage);
    var s3 := Reserved(c, cfg, storage);
    var s4 := Recorded(c, cfg, storage).(uploads := s3.uploads);
    ThreeSteps(c, cfg, storage);
    assert Apply(s3, steps[3]) == s4;
    LastOfFive(c, cfg, storage, s4);
    hide Apply;
    OneMore(s0, steps, 3);
    OneMore(s0, steps, 4);
  }

  lemma LastOfFive(c: Case, cfg: Config, storage: StorageContext, s: World)
    requires ValidConfig(cfg) && s == Recorded(c, cfg, storage).(uploads := s.uploads)
    requires s.uploads == map[c.id := NewUpload(cfg, storage, c.id, c.actor, AssetImage, None, c.secret, 0).(attempts := 1)]
    ensures Apply(s, History(c, storage)[4]) == Recorded(c, cfg, storage)
  {
  }

  /**
   * From an empty database, with any configuration: the save goes through, and a second one for the
   * same upload, whose look-up came just before it and whose early check just after, is refused.
   */
  lemma SecondSaveIsRefused(c: Case, cfg: Config, storage: StorageContext, other: AssetId)
    requires ValidConfig(cfg) && c.secret != ""
    ensures var s, steps := Start(cfg, storage, 0), History(c, storage);
            && Inv(s) && Wins(s, steps, 5, Winner(c), 0)
            && CreateOutcome(Run(s, steps[..5]), Run(s, steps), Run(s, steps), Winner(c).(target := other)) == Failed(NotClaimable)
            && CreateOutcome(Run(s, steps[..5]), Run(s, steps[..5]), Run(s, steps), Winner(c).(target := other)) == ReplayedSave(c.target)
  {
    var s, steps := Start(cfg, storage, 0), History(c, storage);
    var t := Recorded(c, cfg, storage);
    StartHolds(cfg, storage, 0);
    FiveSteps(c, cfg, storage);
    var r := Winner(c).(target := other);
    assert ClaimRefusal(t, Winner(c), None, None, 0).None?;
    assert Creates(t, CreateStep(Winner(c), 0), c.id);
    assert PreflightError(t, r, 0).None?;
    assert steps[..6] == steps;
    hide Inv, Apply, Creates;
    SecondCreateOutcome(s, steps, 5, 6, 5, Winner(c), 0, r);
    SecondCreateOutcome(s, steps, 5, 5, 5, Winner(c), 0, r);
  }

  // ---- Updates --------------------------------------------------------------------------------------------------

  /** The `w`th step of the run is an image update that goes through. */
  ghost predicate Updates(s: World, steps: seq<Step>, w: nat, r: ClaimRequest, when: Time) {
    w < |steps| && steps[w] == ReplaceStep(r, when, true) && ReplaceAssetImage(Run(s, steps[..w]), r, when, true).1.Saved?
  }

  lemma AfterTheUpdate(s: World, r: ClaimRequest, when: Time, steps: seq<Step>, unmoved: bool)
    requires Inv(s) && ReplaceAssetImage(s, r, when, true).1.Saved?
    ensures var t := Run(Apply(s, ReplaceStep(r, when, true)), steps);
            && PriorTarget(t, r) == Ok(Some(r.target)) && r.target in t.assets
            && PreflightError(t, r, t.clock) == Some(NotClaimable)
            && ReplaceAssetImage(t, r, t.clock, unmoved).1 == ReplayedSave(r.target)
  {
    hide Inv, Apply, ReplaceAssetImage;
    ReplacedKeepsAsset(s, r, when, steps);
    LaterUpdatesReplayTheWinner(s, r, when, steps, r, Run(Apply(s, ReplaceStep(r, when, true)), steps).clock, unmoved);
  }

  lemma ReplacedKeepsAsset(s: World, r: ClaimRequest, when: Time, steps: seq<Step>)
    requires Inv(s) && ReplaceAssetImage(s, r, when, true).1.Saved?
    ensures r.target in Run(Apply(s, ReplaceStep(r, when, true)), steps).assets
  {
    hide Inv;
    ReplacedIsClaimed(s, r, when, true);
    StepKeeps(s, ReplaceStep(r, when, true));
    RunEvolves(Apply(s, ReplaceStep(r, when, true)), steps);
    hide Apply, ReplaceAssetImage;
  }

  lemma ReplacedWasClaimable(s: World, r: ClaimRequest, when: Time)
    requires ReplaceAssetImage(s, r, when, true).1.Saved?
    ensures r.permitted && r.operation.UpdateTarget? && r.purpose.AssetImage? && r.uploadId in s.uploads
    ensures var u := s.uploads[r.uploadId];
            u.uploader == r.actor && u.purpose == r.purpose && TargetContextMatches(u, r) && u.status.VerifiedPending?
  {
  }

  /**
   * Once an update with an image has gone through, every later one with the same upload by the same
   * user for the same asset changes nothing: asked with the same fields it answers that it was saved,
   * asked with any others it is refused, at the retry look-up already.
   */
  lemma LaterUpdatesReplayTheWinner(s: World, r: ClaimRequest, when: Time, steps: seq<Step>, retry: ClaimRequest, now: Time, unmoved: bool)
    requires Inv(s) && ReplaceAssetImage(s, r, when, true).1.Saved? && retry == r.(fingerprint := retry.fingerprint)
    requires now <= Run(Apply(s, ReplaceStep(r, when, true)), steps).clock
    ensures var w := Run(Apply(s, ReplaceStep(r, when, true)), steps);
            && ReplaceAssetImage(w, retry, now, unmoved) ==
                 (w, if retry.fingerprint == r.fingerprint then ReplayedSave(r.target) else Failed(NotClaimable))
            && PriorTarget(w, retry) == (if retry.fingerprint == r.fingerprint then Ok(Some(r.target)) else Err(NotClaimable))
            && PreflightError(w, retry, now) == Some(NotClaimable)
  {
    hide Inv;
    ReplacedIsClaimed(s, r, when, true);
    ReplacedWasClaimable(s, r, when);
    var t := Apply(s, ReplaceStep(r, when, true));
    StepKeeps(s, ReplaceStep(r, when, true));
    StepEvolves(s, ReplaceStep(r, when, true));
    RunEvolves(t, steps);
    hide Apply, Run, ReplaceAssetImage;
    var w := Run(t, steps);
    assert RowEvolves(s.uploads[r.uploadId], t.uploads[r.uploadId]);
    assert RowEvolves(t.uploads[r.uploadId], w.uploads[r.uploadId]);
    ClaimedUploadAnswers(w, r, retry, now, unmoved);
  }

  lemma ClaimedUploadAnswers(w: World, r: ClaimRequest, retry: ClaimRequest, now: Time, unmoved: bool)
    requires r.permitted && r.operation.UpdateTarget? && r.purpose.AssetImage? && r.target in w.assets && r.uploadId in w.uploads
    requires now <= w.clock && retry == r.(fingerprint := retry.fingerprint)
    requires var u := w.uploads[r.uploadId];
             && u.uploader == r.actor && u.purpose == r.purpose && TargetContextMatches(u, r)
             && (u.status.Claimed? || u.status.Superseded?) && u.claim.Some?
             && u.claim.value.target == r.target && u.claim.value.fingerprint == r.fingerprint
    ensures ReplaceAssetImage(w, retry, now, unmoved) ==
              (w, if retry.fingerprint == r.fingerprint then ReplayedSave(r.target) else Failed(NotClaimable))
    ensures PriorTarget(w, retry) == (if retry.fingerprint == r.fingerprint then Ok(Some(r.target)) else Err(NotClaimable))
    ensures PreflightError(w, retry, now) == Some(NotClaimable)
  {
  }

  lemma NothingReplacedYet(s0: World, s: World, r: ClaimRequest, when: Time)
    requires Evolves(s0, s) && ReplaceAssetImage(s, r, when, true).1.Saved?
    ensures PriorTarget(s0, r) == Ok(None)
  {
    ReplacedWasClaimable(s, r, when);
    hide ReplaceAssetImage;
  }

  lemma UpdateSeen(s: World, steps: seq<Step>, w: nat, r: ClaimRequest, when: Time, k: nat, unmoved: bool)
    requires Inv(s) && Updates(s, steps, w, r, when) && k <= |steps|
    ensures var t := Run(s, steps[..k]);
            if w < k then
              && PriorTarget(t, r) == Ok(Some(r.target)) && r.target in t.assets
              && PreflightError(t, r, t.clock) == Some(NotClaimable)
              && ReplaceAssetImage(t, r, t.clock, unmoved).1 == ReplayedSave(r.target)
            else PriorTarget(t, r) == Ok(None)
  {
    hide Inv, Apply, ReplaceAssetImage;
    RunEvolves(s, steps[..w]);
    if w < k {
      OneMore(s, steps, w);
      Split(s, steps, w + 1, k);
      RunKeeps(s, steps[..w]);
      AfterTheUpdate(Run(s, steps[..w]), r, when, steps[w + 1..k], unmoved);
    } else {
      RunEvolves(s, steps[..k]);
      RunKeeps(s, steps[..k]);
      Split(s, steps, k, w);
      RunEvolves(Run(s, steps[..k]), steps[k..w]);
      NothingReplacedYet(Run(s, steps[..k]), Run(s, steps[..w]), r, when);
    }
  }

  /** The same for two identical image updates of one asset, whatever becomes of its status. */
  lemma SecondUpdateOutcome(s: World, steps: seq<Step>, i: nat, j: nat, w: nat, r: ClaimRequest, when: Time, unmoved: bool)
    requires Inv(s) && i <= j <= |steps| && Updates(s, steps, w, r, when) && r.target in Run(s, steps[..i]).assets
    ensures var atCheck := Run(s, steps[..j]);
            var claimable := PreflightError(atCheck, r, atCheck.clock);
            var outcome := UpdateOutcome(Run(s, steps[..i]), atCheck, Run(s, steps), r, unmoved);
            && (outcome == ReplayedSave(r.target) <==> w < i || (j <= w && claimable.None?))
            && (i <= w < j ==> outcome == Failed(NotClaimable))
            && (j <= w && claimable.Some? ==> outcome == Failed(claimable.value))
  {
    hide Inv, Apply, Updates, PriorTarget, PreflightError, ReplaceAssetImage;
    assert steps[..|steps|] == steps && w < |steps| by { UpdatesInRange(s, steps, w, r, when); }
    UpdateSeen(s, steps, w, r, when, i, unmoved);
    UpdateSeen(s, steps, w, r, when, j, unmoved);
    UpdateSeen(s, steps, w, r, when, |steps|, unmoved);
  }

  lemma UpdatesInRange(s: World, steps: seq<Step>, w: nat, r: ClaimRequest, when: Time)
    requires Updates(s, steps, w, r, when)
    ensures w < |steps|
  {
  }
}
