/** The two-factor service as code over one account's row; each method is one transaction, behind the row lock where the service takes it. */
module TwoFactorService {
  import opened Prelude
  import opened TwoFactor

  datatype Refusal =
    | NotStarted | AlreadyEnrolled | CodesAlreadyIssued | EnrollmentRequired | ReplacementNotStarted
    | CodesNotShown | TotpLocked(until: Time) | InvalidCode | AllCodesUsed

  datatype SignIn = SignIn(success: bool, usedRecoveryCode: bool, codesRemaining: nat, attemptsRemaining: int)

  // ---- What the operations promise, column by column ------------------------------------------------------

  predicate Barred(row: Row, now: Time) {
    row.lockedUntil.Some? && now < row.lockedUntil.value
  }

  /** One failure more, from none if a lock has run out; the fifth locks the row for ten minutes. */
  predicate OneMore(before: Row, after: Row, now: Time) {
    var counted := if before.lockedUntil.Some? && before.lockedUntil.value <= now then 1 else before.failedAttempts + 1;
    after == before.(failedAttempts := counted, lockedUntil := if counted >= 5 then Some(now + 600_000) else None)
  }

  predicate FreshCount(before: Row, after: Row) {
    after == before.(failedAttempts := 0, lockedUntil := None)
  }

  /**
   * What every sensitive operation guarantees on an enrolled row: refused, and nothing changed, exactly
   * while it is locked; otherwise answered with whether the code was right. A wrong code counts, and
   * locks only as the fifth failure in a row. A right one clears the count; what else it changes is its
   * caller's.
   */
  predicate Sensitive(s: World, t: World, now: Time, valid: bool, r: Result<bool, Refusal>)
    requires s.row.Some?
  {
    var before := s.row.value;
    && (Inv(s) ==> Inv(t)) && t.clock == now && t.row.Some?
    && (if Barred(before, now) then r == Err(TotpLocked(before.lockedUntil.value)) && t.row == s.row && t.log == s.log
        else r == Ok(valid) && t.log == s.log + [if valid then Success(now) else Failure(now)])
    && (!valid && !Barred(before, now) ==> OneMore(before, t.row.value, now))
    && (valid && !Barred(before, now) ==>
          FreshCount(before.(backupCodes := t.row.value.backupCodes, replacing := t.row.value.replacing), t.row.value))
    && (r == Ok(false) && Inv(s) && Barred(t.row.value, now) ==>
          |t.log| >= 5 && AllFailures(t.log, |t.log| - 5, |t.log|))
  }

  /** The code is gone from the list once, and every other one is where it was. */
  predicate TakenOut(before: seq<Hash>, after: seq<Hash>, h: Hash) {
    exists i :: 0 <= i < |before| && before[i] == h && after == before[..i] + before[i + 1..]
  }

  /** The row says the user is enrolled. */
  predicate Enrolled(s: World) {
    s.row.Some? && s.row.value.enrollmentComplete
  }

  class Account {
    var clock: Time
    var row: Option<Row>
    ghost var log: seq<Event>

    ghost function State(): World
      reads this
    {
      World(clock, row, log)
    }

    constructor (now: Time)
      ensures State() == Start(now)
    {
      clock, row, log := now, None, [];
    }

    method GenerateSecret(now: Time) returns (r: Result<(), Refusal>)
      requires now >= clock
      modifies this
      ensures State() == Apply(old(State()), Step.GenerateSecret(now))
      ensures r.Ok? <==> old(row).None? || (!old(row).value.enrollmentComplete && old(row).value.backupCodes == [])
      ensures log == old(log) && (old(row).Some? ==> row == old(row))
      ensures r.Err? ==> r.error == if old(row).value.enrollmentComplete then AlreadyEnrolled else CodesAlreadyIssued
      ensures old(row).None? ==> row == Some(Row(0, None, false, [], false))
      ensures r.Ok? ==> row.Some? && (!Barred(row.value, now) ==> forall codes :: Issues(State(), Step.VerifyAndEnroll(now, true, true, codes)))
      ensures Inv(old(State())) ==> Inv(State())
    {
      if Inv(State()) { StepKeeps(State(), Step.GenerateSecret(now)); }
      clock := now;
      if row.Some? && row.value.enrollmentComplete { return Err(AlreadyEnrolled); }
      if row.Some? && |row.value.backupCodes| > 0 { return Err(CodesAlreadyIssued); }
      if row.None? { row := Some(Row(0, None, false, [], false)); }
      return Ok(());
    }

    /** Count one more failure, starting again from none if a lock has run out. */
    method RecordFailure(current: Row, now: Time) returns (nextAttempts: nat)
      modifies this
      ensures row == Some(Failed(current, now)) && log == old(log) + [Failure(now)] && clock == old(clock)
      ensures row.Some? && OneMore(current, row.value, now) && nextAttempts == row.value.failedAttempts
    {
      var failedAttempts := if current.lockedUntil.Some? && current.lockedUntil.value <= now then 0 else current.failedAttempts;
      nextAttempts := failedAttempts + 1;
      var lockedUntil := if nextAttempts >= LOCKOUT_LIMIT then Some(now + LOCKOUT_MS) else None;
      row := Some(current.(failedAttempts := nextAttempts, lockedUntil := lockedUntil));
      log := log + [Failure(now)];
    }

    /** The check the sensitive operations share; it leaves the rest of the row to its caller. */
    method VerifySensitiveTotp(current: Row, now: Time, valid: bool) returns (r: Result<bool, Refusal>)
      requires row == Some(current)
      modifies this
      ensures State() == Judge(old(State()), current, now, valid, current)
      ensures r == (if Barred(current, now) then Err(TotpLocked(current.lockedUntil.value)) else Ok(valid))
      ensures r.Err? ==> row == old(row) && log == old(log)
      ensures r.Ok? ==> row.Some? && log == old(log) + [if valid then Success(now) else Failure(now)]
      ensures r.Ok? ==> if valid then FreshCount(current, row.value) else OneMore(current, row.value, now)
    {
      if current.lockedUntil.Some? && current.lockedUntil.value > now { return Err(TotpLocked(current.lockedUntil.value)); }
      if !valid {
        var _ := RecordFailure(current, now);
        return Ok(false);
      }
      row := Some(current.(failedAttempts := 0, lockedUntil := None));
      log := log + [Success(now)];
      return Ok(true);
    }

    method VerifyAndEnroll(now: Time, sameSecret: bool, valid: bool, codes: seq<Hash>) returns (r: Result<(), Refusal>)
      requires now >= clock
      modifies this
      ensures State() == Apply(old(State()), Step.VerifyAndEnroll(now, sameSecret, valid, codes))
      ensures r.Ok? <==> Issues(old(State()), Step.VerifyAndEnroll(now, sameSecret, valid, codes))
      ensures r == Err(NotStarted) <==> old(row).None?
      ensures old(row).Some? ==>
                var before := old(row).value;
                if before.enrollmentComplete then r == Err(AlreadyEnrolled) && row == old(row) && log == old(log)
                else if before.backupCodes != [] then r == Err(CodesAlreadyIssued) && row == old(row) && log == old(log)
                else if Barred(before, now) then r == Err(TotpLocked(before.lockedUntil.value)) && row == old(row) && log == old(log)
                else if !sameSecret then r == Err(InvalidCode) && row == old(row) && log == old(log)
                else if !valid then r == Err(InvalidCode) && row.Some? && OneMore(before, row.value, now) && log == old(log) + [Failure(now)]
                else r == Ok(()) && row.Some? && FreshCount(before.(backupCodes := codes), row.value) && log == old(log) + [Success(now)]
      ensures Inv(old(State())) ==> Inv(State())
    {
      if Inv(State()) { StepKeeps(State(), Step.VerifyAndEnroll(now, sameSecret, valid, codes)); }
      clock := now;
      if row.None? { return Err(NotStarted); }
      var current := row.value;
      if current.enrollmentComplete { return Err(AlreadyEnrolled); }
      if |current.backupCodes| > 0 { return Err(CodesAlreadyIssued); }
      if current.lockedUntil.Some? && current.lockedUntil.value > now { return Err(TotpLocked(current.lockedUntil.value)); }
      if !sameSecret { return Err(InvalidCode); }
      if !valid {
        var _ := RecordFailure(current, now);
        return Err(InvalidCode);
      }
      row := Some(current.(backupCodes := codes, enrollmentComplete := false, failedAttempts := 0, lockedUntil := None));
      log := log + [Success(now)];
      return Ok(());
    }

    /** The only step that reads without the lock; the number of codes is the one it read. */
    method ConfirmBackupCodesSaved(now: Time, codesSeen: nat) returns (r: Result<(), Refusal>)
      requires now >= clock
      modifies this
      ensures State() == Apply(old(State()), ConfirmSaved(now, codesSeen))
      ensures r == if old(row).Some? && codesSeen == 10 then Ok(()) else Err(CodesNotShown)
      ensures log == old(log) && row == if r.Ok? then Some(old(row).value.(enrollmentComplete := true)) else old(row)
      ensures Inv(old(State())) ==> Inv(State())
    {
      if Inv(State()) { StepKeeps(State(), ConfirmSaved(now, codesSeen)); }
      clock := now;
      if row.None? || codesSeen != 10 { return Err(CodesNotShown); }
      row := Some(row.value.(enrollmentComplete := true));
      return Ok(());
    }

    method VerifyCurrentTotp(now: Time, valid: bool) returns (r: Result<bool, Refusal>)
      requires now >= clock
      modifies this
      ensures State() == Apply(old(State()), Step.VerifyCurrentTotp(now, valid))
      ensures r == Err(EnrollmentRequired) <==> !Enrolled(old(State()))
      ensures !Enrolled(old(State())) ==> row == old(row) && log == old(log)
      ensures Enrolled(old(State())) ==> Sensitive(old(State()), State(), now, valid, r)
      ensures Enrolled(old(State())) ==> row.value.replacing == old(row).value.replacing && RowCodes(State()) == RowCodes(old(State()))
    {
      if Inv(State()) { StepKeeps(State(), Step.VerifyCurrentTotp(now, valid)); }
      clock := now;
      if row.None? || !row.value.enrollmentComplete { return Err(EnrollmentRequired); }
      r := VerifySensitiveTotp(row.value, now, valid);
    }

    method StartAuthenticatorReplacement(now: Time, valid: bool) returns (r: Result<bool, Refusal>)
      requires now >= clock
      modifies this
      ensures State() == Apply(old(State()), StartReplacement(now, valid))
      ensures r == Err(EnrollmentRequired) <==> !Enrolled(old(State()))
      ensures !Enrolled(old(State())) ==> row == old(row) && log == old(log)
      ensures Enrolled(old(State())) ==> Sensitive(old(State()), State(), now, valid, r)
      ensures Enrolled(old(State())) ==>
                (row.value.replacing <==> r == Ok(true) || old(row).value.replacing) && RowCodes(State()) == RowCodes(old(State()))
    {
      if Inv(State()) { StepKeeps(State(), StartReplacement(now, valid)); }
      clock := now;
      if row.None? || !row.value.enrollmentComplete { return Err(EnrollmentRequired); }
      r := VerifySensitiveTotp(row.value, now, valid);
      if r == Ok(true) { row := Some(row.value.(replacing := true)); }
    }

    method CompleteAuthenticatorReplacement(now: Time, valid: bool) returns (r: Result<bool, Refusal>)
      requires now >= clock
      modifies this
      ensures State() == Apply(old(State()), CompleteReplacement(now, valid))
      ensures r == Err(ReplacementNotStarted) <==> !Enrolled(old(State())) || !old(row).value.replacing
      ensures !Enrolled(old(State())) || !old(row).value.replacing ==> row == old(row) && log == old(log)
      ensures Enrolled(old(State())) && old(row).value.replacing ==>
                && Sensitive(old(State()), State(), now, valid, r)
                && (row.value.replacing <==> r != Ok(true)) && RowCodes(State()) == RowCodes(old(State()))
    {
      if Inv(State()) { StepKeeps(State(), CompleteReplacement(now, valid)); }
      clock := now;
      if row.None? || !row.value.enrollmentComplete || !row.value.replacing { return Err(ReplacementNotStarted); }
      r := VerifySensitiveTotp(row.value, now, valid);
      if r == Ok(true) { row := Some(row.value.(replacing := false, failedAttempts := 0, lockedUntil := None)); }
    }

    method RegenerateRecoveryCodes(now: Time, valid: bool, codes: seq<Hash>) returns (r: Result<bool, Refusal>)
      requires now >= clock
      modifies this
      ensures State() == Apply(old(State()), RegenerateCodes(now, valid, codes))
      ensures r == Ok(true) <==> Issues(old(State()), RegenerateCodes(now, valid, codes))
      ensures r == Err(EnrollmentRequired) <==> !Enrolled(old(State()))
      ensures !Enrolled(old(State())) ==> row == old(row) && log == old(log)
      ensures Enrolled(old(State())) ==>
                && Sensitive(old(State()), State(), now, valid, r)
                && RowCodes(State()) == (if r == Ok(true) then codes else RowCodes(old(State())))
                && row.value.replacing == old(row).value.replacing
    {
      if Inv(State()) { StepKeeps(State(), RegenerateCodes(now, valid, codes)); }
      clock := now;
      if row.None? || !row.value.enrollmentComplete { return Err(EnrollmentRequired); }
      r := VerifySensitiveTotp(row.value, now, valid);
      if r == Ok(true) { row := Some(row.value.(backupCodes := codes)); }
    }

    /** Sign-in: a six-digit code or a recovery code, which is spent. */
    method VerifyToken(now: Time, token: Token) returns (r: Result<SignIn, Refusal>)
      requires now >= clock
      modifies this
      ensures State() == Apply(old(State()), Step.VerifyToken(now, token))
      ensures r.Ok? && r.value.success && r.value.usedRecoveryCode <==>
                token.Recovery? && AcceptsCode(old(State()), Step.VerifyToken(now, token), token.hash)
      ensures r.Ok? && r.value.success <==>
                && old(row).Some? && old(row).value.enrollmentComplete && !Barred(old(row).value, now)
                && match token
                   case Totp(v) => v
                   case Recovery(h) => h in old(row).value.backupCodes
                   case Malformed => false
      ensures forall until :: r == Err(TotpLocked(until)) <==>
                Enrolled(old(State())) && Barred(old(row).value, now) && until == old(row).value.lockedUntil.value
      ensures r == Err(AllCodesUsed) <==>
                Enrolled(old(State())) && !Barred(old(row).value, now) && token.Recovery? && old(row).value.backupCodes == []
      ensures r.Err? ==> (r.error.TotpLocked? || r.error.AllCodesUsed?) && row == old(row) && log == old(log)
      ensures !Enrolled(old(State())) ==> r == Ok(SignIn(false, false, 0, 0)) && row == old(row) && log == old(log)
      ensures Enrolled(old(State())) && r.Ok? && !r.value.success ==>
                && row.Some? && OneMore(old(row).value, row.value, now) && log == old(log) + [Failure(now)]
                && r.value == SignIn(false, false, 0, if row.value.failedAttempts <= 5 then 5 - row.value.failedAttempts else 0)
      ensures r.Ok? && r.value.success ==>
                && row.Some? && log == old(log) + [Success(now)] && FreshCount(old(row).value.(backupCodes := row.value.backupCodes), row.value)
                && r.value == SignIn(true, token.Recovery?, |row.value.backupCodes|, 0)
                && (if token.Recovery? then TakenOut(old(row).value.backupCodes, row.value.backupCodes, token.hash)
                    else row.value.backupCodes == old(row).value.backupCodes)
      ensures Inv(old(State())) ==> Inv(State())
    {
      if Inv(State()) { StepKeeps(State(), Step.VerifyToken(now, token)); }
      clock := now;
      if row.None? || !row.value.enrollmentComplete { return Ok(SignIn(false, false, 0, 0)); }
      var current := row.value;
      if current.lockedUntil.Some? && current.lockedUntil.value > now { return Err(TotpLocked(current.lockedUntil.value)); }
      var isValid, usedRecoveryCode := false, false;
      var updatedCodes := current.backupCodes;
      match token {
        case Totp(valid) => isValid := valid;
        case Recovery(hash) =>
          if |current.backupCodes| == 0 { return Err(AllCodesUsed); }
          var index := FirstIndex(current.backupCodes, hash);
          if index < |current.backupCodes| {
            updatedCodes := current.backupCodes[..index] + current.backupCodes[index + 1..];
            assert TakenOut(current.backupCodes, updatedCodes, hash);
            isValid, usedRecoveryCode := true, true;
          }
        case Malformed =>
      }
      if !isValid {
        var nextAttempts := RecordFailure(current, now);
        return Ok(SignIn(false, false, 0, Max(0, LOCKOUT_LIMIT - nextAttempts)));
      }
      row := Some(current.(backupCodes := updatedCodes, failedAttempts := 0, lockedUntil := None));
      log := log + [Success(now)];
      return Ok(SignIn(true, usedRecoveryCode, |updatedCodes|, 0));
    }
  }
}
