/**
 * Two-factor verification of one account: every entry point counts failures on the same row, locks
 * it for ten minutes at the fifth, and consumes recovery codes. The row lock makes each transaction
 * one step, and its clock is read under that lock.
 */
module TwoFactor {
  import opened Prelude
  import opened Timeline

  const LOCKOUT_LIMIT := 5
  const LOCKOUT_MS := 10 * 60 * 1000

  type Hash = string

  datatype Row = Row(failedAttempts: nat, lockedUntil: Option<Time>, enrollmentComplete: bool, backupCodes: seq<Hash>, replacing: bool)

  datatype Event = Failure(at: Time) | Success(at: Time)

  datatype World = World(clock: Time, row: Option<Row>, log: seq<Event>)

  function Start(clock: Time): World { World(clock, None, []) }

  /** What the user typed at sign-in; whether a time-based code is right is not this model's business. */
  datatype Token = Totp(valid: bool) | Recovery(hash: Hash) | Malformed

  datatype Step =
    | GenerateSecret(now: Time)
    | VerifyAndEnroll(now: Time, sameSecret: bool, valid: bool, codes: seq<Hash>)
    | ConfirmSaved(now: Time, codesSeen: nat)
    | VerifyToken(now: Time, token: Token)
    | VerifyCurrentTotp(now: Time, valid: bool)
    | StartReplacement(now: Time, valid: bool)
    | CompleteReplacement(now: Time, valid: bool)
    | RegenerateCodes(now: Time, valid: bool, codes: seq<Hash>)

  predicate Locked(row: Row, now: Time) {
    row.lockedUntil.Some? && row.lockedUntil.value > now
  }

  /** A lock that has run out clears the count before the next failure is added to it. */
  function Failed(row: Row, now: Time): Row {
    var attempts := (if row.lockedUntil.Some? && row.lockedUntil.value <= now then 0 else row.failedAttempts) + 1;
    row.(failedAttempts := attempts, lockedUntil := if attempts >= LOCKOUT_LIMIT then Some(now + LOCKOUT_MS) else None)
  }

  function Cleared(row: Row): Row {
    row.(failedAttempts := 0, lockedUntil := None)
  }

  /** A verification's two ends: record the failure, or clear the count and go on with the row `passed`. */
  function Judge(s: World, row: Row, now: Time, valid: bool, passed: Row): World {
    if Locked(row, now) then s
    else if valid then s.(row := Some(Cleared(passed)), log := s.log + [Success(now)])
    else s.(row := Some(Failed(row, now)), log := s.log + [Failure(now)])
  }

  function FirstIndex(codes: seq<Hash>, h: Hash): (i: nat)
    ensures i <= |codes| && (i < |codes| ==> codes[i] == h) && (i == |codes| <==> h !in codes)
  {
    if codes == [] then 0 else if codes[0] == h then 0 else 1 + FirstIndex(codes[1..], h)
  }

  function WithoutCode(codes: seq<Hash>, h: Hash): seq<Hash> {
    var i := FirstIndex(codes, h);
    if i < |codes| then codes[..i] + codes[i + 1..] else codes
  }

  function VerifyTokenStep(s: World, row: Row, now: Time, token: Token): World {
    match token
    case Totp(valid) => Judge(s, row, now, valid, row)
    case Recovery(h) =>
      if row.backupCodes == [] then s
      else Judge(s, row, now, h in row.backupCodes, row.(backupCodes := WithoutCode(row.backupCodes, h)))
    case Malformed => Judge(s, row, now, false, row)
  }

  function Apply(s: World, step: Step): World {
    if step.now < s.clock then s
    else
      var s1 := s.(clock := step.now);
      if s.row.None? then (if step.GenerateSecret? then s1.(row := Some(Row(0, None, false, [], false))) else s1)
      else
        var row := s.row.value;
        match step
        case GenerateSecret(_) => s1
        case VerifyAndEnroll(now, sameSecret, valid, codes) =>
          if row.enrollmentComplete || row.backupCodes != [] || !sameSecret then s1
          else Judge(s1, row, now, valid, row.(backupCodes := codes))
        case ConfirmSaved(_, codesSeen) => if codesSeen == 10 then s1.(row := Some(row.(enrollmentComplete := true))) else s1
        case VerifyToken(now, token) => if row.enrollmentComplete then VerifyTokenStep(s1, row, now, token) else s1
        case VerifyCurrentTotp(now, valid) => if row.enrollmentComplete then Judge(s1, row, now, valid, row) else s1
        case StartReplacement(now, valid) =>
          if row.enrollmentComplete then Judge(s1, row, now, valid, row.(replacing := true)) else s1
        case CompleteReplacement(now, valid) =>
          if row.enrollmentComplete && row.replacing then Judge(s1, row, now, valid, row.(replacing := false)) else s1
        case RegenerateCodes(now, valid, codes) =>
          if row.enrollmentComplete then Judge(s1, row, now, valid, row.(backupCodes := codes)) else s1
  }

  function Run(s: World, steps: seq<Step>): World
    decreases |steps|
  {
    if steps == [] then s else Run(Apply(s, steps[0]), steps[1..])
  }

  // ---- Lockout -----------------------------------------------------------------------------------------

  predicate AllFailures(log: seq<Event>, from: int, to: int)
    requires 0 <= from <= to <= |log|
  {
    forall i :: from <= i < to ==> log[i].Failure?
  }

  predicate InOrder(log: seq<Event>, clock: Time) {
    (forall i, j :: 0 <= i < j < |log| ==> log[i].at <= log[j].at) && (forall i :: 0 <= i < |log| ==> log[i].at <= clock)
  }

  /** Six failures in a row span a lockout. */
  predicate Spaced(log: seq<Event>) {
    forall i, j :: 0 <= i < j < |log| && i + LOCKOUT_LIMIT <= j && AllFailures(log, i, j + 1) ==> log[i].at + LOCKOUT_MS <= log[j].at
  }

  /** The row's count is the number of failures since the last success or the last lock that ran out. */
  predicate Counted(row: Row, log: seq<Event>) {
    var n, f := |log|, row.failedAttempts;
    && f <= LOCKOUT_LIMIT && f <= n && AllFailures(log, n - f, n)
    && (row.lockedUntil.Some? <==> f == LOCKOUT_LIMIT)
    && (row.lockedUntil.Some? ==> row.lockedUntil.value == log[n - 1].at + LOCKOUT_MS)
    && (f < n && log[n - f - 1].Failure? ==> f > 0 && log[n - f - 1].at + LOCKOUT_MS <= log[n - f].at)
  }

  predicate Inv(s: World) {
    InOrder(s.log, s.clock) && Spaced(s.log) && (if s.row.Some? then Counted(s.row.value, s.log) else s.log == [])
  }

  lemma OrderKept(log: seq<Event>, clock: Time, e: Event)
    requires InOrder(log, clock) && clock <= e.at
    ensures InOrder(log + [e], e.at)
  {
  }

  /** Everything five failures back is a lockout old, once the row is not locked. */
  lemma OldBatchesAreOver(row: Row, log: seq<Event>, clock: Time, now: Time, i: nat)
    requires InOrder(log, clock) && Counted(row, log) && clock <= now && !Locked(row, now)
    requires i + LOCKOUT_LIMIT <= |log| && AllFailures(log, i, |log|)
    ensures log[i].at + LOCKOUT_MS <= now
  {
  }

  lemma SpacedKept(log: seq<Event>, e: Event)
    requires Spaced(log)
    requires e.Failure? ==> forall i: nat :: i + LOCKOUT_LIMIT <= |log| && AllFailures(log, i, |log|) ==> log[i].at + LOCKOUT_MS <= e.at
    ensures Spaced(log + [e])
  {
    hide Spaced;
    var more := log + [e];
    forall i, j | 0 <= i < j < |more| && i + LOCKOUT_LIMIT <= j && AllFailures(more, i, j + 1)
      ensures more[i].at + LOCKOUT_MS <= more[j].at
    {
      assert more[j].Failure?;
      if j < |log| {
        PrefixFails(log, e, i, j + 1, j + 1);
        SpacedAt(log, i, j);
      } else {
        PrefixFails(log, e, i, |log|, j + 1);
      }
    }
    SpacedIf(more);
  }

  lemma PrefixFails(log: seq<Event>, e: Event, i: nat, j: nat, m: nat)
    requires i <= j <= |log| && j <= m <= |log| + 1 && AllFailures(log + [e], i, m)
    ensures AllFailures(log, i, j)
  {
    forall k | i <= k < j ensures log[k].Failure? { assert (log + [e])[k] == log[k]; }
  }

  lemma SpacedAt(log: seq<Event>, i: nat, j: nat)
    requires Spaced(log) && i + LOCKOUT_LIMIT <= j < |log| && AllFailures(log, i, j + 1)
    ensures log[i].at + LOCKOUT_MS <= log[j].at
  {
  }

  lemma SpacedIf(log: seq<Event>)
    requires forall i, j :: 0 <= i < j < |log| && i + LOCKOUT_LIMIT <= j && AllFailures(log, i, j + 1) ==>
                              log[i].at + LOCKOUT_MS <= log[j].at
    ensures Spaced(log)
  {
  }

  lemma FailureCounted(row: Row, log: seq<Event>, clock: Time, now: Time)
    requires InOrder(log, clock) && Counted(row, log) && clock <= now && !Locked(row, now)
    ensures Counted(Failed(row, now), log + [Failure(now)])
  {
  }

  lemma FailureKeeps(s: World, row: Row, now: Time)
    requires Inv(s) && s.row == Some(row) && s.clock <= now && !Locked(row, now)
    ensures Inv(World(now, Some(Failed(row, now)), s.log + [Failure(now)]))
  {
    hide InOrder, Spaced, Counted, AllFailures;
    OrderKept(s.log, s.clock, Failure(now));
    forall i: nat | i + LOCKOUT_LIMIT <= |s.log| && AllFailures(s.log, i, |s.log|) ensures s.log[i].at + LOCKOUT_MS <= now {
      OldBatchesAreOver(row, s.log, s.clock, now, i);
    }
    SpacedKept(s.log, Failure(now));
    FailureCounted(row, s.log, s.clock, now);
  }

  lemma SuccessKeeps(s: World, now: Time, passed: Row)
    requires Inv(s) && s.clock <= now
    ensures Inv(World(now, Some(Cleared(passed)), s.log + [Success(now)]))
  {
    hide InOrder, Spaced, AllFailures;
    OrderKept(s.log, s.clock, Success(now));
    SpacedKept(s.log, Success(now));
    NothingPending(Cleared(passed), s.log, now);
  }

  lemma NothingPending(row: Row, log: seq<Event>, now: Time)
    requires row.failedAttempts == 0 && row.lockedUntil.None?
    ensures Counted(row, log + [Success(now)])
  {
  }

  /** Judging a token, whatever its success would change besides the count. */
  lemma JudgeKeeps(s: World, row: Row, now: Time, valid: bool, passed: Row)
    requires Inv(s) && s.row == Some(row) && s.clock <= now
    ensures Inv(Judge(s.(clock := now), row, now, valid, passed))
  {
    hide Spaced, Counted, AllFailures;
    if Locked(row, now) {
    } else if valid {
      SuccessKeeps(s, now, passed);
    } else {
      FailureKeeps(s, row, now);
    }
  }

  lemma StepKeeps(s: World, step: Step)
    requires Inv(s)
    ensures Inv(Apply(s, step))
  {
    if step.now >= s.clock {
      if s.row.None? {
        StillOk(s, s.row, step.now);
      } else {
        var row := s.row.value;
        StillOk(s, Some(row.(enrollmentComplete := true)), step.now);
        StillOk(s, s.row, step.now);
        hide Inv, Judge, FirstIndex;
        forall valid, passed ensures Inv(Judge(s.(clock := step.now), row, step.now, valid, passed)) {
          JudgeKeeps(s, row, step.now, valid, passed);
        }
      }
    }
  }

  /** Nothing verified: time passes, and the row keeps its count. */
  lemma StillOk(s: World, row: Option<Row>, now: Time)
    requires Inv(s) && s.clock <= now && (s.row.Some? <==> row.Some?)
    requires s.row.Some? ==> row.value.failedAttempts == s.row.value.failedAttempts && row.value.lockedUntil == s.row.value.lockedUntil
    ensures Inv(World(now, row, s.log))
  {
  }

  lemma {:induction false} RunKeeps(s: World, steps: seq<Step>)
    requires Inv(s)
    ensures Inv(Run(s, steps))
    decreases |steps|
  {
    hide Inv, Apply;
    if steps != [] {
      StepKeeps(s, steps[0]);
      RunKeeps(Apply(s, steps[0]), steps[1..]);
    }
  }

  function Times(log: seq<Event>): (times: seq<Time>)
    ensures |times| == |log| && forall i :: 0 <= i < |log| ==> times[i] == log[i].at
  {
    seq(|log|, i requires 0 <= i < |log| => log[i].at)
  }

  /**
   * The row is locked exactly at five failed attempts, and any ten minutes without a success see at
   * most five failures, across every entry point.
   */
  lemma FailuresAreLimited(clock: Time, steps: seq<Step>, from: Time)
    ensures var s := Run(Start(clock), steps);
            && (s.row.Some? ==> s.row.value.failedAttempts <= 5 && (s.row.value.lockedUntil.Some? <==> s.row.value.failedAttempts == 5))
            && ((forall e :: e in s.log && from <= e.at < from + 600_000 ==> e.Failure?) ==>
                  CountBetween(Times(s.log), from, from + 600_000) <= 5)
  {
    RunKeeps(Start(clock), steps);
    var s := Run(Start(clock), steps);
    if forall e :: e in s.log && from <= e.at < from + 600_000 ==> e.Failure? {
      FewFailures(s.log, s.clock, from);
    }
  }

  lemma FewFailures(log: seq<Event>, clock: Time, from: Time)
    requires InOrder(log, clock) && Spaced(log)
    requires forall e :: e in log && from <= e.at < from + LOCKOUT_MS ==> e.Failure?
    ensures CountBetween(Times(log), from, from + LOCKOUT_MS) <= LOCKOUT_LIMIT
  {
    hide Spaced, InOrder, AllFailures;
    var n := CountBetween(Times(log), from, from + LOCKOUT_MS);
    TimesInOrder(log, clock);
    if n > LOCKOUT_LIMIT {
      var i := CountedTogether(Times(log), from, from + LOCKOUT_MS);
      InsideFail(log, clock, from, i, i + n);
      SpacedAt(log, i, i + n - 1);
    }
  }

  lemma TimesInOrder(log: seq<Event>, clock: Time)
    requires InOrder(log, clock)
    ensures Sorted(Times(log))
  {
  }

  lemma InsideFail(log: seq<Event>, clock: Time, from: Time, i: nat, j: nat)
    requires InOrder(log, clock) && i < j <= |log| && from <= log[i].at && log[j - 1].at < from + LOCKOUT_MS
    requires forall e :: e in log && from <= e.at < from + LOCKOUT_MS ==> e.Failure?
    ensures AllFailures(log, i, j)
  {
  }

  // ---- Recovery codes ------------------------------------------------------------------------------------

  function CodesOf(s: World): multiset<Hash> {
    multiset(RowCodes(s))
  }

  function RowCodes(s: World): seq<Hash> {
    if s.row.Some? then s.row.value.backupCodes else []
  }

  /** The step signs the user in with recovery code `h`. */
  predicate AcceptsCode(s: World, step: Step, h: Hash) {
    && step.VerifyToken? && step.token == Recovery(h) && step.now >= s.clock
    && s.row.Some? && s.row.value.enrollmentComplete && !Locked(s.row.value, step.now) && h in s.row.value.backupCodes
  }

  /** The step hands out a fresh list of recovery codes. */
  predicate Issues(s: World, step: Step) {
    (step.VerifyAndEnroll? || step.RegenerateCodes?) && step.valid && Apply(s, step).log != s.log
  }

  predicate NoIssue(s: World, steps: seq<Step>)
    decreases |steps|
  {
    steps == [] || (!Issues(s, steps[0]) && NoIssue(Apply(s, steps[0]), steps[1..]))
  }

  function TimesAccepted(s: World, steps: seq<Step>, h: Hash): nat
    decreases |steps|
  {
    if steps == [] then 0
    else (if AcceptsCode(s, steps[0], h) then 1 else 0) + TimesAccepted(Apply(s, steps[0]), steps[1..], h)
  }

  lemma CodeIsTakenOnce(codes: seq<Hash>, h: Hash)
    ensures multiset(WithoutCode(codes, h)) == multiset(codes) - multiset{h}
  {
    var i := FirstIndex(codes, h);
    if i < |codes| { assert codes == codes[..i] + [codes[i]] + codes[i + 1..]; }
  }

  lemma CodesAfter(s: World, step: Step)
    requires !Issues(s, step)
    ensures RowCodes(Apply(s, step)) ==
              if step.VerifyToken? && step.token.Recovery? && AcceptsCode(s, step, step.token.hash)
              then WithoutCode(RowCodes(s), step.token.hash) else RowCodes(s)
  {
  }

  lemma StepTakesCodes(s: World, step: Step, h: Hash)
    requires !Issues(s, step)
    ensures CodesOf(s)[h] == (if AcceptsCode(s, step, h) then 1 else 0) + CodesOf(Apply(s, step))[h]
  {
    CodesAfter(s, step);
    hide Apply, WithoutCode;
    if step.VerifyToken? && step.token.Recovery? && AcceptsCode(s, step, step.token.hash) {
      CodeIsTakenOnce(RowCodes(s), step.token.hash);
    }
  }

  /** Until codes are issued again, a code's hash is accepted exactly as often as it leaves the list. */
  lemma {:induction false} CodesAreSpentOnce(s: World, steps: seq<Step>, h: Hash)
    requires NoIssue(s, steps)
    ensures TimesAccepted(s, steps, h) + CodesOf(Run(s, steps))[h] == CodesOf(s)[h]
    decreases |steps|
  {
    hide Apply, Issues, AcceptsCode, CodesOf;
    if steps != [] {
      StepTakesCodes(s, steps[0], h);
      CodesAreSpentOnce(Apply(s, steps[0]), steps[1..], h);
    }
  }

  /** Between issuing a list and the next, each code of it is accepted at most as often as it was issued. */
  lemma AcceptedAtMostAsIssued(s: World, step: Step, steps: seq<Step>, h: Hash)
    requires Issues(s, step) && NoIssue(Apply(s, step), steps)
    ensures TimesAccepted(Apply(s, step), steps, h) <= multiset(step.codes)[h]
  {
    CodesAreSpentOnce(Apply(s, step), steps, h);
  }
}
