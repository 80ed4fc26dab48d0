/**
 * Session expiry under concurrent checks: an absolute lifetime of 12 hours, an idle lifetime of 8,
 * and compare-and-swap updates retried at most eight times. One session is modelled; checks of
 * different sessions do not meet.
 */
module SessionLifetime {
  import opened Prelude

  const ABSOLUTE_LIFETIME_MS := 12 * 60 * 60 * 1000
  const IDLE_LIFETIME_MS := 8 * 60 * 60 * 1000
  const MAX_COMPARE_AND_SWAP_ATTEMPTS := 8

  datatype Row = Row(createdAt: Time, updatedAt: Time, expiresAt: Time)

  datatype Window = Window(expiresAt: Time, idleExpiresAt: Time, absoluteExpiresAt: Time)

  function CalculateExpiryWindow(row: Row): Window {
    var absolute := row.createdAt + ABSOLUTE_LIFETIME_MS;
    var idle := row.updatedAt + IDLE_LIFETIME_MS;
    Window(Min(row.expiresAt, Min(absolute, idle)), Min(idle, absolute), absolute)
  }

  /** A row as a check read it, and when. */
  datatype Sighting = Sighting(row: Row, at: Time)

  /** A check that let its request through at `at`, on the strength of activity recorded at `basis`. */
  datatype Acceptance = Acceptance(at: Time, basis: Time)

  datatype World = World(
    clock: Time, createdAt: Time, row: Option<Row>,
    sightings: set<Sighting>, activities: set<Time>, acceptances: set<Acceptance>)

  function SignIn(now: Time, expiresAt: Time): World {
    World(now, now, Some(Row(now, now, expiresAt)), {}, {now}, {})
  }

  datatype Step =
    | Tick(to: Time)
    | Read                                                  // a check reads the row
    | Check(seen: Sighting, now: Time, userActivity: bool)  // and acts on what it read
    | Settle(seen: Sighting, now: Time)                     // or, its rounds used up, only judges it
    | SignOut

  function Renewed(row: Row, now: Time): Row {
    row.(updatedAt := now, expiresAt := Min(row.createdAt + ABSOLUTE_LIFETIME_MS, now + IDLE_LIFETIME_MS))
  }

  /** The swap: it writes only a row that is still as it was read. */
  function Swap(s: World, seen: Row, to: Option<Row>): World {
    if s.row == Some(seen) then s.(row := to) else s
  }

  function Accept(s: World, seen: Row, now: Time): World {
    s.(acceptances := s.acceptances + {Acceptance(now, seen.updatedAt)})
  }

  function ActOn(s: World, seen: Row, now: Time, userActivity: bool): World {
    var w := CalculateExpiryWindow(seen);
    if w.expiresAt <= now then Swap(s, seen, None)
    else if userActivity then
      if s.row == Some(seen)
      then Accept(Swap(s, seen, Some(Renewed(seen, now))).(activities := s.activities + {now}), seen, now)
      else s
    else if seen.expiresAt > w.expiresAt then
      if s.row == Some(seen) then Accept(Swap(s, seen, Some(seen.(expiresAt := w.expiresAt))), seen, now) else s
    else Accept(s, seen, now)
  }

  /** A check's clock reading lies between its read of the row and its write. */
  predicate InOrder(s: World, seen: Sighting, now: Time) {
    seen in s.sightings && seen.at <= now <= s.clock
  }

  function Apply(s: World, step: Step): World {
    match step
    case Tick(to) => if to < s.clock then s else s.(clock := to)
    case Read => if s.row.Some? then s.(sightings := s.sightings + {Sighting(s.row.value, s.clock)}) else s
    case Check(seen, now, userActivity) => if InOrder(s, seen, now) then ActOn(s, seen.row, now, userActivity) else s
    case Settle(seen, now) =>
      if InOrder(s, seen, now) && CalculateExpiryWindow(seen.row).expiresAt > now then Accept(s, seen.row, now) else s
    case SignOut => s.(row := None)
  }

  function Run(s: World, steps: seq<Step>): World
    decreases |steps|
  {
    if steps == [] then s else Run(Apply(s, steps[0]), steps[1..])
  }

  // ---- What every reachable state satisfies -----------------------------------------------------------

  predicate RowOk(s: World, row: Row, at: Time) {
    row.createdAt == s.createdAt && row.updatedAt in s.activities && row.updatedAt <= at
  }

  /** `at` falls inside both lifetimes, counted from activity `basis`. */
  predicate Timely(s: World, at: Time, basis: Time) {
    basis in s.activities && basis <= at <= s.clock
    && at < basis + IDLE_LIFETIME_MS && at < s.createdAt + ABSOLUTE_LIFETIME_MS
  }

  predicate ActivityOk(s: World, a: Time) {
    s.createdAt <= a <= s.clock && (a == s.createdAt || exists b :: b in s.activities && Timely(s, a, b))
  }

  predicate Inv(s: World) {
    && s.createdAt in s.activities
    && (s.row.Some? ==> RowOk(s, s.row.value, s.clock))
    && (forall x :: x in s.sightings ==> x.at <= s.clock && RowOk(s, x.row, x.at))
    && (forall a :: a in s.activities ==> ActivityOk(s, a))
    && (forall x :: x in s.acceptances ==> Timely(s, x.at, x.basis))
  }

  lemma StepKeeps(s: World, step: Step)
    requires Inv(s)
    ensures Inv(Apply(s, step))
  {
  }

  lemma {:induction false} RunKeeps(s: World, steps: seq<Step>)
    requires Inv(s)
    ensures Inv(Run(s, steps)) && s.createdAt == Run(s, steps).createdAt
    decreases |steps|
  {
    hide Inv;
    if steps != [] {
      StepKeeps(s, steps[0]);
      RunKeeps(Apply(s, steps[0]), steps[1..]);
    }
  }

  /**
   * However checks overlap, a request let through at `t` came less than 12 hours after sign-in and
   * less than 8 hours after sign-in or activity already recorded by then; and so did every activity.
   */
  lemma AcceptancesAreTimely(now: Time, expiresAt: Time, steps: seq<Step>)
    ensures var s := Run(SignIn(now, expiresAt), steps);
            && (forall x :: x in s.acceptances ==>
                  x.at < now + ABSOLUTE_LIFETIME_MS && x.basis in s.activities && x.basis <= x.at < x.basis + IDLE_LIFETIME_MS)
            && (forall a :: a in s.activities && a != now ==>
                  a < now + ABSOLUTE_LIFETIME_MS && exists b :: b in s.activities && b <= a < b + IDLE_LIFETIME_MS)
  {
    RunKeeps(SignIn(now, expiresAt), steps);
    var s := Run(SignIn(now, expiresAt), steps);
    forall a | a in s.activities && a != now
      ensures a < now + ABSOLUTE_LIFETIME_MS && exists b :: b in s.activities && b <= a < b + IDLE_LIFETIME_MS
    {
      assert ActivityOk(s, a);
    }
  }

  /** Recorded activity never goes back, and a session once gone does not return. */
  predicate RowMovesOn(before: Option<Row>, after: Option<Row>) {
    after.Some? ==> before.Some? && before.value.updatedAt <= after.value.updatedAt
                    && (after != before ==> after.value.expiresAt <= CalculateExpiryWindow(after.value).expiresAt)
  }

  lemma StepMovesOn(s: World, step: Step)
    requires Inv(s)
    ensures RowMovesOn(s.row, Apply(s, step).row)
  {
  }

  lemma {:induction false} ActivityNeverGoesBack(s: World, steps: seq<Step>)
    requires Inv(s)
    ensures RowMovesOn(s.row, Run(s, steps).row)
    decreases |steps|
  {
    hide Apply, Inv;
    if steps != [] {
      StepKeeps(s, steps[0]);
      StepMovesOn(s, steps[0]);
      ActivityNeverGoesBack(Apply(s, steps[0]), steps[1..]);
    }
  }

  /** The step is a check that deletes the session: the row stands as the check read it, and has expired. */
  predicate Expels(s: World, step: Step) {
    && step.Check? && s.row == Some(step.seen.row)
    && CalculateExpiryWindow(s.row.value).expiresAt <= step.now <= s.clock
  }

  lemma StepDeletes(s: World, step: Step)
    requires s.row.Some? && Apply(s, step).row.None? && !step.SignOut?
    ensures Expels(s, step)
  {
  }

  /**
   * A session that went without anybody signing out was deleted at a moment when its row, as it then
   * stood, had expired; a check that read it before a renewal cannot have done it.
   */
  lemma {:induction false} OnlyExpiredSessionsAreDeleted(s: World, steps: seq<Step>) returns (i: nat)
    requires s.row.Some? && Run(s, steps).row.None? && SignOut !in steps
    ensures i < |steps| && Expels(Run(s, steps[..i]), steps[i])
    decreases |steps|
  {
    hide Apply, Expels;
    var t := Apply(s, steps[0]);
    if t.row.None? {
      i := 0;
      StepDeletes(s, steps[0]);
    } else {
      var j := OnlyExpiredSessionsAreDeleted(t, steps[1..]);
      i := j + 1;
      assert steps[..i][1..] == steps[1..][..j] && steps[..i][0] == steps[0];
      assert Run(s, steps[..i]) == Run(t, steps[1..][..j]);
    }
  }

  // ---- enforceSession ---------------------------------------------------------------------------------------

  /** What the other requests do during one round: after the read, and after the clock is read. */
  datatype Gap = Gap(afterRead: seq<Step>, afterClock: seq<Step>)

  /** One round as a run: read, gap, clock, gap, and the check's single write. */
  function AfterRound(s: World, userActivity: bool, gap: Gap): World {
    if s.row.None? then s
    else
      var seen := Sighting(s.row.value, s.clock);
      var s1 := Run(Apply(s, Read), gap.afterRead);
      Apply(Run(s1, gap.afterClock), Check(seen, s1.clock, userActivity))
  }

  /** `at` is inside the row's own expiry, eight hours of its last activity and twelve of its creation. */
  predicate InForce(row: Row, at: Time) {
    at < row.expiresAt && at < row.updatedAt + 28_800_000 && at < row.createdAt + 43_200_000
  }

  predicate Live(s: World) {
    s.row.Some? && InForce(s.row.value, s.clock)
  }

  function Earlier(a: Time, b: Time): Time { if a <= b then a else b }

  /** What a check of `row` at `now` reports: for activity the renewed lifetimes, otherwise those that stand. */
  predicate Reports(row: Row, now: Time, userActivity: bool, w: Window) {
    && w.absoluteExpiresAt == row.createdAt + 43_200_000
    && w.idleExpiresAt == Earlier((if userActivity then now else row.updatedAt) + 28_800_000, row.createdAt + 43_200_000)
    && w.expiresAt == if userActivity then w.idleExpiresAt else Earlier(row.expiresAt, w.idleExpiresAt)
  }

  /** The row a check of `row` writes if it lets the request through. */
  function Kept(row: Row, now: Time, userActivity: bool): Row {
    if userActivity then Row(row.createdAt, now, Earlier(now + 28_800_000, row.createdAt + 43_200_000))
    else row.(expiresAt := Earlier(row.expiresAt, Earlier(row.updatedAt + 28_800_000, row.createdAt + 43_200_000)))
  }

  /** The round's answer, for the row it read, the clock reading it judged by and the row that stood when it wrote. */
  predicate Answers(row: Row, now: Time, standing: Option<Row>, userActivity: bool, answer: Option<Option<Window>>, left: Option<Row>) {
    var writes := !InForce(row, now) || Kept(row, now, userActivity) != row || userActivity;
    if writes && standing != Some(row) then answer.None? && left == standing
    else if !InForce(row, now) then answer == Some(None) && left.None?
    else && answer.Some? && answer.value.Some? && Reports(row, now, userActivity, answer.value.value)
         && left == if writes then Some(Kept(row, now, userActivity)) else standing
  }

  /**
   * A check with activity keeps a live session for eight hours more, or until twelve after its creation
   * if that is sooner, and not a moment longer; one without activity changes nothing about how long.
   */
  lemma ActivityRenewsExactly(s: World, at: Time, userActivity: bool)
    requires Live(s) && s.clock <= at
    ensures var t := AfterRound(s, userActivity, Gap([], []));
            Live(Run(t, [Tick(at)])) <==>
              if userActivity then at < s.clock + 28_800_000 && at < s.row.value.createdAt + 43_200_000
              else InForce(s.row.value, at)
  {
    var t := AfterRound(s, userActivity, Gap([], []));
    var read := Sighting(s.row.value, s.clock);
    assert t == Apply(Apply(s, Read), Check(read, s.clock, userActivity));
    assert Run(t, [Tick(at)]) == Run(Apply(t, Tick(at)), []);
  }

  class SessionTable {
    var state: World

    constructor (now: Time, expiresAt: Time)
      ensures state == SignIn(now, expiresAt)
    {
      state := SignIn(now, expiresAt);
    }

    method RunOthers(steps: seq<Step>, x: Sighting)
      requires Inv(state) && x in state.sightings && x.at <= state.clock
      modifies this
      ensures state == Run(old(state), steps) && Inv(state) && old(state).clock <= state.clock
      ensures x in state.sightings && old(state).createdAt == state.createdAt
      decreases |steps|
    {
      hide Inv;
      if steps != [] {
        StepKeeps(state, steps[0]);
        state := Apply(state, steps[0]);
        RunOthers(steps[1..], x);
      }
    }

    /** One round's outcome: an answer, or another round. */
    method Round(userActivity: bool, gap: Gap) returns (answer: Option<Option<Window>>)
      requires Inv(state)
      modifies this
      ensures Inv(state) && old(state).createdAt == state.createdAt && old(state).clock <= state.clock
      ensures state == AfterRound(old(state), userActivity, gap)
      ensures answer.Some? && answer.value.Some? ==>
                exists x :: x in state.acceptances && old(state).clock <= x.at && x.at < answer.value.value.expiresAt
      ensures if old(state).row.None? then answer == Some(None) && state == old(state)
              else
                var s1 := Run(Apply(old(state), Read), gap.afterRead);
                Answers(old(state).row.value, s1.clock, Run(s1, gap.afterClock).row, userActivity, answer, state.row)
    {
      hide Inv;
      StepKeeps(state, Read);
      if state.row.None? { return Some(None); }
      var session := state.row.value;
      var seen := Sighting(session, state.clock);
      state := state.(sightings := state.sightings + {seen});
      RunOthers(gap.afterRead, seen);
      var now := state.clock;
      RunOthers(gap.afterClock, seen);
      StepKeeps(state, Check(seen, now, userActivity));
      var window := CalculateExpiryWindow(session);
      var matches := state.row == Some(session);
      if window.expiresAt <= now {
        if !matches { return None; }
        state := state.(row := None);
        return Some(None);
      }
      if userActivity {
        var next := Min(window.absoluteExpiresAt, now + IDLE_LIFETIME_MS);
        if !matches { return None; }
        state := state.(row := Some(session.(updatedAt := now, expiresAt := next)),
                        activities := state.activities + {now},
                        acceptances := state.acceptances + {Acceptance(now, session.updatedAt)});
        LifetimesLieAhead(session, now);
        assert Acceptance(now, session.updatedAt) in state.acceptances;
        return Some(Some(Window(next, next, window.absoluteExpiresAt)));
      }
      if session.expiresAt > window.expiresAt {
        if !matches { return None; }
        state := state.(row := Some(session.(expiresAt := window.expiresAt)));
      }
      state := state.(acceptances := state.acceptances + {Acceptance(now, session.updatedAt)});
      assert Acceptance(now, session.updatedAt) in state.acceptances;
      return Some(Some(window));
    }

    /**
     * Judge a session, renewing it on user activity. Every call ends within eight rounds and one
     * further read, and answers as that round or read found: `decided` is the state it began in.
     */
    method EnforceSession(userActivity: bool, gaps: seq<Gap>, last: Gap)
      returns (result: Option<Window>, rounds: nat, ghost decided: World, ghost settled: bool)
      requires Inv(state) && |gaps| == MAX_COMPARE_AND_SWAP_ATTEMPTS
      modifies this
      ensures Inv(state) && rounds <= 8 && (settled ==> rounds == 8) && (!settled ==> rounds >= 1)
      ensures result.Some? ==> exists x :: x in state.acceptances && old(state).clock <= x.at && x.at < result.value.expiresAt
      ensures decided == AfterRounds(old(state), userActivity, gaps[..if settled then 8 else rounds - 1])
      ensures !settled ==>
                var gap := gaps[rounds - 1];
                && state == AfterRound(decided, userActivity, gap)
                && if decided.row.None? then result.None?
                   else
                     var s1 := Run(Apply(decided, Read), gap.afterRead);
                     Answers(decided.row.value, s1.clock, Run(s1, gap.afterClock).row, userActivity, Some(result), state.row)
      ensures settled ==>
                if decided.row.None? then result.None?
                else
                  var s1 := Run(Apply(decided, Read), last.afterRead);
                  && (result.Some? <==> InForce(decided.row.value, s1.clock))
                  && (result.Some? ==> Reports(decided.row.value, s1.clock, false, result.value)) && state.row == s1.row
      ensures gaps[0] == Gap([], []) ==> rounds == 1 && !settled && (result.Some? <==> Live(old(state)))
    {
      hide Inv, Answers, AfterRound, Run, Apply, InForce, Reports;
      rounds, decided, settled := 0, state, false;
      while rounds < MAX_COMPARE_AND_SWAP_ATTEMPTS
        invariant Inv(state) && rounds <= MAX_COMPARE_AND_SWAP_ATTEMPTS
        invariant old(state).clock <= state.clock
        invariant state == AfterRounds(old(state), userActivity, gaps[..rounds])
        invariant rounds > 0 ==> gaps[0] != Gap([], [])
      {
        decided := state;
        if rounds == 0 && gaps[0] == Gap([], []) && state.row.Some? { QuietRoundsAnswer(state, userActivity); }
        var answer := Round(userActivity, gaps[rounds]);
        assert gaps[..rounds + 1][..rounds] == gaps[..rounds];
        rounds := rounds + 1;
        if answer.Some? { return answer.value, rounds, decided, false; }
      }
      decided, settled := state, true;
      StepKeeps(state, Read);
      if state.row.None? { return None, rounds, decided, settled; }
      result := SettleSession(last);
    }

    /** The read after the last round: it judges and reports, and writes nothing. */
    method SettleSession(last: Gap) returns (result: Option<Window>)
      requires Inv(state) && state.row.Some?
      modifies this
      ensures Inv(state)
      ensures result.Some? ==> exists x :: x in state.acceptances && old(state).clock <= x.at && x.at < result.value.expiresAt
      ensures var s1 := Run(Apply(old(state), Read), last.afterRead);
              && (result.Some? <==> InForce(old(state).row.value, s1.clock))
              && (result.Some? ==> Reports(old(state).row.value, s1.clock, false, result.value)) && state.row == s1.row
    {
      hide Inv;
      StepKeeps(state, Read);
      var latest := state.row.value;
      var seen := Sighting(latest, state.clock);
      state := state.(sightings := state.sightings + {seen});
      RunOthers(last.afterRead, seen);
      var now := state.clock;
      StepKeeps(state, Settle(seen, now));
      var window := CalculateExpiryWindow(latest);
      if window.expiresAt <= now { return None; }
      state := state.(acceptances := state.acceptances + {Acceptance(now, latest.updatedAt)});
      assert Acceptance(now, latest.updatedAt) in state.acceptances;
      return Some(window);
    }
  }

  function AfterRounds(s: World, userActivity: bool, gaps: seq<Gap>): World
    decreases |gaps|
  {
    if gaps == [] then s else AfterRound(AfterRounds(s, userActivity, gaps[..|gaps| - 1]), userActivity, gaps[|gaps| - 1])
  }

  /** Left alone a round always answers, with a window exactly if the session is live. */
  lemma QuietRoundsAnswer(s: World, userActivity: bool)
    requires s.row.Some?
    ensures var s1 := Run(Apply(s, Read), []);
            && s1.clock == s.clock && Run(s1, []).row == s.row
            && forall answer, left :: Answers(s.row.value, s.clock, s.row, userActivity, answer, left) ==>
                 answer.Some? && (answer.value.Some? <==> Live(s))
  {
  }

  lemma LifetimesLieAhead(row: Row, now: Time)
    requires now < CalculateExpiryWindow(row).expiresAt
    ensures now < Min(row.createdAt + ABSOLUTE_LIFETIME_MS, now + IDLE_LIFETIME_MS)
  {
  }
}
