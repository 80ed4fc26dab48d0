/** The stored resend histories: pruning, row expiry, and what any run of requests can obtain. */
module ResendLimiter {
  import opened Prelude
  import opened ResendPolicy
  import opened Timeline

  /** A history belongs to a hashed client address or to an unverified account. */
  datatype Key = Ip(hash: string) | Account(id: string)

  function RuleOf(key: Key): Rule {
    if key.Ip? then IpRule else AccountRule
  }

  datatype Row = Row(times: seq<Time>, expiresAt: Time)

  /** The keys a request is judged by, in the order their locks are taken. */
  function KeysOf(ip: string, account: Option<string>): seq<Key> {
    if account.Some? then [Account(account.value), Ip(ip)] else [Ip(ip)]
  }

  function TimesOf(rows: map<Key, Row>, key: Key): seq<Time> {
    if key in rows then rows[key].times else []
  }

  function WaitFor(rows: map<Key, Row>, key: Key, now: Time): nat {
    WaitSeconds(Later(TimesOf(rows, key), now - Window(RuleOf(key))), now, RuleOf(key))
  }

  function TotalWait(rows: map<Key, Row>, ip: string, account: Option<string>, now: Time): nat {
    var own := WaitFor(rows, Ip(ip), now);
    if account.None? then own else Max(own, WaitFor(rows, Account(account.value), now))
  }

  /** Whether a request at `now` is entered under `key`: an address also counts what its account refuses. */
  predicate Recorded(rows: map<Key, Row>, ip: string, account: Option<string>, now: Time, key: Key) {
    key in KeysOf(ip, account)
    && (TotalWait(rows, ip, account, now) == 0 || (key.Ip? && WaitFor(rows, key, now) == 0))
  }

  function Entered(rows: map<Key, Row>, key: Key, now: Time): map<Key, Row> {
    rows[key := Row(Later(TimesOf(rows, key), now - Window(RuleOf(key))) + [now], now + Window(RuleOf(key)))]
  }

  function Reserve(rows: map<Key, Row>, ip: string, account: Option<string>, now: Time): map<Key, Row> {
    var r1 := if account.Some? && Recorded(rows, ip, account, now, Account(account.value))
              then Entered(rows, Account(account.value), now) else rows;
    if Recorded(rows, ip, account, now, Ip(ip)) then Entered(r1, Ip(ip), now) else r1
  }

  function DropExpired(rows: map<Key, Row>, now: Time): map<Key, Row> {
    map k | k in rows && rows[k].expiresAt > now :: rows[k]
  }

  // ---- Runs -----------------------------------------------------------------------------------------

  /** `log` is what a limiter that never forgets would have stored. */
  datatype World = World(clock: Time, rows: map<Key, Row>, log: map<Key, seq<Time>>)

  datatype Step = CleanUp(at: Time) | Request(ip: string, account: Option<string>, at: Time)

  function LogOf(s: World, key: Key): seq<Time> {
    if key in s.log then s.log[key] else []
  }

  function Log(s: World, key: Key, ip: string, account: Option<string>, now: Time): map<Key, seq<Time>> {
    if Recorded(s.rows, ip, account, now, key) then s.log[key := LogOf(s, key) + [now]] else s.log
  }

  /** Times come from the database clock, which does not run backwards; a step out of order does nothing. */
  function Apply(s: World, step: Step): World {
    if step.at < s.clock then s
    else
      match step
      case CleanUp(now) => World(now, DropExpired(s.rows, now), s.log)
      case Request(ip, account, now) =>
        var s1 := if account.Some? then s.(log := Log(s, Account(account.value), ip, account, now)) else s;
        World(now, Reserve(s.rows, ip, account, now), Log(s1, Ip(ip), ip, account, now))
  }

  function Run(s: World, steps: seq<Step>): World
    decreases |steps|
  {
    if steps == [] then s else Run(Apply(s, steps[0]), steps[1..])
  }

  /** A full log: in order, no more than the allowance inside any window, and a cooldown between entries. */
  predicate WellSpaced(times: seq<Time>, rule: Rule, clock: Time) {
    && Sorted(times) && (forall t :: t in times ==> t <= clock)
    && (forall i, j :: 0 <= i < j < |times| && i + rule.maxRequests <= j ==> times[i] + Window(rule) <= times[j])
    && (forall i, j :: 0 <= i < j < |times| ==> times[i] + Cooldown(rule) <= times[j])
  }

  /** What is stored is all of the log that can still matter. */
  predicate KeyOk(s: World, key: Key) {
    var w := Window(RuleOf(key));
    && WellSpaced(LogOf(s, key), RuleOf(key), s.clock)
    && Later(TimesOf(s.rows, key), s.clock - w) == Later(LogOf(s, key), s.clock - w)
    && (key in s.rows ==> forall t :: t in s.rows[key].times ==> t + w <= s.rows[key].expiresAt)
  }

  ghost predicate Inv(s: World) {
    s.clock >= 0 && forall key :: KeyOk(s, key)
  }

  lemma StillSpaced(times: seq<Time>, rule: Rule, clock: Time, now: Time)
    requires WellSpaced(times, rule, clock) && clock <= now
    ensures WellSpaced(times, rule, now) && forall t :: t in times ==> t <= now
  {
  }

  /** As time passes a key's stored history still agrees with its log. */
  lemma AgreesLater(s: World, key: Key, now: Time)
    requires KeyOk(s, key) && now >= s.clock
    ensures var w := Window(RuleOf(key)); Later(TimesOf(s.rows, key), now - w) == Later(LogOf(s, key), now - w)
  {
    hide WellSpaced;
    var w := Window(RuleOf(key));
    LaterCounts(TimesOf(s.rows, key), s.clock - w, now - w);
    LaterCounts(LogOf(s, key), s.clock - w, now - w);
  }

  lemma {:induction false} NothingLater(times: seq<Time>, after: Time)
    requires forall t :: t in times ==> t <= after
    ensures Later(times, after) == []
  {
    if times != [] {
      assert times[0] in times && forall t :: t in times[1..] ==> t in times;
      NothingLater(times[1..], after);
    }
  }

  lemma {:induction false} LaterAppend(a: seq<Time>, b: seq<Time>, after: Time)
    ensures Later(a + b, after) == Later(a, after) + Later(b, after)
  {
    if a == [] {
      assert a + b == b;
    } else {
      assert (a + b)[1..] == a[1..] + b;
      LaterAppend(a[1..], b, after);
    }
  }

  /** The stored history and the full log always give the same wait. */
  lemma SameWait(s: World, key: Key, now: Time)
    requires KeyOk(s, key) && now >= s.clock
    ensures WaitFor(s.rows, key, now) == WaitSeconds(LogOf(s, key), now, RuleOf(key))
  {
    hide WellSpaced, Sort, CeilSeconds;
    var w := Window(RuleOf(key));
    AgreesLater(s, key, now);
    LaterCounts(LogOf(s, key), now - w, now - w);
  }

  /** Entering an allowed request keeps the log well spaced. */
  lemma SpacingKept(times: seq<Time>, rule: Rule, clock: Time, now: Time)
    requires WellSpaced(times, rule, clock) && clock <= now && 0 <= now && Sensible(rule)
    requires WaitSeconds(times, now, rule) == 0
    ensures WellSpaced(times + [now], rule, now)
  {
    hide WaitSeconds, CountLater;
    WaitIsTight(times, now, rule);
    var n := |times|;
    if n >= rule.maxRequests { KthFromEnd(times, rule.maxRequests, now - Window(rule)); }
    forall i | 0 <= i < n
      ensures times[i] <= now && times[i] + Cooldown(rule) <= now && (i + rule.maxRequests <= n ==> times[i] + Window(rule) <= now)
    {
      assert times[i] in times;
    }
    hide Window, Cooldown;
  }

  lemma EntryAgrees(times: seq<Time>, log: seq<Time>, now: Time, w: nat)
    requires Later(times, now - w) == Later(log, now - w)
    ensures Later(Later(times, now - w) + [now], now - w) == Later(log + [now], now - w)
    ensures forall t :: t in Later(times, now - w) ==> t in log
  {
    LaterAppend(Later(times, now - w), [now], now - w);
    LaterAppend(log, [now], now - w);
    LaterCounts(times, now - w, now - w);
  }

  lemma CleanUpKeeps(s: World, now: Time, key: Key)
    requires KeyOk(s, key) && now >= s.clock
    ensures KeyOk(Apply(s, CleanUp(now)), key)
  {
    var w := Window(RuleOf(key));
    hide WellSpaced, Later;
    AgreesLater(s, key, now);
    StillSpaced(LogOf(s, key), RuleOf(key), s.clock, now);
    if key in s.rows && s.rows[key].expiresAt <= now { NothingLater(TimesOf(s.rows, key), now - w); }
    NothingLater([], now - w);
  }

  lemma RequestSeenBy(s: World, ip: string, account: Option<string>, now: Time, key: Key)
    requires now >= s.clock
    ensures var t := Apply(s, Request(ip, account, now));
            if Recorded(s.rows, ip, account, now, key) then
              && key in t.rows && t.rows[key] == Entered(s.rows, key, now)[key]
              && LogOf(t, key) == LogOf(s, key) + [now]
              && WaitFor(s.rows, key, now) == 0
            else
              TimesOf(t.rows, key) == TimesOf(s.rows, key) && LogOf(t, key) == LogOf(s, key)
              && (key in t.rows <==> key in s.rows) && (key in t.rows ==> t.rows[key] == s.rows[key])
  {
    hide WaitSeconds, Later;
  }

  lemma RequestKeeps(s: World, ip: string, account: Option<string>, now: Time, key: Key)
    requires KeyOk(s, key) && s.clock <= now && 0 <= now
    ensures KeyOk(Apply(s, Request(ip, account, now)), key)
  {
    hide Apply, Recorded, WaitFor, WellSpaced, Later, WaitSeconds;
    var w := Window(RuleOf(key));
    StillSpaced(LogOf(s, key), RuleOf(key), s.clock, now);
    AgreesLater(s, key, now);
    RequestSeenBy(s, ip, account, now, key);
    ClockMoves(s, Request(ip, account, now));
    if Recorded(s.rows, ip, account, now, key) {
      SameWait(s, key, now);
      SpacingKept(LogOf(s, key), RuleOf(key), s.clock, now);
      EntryAgrees(TimesOf(s.rows, key), LogOf(s, key), now, w);
    }
  }

  lemma ClockMoves(s: World, step: Step)
    ensures Apply(s, step).clock == Max(s.clock, step.at)
  {
  }

  lemma StepKeeps(s: World, step: Step)
    requires Inv(s)
    ensures Inv(Apply(s, step))
  {
    ClockMoves(s, step);
    forall key ensures KeyOk(Apply(s, step), key) {
      if step.at >= s.clock {
        if step.CleanUp? { CleanUpKeeps(s, step.at, key); } else { RequestKeeps(s, step.ip, step.account, step.at, key); }
      }
    }
  }

  lemma {:induction false} RunKeeps(s: World, steps: seq<Step>)
    requires Inv(s)
    ensures Inv(Run(s, steps))
    decreases |steps|
  {
    hide Inv, Apply;
    if steps != [] {
      StepKeeps(s, steps[0]);
      RunKeeps(Apply(s, steps[0]), steps[1..]);
    }
  }

  // ---- Over whole runs ---------------------------------------------------------------------------------

  /** Deciding from the pruned and expired rows is deciding from everything ever recorded. */
  lemma ForgettingChangesNoDecision(steps: seq<Step>, ip: string, account: Option<string>, now: Time)
    requires now >= Run(World(0, map[], map[]), steps).clock
    ensures var s := Run(World(0, map[], map[]), steps);
            TotalWait(s.rows, ip, account, now) ==
            var own := WaitSeconds(LogOf(s, Ip(ip)), now, IpRule);
            if account.None? then own else Max(own, WaitSeconds(LogOf(s, Account(account.value)), now, AccountRule))
  {
    StartIsOk();
    RunKeeps(World(0, map[], map[]), steps);
    var s := Run(World(0, map[], map[]), steps);
    SameWait(s, Ip(ip), now);
    if account.Some? { SameWait(s, Account(account.value), now); }
  }

  lemma StartIsOk()
    ensures Inv(World(0, map[], map[]))
  {
  }

  lemma WindowsAreBounded(times: seq<Time>, rule: Rule, clock: Time, from: Time)
    requires WellSpaced(times, rule, clock) && rule.maxRequests >= 1
    ensures CountBetween(times, from, from + Window(rule)) <= rule.maxRequests
  {
    var n := CountBetween(times, from, from + Window(rule));
    if n > rule.maxRequests {
      var i := CountedTogether(times, from, from + Window(rule));
    }
  }

  /**
   * In any run and any hour-long interval an account obtains at most three resends, at least five
   * minutes apart; and in any minute an address is counted at most sixty times.
   */
  lemma ResendsAreLimited(steps: seq<Step>, account: string, ip: string, from: Time, i: nat)
    ensures var s := Run(World(0, map[], map[]), steps);
            && CountBetween(LogOf(s, Account(account)), from, from + 3_600_000) <= 3
            && (i + 1 < |LogOf(s, Account(account))| ==> LogOf(s, Account(account))[i] + 300_000 <= LogOf(s, Account(account))[i + 1])
            && CountBetween(LogOf(s, Ip(ip)), from, from + 60_000) <= 60
  {
    StartIsOk();
    RunKeeps(World(0, map[], map[]), steps);
    var s := Run(World(0, map[], map[]), steps);
    assert KeyOk(s, Account(account)) && KeyOk(s, Ip(ip));
    WindowsAreBounded(LogOf(s, Account(account)), AccountRule, s.clock, from);
    WindowsAreBounded(LogOf(s, Ip(ip)), IpRule, s.clock, from);
  }

  /**
   * What each log records: an account's, exactly the requests that were let through; an address's,
   * every request its own budget had room for, whether or not the account's rule refused it.
   */
  lemma LogsRecordDecisions(steps: seq<Step>, ip: string, account: Option<string>, now: Time, key: Key)
    requires now >= Run(World(0, map[], map[]), steps).clock
    ensures var s := Run(World(0, map[], map[]), steps);
            var t := Apply(s, Request(ip, account, now));
            LogOf(t, key) == LogOf(s, key) +
              (if (key == Ip(ip) && WaitFor(s.rows, Ip(ip), now) == 0)
                  || (key.Account? && account == Some(key.id) && TotalWait(s.rows, ip, account, now) == 0)
               then [now] else [])
  {
  }

  // ---- The stored table ------------------------------------------------------------------------------------

  /** A row outlives every window that one of its times is still inside. */
  predicate Covered(rows: map<Key, Row>) {
    forall key :: key in rows ==> forall t :: t in rows[key].times ==> t + Window(RuleOf(key)) <= rows[key].expiresAt
  }

  /** Every reachable table is so. */
  lemma RowsAreCovered(steps: seq<Step>)
    ensures Covered(Run(World(0, map[], map[]), steps).rows)
  {
    StartIsOk();
    RunKeeps(World(0, map[], map[]), steps);
    var s := Run(World(0, map[], map[]), steps);
    forall key | key in s.rows ensures forall t :: t in s.rows[key].times ==> t + Window(RuleOf(key)) <= s.rows[key].expiresAt {
      assert KeyOk(s, key);
    }
  }

  lemma ExpiryChangesNothing(rows: map<Key, Row>, now: Time, key: Key, at: Time)
    requires Covered(rows) && now <= at
    ensures WaitFor(DropExpired(rows, now), key, at) == WaitFor(rows, key, at)
  {
    hide WaitSeconds;
    if key in rows && rows[key].expiresAt <= now { NothingLater(rows[key].times, at - Window(RuleOf(key))); }
  }

  // ---- The rules as users meet them -------------------------------------------------------------------------

  /** Fewer than sixty requests from the address within the last minute, and none dated later than now. */
  predicate AddressHasRoom(rows: map<Key, Row>, ip: string, at: Time) {
    Ip(ip) in rows ==>
      var times := rows[Ip(ip)].times;
      CountLater(times, at - 60_000) < 60 && forall t :: t in times ==> t <= at
  }

  /** Fewer than three resends of the account within the last hour, and none within the last five minutes. */
  predicate AccountHasRoom(rows: map<Key, Row>, id: string, at: Time) {
    Account(id) in rows ==>
      var times := rows[Account(id)].times;
      CountLater(times, at - 3_600_000) < 3 && forall t :: t in times ==> t + 300_000 <= at
  }

  predicate MayResend(rows: map<Key, Row>, ip: string, account: Option<string>, at: Time) {
    AddressHasRoom(rows, ip, at) && (account.Some? ==> AccountHasRoom(rows, account.value, at))
  }

  /** The key's row gains `now` and lasts one window more, dropping what the window has left behind; or it is as before. */
  predicate CountedUnder(before: map<Key, Row>, after: map<Key, Row>, key: Key, now: Time, window: int, counted: bool) {
    if counted then
      && key in after && after[key].expiresAt == now + window
      && after[key].times == Later(if key in before then before[key].times else [], now - window) + [now]
    else (key in after <==> key in before) && (key in after ==> after[key] == before[key])
  }

  predicate HasRoom(rows: map<Key, Row>, key: Key, at: Time) {
    match key
    case Ip(ip) => AddressHasRoom(rows, ip, at)
    case Account(id) => AccountHasRoom(rows, id, at)
  }

  lemma RoomIsAllowed(rows: map<Key, Row>, key: Key, at: Time)
    ensures HasRoom(rows, key, at) <==> ResendPolicy.Allowed(TimesOf(rows, key), at, RuleOf(key))
  {
  }

  /** A key makes a request wait the least number of seconds after which it has room. */
  lemma WaitIsForRoom(rows: map<Key, Row>, key: Key, now: Time)
    requires now >= 0
    ensures var wait := WaitFor(rows, key, now);
            && (wait == 0 <==> HasRoom(rows, key, now))
            && (forall at :: at >= now + 1000 * wait ==> HasRoom(rows, key, at))
            && (forall k: nat :: k < wait ==> !HasRoom(rows, key, now + 1000 * k))
  {
    hide HasRoom, ResendPolicy.Allowed, WaitSeconds, Later;
    var times, rule := TimesOf(rows, key), RuleOf(key);
    SameRecent(times, now, rule);
    WaitIsTight(times, now, rule);
    RoomIsAllowed(rows, key, now);
    var wait := WaitFor(rows, key, now);
    forall at | at >= now + 1000 * wait ensures HasRoom(rows, key, at) { RoomIsAllowed(rows, key, at); WaitIsTight(times, at, rule); }
    forall k: nat | k < wait ensures !HasRoom(rows, key, now + 1000 * k) {
      RoomIsAllowed(rows, key, now + 1000 * k);
      WaitIsTight(times, now + 1000 * k, rule);
    }
  }

  lemma SameRecent(times: seq<Time>, now: Time, rule: Rule)
    requires rule.maxRequests >= 1
    ensures WaitSeconds(Later(times, now - Window(rule)), now, rule) == WaitSeconds(times, now, rule)
  {
    hide Sort, CeilSeconds, CountLater;
    LaterCounts(times, now - Window(rule), now - Window(rule));
    hide Later;
  }

  lemma WaitInTerms(rows: map<Key, Row>, ip: string, account: Option<string>, now: Time)
    requires now >= 0
    ensures var wait := TotalWait(rows, ip, account, now);
            && (wait == 0 <==> MayResend(rows, ip, account, now))
            && (forall at :: at >= now + 1000 * wait ==> MayResend(rows, ip, account, at))
            && (forall k: nat :: k < wait ==> !MayResend(rows, ip, account, now + 1000 * k))
  {
    hide AddressHasRoom, AccountHasRoom, WaitFor;
    WaitIsForRoom(rows, Ip(ip), now);
    if account.Some? { WaitIsForRoom(rows, Account(account.value), now); }
    var wait := TotalWait(rows, ip, account, now);
    forall at | at >= now + 1000 * wait ensures MayResend(rows, ip, account, at) {
      assert HasRoom(rows, Ip(ip), at);
      assert account.Some? ==> HasRoom(rows, Account(account.value), at);
    }
    forall k: nat | k < wait ensures !MayResend(rows, ip, account, now + 1000 * k) {
      assert k < WaitFor(rows, Ip(ip), now) ==> !HasRoom(rows, Ip(ip), now + 1000 * k);
      assert account.Some? && k < WaitFor(rows, Account(account.value), now) ==> !HasRoom(rows, Account(account.value), now + 1000 * k);
    }
  }

  lemma ReserveWrites(rows: map<Key, Row>, ip: string, account: Option<string>, now: Time)
    ensures var t := Reserve(rows, ip, account, now);
            && (now >= 0 ==> CountedUnder(rows, t, Ip(ip), now, 60_000, AddressHasRoom(rows, ip, now)))
            && (account.Some? ==> CountedUnder(rows, t, Account(account.value), now, 3_600_000, TotalWait(rows, ip, account, now) == 0))
            && (forall k :: k != Ip(ip) && (account.None? || k != Account(account.value)) ==>
                  (k in t <==> k in rows) && (k in t ==> t[k] == rows[k]))
  {
    hide AddressHasRoom, WaitFor, Later;
    if now >= 0 { WaitIsForRoom(rows, Ip(ip), now); }
  }

  datatype History = History(key: Key, recent: seq<Time>, wait: nat)

  class ResendLimits {
    var rows: map<Key, Row>

    constructor ()
      ensures rows == map[]
    {
      rows := map[];
    }

    /** No decision from now on is any different for the rows it removes. */
    method DeleteExpired(now: Time)
      modifies this
      ensures rows == DropExpired(old(rows), now)
      ensures forall k :: (k in rows <==> k in old(rows) && now < old(rows)[k].expiresAt) && (k in rows ==> rows[k] == old(rows)[k])
      ensures Covered(old(rows)) ==>
                Covered(rows)
                && forall ip, account, at :: at >= now ==> TotalWait(rows, ip, account, at) == TotalWait(old(rows), ip, account, at)
    {
      if Covered(rows) {
        forall ip, account, at | at >= now ensures TotalWait(DropExpired(rows, now), ip, account, at) == TotalWait(rows, ip, account, at) {
          ExpiryChangesNothing(rows, now, Ip(ip), at);
          if account.Some? { ExpiryChangesNothing(rows, now, Account(account.value), at); }
        }
      }
      rows := map k | k in rows && rows[k].expiresAt > now :: rows[k];
    }

    /**
     * Judge by every key's recent history first, then write; returns the seconds to wait, zero if
     * accepted: the least whole number of seconds after which the request may be made.
     */
    method ReserveResend(ip: string, account: Option<string>, now: Time) returns (waitSeconds: nat)
      modifies this
      ensures now >= 0 ==>
                && (waitSeconds == 0 <==> MayResend(old(rows), ip, account, now))
                && (forall at :: at >= now + 1000 * waitSeconds ==> MayResend(old(rows), ip, account, at))
                && (forall k: nat :: k < waitSeconds ==> !MayResend(old(rows), ip, account, now + 1000 * k))
      ensures now >= 0 ==> CountedUnder(old(rows), rows, Ip(ip), now, 60_000, AddressHasRoom(old(rows), ip, now))
      ensures account.Some? ==> CountedUnder(old(rows), rows, Account(account.value), now, 3_600_000, waitSeconds == 0)
      ensures forall k :: k != Ip(ip) && (account.None? || k != Account(account.value)) ==>
                (k in rows <==> k in old(rows)) && (k in rows ==> rows[k] == old(rows)[k])
      ensures waitSeconds == TotalWait(old(rows), ip, account, now)
      ensures rows == Reserve(old(rows), ip, account, now)
    {
      hide WaitSeconds, Later, MayResend, CountedUnder, AddressHasRoom, Reserve;
      if now >= 0 { WaitInTerms(rows, ip, account, now); }
      ReserveWrites(rows, ip, account, now);
      var keys := KeysOf(ip, account);
      var histories;
      waitSeconds, histories := JudgeKeys(keys, now);
      AllWaitsCount(rows, ip, account, now);
      hide WaitSoFar, TotalWait;
      WriteHistories(histories, ip, account, now, waitSeconds);
    }

    method JudgeKeys(keys: seq<Key>, now: Time) returns (waitSeconds: nat, histories: seq<History>)
      ensures waitSeconds == WaitSoFar(rows, keys, now, |keys|) && |histories| == |keys|
      ensures forall j :: 0 <= j < |keys| ==>
                histories[j] == History(keys[j], Later(TimesOf(rows, keys[j]), now - Window(RuleOf(keys[j]))), WaitFor(rows, keys[j], now))
    {
      hide WaitSeconds, Later;
      histories := [];
      waitSeconds := 0;
      var i := 0;
      while i < |keys|
        invariant 0 <= i <= |keys| && |histories| == i
        invariant forall j :: 0 <= j < i ==>
                    histories[j] == History(keys[j], Later(TimesOf(rows, keys[j]), now - Window(RuleOf(keys[j]))), WaitFor(rows, keys[j], now))
        invariant waitSeconds == WaitSoFar(rows, keys, now, i)
      {
        var recent := Later(if keys[i] in rows then rows[keys[i]].times else [], now - Window(RuleOf(keys[i])));
        var wait := WaitSeconds(recent, now, RuleOf(keys[i]));
        waitSeconds := Max(waitSeconds, wait);
        histories := histories + [History(keys[i], recent, wait)];
        i := i + 1;
      }
    }

    method WriteHistories(histories: seq<History>, ip: string, account: Option<string>, now: Time, waitSeconds: nat)
      requires waitSeconds == TotalWait(rows, ip, account, now) && |histories| == |KeysOf(ip, account)|
      requires forall j :: 0 <= j < |histories| ==>
                 var key := KeysOf(ip, account)[j];
                 histories[j] == History(key, Later(TimesOf(rows, key), now - Window(RuleOf(key))), WaitFor(rows, key, now))
      modifies this
      ensures rows == Reserve(old(rows), ip, account, now)
    {
      hide WaitSeconds, Later, WaitFor, TotalWait;
      var i := 0;
      while i < |histories|
        invariant 0 <= i <= |histories|
        invariant rows == Written(old(rows), ip, account, now, i)
      {
        var h := histories[i];
        if waitSeconds == 0 || (h.key.Ip? && h.wait == 0) {
          rows := rows[h.key := Row(h.recent + [now], now + Window(RuleOf(h.key)))];
        }
        i := i + 1;
      }
      WrittenIsReserve(old(rows), ip, account, now);
    }
  }

  lemma WrittenIsReserve(rows: map<Key, Row>, ip: string, account: Option<string>, now: Time)
    ensures Written(rows, ip, account, now, |KeysOf(ip, account)|) == Reserve(rows, ip, account, now)
  {
    hide Recorded, Later;
    assert Written(rows, ip, account, now, 0) == rows;
    assert Written(rows, ip, account, now, 1)
           == if Recorded(rows, ip, account, now, KeysOf(ip, account)[0]) then Entered(rows, KeysOf(ip, account)[0], now) else rows;
  }

  function WaitSoFar(rows: map<Key, Row>, keys: seq<Key>, now: Time, n: nat): nat
    requires n <= |keys|
  {
    if n == 0 then 0 else Max(WaitSoFar(rows, keys, now, n - 1), WaitFor(rows, keys[n - 1], now))
  }

  lemma AllWaitsCount(rows: map<Key, Row>, ip: string, account: Option<string>, now: Time)
    ensures WaitSoFar(rows, KeysOf(ip, account), now, |KeysOf(ip, account)|) == TotalWait(rows, ip, account, now)
  {
    hide WaitFor;
    var keys := KeysOf(ip, account);
    assert WaitSoFar(rows, keys, now, 1) == WaitFor(rows, keys[0], now);
  }

  /** The table once the first `n` keys of the request are written. */
  function Written(rows: map<Key, Row>, ip: string, account: Option<string>, now: Time, n: nat): map<Key, Row>
    requires n <= |KeysOf(ip, account)|
  {
    if n == 0 then rows
    else
      var key := KeysOf(ip, account)[n - 1];
      var before := Written(rows, ip, account, now, n - 1);
      if Recorded(rows, ip, account, now, key)
      then before[key := Row(Later(TimesOf(rows, key), now - Window(RuleOf(key))) + [now], now + Window(RuleOf(key)))] else before
  }
}
