/** How long a user must wait before another verification mail, from the times of earlier requests. */
module ResendPolicy {
  import opened Prelude
  import opened Timeline

  datatype Rule = Rule(windowSeconds: nat, maxRequests: nat, cooldownSeconds: nat)

  const AccountRule := Rule(3600, 3, 300)
  const IpRule := Rule(60, 60, 0)

  /** What the policy is used with: at least one request allowed, and no cooldown beyond the window. */
  predicate Sensible(rule: Rule) {
    rule.maxRequests >= 1 && rule.cooldownSeconds <= rule.windowSeconds
  }

  function Window(rule: Rule): int { rule.windowSeconds * 1000 }

  function Cooldown(rule: Rule): int { rule.cooldownSeconds * 1000 }

  /** The requests later than `after`, in the order given. */
  function Later(times: seq<Time>, after: Time): (r: seq<Time>)
    ensures forall t :: t in r <==> t in times && t > after
  {
    if times == [] then [] else (if times[0] > after then [times[0]] else []) + Later(times[1..], after)
  }

  function Sort(times: seq<Time>): seq<Time> {
    SortBy(times, Instant)
  }

  function Instant(t: Time): Time { t }

  function Recent(times: seq<Time>, now: Time, rule: Rule): seq<Time> {
    Sort(Later(times, now - Window(rule)))
  }

  /** Round a positive wait up to whole seconds; a wait already over is none. */
  function CeilSeconds(ms: int): nat {
    if ms <= 0 then 0 else (ms + 999) / 1000
  }

  function WaitSeconds(times: seq<Time>, now: Time, rule: Rule): nat
    requires rule.maxRequests >= 1
  {
    var recent := Recent(times, now, rule);
    var cooldownUntil := if |recent| > 0 then recent[|recent| - 1] + Cooldown(rule) else 0;
    var quotaUntil := if |recent| >= rule.maxRequests then recent[|recent| - rule.maxRequests] + Window(rule) else 0;
    CeilSeconds(Max(cooldownUntil, quotaUntil) - now)
  }

  // ---- Counting ---------------------------------------------------------------------------------

  function CountLater(times: seq<Time>, after: Time): (n: nat)
    ensures n <= |times|
  {
    if times == [] then 0 else (if times[0] > after then 1 else 0) + CountLater(times[1..], after)
  }

  lemma {:induction false} CountAppend(a: seq<Time>, b: seq<Time>, after: Time)
    ensures CountLater(a + b, after) == CountLater(a, after) + CountLater(b, after)
  {
    if a == [] {
      assert a + b == b;
    } else {
      assert (a + b)[1..] == a[1..] + b;
      CountAppend(a[1..], b, after);
    }
  }

  lemma {:induction false} InsertCounts(t: Time, times: seq<Time>, after: Time)
    ensures CountLater(InsertBy(t, times, Instant), after) == (if t > after then 1 else 0) + CountLater(times, after)
  {
    if times == [] || times[|times| - 1] <= t {
      CountAppend(times, [t], after);
    } else {
      var front, last := times[..|times| - 1], times[|times| - 1];
      InsertCounts(t, front, after);
      CountAppend(InsertBy(t, front, Instant), [last], after);
      CountAppend(front, [last], after);
      assert times == front + [last];
    }
  }

  lemma {:induction false} SortCounts(times: seq<Time>, after: Time)
    ensures CountLater(Sort(times), after) == CountLater(times, after)
  {
    if times != [] {
      var front, last := times[..|times| - 1], times[|times| - 1];
      SortCounts(front, after);
      InsertCounts(last, Sort(front), after);
      CountAppend(front, [last], after);
      assert times == front + [last];
    }
  }

  lemma {:induction false} LaterCounts(times: seq<Time>, a: Time, b: Time)
    requires a <= b
    ensures CountLater(Later(times, a), b) == CountLater(times, b)
    ensures |Later(times, a)| == CountLater(times, a)
    ensures Later(Later(times, a), b) == Later(times, b)
  {
    if times != [] {
      LaterCounts(times[1..], a, b);
      var rest := Later(times[1..], a);
      if times[0] > a {
        assert Later(times, a) == [times[0]] + rest;
        assert Later(times, a)[1..] == rest;
      } else {
        assert Later(times, a) == rest;
      }
    }
  }

  /** In order, the `k`-th from the end is later than `after` exactly when at least `k` are. */
  lemma {:induction false} KthFromEnd(times: seq<Time>, k: nat, after: Time)
    requires Sorted(times) && 1 <= k <= |times|
    ensures times[|times| - k] > after <==> CountLater(times, after) >= k
  {
    if k == |times| {
      AllOrFewer(times, after);
    } else {
      KthFromEnd(times[1..], k, after);
      if times[0] > after { AllOrFewer(times, after); }
    }
  }

  lemma {:induction false} AllOrFewer(times: seq<Time>, after: Time)
    requires Sorted(times) && |times| >= 1
    ensures times[0] > after <==> CountLater(times, after) == |times|
  {
    if |times| > 1 { AllOrFewer(times[1..], after); }
  }

  lemma SortKeeps(times: seq<Time>)
    ensures Sorted(Sort(times)) && |Sort(times)| == |times|
    ensures forall x :: x in Sort(times) <==> x in times
  {
    SortKeepsOrder(times, Instant);
    var r := Sort(times);
    forall i, j | 0 <= i < j < |r| ensures r[i] <= r[j] { assert Instant(r[i]) <= Instant(r[j]); }
  }

  // ---- The wait is tight ---------------------------------------------------------------------------

  /** The rule as its reader understands it. */
  predicate Allowed(times: seq<Time>, now: Time, rule: Rule) {
    && (forall t :: t in times ==> t + Cooldown(rule) <= now)
    && CountLater(times, now - Window(rule)) < rule.maxRequests
  }

  lemma RecentIs(times: seq<Time>, now: Time, rule: Rule)
    ensures var r := Recent(times, now, rule);
            && Sorted(r) && |r| == CountLater(times, now - Window(rule))
            && (forall t :: t in r <==> t in times && t > now - Window(rule))
            && (forall b :: b >= now - Window(rule) ==> CountLater(r, b) == CountLater(times, b))
  {
    var later := Later(times, now - Window(rule));
    SortKeeps(later);
    hide Sort;
    LaterCounts(times, now - Window(rule), now - Window(rule));
    forall b | b >= now - Window(rule) ensures CountLater(Sort(later), b) == CountLater(times, b) {
      SortCounts(later, b);
      LaterCounts(times, now - Window(rule), b);
    }
  }

  /** The millisecond the policy opens again: allowed from then on, and never before it. */
  lemma OpensAt(times: seq<Time>, now: Time, rule: Rule, at: Time)
    requires now >= 0 && Sensible(rule) && at >= now
    ensures var r := Recent(times, now, rule);
            var cooldownUntil := if |r| > 0 then r[|r| - 1] + Cooldown(rule) else 0;
            var quotaUntil := if |r| >= rule.maxRequests then r[|r| - rule.maxRequests] + Window(rule) else 0;
            Allowed(times, at, rule) <==> Max(cooldownUntil, quotaUntil) <= at
  {
    RecentIs(times, now, rule);
    var r := Recent(times, now, rule);
    if |r| >= rule.maxRequests { KthFromEnd(r, rule.maxRequests, at - Window(rule)); }
    if |r| > 0 {
      assert r[|r| - 1] in r;
      forall t | t in times && r[|r| - 1] + Cooldown(rule) <= at ensures t + Cooldown(rule) <= at {
        if t in r { var i :| 0 <= i < |r| && r[i] == t; }
      }
    }
  }

  /**
   * For any history in any order: no wait exactly when the cooldown has passed and the window has
   * room; otherwise the wait is the least whole number of seconds after which it has.
   */
  lemma WaitIsTight(times: seq<Time>, now: Time, rule: Rule)
    requires now >= 0 && Sensible(rule)
    ensures WaitSeconds(times, now, rule) == 0 <==> Allowed(times, now, rule)
    ensures forall at :: at >= now + 1000 * WaitSeconds(times, now, rule) ==> WaitSeconds(times, at, rule) == 0
    ensures forall k: nat :: k < WaitSeconds(times, now, rule) ==> WaitSeconds(times, now + 1000 * k, rule) > 0
  {
    OpensAt(times, now, rule, now);
    var w := WaitSeconds(times, now, rule);
    forall at | at >= now + 1000 * w ensures WaitSeconds(times, at, rule) == 0 {
      OpensAt(times, now, rule, at);
      OpensAt(times, at, rule, at);
    }
    forall k: nat | k < w ensures WaitSeconds(times, now + 1000 * k, rule) > 0 {
      OpensAt(times, now, rule, now + 1000 * k);
      OpensAt(times, now + 1000 * k, rule, now + 1000 * k);
    }
  }

  /** A cooldown longer than the window is forgotten with the window: the wait then opens too early. */
  lemma LongCooldownsAreForgotten()
    ensures var rule := Rule(1, 2, 10);
            WaitSeconds([0], 500, rule) == 10 && WaitSeconds([0], 1000, rule) == 0
  {
  }
}
