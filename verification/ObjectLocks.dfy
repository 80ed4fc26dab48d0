/**
 * The promise-chain lock of the local storage adapter: each caller waits for the promise it found in
 * the map and leaves its own there for the next.
 */
module ObjectLocks {
  import opened Prelude

  type Ticket = nat

  datatype Phase = Waiting | Holding | Released

  /** A caller's promise: the one it waits for, and whether its own has been resolved. */
  datatype Caller = Caller(key: string, previous: Option<Ticket>, phase: Phase)

  /** Callers in order of arrival, a ticket being its caller's place, and the map of latest promises. */
  datatype World = World(callers: seq<Caller>, locks: map<string, Ticket>, entered: seq<Ticket>)

  const Start := World([], map[], [])

  datatype Step = Arrive(key: string) | Enter(ticket: Ticket) | Finish(ticket: Ticket)

  /** The promise a caller waits for has been resolved, or there was none. */
  predicate MayEnter(s: World, t: Ticket) {
    && t < |s.callers| && s.callers[t].phase.Waiting?
    && (s.callers[t].previous.Some? ==>
          s.callers[t].previous.value < |s.callers| && s.callers[s.callers[t].previous.value].phase.Released?)
  }

  predicate Holds(s: World, t: Ticket) {
    t < |s.callers| && s.callers[t].phase.Holding?
  }

  function Apply(s: World, step: Step): World {
    match step
    case Arrive(key) =>
      var previous := if key in s.locks then Some(s.locks[key]) else None;
      s.(callers := s.callers + [Caller(key, previous, Waiting)], locks := s.locks[key := |s.callers|])
    case Enter(t) =>
      if MayEnter(s, t) then s.(callers := s.callers[t := s.callers[t].(phase := Holding)], entered := s.entered + [t]) else s
    case Finish(t) =>
      if Holds(s, t) then
        var key := s.callers[t].key;
        s.(callers := s.callers[t := s.callers[t].(phase := Released)],
           locks := if key in s.locks && s.locks[key] == t then s.locks - {key} else s.locks)
      else s
  }

  function Run(s: World, steps: seq<Step>): World
    decreases |steps|
  {
    if steps == [] then s else Run(Apply(s, steps[0]), steps[1..])
  }

  // ---- Invariant --------------------------------------------------------------------------------------

  predicate Open(s: World, t: Ticket) {
    t < |s.callers| && !s.callers[t].phase.Released?
  }

  predicate SameKey(s: World, t: Ticket, u: Ticket) {
    t < |s.callers| && u < |s.callers| && s.callers[t].key == s.callers[u].key
  }

  /** A caller waits for the one just before it on its key, unless everyone before it had finished. */
  ghost predicate Follows(s: World, t: Ticket) {
    t < |s.callers| ==>
      match s.callers[t].previous
      case Some(p) => p < t && SameKey(s, p, t) && forall u: Ticket :: p < u < t ==> !SameKey(s, u, t)
      case None => forall u: Ticket :: u < t && SameKey(s, u, t) ==> !Open(s, u)
  }

  /** Whoever has entered came after everyone earlier on its key had finished. */
  ghost predicate EnteredInTurn(s: World, t: Ticket) {
    t < |s.callers| && !s.callers[t].phase.Waiting? ==> forall u: Ticket :: u < t && SameKey(s, u, t) ==> !Open(s, u)
  }

  /** The map names the last caller on a key, and only while it has not finished. */
  predicate Listed(s: World, key: string) {
    key in s.locks ==> Open(s, s.locks[key]) && s.callers[s.locks[key]].key == key
                       && forall u: Ticket :: s.locks[key] < u < |s.callers| ==> s.callers[u].key != key
  }

  ghost predicate Inv(s: World) {
    && (forall t: Ticket :: Follows(s, t) && EnteredInTurn(s, t))
    && (forall key :: Listed(s, key))
    && (forall t: Ticket :: Open(s, t) ==> s.callers[t].key in s.locks)
    && (forall t: Ticket :: t in s.entered <==> t < |s.callers| && !s.callers[t].phase.Waiting?)
  }

  lemma ArriveKeeps(s: World, key: string)
    requires Inv(s)
    ensures Inv(Apply(s, Arrive(key)))
  {
    var t := Apply(s, Arrive(key));
    forall x: Ticket ensures Follows(t, x) && EnteredInTurn(t, x) {
      assert Follows(s, x) && EnteredInTurn(s, x) && Listed(s, key);
      assert forall u: Ticket :: u < |s.callers| ==> (Open(t, u) <==> Open(s, u));
      assert forall u: Ticket, v: Ticket :: u < |s.callers| && v < |s.callers| ==> (SameKey(t, u, v) <==> SameKey(s, u, v));
    }
    forall k ensures Listed(t, k) { assert Listed(s, k); }
    forall x: Ticket | Open(t, x) ensures t.callers[x].key in t.locks { assert x < |s.callers| ==> Open(s, x); }
  }

  lemma EnterKeeps(s: World, t: Ticket)
    requires Inv(s) && MayEnter(s, t)
    ensures Inv(Apply(s, Enter(t)))
  {
    var w := Apply(s, Enter(t));
    assert forall u: Ticket :: Open(w, u) <==> Open(s, u);
    assert forall u: Ticket, v: Ticket :: SameKey(w, u, v) <==> SameKey(s, u, v);
    forall x: Ticket ensures Follows(w, x) && EnteredInTurn(w, x) {
      assert Follows(s, x) && EnteredInTurn(s, x);
      if x == t && s.callers[t].previous.Some? { assert EnteredInTurn(s, s.callers[t].previous.value); }
    }
    forall k ensures Listed(w, k) { assert Listed(s, k); }
  }

  lemma FinishKeeps(s: World, t: Ticket)
    requires Inv(s) && Holds(s, t)
    ensures Inv(Apply(s, Finish(t)))
  {
    var w := Apply(s, Finish(t));
    var key := s.callers[t].key;
    assert EnteredInTurn(s, t) && Listed(s, key);
    assert forall u: Ticket :: Open(w, u) ==> Open(s, u) && u != t;
    assert forall u: Ticket, v: Ticket :: SameKey(w, u, v) <==> SameKey(s, u, v);
    forall x: Ticket ensures Follows(w, x) && EnteredInTurn(w, x) { assert Follows(s, x) && EnteredInTurn(s, x); }
    forall k ensures Listed(w, k) { assert Listed(s, k); }
    forall x: Ticket | Open(w, x) ensures w.callers[x].key in w.locks {
      if w.callers[x].key == key && s.locks[key] == t {
        assert x < t ==> SameKey(s, x, t);
      }
    }
  }

  lemma {:induction false} RunKeeps(s: World, steps: seq<Step>)
    requires Inv(s)
    ensures Inv(Run(s, steps))
    decreases |steps|
  {
    if steps != [] {
      match steps[0] {
        case Arrive(key) => ArriveKeeps(s, key);
        case Enter(t) => if MayEnter(s, t) { EnterKeeps(s, t); }
        case Finish(t) => if Holds(s, t) { FinishKeeps(s, t); }
      }
      RunKeeps(Apply(s, steps[0]), steps[1..]);
    }
  }

  // ---- What callers can rely on --------------------------------------------------------------------------

  /**
   * For any number of callers: two never hold the same key at once, nobody enters before an earlier
   * caller of its key has finished, and the map has an entry for a key exactly while one has not.
   */
  lemma LocksExcludeInOrder(steps: seq<Step>, key: string)
    ensures var s := Run(Start, steps);
            && (forall t: Ticket, u: Ticket :: Holds(s, t) && Holds(s, u) && SameKey(s, t, u) ==> t == u)
            && (forall t: Ticket, u: Ticket :: u < t && SameKey(s, u, t) && Open(s, u) ==> s.callers[t].phase.Waiting?)
            && (key in s.locks <==> exists t: Ticket :: t < |s.callers| && Open(s, t) && s.callers[t].key == key)
  {
    RunKeeps(Start, steps);
    var s := Run(Start, steps);
    forall t: Ticket, u: Ticket | Holds(s, t) && Holds(s, u) && SameKey(s, t, u) ensures t == u {
      assert EnteredInTurn(s, t) && EnteredInTurn(s, u);
      assert t < u ==> SameKey(s, t, u) && Open(s, t);
      assert u < t ==> SameKey(s, u, t) && Open(s, u);
    }
    forall t: Ticket, u: Ticket | u < t && SameKey(s, u, t) && Open(s, u) ensures s.callers[t].phase.Waiting? { assert EnteredInTurn(s, t); }
    assert Listed(s, key);
  }

  predicate InArrivalOrder(s: World, entered: seq<Ticket>) {
    forall i, j :: 0 <= i < j < |entered| && SameKey(s, entered[i], entered[j]) ==> entered[i] < entered[j]
  }

  lemma {:induction false} EntriesStayInOrder(s: World, steps: seq<Step>)
    requires Inv(s) && InArrivalOrder(s, s.entered)
    ensures InArrivalOrder(Run(s, steps), Run(s, steps).entered)
    decreases |steps|
  {
    if steps != [] {
      var t := Apply(s, steps[0]);
      RunKeeps(s, [steps[0]]);
      assert Run(s, [steps[0]]) == Run(t, []);
      assert InArrivalOrder(t, t.entered) by { OneMoreInOrder(s, steps[0]); }
      EntriesStayInOrder(t, steps[1..]);
    }
  }

  lemma OneMoreInOrder(s: World, step: Step)
    requires Inv(s) && InArrivalOrder(s, s.entered)
    ensures InArrivalOrder(Apply(s, step), Apply(s, step).entered)
  {
    var t := Apply(s, step);
    forall i, j | 0 <= i < j < |t.entered| && SameKey(t, t.entered[i], t.entered[j]) ensures t.entered[i] < t.entered[j] {
      assert t.entered[i] in s.entered;
      if j < |s.entered| {
        assert t.entered[j] in s.entered && SameKey(s, t.entered[i], t.entered[j]);
      } else {
        var x, y := t.entered[i], t.entered[j];
        assert SameKey(s, y, x) && Open(s, y);
        assert EnteredInTurn(s, x);
      }
    }
  }

  /** Callers of one key hold it in the order they arrived. */
  lemma LocksAreFair(steps: seq<Step>)
    ensures InArrivalOrder(Run(Start, steps), Run(Start, steps).entered)
  {
    EntriesStayInOrder(Start, steps);
  }

  /** Nobody waits for ever on a key no one holds: the earliest caller still there can go in. */
  lemma {:induction false} FirstCallerMayEnter(s: World, t: Ticket) returns (first: Ticket)
    requires Inv(s) && Open(s, t)
    ensures SameKey(s, first, t) && (Holds(s, first) || MayEnter(s, first))
  {
    if u: Ticket :| u < t && SameKey(s, u, t) && Open(s, u) {
      first := FirstCallerMayEnter(s, u);
    } else {
      first := t;
      assert Follows(s, t);
    }
  }

  // ---- withObjectLock --------------------------------------------------------------------------------------

  lemma NewcomerWaits(s: World, t: Ticket)
    requires Inv(s) && t < |s.callers| && s.callers[t].phase.Waiting?
    ensures MayEnter(s, t) <==> forall u: Ticket :: u < t && SameKey(s, u, t) ==> !Open(s, u)
  {
    assert Follows(s, t);
    match s.callers[t].previous
    case Some(p) =>
      if MayEnter(s, t) {
        assert EnteredInTurn(s, p);
        forall u: Ticket | u < t && SameKey(s, u, t) ensures !Open(s, u) { assert u < p ==> SameKey(s, u, p); }
      }
    case None =>
  }

  /** Once the holder is done, the earliest caller left on its key can go in. */
  lemma NextMayEnter(s: World, t: Ticket)
    requires Inv(s) && Holds(s, t) && Inv(Apply(s, Finish(t)))
    ensures var w := Apply(s, Finish(t));
            forall u: Ticket :: Open(w, u) && SameKey(w, u, t) && (forall v: Ticket :: v < u && SameKey(w, v, u) ==> !Open(w, v))
                                ==> MayEnter(w, u)
  {
    var w := Apply(s, Finish(t));
    forall u: Ticket | Open(w, u) && SameKey(w, u, t) && (forall v: Ticket :: v < u && SameKey(w, v, u) ==> !Open(w, v)) ensures MayEnter(w, u) {
      assert EnteredInTurn(s, u) && EnteredInTurn(s, t);
      assert SameKey(s, u, t) && Open(s, u) && SameKey(s, t, u) && Open(s, t);
      NewcomerWaits(w, u);
    }
  }

  class Locks {
    var callers: seq<Caller>
    var locks: map<string, Ticket>
    ghost var entered: seq<Ticket>

    ghost function State(): World
      reads this
    {
      World(callers, locks, entered)
    }

    constructor ()
      ensures State() == Start
    {
      callers, locks, entered := [], map[], [];
    }

    /** Up to the first suspension: take the promise in the map and leave one's own. */
    method Request(key: string) returns (current: Ticket)
      modifies this
      ensures State() == Apply(old(State()), Arrive(key)) && current == |old(callers)|
      ensures Inv(old(State())) ==>
                Inv(State()) && (MayEnter(State(), current) <==> forall u: Ticket :: u < current && SameKey(State(), u, current) ==> !Open(State(), u))
    {
      if Inv(State()) { ArriveKeeps(State(), key); NewcomerWaits(Apply(State(), Arrive(key)), |callers|); }
      var previous := if key in locks then Some(locks[key]) else None;
      current := |callers|;
      callers := callers + [Caller(key, previous, Waiting)];
      locks := locks[key := current];
    }

    /** The wait is over once the previous promise is resolved; the operation then begins. */
    method Resume(current: Ticket) returns (running: bool)
      modifies this
      ensures State() == Apply(old(State()), Enter(current)) && (running <==> MayEnter(old(State()), current))
    {
      if current >= |callers| || callers[current].phase != Waiting { return false; }
      var previous := callers[current].previous;
      if previous.Some? && (previous.value >= |callers| || callers[previous.value].phase != Released) { return false; }
      callers := callers[current := callers[current].(phase := Holding)];
      entered := entered + [current];
      return true;
    }

    /** The `finally` block: resolve one's promise, and clear the map if no one came after. */
    method Finish(current: Ticket)
      requires Holds(State(), current)
      modifies this
      ensures State() == Apply(old(State()), Step.Finish(current)) && !Open(State(), current)
      ensures Inv(old(State())) ==> Inv(State())
      ensures Inv(old(State())) ==>
                forall u: Ticket :: Open(State(), u) && SameKey(State(), u, current)
                                    && (forall v: Ticket :: v < u && SameKey(State(), v, u) ==> !Open(State(), v))
                                    ==> MayEnter(State(), u)
    {
      if Inv(State()) { FinishKeeps(State(), current); NextMayEnter(State(), current); }
      var key := callers[current].key;
      callers := callers[current := callers[current].(phase := Released)];
      if key in locks && locks[key] == current { locks := locks - {key}; }
    }
  }
}
