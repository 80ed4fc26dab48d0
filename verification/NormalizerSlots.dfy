/** The image normaliser's slot queue: one job at a time, three waiting, handed over in order. */
module NormalizerSlots {
  import opened Prelude

  const MAX_CONCURRENT := 1
  const MAX_QUEUED := 3

  type Job = nat

  /**
   * `granted` and `released` record who was ever given a slot and who gave it back; the counter and
   * the queue are all the source keeps.
   */
  datatype World = World(active: int, waiting: seq<Job>, arrivals: nat, admitted: seq<Job>, granted: seq<Job>, released: set<Job>)

  const Start := World(0, [], 0, [], [], {})

  datatype Step = Acquire | Release(job: Job)

  function Apply(s: World, step: Step): World {
    match step
    case Acquire =>
      var job := s.arrivals;
      var s1 := s.(arrivals := job + 1);
      if s.active >= MAX_CONCURRENT then
        if |s.waiting| >= MAX_QUEUED then s1
        else s1.(waiting := s.waiting + [job], admitted := s.admitted + [job])
      else s1.(active := s.active + 1, admitted := s.admitted + [job], granted := s.granted + [job])
    case Release(job) =>
      if job !in s.granted || job in s.released then s
      else
        var s1 := s.(released := s.released + {job});
        if s.waiting != [] then s1.(waiting := s.waiting[1..], granted := s.granted + [s.waiting[0]])
        else s1.(active := s.active - 1)
  }

  function Run(s: World, steps: seq<Step>): World
    decreases |steps|
  {
    if steps == [] then s else Run(Apply(s, steps[0]), steps[1..])
  }

  predicate HoldsSlot(s: World, job: Job) {
    job in s.granted && job !in s.released
  }

  predicate Increasing(jobs: seq<Job>, bound: nat) {
    (forall i, j :: 0 <= i < j < |jobs| ==> jobs[i] < jobs[j]) && (forall i :: 0 <= i < |jobs| ==> jobs[i] < bound)
  }

  ghost predicate Inv(s: World) {
    && s.admitted == s.granted + s.waiting
    && Increasing(s.admitted, s.arrivals)
    && |s.waiting| <= MAX_QUEUED
    && (s.waiting != [] ==> s.active == MAX_CONCURRENT)
    && 0 <= s.active <= MAX_CONCURRENT
    && s.active <= |s.granted|
    && (forall job :: job in s.released <==> job in s.granted[..|s.granted| - s.active])
  }

  lemma AcquireKeeps(s: World)
    requires Inv(s)
    ensures Inv(Apply(s, Acquire))
  {
    var n := |s.granted|;
    if s.active == 0 { assert Apply(s, Acquire).granted[..n] == s.granted[..n]; }
  }

  /** Only the latest grant can still be given back. */
  lemma HolderIsLatest(s: World, job: Job)
    requires Inv(s) && HoldsSlot(s, job)
    ensures s.active == 1 && job == s.granted[|s.granted| - 1] && s.granted == s.granted[..|s.granted| - 1] + [job]
  {
  }

  lemma ReleaseKeeps(s: World, job: Job)
    requires Inv(s)
    ensures Inv(Apply(s, Release(job)))
  {
  }

  lemma StepKeeps(s: World, step: Step)
    requires Inv(s)
    ensures Inv(Apply(s, step))
  {
    match step
    case Acquire => AcquireKeeps(s);
    case Release(job) => ReleaseKeeps(s, job);
  }

  lemma {:induction false} RunKeeps(s: World, steps: seq<Step>)
    requires Inv(s)
    ensures Inv(Run(s, steps))
    decreases |steps|
  {
    hide Inv, Apply;
    if steps != [] {
      StepKeeps(s, steps[0]);
      RunKeeps(Apply(s, steps[0]), steps[1..]);
    }
  }

  /**
   * Over any run: at most one job holds the slot and at most three wait; the counter is one exactly
   * when a job holds it, so none is lost; jobs wait only behind a holder; and slots are given to the
   * admitted jobs in the order they were admitted.
   */
  lemma SlotsAreNeverLost(steps: seq<Step>)
    ensures var s := Run(Start, steps);
            && (forall j, k :: HoldsSlot(s, j) && HoldsSlot(s, k) ==> j == k)
            && |s.waiting| <= 3
            && (s.active == 1 <==> exists j :: j in s.granted && HoldsSlot(s, j))
            && (s.active == 0 || s.active == 1)
            && (s.waiting != [] ==> exists j :: j in s.granted && HoldsSlot(s, j))
            && s.admitted == s.granted + s.waiting
            && (forall i, j :: 0 <= i < j < |s.admitted| ==> s.admitted[i] < s.admitted[j])
  {
    RunKeeps(Start, steps);
    var s := Run(Start, steps);
    forall j | HoldsSlot(s, j) ensures s.active == 1 && j == s.granted[|s.granted| - 1] { HolderIsLatest(s, j); }
    if s.active == 1 { LatestHolds(s); }
  }

  lemma LatestHolds(s: World)
    requires Inv(s) && s.active == 1
    ensures HoldsSlot(s, s.granted[|s.granted| - 1]) && s.granted[|s.granted| - 1] in s.granted
  {
    var n := |s.granted|;
    assert forall i :: 0 <= i < n ==> s.admitted[i] == s.granted[i];
  }

  /** Giving a slot back twice is giving it back once, whatever happened in between. */
  lemma RepeatedReleaseIsIdle(s: World, job: Job, steps: seq<Step>)
    requires Inv(s) && HoldsSlot(s, job)
    ensures var t := Run(Apply(s, Release(job)), steps); Apply(t, Release(job)) == t
  {
    ReleasedStays(Apply(s, Release(job)), job, steps);
  }

  lemma {:induction false} ReleasedStays(s: World, job: Job, steps: seq<Step>)
    requires job in s.released
    ensures job in Run(s, steps).released
    decreases |steps|
  {
    if steps != [] { ReleasedStays(Apply(s, steps[0]), job, steps[1..]); }
  }

  lemma {:induction false} DistinctCount(jobs: seq<Job>, members: set<Job>)
    requires Distinct(jobs) && forall job :: job in members <==> job in jobs
    ensures |members| == |jobs|
  {
    if jobs == [] {
      assert members == {};
    } else {
      var last := jobs[|jobs| - 1];
      var front := jobs[..|jobs| - 1];
      assert jobs == front + [last];
      assert last !in front;
      DistinctCount(front, members - {last});
      assert last in members;
    }
  }

  /**
   * Over any run, a job is refused exactly when four admitted before it have not given their slot
   * back; a refusal changes neither the slot nor the queue.
   */
  lemma RefusalMeansFull(steps: seq<Step>)
    ensures var s := Run(Start, steps);
            var t := Apply(s, Acquire);
            && |s.released| <= |s.admitted| <= |s.released| + 4
            && (t.admitted == s.admitted <==> |s.admitted| == |s.released| + 4)
            && (t.admitted == s.admitted ==> t == s.(arrivals := s.arrivals + 1))
  {
    RunKeeps(Start, steps);
    var s := Run(Start, steps);
    var done := s.granted[..|s.granted| - s.active];
    forall i, j | 0 <= i < j < |done| ensures done[i] != done[j] { assert done[i] == s.admitted[i] && done[j] == s.admitted[j]; }
    DistinctCount(done, s.released);
  }

  // ---- acquireSlot and its release closure -------------------------------------------------------------------

  class ImageNormalizer {
    var activeNormalizations: int
    var waitingNormalizations: seq<Job>
    var arrivals: nat
    var released: set<Job>
    ghost var admitted: seq<Job>
    ghost var granted: seq<Job>

    ghost function State(): World
      reads this
    {
      World(activeNormalizations, waitingNormalizations, arrivals, admitted, granted, released)
    }

    constructor ()
      ensures State() == Start
    {
      activeNormalizations, waitingNormalizations, arrivals, released := 0, [], 0, {};
      admitted, granted := [], [];
    }

    /** `Ok(true)` has the slot at once, `Ok(false)` will be resumed by a release, `Err` is refused. */
    method AcquireSlot() returns (job: Job, r: Result<bool, ()>)
      modifies this
      ensures State() == Apply(old(State()), Acquire) && job == old(arrivals)
      ensures r.Ok? <==> admitted == old(admitted) + [job]
      ensures r == Ok(true) <==> granted == old(granted) + [job]
    {
      job := arrivals;
      arrivals := arrivals + 1;
      if activeNormalizations >= MAX_CONCURRENT {
        if |waitingNormalizations| >= MAX_QUEUED { return job, Err(()); }
        waitingNormalizations := waitingNormalizations + [job];
        admitted := admitted + [job];
        return job, Ok(false);
      }
      activeNormalizations := activeNormalizations + 1;
      admitted, granted := admitted + [job], granted + [job];
      return job, Ok(true);
    }

    /** The closure a slot's holder calls; `next` is the waiter it resumes. */
    method ReleaseSlot(job: Job) returns (next: Option<Job>)
      requires job in granted
      modifies this
      ensures State() == Apply(old(State()), Release(job))
      ensures next.Some? ==> granted == old(granted) + [next.value]
      ensures next.None? ==> granted == old(granted)
    {
      if job in released { return None; }
      released := released + {job};
      if |waitingNormalizations| > 0 {
        next := Some(waitingNormalizations[0]);
        waitingNormalizations := waitingNormalizations[1..];
        granted := granted + [next.value];
      } else {
        activeNormalizations := activeNormalizations - 1;
        next := None;
      }
    }
  }
}
