/**
 * The history of due-date extensions of every loan. A desk extension and a withdrawal write without
 * looking again at what they read, so the history holds exactly as long as no such write is stale.
 */
module LoanExtensions {
  import opened Prelude
  import opened LoanState
  import opened LoanTransactions
  import opened LoanProtocol
  import opened LoanSafety

  predicate GrantedFor(s: World, e: ExtensionId, l: LoanId) {
    e in s.extensions && s.extensions[e].loan == l && s.extensions[e].status.Granted?
  }

  predicate PendingFor(s: World, e: ExtensionId, l: LoanId) {
    e in s.extensions && s.extensions[e].loan == l && s.extensions[e].status.AwaitingReview?
  }

  /** A request runs to a later date, belongs to a loan handed over, and carries the next round while it waits. */
  predicate RequestOk(s: World, e: ExtensionId) {
    e in s.extensions ==>
      var x := s.extensions[e];
      && x.loan in s.loans && x.from < x.to && Stage(s.loans[x.loan].status) >= 2
      && (x.status.AwaitingReview? ==> x.round == s.loans[x.loan].extensionCount + 1 && x.from == Benchmark(s.loans[x.loan]))
      && (x.status.Granted? ==> 1 <= x.round <= s.loans[x.loan].extensionCount)
      && (x.status.Granted? && x.round == s.loans[x.loan].extensionCount ==> s.loans[x.loan].due == Some(x.to))
  }

  /** Two requests of one loan do not both wait, never share a round, and follow on from each other. */
  predicate PairOk(s: World, e: ExtensionId, f: ExtensionId) {
    && (e in s.extensions && PendingFor(s, e, s.extensions[e].loan) && PendingFor(s, f, s.extensions[e].loan) ==> e == f)
    && (e in s.extensions && GrantedFor(s, e, s.extensions[e].loan) && GrantedFor(s, f, s.extensions[e].loan) ==>
          && (s.extensions[e].round == s.extensions[f].round ==> e == f)
          && (s.extensions[e].round + 1 == s.extensions[f].round ==> s.extensions[f].from == s.extensions[e].to))
  }

  predicate RoundGranted(s: World, l: LoanId, n: nat) {
    exists e :: e in s.extensions && GrantedFor(s, e, l) && s.extensions[e].round == n
  }

  /** What a request under way has prepared was right when it read the loan. */
  predicate DraftOk(s: World, tx: TxId) {
    tx in s.pending && s.pending[tx].Extending? ==>
      var x := s.pending[tx].row;
      && x.loan in s.loans && x.from < x.to && Stage(s.loans[x.loan].status) >= 2
      && x.status == (if x.desk then Granted else AwaitingReview)
      && 1 <= x.round <= s.loans[x.loan].extensionCount + 1
      && (x.round == s.loans[x.loan].extensionCount + 1 ==> x.from == Benchmark(s.loans[x.loan]))
  }

  ghost predicate HistoryOk(s: World) {
    && (forall e :: RequestOk(s, e))
    && (forall e, f :: PairOk(s, e, f))
    && (forall l, n: nat :: l in s.loans && 1 <= n <= s.loans[l].extensionCount ==> RoundGranted(s, l, n))
    && (forall tx :: DraftOk(s, tx))
  }

  /**
   * What a caller could look up before the commit: the loan has been extended since the request read
   * it, or another request waits by now; or the request being withdrawn has been granted.
   */
  predicate Stale(s: World, step: Step) {
    step.Finish? && Attempt(s, step).Ok? && StaleWrite(s, s.pending[step.tx])
  }

  predicate StaleWrite(s: World, x: Open) {
    match x
    case LostEdit(_, _, _, _, _) => false
    case Extending(e, row) =>
      e !in s.extensions && row.loan in s.loans
      && (row.round != s.loans[row.loan].extensionCount + 1 || HasPendingExtension(s, row.loan))
    case Withdrawing(e) => e in s.extensions && s.extensions[e].status.Granted?
  }

  predicate FreshRun(s: World, steps: seq<Step>)
    decreases |steps|
  {
    steps == [] || (!Stale(s, steps[0]) && FreshRun(Apply(s, steps[0]), steps[1..]))
  }

  /** Loans that keep their dates and counts, and never go back before hand-over, keep their history. */
  lemma LoansAloneKeep(s: World, t: World)
    requires HistoryOk(s) && t.extensions == s.extensions
    requires forall l :: l in s.loans ==> l in t.loans && LoanEvolves(s.loans[l], t.loans[l])
                                          && t.loans[l].extensionCount == s.loans[l].extensionCount && t.loans[l].due == s.loans[l].due
                                          && (Stage(s.loans[l].status) >= 2 ==> t.loans[l].handover == s.loans[l].handover)
    requires forall l :: l in t.loans && l !in s.loans ==> t.loans[l].extensionCount == 0
    requires forall tx :: tx in t.pending && t.pending[tx].Extending? ==> (tx in s.pending && s.pending[tx] == t.pending[tx]) || DraftOk(t, tx)
    ensures HistoryOk(t)
  {
    forall e ensures RequestOk(t, e) { assert RequestOk(s, e); }
    forall e, f ensures PairOk(t, e, f) { assert PairOk(s, e, f); }
    forall l, n: nat | l in t.loans && 1 <= n <= t.loans[l].extensionCount ensures RoundGranted(t, l, n) {
      assert RoundGranted(s, l, n);
    }
    forall tx ensures DraftOk(t, tx) { assert DraftOk(s, tx); }
  }

  /** Neither starts, reviews nor ends an extension. */
  predicate LeavesDates(s: World, step: Step) {
    !step.Review? && !step.StartExtension? && (step.Finish? && step.tx in s.pending ==> s.pending[step.tx].LostEdit?)
  }

  lemma LoanStepKeepsHistory(s: World, step: Step)
    requires HistoryOk(s) && LeavesDates(s, step)
    ensures HistoryOk(Apply(s, step))
  {
    hide HistoryOk, Apply;
    forall l | l in s.loans
      ensures var t := Apply(s, step);
              && l in t.loans && LoanEvolves(s.loans[l], t.loans[l])
              && t.loans[l].extensionCount == s.loans[l].extensionCount && t.loans[l].due == s.loans[l].due
              && (Stage(s.loans[l].status) >= 2 ==> t.loans[l].handover == s.loans[l].handover)
    {
      LoanStepEvolves(s, step, l);
      DatesAreKept(s, step, l);
    }
    NoExtensionsTouched(s, step);
    hide LeavesDates;
    LoansAloneKeep(s, Apply(s, step));
  }

  lemma DatesAreKept(s: World, step: Step, l: LoanId)
    requires l in s.loans && LeavesDates(s, step)
    ensures l in Apply(s, step).loans
    ensures var x, y := s.loans[l], Apply(s, step).loans[l];
            y.extensionCount == x.extensionCount && y.due == x.due && (Stage(x.status) >= 2 ==> y.handover == x.handover)
  {
    if step.Edit? || step.Finish? {
      EditOrFinishApplied(s, step);
      hide Apply, Cascade, EditRefused;
    } else {
      hide Waits, EditRefused, NeedsCascade, Cascade;
    }
  }

  lemma NoExtensionsTouched(s: World, step: Step)
    requires LeavesDates(s, step)
    ensures var t := Apply(s, step);
            && t.extensions == s.extensions
            && (forall l :: l in t.loans && l !in s.loans ==> t.loans[l].extensionCount == 0)
            && (forall tx :: tx in t.pending && t.pending[tx].Extending? ==> tx in s.pending && s.pending[tx] == t.pending[tx])
  {
    if step.Edit? || step.Finish? {
      EditOrFinishApplied(s, step);
      hide Apply, Cascade, EditRefused;
    } else {
      hide Waits, EditRefused, NeedsCascade, Cascade;
    }
  }

  /** A request that has read the loan and not yet written. */
  lemma DraftKeeps(s: World, step: Step)
    requires HistoryOk(s) && step.StartExtension?
    ensures HistoryOk(Apply(s, step))
  {
    hide Waits;
    var t := Apply(s, step);
    assert t == s || (t == s.(pending := t.pending) && DraftOk(t, step.tx)
                      && forall tx :: tx in t.pending && tx != step.tx ==> tx in s.pending && s.pending[tx] == t.pending[tx]);
    hide Apply, HistoryOk;
    LoansAloneKeep(s, t);
  }

  /** A transaction that leaves nothing but its own end. */
  lemma EndKeeps(s: World, tx: TxId)
    requires HistoryOk(s)
    ensures HistoryOk(s.(pending := s.pending - {tx}))
  {
    LoansAloneKeep(s, s.(pending := s.pending - {tx}));
  }

  /** A new request that waits takes the next round; nothing granted changes. */
  lemma RequestKeeps(s: World, e: ExtensionId, x: Extension)
    requires HistoryOk(s) && e !in s.extensions && x.loan in s.loans && !HasPendingExtension(s, x.loan)
    requires Stage(s.loans[x.loan].status) >= 2 && x.from < x.to
    requires x.status.AwaitingReview? && x.round == s.loans[x.loan].extensionCount + 1 && x.from == Benchmark(s.loans[x.loan])
    ensures HistoryOk(s.(extensions := s.extensions[e := x]))
  {
    var t := s.(extensions := s.extensions[e := x]);
    forall f ensures RequestOk(t, f) { assert RequestOk(s, f); }
    forall f, g ensures PairOk(t, f, g) { assert PairOk(s, f, g); }
    forall l, n: nat | l in t.loans && 1 <= n <= t.loans[l].extensionCount ensures RoundGranted(t, l, n) {
      assert RoundGranted(s, l, n);
      var f :| f in s.extensions && GrantedFor(s, f, l) && s.extensions[f].round == n;
      assert GrantedFor(t, f, l);
    }
    forall tx ensures DraftOk(t, tx) { assert DraftOk(s, tx); }
  }

  /** Granting the next round, at the desk or by review, extends the chain by one. */
  lemma GrantKeeps(s: World, e: ExtensionId, x: Extension)
    requires HistoryOk(s) && x.loan in s.loans && Stage(s.loans[x.loan].status) >= 2
    requires if e in s.extensions then PendingFor(s, e, x.loan) else !HasPendingExtension(s, x.loan)
    requires x.status.Granted? && x.round == s.loans[x.loan].extensionCount + 1 && x.from == Benchmark(s.loans[x.loan]) && x.from < x.to
    ensures HistoryOk(s.(extensions := s.extensions[e := x],
                         loans := s.loans[x.loan := s.loans[x.loan].(due := Some(x.to), extensionCount := x.round)]))
  {
    var t := s.(extensions := s.extensions[e := x],
                loans := s.loans[x.loan := s.loans[x.loan].(due := Some(x.to), extensionCount := x.round)]);
    forall f ensures RequestOk(t, f) {
      assert RequestOk(s, f) && PairOk(s, e, f);
      assert PendingFor(s, f, x.loan) ==> HasPendingExtension(s, x.loan);
    }
    forall f, g ensures PairOk(t, f, g) {
      assert PairOk(s, f, g) && RequestOk(s, f) && RequestOk(s, g);
    }
    forall l, n: nat | l in t.loans && 1 <= n <= t.loans[l].extensionCount ensures RoundGranted(t, l, n) {
      if l == x.loan && n == x.round {
        assert GrantedFor(t, e, l);
      } else {
        assert RoundGranted(s, l, n);
        var f :| f in s.extensions && GrantedFor(s, f, l) && s.extensions[f].round == n;
        assert f != e && GrantedFor(t, f, l);
      }
    }
    forall tx ensures DraftOk(t, tx) { assert DraftOk(s, tx); }
  }

  /** Turning a waiting request down leaves the granted ones alone. */
  lemma RefusalKeeps(s: World, e: ExtensionId, status: ExtensionStatus)
    requires HistoryOk(s) && e in s.extensions && !s.extensions[e].status.Granted?
    requires status.Declined? || status.Withdrawn?
    ensures HistoryOk(s.(extensions := s.extensions[e := s.extensions[e].(status := status)]))
  {
    var t := s.(extensions := s.extensions[e := s.extensions[e].(status := status)]);
    forall f ensures RequestOk(t, f) { assert RequestOk(s, f); }
    forall f, g ensures PairOk(t, f, g) { assert PairOk(s, f, g); }
    forall l, n: nat | l in t.loans && 1 <= n <= t.loans[l].extensionCount ensures RoundGranted(t, l, n) {
      assert RoundGranted(s, l, n);
      var f :| f in s.extensions && GrantedFor(s, f, l) && s.extensions[f].round == n;
      assert f != e && GrantedFor(t, f, l);
    }
    forall tx ensures DraftOk(t, tx) { assert DraftOk(s, tx); }
  }

  // ---- Exactly the stale commits break it ------------------------------------------------------------

  lemma ExtensionKeepsExactly(s: World, e: ExtensionId, x: Extension)
    requires HistoryOk(s) && e !in s.extensions && x.loan in s.loans && x.from < x.to && Stage(s.loans[x.loan].status) >= 2
    requires x.status == (if x.desk then Granted else AwaitingReview) && 1 <= x.round <= s.loans[x.loan].extensionCount + 1
    requires x.round == s.loans[x.loan].extensionCount + 1 ==> x.from == Benchmark(s.loans[x.loan])
    ensures HistoryOk(CommitExtension(s, e, x)) <==>
              x.round == s.loans[x.loan].extensionCount + 1 && !HasPendingExtension(s, x.loan)
  {
    var t := CommitExtension(s, e, x);
    if x.round == s.loans[x.loan].extensionCount + 1 && !HasPendingExtension(s, x.loan) {
      hide HistoryOk;
      if x.desk { GrantKeeps(s, e, x); } else { RequestKeeps(s, e, x); }
    } else if x.round <= s.loans[x.loan].extensionCount {
      assert RoundGranted(s, x.loan, x.round);
      var f :| f in s.extensions && GrantedFor(s, f, x.loan) && s.extensions[f].round == x.round;
      assert !RequestOk(t, e) || !PairOk(t, e, f);
    } else {
      var f :| f in s.extensions && s.extensions[f].loan == x.loan && s.extensions[f].status.AwaitingReview?;
      assert RequestOk(s, f);
      assert !RequestOk(t, f) || !PairOk(t, e, f);
    }
  }

  lemma WithdrawalKeepsExactly(s: World, e: ExtensionId)
    requires HistoryOk(s) && e in s.extensions
    ensures HistoryOk(CommitWithdrawal(s, e)) <==> !s.extensions[e].status.Granted?
  {
    var t := CommitWithdrawal(s, e);
    if !s.extensions[e].status.Granted? {
      RefusalKeeps(s, e, Withdrawn);
    } else {
      var x := s.extensions[e];
      assert RequestOk(s, e);
      forall f | f in t.extensions && GrantedFor(t, f, x.loan) ensures t.extensions[f].round != x.round { assert PairOk(s, e, f); }
      assert !RoundGranted(t, x.loan, x.round);
    }
  }

  lemma FinishKeepsHistoryExactly(s: World, step: Step)
    requires HistoryOk(s) && step.Finish? && Attempt(s, step).Ok? && !s.pending[step.tx].LostEdit?
    ensures HistoryOk(Apply(s, step)) <==> !Stale(s, step)
  {
    hide Waits;
    var rest := s.(pending := s.pending - {step.tx});
    EndKeeps(s, step.tx);
    assert DraftOk(s, step.tx);
    hide HistoryOk;
    match s.pending[step.tx]
    case Extending(e, x) => if e !in rest.extensions { ExtensionKeepsExactly(rest, e, x); }
    case Withdrawing(e) => if e in rest.extensions { WithdrawalKeepsExactly(rest, e); }
  }

  /** A step breaks the history of extensions exactly when it is a stale commit. */
  lemma StepKeepsHistory(s: World, step: Step)
    requires HistoryOk(s)
    ensures HistoryOk(Apply(s, step)) <==> !Stale(s, step)
  {
    if LeavesDates(s, step) {
      LoanStepKeepsHistory(s, step);
    } else if step.StartExtension? {
      DraftKeeps(s, step);
    } else if step.Finish? {
      hide HistoryOk, Waits;
      if Attempt(s, step).Ok? { FinishKeepsHistoryExactly(s, step); }
    } else {
      ReviewKeepsHistory(s, step);
    }
  }

  lemma ReviewKeepsHistory(s: World, step: Step)
    requires HistoryOk(s) && step.Review?
    ensures HistoryOk(Apply(s, step))
  {
    hide Waits;
    assert RequestOk(s, step.extension);
    if Apply(s, step) != s {
      hide HistoryOk;
      if step.approve {
        GrantKeeps(s, step.extension, s.extensions[step.extension].(status := Granted));
      } else {
        RefusalKeeps(s, step.extension, Declined);
      }
    }
  }

  lemma {:induction false} FreshRunsKeepHistory(s: World, steps: seq<Step>)
    requires HistoryOk(s) && FreshRun(s, steps)
    ensures HistoryOk(Run(s, steps))
    decreases |steps|
  {
    hide HistoryOk, Apply, Stale;
    if steps != [] {
      StepKeepsHistory(s, steps[0]);
      FreshRunsKeepHistory(Apply(s, steps[0]), steps[1..]);
    }
  }

  /** A request or withdrawal that commits right after its read is never stale. */
  lemma CommitsAtOnceAreFresh(s: World, step: Step)
    requires HistoryOk(s) && (step.StartExtension? || step.StartWithdrawal?) && Attempt(s, step).Ok?
    ensures !Stale(Apply(s, step), Finish(step.tx))
  {
    hide Waits;
  }

  // ---- What the history says --------------------------------------------------------------------------

  function GrantedSet(s: World, l: LoanId): set<ExtensionId> {
    set e | e in s.extensions && GrantedFor(s, e, l)
  }

  lemma OnePerRound(s: World, l: LoanId, es: set<ExtensionId>, n: nat)
    requires HistoryOk(s)
    requires forall e :: e in es <==> GrantedFor(s, e, l) && s.extensions[e].round <= n
    requires l in s.loans && n <= s.loans[l].extensionCount
    ensures |es| == n
  {
    if n == 0 {
      forall e ensures e !in es { assert RequestOk(s, e); }
      assert es == {};
    } else {
      assert RoundGranted(s, l, n);
      var last :| last in s.extensions && GrantedFor(s, last, l) && s.extensions[last].round == n;
      forall e | e in es && e != last ensures s.extensions[e].round <= n - 1 { assert PairOk(s, e, last); }
      OnePerRound(s, l, es - {last}, n - 1);
    }
  }

  lemma {:induction false} LaterRoundsEndLater(s: World, l: LoanId, e: ExtensionId, f: ExtensionId)
    requires HistoryOk(s) && GrantedFor(s, e, l) && GrantedFor(s, f, l) && s.extensions[e].round < s.extensions[f].round
    ensures s.extensions[e].to <= s.extensions[f].from < s.extensions[f].to
    decreases s.extensions[f].round
  {
    assert RequestOk(s, e) && RequestOk(s, f) && PairOk(s, e, f);
    var n := s.extensions[f].round - 1;
    if s.extensions[e].round < n {
      assert RoundGranted(s, l, n);
      var g :| g in s.extensions && GrantedFor(s, g, l) && s.extensions[g].round == n;
      LaterRoundsEndLater(s, l, e, g);
      assert PairOk(s, g, f);
    }
  }

  /** The whole of one loan's history, as a reader of its record would check it. */
  ghost predicate Telescopes(s: World, l: LoanId)
    requires l in s.loans
  {
    var count := s.loans[l].extensionCount;
    && |GrantedSet(s, l)| == count
    && (forall n: nat :: RoundGranted(s, l, n) <==> 1 <= n <= count)
    && (forall e, f :: PendingFor(s, e, l) && PendingFor(s, f, l) ==> e == f)
    && (forall e, f :: GrantedFor(s, e, l) && GrantedFor(s, f, l) ==>
          && (s.extensions[e].round == s.extensions[f].round ==> e == f)
          && (s.extensions[e].round + 1 == s.extensions[f].round ==> s.extensions[f].from == s.extensions[e].to)
          && (s.extensions[e].round < s.extensions[f].round ==> s.extensions[e].to <= s.extensions[f].from))
    && (forall e :: GrantedFor(s, e, l) ==>
          s.extensions[e].from < s.extensions[e].to
          && (s.extensions[e].round == count ==> s.loans[l].due == Some(s.extensions[e].to)))
  }

  /**
   * For every loan after every run without a stale commit: its extension count is the number of granted extensions,
   * their rounds are exactly 1 to that count, at most one request waits, each granted one starts
   * where the one before it ended and ends later, and the loan is due when the last one says.
   */
  lemma ExtensionsTelescope(steps: seq<Step>, l: LoanId)
    requires FreshRun(Empty, steps) && l in Run(Empty, steps).loans
    ensures Telescopes(Run(Empty, steps), l)
  {
    FreshRunsKeepHistory(Empty, steps);
    HistoryTelescopes(Run(Empty, steps), l);
  }

  lemma HistoryTelescopes(s: World, l: LoanId)
    requires HistoryOk(s) && l in s.loans
    ensures Telescopes(s, l)
  {
    var count := s.loans[l].extensionCount;
    forall e | GrantedFor(s, e, l)
      ensures 1 <= s.extensions[e].round <= count && s.extensions[e].from < s.extensions[e].to
              && (s.extensions[e].round == count ==> s.loans[l].due == Some(s.extensions[e].to))
    {
      assert RequestOk(s, e);
    }
    OnePerRound(s, l, GrantedSet(s, l), count);
    forall n: nat | RoundGranted(s, l, n) ensures 1 <= n <= count {
      var e :| e in s.extensions && GrantedFor(s, e, l) && s.extensions[e].round == n;
      assert RequestOk(s, e);
    }
    forall e, f | PendingFor(s, e, l) && PendingFor(s, f, l) ensures e == f { assert PairOk(s, e, f); }
    forall e, f | GrantedFor(s, e, l) && GrantedFor(s, f, l)
      ensures (s.extensions[e].round == s.extensions[f].round ==> e == f)
              && (s.extensions[e].round + 1 == s.extensions[f].round ==> s.extensions[f].from == s.extensions[e].to)
              && (s.extensions[e].round < s.extensions[f].round ==> s.extensions[e].to <= s.extensions[f].from)
    {
      assert PairOk(s, e, f);
      if s.extensions[e].round < s.extensions[f].round { LaterRoundsEndLater(s, l, e, f); }
    }
  }

  // ---- One transaction at a time -------------------------------------------------------------------------

  predicate Starts(step: Step) {
    step.StartLost? || step.StartExtension? || step.StartWithdrawal?
  }

  /** Every transaction of two halves ends right after it starts. */
  predicate Serial(steps: seq<Step>)
    decreases |steps|
  {
    if steps == [] then true
    else if Starts(steps[0]) then |steps| >= 2 && steps[1] == Finish(steps[0].tx) && Serial(steps[2..])
    else !steps[0].Finish? && Serial(steps[1..])
  }

  lemma NothingOpens(s: World, step: Step)
    requires s.pending == map[] && !Starts(step) && !step.Finish?
    ensures Apply(s, step).pending == map[]
  {
    hide Waits, EditRefused, NeedsCascade, Cascade, HasPendingExtension;
    if LoanOperation(step) { OperationsLeavePending(s, step); }
  }

  lemma ClosesAtOnce(s: World, step: Step)
    requires s.pending == map[] && HistoryOk(s) && Starts(step)
    ensures var t := Apply(s, step);
            !Stale(s, step) && !Stale(t, Finish(step.tx)) && Apply(t, Finish(step.tx)).pending == map[]
  {
    StartedAlone(s, step);
    if Attempt(s, step).Ok? && !step.StartLost? { CommitsAtOnceAreFresh(s, step); }
    FinishedAlone(Apply(s, step), step.tx);
    hide HistoryOk, Apply, StaleWrite, Attempt;
  }

  lemma StartedAlone(s: World, step: Step)
    requires s.pending == map[] && Starts(step)
    ensures var t := Apply(s, step);
            && t.pending.Keys <= {step.tx} && (Attempt(s, step).Err? ==> t == s)
            && (step.StartLost? && step.tx in t.pending ==> t.pending[step.tx].LostEdit?)
  {
    hide Waits, HasPendingExtension, EditRefused, NeedsCascade;
  }

  lemma FinishedAlone(t: World, tx: TxId)
    requires t.pending.Keys <= {tx}
    ensures Apply(t, Finish(tx)).pending == map[]
    ensures tx !in t.pending || t.pending[tx].LostEdit? ==> !Stale(t, Finish(tx))
  {
    hide Rows, CancelLoans;
    assert !Waits(t, Finish(tx));
    assert t.pending - {tx} == map[];
  }

  lemma {:induction false} SerialRunsAreFresh(s: World, steps: seq<Step>)
    requires s.pending == map[] && HistoryOk(s) && Serial(steps)
    ensures FreshRun(s, steps)
    decreases |steps|
  {
    hide HistoryOk, Apply, Stale;
    if steps != [] {
      var t := Apply(s, steps[0]);
      StepKeepsHistory(s, steps[0]);
      if Starts(steps[0]) {
        ClosesAtOnce(s, steps[0]);
        StepKeepsHistory(t, steps[1]);
        SerialRunsAreFresh(Apply(t, steps[1]), steps[2..]);
        assert steps[1..][0] == steps[1] && steps[1..][1..] == steps[2..];
      } else {
        StartsNothingStale(s, steps[0]);
        NothingOpens(s, steps[0]);
        SerialRunsAreFresh(t, steps[1..]);
      }
    }
  }

  lemma StartsNothingStale(s: World, step: Step)
    requires !step.Finish?
    ensures !Stale(s, step)
  {
  }

  /** Served one transaction at a time, every loan's history is whole, whatever the requests. */
  lemma SerialRunsTelescope(steps: seq<Step>, l: LoanId)
    requires Serial(steps) && l in Run(Empty, steps).loans
    ensures Telescopes(Run(Empty, steps), l)
  {
    SerialRunsAreFresh(Empty, steps);
    ExtensionsTelescope(steps, l);
  }

  // ---- Where the history fails --------------------------------------------------------------------------

  /** Two desk extensions that both read the loan first are both granted, as the same round. */
  lemma DeskExtensionsCross(s: World, l: LoanId, tx: TxId, ty: TxId, e: ExtensionId, f: ExtensionId, to: Time, now: Time)
    requires s.pending == map[] && l in s.loans && s.loans[l].status.OnLoan? && !HasPendingExtension(s, l)
    requires now < to && Benchmark(s.loans[l]) < to && e !in s.extensions && f !in s.extensions && e != f && tx != ty
    ensures var u := Apply(Apply(Apply(s, StartExtension(tx, e, l, to, true, true, now)),
                                 StartExtension(ty, f, l, to, true, true, now)), Finish(tx));
            var t := Apply(u, Finish(ty));
            && Stale(u, Finish(ty)) && l in t.loans && t.loans[l].extensionCount == s.loans[l].extensionCount + 1
            && GrantedFor(t, e, l) && GrantedFor(t, f, l) && t.extensions[e].round == t.extensions[f].round == t.loans[l].extensionCount
  {
    hide Apply, Stale, Attempt;
    var row := Extension(l, true, Granted, s.loans[l].extensionCount + 1, Benchmark(s.loans[l]), to);
    var s1 := SetPending(s, tx, Extending(e, row));
    DeskStarts(s, tx, e, l, to, now);
    DeskStarts(s1, ty, f, l, to, now);
    BothFinish(SetPending(s1, ty, Extending(f, row)), tx, ty, e, f, row);
  }

  lemma BothFinish(s: World, tx: TxId, ty: TxId, e: ExtensionId, f: ExtensionId, row: Extension)
    requires s.pending == map[tx := Extending(e, row), ty := Extending(f, row)] && tx != ty
    requires e !in s.extensions && f !in s.extensions && e != f && row.desk && row.status.Granted? && row.loan in s.loans
    ensures var u := Apply(s, Finish(tx));
            var t := Apply(u, Finish(ty));
            && Stale(u, Finish(ty)) && row.loan in t.loans && t.loans[row.loan].extensionCount == row.round
            && GrantedFor(t, e, row.loan) && GrantedFor(t, f, row.loan) && t.extensions[e] == t.extensions[f] == row
  {
    DeskFinishes(s, tx);
    hide Apply, Stale, Attempt;
    DeskFinishes(Apply(s, Finish(tx)), ty);
  }

  lemma DeskStarts(s: World, tx: TxId, e: ExtensionId, l: LoanId, to: Time, now: Time)
    requires tx !in s.pending && (forall tz :: tz in s.pending ==> s.pending[tz].Extending?)
    requires l in s.loans && s.loans[l].status.OnLoan? && !HasPendingExtension(s, l) && now < to && Benchmark(s.loans[l]) < to
    ensures Apply(s, StartExtension(tx, e, l, to, true, true, now))
            == SetPending(s, tx, Extending(e, Extension(l, true, Granted, s.loans[l].extensionCount + 1, Benchmark(s.loans[l]), to)))
  {
    NothingHeldNoWait(s, StartExtension(tx, e, l, to, true, true, now));
  }

  lemma DeskFinishes(s: World, tx: TxId)
    requires tx in s.pending && (forall tz :: tz in s.pending ==> s.pending[tz].Extending?)
    requires s.pending[tx].row.desk && s.pending[tx].row.loan in s.loans && s.pending[tx].id !in s.extensions
    ensures var (e, x) := (s.pending[tx].id, s.pending[tx].row);
            && Apply(s, Finish(tx)) == s.(pending := s.pending - {tx}, extensions := s.extensions[e := x],
                                          loans := s.loans[x.loan := s.loans[x.loan].(due := Some(x.to), extensionCount := x.round)])
            && (Stale(s, Finish(tx)) <==> StaleWrite(s, s.pending[tx]))
  {
    NothingHeldNoWait(s, Finish(tx));
    hide StaleWrite;
  }

  /** A request granted while its owner withdraws it moves the due date and is filed as withdrawn. */
  lemma WithdrawalHidesAGrant(s: World, tx: TxId, e: ExtensionId)
    requires HistoryOk(s) && s.pending == map[] && e in s.extensions && s.extensions[e].status.AwaitingReview?
    ensures var x := s.extensions[e];
            var u := Apply(Apply(s, StartWithdrawal(tx, e, true)), Review(e, true, true));
            var t := Apply(u, Finish(tx));
            && Stale(u, Finish(tx)) && x.loan in s.loans && x.loan in t.loans
            && t.loans[x.loan].extensionCount == s.loans[x.loan].extensionCount + 1 && t.loans[x.loan].due == Some(x.to)
            && e in t.extensions && t.extensions[e].status.Withdrawn?
  {
    assert RequestOk(s, e);
    hide HistoryOk;
    var s1 := SetPending(s, tx, Withdrawing(e));
    NothingHeldNoWait(s, StartWithdrawal(tx, e, true));
    assert Apply(s, StartWithdrawal(tx, e, true)) == s1;
    GrantedMeanwhile(s1, tx, e);
  }

  lemma GrantedMeanwhile(s: World, tx: TxId, e: ExtensionId)
    requires s.pending == map[tx := Withdrawing(e)] && e in s.extensions && s.extensions[e].status.AwaitingReview?
    requires s.extensions[e].loan in s.loans
    ensures var x := s.extensions[e];
            var u := Apply(s, Review(e, true, true));
            var t := Apply(u, Finish(tx));
            && Stale(u, Finish(tx)) && x.loan in t.loans
            && t.loans[x.loan].extensionCount == s.loans[x.loan].extensionCount + 1 && t.loans[x.loan].due == Some(x.to)
            && e in t.extensions && t.extensions[e].status.Withdrawn?
  {
    NothingHeldNoWait(s, Review(e, true, true));
    NothingHeldNoWait(Apply(s, Review(e, true, true)), Finish(tx));
  }

  lemma NothingHeldNoWait(s: World, step: Step)
    requires forall tx :: tx in s.pending ==> !s.pending[tx].LostEdit?
    ensures !Waits(s, step)
  {
    hide Rows;
  }
}
