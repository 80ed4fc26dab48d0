/** What holds of every run of loan operations, status edits and disposals, and where it fails. */
module LoanSafety {
  import opened Prelude
  import opened LoanState
  import opened LoanTransactions
  import opened LoanProtocol
  import opened LoanTerms

  /**
   * Over every run without an unsafe step, no asset has two active loans, the asset of each active
   * loan is where that loan says, and an asset reserved or on loan is in good condition and has
   * such a loan.
   */
  lemma AssetsAreLentOnce(steps: seq<Step>)
    requires SafeRun(Empty, steps)
    ensures var s := Run(Empty, steps);
            && (forall l, m, a :: ActiveOn(s, l, a) && ActiveOn(s, m, a) ==> l == m)
            && (forall l, a :: ActiveOn(s, l, a) ==>
                  a in s.assets && s.assets[a].availability == AvailabilityFor(s.loans[l].status))
            && (forall a :: a in s.assets && LendsOut(s.assets[a].availability) ==>
                  s.assets[a].condition.Normal? && exists l :: l in s.loans && ActiveOn(s, l, a))
  {
    SafeRunsKeep(Empty, steps);
    var s := Run(Empty, steps);
    forall l, m, a | ActiveOn(s, l, a) && ActiveOn(s, m, a) ensures l == m { assert AssetPlaced(s, a); }
    forall l, a | ActiveOn(s, l, a) ensures a in s.assets && s.assets[a].availability == AvailabilityFor(s.loans[l].status) {
      assert LoanPlaced(s, l);
    }
    forall a | a in s.assets && LendsOut(s.assets[a].availability)
      ensures s.assets[a].condition.Normal? && exists l :: l in s.loans && ActiveOn(s, l, a)
    {
      assert AssetPlaced(s, a);
    }
  }

  /** While the invariant holds, an operation is refused only for its loan's status or its caller's rights. */
  lemma AssetGuardsNeverMiss(s: World, l: LoanId, now: Time, damaged: bool, permitted: bool, staff: bool, related: bool)
    requires Inv(s) && l in s.loans
    ensures var status := s.loans[l].status;
            && (HandoverAsset(s, l, now).Ok? <==> status.Approved?)
            && (RejectBorrow(s, l).Ok? <==> status.PendingApprove?)
            && (RequestReturn(s, l, permitted).Ok? <==> status.OnLoan? && permitted)
            && (CompleteReturn(s, l, damaged).Ok? <==> status.PendingReturn? || status.InPickup?)
            && (ReturnAtDesk(s, l, damaged, permitted).Ok? <==> status.OnLoan? && permitted)
            && (CancelBorrow(s, l, staff, related).Ok? <==>
                  (status.PendingApprove? && (staff || related)) || (status.Approved? && staff))
  {
  }

  /** The asset can be borrowed afresh. */
  predicate Lendable(s: World, a: AssetId) {
    a in s.assets && s.assets[a].center && s.assets[a].condition.Normal? && s.assets[a].availability.Available?
  }

  /**
   * Every way of closing a loan leaves its asset as it should be: lendable again after a rejection,
   * a cancellation or a return in good order, and damaged and out of reach after a damaged return.
   */
  lemma ClosedLoansReleaseTheAsset(s: World, step: Step)
    requires Inv(s) && Attempt(s, step).Ok?
    requires step.Reject? || step.Cancel? || step.FinishReturn? || step.DeskReturn?
    ensures var a := s.loans[step.loan].asset;
            var t := Apply(s, step);
            && !Active(t.loans[step.loan].status) && (forall l :: !ActiveOn(t, l, a))
            && (if (step.FinishReturn? || step.DeskReturn?) && step.damaged
                then t.assets[a] == s.assets[a].(condition := Damaged, availability := Unavailable)
                else s.assets[a].center ==> Lendable(t, a))
  {
    var a := s.loans[step.loan].asset;
    assert LoanPlaced(s, step.loan) && AssetPlaced(s, a) && ActiveOn(s, step.loan, a);
    hide EditStatus, CreateDisposal, BeginExtension, BeginLost, Commit, ReviewExtension, CreateBorrow, Waits;
    forall l ensures !ActiveOn(Apply(s, step), l, a) { assert ActiveOn(s, l, a) ==> l == step.loan; }
  }

  /** Rejecting or cancelling a fresh self-service request leaves every asset as it was before the request. */
  lemma WithdrawnRequestsLeaveNoTrace(s: World, l: LoanId, a: AssetId, borrower: UserId, due: Option<Time>, now: Time, staff: bool)
    requires CreateBorrow(s, l, a, borrower, SelfService, due, now).Ok?
    ensures var t := CreateBorrow(s, l, a, borrower, SelfService, due, now).value;
            && RejectBorrow(t, l).Ok? && RejectBorrow(t, l).value.assets == s.assets
            && CancelBorrow(t, l, staff, true).Ok? && CancelBorrow(t, l, staff, true).value.assets == s.assets
  {
  }

  // ---- Loans run their course once ----------------------------------------------------------------

  function Stage(status: LoanStatus): nat {
    match status
    case PendingApprove => 0
    case Approved => 1
    case OnLoan => 2
    case PendingReturn => 3
    case InPickup => 4
    case _ => 5
  }

  predicate LoanEvolves(x: Loan, y: Loan) {
    && y == x.(status := y.status, handover := y.handover, due := y.due, extensionCount := y.extensionCount)
    && (x.status == y.status || Stage(x.status) < Stage(y.status))
    && (Active(x.status) || y.status == x.status)
  }

  lemma LoanStepEvolves(s: World, step: Step, l: LoanId)
    requires l in s.loans
    ensures l in Apply(s, step).loans && LoanEvolves(s.loans[l], Apply(s, step).loans[l])
  {
    hide Apply, LoanEvolves;
    if LoanOperation(step) { OperationEvolves(s, step, l); }
    else if step.Edit? || step.Finish? { CascadeEvolves(s, step, l); }
    else { OtherStepEvolves(s, step, l); }
  }

  lemma OperationEvolves(s: World, step: Step, l: LoanId)
    requires l in s.loans && LoanOperation(step)
    ensures l in Apply(s, step).loans && LoanEvolves(s.loans[l], Apply(s, step).loans[l])
  {
    hide Waits;
  }

  lemma OtherStepEvolves(s: World, step: Step, l: LoanId)
    requires l in s.loans && !LoanOperation(step) && !step.Edit? && !step.Finish?
    ensures l in Apply(s, step).loans && LoanEvolves(s.loans[l], Apply(s, step).loans[l])
  {
    hide Waits, Cascade, EditRefused, NeedsCascade, HasPendingExtension, LoanEvolves;
    assert !step.Review? ==> Apply(s, step).loans == s.loans;
    assert LoanEvolves(s.loans[l], s.loans[l]) by { EvolvesReflexively(s.loans[l]); }
    if step.Review? { ReviewEvolves(s, step, l); }
  }

  lemma ReviewEvolves(s: World, step: Step, l: LoanId)
    requires l in s.loans && step.Review?
    ensures l in Apply(s, step).loans && LoanEvolves(s.loans[l], Apply(s, step).loans[l])
  {
    hide Waits;
  }

  lemma EvolvesReflexively(x: Loan)
    ensures LoanEvolves(x, x)
  {
  }

  lemma CascadeEvolves(s: World, step: Step, l: LoanId)
    requires l in s.loans && (step.Edit? || step.Finish?)
    ensures l in Apply(s, step).loans && LoanEvolves(s.loans[l], Apply(s, step).loans[l])
  {
    EditOrFinishApplied(s, step);
    hide Apply, Cascade, EditRefused, CommitLost;
    if step.Edit? {
      hide Commit;
      LostEvolves(s, Cascade(s, step.asset, step.seen), l);
      if Apply(s, step) != s && step.target.Lost? { LostAtOnce(s, step.asset, step.seen); hide EditStatus; }
    } else if step.tx in s.pending && s.pending[step.tx].LostEdit? {
      hide EditStatus;
      LostEvolves(s.(pending := s.pending - {step.tx}), s.pending[step.tx], l);
    }
  }

  lemma LostEvolves(s: World, x: Open, l: LoanId)
    requires l in s.loans && x.LostEdit?
    ensures l in CommitLost(s, x).loans && LoanEvolves(s.loans[l], CommitLost(s, x).loans[l])
  {
  }

  /** A loan keeps its asset and borrower, only moves forward, and once closed is never reopened. */
  lemma {:induction false} LoansMoveForward(s: World, steps: seq<Step>, l: LoanId)
    requires l in s.loans
    ensures l in Run(s, steps).loans && LoanEvolves(s.loans[l], Run(s, steps).loans[l])
    decreases |steps|
  {
    hide Apply;
    if steps != [] {
      LoanStepEvolves(s, steps[0], l);
      LoansMoveForward(Apply(s, steps[0]), steps[1..], l);
    }
  }

  // ---- Status edits --------------------------------------------------------------------------------

  /**
   * No status edit and no disposal changes an asset that is reserved or on loan under a loan, except
   * a move to LOST in one go, which cancels that loan.
   */
  lemma LentAssetsAreNotEdited(s: World, step: Step, l: LoanId, a: AssetId)
    requires Inv(s) && ActiveOn(s, l, a) && LendsOut(s.assets[a].availability)
    requires (step.Edit? || step.Dispose?) && step.asset == a
    ensures var t := Apply(s, step);
            || t == s
            || (step.Edit? && step.target.Normal? && t.assets == s.assets && t.loans == s.loans)
            || (step.Edit? && step.target.Lost? && t.loans[l].status.Cancelled? && forall m :: !ActiveOn(t, m, a))
  {
    hide Waits;
    assert LoanPlaced(s, l) && AssetPlaced(s, a);
    if step.Edit? && Attempt(s, step).Ok? && step.target.Normal? { assert Apply(s, step).assets == s.assets; }
  }

  // ---- Moves to LOST, with others between the cascade and the write ---------------------------------

  function Ledger(moves: map<nat, PartMove>): map<nat, PartMove> {
    map t | t in moves && !moves[t].kind.PendingWithdraw? :: moves[t]
  }

  /** None of the steps belongs to `tx`. */
  predicate OthersThan(tx: TxId, steps: seq<Step>) {
    forall k :: 0 <= k < |steps| ==> !Owns(steps[k], tx)
  }

  /** The rows `x` holds are the same in both states. */
  ghost predicate HeldAlike(s: World, t: World, x: Open)
    requires x.LostEdit?
  {
    && (forall l :: l in x.loans && l in s.loans ==> l in t.loans && t.loans[l] == s.loans[l])
    && (forall j :: j in x.jobs && j in s.jobs ==> j in t.jobs && t.jobs[j] == s.jobs[j])
    && (forall m :: m in x.moves && m in s.moves ==> m in t.moves && t.moves[m] == s.moves[m])
  }

  /** A step changes no loan, job or movement that stands, except those it is said to write. */
  ghost predicate WritesItsRows(s: World, step: Step) {
    var (loans, jobs, moves) := Rows(s, step);
    var t := Apply(s, step);
    && (forall l :: l in s.loans && l !in loans ==> l in t.loans && t.loans[l] == s.loans[l])
    && (forall j :: j in s.jobs && j !in jobs ==> j in t.jobs && t.jobs[j] == s.jobs[j])
    && (forall m :: m in s.moves && m !in moves ==> m in t.moves && t.moves[m] == s.moves[m])
  }

  lemma StepWritesItsRows(s: World, step: Step)
    ensures WritesItsRows(s, step)
  {
    hide WritesItsRows;
    if LoanOperation(step) { OperationWritesItsRows(s, step); }
    else if step.Finish? || step.Edit? { CascadeWritesItsRows(s, step); }
    else { OtherWritesItsRows(s, step); }
  }

  lemma OperationWritesItsRows(s: World, step: Step)
    requires LoanOperation(step)
    ensures WritesItsRows(s, step)
  {
    hide Waits;
  }

  lemma OtherWritesItsRows(s: World, step: Step)
    requires !LoanOperation(step) && !step.Finish? && !step.Edit?
    ensures WritesItsRows(s, step)
  {
    hide Waits, Cascade, EditRefused, NeedsCascade, HasPendingExtension;
  }

  lemma CascadeWritesItsRows(s: World, step: Step)
    requires step.Finish? || step.Edit?
    ensures WritesItsRows(s, step)
  {
    hide WritesItsRows;
    if step.Edit? { EditWritesItsRows(s, step); } else { FinishWritesItsRows(s, step); }
  }

  lemma EditWritesItsRows(s: World, step: Step)
    requires step.Edit?
    ensures WritesItsRows(s, step)
  {
    EditOrFinishApplied(s, step);
    hide Apply, Cascade, EditRefused, CommitLost, Commit;
    LostWritesItsRows(s, Cascade(s, step.asset, step.seen));
    if Apply(s, step) != s && step.target.Lost? { LostAtOnce(s, step.asset, step.seen); hide EditStatus; }
  }

  lemma FinishWritesItsRows(s: World, step: Step)
    requires step.Finish?
    ensures WritesItsRows(s, step)
  {
    EditOrFinishApplied(s, step);
    hide Apply, CommitLost, EditStatus;
    if step.tx in s.pending && s.pending[step.tx].LostEdit? {
      LostWritesItsRows(s.(pending := s.pending - {step.tx}), s.pending[step.tx]);
    }
  }

  lemma LostWritesItsRows(s: World, x: Open)
    requires x.LostEdit?
    ensures var t := CommitLost(s, x);
            && (forall l :: l in s.loans && l !in x.loans ==> l in t.loans && t.loans[l] == s.loans[l])
            && (forall j :: j in s.jobs && j !in x.jobs ==> j in t.jobs && t.jobs[j] == s.jobs[j])
            && (forall m :: m in s.moves && m !in x.moves ==> m in t.moves && t.moves[m] == s.moves[m])
  {
  }

  /** A loan operation waits exactly while a move to LOST under way has cancelled its loan; a new loan never waits. */
  lemma OperationsWaitForTheirLoan(s: World, step: Step)
    requires LoanOperation(step)
    ensures Waits(s, step) <==> !step.Borrow? && exists tx :: tx in s.pending && s.pending[tx].LostEdit? && step.loan in s.pending[tx].loans
  {
    assert Rows(s, step) == (if step.Borrow? then {} else {step.loan}, {}, {});
    if tx :| !step.Borrow? && tx in s.pending && s.pending[tx].LostEdit? && step.loan in s.pending[tx].loans {
      assert step.loan in Rows(s, step).0 && step.loan in RowsOf(s.pending[tx]).0;
      assert Meets(Rows(s, step), RowsOf(s.pending[tx]));
    }
  }

  lemma PendingStays(s: World, step: Step, tx: TxId)
    requires tx in s.pending && !Owns(step, tx)
    ensures tx in Apply(s, step).pending && Apply(s, step).pending[tx] == s.pending[tx]
  {
    hide Waits, Rows, Cascade, CancelLoans, EditRefused, NeedsCascade, HasPendingExtension;
    if LoanOperation(step) { OperationsLeavePending(s, step); }
  }

  lemma OperationsLeavePending(s: World, step: Step)
    requires LoanOperation(step)
    ensures Apply(s, step).pending == s.pending
  {
    hide Waits;
  }

  lemma StepHoldsRows(s: World, step: Step, tx: TxId)
    requires tx in s.pending && s.pending[tx].LostEdit? && !Owns(step, tx)
    ensures var t := Apply(s, step);
            tx in t.pending && t.pending[tx] == s.pending[tx] && HeldAlike(s, t, s.pending[tx])
  {
    hide Transact, Rows, Waits, Owns;
    PendingStays(s, step, tx);
    if !Waits(s, step) {
      StepWritesItsRows(s, step);
      RowsAreFree(s, step, tx);
    }
  }

  /** What a move to LOST has cancelled, closed and deleted stays so, unseen, until it ends. */
  lemma {:induction false} HeldRowsStay(s: World, steps: seq<Step>, tx: TxId)
    requires tx in s.pending && s.pending[tx].LostEdit? && OthersThan(tx, steps)
    ensures var t := Run(s, steps);
            tx in t.pending && t.pending[tx] == s.pending[tx] && HeldAlike(s, t, s.pending[tx])
    decreases |steps|
  {
    hide Apply;
    if steps != [] {
      StepHoldsRows(s, steps[0], tx);
      HeldRowsStay(Apply(s, steps[0]), steps[1..], tx);
    }
  }

  /** The move to LOST under way goes through if it ends now. */
  predicate LostCommits(s: World, tx: TxId) {
    tx in s.pending && s.pending[tx].LostEdit? && Attempt(s, Finish(tx)).Ok?
    && StillAs(s, s.pending[tx].asset, s.pending[tx].seen)
  }

  /**
   * A move to LOST cancels in `s` and writes the asset in `u`, after any steps of others. Committed, it
   * leaves a loan active on the asset exactly when that loan was opened between the two. It touches no
   * other loan and no other asset. Refused, it changes nothing.
   */
  lemma LostLeavesExactlyLaterLoans(s: World, tx: TxId, a: AssetId, seen: Seen, gap: seq<Step>, l: LoanId)
    requires Attempt(s, StartLost(tx, a, seen)).Ok? && OthersThan(tx, gap)
    ensures var u := Run(Apply(s, StartLost(tx, a, seen)), gap);
            var t := Apply(u, Finish(tx));
            if LostCommits(u, tx) then
              && StillAs(u, a, seen) && a in t.assets && t.assets[a].condition.Lost?
              && t.assets[a] == Edited(u.assets[a], Lost)
              && (forall b :: b != a ==> (b in t.assets <==> b in u.assets) && (b in u.assets ==> t.assets[b] == u.assets[b]))
              && (LendsOut(seen.availability) ==> (ActiveOn(t, l, a) <==> ActiveOn(u, l, a) && l !in s.loans))
              && (l in u.loans <==> l in t.loans)
              && (l in u.loans ==> t.loans[l] == if LendsOut(seen.availability) && ActiveOn(s, l, a) then s.loans[l].(status := Cancelled) else u.loans[l])
            else t.assets == u.assets && t.loans == u.loans && t.jobs == u.jobs && t.moves == u.moves
  {
    hide Apply, Waits, Attempt, OthersThan, WithCascade, CancelLoans;
    var s1 := Apply(s, StartLost(tx, a, seen));
    var u := Run(s1, gap);
    StartedLost(s, tx, a, seen);
    HeldRowsStay(s1, gap, tx);
    if l in s.loans { LoansMoveForward(s1, gap, l); }
    FinishedLost(u, tx);
    hide Run, HeldAlike, LoanEvolves, Cascade;
    if LostCommits(u, tx) { CommittedLost(s, u, tx, a, seen, l); }
  }

  lemma CommittedLost(s: World, u: World, tx: TxId, a: AssetId, seen: Seen, l: LoanId)
    requires u.pending == u.pending[tx := Cascade(s, a, seen)] && StillAs(u, a, seen)
    requires l in s.loans ==> l in u.loans && LoanEvolves(s.loans[l], u.loans[l])
    requires HeldAlike(s, u, Cascade(s, a, seen))
    ensures var t := CommitLost(u.(pending := u.pending - {tx}), Cascade(s, a, seen));
            && t.assets[a] == Edited(u.assets[a], Lost)
            && (forall b :: b != a ==> (b in t.assets <==> b in u.assets) && (b in u.assets ==> t.assets[b] == u.assets[b]))
            && (LendsOut(seen.availability) ==> (ActiveOn(t, l, a) <==> ActiveOn(u, l, a) && l !in s.loans))
            && (l in u.loans <==> l in t.loans)
            && (l in u.loans ==> t.loans[l] == if LendsOut(seen.availability) && ActiveOn(s, l, a) then s.loans[l].(status := Cancelled) else u.loans[l])
  {
  }

  lemma StartedLost(s: World, tx: TxId, a: AssetId, seen: Seen)
    requires Attempt(s, StartLost(tx, a, seen)).Ok?
    ensures Apply(s, StartLost(tx, a, seen)) == SetPending(s, tx, Cascade(s, a, seen))
    ensures a in s.assets && tx !in s.pending && seen.condition != Lost ==> seen.condition in AllowedFrom(Lost)
  {
    hide Waits, Cascade;
  }

  lemma FinishedLost(u: World, tx: TxId)
    requires tx in u.pending && u.pending[tx].LostEdit?
    ensures var rest := u.(pending := u.pending - {tx});
            Apply(u, Finish(tx)) == if LostCommits(u, tx) then CommitLost(rest, u.pending[tx]) else if Attempt(u, Finish(tx)).Ok? then rest else u
  {
    hide Waits, WithCascade;
  }

  /**
   * From UNDER_REPAIR: every job open on the asset when the cascade ran ends cancelled with the note,
   * its withdrawals waiting then are gone, and every other job and movement, with the ledger of
   * completed withdrawals and returns, is as the others left it.
   */
  lemma LostClosesRepairs(s: World, tx: TxId, a: AssetId, seen: Seen, gap: seq<Step>)
    requires Attempt(s, StartLost(tx, a, seen)).Ok? && OthersThan(tx, gap) && seen.condition.UnderRepair?
    requires LostCommits(Run(Apply(s, StartLost(tx, a, seen)), gap), tx)
    ensures var u := Run(Apply(s, StartLost(tx, a, seen)), gap);
            var t := Apply(u, Finish(tx));
            && t.jobs.Keys == u.jobs.Keys
            && (forall j :: j in t.jobs ==> t.jobs[j] == if UnderWay(s.jobs, j, a) then Noted(s.jobs[j], AUTO_CANCEL_REPAIR_NOTE) else u.jobs[j])
            && (forall j :: UnderWay(s.jobs, j, a) ==> j in t.jobs)
            && Ledger(t.moves) == Ledger(u.moves)
            && (forall m :: m in u.moves ==> (m !in t.moves <==> AwaitsParts(s.moves, s.jobs, m, a)))
            && (forall m :: m in t.moves ==> m in u.moves && t.moves[m] == u.moves[m])
  {
    hide Apply, Waits;
    var s1 := Apply(s, StartLost(tx, a, seen));
    var u := Run(s1, gap);
    var t := Apply(u, Finish(tx));
    StartedLost(s, tx, a, seen);
    HeldRowsStay(s1, gap, tx);
    FinishedLost(u, tx);
    forall m | AwaitsParts(s.moves, s.jobs, m, a) ensures m in u.moves && u.moves[m].kind.PendingWithdraw? { }
    assert forall m :: m in Ledger(t.moves) <==> m in Ledger(u.moves);
  }

  /** An edit in one go cancels nothing unless it moves to LOST, and touches no other asset. */
  lemma OtherEditsCascadeNothing(s: World, a: AssetId, seen: Seen, target: Condition)
    requires EditStatus(s, a, seen, target).Ok?
    ensures var t := EditStatus(s, a, seen, target).value;
            && (t.loans != s.loans ==> target.Lost? && LendsOut(seen.availability))
            && (t.jobs != s.jobs || t.moves != s.moves ==> target.Lost? && seen.condition.UnderRepair?)
            && forall b :: b in s.assets && b != a ==> b in t.assets && t.assets[b] == s.assets[b]
  {
    var x := Cascade(s, a, seen);
    assert !seen.condition.UnderRepair? ==> s.jobs + x.jobs == s.jobs && WithCascade(s, x).moves == s.moves;
  }

  predicate OutOfService(c: Condition) {
    c.Lost? || c.Disposal? || c.WaitDisposal?
  }

  /** An asset lost, disposed of or waiting to be, with no active loan, is never lent or in service again. */
  lemma {:induction false} GoneAssetsStayGone(s: World, steps: seq<Step>, a: AssetId)
    requires a in s.assets && OutOfService(s.assets[a].condition) && forall l :: !ActiveOn(s, l, a)
    ensures var t := Run(s, steps);
            a in t.assets && OutOfService(t.assets[a].condition) && forall l :: !ActiveOn(t, l, a)
    decreases |steps|
  {
    hide Apply;
    if steps != [] {
      GoneForOneStep(s, steps[0], a);
      GoneAssetsStayGone(Apply(s, steps[0]), steps[1..], a);
    }
  }

  lemma GoneForOneStep(s: World, step: Step, a: AssetId)
    requires a in s.assets && OutOfService(s.assets[a].condition) && forall l :: !ActiveOn(s, l, a)
    ensures var t := Apply(s, step);
            a in t.assets && OutOfService(t.assets[a].condition) && forall l :: !ActiveOn(t, l, a)
  {
    hide Apply;
    if LoanOperation(step) { assert !ActiveOn(s, step.loan, a); GoneForOneOperation(s, step, a); }
    forall l ensures !ActiveOn(Apply(s, step), l, a) {
      assert !ActiveOn(s, l, a);
      if l in s.loans { LoanStepEvolves(s, step, l); } else { NewLoansAreBorrowed(s, step, l, a); }
    }
    if !LoanOperation(step) { GoneForOneEdit(s, step, a); }
  }

  lemma GoneForOneOperation(s: World, step: Step, a: AssetId)
    requires a in s.assets && OutOfService(s.assets[a].condition) && LoanOperation(step) && !ActiveOn(s, step.loan, a)
    ensures a in Apply(s, step).assets && Apply(s, step).assets[a] == s.assets[a]
  {
  }

  lemma GoneForOneEdit(s: World, step: Step, a: AssetId)
    requires a in s.assets && OutOfService(s.assets[a].condition) && !LoanOperation(step)
    ensures a in Apply(s, step).assets && OutOfService(Apply(s, step).assets[a].condition)
  {
    hide Cascade, CancelLoans;
    if step.Edit? || step.Finish? {
      EditOrFinishApplied(s, step);
      hide Apply;
    } else {
      hide Waits, EditRefused, NeedsCascade, HasPendingExtension;
    }
  }

  lemma NewLoansAreBorrowed(s: World, step: Step, l: LoanId, a: AssetId)
    requires l !in s.loans && a in s.assets && !s.assets[a].condition.Normal?
    ensures !ActiveOn(Apply(s, step), l, a)
  {
    hide Cascade, EditRefused, NeedsCascade, HasPendingExtension;
    if step.Edit? || step.Finish? {
      EditOrFinishApplied(s, step);
      hide Apply;
    } else {
      hide Waits, CancelLoans;
    }
  }
}
