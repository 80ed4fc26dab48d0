/** The runs that break the loan invariant, and what becomes of the loans they leave behind. */
module LoanStranding {
  import opened Prelude
  import opened LoanState
  import opened LoanTransactions
  import opened LoanProtocol
  import opened LoanSafety

  // ---- A second loan while the first awaits its return --------------------------------------------

  /**
   * While a loan waits for its asset to be picked up, recording damage and then repair puts the
   * asset back on the shelf, and it is lent a second time.
   */
  lemma EditDuringReturnLendsTwice(s: World, l: LoanId, a: AssetId, m: LoanId, borrower: UserId, now: Time)
    requires Inv(s) && ActiveOn(s, l, a) && (s.loans[l].status.PendingReturn? || s.loans[l].status.InPickup?)
    requires s.assets[a].condition.Normal? && s.assets[a].center && m !in s.loans
    ensures var s1 := Apply(s, Edit(a, Seen(Normal, Unavailable), Damaged));
            var s2 := Apply(s1, Edit(a, Seen(Damaged, Unavailable), Normal));
            var s3 := Apply(s2, Borrow(m, a, borrower, CenterService, None, now));
            && !Unsafe(s, Edit(a, Seen(Normal, Unavailable), Damaged)) && Unsafe(s1, Edit(a, Seen(Damaged, Unavailable), Normal))
            && ActiveOn(s3, l, a) && ActiveOn(s3, m, a)
  {
    hide Waits, Rows, Cascade, WithCascade;
    var first, second := Edit(a, Seen(Normal, Unavailable), Damaged), Edit(a, Seen(Damaged, Unavailable), Normal);
    assert LoanPlaced(s, l);
    EditsElsewhereDoNotWait(s, first);
    EditsElsewhereDoNotWait(Apply(s, first), second);
    var s2 := Apply(Apply(s, first), second);
    assert s2.assets[a] == s.assets[a].(availability := Available) && s2.loans == s.loans;
    BorrowsDoNotWait(s2, Borrow(m, a, borrower, CenterService, None, now));
  }

  lemma EditsElsewhereDoNotWait(s: World, step: Step)
    requires step.Edit? && !step.target.Lost?
    ensures !Waits(s, step)
  {
    NoRowsNoWait(s, step);
  }

  lemma BorrowsDoNotWait(s: World, step: Step)
    requires step.Borrow?
    ensures !Waits(s, step)
  {
    NoRowsNoWait(s, step);
  }

  /** Such a moment is three ordinary steps away from an empty database. */
  lemma LoansDoAwaitReturn(a: AssetId, l: LoanId, borrower: UserId)
    ensures var steps := [Register(a, Asset(Normal, Available, true)), Borrow(l, a, borrower, CenterService, None, 0), AskReturn(l, true)];
            var s := Run(Empty, steps);
            SafeRun(Empty, steps) && ActiveOn(s, l, a) && s.loans[l].status.PendingReturn?
            && a in s.assets && s.assets[a] == Asset(Normal, Unavailable, true)
  {
    hide EditStatus, RequestDisposal;
    var steps := [Register(a, Asset(Normal, Available, true)), Borrow(l, a, borrower, CenterService, None, 0), AskReturn(l, true)];
    var s1 := Apply(Empty, steps[0]);
    var s2 := Apply(s1, steps[1]);
    var s3 := Apply(s2, steps[2]);
    assert steps[1..][1..] == [steps[2]] && steps[1..][1..][1..] == [];
    assert Run(Empty, steps) == Run(s1, steps[1..]) == Run(s2, steps[1..][1..]) == Run(s3, []);
    assert SafeRun(s2, [steps[2]]) && SafeRun(s1, steps[1..]);
  }

  /** An asset disposed of while its loan awaits return is back on the shelf once it is returned in good order. */
  lemma ReturnRevivesDisposedAsset(s: World, l: LoanId, a: AssetId)
    requires Inv(s) && s.pending == map[] && ActiveOn(s, l, a) && (s.loans[l].status.PendingReturn? || s.loans[l].status.InPickup?)
    requires s.assets[a].condition.Normal? && s.assets[a].center
    ensures var s1 := Apply(s, Dispose(a, Seen(Normal, Unavailable)));
            var s2 := Apply(s1, FinishReturn(l, false));
            s1.assets[a].condition.Disposal? && Inv(s1) && Inv(s2) && Lendable(s2, a)
  {
    assert LoanPlaced(s, l);
    var first := Dispose(a, Seen(Normal, Unavailable));
    var s1 := Apply(s, first);
    DisposalKeepsExactly(s, first);
    LoanStepKeeps(s1, FinishReturn(l, false));
    hide Inv;
  }

  // ---- Loans that nothing can close -----------------------------------------------------------------

  /** The asset is out of service and out of reach, and its loans are short of hand-over. */
  predicate Stranded(s: World, a: AssetId) {
    a in s.assets && OutOfService(s.assets[a].condition) && s.assets[a].availability.Unavailable?
    && forall l :: l in s.loans && ActiveOn(s, l, a) ==> s.loans[l].status.PendingApprove? || s.loans[l].status.Approved?
  }

  /**
   * A loan of such an asset is never handed over, rejected, cancelled or otherwise closed, whatever
   * anybody does afterwards.
   */
  lemma {:induction false} StrandedLoansStay(s: World, steps: seq<Step>, a: AssetId, l: LoanId)
    requires Stranded(s, a) && ActiveOn(s, l, a)
    ensures Stranded(Run(s, steps), a) && ActiveOn(Run(s, steps), l, a)
    decreases |steps|
  {
    hide Apply, Stranded, ActiveOn;
    if steps != [] {
      StrandedForOneStep(s, steps[0], a, l);
      StrandedLoansStay(Apply(s, steps[0]), steps[1..], a, l);
    }
  }

  lemma StrandedForOneStep(s: World, step: Step, a: AssetId, l: LoanId)
    requires Stranded(s, a) && ActiveOn(s, l, a)
    ensures Stranded(Apply(s, step), a) && ActiveOn(Apply(s, step), l, a)
  {
    hide Apply, LoanEvolves;
    if LoanOperation(step) { StrandedForOneOperation(s, step, a, l); }
    else if step.Edit? || step.Finish? { StrandedForOneEdit(s, step, a, l); }
    else { StrandedForOtherStep(s, step, a, l); }
  }

  lemma StrandedForOneOperation(s: World, step: Step, a: AssetId, l: LoanId)
    requires Stranded(s, a) && ActiveOn(s, l, a) && LoanOperation(step)
    ensures Stranded(Apply(s, step), a) && ActiveOn(Apply(s, step), l, a)
  {
    var t := Apply(s, step);
    if ActiveOn(s, step.loan, a) {
      OnlyApprovalsSucceed(s, step, a);
    } else {
      GoneForOneOperation(s, step, a);
      forall m ensures ActiveOn(t, m, a) <==> ActiveOn(s, m, a) { ElsewhereUntouched(s, step, a, m); }
      forall m | ActiveOn(s, m, a) ensures t.loans[m] == s.loans[m] { ElsewhereUntouched(s, step, a, m); }
      hide Apply;
    }
  }

  lemma OnlyApprovalsSucceed(s: World, step: Step, a: AssetId)
    requires Stranded(s, a) && LoanOperation(step) && ActiveOn(s, step.loan, a)
    ensures Apply(s, step) == s || Apply(s, step) == SetLoan(s, step.loan, s.loans[step.loan].(status := Approved))
  {
    hide Waits;
  }

  lemma ElsewhereUntouched(s: World, step: Step, a: AssetId, m: LoanId)
    requires a in s.assets && OutOfService(s.assets[a].condition)
    requires LoanOperation(step) && !ActiveOn(s, step.loan, a)
    ensures ActiveOn(Apply(s, step), m, a) <==> ActiveOn(s, m, a)
    ensures ActiveOn(s, m, a) ==> Apply(s, step).loans[m] == s.loans[m]
  {
    hide Apply;
    if m in s.loans {
      LoanStepEvolves(s, step, m);
      StepWritesItsRows(s, step);
    } else {
      NewLoansAreBorrowed(s, step, m, a);
    }
  }

  lemma StrandedForOneEdit(s: World, step: Step, a: AssetId, l: LoanId)
    requires Stranded(s, a) && ActiveOn(s, l, a) && (step.Edit? || step.Finish?)
    ensures Stranded(Apply(s, step), a) && ActiveOn(Apply(s, step), l, a)
  {
    EditOrFinishApplied(s, step);
    if step.Edit? {
      StrandedByEdit(s, step.asset, step.seen, step.target, a, l);
    } else {
      StrandedByFinish(s, step.tx, a, l);
    }
    hide Apply, EditStatus, Commit;
  }

  lemma StrandedByEdit(s: World, b: AssetId, seen: Seen, target: Condition, a: AssetId, l: LoanId)
    requires Stranded(s, a) && ActiveOn(s, l, a)
    ensures EditStatus(s, b, seen, target).Ok? ==>
              Stranded(EditStatus(s, b, seen, target).value, a) && ActiveOn(EditStatus(s, b, seen, target).value, l, a)
  {
    if EditStatus(s, b, seen, target).Ok? {
      var t := EditStatus(s, b, seen, target).value;
      if target.Lost? {
        LostAtOnce(s, b, seen);
        hide EditStatus, CommitLost;
        StrandedByLost(s, Cascade(s, b, seen), a, l);
      } else {
        assert forall m :: ActiveOn(t, m, a) <==> ActiveOn(s, m, a);
      }
    }
  }

  lemma StrandedByFinish(s: World, tx: TxId, a: AssetId, l: LoanId)
    requires Stranded(s, a) && ActiveOn(s, l, a)
    ensures Commit(s, tx).Ok? ==> Stranded(Commit(s, tx).value, a) && ActiveOn(Commit(s, tx).value, l, a)
  {
    hide CommitLost;
    if Commit(s, tx).Ok? {
      if s.pending[tx].LostEdit? {
        StrandedByLost(s.(pending := s.pending - {tx}), s.pending[tx], a, l);
      } else {
        var t := Commit(s, tx).value;
        assert forall m :: m in t.loans ==> m in s.loans && t.loans[m].asset == s.loans[m].asset && t.loans[m].status == s.loans[m].status;
        assert forall m :: ActiveOn(t, m, a) <==> ActiveOn(s, m, a);
      }
    }
  }

  lemma StrandedByLost(s: World, x: Open, a: AssetId, l: LoanId)
    requires x.LostEdit? && Stranded(s, a) && ActiveOn(s, l, a)
    ensures Stranded(CommitLost(s, x), a) && ActiveOn(CommitLost(s, x), l, a)
  {
    var t := CommitLost(s, x);
    forall m | m in t.loans && ActiveOn(t, m, a) ensures ActiveOn(s, m, a) && t.loans[m] == s.loans[m] { }
  }

  lemma StrandedForOtherStep(s: World, step: Step, a: AssetId, l: LoanId)
    requires Stranded(s, a) && ActiveOn(s, l, a) && !LoanOperation(step) && !step.Edit? && !step.Finish?
    ensures Stranded(Apply(s, step), a) && ActiveOn(Apply(s, step), l, a)
  {
    hide Waits, Rows, Cascade, EditRefused, NeedsCascade, HasPendingExtension, Benchmark, Stranded;
    if step.Review? {
      StrandedForReview(s, step, a, l);
    } else {
      assert Apply(s, step).loans == s.loans;
      StrandedAlike(s, Apply(s, step), step, a, l);
    }
  }

  lemma StrandedForReview(s: World, step: Step, a: AssetId, l: LoanId)
    requires Stranded(s, a) && ActiveOn(s, l, a) && step.Review?
    ensures Stranded(Apply(s, step), a) && ActiveOn(Apply(s, step), l, a)
  {
    hide Waits, Rows;
    forall m | m in Apply(s, step).loans && ActiveOn(Apply(s, step), m, a) ensures ActiveOn(s, m, a) && s.loans[m].status == Apply(s, step).loans[m].status { }
  }

  lemma StrandedAlike(s: World, t: World, step: Step, a: AssetId, l: LoanId)
    requires Stranded(s, a) && ActiveOn(s, l, a) && t.loans == s.loans && t == Apply(s, step)
    requires !LoanOperation(step) && !step.Edit? && !step.Finish? && !step.Review?
    ensures Stranded(t, a) && ActiveOn(t, l, a)
  {
    hide Waits, Rows, Cascade, EditRefused, NeedsCascade, HasPendingExtension, Benchmark;
    assert forall m :: ActiveOn(t, m, a) <==> ActiveOn(s, m, a);
  }

  /** A disposal proposed for a reserved asset strands its loan. */
  lemma ProposalStrandsReservation(s: World, a: AssetId, seen: Seen, l: LoanId)
    requires Inv(s) && ActiveOn(s, l, a) && s.assets[a].availability.Reserved?
    requires RequestDisposal(s, a, seen).Ok?
    ensures Stranded(RequestDisposal(s, a, seen).value, a) && ActiveOn(RequestDisposal(s, a, seen).value, l, a)
  {
    assert AssetPlaced(s, a) && LoanPlaced(s, l);
  }

  // ---- Runs that strand a loan ------------------------------------------------------------------------

  const OnShelf := Asset(Normal, Available, true)

  /** A self-service request without a due date. */
  function Request(l: LoanId, a: AssetId, borrower: UserId): Step {
    Borrow(l, a, borrower, SelfService, None, 0)
  }

  function Requested(a: AssetId, borrower: UserId): Loan {
    Loan(a, borrower, SelfService, PendingApprove, 0, None, None, 0)
  }

  /** The asset comes on the shelf and is requested. */
  lemma RequestedRun(a: AssetId, l: LoanId, borrower: UserId, rest: seq<Step>)
    ensures var s := Empty.(assets := map[a := OnShelf.(availability := Reserved)], loans := map[l := Requested(a, borrower)]);
            var steps := [Register(a, OnShelf), Request(l, a, borrower)] + rest;
            Run(Empty, steps) == Run(s, rest) && (SafeRun(Empty, steps) <==> SafeRun(s, rest))
  {
    var steps := [Register(a, OnShelf), Request(l, a, borrower)] + rest;
    var s1 := Empty.(assets := map[a := OnShelf]);
    var s2 := Empty.(assets := map[a := OnShelf.(availability := Reserved)], loans := map[l := Requested(a, borrower)]);
    assert Apply(Empty, steps[0]) == s1 && !Unsafe(Empty, steps[0]);
    assert Apply(s1, steps[1]) == s2 && !Unsafe(s1, steps[1]);
    Unfold(Empty, steps);
    Unfold(s1, steps[1..]);
    assert steps[1..][1..] == rest;
  }

  /** Three steps from an empty database. */
  lemma ReservationsDoGetStranded(a: AssetId, l: LoanId, borrower: UserId)
    ensures var s := Run(Empty, [Register(a, OnShelf), Request(l, a, borrower)] + [ProposeDisposal(a, Seen(Normal, Reserved))]);
            Stranded(s, a) && ActiveOn(s, l, a)
  {
    var s := Empty.(assets := map[a := OnShelf.(availability := Reserved)], loans := map[l := Requested(a, borrower)]);
    var last := ProposeDisposal(a, Seen(Normal, Reserved));
    RequestedRun(a, l, borrower, [last]);
    Unfold(s, [last]);
    assert Attempt(s, last) == RequestDisposal(s, a, last.seen);
  }

  /**
   * A move to LOST reads a reserved asset; the request is rejected; the cascade finds no loan; the
   * asset is requested again; the write finds what was read. The asset is lost, the second loan
   * stranded.
   */
  lemma LostStrandsALaterLoan(a: AssetId, l: LoanId, m: LoanId, tx: TxId, borrower: UserId)
    requires l != m
    ensures var before := [Register(a, OnShelf), Request(l, a, borrower)];
            var between := [Reject(l), StartLost(tx, a, Seen(Normal, Reserved)), Request(m, a, borrower)];
            var s := Run(Empty, before + between);
            var t := Apply(s, Finish(tx));
            && StillAs(Run(Empty, before), a, Seen(Normal, Reserved)) && SafeRun(Empty, before + between)
            && Unsafe(s, Finish(tx)) && a in t.assets && t.assets[a].condition.Lost? && Stranded(t, a) && ActiveOn(t, m, a)
  {
    var between := [Reject(l), StartLost(tx, a, Seen(Normal, Reserved)), Request(m, a, borrower)];
    RequestedRun(a, l, borrower, []);
    assert [Register(a, OnShelf), Request(l, a, borrower)] + [] == [Register(a, OnShelf), Request(l, a, borrower)];
    RequestedRun(a, l, borrower, between);
    var s2 := Empty.(assets := map[a := OnShelf.(availability := Reserved)], loans := map[l := Requested(a, borrower)]);
    var s5 := s2.(loans := map[l := Requested(a, borrower).(status := Rejected), m := Requested(a, borrower)],
                  pending := map[tx := LostEdit(a, Seen(Normal, Reserved), {}, map[], {})]);
    RequestedAgain(s2, a, l, m, tx, borrower, between);
    LateLoanIsStranded(s5, tx, a, m);
  }

  lemma RequestedAgain(s: World, a: AssetId, l: LoanId, m: LoanId, tx: TxId, borrower: UserId, steps: seq<Step>)
    requires l != m && steps == [Reject(l), StartLost(tx, a, Seen(Normal, Reserved)), Request(m, a, borrower)]
    requires s == Empty.(assets := map[a := OnShelf.(availability := Reserved)], loans := map[l := Requested(a, borrower)])
    ensures Run(s, steps) == s.(loans := map[l := Requested(a, borrower).(status := Rejected), m := Requested(a, borrower)],
                                pending := map[tx := LostEdit(a, Seen(Normal, Reserved), {}, map[], {})])
    ensures SafeRun(s, steps)
  {
    hide Unsafe, Apply;
    var x := LostEdit(a, Seen(Normal, Reserved), {}, map[], {});
    RejectedRun(s, a, l);
    var s1 := s.(assets := map[a := OnShelf], loans := map[l := Requested(a, borrower).(status := Rejected)]);
    var s2 := s1.(pending := map[tx := x]);
    var s3 := s2.(assets := s.assets, loans := s1.loans[m := Requested(a, borrower)]);
    assert s.assets[a := OnShelf] == s1.assets && s.loans[l := s.loans[l].(status := Rejected)] == s1.loans;
    assert s2.assets[a := OnShelf.(availability := Reserved)] == s.assets;
    assert Apply(s, steps[0]) == s1;
    CascadeFindsNothing(s1, a, tx);
    RequestAccepted(s2, a, m, borrower);
    Unfold(s, steps);
    Unfold(s1, steps[1..]);
    Unfold(s2, steps[2..]);
    assert steps[1..][1..] == steps[2..] && steps[2..][1..] == [];
    assert s1.loans[m := Requested(a, borrower)] == map[l := Requested(a, borrower).(status := Rejected), m := Requested(a, borrower)];
    assert s3 == s.(loans := s3.loans, pending := s3.pending);
  }

  lemma CascadeFindsNothing(s: World, a: AssetId, tx: TxId)
    requires s.pending == map[] && s.jobs == map[] && s.moves == map[] && a in s.assets && forall l :: !ActiveOn(s, l, a)
    ensures var step := StartLost(tx, a, Seen(Normal, Reserved));
            Apply(s, step) == s.(pending := map[tx := LostEdit(a, step.seen, {}, map[], {})]) && !Unsafe(s, step)
  {
    forall l ensures l !in ActiveLoans(s.loans, a) { assert !ActiveOn(s, l, a); }
    assert ActiveLoans(s.loans, a) == {} && Waiting(s.moves, {}) == {};
    assert Cascade(s, a, Seen(Normal, Reserved)) == LostEdit(a, Seen(Normal, Reserved), {}, map[], {});
  }

  lemma RequestAccepted(s: World, a: AssetId, l: LoanId, borrower: UserId)
    requires a in s.assets && s.assets[a] == OnShelf && l !in s.loans
    ensures Apply(s, Request(l, a, borrower)) == s.(assets := s.assets[a := OnShelf.(availability := Reserved)],
                                                    loans := s.loans[l := Requested(a, borrower)])
    ensures !Unsafe(s, Request(l, a, borrower))
  {
    NoRowsNoWait(s, Request(l, a, borrower));
  }

  lemma RejectedRun(s: World, a: AssetId, l: LoanId)
    requires s.pending == map[] && l in s.loans && s.loans[l].status.PendingApprove? && s.loans[l].asset == a
    requires a in s.assets && s.assets[a].availability.Reserved?
    ensures Apply(s, Reject(l)) == s.(assets := s.assets[a := s.assets[a].(availability := Available)],
                                      loans := s.loans[l := s.loans[l].(status := Rejected)])
    ensures !Unsafe(s, Reject(l))
  {
  }

  lemma LateLoanIsStranded(s: World, tx: TxId, a: AssetId, m: LoanId)
    requires s.pending == map[tx := LostEdit(a, Seen(Normal, Reserved), {}, map[], {})]
    requires StillAs(s, a, Seen(Normal, Reserved)) && ActiveOn(s, m, a)
    requires forall l :: l in s.loans && ActiveOn(s, l, a) ==> s.loans[l].status.PendingApprove?
    ensures var t := Apply(s, Finish(tx));
            Unsafe(s, Finish(tx)) && t.assets[a].condition.Lost? && Stranded(t, a) && ActiveOn(t, m, a)
  {
  }
}
