/** The loan and asset services as code over their tables; a transaction that throws puts back what it wrote. */
module LoanServices {
  import opened Prelude
  import opened LoanState
  import opened LoanTransactions
  import opened LoanProtocol
  import opened LoanSafety
  import opened LoanExtensions
  import opened LoanTerms

  /** A method does what its transaction says: commit the new state, or refuse and leave the old one. */
  predicate Settles(outcome: Outcome, before: World, after: World, r: Result<(), Refusal>) {
    match outcome
    case Ok(t) => r == Ok(()) && after == t
    case Err(e) => r == Err(e) && after == before
  }

  class Registry {
    var assets: map<AssetId, Asset>
    var loans: map<LoanId, Loan>
    var extensions: map<ExtensionId, Extension>
    var jobs: map<JobId, Job>
    var moves: map<nat, PartMove>
    var pending: map<TxId, Open>

    function State(): World
      reads this
    {
      World(assets, loans, extensions, jobs, moves, pending)
    }

    constructor ()
      ensures State() == Empty
    {
      assets, loans, extensions, jobs, moves, pending := map[], map[], map[], map[], map[], map[];
    }

    // ---- asset-borrow.service.ts ------------------------------------------------------------------------

    method CreateBorrow(l: LoanId, a: AssetId, borrower: UserId, source: Source, due: Option<Time>, now: Time)
      returns (r: Result<(), Refusal>)
      modifies `assets, `loans
      ensures Settles(LoanTransactions.CreateBorrow(old(State()), l, a, borrower, source, due, now), old(State()), State(), r)
      ensures r.Ok? <==> Lendable(old(State()), a) && l !in old(loans) && (due.Some? ==> now < due.value)
      ensures r.Err? ==> State() == old(State())
      ensures r.Ok? ==>
                var self := source.SelfService?;
                && loans == old(loans)[l := Loan(a, borrower, source, if self then PendingApprove else OnLoan, now,
                                                 if self then None else Some(now), due, 0)]
                && assets == old(assets)[a := old(assets)[a].(availability := if self then Reserved else Borrowed)]
      ensures r == Err(BadDate) <==> l !in old(loans) && due.Some? && due.value <= now
      ensures r == Err(NotFound) <==> l !in old(loans) && (due.Some? ==> now < due.value) && a !in old(assets)
      ensures r == Err(NotPermitted) <==> l !in old(loans) && (due.Some? ==> now < due.value) && a in old(assets) && !old(assets)[a].center
      ensures r.Err? ==> r.error in {BadDate, NotFound, NotPermitted, Conflict}
      ensures r.Ok? ==> ActiveOn(State(), l, a) && loans - {l} == old(loans) && assets - {a} == old(assets) - {a}
      ensures Inv(old(State())) ==> Inv(State()) && (r.Ok? ==> forall m :: ActiveOn(State(), m, a) ==> m == l)
    {
      hide Inv;
      ghost var step := Borrow(l, a, borrower, source, due, now);
      if Inv(State()) && Transact(State(), step).Ok? { OperationKeeps(State(), step); OneLoanEach(Transact(State(), step).value, a); }
      if l in loans { return Err(Conflict); }
      if due.Some? && due.value <= now { return Err(BadDate); }
      if a !in assets { return Err(NotFound); }
      var existing := assets[a];
      if !existing.center { return Err(NotPermitted); }
      if existing.condition != Normal || existing.availability != Available { return Err(Conflict); }
      if source.SelfService? {
        assets := assets[a := existing.(availability := Reserved)];
        loans := loans[l := Loan(a, borrower, source, PendingApprove, now, None, due, 0)];
      } else {
        assets := assets[a := existing.(availability := Borrowed)];
        loans := loans[l := Loan(a, borrower, source, OnLoan, now, Some(now), due, 0)];
      }
      return Ok(());
    }

    method ApproveBorrow(l: LoanId) returns (r: Result<(), Refusal>)
      modifies `loans
      ensures Settles(LoanTransactions.ApproveBorrow(old(State()), l), old(State()), State(), r)
      ensures r.Ok? <==> l in old(loans) && old(loans)[l].status.PendingApprove?
      ensures r == if l !in old(loans) then Err(NotFound) else if old(loans)[l].status.PendingApprove? then Ok(()) else Err(BadState)
      ensures loans == if r.Ok? then old(loans)[l := old(loans)[l].(status := Approved)] else old(loans)
      ensures Inv(old(State())) ==> Inv(State()) && (r.Ok? ==> forall now :: LoanTransactions.HandoverAsset(State(), l, now).Ok?)
    {
      if Inv(State()) && Transact(State(), Approve(l)).Ok? { OperationKeeps(State(), Approve(l)); PlacedLoan(State(), l); }
      if l !in loans { return Err(NotFound); }
      if loans[l].status != PendingApprove { return Err(BadState); }
      loans := loans[l := loans[l].(status := Approved)];
      return Ok(());
    }

    /** The optimistic half of a transition: swap the asset's availability, and say whether it was as expected. */
    method UpdateAvailability(a: AssetId, from: Availability, to: Availability) returns (changed: bool)
      modifies `assets
      ensures changed <==> a in old(assets) && old(assets)[a].availability == from
      ensures assets == if changed then old(assets)[a := old(assets)[a].(availability := to)] else old(assets)
    {
      changed := a in assets && assets[a].availability == from;
      if changed { assets := assets[a := assets[a].(availability := to)]; }
    }

    method HandoverAsset(l: LoanId, now: Time) returns (r: Result<(), Refusal>)
      modifies `assets, `loans
      ensures Settles(LoanTransactions.HandoverAsset(old(State()), l, now), old(State()), State(), r)
      ensures l in old(loans) ==>
                var loan := old(loans)[l];
                var there := loan.asset in old(assets) && old(assets)[loan.asset].availability == Reserved;
                && r == (if loan.status.Approved? then if there then Ok(()) else Err(Conflict)
                         else Err(BadState))
                && (r.Ok? ==> loans == old(loans)[l := loan.(status := OnLoan, handover := Some(now))]
                              && assets == old(assets)[loan.asset := old(assets)[loan.asset].(availability := Borrowed)])
      ensures l !in old(loans) ==> r == Err(NotFound)
      ensures r.Err? ==> State() == old(State())
    {
      if l !in loans { return Err(NotFound); }
      var transaction := loans[l];
      if transaction.status != Approved { return Err(BadState); }
      var before := loans;
      loans := loans[l := transaction.(status := OnLoan, handover := Some(now))];
      var changed := UpdateAvailability(transaction.asset, Reserved, Borrowed);
      if !changed { loans := before; return Err(Conflict); }
      return Ok(());
    }

    method RejectBorrow(l: LoanId) returns (r: Result<(), Refusal>)
      modifies `assets, `loans
      ensures Settles(LoanTransactions.RejectBorrow(old(State()), l), old(State()), State(), r)
      ensures l in old(loans) ==>
                var loan := old(loans)[l];
                var there := loan.asset in old(assets) && old(assets)[loan.asset].availability == Reserved;
                && r == (if loan.status.PendingApprove? then if there then Ok(()) else Err(Conflict)
                         else Err(BadState))
                && (r.Ok? ==> loans == old(loans)[l := loan.(status := Rejected)]
                              && assets == old(assets)[loan.asset := old(assets)[loan.asset].(availability := Available)])
      ensures l !in old(loans) ==> r == Err(NotFound)
      ensures r.Err? ==> State() == old(State())
    {
      if l !in loans { return Err(NotFound); }
      var transaction := loans[l];
      if transaction.status != PendingApprove { return Err(BadState); }
      var before := loans;
      loans := loans[l := transaction.(status := Rejected)];
      var changed := UpdateAvailability(transaction.asset, Reserved, Available);
      if !changed { loans := before; return Err(Conflict); }
      return Ok(());
    }

    method RequestReturn(l: LoanId, permitted: bool) returns (r: Result<(), Refusal>)
      modifies `assets, `loans
      ensures Settles(LoanTransactions.RequestReturn(old(State()), l, permitted), old(State()), State(), r)
      ensures l in old(loans) ==>
                var loan := old(loans)[l];
                var there := loan.asset in old(assets) && old(assets)[loan.asset].availability == Borrowed;
                && r == (if !loan.status.OnLoan? then Err(BadState) else if !permitted then Err(NotPermitted)
                         else if there then Ok(()) else Err(Conflict))
                && (r.Ok? ==> loans == old(loans)[l := loan.(status := PendingReturn)]
                              && assets == old(assets)[loan.asset := old(assets)[loan.asset].(availability := Unavailable)])
      ensures l !in old(loans) ==> r == Err(NotFound)
      ensures r.Err? ==> State() == old(State())
    {
      if l !in loans { return Err(NotFound); }
      var transaction := loans[l];
      if transaction.status != OnLoan { return Err(BadState); }
      if !permitted { return Err(NotPermitted); }
      var before := loans;
      loans := loans[l := transaction.(status := PendingReturn)];
      var changed := UpdateAvailability(transaction.asset, Borrowed, Unavailable);
      if !changed { loans := before; return Err(Conflict); }
      return Ok(());
    }

    method ClaimPickup(l: LoanId) returns (r: Result<(), Refusal>)
      modifies `loans
      ensures Settles(LoanTransactions.ClaimPickup(old(State()), l), old(State()), State(), r)
      ensures r.Ok? <==> l in old(loans) && old(loans)[l].status.PendingReturn?
      ensures r == if l !in old(loans) then Err(NotFound) else if old(loans)[l].status.PendingReturn? then Ok(()) else Err(BadState)
      ensures loans == if r.Ok? then old(loans)[l := old(loans)[l].(status := InPickup)] else old(loans)
      ensures Inv(old(State())) ==> Inv(State()) && (r.Ok? ==> forall damaged :: LoanTransactions.CompleteReturn(State(), l, damaged).Ok?)
    {
      if Inv(State()) && Transact(State(), PickUp(l)).Ok? { OperationKeeps(State(), PickUp(l)); PlacedLoan(State(), l); }
      if l !in loans { return Err(NotFound); }
      if loans[l].status != PendingReturn { return Err(BadState); }
      loans := loans[l := loans[l].(status := InPickup)];
      return Ok(());
    }

    method CompleteReturn(l: LoanId, damaged: bool) returns (r: Result<(), Refusal>)
      modifies `assets, `loans
      ensures Settles(LoanTransactions.CompleteReturn(old(State()), l, damaged), old(State()), State(), r)
      ensures l in old(loans) ==>
                var loan := old(loans)[l];
                && r == (if !loan.status.PendingReturn? && !loan.status.InPickup? then Err(BadState)
                         else if loan.asset in old(assets) then Ok(()) else Err(Conflict))
                && (r.Ok? ==> loans == old(loans)[l := loan.(status := Returned)]
                              && assets == old(assets)[loan.asset := if damaged then Asset(Damaged, Unavailable, old(assets)[loan.asset].center)
                                                                     else Asset(Normal, Available, old(assets)[loan.asset].center)])
      ensures l !in old(loans) ==> r == Err(NotFound)
      ensures r.Err? ==> State() == old(State())
    {
      if l !in loans { return Err(NotFound); }
      var transaction := loans[l];
      if transaction.status != InPickup && transaction.status != PendingReturn { return Err(BadState); }
      var before := loans;
      loans := loans[l := transaction.(status := Returned)];
      if transaction.asset !in assets { loans := before; return Err(Conflict); }
      var asset := assets[transaction.asset];
      if damaged {
        assets := assets[transaction.asset := asset.(availability := Unavailable, condition := Damaged)];
      } else {
        assets := assets[transaction.asset := asset.(availability := Available, condition := Normal)];
      }
      return Ok(());
    }

    method ReturnAsset(l: LoanId, damaged: bool, permitted: bool) returns (r: Result<(), Refusal>)
      modifies `assets, `loans
      ensures Settles(ReturnAtDesk(old(State()), l, damaged, permitted), old(State()), State(), r)
      ensures l in old(loans) ==>
                var loan := old(loans)[l];
                var there := loan.asset in old(assets) && old(assets)[loan.asset].availability == Borrowed;
                && r == (if !loan.status.OnLoan? then Err(BadState) else if !permitted then Err(NotPermitted)
                         else if there then Ok(()) else Err(Conflict))
                && (r.Ok? ==>
                      var asset := old(assets)[loan.asset];
                      && loans == old(loans)[l := loan.(status := Returned)]
                      && assets == old(assets)[loan.asset := if damaged then Asset(Damaged, Unavailable, asset.center)
                                                             else Asset(asset.condition, Available, asset.center)])
      ensures l !in old(loans) ==> r == Err(NotFound)
      ensures r.Err? ==> State() == old(State())
    {
      if l !in loans { return Err(NotFound); }
      var transaction := loans[l];
      if transaction.status != OnLoan { return Err(BadState); }
      if !permitted { return Err(NotPermitted); }
      var before := loans;
      loans := loans[l := transaction.(status := Returned)];
      var a := transaction.asset;
      if a !in assets || assets[a].availability != Borrowed { loans := before; return Err(Conflict); }
      if damaged {
        assets := assets[a := assets[a].(availability := Unavailable, condition := Damaged)];
      } else {
        assets := assets[a := assets[a].(availability := Available)];
      }
      return Ok(());
    }

    method CancelBorrow(l: LoanId, staff: bool, related: bool) returns (r: Result<(), Refusal>)
      modifies `assets, `loans
      ensures Settles(LoanTransactions.CancelBorrow(old(State()), l, staff, related), old(State()), State(), r)
      ensures l in old(loans) ==>
                var loan := old(loans)[l];
                var there := loan.asset in old(assets) && old(assets)[loan.asset].availability == Reserved;
                && r == (if !loan.status.PendingApprove? && !(loan.status.Approved? && staff) then Err(BadState)
                         else if !staff && !related then Err(NotPermitted) else if there then Ok(()) else Err(Conflict))
                && (r.Ok? ==> loans == old(loans)[l := loan.(status := Cancelled)]
                              && assets == old(assets)[loan.asset := old(assets)[loan.asset].(availability := Available)])
      ensures l !in old(loans) ==> r == Err(NotFound)
      ensures r.Err? ==> State() == old(State())
    {
      if l !in loans { return Err(NotFound); }
      var transaction := loans[l];
      if transaction.status == OnLoan { return Err(BadState); }
      if !staff && transaction.status == Approved { return Err(BadState); }
      if transaction.status != Approved && transaction.status != PendingApprove { return Err(BadState); }
      if !staff && !related { return Err(NotPermitted); }
      var before := loans;
      loans := loans[l := transaction.(status := Cancelled)];
      var changed := UpdateAvailability(transaction.asset, Reserved, Available);
      if !changed { loans := before; return Err(Conflict); }
      return Ok(());
    }

    /** Read and judge, then write; `gap` is what others do in between. */
    method CreateExtension(tx: TxId, e: ExtensionId, l: LoanId, to: Time, desk: bool, permitted: bool, now: Time, gap: seq<Step>)
      returns (r: Result<(), Refusal>)
      requires OthersThan(tx, gap)
      modifies this
      ensures var began := BeginExtension(old(State()), tx, e, l, to, desk, permitted, now);
              if began.Err? then r == Err(began.error) && State() == old(State())
              else var u := Run(began.value, gap);
                   && Ends(u, tx, State())
                   && (r.Ok? <==> !Waits(u, Finish(tx)) && e !in u.extensions && l in u.loans)
                   && (HistoryOk(old(State())) && FreshRun(began.value, gap) ==> (HistoryOk(State()) <==> !Stale(u, Finish(tx))))
      ensures r.Ok? ==> l in old(loans) && old(loans)[l].status.OnLoan? && !RequestWaits(old(State()), l)
                        && now < to && RunsTo(old(loans)[l]) < to && (desk || permitted)
      ensures r.Ok? ==>
                && l in old(loans) && ExtensionAnswer(old(State()), tx, l, to, desk, permitted, now, Ok(())) && e in extensions
                && extensions[e] == Extension(l, desk, if desk then Granted else AwaitingReview, old(loans)[l].extensionCount + 1,
                                              RunsTo(old(loans)[l]), to)
                && (desk ==> l in loans && loans[l].due == Some(to) && loans[l].extensionCount == old(loans)[l].extensionCount + 1)
      ensures gap == [] ==> ExtensionAnswer(old(State()), tx, l, to, desk, permitted, now, r) || (r.Err? && r.error in {Conflict, Busy})
      ensures gap == [] && r.Ok? ==>
                var loan := old(loans)[l];
                && extensions - {e} == old(extensions)
                && loans == if desk then old(loans)[l := loan.(due := Some(to), extensionCount := loan.extensionCount + 1)] else old(loans)
      ensures gap == [] && r.Err? ==> extensions == old(extensions) && loans == old(loans)
      ensures HistoryOk(old(State())) && gap == [] ==> HistoryOk(State())
    {
      hide HistoryOk, FreshRun, Stale, Run, Waits, Rows, OthersThan, HasPendingExtension, RequestWaits, ExtensionAnswer, RunsTo,
           BeginExtension, Commit;
      ghost var step := StartExtension(tx, e, l, to, desk, permitted, now);
      StartsDoNotWait(State(), step);
      r := JudgeExtension(tx, e, l, to, desk, permitted, now);
      if r.Err? { return; }
      if gap == [] { RunNothing(State()); }
      PendingStaysOver(State(), gap, tx);
      RunOthers(gap);
      r := WriteExtension(tx);
      if HistoryOk(old(State())) { HistoryAcross(old(State()), step, gap, State()); }
    }

    method JudgeExtension(tx: TxId, e: ExtensionId, l: LoanId, to: Time, desk: bool, permitted: bool, now: Time)
      returns (r: Result<(), Refusal>)
      modifies `pending
      ensures Settles(BeginExtension(old(State()), tx, e, l, to, desk, permitted, now), old(State()), State(), r)
      ensures ExtensionAnswer(old(State()), tx, l, to, desk, permitted, now, r)
      ensures r.Ok? ==> l in loans && loans[l].status.OnLoan? && !RequestWaits(old(State()), l) && now < to && RunsTo(loans[l]) < to
                        && (desk || permitted) && r == Ok(())
      ensures r.Ok? ==>
                pending == old(pending)[tx := Extending(e, Extension(l, desk, if desk then Granted else AwaitingReview,
                                                        loans[l].extensionCount + 1, RunsTo(loans[l]), to))]
    {
      if tx in pending { return Err(Conflict); }
      if to <= now { return Err(BadDate); }
      if l !in loans { return Err(NotFound); }
      var transaction := loans[l];
      if transaction.status != OnLoan { return Err(BadState); }
      if HasPendingExtension(State(), l) { return Err(Conflict); }
      var current := if transaction.due.Some? then transaction.due.value
                     else if transaction.handover.Some? then transaction.handover.value
                     else transaction.createdAt;
      if to <= current { return Err(BadDate); }
      if !desk && !permitted { return Err(NotPermitted); }
      var row := Extension(l, desk, if desk then Granted else AwaitingReview, transaction.extensionCount + 1, current, to);
      pending := pending[tx := Extending(e, row)];
      return Ok(());
    }

    method WriteExtension(tx: TxId) returns (r: Result<(), Refusal>)
      requires tx in pending && pending[tx].Extending?
      modifies `extensions, `loans, `pending
      ensures Ends(old(State()), tx, State())
      ensures r.Ok? <==> !Waits(old(State()), Finish(tx)) && old(pending)[tx].id !in old(extensions) && old(pending)[tx].row.loan in old(loans)
      ensures r.Ok? ==>
                var Extending(e, x) := old(pending)[tx];
                && extensions == old(extensions)[e := x]
                && loans == if x.desk then old(loans)[x.loan := old(loans)[x.loan].(due := Some(x.to), extensionCount := x.round)]
                            else old(loans)
      ensures r == Ok(()) || (r.Err? && r.error in {Busy, Conflict})
      ensures r.Err? ==> extensions == old(extensions) && loans == old(loans)
    {
      hide Waits;
      var waits := Waits(State(), Finish(tx));
      var (e, x) := (pending[tx].id, pending[tx].row);
      pending := pending - {tx};
      if waits { return Err(Busy); }
      if e in extensions || x.loan !in loans { return Err(Conflict); }
      extensions := extensions[e := x];
      if x.desk { loans := loans[x.loan := loans[x.loan].(due := Some(x.to), extensionCount := x.round)]; }
      return Ok(());
    }

    method ReviewExtension(e: ExtensionId, approve: bool, hasReason: bool) returns (r: Result<(), Refusal>)
      modifies `extensions, `loans
      ensures Settles(LoanTransactions.ReviewExtension(old(State()), e, approve, hasReason), old(State()), State(), r)
      ensures e in old(extensions) ==>
                var x := old(extensions)[e];
                && r == (if !x.status.AwaitingReview? then Err(BadState)
                         else if approve && x.loan !in old(loans) then Err(NotFound)
                         else if !approve && !hasReason then Err(ReasonMissing) else Ok(()))
                && (r.Ok? && approve ==>
                      && extensions == old(extensions)[e := x.(status := Granted)]
                      && loans == old(loans)[x.loan := old(loans)[x.loan].(due := Some(x.to),
                                                       extensionCount := old(loans)[x.loan].extensionCount + 1)])
                && (r.Ok? && !approve ==> extensions == old(extensions)[e := x.(status := Declined)] && loans == old(loans))
      ensures e !in old(extensions) ==> r == Err(NotFound)
      ensures r.Err? ==> State() == old(State())
    {
      if e !in extensions { return Err(NotFound); }
      var extension := extensions[e];
      if extension.status != AwaitingReview { return Err(BadState); }
      if approve {
        var before := extensions;
        extensions := extensions[e := extension.(status := Granted)];
        if extension.loan !in loans { extensions := before; return Err(NotFound); }
        var transaction := loans[extension.loan];
        loans := loans[extension.loan := transaction.(due := Some(extension.to), extensionCount := transaction.extensionCount + 1)];
      } else {
        if !hasReason { return Err(ReasonMissing); }
        extensions := extensions[e := extension.(status := Declined)];
      }
      return Ok(());
    }

    /** Read and judge, then write; `gap` is what others do in between. */
    method CancelExtension(tx: TxId, e: ExtensionId, permitted: bool, gap: seq<Step>) returns (r: Result<(), Refusal>)
      requires OthersThan(tx, gap)
      modifies this
      ensures var began := BeginWithdrawal(old(State()), tx, e, permitted);
              if began.Err? then r == Err(began.error) && State() == old(State())
              else r == Ok(()) && State() == CommitWithdrawal(Unlisted(Run(began.value, gap), tx), e)
      ensures r.Ok? <==> tx !in old(pending) && e in old(extensions) && old(extensions)[e].status.AwaitingReview? && permitted
      ensures r == if tx in old(pending) then Err(Conflict) else if e !in old(extensions) then Err(NotFound)
                   else if !old(extensions)[e].status.AwaitingReview? then Err(BadState) else if !permitted then Err(NotPermitted) else Ok(())
      ensures r.Ok? ==> e in extensions && extensions[e].status.Withdrawn?
      ensures gap == [] ==>
                loans == old(loans)
                && extensions == if r.Ok? then old(extensions)[e := old(extensions)[e].(status := Withdrawn)] else old(extensions)
      ensures HistoryOk(old(State())) && gap == [] ==> HistoryOk(State())
    {
      hide HistoryOk, FreshRun, Stale, Waits, Rows, OthersThan, Run;
      ghost var step := StartWithdrawal(tx, e, permitted);
      StartsDoNotWait(State(), step);
      r := JudgeWithdrawal(tx, e, permitted);
      if r.Err? { return; }
      if gap == [] { RunNothing(State()); }
      ExtensionsStay(State(), gap, e);
      PendingStaysOver(State(), gap, tx);
      RunOthers(gap);
      WithdrawalsDoNotWait(State(), tx);
      WriteWithdrawal(tx, e);
      if HistoryOk(old(State())) { HistoryAcross(old(State()), step, gap, State()); }
    }

    method JudgeWithdrawal(tx: TxId, e: ExtensionId, permitted: bool) returns (r: Result<(), Refusal>)
      modifies `pending
      ensures Settles(BeginWithdrawal(old(State()), tx, e, permitted), old(State()), State(), r)
      ensures r == if tx in old(pending) then Err(Conflict) else if e !in extensions then Err(NotFound)
                   else if !extensions[e].status.AwaitingReview? then Err(BadState) else if !permitted then Err(NotPermitted) else Ok(())
      ensures pending == if r.Ok? then old(pending)[tx := Withdrawing(e)] else old(pending)
    {
      if tx in pending { return Err(Conflict); }
      if e !in extensions { return Err(NotFound); }
      if extensions[e].status != AwaitingReview { return Err(BadState); }
      if !permitted { return Err(NotPermitted); }
      pending := pending[tx := Withdrawing(e)];
      return Ok(());
    }

    method WriteWithdrawal(tx: TxId, e: ExtensionId)
      requires tx in pending && pending[tx] == Withdrawing(e) && e in extensions
      modifies `pending, `extensions
      ensures State() == CommitWithdrawal(Unlisted(old(State()), tx), e)
      ensures pending == old(pending) - {tx} && extensions == old(extensions)[e := old(extensions)[e].(status := Withdrawn)]
    {
      pending := pending - {tx};
      extensions := extensions[e := extensions[e].(status := Withdrawn)];
    }

    // ---- asset.service.ts ---------------------------------------------------------------------------------

    /** The jobs open on the asset, closed one by one, and their waiting withdrawals, deleted; none visible yet. */
    method CascadeCancelActiveRepairJobs(a: AssetId) returns (closed: map<JobId, Job>, dropped: set<nat>)
      ensures closed == map j | j in OpenJobs(jobs, a) :: Closed(jobs[j])
      ensures dropped == Waiting(moves, OpenJobs(jobs, a))
      ensures forall j :: (j in closed <==> UnderWay(jobs, j, a)) && (j in closed ==> closed[j] == Noted(jobs[j], AUTO_CANCEL_REPAIR_NOTE))
      ensures forall m :: m in dropped <==> AwaitsParts(moves, jobs, m, a)
    {
      var active := OpenJobs(jobs, a);
      var rest := active;
      closed := map[];
      while rest != {}
        invariant rest <= active
        invariant closed.Keys == active - rest
        invariant forall j :: j in closed ==> closed[j] == Closed(jobs[j])
        decreases |rest|
      {
        var j :| j in rest;
        rest := rest - {j};
        var job := jobs[j];
        var solution := if job.solution.Some? && job.solution.value != "" then job.solution.value + "\n" + AUTO_CANCEL_REPAIR_NOTE
                        else AUTO_CANCEL_REPAIR_NOTE;
        closed := closed[j := job.(status := CancelledJob, solution := Some(solution))];
      }
      dropped := {};
      if active != {} { dropped := Waiting(moves, active); }
    }

    /** The first statements of a move to LOST. */
    method CascadeLost(tx: TxId, a: AssetId, seen: Seen) returns (r: Result<(), Refusal>)
      modifies `pending
      ensures Settles(BeginLost(old(State()), tx, a, seen), old(State()), State(), r)
      ensures r == if tx in old(pending) then Err(Conflict) else if a !in assets then Err(NotFound)
                   else if Refuses(seen, Lost) || !Cascades(seen, Lost) then Err(BadState) else Ok(())
      ensures r.Ok? ==>
                && tx in pending && pending == old(pending)[tx := pending[tx]] && pending[tx].LostEdit?
                && var x := pending[tx];
                   && x.asset == a && x.seen == seen
                   && (forall l :: l in x.loans <==> seen.availability in {Reserved, Borrowed} && ActiveOn(State(), l, a))
                   && (forall j :: j in x.jobs <==> seen.condition.UnderRepair? && UnderWay(jobs, j, a))
                   && (forall j :: j in x.jobs ==> x.jobs[j] == Noted(jobs[j], AUTO_CANCEL_REPAIR_NOTE))
                   && (forall m :: m in x.moves <==> seen.condition.UnderRepair? && AwaitsParts(moves, jobs, m, a))
    {
      if tx in pending { return Err(Conflict); }
      if a !in assets { return Err(NotFound); }
      if EditRefused(seen, Lost) || !NeedsCascade(seen, Lost) { return Err(BadState); }
      var cancelled := {};
      if LendsOut(seen.availability) { cancelled := set l | l in loans && loans[l].asset == a && Active(loans[l].status); }
      var closed, dropped := map[], {};
      if seen.condition.UnderRepair? { closed, dropped := CascadeCancelActiveRepairJobs(a); }
      assert Waiting(moves, {}) == {} && LostEdit(a, seen, cancelled, closed, dropped) == Cascade(State(), a, seen);
      pending := pending[tx := LostEdit(a, seen, cancelled, closed, dropped)];
      return Ok(());
    }

    /** Its last: the guarded write, and with it the commit, or the rollback. */
    method WriteLost(tx: TxId) returns (r: Result<(), Refusal>)
      requires tx in pending && pending[tx].LostEdit?
      modifies `assets, `loans, `jobs, `moves, `pending
      ensures Ends(old(State()), tx, State())
      ensures r.Ok? <==> LostCommits(old(State()), tx)
    {
      hide Waits, CommitLost;
      var waits := Waits(State(), Finish(tx));
      var x := pending[tx];
      pending := pending - {tx};
      if waits { return Err(Busy); }
      r := WriteGuarded(x);
    }

    method WriteGuarded(x: Open) returns (r: Result<(), Refusal>)
      requires x.LostEdit?
      modifies `assets, `loans, `jobs, `moves
      ensures State() == CommitLost(old(State()), x)
      ensures r == if Unmoved(old(State()), x.asset, x.seen) then Ok(()) else Err(Conflict)
      ensures r.Err? ==> State() == old(State())
      ensures r.Ok? ==>
                && assets == old(assets)[x.asset := Edited(old(assets)[x.asset], Lost)]
                && jobs == old(jobs) + x.jobs
                && (forall m :: m in moves <==> m in old(moves) && m !in x.moves)
                && (forall m :: m in moves ==> moves[m] == old(moves)[m])
                && loans.Keys == old(loans).Keys
                && (forall l :: l in loans ==>
                      loans[l] == if l in x.loans && x.seen.availability in {Reserved, Borrowed} && ActiveOn(old(State()), l, x.asset)
                                  then old(loans)[l].(status := Cancelled) else old(loans)[l])
    {
      if x.asset !in assets { return Err(Conflict); }
      var asset := assets[x.asset];
      if asset.condition != x.seen.condition || asset.availability != x.seen.availability { return Err(Conflict); }
      var written := WithCascade(State(), x);
      loans, jobs, moves := written.loans, written.jobs, written.moves;
      assets := assets[x.asset := asset.(condition := Lost,
                                         availability := if x.seen.condition.Lost? then asset.availability else Unavailable)];
      return Ok(());
    }

    /** An edit that needs no cascade: one guarded write. */
    method WriteEdit(a: AssetId, seen: Seen, target: Condition) returns (r: Result<(), Refusal>)
      requires a in assets && !EditRefused(seen, target) && !NeedsCascade(seen, target)
      modifies `assets
      ensures Settles(EditStatus(old(State()), a, seen, target), old(State()), State(), r)
      ensures r == if Unmoved(old(State()), a, seen) then Ok(()) else Err(Conflict)
      ensures assets == if r.Ok? then old(assets)[a := Edited(old(assets)[a], target)] else old(assets)
    {
      EditWrites(State(), a, seen, target);
      hide EditStatus, EditRefused, NeedsCascade;
      var asset := assets[a];
      if asset.condition != seen.condition || asset.availability != seen.availability { return Err(Conflict); }
      assets := assets[a := asset.(condition := target,
                                   availability := if target == seen.condition then asset.availability else ConsistentAvailability(target))];
      return Ok(());
    }

    /** The transaction of a status edit; `seen` was read before it began, and `gap` falls between its statements. */
    method CommitStatus(tx: TxId, a: AssetId, seen: Seen, target: Condition, gap: seq<Step>) returns (r: Result<(), Refusal>)
      requires a in assets && !EditRefused(seen, target) && OthersThan(tx, gap)
      modifies this
      ensures !NeedsCascade(seen, target) ==> Settles(EditStatus(old(State()), a, seen, target), old(State()), State(), r)
      ensures NeedsCascade(seen, target) ==>
                var began := Attempt(old(State()), StartLost(tx, a, seen));
                if began.Err? then r == Err(began.error) && State() == old(State())
                else Ends(Run(began.value, gap), tx, State()) && (r.Ok? <==> LostCommits(Run(began.value, gap), tx))
      ensures !Cascades(seen, target) ==>
                && r == (if Unmoved(old(State()), a, seen) then Ok(()) else Err(Conflict))
                && State() == old(State()).(assets := assets)
                && assets == if r.Ok? then old(assets)[a := Edited(old(assets)[a], target)] else old(assets)
      ensures Cascades(seen, target) <==> NeedsCascade(seen, target)
      ensures r.Ok? ==> a in assets && assets[a].condition == target
      ensures r.Ok? && NeedsCascade(seen, target) && LendsOut(seen.availability) ==>
                forall l :: ActiveOn(State(), l, a) ==> l !in old(loans)
    {
      hide Attempt, Ends, LostCommits, Run, EditStatus, ActiveOn, OthersThan, Settles;
      if !NeedsCascade(seen, target) {
        r := WriteEdit(a, seen, target);
        if r.Ok? { EditedAsAsked(old(State()), a, seen, target, State(), r); }
      } else {
        r := LostInTwo(tx, a, seen, gap);
      }
    }

    method LostInTwo(tx: TxId, a: AssetId, seen: Seen, gap: seq<Step>) returns (r: Result<(), Refusal>)
      requires OthersThan(tx, gap)
      modifies this
      ensures var began := Attempt(old(State()), StartLost(tx, a, seen));
              if began.Err? then r == Err(began.error) && State() == old(State())
              else Ends(Run(began.value, gap), tx, State()) && (r.Ok? <==> LostCommits(Run(began.value, gap), tx))
      ensures r.Ok? ==> a in assets && assets[a].condition.Lost?
      ensures r.Ok? && LendsOut(seen.availability) ==> forall l :: ActiveOn(State(), l, a) ==> l !in old(loans)
    {
      hide Waits, Run, OthersThan, ActiveOn, LostCommits;
      if Waits(State(), StartLost(tx, a, seen)) { return Err(Busy); }
      r := CascadeLost(tx, a, seen);
      if r.Err? { return; }
      PendingStaysOver(State(), gap, tx);
      RunOthers(gap);
      r := WriteLost(tx);
      if r.Ok? { LaterLoansOnly(old(State()), tx, a, seen, gap, State()); }
    }

    /**
     * Read, judge the transition, then commit. `others` run between the read and the transaction, `gap`
     * between its two statements. A move to LOST of a lent asset that is reported done leaves active
     * only loans opened during the gap.
     */
    method UpdateStatus(tx: TxId, a: AssetId, target: Condition, others: seq<Step>, gap: seq<Step>) returns (r: Result<(), Refusal>)
      requires OthersThan(tx, gap)
      modifies this
      ensures r == Err(NotFound) <== a !in old(assets)
      ensures a !in old(assets) ==> State() == old(State())
      ensures a in old(assets) ==>
                var seen := Seen(old(assets)[a].condition, old(assets)[a].availability);
                var before := Run(old(State()), others);
                if Refuses(seen, target) then r == Err(BadState) && State() == old(State())
                else && (!Cascades(seen, target) ==>
                           && r == (if Unmoved(before, a, seen) then Ok(()) else Err(Conflict))
                           && State() == before.(assets := if r.Ok? then before.assets[a := Edited(before.assets[a], target)]
                                                           else before.assets))
                     && (Cascades(seen, target) <==> NeedsCascade(seen, target))
                     && (NeedsCascade(seen, target) || Settles(EditStatus(before, a, seen, target), before, State(), r))
                     && (NeedsCascade(seen, target) ==>
                           var began := Attempt(before, StartLost(tx, a, seen));
                           if began.Err? then r == Err(began.error) && State() == before
                           else Ends(Run(began.value, gap), tx, State()) && (r.Ok? <==> LostCommits(Run(began.value, gap), tx)))
                     && (r.Ok? ==> a in assets && assets[a].condition == target)
                     && (r.Ok? && target.Lost? && LendsOut(seen.availability) ==>
                           forall l :: ActiveOn(State(), l, a) ==> l !in before.loans)
    {
      hide EditStatus, Attempt, Ends, LostCommits, Run, Edited;
      if a !in assets { return Err(NotFound); }
      var seen := Seen(assets[a].condition, assets[a].availability);
      if target != seen.condition && seen.condition !in AllowedFrom(target) { return Err(BadState); }
      if GuardedWhileLent(seen.availability, target) { return Err(BadState); }
      AssetsStay(State(), others, a);
      RunOthers(others);
      r := CommitStatus(tx, a, seen, target, gap);
    }

    method CreateDisposal(a: AssetId, seen: Seen) returns (r: Result<(), Refusal>)
      modifies `assets
      ensures Settles(LoanTransactions.CreateDisposal(old(State()), a, seen), old(State()), State(), r)
      ensures r == if a !in old(assets) then Err(NotFound)
                   else if seen.availability in {Reserved, Borrowed} || seen.condition in {Disposal, Lost} then Err(BadState)
                   else if Unmoved(old(State()), a, seen) then Ok(()) else Err(Conflict)
      ensures r.Err? ==> State() == old(State())
      ensures r.Ok? ==> assets - {a} == old(assets) - {a} && a in assets
                        && assets[a] == old(assets)[a].(condition := Disposal, availability := Unavailable)
      ensures Inv(old(State())) ==> Inv(State()) && (r.Ok? ==> forall l :: ActiveOn(State(), l, a) ==> Stage(loans[l].status) in {3, 4})
    {
      DisposalsAreSafe(State(), a, seen);
      if a !in assets { return Err(NotFound); }
      if LendsOut(seen.availability) { return Err(BadState); }
      if seen.condition !in AllowedFrom(Disposal) { return Err(BadState); }
      var asset := assets[a];
      if asset.condition != seen.condition || asset.availability != seen.availability { return Err(Conflict); }
      assets := assets[a := asset.(condition := Disposal, availability := Unavailable)];
      return Ok(());
    }

    method CreateTransfer(a: AssetId, seen: Seen, same: bool, center: bool) returns (r: Result<(), Refusal>)
      modifies `assets
      ensures Settles(LoanTransactions.CreateTransfer(old(State()), a, seen, same, center), old(State()), State(), r)
      ensures r == if a !in old(assets) then Err(NotFound)
                   else if seen.condition in {Disposal, UnderRepair} || seen.availability.Borrowed? || same then Err(BadState)
                   else if Unmoved(old(State()), a, seen) then Ok(()) else Err(Conflict)
      ensures assets == if r.Ok? then old(assets)[a := old(assets)[a].(center := center)] else old(assets)
    {
      if a !in assets { return Err(NotFound); }
      if seen.condition.Disposal? { return Err(BadState); }
      if seen.availability.Borrowed? { return Err(BadState); }
      if seen.condition.UnderRepair? { return Err(BadState); }
      if same { return Err(BadState); }
      var asset := assets[a];
      if asset.condition != seen.condition || asset.availability != seen.availability { return Err(Conflict); }
      assets := assets[a := asset.(center := center)];
      return Ok(());
    }

    /** The recommendation screen's disposal, with others between its read and its write. */
    method RequestDisposal(a: AssetId, others: seq<Step>) returns (r: Result<(), Refusal>)
      modifies this
      ensures a in old(assets) && r.Ok? ==>
                var seen := Seen(old(assets)[a].condition, old(assets)[a].availability);
                Ok(State()) == LoanTransactions.RequestDisposal(Run(old(State()), others), a, seen)
      ensures r.Err? ==> State() == old(State())
      ensures r == if a !in old(assets) then Err(NotFound)
                   else if old(assets)[a].condition in {Disposal, Lost, WaitDisposal} || old(assets)[a].availability.Borrowed?
                   then Err(BadState) else Ok(())
      ensures r.Ok? ==>
                var u := Run(old(State()), others);
                a in u.assets && State() == u.(assets := u.assets[a := Asset(WaitDisposal, Unavailable, u.assets[a].center)])
    {
      if a !in assets { return Err(NotFound); }
      var asset := assets[a];
      if asset.condition.Disposal? || asset.condition.Lost? || asset.condition.WaitDisposal? { return Err(BadState); }
      if asset.availability.Borrowed? { return Err(BadState); }
      hide Run;
      AssetsStay(State(), others, a);
      RunOthers(others);
      assets := assets[a := assets[a].(condition := WaitDisposal, availability := Unavailable)];
      return Ok(());
    }

    // ---- Other processes -------------------------------------------------------------------------------------

    method RunOthers(steps: seq<Step>)
      modifies this
      ensures State() == Run(old(State()), steps)
      decreases |steps|
    {
      hide Apply;
      if steps != [] {
        Perform(steps[0]);
        RunOthers(steps[1..]);
      }
    }

    method Perform(step: Step)
      modifies this
      ensures State() == Apply(old(State()), step)
    {
      if Waits(State(), step) { return; }
      hide Transact, Waits;
      if LoanOperation(step) { PerformOperation(step); } else { PerformOther(step); }
    }

    method PerformOperation(step: Step)
      requires LoanOperation(step)
      modifies this
      ensures State() == Done(old(State()), step)
    {
      match step
      case Borrow(l, a, borrower, source, due, now) => var _ := CreateBorrow(l, a, borrower, source, due, now);
      case Approve(l) => var _ := ApproveBorrow(l);
      case HandOver(l, now) => var _ := HandoverAsset(l, now);
      case Reject(l) => var _ := RejectBorrow(l);
      case AskReturn(l, permitted) => var _ := RequestReturn(l, permitted);
      case PickUp(l) => var _ := ClaimPickup(l);
      case FinishReturn(l, damaged) => var _ := CompleteReturn(l, damaged);
      case DeskReturn(l, damaged, permitted) => var _ := ReturnAsset(l, damaged, permitted);
      case Cancel(l, staff, related) => var _ := CancelBorrow(l, staff, related);
    }

    method PerformOther(step: Step)
      requires !LoanOperation(step)
      modifies this
      ensures State() == Done(old(State()), step)
    {
      match step
      case Register(a, row) => if a !in assets { assets := assets[a := row]; }
      case RepairWork(newJobs, newMoves) => jobs, moves := newJobs, newMoves;
      case Edit(a, seen, target) => AtOnce(a, seen, target);
      case Dispose(a, seen) => var _ := CreateDisposal(a, seen);
      case ProposeDisposal(a, seen) =>
        if LoanTransactions.RequestDisposal(State(), a, seen).Ok? {
          assets := assets[a := assets[a].(condition := WaitDisposal, availability := Unavailable)];
        }
      case Transfer(a, seen, same, center) => var _ := CreateTransfer(a, seen, same, center);
      case Relocate(a, center) => if a in assets { assets := assets[a := assets[a].(center := center)]; }
      case Review(e, approve, hasReason) => var _ := ReviewExtension(e, approve, hasReason);
      case StartLost(tx, a, seen) => var _ := CascadeLost(tx, a, seen);
      case StartExtension(tx, e, l, to, desk, permitted, now) =>
        var _ := JudgeExtension(tx, e, l, to, desk, permitted, now);
      case StartWithdrawal(tx, e, permitted) =>
        if BeginWithdrawal(State(), tx, e, permitted).Ok? { pending := pending[tx := Withdrawing(e)]; }
      case Finish(tx) => End(tx);
      case GiveUp(tx) => pending := pending - {tx};
    }

    /** An edit whose image update holds the asset's row from the start. */
    method AtOnce(a: AssetId, seen: Seen, target: Condition)
      modifies `assets, `loans, `jobs, `moves
      ensures State() == if EditStatus(old(State()), a, seen, target).Ok? then EditStatus(old(State()), a, seen, target).value else old(State())
    {
      var outcome := EditStatus(State(), a, seen, target);
      if outcome.Ok? { assets, loans, jobs, moves := outcome.value.assets, outcome.value.loans, outcome.value.jobs, outcome.value.moves; }
    }

    method End(tx: TxId)
      modifies `assets, `loans, `extensions, `jobs, `moves, `pending
      ensures State() == if Commit(old(State()), tx).Ok? then Commit(old(State()), tx).value else old(State())
    {
      var outcome := Commit(State(), tx);
      if outcome.Ok? {
        assets, loans, extensions := outcome.value.assets, outcome.value.loans, outcome.value.extensions;
        jobs, moves, pending := outcome.value.jobs, outcome.value.moves, outcome.value.pending;
      }
    }
  }

  /** A step that need not wait. */
  function Done(s: World, step: Step): World {
    if Transact(s, step).Ok? then Transact(s, step).value else s
  }

  function Unlisted(s: World, tx: TxId): World {
    s.(pending := s.pending - {tx})
  }

  /** The last statement commits, or times out waiting for a row and is rolled back. */
  predicate Ends(u: World, tx: TxId, t: World) {
    tx in u.pending && t == if Waits(u, Finish(tx)) then Unlisted(u, tx) else Commit(u, tx).value
  }

  lemma OneLoanEach(s: World, a: AssetId)
    requires Inv(s)
    ensures forall l, m :: ActiveOn(s, l, a) && ActiveOn(s, m, a) ==> l == m
  {
    assert AssetPlaced(s, a);
  }

  lemma PlacedLoan(s: World, l: LoanId)
    requires Inv(s)
    ensures LoanPlaced(s, l)
  {
  }

  lemma DisposalsAreSafe(s: World, a: AssetId, seen: Seen)
    ensures Inv(s) && LoanTransactions.CreateDisposal(s, a, seen).Ok? ==>
              var t := LoanTransactions.CreateDisposal(s, a, seen).value;
              Inv(t) && forall l :: ActiveOn(t, l, a) ==> Stage(t.loans[l].status) in {3, 4}
  {
    if Inv(s) && LoanTransactions.CreateDisposal(s, a, seen).Ok? {
      var t := LoanTransactions.CreateDisposal(s, a, seen).value;
      NoRowsNoWait(s, Dispose(a, seen));
      DisposalKeepsExactly(s, Dispose(a, seen));
      assert t == Apply(s, Dispose(a, seen));
      forall l | ActiveOn(t, l, a) ensures Stage(t.loans[l].status) in {3, 4} { assert LoanPlaced(t, l); }
    }
  }

  lemma EditWrites(s: World, a: AssetId, seen: Seen, target: Condition)
    requires a in s.assets && !EditRefused(seen, target) && !NeedsCascade(seen, target)
    ensures EditStatus(s, a, seen, target) ==
              if Unmoved(s, a, seen) then Ok(SetAsset(s, a, Edited(s.assets[a], target))) else Err(Conflict)
  {
    hide Cascade, WithCascade, AllowedFrom, GuardedWhileLent;
    NoCascadeNeeded(s, a, seen, target);
  }

  lemma NoCascadeNeeded(s: World, a: AssetId, seen: Seen, target: Condition)
    requires !NeedsCascade(seen, target)
    ensures StillAs(s, a, seen) && target.Lost? ==> WithCascade(s, Cascade(s, a, seen)) == s
  {
    var x := Cascade(s, a, seen);
    if target.Lost? { assert s.jobs + x.jobs == s.jobs && WithCascade(s, x).moves == s.moves; }
  }

  lemma {:induction false} PendingStaysOver(s: World, steps: seq<Step>, tx: TxId)
    requires tx in s.pending && OthersThan(tx, steps)
    ensures tx in Run(s, steps).pending && Run(s, steps).pending[tx] == s.pending[tx]
    decreases |steps|
  {
    hide Apply;
    if steps != [] {
      PendingStays(s, steps[0], tx);
      PendingStaysOver(Apply(s, steps[0]), steps[1..], tx);
    }
  }

  lemma ExtensionsStayForOne(s: World, step: Step, e: ExtensionId)
    requires e in s.extensions
    ensures e in Apply(s, step).extensions
  {
    if !LeavesDates(s, step) { hide Waits, EditRefused; } else { hide Apply; NoExtensionsTouched(s, step); }
  }

  lemma {:induction false} ExtensionsStay(s: World, steps: seq<Step>, e: ExtensionId)
    requires e in s.extensions
    ensures e in Run(s, steps).extensions
    decreases |steps|
  {
    hide Apply;
    if steps != [] {
      ExtensionsStayForOne(s, steps[0], e);
      ExtensionsStay(Apply(s, steps[0]), steps[1..], e);
    }
  }

  lemma RunNothing(s: World)
    ensures Run(s, []) == s
  {
  }

  lemma StartsDoNotWait(s: World, step: Step)
    requires step.StartExtension? || step.StartWithdrawal?
    ensures !Waits(s, step)
  {
    NoRowsNoWait(s, step);
  }

  lemma WithdrawalsDoNotWait(s: World, tx: TxId)
    requires tx in s.pending && s.pending[tx].Withdrawing?
    ensures !Waits(s, Finish(tx))
  {
    NoRowsNoWait(s, Finish(tx));
  }

  /** A request's commit, or its rollback, keeps the history exactly when it is not stale. */
  lemma HistoryAcross(s: World, step: Step, gap: seq<Step>, t: World)
    requires (step.StartExtension? || step.StartWithdrawal?) && Attempt(s, step).Ok? && HistoryOk(s)
    requires Ends(Run(Apply(s, step), gap), step.tx, t)
    ensures FreshRun(Apply(s, step), gap) ==> (HistoryOk(t) <==> !Stale(Run(Apply(s, step), gap), Finish(step.tx)))
    ensures gap == [] ==> HistoryOk(t)
  {
    hide HistoryOk, Waits, StaleWrite, Transact, FreshRun;
    StartsNothingStale(s, step);
    StepKeepsHistory(s, step);
    CommitsAtOnceAreFresh(s, step);
    var u := Run(Apply(s, step), gap);
    if gap == [] || FreshRun(Apply(s, step), gap) {
      if gap != [] { FreshRunsKeepHistory(Apply(s, step), gap); }
      EndKeeps(u, step.tx);
      StepKeepsHistory(u, Finish(step.tx));
      EndsAsApplied(u, step.tx, t);
    }
  }

  lemma EndsAsApplied(u: World, tx: TxId, t: World)
    requires Ends(u, tx, t)
    ensures if Waits(u, Finish(tx)) then t == Unlisted(u, tx) && !Stale(u, Finish(tx)) else t == Apply(u, Finish(tx))
  {
    hide Waits;
  }

  lemma LaterLoansOnly(s: World, tx: TxId, a: AssetId, seen: Seen, gap: seq<Step>, t: World)
    requires Attempt(s, StartLost(tx, a, seen)).Ok? && OthersThan(tx, gap)
    requires var u := Run(Apply(s, StartLost(tx, a, seen)), gap); Ends(u, tx, t) && LostCommits(u, tx)
    ensures a in t.assets && t.assets[a].condition.Lost?
    ensures LendsOut(seen.availability) ==> forall l :: ActiveOn(t, l, a) ==> l !in s.loans
  {
    hide Apply, Attempt, OthersThan, ActiveOn, Waits;
    var u := Run(Apply(s, StartLost(tx, a, seen)), gap);
    CommitsDoNotWait(u, tx);
    EndsAsApplied(u, tx, t);
    hide Run, LostCommits, Ends;
    LostLeavesExactlyLaterLoans(s, tx, a, seen, gap, "");
    forall l | LendsOut(seen.availability) && ActiveOn(t, l, a) ensures l !in s.loans {
      LostLeavesExactlyLaterLoans(s, tx, a, seen, gap, l);
    }
  }

  lemma CommitsDoNotWait(u: World, tx: TxId)
    requires LostCommits(u, tx)
    ensures !Waits(u, Finish(tx))
  {
    hide Waits, Transact;
  }

  lemma EditedAsAsked(s: World, a: AssetId, seen: Seen, target: Condition, t: World, r: Result<(), Refusal>)
    requires Settles(EditStatus(s, a, seen, target), s, t, r) && r.Ok?
    ensures a in t.assets && t.assets[a].condition == target
  {
    hide WithCascade, Cascade;
  }

  lemma AssetsStayForOne(s: World, step: Step, a: AssetId)
    requires a in s.assets
    ensures a in Apply(s, step).assets
  {
    hide Waits, Rows, Cascade, EditRefused, NeedsCascade, HasPendingExtension, CancelLoans, Benchmark;
  }

  lemma {:induction false} AssetsStay(s: World, steps: seq<Step>, a: AssetId)
    requires a in s.assets
    ensures a in Run(s, steps).assets
    decreases |steps|
  {
    hide Apply;
    if steps != [] {
      AssetsStayForOne(s, steps[0], a);
      AssetsStay(Apply(s, steps[0]), steps[1..], a);
    }
  }
}
