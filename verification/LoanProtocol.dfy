/**
 * Every interleaving of loan operations, status edits, disposals, transfers, extensions and repair
 * work, down to the statements of those transactions that rely on what they did not lock. A step
 * whose transaction is refused, or which waits for a row another transaction holds, changes nothing.
 */
module LoanProtocol {
  import opened Prelude
  import opened LoanState
  import opened LoanTransactions

  datatype Step =
    | Register(asset: AssetId, row: Asset)
    | RepairWork(jobs: map<JobId, Job>, moves: map<nat, PartMove>)
    | Borrow(loan: LoanId, asset: AssetId, borrower: UserId, source: Source, due: Option<Time>, now: Time)
    | Approve(loan: LoanId)
    | HandOver(loan: LoanId, now: Time)
    | Reject(loan: LoanId)
    | AskReturn(loan: LoanId, permitted: bool)
    | PickUp(loan: LoanId)
    | FinishReturn(loan: LoanId, damaged: bool)
    | DeskReturn(loan: LoanId, damaged: bool, permitted: bool)
    | Cancel(loan: LoanId, staff: bool, related: bool)
    | Edit(asset: AssetId, seen: Seen, target: Condition)
    | Dispose(asset: AssetId, seen: Seen)
    | ProposeDisposal(asset: AssetId, seen: Seen)
    | Transfer(asset: AssetId, seen: Seen, same: bool, center: bool)
    | Relocate(asset: AssetId, center: bool)
    | Review(extension: ExtensionId, approve: bool, hasReason: bool)
    | StartLost(tx: TxId, asset: AssetId, seen: Seen)
    | StartExtension(tx: TxId, extension: ExtensionId, loan: LoanId, to: Time, desk: bool, permitted: bool, now: Time)
    | StartWithdrawal(tx: TxId, extension: ExtensionId, permitted: bool)
    | Finish(tx: TxId)
    | GiveUp(tx: TxId)

  function Transact(s: World, step: Step): Outcome {
    match step
    case Register(a, row) => CreateAsset(s, a, row)
    case RepairWork(jobs, moves) => Ok(s.(jobs := jobs, moves := moves))
    case Borrow(l, a, borrower, source, due, now) => CreateBorrow(s, l, a, borrower, source, due, now)
    case Approve(l) => ApproveBorrow(s, l)
    case HandOver(l, now) => HandoverAsset(s, l, now)
    case Reject(l) => RejectBorrow(s, l)
    case AskReturn(l, permitted) => RequestReturn(s, l, permitted)
    case PickUp(l) => ClaimPickup(s, l)
    case FinishReturn(l, damaged) => CompleteReturn(s, l, damaged)
    case DeskReturn(l, damaged, permitted) => ReturnAtDesk(s, l, damaged, permitted)
    case Cancel(l, staff, related) => CancelBorrow(s, l, staff, related)
    case Edit(a, seen, target) => EditStatus(s, a, seen, target)
    case Dispose(a, seen) => CreateDisposal(s, a, seen)
    case ProposeDisposal(a, seen) => RequestDisposal(s, a, seen)
    case Transfer(a, seen, same, center) => CreateTransfer(s, a, seen, same, center)
    case Relocate(a, center) => UpdateSection(s, a, center)
    case Review(e, approve, hasReason) => ReviewExtension(s, e, approve, hasReason)
    case StartLost(tx, a, seen) => BeginLost(s, tx, a, seen)
    case StartExtension(tx, e, l, to, desk, permitted, now) => BeginExtension(s, tx, e, l, to, desk, permitted, now)
    case StartWithdrawal(tx, e, permitted) => BeginWithdrawal(s, tx, e, permitted)
    case Finish(tx) => Commit(s, tx)
    case GiveUp(tx) => Abort(s, tx)
  }

  // ---- Row locks ---------------------------------------------------------------------------------

  /** The rows a step writes, among those that a move to LOST may hold. */
  function Rows(s: World, step: Step): (set<LoanId>, set<JobId>, set<nat>) {
    match step
    case RepairWork(jobs, moves) =>
      ({}, set j | j in s.jobs && (j !in jobs || jobs[j] != s.jobs[j]), set m | m in s.moves && (m !in moves || moves[m] != s.moves[m]))
    case Review(e, approve, _) => (if approve && e in s.extensions then {s.extensions[e].loan} else {}, {}, {})
    case Edit(a, seen, target) => if target.Lost? then RowsOf(Cascade(s, a, seen)) else ({}, {}, {})
    case StartLost(_, a, seen) => RowsOf(Cascade(s, a, seen))
    case Finish(tx) => if tx in s.pending then RowsOf(s.pending[tx]) else ({}, {}, {})
    case Approve(l) => ({l}, {}, {})
    case HandOver(l, _) => ({l}, {}, {})
    case Reject(l) => ({l}, {}, {})
    case AskReturn(l, _) => ({l}, {}, {})
    case PickUp(l) => ({l}, {}, {})
    case FinishReturn(l, _) => ({l}, {}, {})
    case DeskReturn(l, _, _) => ({l}, {}, {})
    case Cancel(l, _, _) => ({l}, {}, {})
    case _ => ({}, {}, {})
  }

  function RowsOf(x: Open): (set<LoanId>, set<JobId>, set<nat>) {
    match x
    case LostEdit(_, _, loans, jobs, moves) => (loans, jobs.Keys, moves)
    case Extending(_, row) => (if row.desk then {row.loan} else {}, {}, {})
    case Withdrawing(_) => ({}, {}, {})
  }

  /** The step is `tx`'s own. */
  predicate Owns(step: Step, tx: TxId) {
    (step.StartLost? || step.StartExtension? || step.StartWithdrawal? || step.Finish? || step.GiveUp?) && step.tx == tx
  }

  /** Another transaction has written, and not yet committed, a row this step writes. */
  predicate Waits(s: World, step: Step) {
    exists tx :: tx in s.pending && !Owns(step, tx) && s.pending[tx].LostEdit? && Meets(Rows(s, step), RowsOf(s.pending[tx]))
  }

  predicate Meets(x: (set<LoanId>, set<JobId>, set<nat>), y: (set<LoanId>, set<JobId>, set<nat>)) {
    !(x.0 !! y.0 && x.1 !! y.1 && x.2 !! y.2)
  }

  /** A step that need not wait writes no row that another transaction holds. */
  lemma RowsAreFree(s: World, step: Step, tx: TxId)
    requires !Waits(s, step) && tx in s.pending && !Owns(step, tx) && s.pending[tx].LostEdit?
    ensures var (loans, jobs, moves) := Rows(s, step);
            loans !! s.pending[tx].loans && jobs !! s.pending[tx].jobs.Keys && moves !! s.pending[tx].moves
  {
    hide Rows;
    assert !Meets(Rows(s, step), RowsOf(s.pending[tx]));
  }

  lemma NoRowsNoWait(s: World, step: Step)
    requires Rows(s, step) == ({}, {}, {})
    ensures !Waits(s, step)
  {
  }

  function Attempt(s: World, step: Step): Outcome {
    if Waits(s, step) then Err(Busy) else Transact(s, step)
  }

  function Apply(s: World, step: Step): World {
    if Attempt(s, step).Ok? then Attempt(s, step).value else s
  }

  /** What an edit's step or a last statement's step does, if it does anything. */
  lemma EditOrFinishApplied(s: World, step: Step)
    requires step.Edit? || step.Finish?
    ensures var t := Apply(s, step);
            || t == s
            || (step.Edit? && EditStatus(s, step.asset, step.seen, step.target) == Ok(t))
            || (step.Finish? && Commit(s, step.tx) == Ok(t))
  {
    hide Waits, EditStatus, Commit;
  }

  function Run(s: World, steps: seq<Step>): World
    decreases |steps|
  {
    if steps == [] then s else Run(Apply(s, steps[0]), steps[1..])
  }

  // ---- The loan invariant ----------------------------------------------------------------------

  predicate ActiveOn(s: World, l: LoanId, a: AssetId) {
    l in s.loans && s.loans[l].asset == a && Active(s.loans[l].status)
  }

  /** An active loan's asset exists and is where the loan says. */
  predicate LoanPlaced(s: World, l: LoanId) {
    l in s.loans ==>
      && s.loans[l].asset in s.assets
      && (Active(s.loans[l].status) ==> s.assets[s.loans[l].asset].availability == AvailabilityFor(s.loans[l].status))
  }

  /** No asset is lent twice, and one that is out is in good condition and really is on loan. */
  ghost predicate AssetPlaced(s: World, a: AssetId) {
    && (forall l, m :: ActiveOn(s, l, a) && ActiveOn(s, m, a) ==> l == m)
    && (a in s.assets && LendsOut(s.assets[a].availability) ==>
          s.assets[a].condition.Normal? && exists l :: l in s.loans && ActiveOn(s, l, a))
  }

  ghost predicate Inv(s: World) {
    && (forall l :: l in s.loans ==> LoanPlaced(s, l))
    && (forall a :: AssetPlaced(s, a))
  }

  // ---- The steps that break it -------------------------------------------------------------------

  /**
   * What a caller could look up before the step: an edit that puts an asset back into service while
   * its loan waits to be picked up; a move to LOST about to commit over a loan its cascade did not
   * cancel; a disposal proposal for an asset reserved or on loan; an asset registered as already
   * lent out.
   */
  predicate Unsafe(s: World, step: Step) {
    Attempt(s, step).Ok?
    && match step
       case Edit(a, seen, target) =>
         target.Normal? && !seen.condition.Normal? && exists l :: l in s.loans && ActiveOn(s, l, a)
       case Finish(tx) => CommitsOver(s, tx)
       case ProposeDisposal(a, _) => LendsOut(s.assets[a].availability)
       case Register(_, row) => LendsOut(row.availability)
       case _ => false
  }

  /** The move to LOST will go through, and an active loan on its asset is not one it cancelled. */
  predicate CommitsOver(s: World, tx: TxId) {
    tx in s.pending && s.pending[tx].LostEdit?
    && var x := s.pending[tx];
       StillAs(s, x.asset, x.seen) && LendsOut(x.seen.availability)
       && exists l :: l in s.loans && ActiveOn(s, l, x.asset) && l !in x.loans
  }

  predicate SafeRun(s: World, steps: seq<Step>)
    decreases |steps|
  {
    steps == [] || (!Unsafe(s, steps[0]) && SafeRun(Apply(s, steps[0]), steps[1..]))
  }

  lemma Unfold(s: World, steps: seq<Step>)
    requires steps != []
    ensures Run(s, steps) == Run(Apply(s, steps[0]), steps[1..])
    ensures SafeRun(s, steps) <==> !Unsafe(s, steps[0]) && SafeRun(Apply(s, steps[0]), steps[1..])
  {
    hide Apply, Unsafe;
  }

  // ---- Preservation -------------------------------------------------------------------------------

  /** A write to one asset, and to at most one loan on it, leaves every other pair alone. */
  lemma OtherAssetsKeep(s: World, t: World, a: AssetId, b: AssetId)
    requires AssetPlaced(s, b) && a != b
    requires forall c :: c != a ==> (c in s.assets <==> c in t.assets) && (c in s.assets ==> t.assets[c] == s.assets[c])
    requires forall l :: (ActiveOn(s, l, b) <==> ActiveOn(t, l, b))
    ensures AssetPlaced(t, b)
  {
  }

  /** One loan on `a` and `a` itself change together. */
  lemma PairKeeps(s: World, l: LoanId, loan: Loan, asset: Asset)
    requires Inv(s) && loan.asset in s.assets
    requires l in s.loans ==> s.loans[l].asset == loan.asset
    requires Active(loan.status) ==> asset.availability == AvailabilityFor(loan.status)
    requires LendsOut(asset.availability) ==> asset.condition.Normal? && Active(loan.status)
    requires forall m :: ActiveOn(s, m, loan.asset) ==> m == l
    ensures Inv(SetLoan(SetAsset(s, loan.asset, asset), l, loan))
  {
    var a := loan.asset;
    var t := SetLoan(SetAsset(s, a, asset), l, loan);
    forall m | m in t.loans ensures LoanPlaced(t, m) {
      assert m != l ==> LoanPlaced(s, m);
      assert m != l && m in s.loans && s.loans[m].asset == a ==> !ActiveOn(s, m, a);
    }
    forall b ensures AssetPlaced(t, b) {
      assert AssetPlaced(s, b);
      if b == a {
        assert forall m :: ActiveOn(t, m, a) ==> m == l || ActiveOn(s, m, a);
        if LendsOut(asset.availability) { assert ActiveOn(t, l, a); }
      } else {
        forall m ensures ActiveOn(s, m, b) <==> ActiveOn(t, m, b) { }
        OtherAssetsKeep(s, t, a, b);
      }
    }
  }

  /** A write to an asset alone keeps the invariant exactly when it fits the loans that stand. */
  lemma AssetWriteKeeps(s: World, a: AssetId, asset: Asset)
    requires Inv(s) && a in s.assets
    ensures Inv(SetAsset(s, a, asset)) <==>
              && (forall l :: ActiveOn(s, l, a) ==> asset.availability == AvailabilityFor(s.loans[l].status))
              && (LendsOut(asset.availability) ==> asset.condition.Normal? && exists l :: ActiveOn(s, l, a))
  {
    var t := SetAsset(s, a, asset);
    assert forall l, b :: ActiveOn(t, l, b) <==> ActiveOn(s, l, b);
    if Inv(t) {
      forall l | ActiveOn(s, l, a) ensures asset.availability == AvailabilityFor(s.loans[l].status) { assert LoanPlaced(t, l); }
      assert AssetPlaced(t, a);
    }
    if && (forall l :: ActiveOn(s, l, a) ==> asset.availability == AvailabilityFor(s.loans[l].status))
       && (LendsOut(asset.availability) ==> asset.condition.Normal? && exists l :: ActiveOn(s, l, a)) {
      forall l | l in t.loans ensures LoanPlaced(t, l) {
        assert LoanPlaced(s, l);
        assert s.loans[l].asset == a && Active(s.loans[l].status) ==> ActiveOn(s, l, a);
      }
      forall b ensures AssetPlaced(t, b) {
        assert AssetPlaced(s, b);
        if b != a { OtherAssetsKeep(s, t, a, b); }
      }
    }
  }

  predicate LoanOperation(step: Step) {
    step.Borrow? || step.Approve? || step.HandOver? || step.Reject? || step.AskReturn?
    || step.PickUp? || step.FinishReturn? || step.DeskReturn? || step.Cancel?
  }

  /** What a loan operation writes if it goes through: its loan and its loan's asset, together and in step. */
  lemma OperationWrites(s: World, step: Step)
    requires LoanOperation(step) && Transact(s, step).Ok? && LoanPlaced(s, step.loan)
    requires forall a :: a in s.assets && LendsOut(s.assets[a].availability) ==> s.assets[a].condition.Normal?
    ensures var t := Transact(s, step).value;
            && step.loan in t.loans
            && var loan := t.loans[step.loan];
               && loan.asset in s.assets && loan.asset in t.assets
               && t == SetLoan(SetAsset(s, loan.asset, t.assets[loan.asset]), step.loan, loan)
               && (Active(loan.status) ==> t.assets[loan.asset].availability == AvailabilityFor(loan.status))
               && (LendsOut(t.assets[loan.asset].availability) ==> t.assets[loan.asset].condition.Normal? && Active(loan.status))
               && (if step.loan in s.loans then s.loans[step.loan].asset == loan.asset && Active(s.loans[step.loan].status)
                   else s.assets[loan.asset].availability.Available?)
  {
  }

  lemma OperationKeeps(s: World, step: Step)
    requires Inv(s) && LoanOperation(step) && Transact(s, step).Ok?
    ensures Inv(Transact(s, step).value)
  {
    hide Transact;
    var t := Transact(s, step).value;
    var l := step.loan;
    if l !in s.loans { assert LoanPlaced(s, l); }
    forall a | a in s.assets && LendsOut(s.assets[a].availability) ensures s.assets[a].condition.Normal? { assert AssetPlaced(s, a); }
    OperationWrites(s, step);
    var loan := t.loans[l];
    assert AssetPlaced(s, loan.asset);
    if l in s.loans { assert ActiveOn(s, l, loan.asset); }
    forall m | ActiveOn(s, m, loan.asset) ensures m == l { assert LoanPlaced(s, m); }
    PairKeeps(s, l, loan, t.assets[loan.asset]);
  }

  lemma LoanStepKeeps(s: World, step: Step)
    requires Inv(s) && LoanOperation(step)
    ensures Inv(Apply(s, step))
  {
    hide Inv, Transact, Waits;
    if Transact(s, step).Ok? { OperationKeeps(s, step); }
  }

  /** The invariant looks at the assets, and at whose loan is in which status. */
  lemma SameLoansSameInvariant(s: World, t: World)
    requires Inv(s) && t.assets == s.assets && t.loans.Keys == s.loans.Keys
    requires forall l :: l in s.loans ==> t.loans[l].asset == s.loans[l].asset && t.loans[l].status == s.loans[l].status
    ensures Inv(t)
  {
    forall l | l in t.loans ensures LoanPlaced(t, l) { assert LoanPlaced(s, l); }
    forall a ensures AssetPlaced(t, a) {
      assert AssetPlaced(s, a);
      assert forall l :: ActiveOn(t, l, a) <==> ActiveOn(s, l, a);
    }
  }

  /** Extensions, repair work and transactions still under way do not touch who has what. */
  lemma SideStepKeeps(s: World, step: Step)
    requires Inv(s) && (step.RepairWork? || step.Review? || step.StartLost? || step.StartExtension? || step.StartWithdrawal? || step.GiveUp?)
    ensures Inv(Apply(s, step))
  {
    hide Waits, Cascade;
    SameLoansSameInvariant(s, Apply(s, step));
  }

  /** Moving an asset to another section does not touch who has it. */
  lemma MoveKeeps(s: World, step: Step)
    requires Inv(s) && (step.Transfer? || step.Relocate?)
    ensures Inv(Apply(s, step))
  {
    hide Waits;
    var a := step.asset;
    if a in s.assets {
      assert AssetPlaced(s, a);
      forall l | ActiveOn(s, l, a) ensures LoanPlaced(s, l) { }
      AssetWriteKeeps(s, a, s.assets[a].(center := step.center));
    }
  }

  /**
   * Cancelling some loans on an asset and taking it out of reach keeps the invariant exactly when
   * every loan left active is one whose asset is out of reach anyway.
   */
  lemma CascadeKeepsExactly(s: World, a: AssetId, ls: set<LoanId>, asset: Asset)
    requires Inv(s) && a in s.assets && !LendsOut(asset.availability)
    ensures Inv(SetAsset(s.(loans := CancelLoans(s.loans, a, ls)), a, asset)) <==>
              forall l :: ActiveOn(s, l, a) && l !in ls ==> asset.availability == AvailabilityFor(s.loans[l].status)
  {
    var t := SetAsset(s.(loans := CancelLoans(s.loans, a, ls)), a, asset);
    if Inv(t) {
      forall l | ActiveOn(s, l, a) && l !in ls ensures asset.availability == AvailabilityFor(s.loans[l].status) { assert LoanPlaced(t, l); }
    }
    if forall l :: ActiveOn(s, l, a) && l !in ls ==> asset.availability == AvailabilityFor(s.loans[l].status) {
      forall l | l in t.loans ensures LoanPlaced(t, l) {
        assert LoanPlaced(s, l);
        assert s.loans[l].asset == a && Active(s.loans[l].status) ==> ActiveOn(s, l, a);
      }
      forall b ensures AssetPlaced(t, b) {
        assert AssetPlaced(s, b);
        if b != a {
          assert forall l :: ActiveOn(t, l, b) <==> ActiveOn(s, l, b);
          OtherAssetsKeep(s, t, a, b);
        } else {
          assert forall l :: ActiveOn(t, l, a) ==> ActiveOn(s, l, a);
        }
      }
    }
  }

  /** A move to LOST that goes through: it leaves the invariant exactly when it leaves no loan behind. */
  lemma LostKeepsExactly(s: World, x: Open)
    requires Inv(s) && x.LostEdit? && StillAs(s, x.asset, x.seen)
    ensures Inv(CommitLost(s, x)) <==>
              !LendsOut(x.seen.availability) || forall l :: ActiveOn(s, l, x.asset) ==> l in x.loans
  {
    var a := x.asset;
    var t := CommitLost(s, x);
    var ls := if LendsOut(x.seen.availability) then x.loans else {};
    assert AssetPlaced(s, a);
    forall l | ActiveOn(s, l, a) ensures AvailabilityFor(s.loans[l].status) == x.seen.availability { assert LoanPlaced(s, l); }
    var u := SetAsset(s.(loans := CancelLoans(s.loans, a, ls)), a, t.assets[a]);
    assert !LendsOut(x.seen.availability) ==> CancelLoans(s.loans, a, {}) == s.loans;
    assert u.loans == t.loans;
    CascadeKeepsExactly(s, a, ls, t.assets[a]);
    if Inv(t) { SameLoansSameInvariant(t, u); }
    if Inv(u) { SameLoansSameInvariant(u, t); }
  }

  lemma EditKeepsExactly(s: World, a: AssetId, seen: Seen, target: Condition)
    requires Inv(s) && Attempt(s, Edit(a, seen, target)).Ok?
    ensures Inv(EditStatus(s, a, seen, target).value) <==> !Unsafe(s, Edit(a, seen, target))
  {
    hide Waits, CancelLoans;
    var t := EditStatus(s, a, seen, target).value;
    if target.Lost? {
      LostKeepsExactly(s, Cascade(s, a, seen));
      LostAtOnce(s, a, seen);
    } else {
      assert AssetPlaced(s, a);
      forall l | ActiveOn(s, l, a) ensures LoanPlaced(s, l) { }
      AssetWriteKeeps(s, a, t.assets[a]);
    }
  }

  lemma FinishKeepsExactly(s: World, tx: TxId)
    requires Inv(s)
    ensures Inv(Apply(s, Finish(tx))) <==> !Unsafe(s, Finish(tx))
  {
    hide Waits, CancelLoans;
    if Attempt(s, Finish(tx)).Ok? {
      var rest := s.(pending := s.pending - {tx});
      SameLoansSameInvariant(s, rest);
      var x := s.pending[tx];
      if x.LostEdit? {
        if StillAs(s, x.asset, x.seen) {
          LostKeepsExactly(rest, x);
          assert forall l :: ActiveOn(rest, l, x.asset) <==> ActiveOn(s, l, x.asset);
        }
      } else {
        SameLoansSameInvariant(rest, Apply(s, Finish(tx)));
      }
    }
  }

  lemma RegisterKeepsExactly(s: World, a: AssetId, row: Asset)
    requires Inv(s) && a !in s.assets
    ensures Inv(SetAsset(s, a, row)) <==> !LendsOut(row.availability)
  {
    var t := SetAsset(s, a, row);
    forall l ensures !ActiveOn(t, l, a) { if l in s.loans { assert LoanPlaced(s, l); } }
    if Inv(t) { assert AssetPlaced(t, a); }
    if !LendsOut(row.availability) {
      forall l | l in t.loans ensures LoanPlaced(t, l) { assert LoanPlaced(s, l); }
      forall b ensures AssetPlaced(t, b) {
        assert AssetPlaced(s, b);
        if b != a {
          assert forall l :: ActiveOn(t, l, b) <==> ActiveOn(s, l, b);
          OtherAssetsKeep(s, t, a, b);
        }
      }
    }
  }

  lemma DisposalKeepsExactly(s: World, step: Step)
    requires Inv(s) && (step.Dispose? || step.ProposeDisposal?)
    ensures Inv(Apply(s, step)) <==> !Unsafe(s, step)
  {
    if Attempt(s, step).Ok? {
      var a := step.asset;
      assert AssetPlaced(s, a);
      forall l | ActiveOn(s, l, a) ensures LoanPlaced(s, l) { }
      AssetWriteKeeps(s, a, Apply(s, step).assets[a]);
    }
  }

  /** A step breaks the loan invariant exactly when it is one of the unsafe ones. */
  lemma StepKeepsExactly(s: World, step: Step)
    requires Inv(s)
    ensures Inv(Apply(s, step)) <==> !Unsafe(s, step)
  {
    hide Waits;
    if step.Edit? {
      if Attempt(s, step).Ok? { EditKeepsExactly(s, step.asset, step.seen, step.target); }
    } else if step.Finish? {
      FinishKeepsExactly(s, step.tx);
    } else if step.Transfer? || step.Relocate? {
      MoveKeeps(s, step);
    } else if step.Dispose? || step.ProposeDisposal? {
      DisposalKeepsExactly(s, step);
    } else if step.Register? {
      if Attempt(s, step).Ok? { RegisterKeepsExactly(s, step.asset, step.row); }
    } else if LoanOperation(step) {
      LoanStepKeeps(s, step);
    } else {
      SideStepKeeps(s, step);
    }
  }

  /** The first unsafe step of a run, and nothing before it, breaks the invariant. */
  lemma {:induction false} SafeRunsKeep(s: World, steps: seq<Step>)
    requires Inv(s) && SafeRun(s, steps)
    ensures Inv(Run(s, steps))
    decreases |steps|
  {
    hide Inv;
    if steps != [] {
      StepKeepsExactly(s, steps[0]);
      SafeRunsKeep(Apply(s, steps[0]), steps[1..]);
    }
  }
}
