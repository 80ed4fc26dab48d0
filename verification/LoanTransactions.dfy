/**
 * The transactions of the loan and asset services. `Err` is the exception the service throws, which
 * rolls its transaction back; `Ok` carries the committed state. They run at PostgreSQL's default
 * isolation, where each statement sees what others have committed so far. One whose every write is
 * guarded by what it relies on, or by a row it has locked, is one function; the others are split.
 */
module LoanTransactions {
  import opened Prelude
  import opened LoanState

  type Outcome = Result<World, Refusal>

  function SetLoan(s: World, l: LoanId, loan: Loan): World {
    s.(loans := s.loans[l := loan])
  }

  function SetAsset(s: World, a: AssetId, asset: Asset): World {
    s.(assets := s.assets[a := asset])
  }

  function SetPending(s: World, tx: TxId, x: Open): World {
    s.(pending := s.pending[tx := x])
  }

  /** Move the asset's availability if it is still `from`; a miss refuses the whole transaction. */
  function SwapAvailability(s: World, a: AssetId, from: Availability, to: Asset): Outcome {
    if a !in s.assets || s.assets[a].availability != from then Err(Conflict) else Ok(SetAsset(s, a, to))
  }

  // ---- Loans --------------------------------------------------------------------------------

  function CreateBorrow(s: World, l: LoanId, a: AssetId, borrower: UserId, source: Source, due: Option<Time>, now: Time): Outcome {
    if l in s.loans then Err(Conflict)
    else if due.Some? && due.value <= now then Err(BadDate)
    else if a !in s.assets then Err(NotFound)
    else if !s.assets[a].center then Err(NotPermitted)
    else if !s.assets[a].condition.Normal? || !s.assets[a].availability.Available? then Err(Conflict)
    else
      var self := source.SelfService?;
      var loan := Loan(a, borrower, source, if self then PendingApprove else OnLoan, now, if self then None else Some(now), due, 0);
      Ok(SetLoan(SetAsset(s, a, s.assets[a].(availability := if self then Reserved else Borrowed)), l, loan))
  }

  function ApproveBorrow(s: World, l: LoanId): Outcome {
    if l !in s.loans then Err(NotFound)
    else if !s.loans[l].status.PendingApprove? then Err(BadState)
    else Ok(SetLoan(s, l, s.loans[l].(status := Approved)))
  }

  function HandoverAsset(s: World, l: LoanId, now: Time): Outcome {
    if l !in s.loans then Err(NotFound)
    else if !s.loans[l].status.Approved? then Err(BadState)
    else
      var a := s.loans[l].asset;
      if a !in s.assets then Err(Conflict)
      else SwapAvailability(SetLoan(s, l, s.loans[l].(status := OnLoan, handover := Some(now))), a, Reserved,
                            s.assets[a].(availability := Borrowed))
  }

  function RejectBorrow(s: World, l: LoanId): Outcome {
    if l !in s.loans then Err(NotFound)
    else if !s.loans[l].status.PendingApprove? then Err(BadState)
    else
      var a := s.loans[l].asset;
      if a !in s.assets then Err(Conflict)
      else SwapAvailability(SetLoan(s, l, s.loans[l].(status := Rejected)), a, Reserved, s.assets[a].(availability := Available))
  }

  function RequestReturn(s: World, l: LoanId, permitted: bool): Outcome {
    if l !in s.loans then Err(NotFound)
    else if !s.loans[l].status.OnLoan? then Err(BadState)
    else if !permitted then Err(NotPermitted)
    else
      var a := s.loans[l].asset;
      if a !in s.assets then Err(Conflict)
      else SwapAvailability(SetLoan(s, l, s.loans[l].(status := PendingReturn)), a, Borrowed,
                            s.assets[a].(availability := Unavailable))
  }

  function ClaimPickup(s: World, l: LoanId): Outcome {
    if l !in s.loans then Err(NotFound)
    else if !s.loans[l].status.PendingReturn? then Err(BadState)
    else Ok(SetLoan(s, l, s.loans[l].(status := InPickup)))
  }

  /** The asset is written whatever it has become in the meantime. */
  function CompleteReturn(s: World, l: LoanId, damaged: bool): Outcome {
    if l !in s.loans then Err(NotFound)
    else if !s.loans[l].status.InPickup? && !s.loans[l].status.PendingReturn? then Err(BadState)
    else
      var a := s.loans[l].asset;
      if a !in s.assets then Err(Conflict)
      else
        var back := if damaged then s.assets[a].(condition := Damaged, availability := Unavailable)
                    else s.assets[a].(condition := Normal, availability := Available);
        Ok(SetAsset(SetLoan(s, l, s.loans[l].(status := Returned)), a, back))
  }

  function ReturnAtDesk(s: World, l: LoanId, damaged: bool, permitted: bool): Outcome {
    if l !in s.loans then Err(NotFound)
    else if !s.loans[l].status.OnLoan? then Err(BadState)
    else if !permitted then Err(NotPermitted)
    else
      var a := s.loans[l].asset;
      if a !in s.assets then Err(Conflict)
      else
        var back := if damaged then s.assets[a].(condition := Damaged, availability := Unavailable)
                    else s.assets[a].(availability := Available);
        SwapAvailability(SetLoan(s, l, s.loans[l].(status := Returned)), a, Borrowed, back)
  }

  function CancelBorrow(s: World, l: LoanId, staff: bool, related: bool): Outcome {
    if l !in s.loans then Err(NotFound)
    else
      var loan := s.loans[l];
      if loan.status.OnLoan? || (!staff && loan.status.Approved?) then Err(BadState)
      else if !loan.status.Approved? && !loan.status.PendingApprove? then Err(BadState)
      else if !staff && !related then Err(NotPermitted)
      else if loan.asset !in s.assets then Err(Conflict)
      else SwapAvailability(SetLoan(s, l, loan.(status := Cancelled)), loan.asset, Reserved,
                            s.assets[loan.asset].(availability := Available))
  }

  // ---- Extensions ----------------------------------------------------------------------------

  predicate HasPendingExtension(s: World, l: LoanId) {
    exists e :: e in s.extensions && s.extensions[e].loan == l && s.extensions[e].status.AwaitingReview?
  }

  /** The date an extension starts from. */
  function Benchmark(loan: Loan): Time {
    if loan.due.Some? then loan.due.value
    else if loan.handover.Some? then loan.handover.value
    else loan.createdAt
  }

  /** Read the loan and judge the request; its rows are written by `CommitExtension`. */
  function BeginExtension(s: World, tx: TxId, e: ExtensionId, l: LoanId, to: Time, desk: bool, permitted: bool, now: Time): Outcome {
    if tx in s.pending then Err(Conflict)
    else if to <= now then Err(BadDate)
    else if l !in s.loans then Err(NotFound)
    else if !s.loans[l].status.OnLoan? then Err(BadState)
    else if HasPendingExtension(s, l) then Err(Conflict)
    else if to <= Benchmark(s.loans[l]) then Err(BadDate)
    else if !desk && !permitted then Err(NotPermitted)
    else
      var round := s.loans[l].extensionCount + 1;
      Ok(SetPending(s, tx, Extending(e, Extension(l, desk, if desk then Granted else AwaitingReview, round, Benchmark(s.loans[l]), to))))
  }

  /** The rows as prepared, whatever has become of the loan since; a desk request also moves its date. */
  function CommitExtension(s: World, e: ExtensionId, x: Extension): World {
    if e in s.extensions || x.loan !in s.loans then s
    else if x.desk then
      s.(extensions := s.extensions[e := x],
         loans := s.loans[x.loan := s.loans[x.loan].(due := Some(x.to), extensionCount := x.round)])
    else s.(extensions := s.extensions[e := x])
  }

  /** A review looks at the request only, not at what has become of the loan. */
  function ReviewExtension(s: World, e: ExtensionId, approve: bool, hasReason: bool): Outcome {
    if e !in s.extensions then Err(NotFound)
    else if !s.extensions[e].status.AwaitingReview? then Err(BadState)
    else
      var x := s.extensions[e];
      if approve then
        if x.loan !in s.loans then Err(NotFound)
        else
          var loan := s.loans[x.loan];
          Ok(s.(extensions := s.extensions[e := x.(status := Granted)],
                loans := s.loans[x.loan := loan.(due := Some(x.to), extensionCount := loan.extensionCount + 1)]))
      else if !hasReason then Err(ReasonMissing)
      else Ok(s.(extensions := s.extensions[e := x.(status := Declined)]))
  }

  function BeginWithdrawal(s: World, tx: TxId, e: ExtensionId, permitted: bool): Outcome {
    if tx in s.pending then Err(Conflict)
    else if e !in s.extensions then Err(NotFound)
    else if !s.extensions[e].status.AwaitingReview? then Err(BadState)
    else if !permitted then Err(NotPermitted)
    else Ok(SetPending(s, tx, Withdrawing(e)))
  }

  /** The request is marked withdrawn, whatever has become of it since it was read. */
  function CommitWithdrawal(s: World, e: ExtensionId): World {
    if e !in s.extensions then s else s.(extensions := s.extensions[e := s.extensions[e].(status := Withdrawn)])
  }

  // ---- Asset status ----------------------------------------------------------------------------

  function AllowedFrom(target: Condition): set<Condition> {
    match target
    case Normal => {Normal, Damaged, UnderRepair}
    case Lost => {Normal, Damaged, UnderRepair}
    case WaitDisposal => {Normal, Damaged, UnderRepair}
    case Disposal => {Normal, Damaged, UnderRepair, WaitDisposal}
    case Damaged => {Normal}
    case UnderRepair => {Damaged, Normal}
  }

  function ConsistentAvailability(target: Condition): Availability {
    if target.Normal? then Available else Unavailable
  }

  predicate GuardedWhileLent(seen: Availability, target: Condition) {
    LendsOut(seen) && (target.Disposal? || target.WaitDisposal? || target.Damaged? || target.UnderRepair?)
  }

  function ActiveLoans(loans: map<LoanId, Loan>, a: AssetId): set<LoanId> {
    set l | l in loans && loans[l].asset == a && Active(loans[l].status)
  }

  function CancelLoans(loans: map<LoanId, Loan>, a: AssetId, ls: set<LoanId>): map<LoanId, Loan> {
    map l | l in loans ::
      if l in ls && loans[l].asset == a && Active(loans[l].status) then loans[l].(status := Cancelled) else loans[l]
  }

  const AUTO_CANCEL_REPAIR_NOTE := "[ยกเลิกอัตโนมัติ] ครุภัณฑ์ถูกปรับสถานะเป็นสูญหาย (LOST)"

  function NoteAppended(solution: Option<string>): Option<string> {
    if solution.Some? && solution.value != "" then Some(solution.value + "\n" + AUTO_CANCEL_REPAIR_NOTE)
    else Some(AUTO_CANCEL_REPAIR_NOTE)
  }

  predicate OpenOn(jobs: map<JobId, Job>, j: JobId, a: AssetId) {
    j in jobs && jobs[j].asset == a && jobs[j].status.Open?
  }

  function OpenJobs(jobs: map<JobId, Job>, a: AssetId): set<JobId> {
    set j | j in jobs && OpenOn(jobs, j, a)
  }

  /** A job as the cascade leaves it. */
  function Closed(job: Job): Job {
    job.(status := CancelledJob, solution := NoteAppended(job.solution))
  }

  /** The waiting withdrawals of `jobs`. */
  function Waiting(moves: map<nat, PartMove>, jobs: set<JobId>): set<nat> {
    set m | m in moves && moves[m].kind.PendingWithdraw? && moves[m].job.Some? && moves[m].job.value in jobs
  }

  predicate NeedsCascade(seen: Seen, target: Condition) {
    target.Lost? && (LendsOut(seen.availability) || seen.condition.UnderRepair?)
  }

  /** The statements a move to LOST runs before it writes the asset, each as of now. */
  function Cascade(s: World, a: AssetId, seen: Seen): (x: Open)
    ensures x.LostEdit?
  {
    var open := if seen.condition.UnderRepair? then OpenJobs(s.jobs, a) else {};
    LostEdit(a, seen,
             if LendsOut(seen.availability) then ActiveLoans(s.loans, a) else {},
             map j | j in open :: Closed(s.jobs[j]),
             Waiting(s.moves, open))
  }

  /** The transition rules, judged on what the request read. */
  predicate EditRefused(seen: Seen, target: Condition) {
    (target != seen.condition && seen.condition !in AllowedFrom(target)) || GuardedWhileLent(seen.availability, target)
  }

  predicate StillAs(s: World, a: AssetId, seen: Seen) {
    a in s.assets && s.assets[a].condition == seen.condition && s.assets[a].availability == seen.availability
  }

  /** The edit's own write; the asset must still look as `seen`. */
  function WriteStatus(s: World, a: AssetId, seen: Seen, target: Condition): World
    requires StillAs(s, a, seen)
  {
    SetAsset(s, a, s.assets[a].(condition := target,
                                availability := if target == seen.condition then seen.availability else ConsistentAvailability(target)))
  }

  /** What the cascade of `x` wrote, made visible; its rows are locked, so they are as it left them. */
  function WithCascade(s: World, x: Open): World
    requires x.LostEdit?
  {
    s.(loans := if LendsOut(x.seen.availability) then CancelLoans(s.loans, x.asset, x.loans) else s.loans,
       jobs := s.jobs + x.jobs,
       moves := map m | m in s.moves && m !in x.moves :: s.moves[m])
  }

  /** An edit with nothing between its statements, as when its image update holds the asset's row. */
  function EditStatus(s: World, a: AssetId, seen: Seen, target: Condition): Outcome {
    if a !in s.assets then Err(NotFound)
    else if EditRefused(seen, target) then Err(BadState)
    else if !StillAs(s, a, seen) then Err(Conflict)
    else Ok(WriteStatus(if target.Lost? then WithCascade(s, Cascade(s, a, seen)) else s, a, seen, target))
  }

  /** The cascade of a move to LOST; the write to the asset follows with `CommitLost`. */
  function BeginLost(s: World, tx: TxId, a: AssetId, seen: Seen): Outcome {
    if tx in s.pending then Err(Conflict)
    else if a !in s.assets then Err(NotFound)
    else if EditRefused(seen, Lost) || !NeedsCascade(seen, Lost) then Err(BadState)
    else Ok(SetPending(s, tx, Cascade(s, a, seen)))
  }

  /** Everything together, or nothing if the asset has changed since it was read. */
  function CommitLost(s: World, x: Open): World
    requires x.LostEdit?
  {
    if StillAs(s, x.asset, x.seen) then WriteStatus(WithCascade(s, x), x.asset, x.seen, Lost) else s
  }

  /** In one go, a move to LOST is its cascade and its commit with nothing between. */
  lemma LostAtOnce(s: World, a: AssetId, seen: Seen)
    requires EditStatus(s, a, seen, Lost).Ok?
    ensures EditStatus(s, a, seen, Lost).value == CommitLost(s, Cascade(s, a, seen))
  {
    hide WithCascade;
  }

  /** The last statement of `tx` and its commit. */
  function Commit(s: World, tx: TxId): Outcome {
    if tx !in s.pending then Err(NotFound)
    else
      var rest := s.(pending := s.pending - {tx});
      match s.pending[tx]
      case LostEdit(_, _, _, _, _) => Ok(CommitLost(rest, s.pending[tx]))
      case Extending(e, x) => Ok(CommitExtension(rest, e, x))
      case Withdrawing(e) => Ok(CommitWithdrawal(rest, e))
  }

  /** A transaction whose process dies, or that is rolled back, leaves nothing. */
  function Abort(s: World, tx: TxId): Outcome {
    if tx !in s.pending then Err(NotFound) else Ok(s.(pending := s.pending - {tx}))
  }

  function CreateDisposal(s: World, a: AssetId, seen: Seen): Outcome {
    if a !in s.assets then Err(NotFound)
    else if LendsOut(seen.availability) then Err(BadState)
    else if seen.condition !in AllowedFrom(Disposal) then Err(BadState)
    else if !StillAs(s, a, seen) then Err(Conflict)
    else Ok(SetAsset(s, a, s.assets[a].(condition := Disposal, availability := Unavailable)))
  }

  /** The recommendation screen's disposal: read first, then written without looking again. */
  function RequestDisposal(s: World, a: AssetId, seen: Seen): Outcome {
    if a !in s.assets then Err(NotFound)
    else if seen.condition.Disposal? || seen.condition.Lost? || seen.condition.WaitDisposal? then Err(BadState)
    else if seen.availability.Borrowed? then Err(BadState)
    else Ok(SetAsset(s, a, s.assets[a].(condition := WaitDisposal, availability := Unavailable)))
  }

  /** A move to another section; `same` says that the one asked for is the one the request read. */
  function CreateTransfer(s: World, a: AssetId, seen: Seen, same: bool, center: bool): Outcome {
    if a !in s.assets then Err(NotFound)
    else if seen.condition.Disposal? || seen.availability.Borrowed? || seen.condition.UnderRepair? || same then Err(BadState)
    else if !StillAs(s, a, seen) then Err(Conflict)
    else Ok(SetAsset(s, a, s.assets[a].(center := center)))
  }

  /** An edit of the asset's other fields, its section among them, which looks at no status. */
  function UpdateSection(s: World, a: AssetId, center: bool): Outcome {
    if a !in s.assets then Err(NotFound) else Ok(SetAsset(s, a, s.assets[a].(center := center)))
  }

  function CreateAsset(s: World, a: AssetId, asset: Asset): Outcome {
    if a in s.assets then Err(Conflict) else Ok(SetAsset(s, a, asset))
  }
}
