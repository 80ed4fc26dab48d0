/** Assets, loans, extensions and repair work as the loan and asset services store them. */
module LoanState {
  import opened Prelude

  type AssetId = string
  type LoanId = string
  type ExtensionId = string
  type JobId = string
  type UserId = string
  type TxId = string

  datatype Condition = Normal | Damaged | UnderRepair | WaitDisposal | Disposal | Lost

  /** `Unassigned` is the null availability an asset may be created with. */
  datatype Availability = Unassigned | Available | Reserved | Borrowed | Unavailable

  /** `center` says that the asset belongs to the asset centre, which alone lends. */
  datatype Asset = Asset(condition: Condition, availability: Availability, center: bool)

  datatype LoanStatus =
    | PendingApprove | Approved | OnLoan | PendingReturn | InPickup
    | Returned | Rejected | Cancelled

  datatype Source = SelfService | CenterService

  datatype Loan = Loan(
    asset: AssetId, borrower: UserId, source: Source, status: LoanStatus,
    createdAt: Time, handover: Option<Time>, due: Option<Time>, extensionCount: nat)

  datatype ExtensionStatus = AwaitingReview | Granted | Declined | Withdrawn

  /** A request to move a loan's due date from `from` to `to`; `round` numbers the granted ones. */
  datatype Extension = Extension(
    loan: LoanId, desk: bool, status: ExtensionStatus, round: nat, from: Time, to: Time)

  datatype JobStatus = Open | Completed | CancelledJob

  datatype Job = Job(asset: AssetId, status: JobStatus, solution: Option<string>)

  datatype MoveKind = PendingWithdraw | Withdraw | PutBack

  datatype PartMove = PartMove(job: Option<JobId>, kind: MoveKind, part: string, quantity: nat)

  /** An asset's two status columns as a request read them before its transaction. */
  datatype Seen = Seen(condition: Condition, availability: Availability)

  /**
   * A transaction under way, between two of its statements; nobody else sees its writes yet.
   * `LostEdit` has cancelled `loans`, closed `jobs` (the new rows) and deleted `moves`, and holds the
   * locks of those rows; its guarded write to the asset is still to come. `Extending` and
   * `Withdrawing` have read and judged, and hold no lock.
   */
  datatype Open =
    | LostEdit(asset: AssetId, seen: Seen, loans: set<LoanId>, jobs: map<JobId, Job>, moves: set<nat>)
    | Extending(id: ExtensionId, row: Extension)
    | Withdrawing(id: ExtensionId)

  /** Why a service turns a request down. */
  datatype Refusal = NotFound | BadState | Conflict | NotPermitted | BadDate | ReasonMissing | Busy

  datatype World = World(
    assets: map<AssetId, Asset>,
    loans: map<LoanId, Loan>,
    extensions: map<ExtensionId, Extension>,
    jobs: map<JobId, Job>,
    moves: map<nat, PartMove>,
    pending: map<TxId, Open>)

  const Empty := World(map[], map[], map[], map[], map[], map[])

  predicate Active(status: LoanStatus) {
    !status.Returned? && !status.Rejected? && !status.Cancelled?
  }

  /** Where the asset of an active loan must be. */
  function AvailabilityFor(status: LoanStatus): Availability {
    match status
    case PendingApprove => Reserved
    case Approved => Reserved
    case OnLoan => Borrowed
    case _ => Unavailable
  }

  predicate LendsOut(a: Availability) {
    a.Borrowed? || a.Reserved?
  }
}
