/**
 * The rules of status edits and extensions in terms of the stored columns. Contracts are written in
 * these; no service and no transaction computes with them.
 */
module LoanTerms {
  import opened Prelude
  import opened LoanState

  /** Whether the transition table and the lending guard turn an edit down. */
  predicate Refuses(seen: Seen, target: Condition) {
    || (target != seen.condition && !Leads(seen.condition, target))
    || (seen.availability in {Reserved, Borrowed} && target in {Damaged, UnderRepair, WaitDisposal, Disposal})
  }

  predicate Leads(from: Condition, to: Condition) {
    match from
    case Normal => true
    case Damaged => to in {Normal, UnderRepair, Lost, WaitDisposal, Disposal}
    case UnderRepair => to in {Normal, Lost, WaitDisposal, Disposal}
    case WaitDisposal => to.Disposal?
    case _ => false
  }

  /** The asset still has the two columns that were read. */
  predicate Unmoved(s: World, a: AssetId, seen: Seen) {
    a in s.assets && s.assets[a].condition == seen.condition && s.assets[a].availability == seen.availability
  }

  /** A move to LOST that cancels loans or closes repairs first. */
  predicate Cascades(seen: Seen, target: Condition) {
    target.Lost? && (seen.availability in {Reserved, Borrowed} || seen.condition.UnderRepair?)
  }

  /** The asset after an edit: in service only if it is in order, and as it was if nothing was asked to change. */
  function Edited(asset: Asset, target: Condition): Asset {
    if target == asset.condition then asset
    else Asset(target, if target.Normal? then Available else Unavailable, asset.center)
  }

  /** The job waits or is being worked on, for asset `a`. */
  predicate UnderWay(jobs: map<JobId, Job>, j: JobId, a: AssetId) {
    j in jobs && jobs[j].asset == a && jobs[j].status.Open?
  }

  /** A withdrawal of parts for such a job that still waits. */
  predicate AwaitsParts(moves: map<nat, PartMove>, jobs: map<JobId, Job>, m: nat, a: AssetId) {
    m in moves && moves[m].kind.PendingWithdraw? && moves[m].job.Some? && UnderWay(jobs, moves[m].job.value, a)
  }

  /** The job cancelled, the note on a line of its own after whatever was written before. */
  function Noted(job: Job, note: string): Job {
    job.(status := CancelledJob,
         solution := Some(if job.solution.None? || job.solution.value == "" then note else job.solution.value + "\n" + note))
  }

  /** The date a loan runs to: its due date, or failing that its hand-over, or its request. */
  function RunsTo(loan: Loan): Time {
    match loan.due
    case Some(t) => t
    case None => match loan.handover case Some(t) => t case None => loan.createdAt
  }

  predicate RequestWaits(s: World, l: LoanId) {
    exists e :: e in s.extensions && s.extensions[e].loan == l && s.extensions[e].status.AwaitingReview?
  }

  /** What asking for an extension is answered at its read. */
  predicate ExtensionAnswer(s: World, tx: TxId, l: LoanId, to: Time, desk: bool, permitted: bool, now: Time, r: Result<(), Refusal>) {
    r == if tx in s.pending then Err(Conflict)
         else if to <= now then Err(BadDate)
         else if l !in s.loans then Err(NotFound)
         else if !s.loans[l].status.OnLoan? then Err(BadState)
         else if RequestWaits(s, l) then Err(Conflict)
         else if to <= RunsTo(s.loans[l]) then Err(BadDate)
         else if !desk && !permitted then Err(NotPermitted)
         else Ok(())
  }
}
