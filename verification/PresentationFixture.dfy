/**
 * The demonstration fixture: what a presentation set contains, and the rules it must meet before it
 * is written. Records refer to each other by key, which stands for the id derived from it.
 */
module PresentationFixture {
  import opened Prelude
  import opened LoanState
  import opened Timeline

  datatype User = User(key: string, section: string)

  datatype DemoAsset = DemoAsset(key: string, section: string, receivedDate: Time, condition: Condition, availability: Availability)

  datatype DemoBorrow = DemoBorrow(
    key: string, asset: string, borrower: string, status: LoanStatus, createdAt: Time, approvedAt: Option<Time>,
    handoverAt: Option<Time>, returnAt: Option<Time>, expectedReturn: Time, inspected: bool)

  datatype DemoExtension = DemoExtension(key: string, borrow: string, status: ExtensionStatus, currentDate: Time, requestedDate: Time)

  datatype Track = SelfRepair | WithParts | Outsource | Unrepairable

  datatype DemoRepair = DemoRepair(
    key: string, asset: string, reporter: string, technicians: seq<string>, track: Option<Track>, completedSteps: int,
    rejected: bool, status: JobStatus, createdAt: Time, closedAt: Option<Time>)

  datatype DemoPart = DemoPart(key: string, price: int, opening: int)

  datatype DemoTxn = DemoTxn(key: string, job: string, part: string, kind: MoveKind, internal: bool, qty: int, unitPrice: int, date: Time)

  datatype DemoTransfer = DemoTransfer(key: string, asset: string, from: string, to: string, date: Time)

  datatype DemoDisposal = DemoDisposal(key: string, asset: string, date: Time)

  /** What a notification points at. */
  datatype ResourceKind = RepairJob | BorrowExtension | BorrowTransaction

  datatype DemoNotification = DemoNotification(
    key: string, user: string, resourceKind: ResourceKind, resource: string, createdAt: Time, readAt: Option<Time>)

  datatype Fixture = Fixture(
    date: Time, sections: seq<string>, users: seq<User>, assets: seq<DemoAsset>, borrows: seq<DemoBorrow>,
    extensions: seq<DemoExtension>, repairs: seq<DemoRepair>, parts: seq<DemoPart>, txns: seq<DemoTxn>,
    transfers: seq<DemoTransfer>, disposals: seq<DemoDisposal>, notifications: seq<DemoNotification>)

  // ---- Who is using an asset -------------------------------------------------------------------------

  /** What the rules about an asset look at in a loan or a repair, in a fixture or in the database. */
  datatype LoanView = LoanView(asset: string, status: LoanStatus)

  datatype JobView = JobView(asset: string, open: bool)

  /** The statuses of the active loans of an asset, in order. */
  function ActiveLoans(loans: seq<LoanView>, asset: string): (r: seq<LoanStatus>)
    ensures forall i :: 0 <= i < |r| ==> Active(r[i])
  {
    if loans == [] then []
    else (if loans[0].asset == asset && Active(loans[0].status) then [loans[0].status] else []) + ActiveLoans(loans[1..], asset)
  }

  function OpenJobs(jobs: seq<JobView>, asset: string): nat {
    if jobs == [] then 0 else (if jobs[0].asset == asset && jobs[0].open then 1 else 0) + OpenJobs(jobs[1..], asset)
  }

  function RequiredAvailability(loans: seq<LoanStatus>, condition: Condition): Availability {
    if |loans| > 0 then AvailabilityFor(loans[0]) else if condition.Normal? then Available else Unavailable
  }

  predicate AssetFits(asset: string, condition: Condition, availability: Availability, loans: seq<LoanView>, jobs: seq<JobView>) {
    var active, open := ActiveLoans(loans, asset), OpenJobs(jobs, asset);
    && |active| <= 1 && open <= 1 && (|active| == 0 || open == 0)
    && availability == RequiredAvailability(active, condition)
    && (condition.UnderRepair? <==> open > 0)
    && (|active| > 0 ==> condition.Normal?)
  }

  function LoanViews(borrows: seq<DemoBorrow>): seq<LoanView> {
    seq(|borrows|, i requires 0 <= i < |borrows| => LoanView(borrows[i].asset, borrows[i].status))
  }

  function JobViews(repairs: seq<DemoRepair>): seq<JobView> {
    seq(|repairs|, i requires 0 <= i < |repairs| => JobView(repairs[i].asset, repairs[i].status.Open?))
  }

  // ---- Dates ---------------------------------------------------------------------------------------------

  function Present(times: seq<Option<Time>>): seq<Time> {
    if times == [] then [] else (if times[0].Some? then [times[0].value] else []) + Present(times[1..])
  }

  function Milestones(createdAt: Time, approvedAt: Option<Time>, handoverAt: Option<Time>, returnAt: Option<Time>): seq<Time> {
    Present([Some(createdAt), approvedAt, handoverAt, returnAt])
  }

  predicate Ascending(times: seq<Time>) {
    forall i :: 0 < i < |times| ==> times[i - 1] <= times[i]
  }

  // ---- Stock -----------------------------------------------------------------------------------------------

  function Movement(t: DemoTxn): int {
    if !t.internal then 0 else match t.kind case PutBack => t.qty case Withdraw => -t.qty case PendingWithdraw => 0
  }

  function NetMovement(txns: seq<DemoTxn>, part: string): int {
    if txns == [] then 0
    else NetMovement(txns[..|txns| - 1], part) + if txns[|txns| - 1].part == part then Movement(txns[|txns| - 1]) else 0
  }

  /** The stock a part should end with: what it opens with, and its internal movements. */
  function StockBalance(txns: seq<DemoTxn>, part: DemoPart): int {
    part.opening + NetMovement(txns, part.key)
  }

  predicate SameUse(t: DemoTxn, other: DemoTxn) {
    other.job == t.job && other.part == t.part && other.internal == t.internal && other.date <= t.date
  }

  /** Withdrawn and not returned by the time of `t`: pending withdrawals are set aside first. */
  function NetWithdrawn(txns: seq<DemoTxn>, t: DemoTxn): int {
    if txns == [] then 0
    else
      var other := txns[|txns| - 1];
      NetWithdrawn(txns[..|txns| - 1], t)
      + if SameUse(t, other) && !other.kind.PendingWithdraw? then (if other.kind.Withdraw? then other.qty else -other.qty) else 0
  }

  // ---- The rules of a fixture ----------------------------------------------------------------------------

  function MaxSteps(track: Option<Track>): nat {
    if track.None? then 0 else if track.value.SelfRepair? then 6 else 8
  }

  predicate AssetExists(f: Fixture, key: string) { exists i :: 0 <= i < |f.assets| && f.assets[i].key == key }

  predicate UserExists(f: Fixture, key: string) { exists i :: 0 <= i < |f.users| && f.users[i].key == key }

  predicate PartExists(f: Fixture, key: string) { exists i :: 0 <= i < |f.parts| && f.parts[i].key == key }

  function KeyLists(f: Fixture): seq<seq<string>> {
    [seq(|f.users|, i requires 0 <= i < |f.users| => f.users[i].key),
     seq(|f.assets|, i requires 0 <= i < |f.assets| => f.assets[i].key),
     seq(|f.borrows|, i requires 0 <= i < |f.borrows| => f.borrows[i].key),
     seq(|f.extensions|, i requires 0 <= i < |f.extensions| => f.extensions[i].key),
     seq(|f.repairs|, i requires 0 <= i < |f.repairs| => f.repairs[i].key),
     seq(|f.parts|, i requires 0 <= i < |f.parts| => f.parts[i].key),
     seq(|f.txns|, i requires 0 <= i < |f.txns| => f.txns[i].key),
     seq(|f.transfers|, i requires 0 <= i < |f.transfers| => f.transfers[i].key),
     seq(|f.disposals|, i requires 0 <= i < |f.disposals| => f.disposals[i].key),
     seq(|f.notifications|, i requires 0 <= i < |f.notifications| => f.notifications[i].key)]
  }

  predicate UniqueKeys(f: Fixture) {
    forall n :: 0 <= n < |KeyLists(f)| ==> Distinct(KeyLists(f)[n])
  }

  predicate AssetValid(f: Fixture, m: DemoAsset) {
    && m.section in f.sections && m.receivedDate <= f.date
    && AssetFits(m.key, m.condition, m.availability, LoanViews(f.borrows), JobViews(f.repairs))
  }

  predicate BorrowValid(f: Fixture, b: DemoBorrow) {
    var ordered := Milestones(b.createdAt, b.approvedAt, b.handoverAt, b.returnAt);
    && AssetExists(f, b.asset) && UserExists(f, b.borrower)
    && Ascending(ordered) && (forall i :: 0 <= i < |ordered| ==> ordered[i] <= f.date)
    && (b.status.OnLoan? || b.status.PendingReturn? || b.status.InPickup? || b.status.Returned? ==> b.handoverAt.Some?)
    && (b.status.Returned? ==> b.returnAt.Some? && b.inspected)
  }

  function Handovers(borrows: seq<DemoBorrow>, asset: string): (r: seq<DemoBorrow>)
    ensures forall b :: b in r ==> b.handoverAt.Some?
  {
    if borrows == [] then []
    else (if borrows[0].asset == asset && borrows[0].handoverAt.Some? then [borrows[0]] else []) + Handovers(borrows[1..], asset)
  }

  function HandoverDate(b: DemoBorrow): Time {
    if b.handoverAt.Some? then b.handoverAt.value else 0
  }

  /** In order of hand-over, each loan of the asset came back before the next went out. */
  predicate PeriodsDisjoint(f: Fixture, asset: string) {
    var periods := SortBy(Handovers(f.borrows, asset), HandoverDate);
    forall i :: 0 < i < |periods| ==> BackBefore(periods, i)
  }

  predicate BackBefore(periods: seq<DemoBorrow>, i: int)
    requires 0 < i < |periods|
  {
    periods[i - 1].returnAt.Some? && periods[i - 1].returnAt.value <= HandoverDate(periods[i])
  }

  predicate ExtensionValid(f: Fixture, x: DemoExtension) {
    && x.requestedDate > x.currentDate && x.requestedDate > f.date
    && exists i :: 0 <= i < |f.borrows| && f.borrows[i].key == x.borrow && f.borrows[i].status.OnLoan?
                   && (x.status.Granted? ==> f.borrows[i].expectedReturn == x.requestedDate)
  }

  predicate RepairValid(f: Fixture, j: DemoRepair) {
    && AssetExists(f, j.asset) && UserExists(f, j.reporter)
    && (forall i :: 0 <= i < |j.technicians| ==> UserExists(f, j.technicians[i]))
    && j.completedSteps <= MaxSteps(j.track) && j.createdAt <= f.date
    && (j.closedAt.Some? ==> j.createdAt <= j.closedAt.value <= f.date)
    && (j.track.Some? ==> |j.technicians| > 0)
    && (j.status.Completed? ==> j.closedAt.Some? && j.completedSteps == MaxSteps(j.track))
  }

  predicate TxnValid(f: Fixture, t: DemoTxn) {
    && PartExists(f, t.part)
    && (exists i :: 0 <= i < |f.repairs| && f.repairs[i].key == t.job && f.repairs[i].createdAt <= t.date
                    && (t.kind.PendingWithdraw? ==>
                          !f.repairs[i].rejected && f.repairs[i].completedSteps < 6 && f.repairs[i].status.Open?))
    && t.qty > 0 && t.unitPrice >= 0 && t.date <= f.date
    && (t.kind.PutBack? ==> NetWithdrawn(f.txns, t) >= 0)
  }

  predicate TransferValid(f: Fixture, t: DemoTransfer) {
    AssetExists(f, t.asset) && t.from in f.sections && t.to in f.sections && t.from != t.to && t.date <= f.date
  }

  function TransfersOf(transfers: seq<DemoTransfer>, asset: string): (r: seq<DemoTransfer>)
    ensures forall t :: t in r <==> t in transfers && t.asset == asset
  {
    if transfers == [] then []
    else (if transfers[0].asset == asset then [transfers[0]] else []) + TransfersOf(transfers[1..], asset)
  }

  function TransferDate(t: DemoTransfer): Time { t.date }

  /** The last transfer, in order of date and then of listing, ends where the asset is. */
  predicate TransfersArrive(f: Fixture, m: DemoAsset) {
    var moves := SortBy(TransfersOf(f.transfers, m.key), TransferDate);
    |moves| > 0 ==> moves[|moves| - 1].to == m.section
  }

  predicate DisposalValid(f: Fixture, d: DemoDisposal) {
    d.date <= f.date && exists i :: 0 <= i < |f.assets| && f.assets[i].key == d.asset && f.assets[i].condition.Disposal?
  }

  predicate ResourceExists(f: Fixture, kind: ResourceKind, key: string) {
    match kind
    case RepairJob => exists i :: 0 <= i < |f.repairs| && f.repairs[i].key == key
    case BorrowExtension => exists i :: 0 <= i < |f.extensions| && f.extensions[i].key == key
    case BorrowTransaction => exists i :: 0 <= i < |f.borrows| && f.borrows[i].key == key
  }

  predicate NotificationValid(f: Fixture, n: DemoNotification) {
    && UserExists(f, n.user) && ResourceExists(f, n.resourceKind, n.resource)
    && n.createdAt <= f.date && (n.readAt.Some? ==> n.createdAt <= n.readAt.value <= f.date)
  }

  /** The rules of assets, loans and extensions. */
  predicate WorkflowsValid(f: Fixture) {
    && (forall i :: 0 <= i < |f.assets| ==> AssetValid(f, f.assets[i]) && PeriodsDisjoint(f, f.assets[i].key)
                                            && TransfersArrive(f, f.assets[i]))
    && (forall i :: 0 <= i < |f.borrows| ==> BorrowValid(f, f.borrows[i]))
    && (forall i :: 0 <= i < |f.extensions| ==> ExtensionValid(f, f.extensions[i]))
  }

  /** The rules of repairs, parts and their movements, transfers, disposals and notifications. */
  predicate LedgersValid(f: Fixture) {
    && (forall i :: 0 <= i < |f.repairs| ==> RepairValid(f, f.repairs[i]))
    && (forall i :: 0 <= i < |f.txns| ==> TxnValid(f, f.txns[i]))
    && (forall i :: 0 <= i < |f.parts| ==> StockBalance(f.txns, f.parts[i]) >= 0)
    && (forall i :: 0 <= i < |f.transfers| ==> TransferValid(f, f.transfers[i]))
    && (forall i :: 0 <= i < |f.disposals| ==> DisposalValid(f, f.disposals[i]))
    && (forall i :: 0 <= i < |f.notifications| ==> NotificationValid(f, f.notifications[i]))
  }

  predicate Valid(f: Fixture) {
    && UniqueKeys(f)
    && (forall i :: 0 <= i < |f.users| ==> f.users[i].section in f.sections)
    && WorkflowsValid(f) && LedgersValid(f)
  }

  // ---- validateFixture ---------------------------------------------------------------------------------------

  method AreDistinct(keys: seq<string>) returns (ok: bool)
    ensures ok <==> Distinct(keys)
  {
    var seen: set<string> := {};
    var k := 0;
    while k < |keys|
      invariant 0 <= k <= |keys|
      invariant forall x :: x in seen <==> x in keys[..k]
      invariant Distinct(keys[..k])
    {
      assert keys[..k + 1] == keys[..k] + [keys[k]];
      if keys[k] in seen {
        var i :| 0 <= i < k && keys[..k][i] == keys[k];
        assert keys[i] == keys[k];
        return false;
      }
      seen := seen + {keys[k]};
      k := k + 1;
    }
    assert keys[..k] == keys;
    return true;
  }

  method AssetIsValid(f: Fixture, m: DemoAsset) returns (ok: bool)
    ensures ok <==> AssetValid(f, m)
  {
    if m.section !in f.sections || m.receivedDate > f.date { return false; }
    var loans, jobs := ActiveLoans(LoanViews(f.borrows), m.key), OpenJobs(JobViews(f.repairs), m.key);
    if |loans| > 1 || jobs > 1 || (|loans| > 0 && jobs > 0) { return false; }
    if m.availability != RequiredAvailability(loans, m.condition) || (m.condition.UnderRepair? != (jobs > 0)) { return false; }
    return |loans| == 0 || m.condition.Normal?;
  }

  /** The loops over assets, loans and extensions. */
  method WorkflowsAreValid(f: Fixture) returns (ok: bool)
    ensures ok <==> WorkflowsValid(f)
  {
    hide AssetValid, BorrowValid, ExtensionValid, PeriodsDisjoint, TransfersArrive;
    for k := 0 to |f.assets|
      invariant forall i :: 0 <= i < k ==> AssetValid(f, f.assets[i]) && PeriodsDisjoint(f, f.assets[i].key) && TransfersArrive(f, f.assets[i])
    {
      var valid := AssetIsValid(f, f.assets[k]);
      if !valid || !PeriodsDisjoint(f, f.assets[k].key) || !TransfersArrive(f, f.assets[k]) { return false; }
    }
    for k := 0 to |f.borrows|
      invariant forall i :: 0 <= i < k ==> BorrowValid(f, f.borrows[i])
    {
      if !BorrowValid(f, f.borrows[k]) { return false; }
    }
    for k := 0 to |f.extensions|
      invariant forall i :: 0 <= i < k ==> ExtensionValid(f, f.extensions[i])
    {
      if !ExtensionValid(f, f.extensions[k]) { return false; }
    }
    return true;
  }

  /** The loops over repairs, parts and their movements, transfers, disposals and notifications. */
  method LedgersAreValid(f: Fixture) returns (ok: bool)
    ensures ok <==> LedgersValid(f)
  {
    hide TransferValid, DisposalValid, TxnValid, NotificationValid;
    for k := 0 to |f.repairs|
      invariant forall i :: 0 <= i < k ==> RepairValid(f, f.repairs[i])
    {
      if !RepairValid(f, f.repairs[k]) { return false; }
    }
    for k := 0 to |f.txns|
      invariant forall i :: 0 <= i < k ==> TxnValid(f, f.txns[i])
    {
      if !TxnValid(f, f.txns[k]) { return false; }
    }
    for k := 0 to |f.parts|
      invariant forall i :: 0 <= i < k ==> StockBalance(f.txns, f.parts[i]) >= 0
    {
      var balance := f.parts[k].opening;
      for n := 0 to |f.txns|
        invariant balance == f.parts[k].opening + NetMovement(f.txns[..n], f.parts[k].key)
      {
        var t := f.txns[n];
        assert f.txns[..n + 1][..n] == f.txns[..n];
        if t.part == f.parts[k].key && t.internal {
          balance := balance + match t.kind case PutBack => t.qty case Withdraw => -t.qty case PendingWithdraw => 0;
        }
      }
      assert f.txns[..|f.txns|] == f.txns;
      if balance < 0 { return false; }
    }
    for k := 0 to |f.transfers|
      invariant forall i :: 0 <= i < k ==> TransferValid(f, f.transfers[i])
    {
      if !TransferValid(f, f.transfers[k]) { return false; }
    }
    for k := 0 to |f.disposals|
      invariant forall i :: 0 <= i < k ==> DisposalValid(f, f.disposals[i])
    {
      if !DisposalValid(f, f.disposals[k]) { return false; }
    }
    for k := 0 to |f.notifications|
      invariant forall i :: 0 <= i < k ==> NotificationValid(f, f.notifications[i])
    {
      if !NotificationValid(f, f.notifications[k]) { return false; }
    }
    return true;
  }

  /** Accept a fixture exactly when it meets every rule. */
  method ValidateFixture(f: Fixture) returns (accepted: bool)
    ensures accepted <==> Valid(f)
  {
    hide Distinct, KeyLists, WorkflowsValid, LedgersValid;
    var lists := KeyLists(f);
    for k := 0 to |lists|
      invariant forall n :: 0 <= n < k ==> Distinct(lists[n])
    {
      var distinct := AreDistinct(lists[k]);
      if !distinct { return false; }
    }
    for k := 0 to |f.users|
      invariant forall i :: 0 <= i < k ==> f.users[i].section in f.sections
    {
      if f.users[k].section !in f.sections { return false; }
    }
    var workflows := WorkflowsAreValid(f);
    var ledgers := LedgersAreValid(f);
    return workflows && ledgers;
  }
}
