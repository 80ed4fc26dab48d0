/** Writing a presentation fixture into empty tables. */
module PresentationRecords {
  import opened Prelude
  import opened LoanState
  import opened PresentationFixture

  datatype AssetRow = AssetRow(id: string, section: string, condition: Condition, availability: Availability)

  datatype LoanRow = LoanRow(
    id: string, asset: string, status: LoanStatus, createdAt: Time, approvedAt: Option<Time>, handoverDate: Option<Time>,
    returnDate: Option<Time>, expectedReturn: Time, extensionCount: nat)

  datatype ExtensionRow = ExtensionRow(id: string, loan: string, status: ExtensionStatus, currentReturn: Time, requestedReturn: Time)

  datatype StepRow = StepRow(number: nat, completeAt: Option<Time>)

  datatype JobRow = JobRow(
    id: string, asset: string, status: JobStatus, returnDate: Option<Time>, technicians: seq<string>, steps: seq<StepRow>)

  datatype Receipt = Receipt(qty: int, totalPrice: int)

  datatype PartRow = PartRow(id: string, qtyInStock: int, receipts: seq<Receipt>)

  datatype Records = Records(
    assets: seq<AssetRow>, loans: seq<LoanRow>, extensions: seq<ExtensionRow>, jobs: seq<JobRow>, parts: seq<PartRow>,
    txns: seq<DemoTxn>, transfers: seq<DemoTransfer>, disposals: seq<DemoDisposal>, notices: seq<NoticeRow>)

  datatype NoticeRow = NoticeRow(
    id: string, user: string, resourceKind: ResourceKind, resourceId: Option<string>, createdAt: Time, readAt: Option<Time>)

  const NoRecords := Records([], [], [], [], [], [], [], [], [])

  // ---- Row by row ------------------------------------------------------------------------------------------

  function AssetRowOf(m: DemoAsset): AssetRow { AssetRow(m.key, m.section, m.condition, m.availability) }

  function GrantedCount(extensions: seq<DemoExtension>, loan: string): nat {
    if extensions == [] then 0
    else GrantedCount(extensions[..|extensions| - 1], loan)
         + if extensions[|extensions| - 1].borrow == loan && extensions[|extensions| - 1].status.Granted? then 1 else 0
  }

  function LoanRowOf(f: Fixture, b: DemoBorrow): LoanRow {
    LoanRow(b.key, b.asset, b.status, b.createdAt, b.approvedAt, b.handoverAt, b.returnAt, b.expectedReturn,
            GrantedCount(f.extensions, b.key))
  }

  function ExtensionRowOf(x: DemoExtension): ExtensionRow {
    ExtensionRow(x.key, x.borrow, x.status, x.currentDate, x.requestedDate)
  }

  /** Completed steps are spread evenly over the time the repair took, or has taken so far. */
  function StepRowOf(j: DemoRepair, now: Time, number: nat): StepRow
    requires j.track.Some?
  {
    var end := if j.closedAt.Some? then j.closedAt.value else now;
    StepRow(number, if number <= j.completedSteps then Some(j.createdAt + (end - j.createdAt) * number / MaxSteps(j.track)) else None)
  }

  function StepRows(j: DemoRepair, now: Time): seq<StepRow> {
    seq(MaxSteps(j.track), i requires 0 <= i < MaxSteps(j.track) => StepRowOf(j, now, i + 1))
  }

  function JobRowOf(j: DemoRepair, now: Time): JobRow {
    JobRow(j.key, j.asset, j.status, j.closedAt, j.technicians, StepRows(j, now))
  }

  /** Two lots, four fifths first; a part that opens empty has none. */
  function PartReceiptPlan(p: DemoPart): seq<Receipt> {
    var first := Max(1, p.opening * 8 / 10);
    if p.opening <= 0 then []
    else [Receipt(first, first * p.price)] + if p.opening - first > 0 then [Receipt(p.opening - first, (p.opening - first) * p.price)] else []
  }

  function Received(receipts: seq<Receipt>): int {
    if receipts == [] then 0 else Received(receipts[..|receipts| - 1]) + receipts[|receipts| - 1].qty
  }

  /** Whatever a part opens with, its receipts add up to it; one that opens below zero receives nothing. */
  lemma ReceiptsAddUp(p: DemoPart)
    ensures Received(PartReceiptPlan(p)) == Max(p.opening, 0)
    ensures forall i :: 0 <= i < |PartReceiptPlan(p)| ==>
              PartReceiptPlan(p)[i].qty > 0 && PartReceiptPlan(p)[i].totalPrice == PartReceiptPlan(p)[i].qty * p.price
    ensures PartReceiptPlan(p) == [] <==> p.opening <= 0
  {
    var plan := PartReceiptPlan(p);
    if |plan| == 1 {
      assert plan[..0] == [];
    } else if |plan| == 2 {
      assert plan[..1][..0] == [];
      assert Received(plan[..1]) == plan[0].qty;
    }
  }

  function PartRowOf(f: Fixture, p: DemoPart): PartRow {
    var receipts := PartReceiptPlan(p);
    PartRow(p.key, Received(receipts) + NetMovement(f.txns, p.key), receipts)
  }

  /** The row a notification's key stands for, among the rows already written; `None` if there is none. */
  function ResourceId(r: Records, kind: ResourceKind, key: string): Option<string> {
    match kind
    case RepairJob => if exists i :: 0 <= i < |r.jobs| && r.jobs[i].id == key then Some(key) else None
    case BorrowExtension => if exists i :: 0 <= i < |r.extensions| && r.extensions[i].id == key then Some(key) else None
    case BorrowTransaction => if exists i :: 0 <= i < |r.loans| && r.loans[i].id == key then Some(key) else None
  }

  function NoticeRowOf(r: Records, n: DemoNotification): NoticeRow {
    NoticeRow(n.key, n.user, n.resourceKind, ResourceId(r, n.resourceKind, n.resource), n.createdAt, n.readAt)
  }

  /** What the tables hold once the fixture is written. */
  function Written(f: Fixture): Records {
    var r := WrittenBefore(f);
    r.(notices := seq(|f.notifications|, i requires 0 <= i < |f.notifications| => NoticeRowOf(r, f.notifications[i])))
  }

  /** Every notification of an accepted fixture is written pointing at a row that is there. */
  lemma NotificationsPointSomewhere(f: Fixture)
    requires Valid(f)
    ensures |Written(f).notices| == |f.notifications|
    ensures forall i :: 0 <= i < |f.notifications| ==> Written(f).notices[i].resourceId == Some(f.notifications[i].resource)
  {
    var r := WrittenBefore(f);
    forall i | 0 <= i < |f.notifications| ensures ResourceId(r, f.notifications[i].resourceKind, f.notifications[i].resource).Some? {
      assert NotificationValid(f, f.notifications[i]);
      ResourceIsWritten(f, f.notifications[i].resourceKind, f.notifications[i].resource);
    }
    hide Valid, WrittenBefore;
  }

  lemma ResourceIsWritten(f: Fixture, kind: ResourceKind, key: string)
    requires ResourceExists(f, kind, key)
    ensures ResourceId(WrittenBefore(f), kind, key).Some?
  {
    var r := WrittenBefore(f);
    match kind
    case RepairJob => var k :| 0 <= k < |f.repairs| && f.repairs[k].key == key; assert r.jobs[k].id == key;
    case BorrowExtension => var k :| 0 <= k < |f.extensions| && f.extensions[k].key == key; assert r.extensions[k].id == key;
    case BorrowTransaction => var k :| 0 <= k < |f.borrows| && f.borrows[k].key == key; assert r.loans[k].id == key;
  }

  /** The same before its notifications. */
  function WrittenBefore(f: Fixture): (r: Records)
    ensures r.notices == []
  {
    Records(
      seq(|f.assets|, i requires 0 <= i < |f.assets| => AssetRowOf(f.assets[i])),
      seq(|f.borrows|, i requires 0 <= i < |f.borrows| => LoanRowOf(f, f.borrows[i])),
      seq(|f.extensions|, i requires 0 <= i < |f.extensions| => ExtensionRowOf(f.extensions[i])),
      seq(|f.repairs|, i requires 0 <= i < |f.repairs| => JobRowOf(f.repairs[i], f.date)),
      seq(|f.parts|, i requires 0 <= i < |f.parts| => PartRowOf(f, f.parts[i])),
      f.txns, f.transfers, f.disposals, [])
  }

  // ---- writePresentationRecords --------------------------------------------------------------------------------

  class Store {
    var assets: seq<AssetRow>
    var loans: seq<LoanRow>
    var extensions: seq<ExtensionRow>
    var jobs: seq<JobRow>
    var parts: seq<PartRow>
    var txns: seq<DemoTxn>
    var transfers: seq<DemoTransfer>
    var disposals: seq<DemoDisposal>
    var notices: seq<NoticeRow>

    function State(): Records
      reads this
    {
      Records(assets, loans, extensions, jobs, parts, txns, transfers, disposals, notices)
    }

    constructor ()
      ensures State() == NoRecords
    {
      assets, loans, extensions, jobs, parts, txns, transfers, disposals, notices := [], [], [], [], [], [], [], [], [];
    }

    /** Create the part empty, then add each receipt and its quantity. */
    method CreatePartWithReceipts(p: DemoPart)
      modifies `parts
      ensures parts == old(parts) + [PartRow(p.key, Received(PartReceiptPlan(p)), PartReceiptPlan(p))]
    {
      var plan := PartReceiptPlan(p);
      var row := PartRow(p.key, 0, []);
      for i := 0 to |plan|
        invariant row == PartRow(p.key, Received(plan[..i]), plan[..i])
      {
        assert plan[..i + 1][..i] == plan[..i] && plan[..i + 1] == plan[..i] + [plan[i]];
        row := row.(receipts := row.receipts + [plan[i]]);
        row := row.(qtyInStock := row.qtyInStock + plan[i].qty);
      }
      assert plan[..|plan|] == plan;
      parts := parts + [row];
    }

    method WriteLoans(f: Fixture)
      requires loans == [] && extensions == []
      modifies `loans, `extensions
      ensures loans == Written(f).loans && extensions == Written(f).extensions
    {
      for k := 0 to |f.borrows|
        invariant loans == Written(f).loans[..k] && extensions == []
      {
        var loan := f.borrows[k];
        var approved := 0;
        for n := 0 to |f.extensions|
          invariant approved == GrantedCount(f.extensions[..n], loan.key)
          invariant loans == Written(f).loans[..k] && extensions == []
        {
          assert f.extensions[..n + 1][..n] == f.extensions[..n];
          if f.extensions[n].borrow == loan.key && f.extensions[n].status.Granted? { approved := approved + 1; }
        }
        assert f.extensions[..|f.extensions|] == f.extensions;
        loans := loans + [LoanRow(loan.key, loan.asset, loan.status, loan.createdAt, loan.approvedAt, loan.handoverAt,
                                  loan.returnAt, loan.expectedReturn, approved)];
      }
      for k := 0 to |f.extensions|
        invariant extensions == Written(f).extensions[..k] && loans == Written(f).loans
      {
        var x := f.extensions[k];
        extensions := extensions + [ExtensionRow(x.key, x.borrow, x.status, x.currentDate, x.requestedDate)];
      }
    }

    method WriteRepairs(f: Fixture)
      requires jobs == []
      modifies `jobs
      ensures jobs == Written(f).jobs
    {
      for k := 0 to |f.repairs|
        invariant jobs == Written(f).jobs[..k]
      {
        var job := f.repairs[k];
        var steps: seq<StepRow> := [];
        if job.track.Some? {
          var max := if job.track.value.SelfRepair? then 6 else 8;
          var end := if job.closedAt.Some? then job.closedAt.value else f.date;
          for step := 1 to max + 1
            invariant steps == StepRows(job, f.date)[..step - 1] && jobs == Written(f).jobs[..k]
          {
            var complete := step <= job.completedSteps;
            steps := steps + [StepRow(step, if complete then Some(job.createdAt + (end - job.createdAt) * step / max) else None)];
          }
        }
        assert steps == StepRows(job, f.date);
        jobs := jobs + [JobRow(job.key, job.asset, job.status, job.closedAt, job.technicians, steps)];
      }
    }

    /** Each part with its receipts, then each movement with its change of stock. */
    method WriteStock(f: Fixture)
      requires parts == [] && txns == []
      modifies `parts, `txns
      ensures parts == Written(f).parts && txns == f.txns
    {
      for k := 0 to |f.parts|
        invariant parts == StockAfter(f, 0)[..k] && txns == []
      {
        CreatePartWithReceipts(f.parts[k]);
      }
      for n := 0 to |f.txns|
        invariant txns == f.txns[..n] && parts == StockAfter(f, n)
      {
        var t := f.txns[n];
        assert f.txns[..n + 1] == f.txns[..n] + [t] && f.txns[..n + 1][..n] == f.txns[..n];
        txns := txns + [t];
        if t.internal && !t.kind.PendingWithdraw? {
          var change := if t.kind.PutBack? then t.qty else -t.qty;
          parts := Incremented(parts, t.part, change);
        }
        OneMovement(f, n);
      }
      assert f.txns[..|f.txns|] == f.txns;
    }

    method WritePresentationRecords(f: Fixture)
      requires State() == NoRecords
      modifies this
      ensures State() == Written(f)
    {
      for k := 0 to |f.assets|
        invariant State() == NoRecords.(assets := Written(f).assets[..k])
      {
        var m := f.assets[k];
        assets := assets + [AssetRow(m.key, m.section, m.condition, m.availability)];
      }
      WriteLoans(f);
      WriteRepairs(f);
      WriteStock(f);
      transfers := f.transfers;
      disposals := f.disposals;
      WriteNotifications(f);
    }

    method WriteNotifications(f: Fixture)
      requires State() == WrittenBefore(f)
      modifies `notices
      ensures State() == Written(f)
    {
      hide WrittenBefore;
      for k := 0 to |f.notifications|
        invariant State() == WrittenBefore(f).(notices := Written(f).notices[..k])
      {
        var n := f.notifications[k];
        notices := notices + [NoticeRow(n.key, n.user, n.resourceKind, ResourceId(WrittenBefore(f), n.resourceKind, n.resource), n.createdAt, n.readAt)];
      }
    }
  }

  function Incremented(parts: seq<PartRow>, id: string, change: int): seq<PartRow> {
    seq(|parts|, i requires 0 <= i < |parts| =>
      if parts[i].id == id then parts[i].(qtyInStock := parts[i].qtyInStock + change) else parts[i])
  }

  lemma OneMovement(f: Fixture, n: nat)
    requires n < |f.txns|
    ensures StockAfter(f, n + 1) == Incremented(StockAfter(f, n), f.txns[n].part, Movement(f.txns[n]))
    ensures Movement(f.txns[n]) == 0 ==> StockAfter(f, n + 1) == StockAfter(f, n)
  {
    assert f.txns[..n + 1][..n] == f.txns[..n];
    hide PartReceiptPlan, Received;
    forall i | 0 <= i < |f.parts| ensures StockAfter(f, n + 1)[i] == Incremented(StockAfter(f, n), f.txns[n].part, Movement(f.txns[n]))[i] { }
  }

  /** The parts once the first `n` movements are entered. */
  function StockAfter(f: Fixture, n: nat): seq<PartRow>
    requires n <= |f.txns|
  {
    seq(|f.parts|, i requires 0 <= i < |f.parts| =>
      PartRow(f.parts[i].key, Received(PartReceiptPlan(f.parts[i])) + NetMovement(f.txns[..n], f.parts[i].key),
              PartReceiptPlan(f.parts[i])))
  }
}
