/** Re-reading written presentation records, and what an accepted fixture is sure of once written. */
module PresentationCheck {
  import opened Prelude
  import opened LoanState
  import opened Timeline
  import opened PresentationFixture
  import opened PresentationRecords

  // ---- The rules of the check --------------------------------------------------------------------------

  function RowLoanViews(loans: seq<LoanRow>): seq<LoanView> {
    seq(|loans|, i requires 0 <= i < |loans| => LoanView(loans[i].asset, loans[i].status))
  }

  function RowJobViews(jobs: seq<JobRow>): seq<JobView> {
    seq(|jobs|, i requires 0 <= i < |jobs| => JobView(jobs[i].asset, jobs[i].status.Open?))
  }

  predicate AssetPasses(r: Records, a: AssetRow) {
    AssetFits(a.id, a.condition, a.availability, RowLoanViews(r.loans), RowJobViews(r.jobs))
  }

  predicate LoanPasses(l: LoanRow) {
    Ascending(Milestones(l.createdAt, l.approvedAt, l.handoverDate, l.returnDate))
  }

  function StepNumber(s: StepRow): Time { s.number }

  /** No step is complete after one that is not. */
  predicate NoneSkipped(steps: seq<StepRow>) {
    forall i, j :: 0 <= i < j < |steps| && steps[j].completeAt.Some? ==> steps[i].completeAt.Some?
  }

  predicate JobPasses(j: JobRow) {
    var steps := SortBy(j.steps, StepNumber);
    && (|steps| > 0 ==> |j.technicians| > 0)
    && NoneSkipped(steps)
    && (j.status.Completed? ==> j.returnDate.Some? && |steps| > 0 && forall i :: 0 <= i < |steps| ==> steps[i].completeAt.Some?)
  }

  /** Withdrawn and not returned by the time of `t`, counting a pending withdrawal as nothing. */
  function NetOut(txns: seq<DemoTxn>, t: DemoTxn): int {
    if txns == [] then 0
    else
      var other := txns[|txns| - 1];
      NetOut(txns[..|txns| - 1], t)
      + if SameUse(t, other) then (match other.kind case Withdraw => other.qty case PutBack => -other.qty case PendingWithdraw => 0) else 0
  }

  predicate ReceiptPasses(x: Receipt) { x.qty > 0 && x.totalPrice >= 0 }

  predicate PartPasses(r: Records, p: PartRow) {
    && (forall i :: 0 <= i < |p.receipts| ==> ReceiptPasses(p.receipts[i]))
    && p.qtyInStock == Received(p.receipts) + NetMovement(r.txns, p.id) && p.qtyInStock >= 0
    && (forall i :: 0 <= i < |r.txns| && r.txns[i].part == p.id && r.txns[i].kind.PutBack? ==> NetOut(r.txns, r.txns[i]) >= 0)
  }

  predicate ExtensionPasses(r: Records, x: ExtensionRow) {
    && x.requestedReturn > x.currentReturn
    && (x.status.Granted? ==> forall i :: 0 <= i < |r.loans| && r.loans[i].id == x.loan ==> r.loans[i].expectedReturn >= x.requestedReturn)
  }

  predicate DisposalPasses(r: Records, d: DemoDisposal) {
    exists i :: 0 <= i < |r.assets| && r.assets[i].id == d.asset && r.assets[i].condition.Disposal?
  }

  /** `t` is an answer the database may give to "the asset's latest transfer". */
  predicate IsLatest(transfers: seq<DemoTransfer>, asset: string, t: DemoTransfer) {
    t in transfers && t.asset == asset && forall i :: 0 <= i < |transfers| && transfers[i].asset == asset ==> transfers[i].date <= t.date
  }

  /** Whichever latest transfer the database returns, it ends at the asset's section. */
  predicate TransferPasses(r: Records, a: AssetRow) {
    forall i :: 0 <= i < |r.transfers| && IsLatest(r.transfers, a.id, r.transfers[i]) ==> r.transfers[i].to == a.section
  }

  predicate WorkflowsPass(r: Records) {
    && (forall i :: 0 <= i < |r.assets| ==> AssetPasses(r, r.assets[i]))
    && (forall i :: 0 <= i < |r.loans| ==> LoanPasses(r.loans[i]))
    && (forall i :: 0 <= i < |r.jobs| ==> JobPasses(r.jobs[i]))
    && (forall i :: 0 <= i < |r.extensions| ==> ExtensionPasses(r, r.extensions[i]))
    && (forall i :: 0 <= i < |r.disposals| ==> DisposalPasses(r, r.disposals[i]))
  }

  predicate Passes(r: Records) {
    && WorkflowsPass(r)
    && (forall i :: 0 <= i < |r.parts| ==> PartPasses(r, r.parts[i]))
    && (forall i :: 0 <= i < |r.assets| ==> TransferPasses(r, r.assets[i]))
  }

  // ---- What validation leaves open -------------------------------------------------------------------------

  /** The three things a fixture is not asked before it is written. */
  predicate ReadyToShow(f: Fixture) {
    && (forall i :: 0 <= i < |f.parts| && f.parts[i].opening > 0 ==> f.parts[i].price >= 0)
    && (forall i :: 0 <= i < |f.repairs| && f.repairs[i].status.Completed? ==> f.repairs[i].track.Some?)
    && TiedTransfersAgree(f)
  }

  /** Of the transfers at an asset's latest instant, no two have different destinations. */
  predicate TiedTransfersAgree(f: Fixture) {
    forall i, j :: 0 <= i < |f.transfers| && 0 <= j < |f.transfers|
                   && IsLatest(f.transfers, f.transfers[i].asset, f.transfers[i]) && IsLatest(f.transfers, f.transfers[i].asset, f.transfers[j])
                   ==> f.transfers[i].to == f.transfers[j].to
  }

  /** Every transfer at an asset's latest instant ends at the asset's section. */
  predicate LatestTransfersAgree(f: Fixture) {
    forall i, m :: 0 <= i < |f.transfers| && 0 <= m < |f.assets| && IsLatest(f.transfers, f.assets[m].key, f.transfers[i]) ==>
      f.transfers[i].to == f.assets[m].section
  }

  lemma SameViews(f: Fixture)
    ensures RowLoanViews(Written(f).loans) == LoanViews(f.borrows) && RowJobViews(Written(f).jobs) == JobViews(f.repairs)
  {
  }

  lemma {:induction false} SortedStays(steps: seq<StepRow>)
    requires InOrderBy(steps, StepNumber)
    ensures SortBy(steps, StepNumber) == steps
  {
    if steps != [] {
      SortedStays(steps[..|steps| - 1]);
      assert steps == steps[..|steps| - 1] + [steps[|steps| - 1]];
    }
  }

  /** A written repair passes unless it was completed without ever being given a track. */
  lemma WrittenRepair(f: Fixture, j: DemoRepair)
    requires RepairValid(f, j)
    ensures JobPasses(JobRowOf(j, f.date)) <==> (j.status.Completed? ==> j.track.Some?)
  {
    var steps := StepRows(j, f.date);
    StepsInOrder(j, f.date);
    hide StepRows, SortBy;
    SortedStays(steps);
    assert j.completedSteps == MaxSteps(j.track) ==> forall i :: 0 <= i < |steps| ==> steps[i].completeAt.Some?;
  }

  /** A track's steps are numbered in order, and complete up to the count. */
  lemma StepsInOrder(j: DemoRepair, now: Time)
    ensures var steps := StepRows(j, now);
            && |steps| == MaxSteps(j.track) && InOrderBy(steps, StepNumber)
            && (forall i :: 0 <= i < |steps| ==> (steps[i].completeAt.Some? <==> i < j.completedSteps))
  {
  }

  lemma {:induction false} SameNet(txns: seq<DemoTxn>, t: DemoTxn)
    ensures NetOut(txns, t) == NetWithdrawn(txns, t)
  {
    if txns != [] { SameNet(txns[..|txns| - 1], t); }
  }

  /** A written part passes unless a lot was bought at a negative price. */
  lemma WrittenPart(f: Fixture, p: DemoPart)
    requires StockBalance(f.txns, p) >= 0 && forall i :: 0 <= i < |f.txns| ==> TxnValid(f, f.txns[i])
    ensures PartPasses(Written(f), PartRowOf(f, p)) <==> (p.opening > 0 ==> p.price >= 0)
  {
    ReceiptsAddUp(p);
    forall i | 0 <= i < |f.txns| && f.txns[i].kind.PutBack? ensures NetOut(f.txns, f.txns[i]) >= 0 { SameNet(f.txns, f.txns[i]); }
    var plan := PartReceiptPlan(p);
    forall i | 0 <= i < |plan| ensures ReceiptPasses(plan[i]) <==> p.price >= 0 { Priced(plan[i].qty, p.price); }
    assert p.opening > 0 ==> (ReceiptPasses(plan[0]) <==> p.price >= 0);
  }

  lemma Priced(qty: int, price: int)
    requires qty > 0
    ensures qty * price >= 0 <==> price >= 0
  {
  }

  lemma WrittenWorkflows(f: Fixture)
    requires Valid(f)
    ensures var r := Written(f);
            && (forall i :: 0 <= i < |r.assets| ==> AssetPasses(r, r.assets[i]))
            && (forall i :: 0 <= i < |r.loans| ==> LoanPasses(r.loans[i]))
            && (forall i :: 0 <= i < |r.disposals| ==> DisposalPasses(r, r.disposals[i]))
  {
    var r := Written(f);
    SameViews(f);
    hide UniqueKeys, PeriodsDisjoint, ExtensionValid, RepairValid, TxnValid, TransferValid, TransfersArrive, AssetFits, StockBalance;
    forall i | 0 <= i < |r.assets| ensures AssetPasses(r, r.assets[i]) { assert AssetValid(f, f.assets[i]); }
    forall i | 0 <= i < |r.loans| ensures LoanPasses(r.loans[i]) { assert BorrowValid(f, f.borrows[i]); }
    forall i | 0 <= i < |r.disposals| ensures DisposalPasses(r, r.disposals[i]) {
      assert DisposalValid(f, f.disposals[i]);
      var k :| 0 <= k < |f.assets| && f.assets[k].key == f.disposals[i].asset && f.assets[k].condition.Disposal?;
      assert r.assets[k] == AssetRowOf(f.assets[k]);
    }
  }

  lemma WrittenExtension(f: Fixture, x: DemoExtension)
    requires UniqueKeys(f) && ExtensionValid(f, x)
    ensures ExtensionPasses(Written(f), ExtensionRowOf(x))
  {
    var k :| 0 <= k < |f.borrows| && f.borrows[k].key == x.borrow && f.borrows[k].status.OnLoan?
             && (x.status.Granted? ==> f.borrows[k].expectedReturn == x.requestedDate);
    forall i | 0 <= i < |Written(f).loans| && Written(f).loans[i].id == x.borrow ensures i == k { BorrowKeysDiffer(f, i, k); }
  }

  lemma BorrowKeysDiffer(f: Fixture, i: nat, k: nat)
    requires UniqueKeys(f) && i < |f.borrows| && k < |f.borrows| && f.borrows[i].key == f.borrows[k].key
    ensures i == k
  {
    var keys := KeyLists(f)[2];
    assert Distinct(keys) && keys[i] == f.borrows[i].key && keys[k] == f.borrows[k].key;
  }

  /**
   * An accepted fixture, once written, passes every rule of the check exactly when its opening lots
   * have no negative price, its completed repairs have a track, and transfers tied at an asset's
   * latest instant agree on where it went.
   */
  lemma AcceptedFixturesPassExactly(f: Fixture)
    requires Valid(f)
    ensures Passes(Written(f)) <==> ReadyToShow(f)
  {
    var r := Written(f);
    WrittenWorkflows(f);
    hide UniqueKeys, AssetValid, BorrowValid, PeriodsDisjoint, ExtensionValid, RepairValid, TxnValid, TransferValid, TransfersArrive,
         DisposalValid, StockBalance, AssetPasses, LoanPasses, JobPasses, PartPasses, ExtensionPasses, DisposalPasses,
         LatestTransfersAgree, TiedTransfersAgree, JobRowOf, PartRowOf, ExtensionRowOf, NotificationValid;
    forall i | 0 <= i < |r.jobs| ensures JobPasses(r.jobs[i]) <==> (f.repairs[i].status.Completed? ==> f.repairs[i].track.Some?) {
      WrittenRepair(f, f.repairs[i]);
    }
    forall i | 0 <= i < |r.extensions| ensures ExtensionPasses(r, r.extensions[i]) { WrittenExtension(f, f.extensions[i]); }
    forall i | 0 <= i < |r.parts| ensures PartPasses(r, r.parts[i]) <==> (f.parts[i].opening > 0 ==> f.parts[i].price >= 0) {
      WrittenPart(f, f.parts[i]);
    }
    TransfersPassExactly(f);
    TiesDecide(f);
    PassesByParts(f, r);
  }

  lemma TransfersPassExactly(f: Fixture)
    ensures (forall m :: 0 <= m < |Written(f).assets| ==> TransferPasses(Written(f), Written(f).assets[m])) <==>
              LatestTransfersAgree(f)
  {
    hide IsLatest;
    var r := Written(f);
    assert forall m :: 0 <= m < |f.assets| ==> r.assets[m].id == f.assets[m].key && r.assets[m].section == f.assets[m].section;
    if forall m :: 0 <= m < |r.assets| ==> TransferPasses(r, r.assets[m]) {
      forall i, m | 0 <= i < |f.transfers| && 0 <= m < |f.assets| && IsLatest(f.transfers, f.assets[m].key, f.transfers[i])
        ensures f.transfers[i].to == f.assets[m].section
      {
        assert TransferPasses(r, r.assets[m]);
      }
    }
  }

  lemma PassesByParts(f: Fixture, r: Records)
    requires r == Written(f)
    requires forall i :: 0 <= i < |r.assets| ==> AssetPasses(r, r.assets[i])
    requires forall i :: 0 <= i < |r.loans| ==> LoanPasses(r.loans[i])
    requires forall i :: 0 <= i < |r.disposals| ==> DisposalPasses(r, r.disposals[i])
    requires forall i :: 0 <= i < |r.extensions| ==> ExtensionPasses(r, r.extensions[i])
    requires forall i :: 0 <= i < |r.jobs| ==> (JobPasses(r.jobs[i]) <==> (f.repairs[i].status.Completed? ==> f.repairs[i].track.Some?))
    requires forall i :: 0 <= i < |r.parts| ==> (PartPasses(r, r.parts[i]) <==> (f.parts[i].opening > 0 ==> f.parts[i].price >= 0))
    requires (forall m :: 0 <= m < |r.assets| ==> TransferPasses(r, r.assets[m])) <==> TiedTransfersAgree(f)
    ensures Passes(r) <==> ReadyToShow(f)
  {
    hide AssetPasses, LoanPasses, JobPasses, PartPasses, ExtensionPasses, DisposalPasses, TransferPasses, TiedTransfersAgree,
         JobRowOf, PartRowOf;
    if Passes(r) {
      forall i | 0 <= i < |f.parts| && f.parts[i].opening > 0 ensures f.parts[i].price >= 0 { assert PartPasses(r, r.parts[i]); }
      forall i | 0 <= i < |f.repairs| && f.repairs[i].status.Completed? ensures f.repairs[i].track.Some? { assert JobPasses(r.jobs[i]); }
    }
  }

  /** The stock written is what the receipts and movements recount to, and the fixture's own balance if the part opens at or above zero. */
  lemma StockIsAccountedFor(f: Fixture, i: nat)
    requires i < |f.parts|
    ensures var p := Written(f).parts[i];
            && p.qtyInStock == Received(p.receipts) + NetMovement(f.txns, f.parts[i].key)
            && (p.qtyInStock == StockBalance(f.txns, f.parts[i]) <==> f.parts[i].opening >= 0)
  {
    ReceiptsAddUp(f.parts[i]);
  }

  /** The last of an asset's transfers, in order of date and then of listing, is one of its latest. */
  lemma LastIsLatest(transfers: seq<DemoTransfer>, asset: string)
    requires exists i :: 0 <= i < |transfers| && transfers[i].asset == asset
    ensures var moves := SortBy(TransfersOf(transfers, asset), TransferDate);
            |moves| > 0 && IsLatest(transfers, asset, moves[|moves| - 1])
  {
    hide SortBy, TransfersOf;
    var moves := TransfersOf(transfers, asset);
    SortKeepsOrder(moves, TransferDate);
    var sorted := SortBy(moves, TransferDate);
    var i :| 0 <= i < |transfers| && transfers[i].asset == asset;
    assert transfers[i] in moves;
    assert transfers[i] in sorted;
    var last := sorted[|sorted| - 1];
    assert last in sorted;
    forall k | 0 <= k < |transfers| && transfers[k].asset == asset ensures transfers[k].date <= last.date {
      assert transfers[k] in moves;
      assert transfers[k] in sorted;
      var n :| 0 <= n < |sorted| && sorted[n] == transfers[k];
    }
  }

  /** In an accepted fixture, ties that agree with each other agree with the asset's section, and the other way round. */
  lemma TiesDecide(f: Fixture)
    requires Valid(f)
    ensures TiedTransfersAgree(f) <==> LatestTransfersAgree(f)
  {
    hide UniqueKeys, AssetValid, BorrowValid, PeriodsDisjoint, ExtensionValid, RepairValid, TxnValid, DisposalValid, StockBalance, TransfersArrive,
         NotificationValid, IsLatest, SortBy, TransfersOf;
    if TiedTransfersAgree(f) {
      forall i, m | 0 <= i < |f.transfers| && 0 <= m < |f.assets| && IsLatest(f.transfers, f.assets[m].key, f.transfers[i])
        ensures f.transfers[i].to == f.assets[m].section
      {
        LatestIsOne(f.transfers, f.assets[m].key, f.transfers[i]);
        LastIsLatest(f.transfers, f.assets[m].key);
        var last := ArrivesLast(f, f.assets[m]);
        LatestIsOne(f.transfers, f.assets[m].key, last);
        var k :| 0 <= k < |f.transfers| && f.transfers[k] == last;
      }
    }
    if LatestTransfersAgree(f) {
      forall i, j | 0 <= i < |f.transfers| && 0 <= j < |f.transfers|
                    && IsLatest(f.transfers, f.transfers[i].asset, f.transfers[i]) && IsLatest(f.transfers, f.transfers[i].asset, f.transfers[j])
        ensures f.transfers[i].to == f.transfers[j].to
      {
        assert TransferValid(f, f.transfers[i]);
        var m :| 0 <= m < |f.assets| && f.assets[m].key == f.transfers[i].asset;
      }
    }
  }

  lemma ArrivesLast(f: Fixture, m: DemoAsset) returns (last: DemoTransfer)
    requires TransfersArrive(f, m)
    requires var moves := SortBy(TransfersOf(f.transfers, m.key), TransferDate); |moves| > 0
    ensures var moves := SortBy(TransfersOf(f.transfers, m.key), TransferDate); last == moves[|moves| - 1] && last.to == m.section
  {
    var moves := SortBy(TransfersOf(f.transfers, m.key), TransferDate);
    last := moves[|moves| - 1];
  }

  lemma LatestIsOne(transfers: seq<DemoTransfer>, asset: string, t: DemoTransfer)
    requires IsLatest(transfers, asset, t)
    ensures t in transfers && t.asset == asset
  {
  }

  /** One instant for each of an asset's transfers is enough to be sure of the last one. */
  lemma DistinctInstantsSuffice(f: Fixture)
    requires forall i, j :: 0 <= i < j < |f.transfers| && f.transfers[i].asset == f.transfers[j].asset ==> f.transfers[i].date != f.transfers[j].date
    ensures TiedTransfersAgree(f)
  {
    forall i, j | 0 <= i < |f.transfers| && 0 <= j < |f.transfers|
                  && IsLatest(f.transfers, f.transfers[i].asset, f.transfers[i]) && IsLatest(f.transfers, f.transfers[i].asset, f.transfers[j])
      ensures f.transfers[i].to == f.transfers[j].to
    {
      assert f.transfers[i].date == f.transfers[j].date;
    }
  }

  const Untracked := Fixture(10, ["S"], [User("u", "S")], [DemoAsset("a", "S", 0, Normal, Available)], [], [],
                             [DemoRepair("r", "a", "u", [], None, 0, false, Completed, 1, Some(2))], [], [], [], [], [])

  lemma UntrackedAsset()
    ensures AssetValid(Untracked, Untracked.assets[0]) && PeriodsDisjoint(Untracked, "a") && TransfersArrive(Untracked, Untracked.assets[0])
  {
  }

  lemma UntrackedRepair()
    ensures RepairValid(Untracked, Untracked.repairs[0]) && UniqueKeys(Untracked)
  {
    assert Untracked.users[0].key == "u" && Untracked.assets[0].key == "a";
    assert forall n :: 0 <= n < |KeyLists(Untracked)| ==> |KeyLists(Untracked)[n]| <= 1;
  }

  /** A repair closed without a track is accepted, and fails the check it is written for. */
  lemma CompletedWithoutTrackIsAccepted()
    ensures Valid(Untracked) && !Passes(Written(Untracked))
  {
    UntrackedAsset();
    UntrackedRepair();
    hide AssetValid, PeriodsDisjoint, TransfersArrive, RepairValid, UniqueKeys, Passes, Written;
    AcceptedFixturesPassExactly(Untracked);
    assert Untracked.repairs[0].status.Completed? && Untracked.repairs[0].track.None?;
  }

  /** Nothing but one asset, and what a witness adds to it. */
  const Bare := Fixture(10, ["A", "B", "C"], [], [DemoAsset("a", "C", 0, Normal, Available)], [], [], [], [], [], [], [], [])

  const Underpriced := Bare.(parts := [DemoPart("p", -1, 1)])

  const Tied := Bare.(transfers := [DemoTransfer("t", "a", "A", "B", 5), DemoTransfer("u", "a", "B", "C", 5)])

  lemma BareAsset(f: Fixture)
    requires f.assets == Bare.assets && f.sections == Bare.sections && f.borrows == [] && f.repairs == [] && f.date == 10
    ensures AssetValid(f, f.assets[0]) && PeriodsDisjoint(f, "a")
  {
  }

  /** A lot bought at a negative price is accepted, and fails the check. */
  lemma NegativePriceIsAccepted()
    ensures Valid(Underpriced) && !Passes(Written(Underpriced))
  {
    var f := Underpriced;
    BareAsset(f);
    assert forall n :: 0 <= n < |KeyLists(f)| ==> |KeyLists(f)[n]| <= 1;
    assert StockBalance(f.txns, f.parts[0]) == 1 && TransfersArrive(f, f.assets[0]);
    hide AssetValid, PeriodsDisjoint, TransfersArrive, StockBalance, Passes, Written;
    AcceptedFixturesPassExactly(f);
    assert f.parts[0].opening > 0 && f.parts[0].price < 0;
  }

  /** Two transfers of one instant are accepted in the order listed, and the database may answer with either. */
  lemma TiedTransfersAreAccepted()
    ensures Valid(Tied) && !Passes(Written(Tied))
  {
    TiedIsValid();
    var f := Tied;
    hide Valid, Passes, Written;
    AcceptedFixturesPassExactly(f);
    assert IsLatest(f.transfers, f.transfers[0].asset, f.transfers[0]) && IsLatest(f.transfers, f.transfers[0].asset, f.transfers[1]);
    assert f.transfers[0].to[0] != f.transfers[1].to[0];
  }

  lemma TiedIsValid()
    ensures Valid(Tied)
  {
    hide AssetValid, PeriodsDisjoint, TransfersArrive, UniqueKeys, TransferValid, BorrowValid, ExtensionValid, RepairValid, TxnValid,
         DisposalValid, NotificationValid, StockBalance;
    BareAsset(Tied);
    TiedKeys();
    TiedArrive();
    TiedTransfer(0);
    TiedTransfer(1);
    assert Tied.assets[0].key == "a";
    assert WorkflowsValid(Tied) && LedgersValid(Tied);
  }

  lemma TiedTransfer(i: nat)
    requires i < 2
    ensures TransferValid(Tied, Tied.transfers[i])
  {
    var f := Tied;
    assert f.assets[0].key == "a" && "A" == f.sections[0] && "B" == f.sections[1] && "C" == f.sections[2];
    assert f.transfers[i].from[0] != f.transfers[i].to[0];
  }

  lemma TiedKeys()
    ensures UniqueKeys(Tied)
  {
    var lists := KeyLists(Tied);
    assert "t"[0] != "u"[0];
    assert lists[7] == ["t", "u"];
    assert forall n :: 0 <= n < |lists| && n != 7 ==> |lists[n]| <= 1;
  }

  lemma TiedArrive()
    ensures TransfersArrive(Tied, Tied.assets[0])
  {
    var t, u := Tied.transfers[0], Tied.transfers[1];
    var moves := TransfersOf(Tied.transfers, "a");
    assert Tied.transfers[1..] == [u] && [u][1..] == [];
    assert TransfersOf([u], "a") == [u];
    assert moves == [t, u];
    assert moves[..1] == [t] && [t][..0] == [];
    assert SortBy([t], TransferDate) == [t];
    assert SortBy(moves, TransferDate) == [t, u];
  }

  // ---- checkPresentation ---------------------------------------------------------------------------------------

  method CheckAssets(r: Records) returns (errors: seq<string>)
    ensures errors == [] <==> forall i :: 0 <= i < |r.assets| ==> AssetPasses(r, r.assets[i])
  {
    errors := [];
    for k := 0 to |r.assets|
      invariant errors == [] <==> forall i :: 0 <= i < k ==> AssetPasses(r, r.assets[i])
    {
      var asset := r.assets[k];
      var loans, jobs := ActiveLoans(RowLoanViews(r.loans), asset.id), OpenJobs(RowJobViews(r.jobs), asset.id);
      if |loans| > 1 || jobs > 1 || (|loans| > 0 && jobs > 0) { errors := errors + ["Overlapping active workflows"]; }
      if asset.availability != RequiredAvailability(loans, asset.condition) || (asset.condition.UnderRepair? != (jobs > 0)) {
        errors := errors + ["Asset state does not match its workflows"];
      }
      if |loans| > 0 && !asset.condition.Normal? { errors := errors + ["Active loan on non-normal asset"]; }
    }
  }

  /** One repair's steps, walked in order with a flag that is raised at the first incomplete one. */
  method CheckJob(j: JobRow) returns (errors: seq<string>)
    ensures errors == [] <==> JobPasses(j)
  {
    errors := [];
    var steps := SortBy(j.steps, StepNumber);
    if |steps| > 0 && |j.technicians| == 0 { errors := ["Diagnosed repair has no assigned technician"]; }
    var incomplete := false;
    for k := 0 to |steps|
      invariant incomplete <==> exists i :: 0 <= i < k && steps[i].completeAt.None?
      invariant errors == [] <==> (|steps| > 0 ==> |j.technicians| > 0) && NoneSkipped(steps[..k])
    {
      assert steps[..k + 1] == steps[..k] + [steps[k]];
      SkippedAt(steps, k);
      if incomplete && steps[k].completeAt.Some? { errors := errors + ["Repair steps were skipped"]; }
      if steps[k].completeAt.None? { incomplete := true; }
    }
    assert steps[..|steps|] == steps;
    if j.status.Completed? && (j.returnDate.None? || |steps| == 0 || incomplete) { errors := errors + ["Closed repair is incomplete"]; }
  }

  lemma SkippedAt(steps: seq<StepRow>, k: nat)
    requires k < |steps|
    ensures NoneSkipped(steps[..k + 1]) <==>
              NoneSkipped(steps[..k]) && (steps[k].completeAt.Some? ==> forall i :: 0 <= i < k ==> steps[i].completeAt.Some?)
  {
  }

  /** One part: its receipts, the recount of its stock, and each return against what was out. */
  method CheckPart(r: Records, p: PartRow) returns (errors: seq<string>)
    ensures errors == [] <==> PartPasses(r, p)
  {
    errors := [];
    for k := 0 to |p.receipts|
      invariant errors == [] <==> forall i :: 0 <= i < k ==> ReceiptPasses(p.receipts[i])
    {
      if p.receipts[k].qty <= 0 || p.receipts[k].totalPrice < 0 { errors := errors + ["Invalid stock receipt"]; }
    }
    var received := 0;
    for k := 0 to |p.receipts|
      invariant received == Received(p.receipts[..k])
    {
      assert p.receipts[..k + 1][..k] == p.receipts[..k];
      received := received + p.receipts[k].qty;
    }
    assert p.receipts[..|p.receipts|] == p.receipts;
    var balance := received;
    for k := 0 to |r.txns|
      invariant balance == received + NetMovement(r.txns[..k], p.id)
    {
      assert r.txns[..k + 1][..k] == r.txns[..k];
      var t := r.txns[k];
      if t.part == p.id && t.internal {
        balance := balance + match t.kind case PutBack => t.qty case Withdraw => -t.qty case PendingWithdraw => 0;
      }
    }
    assert r.txns[..|r.txns|] == r.txns;
    if balance != p.qtyInStock || balance < 0 { errors := errors + ["Stock ledger mismatch"]; }
    for k := 0 to |r.txns|
      invariant errors == [] <==>
                  && (forall i :: 0 <= i < |p.receipts| ==> ReceiptPasses(p.receipts[i]))
                  && p.qtyInStock == Received(p.receipts) + NetMovement(r.txns, p.id) && p.qtyInStock >= 0
                  && (forall i :: 0 <= i < k && r.txns[i].part == p.id && r.txns[i].kind.PutBack? ==> NetOut(r.txns, r.txns[i]) >= 0)
    {
      if r.txns[k].part == p.id && r.txns[k].kind.PutBack? && NetOut(r.txns, r.txns[k]) < 0 {
        errors := errors + ["Return exceeds previous withdrawal"];
      }
    }
  }

  method CheckWorkflows(r: Records) returns (errors: seq<string>)
    ensures errors == [] <==> WorkflowsPass(r)
  {
    hide AssetPasses, LoanPasses, JobPasses, ExtensionPasses, DisposalPasses;
    errors := CheckAssets(r);
    for k := 0 to |r.loans|
      invariant errors == [] <==>
                  (forall i :: 0 <= i < |r.assets| ==> AssetPasses(r, r.assets[i])) && (forall i :: 0 <= i < k ==> LoanPasses(r.loans[i]))
    {
      if !LoanPasses(r.loans[k]) { errors := errors + ["Borrow dates are out of order"]; }
    }
    ghost var soFar := errors == [];
    for k := 0 to |r.jobs|
      invariant errors == [] <==> soFar && forall i :: 0 <= i < k ==> JobPasses(r.jobs[i])
    {
      var more := CheckJob(r.jobs[k]);
      errors := errors + more;
    }
    soFar := errors == [];
    for k := 0 to |r.extensions|
      invariant errors == [] <==> soFar && forall i :: 0 <= i < k ==> ExtensionPasses(r, r.extensions[i])
    {
      if !ExtensionPasses(r, r.extensions[k]) { errors := errors + ["Invalid or absent extension"]; }
    }
    soFar := errors == [];
    for k := 0 to |r.disposals|
      invariant errors == [] <==> soFar && forall i :: 0 <= i < k ==> DisposalPasses(r, r.disposals[i])
    {
      if !DisposalPasses(r, r.disposals[k]) { errors := errors + ["Disposal record disagrees with asset status"]; }
    }
  }

  lemma SomeTransferIsLatest(transfers: seq<DemoTransfer>, asset: string)
    requires exists i :: 0 <= i < |transfers| && transfers[i].asset == asset
    ensures exists t :: t in transfers && IsLatest(transfers, asset, t)
  {
    LastIsLatest(transfers, asset);
    var moves := SortBy(TransfersOf(transfers, asset), TransferDate);
    hide SortBy, TransfersOf;
    assert moves[|moves| - 1] in transfers;
  }

  /**
   * No errors whenever the records pass every rule; and without errors they pass every rule, the
   * transfer rule for the answers the database gave.
   */
  method CheckPresentation(r: Records) returns (errors: seq<string>)
    ensures Passes(r) ==> errors == []
    ensures errors == [] ==> WorkflowsPass(r) && forall i :: 0 <= i < |r.parts| ==> PartPasses(r, r.parts[i])
    ensures errors == [] ==> forall i :: 0 <= i < |r.assets| ==> ArrivesSomehow(r, r.assets[i])
  {
    hide WorkflowsPass, PartPasses, IsLatest;
    errors := CheckWorkflows(r);
    for k := 0 to |r.parts|
      invariant errors == [] <==> WorkflowsPass(r) && forall i :: 0 <= i < k ==> PartPasses(r, r.parts[i])
    {
      var more := CheckPart(r, r.parts[k]);
      errors := errors + more;
    }
    for k := 0 to |r.assets|
      invariant Passes(r) ==> errors == []
      invariant errors == [] ==> WorkflowsPass(r) && forall i :: 0 <= i < |r.parts| ==> PartPasses(r, r.parts[i])
      invariant errors == [] ==> forall i :: 0 <= i < k ==> ArrivesSomehow(r, r.assets[i])
    {
      var asset := r.assets[k];
      if exists i :: 0 <= i < |r.transfers| && r.transfers[i].asset == asset.id {
        SomeTransferIsLatest(r.transfers, asset.id);
        var latest :| latest in r.transfers && IsLatest(r.transfers, asset.id, latest);
        if latest.to != asset.section {
          errors := errors + ["Transfer history disagrees with asset section"];
          var i :| 0 <= i < |r.transfers| && r.transfers[i] == latest;
          assert !TransferPasses(r, asset);
        }
      }
    }
  }

  /** The asset has no transfers, or one of its latest ends at its section. */
  predicate ArrivesSomehow(r: Records, a: AssetRow) {
    (forall i :: 0 <= i < |r.transfers| ==> r.transfers[i].asset != a.id)
    || exists t :: t in r.transfers && IsLatest(r.transfers, a.id, t) && t.to == a.section
  }
}
