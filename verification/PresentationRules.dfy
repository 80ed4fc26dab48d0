/**
 * The fixture's rules and totals said a second time, by index and by count, with nothing but the
 * columns: what it means that a list of active loans is short, that a balance is right, that a row was
 * written from its fixture.
 */
module PresentationRules {
  import opened Prelude
  import opened LoanState
  import opened Timeline
  import opened PresentationFixture
  import opened PresentationRecords
  import opened PresentationCheck

  // ---- Counting ------------------------------------------------------------------------------------------

  predicate Engages(l: LoanView, asset: string) {
    l.asset == asset && l.status in {PendingApprove, Approved, OnLoan, PendingReturn, InPickup}
  }

  lemma {:induction false} NoActiveLoans(loans: seq<LoanView>, asset: string)
    ensures ActiveLoans(loans, asset) == [] <==> forall i :: 0 <= i < |loans| ==> !Engages(loans[i], asset)
  {
    if loans != [] {
      NoActiveLoans(loans[1..], asset);
      hide Engages;
      assert ActiveLoans(loans, asset) == [] <==> !Engages(loans[0], asset) && ActiveLoans(loans[1..], asset) == [] by { FirstEngages(loans, asset); }
      if !Engages(loans[0], asset) && ActiveLoans(loans[1..], asset) == [] {
        forall i | 0 <= i < |loans| ensures !Engages(loans[i], asset) { if i > 0 { assert loans[1..][i - 1] == loans[i]; } }
      }
      if forall i :: 0 <= i < |loans| ==> !Engages(loans[i], asset) {
        forall i | 0 <= i < |loans[1..]| ensures !Engages(loans[1..][i], asset) { assert loans[1..][i] == loans[i + 1]; }
      }
    }
  }

  lemma FirstEngages(loans: seq<LoanView>, asset: string)
    requires loans != []
    ensures ActiveLoans(loans, asset) ==
              (if Engages(loans[0], asset) then [loans[0].status] else []) + ActiveLoans(loans[1..], asset)
  {
  }

  lemma {:induction false} OneActiveLoan(loans: seq<LoanView>, asset: string)
    ensures |ActiveLoans(loans, asset)| <= 1 <==>
              forall i, j :: 0 <= i < j < |loans| ==> !(Engages(loans[i], asset) && Engages(loans[j], asset))
  {
    if loans != [] {
      var rest := loans[1..];
      OneActiveLoan(rest, asset);
      NoActiveLoans(rest, asset);
      FirstEngages(loans, asset);
      hide Engages, ActiveLoans;
      if |ActiveLoans(loans, asset)| <= 1 {
        forall i, j | 0 <= i < j < |loans| ensures !(Engages(loans[i], asset) && Engages(loans[j], asset)) {
          assert rest[j - 1] == loans[j];
          if i > 0 { assert rest[i - 1] == loans[i]; }
        }
      }
      if forall i, j :: 0 <= i < j < |loans| ==> !(Engages(loans[i], asset) && Engages(loans[j], asset)) {
        forall i, j | 0 <= i < j < |rest| ensures !(Engages(rest[i], asset) && Engages(rest[j], asset)) {
          assert rest[i] == loans[i + 1] && rest[j] == loans[j + 1];
        }
        if Engages(loans[0], asset) {
          forall j | 0 <= j < |rest| ensures !Engages(rest[j], asset) { assert rest[j] == loans[j + 1]; }
        }
      }
    }
  }

  lemma {:induction false} FirstActiveLoan(loans: seq<LoanView>, asset: string)
    requires ActiveLoans(loans, asset) != []
    ensures exists i :: 0 <= i < |loans| && Engages(loans[i], asset) && loans[i].status == ActiveLoans(loans, asset)[0]
  {
    FirstEngages(loans, asset);
    if !Engages(loans[0], asset) {
      FirstActiveLoan(loans[1..], asset);
      var i :| 0 <= i < |loans[1..]| && Engages(loans[1..][i], asset) && loans[1..][i].status == ActiveLoans(loans[1..], asset)[0];
      assert loans[i + 1] == loans[1..][i];
    }
  }

  predicate Occupies(j: JobView, asset: string) { j.asset == asset && j.open }

  lemma {:induction false} OpenJobsAre(jobs: seq<JobView>, asset: string)
    ensures OpenJobs(jobs, asset) == 0 <==> forall i :: 0 <= i < |jobs| ==> !Occupies(jobs[i], asset)
    ensures OpenJobs(jobs, asset) <= 1 <==> forall i, j :: 0 <= i < j < |jobs| ==> !(Occupies(jobs[i], asset) && Occupies(jobs[j], asset))
  {
    if jobs != [] {
      OpenJobsAre(jobs[1..], asset);
      assert forall i :: 0 <= i < |jobs[1..]| ==> jobs[1..][i] == jobs[i + 1];
      assert OpenJobs(jobs[1..], asset) == 0 <==> forall i :: 1 <= i < |jobs| ==> !Occupies(jobs[i], asset) by {
        if OpenJobs(jobs[1..], asset) == 0 {
          forall i | 1 <= i < |jobs| ensures !Occupies(jobs[i], asset) { assert jobs[1..][i - 1] == jobs[i]; }
        }
      }
      assert (forall i, j :: 1 <= i < j < |jobs| ==> !(Occupies(jobs[i], asset) && Occupies(jobs[j], asset))) <==> OpenJobs(jobs[1..], asset) <= 1 by {
        if OpenJobs(jobs[1..], asset) <= 1 {
          forall i, j | 1 <= i < j < |jobs| ensures !(Occupies(jobs[i], asset) && Occupies(jobs[j], asset)) {
            assert jobs[1..][i - 1] == jobs[i] && jobs[1..][j - 1] == jobs[j];
          }
        }
      }
    }
  }

  /** What the state of an asset must be, given who has it: at most one loan or repair, and where that one puts it. */
  lemma AssetFitsExactly(asset: string, condition: Condition, availability: Availability, loans: seq<LoanView>, jobs: seq<JobView>)
    ensures AssetFits(asset, condition, availability, loans, jobs) <==>
              && (forall i, j :: 0 <= i < j < |loans| ==> !(Engages(loans[i], asset) && Engages(loans[j], asset)))
              && (forall i, j :: 0 <= i < j < |jobs| ==> !(Occupies(jobs[i], asset) && Occupies(jobs[j], asset)))
              && (forall i, j :: 0 <= i < |loans| && 0 <= j < |jobs| ==> !(Engages(loans[i], asset) && Occupies(jobs[j], asset)))
              && (condition.UnderRepair? <==> exists j :: 0 <= j < |jobs| && Occupies(jobs[j], asset))
              && (forall i :: 0 <= i < |loans| && Engages(loans[i], asset) ==>
                    condition.Normal?
                    && availability == match loans[i].status case PendingApprove => Reserved case Approved => Reserved
                                                             case OnLoan => Borrowed case _ => Unavailable)
              && ((forall i :: 0 <= i < |loans| ==> !Engages(loans[i], asset)) ==>
                    availability == if condition.Normal? then Available else Unavailable)
  {
    NoActiveLoans(loans, asset);
    OneActiveLoan(loans, asset);
    OpenJobsAre(jobs, asset);
    var active := ActiveLoans(loans, asset);
    if active != [] { FirstActiveLoan(loans, asset); }
    hide ActiveLoans, OpenJobs, Occupies;
    if |active| == 1 {
      var i :| 0 <= i < |loans| && Engages(loans[i], asset) && loans[i].status == active[0];
      forall k | 0 <= k < |loans| && Engages(loans[k], asset) ensures k == i { }
    }
  }

  // ---- Rules ---------------------------------------------------------------------------------------------

  /** `b` is not before `a`, if both are there. */
  predicate NotBefore(a: Option<Time>, b: Option<Time>) {
    a.Some? && b.Some? ==> a.value <= b.value
  }

  predicate NotAfter(a: Option<Time>, limit: Time) {
    a.Some? ==> a.value <= limit
  }

  lemma MilestonesAre(a: Time, b: Option<Time>, c: Option<Time>, d: Option<Time>, limit: Time)
    ensures Ascending(Milestones(a, b, c, d)) <==>
              NotBefore(Some(a), b) && NotBefore(Some(a), c) && NotBefore(Some(a), d) && NotBefore(b, c) && NotBefore(b, d) && NotBefore(c, d)
    ensures (forall i :: 0 <= i < |Milestones(a, b, c, d)| ==> Milestones(a, b, c, d)[i] <= limit) <==>
              a <= limit && NotAfter(b, limit) && NotAfter(c, limit) && NotAfter(d, limit)
  {
    var m := Milestones(a, b, c, d);
    ThreeMore(a, b, c, d);
    hide Milestones, Present;
    ShortAscending(m, limit);
    hide Ascending;
    assert b.Some? ==> m[1] == b.value;
    assert c.Some? ==> m[if b.Some? then 2 else 1] == c.value;
    assert d.Some? ==> m[|m| - 1] == d.value;
  }

  lemma ThreeMore(a: Time, b: Option<Time>, c: Option<Time>, d: Option<Time>)
    ensures Milestones(a, b, c, d) == [a] + (if b.Some? then [b.value] else []) + (if c.Some? then [c.value] else []) + (if d.Some? then [d.value] else [])
  {
    var all := [Some(a), b, c, d];
    assert all[1..] == [b, c, d] && [b, c, d][1..] == [c, d] && [c, d][1..] == [d] && [d][1..] == [];
    assert Present([d]) == if d.Some? then [d.value] else [];
    assert Present([c, d]) == (if c.Some? then [c.value] else []) + Present([d]);
    assert Present([b, c, d]) == (if b.Some? then [b.value] else []) + Present([c, d]);
    assert Present(all) == [a] + Present([b, c, d]);
  }

  lemma ShortAscending(m: seq<Time>, limit: Time)
    requires 1 <= |m| <= 4
    ensures Ascending(m) <==> (|m| > 1 ==> m[0] <= m[1]) && (|m| > 2 ==> m[1] <= m[2]) && (|m| > 3 ==> m[2] <= m[3])
    ensures (forall i :: 0 <= i < |m| ==> m[i] <= limit) <==>
              m[0] <= limit && (|m| > 1 ==> m[1] <= limit) && (|m| > 2 ==> m[2] <= limit) && (|m| > 3 ==> m[3] <= limit)
  {
  }

  /** A loan: known asset and borrower, dates in order and not in the future, handed over and returned as its status says. */
  lemma BorrowRule(f: Fixture, b: DemoBorrow)
    ensures BorrowValid(f, b) <==>
              && (exists m :: m in f.assets && m.key == b.asset) && (exists u :: u in f.users && u.key == b.borrower)
              && NotBefore(Some(b.createdAt), b.approvedAt) && NotBefore(Some(b.createdAt), b.handoverAt) && NotBefore(Some(b.createdAt), b.returnAt)
              && NotBefore(b.approvedAt, b.handoverAt) && NotBefore(b.approvedAt, b.returnAt) && NotBefore(b.handoverAt, b.returnAt)
              && b.createdAt <= f.date && NotAfter(b.approvedAt, f.date) && NotAfter(b.handoverAt, f.date) && NotAfter(b.returnAt, f.date)
              && (b.status in {OnLoan, PendingReturn, InPickup, Returned} ==> b.handoverAt.Some?)
              && (b.status.Returned? ==> b.returnAt.Some? && b.inspected)
  {
    MilestonesAre(b.createdAt, b.approvedAt, b.handoverAt, b.returnAt, f.date);
    Known(f, b.asset, b.borrower);
    hide Ascending, Milestones, NotBefore, NotAfter, AssetExists, UserExists;
  }

  lemma Known(f: Fixture, asset: string, user: string)
    ensures AssetExists(f, asset) <==> exists m :: m in f.assets && m.key == asset
    ensures UserExists(f, user) <==> exists u :: u in f.users && u.key == user
  {
    if m :| m in f.assets && m.key == asset { var i :| 0 <= i < |f.assets| && f.assets[i] == m; }
    if u :| u in f.users && u.key == user { var i :| 0 <= i < |f.users| && f.users[i] == u; }
  }

  /** A repair: known people and asset, steps within its track, dates in order and not in the future, closed only when done. */
  lemma RepairRule(f: Fixture, j: DemoRepair)
    ensures RepairValid(f, j) <==>
              && (exists m :: m in f.assets && m.key == j.asset) && (exists u :: u in f.users && u.key == j.reporter)
              && (forall t :: t in j.technicians ==> exists u :: u in f.users && u.key == t)
              && j.completedSteps <= (if j.track.None? then 0 else if j.track == Some(SelfRepair) then 6 else 8)
              && j.createdAt <= f.date && NotBefore(Some(j.createdAt), j.closedAt) && NotAfter(j.closedAt, f.date)
              && (j.track.Some? ==> j.technicians != [])
              && (j.status.Completed? ==>
                    j.closedAt.Some? && j.completedSteps == if j.track.None? then 0 else if j.track == Some(SelfRepair) then 6 else 8)
  {
    Known(f, j.asset, j.reporter);
    forall i | 0 <= i < |j.technicians| ensures UserExists(f, j.technicians[i]) <==> exists u :: u in f.users && u.key == j.technicians[i] {
      Known(f, j.asset, j.technicians[i]);
    }
    hide AssetExists, UserExists;
    if forall i :: 0 <= i < |j.technicians| ==> UserExists(f, j.technicians[i]) {
      forall t | t in j.technicians ensures exists u :: u in f.users && u.key == t { var i :| 0 <= i < |j.technicians| && j.technicians[i] == t; }
    }
    if forall t :: t in j.technicians ==> exists u :: u in f.users && u.key == t {
      forall i | 0 <= i < |j.technicians| ensures UserExists(f, j.technicians[i]) { assert j.technicians[i] in j.technicians; }
    }
  }

  /** An extension: later than the date before and than today, of a loan that is out, and granted only to that loan's own date. */
  lemma ExtensionRule(f: Fixture, x: DemoExtension)
    ensures ExtensionValid(f, x) <==>
              && x.currentDate < x.requestedDate && f.date < x.requestedDate
              && exists b :: b in f.borrows && b.key == x.borrow && b.status.OnLoan? && (x.status.Granted? ==> b.expectedReturn == x.requestedDate)
  {
    if b :| b in f.borrows && b.key == x.borrow && b.status.OnLoan? && (x.status.Granted? ==> b.expectedReturn == x.requestedDate) {
      var i :| 0 <= i < |f.borrows| && f.borrows[i] == b;
    }
  }

  /** A movement: of a known part for a known repair begun by then; a waiting one for a repair not refused, not past step five, not closed. */
  lemma TxnRule(f: Fixture, t: DemoTxn)
    ensures TxnValid(f, t) <==>
              && (exists p :: p in f.parts && p.key == t.part)
              && (exists j :: j in f.repairs && j.key == t.job && j.createdAt <= t.date
                              && (t.kind.PendingWithdraw? ==> !j.rejected && j.completedSteps <= 5 && j.status.Open?))
              && t.qty >= 1 && t.unitPrice >= 0 && t.date <= f.date
              && (t.kind.PutBack? ==> NetWithdrawn(f.txns, t) >= 0)
  {
    hide NetWithdrawn;
    if p :| p in f.parts && p.key == t.part { var i :| 0 <= i < |f.parts| && f.parts[i] == p; }
    if j :| j in f.repairs && j.key == t.job && j.createdAt <= t.date
            && (t.kind.PendingWithdraw? ==> !j.rejected && j.completedSteps <= 5 && j.status.Open?) {
      var i :| 0 <= i < |f.repairs| && f.repairs[i] == j;
    }
  }

  lemma TransferRule(f: Fixture, t: DemoTransfer)
    ensures TransferValid(f, t) <==>
              && (exists m :: m in f.assets && m.key == t.asset)
              && (exists s :: s in f.sections && s == t.from) && (exists s :: s in f.sections && s == t.to)
              && t.from != t.to && t.date <= f.date
  {
    Known(f, t.asset, "");
  }

  lemma DisposalRule(f: Fixture, d: DemoDisposal)
    ensures DisposalValid(f, d) <==> d.date <= f.date && exists m :: m in f.assets && m.key == d.asset && m.condition.Disposal?
  {
    if m :| m in f.assets && m.key == d.asset && m.condition.Disposal? { var i :| 0 <= i < |f.assets| && f.assets[i] == m; }
  }

  /** A notification: to a known user, about a record of its kind, dated by today and read no sooner than made. */
  lemma NotificationRule(f: Fixture, n: DemoNotification)
    ensures NotificationValid(f, n) <==>
              && (exists u :: u in f.users && u.key == n.user)
              && (n.resourceKind.RepairJob? ==> exists j :: j in f.repairs && j.key == n.resource)
              && (n.resourceKind.BorrowExtension? ==> exists x :: x in f.extensions && x.key == n.resource)
              && (n.resourceKind.BorrowTransaction? ==> exists b :: b in f.borrows && b.key == n.resource)
              && n.createdAt <= f.date && NotBefore(Some(n.createdAt), n.readAt) && NotAfter(n.readAt, f.date)
  {
    Known(f, "", n.user);
    if j :| j in f.repairs && j.key == n.resource { var i :| 0 <= i < |f.repairs| && f.repairs[i] == j; }
    if x :| x in f.extensions && x.key == n.resource { var i :| 0 <= i < |f.extensions| && f.extensions[i] == x; }
    if b :| b in f.borrows && b.key == n.resource { var i :| 0 <= i < |f.borrows| && f.borrows[i] == b; }
  }

  /** Loans of one asset, each handed over, do not overlap: of any two, the one handed over first came back before the other went out. */
  lemma PeriodsRule(f: Fixture, asset: string)
    requires PeriodsDisjoint(f, asset)
    ensures forall a, b ::
              (&& a in f.borrows && b in f.borrows && a.asset == b.asset == asset && a.handoverAt.Some? && b.handoverAt.Some?
               && a.handoverAt.value < b.handoverAt.value) ==> a.returnAt.Some? && a.returnAt.value <= b.handoverAt.value
  {
    var hs := Handovers(f.borrows, asset);
    SortKeepsOrder(hs, HandoverDate);
    var periods := SortBy(hs, HandoverDate);
    HandoversAre(f.borrows, asset);
    hide SortBy, Handovers;
    forall a, b | a in f.borrows && b in f.borrows && a.asset == b.asset == asset && a.handoverAt.Some? && b.handoverAt.Some?
                  && a.handoverAt.value < b.handoverAt.value
      ensures a.returnAt.Some? && a.returnAt.value <= b.handoverAt.value
    {
      assert a in periods && b in periods;
      var i :| 0 <= i < |periods| && periods[i] == a;
      var j :| 0 <= j < |periods| && periods[j] == b;
      EarlierComesFirst(periods, i, j);
      assert BackBefore(periods, i + 1);
      assert HandoverDate(periods[i + 1]) <= HandoverDate(periods[j]);
    }
  }

  lemma EarlierComesFirst(periods: seq<DemoBorrow>, i: nat, j: nat)
    requires InOrderBy(periods, HandoverDate) && i < |periods| && j < |periods| && HandoverDate(periods[i]) < HandoverDate(periods[j])
    ensures i < j
  {
  }

  lemma {:induction false} HandoversAre(borrows: seq<DemoBorrow>, asset: string)
    ensures forall b :: b in Handovers(borrows, asset) <==> b in borrows && b.asset == asset && b.handoverAt.Some?
  {
    if borrows != [] {
      HandoversAre(borrows[1..], asset);
      assert borrows == [borrows[0]] + borrows[1..];
    }
  }

  // ---- Rules of the database check -------------------------------------------------------------------------

  /** A stored loan passes exactly with its dates in order. */
  lemma LoanCheck(l: LoanRow)
    ensures LoanPasses(l) <==>
              && NotBefore(Some(l.createdAt), l.approvedAt) && NotBefore(Some(l.createdAt), l.handoverDate)
              && NotBefore(Some(l.createdAt), l.returnDate) && NotBefore(l.approvedAt, l.handoverDate)
              && NotBefore(l.approvedAt, l.returnDate) && NotBefore(l.handoverDate, l.returnDate)
  {
    MilestonesAre(l.createdAt, l.approvedAt, l.handoverDate, l.returnDate, 0);
    hide Ascending, Milestones;
  }

  /**
   * A stored repair with differently numbered steps passes exactly if it has an assignee once it has
   * steps, no step is complete before a lower one, and it is closed with a date and every step complete.
   */
  lemma JobCheck(j: JobRow)
    requires forall i, k :: 0 <= i < k < |j.steps| ==> j.steps[i].number != j.steps[k].number
    ensures JobPasses(j) <==>
              && (j.steps != [] ==> j.technicians != [])
              && (forall a, b :: a in j.steps && b in j.steps && a.number < b.number && b.completeAt.Some? ==> a.completeAt.Some?)
              && (j.status.Completed? ==> j.returnDate.Some? && j.steps != [] && forall a :: a in j.steps ==> a.completeAt.Some?)
  {
    hide SortBy;
    var steps := SortBy(j.steps, StepNumber);
    SortKeepsOrder(j.steps, StepNumber);
    StepsStayDistinct(j.steps);
    assert j.steps != [] ==> j.steps[0] in steps;
    assert steps != [] ==> steps[0] in j.steps;
    assert (forall a :: a in j.steps ==> a.completeAt.Some?) <==> (forall i :: 0 <= i < |steps| ==> steps[i].completeAt.Some?) by {
      if forall i :: 0 <= i < |steps| ==> steps[i].completeAt.Some? {
        forall a | a in j.steps ensures a.completeAt.Some? { assert a in steps; }
      }
      if forall a :: a in j.steps ==> a.completeAt.Some? {
        forall i | 0 <= i < |steps| ensures steps[i].completeAt.Some? { assert steps[i] in j.steps; }
      }
    }
    SkippedByNumber(j.steps, steps);
  }

  lemma SkippedByNumber(given: seq<StepRow>, steps: seq<StepRow>)
    requires InOrderBy(steps, StepNumber) && forall s :: s in steps <==> s in given
    requires forall i, k :: 0 <= i < k < |steps| ==> steps[i].number != steps[k].number
    ensures NoneSkipped(steps) <==>
              forall a, b :: a in given && b in given && a.number < b.number && b.completeAt.Some? ==> a.completeAt.Some?
  {
    if NoneSkipped(steps) {
      forall a, b | a in given && b in given && a.number < b.number && b.completeAt.Some? ensures a.completeAt.Some? {
        assert a in steps && b in steps;
        var i :| 0 <= i < |steps| && steps[i] == a;
        var k :| 0 <= k < |steps| && steps[k] == b;
        LowerComesFirst(steps, i, k);
      }
    }
    if forall a, b :: a in given && b in given && a.number < b.number && b.completeAt.Some? ==> a.completeAt.Some? {
      forall i, k | 0 <= i < k < |steps| && steps[k].completeAt.Some? ensures steps[i].completeAt.Some? {
        assert StepNumber(steps[i]) <= StepNumber(steps[k]);
        assert steps[i] in given && steps[k] in given;
      }
    }
  }

  lemma LowerComesFirst(steps: seq<StepRow>, i: nat, k: nat)
    requires InOrderBy(steps, StepNumber) && i < |steps| && k < |steps| && StepNumber(steps[i]) < StepNumber(steps[k])
    ensures i < k
  {
  }

  lemma {:induction false} StepsStayDistinct(steps: seq<StepRow>)
    requires forall i, k :: 0 <= i < k < |steps| ==> steps[i].number != steps[k].number
    ensures var r := SortBy(steps, StepNumber); forall i, k :: 0 <= i < k < |r| ==> r[i].number != r[k].number
  {
    if steps != [] {
      var front, last := steps[..|steps| - 1], steps[|steps| - 1];
      StepsStayDistinct(front);
      SortKeepsOrder(front, StepNumber);
      forall s | s in SortBy(front, StepNumber) ensures s.number != last.number {
        assert s in front;
        var i :| 0 <= i < |front| && front[i] == s;
        assert steps[i] == s;
      }
      InsertStaysDistinct(last, SortBy(front, StepNumber));
      assert SortBy(steps, StepNumber) == InsertBy(last, SortBy(front, StepNumber), StepNumber);
    }
  }

  lemma {:induction false} InsertStaysDistinct(x: StepRow, xs: seq<StepRow>)
    requires InOrderBy(xs, StepNumber) && forall i, k :: 0 <= i < k < |xs| ==> xs[i].number != xs[k].number
    requires forall s :: s in xs ==> s.number != x.number
    ensures var r := InsertBy(x, xs, StepNumber); forall i, k :: 0 <= i < k < |r| ==> r[i].number != r[k].number
  {
    if xs != [] && StepNumber(xs[|xs| - 1]) > StepNumber(x) {
      var front, last := xs[..|xs| - 1], xs[|xs| - 1];
      assert xs == front + [last];
      InsertStaysDistinct(x, front);
      InsertKeepsOrder(x, front, StepNumber);
      var r := InsertBy(x, front, StepNumber);
      forall i | 0 <= i < |r| ensures r[i].number != last.number {
        assert r[i] in r;
        if r[i] != x { var k :| 0 <= k < |front| && front[k] == r[i]; assert xs[k] == r[i]; }
      }
    }
  }

  /** A stored extension passes exactly if it moves the date later and, once approved, its loan's date is at least that. */
  lemma ExtensionCheck(r: Records, x: ExtensionRow)
    ensures ExtensionPasses(r, x) <==>
              && x.currentReturn < x.requestedReturn
              && (x.status.Granted? ==> forall l :: l in r.loans && l.id == x.loan ==> x.requestedReturn <= l.expectedReturn)
  {
    if forall l :: l in r.loans && l.id == x.loan ==> x.requestedReturn <= l.expectedReturn {
      forall i | 0 <= i < |r.loans| && r.loans[i].id == x.loan ensures r.loans[i].expectedReturn >= x.requestedReturn { assert r.loans[i] in r.loans; }
    }
  }

  /** A disposal passes exactly if its asset is stored as disposed of. */
  lemma DisposalCheck(r: Records, d: DemoDisposal)
    ensures DisposalPasses(r, d) <==> exists a :: a in r.assets && a.id == d.asset && a.condition.Disposal?
  {
    if a :| a in r.assets && a.id == d.asset && a.condition.Disposal? { var i :| 0 <= i < |r.assets| && r.assets[i] == a; }
  }

  /** An asset's transfers pass exactly if each of the latest ends at the asset's section. */
  lemma TransferCheck(r: Records, a: AssetRow)
    ensures TransferPasses(r, a) <==>
              forall t :: t in r.transfers && t.asset == a.id && (forall o :: o in r.transfers && o.asset == a.id ==> o.date <= t.date) ==>
                t.to == a.section
  {
    forall t ensures IsLatest(r.transfers, a.id, t) <==>
                       t in r.transfers && t.asset == a.id && forall o :: o in r.transfers && o.asset == a.id ==> o.date <= t.date {
      if t in r.transfers && t.asset == a.id && forall o :: o in r.transfers && o.asset == a.id ==> o.date <= t.date {
        forall i | 0 <= i < |r.transfers| && r.transfers[i].asset == a.id ensures r.transfers[i].date <= t.date { assert r.transfers[i] in r.transfers; }
      }
    }
    hide IsLatest;
  }

  /** A part passes exactly if every lot is positive and not below zero in price, stock is what came in and moved, and nothing went back that was not out. */
  lemma PartCheck(r: Records, p: PartRow)
    ensures PartPasses(r, p) <==>
              && (forall x :: x in p.receipts ==> x.qty >= 1 && x.totalPrice >= 0)
              && p.qtyInStock == Received(p.receipts) + NetMovement(r.txns, p.id) && p.qtyInStock >= 0
              && (forall t :: t in r.txns && t.part == p.id && t.kind.PutBack? ==> NetWithdrawn(r.txns, t) >= 0)
  {
    hide Received, NetMovement;
    forall t ensures NetOut(r.txns, t) == NetWithdrawn(r.txns, t) { SameNet(r.txns, t); }
    hide NetOut, NetWithdrawn;
    if forall x :: x in p.receipts ==> x.qty >= 1 && x.totalPrice >= 0 {
      forall i | 0 <= i < |p.receipts| ensures ReceiptPasses(p.receipts[i]) { assert p.receipts[i] in p.receipts; }
    }
    if forall i :: 0 <= i < |p.receipts| ==> ReceiptPasses(p.receipts[i]) {
      forall x | x in p.receipts ensures x.qty >= 1 && x.totalPrice >= 0 { var i :| 0 <= i < |p.receipts| && p.receipts[i] == x; }
    }
    if forall t :: t in r.txns && t.part == p.id && t.kind.PutBack? ==> NetWithdrawn(r.txns, t) >= 0 {
      forall i | 0 <= i < |r.txns| && r.txns[i].part == p.id && r.txns[i].kind.PutBack? ensures NetOut(r.txns, r.txns[i]) >= 0 { assert r.txns[i] in r.txns; }
    }
  }

  lemma ReceivedOneMore(receipts: seq<Receipt>, x: Receipt)
    ensures Received([]) == 0 && Received(receipts + [x]) == Received(receipts) + x.qty
  {
    assert (receipts + [x])[..|receipts|] == receipts;
  }

  // ---- Totals --------------------------------------------------------------------------------------------

  /** One movement more: internal ones of the part move its balance, out or back; a waiting one does not. */
  lemma BalanceOfOneMore(txns: seq<DemoTxn>, t: DemoTxn, part: string)
    ensures NetMovement([], part) == 0
    ensures NetMovement(txns + [t], part) == NetMovement(txns, part)
              + if t.part == part && t.internal && t.kind.PutBack? then t.qty
                else if t.part == part && t.internal && t.kind.Withdraw? then -t.qty else 0
  {
    assert (txns + [t])[..|txns|] == txns;
  }

  /** One movement more, seen from `r`: the same part, job and stock by that date counts, unless it still waits. */
  lemma NetOfOneMore(txns: seq<DemoTxn>, t: DemoTxn, r: DemoTxn)
    ensures NetWithdrawn([], r) == 0
    ensures NetWithdrawn(txns + [t], r) == NetWithdrawn(txns, r)
              + if t.part != r.part || t.job != r.job || t.internal != r.internal || r.date < t.date then 0
                else if t.kind.Withdraw? then t.qty else if t.kind.PutBack? then -t.qty else 0
  {
    assert (txns + [t])[..|txns|] == txns;
  }

  /** A loan's written extension count is the number of its approved extensions. */
  lemma {:induction false} GrantedCountIs(extensions: seq<DemoExtension>, loan: string)
    ensures GrantedCount(extensions, loan) == |set i | 0 <= i < |extensions| && extensions[i].borrow == loan && extensions[i].status.Granted?|
  {
    if extensions != [] {
      var n := |extensions| - 1;
      GrantedCountIs(extensions[..n], loan);
      var before := set i | 0 <= i < n && extensions[..n][i].borrow == loan && extensions[..n][i].status.Granted?;
      var all := set i | 0 <= i < |extensions| && extensions[i].borrow == loan && extensions[i].status.Granted?;
      assert all == before + if extensions[n].borrow == loan && extensions[n].status.Granted? then {n} else {};
    }
  }

  // ---- Rows ----------------------------------------------------------------------------------------------

  /** What each table holds for an entry of the fixture, column by column. */
  lemma WrittenRows(f: Fixture)
    ensures var r := Written(f);
            && |r.assets| == |f.assets| && |r.loans| == |f.borrows| && |r.extensions| == |f.extensions| && |r.jobs| == |f.repairs|
            && (forall i :: 0 <= i < |f.assets| ==>
                  r.assets[i] == AssetRow(f.assets[i].key, f.assets[i].section, f.assets[i].condition, f.assets[i].availability))
            && (forall i :: 0 <= i < |f.borrows| ==>
                  var b := f.borrows[i];
                  r.loans[i] == LoanRow(b.key, b.asset, b.status, b.createdAt, b.approvedAt, b.handoverAt, b.returnAt, b.expectedReturn,
                                        GrantedCount(f.extensions, b.key)))
            && (forall i :: 0 <= i < |f.extensions| ==>
                  var x := f.extensions[i];
                  r.extensions[i] == ExtensionRow(x.key, x.borrow, x.status, x.currentDate, x.requestedDate))
            && r.txns == f.txns && r.transfers == f.transfers && r.disposals == f.disposals
  {
  }

  /** A written repair: its own columns, and one step for each of its track, dated evenly up to its end as far as it is complete. */
  lemma WrittenRepairRow(f: Fixture, i: nat)
    requires i < |f.repairs|
    ensures var j, r := f.repairs[i], Written(f).jobs[i];
            var steps := if j.track.None? then 0 else if j.track == Some(SelfRepair) then 6 else 8;
            var end := if j.closedAt.Some? then j.closedAt.value else f.date;
            && r.id == j.key && r.asset == j.asset && r.status == j.status && r.returnDate == j.closedAt && r.technicians == j.technicians
            && |r.steps| == steps
            && forall k :: 0 <= k < steps ==>
                 r.steps[k] == StepRow(k + 1, if k < j.completedSteps then Some(j.createdAt + (end - j.createdAt) * (k + 1) / steps) else None)
  {
  }

  /** A written part: four fifths of its opening stock in a first lot of at least one, the rest in a second. */
  lemma WrittenPartRow(f: Fixture, i: nat)
    requires i < |f.parts|
    ensures var p, r := f.parts[i], Written(f).parts[i];
            var first := if p.opening * 8 / 10 < 1 then 1 else p.opening * 8 / 10;
            && r.id == p.key
            && r.receipts == (if p.opening < 1 then []
                              else if p.opening == first then [Receipt(first, first * p.price)]
                              else [Receipt(first, first * p.price), Receipt(p.opening - first, (p.opening - first) * p.price)])
            && r.qtyInStock == (if p.opening < 0 then 0 else p.opening) + NetMovement(f.txns, p.key)
  {
    ReceiptsAddUp(f.parts[i]);
  }

  lemma WrittenNotice(f: Fixture, i: nat)
    requires i < |f.notifications|
    ensures var n, r := f.notifications[i], Written(f).notices[i];
            && r.id == n.key && r.user == n.user && r.resourceKind == n.resourceKind && r.createdAt == n.createdAt && r.readAt == n.readAt
            && (r.resourceId.Some? ==> r.resourceId.value == n.resource)
  {
  }
}
