/** What the read side reports, and that its different roads to a figure agree: event totals, the per-person
    rollup in SQL, and the report's nested loops. */
module Reports {
  import opened Prelude
  import opened ContributionLedger

  ghost function Value(): Payment -> int { (f: Payment) => f.value }

  predicate Active(pledges: seq<Pledge>, j: nat, person: nat) {
    j < |pledges| && pledges[j].person == person && pledges[j].status != CANCELLED
  }

  /** A payment as its pledge's person's received money, cancelled pledges left out. */
  ghost function ReceivedFrom(pledges: seq<Pledge>, person: nat): Payment -> int {
    (f: Payment) => if Active(pledges, f.pledge, person) then f.value else 0
  }

  ghost function OnCancelled(pledges: seq<Pledge>): Payment -> int {
    (f: Payment) => if f.pledge < |pledges| && pledges[f.pledge].status == CANCELLED then f.value else 0
  }

  // ---- Event totals ------------------------------------------------------------------

  /** Commitments of cancelled pledges are left out; received money counts every payment. */
  ghost function TotalCommitted(db: Db): int { SumOf(db.pledges, CommittedAll()) }

  ghost function TotalReceived(db: Db): int { SumOf(db.payments, Value()) }

  ghost function TotalOutstanding(db: Db): nat { Outstanding(TotalCommitted(db), TotalReceived(db)) }

  ghost function CancelledMoney(db: Db): int { SumOf(db.payments, OnCancelled(db.pledges)) }

  // ---- Per person -----------------------------------------------------------------------

  ghost function Committed(pledges: seq<Pledge>): nat -> int { (i: nat) => SumOf(pledges, CommittedBy(i)) }

  ghost function Received(pledges: seq<Pledge>, payments: seq<Payment>): nat -> int {
    (i: nat) => SumOf(payments, ReceivedFrom(pledges, i))
  }

  ghost function Owed(db: Db): nat -> int {
    (i: nat) => Outstanding(Committed(db.pledges)(i), Received(db.pledges, db.payments)(i))
  }

  ghost function Excess(db: Db): nat -> int {
    (i: nat) => Outstanding(Received(db.pledges, db.payments)(i), Committed(db.pledges)(i))
  }

  lemma {:induction false} CommittedAddsUp(people: nat, pledges: seq<Pledge>)
    requires forall j :: 0 <= j < |pledges| ==> pledges[j].person < people
    ensures SumTo(people, Committed(pledges)) == SumOf(pledges, CommittedAll())
  {
    if pledges == [] {
      SumToSpike(people, Committed(pledges), people);
    } else {
      var init, last := pledges[..|pledges| - 1], pledges[|pledges| - 1];
      CommittedAddsUp(people, init);
      var spike := (i: nat) => CommittedBy(i)(last);
      SumToAdd(people, Committed(pledges), Committed(init), spike);
      SumToSpike(people, spike, last.person);
    }
  }

  lemma {:induction false} ReceivedAddsUp(people: nat, pledges: seq<Pledge>, payments: seq<Payment>)
    requires forall j :: 0 <= j < |pledges| ==> pledges[j].person < people
    requires forall k :: 0 <= k < |payments| ==> payments[k].pledge < |pledges|
    ensures SumTo(people, Received(pledges, payments)) + SumOf(payments, OnCancelled(pledges))
            == SumOf(payments, Value())
  {
    if payments == [] {
      SumToSpike(people, Received(pledges, payments), people);
    } else {
      var init, last := payments[..|payments| - 1], payments[|payments| - 1];
      ReceivedAddsUp(people, pledges, init);
      var spike := (i: nat) => ReceivedFrom(pledges, i)(last);
      SumToAdd(people, Received(pledges, payments), Received(pledges, init), spike);
      SumToSpike(people, spike, pledges[last.pledge].person);
    }
  }

  /** For every ledger: the people's committed sums add up to the event's, and their received sums together with
      the payments on cancelled pledges add up to all money received. */
  lemma PeopleAddUpToEvent(db: Db)
    requires References(db)
    ensures SumTo(|db.people|, Committed(db.pledges)) == TotalCommitted(db)
    ensures SumTo(|db.people|, Received(db.pledges, db.payments)) + CancelledMoney(db) == TotalReceived(db)
  {
    CommittedAddsUp(|db.people|, db.pledges);
    ReceivedAddsUp(|db.people|, db.pledges, db.payments);
  }

  lemma {:induction false} OwedSplits(db: Db, n: nat)
    ensures SumTo(n, Owed(db)) + SumTo(n, Received(db.pledges, db.payments))
            == SumTo(n, Committed(db.pledges)) + SumTo(n, Excess(db))
    ensures SumTo(n, Owed(db)) >= 0 && SumTo(n, Excess(db)) >= 0
  {
    if n > 0 {
      OwedSplits(db, n - 1);
    }
  }

  /** The event's outstanding amount never exceeds the sum of what its people owe. The two are equal if and only
      if nobody owes anything, or no cancelled pledge holds money and nobody paid more than they committed. */
  lemma EventOutstandingVersusPeople(db: Db)
    requires References(db)
    ensures TotalOutstanding(db) <= SumTo(|db.people|, Owed(db))
    ensures TotalOutstanding(db) == SumTo(|db.people|, Owed(db))
            <==> (SumTo(|db.people|, Owed(db)) == 0 || (CancelledMoney(db) == 0 && SumTo(|db.people|, Excess(db)) == 0))
    ensures TotalOutstanding(db) == Max(0, TotalCommitted(db) - TotalReceived(db))
    ensures forall i: nat ::
              Owed(db)(i) == Max(0, Committed(db.pledges)(i) - Received(db.pledges, db.payments)(i))
  {
    PeopleAddUpToEvent(db);
    OwedSplits(db, |db.people|);
    SumNonNegative(db.payments, OnCancelled(db.pledges));
  }

  // ---- The report's loops ---------------------------------------------------------------------

  /** What the loop over a person's pledges collects from pledge j. */
  ghost function PaidOn(pledges: seq<Pledge>, payments: seq<Payment>, person: nat): nat -> int {
    (j: nat) => if Active(pledges, j, person) then Paid(payments, j) else 0
  }

  /** Looping over pledges and then over each pledge's payments collects what one pass over the payments does. */
  lemma {:induction false} LoopsEqualJoin(pledges: seq<Pledge>, payments: seq<Payment>, person: nat)
    ensures SumTo(|pledges|, PaidOn(pledges, payments, person)) == Received(pledges, payments)(person)
  {
    if payments == [] {
      SumToSpike(|pledges|, PaidOn(pledges, payments, person), |pledges|);
    } else {
      var init, last := payments[..|payments| - 1], payments[|payments| - 1];
      LoopsEqualJoin(pledges, init, person);
      var spike := (j: nat) => if j == last.pledge && Active(pledges, j, person) then last.value else 0;
      SumToAdd(|pledges|, PaidOn(pledges, payments, person), PaidOn(pledges, init, person), spike);
      SumToSpike(|pledges|, spike, last.pledge);
    }
  }

  lemma {:induction false} WithinCommitted(pledges: seq<Pledge>, payments: seq<Payment>, person: nat, n: nat)
    requires n <= |pledges| && forall j: nat :: j < n ==> Paid(payments, j) <= pledges[j].committed
    ensures SumTo(n, PaidOn(pledges, payments, person)) <= SumOf(pledges[..n], CommittedBy(person))
  {
    if n > 0 {
      WithinCommitted(pledges, payments, person, n - 1);
      assert pledges[..n] == pledges[..n - 1] + [pledges[n - 1]];
      SumAppend(pledges[..n - 1], pledges[n - 1], CommittedBy(person));
    }
  }

  /** With no overpaid pledge and no money on cancelled pledges, the event's outstanding amount is exactly the
      sum of what its people owe. */
  lemma OutstandingAgrees(db: Db)
    requires References(db)
    requires forall j: nat :: j < |db.pledges| ==> !Overpaid(db, j)
    requires forall k :: 0 <= k < |db.payments| ==> db.pledges[db.payments[k].pledge].status != CANCELLED
    ensures TotalOutstanding(db) == SumTo(|db.people|, Owed(db))
  {
    SumPointwise(db.payments, OnCancelled(db.pledges), db.payments, _ => 0);
    SumBounds(db.payments, _ => 0, 0, 0);
    forall i: nat
      ensures Excess(db)(i) == 0
    {
      forall j: nat | j < |db.pledges|
        ensures Paid(db.payments, j) <= db.pledges[j].committed
      {
        assert !Overpaid(db, j);
      }
      LoopsEqualJoin(db.pledges, db.payments, i);
      WithinCommitted(db.pledges, db.payments, i, |db.pledges|);
      assert db.pledges[..|db.pledges|] == db.pledges;
    }
    SumToSpike(|db.people|, Excess(db), |db.people|);
    EventOutstandingVersusPeople(db);
  }

  datatype ReportRow = ReportRow(person: nat, committed: nat, received: nat)

  ghost predicate RowFor(db: Db, row: ReportRow) {
    && Live(db, row.person)
    && row.committed == Committed(db.pledges)(row.person)
    && row.received == Received(db.pledges, db.payments)(row.person)
  }

  method SumFulfillments(payments: seq<Payment>, pledge: nat) returns (total: nat)
    ensures total == Paid(payments, pledge)
  {
    total := 0;
    for k := 0 to |payments|
      invariant total == SumOf(payments[..k], ValueOn(pledge))
    {
      SumAppend(payments[..k], payments[k], ValueOn(pledge));
      assert payments[..k + 1] == payments[..k] + [payments[k]];
      if payments[k].pledge == pledge {
        total := total + payments[k].value;
      }
    }
    assert payments[..|payments|] == payments;
  }

  /** One row for each person the query found, in the order it returned them, whose figures are the per-person sums of
      the SQL rollup. The name and group filters decide whom the query finds, and it asks for no order. */
  method QueryContributors(db: Db, found: seq<nat>) returns (rows: seq<ReportRow>)
    requires forall r :: 0 <= r < |found| ==> Live(db, found[r])
    ensures |rows| == |found|
    ensures forall r :: 0 <= r < |rows| ==> rows[r].person == found[r] && RowFor(db, rows[r])
  {
    rows := [];
    for i := 0 to |found|
      invariant |rows| == i
      invariant forall r :: 0 <= r < i ==> rows[r].person == found[r] && RowFor(db, rows[r])
    {
      var committed, received := RollUp(db.pledges, db.payments, found[i]);
      rows := rows + [ReportRow(found[i], committed, received)];
    }
  }

  /** The nested loops over one person's pledges and each pledge's payments. */
  method RollUp(pledges: seq<Pledge>, payments: seq<Payment>, person: nat) returns (committed: nat, received: nat)
    ensures committed == Committed(pledges)(person)
    ensures received == Received(pledges, payments)(person)
  {
    committed, received := 0, 0;
    for j := 0 to |pledges|
      invariant committed == SumOf(pledges[..j], CommittedBy(person))
      invariant received == SumTo(j, PaidOn(pledges, payments, person))
    {
      SumAppend(pledges[..j], pledges[j], CommittedBy(person));
      assert pledges[..j + 1] == pledges[..j] + [pledges[j]];
      if pledges[j].person == person && pledges[j].status != CANCELLED {
        committed := committed + pledges[j].committed;
        var total := SumFulfillments(payments, j);
        received := received + total;
      }
    }
    assert pledges[..|pledges|] == pledges;
    LoopsEqualJoin(pledges, payments, person);
  }

  // ---- Filters and order ----------------------------------------------------------------

  datatype StatusFilter = All | Unpaid | Partial | Complete | Owing

  predicate Shown(row: ReportRow, filter: StatusFilter) {
    match filter
    case Unpaid => row.committed > 0 && row.received == 0
    case Partial => row.received > 0 && row.received < row.committed
    case Complete => row.committed > 0 && row.received >= row.committed
    case Owing => Outstanding(row.committed, row.received) > 0
    case All => row.committed > 0 || row.received > 0
  }

  /** `Array.filter`. */
  function Where(rows: seq<ReportRow>, keep: ReportRow -> bool): seq<ReportRow> {
    if rows == [] then []
    else Where(rows[..|rows| - 1], keep) + if keep(rows[|rows| - 1]) then [rows[|rows| - 1]] else []
  }

  function By(filter: StatusFilter): ReportRow -> bool { (row: ReportRow) => Shown(row, filter) }

  ghost function Due(): ReportRow -> int { (row: ReportRow) => Outstanding(row.committed, row.received) }

  lemma {:induction false} DueFromOwing(rows: seq<ReportRow>)
    ensures SumOf(Where(rows, By(Owing)), Due()) == SumOf(rows, Due())
  {
    if rows != [] {
      var init, last := rows[..|rows| - 1], rows[|rows| - 1];
      DueFromOwing(init);
      if Shown(last, Owing) {
        SumAppend(Where(init, By(Owing)), last, Due());
      } else {
        assert Due()(last) == 0 && Where(rows, By(Owing)) == Where(init, By(Owing));
      }
    }
  }

  function Uncommitted(): ReportRow -> bool { (row: ReportRow) => row.committed == 0 && row.received > 0 }

  lemma {:induction false} ListsAddUp(rows: seq<ReportRow>)
    ensures |Where(rows, By(Unpaid))| + |Where(rows, By(Partial))| + |Where(rows, By(Complete))|
            + |Where(rows, Uncommitted())| == |Where(rows, By(All))|
    ensures |Where(rows, By(Unpaid))| + |Where(rows, By(Partial))| == |Where(rows, By(Owing))|
  {
    if rows != [] {
      ListsAddUp(rows[..|rows| - 1]);
    }
  }

  /** Whatever rows there are: the unpaid, partial and complete lists add up to the full list, short of those who paid
      without committing anything; and all that is due to the event is due from the owing list, which is as long as the
      unpaid and partial lists together. */
  lemma FiltersPartition(rows: seq<ReportRow>)
    ensures |Where(rows, By(Unpaid))| + |Where(rows, By(Partial))| + |Where(rows, By(Complete))|
            + |Where(rows, Uncommitted())| == |Where(rows, By(All))|
    ensures |Where(rows, By(Unpaid))| + |Where(rows, By(Partial))| == |Where(rows, By(Owing))|
    ensures SumOf(Where(rows, By(Owing)), Due()) == SumOf(rows, Due())
  {
    ListsAddUp(rows);
    DueFromOwing(rows);
  }

  function Compare(a: ReportRow, b: ReportRow, ascending: bool): int {
    (if a.received < b.received then 1 else if a.received > b.received then -1 else 0) * (if ascending then 1 else -1)
  }

  /** `Array.sort` is stable: each row goes behind all those it does not compare below. */
  function Insert(sorted: seq<ReportRow>, row: ReportRow, ascending: bool): seq<ReportRow> {
    if sorted == [] then [row]
    else
      var init, last := sorted[..|sorted| - 1], sorted[|sorted| - 1];
      if Compare(last, row, ascending) <= 0 then sorted + [row] else Insert(init, row, ascending) + [last]
  }

  function Sorted(rows: seq<ReportRow>, ascending: bool): seq<ReportRow> {
    if rows == [] then [] else Insert(Sorted(rows[..|rows| - 1], ascending), rows[|rows| - 1], ascending)
  }

  predicate Before(a: ReportRow, b: ReportRow, smallestFirst: bool) {
    if smallestFirst then a.received <= b.received else a.received >= b.received
  }

  /** Smallest received first, or largest first. */
  ghost predicate Increasing(rows: seq<ReportRow>, smallestFirst: bool) {
    forall r, q :: 0 <= r < q < |rows| ==> Before(rows[r], rows[q], smallestFirst)
  }

  function Receiving(v: nat): ReportRow -> bool { (row: ReportRow) => row.received == v }

  lemma WhereAppend(rows: seq<ReportRow>, row: ReportRow, keep: ReportRow -> bool)
    ensures Where(rows + [row], keep) == Where(rows, keep) + if keep(row) then [row] else []
  {
    assert (rows + [row])[..|rows|] == rows;
  }

  lemma {:induction false} InsertHolds(sorted: seq<ReportRow>, row: ReportRow, ascending: bool)
    ensures multiset(Insert(sorted, row, ascending)) == multiset(sorted) + multiset{row}
  {
    if sorted != [] {
      var init, last := sorted[..|sorted| - 1], sorted[|sorted| - 1];
      assert sorted == init + [last];
      if Compare(last, row, ascending) > 0 {
        InsertHolds(init, row, ascending);
      }
    }
  }

  lemma InsertedOnly(sorted: seq<ReportRow>, row: ReportRow, ascending: bool, r: nat)
    requires r < |Insert(sorted, row, ascending)|
    ensures Insert(sorted, row, ascending)[r] == row || Insert(sorted, row, ascending)[r] in sorted
  {
    InsertHolds(sorted, row, ascending);
    assert Insert(sorted, row, ascending)[r] in multiset(Insert(sorted, row, ascending));
  }

  lemma {:induction false} InsertOrders(sorted: seq<ReportRow>, row: ReportRow, ascending: bool)
    requires Increasing(sorted, !ascending)
    ensures Increasing(Insert(sorted, row, ascending), !ascending)
  {
    if sorted != [] {
      var init, last := sorted[..|sorted| - 1], sorted[|sorted| - 1];
      if Compare(last, row, ascending) > 0 {
        InsertOrders(init, row, ascending);
        forall r: nat | r < |Insert(init, row, ascending)|
          ensures Before(Insert(init, row, ascending)[r], last, !ascending)
        {
          InsertedOnly(init, row, ascending, r);
        }
      }
    }
  }

  lemma {:induction false} InsertIsStable(sorted: seq<ReportRow>, row: ReportRow, ascending: bool, v: nat)
    ensures Where(Insert(sorted, row, ascending), Receiving(v))
            == Where(sorted, Receiving(v)) + if row.received == v then [row] else []
  {
    WhereAppend(sorted, row, Receiving(v));
    if sorted == [] {
      assert [] + [row] == [row];
    } else {
      var init, last := sorted[..|sorted| - 1], sorted[|sorted| - 1];
      if Compare(last, row, ascending) > 0 {
        InsertIsStable(init, row, ascending, v);
        WhereAppend(Insert(init, row, ascending), last, Receiving(v));
        assert last.received != row.received;
      }
    }
  }

  lemma {:induction false} SortHolds(rows: seq<ReportRow>, ascending: bool)
    ensures Increasing(Sorted(rows, ascending), !ascending) && multiset(Sorted(rows, ascending)) == multiset(rows)
  {
    if rows != [] {
      var init, last := rows[..|rows| - 1], rows[|rows| - 1];
      SortHolds(init, ascending);
      InsertOrders(Sorted(init, ascending), last, ascending);
      InsertHolds(Sorted(init, ascending), last, ascending);
      assert rows == init + [last];
    }
  }

  lemma {:induction false} SortIsStable(rows: seq<ReportRow>, ascending: bool, v: nat)
    ensures Where(Sorted(rows, ascending), Receiving(v)) == Where(rows, Receiving(v))
  {
    if rows != [] {
      var init, last := rows[..|rows| - 1], rows[|rows| - 1];
      SortIsStable(init, ascending, v);
      InsertIsStable(Sorted(init, ascending), last, ascending, v);
    }
  }

  /** Read from first to last, received never goes up, or never goes down. */
  ghost predicate Ordered(rows: seq<ReportRow>, downwards: bool) {
    forall r, q :: 0 <= r < q < |rows| ==>
      if downwards then rows[q].received <= rows[r].received else rows[r].received <= rows[q].received
  }

  lemma ReadInOrder(rows: seq<ReportRow>, ascending: bool)
    requires Increasing(rows, !ascending)
    ensures Ordered(rows, ascending)
  {
    forall r, q | 0 <= r < q < |rows|
      ensures if ascending then rows[q].received <= rows[r].received else rows[r].received <= rows[q].received
    {
      assert Before(rows[r], rows[q], !ascending);
    }
  }

  /** The default direction, said to be descending, puts the smallest received first, and `asc` the largest; nothing is
      lost or added, and rows that received the same stay in the query's order. */
  lemma DefaultOrderIsAscending(rows: seq<ReportRow>, ascending: bool, v: nat)
    ensures Ordered(Sorted(rows, ascending), ascending)
    ensures multiset(Sorted(rows, ascending)) == multiset(rows)
    ensures Where(Sorted(rows, ascending), Receiving(v)) == Where(rows, Receiving(v))
  {
    SortHolds(rows, ascending);
    SortIsStable(rows, ascending, v);
    ReadInOrder(Sorted(rows, ascending), ascending);
  }

  /** An amount bound of 0 is no bound. */
  predicate Kept(row: ReportRow, filter: StatusFilter, atLeast: nat, atMost: nat) {
    Shown(row, filter) && (atLeast == 0 || atLeast <= row.received) && (atMost == 0 || row.received <= atMost)
  }

  /** Who has paid nothing, part or all of what they committed, who still owes, or who has anything to show; received
      within the bounds, the upper one counting unless it is 0. */
  predicate Wanted(filter: StatusFilter, committed: nat, received: nat, atLeast: nat, atMost: nat) {
    && (filter == Unpaid ==> 0 == received < committed)
    && (filter == Partial ==> 0 < received < committed)
    && (filter == Complete ==> 0 < committed <= received)
    && (filter == Owing ==> received < committed)
    && (filter == All ==> 0 < committed + received)
    && atLeast <= received && (atMost > 0 ==> received <= atMost)
  }

  lemma {:induction false} WhereIn(rows: seq<ReportRow>, keep: ReportRow -> bool, row: ReportRow)
    ensures row in Where(rows, keep) <==> row in rows && keep(row)
  {
    if rows != [] {
      WhereIn(rows[..|rows| - 1], keep, row);
      assert rows == rows[..|rows| - 1] + [rows[|rows| - 1]];
    }
  }

  /** The two filters of the report, one loop. */
  method FilterRows(all: seq<ReportRow>, filter: StatusFilter, atLeast: nat, atMost: nat) returns (rows: seq<ReportRow>)
    ensures rows == Where(all, (row: ReportRow) => Kept(row, filter, atLeast, atMost))
  {
    rows := [];
    ghost var keep := (row: ReportRow) => Kept(row, filter, atLeast, atMost);
    for i := 0 to |all|
      invariant rows == Where(all[..i], keep)
    {
      assert all[..i + 1] == all[..i] + [all[i]];
      WhereAppend(all[..i], all[i], keep);
      if Kept(all[i], filter, atLeast, atMost) {
        rows := rows + [all[i]];
      }
    }
    assert all[..|all|] == all;
  }

  lemma SortedHolds(rows: seq<ReportRow>, ascending: bool, row: ReportRow)
    ensures row in Sorted(rows, ascending) <==> row in rows
  {
    DefaultOrderIsAscending(rows, ascending, 0);
    assert row in rows <==> row in multiset(rows);
    assert row in Sorted(rows, ascending) <==> row in multiset(Sorted(rows, ascending));
  }

  /** The report's contributors: exactly the kept rows of the people the query found, each as often as the query has it,
      in order of received. `all` are the query's rows. */
  method Contributors(db: Db, found: seq<nat>, filter: StatusFilter, atLeast: nat, atMost: nat, ascending: bool)
    returns (rows: seq<ReportRow>, ghost all: seq<ReportRow>)
    requires forall r :: 0 <= r < |found| ==> Live(db, found[r])
    ensures Ordered(rows, ascending)
    ensures |all| == |found| && forall r :: 0 <= r < |all| ==> all[r].person == found[r] && RowFor(db, all[r])
    ensures multiset(rows) == multiset(Where(all, (row: ReportRow) => Kept(row, filter, atLeast, atMost)))
    ensures forall row :: row in rows
                          <==> row.person in found && RowFor(db, row)
                               && Wanted(filter, row.committed, row.received, atLeast, atMost)
  {
    var queried := QueryContributors(db, found);
    all := queried;
    var kept := FilterRows(queried, filter, atLeast, atMost);
    rows := Sorted(kept, ascending);
    DefaultOrderIsAscending(kept, ascending, 0);
    forall row
      ensures row in rows <==> row.person in found && RowFor(db, row)
                               && Wanted(filter, row.committed, row.received, atLeast, atMost)
    {
      SortedHolds(kept, ascending, row);
      ListedIff(db, found, all, row, filter, atLeast, atMost);
    }
  }

  lemma ListedIff(db: Db, found: seq<nat>, all: seq<ReportRow>, row: ReportRow, filter: StatusFilter, atLeast: nat,
                  atMost: nat)
    requires |all| == |found| && forall r :: 0 <= r < |found| ==> all[r].person == found[r] && RowFor(db, all[r])
    ensures row in Where(all, (r: ReportRow) => Kept(r, filter, atLeast, atMost))
            <==> row.person in found && RowFor(db, row)
                 && Wanted(filter, row.committed, row.received, atLeast, atMost)
  {
    WhereIn(all, (r: ReportRow) => Kept(r, filter, atLeast, atMost), row);
    FoundRow(db, found, all, row);
    assert Kept(row, filter, atLeast, atMost) <==> Wanted(filter, row.committed, row.received, atLeast, atMost);
  }

  lemma FoundRow(db: Db, found: seq<nat>, all: seq<ReportRow>, row: ReportRow)
    requires |all| == |found| && forall r :: 0 <= r < |found| ==> all[r].person == found[r] && RowFor(db, all[r])
    ensures row in all <==> row.person in found && RowFor(db, row)
  {
    if row.person in found && RowFor(db, row) {
      var r :| 0 <= r < |found| && found[r] == row.person;
      assert all[r] == row;
    }
  }
}
