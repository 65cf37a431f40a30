/** The audit trail tells the whole ledger: people and their accounts, pledges and payments can be rebuilt from it. */
module AuditTrail {
  import opened Prelude
  import opened ContributionLedger

  datatype BookPledge = BookPledge(person: nat, committed: nat, cancelled: bool)

  datatype BookPayment = BookPayment(pledge: nat, value: nat)

  /** What the trail knows of a ledger. */
  datatype Book = Book(people: seq<Option<Person>>, pledges: seq<BookPledge>, payments: seq<BookPayment>)

  /** Reading one entry. */
  function Read(b: Book, entry: Audit): Book {
    match entry
    case PersonCreated(_) => b.(people := b.people + [Some(Person(None))])
    case PersonLinked(p, _, user) =>
      if p < |b.people| then b.(people := b.people[p := Some(Person(Some(user)))]) else b
    case PeopleMerged(s, t, _) =>
      if s < |b.people| && t < |b.people| && b.people[s].Some? && b.people[t].Some? then
        Book(MergedPeople(b.people, s, t), MovedPledges(b.pledges, s, t), b.payments)
      else b
    case PledgeCreated(_, person, committed, _) => b.(pledges := b.pledges + [BookPledge(person, committed, false)])
    case PledgeCorrected(p, _, value) =>
      if p < |b.pledges| then b.(pledges := b.pledges[p := b.pledges[p].(committed := value)]) else b
    case PledgeCancelled(p, _) =>
      if p < |b.pledges| then b.(pledges := b.pledges[p := b.pledges[p].(cancelled := true)]) else b
    case PaymentCreated(_, pledge, value, _) => b.(payments := b.payments + [BookPayment(pledge, value)])
    case PaymentCorrected(f, _, value, _) =>
      if f < |b.payments| then b.(payments := b.payments[f := b.payments[f].(value := value)]) else b
  }

  function MovedPledges(pledges: seq<BookPledge>, s: nat, t: nat): seq<BookPledge> {
    seq(|pledges|, i requires 0 <= i < |pledges| =>
      if pledges[i].person == s then pledges[i].(person := t) else pledges[i])
  }

  function ReadAll(audit: seq<Audit>): Book {
    if audit == [] then Book([], [], []) else Read(ReadAll(audit[..|audit| - 1]), audit[|audit| - 1])
  }

  function BookOf(db: Db): Book {
    Book(db.people,
         seq(|db.pledges|, i requires 0 <= i < |db.pledges| =>
           BookPledge(db.pledges[i].person, db.pledges[i].committed, db.pledges[i].status == CANCELLED)),
         seq(|db.payments|, k requires 0 <= k < |db.payments| =>
           BookPayment(db.payments[k].pledge, db.payments[k].value)))
  }

  lemma ReadOne(audit: seq<Audit>, entry: Audit)
    ensures ReadAll(audit + [entry]) == Read(ReadAll(audit), entry)
  {
    assert (audit + [entry])[..|audit|] == audit;
  }

  ghost predicate Told(db: Db) { ReadAll(db.audit) == BookOf(db) }

  lemma PersonIsTold(db: Db)
    requires Told(db)
    ensures Told(AddPerson(db))
  {
    ReadOne(db.audit, PersonCreated(|db.people|));
  }

  lemma PledgeIsTold(db: Db, person: nat, committed: nat, direct: bool)
    requires Told(db)
    ensures Told(AddPledge(db, person, committed, direct))
  {
    var db' := AddPledge(db, person, committed, direct);
    ReadOne(db.audit, PledgeCreated(|db.pledges|, person, committed, direct));
    assert BookOf(db').pledges == BookOf(db).pledges + [BookPledge(person, committed, false)];
  }

  lemma PaymentIsTold(db: Db, pledge: nat, value: nat, key: Option<string>, now: nat)
    requires Told(db) && pledge < |db.pledges| && db.pledges[pledge].status != CANCELLED
    requires WritePayment(db, pledge, value, key, now).Done?
    ensures Told(WritePayment(db, pledge, value, key, now).db)
  {
    var db' := WritePayment(db, pledge, value, key, now).db;
    ReadOne(db.audit, db'.audit[|db.audit|]);
    assert BookOf(db').payments == BookOf(db).payments + [BookPayment(pledge, value)];
    assert BookOf(db').pledges == BookOf(db).pledges;
  }

  lemma PayIsTold(db: Db, c: Call)
    requires Told(db) && c.Pay? && Exec(db, c).Done?
    ensures Told(Exec(db, c).db)
  {
    if Replayed(db, c.key).None? {
      PaymentIsTold(db, c.pledge, c.value, c.key, c.now);
    }
  }

  lemma DirectIsTold(db: Db, c: Call)
    requires Told(db) && c.Direct? && Exec(db, c).Done?
    ensures Told(Exec(db, c).db)
  {
    if Replayed(db, c.key).None? {
      PersonIsTold(db);
      var mid := if c.giver.None? then AddPerson(db) else db;
      var person := if c.giver.None? then |db.people| else c.giver.value;
      PledgeIsTold(mid, person, c.value, true);
      PaymentIsTold(AddPledge(mid, person, c.value, true), |db.pledges|, c.value, c.key, c.now);
    }
  }

  lemma PledgeWithPaymentIsTold(db: Db, c: Call)
    requires Told(db) && c.PledgeWithPayment? && Exec(db, c).Done?
    ensures Told(Exec(db, c).db)
  {
    PledgeIsTold(db, c.person, c.committed, false);
    if c.received > 0 {
      PaymentIsTold(AddPledge(db, c.person, c.committed, false), |db.pledges|, c.received, c.key, c.now);
    }
  }

  lemma CorrectionIsTold(db: Db, id: nat, value: nat)
    requires Told(db) && ExecCorrectPayment(db, id, value).Done?
    requires forall i :: 0 <= i < |db.pledges| ==> StatusOk(db, i)
    ensures Told(ExecCorrectPayment(db, id, value).db)
  {
    var db' := ExecCorrectPayment(db, id, value).db;
    ReadOne(db.audit, db'.audit[|db.audit|]);
    assert BookOf(db').payments == BookOf(db).payments[id := BookPayment(db.payments[id].pledge, value)];
    assert BookOf(db').pledges == BookOf(db).pledges;
  }

  /** The book's pledges follow one changed pledge. */
  lemma ChangedPledge(db: Db, i: nat, p: Pledge)
    requires i < |db.pledges|
    ensures BookOf(db.(pledges := db.pledges[i := p])).pledges
            == BookOf(db).pledges[i := BookPledge(p.person, p.committed, p.status == CANCELLED)]
  {
  }

  lemma CorrectCommittedIsTold(db: Db, id: nat, value: nat)
    requires Told(db) && id < |db.pledges|
    ensures Told(ExecCorrectCommitted(db, id, value).db)
  {
    var db' := ExecCorrectCommitted(db, id, value).db;
    ReadOne(db.audit, PledgeCorrected(id, db.pledges[id].committed, value));
    ChangedPledge(db, id, db'.pledges[id]);
    assert BookOf(db').pledges == BookOf(db.(pledges := db'.pledges)).pledges;
  }

  lemma CancelIsTold(db: Db, id: nat)
    requires Told(db) && id < |db.pledges|
    ensures Told(ExecCancel(db, id).db)
  {
    var db' := ExecCancel(db, id).db;
    ReadOne(db.audit, PledgeCancelled(id, db.pledges[id].status));
    ChangedPledge(db, id, db'.pledges[id]);
    assert BookOf(db').pledges == BookOf(db.(pledges := db'.pledges)).pledges;
  }

  lemma MergeIsTold(db: Db, s: nat, t: nat)
    requires Told(db) && MergeError(db, s, t).None?
    ensures Told(ExecMerge(db, s, t).db)
  {
    MergeResult(db, s, t);
    var db' := ExecMerge(db, s, t).db;
    ReadOne(db.audit, PeopleMerged(s, t, CountOf(db.pledges, s)));
    assert BookOf(db').pledges == MovedPledges(BookOf(db).pledges, s, t);
  }

  lemma StepIsTold(db: Db, c: Call)
    requires Told(db) && Inv(db)
    ensures Told(Step(db, c))
  {
    if Exec(db, c).Done? {
      match c
      case CreatePerson => PersonIsTold(db);
      case CreatePledge(person, committed) => PledgeIsTold(db, person, committed, false);
      case CorrectPayment(id, value) => CorrectionIsTold(db, id, value);
      case Link(person, user) =>
        if Exec(db, c).db != db {
          ReadOne(db.audit, PersonLinked(person, db.people[person].value.user, user));
        }
      case Merge(s, t) => MergeIsTold(db, s, t);
      case CorrectCommitted(id, value) => CorrectCommittedIsTold(db, id, value);
      case Cancel(id) => CancelIsTold(db, id);
      case Pay(_, _, _, _, _) => PayIsTold(db, c);
      case Direct(_, _, _, _, _) => DirectIsTold(db, c);
      case PledgeWithPayment(_, _, _, _, _) => PledgeWithPaymentIsTold(db, c);
    }
  }

  lemma {:induction false} RunIsTold(db: Db, calls: seq<Call>)
    requires Told(db) && Inv(db)
    ensures Told(Run(db, calls))
    decreases |calls|
  {
    if calls != [] {
      StepIsTold(db, calls[0]);
      StepKeepsInv(db, calls[0]);
      RunIsTold(Step(db, calls[0]), calls[1..]);
    }
  }

  /** In every run, whatever is created, paid, corrected, cancelled, linked and merged: reading the audit trail in order
      rebuilds every person and account, every pledge's person, commitment and cancellation, and every payment. */
  lemma TrailTellsTheLedger(calls: seq<Call>)
    ensures ReadAll(Run(Empty, calls).audit) == BookOf(Run(Empty, calls))
  {
    assert BookOf(Empty) == Book([], [], []);
    RunIsTold(Empty, calls);
  }
}
