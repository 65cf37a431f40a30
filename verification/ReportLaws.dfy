/** How the reported figures follow the calls: what each accepted call adds to or takes from the person's and the
    event's committed and received money. */
module ReportLaws {
  import opened Prelude
  import opened ContributionLedger
  import opened LedgerLaws
  import opened Reports

  /** One person's figures move by this much, nobody else's do. */
  ghost predicate PersonMoves(db: Db, db': Db, person: nat, committed: int, received: int) {
    forall q: nat ::
      && Committed(db'.pledges)(q) == Committed(db.pledges)(q) + (if q == person then committed else 0)
      && Received(db'.pledges, db'.payments)(q)
         == Received(db.pledges, db.payments)(q) + (if q == person then received else 0)
  }

  ghost predicate EventMoves(db: Db, db': Db, committed: int, received: int) {
    TotalCommitted(db') == TotalCommitted(db) + committed && TotalReceived(db') == TotalReceived(db) + received
  }

  // ---- Single changes ------------------------------------------------------------------------

  /** Received money follows only whose pledge a payment is on and whether that pledge is cancelled. */
  lemma ReceivedSame(pledges: seq<Pledge>, pledges': seq<Pledge>, payments: seq<Payment>, q: nat)
    requires |pledges| <= |pledges'| && forall k :: 0 <= k < |payments| ==> payments[k].pledge < |pledges|
    requires forall i :: 0 <= i < |pledges| ==>
               && pledges'[i].person == pledges[i].person
               && (pledges'[i].status == CANCELLED <==> pledges[i].status == CANCELLED)
    ensures Received(pledges', payments)(q) == Received(pledges, payments)(q)
  {
    SumPointwise(payments, ReceivedFrom(pledges', q), payments, ReceivedFrom(pledges, q));
  }

  lemma PledgeMoves(db: Db, db': Db, person: nat, committed: nat, direct: bool)
    requires References(db) && PledgeAdded(db, db', person, committed, direct)
    ensures PersonMoves(db, db', person, committed, 0) && EventMoves(db, db', committed, 0)
  {
    var p := Pledge(person, committed, PLEDGED);
    SumAppend(db.pledges, p, CommittedAll());
    forall q: nat
      ensures Committed(db'.pledges)(q) == Committed(db.pledges)(q) + (if q == person then committed else 0)
      ensures Received(db'.pledges, db'.payments)(q) == Received(db.pledges, db.payments)(q)
    {
      SumAppend(db.pledges, p, CommittedBy(q));
      ReceivedSame(db.pledges, db'.pledges, db.payments, q);
    }
  }

  /** Replacing pledge i by one of the same person, neither or both cancelled. */
  lemma ChangedPledge(db: Db, pledges': seq<Pledge>, i: nat)
    requires References(db) && i < |db.pledges| == |pledges'| && pledges' == db.pledges[i := pledges'[i]]
    requires pledges'[i].person == db.pledges[i].person
    requires pledges'[i].status == CANCELLED <==> db.pledges[i].status == CANCELLED
    ensures var more := if pledges'[i].status == CANCELLED then 0 else pledges'[i].committed - db.pledges[i].committed;
            PersonMoves(db, db.(pledges := pledges'), pledges'[i].person, more, 0)
            && EventMoves(db, db.(pledges := pledges'), more, 0)
  {
    var person := pledges'[i].person;
    var more := if pledges'[i].status == CANCELLED then 0 else pledges'[i].committed - db.pledges[i].committed;
    SumUpdate(db.pledges, i, pledges'[i], CommittedAll());
    forall q: nat
      ensures Committed(pledges')(q) == Committed(db.pledges)(q) + (if q == person then more else 0)
      ensures Received(pledges', db.payments)(q) == Received(db.pledges, db.payments)(q)
    {
      SumUpdate(db.pledges, i, pledges'[i], CommittedBy(q));
      ReceivedSame(db.pledges, pledges', db.payments, q);
    }
  }

  lemma PaymentMoves(db: Db, db': Db, view: View, pledge: nat, value: nat, key: Option<string>, now: nat)
    requires References(db) && pledge < |db.pledges| && db.pledges[pledge].status != CANCELLED
    requires PaymentAdded(db, db', view, pledge, value, key, now)
    ensures PersonMoves(db, db', db.pledges[pledge].person, 0, value) && EventMoves(db, db', 0, value)
  {
    assert db'.pledges == db.pledges[pledge := db'.pledges[pledge]];
    ChangedPledge(db, db'.pledges, pledge);
    var mid, f := db.(pledges := db'.pledges), Payment(pledge, value, key, now);
    SumAppend(db.payments, f, Value());
    forall q: nat
      ensures Received(db'.pledges, db'.payments)(q)
              == Received(db.pledges, db.payments)(q) + (if q == db.pledges[pledge].person then value else 0)
      ensures Committed(db'.pledges)(q) == Committed(db.pledges)(q)
    {
      assert Committed(mid.pledges)(q) == Committed(db.pledges)(q);
      assert Received(mid.pledges, mid.payments)(q) == Received(db.pledges, db.payments)(q);
      SumAppend(db.payments, f, ReceivedFrom(db'.pledges, q));
    }
  }

  // ---- The calls ---------------------------------------------------------------------------

  lemma Composed(a: Db, b: Db, c: Db, person: nat, committed: int, received: int)
    requires PersonMoves(a, b, person, committed, 0) && EventMoves(a, b, committed, 0)
    requires PersonMoves(b, c, person, 0, received) && EventMoves(b, c, 0, received)
    ensures PersonMoves(a, c, person, committed, received) && EventMoves(a, c, committed, received)
  {
    forall q: nat
      ensures Committed(c.pledges)(q) == Committed(a.pledges)(q) + (if q == person then committed else 0)
      ensures Received(c.pledges, c.payments)(q)
              == Received(a.pledges, a.payments)(q) + (if q == person then received else 0)
    {
      assert Committed(b.pledges)(q) == Committed(a.pledges)(q) + (if q == person then committed else 0);
      assert Received(b.pledges, b.payments)(q) == Received(a.pledges, a.payments)(q);
      assert Committed(c.pledges)(q) == Committed(b.pledges)(q);
    }
  }

  lemma PledgeThenPayment(db: Db, pledged: Db, db': Db, view: View, person: nat, c: Call, direct: bool,
                          committed: nat, received: nat)
    requires c.Direct? || c.PledgeWithPayment?
    requires References(db) && Live(db, person) && PledgeAdded(db, pledged, person, committed, direct)
    requires PaymentAdded(pledged, db', view, |db.pledges|, received, c.key, c.now)
    ensures PersonMoves(db, db', person, committed, received) && EventMoves(db, db', committed, received)
  {
    PledgeMoves(db, pledged, person, committed, direct);
    PaymentMoves(pledged, db', view, |db.pledges|, received, c.key, c.now);
    Composed(db, pledged, db', person, committed, received);
  }

  /** A payment is received from its pledge's person. */
  lemma PayMoves(db: Db, c: Call)
    requires Inv(db) && c.Pay? && FreshKey(db.payments, c.key) && Exec(db, c).Done?
    ensures PersonMoves(db, Exec(db, c).db, db.pledges[c.pledge].person, 0, c.value)
            && EventMoves(db, Exec(db, c).db, 0, c.value)
  {
    PayAcceptedIff(db, c);
    PaymentMoves(db, Exec(db, c).db, Exec(db, c).view, c.pledge, c.value, c.key, c.now);
  }

  /** A direct contribution is committed and received at once. */
  lemma DirectMoves(db: Db, c: Call)
    requires Inv(db) && c.Direct? && FreshKey(db.payments, c.key) && Exec(db, c).Done?
    ensures var giver := if c.giver.Some? then c.giver.value else |db.people|;
            PersonMoves(db, Exec(db, c).db, giver, c.value, c.value) && EventMoves(db, Exec(db, c).db, c.value, c.value)
  {
    DirectAcceptedIff(db, c);
    var r, giver := Exec(db, c), if c.giver.Some? then c.giver.value else |db.people|;
    var mid, pledged :|
      && (if c.giver.Some? then mid == db
          else mid == db.(people := db.people + [Some(Person(None))], audit := db.audit + [PersonCreated(|db.people|)]))
      && PledgeAdded(mid, pledged, giver, c.value, true)
      && PaymentAdded(pledged, r.db, r.view, |db.pledges|, c.value, c.key, c.now);
    PledgeThenPayment(mid, pledged, r.db, r.view, giver, c, true, c.value, c.value);
    assert TotalCommitted(mid) == TotalCommitted(db) && TotalReceived(mid) == TotalReceived(db);
  }

  lemma PledgeWithPaymentMoves(db: Db, c: Call)
    requires Inv(db) && c.PledgeWithPayment? && Exec(db, c).Done?
    ensures PersonMoves(db, Exec(db, c).db, c.person, c.committed, c.received)
            && EventMoves(db, Exec(db, c).db, c.committed, c.received)
  {
    PledgeWithPaymentAcceptedIff(db, c);
    var r := Exec(db, c);
    var pledged :|
      && PledgeAdded(db, pledged, c.person, c.committed, false)
      && (if c.received == 0 then r.db == pledged
          else PaymentAdded(pledged, r.db, r.view, |db.pledges|, c.received, c.key, c.now));
    if c.received > 0 {
      PledgeThenPayment(db, pledged, r.db, r.view, c.person, c, false, c.committed, c.received);
    } else {
      PledgeMoves(db, pledged, c.person, c.committed, false);
    }
  }

  /** A payment correction moves the event's received money, and the person's unless the pledge is cancelled. */
  lemma CorrectPaymentMoves(db: Db, id: nat, value: nat)
    requires Inv(db) && Exec(db, CorrectPayment(id, value)).Done?
    ensures var db' := Exec(db, CorrectPayment(id, value)).db;
            && id < |db.payments| && db.payments[id].pledge < |db.pledges|
            && var p := db.pledges[db.payments[id].pledge];
               var more := value - db.payments[id].value;
               && PersonMoves(db, db', p.person, 0, if p.status == CANCELLED then 0 else more)
               && EventMoves(db, db', 0, more)
  {
    CorrectPaymentAcceptedIff(db, id, value);
    var db', f := Exec(db, CorrectPayment(id, value)).db, db.payments[id];
    assert db'.pledges == db.pledges[f.pledge := db'.pledges[f.pledge]];
    ChangedPledge(db, db'.pledges, f.pledge);
    var mid, p := db.(pledges := db'.pledges), db.pledges[f.pledge];
    var more := if p.status == CANCELLED then 0 else value - f.value;
    SumUpdate(db.payments, id, db'.payments[id], Value());
    forall q: nat
      ensures Received(db'.pledges, db'.payments)(q)
              == Received(db.pledges, db.payments)(q) + (if q == p.person then more else 0)
      ensures Committed(db'.pledges)(q) == Committed(db.pledges)(q)
    {
      assert Committed(mid.pledges)(q) == Committed(db.pledges)(q);
      assert Received(mid.pledges, mid.payments)(q) == Received(db.pledges, db.payments)(q);
      SumUpdate(db.payments, id, db'.payments[id], ReceivedFrom(db'.pledges, q));
    }
  }

  /** A new committed value counts unless the pledge is cancelled. */
  lemma CorrectCommittedMoves(db: Db, id: nat, value: nat)
    requires Inv(db) && id < |db.pledges|
    ensures var db' := Exec(db, CorrectCommitted(id, value)).db;
            var more := if db.pledges[id].status == CANCELLED then 0 else value - db.pledges[id].committed;
            PersonMoves(db, db', db.pledges[id].person, more, 0) && EventMoves(db, db', more, 0)
  {
    CorrectCommittedAcceptedIff(db, id, value);
    var db' := Exec(db, CorrectCommitted(id, value)).db;
    assert db'.pledges == db.pledges[id := db'.pledges[id]];
    ChangedPledge(db, db'.pledges, id);
    var mid := db.(pledges := db'.pledges);
    assert TotalCommitted(db') == TotalCommitted(mid) && TotalReceived(db') == TotalReceived(mid);
  }

  lemma {:induction false} CancelledReceives(pledges: seq<Pledge>, i: nat, payments: seq<Payment>, q: nat)
    requires i < |pledges| && pledges[i].status != CANCELLED
    ensures Received(pledges[i := pledges[i].(status := CANCELLED)], payments)(q)
            == Received(pledges, payments)(q) - (if q == pledges[i].person then Total(payments, i) else 0)
  {
    if payments != [] {
      CancelledReceives(pledges, i, payments[..|payments| - 1], q);
    }
  }

  /** Cancelling takes the commitment away, and from the person's received money what was paid on it; the event keeps
      that money. */
  lemma CancelMoves(db: Db, id: nat)
    requires Inv(db) && id < |db.pledges| && db.pledges[id].status != CANCELLED
    ensures var db' := Exec(db, Cancel(id)).db;
            && PersonMoves(db, db', db.pledges[id].person, 0 - db.pledges[id].committed, 0 - Total(db.payments, id))
            && EventMoves(db, db', 0 - db.pledges[id].committed, 0)
  {
    var db', p := Exec(db, Cancel(id)).db, db.pledges[id].(status := CANCELLED);
    CancelAcceptedIff(db, id);
    SumUpdate(db.pledges, id, p, CommittedAll());
    forall q: nat
      ensures Committed(db'.pledges)(q)
              == Committed(db.pledges)(q) + (if q == p.person then 0 - p.committed else 0)
      ensures Received(db'.pledges, db'.payments)(q)
              == Received(db.pledges, db.payments)(q) + (if q == p.person then 0 - Total(db.payments, id) else 0)
    {
      SumUpdate(db.pledges, id, p, CommittedBy(q));
      CancelledReceives(db.pledges, id, db.payments, q);
    }
  }

  // ---- Merging ------------------------------------------------------------------------------

  /** The target's figure is both people's, the source's is nothing. */
  ghost predicate MergedFigure(before: nat -> int, after: nat -> int, source: nat, target: nat) {
    forall q: nat :: after(q) == if q == target then before(source) + before(target)
                                 else if q == source then 0 else before(q)
  }

  lemma {:induction false} MergedCommitted(pledges: seq<Pledge>, source: nat, target: nat, q: nat)
    requires source != target
    ensures Committed(Moved(pledges, source, target))(q)
            == if q == target then Committed(pledges)(source) + Committed(pledges)(target)
               else if q == source then 0 else Committed(pledges)(q)
  {
    if pledges != [] {
      var init := pledges[..|pledges| - 1];
      MergedCommitted(init, source, target, q);
      assert Moved(pledges, source, target)[..|init|] == Moved(init, source, target);
    }
  }

  lemma {:induction false} MergedReceived(pledges: seq<Pledge>, payments: seq<Payment>, source: nat, target: nat,
                                          q: nat)
    requires source != target
    ensures Received(Moved(pledges, source, target), payments)(q)
            == if q == target then Received(pledges, payments)(source) + Received(pledges, payments)(target)
               else if q == source then 0 else Received(pledges, payments)(q)
  {
    if payments != [] {
      MergedReceived(pledges, payments[..|payments| - 1], source, target, q);
    }
  }

  /** A merge adds the source's figures to the target's and leaves everybody else's and the event's as they were. */
  lemma MergeMoves(db: Db, source: nat, target: nat)
    requires Inv(db) && Exec(db, Merge(source, target)).Done?
    ensures var db' := Exec(db, Merge(source, target)).db;
            && MergedFigure(Committed(db.pledges), Committed(db'.pledges), source, target)
            && MergedFigure(Received(db.pledges, db.payments), Received(db'.pledges, db'.payments), source, target)
            && EventMoves(db, db', 0, 0)
  {
    var db' := Exec(db, Merge(source, target)).db;
    MergeResult(db, source, target);
    MergeIsSafe(db, source, target);
    forall q: nat
      ensures Committed(db'.pledges)(q)
              == if q == target then Committed(db.pledges)(source) + Committed(db.pledges)(target)
                 else if q == source then 0 else Committed(db.pledges)(q)
      ensures Received(db'.pledges, db'.payments)(q)
              == if q == target then Received(db.pledges, db.payments)(source) + Received(db.pledges,
                  db.payments)(target)
                 else if q == source then 0 else Received(db.pledges, db.payments)(q)
    {
      MergedCommitted(db.pledges, source, target, q);
      MergedReceived(db.pledges, db.payments, source, target, q);
    }
  }

  // ---- Every call -------------------------------------------------------------------------

  predicate MovesNoMoney(db: Db, c: Call) {
    || c.CreatePerson? || c.Link? || (c.Cancel? && c.pledge < |db.pledges| && db.pledges[c.pledge].status == CANCELLED)
    || ((c.Pay? || c.Direct?) && c.key.Some? && c.key.value != "" && !FreshKey(db.payments, c.key))
  }

  /** New people, links, retries and repeated cancellations move nothing, nor do refused calls; nothing is committed or
      received in the empty ledger. */
  lemma OtherCallsMoveNothing(db: Db, c: Call, q: nat)
    requires Inv(db) && (MovesNoMoney(db, c) || Exec(db, c).Refused?)
    ensures PersonMoves(db, Step(db, c), q, 0, 0) && EventMoves(db, Step(db, c), 0, 0)
    ensures Committed(Empty.pledges)(q) == Received(Empty.pledges, Empty.payments)(q) == 0
    ensures TotalCommitted(Empty) == TotalReceived(Empty) == 0
  {
    if (c.Pay? || c.Direct?) && c.key.Some? {
      FreshIsUntaken(db.payments, c.key);
    }
    if c.Cancel? && c.pledge < |db.pledges| && db.pledges[c.pledge].status == CANCELLED {
      assert Step(db, c).pledges == db.pledges;
    }
  }
}
