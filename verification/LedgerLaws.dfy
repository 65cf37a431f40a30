/** What each call of the contribution ledger accepts and does, spelt out, and what every run leaves behind. */
module LedgerLaws {
  import opened Prelude
  import opened ContributionLedger

  ghost function OnPledge(i: nat): Payment -> int { (f: Payment) => if f.pledge == i then f.value else 0 }

  /** Money paid on a pledge. */
  ghost function Total(payments: seq<Payment>, i: nat): int { SumOf(payments, OnPledge(i)) }

  lemma TotalIsPaid(payments: seq<Payment>, i: nat)
    ensures Total(payments, i) == Paid(payments, i)
  {
    SumPointwise(payments, OnPledge(i), payments, ValueOn(i));
  }

  /** Some accepted call has cancelled the pledge. */
  ghost predicate Cancelled(db: Db, calls: seq<Call>, i: nat)
    decreases |calls|
  {
    calls != [] &&
    ((calls[0] == Cancel(i) && i < |db.pledges|) || Cancelled(Step(db, calls[0]), calls[1..], i))
  }

  lemma StepCancels(db: Db, c: Call, i: nat)
    requires Inv(db) && i < |Step(db, c).pledges|
    ensures Step(db, c).pledges[i].status == CANCELLED
            <==> i < |db.pledges| && (db.pledges[i].status == CANCELLED || c == Cancel(i))
  {
    if i < |db.pledges| && db.pledges[i].status == CANCELLED {
      StepKeepsCancelled(db, c, i);
    } else if c.Merge? {
      if MergeError(db, c.source, c.target).None? {
        MergeResult(db, c.source, c.target);
      }
    } else if c.Pay? {
      if i < |db.pledges| {
        PayCancelsNothing(db, c, i);
      }
    } else if c.Direct? {
      DirectCancelsNothing(db, c, i);
    } else if c.PledgeWithPayment? {
      PledgeWithPaymentCancelsNothing(db, c, i);
    }
  }

  lemma WriteCancelsNothing(db: Db, pledge: nat, value: nat, key: Option<string>, now: nat, i: nat)
    requires pledge < |db.pledges| && i < |db.pledges| && db.pledges[i].status != CANCELLED
    ensures var r := WritePayment(db, pledge, value, key, now);
            r.Done? ==> |r.db.pledges| == |db.pledges| && r.db.pledges[i].status != CANCELLED
  {
  }

  lemma PayCancelsNothing(db: Db, c: Call, i: nat)
    requires c.Pay? && i < |db.pledges| && db.pledges[i].status != CANCELLED
    ensures |Step(db, c).pledges| == |db.pledges| && Step(db, c).pledges[i].status != CANCELLED
  {
    if c.pledge < |db.pledges| {
      WriteCancelsNothing(db, c.pledge, c.value, c.key, c.now, i);
    }
  }

  lemma DirectCancelsNothing(db: Db, c: Call, i: nat)
    requires c.Direct? && (i < |db.pledges| ==> db.pledges[i].status != CANCELLED) && i < |Step(db, c).pledges|
    ensures Step(db, c).pledges[i].status != CANCELLED
  {
    var mid := if c.giver.None? then AddPerson(db) else db;
    var pledged := AddPledge(mid, if c.giver.None? then |db.people| else c.giver.value, c.value, true);
    if i <= |db.pledges| {
      WriteCancelsNothing(pledged, |db.pledges|, c.value, c.key, c.now, i);
    }
  }

  lemma PledgeWithPaymentCancelsNothing(db: Db, c: Call, i: nat)
    requires c.PledgeWithPayment? && (i < |db.pledges| ==> db.pledges[i].status != CANCELLED)
    requires i < |Step(db, c).pledges|
    ensures Step(db, c).pledges[i].status != CANCELLED
  {
    if i <= |db.pledges| {
      WriteCancelsNothing(AddPledge(db, c.person, c.committed, false), |db.pledges|, c.received, c.key, c.now, i);
    }
  }

  lemma StepKeepsPledges(db: Db, c: Call)
    ensures |db.pledges| <= |Step(db, c).pledges|
  {
    if c.Merge? && MergeError(db, c.source, c.target).None? {
      MergeResult(db, c.source, c.target);
    }
  }

  lemma {:induction false} CancelledIff(db: Db, calls: seq<Call>, i: nat)
    requires Inv(db) && i < |Run(db, calls).pledges|
    ensures Run(db, calls).pledges[i].status == CANCELLED
            <==> (i < |db.pledges| && db.pledges[i].status == CANCELLED) || Cancelled(db, calls, i)
    decreases |calls|
  {
    if calls != [] {
      StepKeepsInv(db, calls[0]);
      StepKeepsPledges(db, calls[0]);
      CancelledIff(Step(db, calls[0]), calls[1..], i);
      if i < |Step(db, calls[0]).pledges| {
        StepCancels(db, calls[0], i);
      }
    }
  }

  /** In every run from the empty ledger: a pledge is CANCELLED exactly when some call has cancelled it; otherwise it is
      PLEDGED, PARTIALLY_FULFILLED or FULFILLED as nothing, some or all of its commitment has been paid. */
  lemma StatusLaw(calls: seq<Call>, i: nat)
    requires i < |Run(Empty, calls).pledges|
    ensures var db := Run(Empty, calls);
            Deserves(db.pledges[i].status, db.pledges[i].committed, Total(db.payments, i), Cancelled(Empty, calls, i))
  {
    var db := Run(Empty, calls);
    RunKeepsInv(Empty, calls);
    CancelledIff(Empty, calls, i);
    TotalIsPaid(db.payments, i);
    assert StatusOk(db, i);
  }

  // ---- Payments ---------------------------------------------------------------------------

  predicate FreshKey(payments: seq<Payment>, key: Option<string>) {
    key.Some? ==> forall k :: 0 <= k < |payments| ==> payments[k].key != key
  }

  lemma FreshIsUntaken(payments: seq<Payment>, key: Option<string>)
    ensures FreshKey(payments, key) <==> (key.Some? ==> !KeyTaken(payments, key.value))
  {
    if key.Some? {
      var i := FindKey(payments, key.value);
      assert i < |payments| ==> payments[i].key == key;
    }
  }

  /** One payment of the value was added to the pledge, its status follows, one confirmation was enqueued, and the
      answer tells the payment with what is left to pay; nobody else's pledge changed. */
  ghost predicate PaymentAdded(db: Db, db': Db, view: View, pledge: nat, value: nat, key: Option<string>, now: nat)
    requires pledge < |db.pledges|
  {
    var id, p := |db.payments|, db.pledges[pledge];
    var total := Total(db.payments, pledge) + value;
    && db'.people == db.people && db'.payments == db.payments + [Payment(pledge, value, key, now)]
    && |db'.pledges| == |db.pledges|
    && (forall i :: 0 <= i < |db.pledges| && i != pledge ==> db'.pledges[i] == db.pledges[i])
    && db'.pledges[pledge].person == p.person && db'.pledges[pledge].committed == p.committed
    && Deserves(db'.pledges[pledge].status, p.committed, total, false)
    && db'.outbox == db.outbox + [id]
    && db'.audit == db.audit + [PaymentCreated(id, pledge, value, db'.pledges[pledge].status)]
    && view.id == id && view.pledge == pledge && view.value == value && !view.replay
    && view.status == db'.pledges[pledge].status && view.outstanding == Max(0, p.committed - total)
  }

  lemma WriteAdds(db: Db, pledge: nat, value: nat, key: Option<string>, now: nat)
    requires pledge < |db.pledges|
    ensures var r := WritePayment(db, pledge, value, key, now);
            && (r.Done? <==> FreshKey(db.payments, key))
            && (r.Done? ==> PaymentAdded(db, r.db, r.view, pledge, value, key, now))
            && (r.Refused? ==> r.error == UniqueViolation)
  {
    FreshIsUntaken(db.payments, key);
    SumAppend(db.payments, Payment(pledge, value, key, now), OnPledge(pledge));
    TotalIsPaid(db.payments, pledge);
    TotalIsPaid(db.payments + [Payment(pledge, value, key, now)], pledge);
  }

  /** No payment of the same value was recorded on the pledge in the ten minutes up to now. */
  predicate NoRecentTwin(payments: seq<Payment>, pledge: nat, value: nat, now: nat) {
    forall k :: 0 <= k < |payments| && payments[k].pledge == pledge && payments[k].value == value ==>
      payments[k].at + 600_000 < now
  }

  /** A payment that is no retry is accepted exactly when its pledge exists and is not cancelled, it looks like no
      duplicate or is confirmed, and it fits; then it is recorded as given. */
  lemma PayAcceptedIff(db: Db, c: Call)
    requires Inv(db) && c.Pay? && FreshKey(db.payments, c.key)
    ensures Exec(db, c).Done?
            <==> c.pledge < |db.pledges| && db.pledges[c.pledge].status != CANCELLED
                 && (c.confirmed || NoRecentTwin(db.payments, c.pledge, c.value, c.now))
                 && Total(db.payments, c.pledge) + c.value <= db.pledges[c.pledge].committed
    ensures Exec(db, c).Done? ==>
              c.pledge < |db.pledges|
              && PaymentAdded(db, Exec(db, c).db, Exec(db, c).view, c.pledge, c.value, c.key, c.now)
    ensures Exec(db, c).Refused? ==>
              Exec(db, c).error == if c.pledge >= |db.pledges| then NotFound
                                   else if db.pledges[c.pledge].status != CANCELLED && !c.confirmed
                                           && !NoRecentTwin(db.payments, c.pledge, c.value, c.now)
                                   then DuplicateSuspected else Forbidden
  {
    FreshIsUntaken(db.payments, c.key);
    TotalIsPaid(db.payments, c.pledge);
    assert LooksDuplicate(db.payments, c.pledge, c.value, c.now)
           <==> !NoRecentTwin(db.payments, c.pledge, c.value, c.now);
    if c.pledge < |db.pledges| {
      WriteAdds(db, c.pledge, c.value, c.key, c.now);
    }
  }

  /** A pledge was added as given, open and unpaid, with its audit entry. */
  ghost predicate PledgeAdded(db: Db, db': Db, person: nat, committed: nat, direct: bool) {
    && db'.people == db.people && db'.payments == db.payments && db'.outbox == db.outbox
    && db'.pledges == db.pledges + [Pledge(person, committed, PLEDGED)]
    && db'.audit == db.audit + [PledgeCreated(|db.pledges|, person, committed, direct)]
  }

  predicate PersonExists(db: Db, person: nat) { person < |db.people| && db.people[person].Some? }

  lemma CreatePledgeAcceptedIff(db: Db, person: nat, committed: nat)
    ensures var r := Exec(db, CreatePledge(person, committed));
            && (r.Done? <==> PersonExists(db, person)) && (r.Done? ==> PledgeAdded(db, r.db, person, committed, false))
            && (r.Refused? ==> r.error == NotFound)
  {
  }

  /** A direct contribution that is no retry needs an existing giver, or the name of a new one; it leaves a pledge of
      exactly the value with its one payment, and the new giver if there is none yet. */
  lemma DirectAcceptedIff(db: Db, c: Call)
    requires Inv(db) && c.Direct? && FreshKey(db.payments, c.key)
    ensures Exec(db, c).Done? <==> if c.giver.Some? then PersonExists(db, c.giver.value) else c.named
    ensures Exec(db, c).Refused? ==> Exec(db, c).error == NotFound
    ensures Exec(db, c).Done? ==>
              var giver := if c.giver.Some? then c.giver.value else |db.people|;
              exists mid, pledged ::
                && (if c.giver.Some? then mid == db
                    else mid == db.(people := db.people + [Some(Person(None))],
                                    audit := db.audit + [PersonCreated(|db.people|)]))
                && PledgeAdded(mid, pledged, giver, c.value, true)
                && PaymentAdded(pledged, Exec(db, c).db, Exec(db, c).view, |db.pledges|, c.value, c.key, c.now)
  {
    FreshIsUntaken(db.payments, c.key);
    if Exec(db, c).Done? {
      var mid := if c.giver.None? then AddPerson(db) else db;
      var pledged := AddPledge(mid, if c.giver.None? then |db.people| else c.giver.value, c.value, true);
      WriteAdds(pledged, |db.pledges|, c.value, c.key, c.now);
      assert PledgeAdded(mid, pledged, if c.giver.Some? then c.giver.value else |db.people|, c.value, true);
    } else if (c.giver.Some? && PersonExists(db, c.giver.value)) || (c.giver.None? && c.named) {
      var mid := if c.giver.None? then AddPerson(db) else db;
      var pledged := AddPledge(mid, if c.giver.None? then |db.people| else c.giver.value, c.value, true);
      WriteAdds(pledged, |db.pledges|, c.value, c.key, c.now);
    }
  }

  /** A pledge with a payment needs an existing person, a payment within the pledge, and for a positive one a key nobody
      has used. */
  lemma PledgeWithPaymentAcceptedIff(db: Db, c: Call)
    requires Inv(db) && c.PledgeWithPayment?
    ensures Exec(db, c).Done?
            <==> PersonExists(db, c.person) && c.received <= c.committed
                 && (c.received == 0 || FreshKey(db.payments, c.key))
    ensures Exec(db, c).Refused? ==>
              Exec(db, c).error == if !PersonExists(db, c.person) then NotFound
                                   else if c.received > c.committed then Forbidden else UniqueViolation
    ensures Exec(db, c).Done? ==>
              exists pledged ::
                && PledgeAdded(db, pledged, c.person, c.committed, false)
                && (if c.received == 0 then Exec(db, c).db == pledged
                    else PaymentAdded(pledged, Exec(db, c).db, Exec(db, c).view, |db.pledges|, c.received, c.key,
                        c.now))
    ensures Exec(db, c).Done? && c.received == 0 ==>
              var v := Exec(db, c).view;
              && v.id == v.pledge == |db.pledges| && v.value == 0 && v.status == PLEDGED && !v.replay
              && v.outstanding == c.committed
  {
    var pledged := AddPledge(db, c.person, c.committed, false);
    assert PledgeAdded(db, pledged, c.person, c.committed, false);
    WriteAdds(pledged, |db.pledges|, c.received, c.key, c.now);
  }

  // ---- Corrections and cancellation -----------------------------------------------------------

  /** A payment correction is accepted exactly when the payment exists and the pledge's other payments leave room for
      the new value; it changes that value and the pledge's status, on a cancelled pledge not even that. */
  lemma CorrectPaymentAcceptedIff(db: Db, id: nat, value: nat)
    requires Inv(db)
    ensures var r := Exec(db, CorrectPayment(id, value));
            && (r.Done? <==> id < |db.payments|
                             && Total(db.payments, db.payments[id].pledge) - db.payments[id].value + value
                                <= db.pledges[db.payments[id].pledge].committed)
            && (r.Refused? ==> r.error == if id >= |db.payments| then NotFound else Forbidden)
            && (r.Done? ==>
                  var f := db.payments[id];
                  var p, total := db.pledges[f.pledge], Total(db.payments, f.pledge) - f.value + value;
                  && r.db.people == db.people && r.db.outbox == db.outbox
                  && r.db.payments == db.payments[id := Payment(f.pledge, value, f.key, f.at)]
                  && |r.db.pledges| == |db.pledges|
                  && (forall i :: 0 <= i < |db.pledges| && i != f.pledge ==> r.db.pledges[i] == db.pledges[i])
                  && r.db.pledges[f.pledge].person == p.person && r.db.pledges[f.pledge].committed == p.committed
                  && Deserves(r.db.pledges[f.pledge].status, p.committed, total, p.status == CANCELLED)
                  && r.db.audit == db.audit + [PaymentCorrected(id, f.value, value, r.db.pledges[f.pledge].status)]
                  && r.view.id == id && r.view.pledge == f.pledge && r.view.value == value && !r.view.replay
                  && r.view.status == r.db.pledges[f.pledge].status
                  && r.view.outstanding == Max(0, p.committed - total))
  {
    if id < |db.payments| {
      var f := db.payments[id];
      TotalIsPaid(db.payments, f.pledge);
      TotalIsPaid(db.payments[id := f.(value := value)], f.pledge);
      SumUpdate(db.payments, id, f.(value := value), OnPledge(f.pledge));
    }
  }

  /** Any existing pledge can be given a new committed value, even below what was paid. */
  lemma CorrectCommittedAcceptedIff(db: Db, id: nat, value: nat)
    ensures var r := Exec(db, CorrectCommitted(id, value));
            && (r.Done? <==> id < |db.pledges|) && (r.Refused? ==> r.error == NotFound)
            && (r.Done? ==>
                  var p := db.pledges[id];
                  && r.db.people == db.people && r.db.payments == db.payments && r.db.outbox == db.outbox
                  && |r.db.pledges| == |db.pledges|
                  && (forall i :: 0 <= i < |db.pledges| && i != id ==> r.db.pledges[i] == db.pledges[i])
                  && r.db.pledges[id].person == p.person && r.db.pledges[id].committed == value
                  && Deserves(r.db.pledges[id].status, value, Total(db.payments, id), p.status == CANCELLED)
                  && r.db.audit == db.audit + [PledgeCorrected(id, p.committed, value)])
  {
    TotalIsPaid(db.payments, id);
  }

  lemma CancelAcceptedIff(db: Db, id: nat)
    ensures var r := Exec(db, Cancel(id));
            && (r.Done? <==> id < |db.pledges|) && (r.Refused? ==> r.error == NotFound)
            && (r.Done? ==>
                  var p := db.pledges[id];
                  && r.db.people == db.people && r.db.payments == db.payments && r.db.outbox == db.outbox
                  && r.db.pledges == db.pledges[id := Pledge(p.person, p.committed, CANCELLED)]
                  && r.db.audit == db.audit + [PledgeCancelled(id, p.status)])
  {
  }

  // ---- People ----------------------------------------------------------------------------------

  predicate LinkedTo(db: Db, person: nat, user: string) {
    PersonExists(db, person) && db.people[person].value.user == Some(user)
  }

  /** A link is accepted exactly when the person exists, has no other account, and nobody else has this one; it adds the
      account and an audit entry, or nothing if it was there already. */
  lemma LinkAcceptedIff(db: Db, person: nat, user: string)
    ensures var r := Exec(db, Link(person, user));
            && (r.Done? <==> PersonExists(db, person)
                             && (db.people[person].value.user.None? || LinkedTo(db, person, user))
                             && forall i :: 0 <= i < |db.people| && LinkedTo(db, i, user) ==> i == person)
            && (r.Refused? ==> r.error == if PersonExists(db, person) then Conflict else NotFound)
            && (r.Done? && LinkedTo(db, person, user) ==> r.db == db)
            && (r.Done? && !LinkedTo(db, person, user) ==>
                  && r.db.people == db.people[person := Some(Person(Some(user)))]
                  && r.db.pledges == db.pledges && r.db.payments == db.payments && r.db.outbox == db.outbox
                  && r.db.audit == db.audit + [PersonLinked(person, None, user)])
  {
    forall i: nat
      ensures HeldBy(db.people, i, user) <==> LinkedTo(db, i, user)
    {
    }
  }

  ghost function PledgesOf(pledges: seq<Pledge>, person: nat): set<int> {
    set i | 0 <= i < |pledges| && pledges[i].person == person
  }

  lemma {:induction false} CountIs(pledges: seq<Pledge>, person: nat)
    ensures CountOf(pledges, person) == |PledgesOf(pledges, person)|
  {
    if pledges != [] {
      var n := |pledges| - 1;
      CountIs(pledges[..n], person);
      if pledges[n].person == person {
        assert PledgesOf(pledges, person) == PledgesOf(pledges[..n], person) + {n};
      } else {
        assert PledgesOf(pledges, person) == PledgesOf(pledges[..n], person);
      }
    }
  }

  /** A merge is accepted exactly when both people exist, are two, and are not linked to different accounts; the audit
      trail tells how many pledges it moved. */
  lemma MergeAcceptedIff(db: Db, source: nat, target: nat)
    ensures var r := Exec(db, Merge(source, target));
            && (r.Done? <==> source != target && PersonExists(db, source) && PersonExists(db, target)
                             && !exists a, b :: LinkedTo(db, source, a) && LinkedTo(db, target, b) && a != b)
            && (r.Refused? ==> r.error == if source != target && !(PersonExists(db, source) && PersonExists(db, target))
                                          then NotFound else Conflict)
            && (r.Done? ==> r.db.audit == db.audit + [PeopleMerged(source, target, |PledgesOf(db.pledges, source)|)])
  {
    CountIs(db.pledges, source);
    if MergeError(db, source, target).None? {
      MergeResult(db, source, target);
    }
    if PersonExists(db, source) && PersonExists(db, target) {
      var su, tu := db.people[source].value.user, db.people[target].value.user;
      if su.Some? && tu.Some? && su != tu {
        assert LinkedTo(db, source, su.value) && LinkedTo(db, target, tu.value);
      }
    }
  }

  // ---- Confirmations -----------------------------------------------------------------------------

  ghost predicate OnePerPayment(db: Db) {
    |db.outbox| == |db.payments| && forall k :: 0 <= k < |db.outbox| ==> db.outbox[k] == k
  }

  lemma PaymentsKeepOnePerPayment(db: Db, c: Call)
    requires OnePerPayment(db) && (c.Pay? || c.Direct? || c.PledgeWithPayment?)
    ensures OnePerPayment(Step(db, c))
  {
  }

  lemma StepKeepsOnePerPayment(db: Db, c: Call)
    requires OnePerPayment(db)
    ensures OnePerPayment(Step(db, c))
  {
    if c.Pay? || c.Direct? || c.PledgeWithPayment? {
      PaymentsKeepOnePerPayment(db, c);
    } else if c.Merge? && MergeError(db, c.source, c.target).None? {
      MergeResult(db, c.source, c.target);
    }
  }

  lemma {:induction false} RunKeepsOnePerPayment(db: Db, calls: seq<Call>)
    requires OnePerPayment(db)
    ensures OnePerPayment(Run(db, calls))
    decreases |calls|
  {
    if calls != [] {
      StepKeepsOnePerPayment(db, calls[0]);
      RunKeepsOnePerPayment(Step(db, calls[0]), calls[1..]);
    }
  }

  /** In every run exactly one confirmation is enqueued for each payment, in the order they were recorded. */
  lemma EveryPaymentIsConfirmedOnce(calls: seq<Call>)
    ensures OnePerPayment(Run(Empty, calls))
  {
    RunKeepsOnePerPayment(Empty, calls);
  }
}
