/** The pledge, fulfilment and person services as they write: row by row inside a transaction, with the saved
    tables restored when an error is thrown. Each call is proved to be the ledger's transition for it. */
module LedgerServices {
  import opened Prelude
  import opened ContributionLedger

  datatype Outcome = Returned(view: View) | Thrown(error: Error)

  ghost predicate Matches(o: Outcome, r: Result) {
    match r
    case Done(_, view) => o == Returned(view)
    case Refused(error) => o == Thrown(error)
  }

  /** The tables before the writes and after each of them, in order. */
  ghost predicate Follows(trace: seq<Db>, db: Db, writes: seq<Write>) {
    && |trace| == |writes| + 1 && trace[0] == db
    && forall k :: 0 <= k < |writes| ==> trace[k + 1] == Apply(trace[k], writes[k])
  }

  /** A trace goes through exactly the states the merge's safety is proved of. */
  lemma {:induction false} FollowsPrefixes(trace: seq<Db>, db: Db, writes: seq<Write>, k: nat)
    requires Follows(trace, db, writes) && k <= |writes|
    ensures trace[k] == ApplyAll(db, writes[..k])
  {
    if k > 0 {
      FollowsPrefixes(trace, db, writes, k - 1);
      assert writes[..k][..k - 1] == writes[..k - 1] && writes[..k][k - 1] == writes[k - 1];
    }
  }

  lemma Extend(trace: seq<Db>, db: Db, writes: seq<Write>, write: Write, now: Db)
    requires Follows(trace, db, writes) && now == Apply(trace[|writes|], write)
    ensures Follows(trace + [now], db, writes + [write])
  {
  }

  class LedgerStore {
    var people: seq<Option<Person>>
    var pledges: seq<Pledge>
    var payments: seq<Payment>
    var audit: seq<Audit>
    var outbox: seq<nat>

    constructor ()
      ensures Tables() == Empty
    {
      people, pledges, payments, audit, outbox := [], [], [], [], [];
    }

    function Tables(): Db
      reads this
    {
      Db(people, pledges, payments, audit, outbox)
    }

    method Rollback(saved: Db)
      modifies this
      ensures Tables() == saved
    {
      people, pledges, payments, audit, outbox :=
        saved.people, saved.pledges, saved.payments, saved.audit, saved.outbox;
    }

    method SumPayments(pledge: nat) returns (total: nat)
      ensures total == Paid(payments, pledge)
    {
      total := 0;
      var i := 0;
      while i < |payments|
        invariant i <= |payments| && total == SumOf(payments[..i], ValueOn(pledge))
      {
        SumAppend(payments[..i], payments[i], ValueOn(pledge));
        assert payments[..i + 1] == payments[..i] + [payments[i]];
        if payments[i].pledge == pledge {
          total := total + payments[i].value;
        }
        i := i + 1;
      }
      assert payments[..i] == payments;
    }

    method FindByIdempotencyKey(key: Option<string>) returns (o: Option<View>)
      requires References(Tables())
      ensures o == match Replayed(Tables(), key)
                   case None => None
                   case Some(i) => Some(PaymentView(Tables(), i, true))
    {
      if key.None? || key.value == "" {
        return None;
      }
      var i := 0;
      while i < |payments| && payments[i].key != key
        invariant i <= |payments|
        invariant forall k :: 0 <= k < i ==> payments[k].key != key
      {
        i := i + 1;
      }
      if i == |payments| {
        return None;
      }
      var total := SumPayments(payments[i].pledge);
      var p := pledges[payments[i].pledge];
      return Some(View(i, payments[i].pledge, payments[i].value, p.status, Outstanding(p.committed, total), true));
    }

    /** Shared write path: payment, recomputed status, audit row, outbox row; `saved` is the transaction's start. */
    method WriteFulfillment(pledge: nat, value: nat, key: Option<string>, now: nat, saved: Db) returns (o: Outcome)
      requires pledge < |pledges|
      modifies this
      ensures Matches(o, WritePayment(old(Tables()), pledge, value, key, now))
      ensures Tables() == match WritePayment(old(Tables()), pledge, value, key, now)
                          case Done(db, _) => db
                          case Refused(_) => saved
      ensures o.Returned? ==>
                && |pledges| == |old(pledges)| && o.view.status == pledges[pledge].status
                && Deserves(o.view.status, old(pledges)[pledge].committed, Paid(payments, pledge), false)
    {
      if key.Some? && KeyTaken(payments, key.value) {
        Rollback(saved);
        return Thrown(UniqueViolation);
      }
      var id := |payments|;
      payments := payments + [Payment(pledge, value, key, now)];
      var total := SumPayments(pledge);
      var committed := pledges[pledge].committed;
      var status := DeriveStatus(committed, total, false);
      pledges := pledges[pledge := pledges[pledge].(status := status)];
      audit := audit + [PaymentCreated(id, pledge, value, status)];
      outbox := outbox + [id];
      return Returned(View(id, pledge, value, status, Outstanding(committed, total), false));
    }

    method RecordFulfillment(pledge: nat, value: nat, key: Option<string>, confirmed: bool, now: nat)
      returns (o: Outcome)
      requires References(Tables())
      modifies this
      ensures Matches(o, Exec(old(Tables()), Pay(pledge, value, key, confirmed, now)))
      ensures o.Returned? && !o.view.replay ==>
                && pledge < |old(pledges)| == |pledges| && o.view.status == pledges[pledge].status
                && Deserves(o.view.status, old(pledges)[pledge].committed, Paid(payments, pledge), false)
      ensures Tables() == Step(old(Tables()), Pay(pledge, value, key, confirmed, now))
    {
      var replay := FindByIdempotencyKey(key);
      if replay.Some? {
        return Returned(replay.value);
      }
      if pledge >= |pledges| {
        return Thrown(NotFound);
      }
      if pledges[pledge].status == CANCELLED {
        return Thrown(Forbidden);
      }
      if !confirmed && LooksDuplicate(payments, pledge, value, now) {
        return Thrown(DuplicateSuspected);
      }
      var existing := SumPayments(pledge);
      if existing + value > pledges[pledge].committed {
        return Thrown(Forbidden);
      }
      o := WriteFulfillment(pledge, value, key, now, Tables());
    }

    /** The contributor of a direct contribution: the given live person, or a new one when only a name is given. */
    method FindOrCreatePerson(person: Option<nat>, named: bool) returns (id: Option<nat>)
      modifies this`people, this`audit
      ensures id == if person.Some? then (if Live(old(Tables()), person.value) then person else None)
                    else if named then Some(|old(people)|) else None
      ensures Tables() == if person.None? && named then AddPerson(old(Tables())) else old(Tables())
    {
      if person.Some? {
        return if person.value < |people| && people[person.value].Some? then person else None;
      }
      if !named {
        return None;
      }
      id := Some(|people|);
      people := people + [Some(Person(None))];
      audit := audit + [PersonCreated(id.value)];
    }

    method RecordDirectContribution(person: Option<nat>, named: bool, value: nat, key: Option<string>, now: nat)
      returns (o: Outcome)
      requires References(Tables())
      modifies this
      ensures Matches(o, Exec(old(Tables()), Direct(person, named, value, key, now)))
      ensures Tables() == Step(old(Tables()), Direct(person, named, value, key, now))
    {
      var saved := Tables();
      var replay := FindByIdempotencyKey(key);
      if replay.Some? {
        return Returned(replay.value);
      }
      var personId := FindOrCreatePerson(person, named);
      if personId.None? {
        return Thrown(NotFound);
      }
      var id := |pledges|;
      pledges := pledges + [Pledge(personId.value, value, PLEDGED)];
      audit := audit + [PledgeCreated(id, personId.value, value, true)];
      o := WriteFulfillment(id, value, key, now, saved);
    }

    method RecordPledgeWithPayment(person: nat, committed: nat, received: nat, key: Option<string>, now: nat)
      returns (o: Outcome)
      modifies this
      ensures Matches(o, Exec(old(Tables()), PledgeWithPayment(person, committed, received, key, now)))
      ensures Tables() == Step(old(Tables()), PledgeWithPayment(person, committed, received, key, now))
    {
      var saved := Tables();
      if person >= |people| || people[person].None? {
        return Thrown(NotFound);
      }
      if received > committed {
        return Thrown(Forbidden);
      }
      var id := |pledges|;
      pledges := pledges + [Pledge(person, committed, PLEDGED)];
      audit := audit + [PledgeCreated(id, person, committed, false)];
      if received <= 0 {
        return Returned(View(id, id, 0, PLEDGED, committed, false));
      }
      o := WriteFulfillment(id, received, key, now, saved);
    }

    method CorrectValue(id: nat, value: nat) returns (o: Outcome)
      requires References(Tables())
      modifies this
      ensures Matches(o, Exec(old(Tables()), CorrectPayment(id, value)))
      ensures Tables() == Step(old(Tables()), CorrectPayment(id, value))
      ensures o.Returned? ==>
                && id < |old(payments)| && var i := old(payments)[id].pledge;
                && i < |old(pledges)| == |pledges| && o.view.status == pledges[i].status
                && Deserves(o.view.status, old(pledges)[i].committed, Paid(payments, i),
                            old(pledges)[i].status == CANCELLED)
    {
      if id >= |payments| {
        return Thrown(NotFound);
      }
      var before := payments[id];
      var existing := SumPayments(before.pledge);
      if existing - before.value + value > pledges[before.pledge].committed {
        return Thrown(Forbidden);
      }
      payments := payments[id := before.(value := value)];
      var total := SumPayments(before.pledge);
      var pledge := pledges[before.pledge];
      var status := DeriveStatus(pledge.committed, total, pledge.status == CANCELLED);
      pledges := pledges[before.pledge := pledge.(status := status)];
      audit := audit + [PaymentCorrected(id, before.value, value, status)];
      return Returned(View(id, before.pledge, value, status, Outstanding(pledge.committed, total), false));
    }

    method CorrectCommittedValue(id: nat, value: nat) returns (found: bool)
      modifies this
      ensures found <==> id < |old(pledges)|
      ensures Tables() == Step(old(Tables()), CorrectCommitted(id, value))
      ensures found ==> id < |old(pledges)| == |pledges|
                        && Deserves(pledges[id].status, value, Paid(payments, id), old(pledges)[id].status == CANCELLED)
    {
      if id >= |pledges| {
        return false;
      }
      var current := pledges[id];
      var total := SumPayments(id);
      var status := DeriveStatus(value, total, current.status == CANCELLED);
      pledges := pledges[id := current.(committed := value, status := status)];
      audit := audit + [PledgeCorrected(id, current.committed, value)];
      return true;
    }

    method CancelPledge(id: nat) returns (found: bool)
      modifies this
      ensures found <==> id < |old(pledges)|
      ensures Tables() == Step(old(Tables()), Cancel(id))
    {
      if id >= |pledges| {
        return false;
      }
      var current := pledges[id];
      pledges := pledges[id := current.(status := CANCELLED)];
      audit := audit + [PledgeCancelled(id, current.status)];
      return true;
    }

    /** The unique (event, user) key is checked by the write itself. */
    method LinkPersonToUser(person: nat, user: string) returns (o: Outcome)
      modifies this
      ensures Tables() == Step(old(Tables()), Link(person, user))
      ensures match o
              case Thrown(error) => Exec(old(Tables()), Link(person, user)) == Refused(error)
              case Returned(_) => HeldBy(people, person, user) && Exec(old(Tables()), Link(person, user)).Done?
    {
      if person >= |people| || people[person].None? {
        return Thrown(NotFound);
      }
      var before := people[person].value.user;
      if before.Some? && before.value != user {
        return Thrown(Conflict);
      }
      var i := 0;
      while i < |people|
        invariant i <= |people|
        invariant forall k :: 0 <= k < i && k != person ==> !HeldBy(people, k, user)
      {
        if i != person && HeldBy(people, i, user) {
          return Thrown(Conflict);
        }
        i := i + 1;
      }
      people := people[person := Some(Person(Some(user)))];
      if before != Some(user) {
        audit := audit + [PersonLinked(person, before, user)];
      }
      return Returned(View(person, 0, 0, PLEDGED, 0, false));
    }

    method MovePledgesOf(source: nat, target: nat) returns (moved: nat)
      modifies this`pledges
      ensures pledges == Moved(old(pledges), source, target) && moved == CountOf(old(pledges), source)
      ensures Tables() == Apply(old(Tables()), MovePledges(source, target))
    {
      ghost var p0 := pledges;
      moved := 0;
      var i := 0;
      while i < |pledges|
        invariant i <= |pledges| == |p0| && moved == CountOf(p0[..i], source)
        invariant forall k :: 0 <= k < |p0| ==> pledges[k] == if k < i then Moved(p0, source, target)[k] else p0[k]
      {
        assert p0[..i + 1][..i] == p0[..i];
        if pledges[i].person == source {
          pledges := pledges[i := pledges[i].(person := target)];
          moved := moved + 1;
        }
        i := i + 1;
      }
      assert p0[..i] == p0;
    }

    method UpdateUser(person: nat, user: Option<string>)
      requires Live(Tables(), person)
      modifies this`people
      ensures Tables() == Apply(old(Tables()), SetUser(person, user))
    {
      people := people[person := Some(Person(user))];
    }

    method WriteAudit(entry: Audit)
      modifies this`audit
      ensures Tables() == Apply(old(Tables()), AppendAudit(entry))
    {
      audit := audit + [entry];
    }

    method DeleteRow(person: nat)
      requires person < |people|
      modifies this`people
      ensures Tables() == Apply(old(Tables()), DeletePerson(person))
    {
      people := people[person := None];
    }

    /** An account update that only some merges make, added to the trace. */
    method UpdateUserIf(needed: bool, person: nat, user: Option<string>, ghost db: Db, ghost trace: seq<Db>,
                        ghost done: seq<Write>)
      returns (ghost trace': seq<Db>, ghost done': seq<Write>)
      requires Follows(trace, db, done) && Tables() == trace[|done|] && Live(Tables(), person)
      modifies this`people
      ensures done' == done + if needed then [SetUser(person, user)] else []
      ensures Follows(trace', db, done') && Tables() == trace'[|done'|]
      ensures |people| == |old(people)| && forall i :: 0 <= i < |people| && old(people)[i].Some? ==> people[i].Some?
    {
      trace', done' := trace, done;
      if needed {
        UpdateUser(person, user);
        Extend(trace, db, done, SetUser(person, user), Tables());
        trace', done' := trace + [Tables()], done + [SetUser(person, user)];
      }
    }

    /** Frees the source's account, re-parents its pledges, lets the target inherit the account, audits, and deletes the
        emptied source: the writes of `MergeWrites`, one by one and in that order. */
    method WriteMerge(source: nat, target: nat) returns (moved: nat, ghost trace: seq<Db>)
      requires MergeError(Tables(), source, target).None?
      modifies this
      ensures moved == CountOf(old(pledges), source)
      ensures Follows(trace, old(Tables()), MergeWrites(old(Tables()), source, target))
      ensures Tables() == trace[|trace| - 1]
    {
      ghost var db := Tables();
      ghost var done: seq<Write> := [];
      var sourceUser, targetUser := people[source].value.user, people[target].value.user;
      trace := [db];
      trace, done := UpdateUserIf(sourceUser.Some?, source, None, db, trace, done);
      moved := MovePledgesOf(source, target);
      Extend(trace, db, done, MovePledges(source, target), Tables());
      trace, done := trace + [Tables()], done + [MovePledges(source, target)];
      trace, done := UpdateUserIf(targetUser.None? && sourceUser.Some?, target, sourceUser, db, trace, done);
      var entry := PeopleMerged(source, target, moved);
      WriteAudit(entry);
      Extend(trace, db, done, AppendAudit(entry), Tables());
      trace, done := trace + [Tables()], done + [AppendAudit(entry)];
      DeleteRow(source);
      Extend(trace, db, done, DeletePerson(source), Tables());
      trace, done := trace + [Tables()], done + [DeletePerson(source)];
      assert done == MergeWrites(db, source, target);
    }

    /** The tables pass through every state of the ledger's merge, in order. */
    method MergePeople(source: nat, target: nat) returns (o: Outcome, moved: nat, ghost trace: seq<Db>)
      modifies this
      ensures Tables() == Step(old(Tables()), Merge(source, target))
      ensures o.Thrown? <==> MergeError(old(Tables()), source, target).Some?
      ensures o.Thrown? ==> MergeError(old(Tables()), source, target) == Some(o.error) && Tables() == old(Tables())
      ensures o.Returned? ==> moved == CountOf(old(pledges), source)
      ensures o.Returned? ==> Follows(trace, old(Tables()), MergeWrites(old(Tables()), source, target))
    {
      if source == target {
        return Thrown(Conflict), 0, [];
      }
      if source >= |people| || people[source].None? || target >= |people| || people[target].None? {
        return Thrown(NotFound), 0, [];
      }
      var sourceUser, targetUser := people[source].value.user, people[target].value.user;
      if sourceUser.Some? && targetUser.Some? && sourceUser != targetUser {
        return Thrown(Conflict), 0, [];
      }
      ghost var writes := MergeWrites(Tables(), source, target);
      moved, trace := WriteMerge(source, target);
      o := Returned(View(target, 0, 0, PLEDGED, 0, false));
      FollowsPrefixes(trace, trace[0], writes, |writes|);
      assert writes[..|writes|] == writes;
    }
  }
}
