/** One event's contribution ledger: people, pledges, payments, audit trail and outbox. Each call is one
    transaction; an error rolls it back. Rows are identified by their position in creation order. */
module ContributionLedger {
  import opened Prelude

  datatype PledgeStatus = PLEDGED | PARTIALLY_FULFILLED | FULFILLED | CANCELLED

  datatype Person = Person(user: Option<string>)

  datatype Pledge = Pledge(person: nat, committed: nat, status: PledgeStatus)

  datatype Payment = Payment(pledge: nat, value: nat, key: Option<string>, at: nat)

  datatype Audit =
    | PersonCreated(person: nat)
    | PersonLinked(person: nat, oldUser: Option<string>, user: string)
    | PeopleMerged(source: nat, target: nat, moved: nat)
    | PledgeCreated(pledge: nat, person: nat, committed: nat, direct: bool)
    | PledgeCorrected(pledge: nat, before: nat, value: nat)
    | PledgeCancelled(pledge: nat, oldStatus: PledgeStatus)
    | PaymentCreated(payment: nat, pledge: nat, value: nat, status: PledgeStatus)
    | PaymentCorrected(payment: nat, before: nat, value: nat, status: PledgeStatus)

  /** `people[i]` is None once row i is deleted; the outbox holds the ids of payments to confirm. */
  datatype Db = Db(people: seq<Option<Person>>, pledges: seq<Pledge>, payments: seq<Payment>, audit: seq<Audit>,
                   outbox: seq<nat>)

  datatype View = View(id: nat, pledge: nat, value: nat, status: PledgeStatus, outstanding: nat, replay: bool)

  datatype Error = NotFound | Forbidden | Conflict | DuplicateSuspected | UniqueViolation

  datatype Result = Done(db: Db, view: View) | Refused(error: Error)

  const DUPLICATE_WINDOW_MS: nat := 600_000

  // ---- Derived values --------------------------------------------------------------------

  function DeriveStatus(committed: nat, total: nat, cancelled: bool): PledgeStatus {
    if cancelled then CANCELLED
    else if total <= 0 then PLEDGED
    else if total >= committed then FULFILLED
    else PARTIALLY_FULFILLED
  }

  function Outstanding(committed: int, total: int): nat { if committed - total > 0 then committed - total else 0 }

  ghost function ValueOn(pledge: nat): Payment -> int { (f: Payment) => if f.pledge == pledge then f.value else 0 }

  /** SUM(value) of a pledge's payments. */
  ghost function Paid(payments: seq<Payment>, pledge: nat): (total: nat) {
    SumNonNegative(payments, ValueOn(pledge));
    SumOf(payments, ValueOn(pledge))
  }

  predicate Live(db: Db, person: nat) { person < |db.people| && db.people[person].Some? }

  function FindKey(payments: seq<Payment>, key: string): (i: nat)
    ensures i <= |payments|
    ensures i < |payments| ==> payments[i].key == Some(key)
    ensures forall k :: 0 <= k < i ==> payments[k].key != Some(key)
  {
    if payments == [] then 0
    else if payments[0].key == Some(key) then 0
    else
      var i := FindKey(payments[1..], key);
      assert forall k :: 1 <= k < i + 1 ==> payments[k] == payments[1..][k - 1];
      i + 1
  }

  predicate KeyTaken(payments: seq<Payment>, key: string) { FindKey(payments, key) < |payments| }

  predicate LooksDuplicate(payments: seq<Payment>, pledge: nat, value: nat, now: nat) {
    exists i :: 0 <= i < |payments| && payments[i].pledge == pledge && payments[i].value == value
                && now <= payments[i].at + DUPLICATE_WINDOW_MS
  }

  /** The recorded payment as a caller sees it now. */
  ghost function PaymentView(db: Db, i: nat, replay: bool): View
    requires i < |db.payments| && db.payments[i].pledge < |db.pledges|
  {
    var f := db.payments[i];
    var pledge := db.pledges[f.pledge];
    View(i, f.pledge, f.value, pledge.status, Outstanding(pledge.committed, Paid(db.payments, f.pledge)), replay)
  }

  // ---- The calls ---------------------------------------------------------------------------

  datatype Call =
    | CreatePerson
    | CreatePledge(person: nat, committed: nat)
    | Pay(pledge: nat, value: nat, key: Option<string>, confirmed: bool, now: nat)
    | Direct(giver: Option<nat>, named: bool, value: nat, key: Option<string>, now: nat)
    | PledgeWithPayment(person: nat, committed: nat, received: nat, key: Option<string>, now: nat)
    | CorrectPayment(payment: nat, value: nat)
    | CorrectCommitted(pledge: nat, value: nat)
    | Cancel(pledge: nat)
    | Link(person: nat, user: string)
    | Merge(source: nat, target: nat)

  /** A result whose payload is not a payment. */
  function Plain(db: Db): Result { Done(db, View(0, 0, 0, PLEDGED, 0, false)) }

  /** The earlier payment a key replays, if any; an empty key is no key. */
  function Replayed(db: Db, key: Option<string>): Option<nat> {
    if key.Some? && key.value != "" && KeyTaken(db.payments, key.value) then Some(FindKey(db.payments, key.value))
       else None
  }

  function AddPerson(db: Db): Db {
    db.(people := db.people + [Some(Person(None))], audit := db.audit + [PersonCreated(|db.people|)])
  }

  function AddPledge(db: Db, person: nat, committed: nat, direct: bool): Db {
    db.(pledges := db.pledges + [Pledge(person, committed, PLEDGED)],
        audit := db.audit + [PledgeCreated(|db.pledges|, person, committed, direct)])
  }

  /** Payment row, recomputed status, audit row and outbox row together. */
  ghost function WritePayment(db: Db, pledge: nat, value: nat, key: Option<string>, now: nat): Result
    requires pledge < |db.pledges|
  {
    if key.Some? && KeyTaken(db.payments, key.value) then Refused(UniqueViolation) else
    var id := |db.payments|;
    var payments := db.payments + [Payment(pledge, value, key, now)];
    var status := DeriveStatus(db.pledges[pledge].committed, Paid(payments, pledge), false);
    var db' := db.(payments := payments, pledges := db.pledges[pledge := db.pledges[pledge].(status := status)],
                   audit := db.audit + [PaymentCreated(id, pledge, value, status)], outbox := db.outbox + [id]);
    Done(db', PaymentView(db', id, false))
  }

  ghost function ExecPay(db: Db, c: Call): Result
    requires c.Pay?
  {
    if Replayed(db, c.key).Some? then Replay(db, Replayed(db, c.key).value)
    else if c.pledge >= |db.pledges| then Refused(NotFound)
    else if db.pledges[c.pledge].status == CANCELLED then Refused(Forbidden)
    else if !c.confirmed && LooksDuplicate(db.payments, c.pledge, c.value, c.now) then Refused(DuplicateSuspected)
    else if Paid(db.payments, c.pledge) + c.value > db.pledges[c.pledge].committed then Refused(Forbidden)
    else WritePayment(db, c.pledge, c.value, c.key, c.now)
  }

  ghost function Replay(db: Db, i: nat): Result {
    if i < |db.payments| && db.payments[i].pledge < |db.pledges| then Done(db, PaymentView(db, i, true))
    else Refused(NotFound)
  }

  ghost function ExecDirect(db: Db, c: Call): Result
    requires c.Direct?
  {
    if Replayed(db, c.key).Some? then Replay(db, Replayed(db, c.key).value)
    else if c.giver.None? && !c.named then Refused(NotFound)
    else if c.giver.Some? && !Live(db, c.giver.value) then Refused(NotFound)
    else
      var db1 := if c.giver.None? then AddPerson(db) else db;
      var db2 := AddPledge(db1, if c.giver.None? then |db.people| else c.giver.value, c.value, true);
      WritePayment(db2, |db.pledges|, c.value, c.key, c.now)
  }

  ghost function ExecPledgeWithPayment(db: Db, c: Call): Result
    requires c.PledgeWithPayment?
  {
    if !Live(db, c.person) then Refused(NotFound)
    else if c.received > c.committed then Refused(Forbidden)
    else
      var db1 := AddPledge(db, c.person, c.committed, false);
      if c.received == 0 then Done(db1, View(|db.pledges|, |db.pledges|, 0, PLEDGED, c.committed, false))
      else WritePayment(db1, |db.pledges|, c.received, c.key, c.now)
  }

  ghost function ExecCorrectPayment(db: Db, id: nat, value: nat): Result {
    if id >= |db.payments| || db.payments[id].pledge >= |db.pledges| then Refused(NotFound) else
    var f := db.payments[id];
    var pledge := db.pledges[f.pledge];
    if Paid(db.payments, f.pledge) - f.value + value > pledge.committed then Refused(Forbidden) else
    var payments := db.payments[id := f.(value := value)];
    var status := DeriveStatus(pledge.committed, Paid(payments, f.pledge), pledge.status == CANCELLED);
    var db' := db.(payments := payments, pledges := db.pledges[f.pledge := pledge.(status := status)],
                   audit := db.audit + [PaymentCorrected(id, f.value, value, status)]);
    Done(db', PaymentView(db', id, false))
  }

  ghost function ExecCorrectCommitted(db: Db, id: nat, value: nat): Result {
    if id >= |db.pledges| then Refused(NotFound) else
    var pledge := db.pledges[id];
    var status := DeriveStatus(value, Paid(db.payments, id), pledge.status == CANCELLED);
    Plain(db.(pledges := db.pledges[id := pledge.(committed := value, status := status)],
              audit := db.audit + [PledgeCorrected(id, pledge.committed, value)]))
  }

  function ExecCancel(db: Db, id: nat): Result {
    if id >= |db.pledges| then Refused(NotFound)
    else Plain(db.(pledges := db.pledges[id := db.pledges[id].(status := CANCELLED)],
                   audit := db.audit + [PledgeCancelled(id, db.pledges[id].status)]))
  }

  predicate HeldBy(people: seq<Option<Person>>, person: nat, user: string) {
    person < |people| && people[person].Some? && people[person].value.user == Some(user)
  }

  function ExecLink(db: Db, person: nat, user: string): Result {
    if !Live(db, person) then Refused(NotFound) else
    var before := db.people[person].value.user;
    if before.Some? && before.value != user then Refused(Conflict)
    else if exists i :: 0 <= i < |db.people| && i != person && HeldBy(db.people, i, user) then Refused(Conflict)
    else if before == Some(user) then Plain(db)
    else Plain(db.(people := db.people[person := Some(Person(Some(user)))],
                   audit := db.audit + [PersonLinked(person, before, user)]))
  }

  // A merge is a list of single writes inside one transaction.

  datatype Write =
    | SetUser(person: nat, user: Option<string>)
    | MovePledges(source: nat, target: nat)
    | AppendAudit(entry: Audit)
    | DeletePerson(person: nat)

  function Moved(pledges: seq<Pledge>, source: nat, target: nat): seq<Pledge> {
    seq(|pledges|, i requires 0 <= i < |pledges| =>
      if pledges[i].person == source then pledges[i].(person := target) else pledges[i])
  }

  function CountOf(pledges: seq<Pledge>, person: nat): nat {
    if pledges == [] then 0
    else CountOf(pledges[..|pledges| - 1], person) + if pledges[|pledges| - 1].person == person then 1 else 0
  }

  function Apply(db: Db, w: Write): Db {
    match w
    case SetUser(p, user) => if Live(db, p) then db.(people := db.people[p := Some(Person(user))]) else db
    case MovePledges(s, t) => db.(pledges := Moved(db.pledges, s, t))
    case AppendAudit(entry) => db.(audit := db.audit + [entry])
    case DeletePerson(p) => if p < |db.people| then db.(people := db.people[p := None]) else db
  }

  function ApplyAll(db: Db, writes: seq<Write>): Db
    decreases |writes|
  {
    if writes == [] then db else Apply(ApplyAll(db, writes[..|writes| - 1]), writes[|writes| - 1])
  }

  /** The source's claim is freed before the target inherits it; the emptied source row goes last. */
  function MergeWrites(db: Db, source: nat, target: nat): seq<Write>
    requires Live(db, source) && Live(db, target)
  {
    var su, tu := db.people[source].value.user, db.people[target].value.user;
    (if su.Some? then [SetUser(source, None)] else [])
    + [MovePledges(source, target)]
    + (if tu.None? && su.Some? then [SetUser(target, su)] else [])
    + [AppendAudit(PeopleMerged(source, target, CountOf(db.pledges, source))), DeletePerson(source)]
  }

  function MergeError(db: Db, source: nat, target: nat): Option<Error> {
    if source == target then Some(Conflict)
    else if !Live(db, source) || !Live(db, target) then Some(NotFound)
    else
      var su, tu := db.people[source].value.user, db.people[target].value.user;
      if su.Some? && tu.Some? && su != tu then Some(Conflict) else None
  }

  function ExecMerge(db: Db, source: nat, target: nat): Result {
    var error := MergeError(db, source, target);
    if error.Some? then Refused(error.value) else Plain(ApplyAll(db, MergeWrites(db, source, target)))
  }

  ghost function Exec(db: Db, c: Call): Result {
    match c
    case CreatePerson => Plain(AddPerson(db))
    case CreatePledge(person, committed) =>
      if Live(db, person) then Plain(AddPledge(db, person, committed, false)) else Refused(NotFound)
    case Pay(_, _, _, _, _) => ExecPay(db, c)
    case Direct(_, _, _, _, _) => ExecDirect(db, c)
    case PledgeWithPayment(_, _, _, _, _) => ExecPledgeWithPayment(db, c)
    case CorrectPayment(id, value) => ExecCorrectPayment(db, id, value)
    case CorrectCommitted(id, value) => ExecCorrectCommitted(db, id, value)
    case Cancel(id) => ExecCancel(db, id)
    case Link(person, user) => ExecLink(db, person, user)
    case Merge(source, target) => ExecMerge(db, source, target)
  }

  /** A refused call changes nothing. */
  ghost function Step(db: Db, c: Call): Db { var r := Exec(db, c); if r.Done? then r.db else db }

  ghost function Run(db: Db, calls: seq<Call>): Db
    decreases |calls|
  {
    if calls == [] then db else Run(Step(db, calls[0]), calls[1..])
  }

  const Empty: Db := Db([], [], [], [], [])

  // ---- Invariants ------------------------------------------------------------------------------

  predicate WasCancelled(audit: seq<Audit>, pledge: nat) {
    exists i :: 0 <= i < |audit| && audit[i].PledgeCancelled? && audit[i].pledge == pledge
  }

  /** The stored status is the derived one, the cancelled flag being the audit trail's. */
  ghost predicate StatusOk(db: Db, i: nat)
    requires i < |db.pledges|
  {
    db.pledges[i].status == DeriveStatus(db.pledges[i].committed, Paid(db.payments, i), WasCancelled(db.audit, i))
  }

  predicate References(db: Db) {
    && (forall i :: 0 <= i < |db.payments| ==> db.payments[i].pledge < |db.pledges|)
    && (forall i :: 0 <= i < |db.pledges| ==> Live(db, db.pledges[i].person))
  }

  ghost predicate LinksUnique(people: seq<Option<Person>>) {
    forall i, j, user ::
      0 <= i < |people| && 0 <= j < |people| && HeldBy(people, i, user) && HeldBy(people, j, user) ==> i == j
  }

  ghost predicate Statuses(db: Db) {
    && (forall i :: 0 <= i < |db.pledges| ==> StatusOk(db, i))
    && (forall i :: |db.pledges| <= i ==> !WasCancelled(db.audit, i))
  }

  ghost predicate Inv(db: Db) { References(db) && LinksUnique(db.people) && Statuses(db) }

  lemma AuditAppend(audit: seq<Audit>, entry: Audit, pledge: nat)
    ensures WasCancelled(audit + [entry], pledge)
            <==> WasCancelled(audit, pledge) || (entry.PledgeCancelled? && entry.pledge == pledge)
  {
    var audit' := audit + [entry];
    if WasCancelled(audit, pledge) {
      var i :| 0 <= i < |audit| && audit[i].PledgeCancelled? && audit[i].pledge == pledge;
      assert audit'[i] == audit[i];
    }
    if entry.PledgeCancelled? && entry.pledge == pledge {
      assert audit'[|audit|] == entry;
    }
  }

  lemma UnpaidYet(db: Db, pledge: nat)
    requires References(db) && |db.pledges| <= pledge
    ensures Paid(db.payments, pledge) == 0
  {
    SumPointwise(db.payments, ValueOn(pledge), db.payments, _ => 0);
    SumBounds(db.payments, _ => 0, 0, 0);
  }

  /** A step that changes neither pledges nor payments, and audits no cancellation, keeps all statuses. */
  lemma FrameStatuses(db: Db, db': Db, entry: Audit)
    requires Statuses(db) && !entry.PledgeCancelled? && db'.audit == db.audit + [entry]
    requires db'.payments == db.payments && |db'.pledges| == |db.pledges|
    requires forall i :: 0 <= i < |db.pledges| ==>
               db'.pledges[i].committed == db.pledges[i].committed && db'.pledges[i].status == db.pledges[i].status
    ensures Statuses(db')
  {
    forall i: nat
      ensures WasCancelled(db'.audit, i) <==> WasCancelled(db.audit, i)
    {
      AuditAppend(db.audit, entry, i);
    }
    forall i | 0 <= i < |db'.pledges|
      ensures StatusOk(db', i)
    {
      assert StatusOk(db, i);
    }
  }

  lemma AddPledgeKeepsInv(db: Db, person: nat, committed: nat, direct: bool)
    requires Inv(db) && Live(db, person)
    ensures Inv(AddPledge(db, person, committed, direct))
  {
    var db' := AddPledge(db, person, committed, direct);
    UnpaidYet(db, |db.pledges|);
    forall i: nat
      ensures WasCancelled(db'.audit, i) <==> WasCancelled(db.audit, i)
    {
      AuditAppend(db.audit, db'.audit[|db.audit|], i);
    }
    forall i | 0 <= i < |db'.pledges|
      ensures StatusOk(db', i)
    {
      assert i < |db.pledges| ==> StatusOk(db, i);
    }
  }

  lemma AddPersonKeepsInv(db: Db)
    requires Inv(db)
    ensures Inv(AddPerson(db))
  {
    var db' := AddPerson(db);
    FrameStatuses(db, db', PersonCreated(|db.people|));
    forall i, j, user | 0 <= i < |db'.people| && 0 <= j < |db'.people|
                       && HeldBy(db'.people, i, user) && HeldBy(db'.people, j, user)
      ensures i == j
    {
      assert HeldBy(db.people, i, user) && HeldBy(db.people, j, user);
    }
  }

  lemma WritePaymentKeepsInv(db: Db, pledge: nat, value: nat, key: Option<string>, now: nat)
    requires Inv(db) && pledge < |db.pledges| && db.pledges[pledge].status != CANCELLED
    ensures var r := WritePayment(db, pledge, value, key, now);
            r.Done? ==> Inv(r.db) && Paid(r.db.payments, pledge) == Paid(db.payments, pledge) + value
  {
    var r := WritePayment(db, pledge, value, key, now);
    if r.Done? {
      var db' := r.db;
      forall i: nat
        ensures WasCancelled(db'.audit, i) <==> WasCancelled(db.audit, i)
      {
        AuditAppend(db.audit, db'.audit[|db.audit|], i);
      }
      forall i: nat
        ensures Paid(db'.payments, i) == Paid(db.payments, i) + if i == pledge then value else 0
      {
        SumAppend(db.payments, Payment(pledge, value, key, now), ValueOn(i));
      }
      forall i | 0 <= i < |db'.pledges|
        ensures StatusOk(db', i)
      {
        assert StatusOk(db, i);
      }
    }
  }

  lemma CorrectPaymentKeepsInv(db: Db, id: nat, value: nat)
    requires Inv(db)
    ensures var r := ExecCorrectPayment(db, id, value);
            r.Done? ==> Inv(r.db) && Paid(r.db.payments, db.payments[id].pledge)
                                     == Paid(db.payments, db.payments[id].pledge) - db.payments[id].value + value
  {
    var r := ExecCorrectPayment(db, id, value);
    if r.Done? {
      var db', f := r.db, db.payments[id];
      forall i: nat
        ensures WasCancelled(db'.audit, i) <==> WasCancelled(db.audit, i)
      {
        AuditAppend(db.audit, db'.audit[|db.audit|], i);
      }
      forall i: nat
        ensures Paid(db'.payments, i) == Paid(db.payments, i) + if i == f.pledge then value - f.value else 0
      {
        SumUpdate(db.payments, id, f.(value := value), ValueOn(i));
      }
      forall i | 0 <= i < |db'.pledges|
        ensures StatusOk(db', i)
      {
        assert StatusOk(db, i);
      }
    }
  }

  lemma SetPledgeKeepsInv(db: Db, id: nat, pledge: Pledge, entry: Audit)
    requires Inv(db) && id < |db.pledges| && pledge.person == db.pledges[id].person
    requires entry.PledgeCancelled? ==> entry.pledge == id
    requires pledge.status == DeriveStatus(pledge.committed, Paid(db.payments, id),
                                           db.pledges[id].status == CANCELLED || entry.PledgeCancelled?)
    ensures Inv(db.(pledges := db.pledges[id := pledge], audit := db.audit + [entry]))
  {
    var db' := db.(pledges := db.pledges[id := pledge], audit := db.audit + [entry]);
    forall i: nat
      ensures WasCancelled(db'.audit, i) <==> WasCancelled(db.audit, i) || (entry.PledgeCancelled? && i == id)
    {
      AuditAppend(db.audit, entry, i);
    }
    forall i | 0 <= i < |db'.pledges|
      ensures StatusOk(db', i)
    {
      assert StatusOk(db, i);
    }
  }

  lemma LinkKeepsInv(db: Db, person: nat, user: string)
    requires Inv(db)
    ensures var r := ExecLink(db, person, user); r.Done? ==> Inv(r.db)
  {
    var r := ExecLink(db, person, user);
    if r.Done? && r.db != db {
      var db' := r.db;
      FrameStatuses(db, db', db'.audit[|db.audit|]);
      forall i, j, u | 0 <= i < |db'.people| && 0 <= j < |db'.people|
                         && HeldBy(db'.people, i, u) && HeldBy(db'.people, j, u)
        ensures i == j
      {
        assert i != person ==> HeldBy(db.people, i, u);
        assert j != person ==> HeldBy(db.people, j, u);
      }
    }
  }

  // ---- Links and merges, write by write ------------------------------------------------------

  /** What holds at every intermediate write: one person per account, and every pledge's person exists. */
  ghost predicate Safe(db: Db) { LinksUnique(db.people) && References(db) }

  /** A write that cannot trip a constraint. */
  predicate SafeWrite(db: Db, w: Write) {
    match w
    case SetUser(p, user) =>
      user.Some? ==> forall i :: 0 <= i < |db.people| && i != p ==> !HeldBy(db.people, i, user.value)
    case MovePledges(_, target) => Live(db, target)
    case AppendAudit(_) => true
    case DeletePerson(p) => forall i :: 0 <= i < |db.pledges| ==> db.pledges[i].person != p
  }

  lemma SafeWriteKeepsSafe(db: Db, w: Write)
    requires Safe(db) && SafeWrite(db, w)
    ensures Safe(Apply(db, w))
  {
    var db' := Apply(db, w);
    forall i, j, u | 0 <= i < |db'.people| && 0 <= j < |db'.people|
                       && HeldBy(db'.people, i, u) && HeldBy(db'.people, j, u)
      ensures i == j
    {
      if w.SetUser? {
        assert i != w.person ==> HeldBy(db.people, i, u);
        assert j != w.person ==> HeldBy(db.people, j, u);
      } else {
        assert HeldBy(db.people, i, u) && HeldBy(db.people, j, u);
      }
    }
  }

  /** The database after the first k writes of a merge, spelt out. */
  lemma MergePrefix(db: Db, s: nat, t: nat, k: nat)
    requires Safe(db) && MergeError(db, s, t).None? && k <= |MergeWrites(db, s, t)|
    ensures var writes := MergeWrites(db, s, t);
            && Safe(ApplyAll(db, writes[..k]))
            && (k < |writes| ==> SafeWrite(ApplyAll(db, writes[..k]), writes[k]))
  {
    var writes := MergeWrites(db, s, t);
    MergeShape(db, s, t, k);
    if k > 0 {
      MergePrefix(db, s, t, k - 1);
      assert writes[..k][..k - 1] == writes[..k - 1];
      SafeWriteKeepsSafe(ApplyAll(db, writes[..k - 1]), writes[k - 1]);
    } else {
      assert writes[..0] == [];
    }
    if k < |writes| {
      MergeWriteIsSafe(db, s, t, k);
    }
  }

  /** The k-th write of a merge, counting whether the source is linked and whether the target inherits. */
  lemma MergeWriteAt(db: Db, s: nat, t: nat, k: nat)
    requires MergeError(db, s, t).None? && k < |MergeWrites(db, s, t)|
    ensures var su, tu := db.people[s].value.user, db.people[t].value.user;
            var m := if su.Some? then 1 else 0;
            var h := if su.Some? && tu.None? then 1 else 0;
            && |MergeWrites(db, s, t)| == m + h + 3
            && MergeWrites(db, s, t)[k] == if k < m then SetUser(s, None)
                                           else if k == m then MovePledges(s, t)
                                           else if k < m + h + 1 then SetUser(t, su)
                                           else if k == m + h + 1
                                              then AppendAudit(PeopleMerged(s, t, CountOf(db.pledges, s)))
                                           else DeletePerson(s)
  {
  }

  /** How far a merge has got after k writes. */
  ghost predicate MergeReached(db: Db, s: nat, t: nat, k: nat, d: Db)
    requires MergeError(db, s, t).None?
  {
    var su, tu := db.people[s].value.user, db.people[t].value.user;
    var m := if su.Some? then 1 else 0;
    var h := if su.Some? && tu.None? then 1 else 0;
    && d.payments == db.payments && d.outbox == db.outbox && |d.people| == |db.people|
    && d.pledges == (if k <= m then db.pledges else Moved(db.pledges, s, t))
    && d.audit == (if k <= m + h + 1 then db.audit else db.audit + [PeopleMerged(s, t, CountOf(db.pledges, s))])
    && d.people[s] == (if k == m + h + 3 then None else if k >= 1 && m == 1 then Some(Person(None)) else db.people[s])
    && d.people[t] == (if h == 1 && k >= m + 2 then Some(Person(su)) else db.people[t])
    && forall i :: 0 <= i < |db.people| && i != s && i != t ==> d.people[i] == db.people[i]
  }

  lemma {:induction false} MergeShape(db: Db, s: nat, t: nat, k: nat)
    requires MergeError(db, s, t).None? && k <= |MergeWrites(db, s, t)|
    ensures MergeReached(db, s, t, k, ApplyAll(db, MergeWrites(db, s, t)[..k]))
  {
    var writes := MergeWrites(db, s, t);
    if k > 0 {
      MergeShape(db, s, t, k - 1);
      MergeWriteAt(db, s, t, k - 1);
      assert writes[..k][..k - 1] == writes[..k - 1] && writes[..k][k - 1] == writes[k - 1];
    } else {
      assert writes[..0] == [];
    }
  }

  function MergedPeople(people: seq<Option<Person>>, s: nat, t: nat): seq<Option<Person>>
    requires s < |people| && t < |people| && people[s].Some? && people[t].Some?
  {
    var su, tu := people[s].value.user, people[t].value.user;
    (if tu.None? && su.Some? then people[t := Some(Person(su))] else people)[s := None]
  }

  lemma MergeResult(db: Db, s: nat, t: nat)
    requires MergeError(db, s, t).None?
    ensures ExecMerge(db, s, t).db
            == Db(MergedPeople(db.people, s, t), Moved(db.pledges, s, t), db.payments,
                  db.audit + [PeopleMerged(s, t, CountOf(db.pledges, s))], db.outbox)
  {
    var writes := MergeWrites(db, s, t);
    MergeShape(db, s, t, |writes|);
    assert writes[..|writes|] == writes;
    assert ApplyAll(db, writes).people == MergedPeople(db.people, s, t);
  }

  lemma MergeWriteIsSafe(db: Db, s: nat, t: nat, k: nat)
    requires Safe(db) && MergeError(db, s, t).None? && k < |MergeWrites(db, s, t)|
    ensures SafeWrite(ApplyAll(db, MergeWrites(db, s, t)[..k]), MergeWrites(db, s, t)[k])
  {
    MergeShape(db, s, t, k);
    var d, w := ApplyAll(db, MergeWrites(db, s, t)[..k]), MergeWrites(db, s, t)[k];
    if w.SetUser? && w.user.Some? {
      assert HeldBy(db.people, s, w.user.value);
      forall i | 0 <= i < |d.people| && i != w.person
        ensures !HeldBy(d.people, i, w.user.value)
      {
        assert i != s ==> !HeldBy(db.people, i, w.user.value);
      }
    }
  }

  ghost function CommittedBy(person: nat): Pledge -> int {
    (p: Pledge) => if p.person == person && p.status != CANCELLED then p.committed else 0
  }

  ghost function CommittedAll(): Pledge -> int { (p: Pledge) => if p.status != CANCELLED then p.committed else 0 }

  /** At every intermediate write of a merge no account is linked to two people, and every pledge's person
      exists. When it has finished, the target has exactly both people's pledges and the source none, every
      pledge keeps its money and status, payments and the outbox are untouched, the target inherits the
      source's account only if it had none, and nobody else changes. */
  lemma MergeIsSafe(db: Db, s: nat, t: nat)
    requires Safe(db) && MergeError(db, s, t).None?
    ensures forall k :: 0 <= k <= |MergeWrites(db, s, t)| ==> Safe(ApplyAll(db, MergeWrites(db, s, t)[..k]))
    ensures var d := ExecMerge(db, s, t).db;
            && |d.people| == |db.people| && |d.pledges| == |db.pledges| && d.payments == db.payments
            && d.outbox == db.outbox
            && (forall i :: 0 <= i < |d.pledges| ==>
                  && d.pledges[i].committed == db.pledges[i].committed && d.pledges[i].status == db.pledges[i].status
                  && (d.pledges[i].person == t <==> db.pledges[i].person == s || db.pledges[i].person == t)
                  && (db.pledges[i].person != s ==> d.pledges[i] == db.pledges[i]))
            && SumOf(d.pledges, CommittedAll()) == SumOf(db.pledges, CommittedAll())
            && d.people[s] == None
            && d.people[t] == Some(Person(if db.people[t].value.user.Some? then db.people[t].value.user
                                          else db.people[s].value.user))
            && (forall i :: 0 <= i < |db.people| && i != s && i != t ==> d.people[i] == db.people[i])
            && d.audit == db.audit + [PeopleMerged(s, t, CountOf(db.pledges, s))]
  {
    var writes := MergeWrites(db, s, t);
    forall k | 0 <= k <= |writes|
      ensures Safe(ApplyAll(db, writes[..k]))
    {
      MergePrefix(db, s, t, k);
    }
    MergeShape(db, s, t, |writes|);
    assert writes[..|writes|] == writes;
    SumPointwise(ExecMerge(db, s, t).db.pledges, CommittedAll(), db.pledges, CommittedAll());
  }

  // ---- Every run keeps the invariants -----------------------------------------------------

  lemma PaymentCallsKeepInv(db: Db, c: Call)
    requires Inv(db) && (c.Pay? || c.Direct? || c.PledgeWithPayment?)
    ensures Inv(Step(db, c))
  {
    match c
    case Pay(pledge, value, key, _, now) =>
      if pledge < |db.pledges| && db.pledges[pledge].status != CANCELLED {
        WritePaymentKeepsInv(db, pledge, value, key, now);
      }
    case Direct(person, _, value, key, now) =>
      if person.None? {
        AddPersonKeepsInv(db);
        AddPledgeKeepsInv(AddPerson(db), |db.people|, value, true);
        WritePaymentKeepsInv(AddPledge(AddPerson(db), |db.people|, value, true), |db.pledges|, value, key, now);
      } else if Live(db, person.value) {
        AddPledgeKeepsInv(db, person.value, value, true);
        WritePaymentKeepsInv(AddPledge(db, person.value, value, true), |db.pledges|, value, key, now);
      }
    case PledgeWithPayment(person, committed, received, key, now) =>
      if Live(db, person) {
        AddPledgeKeepsInv(db, person, committed, false);
        WritePaymentKeepsInv(AddPledge(db, person, committed, false), |db.pledges|, received, key, now);
      }
  }

  lemma StepKeepsInv(db: Db, c: Call)
    requires Inv(db)
    ensures Inv(Step(db, c))
  {
    match c
    case CreatePerson => AddPersonKeepsInv(db);
    case CreatePledge(person, committed) => if Live(db, person) { AddPledgeKeepsInv(db, person, committed, false); }
    case CorrectPayment(id, value) => CorrectPaymentKeepsInv(db, id, value);
    case CorrectCommitted(id, value) =>
      if id < |db.pledges| {
        var p := db.pledges[id];
        var status := DeriveStatus(value, Paid(db.payments, id), p.status == CANCELLED);
        SetPledgeKeepsInv(db, id, p.(committed := value, status := status),
                          PledgeCorrected(id, p.committed, value));
      }
    case Cancel(id) =>
      if id < |db.pledges| {
        SetPledgeKeepsInv(db, id, db.pledges[id].(status := CANCELLED), PledgeCancelled(id, db.pledges[id].status));
      }
    case Link(person, user) => LinkKeepsInv(db, person, user);
    case Merge(s, t) => MergeKeepsInv(db, s, t);
    case _ => PaymentCallsKeepInv(db, c);
  }

  lemma MergeKeepsInv(db: Db, s: nat, t: nat)
    requires Inv(db)
    ensures Inv(Step(db, Merge(s, t)))
  {
    if MergeError(db, s, t).None? {
      MergeIsSafe(db, s, t);
      var writes := MergeWrites(db, s, t);
      assert writes[..|writes|] == writes;
      FrameStatuses(db, ExecMerge(db, s, t).db, PeopleMerged(s, t, CountOf(db.pledges, s)));
    }
  }

  lemma {:induction false} RunKeepsInv(db: Db, calls: seq<Call>)
    requires Inv(db)
    ensures Inv(Run(db, calls))
    decreases |calls|
  {
    if calls != [] {
      StepKeepsInv(db, calls[0]);
      RunKeepsInv(Step(db, calls[0]), calls[1..]);
    }
  }

  /** The status a pledge of this commitment deserves: cancelled, or by how much of it was paid. */
  ghost predicate Deserves(status: PledgeStatus, committed: int, total: int, cancelled: bool) {
    && (status == CANCELLED <==> cancelled)
    && (status == PLEDGED <==> !cancelled && total == 0)
    && (status == FULFILLED <==> !cancelled && 0 < total && committed <= total)
    && (status == PARTIALLY_FULFILLED <==> !cancelled && 0 < total < committed)
  }

  /** In every reachable ledger each pledge's stored status is the one derived from its committed value, the sum
      of its payments and whether it was ever cancelled. */
  lemma StoredStatusIsDerived(calls: seq<Call>, i: nat)
    requires i < |Run(Empty, calls).pledges|
    ensures var db := Run(Empty, calls);
            db.pledges[i].status
               == DeriveStatus(db.pledges[i].committed, Paid(db.payments, i), WasCancelled(db.audit, i))
            && Deserves(db.pledges[i].status, db.pledges[i].committed, Paid(db.payments, i), WasCancelled(db.audit, i))
  {
    RunKeepsInv(Empty, calls);
    assert StatusOk(Run(Empty, calls), i);
  }

  lemma PaymentCallsKeepCancelled(db: Db, c: Call, i: nat)
    requires Inv(db) && i < |db.pledges| && db.pledges[i].status == CANCELLED
    requires c.Pay? || c.Direct? || c.PledgeWithPayment?
    ensures i < |Step(db, c).pledges| && Step(db, c).pledges[i].status == CANCELLED
  {
  }

  lemma StepKeepsCancelled(db: Db, c: Call, i: nat)
    requires Inv(db) && i < |db.pledges| && db.pledges[i].status == CANCELLED
    ensures i < |Step(db, c).pledges| && Step(db, c).pledges[i].status == CANCELLED
  {
    if c.Pay? || c.Direct? || c.PledgeWithPayment? {
      PaymentCallsKeepCancelled(db, c, i);
    } else if c.Merge? {
      if MergeError(db, c.source, c.target).None? {
        MergeResult(db, c.source, c.target);
      }
    }
  }

  /** CANCELLED is never left. */
  lemma {:induction false} CancelledIsFinal(db: Db, calls: seq<Call>, i: nat)
    requires Inv(db) && i < |db.pledges| && db.pledges[i].status == CANCELLED
    ensures i < |Run(db, calls).pledges| && Run(db, calls).pledges[i].status == CANCELLED
    decreases |calls|
  {
    if calls != [] {
      StepKeepsCancelled(db, calls[0], i);
      StepKeepsInv(db, calls[0]);
      CancelledIsFinal(Step(db, calls[0]), calls[1..], i);
    }
  }

  /** A direct contribution comes out FULFILLED if and only if its value is positive; a zero one is PLEDGED. */
  lemma DirectIsFulfilledIff(db: Db, c: Call)
    requires Inv(db) && c.Direct? && Replayed(db, c.key).None? && Exec(db, c).Done?
    ensures var v := Exec(db, c).view;
            v.status == (if c.value > 0 then FULFILLED else PLEDGED) && v.outstanding == 0 && v.value == c.value
  {
    var db1 := if c.giver.None? then AddPerson(db) else db;
    var db2 := AddPledge(db1, if c.giver.None? then |db.people| else c.giver.value, c.value, true);
    UnpaidYet(db, |db.pledges|);
    SumAppend(db2.payments, Payment(|db.pledges|, c.value, c.key, c.now), ValueOn(|db.pledges|));
  }

  // ---- Overpaid pledges ---------------------------------------------------------------------

  ghost predicate Overpaid(db: Db, i: nat) { i < |db.pledges| && Paid(db.payments, i) > db.pledges[i].committed }

  predicate Lowers(db: Db, c: Call, i: nat) {
    c.CorrectCommitted? && c.pledge == i && i < |db.pledges| && c.value < db.pledges[i].committed
  }

  lemma PaymentFits(db: Db, pledge: nat, value: nat, key: Option<string>, now: nat, i: nat)
    requires pledge < |db.pledges| && Paid(db.payments, pledge) + value <= db.pledges[pledge].committed
    ensures var r := WritePayment(db, pledge, value, key, now); r.Done? && !Overpaid(db, i) ==> !Overpaid(r.db, i)
  {
    SumAppend(db.payments, Payment(pledge, value, key, now), ValueOn(i));
  }

  lemma DirectNeverOverpays(db: Db, c: Call, i: nat)
    requires Inv(db) && !Overpaid(db, i) && c.Direct?
    ensures !Overpaid(Step(db, c), i)
  {
    UnpaidYet(db, |db.pledges|);
    var db1 := if c.giver.None? then AddPerson(db) else db;
    var db2 := AddPledge(db1, if c.giver.None? then |db.people| else c.giver.value, c.value, true);
    PaymentFits(db2, |db.pledges|, c.value, c.key, c.now, i);
  }

  lemma PaymentsNeverOverpay(db: Db, c: Call, i: nat)
    requires Inv(db) && !Overpaid(db, i) && (c.Pay? || c.Direct? || c.PledgeWithPayment?)
    ensures !Overpaid(Step(db, c), i)
  {
    match c
    case Pay(pledge, value, key, _, now) =>
      if ExecPay(db, c).Done? && Replayed(db, key).None? {
        PaymentFits(db, pledge, value, key, now, i);
      }
    case Direct(_, _, _, _, _) => DirectNeverOverpays(db, c, i);
    case PledgeWithPayment(person, committed, received, key, now) =>
      if received <= committed {
        UnpaidYet(db, |db.pledges|);
        PaymentFits(AddPledge(db, person, committed, false), |db.pledges|, received, key, now, i);
      }
  }

  /** Only lowering the committed value can make a pledge's payments exceed it. */
  lemma OnlyLoweringOverpays(db: Db, c: Call, i: nat)
    requires Inv(db) && !Overpaid(db, i) && Overpaid(Step(db, c), i)
    ensures Lowers(db, c, i)
  {
    if c.Pay? || c.Direct? || c.PledgeWithPayment? {
      PaymentsNeverOverpay(db, c, i);
    } else if c.CorrectPayment? && c.payment < |db.payments| {
      SumUpdate(db.payments, c.payment, db.payments[c.payment].(value := c.value), ValueOn(i));
    } else if c.CreatePledge? {
      UnpaidYet(db, |db.pledges|);
    } else if c.Merge? && MergeError(db, c.source, c.target).None? {
      MergeIsSafe(db, c.source, c.target);
    }
  }

  ghost predicate NeverLowered(db: Db, calls: seq<Call>, i: nat)
    decreases |calls|
  {
    calls != [] ==> !Lowers(db, calls[0], i) && NeverLowered(Step(db, calls[0]), calls[1..], i)
  }

  /** In every run in which a pledge's committed value is never lowered, its payments never exceed it. */
  lemma {:induction false} NeverOverpaidUnlessLowered(db: Db, calls: seq<Call>, i: nat)
    requires Inv(db) && !Overpaid(db, i) && NeverLowered(db, calls, i)
    ensures !Overpaid(Run(db, calls), i)
    decreases |calls|
  {
    if calls != [] {
      if Overpaid(Step(db, calls[0]), i) {
        OnlyLoweringOverpays(db, calls[0], i);
      }
      StepKeepsInv(db, calls[0]);
      NeverOverpaidUnlessLowered(Step(db, calls[0]), calls[1..], i);
    }
  }

  /** A correction of the committed value overpays the pledge exactly when it goes below what was paid; while a
      pledge is overpaid no payment of any value is accepted on it (a replay changes nothing), and any accepted
      payment correction brings it back within its committed value. */
  lemma OverpaidPledges(db: Db, i: nat, value: nat, c: Call)
    requires Inv(db) && i < |db.pledges|
    ensures Overpaid(Step(db, CorrectCommitted(i, value)), i) <==> value < Paid(db.payments, i)
    ensures Overpaid(db, i) && c.Pay? && c.pledge == i ==>
              Step(db, c) == db && (Replayed(db, c.key).None? ==> Exec(db, c).Refused?)
    ensures (c.CorrectPayment? && c.payment < |db.payments| && db.payments[c.payment].pledge == i
             && Exec(db, c).Done?) ==> !Overpaid(Step(db, c), i)
  {
    if c.CorrectPayment? {
      CorrectPaymentKeepsInv(db, c.payment, c.value);
    }
  }

  // ---- Retries -----------------------------------------------------------------------------------

  /** A retry-safe call under the key. */
  predicate Keyed(c: Call, key: string) { (c.Pay? || c.Direct?) && c.key == Some(key) }

  function Without(calls: seq<Call>, key: string): seq<Call>
    decreases |calls|
  {
    if calls == [] then []
    else if Keyed(calls[0], key) then Without(calls[1..], key)
    else [calls[0]] + Without(calls[1..], key)
  }

  lemma KeyedCallLeavesKey(db: Db, c: Call, key: string)
    requires Inv(db) && Keyed(c, key) && key != "" && Exec(db, c).Done?
    ensures KeyTaken(Step(db, c).payments, key) && Exec(db, c).view.id == FindKey(Step(db, c).payments, key)
  {
    var db' := Step(db, c);
    var i := FindKey(db'.payments, key);
    if Replayed(db, c.key).None? {
      assert db'.payments == db.payments + [db'.payments[|db.payments|]];
      assert db'.payments[|db.payments|].key == Some(key);
      assert FindKey(db.payments, key) == |db.payments|;
    }
  }

  /** Payments are only ever added; a correction keeps their keys. */
  lemma StepKeepsPaymentKeys(db: Db, c: Call)
    ensures |db.payments| <= |Step(db, c).payments|
    ensures forall k :: 0 <= k < |db.payments| ==> Step(db, c).payments[k].key == db.payments[k].key
  {
    if c.Merge? && MergeError(db, c.source, c.target).None? {
      MergeResult(db, c.source, c.target);
    }
  }

  lemma StepKeepsKey(db: Db, c: Call, key: string)
    requires KeyTaken(db.payments, key)
    ensures KeyTaken(Step(db, c).payments, key) && FindKey(Step(db, c).payments, key) == FindKey(db.payments, key)
  {
    StepKeepsPaymentKeys(db, c);
  }

  /** Retries of a recorded key, inserted anywhere in whatever follows, leave the final people, pledges,
      payments, audit trail and outbox as they would be without them. */
  lemma {:induction false} RetriesAreInvisible(db: Db, calls: seq<Call>, key: string)
    requires Inv(db) && key != "" && KeyTaken(db.payments, key)
    ensures Run(db, calls) == Run(db, Without(calls, key))
    decreases |calls|
  {
    if calls != [] {
      StepKeepsKey(db, calls[0], key);
      StepKeepsInv(db, calls[0]);
      RetriesAreInvisible(Step(db, calls[0]), calls[1..], key);
      if Keyed(calls[0], key) {
        assert Step(db, calls[0]) == db;
      } else {
        assert Without(calls, key)[1..] == Without(calls[1..], key);
      }
    }
  }

  lemma {:induction false} RunKeepsKey(db: Db, calls: seq<Call>, key: string)
    requires KeyTaken(db.payments, key)
    ensures KeyTaken(Run(db, calls).payments, key) && FindKey(Run(db, calls).payments, key) == FindKey(db.payments, key)
    decreases |calls|
  {
    if calls != [] {
      StepKeepsKey(db, calls[0], key);
      RunKeepsKey(Step(db, calls[0]), calls[1..], key);
    }
  }

  /** Once a keyed payment or direct contribution is recorded, any later call under that key, whatever its other
      arguments and whatever happened in between, returns the original payment's id with its current value. */
  lemma RetryReturnsOriginal(db: Db, first: Call, calls: seq<Call>, retry: Call, key: string)
    requires Inv(db) && key != "" && Keyed(first, key) && Keyed(retry, key) && Exec(db, first).Done?
    ensures var now := Run(Step(db, first), calls);
            var r := Exec(now, retry);
            && r.Done? && r.db == now && r.view.replay && r.view.id == Exec(db, first).view.id
            && r.view.id < |now.payments| && r.view.value == now.payments[r.view.id].value
  {
    KeyedCallLeavesKey(db, first, key);
    StepKeepsInv(db, first);
    RunKeepsKey(Step(db, first), calls, key);
    RunKeepsInv(Step(db, first), calls);
  }

  lemma PledgeWithPaymentLeavesKey(db: Db, c: Call)
    requires c.PledgeWithPayment? && Exec(db, c).Done? && c.received > 0 && c.key.Some?
    ensures KeyTaken(Step(db, c).payments, c.key.value)
  {
    var after := Step(db, c).payments;
    assert after[|db.payments|].key == c.key && FindKey(after, c.key.value) <= |db.payments|;
  }

  lemma KeyedRepeatIsRefused(db: Db, c: Call, calls: seq<Call>)
    requires c.PledgeWithPayment? && Exec(db, c).Done? && c.received > 0 && c.key.Some?
    ensures var now := Run(Step(db, c), calls);
            Exec(now, c) == Refused(if Live(now, c.person) then UniqueViolation else NotFound)
  {
    PledgeWithPaymentLeavesKey(db, c);
    RunKeepsKey(Step(db, c), calls, c.key.value);
  }

  lemma OtherRepeatIsDone(db: Db, c: Call)
    requires c.PledgeWithPayment? && Exec(db, c).Done? && !(c.received > 0 && c.key.Some?)
    ensures var once := Step(db, c);
            var twice := Step(once, c);
            && Exec(once, c).Done? && |twice.pledges| == |once.pledges| + 1
            && |twice.payments| == |once.payments| + if c.received > 0 then 1 else 0
  {
  }

  /** Whatever happens after the call, repeating it changes nothing. */
  ghost predicate RepeatsAreIdle(db: Db, c: Call) {
    forall calls :: Idle(Run(Step(db, c), calls), c)
  }

  ghost predicate Idle(db: Db, c: Call) { Step(db, c) == db }

  /** A recorded pledge-with-payment can be repeated at any later time without changing anything if and only if it
      carried a payment and a key. Such a repeat is refused (`KeyedRepeatIsRefused`) and does not return the original
      payment; any other one adds a second pledge, and a second payment with it if it carries one. */
  lemma PledgeWithPaymentRetryIff(db: Db, c: Call)
    requires c.PledgeWithPayment? && Exec(db, c).Done?
    ensures RepeatsAreIdle(db, c) <==> c.received > 0 && c.key.Some?
    ensures RepeatsAreIdle(db, c) ==> Exec(Step(db, c), c).Refused?
    ensures !RepeatsAreIdle(db, c) ==>
              var once := Step(db, c);
              var twice := Step(once, c);
              && Exec(once, c).Done? && |twice.pledges| == |once.pledges| + 1
              && |twice.payments| == |once.payments| + if c.received > 0 then 1 else 0
  {
    var none: seq<Call> := [];
    assert Run(Step(db, c), none) == Step(db, c);
    if c.received > 0 && c.key.Some? {
      forall calls
        ensures Idle(Run(Step(db, c), calls), c)
      {
        KeyedRepeatIsRefused(db, c, calls);
      }
      KeyedRepeatIsRefused(db, c, none);
    } else {
      OtherRepeatIsDone(db, c);
      assert !Idle(Run(Step(db, c), none), c);
    }
  }
}
