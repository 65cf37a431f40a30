/** Payment webhooks and admin reconciliation of one invoice. The status is read outside the granting
    transaction, so any number of deliveries can be between their read and their write. */
module PaymentWebhook {
  import opened Prelude
  import opened CreditLedger

  datatype InvoiceStatus = PENDING | PAID | FAILED

  datatype Plan = Plan(id: Id, sms: nat, ai: nat)

  datatype Invoice = Invoice(id: Id, account: Id, event: Option<Id>, plan: Option<Plan>)

  /** A delivery in flight: a failure about to be written, a reconciliation about to re-read the status, or
      a success about to open its granting transaction. */
  datatype Phase = FailWrite | Reread | GrantTx

  datatype State = State(status: InvoiceStatus, sms: seq<Row>, ai: seq<Row>, accountGrants: seq<Id>,
                         eventGrants: map<Id, Id>, inFlight: seq<Phase>, completed: nat)

  datatype Step =
    | Webhook(succeeded: bool)
    | Reconcile
    | Advance(i: nat)
    | Crash(i: nat)
    | OtherSms(row: Row)
    | OtherAi(row: Row)

  predicate HasCredits(inv: Invoice) { inv.plan.Some? && (inv.plan.value.sms > 0 || inv.plan.value.ai > 0) }

  function Drop(s: State, i: nat): State
    requires i < |s.inFlight|
  {
    s.(inFlight := s.inFlight[..i] + s.inFlight[i + 1..])
  }

  /** Credit rows of the invoice carry its event, or its account when it has no event. */
  function CreditRow(inv: Invoice, amount: nat, key: Key): Row {
    Row(inv.event, if inv.event.Some? then None else Some(inv.account), Grant, amount, key, Some(Other(inv.id)))
  }

  /** The transaction hits a unique key it wrote before and rolls back. */
  predicate Conflict(inv: Invoice, s: State) {
    inv.plan.Some? && ((inv.plan.value.sms > 0 && HasKey(s.sms, InvoiceSms(inv.id)))
                       || (inv.plan.value.ai > 0 && HasKey(s.ai, InvoiceAi(inv.id))))
  }

  /** The granting transaction. */
  function Granted(inv: Invoice, s: State): State {
    if Conflict(inv, s) then s
    else if inv.plan.None? then s.(status := PAID, completed := s.completed + 1)
    else
      var plan := inv.plan.value;
      s.(status := PAID, completed := s.completed + 1,
         accountGrants := if inv.event.None? then s.accountGrants + [plan.id] else s.accountGrants,
         eventGrants := if inv.event.Some? then s.eventGrants[inv.event.value := plan.id] else s.eventGrants,
         sms := if plan.sms > 0 then s.sms + [CreditRow(inv, plan.sms, InvoiceSms(inv.id))] else s.sms,
         ai := if plan.ai > 0 then s.ai + [CreditRow(inv, plan.ai, InvoiceAi(inv.id))] else s.ai)
  }

  function Enter(s: State, phase: Phase): State {
    if s.status == PAID then s else s.(inFlight := s.inFlight + [phase])
  }

  function Next(inv: Invoice, s: State, step: Step): State {
    match step
    case Webhook(succeeded) => Enter(s, if succeeded then GrantTx else FailWrite)
    case Reconcile => Enter(s, Reread)
    case Advance(i) =>
      if i >= |s.inFlight| then s else
      (match s.inFlight[i]
       case FailWrite => Drop(s, i).(status := FAILED)
       case Reread => Enter(Drop(s, i), GrantTx)
       case GrantTx => Granted(inv, Drop(s, i)))
    case Crash(i) => if i >= |s.inFlight| then s else Drop(s, i)
    case OtherSms(row) => if row.key == InvoiceSms(inv.id) || HasKey(s.sms, row.key) then s
       else s.(sms := s.sms + [row])
    case OtherAi(row) => if row.key == InvoiceAi(inv.id) || HasKey(s.ai, row.key) then s else s.(ai := s.ai + [row])
  }

  function Run(inv: Invoice, s: State, steps: seq<Step>): State
    decreases |steps|
  {
    if steps == [] then s else Run(inv, Next(inv, s, steps[0]), steps[1..])
  }

  predicate Fresh(inv: Invoice, s: State) {
    && s.status == PENDING && s.inFlight == [] && s.completed == 0 && s.accountGrants == []
    && !HasKey(s.sms, InvoiceSms(inv.id)) && !HasKey(s.ai, InvoiceAi(inv.id))
  }

  // ---- Who gets the credits ------------------------------------------------------------

  /** The pool is the one the invoice was bought for: its event's, or its account's when it has no event. */
  predicate BoughtFor(inv: Invoice, pool: Scope) {
    if inv.event.Some? then pool.event == inv.event else pool.account == Some(inv.account)
  }

  ghost predicate PoolMoved(inv: Invoice, s: State, s': State, pool: Scope) {
    var bought := inv.plan.Some? && BoughtFor(inv, pool);
    && Balance(s'.sms, pool) == Balance(s.sms, pool) + (if bought then inv.plan.value.sms else 0)
    && Balance(s'.ai, pool) == Balance(s.ai, pool) + (if bought then inv.plan.value.ai else 0)
  }

  /** Every pool bought for has gained the plan's credits, and no other pool any. */
  ghost predicate CreditsMoved(inv: Invoice, s: State, s': State) { forall pool :: PoolMoved(inv, s, s', pool) }

  lemma CreditRowCounts(inv: Invoice, amount: nat, key: Key, rows: seq<Row>, pool: Scope)
    ensures Balance(rows + [CreditRow(inv, amount, key)], pool)
            == Balance(rows, pool) + if BoughtFor(inv, pool) then amount else 0
  {
    SumAppend(rows, CreditRow(inv, amount, key), Counted(pool));
  }

  lemma GrantMovesPool(inv: Invoice, s: State, pool: Scope)
    requires !Conflict(inv, s)
    ensures PoolMoved(inv, s, Granted(inv, s), pool)
  {
    if inv.plan.Some? {
      CreditRowCounts(inv, inv.plan.value.sms, InvoiceSms(inv.id), s.sms, pool);
      CreditRowCounts(inv, inv.plan.value.ai, InvoiceAi(inv.id), s.ai, pool);
    }
  }

  /** A grant that goes through gives the credits to whom the invoice was bought for. */
  lemma GrantMovesPools(inv: Invoice, s: State)
    requires !Conflict(inv, s)
    ensures CreditsMoved(inv, s, Granted(inv, s))
  {
    forall pool
      ensures PoolMoved(inv, s, Granted(inv, s), pool)
    {
      GrantMovesPool(inv, s, pool);
    }
  }

  // ---- Exactly-once granting -----------------------------------------------------------

  ghost function UnderKey(key: Key): Row -> int { (row: Row) => if row.key == key then row.amount else 0 }

  /** Credits the ledger holds under one key. */
  ghost function CreditsUnder(rows: seq<Row>, key: Key): int { SumOf(rows, UnderKey(key)) }

  lemma {:induction false} NoKeyNoCredits(rows: seq<Row>, key: Key)
    requires !HasKey(rows, key)
    ensures CreditsUnder(rows, key) == 0
  {
    if rows != [] {
      NoKeyNoCredits(rows[..|rows| - 1], key);
    }
  }

  predicate EventHas(s: State, event: Id, plan: Plan) { event in s.eventGrants && s.eventGrants[event] == plan.id }

  /** What has been granted so far, for a plan that carries credits: nothing, or everything once. */
  ghost predicate Once(inv: Invoice, s: State)
    requires HasCredits(inv)
  {
    var plan := inv.plan.value;
    && s.completed <= 1
    && CreditsUnder(s.sms, InvoiceSms(inv.id)) == (if s.completed == 1 then plan.sms else 0)
    && CreditsUnder(s.ai, InvoiceAi(inv.id)) == (if s.completed == 1 then plan.ai else 0)
    && |s.accountGrants| == (if inv.event.None? then s.completed else 0)
    && (s.completed == 1 && inv.event.Some? ==> EventHas(s, inv.event.value, plan))
    && (HasKey(s.sms, InvoiceSms(inv.id)) <==> s.completed == 1 && plan.sms > 0)
    && (HasKey(s.ai, InvoiceAi(inv.id)) <==> s.completed == 1 && plan.ai > 0)
    && (s.status == PAID ==> s.completed == 1)
  }

  lemma PutRow(rows: seq<Row>, row: Row, key: Key)
    ensures CreditsUnder(rows + [row], key) == CreditsUnder(rows, key) + if row.key == key then row.amount else 0
    ensures HasKey(rows + [row], key) <==> HasKey(rows, key) || row.key == key
  {
    SumAppend(rows, row, UnderKey(key));
    KeysAppend(rows, row);
  }

  /** A succeeded delivery finishes when it reads PAID or when its transaction ends, however it ends. */
  ghost predicate Finishes(s: State, step: Step) {
    (step == Webhook(true) && s.status == PAID) ||
    (step.Advance? && step.i < |s.inFlight| && s.inFlight[step.i] == GrantTx)
  }

  lemma GrantKeepsOnce(inv: Invoice, s: State)
    requires HasCredits(inv) && Once(inv, s)
    ensures Once(inv, Granted(inv, s)) && Granted(inv, s).completed == 1
  {
    var plan := inv.plan.value;
    PutRow(s.sms, CreditRow(inv, plan.sms, InvoiceSms(inv.id)), InvoiceSms(inv.id));
    PutRow(s.ai, CreditRow(inv, plan.ai, InvoiceAi(inv.id)), InvoiceAi(inv.id));
  }

  lemma OtherRowKeepsOnce(inv: Invoice, s: State, step: Step)
    requires HasCredits(inv) && Once(inv, s) && (step.OtherSms? || step.OtherAi?)
    ensures Once(inv, Next(inv, s, step)) && s.completed == Next(inv, s, step).completed
  {
    PutRow(s.sms, step.row, InvoiceSms(inv.id));
    PutRow(s.ai, step.row, InvoiceAi(inv.id));
  }

  /** What is in flight has granted nothing. */
  lemma FlightKeepsOnce(inv: Invoice, s: State, flight: seq<Phase>, status: InvoiceStatus)
    requires HasCredits(inv) && Once(inv, s) && (status == PAID ==> s.status == PAID)
    ensures Once(inv, s.(inFlight := flight, status := status))
  {
  }

  lemma AdvanceKeepsOnce(inv: Invoice, s: State, i: nat)
    requires HasCredits(inv) && Once(inv, s) && i < |s.inFlight|
    ensures var s' := Next(inv, s, Advance(i));
            Once(inv, s') && s'.completed == if s.inFlight[i] == GrantTx then 1 else s.completed
  {
    var dropped := Drop(s, i);
    FlightKeepsOnce(inv, s, dropped.inFlight, s.status);
    match s.inFlight[i]
    case FailWrite => FlightKeepsOnce(inv, s, dropped.inFlight, FAILED);
    case Reread => FlightKeepsOnce(inv, s, Enter(dropped, GrantTx).inFlight, s.status);
    case GrantTx => GrantKeepsOnce(inv, dropped);
  }

  lemma NextKeepsOnce(inv: Invoice, s: State, step: Step)
    requires HasCredits(inv) && Once(inv, s)
    ensures Once(inv, Next(inv, s, step)) && s.completed <= Next(inv, s, step).completed
    ensures Finishes(s, step) ==> Next(inv, s, step).completed == 1
  {
    if step.Advance? && step.i < |s.inFlight| {
      AdvanceKeepsOnce(inv, s, step.i);
    } else if step.OtherSms? || step.OtherAi? {
      OtherRowKeepsOnce(inv, s, step);
    }
  }

  lemma {:induction false} RunKeepsOnce(inv: Invoice, s: State, steps: seq<Step>)
    requires HasCredits(inv) && Once(inv, s)
    ensures Once(inv, Run(inv, s, steps)) && s.completed <= Run(inv, s, steps).completed
    decreases |steps|
  {
    if steps != [] {
      NextKeepsOnce(inv, s, steps[0]);
      RunKeepsOnce(inv, Next(inv, s, steps[0]), steps[1..]);
    }
  }

  /** In every interleaving, for a plan that carries credits: the credits and the account or event grant are
      written at most once, together, and a PAID invoice has them. */
  lemma GrantedAtMostOnce(inv: Invoice, s: State, steps: seq<Step>)
    requires HasCredits(inv) && Fresh(inv, s)
    ensures Once(inv, Run(inv, s, steps))
  {
    NoKeyNoCredits(s.sms, InvoiceSms(inv.id));
    NoKeyNoCredits(s.ai, InvoiceAi(inv.id));
    RunKeepsOnce(inv, s, steps);
  }

  /** Rows under the invoice's keys carry its event, or its account when it has no event, and the plan's credits. */
  ghost predicate RowsForBuyer(inv: Invoice, rows: seq<Row>, key: Key, credits: int) {
    forall r :: 0 <= r < |rows| && rows[r].key == key ==>
      && rows[r].event == inv.event && rows[r].kind == Grant && rows[r].amount == credits
      && rows[r].account == (if inv.event.None? then Some(inv.account) else None)
  }

  ghost predicate ForBuyer(inv: Invoice, s: State) {
    inv.plan.Some? ==>
      && RowsForBuyer(inv, s.sms, InvoiceSms(inv.id), inv.plan.value.sms)
      && RowsForBuyer(inv, s.ai, InvoiceAi(inv.id), inv.plan.value.ai)
  }

  lemma NoKeyNoRows(inv: Invoice, rows: seq<Row>, key: Key, credits: int)
    requires !HasKey(rows, key)
    ensures RowsForBuyer(inv, rows, key, credits)
  {
    KeysAre(rows, key);
  }

  lemma {:induction false} RunKeepsForBuyer(inv: Invoice, s: State, steps: seq<Step>)
    requires ForBuyer(inv, s)
    ensures ForBuyer(inv, Run(inv, s, steps))
    decreases |steps|
  {
    if steps != [] {
      RunKeepsForBuyer(inv, Next(inv, s, steps[0]), steps[1..]);
    }
  }

  /** As soon as one succeeded webhook or reconciliation has finished, the plan's credits and its account or event
      grant are there exactly once, and stay so whatever follows for this invoice. */
  lemma GrantedOnceFinished(inv: Invoice, s: State, before: seq<Step>, last: Step, after: seq<Step>)
    requires HasCredits(inv) && Fresh(inv, s) && Finishes(Run(inv, s, before), last)
    ensures var end := Run(inv, Next(inv, Run(inv, s, before), last), after);
            && CreditsUnder(end.sms, InvoiceSms(inv.id)) == inv.plan.value.sms
            && CreditsUnder(end.ai, InvoiceAi(inv.id)) == inv.plan.value.ai
            && |end.accountGrants| == (if inv.event.None? then 1 else 0)
            && (inv.event.Some? ==> EventHas(end, inv.event.value, inv.plan.value))
            && RowsForBuyer(inv, end.sms, InvoiceSms(inv.id), inv.plan.value.sms)
            && RowsForBuyer(inv, end.ai, InvoiceAi(inv.id), inv.plan.value.ai)
  {
    var m := Run(inv, s, before);
    NoKeyNoRows(inv, s.sms, InvoiceSms(inv.id), inv.plan.value.sms);
    NoKeyNoRows(inv, s.ai, InvoiceAi(inv.id), inv.plan.value.ai);
    RunKeepsForBuyer(inv, s, before);
    RunKeepsForBuyer(inv, m, [last]);
    assert [last][1..] == [] && Run(inv, m, [last]) == Next(inv, m, last);
    RunKeepsForBuyer(inv, Next(inv, m, last), after);
    GrantedAtMostOnce(inv, s, before);
    NextKeepsOnce(inv, m, last);
    RunKeepsOnce(inv, Next(inv, m, last), after);
  }

  /** Why every plan must carry credits: an account invoice is never granted twice, in any run, if and only if
      its plan carries some. */
  lemma OnceIffCredits(inv: Invoice, s: State)
    requires Fresh(inv, s) && inv.event.None? && inv.plan.Some?
    ensures (forall steps :: |Run(inv, s, steps).accountGrants| <= 1) <==> HasCredits(inv)
  {
    if HasCredits(inv) {
      forall steps {
        GrantedAtMostOnce(inv, s, steps);
      }
    } else {
      var twice := [Webhook(true), Webhook(true), Advance(0), Advance(0)];
      var s2 := Next(inv, Next(inv, s, Webhook(true)), Webhook(true));
      assert s2.inFlight == [GrantTx, GrantTx];
      var s3 := Next(inv, s2, Advance(0));
      assert s3.inFlight == [GrantTx];
      var s4 := Next(inv, s3, Advance(0));
      assert twice[1..][1..][1..][1..] == [];
      assert s4 == Run(inv, s3, twice[1..][1..][1..]) == Run(inv, s2, twice[1..][1..]);
      assert s4 == Run(inv, Next(inv, s, Webhook(true)), twice[1..]);
      assert |Run(inv, s, twice).accountGrants| == 2;
    }
  }

  // ---- When PAID is final ------------------------------------------------------------------

  ghost predicate FailureInFlight(s: State) { FailWrite in s.inFlight }

  lemma {:induction false} PaidStays(inv: Invoice, s: State, steps: seq<Step>)
    requires s.status == PAID && !FailureInFlight(s)
    ensures Run(inv, s, steps).status == PAID
    decreases |steps|
  {
    if steps != [] {
      PaidStays(inv, Next(inv, s, steps[0]), steps[1..]);
    }
  }

  ghost predicate PaidAfter(inv: Invoice, s: State, steps: seq<Step>) { Run(inv, s, steps).status == PAID }

  lemma FailureLands(inv: Invoice, s: State, i: nat)
    requires i < |s.inFlight| && s.inFlight[i] == FailWrite
    ensures !PaidAfter(inv, s, [Advance(i)])
  {
    assert [Advance(i)][1..] == [];
    assert Run(inv, s, [Advance(i)]) == Next(inv, s, Advance(i));
  }

  /** A PAID invoice stays PAID through every continuation if and only if no failed webhook is between its
      status read and its write; with no delivery in flight, as in serial runs, PAID is final. */
  lemma PaidIsFinalIff(inv: Invoice, s: State)
    requires s.status == PAID
    ensures (forall steps :: PaidAfter(inv, s, steps)) <==> !FailureInFlight(s)
  {
    if FailureInFlight(s) {
      var i :| 0 <= i < |s.inFlight| && s.inFlight[i] == FailWrite;
      FailureLands(inv, s, i);
    } else {
      forall steps
        ensures PaidAfter(inv, s, steps)
      {
        PaidStays(inv, s, steps);
      }
    }
  }

  /** An invoice overwritten with FAILED after its credits were granted can never be PAID again: every later
      success, and every reconciliation, rolls back on the ledger's unique key. */
  lemma {:induction false} FailedAfterGrantIsStuck(inv: Invoice, s: State, steps: seq<Step>)
    requires HasCredits(inv) && Once(inv, s) && s.completed == 1 && s.status == FAILED
    ensures Run(inv, s, steps).status == FAILED
    decreases |steps|
  {
    if steps != [] {
      NextKeepsOnce(inv, s, steps[0]);
      FailedAfterGrantIsStuck(inv, Next(inv, s, steps[0]), steps[1..]);
    }
  }

  /** Such a run: a failed webhook reads PENDING, a succeeded one is granted, then the failure is written. */
  lemma FailureOverwritesPayment(inv: Invoice, s: State)
    requires HasCredits(inv) && Fresh(inv, s)
    ensures var end := Run(inv, s, [Webhook(false), Webhook(true), Advance(1), Advance(0)]);
            end.status == FAILED && end.completed == 1
  {
    var steps := [Webhook(false), Webhook(true), Advance(1), Advance(0)];
    var s2 := Next(inv, Next(inv, s, steps[0]), steps[1]);
    assert s2.inFlight == [FailWrite, GrantTx];
    var s3 := Next(inv, s2, steps[2]);
    assert s3.inFlight == [FailWrite];
    assert steps[1..][1..][1..][1..] == [];
    assert Next(inv, s3, steps[3]) == Run(inv, s3, steps[1..][1..][1..]) == Run(inv, s2, steps[1..][1..]);
    assert Run(inv, s2, steps[1..][1..]) == Run(inv, Next(inv, s, steps[0]), steps[1..]);
  }

  // ---- The catalog ----------------------------------------------------------------------------

  const PLAN_CATALOG: map<string, Plan> := map[
    "FREE" := Plan("FREE", 10, 15), "STARTER" := Plan("STARTER", 100, 500),
    "STANDARD" := Plan("STANDARD", 300, 1500), "PREMIUM" := Plan("PREMIUM", 600, 5000),
    "ORGANIZER_PRO" := Plan("ORGANIZER_PRO", 300, 3000), "BUSINESS" := Plan("BUSINESS", 1000, 10000),
    "SMS_TOP_UP_100" := Plan("SMS_TOP_UP_100", 100, 0), "SMS_TOP_UP_300" := Plan("SMS_TOP_UP_300", 300, 0)]

  /** Every plan of the catalog is granted at most once per invoice. */
  lemma CatalogInvoicesGrantedOnce(inv: Invoice, s: State, steps: seq<Step>, code: string)
    requires Fresh(inv, s) && code in PLAN_CATALOG && inv.plan == Some(PLAN_CATALOG[code])
    ensures HasCredits(inv) && Once(inv, Run(inv, s, steps))
  {
    GrantedAtMostOnce(inv, s, steps);
  }

  // ---- One delivery run alone ------------------------------------------------------------

  ghost predicate HasRow(rows: seq<Row>, key: Key) { exists i :: 0 <= i < |rows| && rows[i].key == key }

  /** The plan carries credits that are on the ledger already. */
  ghost predicate Credited(inv: Invoice, sms: seq<Row>, ai: seq<Row>) {
    inv.plan.Some? && ((inv.plan.value.sms != 0 && HasRow(sms, InvoiceSms(inv.id)))
                       || (inv.plan.value.ai != 0 && HasRow(ai, InvoiceAi(inv.id))))
  }

  lemma ConflictIff(inv: Invoice, s: State)
    ensures Conflict(inv, s) <==> Credited(inv, s.sms, s.ai)
  {
    KeysAre(s.sms, InvoiceSms(inv.id));
    KeysAre(s.ai, InvoiceAi(inv.id));
  }

  datatype Outcome = Applied | NotApplied | Rejected | Thrown

  class InvoiceBilling {
    const inv: Invoice
    var status: InvoiceStatus
    var sms: seq<Row>
    var ai: seq<Row>
    var accountGrants: seq<Id>
    var eventGrants: map<Id, Id>
    ghost var completed: nat

    constructor (inv: Invoice, sms: seq<Row>, ai: seq<Row>)
      ensures this.inv == inv && View() == State(PENDING, sms, ai, [], map[], [], 0)
    {
      this.inv, status, this.sms, this.ai := inv, PENDING, sms, ai;
      accountGrants, eventGrants, completed := [], map[], 0;
    }

    ghost function View(): State
      reads this
    {
      State(status, sms, ai, accountGrants, eventGrants, [], completed)
    }

    /** A webhook whose steps nothing interrupts behaves as its two steps of the protocol. */
    method ApplyPaymentWebhook(succeeded: bool) returns (outcome: Outcome)
      modifies this
      ensures View() == Run(inv, old(View()), [Webhook(succeeded), Advance(0)])
      ensures outcome == if old(status) == PAID || !succeeded then NotApplied
                         else if Credited(inv, old(sms), old(ai)) then Thrown else Applied
      ensures outcome == Applied ==> status == PAID && completed == old(completed) + 1
      ensures outcome == NotApplied ==> status == if old(status) == PAID then PAID else FAILED
      ensures accountGrants == old(accountGrants)
                + if outcome == Applied && inv.plan.Some? && inv.event.None? then [inv.plan.value.id] else []
      ensures eventGrants == if outcome == Applied && inv.plan.Some? && inv.event.Some?
                             then old(eventGrants)[inv.event.value := inv.plan.value.id] else old(eventGrants)
      ensures old(status) == PAID || outcome == Thrown ==> View() == old(View())
      ensures outcome == Applied ==> CreditsMoved(inv, old(View()), View())
      ensures outcome != Applied ==> sms == old(sms) && ai == old(ai)
    {
      ghost var s, steps := View(), [Webhook(succeeded), Advance(0)];
      assert steps[1..] == [Advance(0)] && [Advance(0)][1..] == [];
      assert Run(inv, s, steps) == Next(inv, Next(inv, s, Webhook(succeeded)), Advance(0));
      ConflictIff(inv, s);
      if status == PAID {
        return NotApplied;
      }
      if !succeeded {
        status := FAILED;
        return NotApplied;
      }
      if inv.plan.None? {
        status, completed := PAID, completed + 1;
        GrantMovesPools(inv, s);
        return Applied;
      }
      var plan := inv.plan.value;
      if (plan.sms > 0 && HasKey(sms, InvoiceSms(inv.id))) || (plan.ai > 0 && HasKey(ai, InvoiceAi(inv.id))) {
        return Thrown;
      }
      status, completed := PAID, completed + 1;
      if inv.event.Some? {
        eventGrants := eventGrants[inv.event.value := plan.id];
      } else {
        accountGrants := accountGrants + [plan.id];
      }
      if plan.sms > 0 {
        sms := sms + [CreditRow(inv, plan.sms, InvoiceSms(inv.id))];
      }
      if plan.ai > 0 {
        ai := ai + [CreditRow(inv, plan.ai, InvoiceAi(inv.id))];
      }
      GrantMovesPools(inv, s);
      return Applied;
    }

    /** Reconciliation refuses a PAID invoice and otherwise is a succeeded webhook. */
    method ReconcileInvoice() returns (outcome: Outcome)
      modifies this
      ensures old(status) == PAID ==> outcome == Rejected && View() == old(View())
      ensures old(status) != PAID ==> View() == Run(inv, old(View()), [Webhook(true), Advance(0)])
      ensures old(status) != PAID ==> outcome == if Credited(inv, old(sms), old(ai)) then Thrown else Applied
      ensures outcome == Applied ==> CreditsMoved(inv, old(View()), View())
    {
      if status == PAID {
        return Rejected;
      }
      outcome := ApplyPaymentWebhook(true);
    }
  }
}
