/** What an SMS campaign costs, read off the ledger: credits spent for it against the messages it has, credits lost to
    aborted dispatches, and messages sent for nothing. */
module SmsAccounts {
  import opened Prelude
  import opened CreditLedger
  import opened SmsCampaigns

  /** Ids drawn for the campaign whose reserve key is charged, whether or not a message row exists. */
  ghost function Spent(s: State, c: Id): set<Id> {
    set id | id in s.issued && s.issued[id] == c && Charge(s.rows, id) == 1
  }

  /** Messages of the campaign that are sent or may still be: SENT plus QUEUED. */
  function Live(s: State, c: Id): set<Id> {
    set id | id in s.messages && s.messages[id].campaign == c && s.messages[id].status != Failed
  }

  /** Live messages whose credit was already given back. */
  function FreeRides(s: State, c: Id): set<Id> { set id | id in Live(s, c) && Refunded(s.rows, id) }

  /** Credits debited by dispatches of the campaign that are still running. */
  ghost function InFlight(s: State, c: Id): set<Id> {
    set id | id in s.issued && s.issued[id] == c && Held(s.dispatches, id)
  }

  /** Credits debited by dispatches of the campaign that aborted. */
  function Orphans(s: State, c: Id): set<Id> { set id | id in s.leaked && id in s.issued && s.issued[id] == c }

  predicate NoWorkerOn(s: State, c: Id) { forall w :: w in s.workers ==> s.workers[w].campaign != c }

  predicate NoDispatchOn(s: State, c: Id) { forall d :: d in s.dispatches ==> s.dispatches[d].campaign != c }

  // ---- Where every credit went ---------------------------------------------------------

  lemma ChargedIff(s: State, c: Id, id: Id)
    requires Inv(s)
    ensures id in Spent(s, c) <==> id in Live(s, c) - FreeRides(s, c) || id in InFlight(s, c) || id in Orphans(s, c)
    ensures id in InFlight(s, c) || id in Orphans(s, c) ==> id !in s.messages
    ensures !(id in InFlight(s, c) && id in Orphans(s, c))
  {
    assert KeyOk(s.rows, id);
    if Held(s.dispatches, id) {
      var d :| d in s.dispatches && id in Debits(s.dispatches[d]);
      assert DispatchOk(s.rows, s.issued, s.messages, s.dispatches[d]);
      assert id in Ids(s.dispatches[d]) && Ids(s.dispatches[d]) !! s.leaked;
    }
  }

  lemma CountParts(whole: set<Id>, a: set<Id>, b: set<Id>, c: set<Id>)
    requires forall id :: id in whole <==> id in a || id in b || id in c
    requires a !! b && (a + b) !! c
    ensures whole == a + b + c && |whole| == |a| + |b| + |c|
  {
    assert whole == (a + b) + c;
  }

  lemma Accounts(s: State, c: Id)
    requires Inv(s)
    ensures Spent(s, c) == (Live(s, c) - FreeRides(s, c)) + InFlight(s, c) + Orphans(s, c)
    ensures |Spent(s, c)| + |FreeRides(s, c)| == |Live(s, c)| + |InFlight(s, c)| + |Orphans(s, c)|
  {
    var paid, fly, lost := Live(s, c) - FreeRides(s, c), InFlight(s, c), Orphans(s, c);
    forall id
      ensures id in Spent(s, c) <==> id in paid || id in fly || id in lost
      ensures id in paid ==> id !in fly && id !in lost
      ensures id in fly ==> id !in lost
    {
      ChargedIff(s, c, id);
    }
    CountParts(Spent(s, c), paid, fly, lost);
    CountParts(Live(s, c), paid, FreeRides(s, c), {});
  }

  /** In every run, whatever aborts or overlaps: the credits a campaign has spent are exactly its SENT and QUEUED
      messages without the free rides, plus the credits of dispatches still running, plus those of aborted ones. */
  lemma CampaignAccounts(dir: Directory, event: Id, s: State, steps: seq<Step>, c: Id)
    requires Initial(s)
    ensures var end := Run(dir, event, s, steps);
            && Spent(end, c) == (Live(end, c) - FreeRides(end, c)) + InFlight(end, c) + Orphans(end, c)
            && |Spent(end, c)| + |FreeRides(end, c)| == |Live(end, c)| + |InFlight(end, c)| + |Orphans(end, c)|
  {
    InitialInv(s);
    RunKeepsInv(dir, event, s, steps);
    Accounts(Run(dir, event, s, steps), c);
  }

  // ---- Leaked credits ---------------------------------------------------------------------

  lemma LeaksStay(dir: Directory, event: Id, s: State, step: Step, id: Id)
    requires Inv(s) && id in s.leaked
    ensures var s' := Next(dir, event, s, step);
            id in s'.leaked && id in s.issued && id in s'.issued && s'.issued[id] == s.issued[id]
  {
  }

  /** The credit of an aborted dispatch is never given back and never buys a message, whatever follows. */
  lemma {:induction false} OrphanIsLostForGood(dir: Directory, event: Id, s: State, steps: seq<Step>, c: Id, id: Id)
    requires Inv(s) && id in Orphans(s, c)
    ensures var end := Run(dir, event, s, steps);
            id in Orphans(end, c) && Charge(end.rows, id) == 1 && id !in end.messages
    decreases |steps|
  {
    if steps == [] {
      assert KeyOk(s.rows, id);
    } else {
      LeaksStay(dir, event, s, steps[0], id);
      NextKeepsInv(dir, event, s, steps[0]);
      OrphanIsLostForGood(dir, event, Next(dir, event, s, steps[0]), steps[1..], c, id);
    }
  }

  /** Aborting a dispatch of the campaign that has debited something. */
  ghost predicate Leaks(s: State, step: Step, c: Id) {
    step.AbortDispatch? && step.d in s.dispatches && s.dispatches[step.d].campaign == c
       && Debits(s.dispatches[step.d]) != {}
  }

  ghost predicate NeverLeaks(dir: Directory, event: Id, s: State, steps: seq<Step>, c: Id)
    decreases |steps|
  {
    steps != [] ==> !Leaks(s, steps[0], c) && NeverLeaks(dir, event, Next(dir, event, s, steps[0]), steps[1..], c)
  }

  lemma StepOrphans(dir: Directory, event: Id, s: State, step: Step, c: Id)
    requires Inv(s)
    ensures Orphans(Next(dir, event, s, step), c)
            == Orphans(s, c) + if Leaks(s, step, c) then Debits(s.dispatches[step.d]) else {}
  {
    if step.AbortDispatch? && step.d in s.dispatches {
      assert DispatchOk(s.rows, s.issued, s.messages, s.dispatches[step.d]);
    }
  }

  lemma {:induction false} OrphansIff(dir: Directory, event: Id, s: State, steps: seq<Step>, c: Id)
    requires Inv(s)
    ensures Orphans(Run(dir, event, s, steps), c) == {} <==> Orphans(s, c) == {} && NeverLeaks(dir, event, s, steps, c)
    decreases |steps|
  {
    if steps != [] {
      StepOrphans(dir, event, s, steps[0], c);
      NextKeepsInv(dir, event, s, steps[0]);
      OrphansIff(dir, event, Next(dir, event, s, steps[0]), steps[1..], c);
    }
  }

  // ---- Calm processing ------------------------------------------------------------------------

  /** No worker on the campaign aborts, and none starts on it while another is. Dispatches may do as they like, and so
      may the workers of other campaigns. */
  ghost predicate CalmStep(s: State, step: Step, c: Id) {
    && (step.AbortWorker? && step.w in s.workers ==> s.workers[step.w].campaign != c)
    && (step.Snapshot? && step.w !in s.workers && step.campaign == c ==> NoWorkerOn(s, c))
  }

  ghost predicate Calm(dir: Directory, event: Id, s: State, steps: seq<Step>, c: Id)
    decreases |steps|
  {
    steps != [] ==> CalmStep(s, steps[0], c) && Calm(dir, event, Next(dir, event, s, steps[0]), steps[1..], c)
  }

  ghost predicate BatchOk(messages: map<Id, Message>, p: Processing) {
    && p.sent !! p.failed && p.todo !! (p.sent + p.failed)
    && forall id :: id in p.todo + p.sent + p.failed ==> id in messages && messages[id] == Message(p.campaign, Queued)
  }

  /** At most one worker is on the campaign, and its batch is of QUEUED messages. */
  ghost predicate OneBatch(messages: map<Id, Message>, ws: map<nat, Processing>, c: Id) {
    && (forall v, w :: v in ws && w in ws && ws[v].campaign == c && ws[w].campaign == c ==> v == w)
    && (forall w :: w in ws && ws[w].campaign == c ==> BatchOk(messages, ws[w]))
  }

  /** The message is marked FAILED, or a worker is about to. */
  ghost predicate Returned(messages: map<Id, Message>, ws: map<nat, Processing>, id: Id) {
    id in messages && (messages[id].status == Failed || exists w :: w in ws && id in ws[w].failed)
  }

  /** Outside `old`, a refund of the campaign's is on its way to marking its message FAILED. */
  ghost predicate Returning(s: State, c: Id, excused: set<Id>) {
    forall id :: id in s.messages && s.messages[id].campaign == c && Refunded(s.rows, id) && id !in excused ==>
      Returned(s.messages, s.workers, id)
  }

  ghost predicate Quiet(s: State, c: Id, excused: set<Id>) {
    Inv(s) && OneBatch(s.messages, s.workers, c) && Returning(s, c, excused)
  }

  lemma AppliedKeepsBatch(rows: seq<Row>, messages: map<Id, Message>, ws: map<nat, Processing>, w: nat, c: Id)
    requires WorkersOk(rows, messages, ws) && OneBatch(messages, ws, c) && w in ws
    ensures OneBatch(Applied(messages, ws[w]), ws - {w}, c)
  {
    assert WorkerOk(rows, messages, ws[w]);
    forall v | v in ws - {w} && ws[v].campaign == c
      ensures BatchOk(Applied(messages, ws[w]), ws[v])
    {
      assert BatchOk(messages, ws[v]) && ws[w].campaign != c;
    }
  }

  lemma GrowingKeepsBatch(messages: map<Id, Message>, messages': map<Id, Message>, ws: map<nat, Processing>, c: Id)
    requires OneBatch(messages, ws, c) && forall id :: id in messages ==>
               id in messages' && messages'[id] == messages[id]
    ensures OneBatch(messages', ws, c)
  {
    forall v | v in ws && ws[v].campaign == c
      ensures BatchOk(messages', ws[v])
    {
      assert BatchOk(messages, ws[v]);
    }
  }

  lemma PutBatch(messages: map<Id, Message>, ws: map<nat, Processing>, w: nat, p: Processing, c: Id)
    requires OneBatch(messages, ws, c) && (p.campaign == c ==> BatchOk(messages, p))
    requires (w in ws && ws[w].campaign == p.campaign) || p.campaign != c || forall v :: v in ws ==> ws[v].campaign != c
    ensures OneBatch(messages, ws[w := p], c)
  {
  }

  lemma SettledIsBatch(messages: map<Id, Message>, p: Processing, id: Id, delivered: bool)
    requires BatchOk(messages, p) && id in p.todo
    ensures BatchOk(messages, SettledBatch(p, id, delivered))
  {
  }

  lemma SettleKeepsBatch(messages: map<Id, Message>, ws: map<nat, Processing>, w: nat, id: Id, delivered: bool, c: Id)
    requires OneBatch(messages, ws, c) && w in ws && id in ws[w].todo
    ensures OneBatch(messages, ws[w := SettledBatch(ws[w], id, delivered)], c)
  {
    if ws[w].campaign == c {
      SettledIsBatch(messages, ws[w], id, delivered);
    }
    PutBatch(messages, ws, w, SettledBatch(ws[w], id, delivered), c);
  }

  /** Only a worker's commit changes a message. */
  lemma MessagesKept(dir: Directory, event: Id, s: State, step: Step)
    requires Inv(s) && !step.CommitWorker?
    ensures var s' := Next(dir, event, s, step);
            forall id :: id in s.messages ==> id in s'.messages && s'.messages[id] == s.messages[id]
  {
    if step.CommitDispatch? && step.d in s.dispatches {
      assert DispatchOk(s.rows, s.issued, s.messages, s.dispatches[step.d]);
    }
  }

  lemma NextKeepsBatch(dir: Directory, event: Id, s: State, step: Step, c: Id)
    requires Inv(s) && OneBatch(s.messages, s.workers, c) && CalmStep(s, step, c)
    ensures var s' := Next(dir, event, s, step); OneBatch(s'.messages, s'.workers, c)
  {
    if Next(dir, event, s, step) != s {
      match step
      case CommitDispatch(d) =>
        MessagesKept(dir, event, s, step);
        GrowingKeepsBatch(s.messages, Next(dir, event, s, step).messages, s.workers, c);
      case CommitWorker(w) => AppliedKeepsBatch(s.rows, s.messages, s.workers, w, c);
      case Settle(w, id, delivered) => SettleKeepsBatch(s.messages, s.workers, w, id, delivered, c);
      case Snapshot(w, k) => PutBatch(s.messages, s.workers, w, Processing(k, QueuedOf(s.messages, k), {}, {}), c);
      case _ =>
    }
  }

  lemma AppliedKeepsReturned(rows: seq<Row>, messages: map<Id, Message>, ws: map<nat, Processing>, w: nat, c: Id,
                             id: Id)
    requires WorkersOk(rows, messages, ws) && OneBatch(messages, ws, c) && w in ws
    requires Returned(messages, ws, id) && messages[id].campaign == c
    ensures Returned(Applied(messages, ws[w]), ws - {w}, id)
  {
    var p := ws[w];
    assert WorkerOk(rows, messages, p) && (p.campaign == c ==> BatchOk(messages, p));
    if messages[id].status != Failed {
      var v :| v in ws && id in ws[v].failed;
      assert WorkerOk(rows, messages, ws[v]);
      assert v != w ==> v in ws - {w};
    }
  }

  /** A worker forgets a failure only by committing or aborting. */
  lemma FailureKept(dir: Directory, event: Id, s: State, step: Step, id: Id, w: nat)
    requires w in s.workers && id in s.workers[w].failed
    requires !((step.CommitWorker? || step.AbortWorker?) && step.w == w)
    ensures var s' := Next(dir, event, s, step); w in s'.workers && id in s'.workers[w].failed
  {
  }

  lemma NextKeepsReturned(dir: Directory, event: Id, s: State, step: Step, c: Id, id: Id)
    requires Inv(s) && OneBatch(s.messages, s.workers, c) && CalmStep(s, step, c)
    requires Returned(s.messages, s.workers, id) && s.messages[id].campaign == c
    ensures var s' := Next(dir, event, s, step); Returned(s'.messages, s'.workers, id)
  {
    var s' := Next(dir, event, s, step);
    if step.CommitWorker? && s' != s {
      AppliedKeepsReturned(s.rows, s.messages, s.workers, step.w, c, id);
    } else if s' != s {
      MessagesKept(dir, event, s, step);
      if s.messages[id].status != Failed {
        var w :| w in s.workers && id in s.workers[w].failed;
        assert WorkerOk(s.rows, s.messages, s.workers[w]);
        FailureKept(dir, event, s, step, id, w);
      }
    }
  }

  /** Only a failed delivery gives a credit back, and the worker notes it. */
  lemma FreshRefund(dir: Directory, event: Id, s: State, step: Step, id: Id)
    ensures Refunded(Next(dir, event, s, step).rows, id) && !Refunded(s.rows, id) ==>
              step.Settle? && step.id == id && !step.delivered && step.w in s.workers && id in s.workers[step.w].todo
  {
    match step
    case DebitCredit(d) =>
      if d in s.dispatches && s.dispatches[d].slot.Checked? {
        AppendKeys(dir, s.rows, OnEvent(event), Reserve, -1, Sms(s.dispatches[d].slot.id), None);
      }
    case Settle(w, i, delivered) =>
      if delivered {
        AppendKeys(dir, s.rows, OnEvent(event), Commit, 0, CommitOf(Sms(i)), Some(Sms(i)));
      } else {
        AppendKeys(dir, s.rows, OnEvent(event), Refund, 1, RefundOf(Sms(i)), Some(Sms(i)));
      }
    case OtherWrite(row) => KeysAppend(s.rows, row);
    case _ =>
  }

  lemma NextKeepsReturning(dir: Directory, event: Id, s: State, step: Step, c: Id, excused: set<Id>)
    requires Quiet(s, c, excused) && CalmStep(s, step, c)
    ensures Returning(Next(dir, event, s, step), c, excused)
  {
    var s' := Next(dir, event, s, step);
    forall id | id in s'.messages && s'.messages[id].campaign == c && Refunded(s'.rows, id) && id !in excused
      ensures Returned(s'.messages, s'.workers, id)
    {
      if Refunded(s.rows, id) {
        CampaignKept(dir, event, s, step, id);
        NextKeepsReturned(dir, event, s, step, c, id);
      } else {
        FreshRefund(dir, event, s, step, id);
        assert id in s'.workers[step.w].failed;
      }
    }
  }

  /** A refunded id has its message already, and a message never changes campaign. */
  lemma CampaignKept(dir: Directory, event: Id, s: State, step: Step, id: Id)
    requires Inv(s) && Refunded(s.rows, id) && id in Next(dir, event, s, step).messages
    ensures id in s.messages && Next(dir, event, s, step).messages[id].campaign == s.messages[id].campaign
  {
    if !step.CommitWorker? {
      MessagesKept(dir, event, s, step);
    }
  }

  lemma {:induction false} CalmRunKeepsQuiet(dir: Directory, event: Id, s: State, steps: seq<Step>, c: Id,
                                             excused: set<Id>)
    requires Quiet(s, c, excused) && Calm(dir, event, s, steps, c)
    ensures Quiet(Run(dir, event, s, steps), c, excused)
    decreases |steps|
  {
    if steps != [] {
      NextKeepsInv(dir, event, s, steps[0]);
      NextKeepsBatch(dir, event, s, steps[0], c);
      NextKeepsReturning(dir, event, s, steps[0], c, excused);
      CalmRunKeepsQuiet(dir, event, Next(dir, event, s, steps[0]), steps[1..], c, excused);
    }
  }

  /** What a campaign has spent, in a run that processes it calmly, once no dispatch and no worker is on it: its SENT
      and still QUEUED messages, plus the credits of its aborted dispatches. So it has spent exactly what it sends if
      and only if the run never aborts a dispatch of it that has already debited a credit. */
  lemma CalmCampaignSpendsWhatItSends(dir: Directory, event: Id, s: State, steps: seq<Step>, c: Id)
    requires Initial(s) && Calm(dir, event, s, steps, c)
    requires NoWorkerOn(Run(dir, event, s, steps), c) && NoDispatchOn(Run(dir, event, s, steps), c)
    ensures var end := Run(dir, event, s, steps);
            && Spent(end, c) == Live(end, c) + Orphans(end, c) && Live(end, c) !! Orphans(end, c)
            && (Spent(end, c) == Live(end, c) <==> NeverLeaks(dir, event, s, steps, c))
  {
    InitialInv(s);
    CalmRunKeepsQuiet(dir, event, s, steps, c, {});
    QuietAccounts(Run(dir, event, s, steps), c);
    OrphansIff(dir, event, s, steps, c);
  }

  lemma QuietAccounts(s: State, c: Id)
    requires Quiet(s, c, {}) && NoWorkerOn(s, c) && NoDispatchOn(s, c)
    ensures Spent(s, c) == Live(s, c) + Orphans(s, c) && Live(s, c) !! Orphans(s, c)
    ensures Spent(s, c) == Live(s, c) <==> Orphans(s, c) == {}
  {
    NothingHeld(s, c);
    NobodyReturning(s, c, {});
    forall id
      ensures id in Spent(s, c) <==> id in Live(s, c) || id in Orphans(s, c)
      ensures id in Orphans(s, c) ==> id !in Live(s, c)
    {
      ChargedIff(s, c, id);
    }
  }

  lemma NothingHeld(s: State, c: Id)
    requires Inv(s) && NoDispatchOn(s, c)
    ensures InFlight(s, c) == {}
  {
    forall id, d | id in s.issued && s.issued[id] == c && d in s.dispatches
      ensures id !in Debits(s.dispatches[d])
    {
      assert DispatchOk(s.rows, s.issued, s.messages, s.dispatches[d]);
    }
  }

  /** With no worker on the campaign, refunded messages are marked FAILED. */
  lemma NobodyReturning(s: State, c: Id, excused: set<Id>)
    requires Quiet(s, c, excused) && NoWorkerOn(s, c)
    ensures FreeRides(s, c) <= excused
  {
    forall id, w | id in Live(s, c) && w in s.workers
      ensures id !in s.workers[w].failed
    {
      assert WorkerOk(s.rows, s.messages, s.workers[w]);
    }
  }

  // ---- When is a sent message charged? -------------------------------------------------------------

  /** No message of the campaign waits to be sent with its credit already given back. */
  predicate NoneQueuedRefunded(s: State, c: Id) {
    forall id :: id in s.messages && s.messages[id] == Message(c, Queued) ==> !Refunded(s.rows, id)
  }

  function SentIds(messages: map<Id, Message>): set<Id> { set id | id in messages && messages[id].status == Sent }

  /** Every message of the campaign marked SENT between the two states is charged. */
  ghost predicate SentAreCharged(s: State, end: State, c: Id) {
    forall id :: id in end.messages && end.messages[id] == Message(c, Sent) && id !in SentIds(s.messages) ==>
      Charge(end.rows, id) == 1
  }

  lemma CalmSendsAreCharged(dir: Directory, event: Id, s: State, steps: seq<Step>, c: Id)
    requires Inv(s) && NoWorkerOn(s, c) && NoneQueuedRefunded(s, c) && Calm(dir, event, s, steps, c)
    ensures SentAreCharged(s, Run(dir, event, s, steps), c)
  {
    var end, excused := Run(dir, event, s, steps), SentIds(s.messages);
    CalmRunKeepsQuiet(dir, event, s, steps, c, excused);
    forall id | id in end.messages && end.messages[id] == Message(c, Sent) && id !in excused
      ensures Charge(end.rows, id) == 1
    {
      assert KeyOk(end.rows, id);
      SentIsNotReturned(end, c, id);
    }
  }

  lemma SentIsNotReturned(s: State, c: Id, id: Id)
    requires Inv(s) && OneBatch(s.messages, s.workers, c) && id in s.messages && s.messages[id] == Message(c, Sent)
    ensures !Returned(s.messages, s.workers, id)
  {
    forall w | w in s.workers
      ensures id !in s.workers[w].failed
    {
      assert WorkerOk(s.rows, s.messages, s.workers[w]);
      assert s.workers[w].campaign == c ==> BatchOk(s.messages, s.workers[w]);
    }
  }

  lemma DeliverOne(dir: Directory, event: Id, s: State, w: nat, id: Id)
    requires Inv(s) && w in s.workers && BatchOk(s.messages, s.workers[w]) && id in s.workers[w].todo
    ensures var s', p := Next(dir, event, s, Settle(w, id, true)), s.workers[w];
            && Inv(s') && Keys(s.rows) <= Keys(s'.rows) && s'.messages == s.messages
            && w in s'.workers && s'.workers[w] == p.(todo := p.todo - {id}, sent := p.sent + {id})
            && BatchOk(s.messages, s'.workers[w])
  {
    NextKeepsInv(dir, event, s, Settle(w, id, true));
    AppendKeys(dir, s.rows, OnEvent(event), Commit, 0, CommitOf(Sms(id)), Some(Sms(id)));
  }

  /** A worker that delivers all of its batch and commits. */
  lemma {:induction false} DeliverAll(dir: Directory, event: Id, s: State, w: nat, c: Id) returns (steps: seq<Step>)
    requires Inv(s) && w in s.workers && BatchOk(s.messages, s.workers[w])
    ensures var end, p := Run(dir, event, s, steps), s.workers[w];
            && Calm(dir, event, s, steps, c) && Inv(end)
            && (forall id :: id in p.todo + p.sent ==>
              id in end.messages && end.messages[id] == Message(p.campaign, Sent))
            && Keys(s.rows) <= Keys(end.rows)
    decreases |s.workers[w].todo|
  {
    var p := s.workers[w];
    if p.todo == {} {
      steps := [CommitWorker(w)];
      RunOne(dir, event, s, CommitWorker(w));
      NextKeepsInv(dir, event, s, CommitWorker(w));
    } else {
      var id :| id in p.todo;
      DeliverOne(dir, event, s, w, id);
      var rest := DeliverAll(dir, event, Next(dir, event, s, Settle(w, id, true)), w, c);
      steps := [Settle(w, id, true)] + rest;
      assert steps[1..] == rest;
    }
  }

  lemma RunOne(dir: Directory, event: Id, s: State, step: Step)
    ensures Run(dir, event, s, [step]) == Next(dir, event, s, step)
  {
    assert [step][1..] == [];
  }

  lemma {:induction false} UnusedWorker(ws: set<nat>) returns (w: nat)
    ensures forall v :: v in ws ==> v < w
    decreases |ws|
  {
    w := 0;
    if ws != {} {
      var v :| v in ws;
      var u := UnusedWorker(ws - {v});
      w := Max(u, v + 1);
      assert forall x :: x in ws ==> x == v || x in ws - {v};
    }
  }

  /** A redelivery that sends a message whose credit was given back. */
  lemma FreeRideRun(dir: Directory, event: Id, s: State, c: Id, id: Id) returns (steps: seq<Step>)
    requires Inv(s) && NoWorkerOn(s, c) && id in s.messages && s.messages[id] == Message(c, Queued)
             && Refunded(s.rows, id)
    ensures Calm(dir, event, s, steps, c) && !SentAreCharged(s, Run(dir, event, s, steps), c)
  {
    var w := UnusedWorker(s.workers.Keys);
    var s' := Next(dir, event, s, Snapshot(w, c));
    NextKeepsInv(dir, event, s, Snapshot(w, c));
    var rest := DeliverAll(dir, event, s', w, c);
    steps := [Snapshot(w, c)] + rest;
    assert steps[1..] == rest;
    var end := Run(dir, event, s', rest);
    assert id in s'.workers[w].todo && KeyOk(end.rows, id);
  }

  /** With nobody on a campaign, every calm continuation charges every message it marks SENT if and only if no QUEUED
      message of the campaign has been refunded. */
  lemma SentAreChargedIff(dir: Directory, event: Id, s: State, c: Id)
    requires Inv(s) && NoWorkerOn(s, c)
    ensures (forall steps :: Calm(dir, event, s, steps, c) ==> SentAreCharged(s, Run(dir, event, s, steps), c))
            <==> NoneQueuedRefunded(s, c)
  {
    if NoneQueuedRefunded(s, c) {
      forall steps | Calm(dir, event, s, steps, c)
        ensures SentAreCharged(s, Run(dir, event, s, steps), c)
      {
        CalmSendsAreCharged(dir, event, s, steps, c);
      }
    } else {
      var id :| id in s.messages && s.messages[id] == Message(c, Queued) && Refunded(s.rows, id);
      var steps := FreeRideRun(dir, event, s, c, id);
    }
  }

  /** Aborting the one worker on a campaign leaves a refunded QUEUED message if and only if it had failed one. */
  lemma AbortLeavesRefundedIff(dir: Directory, event: Id, s: State, w: nat, c: Id)
    requires Quiet(s, c, {}) && w in s.workers && s.workers[w].campaign == c
    ensures NoneQueuedRefunded(Next(dir, event, s, AbortWorker(w)), c) <==> s.workers[w].failed == {}
  {
    var p := s.workers[w];
    assert BatchOk(s.messages, p) && WorkerOk(s.rows, s.messages, p);
    forall id | id in s.messages && s.messages[id] == Message(c, Queued)
      ensures Refunded(s.rows, id) <==> id in p.failed
    {
      if Refunded(s.rows, id) {
        var v :| v in s.workers && id in s.workers[v].failed;
        assert WorkerOk(s.rows, s.messages, s.workers[v]);
      }
    }
    if p.failed != {} {
      var id :| id in p.failed;
      assert Refunded(s.rows, id);
    }
  }

  // ---- Runs in which a message costs the wrong amount --------------------------------------------------

  /** One message is drawn, debited and created. */
  function Created(c: Id, id: Id): seq<Step> {
    [OpenDispatch(0, c), CheckCredit(0, id)] + [DebitCredit(0), CreateMessage(0)]
  }

  /** A batch that fails, aborts after its refund, and is redelivered successfully. */
  function RedeliveredAfterAbort(c: Id, id: Id): seq<Step> {
    Created(c, id) + ([CommitDispatch(0), Snapshot(0, c)] + ([Settle(0, id, false), AbortWorker(0)]
    + ([Snapshot(1, c), Settle(1, id, true)] + [CommitWorker(1)])))
  }

  /** Two deliveries overlap: one fails the message and commits, the other sends it. */
  function Overlapping(c: Id, id: Id): seq<Step> {
    Created(c, id) + ([CommitDispatch(0), Snapshot(0, c)] + ([Snapshot(1, c), Settle(0, id, false)]
    + ([CommitWorker(0), Settle(1, id, true)] + [CommitWorker(1)])))
  }

  lemma RunTwo(dir: Directory, event: Id, s: State, a: Step, b: Step, rest: seq<Step>)
    ensures Run(dir, event, s, [a, b] + rest) == Run(dir, event, Next(dir, event, Next(dir, event, s, a), b), rest)
  {
    assert ([a, b] + rest)[1..] == [b] + rest && ([b] + rest)[1..] == rest;
  }

  lemma CreateOne(dir: Directory, event: Id, s: State, c: Id, id: Id, rest: seq<Step>) returns (end: State)
    requires Initial(s) && BalanceOf(dir, s.rows, OnEvent(event)) >= 1
    ensures Run(dir, event, s, Created(c, id) + rest) == Run(dir, event, end, rest)
    ensures end.dispatches == map[0 := Dispatch(c, {id}, Idle)] && end.messages == map[] && end.workers == map[]
    ensures end.issued == map[id := c] && end.leaked == {}
  {
    var s1 := Next(dir, event, s, OpenDispatch(0, c));
    assert s1.dispatches == map[0 := Dispatch(c, {}, Idle)];
    var s2 := Next(dir, event, s1, CheckCredit(0, id));
    assert s2.dispatches == map[0 := Dispatch(c, {}, Checked(id))];
    var s3 := Next(dir, event, s2, DebitCredit(0));
    assert s3.dispatches == map[0 := Dispatch(c, {}, Debited(id))];
    end := Next(dir, event, s3, CreateMessage(0));
    assert {} + {id} == {id} && end.dispatches == map[0 := Dispatch(c, {id}, Idle)];
    var later := [DebitCredit(0), CreateMessage(0)];
    assert Created(c, id) + rest == [OpenDispatch(0, c), CheckCredit(0, id)] + (later + rest);
    RunTwo(dir, event, s, OpenDispatch(0, c), CheckCredit(0, id), later + rest);
    RunTwo(dir, event, s2, DebitCredit(0), CreateMessage(0), rest);
  }

  lemma OnlyLeaked(s: State, c: Id, id: Id)
    requires Inv(s) && s.messages == map[] && s.dispatches == map[] && s.issued == map[id := c] && s.leaked == {id}
    ensures Spent(s, c) == {id} && Live(s, c) == {} && Orphans(s, c) == {id}
  {
    Accounts(s, c);
  }

  /** From any initial state with a credit to spend, a dispatch that aborts has spent it and queued nothing. */
  lemma AbortedDispatchLosesCredit(dir: Directory, event: Id, s: State, c: Id, id: Id)
    requires Initial(s) && BalanceOf(dir, s.rows, OnEvent(event)) >= 1
    ensures var end := Run(dir, event, s, Created(c, id) + [AbortDispatch(0)]);
            Spent(end, c) == {id} && Live(end, c) == {} && Orphans(end, c) == {id}
  {
    var m := CreateOne(dir, event, s, c, id, [AbortDispatch(0)]);
    RunOne(dir, event, m, AbortDispatch(0));
    var end := Next(dir, event, m, AbortDispatch(0));
    assert end.dispatches == map[] && end.leaked == {id};
    InitialInv(s);
    RunKeepsInv(dir, event, s, Created(c, id) + [AbortDispatch(0)]);
    OnlyLeaked(end, c, id);
  }

  /** A worker starts on the one queued message. */
  lemma TakeOne(dir: Directory, event: Id, s: State, w: nat, c: Id, id: Id)
    requires s.messages == map[id := Message(c, Queued)] && w !in s.workers
    ensures Next(dir, event, s, Snapshot(w, c)) == s.(workers := s.workers[w := Processing(c, {id}, {}, {})])
  {
    assert QueuedOf(s.messages, c) == {id};
  }

  /** The queued message is in a first worker's batch. */
  lemma QueueOne(dir: Directory, event: Id, s: State, c: Id, id: Id, rest: seq<Step>) returns (end: State)
    requires Initial(s) && BalanceOf(dir, s.rows, OnEvent(event)) >= 1
    ensures Run(dir, event, s, Created(c, id) + ([CommitDispatch(0), Snapshot(0, c)] + rest))
            == Run(dir, event, end, rest)
    ensures end.messages == map[id := Message(c, Queued)] && end.workers == map[0 := Processing(c, {id}, {}, {})]
  {
    var m := CreateOne(dir, event, s, c, id, [CommitDispatch(0), Snapshot(0, c)] + rest);
    var n := Next(dir, event, m, CommitDispatch(0));
    assert n.messages == map[id := Message(c, Queued)] && n.workers == map[];
    TakeOne(dir, event, n, 0, c, id);
    end := Next(dir, event, n, Snapshot(0, c));
    RunTwo(dir, event, m, CommitDispatch(0), Snapshot(0, c), rest);
  }

  /** The worker fails the message, writing its refund, and aborts. */
  lemma FailAndAbort(dir: Directory, event: Id, s: State, c: Id, id: Id, rest: seq<Step>) returns (end: State)
    requires s.messages == map[id := Message(c, Queued)] && s.workers == map[0 := Processing(c, {id}, {}, {})]
    ensures Run(dir, event, s, [Settle(0, id, false), AbortWorker(0)] + rest) == Run(dir, event, end, rest)
    ensures end.messages == s.messages && Refunded(end.rows, id) && end.workers == map[]
  {
    var f := FailIn(dir, event, s, 0, id);
    end := Next(dir, event, f, AbortWorker(0));
    RunTwo(dir, event, s, Settle(0, id, false), AbortWorker(0), rest);
  }

  /** From any initial state with a credit to spend, a refund that outlives its aborted batch lets the redelivery send
      the message for nothing. */
  lemma AbortedRefundGivesFreeRide(dir: Directory, event: Id, s: State, c: Id, id: Id)
    requires Initial(s) && BalanceOf(dir, s.rows, OnEvent(event)) >= 1
    ensures var end := Run(dir, event, s, RedeliveredAfterAbort(c, id));
            && end.messages == map[id := Message(c, Sent)]
            && Charge(end.rows, id) == 0 && FreeRides(end, c) == {id}
  {
    var last := [Snapshot(1, c), Settle(1, id, true)] + [CommitWorker(1)];
    var m := QueueOne(dir, event, s, c, id, [Settle(0, id, false), AbortWorker(0)] + last);
    var n := FailAndAbort(dir, event, m, c, id, last);
    TakeOne(dir, event, n, 1, c, id);
    RunTwo(dir, event, n, Snapshot(1, c), Settle(1, id, true), [CommitWorker(1)]);
    SendLast(dir, event, Next(dir, event, n, Snapshot(1, c)), c, id);
    SentAfterRefund(dir, event, s, RedeliveredAfterAbort(c, id), c, id);
  }

  /** From any initial state with a credit to spend, two overlapping deliveries of one campaign, neither of which
      aborts, send a message for nothing. */
  lemma OverlapGivesFreeRide(dir: Directory, event: Id, s: State, c: Id, id: Id)
    requires Initial(s) && BalanceOf(dir, s.rows, OnEvent(event)) >= 1
    ensures var end := Run(dir, event, s, Overlapping(c, id));
            && end.messages == map[id := Message(c, Sent)]
            && Charge(end.rows, id) == 0 && FreeRides(end, c) == {id}
  {
    var last := [CommitWorker(0), Settle(1, id, true)] + [CommitWorker(1)];
    var m := QueueOne(dir, event, s, c, id, [Snapshot(1, c), Settle(0, id, false)] + last);
    var f := BothHold(dir, event, m, c, id, last);
    CommitFirst(dir, event, f, c, id);
    RunTwo(dir, event, f, CommitWorker(0), Settle(1, id, true), [CommitWorker(1)]);
    SendLast(dir, event, Next(dir, event, f, CommitWorker(0)), c, id);
    SentAfterRefund(dir, event, s, Overlapping(c, id), c, id);
  }

  /** Two workers hold the message, and the first has failed it. */
  lemma BothHold(dir: Directory, event: Id, s: State, c: Id, id: Id, rest: seq<Step>) returns (end: State)
    requires s.messages == map[id := Message(c, Queued)] && s.workers == map[0 := Processing(c, {id}, {}, {})]
    ensures Run(dir, event, s, [Snapshot(1, c), Settle(0, id, false)] + rest) == Run(dir, event, end, rest)
    ensures end.messages == s.messages && Refunded(end.rows, id)
    ensures end.workers == map[0 := Processing(c, {}, {}, {id}), 1 := Processing(c, {id}, {}, {})]
  {
    TakeOne(dir, event, s, 1, c, id);
    var n := Next(dir, event, s, Snapshot(1, c));
    end := FailIn(dir, event, n, 0, id);
    assert {id} - {id} == {} && {} + {id} == {id};
    RunTwo(dir, event, s, Snapshot(1, c), Settle(0, id, false), rest);
  }

  lemma CommitFirst(dir: Directory, event: Id, s: State, c: Id, id: Id)
    requires s.messages == map[id := Message(c, Queued)] && Refunded(s.rows, id)
    requires s.workers == map[0 := Processing(c, {}, {}, {id}), 1 := Processing(c, {id}, {}, {})]
    ensures var o := Next(dir, event, s, CommitWorker(0));
            && o.workers == map[1 := Processing(c, {id}, {}, {})] && o.rows == s.rows
            && o.messages.Keys == {id} && o.messages[id].campaign == c
  {
  }

  lemma FailIn(dir: Directory, event: Id, s: State, w: nat, id: Id) returns (end: State)
    requires w in s.workers && id in s.workers[w].todo
    ensures end == Next(dir, event, s, Settle(w, id, false)) && Refunded(end.rows, id)
    ensures end.messages == s.messages && end.workers == s.workers[w := SettledBatch(s.workers[w], id, false)]
  {
    AppendKeys(dir, s.rows, OnEvent(event), Refund, 1, RefundOf(Sms(id)), Some(Sms(id)));
    end := Next(dir, event, s, Settle(w, id, false));
  }

  /** The last worker sends the refunded message and commits. */
  lemma SendLast(dir: Directory, event: Id, s: State, c: Id, id: Id)
    requires s.messages.Keys == {id} && s.messages[id].campaign == c && Refunded(s.rows, id)
    requires s.workers == map[1 := Processing(c, {id}, {}, {})]
    ensures var end := Run(dir, event, Next(dir, event, s, Settle(1, id, true)), [CommitWorker(1)]);
            end.messages == map[id := Message(c, Sent)] && Refunded(end.rows, id)
  {
    var t := Next(dir, event, s, Settle(1, id, true));
    AppendKeys(dir, s.rows, OnEvent(event), Commit, 0, CommitOf(Sms(id)), Some(Sms(id)));
    assert t.workers[1].todo == {};
    RunOne(dir, event, t, CommitWorker(1));
  }

  lemma SentAfterRefund(dir: Directory, event: Id, s: State, steps: seq<Step>, c: Id, id: Id)
    requires Initial(s)
    requires var end := Run(dir, event, s, steps); end.messages == map[id := Message(c, Sent)] && Refunded(end.rows, id)
    ensures var end := Run(dir, event, s, steps); Charge(end.rows, id) == 0 && FreeRides(end, c) == {id}
  {
    InitialInv(s);
    RunKeepsInv(dir, event, s, steps);
    assert KeyOk(Run(dir, event, s, steps).rows, id);
  }
}
