/** SMS dispatch and campaign processing as concurrent transactions. Message rows live in tenant
    transactions that may abort at any point; credit rows are written on another connection and
    survive an abort. A worker's uncommitted message writes are invisible, so a transaction is its
    buffered writes, applied at commit. */
module SmsCampaigns {
  import opened Prelude
  import opened CreditLedger

  datatype MessageStatus = Queued | Sent | Failed

  datatype Message = Message(campaign: Id, status: MessageStatus)

  /** The message being queued: its credit checked, then debited. */
  datatype Slot = Idle | Checked(id: Id) | Debited(id: Id)

  datatype Dispatch = Dispatch(campaign: Id, buffer: set<Id>, slot: Slot)

  datatype Processing = Processing(campaign: Id, todo: set<Id>, sent: set<Id>, failed: set<Id>)

  /** `issued` maps every message id ever drawn to the campaign it was drawn for, and `leaked` collects the ids whose
      credit was debited by a dispatch that then aborted; no step reads either to decide anything but freshness. */
  datatype State = State(rows: seq<Row>, messages: map<Id, Message>, issued: map<Id, Id>,
                         dispatches: map<nat, Dispatch>, workers: map<nat, Processing>, leaked: set<Id>)

  datatype Step =
    | OpenDispatch(d: nat, campaign: Id)
    | CheckCredit(d: nat, id: Id)
    | DebitCredit(d: nat)
    | CreateMessage(d: nat)
    | CommitDispatch(d: nat)
    | AbortDispatch(d: nat)
    | Snapshot(w: nat, campaign: Id)
    | Settle(w: nat, id: Id, delivered: bool)
    | CommitWorker(w: nat)
    | AbortWorker(w: nat)
    | OtherWrite(row: Row)

  /** Rows of other origins: no message's reserve, commit or refund key, and no reference to one. */
  predicate Foreign(row: Row) {
    && !row.key.Sms? && !(row.key.CommitOf? && row.key.reserve.Sms?) && !(row.key.RefundOf? && row.key.reserve.Sms?)
    && (row.reference.Some? ==> !row.reference.value.Sms?)
  }

  function QueuedOf(messages: map<Id, Message>, campaign: Id): set<Id> {
    set id | id in messages && messages[id] == Message(campaign, Queued)
  }

  function Applied(messages: map<Id, Message>, p: Processing): map<Id, Message> {
    map id | id in messages ::
      if id in p.sent then messages[id].(status := Sent)
      else if id in p.failed then messages[id].(status := Failed)
      else messages[id]
  }

  /** The credit row of one settled message. */
  function SettledRows(dir: Directory, event: Id, rows: seq<Row>, id: Id, delivered: bool): seq<Row> {
    if delivered then Append(dir, rows, OnEvent(event), Commit, 0, CommitOf(Sms(id)), Some(Sms(id)))
    else Append(dir, rows, OnEvent(event), Refund, 1, RefundOf(Sms(id)), Some(Sms(id)))
  }

  function SettledBatch(p: Processing, id: Id, delivered: bool): Processing {
    if delivered then p.(todo := p.todo - {id}, sent := p.sent + {id})
    else p.(todo := p.todo - {id}, failed := p.failed + {id})
  }

  /** Ids whose credit the dispatch has already debited. */
  function Debits(t: Dispatch): set<Id> { t.buffer + if t.slot.Debited? then {t.slot.id} else {} }

  function NewMessages(t: Dispatch): map<Id, Message> { map id | id in t.buffer :: Message(t.campaign, Queued) }

  /** One step of the system; a step that is not enabled changes nothing. */
  ghost function Next(dir: Directory, event: Id, s: State, step: Step): State {
    match step
    case OpenDispatch(d, c) =>
      if d in s.dispatches then s else s.(dispatches := s.dispatches[d := Dispatch(c, {}, Idle)])
    case CheckCredit(d, id) =>
      if d !in s.dispatches || !s.dispatches[d].slot.Idle? || id in s.issued
         || BalanceOf(dir, s.rows, OnEvent(event)) < 1 then s
      else s.(dispatches := s.dispatches[d := s.dispatches[d].(slot := Checked(id))],
              issued := s.issued[id := s.dispatches[d].campaign])
    case DebitCredit(d) =>
      if d !in s.dispatches || !s.dispatches[d].slot.Checked? then s else
      var id := s.dispatches[d].slot.id;
      s.(rows := Append(dir, s.rows, OnEvent(event), Reserve, -1, Sms(id), None),
         dispatches := s.dispatches[d := s.dispatches[d].(slot := Debited(id))])
    case CreateMessage(d) =>
      if d !in s.dispatches || !s.dispatches[d].slot.Debited? then s else
      var t := s.dispatches[d];
      s.(dispatches := s.dispatches[d := t.(slot := Idle, buffer := t.buffer + {t.slot.id})])
    case CommitDispatch(d) =>
      if d !in s.dispatches || !s.dispatches[d].slot.Idle? then s else
      var t := s.dispatches[d];
      s.(messages := s.messages + NewMessages(t),
         dispatches := s.dispatches - {d})
    case AbortDispatch(d) =>
      if d !in s.dispatches then s
      else s.(dispatches := s.dispatches - {d}, leaked := s.leaked + Debits(s.dispatches[d]))
    case Snapshot(w, c) =>
      if w in s.workers then s
      else s.(workers := s.workers[w := Processing(c, QueuedOf(s.messages, c), {}, {})])
    case Settle(w, id, delivered) =>
      if w !in s.workers || id !in s.workers[w].todo then s
      else s.(rows := SettledRows(dir, event, s.rows, id, delivered),
              workers := s.workers[w := SettledBatch(s.workers[w], id, delivered)])
    case CommitWorker(w) =>
      if w !in s.workers || s.workers[w].todo != {} then s
      else s.(messages := Applied(s.messages, s.workers[w]), workers := s.workers - {w})
    case AbortWorker(w) => s.(workers := s.workers - {w})
    case OtherWrite(row) =>
      if Foreign(row) && !HasKey(s.rows, row.key) then s.(rows := s.rows + [row]) else s
  }

  ghost function Run(dir: Directory, event: Id, s: State, steps: seq<Step>): State
    decreases |steps|
  {
    if steps == [] then s else Run(dir, event, Next(dir, event, s, steps[0]), steps[1..])
  }

  predicate Initial(s: State) {
    && (forall i :: 0 <= i < |s.rows| ==> Foreign(s.rows[i]))
    && s.messages == map[] && s.issued == map[] && s.dispatches == map[] && s.workers == map[] && s.leaked == {}
  }

  // ---- What a message was charged ---------------------------------------------------

  /** Net credits charged to a reserve key: minus the sum of its reserve, commit and refund rows. */
  ghost function Charge(rows: seq<Row>, id: Id): int { ChargeFor(rows, Sms(id)) }

  predicate Reserved(rows: seq<Row>, id: Id) { HasKey(rows, Sms(id)) }

  predicate Committed(rows: seq<Row>, id: Id) { HasKey(rows, CommitOf(Sms(id))) }

  predicate Refunded(rows: seq<Row>, id: Id) { HasKey(rows, RefundOf(Sms(id))) }

  /** A key is charged once when reserved, given back once when refunded, and only what was reserved is
      refunded. */
  ghost predicate KeyOk(rows: seq<Row>, id: Id) {
    && (Refunded(rows, id) ==> Reserved(rows, id))
    && Charge(rows, id) == (if Reserved(rows, id) then 1 else 0) - (if Refunded(rows, id) then 1 else 0)
  }

  ghost predicate LedgerOk(rows: seq<Row>) { forall id :: KeyOk(rows, id) }

  // ---- The invariant -----------------------------------------------------------------

  function Ids(t: Dispatch): set<Id> { t.buffer + if t.slot.Idle? then {} else {t.slot.id} }

  ghost predicate MessagesOk(rows: seq<Row>, issued: map<Id, Id>, messages: map<Id, Message>) {
    forall id :: id in messages ==>
      && id in issued && issued[id] == messages[id].campaign && Reserved(rows, id)
      && (messages[id].status.Sent? ==> Committed(rows, id))
      && (messages[id].status.Failed? ==> Refunded(rows, id))
  }

  ghost predicate DispatchOk(rows: seq<Row>, issued: map<Id, Id>, messages: map<Id, Message>, t: Dispatch) {
    && (forall id :: id in Ids(t) ==> id in issued && issued[id] == t.campaign && id !in messages)
    && (forall id :: id in Debits(t) ==> Reserved(rows, id))
    && (!t.slot.Idle? ==> t.slot.id !in t.buffer)
  }

  ghost predicate DispatchesOk(rows: seq<Row>, issued: map<Id, Id>, messages: map<Id, Message>,
                               ds: map<nat, Dispatch>) {
    && (forall d :: d in ds ==> DispatchOk(rows, issued, messages, ds[d]))
    && (forall d, e :: d in ds && e in ds && d != e ==> Ids(ds[d]) !! Ids(ds[e]))
  }

  ghost predicate WorkerOk(rows: seq<Row>, messages: map<Id, Message>, p: Processing) {
    && (forall id :: id in p.todo + p.sent + p.failed ==> id in messages && messages[id].campaign == p.campaign)
    && (forall id :: id in p.sent ==> Committed(rows, id))
    && (forall id :: id in p.failed ==> Refunded(rows, id))
  }

  ghost predicate WorkersOk(rows: seq<Row>, messages: map<Id, Message>, ws: map<nat, Processing>) {
    forall w :: w in ws ==> WorkerOk(rows, messages, ws[w])
  }

  /** A leaked id was debited and belongs to no message and no dispatch. */
  ghost predicate LeakedOk(rows: seq<Row>, issued: map<Id, Id>, messages: map<Id, Message>, ds: map<nat, Dispatch>,
                           leaked: set<Id>) {
    && (forall id :: id in leaked ==> id in issued && Reserved(rows, id) && id !in messages)
    && (forall d :: d in ds ==> Ids(ds[d]) !! leaked)
  }

  ghost predicate Held(ds: map<nat, Dispatch>, id: Id) { exists d :: d in ds && id in Debits(ds[d]) }

  /** Every debited credit is a message's, a running dispatch's or a leaked one; only messages are refunded. */
  ghost predicate Placed(rows: seq<Row>, messages: map<Id, Message>, ds: map<nat, Dispatch>, leaked: set<Id>) {
    && (forall id :: Reserved(rows, id) ==> id in messages || id in leaked || Held(ds, id))
    && (forall id :: Refunded(rows, id) ==> id in messages)
  }

  ghost predicate Inv(s: State) {
    && LedgerOk(s.rows)
    && MessagesOk(s.rows, s.issued, s.messages)
    && DispatchesOk(s.rows, s.issued, s.messages, s.dispatches)
    && WorkersOk(s.rows, s.messages, s.workers)
    && LeakedOk(s.rows, s.issued, s.messages, s.dispatches, s.leaked)
    && Placed(s.rows, s.messages, s.dispatches, s.leaked)
  }

  // ---- Key bookkeeping -------------------------------------------------------------

  /** A message's own rows, as the service writes them. */
  predicate OwnRow(row: Row, id: Id) {
    || (row.key == Sms(id) && row.amount == -1 && row.reference == None)
    || (row.key == CommitOf(Sms(id)) && row.amount == 0 && row.reference == Some(Sms(id)))
    || (row.key == RefundOf(Sms(id)) && row.amount == 1 && row.reference == Some(Sms(id)))
  }

  /** Appending one fresh row of message `of`, refunding only what is reserved, keeps the ledger sound and
      forgets no key. */
  lemma OwnRowKeepsLedger(rows: seq<Row>, row: Row, of: Id)
    requires LedgerOk(rows) && OwnRow(row, of) && !HasKey(rows, row.key)
    requires row.key == RefundOf(Sms(of)) ==> Reserved(rows, of)
    ensures LedgerOk(rows + [row])
  {
    forall id
      ensures KeyOk(rows + [row], id)
    {
      assert KeyOk(rows, id);
      SumAppend(rows, row, ChargeOn(Sms(id)));
      KeysAppend(rows, row);
    }
  }

  lemma ForeignRowKeepsLedger(rows: seq<Row>, row: Row)
    requires LedgerOk(rows) && Foreign(row)
    ensures LedgerOk(rows + [row])
  {
    forall id
      ensures KeyOk(rows + [row], id)
    {
      assert KeyOk(rows, id);
      SumAppend(rows, row, ChargeOn(Sms(id)));
      KeysAppend(rows, row);
    }
  }

  /** Writing a message's own row, refunding only what is reserved. */
  lemma PutOwnRow(dir: Directory, event: Id, rows: seq<Row>, kind: Kind, amount: int, key: Key,
                  reference: Option<Key>, of: Id)
    requires LedgerOk(rows) && OwnRow(Row(Some(event), Stamp(dir, OnEvent(event)), kind, amount, key, reference), of)
    requires key == RefundOf(Sms(of)) ==> Reserved(rows, of)
    ensures var rows' := Append(dir, rows, OnEvent(event), kind, amount, key, reference);
            LedgerOk(rows') && Keys(rows') == Keys(rows) + {key}
  {
    var row := Row(Some(event), Stamp(dir, OnEvent(event)), kind, amount, key, reference);
    if !HasKey(rows, key) {
      OwnRowKeepsLedger(rows, row, of);
      KeysAppend(rows, row);
    }
  }

  // ---- Each step keeps the invariant ---------------------------------------------------

  lemma RowsGrow(s: State, rows': seq<Row>)
    requires Inv(s) && Keys(s.rows) <= Keys(rows')
    ensures MessagesOk(rows', s.issued, s.messages) && DispatchesOk(rows', s.issued, s.messages, s.dispatches)
    ensures WorkersOk(rows', s.messages, s.workers) && LeakedOk(rows', s.issued, s.messages, s.dispatches, s.leaked)
  {
    forall d | d in s.dispatches
      ensures DispatchOk(rows', s.issued, s.messages, s.dispatches[d])
    {
      assert DispatchOk(s.rows, s.issued, s.messages, s.dispatches[d]);
    }
    forall w | w in s.workers
      ensures WorkerOk(rows', s.messages, s.workers[w])
    {
      assert WorkerOk(s.rows, s.messages, s.workers[w]);
    }
  }

  ghost predicate Extends(issued: map<Id, Id>, issued': map<Id, Id>) {
    forall id :: id in issued ==> id in issued' && issued'[id] == issued[id]
  }

  /** One dispatch changes, taking no id of others. */
  lemma PutDispatch(rows: seq<Row>, issued: map<Id, Id>, issued': map<Id, Id>, messages: map<Id, Message>,
                    ds: map<nat, Dispatch>, d: nat, t: Dispatch)
    requires DispatchesOk(rows, issued, messages, ds) && Extends(issued, issued')
             && DispatchOk(rows, issued', messages, t)
    requires forall e :: e in ds && e != d ==> Ids(t) !! Ids(ds[e])
    ensures DispatchesOk(rows, issued', messages, ds[d := t])
  {
    var ds' := ds[d := t];
    forall e | e in ds'
      ensures DispatchOk(rows, issued', messages, ds'[e])
    {
      assert e != d ==> DispatchOk(rows, issued, messages, ds[e]);
    }
  }

  lemma PutHeld(ds: map<nat, Dispatch>, d: nat, t: Dispatch, id: Id)
    requires d in ds ==> Debits(ds[d]) <= Debits(t)
    ensures Held(ds, id) || id in Debits(t) ==> Held(ds[d := t], id)
  {
    if Held(ds, id) {
      var e :| e in ds && id in Debits(ds[e]);
      assert id in Debits(ds[d := t][e]);
    }
    if id in Debits(t) {
      assert id in Debits(ds[d := t][d]);
    }
  }

  /** A dispatch draws, debits or creates: it may add ids, and debits of its own. */
  lemma DispatchMoves(s: State, rows': seq<Row>, issued': map<Id, Id>, d: nat, t: Dispatch)
    requires Inv(s) && LedgerOk(rows') && Keys(s.rows) <= Keys(rows') && Extends(s.issued, issued')
    requires forall id :: Reserved(rows', id) ==> Reserved(s.rows, id) || id in Debits(t)
    requires forall id :: Refunded(rows', id) ==> Refunded(s.rows, id)
    requires DispatchOk(rows', issued', s.messages, t) && Ids(t) !! s.leaked
    requires forall e :: e in s.dispatches && e != d ==> Ids(t) !! Ids(s.dispatches[e])
    requires d in s.dispatches ==> Debits(s.dispatches[d]) <= Debits(t)
    ensures Inv(s.(rows := rows', issued := issued', dispatches := s.dispatches[d := t]))
  {
    RowsGrow(s, rows');
    PutDispatch(rows', s.issued, issued', s.messages, s.dispatches, d, t);
    forall id | Reserved(rows', id)
      ensures id in s.messages || id in s.leaked || Held(s.dispatches[d := t], id)
    {
      PutHeld(s.dispatches, d, t, id);
    }
  }

  /** A worker takes a batch or settles a message of its own. */
  lemma WorkerMoves(s: State, rows': seq<Row>, w: nat, p: Processing)
    requires Inv(s) && LedgerOk(rows') && Keys(s.rows) <= Keys(rows') && WorkerOk(rows', s.messages, p)
    requires forall id :: Reserved(rows', id) ==> Reserved(s.rows, id)
    requires forall id :: Refunded(rows', id) ==> Refunded(s.rows, id) || id in s.messages
    ensures Inv(s.(rows := rows', workers := s.workers[w := p]))
  {
    RowsGrow(s, rows');
    var ws := s.workers[w := p];
    forall v | v in ws
      ensures WorkerOk(rows', s.messages, ws[v])
    {
      assert v != w ==> WorkerOk(rows', s.messages, s.workers[v]);
    }
  }

  lemma CheckKeepsInv(s: State, d: nat, id: Id)
    requires Inv(s) && d in s.dispatches && s.dispatches[d].slot.Idle? && id !in s.issued
    ensures var t := s.dispatches[d];
            Inv(s.(dispatches := s.dispatches[d := t.(slot := Checked(id))], issued := s.issued[id := t.campaign]))
  {
    var t := s.dispatches[d];
    assert DispatchOk(s.rows, s.issued, s.messages, t);
    forall e | e in s.dispatches
      ensures id !in Ids(s.dispatches[e])
    {
      assert DispatchOk(s.rows, s.issued, s.messages, s.dispatches[e]);
    }
    DispatchMoves(s, s.rows, s.issued[id := t.campaign], d, t.(slot := Checked(id)));
  }

  lemma DebitKeepsInv(dir: Directory, event: Id, s: State, d: nat)
    requires Inv(s) && d in s.dispatches && s.dispatches[d].slot.Checked?
    ensures var t := s.dispatches[d];
            Inv(s.(rows := Append(dir, s.rows, OnEvent(event), Reserve, -1, Sms(t.slot.id), None),
                   dispatches := s.dispatches[d := t.(slot := Debited(t.slot.id))]))
  {
    var t := s.dispatches[d];
    var id := t.slot.id;
    assert DispatchOk(s.rows, s.issued, s.messages, t);
    PutOwnRow(dir, event, s.rows, Reserve, -1, Sms(id), None, id);
    DispatchMoves(s, Append(dir, s.rows, OnEvent(event), Reserve, -1, Sms(id), None), s.issued, d,
        t.(slot := Debited(id)));
  }

  lemma CreateKeepsInv(s: State, d: nat)
    requires Inv(s) && d in s.dispatches && s.dispatches[d].slot.Debited?
    ensures var t := s.dispatches[d];
            Inv(s.(dispatches := s.dispatches[d := t.(slot := Idle, buffer := t.buffer + {t.slot.id})]))
  {
    var t := s.dispatches[d];
    assert DispatchOk(s.rows, s.issued, s.messages, t);
    DispatchMoves(s, s.rows, s.issued, d, t.(slot := Idle, buffer := t.buffer + {t.slot.id}));
  }

  /** Dropping a dispatch: its debited ids must end up as messages or as leaked. */
  lemma DropPlaces(rows: seq<Row>, messages: map<Id, Message>, ds: map<nat, Dispatch>, leaked: set<Id>, d: nat,
                   messages': map<Id, Message>, leaked': set<Id>)
    requires Placed(rows, messages, ds, leaked) && d in ds && messages.Keys <= messages'.Keys && leaked <= leaked'
    requires forall id :: id in Debits(ds[d]) ==> id in messages' || id in leaked'
    ensures Placed(rows, messages', ds - {d}, leaked')
  {
    forall id | Reserved(rows, id)
      ensures id in messages' || id in leaked' || Held(ds - {d}, id)
    {
      if Held(ds, id) {
        var e :| e in ds && id in Debits(ds[e]);
        assert e != d ==> e in ds - {d};
      }
    }
  }

  /** The other dispatches keep off the dropped one's ids. */
  lemma DropDispatch(s: State, d: nat, messages': map<Id, Message>, leaked': set<Id>)
    requires Inv(s) && d in s.dispatches
    requires forall id :: id in messages' && id !in s.messages ==> id in Ids(s.dispatches[d])
    requires forall id :: id in leaked' && id !in s.leaked ==> id in Ids(s.dispatches[d])
    ensures DispatchesOk(s.rows, s.issued, messages', s.dispatches - {d})
    ensures forall e :: e in s.dispatches - {d} ==> Ids(s.dispatches[e]) !! leaked'
  {
    var t, ds := s.dispatches[d], s.dispatches - {d};
    forall e | e in ds
      ensures DispatchOk(s.rows, s.issued, messages', ds[e]) && Ids(ds[e]) !! leaked'
    {
      assert DispatchOk(s.rows, s.issued, s.messages, s.dispatches[e]) && Ids(t) !! Ids(s.dispatches[e]);
    }
  }

  lemma MessagesGrow(rows: seq<Row>, messages: map<Id, Message>, messages': map<Id, Message>, ws: map<nat, Processing>)
    requires WorkersOk(rows, messages, ws)
    requires forall id :: id in messages ==> id in messages' && messages'[id].campaign == messages[id].campaign
    ensures WorkersOk(rows, messages', ws)
  {
    forall w | w in ws
      ensures WorkerOk(rows, messages', ws[w])
    {
      assert WorkerOk(rows, messages, ws[w]);
    }
  }

  lemma CommitDispatchKeepsInv(s: State, d: nat)
    requires Inv(s) && d in s.dispatches && s.dispatches[d].slot.Idle?
    ensures var t := s.dispatches[d];
            Inv(s.(messages := s.messages + NewMessages(t), dispatches := s.dispatches - {d}))
  {
    var t := s.dispatches[d];
    var messages' := s.messages + NewMessages(t);
    assert DispatchOk(s.rows, s.issued, s.messages, t) && Ids(t) == Debits(t) == t.buffer && Ids(t) !! s.leaked;
    assert messages'.Keys == s.messages.Keys + t.buffer;
    DropDispatch(s, d, messages', s.leaked);
    DropPlaces(s.rows, s.messages, s.dispatches, s.leaked, d, messages', s.leaked);
    MessagesGrow(s.rows, s.messages, messages', s.workers);
  }

  lemma AbortDispatchKeepsInv(dir: Directory, event: Id, s: State, d: nat)
    requires Inv(s) && d in s.dispatches
    ensures Inv(Next(dir, event, s, AbortDispatch(d)))
  {
    var leaked' := s.leaked + Debits(s.dispatches[d]);
    assert DispatchOk(s.rows, s.issued, s.messages, s.dispatches[d]);
    DropDispatch(s, d, s.messages, leaked');
    DropPlaces(s.rows, s.messages, s.dispatches, s.leaked, d, s.messages, leaked');
  }

  lemma PutSettledRow(dir: Directory, event: Id, rows: seq<Row>, id: Id, delivered: bool)
    requires LedgerOk(rows) && Reserved(rows, id)
    ensures var rows' := SettledRows(dir, event, rows, id, delivered);
            && LedgerOk(rows') && Keys(rows) <= Keys(rows')
            && (if delivered then Committed(rows', id) else Refunded(rows', id))
            && (forall i :: Reserved(rows', i) ==> Reserved(rows, i))
            && (forall i :: Refunded(rows', i) ==> Refunded(rows, i) || i == id)
  {
    if delivered {
      PutOwnRow(dir, event, rows, Commit, 0, CommitOf(Sms(id)), Some(Sms(id)), id);
    } else {
      PutOwnRow(dir, event, rows, Refund, 1, RefundOf(Sms(id)), Some(Sms(id)), id);
    }
  }

  lemma SettledIsOk(rows: seq<Row>, rows': seq<Row>, messages: map<Id, Message>, p: Processing, id: Id, delivered: bool)
    requires WorkerOk(rows, messages, p) && id in p.todo && Keys(rows) <= Keys(rows')
    requires if delivered then Committed(rows', id) else Refunded(rows', id)
    ensures WorkerOk(rows', messages, SettledBatch(p, id, delivered))
  {
  }

  lemma InBatch(s: State, w: nat, id: Id)
    requires Inv(s) && w in s.workers && id in s.workers[w].todo
    ensures WorkerOk(s.rows, s.messages, s.workers[w]) && id in s.messages && Reserved(s.rows, id)
  {
  }

  lemma SettleKeepsInv(dir: Directory, event: Id, s: State, w: nat, id: Id, delivered: bool)
    requires Inv(s) && w in s.workers && id in s.workers[w].todo
    ensures Inv(s.(rows := SettledRows(dir, event, s.rows, id, delivered),
                   workers := s.workers[w := SettledBatch(s.workers[w], id, delivered)]))
  {
    var rows' := SettledRows(dir, event, s.rows, id, delivered);
    InBatch(s, w, id);
    PutSettledRow(dir, event, s.rows, id, delivered);
    SettledIsOk(s.rows, rows', s.messages, s.workers[w], id, delivered);
    WorkerMoves(s, rows', w, SettledBatch(s.workers[w], id, delivered));
  }

  lemma CommitWorkerKeepsInv(s: State, w: nat)
    requires Inv(s) && w in s.workers
    ensures Inv(s.(messages := Applied(s.messages, s.workers[w]), workers := s.workers - {w}))
  {
    var messages' := Applied(s.messages, s.workers[w]);
    assert WorkerOk(s.rows, s.messages, s.workers[w]) && messages'.Keys == s.messages.Keys;
    forall d | d in s.dispatches
      ensures DispatchOk(s.rows, s.issued, messages', s.dispatches[d])
    {
      assert DispatchOk(s.rows, s.issued, s.messages, s.dispatches[d]);
    }
    MessagesGrow(s.rows, s.messages, messages', s.workers);
  }

  lemma OtherWriteKeepsInv(s: State, row: Row)
    requires Inv(s) && Foreign(row)
    ensures Inv(s.(rows := s.rows + [row]))
  {
    ForeignRowKeepsLedger(s.rows, row);
    KeysAppend(s.rows, row);
    RowsGrow(s, s.rows + [row]);
  }

  lemma DispatchStepKeepsInv(dir: Directory, event: Id, s: State, step: Step)
    requires Inv(s) && Next(dir, event, s, step) != s
    requires step.OpenDispatch? || step.CheckCredit? || step.DebitCredit? || step.CreateMessage?
             || step.CommitDispatch? || step.AbortDispatch?
    ensures Inv(Next(dir, event, s, step))
  {
    match step
    case OpenDispatch(d, c) => DispatchMoves(s, s.rows, s.issued, d, Dispatch(c, {}, Idle));
    case CheckCredit(d, id) => CheckKeepsInv(s, d, id);
    case DebitCredit(d) => DebitKeepsInv(dir, event, s, d);
    case CreateMessage(d) => CreateKeepsInv(s, d);
    case CommitDispatch(d) => CommitDispatchKeepsInv(s, d);
    case AbortDispatch(d) => AbortDispatchKeepsInv(dir, event, s, d);
  }

  lemma WorkerStepKeepsInv(dir: Directory, event: Id, s: State, step: Step)
    requires Inv(s) && Next(dir, event, s, step) != s
    requires step.Snapshot? || step.Settle? || step.CommitWorker? || step.AbortWorker? || step.OtherWrite?
    ensures Inv(Next(dir, event, s, step))
  {
    match step
    case Snapshot(w, c) => WorkerMoves(s, s.rows, w, Processing(c, QueuedOf(s.messages, c), {}, {}));
    case Settle(w, id, delivered) => SettleKeepsInv(dir, event, s, w, id, delivered);
    case CommitWorker(w) => CommitWorkerKeepsInv(s, w);
    case AbortWorker(_) =>
    case OtherWrite(row) => OtherWriteKeepsInv(s, row);
  }

  lemma NextKeepsInv(dir: Directory, event: Id, s: State, step: Step)
    requires Inv(s)
    ensures Inv(Next(dir, event, s, step))
  {
    if Next(dir, event, s, step) != s {
      if step.Snapshot? || step.Settle? || step.CommitWorker? || step.AbortWorker? || step.OtherWrite? {
        WorkerStepKeepsInv(dir, event, s, step);
      } else {
        DispatchStepKeepsInv(dir, event, s, step);
      }
    }
  }

  lemma {:induction false} RunKeepsInv(dir: Directory, event: Id, s: State, steps: seq<Step>)
    requires Inv(s)
    ensures Inv(Run(dir, event, s, steps))
    decreases |steps|
  {
    if steps != [] {
      NextKeepsInv(dir, event, s, steps[0]);
      RunKeepsInv(dir, event, Next(dir, event, s, steps[0]), steps[1..]);
    }
  }

  lemma {:induction false} ForeignRowsOnly(rows: seq<Row>)
    requires forall i :: 0 <= i < |rows| ==> Foreign(rows[i])
    ensures LedgerOk(rows) && forall id :: !Reserved(rows, id)
  {
    if rows != [] {
      var n := |rows| - 1;
      ForeignRowsOnly(rows[..n]);
      ForeignRowKeepsLedger(rows[..n], rows[n]);
      assert rows == rows[..n] + [rows[n]];
      KeysAppend(rows[..n], rows[n]);
      forall id
        ensures !Reserved(rows, id)
      {
        assert !Reserved(rows[..n], id);
      }
    }
  }

  lemma InitialInv(s: State)
    requires Initial(s)
    ensures Inv(s)
  {
    ForeignRowsOnly(s.rows);
    forall id
      ensures !Refunded(s.rows, id)
    {
      assert KeyOk(s.rows, id) && !Reserved(s.rows, id);
    }
  }

  /** Over every run, whatever aborts and however often a campaign is redelivered: every reserve key is
      charged 0 or 1 credit, every SENT message has its COMMIT row, every FAILED one its REFUND row. */
  lemma EveryChargeIsZeroOrOne(dir: Directory, event: Id, s: State, steps: seq<Step>, id: Id)
    requires Initial(s)
    ensures var end := Run(dir, event, s, steps);
            && 0 <= Charge(end.rows, id) <= 1
            && (id in end.messages ==> Reserved(end.rows, id))
            && (id in end.messages && end.messages[id].status == Sent ==> Committed(end.rows, id))
            && (id in end.messages && end.messages[id].status == Failed ==> Refunded(end.rows, id))
  {
    InitialInv(s);
    RunKeepsInv(dir, event, s, steps);
    assert KeyOk(Run(dir, event, s, steps).rows, id);
  }
}
