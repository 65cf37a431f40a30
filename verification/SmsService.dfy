/** The dispatch and processing loops run alone: who gets queued, what it costs, what a batch settles. */
module SmsSending {
  import opened Prelude
  import opened CreditLedger
  import opened SmsCampaigns

  datatype Recipient = Recipient(person: Id, phone: string)

  datatype MessageRow = MessageRow(id: Id, campaign: Id, person: Id, phone: string, status: MessageStatus)

  datatype CampaignStatus = CampaignSending | CampaignSent | CampaignPartial | CampaignFailed

  datatype Campaign = Campaign(status: CampaignStatus, recipientCount: nat)

  function QueuedRow(id: Id, campaign: Id, r: Recipient): MessageRow {
    MessageRow(id, campaign, r.person, r.phone, Queued)
  }

  function FirstRows(campaign: Id, recipients: seq<Recipient>, ids: seq<Id>, n: nat): seq<MessageRow>
    requires n <= |recipients| == |ids|
  {
    seq(n, i requires 0 <= i < n => QueuedRow(ids[i], campaign, recipients[i]))
  }

  /** The ledger after one reserve for each of the first `n` messages. */
  ghost function RowsReserved(dir: Directory, event: Id, rows: seq<Row>, ids: seq<Id>, n: nat): seq<Row>
    requires n <= |ids|
  {
    if n == 0 then rows
    else Append(dir, RowsReserved(dir, event, rows, ids, n - 1), OnEvent(event), Reserve, -1, Sms(ids[n - 1]), None)
  }

  ghost predicate FreshIds(rows: seq<Row>, ids: seq<Id>) {
    && (forall i, j :: 0 <= i < j < |ids| ==> ids[i] != ids[j])
    && (forall i :: 0 <= i < |ids| ==> !HasKey(rows, Sms(ids[i])))
  }

  /** Exactly theirs are the keys taken. */
  lemma {:induction false} ReservesTake(dir: Directory, event: Id, rows: seq<Row>, ids: seq<Id>, n: nat, i: nat)
    requires n <= |ids| && i < |ids| && FreshIds(rows, ids)
    ensures HasKey(RowsReserved(dir, event, rows, ids, n), Sms(ids[i])) <==> i < n
  {
    if n > 0 {
      ReservesTake(dir, event, rows, ids, n - 1, i);
      AppendKeys(dir, RowsReserved(dir, event, rows, ids, n - 1), OnEvent(event), Reserve, -1, Sms(ids[n - 1]), None);
    }
  }

  /** Each of them takes a credit. */
  lemma {:induction false} ReservesCost(dir: Directory, event: Id, rows: seq<Row>, ids: seq<Id>, n: nat)
    requires n <= |ids| && FreshIds(rows, ids)
    ensures BalanceOf(dir, RowsReserved(dir, event, rows, ids, n), OnEvent(event))
            == BalanceOf(dir, rows, OnEvent(event)) - n
  {
    if n > 0 {
      ReservesCost(dir, event, rows, ids, n - 1);
      ReservesTake(dir, event, rows, ids, n - 1, n - 1);
      AppendMovesOwnBalance(dir, RowsReserved(dir, event, rows, ids, n - 1), OnEvent(event), Reserve, -1,
                            Sms(ids[n - 1]), None);
    }
  }

  /** Positions of the campaign's QUEUED messages, in table order. */
  function QueuedAt(messages: seq<MessageRow>, campaign: Id): (p: seq<nat>)
    ensures forall j, k :: 0 <= j < k < |p| ==> p[j] < p[k]
    ensures forall j :: 0 <= j < |p| ==> p[j] < |messages|
    ensures forall i :: 0 <= i < |messages| ==>
              (i in p <==> messages[i].campaign == campaign && messages[i].status == Queued)
  {
    if messages == [] then [] else
    var n := |messages| - 1;
    var init := QueuedAt(messages[..n], campaign);
    assert forall i :: 0 <= i < n ==> messages[..n][i] == messages[i];
    if messages[n].campaign == campaign && messages[n].status == Queued then init + [n] else init
  }

  /** The provider's answer for the j-th request; a missing answer counts as a rejection. */
  predicate Delivered(results: seq<bool>, j: nat) { j < |results| && results[j] }

  ghost function Rejected(results: seq<bool>, n: nat): nat {
    if n == 0 then 0 else Rejected(results, n - 1) + if Delivered(results, n - 1) then 0 else 1
  }

  class SmsService {
    const billing: BillingService
    const event: Id
    var messages: seq<MessageRow>
    var campaigns: map<Id, Campaign>
    var outbox: seq<Id>

    constructor (billing: BillingService, event: Id)
      ensures this.billing == billing && this.event == event
      ensures messages == [] && campaigns == map[] && outbox == []
    {
      this.billing, this.event := billing, event;
      messages, campaigns, outbox := [], map[], [];
    }

    ghost function Credits(): int
      reads this, billing
    {
      BalanceOf(billing.dir, billing.rows, OnEvent(event))
    }

    method PreviewReminders(recipients: seq<Recipient>) returns (affordable: int)
      ensures affordable == Min(|recipients|, Credits())
    {
      var balance := billing.ReadBalance(OnEvent(event));
      affordable := Min(|recipients|, balance);
    }

    /** The next message's credit, if the pool has one. */
    method ReserveNext(ids: seq<Id>, n: nat, ghost rows: seq<Row>) returns (ok: bool)
      requires n < |ids| && billing.rows == RowsReserved(billing.dir, event, rows, ids, n)
      modifies billing
      ensures ok <==> 1 <= old(Credits())
      ensures billing.rows == RowsReserved(billing.dir, event, rows, ids, if ok then n + 1 else n)
    {
      var reserved, _ := billing.ReserveCredits(OnEvent(event), 1, Sms(ids[n]));
      return reserved;
    }

    /** The loop over the recipients, up to the first the pool cannot pay. */
    method QueueMessages(campaign: Id, recipients: seq<Recipient>, ids: seq<Id>) returns (queued: nat)
      requires |ids| == |recipients|
      requires FreshIds(billing.rows, ids)
      modifies this`messages, billing
      ensures queued == Min(|recipients|, Max(0, old(Credits())))
      ensures messages == old(messages) + FirstRows(campaign, recipients, ids, queued)
      ensures billing.rows == RowsReserved(billing.dir, event, old(billing.rows), ids, queued)
    {
      queued := 0;
      ghost var rows := billing.rows;
      while queued < |recipients|
        invariant queued <= |recipients| && queued <= Max(0, old(Credits()))
        invariant messages == old(messages) + FirstRows(campaign, recipients, ids, queued)
        invariant billing.rows == RowsReserved(billing.dir, event, rows, ids, queued)
      {
        ReservesCost(billing.dir, event, rows, ids, queued);
        var ok := ReserveNext(ids, queued, rows);
        if !ok {
          break;
        }
        messages := messages + [QueuedRow(ids[queued], campaign, recipients[queued])];
        queued := queued + 1;
      }
    }

    /** With no other activity on the pool: exactly the first recipients the balance covers are queued, in
        order, one credit each. This agrees with the preview's `affordable` if and only if the balance is not
        negative. Message ids are fresh UUIDs. */
    method SendCampaign(campaign: Id, recipients: seq<Recipient>, ids: seq<Id>) returns (queued: nat, skipped: nat)
      requires |ids| == |recipients|
      requires forall i, j :: 0 <= i < j < |ids| ==> ids[i] != ids[j]
      requires forall i :: 0 <= i < |ids| ==> !HasKey(billing.rows, Sms(ids[i]))
      modifies this, billing
      ensures queued == Min(|recipients|, Max(0, old(Credits()))) && skipped == |recipients| - queued
      ensures queued == Min(|recipients|, old(Credits())) <==> old(Credits()) >= 0
      ensures messages == old(messages) + FirstRows(campaign, recipients, ids, queued)
      ensures forall i :: 0 <= i < queued ==>
                messages[|old(messages)| + i]
                == MessageRow(ids[i], campaign, recipients[i].person, recipients[i].phone, Queued)
      ensures billing.rows == RowsReserved(billing.dir, event, old(billing.rows), ids, queued)
      ensures Credits() == old(Credits()) - queued
      ensures forall i :: 0 <= i < |ids| ==> (HasKey(billing.rows, Sms(ids[i])) <==> i < queued)
      ensures campaigns == old(campaigns)[campaign :=
                Campaign(if queued > 0 then CampaignSending else CampaignFailed, queued)]
      ensures outbox == if queued > 0 then old(outbox) + [campaign] else old(outbox)
    {
      ghost var rows := billing.rows;
      queued := QueueMessages(campaign, recipients, ids);
      ReservesCost(billing.dir, event, rows, ids, queued);
      campaigns := campaigns[campaign := Campaign(if queued > 0 then CampaignSending else CampaignFailed, queued)];
      if queued > 0 {
        outbox := outbox + [campaign];
      }
      skipped := |recipients| - queued;
      forall i | 0 <= i < |ids|
        ensures HasKey(billing.rows, Sms(ids[i])) <==> i < queued
      {
        ReservesTake(billing.dir, event, rows, ids, queued, i);
      }
    }

    /** One delivery of the campaign, run alone: exactly its QUEUED messages are settled, each by its own
        answer, with a COMMIT row for every SENT and a REFUND row for every FAILED one; a redelivery finds
        nothing queued and changes nothing. */
    method ProcessCampaign(campaign: Id, results: seq<bool>) returns (sent: nat, failed: nat)
      requires campaign in campaigns
      modifies this, billing
      ensures var p := QueuedAt(old(messages), campaign);
              && failed == Rejected(results, |p|) && sent + failed == |p|
              && SettledTo(old(messages), messages, p, results, |p|)
              && Billed(old(messages), p, results, |p|, billing.rows)
              && messages == MessagesAfter(old(messages), p, results, |p|)
              && billing.rows == RowsAfter(billing.dir, event, old(billing.rows), old(messages), p, results, |p|)
              && failed == |set k | 0 <= k < |p| && !(k < |results| && results[k])|
      ensures forall i :: 0 <= i < |messages| ==> !(messages[i].campaign == campaign && messages[i].status == Queued)
      ensures QueuedAt(old(messages), campaign) == [] ==>
                messages == old(messages) && campaigns == old(campaigns) && billing.rows == old(billing.rows)
      ensures QueuedAt(old(messages), campaign) != [] ==>
                campaigns == old(campaigns)[campaign := old(campaigns)[campaign].(status :=
                  if failed == 0 then CampaignSent else if sent == 0 then CampaignFailed else CampaignPartial)]
      ensures Keys(old(billing.rows)) <= Keys(billing.rows) && outbox == old(outbox)
      ensures Credits() <= old(Credits()) + failed
      ensures FreshRefunds(old(messages), QueuedAt(old(messages), campaign), old(billing.rows)) ==>
                Credits() == old(Credits()) + failed
    {
      sent, failed := 0, 0;
      var pending := QueuedAt(messages, campaign);
      if pending == [] {
        return;
      }
      ghost var m0, r0 := messages, billing.rows;
      sent, failed := SettleBatch(pending, results);
      campaigns := campaigns[campaign := campaigns[campaign].(status :=
        if failed == 0 then CampaignSent else if sent == 0 then CampaignFailed else CampaignPartial)];
      NothingLeftQueued(m0, campaign, results);
      RejectedCounts(results, |pending|);
      BatchCosts(billing.dir, event, r0, m0, pending, results);
    }

    /** The settling loop. */
    method SettleBatch(pending: seq<nat>, results: seq<bool>) returns (sent: nat, failed: nat)
      requires Pending(messages, pending)
      modifies this`messages, billing
      ensures sent + failed == |pending| && failed == Rejected(results, |pending|)
      ensures messages == MessagesAfter(old(messages), pending, results, |pending|)
      ensures billing.rows
              == RowsAfter(billing.dir, event, old(billing.rows), old(messages), pending, results, |pending|)
    {
      sent, failed := 0, 0;
      ghost var m0, r0 := messages, billing.rows;
      var j := 0;
      while j < |pending|
        invariant j <= |pending| && sent + failed == j && failed == Rejected(results, j)
        invariant |messages| == |m0| && messages == MessagesAfter(m0, pending, results, j)
        invariant billing.rows == RowsAfter(billing.dir, event, r0, m0, pending, results, j)
      {
        UntouchedYet(m0, pending, results, j);
        if Delivered(results, j) {
          messages := messages[pending[j] := messages[pending[j]].(status := Sent)];
          billing.CommitReserve(OnEvent(event), Sms(messages[pending[j]].id));
          sent := sent + 1;
        } else {
          messages := messages[pending[j] := messages[pending[j]].(status := Failed)];
          billing.RefundReserve(OnEvent(event), 1, Sms(messages[pending[j]].id));
          failed := failed + 1;
        }
        j := j + 1;
      }
    }
  }

  lemma {:induction false} RejectedCounts(results: seq<bool>, n: nat)
    ensures Rejected(results, n) == |set k | 0 <= k < n && !(k < |results| && results[k])|
  {
    var now := set k | 0 <= k < n && !(k < |results| && results[k]);
    if n > 0 {
      RejectedCounts(results, n - 1);
      var before := set k | 0 <= k < n - 1 && !(k < |results| && results[k]);
      assert now == if n - 1 < |results| && results[n - 1] then before else before + {n - 1};
    } else {
      assert now == {};
    }
  }

  ghost predicate Pending(m0: seq<MessageRow>, pending: seq<nat>) {
    && (forall k :: 0 <= k < |pending| ==> pending[k] < |m0|)
    && (forall k, l :: 0 <= k < l < |pending| ==> pending[k] < pending[l])
  }

  /** The message table after the first `j` pending messages. */
  ghost function MessagesAfter(m0: seq<MessageRow>, pending: seq<nat>, results: seq<bool>, j: nat): (m: seq<MessageRow>)
    requires j <= |pending| && Pending(m0, pending)
    ensures |m| == |m0|
  {
    if j == 0 then m0 else
    var m, i := MessagesAfter(m0, pending, results, j - 1), pending[j - 1];
    m[i := m[i].(status := if Delivered(results, j - 1) then Sent else Failed)]
  }

  lemma OneRow(dir: Directory, event: Id, rows: seq<Row>, id: Id, delivered: bool)
    ensures Keys(SettledRows(dir, event, rows, id, delivered))
            == Keys(rows) + {if delivered then CommitOf(Sms(id)) else RefundOf(Sms(id))}
    ensures BalanceOf(dir, SettledRows(dir, event, rows, id, delivered), OnEvent(event))
            == BalanceOf(dir, rows, OnEvent(event)) + if delivered || Refunded(rows, id) then 0 else 1
  {
    AppendKeys(dir, rows, OnEvent(event), Commit, 0, CommitOf(Sms(id)), Some(Sms(id)));
    AppendKeys(dir, rows, OnEvent(event), Refund, 1, RefundOf(Sms(id)), Some(Sms(id)));
    AppendMovesOwnBalance(dir, rows, OnEvent(event), Commit, 0, CommitOf(Sms(id)), Some(Sms(id)));
    AppendMovesOwnBalance(dir, rows, OnEvent(event), Refund, 1, RefundOf(Sms(id)), Some(Sms(id)));
  }

  /** The ledger after the first `j` pending messages. */
  ghost function RowsAfter(dir: Directory, event: Id, r0: seq<Row>, m0: seq<MessageRow>, pending: seq<nat>,
                           results: seq<bool>, j: nat): seq<Row>
    requires j <= |pending| && Pending(m0, pending)
  {
    if j == 0 then r0 else
    SettledRows(dir, event, RowsAfter(dir, event, r0, m0, pending, results, j - 1), m0[pending[j - 1]].id,
             Delivered(results, j - 1))
  }

  lemma UntouchedYet(m0: seq<MessageRow>, pending: seq<nat>, results: seq<bool>, j: nat)
    requires j < |pending| && Pending(m0, pending)
    ensures MessagesAfter(m0, pending, results, j)[pending[j]] == m0[pending[j]]
  {
    BatchSettles(m0, pending, results, j);
    assert pending[j] !in pending[..j];
  }

  lemma {:induction false} BatchSettles(m0: seq<MessageRow>, pending: seq<nat>, results: seq<bool>, j: nat)
    requires j <= |pending| && Pending(m0, pending)
    ensures SettledTo(m0, MessagesAfter(m0, pending, results, j), pending, results, j)
  {
    if j > 0 {
      var m, i := MessagesAfter(m0, pending, results, j - 1), pending[j - 1];
      BatchSettles(m0, pending, results, j - 1);
      SettledNext(m0, m, pending, results, j - 1);
      assert MessagesAfter(m0, pending, results, j)
             == m[i := m[i].(status := if Delivered(results, j - 1) then Sent else Failed)];
    }
  }

  lemma {:induction false} BatchBills(dir: Directory, event: Id, r0: seq<Row>, m0: seq<MessageRow>, pending: seq<nat>,
                                      results: seq<bool>, j: nat)
    requires j <= |pending| && Pending(m0, pending)
    ensures var rows := RowsAfter(dir, event, r0, m0, pending, results, j);
            Keys(r0) <= Keys(rows) && Billed(m0, pending, results, j, rows)
  {
    if j > 0 {
      var rows, id := RowsAfter(dir, event, r0, m0, pending, results, j - 1), m0[pending[j - 1]].id;
      var rows' := SettledRows(dir, event, rows, id, Delivered(results, j - 1));
      BatchBills(dir, event, r0, m0, pending, results, j - 1);
      OneRow(dir, event, rows, id, Delivered(results, j - 1));
      BilledNext(m0, pending, results, j - 1, rows, rows');
      assert RowsAfter(dir, event, r0, m0, pending, results, j) == rows';
    }
  }

  lemma BilledNext(m0: seq<MessageRow>, pending: seq<nat>, results: seq<bool>, j: nat, rows: seq<Row>, rows': seq<Row>)
    requires j < |pending| && Pending(m0, pending) && Billed(m0, pending, results, j, rows)
    requires var k := Sms(m0[pending[j]].id);
             Keys(rows') == Keys(rows) + {if Delivered(results, j) then CommitOf(k) else RefundOf(k)}
    ensures Billed(m0, pending, results, j + 1, rows')
  {
  }

  lemma {:induction false} BatchRefundsAtMost(dir: Directory, event: Id, r0: seq<Row>, m0: seq<MessageRow>,
                                              pending: seq<nat>, results: seq<bool>, j: nat)
    requires j <= |pending| && Pending(m0, pending)
    ensures BalanceOf(dir, RowsAfter(dir, event, r0, m0, pending, results, j), OnEvent(event))
            <= BalanceOf(dir, r0, OnEvent(event)) + Rejected(results, j)
  {
    if j > 0 {
      BatchRefundsAtMost(dir, event, r0, m0, pending, results, j - 1);
      OneRow(dir, event, RowsAfter(dir, event, r0, m0, pending, results, j - 1), m0[pending[j - 1]].id,
             Delivered(results, j - 1));
    }
  }

  lemma {:induction false} FreshBatchRefunds(dir: Directory, event: Id, r0: seq<Row>, m0: seq<MessageRow>,
                                             pending: seq<nat>, results: seq<bool>, j: nat)
    requires j <= |pending| && Pending(m0, pending) && FreshRefunds(m0, pending, r0)
    ensures var rows := RowsAfter(dir, event, r0, m0, pending, results, j);
            && BalanceOf(dir, rows, OnEvent(event)) == BalanceOf(dir, r0, OnEvent(event)) + Rejected(results, j)
            && Rejected(results, j) == |set k | 0 <= k < j && !(k < |results| && results[k])|
            && forall k :: j <= k < |pending| ==> !Refunded(rows, m0[pending[k]].id)
  {
    RejectedCounts(results, j);
    if j > 0 {
      FreshBatchRefunds(dir, event, r0, m0, pending, results, j - 1);
      OneRow(dir, event, RowsAfter(dir, event, r0, m0, pending, results, j - 1), m0[pending[j - 1]].id,
             Delivered(results, j - 1));
    }
  }

  lemma BatchCosts(dir: Directory, event: Id, r0: seq<Row>, m0: seq<MessageRow>, pending: seq<nat>, results: seq<bool>)
    requires Pending(m0, pending)
    ensures var rows := RowsAfter(dir, event, r0, m0, pending, results, |pending|);
            var b, b0 := BalanceOf(dir, rows, OnEvent(event)), BalanceOf(dir, r0, OnEvent(event));
            && Keys(r0) <= Keys(rows) && Billed(m0, pending, results, |pending|, rows)
            && b <= b0 + Rejected(results, |pending|)
            && (FreshRefunds(m0, pending, r0) ==> b == b0 + Rejected(results, |pending|))
  {
    BatchBills(dir, event, r0, m0, pending, results, |pending|);
    BatchRefundsAtMost(dir, event, r0, m0, pending, results, |pending|);
    if FreshRefunds(m0, pending, r0) {
      FreshBatchRefunds(dir, event, r0, m0, pending, results, |pending|);
    }
  }

  /** Of the first `j` pending messages the k-th is SENT when the provider's k-th answer is there and positive, and
      FAILED otherwise; everything else is as it was. */
  ghost predicate SettledTo(m0: seq<MessageRow>, m: seq<MessageRow>, pending: seq<nat>, results: seq<bool>, j: nat)
    requires j <= |pending| && forall k :: 0 <= k < |pending| ==> pending[k] < |m0|
  {
    && |m| == |m0|
    && (forall i :: 0 <= i < |m| && i !in pending[..j] ==> m[i] == m0[i])
    && (forall k :: 0 <= k < j ==>
          m[pending[k]] == m0[pending[k]].(status := if k < |results| && results[k] then Sent else Failed))
  }

  /** The k-th of the first `j` has its COMMIT row when the provider's k-th answer is there and positive, and its REFUND
      row otherwise. */
  ghost predicate Billed(m0: seq<MessageRow>, pending: seq<nat>, results: seq<bool>, j: nat, rows: seq<Row>)
    requires j <= |pending| && forall k :: 0 <= k < |pending| ==> pending[k] < |m0|
  {
    forall k :: 0 <= k < j ==>
      if k < |results| && results[k] then HasKey(rows, CommitOf(Sms(m0[pending[k]].id)))
      else HasKey(rows, RefundOf(Sms(m0[pending[k]].id)))
  }

  /** The pending messages are distinct and none of them has been refunded yet. */
  ghost predicate FreshRefunds(m0: seq<MessageRow>, pending: seq<nat>, rows: seq<Row>)
    requires Pending(m0, pending)
  {
    && (forall j :: 0 <= j < |pending| ==> !Refunded(rows, m0[pending[j]].id))
    && (forall j, k :: 0 <= j < k < |pending| ==> m0[pending[j]].id != m0[pending[k]].id)
  }

  lemma SettledNext(m0: seq<MessageRow>, m: seq<MessageRow>, pending: seq<nat>, results: seq<bool>, j: nat)
    requires j < |pending| && forall k :: 0 <= k < |pending| ==> pending[k] < |m0|
    requires forall k, l :: 0 <= k < l < |pending| ==> pending[k] < pending[l]
    requires SettledTo(m0, m, pending, results, j)
    ensures m[pending[j]] == m0[pending[j]]
    ensures SettledTo(m0, m[pending[j] := m[pending[j]].(status := if Delivered(results, j) then Sent else Failed)],
                      pending, results, j + 1)
  {
    assert pending[j] !in pending[..j];
    assert pending[..j + 1] == pending[..j] + [pending[j]];
  }

  lemma NothingLeftQueued(m0: seq<MessageRow>, campaign: Id, results: seq<bool>)
    ensures var p := QueuedAt(m0, campaign);
            var m := MessagesAfter(m0, p, results, |p|);
            && SettledTo(m0, m, p, results, |p|)
            && forall i :: 0 <= i < |m| ==> !(m[i].campaign == campaign && m[i].status == Queued)
  {
    var p := QueuedAt(m0, campaign);
    var m := MessagesAfter(m0, p, results, |p|);
    BatchSettles(m0, p, results, |p|);
    assert p[..|p|] == p;
    forall i | 0 <= i < |m|
      ensures !(m[i].campaign == campaign && m[i].status == Queued)
    {
      if i in p {
        var k :| 0 <= k < |p| && p[k] == i;
        assert m[p[k]] == m0[p[k]].(status := if Delivered(results, k) then Sent else Failed);
      }
    }
  }
}
