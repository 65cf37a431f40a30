/** The dispatch and processing loops, run without interruption, are runs of the concurrent messages and credits. */
module SmsRefinement {
  import opened Prelude
  import opened CreditLedger
  import opened SmsCampaigns
  import opened SmsSending

  lemma {:induction false} RunConcat(dir: Directory, event: Id, s: State, a: seq<Step>, b: seq<Step>)
    ensures Run(dir, event, s, a + b) == Run(dir, event, Run(dir, event, s, a), b)
    decreases |a|
  {
    if a == [] {
      assert a + b == b;
    } else {
      assert (a + b)[1..] == a[1..] + b;
      RunConcat(dir, event, Next(dir, event, s, a[0]), a[1..], b);
    }
  }

  lemma RunOne(dir: Directory, event: Id, s: State, step: Step)
    ensures Run(dir, event, s, [step]) == Next(dir, event, s, step)
  {
    assert [step][1..] == [];
  }

  // ---- Dispatch ---------------------------------------------------------------------------

  /** Check, debit and create for one message. */
  function SendOne(d: nat, id: Id): seq<Step> { [CheckCredit(d, id), DebitCredit(d), CreateMessage(d)] }

  /** The loop over the first n recipients. */
  function SendLoop(d: nat, ids: seq<Id>, n: nat): seq<Step>
    requires n <= |ids|
  {
    if n == 0 then [] else SendLoop(d, ids, n - 1) + SendOne(d, ids[n - 1])
  }

  ghost function Funds(dir: Directory, event: Id, s: State): int { BalanceOf(dir, s.rows, OnEvent(event)) }

  lemma RunsThree(dir: Directory, event: Id, s: State, a: Step, b: Step, c: Step)
    ensures Run(dir, event, s, [a, b, c]) == Next(dir, event, Next(dir, event, Next(dir, event, s, a), b), c)
  {
    assert [a, b, c] == [a] + ([b] + [c]);
    RunConcat(dir, event, s, [a], [b] + [c]);
    RunConcat(dir, event, Next(dir, event, s, a), [b], [c]);
    RunOne(dir, event, s, a);
    RunOne(dir, event, Next(dir, event, s, a), b);
    RunOne(dir, event, Next(dir, event, Next(dir, event, s, a), b), c);
  }

  /** Without a credit left nothing happens. */
  lemma SendsNothing(dir: Directory, event: Id, s: State, d: nat, id: Id)
    requires d in s.dispatches && s.dispatches[d].slot.Idle? && Funds(dir, event, s) < 1
    ensures Run(dir, event, s, SendOne(d, id)) == s
  {
    RunsThree(dir, event, s, CheckCredit(d, id), DebitCredit(d), CreateMessage(d));
  }

  lemma SendsOne(dir: Directory, event: Id, s: State, d: nat, id: Id)
    requires d in s.dispatches && s.dispatches[d].slot.Idle? && id !in s.issued && Funds(dir, event, s) >= 1
    ensures var t := s.dispatches[d];
            Run(dir, event, s, SendOne(d, id))
            == s.(rows := Append(dir, s.rows, OnEvent(event), Reserve, -1, Sms(id), None),
                  issued := s.issued[id := t.campaign],
                  dispatches := s.dispatches[d := t.(buffer := t.buffer + {id})])
  {
    var t := s.dispatches[d];
    RunsThree(dir, event, s, CheckCredit(d, id), DebitCredit(d), CreateMessage(d));
    var checked := s.(dispatches := s.dispatches[d := t.(slot := Checked(id))], issued := s.issued[id := t.campaign]);
    assert Next(dir, event, s, CheckCredit(d, id)) == checked;
    assert Next(dir, event, checked, DebitCredit(d))
           == checked.(rows := Append(dir, s.rows, OnEvent(event), Reserve, -1, Sms(id), None),
                       dispatches := s.dispatches[d := t.(slot := Debited(id))]);
  }

  function FirstIds(ids: seq<Id>, q: nat): set<Id>
    requires q <= |ids|
  {
    set id | id in ids[..q]
  }

  lemma FirstIdsNext(ids: seq<Id>, q: nat)
    requires q < |ids|
    ensures FirstIds(ids, q + 1) == FirstIds(ids, q) + {ids[q]}
  {
    assert ids[..q + 1] == ids[..q] + [ids[q]];
  }

  /** What the loop of the service has done once q recipients are queued. */
  ghost predicate SentBy(dir: Directory, event: Id, s: State, s': State, d: nat, campaign: Id, ids: seq<Id>, q: nat)
    requires q <= |ids|
  {
    && s'.rows == RowsReserved(dir, event, s.rows, ids, q)
    && s'.messages == s.messages && s'.workers == s.workers && s'.leaked == s.leaked
    && s'.dispatches == s.dispatches[d := Dispatch(campaign, FirstIds(ids, q), Idle)]
    && (forall i :: q <= i < |ids| ==> ids[i] !in s'.issued)
  }

  lemma SendsNext(dir: Directory, event: Id, s: State, m: State, d: nat, campaign: Id, ids: seq<Id>, n: nat)
    requires n < |ids| && FreshIds(s.rows, ids) && SentBy(dir, event, s, m, d, campaign, ids, n)
    requires Funds(dir, event, m) >= 1
    ensures SentBy(dir, event, s, Run(dir, event, m, SendOne(d, ids[n])), d, campaign, ids, n + 1)
  {
    SendsOne(dir, event, m, d, ids[n]);
    FirstIdsNext(ids, n);
  }

  /** How many of n recipients the balance covers. */
  ghost function Covered(dir: Directory, event: Id, s: State, n: nat): nat { Min(n, Max(0, Funds(dir, event, s))) }

  /** One recipient more, sent to if the balance covers one more. */
  lemma SendStep(dir: Directory, event: Id, s: State, m: State, d: nat, campaign: Id, ids: seq<Id>, n: nat)
    requires n < |ids| && FreshIds(s.rows, ids)
    requires SentBy(dir, event, s, m, d, campaign, ids, Covered(dir, event, s, n))
    ensures SentBy(dir, event, s, Run(dir, event, m, SendOne(d, ids[n])), d, campaign, ids,
                   Covered(dir, event, s, n + 1))
  {
    ReservesCost(dir, event, s.rows, ids, Covered(dir, event, s, n));
    if Funds(dir, event, m) >= 1 {
      SendsNext(dir, event, s, m, d, campaign, ids, n);
    } else {
      SendsNothing(dir, event, m, d, ids[n]);
    }
  }

  lemma SendStarts(dir: Directory, event: Id, s: State, d: nat, campaign: Id, ids: seq<Id>)
    requires d !in s.dispatches && forall i :: 0 <= i < |ids| ==> ids[i] !in s.issued
    ensures SentBy(dir, event, s, Next(dir, event, s, OpenDispatch(d, campaign)), d, campaign, ids, 0)
  {
    assert FirstIds(ids, 0) == {};
    assert RowsReserved(dir, event, s.rows, ids, 0) == s.rows;
  }

  lemma LoopNext(dir: Directory, event: Id, begun: State, d: nat, ids: seq<Id>, n: nat)
    requires n < |ids|
    ensures Run(dir, event, begun, SendLoop(d, ids, n + 1))
            == Run(dir, event, Run(dir, event, begun, SendLoop(d, ids, n)), SendOne(d, ids[n]))
  {
    RunConcat(dir, event, begun, SendLoop(d, ids, n), SendOne(d, ids[n]));
  }

  lemma LoopStarts(dir: Directory, event: Id, s: State, begun: State, d: nat, ids: seq<Id>)
    ensures Run(dir, event, begun, SendLoop(d, ids, 0)) == begun && Covered(dir, event, s, 0) == 0
  {
  }

  /** The loop from a dispatch just opened. */
  lemma {:induction false} SendsAll(dir: Directory, event: Id, s: State, begun: State, d: nat, campaign: Id,
                                    ids: seq<Id>, n: nat)
    requires n <= |ids| && FreshIds(s.rows, ids) && SentBy(dir, event, s, begun, d, campaign, ids, 0)
    ensures SentBy(dir, event, s, Run(dir, event, begun, SendLoop(d, ids, n)), d, campaign, ids,
                   Covered(dir, event, s, n))
  {
    if n == 0 {
      LoopStarts(dir, event, s, begun, d, ids);
    } else {
      var m := Run(dir, event, begun, SendLoop(d, ids, n - 1));
      SendsAll(dir, event, s, begun, d, campaign, ids, n - 1);
      SendStep(dir, event, s, m, d, campaign, ids, n - 1);
      LoopNext(dir, event, begun, d, ids, n - 1);
    }
  }

  function DispatchSteps(d: nat, campaign: Id, ids: seq<Id>): seq<Step> {
    [OpenDispatch(d, campaign)] + SendLoop(d, ids, |ids|) + [CommitDispatch(d)]
  }

  lemma DispatchRuns(dir: Directory, event: Id, s: State, d: nat, campaign: Id, ids: seq<Id>)
    ensures var begun := Next(dir, event, s, OpenDispatch(d, campaign));
            Run(dir, event, s, DispatchSteps(d, campaign, ids))
            == Next(dir, event, Run(dir, event, begun, SendLoop(d, ids, |ids|)), CommitDispatch(d))
  {
    var begin, loop, commit := OpenDispatch(d, campaign), SendLoop(d, ids, |ids|), CommitDispatch(d);
    assert DispatchSteps(d, campaign, ids) == [begin] + (loop + [commit]);
    RunConcat(dir, event, s, [begin], loop + [commit]);
    RunOne(dir, event, s, begin);
    RunConcat(dir, event, Next(dir, event, s, begin), loop, [commit]);
    RunOne(dir, event, Run(dir, event, Next(dir, event, s, begin), loop), commit);
  }

  lemma CommitSends(dir: Directory, event: Id, s: State, m: State, d: nat, campaign: Id, ids: seq<Id>, q: nat)
    requires q <= |ids| && d !in s.dispatches && SentBy(dir, event, s, m, d, campaign, ids, q)
    ensures var s' := Next(dir, event, m, CommitDispatch(d));
            && s'.rows == m.rows && s'.workers == s.workers && s'.leaked == s.leaked && s'.dispatches == s.dispatches
            && s'.messages == s.messages + (map id | id in ids[..q] :: Message(campaign, Queued))
  {
    assert NewMessages(m.dispatches[d]) == map id | id in ids[..q] :: Message(campaign, Queued);
    assert m.dispatches - {d} == s.dispatches;
  }

  /** A dispatch nothing interrupts does what the service's loop does: it reserves for, and queues, exactly the first
      recipients the balance covers, and leaves everything else alone. */
  lemma UninterruptedDispatchIsSend(dir: Directory, event: Id, s: State, d: nat, campaign: Id, ids: seq<Id>)
    requires FreshIds(s.rows, ids) && d !in s.dispatches
    requires forall i :: 0 <= i < |ids| ==> ids[i] !in s.issued
    ensures var s' := Run(dir, event, s, DispatchSteps(d, campaign, ids));
            var queued := Min(|ids|, Max(0, BalanceOf(dir, s.rows, OnEvent(event))));
            && s'.rows == RowsReserved(dir, event, s.rows, ids, queued)
            && s'.messages == s.messages + (map id | id in ids[..queued] :: Message(campaign, Queued))
            && s'.dispatches == s.dispatches && s'.workers == s.workers && s'.leaked == s.leaked
  {
    var begun := Next(dir, event, s, OpenDispatch(d, campaign));
    var m := Run(dir, event, begun, SendLoop(d, ids, |ids|));
    SendStarts(dir, event, s, d, campaign, ids);
    SendsAll(dir, event, s, begun, d, campaign, ids, |ids|);
    DispatchRuns(dir, event, s, d, campaign, ids);
    CommitSends(dir, event, s, m, d, campaign, ids, Covered(dir, event, s, |ids|));
  }

  // ---- Processing -------------------------------------------------------------------------

  /** The service's table and the machine's messages hold the same rows, no id on two of them. */
  ghost predicate Represents(table: seq<MessageRow>, messages: map<Id, Message>) {
    && (forall i, j :: 0 <= i < j < |table| ==> table[i].id != table[j].id)
    && (forall i :: 0 <= i < |table| ==>
          table[i].id in messages && messages[table[i].id] == Message(table[i].campaign, table[i].status))
    && (forall id :: id in messages ==> exists i :: 0 <= i < |table| && table[i].id == id)
  }

  function IdsOf(table: seq<MessageRow>, p: seq<nat>): seq<Id>
    requires forall k :: 0 <= k < |p| ==> p[k] < |table|
  {
    seq(|p|, k requires 0 <= k < |p| => table[p[k]].id)
  }

  function Todo(ids: seq<Id>, n: nat): set<Id>
    requires n <= |ids|
  {
    set k | n <= k < |ids| :: ids[k]
  }

  /** The ids among the first n whose answer is this. */
  function Got(ids: seq<Id>, results: seq<bool>, n: nat, delivered: bool): set<Id>
    requires n <= |ids|
  {
    set k | 0 <= k < n && Delivered(results, k) == delivered :: ids[k]
  }

  function SettleLoop(w: nat, ids: seq<Id>, results: seq<bool>, n: nat): seq<Step>
    requires n <= |ids|
  {
    if n == 0 then [] else SettleLoop(w, ids, results, n - 1) + [Settle(w, ids[n - 1], Delivered(results, n - 1))]
  }

  function WorkerSteps(w: nat, campaign: Id, ids: seq<Id>, results: seq<bool>): seq<Step> {
    [Snapshot(w, campaign)] + SettleLoop(w, ids, results, |ids|) + [CommitWorker(w)]
  }

  /** What the worker has done after n answers. */
  ghost predicate SettledBy(dir: Directory, event: Id, s: State, m: State, w: nat, campaign: Id,
                            table: seq<MessageRow>, p: seq<nat>, results: seq<bool>, n: nat)
    requires n <= |p| && Pending(table, p)
  {
    var ids := IdsOf(table, p);
    && m == s.(rows := m.rows, workers := m.workers) && m.rows == RowsAfter(dir, event, s.rows, table, p, results, n)
    && m.workers == s.workers[w := Processing(campaign, Todo(ids, n), Got(ids, results, n, true),
                                              Got(ids, results, n, false))]
  }

  lemma TodoNext(ids: seq<Id>, results: seq<bool>, n: nat)
    requires n < |ids| && forall i, j :: 0 <= i < j < |ids| ==> ids[i] != ids[j]
    ensures ids[n] in Todo(ids, n) && Todo(ids, n + 1) == Todo(ids, n) - {ids[n]}
    ensures Got(ids, results, n + 1, Delivered(results, n)) == Got(ids, results, n, Delivered(results, n)) + {ids[n]}
    ensures Got(ids, results, n + 1, !Delivered(results, n)) == Got(ids, results, n, !Delivered(results, n))
  {
    assert ids[n] in Todo(ids, n);
  }

  lemma SettlesNext(dir: Directory, event: Id, s: State, m: State, w: nat, campaign: Id, table: seq<MessageRow>,
                    p: seq<nat>, results: seq<bool>, n: nat)
    requires n < |p| && Pending(table, p) && forall i, j :: 0 <= i < j < |table| ==> table[i].id != table[j].id
    requires SettledBy(dir, event, s, m, w, campaign, table, p, results, n)
    ensures SettledBy(dir, event, s, Next(dir, event, m, Settle(w, table[p[n]].id, Delivered(results, n))), w, campaign,
                      table, p, results, n + 1)
  {
    TodoNext(IdsOf(table, p), results, n);
  }

  lemma SettlingStarts(dir: Directory, event: Id, s: State, w: nat, campaign: Id, table: seq<MessageRow>, p: seq<nat>,
                       results: seq<bool>)
    requires Pending(table, p) && w !in s.workers && QueuedOf(s.messages, campaign) == Todo(IdsOf(table, p), 0)
    ensures SettledBy(dir, event, s, Next(dir, event, s, Snapshot(w, campaign)), w, campaign, table, p, results, 0)
  {
    var ids := IdsOf(table, p);
    assert Got(ids, results, 0, true) == {} && Got(ids, results, 0, false) == {};
  }

  /** The loop from a snapshot just taken. */
  lemma {:induction false} SettlesAll(dir: Directory, event: Id, s: State, begun: State, w: nat, campaign: Id,
                                      table: seq<MessageRow>, p: seq<nat>, results: seq<bool>, n: nat)
    requires n <= |p| && Pending(table, p) && forall i, j :: 0 <= i < j < |table| ==> table[i].id != table[j].id
    requires SettledBy(dir, event, s, begun, w, campaign, table, p, results, 0)
    ensures SettledBy(dir, event, s, Run(dir, event, begun, SettleLoop(w, IdsOf(table, p), results, n)), w, campaign,
                      table, p, results, n)
  {
    if n > 0 {
      var ids := IdsOf(table, p);
      var m, step := Run(dir, event, begun, SettleLoop(w, ids, results, n - 1)),
                     Settle(w, ids[n - 1], Delivered(results, n - 1));
      SettlesAll(dir, event, s, begun, w, campaign, table, p, results, n - 1);
      SettlesNext(dir, event, s, m, w, campaign, table, p, results, n - 1);
      RunConcat(dir, event, begun, SettleLoop(w, ids, results, n - 1), [step]);
      RunOne(dir, event, m, step);
    }
  }

  lemma WorkerRuns(dir: Directory, event: Id, s: State, w: nat, campaign: Id, ids: seq<Id>, results: seq<bool>)
    ensures var begun := Next(dir, event, s, Snapshot(w, campaign));
            Run(dir, event, s, WorkerSteps(w, campaign, ids, results))
            == Next(dir, event, Run(dir, event, begun, SettleLoop(w, ids, results, |ids|)), CommitWorker(w))
  {
    var begin, loop, commit := Snapshot(w, campaign), SettleLoop(w, ids, results, |ids|), CommitWorker(w);
    assert WorkerSteps(w, campaign, ids, results) == [begin] + (loop + [commit]);
    RunConcat(dir, event, s, [begin], loop + [commit]);
    RunOne(dir, event, s, begin);
    RunConcat(dir, event, Next(dir, event, s, begin), loop, [commit]);
    RunOne(dir, event, Run(dir, event, Next(dir, event, s, begin), loop), commit);
  }

  /** The snapshot takes the messages the service's query finds. */
  lemma SnapshotIsQuery(table: seq<MessageRow>, messages: map<Id, Message>, campaign: Id)
    requires Represents(table, messages)
    ensures var ids := IdsOf(table, QueuedAt(table, campaign));
            QueuedOf(messages, campaign) == Todo(ids, 0) && forall i, j :: 0 <= i < j < |ids| ==> ids[i] != ids[j]
  {
    var p := QueuedAt(table, campaign);
    var ids := IdsOf(table, p);
    forall id
      ensures id in QueuedOf(messages, campaign) <==> id in Todo(ids, 0)
    {
      if id in QueuedOf(messages, campaign) {
        var i :| 0 <= i < |table| && table[i].id == id;
        assert i in p;
        var k :| 0 <= k < |p| && p[k] == i;
        assert ids[k] == id;
      }
      if id in Todo(ids, 0) {
        var k :| 0 <= k < |ids| && ids[k] == id;
        assert p[k] in p;
      }
    }
  }

  lemma AnsweredIn(table: seq<MessageRow>, p: seq<nat>, results: seq<bool>, i: nat, delivered: bool)
    requires Pending(table, p) && i < |table| && forall i, j :: 0 <= i < j < |table| ==> table[i].id != table[j].id
    ensures table[i].id in Got(IdsOf(table, p), results, |p|, delivered)
            <==> exists k :: 0 <= k < |p| && p[k] == i && Delivered(results, k) == delivered
  {
    var ids := IdsOf(table, p);
    if table[i].id in Got(ids, results, |p|, delivered) {
      var k :| 0 <= k < |p| && Delivered(results, k) == delivered && ids[k] == table[i].id;
      assert p[k] == i;
    }
    if k :| 0 <= k < |p| && p[k] == i && Delivered(results, k) == delivered {
      assert ids[k] == table[i].id;
    }
  }

  lemma AppliedRow(table: seq<MessageRow>, messages: map<Id, Message>, campaign: Id, p: seq<nat>, results: seq<bool>,
                   i: nat)
    requires Represents(table, messages) && Pending(table, p) && i < |table|
    ensures var ids := IdsOf(table, p);
            var worker := Processing(campaign, {}, Got(ids, results, |p|, true), Got(ids, results, |p|, false));
            var row := MessagesAfter(table, p, results, |p|)[i];
            && row.id == table[i].id && row.id in Applied(messages, worker)
            && Applied(messages, worker)[row.id] == Message(row.campaign, row.status)
  {
    BatchSettles(table, p, results, |p|);
    AnsweredIn(table, p, results, i, true);
    AnsweredIn(table, p, results, i, false);
    assert p[..|p|] == p;
    if i in p {
      var k :| 0 <= k < |p| && p[k] == i;
      assert MessagesAfter(table, p, results, |p|)[p[k]]
             == table[p[k]].(status := if k < |results| && results[k] then Sent else Failed);
    }
  }

  lemma AppliedRepresents(table: seq<MessageRow>, messages: map<Id, Message>, campaign: Id, p: seq<nat>,
                          results: seq<bool>)
    requires Represents(table, messages) && Pending(table, p)
    ensures var ids := IdsOf(table, p);
            var worker := Processing(campaign, {}, Got(ids, results, |p|, true), Got(ids, results, |p|, false));
            Represents(MessagesAfter(table, p, results, |p|), Applied(messages, worker))
  {
    var ids := IdsOf(table, p);
    var worker := Processing(campaign, {}, Got(ids, results, |p|, true), Got(ids, results, |p|, false));
    var after := MessagesAfter(table, p, results, |p|);
    forall i | 0 <= i < |table|
      ensures after[i].id == table[i].id && after[i].id in Applied(messages, worker)
      ensures Applied(messages, worker)[after[i].id] == Message(after[i].campaign, after[i].status)
    {
      AppliedRow(table, messages, campaign, p, results, i);
    }
    forall id | id in Applied(messages, worker)
      ensures exists i :: 0 <= i < |after| && after[i].id == id
    {
      var i :| 0 <= i < |table| && table[i].id == id;
      assert after[i].id == id;
    }
  }

  lemma CommitSettles(dir: Directory, event: Id, s: State, m: State, w: nat, campaign: Id, table: seq<MessageRow>,
                      p: seq<nat>, results: seq<bool>)
    requires Represents(table, s.messages) && Pending(table, p) && w !in s.workers
    requires SettledBy(dir, event, s, m, w, campaign, table, p, results, |p|)
    ensures var s' := Next(dir, event, m, CommitWorker(w));
            && s'.rows == m.rows && Represents(MessagesAfter(table, p, results, |p|), s'.messages)
            && s'.dispatches == s.dispatches && s'.workers == s.workers && s'.leaked == s.leaked
  {
    AppliedRepresents(table, s.messages, campaign, p, results);
    assert Todo(IdsOf(table, p), |p|) == {};
    assert m.workers - {w} == s.workers;
  }

  /** A worker nothing interrupts does what the service's processing does: the same credit rows, and a table of the same
      messages with the same statuses. */
  lemma UninterruptedWorkerIsProcess(dir: Directory, event: Id, s: State, table: seq<MessageRow>, w: nat, campaign: Id,
                                     results: seq<bool>)
    requires Represents(table, s.messages) && w !in s.workers
    ensures var p := QueuedAt(table, campaign);
            var s' := Run(dir, event, s, WorkerSteps(w, campaign, IdsOf(table, p), results));
            && s'.rows == RowsAfter(dir, event, s.rows, table, p, results, |p|)
            && Represents(MessagesAfter(table, p, results, |p|), s'.messages)
            && s'.dispatches == s.dispatches && s'.workers == s.workers && s'.leaked == s.leaked
  {
    var p := QueuedAt(table, campaign);
    var ids := IdsOf(table, p);
    var begun := Next(dir, event, s, Snapshot(w, campaign));
    var m := Run(dir, event, begun, SettleLoop(w, ids, results, |ids|));
    SnapshotIsQuery(table, s.messages, campaign);
    SettlingStarts(dir, event, s, w, campaign, table, p, results);
    SettlesAll(dir, event, s, begun, w, campaign, table, p, results, |p|);
    WorkerRuns(dir, event, s, w, campaign, ids, results);
    CommitSettles(dir, event, s, m, w, campaign, table, p, results);
  }
}
