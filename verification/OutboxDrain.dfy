/** The transactional outbox and any number of drain workers: claim, handle, re-open, crash. A row is
    identified by its position in creation order. */
module OutboxDrain {
  import opened Prelude

  datatype OutRow = OutRow(topic: string, pending: bool, attempts: nat)

  /** What became of a claimed row. `Skipped` is a row whose topic has no handler. */
  datatype Entry = Handled(id: nat) | Reopened(id: nat) | Skipped(id: nat) | Lost(id: nat)

  /** `batches[w]` is what worker `w` has claimed and not settled yet. */
  datatype State = State(rows: seq<OutRow>, batches: seq<seq<nat>>, log: seq<Entry>)

  datatype Step =
    | Enqueue(topic: string)
    | Claim(w: nat, size: nat, locked: set<nat>)
    | Handle(w: nat, succeeds: bool)
    | Crash(w: nat)

  /** The oldest `size` pending rows from position `from`, skipping rows locked by concurrent claims. */
  function Claimable(rows: seq<OutRow>, from: nat, size: nat, locked: set<nat>): (batch: seq<nat>)
    requires from <= |rows|
    ensures |batch| <= size
    ensures forall i :: 0 <= i < |batch| ==> from <= batch[i] < |rows| && rows[batch[i]].pending && batch[i] !in locked
    ensures forall i, j :: 0 <= i < j < |batch| ==> batch[i] < batch[j]
    ensures |batch| < size ==> forall k :: from <= k < |rows| && rows[k].pending && k !in locked ==> k in batch
    ensures forall i, k :: 0 <= i < |batch| && from <= k < batch[i] && rows[k].pending && k !in locked ==> k in batch
    decreases |rows| - from
  {
    if from == |rows| || size == 0 then []
    else if rows[from].pending && from !in locked then
      var rest := Claimable(rows, from + 1, size - 1, locked);
      var batch := [from] + rest;
      assert forall k :: k in rest ==> k in batch;
      assert from in batch;
      batch
    else Claimable(rows, from + 1, size, locked)
  }

  function Marked(rows: seq<OutRow>, batch: seq<nat>): seq<OutRow> {
    seq(|rows|, i requires 0 <= i < |rows| => if i in batch then rows[i].(pending := false) else rows[i])
  }

  function Losses(batch: seq<nat>): seq<Entry> { seq(|batch|, i requires 0 <= i < |batch| => Lost(batch[i])) }

  /** One worker's row: settled by its handler's outcome, or left processed when nothing handles its topic. */
  function Settled(handlers: set<string>, rows: seq<OutRow>, id: nat, succeeds: bool): (seq<OutRow>, Entry)
    requires id < |rows|
  {
    var row := rows[id];
    if row.topic !in handlers then (rows, Skipped(id))
    else if succeeds then (rows, Handled(id))
    else (rows[id := row.(pending := true, attempts := row.attempts + 1)], Reopened(id))
  }

  function Next(handlers: set<string>, s: State, step: Step): State {
    match step
    case Enqueue(topic) => s.(rows := s.rows + [OutRow(topic, true, 0)])
    case Claim(w, size, locked) =>
      if w >= |s.batches| || s.batches[w] != [] then s else
      var batch := Claimable(s.rows, 0, size, locked);
      s.(rows := Marked(s.rows, batch), batches := s.batches[w := batch])
    case Handle(w, succeeds) =>
      if w >= |s.batches| || s.batches[w] == [] || s.batches[w][0] >= |s.rows| then s else
      var (rows, entry) := Settled(handlers, s.rows, s.batches[w][0], succeeds);
      State(rows, s.batches[w := s.batches[w][1..]], s.log + [entry])
    case Crash(w) =>
      if w >= |s.batches| then s
      else s.(batches := s.batches[w := []], log := s.log + Losses(s.batches[w]))
  }

  function Run(handlers: set<string>, s: State, steps: seq<Step>): State
    decreases |steps|
  {
    if steps == [] then s else Run(handlers, Next(handlers, s, steps[0]), steps[1..])
  }

  predicate Initial(s: State) {
    s.rows == [] && s.log == [] && forall w :: 0 <= w < |s.batches| ==> s.batches[w] == []
  }

  // ---- Where a row is ---------------------------------------------------------------

  ghost function Holds(id: nat): seq<nat> -> int { (batch: seq<nat>) => multiset(batch)[id] }

  ghost function Ends(id: nat): Entry -> int { (e: Entry) => if e.id == id && !e.Reopened? then 1 else 0 }

  ghost function Failures(id: nat): Entry -> int { (e: Entry) => if e == Reopened(id) then 1 else 0 }

  ghost function Occurs(entry: Entry): Entry -> int { (e: Entry) => if e == entry then 1 else 0 }

  /** How many times the system accounts for a row: as pending, in a worker's batch, or settled for good. */
  ghost function Tally(s: State, id: nat): int {
    (if id < |s.rows| && s.rows[id].pending then 1 else 0) + SumOf(s.batches, Holds(id)) + SumOf(s.log, Ends(id))
  }

  ghost predicate RowOk(s: State, id: nat) {
    && Tally(s, id) == (if id < |s.rows| then 1 else 0)
    && (id < |s.rows| ==> s.rows[id].attempts == SumOf(s.log, Failures(id)))
    && (id >= |s.rows| ==> SumOf(s.log, Failures(id)) == 0)
  }

  ghost predicate Inv(s: State) { forall id: nat :: RowOk(s, id) }

  lemma {:induction false} AscendingCount(batch: seq<nat>, id: nat)
    requires forall i, j :: 0 <= i < j < |batch| ==> batch[i] < batch[j]
    ensures multiset(batch)[id] == if id in batch then 1 else 0
  {
    if batch != [] {
      AscendingCount(batch[1..], id);
      assert batch == [batch[0]] + batch[1..];
      assert batch[0] !in batch[1..];
    }
  }

  lemma {:induction false} LossesCount(batch: seq<nat>, id: nat)
    ensures SumOf(Losses(batch), Ends(id)) == multiset(batch)[id] && SumOf(Losses(batch), Failures(id)) == 0
  {
    if batch != [] {
      var init, last := batch[..|batch| - 1], batch[|batch| - 1];
      LossesCount(init, id);
      assert Losses(batch) == Losses(init) + [Lost(last)] && batch == init + [last];
      SumAppend(Losses(init), Lost(last), Ends(id));
      SumAppend(Losses(init), Lost(last), Failures(id));
    }
  }

  /** A row in a batch exists, is claimed, and is in no log entry that ends it. */
  lemma InBatch(s: State, w: nat, id: nat)
    requires Inv(s) && w < |s.batches| && id in s.batches[w]
    ensures id < |s.rows| && !s.rows[id].pending && multiset(s.batches[w])[id] == 1 && SumOf(s.log, Ends(id)) == 0
    ensures forall v :: 0 <= v < |s.batches| && v != w ==> id !in s.batches[v]
  {
    assert RowOk(s, id);
    SumNonNegative(s.batches, Holds(id));
    SumNonNegative(s.log, Ends(id));
    assert Holds(id)(s.batches[w]) >= 1;
    forall v | 0 <= v < |s.batches| && v != w
      ensures id !in s.batches[v]
    {
      SumRemove(s.batches, w, Holds(id));
      var others := s.batches[..w] + s.batches[w + 1..];
      SumNonNegative(others, Holds(id));
      assert others[if v < w then v else v - 1] == s.batches[v];
      assert Holds(id)(s.batches[v]) == 0;
    }
  }

  lemma ClaimKeepsRow(handlers: set<string>, s: State, w: nat, size: nat, locked: set<nat>, id: nat)
    requires RowOk(s, id)
    ensures RowOk(Next(handlers, s, Claim(w, size, locked)), id)
  {
    if w < |s.batches| && s.batches[w] == [] {
      var batch := Claimable(s.rows, 0, size, locked);
      AscendingCount(batch, id);
      SumUpdate(s.batches, w, batch, Holds(id));
    }
  }

  lemma HeadCount(batches: seq<seq<nat>>, w: nat, id: nat)
    requires w < |batches| && batches[w] != []
    ensures SumOf(batches[w := batches[w][1..]], Holds(id))
            == SumOf(batches, Holds(id)) - (if batches[w][0] == id then 1 else 0)
  {
    var batch := batches[w];
    assert batch == [batch[0]] + batch[1..];
    SumUpdate(batches, w, batch[1..], Holds(id));
  }

  lemma LogCounts(log: seq<Entry>, entry: Entry, id: nat)
    ensures SumOf(log + [entry], Ends(id)) == SumOf(log, Ends(id)) + if entry.id == id && !entry.Reopened? then 1 else 0
    ensures SumOf(log + [entry], Failures(id)) == SumOf(log, Failures(id)) + if entry == Reopened(id) then 1 else 0
  {
    SumAppend(log, entry, Ends(id));
    SumAppend(log, entry, Failures(id));
  }

  lemma HandleCounts(handlers: set<string>, s: State, w: nat, succeeds: bool, id: nat)
    requires w < |s.batches| && s.batches[w] != [] && s.batches[w][0] < |s.rows|
    ensures var head, s' := s.batches[w][0], Next(handlers, s, Handle(w, succeeds));
            var entry := Settled(handlers, s.rows, head, succeeds).1;
            && SumOf(s'.batches, Holds(id)) == SumOf(s.batches, Holds(id)) - (if head == id then 1 else 0)
            && s'.log == s.log + [entry]
            && SumOf(s'.log, Ends(id)) == SumOf(s.log, Ends(id)) + (if entry.id == id && !entry.Reopened? then 1 else 0)
            && SumOf(s'.log, Failures(id)) == SumOf(s.log, Failures(id)) + if entry == Reopened(id) then 1 else 0
  {
    HeadCount(s.batches, w, id);
    LogCounts(s.log, Settled(handlers, s.rows, s.batches[w][0], succeeds).1, id);
  }

  lemma HandleKeepsOther(handlers: set<string>, s: State, w: nat, succeeds: bool, id: nat)
    requires RowOk(s, id)
    requires w < |s.batches| && s.batches[w] != [] && s.batches[w][0] < |s.rows| && s.batches[w][0] != id
    ensures RowOk(Next(handlers, s, Handle(w, succeeds)), id)
  {
    HandleCounts(handlers, s, w, succeeds, id);
  }

  lemma HandleKeepsHead(handlers: set<string>, s: State, w: nat, succeeds: bool, id: nat)
    requires RowOk(s, id)
    requires w < |s.batches| && s.batches[w] != [] && s.batches[w][0] == id < |s.rows| && !s.rows[id].pending
    ensures RowOk(Next(handlers, s, Handle(w, succeeds)), id)
  {
    HandleCounts(handlers, s, w, succeeds, id);
  }

  lemma HandleKeepsRow(handlers: set<string>, s: State, w: nat, succeeds: bool, id: nat)
    requires Inv(s)
    ensures RowOk(Next(handlers, s, Handle(w, succeeds)), id)
  {
    assert RowOk(s, id);
    if w < |s.batches| && s.batches[w] != [] {
      var head := s.batches[w][0];
      assert head in s.batches[w];
      InBatch(s, w, head);
      if id == head {
        HandleKeepsHead(handlers, s, w, succeeds, id);
      } else {
        HandleKeepsOther(handlers, s, w, succeeds, id);
      }
    }
  }

  lemma CrashCounts(s: State, w: nat, id: nat)
    requires w < |s.batches|
    ensures SumOf(s.batches[w := []], Holds(id)) == SumOf(s.batches, Holds(id)) - multiset(s.batches[w])[id]
    ensures SumOf(s.log + Losses(s.batches[w]), Ends(id)) == SumOf(s.log, Ends(id)) + multiset(s.batches[w])[id]
    ensures SumOf(s.log + Losses(s.batches[w]), Failures(id)) == SumOf(s.log, Failures(id))
  {
    SumUpdate(s.batches, w, [], Holds(id));
    LossesCount(s.batches[w], id);
    SumConcat(s.log, Losses(s.batches[w]), Ends(id));
    SumConcat(s.log, Losses(s.batches[w]), Failures(id));
  }

  lemma CrashKeepsRow(handlers: set<string>, s: State, w: nat, id: nat)
    requires RowOk(s, id)
    ensures RowOk(Next(handlers, s, Crash(w)), id)
  {
    if w < |s.batches| {
      CrashCounts(s, w, id);
    }
  }

  lemma NextKeepsInv(handlers: set<string>, s: State, step: Step)
    requires Inv(s)
    ensures Inv(Next(handlers, s, step))
  {
    forall id: nat
      ensures RowOk(Next(handlers, s, step), id)
    {
      assert RowOk(s, id);
      match step
      case Enqueue(_) =>
        if id == |s.rows| {
          SumNonNegative(s.log, Ends(id));
          SumNonNegative(s.batches, Holds(id));
        }
      case Claim(w, size, locked) => ClaimKeepsRow(handlers, s, w, size, locked, id);
      case Handle(w, succeeds) => HandleKeepsRow(handlers, s, w, succeeds, id);
      case Crash(w) => CrashKeepsRow(handlers, s, w, id);
    }
  }

  lemma {:induction false} RunKeepsInv(handlers: set<string>, s: State, steps: seq<Step>)
    requires Inv(s)
    ensures Inv(Run(handlers, s, steps))
    decreases |steps|
  {
    if steps != [] {
      NextKeepsInv(handlers, s, steps[0]);
      RunKeepsInv(handlers, Next(handlers, s, steps[0]), steps[1..]);
    }
  }

  lemma InitialInv(s: State)
    requires Initial(s)
    ensures Inv(s)
  {
    forall id: nat
      ensures RowOk(s, id)
    {
      SumPointwise(s.batches, Holds(id), s.batches, _ => 0);
      SumBounds(s.batches, _ => 0, 0, 0);
    }
  }

  // ---- Which topics are skipped --------------------------------------------------------

  lemma StepSkips(handlers: set<string>, s: State, step: Step, id: nat)
    ensures var s' := Next(handlers, s, step);
            && |s.rows| <= |s'.rows| && (forall i :: 0 <= i < |s.rows| ==> s'.rows[i].topic == s.rows[i].topic)
            && (Skipped(id) in s'.log && Skipped(id) !in s.log ==> id < |s.rows| && s.rows[id].topic !in handlers)
  {
  }

  lemma {:induction false} TopicsStay(handlers: set<string>, s: State, steps: seq<Step>, id: nat)
    requires id < |s.rows|
    ensures var end := Run(handlers, s, steps); id < |end.rows| && end.rows[id].topic == s.rows[id].topic
    decreases |steps|
  {
    if steps != [] {
      StepSkips(handlers, s, steps[0], id);
      TopicsStay(handlers, Next(handlers, s, steps[0]), steps[1..], id);
    }
  }

  /** Every row newly skipped between the two states is of a topic without a handler. */
  ghost predicate SkipsOnlyOutside(handlers: set<string>, s: State, end: State) {
    forall id: nat :: Skipped(id) in end.log && Skipped(id) !in s.log ==>
      id < |end.rows| && end.rows[id].topic !in handlers
  }

  lemma {:induction false} OnlyUnregisteredSkipped(handlers: set<string>, s: State, steps: seq<Step>)
    ensures SkipsOnlyOutside(handlers, s, Run(handlers, s, steps))
    decreases |steps|
  {
    if steps != [] {
      var s', end := Next(handlers, s, steps[0]), Run(handlers, s, steps);
      OnlyUnregisteredSkipped(handlers, s', steps[1..]);
      forall id: nat | Skipped(id) in end.log && Skipped(id) !in s.log
        ensures id < |end.rows| && end.rows[id].topic !in handlers
      {
        StepSkips(handlers, s, steps[0], id);
        if Skipped(id) in s'.log {
          TopicsStay(handlers, s', steps[1..], id);
        }
      }
    }
  }

  // ---- The guarantees ----------------------------------------------------------------

  /** Whatever workers do and wherever they crash: no row is in two live batches or twice in one, no row is
      handled successfully twice or handled and pending, and `attempts` counts its re-opened failures. */
  lemma NoRowTwice(handlers: set<string>, s: State, steps: seq<Step>, id: nat)
    requires Initial(s)
    ensures var end := Run(handlers, s, steps);
            && (forall v, w :: 0 <= v < |end.batches| && 0 <= w < |end.batches| && v != w && id in end.batches[v] ==>
                  id !in end.batches[w])
            && (forall w :: 0 <= w < |end.batches| ==> multiset(end.batches[w])[id] <= 1)
            && SumOf(end.log, Occurs(Handled(id))) <= 1
            && (id < |end.rows| ==> end.rows[id].attempts == SumOf(end.log, Occurs(Reopened(id))))
            && (id < |end.rows| && Handled(id) in end.log ==> !end.rows[id].pending)
  {
    InitialInv(s);
    RunKeepsInv(handlers, s, steps);
    var end := Run(handlers, s, steps);
    assert RowOk(end, id);
    SumNonNegative(end.batches, Holds(id));
    SumNonNegative(end.log, Ends(id));
    HandledAtMostEnds(end.log, id);
    SumPointwise(end.log, Failures(id), end.log, Occurs(Reopened(id)));
    forall v, w | 0 <= v < |end.batches| && 0 <= w < |end.batches| && v != w && id in end.batches[v]
      ensures id !in end.batches[w]
    {
      InBatch(end, v, id);
    }
    forall w | 0 <= w < |end.batches|
      ensures multiset(end.batches[w])[id] <= 1
    {
      assert Holds(id)(end.batches[w]) <= SumOf(end.batches, Holds(id));
    }
    if Handled(id) in end.log {
      assert Ends(id)(Handled(id)) == 1;
    }
  }

  lemma {:induction false} HandledAtMostEnds(log: seq<Entry>, id: nat)
    ensures SumOf(log, Occurs(Handled(id))) <= SumOf(log, Ends(id))
  {
    if log != [] {
      HandledAtMostEnds(log[..|log| - 1], id);
    }
  }

  /** Where each enqueued row is, in any run: exactly one of these holds. */
  predicate Pending(s: State, id: nat) { id < |s.rows| && s.rows[id].pending }

  predicate Held(s: State, id: nat) { exists w :: 0 <= w < |s.batches| && id in s.batches[w] }

  predicate Done(s: State, id: nat) { Handled(id) in s.log }

  predicate Unhandled(s: State, id: nat) { Skipped(id) in s.log }

  predicate Gone(s: State, id: nat) { Lost(id) in s.log }

  lemma {:induction false} TwoEnds(log: seq<Entry>, id: nat, a: Entry, b: Entry)
    requires a in log && b in log && a != b && a.id == b.id == id && !a.Reopened? && !b.Reopened?
    ensures SumOf(log, Ends(id)) >= 2
  {
    var n := |log| - 1;
    SumNonNegative(log[..n], Ends(id));
    assert log == log[..n] + [log[n]];
    if log[n] != a && log[n] != b {
      TwoEnds(log[..n], id, a, b);
    }
  }

  /** Conservation: every enqueued row is pending, held by a worker, handled, on a topic without a handler,
      or lost in a crash, and never two of these at once. */
  lemma EveryRowInOnePlace(handlers: set<string>, s: State, steps: seq<Step>, id: nat)
    requires Initial(s) && id < |Run(handlers, s, steps).rows|
    ensures var end := Run(handlers, s, steps);
            && (Pending(end, id) || Held(end, id) || Done(end, id) || Unhandled(end, id) || Gone(end, id))
            && (Pending(end, id) ==> !Held(end, id) && !Done(end, id) && !Unhandled(end, id) && !Gone(end, id))
            && (Held(end, id) ==> !Done(end, id) && !Unhandled(end, id) && !Gone(end, id))
            && (Done(end, id) ==> !Unhandled(end, id) && !Gone(end, id)) && (Unhandled(end, id) ==> !Gone(end, id))
            && (Unhandled(end, id) ==> end.rows[id].topic !in handlers)
  {
    InitialInv(s);
    RunKeepsInv(handlers, s, steps);
    PlaceIsUnique(Run(handlers, s, steps), id);
    SomePlace(Run(handlers, s, steps), id);
    OnlyUnregisteredSkipped(handlers, s, steps);
  }

  lemma SomePlace(s: State, id: nat)
    requires Inv(s) && id < |s.rows|
    ensures Pending(s, id) || Held(s, id) || Done(s, id) || Unhandled(s, id) || Gone(s, id)
  {
    assert RowOk(s, id);
    if SumOf(s.batches, Holds(id)) > 0 {
      var w := SumPositiveHasWitness(s.batches, Holds(id));
      assert id in s.batches[w];
    } else if SumOf(s.log, Ends(id)) > 0 {
      var i := SumPositiveHasWitness(s.log, Ends(id));
      assert s.log[i] in s.log;
    }
  }

  lemma PlaceIsUnique(s: State, id: nat)
    requires Inv(s) && id < |s.rows|
    ensures Pending(s, id) ==> !Held(s, id) && !Done(s, id) && !Unhandled(s, id) && !Gone(s, id)
    ensures Held(s, id) ==> !Done(s, id) && !Unhandled(s, id) && !Gone(s, id)
    ensures (Done(s, id) ==> !Unhandled(s, id) && !Gone(s, id)) && (Unhandled(s, id) ==> !Gone(s, id))
  {
    assert RowOk(s, id);
    SumNonNegative(s.batches, Holds(id));
    SumNonNegative(s.log, Ends(id));
    assert Ends(id)(Handled(id)) == Ends(id)(Skipped(id)) == Ends(id)(Lost(id)) == 1;
    if Held(s, id) {
      var w :| 0 <= w < |s.batches| && id in s.batches[w];
      InBatch(s, w, id);
    }
    if Done(s, id) && Unhandled(s, id) { TwoEnds(s.log, id, Handled(id), Skipped(id)); }
    if Done(s, id) && Gone(s, id) { TwoEnds(s.log, id, Handled(id), Lost(id)); }
    if Unhandled(s, id) && Gone(s, id) { TwoEnds(s.log, id, Skipped(id), Lost(id)); }
  }

  /** A row is finished with: nobody will look at it again. */
  predicate Closed(s: State, id: nat) { id < |s.rows| && !Pending(s, id) && !Held(s, id) }

  /** In this run a worker holding the row at the head of its batch called its handler, and the handler succeeded. */
  ghost predicate HandlerSucceeded(handlers: set<string>, s: State, steps: seq<Step>, id: nat)
    decreases |steps|
  {
    steps != [] && (SucceedsFor(handlers, s, steps[0], id)
                    || HandlerSucceeded(handlers, Next(handlers, s, steps[0]), steps[1..], id))
  }

  predicate SucceedsFor(handlers: set<string>, s: State, step: Step, id: nat) {
    && step.Handle? && step.succeeds && step.w < |s.batches| && s.batches[step.w] != [] && s.batches[step.w][0] == id
    && id < |s.rows| && s.rows[id].topic in handlers
  }

  lemma StepLogsSuccess(handlers: set<string>, s: State, step: Step, id: nat)
    ensures Done(Next(handlers, s, step), id) <==> Done(s, id) || SucceedsFor(handlers, s, step, id)
  {
    if step.Crash? && step.w < |s.batches| {
      assert forall i :: 0 <= i < |s.batches[step.w]| ==> Losses(s.batches[step.w])[i].Lost?;
    }
  }

  /** The log has a row as handled exactly when its handler succeeded. */
  lemma {:induction false} LogTellsSuccess(handlers: set<string>, s: State, steps: seq<Step>, id: nat)
    ensures Done(Run(handlers, s, steps), id) <==> Done(s, id) || HandlerSucceeded(handlers, s, steps, id)
    decreases |steps|
  {
    if steps != [] {
      StepLogsSuccess(handlers, s, steps[0], id);
      LogTellsSuccess(handlers, Next(handlers, s, steps[0]), steps[1..], id);
    }
  }

  /** Topics registered at some point of any run, beside those registered before: from then on a row of any of them,
      enqueued before or after, is finished with exactly when its handler has succeeded or a crash lost it, save for
      those of the new topics that were passed over before they were registered. */
  lemma RegisteredRowsAreHandledOrLost(registered: set<string>, topics: set<string>, s: State, before: seq<Step>,
                                       after: seq<Step>, id: nat)
    requires Initial(s)
    requires var end := Run(registered + topics, Run(registered, s, before), after);
             id < |end.rows| && end.rows[id].topic in registered + topics
    ensures var mid := Run(registered, s, before);
            var end := Run(registered + topics, mid, after);
            && (Closed(end, id) <==> HandlerSucceeded(registered, s, before, id)
                                     || HandlerSucceeded(registered + topics, mid, after, id)
                                     || Gone(end, id) || Unhandled(mid, id))
            && (Unhandled(mid, id) ==> end.rows[id].topic !in registered)
  {
    var mid, handlers := Run(registered, s, before), registered + topics;
    var end := Run(handlers, mid, after);
    InitialInv(s);
    RunKeepsInv(registered, s, before);
    RunKeepsInv(handlers, mid, after);
    PlaceIsUnique(end, id);
    SomePlace(end, id);
    OnlyUnregisteredSkipped(registered, s, before);
    OnlyUnregisteredSkipped(handlers, mid, after);
    LogGrows(handlers, mid, after);
    LogTellsSuccess(registered, s, before, id);
    LogTellsSuccess(handlers, mid, after, id);
    if Unhandled(mid, id) {
      TopicsStay(handlers, mid, after, id);
    }
  }

  /** So in crash-free runs its handler has succeeded exactly once it is finished with. */
  lemma CrashFreeRowsAreHandled(handlers: set<string>, s: State, steps: seq<Step>, id: nat)
    requires Initial(s) && forall i :: 0 <= i < |steps| ==> !steps[i].Crash?
    requires id < |Run(handlers, s, steps).rows| && Run(handlers, s, steps).rows[id].topic in handlers
    ensures Closed(Run(handlers, s, steps), id) <==> HandlerSucceeded(handlers, s, steps, id)
  {
    var none: seq<Step> := [];
    assert handlers + {} == handlers && Run(handlers, s, none) == s;
    RegisteredRowsAreHandledOrLost(handlers, {}, s, none, steps, id);
    NoCrashNoLoss(handlers, s, steps, id);
  }

  // ---- Crashes -------------------------------------------------------------------------

  lemma {:induction false} NoCrashNoLoss(handlers: set<string>, s: State, steps: seq<Step>, id: nat)
    requires !Gone(s, id) && forall i :: 0 <= i < |steps| ==> !steps[i].Crash?
    ensures !Gone(Run(handlers, s, steps), id)
    decreases |steps|
  {
    if steps != [] {
      assert !Gone(Next(handlers, s, steps[0]), id);
      NoCrashNoLoss(handlers, Next(handlers, s, steps[0]), steps[1..], id);
    }
  }

  /** Crash-free runs lose nothing: every enqueued row is pending, held by one worker, handled, or on a topic
      with no handler. */
  lemma CrashFreeRunsLoseNothing(handlers: set<string>, s: State, steps: seq<Step>, id: nat)
    requires Initial(s) && id < |Run(handlers, s, steps).rows|
    requires forall i :: 0 <= i < |steps| ==> !steps[i].Crash?
    ensures var end := Run(handlers, s, steps);
            Pending(end, id) || Held(end, id) || Done(end, id) ||
              (Unhandled(end, id) && end.rows[id].topic !in handlers)
  {
    NoCrashNoLoss(handlers, s, steps, id);
    EveryRowInOnePlace(handlers, s, steps, id);
  }

  lemma {:induction false} LogGrows(handlers: set<string>, s: State, steps: seq<Step>)
    ensures s.log <= Run(handlers, s, steps).log && |s.rows| <= |Run(handlers, s, steps).rows|
    decreases |steps|
  {
    if steps != [] {
      LogGrows(handlers, Next(handlers, s, steps[0]), steps[1..]);
    }
  }

  /** A crash loses exactly the crashed worker's unsettled rows, and for good: whatever follows, a row it held
      is never pending, claimed or handled again, while every other row's place is unchanged by the crash. */
  lemma CrashLosesExactlyItsBatch(handlers: set<string>, s: State, before: seq<Step>, w: nat, after: seq<Step>, id: nat)
    requires Initial(s)
    requires w < |Run(handlers, s, before).batches| && id < |Run(handlers, s, before).rows|
    ensures var m := Run(handlers, s, before);
            var c := Next(handlers, m, Crash(w));
            var end := Run(handlers, c, after);
            && (id in m.batches[w] ==>
              Gone(c, id) && Gone(end, id) && !Pending(end, id) && !Held(end, id) && !Done(end, id))
            && (id !in m.batches[w] ==>
                  && (Gone(c, id) <==> Gone(m, id)) && (Pending(c, id) <==> Pending(m, id))
                  && (Held(c, id) <==> Held(m, id)) && (Done(c, id) <==> Done(m, id)))
  {
    InitialInv(s);
    RunKeepsInv(handlers, s, before);
    var m := Run(handlers, s, before);
    var c := Next(handlers, m, Crash(w));
    NextKeepsInv(handlers, m, Crash(w));
    RunKeepsInv(handlers, c, after);
    LogGrows(handlers, c, after);
    var end := Run(handlers, c, after);
    if id in m.batches[w] {
      var i :| 0 <= i < |m.batches[w]| && m.batches[w][i] == id;
      assert Losses(m.batches[w])[i] == Lost(id);
      assert Lost(id) in c.log && Lost(id) in end.log;
      PlaceIsUnique(end, id);
    } else {
      if Held(m, id) {
        var v :| 0 <= v < |m.batches| && id in m.batches[v];
        assert id in c.batches[v];
      }
      if Held(c, id) {
        var v :| 0 <= v < |c.batches| && id in c.batches[v];
        assert id in m.batches[v];
      }
    }
  }

  // ---- One worker's loop --------------------------------------------------------------

  ghost function Drain(size: nat, outcome: nat -> bool, n: nat): seq<Step> {
    [Claim(0, size, {})] + seq(n, i requires 0 <= i < n => Handle(0, outcome(i)))
  }

  lemma {:induction false} RunSnoc(handlers: set<string>, s: State, steps: seq<Step>, step: Step)
    ensures Run(handlers, s, steps + [step]) == Next(handlers, Run(handlers, s, steps), step)
    decreases |steps|
  {
    if steps == [] {
      assert ([] + [step])[1..] == [];
    } else {
      assert (steps + [step])[1..] == steps[1..] + [step];
      RunSnoc(handlers, Next(handlers, s, steps[0]), steps[1..], step);
    }
  }

  lemma DrainNext(handlers: set<string>, s: State, size: nat, outcome: nat -> bool, i: nat, m: State, id: nat)
    requires m == Run(handlers, s, Drain(size, outcome, i))
    requires |m.batches| == 1 && m.batches[0] != [] && m.batches[0][0] == id < |m.rows|
    ensures Run(handlers, s, Drain(size, outcome, i + 1))
            == State(Settled(handlers, m.rows, id, outcome(i)).0, [m.batches[0][1..]],
                     m.log + [Settled(handlers, m.rows, id, outcome(i)).1])
  {
    RunSnoc(handlers, s, Drain(size, outcome, i), Handle(0, outcome(i)));
    assert Drain(size, outcome, i + 1) == Drain(size, outcome, i) + [Handle(0, outcome(i))];
  }

  ghost function HandledIn(log: seq<Entry>): nat {
    if log == [] then 0 else HandledIn(log[..|log| - 1]) + if log[|log| - 1].Handled? then 1 else 0
  }

  lemma HandledSnoc(log: seq<Entry>, entry: Entry)
    ensures HandledIn(log + [entry]) == HandledIn(log) + if entry.Handled? then 1 else 0
  {
    assert (log + [entry])[..|log|] == log;
  }

  // ---- What settling does, spelt out ------------------------------------------------------

  /** A claimed row at the head of a batch, its topic registered: it stays processed if and only if its handler
      succeeded; a failure, and nothing else, re-opens it with one more attempt. Without a handler nothing happens. */
  lemma HandleSettles(handlers: set<string>, s: State, w: nat, ok: bool)
    requires w < |s.batches| && s.batches[w] != [] && s.batches[w][0] < |s.rows| && !s.rows[s.batches[w][0]].pending
    ensures var s', id := Next(handlers, s, Handle(w, ok)), s.batches[w][0];
            && |s'.rows| == |s.rows| && s'.batches == s.batches[w := s.batches[w][1..]]
            && (forall i :: 0 <= i < |s.rows| && i != id ==> s'.rows[i] == s.rows[i])
            && s'.rows[id].topic == s.rows[id].topic
            && (s'.rows[id].pending <==> s.rows[id].topic in handlers && !ok)
            && s'.rows[id].attempts == s.rows[id].attempts + (if s'.rows[id].pending then 1 else 0)
            && (s'.log == s.log + [Handled(id)] <==> s.rows[id].topic in handlers && ok)
            && (s'.log == s.log + [Reopened(id)] <==> s.rows[id].topic in handlers && !ok)
            && (s'.log == s.log + [Skipped(id)] <==> s.rows[id].topic !in handlers)
  {
    var s', n := Next(handlers, s, Handle(w, ok)), |s.log|;
    assert s'.log[n] == (s'.log[..n] + [s'.log[n]])[n];
    assert forall e: Entry :: s'.log == s.log + [e] ==> s'.log[n] == e;
  }

  /** Positions in the batch whose handler exists and succeeds. */
  ghost function Successes(handlers: set<string>, rows: seq<OutRow>, batch: seq<nat>, outcome: nat -> bool,
                           n: nat): set<nat>
    requires forall k :: 0 <= k < |batch| ==> batch[k] < |rows|
  {
    set k: nat | k < n && k < |batch| && rows[batch[k]].topic in handlers && outcome(k)
  }

  /** After the batch: a row whose handler failed is open again with one more attempt, every other row of it is
      processed, and no row outside it has changed. */
  ghost predicate SettledAll(handlers: set<string>, before: seq<OutRow>, rows: seq<OutRow>, batch: seq<nat>,
                             outcome: nat -> bool, n: nat)
    requires forall k :: 0 <= k < |batch| ==> batch[k] < |before|
  {
    && |rows| == |before|
    && (forall i :: 0 <= i < |rows| ==> rows[i].topic == before[i].topic)
    && (forall i :: 0 <= i < |rows| && i !in batch ==> rows[i] == before[i])
    && (forall k :: 0 <= k < |batch| ==>
          var failed := k < n && before[batch[k]].topic in handlers && !outcome(k);
          && (rows[batch[k]].pending <==> failed)
          && rows[batch[k]].attempts == before[batch[k]].attempts + if failed then 1 else 0)
  }

  lemma SuccessesNext(handlers: set<string>, rows: seq<OutRow>, batch: seq<nat>, outcome: nat -> bool, n: nat)
    requires n < |batch| && forall k :: 0 <= k < |batch| ==> batch[k] < |rows|
    ensures |Successes(handlers, rows, batch, outcome, n + 1)|
            == |Successes(handlers, rows, batch, outcome, n)|
               + if rows[batch[n]].topic in handlers && outcome(n) then 1 else 0
  {
    var now, before := Successes(handlers, rows, batch, outcome, n + 1), Successes(handlers, rows, batch, outcome, n);
    assert now == if rows[batch[n]].topic in handlers && outcome(n) then before + {n} else before;
  }

  lemma SettledNext(handlers: set<string>, before: seq<OutRow>, rows: seq<OutRow>, batch: seq<nat>,
                    outcome: nat -> bool, n: nat)
    requires n < |batch| && forall k :: 0 <= k < |batch| ==> batch[k] < |before|
    requires forall i, j :: 0 <= i < j < |batch| ==> batch[i] < batch[j]
    requires SettledAll(handlers, before, rows, batch, outcome, n)
    ensures SettledAll(handlers, before, Settled(handlers, rows, batch[n], outcome(n)).0, batch, outcome, n + 1)
  {
    assert batch[n] in batch;
  }

  lemma CountNext(handlers: set<string>, before: seq<OutRow>, m: State, batch: seq<nat>, outcome: nat -> bool, n: nat)
    requires n < |batch| && forall k :: 0 <= k < |batch| ==> batch[k] < |before|
    requires SettledAll(handlers, before, m.rows, batch, outcome, n)
    ensures HandledIn(m.log + [Settled(handlers, m.rows, batch[n], outcome(n)).1]) - HandledIn(m.log)
            == |Successes(handlers, before, batch, outcome, n + 1)| - |Successes(handlers, before, batch, outcome, n)|
  {
    SuccessesNext(handlers, before, batch, outcome, n);
    HandledSnoc(m.log, Settled(handlers, m.rows, batch[n], outcome(n)).1);
  }

  /** How far a drain has got after n settled rows of its batch. */
  ghost predicate DrainedTo(handlers: set<string>, s: State, batch: seq<nat>, outcome: nat -> bool, n: nat, m: State)
    requires n <= |batch| && forall k :: 0 <= k < |batch| ==> batch[k] < |s.rows|
  {
    && m.batches == [batch[n..]] && SettledAll(handlers, s.rows, m.rows, batch, outcome, n)
    && HandledIn(m.log) == HandledIn(s.log) + |Successes(handlers, s.rows, batch, outcome, n)|
  }

  lemma DrainStarts(handlers: set<string>, s: State, size: nat, outcome: nat -> bool)
    requires s.batches == [[]]
    ensures DrainedTo(handlers, s, Claimable(s.rows, 0, size, {}), outcome, 0,
                Run(handlers, s, Drain(size, outcome, 0)))
  {
    var batch := Claimable(s.rows, 0, size, {});
    assert Drain(size, outcome, 0) == [] + [Claim(0, size, {})];
    RunSnoc(handlers, s, [], Claim(0, size, {}));
    assert Successes(handlers, s.rows, batch, outcome, 0) == {} && batch[0..] == batch;
  }

  lemma DrainSteps(handlers: set<string>, s: State, batch: seq<nat>, outcome: nat -> bool, n: nat, m: State, m': State)
    requires n < |batch| && forall k :: 0 <= k < |batch| ==> batch[k] < |s.rows|
    requires forall i, j :: 0 <= i < j < |batch| ==> batch[i] < batch[j]
    requires DrainedTo(handlers, s, batch, outcome, n, m)
    requires var (rows, entry) := Settled(handlers, m.rows, batch[n], outcome(n));
             m' == State(rows, [batch[n..][1..]], m.log + [entry])
    ensures DrainedTo(handlers, s, batch, outcome, n + 1, m')
  {
    var rows := Settled(handlers, m.rows, batch[n], outcome(n)).0;
    assert m'.rows == rows && m'.batches == [batch[n + 1..]];
    SettledNext(handlers, s.rows, m.rows, batch, outcome, n);
    CountNext(handlers, s.rows, m, batch, outcome, n);
  }

  lemma {:induction false} DrainIs(handlers: set<string>, s: State, size: nat, outcome: nat -> bool, n: nat)
    requires s.batches == [[]] && n <= |Claimable(s.rows, 0, size, {})|
    ensures DrainedTo(handlers, s, Claimable(s.rows, 0, size, {}), outcome, n,
                Run(handlers, s, Drain(size, outcome, n)))
  {
    if n == 0 {
      DrainStarts(handlers, s, size, outcome);
    } else {
      var batch, m := Claimable(s.rows, 0, size, {}), Run(handlers, s, Drain(size, outcome, n - 1));
      DrainIs(handlers, s, size, outcome, n - 1);
      DrainNext(handlers, s, size, outcome, n - 1, m, batch[n - 1]);
      DrainSteps(handlers, s, batch, outcome, n - 1, m, Run(handlers, s, Drain(size, outcome, n)));
    }
  }

  class OutboxDrainService {
    var handlers: set<string>
    var rows: seq<OutRow>
    ghost var log: seq<Entry>

    constructor ()
      ensures handlers == {} && rows == [] && log == []
    {
      handlers, rows, log := {}, [], [];
    }

    ghost function View(batch: seq<nat>): State
      reads this
    {
      State(rows, [batch], log)
    }

    method Register(topics: set<string>)
      modifies this`handlers
      ensures handlers == old(handlers) + topics
    {
      handlers := handlers + topics;
    }

    /** One claimed row: its handler runs, and a failure re-opens it. */
    method SettleRow(id: nat, succeeds: bool) returns (ok: bool)
      requires id < |rows|
      modifies this`rows, this`log
      ensures (rows, log) == (Settled(handlers, old(rows), id, succeeds).0,
                              old(log) + [Settled(handlers, old(rows), id, succeeds).1])
      ensures HandledIn(log) == HandledIn(old(log)) + if ok then 1 else 0
      ensures ok <==> rows[id].topic in handlers && succeeds
      ensures rows == if old(rows)[id].topic in handlers && !succeeds
                      then old(rows)[id := OutRow(old(rows)[id].topic, true, old(rows)[id].attempts + 1)] else old(rows)
    {
      HandledSnoc(log, Settled(handlers, rows, id, succeeds).1);
      log := log + [Settled(handlers, rows, id, succeeds).1];
      if rows[id].topic !in handlers {
        return false;
      }
      if !succeeds {
        rows := rows[id := rows[id].(pending := true, attempts := rows[id].attempts + 1)];
      }
      return succeeds;
    }

    /** A drain that nothing interrupts: the claim, then every claimed row settled in order; it returns how many
        handlers succeeded, and leaves nothing claimed. */
    method DrainOnce(size: nat, outcome: nat -> bool) returns (handled: nat)
      modifies this`rows, this`log
      ensures var n := |Claimable(old(rows), 0, size, {})|;
              View([]) == Run(handlers, old(View([])), Drain(size, outcome, n)) && handled <= n <= size
      ensures HandledIn(log) == HandledIn(old(log)) + handled
      ensures SkipsOnlyOutside(handlers, old(View([])), View([]))
      ensures var batch := Claimable(old(rows), 0, size, {});
              && SettledAll(handlers, old(rows), rows, batch, outcome, |batch|)
              && handled == |Successes(handlers, old(rows), batch, outcome, |batch|)|
    {
      ghost var s := View([]);
      var claimed := Claimable(rows, 0, size, {});
      rows := Marked(rows, claimed);
      assert Drain(size, outcome, 0) == [] + [Claim(0, size, {})];
      RunSnoc(handlers, s, [], Claim(0, size, {}));
      handled := SettleClaimed(claimed, outcome, s, size);
      DrainIs(handlers, s, size, outcome, |claimed|);
      OnlyUnregisteredSkipped(handlers, s, Drain(size, outcome, |claimed|));
    }

    /** The loop over a claimed batch. */
    method SettleClaimed(claimed: seq<nat>, outcome: nat -> bool, ghost s: State, ghost size: nat)
      returns (handled: nat)
      requires forall i :: 0 <= i < |claimed| ==> claimed[i] < |rows|
      requires View(claimed) == Run(handlers, s, Drain(size, outcome, 0))
      modifies this`rows, this`log
      ensures View([]) == Run(handlers, s, Drain(size, outcome, |claimed|)) && handled <= |claimed|
      ensures HandledIn(log) == HandledIn(old(log)) + handled
    {
      handled := 0;
      var i := 0;
      assert claimed[0..] == claimed;
      while i < |claimed|
        invariant i <= |claimed| && |rows| == |old(rows)| && handled <= i
        invariant View(claimed[i..]) == Run(handlers, s, Drain(size, outcome, i))
        invariant HandledIn(log) == HandledIn(old(log)) + handled
      {
        DrainNext(handlers, s, size, outcome, i, View(claimed[i..]), claimed[i]);
        assert claimed[i..][0] == claimed[i] && claimed[i..][1..] == claimed[i + 1..];
        var ok := SettleRow(claimed[i], outcome(i));
        handled := if ok then handled + 1 else handled;
        i := i + 1;
      }
      assert claimed[i..] == [];
    }
  }
}
