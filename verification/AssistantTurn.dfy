/** One AI turn: reserve a credit, loop between the model and its tools, then commit or refund. The model and
    the tools are arbitrary. */
module AssistantTurn {
  import opened Prelude
  import opened CreditLedger
  import AiTurns

  const MAX_STEPS: nat := 6
  const QUERY_REPORT: string := "query_event_report"
  const OVERVIEW: string := "get_event_overview"

  predicate ReportTool(name: string) { name == QUERY_REPORT || name == OVERVIEW }

  /** A reply without tool calls is the final answer. */
  datatype Reply = Completed(calls: seq<string>) | RateLimited | ModelError

  datatype ToolOutcome = Content(complete: bool, pendingId: Option<Id>) | ToolError(rateLimited: bool)

  /** How the model answers at each step, and what each tool call of a step returns. Gathering the context before the
      first step may throw, and so may metering a step's reply; the flag says whether it was the rate-limit error. */
  datatype World = World(context: Option<bool>, model: nat -> Reply, meter: nat -> Option<bool>,
                         tool: (nat, nat) -> ToolOutcome)

  datatype Dispatched = Dispatched(name: string, complete: bool, pendingId: Option<Id>)

  /** How the loop ends: an answer at some step, no answer in MAX_STEPS, or an exception (step 0: before the loop). */
  datatype End = Answered(step: nat) | Exhausted | Threw(rateLimited: bool, step: nat)

  // ---- The loop as a function --------------------------------------------------------------

  /** `threw` says that a tool threw, and whether it was the rate-limit error. */
  datatype CallsEnd = CallsEnd(done: seq<Dispatched>, complete: bool, threw: Option<bool>)

  /** Does this dispatched call carry the complete report? Only `query_event_report` is looked at. */
  predicate CompleteReport(d: Dispatched) { d.name == QUERY_REPORT && d.complete }

  ghost function WalkCalls(w: World, step: nat, names: seq<string>, i: nat, complete: bool): CallsEnd
    requires i <= |names|
    decreases |names| - i
  {
    if i == |names| then CallsEnd([], complete, None)
    else if complete && ReportTool(names[i]) then WalkCalls(w, step, names, i + 1, complete)
    else match w.tool(step, i)
      case ToolError(rateLimited) => CallsEnd([], complete, Some(rateLimited))
      case Content(c, p) =>
        var d := Dispatched(names[i], c, p);
        var rest := WalkCalls(w, step, names, i + 1, complete || CompleteReport(d));
        rest.(done := [d] + rest.done)
  }

  /** The rest of a step's calls with what was dispatched before them. */
  ghost function Following(before: seq<Dispatched>, rest: CallsEnd): CallsEnd { rest.(done := before + rest.done) }

  lemma CallStep(w: World, step: nat, names: seq<string>, i: nat, complete: bool, before: seq<Dispatched>)
    requires i < |names| && !(complete && ReportTool(names[i]))
    ensures Following(before, WalkCalls(w, step, names, i, complete))
            == match w.tool(step, i)
               case ToolError(rateLimited) => CallsEnd(before, complete, Some(rateLimited))
               case Content(c, p) =>
                 var d := Dispatched(names[i], c, p);
                 Following(before + [d], WalkCalls(w, step, names, i + 1, complete || CompleteReport(d)))
  {
    if w.tool(step, i).Content? {
      var d := Dispatched(names[i], w.tool(step, i).complete, w.tool(step, i).pendingId);
      var rest := WalkCalls(w, step, names, i + 1, complete || CompleteReport(d));
      assert before + ([d] + rest.done) == (before + [d]) + rest.done;
    } else {
      assert before + [] == before;
    }
  }

  /** The end a step comes to before dispatching any call, if it does. */
  function Stops(w: World, step: nat): (end: Option<End>)
    ensures end.None? ==> w.model(step).Completed? && w.model(step).calls != []
  {
    match w.model(step)
    case RateLimited => Some(Threw(true, step))
    case ModelError => Some(Threw(false, step))
    case reply =>
      if w.meter(step).Some? then Some(Threw(w.meter(step).value, step))
      else if reply.calls == [] then Some(Answered(step))
      else None
  }

  ghost function Walk(w: World, step: nat, complete: bool): (End, seq<Dispatched>)
    requires 1 <= step <= MAX_STEPS + 1
    decreases MAX_STEPS + 1 - step
  {
    if step > MAX_STEPS then (Exhausted, [])
    else if Stops(w, step).Some? then (Stops(w, step).value, [])
    else
      var r := WalkCalls(w, step, w.model(step).calls, 0, complete);
      if r.threw.Some? then (Threw(r.threw.value, step), r.done) else
      var rest := Walk(w, step + 1, r.complete);
      (rest.0, r.done + rest.1)
  }

  /** The whole turn after its reserve. */
  ghost function Turn(w: World): (End, seq<Dispatched>) {
    if w.context.Some? then (Threw(w.context.value, 0), []) else Walk(w, 1, false)
  }

  /** A walk with what was dispatched before it. */
  ghost function After(before: seq<Dispatched>, walk: (End, seq<Dispatched>)): (End, seq<Dispatched>) {
    (walk.0, before + walk.1)
  }

  lemma WalkStep(w: World, step: nat, complete: bool, before: seq<Dispatched>)
    requires 1 <= step <= MAX_STEPS && Stops(w, step).None?
    ensures var r := WalkCalls(w, step, w.model(step).calls, 0, complete);
            After(before, Walk(w, step, complete))
            == if r.threw.Some? then (Threw(r.threw.value, step), before + r.done)
               else After(before + r.done, Walk(w, step + 1, r.complete))
  {
    var r := WalkCalls(w, step, w.model(step).calls, 0, complete);
    if r.threw.None? {
      var rest := Walk(w, step + 1, r.complete);
      assert before + (r.done + rest.1) == (before + r.done) + rest.1;
    }
  }

  lemma WalkStops(w: World, step: nat, complete: bool, before: seq<Dispatched>)
    requires 1 <= step <= MAX_STEPS + 1 && (step <= MAX_STEPS ==> Stops(w, step).Some?)
    ensures After(before, Walk(w, step, complete))
            == (if step > MAX_STEPS then Exhausted else Stops(w, step).value, before)
  {
    assert before + [] == before;
  }

  // ---- What the circuit breaker guarantees ------------------------------------------------------

  /** No report tool is dispatched after a complete report, nor at all if one was complete before. */
  ghost predicate BreakerHolds(done: seq<Dispatched>, complete: bool) {
    && (complete ==> forall j :: 0 <= j < |done| ==> !IsReport(done[j].name))
    && (forall i, j :: 0 <= i < j < |done| && done[i].name == "query_event_report" && done[i].complete ==>
          !IsReport(done[j].name))
  }

  predicate IsReport(name: string) { name == "query_event_report" || name == "get_event_overview" }

  lemma {:induction false} BreakerInCalls(w: World, step: nat, names: seq<string>, i: nat, complete: bool)
    requires i <= |names|
    ensures var r := WalkCalls(w, step, names, i, complete);
            && BreakerHolds(r.done, complete) && (complete ==> r.complete)
            && (r.threw.None? && (exists j :: 0 <= j < |r.done| && CompleteReport(r.done[j])) ==> r.complete)
    decreases |names| - i
  {
    if i < |names| {
      if complete && ReportTool(names[i]) {
        BreakerInCalls(w, step, names, i + 1, complete);
      } else if w.tool(step, i).Content? {
        var c := w.tool(step, i);
        var d := Dispatched(names[i], c.complete, c.pendingId);
        BreakerInCalls(w, step, names, i + 1, complete || CompleteReport(d));
      }
    }
  }

  /** For every model and every tool behaviour, no report tool is dispatched after `query_event_report` came back
      complete. */
  lemma {:induction false} NoReportAfterCompleteReport(w: World, step: nat, complete: bool)
    requires 1 <= step <= MAX_STEPS + 1
    ensures BreakerHolds(Walk(w, step, complete).1, complete)
    decreases MAX_STEPS + 1 - step
  {
    if step <= MAX_STEPS && Stops(w, step).None? {
      var names := w.model(step).calls;
      BreakerInCalls(w, step, names, 0, complete);
      var r := WalkCalls(w, step, names, 0, complete);
      if r.threw.None? {
        NoReportAfterCompleteReport(w, step + 1, r.complete);
      }
    }
  }

  /** Model calls of a turn that ends this way. */
  function ModelCalls(end: End): nat { if end.Exhausted? then MAX_STEPS else end.step }

  predicate AsksForTools(w: World, k: nat) {
    w.model(k).Completed? && w.model(k).calls != [] && w.meter(k).None?
  }

  /** At most six model calls: as long as the model asks for tools the loop goes on, and an answer ends it. */
  lemma {:induction false} EndsInTime(w: World, step: nat, complete: bool)
    requires 1 <= step <= 6
    ensures var end := Walk(w, step, complete).0;
            && step <= ModelCalls(end) <= 6
            && (end.Answered? <==> !end.Exhausted? && w.model(end.step) == Completed([]) && w.meter(end.step).None?)
            && (forall k :: step <= k < ModelCalls(end) ==> AsksForTools(w, k))
            && (end.Exhausted? ==> AsksForTools(w, 6))
    decreases 6 - step
  {
    if step < 6 && Stops(w, step).None? {
      EndsInTime(w, step + 1, WalkCalls(w, step, w.model(step).calls, 0, complete).complete);
    }
  }

  ghost predicate ToolThrew(w: World, step: nat, calls: nat, rateLimited: bool) {
    exists i :: 0 <= i < calls && w.tool(step, i) == ToolError(rateLimited)
  }

  /** What was thrown at this step: by the model, by metering its reply, or by a tool it asked for; at step 0, while
      gathering the context. */
  ghost predicate ThrownAt(w: World, step: nat, rateLimited: bool) {
    if step == 0 then w.context == Some(rateLimited)
    else match w.model(step)
      case RateLimited => rateLimited
      case ModelError => !rateLimited
      case Completed(calls) =>
        w.meter(step) == Some(rateLimited) || (w.meter(step).None? && ToolThrew(w, step, |calls|, rateLimited))
  }

  lemma {:induction false} CallsThrow(w: World, step: nat, names: seq<string>, i: nat, complete: bool)
    requires i <= |names|
    ensures var threw := WalkCalls(w, step, names, i, complete).threw;
            threw.Some? ==> ToolThrew(w, step, |names|, threw.value)
    decreases |names| - i
  {
    if i < |names| {
      var outcome := w.tool(step, i);
      var next := complete || (outcome.Content? && CompleteReport(Dispatched(names[i], outcome.complete,
                                                                             outcome.pendingId)));
      CallsThrow(w, step, names, i + 1, complete);
      CallsThrow(w, step, names, i + 1, next);
    }
  }

  /** A walk throws only what was thrown at the step it ends in. */
  lemma {:induction false} ThrowsWhatWasThrown(w: World, step: nat, complete: bool)
    requires 1 <= step <= 7
    ensures var end := Walk(w, step, complete).0; end.Threw? ==> ThrownAt(w, end.step, end.rateLimited)
    decreases 7 - step
  {
    if step <= 6 && Stops(w, step).None? {
      var r := WalkCalls(w, step, w.model(step).calls, 0, complete);
      CallsThrow(w, step, w.model(step).calls, 0, complete);
      ThrowsWhatWasThrown(w, step + 1, r.complete);
    }
  }

  // ---- What is dispatched -------------------------------------------------------------------------

  function Without<T>(xs: seq<T>, drop: T -> bool): seq<T> {
    if xs == [] then [] else (if drop(xs[0]) then [] else [xs[0]]) + Without(xs[1..], drop)
  }

  lemma Associates<T>(a: seq<T>, b: seq<T>, c: seq<T>)
    ensures a + (b + c) == (a + b) + c
  {
  }

  lemma {:induction false} WithoutConcat<T>(xs: seq<T>, ys: seq<T>, drop: T -> bool)
    ensures Without(xs + ys, drop) == Without(xs, drop) + Without(ys, drop)
  {
    if xs == [] {
      assert xs + ys == ys;
    } else {
      var head, rest := if drop(xs[0]) then [] else [xs[0]], xs[1..];
      assert (xs + ys)[1..] == rest + ys;
      WithoutConcat(rest, ys, drop);
      assert Without(xs + ys, drop) == head + (Without(rest, drop) + Without(ys, drop));
      Associates(head, Without(rest, drop), Without(ys, drop));
    }
  }

  /** The tool names asked for, report tools left out. */
  function Others(names: seq<string>): seq<string> {
    Without(names, name => IsReport(name))
  }

  lemma OthersConcat(a: seq<string>, b: seq<string>)
    ensures Others(a + b) == Others(a) + Others(b)
  {
    WithoutConcat(a, b, name => IsReport(name));
  }

  function NamesOf(done: seq<Dispatched>): seq<string> { seq(|done|, i requires 0 <= i < |done| => done[i].name) }

  /** Of a step's calls all tools that are no report tools are dispatched, in order, unless one throws. */
  lemma {:induction false} StepDispatches(w: World, step: nat, names: seq<string>, i: nat, complete: bool)
    requires i <= |names| && WalkCalls(w, step, names, i, complete).threw.None?
    ensures Others(NamesOf(WalkCalls(w, step, names, i, complete).done)) == Others(names[i..])
    decreases |names| - i
  {
    if i < |names| {
      assert names[i..][0] == names[i] && names[i..][1..] == names[i + 1..];
      if complete && ReportTool(names[i]) {
        StepDispatches(w, step, names, i + 1, complete);
      } else {
        var c := w.tool(step, i);
        var d := Dispatched(names[i], c.complete, c.pendingId);
        var rest := WalkCalls(w, step, names, i + 1, complete || CompleteReport(d)).done;
        StepDispatches(w, step, names, i + 1, complete || CompleteReport(d));
        assert NamesOf([d] + rest)[1..] == NamesOf(rest);
      }
    }
  }

  /** None of the step's tools gives a complete report. */
  ghost predicate NoCompleteReport(w: World, step: nat, names: seq<string>) {
    forall k :: 0 <= k < |names| && names[k] == "query_event_report" && w.tool(step, k).Content? ==>
      !w.tool(step, k).complete
  }

  /** While no complete report is there every call is dispatched, with its tool's answer. */
  lemma {:induction false} UntilCompleteAllDispatched(w: World, step: nat, names: seq<string>, i: nat, k: nat)
    requires i <= k < |names| && NoCompleteReport(w, step, names)
    requires WalkCalls(w, step, names, i, false).threw.None?
    ensures var r := WalkCalls(w, step, names, i, false);
            && !r.complete && |r.done| == |names| - i && w.tool(step, k).Content?
            && r.done[k - i] == Dispatched(names[k], w.tool(step, k).complete, w.tool(step, k).pendingId)
    decreases |names| - i
  {
    if i + 1 < |names| {
      UntilCompleteAllDispatched(w, step, names, i + 1, if k == i then i + 1 else k);
    }
  }

  /** All names asked for in steps first to last. */
  ghost function Asked(w: World, first: nat, last: nat): seq<string>
    decreases last - first
  {
    if first > last then []
    else (if w.model(first).Completed? then w.model(first).calls else []) + Asked(w, first + 1, last)
  }

  function LastStep(end: End): nat { if end.Exhausted? then 6 else end.step }

  lemma AskedNext(w: World, step: nat, complete: bool)
    requires 1 <= step <= MAX_STEPS && Stops(w, step).None?
    requires var r := WalkCalls(w, step, w.model(step).calls, 0, complete); r.threw.None?
    ensures var r := WalkCalls(w, step, w.model(step).calls, 0, complete);
            var last := LastStep(Walk(w, step + 1, r.complete).0);
            !Walk(w, step + 1, r.complete).0.Threw? ==>
              step <= last && Asked(w, step, last) == w.model(step).calls + Asked(w, step + 1, last)
  {
    var r := WalkCalls(w, step, w.model(step).calls, 0, complete);
    if step < MAX_STEPS {
      EndsInTime(w, step + 1, r.complete);
    }
  }

  /** In a turn that throws nothing, every call of a tool that is no report tool is dispatched, in the order the model
      asked for them, whether or not a complete report came back. */
  lemma {:induction false} OtherToolsAreDispatched(w: World, step: nat, complete: bool)
    requires 1 <= step <= MAX_STEPS + 1 && !Walk(w, step, complete).0.Threw?
    ensures var (end, done) := Walk(w, step, complete); Others(NamesOf(done)) == Others(Asked(w, step, LastStep(end)))
    decreases MAX_STEPS + 1 - step
  {
    if step <= MAX_STEPS && Stops(w, step).None? {
      var names := w.model(step).calls;
      var r := WalkCalls(w, step, names, 0, complete);
      StepDispatches(w, step, names, 0, complete);
      OtherToolsAreDispatched(w, step + 1, r.complete);
      AskedNext(w, step, complete);
      WalkNames(w, step, complete);
      assert names[0..] == names;
      OthersConcat(NamesOf(r.done), NamesOf(Walk(w, step + 1, r.complete).1));
      OthersConcat(names, Asked(w, step + 1, LastStep(Walk(w, step, complete).0)));
    } else if step <= MAX_STEPS {
      assert Asked(w, step + 1, step) == [] && Asked(w, step, step) == [] + [];
    }
  }

  /** None of the tools asked for from this step on gives a complete report. */
  ghost predicate NeverComplete(w: World, step: nat) {
    forall k :: step <= k <= 6 && w.model(k).Completed? ==> NoCompleteReport(w, k, w.model(k).calls)
  }

  lemma StepHoldsNothingBack(w: World, step: nat, names: seq<string>)
    requires NoCompleteReport(w, step, names) && WalkCalls(w, step, names, 0, false).threw.None?
    ensures var r := WalkCalls(w, step, names, 0, false); !r.complete && NamesOf(r.done) == names
  {
    if names != [] {
      UntilCompleteAllDispatched(w, step, names, 0, 0);
      forall k | 0 <= k < |names|
        ensures NamesOf(WalkCalls(w, step, names, 0, false).done)[k] == names[k]
      {
        UntilCompleteAllDispatched(w, step, names, 0, k);
      }
    }
  }

  /** In a turn that throws nothing and gets no complete report, every call is dispatched, in order, report tools
      too. */
  lemma {:induction false} NothingIsHeldBack(w: World, step: nat)
    requires 1 <= step <= 7 && !Walk(w, step, false).0.Threw? && NeverComplete(w, step)
    ensures var (end, done) := Walk(w, step, false); NamesOf(done) == Asked(w, step, LastStep(end))
    decreases 7 - step
  {
    if step <= 6 && Stops(w, step).None? {
      var names := w.model(step).calls;
      StepHoldsNothingBack(w, step, names);
      NothingIsHeldBack(w, step + 1);
      AskedNext(w, step, false);
      WalkNames(w, step, false);
    } else if step <= 6 {
      assert Asked(w, step + 1, step) == [] && Asked(w, step, step) == [] + [];
    }
  }

  lemma WalkNames(w: World, step: nat, complete: bool)
    requires 1 <= step <= MAX_STEPS && Stops(w, step).None?
    requires var r := WalkCalls(w, step, w.model(step).calls, 0, complete); r.threw.None?
    ensures var r := WalkCalls(w, step, w.model(step).calls, 0, complete);
            NamesOf(Walk(w, step, complete).1) == NamesOf(r.done) + NamesOf(Walk(w, step + 1, r.complete).1)
  {
  }

  lemma WhatIsDispatched(w: World)
    requires !Turn(w).0.Threw?
    ensures var (end, done) := Turn(w);
            && Others(NamesOf(done)) == Others(Asked(w, 1, ModelCalls(end)))
            && (NeverComplete(w, 1) ==> NamesOf(done) == Asked(w, 1, ModelCalls(end)))
  {
    OtherToolsAreDispatched(w, 1, false);
    if NeverComplete(w, 1) {
      NothingIsHeldBack(w, 1);
    }
  }

  // ---- What the turn costs -------------------------------------------------------------------------

  datatype Outcome = Locked | Replied(steps: nat, staged: seq<Id>) | GaveUp(staged: seq<Id>) | Busy | Failed

  /** Ledger writes that may fail: the commit, the refund at exhaustion, the refund in the catch block. */
  datatype Writes = Writes(commitOk: bool, refundOk: bool, catchRefundOk: bool)

  function StagedIn(done: seq<Dispatched>): seq<Id> {
    if done == [] then [] else
    var d := done[|done| - 1];
    StagedIn(done[..|done| - 1]) + if d.pendingId.Some? then [d.pendingId.value] else []
  }

  ghost function Waiting(): Dispatched -> int { (d: Dispatched) => if d.pendingId.Some? then 1 else 0 }

  /** The staged ids are those of the dispatched calls that left something to confirm, in order and without gaps. */
  lemma {:induction false} StagedInOrder(done: seq<Dispatched>, i: nat)
    requires i < |done|
    ensures |StagedIn(done)| == SumOf(done, Waiting())
    ensures done[i].pendingId.Some? ==>
              var at := SumOf(done[..i], Waiting());
              0 <= at < |StagedIn(done)| && StagedIn(done)[at] == done[i].pendingId.value
  {
    var init := done[..|done| - 1];
    if init != [] {
      StagedInOrder(init, if i < |init| then i else 0);
    }
    if i < |init| {
      assert init[..i] == done[..i];
    } else {
      assert done[..i] == init;
      SumNonNegative(init, Waiting());
    }
  }

  function OutcomeOf(end: End, staged: seq<Id>, ok: Writes): Outcome {
    match end
    case Answered(step) => if ok.commitOk then Replied(step, staged) else Failed
    case Exhausted => if ok.refundOk then GaveUp(staged) else Failed
    case Threw(rateLimited, _) => if rateLimited then Busy else Failed
  }

  /** How a turn's outcome follows from what the model and the tools did: an answer only if the model gave one, giving
      up only after six calls, busy only for a rate limit, an error only for another one or a failed write; nothing
      held back but report tools after a complete report. */
  ghost predicate Accounts(w: World, ok: Writes, outcome: Outcome, modelCalls: nat, dispatched: seq<Dispatched>) {
    && modelCalls <= 6 && BreakerHolds(dispatched, false)
    && (outcome.Replied? ==> outcome.steps == modelCalls && w.model(modelCalls) == Completed([]))
    && (outcome.GaveUp? ==> modelCalls == 6)
    && (outcome == Busy ==> ThrownAt(w, modelCalls, true))
    && (outcome == Failed ==> ThrownAt(w, modelCalls, false) || !ok.commitOk || !ok.refundOk)
    && (outcome.Replied? || outcome.GaveUp? ==>
          && outcome.staged == StagedIn(dispatched)
          && Others(NamesOf(dispatched)) == Others(Asked(w, 1, modelCalls))
          && (NeverComplete(w, 1) ==> NamesOf(dispatched) == Asked(w, 1, modelCalls)))
  }

  lemma TurnAccounts(w: World, ok: Writes)
    ensures var (end, done) := Turn(w);
            Accounts(w, ok, OutcomeOf(end, StagedIn(done), ok), ModelCalls(end), done)
  {
    NoReportAfterCompleteReport(w, 1, false);
    EndsInTime(w, 1, false);
    ThrowsWhatWasThrown(w, 1, false);
    if !Turn(w).0.Threw? {
      WhatIsDispatched(w);
    }
  }

  lemma CommitCharge(dir: Directory, rows: seq<Row>, scope: Scope, key: Key)
    requires !HasKey(rows, CommitOf(key))
    ensures var rows' := Append(dir, rows, scope, Commit, 0, CommitOf(key), Some(key));
            ChargeFor(rows', key) == ChargeFor(rows, key) && Keys(rows') == Keys(rows) + {CommitOf(key)}
  {
    var row := Row(scope.event, Stamp(dir, scope), Commit, 0, CommitOf(key), Some(key));
    SumAppend(rows, row, ChargeOn(key));
    KeysAppend(rows, row);
  }

  lemma RefundCharge(dir: Directory, rows: seq<Row>, scope: Scope, key: Key)
    requires !HasKey(rows, RefundOf(key))
    ensures var rows' := Append(dir, rows, scope, Refund, 1, RefundOf(key), Some(key));
            ChargeFor(rows', key) == ChargeFor(rows, key) - 1
  {
    SumAppend(rows, Row(scope.event, Stamp(dir, scope), Refund, 1, RefundOf(key), Some(key)), ChargeOn(key));
  }

  lemma ReserveCharge(dir: Directory, rows: seq<Row>, scope: Scope, key: Key)
    requires !HasKey(rows, key)
    ensures var rows' := Append(dir, rows, scope, Reserve, 0 - 1, key, None);
            ChargeFor(rows', key) == ChargeFor(rows, key) + 1 && Keys(rows') == Keys(rows) + {key}
  {
    var row := Row(scope.event, Stamp(dir, scope), Reserve, 0 - 1, key, None);
    SumAppend(rows, row, ChargeOn(key));
    KeysAppend(rows, row);
  }

  // ---- The turn among others ---------------------------------------------------------------------

  /** What this turn is among many on one ledger. */
  function TurnSteps(turn: Id, scope: Scope, outcome: Outcome, ok: Writes): seq<AiTurns.Step> {
    [AiTurns.Begin(turn, scope),
     if outcome.Replied? then AiTurns.Answer(turn)
     else if outcome.GaveUp? || (!outcome.Locked? && ok.catchRefundOk) then AiTurns.GiveBack(turn)
     else AiTurns.Die(turn)]
  }

  /** The ledger after a turn of its own. */
  ghost function RowsOfTurn(dir: Directory, rows: seq<Row>, turn: Id, scope: Scope, outcome: Outcome, ok: Writes)
    : seq<Row>
  {
    AiTurns.Run(dir, AiTurns.State(rows, {}, map[], {}, {}), TurnSteps(turn, scope, outcome, ok)).rows
  }

  /** What is written at the end of a turn. */
  ghost function EndRows(dir: Directory, rows: seq<Row>, scope: Scope, key: Key, outcome: Outcome,
                         ok: Writes): seq<Row> {
    if outcome.Replied? then Append(dir, rows, scope, Commit, 0, CommitOf(key), Some(key))
    else if outcome.GaveUp? || (!outcome.Locked? && ok.catchRefundOk)
    then Append(dir, rows, scope, Refund, 1, RefundOf(key), Some(key))
    else rows
  }

  lemma TurnRows(dir: Directory, rows: seq<Row>, turn: Id, scope: Scope, outcome: Outcome, ok: Writes)
    ensures RowsOfTurn(dir, rows, turn, scope, outcome, ok)
            == if BalanceOf(dir, rows, scope) < 1 then rows
               else EndRows(dir, Append(dir, rows, scope, Reserve, 0 - 1, AiTurn(turn), None), scope, AiTurn(turn),
                            outcome, ok)
  {
    var s, steps := AiTurns.State(rows, {}, map[], {}, {}), TurnSteps(turn, scope, outcome, ok);
    var begun := AiTurns.Next(dir, s, steps[0]);
    assert steps[1..] == [steps[1]] && steps[1..][1..] == [];
    assert AiTurns.Run(dir, begun, steps[1..]) == AiTurns.Next(dir, begun, steps[1]);
  }

  ghost function Cost(outcome: Outcome, ok: Writes): int {
    if outcome.Replied? then 1 else if outcome.GaveUp? || outcome.Locked? || ok.catchRefundOk then 0 else 1
  }

  lemma EndCosts(dir: Directory, rows: seq<Row>, scope: Scope, key: Key, outcome: Outcome, ok: Writes)
    requires !HasKey(rows, CommitOf(key)) && !HasKey(rows, RefundOf(key)) && !outcome.Locked?
    ensures var rows' := EndRows(dir, rows, scope, key, outcome, ok);
            && ChargeFor(rows', key) == ChargeFor(rows, key) + Cost(outcome, ok) - 1
            && (scope.event.Some? || scope.account.Some? ==>
                  BalanceOf(dir, rows', scope) == BalanceOf(dir, rows, scope) - Cost(outcome, ok) + 1)
  {
    AppendMovesOwnBalance(dir, rows, scope, Commit, 0, CommitOf(key), Some(key));
    AppendMovesOwnBalance(dir, rows, scope, Refund, 1, RefundOf(key), Some(key));
    CommitCharge(dir, rows, scope, key);
    RefundCharge(dir, rows, scope, key);
  }

  predicate FreshTurn(rows: seq<Row>, turn: Id) {
    var k := AiTurn(turn);
    !HasKey(rows, k) && !HasKey(rows, CommitOf(k)) && !HasKey(rows, RefundOf(k))
  }

  lemma TurnCosts(dir: Directory, rows: seq<Row>, turn: Id, scope: Scope, outcome: Outcome, ok: Writes)
    requires FreshTurn(rows, turn) && ChargeFor(rows, AiTurn(turn)) == 0
    requires outcome.Locked? <==> BalanceOf(dir, rows, scope) < 1
    ensures var rows' := RowsOfTurn(dir, rows, turn, scope, outcome, ok);
            && ChargeFor(rows', AiTurn(turn)) == Cost(outcome, ok)
            && (scope.event.Some? || scope.account.Some? ==>
                  BalanceOf(dir, rows', scope) == BalanceOf(dir, rows, scope) - Cost(outcome, ok))
  {
    var key := AiTurn(turn);
    TurnRows(dir, rows, turn, scope, outcome, ok);
    if !outcome.Locked? {
      ReserveCharge(dir, rows, scope, key);
      AppendMovesOwnBalance(dir, rows, scope, Reserve, 0 - 1, key, None);
      EndCosts(dir, Append(dir, rows, scope, Reserve, 0 - 1, key, None), scope, key, outcome, ok);
    }
  }

  class AssistantService {
    const billing: BillingService

    constructor (billing: BillingService)
      ensures this.billing == billing
    {
      this.billing := billing;
    }

    /** The turn's key is a fresh UUID. At most MAX_STEPS model calls; the turn costs one credit exactly when it
        returns the model's final answer or every refund write it made failed, and otherwise nothing. */
    method RunLoop(scope: Scope, turn: Id, w: World, ok: Writes)
      returns (outcome: Outcome, modelCalls: nat, dispatched: seq<Dispatched>)
      requires FreshTurn(billing.rows, turn) && ChargeFor(billing.rows, AiTurn(turn)) == 0
      modifies billing
      ensures outcome == Locked <==> BalanceOf(billing.dir, old(billing.rows), scope) < 1
      ensures outcome == Locked ==> billing.rows == old(billing.rows) && modelCalls == 0 && dispatched == []
      ensures outcome != Locked ==>
                && dispatched == Turn(w).1 && modelCalls == ModelCalls(Turn(w).0)
                && outcome == OutcomeOf(Turn(w).0, StagedIn(dispatched), ok)
      ensures outcome != Locked ==> Accounts(w, ok, outcome, modelCalls, dispatched)
      ensures ChargeFor(billing.rows, AiTurn(turn))
              == if outcome.Replied? then 1 else if outcome.GaveUp? || outcome.Locked? || ok.catchRefundOk then 0 else 1
      ensures scope.event.Some? || scope.account.Some? ==>
                BalanceOf(billing.dir, billing.rows, scope)
                == BalanceOf(billing.dir, old(billing.rows), scope) - ChargeFor(billing.rows, AiTurn(turn))
      ensures billing.rows == RowsOfTurn(billing.dir, old(billing.rows), turn, scope, outcome, ok)
    {
      ghost var rows := billing.rows;
      var reserved, _ := billing.ReserveCredits(scope, 1, AiTurn(turn));
      if !reserved {
        TurnRows(billing.dir, rows, turn, scope, Locked, ok);
        TurnCosts(billing.dir, rows, turn, scope, Locked, ok);
        return Locked, 0, [];
      }
      var end;
      end, dispatched, modelCalls := RunReservedLoop(w);
      TurnAccounts(w, ok);
      var staged := StagedIn(dispatched);
      outcome := Settle(scope, AiTurn(turn), end, staged, ok);
      TurnRows(billing.dir, rows, turn, scope, outcome, ok);
      TurnCosts(billing.dir, rows, turn, scope, outcome, ok);
    }

    /** The commit, the refund at exhaustion and the catch block around them. */
    method Settle(scope: Scope, key: Key, end: End, staged: seq<Id>, ok: Writes) returns (outcome: Outcome)
      modifies billing
      ensures outcome == OutcomeOf(end, staged, ok)
      ensures billing.rows == EndRows(billing.dir, old(billing.rows), scope, key, outcome, ok)
    {
      if end.Answered? && ok.commitOk {
        billing.CommitReserve(scope, key);
        return Replied(end.step, staged);
      }
      if end.Exhausted? && ok.refundOk {
        billing.RefundReserve(scope, 1, key);
        return GaveUp(staged);
      }
      if ok.catchRefundOk {
        billing.RefundReserve(scope, 1, key);
      }
      return if end.Threw? && end.rateLimited then Busy else Failed;
    }

    /** The context, then the bounded loop with the circuit breaker as a flag. */
    method RunReservedLoop(w: World) returns (end: End, dispatched: seq<Dispatched>, modelCalls: nat)
      ensures (end, dispatched) == Turn(w)
      ensures modelCalls == ModelCalls(end)
    {
      dispatched, modelCalls := [], 0;
      if w.context.Some? {
        return Threw(w.context.value, 0), [], 0;
      }
      ghost var all := Walk(w, 1, false);
      var reportAlreadyComplete := false;
      var step := 1;
      assert dispatched + all.1 == all.1;
      while step <= MAX_STEPS
        invariant 1 <= step <= MAX_STEPS + 1 && modelCalls == step - 1
        invariant all == After(dispatched, Walk(w, step, reportAlreadyComplete))
      {
        var reply := w.model(step);
        modelCalls := modelCalls + 1;
        if reply.RateLimited? || reply.ModelError? {
          WalkStops(w, step, reportAlreadyComplete, dispatched);
          return Threw(reply.RateLimited?, step), dispatched, modelCalls;
        }
        var metered := w.meter(step);
        if metered.Some? {
          WalkStops(w, step, reportAlreadyComplete, dispatched);
          return Threw(metered.value, step), dispatched, modelCalls;
        }
        if reply.calls == [] {
          WalkStops(w, step, reportAlreadyComplete, dispatched);
          return Answered(step), dispatched, modelCalls;
        }
        WalkStep(w, step, reportAlreadyComplete, dispatched);
        var done, complete, threw := RunCalls(w, step, reply.calls, reportAlreadyComplete);
        dispatched := dispatched + done;
        if threw.Some? {
          return Threw(threw.value, step), dispatched, modelCalls;
        }
        reportAlreadyComplete := complete;
        step := step + 1;
      }
      WalkStops(w, step, reportAlreadyComplete, dispatched);
      return Exhausted, dispatched, modelCalls;
    }

    method RunCalls(w: World, step: nat, names: seq<string>, alreadyComplete: bool)
      returns (done: seq<Dispatched>, complete: bool, threw: Option<bool>)
      ensures CallsEnd(done, complete, threw) == WalkCalls(w, step, names, 0, alreadyComplete)
    {
      done, complete, threw := [], alreadyComplete, None;
      ghost var all := WalkCalls(w, step, names, 0, alreadyComplete);
      assert done + all.done == all.done;
      var i := 0;
      while i < |names|
        invariant i <= |names| && threw.None?
        invariant all == Following(done, WalkCalls(w, step, names, i, complete))
      {
        if !(complete && ReportTool(names[i])) {
          CallStep(w, step, names, i, complete, done);
          var outcome := w.tool(step, i);
          if outcome.ToolError? {
            return done, complete, Some(outcome.rateLimited);
          }
          var d := Dispatched(names[i], outcome.complete, outcome.pendingId);
          done := done + [d];
          complete := complete || CompleteReport(d);
        }
        i := i + 1;
      }
      assert done + [] == done;
    }
  }
}
