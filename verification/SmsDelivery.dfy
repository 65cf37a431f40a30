/** Campaigns as the drain delivers them: a dispatch's commit enqueues its campaign's one outbox row, and a worker
    processes a campaign only while that row is at the head of its claimed batch. */
module SmsDelivery {
  import opened Prelude
  import opened CreditLedger
  import Box = OutboxDrain
  import Sms = SmsCampaigns
  import SmsAccounts

  const TOPIC: string := "sms.campaign"

  /** `payload` maps outbox rows to their campaigns; `drawn` holds every campaign id ever drawn. */
  datatype State = State(box: Box.State, sms: Sms.State, payload: map<nat, Id>, drawn: set<Id>)

  datatype Step =
    | OpenDispatch(d: nat, campaign: Id)
    | Dispatching(step: Sms.Step)
    | CommitDispatch(d: nat)
    | Enqueue(topic: string)
    | Claim(w: nat, size: nat, locked: set<nat>)
    | Start(w: nat)
    | Settle(w: nat, id: Id, delivered: bool)
    | Finish(w: nat)
    | Fail(w: nat)
    | Crash(w: nat)
    | HandleOther(w: nat, succeeds: bool)
    | OtherWrite(row: Row)

  predicate HasHead(box: Box.State, w: nat) { w < |box.batches| && box.batches[w] != [] }

  /** The worker is at a campaign's row. */
  predicate AtCampaign(s: State, w: nat) { HasHead(s.box, w) && s.box.batches[w][0] in s.payload }

  /** What a step is for the messages and credits. */
  function SmsStep(s: State, step: Step): Option<Sms.Step> {
    match step
    case OpenDispatch(d, c) => if c in s.drawn then None else Some(Sms.OpenDispatch(d, c))
    case Dispatching(step) =>
      if step.CheckCredit? || step.DebitCredit? || step.CreateMessage? || step.AbortDispatch? then Some(step) else None
    case CommitDispatch(d) => Some(Sms.CommitDispatch(d))
    case Start(w) => if AtCampaign(s, w) then Some(Sms.Snapshot(w, s.payload[s.box.batches[w][0]])) else None
    case Settle(w, id, delivered) => Some(Sms.Settle(w, id, delivered))
    case Finish(w) => Some(Sms.CommitWorker(w))
    case Fail(w) => if AtCampaign(s, w) then Some(Sms.AbortWorker(w)) else None
    case Crash(w) => Some(Sms.AbortWorker(w))
    case OtherWrite(row) => Some(Sms.OtherWrite(row))
    case _ => None
  }

  /** The dispatch is about to commit messages. */
  predicate Commits(s: State, d: nat) {
    d in s.sms.dispatches && s.sms.dispatches[d].slot.Idle? && s.sms.dispatches[d].buffer != {}
  }

  predicate Finishes(s: State, w: nat) { w in s.sms.workers && s.sms.workers[w].todo == {} }

  /** What it is for the outbox: a commit enqueues in the same transaction, a failed campaign is re-opened. */
  function BoxStep(s: State, step: Step): Option<Box.Step> {
    match step
    case CommitDispatch(d) => if Commits(s, d) then Some(Box.Enqueue(TOPIC)) else None
    case Enqueue(topic) => if topic == TOPIC then None else Some(Box.Enqueue(topic))
    case Claim(w, size, locked) => Some(Box.Claim(w, size, locked))
    case Finish(w) => if Finishes(s, w) then Some(Box.Handle(w, true)) else None
    case Fail(w) => if AtCampaign(s, w) then Some(Box.Handle(w, false)) else None
    case Crash(w) => Some(Box.Crash(w))
    case HandleOther(w, succeeds) => if AtCampaign(s, w) then None else Some(Box.Handle(w, succeeds))
    case _ => None
  }

  ghost function SmsNext(dir: Directory, event: Id, sms: Sms.State, step: Option<Sms.Step>): Sms.State {
    if step.Some? then Sms.Next(dir, event, sms, step.value) else sms
  }

  function BoxNext(handlers: set<string>, box: Box.State, step: Option<Box.Step>): Box.State {
    if step.Some? then Box.Next(handlers + {TOPIC}, box, step.value) else box
  }

  /** The handlers besides the campaign handler, which the worker registers at boot, are arbitrary. */
  ghost function Next(dir: Directory, event: Id, handlers: set<string>, s: State, step: Step): State {
    State(BoxNext(handlers, s.box, BoxStep(s, step)), SmsNext(dir, event, s.sms, SmsStep(s, step)),
          if step.CommitDispatch? && Commits(s, step.d)
          then s.payload[|s.box.rows| := s.sms.dispatches[step.d].campaign]
          else s.payload,
          if step.OpenDispatch? then s.drawn + {step.campaign} else s.drawn)
  }

  ghost function Run(dir: Directory, event: Id, handlers: set<string>, s: State, steps: seq<Step>): State
    decreases |steps|
  {
    if steps == [] then s else Run(dir, event, handlers, Next(dir, event, handlers, s, steps[0]), steps[1..])
  }

  predicate Initial(s: State) { Box.Initial(s.box) && Sms.Initial(s.sms) && s.payload == map[] && s.drawn == {} }

  // ---- The invariant -------------------------------------------------------------------------

  predicate Listed(payload: map<nat, Id>, c: Id) { exists r :: r in payload && payload[r] == c }

  /** Every campaign has at most one outbox row. */
  ghost predicate RowsOk(box: Box.State, payload: map<nat, Id>, drawn: set<Id>) {
    && (forall r :: r in payload ==> r < |box.rows| && box.rows[r].topic == TOPIC && payload[r] in drawn)
    && (forall q, r :: q in payload && r in payload && payload[q] == payload[r] ==> q == r)
  }

  /** ... and at most one dispatch, whose campaign has no row before it commits. */
  ghost predicate DispatchesOk(ds: map<nat, Sms.Dispatch>, payload: map<nat, Id>, drawn: set<Id>) {
    && (forall d :: d in ds ==> ds[d].campaign in drawn && !Listed(payload, ds[d].campaign))
    && (forall d, e :: d in ds && e in ds && d != e ==> ds[d].campaign != ds[e].campaign)
  }

  /** A campaign with messages has a row; one that leaked credits has neither row nor dispatch. */
  ghost predicate CampaignsOk(sms: Sms.State, payload: map<nat, Id>, drawn: set<Id>) {
    && (forall id :: id in sms.messages ==> Listed(payload, sms.messages[id].campaign))
    && (forall id :: id in sms.leaked ==>
          && id in sms.issued && sms.issued[id] in drawn && !Listed(payload, sms.issued[id])
          && forall d :: d in sms.dispatches ==> sms.dispatches[d].campaign != sms.issued[id])
  }

  /** A worker processes the campaign of the row at the head of its batch. */
  ghost predicate WorkersOk(box: Box.State, ws: map<nat, Sms.Processing>, payload: map<nat, Id>) {
    forall w :: w in ws ==>
      HasHead(box, w) && box.batches[w][0] in payload && payload[box.batches[w][0]] == ws[w].campaign
  }

  ghost predicate Inv(s: State) {
    && Box.Inv(s.box) && Sms.Inv(s.sms) && RowsOk(s.box, s.payload, s.drawn)
    && DispatchesOk(s.sms.dispatches, s.payload, s.drawn) && CampaignsOk(s.sms, s.payload, s.drawn)
    && WorkersOk(s.box, s.sms.workers, s.payload)
  }

  // ---- Each step keeps it -----------------------------------------------------------------------

  /** Rows keep their topic, and a head stays until it is handled or its worker crashes. */
  lemma BoxKeeps(handlers: set<string>, box: Box.State, step: Box.Step, w: nat)
    ensures var box' := Box.Next(handlers, box, step);
            && |box.rows| <= |box'.rows|
            && (forall r :: 0 <= r < |box.rows| ==> box'.rows[r].topic == box.rows[r].topic)
            && (HasHead(box, w) && !((step.Handle? || step.Crash?) && step.w == w) ==>
                  HasHead(box', w) && box'.batches[w][0] == box.batches[w][0])
  {
    Box.StepSkips(handlers, box, step, 0);
  }

  /** A worker was there before on the same campaign, or has just taken its snapshot. */
  lemma SmsKeepsWorker(dir: Directory, event: Id, sms: Sms.State, step: Sms.Step, w: nat)
    requires w in Sms.Next(dir, event, sms, step).workers
    ensures var p := Sms.Next(dir, event, sms, step).workers[w];
            if w in sms.workers then
              && p.campaign == sms.workers[w].campaign && !(step.AbortWorker? && step.w == w)
              && !(step.CommitWorker? && step.w == w && sms.workers[w].todo == {})
            else step == Sms.Snapshot(w, p.campaign)
  {
  }

  lemma WorkerKept(dir: Directory, event: Id, handlers: set<string>, s: State, step: Step, w: nat)
    requires WorkersOk(s.box, s.sms.workers, s.payload) && RowsOk(s.box, s.payload, s.drawn)
    requires w in Next(dir, event, handlers, s, step).sms.workers
    ensures var s' := Next(dir, event, handlers, s, step);
            && HasHead(s'.box, w) && s'.box.batches[w][0] in s'.payload
            && s'.payload[s'.box.batches[w][0]] == s'.sms.workers[w].campaign
  {
    if SmsStep(s, step).Some? {
      SmsKeepsWorker(dir, event, s.sms, SmsStep(s, step).value, w);
    }
    if BoxStep(s, step).Some? {
      BoxKeeps(handlers + {TOPIC}, s.box, BoxStep(s, step).value, w);
    }
  }

  lemma WorkersKept(dir: Directory, event: Id, handlers: set<string>, s: State, step: Step)
    requires WorkersOk(s.box, s.sms.workers, s.payload) && RowsOk(s.box, s.payload, s.drawn)
    ensures var s' := Next(dir, event, handlers, s, step); WorkersOk(s'.box, s'.sms.workers, s'.payload)
  {
    forall w | w in Next(dir, event, handlers, s, step).sms.workers
      ensures var s' := Next(dir, event, handlers, s, step);
              && HasHead(s'.box, w) && s'.box.batches[w][0] in s'.payload
              && s'.payload[s'.box.batches[w][0]] == s'.sms.workers[w].campaign
    {
      WorkerKept(dir, event, handlers, s, step, w);
    }
  }

  lemma RowsKept(dir: Directory, event: Id, handlers: set<string>, s: State, step: Step)
    requires RowsOk(s.box, s.payload, s.drawn) && DispatchesOk(s.sms.dispatches, s.payload, s.drawn)
    ensures var s' := Next(dir, event, handlers, s, step); RowsOk(s'.box, s'.payload, s'.drawn)
  {
    if BoxStep(s, step).Some? {
      BoxKeeps(handlers + {TOPIC}, s.box, BoxStep(s, step).value, 0);
    }
    if step.CommitDispatch? && Commits(s, step.d) {
      assert forall r :: r in s.payload ==> s.payload[r] != s.sms.dispatches[step.d].campaign;
    }
  }

  /** A dispatch was there before with the same campaign, or has just been opened; a committing one is gone. */
  lemma SmsKeepsDispatch(dir: Directory, event: Id, sms: Sms.State, step: Sms.Step, d: nat)
    requires d in Sms.Next(dir, event, sms, step).dispatches
    ensures var t := Sms.Next(dir, event, sms, step).dispatches[d];
            if d in sms.dispatches then
              && t.campaign == sms.dispatches[d].campaign && !(step.AbortDispatch? && step.d == d)
              && !(step.CommitDispatch? && step.d == d && sms.dispatches[d].slot.Idle?)
            else step == Sms.OpenDispatch(d, t.campaign)
  {
  }

  lemma ListedGrows(payload: map<nat, Id>, r: nat, c: Id, k: Id)
    requires r !in payload
    ensures Listed(payload[r := c], k) <==> Listed(payload, k) || k == c
  {
    if Listed(payload, k) {
      var q :| q in payload && payload[q] == k;
      assert payload[r := c][q] == k;
    }
    assert payload[r := c][r] == c;
  }

  lemma PayloadGrows(dir: Directory, event: Id, handlers: set<string>, s: State, step: Step, k: Id)
    requires RowsOk(s.box, s.payload, s.drawn)
    ensures Listed(Next(dir, event, handlers, s, step).payload, k)
            <==> Listed(s.payload, k)
                 || (step.CommitDispatch? && Commits(s, step.d) && k == s.sms.dispatches[step.d].campaign)
  {
    if step.CommitDispatch? && Commits(s, step.d) {
      ListedGrows(s.payload, |s.box.rows|, s.sms.dispatches[step.d].campaign, k);
    }
  }

  lemma DispatchKept(dir: Directory, event: Id, handlers: set<string>, s: State, step: Step, d: nat)
    requires RowsOk(s.box, s.payload, s.drawn) && DispatchesOk(s.sms.dispatches, s.payload, s.drawn)
    requires d in Next(dir, event, handlers, s, step).sms.dispatches
    ensures var s' := Next(dir, event, handlers, s, step);
            var c := s'.sms.dispatches[d].campaign;
            && c in s'.drawn && !Listed(s'.payload, c)
            && (if d in s.sms.dispatches then c == s.sms.dispatches[d].campaign
                else c !in s.drawn && step == OpenDispatch(d, c))
  {
    var c := Next(dir, event, handlers, s, step).sms.dispatches[d].campaign;
    if SmsStep(s, step).Some? {
      SmsKeepsDispatch(dir, event, s.sms, SmsStep(s, step).value, d);
    }
    PayloadGrows(dir, event, handlers, s, step, c);
    assert d !in s.sms.dispatches ==> forall r :: r in s.payload ==> s.payload[r] != c;
  }

  lemma DispatchesKept(dir: Directory, event: Id, handlers: set<string>, s: State, step: Step)
    requires RowsOk(s.box, s.payload, s.drawn) && DispatchesOk(s.sms.dispatches, s.payload, s.drawn)
    ensures var s' := Next(dir, event, handlers, s, step); DispatchesOk(s'.sms.dispatches, s'.payload, s'.drawn)
  {
    var ds := Next(dir, event, handlers, s, step).sms.dispatches;
    forall d | d in ds
      ensures ds[d].campaign in Next(dir, event, handlers, s, step).drawn
      ensures !Listed(Next(dir, event, handlers, s, step).payload, ds[d].campaign)
    {
      DispatchKept(dir, event, handlers, s, step, d);
    }
    forall d, e | d in ds && e in ds && d != e
      ensures ds[d].campaign != ds[e].campaign
    {
      DispatchKept(dir, event, handlers, s, step, d);
      DispatchKept(dir, event, handlers, s, step, e);
    }
  }

  /** A message was there before with the same campaign, or has just been committed by a dispatch of its campaign. */
  lemma SmsKeepsMessage(dir: Directory, event: Id, sms: Sms.State, step: Sms.Step, id: Id)
    requires id in Sms.Next(dir, event, sms, step).messages
    ensures var c := Sms.Next(dir, event, sms, step).messages[id].campaign;
            || (id in sms.messages && c == sms.messages[id].campaign)
            || (step.CommitDispatch? && step.d in sms.dispatches && sms.dispatches[step.d].slot.Idle?
                && id in sms.dispatches[step.d].buffer && c == sms.dispatches[step.d].campaign)
  {
  }

  lemma MessageKept(dir: Directory, event: Id, handlers: set<string>, s: State, step: Step, id: Id)
    requires RowsOk(s.box, s.payload, s.drawn) && CampaignsOk(s.sms, s.payload, s.drawn)
    requires id in Next(dir, event, handlers, s, step).sms.messages
    ensures var s' := Next(dir, event, handlers, s, step); Listed(s'.payload, s'.sms.messages[id].campaign)
  {
    if SmsStep(s, step).Some? {
      SmsKeepsMessage(dir, event, s.sms, SmsStep(s, step).value, id);
    }
    PayloadGrows(dir, event, handlers, s, step, Next(dir, event, handlers, s, step).sms.messages[id].campaign);
  }

  /** An id leaked before, or by the abort of the dispatch that held it; it keeps its campaign. */
  lemma SmsKeepsLeak(dir: Directory, event: Id, sms: Sms.State, step: Sms.Step, id: Id)
    requires Sms.Inv(sms) && id in Sms.Next(dir, event, sms, step).leaked
    ensures var sms' := Sms.Next(dir, event, sms, step);
            && id in sms.issued && id in sms'.issued && sms'.issued[id] == sms.issued[id]
            && (id in sms.leaked || (step.AbortDispatch? && step.d in sms.dispatches
                                     && sms.dispatches[step.d].campaign == sms.issued[id]))
  {
    if id !in sms.leaked {
      assert Sms.DispatchOk(sms.rows, sms.issued, sms.messages, sms.dispatches[step.d]);
    }
  }

  lemma LeakKept(dir: Directory, event: Id, handlers: set<string>, s: State, step: Step, id: Id)
    requires Inv(s) && id in Next(dir, event, handlers, s, step).sms.leaked
    ensures var s' := Next(dir, event, handlers, s, step);
            && id in s'.sms.issued && s'.sms.issued[id] in s'.drawn && !Listed(s'.payload, s'.sms.issued[id])
            && forall d :: d in s'.sms.dispatches ==> s'.sms.dispatches[d].campaign != s'.sms.issued[id]
  {
    var s' := Next(dir, event, handlers, s, step);
    if SmsStep(s, step).Some? {
      SmsKeepsLeak(dir, event, s.sms, SmsStep(s, step).value, id);
    }
    PayloadGrows(dir, event, handlers, s, step, s.sms.issued[id]);
    forall d | d in s'.sms.dispatches
      ensures s'.sms.dispatches[d].campaign != s'.sms.issued[id]
    {
      DispatchKept(dir, event, handlers, s, step, d);
      if SmsStep(s, step).Some? {
        SmsKeepsDispatch(dir, event, s.sms, SmsStep(s, step).value, d);
      }
    }
  }

  lemma CampaignsKept(dir: Directory, event: Id, handlers: set<string>, s: State, step: Step)
    requires Inv(s)
    ensures var s' := Next(dir, event, handlers, s, step); CampaignsOk(s'.sms, s'.payload, s'.drawn)
  {
    var s' := Next(dir, event, handlers, s, step);
    forall id | id in s'.sms.messages
      ensures Listed(s'.payload, s'.sms.messages[id].campaign)
    {
      MessageKept(dir, event, handlers, s, step, id);
    }
    forall id | id in s'.sms.leaked
      ensures id in s'.sms.issued && s'.sms.issued[id] in s'.drawn && !Listed(s'.payload, s'.sms.issued[id])
      ensures forall d :: d in s'.sms.dispatches ==> s'.sms.dispatches[d].campaign != s'.sms.issued[id]
    {
      LeakKept(dir, event, handlers, s, step, id);
    }
  }

  lemma NextKeepsInv(dir: Directory, event: Id, handlers: set<string>, s: State, step: Step)
    requires Inv(s)
    ensures Inv(Next(dir, event, handlers, s, step))
  {
    if BoxStep(s, step).Some? {
      Box.NextKeepsInv(handlers + {TOPIC}, s.box, BoxStep(s, step).value);
    }
    if SmsStep(s, step).Some? {
      Sms.NextKeepsInv(dir, event, s.sms, SmsStep(s, step).value);
    }
    RowsKept(dir, event, handlers, s, step);
    DispatchesKept(dir, event, handlers, s, step);
    CampaignsKept(dir, event, handlers, s, step);
    WorkersKept(dir, event, handlers, s, step);
  }

  lemma InitialInv(s: State)
    requires Initial(s)
    ensures Inv(s)
  {
    Box.InitialInv(s.box);
    Sms.InitialInv(s.sms);
  }

  lemma {:induction false} RunKeepsInv(dir: Directory, event: Id, handlers: set<string>, s: State, steps: seq<Step>)
    requires Inv(s)
    ensures Inv(Run(dir, event, handlers, s, steps))
    decreases |steps|
  {
    if steps != [] {
      NextKeepsInv(dir, event, handlers, s, steps[0]);
      RunKeepsInv(dir, event, handlers, Next(dir, event, handlers, s, steps[0]), steps[1..]);
    }
  }

  // ---- The drain rules out overlap --------------------------------------------------------------

  /** Two workers are never at one campaign. */
  lemma OneHead(s: State, v: nat, w: nat)
    requires Inv(s) && AtCampaign(s, v) && AtCampaign(s, w)
    requires s.payload[s.box.batches[v][0]] == s.payload[s.box.batches[w][0]]
    ensures v == w
  {
    Box.InBatch(s.box, w, s.box.batches[w][0]);
    assert s.box.batches[v][0] in s.box.batches[v];
  }

  /** In every run no campaign is processed by two workers at once. */
  lemma NoOverlap(dir: Directory, event: Id, handlers: set<string>, s: State, steps: seq<Step>, v: nat, w: nat)
    requires Initial(s)
    ensures var ws := Run(dir, event, handlers, s, steps).sms.workers;
            v in ws && w in ws && ws[v].campaign == ws[w].campaign ==> v == w
  {
    var end := Run(dir, event, handlers, s, steps);
    InitialInv(s);
    RunKeepsInv(dir, event, handlers, s, steps);
    if v in end.sms.workers && w in end.sms.workers && end.sms.workers[v].campaign == end.sms.workers[w].campaign {
      OneHead(end, v, w);
    }
  }

  /** The worker on the campaign fails or crashes. */
  predicate Aborts(s: State, step: Step, c: Id) {
    (step.Fail? || step.Crash?) && step.w in s.sms.workers && s.sms.workers[step.w].campaign == c
  }

  ghost predicate NeverAborts(dir: Directory, event: Id, handlers: set<string>, s: State, steps: seq<Step>, c: Id)
    decreases |steps|
  {
    steps != [] ==>
      !Aborts(s, steps[0], c)
         && NeverAborts(dir, event, handlers, Next(dir, event, handlers, s, steps[0]), steps[1..], c)
  }

  /** The run as the messages and credits see it. */
  ghost function Project(dir: Directory, event: Id, handlers: set<string>, s: State, steps: seq<Step>): seq<Sms.Step>
    decreases |steps|
  {
    if steps == [] then []
    else
      var rest := Project(dir, event, handlers, Next(dir, event, handlers, s, steps[0]), steps[1..]);
      if SmsStep(s, steps[0]).Some? then [SmsStep(s, steps[0]).value] + rest else rest
  }

  lemma StartIsAlone(s: State, w: nat)
    requires Inv(s) && AtCampaign(s, w) && w !in s.sms.workers
    ensures SmsAccounts.NoWorkerOn(s.sms, s.payload[s.box.batches[w][0]])
  {
    forall v | v in s.sms.workers
      ensures s.sms.workers[v].campaign != s.payload[s.box.batches[w][0]]
    {
      if s.sms.workers[v].campaign == s.payload[s.box.batches[w][0]] {
        OneHead(s, v, w);
      }
    }
  }

  lemma StepIsCalm(s: State, step: Step, c: Id)
    requires Inv(s) && SmsStep(s, step).Some? && !Aborts(s, step, c)
    ensures SmsAccounts.CalmStep(s.sms, SmsStep(s, step).value, c)
  {
    if step.Start? && step.w !in s.sms.workers {
      StartIsAlone(s, step.w);
    }
  }

  /** Every run through the drain is a run of the messages and credits, and a calm one unless a worker aborts. */
  lemma {:induction false} ProjectionIsCalm(dir: Directory, event: Id, handlers: set<string>, s: State,
                                            steps: seq<Step>, c: Id)
    requires Inv(s)
    ensures var sms := Project(dir, event, handlers, s, steps);
            && Run(dir, event, handlers, s, steps).sms == Sms.Run(dir, event, s.sms, sms)
            && (NeverAborts(dir, event, handlers, s, steps, c) ==> SmsAccounts.Calm(dir, event, s.sms, sms, c))
    decreases |steps|
  {
    if steps != [] {
      var s' := Next(dir, event, handlers, s, steps[0]);
      NextKeepsInv(dir, event, handlers, s, steps[0]);
      ProjectionIsCalm(dir, event, handlers, s', steps[1..], c);
      if SmsStep(s, steps[0]).Some? {
        var rest := Project(dir, event, handlers, s', steps[1..]);
        assert ([SmsStep(s, steps[0]).value] + rest)[1..] == rest;
        if !Aborts(s, steps[0], c) {
          StepIsCalm(s, steps[0], c);
        }
      }
    }
  }

  /** A campaign whose dispatch has committed has leaked nothing and has no dispatch any more. */
  lemma ListedHasNoOrphans(s: State, c: Id)
    requires Inv(s) && Listed(s.payload, c)
    ensures SmsAccounts.Orphans(s.sms, c) == {} && SmsAccounts.NoDispatchOn(s.sms, c)
  {
  }

  /** Through the drain, whatever else happens: a campaign whose dispatch has committed and whose workers never fail or
      crash has, whenever no worker is on it, spent exactly its SENT and still QUEUED messages. */
  lemma DeliveredCampaignCostsWhatItSends(dir: Directory, event: Id, handlers: set<string>, s: State, steps: seq<Step>,
                                          c: Id)
    requires Initial(s) && NeverAborts(dir, event, handlers, s, steps, c)
    requires var end := Run(dir, event, handlers, s, steps);
             Listed(end.payload, c) && SmsAccounts.NoWorkerOn(end.sms, c)
    ensures var end := Run(dir, event, handlers, s, steps).sms; SmsAccounts.Spent(end, c) == SmsAccounts.Live(end, c)
  {
    var end := Run(dir, event, handlers, s, steps);
    InitialInv(s);
    RunKeepsInv(dir, event, handlers, s, steps);
    ProjectionIsCalm(dir, event, handlers, s, steps, c);
    SmsAccounts.CalmRunKeepsQuiet(dir, event, s.sms, Project(dir, event, handlers, s, steps), c, {});
    ListedHasNoOrphans(end, c);
    SmsAccounts.QuietAccounts(end.sms, c);
  }

  // ---- What a row is and what becomes of it ------------------------------------------------

  /** Exactly the rows of the campaign topic belong to a campaign. */
  ghost predicate RowsHaveCampaigns(box: Box.State, payload: map<nat, Id>) {
    forall r: nat :: r in payload <==> r < |box.rows| && box.rows[r].topic == "sms.campaign"
  }

  lemma StepGivesCampaigns(dir: Directory, event: Id, handlers: set<string>, s: State, step: Step)
    requires RowsHaveCampaigns(s.box, s.payload)
    ensures var s' := Next(dir, event, handlers, s, step); RowsHaveCampaigns(s'.box, s'.payload)
  {
    var box := BoxStep(s, step);
    if box.Some? {
      BoxKeeps(handlers + {TOPIC}, s.box, box.value, 0);
      BoxGrows(handlers + {TOPIC}, s.box, box.value);
    }
  }

  lemma BoxGrows(handlers: set<string>, box: Box.State, step: Box.Step)
    ensures var box' := Box.Next(handlers, box, step);
            if step.Enqueue? then |box'.rows| == |box.rows| + 1 && box'.rows[|box.rows|].topic == step.topic
            else |box'.rows| == |box.rows|
  {
  }

  /** In every run exactly the rows of the campaign topic belong to a campaign. */
  lemma {:induction false} EveryRowHasItsCampaign(dir: Directory, event: Id, handlers: set<string>, s: State,
                                                  steps: seq<Step>)
    requires RowsHaveCampaigns(s.box, s.payload)
    ensures var end := Run(dir, event, handlers, s, steps); RowsHaveCampaigns(end.box, end.payload)
    decreases |steps|
  {
    if steps != [] {
      StepGivesCampaigns(dir, event, handlers, s, steps[0]);
      EveryRowHasItsCampaign(dir, event, handlers, Next(dir, event, handlers, s, steps[0]), steps[1..]);
    }
  }

  lemma HeadTopic(s: State, w: nat)
    requires Box.Inv(s.box) && RowsOk(s.box, s.payload, s.drawn) && AtCampaign(s, w)
    ensures var row := s.box.batches[w][0];
            row < |s.box.rows| && !s.box.rows[row].pending && s.box.rows[row].topic == TOPIC
  {
    Box.InBatch(s.box, w, s.box.batches[w][0]);
  }

  /** A worker that fails at a campaign's row lets go of the campaign, whose messages stay as they are, and re-opens the
      row with one attempt more. */
  lemma FailReopens(dir: Directory, event: Id, handlers: set<string>, s: State, w: nat)
    requires Box.Inv(s.box) && RowsOk(s.box, s.payload, s.drawn) && AtCampaign(s, w)
    ensures var row, s' := s.box.batches[w][0], Next(dir, event, handlers, s, Fail(w));
            && row < |s.box.rows| == |s'.box.rows| && s'.box.batches == s.box.batches[w := s.box.batches[w][1..]]
            && s'.box.rows[row].pending && s'.box.rows[row].attempts == s.box.rows[row].attempts + 1
            && s'.sms.workers == s.sms.workers - {w} && s'.sms.messages == s.sms.messages
  {
    HeadTopic(s, w);
    Box.HandleSettles(handlers + {TOPIC}, s.box, w, false);
    assert BoxStep(s, Fail(w)) == Some(Box.Handle(w, false)) && SmsStep(s, Fail(w)) == Some(Sms.AbortWorker(w));
  }

  /** One that has settled all its messages commits them and leaves the row processed and logged as handled. */
  lemma FinishSettles(dir: Directory, event: Id, handlers: set<string>, s: State, w: nat)
    requires Box.Inv(s.box) && RowsOk(s.box, s.payload, s.drawn) && AtCampaign(s, w)
    requires w in s.sms.workers && s.sms.workers[w].todo == {}
    ensures var row, s' := s.box.batches[w][0], Next(dir, event, handlers, s, Finish(w));
            && row < |s.box.rows| == |s'.box.rows| && s'.box.batches == s.box.batches[w := s.box.batches[w][1..]]
            && !s'.box.rows[row].pending && s'.box.log == s.box.log + [Box.Handled(row)]
            && s'.sms.workers == s.sms.workers - {w}
            && s'.sms.messages == Sms.Applied(s.sms.messages, s.sms.workers[w])
  {
    HeadTopic(s, w);
    Box.HandleSettles(handlers + {TOPIC}, s.box, w, true);
    assert BoxStep(s, Finish(w)) == Some(Box.Handle(w, true)) && SmsStep(s, Finish(w)) == Some(Sms.CommitWorker(w));
  }

  // ---- Stranded campaigns --------------------------------------------------------------------------

  /** The campaign's one row was lost in a crash. */
  ghost predicate Stranded(s: State, row: nat, c: Id) {
    row in s.payload && s.payload[row] == c && Box.Gone(s.box, row)
  }

  lemma StrandedHasNoWorker(s: State, row: nat, c: Id)
    requires Inv(s) && Stranded(s, row, c)
    ensures SmsAccounts.NoWorkerOn(s.sms, c)
  {
    Box.PlaceIsUnique(s.box, row);
    forall w | w in s.sms.workers
      ensures s.sms.workers[w].campaign != c
    {
      assert !Box.Held(s.box, row) && s.box.batches[w][0] in s.box.batches[w];
    }
  }

  lemma KeysStay(dir: Directory, event: Id, sms: Sms.State, step: Sms.Step)
    ensures Keys(sms.rows) <= Keys(Sms.Next(dir, event, sms, step).rows)
  {
    var rows' := Sms.Next(dir, event, sms, step).rows;
    if rows' != sms.rows {
      assert rows' == sms.rows + [rows'[|sms.rows|]];
      KeysAppend(sms.rows, rows'[|sms.rows|]);
    }
  }

  /** With no worker on its campaign a message and its charge stay as they are. */
  lemma UnworkedMessageStays(dir: Directory, event: Id, sms: Sms.State, step: Sms.Step, id: Id)
    requires Sms.Inv(sms) && id in sms.messages && SmsAccounts.NoWorkerOn(sms, sms.messages[id].campaign)
    ensures var sms' := Sms.Next(dir, event, sms, step);
            && id in sms'.messages && sms'.messages[id] == sms.messages[id]
            && Sms.Charge(sms'.rows, id) == Sms.Charge(sms.rows, id)
  {
    var sms' := Sms.Next(dir, event, sms, step);
    if !step.CommitWorker? {
      SmsAccounts.MessagesKept(dir, event, sms, step);
    } else if step.w in sms.workers {
      assert Sms.WorkerOk(sms.rows, sms.messages, sms.workers[step.w]);
    }
    Sms.NextKeepsInv(dir, event, sms, step);
    KeysStay(dir, event, sms, step);
    SmsAccounts.FreshRefund(dir, event, sms, step, id);
    if step.Settle? && step.w in sms.workers {
      assert Sms.WorkerOk(sms.rows, sms.messages, sms.workers[step.w]);
    }
    assert Sms.KeyOk(sms.rows, id) && Sms.KeyOk(sms'.rows, id);
  }

  lemma StrandedStays(dir: Directory, event: Id, handlers: set<string>, s: State, step: Step, row: nat, c: Id)
    requires Inv(s) && Stranded(s, row, c)
    ensures Stranded(Next(dir, event, handlers, s, step), row, c)
  {
  }

  lemma {:induction false} StrandedForGood(dir: Directory, event: Id, handlers: set<string>, s: State, steps: seq<Step>,
                                           row: nat, id: Id)
    requires Inv(s) && id in s.sms.messages && Stranded(s, row, s.sms.messages[id].campaign)
    ensures var end := Run(dir, event, handlers, s, steps).sms;
            && id in end.messages && end.messages[id] == s.sms.messages[id]
            && Sms.Charge(end.rows, id) == Sms.Charge(s.sms.rows, id)
    decreases |steps|
  {
    if steps != [] {
      var c := s.sms.messages[id].campaign;
      StrandedHasNoWorker(s, row, c);
      if SmsStep(s, steps[0]).Some? {
        UnworkedMessageStays(dir, event, s.sms, SmsStep(s, steps[0]).value, id);
      }
      NextKeepsInv(dir, event, handlers, s, steps[0]);
      StrandedStays(dir, event, handlers, s, steps[0], row, c);
      StrandedForGood(dir, event, handlers, Next(dir, event, handlers, s, steps[0]), steps[1..], row, id);
    }
  }

  lemma CrashLosesRow(handlers: set<string>, box: Box.State, w: nat, row: nat)
    requires w < |box.batches| && row in box.batches[w]
    ensures Box.Gone(Box.Next(handlers, box, Box.Crash(w)), row)
  {
    var i :| 0 <= i < |box.batches[w]| && box.batches[w][i] == row;
    assert (box.log + Box.Losses(box.batches[w]))[|box.log| + i] == Box.Lost(row);
  }

  lemma CrashStrands(dir: Directory, event: Id, handlers: set<string>, s: State, w: nat, row: nat)
    requires w < |s.box.batches| && row in s.box.batches[w] && row in s.payload
    ensures var s' := Next(dir, event, handlers, s, Crash(w));
            && Stranded(s', row, s.payload[row])
            && s'.sms.messages == s.sms.messages && s'.sms.rows == s.sms.rows
  {
    CrashLosesRow(handlers + {TOPIC}, s.box, w, row);
  }

  /** A worker that crashes with a campaign's row in its batch strands the campaign: in every continuation its messages,
      QUEUED ones among them, keep their status and their charge for good. */
  lemma CrashStrandsCampaign(dir: Directory, event: Id, handlers: set<string>, s: State, w: nat, steps: seq<Step>,
                             row: nat, id: Id)
    requires Inv(s) && w < |s.box.batches| && row in s.box.batches[w] && row in s.payload
    requires id in s.sms.messages && s.sms.messages[id].campaign == s.payload[row]
    ensures var end := Run(dir, event, handlers, Next(dir, event, handlers, s, Crash(w)), steps).sms;
            && id in end.messages && end.messages[id] == s.sms.messages[id]
            && Sms.Charge(end.rows, id) == Sms.Charge(s.sms.rows, id)
  {
    NextKeepsInv(dir, event, handlers, s, Crash(w));
    CrashStrands(dir, event, handlers, s, w, row);
    StrandedForGood(dir, event, handlers, Next(dir, event, handlers, s, Crash(w)), steps, row, id);
  }
}
