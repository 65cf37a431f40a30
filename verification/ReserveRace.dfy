/** Reserves as they really run: the balance is read in one step and the debit appended in a later
    one, with other reserves, grants, commits, refunds and crashes in between. */
module ReserveRace {
  import opened Prelude
  import opened CreditLedger

  /** A reserve that has passed its balance check and has not appended its debit yet. */
  datatype Ticket = Ticket(scope: Scope, count: nat, key: Key)

  /** `Credit` is any non-negative append of the billing service; `PutRow` is a row written past it, as the payment
      webhook writes its grants, stamped as its writer likes. */
  datatype State = State(rows: seq<Row>, pending: seq<Ticket>)

  datatype Step =
    | Check(ticket: Ticket)
    | Debit(i: nat)
    | Crash(i: nat)
    | Credit(scope: Scope, kind: Kind, amount: nat, key: Key, reference: Option<Key>)
    | PutRow(row: Row)

  function Without<T>(xs: seq<T>, i: nat): seq<T>
    requires i < |xs|
  {
    xs[..i] + xs[i + 1..]
  }

  ghost function Next(dir: Directory, s: State, step: Step): State {
    match step
    case Check(t) => if BalanceOf(dir, s.rows, t.scope) < t.count then s else s.(pending := s.pending + [t])
    case Debit(i) =>
      if i >= |s.pending| then s else
      var t := s.pending[i];
      State(Append(dir, s.rows, t.scope, Reserve, 0 - t.count, t.key, None), Without(s.pending, i))
    case Crash(i) => if i >= |s.pending| then s else s.(pending := Without(s.pending, i))
    case Credit(scope, kind, amount, key, reference) =>
      s.(rows := Append(dir, s.rows, scope, kind, amount, key, reference))
    case PutRow(row) => if row.amount >= 0 && !HasKey(s.rows, row.key) then s.(rows := s.rows + [row]) else s
  }

  ghost function Run(dir: Directory, s: State, steps: seq<Step>): State
    decreases |steps|
  {
    if steps == [] then s else Run(dir, Next(dir, s, steps[0]), steps[1..])
  }

  /** The ticket's debit will fall in the pool. */
  predicate Draws(dir: Directory, t: Ticket, pool: Scope) {
    InPool(Row(t.scope.event, Stamp(dir, t.scope), Reserve, 0 - t.count, t.key, None), pool)
  }

  ghost function Drawing(dir: Directory, pool: Scope): Ticket -> int {
    (t: Ticket) => if Draws(dir, t, pool) then 1 else 0
  }

  /** At most `k` reserves on the pool sit between read and append, each of at most `c` credits; reserves on other
      pools are free. */
  ghost predicate Busy(dir: Directory, s: State, pool: Scope, k: nat, c: nat) {
    && SumOf(s.pending, Drawing(dir, pool)) <= k
    && forall i :: 0 <= i < |s.pending| && Draws(dir, s.pending[i], pool) ==> s.pending[i].count <= c
  }

  ghost predicate AlwaysBusy(dir: Directory, s: State, steps: seq<Step>, pool: Scope, k: nat, c: nat)
    decreases |steps|
  {
    && Busy(dir, s, pool, k, c)
    && (steps != [] ==> AlwaysBusy(dir, Next(dir, s, steps[0]), steps[1..], pool, k, c))
  }

  /** A balance check of a reserve on the pool reads at most `u` more than the pool holds. */
  ghost predicate ReadsWithin(dir: Directory, s: State, step: Step, pool: Scope, u: nat) {
    step.Check? && Draws(dir, step.ticket, pool) ==>
      BalanceOf(dir, s.rows, step.ticket.scope) <= Balance(s.rows, pool) + u
  }

  /** Throughout the run the pool is no busier than that, and every check on it reads within `u`. */
  ghost predicate Admissible(dir: Directory, s: State, steps: seq<Step>, pool: Scope, k: nat, c: nat, u: nat)
    decreases |steps|
  {
    && Busy(dir, s, pool, k, c)
    && (steps != [] ==>
          ReadsWithin(dir, s, steps[0], pool, u) && Admissible(dir, Next(dir, s, steps[0]), steps[1..], pool, k, c, u))
  }

  ghost function Held(dir: Directory, pool: Scope): Ticket -> int {
    (t: Ticket) => if Draws(dir, t, pool) then t.count else 0
  }

  /** What is still to be debited from the pool exceeds its balance by at most `slack`. */
  ghost predicate Within(dir: Directory, s: State, pool: Scope, slack: int) {
    SumOf(s.pending, Held(dir, pool)) <= Balance(s.rows, pool) + slack
  }

  /** The invariant: the slack is u + (k - 1) * c. */
  ghost predicate Covered(dir: Directory, s: State, pool: Scope, k: nat, c: nat, u: nat) {
    Within(dir, s, pool, u + (k - 1) * c)
  }

  lemma {:induction false} HeldUnderCount(dir: Directory, pending: seq<Ticket>, pool: Scope, c: nat)
    requires forall i :: 0 <= i < |pending| && Draws(dir, pending[i], pool) ==> pending[i].count <= c
    ensures 0 <= SumOf(pending, Drawing(dir, pool))
            && SumOf(pending, Held(dir, pool)) <= SumOf(pending, Drawing(dir, pool)) * c
  {
    if pending != [] {
      var init := pending[..|pending| - 1];
      HeldUnderCount(dir, init, pool, c);
      MulStep(SumOf(init, Drawing(dir, pool)) + 1, c);
    }
  }

  lemma HeldAtMost(dir: Directory, pending: seq<Ticket>, pool: Scope, k: nat, c: nat)
    requires SumOf(pending, Drawing(dir, pool)) <= k
    requires forall i :: 0 <= i < |pending| && Draws(dir, pending[i], pool) ==> pending[i].count <= c
    ensures SumOf(pending, Held(dir, pool)) <= k * c
  {
    HeldUnderCount(dir, pending, pool, c);
    MulMonotone(SumOf(pending, Drawing(dir, pool)), k, c);
  }

  lemma MulMonotone(x: nat, y: nat, c: nat)
    requires x <= y
    ensures x * c <= y * c
  {
  }

  lemma CheckKeepsCovered(dir: Directory, s: State, t: Ticket, pool: Scope, k: nat, c: nat, u: nat)
    requires k >= 1 && Covered(dir, s, pool, k, c, u) && Busy(dir, s.(pending := s.pending + [t]), pool, k, c)
    requires Draws(dir, t, pool) ==> t.count <= Balance(s.rows, pool) + u
    ensures Covered(dir, s.(pending := s.pending + [t]), pool, k, c, u)
  {
    var more := s.pending + [t];
    SumAppend(s.pending, t, Held(dir, pool));
    SumAppend(s.pending, t, Drawing(dir, pool));
    if Draws(dir, t, pool) {
      assert forall i :: 0 <= i < |s.pending| ==> s.pending[i] == more[i];
      HeldAtMost(dir, s.pending, pool, k - 1, c);
    }
  }

  lemma RemovalKeepsWithin(dir: Directory, s: State, i: nat, pool: Scope, slack: int)
    requires Within(dir, s, pool, slack) && i < |s.pending|
    ensures Within(dir, Next(dir, s, Debit(i)), pool, slack) && Within(dir, Next(dir, s, Crash(i)), pool, slack)
  {
    var t := s.pending[i];
    SumRemove(s.pending, i, Held(dir, pool));
    AppendMovesPool(dir, s.rows, t.scope, Reserve, 0 - t.count, t.key, None, pool);
  }

  /** Every step but a check keeps any slack. */
  lemma OthersKeepWithin(dir: Directory, s: State, step: Step, pool: Scope, slack: int)
    requires Within(dir, s, pool, slack) && !step.Check?
    ensures Within(dir, Next(dir, s, step), pool, slack)
  {
    match step
    case Debit(i) =>
      if i < |s.pending| {
        RemovalKeepsWithin(dir, s, i, pool, slack);
      }
    case Crash(i) =>
      if i < |s.pending| {
        RemovalKeepsWithin(dir, s, i, pool, slack);
      }
    case Credit(scope, kind, amount, key, reference) =>
      AppendMovesPool(dir, s.rows, scope, kind, amount, key, reference, pool);
    case PutRow(row) => SumAppend(s.rows, row, Counted(pool));
  }

  lemma NextKeepsCovered(dir: Directory, s: State, step: Step, pool: Scope, k: nat, c: nat, u: nat)
    requires k >= 1 && Covered(dir, s, pool, k, c, u)
    requires ReadsWithin(dir, s, step, pool, u) && Busy(dir, Next(dir, s, step), pool, k, c)
    ensures Covered(dir, Next(dir, s, step), pool, k, c, u)
  {
    if !step.Check? {
      OthersKeepWithin(dir, s, step, pool, u + (k - 1) * c);
    } else if BalanceOf(dir, s.rows, step.ticket.scope) >= step.ticket.count {
      CheckKeepsCovered(dir, s, step.ticket, pool, k, c, u);
    }
  }

  /** In every interleaving the pool's balance stays at or above -(k - 1) * c - u; when checks read no more than the
      pool holds (u is 0), at or above -(k - 1) * c. */
  lemma {:induction false} OverdraftBound(dir: Directory, s: State, steps: seq<Step>, pool: Scope, k: nat, c: nat,
                                          u: nat)
    requires k >= 1 && Covered(dir, s, pool, k, c, u) && Admissible(dir, s, steps, pool, k, c, u)
    ensures Covered(dir, Run(dir, s, steps), pool, k, c, u)
    ensures Balance(Run(dir, s, steps).rows, pool) >= -((k - 1) * c) - u
    decreases |steps|
  {
    if steps == [] {
      SumNonNegative(s.pending, Held(dir, pool));
      } else {
      var s' := Next(dir, s, steps[0]);
      assert Admissible(dir, s', steps[1..], pool, k, c, u);
      NextKeepsCovered(dir, s, steps[0], pool, k, c, u);
      OverdraftBound(dir, s', steps[1..], pool, k, c, u);
    }
  }

  /** One reserver at a time never overdraws. */
  lemma SerialReservesNeverOverdraw(dir: Directory, rows: seq<Row>, steps: seq<Step>, pool: Scope, c: nat)
    requires Balance(rows, pool) >= 0
    requires Admissible(dir, State(rows, []), steps, pool, 1, c, 0)
    ensures Balance(Run(dir, State(rows, []), steps).rows, pool) >= 0
  {
    assert (1 - 1) * c == 0;
    OverdraftBound(dir, State(rows, []), steps, pool, 1, c, 0);
  }

  // ---- Pools spanning all of an owner's events ------------------------------------------

  predicate SingleId(scope: Scope) { scope.event.None? || scope.account.None? }

  predicate SingleIds(pending: seq<Ticket>) { forall i :: 0 <= i < |pending| ==> SingleId(pending[i].scope) }

  /** Scopes that read and write the account's pool: the account itself or one of its events. */
  predicate OfAccount(dir: Directory, scope: Scope, account: Id) {
    scope == OnAccount(account) ||
    (scope.event.Some? && scope.account.None? && OwningAccount(dir, scope.event.value) == Some(account))
  }

  /** A single-id scope draws on the account's pool exactly when it reads it. */
  lemma DrawsIffOfAccount(dir: Directory, t: Ticket, account: Id)
    requires SingleId(t.scope)
    ensures Draws(dir, t, OnAccount(account)) <==> OfAccount(dir, t.scope, account)
  {
  }

  lemma PendingStaysSingle(dir: Directory, s: State, step: Step)
    requires SingleIds(s.pending) && (step.Check? ==> SingleId(step.ticket.scope))
    ensures SingleIds(Next(dir, s, step).pending)
  {
  }

  /** What the owner's events hold beside the account, in event packs and the like, is at most `u` for each. */
  ghost predicate PacksWithin(dir: Directory, rows: seq<Row>, account: Id, u: nat) {
    forall e :: OwningAccount(dir, e) == Some(account) ==> EventOnly(rows, e, account) <= u
  }

  ghost predicate AlwaysPacked(dir: Directory, s: State, steps: seq<Step>, account: Id, u: nat)
    decreases |steps|
  {
    && PacksWithin(dir, s.rows, account, u)
    && (steps != [] ==>
          && (steps[0].Check? ==> SingleId(steps[0].ticket.scope))
          && AlwaysPacked(dir, Next(dir, s, steps[0]), steps[1..], account, u))
  }

  lemma PackedReads(dir: Directory, s: State, step: Step, account: Id, u: nat)
    requires PacksWithin(dir, s.rows, account, u) && (step.Check? ==> SingleId(step.ticket.scope))
    ensures ReadsWithin(dir, s, step, OnAccount(account), u)
  {
    if step.Check? {
      DrawsIffOfAccount(dir, step.ticket, account);
      if OfAccount(dir, step.ticket.scope, account) && step.ticket.scope.event.Some? {
        EventBalanceSplits(s.rows, step.ticket.scope.event.value, account);
      }
    }
  }

  lemma {:induction false} PackedIsAdmissible(dir: Directory, s: State, steps: seq<Step>, account: Id, k: nat, c: nat,
                                              u: nat)
    requires AlwaysPacked(dir, s, steps, account, u) && AlwaysBusy(dir, s, steps, OnAccount(account), k, c)
    ensures Admissible(dir, s, steps, OnAccount(account), k, c, u)
    decreases |steps|
  {
    if steps != [] {
      PackedReads(dir, s, steps[0], account, u);
      PackedIsAdmissible(dir, Next(dir, s, steps[0]), steps[1..], account, k, c, u);
    }
  }

  lemma EmptyIsCovered(dir: Directory, rows: seq<Row>, pool: Scope, k: nat, c: nat, u: nat)
    requires k >= 1 && Balance(rows, pool) >= 0 - u
    ensures Covered(dir, State(rows, []), pool, k, c, u)
  {
    MulMonotone(0, k - 1, c);
  }

  /** Event packs included: as long as no event of the owner holds more than u credits beside the account, reserves
      racing on any mix of the owner's events and account leave the account at or above -(k - 1) * c - u, and each
      event at or above that plus its own packs. One at a time, the event with the largest packs is not overdrawn. */
  lemma PackedPoolOverdraftBound(dir: Directory, rows: seq<Row>, steps: seq<Step>, account: Id, event: Id,
                                 k: nat, c: nat, u: nat)
    requires k >= 1 && BalanceOf(dir, rows, OnAccount(account)) >= 0 - u && OwningAccount(dir, event) == Some(account)
    requires AlwaysPacked(dir, State(rows, []), steps, account, u)
    requires AlwaysBusy(dir, State(rows, []), steps, OnAccount(account), k, c)
    ensures var end := Run(dir, State(rows, []), steps).rows;
            && BalanceOf(dir, end, OnAccount(account)) >= -((k - 1) * c) - u
            && BalanceOf(dir, end, OnEvent(event)) >= EventOnly(end, event, account) - (k - 1) * c - u
  {
    var s := State(rows, []);
    PackedIsAdmissible(dir, s, steps, account, k, c, u);
    EmptyIsCovered(dir, rows, OnAccount(account), k, c, u);
    OverdraftBound(dir, s, steps, OnAccount(account), k, c, u);
    EventBalanceSplits(Run(dir, s, steps).rows, event, account);
  }

  /** Reads and writes under single-id scopes, on any owner's pools; a row written past the billing service onto one of
      the account's events carries the account. */
  ghost predicate WellScoped(dir: Directory, step: Step, account: Id) {
    match step
    case Check(t) => SingleId(t.scope)
    case Credit(scope, _, _, _, _) => SingleId(scope)
    case PutRow(row) => row.event.Some? && OwningAccount(dir, row.event.value) == Some(account) ==>
      row.account == Some(account)
    case _ => true
  }

  lemma WellScopedKeepsStamped(dir: Directory, s: State, step: Step, account: Id)
    requires Stamped(dir, s.rows, account) && WellScoped(dir, step, account) && SingleIds(s.pending)
    ensures Stamped(dir, Next(dir, s, step).rows, account)
  {
    match step
    case Debit(i) =>
      if i < |s.pending| {
        var t := s.pending[i];
        AppendKeepsStamped(dir, s.rows, t.scope, Reserve, 0 - t.count, t.key, None, account);
      }
    case Credit(scope, kind, amount, key, reference) =>
      AppendKeepsStamped(dir, s.rows, scope, kind, amount, key, reference, account);
    case _ =>
  }

  /** With stamped rows no event holds anything beside the account. */
  lemma StampedHasNoPacks(dir: Directory, rows: seq<Row>, account: Id)
    requires Stamped(dir, rows, account)
    ensures PacksWithin(dir, rows, account, 0)
  {
    forall e | OwningAccount(dir, e) == Some(account)
      ensures EventOnly(rows, e, account) <= 0
    {
      SumPointwise(rows, OffAccount(e, account), rows, _ => 0);
      SumBounds(rows, _ => 0, 0, 0);
    }
  }

  lemma {:induction false} WellScopedIsPacked(dir: Directory, s: State, steps: seq<Step>, account: Id)
    requires Stamped(dir, s.rows, account) && SingleIds(s.pending)
    requires forall i :: 0 <= i < |steps| ==> WellScoped(dir, steps[i], account)
    ensures AlwaysPacked(dir, s, steps, account, 0) && Stamped(dir, Run(dir, s, steps).rows, account)
    decreases |steps|
  {
    StampedHasNoPacks(dir, s.rows, account);
    if steps != [] {
      assert WellScoped(dir, steps[0], account);
      WellScopedKeepsStamped(dir, s, steps[0], account);
      PendingStaysSingle(dir, s, steps[0]);
      WellScopedIsPacked(dir, Next(dir, s, steps[0]), steps[1..], account);
    }
  }

  /** Reserves racing on any mix of an owner's events and account, among reserves of any other owners: as long as the
      rows start stamped, every one of the owner's scopes reads the same balance, and it stays at or above
      -(k - 1) * c. */
  lemma AccountPoolOverdraftBound(dir: Directory, rows: seq<Row>, steps: seq<Step>, account: Id, event: Id,
                                  k: nat, c: nat)
    requires k >= 1 && Stamped(dir, rows, account) && BalanceOf(dir, rows, OnAccount(account)) >= 0
    requires forall i :: 0 <= i < |steps| ==> WellScoped(dir, steps[i], account)
    requires AlwaysBusy(dir, State(rows, []), steps, OnAccount(account), k, c)
    requires OwningAccount(dir, event) == Some(account)
    ensures var end := Run(dir, State(rows, []), steps).rows;
            BalanceOf(dir, end, OnEvent(event)) == BalanceOf(dir, end, OnAccount(account)) >= -((k - 1) * c)
  {
    WellScopedIsPacked(dir, State(rows, []), steps, account);
    PackedPoolOverdraftBound(dir, rows, steps, account, event, k, c, 0);
    StampedPoolsAgree(dir, Run(dir, State(rows, []), steps).rows, account, event);
  }

  // ---- The bound is reached -----------------------------------------------------------

  function Name(i: nat): Key { AiTurn(seq(i, _ => 'k')) }

  function RaceTicket(account: Id, c: nat, i: nat): Ticket { Ticket(OnAccount(account), c, Name(i)) }

  function Tickets(account: Id, c: nat, from: nat, n: nat): seq<Ticket> {
    seq(n, i requires 0 <= i < n => RaceTicket(account, c, from + i))
  }

  /** k reserves all check first, then all debit. */
  function Race(account: Id, k: nat, c: nat): seq<Step> {
    Checks(account, c, k) + Debits(k)
  }

  function Checks(account: Id, c: nat, n: nat): seq<Step> {
    seq(n, i requires 0 <= i < n => Check(RaceTicket(account, c, i)))
  }

  function Debits(n: nat): seq<Step> { seq(n, _ => Debit(0)) }

  function Seeded(account: Id, c: nat): seq<Row> { [Row(None, Some(account), Grant, c, Other("grant"), None)] }

  lemma {:induction false} RunConcat(dir: Directory, s: State, xs: seq<Step>, ys: seq<Step>)
    ensures Run(dir, s, xs + ys) == Run(dir, Run(dir, s, xs), ys)
    decreases |xs|
  {
    if xs == [] {
      assert xs + ys == ys;
    } else {
      assert (xs + ys)[1..] == xs[1..] + ys;
      RunConcat(dir, Next(dir, s, xs[0]), xs[1..], ys);
    }
  }

  lemma {:induction false} ChecksAllPass(dir: Directory, rows: seq<Row>, account: Id, c: nat, n: nat)
    requires Balance(rows, OnAccount(account)) == c
    ensures Run(dir, State(rows, []), Checks(account, c, n)) == State(rows, Tickets(account, c, 0, n))
  {
    if n > 0 {
      var xs, last := Checks(account, c, n - 1), Check(RaceTicket(account, c, n - 1));
      ChecksAllPass(dir, rows, account, c, n - 1);
      RunConcat(dir, State(rows, []), xs, [last]);
      assert Checks(account, c, n) == xs + [last];
      RunOne(dir, Run(dir, State(rows, []), xs), last);
      assert Tickets(account, c, 0, n) == Tickets(account, c, 0, n - 1) + [RaceTicket(account, c, n - 1)];
    }
  }

  lemma RunOne(dir: Directory, s: State, step: Step)
    ensures Run(dir, s, [step]) == Next(dir, s, step)
  {
    assert [step][1..] == [];
  }

  ghost predicate FreshFrom(rows: seq<Row>, from: nat) { forall i: nat :: from <= i ==> !HasKey(rows, Name(i)) }

  lemma DebitOne(dir: Directory, s: State, account: Id, c: nat, from: nat, n: nat)
    requires n > 0 && s.pending == Tickets(account, c, from, n) && FreshFrom(s.rows, from)
    ensures var s' := Next(dir, s, Debit(0));
            && s'.pending == Tickets(account, c, from + 1, n - 1) && FreshFrom(s'.rows, from + 1)
            && Balance(s'.rows, OnAccount(account)) == Balance(s.rows, OnAccount(account)) - c
  {
    var t := s.pending[0];
    assert t == RaceTicket(account, c, from);
    AppendMovesPool(dir, s.rows, t.scope, Reserve, 0 - t.count, t.key, None, OnAccount(account));
    KeysAppend(s.rows, Row(None, Some(account), Reserve, 0 - c, Name(from), None));
    forall i: nat | from + 1 <= i
      ensures Name(i) != Name(from)
    {
      assert |Name(i).turn| == i && |Name(from).turn| == from;
    }
  }

  lemma {:induction false} DebitsAllLand(dir: Directory, s: State, account: Id, c: nat, from: nat, n: nat)
    requires s.pending == Tickets(account, c, from, n) && FreshFrom(s.rows, from)
    ensures Balance(Run(dir, s, Debits(n)).rows, OnAccount(account)) == Balance(s.rows, OnAccount(account)) - n * c
    decreases n
  {
    if n > 0 {
      var s' := Next(dir, s, Debit(0));
      DebitOne(dir, s, account, c, from, n);
      DebitsAllLand(dir, s', account, c, from + 1, n - 1);
      DebitsFirst(dir, s, n);
      MulStep(n, c);
    }
  }

  lemma MulStep(n: nat, c: nat)
    requires n > 0
    ensures n * c == (n - 1) * c + c
  {
  }

  lemma DebitsFirst(dir: Directory, s: State, n: nat)
    requires n > 0
    ensures Run(dir, s, Debits(n)) == Run(dir, Next(dir, s, Debit(0)), Debits(n - 1))
  {
    assert Debits(n)[1..] == Debits(n - 1);
  }

  lemma {:induction false} TicketsDraw(dir: Directory, account: Id, c: nat, from: nat, n: nat)
    ensures SumOf(Tickets(account, c, from, n), Drawing(dir, OnAccount(account))) == n
  {
    if n > 0 {
      TicketsDraw(dir, account, c, from, n - 1);
      assert Tickets(account, c, from, n) == Tickets(account, c, from, n - 1) + [RaceTicket(account, c, from + n - 1)];
      SumAppend(Tickets(account, c, from, n - 1), RaceTicket(account, c, from + n - 1),
                Drawing(dir, OnAccount(account)));
    }
  }

  lemma {:induction false} DebitsAdmissible(dir: Directory, s: State, account: Id, c: nat, from: nat, n: nat, k: nat)
    requires s.pending == Tickets(account, c, from, n) && n <= k
    ensures Admissible(dir, s, Debits(n), OnAccount(account), k, c, 0)
    decreases n
  {
    TicketsDraw(dir, account, c, from, n);
    assert forall i :: 0 <= i < n ==> s.pending[i] == RaceTicket(account, c, from + i);
    if n > 0 {
      var s' := Next(dir, s, Debit(0));
      assert s'.pending == Tickets(account, c, from + 1, n - 1);
      DebitsAdmissible(dir, s', account, c, from + 1, n - 1, k);
      assert Debits(n)[1..] == Debits(n - 1);
    }
  }

  /** With j reserves checked, the rest of the race is admissible. */
  lemma {:induction false} RaceAdmissible(dir: Directory, rows: seq<Row>, account: Id, j: nat, k: nat, c: nat)
    requires Balance(rows, OnAccount(account)) == c && j <= k
    ensures Admissible(dir, State(rows, Tickets(account, c, 0, j)), Race(account, k, c)[j..],
                       OnAccount(account), k, c, 0)
    decreases k - j
  {
    var s, steps := State(rows, Tickets(account, c, 0, j)), Race(account, k, c)[j..];
    if j == k {
      assert steps == Debits(k);
      DebitsAdmissible(dir, s, account, c, 0, k, k);
    } else {
      assert steps[0] == Check(RaceTicket(account, c, j)) && steps[1..] == Race(account, k, c)[j + 1..];
      assert s.pending + [RaceTicket(account, c, j)] == Tickets(account, c, 0, j + 1);
      TicketsDraw(dir, account, c, 0, j);
      RaceAdmissible(dir, rows, account, j + 1, k, c);
    }
  }

  /** For every k >= 1 and c there is an admissible k-way race from a balance of c down to exactly -(k - 1) * c. */
  lemma OverdraftBoundIsReached(dir: Directory, account: Id, k: nat, c: nat)
    requires k >= 1
    ensures Balance(Seeded(account, c), OnAccount(account)) == c
    ensures Admissible(dir, State(Seeded(account, c), []), Race(account, k, c), OnAccount(account), k, c, 0)
    ensures Balance(Run(dir, State(Seeded(account, c), []), Race(account, k, c)).rows, OnAccount(account))
            == -((k - 1) * c)
  {
    var rows := Seeded(account, c);
    assert rows == [] + [rows[0]];
    SumAppend([], rows[0], Counted(OnAccount(account)));
    var s := State(rows, []);
    var checks := Checks(account, c, k);
    RunConcat(dir, s, checks, Debits(k));
    ChecksAllPass(dir, rows, account, c, k);
    var mid := Run(dir, s, checks);
    assert mid.pending == Tickets(account, c, 0, k);
    KeysAppend([], rows[0]);
    DebitsAllLand(dir, mid, account, c, 0, k);
    assert -((k - 1) * c) == c - k * c;
    RaceAdmissible(dir, rows, account, 0, k, c);
    assert Tickets(account, c, 0, 0) == [] && Race(account, k, c)[0..] == Race(account, k, c);
  }

  /** No admissible run that starts with nothing pending and a balance of zero or more ends below zero. */
  ghost predicate NeverOverdraws(dir: Directory, pool: Scope, k: nat, c: nat) {
    forall rows, steps :: Admissible(dir, State(rows, []), steps, pool, k, c, 0) && Balance(rows, pool) >= 0 ==>
      Balance(Run(dir, State(rows, []), steps).rows, pool) >= 0
  }

  lemma NoRoomNeverOverdraws(dir: Directory, pool: Scope, k: nat, c: nat)
    requires k >= 1 && (k - 1) * c == 0
    ensures NeverOverdraws(dir, pool, k, c)
  {
    forall rows, steps | Admissible(dir, State(rows, []), steps, pool, k, c, 0) && Balance(rows, pool) >= 0
      ensures Balance(Run(dir, State(rows, []), steps).rows, pool) >= 0
    {
      OverdraftBound(dir, State(rows, []), steps, pool, k, c, 0);
    }
  }

  lemma RaceOverdraws(dir: Directory, account: Id, k: nat, c: nat)
    requires k > 1 && c > 0
    ensures !NeverOverdraws(dir, OnAccount(account), k, c)
  {
    OverdraftBoundIsReached(dir, account, k, c);
    MulMonotone(1, k - 1, c);
  }

  /** The exact condition: no run with at most k reserves of at most c credits at a time overdraws the account if and
      only if reserves come one at a time or are of no credits. */
  lemma NeverOverdrawsIff(dir: Directory, account: Id, k: nat, c: nat)
    requires k >= 1
    ensures NeverOverdraws(dir, OnAccount(account), k, c) <==> k == 1 || c == 0
  {
    if k == 1 || c == 0 {
      assert (k - 1) * c == 0;
      NoRoomNeverOverdraws(dir, OnAccount(account), k, c);
    } else {
      RaceOverdraws(dir, account, k, c);
    }
  }

  /** A check followed at once by its debit is the serial reserve: the debit is written exactly when the balance is no
      less than the count. */
  lemma UninterruptedIsSerial(dir: Directory, s: State, t: Ticket)
    ensures var s' := Run(dir, s, [Check(t), Debit(|s.pending|)]);
            && s'.pending == s.pending
            && s'.rows == if t.count <= BalanceOf(dir, s.rows, t.scope)
                          then Append(dir, s.rows, t.scope, Reserve, 0 - t.count, t.key, None) else s.rows
  {
    var steps := [Check(t), Debit(|s.pending|)];
    var checked := Next(dir, s, Check(t));
    assert steps[1..] == [Debit(|s.pending|)] && steps[1..][1..] == [];
    assert Run(dir, checked, steps[1..]) == Next(dir, checked, Debit(|s.pending|));
  }
}
