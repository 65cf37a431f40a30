/** The append-only credit ledger (SMS and AI credits share this shape): rows with a
    unique idempotency key, pooled balances, and the reserve/commit/refund writes. */
module CreditLedger {
  import opened Prelude

  type Id = string

  datatype Kind = Grant | Reserve | Commit | Refund

  /** A scope names an event, an account, both or neither. A resolved scope (a pool) is
      the pair whose rows are summed: event OR account. */
  datatype Scope = Scope(event: Option<Id>, account: Option<Id>)

  /** Idempotency keys, one constructor per string template; the templates' prefixes are all different. */
  datatype Key =
    | Sms(message: Id)
    | AiTurn(turn: Id)
    | InvoiceSms(invoice: Id)
    | InvoiceAi(invoice: Id)
    | CommitOf(reserve: Key)
    | RefundOf(reserve: Key)
    | Other(text: string)

  datatype Row = Row(event: Option<Id>, account: Option<Id>, kind: Kind, amount: int, key: Key,
                     reference: Option<Key>)

  datatype Account = Account(id: Id, owner: Id)

  /** Event owners, and billing accounts oldest first. */
  datatype Directory = Directory(owners: map<Id, Id>, accounts: seq<Account>)

  function OnEvent(event: Id): Scope { Scope(Some(event), None) }

  function OnAccount(account: Id): Scope { Scope(None, Some(account)) }

  /** Account i is the user's oldest. */
  predicate OldestOf(accounts: seq<Account>, user: Id, i: int) {
    0 <= i < |accounts| && accounts[i].owner == user && forall j :: 0 <= j < i ==> accounts[j].owner != user
  }

  function FindAccount(accounts: seq<Account>, user: Id): Option<Id> {
    if accounts == [] then None
    else if accounts[0].owner == user then Some(accounts[0].id)
    else FindAccount(accounts[1..], user)
  }

  lemma {:induction false} FindsOldest(accounts: seq<Account>, user: Id)
    ensures var found := FindAccount(accounts, user);
            && (found.None? ==> forall i :: 0 <= i < |accounts| ==> accounts[i].owner != user)
            && (found.Some? ==> exists i :: OldestOf(accounts, user, i) && accounts[i].id == found.value)
  {
    if accounts != [] && accounts[0].owner != user {
      FindsOldest(accounts[1..], user);
      assert forall i :: OldestOf(accounts[1..], user, i) ==> OldestOf(accounts, user, i + 1);
    } else if accounts != [] {
      assert OldestOf(accounts, user, 0);
    }
  }

  /** The account an event's credits belong to: its owner's oldest, if the event and such an account exist. */
  ghost predicate OwnedBy(dir: Directory, event: Id, account: Option<Id>) {
    if account.Some? then
      event in dir.owners
      && exists i :: OldestOf(dir.accounts, dir.owners[event], i) && dir.accounts[i].id == account.value
    else event in dir.owners ==> forall i :: 0 <= i < |dir.accounts| ==> dir.accounts[i].owner != dir.owners[event]
  }

  /** Every event belongs to exactly one account, or to none. */
  lemma OwnedByIff(dir: Directory, event: Id, account: Option<Id>)
    ensures OwnedBy(dir, event, account) <==> account == OwningAccount(dir, event)
  {
    if event in dir.owners {
      var user := dir.owners[event];
      FindsOldest(dir.accounts, user);
      forall i, j | OldestOf(dir.accounts, user, i) && OldestOf(dir.accounts, user, j)
        ensures i == j
      {
        assert dir.accounts[i].owner == dir.accounts[j].owner == user;
      }
    }
  }

  function OwningAccount(dir: Directory, event: Id): Option<Id> {
    if event in dir.owners then FindAccount(dir.accounts, dir.owners[event]) else None
  }

  /** Which pool a read of this scope sums: the event's real owner wins over a caller's account. */
  function Resolve(dir: Directory, scope: Scope): Scope {
    Scope(scope.event, if scope.event.Some? then OwningAccount(dir, scope.event.value) else scope.account)
  }

  /** Which account a write under this scope is stamped with: the caller's account wins. */
  function Stamp(dir: Directory, scope: Scope): Option<Id> {
    if scope.account.Some? then scope.account
    else if scope.event.Some? then OwningAccount(dir, scope.event.value)
    else None
  }

  predicate InPool(row: Row, pool: Scope) {
    (pool.event.Some? && row.event == pool.event) || (pool.account.Some? && row.account == pool.account)
  }

  ghost function Counted(pool: Scope): Row -> int { (row: Row) => if InPool(row, pool) then row.amount else 0 }

  ghost function Balance(rows: seq<Row>, pool: Scope): int { SumOf(rows, Counted(pool)) }

  ghost function BalanceOf(dir: Directory, rows: seq<Row>, scope: Scope): int { Balance(rows, Resolve(dir, scope)) }

  function Keys(rows: seq<Row>): set<Key> {
    if rows == [] then {} else Keys(rows[..|rows| - 1]) + {rows[|rows| - 1].key}
  }

  lemma {:induction false} KeysAre(rows: seq<Row>, key: Key)
    ensures key in Keys(rows) <==> exists i :: 0 <= i < |rows| && rows[i].key == key
  {
    if rows != [] {
      var n := |rows| - 1;
      KeysAre(rows[..n], key);
      assert forall i :: 0 <= i < n ==> rows[..n][i] == rows[i];
    }
  }

  predicate HasKey(rows: seq<Row>, key: Key) { key in Keys(rows) }

  /** No key is on two rows. */
  ghost predicate KeysUnique(rows: seq<Row>) { |Keys(rows)| == |rows| }

  /** `append`/`appendAi`/`grantAiCredits`: a duplicate key is swallowed. */
  function Append(dir: Directory, rows: seq<Row>, scope: Scope, kind: Kind, amount: int, key: Key,
                  reference: Option<Key>): seq<Row>
  {
    if HasKey(rows, key) then rows
    else rows + [Row(scope.event, Stamp(dir, scope), kind, amount, key, reference)]
  }

  /** A reserve's own row, and the commit and refund rows that refer to it. */
  predicate About(row: Row, reserveKey: Key) { row.key == reserveKey || row.reference == Some(reserveKey) }

  ghost function ChargeOn(reserveKey: Key): Row -> int {
    (row: Row) => if About(row, reserveKey) then -row.amount else 0
  }

  /** Net credits charged under a reserve key. */
  ghost function ChargeFor(rows: seq<Row>, reserveKey: Key): int { SumOf(rows, ChargeOn(reserveKey)) }

  lemma KeysAppend(rows: seq<Row>, row: Row)
    ensures Keys(rows + [row]) == Keys(rows) + {row.key}
  {
    assert (rows + [row])[..|rows|] == rows;
  }

  lemma AppendKeys(dir: Directory, rows: seq<Row>, scope: Scope, kind: Kind, amount: int, key: Key,
                   reference: Option<Key>)
    ensures Keys(Append(dir, rows, scope, kind, amount, key, reference)) == Keys(rows) + {key}
  {
    KeysAppend(rows, Row(scope.event, Stamp(dir, scope), kind, amount, key, reference));
  }

  // ---- What one append does to balances ------------------------------------------

  lemma AppendKeepsKeysUnique(dir: Directory, rows: seq<Row>, scope: Scope, kind: Kind, amount: int,
                              key: Key, reference: Option<Key>)
    requires KeysUnique(rows)
    ensures var rows' := Append(dir, rows, scope, kind, amount, key, reference);
            KeysUnique(rows') && Keys(rows) <= Keys(rows') && HasKey(rows', key) && rows <= rows'
  {
    KeysAppend(rows, Row(scope.event, Stamp(dir, scope), kind, amount, key, reference));
  }

  /** An append moves any pool by its amount or not at all. */
  lemma AppendMovesPool(dir: Directory, rows: seq<Row>, scope: Scope, kind: Kind, amount: int, key: Key,
                        reference: Option<Key>, pool: Scope)
    ensures var row := Row(scope.event, Stamp(dir, scope), kind, amount, key, reference);
            Balance(Append(dir, rows, scope, kind, amount, key, reference), pool)
            == Balance(rows, pool) + if !HasKey(rows, key) && InPool(row, pool) then amount else 0
  {
    SumAppend(rows, Row(scope.event, Stamp(dir, scope), kind, amount, key, reference), Counted(pool));
  }

  /** A fresh-key append under any non-empty scope moves that scope's own balance by exactly its
      amount; a repeated key, or the empty scope, never moves it. */
  lemma AppendMovesOwnBalance(dir: Directory, rows: seq<Row>, scope: Scope, kind: Kind, amount: int,
                              key: Key, reference: Option<Key>)
    ensures var moves := !HasKey(rows, key) && (scope.event.Some? || scope.account.Some?);
            BalanceOf(dir, Append(dir, rows, scope, kind, amount, key, reference), scope)
            == BalanceOf(dir, rows, scope) + if moves then amount else 0
  {
    AppendMovesPool(dir, rows, scope, kind, amount, key, reference, Resolve(dir, scope));
  }

  // ---- Pools of one owner -----------------------------------------------------------

  /** Every row written on an event of `account`'s owner carries that account. */
  ghost predicate Stamped(dir: Directory, rows: seq<Row>, account: Id) {
    forall i :: 0 <= i < |rows| && rows[i].event.Some? && OwningAccount(dir, rows[i].event.value) == Some(account)
      ==> rows[i].account == Some(account)
  }

  /** An append keeps the rows stamped exactly when its key is a repeat, its scope is not an event of
      the account, or the scope's own account (if any) is the owner's. */
  lemma AppendKeepsStamped(dir: Directory, rows: seq<Row>, scope: Scope, kind: Kind, amount: int, key: Key,
                           reference: Option<Key>, account: Id)
    requires Stamped(dir, rows, account)
    ensures Stamped(dir, Append(dir, rows, scope, kind, amount, key, reference), account)
            <==> (HasKey(rows, key)
                  || !(scope.event.Some? && OwningAccount(dir, scope.event.value) == Some(account))
                  || scope.account.None? || scope.account == Some(account))
  {
    var rows' := Append(dir, rows, scope, kind, amount, key, reference);
    if !HasKey(rows, key) {
      assert rows'[|rows|] == Row(scope.event, Stamp(dir, scope), kind, amount, key, reference);
      assert forall i :: 0 <= i < |rows| ==> rows'[i] == rows[i];
    }
  }

  ghost function OffAccount(event: Id, account: Id): Row -> int {
    (row: Row) => if row.event == Some(event) && row.account != Some(account) then row.amount else 0
  }

  /** Credits held by one event alone: its rows not stamped with the owner's account. */
  ghost function EventOnly(rows: seq<Row>, event: Id, account: Id): int { SumOf(rows, OffAccount(event, account)) }

  /** The balance an event reads is its owner's pooled balance plus its own unstamped credits. */
  lemma {:induction false} EventBalanceSplits(rows: seq<Row>, event: Id, account: Id)
    ensures Balance(rows, Scope(Some(event), Some(account)))
            == Balance(rows, OnAccount(account)) + EventOnly(rows, event, account)
  {
    if rows != [] {
      EventBalanceSplits(rows[..|rows| - 1], event, account);
    }
  }

  /** With stamped rows the account and all its events read one and the same balance. */
  lemma StampedPoolsAgree(dir: Directory, rows: seq<Row>, account: Id, event: Id)
    requires Stamped(dir, rows, account) && OwningAccount(dir, event) == Some(account)
    ensures BalanceOf(dir, rows, OnEvent(event)) == BalanceOf(dir, rows, OnAccount(account))
  {
    EventBalanceSplits(rows, event, account);
    SumPointwise(rows, OffAccount(event, account), rows, _ => 0);
    SumBounds(rows, _ => 0, 0, 0);
  }

  /** `n` credits spent on an event. */
  function Spend(dir: Directory, rows: seq<Row>, event: Id, n: nat, key: Key): seq<Row> {
    Append(dir, rows, OnEvent(event), Reserve, 0 - n, key, None)
  }

  lemma SpendMovesSibling(dir: Directory, rows: seq<Row>, account: Id, event: Id, sibling: Id, n: nat, key: Key)
    requires OwningAccount(dir, event) == Some(account) == OwningAccount(dir, sibling) && !HasKey(rows, key)
    ensures BalanceOf(dir, Spend(dir, rows, event, n, key), OnEvent(sibling))
            == BalanceOf(dir, rows, OnEvent(sibling)) - n
  {
    AppendMovesPool(dir, rows, OnEvent(event), Reserve, 0 - n, key, None, Resolve(dir, OnEvent(sibling)));
  }

  /** When can serial spending on one event overdraw a sibling? Whatever is spent on `event` within its
      own balance leaves `sibling` at or above zero if and only if `event` holds no more unstamped
      credits than `sibling` does. */
  lemma SiblingSafety(dir: Directory, rows: seq<Row>, account: Id, event: Id, sibling: Id, key: Key)
    requires OwningAccount(dir, event) == Some(account) == OwningAccount(dir, sibling)
    requires event != sibling && !HasKey(rows, key)
    requires BalanceOf(dir, rows, OnEvent(event)) >= 0
    ensures (forall n: nat :: n <= BalanceOf(dir, rows, OnEvent(event)) ==>
               BalanceOf(dir, Spend(dir, rows, event, n, key), OnEvent(sibling)) >= 0)
            <==> EventOnly(rows, event, account) <= EventOnly(rows, sibling, account)
  {
    var b, c := BalanceOf(dir, rows, OnEvent(event)), BalanceOf(dir, rows, OnEvent(sibling));
    assert b - c == EventOnly(rows, event, account) - EventOnly(rows, sibling, account) by {
      EventBalanceSplits(rows, event, account);
      EventBalanceSplits(rows, sibling, account);
    }
    forall n: nat
      ensures BalanceOf(dir, Spend(dir, rows, event, n, key), OnEvent(sibling)) == c - n
    {
      SpendMovesSibling(dir, rows, account, event, sibling, n, key);
    }
    SpendMovesSibling(dir, rows, account, event, sibling, b, key);
  }

  /** An event pack's grant carries the event and no account, as the payment webhook writes it. */
  function EventPackGrant(event: Id, amount: nat, key: Key): Row {
    Row(Some(event), None, Grant, amount, key, None)
  }

  /** A run in which each reserve is within its own event's balance, yet the sibling ends below zero. */
  lemma EventPackOverdrawsSibling(dir: Directory, account: Id, event: Id, sibling: Id, n: nat)
    requires OwningAccount(dir, event) == Some(account) == OwningAccount(dir, sibling) && event != sibling && n > 0
    ensures var rows := [EventPackGrant(event, n, InvoiceSms("1"))];
            && BalanceOf(dir, rows, OnEvent(event)) == n
            && BalanceOf(dir, Spend(dir, rows, event, n, Sms("1")), OnEvent(sibling)) == 0 - n
  {
    var rows := [EventPackGrant(event, n, InvoiceSms("1"))];
    assert rows == [] + [rows[0]];
    SumAppend([], rows[0], Counted(Resolve(dir, OnEvent(event))));
    SumAppend([], rows[0], Counted(Resolve(dir, OnEvent(sibling))));
    KeysAppend([], rows[0]);
    AppendMovesPool(dir, rows, OnEvent(event), Reserve, 0 - n, Sms("1"), None, Resolve(dir, OnEvent(sibling)));
  }

  // ---- What a read sums and a write writes, spelt out --------------------------------

  /** The rows on the event, or on the account if there is one. */
  ghost function Touching(event: Id, account: Option<Id>): Row -> int {
    (row: Row) => if row.event == Some(event) || (account.Some? && row.account == account) then row.amount else 0
  }

  ghost function OnlyOf(account: Id): Row -> int {
    (row: Row) => if row.account == Some(account) then row.amount else 0
  }

  ghost predicate Reads(dir: Directory, rows: seq<Row>, scope: Scope, balance: int) {
    && (scope.event.Some? ==>
          exists account :: OwnedBy(dir, scope.event.value, account)
                            && balance == SumOf(rows, Touching(scope.event.value, account)))
    && (scope.event.None? && scope.account.Some? ==> balance == SumOf(rows, OnlyOf(scope.account.value)))
    && (scope.event.None? && scope.account.None? ==> balance == 0)
  }

  ghost predicate IsRow(dir: Directory, row: Row, scope: Scope, kind: Kind, amount: int, key: Key,
                        reference: Option<Key>)
  {
    && row.event == scope.event && row.kind == kind && row.amount == amount && row.key == key
    && row.reference == reference
    && (scope.account.Some? ==> row.account == scope.account)
    && (scope.account.None? && scope.event.Some? ==> OwnedBy(dir, scope.event.value, row.account))
    && (scope.account.None? && scope.event.None? ==> row.account == None)
  }

  /** The balance of a scope is what those rows hold. */
  lemma BalanceReads(dir: Directory, rows: seq<Row>, scope: Scope)
    ensures Reads(dir, rows, scope, BalanceOf(dir, rows, scope))
  {
    var counted := Counted(Resolve(dir, scope));
    if scope.event.Some? {
      var account := OwningAccount(dir, scope.event.value);
      OwnedByIff(dir, scope.event.value, account);
      SumPointwise(rows, counted, rows, Touching(scope.event.value, account));
    } else if scope.account.Some? {
      SumPointwise(rows, counted, rows, OnlyOf(scope.account.value));
    } else {
      SumPointwise(rows, counted, rows, _ => 0);
      SumBounds(rows, _ => 0, 0, 0);
    }
  }

  // ---- The write side as an object over the ledger table ---------------------------

  class BillingService {
    const dir: Directory
    var rows: seq<Row>

    constructor (dir: Directory, rows: seq<Row>)
      ensures this.dir == dir && this.rows == rows
    {
      this.dir, this.rows := dir, rows;
    }

    /** SUM(amount) over the rows of the resolved pool: under an event its own rows and its owner's oldest account's,
        whatever account the caller names; without one the caller's account's. */
    method ReadBalance(scope: Scope) returns (balance: int)
      ensures balance == BalanceOf(dir, rows, scope)
      ensures Reads(dir, rows, scope, balance)
    {
      var pool := Resolve(dir, scope);
      balance := 0;
      var i := 0;
      while i < |rows|
        invariant 0 <= i <= |rows|
        invariant balance == Balance(rows[..i], pool)
      {
        SumAppend(rows[..i], rows[i], Counted(pool));
        assert rows[..i + 1] == rows[..i] + [rows[i]];
        if InPool(rows[i], pool) {
          balance := balance + rows[i].amount;
        }
        i := i + 1;
      }
      assert rows[..i] == rows;
      BalanceReads(dir, rows, scope);
    }

    method AppendRow(scope: Scope, kind: Kind, amount: int, key: Key, reference: Option<Key>)
      modifies this
      ensures (exists i :: 0 <= i < |old(rows)| && old(rows)[i].key == key) ==> rows == old(rows)
      ensures (forall i :: 0 <= i < |old(rows)| ==> old(rows)[i].key != key) ==>
                && |rows| == |old(rows)| + 1 && rows[..|old(rows)|] == old(rows)
                && IsRow(dir, rows[|old(rows)|], scope, kind, amount, key, reference)
      ensures rows == Append(dir, old(rows), scope, kind, amount, key, reference)
      ensures old(KeysUnique(rows)) ==> KeysUnique(rows)
    {
      KeysAre(rows, key);
      if KeysUnique(rows) {
        AppendKeepsKeysUnique(dir, rows, scope, kind, amount, key, reference);
      }
      var duplicate := HasKey(rows, key);
      if duplicate {
        return;
      }
      var account := scope.account;
      if account.None? && scope.event.Some? {
        account := OwningAccount(dir, scope.event.value);
        OwnedByIff(dir, scope.event.value, account);
      }
      rows := rows + [Row(scope.event, account, kind, amount, key, reference)];
    }

    /** The serial reserve: hard stop when the balance is short. The balance it reports is the true new
        balance precisely when the key was fresh and the scope not empty, or nothing was reserved. */
    method ReserveCredits(scope: Scope, count: nat, key: Key) returns (ok: bool, balance: int)
      modifies this
      ensures ok <==> count <= BalanceOf(dir, old(rows), scope)
      ensures Reads(dir, old(rows), scope, balance + if ok then count else 0)
      ensures rows == if ok then Append(dir, old(rows), scope, Reserve, 0 - count, key, None) else old(rows)
      ensures balance == BalanceOf(dir, old(rows), scope) - if ok then count else 0
      ensures balance == BalanceOf(dir, rows, scope)
              <==> !ok || count == 0 || (!HasKey(old(rows), key) && (scope.event.Some? || scope.account.Some?))
      ensures ok && old(BalanceOf(dir, rows, scope)) >= 0 ==> BalanceOf(dir, rows, scope) >= 0
    {
      balance := ReadBalance(scope);
      if balance < count {
        return false, balance;
      }
      AppendMovesOwnBalance(dir, rows, scope, Reserve, 0 - count, key, None);
      AppendRow(scope, Reserve, 0 - count, key, None);
      return true, balance - count;
    }

    method CommitReserve(scope: Scope, reserveKey: Key)
      modifies this
      ensures rows == Append(dir, old(rows), scope, Commit, 0, CommitOf(reserveKey), Some(reserveKey))
      ensures forall pool :: Balance(rows, pool) == old(Balance(rows, pool))
    {
      forall pool
        ensures Balance(Append(dir, rows, scope, Commit, 0, CommitOf(reserveKey), Some(reserveKey)), pool)
                == Balance(rows, pool)
      {
        AppendMovesPool(dir, rows, scope, Commit, 0, CommitOf(reserveKey), Some(reserveKey), pool);
      }
      AppendRow(scope, Commit, 0, CommitOf(reserveKey), Some(reserveKey));
    }

    method RefundReserve(scope: Scope, count: nat, reserveKey: Key)
      modifies this
      ensures rows == Append(dir, old(rows), scope, Refund, count, RefundOf(reserveKey), Some(reserveKey))
    {
      AppendRow(scope, Refund, count, RefundOf(reserveKey), Some(reserveKey));
    }
  }
}
