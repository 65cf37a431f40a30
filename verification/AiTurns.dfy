/** AI turns sharing the credit ledger, each of whose processes may die, or whose refund write may fail, at any point
    after the reserve. */
module AiTurns {
  import opened Prelude
  import opened CreditLedger

  /** `running` maps turns between their reserve and their commit or refund to their scopes; `drawn`, `answered` and
      `died` record what became of every turn and decide nothing. */
  datatype State = State(rows: seq<Row>, drawn: set<Id>, running: map<Id, Scope>, answered: set<Id>, died: set<Id>)

  datatype Step =
    | Begin(turn: Id, scope: Scope)
    | Answer(turn: Id)
    | GiveBack(turn: Id)
    | Die(turn: Id)
    | OtherWrite(row: Row)

  /** Rows of other origins: no turn's key and no reference to one. */
  predicate Foreign(row: Row) {
    && !row.key.AiTurn? && !(row.key.CommitOf? && row.key.reserve.AiTurn?)
    && !(row.key.RefundOf? && row.key.reserve.AiTurn?)
    && (row.reference.Some? ==> !row.reference.value.AiTurn?)
  }

  ghost function Next(dir: Directory, s: State, step: Step): State {
    match step
    case Begin(t, scope) =>
      if t in s.drawn || BalanceOf(dir, s.rows, scope) < 1 then s
      else s.(rows := Append(dir, s.rows, scope, Reserve, 0 - 1, AiTurn(t), None), drawn := s.drawn + {t},
              running := s.running[t := scope])
    case Answer(t) =>
      if t !in s.running then s
      else s.(rows := Append(dir, s.rows, s.running[t], Commit, 0, CommitOf(AiTurn(t)), Some(AiTurn(t))),
              running := s.running - {t}, answered := s.answered + {t})
    case GiveBack(t) =>
      if t !in s.running then s
      else s.(rows := Append(dir, s.rows, s.running[t], Refund, 1, RefundOf(AiTurn(t)), Some(AiTurn(t))),
              running := s.running - {t})
    case Die(t) => if t !in s.running then s else s.(running := s.running - {t}, died := s.died + {t})
    case OtherWrite(row) => if Foreign(row) && !HasKey(s.rows, row.key) then s.(rows := s.rows + [row]) else s
  }

  ghost function Run(dir: Directory, s: State, steps: seq<Step>): State
    decreases |steps|
  {
    if steps == [] then s else Run(dir, Next(dir, s, steps[0]), steps[1..])
  }

  predicate Initial(s: State) {
    && (forall i :: 0 <= i < |s.rows| ==> Foreign(s.rows[i]))
    && s.drawn == {} && s.running == map[] && s.answered == {} && s.died == {}
  }

  ghost function Charge(rows: seq<Row>, t: Id): int { ChargeFor(rows, AiTurn(t)) }

  /** Neither settled yet. */
  predicate Unsettled(rows: seq<Row>, t: Id) {
    !HasKey(rows, CommitOf(AiTurn(t))) && !HasKey(rows, RefundOf(AiTurn(t)))
  }

  /** Charged while running, for an answer, and for good once dead; never otherwise. */
  ghost predicate TurnOk(s: State, t: Id) {
    && Charge(s.rows, t) == (if t in s.running || t in s.answered || t in s.died then 1 else 0)
    && (t in s.running || t in s.answered || t in s.died ==> t in s.drawn)
    && (t in s.running ==> t !in s.answered && t !in s.died && Unsettled(s.rows, t))
    && (t in s.died ==> t !in s.answered)
    && (t !in s.drawn ==> !HasKey(s.rows, AiTurn(t)) && Unsettled(s.rows, t))
  }

  ghost predicate Inv(s: State) { forall t :: TurnOk(s, t) }

  /** A row that is not about the turn leaves its charge and keys alone. */
  lemma RowElsewhere(rows: seq<Row>, row: Row, t: Id)
    requires !About(row, AiTurn(t)) && row.key != CommitOf(AiTurn(t)) && row.key != RefundOf(AiTurn(t))
    ensures Charge(rows + [row], t) == Charge(rows, t)
    ensures HasKey(rows + [row], AiTurn(t)) <==> HasKey(rows, AiTurn(t))
    ensures Unsettled(rows + [row], t) <==> Unsettled(rows, t)
  {
    SumAppend(rows, row, ChargeOn(AiTurn(t)));
    KeysAppend(rows, row);
  }

  lemma RowOfTurn(rows: seq<Row>, row: Row, t: Id)
    requires About(row, AiTurn(t))
    ensures Charge(rows + [row], t) == Charge(rows, t) - row.amount
    ensures Keys(rows + [row]) == Keys(rows) + {row.key}
  {
    SumAppend(rows, row, ChargeOn(AiTurn(t)));
    KeysAppend(rows, row);
  }

  lemma OtherTurnOk(dir: Directory, s: State, step: Step, t: Id)
    requires TurnOk(s, t) && (!step.OtherWrite? ==> step.turn != t)
    ensures TurnOk(Next(dir, s, step), t)
  {
    var s' := Next(dir, s, step);
    if s'.rows != s.rows {
      var row := s'.rows[|s.rows|];
      assert s'.rows == s.rows + [row];
      RowElsewhere(s.rows, row, t);
    }
  }

  lemma OwnTurnOk(dir: Directory, s: State, step: Step)
    requires !step.OtherWrite? && TurnOk(s, step.turn)
    ensures TurnOk(Next(dir, s, step), step.turn)
  {
    var s', t := Next(dir, s, step), step.turn;
    if s'.rows != s.rows {
      var row := s'.rows[|s.rows|];
      assert s'.rows == s.rows + [row];
      RowOfTurn(s.rows, row, t);
    }
  }

  lemma NextKeepsInv(dir: Directory, s: State, step: Step)
    requires Inv(s)
    ensures Inv(Next(dir, s, step))
  {
    forall t
      ensures TurnOk(Next(dir, s, step), t)
    {
      assert TurnOk(s, t);
      if step.OtherWrite? || step.turn != t {
        OtherTurnOk(dir, s, step, t);
      } else {
        OwnTurnOk(dir, s, step);
      }
    }
  }

  lemma {:induction false} RunKeepsInv(dir: Directory, s: State, steps: seq<Step>)
    requires Inv(s)
    ensures Inv(Run(dir, s, steps))
    decreases |steps|
  {
    if steps != [] {
      NextKeepsInv(dir, s, steps[0]);
      RunKeepsInv(dir, Next(dir, s, steps[0]), steps[1..]);
    }
  }

  lemma {:induction false} ForeignChargesNothing(rows: seq<Row>, t: Id)
    requires forall i :: 0 <= i < |rows| ==> Foreign(rows[i])
    ensures Charge(rows, t) == 0 && !HasKey(rows, AiTurn(t)) && Unsettled(rows, t)
  {
    if rows != [] {
      var init, last := rows[..|rows| - 1], rows[|rows| - 1];
      ForeignChargesNothing(init, t);
      RowElsewhere(init, last, t);
      assert rows == init + [last];
    }
  }

  lemma InitialInv(s: State)
    requires Initial(s)
    ensures Inv(s)
  {
    forall t
      ensures TurnOk(s, t)
    {
      ForeignChargesNothing(s.rows, t);
    }
  }

  /** In every run, of any turns on any scopes: a turn that is over costs its one credit if and only if it was
      answered or its process died before the refund was written; any other turn that is over costs nothing. */
  lemma TurnCostsIff(dir: Directory, s: State, steps: seq<Step>, t: Id)
    requires Initial(s)
    ensures var end := Run(dir, s, steps);
            && 0 <= Charge(end.rows, t) <= 1
            && (t !in end.running ==> (Charge(end.rows, t) == 1 <==> t in end.answered || t in end.died))
  {
    InitialInv(s);
    RunKeepsInv(dir, s, steps);
    assert TurnOk(Run(dir, s, steps), t);
  }

  lemma DeathStays(dir: Directory, s: State, step: Step, t: Id)
    requires Inv(s) && t in s.died
    ensures t in Next(dir, s, step).died
  {
  }

  /** A turn whose process dies after the reserve has paid for no answer, and is never refunded, whatever follows. */
  lemma {:induction false} DeadTurnIsNeverRefunded(dir: Directory, s: State, steps: seq<Step>, t: Id)
    requires Inv(s) && t in s.died
    ensures var end := Run(dir, s, steps); t in end.died && t !in end.answered && Charge(end.rows, t) == 1
    decreases |steps|
  {
    assert TurnOk(s, t);
    if steps != [] {
      DeathStays(dir, s, steps[0], t);
      NextKeepsInv(dir, s, steps[0]);
      DeadTurnIsNeverRefunded(dir, Next(dir, s, steps[0]), steps[1..], t);
    }
  }

  /** From any initial state with a credit to spend, such a turn. */
  lemma DeathCostsCredit(dir: Directory, s: State, t: Id, scope: Scope)
    requires Initial(s) && BalanceOf(dir, s.rows, scope) >= 1
    ensures var end := Run(dir, s, [Begin(t, scope), Die(t)]);
            t !in end.running && t !in end.answered && Charge(end.rows, t) == 1
  {
    var steps := [Begin(t, scope), Die(t)];
    TurnCostsIff(dir, s, steps, t);
    assert steps[1..] == [Die(t)] && [Die(t)][1..] == [];
    assert Run(dir, s, steps) == Run(dir, Next(dir, s, steps[0]), [Die(t)]);
    assert Run(dir, s, steps) == Next(dir, Next(dir, s, steps[0]), Die(t));
  }
}
