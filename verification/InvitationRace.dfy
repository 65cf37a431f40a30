/** Acceptances as they really run: the invitation is read in one step, and the transaction that writes back the use
    count and the status it computed from that read is a later one, with anything in between. */
module InvitationRace {
  import opened Prelude
  import opened Invitations

  /** An acceptance between its read and its write; an expiring one has read an expired invitation and will mark it. */
  datatype Flight = Flight(token: nat, user: string, read: Invitation, expiring: bool)

  datatype RaceState = RaceState(base: State, flights: seq<Flight>)

  /** `Serial` is any operation, an acceptance included, that nothing interrupts. */
  datatype Move =
    | Serial(step: Step)
    | Read(user: string, token: nat)
    | Write(i: nat)
    | Crash(i: nat)

  function Drop(r: RaceState, i: nat): RaceState
    requires i < |r.flights|
  {
    r.(flights := r.flights[..i] + r.flights[i + 1..])
  }

  function Reading(s: State, user: string, token: nat): seq<Flight> {
    if token >= |s.invitations| then [] else
    var inv := s.invitations[token];
    if inv.status == REVOKED || inv.status == EXPIRED then []
    else [Flight(token, user, inv, inv.expiresAt <= s.now)]
  }

  /** The transaction will make a member of the user. */
  predicate Admits(s: State, f: Flight) {
    f.token < |s.invitations| && !f.expiring && f.user !in ActiveMembers(s.members) && f.read.uses < f.read.maxUses
  }

  /** What the write does: the count and the status come from the read, not from the row as it is now. */
  function Written(s: State, f: Flight): State {
    if f.token >= |s.invitations| then s else
    var inv := s.invitations[f.token];
    if f.expiring then s.(invitations := s.invitations[f.token := inv.(status := EXPIRED)])
    else if !Admits(s, f) then s
    else
      var uses := f.read.uses + 1;
      var used := inv.(uses := uses, status := if uses >= f.read.maxUses then ACCEPTED else PENDING);
      s.(members := s.members[f.user := Member(f.read.role, true)], invitations := s.invitations[f.token := used],
         admitted := s.admitted + [(f.token, f.user)])
  }

  ghost function RaceNext(r: RaceState, move: Move): RaceState {
    match move
    case Serial(step) => r.(base := Next(r.base, step))
    case Read(user, token) => r.(flights := r.flights + Reading(r.base, user, token))
    case Write(i) => if i >= |r.flights| then r else Drop(r, i).(base := Written(r.base, r.flights[i]))
    case Crash(i) => if i >= |r.flights| then r else Drop(r, i)
  }

  ghost function RaceRun(r: RaceState, moves: seq<Move>): RaceState
    decreases |moves|
  {
    if moves == [] then r else RaceRun(RaceNext(r, moves[0]), moves[1..])
  }

  lemma UninterruptedWrite(s: State, user: string, token: nat)
    ensures Next(s, Accept(user, token))
            == if Reading(s, user, token) == [] then s else Written(s, Reading(s, user, token)[0])
  {
    if token < |s.invitations| {
      var inv := s.invitations[token];
      assert inv.status == EXPIRED ==> s.invitations[token := inv.(status := EXPIRED)] == s.invitations;
    }
  }

  lemma MovesTwo(r: RaceState, a: Move, b: Move, rest: seq<Move>)
    ensures RaceRun(r, [a, b] + rest) == RaceRun(RaceNext(RaceNext(r, a), b), rest)
  {
    assert ([a, b] + rest)[1..] == [b] + rest && ([b] + rest)[1..] == rest;
    assert RaceRun(r, [a, b] + rest) == RaceRun(RaceNext(r, a), [b] + rest);
  }

  /** A read followed at once by its write is the serial acceptance. */
  lemma UninterruptedIsSerial(r: RaceState, user: string, token: nat)
    ensures RaceRun(r, [Read(user, token), Write(|r.flights|)]) == RaceNext(r, Serial(Accept(user, token)))
  {
    var m := RaceNext(r, Read(user, token));
    MovesTwo(r, Read(user, token), Write(|r.flights|), []);
    assert [Read(user, token), Write(|r.flights|)] + [] == [Read(user, token), Write(|r.flights|)];
    UninterruptedWrite(r.base, user, token);
    if Reading(r.base, user, token) != [] {
      assert Drop(m, |r.flights|).flights == r.flights;
    } else {
      assert m.flights == r.flights;
    }
  }

  // ---- When a token's count is right ------------------------------------------------------

  ghost function Admitted(s: State, token: nat): int { SumOf(s.admitted, By(token)) }

  /** The stored count is the number of members admitted, and no acceptance in flight has read a higher one. */
  ghost predicate Exact(r: RaceState, token: nat)
    requires token < |r.base.invitations|
  {
    && r.base.invitations[token].uses == Admitted(r.base, token)
    && forall i :: 0 <= i < |r.flights| && r.flights[i].token == token ==>
      r.flights[i].read.uses <= Admitted(r.base, token)
  }

  /** The token has admitted more members than its row, or any read still in flight, says. */
  ghost predicate Behind(r: RaceState, token: nat)
    requires token < |r.base.invitations|
  {
    && 1 <= r.base.invitations[token].uses < Admitted(r.base, token)
    && forall i :: 0 <= i < |r.flights| && r.flights[i].token == token ==>
      r.flights[i].read.uses < Admitted(r.base, token)
  }

  /** A write that admits a member against a count that is no longer the one it read. */
  ghost predicate StaleWrite(r: RaceState, move: Move, token: nat) {
    && move.Write? && move.i < |r.flights| && r.flights[move.i].token == token && Admits(r.base, r.flights[move.i])
    && r.flights[move.i].read.uses != r.base.invitations[token].uses
  }

  ghost predicate NeverStale(r: RaceState, moves: seq<Move>, token: nat)
    decreases |moves|
  {
    moves != [] ==> !StaleWrite(r, moves[0], token) && NeverStale(RaceNext(r, moves[0]), moves[1..], token)
  }

  lemma WriteCounts(r: RaceState, i: nat, token: nat)
    requires i < |r.flights| && token < |r.base.invitations|
    ensures var f, s' := r.flights[i], Written(r.base, r.flights[i]);
            var counts := f.token == token && Admits(r.base, f);
            && |s'.invitations| == |r.base.invitations|
            && Admitted(s', token) == Admitted(r.base, token) + (if counts then 1 else 0)
            && s'.invitations[token].uses == (if counts then f.read.uses + 1 else r.base.invitations[token].uses)
            && s'.invitations[token].maxUses == r.base.invitations[token].maxUses
  {
    var f := r.flights[i];
    SumAppend(r.base.admitted, (f.token, f.user), By(token));
  }

  lemma SerialCounts(s: State, step: Step, token: nat)
    requires token < |s.invitations|
    ensures var s' := Next(s, step);
            var counts := step.Accept? && step.token == token && AcceptAnswer(s, step.user, token) == Joined;
            && token < |s'.invitations|
            && Admitted(s', token) == Admitted(s, token) + (if counts then 1 else 0)
            && s'.invitations[token].uses == s.invitations[token].uses + (if counts then 1 else 0)
            && s'.invitations[token].maxUses == s.invitations[token].maxUses
            && (counts ==> s.invitations[token].uses < s.invitations[token].maxUses)
  {
    if step.Accept? {
      SumAppend(s.admitted, (step.token, step.user), By(token));
    }
  }

  lemma WriteKeepsCounts(r: RaceState, i: nat, token: nat)
    requires token < |r.base.invitations| && i < |r.flights|
    ensures var r' := RaceNext(r, Write(i));
            && token < |r'.base.invitations|
            && (Exact(r, token) && !StaleWrite(r, Write(i), token) ==> Exact(r', token))
            && ((Exact(r, token) && StaleWrite(r, Write(i), token)) || Behind(r, token) ==> Behind(r', token))
  {
    WriteCounts(r, i, token);
  }

  /** One move keeps an exact count exact unless it is a stale write, and a count once behind never catches up. */
  lemma MoveCounts(r: RaceState, move: Move, token: nat)
    requires token < |r.base.invitations|
    ensures token < |RaceNext(r, move).base.invitations|
    ensures Exact(r, token) && !StaleWrite(r, move, token) ==> Exact(RaceNext(r, move), token)
    ensures (Exact(r, token) && StaleWrite(r, move, token)) || Behind(r, token) ==> Behind(RaceNext(r, move), token)
  {
    match move
    case Serial(step) => SerialCounts(r.base, step, token);
    case Write(i) =>
      if i < |r.flights| {
        WriteKeepsCounts(r, i, token);
      }
    case _ =>
  }

  lemma {:induction false} BehindStays(r: RaceState, moves: seq<Move>, token: nat)
    requires token < |r.base.invitations| && Behind(r, token)
    ensures token < |RaceRun(r, moves).base.invitations| && Behind(RaceRun(r, moves), token)
    decreases |moves|
  {
    if moves != [] {
      MoveCounts(r, moves[0], token);
      BehindStays(RaceNext(r, moves[0]), moves[1..], token);
    }
  }

  lemma {:induction false} ExactOrBehind(r: RaceState, moves: seq<Move>, token: nat)
    requires token < |r.base.invitations| && Exact(r, token)
    ensures token < |RaceRun(r, moves).base.invitations|
    ensures if NeverStale(r, moves, token) then Exact(RaceRun(r, moves), token) else Behind(RaceRun(r, moves), token)
    decreases |moves|
  {
    if moves != [] {
      MoveCounts(r, moves[0], token);
      if StaleWrite(r, moves[0], token) {
        BehindStays(RaceNext(r, moves[0]), moves[1..], token);
      } else {
        ExactOrBehind(RaceNext(r, moves[0]), moves[1..], token);
      }
    }
  }

  /** In every interleaving: a token's stored count is the number of members it admitted if and only if no acceptance
      ever wrote against a count other than the one it had read. */
  lemma CountIsExactIff(r: RaceState, moves: seq<Move>, token: nat)
    requires token < |r.base.invitations| && Exact(r, token)
    ensures token < |RaceRun(r, moves).base.invitations|
    ensures var end := RaceRun(r, moves).base;
            end.invitations[token].uses == Admitted(end, token) <==> NeverStale(r, moves, token)
  {
    ExactOrBehind(r, moves, token);
  }

  // ---- When a token admits at most its uses ---------------------------------------------------

  /** The allowance never changes, and no count passes it. */
  ghost predicate Allowance(r: RaceState, token: nat, m: int)
    requires token < |r.base.invitations|
  {
    && r.base.invitations[token].maxUses == m && r.base.invitations[token].uses <= Max(0, m)
    && forall i :: 0 <= i < |r.flights| && r.flights[i].token == token ==> r.flights[i].read.maxUses == m
  }

  lemma AllowanceStep(r: RaceState, move: Move, token: nat, m: int)
    requires token < |r.base.invitations| && Allowance(r, token, m)
    ensures token < |RaceNext(r, move).base.invitations| && Allowance(RaceNext(r, move), token, m)
  {
    match move
    case Serial(step) => SerialCounts(r.base, step, token);
    case Write(i) =>
      if i < |r.flights| {
        WriteCounts(r, i, token);
      }
    case _ =>
  }

  lemma {:induction false} AllowanceStays(r: RaceState, moves: seq<Move>, token: nat, m: int)
    requires token < |r.base.invitations| && Allowance(r, token, m)
    ensures token < |RaceRun(r, moves).base.invitations| && Allowance(RaceRun(r, moves), token, m)
    decreases |moves|
  {
    if moves != [] {
      AllowanceStep(r, moves[0], token, m);
      AllowanceStays(RaceNext(r, moves[0]), moves[1..], token, m);
    }
  }

  /** In every interleaving without a stale write a token admits at most its uses; a single-use token does so only
      then. */
  lemma SingleUseAdmitsOneIff(r: RaceState, moves: seq<Move>, token: nat, m: int)
    requires token < |r.base.invitations| && Exact(r, token) && Allowance(r, token, m)
    ensures var end := RaceRun(r, moves).base;
            && (NeverStale(r, moves, token) ==> Admitted(end, token) <= Max(0, m))
            && (m <= 1 ==> (Admitted(end, token) <= Max(0, m) <==> NeverStale(r, moves, token)))
  {
    ExactOrBehind(r, moves, token);
    AllowanceStays(r, moves, token, m);
  }

  ghost function Of(token: nat): Flight -> int { (f: Flight) => if f.token == token then 1 else 0 }

  /** At most k acceptances of the token run at once; one that nothing interrupts counts while it runs. */
  ghost predicate AtOnce(r: RaceState, moves: seq<Move>, token: nat, k: nat)
    decreases |moves|
  {
    && SumOf(r.flights, Of(token)) <= k
    && (moves != [] ==>
          && (moves[0].Serial? && moves[0].step.Accept? && moves[0].step.token == token ==>
            SumOf(r.flights, Of(token)) < k)
          && AtOnce(RaceNext(r, moves[0]), moves[1..], token, k))
  }

  /** Every acceptance of the token in flight has read the current count. */
  ghost predicate UpToDate(r: RaceState, token: nat)
    requires token < |r.base.invitations|
  {
    forall i :: 0 <= i < |r.flights| && r.flights[i].token == token ==>
      r.flights[i].read.uses == r.base.invitations[token].uses
  }

  lemma NoneInFlight(flights: seq<Flight>, token: nat)
    requires SumOf(flights, Of(token)) <= 0
    ensures forall i :: 0 <= i < |flights| ==> flights[i].token != token
  {
    SumNonNegative(flights, Of(token));
    forall i | 0 <= i < |flights|
      ensures flights[i].token != token
    {
      assert Of(token)(flights[i]) <= 0;
    }
  }

  lemma AloneSerial(r: RaceState, step: Step, token: nat)
    requires token < |r.base.invitations| && UpToDate(r, token)
    requires step.Accept? && step.token == token ==> SumOf(r.flights, Of(token)) < 1
    ensures token < |RaceNext(r, Serial(step)).base.invitations| && UpToDate(RaceNext(r, Serial(step)), token)
  {
    SerialCounts(r.base, step, token);
    if step.Accept? && step.token == token {
      NoneInFlight(r.flights, token);
    }
  }

  lemma AloneWrite(r: RaceState, i: nat, token: nat)
    requires token < |r.base.invitations| && UpToDate(r, token) && i < |r.flights| && SumOf(r.flights, Of(token)) <= 1
    ensures token < |RaceNext(r, Write(i)).base.invitations| && UpToDate(RaceNext(r, Write(i)), token)
  {
    WriteCounts(r, i, token);
    if r.flights[i].token == token {
      SumRemove(r.flights, i, Of(token));
      NoneInFlight(Drop(r, i).flights, token);
    }
  }

  lemma AloneMove(r: RaceState, move: Move, token: nat)
    requires token < |r.base.invitations| && UpToDate(r, token) && SumOf(r.flights, Of(token)) <= 1
    requires move.Serial? && move.step.Accept? && move.step.token == token ==> SumOf(r.flights, Of(token)) < 1
    ensures token < |RaceNext(r, move).base.invitations| && UpToDate(RaceNext(r, move), token)
  {
    match move
    case Serial(step) => AloneSerial(r, step, token);
    case Write(i) =>
      if i < |r.flights| {
        AloneWrite(r, i, token);
      }
    case _ =>
  }

  lemma {:induction false} AloneIsNeverStale(r: RaceState, moves: seq<Move>, token: nat)
    requires token < |r.base.invitations| && UpToDate(r, token) && AtOnce(r, moves, token, 1)
    ensures NeverStale(r, moves, token)
    decreases |moves|
  {
    if moves != [] {
      AloneMove(r, moves[0], token);
      AloneIsNeverStale(RaceNext(r, moves[0]), moves[1..], token);
    }
  }

  /** The token lets in anyone who is not a member yet. */
  predicate Usable(s: State, token: nat) {
    && token < |s.invitations| && s.invitations[token].status != REVOKED && s.invitations[token].status != EXPIRED
    && s.invitations[token].expiresAt > s.now
  }

  /** Acceptances one after the other until the count reaches the allowance. */
  lemma {:induction false} FillUp(r: RaceState, token: nat, k: nat) returns (moves: seq<Move>)
    requires Usable(r.base, token) && SumOf(r.flights, Of(token)) == 0 && k >= 1
    requires r.base.invitations[token].uses <= r.base.invitations[token].maxUses
    ensures AtOnce(r, moves, token, k)
    ensures var inv := r.base.invitations[token];
            Admitted(RaceRun(r, moves).base, token) == Admitted(r.base, token) + inv.maxUses - inv.uses
    decreases r.base.invitations[token].maxUses - r.base.invitations[token].uses
  {
    moves := [];
    if r.base.invitations[token].uses < r.base.invitations[token].maxUses {
      var user := Outsider(ActiveMembers(r.base.members));
      assert user !in ActiveMembers(r.base.members);
      var r' := RaceNext(r, Serial(Accept(user, token)));
      SerialCounts(r.base, Accept(user, token), token);
      var rest := FillUp(r', token, k);
      moves := [Serial(Accept(user, token))] + rest;
      assert moves[1..] == rest;
    }
  }

  lemma AdmittingWrite(s: State, f: Flight)
    requires Usable(s, f.token) && Admits(s, f)
    ensures var s' := Written(s, f);
            && Usable(s', f.token) && ActiveMembers(s'.members) == ActiveMembers(s.members) + {f.user}
            && Admitted(s', f.token) == Admitted(s, f.token) + 1
            && s'.invitations[f.token].uses == f.read.uses + 1
            && s'.invitations[f.token].maxUses == s.invitations[f.token].maxUses
  {
    SumAppend(s.admitted, (f.token, f.user), By(f.token));
  }

  /** Two acceptances that read the token before either wrote have both been admitted. */
  lemma TwoWrites(s: State, fa: Flight, fb: Flight, token: nat)
    requires Usable(s, token) && s.invitations[token].uses < s.invitations[token].maxUses
    requires fa.user != fb.user && fa.user !in ActiveMembers(s.members) && fb.user !in ActiveMembers(s.members)
    requires fa == Flight(token, fa.user, s.invitations[token], false)
    requires fb == Flight(token, fb.user, s.invitations[token], false)
    ensures var s' := Written(Written(s, fa), fb);
            && Usable(s', token) && Admitted(s', token) == Admitted(s, token) + 2
            && s'.invitations[token].uses == s.invitations[token].uses + 1
            && s'.invitations[token].maxUses == s.invitations[token].maxUses
  {
    AdmittingWrite(s, fa);
    AdmittingWrite(Written(s, fa), fb);
  }

  lemma AtOnceTwo(r: RaceState, a: Move, b: Move, rest: seq<Move>, token: nat, k: nat)
    requires !a.Serial? && !b.Serial?
    requires SumOf(r.flights, Of(token)) <= k && SumOf(RaceNext(r, a).flights, Of(token)) <= k
    requires AtOnce(RaceNext(RaceNext(r, a), b), rest, token, k)
    ensures AtOnce(r, [a, b] + rest, token, k)
  {
    assert ([a, b] + rest)[1..] == [b] + rest && ([b] + rest)[1..] == rest;
    assert AtOnce(RaceNext(r, a), [b] + rest, token, k);
  }

  /** Two outsiders read before either writes; then the token is used up by others. */
  lemma RaceThenFill(r: RaceState, token: nat, k: nat) returns (moves: seq<Move>)
    requires Usable(r.base, token) && SumOf(r.flights, Of(token)) == 0 && k >= 2 && Exact(r, token)
    requires r.base.invitations[token].uses < r.base.invitations[token].maxUses
    ensures AtOnce(r, moves, token, k)
    ensures Admitted(RaceRun(r, moves).base, token) == r.base.invitations[token].maxUses + 1
  {
    var a := Outsider(ActiveMembers(r.base.members));
    var b := a + "u";
    var n, inv := |r.flights|, r.base.invitations[token];
    var fa, fb := Flight(token, a, inv, false), Flight(token, b, inv, false);
    var r1 := r.(flights := r.flights + [fa]);
    var r2 := r.(flights := r.flights + [fa, fb]);
    assert RaceNext(r, Read(a, token)) == r1;
    assert RaceNext(r1, Read(b, token)) == r2 by {
      assert r1.flights + [fb] == r2.flights;
    }
    var r3 := RaceState(Written(r.base, fa), r.flights + [fb]);
    assert RaceNext(r2, Write(n)) == r3 by {
      assert Drop(r2, n).flights == r3.flights;
    }
    var r4 := RaceState(Written(r3.base, fb), r.flights);
    assert RaceNext(r3, Write(n)) == r4 by {
      assert Drop(r3, n).flights == r.flights;
    }
    TwoWrites(r.base, fa, fb, token);
    var rest := FillUp(r4, token, k);
    moves := [Read(a, token), Read(b, token)] + ([Write(n), Write(n)] + rest);
    MovesTwo(r, Read(a, token), Read(b, token), [Write(n), Write(n)] + rest);
    MovesTwo(r2, Write(n), Write(n), rest);
    FlightsOf(r.flights, fa, fb, token);
    AtOnceTwo(r2, Write(n), Write(n), rest, token, k);
    AtOnceTwo(r, Read(a, token), Read(b, token), [Write(n), Write(n)] + rest, token, k);
  }

  lemma FlightsOf(flights: seq<Flight>, fa: Flight, fb: Flight, token: nat)
    requires fa.token == fb.token == token
    ensures SumOf(flights + [fa], Of(token)) == SumOf(flights + [fb], Of(token)) == SumOf(flights, Of(token)) + 1
    ensures SumOf(flights + [fa, fb], Of(token)) == SumOf(flights, Of(token)) + 2
  {
    SumAppend(flights, fa, Of(token));
    SumAppend(flights, fb, Of(token));
    SumAppend(flights + [fa], fb, Of(token));
    assert flights + [fa, fb] == (flights + [fa]) + [fb];
  }

  ghost predicate WithinAllowance(end: State, token: nat) {
    token < |end.invitations| && Admitted(end, token) <= end.invitations[token].maxUses
  }

  /** From any state in which a token is usable and its count right: no interleaving with at most k acceptances of it at
      once admits more members than its uses if and only if k is 1. */
  lemma TokenAdmitsAtMostItsUsesIff(r: RaceState, token: nat, k: nat)
    requires Usable(r.base, token) && SumOf(r.flights, Of(token)) == 0 && k >= 1 && Exact(r, token)
    requires r.base.invitations[token].uses < r.base.invitations[token].maxUses
    ensures (forall moves :: AtOnce(r, moves, token, k) ==> WithinAllowance(RaceRun(r, moves).base, token)) <==> k == 1
  {
    SumNonNegative(r.flights, Of(token));
    assert forall i :: 0 <= i < |r.flights| && r.flights[i].token == token ==> Of(token)(r.flights[i]) == 1;
    var m := r.base.invitations[token].maxUses;
    if k == 1 {
      forall moves | AtOnce(r, moves, token, k)
        ensures WithinAllowance(RaceRun(r, moves).base, token)
      {
        AloneIsNeverStale(r, moves, token);
        SingleUseAdmitsOneIff(r, moves, token, m);
        AllowanceStays(r, moves, token, m);
      }
    } else {
      var moves := RaceThenFill(r, token, k);
      AllowanceStays(r, moves, token, m);
      assert !WithinAllowance(RaceRun(r, moves).base, token);
    }
  }

  // ---- Revocation ---------------------------------------------------------------------------------

  /** An acceptance in flight that will write to the token: it found the invitation expired, or found uses left for a
      user who is not a member. */
  predicate WillWrite(s: State, f: Flight, token: nat) {
    f.token == token && (f.expiring || (f.read.uses < f.read.maxUses && f.user !in ActiveMembers(s.members)))
  }

  ghost predicate Quiet(r: RaceState, token: nat) {
    forall i :: 0 <= i < |r.flights| ==> !WillWrite(r.base, r.flights[i], token)
  }

  ghost predicate Revoked(s: State, token: nat) { token < |s.invitations| && s.invitations[token].status == REVOKED }

  /** Nobody is deactivated, as nothing in the repository does. */
  predicate NoRemoval(moves: seq<Move>) {
    forall i :: 0 <= i < |moves| ==> !(moves[i].Serial? && moves[i].step.Remove?)
  }

  lemma MembersStay(r: RaceState, move: Move)
    requires !(move.Serial? && move.step.Remove?)
    ensures ActiveMembers(r.base.members) <= ActiveMembers(RaceNext(r, move).base.members)
  {
  }

  lemma RevokedStep(r: RaceState, move: Move, token: nat)
    requires Revoked(r.base, token) && Quiet(r, token) && !(move.Serial? && move.step.Remove?)
    ensures Revoked(RaceNext(r, move).base, token) && Quiet(RaceNext(r, move), token)
  {
    var r' := RaceNext(r, move);
    MembersStay(r, move);
    forall i | 0 <= i < |r'.flights|
      ensures !WillWrite(r'.base, r'.flights[i], token)
    {
      assert r'.flights[i] in r.flights || (move.Read? && r'.flights[i].token != token);
    }
  }

  lemma {:induction false} RevokedStays(r: RaceState, moves: seq<Move>, token: nat)
    requires Revoked(r.base, token) && Quiet(r, token) && NoRemoval(moves)
    ensures Revoked(RaceRun(r, moves).base, token)
    decreases |moves|
  {
    if moves != [] {
      assert !(moves[0].Serial? && moves[0].step.Remove?);
      RevokedStep(r, moves[0], token);
      RevokedStays(RaceNext(r, moves[0]), moves[1..], token);
    }
  }

  /** A revoked token stays revoked through every continuation if and only if no acceptance that found it expired, or
      found uses left for a user who is not a member yet, is between its read and its write. */
  lemma RevokedIsFinalIff(r: RaceState, token: nat)
    requires Revoked(r.base, token)
    ensures (forall moves :: NoRemoval(moves) ==> Revoked(RaceRun(r, moves).base, token)) <==> Quiet(r, token)
  {
    if Quiet(r, token) {
      forall moves | NoRemoval(moves)
        ensures Revoked(RaceRun(r, moves).base, token)
      {
        RevokedStays(r, moves, token);
      }
    } else {
      var i :| 0 <= i < |r.flights| && WillWrite(r.base, r.flights[i], token);
      var moves := [Write(i)];
      assert moves[1..] == [] && RaceRun(r, moves) == RaceNext(r, moves[0]);
      assert NoRemoval(moves) && !Revoked(RaceRun(r, moves).base, token);
    }
  }
}
