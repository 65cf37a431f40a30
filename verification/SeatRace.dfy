/** Invitations created concurrently. A creation counts the members, later counts the pending invitations and decides,
    and later still inserts, with anything in between; acceptances run without interruption. */
module SeatRace {
  import opened Prelude
  import opened Invitations

  datatype Draft = Draft(role: string, maxUses: int, ttl: nat)

  /** A creation that has counted the members and not yet the invitations. */
  datatype Counting = Counting(draft: Draft, members: nat)

  /** `drafts` have passed the seat check and are not inserted yet. */
  datatype RaceState = RaceState(base: State, counting: seq<Counting>, drafts: seq<Draft>)

  /** A creation refused before its seat check, for an invitee who is a member, is no move. */
  datatype Move =
    | Serial(step: Step)
    | CountMembers(draft: Draft)
    | Decide(i: nat)
    | Insert(i: nat)
    | AbandonCount(i: nat)
    | AbandonDraft(i: nat)

  function Without<T>(xs: seq<T>, i: nat): seq<T>
    requires i < |xs|
  {
    xs[..i] + xs[i + 1..]
  }

  function Inserted(s: State, d: Draft): State {
    s.(invitations := s.invitations + [Invitation(PENDING, d.role, d.maxUses, 0, s.now + d.ttl)])
  }

  /** The decision on the two counts, the members being the earlier one. */
  ghost predicate Fits(s: State, members: nat) {
    s.limit.Some? ==> members + SumOf(s.invitations, Pending(s.now)) + 1 <= s.limit.value
  }

  ghost function RaceNext(r: RaceState, move: Move): RaceState {
    match move
    case Serial(step) => r.(base := Next(r.base, step))
    case CountMembers(d) => r.(counting := r.counting + [Counting(d, |ActiveMembers(r.base.members)|)])
    case Decide(i) =>
      if i >= |r.counting| then r else
      var c := r.counting[i];
      RaceState(r.base, Without(r.counting, i), if Fits(r.base, c.members) then r.drafts + [c.draft] else r.drafts)
    case Insert(i) =>
      if i >= |r.drafts| then r else r.(base := Inserted(r.base, r.drafts[i]), drafts := Without(r.drafts, i))
    case AbandonCount(i) => if i >= |r.counting| then r else r.(counting := Without(r.counting, i))
    case AbandonDraft(i) => if i >= |r.drafts| then r else r.(drafts := Without(r.drafts, i))
  }

  ghost function RaceRun(r: RaceState, moves: seq<Move>): RaceState
    decreases |moves|
  {
    if moves == [] then r else RaceRun(RaceNext(r, moves[0]), moves[1..])
  }

  /** The two counts followed at once by the insertion are the serial creation. */
  lemma UninterruptedIsSerial(r: RaceState, invitee: Option<string>, d: Draft)
    requires CreateAnswer(r.base, invitee) != InviteeIsMember
    ensures var decided := RaceNext(RaceNext(r, CountMembers(d)), Decide(|r.counting|));
            (if |decided.drafts| > |r.drafts| then RaceNext(decided, Insert(|r.drafts|)) else decided)
            == RaceNext(r, Serial(Create(invitee, d.role, d.maxUses, d.ttl)))
  {
    assert Without(r.drafts + [d], |r.drafts|) == r.drafts;
    assert Without(r.counting + [Counting(d, |ActiveMembers(r.base.members)|)], |r.counting|) == r.counting;
  }

  /** At most k creations run at once, and at most j members have joined since any of them counted the members. */
  ghost predicate Calm(r: RaceState, k: nat, j: nat) {
    && |r.counting| + |r.drafts| <= k
    && forall i :: 0 <= i < |r.counting| ==> |ActiveMembers(r.base.members)| <= r.counting[i].members + j
  }

  /** A creation that nothing interrupts counts while it runs. */
  ghost predicate AtOnce(r: RaceState, moves: seq<Move>, k: nat, j: nat)
    decreases |moves|
  {
    && Calm(r, k, j)
    && (moves != [] ==>
          && (moves[0].Serial? && moves[0].step.Create? ==> |r.counting| + |r.drafts| < k)
          && AtOnce(RaceNext(r, moves[0]), moves[1..], k, j))
  }

  // ---- The bound ------------------------------------------------------------------------------

  /** Seats taken, seats invitations may still turn into and drafts, against the ceiling and k - 1 + j more. */
  ghost predicate Covered(r: RaceState, ceiling: int, k: nat, j: nat) {
    TokensOk(r.base) && Bounded(r.base, ceiling + j + k - 1 - |r.drafts|)
  }

  lemma DecideKeepsCovered(r: RaceState, i: nat, ceiling: int, k: nat, j: nat)
    requires Covered(r, ceiling, k, j) && r.base.limit.Some? && r.base.limit.value <= ceiling && i < |r.counting|
    requires Calm(r, k, j)
    ensures Covered(RaceNext(r, Decide(i)), ceiling, k, j)
  {
    ReachBounds(r.base.invitations, r.base.now);
  }

  lemma InsertKeepsCovered(r: RaceState, i: nat, ceiling: int, k: nat, j: nat)
    requires Covered(r, ceiling, k, j) && i < |r.drafts|
    ensures Covered(RaceNext(r, Insert(i)), ceiling, k, j)
  {
    var d, s := r.drafts[i], r.base;
    var inv := Invitation(PENDING, d.role, d.maxUses, 0, s.now + d.ttl);
    SumAppend(s.invitations, inv, Reach(s.now));
    SumAppend(s.invitations, inv, Extra());
    var s' := Inserted(s, d);
    forall t | 0 <= t < |s'.invitations|
      ensures TokenOk(s', t)
    {
      assert t < |s.invitations| ==> TokenOk(s, t);
    }
  }

  lemma MoveKeepsCovered(r: RaceState, move: Move, ceiling: int, k: nat, j: nat)
    requires Covered(r, ceiling, k, j) && r.base.limit.Some? && r.base.limit.value <= ceiling && Calm(r, k, j)
    requires move.Serial? && move.step.Create? ==> |r.counting| + |r.drafts| < k
    ensures Covered(RaceNext(r, move), ceiling, k, j) && RaceNext(r, move).base.limit == r.base.limit
  {
    match move
    case Serial(step) =>
      NextKeepsTokens(r.base, step);
      NextKeepsBounded(r.base, step, ceiling + j + k - 1 - |r.drafts|);
    case Decide(i) =>
      if i < |r.counting| {
        DecideKeepsCovered(r, i, ceiling, k, j);
      }
    case Insert(i) =>
      if i < |r.drafts| {
        InsertKeepsCovered(r, i, ceiling, k, j);
      }
    case _ =>
  }

  lemma {:induction false} RunKeepsCovered(r: RaceState, moves: seq<Move>, ceiling: int, k: nat, j: nat)
    requires Covered(r, ceiling, k, j) && r.base.limit.Some? && r.base.limit.value <= ceiling && AtOnce(r, moves, k, j)
    ensures Covered(RaceRun(r, moves), ceiling, k, j) && |RaceRun(r, moves).drafts| <= k
    decreases |moves|
  {
    if moves != [] {
      MoveKeepsCovered(r, moves[0], ceiling, k, j);
      RunKeepsCovered(RaceNext(r, moves[0]), moves[1..], ceiling, k, j);
    }
  }

  /** In every interleaving with at most k creations at once and at most j members joining between the two counts of
      any of them, seats pass the limit (or the starting count, if higher) by at most k - 1 + j and the invitations'
      uses beyond their first. */
  lemma SeatRaceBound(s: State, moves: seq<Move>, k: nat, j: nat)
    requires TokensOk(s) && s.limit.Some? && k >= 1 && AtOnce(RaceState(s, [], []), moves, k, j)
    ensures var end := RaceRun(RaceState(s, [], []), moves).base;
            Seats(end) <= Max(s.limit.value, Seats(s)) + SumOf(end.invitations, Extra()) + k - 1 + j
  {
    var ceiling, end := Max(s.limit.value, Seats(s)), RaceRun(RaceState(s, [], []), moves).base;
    ReachBounds(s.invitations, s.now);
    RunKeepsCovered(RaceState(s, [], []), moves, ceiling, k, j);
    ReachBounds(end.invitations, end.now);
  }

  // ---- The bound is reached ----------------------------------------------------------------

  const ONE: Draft := Draft("VIEWER", 1, 1)

  function Drafts(n: nat): seq<Draft> { seq(n, _ => ONE) }

  function Counted(n: nat, members: nat): seq<Counting> { seq(n, _ => Counting(ONE, members)) }

  lemma InsertOne(r: RaceState, n: nat)
    requires n > 0 && r.drafts == Drafts(n)
    ensures var r' := RaceNext(r, Insert(0));
            && r'.drafts == Drafts(n - 1) && r'.counting == r.counting && r'.base.members == r.base.members
            && Seats(r'.base) == Seats(r.base) + 1 && (SingleUse(r.base) ==> SingleUse(r'.base))
  {
    var s := r.base;
    SumAppend(s.invitations, Invitation(PENDING, "VIEWER", 1, 0, s.now + 1), Pending(s.now));
    assert Without(r.drafts, 0) == Drafts(n - 1);
  }

  lemma {:induction false} InsertAll(r: RaceState, n: nat, k: nat, j: nat) returns (moves: seq<Move>)
    requires r.drafts == Drafts(n) && r.counting == [] && n <= k
    ensures AtOnce(r, moves, k, j)
    ensures var end := RaceRun(r, moves).base; Seats(end) == Seats(r.base) + n && (SingleUse(r.base) ==> SingleUse(end))
    decreases n
  {
    moves := [];
    if n > 0 {
      InsertOne(r, n);
      var rest := InsertAll(RaceNext(r, Insert(0)), n - 1, k, j);
      moves := [Insert(0)] + rest;
      assert moves[1..] == rest;
    }
  }

  /** All counted creations decide that they fit, and insert. */
  lemma {:induction false} DecideAll(r: RaceState, members: nat, n: nat, d: nat, k: nat, j: nat)
    returns (moves: seq<Move>)
    requires r.counting == Counted(n, members) && r.drafts == Drafts(d) && n + d <= k
    requires |ActiveMembers(r.base.members)| <= members + j && Fits(r.base, members)
    ensures AtOnce(r, moves, k, j)
    ensures var end := RaceRun(r, moves).base;
            Seats(end) == Seats(r.base) + n + d && (SingleUse(r.base) ==> SingleUse(end))
    decreases n
  {
    if n == 0 {
      moves := InsertAll(r, d, k, j);
    } else {
      assert Without(r.counting, 0) == Counted(n - 1, members) && Drafts(d) + [ONE] == Drafts(d + 1);
      var rest := DecideAll(RaceNext(r, Decide(0)), members, n - 1, d + 1, k, j);
      moves := [Decide(0)] + rest;
      assert moves[1..] == rest;
    }
  }

  /** Everyone counts the members; then the serial steps `between`, if any, come before everyone decides. */
  lemma {:induction false} CountAll(s: State, n: nat, k: nat, j: nat, between: seq<Move>) returns (moves: seq<Move>)
    requires n <= k && |between| <= 1 && (|between| == 1 ==> between[0].Serial? && between[0].step.Accept?)
    requires var m, s' := |ActiveMembers(s.members)|, if between == [] then s else Next(s, between[0].step);
             |ActiveMembers(s'.members)| <= m + j && Fits(s', m)
    ensures AtOnce(RaceState(s, Counted(n, |ActiveMembers(s.members)|), []), moves, k, j)
    ensures var r, s' := RaceState(s, Counted(n, |ActiveMembers(s.members)|), []),
                         if between == [] then s else Next(s, between[0].step);
            var end := RaceRun(r, moves).base;
            Seats(end) == Seats(s') + k && (SingleUse(s') ==> SingleUse(end))
    decreases k - n
  {
    var m := |ActiveMembers(s.members)|;
    var r := RaceState(s, Counted(n, m), []);
    if n < k {
      assert Counted(n, m) + [Counting(ONE, m)] == Counted(n + 1, m);
      var rest := CountAll(s, n + 1, k, j, between);
      moves := [CountMembers(ONE)] + rest;
      assert moves[1..] == rest;
    } else if between == [] {
      moves := DecideAll(r, m, k, 0, k, j);
    } else {
      var rest := DecideAll(RaceNext(r, between[0]), m, k, 0, k, j);
      moves := between + rest;
      assert moves[0] == between[0] && moves[1..] == rest;
    }
  }

  /** From one seat short of the limit, k creations all count, all decide and all insert. */
  lemma CreationsRace(s: State, k: nat, j: nat) returns (moves: seq<Move>)
    requires SingleUse(s) && s.limit.Some? && Seats(s) + 1 == s.limit.value
    ensures AtOnce(RaceState(s, [], []), moves, k, j)
    ensures var end := RaceRun(RaceState(s, [], []), moves).base; SingleUse(end) && Seats(end) == s.limit.value + k - 1
  {
    moves := CountAll(s, 0, k, j, []);
    assert Counted(0, |ActiveMembers(s.members)|) == [];
  }

  /** From one seat short of the limit: an uninterrupted creation reaches it; then k creations count the members, its
      invitation is accepted, and all k count the invitations, missing the new member, and insert. */
  lemma AcceptanceIsMissed(s: State, k: nat, j: nat) returns (moves: seq<Move>)
    requires TokensOk(s) && SingleUse(s) && s.limit.Some? && Seats(s) + 1 == s.limit.value && k >= 1 && j >= 1
    ensures AtOnce(RaceState(s, [], []), moves, k, j)
    ensures var end := RaceRun(RaceState(s, [], []), moves).base; SingleUse(end) && Seats(end) == s.limit.value + k
  {
    var create := Create(None, "VIEWER", 1, 1);
    var token, s1 := |s.invitations|, Next(s, create);
    var user := Outsider(ActiveMembers(s.members));
    assert user !in ActiveMembers(s.members);
    NextKeepsTokens(s, create);
    SumAppend(s.invitations, s1.invitations[token], Pending(s.now));
    AcceptanceConservesSeatsIff(s1, user, token);
    var s2 := Next(s1, Accept(user, token));
    ActivateOne(s1.members, user, Member("VIEWER", true));
    var rest := CountAll(s1, 0, k, j, [Serial(Accept(user, token))]);
    assert Counted(0, |ActiveMembers(s1.members)|) == [];
    moves := [Serial(create)] + rest;
    assert moves[1..] == rest;
  }

  /** With at most one member joining between anyone's counts, the bound is reached for every k. */
  lemma SeatRaceBoundIsReached(s: State, k: nat, j: nat) returns (moves: seq<Move>)
    requires TokensOk(s) && SingleUse(s) && s.limit.Some? && Seats(s) + 1 == s.limit.value && k >= 1 && j <= 1
    ensures AtOnce(RaceState(s, [], []), moves, k, j)
    ensures var end := RaceRun(RaceState(s, [], []), moves).base;
            SingleUse(end) && Seats(end) == s.limit.value + k - 1 + j
  {
    if j == 0 {
      moves := CreationsRace(s, k, j);
    } else {
      moves := AcceptanceIsMissed(s, k, j);
    }
  }

  /** No interleaving with at most k creations at once and at most j members joining between anyone's counts, all
      invitations being single-use, ends past the limit. */
  ghost predicate StaysWithinLimit(s: State, k: nat, j: nat) {
    forall moves :: AtOnce(RaceState(s, [], []), moves, k, j) ==> WithinLimit(RaceRun(RaceState(s, [], []), moves).base)
  }

  ghost predicate WithinLimit(end: State) { SingleUse(end) && end.limit.Some? ==> Seats(end) <= end.limit.value }

  /** With room for exactly one more seat: single-use invitations keep within the limit in every interleaving if and
      only if they are created one at a time and nobody joins between a creation's two counts. */
  lemma WithinLimitIff(s: State, k: nat, j: nat)
    requires TokensOk(s) && SingleUse(s) && s.limit.Some? && Seats(s) + 1 == s.limit.value && k >= 1
    ensures StaysWithinLimit(s, k, j) <==> k == 1 && j == 0
  {
    if k == 1 && j == 0 {
      forall moves | AtOnce(RaceState(s, [], []), moves, k, j)
        ensures WithinLimit(RaceRun(RaceState(s, [], []), moves).base)
      {
        OneByOneStaysWithin(s, moves);
      }
    } else {
      var moves;
      if j == 0 {
        moves := CreationsRace(s, k, j);
      } else {
        moves := AcceptanceIsMissed(s, k, j);
      }
      LimitIsFixed(RaceState(s, [], []), moves);
      assert !WithinLimit(RaceRun(RaceState(s, [], []), moves).base);
    }
  }

  lemma OneByOneStaysWithin(s: State, moves: seq<Move>)
    requires TokensOk(s) && s.limit.Some? && Seats(s) <= s.limit.value && AtOnce(RaceState(s, [], []), moves, 1, 0)
    ensures WithinLimit(RaceRun(RaceState(s, [], []), moves).base)
  {
    var end := RaceRun(RaceState(s, [], []), moves).base;
    SeatRaceBound(s, moves, 1, 0);
    LimitIsFixed(RaceState(s, [], []), moves);
    if SingleUse(end) {
      SingleUseHasNoExtra(end);
    }
  }

  lemma {:induction false} LimitIsFixed(r: RaceState, moves: seq<Move>)
    ensures RaceRun(r, moves).base.limit == r.base.limit
    decreases |moves|
  {
    if moves != [] {
      LimitIsFixed(RaceNext(r, moves[0]), moves[1..]);
    }
  }
}
