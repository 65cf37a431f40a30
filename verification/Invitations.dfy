/** Seat-limited team invitations: seats are active members plus live pending invitations. */
module Invitations {
  import opened Prelude

  datatype Status = PENDING | ACCEPTED | EXPIRED | REVOKED

  datatype Invitation = Invitation(status: Status, role: string, maxUses: int, uses: nat, expiresAt: nat)

  datatype Member = Member(role: string, active: bool)

  /** A token is its invitation's position; a creation's `invitee` is the account the invited phone belongs to, if any;
      `admitted` logs which token admitted whom. `limit` is the plan's seat allowance, None for unlimited. */
  datatype State = State(limit: Option<nat>, members: map<string, Member>, invitations: seq<Invitation>, now: nat,
                         admitted: seq<(nat, string)>)

  datatype Step =
    | Create(invitee: Option<string>, role: string, maxUses: int, ttl: nat)
    | Accept(user: string, token: nat)
    | Revoke(i: nat)
    | Remove(user: string)
    | Wait(time: nat)

  predicate LivePending(inv: Invitation, now: nat) { inv.status == PENDING && inv.expiresAt > now }

  function ActiveMembers(members: map<string, Member>): set<string> { set u | u in members && members[u].active }

  ghost function Pending(now: nat): Invitation -> int { (inv: Invitation) => if LivePending(inv, now) then 1 else 0 }

  /** `countSeats`. */
  ghost function Seats(s: State): int { |ActiveMembers(s.members)| + SumOf(s.invitations, Pending(s.now)) }

  datatype Answer = Joined | AlreadyMember | Refused

  function AcceptAnswer(s: State, user: string, token: nat): Answer {
    if token >= |s.invitations| then Refused else
    var inv := s.invitations[token];
    if inv.status == REVOKED || inv.status == EXPIRED || inv.expiresAt <= s.now then Refused
    else if user in ActiveMembers(s.members) then AlreadyMember
    else if inv.uses >= inv.maxUses then Refused
    else Joined
  }

  datatype Creation = Created | InviteeIsMember | LimitReached

  ghost function CreateAnswer(s: State, invitee: Option<string>): Creation {
    if invitee.Some? && invitee.value in ActiveMembers(s.members) then InviteeIsMember
    else if s.limit.Some? && Seats(s) + 1 > s.limit.value then LimitReached
    else Created
  }

  ghost function Next(s: State, step: Step): State {
    match step
    case Create(invitee, role, maxUses, ttl) =>
      if CreateAnswer(s, invitee) != Created then s
      else s.(invitations := s.invitations + [Invitation(PENDING, role, maxUses, 0, s.now + ttl)])
    case Accept(user, token) =>
      if token >= |s.invitations| then s else
      var inv := s.invitations[token];
      if inv.status != REVOKED && inv.expiresAt <= s.now then
        s.(invitations := s.invitations[token := inv.(status := EXPIRED)])
      else if AcceptAnswer(s, user, token) != Joined then s
      else
        var used := inv.(uses := inv.uses + 1, status := if inv.uses + 1 >= inv.maxUses then ACCEPTED else PENDING);
        s.(members := s.members[user := Member(inv.role, true)], invitations := s.invitations[token := used],
           admitted := s.admitted + [(token, user)])
    case Revoke(i) =>
      if i >= |s.invitations| then s
      else s.(invitations := s.invitations[i := s.invitations[i].(status := REVOKED)])
    case Remove(user) =>
      if user in s.members then s.(members := s.members[user := s.members[user].(active := false)]) else s
    case Wait(time) => s.(now := s.now + time)
  }

  ghost function Run(s: State, steps: seq<Step>): State
    decreases |steps|
  {
    if steps == [] then s else Run(Next(s, steps[0]), steps[1..])
  }

  // ---- Invariants ------------------------------------------------------------------------

  ghost function By(token: nat): ((nat, string)) -> int { (a: (nat, string)) => if a.0 == token then 1 else 0 }

  /** An ACCEPTED invitation is used up, and a token's uses are the members it admitted, never more than allowed. */
  ghost predicate TokenOk(s: State, i: nat)
    requires i < |s.invitations|
  {
    var inv := s.invitations[i];
    && (inv.status == ACCEPTED ==> inv.uses >= inv.maxUses)
    && inv.uses == SumOf(s.admitted, By(i)) && inv.uses <= Max(0, inv.maxUses)
  }

  ghost predicate TokensOk(s: State) {
    && (forall i :: 0 <= i < |s.invitations| ==> TokenOk(s, i))
    && (forall i: nat :: |s.invitations| <= i ==> SumOf(s.admitted, By(i)) == 0)
  }

  lemma AdmitKeepsTokens(s: State, user: string, token: nat)
    requires TokensOk(s)
    ensures TokensOk(Next(s, Accept(user, token)))
  {
    var s' := Next(s, Accept(user, token));
    if token < |s.invitations| {
      assert TokenOk(s, token);
      forall i: nat
        ensures SumOf(s'.admitted, By(i))
                == SumOf(s.admitted, By(i)) + if s'.admitted != s.admitted && i == token then 1 else 0
        ensures i < |s.invitations| ==> TokenOk(s', i)
      {
        assert i < |s.invitations| ==> TokenOk(s, i);
        SumAppend(s.admitted, (token, user), By(i));
      }
    }
  }

  lemma NextKeepsTokens(s: State, step: Step)
    requires TokensOk(s)
    ensures TokensOk(Next(s, step))
  {
    if step.Accept? {
      AdmitKeepsTokens(s, step.user, step.token);
    } else {
      var s' := Next(s, step);
      assert s'.admitted == s.admitted;
      forall i | 0 <= i < |s'.invitations|
        ensures TokenOk(s', i)
      {
        assert i < |s.invitations| ==> TokenOk(s, i);
      }
    }
  }

  lemma {:induction false} RunKeepsTokens(s: State, steps: seq<Step>)
    requires TokensOk(s)
    ensures TokensOk(Run(s, steps))
    decreases |steps|
  {
    if steps != [] {
      NextKeepsTokens(s, steps[0]);
      RunKeepsTokens(Next(s, steps[0]), steps[1..]);
    }
  }

  /** In every serial run, each acceptance running without interruption, a token with m uses never admits more than m
      members. */
  lemma TokenAdmitsAtMostItsUses(s: State, steps: seq<Step>, token: nat)
    requires TokensOk(s) && token < |Run(s, steps).invitations|
    ensures var end := Run(s, steps);
            SumOf(end.admitted, By(token)) <= Max(0, end.invitations[token].maxUses)
  {
    RunKeepsTokens(s, steps);
    assert TokenOk(Run(s, steps), token);
  }

  // ---- The seat bound --------------------------------------------------------------------------

  /** Seats an invitation may still turn into: its own, or one for each use left. */
  ghost function Reach(now: nat): Invitation -> int {
    (inv: Invitation) => if LivePending(inv, now) then Max(1, inv.maxUses - inv.uses) else 0
  }

  /** Uses an invitation has beyond the one seat it was charged for. */
  ghost function Extra(): Invitation -> int { (inv: Invitation) => Max(0, inv.maxUses - 1) }

  ghost predicate Bounded(s: State, ceiling: int) {
    |ActiveMembers(s.members)| + SumOf(s.invitations, Reach(s.now)) <= ceiling + SumOf(s.invitations, Extra())
  }

  lemma {:induction false} ReachBounds(invitations: seq<Invitation>, now: nat)
    ensures SumOf(invitations, Pending(now)) <= SumOf(invitations, Reach(now))
            <= SumOf(invitations, Pending(now)) + SumOf(invitations, Extra())
  {
    if invitations != [] {
      ReachBounds(invitations[..|invitations| - 1], now);
    }
  }

  lemma {:induction false} ReachShrinks(invitations: seq<Invitation>, now: nat, later: nat)
    requires now <= later
    ensures SumOf(invitations, Reach(later)) <= SumOf(invitations, Reach(now))
  {
    if invitations != [] {
      ReachShrinks(invitations[..|invitations| - 1], now, later);
    }
  }

  lemma ActivateOne(members: map<string, Member>, user: string, m: Member)
    ensures m.active && user !in ActiveMembers(members) ==>
              |ActiveMembers(members[user := m])| == |ActiveMembers(members)| + 1
    ensures !m.active ==> |ActiveMembers(members[user := m])| <= |ActiveMembers(members)|
  {
    if m.active {
      assert ActiveMembers(members[user := m]) == ActiveMembers(members) + {user};
    } else {
      var rest := ActiveMembers(members) - {user};
      assert ActiveMembers(members[user := m]) == rest;
      if user in ActiveMembers(members) {
        assert ActiveMembers(members) == rest + {user};
      } else {
        assert ActiveMembers(members) == rest;
      }
    }
  }

  /** Replacing an invitation by one of the same allowance. */
  lemma ReplaceInvitation(s: State, i: nat, inv: Invitation)
    requires i < |s.invitations| && inv.maxUses == s.invitations[i].maxUses
    ensures SumOf(s.invitations[i := inv], Reach(s.now))
            == SumOf(s.invitations, Reach(s.now)) - Reach(s.now)(s.invitations[i]) + Reach(s.now)(inv)
    ensures SumOf(s.invitations[i := inv], Extra()) == SumOf(s.invitations, Extra())
  {
    SumUpdate(s.invitations, i, inv, Reach(s.now));
    SumUpdate(s.invitations, i, inv, Extra());
  }

  lemma AcceptKeepsBounded(s: State, user: string, token: nat, ceiling: int)
    requires TokensOk(s) && Bounded(s, ceiling)
    ensures Bounded(Next(s, Accept(user, token)), ceiling)
  {
    var s' := Next(s, Accept(user, token));
    if s' != s {
      assert TokenOk(s, token);
      ReplaceInvitation(s, token, s'.invitations[token]);
      ActivateOne(s.members, user, Member(s.invitations[token].role, true));
    }
  }

  lemma CreateKeepsBounded(s: State, invitee: Option<string>, role: string, maxUses: int, ttl: nat, ceiling: int)
    requires Bounded(s, ceiling) && s.limit.Some? && s.limit.value <= ceiling
    ensures Bounded(Next(s, Create(invitee, role, maxUses, ttl)), ceiling)
  {
    var inv := Invitation(PENDING, role, maxUses, 0, s.now + ttl);
    ReachBounds(s.invitations, s.now);
    SumAppend(s.invitations, inv, Reach(s.now));
    SumAppend(s.invitations, inv, Extra());
  }

  lemma NextKeepsBounded(s: State, step: Step, ceiling: int)
    requires TokensOk(s) && Bounded(s, ceiling) && (step.Create? ==> s.limit.Some? && s.limit.value <= ceiling)
    ensures Bounded(Next(s, step), ceiling)
  {
    match step
    case Create(invitee, role, maxUses, ttl) => CreateKeepsBounded(s, invitee, role, maxUses, ttl, ceiling);
    case Accept(user, token) => AcceptKeepsBounded(s, user, token, ceiling);
    case Revoke(i) =>
      if i < |s.invitations| {
        ReplaceInvitation(s, i, s.invitations[i].(status := REVOKED));
      }
    case Remove(user) =>
      if user in s.members {
        ActivateOne(s.members, user, s.members[user].(active := false));
      }
    case Wait(time) => ReachShrinks(s.invitations, s.now, s.now + time);
  }

  lemma {:induction false} RunKeepsBounded(s: State, steps: seq<Step>, ceiling: int)
    requires TokensOk(s) && Bounded(s, ceiling) && s.limit.Some? && s.limit.value <= ceiling
    ensures Bounded(Run(s, steps), ceiling)
    decreases |steps|
  {
    if steps != [] {
      NextKeepsBounded(s, steps[0], ceiling);
      NextKeepsTokens(s, steps[0]);
      RunKeepsBounded(Next(s, steps[0]), steps[1..], ceiling);
    }
  }

  /** In every serial run under a fixed limit, seats never exceed the limit (or the starting count, if higher) by
      more than the invitations' uses beyond their first. */
  lemma SeatBound(s: State, steps: seq<Step>)
    requires TokensOk(s) && s.limit.Some?
    ensures Seats(Run(s, steps)) <= Max(s.limit.value, Seats(s)) + SumOf(Run(s, steps).invitations, Extra())
  {
    var ceiling, end := Max(s.limit.value, Seats(s)), Run(s, steps);
    ReachBounds(s.invitations, s.now);
    RunKeepsBounded(s, steps, ceiling);
    ReachBounds(end.invitations, end.now);
  }

  predicate SingleUse(s: State) { forall i :: 0 <= i < |s.invitations| ==> s.invitations[i].maxUses <= 1 }

  lemma SingleUseHasNoExtra(s: State)
    requires SingleUse(s)
    ensures SumOf(s.invitations, Extra()) == 0
  {
    SumPointwise(s.invitations, Extra(), s.invitations, _ => 0);
    SumBounds(s.invitations, _ => 0, 0, 0);
  }

  /** In every serial run with single-use invitations only, seats never exceed the limit, or the starting count if
      higher. */
  lemma SingleUseSeatBound(s: State, steps: seq<Step>)
    requires TokensOk(s) && s.limit.Some? && SingleUse(Run(s, steps))
    ensures Seats(Run(s, steps)) <= Max(s.limit.value, Seats(s))
  {
    SingleUseHasNoExtra(Run(s, steps));
    SeatBound(s, steps);
  }

  /** Acceptance by a new member conserves the seat count if and only if it is the token's last use; otherwise it
      takes one more. */
  lemma AcceptanceConservesSeatsIff(s: State, user: string, token: nat)
    requires TokensOk(s) && AcceptAnswer(s, user, token) == Joined
    ensures var inv := s.invitations[token];
            Seats(Next(s, Accept(user, token))) == Seats(s) + if inv.uses + 1 >= inv.maxUses then 0 else 1
  {
    assert TokenOk(s, token);
    var s' := Next(s, Accept(user, token));
    SumUpdate(s.invitations, token, s'.invitations[token], Pending(s.now));
    ActivateOne(s.members, user, Member(s.invitations[token].role, true));
  }

  lemma RunThree(s: State, a: Step, b: Step, c: Step)
    ensures Run(s, [a, b, c]) == Next(Next(Next(s, a), b), c)
  {
    assert [a, b, c][1..] == [b, c] && [b, c][1..] == [c] && [c][1..] == [];
    assert Run(s, [a, b, c]) == Run(Next(s, a), [b, c]);
    assert Run(Next(s, a), [b, c]) == Run(Next(Next(s, a), b), [c]);
  }

  /** Two outsiders use up a two-use invitation: one seat more than it was charged for. */
  lemma BothJoin(s: State, token: nat, a: string, b: string)
    requires TokensOk(s) && token < |s.invitations| && s.invitations[token].expiresAt > s.now
    requires s.invitations[token].status == PENDING
    requires s.invitations[token].uses == 0 && s.invitations[token].maxUses == 2
    requires a != b && a !in ActiveMembers(s.members) && b !in ActiveMembers(s.members)
    ensures Seats(Next(Next(s, Accept(a, token)), Accept(b, token))) == Seats(s) + 1
  {
    AcceptanceConservesSeatsIff(s, a, token);
    NextKeepsTokens(s, Accept(a, token));
    AcceptanceConservesSeatsIff(Next(s, Accept(a, token)), b, token);
  }

  /** One seat short of the limit, a single two-use invitation accepted twice takes the event past it. */
  lemma TwoUseInvitationPassesLimit(s: State, role: string, ttl: nat, a: string, b: string)
    requires TokensOk(s) && s.limit.Some? && Seats(s) + 1 == s.limit.value && ttl > 0
    requires a != b && a !in ActiveMembers(s.members) && b !in ActiveMembers(s.members)
    ensures var token := |s.invitations|;
            Seats(Run(s, [Create(None, role, 2, ttl), Accept(a, token), Accept(b, token)])) == s.limit.value + 1
  {
    var token, create := |s.invitations|, Create(None, role, 2, ttl);
    NextKeepsTokens(s, create);
    SumAppend(s.invitations, Invitation(PENDING, role, 2, 0, s.now + ttl), Pending(s.now));
    BothJoin(Next(s, create), token, a, b);
    RunThree(s, create, Accept(a, token), Accept(b, token));
  }

  lemma {:induction false} Outsider(members: set<string>) returns (user: string)
    ensures forall u :: u in members ==> |u| < |user|
    decreases |members|
  {
    user := "u";
    if members != {} {
      var u :| u in members;
      var v := Outsider(members - {u});
      user := if |u| < |v| then v else u + "u";
      assert forall x :: x in members ==> x == u || x in members - {u};
    }
  }

  // ---- What a seat is ------------------------------------------------------------------------

  ghost function SeatedMembers(members: map<string, Member>): set<string> { set u | u in members && members[u].active }

  ghost function OpenTokens(invitations: seq<Invitation>, now: nat): set<int> {
    set i | 0 <= i < |invitations| && invitations[i].status == PENDING && now < invitations[i].expiresAt
  }

  lemma {:induction false} PendingAreOpen(invitations: seq<Invitation>, now: nat)
    ensures SumOf(invitations, Pending(now)) == |OpenTokens(invitations, now)|
  {
    if invitations != [] {
      var n := |invitations| - 1;
      PendingAreOpen(invitations[..n], now);
      if invitations[n].status == PENDING && now < invitations[n].expiresAt {
        assert OpenTokens(invitations, now) == OpenTokens(invitations[..n], now) + {n};
      } else {
        assert OpenTokens(invitations, now) == OpenTokens(invitations[..n], now);
      }
    }
  }

  /** A seat is an active member, or an invitation that is PENDING and not expired. */
  lemma SeatsAre(s: State)
    ensures Seats(s) == |SeatedMembers(s.members)| + |OpenTokens(s.invitations, s.now)|
  {
    PendingAreOpen(s.invitations, s.now);
    assert ActiveMembers(s.members) == SeatedMembers(s.members);
  }

  /** The token is of an invitation that is neither revoked nor expired. */
  predicate Usable(invitations: seq<Invitation>, token: nat, now: nat) {
    token < |invitations| && invitations[token].status in {PENDING, ACCEPTED} && now < invitations[token].expiresAt
  }

  predicate MemberAlready(members: map<string, Member>, user: string) { user in members && members[user].active }

  // ---- The service ------------------------------------------------------------------------------

  class InvitationService {
    const limit: Option<nat>
    var members: map<string, Member>
    var invitations: seq<Invitation>
    ghost var admitted: seq<(nat, string)>

    constructor (limit: Option<nat>, owner: string)
      ensures this.limit == limit && View(0) == State(limit, map[owner := Member("OWNER", true)], [], 0, [])
    {
      this.limit, members, invitations, admitted := limit, map[owner := Member("OWNER", true)], [], [];
    }

    ghost function View(now: nat): State
      reads this
    {
      State(limit, members, invitations, now, admitted)
    }

    method CountSeats(now: nat) returns (seats: int)
      ensures seats == Seats(View(now)) == |SeatedMembers(members)| + |OpenTokens(invitations, now)|
    {
      SeatsAre(View(now));
      seats := |ActiveMembers(members)|;
      for i := 0 to |invitations|
        invariant seats == |ActiveMembers(members)| + SumOf(invitations[..i], Pending(now))
      {
        SumAppend(invitations[..i], invitations[i], Pending(now));
        assert invitations[..i + 1] == invitations[..i] + [invitations[i]];
        if LivePending(invitations[i], now) {
          seats := seats + 1;
        }
      }
      assert invitations[..|invitations|] == invitations;
    }

    method CreateInvitation(invitee: Option<string>, role: string, maxUses: int, ttl: nat, now: nat)
      returns (answer: Creation)
      modifies this
      ensures View(now) == Next(old(View(now)), Create(invitee, role, maxUses, ttl))
      ensures members == old(members) && admitted == old(admitted)
      ensures answer == InviteeIsMember <==> invitee.Some? && MemberAlready(members, invitee.value)
      ensures var seats := |SeatedMembers(members)| + |OpenTokens(old(invitations), now)|;
              answer == LimitReached <==>
                answer != InviteeIsMember && limit.Some? && limit.value < seats + 1
      ensures invitations == old(invitations)
                + if answer == Created then [Invitation(PENDING, role, maxUses, 0, now + ttl)] else []
    {
      if invitee.Some? && invitee.value in members && members[invitee.value].active {
        return InviteeIsMember;
      }
      if limit.Some? {
        var used := CountSeats(now);
        if used + 1 > limit.value {
          return LimitReached;
        }
      }
      invitations := invitations + [Invitation(PENDING, role, maxUses, 0, now + ttl)];
      return Created;
    }

    method AcceptInvitation(user: string, token: nat, now: nat) returns (answer: Answer)
      modifies this
      ensures View(now) == Next(old(View(now)), Accept(user, token))
      ensures answer == AcceptAnswer(old(View(now)), user, token)
      ensures answer == AlreadyMember <==> Usable(old(invitations), token, now) && MemberAlready(old(members), user)
      ensures answer == Joined <==>
                && Usable(old(invitations), token, now) && !MemberAlready(old(members), user)
                && old(invitations)[token].uses < old(invitations)[token].maxUses
      ensures answer == Joined ==>
                var inv := old(invitations)[token];
                var last := inv.uses + 1 == inv.maxUses;
                && members == old(members)[user := Member(inv.role, true)]
                && admitted == old(admitted) + [(token, user)]
                && invitations == old(invitations)[token := Invitation(if last then ACCEPTED else PENDING, inv.role,
                                                                       inv.maxUses, inv.uses + 1, inv.expiresAt)]
      ensures answer != Joined ==> members == old(members) && admitted == old(admitted)
      ensures answer != Joined ==>
                if token < |old(invitations)| && old(invitations)[token].status != REVOKED
                   && old(invitations)[token].expiresAt <= now
                then invitations == old(invitations)[token := old(invitations)[token].(status := EXPIRED)]
                else invitations == old(invitations)
    {
      if token >= |invitations| || invitations[token].status == REVOKED {
        return Refused;
      }
      var inv := invitations[token];
      if inv.status == EXPIRED || inv.expiresAt <= now {
        if inv.status != EXPIRED {
          invitations := invitations[token := inv.(status := EXPIRED)];
        }
        assert invitations == if inv.expiresAt <= now then old(invitations)[token := inv.(status := EXPIRED)]
                               else old(invitations);
        return Refused;
      }
      if user in members && members[user].active {
        return AlreadyMember;
      }
      if inv.uses >= inv.maxUses {
        return Refused;
      }
      members := members[user := Member(inv.role, true)];
      var uses := inv.uses + 1;
      invitations := invitations[token :=
        inv.(uses := uses, status := if uses >= inv.maxUses then ACCEPTED else PENDING)];
      admitted := admitted + [(token, user)];
      return Joined;
    }

    method RevokeInvitation(i: nat) returns (found: bool)
      modifies this
      ensures forall now :: View(now) == Next(old(View(now)), Revoke(i))
      ensures found <==> i < |old(invitations)|
      ensures members == old(members) && admitted == old(admitted)
      ensures invitations == if found then old(invitations)[i := old(invitations)[i].(status := REVOKED)]
                             else old(invitations)
    {
      if i >= |invitations| {
        return false;
      }
      invitations := invitations[i := invitations[i].(status := REVOKED)];
      return true;
    }
  }
}
