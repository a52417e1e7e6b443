/** The invitation services as they run: locked rows updated step by step, a late refusal rolling back. */
module InviteDesks {
  import opened Options
  import opened Invitations
  import opened Redemptions

  class InviteDesk {
    var invites: seq<Invite>
    var members: seq<Membership>
    var contacts: seq<Contact>
    var users: seq<User>
    var verified: set<(nat, string)>
    var nextToken: nat

    function Tables(): State
      reads this
    {
      State(invites, members, contacts, users, verified, nextToken)
    }

    ghost predicate Valid()
      reads this
    {
      StateOk(Tables())
    }

    constructor ()
      ensures Valid() && Tables() == EMPTY
    {
      invites, members, contacts, users, verified, nextToken := [], [], [], [], {}, 0;
    }

    /** The unlocked look-up of a presented link; a usable one hands its row to the caller. */
    method ResolveInvite(token: nat, now: int) returns (answer: Answer, snapshot: Option<Invite>)
      requires Valid()
      ensures answer == Resolve(Tables(), token, now)
      ensures answer == Done <==> snapshot.Some?
      ensures snapshot.Some? ==> snapshot.value in invites && snapshot.value.token == token
      ensures answer == NotFound <==> token >= nextToken
    {
      if token < nextToken {
        MintedLinkIsKnown(Tables(), token, now);
      } else {
        UnmintedLinkIsUnknown(Tables(), token, now);
      }
      var i := 0;
      snapshot := None;
      while i < |invites|
        invariant 0 <= i <= |invites|
        invariant forall k :: 0 <= k < i ==> invites[k].token != token
      {
        if invites[i].token == token {
          ghost var at := FindToken(invites, token);
          assert StandsAt(invites, token, i) && StandsAt(invites, token, at.value);
          answer := Redeemable(invites[i], now);
          if answer == Done {
            snapshot := Some(invites[i]);
          }
          return;
        }
        i := i + 1;
      }
      answer := if IsSuperseded(invites, token) then TokenSuperseded else NotFound;
    }

    /** Store a new invitation with a fresh token; a contact's is offered only while the contact stands. */
    method IssueInvite(
        permitted: bool, tenant: nat, client: Option<nat>, contact: Option<nat>, email: string, role: Role,
        expiresAt: int)
      returns (answer: Answer)
      requires Valid()
      modifies `invites, `nextToken
      ensures Valid()
      ensures answer == Answers(old(Tables()), Issue(permitted, tenant, client, contact, email, role, expiresAt))
      ensures Tables() == Step(old(Tables()), Issue(permitted, tenant, client, contact, email, role, expiresAt))
      ensures answer == Done <==>
                && permitted && (client != None <==> role == ClientOwner || role == ClientCollaborator)
                && (contact.Some? ==>
                      && contact.value < |contacts|
                      && var origin := contacts[contact.value];
                         Some(origin.client) == client && origin.email == email && origin.active && origin.emailAllowed)
      ensures answer == Done ==>
                && nextToken == old(nextToken) + 1
                && invites == old(invites)
                     + [Invite(tenant, client, contact, email, role, old(nextToken), [], expiresAt, None, None)]
    {
      StepKeepsState(Tables(), Issue(permitted, tenant, client, contact, email, role, expiresAt));
      if !permitted {
        return NotPermitted;
      }
      if contact.Some? {
        if contact.value >= |contacts| {
          return NotFound;
        }
        var origin := contacts[contact.value];
        if Some(origin.client) != client || origin.email != email || !origin.active || !origin.emailAllowed {
          return NotFound;
        }
      }
      if !(role.ClientSide() <==> client.Some?) || (contact.Some? && client.None?) {
        return Invalid;
      }
      invites := invites + [Invite(tenant, client, contact, email, role, nextToken, [], expiresAt, None, None)];
      nextToken := nextToken + 1;
      return Done;
    }

    /** Re-mint the token for one send: the old digest moves to the superseded ones. */
    method MintTokenForDispatch(id: nat, now: int) returns (answer: Answer)
      requires Valid()
      modifies `invites, `nextToken
      ensures Valid() && answer == Answers(old(Tables()), Mint(id, now))
      ensures Tables() == Step(old(Tables()), Mint(id, now))
      ensures answer == Done <==> id < |invites| && StillOpen(old(invites)[id], now)
      ensures answer == Done ==>
                var before := old(invites)[id];
                && nextToken == old(nextToken) + 1
                && invites == old(invites)[id := before.(token := old(nextToken),
                                                         superseded := before.superseded + [before.token])]
    {
      StepKeepsState(Tables(), Mint(id, now));
      if id >= |invites| {
        return NotFound;
      }
      var locked := invites[id];
      answer := Redeemable(locked, now);
      if answer != Done {
        return;
      }
      locked := locked.(superseded := locked.superseded + [locked.token]);
      locked := locked.(token := nextToken);
      nextToken := nextToken + 1;
      invites := invites[id := locked];
    }

    /** Stand an outstanding invitation down, once. */
    method RevokeInvite(id: nat, permitted: bool, now: int) returns (answer: Answer)
      requires Valid()
      modifies `invites
      ensures Valid() && answer == Answers(old(Tables()), Revoke(id, permitted, now))
      ensures Tables() == Step(old(Tables()), Revoke(id, permitted, now))
      ensures answer == Done <==>
                permitted && id < |invites| && old(invites)[id].acceptedAt == None && old(invites)[id].revokedAt == None
      ensures answer == Done ==> invites == old(invites)[id := old(invites)[id].(revokedAt := Some(now))]
    {
      StepKeepsState(Tables(), Revoke(id, permitted, now));
      if id >= |invites| {
        return NotFound;
      }
      if !permitted {
        return NotPermitted;
      }
      if invites[id].acceptedAt.Some? || invites[id].revokedAt.Some? {
        return NotRevocable;
      }
      invites := invites[id := invites[id].(revokedAt := Some(now))];
      return Done;
    }

    /** Withdraw an invitation nobody received; an ended one is left as it is. */
    method WithdrawUndeliveredInvite(id: nat, now: int) returns (answer: Answer)
      requires Valid()
      modifies `invites
      ensures Valid() && answer == Answers(old(Tables()), Withdraw(id, now))
      ensures Tables() == Step(old(Tables()), Withdraw(id, now))
      ensures id < |invites| ==> invites[id].acceptedAt.Some? || invites[id].revokedAt.Some?
      ensures answer == Done <==>
                id < |invites| && old(invites)[id].acceptedAt == None && old(invites)[id].revokedAt == None
      ensures answer == Done ==> invites == old(invites)[id := old(invites)[id].(revokedAt := Some(now))]
    {
      StepKeepsState(Tables(), Withdraw(id, now));
      if id >= |invites| {
        return NotFound;
      }
      if invites[id].acceptedAt.Some? || invites[id].revokedAt.Some? {
        return NotRevocable;
      }
      invites := invites[id := invites[id].(revokedAt := Some(now))];
      return Done;
    }

    /** `update_or_create` on the key: both branches apply the invited role and activity. */
    method TakeSeat(invite: Invite, user: nat) returns (seat: nat)
      modifies `members
      ensures members == Seated(old(members), invite, user) && seat == SeatOf(old(members), invite, user)
    {
      var existing := FindSeat(members, SeatKey(invite, user));
      if existing.Some? {
        seat := existing.value;
        members := members[seat := members[seat].(role := invite.role)];
        members := members[seat := members[seat].(active := true)];
      } else {
        seat := |members|;
        members := members + [Membership(user, invite.tenant, invite.client, invite.role, true)];
      }
    }

    /** The client seat, refused unless the originating contact still stands; an unbound contact is bound to it. */
    method ClientSeat(invite: Invite, user: nat) returns (ok: bool)
      requires invite.client.Some?
      modifies `members, `contacts
      ensures ok == ContactStands(old(Tables()), invite, FindSeat(old(members), SeatKey(invite, user)))
      ensures SeatsUnique(old(members)) ==> (ok <==> ContactInOrder(old(Tables()), invite, user))
      ensures ok ==> members == Seated(old(members), invite, user)
      ensures ok ==> contacts == Bound(old(contacts), invite, SeatOf(old(members), invite, user))
      ensures !ok ==> unchanged(this)
    {
      if SeatsUnique(members) {
        ContactStandsExactly(Tables(), invite, user);
      }
      var existing := FindSeat(members, SeatKey(invite, user));
      if invite.contact.Some? {
        var at := invite.contact.value;
        if at >= |contacts| {
          return false;
        }
        var contact := contacts[at];
        if Some(contact.client) != invite.client || contact.email != invite.email
           || !contact.active || !contact.emailAllowed
        {
          return false;
        }
        if contact.seat.Some? && contact.seat != existing {
          return false;
        }
      }
      var seat := TakeSeat(invite, user);
      if invite.contact.Some? {
        var contact := contacts[invite.contact.value];
        if contact.seat.None? {
          contacts := contacts[invite.contact.value := contact.(seat := Some(seat), version := contact.version + 1)];
        }
      }
      return true;
    }

    /** Redeem at the expected door for an account that has proved the invited mailbox. */
    method AcceptInvite(id: nat, presented: Invite, user: nat, door: Door, now: int, later: int)
      returns (answer: Answer)
      requires forall i :: 0 <= i < |invites| && invites[i].contact.Some? ==> invites[i].client.Some?
      modifies `invites, `members, `contacts
      ensures answer == AcceptAnswer(old(Tables()), id, presented, user, door, now, later)
      ensures answer == Done ==> id < |old(invites)| && Tables() == Accepted(old(Tables()), id, user, later)
      ensures answer != Done ==> unchanged(this)
      ensures SeatsUnique(old(members)) ==>
                (answer == Done <==> MayAccept(old(Tables()), id, presented, user, door, now, later))
    {
      if SeatsUnique(members) {
        AcceptAnsweredExactly(Tables(), id, presented, user, door, now, later);
      }
      if user >= |users| || id >= |invites| {
        return NotFound;
      }
      var locked := invites[id];
      if (locked.tenant, locked.client, locked.contact) != (presented.tenant, presented.client, presented.contact) {
        return NotFound;
      }
      answer := Redeemable(locked, now);
      if answer != Done {
        return;
      }
      if door != locked.Side() {
        return ScopeMismatch;
      }
      if presented.token != locked.token {
        return TokenSuperseded;
      }
      if locked.client.Some? && !users[user].active {
        return NotFound;
      }
      if (user, locked.email) !in verified {
        return EmailMismatch;
      }
      var savedMembers, savedContacts := members, contacts;
      if locked.client.None? {
        var seat := TakeSeat(locked, user);
      } else {
        var seated := ClientSeat(locked, user);
        if !seated {
          return NotFound;
        }
      }
      answer := Redeemable(locked, later);
      if answer != Done {
        members, contacts := savedMembers, savedContacts;
        return;
      }
      invites := invites[id := locked.(acceptedAt := Some(later))];
    }

    /** Acceptance by a signed-in account, as one step of the protocol. */
    method Redeem(id: nat, presented: Invite, user: nat, door: Door, now: int, later: int) returns (answer: Answer)
      requires Valid()
      modifies `invites, `members, `contacts
      ensures Valid() && answer == Answers(old(Tables()), Accept(id, presented, user, door, now, later))
      ensures Tables() == Step(old(Tables()), Accept(id, presented, user, door, now, later))
      ensures answer == Done <==> MayAccept(old(Tables()), id, presented, user, door, now, later)
    {
      AcceptedExactly(Tables(), Accept(id, presented, user, door, now, later));
      StepKeepsState(Tables(), Accept(id, presented, user, door, now, later));
      answer := AcceptInvite(id, presented, user, door, now, later);
    }

    /** Create the account and redeem in one transaction: a refusal leaves no account behind. */
    method RegisterAndAccept(id: nat, presented: Invite, door: Door, now: int, later: int) returns (answer: Answer)
      requires Valid()
      modifies this
      ensures Valid() && answer == Answers(old(Tables()), Register(id, presented, door, now, later))
      ensures Tables() == Step(old(Tables()), Register(id, presented, door, now, later))
      ensures answer == Done <==> MayRegister(old(Tables()), id, presented, door, now, later)
    {
      RegisteredExactly(Tables(), Register(id, presented, door, now, later));
      StepKeepsState(Tables(), Register(id, presented, door, now, later));
      if id >= |invites| {
        return NotFound;
      }
      var locked := invites[id];
      if (locked.tenant, locked.client, locked.contact) != (presented.tenant, presented.client, presented.contact) {
        return NotFound;
      }
      answer := Redeemable(locked, now);
      if answer != Done {
        return;
      }
      if door != locked.Side() {
        return ScopeMismatch;
      }
      if presented.token != locked.token {
        return TokenSuperseded;
      }
      if AddressTaken(Tables(), locked.email) {
        return AccountExists;
      }
      var savedUsers, savedVerified := users, verified;
      var user := |users|;
      users := users + [User(locked.email, true)];
      verified := verified + {(user, locked.email)};
      answer := AcceptInvite(id, locked, user, door, now, later);
      if answer != Done {
        users, verified := savedUsers, savedVerified;
      }
    }
  }
}
