/** Exactly when a link is usable and a redemption succeeds, in the stored fields alone. */
module Redemptions {
  import opened Options
  import opened Invitations

  /** Neither taken up nor taken back, and not yet over at this instant. */
  predicate StillOpen(invite: Invite, now: int) {
    invite.acceptedAt == None && invite.revokedAt == None && now < invite.expiresAt
  }

  /** A link is usable exactly while its token is current on an open invitation, and otherwise says why not. */
  lemma ResolvedExactly(s: State, token: nat, now: int, i: nat)
    requires TokensPartitioned(s) && i < |s.invites| && s.invites[i].token == token
    ensures Resolve(s, token, now) == Done <==> StillOpen(s.invites[i], now)
    ensures Resolve(s, token, now) == AlreadyAccepted <==> s.invites[i].acceptedAt.Some?
    ensures Resolve(s, token, now) == WasRevoked <==> s.invites[i].acceptedAt.None? && s.invites[i].revokedAt.Some?
    ensures Resolve(s, token, now) == Expired <==>
              s.invites[i].acceptedAt.None? && s.invites[i].revokedAt.None? && s.invites[i].expiresAt <= now
  {
    var at := FindToken(s.invites, token);
    assert StandsAt(s.invites, token, i) && StandsAt(s.invites, token, at.value);
  }

  /** The presented snapshot is of this invitation, and holds the token it has now. */
  predicate Presents(presented: Invite, invite: Invite) {
    && presented.tenant == invite.tenant && presented.client == invite.client && presented.contact == invite.contact
    && presented.token == invite.token
  }

  /** The seat is this account's in the invitation's firm and client. */
  predicate SeatFor(s: State, seat: nat, invite: Invite, user: nat) {
    && seat < |s.members| && s.members[seat].user == user
    && s.members[seat].tenant == invite.tenant && s.members[seat].client == invite.client
  }

  /** The invited contact as it stands now: this client's and this address, active, consenting, not someone else's. */
  predicate ContactInOrder(s: State, invite: Invite, user: nat) {
    invite.contact.Some? ==>
      && invite.contact.value < |s.contacts|
      && var contact := s.contacts[invite.contact.value];
      && invite.client == Some(contact.client) && contact.email == invite.email
      && contact.active && contact.emailAllowed
      && (contact.seat.Some? ==> SeatFor(s, contact.seat.value, invite, user))
  }

  /** The door that this invitation opens: the firm's own, or the client portal. */
  predicate RightDoor(invite: Invite, door: Door) {
    door == ClientDoor <==> invite.client != None
  }

  /** Everything an acceptance needs. */
  predicate MayAccept(s: State, id: nat, presented: Invite, user: nat, door: Door, now: int, later: int) {
    && user < |s.users| && id < |s.invites|
    && var invite := s.invites[id];
    && Presents(presented, invite) && StillOpen(invite, now) && StillOpen(invite, later) && RightDoor(invite, door)
    && (user, invite.email) in s.verified
    && (invite.client != None ==> s.users[user].active && ContactInOrder(s, invite, user))
  }

  /** Everything a registration needs: besides, nobody has or has proved the invited address. */
  ghost predicate MayRegister(s: State, id: nat, presented: Invite, door: Door, now: int, later: int) {
    && id < |s.invites|
    && var invite := s.invites[id];
    && Presents(presented, invite) && StillOpen(invite, now) && StillOpen(invite, later) && RightDoor(invite, door)
    && (forall u :: 0 <= u < |s.users| ==> s.users[u].email != invite.email)
    && (forall u: nat :: (u, invite.email) !in s.verified)
    && (invite.client != None ==> ContactInOrder(s, invite, |s.users|))
  }

  /** The one seat of a key is found wherever it stands. */
  lemma SeatIsFound(s: State, invite: Invite, user: nat, seat: nat)
    requires SeatsUnique(s.members)
    ensures FindSeat(s.members, SeatKey(invite, user)) == Some(seat) <==> SeatFor(s, seat, invite, user)
  {
    var at := FindSeat(s.members, SeatKey(invite, user));
    if SeatFor(s, seat, invite, user) {
      assert s.members[seat].Key() == SeatKey(invite, user);
    }
  }

  lemma ContactStandsExactly(s: State, invite: Invite, user: nat)
    requires SeatsUnique(s.members)
    ensures ContactStands(s, invite, FindSeat(s.members, SeatKey(invite, user))) <==> ContactInOrder(s, invite, user)
  {
    if invite.contact.Some? && invite.contact.value < |s.contacts| && s.contacts[invite.contact.value].seat.Some? {
      SeatIsFound(s, invite, user, s.contacts[invite.contact.value].seat.value);
    }
  }

  lemma AcceptAnsweredExactly(s: State, id: nat, presented: Invite, user: nat, door: Door, now: int, later: int)
    requires SeatsUnique(s.members)
    ensures AcceptAnswer(s, id, presented, user, door, now, later) == Done
            <==> MayAccept(s, id, presented, user, door, now, later)
  {
    if id < |s.invites| {
      ContactStandsExactly(s, s.invites[id], user);
    }
  }

  /** An acceptance succeeds exactly when the account, the mailbox, the door and the contact are all in order. */
  lemma AcceptedExactly(s: State, op: Op)
    requires StateOk(s) && op.Accept?
    ensures Answers(s, op) == Done <==> MayAccept(s, op.id, op.presented, op.user, op.door, op.now, op.later)
  {
    AcceptAnsweredExactly(s, op.id, op.presented, op.user, op.door, op.now, op.later);
  }

  lemma AddressIsFree(s: State, email: string)
    ensures !AddressTaken(s, email)
            <==> (forall u :: 0 <= u < |s.users| ==> s.users[u].email != email)
                 && (forall u: nat :: (u, email) !in s.verified)
  {
    if AddressTaken(s, email) && forall u :: 0 <= u < |s.users| ==> s.users[u].email != email {
      var u :| u in s.verified && u.1 == email;
      assert (u.0, email) == u;
    }
  }

  /** A registration succeeds exactly when the address is nobody's and the same checks hold for the new account. */
  lemma RegisteredExactly(s: State, op: Op)
    requires StateOk(s) && op.Register?
    ensures Answers(s, op) == Done <==> MayRegister(s, op.id, op.presented, op.door, op.now, op.later)
  {
    if op.id < |s.invites| {
      var invite := s.invites[op.id];
      AddressIsFree(s, invite.email);
      AcceptAnsweredExactly(Registered(s, invite.email), op.id, invite, |s.users|, op.door, op.now, op.later);
      SameContacts(s, Registered(s, invite.email), invite, |s.users|);
    }
  }

  lemma SameContacts(s: State, g: State, invite: Invite, user: nat)
    requires g.members == s.members && g.contacts == s.contacts
    ensures ContactInOrder(g, invite, user) <==> ContactInOrder(s, invite, user)
  {
  }
}
