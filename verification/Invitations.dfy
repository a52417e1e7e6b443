/**
 The invitation protocol: issue, resolve a link, re-mint its token for a dispatch, revoke or
 withdraw, and redeem at one of two doors. Resolving is an unlocked read that hands its caller a
 snapshot; redemption comes later, with any other operation in between, and re-checks everything
 under the lock. Tokens stand for their digests: minting takes the next unused one. E-mail
 addresses are compared case-folded, so an address here is its folded form.
 */
module Invitations {
  import opened Options

  datatype Role = Owner | StaffAccountant | OperationsAdmin | ClientOwner | ClientCollaborator
  {
    predicate ClientSide() {
      ClientOwner? || ClientCollaborator?
    }
  }

  datatype Door = FirmDoor | ClientDoor

  datatype Invite = Invite(
    tenant: nat,
    client: Option<nat>,
    contact: Option<nat>,
    email: string,
    role: Role,
    token: nat,
    superseded: seq<nat>,
    expiresAt: int,
    acceptedAt: Option<int>,
    revokedAt: Option<int>)
  {
    /** What issuance fixes; redemption never re-reads it from anywhere else. */
    function Grant(): (nat, Option<nat>, Option<nat>, string, Role) {
      (tenant, client, contact, email, role)
    }

    function Side(): Door {
      if client.None? then FirmDoor else ClientDoor
    }
  }

  datatype Membership = Membership(user: nat, tenant: nat, client: Option<nat>, role: Role, active: bool)
  {
    /** The key of `membership_user_tenant_client_uniq`, nulls not distinct. */
    function Key(): (nat, nat, Option<nat>) {
      (user, tenant, client)
    }
  }

  datatype Contact = Contact(
    client: nat,
    email: string,
    active: bool,
    emailAllowed: bool,
    seat: Option<nat>,
    version: nat)

  datatype User = User(email: string, active: bool)

  /** Tables indexed by primary key, the verified mailboxes, and the next unused token. */
  datatype State = State(
    invites: seq<Invite>,
    members: seq<Membership>,
    contacts: seq<Contact>,
    users: seq<User>,
    verified: set<(nat, string)>,
    nextToken: nat)

  datatype Answer =
    | Done | NotFound | TokenSuperseded | AlreadyAccepted | WasRevoked | Expired
    | ScopeMismatch | EmailMismatch | AccountExists | NotPermitted | NotRevocable | Invalid

  // ---------------------------------------------------------------------------------------------
  // Guards
  // ---------------------------------------------------------------------------------------------

  function Redeemable(invite: Invite, now: int): Answer {
    if invite.acceptedAt.Some? then AlreadyAccepted
    else if invite.revokedAt.Some? then WasRevoked
    else if invite.expiresAt <= now then Expired
    else Done
  }

  function FindToken(invites: seq<Invite>, token: nat): (at: Option<nat>)
    ensures at.Some? ==> at.value < |invites| && invites[at.value].token == token
    ensures at.None? ==> forall i :: 0 <= i < |invites| ==> invites[i].token != token
  {
    if invites == [] then None
    else if invites[|invites| - 1].token == token then Some(|invites| - 1)
    else FindToken(invites[..|invites| - 1], token)
  }

  predicate IsSuperseded(invites: seq<Invite>, token: nat) {
    exists i :: 0 <= i < |invites| && token in invites[i].superseded
  }

  /** `resolve_invite`: what a presented link answers, without a lock. */
  function Resolve(s: State, token: nat, now: int): Answer {
    var at := FindToken(s.invites, token);
    if at.Some? then Redeemable(s.invites[at.value], now)
    else if IsSuperseded(s.invites, token) then TokenSuperseded
    else NotFound
  }

  function FindSeat(members: seq<Membership>, key: (nat, nat, Option<nat>)): (at: Option<nat>)
    ensures at.Some? ==> at.value < |members| && members[at.value].Key() == key
    ensures at.None? ==> forall i :: 0 <= i < |members| ==> members[i].Key() != key
  {
    if members == [] then None
    else if members[|members| - 1].Key() == key then Some(|members| - 1)
    else FindSeat(members[..|members| - 1], key)
  }

  /** The contact half of `_client_seat`: the same, consenting contact, unbound or bound to this very seat. */
  predicate ContactStands(s: State, invite: Invite, seat: Option<nat>) {
    invite.contact.Some? ==>
      && invite.contact.value < |s.contacts|
      && var contact := s.contacts[invite.contact.value];
      && Some(contact.client) == invite.client && contact.email == invite.email
      && contact.active && contact.emailAllowed
      && (contact.seat.None? || contact.seat == seat)
  }

  function SeatKey(invite: Invite, user: nat): (nat, nat, Option<nat>) {
    (user, invite.tenant, invite.client)
  }

  /** The checks of `accept_invite`, in order; `later` is the clock of the second expiry check. */
  function AcceptAnswer(s: State, id: nat, presented: Invite, user: nat, door: Door, now: int, later: int): Answer {
    if user >= |s.users| || id >= |s.invites| then NotFound
    else
      var locked := s.invites[id];
      if (locked.tenant, locked.client, locked.contact) != (presented.tenant, presented.client, presented.contact)
      then NotFound
      else if Redeemable(locked, now) != Done then Redeemable(locked, now)
      else if door != locked.Side() then ScopeMismatch
      else if presented.token != locked.token then TokenSuperseded
      else if locked.client.Some? && !s.users[user].active then NotFound
      else if (user, locked.email) !in s.verified then EmailMismatch
      else if locked.client.Some? && !ContactStands(s, locked, FindSeat(s.members, SeatKey(locked, user))) then NotFound
      else Redeemable(locked, later)
  }

  // ---------------------------------------------------------------------------------------------
  // Effects
  // ---------------------------------------------------------------------------------------------

  /** The seat the invitation promises: the existing row re-roled and reactivated, or a new one. */
  function Seated(members: seq<Membership>, invite: Invite, user: nat): seq<Membership> {
    var at := FindSeat(members, SeatKey(invite, user));
    if at.Some? then members[at.value := members[at.value].(role := invite.role, active := true)]
    else members + [Membership(user, invite.tenant, invite.client, invite.role, true)]
  }

  /** The primary key of that seat. */
  function SeatOf(members: seq<Membership>, invite: Invite, user: nat): nat {
    var at := FindSeat(members, SeatKey(invite, user));
    if at.Some? then at.value else |members|
  }

  /** A contact is bound to the seat from unbound; a bound one is left as it is. */
  function Bound(contacts: seq<Contact>, invite: Invite, seat: nat): seq<Contact> {
    if invite.contact.Some? && invite.contact.value < |contacts| && contacts[invite.contact.value].seat.None?
    then
      var contact := contacts[invite.contact.value];
      contacts[invite.contact.value := contact.(seat := Some(seat), version := contact.version + 1)]
    else contacts
  }

  function Accepted(s: State, id: nat, user: nat, later: int): State
    requires id < |s.invites|
  {
    var invite := s.invites[id];
    s.(members := Seated(s.members, invite, user),
       contacts := Bound(s.contacts, invite, SeatOf(s.members, invite, user)),
       invites := s.invites[id := invite.(acceptedAt := Some(later))])
  }

  /** The account a registration creates, its mailbox proved by the token itself. */
  function Registered(s: State, email: string): State {
    s.(users := s.users + [User(email, true)], verified := s.verified + {(|s.users|, email)})
  }

  predicate AddressTaken(s: State, email: string) {
    || (exists u :: 0 <= u < |s.users| && s.users[u].email == email)
    || (exists u | u in s.verified :: u.1 == email)
  }

  function RegisterAnswer(s: State, id: nat, presented: Invite, door: Door, now: int, later: int): Answer {
    if id >= |s.invites| then NotFound
    else
      var locked := s.invites[id];
      if (locked.tenant, locked.client, locked.contact) != (presented.tenant, presented.client, presented.contact)
      then NotFound
      else if Redeemable(locked, now) != Done then Redeemable(locked, now)
      else if door != locked.Side() then ScopeMismatch
      else if presented.token != locked.token then TokenSuperseded
      else if AddressTaken(s, locked.email) then AccountExists
      else AcceptAnswer(Registered(s, locked.email), id, locked, |s.users|, door, now, later)
  }

  // ---------------------------------------------------------------------------------------------
  // The machine
  // ---------------------------------------------------------------------------------------------

  datatype Op =
    | Issue(permitted: bool, tenant: nat, client: Option<nat>, contact: Option<nat>, email: string, role: Role,
            expiresAt: int)
    | Mint(id: nat, now: int)
    | Revoke(id: nat, permitted: bool, now: int)
    | Withdraw(id: nat, now: int)
    | Accept(id: nat, presented: Invite, user: nat, door: Door, now: int, later: int)
    | Register(id: nat, presented: Invite, door: Door, now: int, later: int)
    | VerifyMailbox(user: nat, email: string)
    | AddContact(company: nat, email: string, active: bool, emailAllowed: bool)
    | EditContact(at: nat, email: string, active: bool, emailAllowed: bool)
    | SetSeatActive(seat: nat, active: bool)

  /** A contact invitation re-reads its origin: this client's, this address, active and consenting. */
  predicate ContactOffers(s: State, client: Option<nat>, contact: nat, email: string) {
    && contact < |s.contacts| && Some(s.contacts[contact].client) == client && s.contacts[contact].email == email
    && s.contacts[contact].active && s.contacts[contact].emailAllowed
  }

  /** The check constraints of the invitation row. */
  predicate IssueFits(op: Op)
    requires op.Issue?
  {
    (op.role.ClientSide() <==> op.client.Some?) && (op.contact.Some? ==> op.client.Some?)
  }

  function Answers(s: State, op: Op): Answer {
    match op
    case Issue(permitted, _, client, contact, email, _, _) =>
      if !permitted then NotPermitted
      else if contact.Some? && !ContactOffers(s, client, contact.value, email) then NotFound
      else if !IssueFits(op) then Invalid
      else Done
    case Mint(id, now) => if id >= |s.invites| then NotFound else Redeemable(s.invites[id], now)
    case Revoke(id, permitted, _) =>
      if id >= |s.invites| then NotFound
      else if !permitted then NotPermitted
      else if s.invites[id].acceptedAt.Some? || s.invites[id].revokedAt.Some? then NotRevocable
      else Done
    case Withdraw(id, _) =>
      if id >= |s.invites| then NotFound
      else if s.invites[id].acceptedAt.Some? || s.invites[id].revokedAt.Some? then NotRevocable
      else Done
    case Accept(id, presented, user, door, now, later) => AcceptAnswer(s, id, presented, user, door, now, later)
    case Register(id, presented, door, now, later) => RegisterAnswer(s, id, presented, door, now, later)
    case VerifyMailbox(user, _) => if user < |s.users| then Done else NotFound
    case AddContact(_, _, _, _) => Done
    case EditContact(at, _, _, _) => if at < |s.contacts| then Done else NotFound
    case SetSeatActive(seat, _) => if seat < |s.members| then Done else NotFound
  }

  function Effect(s: State, op: Op): State
    requires Answers(s, op) == Done
  {
    match op
    case Issue(_, tenant, client, contact, email, role, expiresAt) =>
      s.(invites := s.invites + [Invite(tenant, client, contact, email, role, s.nextToken, [], expiresAt, None, None)],
         nextToken := s.nextToken + 1)
    case Mint(id, _) =>
      var invite := s.invites[id];
      s.(invites := s.invites[id := invite.(token := s.nextToken, superseded := invite.superseded + [invite.token])],
         nextToken := s.nextToken + 1)
    case Revoke(id, _, now) => s.(invites := s.invites[id := s.invites[id].(revokedAt := Some(now))])
    case Withdraw(id, now) => s.(invites := s.invites[id := s.invites[id].(revokedAt := Some(now))])
    case Accept(id, _, user, _, _, later) => Accepted(s, id, user, later)
    case Register(id, _, _, _, later) => Accepted(Registered(s, s.invites[id].email), id, |s.users|, later)
    case VerifyMailbox(user, email) => s.(verified := s.verified + {(user, email)})
    case AddContact(company, email, active, emailAllowed) =>
      s.(contacts := s.contacts + [Contact(company, email, active, emailAllowed, None, 1)])
    case EditContact(at, email, active, emailAllowed) =>
      var contact := s.contacts[at];
      s.(contacts := s.contacts[at := contact.(email := email, active := active, emailAllowed := emailAllowed,
                                               version := contact.version + 1)])
    case SetSeatActive(seat, active) => s.(members := s.members[seat := s.members[seat].(active := active)])
  }

  function Step(s: State, op: Op): State {
    if Answers(s, op) == Done then Effect(s, op) else s
  }

  function Run(s: State, ops: seq<Op>): State {
    if ops == [] then s else Step(Run(s, ops[..|ops| - 1]), ops[|ops| - 1])
  }

  // ---------------------------------------------------------------------------------------------
  // What every reachable state satisfies
  // ---------------------------------------------------------------------------------------------

  /** The places a token may stand: current on an invitation, or superseded there. */
  predicate CurrentAt(invites: seq<Invite>, token: nat, i: nat) {
    i < |invites| && invites[i].token == token
  }

  predicate SupersededAt(invites: seq<Invite>, token: nat, i: nat) {
    i < |invites| && token in invites[i].superseded
  }

  predicate StandsAt(invites: seq<Invite>, token: nat, i: nat) {
    CurrentAt(invites, token, i) || SupersededAt(invites, token, i)
  }

  ghost predicate Stands(invites: seq<Invite>, token: nat) {
    exists i: nat :: StandsAt(invites, token, i)
  }

  /** Every token ever minted stands somewhere, and no token stands in two places. */
  ghost predicate Partitioned(invites: seq<Invite>, nextToken: nat) {
    && (forall t: nat :: t < nextToken ==> Stands(invites, t))
    && (forall t: nat, i: nat :: StandsAt(invites, t, i) ==> t < nextToken)
    && (forall t: nat, i: nat, j: nat :: StandsAt(invites, t, i) && StandsAt(invites, t, j) ==> i == j)
    && (forall t: nat, i: nat :: !(CurrentAt(invites, t, i) && SupersededAt(invites, t, i)))
  }

  ghost predicate TokensPartitioned(s: State) {
    Partitioned(s.invites, s.nextToken)
  }

  predicate NeverBoth(s: State) {
    forall i :: 0 <= i < |s.invites| ==> !(s.invites[i].acceptedAt.Some? && s.invites[i].revokedAt.Some?)
  }

  /** The unique constraint on (user, tenant, client). */
  predicate SeatsUnique(members: seq<Membership>) {
    forall i, j :: 0 <= i < j < |members| ==> members[i].Key() != members[j].Key()
  }

  /** A role matches the scope it is held in, on invitations and on seats; a contact's invitation has a client. */
  predicate RolesMatchScope(s: State) {
    && (forall i :: 0 <= i < |s.invites| ==> (s.invites[i].role.ClientSide() <==> s.invites[i].client.Some?))
    && (forall i :: 0 <= i < |s.invites| && s.invites[i].contact.Some? ==> s.invites[i].client.Some?)
    && (forall i :: 0 <= i < |s.members| ==> (s.members[i].role.ClientSide() <==> s.members[i].client.Some?))
  }

  ghost predicate StateOk(s: State) {
    TokensPartitioned(s) && NeverBoth(s) && SeatsUnique(s.members) && RolesMatchScope(s)
  }

  // ---------------------------------------------------------------------------------------------
  // Tokens
  // ---------------------------------------------------------------------------------------------

  /** Where each token stands after the next one is put in place `id`, superseding what stood there. */
  lemma TokenPlaced(before: seq<Invite>, after: seq<Invite>, next: nat, id: nat)
    requires Partitioned(before, next) && id < |after|
    requires forall t: nat, i: nat :: CurrentAt(after, t, i) <==> if i == id then t == next else CurrentAt(before, t, i)
    requires forall t: nat, i: nat ::
               SupersededAt(after, t, i) <==> SupersededAt(before, t, i) || (i == id && CurrentAt(before, t, i))
    ensures Partitioned(after, next + 1)
  {
    assert forall i: nat :: !StandsAt(before, next, i);
    forall t: nat | t < next + 1
      ensures Stands(after, t)
    {
      if t == next {
        assert StandsAt(after, t, id);
      } else {
        assert Stands(before, t);
        var i: nat :| StandsAt(before, t, i);
        assert StandsAt(after, t, i);
      }
    }
    forall t: nat, i: nat, j: nat | StandsAt(after, t, i) && StandsAt(after, t, j)
      ensures i == j && t < next + 1
    {
      if t == next {
        assert !StandsAt(before, t, i) && !StandsAt(before, t, j);
      } else {
        assert StandsAt(before, t, i) && StandsAt(before, t, j);
      }
    }
    forall t: nat, i: nat
      ensures !(CurrentAt(after, t, i) && SupersededAt(after, t, i))
    {
      assert !StandsAt(before, next, i);
    }
  }

  lemma SameTokens(before: seq<Invite>, after: seq<Invite>, next: nat)
    requires Partitioned(before, next) && |after| == |before|
    requires forall i :: 0 <= i < |before| ==>
               after[i].token == before[i].token && after[i].superseded == before[i].superseded
    ensures Partitioned(after, next)
  {
    assert forall t: nat, i: nat :: CurrentAt(after, t, i) <==> CurrentAt(before, t, i);
    assert forall t: nat, i: nat :: SupersededAt(after, t, i) <==> SupersededAt(before, t, i);
    assert forall t: nat, i: nat :: StandsAt(after, t, i) <==> StandsAt(before, t, i);
    forall t: nat | t < next
      ensures Stands(after, t)
    {
      assert Stands(before, t);
    }
  }

  lemma StepKeepsTokens(s: State, op: Op)
    requires TokensPartitioned(s)
    ensures TokensPartitioned(Step(s, op))
  {
    if Answers(s, op) == Done {
      match op
      case Issue(_, _, _, _, _, _, _) => TokenPlaced(s.invites, Effect(s, op).invites, s.nextToken, |s.invites|);
      case Mint(id, _) => TokenPlaced(s.invites, Effect(s, op).invites, s.nextToken, id);
      case _ => SameTokens(s.invites, Effect(s, op).invites, s.nextToken);
    }
  }

  // ---------------------------------------------------------------------------------------------
  // Seats
  // ---------------------------------------------------------------------------------------------

  /** The one seat a redemption touches, and what it leaves of every other. */
  ghost predicate SeatsChangedOnlyAt(
    before: seq<Membership>, after: seq<Membership>, seat: nat, invite: Invite, user: nat)
  {
    && |before| <= |after| <= |before| + 1 && seat < |after| && (seat < |before| <==> |after| == |before|)
    && after[seat] == Membership(user, invite.tenant, invite.client, invite.role, true)
    && (forall i :: 0 <= i < |before| && i != seat ==> after[i] == before[i])
    && (seat < |before| ==> before[seat].Key() == after[seat].Key())
  }

  /** Redemption writes exactly the seat keyed (user, tenant, client), and keeps that key unique. */
  lemma SeatedFrame(members: seq<Membership>, invite: Invite, user: nat)
    requires SeatsUnique(members)
    ensures SeatsChangedOnlyAt(members, Seated(members, invite, user), SeatOf(members, invite, user), invite, user)
    ensures SeatsUnique(Seated(members, invite, user))
  {
  }

  lemma AcceptedIsRedeemable(s: State, id: nat, presented: Invite, user: nat, door: Door, now: int, later: int)
    requires AcceptAnswer(s, id, presented, user, door, now, later) == Done
    ensures id < |s.invites| && user < |s.users|
    ensures var locked := s.invites[id];
            && locked.acceptedAt.None? && locked.revokedAt.None? && locked.expiresAt > now && locked.expiresAt > later
            && presented.token == locked.token && door == locked.Side()
            && (user, locked.email) in s.verified
  {
  }

  lemma AcceptedKeeps(s: State, id: nat, user: nat, later: int)
    requires StateOk(s) && id < |s.invites| && s.invites[id].revokedAt.None?
    ensures StateOk(Accepted(s, id, user, later))
  {
    SeatedFrame(s.members, s.invites[id], user);
    SameTokens(s.invites, Accepted(s, id, user, later).invites, s.nextToken);
  }

  lemma RegisteredKeeps(s: State, email: string)
    requires StateOk(s)
    ensures StateOk(Registered(s, email))
  {
  }

  lemma StepKeepsState(s: State, op: Op)
    requires StateOk(s)
    ensures StateOk(Step(s, op))
  {
    StepKeepsTokens(s, op);
    if Answers(s, op) == Done {
      match op
      case Accept(id, presented, user, door, now, later) => AcceptedKeeps(s, id, user, later);
      case Register(id, presented, door, now, later) =>
        RegisteredKeeps(s, s.invites[id].email);
        AcceptedKeeps(Registered(s, s.invites[id].email), id, |s.users|, later);
      case SetSeatActive(seat, active) =>
        assert forall i :: 0 <= i < |s.members| ==> Step(s, op).members[i].Key() == s.members[i].Key();
      case _ =>
    }
  }

  const EMPTY: State := State([], [], [], [], {}, 0)

  lemma {:induction false} RunKeepsState(s: State, ops: seq<Op>)
    requires StateOk(s)
    ensures StateOk(Run(s, ops))
  {
    if ops != [] {
      RunKeepsState(s, ops[..|ops| - 1]);
      StepKeepsState(Run(s, ops[..|ops| - 1]), ops[|ops| - 1]);
    }
  }

  // ---------------------------------------------------------------------------------------------
  // Links
  // ---------------------------------------------------------------------------------------------

  /** A link that was ever sent never reads as unknown; it reads as replaced exactly when it was. */
  lemma MintedLinkIsKnown(s: State, token: nat, now: int)
    requires TokensPartitioned(s) && token < s.nextToken
    ensures Resolve(s, token, now) != NotFound
    ensures Resolve(s, token, now) == TokenSuperseded <==> exists i: nat :: SupersededAt(s.invites, token, i)
  {
    assert Stands(s.invites, token);
    var i: nat :| StandsAt(s.invites, token, i);
    var at := FindToken(s.invites, token);
    if at.Some? {
      assert StandsAt(s.invites, token, at.value);
      if j: nat :| SupersededAt(s.invites, token, j) {
        assert StandsAt(s.invites, token, j);
      }
    }
  }

  /** And a token nobody minted is not found. */
  lemma UnmintedLinkIsUnknown(s: State, token: nat, now: int)
    requires TokensPartitioned(s) && token >= s.nextToken
    ensures Resolve(s, token, now) == NotFound
  {
    var at := FindToken(s.invites, token);
    assert forall i: nat :: !StandsAt(s.invites, token, i);
    assert at.Some? ==> StandsAt(s.invites, token, at.value);
    forall i: nat | i < |s.invites|
      ensures token !in s.invites[i].superseded
    {
      assert !StandsAt(s.invites, token, i);
    }
  }

  // ---------------------------------------------------------------------------------------------
  // Safety over runs
  // ---------------------------------------------------------------------------------------------

  /** What one operation may do to an invitation: keep its grant, end it at most once, only re-mint its token. */
  predicate Evolves(before: Invite, after: Invite) {
    && after.Grant() == before.Grant() && after.expiresAt == before.expiresAt
    && (before.acceptedAt.Some? || before.revokedAt.Some? ==> after == before)
    && before.superseded <= after.superseded
    && (after.token != before.token ==> before.token in after.superseded)
  }

  /** Accepted and revoked are absorbing: nothing but a dispatch re-mint or its one ending moves an invitation. */
  lemma StepEvolves(s: State, op: Op, id: nat)
    requires id < |s.invites|
    ensures id < |Step(s, op).invites| && Evolves(s.invites[id], Step(s, op).invites[id])
  {
  }

  predicate Redeems(s: State, op: Op, id: nat) {
    (op.Accept? || op.Register?) && op.id == id && Answers(s, op) == Done
  }

  lemma RedeemingEnds(s: State, op: Op, id: nat)
    requires Redeems(s, op, id)
    ensures id < |s.invites| && s.invites[id].acceptedAt.None? && s.invites[id].revokedAt.None?
    ensures op.presented.token == s.invites[id].token
    ensures Step(s, op).invites[id].acceptedAt == Some(op.later)
  {
  }

  lemma {:induction false} RunEvolves(s: State, ops: seq<Op>, id: nat, n: nat)
    requires n <= |ops| && id < |Run(s, ops[..n]).invites|
    ensures id < |Run(s, ops).invites| && Evolves(Run(s, ops[..n]).invites[id], Run(s, ops).invites[id])
  {
    if n == |ops| {
      assert ops[..n] == ops;
    } else {
      assert ops[..|ops| - 1][..n] == ops[..n];
      RunEvolves(s, ops[..|ops| - 1], id, n);
      StepEvolves(Run(s, ops[..|ops| - 1]), ops[|ops| - 1], id);
    }
  }

  lemma RevokingEnds(s: State, op: Op)
    requires (op.Revoke? || op.Withdraw?) && Answers(s, op) == Done
    ensures op.id < |Step(s, op).invites| && Step(s, op).invites[op.id].revokedAt.Some?
  {
  }

  lemma EndedNeverRedeems(s: State, op: Op, id: nat)
    requires id < |s.invites| && (s.invites[id].acceptedAt.Some? || s.invites[id].revokedAt.Some?)
    ensures !Redeems(s, op, id)
  {
    if Redeems(s, op, id) {
      RedeemingEnds(s, op, id);
    }
  }

  /** At most one redemption of an invitation succeeds, at whichever door and for whichever account. */
  lemma RedeemedOnce(s: State, ops: seq<Op>, id: nat, i: nat, j: nat)
    requires i < j < |ops| && Redeems(Run(s, ops[..i]), ops[i], id)
    ensures !Redeems(Run(s, ops[..j]), ops[j], id)
  {
    RedeemingEnds(Run(s, ops[..i]), ops[i], id);
    assert ops[..i + 1][..i] == ops[..i] && ops[..j][..i + 1] == ops[..i + 1];
    RunEvolves(s, ops[..j], id, i + 1);
    EndedNeverRedeems(Run(s, ops[..j]), ops[j], id);
  }

  /** Revocation and redemption exclude each other, in either order. */
  lemma RevokedNeverRedeemed(s: State, ops: seq<Op>, id: nat, i: nat, j: nat)
    requires i < j < |ops| && (ops[i].Revoke? || ops[i].Withdraw?) && ops[i].id == id
    requires Answers(Run(s, ops[..i]), ops[i]) == Done
    ensures !Redeems(Run(s, ops[..j]), ops[j], id)
  {
    assert ops[..i + 1][..i] == ops[..i] && ops[..j][..i + 1] == ops[..i + 1];
    RevokingEnds(Run(s, ops[..i]), ops[i]);
    RunEvolves(s, ops[..j], id, i + 1);
    EndedNeverRedeems(Run(s, ops[..j]), ops[j], id);
  }

  lemma SupersededNeverRedeems(s: State, op: Op, id: nat)
    requires TokensPartitioned(s) && (op.Accept? || op.Register?) && SupersededAt(s.invites, op.presented.token, id)
    ensures !Redeems(s, op, id)
  {
    if Redeems(s, op, id) {
      RedeemingEnds(s, op, id);
      assert CurrentAt(s.invites, op.presented.token, id);
    }
  }

  lemma MintSupersedes(s: State, op: Op)
    requires op.Mint? && Answers(s, op) == Done
    ensures op.id < |s.invites| && op.id < |Step(s, op).invites|
    ensures s.invites[op.id].superseded <= Step(s, op).invites[op.id].superseded
    ensures s.invites[op.id].token in Step(s, op).invites[op.id].superseded
  {
  }

  /** A mint supersedes every token the invitation has held. */
  lemma MintKillsHeld(before: Invite, s: State, op: Op)
    requires op.Mint? && Answers(s, op) == Done && op.id < |s.invites| && Evolves(before, s.invites[op.id])
    ensures SupersededAt(Step(s, op).invites, before.token, op.id)
  {
    MintSupersedes(s, op);
  }

  lemma SupersededByMint(s: State, ops: seq<Op>, id: nat, resolved: nat, minted: nat)
    requires resolved <= minted < |ops| && id < |Run(s, ops[..resolved]).invites|
    requires ops[minted].Mint? && ops[minted].id == id && Answers(Run(s, ops[..minted]), ops[minted]) == Done
    ensures SupersededAt(Run(s, ops[..minted + 1]).invites, Run(s, ops[..resolved]).invites[id].token, id)
  {
    assert ops[..minted][..resolved] == ops[..resolved];
    RunEvolves(s, ops[..minted], id, resolved);
    MintKillsHeld(Run(s, ops[..resolved]).invites[id], Run(s, ops[..minted]), ops[minted]);
    assert ops[..minted + 1][..minted] == ops[..minted];
  }

  /** A token current at some point of a run is superseded everywhere after a later re-mint. */
  lemma RemintKillsToken(s: State, ops: seq<Op>, id: nat, resolved: nat, minted: nat)
    requires resolved <= minted < |ops| && id < |Run(s, ops[..resolved]).invites|
    requires ops[minted].Mint? && ops[minted].id == id && Answers(Run(s, ops[..minted]), ops[minted]) == Done
    ensures SupersededAt(Run(s, ops).invites, Run(s, ops[..resolved]).invites[id].token, id)
  {
    SupersededByMint(s, ops, id, resolved, minted);
    RunEvolves(s, ops, id, minted + 1);
  }

  /** A link resolved before a re-mint is dead after it: its snapshot can no longer redeem. */
  lemma StaleLinkNeverRedeems(s: State, ops: seq<Op>, id: nat, resolved: nat, minted: nat, op: Op)
    requires StateOk(s) && resolved <= minted < |ops| && id < |Run(s, ops[..resolved]).invites|
    requires ops[minted].Mint? && ops[minted].id == id && Answers(Run(s, ops[..minted]), ops[minted]) == Done
    requires (op.Accept? || op.Register?) && op.presented == Run(s, ops[..resolved]).invites[id]
    ensures !Redeems(Run(s, ops), op, id)
  {
    RemintKillsToken(s, ops, id, resolved, minted);
    RunKeepsState(s, ops);
    SupersededNeverRedeems(Run(s, ops), op, id);
  }

  // ---------------------------------------------------------------------------------------------
  // The frame of a redemption
  // ---------------------------------------------------------------------------------------------

  /** Contacts change only at the invitation's own contact, and only from unbound to the seat. */
  ghost predicate ContactsBoundOnlyTo(before: seq<Contact>, after: seq<Contact>, invite: Invite, seat: nat) {
    && |after| == |before|
    && forall c :: 0 <= c < |before| ==>
         || after[c] == before[c]
         || (invite.contact == Some(c) && before[c].seat.None? && after[c].seat == Some(seat)
             && after[c] == before[c].(seat := Some(seat), version := before[c].version + 1))
  }

  /** What a successful acceptance changes, and all that it needs to have been true. */
  lemma AcceptanceFrame(s: State, op: Op)
    requires StateOk(s) && op.Accept? && Answers(s, op) == Done
    ensures var invite, g := s.invites[op.id], Step(s, op);
            var seat := SeatOf(s.members, invite, op.user);
            && (op.user, invite.email) in s.verified
            && op.presented.token == invite.token && op.door == invite.Side()
            && invite.acceptedAt.None? && invite.revokedAt.None?
            && invite.expiresAt > op.now && invite.expiresAt > op.later
            && SeatsChangedOnlyAt(s.members, g.members, seat, invite, op.user)
            && ContactsBoundOnlyTo(s.contacts, g.contacts, invite, seat)
            && (invite.contact.Some? ==> g.contacts[invite.contact.value].seat == Some(seat))
            && (forall i :: 0 <= i < |s.invites| && i != op.id ==> g.invites[i] == s.invites[i])
            && g.users == s.users && g.verified == s.verified
  {
    AcceptedIsRedeemable(s, op.id, op.presented, op.user, op.door, op.now, op.later);
    SeatedFrame(s.members, s.invites[op.id], op.user);
  }

  /** Registration is acceptance by an account that did not exist before, holding the invited address. */
  lemma RegistrationFrame(s: State, op: Op)
    requires StateOk(s) && op.Register? && Answers(s, op) == Done
    ensures var invite := s.invites[op.id];
            && !AddressTaken(s, invite.email)
            && Step(s, op).users == s.users + [User(invite.email, true)]
            && Step(s, op).verified == s.verified + {(|s.users|, invite.email)}
            && Step(s, op)
               == Step(Registered(s, invite.email), Accept(op.id, invite, |s.users|, op.door, op.now, op.later))
  {
  }

  // ---------------------------------------------------------------------------------------------
  // A contact's one account, over runs
  // ---------------------------------------------------------------------------------------------

  /** Seats keep their keys, bound contacts their seat, and no account goes. */
  predicate BindingsKept(s: State, g: State) {
    && |s.members| <= |g.members| && |s.contacts| <= |g.contacts| && |s.users| <= |g.users|
    && (forall i :: 0 <= i < |s.members| ==> g.members[i].Key() == s.members[i].Key())
    && (forall c :: 0 <= c < |s.contacts| && s.contacts[c].seat.Some? ==> g.contacts[c].seat == s.contacts[c].seat)
  }

  lemma StepKeepsBindings(s: State, op: Op)
    ensures BindingsKept(s, Step(s, op))
  {
  }

  lemma {:induction false} RunKeepsBindings(s: State, ops: seq<Op>, n: nat)
    requires n <= |ops|
    ensures BindingsKept(Run(s, ops[..n]), Run(s, ops))
  {
    if n == |ops| {
      assert ops[..n] == ops;
    } else {
      assert ops[..|ops| - 1][..n] == ops[..n];
      RunKeepsBindings(s, ops[..|ops| - 1], n);
      StepKeepsBindings(Run(s, ops[..|ops| - 1]), ops[|ops| - 1]);
    }
  }

  /** A contact bound to a seat at some point of a run is bound to that seat ever after, whoever holds its key. */
  lemma BoundContactStaysBound(s: State, ops: seq<Op>, n: nat, c: nat)
    requires n <= |ops| && c < |Run(s, ops[..n]).contacts| && Run(s, ops[..n]).contacts[c].seat.Some?
    ensures c < |Run(s, ops).contacts| && Run(s, ops).contacts[c].seat == Run(s, ops[..n]).contacts[c].seat
  {
    RunKeepsBindings(s, ops, n);
  }

  /** A bound contact's seat is a seat over the contact's own client. */
  predicate ContactsSeated(s: State) {
    forall c :: 0 <= c < |s.contacts| && s.contacts[c].seat.Some? ==>
                  && s.contacts[c].seat.value < |s.members|
                  && s.members[s.contacts[c].seat.value].client == Some(s.contacts[c].client)
  }

  lemma AcceptedKeepsSeated(s: State, op: Op)
    requires StateOk(s) && ContactsSeated(s) && op.Accept?
    ensures ContactsSeated(Step(s, op))
  {
    if Answers(s, op) == Done {
      AcceptanceFrame(s, op);
    }
  }

  lemma RegisteredKeepsSeated(s: State, op: Op)
    requires StateOk(s) && ContactsSeated(s) && op.Register? && Answers(s, op) == Done
    ensures ContactsSeated(Step(s, op))
  {
    var email := s.invites[op.id].email;
    RegisteredKeeps(s, email);
    RegistrationFrame(s, op);
    AcceptedKeepsSeated(Registered(s, email), Accept(op.id, s.invites[op.id], |s.users|, op.door, op.now, op.later));
  }

  /** Every contact of `g` that is bound was bound in `s`, to the same client. */
  predicate NothingBound(s: State, g: State) {
    forall c :: 0 <= c < |g.contacts| && g.contacts[c].seat.Some? ==>
                  c < |s.contacts| && s.contacts[c].seat.Some? && g.contacts[c].client == s.contacts[c].client
  }

  lemma OthersBindNothing(s: State, op: Op)
    requires !op.Accept? && !op.Register?
    ensures NothingBound(s, Step(s, op))
  {
  }

  lemma KeepsSeated(s: State, g: State)
    requires ContactsSeated(s) && NothingBound(s, g) && BindingsKept(s, g)
    ensures ContactsSeated(g)
  {
  }

  /** No operation links a contact to another client's seat. */
  lemma StepKeepsContactsSeated(s: State, op: Op)
    requires StateOk(s) && ContactsSeated(s)
    ensures ContactsSeated(Step(s, op))
  {
    if Answers(s, op) == Done {
      if op.Accept? {
        AcceptedKeepsSeated(s, op);
      } else if op.Register? {
        RegisteredKeepsSeated(s, op);
      } else {
        OthersBindNothing(s, op);
        StepKeepsBindings(s, op);
        KeepsSeated(s, Step(s, op));
      }
    }
  }

  /** So over any run a contact is only ever linked to a seat over its own client. */
  lemma {:induction false} RunKeepsContactsSeated(s: State, ops: seq<Op>)
    requires StateOk(s) && ContactsSeated(s)
    ensures ContactsSeated(Run(s, ops))
  {
    if ops != [] {
      var before := ops[..|ops| - 1];
      RunKeepsState(s, before);
      RunKeepsContactsSeated(s, before);
      StepKeepsContactsSeated(Run(s, before), ops[|ops| - 1]);
    }
  }

  /** The operation redeems an invitation of this contact. */
  predicate RedeemsFor(s: State, op: Op, c: nat) {
    (op.Accept? || op.Register?) && Answers(s, op) == Done && s.invites[op.id].contact == Some(c)
  }

  /** The account that takes the seat: the one signed in, or the one the registration creates. */
  function Redeemer(s: State, op: Op): nat
    requires op.Accept? || op.Register?
  {
    if op.Accept? then op.user else |s.users|
  }

  /** The contact is bound to a seat of this account. */
  predicate BoundTo(s: State, c: nat, user: nat) {
    && c < |s.contacts| && s.contacts[c].seat.Some? && s.contacts[c].seat.value < |s.members|
    && s.members[s.contacts[c].seat.value].user == user && user < |s.users|
  }

  lemma AcceptanceBinds(s: State, op: Op, c: nat)
    requires StateOk(s) && op.Accept? && RedeemsFor(s, op, c)
    ensures BoundTo(Step(s, op), c, op.user)
  {
    AcceptanceFrame(s, op);
    AcceptedIsRedeemable(s, op.id, op.presented, op.user, op.door, op.now, op.later);
  }

  lemma RedemptionBinds(s: State, op: Op, c: nat)
    requires StateOk(s) && RedeemsFor(s, op, c)
    ensures BoundTo(Step(s, op), c, Redeemer(s, op))
  {
    if op.Accept? {
      AcceptanceBinds(s, op, c);
    } else {
      var email := s.invites[op.id].email;
      RegisteredKeeps(s, email);
      AcceptanceBinds(Registered(s, email), Accept(op.id, s.invites[op.id], |s.users|, op.door, op.now, op.later), c);
    }
  }

  /**
   However many invitations are issued to a contact, one account redeems them all: a second redemption is
   never a registration, and never by an account other than the first.
   */
  lemma ContactHasOneAccount(s: State, ops: seq<Op>, c: nat, i: nat, j: nat)
    requires StateOk(s) && i < j < |ops|
    requires RedeemsFor(Run(s, ops[..i]), ops[i], c) && RedeemsFor(Run(s, ops[..j]), ops[j], c)
    ensures ops[j].Accept? && ops[j].user == Redeemer(Run(s, ops[..i]), ops[i])
  {
    assert ops[..i + 1][..i] == ops[..i] && ops[..j][..i + 1] == ops[..i + 1];
    RunKeepsState(s, ops[..i]);
    RedemptionBinds(Run(s, ops[..i]), ops[i], c);
    RunKeepsBindings(s, ops[..j], i + 1);
    RunKeepsState(s, ops[..j]);
    RedemptionBinds(Run(s, ops[..j]), ops[j], c);
    StepKeepsBindings(Run(s, ops[..j]), ops[j]);
  }
}
