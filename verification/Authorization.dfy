/**
 Who may do what: the resolution of permission levels, one capability at a time and in batches, and
 the roster of members whose portfolio is the whole firm.

 The stored tables are a `World`; the request's context variables are a `Context`. The seeded matrix
 is arbitrary data here.
 */
module Authorization {
  import opened Options

  datatype Level = NoAccess | TicketOnly | ViewConfirm | InitiateApprove | Own | Limited | Full

  function Rank(l: Level): nat {
    match l
    case NoAccess => 0
    case TicketOnly => 1
    case ViewConfirm => 2
    case InitiateApprove => 3
    case Own => 4
    case Limited => 5
    case Full => 6
  }

  function MaxLevel(a: Level, b: Level): Level {
    if Rank(a) >= Rank(b) then a else b
  }

  datatype Role = Owner | OperationsAdmin | StaffAccountant | ClientOwner | ClientCollaborator
  {
    predicate OfClient() {
      ClientOwner? || ClientCollaborator?
    }

    predicate FirmWide() {
      Owner? || OperationsAdmin?
    }
  }

  type Slug = string

  const VIEW_ASSIGNED: Slug := "clients.view_assigned"
  const VIEW_ALL: Slug := "clients.view_all"
  const SUPPORT_READ: set<Slug> := {VIEW_ASSIGNED, VIEW_ALL, "cycles.review", "audit.view"}
  const SETTINGS_WRITE: Slug := "billing.manage"

  datatype Membership = Membership(pk: nat, user: nat, tenant: nat, client: Option<nat>, role: Role, active: bool)

  datatype UserGrant = UserGrant(user: nat, tenant: nat, slug: Slug, level: Level, expires: Option<int>, revoked: bool)
  {
    predicate For(user: nat, tenant: nat, slug: Slug) {
      this.user == user && this.tenant == tenant && this.slug == slug
    }

    predicate Live(now: int) {
      !revoked && (expires.None? || expires.value > now)
    }
  }

  /** Members are in primary-key order. */
  datatype World = World(
    capabilities: set<Slug>,
    roleGrants: map<(Role, Slug), Level>,
    members: seq<Membership>,
    userGrants: seq<UserGrant>,
    superusers: set<nat>)

  datatype Stash = Stash(user: nat, tenant: nat, levels: map<Slug, Level>)

  datatype Support = Support(readWriteSettings: bool, clients: set<nat>)

  datatype Context = Context(
    stash: Option<Stash>,
    support: Option<Support>,
    client: Option<nat>,
    tenant: Option<nat>,
    now: int)
  {
    /** A firm screen or a background command: no portal, no support session, no client. */
    predicate Ordinary() {
      stash.None? && support.None? && client.None?
    }
  }

  datatype Actor = Anonymous | User(id: nat)

  datatype Failure = StashMiss | UnknownCapability

  /** The constraints the tables carry. */
  ghost predicate WellFormed(w: World) {
    && (forall i :: 0 <= i < |w.members| ==> (w.members[i].role.OfClient() <==> w.members[i].client.Some?))
    && (forall i, j :: 0 <= i < |w.members| && 0 <= j < |w.members| && SameSeat(w.members[i], w.members[j]) ==> i == j)
    && (forall key :: key in w.roleGrants ==> key.1 in w.capabilities)
    && (forall i :: 0 <= i < |w.userGrants| ==> w.userGrants[i].slug in w.capabilities)
    && LiveOnce(w.userGrants)
  }

  ghost predicate LiveOnce(grants: seq<UserGrant>) {
    forall i, j :: 0 <= i < |grants| && 0 <= j < |grants| && SameGrant(grants[i], grants[j]) ==> i == j
  }

  predicate SameSeat(a: Membership, b: Membership) {
    a.user == b.user && a.tenant == b.tenant && a.client == b.client
  }

  predicate SameGrant(a: UserGrant, b: UserGrant) {
    !a.revoked && !b.revoked && a.For(b.user, b.tenant, b.slug)
  }

  // ---------------------------------------------------------------------------------------------
  // Reads
  // ---------------------------------------------------------------------------------------------

  function FirstSeat(members: seq<Membership>, user: nat, tenant: nat, client: Option<nat>): (r: Option<Membership>)
    ensures r.Some? ==> r.value in members && r.value.active
    ensures r.Some? ==> SameSeat(r.value, Membership(0, user, tenant, client, Owner, true))
    ensures r.None? ==>
              forall m :: m in members && m.active ==> !SameSeat(m, Membership(0, user, tenant, client, Owner, true))
  {
    if members == [] then None
    else if members[0].active && SameSeat(members[0], Membership(0, user, tenant, client, Owner, true))
    then Some(members[0])
    else FirstSeat(members[1..], user, tenant, client)
  }

  function Resolved(ctx: Context, tenant: Option<nat>): Option<nat> {
    if tenant.Some? then tenant else ctx.tenant
  }

  /** `role_of`: the active role over the context's client, or on the firm side when there is none. */
  function RoleOf(w: World, ctx: Context, user: nat, tenant: Option<nat>): Option<Role> {
    var at := Resolved(ctx, tenant);
    if at.None? then None
    else
      var seat := FirstSeat(w.members, user, at.value, ctx.client);
      if seat.None? then None else Some(seat.value.role)
  }

  function RoleLevel(w: World, role: Role, slug: Slug): Level {
    if (role, slug) in w.roleGrants then w.roleGrants[(role, slug)] else NoAccess
  }

  /** The level of the last live grant read; the tables keep at most one. */
  function LiveLevel(grants: seq<UserGrant>, user: nat, tenant: nat, slug: Slug, now: int): Level {
    if grants == [] then NoAccess
    else
      var last := grants[|grants| - 1];
      if last.For(user, tenant, slug) && last.Live(now) then last.level
      else LiveLevel(grants[..|grants| - 1], user, tenant, slug, now)
  }

  function SupportLevel(s: Support, slug: Slug): Level {
    if slug in SUPPORT_READ then Full
    else if slug == SETTINGS_WRITE && s.readWriteSettings then Full
    else NoAccess
  }

  predicate StashAnswers(s: Stash, ctx: Context, actor: Actor, slug: Slug, tenant: Option<nat>) {
    && actor == User(s.user) && Resolved(ctx, tenant) == Some(s.tenant) && slug in s.levels
  }

  // ---------------------------------------------------------------------------------------------
  // The rule, one capability at a time
  // ---------------------------------------------------------------------------------------------

  /** What a user's own grant can raise an answer to: nothing for a client role. */
  function Raise(w: World, ctx: Context, user: nat, role: Role, slug: Slug, tenant: Option<nat>): Level {
    var at := Resolved(ctx, tenant);
    if role.OfClient() || at.None? then NoAccess else LiveLevel(w.userGrants, user, at.value, slug, ctx.now)
  }

  /** The per-person rule: the portal's stash, the support session, then the account itself. */
  function LevelOf(w: World, ctx: Context, actor: Actor, slug: Slug, tenant: Option<nat>): Result<Level, Failure> {
    if ctx.stash.Some? then
      if StashAnswers(ctx.stash.value, ctx, actor, slug, tenant) then Ok(ctx.stash.value.levels[slug])
      else Err(StashMiss)
    else if ctx.support.Some? then Ok(SupportLevel(ctx.support.value, slug))
    else if slug !in w.capabilities then Err(UnknownCapability)
    else
      match actor
      case Anonymous => Ok(NoAccess)
      case User(id) =>
        if id in w.superusers then Ok(Full)
        else
          var role := RoleOf(w, ctx, id, tenant);
          if role.None? then Ok(NoAccess)
          else Ok(MaxLevel(RoleLevel(w, role.value, slug), Raise(w, ctx, id, role.value, slug, tenant)))
  }

  // ---------------------------------------------------------------------------------------------
  // The same rule in batches
  // ---------------------------------------------------------------------------------------------

  type Levels = map<Slug, Level>

  function Uniform(slugs: set<Slug>, level: Level): Levels {
    map slug | slug in slugs :: level
  }

  /** One read of the user's live grants, for the capabilities the role does not already give in full. */
  function UserGrantLevels(w: World, ctx: Context, user: nat, slugs: set<Slug>, role: Role, tenant: Option<nat>)
    : Levels
  {
    var at := Resolved(ctx, tenant);
    if role.OfClient() || at.None? then map[]
    else
      map slug | slug in slugs && (exists i :: 0 <= i < |w.userGrants| && w.userGrants[i].For(user, at.value, slug)
                                               && w.userGrants[i].Live(ctx.now))
        :: LiveLevel(w.userGrants, user, at.value, slug, ctx.now)
  }

  function Get(levels: Levels, slug: Slug): Level {
    if slug in levels then levels[slug] else NoAccess
  }

  /** A member's levels: the role's grants, and one further read for those that are not already full. */
  function MemberLevels(w: World, ctx: Context, id: nat, slugs: set<Slug>, role: Role, tenant: Option<nat>): Levels {
    var resolved := map slug | slug in slugs :: RoleLevel(w, role, slug);
    var nonFull := set slug | slug in slugs && Get(resolved, slug) != Full;
    var raised := if nonFull == {} then map[] else UserGrantLevels(w, ctx, id, nonFull, role, tenant);
    map slug | slug in slugs :: MaxLevel(Get(resolved, slug), Get(raised, slug))
  }

  /** `_resolve_levels_and_role` over distinct capabilities. */
  function ResolveBatch(
    w: World, ctx: Context, actor: Actor, slugs: set<Slug>, tenant: Option<nat>, superuserRole: bool)
    : Result<(Option<Role>, Levels), Failure>
  {
    if ctx.stash.Some? then
      if forall slug :: slug in slugs ==> StashAnswers(ctx.stash.value, ctx, actor, slug, tenant)
      then Ok((None, map slug | slug in slugs :: Get(ctx.stash.value.levels, slug)))
      else Err(StashMiss)
    else if ctx.support.Some? then Ok((None, map slug | slug in slugs :: SupportLevel(ctx.support.value, slug)))
    else if !(slugs <= w.capabilities) then Err(UnknownCapability)
    else
      match actor
      case Anonymous => Ok((None, Uniform(slugs, NoAccess)))
      case User(id) =>
        if id in w.superusers then
          Ok((if superuserRole then RoleOf(w, ctx, id, tenant) else None, Uniform(slugs, Full)))
        else
          var role := RoleOf(w, ctx, id, tenant);
          if role.None? then Ok((None, Uniform(slugs, NoAccess)))
          else
            Ok((role, MemberLevels(w, ctx, id, slugs, role.value, tenant)))
  }

  lemma {:induction false} NoLiveGrant(grants: seq<UserGrant>, user: nat, tenant: nat, slug: Slug, now: int)
    requires forall i :: 0 <= i < |grants| ==> !(grants[i].For(user, tenant, slug) && grants[i].Live(now))
    ensures LiveLevel(grants, user, tenant, slug, now) == NoAccess
  {
    if grants != [] {
      NoLiveGrant(grants[..|grants| - 1], user, tenant, slug, now);
    }
  }

  lemma RaisedInBatch(
      w: World, ctx: Context, id: nat, nonFull: set<Slug>, role: Role, slug: Slug, tenant: Option<nat>)
    requires slug in nonFull
    ensures Get(UserGrantLevels(w, ctx, id, nonFull, role, tenant), slug) == Raise(w, ctx, id, role, slug, tenant)
  {
    var at := Resolved(ctx, tenant);
    if !role.OfClient() && at.Some? && slug !in UserGrantLevels(w, ctx, id, nonFull, role, tenant) {
      NoLiveGrant(w.userGrants, id, at.value, slug, ctx.now);
    }
  }

  /**
   A batch answers each capability as the per-person rule does, and fails exactly when the rule fails
   on one of them.
   */
  lemma BatchAgreesWithRule(
      w: World, ctx: Context, actor: Actor, slugs: set<Slug>, tenant: Option<nat>, superuserRole: bool)
    ensures var batch := ResolveBatch(w, ctx, actor, slugs, tenant, superuserRole);
            && (batch.Ok? <==> forall slug :: slug in slugs ==> LevelOf(w, ctx, actor, slug, tenant).Ok?)
            && (batch.Ok? ==>
                  && batch.value.1.Keys == slugs
                  && forall slug :: slug in slugs ==> LevelOf(w, ctx, actor, slug, tenant) == Ok(batch.value.1[slug]))
  {
    if ctx.stash.None? && ctx.support.None? && slugs <= w.capabilities && actor.User? && actor.id !in w.superusers {
      var role := RoleOf(w, ctx, actor.id, tenant);
      if role.Some? {
        forall slug | slug in slugs
          ensures MemberLevels(w, ctx, actor.id, slugs, role.value, tenant)[slug]
                  == MaxLevel(RoleLevel(w, role.value, slug), Raise(w, ctx, actor.id, role.value, slug, tenant))
        {
          MemberLevelIsMax(w, ctx, actor.id, slugs, role.value, slug, tenant);
        }
      }
    }
  }

  /** `granted_levels` of many is `resolve_level` of each, and fails exactly when one of them would. */
  lemma BulkAgreesWithSingle(w: World, ctx: Context, actor: Actor, slugs: set<Slug>, tenant: Option<nat>)
    ensures var bulk := ResolveBatch(w, ctx, actor, slugs, tenant, false);
            && (bulk.Ok? <==> forall slug :: slug in slugs ==> ResolveBatch(w, ctx, actor, {slug}, tenant, false).Ok?)
            && (bulk.Ok? ==> forall slug :: slug in slugs ==>
                  Get(bulk.value.1, slug) == Get(ResolveBatch(w, ctx, actor, {slug}, tenant, false).value.1, slug))
  {
    BatchAgreesWithRule(w, ctx, actor, slugs, tenant, false);
    forall slug | slug in slugs
      ensures var one := ResolveBatch(w, ctx, actor, {slug}, tenant, false);
              && (one.Ok? <==> LevelOf(w, ctx, actor, slug, tenant).Ok?)
              && (one.Ok? ==> Ok(Get(one.value.1, slug)) == LevelOf(w, ctx, actor, slug, tenant))
    {
      BatchAgreesWithRule(w, ctx, actor, {slug}, tenant, false);
      assert slug in {slug};
    }
  }

  lemma MemberLevelIsMax(
      w: World, ctx: Context, id: nat, slugs: set<Slug>, role: Role, slug: Slug, tenant: Option<nat>)
    requires slug in slugs
    ensures MemberLevels(w, ctx, id, slugs, role, tenant)[slug]
            == MaxLevel(RoleLevel(w, role, slug), Raise(w, ctx, id, role, slug, tenant))
  {
    var resolved := map s | s in slugs :: RoleLevel(w, role, s);
    var nonFull := set s | s in slugs && Get(resolved, s) != Full;
    assert Get(resolved, slug) == RoleLevel(w, role, slug);
    if RoleLevel(w, role, slug) != Full {
      assert slug in nonFull;
      RaisedInBatch(w, ctx, id, nonFull, role, slug, tenant);
    } else {
      assert slug !in nonFull;
    }
  }

  // ---------------------------------------------------------------------------------------------
  // What a user's own grants can do
  // ---------------------------------------------------------------------------------------------

  /**
   Rewriting the user grants changes no answer in the portal, in a support session or for a client
   role; for a firm role the answer never drops below the role's own.
   */
  lemma UserGrantsOnlyRaiseFirmRoles(
      w: World, grants: seq<UserGrant>, ctx: Context, actor: Actor, slug: Slug, tenant: Option<nat>)
    ensures var with', without := LevelOf(w.(userGrants := grants), ctx, actor, slug, tenant),
                                  LevelOf(w.(userGrants := []), ctx, actor, slug, tenant);
            && (with'.Ok? <==> without.Ok?)
            && (with'.Ok? ==> Rank(with'.value) >= Rank(without.value))
            && (ctx.stash.Some? || ctx.support.Some? || actor.Anonymous?
                || RoleOf(w, ctx, actor.id, tenant).None? || RoleOf(w, ctx, actor.id, tenant).value.OfClient()
                ==> with' == without)
  {
    var at := Resolved(ctx, tenant);
    if actor.User? && at.Some? {
      assert LiveLevel([], actor.id, at.value, slug, ctx.now) == NoAccess;
    }
  }

  // ---------------------------------------------------------------------------------------------
  // Acting on a record
  // ---------------------------------------------------------------------------------------------

  /** What an object says about itself: its client, who it names, and whether it is an account. */
  datatype Record = Record(client: Option<nat>, owner: Option<nat>, account: Option<nat>)

  /** Accountants by client. */
  type Assignments = set<(nat, nat)>

  predicate AttachedTo(book: Assignments, ctx: Context, id: nat, obj: Option<Record>) {
    && obj.Some? && obj.value.client.Some?
    && if ctx.client.Some? then obj.value.client == ctx.client else (id, obj.value.client.value) in book
  }

  predicate OwnRecord(id: nat, obj: Option<Record>) {
    obj.Some? && (obj.value.account == Some(id) || obj.value.owner == Some(id))
  }

  /** `can`: three levels are channels, which this answers with a refusal. */
  function Can(
    w: World, book: Assignments, ctx: Context, actor: Actor, slug: Slug, obj: Option<Record>, tenant: Option<nat>)
    : Result<bool, Failure>
  {
    match LevelOf(w, ctx, actor, slug, tenant)
    case Err(e) => Err(e)
    case Ok(level) =>
      if level == Full then Ok(true)
      else if actor.Anonymous? then Ok(false)
      else if level == Limited then Ok(AttachedTo(book, ctx, actor.id, obj))
      else if level == Own then Ok(OwnRecord(actor.id, obj))
      else Ok(false)
  }

  /** An anonymous caller acts nowhere but inside a support session, and there only on what it reads. */
  lemma AnonymousActsOnlyInSupport(
      w: World, book: Assignments, ctx: Context, slug: Slug, obj: Option<Record>, tenant: Option<nat>)
    ensures Can(w, book, ctx, Anonymous, slug, obj, tenant) == Ok(true)
            <==> ctx.stash.None? && ctx.support.Some? && SupportLevel(ctx.support.value, slug) == Full
  {
  }

  /**
   Inside a client's context, whoever may act is answered by the portal's stash, by a support session or
   as a superuser, or holds an active seat over that very client; and in every mode what may be done to
   a record at the `limited` level is confined to that client.
   */
  lemma ClientContextConfines(
      w: World, book: Assignments, ctx: Context, id: nat, slug: Slug, obj: Option<Record>, tenant: Option<nat>)
    requires ctx.client.Some? && Can(w, book, ctx, User(id), slug, obj, tenant) == Ok(true)
    ensures || ctx.stash.Some? || ctx.support.Some? || id in w.superusers
            || exists m :: m in w.members && m.active && m.user == id && m.client == ctx.client
                           && Some(m.tenant) == Resolved(ctx, tenant)
    ensures LevelOf(w, ctx, User(id), slug, tenant) == Ok(Limited) ==> obj.Some? && obj.value.client == ctx.client
  {
    var at := Resolved(ctx, tenant);
    if ctx.stash.None? && ctx.support.None? && id !in w.superusers {
      assert at.Some? && FirstSeat(w.members, id, at.value, ctx.client).Some?;
    }
  }

  // ---------------------------------------------------------------------------------------------
  // Exactly who may act
  // ---------------------------------------------------------------------------------------------

  /** Of two levels the stronger, in the order of the matrix. */
  lemma MaxIsStronger(a: Level, b: Level)
    ensures MaxLevel(a, b) ==
            if Full in {a, b} then Full
            else if Limited in {a, b} then Limited
            else if Own in {a, b} then Own
            else if InitiateApprove in {a, b} then InitiateApprove
            else if ViewConfirm in {a, b} then ViewConfirm
            else if TicketOnly in {a, b} then TicketOnly
            else NoAccess
  {
  }

  /** What an account may do at a level: anything; its clients' records; its own; and by the channels nothing. */
  predicate Reaches(level: Level, book: Assignments, ctx: Context, id: nat, obj: Option<Record>) {
    || level == Full
    || (level == Limited && obj.Some? && obj.value.client.Some?
        && (if ctx.client.None? then (id, obj.value.client.value) in book
            else obj.value.client.value == ctx.client.value))
    || (level == Own && obj.Some? && (obj.value.owner == Some(id) || obj.value.account == Some(id)))
  }

  /** In a support session exactly four capabilities are read, and one is written if the owner allowed it. */
  lemma SupportActsExactly(
      w: World, book: Assignments, ctx: Context, actor: Actor, slug: Slug, obj: Option<Record>, tenant: Option<nat>)
    requires ctx.stash.None? && ctx.support.Some?
    ensures Can(w, book, ctx, actor, slug, obj, tenant)
            == Ok(slug in {"clients.view_assigned", "clients.view_all", "cycles.review", "audit.view"}
                  || (slug == "billing.manage" && ctx.support.value.readWriteSettings))
  {
  }

  /** In the portal exactly what was stashed for this very account and firm. */
  lemma PortalActsExactly(
      w: World, book: Assignments, ctx: Context, id: nat, slug: Slug, obj: Option<Record>, tenant: Option<nat>)
    requires ctx.stash.Some?
    ensures var s := ctx.stash.value;
            Can(w, book, ctx, User(id), slug, obj, tenant)
            == if id == s.user && (if tenant.Some? then tenant else ctx.tenant) == Some(s.tenant) && slug in s.levels
               then Ok(Reaches(s.levels[slug], book, ctx, id, obj)) else Err(StashMiss)
  {
  }

  /** The account's one active seat that counts here: of this firm, over the context's client or the firm itself. */
  predicate SeatHere(w: World, ctx: Context, id: nat, tenant: Option<nat>, m: Membership) {
    && m in w.members && m.active && m.user == id && m.client == ctx.client
    && (if tenant.Some? then tenant else ctx.tenant) == Some(m.tenant)
  }

  lemma RoleIsTheSeats(w: World, ctx: Context, id: nat, tenant: Option<nat>, m: Membership)
    requires WellFormed(w)
    ensures SeatHere(w, ctx, id, tenant, m) ==> RoleOf(w, ctx, id, tenant) == Some(m.role)
    ensures RoleOf(w, ctx, id, tenant).Some? ==> exists n :: SeatHere(w, ctx, id, tenant, n)
  {
    var at := Resolved(ctx, tenant);
    if at.Some? {
      var seat := FirstSeat(w.members, id, at.value, ctx.client);
      if SeatHere(w, ctx, id, tenant, m) {
        assert SameSeat(m, Membership(0, id, at.value, ctx.client, Owner, true));
        assert SameSeat(seat.value, m);
      }
      if seat.Some? {
        assert SeatHere(w, ctx, id, tenant, seat.value);
      }
    }
  }

  /** A grant of the seat's account in the seat's firm, neither revoked nor expired. */
  predicate GrantFor(g: UserGrant, m: Membership, slug: Slug, now: int) {
    && g.user == m.user && g.tenant == m.tenant && g.slug == slug
    && !g.revoked && (g.expires.None? || now < g.expires.value)
  }

  lemma {:induction false} LiveLevelIsTheGrants(
      grants: seq<UserGrant>, m: Membership, slug: Slug, now: int, g: UserGrant)
    requires LiveOnce(grants) && g in grants && GrantFor(g, m, slug, now)
    ensures LiveLevel(grants, m.user, m.tenant, slug, now) == g.level
  {
    var n := |grants| - 1;
    var i :| 0 <= i < |grants| && grants[i] == g;
    if i < n {
      assert !SameGrant(grants[i], grants[n]);
      assert grants[..n][i] == g;
      LiveLevelIsTheGrants(grants[..n], m, slug, now, g);
    }
  }

  /** The level of a seat: its role's in the matrix, and for a role of the firm the account's own live grant. */
  ghost predicate SeatLevel(w: World, ctx: Context, m: Membership, slug: Slug, level: Level) {
    var base := if (m.role, slug) in w.roleGrants then w.roleGrants[(m.role, slug)] else NoAccess;
    && (forall g :: g in w.userGrants && GrantFor(g, m, slug, ctx.now) && !m.role.OfClient() ==>
          level == MaxLevel(base, g.level))
    && ((m.role.OfClient() || forall g :: g in w.userGrants ==> !GrantFor(g, m, slug, ctx.now)) ==> level == base)
  }

  lemma SeatAnswers(w: World, ctx: Context, id: nat, slug: Slug, tenant: Option<nat>, m: Membership)
    requires WellFormed(w) && SeatHere(w, ctx, id, tenant, m)
    ensures SeatLevel(w, ctx, m, slug, MaxLevel(RoleLevel(w, m.role, slug), Raise(w, ctx, id, m.role, slug, tenant)))
  {
    forall g | g in w.userGrants && GrantFor(g, m, slug, ctx.now) && !m.role.OfClient()
      ensures Raise(w, ctx, id, m.role, slug, tenant) == g.level
    {
      LiveLevelIsTheGrants(w.userGrants, m, slug, ctx.now, g);
    }
    if !m.role.OfClient() && forall g :: g in w.userGrants ==> !GrantFor(g, m, slug, ctx.now) {
      NoLiveGrant(w.userGrants, m.user, m.tenant, slug, ctx.now);
    }
  }

  /**
   On a firm screen, for a capability of the matrix: a superuser may do anything; anyone else what an active
   seat here reaches at its level, and nothing without one.
   */
  lemma AccountActsExactly(
      w: World, book: Assignments, ctx: Context, id: nat, slug: Slug, obj: Option<Record>, tenant: Option<nat>,
      m: Membership, level: Level)
    requires WellFormed(w) && ctx.stash.None? && ctx.support.None? && slug in w.capabilities
    ensures id in w.superusers ==> Can(w, book, ctx, User(id), slug, obj, tenant) == Ok(true)
    ensures id !in w.superusers && SeatHere(w, ctx, id, tenant, m) && SeatLevel(w, ctx, m, slug, level) ==>
              Can(w, book, ctx, User(id), slug, obj, tenant) == Ok(Reaches(level, book, ctx, id, obj))
    ensures id !in w.superusers && (forall n :: !SeatHere(w, ctx, id, tenant, n)) ==>
              Can(w, book, ctx, User(id), slug, obj, tenant) == Ok(false)
  {
    RoleIsTheSeats(w, ctx, id, tenant, m);
    if id !in w.superusers && SeatHere(w, ctx, id, tenant, m) && SeatLevel(w, ctx, m, slug, level) {
      SeatAnswers(w, ctx, id, slug, tenant, m);
      var stored := MaxLevel(RoleLevel(w, m.role, slug), Raise(w, ctx, id, m.role, slug, tenant));
      OneSeatLevel(w, ctx, m, slug, level, stored);
    }
  }

  lemma OneSeatLevel(w: World, ctx: Context, m: Membership, slug: Slug, a: Level, b: Level)
    requires SeatLevel(w, ctx, m, slug, a) && SeatLevel(w, ctx, m, slug, b)
    ensures a == b
  {
    if g :| g in w.userGrants && GrantFor(g, m, slug, ctx.now) && !m.role.OfClient() {
      assert a == b;
    }
  }

  // ---------------------------------------------------------------------------------------------
  // How wide a portfolio is
  // ---------------------------------------------------------------------------------------------

  datatype Scope = NoClients | Assigned | All

  function ScopeForLevels(role: Option<Role>, levels: Levels): Scope {
    if Get(levels, VIEW_ASSIGNED) != Full then NoClients
    else if Get(levels, VIEW_ALL) != Full then Assigned
    else if role.Some? && role.value.FirmWide() then All
    else Assigned
  }

  function PortfolioScope(w: World, ctx: Context, actor: Actor, tenant: Option<nat>): Result<Scope, Failure> {
    match ResolveBatch(w, ctx, actor, {VIEW_ASSIGNED, VIEW_ALL}, tenant, true)
    case Err(e) => Err(e)
    case Ok((role, levels)) => Ok(ScopeForLevels(role, levels))
  }

  /** Both ceilings of the matrix and a firm-wide role: the only way to the whole firm. */
  lemma AllNeedsEveryCeiling(w: World, ctx: Context, actor: Actor, tenant: Option<nat>)
    ensures PortfolioScope(w, ctx, actor, tenant) == Ok(All)
            <==> && ctx.stash.None? && ctx.support.None? && actor.User?
                 && LevelOf(w, ctx, actor, VIEW_ASSIGNED, tenant) == Ok(Full)
                 && LevelOf(w, ctx, actor, VIEW_ALL, tenant) == Ok(Full)
                 && RoleOf(w, ctx, actor.id, tenant).Some? && RoleOf(w, ctx, actor.id, tenant).value.FirmWide()
  {
    BatchAgreesWithRule(w, ctx, actor, {VIEW_ASSIGNED, VIEW_ALL}, tenant, true);
  }

  function VisibleClients(
    w: World, book: Assignments, clients: set<nat>, ctx: Context, actor: Actor, tenant: Option<nat>)
    : Result<set<nat>, Failure>
  {
    match PortfolioScope(w, ctx, actor, tenant)
    case Err(e) => Err(e)
    case Ok(scope) =>
      if ctx.support.Some? then Ok(clients * ctx.support.value.clients)
      else if scope == All then Ok(clients)
      else if scope == Assigned && actor.User? then Ok(set c | c in clients && (actor.id, c) in book)
      else Ok({})
  }

  /**
   A client is shown exactly to a support session whose grant names it, to whoever holds both ceilings in full
   and a firm-wide role, and to the account it is assigned to that holds the first ceiling in full.
   */
  lemma VisibleExactly(
      w: World, book: Assignments, clients: set<nat>, ctx: Context, actor: Actor, tenant: Option<nat>, c: nat)
    requires VisibleClients(w, book, clients, ctx, actor, tenant).Ok?
    ensures c in VisibleClients(w, book, clients, ctx, actor, tenant).value
            <==> c in clients
                 && if ctx.support.Some? then c in ctx.support.value.clients
                    else
                      && actor.User? && LevelOf(w, ctx, actor, VIEW_ASSIGNED, tenant) == Ok(Full)
                      && ((actor.id, c) in book || FirmWideAccount(w, ctx, actor.id, tenant))
  {
    BatchAgreesWithRule(w, ctx, actor, {VIEW_ASSIGNED, VIEW_ALL}, tenant, true);
    AllNeedsEveryCeiling(w, ctx, actor, tenant);
  }

  /** Outside the portal: the second ceiling in full, and an owner's or operations administrator's role. */
  predicate FirmWideAccount(w: World, ctx: Context, id: nat, tenant: Option<nat>) {
    && ctx.stash.None? && LevelOf(w, ctx, User(id), VIEW_ALL, tenant) == Ok(Full)
    && RoleOf(w, ctx, id, tenant) in {Some(Owner), Some(OperationsAdmin)}
  }

  // ---------------------------------------------------------------------------------------------
  // The firm-wide roster
  // ---------------------------------------------------------------------------------------------

  predicate FirmWideSeat(m: Membership) {
    m.active && m.client.None? && m.role.FirmWide()
  }

  predicate RaisedToFull(w: World, ctx: Context, m: Membership, slug: Slug) {
    exists i :: 0 <= i < |w.userGrants| && w.userGrants[i].For(m.user, m.tenant, slug) && w.userGrants[i].Live(ctx.now)
                && w.userGrants[i].level == Full
  }

  predicate HoldsInFull(w: World, ctx: Context, m: Membership, slug: Slug) {
    m.user in w.superusers || RoleLevel(w, m.role, slug) == Full || RaisedToFull(w, ctx, m, slug)
  }

  predicate OnRoster(w: World, ctx: Context, m: Membership) {
    ctx.Ordinary() && FirmWideSeat(m) && HoldsInFull(w, ctx, m, VIEW_ASSIGNED) && HoldsInFull(w, ctx, m, VIEW_ALL)
  }

  lemma {:induction false} LiveLevelIsFull(grants: seq<UserGrant>, user: nat, tenant: nat, slug: Slug, now: int)
    requires LiveOnce(grants)
    ensures LiveLevel(grants, user, tenant, slug, now) == Full
            <==> exists i :: 0 <= i < |grants| && grants[i].For(user, tenant, slug) && grants[i].Live(now)
                             && grants[i].level == Full
  {
    if grants != [] {
      var n := |grants| - 1;
      LiveLevelIsFull(grants[..n], user, tenant, slug, now);
      if grants[n].For(user, tenant, slug) && grants[n].Live(now) {
        assert forall i :: 0 <= i < n && grants[i].For(user, tenant, slug) && grants[i].Live(now)
                           ==> SameGrant(grants[i], grants[n]);
      } else {
        assert forall i :: 0 <= i < n ==> grants[..n][i] == grants[i];
      }
    }
  }

  lemma SeatIsTheRole(w: World, ctx: Context, m: Membership)
    requires WellFormed(w) && m in w.members && m.active && m.client.None? && ctx.client.None?
    ensures RoleOf(w, ctx, m.user, Some(m.tenant)) == Some(m.role)
  {
    var seat := FirstSeat(w.members, m.user, m.tenant, None);
    assert SameSeat(m, Membership(0, m.user, m.tenant, None, Owner, true));
    assert SameSeat(seat.value, m);
  }

  lemma SeatLevelIsFull(w: World, ctx: Context, m: Membership, slug: Slug)
    requires WellFormed(w) && m in w.members && FirmWideSeat(m) && ctx.Ordinary() && slug in w.capabilities
    ensures LevelOf(w, ctx, User(m.user), slug, Some(m.tenant)) == Ok(Full) <==> HoldsInFull(w, ctx, m, slug)
  {
    SeatIsTheRole(w, ctx, m);
    LiveLevelIsFull(w.userGrants, m.user, m.tenant, slug, ctx.now);
  }

  /** A client's context never shows a firm-wide role. */
  lemma ClientSeatIsNotFirmWide(w: World, ctx: Context, user: nat, tenant: Option<nat>)
    requires WellFormed(w) && ctx.client.Some?
    ensures RoleOf(w, ctx, user, tenant).Some? ==> !RoleOf(w, ctx, user, tenant).value.FirmWide()
  {
  }

  /**
   With both ceilings in the matrix, the roster selects exactly the active firm seats whose own portfolio
   scope answers the whole firm, in every mode and for superusers and raised or expired grants alike.
   */
  lemma RosterIsScopeAll(w: World, ctx: Context, m: Membership)
    requires WellFormed(w) && m in w.members && {VIEW_ASSIGNED, VIEW_ALL} <= w.capabilities
    ensures OnRoster(w, ctx, m)
            <==> m.active && m.client.None? && PortfolioScope(w, ctx, User(m.user), Some(m.tenant)) == Ok(All)
  {
    AllNeedsEveryCeiling(w, ctx, User(m.user), Some(m.tenant));
    if ctx.client.Some? {
      ClientSeatIsNotFirmWide(w, ctx, m.user, Some(m.tenant));
    } else if m.active && m.client.None? {
      SeatIsTheRole(w, ctx, m);
      if ctx.Ordinary() && FirmWideSeat(m) {
        SeatLevelIsFull(w, ctx, m, VIEW_ASSIGNED);
        SeatLevelIsFull(w, ctx, m, VIEW_ALL);
      }
    }
  }

  /** Without both ceilings in the matrix, the two part exactly on a superuser's firm-wide seat. */
  lemma RosterPartsOnUnknownCeiling(w: World, ctx: Context, m: Membership)
    requires WellFormed(w) && m in w.members
    ensures (OnRoster(w, ctx, m)
             <==> m.active && m.client.None? && PortfolioScope(w, ctx, User(m.user), Some(m.tenant)) == Ok(All))
            <==> {VIEW_ASSIGNED, VIEW_ALL} <= w.capabilities
                 || !(ctx.Ordinary() && FirmWideSeat(m) && m.user in w.superusers)
  {
    if {VIEW_ASSIGNED, VIEW_ALL} <= w.capabilities {
      RosterIsScopeAll(w, ctx, m);
    } else {
      AllNeedsEveryCeiling(w, ctx, User(m.user), Some(m.tenant));
      assert VIEW_ASSIGNED !in w.capabilities || VIEW_ALL !in w.capabilities;
    }
  }

  function Keep(ms: seq<Membership>, p: Membership -> bool): (r: seq<Membership>)
    ensures forall m :: m in r <==> m in ms && p(m)
  {
    if ms == [] then []
    else if p(ms[0]) then [ms[0]] + Keep(ms[1..], p)
    else Keep(ms[1..], p)
  }

  lemma {:induction false} KeepTwice(
      ms: seq<Membership>, p: Membership -> bool, q: Membership -> bool, r: Membership -> bool)
    requires forall m :: m in ms ==> (r(m) <==> p(m) && q(m))
    ensures Keep(Keep(ms, p), q) == Keep(ms, r)
  {
    if ms != [] {
      KeepTwice(ms[1..], p, q, r);
      if p(ms[0]) {
        assert Keep(ms, p)[1..] == Keep(ms[1..], p);
      }
    }
  }

  /** A firm-wide seat that holds the first `n` of the two ceilings. */
  function Narrowed(w: World, ctx: Context, n: nat): Membership -> bool {
    m =>
      && FirmWideSeat(m)
      && (n >= 1 ==> HoldsInFull(w, ctx, m, VIEW_ASSIGNED))
      && (n >= 2 ==> HoldsInFull(w, ctx, m, VIEW_ALL))
  }

  /** The roster, narrowed once a ceiling, in the order it came. */
  method FirmWideMemberships(w: World, ctx: Context, memberships: seq<Membership>) returns (rows: seq<Membership>)
    ensures rows == Keep(memberships, m => OnRoster(w, ctx, m))
    ensures forall m :: m in rows <==> m in memberships && OnRoster(w, ctx, m)
  {
    if ctx.support.Some? || ctx.stash.Some? || ctx.client.Some? {
      NobodyKept(memberships, m => OnRoster(w, ctx, m));
      return [];
    }
    rows := Keep(memberships, FirmWideSeat);
    KeepTwice(memberships, m => true, FirmWideSeat, Narrowed(w, ctx, 0));
    KeepsAll(memberships);
    var actions := [VIEW_ASSIGNED, VIEW_ALL];
    for i := 0 to |actions|
      invariant rows == Keep(memberships, Narrowed(w, ctx, i))
    {
      rows := Keep(rows, m => HoldsInFull(w, ctx, m, actions[i]));
      KeepTwice(memberships, Narrowed(w, ctx, i), m => HoldsInFull(w, ctx, m, actions[i]), Narrowed(w, ctx, i + 1));
    }
    KeepTwice(memberships, m => true, Narrowed(w, ctx, 2), m => OnRoster(w, ctx, m));
  }

  lemma {:induction false} KeepsAll(ms: seq<Membership>)
    ensures Keep(ms, m => true) == ms
  {
    if ms != [] {
      KeepsAll(ms[1..]);
    }
  }

  lemma NobodyKept(ms: seq<Membership>, p: Membership -> bool)
    requires forall m :: m in ms ==> !p(m)
    ensures Keep(ms, p) == []
  {
    if Keep(ms, p) != [] {
      assert Keep(ms, p)[0] in Keep(ms, p);
    }
  }
}
