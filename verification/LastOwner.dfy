/**
 The last-owner rule under interleaving: deactivation discovers its candidates without a lock, then
 locks their users, counts the owners, and writes. Each of the four is a separate step of one call.

 One firm's seats, keyed by primary key. A call sees the firm's rows only while its actor holds an active
 firm-side seat there. Blocking on a lock is a step that is not yet enabled.
 */
module LastOwner {
  /** `administers`: the role, or a live raise, holds the roster capability in full. */
  datatype Seat = Seat(user: nat, firmSide: bool, owner: bool, administers: bool, active: bool)
  {
    predicate ActiveOwner() {
      firmSide && owner && active
    }

    predicate SeatOf(user: nat) {
      firmSide && active && this.user == user
    }
  }

  datatype Answer = Deactivated | OwnAccess | Denied | LastOne

  datatype Phase = Discovered | Locked | Counted | Done(answer: Answer)

  /** One deactivation in flight; `users` are the users it asked for when it discovered `found`. */
  datatype Call = Call(actor: nat, target: nat, found: set<nat>, users: set<nat>, phase: Phase)
  {
    predicate Holds() {
      phase == Locked || phase == Counted
    }

    /** Still able to write: past its lock, or waiting with its target among what it discovered. */
    predicate Live() {
      Holds() || (phase == Discovered && target in found)
    }
  }

  datatype Firm = Firm(seats: map<nat, Seat>, calls: map<nat, Call>, superusers: set<nat>)

  /** `enabled` is whether the actor's account is active when it is read under the lock. */
  datatype Step =
    | Discover(call: nat, actor: nat, target: nat)
    | Lock(call: nat, enabled: bool)
    | Count(call: nat)
    | Write(call: nat)
    | Reactivate(actor: nat, target: nat, enabled: bool)

  function ActiveOwners(f: Firm): set<nat> {
    set pk | pk in f.seats && f.seats[pk].ActiveOwner()
  }

  /** `for_user`: the firm's rows exist for an account with an active firm-side seat, superuser or not. */
  predicate Sees(f: Firm, user: nat) {
    exists pk :: pk in f.seats && f.seats[pk].SeatOf(user)
  }

  /** `can(actor, "users.create")`: a superuser, or an active firm-side seat whose role administers. */
  predicate MayAdminister(f: Firm, user: nat) {
    user in f.superusers || exists pk :: pk in f.seats && f.seats[pk].SeatOf(user) && f.seats[pk].administers
  }

  /** The owners a call's own queries answer. */
  function VisibleOwners(f: Firm, user: nat): set<nat> {
    if Sees(f, user) then ActiveOwners(f) else {}
  }

  /** No call that holds its locks holds one of these users. */
  predicate Free(f: Firm, users: set<nat>) {
    forall id :: id in f.calls && f.calls[id].Holds() ==> f.calls[id].users !! users
  }

  function UsersOf(f: Firm, found: set<nat>): set<nat>
    requires found <= f.seats.Keys
  {
    set pk | pk in found :: f.seats[pk].user
  }

  function Begin(f: Firm, actor: nat, target: nat): Call
    requires target in f.seats
  {
    if f.seats[target].user == actor then Call(actor, target, {}, {}, Done(OwnAccess))
    else
      var found := if Sees(f, actor) then {target} + ActiveOwners(f) else {};
      Call(actor, target, found, {actor} + UsersOf(f, found), Discovered)
  }

  /** Under the locks: the target is still found and seen, the account is active, and it may administer. */
  predicate Granted(f: Firm, c: Call, enabled: bool) {
    c.target in c.found && c.target in f.seats && Sees(f, c.actor) && enabled && MayAdminister(f, c.actor)
  }

  function Advance(f: Firm, id: nat, phase: Phase): Firm
    requires id in f.calls
  {
    f.(calls := f.calls[id := f.calls[id].(phase := phase)])
  }

  function SetActive(f: Firm, pk: nat, active: bool): Firm
    requires pk in f.seats
  {
    f.(seats := f.seats[pk := f.seats[pk].(active := active)])
  }

  function After(f: Firm, step: Step): Firm {
    match step
    case Discover(id, actor, target) =>
      if id in f.calls || target !in f.seats || !f.seats[target].firmSide then f
      else f.(calls := f.calls[id := Begin(f, actor, target)])
    case Lock(id, enabled) =>
      if id !in f.calls || f.calls[id].phase != Discovered || !Free(f, f.calls[id].users) then f
      else Advance(f, id, if Granted(f, f.calls[id], enabled) then Locked else Done(Denied))
    case Count(id) =>
      if id !in f.calls || f.calls[id].phase != Locked then f
      else
        var owners := VisibleOwners(f, f.calls[id].actor);
        Advance(f, id, if f.calls[id].target in owners && |owners| <= 1 then Done(LastOne) else Counted)
    case Write(id) =>
      if id !in f.calls || f.calls[id].phase != Counted || f.calls[id].target !in f.seats then f
      else SetActive(Advance(f, id, Done(Deactivated)), f.calls[id].target, false)
    case Reactivate(actor, target, enabled) =>
      if target !in f.seats || !f.seats[target].firmSide || !Free(f, {actor, f.seats[target].user})
         || !enabled || !MayAdminister(f, actor)
      then f
      else SetActive(f, target, true)
  }

  function Run(f: Firm, steps: seq<Step>): Firm {
    if steps == [] then f else After(Run(f, steps[..|steps| - 1]), steps[|steps| - 1])
  }

  // ---------------------------------------------------------------------------------------------
  // What the locks keep, whatever the schedule
  // ---------------------------------------------------------------------------------------------

  /** A live call asked for its actor and its target's user, and does not target its own actor. */
  ghost predicate UsersAsked(f: Firm) {
    forall id :: id in f.calls && f.calls[id].Live() ==>
                   && f.calls[id].actor in f.calls[id].users && f.calls[id].target in f.seats
                   && f.seats[f.calls[id].target].user in f.calls[id].users
                   && f.seats[f.calls[id].target].user != f.calls[id].actor
  }

  ghost predicate HoldersApart(f: Firm) {
    forall i, j :: i in f.calls && j in f.calls && f.calls[i].Holds() && f.calls[j].Holds() && i != j ==>
                     f.calls[i].users !! f.calls[j].users
  }

  predicate Entitled(f: Firm, user: nat) {
    Sees(f, user) && MayAdminister(f, user)
  }

  /** While a call holds its locks its actor keeps the seat that let it in. */
  ghost predicate ActorsEntitled(f: Firm) {
    forall id :: id in f.calls && f.calls[id].Holds() ==> Entitled(f, f.calls[id].actor)
  }

  ghost predicate LocksKept(f: Firm) {
    UsersAsked(f) && HoldersApart(f) && ActorsEntitled(f)
  }

  lemma SameSeats(f: Firm, g: Firm)
    requires f.seats == g.seats && f.superusers == g.superusers
    ensures ActiveOwners(f) == ActiveOwners(g)
    ensures forall user :: (Sees(f, user) <==> Sees(g, user)) && (Entitled(f, user) <==> Entitled(g, user))
  {
  }

  /** Removing another account's seat, or bringing one back, leaves an entitled account entitled. */
  lemma StaysEntitled(f: Firm, g: Firm, pk: nat, active: bool, user: nat)
    requires pk in f.seats && g.superusers == f.superusers && g.seats == f.seats[pk := f.seats[pk].(active := active)]
    requires Entitled(f, user) && (active || f.seats[pk].user != user)
    ensures Entitled(g, user)
  {
    var p :| p in f.seats && f.seats[p].SeatOf(user);
    assert g.seats[p].SeatOf(user);
    if user !in f.superusers {
      var q :| q in f.seats && f.seats[q].SeatOf(user) && f.seats[q].administers;
      assert g.seats[q].SeatOf(user) && g.seats[q].administers;
    }
  }

  lemma BeginAsks(f: Firm, actor: nat, target: nat)
    requires target in f.seats
    ensures var c := Begin(f, actor, target);
            c.Live() ==> actor in c.users && f.seats[target].user in c.users && f.seats[target].user != actor
  {
  }

  lemma DiscoverKeepsLocks(f: Firm, id: nat, actor: nat, target: nat)
    requires LocksKept(f)
    ensures LocksKept(After(f, Discover(id, actor, target)))
  {
    var g := After(f, Discover(id, actor, target));
    if g != f {
      SameSeats(f, g);
      BeginAsks(f, actor, target);
    }
  }

  lemma LockKeepsLocks(f: Firm, id: nat, enabled: bool)
    requires LocksKept(f)
    ensures LocksKept(After(f, Lock(id, enabled)))
  {
    SameSeats(f, After(f, Lock(id, enabled)));
  }

  lemma WriteKeepsLocks(f: Firm, id: nat)
    requires LocksKept(f)
    ensures LocksKept(After(f, Write(id)))
  {
    var g := After(f, Write(id));
    if g != f {
      var target := f.calls[id].target;
      forall i | i in g.calls && g.calls[i].Holds()
        ensures Entitled(g, g.calls[i].actor)
      {
        assert f.calls[i].users !! f.calls[id].users;
        StaysEntitled(f, g, target, false, f.calls[i].actor);
      }
    }
  }

  lemma ReactivateKeepsLocks(f: Firm, actor: nat, target: nat, enabled: bool)
    requires LocksKept(f)
    ensures LocksKept(After(f, Reactivate(actor, target, enabled)))
  {
    var g := After(f, Reactivate(actor, target, enabled));
    if g != f {
      forall i | i in g.calls && g.calls[i].Holds()
        ensures Entitled(g, g.calls[i].actor)
      {
        StaysEntitled(f, g, target, true, f.calls[i].actor);
      }
    }
  }

  lemma StepKeepsLocks(f: Firm, step: Step)
    requires LocksKept(f)
    ensures LocksKept(After(f, step))
  {
    match step
    case Discover(id, actor, target) => DiscoverKeepsLocks(f, id, actor, target);
    case Lock(id, enabled) => LockKeepsLocks(f, id, enabled);
    case Count(id) => SameSeats(f, After(f, Count(id)));
    case Write(id) => WriteKeepsLocks(f, id);
    case Reactivate(actor, target, enabled) => ReactivateKeepsLocks(f, actor, target, enabled);
  }

  /** Under its locks a call counts every active owner there is. */
  lemma HolderSeesOwners(f: Firm, id: nat)
    requires LocksKept(f) && id in f.calls && f.calls[id].Holds()
    ensures VisibleOwners(f, f.calls[id].actor) == ActiveOwners(f)
  {
    assert Entitled(f, f.calls[id].actor);
  }

  // ---------------------------------------------------------------------------------------------
  // What each step asks
  // ---------------------------------------------------------------------------------------------

  /** The account holds a working seat of the firm. */
  predicate Seated(f: Firm, user: nat) {
    exists pk :: pk in f.seats && f.seats[pk].firmSide && f.seats[pk].active && f.seats[pk].user == user
  }

  /** The account is a superuser, or holds a working seat of the firm that administers the roster. */
  predicate Administers(f: Firm, user: nat) {
    || user in f.superusers
    || exists pk :: pk in f.seats && f.seats[pk].firmSide && f.seats[pk].active && f.seats[pk].user == user
                    && f.seats[pk].administers
  }

  /** The seat is a working owner's. */
  predicate OwnerAt(f: Firm, pk: nat) {
    pk in f.seats && f.seats[pk].firmSide && f.seats[pk].owner && f.seats[pk].active
  }

  lemma AuthorityMeans(f: Firm, user: nat)
    ensures Sees(f, user) <==> Seated(f, user)
    ensures MayAdminister(f, user) <==> Administers(f, user)
    ensures Entitled(f, user) <==> Seated(f, user) && Administers(f, user)
  {
    if pk :| pk in f.seats && f.seats[pk].SeatOf(user) && f.seats[pk].administers {
      assert f.seats[pk].firmSide && f.seats[pk].active && f.seats[pk].user == user;
    }
    if pk :| pk in f.seats && f.seats[pk].firmSide && f.seats[pk].active && f.seats[pk].user == user
             && f.seats[pk].administers {
      assert f.seats[pk].SeatOf(user);
    }
    if pk :| pk in f.seats && f.seats[pk].SeatOf(user) {
      assert f.seats[pk].firmSide && f.seats[pk].active && f.seats[pk].user == user;
    }
    if pk :| pk in f.seats && f.seats[pk].firmSide && f.seats[pk].active && f.seats[pk].user == user {
      assert f.seats[pk].SeatOf(user);
    }
  }

  /** A discovery finds its target and every working owner, or for an unseated actor nothing; not one's own seat. */
  lemma DiscoveredExactly(f: Firm, id: nat, actor: nat, target: nat, pk: nat)
    requires id !in f.calls && target in f.seats && f.seats[target].firmSide
    ensures var g := After(f, Discover(id, actor, target));
            && g.seats == f.seats && id in g.calls && g.calls[id].actor == actor && g.calls[id].target == target
            && (g.calls[id].phase == Done(OwnAccess) <==> f.seats[target].user == actor)
            && (g.calls[id].phase == Discovered <==> f.seats[target].user != actor)
            && (f.seats[target].user != actor ==>
                  (pk in g.calls[id].found <==> Seated(f, actor) && (pk == target || OwnerAt(f, pk))))
  {
    AuthorityMeans(f, actor);
  }

  /** Under free locks a waiting call goes on exactly if its target was found and its actor still has authority. */
  lemma LockedExactly(f: Firm, id: nat, enabled: bool)
    requires id in f.calls && f.calls[id].phase == Discovered && Free(f, f.calls[id].users)
    ensures var c, g := f.calls[id], After(f, Lock(id, enabled));
            && g.seats == f.seats && g.calls == f.calls[id := c.(phase := g.calls[id].phase)]
            && (g.calls[id].phase == Locked
                <==> c.target in c.found && c.target in f.seats && enabled
                     && Seated(f, c.actor) && Administers(f, c.actor))
            && (g.calls[id].phase != Locked ==> g.calls[id].phase == Done(Denied))
  {
    AuthorityMeans(f, f.calls[id].actor);
  }

  lemma OnlyOwnerMeans(f: Firm, target: nat)
    ensures ActiveOwners(f) == {target}
            <==> OwnerAt(f, target) && forall other :: other != target ==> !OwnerAt(f, other)
  {
    var owners := ActiveOwners(f);
    assert forall pk :: pk in owners <==> OwnerAt(f, pk);
    if owners == {target} {
      assert target in owners;
      assert forall other :: other != target ==> other !in owners;
    }
  }

  lemma SoleMember(owners: set<nat>, target: nat)
    ensures target in owners && |owners| <= 1 <==> owners == {target}
  {
    if target in owners && |owners| <= 1 {
      assert owners == {target} + (owners - {target});
      assert |owners - {target}| == 0;
    }
  }

  /** The count refuses exactly the last working owner of the firm. */
  lemma CountedExactly(f: Firm, id: nat)
    requires LocksKept(f) && id in f.calls && f.calls[id].phase == Locked
    ensures var target, g := f.calls[id].target, After(f, Count(id));
            && g.seats == f.seats
            && (g.calls[id].phase == Done(LastOne)
                <==> OwnerAt(f, target) && forall other :: other != target ==> !OwnerAt(f, other))
            && (g.calls[id].phase != Done(LastOne) ==> g.calls[id].phase == Counted)
  {
    HolderSeesOwners(f, id);
    OnlyOwnerMeans(f, f.calls[id].target);
    SoleMember(ActiveOwners(f), f.calls[id].target);
  }

  // ---------------------------------------------------------------------------------------------
  // Undisturbed schedules
  // ---------------------------------------------------------------------------------------------

  predicate TargetsOwner(f: Firm, id: nat) {
    id in f.calls && f.calls[id].Holds() && f.calls[id].target in ActiveOwners(f)
  }

  /** A waiting call that can still be let in has discovered every owner there still is. */
  ghost predicate DiscoveriesFresh(f: Firm) {
    forall id :: id in f.calls && f.calls[id].phase == Discovered && f.calls[id].Live() ==>
                   forall pk :: pk in ActiveOwners(f) ==> f.seats[pk].user in f.calls[id].users
  }

  /** Of all calls past their lock, at most one can still remove an owner. */
  ghost predicate OneRemover(f: Firm) {
    forall i, j :: TargetsOwner(f, i) && TargetsOwner(f, j) ==> i == j
  }

  /** A call past its count that removes an owner leaves another. */
  ghost predicate CountsHold(f: Firm) {
    forall id :: TargetsOwner(f, id) && f.calls[id].phase == Counted ==> |ActiveOwners(f)| >= 2
  }

  ghost predicate Safe(f: Firm) {
    ActiveOwners(f) != {} && LocksKept(f) && OneRemover(f) && CountsHold(f)
  }

  /** An owner's seat comes back while some call stands between its discovery and its lock. */
  predicate Disturbs(f: Firm, step: Step) {
    && step.Reactivate? && step.target in f.seats && f.seats[step.target].owner
    && exists id :: id in f.calls && f.calls[id].phase == Discovered
  }

  lemma DiscoverKeeps(f: Firm, id: nat, actor: nat, target: nat)
    requires Safe(f) && DiscoveriesFresh(f)
    ensures Safe(After(f, Discover(id, actor, target))) && DiscoveriesFresh(After(f, Discover(id, actor, target)))
  {
    var g := After(f, Discover(id, actor, target));
    DiscoverKeepsLocks(f, id, actor, target);
    if g != f {
      SameSeats(f, g);
      assert forall i :: TargetsOwner(g, i) ==> TargetsOwner(f, i);
    }
  }

  /** Locking with a fresh discovery: the target of any other holder is no longer an owner. */
  lemma LockKeeps(f: Firm, id: nat, enabled: bool)
    requires Safe(f) && DiscoveriesFresh(f)
    ensures Safe(After(f, Lock(id, enabled))) && DiscoveriesFresh(After(f, Lock(id, enabled)))
  {
    var g := After(f, Lock(id, enabled));
    LockKeepsLocks(f, id, enabled);
    if g != f {
      SameSeats(f, g);
      if g.calls[id].phase == Locked {
        assert forall i :: i in f.calls && f.calls[i].Holds() ==> f.calls[i].users !! f.calls[id].users;
        assert forall i :: TargetsOwner(g, i) ==> i == id;
      } else {
        assert forall i :: TargetsOwner(g, i) ==> TargetsOwner(f, i);
      }
    }
  }

  lemma CountKeeps(f: Firm, id: nat)
    requires Safe(f) && DiscoveriesFresh(f)
    ensures Safe(After(f, Count(id))) && DiscoveriesFresh(After(f, Count(id)))
  {
    var g := After(f, Count(id));
    if g != f {
      SameSeats(f, g);
      HolderSeesOwners(f, id);
      assert forall i :: TargetsOwner(g, i) ==> TargetsOwner(f, i);
    }
  }

  /** What a write leaves of the owners, and of the calls that can remove one. */
  lemma WriteEffect(f: Firm, id: nat)
    requires id in f.calls && f.calls[id].phase == Counted && f.calls[id].target in f.seats
    ensures var g := After(f, Write(id));
            && ActiveOwners(g) == ActiveOwners(f) - {f.calls[id].target}
            && forall i :: TargetsOwner(g, i) ==> TargetsOwner(f, i) && i != id
  {
    var g := After(f, Write(id));
    assert ActiveOwners(g) == ActiveOwners(f) - {f.calls[id].target};
  }

  lemma WriteKeeps(f: Firm, id: nat)
    requires Safe(f) && DiscoveriesFresh(f)
    ensures Safe(After(f, Write(id))) && DiscoveriesFresh(After(f, Write(id)))
  {
    var g := After(f, Write(id));
    WriteKeepsLocks(f, id);
    if g != f {
      var target := f.calls[id].target;
      WriteEffect(f, id);
      if target in ActiveOwners(f) {
        assert TargetsOwner(f, id);
        assert |ActiveOwners(g)| == |ActiveOwners(f)| - 1;
        assert forall i :: !TargetsOwner(g, i);
      } else {
        assert ActiveOwners(g) == ActiveOwners(f);
      }
    }
  }

  /** A seat that comes back is no holder's target. */
  lemma ReactivateEffect(f: Firm, actor: nat, target: nat, enabled: bool)
    requires LocksKept(f) && After(f, Reactivate(actor, target, enabled)) != f
    ensures var g := After(f, Reactivate(actor, target, enabled));
            && ActiveOwners(f) <= ActiveOwners(g) <= ActiveOwners(f) + {target}
            && |ActiveOwners(f)| <= |ActiveOwners(g)|
            && forall i :: TargetsOwner(g, i) ==> TargetsOwner(f, i)
  {
    var g := After(f, Reactivate(actor, target, enabled));
    forall i | TargetsOwner(g, i)
      ensures TargetsOwner(f, i)
    {
      assert f.calls[i].users !! {actor, f.seats[target].user};
    }
    OwnersGrow(ActiveOwners(f), ActiveOwners(g));
  }

  lemma ReactivateKeeps(f: Firm, actor: nat, target: nat, enabled: bool)
    requires Safe(f) && DiscoveriesFresh(f) && !Disturbs(f, Reactivate(actor, target, enabled))
    ensures var g := After(f, Reactivate(actor, target, enabled)); Safe(g) && DiscoveriesFresh(g)
  {
    var g := After(f, Reactivate(actor, target, enabled));
    ReactivateKeepsLocks(f, actor, target, enabled);
    if g != f {
      ReactivateEffect(f, actor, target, enabled);
      assert !f.seats[target].owner ==> ActiveOwners(g) == ActiveOwners(f);
    }
  }

  lemma OwnersGrow(a: set<nat>, b: set<nat>)
    requires a <= b
    ensures |a| <= |b|
  {
    assert b == a + (b - a);
  }

  lemma StepKeeps(f: Firm, step: Step)
    requires Safe(f) && DiscoveriesFresh(f) && !Disturbs(f, step)
    ensures Safe(After(f, step)) && DiscoveriesFresh(After(f, step))
  {
    match step
    case Discover(id, actor, target) => DiscoverKeeps(f, id, actor, target);
    case Lock(id, enabled) => LockKeeps(f, id, enabled);
    case Count(id) => CountKeeps(f, id);
    case Write(id) => WriteKeeps(f, id);
    case Reactivate(actor, target, enabled) => ReactivateKeeps(f, actor, target, enabled);
  }

  /** No owner's seat is brought back while a deactivation waits between discovery and lock. */
  predicate Undisturbed(f: Firm, steps: seq<Step>) {
    forall k :: 0 <= k < |steps| ==> !Disturbs(Run(f, steps[..k]), steps[k])
  }

  lemma {:induction false} RunKeeps(f: Firm, steps: seq<Step>)
    requires Safe(f) && DiscoveriesFresh(f) && Undisturbed(f, steps)
    ensures Safe(Run(f, steps)) && DiscoveriesFresh(Run(f, steps))
  {
    if steps != [] {
      var n := |steps| - 1;
      forall k | 0 <= k < n
        ensures !Disturbs(Run(f, steps[..n][..k]), steps[..n][k])
      {
        assert steps[..n][..k] == steps[..k];
      }
      RunKeeps(f, steps[..n]);
      StepKeeps(Run(f, steps[..n]), steps[n]);
    }
  }

  /** A firm before any call. */
  function Opening(seats: map<nat, Seat>, superusers: set<nat>): Firm {
    Firm(seats, map[], superusers)
  }

  /**
   A firm that starts with an active owner keeps one through every interleaving of deactivations and
   reactivations in which no owner's seat comes back between one call's discovery and its lock.
   */
  lemma {:induction false} OwnerSurvives(seats: map<nat, Seat>, superusers: set<nat>, steps: seq<Step>)
    requires ActiveOwners(Opening(seats, superusers)) != {} && Undisturbed(Opening(seats, superusers), steps)
    ensures ActiveOwners(Run(Opening(seats, superusers), steps)) != {}
  {
    RunKeeps(Opening(seats, superusers), steps);
  }

  // ---------------------------------------------------------------------------------------------
  // Firms that need no condition on schedules
  // ---------------------------------------------------------------------------------------------

  /** Every firm-side owner's seat, active or not. */
  function OwnerSeats(seats: map<nat, Seat>): set<nat> {
    set pk | pk in seats && seats[pk].firmSide && seats[pk].owner
  }

  /** Every other firm-side seat, active or not, whose account may administer the roster. */
  function OtherAdministrators(seats: map<nat, Seat>, superusers: set<nat>): set<nat> {
    set pk | pk in seats && seats[pk].firmSide && !seats[pk].owner
             && (seats[pk].administers || seats[pk].user in superusers)
  }

  /** The unique constraint: an account has one firm-side seat. */
  predicate OneSeatPerUser(seats: map<nat, Seat>) {
    forall p, q :: p in seats && q in seats && seats[p].firmSide && seats[q].firmSide && seats[p].user == seats[q].user
                   ==> p == q
  }

  /** The same seats, but for which are active. */
  predicate SameButActive(a: map<nat, Seat>, b: map<nat, Seat>) {
    a.Keys == b.Keys && forall pk :: pk in a ==> b[pk].(active := true) == a[pk].(active := true)
  }

  lemma SameStanding(a: map<nat, Seat>, b: map<nat, Seat>, superusers: set<nat>)
    requires SameButActive(a, b)
    ensures OwnerSeats(a) == OwnerSeats(b) && OtherAdministrators(a, superusers) == OtherAdministrators(b, superusers)
    ensures OneSeatPerUser(a) ==> OneSeatPerUser(b)
    ensures forall pk :: pk in a ==> b[pk].user == a[pk].user
  {
    assert forall pk :: pk in a ==> b[pk].(active := true) == a[pk].(active := true);
  }

  lemma StepSameButActive(f: Firm, step: Step)
    ensures SameButActive(f.seats, After(f, step).seats) && After(f, step).superusers == f.superusers
  {
  }

  lemma {:induction false} RunSameButActive(f: Firm, steps: seq<Step>)
    ensures SameButActive(f.seats, Run(f, steps).seats) && Run(f, steps).superusers == f.superusers
  {
    if steps != [] {
      RunSameButActive(f, steps[..|steps| - 1]);
      StepSameButActive(Run(f, steps[..|steps| - 1]), steps[|steps| - 1]);
    }
  }

  /** An entitled account that is none of the active owners' holds another administrator's seat. */
  lemma EntitledElsewhere(f: Firm, user: nat) returns (pk: nat)
    requires Entitled(f, user) && forall p :: p in ActiveOwners(f) ==> f.seats[p].user != user
    ensures pk in OtherAdministrators(f.seats, f.superusers) && f.seats[pk].user == user
  {
    if user in f.superusers {
      pk :| pk in f.seats && f.seats[pk].SeatOf(user);
    } else {
      pk :| pk in f.seats && f.seats[pk].SeatOf(user) && f.seats[pk].administers;
    }
    assert pk !in ActiveOwners(f);
  }

  /**
   Two calls past their count that remove the last two owners need two other administrators: neither
   actor is its own target, and neither is the other's, whose user is locked.
   */
  lemma TwoRemoversNeedTwoAdministrators(f: Firm, i: nat, j: nat)
    requires LocksKept(f) && i != j && TargetsOwner(f, i) && TargetsOwner(f, j)
    requires ActiveOwners(f) == {f.calls[i].target, f.calls[j].target}
    ensures |OtherAdministrators(f.seats, f.superusers)| >= 2
  {
    assert f.calls[i].users !! f.calls[j].users;
    var p := EntitledElsewhere(f, f.calls[i].actor);
    var q := EntitledElsewhere(f, f.calls[j].actor);
    OwnersGrow({p, q}, OtherAdministrators(f.seats, f.superusers));
  }

  ghost predicate Covered(f: Firm) {
    && ActiveOwners(f) != {} && LocksKept(f) && CountsHold(f)
    && |OtherAdministrators(f.seats, f.superusers)| <= 1
  }

  lemma TwoOfThem(s: set<nat>, x: nat, y: nat)
    requires x in s && y in s && x != y
    ensures |s| >= 2 && (|s| == 2 ==> s == {x, y})
  {
    assert s == {x, y} + (s - {x, y});
    assert |s| == 2 + |s - {x, y}|;
  }

  lemma WriteCovers(f: Firm, id: nat)
    requires Covered(f) && After(f, Write(id)) != f
    ensures ActiveOwners(After(f, Write(id))) != {} && CountsHold(After(f, Write(id)))
  {
    var g := After(f, Write(id));
    var target := f.calls[id].target;
    WriteEffect(f, id);
    if target in ActiveOwners(f) {
      assert TargetsOwner(f, id);
      assert |ActiveOwners(g)| == |ActiveOwners(f)| - 1;
      forall j | TargetsOwner(g, j) && g.calls[j].phase == Counted
        ensures |ActiveOwners(g)| >= 2
      {
        assert f.calls[j].users !! f.calls[id].users;
        TwoOfThem(ActiveOwners(f), target, f.calls[j].target);
        if |ActiveOwners(f)| == 2 {
          TwoRemoversNeedTwoAdministrators(f, id, j);
        }
      }
    } else {
      assert ActiveOwners(g) == ActiveOwners(f);
    }
  }

  lemma OtherStepsCover(f: Firm, step: Step)
    requires Covered(f) && After(f, step) != f && !step.Write?
    ensures ActiveOwners(After(f, step)) != {} && CountsHold(After(f, step))
  {
    var g := After(f, step);
    match step
    case Reactivate(actor, target, enabled) => ReactivateEffect(f, actor, target, enabled);
    case Count(id) =>
      SameSeats(f, g);
      HolderSeesOwners(f, id);
      assert forall i :: TargetsOwner(g, i) ==> TargetsOwner(f, i);
    case Discover(id, actor, target) =>
      SameSeats(f, g);
      assert forall i :: TargetsOwner(g, i) ==> TargetsOwner(f, i);
    case Lock(id, enabled) =>
      SameSeats(f, g);
      assert forall i :: TargetsOwner(g, i) && i != id ==> TargetsOwner(f, i);
    case Write(_) =>
  }

  /** With at most one other administrator every step keeps an active owner. */
  lemma StepCovers(f: Firm, step: Step)
    requires Covered(f)
    ensures Covered(After(f, step))
  {
    var g := After(f, step);
    StepKeepsLocks(f, step);
    StepSameButActive(f, step);
    SameStanding(f.seats, g.seats, f.superusers);
    if g != f {
      if step.Write? {
        WriteCovers(f, step.call);
      } else {
        OtherStepsCover(f, step);
      }
    }
  }

  lemma {:induction false} RunCovers(f: Firm, steps: seq<Step>)
    requires Covered(f)
    ensures Covered(Run(f, steps))
  {
    if steps != [] {
      RunCovers(f, steps[..|steps| - 1]);
      StepCovers(Run(f, steps[..|steps| - 1]), steps[|steps| - 1]);
    }
  }

  /** With a single owner's seat, it is active and no call is about to write it. */
  ghost predicate Held(f: Firm, only: nat) {
    && LocksKept(f) && OwnerSeats(f.seats) == {only} && ActiveOwners(f) == {only}
    && forall id :: id in f.calls && f.calls[id].phase == Counted ==> f.calls[id].target != only
  }

  lemma OnlyOwnerStays(f: Firm, only: nat, step: Step)
    requires Held(f, only)
    ensures only in After(f, step).seats && After(f, step).seats[only].ActiveOwner()
  {
    assert only in ActiveOwners(f);
  }

  lemma NobodyCountsIt(f: Firm, only: nat, step: Step)
    requires Held(f, only)
    ensures var g := After(f, step);
            forall id :: id in g.calls && g.calls[id].phase == Counted ==> g.calls[id].target != only
  {
    if step.Count? && step.call in f.calls && f.calls[step.call].phase == Locked {
      HolderSeesOwners(f, step.call);
    }
  }

  lemma StepHolds(f: Firm, only: nat, step: Step)
    requires Held(f, only)
    ensures Held(After(f, step), only)
  {
    var g := After(f, step);
    StepKeepsLocks(f, step);
    StepSameButActive(f, step);
    SameStanding(f.seats, g.seats, f.superusers);
    OnlyOwnerStays(f, only, step);
    NobodyCountsIt(f, only, step);
    assert only in ActiveOwners(g) && ActiveOwners(g) <= OwnerSeats(g.seats);
  }

  lemma {:induction false} RunHolds(f: Firm, only: nat, steps: seq<Step>)
    requires Held(f, only)
    ensures Held(Run(f, steps), only)
  {
    if steps != [] {
      RunHolds(f, only, steps[..|steps| - 1]);
      StepHolds(Run(f, steps[..|steps| - 1]), only, steps[|steps| - 1]);
    }
  }

  // ---------------------------------------------------------------------------------------------
  // Firms that can lose every owner
  // ---------------------------------------------------------------------------------------------

  /** One more step of a run. */
  lemma Then(f: Firm, before: seq<Step>, step: Step) returns (steps: seq<Step>)
    ensures Run(f, steps) == After(Run(f, before), step)
  {
    steps := before + [step];
    assert steps[..|before|] == before;
  }

  predicate NoneHold(f: Firm) {
    forall id :: id in f.calls ==> !f.calls[id].Holds()
  }

  /** An active seat, not an owner's, whose account may administer. */
  predicate Serving(f: Firm, p: nat) {
    p in OtherAdministrators(f.seats, f.superusers) && f.seats[p].active
  }

  lemma ServingIsEntitled(f: Firm, p: nat)
    requires Serving(f, p)
    ensures Entitled(f, f.seats[p].user)
  {
    assert f.seats[p].SeatOf(f.seats[p].user);
  }

  /** A deactivation by a serving administrator discovers its target and every active owner. */
  lemma BeginsServing(f: Firm, p: nat, target: nat)
    requires Serving(f, p) && OneSeatPerUser(f.seats) && target in ActiveOwners(f)
    ensures Begin(f, f.seats[p].user, target)
            == Call(f.seats[p].user, target, ActiveOwners(f),
                    {f.seats[p].user} + UsersOf(f, ActiveOwners(f)), Discovered)
  {
    ServingIsEntitled(f, p);
    assert {target} + ActiveOwners(f) == ActiveOwners(f);
  }

  /** A serving administrator can deactivate this owner, who is not the last. */
  predicate CanRemove(f: Firm, id: nat, p: nat, target: nat) {
    && NoneHold(f) && id !in f.calls && Serving(f, p) && OneSeatPerUser(f.seats)
    && target in ActiveOwners(f) && |ActiveOwners(f)| >= 2
  }

  /** The firm with that call added, having discovered every active owner. */
  function Calling(f: Firm, id: nat, p: nat, target: nat, phase: Phase): Firm
    requires p in f.seats
  {
    var user := f.seats[p].user;
    f.(calls := f.calls[id := Call(user, target, ActiveOwners(f), {user} + UsersOf(f, ActiveOwners(f)), phase)])
  }

  lemma DiscoverAndLock(f0: Firm, before: seq<Step>, id: nat, p: nat, target: nat) returns (steps: seq<Step>)
    requires CanRemove(Run(f0, before), id, p, target)
    ensures Run(f0, steps) == Calling(Run(f0, before), id, p, target, Locked)
  {
    var f := Run(f0, before);
    ServingIsEntitled(f, p);
    BeginsServing(f, p, target);
    steps := Then(f0, before, Discover(id, f.seats[p].user, target));
    var f1 := Run(f0, steps);
    assert f1 == Calling(f, id, p, target, Discovered);
    SameSeats(f, f1);
    steps := Then(f0, steps, Lock(id, true));
    assert Run(f0, steps) == Advance(f1, id, Locked);
  }

  /** The owner's seat is inactive, the call is done, and nothing else has changed. */
  ghost predicate Removed(f: Firm, g: Firm, id: nat, target: nat) {
    && target in f.seats
    && g.seats == f.seats[target := f.seats[target].(active := false)] && g.superusers == f.superusers
    && g.calls.Keys == f.calls.Keys + {id} && NoneHold(g)
    && (forall other :: other in f.calls && other != id ==> g.calls[other] == f.calls[other])
  }

  lemma CountAndWrite(f0: Firm, before: seq<Step>, f: Firm, id: nat, p: nat, target: nat) returns (steps: seq<Step>)
    requires CanRemove(f, id, p, target) && Run(f0, before) == Calling(f, id, p, target, Locked)
    ensures Removed(f, Run(f0, steps), id, target)
  {
    var f2 := Run(f0, before);
    SameSeats(f, f2);
    steps := Then(f0, before, Count(id));
    var f3 := Run(f0, steps);
    assert f3 == Advance(f2, id, Counted);
    steps := Then(f0, steps, Write(id));
    assert Run(f0, steps) == SetActive(Advance(f3, id, Done(Deactivated)), target, false);
  }

  /** One deactivation from start to end, when it is not the last owner's. */
  lemma WholeCall(f0: Firm, before: seq<Step>, id: nat, p: nat, target: nat) returns (steps: seq<Step>)
    requires CanRemove(Run(f0, before), id, p, target)
    ensures Removed(Run(f0, before), Run(f0, steps), id, target)
  {
    steps := DiscoverAndLock(f0, before, id, p, target);
    steps := CountAndWrite(f0, steps, Run(f0, before), id, p, target);
  }

  lemma SomeNew(s: set<nat>) returns (n: nat)
    ensures forall m :: m in s ==> m < n
    decreases |s|
  {
    if s == {} {
      n := 0;
    } else {
      var m :| m in s;
      assert forall x :: x in s ==> x == m || x in s - {m};
      var rest := SomeNew(s - {m});
      n := if m < rest then rest else m + 1;
    }
  }

  lemma OneOwnerLess(f: Firm, g: Firm, target: nat)
    requires target in ActiveOwners(f) && g.seats == f.seats[target := f.seats[target].(active := false)]
    ensures ActiveOwners(g) == ActiveOwners(f) - {target} && |ActiveOwners(g)| == |ActiveOwners(f)| - 1
    ensures SameButActive(f.seats, g.seats)
  {
    assert ActiveOwners(g) == ActiveOwners(f) - {target};
  }

  /** The account brings a firm-side seat back while no call holds a lock. */
  lemma Returns(f0: Firm, before: seq<Step>, actor: nat, target: nat) returns (steps: seq<Step>)
    requires var f := Run(f0, before);
             NoneHold(f) && Entitled(f, actor) && target in f.seats && f.seats[target].firmSide
    ensures var f, g := Run(f0, before), Run(f0, steps);
            && g == SetActive(f, target, true) && SameButActive(f.seats, g.seats)
            && ActiveOwners(g) == ActiveOwners(f) + if f.seats[target].owner then {target} else {}
  {
    var f := Run(f0, before);
    steps := Then(f0, before, Reactivate(actor, target, true));
    assert Run(f0, steps) == SetActive(f, target, true);
  }

  /** Two serving administrators, and at least one active owner. */
  predicate Staffed(f: Firm, p: nat, q: nat) {
    NoneHold(f) && Serving(f, p) && Serving(f, q) && p != q && OneSeatPerUser(f.seats)
  }

  /** Every other owner can be deactivated, one after another. */
  lemma ReduceToOne(f0: Firm, before: seq<Step>, x: nat, p: nat, q: nat) returns (steps: seq<Step>)
    requires Staffed(Run(f0, before), p, q) && x in ActiveOwners(Run(f0, before))
    ensures var f, g := Run(f0, before), Run(f0, steps);
            Staffed(g, p, q) && ActiveOwners(g) == {x} && SameButActive(f.seats, g.seats)
    decreases |ActiveOwners(Run(f0, before))|
  {
    var f := Run(f0, before);
    var others := ActiveOwners(f) - {x};
    if others == {} {
      steps := before;
      assert ActiveOwners(f) == {x};
    } else {
      var target :| target in others;
      OwnersGrow({x, target}, ActiveOwners(f));
      var id := SomeNew(f.calls.Keys);
      steps := WholeCall(f0, before, id, p, target);
      var g := Run(f0, steps);
      OneOwnerLess(f, g, target);
      SameStanding(f.seats, g.seats, f.superusers);
      steps := ReduceToOne(f0, steps, x, p, q);
    }
  }

  /** A discovery that then waits: it asked for its own actor and the one owner there was. */
  lemma Waits(f0: Firm, before: seq<Step>, id: nat, p: nat, target: nat) returns (steps: seq<Step>)
    requires var f := Run(f0, before);
             id !in f.calls && Serving(f, p) && OneSeatPerUser(f.seats) && ActiveOwners(f) == {target}
    ensures var f := Run(f0, before);
            target in f.seats && p in f.seats && Run(f0, steps) == f.(calls := f.calls[id := WaitingCall(f, p, target)])
  {
    var f := Run(f0, before);
    assert target in ActiveOwners(f);
    BeginsServing(f, p, target);
    assert {f.seats[p].user} + UsersOf(f, {target}) == {f.seats[p].user, f.seats[target].user};
    steps := Then(f0, before, Discover(id, f.seats[p].user, target));
  }

  function WaitingCall(f: Firm, p: nat, target: nat): Call
    requires p in f.seats && target in f.seats
  {
    Call(f.seats[p].user, target, {target}, {f.seats[p].user, f.seats[target].user}, Discovered)
  }

  /** Two waiting calls of two serving administrators against the two active owners. */
  ghost predicate Racing(f: Firm, i: nat, j: nat, p: nat, q: nat, x: nat, y: nat) {
    && Staffed(f, p, q) && x != y && ActiveOwners(f) == {x, y} && x in f.seats && y in f.seats
    && i != j && i in f.calls && j in f.calls
    && f.calls[i] == WaitingCall(f, p, x) && f.calls[j] == WaitingCall(f, q, y)
  }

  lemma RacersApart(f: Firm, i: nat, j: nat, p: nat, q: nat, x: nat, y: nat)
    requires Racing(f, i, j, p, q, x, y)
    ensures f.calls[i].users !! f.calls[j].users
    ensures Granted(f, f.calls[i], true) && Granted(f, f.calls[j], true)
  {
    ServingIsEntitled(f, p);
    ServingIsEntitled(f, q);
    assert x in ActiveOwners(f) && y in ActiveOwners(f);
  }

  /** The two lock, count and write side by side, each having counted the other's owner. */
  lemma Race(f0: Firm, before: seq<Step>, i: nat, j: nat, p: nat, q: nat, x: nat, y: nat) returns (steps: seq<Step>)
    requires Racing(Run(f0, before), i, j, p, q, x, y)
    ensures ActiveOwners(Run(f0, steps)) == {}
  {
    var f := Run(f0, before);
    RacersApart(f, i, j, p, q, x, y);
    assert |{x, y}| == 2;
    steps := Then(f0, before, Lock(i, true));
    var f1 := Run(f0, steps);
    assert f1 == Advance(f, i, Locked);
    SameSeats(f, f1);
    steps := Then(f0, steps, Lock(j, true));
    var f2 := Run(f0, steps);
    assert f2 == Advance(f1, j, Locked);
    SameSeats(f, f2);
    steps := Then(f0, steps, Count(i));
    var f3 := Run(f0, steps);
    assert f3 == Advance(f2, i, Counted);
    SameSeats(f, f3);
    steps := Then(f0, steps, Count(j));
    var f4 := Run(f0, steps);
    assert f4 == Advance(f3, j, Counted);
    SameSeats(f, f4);
    steps := BothWrite(f0, steps, i, j, x, y);
  }

  lemma BothWrite(f0: Firm, before: seq<Step>, i: nat, j: nat, x: nat, y: nat) returns (steps: seq<Step>)
    requires var f := Run(f0, before);
             && i != j && i in f.calls && j in f.calls && x != y && x in f.seats && y in f.seats
             && f.calls[i].phase == Counted && f.calls[j].phase == Counted
             && f.calls[i].target == x && f.calls[j].target == y && ActiveOwners(f) == {x, y}
    ensures ActiveOwners(Run(f0, steps)) == {}
  {
    var f := Run(f0, before);
    steps := Then(f0, before, Write(i));
    var f1 := Run(f0, steps);
    WriteEffect(f, i);
    steps := Then(f0, steps, Write(j));
    WriteEffect(f1, j);
  }

  lemma StillStaffed(f: Firm, g: Firm, p: nat, q: nat)
    requires Staffed(f, p, q) && SameButActive(f.seats, g.seats) && g.superusers == f.superusers && NoneHold(g)
    requires g.seats[p].active && g.seats[q].active
    ensures Staffed(g, p, q) && OwnerSeats(g.seats) == OwnerSeats(f.seats)
  {
    SameStanding(f.seats, g.seats, f.superusers);
  }

  /** A call of `p` against `x` waits on the one owner it discovered; the call after it is still free. */
  ghost predicate Waiting(f: Firm, i: nat, p: nat, x: nat) {
    p in f.seats && x in f.seats && i in f.calls && i + 1 !in f.calls && f.calls[i] == WaitingCall(f, p, x)
  }

  predicate Unused(f: Firm, id: nat) {
    id !in f.calls
  }

  /** `x` is the one active owner, and `y` another owner's seat. */
  ghost predicate OneOwnerLeft(f: Firm, p: nat, q: nat, x: nat, y: nat) {
    Staffed(f, p, q) && ActiveOwners(f) == {x} && y in OwnerSeats(f.seats) && x != y
  }

  /** With one owner left, two call numbers are free. */
  ghost predicate ReadyToWait(f: Firm, i: nat, p: nat, q: nat, x: nat, y: nat) {
    OneOwnerLeft(f, p, q, x, y) && Unused(f, i) && Unused(f, i + 1)
  }

  /** Both owners are active while a call of `p` against `x` waits on what it discovered before. */
  ghost predicate WaitsBehind(f: Firm, i: nat, p: nat, q: nat, x: nat, y: nat) {
    Staffed(f, p, q) && ActiveOwners(f) == {x, y} && x != y && y in OwnerSeats(f.seats) && Waiting(f, i, p, x)
  }

  /** Nothing but a call and a returned seat has been added. */
  ghost predicate OnlyAdds(f: Firm, g: Firm, i: nat) {
    && g.calls.Keys == f.calls.Keys + {i}
    && (forall id :: id in f.calls ==> id in g.calls && g.calls[id] == f.calls[id])
    && (forall pk :: pk in f.seats ==> pk in g.seats && g.seats[pk].user == f.seats[pk].user)
  }

  /** A first call against `x` waits, and `y` comes back. */
  lemma WaitThenReturn(f0: Firm, before: seq<Step>, i: nat, p: nat, q: nat, x: nat, y: nat) returns (steps: seq<Step>)
    requires ReadyToWait(Run(f0, before), i, p, q, x, y)
    ensures WaitsBehind(Run(f0, steps), i, p, q, x, y) && OnlyAdds(Run(f0, before), Run(f0, steps), i)
  {
    var f := Run(f0, before);
    steps := Waits(f0, before, i, p, x);
    var f1 := Run(f0, steps);
    SameSeats(f, f1);
    StillStaffed(f, f1, p, q);
    ServingIsEntitled(f1, q);
    steps := Returns(f0, steps, f1.seats[q].user, y);
    StillStaffed(f1, Run(f0, steps), p, q);
  }

  /** Removing `x` leaves the waiting call as it was, and the roles of the two owners changed. */
  lemma RemovedMeanwhile(f: Firm, g: Firm, i: nat, p: nat, q: nat, x: nat, y: nat)
    requires WaitsBehind(f, i, p, q, x, y)
    requires g.seats == f.seats[x := f.seats[x].(active := false)] && g.superusers == f.superusers && NoneHold(g)
    requires i in g.calls && g.calls[i] == f.calls[i] && i + 1 !in g.calls && i + 2 !in g.calls
    ensures Waiting(g, i, p, x) && ReadyToWait(g, i + 1, q, p, y, x)
  {
    assert x in ActiveOwners(f);
    OneOwnerLess(f, g, x);
    StillStaffed(f, g, p, q);
  }

  /** A call of the other administrator removes `x` meanwhile. */
  lemma RemoveMeanwhile(f0: Firm, before: seq<Step>, n: nat, p: nat, q: nat, x: nat, y: nat) returns (steps: seq<Step>)
    requires WaitsBehind(Run(f0, before), n + 1, p, q, x, y) && Unused(Run(f0, before), n)
    requires Unused(Run(f0, before), n + 3)
    ensures Waiting(Run(f0, steps), n + 1, p, x) && ReadyToWait(Run(f0, steps), n + 2, q, p, y, x)
  {
    var f := Run(f0, before);
    assert x in ActiveOwners(f) && |{x, y}| == 2;
    steps := WholeCall(f0, before, n, q, x);
    RemovedMeanwhile(f, Run(f0, steps), n + 1, p, q, x, y);
  }

  lemma StillUnused(f: Firm, g: Firm, i: nat, id: nat)
    requires OnlyAdds(f, g, i) && Unused(f, id) && id != i
    ensures Unused(g, id)
  {
  }

  /** While a first call against `x` waits, `y` comes back and another call removes `x`. */
  lemma Handover(f0: Firm, before: seq<Step>, n: nat, p: nat, q: nat, x: nat, y: nat) returns (steps: seq<Step>)
    requires ReadyToWait(Run(f0, before), n + 1, p, q, x, y)
    requires Unused(Run(f0, before), n) && Unused(Run(f0, before), n + 3)
    ensures Waiting(Run(f0, steps), n + 1, p, x) && ReadyToWait(Run(f0, steps), n + 2, q, p, y, x)
  {
    var f := Run(f0, before);
    steps := WaitThenReturn(f0, before, n + 1, p, q, x, y);
    StillUnused(f, Run(f0, steps), n + 1, n);
    StillUnused(f, Run(f0, steps), n + 1, n + 3);
    steps := RemoveMeanwhile(f0, steps, n, p, q, x, y);
  }

  /** Both calls wait, and both owners are there. */
  lemma NowRacing(f: Firm, g: Firm, i: nat, p: nat, q: nat, x: nat, y: nat)
    requires Waiting(f, i, p, x) && OnlyAdds(f, g, i + 1) && WaitsBehind(g, i + 1, q, p, y, x)
    ensures Racing(g, i, i + 1, p, q, x, y)
  {
    assert {y, x} == {x, y};
  }

  /** Then a second call, against `y`, discovers only `y`, and `x` comes back. */
  lemma SecondWaits(f0: Firm, before: seq<Step>, i: nat, p: nat, q: nat, x: nat, y: nat) returns (steps: seq<Step>)
    requires Waiting(Run(f0, before), i, p, x) && ReadyToWait(Run(f0, before), i + 1, q, p, y, x)
    ensures Racing(Run(f0, steps), i, i + 1, p, q, x, y)
  {
    steps := WaitThenReturn(f0, before, i + 1, q, p, y, x);
    NowRacing(Run(f0, before), Run(f0, steps), i, p, q, x, y);
  }

  /** With the first call waiting, the second waits behind the other owner, and the two race. */
  lemma SecondWaitsThenRace(f0: Firm, before: seq<Step>, n: nat, p: nat, q: nat, x: nat, y: nat)
    returns (steps: seq<Step>)
    requires Waiting(Run(f0, before), n + 1, p, x) && ReadyToWait(Run(f0, before), n + 2, q, p, y, x)
    ensures ActiveOwners(Run(f0, steps)) == {}
  {
    steps := SecondWaits(f0, before, n + 1, p, q, x, y);
    steps := Race(f0, steps, n + 1, n + 2, p, q, x, y);
  }

  /** Four call numbers in a row that no call has: the waiting calls take the middle two. */
  lemma FindUnused(f: Firm, p: nat, q: nat, x: nat, y: nat) returns (n: nat)
    requires OneOwnerLeft(f, p, q, x, y)
    ensures ReadyToWait(f, n + 1, p, q, x, y) && Unused(f, n) && Unused(f, n + 3)
  {
    n := SomeNew(f.calls.Keys);
  }

  /** The schedule that loses the last owner: two calls, each waiting behind the other's owner, then race. */
  lemma LoseLast(f0: Firm, before: seq<Step>, p: nat, q: nat, x: nat, y: nat) returns (steps: seq<Step>)
    requires OneOwnerLeft(Run(f0, before), p, q, x, y)
    ensures ActiveOwners(Run(f0, steps)) == {}
  {
    var n := FindUnused(Run(f0, before), p, q, x, y);
    steps := Handover(f0, before, n, p, q, x, y);
    steps := SecondWaitsThenRace(f0, steps, n, p, q, x, y);
  }

  /** The seeded matrix gives an owner the roster capability in full. */
  predicate OwnersAdminister(seats: map<nat, Seat>) {
    forall pk :: pk in seats && seats[pk].owner ==> seats[pk].administers
  }

  /** An active owner brings both administrators back, if they were away. */
  lemma Staff(seats: map<nat, Seat>, superusers: set<nat>, x: nat, p: nat, q: nat) returns (steps: seq<Step>)
    requires OneSeatPerUser(seats) && OwnersAdminister(seats) && x in ActiveOwners(Opening(seats, superusers)) && p != q
    requires p in OtherAdministrators(seats, superusers) && q in OtherAdministrators(seats, superusers)
    ensures var f := Run(Opening(seats, superusers), steps);
            Staffed(f, p, q) && x in ActiveOwners(f) && SameButActive(seats, f.seats) && f.superusers == superusers
  {
    var f := Opening(seats, superusers);
    var owner := seats[x].user;
    assert seats[x].SeatOf(owner);
    assert Run(f, []) == f;
    steps := Returns(f, [], owner, p);
    var f1 := Run(f, steps);
    SameStanding(seats, f1.seats, superusers);
    assert f1.seats[x].SeatOf(owner);
    steps := Returns(f, steps, owner, q);
    SameStanding(seats, Run(f, steps).seats, superusers);
  }

  lemma TwoAdministratorsCanLose(seats: map<nat, Seat>, superusers: set<nat>, x: nat, y: nat, p: nat, q: nat)
    returns (steps: seq<Step>)
    requires OneSeatPerUser(seats) && OwnersAdminister(seats)
    requires x in ActiveOwners(Opening(seats, superusers)) && y in OwnerSeats(seats) && x != y
    requires p in OtherAdministrators(seats, superusers) && q in OtherAdministrators(seats, superusers) && p != q
    ensures ActiveOwners(Run(Opening(seats, superusers), steps)) == {}
  {
    var f := Opening(seats, superusers);
    steps := Staff(seats, superusers, x, p, q);
    SameStanding(seats, Run(f, steps).seats, superusers);
    var staffed := Run(f, steps);
    steps := ReduceToOne(f, steps, x, p, q);
    SameStanding(staffed.seats, Run(f, steps).seats, superusers);
    steps := LoseLast(f, steps, p, q, x, y);
  }

  /** No schedule of deactivations and reactivations leaves the firm without an active owner. */
  ghost predicate KeepsAnOwner(seats: map<nat, Seat>, superusers: set<nat>) {
    forall steps :: ActiveOwners(Run(Opening(seats, superusers), steps)) != {}
  }

  lemma TwoMembers(s: set<nat>) returns (x: nat, y: nat)
    requires |s| >= 2
    ensures x in s && y in s && x != y
  {
    x :| x in s;
    assert |s - {x}| >= 1;
    y :| y in s - {x};
  }

  /**
   Which firms need the condition of `OwnerSurvives`: without it, a firm that starts with an active owner
   keeps one through every schedule exactly when it has a single owner's seat, or at most one other
   firm-side seat whose account may administer the roster.
   */
  lemma SafeWithoutCondition(seats: map<nat, Seat>, superusers: set<nat>)
    requires OneSeatPerUser(seats) && OwnersAdminister(seats) && ActiveOwners(Opening(seats, superusers)) != {}
    ensures KeepsAnOwner(seats, superusers)
            <==> |OwnerSeats(seats)| == 1 || |OtherAdministrators(seats, superusers)| <= 1
  {
    var f := Opening(seats, superusers);
    var x :| x in ActiveOwners(f);
    assert x in OwnerSeats(seats);
    if |OtherAdministrators(seats, superusers)| <= 1 {
      forall steps
        ensures ActiveOwners(Run(f, steps)) != {}
      {
        RunCovers(f, steps);
      }
    } else if |OwnerSeats(seats)| == 1 {
      assert OwnerSeats(seats) == {x} by {
        assert |OwnerSeats(seats) - {x}| == 0;
      }
      assert ActiveOwners(f) == {x};
      forall steps
        ensures ActiveOwners(Run(f, steps)) != {}
      {
        RunHolds(f, x, steps);
      }
    } else {
      var p, q := TwoMembers(OtherAdministrators(seats, superusers));
      OwnersGrow({x}, OwnerSeats(seats));
      var y, z := TwoMembers(OwnerSeats(seats));
      var steps := TwoAdministratorsCanLose(seats, superusers, x, if x != y then y else z, p, q);
    }
  }
}
