/**
 Deactivation and reactivation as the team screen performs them, one method a step of `LastOwner`.
 */
module RosterDesks {
  import opened LastOwner

  class RosterDesk {
    var seats: map<nat, Seat>
    var calls: map<nat, Call>
    const superusers: set<nat>

    ghost function Contents(): Firm
      reads this
    {
      Firm(seats, calls, superusers)
    }

    /** An owner is there, and nothing that waits or holds a lock endangers the last one. */
    ghost predicate Valid()
      reads this
    {
      Safe(Contents()) && DiscoveriesFresh(Contents())
    }

    constructor (seats: map<nat, Seat>, superusers: set<nat>)
      requires ActiveOwners(Opening(seats, superusers)) != {}
      ensures Valid() && Contents() == Opening(seats, superusers)
    {
      this.seats, this.superusers, calls := seats, superusers, map[];
    }

    /** The unlocked read: the target and every active owner, but nothing for an actor without an active seat. */
    method DiscoverCandidates(id: nat, actor: nat, target: nat)
      requires Valid() && id !in calls && target in seats && seats[target].firmSide
      modifies `calls
      ensures Valid() && Contents() == After(old(Contents()), Discover(id, actor, target))
      ensures calls == old(calls)[id := Begin(old(Contents()), actor, target)]
    {
      DiscoverKeeps(Contents(), id, actor, target);
      if seats[target].user == actor {
        calls := calls[id := Call(actor, target, {}, {}, Done(OwnAccess))];
        return;
      }
      var found: set<nat> := {};
      if exists pk :: pk in seats && seats[pk].SeatOf(actor) {
        found := {target} + ActiveOwners(Firm(seats, calls, superusers));
      }
      var users := {actor} + set pk | pk in found :: seats[pk].user;
      calls := calls[id := Call(actor, target, found, users, Discovered)];
    }

    /**
     Taken only when no call in flight holds any of the users. Under the locks the target is read again,
     the account must be active, and it must hold a seat here and may administer the roster.
     */
    method LockUsers(id: nat, enabled: bool)
      requires Valid() && id in calls && calls[id].phase == Discovered && Free(Contents(), calls[id].users)
      modifies `calls
      ensures Valid() && Contents() == After(old(Contents()), Lock(id, enabled))
      ensures var c := old(calls)[id];
              var granted := Granted(old(Contents()), c, enabled);
              calls == old(calls)[id := c.(phase := if granted then Locked else Done(Denied))]
    {
      LockKeeps(Contents(), id, enabled);
      var c := calls[id];
      var seated := exists pk :: pk in seats && seats[pk].SeatOf(c.actor);
      var administers := exists pk :: pk in seats && seats[pk].SeatOf(c.actor) && seats[pk].administers;
      if c.target !in c.found || c.target !in seats || !seated || !enabled
         || (c.actor !in superusers && !administers)
      {
        calls := calls[id := c.(phase := Done(Denied))];
        return;
      }
      calls := calls[id := c.(phase := Locked)];
    }

    /** The count the call's own query gives; it is the count of all active owners. */
    method CountOwners(id: nat)
      requires Valid() && id in calls && calls[id].phase == Locked
      modifies `calls
      ensures Valid() && Contents() == After(old(Contents()), Count(id))
      ensures var c := old(calls)[id];
              var last := ActiveOwners(old(Contents())) == {c.target};
              calls == old(calls)[id := c.(phase := if last then Done(LastOne) else Counted)]
    {
      CountKeeps(Contents(), id);
      HolderSeesOwners(Contents(), id);
      var c := calls[id];
      var owners := VisibleOwners(Firm(seats, calls, superusers), c.actor);
      if c.target in owners && |owners| <= 1 {
        OnlyOne(owners, c.target);
        calls := calls[id := c.(phase := Done(LastOne))];
        return;
      }
      calls := calls[id := c.(phase := Counted)];
    }

    method WriteSeat(id: nat)
      requires Valid() && id in calls && calls[id].phase == Counted && calls[id].target in seats
      modifies `seats, `calls
      ensures Valid() && Contents() == After(old(Contents()), Write(id))
      ensures calls == old(calls)[id := old(calls)[id].(phase := Done(Deactivated))]
      ensures var target := old(calls)[id].target;
              seats == old(seats)[target := old(seats)[target].(active := false)]
    {
      WriteKeeps(Contents(), id);
      var target := calls[id].target;
      seats := seats[target := seats[target].(active := false)];
      calls := calls[id := calls[id].(phase := Done(Deactivated))];
    }

    /**
     A deactivation that meets no lock it has to wait for; other calls may be in flight. It is refused as
     the last owner's exactly when the target is the one active owner, and it changes nothing but the
     target's seat.
     */
    method Deactivate(id: nat, actor: nat, target: nat, enabled: bool) returns (answer: Answer)
      requires Valid() && id !in calls && target in seats && seats[target].firmSide
      requires Free(Contents(), Begin(Contents(), actor, target).users)
      modifies `seats, `calls
      ensures Valid() && ActiveOwners(Contents()) != {}
      ensures answer == if old(seats)[target].user == actor then OwnAccess
                        else if !enabled || !old(Entitled(Contents(), actor)) then Denied
                        else if ActiveOwners(old(Contents())) == {target} then LastOne
                        else Deactivated
      ensures answer == Deactivated <==>
                && old(seats)[target].user != actor && enabled
                && Seated(old(Contents()), actor) && Administers(old(Contents()), actor)
                && (OwnerAt(old(Contents()), target) ==>
                      exists other :: other != target && OwnerAt(old(Contents()), other))
      ensures seats == if answer == Deactivated then old(seats)[target := old(seats)[target].(active := false)]
                       else old(seats)
      ensures id in calls && calls[id].phase == Done(answer)
      ensures forall other :: other in old(calls) ==> other in calls && calls[other] == old(calls)[other]
    {
      ghost var before := Contents();
      AuthorityMeans(before, actor);
      OnlyOwnerMeans(before, target);
      DiscoverCandidates(id, actor, target);
      SameSeats(before, Contents());
      if calls[id].phase.Done? {
        return OwnAccess;
      }
      LockUsers(id, enabled);
      SameSeats(before, Contents());
      if calls[id].phase.Done? {
        return Denied;
      }
      CountOwners(id);
      if calls[id].phase.Done? {
        return LastOne;
      }
      WriteSeat(id);
      answer := Deactivated;
    }

    /** Waits for its two users; the roster stays safe unless an owner comes back past a waiting call. */
    method Reactivate(actor: nat, target: nat, enabled: bool) returns (done: bool)
      requires Valid() && target in seats && seats[target].firmSide
      requires Free(Contents(), {actor, seats[target].user})
      modifies `seats
      ensures !Disturbs(old(Contents()), Step.Reactivate(actor, target, enabled)) ==> Valid()
      ensures Contents() == After(old(Contents()), Step.Reactivate(actor, target, enabled))
      ensures done == (enabled && old(MayAdminister(Contents(), actor)))
      ensures done <==> enabled && Administers(old(Contents()), actor)
      ensures seats == if done then old(seats)[target := old(seats)[target].(active := true)] else old(seats)
    {
      AuthorityMeans(Contents(), actor);
      if !Disturbs(Contents(), Step.Reactivate(actor, target, enabled)) {
        ReactivateKeeps(Contents(), actor, target, enabled);
      }
      var administers := exists pk :: pk in seats && seats[pk].SeatOf(actor) && seats[pk].administers;
      if !enabled || (actor !in superusers && !administers) {
        return false;
      }
      seats := seats[target := seats[target].(active := true)];
      done := true;
    }
  }

  lemma OnlyOne(owners: set<nat>, target: nat)
    requires target in owners && |owners| <= 1
    ensures owners == {target}
  {
    assert |owners - {target}| == 0;
  }
}
