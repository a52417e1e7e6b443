/**
 Offboarding: ended engagements cancel their open work, and a client's portal seats close once no
 engagement is left.

 Days are numbers; one firm's rows, engagements numbered by position. Flag and grace come from outside.
 */
module Offboarding {
  import opened Options

  datatype Engagement = Engagement(client: nat, endsOn: Option<int>)

  datatype CycleState =
    | Planned | Active | Waiting | Review | Approval | Execution | Completed | Blocked | WithPending | Cancelled

  datatype Cycle = Cycle(client: nat, engagement: nat, state: CycleState, version: nat)
  {
    predicate Open() {
      state != Completed && state != WithPending && state != Cancelled
    }
  }

  /** A seat over one client, or on the firm's own side. */
  datatype Seat = Seat(user: nat, client: Option<nat>, active: bool)

  datatype Book = Book(engagements: seq<Engagement>, cycles: seq<Cycle>, seats: seq<Seat>)

  predicate Ended(e: Engagement, cutoff: int) {
    e.endsOn.Some? && e.endsOn.value <= cutoff
  }

  predicate HasEngagement(es: seq<Engagement>, client: nat) {
    exists i :: 0 <= i < |es| && es[i].client == client
  }

  predicate HasRunning(es: seq<Engagement>, client: nat, cutoff: int) {
    exists i :: 0 <= i < |es| && es[i].client == client && !Ended(es[i], cutoff)
  }

  predicate HasEnded(es: seq<Engagement>, client: nat, cutoff: int) {
    exists i :: 0 <= i < |es| && es[i].client == client && Ended(es[i], cutoff)
  }

  /** A client without engagements keeps its portal; one with engagements needs a running one. */
  predicate PortalCurrent(es: seq<Engagement>, client: nat, cutoff: int) {
    !HasEngagement(es, client) || HasRunning(es, client, cutoff)
  }

  /** The clients of ended engagements, each once. */
  function EndedClients(es: seq<Engagement>, cutoff: int): (r: seq<nat>)
    ensures forall c :: c in r <==> HasEnded(es, c, cutoff)
    ensures forall i, j :: 0 <= i < j < |r| ==> r[i] != r[j]
  {
    if es == [] then []
    else
      var n := |es| - 1;
      var before := EndedClients(es[..n], cutoff);
      EndedStepwise(es, cutoff);
      if Ended(es[n], cutoff) && es[n].client !in before then before + [es[n].client] else before
  }

  lemma EndedStepwise(es: seq<Engagement>, cutoff: int)
    requires es != []
    ensures var n := |es| - 1;
            forall c :: HasEnded(es, c, cutoff)
                        <==> HasEnded(es[..n], c, cutoff) || (es[n].client == c && Ended(es[n], cutoff))
  {
    var n := |es| - 1;
    forall c | HasEnded(es[..n], c, cutoff)
      ensures HasEnded(es, c, cutoff)
    {
      var i :| 0 <= i < n && es[..n][i].client == c && Ended(es[..n][i], cutoff);
      assert es[i].client == c;
    }
    forall c | HasEnded(es, c, cutoff) && !(es[n].client == c && Ended(es[n], cutoff))
      ensures HasEnded(es[..n], c, cutoff)
    {
      var i :| 0 <= i < |es| && es[i].client == c && Ended(es[i], cutoff);
      assert es[..n][i].client == c;
    }
  }

  // ---------------------------------------------------------------------------------------------
  // One client's part
  // ---------------------------------------------------------------------------------------------

  predicate Expired(es: seq<Engagement>, c: Cycle, cutoff: int) {
    && c.engagement < |es| && es[c.engagement].client == c.client && Ended(es[c.engagement], cutoff) && c.Open()
  }

  function CancelledCycle(c: Cycle): Cycle {
    c.(state := Cancelled, version := c.version + 1)
  }

  /** A cycle once these clients have been offboarded. */
  function SettledCycle(es: seq<Engagement>, c: Cycle, cutoff: int, done: set<nat>): Cycle {
    if c.client in done && Expired(es, c, cutoff) then CancelledCycle(c) else c
  }

  function SettledSeat(es: seq<Engagement>, s: Seat, cutoff: int, done: set<nat>): Seat {
    if s.client.Some? && s.client.value in done && !PortalCurrent(es, s.client.value, cutoff)
    then s.(active := false) else s
  }

  function Settled(b: Book, cutoff: int, done: set<nat>): Book {
    Book(b.engagements,
         seq(|b.cycles|, i requires 0 <= i < |b.cycles| => SettledCycle(b.engagements, b.cycles[i], cutoff, done)),
         seq(|b.seats|, i requires 0 <= i < |b.seats| => SettledSeat(b.engagements, b.seats[i], cutoff, done)))
  }

  /** There is work to cancel or a seat to close. */
  predicate Touched(b: Book, client: nat, cutoff: int) {
    || (exists i :: 0 <= i < |b.cycles| && b.cycles[i].client == client && Expired(b.engagements, b.cycles[i], cutoff))
    || (!PortalCurrent(b.engagements, client, cutoff) && exists i :: 0 <= i < |b.seats| && OpenSeat(b.seats[i], client))
  }

  predicate OpenSeat(s: Seat, client: nat) {
    s.client == Some(client) && s.active
  }

  function CountTouched(b: Book, clients: seq<nat>, cutoff: int): nat {
    if clients == [] then 0
    else
      CountTouched(b, clients[..|clients| - 1], cutoff)
      + if Touched(b, clients[|clients| - 1], cutoff) then 1 else 0
  }

  function AsSet(clients: seq<nat>): set<nat> {
    set c | c in clients
  }

  lemma OneMoreClient(clients: seq<nat>, i: nat)
    requires i < |clients|
    ensures AsSet(clients[..i + 1]) == AsSet(clients[..i]) + {clients[i]}
  {
    assert clients[..i + 1] == clients[..i] + [clients[i]];
  }

  /** `offboard_engagements`: the firm's rows after it, and how many clients it changed. */
  function Offboard(b: Book, flagged: bool, cutoff: int): (Book, nat) {
    if !flagged then (b, 0)
    else
      var clients := EndedClients(b.engagements, cutoff);
      (Settled(b, cutoff, AsSet(clients)), CountTouched(b, clients, cutoff))
  }

  // ---------------------------------------------------------------------------------------------
  // What a run leaves
  // ---------------------------------------------------------------------------------------------

  /** After a run, an ended engagement has no open cycle of its own client. */
  lemma NoOpenCycleLeft(b: Book, cutoff: int, i: nat)
    requires i < |b.cycles|
    ensures var after := Offboard(b, true, cutoff).0; !Expired(after.engagements, after.cycles[i], cutoff)
  {
    var c := b.cycles[i];
    if Expired(b.engagements, c, cutoff) {
      assert HasEnded(b.engagements, c.client, cutoff);
    }
  }

  /** After a run, a client's seat is active only where its portal engagement is current. */
  lemma SeatsOnlyWhereCurrent(b: Book, cutoff: int, j: nat)
    requires j < |b.seats|
    ensures var after := Offboard(b, true, cutoff).0;
            after.seats[j].active && after.seats[j].client.Some? ==>
              PortalCurrent(after.engagements, after.seats[j].client.value, cutoff)
  {
    var es, s := b.engagements, b.seats[j];
    if s.client.Some? && !PortalCurrent(es, s.client.value, cutoff) {
      var k :| 0 <= k < |es| && es[k].client == s.client.value;
      assert HasEnded(es, s.client.value, cutoff);
    }
  }

  /** A cycle still worked on, of an engagement that ended by the cutoff, both of the cycle's client. */
  predicate Outlived(es: seq<Engagement>, c: Cycle, cutoff: int) {
    && c.engagement < |es| && es[c.engagement].client == c.client
    && es[c.engagement].endsOn.Some? && es[c.engagement].endsOn.value <= cutoff
    && c.state in {Planned, Active, Waiting, Review, Approval, Execution, Blocked}
  }

  /** Some engagement of the client has no end, or one after the cutoff. */
  predicate StillEngaged(es: seq<Engagement>, client: nat, cutoff: int) {
    exists i :: 0 <= i < |es| && es[i].client == client && (es[i].endsOn.None? || es[i].endsOn.value > cutoff)
  }

  predicate NeverEngaged(es: seq<Engagement>, client: nat) {
    forall i :: 0 <= i < |es| ==> es[i].client != client
  }

  /**
   A run adds and removes no cycle and touches no engagement: an open cycle of an engagement that ended is
   cancelled, one version on, and every other cycle is as it was.
   */
  lemma CyclesFrame(b: Book, cutoff: int, i: nat)
    requires i < |b.cycles|
    ensures var c, after := b.cycles[i], Offboard(b, true, cutoff).0;
            && after.engagements == b.engagements && |after.cycles| == |b.cycles|
            && after.cycles[i] == (if Outlived(b.engagements, c, cutoff)
                                   then Cycle(c.client, c.engagement, Cancelled, c.version + 1) else c)
  {
    if Expired(b.engagements, b.cycles[i], cutoff) {
      assert HasEnded(b.engagements, b.cycles[i].client, cutoff);
    }
  }

  /**
   A run adds and removes no seat and moves none: a seat stays active exactly when it is the firm's, or its
   client was never engaged or still is.
   */
  lemma SeatsFrame(b: Book, cutoff: int, j: nat)
    requires j < |b.seats|
    ensures var s, after := b.seats[j], Offboard(b, true, cutoff).0;
            && |after.seats| == |b.seats| && after.seats[j] == Seat(s.user, s.client, after.seats[j].active)
            && (after.seats[j].active
                <==> s.active && (s.client.None? || NeverEngaged(b.engagements, s.client.value)
                                  || StillEngaged(b.engagements, s.client.value, cutoff)))
  {
    var es, s := b.engagements, b.seats[j];
    if s.client.Some? {
      CurrentWhenEngaged(es, s.client.value, cutoff);
      if !PortalCurrent(es, s.client.value, cutoff) {
        var k :| 0 <= k < |es| && es[k].client == s.client.value;
        assert HasEnded(es, s.client.value, cutoff);
      }
    }
  }

  lemma CurrentWhenEngaged(es: seq<Engagement>, client: nat, cutoff: int)
    ensures PortalCurrent(es, client, cutoff) <==> NeverEngaged(es, client) || StillEngaged(es, client, cutoff)
  {
    if i :| 0 <= i < |es| && es[i].client == client && !Ended(es[i], cutoff) {
      assert StillEngaged(es, client, cutoff);
    }
    if i :| 0 <= i < |es| && es[i].client == client && (es[i].endsOn.None? || es[i].endsOn.value > cutoff) {
      assert HasRunning(es, client, cutoff);
    }
  }

  lemma {:induction false} NobodyTouched(b: Book, clients: seq<nat>, cutoff: int)
    requires forall i :: 0 <= i < |clients| ==> !Touched(b, clients[i], cutoff)
    ensures CountTouched(b, clients, cutoff) == 0
  {
    if clients != [] {
      NobodyTouched(b, clients[..|clients| - 1], cutoff);
    }
  }

  lemma NothingLeftToTouch(b: Book, cutoff: int, client: nat)
    ensures !Touched(Offboard(b, true, cutoff).0, client, cutoff)
  {
    var after := Offboard(b, true, cutoff).0;
    forall i | 0 <= i < |after.cycles|
      ensures !Expired(after.engagements, after.cycles[i], cutoff)
    {
      NoOpenCycleLeft(b, cutoff, i);
    }
    forall j | 0 <= j < |after.seats|
      ensures OpenSeat(after.seats[j], client) ==> PortalCurrent(after.engagements, client, cutoff)
    {
      SeatsOnlyWhereCurrent(b, cutoff, j);
    }
  }

  /** A run moved something of this client. */
  ghost predicate Changed(b: Book, after: Book, client: nat)
    requires |after.cycles| == |b.cycles| && |after.seats| == |b.seats|
  {
    || (exists i :: 0 <= i < |b.cycles| && b.cycles[i].client == client && after.cycles[i] != b.cycles[i])
    || (exists j :: 0 <= j < |b.seats| && b.seats[j].client == Some(client) && after.seats[j] != b.seats[j])
  }

  lemma TouchedIsChanged(b: Book, cutoff: int, client: nat)
    requires HasEnded(b.engagements, client, cutoff)
    ensures Touched(b, client, cutoff) <==> Changed(b, Offboard(b, true, cutoff).0, client)
  {
    var after := Offboard(b, true, cutoff).0;
    assert forall i :: 0 <= i < |b.cycles| && b.cycles[i].client == client ==>
                         (Expired(b.engagements, b.cycles[i], cutoff) <==> after.cycles[i] != b.cycles[i]);
    assert forall j :: 0 <= j < |b.seats| && b.seats[j].client == Some(client) ==>
                         (!PortalCurrent(b.engagements, client, cutoff) && OpenSeat(b.seats[j], client)
                          <==> after.seats[j] != b.seats[j]);
  }

  function TouchedAmong(b: Book, clients: seq<nat>, cutoff: int): set<nat> {
    set c | c in clients && Touched(b, c, cutoff)
  }

  predicate EachOnce(clients: seq<nat>) {
    forall i, j :: 0 <= i < j < |clients| ==> clients[i] != clients[j]
  }

  lemma OneMoreTouched(b: Book, clients: seq<nat>, cutoff: int)
    requires clients != [] && EachOnce(clients)
    ensures var n := |clients| - 1;
            && EachOnce(clients[..n]) && clients[n] !in TouchedAmong(b, clients[..n], cutoff)
            && TouchedAmong(b, clients, cutoff)
               == TouchedAmong(b, clients[..n], cutoff) + if Touched(b, clients[n], cutoff) then {clients[n]} else {}
  {
    var n := |clients| - 1;
    assert clients == clients[..n] + [clients[n]];
  }

  lemma {:induction false} CountedOnce(b: Book, clients: seq<nat>, cutoff: int)
    requires EachOnce(clients)
    ensures CountTouched(b, clients, cutoff) == |TouchedAmong(b, clients, cutoff)|
  {
    if clients == [] {
      assert TouchedAmong(b, clients, cutoff) == {};
    } else {
      OneMoreTouched(b, clients, cutoff);
      CountedOnce(b, clients[..|clients| - 1], cutoff);
    }
  }

  /** The job's answer is the number of clients with an ended engagement of which it changed anything. */
  lemma AnswerCountsChangedClients(b: Book, cutoff: int)
    ensures var (after, changed) := Offboard(b, true, cutoff);
            changed == |set c | c in EndedClients(b.engagements, cutoff) && Changed(b, after, c)|
  {
    var clients, after := EndedClients(b.engagements, cutoff), Offboard(b, true, cutoff).0;
    CountedOnce(b, clients, cutoff);
    forall c | c in clients
      ensures Touched(b, c, cutoff) <==> Changed(b, after, c)
    {
      TouchedIsChanged(b, cutoff, c);
    }
    assert TouchedAmong(b, clients, cutoff) == set c | c in clients && Changed(b, after, c);
  }

  lemma ReachesFurther(es: seq<Engagement>, client: nat, cutoff: int, later: int)
    requires cutoff <= later
    ensures HasEnded(es, client, cutoff) ==> HasEnded(es, client, later)
    ensures PortalCurrent(es, client, later) ==> PortalCurrent(es, client, cutoff)
  {
    if HasEnded(es, client, cutoff) {
      var i :| 0 <= i < |es| && es[i].client == client && Ended(es[i], cutoff);
      assert Ended(es[i], later);
    }
    if HasRunning(es, client, later) {
      var i :| 0 <= i < |es| && es[i].client == client && !Ended(es[i], later);
      assert !Ended(es[i], cutoff);
    }
  }

  /**
   Running on an earlier day first changes nothing about a later run's result: a missed day is caught up
   exactly, and a second run on the same day finds nothing.
   */
  lemma EarlierRunsAreAbsorbed(b: Book, cutoff: int, later: int)
    requires cutoff <= later
    ensures Offboard(Offboard(b, true, cutoff).0, true, later).0 == Offboard(b, true, later).0
  {
    var es := b.engagements;
    var first := Offboard(b, true, cutoff).0;
    var second := Offboard(first, true, later).0;
    var direct := Offboard(b, true, later).0;
    forall i | 0 <= i < |b.cycles|
      ensures second.cycles[i] == direct.cycles[i]
    {
      ReachesFurther(es, b.cycles[i].client, cutoff, later);
      assert Expired(es, b.cycles[i], cutoff) ==> HasEnded(es, b.cycles[i].client, cutoff);
    }
    forall j | 0 <= j < |b.seats|
      ensures second.seats[j] == direct.seats[j]
    {
      if b.seats[j].client.Some? {
        ReachesFurther(es, b.seats[j].client.value, cutoff, later);
      }
    }
    assert second.cycles == direct.cycles && second.seats == direct.seats;
  }

  lemma SecondRunIsQuiet(b: Book, cutoff: int)
    ensures var first := Offboard(b, true, cutoff).0; Offboard(first, true, cutoff) == (first, 0)
  {
    var first := Offboard(b, true, cutoff).0;
    EarlierRunsAreAbsorbed(b, cutoff, cutoff);
    forall client {
      NothingLeftToTouch(b, cutoff, client);
    }
    NobodyTouched(first, EndedClients(first.engagements, cutoff), cutoff);
  }

  // ---------------------------------------------------------------------------------------------
  // The job
  // ---------------------------------------------------------------------------------------------

  class OffboardingDesk {
    const grace: int
    var engagements: seq<Engagement>
    var cycles: seq<Cycle>
    var seats: seq<Seat>

    ghost function Contents(): Book
      reads this
    {
      Book(engagements, cycles, seats)
    }

    constructor (grace: int, book: Book)
      ensures this.grace == grace && Contents() == book
    {
      this.grace := grace;
      engagements, cycles, seats := book.engagements, book.cycles, book.seats;
    }

    /** Cancel the client's open work on ended engagements, one cycle at a time. */
    method CancelCycles(client: nat, cutoff: int) returns (cancelled: nat)
      modifies `cycles
      ensures |cycles| == old(|cycles|)
      ensures forall i :: 0 <= i < |cycles| ==> cycles[i] == SettledCycle(engagements, old(cycles)[i], cutoff, {client})
      ensures cancelled > 0 <==> exists i :: 0 <= i < old(|cycles|) && old(cycles)[i].client == client
                                             && Expired(engagements, old(cycles)[i], cutoff)
    {
      cancelled := 0;
      for i := 0 to |cycles|
        invariant |cycles| == old(|cycles|)
        invariant forall k :: 0 <= k < i ==> cycles[k] == SettledCycle(engagements, old(cycles)[k], cutoff, {client})
        invariant forall k :: i <= k < |cycles| ==> cycles[k] == old(cycles)[k]
        invariant cancelled > 0 <==> exists k :: 0 <= k < i && old(cycles)[k].client == client
                                                 && Expired(engagements, old(cycles)[k], cutoff)
      {
        if cycles[i].client == client && Expired(engagements, cycles[i], cutoff) {
          cycles := cycles[i := CancelledCycle(cycles[i])];
          cancelled := cancelled + 1;
        }
      }
    }

    /** Deactivate the client's surviving seats, unless its portal engagement is current. */
    method RevokeSeats(client: nat, cutoff: int) returns (revoked: nat)
      modifies `seats
      ensures |seats| == old(|seats|)
      ensures forall j :: 0 <= j < |seats| ==> seats[j] == SettledSeat(engagements, old(seats)[j], cutoff, {client})
      ensures revoked > 0 <==> !PortalCurrent(engagements, client, cutoff)
                               && exists j :: 0 <= j < old(|seats|) && OpenSeat(old(seats)[j], client)
    {
      revoked := 0;
      if PortalCurrent(engagements, client, cutoff) {
        return;
      }
      for j := 0 to |seats|
        invariant |seats| == old(|seats|)
        invariant forall k :: 0 <= k < j ==> seats[k] == SettledSeat(engagements, old(seats)[k], cutoff, {client})
        invariant forall k :: j <= k < |seats| ==> seats[k] == old(seats)[k]
        invariant revoked > 0 <==> exists k :: 0 <= k < j && OpenSeat(old(seats)[k], client)
      {
        if OpenSeat(seats[j], client) {
          seats := seats[j := seats[j].(active := false)];
          revoked := revoked + 1;
        }
      }
    }

    /** One client's transaction. */
    method OffboardClient(client: nat, cutoff: int, ghost before: Book, ghost done: set<nat>) returns (changed: bool)
      requires Contents() == Settled(before, cutoff, done) && client !in done
      modifies `cycles, `seats
      ensures Contents() == Settled(before, cutoff, done + {client})
      ensures changed == Touched(before, client, cutoff)
    {
      var cancelled := CancelCycles(client, cutoff);
      var revoked := RevokeSeats(client, cutoff);
      changed := cancelled > 0 || revoked > 0;
      UntouchedSoFar(before, cutoff, done, client);
      assert cycles == Settled(before, cutoff, done + {client}).cycles;
      assert seats == Settled(before, cutoff, done + {client}).seats;
    }

    /** The whole job for one day: its result is the state and the count `Offboard` names. */
    method OffboardEngagements(flagged: bool, today: int) returns (changed: nat)
      modifies `cycles, `seats
      ensures (Contents(), changed) == Offboard(old(Contents()), flagged, today - grace)
    {
      if !flagged {
        return 0;
      }
      var cutoff := today - grace;
      ghost var before := Contents();
      var clients := EndedClients(engagements, cutoff);
      changed := 0;
      assert cycles == Settled(before, cutoff, {}).cycles && seats == Settled(before, cutoff, {}).seats;
      for i := 0 to |clients|
        invariant Contents() == Settled(before, cutoff, AsSet(clients[..i]))
        invariant changed == CountTouched(before, clients[..i], cutoff)
      {
        var touched := OffboardClient(clients[i], cutoff, before, AsSet(clients[..i]));
        if touched {
          changed := changed + 1;
        }
        assert clients[..i + 1][..i] == clients[..i];
        OneMoreClient(clients, i);
      }
      assert clients[..|clients|] == clients;
    }
  }

  /** Offboarding other clients first leaves this one as it was. */
  lemma UntouchedSoFar(b: Book, cutoff: int, done: set<nat>, client: nat)
    requires client !in done
    ensures Touched(Settled(b, cutoff, done), client, cutoff) <==> Touched(b, client, cutoff)
  {
    var after := Settled(b, cutoff, done);
    assert forall i :: 0 <= i < |b.cycles| && (b.cycles[i].client == client || after.cycles[i].client == client)
                       ==> after.cycles[i] == b.cycles[i];
    assert forall j :: 0 <= j < |b.seats| && (OpenSeat(b.seats[j], client) || OpenSeat(after.seats[j], client))
                       ==> after.seats[j] == b.seats[j];
  }
}
