/**
 Reviewer grants of one firm: versioned grant and revoke decisions, and the audit trail they leave.

 Grants of the one administered capability are numbered by position. A request runs under the user
 locks and the seat's row lock, so it is one atomic step. Permission checks are parameters.
 */
module ReviewerGrants {
  import opened Options

  datatype Seat = Seat(user: nat, firmSide: bool, accountant: bool, active: bool, version: nat)
  {
    predicate Eligible() {
      firmSide && accountant && active
    }
  }

  datatype Grant = Grant(user: nat, expires: Option<int>, revokedAt: Option<int>)
  {
    predicate OpenFor(user: nat) {
      this.user == user && revokedAt.None?
    }

    predicate Unexpired(now: int) {
      expires.None? || expires.value > now
    }
  }

  datatype Event = Granted(user: nat, grant: nat) | Revoked(user: nat, grant: nat)

  datatype Firm = Firm(seats: map<nat, Seat>, grants: seq<Grant>, events: seq<Event>)

  datatype Refusal = SeatRefused | NotPermitted | Conflict

  /** A decision as the caller sends it: `user` is the seat's user as the caller read it. */
  datatype Request = Request(
    seat: nat,
    user: nat,
    userActive: bool,
    permitted: bool,
    enabled: bool,
    expected: nat,
    now: int)

  type Answer = Result<Option<nat>, Refusal>

  /** The first open grant of a user, searching from the front. */
  function FirstOpen(grants: seq<Grant>, user: nat): (r: Option<nat>)
    ensures r.Some? ==> r.value < |grants| && grants[r.value].OpenFor(user)
    ensures r.None? ==> forall i :: 0 <= i < |grants| ==> !grants[i].OpenFor(user)
  {
    if grants == [] then None
    else
      var earlier := FirstOpen(grants[..|grants| - 1], user);
      if earlier.Some? then earlier
      else if grants[|grants| - 1].OpenFor(user) then Some(|grants| - 1)
      else None
  }

  function Revoke(f: Firm, g: nat, now: int): Firm
    requires g < |f.grants|
  {
    f.(grants := f.grants[g := f.grants[g].(revokedAt := Some(now))],
       events := f.events + [Revoked(f.grants[g].user, g)])
  }

  function Bump(f: Firm, seat: nat): Firm
    requires seat in f.seats
  {
    f.(seats := f.seats[seat := f.seats[seat].(version := f.seats[seat].version + 1)])
  }

  function Issue(f: Firm, user: nat): Firm {
    f.(grants := f.grants + [Grant(user, None, None)], events := f.events + [Granted(user, |f.grants|)])
  }

  function Refused(f: Firm, q: Request): Option<Refusal> {
    if q.seat !in f.seats || f.seats[q.seat].user != q.user || !q.userActive || !f.seats[q.seat].Eligible()
    then Some(SeatRefused)
    else if !q.permitted then Some(NotPermitted)
    else if f.seats[q.seat].version != q.expected then Some(Conflict)
    else None
  }

  /** `set_review_capability`: the new state and the answer. */
  function Decide(f: Firm, q: Request): (Firm, Answer) {
    var refusal := Refused(f, q);
    if refusal.Some? then (f, Err(refusal.value))
    else
      var existing := FirstOpen(f.grants, q.user);
      if q.enabled then
        if existing.Some? && f.grants[existing.value].Unexpired(q.now) then (f, Ok(existing))
        else
          var cleared := if existing.Some? then Revoke(f, existing.value, q.now) else f;
          (Issue(Bump(cleared, q.seat), q.user), Ok(Some(|f.grants|)))
      else if existing.None? then (f, Ok(None))
      else (Revoke(Bump(f, q.seat), existing.value, q.now), Ok(existing))
  }

  /** Decisions, and what other code does meanwhile: seats change role or activity, grants get an expiry. */
  datatype Step =
    | Decision(request: Request)
    | Reseat(seat: nat, accountant: bool, active: bool)
    | SetExpiry(grant: nat, expires: Option<int>)

  function After(f: Firm, step: Step): Firm {
    match step
    case Decision(q) => Decide(f, q).0
    case Reseat(seat, accountant, active) =>
      if seat !in f.seats then f
      else f.(seats := f.seats[seat := f.seats[seat].(accountant := accountant, active := active)])
    case SetExpiry(g, expires) =>
      if g >= |f.grants| then f else f.(grants := f.grants[g := f.grants[g].(expires := expires)])
  }

  function Run(f: Firm, steps: seq<Step>): Firm {
    if steps == [] then f else After(Run(f, steps[..|steps| - 1]), steps[|steps| - 1])
  }

  // ---------------------------------------------------------------------------------------------
  // The audit trail is a faithful record
  // ---------------------------------------------------------------------------------------------

  /** The grant a user holds according to the events alone. */
  function Replay(events: seq<Event>, user: nat): Option<nat> {
    if events == [] then None
    else
      var last := events[|events| - 1];
      if last.user != user then Replay(events[..|events| - 1], user)
      else if last.Granted? then Some(last.grant)
      else None
  }

  /** Each user's events alternate, a grant first, and a revocation names the grant it ends. */
  predicate Alternates(events: seq<Event>) {
    forall k :: 0 <= k < |events| ==>
      Replay(events[..k], events[k].user) == if events[k].Granted? then None else Some(events[k].grant)
  }

  ghost predicate TrailMatches(f: Firm) {
    forall user: nat, i: nat :: i < |f.grants| ==>
      (f.grants[i].OpenFor(user) <==> Replay(f.events, user) == Some(i))
  }

  ghost predicate ReplayInRange(f: Firm) {
    forall user: nat :: Replay(f.events, user).Some? ==> Replay(f.events, user).value < |f.grants|
  }

  ghost predicate FirmOk(f: Firm) {
    Alternates(f.events) && TrailMatches(f) && ReplayInRange(f)
  }

  lemma OneMoreEvent(events: seq<Event>, e: Event, user: nat)
    ensures Replay(events + [e], user)
            == if e.user != user then Replay(events, user) else if e.Granted? then Some(e.grant) else None
    ensures Alternates(events) && Replay(events, e.user) == (if e.Granted? then None else Some(e.grant)) ==>
              Alternates(events + [e])
  {
    var longer := events + [e];
    assert longer[..|events|] == events;
    forall k | 0 <= k < |events|
      ensures longer[..k] == events[..k]
    {
    }
  }

  lemma RevokeKeeps(f: Firm, g: nat, now: int)
    requires FirmOk(f) && g < |f.grants| && f.grants[g].revokedAt.None?
    ensures FirmOk(Revoke(f, g, now)) && Replay(Revoke(f, g, now).events, f.grants[g].user) == None
  {
    var holder := f.grants[g].user;
    assert f.grants[g].OpenFor(holder);
    var h := Revoke(f, g, now);
    OneMoreEvent(f.events, Revoked(holder, g), holder);
    forall u: nat
      ensures Replay(h.events, u) == if u == holder then None else Replay(f.events, u)
    {
      OneMoreEvent(f.events, Revoked(holder, g), u);
    }
  }

  lemma IssueKeeps(f: Firm, user: nat)
    requires FirmOk(f) && Replay(f.events, user) == None
    ensures FirmOk(Issue(f, user))
  {
    var g := Issue(f, user);
    OneMoreEvent(f.events, Granted(user, |f.grants|), user);
    forall u: nat
      ensures Replay(g.events, u) == if u == user then Some(|f.grants|) else Replay(f.events, u)
    {
      OneMoreEvent(f.events, Granted(user, |f.grants|), u);
    }
    forall u: nat, i: nat | i < |g.grants|
      ensures g.grants[i].OpenFor(u) <==> Replay(g.events, u) == Some(i)
    {
      assert i < |f.grants| ==> g.grants[i] == f.grants[i];
      assert Replay(f.events, u) != Some(|f.grants|);
    }
  }

  lemma ReplayIsFirstOpen(f: Firm, user: nat)
    requires FirmOk(f)
    ensures Replay(f.events, user) == FirstOpen(f.grants, user)
  {
    if Replay(f.events, user).Some? {
      assert f.grants[Replay(f.events, user).value].OpenFor(user);
    }
  }

  lemma OpenOnTrail(f: Firm, user: nat, i: nat)
    requires FirmOk(f)
    ensures i < |f.grants| && f.grants[i].OpenFor(user) ==> Replay(f.events, user) == Some(i)
  {
  }

  lemma DecideKeeps(f: Firm, q: Request)
    requires FirmOk(f)
    ensures FirmOk(Decide(f, q).0)
  {
    if Refused(f, q).None? {
      ReplayIsFirstOpen(f, q.user);
      var existing := FirstOpen(f.grants, q.user);
      if existing.Some? {
        RevokeKeeps(f, existing.value, q.now);
        RevokeKeeps(Bump(f, q.seat), existing.value, q.now);
      }
      if q.enabled && (existing.Some? ==> !f.grants[existing.value].Unexpired(q.now)) {
        var cleared := if existing.Some? then Revoke(f, existing.value, q.now) else f;
        IssueKeeps(Bump(cleared, q.seat), q.user);
      }
    }
  }

  lemma StepKeeps(f: Firm, step: Step)
    requires FirmOk(f)
    ensures FirmOk(After(f, step))
  {
    if step.Decision? {
      DecideKeeps(f, step.request);
    }
  }

  lemma {:induction false} RunKeeps(f: Firm, steps: seq<Step>)
    requires FirmOk(f)
    ensures FirmOk(Run(f, steps))
  {
    if steps != [] {
      RunKeeps(f, steps[..|steps| - 1]);
      StepKeeps(Run(f, steps[..|steps| - 1]), steps[|steps| - 1]);
    }
  }

  /**
   From a firm without grants, after any run: a user has at most one unrevoked grant, and it is the one
   the user's alternating audit events end on.
   */
  lemma {:induction false} TrailIsTheState(seats: map<nat, Seat>, steps: seq<Step>, user: nat, i: nat, j: nat)
    ensures var f := Run(Firm(seats, [], []), steps);
            && Alternates(f.events) && Replay(f.events, user) == FirstOpen(f.grants, user)
            && (i < |f.grants| && j < |f.grants| && f.grants[i].OpenFor(user) && f.grants[j].OpenFor(user) ==> i == j)
  {
    var f := Run(Firm(seats, [], []), steps);
    RunKeeps(Firm(seats, [], []), steps);
    ReplayIsFirstOpen(f, user);
    OpenOnTrail(f, user, i);
    OpenOnTrail(f, user, j);
  }

  // ---------------------------------------------------------------------------------------------
  // Decisions and revisions
  // ---------------------------------------------------------------------------------------------

  /** What the roster shows: an unrevoked grant that has not expired. */
  predicate IsReviewer(f: Firm, user: nat, now: int) {
    exists i :: 0 <= i < |f.grants| && f.grants[i].OpenFor(user) && f.grants[i].Unexpired(now)
  }

  /** An accepted decision leaves exactly the state it asked for; a refused one leaves everything. */
  lemma DecisionTakesEffect(f: Firm, q: Request)
    requires FirmOk(f)
    ensures var (g, answer) := Decide(f, q);
            && (answer.Ok? ==> (IsReviewer(g, q.user, q.now) <==> q.enabled))
            && (answer.Ok? && !q.enabled ==> FirstOpen(g.grants, q.user) == None)
            && (answer.Err? ==> g == f)
  {
    var (g, answer) := Decide(f, q);
    DecideKeeps(f, q);
    ReplayIsFirstOpen(f, q.user);
    ReplayIsFirstOpen(g, q.user);
    if answer.Ok? && q.enabled {
      assert g.grants[answer.value.value].OpenFor(q.user);
    }
    if answer.Ok? && !q.enabled && FirstOpen(f.grants, q.user).Some? {
      RevokeKeeps(Bump(f, q.seat), FirstOpen(f.grants, q.user).value, q.now);
    }
  }

  /** The seat is the one the caller read, of a working accountant of the firm. */
  predicate SeatInOrder(f: Firm, q: Request) {
    && q.seat in f.seats && f.seats[q.seat].user == q.user && q.userActive
    && f.seats[q.seat].firmSide && f.seats[q.seat].accountant && f.seats[q.seat].active
  }

  /** The user's unrevoked grant, if there is one. */
  predicate Holds(f: Firm, user: nat, g: nat) {
    g < |f.grants| && f.grants[g].user == user && f.grants[g].revokedAt == None
  }

  /** The grant has no end, or one that is still to come. */
  predicate Running(g: Grant, now: int) {
    g.expires.Some? ==> now < g.expires.value
  }

  /** The grants after a decision: one of them revoked now, or not, and then a fresh one, or not. */
  predicate GrantsMoved(before: seq<Grant>, after: seq<Grant>, revoked: Option<nat>, now: int, added: Option<nat>) {
    && |after| == |before| + (if added.Some? then 1 else 0)
    && (added.Some? ==> after[|before|] == Grant(added.value, None, None))
    && forall i :: 0 <= i < |before| ==>
         after[i] == if revoked == Some(i) then Grant(before[i].user, before[i].expires, Some(now)) else before[i]
  }

  lemma HeldIsFirstOpen(f: Firm, user: nat, g: nat)
    requires FirmOk(f)
    ensures Holds(f, user, g) <==> FirstOpen(f.grants, user) == Some(g)
  {
    ReplayIsFirstOpen(f, user);
    OpenOnTrail(f, user, g);
  }

  /**
   What an accepted decision writes. Granting leaves a running grant alone, and otherwise ends the expired one
   and adds a fresh one; revoking ends the grant there is. Anything written moves the seat's revision by one.
   */
  lemma DecisionWrites(f: Firm, q: Request, g: nat)
    requires FirmOk(f) && Decide(f, q).1.Ok?
    ensures var (after, answer) := Decide(f, q);
            var bumped := f.seats[q.seat := f.seats[q.seat].(version := q.expected + 1)];
            && (Holds(f, q.user, g) && q.enabled && Running(f.grants[g], q.now) ==>
                  after == f && answer.value == Some(g))
            && (Holds(f, q.user, g) && q.enabled && !Running(f.grants[g], q.now) ==>
                  && GrantsMoved(f.grants, after.grants, Some(g), q.now, Some(q.user))
                  && after.seats == bumped && answer.value == Some(|f.grants|))
            && (Holds(f, q.user, g) && !q.enabled ==>
                  && GrantsMoved(f.grants, after.grants, Some(g), q.now, None)
                  && after.seats == bumped && answer.value == Some(g))
            && ((forall k: nat :: !Holds(f, q.user, k)) ==>
                  if q.enabled then
                    && GrantsMoved(f.grants, after.grants, None, q.now, Some(q.user))
                    && after.seats == bumped && answer.value == Some(|f.grants|)
                  else after == f && answer.value == None)
  {
    HeldIsFirstOpen(f, q.user, g);
    var existing := FirstOpen(f.grants, q.user);
    if existing.Some? {
      HeldIsFirstOpen(f, q.user, existing.value);
    }
  }

  /** A decision leaves what every other user's events replay to. */
  lemma {:induction false} OtherUsersKeepTheirTrail(f: Firm, q: Request, user: nat)
    requires user != q.user
    ensures Replay(Decide(f, q).0.events, user) == Replay(f.events, user)
  {
    if Refused(f, q).None? {
      var existing := FirstOpen(f.grants, q.user);
      var cleared := f.events;
      if existing.Some? {
        OneMoreEvent(f.events, Revoked(q.user, existing.value), user);
        cleared := f.events + [Revoked(q.user, existing.value)];
      }
      OneMoreEvent(cleared, Granted(q.user, |f.grants|), user);
    }
  }

  lemma {:induction false} OpenElsewhere(grants: seq<Grant>, i: nat, g: Grant, user: nat)
    requires i < |grants| && grants[i].user != user && g.user != user
    ensures FirstOpen(grants[i := g], user) == FirstOpen(grants, user)
  {
    var n := |grants| - 1;
    if i < n {
      assert grants[i := g][..n] == grants[..n][i := g];
      OpenElsewhere(grants[..n], i, g, user);
    } else {
      assert grants[i := g][..n] == grants[..n];
    }
  }

  lemma OpenBefore(grants: seq<Grant>, g: Grant, user: nat)
    requires g.user != user
    ensures FirstOpen(grants + [g], user) == FirstOpen(grants, user)
  {
    assert (grants + [g])[..|grants|] == grants;
  }

  /** A decision touches one user's grants and one seat's revision, and no other. */
  lemma {:induction false} OtherUsersKeepTheirGrants(f: Firm, q: Request, user: nat, seat: nat)
    requires user != q.user && seat != q.seat
    ensures var g := Decide(f, q).0;
            && FirstOpen(g.grants, user) == FirstOpen(f.grants, user)
            && (seat in g.seats <==> seat in f.seats) && (seat in f.seats ==> g.seats[seat] == f.seats[seat])
  {
    if Refused(f, q).None? {
      var existing := FirstOpen(f.grants, q.user);
      var cleared := f.grants;
      if existing.Some? {
        var ended := f.grants[existing.value].(revokedAt := Some(q.now));
        OpenElsewhere(f.grants, existing.value, ended, user);
        cleared := f.grants[existing.value := ended];
      }
      OpenBefore(cleared, Grant(q.user, None, None), user);
    }
  }

  /** The decisions among these steps that changed the seat's grant. */
  function Transitions(f: Firm, steps: seq<Step>, seat: nat): nat {
    if steps == [] then 0
    else
      var before, last := Run(f, steps[..|steps| - 1]), steps[|steps| - 1];
      Transitions(f, steps[..|steps| - 1], seat)
      + if last.Decision? && last.request.seat == seat && After(before, last).grants != before.grants then 1 else 0
  }

  /** A seat's revision counts exactly the decisions that changed its grant, however many events each wrote. */
  lemma {:induction false} RevisionCountsTransitions(f: Firm, steps: seq<Step>, seat: nat)
    requires seat in f.seats
    ensures var g := Run(f, steps);
            seat in g.seats && g.seats[seat].version == f.seats[seat].version + Transitions(f, steps, seat)
  {
    if steps != [] {
      RevisionCountsTransitions(f, steps[..|steps| - 1], seat);
      OneRevisionPerTransition(Run(f, steps[..|steps| - 1]), steps[|steps| - 1], seat);
    }
  }

  lemma OneRevisionPerTransition(f: Firm, step: Step, seat: nat)
    requires seat in f.seats
    ensures var g := After(f, step);
            && seat in g.seats
            && g.seats[seat].version == f.seats[seat].version
                 + if step.Decision? && step.request.seat == seat && g.grants != f.grants then 1 else 0
  {
    if step.Decision? && Refused(f, step.request).None? {
      var existing := FirstOpen(f.grants, step.request.user);
      assert existing.Some? ==> f.grants[existing.value].revokedAt.None?;
      var g := After(f, step);
      assert g.grants != f.grants ==> |g.grants| != |f.grants| || g.grants[existing.value] != f.grants[existing.value];
    }
  }

  /**
   Of two decisions on one seat made from the same revision, however far apart, at most one changes
   anything: once the first has, the second is refused.
   */
  lemma OneDecisionPerRevision(f: Firm, first: Request, between: seq<Step>, second: Request)
    requires first.seat == second.seat && first.expected == second.expected
    requires Decide(f, first).0.grants != f.grants
    ensures var g := Run(Decide(f, first).0, between); Decide(g, second).0 == g && Decide(g, second).1.Err?
  {
    OneRevisionPerTransition(f, Decision(first), first.seat);
    RevisionCountsTransitions(Decide(f, first).0, between, first.seat);
  }

  /** The firm's reviewer grants as they are stored, changed only by decisions. */
  class GrantDesk {
    var seats: map<nat, Seat>
    var grants: seq<Grant>
    var events: seq<Event>

    ghost function Contents(): Firm
      reads this
    {
      Firm(seats, grants, events)
    }

    ghost predicate Valid()
      reads this
    {
      FirmOk(Contents())
    }

    constructor (seats: map<nat, Seat>)
      ensures Valid() && Contents() == Firm(seats, [], [])
    {
      this.seats, grants, events := seats, [], [];
    }

    /** Apply a decision to the revision its caller read; the answer names the grant it leaves or ends. */
    method SetReviewCapability(q: Request) returns (answer: Answer)
      requires Valid()
      modifies this
      ensures Valid()
      ensures (Contents(), answer) == Decide(old(Contents()), q)
      ensures answer.Ok? <==>
                SeatInOrder(old(Contents()), q) && q.permitted && old(seats)[q.seat].version == q.expected
      ensures answer == Err(Conflict) <==>
                SeatInOrder(old(Contents()), q) && q.permitted && old(seats)[q.seat].version != q.expected
      ensures answer == Err(NotPermitted) <==> SeatInOrder(old(Contents()), q) && !q.permitted
      ensures answer.Ok? ==> (IsReviewer(Contents(), q.user, q.now) <==> q.enabled)
    {
      DecideKeeps(Contents(), q);
      DecisionTakesEffect(Contents(), q);
      answer := WriteDecision(q);
    }

    /** The refusals in order, then the writes. */
    method WriteDecision(q: Request) returns (answer: Answer)
      modifies this
      ensures (Contents(), answer) == Decide(old(Contents()), q)
    {
      if q.seat !in seats || seats[q.seat].user != q.user || !q.userActive || !seats[q.seat].Eligible() {
        return Err(SeatRefused);
      }
      if !q.permitted {
        return Err(NotPermitted);
      }
      if seats[q.seat].version != q.expected {
        return Err(Conflict);
      }
      var existing := FirstOpen(grants, q.user);
      if q.enabled {
        if existing.Some? {
          if grants[existing.value].Unexpired(q.now) {
            return Ok(existing);
          }
          RevokeGrant(existing.value, q.now);
        }
        seats := seats[q.seat := seats[q.seat].(version := seats[q.seat].version + 1)];
        answer := Ok(Some(|grants|));
        events := events + [Granted(q.user, |grants|)];
        grants := grants + [Grant(q.user, None, None)];
        return;
      }
      if existing.Some? {
        seats := seats[q.seat := seats[q.seat].(version := seats[q.seat].version + 1)];
        RevokeGrant(existing.value, q.now);
      }
      answer := Ok(existing);
    }

    /** Mark one grant and write its audit event. */
    method RevokeGrant(g: nat, now: int)
      requires g < |grants|
      modifies `grants, `events
      ensures Contents() == Revoke(old(Contents()), g, now)
    {
      events := events + [Revoked(grants[g].user, g)];
      grants := grants[g := grants[g].(revokedAt := Some(now))];
    }
  }
}
