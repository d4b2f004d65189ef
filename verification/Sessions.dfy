// A login session: an idle timeout that slides with use, under an absolute cap, and
// the CSRF middleware that decides whether a request counts as use.
module Sessions {
  datatype Role = Admin | Customer

  const CUSTOMER_IDLE_TIMEOUT := 30 * 60
  const ADMIN_IDLE_TIMEOUT := 12 * 3600
  const ABSOLUTE_MAX_LIFETIME := 7 * 24 * 3600

  function IdleTimeoutFor(r: Role): int {
    if r.Admin? then ADMIN_IDLE_TIMEOUT else CUSTOMER_IDLE_TIMEOUT
  }

  function Min(a: int, b: int): int { if a < b then a else b }

  // A session row joined with its user.
  datatype Session = Session(createdAt: int, expiresAt: int, role: Role, disabled: bool, verified: bool)

  // A request that presents the session's cookie. `safe` is GET, HEAD or OPTIONS;
  // `csrfOk` is verify_csrf's verdict; `routeCommits` says the route ended without an
  // error (a safe request's slide is part of the route's own transaction).
  datatype Request = Request(at: int, safe: bool, csrfOk: bool, routeCommits: bool)
  datatype Response = Authenticated | Unauthenticated | CsrfRejected

  function Created(role: Role, now: int): Session {
    Session(now, Min(now + IdleTimeoutFor(role), now + ABSOLUTE_MAX_LIFETIME), role, false, true)
  }

  predicate Valid(s: Session, now: int) { s.expiresAt > now && !s.disabled && s.verified }

  function Slid(s: Session, now: int): Session {
    s.(expiresAt := Min(now + IdleTimeoutFor(s.role), s.createdAt + ABSOLUTE_MAX_LIFETIME))
  }

  // Whether the slide of a request persists, should its session be valid.
  predicate Commits(r: Request) { if r.safe then r.routeCommits else r.csrfOk }

  function Handled(s: Session, r: Request): (Session, Response) {
    if !Valid(s, r.at) then (s, Unauthenticated)
    else if !r.safe && !r.csrfOk then (s, CsrfRejected)
    else (if Commits(r) then Slid(s, r.at) else s, Authenticated)
  }

  function Run(s: Session, rs: seq<Request>): Session {
    if rs == [] then s else Handled(Run(s, rs[..|rs|-1]), rs[|rs|-1]).0
  }

  class SessionRow {
    const createdAt: int
    const role: Role
    var expiresAt: int
    var disabled: bool
    var verified: bool

    function Now(): Session
      reads this
    {
      Session(createdAt, expiresAt, role, disabled, verified)
    }

    // create_session, for an enabled and verified account.
    constructor (role: Role, now: int)
      ensures Now() == Created(role, now)
    {
      createdAt, this.role := now, role;
      expiresAt := Min(now + IdleTimeoutFor(role), now + ABSOLUTE_MAX_LIFETIME);
      disabled, verified := false, true;
    }

    method ValidateSession(now: int) returns (ok: bool)
      modifies this`expiresAt
      ensures ok == Valid(old(Now()), now)
      ensures Now() == if ok then Slid(old(Now()), now) else old(Now())
    {
      if expiresAt <= now { return false; }
      if disabled { return false; }
      if !verified { return false; }
      expiresAt := Min(now + IdleTimeoutFor(role), createdAt + ABSOLUTE_MAX_LIFETIME);
      return true;
    }

    // The middleware and, behind it, the route's own authentication.
    method Handle(r: Request) returns (response: Response)
      modifies this`expiresAt
      ensures (Now(), response) == Handled(old(Now()), r)
    {
      var committed := expiresAt;
      var ok := ValidateSession(r.at);
      if !ok { return Unauthenticated; }
      if !r.safe {
        if !r.csrfOk {
          expiresAt := committed;
          return CsrfRejected;
        }
        return Authenticated;
      }
      if !r.routeCommits { expiresAt := committed; }
      return Authenticated;
    }
  }

  // ---- How long a session lives ----

  // The instants of the requests that count as use.
  function Uses(rs: seq<Request>): seq<int> {
    if rs == [] then [] else Uses(rs[..|rs|-1]) + if Commits(rs[|rs|-1]) then [rs[|rs|-1].at] else []
  }

  predicate GapsBelow(times: seq<int>, limit: int) {
    forall i :: 0 <= i < |times| - 1 ==> times[i+1] - times[i] < limit
  }

  predicate Clock(from: int, rs: seq<Request>) {
    && (forall i :: 0 <= i < |rs| ==> from <= rs[i].at)
    && (forall i, j :: 0 <= i < j < |rs| ==> rs[i].at <= rs[j].at)
  }

  // The expiry is the last use that still found the session alive, plus the idle
  // timeout, capped.
  predicate Tracks(s: Session, times: seq<int>, role: Role, created: int) {
    var idle, cap := IdleTimeoutFor(role), created + ABSOLUTE_MAX_LIFETIME;
    && times != [] && s == Session(created, s.expiresAt, role, false, true) && s.expiresAt <= cap
    && (forall i, j :: 0 <= i < j < |times| ==> times[i] <= times[j])
    && (if GapsBelow(times, idle) && times[|times|-1] < cap
        then s.expiresAt == Min(times[|times|-1] + idle, cap) else s.expiresAt <= times[|times|-1])
  }

  lemma GapsAppend(times: seq<int>, t: int, limit: int)
    requires times != []
    ensures GapsBelow(times + [t], limit) <==> GapsBelow(times, limit) && t - times[|times|-1] < limit
  {
    var n := times + [t];
    if GapsBelow(n, limit) {
      forall i | 0 <= i < |times| - 1 ensures times[i+1] - times[i] < limit { assert n[i+1] - n[i] < limit; }
      assert n[|times|-1+1] - n[|times|-1] < limit;
    }
  }

  lemma TracksStep(s: Session, times: seq<int>, role: Role, created: int, r: Request)
    requires Tracks(s, times, role, created) && times[|times|-1] <= r.at
    ensures Valid(s, r.at) <==>
      GapsBelow(times + [r.at], IdleTimeoutFor(role)) && r.at < created + ABSOLUTE_MAX_LIFETIME
    ensures Tracks(Handled(s, r).0, times + if Commits(r) then [r.at] else [], role, created)
  {
    GapsAppend(times, r.at, IdleTimeoutFor(role));
    assert times + [] == times;
  }

  lemma {:induction false} UsesBound(rs: seq<Request>, t: int)
    requires forall i :: 0 <= i < |rs| ==> rs[i].at <= t
    ensures forall i :: 0 <= i < |Uses(rs)| ==> Uses(rs)[i] <= t
  {
    if rs != [] { UsesBound(rs[..|rs|-1], t); }
  }

  lemma LastUse(created: int, rs: seq<Request>, t: int)
    requires created <= t && forall i :: 0 <= i < |rs| ==> rs[i].at <= t
    ensures var times := [created] + Uses(rs); times[|times|-1] <= t
  {
    UsesBound(rs, t);
  }

  lemma {:induction false} RunTracks(role: Role, created: int, rs: seq<Request>)
    requires Clock(created, rs)
    ensures Tracks(Run(Created(role, created), rs), [created] + Uses(rs), role, created)
  {
    if rs == [] {
      assert [created] + Uses(rs) == [created];
    } else {
      var pre, last := rs[..|rs|-1], rs[|rs|-1];
      RunTracks(role, created, pre);
      LastUse(created, pre, last.at);
      TracksStep(Run(Created(role, created), pre), [created] + Uses(pre), role, created, last);
      assert [created] + Uses(rs) == [created] + Uses(pre) + if Commits(last) then [last.at] else [];
    }
  }

  // Whatever was requested before, a session is accepted at t exactly when no two
  // consecutive uses since its creation, t included, are an idle timeout or more apart,
  // and t is within seven days of its creation. Requests that failed the CSRF check, or
  // whose route rolled back, do not appear: they never extend it.
  lemma SessionLifetime(role: Role, created: int, rs: seq<Request>, r: Request)
    requires Clock(created, rs + [r])
    ensures var s := Run(Created(role, created), rs);
      Handled(s, r).1 != Unauthenticated <==>
        && GapsBelow([created] + Uses(rs) + [r.at], IdleTimeoutFor(role))
        && r.at < created + ABSOLUTE_MAX_LIFETIME
  {
    assert Clock(created, rs) by {
      assert forall i :: 0 <= i < |rs| ==> (rs + [r])[i] == rs[i];
    }
    RunTracks(role, created, rs);
    var times := [created] + Uses(rs);
    assert (rs + [r])[|rs|] == r;
    if rs != [] { assert (rs + [r])[|rs|-1].at <= (rs + [r])[|rs|].at; }
    LastUse(created, rs, r.at);
    TracksStep(Run(Created(role, created), rs), times, role, created, r);
  }

  // No use came half an hour, or for an admin twelve hours, after the one before, and the
  // last is within seven days of the first.
  predicate InTime(times: seq<int>, role: Role) {
    var idle := if role == Admin then 43200 else 1800;
    && times != [] && times[|times|-1] < times[0] + 604800
    && forall i :: 0 <= i < |times| - 1 ==> times[i+1] - times[i] < idle
  }

  // The three answers over every run: a request in time reaches its route exactly when it is
  // safe or passed the CSRF check, and is rejected by the check otherwise; a request that is
  // not in time is not authenticated, whatever it carries.
  lemma AnswersIff(role: Role, created: int, rs: seq<Request>, r: Request)
    requires Clock(created, rs + [r])
    ensures
      var answer, inTime := Handled(Run(Created(role, created), rs), r).1,
          InTime([created] + Uses(rs) + [r.at], role);
      && (answer == Authenticated <==> inTime && (r.safe || r.csrfOk))
      && (answer == CsrfRejected <==> inTime && !r.safe && !r.csrfOk)
      && (answer == Unauthenticated <==> !inTime)
  {
    SessionLifetime(role, created, rs, r);
    var times := [created] + Uses(rs) + [r.at];
    assert times[|times|-1] == r.at && times[0] == created;
  }

  // What counts as a use: a safe request whose route commits, or a mutating one that passes
  // the CSRF check.
  predicate IsUse(r: Request) { if r.safe then r.routeCommits else r.csrfOk }

  lemma {:induction false} UsesAre(rs: seq<Request>, t: int)
    ensures t in Uses(rs) <==> exists i :: 0 <= i < |rs| && rs[i].at == t && IsUse(rs[i])
  {
    if rs != [] {
      var front, last := rs[..|rs|-1], rs[|rs|-1];
      UsesAre(front, t);
      if i :| 0 <= i < |rs| && rs[i].at == t && IsUse(rs[i]) {
        if i < |front| { assert front[i] == rs[i]; }
      }
      if t in Uses(front) {
        var i :| 0 <= i < |front| && front[i].at == t && IsUse(front[i]);
        assert rs[i] == front[i];
      }
    }
  }

  // A disabled or unverified account is refused whatever the row says, and refusing it
  // extends nothing.
  lemma {:induction false} LockedOut(s: Session, rs: seq<Request>, r: Request)
    requires s.disabled || !s.verified
    ensures Run(s, rs) == s && Handled(Run(s, rs), r) == (s, Unauthenticated)
  {
    if rs != [] { LockedOut(s, rs[..|rs|-1], r); }
  }
}
