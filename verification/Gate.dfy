/** The gate decisions (internal/environments/gate.go) and who may decide (internal/environments/service.go). */
module Gate {
  import opened Option
  import opened Windows
  import opened Promotions

  // ---- approvals ---------------------------------------------------------------------------------

  predicate Counts(allowSelf: bool, a: Approval) {
    a.verdict == Approve && (allowSelf || !a.self)
  }

  function CountedApprovals(allowSelf: bool, approvals: seq<Approval>): nat {
    if approvals == [] then 0
    else
      var last := |approvals| - 1;
      CountedApprovals(allowSelf, approvals[..last]) + if Counts(allowSelf, approvals[last]) then 1 else 0
  }

  ghost predicate DistinctUsers(approvals: seq<Approval>) {
    forall i, j :: 0 <= i < j < |approvals| ==> approvals[i].user != approvals[j].user
  }

  ghost function CountedUsers(allowSelf: bool, approvals: seq<Approval>): set<UserId> {
    set i | 0 <= i < |approvals| && approvals[i].verdict == Approve && (allowSelf || !approvals[i].self) :: approvals[i].user
  }

  method CountApprovals(env: Environment, p: Promotion) returns (n: nat)
    ensures n == CountedApprovals(env.allowSelf, p.approvals)
    ensures DistinctUsers(p.approvals) ==>
              var ok := set i | 0 <= i < |p.approvals| && p.approvals[i].verdict == Approve && (env.allowSelf || !p.approvals[i].self) ::
                          p.approvals[i].user;
              n == |ok|
  {
    n := 0;
    for i := 0 to |p.approvals|
      invariant n == CountedApprovals(env.allowSelf, p.approvals[..i])
    {
      var a := p.approvals[i];
      assert p.approvals[..i + 1][..i] == p.approvals[..i];
      if a.verdict != Approve {
        continue;
      }
      if a.self && !env.allowSelf {
        continue;
      }
      n := n + 1;
    }
    assert p.approvals[..|p.approvals|] == p.approvals;
    if DistinctUsers(p.approvals) {
      CountIsUsers(env.allowSelf, p.approvals);
      assert CountedUsers(env.allowSelf, p.approvals)
          == set i | 0 <= i < |p.approvals| && p.approvals[i].verdict == Approve && (env.allowSelf || !p.approvals[i].self) :: p.approvals[i].user;
    }
  }

  // The people counted, by the position of their approval.
  lemma CountedUsersOfPrefix(allowSelf: bool, init: seq<Approval>, a: Approval)
    requires DistinctUsers(init + [a])
    ensures a.user !in CountedUsers(allowSelf, init)
    ensures CountedUsers(allowSelf, init + [a]) == CountedUsers(allowSelf, init) + if Counts(allowSelf, a) then {a.user} else {}
  {
    var all := init + [a];
    forall i | 0 <= i < |init| ensures all[i] == init[i] && init[i].user != a.user {
      assert all[|init|] == a && all[i].user != all[|init|].user;
    }
    forall u | u in CountedUsers(allowSelf, init) ensures u in CountedUsers(allowSelf, all) {
      var i :| 0 <= i < |init| && init[i].verdict == Approve && (allowSelf || !init[i].self) && init[i].user == u;
      assert all[i] == init[i];
    }
    assert all[|init|] == a;
  }

  /** With one decision per user, the count is the number of distinct people whose approval counts. */
  lemma {:induction false} CountIsUsers(allowSelf: bool, approvals: seq<Approval>)
    requires DistinctUsers(approvals)
    ensures CountedApprovals(allowSelf, approvals) == |CountedUsers(allowSelf, approvals)|
  {
    if approvals != [] {
      var init, a := approvals[..|approvals| - 1], approvals[|approvals| - 1];
      assert approvals == init + [a];
      assert DistinctUsers(init);
      CountIsUsers(allowSelf, init);
      hide CountedUsers;
      CountedUsersOfPrefix(allowSelf, init, a);
    } else {
      assert CountedUsers(allowSelf, approvals) == {};
    }
  }

  /** Approvals are only ever appended, so a count taken on an older snapshot is never too high. */
  lemma {:induction false} CountOnPrefix(allowSelf: bool, earlier: seq<Approval>, later: seq<Approval>)
    requires earlier <= later
    ensures CountedApprovals(allowSelf, earlier) <= CountedApprovals(allowSelf, later)
    decreases |later|
  {
    if |earlier| < |later| {
      assert earlier <= later[..|later| - 1];
      CountOnPrefix(allowSelf, earlier, later[..|later| - 1]);
    } else {
      assert earlier == later;
    }
  }

  // ---- the approver list ---------------------------------------------------------------------------

  predicate Names(r: Reviewer, user: UserId, role: Role) {
    match r
    case ByUser(u) => u == Some(user)
    case ByRole(named) => role != NoRole && named == role
  }

  predicate OnApproverList(env: Environment, user: UserId, role: Role) {
    exists i | 0 <= i < |env.reviewers| :: Names(env.reviewers[i], user, role)
  }

  method IsApprover(env: Environment, user: UserId, role: Role) returns (yes: bool)
    ensures yes <==> OnApproverList(env, user, role)
  {
    for i := 0 to |env.reviewers|
      invariant forall j :: 0 <= j < i ==> !Names(env.reviewers[j], user, role)
    {
      match env.reviewers[i]
      case ByUser(u) =>
        if u.Some? && u.value == user {
          assert Names(env.reviewers[i], user, role);
          return true;
        }
      case ByRole(named) =>
        if role != NoRole && named == role {
          assert Names(env.reviewers[i], user, role);
          return true;
        }
    }
    return false;
  }

  datatype DecideError = InvalidState | NotAnApprover | SelfApprovalForbidden | AlreadyDecided

  predicate HasDecided(p: Promotion, user: UserId) {
    exists i | 0 <= i < |p.approvals| :: p.approvals[i].user == user
  }

  // The checks of canDecide, in its order; None is acceptance.
  function CanDecide(env: Environment, p: Promotion, a: Actor, approve: bool): Option<DecideError> {
    if !IsActive(p.status) || p.status == Deploying then Some(InvalidState)
    else if approve && p.status != Pending then Some(InvalidState)
    else if a.role == NoRole || !OnApproverList(env, a.user, a.role) then Some(NotAnApprover)
    else if env.production && a.role != Admin then Some(NotAnApprover)
    else if approve && p.requestedBy == Some(a.user) && !env.allowSelf then Some(SelfApprovalForbidden)
    else if HasDecided(p, a.user) then Some(AlreadyDecided)
    else None
  }

  /**
   Who may decide: only somebody on the list of reviewers, by name or by a role they hold, who has not
   decided yet; in production only an admin; nobody approves what has left pending, and a requester
   approves their own request only where the policy says so. Nothing else is asked.
   */
  lemma {:induction false} AcceptedExactlyWhen(env: Environment, p: Promotion, a: Actor, approve: bool)
    ensures CanDecide(env, p, a, approve) == None <==>
            && (p.status == Pending || (!approve && p.status in {Waiting, Approved}))
            && a.role != NoRole && (env.production ==> a.role == Admin)
            && (exists r :: r in env.reviewers && (r == ByUser(Some(a.user)) || r == ByRole(a.role)))
            && (approve && !env.allowSelf ==> p.requestedBy != Some(a.user))
            && (forall d :: d in p.approvals ==> d.user != a.user)
  {
    if exists r :: r in env.reviewers && (r == ByUser(Some(a.user)) || r == ByRole(a.role)) {
      var r :| r in env.reviewers && (r == ByUser(Some(a.user)) || r == ByRole(a.role));
      assert a.role != NoRole ==> Names(r, a.user, a.role);
    }
    if OnApproverList(env, a.user, a.role) {
      var i :| 0 <= i < |env.reviewers| && Names(env.reviewers[i], a.user, a.role);
      assert env.reviewers[i] in env.reviewers;
    }
    if HasDecided(p, a.user) {
      var i :| 0 <= i < |p.approvals| && p.approvals[i].user == a.user;
      assert p.approvals[i] in p.approvals;
    }
  }

  /** Why a decision is refused: the first of these that applies. */
  lemma {:induction false} RefusedBecause(env: Environment, p: Promotion, a: Actor, approve: bool)
    ensures var r := CanDecide(env, p, a, approve);
            var listed := exists r :: r in env.reviewers && (r == ByUser(Some(a.user)) || r == ByRole(a.role));
            var open := p.status == Pending || (!approve && p.status in {Waiting, Approved});
            var may := a.role != NoRole && listed && (env.production ==> a.role == Admin);
            var self := approve && p.requestedBy == Some(a.user) && !env.allowSelf;
            && (r == Some(InvalidState) <==> !open)
            && (r == Some(NotAnApprover) <==> open && !may)
            && (r == Some(SelfApprovalForbidden) <==> open && may && self)
            && (r == Some(AlreadyDecided) <==> open && may && !self && exists d :: d in p.approvals && d.user == a.user)
  {
    AcceptedExactlyWhen(env, p, a, approve);
    if exists r :: r in env.reviewers && (r == ByUser(Some(a.user)) || r == ByRole(a.role)) {
      var r :| r in env.reviewers && (r == ByUser(Some(a.user)) || r == ByRole(a.role));
      assert a.role != NoRole ==> Names(r, a.user, a.role);
    }
    if OnApproverList(env, a.user, a.role) {
      var i :| 0 <= i < |env.reviewers| && Names(env.reviewers[i], a.user, a.role);
      assert env.reviewers[i] in env.reviewers;
    }
    if HasDecided(p, a.user) {
      var i :| 0 <= i < |p.approvals| && p.approvals[i].user == a.user;
      assert p.approvals[i] in p.approvals;
    }
  }

  // ---- where a promotion goes ------------------------------------------------------------------------

  function Ready(env: Environment, quorumAt: int): int {
    quorumAt + env.waitMinutes * NS_PER_MINUTE
  }

  function NextAfterQuorum(env: Environment, quorumAt: int, now: int): (Status, Option<int>) {
    var t := Ready(env, quorumAt);
    if t > now then (Waiting, Some(NextOpen(env.windows, t)))
    else if OpenAt(env.windows, now) then (Approved, None)
    else (Waiting, Some(NextOpen(env.windows, now)))
  }

  datatype Advanced = Advanced(status: Status, notBefore: Option<int>, quorumAt: Option<int>, changed: bool)

  function Advance(env: Environment, p: Promotion, now: int): Advanced {
    match p.status
    case Pending =>
      if CountedApprovals(env.allowSelf, p.approvals) < env.required then
        Advanced(p.status, p.notBefore, p.quorumAt, false)
      else
        var (st, nb) := NextAfterQuorum(env, now, now);
        Advanced(st, nb, Some(now), true)
    case Waiting | Approved =>
      var q := if p.quorumAt.Some? then p.quorumAt.value else now;
      var (st, nb) := NextAfterQuorum(env, q, now);
      Advanced(st, nb, Some(q), !(st == p.status && nb == p.notBefore))
    case _ => Advanced(p.status, p.notBefore, p.quorumAt, false)
  }

  /**
   Advance case by case. Pending stays pending while fewer distinct people than required approved; then,
   as for a promotion past quorum, it is approved or waits, with quorum reached now or when it was recorded.
   Anything else is left alone.
   */
  lemma {:induction false} AdvanceByCases(env: Environment, p: Promotion, now: int)
    requires AllValid(env.windows) && DistinctUsers(p.approvals)
    ensures var a := Advance(env, p, now);
            if (p.status == Pending && |CountedUsers(env.allowSelf, p.approvals)| < env.required)
               || p.status in {Deploying, Success, Failed, Rejected, Cancelled, Expired}
            then a == Advanced(p.status, p.notBefore, p.quorumAt, false)
            else
              var q := if p.status == Pending || p.quorumAt == None then now else p.quorumAt.value;
              && a.quorumAt == Some(q) && a.status in {Waiting, Approved} && (a.notBefore == None <==> a.status == Approved)
              && (a.status == Approved <==> q + env.waitMinutes * 60_000_000_000 <= now && IsOpen(env.windows, now))
              && (a.changed <==> a.status != p.status || a.notBefore != p.notBefore)
  {
    hide NextAfterQuorum, IsOpen, CountedUsers, CountedApprovals;
    CountIsUsers(env.allowSelf, p.approvals);
    ApprovedExactlyWhenOpen(env, if p.status == Pending || p.quorumAt == None then now else p.quorumAt.value, now);
  }

  function Advanced'(env: Environment, p: Promotion, now: int): Promotion {
    var a := Advance(env, p, now);
    p.(status := a.status, notBefore := a.notBefore, quorumAt := a.quorumAt)
  }

  /** A promotion is let through exactly when the minutes to wait after quorum have passed and a window is open. */
  lemma ApprovedExactlyWhenOpen(env: Environment, quorumAt: int, now: int)
    requires AllValid(env.windows)
    ensures NextAfterQuorum(env, quorumAt, now).0 == Approved
            <==> quorumAt + env.waitMinutes * 60_000_000_000 <= now && IsOpen(env.windows, now)
    ensures NextAfterQuorum(env, quorumAt, now).0 in {Waiting, Approved}
    ensures NextAfterQuorum(env, quorumAt, now).1.None? <==> NextAfterQuorum(env, quorumAt, now).0 == Approved
  {
    OpenAtIffIsOpen(env.windows, now);
  }

  /**
   not_before is the earliest instant at which the promotion would be let through, and every
   re-evaluation before that instant gives the same answer.
   */
  lemma NotBeforeIsEarliest(env: Environment, quorumAt: int, now: int)
    requires AllValid(env.windows)
    requires NextAfterQuorum(env, quorumAt, now).0 == Waiting
    ensures var nb := NextAfterQuorum(env, quorumAt, now).1.value;
            && now < nb
            && NextAfterQuorum(env, quorumAt, nb) == (Approved, None)
            && quorumAt + env.waitMinutes * 60_000_000_000 <= nb && IsOpen(env.windows, nb)
            && (forall u :: now <= u < nb ==> u < quorumAt + env.waitMinutes * 60_000_000_000 || !IsOpen(env.windows, u))
            && forall u :: now <= u < nb ==> NextAfterQuorum(env, quorumAt, u) == (Waiting, Some(nb))
  {
    hide IsFirstOpenAtOrAfter, IsOpen, NextOpen, OpenAt;
    var ws, t := env.windows, Ready(env, quorumAt);
    var from := if t > now then t else now;
    var nb := NextAfterQuorum(env, quorumAt, now).1.value;
    NextOpenIsFirst(ws, from);
    OpenAtIffIsOpen(ws, now);
    OpenAtIffIsOpen(ws, nb);
    FirstOpenFacts(ws, from, nb);
    forall u | now <= u < nb ensures NextAfterQuorum(env, quorumAt, u) == (Waiting, Some(nb)) {
      if t <= u {
        FirstOpenFrom(ws, from, u, nb);
        OpenAtIffIsOpen(ws, u);
        NextOpenIsFirst(ws, u);
        FirstOpenIsUnique(ws, u, nb, NextOpen(ws, u));
      }
    }
  }

  lemma FirstOpenFacts(ws: seq<Window>, from: int, nb: int)
    requires IsFirstOpenAtOrAfter(ws, from, nb)
    ensures from <= nb && IsOpen(ws, nb)
    ensures !IsOpen(ws, from) ==> from < nb
  {
  }

  // Moving the search start forward, short of the answer, does not change the answer.
  lemma FirstOpenFrom(ws: seq<Window>, from: int, u: int, nb: int)
    requires IsFirstOpenAtOrAfter(ws, from, nb) && from <= u < nb
    ensures IsFirstOpenAtOrAfter(ws, u, nb) && !IsOpen(ws, u)
  {
  }

  /** Advancing the result of an advance, at the same instant, changes nothing. */
  lemma AdvanceIsFixpoint(env: Environment, p: Promotion, now: int)
    requires AllValid(env.windows)
    ensures var p' := Advanced'(env, p, now);
            !Advance(env, p', now).changed && Advanced'(env, p', now) == p'
  {
    hide NextOpen, OpenAt, Ready;
  }

  /**
   After an advance a waiting promotion is left alone by every later advance until its not_before,
   and at that instant it is approved.
   */
  lemma WaitingIsStable(env: Environment, p: Promotion, now: int, later: int)
    requires AllValid(env.windows)
    requires now <= later
    requires Advanced'(env, p, now).status == Waiting
    requires later <= Advanced'(env, p, now).notBefore.value
    ensures var p' := Advanced'(env, p, now);
            && (later < p'.notBefore.value ==> Advanced'(env, p', later) == p' && !Advance(env, p', later).changed)
            && (later == p'.notBefore.value ==> Advance(env, p', later).status == Approved && Advance(env, p', later).changed)
  {
    var q := Advanced'(env, p, now).quorumAt.value;
    NotBeforeIsEarliest(env, q, now);
  }
}
