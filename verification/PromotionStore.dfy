/**
 What the promotion store promises (internal/environments/store.go), as functions on database
 values. Each call is one transaction; details the interface leaves open follow the Postgres
 implementation (internal/repository/environment_repo.go).
 */
module PromotionStore {
  import opened Option
  import opened Promotions
  import opened Gate

  datatype DB = DB(promos: map<PromotionId, Promotion>, envs: map<EnvId, Environment>)

  // The fields a Transition may set; notBefore is always written.
  datatype Patch = Patch(
    notBefore: Option<int>, quorumAt: Option<int>, startedAt: Option<int>, finishedAt: Option<int>, required: Option<int>)

  const NO_CHANGE := Patch(None, None, None, None, None)

  datatype Decision = Decision(
    id: PromotionId, approval: Approval, required: int, allowSelf: bool,
    quorumStatus: Status, quorumNotBefore: Option<int>, quorumAt: int)

  datatype Call =
    | CreatePromotion(p: Promotion)
    | AddDecision(d: Decision)
    | Transition(id: PromotionId, from: set<Status>, to: Status, patch: Patch)
    | SetDeployment(dep: PromotionId, deployment: DeploymentId)
    | ExpireOverdue(now: int)
    | UpdateEnv(e: Environment)

  datatype Reply =
    | Done
    | Existing
    | Missing
    | Refused(e: DecideError)
    | Moved(ok: bool)

  predicate Collides(x: Promotion, p: Promotion) {
    || (p.key != "" && x.key == p.key && x.requestedBy.Some? && x.requestedBy == p.requestedBy)
    || (x.env == p.env && x.sha == p.sha && IsActive(x.status) && IsActive(p.status))
  }

  predicate DeployingIn(db: DB, env: EnvId) {
    exists id | id in db.promos :: db.promos[id].env == env && db.promos[id].status == Deploying
  }

  predicate CanStillReject(s: Status) {
    s.Pending? || s.Waiting? || s.Approved?
  }

  function Or<T>(a: Option<T>, b: Option<T>): Option<T> {
    if a.Some? then a else b
  }

  function Patched(p: Promotion, to: Status, patch: Patch): Promotion {
    p.(status := to, notBefore := patch.notBefore, quorumAt := Or(patch.quorumAt, p.quorumAt),
       startedAt := Or(patch.startedAt, p.startedAt), finishedAt := Or(patch.finishedAt, p.finishedAt),
       required := if patch.required.Some? then patch.required.value else p.required)
  }

  // The promotion after d is recorded; the quorum is counted on the row that is locked.
  function Decided(p: Promotion, d: Decision): Promotion {
    var approvals := p.approvals + [d.approval];
    if d.approval.verdict == Reject then
      p.(approvals := approvals, status := Rejected, notBefore := None, finishedAt := Some(d.approval.at), required := d.required)
    else if CountedApprovals(d.allowSelf, approvals) >= d.required then
      p.(approvals := approvals, status := d.quorumStatus, notBefore := d.quorumNotBefore, quorumAt := Some(d.quorumAt),
         required := d.required)
    else
      p.(approvals := approvals)
  }

  predicate Overdue(p: Promotion, now: int) {
    (p.status.Pending? || p.status.Waiting? || p.status.Approved?) && p.expiresAt <= now
  }

  function Apply(db: DB, c: Call): (DB, Reply) {
    match c
    case CreatePromotion(p) =>
      if p.id in db.promos || exists id | id in db.promos :: Collides(db.promos[id], p) then (db, Existing)
      else (db.(promos := db.promos[p.id := p]), Done)
    case AddDecision(d) =>
      if d.id !in db.promos then (db, Missing)
      else
        var p := db.promos[d.id];
        if d.approval.verdict == Approve && p.status != Pending then (db, Refused(InvalidState))
        else if d.approval.verdict == Reject && !CanStillReject(p.status) then (db, Refused(InvalidState))
        else if HasDecided(p, d.approval.user) then (db, Refused(AlreadyDecided))
        else (db.(promos := db.promos[d.id := Decided(p, d)]), Done)
    case Transition(id, from, to, patch) =>
      if id !in db.promos || db.promos[id].status !in from then (db, Moved(false))
      else if to == Deploying && DeployingIn(db, db.promos[id].env) then (db, Moved(false))
      else (db.(promos := db.promos[id := Patched(db.promos[id], to, patch)]), Moved(true))
    case SetDeployment(id, dep) =>
      if id !in db.promos then (db, Done)
      else (db.(promos := db.promos[id := db.promos[id].(deployment := Some(dep))]), Done)
    case ExpireOverdue(now) =>
      (db.(promos := map id | id in db.promos ::
                       if Overdue(db.promos[id], now) then db.promos[id].(status := Expired, finishedAt := Some(now))
                       else db.promos[id]), Done)
    case UpdateEnv(e) => (db.(envs := db.envs[e.id := e]), Done)
  }

  // ---- what the calls promise, spelled out -----------------------------------------------------------

  /** A promotion is created unless its requester used the key before or its commit is under way in the environment. */
  lemma {:induction false} CreateMeans(db: DB, p: Promotion)
    ensures var created := && p.id !in db.promos
                           && (forall x :: x in db.promos && db.promos[x].key == p.key && db.promos[x].requestedBy == p.requestedBy ==>
                                             p.key == "" || p.requestedBy == None)
                           && forall x :: x in db.promos && db.promos[x].env == p.env && db.promos[x].sha == p.sha ==>
                                            {db.promos[x].status, p.status} * {Success, Failed, Rejected, Cancelled, Expired} != {};
            Apply(db, CreatePromotion(p)) == if created then (db.(promos := db.promos[p.id := p]), Done) else (db, Existing)
  {
    forall x | x in db.promos
      ensures {db.promos[x].status, p.status} * {Success, Failed, Rejected, Cancelled, Expired} == {}
              <==> IsActive(db.promos[x].status) && IsActive(p.status)
    {
      EndedTogether(db.promos[x].status, p.status);
    }
  }

  lemma {:induction false} EndedTogether(s: Status, t: Status)
    ensures {s, t} * {Success, Failed, Rejected, Cancelled, Expired} == {} <==> IsActive(s) && IsActive(t)
  {
    if !IsActive(s) {
      assert s in {s, t} * {Success, Failed, Rejected, Cancelled, Expired};
    }
    if !IsActive(t) {
      assert t in {s, t} * {Success, Failed, Rejected, Cancelled, Expired};
    }
  }

  /**
   A decision joins the others of its promotion: a rejection ends it, and an approval leaves it pending until
   the distinct people whose approval counts are as many as the policy requires.
   */
  lemma {:induction false} DecisionMeans(db: DB, d: Decision)
    requires d.id in db.promos && DistinctUsers(db.promos[d.id].approvals)
    ensures var p, a := db.promos[d.id], d.approval;
            var open := if a.verdict == Approve then p.status == Pending else p.status in {Pending, Waiting, Approved};
            var again := exists e :: e in p.approvals && e.user == a.user;
            var joined := p.(approvals := p.approvals + [a]);
            var settled := joined.(required := d.required);
            if !open then Apply(db, AddDecision(d)) == (db, Refused(InvalidState))
            else if again then Apply(db, AddDecision(d)) == (db, Refused(AlreadyDecided))
            else Apply(db, AddDecision(d)) == (
              db.(promos := db.promos[d.id :=
                  if a.verdict == Reject then settled.(status := Rejected, notBefore := None, finishedAt := Some(a.at))
                  else if |CountedUsers(d.allowSelf, joined.approvals)| < d.required then joined
                  else settled.(status := d.quorumStatus, notBefore := d.quorumNotBefore, quorumAt := Some(d.quorumAt))]), Done)
  {
    hide CountedApprovals, CountedUsers;
    var p, a := db.promos[d.id], d.approval;
    if exists i | 0 <= i < |p.approvals| :: p.approvals[i].user == a.user {
      var i :| 0 <= i < |p.approvals| && p.approvals[i].user == a.user;
      assert p.approvals[i] in p.approvals;
    } else {
      assert DistinctUsers(p.approvals + [a]);
      CountIsUsers(d.allowSelf, p.approvals + [a]);
    }
  }

  /**
   A transition is made from one of the statuses it names, and to deploying only while nothing deploys in the
   environment. It writes the status and not_before; the other fields only where it has something to say.
   */
  lemma {:induction false} TransitionMeans(db: DB, id: PromotionId, from: set<Status>, to: Status, patch: Patch)
    ensures var (after, reply) := Apply(db, Transition(id, from, to, patch));
            var made := && id in db.promos && db.promos[id].status in from
                        && (to == Deploying ==>
                              forall x :: x in db.promos && db.promos[x].env == db.promos[id].env ==> db.promos[x].status != Deploying);
            && reply == Moved(made) && (!made ==> after == db)
            && (made ==>
                  && after == db.(promos := db.promos[id := after.promos[id]])
                  && var p, q := db.promos[id], after.promos[id];
                     && q == p.(status := to, notBefore := patch.notBefore, quorumAt := q.quorumAt, startedAt := q.startedAt,
                                finishedAt := q.finishedAt, required := q.required)
                     && q.quorumAt == (if patch.quorumAt == None then p.quorumAt else patch.quorumAt)
                     && q.startedAt == (if patch.startedAt == None then p.startedAt else patch.startedAt)
                     && q.finishedAt == (if patch.finishedAt == None then p.finishedAt else patch.finishedAt)
                     && q.required == (if patch.required == None then p.required else patch.required.value))
  {
  }

  /** Exactly what has not started deploying and whose time has come expires. */
  lemma {:induction false} ExpiryMeans(db: DB, now: int)
    ensures var (after, reply) := Apply(db, ExpireOverdue(now));
            && reply == Done && after.envs == db.envs && after.promos.Keys == db.promos.Keys
            && forall id :: id in db.promos ==>
                              after.promos[id] == if db.promos[id].status in {Pending, Waiting, Approved} && db.promos[id].expiresAt <= now
                                                  then db.promos[id].(status := Expired, finishedAt := Some(now)) else db.promos[id]
  {
  }
}
