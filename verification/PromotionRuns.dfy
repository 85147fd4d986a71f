/**
 Every interleaving of the promotion engine: what the requests, decisions, cancellations, policy
 edits and Tick loops of any number of instances ask of the store, each working from snapshots it
 read at some earlier moment (internal/environments/promotions.go, tick.go, service.go).

 A run is any sequence of steps. The history of a run is the list of database values it went
 through, so a snapshot is named by the position at which it was read.
 */
module PromotionRuns {
  import opened Option
  import opened Windows
  import opened Promotions
  import opened Gate
  import opened PromotionStore

  const EXPIRY := 72 * 60 * NS_PER_MINUTE

  type History = h: seq<DB> | |h| > 0 witness [DB(map[], map[])]

  function Now(h: History): DB {
    h[|h| - 1]
  }

  // pAt and eAt are the positions at which the promotion and its environment were read.
  datatype Op =
    | Request(id: PromotionId, env: EnvId, eAt: nat, sha: string, requestedBy: Option<UserId>, key: string, source: Option<DeploymentId>, now: int)
    | Decide(id: PromotionId, pAt: nat, eAt: nat, actor: Actor, verdict: Verdict, now: int)
    | AdvanceOne(id: PromotionId, pAt: nat, eAt: nat, now: int)
    | PolicyCancel(id: PromotionId, pAt: nat, now: int)
    | GateCancel(id: PromotionId, now: int)
    | Claim(id: PromotionId, now: int)
    | SaveDeployment(id: PromotionId, deployment: DeploymentId)
    | Finish(id: PromotionId, to: Status, now: int)
    | UserCancel(id: PromotionId, now: int)
    | Expire(now: int)
    | PutEnv(e: Environment)

  predicate ReadPromotion(h: History, id: PromotionId, at: nat) {
    at < |h| && id in h[at].promos
  }

  predicate ReadEnv(h: History, env: EnvId, at: nat) {
    at < |h| && env in h[at].envs
  }

  // The windows have passed ValidateWindow and the number of approvals is not negative (Normalize).
  predicate ValidEnv(e: Environment) {
    AllValid(e.windows) && e.required >= 0
  }

  function Requested(env: Environment, op: Op): Promotion
    requires op.Request?
  {
    var p := Promotion(op.id, env.id, op.sha, op.requestedBy, op.key, Pending, env.required, None, None, op.now + EXPIRY, op.now,
                       None, None, op.source, None, []);
    if env.required == 0 then
      var (st, nb) := NextAfterQuorum(env, op.now, op.now);
      p.(status := st, notBefore := nb, quorumAt := Some(op.now))
    else p
  }

  function DecisionOf(env: Environment, p: Promotion, op: Op): Decision
    requires op.Decide?
  {
    var self := p.requestedBy == Some(op.actor.user);
    var (st, nb) := NextAfterQuorum(env, op.now, op.now);
    Decision(op.id, Approval(op.actor.user, op.verdict, self && op.verdict == Approve, op.actor.role, op.now),
             env.required, env.allowSelf, st, nb, op.now)
  }

  // What the service checks, on its snapshots, before it makes the call.
  predicate Legal(h: History, op: Op) {
    match op
    case Request(_, env, eAt, _, _, _, _, _) => ReadEnv(h, env, eAt)
    case Decide(id, pAt, eAt, actor, verdict, _) =>
      && ReadPromotion(h, id, pAt)
      && ReadEnv(h, h[pAt].promos[id].env, eAt)
      && CanDecide(h[eAt].envs[h[pAt].promos[id].env], h[pAt].promos[id], actor, verdict == Approve) == None
    case AdvanceOne(id, pAt, eAt, now) =>
      && ReadPromotion(h, id, pAt)
      && ReadEnv(h, h[pAt].promos[id].env, eAt)
      && var p, env := h[pAt].promos[id], h[eAt].envs[h[pAt].promos[id].env];
         IsActive(p.status) && p.status != Deploying && (Advance(env, p, now).changed || p.required != env.required)
    case PolicyCancel(id, pAt, _) =>
      ReadPromotion(h, id, pAt) && IsActive(h[pAt].promos[id].status) && h[pAt].promos[id].status != Deploying
    case Finish(_, to, _) => to == Success || to == Failed
    case PutEnv(e) => ValidEnv(e)
    case _ => true
  }

  // The store call the step makes.
  function CallOf(h: History, op: Op): Call
    requires Legal(h, op)
  {
    match op
    case Request(_, env, eAt, _, _, _, _, _) => CreatePromotion(Requested(h[eAt].envs[env], op))
    case Decide(id, pAt, eAt, _, _, _) =>
      AddDecision(DecisionOf(h[eAt].envs[h[pAt].promos[id].env], h[pAt].promos[id], op))
    case AdvanceOne(id, pAt, eAt, now) =>
      var p, env := h[pAt].promos[id], h[eAt].envs[h[pAt].promos[id].env];
      var a := Advance(env, p, now);
      Transition(id, {p.status}, a.status, Patch(a.notBefore, a.quorumAt, None, None, Some(env.required)))
    case PolicyCancel(id, pAt, now) =>
      Transition(id, {h[pAt].promos[id].status}, Cancelled, NO_CHANGE.(finishedAt := Some(now)))
    case GateCancel(id, now) => Transition(id, {Approved}, Cancelled, NO_CHANGE.(finishedAt := Some(now)))
    case Claim(id, now) => Transition(id, {Approved}, Deploying, NO_CHANGE.(startedAt := Some(now)))
    case SaveDeployment(id, dep) => SetDeployment(id, dep)
    case Finish(id, to, now) => Transition(id, {Deploying}, to, NO_CHANGE.(finishedAt := Some(now)))
    case UserCancel(id, now) => Transition(id, {Pending, Waiting, Approved}, Cancelled, NO_CHANGE.(finishedAt := Some(now)))
    case Expire(now) => ExpireOverdue(now)
    case PutEnv(e) => UpdateEnv(e)
  }

  function Step(h: History, op: Op): History {
    if Legal(h, op) then h + [Apply(Now(h), CallOf(h, op)).0] else h
  }

  function Run(ops: seq<Op>): History {
    if ops == [] then [DB(map[], map[])] else Step(Run(ops[..|ops| - 1]), ops[|ops| - 1])
  }

  lemma {:induction false} RunSteps(ops: seq<Op>, op: Op)
    ensures Run(ops + [op]) == Step(Run(ops), op)
  {
    hide Step;
    assert (ops + [op])[..|ops|] == ops;
  }

  // ---- the promises ------------------------------------------------------------------------------

  predicate SameQueue(p: Promotion, q: Promotion) {
    p.status == Deploying && q.status == Deploying && p.env == q.env
  }

  predicate SameActiveCommit(p: Promotion, q: Promotion) {
    IsActive(p.status) && IsActive(q.status) && p.env == q.env && p.sha == q.sha
  }

  ghost predicate OneDeployingPerEnv(db: DB) {
    forall a, b :: a in db.promos && b in db.promos && SameQueue(db.promos[a], db.promos[b]) ==> a == b
  }

  ghost predicate OneActivePerCommit(db: DB) {
    forall a, b :: a in db.promos && b in db.promos && SameActiveCommit(db.promos[a], db.promos[b]) ==> a == b
  }

  // One step of one promotion: deploying is entered only from approved and end states are final.
  predicate MayBecome(s: Status, t: Status) {
    || s == t
    || match s
       case Pending => t in {Waiting, Approved, Rejected, Cancelled, Expired}
       case Waiting => t in {Approved, Rejected, Cancelled, Expired}
       case Approved => t in {Waiting, Deploying, Rejected, Cancelled, Expired}
       case Deploying => t in {Success, Failed}
       case _ => false
  }

  // What never changes about a promotion, and its list of decisions only grows.
  ghost predicate SameRequest(p: Promotion, q: Promotion) {
    && p.id == q.id && p.env == q.env && p.sha == q.sha && p.requestedBy == q.requestedBy && p.key == q.key
    && p.createdAt == q.createdAt && p.expiresAt == q.expiresAt && p.source == q.source
    && p.approvals <= q.approvals
  }

  ghost predicate Follows(before: DB, after: DB) {
    forall id :: id in before.promos ==>
                   && id in after.promos
                   && SameRequest(before.promos[id], after.promos[id])
                   && MayBecome(before.promos[id].status, after.promos[id].status)
  }

  ghost predicate WellKeyed(db: DB) {
    && (forall id :: id in db.promos ==> db.promos[id].id == id)
    && (forall e :: e in db.envs ==> db.envs[e].id == e && ValidEnv(db.envs[e]))
  }

  // At positions before `at`, canDecide accepted the author of approval a.
  ghost predicate AcceptedBefore(h: History, at: nat, id: PromotionId, a: Approval) {
    exists pAt: nat, eAt: nat :: AcceptedAt(h, at, id, a, pAt, eAt)
  }

  ghost predicate AcceptedAt(h: History, at: nat, id: PromotionId, a: Approval, pAt: nat, eAt: nat) {
    && pAt < at && eAt < at
    && ReadPromotion(h, id, pAt) && ReadEnv(h, h[pAt].promos[id].env, eAt)
    && CanDecide(h[eAt].envs[h[pAt].promos[id].env], h[pAt].promos[id], Actor(a.user, a.role), a.verdict == Approve) == None
  }

  ghost predicate SoundApprovals(h: History, at: nat, id: PromotionId)
    requires ReadPromotion(h, id, at)
  {
    var p := h[at].promos[id];
    && DistinctUsers(p.approvals)
    && forall i :: 0 <= i < |p.approvals| ==>
                     && AcceptedBefore(h, at, id, p.approvals[i])
                     && p.approvals[i].self == (p.approvals[i].verdict == Approve && p.requestedBy == Some(p.approvals[i].user))
  }

  // At position `at` the promotion left pending (or was created past it) under the policy read at eAt.
  ghost predicate LeftPendingAt(h: History, id: PromotionId, at: nat, eAt: nat) {
    && 0 < at < |h| && eAt < at
    && ReadPromotion(h, id, at)
    && PastQuorum(h[at].promos[id].status)
    && (id in h[at - 1].promos ==> h[at - 1].promos[id].status == Pending)
    && ReadEnv(h, h[at].promos[id].env, eAt)
    && var env := h[eAt].envs[h[at].promos[id].env];
       CountedApprovals(env.allowSelf, h[at].promos[id].approvals) >= env.required
  }

  ghost predicate QuorumBy(h: History, last: nat, id: PromotionId) {
    exists at: nat, eAt: nat :: at <= last && LeftPendingAt(h, id, at, eAt)
  }

  // Everything the engine keeps at position k of a history.
  ghost predicate GoodAt(h: History, k: nat)
    requires k < |h|
  {
    && WellKeyed(h[k])
    && OneDeployingPerEnv(h[k])
    && OneActivePerCommit(h[k])
    && (k > 0 ==> Follows(h[k - 1], h[k]))
    && forall id :: id in h[k].promos ==>
                      && SoundApprovals(h, k, id)
                      && (PastQuorum(h[k].promos[id].status) || h[k].promos[id].status == Failed ==> QuorumBy(h, k, id))
  }

  ghost predicate Good(h: History) {
    forall k :: 0 <= k < |h| ==> GoodAt(h, k)
  }

  // ---- proofs ------------------------------------------------------------------------------------

  // Facts about earlier positions survive when the history grows.
  lemma GoodAtExtends(h: History, db: DB, k: nat)
    requires k < |h| && GoodAt(h, k)
    ensures GoodAt(h + [db], k)
  {
    var h' := h + [db];
    forall id | id in h[k].promos
      ensures SoundApprovals(h', k, id)
      ensures PastQuorum(h[k].promos[id].status) || h[k].promos[id].status == Failed ==> QuorumBy(h', k, id)
    {
      var p := h[k].promos[id];
      forall i | 0 <= i < |p.approvals| ensures AcceptedBefore(h', k, id, p.approvals[i]) {
        AcceptanceExtends(h, db, k, k, id, p.approvals[i]);
      }
      if PastQuorum(p.status) || p.status == Failed {
        QuorumExtends(h, db, k, k, id);
      }
    }
  }

  lemma AcceptanceExtends(h: History, db: DB, at: nat, later: nat, id: PromotionId, a: Approval)
    requires at <= later && AcceptedBefore(h, at, id, a)
    ensures AcceptedBefore(h + [db], later, id, a)
  {
    var pAt: nat, eAt: nat :| AcceptedAt(h, at, id, a, pAt, eAt);
    assert AcceptedAt(h + [db], later, id, a, pAt, eAt);
  }

  lemma QuorumExtends(h: History, db: DB, last: nat, later: nat, id: PromotionId)
    requires last <= later && QuorumBy(h, last, id)
    ensures QuorumBy(h + [db], later, id)
  {
    var at: nat, eAt: nat :| at <= last && LeftPendingAt(h, id, at, eAt);
    assert LeftPendingAt(h + [db], id, at, eAt);
  }

  // A snapshot agrees with the current row on everything but the parts that move forward.
  lemma {:induction false} SnapshotIsOlder(h: History, i: nat, j: nat, id: PromotionId)
    requires Good(h) && i <= j < |h| && id in h[i].promos
    ensures id in h[j].promos && SameRequest(h[i].promos[id], h[j].promos[id])
    decreases j
  {
    if i < j {
      SnapshotIsOlder(h, i, j - 1, id);
      assert GoodAt(h, j);
    }
  }

  lemma AdvanceMoves(env: Environment, p: Promotion, now: int)
    requires IsActive(p.status) && p.status != Deploying
    ensures MayBecome(p.status, Advance(env, p, now).status)
    ensures PastQuorum(p.status) ==> PastQuorum(Advance(env, p, now).status)
    ensures Advance(env, p, now).status != Deploying
  {
  }

  lemma QuorumStatusIsOpen(env: Environment, q: int, now: int)
    ensures NextAfterQuorum(env, q, now).0 in {Waiting, Approved}
  {
  }

  /** A request carries what it was asked with and expires after 72 hours; one that needs no approvals is judged at once. */
  lemma {:induction false} RequestedMeans(env: Environment, op: Op)
    requires op.Request? && AllValid(env.windows)
    ensures var p := Requested(env, op);
            && p == Promotion(op.id, env.id, op.sha, op.requestedBy, op.key, p.status, env.required, p.quorumAt, p.notBefore,
                              op.now + 259_200_000_000_000, op.now, None, None, op.source, None, [])
            && (p.status == Pending <==> env.required != 0) && p.status in {Pending, Waiting, Approved}
            && (p.status == Approved <==> env.required == 0 && env.waitMinutes <= 0 && IsOpen(env.windows, op.now))
            && p.quorumAt == (if p.status == Pending then None else Some(op.now)) && (p.notBefore.Some? <==> p.status == Waiting)
  {
    hide NextAfterQuorum, IsOpen;
    ApprovedExactlyWhenOpen(env, op.now, op.now);
  }

  /** A decision carries who took it and in what role, and what quorum would lead to at its instant. */
  lemma {:induction false} DecisionOfMeans(env: Environment, p: Promotion, op: Op)
    requires op.Decide? && AllValid(env.windows)
    ensures var d := DecisionOf(env, p, op);
            && d == Decision(op.id, Approval(op.actor.user, op.verdict, d.approval.self, op.actor.role, op.now),
                             env.required, env.allowSelf, d.quorumStatus, d.quorumNotBefore, op.now)
            && (d.approval.self <==> op.verdict == Approve && p.requestedBy == Some(op.actor.user))
            && d.quorumStatus in {Waiting, Approved} && (d.quorumNotBefore.Some? <==> d.quorumStatus == Waiting)
            && (d.quorumStatus == Approved <==> env.waitMinutes <= 0 && IsOpen(env.windows, op.now))
  {
    hide NextAfterQuorum, IsOpen;
    ApprovedExactlyWhenOpen(env, op.now, op.now);
  }

  lemma RequestIsOpen(env: Environment, op: Op)
    requires op.Request?
    ensures Requested(env, op).status in {Pending, Waiting, Approved}
    ensures Requested(env, op).status != Pending <==> env.required == 0
    ensures Requested(env, op).approvals == []
  {
  }

  lemma DecidedFollows(p: Promotion, d: Decision)
    requires d.quorumStatus in {Waiting, Approved}
    requires if d.approval.verdict == Approve then p.status == Pending else CanStillReject(p.status)
    ensures SameRequest(p, Decided(p, d)) && MayBecome(p.status, Decided(p, d).status)
  {
  }

  lemma PatchedFollows(p: Promotion, to: Status, patch: Patch)
    requires MayBecome(p.status, to)
    ensures SameRequest(p, Patched(p, to, patch)) && MayBecome(p.status, Patched(p, to, patch).status)
  {
  }

  lemma TransitionFollows(db: DB, id: PromotionId, from: set<Status>, to: Status, patch: Patch)
    requires forall s :: s in from ==> MayBecome(s, to)
    ensures Follows(db, Apply(db, Transition(id, from, to, patch)).0)
  {
    hide SameRequest, MayBecome, Patched;
    forall i | i in db.promos ensures SameRequest(db.promos[i], db.promos[i]) && MayBecome(db.promos[i].status, db.promos[i].status) {
      Unchanged(db.promos[i]);
    }
    if id in db.promos && db.promos[id].status in from {
      PatchedFollows(db.promos[id], to, patch);
    }
  }

  lemma Unchanged(p: Promotion)
    ensures SameRequest(p, p) && MayBecome(p.status, p.status)
  {
  }

  lemma OtherCallsFollow(db: DB, c: Call)
    requires c.CreatePromotion? || c.SetDeployment? || c.ExpireOverdue? || c.UpdateEnv?
    ensures Follows(db, Apply(db, c).0)
  {
    hide Collides;
  }

  lemma DecisionFollows(db: DB, d: Decision)
    requires d.quorumStatus in {Waiting, Approved}
    ensures Follows(db, Apply(db, AddDecision(d)).0)
  {
    hide SameRequest, MayBecome, Decided, HasDecided;
    forall i | i in db.promos ensures SameRequest(db.promos[i], db.promos[i]) && MayBecome(db.promos[i].status, db.promos[i].status) {
      Unchanged(db.promos[i]);
    }
    if d.id in db.promos && if d.approval.verdict == Approve then db.promos[d.id].status == Pending else CanStillReject(db.promos[d.id].status) {
      DecidedFollows(db.promos[d.id], d);
    }
  }

  // What every step's call satisfies, whatever its snapshots.
  predicate Disciplined(c: Call) {
    match c
    case CreatePromotion(p) => p.status in {Pending, Waiting, Approved}
    case AddDecision(d) => d.quorumStatus in {Waiting, Approved}
    case Transition(_, from, to, _) => forall s | s in from :: MayBecome(s, to)
    case _ => true
  }

  lemma CallsAreDisciplined(h: History, op: Op)
    requires Legal(h, op)
    ensures Disciplined(CallOf(h, op))
  {
    hide NextAfterQuorum, CanDecide, Requested;
    if op.AdvanceOne? {
      AdvanceMoves(h[op.eAt].envs[h[op.pAt].promos[op.id].env], h[op.pAt].promos[op.id], op.now);
    } else if op.Decide? {
      QuorumStatusIsOpen(h[op.eAt].envs[h[op.pAt].promos[op.id].env], op.now, op.now);
    } else if op.Request? {
      RequestIsOpen(h[op.eAt].envs[op.env], op);
    }
  }

  /** One call moves every promotion only in the permitted ways, however stale its snapshots are. */
  lemma CallFollows(db: DB, c: Call)
    requires Disciplined(c)
    ensures Follows(db, Apply(db, c).0)
  {
    hide Apply, Follows;
    if c.Transition? {
      TransitionFollows(db, c.id, c.from, c.to, c.patch);
    } else if c.AddDecision? {
      DecisionFollows(db, c.d);
    } else {
      OtherCallsFollow(db, c);
    }
  }

  lemma CallKeepsOneDeploying(db: DB, c: Call)
    requires Disciplined(c) && OneDeployingPerEnv(db)
    ensures OneDeployingPerEnv(Apply(db, c).0)
  {
    hide Collides, HasDecided, CountedApprovals;
  }

  lemma CallKeepsOneActive(db: DB, c: Call)
    requires Disciplined(c) && OneActivePerCommit(db)
    ensures OneActivePerCommit(Apply(db, c).0)
  {
    hide HasDecided, Decided, Patched, DeployingIn, Overdue;
    var after := Apply(db, c).0;
    CallFollows(db, c);
    if !c.CreatePromotion? {
      assert after.promos.Keys == db.promos.Keys;
      forall a | a in after.promos
        ensures a in db.promos && after.promos[a].env == db.promos[a].env && after.promos[a].sha == db.promos[a].sha
        ensures IsActive(after.promos[a].status) ==> IsActive(db.promos[a].status)
      {
      }
    }
  }

  lemma CallKeepsKeys(db: DB, c: Call)
    requires WellKeyed(db) && (c.UpdateEnv? ==> ValidEnv(c.e))
    ensures WellKeyed(Apply(db, c).0)
  {
    hide CountedApprovals, DeployingIn, Collides, HasDecided, ValidEnv;
  }

  lemma EditsAreValid(h: History, op: Op)
    requires Legal(h, op)
    ensures CallOf(h, op).UpdateEnv? ==> ValidEnv(CallOf(h, op).e)
  {
    hide NextAfterQuorum, Advance, CanDecide, Requested, ValidEnv;
  }

  // Only AddDecision touches the list of decisions, and it appends one by somebody new.
  lemma CallKeepsDecisions(db: DB, c: Call, id: PromotionId)
    requires Disciplined(c) && id in db.promos
    ensures id in Apply(db, c).0.promos
    ensures var p, q := db.promos[id], Apply(db, c).0.promos[id];
            && q.requestedBy == p.requestedBy
            && (q.approvals == p.approvals
                || (c.AddDecision? && c.d.id == id && q.approvals == p.approvals + [c.d.approval] && !HasDecided(p, c.d.approval.user)))
  {
    hide CountedApprovals, DeployingIn, Collides, HasDecided;
  }

  lemma DecisionJoins(p: Promotion, a: Approval)
    requires DistinctUsers(p.approvals) && !HasDecided(p, a.user)
    ensures DistinctUsers(p.approvals + [a])
  {
  }

  // The author of a recorded decision was accepted on the snapshots the step read.
  lemma RecordedIsAccepted(h: History, db: DB, op: Op)
    requires Good(h) && op.Decide? && Legal(h, op)
    ensures CallOf(h, op).AddDecision?
    ensures AcceptedBefore(h + [db], |h|, op.id, CallOf(h, op).d.approval)
    ensures op.id in Now(h).promos
    ensures var a := CallOf(h, op).d.approval;
            a.self == (a.verdict == Approve && Now(h).promos[op.id].requestedBy == Some(a.user))
    ensures CallOf(h, op).d.id == op.id
  {
    hide NextAfterQuorum, CanDecide, Good;
    SnapshotIsOlder(h, op.pAt, |h| - 1, op.id);
    var h' := h + [db];
    assert h'[op.pAt] == h[op.pAt] && h'[op.eAt] == h[op.eAt];
    assert AcceptedAt(h', |h|, op.id, CallOf(h, op).d.approval, op.pAt, op.eAt);
  }

  lemma SoundAtEnd(h: History, id: PromotionId)
    requires Good(h) && id in Now(h).promos
    ensures SoundApprovals(h, |h| - 1, id)
  {
    assert GoodAt(h, |h| - 1);
  }

  lemma StepKeepsApprovals(h: History, op: Op, id: PromotionId)
    requires Good(h) && Legal(h, op)
    requires id in Apply(Now(h), CallOf(h, op)).0.promos
    ensures SoundApprovals(h + [Apply(Now(h), CallOf(h, op)).0], |h|, id)
  {
    hide Apply, CallOf, Legal, Good, AcceptedBefore, DistinctUsers, HasDecided;
    var db, c := Now(h), CallOf(h, op);
    var after := Apply(db, c).0;
    var h' := h + [after];
    CallsAreDisciplined(h, op);
    if id !in db.promos {
      NewcomerIsRequested(h, op, id);
      NobodyIsDistinct(after.promos[id].approvals);
    } else {
      CallKeepsDecisions(db, c, id);
      SoundAtEnd(h, id);
      var p, q := db.promos[id], after.promos[id];
      forall i | 0 <= i < |p.approvals| ensures AcceptedBefore(h', |h|, id, p.approvals[i]) {
        AcceptanceExtends(h, after, |h| - 1, |h|, id, p.approvals[i]);
      }
      if q.approvals != p.approvals {
        assert op.Decide? && op.id == id by { OnlyDecideDecides(h, op); }
        RecordedIsAccepted(h, after, op);
        DecisionJoins(p, c.d.approval);
      }
    }
  }

  lemma NobodyIsDistinct(approvals: seq<Approval>)
    requires approvals == []
    ensures DistinctUsers(approvals)
  {
  }

  lemma OnlyDecideDecides(h: History, op: Op)
    requires Legal(h, op)
    ensures CallOf(h, op).AddDecision? <==> op.Decide?
    ensures op.Decide? ==> CallOf(h, op).d.id == op.id
  {
    hide NextAfterQuorum, Requested, Advance;
  }

  // A promotion the step brings into being is the requested one.
  lemma NewcomerIsRequested(h: History, op: Op, id: PromotionId)
    requires Legal(h, op) && id !in Now(h).promos && id in Apply(Now(h), CallOf(h, op)).0.promos
    ensures op.Request? && op.id == id && ReadEnv(h, op.env, op.eAt)
    ensures Apply(Now(h), CallOf(h, op)).0.promos[id].status in {Pending, Waiting, Approved}
    ensures Apply(Now(h), CallOf(h, op)).0.promos[id].status != Pending <==> h[op.eAt].envs[op.env].required == 0
    ensures Apply(Now(h), CallOf(h, op)).0.promos[id] == Requested(h[op.eAt].envs[op.env], op)
    ensures Apply(Now(h), CallOf(h, op)).0.promos[id].approvals == []
    ensures Apply(Now(h), CallOf(h, op)).0.promos[id].env == h[op.eAt].envs[op.env].id
  {
    hide NextAfterQuorum, Advance, CanDecide, Collides, HasDecided, DeployingIn, Decided, Patched;
    if op.Request? {
      RequestIsOpen(h[op.eAt].envs[op.env], op);
      RequestKeepsEnv(h[op.eAt].envs[op.env], op);
    }
  }

  lemma StepKeepsQuorum(h: History, op: Op, id: PromotionId)
    requires Good(h) && Legal(h, op)
    requires var after := Apply(Now(h), CallOf(h, op)).0;
             id in after.promos && (PastQuorum(after.promos[id].status) || after.promos[id].status == Failed)
    ensures QuorumBy(h + [Apply(Now(h), CallOf(h, op)).0], |h|, id)
  {
    hide Apply, CallOf, Legal, OneActivePerCommit, OneDeployingPerEnv, SoundApprovals, Requested;
    var db, after := Now(h), Apply(Now(h), CallOf(h, op)).0;
    var h' := h + [after];
    assert GoodAt(h, |h| - 1);
    CallsAreDisciplined(h, op);
    CallFollows(db, CallOf(h, op));
    if id in db.promos && (PastQuorum(db.promos[id].status) || db.promos[id].status == Failed) {
      QuorumExtends(h, after, |h| - 1, |h|, id);
    } else if id !in db.promos {
      NewcomerIsRequested(h, op, id);
      EnvIsValid(h, op.eAt, op.env);
      assert h'[|h|] == after && h'[|h| - 1] == db && h'[op.eAt] == h[op.eAt];
      assert ReadPromotion(h', id, |h|);
      assert PastQuorum(h'[|h|].promos[id].status);
      assert h'[|h|].promos[id].env == op.env;
      assert ReadEnv(h', op.env, op.eAt);
      assert CountedApprovals(h'[op.eAt].envs[op.env].allowSelf, []) == 0;
      assert LeftPendingAt(h', id, |h|, op.eAt);
    } else {
      assert db.promos[id].status == Pending;
      LeavingPending(h, op, id);
    }
  }

  lemma RequestKeepsEnv(env: Environment, op: Op)
    requires op.Request?
    ensures Requested(env, op).env == env.id && Requested(env, op).id == op.id
  {
  }

  // A pending promotion gets past quorum only by a step whose own snapshot counted enough approvals.
  lemma LeavingPending(h: History, op: Op, id: PromotionId)
    requires Good(h) && Legal(h, op) && id in Now(h).promos && Now(h).promos[id].status == Pending
    requires id in Apply(Now(h), CallOf(h, op)).0.promos && PastQuorum(Apply(Now(h), CallOf(h, op)).0.promos[id].status)
    ensures (op.Decide? || op.AdvanceOne?) && op.id == id
    ensures LeftPendingAt(h + [Apply(Now(h), CallOf(h, op)).0], id, |h|, op.eAt)
  {
    hide NextAfterQuorum, CanDecide, OneActivePerCommit, OneDeployingPerEnv, SoundApprovals, Requested, Follows, Good,
         HasDecided, Collides, DeployingIn, GoodAt, QuorumBy, CountedApprovals;
    assert (op.Decide? || op.AdvanceOne?) && op.id == id;
    SnapshotIsOlder(h, op.pAt, |h| - 1, id);
    var p, env := h[op.pAt].promos[id], h[op.eAt].envs[h[op.pAt].promos[id].env];
    var db, after := Now(h), Apply(Now(h), CallOf(h, op)).0;
    assert (h + [after])[|h|] == after && (h + [after])[|h| - 1] == db && (h + [after])[op.eAt] == h[op.eAt];
    if op.AdvanceOne? {
      CountOnPrefix(env.allowSelf, p.approvals, db.promos[id].approvals);
    }
  }

  lemma StepIsGood(h: History, op: Op)
    requires Good(h)
    ensures Good(Step(h, op))
  {
    if Legal(h, op) {
      hide Apply, CallOf, Legal, SoundApprovals, QuorumBy, Follows, WellKeyed, OneDeployingPerEnv, OneActivePerCommit;
      var db := Apply(Now(h), CallOf(h, op)).0;
      forall k | 0 <= k < |h| ensures GoodAt(h + [db], k) {
        GoodAtExtends(h, db, k);
      }
      assert GoodAt(h, |h| - 1);
      EditsAreValid(h, op);
      CallKeepsKeys(Now(h), CallOf(h, op));
      CallsAreDisciplined(h, op);
      CallKeepsOneDeploying(Now(h), CallOf(h, op));
      CallKeepsOneActive(Now(h), CallOf(h, op));
      CallFollows(Now(h), CallOf(h, op));
      forall id | id in db.promos
        ensures SoundApprovals(h + [db], |h|, id)
        ensures PastQuorum(db.promos[id].status) || db.promos[id].status == Failed ==> QuorumBy(h + [db], |h|, id)
      {
        StepKeepsApprovals(h, op, id);
        if PastQuorum(db.promos[id].status) || db.promos[id].status == Failed {
          StepKeepsQuorum(h, op, id);
        }
      }
    }
  }

  /** Whatever is done, in whatever order and from however old snapshots, every position is good. */
  lemma {:induction false} EveryRunIsGood(ops: seq<Op>)
    ensures Good(Run(ops))
  {
    if ops != [] {
      EveryRunIsGood(ops[..|ops| - 1]);
      StepIsGood(Run(ops[..|ops| - 1]), ops[|ops| - 1]);
    }
  }

  // ---- what follows for every run ------------------------------------------------------------------

  /** The queue: at every moment of every run an environment has at most one deploying promotion. */
  lemma {:induction false} OneDeployingAlways(ops: seq<Op>, k: nat, a: PromotionId, b: PromotionId)
    requires k < |Run(ops)| && a in Run(ops)[k].promos && b in Run(ops)[k].promos
    requires Run(ops)[k].promos[a].status == Deploying && Run(ops)[k].promos[b].status == Deploying
    requires Run(ops)[k].promos[a].env == Run(ops)[k].promos[b].env
    ensures a == b
  {
    EveryRunIsGood(ops);
    assert GoodAt(Run(ops), k);
  }

  /** Deploying is entered only from approved. */
  lemma {:induction false} DeployingOnlyFromApproved(ops: seq<Op>, k: nat, id: PromotionId)
    requires 0 < k < |Run(ops)| && id in Run(ops)[k].promos && Run(ops)[k].promos[id].status == Deploying
    ensures id in Run(ops)[k - 1].promos
    ensures Run(ops)[k - 1].promos[id].status == Approved || Run(ops)[k - 1].promos[id].status == Deploying
    decreases |ops|
  {
    hide SoundApprovals, QuorumBy, OneDeployingPerEnv, OneActivePerCommit, WellKeyed, Run;
    var h := Run(ops);
    EveryRunIsGood(ops);
    assert GoodAt(h, k);
    if id !in h[k - 1].promos {
      EntersOpen(ops, k, id);
    }
  }

  // A promotion first appears pending, waiting or approved.
  lemma {:induction false} EntersOpen(ops: seq<Op>, k: nat, id: PromotionId)
    requires 0 < k < |Run(ops)| && id in Run(ops)[k].promos && id !in Run(ops)[k - 1].promos
    ensures Run(ops)[k].promos[id].status in {Pending, Waiting, Approved}
  {
    hide Legal, CallOf;
    if ops != [] {
      var h, op := Run(ops[..|ops| - 1]), ops[|ops| - 1];
      if k < |h| {
        EntersOpen(ops[..|ops| - 1], k, id);
      } else {
        CallsAreDisciplined(h, op);
      }
    }
  }

  /** End states are never left and a promotion never becomes a different request. */
  lemma {:induction false} EndStatesAreFinal(ops: seq<Op>, i: nat, j: nat, id: PromotionId)
    requires i <= j < |Run(ops)| && id in Run(ops)[i].promos
    ensures id in Run(ops)[j].promos
    ensures SameRequest(Run(ops)[i].promos[id], Run(ops)[j].promos[id])
    ensures Run(ops)[i].promos[id].status in {Success, Failed, Rejected, Cancelled, Expired} ==>
              Run(ops)[j].promos[id].status == Run(ops)[i].promos[id].status
    decreases j
  {
    EveryRunIsGood(ops);
    if i < j {
      EndStatesAreFinal(ops, i, j - 1, id);
      assert GoodAt(Run(ops), j);
    }
  }

  /** The only moves of a promotion's status, whatever is done in whatever order. */
  lemma {:induction false} StatusMoves(ops: seq<Op>, k: nat, id: PromotionId)
    requires 0 < k < |Run(ops)| && id in Run(ops)[k - 1].promos
    ensures id in Run(ops)[k].promos
    ensures var s, t := Run(ops)[k - 1].promos[id].status, Run(ops)[k].promos[id].status;
            || s == t
            || (s in {Pending, Waiting, Approved} && t in {Rejected, Cancelled, Expired})
            || (s == Deploying && t in {Success, Failed})
            || (s, t) in {(Pending, Waiting), (Pending, Approved), (Waiting, Approved), (Approved, Waiting), (Approved, Deploying)}
  {
    hide SoundApprovals, QuorumBy, OneDeployingPerEnv, OneActivePerCommit, WellKeyed, Run;
    EveryRunIsGood(ops);
    assert GoodAt(Run(ops), k);
  }

  // The people whose approvals carried promotion id past quorum at position `at`, under policy env.
  ghost predicate CarriedBy(h: History, at: nat, id: PromotionId, env: Environment, voters: set<UserId>)
    requires ReadPromotion(h, id, at)
  {
    var p := h[at].promos[id];
    && |voters| >= env.required
    && (forall u :: u in voters ==>
                      exists a :: a in p.approvals && a.user == u && a.verdict == Approve && AcceptedBefore(h, at, id, a))
    && (!env.allowSelf && p.requestedBy.Some? ==> p.requestedBy.value !in voters)
  }

  /**
   A promotion seen past quorum (or failed after it) left pending at a step whose policy snapshot
   required no more approvals than it had from distinct people, each accepted by canDecide
   beforehand, and never its requester unless that snapshot allowed self-approval.
   */
  lemma QuorumWasReal(ops: seq<Op>, k: nat, id: PromotionId) returns (at: nat, eAt: nat, voters: set<UserId>)
    requires k < |Run(ops)| && id in Run(ops)[k].promos
    requires Run(ops)[k].promos[id].status in {Waiting, Approved, Deploying, Success, Failed}
    ensures at <= k && LeftPendingAt(Run(ops), id, at, eAt)
    ensures CarriedBy(Run(ops), at, id, Run(ops)[eAt].envs[Run(ops)[at].promos[id].env], voters)
  {
    var h := Run(ops);
    EveryRunIsGood(ops);
    assert GoodAt(h, k);
    at, eAt :| at <= k && LeftPendingAt(h, id, at, eAt);
    assert GoodAt(h, at);
    var p := h[at].promos[id];
    var env := h[eAt].envs[p.env];
    voters := CountedUsers(env.allowSelf, p.approvals);
    CountIsUsers(env.allowSelf, p.approvals);
    forall u | u in voters
      ensures exists a :: a in p.approvals && a.user == u && a.verdict == Approve && AcceptedBefore(h, at, id, a)
      ensures !env.allowSelf ==> p.requestedBy != Some(u)
    {
      var i :| 0 <= i < |p.approvals| && p.approvals[i].verdict == Approve && (env.allowSelf || !p.approvals[i].self) && p.approvals[i].user == u;
      assert p.approvals[i] in p.approvals;
    }
  }

  predicate Judges(op: Op) {
    op.Request? || op.Decide? || op.AdvanceOne?
  }

  // The policy a step judges by, and the instant of quorum it works from: its own, or the recorded one.
  function PolicyUsed(h: History, op: Op): Environment
    requires Judges(op) && Legal(h, op)
  {
    if op.Request? then h[op.eAt].envs[op.env] else h[op.eAt].envs[h[op.pAt].promos[op.id].env]
  }

  function QuorumUsed(h: History, op: Op): int
    requires Judges(op) && Legal(h, op)
  {
    if op.AdvanceOne? && h[op.pAt].promos[op.id].status != Pending && h[op.pAt].promos[op.id].quorumAt.Some?
    then h[op.pAt].promos[op.id].quorumAt.value else op.now
  }

  // Only a judging step approves, and it approves what NextAfterQuorum says.
  lemma ApprovalIsJudged(h: History, op: Op, id: PromotionId)
    requires Legal(h, op)
    requires var after := Apply(Now(h), CallOf(h, op)).0;
             && id in after.promos && after.promos[id].status == Approved
             && (id in Now(h).promos ==> Now(h).promos[id].status != Approved)
    ensures Judges(op) && op.id == id
    ensures NextAfterQuorum(PolicyUsed(h, op), QuorumUsed(h, op), op.now).0 == Approved
  {
    hide NextAfterQuorum, CanDecide, HasDecided, Collides, DeployingIn, CountedApprovals;
    if op.AdvanceOne? {
      var p := h[op.pAt].promos[op.id];
      assert Apply(Now(h), CallOf(h, op)).0.promos[id].status == Advance(PolicyUsed(h, op), p, op.now).status;
    }
  }

  /**
   A step makes a promotion approved only when, under the policy it read and at its own instant, the
   wait after quorum has passed and a window is open.
   */
  lemma {:induction false} ApprovedOnlyInsideWindow(ops: seq<Op>, op: Op, id: PromotionId)
    requires Legal(Run(ops), op)
    requires var after := Now(Step(Run(ops), op));
             && id in after.promos && after.promos[id].status == Approved
             && (id in Now(Run(ops)).promos ==> Now(Run(ops)).promos[id].status != Approved)
    ensures Judges(op) && op.id == id
    ensures IsOpen(PolicyUsed(Run(ops), op).windows, op.now)
    ensures QuorumUsed(Run(ops), op) + PolicyUsed(Run(ops), op).waitMinutes * 60_000_000_000 <= op.now
  {
    hide Apply, CallOf, NextAfterQuorum, IsOpen, OpenAt;
    var h := Run(ops);
    EveryRunIsGood(ops);
    ApprovalIsJudged(h, op, id);
    var env := PolicyUsed(h, op);
    EnvIsValid(h, op.eAt, if op.Request? then op.env else h[op.pAt].promos[op.id].env);
    ApprovedExactlyWhenOpen(env, QuorumUsed(h, op), op.now);
  }

  lemma EnvIsValid(h: History, at: nat, env: EnvId)
    requires Good(h) && ReadEnv(h, env, at)
    ensures ValidEnv(h[at].envs[env]) && h[at].envs[env].id == env
  {
    assert GoodAt(h, at);
  }
}
