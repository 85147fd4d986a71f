/**
 What people ask of the promotion engine: decisions, cancellations, requests and policy changes
 (internal/environments/promotions.go, service.go, tick.go).
 */
module PromotionService {
  import opened Option
  import opened Windows
  import opened Promotions
  import opened Gate
  import opened PromotionStore
  import opened PromotionRuns
  import opened PromotionBackend
  import opened PromotionTick

  // ---- the human-driven calls ------------------------------------------------------------------------

  datatype Result = Ok | NotFound | Denied(e: DecideError) | Forbidden | Conflict | StoreError

  datatype Loaded = Loaded(p: Promotion, env: Environment) | NotLoaded(r: Result)

  // The promotion read at position a is of an environment that is missing at position b.
  ghost predicate WithoutEnv(h: History, id: PromotionId, a: nat, b: nat) {
    ReadPromotion(h, id, a) && b < |h| && h[a].promos[id].env !in h[b].envs
  }

  // At some moment from `from` on the promotion did not exist, or its environment did not.
  ghost predicate MissingDuring(h: History, from: nat, id: PromotionId) {
    || (exists a: nat :: DuringPass(from, a) && a < |h| && id !in h[a].promos)
    || (exists a: nat, b: nat :: DuringPass(from, a) && DuringPass(from, b) && WithoutEnv(h, id, a, b))
  }

  ghost predicate LoadedAt(h: History, from: nat, id: PromotionId, p: Promotion, env: Environment, pAt: nat, eAt: nat) {
    && DuringPass(from, pAt) && DuringPass(from, eAt)
    && ReadPromotion(h, id, pAt) && p == h[pAt].promos[id]
    && ReadEnv(h, p.env, eAt) && env == h[eAt].envs[p.env]
  }

  ghost function LoadAnswer(db: DB, id: PromotionId): Loaded {
    if id !in db.promos || db.promos[id].env !in db.envs then NotLoaded(NotFound)
    else Loaded(db.promos[id], db.envs[db.promos[id].env])
  }

  // Reads a promotion and then its environment.
  method Load(store: Store, id: PromotionId) returns (l: Loaded, ghost pAt: nat, ghost eAt: nat)
    requires store.Valid()
    modifies store
    ensures store.Valid() && old(store.hist) <= store.hist && old(store.ops) <= store.ops
    ensures store.failed >= old(store.failed)
    ensures old(store.faults) == [] ==> store.faults == [] && store.failed == old(store.failed)
    ensures l.Loaded? ==> LoadedAt(store.hist, |old(store.hist)|, id, l.p, l.env, pAt, eAt) && ValidEnv(l.env) && l.env.id == l.p.env
    ensures l.NotLoaded? ==> if l.r == StoreError then store.failed > old(store.failed)
                             else l.r == NotFound && MissingDuring(store.hist, |old(store.hist)|, id)
    ensures old(store.Quiet()) ==> store.Quiet() && store.hist == old(store.hist) && l == LoadAnswer(Now(store.hist), id)
  {
    hide Run, ValidEnv;
    var pErr, p, at := store.GetPromotion(id);
    pAt, eAt := at, at;
    ghost var read := store.hist;
    if pErr {
      return NotLoaded(StoreError), pAt, eAt;
    }
    if p.None? {
      return NotLoaded(NotFound), pAt, eAt;
    }
    var eErr, e, at' := store.GetEnvByID(p.value.env);
    eAt := at';
    assert store.hist[pAt] == read[pAt];
    if eErr {
      return NotLoaded(StoreError), pAt, eAt;
    }
    if e.None? {
      assert WithoutEnv(store.hist, id, pAt, eAt);
      return NotLoaded(NotFound), pAt, eAt;
    }
    return Loaded(p.value, e.value), pAt, eAt;
  }

  lemma {:induction false} RecordedDecision(db: DB, d: Decision)
    ensures Apply(db, AddDecision(d)).1 == Done ==>
              && d.id in Apply(db, AddDecision(d)).0.promos
              && var q := Apply(db, AddDecision(d)).0.promos[d.id];
                 && q.approvals != [] && q.approvals[|q.approvals| - 1] == d.approval
                 && (d.approval.verdict == Reject ==> q.status == Rejected)
    ensures Apply(db, AddDecision(d)).1 in {Done, Missing} || Apply(db, AddDecision(d)).1.Refused?
    ensures Apply(db, AddDecision(d)).1 == Missing ==> d.id !in db.promos
  {
    hide CountedApprovals, HasDecided;
  }

  // What canDecide accepted, the store accepts on the same row.
  lemma {:induction false} AcceptedIsRecorded(db: DB, env: Environment, actor: Actor, id: PromotionId, verdict: Verdict, now: int)
    requires id in db.promos && CanDecide(env, db.promos[id], actor, verdict == Approve) == None
    ensures var d := DecisionOf(env, db.promos[id], Decide(id, 0, 0, actor, verdict, now));
            Apply(db, AddDecision(d)) == (db.(promos := db.promos[id := Decided(db.promos[id], d)]), Done)
  {
    hide Decided, OnApproverList, NextAfterQuorum;
  }

  ghost function DecideAnswer(db: DB, actor: Actor, id: PromotionId, verdict: Verdict): Result {
    match LoadAnswer(db, id)
    case NotLoaded(r) => r
    case Loaded(p, env) =>
      match CanDecide(env, p, actor, verdict == Approve)
      case Some(e) => Denied(e)
      case None => Ok
  }

  // The database after an undisturbed decision.
  ghost function DecidedDB(db: DB, actor: Actor, id: PromotionId, verdict: Verdict, now: int): DB {
    match LoadAnswer(db, id)
    case NotLoaded(_) => db
    case Loaded(p, env) =>
      if CanDecide(env, p, actor, verdict == Approve) != None then db
      else db.(promos := db.promos[id := Decided(p, DecisionOf(env, p, Decide(id, 0, 0, actor, verdict, now)))])
  }

  /**
   An undisturbed decision: recorded exactly when the promotion and its environment exist and canDecide accepts
   it. A rejection ends the promotion; an approval that is not the last one needed only joins the others; the
   last one lets it through, at once when there is nothing to wait for and a window is open.
   */
  lemma {:induction false} DecidedMeans(db: DB, actor: Actor, id: PromotionId, verdict: Verdict, now: int)
    requires WellKeyed(db) && (id in db.promos ==> DistinctUsers(db.promos[id].approvals))
    ensures var r, after := DecideAnswer(db, actor, id, verdict), DecidedDB(db, actor, id, verdict, now);
            && (r == NotFound <==> id !in db.promos || db.promos[id].env !in db.envs)
            && (r != NotFound ==>
                  var p, env := db.promos[id], db.envs[db.promos[id].env];
                  r == match CanDecide(env, p, actor, verdict == Approve) case None => Ok case Some(e) => Denied(e))
            && (r != Ok ==> after == db)
            && (r == Ok ==>
                  var p, env := db.promos[id], db.envs[db.promos[id].env];
                  var self := verdict == Approve && p.requestedBy == Some(actor.user);
                  && after == db.(promos := db.promos[id := after.promos[id]])
                  && var q := after.promos[id];
                     && q.approvals == p.approvals + [Approval(actor.user, verdict, self, actor.role, now)]
                     && if verdict == Reject then
                          q == p.(approvals := q.approvals, status := Rejected, notBefore := None, finishedAt := Some(now),
                                  required := env.required)
                        else if |CountedUsers(env.allowSelf, q.approvals)| < env.required then q == p.(approvals := q.approvals)
                        else
                          && q == p.(approvals := q.approvals, status := q.status, notBefore := q.notBefore, quorumAt := Some(now),
                                     required := env.required)
                          && q.status in {Waiting, Approved} && (q.status == Waiting <==> q.notBefore.Some?)
                          && (q.status == Approved <==> env.waitMinutes <= 0 && IsOpen(env.windows, now)))
  {
    hide CanDecide, NextAfterQuorum, IsOpen, CountedApprovals, CountedUsers, DecisionOf, Apply;
    if DecideAnswer(db, actor, id, verdict) == Ok {
      var p, env, op := db.promos[id], db.envs[db.promos[id].env], Decide(id, 0, 0, actor, verdict, now);
      AcceptedIsRecorded(db, env, actor, id, verdict, now);
      DecisionOfMeans(env, p, op);
      DecisionMeans(db, DecisionOf(env, p, op));
    }
  }

  // The decision was asked of the store as canDecide allowed it, with this reply.
  ghost predicate Asked(h: History, from: nat, op: Op, reply: Reply) {
    Legal(h, op) && HappenedBetween(h, from, CallOf(h, op), reply)
  }

  lemma {:induction false} WasAsked(read: History, h: History, from: nat, op: Op, c: Call, reply: Reply)
    requires read <= h && from <= |read| && Legal(read, op) && c == CallOf(read, op) && HappenedBetween(h, |read|, c, reply)
    ensures Asked(h, from, op, reply)
  {
    hide Legal, CallOf, HappenedBetween;
    LegalLater(read, h, op);
    HappenedStays(h, h, |read|, from, c, reply);
  }

  lemma {:induction false} DecideIsLegal(h: History, env: Environment, eAt: nat, p: Promotion, pAt: nat, actor: Actor,
          id: PromotionId, verdict: Verdict, now: int)
    requires ReadPromotion(h, id, pAt) && p == h[pAt].promos[id] && ReadEnv(h, p.env, eAt) && env == h[eAt].envs[p.env]
    requires CanDecide(env, p, actor, verdict == Approve) == None
    ensures var op := Decide(id, pAt, eAt, actor, verdict, now);
            Legal(h, op) && CallOf(h, op) == AddDecision(DecisionOf(env, p, op))
  {
    hide CanDecide, DecisionOf;
  }

  // A promotion that was read is still there when the last call was made, so that call can not miss it.
  lemma {:induction false} DecisionOutcome(store: Store, read: History, pAt: nat, d: Decision, reply: Reply)
    requires store.Valid() && read <= store.hist && |read| < |store.hist| && ReadPromotion(read, d.id, pAt)
    requires Apply(store.hist[|store.hist| - 2], AddDecision(d)) == (Now(store.hist), reply)
    ensures reply == Done || reply.Refused?
    ensures reply == Done ==>
              && d.id in Now(store.hist).promos && var q := Now(store.hist).promos[d.id];
                 && q.approvals != [] && q.approvals[|q.approvals| - 1] == d.approval
                 && (d.approval.verdict == Reject ==> q.status == Rejected)
  {
    hide Run, Apply;
    RecordedDecision(store.hist[|store.hist| - 2], d);
    StillThere(store, pAt, d.id);
  }

  // Why a decision ended as it did, with whatever the others did meanwhile.
  ghost predicate DecideEnds(h: History, from: nat, faulty: bool, actor: Actor, id: PromotionId, verdict: Verdict, now: int,
          r: Result) {
    match r
    case Ok => exists a: nat, b: nat :: DuringPass(from, a) && DuringPass(from, b) && Asked(h, from, Decide(id, a, b, actor, verdict, now), Done)
    case Denied(e) =>
      || (exists a: nat, b: nat :: DeniedAt(h, from, actor, id, verdict, e, a, b))
      || (exists a: nat, b: nat :: DuringPass(from, a) && DuringPass(from, b) && Asked(h, from, Decide(id, a, b, actor, verdict, now), Refused(e)))
    case NotFound => MissingDuring(h, from, id)
    case StoreError => faulty
    case _ => false
  }

  ghost predicate DeniedAt(h: History, from: nat, actor: Actor, id: PromotionId, verdict: Verdict, e: DecideError, a: nat, b: nat) {
    && DuringPass(from, a) && DuringPass(from, b) && ReadPromotion(h, id, a) && ReadEnv(h, h[a].promos[id].env, b)
    && CanDecide(h[b].envs[h[a].promos[id].env], h[a].promos[id], actor, verdict == Approve) == Some(e)
  }

  lemma {:induction false} AskedEarlier(h: History, from: nat, earlier: nat, op: Op, reply: Reply)
    requires earlier <= from && Asked(h, from, op, reply)
    ensures Asked(h, earlier, op, reply)
  {
    hide Legal, CallOf, HappenedBetween;
    HappenedStays(h, h, from, earlier, CallOf(h, op), reply);
  }

  // The store's part of a decision that canDecide allowed.
  method AskDecision(store: Store, actor: Actor, id: PromotionId, p: Promotion, ghost pAt: nat, env: Environment, ghost eAt: nat,
          verdict: Verdict, now: int)
    returns (err: bool, reply: Reply)
    requires store.Valid() && ReadPromotion(store.hist, id, pAt) && p == store.hist[pAt].promos[id]
    requires ReadEnv(store.hist, p.env, eAt) && env == store.hist[eAt].envs[p.env] && CanDecide(env, p, actor, verdict == Approve) == None
    modifies store
    ensures store.Valid() && old(store.hist) <= store.hist && old(store.ops) <= store.ops
    ensures store.failed >= old(store.failed) && (err ==> store.failed > old(store.failed))
    ensures old(store.faults) == [] ==> store.faults == [] && store.failed == old(store.failed)
    ensures !err ==>
              && store.ops != [] && store.ops[|store.ops| - 1] == Decide(id, pAt, eAt, actor, verdict, now)
              && Asked(store.hist, |old(store.hist)|, Decide(id, pAt, eAt, actor, verdict, now), reply)
              && (reply == Done || reply.Refused?)
    ensures !err && reply == Done ==>
              && id in Now(store.hist).promos && var q := Now(store.hist).promos[id];
                 && q.approvals != [] && q.approvals[|q.approvals| - 1].user == actor.user
                 && q.approvals[|q.approvals| - 1].verdict == verdict && (verdict == Reject ==> q.status == Rejected)
    ensures old(store.Quiet()) ==> store.Quiet()
    ensures old(store.Quiet() && HasRowAs(Now(store.hist), id, p)) ==>
              && reply == Done
              && Now(store.hist) == old(Now(store.hist)).(promos := old(Now(store.hist)).promos[id :=
                                      Decided(p, DecisionOf(env, p, Decide(id, 0, 0, actor, verdict, now)))])
  {
    hide Apply, CanDecide, Run, NextAfterQuorum, Decided, HappenedBetween, Legal, CallOf, Asked, Turn, AfterTurn, Fails;
    ghost var op, start, read := Decide(id, pAt, eAt, actor, verdict, now), Now(store.hist), store.hist;
    var self := p.requestedBy == Some(actor.user);
    var (st, nb) := NextAfterQuorum(env, now, now);
    var d := Decision(id, Approval(actor.user, verdict, self && verdict == Approve, actor.role, now),
                      env.required, env.allowSelf, st, nb, now);
    DecideIsLegal(read, env, eAt, p, pAt, actor, id, verdict, now);
    err, reply := store.Perform(AddDecision(d), op);
    if !err {
      WasAsked(read, store.hist, |read|, op, AddDecision(d), reply);
      DecisionOutcome(store, read, pAt, d, reply);
      if HasRowAs(start, id, p) {
        AcceptedIsRecorded(start, env, actor, id, verdict, now);
      }
    }
  }

  /**
   Records an approval or a rejection. It is recorded exactly when canDecide allows it on what was read
   and the store, which looks again, does too; left alone the store never refuses what canDecide allows.
   */
  method DecidePromotion(store: Store, actor: Actor, id: PromotionId, verdict: Verdict, now: int) returns (r: Result)
    requires store.Valid()
    modifies store
    ensures store.Valid() && old(store.hist) <= store.hist && old(store.ops) <= store.ops
    ensures r == Ok ==>
              && store.ops != [] && var op := store.ops[|store.ops| - 1];
                 op.Decide? && op.id == id && op.actor == actor && op.verdict == verdict
    ensures r == Ok ==>
              && id in Now(store.hist).promos && var q := Now(store.hist).promos[id];
                 && q.approvals != [] && q.approvals[|q.approvals| - 1].user == actor.user
                 && q.approvals[|q.approvals| - 1].verdict == verdict && (verdict == Reject ==> q.status == Rejected)
    ensures DecideEnds(store.hist, |old(store.hist)|, store.failed > old(store.failed), actor, id, verdict, now, r)
    ensures old(store.Quiet()) ==>
              && store.Quiet() && r == DecideAnswer(old(Now(store.hist)), actor, id, verdict)
              && Now(store.hist) == DecidedDB(old(Now(store.hist)), actor, id, verdict, now)
  {
    hide Apply, CanDecide, Run, NextAfterQuorum, Decided, MissingDuring, ValidEnv, Asked, DecisionOf;
    var l, pAt, eAt := Load(store, id);
    if l.NotLoaded? {
      return l.r;
    }
    var p, env := l.p, l.env;
    var refused := CanDecide(env, p, actor, verdict == Approve);
    if refused.Some? {
      assert DeniedAt(store.hist, |old(store.hist)|, actor, id, verdict, refused.value, pAt, eAt);
      return Denied(refused.value);
    }
    ghost var read := store.hist;
    var err, reply := AskDecision(store, actor, id, p, pAt, env, eAt, verdict, now);
    if err {
      return StoreError;
    }
    AskedEarlier(store.hist, |read|, |old(store.hist)|, Decide(id, pAt, eAt, actor, verdict, now), reply);
    match reply
    case Missing => return NotFound;
    case Refused(why) => return Denied(why);
    case _ => return Ok;
  }

  // A promotion that was read is still there when the last call was made.
  lemma {:induction false} StillThere(store: Store, at: nat, id: PromotionId)
    requires store.Valid() && ReadPromotion(store.hist, id, at) && at < |store.hist| - 1
    ensures id in store.hist[|store.hist| - 2].promos
    ensures store.hist[|store.hist| - 2].promos[id].requestedBy == store.hist[at].promos[id].requestedBy
  {
    hide Run, Good;
    EveryRunIsGood(store.ops);
    SnapshotIsOlder(store.hist, at, |store.hist| - 2, id);
  }

  ghost predicate MayCancel(p: Promotion, actor: Actor) {
    p.requestedBy == Some(actor.user) || actor.role == Admin
  }

  ghost function CancelAnswer(db: DB, actor: Actor, id: PromotionId): Result {
    match LoadAnswer(db, id)
    case NotLoaded(r) => r
    case Loaded(p, _) => if !MayCancel(p, actor) then Forbidden else if CanStillReject(p.status) then Ok else Conflict
  }

  ghost function CancelledDB(db: DB, id: PromotionId, now: int): DB {
    if id in db.promos && CanStillReject(db.promos[id].status) then
      db.(promos := db.promos[id := FinishedRow(db.promos[id], Cancelled, now)])
    else db
  }

  // Why a cancellation ended as it did, with whatever the others did meanwhile.
  ghost predicate CancelEnds(h: History, from: nat, faulty: bool, actor: Actor, id: PromotionId, now: int, r: Result) {
    match r
    case Ok => CancellerRead(h, from, actor, id, true) && HappenedBetween(h, from, CancelCall(id, now), Moved(true))
    case Conflict => CancellerRead(h, from, actor, id, true) && HappenedBetween(h, from, CancelCall(id, now), Moved(false))
    case Forbidden => CancellerRead(h, from, actor, id, false)
    case NotFound => MissingDuring(h, from, id)
    case StoreError => faulty
    case _ => false
  }

  ghost predicate CancellerRead(h: History, from: nat, actor: Actor, id: PromotionId, may: bool) {
    exists a: nat :: DuringPass(from, a) && ReadPromotion(h, id, a) && (MayCancel(h[a].promos[id], actor) <==> may)
  }

  lemma {:induction false} CancelMoves(db: DB, id: PromotionId, now: int)
    ensures Apply(db, CancelCall(id, now)) == (CancelledDB(db, id, now), Moved(id in db.promos && CanStillReject(db.promos[id].status)))
    ensures !(id in db.promos && CanStillReject(db.promos[id].status)) ==> CancelledDB(db, id, now) == db
  {
    hide Apply, DeployingIn;
    TransitionMoves(db, id, {Pending, Waiting, Approved}, Cancelled, NO_CHANGE.(finishedAt := Some(now)));
  }

  lemma {:induction false} CancelOutcome(store: Store, read: History, pAt: nat, id: PromotionId, now: int, reply: Reply)
    requires store.Valid() && read <= store.hist && |read| < |store.hist| && ReadPromotion(read, id, pAt)
    requires Apply(store.hist[|store.hist| - 2], CancelCall(id, now)) == (Now(store.hist), reply)
    ensures id in store.hist[|store.hist| - 2].promos && id in Now(store.hist).promos
    ensures Now(store.hist).promos[id].requestedBy == read[pAt].promos[id].requestedBy
    ensures reply == Moved(CanStillReject(store.hist[|store.hist| - 2].promos[id].status))
    ensures reply == Moved(true) ==> Now(store.hist).promos[id].status == Cancelled
    ensures reply != Moved(true) ==> !CanStillReject(Now(store.hist).promos[id].status)
  {
    hide Run, Apply;
    CancelMoves(store.hist[|store.hist| - 2], id, now);
    StillThere(store, pAt, id);
    assert store.hist[pAt] == read[pAt];
  }

  // The row of an undisturbed cancellation.
  lemma {:induction false} CancelMeans(db: DB, id: PromotionId, now: int)
    ensures CancelledDB(db, id, now) ==
            if id in db.promos && db.promos[id].status in {Pending, Waiting, Approved} then
              db.(promos := db.promos[id := db.promos[id].(status := Cancelled, notBefore := None, finishedAt := Some(now))])
            else db
  {
  }

  lemma {:induction false} StillOpen()
    ensures forall s :: CanStillReject(s) <==> s in {Pending, Waiting, Approved}
  {
  }

  /** A cancellation is one transition, of whatever has not started deploying. */
  lemma {:induction false} CancelCallMeans(id: PromotionId, now: int)
    ensures CancelCall(id, now) == Transition(id, {Pending, Waiting, Approved}, Cancelled, Patch(None, None, None, Some(now), None))
  {
  }

  // The store's part of a cancellation.
  method AskCancel(store: Store, ghost pAt: nat, id: PromotionId, now: int) returns (err: bool, ok: bool)
    requires store.Valid() && ReadPromotion(store.hist, id, pAt)
    modifies store
    ensures store.Valid() && old(store.hist) <= store.hist && old(store.ops) <= store.ops
    ensures store.failed >= old(store.failed) && (err ==> store.failed > old(store.failed))
    ensures old(store.faults) == [] ==> store.faults == [] && store.failed == old(store.failed)
    ensures !err ==> && |store.hist| > |old(store.hist)| && HappenedBetween(store.hist, |old(store.hist)|, CancelCall(id, now), Moved(ok))
                     && id in store.hist[|store.hist| - 2].promos && id in Now(store.hist).promos
                     && Now(store.hist).promos[id].requestedBy == old(store.hist[pAt].promos[id].requestedBy)
                     && ok == CanStillReject(store.hist[|store.hist| - 2].promos[id].status)
                     && if ok then Now(store.hist).promos[id].status == Cancelled else !CanStillReject(Now(store.hist).promos[id].status)
    ensures old(store.Quiet()) ==>
              && store.Quiet() && id in old(Now(store.hist)).promos && ok == CanStillReject(old(Now(store.hist)).promos[id].status)
              && Now(store.hist) == (if ok then CancelledDB(old(Now(store.hist)), id, now) else old(Now(store.hist)))
  {
    hide Apply, Run, HappenedBetween, CancelCall, Legal, CallOf, Turn, AfterTurn, Fails, CancelledDB, CanStillReject;
    ghost var start, read := Now(store.hist), store.hist;
    CancelIsLegal(read, id, now);
    var reply: Reply;
    err, reply := store.Perform(CancelCall(id, now), UserCancel(id, now));
    ok := !err && reply == Moved(true);
    if !err {
      CancelOutcome(store, read, pAt, id, now, reply);
    }
    if old(store.Quiet()) {
      StillThere(store, pAt, id);
      CancelMoves(start, id, now);
    }
  }

  /** Cancels a promotion that has not started deploying: its requester or an environment admin. */
  method CancelPromotion(store: Store, actor: Actor, id: PromotionId, now: int) returns (r: Result)
    requires store.Valid()
    modifies store
    ensures store.Valid() && old(store.hist) <= store.hist && old(store.ops) <= store.ops
    ensures r == Ok ==> && |store.hist| > |old(store.hist)|
                        && id in store.hist[|store.hist| - 2].promos
                        && store.hist[|store.hist| - 2].promos[id].status in {Pending, Waiting, Approved}
                        && id in Now(store.hist).promos && Now(store.hist).promos[id].status == Cancelled
                        && (actor.role == Admin || Now(store.hist).promos[id].requestedBy == Some(actor.user))
    ensures r == Conflict ==> id in Now(store.hist).promos && Now(store.hist).promos[id].status !in {Pending, Waiting, Approved}
    ensures old(store.Quiet()) ==>
              var db := old(Now(store.hist));
              var known := id in db.promos && db.promos[id].env in db.envs;
              var may := known && (db.promos[id].requestedBy == Some(actor.user) || actor.role == Admin);
              && (r == NotFound <==> !known) && (r == Forbidden <==> known && !may)
              && (r == Ok <==> may && db.promos[id].status in {Pending, Waiting, Approved})
              && Now(store.hist) == if r != Ok then db else
                   db.(promos := db.promos[id := db.promos[id].(status := Cancelled, notBefore := None, finishedAt := Some(now))])
    ensures CancelEnds(store.hist, |old(store.hist)|, store.failed > old(store.failed), actor, id, now, r)
    ensures old(store.Quiet()) ==>
              && store.Quiet() && r == CancelAnswer(old(Now(store.hist)), actor, id)
              && Now(store.hist) == (if r == Ok then CancelledDB(old(Now(store.hist)), id, now) else old(Now(store.hist)))
  {
    hide Apply, Run, HappenedBetween, MissingDuring, ValidEnv, CancelCall, CancelledDB, CanStillReject;
    CancelMeans(Now(store.hist), id, now);
    StillOpen();
    var l, pAt, _ := Load(store, id);
    if l.NotLoaded? {
      return l.r;
    }
    var p := l.p;
    if p.requestedBy != Some(actor.user) && actor.role != Admin {
      return Forbidden;
    }
    ghost var read := store.hist;
    var err, ok := AskCancel(store, pAt, id, now);
    if err {
      return StoreError;
    }
    HappenedStays(store.hist, store.hist, |read|, |old(store.hist)|, CancelCall(id, now), Moved(ok));
    return if ok then Ok else Conflict;
  }

  predicate Taken(db: DB, p: Promotion) {
    p.id in db.promos || exists x | x in db.promos :: Collides(db.promos[x], p)
  }

  // The same request, worked out from the policy read at position a.
  function RequestReadAt(op: Op, a: nat): Op
    requires op.Request?
  {
    Request(op.id, op.env, a, op.sha, op.requestedBy, op.key, op.source, op.now)
  }

  // Why a request ended as it did, with whatever the others did meanwhile.
  ghost predicate RequestEnds(h: History, from: nat, faulty: bool, op: Op, r: Result)
    requires op.Request?
  {
    match r
    case Ok => exists a: nat :: DuringPass(from, a) && Asked(h, from, RequestReadAt(op, a), Done)
    case Conflict => exists a: nat :: DuringPass(from, a) && Asked(h, from, RequestReadAt(op, a), Existing)
    case NotFound => exists a: nat :: DuringPass(from, a) && a < |h| && op.env !in h[a].envs
    case StoreError => faulty
    case _ => false
  }

  ghost function RequestAnswer(db: DB, op: Op): Result
    requires op.Request?
  {
    if op.env !in db.envs then NotFound else if Taken(db, Requested(db.envs[op.env], op)) then Conflict else Ok
  }

  lemma {:induction false} CreateOutcome(db: DB, p: Promotion)
    ensures Apply(db, CreatePromotion(p)).1 == if Taken(db, p) then Existing else Done
    ensures Apply(db, CreatePromotion(p)).0 == if Taken(db, p) then db else db.(promos := db.promos[p.id := p])
  {
    hide Collides;
  }

  // The store's part of a request.
  method AskPromotion(store: Store, p: Promotion, ghost op: Op) returns (err: bool, ok: bool)
    requires store.Valid() && Legal(store.hist, op) && CallOf(store.hist, op) == CreatePromotion(p)
    modifies store
    ensures store.Valid() && old(store.hist) <= store.hist && old(store.ops) <= store.ops
    ensures store.failed >= old(store.failed) && (err ==> store.failed > old(store.failed))
    ensures old(store.faults) == [] ==> store.faults == [] && store.failed == old(store.failed)
    ensures !err ==> Asked(store.hist, |old(store.hist)|, op, if ok then Done else Existing)
    ensures !err && ok ==> p.id in Now(store.hist).promos && Now(store.hist).promos[p.id] == p
    ensures old(store.Quiet()) ==>
              && store.Quiet() && ok == !Taken(old(Now(store.hist)), p)
              && Now(store.hist) == (if ok then old(Now(store.hist)).(promos := old(Now(store.hist)).promos[p.id := p]) else old(Now(store.hist)))
  {
    hide Apply, Run, HappenedBetween, Taken, Legal, CallOf, Asked, Turn, AfterTurn, Fails;
    ghost var start, read := Now(store.hist), store.hist;
    var reply: Reply;
    err, reply := store.Perform(CreatePromotion(p), op);
    ok := !err && reply == Done;
    CreateOutcome(start, p);
    if !err {
      WasAsked(read, store.hist, |read|, op, CreatePromotion(p), reply);
      CreateOutcome(store.hist[|store.hist| - 2], p);
    }
  }

  /** Requests a promotion: a policy that requires no approvals is judged at once. */
  method RequestPromotion(store: Store, id: PromotionId, env: EnvId, sha: string, requestedBy: Option<UserId>, key: string,
          source: Option<DeploymentId>, now: int)
    returns (r: Result)
    requires store.Valid()
    modifies store
    ensures store.Valid() && old(store.hist) <= store.hist && old(store.ops) <= store.ops
    ensures r == Ok ==>
              && id in Now(store.hist).promos && var p := Now(store.hist).promos[id];
                 && p.id == id && p.env == env && p.sha == sha && p.requestedBy == requestedBy && p.approvals == []
                 && p.status in {Pending, Waiting, Approved} && (p.status == Pending <==> p.required != 0)
                 && p.key == key && p.source == source && p.createdAt == now && p.expiresAt == now + 259_200_000_000_000
                 && p.quorumAt == (if p.required == 0 then Some(now) else None) && p.deployment == None
    ensures RequestEnds(store.hist, |old(store.hist)|, store.failed > old(store.failed), Request(id, env, 0, sha, requestedBy, key, source, now), r)
    ensures old(store.Quiet()) ==> (r == NotFound <==> env !in old(Now(store.hist)).envs) && r in {Ok, Conflict, NotFound}
    ensures old(store.Quiet()) ==>
              && store.Quiet() && var db, op := old(Now(store.hist)), Request(id, env, 0, sha, requestedBy, key, source, now);
                 && r == RequestAnswer(db, op)
                 && Now(store.hist) == (if r == Ok then db.(promos := db.promos[id := Requested(db.envs[env], op)]) else db)
  {
    hide Run, NextAfterQuorum, ValidEnv, Taken, Legal, CallOf, Asked, Requested;
    var eErr, e, eAt := store.GetEnvByID(env);
    if eErr {
      return StoreError;
    }
    if e.None? {
      return NotFound;
    }
    ghost var op, read := Request(id, env, eAt, sha, requestedBy, key, source, now), store.hist;
    var p := Promotion(id, e.value.id, sha, requestedBy, key, Pending, e.value.required, None, None, now + EXPIRY, now,
                       None, None, source, None, []);
    if e.value.required == 0 {
      var (st, nb) := NextAfterQuorum(e.value, now, now);
      p := p.(status := st, notBefore := nb, quorumAt := Some(now));
    }
    RequestIsLegal(read, e.value, op, p);
    RequestIsOpen(e.value, op);
    var err, ok := AskPromotion(store, p, op);
    if err {
      return StoreError;
    }
    AskedEarlier(store.hist, |read|, |old(store.hist)|, op, if ok then Done else Existing);
    return if ok then Ok else Conflict;
  }

  // The promotion the service builds is the one the request asks for, whenever the policy was read.
  lemma {:induction false} RequestIsLegal(h: History, e: Environment, op: Op, p: Promotion)
    requires op.Request? && ReadEnv(h, op.env, op.eAt) && e == h[op.eAt].envs[op.env] && e.id == op.env
    requires p == (var q := Promotion(op.id, e.id, op.sha, op.requestedBy, op.key, Pending, e.required, None, None, op.now + EXPIRY, op.now,
                                      None, None, op.source, None, []);
                   if e.required == 0 then
                     q.(status := NextAfterQuorum(e, op.now, op.now).0, notBefore := NextAfterQuorum(e, op.now, op.now).1, quorumAt := Some(op.now))
                   else q)
    ensures Legal(h, op) && CallOf(h, op) == CreatePromotion(p) && p == Requested(e, op) == Requested(e, RequestReadAt(op, 0))
    ensures p.id == op.id && p.env == op.env && p.sha == op.sha && p.requestedBy == op.requestedBy && p.required == e.required
    ensures RequestReadAt(RequestReadAt(op, 0), op.eAt) == op
  {
    hide NextAfterQuorum;
  }

  // ---- policy changes ------------------------------------------------------------------------------------

  function PolicyCancelCall(p: Promotion, now: int): Call {
    Transition(p.id, {p.status}, Cancelled, NO_CHANGE.(finishedAt := Some(now)))
  }

  // What a new policy e makes of the snapshot p: one that deploys, or whose commit could not be judged, is
  // kept; one that the policy refuses is cancelled; any other is advanced.
  function ReevaluatedRow(world: World, e: Environment, p: Promotion, now: int): Promotion {
    if p.status == Deploying then p
    else
      match world.check(p.id)
      case Trouble => p
      case GateFails => FinishedRow(p, Cancelled, now)
      case Pass => AdvancedRow(e, p, now)
  }

  // What the re-evaluation asked of the store for the snapshot p.
  ghost predicate Judged(h: History, from: nat, faulty: bool, world: World, e: Environment, p: Promotion, now: int) {
    p.status != Deploying ==>
      match world.check(p.id)
      case Trouble => true
      case GateFails => faulty || exists ok: bool :: HappenedBetween(h, from, PolicyCancelCall(p, now), Moved(ok))
      case Pass => faulty || Settled(e, p, now) || exists ok: bool :: HappenedBetween(h, from, AdvanceCall(e, p, now), Moved(ok))
  }

  lemma {:induction false} JudgedStays(h: History, later: History, from: nat, earlier: nat, faulty: bool, wasFaulty: bool,
          world: World, e: Environment, p: Promotion, now: int)
    requires h <= later && earlier <= from && (faulty ==> wasFaulty) && Judged(h, from, faulty, world, e, p, now)
    ensures Judged(later, earlier, wasFaulty, world, e, p, now)
  {
    hide HappenedBetween, Settled, AdvanceCall;
    if p.status != Deploying && !faulty {
      match world.check(p.id)
      case Trouble =>
      case GateFails =>
        var ok :| HappenedBetween(h, from, PolicyCancelCall(p, now), Moved(ok));
        HappenedStays(h, later, from, earlier, PolicyCancelCall(p, now), Moved(ok));
      case Pass =>
        if !Settled(e, p, now) {
          var ok :| HappenedBetween(h, from, AdvanceCall(e, p, now), Moved(ok));
          HappenedStays(h, later, from, earlier, AdvanceCall(e, p, now), Moved(ok));
        }
    }
  }

  // Cancels with the reason policy_changed a promotion whose commit the new policy refuses.
  method CancelForPolicy(store: Store, p: Promotion, ghost pAt: nat, now: int)
    requires store.Valid() && Snapshot(store.hist, p, pAt) && p.status != Deploying
    modifies store
    ensures store.Valid() && old(store.hist) <= store.hist && old(store.ops) <= store.ops
    ensures store.failed >= old(store.failed)
    ensures old(store.faults) == [] ==> store.faults == [] && store.failed == old(store.failed)
    ensures store.failed > old(store.failed) || exists ok: bool :: HappenedBetween(store.hist, |old(store.hist)|, PolicyCancelCall(p, now), Moved(ok))
    ensures old(store.Quiet()) ==> store.Quiet()
    ensures old(store.Quiet() && HasRow(Now(store.hist), p)) ==>
              && OnlyRow(old(Now(store.hist)), Now(store.hist), p.id)
              && HasRowAs(Now(store.hist), p.id, FinishedRow(p, Cancelled, now))
  {
    hide Apply, Run, HappenedBetween, OnlyRow;
    ghost var before := Now(store.hist);
    var patch := NO_CHANGE.(finishedAt := Some(now));
    var _, _ := Transit(store, p.id, {p.status}, Cancelled, patch, PolicyCancel(p.id, pAt, now));
    MovedDBTouchesOneRow(before, p.id, {p.status}, Cancelled, patch);
  }

  // One promotion of the re-evaluation.
  method ReevaluateOne(store: Store, world: World, e: Environment, ghost eAt: nat, p: Promotion, ghost pAt: nat, now: int)
    requires store.Valid() && Snapshot(store.hist, p, pAt) && EnvSnapshot(store.hist, e, p.env, eAt)
    modifies store
    ensures store.Valid() && old(store.hist) <= store.hist && old(store.ops) <= store.ops
    ensures store.failed >= old(store.failed)
    ensures old(store.faults) == [] ==> store.faults == [] && store.failed == old(store.failed)
    ensures Judged(store.hist, |old(store.hist)|, store.failed > old(store.failed), world, e, p, now)
    ensures old(store.Quiet()) ==> store.Quiet()
    ensures old(store.Quiet() && HasRow(Now(store.hist), p)) ==>
              OnlyRow(old(Now(store.hist)), Now(store.hist), p.id) && HasRowAs(Now(store.hist), p.id, ReevaluatedRow(world, e, p, now))
  {
    hide Run, OnlyRow, Advance, ValidEnv, GateOpen, HappenedBetween, Settled, AdvanceCall, AdvancedRow, AdvancesTo, FinishedRow;
    SameRow(Now(store.hist), p.id);
    if p.status != Deploying {
      match world.check(p.id)
      case Trouble =>
      case GateFails =>
        CancelForPolicy(store, p, pAt, now);
      case Pass =>
        var q := AdvancePromotion(store, e, eAt, p, pAt, now);
        AdvanceWasAsked(store.hist, |old(store.hist)|, store.failed > old(store.failed), e, p, now, q);
        RowStays(Now(store.hist), q, p.id);
    }
  }

  lemma {:induction false} AdvanceWasAsked(h: History, from: nat, faulty: bool, e: Environment, p: Promotion, now: int,
          q: Promotion)
    requires AdvancesTo(h, from, faulty, e, p, now, q)
    ensures faulty || Settled(e, p, now) || exists ok: bool :: HappenedBetween(h, from, AdvanceCall(e, p, now), Moved(ok))
  {
    hide Settled, AdvanceCall, AdvancedRow, HappenedBetween;
    if !Settled(e, p, now) {
      MovesHappened(h, from, faulty, AdvanceCall(e, p, now), p, AdvancedRow(e, p, now), q);
    }
  }

  lemma {:induction false} RowStays(db: DB, q: Promotion, id: PromotionId)
    ensures HasRow(db, q) && q.id == id ==> HasRowAs(db, id, q)
  {
  }

  // The promotions among the first n listed.
  function Handled(listed: seq<Promotion>, n: nat): set<PromotionId>
    requires n <= |listed|
  {
    set j: nat | j < n :: listed[j].id
  }

  // What an undisturbed re-evaluation has made of the rows of start after n promotions.
  ghost predicate Reevaluated(db: DB, start: DB, world: World, e: Environment, listed: seq<Promotion>, n: nat, now: int)
    requires n <= |listed|
  {
    && db.envs == start.envs && db.promos.Keys == start.promos.Keys
    && (forall j :: 0 <= j < |listed| ==> HasRow(start, listed[j]))
    && forall id :: id in db.promos ==>
                      && db.promos[id].env == start.promos[id].env
                      && db.promos[id] == if id in Handled(listed, n) then ReevaluatedRow(world, e, start.promos[id], now) else start.promos[id]
  }

  lemma {:induction false} NextIsListed(db: DB, start: DB, world: World, e: Environment, listed: seq<Promotion>, n: nat, now: int)
    requires n < |listed| && DistinctIds(listed) && Reevaluated(db, start, world, e, listed, n, now)
    ensures HasRow(db, listed[n])
  {
    hide ReevaluatedRow;
    assert HasRow(start, listed[n]);
    assert listed[n].id !in Handled(listed, n);
  }

  lemma {:induction false} ReevaluatedStep(before: DB, after: DB, start: DB, world: World, e: Environment, listed: seq<Promotion>,
          n: nat, now: int)
    requires n < |listed| && DistinctIds(listed) && Reevaluated(before, start, world, e, listed, n, now)
    requires OnlyRow(before, after, listed[n].id) && HasRowAs(after, listed[n].id, ReevaluatedRow(world, e, listed[n], now))
    ensures Reevaluated(after, start, world, e, listed, n + 1, now)
  {
    hide ReevaluatedRow;
    assert HasRow(start, listed[n]);
    assert Handled(listed, n + 1) == Handled(listed, n) + {listed[n].id};
  }

  // Every active promotion of env, and nothing else.
  ghost predicate ActiveOf(db: DB, env: EnvId, listed: seq<Promotion>) {
    && (forall i :: 0 <= i < |listed| ==> HasRow(db, listed[i]) && IsActive(listed[i].status) && listed[i].env == env)
    && forall id :: id in db.promos && IsActive(db.promos[id].status) && db.promos[id].env == env ==> db.promos[id] in listed
  }

  ghost predicate AllJudged(h: History, from: nat, faulty: bool, world: World, e: Environment, listed: seq<Promotion>, now: int) {
    forall i :: 0 <= i < |listed| ==> Judged(h, from, faulty, world, e, listed[i], now)
  }

  // Everything that was active in the environment at some moment of the call was judged.
  ghost predicate ReevaluatedDuring(h: History, from: nat, faulty: bool, world: World, e: Environment, now: int) {
    || faulty
    || exists at: nat, listed: seq<Promotion> ::
         DuringPass(from, at) && at < |h| && ActiveOf(h[at], e.id, listed) && AllJudged(h, from, faulty, world, e, listed, now)
  }

  // What applying policy e has made of the rows of before: exactly the active ones of its environment are judged.
  ghost predicate PolicyApplied(before: DB, after: DB, world: World, e: Environment, now: int) {
    && after.promos.Keys == before.promos.Keys
    && forall id :: id in before.promos ==>
                      after.promos[id] == if before.promos[id].env == e.id && IsActive(before.promos[id].status)
                                          then ReevaluatedRow(world, e, before.promos[id], now) else before.promos[id]
  }

  lemma {:induction false} AllReevaluated(db: DB, start: DB, world: World, e: Environment, listed: seq<Promotion>, now: int)
    requires Reevaluated(db, start, world, e, listed, |listed|, now) && ActiveOf(start, e.id, listed) && WellKeyed(start)
    ensures PolicyApplied(start, db, world, e, now) && db.envs == start.envs
  {
    hide ReevaluatedRow, ValidEnv, IsActive;
    forall id | id in start.promos
      ensures id in Handled(listed, |listed|) <==> start.promos[id].env == e.id && IsActive(start.promos[id].status)
    {
      if id in Handled(listed, |listed|) {
        var j: nat :| j < |listed| && listed[j].id == id;
        assert HasRow(start, listed[j]);
      }
      if start.promos[id].env == e.id && IsActive(start.promos[id].status) {
        var j: nat :| j < |listed| && listed[j] == start.promos[id];
        assert listed[j].id == id;
      }
    }
  }

  /** Applies the policy e, stored at position eAt, to the promotions that have not started deploying. */
  method Reevaluate(store: Store, world: World, e: Environment, ghost eAt: nat, now: int)
    requires store.Valid() && EnvSnapshot(store.hist, e, e.id, eAt)
    modifies store
    ensures store.Valid() && old(store.hist) <= store.hist && old(store.ops) <= store.ops
    ensures store.failed >= old(store.failed)
    ensures old(store.faults) == [] ==> store.faults == [] && store.failed == old(store.failed)
    ensures ReevaluatedDuring(store.hist, |old(store.hist)|, store.failed > old(store.failed), world, e, now)
    ensures old(store.Quiet()) ==>
              && Now(store.hist).envs == old(Now(store.hist)).envs && PolicyApplied(old(Now(store.hist)), Now(store.hist), world, e, now)
              && forall id :: id in old(Now(store.hist)).promos && MustCancel(old(Now(store.hist)), world, e.id, id) ==>
                                id in Now(store.hist).promos && Now(store.hist).promos[id].status == Cancelled
  {
    hide *;
    ghost var start, from, failed := Now(store.hist), |store.hist|, store.failed;
    QuietHasNoFaults(store);
    var listErr, listed, at := store.ListActiveOf(e.id);
    if listErr {
      NotListed(store.hist, from, world, e, now);
      return;
    }
    ghost var read := store.hist;
    EnvSnapshotsStay(old(store.hist), read);
    NothingReevaluated(read, from, false, world, e, listed, at, now);
    for i := 0 to |listed|
      invariant store.Valid() && read <= store.hist && old(store.hist) <= store.hist && old(store.ops) <= store.ops
      invariant store.failed >= old(store.failed) && (old(store.faults) == [] ==> store.faults == [] && store.failed == old(store.failed))
      invariant AllJudged(store.hist, from, store.failed > failed, world, e, listed[..i], now)
      invariant old(store.Quiet()) ==> store.Quiet() && Reevaluated(Now(store.hist), start, world, e, listed, i, now)
    {
      SnapshotsStay(read, store.hist);
      EnvSnapshotsStay(read, store.hist);
      ghost var before, failures := store.hist, store.failed;
      if old(store.Quiet()) {
        NextIsListed(Now(before), start, world, e, listed, i, now);
      }
      ReevaluateOne(store, world, e, eAt, listed[i], at, now);
      if old(store.Quiet()) {
        ReevaluatedStep(Now(before), Now(store.hist), start, world, e, listed, i, now);
      }
      OneMoreJudged(before, store.hist, from, failures > failed, store.failed > failures, store.failed > failed, world, e, listed, i, now);
    }
    assert listed[..|listed|] == listed;
    AllAreJudged(read, store.hist, from, store.failed > failed, world, e, listed, now);
    if old(store.Quiet()) {
      AllReevaluated(Now(store.hist), start, world, e, listed, now);
      KeysAreIds(start);
      PolicyCancels(start, Now(store.hist), world, e, now);
    }
  }

  lemma {:induction false} NotListed(h: History, from: nat, world: World, e: Environment, now: int)
    ensures ReevaluatedDuring(h, from, true, world, e, now)
  {
  }

  lemma {:induction false} OneMoreJudged(h: History, later: History, from: nat, earlierFaulty: bool, wasFaulty: bool, faulty: bool,
          world: World, e: Environment, listed: seq<Promotion>, i: nat, now: int)
    requires h <= later && from <= |h| && i < |listed| && (earlierFaulty || wasFaulty ==> faulty)
    requires AllJudged(h, from, earlierFaulty, world, e, listed[..i], now) && Judged(later, |h|, wasFaulty, world, e, listed[i], now)
    ensures AllJudged(later, from, faulty, world, e, listed[..i + 1], now)
  {
    hide Judged;
    forall j | 0 <= j < i ensures Judged(later, from, faulty, world, e, listed[j], now) {
      assert listed[..i][j] == listed[j];
      JudgedStays(h, later, from, from, earlierFaulty, faulty, world, e, listed[j], now);
    }
    JudgedStays(later, later, |h|, from, wasFaulty, faulty, world, e, listed[i], now);
  }

  lemma {:induction false} AllAreJudged(read: History, h: History, from: nat, faulty: bool, world: World, e: Environment,
          listed: seq<Promotion>, now: int)
    requires read <= h && from <= |read| && ActiveOf(Now(read), e.id, listed) && AllJudged(h, from, faulty, world, e, listed, now)
    ensures ReevaluatedDuring(h, from, faulty, world, e, now)
  {
    hide ActiveOf, AllJudged;
    assert h[|read| - 1] == Now(read) && DuringPass(from, |read| - 1);
  }

  /**
   What a new policy does to a promotion of its environment that has not started deploying: it is cancelled when
   the policy refuses its commit, kept when that could not be told, and otherwise taken where Advance says.
   Every other promotion is left alone.
   */
  lemma {:induction false} PolicyMeans(before: DB, after: DB, world: World, e: Environment, now: int, id: PromotionId)
    requires PolicyApplied(before, after, world, e, now) && id in before.promos && before.promos[id].id == id
    ensures var p, a := before.promos[id], Advance(e, before.promos[id], now);
            var moved := p.(status := a.status, notBefore := a.notBefore, quorumAt := a.quorumAt, required := e.required);
            && id in after.promos
            && after.promos[id] ==
               if p.env != e.id || p.status !in {Pending, Waiting, Approved} || world.check(id) == Trouble then p
               else if world.check(id) == GateFails then p.(status := Cancelled, notBefore := None, finishedAt := Some(now))
               else if a.changed || p.required != e.required then moved else p
  {
    hide CountedApprovals, NextAfterQuorum;
  }

  // A promotion of env that has not started deploying and whose commit fails the business rules.
  predicate MustCancel(db: DB, world: World, env: EnvId, id: PromotionId)
    requires id in db.promos
  {
    db.promos[id].env == env && db.promos[id].status in {Pending, Waiting, Approved} && world.check(id) == GateFails
  }

  lemma {:induction false} PolicyCancels(before: DB, after: DB, world: World, e: Environment, now: int)
    requires PolicyApplied(before, after, world, e, now) && forall id :: id in before.promos ==> before.promos[id].id == id
    ensures forall id :: id in before.promos && MustCancel(before, world, e.id, id) ==>
                           id in after.promos && after.promos[id].status == Cancelled
  {
    hide PolicyApplied, Advance;
    forall id | id in before.promos && MustCancel(before, world, e.id, id)
      ensures id in after.promos && after.promos[id].status == Cancelled
    {
      PolicyMeans(before, after, world, e, now, id);
    }
  }

  /** What a re-evaluation asks of the store for a promotion that has not started deploying. */
  lemma {:induction false} JudgedMeans(h: History, from: nat, world: World, e: Environment, p: Promotion, now: int)
    requires Judged(h, from, false, world, e, p, now) && p.status != Deploying
    ensures world.check(p.id) == GateFails ==>
              var c := Transition(p.id, {p.status}, Cancelled, Patch(None, None, None, Some(now), None));
              exists ok: bool :: HappenedBetween(h, from, c, Moved(ok))
    ensures world.check(p.id) == Pass && (Advance(e, p, now).changed || p.required != e.required) ==>
              var a := Advance(e, p, now);
              var c := Transition(p.id, {p.status}, a.status, Patch(a.notBefore, a.quorumAt, None, None, Some(e.required)));
              exists ok: bool :: HappenedBetween(h, from, c, Moved(ok))
  {
    hide HappenedBetween, Advance;
  }

  lemma EnvSnapshotsStay(h: History, later: History)
    requires h <= later
    ensures forall e, id, at :: EnvSnapshot(h, e, id, at) ==> EnvSnapshot(later, e, id, at)
  {
    hide ValidEnv;
  }

  // A list just read is every active promotion of its environment; nothing is judged yet.
  lemma {:induction false} NothingReevaluated(h: History, from: nat, faulty: bool, world: World, e: Environment,
          listed: seq<Promotion>, at: nat, now: int)
    requires OldestFirst(listed) && at == |h| - 1
    requires forall i :: 0 <= i < |listed| ==> Snapshot(h, listed[i], at) && listed[i].env == e.id
    requires forall id :: id in Now(h).promos && IsActive(Now(h).promos[id].status) && Now(h).promos[id].env == e.id ==>
                            Now(h).promos[id] in listed
    ensures DistinctIds(listed) && ActiveOf(Now(h), e.id, listed)
    ensures Reevaluated(Now(h), Now(h), world, e, listed, 0, now) && AllJudged(h, from, faulty, world, e, [], now)
  {
    hide IsActive, OldestFirst, DistinctIds, ReevaluatedRow;
    ListedIdsDiffer(h, listed, at);
  }

  /**
   Replaces the policy of an environment and applies it: promotions whose commit it refuses are
   cancelled, those that could not be judged stay, the rest are advanced.
   */
  method PutEnvironment(store: Store, world: World, e: Environment, now: int) returns (r: Result)
    requires store.Valid() && AllValid(e.windows) && e.required >= 0
    modifies store
    ensures store.Valid() && old(store.hist) <= store.hist && old(store.ops) <= store.ops
    ensures r == Ok || (r == StoreError && store.failed > old(store.failed))
    ensures r == Ok ==> && HappenedBetween(store.hist, |old(store.hist)|, UpdateEnv(e), Done)
                        && ReevaluatedDuring(store.hist, |old(store.hist)|, store.failed > old(store.failed), world, e, now)
    ensures old(store.Quiet()) ==>
              && r == Ok
              && Now(store.hist).envs == old(Now(store.hist)).envs[e.id := e]
              && PolicyApplied(old(Now(store.hist)), Now(store.hist), world, e, now)
              && forall id :: id in old(Now(store.hist)).promos && MustCancel(old(Now(store.hist)), world, e.id, id) ==>
                                id in Now(store.hist).promos && Now(store.hist).promos[id].status == Cancelled
  {
    hide Run, Legal, Apply, HappenedBetween, Judged, AllJudged, ActiveOf, ReevaluatedDuring, ReevaluatedRow;
    ghost var start, from := Now(store.hist), |store.hist|;
    EditIsLegal(store.hist, e);
    var err, reply := store.Perform(UpdateEnv(e), PutEnv(e));
    if err {
      return StoreError;
    }
    ghost var edited, failed := store.hist, store.failed;
    EditIsStored(store.hist[|store.hist| - 2], e);
    EditIsStored(start, e);
    Reevaluate(store, world, e, |store.hist| - 1, now);
    HappenedStays(edited, store.hist, from, from, UpdateEnv(e), Done);
    ReevaluationStays(store.hist, |edited|, from, store.failed > failed, store.failed > old(store.failed), world, e, now);
    r := Ok;
  }

  lemma {:induction false} ReevaluationStays(h: History, from: nat, earlier: nat, faulty: bool, wasFaulty: bool, world: World,
          e: Environment, now: int)
    requires earlier <= from && (faulty ==> wasFaulty) && ReevaluatedDuring(h, from, faulty, world, e, now)
    ensures ReevaluatedDuring(h, earlier, wasFaulty, world, e, now)
  {
    hide Judged, ActiveOf;
    if !faulty {
      var at: nat, listed: seq<Promotion> :|
        DuringPass(from, at) && at < |h| && ActiveOf(h[at], e.id, listed) && AllJudged(h, from, faulty, world, e, listed, now);
      forall i | 0 <= i < |listed| ensures Judged(h, earlier, wasFaulty, world, e, listed[i], now) {
        JudgedStays(h, h, from, earlier, faulty, wasFaulty, world, e, listed[i], now);
      }
      assert DuringPass(earlier, at) && AllJudged(h, earlier, wasFaulty, world, e, listed, now);
    }
  }

  lemma EditIsLegal(h: History, e: Environment)
    requires ValidEnv(e)
    ensures Legal(h, PutEnv(e)) && CallOf(h, PutEnv(e)) == UpdateEnv(e)
  {
  }

  lemma {:induction false} EditIsStored(db: DB, e: Environment)
    ensures Apply(db, UpdateEnv(e)) == (db.(envs := db.envs[e.id := e]), Done)
  {
  }
}
