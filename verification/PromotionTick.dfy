/** The background loop of the promotion engine (internal/environments/tick.go). */
module PromotionTick {
  import opened Option
  import opened Windows
  import opened Promotions
  import opened Gate
  import opened PromotionStore
  import opened PromotionRuns
  import opened PromotionBackend

  // The answer of checkStatic: pass, a business rule refuses, or it could not be told.
  datatype StaticCheck = Pass | GateFails | Trouble

  datatype DeployStatus = Unreadable | Running | Succeeded | Stopped

  // What the forge, the deployer and the artifact store answer during one pass.
  datatype World = World(
    check: PromotionId -> StaticCheck,
    deploy: PromotionId -> Option<DeploymentId>,
    status: DeploymentId -> DeployStatus,
    hasSource: DeploymentId -> bool,
    timeout: int)

  const GRACE := 2 * NS_PER_MINUTE

  // Nothing but row id differs, and that row stays in its environment.
  ghost predicate OnlyRow(before: DB, after: DB, id: PromotionId) {
    && after.envs == before.envs
    && after.promos.Keys == before.promos.Keys
    && (forall x :: x in before.promos && x != id ==> after.promos[x] == before.promos[x])
    && (id in before.promos ==> after.promos[id].env == before.promos[id].env)
  }

  ghost predicate HasRow(db: DB, p: Promotion) {
    p.id in db.promos && db.promos[p.id] == p
  }

  ghost predicate HasStatus(db: DB, id: PromotionId, s: Status) {
    id in db.promos && db.promos[id].status == s
  }

  // Whether a transition is made, and the database after it.
  ghost predicate CanMove(db: DB, id: PromotionId, from: set<Status>, to: Status) {
    id in db.promos && db.promos[id].status in from && (to == Deploying ==> !DeployingIn(db, db.promos[id].env))
  }

  ghost function MovedDB(db: DB, id: PromotionId, from: set<Status>, to: Status, patch: Patch): DB {
    if CanMove(db, id, from, to) then db.(promos := db.promos[id := Patched(db.promos[id], to, patch)]) else db
  }

  lemma {:induction false} TransitionMoves(db: DB, id: PromotionId, from: set<Status>, to: Status, patch: Patch)
    ensures Apply(db, Transition(id, from, to, patch)) == (MovedDB(db, id, from, to, patch), Moved(CanMove(db, id, from, to)))
  {
  }

  lemma {:induction false} MovedDBTouchesOneRow(db: DB, id: PromotionId, from: set<Status>, to: Status, patch: Patch)
    ensures id in db.promos ==> OnlyRow(db, MovedDB(db, id, from, to, patch), id)
  {
    hide DeployingIn;
  }

  // The database a call meets: the others have had their turn.
  ghost function AtCall(ops: seq<Op>, others: seq<seq<Op>>): DB {
    Now(Run(ops + Turn(others)))
  }

  // One transition after any interference; left alone it is made exactly when the store allows it.
  method Transit(store: Store, id: PromotionId, from: set<Status>, to: Status, patch: Patch, ghost op: Op)
    returns (err: bool, ok: bool)
    requires store.Valid() && Legal(store.hist, op) && CallOf(store.hist, op) == Transition(id, from, to, patch)
    modifies store
    ensures store.Valid() && old(store.hist) <= store.hist && old(store.ops) <= store.ops
    ensures store.failed >= old(store.failed) && (err ==> store.failed > old(store.failed))
    ensures old(store.faults) == [] ==> store.faults == [] && store.failed == old(store.failed)
    ensures err ==> !ok
    ensures !err ==> HappenedBetween(store.hist, |old(store.hist)|, Transition(id, from, to, patch), Moved(ok))
    ensures !err ==> ok == CanMove(AtCall(old(store.ops), old(store.others)), id, from, to)
    ensures old(store.Quiet()) ==> && store.Quiet() && !err && ok == CanMove(old(Now(store.hist)), id, from, to)
                                   && Now(store.hist) == MovedDB(old(Now(store.hist)), id, from, to, patch)
  {
    hide Apply, Run, Legal, CallOf, CanMove, MovedDB, HappenedBetween;
    ghost var before := Now(store.hist);
    var reply: Reply;
    err, reply := store.Perform(Transition(id, from, to, patch), op);
    TransitionMoves(before, id, from, to, patch);
    if !err {
      TransitionMoves(store.hist[|store.hist| - 2], id, from, to, patch);
      assert store.hist[..|store.hist| - 1][|store.hist| - 2] == store.hist[|store.hist| - 2];
    }
    ok := !err && reply == Moved(true);
  }

  ghost predicate GateOpen(env: Environment, p: Promotion, now: int) {
    && IsOpen(env.windows, now)
    && (if p.quorumAt.Some? then p.quorumAt.value else now) + env.waitMinutes * 60_000_000_000 <= now
  }

  // An advance that would change nothing is not stored.
  predicate Settled(env: Environment, p: Promotion, now: int) {
    !Advance(env, p, now).changed && p.required == env.required
  }

  function AdvancePatch(env: Environment, p: Promotion, now: int): Patch {
    var a := Advance(env, p, now);
    Patch(a.notBefore, a.quorumAt, None, None, Some(env.required))
  }

  function AdvanceCall(env: Environment, p: Promotion, now: int): Call {
    Transition(p.id, {p.status}, Advance(env, p, now).status, AdvancePatch(env, p, now))
  }

  // The promotion after an advance that is stored.
  function AdvancedRow(env: Environment, p: Promotion, now: int): Promotion {
    if Settled(env, p, now) then p else Patched(p, Advance(env, p, now).status, AdvancePatch(env, p, now))
  }

  // What an advance of the snapshot p gives back, with whatever the others did meanwhile.
  ghost predicate AdvancesTo(h: History, from: nat, faulty: bool, env: Environment, p: Promotion, now: int, q: Promotion) {
    if Settled(env, p, now) then q == p
    else Moves(h, from, faulty, AdvanceCall(env, p, now), p, AdvancedRow(env, p, now), q)
  }

  /** An advance is handed to the store unless it would change nothing, and only when the promotion is as it was read. */
  lemma {:induction false} AdvancesMeans(h: History, from: nat, faulty: bool, env: Environment, p: Promotion, now: int,
          q: Promotion)
    ensures var a := Advance(env, p, now);
            var next := p.(status := a.status, notBefore := a.notBefore, quorumAt := a.quorumAt, required := env.required);
            var c := Transition(p.id, {p.status}, a.status, Patch(a.notBefore, a.quorumAt, None, None, Some(env.required)));
            AdvancesTo(h, from, faulty, env, p, now, q) <==>
              if !a.changed && env.required == p.required then q == p
              else || (q == next && HappenedBetween(h, from, c, Moved(true)))
                   || (q == p && (faulty || HappenedBetween(h, from, c, Moved(false))))
  {
    hide HappenedBetween, CountedApprovals, NextAfterQuorum;
  }

  /**
   Applies Advance to a snapshot and stores the change. The result is the advanced promotion when the
   store made the transition during this call, and the snapshot when it refused it or failed.
   */
  method AdvancePromotion(store: Store, env: Environment, ghost eAt: nat, p: Promotion, ghost pAt: nat, now: int)
    returns (q: Promotion)
    requires store.Valid()
    requires ReadPromotion(store.hist, p.id, pAt) && store.hist[pAt].promos[p.id] == p
    requires ReadEnv(store.hist, p.env, eAt) && store.hist[eAt].envs[p.env] == env
    requires IsActive(p.status) && p.status != Deploying && ValidEnv(env)
    modifies store
    ensures store.Valid() && old(store.hist) <= store.hist && old(store.ops) <= store.ops
    ensures store.failed >= old(store.failed)
    ensures old(store.faults) == [] ==> store.faults == [] && store.failed == old(store.failed)
    ensures AdvancesTo(store.hist, |old(store.hist)|, store.failed > old(store.failed), env, p, now, q)
    ensures q.id == p.id && q.env == p.env && q.createdAt == p.createdAt && q.approvals == p.approvals
    ensures q == p || q.status == Advance(env, p, now).status
    ensures old(store.Quiet()) ==> store.Quiet()
    ensures old(store.Quiet() && HasRow(Now(store.hist), p)) ==>
              && OnlyRow(old(Now(store.hist)), Now(store.hist), p.id)
              && q == AdvancedRow(env, p, now) && HasRow(Now(store.hist), q) && q.status != Deploying
              && (q.status == Approved ==> GateOpen(env, q, now))
  {
    hide Apply, Run, NextAfterQuorum, IsOpen, Ready, CountedApprovals, HappenedBetween, OnlyRow, Advance;
    var a := Advance(env, p, now);
    AdvanceOpensGate(env, p, now);
    AdvanceIsStored(env, p, now);
    if !a.changed && p.required == env.required {
      SameRow(Now(store.hist), p.id);
      return p;
    }
    ghost var before := Now(store.hist);
    var patch := Patch(a.notBefore, a.quorumAt, None, None, Some(env.required));
    AdvanceIsLegal(store.hist, env, eAt, p, pAt, now);
    var err, ok := Transit(store, p.id, {p.status}, a.status, patch, AdvanceOne(p.id, pAt, eAt, now));
    MovedDBTouchesOneRow(before, p.id, {p.status}, a.status, patch);
    if err || !ok {
      return p;
    }
    return p.(status := a.status, notBefore := a.notBefore, quorumAt := a.quorumAt, required := env.required);
  }

  lemma {:induction false} SameRow(db: DB, id: PromotionId)
    ensures OnlyRow(db, db, id)
  {
  }

  lemma {:induction false} AdvanceIsLegal(h: History, env: Environment, eAt: nat, p: Promotion, pAt: nat, now: int)
    requires ReadPromotion(h, p.id, pAt) && h[pAt].promos[p.id] == p && ReadEnv(h, p.env, eAt) && h[eAt].envs[p.env] == env
    requires IsActive(p.status) && p.status != Deploying && !Settled(env, p, now)
    ensures Legal(h, AdvanceOne(p.id, pAt, eAt, now)) && CallOf(h, AdvanceOne(p.id, pAt, eAt, now)) == AdvanceCall(env, p, now)
  {
    hide Advance;
  }

  // What is stored is what the service hands on.
  lemma {:induction false} AdvanceIsStored(env: Environment, p: Promotion, now: int)
    requires IsActive(p.status) && p.status != Deploying
    ensures var a := Advance(env, p, now);
            && a.status != Deploying
            && (Settled(env, p, now) ==> a.status == p.status)
            && Patched(p, a.status, AdvancePatch(env, p, now))
               == p.(status := a.status, notBefore := a.notBefore, quorumAt := a.quorumAt, required := env.required)
  {
    hide CountedApprovals, OpenAt, NextOpen, Ready;
  }

  lemma AdvanceOpensGate(env: Environment, p: Promotion, now: int)
    requires IsActive(p.status) && p.status != Deploying && ValidEnv(env)
    ensures var a := Advance(env, p, now);
            && a.status != Deploying
            && (a.status == Approved ==>
                  GateOpen(env, p.(status := a.status, notBefore := a.notBefore, quorumAt := a.quorumAt, required := env.required), now))
            && (a.status == Approved && !a.changed ==> p.status == Approved && GateOpen(env, p, now))
  {
    hide NextAfterQuorum, IsOpen, Ready;
    var q := if p.status != Pending && p.quorumAt.Some? then p.quorumAt.value else now;
    ApprovedExactlyWhenOpen(env, q, now);
  }

  function FinishCall(id: PromotionId, to: Status, now: int): Call {
    Transition(id, {Deploying}, to, NO_CHANGE.(finishedAt := Some(now)))
  }

  function FinishedRow(p: Promotion, to: Status, now: int): Promotion {
    Patched(p, to, NO_CHANGE.(finishedAt := Some(now)))
  }

  /** Ends a deploying promotion; when the store refuses or fails the snapshot is returned. */
  method FinishPromotion(store: Store, p: Promotion, to: Status, now: int) returns (q: Promotion)
    requires store.Valid() && (to == Success || to == Failed)
    modifies store
    ensures store.Valid() && old(store.hist) <= store.hist && old(store.ops) <= store.ops
    ensures store.failed >= old(store.failed)
    ensures old(store.faults) == [] ==> store.faults == [] && store.failed == old(store.failed)
    ensures Moves(store.hist, |old(store.hist)|, store.failed > old(store.failed), FinishCall(p.id, to, now), p, p.(status := to), q)
    ensures old(store.Quiet()) ==>
              && store.Quiet() && (p.id in old(Now(store.hist)).promos ==> OnlyRow(old(Now(store.hist)), Now(store.hist), p.id))
              && (HasStatus(old(Now(store.hist)), p.id, Deploying) ==>
                    q == p.(status := to) && HasRowAs(Now(store.hist), p.id, FinishedRow(old(Now(store.hist)).promos[p.id], to, now)))
              && (!HasStatus(old(Now(store.hist)), p.id, Deploying) ==> q == p && Now(store.hist) == old(Now(store.hist)))
  {
    hide Apply, Run, HappenedBetween, OnlyRow;
    ghost var before := Now(store.hist);
    var patch := NO_CHANGE.(finishedAt := Some(now));
    var err, ok := Transit(store, p.id, {Deploying}, to, patch, Finish(p.id, to, now));
    MovedDBTouchesOneRow(before, p.id, {Deploying}, to, patch);
    return if err || !ok then p else p.(status := to);
  }

  ghost predicate HasRowAs(db: DB, id: PromotionId, row: Promotion) {
    id in db.promos && db.promos[id] == row
  }

  // Deploying a claimed promotion: the deployment is recorded, or the promotion fails.
  function LaunchedRow(world: World, id: PromotionId, row: Promotion, now: int): Promotion {
    match world.deploy(id)
    case None => if row.status == Deploying then FinishedRow(row, Failed, now) else row
    case Some(dep) => row.(deployment := Some(dep))
  }

  ghost predicate LaunchTried(h: History, from: nat, faulty: bool, world: World, id: PromotionId, now: int) {
    || faulty
    || match world.deploy(id)
       case None => exists ok: bool :: HappenedBetween(h, from, FinishCall(id, Failed, now), Moved(ok))
       case Some(dep) => HappenedBetween(h, from, SetDeployment(id, dep), Done)
  }

  /** Creates the deployment and records it, or fails the promotion. */
  method Launch(store: Store, world: World, p: Promotion, now: int)
    requires store.Valid()
    modifies store
    ensures store.Valid() && old(store.hist) <= store.hist && old(store.ops) <= store.ops
    ensures store.failed >= old(store.failed)
    ensures old(store.faults) == [] ==> store.faults == [] && store.failed == old(store.failed)
    ensures LaunchTried(store.hist, |old(store.hist)|, store.failed > old(store.failed), world, p.id, now)
    ensures old(store.Quiet()) ==> store.Quiet()
    ensures old(store.Quiet()) && p.id in old(Now(store.hist)).promos ==>
              && OnlyRow(old(Now(store.hist)), Now(store.hist), p.id)
              && HasRowAs(Now(store.hist), p.id, LaunchedRow(world, p.id, old(Now(store.hist)).promos[p.id], now))
  {
    hide Run, HappenedBetween;
    match world.deploy(p.id)
    case None =>
      var q := FinishPromotion(store, p, Failed, now);
      MovesHappened(store.hist, |old(store.hist)|, store.failed > old(store.failed), FinishCall(p.id, Failed, now), p, p.(status := Failed), q);
    case Some(dep) =>
      var _, _ := SaveDeploymentId(store, p.id, dep);
  }

  lemma {:induction false} MovesHappened(h: History, from: nat, faulty: bool, c: Call, p: Promotion, next: Promotion, q: Promotion)
    requires Moves(h, from, faulty, c, p, next, q)
    ensures faulty || exists ok: bool :: HappenedBetween(h, from, c, Moved(ok))
  {
    hide HappenedBetween;
  }

  method SaveDeploymentId(store: Store, id: PromotionId, dep: DeploymentId) returns (err: bool, reply: Reply)
    requires store.Valid()
    modifies store
    ensures store.Valid() && old(store.hist) <= store.hist && old(store.ops) <= store.ops
    ensures store.failed >= old(store.failed) && (err ==> store.failed > old(store.failed))
    ensures old(store.faults) == [] ==> store.faults == [] && store.failed == old(store.failed)
    ensures !err ==> HappenedBetween(store.hist, |old(store.hist)|, SetDeployment(id, dep), Done)
    ensures old(store.Quiet()) ==> store.Quiet()
    ensures old(store.Quiet()) && id in old(Now(store.hist)).promos ==>
              && OnlyRow(old(Now(store.hist)), Now(store.hist), id)
              && HasRowAs(Now(store.hist), id, old(Now(store.hist)).promos[id].(deployment := Some(dep)))
  {
    hide Run, HappenedBetween;
    err, reply := store.Perform(SetDeployment(id, dep), SaveDeployment(id, dep));
  }

  // What following a deployment comes to.
  datatype PollAction = Wait | Relaunch | End(to: Status)

  // A claim without a deployment is launched again after a grace period, if its source still exists. A
  // deployment that cannot be read is waited for; one that runs too long has failed.
  function PollActionOf(world: World, p: Promotion, now: int): PollAction {
    match p.deployment
    case None =>
      if p.startedAt.Some? && now - p.startedAt.value > GRACE && p.source.Some? then
        if world.hasSource(p.source.value) then Relaunch else End(Failed)
      else Wait
    case Some(dep) =>
      match world.status(dep)
      case Unreadable => Wait
      case Succeeded => End(Success)
      case Stopped => End(Failed)
      case Running => if p.startedAt.Some? && now - p.startedAt.value > world.timeout then End(Failed) else Wait
  }

  function PolledRow(world: World, row: Promotion, now: int): Promotion {
    match PollActionOf(world, row, now)
    case Wait => row
    case Relaunch => LaunchedRow(world, row.id, row, now)
    case End(to) => FinishedRow(row, to, now)
  }

  // What following the snapshot p gives back, with whatever the others did meanwhile.
  ghost predicate PollsTo(h: History, from: nat, faulty: bool, world: World, p: Promotion, now: int, q: Promotion) {
    match PollActionOf(world, p, now)
    case Wait => q == p
    case Relaunch => q == p && LaunchTried(h, from, faulty, world, p.id, now)
    case End(to) => Moves(h, from, faulty, FinishCall(p.id, to, now), p, p.(status := to), q)
  }

  /**
   What following a deployment asks of the store, by what the deployment did: it is ended as a success when it
   succeeded; as a failure when it stopped, ran too long, or was lost two minutes after the claim together with
   its source; it is launched again when only the deployment was lost; otherwise it is waited for.
   */
  lemma {:induction false} PollsMean(h: History, from: nat, faulty: bool, world: World, p: Promotion, now: int, q: Promotion)
    ensures var status := if p.deployment == None then Unreadable else world.status(p.deployment.value);
            var late := p.startedAt.Some? && now - p.startedAt.value > world.timeout;
            var lost := p.deployment == None && p.source.Some? && p.startedAt.Some? && now - p.startedAt.value > 120_000_000_000;
            var c := (to: Status) => Transition(p.id, {Deploying}, to, Patch(None, None, None, Some(now), None));
            PollsTo(h, from, faulty, world, p, now, q) <==>
              if status == Succeeded then Moves(h, from, faulty, c(Success), p, p.(status := Success), q)
              else if status == Stopped || (status == Running && late) || (lost && !world.hasSource(p.source.value)) then
                Moves(h, from, faulty, c(Failed), p, p.(status := Failed), q)
              else q == p && (lost ==> LaunchTried(h, from, faulty, world, p.id, now))
  {
    hide Moves, LaunchTried;
  }

  // The row of an undisturbed promotion after its deployment was followed.
  lemma {:induction false} PolledRowMeans(world: World, p: Promotion, now: int)
    requires p.status == Deploying
    ensures var status := if p.deployment == None then Unreadable else world.status(p.deployment.value);
            var late := p.startedAt.Some? && now - p.startedAt.value > world.timeout;
            var lost := p.deployment == None && p.source.Some? && p.startedAt.Some? && now - p.startedAt.value > 120_000_000_000;
            var ended := p.(notBefore := None, finishedAt := Some(now));
            PolledRow(world, p, now) ==
              if status == Succeeded then ended.(status := Success)
              else if status == Stopped || (status == Running && late) || (lost && !world.hasSource(p.source.value)) then
                ended.(status := Failed)
              else if !lost then p
              else if world.deploy(p.id) == None then ended.(status := Failed) else p.(deployment := world.deploy(p.id))
  {
  }

  /**
   Follows the deployment of a deploying promotion: it ends the promotion exactly when the deployment
   has ended, ran out of time or lost its source, and otherwise waits or launches it again.
   */
  method Poll(store: Store, world: World, p: Promotion, now: int) returns (q: Promotion)
    requires store.Valid() && p.status == Deploying
    modifies store
    ensures store.Valid() && old(store.hist) <= store.hist && old(store.ops) <= store.ops
    ensures store.failed >= old(store.failed)
    ensures old(store.faults) == [] ==> store.faults == [] && store.failed == old(store.failed)
    ensures PollsTo(store.hist, |old(store.hist)|, store.failed > old(store.failed), world, p, now, q)
    ensures q.status in {Deploying, Success, Failed} && q == p.(status := q.status)
    ensures q.status == Success ==> p.deployment.Some? && world.status(p.deployment.value) == Succeeded
    ensures old(store.Quiet()) ==> store.Quiet()
    ensures old(store.Quiet() && HasRow(Now(store.hist), p)) ==>
              var late := p.startedAt.Some? && now - p.startedAt.value > world.timeout;
              var lost := p.source.Some? && p.startedAt.Some? && now - p.startedAt.value > 120_000_000_000;
              && (q.status == Success <==> p.deployment.Some? && world.status(p.deployment.value) == Succeeded)
              && (q.status == Failed <==>
                    if p.deployment.Some? then
                      world.status(p.deployment.value) == Stopped || (world.status(p.deployment.value) == Running && late)
                    else lost && !world.hasSource(p.source.value))
              && p.id in Now(store.hist).promos && var row := Now(store.hist).promos[p.id];
                 if q.status != Deploying then row == p.(status := q.status, notBefore := None, finishedAt := Some(now))
                 else if p.deployment.Some? || !lost then row == p
                 else row == match world.deploy(p.id)
                             case Some(dep) => p.(deployment := Some(dep))
                             case None => p.(status := Failed, notBefore := None, finishedAt := Some(now))
    ensures old(store.Quiet()) && p.id in old(Now(store.hist)).promos ==> OnlyRow(old(Now(store.hist)), Now(store.hist), p.id)
    ensures old(store.Quiet() && HasRow(Now(store.hist), p)) ==>
              && HasRowAs(Now(store.hist), p.id, PolledRow(world, p, now))
              && q.status == (if PollActionOf(world, p, now).End? then PollActionOf(world, p, now).to else Deploying)
              && (q.status != Deploying ==> HasStatus(Now(store.hist), p.id, q.status))
  {
    hide Run, HappenedBetween, LaunchTried, FinishCall, LaunchedRow;
    SameRow(Now(store.hist), p.id);
    PolledRowMeans(world, p, now);
    if p.deployment.None? {
      if p.startedAt.Some? && now - p.startedAt.value > GRACE && p.source.Some? {
        if world.hasSource(p.source.value) {
          Launch(store, world, p, now);
          return p;
        }
        q := FinishPromotion(store, p, Failed, now);
        return;
      }
      return p;
    }
    match world.status(p.deployment.value)
    case Unreadable => return p;
    case Succeeded =>
      q := FinishPromotion(store, p, Success, now);
    case Stopped =>
      q := FinishPromotion(store, p, Failed, now);
    case Running =>
      if p.startedAt.Some? && now - p.startedAt.value > world.timeout {
        q := FinishPromotion(store, p, Failed, now);
      } else {
        return p;
      }
  }

  datatype Outcome = Claimed | Occupied | NotStarted

  function ClaimCall(id: PromotionId, now: int): Call {
    Transition(id, {Approved}, Deploying, NO_CHANGE.(startedAt := Some(now)))
  }

  function RefuseCall(id: PromotionId, now: int): Call {
    Transition(id, {Approved}, Cancelled, NO_CHANGE.(finishedAt := Some(now)))
  }

  ghost predicate ClaimedBetween(h: History, from: nat, id: PromotionId) {
    exists k :: from <= k < |h| && 0 < k && ClaimedAt(h, k, id)
  }

  ghost predicate ClaimedAt(h: History, k: nat, id: PromotionId)
    requires 0 < k < |h|
  {
    && id in h[k - 1].promos && h[k - 1].promos[id].status == Approved
    && id in h[k].promos && h[k].promos[id].status == Deploying
    && !DeployingIn(h[k - 1], h[k - 1].promos[id].env)
  }

  // At some moment from `from` on, the promotion was no longer approved or its environment was deploying.
  ghost predicate HeldBetween(h: History, from: nat, id: PromotionId) {
    exists k :: from <= k < |h| && HeldAt(h, k, id)
  }

  ghost predicate HeldAt(h: History, k: nat, id: PromotionId)
    requires k < |h|
  {
    id in h[k].promos ==> h[k].promos[id].status != Approved || DeployingIn(h[k], h[k].promos[id].env)
  }

  /** A claim that was made took the slot; a claim that was refused found it held, or its promotion no longer approved. */
  lemma {:induction false} ClaimMeans(h: History, from: nat, id: PromotionId, now: int)
    ensures HappenedBetween(h, from, ClaimCall(id, now), Moved(true)) ==> ClaimedBetween(h, from, id)
    ensures HappenedBetween(h, from, ClaimCall(id, now), Moved(false)) ==> HeldBetween(h, from, id)
  {
    var patch := NO_CHANGE.(startedAt := Some(now));
    if HappenedBetween(h, from, ClaimCall(id, now), Moved(true)) {
      var k :| from <= k < |h| && 0 < k && HappenedAt(h, k, ClaimCall(id, now), Moved(true));
      TransitionMoves(h[k - 1], id, {Approved}, Deploying, patch);
      hide Apply, DeployingIn;
      assert ClaimedAt(h, k, id);
    }
    if HappenedBetween(h, from, ClaimCall(id, now), Moved(false)) {
      var k :| from <= k < |h| && 0 < k && HappenedAt(h, k, ClaimCall(id, now), Moved(false));
      TransitionMoves(h[k - 1], id, {Approved}, Deploying, patch);
      hide Apply, DeployingIn;
      assert HeldAt(h, k, id);
    }
  }

  // What an attempt to start promotion id came to. It is not started only when its check does not pass,
  // or a call failed; the slot is held only when the store said so.
  ghost predicate StartEnds(h: History, from: nat, faulty: bool, world: World, id: PromotionId, now: int, o: Outcome) {
    match world.check(id)
    case Trouble => o == NotStarted
    case GateFails =>
      o == NotStarted && (faulty || exists ok: bool :: HappenedBetween(h, from, RefuseCall(id, now), Moved(ok)))
    case Pass =>
      match o
      case NotStarted => faulty
      case Occupied => HappenedBetween(h, from, ClaimCall(id, now), Moved(false))
      case Claimed => HappenedBetween(h, from, ClaimCall(id, now), Moved(true)) && LaunchTried(h, from, faulty, world, id, now)
  }

  /** The calls an attempt makes: the cancellation of a candidate that is refused, or the claim, and then the launch. */
  lemma {:induction false} StartMeans(h: History, from: nat, faulty: bool, world: World, id: PromotionId, now: int, o: Outcome)
    ensures var cancel := Transition(id, {Approved}, Cancelled, Patch(None, None, None, Some(now), None));
            var claim := Transition(id, {Approved}, Deploying, Patch(None, None, Some(now), None, None));
            var fail := Transition(id, {Deploying}, Failed, Patch(None, None, None, Some(now), None));
            StartEnds(h, from, faulty, world, id, now, o) <==>
              && (o == NotStarted && world.check(id) == Pass ==> faulty)
              && (o != NotStarted ==> world.check(id) == Pass && HappenedBetween(h, from, claim, Moved(o == Claimed)))
              && (world.check(id) == GateFails && !faulty ==> exists ok: bool :: HappenedBetween(h, from, cancel, Moved(ok)))
              && (o == Claimed && !faulty ==>
                    if world.deploy(id) == None then exists ok: bool :: HappenedBetween(h, from, fail, Moved(ok))
                    else HappenedBetween(h, from, SetDeployment(id, world.deploy(id).value), Done))
  {
    hide HappenedBetween;
  }

  // The row of a candidate after an undisturbed attempt.
  ghost function StartedRow(world: World, db: DB, id: PromotionId, now: int): Promotion
    requires id in db.promos
  {
    var row := db.promos[id];
    match world.check(id)
    case Trouble => row
    case GateFails => if row.status == Approved then FinishedRow(row, Cancelled, now) else row
    case Pass => ClaimedRow(world, db, id, now)
  }

  // The business rules refuse the candidate: it is cancelled.
  method RefuseCandidate(store: Store, id: PromotionId, now: int)
    requires store.Valid()
    modifies store
    ensures store.Valid() && old(store.hist) <= store.hist && old(store.ops) <= store.ops
    ensures store.failed >= old(store.failed)
    ensures old(store.faults) == [] ==> store.faults == [] && store.failed == old(store.failed)
    ensures store.failed > old(store.failed) || exists ok: bool :: HappenedBetween(store.hist, |old(store.hist)|, RefuseCall(id, now), Moved(ok))
    ensures old(store.Quiet()) ==> store.Quiet() && Now(store.hist) == MovedDB(old(Now(store.hist)), id, {Approved}, Cancelled,
                                                                               NO_CHANGE.(finishedAt := Some(now)))
  {
    hide Apply, Run, HappenedBetween, MovedDB;
    var patch := NO_CHANGE.(finishedAt := Some(now));
    var _, _ := Transit(store, id, {Approved}, Cancelled, patch, GateCancel(id, now));
  }

  // The claim itself and, when it is made, the launch.
  method ClaimSlot(store: Store, world: World, p: Promotion, now: int) returns (o: Outcome)
    requires store.Valid()
    modifies store
    ensures store.Valid() && old(store.hist) <= store.hist && old(store.ops) <= store.ops
    ensures store.failed >= old(store.failed)
    ensures old(store.faults) == [] ==> store.faults == [] && store.failed == old(store.failed)
    ensures match o
            case NotStarted => store.failed > old(store.failed)
            case Occupied => HappenedBetween(store.hist, |old(store.hist)|, ClaimCall(p.id, now), Moved(false))
            case Claimed => && HappenedBetween(store.hist, |old(store.hist)|, ClaimCall(p.id, now), Moved(true))
                            && LaunchTried(store.hist, |old(store.hist)|, store.failed > old(store.failed), world, p.id, now)
    ensures o != NotStarted ==> (o == Claimed <==> CanMove(AtCall(old(store.ops), old(store.others)), p.id, {Approved}, Deploying))
    ensures old(store.Quiet()) ==> store.Quiet()
    ensures old(store.Quiet() && p.id in Now(store.hist).promos) ==>
              && (o == Claimed <==> CanMove(old(Now(store.hist)), p.id, {Approved}, Deploying)) && o != NotStarted
              && OnlyRow(old(Now(store.hist)), Now(store.hist), p.id)
              && HasRowAs(Now(store.hist), p.id, ClaimedRow(world, old(Now(store.hist)), p.id, now))
  {
    hide Apply, Run, HappenedBetween, LaunchTried, LaunchedRow, OnlyRow, DeployingIn, AtCall;
    ghost var before := Now(store.hist);
    var patch := NO_CHANGE.(startedAt := Some(now));
    var err, ok := Transit(store, p.id, {Approved}, Deploying, patch, Claim(p.id, now));
    MovedDBTouchesOneRow(before, p.id, {Approved}, Deploying, patch);
    if err {
      return NotStarted;
    }
    if !ok {
      return Occupied;
    }
    ghost var claimed, failed := store.hist, store.failed;
    Launch(store, world, p.(status := Deploying), now);
    HappenedStays(claimed, store.hist, |old(store.hist)|, |old(store.hist)|, ClaimCall(p.id, now), Moved(true));
    LaunchTriedStays(store.hist, store.hist, |claimed|, |old(store.hist)|, store.failed > failed, store.failed > old(store.failed),
                     world, p.id, now);
    RowsInTurn(before, Now(claimed), Now(store.hist), p.id);
    return Claimed;
  }

  ghost function ClaimedRow(world: World, db: DB, id: PromotionId, now: int): Promotion
    requires id in db.promos
  {
    if CanMove(db, id, {Approved}, Deploying) then
      LaunchedRow(world, id, Patched(db.promos[id], Deploying, NO_CHANGE.(startedAt := Some(now))), now)
    else db.promos[id]
  }

  lemma {:induction false} RowsInTurn(a: DB, b: DB, c: DB, id: PromotionId)
    ensures OnlyRow(a, b, id) && OnlyRow(b, c, id) ==> OnlyRow(a, c, id)
  {
  }

  lemma {:induction false} LaunchTriedStays(h: History, later: History, from: nat, earlier: nat, faulty: bool, wasFaulty: bool,
          world: World, id: PromotionId, now: int)
    requires h <= later && earlier <= from && (faulty ==> wasFaulty) && LaunchTried(h, from, faulty, world, id, now)
    ensures LaunchTried(later, earlier, wasFaulty, world, id, now)
  {
    hide HappenedBetween;
    if !faulty {
      match world.deploy(id)
      case None =>
        var ok :| HappenedBetween(h, from, FinishCall(id, Failed, now), Moved(ok));
        HappenedStays(h, later, from, earlier, FinishCall(id, Failed, now), Moved(ok));
      case Some(dep) =>
        HappenedStays(h, later, from, earlier, SetDeployment(id, dep), Done);
    }
  }

  lemma {:induction false} StartedRowMeans(world: World, db: DB, id: PromotionId, now: int)
    requires id in db.promos
    ensures var row := db.promos[id];
            var claimed := row.(status := Deploying, notBefore := None, startedAt := Some(now));
            StartedRow(world, db, id, now) ==
              if row.status != Approved || world.check(id) == Trouble then row
              else if world.check(id) == GateFails then row.(status := Cancelled, notBefore := None, finishedAt := Some(now))
              else if !CanMove(db, id, {Approved}, Deploying) then row
              else if world.deploy(id) == None then claimed.(status := Failed, finishedAt := Some(now))
              else claimed.(deployment := world.deploy(id))
    ensures CanMove(db, id, {Approved}, Deploying) <==>
              && db.promos[id].status == Approved
              && forall x :: x in db.promos && db.promos[x].env == db.promos[id].env ==> db.promos[x].status != Deploying
  {
  }

  /**
   Claims the queue slot of p's environment. Claimed and Occupied both end the search for this pass: the
   slot was taken by p, or the store refused the claim because somebody holds it or p is no longer
   approved. NotStarted lets the next candidate try; unless a call failed it means the check did not
   pass.
   */
  method StartPromotion(store: Store, world: World, p: Promotion, now: int) returns (o: Outcome)
    requires store.Valid()
    modifies store
    ensures store.Valid() && old(store.hist) <= store.hist && old(store.ops) <= store.ops
    ensures store.failed >= old(store.failed)
    ensures old(store.faults) == [] ==> store.faults == [] && store.failed == old(store.failed)
    ensures StartEnds(store.hist, |old(store.hist)|, store.failed > old(store.failed), world, p.id, now, o)
    ensures o == Claimed ==> world.check(p.id) == Pass && ClaimedBetween(store.hist, |old(store.hist)|, p.id)
    ensures o == Occupied ==> world.check(p.id) == Pass && HeldBetween(store.hist, |old(store.hist)|, p.id)
    ensures store.failed == old(store.failed) ==> (o == NotStarted <==> world.check(p.id) != Pass)
    ensures o != NotStarted ==> (o == Claimed <==> CanMove(AtCall(old(store.ops), old(store.others)), p.id, {Approved}, Deploying))
    ensures old(store.Quiet()) ==> store.Quiet()
    ensures old(store.Quiet() && p.id in Now(store.hist).promos) ==>
              && OnlyRow(old(Now(store.hist)), Now(store.hist), p.id)
              && HasRowAs(Now(store.hist), p.id, StartedRow(world, old(Now(store.hist)), p.id, now))
              && (o == Claimed <==> world.check(p.id) == Pass && CanMove(old(Now(store.hist)), p.id, {Approved}, Deploying))
              && (o == NotStarted <==> world.check(p.id) != Pass)
    ensures old(store.Quiet() && p.id in Now(store.hist).promos) ==>
              && p.id in Now(store.hist).promos && var row := old(Now(store.hist).promos[p.id]);
                 var claimed := row.(status := Deploying, notBefore := None, startedAt := Some(now));
                 Now(store.hist).promos[p.id] ==
                   if o == Claimed then
                     (if world.deploy(p.id) == None then claimed.(status := Failed, finishedAt := Some(now))
                      else claimed.(deployment := world.deploy(p.id)))
                   else if world.check(p.id) == GateFails && row.status == Approved then
                     row.(status := Cancelled, notBefore := None, finishedAt := Some(now))
                   else row
  {
    hide Apply, Run, HappenedBetween, LaunchTried, LaunchedRow, OnlyRow, ClaimedBetween, HeldBetween, DeployingIn, AtCall;
    ghost var before := Now(store.hist);
    if p.id in before.promos {
      StartedRowMeans(world, before, p.id, now);
    }
    match world.check(p.id)
    case Trouble =>
      SameRow(before, p.id);
      return NotStarted;
    case GateFails =>
      RefuseCandidate(store, p.id, now);
      MovedDBTouchesOneRow(before, p.id, {Approved}, Cancelled, NO_CHANGE.(finishedAt := Some(now)));
      return NotStarted;
    case Pass =>
      o := ClaimSlot(store, world, p, now);
      ClaimMeans(store.hist, |old(store.hist)|, p.id, now);
  }

  lemma {:induction false} StaleIsRefused(ops: seq<Op>, id: PromotionId, other: PromotionId, env: EnvId, now: int)
    requires HasStatus(Now(Run(ops)), id, Approved) && !DeployingIn(Now(Run(ops)), env)
    requires other != id && HasStatus(Now(Run(ops)), other, Approved)
    ensures var db := Now(Run(ops + [UserCancel(id, now)]));
            !CanMove(db, id, {Approved}, Deploying) && !DeployingIn(db, env) && HasStatus(db, other, Approved)
  {
    hide Run, Legal, CallOf;
    RunSteps(ops, UserCancel(id, now));
    CancelIsLegal(Run(ops), id, now);
    TransitionMoves(Now(Run(ops)), id, {Pending, Waiting, Approved}, Cancelled, NO_CHANGE.(finishedAt := Some(now)));
  }

  function CancelCall(id: PromotionId, now: int): Call {
    Transition(id, {Pending, Waiting, Approved}, Cancelled, NO_CHANGE.(finishedAt := Some(now)))
  }

  lemma {:induction false} CancelIsLegal(h: History, id: PromotionId, now: int)
    ensures Legal(h, UserCancel(id, now)) && CallOf(h, UserCancel(id, now)) == CancelCall(id, now)
  {
  }

  /**
   An idle environment does not suffice: when the candidate is cancelled just before it is claimed the
   slot counts as held, although the environment is idle and another candidate is approved.
   */
  method StaleCandidate(store: Store, world: World, p: Promotion, other: PromotionId, now: int) returns (o: Outcome)
    requires store.Valid() && store.faults == [] && store.others == [[UserCancel(p.id, now)]]
    requires world.check(p.id) == Pass && HasStatus(Now(store.hist), p.id, Approved) && !DeployingIn(Now(store.hist), p.env)
    requires other != p.id && HasStatus(Now(store.hist), other, Approved)
    modifies store
    ensures var db := Now(Run(old(store.ops) + [UserCancel(p.id, now)]));
            o == Occupied && !DeployingIn(db, p.env) && HasStatus(db, other, Approved)
  {
    hide Run, CanMove, DeployingIn, HasStatus, StartEnds, HeldBetween, ClaimedBetween;
    StaleIsRefused(store.ops, p.id, other, p.env, now);
    o := StartPromotion(store, world, p, now);
  }

  // What the survey made of each listed promotion; None when its environment could not be read.
  type Seen = seq<Option<Promotion>>

  // The approved ones of an environment, in the order they were listed.
  function CandidatesOf(seen: Seen, env: EnvId): seq<Promotion> {
    if seen == [] then []
    else
      var o := seen[|seen| - 1];
      CandidatesOf(seen[..|seen| - 1], env) + if o.Some? && o.value.status == Approved && o.value.env == env then [o.value] else []
  }

  predicate StillDeploys(listed: seq<Promotion>, seen: Seen, i: nat)
    requires |seen| <= |listed|
  {
    i < |seen| && seen[i].Some? && listed[i].status == Deploying && seen[i].value.status == Deploying
  }

  // The candidates are all the approved promotions seen, and an environment is busy exactly when one of
  // its listed deployments still runs.
  ghost predicate Exact(listed: seq<Promotion>, seen: Seen, busy: set<EnvId>, ready: map<EnvId, seq<Promotion>>)
    requires |seen| <= |listed|
  {
    && (forall e :: e in ready <==> CandidatesOf(seen, e) != [])
    && (forall e :: e in ready ==> ready[e] == CandidatesOf(seen, e))
    && (forall e :: e in busy <==> exists i: nat :: StillDeploys(listed, seen, i) && listed[i].env == e)
  }

  lemma {:induction false} CandidatesOfMeans(seen: Seen, env: EnvId, q: Promotion)
    ensures q in CandidatesOf(seen, env) <==> Some(q) in seen && q.status == Approved && q.env == env
  {
    if seen != [] {
      CandidatesOfMeans(seen[..|seen| - 1], env, q);
      assert seen == seen[..|seen| - 1] + [seen[|seen| - 1]];
    }
  }

  /** A promotion is a candidate exactly when it was seen approved, and an environment is busy while a listed deployment of it runs. */
  lemma {:induction false} ExactMeans(listed: seq<Promotion>, seen: Seen, busy: set<EnvId>, ready: map<EnvId, seq<Promotion>>)
    requires |seen| <= |listed| && Exact(listed, seen, busy, ready)
    ensures forall e, q :: (e in ready && q in ready[e]) <==> Some(q) in seen && q.status == Approved && q.env == e
    ensures forall e :: e in busy <==>
              exists i :: && 0 <= i < |seen| && seen[i].Some? && listed[i].env == e
                          && listed[i].status == Deploying && seen[i].value.status == Deploying
  {
    forall e, q ensures (e in ready && q in ready[e]) <==> Some(q) in seen && q.status == Approved && q.env == e {
      CandidatesOfMeans(seen, e, q);
    }
    forall e ensures e in busy <==> exists i :: && 0 <= i < |seen| && seen[i].Some? && listed[i].env == e
                                                && listed[i].status == Deploying && seen[i].value.status == Deploying
    {
      if i :| && 0 <= i < |seen| && seen[i].Some? && listed[i].env == e
              && listed[i].status == Deploying && seen[i].value.status == Deploying
      {
        assert StillDeploys(listed, seen, i);
      }
    }
  }

  lemma {:induction false} ExactJoins(listed: seq<Promotion>, seen: Seen, busy: set<EnvId>, ready: map<EnvId, seq<Promotion>>,
          o: Option<Promotion>)
    requires |seen| < |listed| && Exact(listed, seen, busy, ready)
    requires o.Some? ==> o.value.env == listed[|seen|].env && (listed[|seen|].status == Deploying ==> o.value.status != Approved)
    ensures o == None ==> Exact(listed, seen + [o], busy, ready)
    ensures o.Some? ==>
              Exact(listed, seen + [o],
                    if listed[|seen|].status == Deploying && o.value.status == Deploying then busy + {listed[|seen|].env} else busy,
                    Enlist(ready, o.value))
  {
    var after := seen + [o];
    var n := |seen|;
    assert after[..n] == seen;
    assert forall i: nat :: StillDeploys(listed, seen, i) ==> StillDeploys(listed, after, i);
    assert forall i: nat :: StillDeploys(listed, after, i) ==> i == n || StillDeploys(listed, seen, i);
    if StillDeploys(listed, after, n) {
      assert listed[n].env == listed[n].env;
    }
  }

  // Position `a` is not before the pass that began at `from`.
  predicate DuringPass(from: nat, a: nat) {
    from <= a + 1
  }

  // What a pass makes of a listed promotion: it is followed, or advanced under the policy read in this
  // pass; it is left alone only when its environment was found missing, or could not be read.
  ghost predicate Followed(h: History, from: nat, faulty: bool, world: World, p: Promotion, o: Option<Promotion>, now: int) {
    match o
    case None => faulty || exists a: nat :: DuringPass(from, a) && a < |h| && p.env !in h[a].envs
    case Some(q) =>
      if p.status == Deploying then PollsTo(h, from, faulty, world, p, now, q)
      else exists a: nat :: DuringPass(from, a) && AdvancedFrom(h, from, faulty, p, now, q, a)
  }

  ghost predicate AdvancedFrom(h: History, from: nat, faulty: bool, p: Promotion, now: int, q: Promotion, a: nat) {
    ReadEnv(h, p.env, a) && AdvancesTo(h, from, faulty, h[a].envs[p.env], p, now, q)
  }

  ghost predicate AllFollowed(h: History, from: nat, faulty: bool, world: World, listed: seq<Promotion>, seen: Seen, now: int)
    requires |seen| <= |listed|
  {
    forall i :: 0 <= i < |seen| ==> Followed(h, from, faulty, world, listed[i], seen[i], now)
  }

  lemma {:induction false} PollsStay(h: History, later: History, from: nat, earlier: nat, faulty: bool, wasFaulty: bool,
          world: World, p: Promotion, now: int, q: Promotion)
    requires h <= later && earlier <= from && (faulty ==> wasFaulty) && PollsTo(h, from, faulty, world, p, now, q)
    ensures PollsTo(later, earlier, wasFaulty, world, p, now, q)
  {
    hide Moves, LaunchTried, PollActionOf;
    match PollActionOf(world, p, now)
    case Wait =>
    case Relaunch => LaunchTriedStays(h, later, from, earlier, faulty, wasFaulty, world, p.id, now);
    case End(to) => MovesStays(h, later, from, earlier, faulty, wasFaulty, FinishCall(p.id, to, now), p, p.(status := to), q);
  }

  lemma {:induction false} AdvancesStay(h: History, later: History, from: nat, earlier: nat, faulty: bool, wasFaulty: bool,
          env: Environment, p: Promotion, now: int, q: Promotion)
    requires h <= later && earlier <= from && (faulty ==> wasFaulty) && AdvancesTo(h, from, faulty, env, p, now, q)
    ensures AdvancesTo(later, earlier, wasFaulty, env, p, now, q)
  {
    hide Moves, AdvanceCall, AdvancedRow, Settled;
    if !Settled(env, p, now) {
      MovesStays(h, later, from, earlier, faulty, wasFaulty, AdvanceCall(env, p, now), p, AdvancedRow(env, p, now), q);
    }
  }

  lemma {:induction false} FollowedStays(h: History, later: History, from: nat, earlier: nat, faulty: bool, wasFaulty: bool,
          world: World, p: Promotion, o: Option<Promotion>, now: int)
    requires h <= later && earlier <= from && (faulty ==> wasFaulty) && Followed(h, from, faulty, world, p, o, now)
    ensures Followed(later, earlier, wasFaulty, world, p, o, now)
  {
    hide PollsTo, AdvancesTo;
    match o
    case None =>
      if !faulty {
        var a: nat :| DuringPass(from, a) && a < |h| && p.env !in h[a].envs;
        assert DuringPass(earlier, a) && p.env !in later[a].envs;
      }
    case Some(q) =>
      if p.status == Deploying {
        PollsStay(h, later, from, earlier, faulty, wasFaulty, world, p, now, q);
      } else {
        var a: nat :| DuringPass(from, a) && AdvancedFrom(h, from, faulty, p, now, q, a);
        AdvancesStay(h, later, from, earlier, faulty, wasFaulty, h[a].envs[p.env], p, now, q);
        assert DuringPass(earlier, a) && AdvancedFrom(later, earlier, wasFaulty, p, now, q, a);
      }
  }

  lemma {:induction false} AllFollowedStay(h: History, later: History, from: nat, earlier: nat, faulty: bool, wasFaulty: bool,
          world: World, listed: seq<Promotion>, seen: Seen, now: int)
    requires h <= later && earlier <= from && (faulty ==> wasFaulty) && |seen| <= |listed|
    requires AllFollowed(h, from, faulty, world, listed, seen, now)
    ensures AllFollowed(later, earlier, wasFaulty, world, listed, seen, now)
  {
    hide Followed;
    forall i | 0 <= i < |seen| ensures Followed(later, earlier, wasFaulty, world, listed[i], seen[i], now) {
      FollowedStays(h, later, from, earlier, faulty, wasFaulty, world, listed[i], seen[i], now);
    }
  }

  // In a quiet pass: exactly the promotions of existing environments are seen, each as its advance says.
  ghost predicate SeenExactly(start: DB, listed: seq<Promotion>, seen: Seen, now: int)
    requires |seen| <= |listed|
  {
    forall i :: 0 <= i < |seen| ==>
                  && (seen[i].Some? <==> listed[i].env in start.envs)
                  && (seen[i].Some? && listed[i].status != Deploying ==>
                        seen[i].value.status == Advance(start.envs[listed[i].env], listed[i], now).status)
  }

  // In a quiet pass: what deploys was deploying at the start, and was seen to go on if it was looked at.
  ghost predicate NoNewDeploys(db: DB, start: DB, listed: seq<Promotion>, seen: Seen)
    requires |seen| <= |listed|
  {
    && db.promos.Keys == start.promos.Keys
    && (forall id :: id in db.promos ==> db.promos[id].env == start.promos[id].env)
    && forall id :: HasStatus(db, id, Deploying) ==>
                      && HasStatus(start, id, Deploying)
                      && forall i :: 0 <= i < |seen| && listed[i].id == id && seen[i].Some? ==> StillDeploys(listed, seen, i)
  }

  ghost predicate QuietSeen(db: DB, start: DB, listed: seq<Promotion>, seen: Seen, now: int)
    requires |seen| <= |listed|
  {
    SeenExactly(start, listed, seen, now) && NoNewDeploys(db, start, listed, seen)
  }

  lemma {:induction false} QuietSeenSkips(db: DB, start: DB, listed: seq<Promotion>, seen: Seen, now: int)
    requires |seen| < |listed| && QuietSeen(db, start, listed, seen, now) && listed[|seen|].env !in start.envs
    ensures QuietSeen(db, start, listed, seen + [None], now)
  {
    hide Advance;
    var after := seen + [None];
    assert forall i: nat :: StillDeploys(listed, seen, i) ==> StillDeploys(listed, after, i);
  }

  lemma {:induction false} QuietSeenJoins(before: DB, after: DB, start: DB, listed: seq<Promotion>, seen: Seen, now: int,
          q: Promotion)
    requires |seen| < |listed| && DistinctIds(listed) && QuietSeen(before, start, listed, seen, now)
    requires var p := listed[|seen|];
             && p.env in start.envs && OnlyRow(before, after, p.id) && p.id in before.promos && before.promos[p.id] == p
             && (p.status != Deploying ==> q.status == Advance(start.envs[p.env], p, now).status)
             && (HasStatus(after, p.id, Deploying) ==> p.status == Deploying && q.status == Deploying)
    ensures QuietSeen(after, start, listed, seen + [Some(q)], now)
  {
    hide Advance;
    var p, s2 := listed[|seen|], seen + [Some(q)];
    assert forall i: nat :: StillDeploys(listed, seen, i) ==> StillDeploys(listed, s2, i);
    forall id | HasStatus(after, id, Deploying)
      ensures HasStatus(start, id, Deploying)
      ensures forall i :: 0 <= i < |s2| && listed[i].id == id && s2[i].Some? ==> StillDeploys(listed, s2, i)
    {
      assert HasStatus(before, id, Deploying);
    }
  }

  datatype Attempt = Attempt(p: Promotion, outcome: Outcome)

  // What one pass saw and did: the candidates of each environment and the ones it tried to start.
  datatype TickReport = TickReport(listed: seq<Promotion>, busy: set<EnvId>, ready: map<EnvId, seq<Promotion>>, tried: map<EnvId, seq<Attempt>>)

  // The candidates were tried in order up to and including the first that ended the search.
  ghost predicate StopsAtFirst(ready: seq<Promotion>, tried: seq<Attempt>) {
    && |tried| <= |ready|
    && (forall i :: 0 <= i < |tried| ==> tried[i].p == ready[i])
    && (forall i :: 0 <= i < |tried| - 1 ==> tried[i].outcome == NotStarted)
    && (|tried| < |ready| ==> tried != [] && tried[|tried| - 1].outcome != NotStarted)
  }

  // Candidates of one environment, oldest first, each the advanced form of one of the first n listed.
  ghost predicate Candidates(ready: seq<Promotion>, env: EnvId, listed: seq<Promotion>, n: nat)
    requires n <= |listed|
  {
    && OldestFirst(ready)
    && forall i :: 0 <= i < |ready| ==> ready[i].status == Approved && ready[i].env == env && FromListed(ready[i], listed, n)
  }

  ghost predicate FromListed(p: Promotion, listed: seq<Promotion>, n: nat)
    requires n <= |listed|
  {
    exists j :: 0 <= j < n && SameAge(p, listed[j])
  }

  predicate SameAge(p: Promotion, q: Promotion) {
    p.id == q.id && p.createdAt == q.createdAt
  }

  // In a quiet pass every candidate's row is approved and its gate is open at this instant.
  ghost predicate Vetted(db: DB, now: int, ready: seq<Promotion>) {
    forall i :: 0 <= i < |ready| ==>
                  && HasStatus(db, ready[i].id, Approved) && db.promos[ready[i].id].env == ready[i].env
                  && ready[i].env in db.envs && GateOpen(db.envs[ready[i].env], ready[i], now)
  }

  lemma CandidateJoins(ready: seq<Promotion>, p: Promotion, env: EnvId, listed: seq<Promotion>, n: nat)
    requires n < |listed| && OldestFirst(listed) && Candidates(ready, env, listed, n)
    requires SameAge(p, listed[n]) && p.status == Approved && p.env == env
    ensures Candidates(ready + [p], env, listed, n + 1)
  {
    forall i | 0 <= i < |ready| ensures Older(ready[i], p) && FromListed(ready[i], listed, n + 1) {
      var j :| 0 <= j < n && SameAge(ready[i], listed[j]);
      assert Older(listed[j], listed[n]);
    }
    assert FromListed(p, listed, n + 1);
  }

  lemma NoCandidates(env: EnvId, listed: seq<Promotion>, n: nat)
    requires n <= |listed|
    ensures Candidates([], env, listed, n)
  {
  }

  lemma CandidatesWait(ready: seq<Promotion>, env: EnvId, listed: seq<Promotion>, n: nat)
    requires n < |listed| && Candidates(ready, env, listed, n)
    ensures Candidates(ready, env, listed, n + 1)
  {
    forall i | 0 <= i < |ready| ensures FromListed(ready[i], listed, n + 1) {
      var j :| 0 <= j < n && SameAge(ready[i], listed[j]);
      assert SameAge(ready[i], listed[j]);
    }
  }

  // What the environment cache holds was read in this pass, at the positions in `at`.
  ghost predicate CacheRead(h: History, from: nat, faulty: bool, envs: map<EnvId, Option<Environment>>, at: map<EnvId, nat>) {
    forall e :: e in envs ==>
                  && e in at && DuringPass(from, at[e]) && at[e] < |h|
                  && (envs[e].Some? ==> e in h[at[e]].envs && h[at[e]].envs[e] == envs[e].value && ValidEnv(envs[e].value))
                  && (envs[e] == None && !faulty ==> e !in h[at[e]].envs)
  }

  // In a quiet pass: nothing changed but the rows already handled, and the cache is current.
  ghost predicate Undisturbed(db: DB, start: DB, listed: seq<Promotion>, n: nat, envs: map<EnvId, Option<Environment>>)
    requires n <= |listed|
  {
    && db.envs == start.envs
    && (forall j :: n <= j < |listed| ==> listed[j].id in db.promos && db.promos[listed[j].id] == listed[j])
    && (forall e :: e in envs ==> (envs[e].Some? <==> e in start.envs) && (envs[e].Some? ==> envs[e].value == start.envs[e]))
  }

  lemma OneRowKeepsVetted(before: DB, after: DB, now: int, ready: seq<Promotion>, env: EnvId, listed: seq<Promotion>, n: nat)
    requires n < |listed| && Candidates(ready, env, listed, n) && Vetted(before, now, ready)
    requires OnlyRow(before, after, listed[n].id)
    requires forall i, j :: 0 <= i < j < |listed| ==> listed[i].id != listed[j].id
    ensures Vetted(after, now, ready)
  {
    hide GateOpen, OldestFirst;
    forall i | 0 <= i < |ready| ensures ready[i].id != listed[n].id {
      assert FromListed(ready[i], listed, n);
    }
  }

  ghost predicate DistinctIds(ps: seq<Promotion>) {
    forall i, j :: 0 <= i < j < |ps| ==> ps[i].id != ps[j].id
  }

  // The candidates found among the first n listed, by environment; order names each environment once.
  ghost predicate Sorted(ready: map<EnvId, seq<Promotion>>, order: seq<EnvId>, listed: seq<Promotion>, n: nat)
    requires n <= |listed|
  {
    && (forall e :: e in ready <==> e in order)
    && (forall i, j :: 0 <= i < j < |order| ==> order[i] != order[j])
    && (forall e :: e in ready ==> Candidates(ready[e], e, listed, n))
  }

  ghost predicate AllVetted(db: DB, now: int, ready: map<EnvId, seq<Promotion>>) {
    forall e :: e in ready ==> Vetted(db, now, ready[e])
  }

  lemma SortedWaits(ready: map<EnvId, seq<Promotion>>, order: seq<EnvId>, listed: seq<Promotion>, n: nat)
    requires n < |listed| && Sorted(ready, order, listed, n)
    ensures Sorted(ready, order, listed, n + 1)
  {
    hide Candidates;
    forall e | e in ready ensures Candidates(ready[e], e, listed, n + 1) {
      CandidatesWait(ready[e], e, listed, n);
    }
  }

  lemma SortedJoins(ready: map<EnvId, seq<Promotion>>, order: seq<EnvId>, listed: seq<Promotion>, n: nat, q: Promotion)
    requires n < |listed| && Sorted(ready, order, listed, n) && OldestFirst(listed)
    requires SameAge(q, listed[n]) && q.status == Approved
    ensures Sorted(ready[q.env := (if q.env in ready then ready[q.env] else []) + [q]],
                   if q.env in ready then order else order + [q.env], listed, n + 1)
  {
    hide Candidates, OldestFirst;
    forall e | e in ready ensures Candidates(ready[e], e, listed, n + 1) {
      CandidatesWait(ready[e], e, listed, n);
    }
    NoCandidates(q.env, listed, n);
    CandidateJoins(if q.env in ready then ready[q.env] else [], q, q.env, listed, n);
    assert [] + [q] == [q];
  }

  lemma OneRowKeepsAllVetted(before: DB, after: DB, now: int, ready: map<EnvId, seq<Promotion>>, order: seq<EnvId>,
          listed: seq<Promotion>, n: nat)
    requires n < |listed| && Sorted(ready, order, listed, n) && AllVetted(before, now, ready)
    requires OnlyRow(before, after, listed[n].id) && DistinctIds(listed)
    ensures AllVetted(after, now, ready)
  {
    hide Vetted, Candidates, OnlyRow;
    forall e | e in ready ensures Vetted(after, now, ready[e]) {
      OneRowKeepsVetted(before, after, now, ready[e], e, listed, n);
    }
  }

  lemma AllVettedJoins(db: DB, now: int, ready: map<EnvId, seq<Promotion>>, q: Promotion)
    requires AllVetted(db, now, ready)
    requires HasStatus(db, q.id, Approved) && db.promos[q.id].env == q.env
    requires q.env in db.envs && GateOpen(db.envs[q.env], q, now)
    ensures AllVetted(db, now, ready[q.env := (if q.env in ready then ready[q.env] else []) + [q]])
  {
    hide GateOpen;
  }

  lemma SnapshotsStay(h: History, later: History)
    requires h <= later
    ensures forall p, at :: Snapshot(h, p, at) ==> Snapshot(later, p, at)
  {
    hide IsActive;
  }

  lemma {:induction false} CacheReads(h: History, from: nat, faulty: bool, envs: map<EnvId, Option<Environment>>,
          at: map<EnvId, nat>, id: EnvId)
    requires CacheRead(h, from, faulty, envs, at) && id in envs
    ensures id in at && DuringPass(from, at[id]) && at[id] < |h|
    ensures if envs[id].Some? then EnvSnapshot(h, envs[id].value, id, at[id]) else faulty || id !in h[at[id]].envs
  {
    hide ValidEnv;
  }

  lemma {:induction false} CacheStays(h: History, later: History, from: nat, faulty: bool, still: bool,
          envs: map<EnvId, Option<Environment>>, at: map<EnvId, nat>)
    requires h <= later && (faulty ==> still) && CacheRead(h, from, faulty, envs, at)
    ensures CacheRead(later, from, still, envs, at)
  {
    hide ValidEnv;
  }

  // getEnv: reads an environment once per pass; one that cannot be read counts as missing.
  method LookUp(store: Store, ghost from: nat, ghost failed: nat, envs: map<EnvId, Option<Environment>>, ghost at: map<EnvId, nat>,
          id: EnvId)
    returns (envs': map<EnvId, Option<Environment>>, ghost at': map<EnvId, nat>)
    requires store.Valid() && from <= |store.hist| && failed <= store.failed
    requires CacheRead(store.hist, from, store.failed > failed, envs, at)
    modifies store
    ensures store.Valid() && old(store.hist) <= store.hist && old(store.ops) <= store.ops
    ensures store.failed >= old(store.failed)
    ensures old(store.faults) == [] ==> store.faults == [] && store.failed == old(store.failed)
    ensures CacheRead(store.hist, from, store.failed > failed, envs', at') && id in envs' && (id in envs ==> envs' == envs)
    ensures old(store.Quiet()) ==> store.Quiet() && store.hist == old(store.hist)
    ensures old(store.Quiet()) ==> forall e :: e in envs' ==>
              || (e in envs && envs'[e] == envs[e])
              || ((envs'[e].Some? <==> e in Now(store.hist).envs) && (envs'[e].Some? ==> envs'[e].value == Now(store.hist).envs[e]))
  {
    hide Run, ValidEnv;
    envs', at' := envs, at;
    if id !in envs {
      var err, e, eAt := store.GetEnvByID(id);
      envs' := envs[id := e];
      at' := at[id := eAt];
    }
  }

  // Follows or advances one listed promotion.
  method Handle(store: Store, world: World, env: Environment, ghost eAt: nat, p: Promotion, ghost pAt: nat, now: int)
    returns (q: Promotion)
    requires store.Valid()
    requires Snapshot(store.hist, p, pAt) && EnvSnapshot(store.hist, env, p.env, eAt)
    modifies store
    ensures store.Valid() && old(store.hist) <= store.hist && old(store.ops) <= store.ops
    ensures store.failed >= old(store.failed)
    ensures old(store.faults) == [] ==> store.faults == [] && store.failed == old(store.failed)
    ensures if p.status == Deploying then PollsTo(store.hist, |old(store.hist)|, store.failed > old(store.failed), world, p, now, q)
            else AdvancesTo(store.hist, |old(store.hist)|, store.failed > old(store.failed), env, p, now, q)
    ensures SameAge(q, p) && q.id == p.id && q.env == p.env && (p.status == Deploying ==> q.status != Approved)
    ensures old(store.Quiet()) ==> store.Quiet()
    ensures old(store.Quiet() && HasRow(Now(store.hist), p)) ==>
              && OnlyRow(old(Now(store.hist)), Now(store.hist), p.id)
              && (q.status == Approved ==> GateOpen(env, q, now) && HasStatus(Now(store.hist), p.id, Approved))
              && (p.status != Deploying ==> q.status == Advance(env, p, now).status)
              && (HasStatus(Now(store.hist), p.id, Deploying) ==> p.status == Deploying && q.status == Deploying)
  {
    hide Run, GateOpen, OnlyRow, ValidEnv, Advance, PollsTo, AdvancesTo, AdvancePatch, PolledRow;
    if p.status == Deploying {
      q := Poll(store, world, p, now);
    } else {
      q := AdvancePromotion(store, env, eAt, p, pAt, now);
      AdvanceIsStored(env, p, now);
    }
  }

  // A quiet step on listed[n] keeps everything a quiet pass has established.
  lemma QuietStep(before: DB, after: DB, start: DB, now: int, listed: seq<Promotion>, n: nat, envs: map<EnvId, Option<Environment>>,
          ready: map<EnvId, seq<Promotion>>, order: seq<EnvId>)
    requires n < |listed| && DistinctIds(listed) && Undisturbed(before, start, listed, n, envs)
    requires Sorted(ready, order, listed, n) && AllVetted(before, now, ready)
    requires OnlyRow(before, after, listed[n].id)
    ensures Undisturbed(after, start, listed, n + 1, envs) && AllVetted(after, now, ready)
  {
    hide Sorted, AllVetted;
    OneRowKeepsAllVetted(before, after, now, ready, order, listed, n);
  }

  lemma QuietLookUp(db: DB, start: DB, listed: seq<Promotion>, n: nat, envs: map<EnvId, Option<Environment>>,
          envs': map<EnvId, Option<Environment>>)
    requires n <= |listed| && Undisturbed(db, start, listed, n, envs)
    requires forall e :: e in envs' ==>
               || (e in envs && envs'[e] == envs[e])
               || ((envs'[e].Some? <==> e in db.envs) && (envs'[e].Some? ==> envs'[e].value == db.envs[e]))
    ensures Undisturbed(db, start, listed, n, envs')
    ensures n < |listed| ==> Undisturbed(db, start, listed, n + 1, envs') && listed[n].id in db.promos && db.promos[listed[n].id] == listed[n]
    ensures forall e :: e in envs' ==> (envs'[e].Some? <==> e in db.envs) && (envs'[e].Some? ==> envs'[e].value == db.envs[e])
  {
  }

  // Everything a quiet pass has established after n promotions.
  ghost predicate QuietSoFar(db: DB, start: DB, now: int, listed: seq<Promotion>, n: nat, envs: map<EnvId, Option<Environment>>,
          ready: map<EnvId, seq<Promotion>>)
    requires n <= |listed|
  {
    Undisturbed(db, start, listed, n, envs) && AllVetted(db, now, ready)
  }

  // The lists of candidates, grown by one promotion.
  function Enlist(ready: map<EnvId, seq<Promotion>>, q: Promotion): map<EnvId, seq<Promotion>> {
    if q.status == Approved then ready[q.env := (if q.env in ready then ready[q.env] else []) + [q]] else ready
  }

  function Enroll(ready: map<EnvId, seq<Promotion>>, order: seq<EnvId>, q: Promotion): seq<EnvId> {
    if q.status == Approved && q.env !in ready then order + [q.env] else order
  }

  lemma EnlistKeepsSorted(ready: map<EnvId, seq<Promotion>>, order: seq<EnvId>, listed: seq<Promotion>, n: nat, q: Promotion)
    requires n < |listed| && Sorted(ready, order, listed, n) && OldestFirst(listed) && SameAge(q, listed[n])
    ensures Sorted(Enlist(ready, q), Enroll(ready, order, q), listed, n + 1)
  {
    hide Sorted, OldestFirst, SameAge;
    SortedWaits(ready, order, listed, n);
    if q.status == Approved {
      SortedJoins(ready, order, listed, n, q);
    }
  }

  lemma QuietEnlist(before: DB, after: DB, start: DB, now: int, listed: seq<Promotion>, n: nat,
          envs: map<EnvId, Option<Environment>>, ready: map<EnvId, seq<Promotion>>, order: seq<EnvId>, q: Promotion)
    requires n < |listed| && DistinctIds(listed) && QuietSoFar(before, start, now, listed, n, envs, ready)
    requires Sorted(ready, order, listed, n)
    requires OnlyRow(before, after, listed[n].id) && q.id == listed[n].id && q.id in before.promos
    requires q.status == Approved ==>
               && HasStatus(after, q.id, Approved) && before.promos[q.id].env == q.env && q.env in before.envs && GateOpen(before.envs[q.env], q, now)
    ensures QuietSoFar(after, start, now, listed, n + 1, envs, Enlist(ready, q))
  {
    hide Sorted, AllVetted, Undisturbed, GateOpen, DistinctIds, OnlyRow;
    QuietStep(before, after, start, now, listed, n, envs, ready, order);
    SamePolicies(before, after, q.id);
    if q.status == Approved {
      AllVettedJoins(after, now, ready, q);
    }
  }

  // One round of Survey.
  method SurveyOne(store: Store, world: World, ghost from: nat, ghost failed: nat, listed: seq<Promotion>, i: nat, ghost at: nat,
          now: int, env: Environment, ghost eAt: nat, ghost envs: map<EnvId, Option<Environment>>,
          ready: map<EnvId, seq<Promotion>>, ghost order: seq<EnvId>)
    returns (q: Promotion)
    requires i < |listed| && store.Valid() && OldestFirst(listed) && DistinctIds(listed)
    requires from <= |store.hist| && failed <= store.failed && DuringPass(from, eAt)
    requires Snapshot(store.hist, listed[i], at) && EnvSnapshot(store.hist, env, listed[i].env, eAt)
    requires Sorted(ready, order, listed, i)
    modifies store
    ensures store.Valid() && old(store.hist) <= store.hist && old(store.ops) <= store.ops
    ensures store.failed >= old(store.failed)
    ensures old(store.faults) == [] ==> store.faults == [] && store.failed == old(store.failed)
    ensures q.env == listed[i].env && (listed[i].status == Deploying ==> q.status != Approved)
    ensures Followed(store.hist, from, store.failed > failed, world, listed[i], Some(q), now)
    ensures forall start, seen: Seen :: old(store.Quiet()) && |seen| == i && QuietSeen(old(Now(store.hist)), start, listed, seen, now)
              && HasRow(old(Now(store.hist)), listed[i]) && listed[i].env in start.envs && start.envs[listed[i].env] == env
              ==> QuietSeen(Now(store.hist), start, listed, seen + [Some(q)], now)
    ensures Sorted(Enlist(ready, q), Enroll(ready, order, q), listed, i + 1)
    ensures old(store.Quiet()) ==> store.Quiet()
    ensures forall start :: old(store.Quiet()) && QuietSoFar(old(Now(store.hist)), start, now, listed, i, envs, ready)
              && listed[i].env in old(Now(store.hist)).envs && old(Now(store.hist)).envs[listed[i].env] == env
              ==> QuietSoFar(Now(store.hist), start, now, listed, i + 1, envs, Enlist(ready, q))
  {
    ghost var before := Now(store.hist);
    hide *;
    q := Handle(store, world, env, eAt, listed[i], at, now);
    EnlistKeepsSorted(ready, order, listed, i, q);
    HandledIsFollowed(old(store.hist), store.hist, from, store.failed > old(store.failed), store.failed > failed, world, env, eAt, listed[i], q, now);
    if old(store.Quiet()) {
      forall start, seen: Seen | |seen| == i && QuietSeen(before, start, listed, seen, now)
        && HasRow(before, listed[i]) && listed[i].env in start.envs && start.envs[listed[i].env] == env
        ensures QuietSeen(Now(store.hist), start, listed, seen + [Some(q)], now)
      {
        RowIsThere(before, listed[i]);
        QuietSeenJoins(before, Now(store.hist), start, listed, seen, now, q);
      }
      forall start | QuietSoFar(before, start, now, listed, i, envs, ready) && listed[i].env in before.envs && before.envs[listed[i].env] == env
        ensures QuietSoFar(Now(store.hist), start, now, listed, i + 1, envs, Enlist(ready, q))
      {
        NextIsUntouched(before, start, now, listed, i, envs, ready);
        QuietEnlist(before, Now(store.hist), start, now, listed, i, envs, ready, order, q);
      }
    }
  }

  lemma {:induction false} RowIsThere(db: DB, p: Promotion)
    requires HasRow(db, p)
    ensures p.id in db.promos && db.promos[p.id] == p
  {
  }

  lemma {:induction false} HandledIsFollowed(h: History, later: History, from: nat, wasFaulty: bool, faulty: bool, world: World,
          env: Environment, eAt: nat, p: Promotion, q: Promotion, now: int)
    requires h <= later && from <= |h| && (wasFaulty ==> faulty) && EnvSnapshot(h, env, p.env, eAt) && DuringPass(from, eAt)
    requires if p.status == Deploying then PollsTo(later, |h|, wasFaulty, world, p, now, q)
             else AdvancesTo(later, |h|, wasFaulty, env, p, now, q)
    ensures Followed(later, from, faulty, world, p, Some(q), now)
  {
    hide PollsTo, AdvancesTo, ValidEnv;
    if p.status == Deploying {
      PollsStay(later, later, |h|, from, wasFaulty, faulty, world, p, now, q);
    } else {
      AdvancesStay(later, later, |h|, from, wasFaulty, faulty, env, p, now, q);
      assert AdvancedFrom(later, from, faulty, p, now, q, eAt);
    }
  }

  lemma NextIsUntouched(db: DB, start: DB, now: int, listed: seq<Promotion>, n: nat, envs: map<EnvId, Option<Environment>>,
          ready: map<EnvId, seq<Promotion>>)
    requires n < |listed| && QuietSoFar(db, start, now, listed, n, envs, ready)
    ensures listed[n].id in db.promos && db.promos[listed[n].id] == listed[n]
  {
    hide AllVetted;
  }

  lemma QuietSkip(db: DB, start: DB, now: int, listed: seq<Promotion>, n: nat, envs: map<EnvId, Option<Environment>>,
          envs': map<EnvId, Option<Environment>>, ready: map<EnvId, seq<Promotion>>)
    requires n < |listed| && QuietSoFar(db, start, now, listed, n, envs, ready)
    requires forall e :: e in envs' ==>
               || (e in envs && envs'[e] == envs[e])
               || ((envs'[e].Some? <==> e in db.envs) && (envs'[e].Some? ==> envs'[e].value == db.envs[e]))
    ensures QuietSoFar(db, start, now, listed, n, envs', ready) && QuietSoFar(db, start, now, listed, n + 1, envs', ready)
    ensures forall e :: e in envs' ==> (envs'[e].Some? <==> e in db.envs) && (envs'[e].Some? ==> envs'[e].value == db.envs[e])
  {
    hide AllVetted;
    QuietLookUp(db, start, listed, n, envs, envs');
  }

  // One round of the survey: reads the environment if it is new, then handles the promotion.
  method Round(store: Store, world: World, ghost from: nat, ghost failed: nat, listed: seq<Promotion>, i: nat, ghost at: nat,
          now: int, envs: map<EnvId, Option<Environment>>, ghost envAt: map<EnvId, nat>, busy: set<EnvId>,
          ready: map<EnvId, seq<Promotion>>, order: seq<EnvId>, ghost seen: Seen)
    returns (envs': map<EnvId, Option<Environment>>, ghost envAt': map<EnvId, nat>, busy': set<EnvId>,
          ready': map<EnvId, seq<Promotion>>, order': seq<EnvId>, ghost o: Option<Promotion>)
    requires i < |listed| && store.Valid() && OldestFirst(listed) && DistinctIds(listed)
    requires from <= |store.hist| && failed <= store.failed
    requires Snapshot(store.hist, listed[i], at) && CacheRead(store.hist, from, store.failed > failed, envs, envAt)
    requires Sorted(ready, order, listed, i) && |seen| == i && Exact(listed, seen, busy, ready)
    modifies store
    ensures store.Valid() && old(store.hist) <= store.hist && old(store.ops) <= store.ops
    ensures store.failed >= old(store.failed)
    ensures old(store.faults) == [] ==> store.faults == [] && store.failed == old(store.failed)
    ensures CacheRead(store.hist, from, store.failed > failed, envs', envAt') && Sorted(ready', order', listed, i + 1)
    ensures Exact(listed, seen + [o], busy', ready') && Followed(store.hist, from, store.failed > failed, world, listed[i], o, now)
    ensures forall start :: old(store.Quiet()) && QuietSoFar(old(Now(store.hist)), start, now, listed, i, envs, ready)
              && QuietSeen(old(Now(store.hist)), start, listed, seen, now)
              ==> QuietSeen(Now(store.hist), start, listed, seen + [o], now)
    ensures old(store.Quiet()) ==> store.Quiet()
    ensures forall start :: old(store.Quiet()) && QuietSoFar(old(Now(store.hist)), start, now, listed, i, envs, ready)
              ==> QuietSoFar(Now(store.hist), start, now, listed, i + 1, envs', ready')
  {
    ghost var before := Now(store.hist);
    hide *;
    var p := listed[i];
    busy', ready', order' := busy, ready, order;
    envs', envAt' := LookUp(store, from, failed, envs, envAt, p.env);
    SortedWaits(ready, order, listed, i);
    if old(store.Quiet()) {
      forall start | QuietSoFar(before, start, now, listed, i, envs, ready)
        ensures QuietSoFar(before, start, now, listed, i, envs', ready) && QuietSoFar(before, start, now, listed, i + 1, envs', ready)
        ensures envs'[p.env].Some? ==> p.env in before.envs && envs'[p.env].value == before.envs[p.env]
        ensures p.env in envs' && (envs'[p.env].Some? <==> p.env in start.envs) && HasRow(before, p) && before.envs == start.envs
      {
        QuietSkip(before, start, now, listed, i, envs, envs', ready);
        NextIsUntouched(before, start, now, listed, i, envs, ready);
        SamePoliciesSoFar(before, start, now, listed, i, envs, ready, p);
      }
      forall start | QuietSoFar(before, start, now, listed, i, envs, ready) && QuietSeen(before, start, listed, seen, now) && envs'[p.env] == None
        ensures QuietSeen(before, start, listed, seen + [None], now)
      {
        QuietSeenSkips(before, start, listed, seen, now);
      }
    }
    o := None;
    ExactJoins(listed, seen, busy, ready, None);
    CacheReads(store.hist, from, store.failed > failed, envs', envAt', p.env);
    if envs'[p.env] == None {
      NothingToFollow(store.hist, from, store.failed > failed, world, p, now, envAt'[p.env]);
    } else {
      SnapshotsStay(old(store.hist), store.hist);
      ghost var looked, wasFaulty := store.hist, store.failed > failed;
      var q := SurveyOne(store, world, from, failed, listed, i, at, now, envs'[p.env].value, envAt'[p.env], envs', ready, order);
      CacheStays(looked, store.hist, from, wasFaulty, store.failed > failed, envs', envAt');
      o := Some(q);
      ExactJoins(listed, seen, busy, ready, o);
      if p.status == Deploying && q.status == Deploying {
        busy' := busy + {p.env};
      }
      order', ready' := Enroll(ready, order, q), Enlist(ready, q);
    }
  }

  lemma {:induction false} SamePoliciesSoFar(db: DB, start: DB, now: int, listed: seq<Promotion>, n: nat,
          envs: map<EnvId, Option<Environment>>, ready: map<EnvId, seq<Promotion>>, p: Promotion)
    requires n < |listed| && QuietSoFar(db, start, now, listed, n, envs, ready) && p == listed[n]
    ensures db.envs == start.envs && HasRow(db, p)
  {
    hide AllVetted;
  }

  lemma {:induction false} NothingToFollow(h: History, from: nat, faulty: bool, world: World, p: Promotion, now: int, a: nat)
    requires DuringPass(from, a) && a < |h| && (faulty || p.env !in h[a].envs)
    ensures Followed(h, from, faulty, world, p, None, now)
  {
  }

  /**
   The first half of a pass: follow deployments, advance the rest, and sort the approved ones by
   environment, oldest first.
   */
  method Survey(store: Store, world: World, listed: seq<Promotion>, ghost at: nat, now: int)
    returns (busy: set<EnvId>, ready: map<EnvId, seq<Promotion>>, order: seq<EnvId>, ghost seen: Seen)
    requires store.Valid() && OldestFirst(listed) && DistinctIds(listed)
    requires forall i :: 0 <= i < |listed| ==> Snapshot(store.hist, listed[i], at)
    modifies store
    ensures store.Valid() && old(store.hist) <= store.hist && old(store.ops) <= store.ops
    ensures store.failed >= old(store.failed)
    ensures old(store.faults) == [] ==> store.faults == [] && store.failed == old(store.failed)
    ensures Sorted(ready, order, listed, |listed|)
    ensures |seen| == |listed| && Exact(listed, seen, busy, ready)
    ensures AllFollowed(store.hist, |old(store.hist)|, store.failed > old(store.failed), world, listed, seen, now)
    ensures old(store.Quiet()) ==> store.Quiet()
    ensures old(store.Quiet()) && at == |old(store.hist)| - 1 ==>
              && Now(store.hist).envs == old(Now(store.hist)).envs && AllVetted(Now(store.hist), now, ready)
              && QuietSeen(Now(store.hist), old(Now(store.hist)), listed, seen, now)
  {
    hide *;
    ghost var quiet := store.Quiet() && at == |store.hist| - 1;
    ghost var start := Now(store.hist);
    ghost var from, failed := |store.hist|, store.failed;
    busy, ready, order := {}, map[], [];
    var envs: map<EnvId, Option<Environment>> := map[];
    ghost var envAt: map<EnvId, nat> := map[];
    seen := [];
    NothingSeen(store.hist, from, false, world, listed, at, now);
    for i := 0 to |listed|
      invariant store.Valid() && old(store.hist) <= store.hist && old(store.ops) <= store.ops
      invariant store.failed >= old(store.failed) && failed <= store.failed
      invariant old(store.faults) == [] ==> store.faults == [] && store.failed == old(store.failed)
      invariant CacheRead(store.hist, from, store.failed > failed, envs, envAt)
      invariant Sorted(ready, order, listed, i)
      invariant old(store.Quiet()) ==> store.Quiet()
      invariant quiet ==> QuietSoFar(Now(store.hist), start, now, listed, i, envs, ready)
      invariant |seen| == i && Exact(listed, seen, busy, ready)
      invariant AllFollowed(store.hist, from, store.failed > failed, world, listed, seen, now)
      invariant quiet ==> QuietSeen(Now(store.hist), start, listed, seen, now)
    {
      SnapshotsStay(old(store.hist), store.hist);
      ghost var before, wasFaulty := store.hist, store.failed > failed;
      ghost var o: Option<Promotion>;
      envs, envAt, busy, ready, order, o := Round(store, world, from, failed, listed, i, at, now, envs, envAt, busy, ready, order, seen);
      AllFollowedStay(before, store.hist, from, from, wasFaulty, store.failed > failed, world, listed, seen, now);
      OneMoreFollowed(store.hist, from, store.failed > failed, world, listed, seen, o, now);
      seen := seen + [o];
    }
    if quiet {
      QuietlyDone(Now(store.hist), start, now, listed, envs, ready);
    }
  }

  lemma {:induction false} OneMoreFollowed(h: History, from: nat, faulty: bool, world: World, listed: seq<Promotion>, seen: Seen,
          o: Option<Promotion>, now: int)
    requires |seen| < |listed| && AllFollowed(h, from, faulty, world, listed, seen, now)
    requires Followed(h, from, faulty, world, listed[|seen|], o, now)
    ensures AllFollowed(h, from, faulty, world, listed, seen + [o], now)
  {
    hide Followed;
  }

  lemma {:induction false} NothingSeen(h: History, from: nat, faulty: bool, world: World, listed: seq<Promotion>, at: nat, now: int)
    requires forall i :: 0 <= i < |listed| ==> Snapshot(h, listed[i], at)
    ensures CacheRead(h, from, faulty, map[], map[]) && Sorted(map[], [], listed, 0)
    ensures Exact(listed, [], {}, map[]) && AllFollowed(h, from, faulty, world, listed, [], now)
    ensures at == |h| - 1 ==> QuietSoFar(Now(h), Now(h), now, listed, 0, map[], map[]) && QuietSeen(Now(h), Now(h), listed, [], now)
  {
    NothingSorted(listed, Now(h), now);
    UndisturbedAtStart(h, listed, at);
  }

  lemma QuietlyDone(db: DB, start: DB, now: int, listed: seq<Promotion>, envs: map<EnvId, Option<Environment>>,
          ready: map<EnvId, seq<Promotion>>)
    requires QuietSoFar(db, start, now, listed, |listed|, envs, ready)
    ensures db.envs == start.envs && AllVetted(db, now, ready)
  {
    hide AllVetted;
  }

  lemma SamePolicies(before: DB, after: DB, id: PromotionId)
    requires OnlyRow(before, after, id) && id in before.promos
    ensures after.envs == before.envs && id in after.promos && after.promos[id].env == before.promos[id].env
  {
  }

  lemma UndisturbedAtStart(h: History, listed: seq<Promotion>, at: nat)
    requires forall i :: 0 <= i < |listed| ==> Snapshot(h, listed[i], at)
    ensures at == |h| - 1 ==> Undisturbed(Now(h), Now(h), listed, 0, map[])
  {
    hide IsActive;
  }

  lemma NothingSorted(listed: seq<Promotion>, db: DB, now: int)
    ensures Sorted(map[], [], listed, 0) && AllVetted(db, now, map[])
  {
  }

  // Only rows of one environment differ, and every row stays in its environment.
  ghost predicate OnlyIn(before: DB, after: DB, env: EnvId) {
    && after.envs == before.envs && after.promos.Keys == before.promos.Keys
    && forall x :: x in before.promos ==> && after.promos[x].env == before.promos[x].env
                                          && (before.promos[x].env != env ==> after.promos[x] == before.promos[x])
  }

  // The environment is idle and all of `ready` are approved there.
  ghost predicate Startable(db: DB, env: EnvId, ready: seq<Promotion>) {
    && (forall i :: 0 <= i < |ready| ==> HasStatus(db, ready[i].id, Approved) && db.promos[ready[i].id].env == env)
    && DistinctIds(ready) && !DeployingIn(db, env)
  }

  // A candidate is started exactly when its check passes.
  ghost predicate AsChecked(world: World, tried: seq<Attempt>) {
    forall i :: 0 <= i < |tried| ==> CheckedOne(world, tried[i])
  }

  ghost predicate CheckedOne(world: World, a: Attempt) {
    a.outcome == if world.check(a.p.id) == Pass then Claimed else NotStarted
  }

  lemma {:induction false} StartStep(start: DB, before: DB, after: DB, env: EnvId, ready: seq<Promotion>)
    requires ready != [] && Startable(before, env, ready) && OnlyIn(start, before, env) && OnlyRow(before, after, ready[0].id)
    ensures OnlyIn(start, after, env)
    ensures !HasStatus(after, ready[0].id, Deploying) ==> Startable(after, env, ready[1..])
  {
    if !HasStatus(after, ready[0].id, Deploying) {
      forall i | 0 <= i < |ready| - 1 ensures HasStatus(after, ready[1..][i].id, Approved) && after.promos[ready[1..][i].id].env == env {
        assert ready[1..][i] == ready[i + 1] && ready[i + 1].id != ready[0].id;
      }
    }
  }

  lemma {:induction false} OnlyInSelf(db: DB, env: EnvId, ready: seq<Promotion>)
    requires Startable(db, env, ready)
    ensures OnlyIn(db, db, env)
  {
  }

  // What StartPromotion finds of the first candidate.
  lemma {:induction false} FirstIsStartable(db: DB, env: EnvId, ready: seq<Promotion>)
    requires ready != [] && Startable(db, env, ready)
    ensures ready[0].id in db.promos && db.promos[ready[0].id].status == Approved && !DeployingIn(db, db.promos[ready[0].id].env)
  {
  }

  // Starting in one environment leaves the candidates of the others as they are.
  lemma {:induction false} OthersStayStartable(before: DB, after: DB, env: EnvId, other: EnvId, ready: seq<Promotion>)
    requires OnlyIn(before, after, env) && other != env && Startable(before, other, ready)
    ensures Startable(after, other, ready)
  {
  }

  // Why an attempt ended as it did: it was not started because its check did not pass (or a call
  // failed), it took the slot, or the store found the slot held.
  ghost predicate Explained(h: History, from: nat, faulty: bool, world: World, a: Attempt, now: int) {
    && StartEnds(h, from, faulty, world, a.p.id, now, a.outcome)
    && (a.outcome == Claimed ==> ClaimedBetween(h, from, a.p.id))
    && (a.outcome == Occupied ==> HeldBetween(h, from, a.p.id))
    && (!faulty ==> (a.outcome == NotStarted <==> world.check(a.p.id) != Pass))
  }

  ghost predicate AllExplained(h: History, from: nat, faulty: bool, world: World, tried: seq<Attempt>, now: int) {
    forall i :: 0 <= i < |tried| ==> Explained(h, from, faulty, world, tried[i], now)
  }

  lemma {:induction false} StartsStay(h: History, later: History, from: nat, earlier: nat, faulty: bool, wasFaulty: bool,
          world: World, id: PromotionId, now: int, o: Outcome)
    requires h <= later && earlier <= from && (faulty ==> wasFaulty) && StartEnds(h, from, faulty, world, id, now, o)
    ensures StartEnds(later, earlier, wasFaulty, world, id, now, o)
  {
    hide HappenedBetween, LaunchTried;
    match world.check(id)
    case Trouble =>
    case GateFails =>
      if !faulty {
        var ok :| HappenedBetween(h, from, RefuseCall(id, now), Moved(ok));
        HappenedStays(h, later, from, earlier, RefuseCall(id, now), Moved(ok));
      }
    case Pass =>
      if o == Occupied {
        HappenedStays(h, later, from, earlier, ClaimCall(id, now), Moved(false));
      } else if o == Claimed {
        HappenedStays(h, later, from, earlier, ClaimCall(id, now), Moved(true));
        LaunchTriedStays(h, later, from, earlier, faulty, wasFaulty, world, id, now);
      }
  }

  lemma {:induction false} ExplainedStays(h: History, later: History, from: nat, earlier: nat, faulty: bool, wasFaulty: bool,
          world: World, a: Attempt, now: int)
    requires h <= later && earlier <= from && (faulty ==> wasFaulty) && Explained(h, from, faulty, world, a, now)
    ensures Explained(later, earlier, wasFaulty, world, a, now)
  {
    hide HappenedBetween, LaunchTried, ClaimedBetween, HeldBetween, StartEnds;
    StartsStay(h, later, from, earlier, faulty, wasFaulty, world, a.p.id, now, a.outcome);
    if a.outcome != NotStarted {
      StartedPasses(later, earlier, wasFaulty, world, a.p.id, now, a.outcome);
    }
  }

  // The meaning of the two outcomes that end a search.
  lemma {:induction false} StartedPasses(h: History, from: nat, faulty: bool, world: World, id: PromotionId, now: int, o: Outcome)
    requires o != NotStarted && StartEnds(h, from, faulty, world, id, now, o)
    ensures world.check(id) == Pass
    ensures if o == Claimed then ClaimedBetween(h, from, id) else HeldBetween(h, from, id)
  {
    hide HappenedBetween, LaunchTried, ClaimedBetween, HeldBetween;
    ClaimMeans(h, from, id, now);
  }

  lemma {:induction false} AllExplainedStay(h: History, later: History, from: nat, earlier: nat, faulty: bool, wasFaulty: bool,
          world: World, tried: seq<Attempt>, now: int)
    requires h <= later && earlier <= from && (faulty ==> wasFaulty) && AllExplained(h, from, faulty, world, tried, now)
    ensures AllExplained(later, earlier, wasFaulty, world, tried, now)
  {
    hide Explained;
    forall i | 0 <= i < |tried| ensures Explained(later, earlier, wasFaulty, world, tried[i], now) {
      ExplainedStays(h, later, from, earlier, faulty, wasFaulty, world, tried[i], now);
    }
  }

  // Tries the first of the candidates that are left.
  method StartFirst(store: Store, world: World, env: EnvId, ghost start: DB, p: Promotion, ghost rest: seq<Promotion>, now: int)
    returns (a: Attempt)
    requires store.Valid() && rest != [] && rest[0] == p
    modifies store
    ensures store.Valid() && old(store.hist) <= store.hist && old(store.ops) <= store.ops
    ensures store.failed >= old(store.failed)
    ensures old(store.faults) == [] ==> store.faults == [] && store.failed == old(store.failed)
    ensures a.p == p && Explained(store.hist, |old(store.hist)|, store.failed > old(store.failed), world, a, now)
    ensures old(store.Quiet()) ==> store.Quiet()
    ensures old(store.Quiet() && OnlyIn(start, Now(store.hist), env) && Startable(Now(store.hist), env, rest)) ==>
              && OnlyIn(start, Now(store.hist), env) && CheckedOne(world, a)
              && (a.outcome == NotStarted ==> Startable(Now(store.hist), env, rest[1..]))
  {
    hide Run, StartEnds, ClaimedBetween, HeldBetween, OnlyIn, OnlyRow, Startable, DeployingIn, AtCall, LaunchedRow, ClaimedRow;
    ghost var before := Now(store.hist);
    var o := StartPromotion(store, world, p, now);
    a := Attempt(p, o);
    if old(store.Quiet()) && OnlyIn(start, before, env) && Startable(before, env, rest) {
      FirstIsStartable(before, env, rest);
      StartStep(start, before, Now(store.hist), env, rest);
    }
  }

  // Tries the candidates of one idle environment in order until one ends the search.
  method StartInEnv(store: Store, world: World, env: EnvId, ready: seq<Promotion>, now: int) returns (tried: seq<Attempt>)
    requires store.Valid()
    modifies store
    ensures store.Valid() && old(store.hist) <= store.hist && old(store.ops) <= store.ops
    ensures store.failed >= old(store.failed)
    ensures old(store.faults) == [] ==> store.faults == [] && store.failed == old(store.failed)
    ensures StopsAtFirst(ready, tried)
    ensures AllExplained(store.hist, |old(store.hist)|, store.failed > old(store.failed), world, tried, now)
    ensures old(store.Quiet()) ==> store.Quiet()
    ensures old(store.Quiet()) && Startable(old(Now(store.hist)), env, ready) ==>
              OnlyIn(old(Now(store.hist)), Now(store.hist), env) && AsChecked(world, tried)
  {
    hide Explained, Run, Startable, OnlyIn, CheckedOne;
    ghost var start, from, failed := Now(store.hist), |store.hist|, store.failed;
    ghost var quiet := store.Quiet() && Startable(start, env, ready);
    tried := [];
    if quiet {
      OnlyInSelf(start, env, ready);
      assert ready[0..] == ready;
    }
    for i := 0 to |ready|
      invariant |tried| == i
      invariant store.Valid() && old(store.hist) <= store.hist && old(store.ops) <= store.ops
      invariant store.failed >= old(store.failed) && (old(store.faults) == [] ==> store.faults == [] && store.failed == old(store.failed))
      invariant forall j :: 0 <= j < i ==> tried[j].p == ready[j] && tried[j].outcome == NotStarted
      invariant AllExplained(store.hist, from, store.failed > failed, world, tried, now)
      invariant old(store.Quiet()) ==> store.Quiet()
      invariant quiet ==> OnlyIn(start, Now(store.hist), env) && Startable(Now(store.hist), env, ready[i..]) && AsChecked(world, tried)
    {
      ghost var before, failures := store.hist, store.failed;
      assert ready[i..][0] == ready[i] && ready[i..][1..] == ready[i + 1..];
      var a := StartFirst(store, world, env, start, ready[i], ready[i..], now);
      AllExplainedStay(before, store.hist, from, from, failures > failed, store.failed > failed, world, tried, now);
      ExplainedStays(store.hist, store.hist, |before|, from, store.failed > failures, store.failed > failed, world, a, now);
      tried := tried + [a];
      if a.outcome != NotStarted {
        break;
      }
    }
  }

  /** The second half of a pass: in each idle environment, start the oldest candidate that can start. */
  method StartNext(store: Store, world: World, busy: set<EnvId>, ready: map<EnvId, seq<Promotion>>, order: seq<EnvId>, now: int)
    returns (tried: map<EnvId, seq<Attempt>>)
    requires store.Valid()
    requires forall e :: e in ready <==> e in order
    requires forall i, j :: 0 <= i < j < |order| ==> order[i] != order[j]
    modifies store
    ensures store.Valid() && old(store.hist) <= store.hist && old(store.ops) <= store.ops
    ensures store.failed >= old(store.failed)
    ensures old(store.faults) == [] ==> store.faults == [] && store.failed == old(store.failed)
    ensures tried.Keys == ready.Keys
    ensures forall e :: e in tried ==> if e in busy then tried[e] == [] else StopsAtFirst(ready[e], tried[e])
    ensures forall e :: e in tried ==> AllExplained(store.hist, |old(store.hist)|, store.failed > old(store.failed), world, tried[e], now)
    ensures old(store.Quiet()) && (forall e :: e in ready && e !in busy ==> Startable(old(Now(store.hist)), e, ready[e])) ==>
              forall e :: e in tried ==> AsChecked(world, tried[e])
  {
    hide AllExplained, StopsAtFirst, Run, Startable, OnlyIn, AsChecked;
    ghost var from, failed := |store.hist|, store.failed;
    ghost var quiet := store.Quiet() && forall e :: e in ready && e !in busy ==> Startable(Now(store.hist), e, ready[e]);
    tried := map[];
    NothingTried(store.hist, from, false, world, now);
    for k := 0 to |order|
      invariant quiet ==> store.Quiet() && forall e :: e in tried ==> AsChecked(world, tried[e])
      invariant quiet ==> forall m :: k <= m < |order| && order[m] !in busy ==> Startable(Now(store.hist), order[m], ready[order[m]])
      invariant store.Valid() && old(store.hist) <= store.hist && old(store.ops) <= store.ops
      invariant forall e :: e in tried <==> e in order[..k]
      invariant forall e :: e in tried ==> if e in busy then tried[e] == [] else StopsAtFirst(ready[e], tried[e])
      invariant store.failed >= old(store.failed) && (old(store.faults) == [] ==> store.faults == [] && store.failed == old(store.failed))
      invariant forall e :: e in tried ==> AllExplained(store.hist, from, store.failed > failed, world, tried[e], now)
    {
      var env := order[k];
      assert order[..k + 1] == order[..k] + [env];
      var attempts: seq<Attempt> := [];
      if env !in busy {
        ghost var before, failures := store.hist, store.failed;
        attempts := StartInEnv(store, world, env, ready[env], now);
        if quiet {
          forall m | k < m < |order| && order[m] !in busy ensures Startable(Now(store.hist), order[m], ready[order[m]]) {
            OthersStayStartable(Now(before), Now(store.hist), env, order[m], ready[order[m]]);
          }
        }
        forall e | e in tried ensures AllExplained(store.hist, from, store.failed > failed, world, tried[e], now) {
          AllExplainedStay(before, store.hist, from, from, failures > failed, store.failed > failed, world, tried[e], now);
        }
        AllExplainedStay(store.hist, store.hist, |before|, from, store.failed > failures, store.failed > failed, world, attempts, now);
      } else {
        NothingTried(store.hist, from, store.failed > failed, world, now);
      }
      tried := tried[env := attempts];
    }
    assert order[..|order|] == order;
  }

  lemma {:induction false} NothingTried(h: History, from: nat, faulty: bool, world: World, now: int)
    ensures AsChecked(world, []) && AllExplained(h, from, faulty, world, [], now)
  {
  }

  // An environment that is not busy after a quiet survey of all active promotions is idle.
  lemma {:induction false} NotBusyIsIdle(db: DB, start: DB, listed: seq<Promotion>, seen: Seen, busy: set<EnvId>,
          ready: map<EnvId, seq<Promotion>>, now: int, env: EnvId)
    requires |seen| == |listed| < 500 && OldestActive(start, listed, 500) && WellKeyed(start)
    requires QuietSeen(db, start, listed, seen, now) && Exact(listed, seen, busy, ready)
    requires env in start.envs && env !in busy
    ensures !DeployingIn(db, env)
  {
    hide Advance, OldestFirst;
    if id :| id in db.promos && db.promos[id].env == env && db.promos[id].status == Deploying {
      DeploysOn(db, start, listed, seen, now, id);
      assert false;
    }
  }

  lemma {:induction false} DeploysOn(db: DB, start: DB, listed: seq<Promotion>, seen: Seen, now: int, id: PromotionId)
    requires |seen| == |listed| < 500 && OldestActive(start, listed, 500) && WellKeyed(start)
    requires QuietSeen(db, start, listed, seen, now) && HasStatus(db, id, Deploying) && db.promos[id].env in start.envs
    ensures exists i: nat :: StillDeploys(listed, seen, i) && listed[i].env == db.promos[id].env
  {
    hide Advance, OldestFirst;
    assert HasStatus(start, id, Deploying);
    assert start.promos[id] in listed;
    var i: nat :| i < |listed| && listed[i] == start.promos[id];
    assert listed[i].id == id;
    assert StillDeploys(listed, seen, i);
  }

  lemma {:induction false} CandidatesAreStartable(db: DB, now: int, ready: seq<Promotion>, env: EnvId, listed: seq<Promotion>)
    requires Vetted(db, now, ready) && Candidates(ready, env, listed, |listed|) && DistinctIds(listed) && !DeployingIn(db, env)
    ensures Startable(db, env, ready)
  {
    hide GateOpen, DeployingIn;
    forall i, j | 0 <= i < j < |ready| ensures ready[i].id != ready[j].id {
      assert Older(ready[i], ready[j]) && FromListed(ready[i], listed, |listed|) && FromListed(ready[j], listed, |listed|);
      var a: nat :| a < |listed| && SameAge(ready[i], listed[a]);
      var b: nat :| b < |listed| && SameAge(ready[j], listed[b]);
      assert ready[i].id == ready[j].id ==> a == b;
    }
  }

  lemma {:induction false} ReadyEnvsExist(db: DB, now: int, ready: map<EnvId, seq<Promotion>>, env: EnvId, listed: seq<Promotion>,
          seen: Seen, busy: set<EnvId>)
    requires AllVetted(db, now, ready) && env in ready && |seen| <= |listed| && Exact(listed, seen, busy, ready)
    requires Candidates(ready[env], env, listed, |listed|)
    ensures env in db.envs
  {
    hide GateOpen, OldestFirst;
    assert ready[env] != [] && ready[env][0].env == env;
  }

  lemma {:induction false} AllStartable(db: DB, start: DB, now: int, ready: map<EnvId, seq<Promotion>>, order: seq<EnvId>,
          listed: seq<Promotion>, seen: Seen, busy: set<EnvId>)
    requires |seen| == |listed| < 500 && OldestActive(start, listed, 500) && WellKeyed(start) && DistinctIds(listed)
    requires QuietSeen(db, start, listed, seen, now) && Exact(listed, seen, busy, ready) && db.envs == start.envs
    requires AllVetted(db, now, ready) && Sorted(ready, order, listed, |listed|)
    ensures forall e :: e in ready && e !in busy ==> Startable(db, e, ready[e])
  {
    hide QuietSeen, Candidates, Vetted, OldestActive, DeployingIn, Startable, Exact, WellKeyed, DistinctIds;
    forall e | e in ready && e !in busy ensures Startable(db, e, ready[e]) {
      ReadyEnvsExist(db, now, ready, e, listed, seen, busy);
      NotBusyIsIdle(db, start, listed, seen, busy, ready, now, e);
      CandidatesAreStartable(db, now, ready[e], e, listed);
    }
  }

  // The oldest active promotions, as they were at some moment of the pass.
  ghost predicate ListedDuring(h: History, from: nat, listed: seq<Promotion>) {
    exists at: nat :: DuringPass(from, at) && at < |h| && OldestActive(h[at], listed, 500)
  }

  // Expires the overdue promotions and lists the oldest active ones.
  method BeginPass(store: Store, now: int) returns (err: bool, listed: seq<Promotion>, ghost at: nat)
    requires store.Valid()
    modifies store
    ensures store.Valid() && old(store.hist) <= store.hist && old(store.ops) <= store.ops
    ensures store.failed >= old(store.failed) && (err ==> store.failed > old(store.failed))
    ensures old(store.faults) == [] ==> store.faults == [] && store.failed == old(store.failed)
    ensures store.failed == old(store.failed) ==> HappenedBetween(store.hist, |old(store.hist)|, ExpireOverdue(now), Done)
    ensures at == |store.hist| - 1 && OldestFirst(listed) && DistinctIds(listed)
    ensures if err then listed == [] else OldestActive(Now(store.hist), listed, 500) && WellKeyed(Now(store.hist))
    ensures forall i :: 0 <= i < |listed| ==> Snapshot(store.hist, listed[i], at)
    ensures old(store.Quiet()) ==>
              && store.Quiet() && Now(store.hist) == Apply(old(Now(store.hist)), ExpireOverdue(now)).0
              && Now(store.hist).envs == old(Now(store.hist)).envs
  {
    hide Run, Apply, OldestActive, OldestFirst, DistinctIds, WellKeyed, HappenedBetween, Older, IsActive;
    ghost var start, from := Now(store.hist), |store.hist|;
    ExpiryKeepsPolicies(start, now);
    var expireErr, reply := store.Perform(ExpireOverdue(now), Expire(now));
    ghost var expired := store.hist;
    err, listed, at := store.ListActive(500);
    SnapshotsDiffer(store.hist, listed, at);
    if !expireErr {
      ExpiryIsDone(expired, from, now, reply);
      HappenedStays(expired, store.hist, from, from, ExpireOverdue(now), Done);
    }
  }

  lemma {:induction false} SnapshotsDiffer(h: History, listed: seq<Promotion>, at: nat)
    requires OldestFirst(listed)
    requires forall i :: 0 <= i < |listed| ==> Snapshot(h, listed[i], at)
    ensures DistinctIds(listed)
  {
    hide OldestFirst, DistinctIds, Older, IsActive;
    ListedIdsDiffer(h, listed, at);
  }

  /**
   One pass of the background loop, with whatever the others do meanwhile. The overdue promotions expire
   and the oldest active ones are listed; every listed one of an environment that could be read is followed or
   advanced; the candidates of an
   environment are all that are then approved there, and it is busy when a listed deployment of it
   still runs. In every environment that was not busy the candidates are tried oldest first. Only one
   whose check does not pass is passed over; the search ends at the first that took the slot, going from
   approved to deploying while nothing else was deploying there, or whose claim the store refused,
   because at that moment it was no longer approved or the slot was held. A call that fails is the only
   other cause. In a quiet pass over all active promotions the oldest candidate whose check passes is
   started in every environment that is not busy.
   */
  method Tick(store: Store, world: World, now: int) returns (r: TickReport, ghost seen: Seen)
    requires store.Valid()
    modifies store
    ensures store.Valid() && old(store.hist) <= store.hist && old(store.ops) <= store.ops
    ensures store.failed >= old(store.failed)
    ensures old(store.faults) == [] ==> store.faults == [] && store.failed == old(store.failed)
    ensures store.failed == old(store.failed) ==> HappenedBetween(store.hist, |old(store.hist)|, ExpireOverdue(now), Done)
    ensures (store.failed > old(store.failed) && r == TickReport([], {}, map[], map[])) || ListedDuring(store.hist, |old(store.hist)|, r.listed)
    ensures |seen| == |r.listed| && Exact(r.listed, seen, r.busy, r.ready)
    ensures forall e, q :: (e in r.ready && q in r.ready[e]) <==> Some(q) in seen && q.status == Approved && q.env == e
    ensures AllFollowed(store.hist, |old(store.hist)|, store.failed > old(store.failed), world, r.listed, seen, now)
    ensures forall e :: e in r.ready ==> Candidates(r.ready[e], e, r.listed, |r.listed|)
    ensures r.tried.Keys == r.ready.Keys
    ensures forall e :: e in r.tried ==> if e in r.busy then r.tried[e] == [] else StopsAtFirst(r.ready[e], r.tried[e])
    ensures forall e :: e in r.tried ==> AllExplained(store.hist, |old(store.hist)|, store.failed > old(store.failed), world, r.tried[e], now)
    ensures old(store.Quiet()) ==>
              && OldestActive(Apply(Now(old(store.hist)), ExpireOverdue(now)).0, r.listed, 500)
              && SeenExactly(old(Now(store.hist)), r.listed, seen, now)
              && (forall e :: e in r.ready ==> GatesOpen(old(Now(store.hist)), now, r.ready[e]))
              && (|r.listed| < 500 ==> forall e :: e in r.tried ==> AsChecked(world, r.tried[e]))
  {
    hide *;
    ghost var start, from, failed := Now(store.hist), |store.hist|, store.failed;
    QuietHasNoFaults(store);
    var err, listed, at := BeginPass(store, now);
    ghost var began, failures := store.hist, store.failed;
    if err {
      NothingSeen(store.hist, from, store.failed > failed, world, [], at, now);
      ExactMeans([], [], {}, map[]);
      return TickReport([], {}, map[], map[]), [];
    }
    var busy, ready, order, seen' := Survey(store, world, listed, at, now);
    SortedIsCandidates(ready, order, listed, |listed|);
    ExactMeans(listed, seen', busy, ready);
    ghost var surveyed, sofar := store.hist, store.failed;
    if old(store.Quiet()) {
      QuietSurvey(start, Now(began), Now(surveyed), now, listed, seen', busy, ready, order);
    }
    var tried := StartNext(store, world, busy, ready, order, now);
    r := TickReport(listed, busy, ready, tried);
    seen := seen';
    forall e | e in tried ensures AllExplained(store.hist, from, store.failed > failed, world, tried[e], now) {
      AllExplainedStay(store.hist, store.hist, |surveyed|, from, store.failed > sofar, store.failed > failed, world, tried[e], now);
    }
    AllFollowedStay(surveyed, store.hist, |began|, from, sofar > failures, store.failed > failed, world, listed, seen, now);
    ListedStays(began, store.hist, from, listed);
    if failures == failed {
      HappenedStays(began, store.hist, from, from, ExpireOverdue(now), Done);
    }
  }

  lemma QuietHasNoFaults(store: Store)
    ensures store.Quiet() ==> store.faults == []
  {
  }

  lemma {:induction false} SortedIsCandidates(ready: map<EnvId, seq<Promotion>>, order: seq<EnvId>, listed: seq<Promotion>, n: nat)
    requires n <= |listed| && Sorted(ready, order, listed, n)
    ensures forall e :: e in ready <==> e in order
    ensures forall i, j :: 0 <= i < j < |order| ==> order[i] != order[j]
    ensures forall e :: e in ready ==> Candidates(ready[e], e, listed, n)
  {
    hide Candidates;
  }

  // What a quiet survey of start, begun at `began`, gives the second half.
  lemma {:induction false} QuietSurvey(start: DB, began: DB, db: DB, now: int, listed: seq<Promotion>, seen: Seen, busy: set<EnvId>,
          ready: map<EnvId, seq<Promotion>>, order: seq<EnvId>)
    requires began.envs == start.envs && db.envs == began.envs && |seen| == |listed| && OldestFirst(listed) && DistinctIds(listed)
    requires OldestActive(began, listed, 500) && WellKeyed(began) && AllVetted(db, now, ready)
    requires QuietSeen(db, began, listed, seen, now) && Exact(listed, seen, busy, ready) && Sorted(ready, order, listed, |listed|)
    ensures SeenExactly(start, listed, seen, now)
    ensures forall e :: e in ready ==> GatesOpen(start, now, ready[e])
    ensures |listed| < 500 ==> forall e :: e in ready && e !in busy ==> Startable(db, e, ready[e])
  {
    hide Candidates, OldestActive, Vetted, GatesOpen, Exact, SeenExactly, NoNewDeploys, Startable, WellKeyed, Sorted;
    forall e | e in ready ensures GatesOpen(start, now, ready[e]) {
      VettedOpens(db, start, now, ready[e]);
    }
    SamePoliciesSeen(start, began, listed, seen, now);
    if |listed| < 500 {
      AllStartable(db, began, now, ready, order, listed, seen, busy);
    }
  }

  lemma {:induction false} ExpiryIsDone(h: History, from: nat, now: int, reply: Reply)
    requires HappenedBetween(h, from, ExpireOverdue(now), reply)
    ensures HappenedBetween(h, from, ExpireOverdue(now), Done)
  {
  }

  lemma {:induction false} ListedStays(h: History, later: History, from: nat, listed: seq<Promotion>)
    requires h <= later && from <= |h| && OldestActive(Now(h), listed, 500)
    ensures ListedDuring(later, from, listed)
  {
    hide OldestActive;
    assert later[|h| - 1] == Now(h) && DuringPass(from, |h| - 1);
  }

  lemma {:induction false} SamePoliciesSeen(a: DB, b: DB, listed: seq<Promotion>, seen: Seen, now: int)
    requires |seen| <= |listed| && a.envs == b.envs
    ensures SeenExactly(b, listed, seen, now) ==> SeenExactly(a, listed, seen, now)
  {
    hide Advance;
  }

  // Under the policies of db, the gate of every candidate is open at this instant.
  ghost predicate GatesOpen(db: DB, now: int, ready: seq<Promotion>) {
    forall i :: 0 <= i < |ready| ==>
                  && ready[i].env in db.envs && IsOpen(db.envs[ready[i].env].windows, now)
                  && (ready[i].quorumAt.Some? ==> ready[i].quorumAt.value + db.envs[ready[i].env].waitMinutes * 60_000_000_000 <= now)
  }

  lemma VettedOpens(db: DB, start: DB, now: int, ready: seq<Promotion>)
    requires Vetted(db, now, ready) && db.envs == start.envs
    ensures GatesOpen(start, now, ready)
  {
    hide IsOpen;
  }

  lemma ExpiryKeepsPolicies(db: DB, now: int)
    ensures Apply(db, ExpireOverdue(now)).0.envs == db.envs
  {
  }

  lemma ListedIdsDiffer(h: History, listed: seq<Promotion>, at: nat)
    requires OldestFirst(listed)
    requires forall i :: 0 <= i < |listed| ==> ReadPromotion(h, listed[i].id, at) && listed[i] == h[at].promos[listed[i].id]
    ensures DistinctIds(listed)
  {
    forall i, j | 0 <= i < j < |listed| ensures listed[i].id != listed[j].id {
      assert Older(listed[i], listed[j]);
    }
  }
}
