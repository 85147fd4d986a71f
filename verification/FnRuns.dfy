/**
 Every interleaving of the function run queue (internal/fn/service.go, lambdarun.go): nodes that
 claim runs, backends that dispatch Lambda runs and mint a token for each batch, reports,
 cancellations, the reaper and Tick loops, at the granularity of single store calls.
 */
module FnRuns {
  import opened Option
  import opened FnStore

  // How far the process that started a run has come. A claim mints one token; a Lambda run checks that
  // it still runs, revokes and mints before each batch.
  datatype Phase = Claimed | Ready | Checked | Wiped | Settled

  // `known` keeps every function ever deployed, as deployed. `owed` holds the firings of crons, by function
  // and start, whose Tick has not enqueued its run.
  datatype World = World(db: DB, known: map<FnId, Function>, phase: map<RunId, Phase>, owed: set<(FnId, int)>)

  datatype Op =
    | Deploy(f: Function)
    | Remove(fn: FnId)
    // By the Tick whose firing started at `serves`, or by hand.
    | Enqueue(id: RunId, fn: FnId, now: int, serves: Option<int>)
    | TryStart(id: RunId, node: string, now: int)
    | MintClaim(id: RunId, hash: string, now: int)
    | ClaimFails(id: RunId, now: int)
    | CheckRunning(id: RunId)
    | Wipe(id: RunId, now: int)
    | MintBatch(id: RunId, hash: string, now: int)
    | Finish(id: RunId, report: Report)
    | Revoke(id: RunId, now: int)
    | Cron(fn: FnId, last: Option<int>, now: int)

  // What Deploy creates: the first firing of a cron is its next scheduled instant, not a catch-up.
  predicate ValidFunction(f: Function) {
    f.enabled && (f.cron.Some? ==> f.lastCronAt.Some?)
  }

  function NewRun(f: Function, id: RunId, now: int): Run {
    Run(id, f.id, Queued, now, f.scopes, "", None, None, None, 0, 0, "")
  }

  function ClaimExpiry(f: Function, now: int): int {
    now + f.timeoutSeconds * 1000000000 + TOKEN_GRACE
  }

  function CronBase(f: Function, last: Option<int>): int {
    if last.Some? then last.value else f.createdAt
  }

  // Tick does not go on when the next instant is later than now. The zero time never is.
  predicate Due(f: Function, last: Option<int>, now: int) {
    f.cron.Some? && var next := f.cron.value(CronBase(f, last)); next.None? || next.value <= now
  }

  predicate InPhase(w: World, id: RunId, p: Phase) {
    id in w.phase && w.phase[id] == p && id in w.db.runs && w.db.runs[id].fn in w.known
  }

  predicate Legal(w: World, op: Op) {
    match op
    case Deploy(f) => f.id !in w.known && ValidFunction(f)
    case Remove(_) => true
    case Enqueue(id, f, _, serves) => f in w.known && id !in w.db.runs && (serves.Some? ==> (f, serves.value) in w.owed)
    case TryStart(_, _, _) => true
    case MintClaim(id, hash, _) => InPhase(w, id, Claimed) && hash !in w.db.tokens
    case ClaimFails(id, _) => InPhase(w, id, Claimed)
    case CheckRunning(id) => InPhase(w, id, Ready)
    case Wipe(id, _) => InPhase(w, id, Checked)
    case MintBatch(id, hash, _) => InPhase(w, id, Wiped) && hash !in w.db.tokens
    case Finish(_, r) => Terminal(r.status)
    case Revoke(_, _) => true
    case Cron(f, last, now) => f in w.known && Due(w.known[f], last, now)
  }

  function ClaimToken(w: World, id: RunId, now: int): Token
    requires id in w.db.runs && w.db.runs[id].fn in w.known
  {
    Token(id, w.db.runs[id].scopes, ClaimExpiry(w.known[w.db.runs[id].fn], now), None)
  }

  function BatchToken(w: World, id: RunId, now: int): Token
    requires id in w.db.runs
  {
    Token(id, w.db.runs[id].scopes, now + MAX_INVOKE + TOKEN_GRACE, None)
  }

  const MINT_FAILED := "could not mint run token"

  function Effect(w: World, op: Op): World
    requires Legal(w, op)
  {
    match op
    case Deploy(f) =>
      if NameTaken(w.db, f) then w
      else w.(db := w.db.(fns := w.db.fns[f.id := f]), known := w.known[f.id := f])
    case Remove(f) => w.(db := w.db.(fns := w.db.fns - {f}))
    case Enqueue(id, f, now, serves) =>
      w.(db := w.db.(runs := w.db.runs[id := NewRun(w.known[f], id, now)]), owed := w.owed - Owing(f, serves))
    case TryStart(id, node, now) =>
      if !CanStart(w.db, id) then w
      else
        w.(db := Started(w.db, id, node, now),
           phase := w.phase[id := if w.db.fns[w.db.runs[id].fn].lambda then Ready else Claimed])
    case MintClaim(id, hash, now) =>
      w.(db := WithToken(w.db, hash, ClaimToken(w, id, now)), phase := w.phase[id := Settled])
    case ClaimFails(id, now) =>
      w.(db := Finished(w.db, id, Report(Failed, None, 0, 0, MINT_FAILED, now)), phase := w.phase[id := Settled])
    case CheckRunning(id) => w.(phase := w.phase[id := if w.db.runs[id].status == Running then Checked else Settled])
    case Wipe(id, now) => w.(db := Revoked(w.db, id, now), phase := w.phase[id := Wiped])
    case MintBatch(id, hash, now) =>
      w.(db := WithToken(w.db, hash, BatchToken(w, id, now)), phase := w.phase[id := Ready])
    case Finish(id, r) => w.(db := Finished(w.db, id, r))
    case Revoke(id, now) => w.(db := Revoked(w.db, id, now))
    case Cron(f, last, now) =>
      if CanSetCron(w.db, f, last) then w.(db := CronSet(w.db, f, now), owed := w.owed + Owing(f, last)) else w
  }

  // The firing of f that starts at `from`, if there is one.
  function Owing(f: FnId, from: Option<int>): set<(FnId, int)> {
    if from.Some? then {(f, from.value)} else {}
  }

  function Step(w: World, op: Op): World {
    if Legal(w, op) then Effect(w, op) else w
  }

  const EMPTY := World(DB(map[], map[], map[]), map[], map[], {})

  ghost function RunAll(ops: seq<Op>): World {
    if ops == [] then EMPTY else Step(RunAll(ops[..|ops| - 1]), ops[|ops| - 1])
  }

  // ---- what every step keeps -------------------------------------------------------------------------

  function Fixed(f: Function): Function {
    f.(lastCronAt := None)
  }

  ghost predicate SoundFunctions(w: World) {
    && (forall f :: f in w.known ==> w.known[f].id == f && ValidFunction(w.known[f]))
    && forall f :: f in w.db.fns ==> && f in w.known && Fixed(w.db.fns[f]) == Fixed(w.known[f])
                                     && (w.known[f].cron.Some? ==> w.db.fns[f].lastCronAt.Some?)
  }

  // A run carries the scopes its function declared; a run that is running was started by some process.
  ghost predicate SoundRuns(w: World) {
    && (forall id :: id in w.db.runs ==> && w.db.runs[id].id == id && w.db.runs[id].fn in w.known
                                         && w.db.runs[id].scopes == w.known[w.db.runs[id].fn].scopes)
    && (forall id :: id in w.phase ==> id in w.db.runs && w.db.runs[id].status != Queued)
    && forall id :: id in w.db.runs && w.db.runs[id].status == Running ==> id in w.phase
  }

  predicate Unrevoked(w: World, h: string, id: RunId) {
    h in w.db.tokens && w.db.tokens[h].run == id && w.db.tokens[h].revokedAt == None
  }

  // Tokens carry the scopes of a run that was started, and no run has two unrevoked ones.
  ghost predicate SoundTokens(w: World) {
    && (forall h :: h in w.db.tokens ==> && w.db.tokens[h].run in w.phase && w.db.tokens[h].run in w.db.runs
                                         && w.db.tokens[h].scopes == w.db.runs[w.db.tokens[h].run].scopes
                                         && w.phase[w.db.tokens[h].run] != Claimed)
    && (forall h, id :: Unrevoked(w, h, id) ==> id in w.phase && w.phase[id] != Wiped)
    && forall h, g, id :: Unrevoked(w, h, id) && Unrevoked(w, g, id) ==> h == g
  }

  ghost predicate WithinLimits(w: World) {
    forall f :: f in w.known ==> RunningOf(w.db, f) == {} || |RunningOf(w.db, f)| <= w.known[f].maxConcurrency
  }

  ghost predicate Good(w: World) {
    SoundFunctions(w) && SoundRuns(w) && SoundTokens(w) && WithinLimits(w)
  }

  function Rank(s: Status): nat {
    if s == Queued then 0 else if s == Running then 1 else 2
  }

  // What one world may have become later.
  ghost predicate Later(a: World, b: World) {
    && (forall f :: f in a.known ==> f in b.known && b.known[f] == a.known[f])
    && (forall id :: id in a.db.runs ==> && id in b.db.runs && Rank(a.db.runs[id].status) <= Rank(b.db.runs[id].status)
                                         && b.db.runs[id].fn == a.db.runs[id].fn && b.db.runs[id].scopes == a.db.runs[id].scopes
                                         && (a.db.runs[id].status != Queued ==> b.db.runs[id].startedAt == a.db.runs[id].startedAt))
    && (forall h :: h in a.db.tokens ==> && h in b.db.tokens
                                         && b.db.tokens[h].(revokedAt := None) == a.db.tokens[h].(revokedAt := None)
                                         && (a.db.tokens[h].revokedAt.Some? ==> b.db.tokens[h] == a.db.tokens[h]))
    && forall id :: id in a.phase ==> id in b.phase
  }

  lemma StepKeepsFunctions(w: World, op: Op)
    requires SoundFunctions(w) && Legal(w, op)
    ensures SoundFunctions(Effect(w, op))
  {
    hide CanStart, NameTaken, Due, Revoked;
    if op.Revoke? || op.Wipe? {
      RevokedRevokes(w.db, op.id, op.now);
    }
  }

  lemma RevokedRevokes(db: DB, run: RunId, now: int)
    ensures Revoked(db, run, now).fns == db.fns && Revoked(db, run, now).runs == db.runs
    ensures Revoked(db, run, now).tokens.Keys == db.tokens.Keys
    ensures forall h :: h in db.tokens ==> Revoked(db, run, now).tokens[h] == RevokedIfOf(db.tokens[h], run, now)
  {
  }

  // The steps that change a run.
  lemma RunKeepsRuns(w: World, id: RunId, r: Run, p: map<RunId, Phase>)
    requires SoundRuns(w) && id in w.db.runs && r.id == id && r.fn == w.db.runs[id].fn && r.scopes == w.db.runs[id].scopes
    requires r.status != Queued && (r.status == Running ==> id in p) && w.phase.Keys <= p.Keys <= w.phase.Keys + {id}
    ensures SoundRuns(w.(db := w.db.(runs := w.db.runs[id := r]), phase := p))
  {
  }

  lemma RunGoesOn(w: World, id: RunId, r: Run, p: map<RunId, Phase>)
    requires id in w.db.runs && r.fn == w.db.runs[id].fn && r.scopes == w.db.runs[id].scopes && w.phase.Keys <= p.Keys
    requires Rank(w.db.runs[id].status) <= Rank(r.status) && (w.db.runs[id].status != Queued ==> r.startedAt == w.db.runs[id].startedAt)
    ensures Later(w, w.(db := w.db.(runs := w.db.runs[id := r]), phase := p))
  {
  }

  predicate ChangesARun(w: World, op: Op) {
    (op.TryStart? && CanStart(w.db, op.id)) || op.ClaimFails? || (op.Finish? && op.id in w.db.runs)
  }

  // A finished run that claims to be running would have to be in a phase; reports are of ends.
  lemma ChangedRun(w: World, op: Op)
    requires SoundRuns(w) && Legal(w, op) && ChangesARun(w, op)
    ensures SoundRuns(Effect(w, op)) && Later(w, Effect(w, op))
  {
    hide RunningOf, SoundRuns, Later, ValidFunction;
    var v := Effect(w, op);
    assert v == w.(db := w.db.(runs := w.db.runs[op.id := v.db.runs[op.id]]), phase := v.phase);
    assert w.db.runs[op.id].id == op.id by { RunIds(w); }
    RunKeepsRuns(w, op.id, v.db.runs[op.id], v.phase);
    RunGoesOn(w, op.id, v.db.runs[op.id], v.phase);
  }

  lemma RunIds(w: World)
    requires SoundRuns(w)
    ensures forall id :: id in w.db.runs ==> w.db.runs[id].id == id
  {
  }

  lemma StepKeepsRuns(w: World, op: Op)
    requires SoundFunctions(w) && SoundRuns(w) && Legal(w, op)
    ensures SoundRuns(Effect(w, op))
  {
    hide ValidFunction, NameTaken, Due, RunningOf, Revoked, CanStart;
    if ChangesARun(w, op) {
      ChangedRun(w, op);
    } else if op.Revoke? || op.Wipe? {
      RevokedRevokes(w.db, op.id, op.now);
    }
  }

  lemma PutKeepsTokens(w: World, hash: string, t: Token, p: Phase)
    requires SoundRuns(w) && SoundTokens(w) && hash !in w.db.tokens
    requires InPhase(w, t.run, Claimed) || InPhase(w, t.run, Wiped)
    requires t.revokedAt == None && t.scopes == w.db.runs[t.run].scopes && p != Claimed && p != Wiped
    ensures SoundTokens(w.(db := WithToken(w.db, hash, t), phase := w.phase[t.run := p]))
  {
    var v := w.(db := WithToken(w.db, hash, t), phase := w.phase[t.run := p]);
    assert forall h :: !Unrevoked(w, h, t.run);
    forall h, id | Unrevoked(v, h, id)
      ensures (h == hash && id == t.run) || (h != hash && Unrevoked(w, h, id) && id != t.run)
    {
      assert h != hash ==> Unrevoked(w, h, id);
    }
  }

  lemma RevokeKeepsTokens(w: World, id: RunId, now: int)
    requires SoundTokens(w)
    ensures SoundTokens(w.(db := Revoked(w.db, id, now)))
    ensures InPhase(w, id, Checked) ==> SoundTokens(w.(db := Revoked(w.db, id, now), phase := w.phase[id := Wiped]))
  {
    hide Revoked;
    RevokedRevokes(w.db, id, now);
    var v := w.(db := Revoked(w.db, id, now));
    assert forall h, r :: Unrevoked(v, h, r) ==> Unrevoked(w, h, r) && r != id;
    var x := v.(phase := w.phase[id := Wiped]);
    assert forall h, r :: Unrevoked(x, h, r) ==> Unrevoked(w, h, r) && r != id;
  }

  // Steps that leave every token alone.
  lemma OthersKeepTokens(w: World, v: World)
    requires SoundRuns(w) && SoundTokens(w) && v.db.tokens == w.db.tokens && Later(w, v)
    requires forall id :: id in w.phase ==> id in v.phase && (w.phase[id] != Claimed ==> v.phase[id] != Claimed)
                                            && (v.phase[id] == Wiped ==> w.phase[id] == Wiped)
    ensures SoundTokens(v)
  {
    assert forall h, id :: Unrevoked(v, h, id) ==> Unrevoked(w, h, id);
  }

  lemma StepKeepsTokens(w: World, op: Op)
    requires SoundRuns(w) && SoundTokens(w) && Legal(w, op)
    ensures SoundTokens(Effect(w, op))
  {
    if op.MintClaim? {
      PutKeepsTokens(w, op.hash, ClaimToken(w, op.id, op.now), Settled);
    } else if op.MintBatch? {
      PutKeepsTokens(w, op.hash, BatchToken(w, op.id, op.now), Ready);
    } else if op.Wipe? || op.Revoke? {
      RevokeKeepsTokens(w, op.id, op.now);
    } else {
      StepGoesOn(w, op);
      PhasesOfOthers(w, op);
      hide SoundTokens, Effect, Later, SoundRuns;
      OthersKeepTokens(w, Effect(w, op));
    }
  }

  lemma PhasesOfOthers(w: World, op: Op)
    requires SoundRuns(w) && Legal(w, op) && !op.MintClaim? && !op.MintBatch? && !op.Wipe? && !op.Revoke?
    ensures var v := Effect(w, op);
            && v.db.tokens == w.db.tokens
            && forall id :: id in w.phase ==> id in v.phase && (w.phase[id] != Claimed ==> v.phase[id] != Claimed)
                                              && (v.phase[id] == Wiped ==> w.phase[id] == Wiped)
  {
    hide ValidFunction, NameTaken, Due, RunningOf;
  }

  lemma RevokeGoesOn(w: World, id: RunId, now: int, p: map<RunId, Phase>)
    requires w.phase.Keys <= p.Keys
    ensures Later(w, w.(db := Revoked(w.db, id, now), phase := p))
  {
    RevokedRevokes(w.db, id, now);
    hide Revoked;
  }

  lemma StepGoesOn(w: World, op: Op)
    requires SoundRuns(w) && Legal(w, op)
    ensures Later(w, Effect(w, op))
  {
    if ChangesARun(w, op) {
      ChangedRun(w, op);
    } else if op.Revoke? || op.Wipe? {
      RevokeGoesOn(w, op.id, op.now, Effect(w, op).phase);
    } else {
      OthersGoOn(w, op);
    }
  }

  lemma OthersGoOn(w: World, op: Op)
    requires Legal(w, op) && !ChangesARun(w, op) && !op.Revoke? && !op.Wipe?
    ensures Later(w, Effect(w, op))
  {
    hide ValidFunction, NameTaken, Due, RunningOf, CanStart;
  }

  lemma SameRunsSameRunning(a: DB, b: DB, f: FnId)
    requires forall id :: (id in b.runs && b.runs[id].fn == f && b.runs[id].status == Running) ==>
                            id in a.runs && a.runs[id].fn == f && a.runs[id].status == Running
    ensures |RunningOf(b, f)| <= |RunningOf(a, f)| && (RunningOf(a, f) == {} ==> RunningOf(b, f) == {})
  {
    assert RunningOf(b, f) <= RunningOf(a, f);
    Subset(RunningOf(b, f), RunningOf(a, f));
  }

  lemma {:induction false} Subset(a: set<nat>, b: set<nat>)
    requires a <= b
    ensures |a| <= |b|
  {
    if a != {} {
      var x :| x in a;
      Subset(a - {x}, b - {x});
    }
  }

  lemma StartAddsOne(db: DB, id: RunId, node: string, now: int, f: FnId)
    requires id in db.runs && db.runs[id].status == Queued
    ensures RunningOf(Started(db, id, node, now), f) == RunningOf(db, f) + if db.runs[id].fn == f then {id} else {}
  {
  }

  lemma StartKeepsLimits(w: World, id: RunId, node: string, now: int, f: FnId)
    requires SoundFunctions(w) && WithinLimits(w) && CanStart(w.db, id) && f in w.known
    ensures var running := RunningOf(Started(w.db, id, node, now), f);
            running == {} || |running| <= w.known[f].maxConcurrency
  {
    hide Started, RunningOf;
    StartAddsOne(w.db, id, node, now, f);
    assert Fixed(w.db.fns[w.db.runs[id].fn]) == Fixed(w.known[w.db.runs[id].fn]);
  }

  // No other step makes a run run.
  lemma OthersStartNothing(w: World, op: Op, id: RunId)
    requires Legal(w, op) && (op.TryStart? ==> !CanStart(w.db, op.id))
    requires var v := Effect(w, op); id in v.db.runs && v.db.runs[id].status == Running
    ensures id in w.db.runs && w.db.runs[id].status == Running && Effect(w, op).db.runs[id].fn == w.db.runs[id].fn
  {
    hide ValidFunction, NameTaken, Due, CanStart, Revoked;
    if op.Revoke? || op.Wipe? {
      RevokedRevokes(w.db, op.id, op.now);
    }
  }

  lemma StepKeepsLimits(w: World, op: Op)
    requires SoundFunctions(w) && SoundRuns(w) && WithinLimits(w) && Legal(w, op)
    ensures WithinLimits(Effect(w, op))
  {
    var v := Effect(w, op);
    forall f | f in v.known ensures RunningOf(v.db, f) == {} || |RunningOf(v.db, f)| <= v.known[f].maxConcurrency {
      if op.TryStart? && CanStart(w.db, op.id) {
        StartKeepsLimits(w, op.id, op.node, op.now, f);
      } else {
        OtherStepsKeepLimit(w, op, f);
      }
    }
  }

  lemma OtherStepsKeepLimit(w: World, op: Op, f: FnId)
    requires SoundRuns(w) && WithinLimits(w) && Legal(w, op) && (op.TryStart? ==> !CanStart(w.db, op.id))
    requires f in Effect(w, op).known
    ensures RunningOf(Effect(w, op).db, f) == {} || |RunningOf(Effect(w, op).db, f)| <= Effect(w, op).known[f].maxConcurrency
  {
    hide RunningOf, ValidFunction, Due, NameTaken, Revoked, CanStart, SoundRuns;
    forall id | id in Effect(w, op).db.runs && Effect(w, op).db.runs[id].status == Running
      ensures id in w.db.runs && w.db.runs[id].status == Running && Effect(w, op).db.runs[id].fn == w.db.runs[id].fn
    {
      OthersStartNothing(w, op, id);
    }
    SameRunsSameRunning(w.db, Effect(w, op).db, f);
    if f !in w.known {
      NeverRun(w, f);
    }
  }

  lemma NeverRun(w: World, f: FnId)
    requires SoundRuns(w) && f !in w.known
    ensures RunningOf(w.db, f) == {}
  {
  }

  lemma StepIsGood(w: World, op: Op)
    requires Good(w)
    ensures Good(Step(w, op)) && Later(w, Step(w, op))
  {
    hide SoundFunctions, SoundRuns, SoundTokens, WithinLimits, Effect, Legal;
    if Legal(w, op) {
      StepKeepsFunctions(w, op);
      StepKeepsRuns(w, op);
      StepKeepsTokens(w, op);
      StepKeepsLimits(w, op);
      StepGoesOn(w, op);
    }
  }

  lemma {:induction false} EveryRunIsGood(ops: seq<Op>)
    ensures Good(RunAll(ops))
  {
    if ops != [] {
      EveryRunIsGood(ops[..|ops| - 1]);
      StepIsGood(RunAll(ops[..|ops| - 1]), ops[|ops| - 1]);
    }
  }

  lemma {:induction false} TimePasses(before: seq<Op>, after: seq<Op>)
    requires before <= after
    ensures Later(RunAll(before), RunAll(after))
    decreases |after|
  {
    if before == after {
    } else {
      var prev := after[..|after| - 1];
      TimePasses(before, prev);
      EveryRunIsGood(prev);
      StepIsGood(RunAll(prev), after[|after| - 1]);
      LaterIsTransitive(RunAll(before), RunAll(prev), RunAll(after));
    }
  }

  lemma LaterIsTransitive(a: World, b: World, c: World)
    requires Later(a, b) && Later(b, c)
    ensures Later(a, c)
  {
  }
}
