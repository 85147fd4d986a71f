/**
 One backend instance at work on the function store, with the store calls of every other node and
 backend in between (internal/fn/service.go, lambdarun.go).
 */
module FnBackend {
  import opened Option
  import opened FnStore
  import opened FnRuns
  import opened FnSafety

  // The steps only the process that started a run takes.
  predicate OwnersStep(op: Op) {
    op.MintClaim? || op.ClaimFails? || op.CheckRunning? || op.Wipe? || op.MintBatch?
  }

  // Oldest first.
  ghost predicate InOrder(queue: seq<Run>) {
    forall i, j :: 0 <= i < j < |queue| ==> queue[i].queuedAt <= queue[j].queuedAt
  }

  // The oldest queued runs of db, at most `limit` of them.
  ghost predicate OldestQueued(db: DB, queue: seq<Run>, limit: nat) {
    && InOrder(queue) && |queue| <= limit
    && (forall i :: 0 <= i < |queue| ==> queue[i].id in db.runs && db.runs[queue[i].id] == queue[i] && queue[i].status == Queued)
    && forall id :: id in db.runs && db.runs[id].status == Queued && db.runs[id] !in queue ==>
                      |queue| == limit && forall i :: 0 <= i < |queue| ==> queue[i].queuedAt <= db.runs[id].queuedAt
  }

  ghost predicate IsOldest(db: DB, ids: set<RunId>, m: RunId) {
    ids <= db.runs.Keys && m in ids && forall x :: x in ids ==> db.runs[m].queuedAt <= db.runs[x].queuedAt
  }

  lemma {:induction false} OldestExists(db: DB, ids: set<RunId>) returns (m: RunId)
    requires ids != {} && ids <= db.runs.Keys
    ensures IsOldest(db, ids, m)
  {
    m :| m in ids;
    var rest := ids - {m};
    if rest == {} {
      assert forall x :: x in ids ==> x == m || x in rest;
    } else {
      var n := OldestExists(db, rest);
      var first := m;
      m := if db.runs[n].queuedAt < db.runs[m].queuedAt then n else m;
      forall x | x in ids ensures db.runs[m].queuedAt <= db.runs[x].queuedAt {
        assert x == first || x in rest;
      }
    }
  }

  lemma {:induction false} LongerThanAll(hashes: set<string>) returns (n: nat)
    ensures forall h :: h in hashes ==> |h| < n
  {
    n := 0;
    if hashes != {} {
      var h :| h in hashes;
      var m := LongerThanAll(hashes - {h});
      n := m + |h| + 1;
      forall g | g in hashes ensures |g| < n {
        assert g == h || g in hashes - {h};
      }
    }
  }

  lemma FreshHashExists(hashes: set<string>)
    ensures exists h :: h !in hashes
  {
    var n := LongerThanAll(hashes);
    var h := seq(n, i => 'x');
    assert h !in hashes;
  }

  lemma {:induction false} GreaterThanAll(ids: set<nat>) returns (n: nat)
    ensures forall id :: id in ids ==> id < n
  {
    n := 0;
    if ids != {} {
      var x :| x in ids;
      var m := GreaterThanAll(ids - {x});
      n := if m > x then m else x + 1;
      forall y | y in ids ensures y < n {
        assert y == x || y in ids - {x};
      }
    }
  }

  lemma FreshIdExists(ids: set<nat>)
    ensures exists id: nat :: id !in ids
  {
    var n := GreaterThanAll(ids);
    assert n !in ids;
  }

  // The steps that are legal whatever the others did, for a backend that started the runs in `mine`.
  predicate Allowed(w: World, mine: set<RunId>, op: Op) {
    match op
    case TryStart(_, _, _) => true
    case Revoke(_, _) => true
    case Finish(_, r) => Terminal(r.status)
    case Cron(f, last, now) => f in w.known && Due(w.known[f], last, now)
    case ClaimFails(id, _) => id in mine && InPhase(w, id, Claimed)
    case CheckRunning(id) => id in mine && InPhase(w, id, Ready)
    case Wipe(id, _) => id in mine && InPhase(w, id, Checked)
    case MintClaim(id, _, _) => id in mine && InPhase(w, id, Claimed)
    case MintBatch(id, _, _) => id in mine && InPhase(w, id, Wiped)
    case _ => false
  }

  // The random value a step draws is one that was never drawn before.
  predicate Unused(w: World, op: Op) {
    op.MintClaim? || op.MintBatch? ==> op.hash !in w.db.tokens
  }

  lemma AllowedOwn(w: World, mine: set<RunId>, id: RunId, now: int)
    requires id in mine
    ensures InPhase(w, id, Ready) ==> Allowed(w, mine, CheckRunning(id))
    ensures InPhase(w, id, Checked) ==> Allowed(w, mine, Wipe(id, now))
    ensures InPhase(w, id, Claimed) ==> Allowed(w, mine, ClaimFails(id, now))
  {
  }

  lemma AllowedLater(a: World, b: World, mine: set<RunId>, op: Op)
    requires Allowed(a, mine, op) && Later(a, b) && Good(b) && mine <= a.phase.Keys && mine <= b.phase.Keys
    requires forall id :: id in mine ==> b.phase[id] == a.phase[id]
    ensures Allowed(b, mine, op) && (Unused(b, op) ==> Legal(b, op))
  {
    hide Due, WithinLimits, SoundTokens, SoundFunctions;
  }

  predicate OwnStepOf(op: Op, mine: set<RunId>) {
    OwnersStep(op) && op.id in mine
  }

  lemma OthersKeepPhases(w: World, op: Op, mine: set<RunId>)
    requires Good(w) && mine <= w.phase.Keys && !OwnStepOf(op, mine)
    ensures mine <= Step(w, op).phase.Keys
    ensures forall id :: id in mine ==> Step(w, op).phase[id] == w.phase[id]
  {
    hide NameTaken, Due, RunningOf, Revoked, SoundFunctions, SoundTokens, WithinLimits;
  }

  // The enqueueing that answers one of these firings.
  predicate Answers(op: Op, firings: set<(FnId, int)>) {
    op.Enqueue? && op.serves.Some? && (op.fn, op.serves.value) in firings
  }

  lemma OthersKeepOwed(w: World, op: Op, firings: set<(FnId, int)>)
    requires !Answers(op, firings)
    ensures StillOwed(w, Step(w, op), firings)
  {
    hide NameTaken, Due, RunningOf, Revoked, CanStart;
  }

  // What was owed for these firings still is.
  ghost predicate StillOwed(w: World, v: World, firings: set<(FnId, int)>) {
    firings * w.owed <= v.owed
  }

  class Backend {
    var w: World
    // The runs this backend started; only it takes the owner's steps for them.
    var mine: set<RunId>
    // The crons this backend fired; only it enqueues their runs.
    var firings: set<(FnId, int)>
    var others: seq<seq<Op>>
    // Which of the next PutToken calls fail.
    var faults: seq<bool>
    // How many of them have failed so far.
    ghost var failed: nat
    ghost var ops: seq<Op>

    ghost predicate Valid()
      reads this
    {
      w == RunAll(ops) && mine <= w.phase.Keys
    }

    // Nobody else is at work and no call fails.
    ghost predicate Quiet()
      reads this
    {
      others == [] && faults == []
    }

    // The others take their turn. They leave the owner's steps of this backend's runs and firings to it.
    method Interfere()
      requires Valid()
      modifies this`w, this`others, this`ops
      ensures Valid() && old(ops) <= ops && Later(old(w), w) && Good(w)
      ensures forall id :: id in mine ==> w.phase[id] == old(w).phase[id]
      ensures StillOwed(old(w), w, firings)
      ensures old(others) == [] ==> others == [] && ops == old(ops) && w == old(w)
    {
      hide Later, Legal, Effect, Good, RunAll, OwnersStep, Answers;
      if |others| > 0 {
        var batch := others[0];
        others := others[1..];
        for k := 0 to |batch|
          invariant Valid() && old(ops) <= ops
          invariant forall id :: id in mine ==> w.phase[id] == old(w).phase[id]
          invariant StillOwed(old(w), w, firings)
        {
          var op := batch[k];
          if !OwnStepOf(op, mine) && !Answers(op, firings) {
            EveryRunIsGood(ops);
            OthersKeepPhases(w, op, mine);
            OthersKeepOwed(w, op, firings);
            OneMore(ops, op);
            w := Step(w, op);
            ops := ops + [op];
          }
        }
      }
      TimePasses(old(ops), ops);
      EveryRunIsGood(ops);
    }

    // One store call, after whatever the others do.
    method Do(op: Op) returns (before: World)
      requires Valid() && Allowed(w, mine, op) && !op.MintClaim? && !op.MintBatch? && !op.Enqueue?
      modifies this`w, this`others, this`ops
      ensures Valid() && Recorded(old(ops), ops, op, before, w) && Later(old(w), before)
      ensures forall id :: id in mine ==> id in before.phase && before.phase[id] == old(w).phase[id]
      ensures old(others) == [] ==> others == [] && before == old(w) && ops == old(ops) + [op]
    {
      hide Later, Good, RunAll, Effect, Legal, Allowed;
      ghost var w0 := w;
      Interfere();
      AllowedLater(w0, w, mine, op);
      UnusedByOthers(w, op);
      before := w;
      ApplyOwn(op);
    }

    // The step is legal, so it takes effect.
    method ApplyOwn(op: Op)
      requires Valid() && Legal(w, op)
      modifies this`w, this`ops
      ensures Valid() && Recorded(old(ops), ops, op, old(w), w) && ops == old(ops) + [op]
    {
      hide Good, RunAll, Effect, Legal;
      OneMore(ops, op);
      StepOfLegal(w, op);
      EveryRunIsGood(ops);
      EffectKeepsPhases(w, op);
      w := Step(w, op);
      ops := ops + [op];
    }

    // Starts the run if it is queued and its function has room; then the run is this backend's.
    method TryStart(id: RunId, node: string, now: int) returns (ok: bool, ghost before: World)
      requires Valid()
      modifies this`w, this`others, this`ops, this`mine
      ensures Valid() && Recorded(old(ops), ops, Op.TryStart(id, node, now), before, w) && Later(old(w), before)
      ensures ok <==> CanStart(before.db, id)
      ensures mine == if ok then old(mine) + {id} else old(mine)
      ensures ok ==> InPhase(w, id, if w.known[w.db.runs[id].fn].lambda then Ready else Claimed)
      ensures forall x :: x in old(mine) ==> x in w.phase && w.phase[x] == old(w).phase[x]
      ensures old(others) == [] ==> others == [] && before == old(w)
    {
      hide Later, Good, RunAll, CanStart;
      var b := Do(Op.TryStart(id, node, now));
      before := b;
      ok := CanStart(b.db, id);
      StartKeepsPhases(b, id, node, now);
      if ok {
        StartedPhase(b, id, node, now);
        mine := mine + {id};
      }
    }

    // Draws a random token and stores it for a run this backend started.
    method PutToken(id: RunId, claim: bool, now: int) returns (err: bool, hash: string, ghost before: World)
      requires Valid() && id in mine && InPhase(w, id, if claim then Claimed else Wiped)
      modifies this`w, this`others, this`ops, this`faults, this`failed
      ensures Valid() && Later(old(w), before)
      ensures !err ==> Recorded(old(ops), ops, if claim then MintClaim(id, hash, now) else MintBatch(id, hash, now), before, w)
      ensures err ==> w == before && old(ops) <= ops && InPhase(w, id, if claim then Claimed else Wiped)
      ensures old(others) == [] ==> others == [] && before == old(w)
      ensures failed == old(failed) + if err then 1 else 0
      ensures old(faults) == [] ==> faults == [] && !err
    {
      hide Later, Good, RunAll, Effect, Legal, Allowed;
      ghost var w0 := w;
      Interfere();
      before := w;
      PhaseLater(w0, w, mine, id);
      FreshHashExists(w.db.tokens.Keys);
      hash :| hash !in w.db.tokens.Keys;
      err := false;
      if |faults| > 0 {
        err := faults[0];
        faults := faults[1..];
      }
      if err {
        failed := failed + 1;
      } else {
        MintIsLegal(w, id, claim, hash, now);
        ApplyOwn(if claim then MintClaim(id, hash, now) else MintBatch(id, hash, now));
      }
    }

    // Enqueues a run, by hand or for a firing of this backend whose run was not enqueued yet.
    method EnqueueRun(fn: FnId, now: int, serves: Option<int>) returns (id: RunId, ghost before: World)
      requires Valid() && fn in w.known && Owing(fn, serves) <= firings * w.owed
      modifies this`w, this`others, this`ops
      ensures Valid() && Recorded(old(ops), ops, Enqueue(id, fn, now, serves), before, w) && Later(old(w), before)
      ensures id !in before.db.runs && fn in before.known
      ensures w.db == before.db.(runs := before.db.runs[id :=
                Run(id, before.known[fn].id, Queued, now, before.known[fn].scopes, "", None, None, None, 0, 0, "")])
      ensures old(others) == [] ==> others == [] && before == old(w)
    {
      hide Good, RunAll, Effect;
      Interfere();
      before := w;
      FreshIdExists(w.db.runs.Keys);
      id :| id !in w.db.runs.Keys;
      EnqueueMeans(before, id, fn, now, serves);
      ApplyOwn(Enqueue(id, fn, now, serves));
    }

    // A read: the state as it is after whatever the others do.
    method Read() returns (db: DB)
      requires Valid()
      modifies this`w, this`others, this`ops
      ensures Valid() && old(ops) <= ops && Later(old(w), w) && Good(w) && db == w.db
      ensures forall id :: id in mine ==> id in w.phase && w.phase[id] == old(w).phase[id]
      ensures StillOwed(old(w), w, firings)
      ensures old(others) == [] ==> others == [] && w == old(w) && ops == old(ops)
    {
      hide Good, RunAll, Later;
      Interfere();
      db := w.db;
    }

    // The oldest queued runs.
    method QueuedRuns(limit: nat) returns (queue: seq<Run>)
      requires Valid()
      modifies this`w, this`others, this`ops
      ensures Valid() && old(ops) <= ops && Later(old(w), w)
      ensures OldestQueued(w.db, queue, limit) && StillOwed(old(w), w, firings)
      ensures forall i, j :: 0 <= i < j < |queue| ==> queue[i].queuedAt <= queue[j].queuedAt
      ensures old(others) == [] ==> others == [] && w == old(w) && ops == old(ops)
    {
      hide Good, RunAll, Later, OldestQueued;
      var db := Read();
      RunsAreNamed(w);
      queue := TakeOldest(db, limit);
    }
  }

  // A new run waits in the queue with the scopes its function declares.
  lemma {:induction false} EnqueueMeans(w: World, id: RunId, fn: FnId, now: int, serves: Option<int>)
    ensures Legal(w, Enqueue(id, fn, now, serves)) ==>
              && fn in w.known && id !in w.db.runs
              && Effect(w, Enqueue(id, fn, now, serves)).db
                 == w.db.(runs := w.db.runs[id := Run(id, w.known[fn].id, Queued, now, w.known[fn].scopes, "", None, None, None, 0, 0, "")])
  {
  }

  method TakeOldest(db: DB, limit: nat) returns (queue: seq<Run>)
    requires forall id :: id in db.runs ==> db.runs[id].id == id
    ensures OldestQueued(db, queue, limit)
    ensures forall i, j :: 0 <= i < j < |queue| ==> queue[i].queuedAt <= queue[j].queuedAt
  {
    var rest := set id | id in db.runs && db.runs[id].status == Queued;
    queue := [];
    while rest != {} && |queue| < limit
      invariant forall id :: id in rest ==> id in db.runs && db.runs[id].status == Queued
      invariant InOrder(queue) && |queue| <= limit
      invariant forall i :: 0 <= i < |queue| ==>
                  queue[i].id in db.runs && db.runs[queue[i].id] == queue[i] && queue[i].status == Queued
      invariant forall id :: id in db.runs && db.runs[id].status == Queued && id !in rest ==> db.runs[id] in queue
      invariant forall i, id :: 0 <= i < |queue| && id in rest ==> queue[i].queuedAt <= db.runs[id].queuedAt
      decreases |rest|
    {
      ghost var some := OldestExists(db, rest);
      var m :| m in rest && forall x :: x in rest ==> db.runs[m].queuedAt <= db.runs[x].queuedAt;
      queue := queue + [db.runs[m]];
      rest := rest - {m};
    }
  }

  lemma StartKeepsPhases(b: World, id: RunId, node: string, now: int)
    requires Good(b)
    ensures forall x :: x in b.phase ==> x in Effect(b, TryStart(id, node, now)).phase && Effect(b, TryStart(id, node, now)).phase[x] == b.phase[x]
  {
    hide SoundTokens, WithinLimits, RunningOf, SoundFunctions;
  }

  lemma StartedPhase(b: World, id: RunId, node: string, now: int)
    requires Good(b) && CanStart(b.db, id)
    ensures var v := Effect(b, TryStart(id, node, now));
            && id in v.phase && InPhase(v, id, if v.known[v.db.runs[id].fn].lambda then Ready else Claimed)
  {
    hide SoundTokens, WithinLimits, RunningOf;
    assert Fixed(b.db.fns[b.db.runs[id].fn]) == Fixed(b.known[b.db.runs[id].fn]);
  }

  lemma PhaseLater(a: World, b: World, mine: set<RunId>, id: RunId)
    requires Later(a, b) && Good(b) && id in mine && id in a.phase && id in b.phase && b.phase[id] == a.phase[id]
    requires id in a.db.runs
    ensures InPhase(b, id, a.phase[id])
  {
  }

  lemma MintIsLegal(w: World, id: RunId, claim: bool, hash: string, now: int)
    requires InPhase(w, id, if claim then Claimed else Wiped) && hash !in w.db.tokens
    ensures Legal(w, if claim then MintClaim(id, hash, now) else MintBatch(id, hash, now))
  {
  }

  // `op` was the last step of `after`, taken in the world `b`, and led to `v`.
  ghost predicate Recorded(before: seq<Op>, after: seq<Op>, op: Op, b: World, v: World) {
    && |after| > 0 && before <= after[..|after| - 1] && after[|after| - 1] == op
    && b == RunAll(after[..|after| - 1]) && Good(b) && Legal(b, op) && v == Effect(b, op)
  }

  lemma StepOfLegal(w: World, op: Op)
    requires Legal(w, op)
    ensures Step(w, op) == Effect(w, op)
  {
    hide Legal, Effect;
  }

  lemma UnusedByOthers(w: World, op: Op)
    requires !op.MintClaim? && !op.MintBatch?
    ensures Unused(w, op)
  {
  }

  lemma EffectKeepsPhases(w: World, op: Op)
    requires Good(w) && Legal(w, op)
    ensures w.phase.Keys <= Effect(w, op).phase.Keys
  {
    StepGoesOn(w, op);
    hide Effect, Good, Legal;
  }
}
