/** The service calls of the function queue (internal/fn/service.go, lambdarun.go, lambdaexec.go). */
module FnService {
  import opened Option
  import opened FnStore
  import opened FnRuns
  import opened FnSafety
  import opened FnBackend

  datatype Assignment = Assignment(run: RunId, hash: string)

  predicate ForNodes(db: DB, r: Run) {
    r.fn in db.fns && db.fns[r.fn].enabled && !db.fns[r.fn].lambda
  }

  // What a claim that returned `a` did: the run was started and then given its token.
  ghost predicate ClaimedBy(before: seq<Op>, after: seq<Op>, a: Assignment, node: string) {
    exists k :: && |before| <= k < |after| - 1 && StartedAt(after, k, a.run) && after[k].node == node
                && after[|after| - 1].MintClaim? && after[|after| - 1].id == a.run && after[|after| - 1].hash == a.hash
  }

  // A mint leaves its token as the only unrevoked one of the run.
  lemma Minted(before: seq<Op>, after: seq<Op>, op: Op, b: World, v: World)
    requires Recorded(before, after, op, b, v) && (op.MintClaim? || op.MintBatch?)
    ensures OnlyUnrevoked(v, op.hash, op.id)
  {
    hide RunAll, OnlyUnrevoked, Legal, Effect, Good;
    var k := |after| - 1;
    MintReplaces(after, k);
    RunAllStep(after, k);
    assert after[..k + 1] == after;
    StepOfLegal(b, op);
  }

  // The assigned token carries the scopes of the run, outlives its timeout by the grace and is not revoked.
  ghost predicate HoldsClaimToken(w: World, a: Assignment, now: int) {
    && a.run in w.db.runs && w.db.runs[a.run].fn in w.known && a.hash in w.db.tokens
    && var f := w.known[w.db.runs[a.run].fn];
       w.db.tokens[a.hash] == Token(a.run, w.db.runs[a.run].scopes, now + (f.timeoutSeconds + 300) * 1_000_000_000, None)
  }

  lemma {:induction false} MintedForClaim(m: World, w: World, a: Assignment, now: int)
    requires Legal(m, MintClaim(a.run, a.hash, now)) && w == Effect(m, MintClaim(a.run, a.hash, now))
    ensures HoldsClaimToken(w, a, now)
  {
  }

  /** A token minted when its run starts, or later, lasts until the reaper may take the run. */
  lemma {:induction false} ClaimTokenOutlastsRun(w: World, a: Assignment, minted: int, now: int)
    requires HoldsClaimToken(w, a, minted) && Good(w)
    requires var r := w.db.runs[a.run]; r.fn in w.db.fns && r.startedAt.Some? && r.startedAt.value <= minted
    requires var r := w.db.runs[a.run];
             now - r.startedAt.value <= (w.db.fns[r.fn].timeoutSeconds + 300) * 1_000_000_000
    ensures now <= w.db.tokens[a.hash].expiresAt
  {
    hide SoundRuns, SoundTokens, WithinLimits;
    var fn := w.db.runs[a.run].fn;
    assert Fixed(w.db.fns[fn]) == Fixed(w.known[fn]);
  }

  lemma ClaimDone(first: seq<Op>, before: seq<Op>, started: seq<Op>, after: seq<Op>, a: Assignment, node: string, s: int, t: int,
          b: World, v: World, m: World, w: World)
    requires first <= before && Recorded(before, started, TryStart(a.run, node, s), b, v) && CanStart(b.db, a.run)
    requires Recorded(started, after, MintClaim(a.run, a.hash, t), m, w)
    ensures ClaimedBy(first, after, a, node) && OnlyUnrevoked(w, a.hash, a.run) && HoldsClaimToken(w, a, t)
    ensures a.run in w.db.runs && w.db.runs[a.run].startedAt == Some(s)
  {
    hide RunAll, OnlyUnrevoked, Legal, Effect, Good, CanStart;
    StartIsKept(before, started, after, a, node, s, t, b, v, m, w);
    EffectRecorded(started, after, MintClaim(a.run, a.hash, t), m, w);
    MintedForClaim(m, w, a, t);
    Minted(started, after, MintClaim(a.run, a.hash, t), m, w);
    var k := |started| - 1;
    assert started <= after[..|after| - 1] <= after;
    assert after[..k] == started[..k] && after[k] == started[k];
    assert StartedAt(after, k, a.run);
  }

  // A run keeps the moment of its start.
  lemma {:induction false} StartIsKept(before: seq<Op>, started: seq<Op>, after: seq<Op>, a: Assignment, node: string, s: int,
          t: int, b: World, v: World, m: World, w: World)
    requires Recorded(before, started, TryStart(a.run, node, s), b, v) && CanStart(b.db, a.run)
    requires Recorded(started, after, MintClaim(a.run, a.hash, t), m, w)
    ensures a.run in w.db.runs && w.db.runs[a.run].startedAt == Some(s)
  {
    hide RunAll, Legal, Effect, Good, CanStart, RunningOf;
    StartMeans(b, a.run, node, s);
    StepOfLegal(b, TryStart(a.run, node, s));
    OneMore(started[..|started| - 1], TryStart(a.run, node, s));
    assert started == started[..|started| - 1] + [started[|started| - 1]];
    TimePasses(started, after);
    StepOfLegal(m, MintClaim(a.run, a.hash, t));
    OneMore(after[..|after| - 1], MintClaim(a.run, a.hash, t));
    assert after == after[..|after| - 1] + [after[|after| - 1]];
  }

  lemma {:induction false} StartMeans(b: World, id: RunId, node: string, now: int)
    requires CanStart(b.db, id)
    ensures var v := Effect(b, TryStart(id, node, now));
            id in v.db.runs && v.db.runs[id] == b.db.runs[id].(status := Running, node := node, startedAt := Some(now))
  {
    hide RunningOf;
  }

  lemma FailedStart(b: World, id: RunId, node: string, now: int)
    requires !CanStart(b.db, id)
    ensures Effect(b, TryStart(id, node, now)) == b
  {
  }

  // A run keeps its function, and a function its runtime.
  lemma KindIsFixed(a: World, b: World, id: RunId)
    requires Good(a) && Good(b) && Later(a, b) && id in a.db.runs && a.db.runs[id].fn in a.db.fns
    ensures var fn := a.db.runs[id].fn;
            id in b.db.runs && b.db.runs[id].fn == fn && fn in b.known && b.known[fn].lambda == a.db.fns[fn].lambda
  {
    hide SoundTokens, WithinLimits;
    var fn := a.db.runs[id].fn;
    assert Fixed(a.db.fns[fn]) == Fixed(a.known[fn]);
  }

  lemma QueuedAreRuns(db: DB, queue: seq<Run>, limit: nat)
    requires OldestQueued(db, queue, limit)
    ensures forall i :: 0 <= i < |queue| ==> queue[i].id in db.runs && db.runs[queue[i].id] == queue[i]
  {
  }

  lemma RecordedExtends(before: seq<Op>, after: seq<Op>, op: Op, b: World, v: World)
    requires Recorded(before, after, op, b, v)
    ensures before <= after
  {
    hide RunAll, Legal, Effect, Good;
  }

  lemma EffectRecorded(before: seq<Op>, after: seq<Op>, op: Op, b: World, v: World)
    requires Recorded(before, after, op, b, v)
    ensures Legal(b, op) && v == Effect(b, op)
  {
    hide RunAll, Legal, Effect, Good;
  }

  // A run that was for nodes when it was read is claimed, not dispatched, when it is started.
  lemma {:induction false} StillForNodes(queued: seq<Op>, read: seq<Op>, started: seq<Op>, r: Run)
    requires queued <= read <= started
    requires r.id in RunAll(queued).db.runs && RunAll(queued).db.runs[r.id] == r && ForNodes(RunAll(read).db, r)
    ensures var w := RunAll(started);
            r.id in w.db.runs && w.db.runs[r.id].fn in w.known && !w.known[w.db.runs[r.id].fn].lambda
  {
    hide RunAll, Good;
    TimePasses(queued, read);
    TimePasses(read, started);
    EveryRunIsGood(read);
    EveryRunIsGood(started);
    KindIsFixed(RunAll(read), RunAll(started), r.id);
  }

  // The world a recorded step was taken in was one of this call.
  lemma {:induction false} RecordedMoment(before: seq<Op>, after: seq<Op>, op: Op, b: World, v: World)
    requires Recorded(before, after, op, b, v)
    ensures Moment(after, |before|, b)
  {
    hide RunAll, Legal, Effect, Good;
    assert b == At(after, |after| - 1);
  }

  // At some moment from step `first` on the run could not be given to a node, or a call failed.
  ghost predicate PassedOver(ops: seq<Op>, first: nat, r: Run, faulty: bool) {
    faulty || exists w :: Moment(ops, first, w) && !(ForNodes(w.db, r) && CanStart(w.db, r.id))
  }

  lemma {:induction false} PassedOverStays(ops: seq<Op>, later: seq<Op>, first: nat, earlier: nat, r: Run, faulty: bool,
          still: bool)
    requires ops <= later && earlier <= first && (faulty ==> still) && PassedOver(ops, first, r, faulty)
    ensures PassedOver(later, earlier, r, still)
  {
    hide Moment, CanStart, ForNodes;
    if !faulty {
      var w :| Moment(ops, first, w) && !(ForNodes(w.db, r) && CanStart(w.db, r.id));
      MomentStays(ops, later, first, earlier, w);
    }
  }

  lemma {:induction false} ClaimedEarlier(before: seq<Op>, mid: seq<Op>, after: seq<Op>, a: Assignment, node: string)
    requires before <= mid && ClaimedBy(mid, after, a, node)
    ensures ClaimedBy(before, after, a, node)
  {
    hide StartedAt;
  }

  // Tries to claim one run of the queue that was read after `seen`.
  method ClaimOne(b: Backend, node: string, r: Run, now: int, ghost seen: seq<Op>) returns (a: Option<Assignment>)
    requires b.Valid() && seen <= b.ops && r.id in RunAll(seen).db.runs && RunAll(seen).db.runs[r.id] == r
    modifies b
    ensures b.Valid() && old(b.ops) <= b.ops && b.failed >= old(b.failed)
    ensures a.Some? ==> && a.value.run == r.id && ClaimedBy(old(b.ops), b.ops, a.value, node)
                        && OnlyUnrevoked(b.w, a.value.hash, r.id) && HoldsClaimToken(b.w, a.value, now)
                        && r.id in b.w.db.runs && b.w.db.runs[r.id].startedAt == Some(now)
    ensures a == None ==> PassedOver(b.ops, |old(b.ops)|, r, b.failed > old(b.failed))
    ensures old(b.Quiet()) ==>
              && b.Quiet() && (a.Some? <==> ForNodes(old(b.w).db, r) && CanStart(old(b.w).db, r.id)) && (a == None ==> b.w == old(b.w))
  {
    hide RunAll, Good, Later, Effect, Legal, CanStart, OldestQueued, Recorded, InPhase, OnlyUnrevoked, ClaimedBy,
        Allowed, ForNodes, Moment;
    ghost var first := |b.ops|;
    var read := b.Read();
    ghost var ops0 := b.ops;
    MomentNow(b.ops, first);
    if !ForNodes(read, r) {
      return None;
    }
    var ok, before := b.TryStart(r.id, node, now);
    ghost var ops1, started := b.ops, b.w;
    RecordedExtends(ops0, ops1, Op.TryStart(r.id, node, now), before, started);
    EffectRecorded(ops0, ops1, Op.TryStart(r.id, node, now), before, started);
    RecordedMoment(ops0, ops1, Op.TryStart(r.id, node, now), before, started);
    if !ok {
      FailedStart(before, r.id, node, now);
      MomentStays(ops1, ops1, |ops0|, first, before);
      return None;
    }
    StillForNodes(seen, ops0, ops1, r);
    var err, hash, mid := b.PutToken(r.id, true, now);
    if err {
      ghost var ops2 := b.ops;
      AllowedOwn(b.w, b.mine, r.id, now);
      var failed := b.Do(ClaimFails(r.id, now));
      RecordedExtends(ops2, b.ops, ClaimFails(r.id, now), failed, b.w);
      return None;
    }
    ClaimDone(old(b.ops), ops0, ops1, b.ops, Assignment(r.id, hash), node, now, now, before, started, mid, b.w);
    RecordedExtends(ops1, b.ops, MintClaim(r.id, hash, now), mid, b.w);
    return Some(Assignment(r.id, hash));
  }

  // The queue holds the oldest queued runs of some moment from step `first` on.
  ghost predicate QueueSeen(ops: seq<Op>, first: nat, queue: seq<Run>, limit: nat) {
    exists w :: Moment(ops, first, w) && OldestQueued(w.db, queue, limit)
  }

  lemma {:induction false} QueueStays(ops: seq<Op>, later: seq<Op>, first: nat, earlier: nat, queue: seq<Run>, limit: nat)
    requires ops <= later && earlier <= first && QueueSeen(ops, first, queue, limit)
    ensures QueueSeen(later, earlier, queue, limit)
  {
    hide Moment, OldestQueued;
    var w :| Moment(ops, first, w) && OldestQueued(w.db, queue, limit);
    MomentStays(ops, later, first, earlier, w);
  }

  /**
   Hands the oldest runnable run to a node. The run it returns was queued until this call started it,
   and the token it returns was minted for it by this call and is then its only unrevoked one. Every
   older run of the queue it read, or all of them when it returns nothing, could not be given to a node
   at some moment of this call, or a call failed. Left alone, it takes the first run in the queue that
   can start, and nothing only when none can.
   */
  method Claim(b: Backend, node: string, now: int) returns (a: Option<Assignment>, ghost queue: seq<Run>)
    requires b.Valid()
    modifies b
    ensures b.Valid() && old(b.ops) <= b.ops && b.failed >= old(b.failed)
    ensures a.Some? ==> && ClaimedBy(old(b.ops), b.ops, a.value, node)
                        && OnlyUnrevoked(b.w, a.value.hash, a.value.run) && HoldsClaimToken(b.w, a.value, now)
                        && a.value.run in b.w.db.runs && b.w.db.runs[a.value.run].startedAt == Some(now)
    ensures QueueSeen(b.ops, |old(b.ops)|, queue, 50)
    ensures match a
            case None => forall j :: 0 <= j < |queue| ==> PassedOver(b.ops, |old(b.ops)|, queue[j], b.failed > old(b.failed))
            case Some(got) => exists i :: && 0 <= i < |queue| && queue[i].id == got.run
                                          && forall j :: 0 <= j < i ==> PassedOver(b.ops, |old(b.ops)|, queue[j], b.failed > old(b.failed))
    ensures old(b.Quiet()) ==>
              && OldestQueued(old(b.w).db, queue, 50)
              && var db := old(b.w).db;
                 match a
                 case None => forall r :: r in queue ==> !(ForNodes(db, r) && CanStart(db, r.id))
                 case Some(got) => exists i :: && 0 <= i < |queue| && queue[i].id == got.run && ForNodes(db, queue[i]) && CanStart(db, got.run)
                                               && forall j :: 0 <= j < i ==> !(ForNodes(db, queue[j]) && CanStart(db, queue[j].id))
  {
    hide RunAll, Good, Later, CanStart, OldestQueued, OnlyUnrevoked, ClaimedBy, HoldsClaimToken, ForNodes, Moment, PassedOver, QueueSeen;
    ghost var w0, first, failed := b.w, |b.ops|, b.failed;
    ghost var quiet := b.Quiet();
    var queued := b.QueuedRuns(50);
    queue := queued;
    ghost var seen := b.ops;
    QueueWasSeen(seen, first, b.w, queue, 50);
    QueuedAreRuns(b.w.db, queued, 50);
    for i := 0 to |queued|
      invariant b.Valid() && old(b.ops) <= b.ops && seen <= b.ops && b.failed >= failed
      invariant quiet ==> b.Quiet() && b.w == w0
      invariant quiet ==> forall j :: 0 <= j < i ==> !(ForNodes(w0.db, queue[j]) && CanStart(w0.db, queue[j].id))
      invariant forall j :: 0 <= j < i ==> PassedOver(b.ops, first, queue[j], b.failed > failed)
    {
      ghost var o0, failures := b.ops, b.failed;
      a := ClaimOne(b, node, queued[i], now, seen);
      forall j | 0 <= j < i ensures PassedOver(b.ops, first, queue[j], b.failed > failed) {
        PassedOverStays(o0, b.ops, first, first, queue[j], failures > failed, b.failed > failed);
      }
      if a.Some? {
        ClaimedEarlier(old(b.ops), o0, b.ops, a.value, node);
        QueueStays(seen, b.ops, first, first, queue, 50);
        return;
      }
      PassedOverStays(b.ops, b.ops, |o0|, first, queue[i], b.failed > failures, b.failed > failed);
    }
    QueueStays(seen, b.ops, first, first, queue, 50);
    a := None;
  }

  lemma {:induction false} QueueWasSeen(ops: seq<Op>, first: nat, w: World, queue: seq<Run>, limit: nat)
    requires first <= |ops| && w == RunAll(ops) && OldestQueued(w.db, queue, limit)
    ensures QueueSeen(ops, first, queue, limit)
  {
    hide RunAll, Moment, OldestQueued;
    MomentNow(ops, first);
  }

  /**
   Introspect, with its three reads at three moments. Active means that at the first of them the token
   was live, at the second its run still running, and the scopes are those the function declared.
   Left alone, the answer is active exactly for a live token whose function exists.
   */
  method Introspect(b: Backend, hash: string, now: int) returns (c: Option<Claims>, ghost i: nat, ghost j: nat, ghost k: nat)
    requires b.Valid()
    modifies b
    ensures b.Valid() && |old(b.ops)| <= i <= j <= k <= |b.ops| && old(b.ops) <= b.ops
    ensures c == Introspected(At(b.ops, i).db, At(b.ops, j).db, At(b.ops, k).db, hash, now)
    ensures c.Some? <==>
              && hash in At(b.ops, i).db.tokens && var t := At(b.ops, i).db.tokens[hash];
                 && t.revokedAt == None && now < t.expiresAt
                 && t.run in At(b.ops, j).db.runs && At(b.ops, j).db.runs[t.run].status == Running
                 && At(b.ops, j).db.runs[t.run].fn in At(b.ops, k).db.fns
    ensures c.Some? ==>
              var t := At(b.ops, i).db.tokens[hash];
              var f := At(b.ops, k).db.fns[At(b.ops, j).db.runs[t.run].fn];
              c.value == Claims(f.project, f.name, t.run, t.scopes, t.expiresAt)
    ensures c.Some? ==> Live(At(b.ops, i), hash, now)
                        && c.value.run in At(b.ops, j).db.runs && At(b.ops, j).db.runs[c.value.run].status == Running
                        && At(b.ops, j).db.runs[c.value.run].fn in At(b.ops, j).known
                        && c.value.scopes == At(b.ops, j).known[At(b.ops, j).db.runs[c.value.run].fn].scopes
    ensures old(b.Quiet()) ==> (c.Some? <==> && Live(old(b.w), hash, now)
                                             && old(b.w).db.runs[old(b.w).db.tokens[hash].run].fn in old(b.w).db.fns)
  {
    hide RunAll, Good, Later, Effect, Legal;
    ghost var w0 := b.w;
    EveryRunIsGood(b.ops);
    var tokenDB := b.Read();
    ghost var o1 := b.ops;
    var runDB := b.Read();
    ghost var o2 := b.ops;
    var fnDB := b.Read();
    i, j, k := |o1|, |o2|, |b.ops|;
    assert b.ops[..i] == o1 && b.ops[..j] == o2 && b.ops[..k] == b.ops;
    c := Introspected(tokenDB, runDB, fnDB, hash, now);
    RunsAreNamed(At(b.ops, j));
    if c.Some? {
      ActiveMeansLive(b.ops, i, j, k, hash, now);
    }
    if Live(w0, hash, now) {
      TokenMeans(w0, hash);
    }
  }

  // Finishing and then revoking, with others in between.
  lemma FinishedAndRevoked(a: World, m: World, id: RunId, r: Report, v: World, x: World, now: int, w0: World)
    requires Good(a) && Terminal(r.status) && v == Effect(a, Finish(id, r)) && Good(m) && Later(v, m)
    requires x == Effect(m, Revoke(id, now)) && Later(w0, a) && id in w0.db.runs
    ensures id in x.db.runs && Terminal(x.db.runs[id].status)
    ensures forall h :: h in w0.db.tokens && w0.db.tokens[h].run == id ==> h in x.db.tokens && x.db.tokens[h].revokedAt.Some?
  {
    hide Good, SoundFunctions, SoundRuns, SoundTokens, WithinLimits, Revoked, RunningOf;
    RevokedRevokes(m.db, id, now);
    forall h | h in w0.db.tokens && w0.db.tokens[h].run == id
      ensures h in x.db.tokens && x.db.tokens[h].revokedAt.Some?
    {
      EffectOfFinish(a, id, r);
    }
  }

  lemma EffectOfFinish(a: World, id: RunId, r: Report)
    requires Terminal(r.status)
    ensures Effect(a, Finish(id, r)).db.tokens == a.db.tokens
  {
  }

  /** Ends a run and revokes its tokens. Left alone it changes nothing else. */
  method EndRun(b: Backend, id: RunId, r: Report)
    requires b.Valid() && id in b.w.db.runs && Terminal(r.status)
    modifies b
    ensures b.Valid() && old(b.ops) <= b.ops && b.mine == old(b.mine)
    ensures id in b.w.db.runs && b.w.db.runs[id].status in {Succeeded, Failed, Cancelled, TimedOut}
    ensures forall h :: h in old(b.w).db.tokens && old(b.w).db.tokens[h].run == id ==>
                          h in b.w.db.tokens && b.w.db.tokens[h].revokedAt.Some?
    ensures old(b.Quiet()) ==> b.Quiet() && b.w == old(b.w).(db := Revoked(Finished(old(b.w).db, id, r), id, r.at))
  {
    hide RunAll, Later, Effect, Legal, Revoked, Finished, SoundFunctions, SoundRuns, SoundTokens, WithinLimits;
    ghost var w0, o0 := b.w, b.ops;
    var before := b.Do(Finish(id, r));
    ghost var v, o1 := b.w, b.ops;
    EffectRecorded(o0, o1, Finish(id, r), before, v);
    RecordedExtends(o0, o1, Finish(id, r), before, v);
    var mid := b.Do(Revoke(id, r.at));
    EffectRecorded(o1, b.ops, Revoke(id, r.at), mid, b.w);
    RecordedExtends(o1, b.ops, Revoke(id, r.at), mid, b.w);
    FinishedAndRevoked(before, mid, id, r, v, b.w, r.at, w0);
    EndEffects(before, mid, id, r);
  }

  lemma EndEffects(a: World, m: World, id: RunId, r: Report)
    requires Terminal(r.status)
    ensures Effect(a, Finish(id, r)) == a.(db := Finished(a.db, id, r))
    ensures Effect(m, Revoke(id, r.at)) == m.(db := Revoked(m.db, id, r.at))
  {
    hide Revoked;
  }

  datatype FinishResult = NoRun | AlreadyEnded | Ended

  /**
   A node reports the end of a run. A run that was not running when it was read is left as it is;
   otherwise it is ended and every token it had is revoked.
   */
  method FinishReported(b: Backend, id: RunId, r: Report) returns (res: FinishResult)
    requires b.Valid() && Terminal(r.status)
    modifies b
    ensures b.Valid() && old(b.ops) <= b.ops
    ensures res == Ended ==>
              && id in b.w.db.runs && b.w.db.runs[id].status in {Succeeded, Failed, Cancelled, TimedOut}
              && forall h :: h in old(b.w).db.tokens && old(b.w).db.tokens[h].run == id ==>
                               h in b.w.db.tokens && b.w.db.tokens[h].revokedAt.Some?
    ensures res == NoRun ==> exists w :: Moment(b.ops, |old(b.ops)|, w) && id !in w.db.runs
    ensures res == AlreadyEnded ==> exists w :: Moment(b.ops, |old(b.ops)|, w) && id in w.db.runs && w.db.runs[id].status != Running
    ensures old(b.Quiet()) ==>
              var db := old(b.w).db;
              && (res == NoRun <==> id !in db.runs)
              && b.w == if id in db.runs && db.runs[id].status == Running then old(b.w).(db := Revoked(Finished(db, id, r), id, r.at)) else old(b.w)
  {
    hide RunAll, Good, Effect, Legal, Revoked, Finished, Moment;
    ghost var w0 := b.w;
    var db := b.Read();
    MomentNow(b.ops, |old(b.ops)|);
    if id !in db.runs {
      return NoRun;
    }
    if db.runs[id].status != Running {
      return AlreadyEnded;
    }
    ghost var w1 := b.w;
    EndRun(b, id, r);
    assert forall h :: h in w0.db.tokens ==> h in w1.db.tokens && w1.db.tokens[h].run == w0.db.tokens[h].run by {
      TokensKeepRuns(w0, w1);
    }
    return Ended;
  }

  lemma TokensKeepRuns(a: World, b: World)
    requires Later(a, b)
    ensures forall h :: h in a.db.tokens ==> h in b.db.tokens && b.db.tokens[h].run == a.db.tokens[h].run
  {
  }

  /** Cancels a run from a snapshot of it; the snapshot may be old, the run then ends all the same. */
  method Cancel(b: Backend, r: Run, now: int)
    requires b.Valid() && r.id in b.w.db.runs
    modifies b
    ensures b.Valid() && old(b.ops) <= b.ops
    ensures r.status in {Queued, Running} ==>
              && r.id in b.w.db.runs && b.w.db.runs[r.id].status in {Succeeded, Failed, Cancelled, TimedOut}
              && forall h :: h in old(b.w).db.tokens && old(b.w).db.tokens[h].run == r.id ==>
                               h in b.w.db.tokens && b.w.db.tokens[h].revokedAt.Some?
    ensures r.status !in {Queued, Running} ==> b.w == old(b.w)
    ensures old(b.Quiet()) && r.status in {Queued, Running} ==>
              var report := Report(Cancelled, None, r.bytesIn, r.bytesOut, "cancelled", now);
              b.w == old(b.w).(db := Revoked(Finished(old(b.w).db, r.id, report), r.id, now))
  {
    if r.status != Queued && r.status != Running {
      return;
    }
    EndRun(b, r.id, Report(Cancelled, None, r.bytesIn, r.bytesOut, "cancelled", now));
  }
}
