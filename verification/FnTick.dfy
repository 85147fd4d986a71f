/** The periodic work of a backend: crons, the reaper and Lambda dispatch (internal/fn/service.go, lambdarun.go). */
module FnTick {
  import opened Option
  import opened FnStore
  import opened FnRuns
  import opened FnSafety
  import opened FnCron
  import opened FnBackend
  import opened FnService
  import opened FnLambda

  // What `read` found for function f.
  ghost predicate ReadFunction(read: seq<Op>, f: Function) {
    f.id in RunAll(read).db.fns && RunAll(read).db.fns[f.id] == f
  }

  lemma {:induction false} CronIsAllowed(read: seq<Op>, ops: seq<Op>, mine: set<RunId>, f: Function, now: int)
    requires read <= ops && ReadFunction(read, f) && Due(f, f.lastCronAt, now)
    ensures Allowed(RunAll(ops), mine, Cron(f.id, f.lastCronAt, now)) && f.lastCronAt.Some? && f.id in RunAll(ops).known
  {
    hide RunAll, SoundRuns, SoundTokens, WithinLimits;
    EveryRunIsGood(read);
    TimePasses(read, ops);
    assert Fixed(RunAll(read).db.fns[f.id]) == Fixed(RunAll(read).known[f.id]);
  }

  lemma CronOutcome(b: World, fn: FnId, last: Option<int>, now: int)
    requires Legal(b, Cron(fn, last, now))
    ensures var v := Effect(b, Cron(fn, last, now));
            v == if CanSetCron(b.db, fn, last) then b.(db := CronSet(b.db, fn, now), owed := b.owed + Owing(fn, last)) else b
  {
  }

  predicate HasQueued(queue: seq<Run>, fn: FnId) {
    exists r | r in queue :: r.fn == fn
  }

  lemma {:induction false} QueuedMeans(queue: seq<Run>, fn: FnId)
    ensures HasQueued(queue, fn) <==> exists r :: r in queue && r.fn == fn
  {
  }

  // The cron of f fires on a Tick that finds f as it is.
  predicate FiresFor(f: Function, now: int) {
    f.enabled && Due(f, f.lastCronAt, now)
  }

  /** A cron fires when the first instant after its last firing, or after its creation, has come, or there is none. */
  lemma {:induction false} FiresForMeans(f: Function, now: int)
    ensures FiresFor(f, now) <==>
            && f.enabled && f.cron.Some?
            && var next := f.cron.value(match f.lastCronAt case Some(last) => last case None => f.createdAt);
               next == None || next.value <= now
  {
  }

  // Step `at` fired the cron of fn; `run` is what was then enqueued for it.
  datatype Fired = Fired(fn: FnId, at: nat, run: Option<RunId>)

  ghost predicate FiredIn(ops: seq<Op>, e: Fired) {
    && e.at < |ops| && FiresNow(At(ops, e.at), ops[e.at], e.fn)
    && (e.run.Some? ==> exists k :: e.at < k < |ops| && EnqueuedFor(ops, k, e))
  }

  // Step k enqueued the run of this firing.
  ghost predicate EnqueuedFor(ops: seq<Op>, k: nat, e: Fired)
    requires k < |ops| && e.at < |ops| && e.run.Some?
  {
    ops[k].Enqueue? && ops[k].fn == e.fn && ops[k].id == e.run.value && ops[e.at].Cron? && ops[k].serves == ops[e.at].last
  }

  lemma FiredStays(before: seq<Op>, after: seq<Op>, e: Fired)
    requires before <= after && FiredIn(before, e)
    ensures FiredIn(after, e)
  {
    hide FiresNow, RunAll;
    assert after[..e.at] == before[..e.at];
    if e.run.Some? {
      var k :| e.at < k < |before| && EnqueuedFor(before, k, e);
      assert EnqueuedFor(after, k, e);
    }
  }

  lemma JustFired(before: seq<Op>, after: seq<Op>, fn: FnId, last: Option<int>, now: int, b: World, v: World)
    requires Recorded(before, after, Cron(fn, last, now), b, v) && last.Some? && CanSetCron(b.db, fn, last)
    ensures FiredIn(after, Fired(fn, |after| - 1, None)) && after[|after| - 1] == Cron(fn, last, now)
  {
    hide RunAll, Legal, Effect, Good, CanSetCron;
  }

  lemma ThenEnqueued(before: seq<Op>, after: seq<Op>, e: Fired, id: RunId, now: int, b: World, v: World)
    requires FiredIn(before, e) && Recorded(before, after, Enqueue(id, e.fn, now, before[e.at].last), b, v)
    ensures FiredIn(after, e.(run := Some(id)))
  {
    hide RunAll, Legal, Effect, Good, CanSetCron;
    assert after[..e.at] == before[..e.at];
    assert EnqueuedFor(after, |after| - 1, e.(run := Some(id)));
  }

  // At some moment from step `first` on the compare-and-set of this firing would have been refused.
  ghost predicate CronRefused(ops: seq<Op>, first: nat, f: Function) {
    exists w :: Moment(ops, first, w) && !CanSetCron(w.db, f.id, f.lastCronAt)
  }

  lemma {:induction false} RefusalStays(ops: seq<Op>, later: seq<Op>, first: nat, earlier: nat, f: Function)
    requires ops <= later && earlier <= first && CronRefused(ops, first, f)
    ensures CronRefused(later, earlier, f)
  {
    hide Moment, CanSetCron;
    var w :| Moment(ops, first, w) && !CanSetCron(w.db, f.id, f.lastCronAt);
    MomentStays(ops, later, first, earlier, w);
  }

  // The compare-and-set of a cron that is due; the firing is then this backend's to serve.
  method FireOnce(b: Backend, ghost read: seq<Op>, f: Function, now: int) returns (ok: bool, ghost at: nat)
    requires b.Valid() && read <= b.ops && ReadFunction(read, f) && FiresFor(f, now)
    modifies b
    ensures b.Valid() && old(b.ops) <= b.ops
    ensures ok ==> && |old(b.ops)| <= at < |b.ops| && FiredIn(b.ops, Fired(f.id, at, None)) && b.ops[at] == Cron(f.id, f.lastCronAt, now)
                   && Owing(f.id, f.lastCronAt) <= b.firings * b.w.owed
    ensures !ok ==> CronRefused(b.ops, |old(b.ops)|, f)
    ensures old(b.Quiet()) ==>
              && b.Quiet() && ok == CanSetCron(old(b.w).db, f.id, f.lastCronAt)
              && b.w == if ok then old(b.w).(db := CronSet(old(b.w).db, f.id, now), owed := old(b.w).owed + Owing(f.id, f.lastCronAt))
                        else old(b.w)
  {
    hide RunAll, Good, Later, Effect, Legal, Allowed, Due, FiredIn, ReadFunction, Recorded, CanSetCron, Moment;
    ghost var o0 := b.ops;
    CronIsAllowed(read, b.ops, b.mine, f, now);
    var before := b.Do(Cron(f.id, f.lastCronAt, now));
    RecordedWorlds(o0, b.ops, Cron(f.id, f.lastCronAt, now), before, b.w);
    CronOutcome(before, f.id, f.lastCronAt, now);
    RecordedMoment(o0, b.ops, Cron(f.id, f.lastCronAt, now), before, b.w);
    ok, at := CanSetCron(before.db, f.id, f.lastCronAt), |b.ops| - 1;
    if ok {
      JustFired(o0, b.ops, f.id, f.lastCronAt, now, before, b.w);
      b.firings := b.firings + Owing(f.id, f.lastCronAt);
    }
  }

  /**
   One function of a Tick. A cron that is due fires unless this call's compare-and-set is refused, and a
   run is enqueued only for that firing, one at most, exactly when no run of the function is found in the
   queue. Left alone the call does exactly that.
   */
  method FireCron(b: Backend, ghost read: seq<Op>, f: Function, now: int)
    returns (fired: bool, run: Option<RunId>, ghost at: nat, ghost queue: seq<Run>)
    requires b.Valid() && read <= b.ops && ReadFunction(read, f)
    modifies b
    ensures b.Valid() && old(b.ops) <= b.ops
    ensures fired ==> |old(b.ops)| <= at && FiredIn(b.ops, Fired(f.id, at, run))
    ensures !fired ==> run == None && (FiresFor(f, now) ==> CronRefused(b.ops, |old(b.ops)|, f))
    ensures fired ==> && FiresFor(f, now) && QueueSeen(b.ops, |old(b.ops)|, queue, 1000)
                      && (run == None <==> exists r :: r in queue && r.fn == f.id)
    ensures old(b.Quiet()) ==> b.Quiet() && CronTicked(old(b.w), b.w, f, now, fired, run, queue)
  {
    hide RunAll, Good, Later, Effect, Legal, Allowed, Due, OldestQueued, FiredIn, ReadFunction, Recorded, HasQueued,
        CanSetCron, Moment, QueueSeen;
    at, queue, run := 0, [], None;
    if !FiresFor(f, now) {
      return false, None, at, queue;
    }
    ghost var o0 := b.ops;
    var ok, step := FireOnce(b, read, f, now);
    if !ok {
      return false, None, at, queue;
    }
    ghost var o1, w1 := b.ops, b.w;
    at := step;
    var queued := b.QueuedRuns(1000);
    queue := queued;
    ghost var o2 := b.ops;
    QueueWasSeen(o2, |o0|, b.w, queue, 1000);
    FiredStays(o1, o2, Fired(f.id, at, None));
    if old(b.Quiet()) {
      CronKeepsQueue(old(b.w).db, w1.db, f.id, f.lastCronAt, now, queue);
    }
    QueuedMeans(queued, f.id);
    if HasQueued(queued, f.id) {
      return true, None, at, queue;
    }
    KnownStays(read, o2, f, now);
    var id, last := b.EnqueueRun(f.id, now, f.lastCronAt);
    RecordedWorlds(o2, b.ops, Enqueue(id, f.id, now, f.lastCronAt), last, b.w);
    ThenEnqueued(o2, b.ops, Fired(f.id, at, None), id, now, last, b.w);
    EnqueueOutcome(last, id, f.id, now, f.lastCronAt);
    QueueStays(o2, b.ops, |o0|, |o0|, queue, 1000);
    return true, Some(id), at, queue;
  }

  // What a call of FireCron that is left alone does.
  ghost predicate CronTicked(v: World, w: World, f: Function, now: int, fired: bool, run: Option<RunId>, queue: seq<Run>) {
    && (fired <==> FiresFor(f, now) && CanSetCron(v.db, f.id, f.lastCronAt))
    && (!fired ==> w == v)
    && (fired ==> && OldestQueued(v.db, queue, 1000) && (run.None? <==> HasQueued(queue, f.id))
                  && (run == None ==> w == v.(db := CronSet(v.db, f.id, now), owed := v.owed + Owing(f.id, f.lastCronAt)))
                  && (run.Some? ==> && f.id in v.known && run.value !in v.db.runs
                                    && w == v.(db := CronSet(v.db, f.id, now).(runs := v.db.runs[run.value := NewRun(v.known[f.id], run.value, now)]),
                                               owed := v.owed - Owing(f.id, f.lastCronAt))))
  }

  lemma CronKeepsQueue(a: DB, b: DB, fn: FnId, last: Option<int>, now: int, queue: seq<Run>)
    requires CanSetCron(a, fn, last) && b == CronSet(a, fn, now)
    ensures OldestQueued(b, queue, 1000) ==> OldestQueued(a, queue, 1000)
  {
  }

  lemma {:induction false} KnownStays(read: seq<Op>, ops: seq<Op>, f: Function, now: int)
    requires read <= ops && ReadFunction(read, f)
    ensures f.id in RunAll(ops).known
  {
    hide RunAll, SoundRuns, SoundTokens, WithinLimits;
    EveryRunIsGood(read);
    TimePasses(read, ops);
  }

  lemma EnqueueOutcome(b: World, id: RunId, fn: FnId, now: int, serves: Option<int>)
    requires Legal(b, Enqueue(id, fn, now, serves))
    ensures fn in b.known && id !in b.db.runs
    ensures Effect(b, Enqueue(id, fn, now, serves))
            == b.(db := b.db.(runs := b.db.runs[id := NewRun(b.known[fn], id, now)]), owed := b.owed - Owing(fn, serves))
  {
  }

  const REAPED := "reaped: the node stopped reporting"

  predicate Overdue(db: DB, r: Run, now: int) {
    && r.status == Running && r.fn in db.fns && r.startedAt.Some?
    && now - r.startedAt.value > db.fns[r.fn].timeoutSeconds * 1000000000 + TOKEN_GRACE
  }

  function ReapReport(r: Run, now: int): Report {
    Report(TimedOut, None, r.bytesIn, r.bytesOut, REAPED, now)
  }

  function Reaped(db: DB, r: Run, now: int): Run {
    if Overdue(db, r, now) then
      r.(status := TimedOut, exit := None, tail := REAPED, finishedAt := Some(now))
    else r
  }

  // The runs of `done` have been looked at, the others are as they were.
  ghost predicate ReapedSoFar(v: DB, w: DB, todo: set<RunId>, now: int) {
    && w.fns == v.fns && w.runs.Keys == v.runs.Keys && w.tokens.Keys == v.tokens.Keys
    && (forall id :: id in v.runs ==> w.runs[id] == if id in todo then v.runs[id] else Reaped(v, v.runs[id], now))
    && forall h :: h in v.tokens ==> w.tokens[h] == TokenAfterReap(v, v.tokens[h], todo, now)
  }

  function TokenAfterReap(db: DB, t: Token, todo: set<RunId>, now: int): Token {
    if t.run in db.runs && t.run !in todo && Overdue(db, db.runs[t.run], now) then RevokedIfOf(t, t.run, now) else t
  }

  // What an undisturbed reaper leaves behind.
  lemma {:induction false} ReapMeans(v: DB, w: DB, now: int)
    requires ReapedSoFar(v, w, {}, now)
    ensures w.fns == v.fns && w.runs.Keys == v.runs.Keys && w.tokens.Keys == v.tokens.Keys
    ensures forall id :: id in v.runs ==>
              var r := v.runs[id];
              var due := && r.status == Running && r.fn in v.fns && r.startedAt.Some?
                         && now - r.startedAt.value > (v.fns[r.fn].timeoutSeconds + 300) * 1_000_000_000;
              w.runs[id] ==
                if !due then r
                else r.(status := TimedOut, exit := None, tail := "reaped: the node stopped reporting", finishedAt := Some(now))
    ensures forall h :: h in v.tokens ==>
              var t := v.tokens[h];
              var reaped := t.run in v.runs && w.runs[t.run] != v.runs[t.run];
              w.tokens[h] == if reaped && t.revokedAt == None then t.(revokedAt := Some(now)) else t
  {
  }

  /** The reaper takes a claimed run, however long after the claim it comes, exactly when the token of the claim has expired. */
  lemma {:induction false} ReapedAfterItsToken(claimed: seq<Op>, ops: seq<Op>, a: Assignment, start: int, now: int)
    requires claimed <= ops && HoldsClaimToken(RunAll(claimed), a, start)
    requires RunAll(claimed).db.runs[a.run].startedAt == Some(start) && RunAll(claimed).db.runs[a.run].status != Queued
    ensures var w := RunAll(ops);
            && a.run in w.db.runs && a.hash in w.db.tokens && w.db.tokens[a.hash].run == a.run
            && (w.db.runs[a.run].status == Running && w.db.runs[a.run].fn in w.db.fns ==>
                  (Overdue(w.db, w.db.runs[a.run], now) <==> w.db.tokens[a.hash].expiresAt < now))
  {
    hide RunAll, SoundRuns, SoundTokens, WithinLimits;
    TimePasses(claimed, ops);
    EveryRunIsGood(ops);
    var w := RunAll(ops);
    var fn := w.db.runs[a.run].fn;
    assert fn in w.db.fns ==> Fixed(w.db.fns[fn]) == Fixed(w.known[fn]);
  }

  lemma ReapsOne(v: DB, w: DB, todo: set<RunId>, id: RunId, now: int)
    requires ReapedSoFar(v, w, todo, now) && id in todo && id in v.runs
    ensures !Overdue(v, v.runs[id], now) ==> ReapedSoFar(v, w, todo - {id}, now)
    ensures Overdue(v, v.runs[id], now) ==>
              ReapedSoFar(v, Revoked(Finished(w, id, ReapReport(v.runs[id], now)), id, now), todo - {id}, now)
  {
    hide Revoked, Overdue, TokenAfterReap, RevokedIfOf;
    RevokedRevokes(Finished(w, id, ReapReport(v.runs[id], now)), id, now);
    forall h | h in v.tokens
      ensures TokenAfterReap(v, v.tokens[h], todo - {id}, now)
           == (var t := TokenAfterReap(v, v.tokens[h], todo, now); if Overdue(v, v.runs[id], now) then RevokedIfOf(t, id, now) else t)
    {
      TokenInTurn(v, v.tokens[h], todo, id, now);
    }
  }

  lemma {:induction false} TokenInTurn(v: DB, t: Token, todo: set<RunId>, id: RunId, now: int)
    requires id in todo && id in v.runs
    ensures TokenAfterReap(v, t, todo - {id}, now)
         == (var r := TokenAfterReap(v, t, todo, now); if Overdue(v, v.runs[id], now) then RevokedIfOf(r, id, now) else r)
  {
    hide Overdue;
  }

  // The run r, as it was read, has ended, or at some moment from step `first` on it was not overdue.
  ghost predicate ReapDone(ops: seq<Op>, first: nat, id: RunId, r: Run, now: int) {
    || (id in RunAll(ops).db.runs && Terminal(RunAll(ops).db.runs[id].status))
    || exists v :: Moment(ops, first, v) && !Overdue(v.db, r, now)
  }

  lemma {:induction false} ReapStays(ops: seq<Op>, later: seq<Op>, first: nat, earlier: nat, id: RunId, r: Run, now: int)
    requires ops <= later && earlier <= first && ReapDone(ops, first, id, r, now)
    ensures ReapDone(later, earlier, id, r, now)
  {
    hide RunAll, Moment, Overdue;
    if id in RunAll(ops).db.runs && Terminal(RunAll(ops).db.runs[id].status) {
      TimePasses(ops, later);
    } else {
      var v :| Moment(ops, first, v) && !Overdue(v.db, r, now);
      MomentStays(ops, later, first, earlier, v);
    }
  }

  // One running run of a Reap.
  method ReapOne(b: Backend, id: RunId, r: Run, now: int)
    requires b.Valid() && id in b.w.db.runs
    modifies b
    ensures b.Valid() && old(b.ops) <= b.ops && ReapDone(b.ops, |old(b.ops)|, id, r, now)
    ensures old(b.Quiet()) ==>
              && b.Quiet()
              && b.w == if Overdue(old(b.w).db, r, now) then old(b.w).(db := Revoked(Finished(old(b.w).db, id, ReapReport(r, now)), id, now))
                        else old(b.w)
  {
    hide RunAll, Good, Effect, Legal, Revoked, Finished, Overdue, Moment;
    ghost var o0 := b.ops;
    var cur := b.Read();
    MomentNow(b.ops, |o0|);
    RunsStay(o0, b.ops, id);
    if Overdue(cur, r, now) {
      EndRun(b, id, ReapReport(r, now));
    }
  }

  // Every run that was running at the moment w is ended by now, or was not overdue at some moment.
  ghost predicate AllReaped(ops: seq<Op>, first: nat, db: DB, now: int) {
    forall id :: id in db.runs && db.runs[id].status == Running ==> ReapDone(ops, first, id, db.runs[id], now)
  }

  /**
   Times out the runs whose node has stopped reporting: every run that was found running and overdue has
   ended. Left alone: those, all of them, and no other.
   */
  method Reap(b: Backend, now: int)
    requires b.Valid()
    modifies b
    ensures b.Valid() && old(b.ops) <= b.ops
    ensures exists w :: Moment(b.ops, |old(b.ops)|, w) && AllReaped(b.ops, |old(b.ops)|, w.db, now)
    ensures old(b.Quiet()) ==> b.Quiet() && ReapedSoFar(old(b.w).db, b.w.db, {}, now)
    ensures old(b.Quiet()) ==>
              && b.w.db.runs.Keys == old(b.w).db.runs.Keys
              && forall id :: id in old(b.w).db.runs ==>
                   var r := old(b.w).db.runs[id];
                   var due := && r.status == Running && r.fn in old(b.w).db.fns && r.startedAt.Some?
                              && now - r.startedAt.value > (old(b.w).db.fns[r.fn].timeoutSeconds + 300) * 1_000_000_000;
                   b.w.db.runs[id] ==
                     if !due then r
                     else r.(status := TimedOut, exit := None, tail := "reaped: the node stopped reporting", finishedAt := Some(now))
    ensures old(b.Quiet()) ==>
              && b.w.db.tokens.Keys == old(b.w).db.tokens.Keys
              && forall h :: h in old(b.w).db.tokens ==>
                   var t := old(b.w).db.tokens[h];
                   var reaped := t.run in old(b.w).db.runs && b.w.db.runs[t.run] != old(b.w).db.runs[t.run];
                   b.w.db.tokens[h] == if reaped && t.revokedAt == None then t.(revokedAt := Some(now)) else t
  {
    hide RunAll, Good, Later, Effect, Legal, Revoked, Finished, Overdue, ReapedSoFar, Moment, ReapDone;
    ghost var v, quiet, first := b.w, b.Quiet(), |b.ops|;
    var db := b.Read();
    ghost var read, w := b.ops, b.w;
    MomentNow(read, first);
    var todo := set id | id in db.runs && db.runs[id].status == Running;
    NothingReaped(v.db, now);
    while todo != {}
      invariant b.Valid() && old(b.ops) <= b.ops && read <= b.ops
      invariant forall id :: id in todo ==> id in db.runs
      invariant forall id :: id in db.runs && db.runs[id].status == Running && id !in todo ==> ReapDone(b.ops, first, id, db.runs[id], now)
      invariant quiet ==> b.Quiet() && db == v.db && ReapedSoFar(v.db, b.w.db, todo, now)
      decreases |todo|
    {
      var id :| id in todo;
      ghost var o0 := b.ops;
      RunsStay(read, b.ops, id);
      if quiet {
        ReapsOne(v.db, b.w.db, todo, id, now);
        SameFunctions(v.db, b.w.db, todo, db.runs[id], now);
      }
      ReapOne(b, id, db.runs[id], now);
      forall x | x in db.runs && db.runs[x].status == Running && x !in todo ensures ReapDone(b.ops, first, x, db.runs[x], now) {
        ReapStays(o0, b.ops, first, first, x, db.runs[x], now);
      }
      ReapStays(b.ops, b.ops, |o0|, first, id, db.runs[id], now);
      todo := todo - {id};
    }
    MomentStays(read, b.ops, first, first, w);
    if quiet {
      ReapMeans(v.db, b.w.db, now);
    }
  }

  lemma NothingReaped(db: DB, now: int)
    ensures ReapedSoFar(db, db, (set id | id in db.runs && db.runs[id].status == Running), now)
  {
  }

  lemma SameFunctions(v: DB, w: DB, todo: set<RunId>, r: Run, now: int)
    requires ReapedSoFar(v, w, todo, now)
    ensures Overdue(v, r, now) <==> Overdue(w, r, now)
  {
  }

  lemma {:induction false} RunsStay(before: seq<Op>, after: seq<Op>, id: RunId)
    requires before <= after
    ensures id in RunAll(before).db.runs ==> id in RunAll(after).db.runs
  {
    hide RunAll;
    TimePasses(before, after);
  }

  // All these firings happened, at step `first` or later, each of another function.
  ghost predicate GoodLog(ops: seq<Op>, log: seq<Fired>, first: nat) {
    && (forall i :: 0 <= i < |log| ==> FiredIn(ops, log[i]) && first <= log[i].at)
    && forall i, j :: 0 <= i < j < |log| ==> log[i].fn != log[j].fn
  }

  lemma LogGrows(before: seq<Op>, after: seq<Op>, log: seq<Fired>, first: nat, todo: set<FnId>, e: Fired)
    requires before <= after && GoodLog(before, log, first) && FiredIn(after, e) && first <= e.at && e.fn in todo
    requires forall i :: 0 <= i < |log| ==> log[i].fn !in todo
    ensures GoodLog(after, log + [e], first)
  {
    LogStays(before, after, log, first);
    hide FiredIn;
  }

  lemma LogStays(before: seq<Op>, after: seq<Op>, log: seq<Fired>, first: nat)
    requires before <= after && GoodLog(before, log, first)
    ensures GoodLog(after, log, first)
  {
    hide FiredIn;
    forall i | 0 <= i < |log| ensures FiredIn(after, log[i]) {
      FiredStays(before, after, log[i]);
    }
  }

  // The crons not in todo have fired if they were due; the others are as they were.
  ghost predicate FiredSoFar(v: DB, w: DB, todo: set<FnId>, now: int) {
    && w.fns.Keys == v.fns.Keys
    && forall f :: f in v.fns ==> w.fns[f] == if f !in todo && FiresFor(v.fns[f], now) then v.fns[f].(lastCronAt := Some(now)) else v.fns[f]
  }

  lemma FiresOne(v: World, a: World, b: World, todo: set<FnId>, fn: FnId, now: int, fired: bool, run: Option<RunId>,
          queue: seq<Run>)
    requires FiredSoFar(v.db, a.db, todo, now) && fn in todo && fn in v.db.fns && v.db.fns[fn].id == fn
    requires CronTicked(a, b, v.db.fns[fn], now, fired, run, queue)
    ensures FiredSoFar(v.db, b.db, todo - {fn}, now)
    ensures fired <==> FiresFor(v.db.fns[fn], now)
  {
    hide OldestQueued, HasQueued, FiresFor;
  }

  // Every cron that was due when the functions were read has fired, or its compare-and-set was refused.
  ghost predicate AllFired(ops: seq<Op>, first: nat, db: DB, log: seq<Fired>, now: int) {
    forall f :: f in db.fns && FiresFor(db.fns[f], now) ==> Tried(ops, first, db.fns[f], log, f)
  }

  ghost predicate Tried(ops: seq<Op>, first: nat, f: Function, log: seq<Fired>, id: FnId) {
    (exists e :: e in log && e.fn == id) || CronRefused(ops, first, f)
  }

  lemma {:induction false} TriedStays(ops: seq<Op>, later: seq<Op>, first: nat, f: Function, log: seq<Fired>, longer: seq<Fired>,
          id: FnId)
    requires ops <= later && log <= longer && Tried(ops, first, f, log, id)
    ensures Tried(later, first, f, longer, id)
  {
    hide CronRefused;
    if e :| e in log && e.fn == id {
      assert e in longer;
    } else {
      RefusalStays(ops, later, first, first, f);
    }
  }

  // The crons of db that are not in todo have been tried.
  ghost predicate TriedSoFar(ops: seq<Op>, first: nat, db: DB, todo: set<FnId>, log: seq<Fired>, now: int) {
    forall f :: f in db.fns && f !in todo && FiresFor(db.fns[f], now) ==> Tried(ops, first, db.fns[f], log, f)
  }

  lemma {:induction false} TriesOne(ops: seq<Op>, later: seq<Op>, first: nat, db: DB, todo: set<FnId>, log: seq<Fired>,
          longer: seq<Fired>, f: FnId, now: int)
    requires ops <= later && log <= longer && TriedSoFar(ops, first, db, todo, log, now) && f in db.fns
    requires FiresFor(db.fns[f], now) ==> Tried(later, first, db.fns[f], longer, f)
    ensures TriedSoFar(later, first, db, todo - {f}, longer, now)
  {
    hide Tried, FiresFor;
    forall g | g in db.fns && g !in todo && FiresFor(db.fns[g], now) ensures Tried(later, first, db.fns[g], longer, g) {
      TriedStays(ops, later, first, db.fns[g], log, longer, g);
    }
  }

  // The first half of a Tick: every cron that is due.
  method FireCrons(b: Backend, now: int) returns (ghost log: seq<Fired>)
    requires b.Valid()
    modifies b
    ensures b.Valid() && old(b.ops) <= b.ops && GoodLog(b.ops, log, |old(b.ops)|)
    ensures exists w :: Moment(b.ops, |old(b.ops)|, w) && AllFired(b.ops, |old(b.ops)|, w.db, log, now)
    ensures old(b.Quiet()) ==>
              && b.Quiet() && FiredSoFar(old(b.w).db, b.w.db, {}, now)
              && (forall f :: f in old(b.w).db.fns && FiresFor(old(b.w).db.fns[f], now) ==> exists e :: e in log && e.fn == f)
  {
    hide RunAll, Good, Later, Effect, Legal, FiredIn, CronTicked, ReadFunction, FiredSoFar, GoodLog, FiresFor, Moment, QueueSeen,
         CronRefused, Tried, TriedSoFar, HasQueued;
    ghost var v, quiet, first := b.w, b.Quiet(), |b.ops|;
    var db := b.Read();
    ghost var read, w := b.ops, b.w;
    MomentNow(read, first);
    var todo := set f | f in db.fns && db.fns[f].cron.Some?;
    log := [];
    NothingFired(v.db, b.ops, now, first);
    NothingTried(b.ops, first, db, now);
    FunctionsAreNamed(b.w);
    while todo != {}
      invariant b.Valid() && old(b.ops) <= b.ops && read <= b.ops
      invariant forall f :: f in todo ==> f in db.fns
      invariant GoodLog(b.ops, log, first) && forall i :: 0 <= i < |log| ==> log[i].fn !in todo
      invariant TriedSoFar(b.ops, first, db, todo, log, now)
      invariant quiet ==> b.Quiet() && db == v.db && FiredSoFar(v.db, b.w.db, todo, now)
      invariant quiet ==> forall f :: f in db.fns && FiresFor(db.fns[f], now) && f !in todo ==> exists e :: e in log && e.fn == f
      decreases |todo|
    {
      var f :| f in todo;
      FunctionWasRead(read, f);
      ghost var o0, a, log0 := b.ops, b.w, log;
      var fired, run, at, queue := FireCron(b, read, db.fns[f], now);
      if quiet {
        FiresOne(v, a, b.w, todo, f, now, fired, run, queue);
      }
      LogStays(o0, b.ops, log, first);
      if fired {
        LogGrows(o0, b.ops, log, first, todo, Fired(f, at, run));
        log := log + [Fired(f, at, run)];
      }
      IsTried(b.ops, |o0|, first, db.fns[f], log0, log, f, fired, at, run, now);
      TriesOne(o0, b.ops, first, db, todo, log0, log, f, now);
      LogKeeps(log0, log, db, todo, f, now);
      todo := todo - {f};
    }
    MomentStays(read, b.ops, first, first, w);
    AllAreFired(b.ops, first, db, log, now);
  }

  lemma {:induction false} NothingTried(ops: seq<Op>, first: nat, db: DB, now: int)
    ensures TriedSoFar(ops, first, db, (set f | f in db.fns && db.fns[f].cron.Some?), [], now)
  {
  }

  lemma {:induction false} AllAreFired(ops: seq<Op>, first: nat, db: DB, log: seq<Fired>, now: int)
    requires TriedSoFar(ops, first, db, {}, log, now)
    ensures AllFired(ops, first, db, log, now)
  {
    hide Tried, FiresFor;
  }

  // A function that FireCron was called for is in the log, or its compare-and-set was refused.
  lemma {:induction false} IsTried(ops: seq<Op>, first: nat, earlier: nat, f: Function, log: seq<Fired>, longer: seq<Fired>,
          id: FnId, fired: bool, at: nat, run: Option<RunId>, now: int)
    requires longer == if fired then log + [Fired(id, at, run)] else log
    requires earlier <= first && (!fired && FiresFor(f, now) ==> CronRefused(ops, first, f))
    ensures FiresFor(f, now) ==> Tried(ops, earlier, f, longer, id)
  {
    hide CronRefused, FiresFor;
    if fired {
      assert longer[|log|] in longer && longer[|log|].fn == id;
    } else if FiresFor(f, now) {
      RefusalStays(ops, ops, first, earlier, f);
    }
  }

  lemma {:induction false} AllFiredStays(ops: seq<Op>, later: seq<Op>, first: nat, w: World, log: seq<Fired>, now: int)
    requires ops <= later && Moment(ops, first, w) && AllFired(ops, first, w.db, log, now)
    ensures Moment(later, first, w) && AllFired(later, first, w.db, log, now)
  {
    hide Tried, FiresFor, Moment;
    MomentStays(ops, later, first, first, w);
    forall f | f in w.db.fns && FiresFor(w.db.fns[f], now) ensures Tried(later, first, w.db.fns[f], log, f) {
      TriedStays(ops, later, first, w.db.fns[f], log, log, f);
    }
  }

  lemma {:induction false} AllReapedStays(ops: seq<Op>, first: nat, earlier: nat, w: World, now: int)
    requires earlier <= first && Moment(ops, first, w) && AllReaped(ops, first, w.db, now)
    ensures Moment(ops, earlier, w) && AllReaped(ops, earlier, w.db, now)
  {
    hide ReapDone, Moment;
    MomentStays(ops, ops, first, earlier, w);
    forall id | id in w.db.runs && w.db.runs[id].status == Running ensures ReapDone(ops, earlier, id, w.db.runs[id], now) {
      ReapStays(ops, ops, first, earlier, id, w.db.runs[id], now);
    }
  }

  /**
   One Tick: every cron that is due, then the reaper. `log` lists what fired: each function at most once
   and with at most one run, each by a compare-and-set of this very call; a cron that was due and did not
   fire had it refused, and a run that was overdue has ended. Left alone, all crons that are due fire and
   no overdue run is left.
   */
  method Tick(b: Backend, now: int) returns (ghost log: seq<Fired>)
    requires b.Valid()
    modifies b
    ensures b.Valid() && old(b.ops) <= b.ops
    ensures GoodLog(b.ops, log, |old(b.ops)|)
    ensures exists w :: Moment(b.ops, |old(b.ops)|, w) && AllFired(b.ops, |old(b.ops)|, w.db, log, now)
    ensures exists w :: Moment(b.ops, |old(b.ops)|, w) && AllReaped(b.ops, |old(b.ops)|, w.db, now)
    ensures old(b.Quiet()) ==>
              && FiredSoFar(old(b.w).db, b.w.db, {}, now)
              && (forall id :: id in b.w.db.runs && b.w.db.runs[id].status == Running ==>
                    var r := b.w.db.runs[id];
                    r.fn in b.w.db.fns && r.startedAt.Some? ==>
                      now - r.startedAt.value <= (b.w.db.fns[r.fn].timeoutSeconds + 300) * 1_000_000_000)
              && (forall f :: f in old(b.w).db.fns && FiresFor(old(b.w).db.fns[f], now) ==> exists e :: e in log && e.fn == f)
  {
    hide RunAll, FiredSoFar, GoodLog, ReapedSoFar, Overdue, FiresFor, Moment, AllFired, AllReaped;
    ghost var v, quiet, first := b.w, b.Quiet(), |b.ops|;
    log := FireCrons(b, now);
    ghost var o1, c := b.ops, b.w;
    ghost var w :| Moment(o1, first, w) && AllFired(o1, first, w.db, log, now);
    Reap(b, now);
    ghost var x :| Moment(b.ops, |o1|, x) && AllReaped(b.ops, |o1|, x.db, now);
    AllFiredStays(o1, b.ops, first, w, log, now);
    AllReapedStays(b.ops, |o1|, first, x, now);
    LogStays(o1, b.ops, log, first);
    if quiet {
      NothingOverdue(c.db, b.w.db, now);
      ReapKeepsFunctions(v.db, c.db, b.w.db, now);
    }
  }

  lemma NothingFired(db: DB, ops: seq<Op>, now: int, first: nat)
    ensures GoodLog(ops, [], first)
    ensures FiredSoFar(db, db, (set f | f in db.fns && db.fns[f].cron.Some?), now)
    ensures forall f :: f in db.fns && FiresFor(db.fns[f], now) ==> db.fns[f].cron.Some?
  {
  }

  lemma FunctionsAreNamed(w: World)
    requires Good(w)
    ensures forall f :: f in w.db.fns ==> w.db.fns[f].id == f
  {
    hide SoundRuns, SoundTokens, WithinLimits, ValidFunction;
    forall f | f in w.db.fns ensures w.db.fns[f].id == f {
      assert Fixed(w.db.fns[f]) == Fixed(w.known[f]);
    }
  }

  lemma {:induction false} FunctionWasRead(read: seq<Op>, f: FnId)
    requires f in RunAll(read).db.fns && RunAll(read).db.fns[f].id == f
    ensures ReadFunction(read, RunAll(read).db.fns[f])
  {
    hide RunAll;
  }

  // After one more function the log still lists all that fire among those looked at.
  lemma LogKeeps(before: seq<Fired>, after: seq<Fired>, db: DB, todo: set<FnId>, f: FnId, now: int)
    requires before <= after && f in db.fns
    ensures (forall g :: g in db.fns && FiresFor(db.fns[g], now) && g !in todo ==> exists e :: e in before && e.fn == g)
            && (FiresFor(db.fns[f], now) ==> exists e :: e in after && e.fn == f)
            ==> forall g :: g in db.fns && FiresFor(db.fns[g], now) && g !in todo - {f} ==> exists e :: e in after && e.fn == g
  {
    hide FiresFor;
  }

  lemma NothingOverdue(v: DB, w: DB, now: int)
    requires ReapedSoFar(v, w, {}, now)
    ensures forall id :: id in w.runs && w.runs[id].status == Running ==>
              var r := w.runs[id];
              r.fn in w.fns && r.startedAt.Some? ==> now - r.startedAt.value <= (w.fns[r.fn].timeoutSeconds + 300) * 1_000_000_000
  {
    hide RevokedIfOf;
  }

  lemma ReapKeepsFunctions(v: DB, c: DB, w: DB, now: int)
    requires FiredSoFar(v, c, {}, now) && ReapedSoFar(c, w, {}, now)
    ensures FiredSoFar(v, w, {}, now)
  {
  }

  // Starting a run gives no other run a chance to start.
  lemma StartHelpsNobody(db: DB, id: RunId, node: string, now: int, other: RunId)
    requires CanStart(db, id) && !CanStart(db, other)
    ensures !CanStart(Started(db, id, node, now), other)
  {
    if other in db.runs && db.runs[other].fn in db.fns {
      StartAddsOne(db, id, node, now, db.runs[other].fn);
      Subset(RunningOf(db, db.runs[other].fn), RunningOf(Started(db, id, node, now), db.runs[other].fn));
    }
  }

  // This call started the run, and nobody has taken a step of the run for it.
  ghost predicate DispatchedIn(ops: seq<Op>, w: World, id: RunId, first: nat) {
    InPhase(w, id, Ready) && exists k :: first <= k < |ops| && StartedAt(ops, k, id)
  }

  lemma {:induction false} DispatchStays(before: seq<Op>, after: seq<Op>, id: RunId, first: nat)
    requires before <= after && DispatchedIn(before, RunAll(before), id, first)
    requires id in RunAll(after).phase && RunAll(after).phase[id] == Ready
    ensures DispatchedIn(after, RunAll(after), id, first)
  {
    hide RunAll, CanStart;
    ReadyStays(before, after, id, Ready);
    var k :| first <= k < |before| && StartedAt(before, k, id);
    assert after[..k] == before[..k] && after[k] == before[k];
    assert StartedAt(after, k, id);
  }

  lemma JustDispatched(before: seq<Op>, after: seq<Op>, id: RunId, node: string, now: int, b: World, w: World, first: nat)
    requires Recorded(before, after, TryStart(id, node, now), b, w) && CanStart(b.db, id) && InPhase(w, id, Ready) && first <= |before|
    ensures DispatchedIn(after, w, id, first)
  {
    hide RunAll, Legal, Effect, Good, CanStart;
    assert StartedAt(after, |after| - 1, id);
  }

  lemma StartOutcome(b: World, id: RunId, node: string, now: int)
    requires CanStart(b.db, id)
    ensures Effect(b, TryStart(id, node, now)).db == Started(b.db, id, node, now)
    ensures forall r :: ForBackend(b.db, r) <==> ForBackend(Started(b.db, id, node, now), r)
  {
  }

  // At some moment from step `first` on the run could not be started for the backend.
  ghost predicate NotDispatched(ops: seq<Op>, first: nat, r: Run) {
    exists w :: Moment(ops, first, w) && !(ForBackend(w.db, r) && CanStart(w.db, r.id))
  }

  lemma {:induction false} NotDispatchedStays(ops: seq<Op>, later: seq<Op>, first: nat, r: Run)
    requires ops <= later && NotDispatched(ops, first, r)
    ensures NotDispatched(later, first, r)
  {
    hide Moment, CanStart, ForBackend;
    var w :| Moment(ops, first, w) && !(ForBackend(w.db, r) && CanStart(w.db, r.id));
    MomentStays(ops, later, first, first, w);
  }

  lemma {:induction false} CouldNotStart(ops: seq<Op>, first: nat, earlier: nat, r: Run, w: World)
    requires earlier <= first && Moment(ops, first, w) && !(ForBackend(w.db, r) && CanStart(w.db, r.id))
    ensures NotDispatched(ops, earlier, r)
  {
    hide Moment, CanStart, ForBackend;
    MomentStays(ops, ops, first, earlier, w);
  }

  // One run of the queue that was read after `seen`.
  method DispatchOne(b: Backend, node: string, r: Run, now: int, ghost seen: seq<Op>) returns (ok: bool)
    requires b.Valid() && seen <= b.ops && r.id in RunAll(seen).db.runs && RunAll(seen).db.runs[r.id] == r
    modifies b
    ensures b.Valid() && old(b.ops) <= b.ops && old(b.mine) <= b.mine
    ensures ok ==> r.id in b.mine && DispatchedIn(b.ops, b.w, r.id, |old(b.ops)|)
    ensures !ok ==> NotDispatched(b.ops, |old(b.ops)|, r)
    ensures forall x :: x in old(b.mine) ==> x in b.w.phase && b.w.phase[x] == old(b.w).phase[x]
    ensures old(b.Quiet()) ==>
              && b.Quiet() && (forall x :: ForBackend(b.w.db, x) <==> ForBackend(old(b.w).db, x))
              && (ForBackend(old(b.w).db, r) ==> !CanStart(b.w.db, r.id))
              && forall x :: !CanStart(old(b.w).db, x) ==> !CanStart(b.w.db, x)
  {
    hide RunAll, Good, Later, Effect, Legal, CanStart, Recorded, InPhase, ForBackend, Allowed, DispatchedIn, Started, Moment,
         NotDispatched;
    ghost var o0 := b.ops;
    var read := b.Read();
    ghost var o1 := b.ops;
    MomentNow(o1, |o0|);
    if !ForBackend(read, r) {
      CouldNotStart(o1, |o0|, |o0|, r, b.w);
      return false;
    }
    ghost var before: World;
    ok, before := b.TryStart(r.id, node, now);
    EffectRecorded(o1, b.ops, TryStart(r.id, node, now), before, b.w);
    RecordedExtends(o1, b.ops, TryStart(r.id, node, now), before, b.w);
    RecordedMoment(o1, b.ops, TryStart(r.id, node, now), before, b.w);
    if ok {
      StillForBackend(seen, o1, b.ops, r);
      JustDispatched(o1, b.ops, r.id, node, now, before, b.w, |o0|);
      StartOutcome(before, r.id, node, now);
      AllStayRefused(before.db, r.id, node, now);
    } else {
      FailedStart(before, r.id, node, now);
      CouldNotStart(b.ops, |o1|, |o0|, r, before);
    }
  }

  /**
   Starts the queued Lambda runs that have room. Every run it returns was started by this very call and
   is ready for its batches; every other run of the queue could not be started at some moment. Left alone,
   none of the runs in the queue that are for the backend can start afterwards.
   */
  method DispatchLambda(b: Backend, node: string, now: int) returns (started: seq<RunId>, ghost queue: seq<Run>)
    requires b.Valid()
    modifies b
    ensures b.Valid() && old(b.ops) <= b.ops
    ensures forall i :: 0 <= i < |started| ==> started[i] in b.mine && DispatchedIn(b.ops, b.w, started[i], |old(b.ops)|)
    ensures QueueSeen(b.ops, |old(b.ops)|, queue, 50)
    ensures forall j :: 0 <= j < |queue| ==> queue[j].id in started || NotDispatched(b.ops, |old(b.ops)|, queue[j])
    ensures old(b.Quiet()) ==> && OldestQueued(old(b.w).db, queue, 50)
                               && forall r :: r in queue && ForBackend(old(b.w).db, r) ==> !CanStart(b.w.db, r.id)
  {
    hide RunAll, Good, Later, CanStart, OldestQueued, ForBackend, DispatchedIn, Moment, QueueSeen, NotDispatched;
    ghost var v, quiet, first := b.w, b.Quiet(), |b.ops|;
    var queued := b.QueuedRuns(50);
    queue := queued;
    started := [];
    ghost var seen := b.ops;
    QueueWasSeen(seen, first, b.w, queue, 50);
    QueuedAreRuns(b.w.db, queued, 50);
    for i := 0 to |queued|
      invariant b.Valid() && old(b.ops) <= b.ops && seen <= b.ops
      invariant forall j :: 0 <= j < |started| ==> started[j] in b.mine && DispatchedIn(b.ops, b.w, started[j], first)
      invariant forall j :: 0 <= j < i ==> queue[j].id in started || NotDispatched(b.ops, first, queue[j])
      invariant quiet ==> b.Quiet() && forall r :: ForBackend(b.w.db, r) <==> ForBackend(v.db, r)
      invariant quiet ==> forall j :: 0 <= j < i && ForBackend(v.db, queue[j]) ==> !CanStart(b.w.db, queue[j].id)
    {
      var r := queued[i];
      ghost var o0, w0 := b.ops, b.w;
      var ok := DispatchOne(b, node, r, now, seen);
      forall j | 0 <= j < |started| ensures DispatchedIn(b.ops, b.w, started[j], first) {
        DispatchPhase(w0, started[j]);
        DispatchStays(o0, b.ops, started[j], first);
      }
      forall j | 0 <= j < i && queue[j].id !in started ensures NotDispatched(b.ops, first, queue[j]) {
        NotDispatchedStays(o0, b.ops, first, queue[j]);
      }
      if ok {
        DispatchedEarlier(b.ops, b.w, r.id, |o0|, first);
        started := started + [r.id];
        assert started[|started| - 1] == r.id;
      } else {
        NotDispatchedEarlier(b.ops, |o0|, first, r);
      }
    }
    QueueStays(seen, b.ops, first, first, queue, 50);
  }

  lemma {:induction false} NotDispatchedEarlier(ops: seq<Op>, first: nat, earlier: nat, r: Run)
    requires earlier <= first && NotDispatched(ops, first, r)
    ensures NotDispatched(ops, earlier, r)
  {
    hide Moment, CanStart, ForBackend;
    var w :| Moment(ops, first, w) && !(ForBackend(w.db, r) && CanStart(w.db, r.id));
    MomentStays(ops, ops, first, earlier, w);
  }

  lemma {:induction false} DispatchedEarlier(ops: seq<Op>, w: World, id: RunId, first: nat, earlier: nat)
    requires earlier <= first && DispatchedIn(ops, w, id, first)
    ensures DispatchedIn(ops, w, id, earlier)
  {
    hide StartedAt;
  }

  lemma DispatchPhase(w: World, id: RunId)
    ensures forall ops, first :: DispatchedIn(ops, w, id, first) ==> id in w.phase && w.phase[id] == Ready
  {
  }

  lemma AllStayRefused(db: DB, id: RunId, node: string, now: int)
    requires CanStart(db, id)
    ensures forall x :: !CanStart(db, x) ==> !CanStart(Started(db, id, node, now), x)
    ensures !CanStart(Started(db, id, node, now), id)
  {
    hide RunningOf;
    forall x | !CanStart(db, x) ensures !CanStart(Started(db, id, node, now), x) {
      StartHelpsNobody(db, id, node, now, x);
    }
  }
}
