/** What holds over every run of the function queue: starts, limits, tokens and crons. */
module FnSafety {
  import opened Option
  import opened FnStore
  import opened FnRuns

  ghost function At(ops: seq<Op>, k: nat): World
    requires k <= |ops|
  {
    RunAll(ops[..k])
  }

  // w was the world at some moment from step `first` on.
  ghost predicate Moment(ops: seq<Op>, first: nat, w: World) {
    exists k: nat :: first <= k <= |ops| && w == At(ops, k)
  }

  lemma {:induction false} MomentNow(ops: seq<Op>, first: nat)
    requires first <= |ops|
    ensures Moment(ops, first, RunAll(ops))
  {
    hide RunAll;
    assert ops[..|ops|] == ops;
    assert At(ops, |ops|) == RunAll(ops);
  }

  lemma {:induction false} MomentStays(ops: seq<Op>, later: seq<Op>, first: nat, earlier: nat, w: World)
    requires ops <= later && earlier <= first && Moment(ops, first, w)
    ensures Moment(later, earlier, w)
  {
    hide RunAll;
    var k: nat :| first <= k <= |ops| && w == At(ops, k);
    assert later[..k] == ops[..k];
    assert w == At(later, k);
  }

  // Step k was a TryStart of this run, and it succeeded.
  ghost predicate StartedAt(ops: seq<Op>, k: nat, id: RunId)
    requires k < |ops|
  {
    ops[k].TryStart? && ops[k].id == id && CanStart(At(ops, k).db, id)
  }

  lemma RunAllStep(ops: seq<Op>, k: nat)
    requires k < |ops|
    ensures At(ops, k + 1) == Step(At(ops, k), ops[k])
  {
    assert ops[..k + 1][..k] == ops[..k];
  }

  lemma LaterOn(ops: seq<Op>, j: nat, k: nat)
    requires j <= k <= |ops|
    ensures Later(At(ops, j), At(ops, k)) && Good(At(ops, j)) && Good(At(ops, k))
  {
    assert ops[..j] <= ops[..k];
    TimePasses(ops[..j], ops[..k]);
    EveryRunIsGood(ops[..j]);
    EveryRunIsGood(ops[..k]);
  }

  /** No function ever has more runs at work than it allows. */
  lemma {:induction false} NeverOverLimit(ops: seq<Op>, f: FnId)
    requires f in RunAll(ops).known
    ensures var w := RunAll(ops);
            var running := set id | id in w.db.runs && w.db.runs[id].status == Running && w.db.runs[id].fn == f;
            running == {} || |running| <= w.known[f].maxConcurrency
  {
    EveryRunIsGood(ops);
    var w := RunAll(ops);
    assert RunningOf(w.db, f) == set id | id in w.db.runs && w.db.runs[id].status == Running && w.db.runs[id].fn == f;
  }

  /** A run goes from queued to running to ended and never back. */
  lemma RankNeverDrops(ops: seq<Op>, j: nat, k: nat, id: RunId)
    requires j <= k <= |ops| && id in At(ops, j).db.runs
    ensures id in At(ops, k).db.runs
    ensures var s, t := At(ops, j).db.runs[id].status, At(ops, k).db.runs[id].status;
            && Rank(s) <= Rank(t)
            && (s == Running ==> t in {Running, Succeeded, Failed, Cancelled, TimedOut})
            && (s in {Succeeded, Failed, Cancelled, TimedOut} ==> t in {Succeeded, Failed, Cancelled, TimedOut})
  {
    LaterOn(ops, j, k);
  }

  /** Of all the processes that try to start a run, one succeeds at most. */
  lemma StartedAtMostOnce(ops: seq<Op>, j: nat, k: nat, id: RunId)
    requires j < k < |ops| && StartedAt(ops, j, id)
    ensures !StartedAt(ops, k, id)
  {
    hide RunAll, Good;
    RunAllStep(ops, j);
    LaterOn(ops, j + 1, k);
    assert At(ops, j + 1).db.runs[id].status == Running;
  }

  // ---- run tokens ------------------------------------------------------------------------------------

  datatype Claims = Claims(project: int, fn: string, run: RunId, scopes: seq<string>, expiresAt: int)

  // Introspect reads the token, the run and the function in three separate calls.
  function Introspected(tokenDB: DB, runDB: DB, fnDB: DB, hash: string, now: int): Option<Claims> {
    if hash !in tokenDB.tokens || tokenDB.tokens[hash].revokedAt.Some? || !(now < tokenDB.tokens[hash].expiresAt) then None
    else
      var t := tokenDB.tokens[hash];
      if t.run !in runDB.runs || runDB.runs[t.run].status != Running then None
      else
        var r := runDB.runs[t.run];
        if r.fn !in fnDB.fns then None
        else Some(Claims(fnDB.fns[r.fn].project, fnDB.fns[r.fn].name, r.id, t.scopes, t.expiresAt))
  }

  ghost predicate OnlyUnrevoked(w: World, hash: string, id: RunId) {
    Unrevoked(w, hash, id) && forall h :: Unrevoked(w, h, id) ==> h == hash
  }

  // The token is unexpired and the only unrevoked one of a running run.
  ghost predicate Live(w: World, hash: string, now: int) {
    && hash in w.db.tokens && now < w.db.tokens[hash].expiresAt
    && var id := w.db.tokens[hash].run;
       id in w.db.runs && w.db.runs[id].status == Running && OnlyUnrevoked(w, hash, id)
  }

  lemma TokenMeans(w: World, hash: string)
    requires Good(w) && hash in w.db.tokens
    ensures var t := w.db.tokens[hash];
            && t.run in w.db.runs && w.db.runs[t.run].status != Queued && w.db.runs[t.run].fn in w.known
            && t.scopes == w.known[w.db.runs[t.run].fn].scopes
            && (t.revokedAt == None ==> OnlyUnrevoked(w, hash, t.run))
  {
    hide WithinLimits, SoundFunctions;
    var t := w.db.tokens[hash];
    if t.revokedAt == None {
      assert Unrevoked(w, hash, t.run);
    }
  }

  /**
   An introspection that calls a token active is right about the moment it read the token, whatever
   happened while it ran: the token was live then, its run was still running when the run was read,
   and the scopes it reports are those the run's function declared.
   */
  lemma ActiveMeansLive(ops: seq<Op>, i: nat, j: nat, k: nat, hash: string, now: int)
    requires i <= j <= k <= |ops|
    requires Introspected(At(ops, i).db, At(ops, j).db, At(ops, k).db, hash, now).Some?
    ensures Live(At(ops, i), hash, now)
    ensures var c := Introspected(At(ops, i).db, At(ops, j).db, At(ops, k).db, hash, now).value;
            && c.run in At(ops, j).db.runs && At(ops, j).db.runs[c.run].status == Running
            && At(ops, j).db.runs[c.run].fn in At(ops, j).known
            && c.scopes == At(ops, j).known[At(ops, j).db.runs[c.run].fn].scopes
  {
    hide RunAll, Good;
    LaterOn(ops, i, j);
    TokenMeans(At(ops, i), hash);
    RunsAreNamed(At(ops, j));
  }

  lemma RunsAreNamed(w: World)
    requires Good(w)
    ensures forall id :: id in w.db.runs ==> w.db.runs[id].id == id && w.db.runs[id].fn in w.known
  {
    hide SoundTokens, WithinLimits, SoundFunctions;
  }

  /** A token that is live all along is called active as long as its function exists. */
  lemma LiveMeansActive(ops: seq<Op>, i: nat, j: nat, k: nat, hash: string, now: int)
    requires i <= j <= k <= |ops|
    requires Live(At(ops, i), hash, now) && Live(At(ops, j), hash, now)
    requires At(ops, j).db.runs[At(ops, j).db.tokens[hash].run].fn in At(ops, k).db.fns
    ensures Introspected(At(ops, i).db, At(ops, j).db, At(ops, k).db, hash, now).Some?
  {
    hide RunAll, Good;
    LaterOn(ops, i, j);
  }

  /** Once a run has ended none of its tokens is ever active again. */
  lemma EndedMeansInactive(ops: seq<Op>, e: nat, i: nat, j: nat, k: nat, hash: string, now: int)
    requires i <= j <= k <= |ops| && e <= j
    requires hash in At(ops, i).db.tokens && At(ops, i).db.tokens[hash].run in At(ops, e).db.runs
    requires At(ops, e).db.runs[At(ops, i).db.tokens[hash].run].status in {Succeeded, Failed, Cancelled, TimedOut}
    ensures Introspected(At(ops, i).db, At(ops, j).db, At(ops, k).db, hash, now) == None
  {
    hide RunAll, Good;
    LaterOn(ops, e, j);
  }

  /** After a mint the new token is the only unrevoked one of its run: the previous batch's token is dead. */
  lemma MintReplaces(ops: seq<Op>, k: nat)
    requires k < |ops| && (ops[k].MintClaim? || ops[k].MintBatch?) && Legal(At(ops, k), ops[k])
    ensures OnlyUnrevoked(At(ops, k + 1), ops[k].hash, ops[k].id)
  {
    RunAllStep(ops, k);
    EveryRunIsGood(ops[..k + 1]);
    assert Unrevoked(At(ops, k + 1), ops[k].hash, ops[k].id);
    hide RunAll, WithinLimits, SoundFunctions, SoundRuns, Introspected, Effect;
  }

  lemma {:induction false} OneMore(ops: seq<Op>, op: Op)
    ensures RunAll(ops + [op]) == Step(RunAll(ops), op)
  {
    assert (ops + [op])[..|ops|] == ops;
  }

  /**
   Revoking does not suffice. When a run ends and its tokens are revoked just after a batch has checked
   that it runs, the batch still mints: the ended run is left with an unrevoked token that only the
   run's status makes inactive.
   */
  lemma {:induction false} RevocationAloneIsNotEnough(ops: seq<Op>, id: RunId, hash: string, r: Report, now: int)
    requires InPhase(RunAll(ops), id, Checked) && hash !in RunAll(ops).db.tokens && Terminal(r.status)
    ensures var w := RunAll(ops + [Finish(id, r)] + [Revoke(id, now)] + [Wipe(id, now)] + [MintBatch(id, hash, now)]);
            && Unrevoked(w, hash, id) && now < w.db.tokens[hash].expiresAt
            && id in w.db.runs && Terminal(w.db.runs[id].status) && Introspected(w.db, w.db, w.db, hash, now) == None
  {
    hide RunAll, Good;
    var a := ops + [Finish(id, r)];
    var b := a + [Revoke(id, now)];
    var c := b + [Wipe(id, now)];
    OneMore(ops, Finish(id, r));
    OneMore(a, Revoke(id, now));
    OneMore(b, Wipe(id, now));
    OneMore(c, MintBatch(id, hash, now));
  }
}
