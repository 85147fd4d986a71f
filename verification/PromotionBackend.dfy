/**
 The promotion store as one service instance sees it (internal/environments/store.go).

 Between any two calls of one service the others may do anything a service can do: the store plays
 an arbitrary script of their steps. Its calls may also fail without effect.
 */
module PromotionBackend {
  import opened Option
  import opened Windows
  import opened Promotions
  import opened Gate
  import opened PromotionStore
  import opened PromotionRuns

  // Created earlier, ties broken by id: the order of ListActive and ListPromotions.
  predicate Older(p: Promotion, q: Promotion) {
    p.createdAt < q.createdAt || (p.createdAt == q.createdAt && p.id < q.id)
  }

  ghost predicate OldestFirst(ps: seq<Promotion>) {
    forall i, j :: 0 <= i < j < |ps| ==> Older(ps[i], ps[j])
  }

  // ps are the oldest active promotions of db, at most limit of them.
  ghost predicate OldestActive(db: DB, ps: seq<Promotion>, limit: nat) {
    && OldestFirst(ps)
    && |ps| <= limit
    && (forall i :: 0 <= i < |ps| ==> ps[i].id in db.promos && ps[i] == db.promos[ps[i].id] && IsActive(ps[i].status))
    && forall id :: id in db.promos && IsActive(db.promos[id].status) ==>
                      db.promos[id] in ps || (|ps| == limit && forall i :: 0 <= i < |ps| ==> Older(ps[i], db.promos[id]))
  }

  /** By the time of their creation, and by id where that is the same: every active one left out is younger than all listed. */
  lemma {:induction false} OldestActiveMeans(db: DB, ps: seq<Promotion>, limit: nat)
    requires OldestActive(db, ps, limit)
    ensures |ps| <= limit
    ensures forall i, j :: 0 <= i < j < |ps| ==>
              ps[i].createdAt < ps[j].createdAt || (ps[i].createdAt == ps[j].createdAt && ps[i].id < ps[j].id)
    ensures forall p :: p in ps ==> p.id in db.promos && db.promos[p.id] == p && p.status in {Pending, Waiting, Approved, Deploying}
    ensures forall id :: id in db.promos && db.promos[id].status in {Pending, Waiting, Approved, Deploying} ==>
              || db.promos[id] in ps
              || (|ps| == limit && forall q :: q in ps ==>
                    q.createdAt < db.promos[id].createdAt || (q.createdAt == db.promos[id].createdAt && q.id < db.promos[id].id))
  {
  }

  ghost predicate IsOldest(db: DB, ids: set<PromotionId>, m: PromotionId)
    requires m in db.promos && ids <= db.promos.Keys
  {
    forall x :: x in ids && x != m ==> Older(db.promos[m], db.promos[x])
  }

  lemma KeysAreIds(db: DB)
    requires WellKeyed(db)
    ensures forall id :: id in db.promos ==> db.promos[id].id == id
  {
  }

  lemma OldestExists(db: DB, ids: set<PromotionId>) returns (m: PromotionId)
    requires WellKeyed(db) && ids != {} && ids <= db.promos.Keys
    ensures m in ids
    ensures IsOldest(db, ids, m)
  {
    hide WellKeyed;
    m :| m in ids;
    var rest := ids - {m};
    if rest != {} {
      var n: PromotionId := OldestExists(db, rest);
      var first: PromotionId := m;
      assert db.promos[m].id == m && db.promos[n].id == n by { KeysAreIds(db); }
      m := if Older(db.promos[n], db.promos[m]) then n else m;
      forall x | x in ids && x != m ensures Older(db.promos[m], db.promos[x]) {
        assert x == first || x == n || (x in rest && Older(db.promos[n], db.promos[x]));
      }
    } else {
      assert forall x :: x in ids && x != m ==> x in rest;
    }
  }

  // The oldest `limit` promotions among `all`, oldest first.
  method TakeOldest(db: DB, all: set<PromotionId>, limit: nat) returns (ps: seq<Promotion>)
    requires WellKeyed(db) && all <= db.promos.Keys
    ensures OldestFirst(ps) && |ps| <= limit && |ps| <= |all|
    ensures forall i :: 0 <= i < |ps| ==> ps[i].id in all && ps[i] == db.promos[ps[i].id]
    ensures forall id :: id in all ==>
              db.promos[id] in ps || (|ps| == limit && forall i :: 0 <= i < |ps| ==> Older(ps[i], db.promos[id]))
  {
    var rest := all;
    ps := [];
    while rest != {} && |ps| < limit
      invariant rest <= all && |ps| <= limit && |ps| + |rest| == |all|
      invariant forall i :: 0 <= i < |ps| ==> ps[i].id in all && ps[i] == db.promos[ps[i].id]
      invariant forall id :: id in all && id !in rest ==> db.promos[id] in ps
      invariant forall i, id :: 0 <= i < |ps| && id in rest ==> Older(ps[i], db.promos[id])
      invariant OldestFirst(ps)
      decreases |rest|
    {
      ghost var w := OldestExists(db, rest);
      var m :| m in rest && forall x :: x in rest && x != m ==> Older(db.promos[m], db.promos[x]);
      assert forall i :: 0 <= i < |ps| ==> Older(ps[i], db.promos[m]);
      hide WellKeyed;
      ps := ps + [db.promos[m]];
      rest := rest - {m};
    }
  }

  // p is what position `at` held for an active promotion.
  ghost predicate Snapshot(h: History, p: Promotion, at: nat) {
    ReadPromotion(h, p.id, at) && h[at].promos[p.id] == p && IsActive(p.status)
  }

  ghost predicate EnvSnapshot(h: History, env: Environment, id: EnvId, at: nat) {
    ReadEnv(h, id, at) && h[at].envs[id] == env && ValidEnv(env)
  }

  // What the others do in one turn, and what is left of a script.
  function Turn(others: seq<seq<Op>>): seq<Op> {
    if others == [] then [] else others[0]
  }

  function AfterTurn(others: seq<seq<Op>>): seq<seq<Op>> {
    if others == [] then others else others[1..]
  }

  predicate Fails(faults: seq<bool>) {
    faults != [] && faults[0]
  }

  // At some position from `from` on the call was made, with this reply.
  ghost predicate HappenedBetween(h: History, from: nat, c: Call, reply: Reply) {
    exists k :: from <= k < |h| && 0 < k && HappenedAt(h, k, c, reply)
  }

  ghost predicate HappenedAt(h: History, k: nat, c: Call, reply: Reply)
    requires 0 < k < |h|
  {
    Apply(h[k - 1], c) == (h[k], reply)
  }

  // A transition from p to next: it was made, or refused, or (only if calls may fail) not made.
  ghost predicate Moves(h: History, from: nat, faulty: bool, c: Call, p: Promotion, next: Promotion, q: Promotion) {
    || (q == next && HappenedBetween(h, from, c, Moved(true)))
    || (q == p && (faulty || HappenedBetween(h, from, c, Moved(false))))
  }

  class Store {
    var hist: History
    var others: seq<seq<Op>>
    var faults: seq<bool>
    // How many calls have failed so far.
    ghost var failed: nat
    ghost var ops: seq<Op>

    ghost predicate Valid()
      reads this
    {
      hist == Run(ops)
    }

    // No other instance is at work and no call fails.
    ghost predicate Quiet()
      reads this
    {
      others == [] && faults == []
    }

    // The others take their turn: exactly the next part of their script.
    method Interfere()
      requires Valid()
      modifies this
      ensures Valid() && old(hist) <= hist && old(ops) <= ops && faults == old(faults) && failed == old(failed)
      ensures ops == old(ops) + Turn(old(others)) && others == AfterTurn(old(others))
      ensures old(others) == [] ==> others == [] && hist == old(hist) && ops == old(ops)
    {
      hide Run, Step;
      assert ops + [] == ops;
      if others != [] {
        RunIsValid(this);
        var batch := others[0];
        others := others[1..];
        for i := 0 to |batch|
          invariant hist == Run(ops) && old(hist) <= hist && ops == old(ops) + batch[..i] && faults == old(faults)
          invariant failed == old(failed)
          invariant others == old(others)[1..]
        {
          RunSteps(ops, batch[i]);
          StepExtends(hist, batch[i]);
          hist := Step(hist, batch[i]);
          ops := ops + [batch[i]];
          assert batch[..i + 1] == batch[..i] + [batch[i]];
        }
        assert batch[..|batch|] == batch;
        RunIsValid(this);
      }
    }

    method Fault() returns (err: bool)
      modifies this`faults, this`failed
      ensures err == Fails(old(faults)) && faults == old(faults)[if old(faults) == [] then 0 else 1..]
      ensures failed == old(failed) + if err then 1 else 0
      ensures old(faults) == [] ==> faults == [] && !err
    {
      err := false;
      if faults != [] {
        err := faults[0];
        faults := faults[1..];
      }
      if err {
        failed := failed + 1;
      }
    }

    // Makes one call: the others run, then the call happens at once or fails without effect.
    method Perform(c: Call, ghost op: Op) returns (err: bool, reply: Reply)
      requires Valid() && Legal(hist, op) && c == CallOf(hist, op)
      modifies this
      ensures Valid() && old(hist) <= hist && old(ops) <= ops
      ensures ops == old(ops) + Turn(old(others)) + (if err then [] else [op])
      ensures err == Fails(old(faults)) && faults == old(faults)[if old(faults) == [] then 0 else 1..]
      ensures others == AfterTurn(old(others)) && failed == old(failed) + if err then 1 else 0
      ensures !err ==> && |hist| > |old(hist)| && |ops| > |old(ops)| && ops[|ops| - 1] == op
                       && Apply(hist[|hist| - 2], c) == (hist[|hist| - 1], reply)
                       && hist[..|hist| - 1] == Run(old(ops) + Turn(old(others)))
      ensures !err ==> HappenedBetween(hist, |old(hist)|, c, reply)
      ensures old(faults) == [] ==> faults == [] && !err
      ensures old(Quiet()) ==> Quiet() && !err && hist == old(hist) + [Apply(Now(old(hist)), c).0]
    {
      hide Apply, CallOf, Legal, Run, Turn;
      Interfere();
      LegalLater(old(hist), hist, op);
      err := Fault();
      reply := Done;
      assert ops + [] == ops;
      if !err {
        var (db, r) := Apply(Now(hist), c);
        reply := r;
        RunSteps(ops, op);
        hist := hist + [db];
        ops := ops + [op];
        assert HappenedAt(hist, |hist| - 1, c, reply);
      }
    }

    method GetPromotion(id: PromotionId) returns (err: bool, p: Option<Promotion>, ghost at: nat)
      requires Valid()
      modifies this
      ensures Valid() && old(hist) <= hist && old(ops) <= ops
      ensures at == |hist| - 1
      ensures err == Fails(old(faults)) && faults == old(faults)[if old(faults) == [] then 0 else 1..] && (err ==> p == None)
      ensures !err ==> (p.Some? <==> ReadPromotion(hist, id, at)) && (p.Some? ==> p.value == hist[at].promos[id])
      ensures ops == old(ops) + Turn(old(others)) && others == AfterTurn(old(others)) && failed == old(failed) + if err then 1 else 0
      ensures old(faults) == [] ==> faults == [] && !err
      ensures old(Quiet()) ==> Quiet() && hist == old(hist)
    {
      hide Run;
      Interfere();
      err := Fault();
      at := |hist| - 1;
      p := if !err && id in Now(hist).promos then Some(Now(hist).promos[id]) else None;
    }

    method GetEnvByID(id: EnvId) returns (err: bool, e: Option<Environment>, ghost at: nat)
      requires Valid()
      modifies this
      ensures Valid() && old(hist) <= hist && old(ops) <= ops
      ensures at == |hist| - 1
      ensures err == Fails(old(faults)) && faults == old(faults)[if old(faults) == [] then 0 else 1..] && (err ==> e == None)
      ensures !err ==> (e.Some? <==> ReadEnv(hist, id, at))
      ensures e.Some? ==> ReadEnv(hist, id, at) && e.value == hist[at].envs[id] && e.value.id == id && ValidEnv(e.value)
      ensures ops == old(ops) + Turn(old(others)) && others == AfterTurn(old(others)) && failed == old(failed) + if err then 1 else 0
      ensures old(faults) == [] ==> faults == [] && !err
      ensures old(Quiet()) ==> Quiet() && hist == old(hist)
    {
      hide Run, Good, ValidEnv;
      Interfere();
      err := Fault();
      at := |hist| - 1;
      EveryRunIsGood(ops);
      GoodAtEnd(hist);
      e := if !err && id in Now(hist).envs then Some(Now(hist).envs[id]) else None;
    }

    // The oldest active promotions.
    method ListActive(limit: nat) returns (err: bool, ps: seq<Promotion>, ghost at: nat)
      requires Valid()
      modifies this
      ensures Valid() && old(hist) <= hist && old(ops) <= ops
      ensures at == |hist| - 1 && WellKeyed(hist[at]) && OldestFirst(ps)
      ensures err == Fails(old(faults)) && faults == old(faults)[if old(faults) == [] then 0 else 1..]
      ensures if err then ps == [] else OldestActive(hist[at], ps, limit)
      ensures forall i :: 0 <= i < |ps| ==> Snapshot(hist, ps[i], at)
      ensures ops == old(ops) + Turn(old(others)) && others == AfterTurn(old(others)) && failed == old(failed) + if err then 1 else 0
      ensures old(faults) == [] ==> faults == [] && !err
      ensures old(Quiet()) ==> Quiet() && hist == old(hist)
    {
      hide Run, Good, SoundApprovals, QuorumBy, Follows, OneDeployingPerEnv, OneActivePerCommit, OldestFirst, Older;
      NothingListed();
      Interfere();
      err := Fault();
      at := |hist| - 1;
      EveryRunIsGood(ops);
      GoodAtEnd(hist);
      ps := [];
      if !err {
        var db := Now(hist);
        var all := set id | id in db.promos && IsActive(db.promos[id].status);
        ps := TakeOldest(db, all, limit);
      }
    }

    // Every active promotion of one environment, oldest first.
    method ListActiveOf(env: EnvId) returns (err: bool, ps: seq<Promotion>, ghost at: nat)
      requires Valid()
      modifies this
      ensures Valid() && old(hist) <= hist && old(ops) <= ops
      ensures at == |hist| - 1 && WellKeyed(Now(hist)) && OldestFirst(ps)
      ensures err == Fails(old(faults)) && faults == old(faults)[if old(faults) == [] then 0 else 1..]
      ensures forall i :: 0 <= i < |ps| ==> Snapshot(hist, ps[i], at) && ps[i].env == env
      ensures if err then ps == [] else
                forall id :: id in Now(hist).promos && IsActive(Now(hist).promos[id].status) && Now(hist).promos[id].env == env ==>
                               Now(hist).promos[id] in ps
      ensures ops == old(ops) + Turn(old(others)) && others == AfterTurn(old(others)) && failed == old(failed) + if err then 1 else 0
      ensures old(faults) == [] ==> faults == [] && !err
      ensures old(Quiet()) ==> Quiet() && hist == old(hist)
    {
      hide Run, Good, SoundApprovals, QuorumBy, Follows, OneDeployingPerEnv, OneActivePerCommit, OldestFirst, Older;
      NothingListed();
      Interfere();
      err := Fault();
      at := |hist| - 1;
      EveryRunIsGood(ops);
      GoodAtEnd(hist);
      ps := [];
      if !err {
        var db := Now(hist);
        var all := set id | id in db.promos && IsActive(db.promos[id].status) && db.promos[id].env == env;
        ps := TakeOldest(db, all, |all| + 1);
      }
    }
  }

  lemma {:induction false} NothingListed()
    ensures OldestFirst([])
  {
  }

  // What happened in a stretch of the history also happened in a longer one.
  lemma {:induction false} HappenedStays(h: History, later: History, from: nat, earlier: nat, c: Call, reply: Reply)
    requires h <= later && earlier <= from && HappenedBetween(h, from, c, reply)
    ensures HappenedBetween(later, earlier, c, reply)
  {
    hide Apply;
    var k :| from <= k < |h| && 0 < k && HappenedAt(h, k, c, reply);
    assert later[k - 1] == h[k - 1] && later[k] == h[k];
    assert HappenedAt(later, k, c, reply);
  }

  lemma {:induction false} MovesStays(h: History, later: History, from: nat, earlier: nat, faulty: bool, wasFaulty: bool, c: Call,
          p: Promotion, next: Promotion, q: Promotion)
    requires h <= later && earlier <= from && (faulty ==> wasFaulty) && Moves(h, from, faulty, c, p, next, q)
    ensures Moves(later, earlier, wasFaulty, c, p, next, q)
  {
    hide HappenedBetween;
    if HappenedBetween(h, from, c, Moved(true)) {
      HappenedStays(h, later, from, earlier, c, Moved(true));
    }
    if HappenedBetween(h, from, c, Moved(false)) {
      HappenedStays(h, later, from, earlier, c, Moved(false));
    }
  }

  lemma RunIsValid(store: Store)
    ensures store.Valid() <==> store.hist == Run(store.ops)
  {
  }

  lemma StepExtends(h: History, op: Op)
    ensures h <= Step(h, op)
  {
    hide Legal, CallOf, Apply;
  }

  lemma GoodAtEnd(h: History)
    requires Good(h)
    ensures WellKeyed(Now(h))
  {
    assert GoodAt(h, |h| - 1);
  }

  // What a service read, and what it then asks for, does not depend on what happened since.
  lemma LegalLater(h: History, later: History, op: Op)
    requires h <= later && Legal(h, op)
    ensures Legal(later, op) && CallOf(later, op) == CallOf(h, op)
  {
    hide CanDecide, Advance, Requested, DecisionOf;
  }
}
