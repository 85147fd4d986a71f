/** Cron firings over every run of the function queue (internal/fn/service.go, Tick). */
module FnCron {
  import opened Option
  import opened FnStore
  import opened FnRuns

  // A firing consumes the instants after `from` up to and including `to`.
  datatype Firing = Firing(from: int, to: int)

  ghost predicate FiresNow(w: World, op: Op, f: FnId) {
    op.Cron? && op.fn == f && op.last.Some? && Legal(w, op) && CanSetCron(w.db, f, op.last)
  }

  // The firings of f, in order: the successful compare-and-sets of Tick.
  ghost function Firings(ops: seq<Op>, f: FnId): seq<Firing> {
    if ops == [] then []
    else
      var before, op := ops[..|ops| - 1], ops[|ops| - 1];
      Firings(before, f) + if FiresNow(RunAll(before), op, f) then [Firing(op.last.value, op.now)] else []
  }

  predicate Chained(fs: seq<Firing>) {
    forall i :: 0 < i < |fs| ==> fs[i].from == fs[i - 1].to
  }

  // Every firing was due: the next instant after its start was not later than its end, or there was none.
  predicate AllDue(fs: seq<Firing>, next: Schedule) {
    forall i :: 0 <= i < |fs| ==> next(fs[i].from).None? || next(fs[i].from).value <= fs[i].to
  }

  // Where the chain of firings stands.
  ghost predicate Standing(w: World, f: FnId, fs: seq<Firing>) {
    && Chained(fs)
    && (f !in w.known ==> fs == [])
    && (f in w.known && w.known[f].cron.Some? ==>
          && w.known[f].lastCronAt.Some?
          && AllDue(fs, w.known[f].cron.value)
          && (fs != [] ==> fs[0].from == w.known[f].lastCronAt.value)
          && (f in w.db.fns ==> w.db.fns[f].lastCronAt == Some(if fs == [] then w.known[f].lastCronAt.value else fs[|fs| - 1].to)))
    && (f in w.known && w.known[f].cron.None? ==> fs == [])
  }

  lemma FiringStands(w: World, op: Op, f: FnId, fs: seq<Firing>)
    requires Good(w) && Standing(w, f, fs) && FiresNow(w, op, f)
    ensures Standing(Step(w, op), f, fs + [Firing(op.last.value, op.now)])
  {
    hide SoundRuns, SoundTokens, WithinLimits;
    assert Fixed(w.db.fns[f]) == Fixed(w.known[f]);
  }

  lemma OtherStepsStand(w: World, op: Op, f: FnId, fs: seq<Firing>)
    requires Good(w) && Standing(w, f, fs) && !FiresNow(w, op, f)
    ensures Standing(Step(w, op), f, fs)
  {
    hide SoundRuns, SoundTokens, WithinLimits, CanStart, RunningOf, NameTaken, Revoked;
    if op.Revoke? || op.Wipe? {
      RevokedRevokes(w.db, op.id, op.now);
    }
  }

  lemma {:induction false} FiringsStand(ops: seq<Op>, f: FnId)
    ensures Standing(RunAll(ops), f, Firings(ops, f))
  {
    if ops != [] {
      var before, op := ops[..|ops| - 1], ops[|ops| - 1];
      FiringsStand(before, f);
      EveryRunIsGood(before);
      hide Good, Standing, FiresNow, Step;
      if FiresNow(RunAll(before), op, f) {
        FiringStands(RunAll(before), op, f, Firings(before, f));
      } else {
        OtherStepsStand(RunAll(before), op, f, Firings(before, f));
        assert Firings(ops, f) == Firings(before, f);
      }
    }
  }

  // The schedule had a next instant within its horizon at the start of every firing.
  predicate WithinHorizon(fs: seq<Firing>, next: Schedule) {
    forall i :: 0 <= i < |fs| ==> next(fs[i].from).Some?
  }

  predicate Consumes(f: Firing, t: int) {
    f.from < t <= f.to
  }

  lemma {:induction false} ChainGrows(fs: seq<Firing>, next: Schedule, i: nat, j: nat)
    requires Chained(fs) && AllDue(fs, next) && WithinHorizon(fs, next) && i <= j < |fs|
    ensures fs[i].from < fs[i].to <= fs[j].to && (i < j ==> fs[i].to <= fs[j].from)
    decreases j
  {
    assert next(fs[j].from).value > fs[j].from;
    assert next(fs[i].from).value > fs[i].from;
    if i < j {
      ChainGrows(fs, next, i, j - 1);
    }
  }

  lemma {:induction false} FiringsOfSchedule(ops: seq<Op>, f: FnId, next: Schedule)
    requires f in RunAll(ops).known && RunAll(ops).known[f].cron == Some(next)
    ensures Chained(Firings(ops, f)) && AllDue(Firings(ops, f), next)
  {
    hide RunAll, SoundRuns, SoundTokens, WithinLimits, Firings, Chained, AllDue;
    FiringsStand(ops, f);
    EveryRunIsGood(ops);
  }

  /**
   Over any run of any number of Tick loops on any clocks, as long as the schedule keeps having a next
   instant: last_cron_at strictly increases, every firing consumes an interval that holds a scheduled
   instant, and no two firings consume the same instant.
   */
  lemma {:induction false} NoInstantFiresTwice(ops: seq<Op>, f: FnId, next: Schedule, i: nat, j: nat, t: int)
    requires f in RunAll(ops).known && RunAll(ops).known[f].cron == Some(next) && WithinHorizon(Firings(ops, f), next)
    requires i < j < |Firings(ops, f)|
    ensures var a, b := Firings(ops, f)[i], Firings(ops, f)[j];
            && a.from < a.to <= b.from < b.to
            && Consumes(a, next(a.from).value) && Consumes(b, next(b.from).value)
            && !(Consumes(a, t) && Consumes(b, t))
  {
    hide RunAll, Firings;
    FiringsOfSchedule(ops, f, next);
    ChainGrows(Firings(ops, f), next, i, j);
    ChainGrows(Firings(ops, f), next, j, j);
  }

  /** No instant between the first and the last firing is left out. */
  lemma NoInstantIsLost(ops: seq<Op>, f: FnId, next: Schedule, t: int) returns (i: nat)
    requires f in RunAll(ops).known && RunAll(ops).known[f].cron == Some(next)
    requires var fs := Firings(ops, f); fs != [] && fs[0].from < t <= fs[|fs| - 1].to
    ensures i < |Firings(ops, f)| && Consumes(Firings(ops, f)[i], t)
  {
    FiringsOfSchedule(ops, f, next);
    hide RunAll, Firings;
    i := ConsumedBy(Firings(ops, f), t, |Firings(ops, f)|);
  }

  lemma {:induction false} ConsumedBy(fs: seq<Firing>, t: int, n: nat) returns (i: nat)
    requires Chained(fs) && 0 < n <= |fs| && fs[0].from < t <= fs[n - 1].to
    ensures i < n && Consumes(fs[i], t)
  {
    if t > fs[n - 1].from {
      i := n - 1;
    } else {
      i := ConsumedBy(fs, t, n - 1);
    }
  }

  // A Tick that reads the cron of f now, on a clock at `now`, fires it.
  ghost predicate FiresAt(ops: seq<Op>, f: FnId, now: int)
    requires f in RunAll(ops).db.fns && RunAll(ops).db.fns[f].lastCronAt.Some?
  {
    var last := RunAll(ops).db.fns[f].lastCronAt;
    Firings(ops + [Cron(f, last, now)], f) == Firings(ops, f) + [Firing(last.value, now)]
  }

  lemma {:induction false} FiresWhenDue(ops: seq<Op>, f: FnId, next: Schedule, now: int)
    requires f in RunAll(ops).known && RunAll(ops).known[f].cron == Some(next)
    requires f in RunAll(ops).db.fns && RunAll(ops).db.fns[f].lastCronAt.Some?
    ensures var due := next(RunAll(ops).db.fns[f].lastCronAt.value);
            FiresAt(ops, f, now) <==> due == None || due.value <= now
  {
    hide RunAll, SoundRuns, SoundTokens, WithinLimits;
    EveryRunIsGood(ops);
    var last := RunAll(ops).db.fns[f].lastCronAt;
    assert (ops + [Cron(f, last, now)])[..|ops|] == ops;
  }

  /**
   The cron is due at every Tick, on any clock, exactly when the schedule has no next instant within the
   search horizon; a Tick whose clock is behind then moves last_cron_at back.
   */
  lemma {:induction false} FiresWithoutAnInstant(ops: seq<Op>, f: FnId, next: Schedule)
    requires f in RunAll(ops).known && RunAll(ops).known[f].cron == Some(next)
    requires f in RunAll(ops).db.fns && RunAll(ops).db.fns[f].lastCronAt.Some?
    ensures (forall now :: FiresAt(ops, f, now)) <==> next(RunAll(ops).db.fns[f].lastCronAt.value) == None
  {
    hide RunAll, FiresAt;
    var due := next(RunAll(ops).db.fns[f].lastCronAt.value);
    if due == None {
      forall now ensures FiresAt(ops, f, now) {
        FiresWhenDue(ops, f, next, now);
      }
    } else {
      FiresWhenDue(ops, f, next, due.value - 1);
    }
  }

  // ---- the runs that crons enqueue ---------------------------------------------------------------------

  // The starts of the firings of f for which a run was enqueued, in order.
  ghost function Served(ops: seq<Op>, f: FnId): seq<int> {
    if ops == [] then []
    else
      var before, op := ops[..|ops| - 1], ops[|ops| - 1];
      Served(before, f) + if ServesNow(RunAll(before), op, f) then [op.serves.value] else []
  }

  ghost predicate ServesNow(w: World, op: Op, f: FnId) {
    op.Enqueue? && op.fn == f && op.serves.Some? && Legal(w, op)
  }

  predicate StartsOne(fs: seq<Firing>, from: int) {
    exists i | 0 <= i < |fs| :: fs[i].from == from
  }

  // A firing is owed its run or has been served, never both, and it is served once.
  ghost predicate Ledger(w: World, f: FnId, fs: seq<Firing>, served: seq<int>) {
    && (forall from :: (f, from) in w.owed ==> StartsOne(fs, from))
    && (forall i :: 0 <= i < |served| ==> StartsOne(fs, served[i]) && (f, served[i]) !in w.owed)
    && forall i, j :: 0 <= i < j < |served| ==> served[i] != served[j]
  }

  lemma FiringIsOwed(w: World, op: Op, f: FnId, fs: seq<Firing>, served: seq<int>)
    requires Ledger(w, f, fs, served) && FiresNow(w, op, f) && !StartsOne(fs, op.last.value)
    ensures Ledger(Step(w, op), f, fs + [Firing(op.last.value, op.now)], served)
  {
    hide Legal, CanSetCron;
    var longer := fs + [Firing(op.last.value, op.now)];
    assert longer[|fs|].from == op.last.value;
    forall from | StartsOne(fs, from) ensures StartsOne(longer, from) {
      var i :| 0 <= i < |fs| && fs[i].from == from;
      assert longer[i].from == from;
    }
  }

  lemma OtherStepsKeepLedger(w: World, op: Op, f: FnId, fs: seq<Firing>, served: seq<int>)
    requires Ledger(w, f, fs, served) && SoundFunctions(w) && !FiresNow(w, op, f)
    ensures Ledger(Step(w, op), f, fs, if ServesNow(w, op, f) then served + [op.serves.value] else served)
  {
    OwedGrowsByFiring(w, op, f);
    hide StartsOne, Step;
    if ServesNow(w, op, f) {
      ServedIsPaid(w, op, f);
    }
  }

  // Only a firing of f makes a run of f owed.
  lemma OwedGrowsByFiring(w: World, op: Op, f: FnId)
    requires SoundFunctions(w) && !FiresNow(w, op, f)
    ensures forall from :: (f, from) in Step(w, op).owed ==> (f, from) in w.owed
  {
    hide CanStart, NameTaken, Due, Revoked, RunningOf;
    if op.Cron? && Legal(w, op) && CanSetCron(w.db, op.fn, op.last) && op.fn == f {
      assert Fixed(w.db.fns[f]) == Fixed(w.known[f]);
    }
  }

  lemma ServedIsPaid(w: World, op: Op, f: FnId)
    requires ServesNow(w, op, f)
    ensures (f, op.serves.value) in w.owed && (f, op.serves.value) !in Step(w, op).owed
  {
  }

  lemma {:induction false} LedgerStands(ops: seq<Op>, f: FnId, next: Schedule)
    requires f in RunAll(ops).known ==> RunAll(ops).known[f].cron == Some(next)
    requires WithinHorizon(Firings(ops, f), next)
    ensures Ledger(RunAll(ops), f, Firings(ops, f), Served(ops, f))
    decreases |ops|
  {
    hide Good, Standing, FiresNow, Step, Ledger, Chained, AllDue, StartsOne, ServesNow;
    if ops == [] {
      NothingOwed(f);
    } else {
      var before, op := ops[..|ops| - 1], ops[|ops| - 1];
      var w, fs := RunAll(before), Firings(before, f);
      EarlierHorizon(before, ops, f, next);
      LedgerStands(before, f, next);
      EveryRunIsGood(before);
      if FiresNow(w, op, f) {
        NewStart(before, op, f, next);
        FiringIsOwed(w, op, f, fs, Served(before, f));
        NotBoth(w, op, f);
        assert Served(ops, f) == Served(before, f);
      } else {
        GoodFunctions(w);
        OtherStepsKeepLedger(w, op, f, fs, Served(before, f));
        assert Firings(ops, f) == fs;
        if !ServesNow(w, op, f) {
          assert Served(ops, f) == Served(before, f);
        }
      }
    }
  }

  lemma {:induction false} NothingOwed(f: FnId)
    ensures Ledger(RunAll([]), f, Firings([], f), Served([], f))
  {
  }

  lemma GoodFunctions(w: World)
    requires Good(w)
    ensures SoundFunctions(w)
  {
  }

  lemma NotBoth(w: World, op: Op, f: FnId)
    ensures !(FiresNow(w, op, f) && ServesNow(w, op, f))
  {
  }

  lemma {:induction false} EarlierHorizon(before: seq<Op>, ops: seq<Op>, f: FnId, next: Schedule)
    requires ops != [] && before == ops[..|ops| - 1] && WithinHorizon(Firings(ops, f), next)
    requires f in RunAll(ops).known ==> RunAll(ops).known[f].cron == Some(next)
    ensures WithinHorizon(Firings(before, f), next) && Firings(before, f) <= Firings(ops, f)
    ensures f in RunAll(before).known ==> RunAll(before).known[f].cron == Some(next)
  {
    hide RunAll, FiresNow;
    TimePasses(before, ops);
    assert Firings(before, f) <= Firings(ops, f);
    forall i | 0 <= i < |Firings(before, f)| ensures next(Firings(before, f)[i].from).Some? {
      assert Firings(before, f)[i] == Firings(ops, f)[i];
    }
  }

  // A new firing starts where no firing started before.
  lemma {:induction false} NewStart(before: seq<Op>, op: Op, f: FnId, next: Schedule)
    requires FiresNow(RunAll(before), op, f)
    requires f in RunAll(before).known ==> RunAll(before).known[f].cron == Some(next)
    requires WithinHorizon(Firings(before, f), next)
    ensures !StartsOne(Firings(before, f), op.last.value)
  {
    hide RunAll, Firings, SoundRuns, SoundTokens, WithinLimits;
    var fs := Firings(before, f);
    FiringsStand(before, f);
    EveryRunIsGood(before);
    assert Fixed(RunAll(before).db.fns[f]) == Fixed(RunAll(before).known[f]);
    if fs != [] {
      assert op.last.value == fs[|fs| - 1].to;
      forall i: nat | i < |fs| ensures fs[i].from < op.last.value {
        ChainGrows(fs, next, i, |fs| - 1);
      }
    }
  }

  /**
   Over any run of any number of Tick loops on any clocks, as long as the schedule keeps having a next
   instant: every run a cron enqueues is for one firing, and no two runs are for the same scheduled
   instant.
   */
  lemma {:induction false} NoInstantRunsTwice(ops: seq<Op>, f: FnId, next: Schedule, i: nat, j: nat, t: int)
    returns (x: nat, y: nat)
    requires f in RunAll(ops).known && RunAll(ops).known[f].cron == Some(next) && WithinHorizon(Firings(ops, f), next)
    requires i < j < |Served(ops, f)|
    ensures x < |Firings(ops, f)| && y < |Firings(ops, f)| && x != y
    ensures Firings(ops, f)[x].from == Served(ops, f)[i] && Firings(ops, f)[y].from == Served(ops, f)[j]
    ensures !(Consumes(Firings(ops, f)[x], t) && Consumes(Firings(ops, f)[y], t))
  {
    hide RunAll, Firings, Served, Consumes;
    LedgerStands(ops, f, next);
    var fs, served := Firings(ops, f), Served(ops, f);
    assert StartsOne(fs, served[i]) && StartsOne(fs, served[j]);
    x :| 0 <= x < |fs| && fs[x].from == served[i];
    y :| 0 <= y < |fs| && fs[y].from == served[j];
    if x < y {
      NoInstantFiresTwice(ops, f, next, x, y, t);
    } else {
      NoInstantFiresTwice(ops, f, next, y, x, t);
    }
  }
}
