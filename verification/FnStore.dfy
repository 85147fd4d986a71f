/** The function and run store (internal/fn/memstore.go): every call is atomic. */
module FnStore {
  import opened Option

  type FnId = nat
  type RunId = nat

  // Times are nanoseconds.
  const TOKEN_GRACE := 300000000000
  const MAX_INVOKE := 900000000000
  const BATCH_SLICE := 780000000000

  // The next instant of a schedule after a given one. None is the zero time the cron library returns
  // when it finds no instant within its search horizon.
  ghost predicate GoesForward(next: int -> Option<int>) {
    forall b :: next(b).Some? ==> next(b).value > b
  }

  type Schedule = next: int -> Option<int> | GoesForward(next) witness b => None

  datatype Function = Function(
    id: FnId, project: int, name: string, lambda: bool, cron: Option<Schedule>, timeoutSeconds: int, maxConcurrency: int,
    scopes: seq<string>, enabled: bool, lastCronAt: Option<int>, createdAt: int)

  datatype Status = Queued | Running | Succeeded | Failed | Cancelled | TimedOut

  datatype Run = Run(
    id: RunId, fn: FnId, status: Status, queuedAt: int, scopes: seq<string>, node: string, startedAt: Option<int>,
    finishedAt: Option<int>, exit: Option<int>, bytesIn: int, bytesOut: int, tail: string)

  datatype Token = Token(run: RunId, scopes: seq<string>, expiresAt: int, revokedAt: Option<int>)

  datatype DB = DB(fns: map<FnId, Function>, runs: map<RunId, Run>, tokens: map<string, Token>)

  // What a report of the end of a run says.
  datatype Report = Report(status: Status, exit: Option<int>, bytesIn: int, bytesOut: int, tail: string, at: int)

  predicate Terminal(s: Status) {
    s != Queued && s != Running
  }

  function RunningOf(db: DB, f: FnId): set<RunId> {
    set id | id in db.runs && db.runs[id].fn == f && db.runs[id].status == Running
  }

  predicate CanStart(db: DB, id: RunId) {
    && id in db.runs && db.runs[id].status == Queued
    && db.runs[id].fn in db.fns && |RunningOf(db, db.runs[id].fn)| < db.fns[db.runs[id].fn].maxConcurrency
  }

  function Started(db: DB, id: RunId, node: string, now: int): DB
    requires id in db.runs
  {
    db.(runs := db.runs[id := db.runs[id].(status := Running, node := node, startedAt := Some(now))])
  }

  function Finished(db: DB, id: RunId, r: Report): DB {
    if id !in db.runs then db
    else
      db.(runs := db.runs[id := db.runs[id].(status := r.status, exit := r.exit, bytesIn := r.bytesIn, bytesOut := r.bytesOut,
                              tail := r.tail, finishedAt := Some(r.at))])
  }

  predicate CanSetCron(db: DB, f: FnId, last: Option<int>) {
    f in db.fns && db.fns[f].lastCronAt == last
  }

  function CronSet(db: DB, f: FnId, now: int): DB
    requires f in db.fns
  {
    db.(fns := db.fns[f := db.fns[f].(lastCronAt := Some(now))])
  }

  function WithToken(db: DB, hash: string, t: Token): DB {
    db.(tokens := db.tokens[hash := t])
  }

  function RevokedIfOf(t: Token, run: RunId, now: int): Token {
    if t.run == run && t.revokedAt == None then t.(revokedAt := Some(now)) else t
  }

  function Revoked(db: DB, run: RunId, now: int): DB {
    db.(tokens := map h | h in db.tokens :: RevokedIfOf(db.tokens[h], run, now))
  }

  predicate NameTaken(db: DB, f: Function) {
    exists id | id in db.fns :: db.fns[id].project == f.project && db.fns[id].name == f.name
  }

  lemma {:induction false} RunningMeans(db: DB, f: FnId)
    ensures RunningOf(db, f) == set o | o in db.runs && db.runs[o].status == Running && db.runs[o].fn == f
  {
  }

  lemma CountOneMore(all: set<nat>, left: set<nat>, x: nat)
    requires x in left
    ensures |all - (left - {x})| == |all - left| + if x in all then 1 else 0
  {
    assert all - (left - {x}) == (all - left) + if x in all then {x} else {};
  }

  class MemStore {
    var fns: map<FnId, Function>
    var runs: map<RunId, Run>
    var tokens: map<string, Token>

    function Value(): DB
      reads this
    {
      DB(fns, runs, tokens)
    }

    constructor ()
      ensures Value() == DB(map[], map[], map[])
    {
      fns, runs, tokens := map[], map[], map[];
    }

    method CreateFunction(f: Function) returns (conflict: bool)
      modifies this`fns
      ensures conflict <==> NameTaken(old(Value()), f)
      ensures conflict <==> exists id :: id in old(fns) && (old(fns)[id].project, old(fns)[id].name) == (f.project, f.name)
      ensures Value() == if conflict then old(Value()) else old(Value()).(fns := old(fns)[f.id := f])
    {
      var left := fns.Keys;
      while left != {}
        invariant left <= fns.Keys && Value() == old(Value())
        invariant forall id :: id in fns && id !in left ==> !(fns[id].project == f.project && fns[id].name == f.name)
        decreases |left|
      {
        var id :| id in left;
        if fns[id].project == f.project && fns[id].name == f.name {
          return true;
        }
        left := left - {id};
      }
      fns := fns[f.id := f];
      return false;
    }

    method DeleteFunction(id: FnId)
      modifies this`fns
      ensures Value() == old(Value()).(fns := old(fns) - {id})
    {
      fns := fns - {id};
    }

    method EnqueueRun(r: Run)
      modifies this`runs
      ensures Value() == old(Value()).(runs := old(runs)[r.id := r])
    {
      runs := runs[r.id := r];
    }

    // A compare-and-set of the last time the cron fired.
    method CASLastCron(id: FnId, last: Option<int>, now: int) returns (ok: bool)
      modifies this`fns
      ensures ok <==> CanSetCron(old(Value()), id, last)
      ensures ok <==> id in old(fns) && old(fns)[id].lastCronAt == last
      ensures fns == if ok then old(fns)[id := old(fns)[id].(lastCronAt := Some(now))] else old(fns)
      ensures Value() == if ok then CronSet(old(Value()), id, now) else old(Value())
    {
      if id !in fns {
        return false;
      }
      var f := fns[id];
      if f.lastCronAt.None? != last.None? || (last.Some? && f.lastCronAt.value != last.value) {
        return false;
      }
      fns := fns[id := f.(lastCronAt := Some(now))];
      return true;
    }

    // Starts a queued run unless its function already runs as often as it may.
    method TryStart(id: RunId, node: string, now: int) returns (ok: bool)
      modifies this`runs
      ensures ok <==> CanStart(old(Value()), id)
      ensures ok <==>
                && id in old(runs) && old(runs)[id].status == Queued && old(runs)[id].fn in fns
                && var at := set o | o in old(runs) && old(runs)[o].status == Running && old(runs)[o].fn == old(runs)[id].fn;
                   |at| < fns[old(runs)[id].fn].maxConcurrency
      ensures runs == if ok then old(runs)[id := old(runs)[id].(status := Running, node := node, startedAt := Some(now))] else old(runs)
      ensures Value() == if ok then Started(old(Value()), id, node, now) else old(Value())
    {
      hide RunningOf;
      if id !in runs || runs[id].status != Queued {
        return false;
      }
      var r := runs[id];
      RunningMeans(Value(), r.fn);
      var n := 0;
      var left := runs.Keys;
      ghost var all := RunningOf(Value(), r.fn);
      assert all - left == {};
      while left != {}
        invariant left <= runs.Keys && runs == old(runs)
        invariant n == |all - left|
        decreases |left|
      {
        var o :| o in left;
        CountOneMore(all, left, o);
        if runs[o].fn == r.fn && runs[o].status == Running {
          n := n + 1;
        }
        left := left - {o};
      }
      assert all - left == all;
      if r.fn !in fns || n >= fns[r.fn].maxConcurrency {
        return false;
      }
      runs := runs[id := r.(status := Running, node := node, startedAt := Some(now))];
      return true;
    }

    method FinishRun(id: RunId, r: Report) returns (missing: bool)
      modifies this`runs
      ensures missing <==> id !in old(runs)
      ensures Value() == Finished(old(Value()), id, r)
      ensures !missing ==> runs == old(runs)[id := runs[id]]
      ensures !missing ==>
                runs[id] == old(runs)[id].(status := r.status, finishedAt := Some(r.at), exit := r.exit, bytesIn := r.bytesIn,
                                           bytesOut := r.bytesOut, tail := r.tail)
    {
      if id !in runs {
        return true;
      }
      runs := runs[id := runs[id].(status := r.status, exit := r.exit, bytesIn := r.bytesIn, bytesOut := r.bytesOut,
                                   tail := r.tail, finishedAt := Some(r.at))];
      return false;
    }

    method PutToken(hash: string, t: Token)
      modifies this`tokens
      ensures Value() == WithToken(old(Value()), hash, t) && tokens == old(tokens)[hash := t]
    {
      tokens := tokens[hash := t];
    }

    method RevokeRunTokens(run: RunId, now: int)
      modifies this`tokens
      ensures Value() == Revoked(old(Value()), run, now)
      ensures tokens.Keys == old(tokens).Keys
      ensures forall h :: h in tokens ==>
                tokens[h] == if old(tokens)[h].run == run && old(tokens)[h].revokedAt == None then old(tokens)[h].(revokedAt := Some(now))
                             else old(tokens)[h]
    {
      var left := tokens.Keys;
      while left != {}
        invariant left <= tokens.Keys == old(tokens).Keys && fns == old(fns) && runs == old(runs)
        invariant forall h :: h in tokens ==>
                    tokens[h] == if h in left then old(tokens)[h] else RevokedIfOf(old(tokens)[h], run, now)
        decreases |left|
      {
        var h :| h in left;
        if tokens[h].run == run && tokens[h].revokedAt == None {
          tokens := tokens[h := tokens[h].(revokedAt := Some(now))];
        }
        left := left - {h};
      }
    }
  }
}
